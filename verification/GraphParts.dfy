/** The parts of every graph that builds: the nodes and what hangs under each, and the configured trees. */
module GraphParts {
  import opened Vocabulary
  import opened Options
  import opened Text
  import opened Placement
  import opened Resources
  import opened Graph
  import opened GraphShape

  // ---- what a node reports ----

  /** A count is a quantity's whole units, rounded up: the least that covers it. */
  predicate Covers(q: Quantity, count: nat) {
    q <= 1000 * count && forall less :: 0 <= less < count ==> 1000 * less < q
  }

  /** The amount a node reports of a resource: what is allocatable, or else its capacity, or else none. */
  predicate ReportsOf(n: KubeNode, name: string, count: nat) {
    if name in n.allocatable then Covers(n.allocatable[name], count)
    else if name in n.capacity then Covers(n.capacity[name], count)
    else count == 0
  }

  lemma CountReports(n: KubeNode, name: string)
    ensures ReportsOf(n, name, Count(n, name))
    ensures forall count: nat :: ReportsOf(n, name, count) ==> count == Count(n, name)
  {
    if QuantityOf(n, name).Some? {
      var q := QuantityOf(n, name).value;
      assert Covers(q, Value(q));
      forall count: nat | Covers(q, count) ensures count == Value(q) {
        CoversOnce(q, count, Value(q));
      }
    }
  }

  lemma CoversOnce(q: Quantity, a: nat, b: nat)
    requires Covers(q, a) && Covers(q, b)
    ensures a == b
  {
  }

  /** The memory of a node with cores is split over them in equal chunks of whole MiB, as large as fit. */
  predicate ChunkOf(bytes: nat, cores: nat, chunk: nat) {
    chunk * cores * 1048576 <= bytes < (chunk + 1) * cores * 1048576
  }

  lemma ChunkSplits(n: KubeNode, cores: nat)
    requires cores > 0
    ensures ChunkOf(Count(n, "memory"), cores, MemoryChunkMiB(n, cores))
  {
    var bytes := Count(n, "memory");
    ChunksWithinMemory(n, cores);
    var chunk := MemoryChunkMiB(n, cores);
    assert (chunk + 1) * cores == chunk * cores + cores;
    MibSplits(bytes, chunk * cores, chunk * cores + cores);
    assert (chunk + 1) * cores * 1048576 == (chunk * cores + cores) * 1048576;
  }

  lemma MibSplits(bytes: nat, low: nat, high: nat)
    requires low <= bytes / MIB < high
    ensures low * 1048576 <= bytes < high * 1048576
  {
    assert MIB == 1048576;
  }

  /** A node is part of the graph unless it is cordoned or has a control-plane taint, or when all are asked for. */
  predicate TakesPart(n: KubeNode, opts: Settings) {
    || opts.includeUnschedulable
    || (&& !n.unschedulable
        && "node-role.kubernetes.io/control-plane" !in n.taints && "node-role.kubernetes.io/master" !in n.taints)
  }

  lemma IncludedIs(n: KubeNode, opts: Settings)
    ensures Included(n, opts) <==> TakesPart(n, opts)
  {
  }

  // ---- a node and what is under it ----

  /** A vertex without a name of its own is called by its basename and its number. */
  predicate Unnamed(v: Vertex, typ: string, size: nat, unit: string) {
    && v.typ == v.basename == typ && v.name == typ + Dec(v.id) && v.size == size && v.unit == unit
    && v.props == {} && v.metadata == map[] && !v.exclusive && v.rank == -1
  }

  predicate IsNode(v: Vertex, n: KubeNode) {
    && v.typ == v.basename == "node" && v.name == (if n.name != "" then n.name else "node" + Dec(v.id)) && v.size == 1
    && v.props == {"virtual=false"} && v.metadata == map["hostname" := n.name] && !v.exclusive
  }

  /** The vertices from at on, so many, are all of a kind and hang under the vertex given. */
  predicate Batch(g: Built, under: nat, at: nat, count: nat, typ: string, size: nat, unit: string)
    requires |g.edges| + 1 == |g.vertices|
  {
    && under < at && at + count <= |g.vertices|
    && forall i :: at <= i < at + count ==>
         Unnamed(g.vertices[i], typ, size, unit) && g.edges[i - 1] == (g.vertices[under].key, g.vertices[i].key)
  }

  function ChunkCount(cores: nat, chunk: nat): nat {
    if chunk > 0 then cores else 0
  }

  /** A node's vertex hangs under the root; under it a vertex for each core, its memory in a chunk per core, and a vertex for each gpu. */
  predicate Block(g: Built, at: nat, n: KubeNode, cores: nat, chunk: nat, gpus: nat)
    requires |g.edges| + 1 == |g.vertices|
  {
    && 0 < at < |g.vertices| && IsNode(g.vertices[at], n) && g.edges[at - 1] == (g.vertices[0].key, g.vertices[at].key)
    && Batch(g, at, at + 1, cores, "core", 1, "")
    && Batch(g, at, at + 1 + cores, ChunkCount(cores, chunk), "memory", chunk, "MiB")
    && Batch(g, at, at + 1 + cores + ChunkCount(cores, chunk), gpus, "gpu", 1, "")
  }

  /** A graph goes on from another: nothing there changes. */
  predicate Extends(g': Built, g: Built) {
    && |g.edges| + 1 == |g.vertices| && |g'.edges| + 1 == |g'.vertices|
    && g.vertices <= g'.vertices && g.edges <= g'.edges
  }

  lemma ExtendsThen(g2: Built, g1: Built, g0: Built)
    requires Extends(g2, g1) && Extends(g1, g0)
    ensures Extends(g2, g0)
  {
  }

  lemma BatchKept(g': Built, g: Built, under: nat, at: nat, count: nat, typ: string, size: nat, unit: string)
    requires Extends(g', g) && Batch(g, under, at, count, typ, size, unit)
    ensures Batch(g', under, at, count, typ, size, unit)
  {
    forall i | at <= i < at + count
      ensures Unnamed(g'.vertices[i], typ, size, unit) && g'.edges[i - 1] == (g'.vertices[under].key, g'.vertices[i].key)
    {
      assert g'.vertices[i] == g.vertices[i] && g'.edges[i - 1] == g.edges[i - 1] && g'.vertices[under] == g.vertices[under];
    }
  }

  lemma BlockKept(g': Built, g: Built, at: nat, n: KubeNode, cores: nat, chunk: nat, gpus: nat)
    requires Extends(g', g) && Block(g, at, n, cores, chunk, gpus)
    ensures Block(g', at, n, cores, chunk, gpus)
  {
    BatchKept(g', g, at, at + 1, cores, "core", 1, "");
    BatchKept(g', g, at, at + 1 + cores, ChunkCount(cores, chunk), "memory", chunk, "MiB");
    BatchKept(g', g, at, at + 1 + cores + ChunkCount(cores, chunk), gpus, "gpu", 1, "");
    assert g'.vertices[at] == g.vertices[at] && g'.edges[at - 1] == g.edges[at - 1] && g'.vertices[0] == g.vertices[0];
  }

  lemma AddExtends(g: Built, parent: nat, item: Item, rank: int)
    requires |g.edges| + 1 == |g.vertices| && parent < |g.vertices|
    ensures var g' := Add(g, Some(parent), item, rank);
            && Extends(g', g) && |g'.vertices| == |g.vertices| + 1
            && g'.edges[|g.edges|] == (g.vertices[parent].key, g'.vertices[|g.vertices|].key)
  {
  }

  lemma {:induction false} CopiesBatch(m: Making, under: nat, typ: string, size: nat, unit: string, count: nat)
    requires |m.g.edges| + 1 == |m.g.vertices| && under < |m.g.vertices| && typ != "" && typ != "node"
    ensures var g' := Copies(m, under, Item(typ, typ, "", size, unit, {}), count).g;
            && Extends(g', m.g) && |g'.vertices| == |m.g.vertices| + count
            && Batch(g', under, |m.g.vertices|, count, typ, if size == 0 then 1 else size, unit)
    decreases count
  {
    if count > 0 {
      var item := Item(typ, typ, "", size, unit, {});
      CopiesBatch(m, under, typ, size, unit, count - 1);
      var before := Copies(m, under, item, count - 1).g;
      AddExtends(before, under, item, -1);
      BatchKept(Copies(m, under, item, count).g, before, under, |m.g.vertices|, count - 1, typ, if size == 0 then 1 else size, unit);
      ExtendsThen(Copies(m, under, item, count).g, before, m.g);
    }
  }

  /** One node more puts its block at the end. */
  lemma AddNodeBlock(m: Making, n: KubeNode, gpuName: string)
    requires |m.g.edges| + 1 == |m.g.vertices|
    ensures var g', cores := AddNode(m, n, gpuName).g, Count(n, "cpu");
            var chunk := MemoryChunkMiB(n, cores);
            && Extends(g', m.g) && Block(g', |m.g.vertices|, n, cores, chunk, Count(n, gpuName))
            && |g'.vertices| == |m.g.vertices| + 1 + cores + ChunkCount(cores, chunk) + Count(n, gpuName)
  {
    var v, cores, gpus := |m.g.vertices|, Count(n, "cpu"), Count(n, gpuName);
    var chunk := MemoryChunkMiB(n, cores);
    var m0 := Child(m, 0, NodeItem(n));
    AddExtends(m.g, 0, NodeItem(n), m.next);
    var m1 := Copies(m0, v, CORE, cores);
    CopiesBatch(m0, v, "core", 0, "", cores);
    var m2 := if chunk > 0 then Copies(m1, v, MemoryItem(chunk), cores) else m1;
    CopiesBatch(m1, v, "memory", chunk, "MiB", ChunkCount(cores, chunk));
    assert m2 == Copies(m1, v, MemoryItem(chunk), ChunkCount(cores, chunk));
    var m3 := Copies(m2, v, GPU, gpus);
    CopiesBatch(m2, v, "gpu", 0, "", gpus);
    BlockStands(m.g, m0.g, m1.g, m2.g, m3.g, n, cores, chunk, gpus);
  }

  lemma BlockStands(g: Built, g0: Built, g1: Built, g2: Built, g3: Built, n: KubeNode, cores: nat, chunk: nat, gpus: nat)
    requires Extends(g0, g) && Extends(g1, g0) && Extends(g2, g1) && Extends(g3, g2)
    requires |g0.vertices| == |g.vertices| + 1 && |g1.vertices| == |g0.vertices| + cores
    requires |g2.vertices| == |g1.vertices| + ChunkCount(cores, chunk) && |g3.vertices| == |g2.vertices| + gpus
    requires IsNode(g0.vertices[|g.vertices|], n) && g0.edges[|g.edges|] == (g.vertices[0].key, g0.vertices[|g.vertices|].key)
    requires Batch(g1, |g.vertices|, |g0.vertices|, cores, "core", 1, "")
    requires chunk > 0 ==> Batch(g2, |g.vertices|, |g1.vertices|, ChunkCount(cores, chunk), "memory", chunk, "MiB")
    requires Batch(g3, |g.vertices|, |g2.vertices|, gpus, "gpu", 1, "")
    ensures Extends(g3, g) && Block(g3, |g.vertices|, n, cores, chunk, gpus)
  {
    ExtendsThen(g3, g2, g1);
    ExtendsThen(g3, g1, g0);
    ExtendsThen(g3, g0, g);
    BatchKept(g3, g1, |g.vertices|, |g0.vertices|, cores, "core", 1, "");
    if chunk > 0 {
      BatchKept(g3, g2, |g.vertices|, |g1.vertices|, ChunkCount(cores, chunk), "memory", chunk, "MiB");
    }
  }

  // ---- all nodes ----

  function BlockSize(n: KubeNode, gpuName: string): nat {
    var cores := Count(n, "cpu");
    1 + cores + ChunkCount(cores, MemoryChunkMiB(n, cores)) + Count(n, gpuName)
  }

  /** Where the block of node i starts: after the root and the blocks of the nodes before it that take part. */
  function BlockAt(nodes: seq<KubeNode>, opts: Settings, i: nat): nat
    requires i <= |nodes|
  {
    if i == 0 then 1
    else BlockAt(nodes, opts, i - 1) + if TakesPart(nodes[i - 1], opts) then BlockSize(nodes[i - 1], GpuName(opts)) else 0
  }

  predicate BlockOf(g: Built, nodes: seq<KubeNode>, opts: Settings, i: nat)
    requires i < |nodes| && |g.edges| + 1 == |g.vertices|
  {
    var n := nodes[i];
    TakesPart(n, opts) ==>
      Block(g, BlockAt(nodes, opts, i), n, Count(n, "cpu"), MemoryChunkMiB(n, Count(n, "cpu")), Count(n, GpuName(opts)))
  }

  lemma BlocksStay(g': Built, g: Built, nodes: seq<KubeNode>, opts: Settings, n: nat)
    requires Extends(g', g) && n <= |nodes| && forall i :: 0 <= i < n ==> BlockOf(g, nodes, opts, i)
    ensures forall i :: 0 <= i < n ==> BlockOf(g', nodes, opts, i)
  {
    forall i | 0 <= i < n ensures BlockOf(g', nodes, opts, i) {
      assert BlockOf(g, nodes, opts, i);
      if TakesPart(nodes[i], opts) {
        BlockKept(g', g, BlockAt(nodes, opts, i), nodes[i], Count(nodes[i], "cpu"),
                  MemoryChunkMiB(nodes[i], Count(nodes[i], "cpu")), Count(nodes[i], GpuName(opts)));
      }
    }
  }

  /** The root and the blocks of the first n nodes, and nothing else. */
  predicate BlocksUpTo(g: Built, nodes: seq<KubeNode>, opts: Settings, n: nat)
    requires n <= |nodes|
  {
    && |g.edges| + 1 == |g.vertices| == BlockAt(nodes, opts, n) && IsRoot(g, opts)
    && forall i :: 0 <= i < n ==> BlockOf(g, nodes, opts, i)
  }

  lemma BlocksNext(m: Making, nodes: seq<KubeNode>, opts: Settings, n: nat)
    requires n < |nodes| && BlocksUpTo(m.g, nodes, opts, n)
    ensures BlocksUpTo(if Included(nodes[n], opts) then AddNode(m, nodes[n], GpuName(opts)).g else m.g, nodes, opts, n + 1)
  {
    IncludedIs(nodes[n], opts);
    if TakesPart(nodes[n], opts) {
      var g := AddNode(m, nodes[n], GpuName(opts)).g;
      AddNodeBlock(m, nodes[n], GpuName(opts));
      BlocksOn(g, m.g, nodes, opts, n);
    }
  }

  lemma BlocksOn(g': Built, g: Built, nodes: seq<KubeNode>, opts: Settings, n: nat)
    requires n < |nodes| && BlocksUpTo(g, nodes, opts, n) && TakesPart(nodes[n], opts) && Extends(g', g)
    requires |g'.vertices| == |g.vertices| + BlockSize(nodes[n], GpuName(opts))
    requires Block(g', |g.vertices|, nodes[n], Count(nodes[n], "cpu"), MemoryChunkMiB(nodes[n], Count(nodes[n], "cpu")), Count(nodes[n], GpuName(opts)))
    ensures BlocksUpTo(g', nodes, opts, n + 1)
  {
    BlocksStay(g', g, nodes, opts, n);
    assert g'.vertices[0] == g.vertices[0];
  }

  lemma AddNodesStep(nodes: seq<KubeNode>, opts: Settings, n: nat)
    requires n < |nodes|
    ensures var before := AddNodes(Start(opts), nodes[..n], opts);
            AddNodes(Start(opts), nodes[..n + 1], opts) ==
            if Included(nodes[n], opts) then Hosts(AddNode(before.m, nodes[n], GpuName(opts)), before.parents[nodes[n].name := |before.m.g.vertices|])
            else before
  {
    assert nodes[..n + 1][..n] == nodes[..n];
  }

  lemma {:induction false} AddNodesBlocks(nodes: seq<KubeNode>, opts: Settings, n: nat)
    requires n <= |nodes|
    ensures BlocksUpTo(AddNodes(Start(opts), nodes[..n], opts).m.g, nodes, opts, n)
    decreases n
  {
    if n > 0 {
      AddNodesBlocks(nodes, opts, n - 1);
      AddNodesStep(nodes, opts, n - 1);
      BlocksNext(AddNodes(Start(opts), nodes[..n - 1], opts).m, nodes, opts, n - 1);
    }
  }

  /** The root is the cluster, under its configured name or "cluster". */
  predicate IsRoot(g: Built, opts: Settings) {
    && g.vertices != []
    && var v := g.vertices[0];
       && v.typ == v.basename == "cluster" && v.name == (if opts.clusterName == "" then "cluster" else opts.clusterName)
       && v.size == 1 && v.props == {} && v.rank == -1
  }

  lemma {:induction false} EdgesPerVertex(t: Tree, above: string, at: nat)
    ensures |TreeEdges(t, above, at)| == |Preorder(t)|
    decreases t, |t.kids| + 1
  {
    KidEdgesPerVertex(t, |t.kids|, at);
  }

  lemma {:induction false} KidEdgesPerVertex(t: Tree, n: nat, at: nat)
    requires n <= |t.kids|
    ensures |KidEdges(t, n, at)| == |PreorderKids(t, n)|
    decreases t, n
  {
    if n > 0 {
      KidEdgesPerVertex(t, n - 1, at);
      EdgesPerVertex(t.kids[n - 1], Dec(at), at + 1 + |PreorderKids(t, n - 1)|);
    }
  }

  /**
   * In every graph that builds, the cluster is the root; each node that takes part hangs
   * under it by name, with its hostname and the mark of a physical node; and under each
   * node, nowhere else, are a vertex for each of its cores, its memory in a chunk per core
   * and a vertex for each of its gpus.
   */
  lemma NodesHang(nodes: seq<KubeNode>, opts: Settings, i: nat)
    requires Build(nodes, opts).Done? && i < |nodes|
    ensures var g := Build(nodes, opts).g; |g.edges| + 1 == |g.vertices| && IsRoot(g, opts) && BlockOf(g, nodes, opts, i)
    ensures ReportsOf(nodes[i], "cpu", Count(nodes[i], "cpu")) && ReportsOf(nodes[i], "memory", Count(nodes[i], "memory"))
    ensures ReportsOf(nodes[i], if opts.gpuResource == "" then "nvidia.com/gpu" else opts.gpuResource, Count(nodes[i], GpuName(opts)))
    ensures var cores := Count(nodes[i], "cpu"); cores > 0 ==> ChunkOf(Count(nodes[i], "memory"), cores, MemoryChunkMiB(nodes[i], cores))
  {
    var n := nodes[i];
    HandlesKept(Start(opts), nodes, opts);
    var hosts := AddNodes(Start(opts), nodes, opts);
    assert nodes[..|nodes|] == nodes;
    AddNodesBlocks(nodes, opts, |nodes|);
    assert opts.resources[..|opts.resources|] == opts.resources;
    AppendPlants(hosts.m, hosts.parents, ClusterName(opts), opts.resources, |opts.resources|);
    assert BlockOf(hosts.m.g, nodes, opts, i);
    if TakesPart(n, opts) {
      BlockKept(Build(nodes, opts).g, hosts.m.g, BlockAt(nodes, opts, i), n, Count(n, "cpu"), MemoryChunkMiB(n, Count(n, "cpu")), Count(n, GpuName(opts)));
    }
    CountReports(n, "cpu");
    CountReports(n, "memory");
    CountReports(n, GpuName(opts));
    if Count(n, "cpu") > 0 {
      ChunkSplits(n, Count(n, "cpu"));
    }
  }

  // ---- the configured trees ----

  /** The names given to a tree's vertices, each before its children's. */
  function Given(t: Tree): seq<string>
    decreases t, |t.kids| + 1
  {
    [t.name] + GivenKids(t, |t.kids|)
  }

  function GivenKids(t: Tree, n: nat): seq<string>
    requires n <= |t.kids|
    decreases t, n
  {
    if n == 0 then [] else GivenKids(t, n - 1) + Given(t.kids[n - 1])
  }

  lemma {:induction false} GivenPerVertex(t: Tree)
    ensures |Given(t)| == |Preorder(t)|
    decreases t, |t.kids| + 1
  {
    GivenPerKid(t, |t.kids|);
  }

  lemma {:induction false} GivenPerKid(t: Tree, n: nat)
    requires n <= |t.kids|
    ensures |GivenKids(t, n)| == |PreorderKids(t, n)|
    decreases t, n
  {
    if n > 0 {
      GivenPerKid(t, n - 1);
      GivenPerVertex(t.kids[n - 1]);
    }
  }

  /** A vertex has the name given, or else is called by basename and number. */
  predicate Called(v: Vertex, name: string) {
    v.name == (if name != "" then name else v.basename + Dec(v.id)) && v.unit == "" && !v.exclusive
  }

  /** The vertices from at on are called by the names given. */
  predicate CalledBy(g: Built, at: nat, names: seq<string>) {
    at + |names| <= |g.vertices| && forall i :: 0 <= i < |names| ==> Called(g.vertices[at + i], names[i])
  }

  /** A tree's vertices stand from at on, as configured, under the vertex given and under one another as in the tree. */
  predicate Planted(g: Built, under: nat, at: nat, t: Tree)
    requires |g.edges| + 1 == |g.vertices|
  {
    && under < at && at + |Preorder(t)| <= |g.vertices| && |TreeEdges(t, g.vertices[under].key, at)| == |Preorder(t)|
    && Tags(g.vertices)[at..at + |Preorder(t)|] == Preorder(t)
    && g.edges[at - 1..at - 1 + |Preorder(t)|] == TreeEdges(t, g.vertices[under].key, at)
    && CalledBy(g, at, Given(t))
  }

  lemma CalledKept(g': Built, g: Built, at: nat, names: seq<string>)
    requires g.vertices <= g'.vertices && CalledBy(g, at, names)
    ensures CalledBy(g', at, names)
  {
    forall i | 0 <= i < |names| ensures Called(g'.vertices[at + i], names[i]) {
      assert g'.vertices[at + i] == g.vertices[at + i];
    }
  }

  lemma CalledThen(g: Built, at: nat, a: seq<string>, b: seq<string>)
    requires CalledBy(g, at, a) && CalledBy(g, at + |a|, b)
    ensures CalledBy(g, at, a + b)
  {
    forall i | 0 <= i < |a + b| ensures Called(g.vertices[at + i], (a + b)[i]) {
      if i < |a| {
        assert Called(g.vertices[at + i], a[i]);
      } else {
        var j := i - |a|;
        assert Called(g.vertices[at + |a| + j], b[j]) && at + |a| + j == at + i;
      }
    }
  }

  lemma CalledOn(g': Built, g: Built, at: nat, a: seq<string>, b: seq<string>)
    requires g.vertices <= g'.vertices && |g.vertices| == at + |a| && CalledBy(g, at, a) && CalledBy(g', |g.vertices|, b)
    ensures CalledBy(g', at, a + b)
  {
    CalledKept(g', g, at, a);
    CalledThen(g', at, a, b);
  }

  lemma ResourceSize(m: Making, parent: nat, t: Tree)
    requires parent < |m.g.vertices|
    ensures |AddResource(m, parent, t).g.vertices| == |m.g.vertices| + |Given(t)|
  {
    GivenPerVertex(t);
    ResourceGrows(m, parent, t);
    GrownKeeps(AddResource(m, parent, t).g, m.g, Preorder(t), TreeEdges(t, m.g.vertices[parent].key, |m.g.vertices|), parent);
  }

  lemma {:induction false} ResourceCalled(m: Making, parent: nat, t: Tree)
    requires parent < |m.g.vertices|
    ensures CalledBy(AddResource(m, parent, t).g, |m.g.vertices|, Given(t))
    ensures m.g.vertices <= AddResource(m, parent, t).g.vertices
    decreases t, |t.kids| + 1
  {
    var top := NodeChild(m, parent, ResourceItem(t));
    assert CalledBy(top.g, |m.g.vertices|, [t.name]);
    KidsCalled(top, |m.g.vertices|, t, |t.kids|);
    CalledKept(AddResource(m, parent, t).g, top.g, |m.g.vertices|, [t.name]);
    CalledThen(AddResource(m, parent, t).g, |m.g.vertices|, [t.name], GivenKids(t, |t.kids|));
  }

  /** From at on, a graph grown from another has vertices of these names, and no other new ones. */
  predicate Brings(g': Built, g: Built, names: seq<string>) {
    g.vertices <= g'.vertices && |g'.vertices| == |g.vertices| + |names| && CalledBy(g', |g.vertices|, names)
  }

  lemma BringsThen(g2: Built, g1: Built, g0: Built, a: seq<string>, b: seq<string>)
    requires Brings(g1, g0, a) && Brings(g2, g1, b)
    ensures Brings(g2, g0, a + b)
  {
    CalledOn(g2, g1, |g0.vertices|, a, b);
  }

  lemma ResourceBrings(m: Making, parent: nat, t: Tree)
    requires parent < |m.g.vertices| && CalledBy(AddResource(m, parent, t).g, |m.g.vertices|, Given(t))
    requires m.g.vertices <= AddResource(m, parent, t).g.vertices
    ensures Brings(AddResource(m, parent, t).g, m.g, Given(t))
  {
    ResourceSize(m, parent, t);
  }

  lemma {:induction false} KidsCalled(m: Making, v: nat, t: Tree, n: nat)
    requires v < |m.g.vertices| && n <= |t.kids|
    ensures Brings(AddKids(m, v, t, n).g, m.g, GivenKids(t, n))
    decreases t, n
  {
    if n > 0 {
      var prev := AddKids(m, v, t, n - 1);
      KidsCalled(m, v, t, n - 1);
      ResourceCalled(prev, v, t.kids[n - 1]);
      OneKidMore(m, v, t, n, prev);
    }
  }

  lemma OneKidMore(m: Making, v: nat, t: Tree, n: nat, prev: Making)
    requires v < |m.g.vertices| && 0 < n <= |t.kids| && prev == AddKids(m, v, t, n - 1) && Brings(prev.g, m.g, GivenKids(t, n - 1))
    requires CalledBy(AddResource(prev, v, t.kids[n - 1]).g, |prev.g.vertices|, Given(t.kids[n - 1]))
    requires prev.g.vertices <= AddResource(prev, v, t.kids[n - 1]).g.vertices
    ensures Brings(AddKids(m, v, t, n).g, m.g, GivenKids(t, n))
  {
    ResourceBrings(prev, v, t.kids[n - 1]);
    BringsThen(AddKids(m, v, t, n).g, prev.g, m.g, GivenKids(t, n - 1), Given(t.kids[n - 1]));
  }

  lemma ResourcePlanted(m: Making, parent: nat, t: Tree)
    requires |m.g.edges| + 1 == |m.g.vertices| && parent < |m.g.vertices|
    ensures var g := AddResource(m, parent, t).g;
            Extends(g, m.g) && |g.vertices| == |m.g.vertices| + |Preorder(t)| && Planted(g, parent, |m.g.vertices|, t)
  {
    var g, at := AddResource(m, parent, t).g, |m.g.vertices|;
    ResourceGrows(m, parent, t);
    EdgesPerVertex(t, m.g.vertices[parent].key, at);
    GrownKeeps(g, m.g, Preorder(t), TreeEdges(t, m.g.vertices[parent].key, at), parent);
    ResourceCalled(m, parent, t);
    assert |Tags(m.g.vertices)| == at && Tags(g.vertices)[at..at + |Preorder(t)|] == Preorder(t);
    assert g.edges[at - 1..at - 1 + |Preorder(t)|] == TreeEdges(t, m.g.vertices[parent].key, at);
  }

  lemma PlantedKept(g': Built, g: Built, under: nat, at: nat, t: Tree)
    requires Extends(g', g) && Planted(g, under, at, t)
    ensures Planted(g', under, at, t)
  {
    CalledKept(g', g, at, Given(t));
    assert g'.vertices[under] == g.vertices[under];
    assert Tags(g'.vertices)[at..at + |Preorder(t)|] == Tags(g.vertices)[at..at + |Preorder(t)|];
    assert g'.edges[at - 1..at - 1 + |Preorder(t)|] == g.edges[at - 1..at - 1 + |Preorder(t)|];
  }

  /** The vertex a parent's name stands for: the last of the first n nodes that takes part and is called so, or else the root. */
  function ParentAt(nodes: seq<KubeNode>, opts: Settings, n: nat, name: string): nat
    requires n <= |nodes|
  {
    if n == 0 then 0
    else if TakesPart(nodes[n - 1], opts) && nodes[n - 1].name == name then BlockAt(nodes, opts, n - 1)
    else ParentAt(nodes, opts, n - 1, name)
  }

  lemma {:induction false} ParentsStandFor(nodes: seq<KubeNode>, opts: Settings, n: nat)
    requires n <= |nodes|
    ensures var parents := AddNodes(Start(opts), nodes[..n], opts).parents;
            forall name :: name in parents ==> parents[name] == ParentAt(nodes, opts, n, name)
    decreases n
  {
    if n > 0 {
      ParentsStandFor(nodes, opts, n - 1);
      AddNodesBlocks(nodes, opts, n - 1);
      AddNodesStep(nodes, opts, n - 1);
      IncludedIs(nodes[n - 1], opts);
    }
  }

  function TreeAt(resources: seq<Resolved>, from: nat, i: nat): nat
    requires i <= |resources|
  {
    if i == 0 then from else TreeAt(resources, from, i - 1) + |Preorder(TreeOf(resources[i - 1]))|
  }

  predicate TreeStands(g: Built, parents: map<string, nat>, clusterName: string, resources: seq<Resolved>, from: nat, i: nat)
    requires i < |resources| && |g.edges| + 1 == |g.vertices|
  {
    && ParentName(resources[i], clusterName) in parents
    && Planted(g, parents[ParentName(resources[i], clusterName)], TreeAt(resources, from, i), TreeOf(resources[i]))
  }

  lemma {:induction false} AppendPlants(m: Making, parents: map<string, nat>, clusterName: string, resources: seq<Resolved>, n: nat)
    requires HandlesRight(parents, m) && |m.g.edges| + 1 == |m.g.vertices| && n <= |resources|
    ensures var r := AppendResources(m, parents, clusterName, resources[..n]);
            r.Grown? ==>
              && Extends(r.m.g, m.g) && |r.m.g.vertices| == TreeAt(resources, |m.g.vertices|, n)
              && forall i :: 0 <= i < n ==> TreeStands(r.m.g, parents, clusterName, resources, |m.g.vertices|, i)
    decreases n
  {
    if n > 0 {
      var res, from := resources[n - 1], |m.g.vertices|;
      AppendPlants(m, parents, clusterName, resources, n - 1);
      assert resources[..n][..n - 1] == resources[..n - 1];
      var before := AppendResources(m, parents, clusterName, resources[..n - 1]);
      if before.Grown? && ParentName(res, clusterName) in parents {
        var under := parents[ParentName(res, clusterName)];
        ResourcePlanted(before.m, under, TreeOf(res));
        var g := AddResource(before.m, under, TreeOf(res)).g;
        ExtendsThen(g, before.m.g, m.g);
        forall i | 0 <= i < n - 1 ensures TreeStands(g, parents, clusterName, resources, from, i) {
          assert TreeStands(before.m.g, parents, clusterName, resources, from, i);
          PlantedKept(g, before.m.g, parents[ParentName(resources[i], clusterName)], TreeAt(resources, from, i), TreeOf(resources[i]));
        }
      }
    }
  }

  /**
   * In every graph that builds, each configured tree stands after the nodes and the trees
   * before it, under the root or the node its parent names, with its vertices, names and
   * edges as configured.
   */
  lemma TreesHang(nodes: seq<KubeNode>, opts: Settings, i: nat)
    requires Build(nodes, opts).Done? && i < |opts.resources|
    ensures var g, res := Build(nodes, opts).g, opts.resources[i];
            var cluster := if opts.clusterName == "" then "cluster" else opts.clusterName;
            && |g.edges| + 1 == |g.vertices|
            && Planted(g, ParentAt(nodes, opts, |nodes|, if res.parent == "" then cluster else res.parent),
                       TreeAt(opts.resources, BlockAt(nodes, opts, |nodes|), i), TreeOf(res))
  {
    HandlesKept(Start(opts), nodes, opts);
    var hosts := AddNodes(Start(opts), nodes, opts);
    assert nodes[..|nodes|] == nodes && opts.resources[..|opts.resources|] == opts.resources;
    AddNodesBlocks(nodes, opts, |nodes|);
    ParentsStandFor(nodes, opts, |nodes|);
    AppendPlants(hosts.m, hosts.parents, ClusterName(opts), opts.resources, |opts.resources|);
    assert TreeStands(Build(nodes, opts).g, hosts.parents, ClusterName(opts), opts.resources, |hosts.m.g.vertices|, i);
  }

  lemma {:induction false} FirstStray(m: Making, parents: map<string, nat>, clusterName: string, resources: seq<Resolved>) returns (k: nat)
    requires HandlesRight(parents, m) && AppendResources(m, parents, clusterName, resources).Stray?
    ensures k < |resources| && ParentName(resources[k], clusterName) !in parents
    ensures forall i :: 0 <= i < k ==> ParentName(resources[i], clusterName) in parents
    ensures AppendResources(m, parents, clusterName, resources) == Stray(resources[k].typ, ParentName(resources[k], clusterName))
    decreases |resources|
  {
    var init := resources[..|resources| - 1];
    if AppendResources(m, parents, clusterName, init).Stray? {
      k := FirstStray(m, parents, clusterName, init);
    } else {
      k := |resources| - 1;
      AppendsIff(m, parents, clusterName, init);
      assert forall i :: 0 <= i < k ==> init[i] == resources[i];
    }
  }

  /** A graph that does not build names the first tree whose parent is neither the cluster nor a node that takes part. */
  lemma StrayNamed(nodes: seq<KubeNode>, opts: Settings) returns (k: nat)
    requires !Build(nodes, opts).Done?
    ensures var cluster := if opts.clusterName == "" then "cluster" else opts.clusterName;
            && k < |opts.resources|
            && Build(nodes, opts) == UnknownParent(opts.resources[k].typ, if opts.resources[k].parent == "" then cluster else opts.resources[k].parent)
            && !Known(nodes, opts, k) && forall i :: 0 <= i < k ==> Known(nodes, opts, i)
  {
    HandlesKept(Start(opts), nodes, opts);
    var hosts := AddNodes(Start(opts), nodes, opts);
    k := FirstStray(hosts.m, hosts.parents, ClusterName(opts), opts.resources);
    assert nodes[..|nodes|] == nodes;
    forall i | 0 <= i < |opts.resources| ensures Known(nodes, opts, i) <==> ParentName(opts.resources[i], ClusterName(opts)) in hosts.parents {
      ParentsAre(nodes, opts, |nodes|, ParentName(opts.resources[i], ClusterName(opts)));
    }
  }

  /** The parent of tree i is the cluster or a node that takes part. */
  predicate Known(nodes: seq<KubeNode>, opts: Settings, i: nat)
    requires i < |opts.resources|
  {
    var cluster := if opts.clusterName == "" then "cluster" else opts.clusterName;
    var name := if opts.resources[i].parent == "" then cluster else opts.resources[i].parent;
    name == cluster || exists j :: 0 <= j < |nodes| && TakesPart(nodes[j], opts) && nodes[j].name == name
  }

  // ---- what a configured vertex carries ----

  function Joined(parts: seq<seq<Tag>>, n: nat): seq<Tag>
    requires n <= |parts|
  {
    if n == 0 then [] else Joined(parts, n - 1) + parts[n - 1]
  }

  /** A tree's vertices as loaded, each before its children. */
  function LoadedTags(r: Resolved): seq<Tag>
    decreases r
  {
    [Tag("node", r.typ, if r.count == 0 then 1 else r.count, VirtualProperties(r), map[])]
    + Joined(seq(|r.kids|, i requires 0 <= i < |r.kids| => LoadedTags(r.kids[i])), |r.kids|)
  }

  /** Built as configured, a tree carries what was loaded. */
  lemma {:induction false} TreeAsLoaded(r: Resolved)
    ensures Preorder(TreeOf(r)) == LoadedTags(r) && TreeOf(r).name == r.name && |TreeOf(r).kids| == |r.kids|
    decreases r
  {
    var t := TreeOf(r);
    var parts := seq(|r.kids|, i requires 0 <= i < |r.kids| => LoadedTags(r.kids[i]));
    forall i | 0 <= i < |r.kids| ensures Preorder(t.kids[i]) == parts[i] {
      TreeAsLoaded(r.kids[i]);
    }
    KidTags(t, parts, |r.kids|);
  }

  lemma {:induction false} KidTags(t: Tree, parts: seq<seq<Tag>>, n: nat)
    requires n <= |parts| == |t.kids| && forall i :: 0 <= i < |parts| ==> Preorder(t.kids[i]) == parts[i]
    ensures PreorderKids(t, n) == Joined(parts, n)
    decreases n
  {
    if n > 0 {
      KidTags(t, parts, n - 1);
    }
  }

  /** A key with its value, or alone when the value is empty. */
  predicate Writes(p: string, key: string, value: string) {
    p == if value == "" then key else key + "=" + value
  }

  predicate TypeAt(r: Resolved, place: Place, t: string) {
    HasResolved(r, place) && At(r, place).typ == t
  }

  lemma {:induction false} ClassOf(r: Resolved, place: Place)
    requires HasResolved(r, place)
    ensures At(r, place).typ in SubtreeClasses(r)
    decreases place
  {
    if place != [] {
      ClassOf(r.kids[place[0]], place[1..]);
    }
  }

  lemma {:induction false} ClassPlace(r: Resolved, t: string) returns (place: Place)
    requires t in SubtreeClasses(r)
    ensures TypeAt(r, place, t)
    decreases r
  {
    if t == r.typ {
      place := [];
    } else {
      var i :| 0 <= i < |r.kids| && t in SubtreeClasses(r.kids[i]);
      var below := ClassPlace(r.kids[i], t);
      place := [i] + below;
      assert place[1..] == below;
    }
  }

  function ClassProps(r: Resolved): set<string> {
    set t | t in SubtreeClasses(r) :: ComposeProperty("class", t)
  }

  /** The class of some vertex at or below. */
  ghost predicate HasClass(r: Resolved, p: string) {
    exists place :: HasResolved(r, place) && Writes(p, "class", At(r, place).typ)
  }

  /** One of the vertex's attributes, under Fluence's prefix. */
  predicate HasAttribute(r: Resolved, p: string) {
    exists k :: k in r.attrs && Writes(p, FLUXION_PREFIX + k, r.attrs[k])
  }

  predicate HasDevice(r: Resolved, p: string) {
    r.backend != "" && Writes(p, FLUXION_PREFIX + "backend", r.backend)
  }

  lemma ClassesAre(r: Resolved, p: string)
    ensures HasClass(r, p) <==> p in ClassProps(r)
  {
    if p in ClassProps(r) {
      var t :| t in SubtreeClasses(r) && p == ComposeProperty("class", t);
      var place := ClassPlace(r, t);
      assert HasResolved(r, place) && Writes(p, "class", At(r, place).typ);
    }
    if HasClass(r, p) {
      var place :| HasResolved(r, place) && Writes(p, "class", At(r, place).typ);
      ClassOf(r, place);
    }
  }

  lemma AttributesAre(r: Resolved, p: string)
    ensures HasAttribute(r, p) <==> p in AttributeProps(r.attrs)
  {
  }

  lemma PartsOf(r: Resolved, p: string)
    ensures p in VirtualProperties(r) <==> p == "virtual=true" || p in ClassProps(r) || p in AttributeProps(r.attrs) || HasDevice(r, p)
  {
    PropertyNames("");
    var marks := {ComposeProperty("virtual", "true")};
    var device := if r.backend != "" then {ComposeProperty(FLUXION_PREFIX + "backend", r.backend)} else {};
    assert VirtualProperties(r) == marks + ClassProps(r) + AttributeProps(r.attrs) + device;
  }

  /**
   * The properties of a configured vertex, all of them: the mark of a virtual one, a class
   * for every type at or below it, its attributes, and its device.
   */
  lemma PropertiesAre(r: Resolved, p: string)
    ensures p in VirtualProperties(r) <==> p == "virtual=true" || HasClass(r, p) || HasAttribute(r, p) || HasDevice(r, p)
  {
    PartsOf(r, p);
    ClassesAre(r, p);
    AttributesAre(r, p);
  }

  /** What a tree's own vertex sets: the set it names, and then nothing inline, or what is inline, and then no set. */
  lemma RootSets(r: Resource, registry: Registry, k: string)
    requires Load(r, registry).Ok?
    ensures var attrs, name := Load(r, registry).value.attrs, r.attributes.reference;
            && (name != "" ==> name in registry && (k in attrs <==> k in registry[name] && registry[name][k] != "")
                               && (k in attrs ==> attrs[k] == registry[name][k]))
            && (name == "" ==> (k in attrs <==> k in r.attributes.inline_ && r.attributes.inline_[k] != "")
                               && (k in attrs ==> attrs[k] == r.attributes.inline_[k]))
    ensures Load(r, registry).value.typ == r.typ && Load(r, registry).value.name == r.name && Load(r, registry).value.count == r.count
    ensures Load(r, registry).value.parent == (if r.parent == "" then "cluster" else r.parent) && Load(r, registry).value.backend == r.name
  {
  }

  /** A tree without a type, or whose set is not known, is refused for that. */
  lemma RootRefused(r: Resource, registry: Registry)
    ensures r.typ == "" ==> Load(r, registry) == MissingType
    ensures r.typ != "" && r.attributes.reference != "" && r.attributes.reference !in registry ==>
              Load(r, registry) == UnknownSet(r.typ, r.attributes.reference)
  {
  }

  /** A child that sets nothing has what its parent has; what it sets, by its set or inline, replaces or clears. */
  lemma KidSets(r: Resource, registry: Registry, i: nat, k: string)
    requires Load(r, registry).Ok? && i < |r.kids|
    ensures i < |Load(r, registry).value.kids|
    ensures var v := Load(r, registry).value;
            var above, attrs, spec := v.attrs, v.kids[i].attrs, r.kids[i].attributes;
            var set_ := if spec.reference != "" then (if spec.reference in registry then registry[spec.reference] else map[]) else spec.inline_;
            && v.kids[i].typ == r.kids[i].typ && v.kids[i].name == r.kids[i].name && v.kids[i].count == r.kids[i].count && v.kids[i].backend == v.backend
            && (k !in set_ ==> (k in attrs <==> k in above) && (k in attrs ==> attrs[k] == above[k]))
            && (k in set_ ==> (k in attrs <==> set_[k] != "") && (k in attrs ==> attrs[k] == set_[k]))
  {
    ResolvedLevel(r, registry, true, map[], "", i);
  }
}
