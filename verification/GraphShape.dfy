/** What every graph that builds is like. */
module GraphShape {
  import opened Options
  import opened Text
  import opened Placement
  import opened Resources
  import opened Graph

  /** A vertex hangs by one edge from an earlier one, whose path its own extends by its name. */
  predicate Hangs(g: Built, i: nat)
    requires 0 < i < |g.vertices| && |g.edges| == |g.vertices| - 1
  {
    && g.edges[i - 1].1 == g.vertices[i].key
    && exists p :: 0 <= p < i && g.edges[i - 1].0 == g.vertices[p].key
                   && g.vertices[i].path == g.vertices[p].path + "/" + g.vertices[i].name
  }

  /** A tree rooted at the first vertex, the vertices keyed by their place. */
  predicate IsTree(g: Built) {
    && g.vertices != [] && |g.edges| == |g.vertices| - 1
    && (forall i :: 0 <= i < |g.vertices| ==> g.vertices[i].uniq == i && g.vertices[i].key == Dec(i))
    && g.vertices[0].path == "/" + g.vertices[0].name
    && forall i :: 0 < i < |g.vertices| ==> Hangs(g, i)
  }

  function NodesIn(vs: seq<Vertex>): nat {
    if vs == [] then 0 else NodesIn(vs[..|vs| - 1]) + if vs[|vs| - 1].typ == "node" then 1 else 0
  }

  /** Node vertices are ranked in order, from nought; others have no rank. */
  predicate RankedAt(vs: seq<Vertex>, i: nat)
    requires i < |vs|
  {
    vs[i].rank == if vs[i].typ == "node" then NodesIn(vs[..i]) else -1
  }

  predicate Ranked(m: Making) {
    m.next == NodesIn(m.g.vertices) && forall i :: 0 <= i < |m.g.vertices| ==> RankedAt(m.g.vertices, i)
  }

  function NamedIn(vs: seq<Vertex>, basename: string): nat {
    if vs == [] then 0 else NamedIn(vs[..|vs| - 1], basename) + if vs[|vs| - 1].basename == basename then 1 else 0
  }

  /** Within a basename, vertices are numbered in order from nought. */
  predicate NumberedAt(vs: seq<Vertex>, i: nat)
    requires i < |vs|
  {
    vs[i].id == NamedIn(vs[..i], vs[i].basename)
  }

  ghost predicate Numbered(g: Built) {
    && (forall b :: Idx(g.typeIdx, b) == NamedIn(g.vertices, b))
    && forall i :: 0 <= i < |g.vertices| ==> NumberedAt(g.vertices, i)
  }

  ghost predicate Sound(m: Making) {
    IsTree(m.g) && Ranked(m) && Numbered(m.g)
  }

  lemma AddIsTree(g: Built, parent: nat, item: Item, rank: int)
    requires IsTree(g) && parent < |g.vertices|
    ensures IsTree(Add(g, Some(parent), item, rank))
  {
    var g' := Add(g, Some(parent), item, rank);
    var n := |g.vertices|;
    assert forall i :: 0 <= i < n ==> g'.vertices[i] == g.vertices[i];
    assert forall i :: 0 <= i < n - 1 ==> g'.edges[i] == g.edges[i];
    forall i | 0 < i < |g'.vertices| ensures Hangs(g', i) {
      if i < n {
        assert Hangs(g, i);
      } else {
        assert g'.edges[n - 1].0 == g'.vertices[parent].key;
      }
    }
  }

  lemma AddNumbered(g: Built, parent: Option<nat>, item: Item, rank: int)
    requires Numbered(g) && (parent.Some? ==> parent.value < |g.vertices|)
    ensures Numbered(Add(g, parent, item, rank))
  {
    var g' := Add(g, parent, item, rank);
    var n := |g.vertices|;
    assert g'.vertices[..n] == g.vertices;
    forall i | 0 <= i < |g'.vertices| ensures NumberedAt(g'.vertices, i) {
      if i < n {
        assert NumberedAt(g.vertices, i) && g'.vertices[..i] == g.vertices[..i];
      }
    }
  }

  lemma ChildRanked(m: Making, parent: nat, item: Item)
    requires Ranked(m) && parent < |m.g.vertices|
    ensures Ranked(Child(m, parent, item))
  {
    var vs, vs' := m.g.vertices, Child(m, parent, item).g.vertices;
    assert vs'[..|vs|] == vs;
    forall i | 0 <= i < |vs'| ensures RankedAt(vs', i) {
      if i < |vs| {
        assert RankedAt(vs, i) && vs'[..i] == vs[..i];
      }
    }
  }

  lemma ChildSound(m: Making, parent: nat, item: Item)
    requires Sound(m) && parent < |m.g.vertices|
    ensures Sound(Child(m, parent, item))
  {
    AddIsTree(m.g, parent, item, if item.typ == "node" then m.next else -1);
    AddNumbered(m.g, Some(parent), item, if item.typ == "node" then m.next else -1);
    ChildRanked(m, parent, item);
  }

  lemma {:induction false} CopiesSound(m: Making, parent: nat, item: Item, n: nat)
    requires Sound(m) && parent < |m.g.vertices|
    ensures Sound(Copies(m, parent, item, n))
  {
    if n > 0 {
      CopiesSound(m, parent, item, n - 1);
      ChildSound(Copies(m, parent, item, n - 1), parent, item);
    }
  }

  lemma AddNodeSound(m: Making, n: KubeNode, gpuName: string)
    requires Sound(m)
    ensures Sound(AddNode(m, n, gpuName))
  {
    var v, cores := |m.g.vertices|, Count(n, "cpu");
    var m0 := Child(m, 0, NodeItem(n));
    ChildSound(m, 0, NodeItem(n));
    var m1 := Copies(m0, v, CORE, cores);
    CopiesSound(m0, v, CORE, cores);
    var memory := MemoryItem(MemoryChunkMiB(n, cores));
    CopiesSound(m1, v, memory, cores);
    CopiesSound(if MemoryChunkMiB(n, cores) > 0 then Copies(m1, v, memory, cores) else m1, v, GPU, Count(n, gpuName));
  }

  lemma {:induction false} AddNodesSound(h: Hosts, nodes: seq<KubeNode>, opts: Settings)
    requires Sound(h.m)
    ensures Sound(AddNodes(h, nodes, opts).m)
  {
    if nodes != [] {
      AddNodesSound(h, nodes[..|nodes| - 1], opts);
      AddNodeSound(AddNodes(h, nodes[..|nodes| - 1], opts).m, nodes[|nodes| - 1], GpuName(opts));
    }
  }

  lemma {:induction false} AddResourceSound(m: Making, parent: nat, t: Tree)
    requires Sound(m) && parent < |m.g.vertices|
    ensures Sound(AddResource(m, parent, t))
    decreases t, |t.kids| + 1
  {
    ChildSound(m, parent, ResourceItem(t));
    assert NodeChild(m, parent, ResourceItem(t)) == Child(m, parent, ResourceItem(t));
    AddKidsSound(NodeChild(m, parent, ResourceItem(t)), |m.g.vertices|, t, |t.kids|);
  }

  lemma {:induction false} AddKidsSound(m: Making, v: nat, t: Tree, n: nat)
    requires Sound(m) && v < |m.g.vertices| && n <= |t.kids|
    ensures Sound(AddKids(m, v, t, n))
    decreases t, n
  {
    if n > 0 {
      AddKidsSound(m, v, t, n - 1);
      AddResourceSound(AddKids(m, v, t, n - 1), v, t.kids[n - 1]);
    }
  }

  lemma {:induction false} AppendSound(m: Making, parents: map<string, nat>, clusterName: string, resources: seq<Resolved>)
    requires Sound(m) && HandlesRight(parents, m)
    ensures var r := AppendResources(m, parents, clusterName, resources); r.Grown? ==> Sound(r.m)
  {
    if resources != [] {
      var init, res := resources[..|resources| - 1], resources[|resources| - 1];
      AppendSound(m, parents, clusterName, init);
      var before := AppendResources(m, parents, clusterName, init);
      if before.Grown? && ParentName(res, clusterName) in parents {
        AddResourceSound(before.m, parents[ParentName(res, clusterName)], TreeOf(res));
      }
    }
  }

  lemma StartSound(opts: Settings)
    ensures Sound(Start(opts).m)
  {
    var g := Add(EMPTY, None, RootItem(opts), -1);
    AddNumbered(EMPTY, None, RootItem(opts), -1);
    assert g.vertices[..0] == [] && |g.vertices| == 1;
    assert "" + "/" + g.vertices[0].name == "/" + g.vertices[0].name;
  }

  lemma {:induction false} NodesInBound(vs: seq<Vertex>, i: nat, j: nat)
    requires i < j <= |vs|
    ensures NodesIn(vs[..i]) <= NodesIn(vs[..j]) && (vs[i].typ == "node" ==> NodesIn(vs[..i]) < NodesIn(vs[..j]))
  {
    assert vs[..j][..j - 1] == vs[..j - 1];
    if i < j - 1 {
      NodesInBound(vs, i, j - 1);
    }
  }

  lemma {:induction false} RankFound(vs: seq<Vertex>, n: nat, k: nat)
    requires n <= |vs| && k < NodesIn(vs[..n]) && forall i :: 0 <= i < |vs| ==> RankedAt(vs, i)
    ensures exists i :: 0 <= i < n && vs[i].typ == "node" && vs[i].rank == k
  {
    assert vs[..n][..n - 1] == vs[..n - 1];
    if k < NodesIn(vs[..n - 1]) {
      RankFound(vs, n - 1, k);
    } else {
      assert RankedAt(vs, n - 1);
    }
  }

  /** Ranks of node vertices run from nought without gap or repeat; nothing else has one. */
  predicate RanksContiguous(vs: seq<Vertex>) {
    && (forall i :: 0 <= i < |vs| ==> if vs[i].typ == "node" then 0 <= vs[i].rank < NodesIn(vs) else vs[i].rank == -1)
    && (forall i, j :: 0 <= i < j < |vs| && vs[i].typ == "node" && vs[j].typ == "node" ==> vs[i].rank < vs[j].rank)
    && forall k :: 0 <= k < NodesIn(vs) ==> HasRank(vs, k)
  }

  predicate HasRank(vs: seq<Vertex>, k: nat) {
    exists i :: 0 <= i < |vs| && vs[i].typ == "node" && vs[i].rank == k
  }

  lemma RankedContiguous(vs: seq<Vertex>)
    requires forall i :: 0 <= i < |vs| ==> RankedAt(vs, i)
    ensures RanksContiguous(vs)
  {
    assert vs[..|vs|] == vs;
    forall i | 0 <= i < |vs| ensures if vs[i].typ == "node" then 0 <= vs[i].rank < NodesIn(vs) else vs[i].rank == -1 {
      assert RankedAt(vs, i);
      NodesInBound(vs, i, |vs|);
    }
    forall i, j | 0 <= i < j < |vs| && vs[i].typ == "node" && vs[j].typ == "node" ensures vs[i].rank < vs[j].rank {
      assert RankedAt(vs, i) && RankedAt(vs, j);
      NodesInBound(vs, i, j);
    }
    forall k | 0 <= k < NodesIn(vs) ensures HasRank(vs, k) {
      RankFound(vs, |vs|, k);
    }
  }

  /**
   * Every graph that builds, from any nodes and any trees, is a tree rooted at the cluster
   * with unique keys, each path extending its parent's by the vertex name, and the node
   * vertices, physical then virtual, ranked from nought without gap or repeat.
   */
  lemma GraphIsSound(nodes: seq<KubeNode>, opts: Settings)
    requires Build(nodes, opts).Done?
    ensures var g := Build(nodes, opts).g; IsTree(g) && RanksContiguous(g.vertices) && Numbered(g)
    ensures var vs := Build(nodes, opts).g.vertices; forall i, j :: 0 <= i < j < |vs| ==> vs[i].key != vs[j].key
  {
    StartSound(opts);
    HandlesKept(Start(opts), nodes, opts);
    AddNodesSound(Start(opts), nodes, opts);
    var hosts := AddNodes(Start(opts), nodes, opts);
    AppendSound(hosts.m, hosts.parents, ClusterName(opts), opts.resources);
    var g := Build(nodes, opts).g;
    RankedContiguous(g.vertices);
    forall i, j | 0 <= i < j < |g.vertices| ensures g.vertices[i].key != g.vertices[j].key {
      if Dec(i) == Dec(j) {
        DecInjective(i, j);
      }
    }
  }

  // ---- what is in it ----

  /** What a vertex stands for, apart from its numbering. */
  datatype Tag = Tag(typ: string, basename: string, size: nat, props: set<string>, metadata: map<string, string>)

  function TagOf(v: Vertex): Tag {
    Tag(v.typ, v.basename, v.size, v.props, v.metadata)
  }

  function Tags(vs: seq<Vertex>): seq<Tag> {
    seq(|vs|, i requires 0 <= i < |vs| => TagOf(vs[i]))
  }

  function ItemTag(item: Item): Tag {
    Tag(item.typ, item.basename, if item.size == 0 then 1 else item.size, item.props, item.metadata)
  }

  /** A resource tree's vertices, each before its children. */
  function Preorder(t: Tree): seq<Tag>
    decreases t, |t.kids| + 1
  {
    [Tag("node", t.typ, if t.count == 0 then 1 else t.count, t.props, map[])] + PreorderKids(t, |t.kids|)
  }

  function PreorderKids(t: Tree, n: nat): seq<Tag>
    requires n <= |t.kids|
    decreases t, n
  {
    if n == 0 then [] else PreorderKids(t, n - 1) + Preorder(t.kids[n - 1])
  }

  lemma ChildTags(m: Making, parent: nat, item: Item)
    requires parent < |m.g.vertices|
    ensures Tags(Child(m, parent, item).g.vertices) == Tags(m.g.vertices) + [ItemTag(item)]
  {
  }

  lemma Assoc(a: seq<Tag>, b: seq<Tag>, c: seq<Tag>)
    ensures a + b + c == a + (b + c) && a + [] == a
  {
  }

  /** A tree's edges, its vertices numbered in preorder from at: each vertex under its own parent. */
  function TreeEdges(t: Tree, above: string, at: nat): seq<(string, string)>
    decreases t, |t.kids| + 1
  {
    [(above, Dec(at))] + KidEdges(t, |t.kids|, at)
  }

  function KidEdges(t: Tree, n: nat, at: nat): seq<(string, string)>
    requires n <= |t.kids|
    decreases t, n
  {
    if n == 0 then []
    else KidEdges(t, n - 1, at) + TreeEdges(t.kids[n - 1], Dec(at), at + 1 + |PreorderKids(t, n - 1)|)
  }

  /** What is added to a graph: the tags of the new vertices and the new edges; the rest stays. */
  predicate GrownBy(g': Built, g: Built, tags: seq<Tag>, edges: seq<(string, string)>) {
    g.vertices <= g'.vertices && Tags(g'.vertices) == Tags(g.vertices) + tags && g'.edges == g.edges + edges
  }

  lemma GrownThen(g2: Built, g1: Built, g0: Built, tags1: seq<Tag>, tags2: seq<Tag>, edges1: seq<(string, string)>, edges2: seq<(string, string)>)
    requires GrownBy(g1, g0, tags1, edges1) && GrownBy(g2, g1, tags2, edges2)
    ensures GrownBy(g2, g0, tags1 + tags2, edges1 + edges2)
  {
    Assoc(Tags(g0.vertices), tags1, tags2);
    assert g0.edges + edges1 + edges2 == g0.edges + (edges1 + edges2);
  }

  lemma NodeChildGrows(m: Making, parent: nat, t: Tree)
    requires parent < |m.g.vertices|
    ensures var g := NodeChild(m, parent, ResourceItem(t)).g;
            && GrownBy(g, m.g, [ItemTag(ResourceItem(t))], [(m.g.vertices[parent].key, Dec(|m.g.vertices|))])
            && |g.vertices| == |m.g.vertices| + 1 && g.vertices[|m.g.vertices|].key == Dec(|m.g.vertices|)
  {
    assert NodeChild(m, parent, ResourceItem(t)) == Child(m, parent, ResourceItem(t));
    ChildTags(m, parent, ResourceItem(t));
  }

  /** Adding a resource adds a virtual node for each vertex of its tree, in order, and edges that mirror the tree. */
  lemma {:induction false} ResourceGrows(m: Making, parent: nat, t: Tree)
    requires parent < |m.g.vertices|
    ensures GrownBy(AddResource(m, parent, t).g, m.g, Preorder(t), TreeEdges(t, m.g.vertices[parent].key, |m.g.vertices|))
    decreases t, |t.kids| + 1
  {
    var top, at := NodeChild(m, parent, ResourceItem(t)), |m.g.vertices|;
    NodeChildGrows(m, parent, t);
    KidsGrow(top, at, t, |t.kids|);
    GrownThen(AddResource(m, parent, t).g, top.g, m.g, [ItemTag(ResourceItem(t))], PreorderKids(t, |t.kids|),
              [(m.g.vertices[parent].key, Dec(at))], KidEdges(t, |t.kids|, at));
  }

  lemma GrownKeeps(g': Built, g: Built, tags: seq<Tag>, edges: seq<(string, string)>, v: nat)
    requires GrownBy(g', g, tags, edges) && v < |g.vertices|
    ensures |g'.vertices| == |g.vertices| + |tags| && g'.vertices[v] == g.vertices[v]
  {
    assert |Tags(g'.vertices)| == |g'.vertices| && |Tags(g.vertices)| == |g.vertices|;
  }

  lemma {:induction false} KidsGrow(m: Making, v: nat, t: Tree, n: nat)
    requires v < |m.g.vertices| && n <= |t.kids| && m.g.vertices[v].key == Dec(v) && |m.g.vertices| == v + 1
    ensures GrownBy(AddKids(m, v, t, n).g, m.g, PreorderKids(t, n), KidEdges(t, n, v))
    decreases t, n
  {
    if n > 0 {
      var prev, kid := AddKids(m, v, t, n - 1), t.kids[n - 1];
      KidsGrow(m, v, t, n - 1);
      GrownKeeps(prev.g, m.g, PreorderKids(t, n - 1), KidEdges(t, n - 1, v), v);
      ResourceGrows(prev, v, kid);
      KidsStep(m, v, t, n - 1);
      GrownThen(AddKids(m, v, t, n).g, prev.g, m.g, PreorderKids(t, n - 1), Preorder(kid),
                KidEdges(t, n - 1, v), TreeEdges(kid, Dec(v), v + 1 + |PreorderKids(t, n - 1)|));
    }
  }

  function Repeated(tag: Tag, n: nat): seq<Tag> {
    seq(n, i => tag)
  }

  lemma {:induction false} CopiesTags(m: Making, parent: nat, item: Item, n: nat)
    requires parent < |m.g.vertices|
    ensures Tags(Copies(m, parent, item, n).g.vertices) == Tags(m.g.vertices) + Repeated(ItemTag(item), n)
  {
    if n > 0 {
      CopiesTags(m, parent, item, n - 1);
      ChildTags(Copies(m, parent, item, n - 1), parent, item);
      assert Repeated(ItemTag(item), n) == Repeated(ItemTag(item), n - 1) + [ItemTag(item)];
    } else {
      assert Tags(m.g.vertices) + Repeated(ItemTag(item), 0) == Tags(m.g.vertices);
    }
  }

  /** The tags of what a physical node holds: cores, memory chunks, gpus. */
  function HeldTags(n: KubeNode, gpuName: string): seq<Tag> {
    var cores, chunk := Count(n, "cpu"), MemoryChunkMiB(n, Count(n, "cpu"));
    Repeated(ItemTag(CORE), cores) + Repeated(ItemTag(MemoryItem(chunk)), if chunk > 0 then cores else 0)
    + Repeated(ItemTag(GPU), Count(n, gpuName))
  }

  /** A node adds itself, a vertex for each core and gpu, and its memory in as many equal chunks as cores. */
  lemma NodeAdds(m: Making, n: KubeNode, gpuName: string)
    requires m.g.vertices != []
    ensures Tags(AddNode(m, n, gpuName).g.vertices) == Tags(m.g.vertices) + [ItemTag(NodeItem(n))] + HeldTags(n, gpuName)
  {
    var v, cores, chunk := |m.g.vertices|, Count(n, "cpu"), MemoryChunkMiB(n, Count(n, "cpu"));
    var m0 := Child(m, 0, NodeItem(n));
    var t0 := Tags(m0.g.vertices);
    ChildTags(m, 0, NodeItem(n));
    HeldAdds(m0, v, t0, cores, chunk, Count(n, gpuName));
  }

  lemma HeldAdds(m: Making, v: nat, before: seq<Tag>, cores: nat, chunk: nat, gpus: nat)
    requires v < |m.g.vertices| && before == Tags(m.g.vertices)
    ensures var m1 := Copies(m, v, CORE, cores);
            var m2 := if chunk > 0 then Copies(m1, v, MemoryItem(chunk), cores) else m1;
            Tags(Copies(m2, v, GPU, gpus).g.vertices) ==
            before + (Repeated(ItemTag(CORE), cores) + Repeated(ItemTag(MemoryItem(chunk)), if chunk > 0 then cores else 0)
                      + Repeated(ItemTag(GPU), gpus))
  {
    var a, b, c := Repeated(ItemTag(CORE), cores), Repeated(ItemTag(MemoryItem(chunk)), if chunk > 0 then cores else 0),
                   Repeated(ItemTag(GPU), gpus);
    var m1 := Copies(m, v, CORE, cores);
    CopiesTags(m, v, CORE, cores);
    var m2 := if chunk > 0 then Copies(m1, v, MemoryItem(chunk), cores) else m1;
    CopiesTags(m1, v, MemoryItem(chunk), if chunk > 0 then cores else 0);
    CopiesTags(m2, v, GPU, gpus);
    Assoc(before, a, b);
    Assoc(before, a + b, c);
  }

  function PhysicalTags(nodes: seq<KubeNode>, opts: Settings): seq<Tag> {
    if nodes == [] then []
    else
      var n := nodes[|nodes| - 1];
      PhysicalTags(nodes[..|nodes| - 1], opts)
      + if Included(n, opts) then [ItemTag(NodeItem(n))] + HeldTags(n, GpuName(opts)) else []
  }

  function ForestTags(resources: seq<Resolved>): seq<Tag> {
    if resources == [] then [] else ForestTags(resources[..|resources| - 1]) + Preorder(TreeOf(resources[|resources| - 1]))
  }

  lemma {:induction false} NodesAdd(h: Hosts, nodes: seq<KubeNode>, opts: Settings, before: seq<Tag>)
    requires h.m.g.vertices != [] && before == Tags(h.m.g.vertices)
    ensures Tags(AddNodes(h, nodes, opts).m.g.vertices) == before + PhysicalTags(nodes, opts)
  {
    if nodes == [] {
      Assoc(before, [], []);
    } else {
      var init, n := nodes[..|nodes| - 1], nodes[|nodes| - 1];
      NodesAdd(h, init, opts, before);
      NodeAdds(AddNodes(h, init, opts).m, n, GpuName(opts));
      Assoc(before + PhysicalTags(init, opts), [ItemTag(NodeItem(n))], HeldTags(n, GpuName(opts)));
      Assoc(before, PhysicalTags(init, opts), [ItemTag(NodeItem(n))] + HeldTags(n, GpuName(opts)));
      Assoc(before, PhysicalTags(init, opts), []);
      Assoc(PhysicalTags(init, opts), [], []);
    }
  }

  lemma {:induction false} ForestAdds(m: Making, parents: map<string, nat>, clusterName: string, resources: seq<Resolved>, before: seq<Tag>)
    requires HandlesRight(parents, m) && before == Tags(m.g.vertices)
    ensures var r := AppendResources(m, parents, clusterName, resources);
            r.Grown? ==> Tags(r.m.g.vertices) == before + ForestTags(resources)
  {
    if resources == [] {
      Assoc(before, [], []);
    } else {
      var init, res := resources[..|resources| - 1], resources[|resources| - 1];
      ForestAdds(m, parents, clusterName, init, before);
      var r := AppendResources(m, parents, clusterName, init);
      if r.Grown? && ParentName(res, clusterName) in parents {
        ResourceGrows(r.m, parents[ParentName(res, clusterName)], TreeOf(res));
        Assoc(before, ForestTags(init), Preorder(TreeOf(res)));
      }
    }
  }

  /**
   * The vertices are the cluster, then each included node with its cores, memory chunks
   * and gpus, then each configured tree's vertices with their properties, and no other.
   */
  lemma GraphContents(nodes: seq<KubeNode>, opts: Settings)
    requires Build(nodes, opts).Done?
    ensures Tags(Build(nodes, opts).g.vertices) ==
            [ItemTag(RootItem(opts))] + PhysicalTags(nodes, opts) + ForestTags(opts.resources)
  {
    HandlesKept(Start(opts), nodes, opts);
    var hosts := AddNodes(Start(opts), nodes, opts);
    NodesAdd(Start(opts), nodes, opts, Tags(Start(opts).m.g.vertices));
    ForestAdds(hosts.m, hosts.parents, ClusterName(opts), opts.resources, Tags(hosts.m.g.vertices));
    assert Tags(Start(opts).m.g.vertices) == [ItemTag(RootItem(opts))];
  }

  // ---- when it builds ----

  predicate ParentKnown(nodes: seq<KubeNode>, opts: Settings, name: string) {
    name == ClusterName(opts) || exists i :: 0 <= i < |nodes| && Included(nodes[i], opts) && nodes[i].name == name
  }

  lemma {:induction false} ParentsAre(nodes: seq<KubeNode>, opts: Settings, n: nat, name: string)
    requires n <= |nodes|
    ensures name in AddNodes(Start(opts), nodes[..n], opts).parents <==>
            name == ClusterName(opts) || exists i :: 0 <= i < n && Included(nodes[i], opts) && nodes[i].name == name
  {
    if n > 0 {
      ParentsAre(nodes, opts, n - 1, name);
      assert nodes[..n][..n - 1] == nodes[..n - 1];
    }
  }

  lemma {:induction false} AppendsIff(m: Making, parents: map<string, nat>, clusterName: string, resources: seq<Resolved>)
    requires HandlesRight(parents, m)
    ensures AppendResources(m, parents, clusterName, resources).Grown? <==>
            forall i :: 0 <= i < |resources| ==> ParentName(resources[i], clusterName) in parents
  {
    if resources != [] {
      AppendsIff(m, parents, clusterName, resources[..|resources| - 1]);
      assert forall i :: 0 <= i < |resources| - 1 ==> resources[..|resources| - 1][i] == resources[i];
    }
  }

  /** A graph builds exactly when every tree's parent is the cluster or an included node. */
  lemma BuildsIff(nodes: seq<KubeNode>, opts: Settings)
    ensures Build(nodes, opts).Done? <==>
            forall i :: 0 <= i < |opts.resources| ==> ParentKnown(nodes, opts, ParentName(opts.resources[i], ClusterName(opts)))
  {
    HandlesKept(Start(opts), nodes, opts);
    var hosts := AddNodes(Start(opts), nodes, opts);
    AppendsIff(hosts.m, hosts.parents, ClusterName(opts), opts.resources);
    assert nodes[..|nodes|] == nodes;
    forall i | 0 <= i < |opts.resources|
      ensures ParentName(opts.resources[i], ClusterName(opts)) in hosts.parents <==>
              ParentKnown(nodes, opts, ParentName(opts.resources[i], ClusterName(opts)))
    {
      ParentsAre(nodes, opts, |nodes|, ParentName(opts.resources[i], ClusterName(opts)));
    }
  }

  /**
   * Loading writes the default parent "cluster" into every tree that names none, so under
   * a root of any other name such a tree is an error unless a node happens to be called so.
   */
  lemma RenamedRootLosesDefaultParent(nodes: seq<KubeNode>, opts: Settings, r: Resource, registry: Registry, i: nat)
    requires i < |opts.resources| && Load(r, registry) == Ok(opts.resources[i]) && r.parent == ""
    ensures opts.resources[i].parent == DEFAULT_PARENT
    ensures opts.clusterName != "" && opts.clusterName != DEFAULT_PARENT
            && (forall j :: 0 <= j < |nodes| && Included(nodes[j], opts) ==> nodes[j].name != DEFAULT_PARENT)
            ==> Build(nodes, opts).UnknownParent?
  {
    BuildsIff(nodes, opts);
  }

  // ---- memory ----

  /** A node's chunks come to at most its memory in MiB, and fall short by less than one per core. */
  lemma ChunksWithinMemory(n: KubeNode, cores: nat)
    requires cores > 0
    ensures var total, chunk := Count(n, "memory") / MIB, MemoryChunkMiB(n, cores);
            chunk * cores <= total < chunk * cores + cores
  {
  }

  function Sum(xs: seq<nat>): nat {
    if xs == [] then 0 else Sum(xs[..|xs| - 1]) + xs[|xs| - 1]
  }

  /** A container's memory request in MiB, as the scheduler counts it. */
  function AskedMiB(q: Quantity): nat {
    Amount("memory", q)
  }

  lemma {:induction false} AskedCovers(qs: seq<Quantity>)
    ensures Sum(seq(|qs|, i requires 0 <= i < |qs| => Value(qs[i]))) <= MIB * Sum(seq(|qs|, i requires 0 <= i < |qs| => AskedMiB(qs[i])))
  {
    if qs != [] {
      var init := qs[..|qs| - 1];
      AskedCovers(init);
      var values, asked := seq(|qs|, i requires 0 <= i < |qs| => Value(qs[i])), seq(|qs|, i requires 0 <= i < |qs| => AskedMiB(qs[i]));
      assert values[..|qs| - 1] == seq(|init|, i requires 0 <= i < |init| => Value(init[i]));
      assert asked[..|qs| - 1] == seq(|init|, i requires 0 <= i < |init| => AskedMiB(init[i]));
      RoundsUp(Value(qs[|qs| - 1]));
    }
  }

  lemma RoundsUp(bytes: nat)
    ensures bytes <= MIB * ((bytes + MIB - 1) / MIB)
  {
  }

  /** So containers whose requests fit in a node's chunks fit in the bytes it offers. */
  lemma FittingChunksFitBytes(n: KubeNode, cores: nat, qs: seq<Quantity>)
    requires cores > 0
    requires Sum(seq(|qs|, i requires 0 <= i < |qs| => AskedMiB(qs[i]))) <= MemoryChunkMiB(n, cores) * cores
    ensures Sum(seq(|qs|, i requires 0 <= i < |qs| => Value(qs[i]))) <= Count(n, "memory")
  {
    AskedCovers(qs);
    ChunksWithinMemory(n, cores);
    var asked := Sum(seq(|qs|, i requires 0 <= i < |qs| => AskedMiB(qs[i])));
    assert MIB * asked <= MIB * (Count(n, "memory") / MIB) <= Count(n, "memory");
  }
}
