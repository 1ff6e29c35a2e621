/**
 * The Fluxion graph: the builder's bookkeeping, and the graph made of a cluster's nodes
 * and the configured resource trees.
 */
module Graph {
  import opened Options
  import opened Text
  import opened Placement
  import opened Resources

  /** What a caller says of a vertex; an empty name or a zero size takes the default. */
  datatype Item = Item(typ: string, basename: string, name: string, size: nat, unit: string, props: set<string>,
                       exclusive: bool := false, metadata: map<string, string> := map[])

  datatype Vertex = Vertex(key: string, path: string, typ: string, basename: string, name: string, id: nat, uniq: nat,
                           size: nat, unit: string, props: set<string>, exclusive: bool, metadata: map<string, string>, rank: int)

  /** The builder's fields. */
  datatype Built = Built(vertices: seq<Vertex>, edges: seq<(string, string)>, typeIdx: map<string, nat>)

  const EMPTY := Built([], [], map[])

  function Idx(typeIdx: map<string, nat>, basename: string): nat {
    if basename in typeIdx then typeIdx[basename] else 0
  }

  /** Builder.add: the new vertex, with its ids, name, path and rank. */
  function Made(g: Built, parent: Option<nat>, item: Item, rank: int): Vertex
    requires parent.Some? ==> parent.value < |g.vertices|
  {
    var idx, uniq := Idx(g.typeIdx, item.basename), |g.vertices|;
    var name := if item.name == "" then item.basename + Dec(idx) else item.name;
    Vertex(Dec(uniq), (if parent.Some? then g.vertices[parent.value].path else "") + "/" + name, item.typ, item.basename, name,
           idx, uniq, if item.size == 0 then 1 else item.size, item.unit, item.props, item.exclusive, item.metadata, rank)
  }

  function Add(g: Built, parent: Option<nat>, item: Item, rank: int): Built
    requires parent.Some? ==> parent.value < |g.vertices|
  {
    Built(g.vertices + [Made(g, parent, item, rank)],
          if parent.Some? then g.edges + [(g.vertices[parent.value].key, Dec(|g.vertices|))] else g.edges,
          g.typeIdx[item.basename := Idx(g.typeIdx, item.basename) + 1])
  }

  class Builder {
    var vertices: seq<Vertex>
    var edges: seq<(string, string)>
    var nextUniq: nat
    var typeIdx: map<string, nat>

    predicate Valid()
      reads this
    {
      nextUniq == |vertices|
    }

    function State(): Built
      reads this
    {
      Built(vertices, edges, typeIdx)
    }

    constructor ()
      ensures Valid() && State() == EMPTY
    {
      vertices, edges, nextUniq, typeIdx := [], [], 0, map[];
    }

    method AddVertex(parent: Option<nat>, item: Item, rank: int) returns (v: nat)
      requires Valid() && (parent.Some? ==> parent.value < |vertices|)
      modifies this`vertices, this`nextUniq, this`typeIdx
      ensures Valid() && v == old(|vertices|)
      ensures vertices == Add(old(State()), parent, item, rank).vertices && typeIdx == Add(old(State()), parent, item, rank).typeIdx
    {
      var idx := 0;
      if item.basename in typeIdx {
        idx := typeIdx[item.basename];
      }
      typeIdx := typeIdx[item.basename := idx + 1];
      var name := item.name;
      if name == "" {
        name := item.basename + Dec(idx);
      }
      var size := item.size;
      if size == 0 {
        size := 1;
      }
      var above := "";
      if parent.Some? {
        above := vertices[parent.value].path;
      }
      var path := above + "/" + name;
      v := nextUniq;
      vertices := vertices + [Vertex(Dec(nextUniq), path, item.typ, item.basename, name, idx, nextUniq, size, item.unit, item.props, item.exclusive, item.metadata, rank)];
      nextUniq := nextUniq + 1;
    }

    method AddRoot(item: Item) returns (v: nat)
      requires Valid()
      modifies this
      ensures Valid() && v == old(|vertices|) && State() == Add(old(State()), None, item, -1)
    {
      v := AddVertex(None, item, -1);
    }

    method AddChild(parent: nat, item: Item, rank: int) returns (v: nat)
      requires Valid() && parent < |vertices|
      modifies this
      ensures Valid() && v == old(|vertices|) && State() == Add(old(State()), Some(parent), item, rank)
    {
      var parentKey := vertices[parent].key;
      v := AddVertex(Some(parent), item, rank);
      edges := edges + [(parentKey, vertices[v].key)];
    }
  }

  // ---- the rank counter ----

  /** A graph in the making, with the next rank. */
  datatype Making = Making(g: Built, next: nat)

  /** Adds a child; a node takes the next rank, anything else has none. */
  function Child(m: Making, parent: nat, item: Item): Making
    requires parent < |m.g.vertices|
  {
    if item.typ == "node" then Making(Add(m.g, Some(parent), item, m.next), m.next + 1)
    else Making(Add(m.g, Some(parent), item, -1), m.next)
  }

  function Copies(m: Making, parent: nat, item: Item, n: nat): (r: Making)
    requires parent < |m.g.vertices|
    ensures |r.g.vertices| == |m.g.vertices| + n
  {
    if n == 0 then m else Child(Copies(m, parent, item, n - 1), parent, item)
  }

  // ---- physical nodes ----

  datatype KubeNode = KubeNode(name: string, unschedulable: bool, taints: seq<string>,
                               allocatable: map<string, Quantity>, capacity: map<string, Quantity>)

  datatype Settings = Settings(clusterName: string, gpuResource: string, resources: seq<Resolved>, includeUnschedulable: bool)

  const CONTROL_PLANE := {"node-role.kubernetes.io/control-plane", "node-role.kubernetes.io/master"}

  predicate IsControlPlane(n: KubeNode) {
    exists i :: 0 <= i < |n.taints| && n.taints[i] in CONTROL_PLANE
  }

  predicate Included(n: KubeNode, opts: Settings) {
    opts.includeUnschedulable || (!n.unschedulable && !IsControlPlane(n))
  }

  function QuantityOf(n: KubeNode, name: string): Option<Quantity> {
    if name in n.allocatable then Some(n.allocatable[name])
    else if name in n.capacity then Some(n.capacity[name])
    else None
  }

  /** Allocatable, or else capacity, or else nothing. */
  function Count(n: KubeNode, name: string): nat {
    if QuantityOf(n, name).Some? then Value(QuantityOf(n, name).value) else 0
  }

  function MemoryChunkMiB(n: KubeNode, cores: nat): nat {
    if cores == 0 then 0 else Count(n, "memory") / MIB / cores
  }

  function NodeItem(n: KubeNode): Item {
    Item("node", "node", n.name, 0, "", {VIRTUAL_FALSE}, metadata := map["hostname" := n.name])
  }

  const CORE := Item("core", "core", "", 0, "", {})
  const GPU := Item("gpu", "gpu", "", 0, "", {})

  function MemoryItem(chunk: nat): Item {
    Item("memory", "memory", "", chunk, "MiB", {})
  }

  /** A node with its cores, its memory split over them, and its gpus. */
  function AddNode(m: Making, n: KubeNode, gpuName: string): (r: Making)
    requires m.g.vertices != []
    ensures r.g.vertices != []
  {
    var v, cores := |m.g.vertices|, Count(n, "cpu");
    var m1 := Copies(Child(m, 0, NodeItem(n)), v, CORE, cores);
    var m2 := if MemoryChunkMiB(n, cores) > 0 then Copies(m1, v, MemoryItem(MemoryChunkMiB(n, cores)), cores) else m1;
    Copies(m2, v, GPU, Count(n, gpuName))
  }

  /** The graph after the first n nodes, and the vertices a tree may hang under. */
  datatype Hosts = Hosts(m: Making, parents: map<string, nat>)

  function AddNodes(h: Hosts, nodes: seq<KubeNode>, opts: Settings): (r: Hosts)
    requires h.m.g.vertices != []
    ensures r.m.g.vertices != []
  {
    if nodes == [] then h
    else
      var before, n := AddNodes(h, nodes[..|nodes| - 1], opts), nodes[|nodes| - 1];
      if !Included(n, opts) then before
      else Hosts(AddNode(before.m, n, GpuName(opts)), before.parents[n.name := |before.m.g.vertices|])
  }

  // ---- virtual resources ----

  /** A resource tree with each vertex's properties worked out. */
  datatype Tree = Tree(typ: string, name: string, count: nat, props: set<string>, kids: seq<Tree>)

  function TreeOf(res: Resolved): Tree
    decreases res
  {
    Tree(res.typ, res.name, res.count, VirtualProperties(res), seq(|res.kids|, i requires 0 <= i < |res.kids| => TreeOf(res.kids[i])))
  }

  function ResourceItem(t: Tree): Item {
    Item("node", t.typ, t.name, if t.count == 0 then 1 else t.count, "", t.props)
  }

  /** Adds a node under a vertex, with the next rank. */
  function NodeChild(m: Making, parent: nat, item: Item): Making
    requires parent < |m.g.vertices|
  {
    Making(Add(m.g, Some(parent), item, m.next), m.next + 1)
  }

  function AddResource(m: Making, parent: nat, t: Tree): (r: Making)
    requires parent < |m.g.vertices|
    ensures |r.g.vertices| > |m.g.vertices|
    decreases t, |t.kids| + 1
  {
    AddKids(NodeChild(m, parent, ResourceItem(t)), |m.g.vertices|, t, |t.kids|)
  }

  /** The first n children of res, under the vertex at v. */
  function AddKids(m: Making, v: nat, t: Tree, n: nat): (r: Making)
    requires v < |m.g.vertices| && n <= |t.kids|
    ensures |r.g.vertices| >= |m.g.vertices|
    decreases t, n
  {
    if n == 0 then m else AddResource(AddKids(m, v, t, n - 1), v, t.kids[n - 1])
  }

  lemma KidsStep(m: Making, v: nat, t: Tree, i: nat)
    requires v < |m.g.vertices| && i < |t.kids|
    ensures AddKids(m, v, t, i + 1) == AddResource(AddKids(m, v, t, i), v, t.kids[i])
  {
  }

  datatype BuildResult = Done(g: Built) | UnknownParent(typ: string, parent: string)

  function ParentName(res: Resolved, clusterName: string): string {
    if res.parent == "" then clusterName else res.parent
  }

  datatype Appended = Grown(m: Making) | Stray(typ: string, parent: string)

  ghost predicate HandlesRight(parents: map<string, nat>, m: Making) {
    forall k :: k in parents ==> parents[k] < |m.g.vertices|
  }

  function AppendResources(m: Making, parents: map<string, nat>, clusterName: string, resources: seq<Resolved>): (r: Appended)
    requires HandlesRight(parents, m)
    ensures r.Grown? ==> HandlesRight(parents, r.m)
  {
    if resources == [] then Grown(m)
    else
      var res := resources[|resources| - 1];
      match AppendResources(m, parents, clusterName, resources[..|resources| - 1])
      case Stray(t, p) => Stray(t, p)
      case Grown(before) =>
        var name := ParentName(res, clusterName);
        if name !in parents then Stray(res.typ, name) else Grown(AddResource(before, parents[name], TreeOf(res)))
  }

  function ClusterName(opts: Settings): string {
    if opts.clusterName == "" then "cluster" else opts.clusterName
  }

  function GpuName(opts: Settings): string {
    if opts.gpuResource == "" then "nvidia.com/gpu" else opts.gpuResource
  }

  function RootItem(opts: Settings): Item {
    Item("cluster", "cluster", ClusterName(opts), 0, "", {})
  }

  function Start(opts: Settings): Hosts {
    Hosts(Making(Add(EMPTY, None, RootItem(opts), -1), 0), map[ClusterName(opts) := 0])
  }

  lemma {:induction false} HandlesKept(h: Hosts, nodes: seq<KubeNode>, opts: Settings)
    requires h.m.g.vertices != [] && HandlesRight(h.parents, h.m)
    ensures HandlesRight(AddNodes(h, nodes, opts).parents, AddNodes(h, nodes, opts).m)
  {
    if nodes != [] {
      HandlesKept(h, nodes[..|nodes| - 1], opts);
    }
  }

  function Build(nodes: seq<KubeNode>, opts: Settings): BuildResult {
    HandlesKept(Start(opts), nodes, opts);
    var hosts := AddNodes(Start(opts), nodes, opts);
    match AppendResources(hosts.m, hosts.parents, ClusterName(opts), opts.resources)
    case Stray(t, p) => UnknownParent(t, p)
    case Grown(m) => Done(m.g)
  }
}
