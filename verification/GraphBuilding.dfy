/** BuildGraph at work: the builder, the rank counter and the table of parents. */
module GraphBuilding {
  import opened Resources
  import opened Graph

  /** Adds the same child n times. */
  method AddCopies(b: Builder, parent: nat, item: Item, n: nat, ghost m: Making)
    requires b.Valid() && parent < |b.vertices| && item.typ != "node" && b.State() == m.g
    modifies b
    ensures b.Valid() && b.State() == Copies(m, parent, item, n).g && Copies(m, parent, item, n).next == m.next
  {
    for i := 0 to n
      invariant b.Valid() && b.State() == Copies(m, parent, item, i).g && Copies(m, parent, item, i).next == m.next
    {
      var v := b.AddChild(parent, item, -1);
    }
  }

  method AddPhysicalNode(b: Builder, n: KubeNode, gpuName: string, rank: nat) returns (v: nat)
    requires b.Valid() && b.vertices != []
    modifies b
    ensures b.Valid() && v == old(|b.vertices|)
    ensures AddNode(Making(old(b.State()), rank), n, gpuName) == Making(b.State(), rank + 1)
  {
    ghost var m := Making(b.State(), rank);
    v := b.AddChild(0, NodeItem(n), rank);
    ghost var m0 := Child(m, 0, NodeItem(n));
    var cores := Count(n, "cpu");
    AddCopies(b, v, CORE, cores, m0);
    ghost var m1 := Copies(m0, v, CORE, cores);
    var chunk := MemoryChunkMiB(n, cores);
    if chunk > 0 {
      AddCopies(b, v, MemoryItem(chunk), cores, m1);
      m1 := Copies(m1, v, MemoryItem(chunk), cores);
    }
    AddCopies(b, v, GPU, Count(n, gpuName), m1);
  }

  method AddVirtualResource(b: Builder, parent: nat, t: Tree, rank: nat) returns (next: nat)
    requires b.Valid() && parent < |b.vertices|
    modifies b
    ensures b.Valid() && AddResource(Making(old(b.State()), rank), parent, t) == Making(b.State(), next)
    decreases t, 1
  {
    var v := AddVirtualVertex(b, parent, t, rank);
    next := AddVirtualKids(b, v, t, rank + 1);
  }

  method AddVirtualVertex(b: Builder, parent: nat, t: Tree, rank: nat) returns (v: nat)
    requires b.Valid() && parent < |b.vertices|
    modifies b
    ensures b.Valid() && v == old(|b.vertices|) < |b.vertices|
    ensures NodeChild(Making(old(b.State()), rank), parent, ResourceItem(t)) == Making(b.State(), rank + 1)
  {
    v := b.AddChild(parent, ResourceItem(t), rank);
  }

  method AddVirtualKids(b: Builder, v: nat, t: Tree, rank: nat) returns (next: nat)
    requires b.Valid() && v < |b.vertices|
    modifies b
    ensures b.Valid() && AddKids(Making(old(b.State()), rank), v, t, |t.kids|) == Making(b.State(), next)
    decreases t, 0
  {
    ghost var m := Making(b.State(), rank);
    ghost var now := m;
    next := rank;
    for i := 0 to |t.kids|
      invariant b.Valid() && v < |m.g.vertices| <= |b.vertices|
      invariant now == AddKids(m, v, t, i) && now.g == b.State() && now.next == next
    {
      KidsStep(m, v, t, i);
      now := AddResource(now, v, t.kids[i]);
      next := AddVirtualResource(b, v, t.kids[i], next);
    }
  }

  method BuildGraph(nodes: seq<KubeNode>, opts: Settings) returns (r: BuildResult)
    ensures r == Build(nodes, opts)
  {
    var b := new Builder();
    var clusterName, gpuName := opts.clusterName, opts.gpuResource;
    if clusterName == "" {
      clusterName := "cluster";
    }
    if gpuName == "" {
      gpuName := "nvidia.com/gpu";
    }
    var cluster := b.AddRoot(Item("cluster", "cluster", clusterName, 0, "", {}));
    var rank: nat, parents: map<string, nat> := 0, map[clusterName := cluster];
    for i := 0 to |nodes|
      invariant b.Valid() && b.vertices != [] && AddNodes(Start(opts), nodes[..i], opts) == Hosts(Making(b.State(), rank), parents)
    {
      assert nodes[..i + 1][..i] == nodes[..i];
      var n := nodes[i];
      if n.unschedulable && !opts.includeUnschedulable {
        continue;
      }
      if IsControlPlane(n) && !opts.includeUnschedulable {
        continue;
      }
      var v := AddPhysicalNode(b, n, gpuName, rank);
      rank := rank + 1;
      parents := parents[n.name := v];
    }
    assert nodes[..|nodes|] == nodes;
    HandlesKept(Start(opts), nodes, opts);
    r := AttachResources(b, parents, clusterName, opts.resources, rank);
  }

  method AttachResources(b: Builder, parents: map<string, nat>, clusterName: string, resources: seq<Resolved>, rank: nat)
    returns (r: BuildResult)
    requires b.Valid() && HandlesRight(parents, Making(b.State(), rank))
    modifies b
    ensures r == match AppendResources(Making(old(b.State()), rank), parents, clusterName, resources)
                 case Stray(t, p) => UnknownParent(t, p)
                 case Grown(m) => Done(m.g)
  {
    ghost var start := Making(b.State(), rank);
    var next := rank;
    for i := 0 to |resources|
      invariant b.Valid() && AppendResources(start, parents, clusterName, resources[..i]) == Grown(Making(b.State(), next))
    {
      AppendStep(start, parents, clusterName, resources, i, Making(b.State(), next));
      var res := resources[i];
      var name := res.parent;
      if name == "" {
        name := clusterName;
      }
      if name !in parents {
        StrayStays(start, parents, clusterName, resources, i + 1);
        return UnknownParent(res.typ, name);
      }
      next := AddVirtualResource(b, parents[name], TreeOf(res), next);
    }
    assert resources[..|resources|] == resources;
    r := Done(b.State());
  }

  lemma AppendStep(m: Making, parents: map<string, nat>, clusterName: string, resources: seq<Resolved>, i: nat, now: Making)
    requires HandlesRight(parents, m) && i < |resources|
    requires AppendResources(m, parents, clusterName, resources[..i]) == Grown(now)
    ensures var name := ParentName(resources[i], clusterName);
            && (name in parents ==> parents[name] < |now.g.vertices|)
            && AppendResources(m, parents, clusterName, resources[..i + 1]) ==
               if name !in parents then Stray(resources[i].typ, name) else Grown(AddResource(now, parents[name], TreeOf(resources[i])))
  {
    assert resources[..i + 1][..i] == resources[..i];
  }

  /** The first tree with an unknown parent is the one reported. */
  lemma {:induction false} StrayStays(m: Making, parents: map<string, nat>, clusterName: string, resources: seq<Resolved>, i: nat)
    requires HandlesRight(parents, m) && i <= |resources| && AppendResources(m, parents, clusterName, resources[..i]).Stray?
    ensures AppendResources(m, parents, clusterName, resources) == AppendResources(m, parents, clusterName, resources[..i])
  {
    if i == |resources| {
      assert resources[..i] == resources;
    } else {
      assert resources[..|resources| - 1][..i] == resources[..i];
      StrayStays(m, parents, clusterName, resources[..|resources| - 1], i);
    }
  }
}
