/**
 * Admission control: one reading of the cluster's capacity, the rule that admits a
 * quantum group, and what a whole run of admissions, bindings and departures keeps.
 */
module Admission {
  import opened Vocabulary
  import opened Options
  import opened Text
  import opened Sums
  import Jobs = Placement

  const CEILING: int := 1000000

  datatype Effect = NoSchedule | PreferNoSchedule | NoExecute

  /** Allocatable cpu is in thousandths of a core. */
  datatype Node = Node(name: string, unschedulable: bool, taints: seq<Effect>, milliCpu: nat)

  datatype Phase = Pending | Running | Succeeded | Failed | Unknown

  /**
   * A pod as the webhook lists it: what its own containers request, whether the webhook
   * added a sidecar, the whole cores that makes, and the protected, admitted-group and
   * admitted-cores annotations. base is the pod as submitted, side what the sidecar adds.
   */
  datatype PodInfo = PodInfo(node: string, phase: Phase, priority: Option<int>, containers: seq<Jobs.Requests>, sidecar: bool,
                             base: nat, side: nat, protected: string, record: string, admitted: string)

  /** What the sidecar container requests: 100m of cpu and 256Mi of memory. */
  const SIDECAR_REQUESTS: Jobs.Requests := map["cpu" := 100, "memory" := 256 * 1024 * 1024 * 1000]

  /** Nodes, pod groups with their admitted-cores annotation, and pods, the latter two by namespace/name. */
  datatype Cluster = Cluster(nodes: seq<Node>, groups: map<string, string>, pods: map<string, PodInfo>)

  datatype Capacity = Capacity(budget: nat, running: nat, free: nat, preemptible: nat, promised: nat)

  function Reachable(c: Capacity): nat {
    c.free + c.preemptible
  }

  // ---- one pod, one node ----

  predicate NodeSchedulable(n: Node) {
    !n.unschedulable && NoSchedule !in n.taints && NoExecute !in n.taints
  }

  function NodeCores(n: Node): nat {
    n.milliCpu / 1000
  }

  predicate PodBound(p: PodInfo) {
    p.node != "" && p.phase != Succeeded && p.phase != Failed
  }

  function PodPriority(p: PodInfo): int {
    if p.priority.Some? then p.priority.value else 0
  }

  function CoresOf(containers: seq<Jobs.Requests>): nat {
    Jobs.Need(Jobs.Pod(containers, map[]), "core")
  }

  /** The containers of the pod as stored. */
  function Stored(p: PodInfo): seq<Jobs.Requests> {
    p.containers + if p.sidecar then [SIDECAR_REQUESTS] else []
  }

  /** The cores are those the requests make, rounded up container by container. */
  predicate Measured(p: PodInfo) {
    p.base == CoresOf(p.containers) && p.base + p.side == CoresOf(Stored(p))
  }

  function PodCores(p: PodInfo): nat {
    p.base + p.side
  }

  /** A sidecar rounds up to one core, or hides under the core every pod has: it adds one at most. */
  lemma SidecarAddsAtMostOne(p: PodInfo)
    requires Measured(p)
    ensures p.side <= (if p.sidecar then 1 else 0) && p.base > 0
    ensures PodCores(p) == CoresOf(Stored(p))
  {
    var all := p.containers + [SIDECAR_REQUESTS];
    assert all[..|all| - 1] == p.containers && all[|all| - 1] == SIDECAR_REQUESTS;
    assert Jobs.ContainerNeed(SIDECAR_REQUESTS, "core") == 1 by {
      assert FLUXION_PREFIX + "core" !in SIDECAR_REQUESTS;
    }
    assert p.containers + [] == p.containers;
  }

  predicate CanBePreempted(p: PodInfo) {
    p.protected == "" && PodPriority(p) < CEILING
  }

  /** An admission record: a positive count. */
  function RecordOf(annotation: string): Option<nat> {
    var v := Atoi(annotation);
    if v.Some? && v.value > 0 then Some(v.value) else None
  }

  // ---- the reading ----

  function SchedulableNames(nodes: seq<Node>): set<string> {
    set i | 0 <= i < |nodes| && NodeSchedulable(nodes[i]) :: nodes[i].name
  }

  function Allocatable(nodes: seq<Node>): nat {
    if nodes == [] then 0
    else Allocatable(nodes[..|nodes| - 1]) + if NodeSchedulable(nodes[|nodes| - 1]) then NodeCores(nodes[|nodes| - 1]) else 0
  }

  function BudgetOf(nodes: seq<Node>, reserve: int): nat {
    if Allocatable(nodes) - reserve < 0 then 0 else Allocatable(nodes) - reserve
  }

  /** The parts of a pod's cores the accounting adds up, over the pods on schedulable nodes. */
  datatype Part = All | Preemptible | Kept | KeptBase | Side | Of(key: string) | BaseOf(key: string) | SideOf(key: string)

  function Share(p: PodInfo, on: set<string>, part: Part): nat {
    if !PodBound(p) || p.node !in on then 0
    else
      match part
      case All => PodCores(p)
      case Preemptible => if CanBePreempted(p) then PodCores(p) else 0
      case Kept => if CanBePreempted(p) then 0 else PodCores(p)
      case KeptBase => if CanBePreempted(p) then 0 else p.base
      case Side => if CanBePreempted(p) then 0 else p.side
      case Of(k) => if p.record == k != "" then PodCores(p) else 0
      case BaseOf(k) => if p.record == k != "" then p.base else 0
      case SideOf(k) => if p.record == k != "" then p.side else 0
  }

  function Shares(pods: map<string, PodInfo>, on: set<string>, part: Part): map<string, nat> {
    map k | k in pods :: Share(pods[k], on, part)
  }

  ghost function Total(pods: map<string, PodInfo>, on: set<string>, part: Part): nat {
    Sum(Shares(pods, on, part))
  }

  function GroupRecords(groups: map<string, string>): map<string, nat> {
    map k | k in groups && RecordOf(groups[k]).Some? :: RecordOf(groups[k]).value
  }

  function PodRecords(pods: map<string, PodInfo>): map<string, nat> {
    map k | k in pods && RecordOf(pods[k].admitted).Some? :: RecordOf(pods[k].admitted).value
  }

  /** The records by name; a pod's own record replaces a group's of the same name. */
  function Records(c: Cluster): map<string, nat> {
    GroupRecords(c.groups) + PodRecords(c.pods)
  }

  function Left(total: nat, bound: nat): nat {
    if total > bound then total - bound else 0
  }

  /** What each record still promises, counting all its members' cores or their base alone. */
  ghost function Lefts(records: map<string, nat>, pods: map<string, PodInfo>, on: set<string>, base: bool): map<string, nat> {
    map k | k in records :: Left(records[k], Total(pods, on, if base then BaseOf(k) else Of(k)))
  }

  ghost function PromisedOf(c: Cluster): nat {
    Sum(Lefts(Records(c), c.pods, SchedulableNames(c.nodes), false))
  }

  ghost predicate Reads(c: Cluster, reserve: int, cap: Capacity) {
    var on := SchedulableNames(c.nodes);
    && cap.budget == BudgetOf(c.nodes, reserve)
    && cap.running == Total(c.pods, on, All)
    && cap.preemptible == Total(c.pods, on, Preemptible)
    && cap.promised == PromisedOf(c)
    && cap.free == Left(cap.budget, cap.running)
  }

  /** Budget and schedulable nodes, in one pass over the nodes. */
  method ReadNodes(nodes: seq<Node>, reserve: int) returns (budget: nat, schedulable: set<string>)
    ensures budget == BudgetOf(nodes, reserve) && schedulable == SchedulableNames(nodes)
  {
    var sum: int := 0;
    schedulable := {};
    for i := 0 to |nodes|
      invariant sum == Allocatable(nodes[..i])
      invariant schedulable == set j | 0 <= j < i && NodeSchedulable(nodes[j]) :: nodes[j].name
    {
      assert nodes[..i + 1][..i] == nodes[..i];
      if !NodeSchedulable(nodes[i]) {
        continue;
      }
      schedulable := schedulable + {nodes[i].name};
      sum := sum + NodeCores(nodes[i]);
    }
    assert nodes[..|nodes|] == nodes;
    sum := sum - reserve;
    if sum < 0 {
      sum := 0;
    }
    budget := sum;
  }

  /** The records of the pod groups. */
  method ReadGroups(groups: map<string, string>) returns (records: map<string, nat>)
    ensures records == GroupRecords(groups)
  {
    records := map[];
    var keys := groups.Keys;
    while keys != {}
      invariant keys <= groups.Keys
      invariant records == map k | k in groups.Keys - keys && RecordOf(groups[k]).Some? :: RecordOf(groups[k]).value
    {
      var k :| k in keys;
      keys := keys - {k};
      if RecordOf(groups[k]).Some? {
        records := records[k := RecordOf(groups[k]).value];
      }
    }
  }

  /** One pod more adds its share to every part. */
  lemma TotalAdd(pods: map<string, PodInfo>, on: set<string>, k: string, p: PodInfo, part: Part)
    requires k !in pods
    ensures Total(pods[k := p], on, part) == Total(pods, on, part) + Share(p, on, part)
  {
    assert Shares(pods[k := p], on, part) == Shares(pods, on, part)[k := Share(p, on, part)];
    SumAdd(Shares(pods, on, part), k, Share(p, on, part));
  }

  /** The table of cores bound per record has, for each record, the total of its members. */
  ghost predicate Tallied(runningOf: map<string, nat>, pods: map<string, PodInfo>, on: set<string>) {
    forall k :: k != "" ==> Total(pods, on, Of(k)) == if k in runningOf then runningOf[k] else 0
  }

  function Count(runningOf: map<string, nat>, k: string): nat {
    if k in runningOf then runningOf[k] else 0
  }

  /** The table with one more pod's cores. */
  function Tally(runningOf: map<string, nat>, p: PodInfo): map<string, nat> {
    if p.record == "" then runningOf else runningOf[p.record := Count(runningOf, p.record) + PodCores(p)]
  }

  lemma TallyStep(runningOf: map<string, nat>, seen: map<string, PodInfo>, on: set<string>, k: string, p: PodInfo)
    requires Tallied(runningOf, seen, on) && k !in seen
    ensures Tallied(if PodBound(p) && p.node in on then Tally(runningOf, p) else runningOf, seen[k := p], on)
  {
    forall r | r != "" ensures Total(seen[k := p], on, Of(r)) == Total(seen, on, Of(r)) + Share(p, on, Of(r)) {
      TotalAdd(seen, on, k, p, Of(r));
    }
  }

  lemma RecordsStep(fromGroups: map<string, nat>, seen: map<string, PodInfo>, k: string, p: PodInfo)
    requires k !in seen
    ensures fromGroups + PodRecords(seen[k := p]) ==
            if RecordOf(p.admitted).Some? then (fromGroups + PodRecords(seen))[k := RecordOf(p.admitted).value]
            else fromGroups + PodRecords(seen)
  {
  }

  /** What the loop over pods has gathered from those seen. */
  datatype Gathered = Gathered(records: map<string, nat>, running: nat, preemptible: nat, runningOf: map<string, nat>)

  ghost predicate GatheredFrom(g: Gathered, fromGroups: map<string, nat>, seen: map<string, PodInfo>, on: set<string>) {
    && g.records == fromGroups + PodRecords(seen)
    && g.running == Total(seen, on, All) && g.preemptible == Total(seen, on, Preemptible)
    && Tallied(g.runningOf, seen, on)
  }

  function Gather(g: Gathered, k: string, p: PodInfo, on: set<string>): Gathered {
    var listed := if RecordOf(p.admitted).Some? then g.(records := g.records[k := RecordOf(p.admitted).value]) else g;
    if !PodBound(p) || p.node !in on then listed
    else
      listed.(running := g.running + PodCores(p),
              preemptible := g.preemptible + if CanBePreempted(p) then PodCores(p) else 0,
              runningOf := Tally(g.runningOf, p))
  }

  lemma GatherStep(g: Gathered, fromGroups: map<string, nat>, seen: map<string, PodInfo>, on: set<string>, k: string, p: PodInfo)
    requires GatheredFrom(g, fromGroups, seen, on) && k !in seen
    ensures GatheredFrom(Gather(g, k, p, on), fromGroups, seen[k := p], on)
  {
    TotalAdd(seen, on, k, p, All);
    TotalAdd(seen, on, k, p, Preemptible);
    TallyStep(g.runningOf, seen, on, k, p);
    RecordsStep(fromGroups, seen, k, p);
  }

  method ReadPod(k: string, p: PodInfo, on: set<string>, before: Gathered) returns (g: Gathered)
    ensures g == Gather(before, k, p, on)
  {
    g := before;
    if RecordOf(p.admitted).Some? {
      g := g.(records := g.records[k := RecordOf(p.admitted).value]);
    }
    if !PodBound(p) || p.node !in on {
      return;
    }
    g := g.(running := g.running + PodCores(p));
    if CanBePreempted(p) {
      g := g.(preemptible := g.preemptible + PodCores(p));
    }
    if p.record != "" {
      g := g.(runningOf := g.runningOf[p.record := Count(g.runningOf, p.record) + PodCores(p)]);
    }
  }

  method ReadPods(pods: map<string, PodInfo>, on: set<string>, fromGroups: map<string, nat>) returns (g: Gathered)
    ensures GatheredFrom(g, fromGroups, pods, on)
  {
    g := Gathered(fromGroups, 0, 0, map[]);
    var keys := pods.Keys;
    ghost var seen: map<string, PodInfo> := map[];
    NothingGathered(fromGroups, on);
    while keys != {}
      invariant keys <= pods.Keys && seen.Keys == pods.Keys - keys && forall k :: k in seen ==> seen[k] == pods[k]
      invariant GatheredFrom(g, fromGroups, seen, on)
      decreases keys
    {
      var k :| k in keys;
      GatherStep(g, fromGroups, seen, on, k, pods[k]);
      g := ReadPod(k, pods[k], on, g);
      keys := keys - {k};
      seen := seen[k := pods[k]];
    }
    assert seen == pods;
  }

  lemma NothingGathered(fromGroups: map<string, nat>, on: set<string>)
    ensures GatheredFrom(Gathered(fromGroups, 0, 0, map[]), fromGroups, map[], on)
  {
    EmptyTotals(on);
    assert fromGroups + PodRecords(map[]) == fromGroups;
  }

  lemma EmptyTotals(on: set<string>)
    ensures forall part :: Total(map[], on, part) == 0
  {
    forall part ensures Total(map[], on, part) == 0 {
      assert Shares(map[], on, part) == map[];
    }
  }

  function LeftIn(records: map<string, nat>, runningOf: map<string, nat>): map<string, nat> {
    map k | k in records :: Left(records[k], Count(runningOf, k))
  }

  method SumLefts(records: map<string, nat>, runningOf: map<string, nat>) returns (promised: nat)
    ensures promised == Sum(LeftIn(records, runningOf))
  {
    promised := 0;
    ghost var rest := LeftIn(records, runningOf);
    var keys := records.Keys;
    while keys != {}
      invariant keys <= records.Keys && rest.Keys == keys
      invariant forall k :: k in keys ==> rest[k] == Left(records[k], Count(runningOf, k))
      invariant promised + Sum(rest) == Sum(LeftIn(records, runningOf))
      decreases keys
    {
      var k :| k in keys;
      SumTake(rest, k);
      rest := rest - {k};
      keys := keys - {k};
      var bound := Count(runningOf, k);
      if records[k] > bound {
        promised := promised + (records[k] - bound);
      }
    }
    assert rest == map[];
  }

  lemma TalliedLefts(records: map<string, nat>, runningOf: map<string, nat>, pods: map<string, PodInfo>, on: set<string>)
    requires "" !in records && Tallied(runningOf, pods, on)
    ensures LeftIn(records, runningOf) == Lefts(records, pods, on, false)
  {
    forall k | k in records ensures LeftIn(records, runningOf)[k] == Lefts(records, pods, on, false)[k] {
      assert Total(pods, on, Of(k)) == Count(runningOf, k);
    }
  }

  /** Capacity: one reading of the cluster. No object has the empty name. */
  method ReadCapacity(c: Cluster, reserve: int) returns (cap: Capacity)
    requires "" !in c.groups && "" !in c.pods
    ensures Reads(c, reserve, cap)
  {
    var budget, schedulable := ReadNodes(c.nodes, reserve);
    var fromGroups := ReadGroups(c.groups);
    var g := ReadPods(c.pods, schedulable, fromGroups);
    var promised := SumLefts(g.records, g.runningOf);
    TalliedLefts(g.records, g.runningOf, c.pods, schedulable);
    var free := 0;
    if budget > g.running {
      free := budget - g.running;
    }
    cap := Capacity(budget, g.running, free, g.preemptible, promised);
  }
}
