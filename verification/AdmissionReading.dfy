/** What one node, one pod and one record more or less do to a reading of the cluster's capacity. */
module AdmissionReading {
  import opened Options
  import opened Text
  import opened Sums
  import opened Admission

  // ---- nodes ----

  /** A node counts unless it is cordoned or a taint keeps pods off it. */
  predicate Counts(n: Node) {
    !n.unschedulable && forall i :: 0 <= i < |n.taints| ==> n.taints[i] != NoSchedule && n.taints[i] != NoExecute
  }

  /** A node's whole cores: the most that its cpu, in thousandths, covers. */
  predicate WholeCores(n: Node, cores: nat) {
    1000 * cores <= n.milliCpu < 1000 * (cores + 1)
  }

  /** One node more adds its whole cores to the budget if it counts, and then pods on it count; the reserve comes off once. */
  lemma NodeMore(nodes: seq<Node>, n: Node, reserve: int) returns (cores: nat)
    ensures WholeCores(n, cores)
    ensures Allocatable(nodes + [n]) == Allocatable(nodes) + (if Counts(n) then cores else 0) && Allocatable([]) == 0
    ensures BudgetOf(nodes, reserve) == (if Allocatable(nodes) > reserve then Allocatable(nodes) - reserve else 0)
    ensures SchedulableNames(nodes + [n]) == SchedulableNames(nodes) + (if Counts(n) then {n.name} else {})
  {
    cores := n.milliCpu / 1000;
    var all := nodes + [n];
    assert all[..|nodes|] == nodes && all[|nodes|] == n;
    forall name ensures name in SchedulableNames(all) <==> name in SchedulableNames(nodes) || (Counts(n) && name == n.name) {
      if name in SchedulableNames(nodes) {
        var i :| 0 <= i < |nodes| && NodeSchedulable(nodes[i]) && nodes[i].name == name;
        assert all[i] == nodes[i];
      }
    }
  }

  // ---- pods ----

  /** A pod that holds a node that counts: bound to it and not finished. */
  predicate Holds(p: PodInfo, on: set<string>) {
    p.node in on && p.node != "" && p.phase != Succeeded && p.phase != Failed
  }

  /** It could be preempted: not protected, and below the workers' priority, where no priority is nought. */
  predicate Preempts(p: PodInfo) {
    p.protected == "" && (p.priority.None? || p.priority.value < 1000000)
  }

  /**
   * One pod more adds its cores, sidecar and all, to the running ones when it holds a node
   * that counts; to the preemptible ones when besides it could be preempted; and to those
   * of the record it names, and to nothing else.
   */
  lemma PodMore(pods: map<string, PodInfo>, on: set<string>, k: string, p: PodInfo, record: string)
    requires k !in pods && record != ""
    ensures Total(pods[k := p], on, All) == Total(pods, on, All) + if Holds(p, on) then p.base + p.side else 0
    ensures Total(pods[k := p], on, Preemptible) == Total(pods, on, Preemptible) + if Holds(p, on) && Preempts(p) then p.base + p.side else 0
    ensures Total(pods[k := p], on, Kept) == Total(pods, on, Kept) + if Holds(p, on) && !Preempts(p) then p.base + p.side else 0
    ensures Total(pods[k := p], on, Of(record)) == Total(pods, on, Of(record)) + if Holds(p, on) && p.record == record then p.base + p.side else 0
    ensures forall part :: Total(map[], on, part) == 0
  {
    TotalAdd(pods, on, k, p, All);
    TotalAdd(pods, on, k, p, Preemptible);
    TotalAdd(pods, on, k, p, Kept);
    TotalAdd(pods, on, k, p, Of(record));
    EmptyTotals(on);
  }

  // ---- records ----

  /** A pod's or a group's annotation stands for so many cores when it reads as that positive number. */
  predicate StandsFor(annotation: string, cores: nat) {
    Atoi(annotation) == Some(cores as int) && cores > 0
  }

  /** The records are those of the groups and of the pods, a pod's before a group's of the same name. */
  lemma RecordsAre(c: Cluster, k: string, cores: nat)
    ensures k in Records(c) && Records(c)[k] == cores <==>
            || (k in c.pods && StandsFor(c.pods[k].admitted, cores))
            || (k in c.groups && StandsFor(c.groups[k], cores) && (k in c.pods ==> forall other: nat :: !StandsFor(c.pods[k].admitted, other)))
  {
    if k in c.pods {
      RecordIs(c.pods[k].admitted);
    }
    if k in c.groups {
      RecordIs(c.groups[k]);
    }
  }

  lemma RecordIs(annotation: string)
    ensures forall cores: nat :: StandsFor(annotation, cores) <==> RecordOf(annotation) == Some(cores)
  {
  }

  /** A record promises what its running cores leave of it, so never less than nothing. */
  lemma RecordPromises(c: Cluster, k: string)
    requires k in Records(c)
    ensures var on, total := SchedulableNames(c.nodes), Records(c)[k];
            var left := Lefts(Records(c), c.pods, on, false);
            && k in left && left[k] == (if total > Total(c.pods, on, Of(k)) then total - Total(c.pods, on, Of(k)) else 0)
            && PromisedOf(c) == left[k] + Sum(left - {k})
  {
    SumTake(Lefts(Records(c), c.pods, SchedulableNames(c.nodes), false), k);
  }
}
