/** Runs of admissions, bindings and departures, one at a time over fixed nodes. */
module AdmissionRuns {
  import opened Options
  import opened Text
  import opened Sums
  import opened Admission
  import opened Runs

  // ---- the rule ----

  /** What a new group could have: the cores no unpreemptible pod holds, or all preemptible ones if that is more. */
  lemma ReachableIs(c: Cluster, reserve: int, cap: Capacity)
    requires Reads(c, reserve, cap)
    ensures var kept := Total(c.pods, SchedulableNames(c.nodes), Kept);
            && cap.running == cap.preemptible + kept
            && Reachable(cap) == (if cap.budget - kept > cap.preemptible then cap.budget - kept else cap.preemptible)
  {
    KeptOrPreemptible(c.pods, SchedulableNames(c.nodes));
  }

  lemma KeptOrPreemptible(pods: map<string, PodInfo>, on: set<string>)
    ensures Total(pods, on, All) == Total(pods, on, Preemptible) + Total(pods, on, Kept)
  {
    forall k | k in pods ensures Share(pods[k], on, All) == Share(pods[k], on, Preemptible) + Share(pods[k], on, Kept) {
      OneOrTheOther(pods[k], on);
    }
    SumPlus(Shares(pods, on, Preemptible), Shares(pods, on, Kept), Shares(pods, on, All));
  }

  lemma OneOrTheOther(p: PodInfo, on: set<string>)
    ensures Share(p, on, All) == Share(p, on, Preemptible) + Share(p, on, Kept)
  {
  }

  /** The admission rule for a group that wants so many cores. */
  predicate Fits(cap: Capacity, cores: nat) {
    cores + cap.promised <= Reachable(cap)
  }

  /** Running cores are within the budget, or the promises leave nothing of the preemptible ones to admit. */
  predicate Uncrowded(cap: Capacity) {
    cap.running <= cap.budget || cap.preemptible <= cap.promised
  }

  /**
   * Exactly when the rule keeps promises and unpreemptible cores within the budget: when
   * running cores do, or when there is nothing it would admit anyway.
   */
  lemma RuleKeepsBudgetIff(c: Cluster, reserve: int, cap: Capacity)
    requires Reads(c, reserve, cap)
    ensures (forall want: nat :: want > 0 && Fits(cap, want) ==>
               want + cap.promised + Total(c.pods, SchedulableNames(c.nodes), Kept) <= cap.budget)
       <==> Uncrowded(cap)
  {
    ReachableIs(c, reserve, cap);
    var kept := Total(c.pods, SchedulableNames(c.nodes), Kept);
    if !Uncrowded(cap) {
      var want: nat := cap.preemptible - cap.promised;
      assert want > 0 && Fits(cap, want) && want + cap.promised + kept > cap.budget;
    }
  }

  // ---- a run ----

  /** What a record was admitted for: so many members of so many cores each. */
  datatype Terms = Terms(n: nat, cores: nat)

  /** The cluster, and the terms of the records that stand. */
  datatype State = State(c: Cluster, terms: map<string, Terms>)

  datatype Step =
    | AdmitGang(key: string, gang: Terms, cap: Capacity)
    | AdmitAlone(key: string, pod: PodInfo, cap: Capacity)
    | AddMember(key: string, pod: PodInfo)
    | AddPlain(key: string, pod: PodInfo)
    | AddGroup(key: string, annotation: string, gang: Terms)
    | Bind(key: string, node: string)
    | Finish(key: string, phase: Phase)
    | DeletePod(key: string)
    | DeleteGroup(key: string)

  predicate Unbound(p: PodInfo) {
    p.node == "" && p.phase == Pending
  }

  predicate Alive(p: PodInfo) {
    p.phase != Succeeded && p.phase != Failed
  }

  function Cores(t: Terms): nat {
    t.n * t.cores
  }

  /**
   * What the API server and the webhook see to. A gang's first member is admitted by the
   * rule and its total recorded on a group that has no record. A lone quantum pod is
   * admitted by the rule and records its own cores. Later members pass because the group
   * has an annotation. Every quantum pod is stamped and named for its record, and only
   * quantum pods get a sidecar. Whatever else annotations say is the submitter's.
   */
  ghost predicate Possible(reserve: int, c: Cluster, s: Step) {
    match s
    case AdmitGang(k, gang, cap) =>
      k != "" && (k in c.groups ==> c.groups[k] == "") && 0 < Cores(gang) <= MAX_INT64 && Reads(c, reserve, cap) && Fits(cap, Cores(gang))
    case AdmitAlone(k, p, cap) =>
      && k != "" && k !in c.pods && Unbound(p) && Measured(p) && p.protected != "" && p.record == k && p.base <= MAX_INT64
      && p.admitted == Dec(p.base) && Reads(c, reserve, cap) && Fits(cap, p.base)
    case AddMember(k, p) =>
      && k != "" && k !in c.pods && Unbound(p) && Measured(p) && p.protected != ""
      && p.record != "" && p.record in c.groups && c.groups[p.record] != ""
    case AddPlain(k, p) => k != "" && k !in c.pods && Unbound(p) && Measured(p) && !p.sidecar
    case AddGroup(k, _, _) => k != "" && k !in c.groups
    case Bind(k, node) => k in c.pods && Unbound(c.pods[k]) && node != ""
    case Finish(k, phase) => k in c.pods && (phase == Succeeded || phase == Failed)
    case DeletePod(k) => k in c.pods
    case DeleteGroup(k) => k in c.groups
  }

  function Next(s: State, step: Step): State {
    var c := s.c;
    match step
    case AdmitGang(k, gang, _) => State(c.(groups := c.groups[k := Dec(Cores(gang))]), s.terms[k := gang])
    case AdmitAlone(k, p, _) => State(c.(pods := c.pods[k := p]), s.terms[k := Terms(1, p.base)])
    case AddMember(k, p) => s.(c := c.(pods := c.pods[k := p]))
    case AddPlain(k, p) => s.(c := c.(pods := c.pods[k := p]))
    case AddGroup(k, ann, gang) =>
      State(c.(groups := c.groups[k := ann]), if RecordOf(ann).Some? then s.terms[k := gang] else s.terms)
    case Bind(k, node) => if k in c.pods then s.(c := c.(pods := c.pods[k := c.pods[k].(node := node)])) else s
    case Finish(k, phase) => if k in c.pods then s.(c := c.(pods := c.pods[k := c.pods[k].(phase := phase)])) else s
    case DeletePod(k) => State(c.(pods := c.pods - {k}), s.terms - {k})
    case DeleteGroup(k) => State(c.(groups := c.groups - {k}), s.terms - {k})
  }

  // ---- the environment conditions ----

  function Members(c: Cluster, r: string): set<string> {
    set k | k in c.pods && Alive(c.pods[k]) && c.pods[k].record == r
  }

  /** A name is not a group's and a pod's at once, nor used again while a pod still names it as its record. */
  predicate NewRecord(c: Cluster, k: string) {
    Members(c, k) == {}
  }

  /** The budget left once promises and kept cores, sidecars aside, are taken off. */
  ghost function RoomLeft(reserve: int, c: Cluster): int {
    BudgetOf(c.nodes, reserve) - PromisedBase(c) - T(c, KeptBase)
  }

  /** A record that comes along with an object fits in the room left. */
  ghost predicate RecordFits(reserve: int, c: Cluster, annotation: string) {
    RecordOf(annotation).Some? ==> RecordOf(annotation).value <= RoomLeft(reserve, c)
  }

  /** A pod that names a record cannot be preempted and is one more of its members, of its cores. */
  predicate WithinTerms(s: State, p: PodInfo) {
    p.record != "" ==>
      !CanBePreempted(p) && p.record in s.terms && p.base == s.terms[p.record].cores && |Members(s.c, p.record)| < s.terms[p.record].n
  }

  /** On a node that counts, a record the pod names still stands, and kept cores that no record covers fit in the room. */
  ghost predicate MayStart(reserve: int, s: State, p: PodInfo) {
    if p.record != "" then p.record in s.terms else CanBePreempted(p) || p.base <= RoomLeft(reserve, s.c)
  }

  /**
   * Names are not shared or reused early. An admission finds the cluster uncrowded. A
   * record that arrives on an object instead of through the rule fits in the room left,
   * and covers the gang it stands for. A pod that names a record is within its terms and
   * starts only while it stands; one that names none and cannot be preempted starts only
   * in the room left.
   */
  ghost predicate Assumed(reserve: int, s: State, step: Step) {
    var c := s.c;
    match step
    case AdmitGang(k, _, cap) => k !in c.pods && NewRecord(c, k) && Uncrowded(cap)
    case AdmitAlone(k, _, cap) => k !in c.groups && NewRecord(c, k) && Uncrowded(cap)
    case AddMember(k, p) => k !in c.groups && RecordFits(reserve, c, p.admitted) && WithinTerms(s, p)
    case AddPlain(k, p) => k !in c.groups && RecordFits(reserve, c, p.admitted) && WithinTerms(s, p)
    case AddGroup(k, ann, gang) =>
      && k !in c.pods && NewRecord(c, k) && RecordFits(reserve, c, ann)
      && (RecordOf(ann).Some? ==> Cores(gang) <= RecordOf(ann).value)
    case Bind(k, node) => k in c.pods && node in SchedulableNames(c.nodes) ==> MayStart(reserve, s, c.pods[k])
    case _ => true
  }

  // ---- the accounts ----

  ghost function T(c: Cluster, part: Part): nat {
    Total(c.pods, SchedulableNames(c.nodes), part)
  }

  /** What the records promise when sidecars are not counted against them. */
  ghost function PromisedBase(c: Cluster): nat {
    Sum(Lefts(Records(c), c.pods, SchedulableNames(c.nodes), true))
  }

  /** A pod that names a record cannot be preempted, and one that names none has no sidecar. */
  predicate PodRight(p: PodInfo) {
    && p.side <= (if p.sidecar then 1 else 0)
    && if p.record != "" then !CanBePreempted(p) else !p.sidecar
  }

  ghost predicate NamesRight(c: Cluster) {
    && "" !in c.groups && "" !in c.pods && c.groups.Keys !! c.pods.Keys
    && forall k :: k in c.pods ==> PodRight(c.pods[k])
  }

  ghost predicate BudgetRight(reserve: int, c: Cluster) {
    PromisedBase(c) + T(c, KeptBase) <= BudgetOf(c.nodes, reserve)
  }

  /** Each record's live members are within its terms, and its terms within its total. */
  ghost predicate TermRight(s: State, r: string)
    requires r in s.terms
  {
    && r in Records(s.c) && Cores(s.terms[r]) <= Records(s.c)[r]
    && |Members(s.c, r)| <= s.terms[r].n
    && forall k :: k in Members(s.c, r) ==> s.c.pods[k].base == s.terms[r].cores
  }

  ghost predicate TermsRight(s: State) {
    forall r :: r in s.terms ==> TermRight(s, r)
  }

  // ---- totals when one pod changes ----

  lemma TotalSet(pods: map<string, PodInfo>, on: set<string>, k: string, p: PodInfo, part: Part)
    requires k in pods
    ensures Total(pods[k := p], on, part) + Share(pods[k], on, part) == Total(pods, on, part) + Share(p, on, part)
  {
    assert Shares(pods[k := p], on, part) == Shares(pods, on, part)[k := Share(p, on, part)];
    SumSet(Shares(pods, on, part), k, Share(p, on, part));
  }

  lemma TotalRemove(pods: map<string, PodInfo>, on: set<string>, k: string, part: Part)
    requires k in pods
    ensures Total(pods - {k}, on, part) + Share(pods[k], on, part) == Total(pods, on, part)
  {
    assert Shares(pods - {k}, on, part) == Shares(pods, on, part) - {k};
    SumTake(Shares(pods, on, part), k);
  }

  // ---- promises against records ----

  /** The sidecar cores bound for each record. */
  ghost function Sides(records: map<string, nat>, pods: map<string, PodInfo>, on: set<string>): map<string, nat> {
    map r | r in records :: Total(pods, on, SideOf(r))
  }

  lemma SideShares(p: PodInfo, on: set<string>, r: string)
    requires PodRight(p)
    ensures r != p.record ==> Share(p, on, SideOf(r)) == 0
    ensures Share(p, on, SideOf(r)) <= Share(p, on, Side)
  {
  }

  /** A pod's cores split into those it was submitted with and its sidecar's. */
  lemma SharesSplit(p: PodInfo, on: set<string>, r: string)
    ensures Share(p, on, Of(r)) == Share(p, on, BaseOf(r)) + Share(p, on, SideOf(r))
    ensures Share(p, on, Kept) == Share(p, on, KeptBase) + Share(p, on, Side)
  {
  }

  lemma SideAdded(rest: map<string, PodInfo>, on: set<string>, k: string, p: PodInfo, r: string)
    requires k !in rest && PodRight(p)
    ensures var now, before := Total(rest[k := p], on, SideOf(r)), Total(rest, on, SideOf(r));
            now <= before + Share(p, on, Side) && (r != p.record ==> now == before)
  {
    TotalAdd(rest, on, k, p, SideOf(r));
    SideShares(p, on, r);
  }

  /** One pod more adds its sidecar to at most its own record's. */
  lemma SidesStep(records: map<string, nat>, rest: map<string, PodInfo>, on: set<string>, k: string, p: PodInfo)
    requires k !in rest && PodRight(p)
    ensures Sum(Sides(records, rest[k := p], on)) <= Sum(Sides(records, rest, on)) + Share(p, on, Side)
  {
    var now, before, r := Sides(records, rest[k := p], on), Sides(records, rest, on), p.record;
    forall j | j in records ensures now[j] <= before[j] + Share(p, on, Side) && (j != r ==> now[j] == before[j]) {
      SideAdded(rest, on, k, p, j);
    }
    SumShiftAtMost(before, now, r, Share(p, on, Side));
  }

  lemma {:induction false} SideTotals(records: map<string, nat>, pods: map<string, PodInfo>, on: set<string>)
    requires forall k :: k in pods ==> PodRight(pods[k])
    ensures Sum(Sides(records, pods, on)) <= Total(pods, on, Side)
    decreases |pods|
  {
    if pods == map[] {
      EmptyTotals(on);
      SumZero(Sides(records, pods, on));
    } else {
      var k :| k in pods;
      SideTotals(records, pods - {k}, on);
      assert pods == (pods - {k})[k := pods[k]];
      SidesStep(records, pods - {k}, on, k, pods[k]);
      TotalRemove(pods, on, k, Side);
    }
  }

  lemma OfSplits(pods: map<string, PodInfo>, on: set<string>, r: string)
    ensures Total(pods, on, Of(r)) == Total(pods, on, BaseOf(r)) + Total(pods, on, SideOf(r))
  {
    forall k | k in pods ensures Share(pods[k], on, Of(r)) == Share(pods[k], on, BaseOf(r)) + Share(pods[k], on, SideOf(r)) {
      SharesSplit(pods[k], on, r);
    }
    SumPlus(Shares(pods, on, BaseOf(r)), Shares(pods, on, SideOf(r)), Shares(pods, on, Of(r)));
  }

  lemma KeptSplits(pods: map<string, PodInfo>, on: set<string>)
    ensures Total(pods, on, Kept) == Total(pods, on, KeptBase) + Total(pods, on, Side)
  {
    forall k | k in pods ensures Share(pods[k], on, Kept) == Share(pods[k], on, KeptBase) + Share(pods[k], on, Side) {
      SharesSplit(pods[k], on, "");
    }
    SumPlus(Shares(pods, on, KeptBase), Shares(pods, on, Side), Shares(pods, on, Kept));
  }

  /** Entry by entry, a promise without sidecars is at most the promise plus the sidecars. */
  lemma {:induction false} SumBetween(full: map<string, nat>, base: map<string, nat>, sides: map<string, nat>)
    requires full.Keys == base.Keys == sides.Keys && forall k :: k in full ==> full[k] <= base[k] <= full[k] + sides[k]
    ensures Sum(full) <= Sum(base) <= Sum(full) + Sum(sides)
    decreases |full|
  {
    if full != map[] {
      var k :| k in full;
      SumTake(full, k);
      SumTake(base, k);
      SumTake(sides, k);
      SumBetween(full - {k}, base - {k}, sides - {k});
    } else {
      assert full == base == sides;
    }
  }

  lemma LeftBetween(records: map<string, nat>, pods: map<string, PodInfo>, on: set<string>, r: string)
    requires r in records
    ensures var full, base := Lefts(records, pods, on, false)[r], Lefts(records, pods, on, true)[r];
            full <= base <= full + Sides(records, pods, on)[r]
  {
    OfSplits(pods, on, r);
    LeftSplits(records[r], Total(pods, on, BaseOf(r)), Total(pods, on, SideOf(r)));
  }

  lemma LeftSplits(total: nat, base: nat, side: nat)
    ensures Left(total, base + side) <= Left(total, base) <= Left(total, base + side) + side
  {
  }

  /** Not counting sidecars overstates the promises by at most the sidecars' cores. */
  lemma PromisedBaseWithin(c: Cluster)
    requires NamesRight(c)
    ensures PromisedOf(c) <= PromisedBase(c) <= PromisedOf(c) + T(c, Side)
    ensures T(c, Kept) == T(c, KeptBase) + T(c, Side)
  {
    var on, records := SchedulableNames(c.nodes), Records(c);
    var base, full, sides := Lefts(records, c.pods, on, true), Lefts(records, c.pods, on, false), Sides(records, c.pods, on);
    forall r | r in records ensures full[r] <= base[r] <= full[r] + sides[r] {
      LeftBetween(records, c.pods, on, r);
    }
    SumBetween(full, base, sides);
    SideTotals(records, c.pods, on);
    KeptSplits(c.pods, on);
  }

  /** When only one record's bound base changes, so does only its part of the promise. */
  lemma PromisedBaseShift(records: map<string, nat>, pods: map<string, PodInfo>, pods': map<string, PodInfo>, on: set<string>, r: string)
    requires forall k :: k in records && k != r ==> Total(pods', on, BaseOf(k)) == Total(pods, on, BaseOf(k))
    ensures var a, b := Lefts(records, pods, on, true), Lefts(records, pods', on, true);
            && (r !in records ==> Sum(b) == Sum(a))
            && (r in records ==>
                  Sum(b) + Left(records[r], Total(pods, on, BaseOf(r))) == Sum(a) + Left(records[r], Total(pods', on, BaseOf(r))))
  {
    var a, b := Lefts(records, pods, on, true), Lefts(records, pods', on, true);
    if r in records {
      SumShift(a, b, r);
    } else {
      SumSame(a, b);
    }
  }

  /** A new record promises what it says less what is bound under its name already. */
  lemma RecordAdded(records: map<string, nat>, pods: map<string, PodInfo>, on: set<string>, k: string, v: nat)
    requires k !in records
    ensures Sum(Lefts(records[k := v], pods, on, true)) == Sum(Lefts(records, pods, on, true)) + Left(v, Total(pods, on, BaseOf(k)))
  {
    var a, b := Lefts(records, pods, on, true), Lefts(records[k := v], pods, on, true);
    SumTake(b, k);
    SumSame(a, b - {k});
  }

  lemma RecordDropped(records: map<string, nat>, pods: map<string, PodInfo>, on: set<string>, k: string)
    ensures Sum(Lefts(records - {k}, pods, on, true)) <= Sum(Lefts(records, pods, on, true))
  {
    var a, b := Lefts(records, pods, on, true), Lefts(records - {k}, pods, on, true);
    if k in records {
      SumTake(a, k);
      SumSame(b, a - {k});
    } else {
      assert records - {k} == records;
    }
  }

  // ---- records when objects come and go ----

  lemma RecordOfDec(n: nat)
    requires 0 < n <= MAX_INT64
    ensures RecordOf(Dec(n)) == Some(n)
  {
    AtoiOfDec(n);
  }

  /** The record an annotation brings under a name that had none. */
  function Brought(records: map<string, nat>, k: string, annotation: string): map<string, nat> {
    if RecordOf(annotation).Some? then records[k := RecordOf(annotation).value] else records
  }

  lemma GroupRecorded(c: Cluster, k: string, annotation: string)
    requires k !in c.pods && (k in c.groups ==> RecordOf(c.groups[k]).None?)
    ensures k !in Records(c) && Records(c.(groups := c.groups[k := annotation])) == Brought(Records(c), k, annotation)
  {
    GroupRecordsMore(c.groups, k, annotation);
    UnionBrought(GroupRecords(c.groups), PodRecords(c.pods), k, annotation);
  }

  lemma GroupRecordsMore(groups: map<string, string>, k: string, annotation: string)
    requires k in groups ==> RecordOf(groups[k]).None?
    ensures k !in GroupRecords(groups) && GroupRecords(groups[k := annotation]) == Brought(GroupRecords(groups), k, annotation)
  {
  }

  lemma UnionBrought(a: map<string, nat>, b: map<string, nat>, k: string, annotation: string)
    requires k !in b
    ensures Brought(a, k, annotation) + b == Brought(a + b, k, annotation)
  {
  }

  lemma PodRecorded(c: Cluster, k: string, p: PodInfo)
    requires k !in c.pods && k !in c.groups
    ensures k !in Records(c) && Records(c.(pods := c.pods[k := p])) == Brought(Records(c), k, p.admitted)
  {
    RecordsStep(GroupRecords(c.groups), c.pods, k, p);
  }

  lemma RecordsKept(c: Cluster, k: string, p: PodInfo)
    requires k in c.pods && p.admitted == c.pods[k].admitted
    ensures Records(c.(pods := c.pods[k := p])) == Records(c)
  {
    assert PodRecords(c.pods[k := p]) == PodRecords(c.pods);
  }

  lemma PodForgotten(c: Cluster, k: string)
    requires k in c.pods && k !in c.groups
    ensures Records(c.(pods := c.pods - {k})) == Records(c) - {k}
  {
    assert PodRecords(c.pods - {k}) == PodRecords(c.pods) - {k};
    assert GroupRecords(c.groups) - {k} == GroupRecords(c.groups);
  }

  lemma GroupForgotten(c: Cluster, k: string)
    requires k in c.groups && k !in c.pods
    ensures Records(c.(groups := c.groups - {k})) == Records(c) - {k}
  {
    assert GroupRecords(c.groups - {k}) == GroupRecords(c.groups) - {k};
    assert PodRecords(c.pods) - {k} == PodRecords(c.pods);
  }

  // ---- arrivals ----

  /** Room for what was just admitted. */
  lemma AdmissionHasRoom(reserve: int, c: Cluster, cap: Capacity, cores: nat)
    requires NamesRight(c) && BudgetRight(reserve, c) && Reads(c, reserve, cap) && Fits(cap, cores) && cores > 0 && Uncrowded(cap)
    ensures cores <= RoomLeft(reserve, c)
  {
    RuleKeepsBudgetIff(c, reserve, cap);
    PromisedBaseWithin(c);
  }

  /** A pod that is not bound changes no total. */
  lemma UnboundAdds(pods: map<string, PodInfo>, on: set<string>, k: string, p: PodInfo)
    requires k !in pods && Unbound(p)
    ensures forall part :: Total(pods[k := p], on, part) == Total(pods, on, part)
  {
    forall part ensures Total(pods[k := p], on, part) == Total(pods, on, part) {
      TotalAdd(pods, on, k, p, part);
    }
  }

  lemma UnboundLefts(records: map<string, nat>, pods: map<string, PodInfo>, on: set<string>, k: string, p: PodInfo)
    requires k !in pods && Unbound(p)
    ensures Sum(Lefts(records, pods[k := p], on, true)) == Sum(Lefts(records, pods, on, true))
  {
    UnboundAdds(pods, on, k, p);
    SumSame(Lefts(records, pods[k := p], on, true), Lefts(records, pods, on, true));
  }

  /** What an object's record adds to the promises. */
  ghost function Asked(c: Cluster, k: string, annotation: string): nat {
    if RecordOf(annotation).Some? then Left(RecordOf(annotation).value, T(c, BaseOf(k))) else 0
  }

  /**
   * A pod that arrives keeps the budget exactly when the record it brings, whoever wrote
   * it, fits in the room left.
   */
  lemma PodArrivesIff(reserve: int, c: Cluster, k: string, p: PodInfo)
    requires BudgetRight(reserve, c) && k !in c.pods && k !in c.groups && Unbound(p)
    ensures BudgetRight(reserve, c.(pods := c.pods[k := p])) <==> Asked(c, k, p.admitted) <= RoomLeft(reserve, c)
  {
    var on := SchedulableNames(c.nodes);
    PodRecorded(c, k, p);
    if RecordOf(p.admitted).Some? {
      RecordAdded(Records(c), c.pods, on, k, RecordOf(p.admitted).value);
    }
    UnboundLefts(Brought(Records(c), k, p.admitted), c.pods, on, k, p);
    UnboundAdds(c.pods, on, k, p);
  }

  /** The same for a group that arrives, or that gets its first record. */
  lemma GroupArrivesIff(reserve: int, c: Cluster, k: string, annotation: string)
    requires BudgetRight(reserve, c) && k !in c.pods && (k in c.groups ==> RecordOf(c.groups[k]).None?)
    ensures BudgetRight(reserve, c.(groups := c.groups[k := annotation])) <==> Asked(c, k, annotation) <= RoomLeft(reserve, c)
  {
    GroupRecorded(c, k, annotation);
    if RecordOf(annotation).Some? {
      RecordAdded(Records(c), c.pods, SchedulableNames(c.nodes), k, RecordOf(annotation).value);
    }
  }

  lemma AdmitGangKeeps(reserve: int, s: State, k: string, gang: Terms, cap: Capacity)
    requires NamesRight(s.c) && BudgetRight(reserve, s.c)
    requires Possible(reserve, s.c, AdmitGang(k, gang, cap)) && Assumed(reserve, s, AdmitGang(k, gang, cap))
    ensures BudgetRight(reserve, s.c.(groups := s.c.groups[k := Dec(Cores(gang))]))
  {
    AdmissionHasRoom(reserve, s.c, cap, Cores(gang));
    RecordOfDec(Cores(gang));
    NoRecord();
    GroupArrivesIff(reserve, s.c, k, Dec(Cores(gang)));
  }

  lemma NoRecord()
    ensures RecordOf("").None?
  {
  }

  lemma AdmitAloneKeeps(reserve: int, s: State, k: string, p: PodInfo, cap: Capacity)
    requires NamesRight(s.c) && BudgetRight(reserve, s.c)
    requires Possible(reserve, s.c, AdmitAlone(k, p, cap)) && Assumed(reserve, s, AdmitAlone(k, p, cap))
    ensures BudgetRight(reserve, s.c.(pods := s.c.pods[k := p]))
  {
    AdmissionHasRoom(reserve, s.c, cap, p.base);
    SidecarAddsAtMostOne(p);
    RecordOfDec(p.base);
    PodArrivesIff(reserve, s.c, k, p);
  }

  // ---- binding and leaving ----

  lemma BaseElsewhere(pods: map<string, PodInfo>, on: set<string>, k: string, p: PodInfo, j: string)
    requires k in pods && p.record == pods[k].record != j
    ensures Total(pods[k := p], on, BaseOf(j)) == Total(pods, on, BaseOf(j))
  {
    TotalSet(pods, on, k, p, BaseOf(j));
  }

  /** How the promises move when pod k turns into p: by its own record's part alone. */
  lemma PromiseTurns(records: map<string, nat>, pods: map<string, PodInfo>, on: set<string>, k: string, p: PodInfo)
    requires k in pods && p.record == pods[k].record
    ensures var a, b, r := Sum(Lefts(records, pods, on, true)), Sum(Lefts(records, pods[k := p], on, true)), p.record;
            && (r !in records ==> b == a)
            && (r in records ==> b + Left(records[r], Total(pods, on, BaseOf(r))) == a + Left(records[r], Total(pods[k := p], on, BaseOf(r))))
  {
    forall j | j in records && j != p.record ensures Total(pods[k := p], on, BaseOf(j)) == Total(pods, on, BaseOf(j)) {
      BaseElsewhere(pods, on, k, p, j);
    }
    PromisedBaseShift(records, pods, pods[k := p], on, p.record);
  }

  /** The same pod, but for its node and phase. */
  predicate SamePod(p: PodInfo, q: PodInfo) {
    PodRight(q) && p == q.(node := p.node, phase := p.phase)
  }

  lemma PromiseMoves(records: map<string, nat>, pods: map<string, PodInfo>, on: set<string>, k: string, p: PodInfo)
    requires k in pods && SamePod(p, pods[k]) && Share(p, on, KeptBase) <= Share(pods[k], on, KeptBase)
    ensures Sum(Lefts(records, pods[k := p], on, true)) + Share(p, on, KeptBase) <=
            Sum(Lefts(records, pods, on, true)) + Share(pods[k], on, KeptBase)
  {
    var r := p.record;
    PromiseTurns(records, pods, on, k, p);
    TotalSet(pods, on, k, p, BaseOf(r));
    BaseShares(p, on);
    BaseShares(pods[k], on);
    if r in records {
      LeftMoves(records[r], Total(pods, on, BaseOf(r)), Total(pods[k := p], on, BaseOf(r)),
                Share(pods[k], on, BaseOf(r)), Share(p, on, BaseOf(r)));
    }
  }

  lemma LeftMoves(total: nat, t: nat, t': nat, was: nat, now: nat)
    requires t' + was == t + now && now <= was
    ensures Left(total, t') + now <= Left(total, t) + was
  {
  }

  /** A pod that starts nothing moves at most its base from the kept cores to its record's promise. */
  lemma BaseMoves(records: map<string, nat>, pods: map<string, PodInfo>, on: set<string>, k: string, p: PodInfo)
    requires k in pods && SamePod(p, pods[k]) && Share(p, on, KeptBase) <= Share(pods[k], on, KeptBase)
    ensures Sum(Lefts(records, pods[k := p], on, true)) + Total(pods[k := p], on, KeptBase) <=
            Sum(Lefts(records, pods, on, true)) + Total(pods, on, KeptBase)
  {
    PromiseMoves(records, pods, on, k, p);
    TotalSet(pods, on, k, p, KeptBase);
  }

  /** A right pod's kept base is its base in its record, if it names one. */
  lemma BaseShares(p: PodInfo, on: set<string>)
    requires PodRight(p)
    ensures Share(p, on, BaseOf(p.record)) == if p.record != "" then Share(p, on, KeptBase) else 0
    ensures Share(p, on, KeptBase) == 0 || Share(p, on, KeptBase) == p.base
  {
  }

  lemma UnboundShares(p: PodInfo, on: set<string>)
    requires Unbound(p)
    ensures forall part :: Share(p, on, part) == 0
  {
  }

  lemma BoundShares(p: PodInfo, on: set<string>)
    ensures p.node !in on ==> forall part :: Share(p, on, part) == 0
    ensures CanBePreempted(p) ==> Share(p, on, KeptBase) == 0
  {
  }

  // ---- a record's members count ----

  function BoundMembers(pods: map<string, PodInfo>, on: set<string>, r: string): set<string> {
    set k | k in pods && PodBound(pods[k]) && pods[k].node in on && pods[k].record == r
  }

  lemma BoundMembersStep(pods: map<string, PodInfo>, on: set<string>, r: string, k: string)
    requires k in pods
    ensures k !in BoundMembers(pods - {k}, on, r)
    ensures BoundMembers(pods, on, r) ==
            if k in BoundMembers(pods, on, r) then BoundMembers(pods - {k}, on, r) + {k} else BoundMembers(pods - {k}, on, r)
  {
  }

  /** So many times so many cores, added up. */
  function Times(n: nat, cores: nat): nat {
    if n == 0 then 0 else Times(n - 1, cores) + cores
  }

  lemma {:induction false} TimesIsProduct(n: nat, cores: nat)
    ensures Times(n, cores) == n * cores
  {
    if n > 0 {
      TimesIsProduct(n - 1, cores);
      assert n * cores == (n - 1) * cores + cores;
    }
  }

  lemma {:induction false} TimesGrows(m: nat, n: nat, cores: nat)
    requires m <= n
    ensures Times(m, cores) <= Times(n, cores)
  {
    if m < n {
      TimesGrows(m, n - 1, cores);
    }
  }

  /** When a record's bound members take the same cores each, they take them as often as there are members. */
  lemma {:induction false} MembersTake(pods: map<string, PodInfo>, on: set<string>, r: string, cores: nat)
    requires r != "" && forall k :: k in BoundMembers(pods, on, r) ==> pods[k].base == cores
    ensures Total(pods, on, BaseOf(r)) == Times(|BoundMembers(pods, on, r)|, cores)
    decreases |pods|
  {
    if pods == map[] {
      EmptyTotals(on);
      assert BoundMembers(pods, on, r) == {};
    } else {
      var k :| k in pods;
      var rest := pods - {k};
      BoundMembersStep(pods, on, r, k);
      assert forall j :: j in BoundMembers(rest, on, r) ==> rest[j] == pods[j] && j in BoundMembers(pods, on, r);
      MembersTake(rest, on, r, cores);
      TotalRemove(pods, on, k, BaseOf(r));
      MemberShare(pods, on, r, k, cores);
      OneMoreMember(|BoundMembers(rest, on, r)|, cores);
    }
  }

  lemma OneMoreMember(n: nat, cores: nat)
    ensures Times(n + 1, cores) == Times(n, cores) + cores
  {
  }

  lemma MemberShare(pods: map<string, PodInfo>, on: set<string>, r: string, k: string, cores: nat)
    requires r != "" && k in pods && (k in BoundMembers(pods, on, r) ==> pods[k].base == cores)
    ensures Share(pods[k], on, BaseOf(r)) == if k in BoundMembers(pods, on, r) then cores else 0
  {
  }

  lemma UnboundMemberCounts(c: Cluster, k: string, r: string)
    requires k in c.pods && Unbound(c.pods[k]) && c.pods[k].record == r
    ensures |BoundMembers(c.pods, SchedulableNames(c.nodes), r)| + 1 <= |Members(c, r)|
    ensures BoundMembers(c.pods, SchedulableNames(c.nodes), r) <= Members(c, r)
  {
    var bound := BoundMembers(c.pods, SchedulableNames(c.nodes), r);
    assert k in Members(c, r) && k !in bound && bound <= Members(c, r);
    SubsetSize(bound + {k}, Members(c, r));
  }

  /** A live member that is not bound has its cores left under its record. */
  lemma UnboundMemberFits(s: State, k: string)
    requires TermsRight(s) && k in s.c.pods && Unbound(s.c.pods[k]) && s.c.pods[k].record != "" && s.c.pods[k].record in s.terms
    ensures var r := s.c.pods[k].record;
            r in Records(s.c) && T(s.c, BaseOf(r)) + s.c.pods[k].base <= Records(s.c)[r]
  {
    var r, on := s.c.pods[k].record, SchedulableNames(s.c.nodes);
    var terms, bound := s.terms[r], |BoundMembers(s.c.pods, on, r)|;
    assert TermRight(s, r);
    UnboundMemberCounts(s.c, k, r);
    assert k in Members(s.c, r);
    MembersTake(s.c.pods, on, r, terms.cores);
    OneMoreMember(bound, terms.cores);
    TimesGrows(bound + 1, terms.n, terms.cores);
    TimesIsProduct(terms.n, terms.cores);
  }

  /** A pod that does not start to count takes nothing. */
  lemma IdleBindKeeps(reserve: int, c: Cluster, k: string, node: string)
    requires NamesRight(c) && BudgetRight(reserve, c) && k in c.pods && Unbound(c.pods[k])
    requires node !in SchedulableNames(c.nodes) || CanBePreempted(c.pods[k])
    ensures BudgetRight(reserve, c.(pods := c.pods[k := c.pods[k].(node := node)]))
  {
    var on, p := SchedulableNames(c.nodes), c.pods[k].(node := node);
    assert PodRight(c.pods[k]);
    UnboundShares(c.pods[k], on);
    BoundShares(p, on);
    RecordsKept(c, k, p);
    BaseMoves(Records(c), c.pods, on, k, p);
  }

  lemma BindKeeps(reserve: int, s: State, k: string, node: string)
    requires NamesRight(s.c) && BudgetRight(reserve, s.c) && TermsRight(s)
    requires Possible(reserve, s.c, Bind(k, node)) && Assumed(reserve, s, Bind(k, node))
    ensures BudgetRight(reserve, s.c.(pods := s.c.pods[k := s.c.pods[k].(node := node)]))
  {
    if node !in SchedulableNames(s.c.nodes) || CanBePreempted(s.c.pods[k]) {
      IdleBindKeeps(reserve, s.c, k, node);
    } else {
      if s.c.pods[k].record != "" {
        UnboundMemberFits(s, k);
      }
      BindKeepsIff(reserve, s.c, k, node);
    }
  }

  /** What a record has left for its members, nothing when there is no record. */
  ghost function LeftFor(c: Cluster, r: string): nat {
    if r in Records(c) then Left(Records(c)[r], T(c, BaseOf(r))) else 0
  }

  /**
   * Binding a pod that cannot be preempted keeps the budget exactly when the cores it takes
   * beyond what its record has left fit in the room. A gang with more pods than its size, or larger ones, a pod whose record is
   * gone, and one that was never admitted take theirs from the promises of others.
   */
  lemma BindKeepsIff(reserve: int, c: Cluster, k: string, node: string)
    requires BudgetRight(reserve, c) && "" !in c.groups && "" !in c.pods
    requires k in c.pods && Unbound(c.pods[k]) && !CanBePreempted(c.pods[k])
    requires node != "" && node in SchedulableNames(c.nodes)
    ensures var p := c.pods[k];
            BudgetRight(reserve, c.(pods := c.pods[k := p.(node := node)])) <==>
            Left(p.base, LeftFor(c, p.record)) <= RoomLeft(reserve, c)
  {
    var on, q := SchedulableNames(c.nodes), c.pods[k];
    var p := q.(node := node);
    UnboundShares(q, on);
    KeptShares(p, on);
    RecordsKept(c, k, p);
    BindMoves(Records(c), c.pods, on, k, p);
    TotalSet(c.pods, on, k, p, KeptBase);
  }

  /** What a binding does to the promises: its record's part shrinks by what it has left. */
  lemma BindMoves(records: map<string, nat>, pods: map<string, PodInfo>, on: set<string>, k: string, p: PodInfo)
    requires k in pods && p.record == pods[k].record
    requires Share(pods[k], on, BaseOf(p.record)) == 0
    requires p.record in records ==> Share(p, on, BaseOf(p.record)) == p.base
    ensures var a, b := Sum(Lefts(records, pods, on, true)), Sum(Lefts(records, pods[k := p], on, true));
            && (p.record in records ==> b + p.base == a + Left(p.base, Left(records[p.record], Total(pods, on, BaseOf(p.record)))))
            && (p.record !in records ==> b == a)
  {
    PromiseTurns(records, pods, on, k, p);
    if p.record in records {
      TotalSet(pods, on, k, p, BaseOf(p.record));
      LeftTaken(records[p.record], Total(pods, on, BaseOf(p.record)), p.base);
    }
  }

  lemma KeptShares(p: PodInfo, on: set<string>)
    requires PodBound(p) && p.node in on && !CanBePreempted(p)
    ensures Share(p, on, All) == PodCores(p) && Share(p, on, KeptBase) == p.base
    ensures Share(p, on, BaseOf(p.record)) == if p.record != "" then p.base else 0
  {
  }

  /**
   * A preemptible pod that names a record hides its cores from that record's promise while
   * it runs. When it finishes the budget is kept exactly when what it hid fits in the room.
   */
  lemma HiddenPromiseIff(reserve: int, c: Cluster, k: string)
    requires BudgetRight(reserve, c) && k in c.pods && CanBePreempted(c.pods[k]) && c.pods[k].record in Records(c)
    ensures var p := c.pods[k];
            BudgetRight(reserve, c.(pods := c.pods[k := p.(phase := Succeeded)])) <==>
            Hidden(Records(c), c.pods, SchedulableNames(c.nodes), k) <= RoomLeft(reserve, c)
  {
    var on, p := SchedulableNames(c.nodes), c.pods[k].(phase := Succeeded);
    FinishedShares(p, on);
    PreemptibleShares(c.pods[k], on);
    RecordsKept(c, k, p);
    HiddenReturns(Records(c), c.pods, on, k);
    TotalSet(c.pods, on, k, p, KeptBase);
  }

  /** What a pod takes off its record's promise while it runs. */
  ghost function Hidden(records: map<string, nat>, pods: map<string, PodInfo>, on: set<string>, k: string): int
    requires k in pods && pods[k].record in records
  {
    var total, bound := records[pods[k].record], Total(pods, on, BaseOf(pods[k].record));
    var mine := Share(pods[k], on, BaseOf(pods[k].record));
    if mine <= bound then Left(total, bound - mine) - Left(total, bound) else 0
  }

  lemma HiddenReturns(records: map<string, nat>, pods: map<string, PodInfo>, on: set<string>, k: string)
    requires k in pods && pods[k].record in records
    ensures Sum(Lefts(records, pods[k := pods[k].(phase := Succeeded)], on, true)) ==
            Sum(Lefts(records, pods, on, true)) + Hidden(records, pods, on, k)
  {
    var p := pods[k].(phase := Succeeded);
    FinishedShares(p, on);
    TotalSet(pods, on, k, p, BaseOf(p.record));
    PromiseTurns(records, pods, on, k, p);
  }

  lemma PreemptibleShares(p: PodInfo, on: set<string>)
    requires CanBePreempted(p)
    ensures Share(p, on, KeptBase) == 0
  {
  }

  lemma FinishedShares(p: PodInfo, on: set<string>)
    requires !PodBound(p)
    ensures forall part :: Share(p, on, part) == 0
  {
  }

  lemma LeftTaken(total: nat, bound: nat, cores: nat)
    ensures Left(total, bound + cores) + cores == Left(total, bound) + Left(cores, Left(total, bound))
  {
  }

  lemma FinishKeeps(reserve: int, c: Cluster, k: string, phase: Phase)
    requires NamesRight(c) && BudgetRight(reserve, c) && k in c.pods && (phase == Succeeded || phase == Failed)
    ensures BudgetRight(reserve, c.(pods := c.pods[k := c.pods[k].(phase := phase)]))
  {
    var on, p := SchedulableNames(c.nodes), c.pods[k].(phase := phase);
    assert PodRight(c.pods[k]);
    RecordsKept(c, k, p);
    BaseMoves(Records(c), c.pods, on, k, p);
  }

  /** Forgetting a finished pod changes no total. */
  lemma FinishedForgotten(pods: map<string, PodInfo>, on: set<string>, k: string)
    requires k in pods && !PodBound(pods[k])
    ensures forall part :: Total(pods - {k}, on, part) == Total(pods, on, part)
  {
    forall part ensures Total(pods - {k}, on, part) == Total(pods, on, part) {
      TotalRemove(pods, on, k, part);
    }
  }

  lemma ForgetKeeps(reserve: int, c: Cluster, k: string)
    requires BudgetRight(reserve, c) && k in c.pods && k !in c.groups && !PodBound(c.pods[k])
    ensures BudgetRight(reserve, c.(pods := c.pods - {k}))
  {
    var on := SchedulableNames(c.nodes);
    PodForgotten(c, k);
    FinishedForgotten(c.pods, on, k);
    RecordDropped(Records(c), c.pods, on, k);
    SumSame(Lefts(Records(c) - {k}, c.pods, on, true), Lefts(Records(c) - {k}, c.pods - {k}, on, true));
  }

  /** Deleting a pod is finishing it, then forgetting it and any record it carried. */
  lemma DeletePodKeeps(reserve: int, c: Cluster, k: string)
    requires NamesRight(c) && BudgetRight(reserve, c) && k in c.pods
    ensures BudgetRight(reserve, c.(pods := c.pods - {k}))
  {
    var done := c.(pods := c.pods[k := c.pods[k].(phase := Succeeded)]);
    FinishKeeps(reserve, c, k, Succeeded);
    ForgetFinished(reserve, c, k, done);
  }

  lemma ForgetFinished(reserve: int, c: Cluster, k: string, done: Cluster)
    requires BudgetRight(reserve, done) && k in c.pods && k !in c.groups
    requires done == c.(pods := c.pods[k := c.pods[k].(phase := Succeeded)])
    ensures BudgetRight(reserve, c.(pods := c.pods - {k}))
  {
    ForgetKeeps(reserve, done, k);
    assert done.pods - {k} == c.pods - {k};
    assert done.(pods := done.pods - {k}) == c.(pods := c.pods - {k});
  }

  lemma DeleteGroupKeeps(reserve: int, c: Cluster, k: string)
    requires NamesRight(c) && BudgetRight(reserve, c) && k in c.groups
    ensures BudgetRight(reserve, c.(groups := c.groups - {k}))
  {
    GroupForgotten(c, k);
    RecordDropped(Records(c), c.pods, SchedulableNames(c.nodes), k);
  }

  // ---- every step keeps it all ----

  /** What a run keeps. */
  ghost predicate Right(reserve: int, s: State) {
    NamesRight(s.c) && BudgetRight(reserve, s.c) && TermsRight(s)
  }

  lemma StepKeepsNames(reserve: int, s: State, step: Step)
    requires NamesRight(s.c) && Possible(reserve, s.c, step) && Assumed(reserve, s, step)
    ensures NamesRight(Next(s, step).c)
  {
    if step.AdmitAlone? || step.AddMember? || step.AddPlain? {
      SidecarAddsAtMostOne(step.pod);
    }
  }

  /** A record whose total and members a step leaves alone keeps its terms right. */
  lemma TermStays(s: State, s': State, r: string)
    requires r in s.terms && TermRight(s, r) && r in s'.terms && s'.terms[r] == s.terms[r]
    requires r in Records(s'.c) && Records(s'.c)[r] == Records(s.c)[r]
    requires Members(s'.c, r) <= Members(s.c, r)
    requires forall k :: k in Members(s'.c, r) ==> s'.c.pods[k].base == s.c.pods[k].base
    ensures TermRight(s', r)
  {
    SubsetSize(Members(s'.c, r), Members(s.c, r));
  }

  lemma AdmitGangTerms(reserve: int, s: State, k: string, gang: Terms, cap: Capacity)
    requires TermsRight(s) && Possible(reserve, s.c, AdmitGang(k, gang, cap)) && Assumed(reserve, s, AdmitGang(k, gang, cap))
    ensures TermsRight(Next(s, AdmitGang(k, gang, cap)))
  {
    var s' := Next(s, AdmitGang(k, gang, cap));
    RecordOfDec(Cores(gang));
    NoRecord();
    GroupRecorded(s.c, k, Dec(Cores(gang)));
    assert Members(s'.c, k) == Members(s.c, k) == {};
    forall r | r in s'.terms ensures TermRight(s', r) {
      if r != k {
        assert TermRight(s, r);
        assert Members(s'.c, r) == Members(s.c, r);
        TermStays(s, s', r);
      }
    }
  }

  lemma AddGroupTerms(reserve: int, s: State, k: string, ann: string, gang: Terms)
    requires TermsRight(s) && Possible(reserve, s.c, AddGroup(k, ann, gang)) && Assumed(reserve, s, AddGroup(k, ann, gang))
    ensures TermsRight(Next(s, AddGroup(k, ann, gang)))
  {
    var s' := Next(s, AddGroup(k, ann, gang));
    GroupRecorded(s.c, k, ann);
    assert Members(s'.c, k) == Members(s.c, k) == {};
    forall r | r in s'.terms ensures TermRight(s', r) {
      if r in s.terms {
        assert TermRight(s, r) && r != k;
        assert Members(s'.c, r) == Members(s.c, r);
        TermStays(s, s', r);
      }
    }
  }

  /** A pod that arrives joins its own record's members and nobody else's. */
  lemma Joins(c: Cluster, k: string, p: PodInfo, r: string)
    requires k !in c.pods && Alive(p)
    ensures Members(c.(pods := c.pods[k := p]), r) == if p.record == r then Members(c, r) + {k} else Members(c, r)
    ensures k !in Members(c, r)
  {
  }

  lemma AddPodTerms(s: State, k: string, p: PodInfo)
    requires TermsRight(s) && k !in s.c.pods && k !in s.c.groups && Unbound(p)
    requires p.record in s.terms ==> p.base == s.terms[p.record].cores && |Members(s.c, p.record)| < s.terms[p.record].n
    ensures TermsRight(s.(c := s.c.(pods := s.c.pods[k := p])))
  {
    var s' := s.(c := s.c.(pods := s.c.pods[k := p]));
    PodRecorded(s.c, k, p);
    forall r | r in s'.terms ensures TermRight(s', r) {
      assert TermRight(s, r);
      Joins(s.c, k, p, r);
      if p.record == r {
        assert forall j :: j in Members(s.c, r) ==> s'.c.pods[j] == s.c.pods[j];
      } else {
        TermStays(s, s', r);
      }
    }
  }

  /** A pod on its own is its record's one member. */
  lemma LoneTerm(s: State, k: string, p: PodInfo)
    requires k !in s.c.pods && k !in s.c.groups && Unbound(p) && p.record == k && NewRecord(s.c, k)
    requires RecordOf(p.admitted) == Some(p.base)
    ensures TermRight(State(s.c.(pods := s.c.pods[k := p]), s.terms[k := Terms(1, p.base)]), k)
  {
    PodRecorded(s.c, k, p);
    Joins(s.c, k, p, k);
    assert Cores(Terms(1, p.base)) == p.base;
  }

  /** It joins no other record, and leaves every other as it is. */
  lemma LoneTermOnly(s: State, k: string, p: PodInfo, r: string)
    requires TermsRight(s) && k !in s.c.pods && k !in s.c.groups && Unbound(p) && p.record == k != r && r in s.terms
    ensures TermRight(State(s.c.(pods := s.c.pods[k := p]), s.terms[k := Terms(1, p.base)]), r)
  {
    var s' := State(s.c.(pods := s.c.pods[k := p]), s.terms[k := Terms(1, p.base)]);
    PodRecorded(s.c, k, p);
    Joins(s.c, k, p, r);
    assert TermRight(s, r);
    TermStays(s, s', r);
  }

  lemma AdmitAloneTerms(reserve: int, s: State, k: string, p: PodInfo, cap: Capacity)
    requires TermsRight(s) && Possible(reserve, s.c, AdmitAlone(k, p, cap)) && Assumed(reserve, s, AdmitAlone(k, p, cap))
    ensures TermsRight(Next(s, AdmitAlone(k, p, cap)))
  {
    SidecarAddsAtMostOne(p);
    RecordOfDec(p.base);
    LoneTerm(s, k, p);
    forall r | r in s.terms && r != k ensures TermRight(Next(s, AdmitAlone(k, p, cap)), r) {
      LoneTermOnly(s, k, p, r);
    }
  }

  /** A pod that moves or finishes joins nobody. */
  lemma ChangePodTerms(s: State, k: string, p: PodInfo)
    requires TermsRight(s) && k in s.c.pods && p == s.c.pods[k].(node := p.node, phase := p.phase)
    requires Alive(p) ==> Alive(s.c.pods[k])
    ensures TermsRight(s.(c := s.c.(pods := s.c.pods[k := p])))
  {
    var s' := s.(c := s.c.(pods := s.c.pods[k := p]));
    RecordsKept(s.c, k, p);
    forall r | r in s'.terms ensures TermRight(s', r) {
      assert TermRight(s, r);
      TermStays(s, s', r);
    }
  }

  lemma DeletePodTerms(s: State, k: string)
    requires TermsRight(s) && k in s.c.pods && k !in s.c.groups
    ensures TermsRight(Next(s, DeletePod(k)))
  {
    var s' := Next(s, DeletePod(k));
    PodForgotten(s.c, k);
    forall r | r in s'.terms ensures TermRight(s', r) {
      assert TermRight(s, r);
      TermStays(s, s', r);
    }
  }

  lemma DeleteGroupTerms(s: State, k: string)
    requires TermsRight(s) && k in s.c.groups && k !in s.c.pods
    ensures TermsRight(Next(s, DeleteGroup(k)))
  {
    var s' := Next(s, DeleteGroup(k));
    GroupForgotten(s.c, k);
    forall r | r in s'.terms ensures TermRight(s', r) {
      assert TermRight(s, r);
      assert Members(s'.c, r) == Members(s.c, r);
      TermStays(s, s', r);
    }
  }

  lemma AddPodKeeps(reserve: int, s: State, k: string, p: PodInfo)
    requires BudgetRight(reserve, s.c) && k !in s.c.pods && k !in s.c.groups && Unbound(p) && RecordFits(reserve, s.c, p.admitted)
    ensures BudgetRight(reserve, s.c.(pods := s.c.pods[k := p]))
  {
    PodArrivesIff(reserve, s.c, k, p);
  }

  lemma StepKeeps(reserve: int, s: State, step: Step)
    requires Right(reserve, s) && Possible(reserve, s.c, step) && Assumed(reserve, s, step)
    ensures Right(reserve, Next(s, step)) && Next(s, step).c.nodes == s.c.nodes
  {
    StepKeepsNames(reserve, s, step);
    match step
    case AdmitGang(k, gang, cap) =>
      AdmitGangKeeps(reserve, s, k, gang, cap);
      AdmitGangTerms(reserve, s, k, gang, cap);
    case AdmitAlone(k, p, cap) =>
      AdmitAloneKeeps(reserve, s, k, p, cap);
      AdmitAloneTerms(reserve, s, k, p, cap);
    case AddMember(k, p) =>
      AddPodKeeps(reserve, s, k, p);
      AddPodTerms(s, k, p);
    case AddPlain(k, p) =>
      AddPodKeeps(reserve, s, k, p);
      NoTermsUnnamed(s);
      AddPodTerms(s, k, p);
    case AddGroup(k, ann, gang) =>
      GroupArrivesIff(reserve, s.c, k, ann);
      AddGroupTerms(reserve, s, k, ann, gang);
    case Bind(k, node) =>
      BindKeeps(reserve, s, k, node);
      ChangePodTerms(s, k, s.c.pods[k].(node := node));
    case Finish(k, phase) =>
      FinishKeeps(reserve, s.c, k, phase);
      ChangePodTerms(s, k, s.c.pods[k].(phase := phase));
    case DeletePod(k) =>
      DeletePodKeeps(reserve, s.c, k);
      DeletePodTerms(s, k);
    case DeleteGroup(k) =>
      DeleteGroupKeeps(reserve, s.c, k);
      DeleteGroupTerms(s, k);
  }

  /** No record has the empty name. */
  lemma NoTermsUnnamed(s: State)
    requires NamesRight(s.c) && TermsRight(s)
    ensures "" !in s.terms
  {
    forall r | r in s.terms ensures r != "" {
      assert TermRight(s, r);
    }
  }

  type Run = Trace<State, Step>

  ghost predicate IsStep(reserve: int, r: Run, i: nat)
    requires i < |r.steps| && i + 1 < |r.states|
  {
    && Possible(reserve, r.states[i].c, r.steps[i]) && Assumed(reserve, r.states[i], r.steps[i])
    && r.states[i + 1] == Next(r.states[i], r.steps[i])
  }

  predicate Starts(s: State) {
    s.c.groups == map[] && s.c.pods == map[] && s.terms == map[]
  }

  ghost predicate IsRun(reserve: int, r: Run) {
    && |r.states| == |r.steps| + 1 && Starts(r.states[0])
    && forall i :: 0 <= i < |r.steps| ==> IsStep(reserve, r, i)
  }

  lemma EmptyCluster(reserve: int, s: State)
    requires Starts(s)
    ensures Right(reserve, s)
  {
    EmptyTotals(SchedulableNames(s.c.nodes));
    SumZero(Lefts(Records(s.c), s.c.pods, SchedulableNames(s.c.nodes), true));
  }

  lemma {:induction false} RunKeeps(reserve: int, r: Run, n: nat)
    requires IsRun(reserve, r) && n < |r.states|
    ensures Right(reserve, r.states[n]) && r.states[n].c.nodes == r.states[0].c.nodes
  {
    if n == 0 {
      EmptyCluster(reserve, r.states[0]);
    } else {
      RunKeeps(reserve, r, n - 1);
      assert IsStep(reserve, r, n - 1);
      StepKeeps(reserve, r.states[n - 1], r.steps[n - 1]);
    }
  }

  function SidecarPods(pods: map<string, PodInfo>, on: set<string>): set<string> {
    set k | k in pods && PodBound(pods[k]) && pods[k].node in on && pods[k].sidecar
  }

  lemma SidecarPodsStep(pods: map<string, PodInfo>, on: set<string>, k: string)
    requires k in pods
    ensures SidecarPods(pods, on) ==
            if k in SidecarPods(pods, on) then SidecarPods(pods - {k}, on) + {k} else SidecarPods(pods - {k}, on)
    ensures k !in SidecarPods(pods - {k}, on)
  {
  }

  lemma SideShare(pods: map<string, PodInfo>, on: set<string>, k: string)
    requires k in pods && PodRight(pods[k])
    ensures Share(pods[k], on, Side) <= if k in SidecarPods(pods, on) then 1 else 0
  {
  }

  /** The running sidecars come to at most one core each. */
  lemma {:induction false} SideAtMostCount(pods: map<string, PodInfo>, on: set<string>)
    requires forall k :: k in pods ==> PodRight(pods[k])
    ensures Total(pods, on, Side) <= |SidecarPods(pods, on)|
    decreases |pods|
  {
    if pods == map[] {
      EmptyTotals(on);
    } else {
      var k :| k in pods;
      SideAtMostCount(pods - {k}, on);
      TotalRemove(pods, on, k, Side);
      SideShare(pods, on, k);
      SidecarPodsStep(pods, on, k);
    }
  }

  /**
   * In every run from an empty cluster, what is promised and the running cores that cannot
   * be preempted together stay within the budget, but for one core per running sidecar.
   */
  lemma PromisesFit(reserve: int, r: Run, n: nat)
    requires IsRun(reserve, r) && n < |r.states|
    ensures var c := r.states[n].c;
            PromisedOf(c) + T(c, Kept) <= BudgetOf(r.states[0].c.nodes, reserve) + |SidecarPods(c.pods, SchedulableNames(c.nodes))|
  {
    RunKeeps(reserve, r, n);
    PromisedBaseWithin(r.states[n].c);
    SideAtMostCount(r.states[n].c.pods, SchedulableNames(r.states[n].c.nodes));
  }
}
