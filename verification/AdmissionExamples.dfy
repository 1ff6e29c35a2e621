/**
 * Runs from an empty cluster in which promises outgrow the budget, each meeting every
 * environment condition but one.
 */
module AdmissionExamples {
  import opened Options
  import opened Text
  import opened Sums
  import opened Admission
  import opened AdmissionRuns
  import opened Runs

  /** A possible step, and where it leads. */
  ghost predicate Goes(reserve: int, s: State, step: Step, s': State) {
    Possible(reserve, s.c, step) && Next(s, step) == s'
  }

  ghost function SystemOf(reserve: int): System<State, Step> {
    System(s => Starts(s), (s, step, s') => Goes(reserve, s, step, s'), (s, step) => Assumed(reserve, s, step))
  }

  // ---- a record that was never admitted ----

  /** What breaks the bound that every run keeps. */
  ghost predicate Overpromised(reserve: int, s: State) {
    PromisedOf(s.c) + T(s.c, Kept) > BudgetOf(s.c.nodes, reserve) + |SidecarPods(s.c.pods, SchedulableNames(s.c.nodes))|
  }

  lemma OneRecord(records: map<string, nat>, pods: map<string, PodInfo>, on: set<string>, k: string, v: nat)
    requires records == map[k := v] && Total(pods, on, Of(k)) == 0
    ensures Sum(Lefts(records, pods, on, false)) == v
  {
    var lefts := Lefts(records, pods, on, false);
    SumTake(lefts, k);
    assert lefts - {k} == map[];
  }

  /** One container that asks for nothing, and so takes the one core every pod does. */
  const BARE: seq<Jobs.Requests> := [map[]]

  /** A plain preemptible pod that asks for nothing but carries a record. */
  function Forger(n: nat): PodInfo {
    PodInfo("", Pending, None, BARE, false, 1, 0, "", "", Dec(n))
  }

  /** One submission with an admitted-cores annotation above the budget, on any nodes, overpromises it. */
  lemma ForgedRecordRun(reserve: int, nodes: seq<Node>, k: string, n: nat) returns (r: Run)
    requires BudgetOf(nodes, reserve) < n <= MAX_INT64 && k != ""
    ensures RunsBut(SystemOf(reserve), r, 0) && r.steps == [AddPlain(k, Forger(n))] && Overpromised(reserve, Last(r))
  {
    var none: map<string, PodInfo> := map[];
    var s0 := State(Cluster(nodes, map[], none), map[]);
    var s1 := s0.(c := s0.c.(pods := none[k := Forger(n)]));
    var on := SchedulableNames(nodes);
    r := Trace([s0, s1], [AddPlain(k, Forger(n))]);
    RecordOfDec(n);
    EmptyTotals(on);
    TotalAdd(none, on, k, Forger(n), Of(k));
    assert Records(s1.c) == map[k := n];
    OneRecord(Records(s1.c), s1.c.pods, on, k, n);
  }

  /** So does one PodGroup that comes with such an annotation, whose members then pass unchecked. */
  lemma ForgedGroupRun(reserve: int, nodes: seq<Node>, k: string, gang: Terms, n: nat) returns (r: Run)
    requires BudgetOf(nodes, reserve) < n <= MAX_INT64 && k != ""
    ensures RunsBut(SystemOf(reserve), r, 0) && r.steps == [AddGroup(k, Dec(n), gang)] && Overpromised(reserve, Last(r))
  {
    var s0 := State(Cluster(nodes, map[], map[]), map[]);
    RecordOfDec(n);
    var s1 := Next(s0, AddGroup(k, Dec(n), gang));
    var on := SchedulableNames(nodes);
    r := Trace([s0, s1], [AddGroup(k, Dec(n), gang)]);
    EmptyTotals(on);
    assert s1.c.groups == map[k := Dec(n)] && s1.c.pods == map[];
    assert Records(s1.c) == map[k := n];
    assert Total(s1.c.pods, on, Of(k)) == Total(map[], on, Of(k));
    OneRecord(Records(s1.c), s1.c.pods, on, k, n);
  }

  // ---- a gang with more pods than its size ----

  const NODES := [Node("n", false, [], 3000)]
  const GANG := Terms(2, 1)

  /** A stamped pod of one core that belongs to the record. */
  function Quantum(record: string, admitted: string): PodInfo {
    PodInfo("", Pending, None, BARE, false, 1, 0, "quantum", record, admitted)
  }

  function Member(): PodInfo {
    Quantum("g", "")
  }

  function Alone(): PodInfo {
    Quantum("s", Dec(1))
  }

  lemma NodesCount()
    ensures SchedulableNames(NODES) == {"n"} && BudgetOf(NODES, 0) == 3
  {
    assert NODES[..0] == [] && NodeSchedulable(NODES[0]) && NODES[0].name == "n";
  }

  lemma QuantumMeasured(record: string, admitted: string)
    ensures Measured(Quantum(record, admitted)) && !CanBePreempted(Quantum(record, admitted))
  {
  }

  /** The sums that matter in the run, with so many cores bound, all of the gang's. */
  ghost predicate Counts(pods: map<string, PodInfo>, bound: nat) {
    var on := {"n"};
    && Total(pods, on, Kept) == bound && Total(pods, on, Of("g")) == bound
    && Total(pods, on, Of("s")) == 0
  }

  lemma NothingCounts()
    ensures Counts(map[], 0)
  {
    EmptyTotals({"n"});
  }

  lemma AddCounts(pods: map<string, PodInfo>, k: string, p: PodInfo, bound: nat)
    requires Counts(pods, bound) && k !in pods && Unbound(p)
    ensures Counts(pods[k := p], bound)
  {
    UnboundAdds(pods, {"n"}, k, p);
  }

  /** The member once it runs. */
  function Running(): PodInfo {
    Member().(node := "n")
  }

  lemma MemberShares()
    ensures forall part :: Share(Member(), {"n"}, part) == 0
    ensures Share(Running(), {"n"}, Kept) == 1
    ensures Share(Running(), {"n"}, Of("g")) == 1 && Share(Running(), {"n"}, Of("s")) == 0
  {
  }

  lemma BindCounts(pods: map<string, PodInfo>, k: string, bound: nat)
    requires Counts(pods, bound) && k in pods && pods[k] == Member()
    ensures Counts(pods[k := Running()], bound + 1)
  {
    MemberShares();
    TotalSet(pods, {"n"}, k, Running(), Kept);
    TotalSet(pods, {"n"}, k, Running(), Of("g"));
    TotalSet(pods, {"n"}, k, Running(), Of("s"));
  }

  const S0 := State(Cluster(NODES, map[], map[]), map[])

  function S1(): State {
    State(Cluster(NODES, map["g" := Dec(2)], map[]), map["g" := GANG])
  }

  function S2(): State {
    State(Cluster(NODES, map["g" := Dec(2)], map["s" := Alone()]), map["g" := GANG, "s" := Terms(1, 1)])
  }

  function WithPods(pods: map<string, PodInfo>): State {
    S2().(c := S2().c.(pods := pods))
  }

  const FULL: nat := 3

  lemma StartReads()
    ensures Reads(S0.c, 0, Admission.Capacity(FULL, 0, FULL, 0, 0))
  {
    NodesCount();
    EmptyTotals(SchedulableNames(NODES));
    SumZero(Lefts(Records(S0.c), S0.c.pods, SchedulableNames(NODES), false));
  }

  lemma GangReads()
    ensures Records(S1().c) == map["g" := 2]
    ensures Reads(S1().c, 0, Admission.Capacity(FULL, 0, FULL, 0, 2))
  {
    NodesCount();
    RecordOfDec(2);
    EmptyTotals(SchedulableNames(NODES));
    assert Records(S1().c) == map["g" := 2];
    OneRecord(Records(S1().c), S1().c.pods, SchedulableNames(NODES), "g", 2);
  }

  lemma GangAdmitted()
    ensures var step := AdmitGang("g", GANG, Admission.Capacity(FULL, 0, FULL, 0, 0));
            Goes(0, S0, step, S1()) && Assumed(0, S0, step)
  {
    StartReads();
    assert S0.c.groups["g" := Dec(2)] == S1().c.groups;
    assert Cores(GANG) == 2;
  }

  lemma AloneAdmitted()
    ensures var step := AdmitAlone("s", Alone(), Admission.Capacity(FULL, 0, FULL, 0, 2));
            Goes(0, S1(), step, S2()) && Assumed(0, S1(), step)
  {
    GangReads();
    QuantumMeasured("s", Dec(1));
    assert S1().terms["s" := Terms(1, 1)] == S2().terms;
    assert S1().c.pods["s" := Alone()] == S2().c.pods;
  }

  /** A member arrives; the gang's size allows it while fewer than two are there. */
  lemma MemberArrives(pods: map<string, PodInfo>, k: string)
    requires k !in pods && k != "g" && k != ""
    ensures Goes(0, WithPods(pods), AddMember(k, Member()), WithPods(pods[k := Member()]))
    ensures |Members(WithPods(pods).c, "g")| < 2 ==> Assumed(0, WithPods(pods), AddMember(k, Member()))
    ensures Members(WithPods(pods[k := Member()]).c, "g") == Members(WithPods(pods).c, "g") + {k}
  {
    QuantumMeasured("g", "");
    NoRecord();
    Joins(WithPods(pods).c, k, Member(), "g");
  }

  lemma MemberBinds(pods: map<string, PodInfo>, k: string, bound: nat)
    requires k in pods && pods[k] == Member() && Counts(pods, bound) && bound < 3
    ensures Goes(0, WithPods(pods), Bind(k, "n"), WithPods(pods[k := Running()]))
    ensures Assumed(0, WithPods(pods), Bind(k, "n"))
  {
    NodesCount();
  }

  /** The pods in the run: the lone one, and members that wait or run, so many of them running. */
  ghost predicate Stage(pods: map<string, PodInfo>, bound: nat) {
    && Counts(pods, bound) && "g" !in pods && "s" in pods && pods["s"] == Alone()
    && forall k :: k in pods && k != "s" ==> pods[k] == Member() || pods[k] == Running()
  }

  lemma AloneStage()
    ensures Stage(S2().c.pods, 0) && Members(S2().c, "g") == {}
  {
    NothingCounts();
    AddCounts(map[], "s", Alone(), 0);
    assert map[]["s" := Alone()] == S2().c.pods;
  }

  /** The gang of two and the lone pod are admitted. */
  lemma TwoAdmittedRun() returns (r: Run)
    ensures RunsBut(SystemOf(0), r, 4) && |r.steps| == 2 && Last(r) == WithPods(S2().c.pods)
  {
    var gang := AdmitGang("g", GANG, Admission.Capacity(FULL, 0, FULL, 0, 0));
    var alone := AdmitAlone("s", Alone(), Admission.Capacity(FULL, 0, FULL, 0, 2));
    r := Trace([S0], []);
    GangAdmitted();
    r := Onward(SystemOf(0), r, 4, 0, gang, S1());
    AloneAdmitted();
    r := Onward(SystemOf(0), r, 4, 1, alone, S2());
  }

  /** One member more. */
  lemma ArriveRun(r: Run, n: nat, pods: map<string, PodInfo>, k: string) returns (r': Run)
    requires RunsBut(SystemOf(0), r, 4) && |r.steps| == n && Last(r) == WithPods(pods) && Stage(pods, 0)
    requires k !in pods && k != "g" && k != "" && (n != 4 ==> |Members(WithPods(pods).c, "g")| < 2)
    ensures RunsBut(SystemOf(0), r', 4) && |r'.steps| == n + 1 && Last(r') == WithPods(pods[k := Member()]) && Stage(pods[k := Member()], 0)
    ensures Members(WithPods(pods[k := Member()]).c, "g") == Members(WithPods(pods).c, "g") + {k}
    ensures n == 4 ==> r'.steps[4] == AddMember(k, Member())
  {
    MemberArrives(pods, k);
    AddCounts(pods, k, Member(), 0);
    r' := Onward(SystemOf(0), r, 4, n, AddMember(k, Member()), WithPods(pods[k := Member()]));
  }

  lemma BindStage(pods: map<string, PodInfo>, k: string, bound: nat)
    requires Stage(pods, bound) && k in pods && k != "s" && pods[k] == Member()
    ensures Stage(pods[k := Running()], bound + 1)
  {
    BindCounts(pods, k, bound);
  }

  /** One member starts. */
  lemma BindRun(r: Run, n: nat, pods: map<string, PodInfo>, k: string, bound: nat) returns (r': Run)
    requires RunsBut(SystemOf(0), r, 4) && |r.steps| == n > 4 && Last(r) == WithPods(pods) && Stage(pods, bound)
    requires k in pods && k != "s" && pods[k] == Member() && bound < 3
    ensures RunsBut(SystemOf(0), r', 4) && |r'.steps| == n + 1 && r'.steps[4] == r.steps[4]
    ensures Last(r') == WithPods(pods[k := Running()]) && Stage(pods[k := Running()], bound + 1)
  {
    MemberBinds(pods, k, bound);
    BindStage(pods, k, bound);
    r' := Onward(SystemOf(0), r, 4, n, Bind(k, "n"), WithPods(pods[k := Running()]));
  }

  lemma GroupRecordOfStage()
    ensures GroupRecords(map["g" := Dec(2)]) == map["g" := 2]
  {
    RecordOfDec(2);
  }

  lemma PodRecordOfStage(pods: map<string, PodInfo>, bound: nat)
    requires Stage(pods, bound)
    ensures PodRecords(pods) == map["s" := 1]
  {
    RecordOfDec(1);
    NoRecord();
    assert forall k :: k in pods && k != "s" ==> pods[k].admitted == "";
  }

  lemma RecordsOfStage(pods: map<string, PodInfo>, bound: nat)
    requires Stage(pods, bound)
    ensures Records(WithPods(pods).c) == map["g" := 2, "s" := 1]
  {
    GroupRecordOfStage();
    PodRecordOfStage(pods, bound);
  }

  lemma TwoRecords(records: map<string, nat>, pods: map<string, PodInfo>)
    requires records == map["g" := 2, "s" := 1] && Counts(pods, 3)
    ensures Sum(Lefts(records, pods, {"n"}, false)) == 1
  {
    var lefts := Lefts(records, pods, {"n"}, false);
    SumTake(lefts, "s");
    SumZero(lefts - {"s"});
  }

  /** What is promised once three run: the lone pod's core, though none is left. */
  lemma ThreeRunning(pods: map<string, PodInfo>)
    requires Stage(pods, 3)
    ensures Overpromised(0, WithPods(pods))
  {
    NodesCount();
    RecordsOfStage(pods, 3);
    TwoRecords(Records(WithPods(pods).c), pods);
    NoSidecars(pods, 3);
  }

  lemma NoSidecars(pods: map<string, PodInfo>, bound: nat)
    requires Stage(pods, bound)
    ensures SidecarPods(pods, {"n"}) == {}
  {
    assert forall k :: k in pods ==> !pods[k].sidecar;
  }

  /** Three members arrive one after another; the third comes against the conditions. */
  lemma ThreeMembersRun(x: string, y: string, z: string) returns (r: Run, pods: map<string, PodInfo>)
    requires |{x, y, z}| == 3 && {x, y, z} !! {"", "s", "g"} && x != y && y != z && x != z
    ensures RunsBut(SystemOf(0), r, 4) && |r.steps| == 5 && r.steps[4] == AddMember(z, Member())
    ensures Last(r) == WithPods(pods) && Stage(pods, 0)
    ensures x in pods && y in pods && z in pods && pods[x] == pods[y] == pods[z] == Member()
  {
    AloneStage();
    r := TwoAdmittedRun();
    pods := S2().c.pods;
    r := ArriveRun(r, 2, pods, x);
    pods := pods[x := Member()];
    assert Members(WithPods(pods).c, "g") == {x};
    r := ArriveRun(r, 3, pods, y);
    pods := pods[y := Member()];
    r := ArriveRun(r, 4, pods, z);
    pods := pods[z := Member()];
  }

  /**
   * A gang admitted for two one-core pods has three, beside a lone pod admitted for one
   * core, on three cores. All steps but the third member's arrival meet the conditions.
   * Once the three run, all cores are kept and one is still promised.
   */
  lemma OversizedGangRun(x: string, y: string, z: string) returns (r: Run)
    requires |{x, y, z}| == 3 && {x, y, z} !! {"", "s", "g"} && x != y && y != z && x != z
    ensures RunsBut(SystemOf(0), r, 4) && |r.steps| == 8 && r.steps[4] == AddMember(z, Member()) && Overpromised(0, Last(r))
  {
    var pods;
    r, pods := ThreeMembersRun(x, y, z);
    r := BindRun(r, 5, pods, x, 0);
    pods := pods[x := Running()];
    r := BindRun(r, 6, pods, y, 1);
    pods := pods[y := Running()];
    r := BindRun(r, 7, pods, z, 2);
    pods := pods[z := Running()];
    ThreeRunning(pods);
  }
}
