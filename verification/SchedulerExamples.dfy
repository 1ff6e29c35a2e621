/**
 * Two runs from an empty cluster in which Fluxion's ids and the memo come apart, each
 * meeting every environment condition but one, and one that meets all of them and leaves
 * ids to a group that nobody owns. The steps are all possible ones.
 */
module SchedulerExamples {
  import opened Options
  import opened JobIds
  import opened Sorting
  import opened Constraints
  import opened Placement
  import opened SchedulerModel
  import opened SchedulerRuns
  import opened Runs

  /** One physical node, no device types known. */
  const CFG := Config(None, {"n"})
  const NODE := Vertex("n", [VIRTUAL_FALSE])

  /** A pod of one container that asks for nothing but a place to run. */
  const PLAIN := Pod([map[]], map[])

  function Fits(id: JobId): seq<Answer> {
    [Allocated(id, Some([NODE]))]
  }

  function Given(id: JobId): GroupAlloc {
    GroupAlloc(NOWHERE.(nodes := ["n"]), [id])
  }

  lemma PlainNeeds(t: string)
    ensures ContainersNeed(PLAIN.containers, t) == 0
  {
    var cs := PLAIN.containers;
    assert cs[..|cs| - 1] == [] && ContainerNeed(cs[|cs| - 1], t) == 0;
  }

  lemma PlainSpecs(name: string)
    ensures Jobspecs(name, [PLAIN], None, []).Specs? && |Jobspecs(name, [PLAIN], None, []).specs| == 1
    ensures Satisfies(NODE, Jobspecs(name, [PLAIN], None, []).specs[0].constraints)
  {
    assert DeviceTypes([PLAIN]) == {} by {
      forall t | Need(PLAIN, t) > 0 ensures t == "core" {
        PlainNeeds(t);
      }
    }
    JobspecsIff(name, [PLAIN], None, []);
    JobspecsByType(name, [PLAIN], None, []);
    ComputeSelects(name, [PLAIN], None, [], NODE);
  }

  lemma PlainPlacement()
    ensures Classified([NODE]) == NOWHERE.(nodes := ["n"])
  {
    assert VIRTUAL_TRUE[|"virtual="|] == 't' && VIRTUAL_FALSE[|"virtual="|] == 'f';
    assert [NODE][..0] == [] && Classified([]) == NOWHERE;
    assert NOWHERE.nodes + ["n"] == ["n"];
  }

  lemma MatchOne(id: JobId)
    ensures SchedulerModel.MatchGroup(1, Fits(id)) == Matched(Given(id))
    ensures MatchIssued(1, Fits(id)) == {id} && IdSet([id]) == {id}
  {
    assert FirstFailure(Fits(id), 0) == 0 && FirstFailure(Fits(id), 1) == 1;
    PlainPlacement();
    assert Combined(Fits(id), 0) == NOWHERE && At(Fits(id), 0).allocation == Some([NODE]);
    assert Combined(Fits(id), 1).nodes == ["n"] && Combined(Fits(id), 1) == Given(id).place;
    assert JobidsOf(Fits(id), 1) == [id];
    assert Issued(Fits(id), 1) == {id} by {
      assert At(Fits(id), 0).id == id;
    }
  }

  /** Matching a plain pod's group, with the pod the only one listed. */
  lemma MatchPlain(w: World, k: Key, id: JobId)
    requires k in w.pods && !w.pods[k].terminal && !w.pods[k].gated && w.pods[k].spec == PLAIN
    requires GroupKey(k, w.pods[k]) !in w.memo && ExcludedFor(w.excluded, GroupKey(k, w.pods[k])) == {}
    requires id !in w.used && id <= MAX_UINT64
    ensures Possible(CFG, w, RunPreFilter(k, [k], Fits(id)))
    ensures PreFilter(CFG, w, k, [k], Fits(id)) ==
            w.(used := w.used + {id}, held := w.held + {id}, memo := w.memo[GroupKey(k, w.pods[k]) := Given(id)])
  {
    var g := GroupKey(k, w.pods[k]);
    assert [k][..0] == [] && GroupMembers(w.pods, [], g) == [];
    assert GroupPods(w.pods, [k], k, w.pods[k]) == [PLAIN];
    assert Sorted({}) == [];
    PlainSpecs(g.ns + "/" + g.name);
    MatchOne(id);
  }

  /** A possible step, and where it leads. */
  ghost predicate Goes(w: World, s: Step, w': World) {
    Possible(CFG, w, s) && Next(CFG, w, s) == w'
  }

  /** A run of possible steps, which may break the environment conditions. */
  ghost const SYSTEM: System<World, Step> := System(w => w == START, (w, s, w') => Goes(w, s, w'), (w, s) => Assumed(w, s))

  const EMPTY: Run := Trace([START], [])

  lemma AtStart(but: nat)
    ensures RunsBut(SYSTEM, EMPTY, but) && Last(EMPTY) == START
  {
  }

  const ONE := Given(1)
  const TWO := Given(2)

  // ---- a forged annotation ----

  const A := Key("ns", "a")
  const B := Key("ns", "b")
  const POD_A := PodObj("", "", false, false, "", PLAIN)

  /** A pod whose annotation names the id another pod holds. */
  function Forged(): PodObj {
    PodObj("", "", false, false, Format([1]), PLAIN)
  }

  function ForgedGone(): Event {
    PodGone(B, "", Format([1]))
  }

  const F1 := START.(pods := map[A := POD_A])
  const F2 := World(map[A := ONE], map[], {1}, {1}, map[], map[A := POD_A], multiset{})

  function F3(): World {
    F2.(pods := map[A := POD_A, B := Forged()])
  }

  function F4(): World {
    F2.(events := multiset{ForgedGone()})
  }

  const F5 := F2.(held := {})

  lemma ForgedMatch()
    ensures Goes(F1, RunPreFilter(A, [A], Fits(1)), F2)
  {
    MatchPlain(F1, A, 1);
  }

  lemma ForgedArrives()
    ensures Goes(F2, CreatePod(B, Forged()), F3()) && Goes(F3(), DeletePod(B), F4())
  {
    assert F2.pods[B := Forged()] == F3().pods;
    assert F3().pods - {B} == F2.pods;
  }

  lemma ForgedFrees()
    ensures Goes(F4(), Deliver(ForgedGone(), false), F5)
  {
    ParseFormat([1]);
    MatchOne(1);
    assert F4().events - multiset{ForgedGone()} == multiset{};
    assert {1} - IdSet([1]) == {} && map[A := ONE] - {B} == map[A := ONE];
  }

  /**
   * Pod a is matched and holds id 1. Pod b arrives with an annotation naming id 1 and is
   * deleted. Fluxion then holds nothing, while the memo still gives a the id.
   */
  lemma ForgedAnnotationRun() returns (r: Run)
    ensures RunsBut(SYSTEM, r, 2) && |r.steps| == 5 && r.steps[2] == CreatePod(B, Forged())
    ensures Last(r).held == {} && Last(r).memo == map[A := ONE] && !Exact(Last(r))
  {
    AtStart(2);
    FirstPodFree();
    r := Onward(SYSTEM, EMPTY, 2, 0, CreatePod(A, POD_A), F1);
    ForgedMatch();
    r := Onward(SYSTEM, r, 2, 1, RunPreFilter(A, [A], Fits(1)), F2);
    ForgedArrives();
    r := Onward(SYSTEM, r, 2, 2, CreatePod(B, Forged()), F3());
    r := Onward(SYSTEM, r, 2, 3, DeletePod(B), F4());
    ForgedFrees();
    r := Onward(SYSTEM, r, 2, 4, Deliver(ForgedGone(), false), F5);
    assert 1 in MemoIds(F5.memo) by {
      assert 1 in F5.memo[A].jobids;
    }
  }

  lemma FirstPodFree()
    ensures Goes(START, CreatePod(A, POD_A), F1) && Assumed(START, CreatePod(A, POD_A))
  {
    assert Parse("").None?;
  }

  // ---- a retry after recording ----

  const G := Key("ns", "g")
  const MEMBER := PodObj("g", "", false, false, "", PLAIN)

  /** The group with id 1 recorded, and the event of its loss. */
  function Recorded1(): PodGroup {
    PodGroup(true, Format([1]))
  }

  function Gone1(): Event {
    GroupGone(G, Format([1]))
  }

  const R1 := START.(groups := map[G := PodGroup(true, "")])
  const R2 := R1.(pods := map[A := MEMBER])
  const R3 := R2.(memo := map[G := ONE], held := {1}, used := {1})

  function R4(): World {
    R3.(groups := map[G := Recorded1()])
  }

  function R5(): World {
    R4().(memo := map[], held := {}, excluded := map[G := {}])
  }

  function R6(): World {
    R5().(memo := map[G := TWO], held := {2}, used := {1, 2})
  }

  function R7(): World {
    R6().(groups := map[], events := multiset{Gone1()})
  }

  function R8(): World {
    R6().(memo := map[], excluded := map[], groups := map[])
  }

  lemma GroupArrives()
    ensures Goes(START, CreateGroup(G, true, ""), R1) && Assumed(START, CreateGroup(G, true, ""))
    ensures Goes(R1, CreatePod(A, MEMBER), R2) && Assumed(R1, CreatePod(A, MEMBER))
  {
    assert Parse("").None?;
    assert !PodName(R1, G);
  }

  lemma GroupMatched()
    ensures Goes(R2, RunPreFilter(A, [A], Fits(1)), R3)
  {
    MatchPlain(R2, A, 1);
  }

  lemma GroupRecorded()
    ensures Goes(R3, RunPreBind(A), R4())
  {
    assert R3.groups[G := Recorded1()] == R4().groups;
  }

  lemma GroupAbandoned()
    ensures Goes(R4(), RunPostFilter(A, map[]), R5())
  {
    MatchOne(1);
    assert NewlyExcluded(ONE, map[]) == {};
    assert map[G := ONE] - {G} == map[];
    assert R4().memo - {G} == R5().memo && R4().held - IdSet([1]) == {};
    assert ExcludedFor(R4().excluded, G) + NewlyExcluded(ONE, map[]) == {};
    assert R4().excluded[G := {}] == R5().excluded;
  }

  lemma GroupRematched()
    ensures Goes(R5(), RunPreFilter(A, [A], Fits(2)), R6())
  {
    MatchPlain(R5(), A, 2);
    assert {1} + {2} == {1, 2};
  }

  lemma GroupDeleted()
    ensures Goes(R6(), DeletePodGroup(G), R7())
  {
    assert map[G := Recorded1()] - {G} == map[];
    assert multiset{} + multiset{Gone1()} == multiset{Gone1()};
  }

  lemma GroupTornDown()
    ensures Goes(R7(), Deliver(Gone1(), false), R8())
  {
    ParseFormat([1]);
    assert IdSet([1]) == {1};
    assert multiset{Gone1()} - multiset{Gone1()} == multiset{};
    assert {2} - {1} == {2} && map[G := TWO] - {G} == map[];
    assert R7().excluded - {G} == map[];
  }

  /** The run up to the record. */
  lemma RecordedRun() returns (r: Run)
    ensures RunsBut(SYSTEM, r, 4) && |r.steps| == 4 && Last(r) == R4()
  {
    AtStart(4);
    GroupArrives();
    r := Onward(SYSTEM, EMPTY, 4, 0, CreateGroup(G, true, ""), R1);
    r := Onward(SYSTEM, r, 4, 1, CreatePod(A, MEMBER), R2);
    GroupMatched();
    r := Onward(SYSTEM, r, 4, 2, RunPreFilter(A, [A], Fits(1)), R3);
    GroupRecorded();
    r := Onward(SYSTEM, r, 4, 3, RunPreBind(A), R4());
  }

  /**
   * The recorded group goes through PostFilter, is matched again, and its PodGroup is
   * deleted before PreBind. Teardown follows the old annotation: id 2 stays held by
   * Fluxion and is in nobody's memo.
   */
  lemma RetryAfterRecordRun() returns (r: Run)
    ensures RunsBut(SYSTEM, r, 4) && |r.steps| == 8 && r.steps[4] == RunPostFilter(A, map[])
    ensures Last(r).held == {2} && Last(r).memo == map[] && !Exact(Last(r))
  {
    r := RecordedRun();
    GroupAbandoned();
    r := Onward(SYSTEM, r, 4, 4, RunPostFilter(A, map[]), R5());
    GroupRematched();
    r := Onward(SYSTEM, r, 4, 5, RunPreFilter(A, [A], Fits(2)), R6());
    GroupDeleted();
    r := Onward(SYSTEM, r, 4, 6, DeletePodGroup(G), R7());
    GroupTornDown();
    r := Onward(SYSTEM, r, 4, 7, Deliver(Gone1(), false), R8());
    assert MemoIds(map[]) == {};
  }

  // ---- a match for a group that is gone ----

  const U2 := START.(pods := map[A := MEMBER])

  function U1(): World {
    U2.(events := multiset{GroupGone(G, "")})
  }

  const U3 := U2.(memo := map[G := ONE], held := {1}, used := {1})
  const U5 := U3.(pods := map[])

  function U4(): World {
    U5.(events := multiset{PodGone(A, "g", "")})
  }

  lemma GroupLost()
    ensures Goes(R2, DeletePodGroup(G), U1()) && Goes(U1(), Deliver(GroupGone(G, ""), false), U2)
  {
    assert Parse("").None?;
    assert multiset{} + multiset{GroupGone(G, "")} == multiset{GroupGone(G, "")};
    assert multiset{GroupGone(G, "")} - multiset{GroupGone(G, "")} == multiset{};
    assert map[G := PodGroup(true, "")] - {G} == map[];
  }

  lemma UnownedMatched()
    ensures Goes(U2, RunPreFilter(A, [A], Fits(1)), U3) && MatchesUnowned(CFG, U2, RunPreFilter(A, [A], Fits(1)))
  {
    MatchPlain(U2, A, 1);
  }

  lemma LastMemberLost()
    ensures Goes(U3, DeletePod(A), U4()) && Goes(U4(), Deliver(PodGone(A, "g", ""), false), U5)
  {
    assert map[A := MEMBER] - {A} == map[];
    assert multiset{} + multiset{PodGone(A, "g", "")} == multiset{PodGone(A, "g", "")};
    assert multiset{PodGone(A, "g", "")} - multiset{PodGone(A, "g", "")} == multiset{};
  }

  /** The run up to the teardown of the group, with its pod still there. */
  lemma GroupLostRun() returns (r: Run)
    ensures RunsBut(SYSTEM, r, 7) && |r.steps| == 4 && Last(r) == U2
  {
    AtStart(7);
    GroupArrives();
    r := Onward(SYSTEM, EMPTY, 7, 0, CreateGroup(G, true, ""), R1);
    r := Onward(SYSTEM, r, 7, 1, CreatePod(A, MEMBER), R2);
    GroupLost();
    r := Onward(SYSTEM, r, 7, 2, DeletePodGroup(G), U1());
    r := Onward(SYSTEM, r, 7, 3, Deliver(GroupGone(G, ""), false), U2);
  }

  lemma NoneExempt(r: Run)
    requires RunsBut(SYSTEM, r, |r.steps|)
    ensures IsRun(CFG, r) && r.states[0] == START
  {
    forall i | 0 <= i < |r.steps| ensures IsStep(CFG, r, i) {
      assert Goes(r.states[i], r.steps[i], r.states[i + 1]) && Assumed(r.states[i], r.steps[i]);
    }
  }

  /**
   * A PodGroup is deleted and torn down while a member is live, the member is matched for
   * it and deleted in turn. Every condition is met, and Fluxion holds id 1 for a group
   * that no object names and no event will free.
   */
  lemma UnownedMatchRun() returns (r: Run)
    ensures IsRun(CFG, r) && r.states[0] == START && |r.steps| == 7
    ensures !Tended(CFG, r, 7)
    ensures Last(r).held == {1} && G in Last(r).memo && Abandoned(Last(r), G)
  {
    r := GroupLostRun();
    UnownedMatched();
    r := Onward(SYSTEM, r, 7, 4, RunPreFilter(A, [A], Fits(1)), U3);
    LastMemberLost();
    r := Onward(SYSTEM, r, 7, 5, DeletePod(A), U4());
    r := Onward(SYSTEM, r, 7, 6, Deliver(PodGone(A, "g", ""), false), U5);
    NoneExempt(r);
    OwnedRunIff(CFG, r, 7);
    assert !Owned(r.states[7], G);
  }
}
