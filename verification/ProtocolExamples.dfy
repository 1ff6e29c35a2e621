/**
 * Runs in which a scout that published a task lets its session go under a live worker,
 * each because of one step: a hold that timed out, or a sidecar restarted too late.
 */
module ProtocolExamples {
  import opened Vocabulary
  import opened Options
  import opened Poll
  import opened Handoff
  import opened Protocol
  import opened Runs

  const CFG := Config(false, false, map[])
  const TASK := TaskRecord("j", None)

  predicate Goes(w: World, s: Step, w': World) {
    Possible(CFG, w, s) && Next(CFG, w, s) == w'
  }

  /** The conditions are that a step is calm and no timed-out hold of the scout's. */
  ghost const SYSTEM: System<World, Step> :=
    System(w => w == START, (w, s, w') => Goes(w, s, w'), (w, s) => Calm(w, s) && !s.HoldTimesOut?)

  /** The step that lets the session go, taken while a worker that was let go is running. */
  predicate LetsGoEarly(w: World, s: Step) {
    Possible(CFG, w, s) && LetsGo(w, s) && w.published != "" && !NoneLive(w.workers)
  }

  const GATED := Worker([QUANTUM_GATE], map[], false)

  function Noted(): map<string, string> {
    NotesFor(CFG, Some(TASK))
  }

  function Stamped(): Worker {
    GATED.(notes := map[] + Noted())
  }

  function Freed(): Worker {
    Stamped().(gates := [])
  }

  // ---- up to a live worker ----

  /** The task is on the volume, in the state given. */
  function At(scout: Scout, sidecar: Sidecar, status: Status, workers: Workers): World {
    World(Files(Some(TASK), false, false), "j", None, scout, sidecar, map["j" := status], workers)
  }

  const A1 := At(Computing, Finding(false), Queued, map[])
  const A2 := At(Computing, Polling(TASK), Queued, map[])
  const A3 := At(Computing, Polling(TASK), Running, map[])
  const A4 := At(Computing, Polling(TASK), Running, map["w" := GATED])
  const A5 := At(Holding, Polling(TASK), Running, map["w" := GATED])
  const A6 := At(Holding, Listing(Some(TASK)), Running, map["w" := GATED])
  const A7 := At(Holding, Ungating(Some(TASK), ["w"], false), Running, map["w" := GATED])

  function A8(): World {
    At(Holding, Ungating(Some(TASK), ["w"], true), Running, map["w" := Stamped()])
  }

  /** From here on the worker is live. */
  function Let(sidecar: Sidecar): World {
    At(Holding, sidecar, Running, map["w" := Freed()])
  }

  function A9(): World {
    Let(Ungating(Some(TASK), [], false))
  }

  function A10(): World {
    Let(Waiting)
  }

  lemma TaskPublished()
    ensures Goes(START, StartTask("j", true), A1) && Goes(A1, LooksForRecord, A2)
  {
  }

  lemma TaskRunning()
    ensures Goes(A2, VendorMoves("j", Running), A3)
    ensures Goes(A3, WorkerArrives("w", [QUANTUM_GATE]), A4) && Goes(A4, Release, A5)
  {
    assert map["j" := Queued]["j" := Running] == map["j" := Running];
  }

  lemma WorkerListed()
    ensures Goes(A5, SeesReady, A6) && Goes(A6, Lists(["w"]), A7)
  {
    assert Gated(A6.workers, "w");
  }

  lemma WorkerStamped(files: Files)
    ensures Goes(A7.(files := files), Annotates(true), A8().(files := files))
  {
    assert A7.workers["w" := Stamped()] == A8().workers;
  }

  lemma WorkerPatched(files: Files)
    ensures Goes(A8().(files := files), Patches(true), A9().(files := files))
  {
    assert ["w"][1..] == [] && [QUANTUM_GATE][1..] == [];
    assert A8().workers["w" := Freed()] == A9().workers;
  }

  lemma WorkerLive()
    ensures "w" in A9().workers && Live(A9().workers["w"]) && !NoneLive(A9().workers) && A10().workers == A9().workers
  {
  }

  lemma UngatingEnds()
    ensures Goes(A9(), StartsWaiting, A10())
  {
  }

  lemma PublishedRun(but: nat) returns (r: Run)
    requires but >= 2
    ensures RunsBut(SYSTEM, r, but) && |r.steps| == 2 && Last(r) == A2
  {
    TaskPublished();
    r := Trace([START], []);
    r := Onward(SYSTEM, r, but, 0, StartTask("j", true), A1);
    r := Onward(SYSTEM, r, but, 1, LooksForRecord, A2);
  }

  lemma HoldingRun(but: nat) returns (r: Run)
    requires but >= 10
    ensures RunsBut(SYSTEM, r, but) && |r.steps| == 5 && Last(r) == A5
  {
    r := PublishedRun(but);
    TaskRunning();
    r := Onward(SYSTEM, r, but, 2, VendorMoves("j", Running), A3);
    r := Onward(SYSTEM, r, but, 3, WorkerArrives("w", [QUANTUM_GATE]), A4);
    r := Onward(SYSTEM, r, but, 4, Release, A5);
  }

  lemma ListedRun(but: nat) returns (r: Run)
    requires but >= 10
    ensures RunsBut(SYSTEM, r, but) && |r.steps| == 7 && Last(r) == A7
  {
    r := HoldingRun(but);
    WorkerListed();
    r := Onward(SYSTEM, r, but, 5, SeesReady, A6);
    r := Onward(SYSTEM, r, but, 6, Lists(["w"]), A7);
  }

  /** The task is published, seen running, and the one worker is let go and runs; the scout holds. */
  lemma LiveWorkerRun(but: nat) returns (r: Run)
    requires but >= 10
    ensures RunsBut(SYSTEM, r, but) && |r.steps| == 10 && Last(r) == A10()
  {
    r := ListedRun(but);
    WorkerStamped(A7.files);
    r := Onward(SYSTEM, r, but, 7, Annotates(true), A8());
    WorkerPatched(A7.files);
    r := Onward(SYSTEM, r, but, 8, Patches(true), A9());
    UngatingEnds();
    r := Onward(SYSTEM, r, but, 9, StartsWaiting, A10());
  }

  // ---- four ways to let go early ----

  /** The scout's own hold times out. */
  lemma HoldTimesOutRun() returns (r: Run)
    ensures RunsBut(SYSTEM, r, 10) && |r.steps| == 10 && LetsGoEarly(Last(r), HoldTimesOut)
  {
    WorkerLive();
    r := LiveWorkerRun(10);
  }

  function Marked(): World {
    Let(Marking)
  }

  function Done(): World {
    Let(Ended).(files := Files(Some(TASK), false, true))
  }

  lemma DoneLetsGoEarly()
    ensures LetsGoEarly(Done(), SeesDone)
  {
    WorkerLive();
  }

  /** The sidecar's wait for the workers times out, and it writes the marker. */
  lemma WaitTimesOutRun() returns (r: Run)
    ensures RunsBut(SYSTEM, r, 10) && |r.steps| == 12 && r.steps[10] == WaitTimesOut && LetsGoEarly(Last(r), SeesDone)
  {
    r := LiveWorkerRun(10);
    r := Onward(SYSTEM, r, 10, 10, WaitTimesOut, Marked());
    r := Onward(SYSTEM, r, 10, 11, Marks(true), Done());
    DoneLetsGoEarly();
  }

  function Died(): World {
    Let(Ended)
  }

  function Restarted(): World {
    Let(Finding(false))
  }

  function Again(): World {
    Let(Polling(TASK))
  }

  /** The sidecar dies while the worker runs, restarts, cannot follow the task and writes the marker. */
  lemma RestartOverLiveRun() returns (r: Run)
    ensures RunsBut(SYSTEM, r, 11) && |r.steps| == 15 && r.steps[11] == Restarts && LetsGoEarly(Last(r), SeesDone)
  {
    r := LiveWorkerRun(11);
    SidecarDies();
    r := Onward(SYSTEM, r, 11, 10, Dies, Died());
    r := Onward(SYSTEM, r, 11, 11, Restarts, Restarted());
    SidecarGivesUp();
    r := Onward(SYSTEM, r, 11, 12, LooksForRecord, Again());
    r := Onward(SYSTEM, r, 11, 13, GivesUp, Marked());
    r := Onward(SYSTEM, r, 11, 14, Marks(true), Done());
    DoneLetsGoEarly();
  }

  lemma SidecarDies()
    ensures Goes(A10(), Dies, Died()) && Goes(Died(), Restarts, Restarted())
  {
  }

  lemma SidecarGivesUp()
    ensures Goes(Restarted(), LooksForRecord, Again()) && Goes(Again(), GivesUp, Marked()) && Goes(Marked(), Marks(true), Done())
  {
  }

  // ---- a restart over the marker ----

  const WRITTEN := Files(Some(TASK), false, true)
  const B3 := At(Computing, Marking, Queued, map[])
  const B4 := At(Computing, Ended, Queued, map[]).(files := WRITTEN)
  const B5 := At(Computing, Finding(false), Queued, map[]).(files := WRITTEN)
  const B6 := At(Computing, Polling(TASK), Queued, map[]).(files := WRITTEN)

  /** From here the world is that of the first run, with the marker already written. */
  function WithMarker(w: World): World {
    w.(files := WRITTEN)
  }

  lemma GaveUp()
    ensures Goes(A2, GivesUp, B3) && Goes(B3, Marks(true), B4) && Goes(B4, Restarts, B5)
  {
  }

  lemma FoundAgain()
    ensures Goes(B5, LooksForRecord, B6) && Goes(B6, VendorMoves("j", Running), WithMarker(A3))
  {
    assert map["j" := Queued]["j" := Running] == map["j" := Running];
  }

  lemma MarkerStays()
    ensures Goes(WithMarker(A3), WorkerArrives("w", [QUANTUM_GATE]), WithMarker(A4))
    ensures Goes(WithMarker(A4), Release, WithMarker(A5)) && Goes(WithMarker(A5), SeesReady, WithMarker(A6))
    ensures Goes(WithMarker(A6), Lists(["w"]), WithMarker(A7))
  {
    assert Gated(A6.workers, "w");
  }

  lemma GivenUpRun() returns (r: Run)
    ensures RunsBut(SYSTEM, r, 4) && |r.steps| == 4 && Last(r) == B4
  {
    r := PublishedRun(4);
    GaveUp();
    r := Onward(SYSTEM, r, 4, 2, GivesUp, B3);
    r := Onward(SYSTEM, r, 4, 3, Marks(true), B4);
  }

  lemma FoundAgainRun() returns (r: Run)
    ensures RunsBut(SYSTEM, r, 4) && |r.steps| == 7 && r.steps[4] == Restarts && Last(r) == WithMarker(A3)
  {
    r := GivenUpRun();
    GaveUp();
    r := Onward(SYSTEM, r, 4, 4, Restarts, B5);
    FoundAgain();
    r := Onward(SYSTEM, r, 4, 5, LooksForRecord, B6);
    r := Onward(SYSTEM, r, 4, 6, VendorMoves("j", Running), WithMarker(A3));
  }

  lemma HeldWithMarkerRun() returns (r: Run)
    ensures RunsBut(SYSTEM, r, 4) && |r.steps| == 11 && r.steps[4] == Restarts && Last(r) == WithMarker(A7)
  {
    r := FoundAgainRun();
    MarkerStays();
    r := Onward(SYSTEM, r, 4, 7, WorkerArrives("w", [QUANTUM_GATE]), WithMarker(A4));
    r := Onward(SYSTEM, r, 4, 8, Release, WithMarker(A5));
    r := Onward(SYSTEM, r, 4, 9, SeesReady, WithMarker(A6));
    r := Onward(SYSTEM, r, 4, 10, Lists(["w"]), WithMarker(A7));
  }

  /**
   * The sidecar cannot follow the queued task, writes the marker and is restarted. It then
   * sees the task run and lets the worker go, while the scout's hold ends at once.
   */
  lemma RestartOverMarkerRun() returns (r: Run)
    ensures RunsBut(SYSTEM, r, 4) && |r.steps| == 13 && r.steps[4] == Restarts && LetsGoEarly(Last(r), SeesDone)
  {
    r := HeldWithMarkerRun();
    WorkerStamped(WRITTEN);
    r := Onward(SYSTEM, r, 4, 11, Annotates(true), WithMarker(A8()));
    WorkerPatched(WRITTEN);
    r := Onward(SYSTEM, r, 4, 12, Patches(true), WithMarker(A9()));
    WorkerLive();
  }
}
