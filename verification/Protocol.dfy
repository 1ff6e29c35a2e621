/**
 * The scout, its sidecar and the gated workers as interleaved steps: what every
 * interleaving keeps, and what can only happen when a hold times out.
 */
module Protocol {
  import opened Vocabulary
  import opened Options
  import opened Poll
  import opened Handoff
  import opened Runs

  datatype Config = Config(rehearsal: bool, observe: bool, placed: map<string, string>)

  /** The scout's interpreter: computing, inside release waiting for the marker, or gone. */
  datatype Scout = Computing | Holding | Gone

  /** Where the sidecar's main is. None for a task means the rehearsal path. */
  datatype Sidecar =
    | Finding(looked: bool)
    | Polling(task: TaskRecord)
    | Listing(sought: Option<TaskRecord>)
    | Ungating(source: Option<TaskRecord>, todo: seq<string>, stamped: bool)
    | Waiting
    | Marking
    | Ended

  /** published and session are the interceptor's own record; vendor is the queue. */
  datatype World = World(files: Files, published: string, session: Option<string>, scout: Scout,
                         sidecar: Sidecar, vendor: map<string, Status>, workers: Workers)

  datatype Step =
    // the scout
    | Acquire(token: Option<string>)
    | StartTask(job: string, writable: bool)
    | Release
    | SeesDone
    | HoldTimesOut
    | Exit(writable: bool)
    // the vendor, and the gang's pods
    | VendorMoves(job: string, status: Status)
    | WorkerArrives(name: string, gates: seq<string>)
    | WorkerEnds(name: string)
    | WorkerDeleted(name: string)
    | GateLifted(name: string, index: nat)
    // the sidecar
    | LooksForRecord
    | LooksForMarker
    | FindTimesOut
    | SeesReady
    | GivesUp
    | Lists(names: seq<string>)
    | ListTimesOut
    | Annotates(ok: bool)
    | Patches(ok: bool)
    | StartsWaiting
    | SeesWorkersDone
    | WaitTimesOut
    | Marks(ok: bool)
    | Dies
    | Restarts

  predicate Final(s: Status) {
    s != Queued && s != Running
  }

  predicate Gated(ws: Workers, name: string) {
    name in ws && QUANTUM_GATE in ws[name].gates
  }

  predicate Possible(cfg: Config, w: World, s: Step) {
    match s
    case Acquire(_) => w.scout.Computing?
    case StartTask(job, _) => w.scout.Computing? && job !in w.vendor
    case Release => w.scout.Computing?
    case SeesDone => w.scout.Holding? && w.files.done
    case HoldTimesOut => w.scout.Holding?
    case Exit(_) => w.scout.Computing?
    case VendorMoves(job, status) =>
      job in w.vendor && !Final(w.vendor[job]) && status != Queued && (w.vendor[job].Running? ==> Final(status))
    case WorkerArrives(name, gates) => name !in w.workers && QUANTUM_GATE in gates && Unique(gates)
    case WorkerEnds(name) => name in w.workers
    case WorkerDeleted(name) => name in w.workers
    case GateLifted(name, i) =>
      name in w.workers && i < |w.workers[name].gates| && w.workers[name].gates[i] != QUANTUM_GATE
    case LooksForRecord => w.sidecar == Finding(false)
    case LooksForMarker => w.sidecar == Finding(true)
    case FindTimesOut => w.sidecar == Finding(false)
    case SeesReady => w.sidecar.Polling? && w.sidecar.task.job in w.vendor && ReadyStatus(w.vendor[w.sidecar.task.job])
    case GivesUp => w.sidecar.Polling?
    case Lists(names) => w.sidecar.Listing? && names != [] && forall i :: 0 <= i < |names| ==> Gated(w.workers, names[i])
    case ListTimesOut => w.sidecar.Listing?
    case Annotates(_) => w.sidecar.Ungating? && w.sidecar.todo != [] && !w.sidecar.stamped
    case Patches(_) => w.sidecar.Ungating? && w.sidecar.todo != [] && w.sidecar.stamped
    case StartsWaiting => w.sidecar.Ungating? && w.sidecar.todo == []
    case SeesWorkersDone => w.sidecar.Waiting? && forall k :: k in w.workers ==> w.workers[k].terminal
    case WaitTimesOut => w.sidecar.Waiting?
    case Marks(_) => w.sidecar.Marking?
    case Dies => true
    case Restarts => w.sidecar.Ended?
  }

  /** After the search for a task ends without one. */
  function NoTask(cfg: Config): Sidecar {
    if cfg.rehearsal && !cfg.observe then Listing(None) else Ended
  }

  /** What is stamped onto the workers: the task's ids, or in a rehearsal no ids. */
  function NotesFor(cfg: Config, source: Option<TaskRecord>): map<string, string> {
    match source
    case None => Notes(cfg.placed, "", None)
    case Some(r) => Notes(cfg.placed, r.job, r.session)
  }

  function Next(cfg: Config, w: World, s: Step): World
    requires Possible(cfg, w, s)
  {
    match s
    case Acquire(token) => w.(session := token)
    case StartTask(job, writable) =>
      w.(vendor := w.vendor[job := Queued], published := job, files := Published(w.files, TaskRecord(job, w.session), writable))
    case Release => if w.published != "" then w.(scout := Holding) else w
    case SeesDone => w.(scout := Computing)
    case HoldTimesOut => w.(scout := Computing)
    case Exit(writable) => w.(scout := Gone, files := ExitMarked(w.files, writable))
    case VendorMoves(job, status) => w.(vendor := w.vendor[job := status])
    case WorkerArrives(name, gates) => w.(workers := w.workers[name := Worker(gates, map[], false)])
    case WorkerEnds(name) => w.(workers := w.workers[name := w.workers[name].(terminal := true)])
    case WorkerDeleted(name) => w.(workers := w.workers - {name})
    case GateLifted(name, i) =>
      var gates := w.workers[name].gates;
      w.(workers := w.workers[name := w.workers[name].(gates := gates[..i] + gates[i + 1..])])
    case LooksForRecord =>
      w.(sidecar := if Readable(w.files).Some? then Polling(Readable(w.files).value) else Finding(true))
    case LooksForMarker => w.(sidecar := if w.files.exited then NoTask(cfg) else Finding(false))
    case FindTimesOut => w.(sidecar := NoTask(cfg))
    case SeesReady => w.(sidecar := if cfg.observe then Ended else Listing(Some(w.sidecar.task)))
    case GivesUp => w.(sidecar := if cfg.observe then Ended else Marking)
    case Lists(names) => w.(sidecar := Ungating(w.sidecar.sought, names, false))
    case ListTimesOut => w.(sidecar := Ungating(w.sidecar.sought, [], false))
    case Annotates(ok) =>
      w.(sidecar := w.sidecar.(stamped := true),
         workers := Annotated(w.workers, w.sidecar.todo[0], NotesFor(cfg, w.sidecar.source), ok))
    case Patches(ok) =>
      w.(sidecar := Ungating(w.sidecar.source, w.sidecar.todo[1..], false), workers := Patched(w.workers, w.sidecar.todo[0], ok))
    case StartsWaiting => w.(sidecar := Waiting)
    case SeesWorkersDone => w.(sidecar := Marking)
    case WaitTimesOut => w.(sidecar := Marking)
    case Marks(ok) => w.(sidecar := Ended, files := DoneMarked(w.files, ok))
    case Dies => w.(sidecar := Ended)
    case Restarts => w.(sidecar := Finding(false))
  }

  const START := World(Files(None, false, false), "", None, Computing, Finding(false), map[], map[])

  type Run = Trace<World, Step>

  predicate IsStep(cfg: Config, r: Run, i: nat)
    requires i < |r.steps| && i + 1 < |r.states|
  {
    Possible(cfg, r.states[i], r.steps[i]) && r.states[i + 1] == Next(cfg, r.states[i], r.steps[i])
  }

  ghost predicate IsRun(cfg: Config, r: Run) {
    && |r.states| == |r.steps| + 1 && r.states[0] == START
    && forall i :: 0 <= i < |r.steps| ==> IsStep(cfg, r, i)
  }

  // ---- the session outlives the workers ----

  /** A worker that has been let go and has not finished. */
  predicate Live(w: Worker) {
    QUANTUM_GATE !in w.gates && !w.terminal
  }

  predicate NoneLive(ws: Workers) {
    forall k :: k in ws ==> !Live(ws[k])
  }

  /** No wait for the workers times out over a live one, and no sidecar restarts over one or over a written marker. */
  predicate Calm(w: World, s: Step) {
    && (s.WaitTimesOut? ==> NoneLive(w.workers))
    && (s.Restarts? ==> NoneLive(w.workers) && !w.files.done)
  }

  predicate Patient(r: Run, n: nat)
    requires n <= |r.steps| < |r.states|
  {
    forall i :: 0 <= i < n ==> Calm(r.states[i], r.steps[i])
  }

  /** The sidecar has let no worker go yet, or has seen all of them finish. */
  predicate BeforeOrAfter(s: Sidecar) {
    s.Finding? || s.Polling? || s.Listing? || s.Marking?
  }

  predicate HoldInv(w: World) {
    && (BeforeOrAfter(w.sidecar) ==> NoneLive(w.workers))
    && (w.files.done ==> w.sidecar.Ended? && NoneLive(w.workers))
  }

  /** Steps of the world around the sidecar let no worker go. */
  lemma OutsideKeepsQuiet(cfg: Config, w: World, s: Step)
    requires Possible(cfg, w, s) && !s.Patches? && NoneLive(w.workers)
    ensures NoneLive(Next(cfg, w, s).workers)
  {
    var ws := Next(cfg, w, s).workers;
    forall k | k in ws ensures !Live(ws[k]) {
      if k in w.workers {
        assert !Live(w.workers[k]);
        if s.GateLifted? && s.name == k && !w.workers[k].terminal {
          LiftedKeepsGate(w.workers[k].gates, s.index);
        }
      }
    }
  }

  lemma LiftedKeepsGate(gates: seq<string>, i: nat)
    requires i < |gates| && gates[i] != QUANTUM_GATE && QUANTUM_GATE in gates
    ensures QUANTUM_GATE in gates[..i] + gates[i + 1..]
  {
    var j :| 0 <= j < |gates| && gates[j] == QUANTUM_GATE;
    if j < i {
      assert (gates[..i] + gates[i + 1..])[j] == QUANTUM_GATE;
    } else {
      assert (gates[..i] + gates[i + 1..])[j - 1] == QUANTUM_GATE;
    }
  }

  /** A step keeps the hold right exactly when it is calm. */
  lemma HoldStepIff(cfg: Config, w: World, s: Step)
    requires HoldInv(w) && Possible(cfg, w, s)
    ensures HoldInv(Next(cfg, w, s)) <==> Calm(w, s)
  {
    if s.SeesWorkersDone? {
      assert NoneLive(w.workers);
    } else if !s.Patches? && NoneLive(w.workers) {
      OutsideKeepsQuiet(cfg, w, s);
    }
  }

  /** So a run keeps it all along exactly when it is patient. */
  lemma {:induction false} HoldRunIff(cfg: Config, r: Run, n: nat)
    requires IsRun(cfg, r) && n < |r.states|
    ensures Patient(r, n) <==> forall i :: 0 <= i <= n ==> HoldInv(r.states[i])
  {
    if n > 0 {
      HoldRunIff(cfg, r, n - 1);
      assert IsStep(cfg, r, n - 1);
      assert Patient(r, n) <==> Patient(r, n - 1) && Calm(r.states[n - 1], r.steps[n - 1]);
      if HoldInv(r.states[n - 1]) {
        HoldStepIff(cfg, r.states[n - 1], r.steps[n - 1]);
      }
    }
  }

  /**
   * In every interleaving whose wait for the workers never times out over a live one, and
   * whose sidecar restarts only where nobody was let go or everybody finished and no marker
   * stands, the marker exists only when no worker that was let go is still running, and
   * none will be while that goes on.
   */
  lemma DoneMeansNoneLive(cfg: Config, r: Run, m: nat, n: nat)
    requires IsRun(cfg, r) && m <= n < |r.states| && Patient(r, n) && r.states[m].files.done
    ensures NoneLive(r.states[n].workers)
  {
    HoldRunIff(cfg, r, n);
    DoneStays(cfg, r, m, n);
  }

  /** Nothing takes the marker away. */
  lemma {:induction false} DoneStays(cfg: Config, r: Run, m: nat, n: nat)
    requires IsRun(cfg, r) && m <= n < |r.states| && r.states[m].files.done
    ensures r.states[n].files.done
  {
    if m < n {
      DoneStays(cfg, r, m, n - 1);
      assert IsStep(cfg, r, n - 1);
    }
  }

  /** The steps in which the scout lets its session go. */
  predicate LetsGo(w: World, s: Step) {
    s.SeesDone? || s.HoldTimesOut? || (s.Release? && w.published == "")
  }

  /**
   * So in such a run a scout that published a task lets its session go, unless its own hold
   * times out, only when no worker that was let go is running.
   */
  lemma ReleasedOnlyWhenQuiet(cfg: Config, r: Run, n: nat)
    requires IsRun(cfg, r) && n < |r.steps| && Patient(r, n)
    requires LetsGo(r.states[n], r.steps[n]) && r.states[n].published != "" && !r.steps[n].HoldTimesOut?
    ensures NoneLive(r.states[n].workers)
  {
    assert IsStep(cfg, r, n);
    DoneMeansNoneLive(cfg, r, n, n);
  }

  /** Either timeout undoes this: from any moment with a live worker the scout can then let go. */
  lemma TimeoutsLetGoEarly(cfg: Config, w: World, k: string)
    requires w.scout.Holding? && k in w.workers && Live(w.workers[k])
    ensures Possible(cfg, w, HoldTimesOut) && Live(Next(cfg, w, HoldTimesOut).workers[k])
    ensures w.sidecar.Waiting? ==>
              && Possible(cfg, w, WaitTimesOut)
              && var w1 := Next(cfg, w, WaitTimesOut);
                 Possible(cfg, w1, Marks(true))
                 && var w2 := Next(cfg, w1, Marks(true));
                    Possible(cfg, w2, SeesDone) && Next(cfg, w2, SeesDone).scout.Computing? && Live(Next(cfg, w2, SeesDone).workers[k])
  {
  }

  // ---- the two files that exclude each other ----

  predicate FilesInv(w: World) {
    w.files.exited ==> Readable(w.files).None? && w.scout.Gone?
  }

  lemma FilesStep(cfg: Config, w: World, s: Step)
    requires FilesInv(w) && Possible(cfg, w, s)
    ensures FilesInv(Next(cfg, w, s)) && (w.files.exited ==> Next(cfg, w, s).files.exited)
  {
  }

  lemma {:induction false} FilesFrom(cfg: Config, r: Run, m: nat, n: nat)
    requires IsRun(cfg, r) && m <= n < |r.states| && FilesInv(r.states[m])
    ensures FilesInv(r.states[n]) && (r.states[m].files.exited ==> r.states[n].files.exited)
  {
    if m < n {
      FilesFrom(cfg, r, m, n - 1);
      assert IsStep(cfg, r, n - 1);
      FilesStep(cfg, r.states[n - 1], r.steps[n - 1]);
    }
  }

  /** The exit marker never stands beside a readable record, then or ever after. */
  lemma MarkerExcludesRecord(cfg: Config, r: Run, m: nat, n: nat)
    requires IsRun(cfg, r) && m <= n < |r.states| && r.states[m].files.exited
    ensures r.states[n].files.exited && Readable(r.states[n].files).None?
  {
    FilesFrom(cfg, r, 0, m);
    FilesFrom(cfg, r, m, n);
  }

  // ---- a gate goes only for a ready task ----

  /** The record was read from the volume before step n. */
  ghost predicate WasRead(r: Run, n: nat, task: TaskRecord)
    requires n <= |r.steps| < |r.states|
  {
    exists j :: 0 <= j < n && r.steps[j].LooksForRecord? && Readable(r.states[j].files) == Some(task)
  }

  predicate ReadyAt(r: Run, j: nat, task: TaskRecord)
    requires j < |r.steps| < |r.states|
  {
    && r.steps[j].SeesReady? && r.states[j].sidecar == Polling(task)
    && task.job in r.states[j].vendor && ReadyStatus(r.states[j].vendor[task.job])
  }

  ghost predicate WasReady(r: Run, n: nat, task: TaskRecord)
    requires n <= |r.steps| < |r.states|
  {
    exists j :: 0 <= j < n && ReadyAt(r, j, task)
  }

  /** The search ended without a task: on the marker, or on its timeout. */
  ghost predicate FoundNone(r: Run, n: nat)
    requires n <= |r.steps| < |r.states|
  {
    exists j :: 0 <= j < n && (r.steps[j].FindTimesOut? || (r.steps[j].LooksForMarker? && r.states[j].files.exited))
  }

  predicate StampedAt(r: Run, j: nat, source: Option<TaskRecord>, name: string)
    requires j < |r.steps| < |r.states|
  {
    && r.steps[j].Annotates? && r.states[j].sidecar.Ungating? && r.states[j].sidecar.source == source
    && r.states[j].sidecar.todo != [] && r.states[j].sidecar.todo[0] == name
  }

  ghost predicate WasStamped(r: Run, n: nat, source: Option<TaskRecord>, name: string)
    requires n <= |r.steps| < |r.states|
  {
    exists j :: 0 <= j < n && StampedAt(r, j, source, name)
  }

  /** Where a task the sidecar is acting on came from. */
  ghost predicate Sourced(cfg: Config, r: Run, n: nat, source: Option<TaskRecord>)
    requires n <= |r.steps| < |r.states|
  {
    match source
    case Some(task) => WasRead(r, n, task) && WasReady(r, n, task)
    case None => cfg.rehearsal && !cfg.observe && FoundNone(r, n)
  }

  ghost predicate GateInv(cfg: Config, r: Run, n: nat)
    requires n <= |r.steps| < |r.states|
  {
    match r.states[n].sidecar
    case Polling(task) => WasRead(r, n, task)
    case Listing(source) => Sourced(cfg, r, n, source)
    case Ungating(source, todo, stamped) =>
      Sourced(cfg, r, n, source) && (stamped ==> todo != [] && WasStamped(r, n, source, todo[0]))
    case _ => true
  }

  lemma HistoryGrows(cfg: Config, r: Run, n: nat)
    requires IsRun(cfg, r) && n < |r.steps|
    ensures forall task :: WasRead(r, n, task) ==> WasRead(r, n + 1, task)
    ensures forall source {:trigger Sourced(cfg, r, n + 1, source)} :: Sourced(cfg, r, n, source) ==> Sourced(cfg, r, n + 1, source)
    ensures forall source, name :: WasStamped(r, n, source, name) ==> WasStamped(r, n + 1, source, name)
  {
  }

  lemma SidecarStill(cfg: Config, r: Run, n: nat)
    requires IsRun(cfg, r) && n < |r.steps| && GateInv(cfg, r, n) && r.states[n + 1].sidecar == r.states[n].sidecar
    ensures GateInv(cfg, r, n + 1)
  {
    HistoryGrows(cfg, r, n);
    match r.states[n].sidecar
    case Listing(source) => assert Sourced(cfg, r, n, source);
    case Ungating(source, todo, stamped) => assert Sourced(cfg, r, n, source);
    case _ =>
  }

  lemma SidecarMoves(cfg: Config, r: Run, n: nat)
    requires IsRun(cfg, r) && n < |r.steps| && GateInv(cfg, r, n) && r.states[n + 1].sidecar != r.states[n].sidecar
    ensures GateInv(cfg, r, n + 1)
  {
    assert IsStep(cfg, r, n);
    HistoryGrows(cfg, r, n);
    var before, s := r.states[n].sidecar, r.steps[n];
    if s.SeesReady? {
      assert WasRead(r, n, before.task) && ReadyAt(r, n, before.task);
    } else if s.Lists? || s.ListTimesOut? {
      assert Sourced(cfg, r, n, before.sought);
    } else if s.Annotates? || s.Patches? {
      assert Sourced(cfg, r, n, before.source);
      assert s.Annotates? ==> StampedAt(r, n, before.source, before.todo[0]);
    }
  }

  lemma GateStep(cfg: Config, r: Run, n: nat)
    requires IsRun(cfg, r) && n < |r.steps| && GateInv(cfg, r, n)
    ensures GateInv(cfg, r, n + 1)
  {
    if r.states[n + 1].sidecar == r.states[n].sidecar {
      SidecarStill(cfg, r, n);
    } else {
      SidecarMoves(cfg, r, n);
    }
  }

  lemma {:induction false} GateRun(cfg: Config, r: Run, n: nat)
    requires IsRun(cfg, r) && n < |r.states|
    ensures GateInv(cfg, r, n)
  {
    if n > 0 {
      GateRun(cfg, r, n - 1);
      GateStep(cfg, r, n - 1);
    }
  }

  /** Only the sidecar's patch takes a quantum gate off. */
  lemma OnlyPatchesUngate(cfg: Config, w: World, s: Step, k: string)
    requires Possible(cfg, w, s) && Gated(w.workers, k) && k in Next(cfg, w, s).workers && !Gated(Next(cfg, w, s).workers, k)
    ensures s == Patches(true) && w.sidecar.todo[0] == k
    ensures Unique(w.workers[k].gates) ==> w.workers[k].gates[0] == QUANTUM_GATE
  {
    if s.GateLifted? && s.name == k {
      LiftedKeepsGate(w.workers[k].gates, s.index);
    }
    if s == Patches(true) && w.sidecar.todo[0] == k && Unique(w.workers[k].gates) {
      PatchRemovesGateIff(w.workers, k);
    }
  }

  /**
   * In every run a worker's gate goes only by the sidecar's patch, after an annotate of
   * that pod was attempted, and for a task that was read from the volume and seen running
   * or completed, or in a rehearsal whose search for a task had ended without one.
   */
  lemma GateRemovedOnlyWhenReady(cfg: Config, r: Run, n: nat, k: string)
    requires IsRun(cfg, r) && n < |r.steps|
    requires Gated(r.states[n].workers, k) && k in r.states[n + 1].workers && !Gated(r.states[n + 1].workers, k)
    ensures r.steps[n] == Patches(true) && r.states[n].sidecar.Ungating?
    ensures WasStamped(r, n, r.states[n].sidecar.source, k)
    ensures Unique(r.states[n].workers[k].gates) ==> r.states[n].workers[k].gates[0] == QUANTUM_GATE
    ensures match r.states[n].sidecar.source
            case Some(task) =>
              && WasRead(r, n, task) && WasReady(r, n, task)
              && NamesTask(NotesFor(cfg, Some(task)), task)
            case None => cfg.rehearsal && !cfg.observe && FoundNone(r, n)
  {
    assert IsStep(cfg, r, n);
    OnlyPatchesUngate(cfg, r.states[n], r.steps[n], k);
    GateRun(cfg, r, n);
    if r.states[n].sidecar.source.Some? {
      StampNamesTask(cfg, r.states[n].sidecar.source.value);
    }
  }

  /** The notes give the task's job id, and its session when it has one. */
  predicate NamesTask(notes: map<string, string>, task: TaskRecord) {
    && JOB_ID in notes && notes[JOB_ID] == task.job
    && (task.session.Some? && task.session.value != "" ==> SESSION_ID in notes && notes[SESSION_ID] == task.session.value)
  }

  lemma StampNamesTask(cfg: Config, task: TaskRecord)
    requires task.job != ""
    ensures NamesTask(NotesFor(cfg, Some(task)), task)
  {
    assert JOB_ID[|"fluence.flux-framework.org/quantum-"|] == 'j' && SESSION_ID[|"fluence.flux-framework.org/quantum-"|] == 's';
  }

  // ---- what a lost record leads to ----

  /** No task's record reached the volume in the first n steps. */
  predicate Unpublished(r: Run, n: nat)
    requires n <= |r.steps|
  {
    forall i :: 0 <= i < n ==> !(r.steps[i].StartTask? && r.steps[i].writable && r.steps[i].job != "")
  }

  predicate StrandedInv(w: World) {
    Readable(w.files).None? && !w.files.done && (w.sidecar.Finding? || w.sidecar.Ended?) && NoneFreed(w.workers)
  }

  predicate NoneFreed(ws: Workers) {
    forall k :: k in ws ==> Gated(ws, k)
  }

  lemma StrandedStep(cfg: Config, w: World, s: Step)
    requires StrandedInv(w) && Possible(cfg, w, s) && !cfg.rehearsal
    requires !(s.StartTask? && s.writable && s.job != "")
    ensures StrandedInv(Next(cfg, w, s))
  {
    if s.GateLifted? {
      assert Gated(w.workers, s.name);
      LiftedKeepsGate(w.workers[s.name].gates, s.index);
    }
  }

  /**
   * Outside a rehearsal, unless some task's record reaches the volume, no worker is ever
   * let go and the workers-done marker is never written: a scout whose publish failed
   * softly holds its session until its own timeout.
   */
  lemma {:induction false} LostRecordStrands(cfg: Config, r: Run, n: nat)
    requires IsRun(cfg, r) && n < |r.states| && !cfg.rehearsal && Unpublished(r, n)
    ensures StrandedInv(r.states[n])
  {
    if n > 0 {
      LostRecordStrands(cfg, r, n - 1);
      assert IsStep(cfg, r, n - 1);
      StrandedStep(cfg, r.states[n - 1], r.steps[n - 1]);
    }
  }

  /** And so such a scout's hold ends in no other way. */
  lemma StrandedHoldTimesOut(cfg: Config, r: Run, n: nat)
    requires IsRun(cfg, r) && n < |r.steps| && !cfg.rehearsal && Unpublished(r, n)
    requires r.states[n].scout.Holding? && !r.states[n + 1].scout.Holding?
    ensures r.steps[n].HoldTimesOut?
  {
    LostRecordStrands(cfg, r, n);
    assert IsStep(cfg, r, n);
  }

  // ---- ungating, step by step ----

  /** The sidecar's next pod, undisturbed: one annotate, one patch. */
  lemma UngateSteps(cfg: Config, w: World, luck: Luck)
    requires w.sidecar.Ungating? && w.sidecar.todo != [] && !w.sidecar.stamped
    ensures Possible(cfg, w, Annotates(luck.annotate))
    ensures var w1 := Next(cfg, w, Annotates(luck.annotate));
            && Possible(cfg, w1, Patches(luck.patch))
            && Next(cfg, w1, Patches(luck.patch)) ==
               w.(workers := UngateOne(w.workers, w.sidecar.todo[0], NotesFor(cfg, w.sidecar.source), luck),
                  sidecar := Ungating(w.sidecar.source, w.sidecar.todo[1..], false))
  {
  }

  /** Where the sidecar is when it has seen to the first n of its pods and nothing else happened. */
  function Ungated(cfg: Config, w: World, lucks: seq<Luck>, n: nat): World
    requires w.sidecar.Ungating? && n <= |w.sidecar.todo|
  {
    w.(workers := UngateAll(w.workers, w.sidecar.todo[..n], NotesFor(cfg, w.sidecar.source), lucks),
       sidecar := Ungating(w.sidecar.source, w.sidecar.todo[n..], false))
  }

  lemma UngatedNext(cfg: Config, w: World, lucks: seq<Luck>, n: nat)
    requires w.sidecar.Ungating? && n < |w.sidecar.todo| && Names(w.sidecar.todo)
    ensures var before := Ungated(cfg, w, lucks, n);
            Ungated(cfg, w, lucks, n + 1) ==
            before.(workers := UngateOne(before.workers, before.sidecar.todo[0], NotesFor(cfg, w.sidecar.source), LuckAt(lucks, n)),
                    sidecar := Ungating(w.sidecar.source, before.sidecar.todo[1..], false))
  {
    var todo := w.sidecar.todo;
    assert todo[..n + 1][..n] == todo[..n] && todo[n..][1..] == todo[n + 1..];
  }

  /**
   * Undisturbed, the sidecar's annotates and patches, two for each pod it listed, come to
   * what ungate_pods makes of the whole list, whatever the API server refuses.
   */
  lemma {:induction false} UngatingFollows(cfg: Config, w: World, lucks: seq<Luck>, n: nat) returns (r: Run)
    requires w.sidecar.Ungating? && !w.sidecar.stamped && n <= |w.sidecar.todo| && Names(w.sidecar.todo)
    ensures |r.steps| == 2 * n && |r.states| == 2 * n + 1 && r.states[0] == w
    ensures forall i :: 0 <= i < 2 * n ==> IsStep(cfg, r, i)
    ensures r.states[2 * n] == Ungated(cfg, w, lucks, n)
  {
    if n == 0 {
      r := Trace([w], []);
    } else {
      var q := UngatingFollows(cfg, w, lucks, n - 1);
      var luck, before := LuckAt(lucks, n - 1), Ungated(cfg, w, lucks, n - 1);
      UngateSteps(cfg, before, luck);
      UngatedNext(cfg, w, lucks, n - 1);
      var stamped := Next(cfg, before, Annotates(luck.annotate));
      r := Trace(q.states + [stamped, Ungated(cfg, w, lucks, n)], q.steps + [Annotates(luck.annotate), Patches(luck.patch)]);
      forall i | 0 <= i < 2 * n ensures IsStep(cfg, r, i) {
        if i < 2 * n - 2 {
          assert IsStep(cfg, q, i);
        }
      }
    }
  }

  // ---- observing, and rehearsing ----

  predicate LooksOn(w: World) {
    (w.sidecar.Finding? || w.sidecar.Polling? || w.sidecar.Ended?) && !w.files.done
  }

  lemma ObserverStep(cfg: Config, w: World, s: Step)
    requires cfg.observe && LooksOn(w) && Possible(cfg, w, s)
    ensures LooksOn(Next(cfg, w, s)) && !s.Lists? && !s.Annotates? && !s.Patches? && !s.Marks?
  {
  }

  /** An observing sidecar lets nobody go, stamps nobody and marks nothing, in any run. */
  lemma {:induction false} ObserverOnlyLooks(cfg: Config, r: Run, n: nat)
    requires IsRun(cfg, r) && n < |r.states| && cfg.observe
    ensures !r.states[n].files.done && forall i :: 0 <= i < n ==> !r.steps[i].Lists? && !r.steps[i].Annotates? && !r.steps[i].Patches? && !r.steps[i].Marks?
    ensures LooksOn(r.states[n])
    decreases n
  {
    if n > 0 {
      ObserverOnlyLooks(cfg, r, n - 1);
      assert IsStep(cfg, r, n - 1);
      ObserverStep(cfg, r.states[n - 1], r.steps[n - 1]);
    }
  }

  /**
   * A rehearsal goes on without a task: once the search times out, or the scout has exited,
   * the workers listed are let go one by one, stamped with the placement and no ids. Any
   * other sidecar ends there.
   */
  lemma RehearsalReleases(cfg: Config, w: World, s: Step, names: seq<string>, lucks: seq<Luck>) returns (r: Run)
    requires (s == FindTimesOut && w.sidecar == Finding(false)) || (s == LooksForMarker && w.sidecar == Finding(true) && w.files.exited)
    requires names != [] && Names(names) && forall i :: 0 <= i < |names| ==> Gated(w.workers, names[i])
    ensures !(cfg.rehearsal && !cfg.observe) ==> Next(cfg, w, s).sidecar == Ended
    ensures cfg.rehearsal && !cfg.observe ==>
              && |r.steps| == 2 * |names| + 2 && |r.states| == 2 * |names| + 3 && r.states[0] == w && r.steps[0] == s
              && (forall i :: 0 <= i < |r.steps| ==> IsStep(cfg, r, i))
              && var end := r.states[2 * |names| + 2];
                 && end == w.(workers := end.workers, sidecar := end.sidecar) && end.sidecar == Ungating(None, [], false)
                 && end.workers == UngateAll(w.workers, names, cfg.placed, lucks)
  {
    r := Trace([w], []);
    if cfg.rehearsal && !cfg.observe {
      var w1, w2 := RehearsalLists(cfg, w, s, names);
      var q := UngatingFollows(cfg, w2, lucks, |names|);
      r := Preceded(cfg, w, s, w1, Lists(names), q);
      assert names[..|names|] == names && names[|names|..] == [];
      NoIdNotes(cfg);
    }
  }

  lemma RehearsalLists(cfg: Config, w: World, s: Step, names: seq<string>) returns (w1: World, w2: World)
    requires (s == FindTimesOut && w.sidecar == Finding(false)) || (s == LooksForMarker && w.sidecar == Finding(true) && w.files.exited)
    requires cfg.rehearsal && !cfg.observe && names != [] && forall i :: 0 <= i < |names| ==> Gated(w.workers, names[i])
    ensures Possible(cfg, w, s) && w1 == Next(cfg, w, s) && Possible(cfg, w1, Lists(names)) && w2 == Next(cfg, w1, Lists(names))
    ensures w2 == w.(sidecar := Ungating(None, names, false))
  {
    w1 := Next(cfg, w, s);
    assert w1 == w.(sidecar := Listing(None));
    w2 := Next(cfg, w1, Lists(names));
  }

  /** Without a task the notes are the placement's alone. */
  lemma NoIdNotes(cfg: Config)
    ensures NotesFor(cfg, None) == cfg.placed
  {
    assert cfg.placed + map[] == cfg.placed;
  }

  /** Two steps ahead of a run. */
  lemma Preceded(cfg: Config, w: World, s: Step, w1: World, s1: Step, q: Run) returns (r: Run)
    requires Possible(cfg, w, s) && Next(cfg, w, s) == w1 && Possible(cfg, w1, s1)
    requires |q.states| == |q.steps| + 1 && q.states[0] == Next(cfg, w1, s1) && forall i :: 0 <= i < |q.steps| ==> IsStep(cfg, q, i)
    ensures r == Trace([w, w1] + q.states, [s, s1] + q.steps) && forall i :: 0 <= i < |r.steps| ==> IsStep(cfg, r, i)
  {
    r := Trace([w, w1] + q.states, [s, s1] + q.steps);
    forall i | 0 <= i < |r.steps| ensures IsStep(cfg, r, i) {
      if i >= 2 {
        assert IsStep(cfg, q, i - 2);
      }
    }
  }
}
