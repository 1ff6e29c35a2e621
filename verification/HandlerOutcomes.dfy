/** What the patches leave on the server: nothing of the user's is lost, every stamp is there. */
module HandlerOutcomes {
  import opened Options
  import opened Json
  import opened Patches
  import opened PodEdits
  import opened PodMirror
  import opened PodTasks
  import opened Handlers
  import opened HandlerPatches

  // ---- the webhook's own pod ----

  ghost predicate ContainersExtend(after: seq<Container>, before: seq<Container>) {
    |after| == |before| && forall i :: 0 <= i < |before| ==> Extends(after[i], before[i])
  }

  /** Only annotations, containers and volumes change, the latter two by growing. */
  ghost predicate Grows(q: PodState, p: PodState) {
    && q == p.(annotations := q.annotations, containers := q.containers, volumes := q.volumes)
    && ContainersExtend(q.containers, p.containers) && p.volumes <= q.volumes
  }

  ghost predicate GrowsQuietly(q: PodState, p: PodState) {
    Grows(q, p) && q.annotations == p.annotations
  }

  lemma GrowsThen(r: PodState, q: PodState, p: PodState)
    requires Grows(r, q) && Grows(q, p)
    ensures Grows(r, p)
  {
    forall i | 0 <= i < |p.containers| ensures Extends(r.containers[i], p.containers[i]) {
      assert Extends(r.containers[i], q.containers[i]) && Extends(q.containers[i], p.containers[i]);
    }
  }

  lemma RunGrows(p: PodState, t: Task)
    requires t.DropResource? ==> t.resource == QPU
    ensures GrowsQuietly(Run(p, t).pod, p)
    ensures !t.DropResource? ==> SameRequests(Run(p, t).pod, p)
  {
    forall i | 0 <= i < |p.containers|
      ensures Extends(After(t, p.containers[i]), p.containers[i])
      ensures !t.DropResource? ==> After(t, p.containers[i]).requests == p.containers[i].requests
    {
      TaskExtends(t, p.containers[i]);
    }
  }

  ghost predicate SameRequests(q: PodState, p: PodState) {
    |q.containers| == |p.containers| && forall i :: 0 <= i < |p.containers| ==> q.containers[i].requests == p.containers[i].requests
  }

  lemma InterceptorGrows(ctx: Ctx, p: PodState)
    ensures GrowsQuietly(Interceptor(ctx, p).pod, p)
  {
    var g := AddVolume(p, STAGE_VOLUME);
    RunGrows(g.pod, Stage);
    GrowsThen(Interceptor(ctx, p).pod, g.pod, p);
  }

  lemma HandoffGrows(p: PodState)
    ensures GrowsQuietly(HandoffStep(p).pod, p)
  {
    if !Named(p.volumes, HANDOFF_VOLUME) {
      var h := AddVolume(p, HANDOFF_VOLUME);
      RunGrows(h.pod, Handoff);
      var r := Run(h.pod, Handoff).pod;
      RunGrows(r, SetEnv(EnvVar(HANDOFF_DIR_ENV, HANDOFF_PATH)));
      GrowsThen(r, h.pod, p);
      GrowsThen(HandoffStep(p).pod, r, p);
    }
  }

  lemma SubmitterGrows(ctx: Ctx, p: PodState)
    ensures GrowsQuietly(Submitter(ctx, p).pod, p)
  {
    InterceptorGrows(ctx, p);
    HandoffGrows(Interceptor(ctx, p).pod);
    GrowsThen(Submitter(ctx, p).pod, Interceptor(ctx, p).pod, p);
  }

  lemma RehearsalGrows(p: PodState, rehearsing: bool)
    ensures GrowsQuietly(RehearsalStep(p, rehearsing).pod, p)
  {
    RunGrows(p, SetEnv(REHEARSAL_ENV));
  }

  /** What the quantum handler stamps on a pod. */
  function Stamps(ctx: Ctx, p: PodState): map<string, Json> {
    if SharedGang(ctx, p) then AdmissionStamps(ctx.ns + "/" + ResolveGroup(ctx, p), 0)
    else AdmissionStamps(ctx.ns + "/" + ctx.name, ctx.cores)
  }

  /** The outcome of the quantum handler on the webhook's pod. */
  ghost predicate Stamped(ctx: Ctx, q: PodState, p: PodState) {
    Grows(q, p) && q.annotations == Some(Noted(p) + Stamps(ctx, p))
  }

  lemma StandaloneStamps(ctx: Ctx, p: PodState)
    requires !SharedGang(ctx, p)
    ensures Stamped(ctx, Standalone(ctx, p).pod, p)
  {
    var g1 := Stamp(p, Stamps(ctx, p), ctx.keyOrder);
    SubmitterGrows(ctx, g1.pod);
    var q := Submitter(ctx, g1.pod).pod;
    RehearsalGrows(q, Rehearsing(p));
    GrowsThen(RehearsalStep(q, Rehearsing(p)).pod, q, g1.pod);
    GrowsThen(Standalone(ctx, p).pod, g1.pod, p);
  }

  /** The pod a member is given its role on. */
  lemma EnrolGrows(ctx: Ctx, p: PodState)
    requires SharedGang(ctx, p)
    ensures Stamped(ctx, Enrol(ctx, p).pod, p)
  {
    var g := Stamp(p, Stamps(ctx, p), ctx.keyOrder);
    RehearsalGrows(g.pod, Rehearsing(p));
    GrowsThen(RehearsalStep(g.pod, Rehearsing(p)).pod, g.pod, p);
  }

  lemma ScoutGrows(ctx: Ctx, p: PodState, group: string, extra: seq<Json>)
    ensures GrowsQuietly(MutateScout(ctx, p, group, extra).pod, p)
  {
    var q := Submitter(ctx, p).pod;
    SubmitterGrows(ctx, p);
    RunGrows(q, SetEnv(RoleEnv("scout")));
    GrowsThen(Run(q, SetEnv(RoleEnv("scout"))).pod, q, p);
  }

  lemma WorkerEnvsGrow(p: PodState)
    ensures GrowsQuietly(WorkerEnvs(p).pod, p)
  {
    var job := SetEnv(AnnotationEnv("FLUENCE_QUANTUM_JOB_ID", "fluence.flux-framework.org/quantum-job-id"));
    var session := SetEnv(AnnotationEnv("FLUENCE_QUANTUM_SESSION_ID", "fluence.flux-framework.org/quantum-session-id"));
    var q1 := Run(p, SetEnv(RoleEnv("worker"))).pod;
    var q2 := Run(q1, job).pod;
    RunGrows(p, SetEnv(RoleEnv("worker")));
    RunGrows(q1, job);
    RunGrows(q2, session);
    GrowsThen(q2, q1, p);
    GrowsThen(Run(q2, session).pod, q2, p);
  }

  lemma WorkerGrows(p: PodState, group: string)
    ensures GrowsQuietly(MutateWorker(p, group).pod, p)
  {
    var q := WorkerEnvs(p).pod;
    WorkerEnvsGrow(p);
    RunGrows(q, DropResource(QPU));
    GrowsThen(Run(q, DropResource(QPU)).pod, q, p);
  }

  lemma MemberStamps(ctx: Ctx, p: PodState, scout: bool)
    requires SharedGang(ctx, p)
    ensures Stamped(ctx, Member(ctx, p, scout).pod, p)
  {
    var q := Enrol(ctx, p).pod;
    EnrolGrows(ctx, p);
    if scout {
      ScoutGrows(ctx, q, ResolveGroup(ctx, p), Rehearsal(p));
    } else {
      WorkerGrows(q, ResolveGroup(ctx, p));
    }
    GrowsThen(Member(ctx, p, scout).pod, q, p);
  }

  lemma QuantumStamps(ctx: Ctx, p: PodState, groups: Groups)
    ensures Stamped(ctx, QuantumStep(ctx, p, groups).0.pod, p)
  {
    if SharedGang(ctx, p) {
      MemberStamps(ctx, p, Promoted(ctx, p, groups));
    } else {
      StandaloneStamps(ctx, p);
    }
  }

  // ---- over a dispatch ----

  /** Until the quantum handler runs, the pod reads as it came. */
  ghost predicate Untouched(q: PodState, p: PodState) {
    GrowsQuietly(q, p) && SameRequests(q, p)
  }

  lemma SameQpu(q: PodState, p: PodState)
    requires SameRequests(q, p) && AnyRequestsQpu(q)
    ensures AnyRequestsQpu(p)
  {
    var c :| c in q.containers && RequestsQpu(c);
    var i :| 0 <= i < |q.containers| && q.containers[i] == c;
    assert RequestsQpu(p.containers[i]) && p.containers[i] in p.containers;
  }

  lemma UntouchedReads(ctx: Ctx, q: PodState, p: PodState)
    requires Untouched(q, p)
    ensures AnyRequestsQpu(q) <==> AnyRequestsQpu(p)
    ensures Stamps(ctx, q) == Stamps(ctx, p)
  {
    if AnyRequestsQpu(q) {
      SameQpu(q, p);
    }
    if AnyRequestsQpu(p) {
      SameQpu(p, q);
    }
  }

  /** Whether the quantum handler has had its turn with a pod that concerns it. */
  predicate Quantized(order: seq<Handler>, p: PodState) {
    QuantumHandler in order && AnyRequestsQpu(p)
  }

  lemma StampedProtected(ctx: Ctx, q: PodState, p: PodState)
    requires Stamped(ctx, q, p)
    ensures Annotation(q, PROTECTED) == "quantum"
  {
    assert PROTECTED in Stamps(ctx, p) && Stamps(ctx, p)[PROTECTED] == Str("quantum");
  }

  lemma HandleTracks(h: Handler, order: seq<Handler>, ctx: Ctx, p: PodState, s: State)
    requires if Quantized(order, p) then Stamped(ctx, s.g.pod, p) else Untouched(s.g.pod, p)
    ensures var v := Handle(h, ctx, s);
            v.Admitted? ==> if Quantized(order + [h], p) then Stamped(ctx, v.s.g.pod, p) else Untouched(v.s.g.pod, p)
  {
    var q := s.g.pod;
    if Quantized(order, p) {
      StampedProtected(ctx, q, p);
    } else {
      UntouchedReads(ctx, q, p);
    }
    match h
    case FluxionHandler =>
      RunGrows(q, Inject(ctx.injected));
      GrowsThen(Run(q, Inject(ctx.injected)).pod, q, p);
    case GangHandler =>
    case QuantumHandler =>
      if Applies(h, q) && Admits(ctx, q, s.groups) {
        QuantumStamps(ctx, q, s.groups);
        GrowsThen(QuantumStep(ctx, q, s.groups).0.pod, q, p);
      }
  }

  lemma GrowsSelf(p: PodState)
    ensures Untouched(p, p)
  {
  }

  lemma {:induction false} DispatchTracks(order: seq<Handler>, ctx: Ctx, p: PodState, groups: Groups)
    ensures var v := Dispatch(order, ctx, State(Before(p), groups));
            v.Admitted? ==> if Quantized(order, p) then Stamped(ctx, v.s.g.pod, p) else Untouched(v.s.g.pod, p)
  {
    if order == [] {
      GrowsSelf(p);
    } else {
      var init := order[..|order| - 1];
      DispatchTracks(init, ctx, p, groups);
      var v := Dispatch(init, ctx, State(Before(p), groups));
      if v.Admitted? {
        assert order == init + [order[|order| - 1]];
        HandleTracks(order[|order| - 1], init, ctx, p, v.s);
      }
    }
  }

  /**
   * What any admitted pod keeps on the server, under any handler order: every container
   * with all it had but a qpu request, every volume, init container and gate, and its
   * annotations with the admission stamps over them, which no later operation replaces.
   */
  lemma NothingLost(doc: Json, order: seq<Handler>, ctx: Ctx, groups: Groups)
    requires Shaped(doc) && KeysOrdered(ctx)
    requires Dispatch(order, ctx, State(Before(Read(doc)), groups)).Admitted?
    ensures var p := Read(doc);
            var r := ApplyAll(doc, OpsOf(Dispatch(order, ctx, State(Before(p), groups)).s.g.edits));
            && r.Some?
            && var q := Read(r.value);
               && |p.containers| <= |q.containers|
               && (forall i :: 0 <= i < |p.containers| ==> Extends(q.containers[i], p.containers[i]))
               && (forall i :: |p.containers| <= i < |q.containers| ==> q.containers[i].name == SIDECAR)
               && p.volumes <= q.volumes && p.inits <= q.inits && p.gates <= q.gates
               && (if Quantized(order, p) then q.annotations.Some? && AgreeOutside(DEPENDENCY, q.annotations.value, Noted(p) + Stamps(ctx, p))
                   else AnnotationsAgree(q.annotations, p.annotations))
  {
    var p := Read(doc);
    PatchRefinesPod(doc, order, ctx, groups);
    DispatchTracks(order, ctx, p, groups);
    var v := Dispatch(order, ctx, State(Before(p), groups));
    var local := v.s.g.pod;
    assert Grows(local, p);
    var q := Read(ApplyAll(doc, OpsOf(v.s.g.edits)).value);
    forall i | 0 <= i < |p.containers| ensures Extends(q.containers[i], p.containers[i]) {
      assert q.containers[i] == local.containers[i] && Extends(local.containers[i], p.containers[i]);
    }
  }

  /** A submission that claims to be protected never gets past the quantum handler. */
  lemma {:induction false} ProtectedRefused(order: seq<Handler>, ctx: Ctx, p: PodState, groups: Groups)
    requires Quantized(order, p) && Annotation(p, PROTECTED) != ""
    ensures Dispatch(order, ctx, State(Before(p), groups)).Denied?
  {
    var init, h := order[..|order| - 1], order[|order| - 1];
    if QuantumHandler in init {
      ProtectedRefused(init, ctx, p, groups);
    } else {
      assert h == QuantumHandler;
      DispatchTracks(init, ctx, p, groups);
      var v := Dispatch(init, ctx, State(Before(p), groups));
      if v.Admitted? {
        UntouchedReads(ctx, v.s.g.pod, p);
      }
    }
  }
}
