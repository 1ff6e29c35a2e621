/**
 * The patch every admission produces: whatever the pod, the handler order and the
 * cluster, its operations apply one after another and leave the server with the pod the
 * webhook has, and no stamp is lost on the way.
 */
module HandlerPatches {
  import opened Vocabulary
  import opened Options
  import opened Json
  import opened Patches
  import opened PodEdits
  import opened PodMirror
  import opened PodTasks
  import opened Handlers

  /** A step's operations are the ones its pod calls for, and repeat on it as the step says. */
  predicate Right(p: PodState, g: Progress) {
    Runs(g.edits, p, g.pod)
  }

  lemma ThenRight(p: PodState, g: Progress, h: Progress)
    requires Right(p, g) && Right(g.pod, h)
    ensures Right(p, Then(g, h))
  {
    RunsThen(g.edits, h.edits, p, g.pod, h.pod);
  }

  lemma BeforeRight(p: PodState)
    ensures Right(p, Before(p))
  {
  }

  lemma RunRight(p: PodState, t: Task)
    ensures Right(p, Run(p, t))
  {
    TaskOpsRun(p, t);
  }

  /** A single operation the webhook does not repeat. */
  lemma UnseenRight(p: PodState, e: Edit)
    requires Chosen(e, p) && !Mirrored(e)
    ensures Right(p, Progress(p, [e]))
  {
    OneChosen(e, p);
  }

  lemma UnseenThen(p: PodState, a: seq<Edit>, b: seq<Edit>)
    requires Right(p, Progress(p, a)) && Right(p, Progress(p, b))
    ensures Right(p, Progress(p, a + b))
  {
    ThenRight(p, Progress(p, a), Progress(p, b));
  }

  // ---- stamping ----

  lemma {:induction false} StampOpsRun(p: PodState, ann: map<string, Json>, keys: seq<string>)
    requires p.annotations.Some? && ann.Keys !! DEPENDENCY
    ensures Runs(StampOps(ann, keys), p, p.(annotations := Some(p.annotations.value + Picked(ann, keys))))
  {
    if keys == [] {
      assert Picked(ann, keys) == map[];
      assert p.annotations.value + map[] == p.annotations.value;
    } else {
      var init, k := keys[..|keys| - 1], keys[|keys| - 1];
      StampOpsRun(p, ann, init);
      var mid := p.(annotations := Some(p.annotations.value + Picked(ann, init)));
      if k in ann {
        OneChosen(SetKey(Annotations, k, ann[k]), mid);
        PickedMore(p.annotations.value, ann, init, k);
        assert init + [k] == keys;
        RunsThen(StampOps(ann, init), [SetKey(Annotations, k, ann[k])], p, mid, p.(annotations := Some(p.annotations.value + Picked(ann, keys))));
      } else {
        PickedMore(p.annotations.value, ann, init, k);
        assert init + [k] == keys;
        assert StampOps(ann, keys) == StampOps(ann, init);
      }
    }
  }

  /** Stamping gives the same annotations whatever order the map is walked in. */
  lemma StampRight(p: PodState, ann: map<string, Json>, keys: seq<string>)
    requires ann.Keys !! DEPENDENCY && forall k :: k in ann ==> k in keys
    ensures Right(p, Stamp(p, ann, keys))
  {
    if p.annotations.None? {
      OneChosen(NewMap(Annotations, ann), p);
      assert map[] + ann == ann;
    } else {
      StampOpsRun(p, ann, keys);
      assert Picked(ann, keys) == ann;
    }
  }

  lemma AdmissionStampsFit(ctx: Ctx, record: string, cores: int)
    requires KeysOrdered(ctx)
    ensures var ann := AdmissionStamps(record, cores);
            ann.Keys <= {PROTECTED, ADMITTED_GROUP, ADMITTED_CORES} && ann.Keys !! DEPENDENCY && forall k :: k in ann ==> k in ctx.keyOrder
  {
    var at := |"fluence.flux-framework.org/"|;
    assert PROTECTED[at] == 'p' && ADMITTED_GROUP[at] == 'a' && ADMITTED_CORES[at] == 'a';
    assert DEPENDS_ON_KIND[at] == 'd' && DEPENDS_ON_SCOUT[at] == 'd' && DEPENDS_ON_GATE[at] == 'd';
  }

  // ---- each step ----

  lemma AddVolumeRight(p: PodState, name: string)
    ensures Right(p, AddVolume(p, name))
  {
    OneChosen(Put(Volumes, EmptyDir(name), p.volumes == []), p);
    assert p.volumes == [] ==> p.volumes + [EmptyDir(name)] == [EmptyDir(name)];
  }

  lemma InterceptorRight(ctx: Ctx, p: PodState)
    ensures Right(p, Interceptor(ctx, p))
  {
    var g := AddVolume(p, STAGE_VOLUME);
    AddVolumeRight(p, STAGE_VOLUME);
    var init := Put(Inits, InitContainer(ctx), p.inits == []);
    UnseenRight(g.pod, init);
    ThenRight(p, g, Progress(g.pod, [init]));
    RunRight(g.pod, Stage);
    ThenRight(p, Then(g, Progress(g.pod, [init])), Run(g.pod, Stage));
  }

  lemma HandoffRight(p: PodState)
    ensures Right(p, HandoffStep(p))
  {
    if Named(p.volumes, HANDOFF_VOLUME) {
      BeforeRight(p);
    } else {
      var g := AddVolume(p, HANDOFF_VOLUME);
      AddVolumeRight(p, HANDOFF_VOLUME);
      RunRight(g.pod, Handoff);
      ThenRight(p, g, Run(g.pod, Handoff));
      var h := Then(g, Run(g.pod, Handoff));
      RunRight(h.pod, SetEnv(EnvVar(HANDOFF_DIR_ENV, HANDOFF_PATH)));
      ThenRight(p, h, Run(h.pod, SetEnv(EnvVar(HANDOFF_DIR_ENV, HANDOFF_PATH))));
    }
  }

  lemma RehearsalRight(p: PodState, rehearsing: bool)
    ensures Right(p, RehearsalStep(p, rehearsing))
  {
    if rehearsing {
      RunRight(p, SetEnv(REHEARSAL_ENV));
    } else {
      BeforeRight(p);
    }
  }

  lemma SidecarNamed(ctx: Ctx, p: PodState, observe: bool, extra: seq<Json>)
    ensures SidecarContainer(ctx, p, observe, extra).Obj? && ReadContainer(SidecarContainer(ctx, p, observe, extra)).name == SIDECAR
  {
  }

  lemma SidecarRight(ctx: Ctx, p: PodState, observe: bool, extra: seq<Json>)
    ensures Right(p, SidecarStep(ctx, p, observe, extra))
  {
    SidecarNamed(ctx, p, observe, extra);
    UnseenRight(p, Put(Containers, SidecarContainer(ctx, p, observe, extra), p.containers == []));
    UnseenRight(p, SetSpec(ServiceAccountName, Str(SIDECAR)));
    BeforeRight(p);
    var account := AsText(p.serviceAccount);
    UnseenThen(p, [Put(Containers, SidecarContainer(ctx, p, observe, extra), p.containers == [])],
               if account == "" || account == "default" then [SetSpec(ServiceAccountName, Str(SIDECAR))] else []);
  }

  lemma LinkRight(p: PodState, group: string)
    ensures Right(p, Progress(p, SchedulingGroupOps(p, group))) && Right(p, Progress(p, LinkOps(p, group)))
  {
    BeforeRight(p);
    UnseenRight(p, SetSpec(SchedulingGroup, GroupLink(group)));
    if Label(p, GROUP_LABEL) == group {
      UnseenThen(p, [], SchedulingGroupOps(p, group));
    } else if p.labels.None? {
      UnseenRight(p, NewMap(Labels, map[GROUP_LABEL := Str(group)]));
      UnseenThen(p, [NewMap(Labels, map[GROUP_LABEL := Str(group)])], SchedulingGroupOps(p, group));
    } else {
      UnseenRight(p, SetKey(Labels, GROUP_LABEL, Str(group)));
      UnseenThen(p, [SetKey(Labels, GROUP_LABEL, Str(group))], SchedulingGroupOps(p, group));
    }
  }

  lemma GateRight(p: PodState, gate: string)
    ensures Right(p, Progress(p, GateOps(p, gate)))
  {
    BeforeRight(p);
    if !Named(p.gates, gate) {
      UnseenRight(p, Put(Gates, Gate(gate), p.gates == []));
      UnseenRight(p, SetSpec(PriorityClassName, Str(PRIORITY_CLASS)));
      UnseenRight(p, SetSpec(Priority, Null));
      UnseenThen(p, [SetSpec(PriorityClassName, Str(PRIORITY_CLASS))], [SetSpec(Priority, Null)]);
      assert [SetSpec(PriorityClassName, Str(PRIORITY_CLASS))] + [SetSpec(Priority, Null)] ==
             [SetSpec(PriorityClassName, Str(PRIORITY_CLASS)), SetSpec(Priority, Null)];
      UnseenThen(p, [Put(Gates, Gate(gate), p.gates == [])],
                 if AsText(p.priorityClass) == "" then [SetSpec(PriorityClassName, Str(PRIORITY_CLASS)), SetSpec(Priority, Null)] else []);
    }
  }

  /** A dependency key is written alone, never with the whole map: the stamps came first. */
  lemma AnnotateRight(p: PodState, k: string, v: string)
    requires p.annotations.Some? && k in DEPENDENCY
    ensures Right(p, Progress(p, AnnotateOp(p, k, v)))
  {
    BeforeRight(p);
    UnseenRight(p, SetKey(Annotations, k, Str(v)));
  }

  lemma DependencyRight(p: PodState, d: Dependency)
    requires p.annotations.Some?
    ensures Right(p, Progress(p, DependencyOps(p, d)))
  {
    GateRight(p, d.gate);
    AnnotateRight(p, DEPENDS_ON_KIND, d.kind);
    AnnotateRight(p, DEPENDS_ON_SCOUT, d.scout);
    AnnotateRight(p, DEPENDS_ON_GATE, d.gate);
    var a := GateOps(p, d.gate) + AnnotateOp(p, DEPENDS_ON_KIND, d.kind);
    UnseenThen(p, GateOps(p, d.gate), AnnotateOp(p, DEPENDS_ON_KIND, d.kind));
    UnseenThen(p, a, AnnotateOp(p, DEPENDS_ON_SCOUT, d.scout));
    UnseenThen(p, a + AnnotateOp(p, DEPENDS_ON_SCOUT, d.scout), AnnotateOp(p, DEPENDS_ON_GATE, d.gate));
  }

  // ---- the quantum handler ----

  lemma SubmitterRight(ctx: Ctx, p: PodState)
    ensures Right(p, Submitter(ctx, p))
  {
    var g := Interceptor(ctx, p);
    InterceptorRight(ctx, p);
    HandoffRight(g.pod);
    ThenRight(p, g, HandoffStep(g.pod));
  }

  lemma AloneRight(ctx: Ctx, p: PodState)
    requires KeysOrdered(ctx)
    ensures Right(p, Alone(ctx, p))
  {
    var record := ctx.ns + "/" + ctx.name;
    AdmissionStampsFit(ctx, record, ctx.cores);
    var g1 := Stamp(p, AdmissionStamps(record, ctx.cores), ctx.keyOrder);
    StampRight(p, AdmissionStamps(record, ctx.cores), ctx.keyOrder);
    SubmitterRight(ctx, g1.pod);
    var g2 := Then(g1, Submitter(ctx, g1.pod));
    ThenRight(p, g1, Submitter(ctx, g1.pod));
    RehearsalRight(g2.pod, Rehearsing(p));
    ThenRight(p, g2, RehearsalStep(g2.pod, Rehearsing(p)));
  }

  lemma StandaloneRight(ctx: Ctx, p: PodState)
    requires KeysOrdered(ctx)
    ensures Right(p, Standalone(ctx, p))
  {
    var g := Alone(ctx, p);
    AloneRight(ctx, p);
    SidecarRight(ctx, g.pod, true, Rehearsal(p));
    ThenRight(p, g, SidecarStep(ctx, g.pod, true, Rehearsal(p)));
  }

  lemma ScoutRight(ctx: Ctx, p: PodState, group: string, extra: seq<Json>)
    ensures Right(p, MutateScout(ctx, p, group, extra))
  {
    var g1 := Progress(p, LinkOps(p, group + SCOUT_SUFFIX));
    LinkRight(p, group + SCOUT_SUFFIX);
    SubmitterRight(ctx, g1.pod);
    var g2 := Then(g1, Submitter(ctx, g1.pod));
    ThenRight(p, g1, Submitter(ctx, g1.pod));
    RunRight(g2.pod, SetEnv(RoleEnv("scout")));
    var g3 := Then(g2, Run(g2.pod, SetEnv(RoleEnv("scout"))));
    ThenRight(p, g2, Run(g2.pod, SetEnv(RoleEnv("scout"))));
    var envs := [EnvVar("FLUENCE_GANG_GROUP", group)] + extra;
    SidecarRight(ctx, g3.pod, false, envs);
    ThenRight(p, g3, SidecarStep(ctx, g3.pod, false, envs));
  }

  lemma WorkerEnvsRight(p: PodState)
    ensures Right(p, WorkerEnvs(p))
  {
    var role := SetEnv(RoleEnv("worker"));
    var job := SetEnv(AnnotationEnv("FLUENCE_QUANTUM_JOB_ID", "fluence.flux-framework.org/quantum-job-id"));
    var session := SetEnv(AnnotationEnv("FLUENCE_QUANTUM_SESSION_ID", "fluence.flux-framework.org/quantum-session-id"));
    var g1 := Run(p, role);
    RunRight(p, role);
    RunRight(g1.pod, job);
    ThenRight(p, g1, Run(g1.pod, job));
    var g2 := Then(g1, Run(g1.pod, job));
    RunRight(g2.pod, session);
    ThenRight(p, g2, Run(g2.pod, session));
  }

  lemma WorkerRight(p: PodState, group: string)
    requires p.annotations.Some?
    ensures Right(p, MutateWorker(p, group))
  {
    var dep := WaitForScout(group);
    LinkRight(p, group);
    DependencyRight(p, dep);
    var g1 := Progress(p, LinkOps(p, group) + DependencyOps(p, dep));
    UnseenThen(p, LinkOps(p, group), DependencyOps(p, dep));
    WorkerEnvsRight(p);
    var g2 := Then(g1, WorkerEnvs(p));
    ThenRight(p, g1, WorkerEnvs(p));
    RunRight(g2.pod, DropResource(QPU));
    ThenRight(p, g2, Run(g2.pod, DropResource(QPU)));
  }

  lemma EnrolRight(ctx: Ctx, p: PodState)
    requires KeysOrdered(ctx)
    ensures Right(p, Enrol(ctx, p)) && Enrol(ctx, p).pod.annotations.Some?
  {
    var record := ctx.ns + "/" + ResolveGroup(ctx, p);
    AdmissionStampsFit(ctx, record, 0);
    var g := Stamp(p, AdmissionStamps(record, 0), ctx.keyOrder);
    StampRight(p, AdmissionStamps(record, 0), ctx.keyOrder);
    RehearsalRight(g.pod, Rehearsing(p));
    ThenRight(p, g, RehearsalStep(g.pod, Rehearsing(p)));
  }

  lemma MemberRight(ctx: Ctx, p: PodState, scout: bool)
    requires KeysOrdered(ctx)
    ensures Right(p, Member(ctx, p, scout))
  {
    var g, group := Enrol(ctx, p), ResolveGroup(ctx, p);
    EnrolRight(ctx, p);
    if scout {
      ScoutRight(ctx, g.pod, group, Rehearsal(p));
      ThenRight(p, g, MutateScout(ctx, g.pod, group, Rehearsal(p)));
    } else {
      WorkerRight(g.pod, group);
      ThenRight(p, g, MutateWorker(g.pod, group));
    }
  }

  // ---- the whole dispatch ----

  lemma HandleRight(h: Handler, ctx: Ctx, p: PodState, s: State)
    requires KeysOrdered(ctx) && Right(p, s.g)
    ensures Handle(h, ctx, s).Admitted? ==> Right(p, Handle(h, ctx, s).s.g)
  {
    var q := s.g.pod;
    if Applies(h, q) {
      match h
      case FluxionHandler =>
        RunRight(q, Inject(ctx.injected));
        ThenRight(p, s.g, Run(q, Inject(ctx.injected)));
      case QuantumHandler =>
        if Admits(ctx, q, s.groups) {
          if SharedGang(ctx, q) {
            MemberRight(ctx, q, Promoted(ctx, q, s.groups));
            ThenRight(p, s.g, QuantumStep(ctx, q, s.groups).0);
          } else {
            StandaloneRight(ctx, q);
            ThenRight(p, s.g, Standalone(ctx, q));
          }
        }
      case GangHandler =>
        LinkRight(q, Label(q, GROUP_LABEL));
        ThenRight(p, s.g, Progress(q, SchedulingGroupOps(q, Label(q, GROUP_LABEL))));
    }
  }

  lemma {:induction false} DispatchRight(order: seq<Handler>, ctx: Ctx, p: PodState, groups: Groups)
    requires KeysOrdered(ctx)
    ensures var v := Dispatch(order, ctx, State(Before(p), groups)); v.Admitted? ==> Right(p, v.s.g)
  {
    if order == [] {
      BeforeRight(p);
    } else {
      DispatchRight(order[..|order| - 1], ctx, p, groups);
      var v := Dispatch(order[..|order| - 1], ctx, State(Before(p), groups));
      if v.Admitted? {
        HandleRight(order[|order| - 1], ctx, p, v.s);
      }
    }
  }

  /**
   * The patch of any admission applies to the document the pod was decoded from,
   * operation by operation, and what the server then has agrees with the webhook's pod:
   * the same volumes, the same containers but for sidecars at the end, and the same
   * annotations and labels but for the keys only the server is given.
   */
  lemma PatchRefinesPod(doc: Json, order: seq<Handler>, ctx: Ctx, groups: Groups)
    requires Shaped(doc) && KeysOrdered(ctx)
    ensures var v := Dispatch(order, ctx, State(Before(Read(doc)), groups));
            v.Admitted? ==>
              var r := ApplyAll(doc, OpsOf(v.s.g.edits));
              && r.Some? && Shaped(r.value) && Agree(Read(r.value), v.s.g.pod)
              && Read(r.value) == DoAll(v.s.g.edits, Read(doc))
  {
    DispatchRight(order, ctx, Read(doc), groups);
    var v := Dispatch(order, ctx, State(Before(Read(doc)), groups));
    if v.Admitted? {
      PatchAgrees(doc, v.s.g.edits);
    }
  }
}
