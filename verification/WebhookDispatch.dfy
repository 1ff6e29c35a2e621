/**
 * The quantum and gang handlers and the dispatcher at work on one pod and the cluster's
 * pod groups, each proved to do what its function in Handlers says.
 */
module WebhookDispatch {
  import opened Vocabulary
  import opened Options
  import opened Text
  import opened Json
  import opened Patches
  import opened PodEdits
  import opened PodMirror
  import opened PodTasks
  import opened Handlers
  import opened WebhookPod

  const SCHEDULER_NAME := "fluence"

  class Cluster {
    var groups: Groups

    constructor ()
      ensures groups == map[]
    {
      groups := map[];
    }

    /** Creates the group unless it exists: the first writer wins. */
    method EnsurePodGroup(id: GroupId, minCount: int)
      modifies this
      ensures groups == Ensure(old(groups), id, minCount)
      ensures groups == if id in old(groups) then old(groups)
                        else old(groups)[id := GroupRecord(if minCount > 0 then minCount else 1, "")]
    {
      var n := minCount;
      if n <= 0 {
        n := 1;
      }
      if id in groups {
        return;
      }
      groups := groups[id := GroupRecord(n, "")];
    }

    /** Stamps the admitted total on the group once. */
    method RecordAdmission(id: GroupId, cores: int)
      modifies this
      ensures groups == Record(old(groups), id, cores)
      ensures groups.Keys == old(groups).Keys && forall k :: k in groups && k != id ==> groups[k] == old(groups)[k]
      ensures id in groups ==>
                && groups[id].minCount == old(groups)[id].minCount
                && groups[id].admitted == (if old(groups)[id].admitted == "" && cores > 0 then Dec(cores) else old(groups)[id].admitted)
    {
      if cores <= 0 || id !in groups {
        return;
      }
      if groups[id].admitted != "" {
        return;
      }
      groups := groups[id := groups[id].(admitted := Dec(cores))];
    }
  }

  /** What a step did: its operations, and the pod it left. */
  predicate Did(pod: Pod, ops: seq<Op>, g: Progress)
    reads pod
  {
    ops == OpsOf(g.edits) && pod.State() == g.pod
  }

  method RehearsalOps(pod: Pod, rehearsing: bool) returns (ops: seq<Op>)
    modifies pod`containers
    ensures Did(pod, ops, RehearsalStep(old(pod.State()), rehearsing))
  {
    if rehearsing {
      ops := pod.SetContainerEnvOps(REHEARSAL_ENV);
    } else {
      ops := [];
    }
  }

  /** The sidecar's variables: its own, then those borrowed from the first container. */
  method SidecarEnvs(ctx: Ctx, pod: Pod, observe: bool, extra: seq<Json>) returns (env: seq<Json>)
    ensures env == SidecarEnv(ctx, pod.State(), observe, extra)
  {
    env := [FieldEnv("FLUENCE_POD_UID", "metadata.uid"), FieldEnv("FLUENCE_POD_NAME", "metadata.name"),
            FieldEnv("FLUENCE_NAMESPACE", "metadata.namespace"),
            FieldEnv("FLUENCE_GROUP", "metadata.labels['" + GROUP_LABEL + "']")];
    env := env + ctx.injected;
    assert env + [] == env;
    if observe {
      env := env + [EnvVar("FLUENCE_OBSERVE", "true")];
    }
    env := env + extra;
    if |pod.containers| > 0 {
      var have, from := env, pod.containers[0].env;
      assert have + [] == have;
      for i := 0 to |from|
        invariant env == have + Borrowed(have, from[..i])
      {
        assert from[..i + 1][..|from[..i + 1]| - 1] == from[..i];
        var e := from[i];
        var source := Field(e, "valueFrom");
        if Named(have, NameOf(e)) || source == Null {
          continue;
        }
        if Field(source, "secretKeyRef").Obj? || Field(source, "configMapKeyRef").Obj? {
          env := env + [e];
        }
      }
      assert from[..|from|] == from;
    }
  }

  method SidecarContainerOps(ctx: Ctx, pod: Pod, observe: bool, extra: seq<Json>) returns (ops: seq<Op>)
    ensures Did(pod, ops, SidecarStep(ctx, pod.State(), observe, extra))
  {
    var env := SidecarEnvs(ctx, pod, observe, extra);
    var volumes, mounts := pod.volumes, [];
    for i := 0 to |volumes|
      invariant mounts == HandoffMounts(volumes[..i])
    {
      assert volumes[..i + 1][..|volumes[..i + 1]| - 1] == volumes[..i];
      if NameOf(volumes[i]) == HANDOFF_VOLUME {
        mounts := mounts + [HANDOFF_MOUNT];
      }
    }
    assert volumes[..|volumes|] == volumes;
    var sidecar := Sidecar(ctx, env, mounts);
    ops := [OpOf(Put(Containers, sidecar, |pod.containers| == 0))];
    var account := AsText(pod.serviceAccount);
    if account == "" || account == "default" {
      ops := ops + [OpOf(SetSpec(ServiceAccountName, Str(SIDECAR)))];
    }
  }

  method SubmitterOps(ctx: Ctx, pod: Pod) returns (ops: seq<Op>)
    modifies pod`volumes, pod`containers
    ensures Did(pod, ops, Submitter(ctx, old(pod.State())))
  {
    ghost var p := pod.State();
    ops := pod.InterceptorOps(ctx);
    ghost var g := Interceptor(ctx, p);
    var more := pod.HandoffOps();
    OpsOfConcat(g.edits, HandoffStep(g.pod).edits);
    ops := ops + more;
  }

  method MutateScout(ctx: Ctx, pod: Pod, cluster: Cluster, group: string, extra: seq<Json>) returns (ops: seq<Op>)
    modifies pod`volumes, pod`containers, cluster
    ensures Did(pod, ops, Handlers.MutateScout(ctx, old(pod.State()), group, extra))
    ensures cluster.groups == Ensure(old(cluster.groups), GroupId(ctx.ns, group + SCOUT_SUFFIX), 1)
  {
    ghost var p := pod.State();
    cluster.EnsurePodGroup(GroupId(ctx.ns, group + SCOUT_SUFFIX), 1);
    ops := OpsOf(LinkOps(pod.State(), group + SCOUT_SUFFIX));
    ghost var g1 := Progress(p, LinkOps(p, group + SCOUT_SUFFIX));
    var more := SubmitterOps(ctx, pod);
    OpsOfConcat(g1.edits, Submitter(ctx, p).edits);
    ghost var g2 := Then(g1, Submitter(ctx, p));
    ops := ops + more;
    more := pod.SetContainerEnvOps(RoleEnv("scout"));
    OpsOfConcat(g2.edits, Run(g2.pod, SetEnv(RoleEnv("scout"))).edits);
    ghost var g3 := Then(g2, Run(g2.pod, SetEnv(RoleEnv("scout"))));
    ops := ops + more;
    var envs := [EnvVar("FLUENCE_GANG_GROUP", group)] + extra;
    more := SidecarContainerOps(ctx, pod, false, envs);
    OpsOfConcat(g3.edits, SidecarStep(ctx, g3.pod, false, envs).edits);
    ops := ops + more;
  }

  method WorkerEnvOps(pod: Pod) returns (ops: seq<Op>)
    modifies pod`containers
    ensures Did(pod, ops, WorkerEnvs(old(pod.State())))
  {
    var job := AnnotationEnv("FLUENCE_QUANTUM_JOB_ID", "fluence.flux-framework.org/quantum-job-id");
    var session := AnnotationEnv("FLUENCE_QUANTUM_SESSION_ID", "fluence.flux-framework.org/quantum-session-id");
    ghost var g1 := Run(pod.State(), SetEnv(RoleEnv("worker")));
    ops := pod.SetContainerEnvOps(RoleEnv("worker"));
    var more := pod.SetContainerEnvOps(job);
    OpsOfConcat(g1.edits, Run(g1.pod, SetEnv(job)).edits);
    ghost var g2 := Then(g1, Run(g1.pod, SetEnv(job)));
    ops := ops + more;
    more := pod.SetContainerEnvOps(session);
    OpsOfConcat(g2.edits, Run(g2.pod, SetEnv(session)).edits);
    ops := ops + more;
  }

  method MutateWorker(ctx: Ctx, pod: Pod, cluster: Cluster, group: string, n: int) returns (ops: seq<Op>)
    modifies pod`containers, cluster
    ensures Did(pod, ops, Handlers.MutateWorker(old(pod.State()), group))
    ensures cluster.groups == Ensure(old(cluster.groups), GroupId(ctx.ns, group), n - 1)
  {
    ghost var p := pod.State();
    cluster.EnsurePodGroup(GroupId(ctx.ns, group), n - 1);
    var dep := Dependency("quantum-submit", group + SCOUT_SUFFIX, QUANTUM_GATE);
    ops := OpsOf(LinkOps(pod.State(), group)) + OpsOf(DependencyOps(pod.State(), dep));
    OpsOfConcat(LinkOps(p, group), DependencyOps(p, dep));
    ghost var g1 := Progress(p, LinkOps(p, group) + DependencyOps(p, dep));
    var more := WorkerEnvOps(pod);
    OpsOfConcat(g1.edits, WorkerEnvs(p).edits);
    ghost var g2 := Then(g1, WorkerEnvs(p));
    ops := ops + more;
    more := pod.DropQuantumResourceOps();
    OpsOfConcat(g2.edits, Run(g2.pod, DropResource(QPU)).edits);
    ops := ops + more;
  }

  method AdmissionOps(ctx: Ctx, pod: Pod, record: string, standaloneCores: int) returns (ops: seq<Op>)
    requires forall k :: k in AdmissionStamps(record, standaloneCores) ==> k in ctx.keyOrder
    modifies pod`annotations
    ensures Did(pod, ops, Stamp(old(pod.State()), AdmissionStamps(record, standaloneCores), ctx.keyOrder))
  {
    var ann := map[PROTECTED := Str("quantum"), ADMITTED_GROUP := Str(record)];
    if standaloneCores > 0 {
      ann := ann[ADMITTED_CORES := Str(Dec(standaloneCores))];
    }
    ops := pod.AnnotateOps(ann, ctx.keyOrder);
  }

  /** The part of a standalone pod's operations before the sidecar. */
  method SubmitAlone(ctx: Ctx, pod: Pod) returns (ops: seq<Op>)
    requires KeysOrdered(ctx)
    modifies pod
    ensures Did(pod, ops, Alone(ctx, old(pod.State())))
  {
    ghost var p := pod.State();
    var rehearsing := Rehearsing(pod.State());
    ops := AdmissionOps(ctx, pod, ctx.ns + "/" + ctx.name, ctx.cores);
    ghost var g1 := Stamp(p, AdmissionStamps(ctx.ns + "/" + ctx.name, ctx.cores), ctx.keyOrder);
    var more := SubmitterOps(ctx, pod);
    OpsOfConcat(g1.edits, Submitter(ctx, g1.pod).edits);
    ghost var g2 := Then(g1, Submitter(ctx, g1.pod));
    ops := ops + more;
    more := RehearsalOps(pod, rehearsing);
    OpsOfConcat(g2.edits, RehearsalStep(g2.pod, rehearsing).edits);
    ops := ops + more;
  }

  method MutateStandalone(ctx: Ctx, pod: Pod) returns (ops: seq<Op>)
    requires KeysOrdered(ctx)
    modifies pod
    ensures Did(pod, ops, Standalone(ctx, old(pod.State())))
  {
    var observe, extra := Label(pod.State(), OBSERVE) == "true", Rehearsal(pod.State());
    ghost var g := Alone(ctx, pod.State());
    ops := SubmitAlone(ctx, pod);
    if observe {
      var more := SidecarContainerOps(ctx, pod, true, extra);
      OpsOfConcat(g.edits, SidecarStep(ctx, g.pod, true, extra).edits);
      ops := ops + more;
    }
  }

  method EnrolOps(ctx: Ctx, pod: Pod) returns (ops: seq<Op>)
    requires KeysOrdered(ctx)
    modifies pod`annotations, pod`containers
    ensures Did(pod, ops, Enrol(ctx, old(pod.State())))
  {
    ghost var p := pod.State();
    var record, rehearsing := ctx.ns + "/" + ResolveGroup(ctx, pod.State()), Rehearsing(pod.State());
    ops := AdmissionOps(ctx, pod, record, 0);
    ghost var g := Stamp(p, AdmissionStamps(record, 0), ctx.keyOrder);
    var more := RehearsalOps(pod, rehearsing);
    OpsOfConcat(g.edits, RehearsalStep(g.pod, rehearsing).edits);
    ops := ops + more;
  }

  /** A member's role operations, once it is known whether it is the scout. */
  method RoleOps(ctx: Ctx, pod: Pod, cluster: Cluster, group: string, n: int, extra: seq<Json>, scout: bool) returns (ops: seq<Op>)
    modifies pod, cluster
    ensures Did(pod, ops, Role(ctx, old(pod.State()), group, extra, scout))
    ensures cluster.groups == RoleGroups(ctx, old(cluster.groups), group, n, scout)
  {
    if scout {
      ops := MutateScout(ctx, pod, cluster, group, extra);
    } else {
      ops := MutateWorker(ctx, pod, cluster, group, n);
    }
  }

  method MutateMember(ctx: Ctx, pod: Pod, cluster: Cluster) returns (ops: seq<Op>)
    requires KeysOrdered(ctx) && SharedGang(ctx, pod.State())
    modifies pod, cluster
    ensures Did(pod, ops, Member(ctx, old(pod.State()), Promoted(ctx, old(pod.State()), old(cluster.groups))))
    ensures cluster.groups ==
            RoleGroups(ctx, EnrolGroups(ctx, old(pod.State()), old(cluster.groups)), ResolveGroup(ctx, old(pod.State())),
                       GangSize(ctx, old(pod.State())), Promoted(ctx, old(pod.State()), old(cluster.groups)))
  {
    ghost var p := pod.State();
    var group, n, extra := ResolveGroup(ctx, pod.State()), GangSize(ctx, pod.State()), Rehearsal(pod.State());
    cluster.EnsurePodGroup(GroupId(ctx.ns, group), n - 1);
    cluster.RecordAdmission(GroupId(ctx.ns, group), ctx.cores * n);
    assert cluster.groups == EnrolGroups(ctx, p, old(cluster.groups));
    ops := EnrolOps(ctx, pod);
    ghost var g := Enrol(ctx, p);
    var scout := IsScout(ctx, pod.State(), group, cluster.groups);
    assert scout == Promoted(ctx, p, old(cluster.groups));
    var more := RoleOps(ctx, pod, cluster, group, n, extra, scout);
    OpsOfConcat(g.edits, Role(ctx, g.pod, group, extra, scout).edits);
    ops := ops + more;
  }

  method MutateQuantum(ctx: Ctx, pod: Pod, cluster: Cluster) returns (ops: seq<Op>)
    requires KeysOrdered(ctx)
    modifies pod, cluster
    ensures Did(pod, ops, QuantumStep(ctx, old(pod.State()), old(cluster.groups)).0)
    ensures cluster.groups == QuantumStep(ctx, old(pod.State()), old(cluster.groups)).1
  {
    if SharedGang(ctx, pod.State()) {
      ops := MutateMember(ctx, pod, cluster);
    } else {
      ops := MutateStandalone(ctx, pod);
    }
  }

  /** The outcome of a dispatch: the operations, or none when the pod is refused. */
  predicate Decided(pod: Pod, cluster: Cluster, r: Option<seq<Op>>, v: Verdict)
    reads pod, cluster
  {
    match v
    case Denied(groups) => r.None? && cluster.groups == groups
    case Admitted(s) => r == Some(OpsOf(s.g.edits)) && pod.State() == s.g.pod && cluster.groups == s.groups
  }

  /** One handler's turn, given the operations so far. */
  method Turn(h: Handler, ctx: Ctx, pod: Pod, cluster: Cluster, ghost s: State) returns (r: Option<seq<Op>>)
    requires KeysOrdered(ctx) && pod.State() == s.g.pod && cluster.groups == s.groups
    modifies pod, cluster
    ensures Handle(h, ctx, s).Denied? <==> r.None?
    ensures r.Some? ==> OpsOf(Handle(h, ctx, s).s.g.edits) == OpsOf(s.g.edits) + r.value
                        && pod.State() == Handle(h, ctx, s).s.g.pod && cluster.groups == Handle(h, ctx, s).s.groups
    ensures r.None? ==> cluster.groups == s.groups
  {
    ghost var p := s.g.pod;
    var ops := [];
    if Applies(h, pod.State()) {
      match h {
        case FluxionHandler =>
          ops := pod.InjectEnvOps(ctx.injected);
          OpsOfConcat(s.g.edits, Run(p, Inject(ctx.injected)).edits);
        case QuantumHandler =>
          if !Admits(ctx, pod.State(), cluster.groups) {
            return None;
          }
          ops := MutateQuantum(ctx, pod, cluster);
          OpsOfConcat(s.g.edits, QuantumStep(ctx, p, s.groups).0.edits);
        case GangHandler =>
          var group := Label(pod.State(), GROUP_LABEL);
          cluster.EnsurePodGroup(GroupId(ctx.ns, group), MinCount(ctx, pod.State()));
          ops := OpsOf(SchedulingGroupOps(pod.State(), group));
          OpsOfConcat(s.g.edits, SchedulingGroupOps(p, group));
      }
    }
    r := Some(ops);
  }

  /** The handlers in order over one pod, for a pod that is Fluence's to schedule. */
  method RunHandlers(order: seq<Handler>, ctx: Ctx, pod: Pod, cluster: Cluster) returns (r: Option<seq<Op>>)
    requires KeysOrdered(ctx)
    modifies pod, cluster
    ensures Decided(pod, cluster, r, Dispatch(order, ctx, State(Before(old(pod.State())), old(cluster.groups))))
  {
    ghost var start := State(Before(pod.State()), cluster.groups);
    var ops := [];
    assert OpsOf([]) == [];
    for i := 0 to |order|
      invariant Decided(pod, cluster, Some(ops), Dispatch(order[..i], ctx, start))
    {
      ghost var s := Dispatch(order[..i], ctx, start).s;
      assert order[..i + 1][..|order[..i + 1]| - 1] == order[..i];
      var more := Turn(order[i], ctx, pod, cluster, s);
      if more.None? {
        DeniedStays(order, i + 1, ctx, start);
        return None;
      }
      ops := ops + more.value;
    }
    assert order[..|order|] == order;
    r := Some(ops);
  }

  /** A pod another scheduler is to place is left alone. */
  method MutateOrDeny(order: seq<Handler>, ctx: Ctx, schedulerName: string, pod: Pod, cluster: Cluster) returns (r: Option<seq<Op>>)
    requires KeysOrdered(ctx)
    modifies pod, cluster
    ensures schedulerName != SCHEDULER_NAME ==> r == Some([]) && pod.State() == old(pod.State()) && cluster.groups == old(cluster.groups)
    ensures schedulerName == SCHEDULER_NAME ==>
              Decided(pod, cluster, r, Dispatch(order, ctx, State(Before(old(pod.State())), old(cluster.groups))))
  {
    if schedulerName != SCHEDULER_NAME {
      return Some([]);
    }
    r := RunHandlers(order, ctx, pod, cluster);
  }

  lemma {:induction false} DeniedStays(order: seq<Handler>, i: nat, ctx: Ctx, start: State)
    requires i <= |order| && Dispatch(order[..i], ctx, start).Denied?
    ensures Dispatch(order, ctx, start) == Dispatch(order[..i], ctx, start)
  {
    if i == |order| {
      assert order[..i] == order;
    } else {
      var init := order[..|order| - 1];
      assert init[..i] == order[..i];
      DeniedStays(init, i, ctx, start);
    }
  }
}
