/** What a member of a shared gang looks like on the server, once it is scout or worker. */
module GangRoles {
  import opened Vocabulary
  import opened Options
  import opened Json
  import opened PodEdits
  import opened PodMirror
  import opened PodTasks
  import opened Handlers

  // ---- parts of a pod most edits leave alone ----

  datatype Aspect = GatesOf | GroupOf | SizeOf | InitsOf | AccountOf | ClassOf | PriorityOf | NoteOf(key: string) | LabelOf(key: string)

  function Entry(m: Option<map<string, Json>>, k: string): Json {
    if m.Some? && k in m.value then m.value[k] else Null
  }

  function View(p: PodState, a: Aspect): Json {
    match a
    case GatesOf => Arr(p.gates)
    case GroupOf => p.group
    case SizeOf => Num(|p.containers|)
    case InitsOf => Arr(p.inits)
    case AccountOf => p.serviceAccount
    case ClassOf => p.priorityClass
    case PriorityOf => p.priority
    case NoteOf(k) => Entry(p.annotations, k)
    case LabelOf(k) => Entry(p.labels, k)
  }

  predicate Quiet(e: Edit, a: Aspect) {
    match a
    case GatesOf => !(e.Put? && e.list.Gates?)
    case GroupOf => !(e.SetSpec? && e.field.SchedulingGroup?)
    case SizeOf => !(e.Put? && e.list.Containers?)
    case InitsOf => !(e.Put? && e.list.Inits?)
    case AccountOf => !(e.SetSpec? && e.field.ServiceAccountName?)
    case ClassOf => !(e.SetSpec? && e.field.PriorityClassName?)
    case PriorityOf => !(e.SetSpec? && e.field.Priority?)
    case NoteOf(k) => !(e.NewMap? && e.which.Annotations?) && !(e.SetKey? && e.which.Annotations? && e.key == k)
    case LabelOf(k) => !(e.NewMap? && e.which.Labels?) && !(e.SetKey? && e.which.Labels? && e.key == k)
  }

  predicate AllQuiet(es: seq<Edit>, a: Aspect) {
    forall i :: 0 <= i < |es| ==> Quiet(es[i], a)
  }

  /** Edits that stay within containers. */
  predicate Inside(es: seq<Edit>) {
    forall i :: 0 <= i < |es| ==> es[i].Within?
  }

  lemma QuietKeepsOne(e: Edit, p: PodState, a: Aspect)
    requires Quiet(e, a)
    ensures View(Do(e, p), a) == View(p, a)
    ensures p.annotations.Some? ==> Do(e, p).annotations.Some?
  {
  }

  lemma {:induction false} QuietKeeps(es: seq<Edit>, p: PodState, a: Aspect)
    requires AllQuiet(es, a)
    ensures View(DoAll(es, p), a) == View(p, a)
    ensures p.annotations.Some? ==> DoAll(es, p).annotations.Some?
  {
    if es != [] {
      QuietKeeps(es[..|es| - 1], p, a);
      QuietKeepsOne(es[|es| - 1], DoAll(es[..|es| - 1], p), a);
    }
  }

  lemma {:induction false} SpreadInside(cs: seq<Container>, n: nat, t: Task)
    requires n <= |cs|
    ensures Inside(Spread(cs, n, t))
  {
    if n > 0 {
      SpreadInside(cs, n - 1, t);
    }
  }

  lemma RunInside(p: PodState, t: Task)
    ensures Inside(Run(p, t).edits)
  {
    SpreadInside(p.containers, |p.containers|, t);
  }

  lemma DoOne(e: Edit, p: PodState)
    ensures DoAll([e], p) == Do(e, p) && DoAll([], p) == p
  {
    assert [e][..0] == [];
  }

  // ---- the role variable ----

  predicate RoleIs(c: Container, role: string) {
    RoleEnv(role) in c.env && forall e :: e in c.env && NameOf(e) == ROLE_ENV ==> e == RoleEnv(role)
  }

  /** A task that does not define the role. */
  predicate Bystander(t: Task) {
    match t
    case Inject(envs) => forall e :: e in envs ==> NameOf(e) != ROLE_ENV
    case SetEnv(e) => NameOf(e) != ROLE_ENV
    case _ => true
  }

  lemma StageBystander()
    ensures forall e :: e in STAGE_ENVS ==> NameOf(e) != ROLE_ENV
  {
    assert |ROLE_ENV| == 25;
  }

  lemma BystanderKeeps(t: Task, c: Container)
    requires Bystander(t)
    ensures c.env <= After(t, c).env && forall e :: e in After(t, c).env && NameOf(e) == ROLE_ENV ==> e in c.env
  {
    StageBystander();
    match t
    case Inject(envs) => MissingNames(c, envs);
    case SetEnv(e) => MissingNames(c, [e]);
    case Stage => MissingNames(c, STAGE_ENVS);
    case _ =>
  }

  /** Workload containers all have the role, or none defines one. */
  predicate AllRoles(cs: seq<Container>, role: string) {
    forall i :: 0 <= i < |cs| && cs[i].name != SIDECAR ==> RoleIs(cs[i], role)
  }

  predicate NoRoles(cs: seq<Container>) {
    forall i :: 0 <= i < |cs| && cs[i].name != SIDECAR ==> !Named(cs[i].env, ROLE_ENV)
  }

  lemma NotNamed(c: Container)
    ensures !Named(c.env, ROLE_ENV) <==> forall e :: e in c.env ==> NameOf(e) != ROLE_ENV
  {
  }

  lemma BystanderRoles(cs: seq<Container>, t: Task, role: string)
    requires Bystander(t)
    ensures NoRoles(cs) ==> NoRoles(AfterAll(cs, t))
    ensures AllRoles(cs, role) ==> AllRoles(AfterAll(cs, t), role)
  {
    forall i | 0 <= i < |cs|
      ensures After(t, cs[i]).name == cs[i].name
      ensures !Named(cs[i].env, ROLE_ENV) ==> !Named(After(t, cs[i]).env, ROLE_ENV)
      ensures RoleIs(cs[i], role) ==> RoleIs(After(t, cs[i]), role)
    {
      BystanderKeeps(t, cs[i]);
      NotNamed(cs[i]);
      NotNamed(After(t, cs[i]));
    }
  }

  lemma RoleGiven(cs: seq<Container>, role: string)
    requires NoRoles(cs)
    ensures AllRoles(AfterAll(cs, SetEnv(RoleEnv(role))), role)
  {
    forall i | 0 <= i < |cs| && cs[i].name != SIDECAR ensures RoleIs(After(SetEnv(RoleEnv(role)), cs[i]), role) {
      SetEnvNames(cs[i], RoleEnv(role));
      NotNamed(cs[i]);
    }
  }

  lemma SubmitterRoles(ctx: Ctx, p: PodState)
    requires NoRoles(p.containers)
    ensures NoRoles(Submitter(ctx, p).pod.containers)
  {
    assert |ROLE_ENV| == 25 && |HANDOFF_DIR_ENV| == 19;
    var dir := SetEnv(EnvVar(HANDOFF_DIR_ENV, HANDOFF_PATH));
    BystanderRoles(p.containers, Stage, "");
    var staged := AfterAll(p.containers, Stage);
    BystanderRoles(staged, Handoff, "");
    BystanderRoles(AfterAll(staged, Handoff), dir, "");
  }

  lemma ScoutRoles(ctx: Ctx, p: PodState, group: string, extra: seq<Json>)
    requires NoRoles(p.containers)
    ensures AllRoles(MutateScout(ctx, p, group, extra).pod.containers, "scout")
  {
    SubmitterRoles(ctx, p);
    RoleGiven(Submitter(ctx, p).pod.containers, "scout");
  }

  const JOB_ENV := AnnotationEnv("FLUENCE_QUANTUM_JOB_ID", "fluence.flux-framework.org/quantum-job-id")
  const SESSION_ENV := AnnotationEnv("FLUENCE_QUANTUM_SESSION_ID", "fluence.flux-framework.org/quantum-session-id")

  lemma IdEnvsBystand()
    ensures NameOf(JOB_ENV) != ROLE_ENV && NameOf(SESSION_ENV) != ROLE_ENV
  {
    assert |ROLE_ENV| == 25 && |NameOf(JOB_ENV)| == 22;
    assert NameOf(SESSION_ENV)[8] == 'Q' && ROLE_ENV[8] == 'C';
  }

  lemma WorkerRoles(p: PodState, group: string)
    requires NoRoles(p.containers)
    ensures AllRoles(MutateWorker(p, group).pod.containers, "worker")
  {
    IdEnvsBystand();
    RoleGiven(p.containers, "worker");
    var cs1 := AfterAll(p.containers, SetEnv(RoleEnv("worker")));
    BystanderRoles(cs1, SetEnv(JOB_ENV), "worker");
    var cs2 := AfterAll(cs1, SetEnv(JOB_ENV));
    BystanderRoles(cs2, SetEnv(SESSION_ENV), "worker");
    BystanderRoles(AfterAll(cs2, SetEnv(SESSION_ENV)), DropResource(QPU), "worker");
  }

  // ---- the qpu ----

  /** No workload container requests or is limited to a qpu. */
  predicate NoQpu(cs: seq<Container>) {
    forall i :: 0 <= i < |cs| && cs[i].name != SIDECAR ==> QPU !in cs[i].requests && QPU !in cs[i].limits
  }

  lemma Stripped(cs: seq<Container>)
    ensures NoQpu(AfterAll(cs, DropResource(QPU)))
  {
  }

  lemma WorkerStripped(p: PodState, group: string)
    ensures NoQpu(MutateWorker(p, group).pod.containers)
  {
    Stripped(WorkerEnvs(p).pod.containers);
  }

  // ---- on the server ----

  /** What the scheduler and the sidecar read of a gated worker. */
  predicate WorkerOnServer(s: PodState, group: string) {
    && Named(s.gates, QUANTUM_GATE)
    && Linked(s, group)
    && View(s, NoteOf(DEPENDS_ON_KIND)) == Str("quantum-submit")
    && View(s, NoteOf(DEPENDS_ON_SCOUT)) == Str(group + SCOUT_SUFFIX)
    && View(s, NoteOf(DEPENDS_ON_GATE)) == Str(QUANTUM_GATE)
  }

  lemma LinkOnServer(s: PodState, p: PodState, group: string)
    requires s.group == p.group && s.annotations.Some?
    ensures var t := DoAll(LinkOps(p, group), s); Linked(t, group) && t.gates == s.gates && t.annotations == s.annotations
  {
    var relabel := RelabelOps(p, group);
    DoAllConcat(relabel, SchedulingGroupOps(p, group), s);
    RelabelKeeps(s, p, group);
    DoOne(SetSpec(SchedulingGroup, GroupLink(group)), DoAll(relabel, s));
  }

  /** The part of linking that concerns the label. */
  function RelabelOps(p: PodState, group: string): seq<Edit> {
    if Label(p, GROUP_LABEL) == group then []
    else if p.labels.None? then [NewMap(Labels, map[GROUP_LABEL := Str(group)])]
    else [SetKey(Labels, GROUP_LABEL, Str(group))]
  }

  lemma RelabelKeeps(s: PodState, p: PodState, group: string)
    ensures LinkOps(p, group) == RelabelOps(p, group) + SchedulingGroupOps(p, group)
    ensures DoAll(RelabelOps(p, group), s) == s.(labels := DoAll(RelabelOps(p, group), s).labels)
  {
    DoOne(NewMap(Labels, map[GROUP_LABEL := Str(group)]), s);
    DoOne(SetKey(Labels, GROUP_LABEL, Str(group)), s);
  }

  lemma GateOnServer(s: PodState, p: PodState, gate: string)
    requires s.gates == p.gates
    ensures var t := DoAll(GateOps(p, gate), s); Named(t.gates, gate) && t.group == s.group && t.annotations == s.annotations
  {
    if !Named(p.gates, gate) {
      var put := Put(Gates, Gate(gate), p.gates == []);
      var raise := if AsText(p.priorityClass) == "" then [SetSpec(PriorityClassName, Str(PRIORITY_CLASS)), SetSpec(Priority, Null)] else [];
      DoAllConcat([put], raise, s);
      DoOne(put, s);
      var t := Do(put, s);
      assert NameOf(t.gates[|t.gates| - 1]) == gate;
      assert AllQuiet(raise, GatesOf) && AllQuiet(raise, GroupOf);
      QuietKeeps(raise, t, GatesOf);
      QuietKeeps(raise, t, GroupOf);
      RaiseKeepsNotes(t);
      DoOne(SetSpec(Priority, Null), t);
    } else {
      DoOne(SetSpec(Priority, Null), s);
    }
  }

  lemma RaiseKeepsNotes(s: PodState)
    ensures DoAll([SetSpec(PriorityClassName, Str(PRIORITY_CLASS)), SetSpec(Priority, Null)], s).annotations == s.annotations
  {
    var a, b := SetSpec(PriorityClassName, Str(PRIORITY_CLASS)), SetSpec(Priority, Null);
    assert [a, b] == [a] + [b];
    DoAllConcat([a], [b], s);
    DoOne(a, s);
    DoOne(b, DoAll([a], s));
  }

  lemma AnnotateOnServer(s: PodState, p: PodState, k: string, v: string)
    requires s.annotations.Some? && p.annotations.Some? && v != ""
    ensures DoAll(AnnotateOp(p, k, v), s) == s.(annotations := Some(s.annotations.value[k := Str(v)]))
  {
    DoOne(SetKey(Annotations, k, Str(v)), s);
  }

  lemma DependencyKeysDiffer()
    ensures DEPENDS_ON_KIND != DEPENDS_ON_SCOUT && DEPENDS_ON_KIND != DEPENDS_ON_GATE && DEPENDS_ON_SCOUT != DEPENDS_ON_GATE
  {
    var at := |"fluence.flux-framework.org/depends-on-"|;
    assert DEPENDS_ON_KIND[at] == 'k' && DEPENDS_ON_SCOUT[at] == 's' && DEPENDS_ON_GATE[at] == 'g';
  }

  lemma DependencyOnServer(s: PodState, p: PodState, group: string)
    requires s.gates == p.gates && s.annotations.Some? && p.annotations.Some? && Linked(s, group)
    ensures WorkerOnServer(DoAll(DependencyOps(p, WaitForScout(group)), s), group)
  {
    var d := WaitForScout(group);
    var a, b, c := AnnotateOp(p, DEPENDS_ON_KIND, d.kind), AnnotateOp(p, DEPENDS_ON_SCOUT, d.scout), AnnotateOp(p, DEPENDS_ON_GATE, d.gate);
    DependencyKeysDiffer();
    GateOnServer(s, p, d.gate);
    var s1 := DoAll(GateOps(p, d.gate), s);
    assert d.scout[|group|] == '-';
    AnnotateOnServer(s1, p, DEPENDS_ON_KIND, d.kind);
    var s2 := DoAll(a, s1);
    AnnotateOnServer(s2, p, DEPENDS_ON_SCOUT, d.scout);
    var s3 := DoAll(b, s2);
    AnnotateOnServer(s3, p, DEPENDS_ON_GATE, d.gate);
    DoAllConcat(GateOps(p, d.gate), a, s);
    DoAllConcat(GateOps(p, d.gate) + a, b, s);
    DoAllConcat(GateOps(p, d.gate) + a + b, c, s);
  }

  lemma InsideKeeps(es: seq<Edit>, s: PodState, a: Aspect)
    requires Inside(es)
    ensures View(DoAll(es, s), a) == View(s, a)
  {
    QuietKeeps(es, s, a);
  }

  lemma InsideKeepsWorker(es: seq<Edit>, s: PodState, group: string)
    requires Inside(es) && WorkerOnServer(s, group)
    ensures WorkerOnServer(DoAll(es, s), group)
  {
    InsideKeeps(es, s, GatesOf);
    InsideKeeps(es, s, GroupOf);
    InsideKeeps(es, s, NoteOf(DEPENDS_ON_KIND));
    InsideKeeps(es, s, NoteOf(DEPENDS_ON_SCOUT));
    InsideKeeps(es, s, NoteOf(DEPENDS_ON_GATE));
  }

  /** The worker's own operations gate it, link it and say what it waits for. */
  lemma WorkerServed(s: PodState, p: PodState, group: string)
    requires s.gates == p.gates && s.group == p.group && s.annotations.Some? && p.annotations.Some?
    ensures WorkerOnServer(DoAll(MutateWorker(p, group).edits, s), group)
  {
    var link, dep := LinkOps(p, group), DependencyOps(p, WaitForScout(group));
    LinkOnServer(s, p, group);
    DependencyOnServer(DoAll(link, s), p, group);
    DoAllConcat(link, dep, s);
    var g1 := Progress(p, link + dep);
    var envs, drop := WorkerEnvs(p).edits, Run(WorkerEnvs(p).pod, DropResource(QPU)).edits;
    WorkerEnvsInside(p);
    RunInside(WorkerEnvs(p).pod, DropResource(QPU));
    DoAllConcat(g1.edits, envs, s);
    DoAllConcat(g1.edits + envs, drop, s);
    InsideKeepsWorker(envs, DoAll(g1.edits, s), group);
    InsideKeepsWorker(drop, DoAll(g1.edits + envs, s), group);
  }

  lemma WorkerEnvsInside(p: PodState)
    ensures Inside(WorkerEnvs(p).edits)
  {
    RunInside(p, SetEnv(RoleEnv("worker")));
    RunInside(Run(p, SetEnv(RoleEnv("worker"))).pod, SetEnv(JOB_ENV));
    RunInside(Run(Run(p, SetEnv(RoleEnv("worker"))).pod, SetEnv(JOB_ENV)).pod, SetEnv(SESSION_ENV));
  }

  /** Neither submitting nor the sidecar touches gates or the link. */
  lemma SubmitterQuiet(ctx: Ctx, p: PodState)
    ensures AllQuiet(Submitter(ctx, p).edits, GatesOf) && AllQuiet(Submitter(ctx, p).edits, GroupOf)
  {
    var p1 := AddVolume(p, STAGE_VOLUME).pod;
    RunInside(p1, Stage);
    var q := Interceptor(ctx, p).pod;
    var p2 := AddVolume(q, HANDOFF_VOLUME).pod;
    RunInside(p2, Handoff);
    RunInside(Run(p2, Handoff).pod, SetEnv(EnvVar(HANDOFF_DIR_ENV, HANDOFF_PATH)));
  }

  /** Edits that touch neither gates nor the link. */
  predicate Aside(es: seq<Edit>) {
    AllQuiet(es, GatesOf) && AllQuiet(es, GroupOf)
  }

  lemma AsideKeeps(es: seq<Edit>, s: PodState)
    requires Aside(es)
    ensures DoAll(es, s).gates == s.gates && DoAll(es, s).group == s.group
    ensures s.annotations.Some? ==> DoAll(es, s).annotations.Some?
  {
    QuietKeeps(es, s, GatesOf);
    QuietKeeps(es, s, GroupOf);
  }

  lemma AsideConcat(a: seq<Edit>, b: seq<Edit>)
    requires Aside(a) && Aside(b)
    ensures Aside(a + b)
  {
  }

  lemma SidecarAside(ctx: Ctx, p: PodState, observe: bool, extra: seq<Json>)
    ensures Aside(SidecarStep(ctx, p, observe, extra).edits)
  {
  }

  /** A scout keeps the gates it came with and belongs to its own group. */
  lemma ScoutServed(ctx: Ctx, s: PodState, p: PodState, group: string, extra: seq<Json>)
    requires s.group == p.group && s.annotations.Some?
    ensures var t := DoAll(MutateScout(ctx, p, group, extra).edits, s); t.gates == s.gates && Linked(t, group + SCOUT_SUFFIX)
  {
    var link := LinkOps(p, group + SCOUT_SUFFIX);
    var submit := Submitter(ctx, p);
    var role := Run(submit.pod, SetEnv(RoleEnv("scout")));
    var sidecar := SidecarStep(ctx, role.pod, false, [EnvVar("FLUENCE_GANG_GROUP", group)] + extra).edits;
    LinkOnServer(s, p, group + SCOUT_SUFFIX);
    SubmitterQuiet(ctx, p);
    RunInside(submit.pod, SetEnv(RoleEnv("scout")));
    SidecarAside(ctx, role.pod, false, [EnvVar("FLUENCE_GANG_GROUP", group)] + extra);
    DoAllConcat(link, submit.edits, s);
    DoAllConcat(link + submit.edits, role.edits, s);
    DoAllConcat(link + submit.edits + role.edits, sidecar, s);
    AsideKeeps(submit.edits, DoAll(link, s));
    AsideKeeps(role.edits, DoAll(link + submit.edits, s));
    AsideKeeps(sidecar, DoAll(link + submit.edits + role.edits, s));
  }

  lemma {:induction false} StampOpsQuiet(ann: map<string, Json>, keys: seq<string>)
    ensures AllQuiet(StampOps(ann, keys), GatesOf) && AllQuiet(StampOps(ann, keys), GroupOf) && AllQuiet(StampOps(ann, keys), SizeOf)
  {
    if keys != [] {
      StampOpsQuiet(ann, keys[..|keys| - 1]);
    }
  }

  lemma EnrolQuiet(ctx: Ctx, p: PodState)
    ensures AllQuiet(Enrol(ctx, p).edits, GatesOf) && AllQuiet(Enrol(ctx, p).edits, GroupOf) && AllQuiet(Enrol(ctx, p).edits, SizeOf)
  {
    var ann := AdmissionStamps(ctx.ns + "/" + ResolveGroup(ctx, p), 0);
    StampOpsQuiet(ann, ctx.keyOrder);
    RunInside(Stamp(p, ann, ctx.keyOrder).pod, SetEnv(REHEARSAL_ENV));
  }

  lemma QuietConcat(a: seq<Edit>, b: seq<Edit>, asp: Aspect)
    requires AllQuiet(a, asp) && AllQuiet(b, asp)
    ensures AllQuiet(a + b, asp)
  {
  }

  lemma LinkAddsNone(p: PodState, group: string)
    ensures AllQuiet(LinkOps(p, group), SizeOf)
  {
  }

  lemma DependencyAddsNone(p: PodState, d: Dependency)
    ensures AllQuiet(DependencyOps(p, d), SizeOf)
  {
    var a, b := AnnotateOp(p, DEPENDS_ON_KIND, d.kind), AnnotateOp(p, DEPENDS_ON_SCOUT, d.scout);
    assert AllQuiet(GateOps(p, d.gate), SizeOf);
    QuietConcat(GateOps(p, d.gate), a, SizeOf);
    QuietConcat(GateOps(p, d.gate) + a, b, SizeOf);
    QuietConcat(GateOps(p, d.gate) + a + b, AnnotateOp(p, DEPENDS_ON_GATE, d.gate), SizeOf);
  }

  /** A worker's operations, in their parts. */
  lemma WorkerParts(p: PodState, group: string)
    ensures MutateWorker(p, group).edits ==
            LinkOps(p, group) + DependencyOps(p, WaitForScout(group)) + WorkerEnvs(p).edits + Run(WorkerEnvs(p).pod, DropResource(QPU)).edits
  {
  }

  lemma FourQuiet(a: seq<Edit>, b: seq<Edit>, c: seq<Edit>, d: seq<Edit>, asp: Aspect)
    requires AllQuiet(a, asp) && AllQuiet(b, asp) && AllQuiet(c, asp) && AllQuiet(d, asp)
    ensures AllQuiet(a + b + c + d, asp)
  {
    QuietConcat(a, b, asp);
    QuietConcat(a + b, c, asp);
    QuietConcat(a + b + c, d, asp);
  }

  lemma InsideQuiet(es: seq<Edit>, asp: Aspect)
    requires Inside(es)
    ensures AllQuiet(es, asp)
  {
  }

  /** A worker gets no container of the webhook's. */
  lemma WorkerAddsNone(p: PodState, group: string)
    ensures AllQuiet(MutateWorker(p, group).edits, SizeOf)
  {
    var link, dep := LinkOps(p, group), DependencyOps(p, WaitForScout(group));
    var envs, drop := WorkerEnvs(p).edits, Run(WorkerEnvs(p).pod, DropResource(QPU)).edits;
    LinkAddsNone(p, group);
    DependencyAddsNone(p, WaitForScout(group));
    WorkerEnvsInside(p);
    RunInside(WorkerEnvs(p).pod, DropResource(QPU));
    InsideQuiet(envs, SizeOf);
    InsideQuiet(drop, SizeOf);
    WorkerParts(p, group);
    FourQuiet(link, dep, envs, drop, SizeOf);
  }

  predicate NoneNamed(cs: seq<Container>, name: string) {
    forall i :: 0 <= i < |cs| ==> cs[i].name != name
  }
}
