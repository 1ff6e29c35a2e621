/**
 * The webhook's handlers, as functions of the webhook's own pod: the operations each
 * step emits and the pod it leaves behind.
 */
module Handlers {
  import opened Vocabulary
  import opened Options
  import opened Text
  import opened Json
  import opened PodEdits
  import opened PodMirror
  import opened PodTasks

  const GROUP_SIZE := "fluence.flux-framework.org/group-size"
  const COORDINATION := "fluence.flux-framework.org/coordination"
  const SHARED := "shared"
  const INDEPENDENT := "independent"
  const COMPLETION_INDEX := "batch.kubernetes.io/job-completion-index"
  const OBSERVE := "fluence.flux-framework.org/observe"
  const REHEARSAL := "fluence.flux-framework.org/rehearsal"
  const PROTECTED := "fluence.flux-framework.org/protected"
  const ADMITTED_GROUP := "fluence.flux-framework.org/admitted-group"
  const ADMITTED_CORES := "fluence.flux-framework.org/admitted-cores"
  const PRIORITY_CLASS := "fluence-quantum-classical"
  const ROLE_ENV := "FLUENCE_COORDINATION_ROLE"
  const REHEARSAL_ENV := EnvVar("FLUENCE_REHEARSAL", "true")

  /**
   * What an admission knows beside the pod: its name, what its owners and the cluster say
   * of its gang's size, its core need, the admission rule's answer, the settings, and the
   * order in which Go happens to walk the map of stamps.
   */
  datatype Ctx = Ctx(ns: string, name: string, owner: string, jobSize: int, otherSize: int, cores: int, room: bool,
                     injected: seq<Json>, image: string, keyOrder: seq<string>)

  predicate KeysOrdered(ctx: Ctx) {
    PROTECTED in ctx.keyOrder && ADMITTED_GROUP in ctx.keyOrder && ADMITTED_CORES in ctx.keyOrder
  }

  /** The webhook's own pod after some steps, and the operations they emitted. */
  datatype Progress = Progress(pod: PodState, edits: seq<Edit>)

  function Before(p: PodState): Progress {
    Progress(p, [])
  }

  function Then(g: Progress, h: Progress): Progress {
    Progress(h.pod, g.edits + h.edits)
  }

  // ---- reading the pod ----

  function Lookup(m: Option<map<string, Json>>, k: string): string {
    if m.Some? && k in m.value then AsText(m.value[k]) else ""
  }

  function Annotation(p: PodState, k: string): string {
    Lookup(p.annotations, k)
  }

  function Label(p: PodState, k: string): string {
    Lookup(p.labels, k)
  }

  predicate AnyRequestsFluxion(p: PodState) {
    exists c :: c in p.containers && RequestsFluxion(c)
  }

  predicate AnyRequestsQpu(p: PodState) {
    exists c :: c in p.containers && RequestsQpu(c)
  }

  function ResolveGroup(ctx: Ctx, p: PodState): string {
    if Label(p, GROUP_LABEL) != "" then Label(p, GROUP_LABEL) else ctx.owner
  }

  /** The size annotation, when it is a positive number. */
  function AnnotatedSize(p: PodState): Option<int> {
    var v := Atoi(Annotation(p, GROUP_SIZE));
    if v.Some? && v.value > 0 then Some(Int32(v.value)) else None
  }

  function GangSize(ctx: Ctx, p: PodState): int {
    if AnnotatedSize(p).Some? then AnnotatedSize(p).value
    else if ctx.jobSize > 0 then ctx.jobSize
    else if ctx.otherSize > 0 then ctx.otherSize
    else 1
  }

  /** The gang handler's own rule, which knows only the annotation and the owning Job. */
  function MinCount(ctx: Ctx, p: PodState): int {
    if AnnotatedSize(p).Some? then AnnotatedSize(p).value
    else if ctx.jobSize > 0 then ctx.jobSize
    else 1
  }

  function Mode(p: PodState): string {
    if Annotation(p, COORDINATION) != "" then Annotation(p, COORDINATION) else INDEPENDENT
  }

  /** Whether the pod is a member of a shared gang of more than one. */
  predicate SharedGang(ctx: Ctx, p: PodState) {
    Mode(p) == SHARED && ResolveGroup(ctx, p) != "" && GangSize(ctx, p) > 1
  }

  // ---- steps ----

  function Run(p: PodState, t: Task): Progress {
    Progress(WithContainers(p, AfterAll(p.containers, t)), TaskOps(p.containers, t))
  }

  function StampOps(ann: map<string, Json>, keys: seq<string>): seq<Edit> {
    if keys == [] then []
    else
      var k := keys[|keys| - 1];
      StampOps(ann, keys[..|keys| - 1]) + if k in ann then [SetKey(Annotations, k, ann[k])] else []
  }

  /** The entries of a map whose keys have come up. */
  function Picked(ann: map<string, Json>, keys: seq<string>): map<string, Json> {
    map k | k in ann && k in keys :: ann[k]
  }

  lemma PickedMore(start: map<string, Json>, ann: map<string, Json>, keys: seq<string>, k: string)
    ensures start + Picked(ann, keys + [k]) ==
            if k in ann then (start + Picked(ann, keys))[k := ann[k]] else start + Picked(ann, keys)
  {
  }

  function Noted(p: PodState): map<string, Json> {
    if p.annotations.Some? then p.annotations.value else map[]
  }

  /** annotateOps: one operation for the whole map when there is none, one per key otherwise. */
  function Stamp(p: PodState, ann: map<string, Json>, keys: seq<string>): Progress {
    Progress(p.(annotations := Some(Noted(p) + ann)),
             if p.annotations.None? then [NewMap(Annotations, ann)] else StampOps(ann, keys))
  }

  function AdmissionStamps(record: string, standaloneCores: int): map<string, Json> {
    var ann := map[PROTECTED := Str("quantum"), ADMITTED_GROUP := Str(record)];
    if standaloneCores > 0 then ann[ADMITTED_CORES := Str(Dec(standaloneCores))] else ann
  }

  function EmptyDir(name: string): Json {
    Obj(map["name" := Str(name), "emptyDir" := Obj(map[])])
  }

  function AddVolume(p: PodState, name: string): Progress {
    Progress(p.(volumes := p.volumes + [EmptyDir(name)]), [Put(Volumes, EmptyDir(name), p.volumes == [])])
  }

  function InitContainer(ctx: Ctx): Json {
    Obj(map["name" := Str("fluence-stage"), "image" := Str(ctx.image), "imagePullPolicy" := Str("Always"),
            "command" := Arr([Str("sh"), Str("-c"),
                              Str("python3 -m fluence.stage " + STAGE_PATH +
                                  " || echo '[fluence] staging skipped (interceptor unavailable)'")]),
            "volumeMounts" := Arr([Obj(map["name" := Str(STAGE_VOLUME), "mountPath" := Str(STAGE_PATH)])])])
  }

  function Interceptor(ctx: Ctx, p: PodState): Progress {
    var g := AddVolume(p, STAGE_VOLUME);
    Then(Then(g, Progress(g.pod, [Put(Inits, InitContainer(ctx), p.inits == [])])), Run(g.pod, Stage))
  }

  function HandoffStep(p: PodState): Progress {
    if Named(p.volumes, HANDOFF_VOLUME) then Before(p)
    else
      var g := AddVolume(p, HANDOFF_VOLUME);
      var h := Then(g, Run(g.pod, Handoff));
      Then(h, Run(h.pod, SetEnv(EnvVar(HANDOFF_DIR_ENV, HANDOFF_PATH))))
  }

  /** What a submitting pod gets: the interceptor, then the handoff volume. */
  function Submitter(ctx: Ctx, p: PodState): Progress {
    var g := Interceptor(ctx, p);
    Then(g, HandoffStep(g.pod))
  }

  predicate Rehearsing(p: PodState) {
    Label(p, REHEARSAL) == "true"
  }

  function Rehearsal(p: PodState): seq<Json> {
    if Rehearsing(p) then [REHEARSAL_ENV] else []
  }

  function RehearsalStep(p: PodState, rehearsing: bool): Progress {
    if rehearsing then Run(p, SetEnv(REHEARSAL_ENV)) else Before(p)
  }

  /** The secret and config map variables the sidecar borrows from the first container. */
  function Borrowed(have: seq<Json>, env: seq<Json>): seq<Json> {
    if env == [] then []
    else
      var rest := Borrowed(have, env[..|env| - 1]);
      var e := env[|env| - 1];
      var from := Field(e, "valueFrom");
      if !Named(have, NameOf(e)) && (Field(from, "secretKeyRef").Obj? || Field(from, "configMapKeyRef").Obj?) then rest + [e] else rest
  }

  function SidecarEnv(ctx: Ctx, p: PodState, observe: bool, extra: seq<Json>): seq<Json> {
    var env := [FieldEnv("FLUENCE_POD_UID", "metadata.uid"), FieldEnv("FLUENCE_POD_NAME", "metadata.name"),
                FieldEnv("FLUENCE_NAMESPACE", "metadata.namespace"),
                FieldEnv("FLUENCE_GROUP", "metadata.labels['" + GROUP_LABEL + "']")]
               + ctx.injected + (if observe then [EnvVar("FLUENCE_OBSERVE", "true")] else []) + extra;
    if p.containers == [] then env else env + Borrowed(env, p.containers[0].env)
  }

  function HandoffMounts(volumes: seq<Json>): seq<Json> {
    if volumes == [] then []
    else HandoffMounts(volumes[..|volumes| - 1]) + if NameOf(volumes[|volumes| - 1]) == HANDOFF_VOLUME then [HANDOFF_MOUNT] else []
  }

  function Sidecar(ctx: Ctx, env: seq<Json>, mounts: seq<Json>): Json {
    var c := map["name" := Str(SIDECAR), "image" := Str(ctx.image), "imagePullPolicy" := Str("Always"), "env" := Arr(env),
                 "resources" := Obj(map["requests" := Obj(map["cpu" := Str("100m"), "memory" := Str("256Mi")])])];
    Obj(if mounts == [] then c else c["volumeMounts" := Arr(mounts)])
  }

  function SidecarContainer(ctx: Ctx, p: PodState, observe: bool, extra: seq<Json>): Json {
    Sidecar(ctx, SidecarEnv(ctx, p, observe, extra), HandoffMounts(p.volumes))
  }

  /** The sidecar goes to the server only; the webhook's own pod does not get it. */
  function SidecarStep(ctx: Ctx, p: PodState, observe: bool, extra: seq<Json>): Progress {
    var account := AsText(p.serviceAccount);
    Progress(p, [Put(Containers, SidecarContainer(ctx, p, observe, extra), p.containers == [])]
                + if account == "" || account == "default" then [SetSpec(ServiceAccountName, Str(SIDECAR))] else [])
  }

  predicate Linked(p: PodState, group: string) {
    Field(p.group, "podGroupName") == Str(group)
  }

  function GroupLink(group: string): Json {
    Obj(map["podGroupName" := Str(group)])
  }

  function SchedulingGroupOps(p: PodState, group: string): seq<Edit> {
    if Linked(p, group) then [] else [SetSpec(SchedulingGroup, GroupLink(group))]
  }

  /** Links to the gang on the server; the webhook's own pod keeps its label and link. */
  function LinkOps(p: PodState, group: string): seq<Edit> {
    (if Label(p, GROUP_LABEL) == group then []
     else if p.labels.None? then [NewMap(Labels, map[GROUP_LABEL := Str(group)])]
     else [SetKey(Labels, GROUP_LABEL, Str(group))])
    + SchedulingGroupOps(p, group)
  }

  function Gate(name: string): Json {
    Obj(map["name" := Str(name)])
  }

  function GateOps(p: PodState, gate: string): seq<Edit> {
    if Named(p.gates, gate) then []
    else
      [Put(Gates, Gate(gate), p.gates == [])]
      + if AsText(p.priorityClass) == "" then [SetSpec(PriorityClassName, Str(PRIORITY_CLASS)), SetSpec(Priority, Null)] else []
  }

  function AnnotateOp(p: PodState, k: string, v: string): seq<Edit> {
    if v == "" then []
    else if p.annotations.None? then [NewMap(Annotations, map[k := Str(v)])]
    else [SetKey(Annotations, k, Str(v))]
  }

  datatype Dependency = Dependency(kind: string, scout: string, gate: string)

  function DependencyOps(p: PodState, d: Dependency): seq<Edit> {
    GateOps(p, d.gate) + AnnotateOp(p, DEPENDS_ON_KIND, d.kind) + AnnotateOp(p, DEPENDS_ON_SCOUT, d.scout)
    + AnnotateOp(p, DEPENDS_ON_GATE, d.gate)
  }

  // ---- the quantum handler ----

  function RoleEnv(role: string): Json {
    EnvVar(ROLE_ENV, role)
  }

  /** A pod that submits for itself: stamps, submitter, rehearsal variable. */
  function Alone(ctx: Ctx, p: PodState): Progress {
    var g1 := Stamp(p, AdmissionStamps(ctx.ns + "/" + ctx.name, ctx.cores), ctx.keyOrder);
    var g2 := Then(g1, Submitter(ctx, g1.pod));
    Then(g2, RehearsalStep(g2.pod, Rehearsing(p)))
  }

  function Standalone(ctx: Ctx, p: PodState): Progress {
    var g := Alone(ctx, p);
    if Label(p, OBSERVE) == "true" then Then(g, SidecarStep(ctx, g.pod, true, Rehearsal(p))) else g
  }

  function MutateScout(ctx: Ctx, p: PodState, group: string, extra: seq<Json>): Progress {
    var g1 := Progress(p, LinkOps(p, group + SCOUT_SUFFIX));
    var g2 := Then(g1, Submitter(ctx, g1.pod));
    var g3 := Then(g2, Run(g2.pod, SetEnv(RoleEnv("scout"))));
    Then(g3, SidecarStep(ctx, g3.pod, false, [EnvVar("FLUENCE_GANG_GROUP", group)] + extra))
  }

  function WorkerEnvs(p: PodState): Progress {
    var g1 := Run(p, SetEnv(RoleEnv("worker")));
    var g2 := Then(g1, Run(g1.pod, SetEnv(AnnotationEnv("FLUENCE_QUANTUM_JOB_ID", "fluence.flux-framework.org/quantum-job-id"))));
    Then(g2, Run(g2.pod, SetEnv(AnnotationEnv("FLUENCE_QUANTUM_SESSION_ID", "fluence.flux-framework.org/quantum-session-id"))))
  }

  function WaitForScout(group: string): Dependency {
    Dependency("quantum-submit", group + SCOUT_SUFFIX, QUANTUM_GATE)
  }

  function MutateWorker(p: PodState, group: string): Progress {
    var g1 := Progress(p, LinkOps(p, group) + DependencyOps(p, WaitForScout(group)));
    var g2 := Then(g1, WorkerEnvs(g1.pod));
    Then(g2, Run(g2.pod, DropResource(QPU)))
  }

  /** The stamps and the rehearsal variable, before a member learns its role. */
  function Enrol(ctx: Ctx, p: PodState): Progress {
    var g := Stamp(p, AdmissionStamps(ctx.ns + "/" + ResolveGroup(ctx, p), 0), ctx.keyOrder);
    Then(g, RehearsalStep(g.pod, Rehearsing(p)))
  }

  function Role(ctx: Ctx, p: PodState, group: string, extra: seq<Json>, scout: bool): Progress {
    if scout then MutateScout(ctx, p, group, extra) else MutateWorker(p, group)
  }

  function Member(ctx: Ctx, p: PodState, scout: bool): Progress {
    var g := Enrol(ctx, p);
    Then(g, Role(ctx, g.pod, ResolveGroup(ctx, p), Rehearsal(p), scout))
  }

  // ---- the cluster's pod groups ----

  datatype GroupId = GroupId(ns: string, name: string)

  /** minCount, and the admission record when there is one. */
  datatype GroupRecord = GroupRecord(minCount: int, admitted: string)

  type Groups = map<GroupId, GroupRecord>

  /** EnsurePodGroup: the first writer wins. */
  function Ensure(groups: Groups, id: GroupId, minCount: int): Groups {
    if id in groups then groups else groups[id := GroupRecord(if minCount <= 0 then 1 else minCount, "")]
  }

  /** RecordAdmission: the total is written once. */
  function Record(groups: Groups, id: GroupId, cores: int): Groups {
    if cores <= 0 || id !in groups || groups[id].admitted != "" then groups
    else groups[id := groups[id].(admitted := Dec(cores))]
  }

  predicate GroupAdmitted(groups: Groups, id: GroupId) {
    id in groups && groups[id].admitted != ""
  }

  // ---- dispatch ----

  datatype Handler = FluxionHandler | QuantumHandler | GangHandler

  const DEFAULT_ORDER := [FluxionHandler, QuantumHandler, GangHandler]

  /** Where an admission stands: the pod's progress and the cluster's groups. */
  datatype State = State(g: Progress, groups: Groups)

  datatype Verdict = Admitted(s: State) | Denied(groups: Groups)

  predicate Applies(h: Handler, p: PodState) {
    match h
    case FluxionHandler => AnyRequestsFluxion(p)
    case QuantumHandler => AnyRequestsQpu(p)
    case GangHandler => !AnyRequestsQpu(p) && Label(p, GROUP_LABEL) != ""
  }

  /** The quantum handler's admission check. A member of an admitted gang passes. */
  predicate Admits(ctx: Ctx, p: PodState, groups: Groups) {
    && Annotation(p, PROTECTED) == ""
    && ((SharedGang(ctx, p) && GroupAdmitted(groups, GroupId(ctx.ns, ResolveGroup(ctx, p)))) || ctx.room)
  }

  predicate IsScout(ctx: Ctx, p: PodState, group: string, groups: Groups) {
    if p.annotations.Some? && COMPLETION_INDEX in p.annotations.value then Annotation(p, COMPLETION_INDEX) == "0"
    else GroupId(ctx.ns, group + SCOUT_SUFFIX) !in groups
  }

  /** The groups once a member has its role. */
  function RoleGroups(ctx: Ctx, groups: Groups, group: string, n: int, scout: bool): Groups {
    if scout then Ensure(groups, GroupId(ctx.ns, group + SCOUT_SUFFIX), 1) else Ensure(groups, GroupId(ctx.ns, group), n - 1)
  }

  /** The gang's group exists and has its record before a member learns its role. */
  function EnrolGroups(ctx: Ctx, p: PodState, groups: Groups): Groups {
    var id := GroupId(ctx.ns, ResolveGroup(ctx, p));
    Record(Ensure(groups, id, GangSize(ctx, p) - 1), id, ctx.cores * GangSize(ctx, p))
  }

  predicate Promoted(ctx: Ctx, p: PodState, groups: Groups) {
    IsScout(ctx, Enrol(ctx, p).pod, ResolveGroup(ctx, p), EnrolGroups(ctx, p, groups))
  }

  function QuantumStep(ctx: Ctx, p: PodState, groups: Groups): (Progress, Groups) {
    if !SharedGang(ctx, p) then (Standalone(ctx, p), groups)
    else
      var scout := Promoted(ctx, p, groups);
      (Member(ctx, p, scout), RoleGroups(ctx, EnrolGroups(ctx, p, groups), ResolveGroup(ctx, p), GangSize(ctx, p), scout))
  }

  function Handle(h: Handler, ctx: Ctx, s: State): Verdict {
    var p := s.g.pod;
    if !Applies(h, p) then Admitted(s)
    else
      match h
      case FluxionHandler => Admitted(s.(g := Then(s.g, Run(p, Inject(ctx.injected)))))
      case QuantumHandler =>
        if !Admits(ctx, p, s.groups) then Denied(s.groups)
        else
          var (g, groups) := QuantumStep(ctx, p, s.groups);
          Admitted(State(Then(s.g, g), groups))
      case GangHandler =>
        var group := Label(p, GROUP_LABEL);
        Admitted(State(Then(s.g, Progress(p, SchedulingGroupOps(p, group))),
                       Ensure(s.groups, GroupId(ctx.ns, group), MinCount(ctx, p))))
  }

  /** MutateOrDeny: the handlers in order over one shared pod. */
  function Dispatch(order: seq<Handler>, ctx: Ctx, s: State): Verdict {
    if order == [] then Admitted(s)
    else
      match Dispatch(order[..|order| - 1], ctx, s)
      case Denied(groups) => Denied(groups)
      case Admitted(mid) => Handle(order[|order| - 1], ctx, mid)
  }
}
