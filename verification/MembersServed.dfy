/** What the operations for a scout, a worker and a pod of its own make of the pod on the server. */
module MembersServed {
  import opened Vocabulary
  import opened Json
  import opened PodEdits
  import opened PodMirror
  import opened PodTasks
  import opened Handlers
  import opened HandlerOutcomes
  import opened GangRoles
  import opened Submitters
  import Handoff

  // ---- edits that leave most of the pod alone ----

  /** Edits of containers and volumes. */
  predicate Inner(es: seq<Edit>) {
    forall i :: 0 <= i < |es| ==> es[i].Within? || (es[i].Put? && es[i].list.Volumes?)
  }

  /** Edits of containers and annotations. */
  predicate Notes(es: seq<Edit>) {
    forall i :: 0 <= i < |es| ==> es[i].Within? || (OnMeta(es[i]) && es[i].which.Annotations?)
  }

  lemma InnerKeeps(es: seq<Edit>, s: PodState, a: Aspect)
    requires Inner(es)
    ensures View(DoAll(es, s), a) == View(s, a)
  {
    QuietKeeps(es, s, a);
  }

  lemma NotesKeep(es: seq<Edit>, s: PodState, a: Aspect)
    requires Notes(es) && !a.NoteOf?
    ensures View(DoAll(es, s), a) == View(s, a)
  {
    QuietKeeps(es, s, a);
  }

  predicate LabelFree(es: seq<Edit>) {
    forall i :: 0 <= i < |es| ==> !(OnMeta(es[i]) && es[i].which.Labels?)
  }

  lemma {:induction false} LabelsKept(es: seq<Edit>, s: PodState)
    requires LabelFree(es)
    ensures DoAll(es, s).labels == s.labels
  {
    if es != [] {
      LabelsKept(es[..|es| - 1], s);
    }
  }

  /** Same everywhere a member's own operations look. */
  ghost predicate Alike(t: PodState, s: PodState) {
    && t.labels == s.labels && t.inits == s.inits && t.serviceAccount == s.serviceAccount && t.priorityClass == s.priorityClass
    && t.priority == s.priority && |t.containers| == |s.containers| && t.gates == s.gates && t.group == s.group
  }

  lemma NotesAlike(es: seq<Edit>, s: PodState)
    requires Notes(es)
    ensures Alike(DoAll(es, s), s)
  {
    LabelsKept(es, s);
    NotesKeep(es, s, InitsOf);
    NotesKeep(es, s, AccountOf);
    NotesKeep(es, s, ClassOf);
    NotesKeep(es, s, PriorityOf);
    NotesKeep(es, s, SizeOf);
    NotesKeep(es, s, GatesOf);
    NotesKeep(es, s, GroupOf);
  }

  lemma InnerAlike(es: seq<Edit>, s: PodState)
    requires Inner(es)
    ensures Alike(DoAll(es, s), s)
  {
    LabelsKept(es, s);
    InnerKeeps(es, s, InitsOf);
    InnerKeeps(es, s, AccountOf);
    InnerKeeps(es, s, ClassOf);
    InnerKeeps(es, s, PriorityOf);
    InnerKeeps(es, s, SizeOf);
    InnerKeeps(es, s, GatesOf);
    InnerKeeps(es, s, GroupOf);
  }

  lemma {:induction false} StampOpsAreNotes(ann: map<string, Json>, keys: seq<string>)
    ensures Notes(StampOps(ann, keys))
  {
    if keys != [] {
      StampOpsAreNotes(ann, keys[..|keys| - 1]);
    }
  }

  lemma EnrolNotes(ctx: Ctx, p: PodState)
    ensures Notes(Enrol(ctx, p).edits)
  {
    var ann := AdmissionStamps(ctx.ns + "/" + ResolveGroup(ctx, p), 0);
    StampOpsAreNotes(ann, ctx.keyOrder);
    RunInside(Stamp(p, ann, ctx.keyOrder).pod, SetEnv(REHEARSAL_ENV));
  }

  // ---- submitting ----

  /** The init container that stages the interceptor. */
  predicate IsStager(ctx: Ctx, j: Json) {
    && Field(j, "name") == Str("fluence-stage") && Field(j, "image") == Str(ctx.image)
    && Field(j, "command") == Arr([Str("sh"), Str("-c"),
                                   Str("python3 -m fluence.stage " + "/opt/fluence-staged" +
                                       " || echo '[fluence] staging skipped (interceptor unavailable)'")])
    && Items(Field(j, "volumeMounts")) == [Obj(map["name" := Str("fluence-pkg"), "mountPath" := Str("/opt/fluence-staged")])]
  }

  lemma StagerIs(ctx: Ctx)
    ensures IsStager(ctx, InitContainer(ctx))
  {
  }

  lemma HandoffInner(p: PodState)
    ensures Inner(HandoffStep(p).edits)
  {
    var q := AddVolume(p, HANDOFF_VOLUME).pod;
    RunInside(q, Handoff);
    RunInside(Run(q, Handoff).pod, SetEnv(EnvVar(HANDOFF_DIR_ENV, HANDOFF_PATH)));
  }

  /** Submitting adds the init container, and nothing else beside containers and volumes. */
  ghost predicate Submits(ctx: Ctx, t: PodState, s: PodState) {
    && Alike(t.(inits := s.inits), s)
    && |t.inits| == |s.inits| + 1 && s.inits <= t.inits && IsStager(ctx, t.inits[|s.inits|])
  }

  /** Four lists of edits, one after another. */
  lemma DoFour(a: seq<Edit>, b: seq<Edit>, c: seq<Edit>, d: seq<Edit>, s: PodState)
    ensures DoAll(a + b + c + d, s) == DoAll(d, DoAll(c, DoAll(b, DoAll(a, s))))
  {
    DoAllConcat(a, b, s);
    DoAllConcat(a + b, c, s);
    DoAllConcat(a + b + c, d, s);
  }

  lemma SubmitsBy(ctx: Ctx, s: PodState, s1: PodState, s2: PodState, s3: PodState, t: PodState)
    requires Alike(s1, s) && s2 == s1.(inits := s1.inits + [InitContainer(ctx)]) && Alike(s3, s2) && Alike(t, s3)
    ensures Submits(ctx, t, s)
  {
    StagerIs(ctx);
  }

  lemma StagePut(ctx: Ctx, s: PodState, first: bool)
    requires first <==> s.inits == []
    ensures DoAll([Put(Inits, InitContainer(ctx), first)], s) == s.(inits := s.inits + [InitContainer(ctx)])
  {
    DoOne(Put(Inits, InitContainer(ctx), first), s);
    assert first ==> s.inits + [InitContainer(ctx)] == [InitContainer(ctx)];
  }

  lemma SubmitterServes(ctx: Ctx, s: PodState, p: PodState)
    requires p.inits == [] <==> s.inits == []
    ensures Submits(ctx, DoAll(Submitter(ctx, p).edits, s), s)
  {
    var g := AddVolume(p, STAGE_VOLUME);
    var put := [Put(Inits, InitContainer(ctx), p.inits == [])];
    var stage, hand := Run(g.pod, Stage).edits, HandoffStep(Interceptor(ctx, p).pod).edits;
    var s1 := DoAll(g.edits, s);
    var s2 := DoAll(put, s1);
    var s3 := DoAll(stage, s2);
    InnerAlike(g.edits, s);
    StagePut(ctx, s1, p.inits == []);
    RunInside(g.pod, Stage);
    InnerAlike(stage, s2);
    HandoffInner(Interceptor(ctx, p).pod);
    InnerAlike(hand, s3);
    SubmitsBy(ctx, s, s1, s2, s3, DoAll(hand, s3));
    DoFour(g.edits, put, stage, hand, s);
  }

  // ---- linking ----

  /** Linked to the group, by field and by label, and otherwise as before. */
  ghost predicate Joined(group: string, t: PodState, s: PodState) {
    && Linked(t, group) && Entry(t.labels, "fluence.flux-framework.org/group") == Str(group)
    && Alike(t.(labels := s.labels, group := s.group), s) && t.annotations == s.annotations && t.containers == s.containers
  }

  lemma LinkJoins(s: PodState, p: PodState, group: string)
    requires s.group == p.group && s.labels == p.labels && group != ""
    ensures Joined(group, DoAll(LinkOps(p, group), s), s)
  {
    var relabel := RelabelOps(p, group);
    RelabelKeeps(s, p, group);
    Relabelled(s, p, group);
    DoAllConcat(relabel, SchedulingGroupOps(p, group), s);
    DoOne(SetSpec(SchedulingGroup, GroupLink(group)), DoAll(relabel, s));
  }

  lemma Relabelled(s: PodState, p: PodState, group: string)
    requires s.labels == p.labels && group != ""
    ensures Entry(DoAll(RelabelOps(p, group), s).labels, GROUP_LABEL) == Str(group)
  {
    DoOne(NewMap(Labels, map[GROUP_LABEL := Str(group)]), s);
    DoOne(SetKey(Labels, GROUP_LABEL, Str(group)), s);
  }

  // ---- the sidecar ----

  /** One container more, the last, and the sidecar's account unless the pod has one of its own. */
  ghost predicate Accompanied(c: Container, t: PodState, s: PodState) {
    && t.containers == s.containers + [c]
    && t.serviceAccount == (if AsText(s.serviceAccount) in {"", "default"} then Str("fluence-sidecar") else s.serviceAccount)
    && t.labels == s.labels && t.inits == s.inits && t.gates == s.gates && t.group == s.group && t.annotations == s.annotations
  }

  lemma SidecarAccompanies(ctx: Ctx, s: PodState, q: PodState, observe: bool, extra: seq<Json>)
    requires q.containers != [] && q.serviceAccount == s.serviceAccount
    ensures Accompanied(ReadContainer(SidecarContainer(ctx, q, observe, extra)), DoAll(SidecarStep(ctx, q, observe, extra).edits, s), s)
  {
    AccompanyBy(s, SidecarContainer(ctx, q, observe, extra), AsText(q.serviceAccount) == "" || AsText(q.serviceAccount) == "default");
  }

  lemma AccompanyBy(s: PodState, c: Json, adopts: bool)
    requires adopts <==> AsText(s.serviceAccount) == "" || AsText(s.serviceAccount) == "default"
    ensures Accompanied(ReadContainer(c), DoAll([Put(Containers, c, false)] + if adopts then [SetSpec(ServiceAccountName, Str(SIDECAR))] else [], s), s)
  {
    var put, account := Put(Containers, c, false), SetSpec(ServiceAccountName, Str(SIDECAR));
    DoAllConcat([put], if adopts then [account] else [], s);
    DoOne(put, s);
    DoOne(account, Do(put, s));
  }

  // ---- a scout ----

  /** What a scout's operations make of it, given the container they add. */
  ghost predicate ScoutMade(ctx: Ctx, group: string, c: Container, t: PodState, s: PodState) {
    && |t.containers| == |s.containers| + 1 && t.containers[|s.containers|] == c
    && t.gates == s.gates && Linked(t, group) && Entry(t.labels, "fluence.flux-framework.org/group") == Str(group)
    && |t.inits| == |s.inits| + 1 && s.inits <= t.inits && IsStager(ctx, t.inits[|s.inits|])
    && t.serviceAccount == (if AsText(s.serviceAccount) in {"", "default"} then Str("fluence-sidecar") else s.serviceAccount)
  }

  lemma ScoutMadeBy(ctx: Ctx, group: string, c: Container, s: PodState, s1: PodState, s2: PodState, s3: PodState, t: PodState)
    requires Joined(group, s1, s) && Submits(ctx, s2, s1) && Alike(s3, s2) && Accompanied(c, t, s3)
    ensures ScoutMade(ctx, group, c, t, s)
  {
  }

  lemma ScoutServes(ctx: Ctx, s: PodState, p: PodState, group: string, extra: seq<Json>)
    requires s.group == p.group && s.labels == p.labels && s.inits == p.inits && s.serviceAccount == p.serviceAccount && p.containers != []
    ensures var g := MutateScout(ctx, p, group, extra);
            g.pod.containers != []
            && ScoutMade(ctx, group + SCOUT_SUFFIX, ReadContainer(SidecarContainer(ctx, g.pod, false, [Plain("FLUENCE_GANG_GROUP", group)] + extra)),
                         DoAll(g.edits, s), s)
  {
    var link, submit := LinkOps(p, group + SCOUT_SUFFIX), Submitter(ctx, p);
    var role, envs := Run(submit.pod, SetEnv(RoleEnv("scout"))), [EnvVar("FLUENCE_GANG_GROUP", group)] + extra;
    var sidecar := SidecarStep(ctx, role.pod, false, envs).edits;
    var s1 := DoAll(link, s);
    var s2 := DoAll(submit.edits, s1);
    var s3 := DoAll(role.edits, s2);
    assert |group + SCOUT_SUFFIX| > 0;
    LinkJoins(s, p, group + SCOUT_SUFFIX);
    SubmitterServes(ctx, s1, p);
    RunInside(submit.pod, SetEnv(RoleEnv("scout")));
    InnerAlike(role.edits, s2);
    SubmitterGrows(ctx, p);
    SidecarAccompanies(ctx, s3, role.pod, false, envs);
    ScoutMadeBy(ctx, group + SCOUT_SUFFIX, ReadContainer(SidecarContainer(ctx, role.pod, false, envs)), s, s1, s2, s3, DoAll(sidecar, s3));
    DoFour(link, submit.edits, role.edits, sidecar, s);
  }

  // ---- a worker ----

  /** What a worker's operations make of it beside its gate, link and notes. */
  ghost predicate WorkerMade(group: string, t: PodState, s: PodState) {
    && Entry(t.labels, "fluence.flux-framework.org/group") == Str(group)
    && |t.containers| == |s.containers| && t.inits == s.inits && t.serviceAccount == s.serviceAccount
    && (if AsText(s.priorityClass) == "" then t.priorityClass == Str("fluence-quantum-classical") && t.priority == Null
        else t.priorityClass == s.priorityClass && t.priority == s.priority)
  }

  ghost predicate Raised(t: PodState, s: PodState) {
    && t.labels == s.labels && |t.containers| == |s.containers| && t.inits == s.inits && t.serviceAccount == s.serviceAccount
    && (if AsText(s.priorityClass) == "" then t.priorityClass == Str("fluence-quantum-classical") && t.priority == Null
        else t.priorityClass == s.priorityClass && t.priority == s.priority)
  }

  lemma GateRaises(s: PodState, p: PodState)
    requires s.priorityClass == p.priorityClass && !Named(p.gates, QUANTUM_GATE)
    ensures Raised(DoAll(GateOps(p, QUANTUM_GATE), s), s)
  {
    var put := Put(Gates, Gate(QUANTUM_GATE), p.gates == []);
    var a, b := SetSpec(PriorityClassName, Str(PRIORITY_CLASS)), SetSpec(Priority, Null);
    DoOne(put, s);
    var s1 := Do(put, s);
    if AsText(p.priorityClass) == "" {
      DoAllConcat([put], [a, b], s);
      assert [a, b] == [a] + [b];
      DoAllConcat([a], [b], s1);
      DoOne(a, s1);
      DoOne(b, DoAll([a], s1));
    } else {
      assert [put] + [] == [put];
    }
  }

  lemma AnnotationsAreNotes(p: PodState, d: Dependency)
    requires p.annotations.Some?
    ensures Notes(AnnotateOp(p, DEPENDS_ON_KIND, d.kind) + AnnotateOp(p, DEPENDS_ON_SCOUT, d.scout) + AnnotateOp(p, DEPENDS_ON_GATE, d.gate))
  {
  }

  lemma WorkerMadeBy(group: string, s: PodState, s1: PodState, s2: PodState, s3: PodState, t: PodState)
    requires Joined(group, s1, s) && Raised(s2, s1) && Alike(s3, s2) && Alike(t, s3)
    ensures WorkerMade(group, t, s)
  {
  }

  lemma WorkerServes(s: PodState, p: PodState, group: string)
    requires s.group == p.group && s.labels == p.labels && s.priorityClass == p.priorityClass && group != ""
    requires p.annotations.Some? && !Named(p.gates, QUANTUM_GATE)
    ensures WorkerMade(group, DoAll(MutateWorker(p, group).edits, s), s)
  {
    var link, d := LinkOps(p, group), WaitForScout(group);
    var gate := GateOps(p, QUANTUM_GATE);
    var notes := AnnotateOp(p, DEPENDS_ON_KIND, d.kind) + AnnotateOp(p, DEPENDS_ON_SCOUT, d.scout) + AnnotateOp(p, DEPENDS_ON_GATE, d.gate);
    var inside := WorkerEnvs(p).edits + Run(WorkerEnvs(p).pod, DropResource(QPU)).edits;
    var s1 := DoAll(link, s);
    var s2 := DoAll(gate, s1);
    var s3 := DoAll(notes, s2);
    LinkJoins(s, p, group);
    GateRaises(s1, p);
    AnnotationsAreNotes(p, d);
    NotesAlike(notes, s2);
    WorkerEnvsInside(p);
    RunInside(WorkerEnvs(p).pod, DropResource(QPU));
    InnerAlike(inside, s3);
    WorkerMadeBy(group, s, s1, s2, s3, DoAll(inside, s3));
    DoFour(link, gate, notes, inside, s);
    WorkerEdits(p, group, link, gate, notes, inside);
  }

  lemma WorkerEdits(p: PodState, group: string, link: seq<Edit>, gate: seq<Edit>, notes: seq<Edit>, inside: seq<Edit>)
    requires link == LinkOps(p, group) && gate == GateOps(p, QUANTUM_GATE)
    requires var d := WaitForScout(group);
             notes == AnnotateOp(p, DEPENDS_ON_KIND, d.kind) + AnnotateOp(p, DEPENDS_ON_SCOUT, d.scout) + AnnotateOp(p, DEPENDS_ON_GATE, d.gate)
    requires inside == WorkerEnvs(p).edits + Run(WorkerEnvs(p).pod, DropResource(QPU)).edits
    ensures MutateWorker(p, group).edits == link + gate + notes + inside
  {
    var d := WaitForScout(group);
    DependencyEdits(p, group);
    WorkerParts(p, group);
    Regroup(gate, AnnotateOp(p, DEPENDS_ON_KIND, d.kind), AnnotateOp(p, DEPENDS_ON_SCOUT, d.scout), AnnotateOp(p, DEPENDS_ON_GATE, d.gate));
    Regroup(link, gate, notes, []);
    Regroup(link + gate + notes, WorkerEnvs(p).edits, Run(WorkerEnvs(p).pod, DropResource(QPU)).edits, []);
  }

  lemma DependencyEdits(p: PodState, group: string)
    ensures var d := WaitForScout(group);
            DependencyOps(p, d) == GateOps(p, QUANTUM_GATE) + AnnotateOp(p, DEPENDS_ON_KIND, d.kind)
                                   + AnnotateOp(p, DEPENDS_ON_SCOUT, d.scout) + AnnotateOp(p, DEPENDS_ON_GATE, d.gate)
  {
  }

  lemma Regroup(a: seq<Edit>, b: seq<Edit>, c: seq<Edit>, d: seq<Edit>)
    ensures a + b + c + d == a + (b + c + d) && a + (b + c) == a + b + c
  {
  }

  /** Where a worker reads the task's job id and session: the annotations the sidecar stamps on it. */
  lemma WorkersReadTheStamps()
    ensures JOB_ENV == FromField("FLUENCE_QUANTUM_JOB_ID", "metadata.annotations['" + Handoff.JOB_ID + "']")
    ensures SESSION_ENV == FromField("FLUENCE_QUANTUM_SESSION_ID", "metadata.annotations['" + Handoff.SESSION_ID + "']")
    ensures Handoff.JOB_ID == "fluence.flux-framework.org/quantum-job-id" && Handoff.SESSION_ID == "fluence.flux-framework.org/quantum-session-id"
  {
  }

  /** A worker's container: told where to read its ids unless those variables were known, with what it had but the qpu, and nothing mounted. */
  predicate WorkerContainer(before: Container, known: seq<Json>, c: Container) {
    && c.mounts == before.mounts && before.env <= c.env
    && c.requests == before.requests - {"fluxion.flux-framework.org/qpu"} && c.limits == before.limits - {"fluxion.flux-framework.org/qpu"}
    && Named(c.env, "FLUENCE_QUANTUM_JOB_ID") && Named(c.env, "FLUENCE_QUANTUM_SESSION_ID")
    && (!Named(known, "FLUENCE_QUANTUM_JOB_ID") ==>
          FromField("FLUENCE_QUANTUM_JOB_ID", "metadata.annotations['" + Handoff.JOB_ID + "']") in c.env)
    && (!Named(known, "FLUENCE_QUANTUM_SESSION_ID") ==>
          FromField("FLUENCE_QUANTUM_SESSION_ID", "metadata.annotations['" + Handoff.SESSION_ID + "']") in c.env)
  }

  lemma EnvGiven(c: Container, e: Json)
    requires c.name != SIDECAR
    ensures var d := After(SetEnv(e), c);
            && d == c.(env := d.env) && c.env <= d.env && Named(d.env, NameOf(e)) && (!Named(c.env, NameOf(e)) ==> e in d.env)
            && forall f :: f in d.env ==> f in c.env || f == e
  {
    SetEnvNames(c, e);
    if !Named(c.env, NameOf(e)) {
      assert After(SetEnv(e), c).env[|c.env|] == e;
    }
  }

  lemma WorkerNamesDiffer()
    ensures NameOf(RoleEnv("worker")) == ROLE_ENV && NameOf(JOB_ENV) == "FLUENCE_QUANTUM_JOB_ID" && NameOf(SESSION_ENV) == "FLUENCE_QUANTUM_SESSION_ID"
    ensures ROLE_ENV != "FLUENCE_QUANTUM_JOB_ID" && ROLE_ENV != "FLUENCE_QUANTUM_SESSION_ID" && "FLUENCE_QUANTUM_JOB_ID" != "FLUENCE_QUANTUM_SESSION_ID"
  {
    assert |ROLE_ENV| == 25 && |"FLUENCE_QUANTUM_JOB_ID"| == 22 && |"FLUENCE_QUANTUM_SESSION_ID"| == 26;
  }

  lemma StillUnnamed(c: Container, d: Container, e: Json, name: string)
    requires !Named(c.env, name) && NameOf(e) != name && forall f :: f in d.env ==> f in c.env || f == e
    ensures !Named(d.env, name)
  {
    forall i | 0 <= i < |d.env| ensures NameOf(d.env[i]) != name {
      assert d.env[i] in d.env;
    }
  }

  /** A container after its three variables, before the qpu goes. */
  lemma WorkerToldAll(c: Container)
    requires c.name != SIDECAR
    ensures var d := After(SetEnv(SESSION_ENV), After(SetEnv(JOB_ENV), After(SetEnv(RoleEnv("worker")), c)));
            && d == c.(env := d.env) && c.env <= d.env
            && (!Named(c.env, "FLUENCE_QUANTUM_JOB_ID") ==> JOB_ENV in d.env) && (!Named(c.env, "FLUENCE_QUANTUM_SESSION_ID") ==> SESSION_ENV in d.env)
            && Named(d.env, "FLUENCE_QUANTUM_JOB_ID") && Named(d.env, "FLUENCE_QUANTUM_SESSION_ID")
  {
    var c1 := After(SetEnv(RoleEnv("worker")), c);
    var c2 := After(SetEnv(JOB_ENV), c1);
    var d := After(SetEnv(SESSION_ENV), c2);
    WorkerNamesDiffer();
    EnvGiven(c, RoleEnv("worker"));
    EnvGiven(c1, JOB_ENV);
    EnvGiven(c2, SESSION_ENV);
    NamedPrefix(c2.env, d.env, "FLUENCE_QUANTUM_JOB_ID");
    if !Named(c.env, "FLUENCE_QUANTUM_JOB_ID") {
      StillUnnamed(c, c1, RoleEnv("worker"), "FLUENCE_QUANTUM_JOB_ID");
      assert forall e :: e in c2.env ==> e in d.env;
    }
    if !Named(c.env, "FLUENCE_QUANTUM_SESSION_ID") {
      StillUnnamed(c, c1, RoleEnv("worker"), "FLUENCE_QUANTUM_SESSION_ID");
      StillUnnamed(c1, c2, JOB_ENV, "FLUENCE_QUANTUM_SESSION_ID");
    }
  }

  lemma WorkerContainerMade(c: Container)
    requires c.name != SIDECAR
    ensures WorkerContainer(c, c.env, After(DropResource(QPU), After(SetEnv(SESSION_ENV), After(SetEnv(JOB_ENV), After(SetEnv(RoleEnv("worker")), c)))))
  {
    WorkerToldAll(c);
    WorkersReadTheStamps();
  }

  lemma WorkerContainersMade(p: PodState, group: string)
    requires forall c :: c in p.containers ==> c.name != SIDECAR
    ensures var q := MutateWorker(p, group).pod;
            && q.volumes == p.volumes && |q.containers| == |p.containers|
            && forall i :: 0 <= i < |p.containers| ==> WorkerContainer(p.containers[i], p.containers[i].env, q.containers[i])
  {
    forall i | 0 <= i < |p.containers| ensures WorkerContainer(p.containers[i], p.containers[i].env, MutateWorker(p, group).pod.containers[i]) {
      assert p.containers[i] in p.containers;
      WorkerContainerMade(p.containers[i]);
    }
  }
}
