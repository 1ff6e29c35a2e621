/** The pods of a shared gang as the server stores them: all that makes one a scout and the others workers. */
module GangStored {
  import opened Vocabulary
  import opened Json
  import opened PodEdits
  import opened PodMirror
  import opened PodTasks
  import opened Handlers
  import opened HandlerPatches
  import opened HandlerOutcomes
  import opened GangRoles
  import opened Submitters
  import opened MembersServed
  import opened GangSplit

  // ---- annotations ----

  const PROTECTED_KEY := "fluence.flux-framework.org/protected"
  const RECORD_KEY := "fluence.flux-framework.org/admitted-group"

  /** Marked protected and named for its gang's record, with every other annotation as submitted but what a worker waits for. */
  ghost predicate Recorded(gang: Gang, p: PodState, s: PodState) {
    && Entry(s.annotations, PROTECTED_KEY) == Str("quantum")
    && Entry(s.annotations, RECORD_KEY) == Str(gang.ns + "/" + gang.group)
    && forall k :: k !in DEPENDENCY && k != PROTECTED_KEY && k != RECORD_KEY ==> Entry(s.annotations, k) == Entry(p.annotations, k)
  }

  lemma StampsAre(gang: Gang, ctx: Ctx, p: PodState)
    requires MemberOf(gang, ctx, p)
    ensures Stamps(ctx, p) == map[PROTECTED_KEY := Str("quantum"), RECORD_KEY := Str(gang.ns + "/" + gang.group)]
    ensures PROTECTED_KEY != RECORD_KEY && PROTECTED_KEY !in DEPENDENCY && RECORD_KEY !in DEPENDENCY
  {
    AdmissionStampsFit(ctx, gang.ns + "/" + gang.group, 0);
    var at := |"fluence.flux-framework.org/"|;
    assert PROTECTED_KEY[at] == 'p' && RECORD_KEY[at] == 'a';
  }

  lemma RecordedFrom(gang: Gang, p: PodState, s: PodState)
    requires s.annotations.Some?
    requires AgreeOutside(DEPENDENCY, s.annotations.value,
                          Noted(p) + map[PROTECTED_KEY := Str("quantum"), RECORD_KEY := Str(gang.ns + "/" + gang.group)])
    requires PROTECTED_KEY != RECORD_KEY && PROTECTED_KEY !in DEPENDENCY && RECORD_KEY !in DEPENDENCY
    ensures Recorded(gang, p, s)
  {
    var all := Noted(p) + map[PROTECTED_KEY := Str("quantum"), RECORD_KEY := Str(gang.ns + "/" + gang.group)];
    assert all[PROTECTED_KEY] == Str("quantum") && all[RECORD_KEY] == Str(gang.ns + "/" + gang.group);
    forall k | k !in DEPENDENCY && k != PROTECTED_KEY && k != RECORD_KEY ensures Entry(s.annotations, k) == Entry(p.annotations, k) {
      assert k in all <==> k in Noted(p);
    }
  }

  lemma StoredRecorded(gang: Gang, a: Arrival, groups: Groups)
    requires Of(gang, a) && Admit(a, groups).Admitted?
    ensures Stored(a, Admit(a, groups)).Some? && Recorded(gang, Read(a.doc), Stored(a, Admit(a, groups)).value)
  {
    NothingLost(a.doc, DEFAULT_ORDER, a.ctx, groups);
    assert DEFAULT_ORDER[1] == QuantumHandler;
    StampsAre(gang, a.ctx, Read(a.doc));
    RecordedFrom(gang, Read(a.doc), Stored(a, Admit(a, groups)).value);
  }

  // ---- a scout ----

  /** What a scout's workload containers are given, against the pod as submitted and what every pod is injected with. */
  predicate Outfit(ctx: Ctx, before: Container, c: Container, mounts: bool) {
    && StagedFrom(before.(env := before.env + ctx.injected), c)
    && (mounts ==> HandsOverFrom(before.(env := before.env + ctx.injected), c))
  }

  /** In a rehearsal every workload container is told. */
  predicate RehearsalTold(p: PodState, s: PodState) {
    Label(p, "fluence.flux-framework.org/rehearsal") == "true" ==>
      forall i :: 0 <= i < |p.containers| && i < |s.containers| && p.containers[i].name != SIDECAR ==> Named(s.containers[i].env, "FLUENCE_REHEARSAL")
  }

  /** The sidecar of a scout: told whose workers it lets go, and rehearsing or observing only as it should. */
  ghost predicate ScoutSidecar(gang: Gang, ctx: Ctx, p: PodState, s: PodState, c: Container)
    requires s.containers != []
  {
    && IsSidecar(ctx, s.containers[0].env, c)
    && Gives(c.env, "FLUENCE_GANG_GROUP", gang.group)
    && (Label(p, "fluence.flux-framework.org/rehearsal") == "true" ==> Gives(c.env, "FLUENCE_REHEARSAL", "true"))
    && (!Named(ctx.injected, "FLUENCE_OBSERVE") && !Named(s.containers[0].env, "FLUENCE_OBSERVE") ==> !Named(c.env, "FLUENCE_OBSERVE"))
  }

  /**
   * A stored scout has exactly one container more than it came with, the last, and that is
   * its sidecar. Each of its own has the interceptor, and the handoff volume unless the pod
   * came with one of that name; the volumes are there, the init container stages the
   * interceptor, and the account is the sidecar's unless the pod has its own.
   */
  ghost predicate ScoutEquipped(gang: Gang, ctx: Ctx, p: PodState, s: PodState) {
    && |s.containers| == |p.containers| + 1
    && ScoutSidecar(gang, ctx, p, s, s.containers[|p.containers|])
    && (forall i :: 0 <= i < |p.containers| ==> Outfit(ctx, p.containers[i], s.containers[i], !Named(p.volumes, "fluence-handoff")))
    && Scratch("fluence-pkg") in s.volumes && Named(s.volumes, "fluence-handoff")
    && (!Named(p.volumes, "fluence-handoff") ==> Scratch("fluence-handoff") in s.volumes)
    && |s.inits| == |p.inits| + 1 && p.inits <= s.inits && IsStager(ctx, s.inits[|p.inits|])
    && s.serviceAccount == (if AsText(p.serviceAccount) in {"", "default"} then Str("fluence-sidecar") else p.serviceAccount)
    && Entry(s.labels, "fluence.flux-framework.org/group") == Str(gang.group + "-scout")
    && Recorded(gang, p, s) && RehearsalTold(p, s)
  }

  /** The pod a member learns its role on is, where its operations look, the one submitted. */
  lemma EnrolledAlike(gang: Gang, a: Arrival)
    requires Of(gang, a)
    ensures var p, e := Read(a.doc), Enrolled(a);
            && Alike(DoAll(e.edits, p), p) && Alike(e.pod, p) && e.pod.volumes == p.volumes
            && ContainersExtend(e.pod.containers, p.containers)
  {
    var p := Read(a.doc);
    var q := Injected(a.ctx, p);
    InjectedMember(gang, a.ctx, p);
    EnrolNotes(a.ctx, q.pod);
    EnrolledEdits(a);
    NotesAlike(Enrolled(a).edits, p);
    EnrolGrows(a.ctx, q.pod);
    GrowsThen(Enrolled(a).pod, q.pod, p);
    EnrolledVolumes(a);
  }

  lemma EnrolledVolumes(a: Arrival)
    ensures Enrolled(a).pod.volumes == Read(a.doc).volumes
  {
  }

  /** The containers then: injected with variables, and told of a rehearsal. */
  lemma EnrolledContainer(a: Arrival, i: nat)
    requires i < |Read(a.doc).containers|
    ensures i < |Enrolled(a).pod.containers|
    ensures var c, d := Read(a.doc).containers[i], Enrolled(a).pod.containers[i];
            d in {c, After(Inject(a.ctx.injected), c), After(SetEnv(REHEARSAL_ENV), c), After(SetEnv(REHEARSAL_ENV), After(Inject(a.ctx.injected), c))}
  {
  }

  lemma AllUnnamed(c: Container, injected: seq<Json>, name: string)
    requires !Named(c.env + injected, name)
    ensures !Named(c.env, name) && Leaves(Inject(injected), name)
  {
    var all := c.env + injected;
    if Named(c.env, name) {
      NamedPrefix(c.env, all, name);
    }
    forall e | e in injected ensures NameOf(e) != name {
      var j :| 0 <= j < |injected| && injected[j] == e;
      assert all[|c.env| + j] == e;
    }
  }

  /** A variable neither the container nor the configuration defines is still undefined then. */
  lemma EnrolledUnnamed(a: Arrival, i: nat, name: string)
    requires i < |Read(a.doc).containers|
    requires !Named(Read(a.doc).containers[i].env + a.ctx.injected, name) && name != "FLUENCE_REHEARSAL"
    ensures i < |Enrolled(a).pod.containers| && !Named(Enrolled(a).pod.containers[i].env, name)
  {
    var c := Read(a.doc).containers[i];
    EnrolledContainer(a, i);
    AllUnnamed(c, a.ctx.injected, name);
    LeavesUnnamed(Inject(a.ctx.injected), c, name);
    LeavesUnnamed(SetEnv(REHEARSAL_ENV), c, name);
    LeavesUnnamed(SetEnv(REHEARSAL_ENV), After(Inject(a.ctx.injected), c), name);
  }

  lemma OutfitFrom(gang: Gang, a: Arrival, c: Container, i: nat, mounts: bool)
    requires Of(gang, a) && i < |Read(a.doc).containers| == |Enrolled(a).pod.containers|
    requires StagedFrom(Enrolled(a).pod.containers[i], c) && (mounts ==> HandsOverFrom(Enrolled(a).pod.containers[i], c))
    ensures Outfit(a.ctx, Read(a.doc).containers[i], c, mounts)
  {
    var before := Read(a.doc).containers[i].env + a.ctx.injected;
    assert |"FLUENCE_REHEARSAL"| == 17 && |"PYTHONPATH"| == 10 && |"FLUENCE_POD_UID"| == 15 && |"FLUENCE_HANDOFF_DIR"| == 19;
    if !Named(before, "PYTHONPATH") {
      EnrolledUnnamed(a, i, "PYTHONPATH");
    }
    if !Named(before, "FLUENCE_POD_UID") {
      EnrolledUnnamed(a, i, "FLUENCE_POD_UID");
    }
    if !Named(before, "FLUENCE_HANDOFF_DIR") {
      EnrolledUnnamed(a, i, "FLUENCE_HANDOFF_DIR");
    }
  }

  lemma EnrolledTold(a: Arrival, i: nat)
    requires i < |Read(a.doc).containers| && Rehearsing(Injected(a.ctx, Read(a.doc)).pod)
    ensures i < |Injected(a.ctx, Read(a.doc)).pod.containers| && i < |Enrolled(a).pod.containers|
    ensures Enrolled(a).pod.containers[i] == After(SetEnv(REHEARSAL_ENV), Injected(a.ctx, Read(a.doc)).pod.containers[i])
  {
  }

  lemma TellsRehearsal(c: Container)
    requires c.name != SIDECAR
    ensures Named(After(SetEnv(REHEARSAL_ENV), c).env, "FLUENCE_REHEARSAL")
  {
    SetEnvNames(c, REHEARSAL_ENV);
  }

  lemma InjectedReads(a: Arrival, i: nat)
    requires i < |Read(a.doc).containers|
    ensures i < |Injected(a.ctx, Read(a.doc)).pod.containers|
    ensures Injected(a.ctx, Read(a.doc)).pod.containers[i].name == Read(a.doc).containers[i].name
    ensures Injected(a.ctx, Read(a.doc)).pod.labels == Read(a.doc).labels
  {
  }

  lemma EnrolledRehearsal(a: Arrival)
    ensures RehearsalTold(Read(a.doc), Enrolled(a).pod)
  {
    var p := Read(a.doc);
    forall i | Rehearsing(p) && 0 <= i < |p.containers| && i < |Enrolled(a).pod.containers| && p.containers[i].name != SIDECAR
      ensures Named(Enrolled(a).pod.containers[i].env, "FLUENCE_REHEARSAL")
    {
      InjectedReads(a, i);
      EnrolledTold(a, i);
      TellsRehearsal(Injected(a.ctx, p).pod.containers[i]);
    }
  }

  lemma RehearsalCarried(p: PodState, e: PodState, s: PodState)
    requires RehearsalTold(p, e) && |e.containers| == |p.containers|
    requires forall i :: 0 <= i < |p.containers| && i < |s.containers| ==> e.containers[i].env <= s.containers[i].env
    ensures RehearsalTold(p, s)
  {
    forall i | Rehearsing(p) && 0 <= i < |p.containers| && i < |s.containers| && p.containers[i].name != SIDECAR
      ensures Named(s.containers[i].env, "FLUENCE_REHEARSAL")
    {
      NamedPrefix(e.containers[i].env, s.containers[i].env, "FLUENCE_REHEARSAL");
    }
  }

  /** The webhook's own scout: its containers and volumes. */
  lemma ScoutOutfitted(gang: Gang, a: Arrival)
    requires Of(gang, a)
    ensures Equipped(Enrolled(a).pod, Shaping(a, true).pod)
    ensures ContainersExtend(Shaping(a, true).pod.containers, Enrolled(a).pod.containers)
  {
    var e, extra := Enrolled(a).pod, Rehearsal(Injected(a.ctx, Read(a.doc)).pod);
    ShapingEdits(gang, a, true);
    var q := Submitter(a.ctx, e).pod;
    SubmitterEquips(a.ctx, e);
    SubmitterGrows(a.ctx, e);
    RunGrows(q, SetEnv(RoleEnv("scout")));
    EquippedStays(e, q, Run(q, SetEnv(RoleEnv("scout"))).pod);
    ScoutGrows(a.ctx, e, gang.group, extra);
  }

  lemma ScoutOnServer(gang: Gang, a: Arrival, s: PodState)
    requires Of(gang, a) && s == DoAll(Shaping(a, true).edits, Read(a.doc))
    ensures var q := Shaping(a, true).pod;
            q.containers != []
            && ScoutMade(a.ctx, gang.group + SCOUT_SUFFIX,
                         ReadContainer(SidecarContainer(a.ctx, q, false, ScoutTold(gang.group, Read(a.doc)))),
                         s, Read(a.doc))
  {
    var p, e := Read(a.doc), Enrolled(a);
    EnrolledAlike(gang, a);
    InjectedMember(gang, a.ctx, p);
    ShapingEdits(gang, a, true);
    assert Rehearsal(Injected(a.ctx, p).pod) == Rehearsal(p);
    DoAllConcat(e.edits, MutateScout(a.ctx, e.pod, gang.group, Rehearsal(p)).edits, p);
    ScoutServes(a.ctx, DoAll(e.edits, p), e.pod, gang.group, Rehearsal(p));
  }

  function ScoutTold(group: string, p: PodState): seq<Json> {
    [Plain("FLUENCE_GANG_GROUP", group)] + Rehearsal(p)
  }

  lemma ScoutToldNames(group: string, p: PodState)
    ensures var extra := ScoutTold(group, p);
            && LastOf(extra, 0, "FLUENCE_GANG_GROUP") && !Named(extra, "FLUENCE_OBSERVE")
            && (Rehearsing(p) ==> |extra| == 2 && extra[1] == Plain("FLUENCE_REHEARSAL", "true") && LastOf(extra, 1, "FLUENCE_REHEARSAL"))
  {
    assert |"FLUENCE_GANG_GROUP"| == 18 && |"FLUENCE_REHEARSAL"| == 17 && |"FLUENCE_OBSERVE"| == 15;
    var extra := ScoutTold(group, p);
    assert forall i :: 0 <= i < |extra| ==> NameOf(extra[i]) == if i == 0 then "FLUENCE_GANG_GROUP" else "FLUENCE_REHEARSAL";
  }

  lemma SidecarFollows(gang: Gang, ctx: Ctx, p: PodState, q: PodState, s: PodState)
    requires q.containers != [] && Named(q.volumes, "fluence-handoff")
    requires s.containers != [] && s.containers[0] == q.containers[0]
    ensures ScoutSidecar(gang, ctx, p, s, ReadContainer(SidecarContainer(ctx, q, false, ScoutTold(gang.group, p))))
  {
    var extra := ScoutTold(gang.group, p);
    ScoutToldNames(gang.group, p);
    SidecarIs(ctx, q, false, extra);
    SidecarTold(ctx, q, false, extra, 0, "FLUENCE_GANG_GROUP", gang.group);
    if Rehearsing(p) {
      SidecarTold(ctx, q, false, extra, 1, "FLUENCE_REHEARSAL", "true");
    }
    if !Named(ctx.injected, "FLUENCE_OBSERVE") && !Named(q.containers[0].env, "FLUENCE_OBSERVE") {
      SidecarObserves(ctx, q, extra);
    }
  }

  lemma ScoutOutfits(gang: Gang, a: Arrival, s: PodState)
    requires Of(gang, a) && |s.containers| >= |Read(a.doc).containers| == |Shaping(a, true).pod.containers|
    requires forall i :: 0 <= i < |Read(a.doc).containers| ==> s.containers[i] == Shaping(a, true).pod.containers[i]
    ensures var p := Read(a.doc);
            forall i :: 0 <= i < |p.containers| ==> Outfit(a.ctx, p.containers[i], s.containers[i], !Named(p.volumes, "fluence-handoff"))
  {
    var p, e, q := Read(a.doc), Enrolled(a).pod, Shaping(a, true).pod;
    ScoutOutfitted(gang, a);
    EnrolledAlike(gang, a);
    EnrolledWorkloads(gang, a);
    forall i | 0 <= i < |p.containers| ensures Outfit(a.ctx, p.containers[i], s.containers[i], !Named(p.volumes, "fluence-handoff")) {
      assert e.containers[i] in e.containers && EquippedAt(e, q.containers[i], i);
      OutfitFrom(gang, a, s.containers[i], i, !Named(p.volumes, "fluence-handoff"));
    }
  }

  lemma CarriedBy(p: PodState, e: PodState, q: PodState, s: PodState)
    requires RehearsalTold(p, e) && ContainersExtend(q.containers, e.containers) && |q.containers| == |p.containers| <= |s.containers|
    requires forall i :: 0 <= i < |p.containers| ==> s.containers[i] == q.containers[i]
    ensures RehearsalTold(p, s)
  {
    assert forall i :: 0 <= i < |p.containers| ==> Extends(q.containers[i], e.containers[i]);
    RehearsalCarried(p, e, s);
  }

  lemma ScoutRehearsal(gang: Gang, a: Arrival, s: PodState)
    requires Of(gang, a) && |s.containers| >= |Read(a.doc).containers| == |Shaping(a, true).pod.containers|
    requires forall i :: 0 <= i < |Read(a.doc).containers| ==> s.containers[i] == Shaping(a, true).pod.containers[i]
    ensures RehearsalTold(Read(a.doc), s)
  {
    var p, e, q := Read(a.doc), Enrolled(a).pod, Shaping(a, true).pod;
    ScoutOutfitted(gang, a);
    EnrolledRehearsal(a);
    CarriedBy(p, e, q, s);
  }

  lemma ScoutEquippedStored(gang: Gang, a: Arrival, v: Verdict, s: PodState)
    requires Of(gang, a) && ShapedBy(gang, Shaping(a, true), v) && Recorded(gang, Read(a.doc), s)
    requires s == DoAll(v.s.g.edits, Read(a.doc)) && Agree(s, v.s.g.pod)
    ensures ScoutEquipped(gang, a.ctx, Read(a.doc), s)
  {
    var p, q := Read(a.doc), Shaping(a, true).pod;
    ScoutKeepsQpu(gang, a);
    ScoutOnServer(gang, a, s);
    ScoutOutfitted(gang, a);
    EnrolledAlike(gang, a);
    SidecarFollows(gang, a.ctx, p, q, s);
    ScoutOutfits(gang, a, s);
    ScoutRehearsal(gang, a, s);
  }

  // ---- a worker ----

  /**
   * A stored worker has the containers and volumes it came with: told where to read the
   * task's ids, without the qpu, and with nothing staged or mounted. It carries the gang's
   * label, and the gang's priority class unless it has its own.
   */
  ghost predicate WorkerEquipped(gang: Gang, ctx: Ctx, p: PodState, s: PodState) {
    && |s.containers| == |p.containers| && s.volumes == p.volumes
    && (forall i :: 0 <= i < |p.containers| ==> WorkerContainer(p.containers[i], p.containers[i].env + ctx.injected, s.containers[i]))
    && WorkerMade(gang.group, s, p) && Recorded(gang, p, s) && RehearsalTold(p, s)
  }

  lemma EnrolledMounts(a: Arrival, i: nat)
    requires i < |Read(a.doc).containers|
    ensures i < |Enrolled(a).pod.containers| && Enrolled(a).pod.containers[i].mounts == Read(a.doc).containers[i].mounts
  {
    EnrolledContainer(a, i);
  }

  lemma WorkerContainerFrom(a: Arrival, i: nat, c: Container)
    requires i < |Read(a.doc).containers| == |Enrolled(a).pod.containers|
    requires Extends(Enrolled(a).pod.containers[i], Read(a.doc).containers[i])
    requires WorkerContainer(Enrolled(a).pod.containers[i], Enrolled(a).pod.containers[i].env, c)
    ensures WorkerContainer(Read(a.doc).containers[i], Read(a.doc).containers[i].env + a.ctx.injected, c)
  {
    var known := Read(a.doc).containers[i].env + a.ctx.injected;
    EnrolledMounts(a, i);
    assert |"FLUENCE_REHEARSAL"| == 17 && |"FLUENCE_QUANTUM_JOB_ID"| == 22 && |"FLUENCE_QUANTUM_SESSION_ID"| == 26;
    if !Named(known, "FLUENCE_QUANTUM_JOB_ID") {
      EnrolledUnnamed(a, i, "FLUENCE_QUANTUM_JOB_ID");
    }
    if !Named(known, "FLUENCE_QUANTUM_SESSION_ID") {
      EnrolledUnnamed(a, i, "FLUENCE_QUANTUM_SESSION_ID");
    }
  }

  lemma EnrolledWorkloads(gang: Gang, a: Arrival)
    requires Of(gang, a)
    ensures forall c :: c in Enrolled(a).pod.containers ==> c.name != SIDECAR
  {
    var p, e := Read(a.doc), Enrolled(a).pod;
    EnrolledAlike(gang, a);
    forall c | c in e.containers ensures c.name != SIDECAR {
      var i :| 0 <= i < |e.containers| && e.containers[i] == c;
      assert Extends(c, p.containers[i]) && p.containers[i] in p.containers;
    }
  }

  lemma WorkerShaping(gang: Gang, a: Arrival)
    requires Of(gang, a)
    ensures Shaping(a, false).pod == MutateWorker(Enrolled(a).pod, gang.group).pod
  {
    ShapingEdits(gang, a, false);
  }

  lemma WorkerOutfitted(gang: Gang, a: Arrival)
    requires Of(gang, a)
    ensures var p, q := Read(a.doc), Shaping(a, false).pod;
            && q.volumes == p.volumes && |q.containers| == |p.containers|
            && forall i :: 0 <= i < |p.containers| ==> WorkerContainer(p.containers[i], p.containers[i].env + a.ctx.injected, q.containers[i])
  {
    var p, e := Read(a.doc), Enrolled(a).pod;
    var q := MutateWorker(e, gang.group).pod;
    EnrolledAlike(gang, a);
    EnrolledWorkloads(gang, a);
    WorkerContainersMade(e, gang.group);
    forall i | 0 <= i < |p.containers| ensures WorkerContainer(p.containers[i], p.containers[i].env + a.ctx.injected, q.containers[i]) {
      WorkerContainerFrom(a, i, q.containers[i]);
    }
    WorkerShaping(gang, a);
  }

  lemma WorkerRehearsal(gang: Gang, a: Arrival)
    requires Of(gang, a)
    ensures RehearsalTold(Read(a.doc), Shaping(a, false).pod)
  {
    var p, e := Read(a.doc), Enrolled(a).pod;
    EnrolledAlike(gang, a);
    EnrolledRehearsal(a);
    WorkerGrows(e, gang.group);
    WorkerShaping(gang, a);
    CarriedBy(p, e, Shaping(a, false).pod, Shaping(a, false).pod);
  }

  lemma WorkerOnItsOwn(gang: Gang, a: Arrival)
    requires Of(gang, a)
    ensures WorkerMade(gang.group, DoAll(Shaping(a, false).edits, Read(a.doc)), Read(a.doc))
  {
    var p, e := Read(a.doc), Enrolled(a);
    EnrolledAlike(gang, a);
    EnrolledOnServer(gang, a);
    ShapingEdits(gang, a, false);
    DoAllConcat(e.edits, MutateWorker(e.pod, gang.group).edits, p);
    WorkerServes(DoAll(e.edits, p), e.pod, gang.group);
  }

  lemma WorkerEquippedStored(gang: Gang, a: Arrival, v: Verdict, s: PodState)
    requires Of(gang, a) && ShapedBy(gang, Shaping(a, false), v) && Recorded(gang, Read(a.doc), s)
    requires s == DoAll(v.s.g.edits, Read(a.doc)) && Agree(s, v.s.g.pod)
    ensures WorkerEquipped(gang, a.ctx, Read(a.doc), s)
  {
    WorkerOutfitted(gang, a);
    WorkerRehearsal(gang, a);
    WorkerOnItsOwn(gang, a);
    WorkerContainersStored(gang, a, v, s);
    RelinkKeepsMade(gang.group, Shaping(a, false).edits, Read(a.doc), v.s.g.edits);
  }

  lemma RelinkKeepsMade(group: string, es: seq<Edit>, p: PodState, all: seq<Edit>)
    requires WorkerMade(group, DoAll(es, p), p)
    requires all == es || all == es + [SetSpec(SchedulingGroup, GroupLink(group))]
    ensures WorkerMade(group, DoAll(all, p), p)
  {
    var link := SetSpec(SchedulingGroup, GroupLink(group));
    DoAllConcat(es, [link], p);
    DoOne(link, DoAll(es, p));
  }

  // ---- the whole gang ----

  /** What the server stores of an admitted member. */
  ghost predicate StoredAs(gang: Gang, a: Arrival, scout: bool, s: PodState) {
    if scout then IsScoutPod(gang, s) && ScoutEquipped(gang, a.ctx, Read(a.doc), s)
    else IsWorkerPod(gang, s) && WorkerEquipped(gang, a.ctx, Read(a.doc), s)
  }

  lemma MemberStored(gang: Gang, a: Arrival, groups: Groups, begun: bool, promoted: bool)
    requires Of(gang, a) && GroupsRight(gang, groups, begun, promoted) && Admit(a, groups).Admitted?
    ensures var s := Stored(a, Admit(a, groups)); s.Some? && StoredAs(gang, a, Promotes(a, promoted), s.value)
  {
    var v := Admit(a, groups);
    AdmitShape(gang, a, groups, begun, promoted);
    StoredAgrees(a, groups);
    StoredRight(gang, a, groups, begun, promoted);
    StoredRecorded(gang, a, groups);
    if Promotes(a, promoted) {
      ScoutEquippedStored(gang, a, v, Stored(a, v).value);
    } else {
      WorkerEquippedStored(gang, a, v, Stored(a, v).value);
    }
  }

  /**
   * Every admitted pod of a shared gang is stored, in whatever order and with whatever
   * refusals they come, either as an ungated scout with its sidecar, the interceptor and
   * the handoff volume, or as a gated worker without a qpu that is told where its ids will be.
   */
  lemma MembersStored(gang: Gang, arrivals: seq<Arrival>, start: Groups, i: nat)
    requires Arriving(gang, arrivals) && Id(gang) !in start && ScoutId(gang) !in start && i < |arrivals|
    ensures AdmittedAt(arrivals, start, i) ==>
            var s := Stored(arrivals[i], VerdictAt(arrivals, start, i));
            s.Some? && StoredAs(gang, arrivals[i], Promotes(arrivals[i], Claimed(arrivals, start, i)), s.value)
  {
    GroupsThroughout(gang, arrivals, start, i);
    if AdmittedAt(arrivals, start, i) {
      MemberStored(gang, arrivals[i], GroupsAt(arrivals, start, i), Begun(arrivals, start, i), Claimed(arrivals, start, i));
    }
  }
}
