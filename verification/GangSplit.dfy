/**
 * The split of a shared gang: its pods admitted one at a time, in any order, under the
 * default handler order.
 */
module GangSplit {
  import opened Vocabulary
  import opened Options
  import opened Text
  import opened Json
  import opened Patches
  import opened PodEdits
  import opened PodMirror
  import opened PodTasks
  import opened Handlers
  import opened HandlerPatches
  import opened HandlerOutcomes
  import opened GangRoles

  /** The gang: its namespace, group name, size and each member's cores. */
  datatype Gang = Gang(ns: string, group: string, size: nat, cores: nat)

  /** One pod reaching the webhook, with what its admission knows. */
  datatype Arrival = Arrival(ctx: Ctx, doc: Json)

  function Id(gang: Gang): GroupId {
    GroupId(gang.ns, gang.group)
  }

  function ScoutId(gang: Gang): GroupId {
    GroupId(gang.ns, gang.group + SCOUT_SUFFIX)
  }

  predicate Indexed(p: PodState) {
    p.annotations.Some? && COMPLETION_INDEX in p.annotations.value
  }

  predicate IndexZero(p: PodState) {
    Annotation(p, COMPLETION_INDEX) == "0"
  }

  /** A fresh qpu pod of the gang, sized by its annotation or its owning Job. */
  predicate MemberOf(gang: Gang, ctx: Ctx, p: PodState) {
    && ctx.ns == gang.ns && ResolveGroup(ctx, p) == gang.group != "" && Mode(p) == SHARED
    && GangSize(ctx, p) == gang.size > 1 && (AnnotatedSize(p).Some? || ctx.jobSize > 0)
    && ctx.cores == gang.cores > 0 && KeysOrdered(ctx)
    && AnyRequestsQpu(p) && Annotation(p, PROTECTED) == ""
    && !Named(p.gates, QUANTUM_GATE) && NoRoles(p.containers)
    && (forall c :: c in p.containers ==> c.name != SIDECAR)
    && (forall e :: e in ctx.injected ==> NameOf(e) != ROLE_ENV)
  }

  predicate Of(gang: Gang, a: Arrival) {
    Shaped(a.doc) && MemberOf(gang, a.ctx, Read(a.doc))
  }

  function Admit(a: Arrival, groups: Groups): Verdict {
    Dispatch(DEFAULT_ORDER, a.ctx, State(Before(Read(a.doc)), groups))
  }

  function GroupsOf(v: Verdict): Groups {
    match v
    case Admitted(s) => s.groups
    case Denied(groups) => groups
  }

  /** The cluster's groups before arrival i. */
  function GroupsAt(arrivals: seq<Arrival>, start: Groups, i: nat): Groups
    requires i <= |arrivals|
  {
    if i == 0 then start else GroupsOf(Admit(arrivals[i - 1], GroupsAt(arrivals, start, i - 1)))
  }

  function VerdictAt(arrivals: seq<Arrival>, start: Groups, i: nat): Verdict
    requires i < |arrivals|
  {
    Admit(arrivals[i], GroupsAt(arrivals, start, i))
  }

  /** The pod the server stores for an admitted arrival. */
  function Stored(a: Arrival, v: Verdict): Option<PodState> {
    if v.Denied? then None
    else
      match ApplyAll(a.doc, OpsOf(v.s.g.edits))
      case None => None
      case Some(doc) => Some(Read(doc))
  }

  /** An ungated pod in the scout's own group, told it is the scout. */
  predicate IsScoutPod(gang: Gang, s: PodState) {
    !Named(s.gates, QUANTUM_GATE) && Linked(s, gang.group + SCOUT_SUFFIX) && AllRoles(s.containers, "scout")
  }

  /** A gated pod in the gang's group, told it is a worker, with no sidecar and no qpu of its own. */
  predicate IsWorkerPod(gang: Gang, s: PodState) {
    && WorkerOnServer(s, gang.group) && NoneNamed(s.containers, SIDECAR)
    && AllRoles(s.containers, "worker") && NoQpu(s.containers)
  }

  // ---- one admission ----

  /** The pod the quantum handler sees: the fluxion handler only adds variables. */
  function Injected(ctx: Ctx, p: PodState): Progress {
    if AnyRequestsFluxion(p) then Run(p, Inject(ctx.injected)) else Before(p)
  }

  lemma InjectedUntouched(ctx: Ctx, p: PodState)
    ensures Untouched(Injected(ctx, p).pod, p) && Inside(Injected(ctx, p).edits)
  {
    if AnyRequestsFluxion(p) {
      RunGrows(p, Inject(ctx.injected));
      RunInside(p, Inject(ctx.injected));
    } else {
      GrowsSelf(p);
    }
  }

  lemma InjectedContainers(ctx: Ctx, p: PodState)
    requires NoRoles(p.containers) && (forall c :: c in p.containers ==> c.name != SIDECAR)
    requires forall e :: e in ctx.injected ==> NameOf(e) != ROLE_ENV
    ensures var q := Injected(ctx, p).pod; NoRoles(q.containers) && forall c :: c in q.containers ==> c.name != SIDECAR
  {
    InjectedUntouched(ctx, p);
    var q := Injected(ctx, p).pod;
    BystanderRoles(p.containers, Inject(ctx.injected), "");
    forall c | c in q.containers ensures c.name != SIDECAR {
      var i :| 0 <= i < |q.containers| && q.containers[i] == c;
      assert Extends(c, p.containers[i]) && p.containers[i] in p.containers;
    }
  }

  /** A member is read by its labels, annotations and gates. */
  lemma MemberReads(gang: Gang, ctx: Ctx, p: PodState, q: PodState)
    requires MemberOf(gang, ctx, p) && q.annotations == p.annotations && q.labels == p.labels && q.gates == p.gates
    requires AnyRequestsQpu(q) && NoRoles(q.containers) && forall c :: c in q.containers ==> c.name != SIDECAR
    ensures MemberOf(gang, ctx, q)
  {
  }

  lemma InjectedMember(gang: Gang, ctx: Ctx, p: PodState)
    requires MemberOf(gang, ctx, p)
    ensures var q := Injected(ctx, p).pod;
            && Untouched(q, p) && MemberOf(gang, ctx, q) && Inside(Injected(ctx, p).edits)
  {
    var q := Injected(ctx, p).pod;
    InjectedUntouched(ctx, p);
    UntouchedReads(ctx, q, p);
    InjectedContainers(ctx, p);
    MemberReads(gang, ctx, p, q);
  }

  function NextTurn(v: Verdict, h: Handler, ctx: Ctx): Verdict {
    if v.Denied? then v else Handle(h, ctx, v.s)
  }

  lemma DispatchMore(order: seq<Handler>, h: Handler, ctx: Ctx, s: State)
    ensures Dispatch(order + [h], ctx, s) == NextTurn(Dispatch(order, ctx, s), h, ctx)
  {
    assert (order + [h])[..|order|] == order;
  }

  lemma DefaultDispatch(ctx: Ctx, s: State)
    ensures Dispatch(DEFAULT_ORDER, ctx, s) ==
            NextTurn(NextTurn(NextTurn(Admitted(s), FluxionHandler, ctx), QuantumHandler, ctx), GangHandler, ctx)
  {
    DispatchMore([], FluxionHandler, ctx, s);
    DispatchMore([FluxionHandler], QuantumHandler, ctx, s);
    DispatchMore([FluxionHandler, QuantumHandler], GangHandler, ctx, s);
    assert [] + [FluxionHandler] == [FluxionHandler];
    assert [FluxionHandler] + [QuantumHandler] == [FluxionHandler, QuantumHandler];
    assert [FluxionHandler, QuantumHandler] + [GangHandler] == DEFAULT_ORDER;
  }

  /** Where an admission stands when the quantum handler gets the pod. */
  function AtQuantum(a: Arrival, groups: Groups): State {
    State(Then(Before(Read(a.doc)), Injected(a.ctx, Read(a.doc))), groups)
  }

  lemma FluxionTurn(a: Arrival, groups: Groups)
    ensures Handle(FluxionHandler, a.ctx, State(Before(Read(a.doc)), groups)) == Admitted(AtQuantum(a, groups))
  {
    assert Then(Before(Read(a.doc)), Before(Read(a.doc))) == Before(Read(a.doc));
  }

  /** The admission of a member, handler by handler. */
  lemma AdmitMember(gang: Gang, a: Arrival, groups: Groups)
    requires Of(gang, a)
    ensures Admit(a, groups) == NextTurn(Handle(QuantumHandler, a.ctx, AtQuantum(a, groups)), GangHandler, a.ctx)
    ensures AnyRequestsQpu(AtQuantum(a, groups).g.pod)
  {
    DefaultDispatch(a.ctx, State(Before(Read(a.doc)), groups));
    FluxionTurn(a, groups);
    InjectedMember(gang, a.ctx, Read(a.doc));
  }

  /** The quantum handler's turn: refused, or the member's step. */
  lemma QuantumTurn(ctx: Ctx, s: State)
    requires AnyRequestsQpu(s.g.pod)
    ensures Handle(QuantumHandler, ctx, s) ==
            if Admits(ctx, s.g.pod, s.groups)
            then Admitted(State(Then(s.g, QuantumStep(ctx, s.g.pod, s.groups).0), QuantumStep(ctx, s.g.pod, s.groups).1))
            else Denied(s.groups)
  {
  }

  // ---- the cluster's groups ----

  /** Before the first member is admitted nothing of the gang exists; afterwards its record does. */
  predicate GroupsRight(gang: Gang, groups: Groups, begun: bool, promoted: bool) {
    && (begun <==> Id(gang) in groups)
    && (begun ==> groups[Id(gang)] == GroupRecord(gang.size - 1, Dec(gang.cores * gang.size)))
    && (promoted <==> ScoutId(gang) in groups)
    && (promoted ==> groups[ScoutId(gang)].minCount == 1)
  }

  lemma IdsDiffer(gang: Gang)
    ensures Id(gang) != ScoutId(gang)
  {
    assert |gang.group| != |gang.group + SCOUT_SUFFIX|;
  }

  lemma EnrolGroupsRight(gang: Gang, ctx: Ctx, p: PodState, groups: Groups, begun: bool, promoted: bool)
    requires MemberOf(gang, ctx, p) && GroupsRight(gang, groups, begun, promoted)
    ensures GroupsRight(gang, EnrolGroups(ctx, p, groups), true, promoted)
    ensures EnrolGroups(ctx, p, groups).Keys == groups.Keys + {Id(gang)}
  {
    IdsDiffer(gang);
  }

  lemma RoleGroupsRight(gang: Gang, ctx: Ctx, groups: Groups, promoted: bool, scout: bool)
    requires GroupsRight(gang, groups, true, promoted) && ctx.ns == gang.ns
    ensures GroupsRight(gang, RoleGroups(ctx, groups, gang.group, gang.size, scout), true, promoted || scout)
  {
    IdsDiffer(gang);
  }

  /** Promotion is by index when there is one, otherwise the first to claim the scout's group. */
  lemma PromotedWhen(gang: Gang, ctx: Ctx, p: PodState, groups: Groups, begun: bool, promoted: bool)
    requires MemberOf(gang, ctx, p) && GroupsRight(gang, groups, begun, promoted)
    ensures Promoted(ctx, p, groups) <==> if Indexed(p) then IndexZero(p) else !promoted
  {
    EnrolGroupsRight(gang, ctx, p, groups, begun, promoted);
    EnrolGrows(ctx, p);
    var q := Enrol(ctx, p).pod;
    var stamps := Stamps(ctx, p);
    AdmissionStampsFit(ctx, ctx.ns + "/" + ResolveGroup(ctx, p), 0);
    StampKeysPlain();
    assert COMPLETION_INDEX !in stamps;
    assert q.annotations == Some(Noted(p) + stamps);
    IdsDiffer(gang);
  }

  lemma StampKeysPlain()
    ensures COMPLETION_INDEX !in {PROTECTED, ADMITTED_GROUP, ADMITTED_CORES}
  {
    assert COMPLETION_INDEX[0] == 'b' && PROTECTED[0] == 'f' && ADMITTED_GROUP[0] == 'f' && ADMITTED_CORES[0] == 'f';
  }

  /** What an arrival comes to, given the groups so far. */
  predicate Promotes(a: Arrival, promoted: bool) {
    Elected(Read(a.doc), promoted)
  }

  // ---- the gang handler's turn ----

  /** The quantum handler's outcome for a member: its progress and the groups after. */
  function Shaping(a: Arrival, scout: bool): Progress {
    var q := Injected(a.ctx, Read(a.doc));
    Then(Then(Before(Read(a.doc)), q), Member(a.ctx, q.pod, scout))
  }

  /** The gang handler adds no edit but the link the member already has. */
  lemma GangTurn(gang: Gang, ctx: Ctx, p: PodState, g: Progress, groups: Groups, promoted: bool)
    requires MemberOf(gang, ctx, p) && Grows(g.pod, p) && GroupsRight(gang, groups, true, promoted)
    ensures var v := Handle(GangHandler, ctx, State(g, groups));
            && v.Admitted? && v.s.groups == groups && v.s.g.pod == g.pod
            && (v.s.g.edits == g.edits || v.s.g.edits == g.edits + [SetSpec(SchedulingGroup, GroupLink(gang.group))])
            && (AnyRequestsQpu(g.pod) ==> v.s.g.edits == g.edits)
  {
    assert g.pod.labels == p.labels;
    assert g.edits + [] == g.edits;
  }

  /** By index when there is one, otherwise the first come. */
  predicate Elected(p: PodState, promoted: bool) {
    if Indexed(p) then IndexZero(p) else !promoted
  }

  lemma MemberStep(gang: Gang, ctx: Ctx, p: PodState, groups: Groups, begun: bool, promoted: bool)
    requires MemberOf(gang, ctx, p) && GroupsRight(gang, groups, begun, promoted)
    ensures QuantumStep(ctx, p, groups).0 == Member(ctx, p, Elected(p, promoted))
    ensures GroupsRight(gang, QuantumStep(ctx, p, groups).1, true, promoted || Elected(p, promoted))
  {
    var scout := Promoted(ctx, p, groups);
    PromotedWhen(gang, ctx, p, groups, begun, promoted);
    EnrolGroupsRight(gang, ctx, p, groups, begun, promoted);
    RoleGroupsRight(gang, ctx, EnrolGroups(ctx, p, groups), promoted, scout);
  }

  /** The quantum handler's turn for a member: its role, and the groups it leaves. */
  lemma MemberTurn(gang: Gang, ctx: Ctx, s: State, begun: bool, promoted: bool)
    requires MemberOf(gang, ctx, s.g.pod) && GroupsRight(gang, s.groups, begun, promoted) && Admits(ctx, s.g.pod, s.groups)
    ensures var v, scout := Handle(QuantumHandler, ctx, s), Elected(s.g.pod, promoted);
            v.Admitted? && v.s.g == Then(s.g, Member(ctx, s.g.pod, scout)) && GroupsRight(gang, v.s.groups, true, promoted || scout)
  {
    MemberStep(gang, ctx, s.g.pod, s.groups, begun, promoted);
    QuantumTurn(ctx, s);
  }

  /** The edits of an admission: the member's, and perhaps the link again. */
  predicate ShapedBy(gang: Gang, g: Progress, v: Verdict) {
    && v.Admitted? && v.s.g.pod == g.pod
    && (v.s.g.edits == g.edits || v.s.g.edits == g.edits + [SetSpec(SchedulingGroup, GroupLink(gang.group))])
    && (AnyRequestsQpu(g.pod) ==> v.s.g.edits == g.edits)
  }

  lemma TurnsTaken(gang: Gang, ctx: Ctx, s: State, begun: bool, promoted: bool)
    requires MemberOf(gang, ctx, s.g.pod) && GroupsRight(gang, s.groups, begun, promoted) && Admits(ctx, s.g.pod, s.groups)
    ensures var v, scout := NextTurn(Handle(QuantumHandler, ctx, s), GangHandler, ctx), Elected(s.g.pod, promoted);
            ShapedBy(gang, Then(s.g, Member(ctx, s.g.pod, scout)), v) && GroupsRight(gang, v.s.groups, true, promoted || scout)
  {
    var scout := Elected(s.g.pod, promoted);
    MemberTurn(gang, ctx, s, begun, promoted);
    MemberStamps(ctx, s.g.pod, scout);
    var v := Handle(QuantumHandler, ctx, s);
    GangTurn(gang, ctx, s.g.pod, v.s.g, v.s.groups, promoted || scout);
  }

  lemma AdmittedShape(gang: Gang, a: Arrival, groups: Groups, begun: bool, promoted: bool)
    requires Of(gang, a) && GroupsRight(gang, groups, begun, promoted)
    requires Admits(a.ctx, AtQuantum(a, groups).g.pod, groups)
    ensures var v := NextTurn(Handle(QuantumHandler, a.ctx, AtQuantum(a, groups)), GangHandler, a.ctx);
            ShapedBy(gang, Shaping(a, Promotes(a, promoted)), v) && GroupsRight(gang, v.s.groups, true, promoted || Promotes(a, promoted))
  {
    InjectedMember(gang, a.ctx, Read(a.doc));
    TurnsTaken(gang, a.ctx, AtQuantum(a, groups), begun, promoted);
  }

  lemma AdmitShape(gang: Gang, a: Arrival, groups: Groups, begun: bool, promoted: bool)
    requires Of(gang, a) && GroupsRight(gang, groups, begun, promoted)
    ensures var v := Admit(a, groups);
            if Admits(a.ctx, AtQuantum(a, groups).g.pod, groups)
            then ShapedBy(gang, Shaping(a, Promotes(a, promoted)), v) && GroupsRight(gang, v.s.groups, true, promoted || Promotes(a, promoted))
            else v == Denied(groups)
  {
    AdmitMember(gang, a, groups);
    if Admits(a.ctx, AtQuantum(a, groups).g.pod, groups) {
      AdmittedShape(gang, a, groups, begun, promoted);
    } else {
      QuantumTurn(a.ctx, AtQuantum(a, groups));
    }
  }

  // ---- what the server stores ----

  lemma EnrolRoles(ctx: Ctx, p: PodState)
    requires NoRoles(p.containers)
    ensures NoRoles(Enrol(ctx, p).pod.containers)
  {
    assert |ROLE_ENV| == 25 && |NameOf(REHEARSAL_ENV)| == 17;
    BystanderRoles(p.containers, SetEnv(REHEARSAL_ENV), "");
  }

  /** The server's gates, link and annotations just before a member's role operations. */
  lemma EnrolledOnServer(gang: Gang, a: Arrival)
    requires Of(gang, a)
    ensures var p, e := Read(a.doc), Enrolled(a);
            var s := DoAll(e.edits, p);
            && s.gates == p.gates && s.group == p.group && s.annotations.Some?
            && e.pod.gates == p.gates && e.pod.group == p.group && e.pod.annotations.Some?
            && NoRoles(e.pod.containers)
  {
    var p := Read(a.doc);
    var q := Injected(a.ctx, p);
    var e := Enrol(a.ctx, q.pod);
    InjectedMember(gang, a.ctx, p);
    EnrolQuiet(a.ctx, q.pod);
    EnrolRoles(a.ctx, q.pod);
    EnrolGrows(a.ctx, q.pod);
    assert [] + q.edits == q.edits;
    AsideConcat(q.edits, e.edits);
    AsideKeeps(q.edits + e.edits, p);
    EnrolledNotes(a);
  }

  lemma EnrolledNotes(a: Arrival)
    requires KeysOrdered(a.ctx)
    ensures DoAll(Enrolled(a).edits, Read(a.doc)).annotations.Some?
  {
    var p := Read(a.doc);
    var q := Injected(a.ctx, p);
    if AnyRequestsFluxion(p) {
      RunRight(p, Inject(a.ctx.injected));
    } else {
      BeforeRight(p);
    }
    EnrolRight(a.ctx, q.pod);
    ThenRight(p, q, Enrol(a.ctx, q.pod));
    assert [] + q.edits == q.edits;
    AgreeSelf(p);
    AllChosenAgree(Enrolled(a).edits, p, p);
  }

  /** The pod a member is enrolled on, and the edits up to there. */
  function Enrolled(a: Arrival): Progress {
    var q := Injected(a.ctx, Read(a.doc));
    Then(Then(Before(Read(a.doc)), q), Enrol(a.ctx, q.pod))
  }

  lemma ThenAssoc(g: Progress, h: Progress, k: Progress)
    ensures Then(g, Then(h, k)) == Then(Then(g, h), k)
  {
  }

  lemma ShapingEdits(gang: Gang, a: Arrival, scout: bool)
    requires Of(gang, a)
    ensures var q := Injected(a.ctx, Read(a.doc)).pod;
            Shaping(a, scout) == Then(Enrolled(a), Role(a.ctx, Enrolled(a).pod, gang.group, Rehearsal(q), scout))
  {
    var p := Read(a.doc);
    var q := Injected(a.ctx, p);
    InjectedMember(gang, a.ctx, p);
    var e := Enrol(a.ctx, q.pod);
    ThenAssoc(Then(Before(p), q), e, Role(a.ctx, e.pod, gang.group, Rehearsal(q.pod), scout));
  }

  lemma ScoutShaped(gang: Gang, a: Arrival)
    requires Of(gang, a)
    ensures var g := Shaping(a, true);
            var s := DoAll(g.edits, Read(a.doc));
            s.gates == Read(a.doc).gates && Linked(s, gang.group + SCOUT_SUFFIX) && AllRoles(g.pod.containers, "scout")
  {
    var p, e := Read(a.doc), Enrolled(a);
    var extra := Rehearsal(Injected(a.ctx, p).pod);
    EnrolledOnServer(gang, a);
    ShapingEdits(gang, a, true);
    DoAllConcat(e.edits, MutateScout(a.ctx, e.pod, gang.group, extra).edits, p);
    ScoutServed(a.ctx, DoAll(e.edits, p), e.pod, gang.group, extra);
    ScoutRoles(a.ctx, e.pod, gang.group, extra);
  }

  lemma WorkerShaped(gang: Gang, a: Arrival)
    requires Of(gang, a)
    ensures var g := Shaping(a, false);
            WorkerOnServer(DoAll(g.edits, Read(a.doc)), gang.group) && AllRoles(g.pod.containers, "worker") && NoQpu(g.pod.containers)
  {
    var p, e := Read(a.doc), Enrolled(a);
    EnrolledOnServer(gang, a);
    ShapingEdits(gang, a, false);
    DoAllConcat(e.edits, MutateWorker(e.pod, gang.group).edits, p);
    WorkerServed(DoAll(e.edits, p), e.pod, gang.group);
    WorkerRoles(e.pod, gang.group);
    WorkerStripped(e.pod, gang.group);
  }

  lemma RequestsThen(r: PodState, q: PodState, p: PodState)
    requires SameRequests(r, q) && SameRequests(q, p)
    ensures SameRequests(r, p)
  {
  }

  lemma EnrolRequests(ctx: Ctx, p: PodState)
    ensures SameRequests(Enrol(ctx, p).pod, p)
  {
    var g := Stamp(p, AdmissionStamps(ctx.ns + "/" + ResolveGroup(ctx, p), 0), ctx.keyOrder);
    RunGrows(g.pod, SetEnv(REHEARSAL_ENV));
  }

  lemma HandoffRequests(p: PodState)
    ensures SameRequests(HandoffStep(p).pod, p)
  {
    if !Named(p.volumes, HANDOFF_VOLUME) {
      var q := AddVolume(p, HANDOFF_VOLUME).pod;
      RunGrows(q, Handoff);
      var r := Run(q, Handoff).pod;
      RunGrows(r, SetEnv(EnvVar(HANDOFF_DIR_ENV, HANDOFF_PATH)));
      RequestsThen(HandoffStep(p).pod, r, q);
    }
  }

  lemma ScoutRequests(ctx: Ctx, p: PodState, group: string, extra: seq<Json>)
    ensures SameRequests(MutateScout(ctx, p, group, extra).pod, p)
  {
    var q, r := Interceptor(ctx, p).pod, Submitter(ctx, p).pod;
    RunGrows(AddVolume(p, STAGE_VOLUME).pod, Stage);
    HandoffRequests(q);
    RequestsThen(r, q, p);
    RunGrows(r, SetEnv(RoleEnv("scout")));
    RequestsThen(Run(r, SetEnv(RoleEnv("scout"))).pod, r, p);
  }

  lemma ScoutMemberRequests(ctx: Ctx, p: PodState)
    ensures SameRequests(Member(ctx, p, true).pod, p)
  {
    var e := Enrol(ctx, p).pod;
    EnrolRequests(ctx, p);
    ScoutRequests(ctx, e, ResolveGroup(ctx, p), Rehearsal(p));
    RequestsThen(Member(ctx, p, true).pod, e, p);
  }

  /** A scout still asks for its qpu, so the gang handler leaves it alone. */
  lemma ScoutKeepsQpu(gang: Gang, a: Arrival)
    requires Of(gang, a)
    ensures AnyRequestsQpu(Shaping(a, true).pod)
  {
    var q := Injected(a.ctx, Read(a.doc)).pod;
    InjectedMember(gang, a.ctx, Read(a.doc));
    ScoutMemberKeepsQpu(a.ctx, q);
  }

  lemma ScoutMemberKeepsQpu(ctx: Ctx, p: PodState)
    requires AnyRequestsQpu(p)
    ensures AnyRequestsQpu(Member(ctx, p, true).pod)
  {
    ScoutMemberRequests(ctx, p);
    SameQpu(p, Member(ctx, p, true).pod);
  }

  lemma RelinkKeepsWorker(s: PodState, group: string)
    requires WorkerOnServer(s, group)
    ensures WorkerOnServer(Do(SetSpec(SchedulingGroup, GroupLink(group)), s), group)
  {
  }

  lemma RolesOnServer(server: seq<Container>, local: seq<Container>, role: string)
    requires ContainersAgree(server, local)
    ensures AllRoles(local, role) ==> AllRoles(server, role)
    ensures NoQpu(local) ==> NoQpu(server)
  {
  }

  lemma ScoutStored(gang: Gang, a: Arrival, v: Verdict, s: PodState)
    requires Of(gang, a) && ShapedBy(gang, Shaping(a, true), v)
    requires s == DoAll(v.s.g.edits, Read(a.doc)) && Agree(s, v.s.g.pod)
    ensures IsScoutPod(gang, s)
  {
    ScoutShaped(gang, a);
    ScoutKeepsQpu(gang, a);
    RolesOnServer(s.containers, Shaping(a, true).pod.containers, "scout");
  }

  lemma EnrolledEdits(a: Arrival)
    ensures Enrolled(a).edits == Injected(a.ctx, Read(a.doc)).edits + Enrol(a.ctx, Injected(a.ctx, Read(a.doc)).pod).edits
  {
    var q := Injected(a.ctx, Read(a.doc));
    assert [] + q.edits == q.edits;
  }

  lemma EnrolledAddsNone(gang: Gang, a: Arrival)
    requires Of(gang, a)
    ensures AllQuiet(Enrolled(a).edits, SizeOf)
  {
    var q := Injected(a.ctx, Read(a.doc));
    InjectedUntouched(a.ctx, Read(a.doc));
    EnrolQuiet(a.ctx, q.pod);
    EnrolledEdits(a);
    QuietConcat(q.edits, Enrol(a.ctx, q.pod).edits, SizeOf);
  }

  lemma WorkerEditsAddNone(gang: Gang, a: Arrival)
    requires Of(gang, a)
    ensures AllQuiet(Shaping(a, false).edits, SizeOf)
  {
    EnrolledAddsNone(gang, a);
    WorkerAddsNone(Enrolled(a).pod, gang.group);
    ShapingEdits(gang, a, false);
    QuietConcat(Enrolled(a).edits, MutateWorker(Enrolled(a).pod, gang.group).edits, SizeOf);
  }

  lemma WorkerContainers(gang: Gang, a: Arrival)
    requires Of(gang, a)
    ensures |Shaping(a, false).pod.containers| == |Read(a.doc).containers| && NoneNamed(Shaping(a, false).pod.containers, SIDECAR)
  {
    var q := Injected(a.ctx, Read(a.doc)).pod;
    InjectedMember(gang, a.ctx, Read(a.doc));
    MemberStamps(a.ctx, q, false);
    SameNames(Member(a.ctx, q, false).pod, q);
  }

  /** When no edit adds a container, agreement is equality. */
  lemma SameContainers(es: seq<Edit>, p: PodState, s: PodState, local: seq<Container>)
    requires AllQuiet(es, SizeOf) && s == DoAll(es, p)
    requires ContainersAgree(s.containers, local) && |local| == |p.containers|
    ensures s.containers == local
  {
    QuietKeeps(es, p, SizeOf);
    assert View(s, SizeOf) == View(p, SizeOf);
  }

  lemma RelinkAddsNone(gang: Gang, g: Progress, v: Verdict)
    requires ShapedBy(gang, g, v) && AllQuiet(g.edits, SizeOf)
    ensures AllQuiet(v.s.g.edits, SizeOf)
  {
    QuietConcat(g.edits, [SetSpec(SchedulingGroup, GroupLink(gang.group))], SizeOf);
  }

  /** The server has a worker's containers exactly as the webhook does. */
  lemma WorkerContainersStored(gang: Gang, a: Arrival, v: Verdict, s: PodState)
    requires Of(gang, a) && ShapedBy(gang, Shaping(a, false), v)
    requires s == DoAll(v.s.g.edits, Read(a.doc)) && Agree(s, v.s.g.pod)
    ensures s.containers == Shaping(a, false).pod.containers && NoneNamed(s.containers, SIDECAR)
  {
    WorkerEditsAddNone(gang, a);
    RelinkAddsNone(gang, Shaping(a, false), v);
    WorkerContainers(gang, a);
    SameContainers(v.s.g.edits, Read(a.doc), s, v.s.g.pod.containers);
  }

  lemma SameNames(q: PodState, p: PodState)
    requires Grows(q, p) && forall c :: c in p.containers ==> c.name != SIDECAR
    ensures |q.containers| == |p.containers| && NoneNamed(q.containers, SIDECAR)
  {
    forall i | 0 <= i < |q.containers| ensures q.containers[i].name != SIDECAR {
      assert Extends(q.containers[i], p.containers[i]) && p.containers[i] in p.containers;
    }
  }

  lemma WorkerStored(gang: Gang, a: Arrival, v: Verdict, s: PodState)
    requires Of(gang, a) && ShapedBy(gang, Shaping(a, false), v)
    requires s == DoAll(v.s.g.edits, Read(a.doc)) && Agree(s, v.s.g.pod)
    ensures IsWorkerPod(gang, s)
  {
    var g, link := Shaping(a, false), SetSpec(SchedulingGroup, GroupLink(gang.group));
    WorkerShaped(gang, a);
    DoAllConcat(g.edits, [link], Read(a.doc));
    DoOne(link, DoAll(g.edits, Read(a.doc)));
    RelinkKeepsWorker(DoAll(g.edits, Read(a.doc)), gang.group);
    RolesOnServer(s.containers, g.pod.containers, "worker");
    WorkerContainersStored(gang, a, v, s);
  }

  lemma StoredAgrees(a: Arrival, groups: Groups)
    requires Shaped(a.doc) && KeysOrdered(a.ctx) && Admit(a, groups).Admitted?
    ensures var v := Admit(a, groups);
            Stored(a, v) == Some(DoAll(v.s.g.edits, Read(a.doc))) && Agree(Stored(a, v).value, v.s.g.pod)
  {
    PatchRefinesPod(a.doc, DEFAULT_ORDER, a.ctx, groups);
  }

  /** An admitted member is stored, as scout or as worker. */
  lemma StoredRight(gang: Gang, a: Arrival, groups: Groups, begun: bool, promoted: bool)
    requires Of(gang, a) && GroupsRight(gang, groups, begun, promoted) && Admit(a, groups).Admitted?
    ensures var s := Stored(a, Admit(a, groups));
            s.Some? && if Promotes(a, promoted) then IsScoutPod(gang, s.value) else IsWorkerPod(gang, s.value)
  {
    var v := Admit(a, groups);
    AdmitShape(gang, a, groups, begun, promoted);
    StoredAgrees(a, groups);
    var s := Stored(a, v).value;
    if Promotes(a, promoted) {
      ScoutStored(gang, a, v, s);
    } else {
      WorkerStored(gang, a, v, s);
    }
  }

  // ---- the whole gang ----

  ghost predicate Arriving(gang: Gang, arrivals: seq<Arrival>) {
    forall i :: 0 <= i < |arrivals| ==> Of(gang, arrivals[i])
  }

  predicate AdmittedAt(arrivals: seq<Arrival>, start: Groups, i: nat)
    requires i < |arrivals|
  {
    VerdictAt(arrivals, start, i).Admitted?
  }

  /** Whether some arrival before i was admitted. */
  predicate Begun(arrivals: seq<Arrival>, start: Groups, i: nat)
    requires i <= |arrivals|
  {
    i > 0 && (Begun(arrivals, start, i - 1) || AdmittedAt(arrivals, start, i - 1))
  }

  /** Whether some arrival before i was promoted to scout. */
  predicate Claimed(arrivals: seq<Arrival>, start: Groups, i: nat)
    requires i <= |arrivals|
    decreases i, 0
  {
    i > 0 && (Claimed(arrivals, start, i - 1) || ScoutAt(arrivals, start, i - 1))
  }

  /** Which arrivals are scouts: admitted, and promoted when their turn came. */
  predicate ScoutAt(arrivals: seq<Arrival>, start: Groups, i: nat)
    requires i < |arrivals|
    decreases i, 1
  {
    AdmittedAt(arrivals, start, i) && Promotes(arrivals[i], Claimed(arrivals, start, i))
  }

  lemma GroupsStep(gang: Gang, a: Arrival, groups: Groups, begun: bool, promoted: bool)
    requires Of(gang, a) && GroupsRight(gang, groups, begun, promoted)
    ensures var v := Admit(a, groups);
            GroupsRight(gang, GroupsOf(v), begun || v.Admitted?, promoted || (v.Admitted? && Promotes(a, promoted)))
  {
    AdmitShape(gang, a, groups, begun, promoted);
  }

  /** The groups are right for what has happened before arrival i. */
  predicate RightAt(gang: Gang, arrivals: seq<Arrival>, start: Groups, i: nat)
    requires i <= |arrivals|
  {
    GroupsRight(gang, GroupsAt(arrivals, start, i), Begun(arrivals, start, i), Claimed(arrivals, start, i))
  }

  lemma RightStep(gang: Gang, arrivals: seq<Arrival>, start: Groups, i: nat)
    requires i < |arrivals| && Of(gang, arrivals[i]) && RightAt(gang, arrivals, start, i)
    ensures RightAt(gang, arrivals, start, i + 1)
  {
    GroupsStep(gang, arrivals[i], GroupsAt(arrivals, start, i), Begun(arrivals, start, i), Claimed(arrivals, start, i));
  }

  lemma {:induction false} GroupsThroughout(gang: Gang, arrivals: seq<Arrival>, start: Groups, i: nat)
    requires Arriving(gang, arrivals) && Id(gang) !in start && ScoutId(gang) !in start && i <= |arrivals|
    ensures RightAt(gang, arrivals, start, i)
  {
    if i > 0 {
      GroupsThroughout(gang, arrivals, start, i - 1);
      RightStep(gang, arrivals, start, i - 1);
    }
  }

  /**
   * The groups have the split's sizes, minCount 1 for the scout and n - 1 for the workers,
   * although the gang handler asked for n, and the cores of all n are charged once.
   */
  lemma GroupsSplit(gang: Gang, arrivals: seq<Arrival>, start: Groups, i: nat)
    requires Arriving(gang, arrivals) && Id(gang) !in start && ScoutId(gang) !in start && i <= |arrivals|
    ensures var groups := GroupsAt(arrivals, start, i);
            if Begun(arrivals, start, i)
            then Id(gang) in groups && groups[Id(gang)] == GroupRecord(gang.size - 1, Dec(gang.cores * gang.size))
            else Id(gang) !in groups
    ensures var groups := GroupsAt(arrivals, start, i);
            if Claimed(arrivals, start, i) then ScoutId(gang) in groups && groups[ScoutId(gang)].minCount == 1
            else ScoutId(gang) !in groups
  {
    GroupsThroughout(gang, arrivals, start, i);
  }

  /** Once one member is admitted the others are, whatever room is left. */
  lemma AdmittedOnce(gang: Gang, arrivals: seq<Arrival>, start: Groups, i: nat)
    requires Arriving(gang, arrivals) && Id(gang) !in start && ScoutId(gang) !in start && i < |arrivals|
    requires Begun(arrivals, start, i)
    ensures AdmittedAt(arrivals, start, i)
  {
    GroupsThroughout(gang, arrivals, start, i);
    var a, groups := arrivals[i], GroupsAt(arrivals, start, i);
    assert Of(gang, a);
    AdmitShape(gang, a, groups, Begun(arrivals, start, i), Claimed(arrivals, start, i));
    RecordedPasses(gang, a, groups, Claimed(arrivals, start, i));
  }

  /** A gang with its record on its group passes the admission check. */
  lemma RecordedPasses(gang: Gang, a: Arrival, groups: Groups, promoted: bool)
    requires Of(gang, a) && GroupsRight(gang, groups, true, promoted)
    ensures Admits(a.ctx, AtQuantum(a, groups).g.pod, groups)
  {
    InjectedMember(gang, a.ctx, Read(a.doc));
  }

  lemma {:induction false} BegunByOne(arrivals: seq<Arrival>, start: Groups, i: nat, j: nat)
    requires j < i <= |arrivals| && AdmittedAt(arrivals, start, j)
    ensures Begun(arrivals, start, i)
  {
    if j < i - 1 {
      BegunByOne(arrivals, start, i - 1, j);
    }
  }

  /** Without completion indices, the scout is the first member admitted, and there is one as soon as any is. */
  lemma OneScoutByClaim(gang: Gang, arrivals: seq<Arrival>, start: Groups, i: nat)
    requires Arriving(gang, arrivals) && Id(gang) !in start && ScoutId(gang) !in start && i < |arrivals|
    requires forall j :: 0 <= j < |arrivals| ==> !Indexed(Read(arrivals[j].doc))
    ensures ScoutAt(arrivals, start, i) <==> AdmittedAt(arrivals, start, i) && !Begun(arrivals, start, i)
  {
    ClaimedIffBegun(arrivals, start, i);
  }

  lemma {:induction false} ClaimedIffBegun(arrivals: seq<Arrival>, start: Groups, i: nat)
    requires i <= |arrivals| && forall j :: 0 <= j < |arrivals| ==> !Indexed(Read(arrivals[j].doc))
    ensures Claimed(arrivals, start, i) <==> Begun(arrivals, start, i)
  {
    if i > 0 {
      ClaimedIffBegun(arrivals, start, i - 1);
    }
  }

  /** With completion indices, the scout is the member with index 0, whenever it comes. */
  lemma OneScoutByIndex(gang: Gang, arrivals: seq<Arrival>, start: Groups, i: nat)
    requires Arriving(gang, arrivals) && i < |arrivals| && Indexed(Read(arrivals[i].doc))
    ensures ScoutAt(arrivals, start, i) <==> AdmittedAt(arrivals, start, i) && IndexZero(Read(arrivals[i].doc))
  {
  }

  ghost predicate OnlyScout(arrivals: seq<Arrival>, start: Groups, k: nat)
    requires k < |arrivals|
  {
    forall i :: 0 <= i < |arrivals| ==> (ScoutAt(arrivals, start, i) <==> i == k)
  }

  /** Arrival k has index 0 among indexed pods, or is the first admitted among pods without indices. */
  ghost predicate Foremost(arrivals: seq<Arrival>, start: Groups, k: nat)
    requires k < |arrivals|
  {
    || (forall j :: 0 <= j < |arrivals| ==> Indexed(Read(arrivals[j].doc)) && (IndexZero(Read(arrivals[j].doc)) <==> j == k))
    || (!Begun(arrivals, start, k) && forall j :: 0 <= j < |arrivals| ==> !Indexed(Read(arrivals[j].doc)))
  }

  /** So a gang has exactly one scout, the foremost of its pods, once that one is admitted. */
  lemma ExactlyOneScout(gang: Gang, arrivals: seq<Arrival>, start: Groups, k: nat)
    requires Arriving(gang, arrivals) && Id(gang) !in start && ScoutId(gang) !in start && k < |arrivals|
    ensures AdmittedAt(arrivals, start, k) && Foremost(arrivals, start, k) ==> OnlyScout(arrivals, start, k)
  {
    if AdmittedAt(arrivals, start, k) && Foremost(arrivals, start, k) {
      forall i | 0 <= i < |arrivals| ensures ScoutAt(arrivals, start, i) <==> i == k {
        if Indexed(Read(arrivals[k].doc)) {
          OneScoutByIndex(gang, arrivals, start, i);
        } else {
          OneScoutByClaim(gang, arrivals, start, i);
          if i < k && AdmittedAt(arrivals, start, i) {
            BegunByOne(arrivals, start, k, i);
          }
          if k < i {
            BegunByOne(arrivals, start, i, k);
          }
        }
      }
    }
  }

  // ---- how many scouts a gang of any kind has ----

  /** What an arrival comes as: refused, with index 0, with another index, or with none. */
  datatype Kind = Refused | Zero | Later | Loose

  function KindAt(arrivals: seq<Arrival>, start: Groups, i: nat): Kind
    requires i < |arrivals|
  {
    var p := Read(arrivals[i].doc);
    if !AdmittedAt(arrivals, start, i) then Refused
    else if !Indexed(p) then Loose
    else if IndexZero(p) then Zero
    else Later
  }

  function Kinds(arrivals: seq<Arrival>, start: Groups, n: nat): (kinds: seq<Kind>)
    requires n <= |arrivals|
    ensures |kinds| == n
  {
    if n == 0 then [] else Kinds(arrivals, start, n - 1) + [KindAt(arrivals, start, n - 1)]
  }

  function CountOf(kinds: seq<Kind>, kind: Kind): nat {
    if kinds == [] then 0 else CountOf(kinds[..|kinds| - 1], kind) + if kinds[|kinds| - 1] == kind then 1 else 0
  }

  /** A pod without an index comes ahead of every index 0. */
  predicate LooseFirst(kinds: seq<Kind>) {
    exists i :: 0 <= i < |kinds| && kinds[i] == Loose && Zero !in kinds[..i]
  }

  function Scouts(arrivals: seq<Arrival>, start: Groups, n: nat): nat
    requires n <= |arrivals|
  {
    if n == 0 then 0 else Scouts(arrivals, start, n - 1) + if ScoutAt(arrivals, start, n - 1) then 1 else 0
  }

  /** The scouts there must be, from the kinds alone. */
  function Due(kinds: seq<Kind>): nat {
    CountOf(kinds, Zero) + if LooseFirst(kinds) then 1 else 0
  }

  predicate ScoutNext(kinds: seq<Kind>, kind: Kind) {
    kind == Zero || (kind == Loose && Zero !in kinds && Loose !in kinds)
  }

  lemma ScoutAtMeans(arrivals: seq<Arrival>, start: Groups, i: nat)
    requires i < |arrivals| && (Claimed(arrivals, start, i) <==> Zero in Kinds(arrivals, start, i) || Loose in Kinds(arrivals, start, i))
    ensures ScoutAt(arrivals, start, i) <==> ScoutNext(Kinds(arrivals, start, i), KindAt(arrivals, start, i))
  {
  }

  /** One more arrival is one more scout due, or none. */
  lemma DueNext(kinds: seq<Kind>, kind: Kind)
    ensures Due(kinds + [kind]) == Due(kinds) + if ScoutNext(kinds, kind) then 1 else 0
  {
    var all := kinds + [kind];
    assert all[..|kinds|] == kinds;
    LooseNext(kinds, kind);
  }

  lemma LooseNext(kinds: seq<Kind>, kind: Kind)
    ensures LooseFirst(kinds + [kind]) <==> LooseFirst(kinds) || (kind == Loose && Zero !in kinds)
    ensures Loose in kinds && Zero !in kinds ==> LooseFirst(kinds)
    ensures LooseFirst(kinds) ==> Loose in kinds
  {
    var all := kinds + [kind];
    assert forall i :: 0 <= i <= |kinds| ==> all[..i] == kinds[..i];
    if LooseFirst(kinds) {
      var i :| 0 <= i < |kinds| && kinds[i] == Loose && Zero !in kinds[..i];
      assert all[i] == Loose && Zero !in all[..i];
    }
    if kind == Loose && Zero !in kinds {
      assert all[|kinds|] == Loose && all[..|kinds|] == kinds;
    }
    if Loose in kinds && Zero !in kinds {
      var i :| 0 <= i < |kinds| && kinds[i] == Loose;
      assert Zero !in kinds[..i];
    }
  }

  lemma {:induction false} ClaimedMeans(arrivals: seq<Arrival>, start: Groups, n: nat)
    requires n <= |arrivals|
    ensures Claimed(arrivals, start, n) <==> Zero in Kinds(arrivals, start, n) || Loose in Kinds(arrivals, start, n)
  {
    if n > 0 {
      ClaimedMeans(arrivals, start, n - 1);
      ScoutAtMeans(arrivals, start, n - 1);
      TakenNext(Kinds(arrivals, start, n - 1), KindAt(arrivals, start, n - 1));
    }
  }

  lemma TakenNext(kinds: seq<Kind>, kind: Kind)
    ensures Zero in kinds + [kind] || Loose in kinds + [kind] <==> Zero in kinds || Loose in kinds || ScoutNext(kinds, kind)
  {
  }

  /**
   * Gangs that mix indexed and unindexed pods, or repeat index 0: there is a scout for each
   * admitted index 0, and one more if a pod without an index was admitted ahead of them all.
   */
  lemma {:induction false} ScoutCount(arrivals: seq<Arrival>, start: Groups, n: nat)
    requires n <= |arrivals|
    ensures Scouts(arrivals, start, n) == Due(Kinds(arrivals, start, n))
  {
    if n > 0 {
      ScoutCount(arrivals, start, n - 1);
      ClaimedMeans(arrivals, start, n - 1);
      ScoutAtMeans(arrivals, start, n - 1);
      DueNext(Kinds(arrivals, start, n - 1), KindAt(arrivals, start, n - 1));
    }
  }
}
