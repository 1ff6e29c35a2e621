/** Pods outside a shared gang, as the server stores them: a quantum pod on its own, a labelled pod, an injected one. */
module LonePods {
  import opened Text
  import opened Json
  import opened PodEdits
  import opened PodMirror
  import opened PodTasks
  import opened Handlers
  import opened HandlerPatches
  import opened HandlerOutcomes
  import opened GangRoles
  import opened Submitters
  import opened MembersServed
  import opened GangSplit

  // ---- a quantum pod on its own ----

  /** It is marked protected and is its own admission record, with its cores. */
  ghost predicate OwnRecord(ctx: Ctx, p: PodState, s: PodState) {
    && Entry(s.annotations, "fluence.flux-framework.org/protected") == Str("quantum")
    && Entry(s.annotations, "fluence.flux-framework.org/admitted-group") == Str(ctx.ns + "/" + ctx.name)
    && (ctx.cores > 0 ==> Entry(s.annotations, "fluence.flux-framework.org/admitted-cores") == Str(Dec(ctx.cores)))
  }

  /** A quantum pod no gang coordinates. */
  predicate Lone(a: Arrival) {
    Shaped(a.doc) && KeysOrdered(a.ctx) && AnyRequestsQpu(Read(a.doc)) && !SharedGang(a.ctx, Read(a.doc))
  }

  predicate Observes(p: PodState) {
    Label(p, "fluence.flux-framework.org/observe") == "true"
  }

  /**
   * What it is stored as: ungated, linked and labelled as it came, its workload containers
   * with the interceptor and the handoff volume, its own admission record on it, and with
   * a sidecar, that observes, exactly when its label asks for one.
   */
  ghost predicate StoredAlone(ctx: Ctx, p: PodState, q: PodState, s: PodState) {
    && s.gates == p.gates && s.group == p.group && s.labels == p.labels
    && |s.inits| == |p.inits| + 1 && p.inits <= s.inits && IsStager(ctx, s.inits[|p.inits|])
    && Equipped(q, s) && OwnRecord(ctx, p, s)
    && (if Observes(p)
        then
          && |s.containers| == |p.containers| + 1
          && IsSidecar(ctx, s.containers[0].env, s.containers[|p.containers|])
          && Plain("FLUENCE_OBSERVE", "true") in s.containers[|p.containers|].env
          && s.serviceAccount == (if AsText(p.serviceAccount) in {"", "default"} then Str("fluence-sidecar") else p.serviceAccount)
        else |s.containers| == |p.containers| && s.serviceAccount == p.serviceAccount)
  }

  // ---- the webhook's own pod ----

  lemma AloneGrows(ctx: Ctx, p: PodState)
    ensures Grows(Alone(ctx, p).pod, p) && SameRequests(Alone(ctx, p).pod, p) && Equipped(p, Alone(ctx, p).pod)
  {
    var g1 := Stamp(p, AdmissionStamps(ctx.ns + "/" + ctx.name, ctx.cores), ctx.keyOrder).pod;
    var g2 := Submitter(ctx, g1).pod;
    SubmitterEquips(ctx, g1);
    SubmitterGrows(ctx, g1);
    SubmitterRequests(ctx, g1);
    RehearsalGrows(g2, Rehearsing(p));
    RunGrows(g2, SetEnv(REHEARSAL_ENV));
    var q := Alone(ctx, p).pod;
    assert Equipped(p, g2) by {
      assert forall i :: 0 <= i < |p.containers| && p.containers[i].name != SIDECAR ==> EquippedAt(g1, g2.containers[i], i);
      assert forall i :: 0 <= i < |p.containers| && EquippedAt(g1, g2.containers[i], i) ==> EquippedAt(p, g2.containers[i], i);
    }
    GrowsThen(q, g2, p);
    EquippedStays(p, g2, q);
    RequestsThen(q, g2, p);
  }

  lemma SubmitterRequests(ctx: Ctx, p: PodState)
    ensures SameRequests(Submitter(ctx, p).pod, p)
  {
    var q := Interceptor(ctx, p).pod;
    RunGrows(AddVolume(p, STAGE_VOLUME).pod, Stage);
    HandoffRequests(q);
    RequestsThen(Submitter(ctx, p).pod, q, p);
  }

  // ---- on the server ----

  lemma AloneEdits(ctx: Ctx, p: PodState, stamp: Progress, submit: Progress)
    requires stamp == Stamp(p, AdmissionStamps(ctx.ns + "/" + ctx.name, ctx.cores), ctx.keyOrder) && submit == Submitter(ctx, stamp.pod)
    ensures Alone(ctx, p).edits == stamp.edits + submit.edits + RehearsalStep(submit.pod, Rehearsing(p)).edits
  {
  }

  lemma StampAlike(ctx: Ctx, s: PodState, p: PodState, ann: map<string, Json>)
    ensures Alike(DoAll(Stamp(p, ann, ctx.keyOrder).edits, s), s) && Stamp(p, ann, ctx.keyOrder).pod.inits == p.inits
  {
    StampOpsAreNotes(ann, ctx.keyOrder);
    NotesAlike(Stamp(p, ann, ctx.keyOrder).edits, s);
  }

  lemma RehearsalAlike(s: PodState, p: PodState, rehearsing: bool)
    ensures Alike(DoAll(RehearsalStep(p, rehearsing).edits, s), s)
  {
    RunInside(p, SetEnv(REHEARSAL_ENV));
    InnerAlike(RehearsalStep(p, rehearsing).edits, s);
  }

  lemma AloneServes(ctx: Ctx, s: PodState, p: PodState)
    requires p.inits == [] <==> s.inits == []
    ensures Submits(ctx, DoAll(Alone(ctx, p).edits, s), s)
  {
    var ann := AdmissionStamps(ctx.ns + "/" + ctx.name, ctx.cores);
    var stamp := Stamp(p, ann, ctx.keyOrder);
    var submit := Submitter(ctx, stamp.pod);
    var told := RehearsalStep(submit.pod, Rehearsing(p)).edits;
    var s1 := DoAll(stamp.edits, s);
    var s2 := DoAll(submit.edits, s1);
    StampAlike(ctx, s, p, ann);
    SubmitterServes(ctx, s1, stamp.pod);
    RehearsalAlike(s2, submit.pod, Rehearsing(p));
    AloneEdits(ctx, p, stamp, submit);
    DoAllConcat(stamp.edits, submit.edits, s);
    DoAllConcat(stamp.edits + submit.edits, told, s);
    SubmitsAlike(ctx, DoAll(told, s2), s2, s1, s);
  }

  lemma SubmitsAlike(ctx: Ctx, t: PodState, s2: PodState, s1: PodState, s: PodState)
    requires Alike(t, s2) && Submits(ctx, s2, s1) && Alike(s1, s)
    ensures Submits(ctx, t, s)
  {
  }

  lemma AtQuantumIs(a: Arrival, groups: Groups)
    ensures AtQuantum(a, groups) == State(Injected(a.ctx, Read(a.doc)), groups)
  {
    var q := Injected(a.ctx, Read(a.doc));
    assert [] + q.edits == q.edits;
  }

  /** A pod that still asks for a qpu is none of the gang handler's. */
  lemma GangPasses(ctx: Ctx, s: State)
    requires AnyRequestsQpu(s.g.pod)
    ensures Handle(GangHandler, ctx, s) == Admitted(s)
  {
  }

  lemma LoneTurn(ctx: Ctx, s: State)
    requires AnyRequestsQpu(s.g.pod) && !SharedGang(ctx, s.g.pod)
    ensures var v := Handle(QuantumHandler, ctx, s);
            v == Denied(s.groups) || v == Admitted(State(Then(s.g, Standalone(ctx, s.g.pod)), s.groups))
  {
    QuantumTurn(ctx, s);
  }

  lemma StandaloneKeepsQpu(ctx: Ctx, p: PodState)
    requires AnyRequestsQpu(p)
    ensures AnyRequestsQpu(Standalone(ctx, p).pod)
  {
    StandaloneEdits(ctx, p);
    AloneGrows(ctx, p);
    SameQpu(p, Alone(ctx, p).pod);
  }

  lemma InjectedLone(a: Arrival)
    requires Lone(a)
    ensures var q := Injected(a.ctx, Read(a.doc));
            Untouched(q.pod, Read(a.doc)) && Inside(q.edits) && AnyRequestsQpu(q.pod) && !SharedGang(a.ctx, q.pod)
  {
    InjectedUntouched(a.ctx, Read(a.doc));
    UntouchedReads(a.ctx, Injected(a.ctx, Read(a.doc)).pod, Read(a.doc));
  }

  /** A lone pod's admission: the fluxion handler's variables, then its own step, and nothing from the gang handler. */
  lemma LoneAdmission(a: Arrival, groups: Groups)
    requires Lone(a) && Admit(a, groups).Admitted?
    ensures var q := Injected(a.ctx, Read(a.doc)); Admit(a, groups) == Admitted(State(Then(q, Standalone(a.ctx, q.pod)), groups))
  {
    var q := Injected(a.ctx, Read(a.doc));
    DefaultDispatch(a.ctx, State(Before(Read(a.doc)), groups));
    FluxionTurn(a, groups);
    AtQuantumIs(a, groups);
    InjectedLone(a);
    LoneTurn(a.ctx, AtQuantum(a, groups));
    StandaloneKeepsQpu(a.ctx, q.pod);
    GangPasses(a.ctx, State(Then(q, Standalone(a.ctx, q.pod)), groups));
  }

  lemma LoneServed(a: Arrival, s: PodState)
    requires Lone(a) && Untouched(Injected(a.ctx, Read(a.doc)).pod, Read(a.doc)) && Inside(Injected(a.ctx, Read(a.doc)).edits)
    requires s == DoAll(Then(Injected(a.ctx, Read(a.doc)), Alone(a.ctx, Injected(a.ctx, Read(a.doc)).pod)).edits, Read(a.doc))
    ensures Submits(a.ctx, s, Read(a.doc))
  {
    var p, q := Read(a.doc), Injected(a.ctx, Read(a.doc));
    InnerAlike(q.edits, p);
    DoAllConcat(q.edits, Alone(a.ctx, q.pod).edits, p);
    AloneServes(a.ctx, DoAll(q.edits, p), q.pod);
    SubmitsAlike(a.ctx, s, s, DoAll(q.edits, p), p);
  }

  lemma ObserverTold(ctx: Ctx, q: PodState, extra: seq<Json>)
    requires q.containers != []
    ensures Plain("FLUENCE_OBSERVE", "true") in SidecarEnv(ctx, q, true, extra)
  {
    var given := SidecarGiven(ctx, true, extra);
    SidecarEnvIs(ctx, q, true, extra);
    assert given[4 + |ctx.injected|] == Plain("FLUENCE_OBSERVE", "true");
    assert SidecarEnv(ctx, q, true, extra)[4 + |ctx.injected|] == Plain("FLUENCE_OBSERVE", "true");
  }

  lemma StandaloneEdits(ctx: Ctx, p: PodState)
    ensures Standalone(ctx, p).pod == Alone(ctx, p).pod
    ensures Standalone(ctx, p).edits ==
            Alone(ctx, p).edits + if Observes(p) then SidecarStep(ctx, Alone(ctx, p).pod, true, Rehearsal(p)).edits else []
  {
  }

  lemma OwnStamps(ctx: Ctx, p: PodState, s: PodState)
    requires s.annotations.Some? && AgreeOutside(DEPENDENCY, s.annotations.value, Noted(p) + AdmissionStamps(ctx.ns + "/" + ctx.name, ctx.cores))
    requires KeysOrdered(ctx)
    ensures OwnRecord(ctx, p, s)
  {
    var ann := AdmissionStamps(ctx.ns + "/" + ctx.name, ctx.cores);
    AdmissionStampsFit(ctx, ctx.ns + "/" + ctx.name, ctx.cores);
    var at := |"fluence.flux-framework.org/"|;
    assert PROTECTED[at] == 'p' && ADMITTED_GROUP[at] == 'a' && |ADMITTED_GROUP| == |ADMITTED_CORES|;
    assert ADMITTED_GROUP[at + 9] == 'g' && ADMITTED_CORES[at + 9] == 'c';
    assert ann[PROTECTED] == Str("quantum") && ann[ADMITTED_GROUP] == Str(ctx.ns + "/" + ctx.name);
  }

  lemma LoneRecorded(a: Arrival, groups: Groups)
    requires Lone(a) && Admit(a, groups).Admitted?
    ensures Stored(a, Admit(a, groups)).Some? && OwnRecord(a.ctx, Read(a.doc), Stored(a, Admit(a, groups)).value)
  {
    NothingLost(a.doc, DEFAULT_ORDER, a.ctx, groups);
    assert DEFAULT_ORDER[1] == QuantumHandler;
    OwnStamps(a.ctx, Read(a.doc), Stored(a, Admit(a, groups)).value);
  }

  lemma DoGrouped(a: seq<Edit>, b: seq<Edit>, c: seq<Edit>, p: PodState)
    ensures DoAll(a + (b + c), p) == DoAll(c, DoAll(a + b, p)) && b + [] == b
  {
    DoAllConcat(a + b, c, p);
    assert a + (b + c) == a + b + c;
  }

  lemma StandaloneServed(ctx: Ctx, es: seq<Edit>, q: PodState, p: PodState)
    ensures DoAll(es + Standalone(ctx, q).edits, p) ==
            if Observes(q) then DoAll(SidecarStep(ctx, Alone(ctx, q).pod, true, Rehearsal(q)).edits, DoAll(es + Alone(ctx, q).edits, p))
            else DoAll(es + Alone(ctx, q).edits, p)
  {
    StandaloneEdits(ctx, q);
    DoGrouped(es, Alone(ctx, q).edits, if Observes(q) then SidecarStep(ctx, Alone(ctx, q).pod, true, Rehearsal(q)).edits else [], p);
  }

  lemma LoneMade(a: Arrival, s: PodState)
    requires Lone(a)
    requires var q := Injected(a.ctx, Read(a.doc));
             s == DoAll(Then(q, Standalone(a.ctx, q.pod)).edits, Read(a.doc)) && Agree(s, Standalone(a.ctx, q.pod).pod)
    requires OwnRecord(a.ctx, Read(a.doc), s)
    ensures StoredAlone(a.ctx, Read(a.doc), Injected(a.ctx, Read(a.doc)).pod, s)
  {
    var p, q := Read(a.doc), Injected(a.ctx, Read(a.doc));
    var alone := Alone(a.ctx, q.pod).pod;
    var s1 := DoAll(Then(q, Alone(a.ctx, q.pod)).edits, p);
    InjectedLone(a);
    LoneServed(a, s1);
    StandaloneServed(a.ctx, q.edits, q.pod, p);
    StandaloneEdits(a.ctx, q.pod);
    AloneGrows(a.ctx, q.pod);
    HasContainer(q.pod, p);
    ServerEquipped(q.pod, alone, s);
    if Observes(p) {
      LoneObserved(a.ctx, q.pod, alone, s1, s, p);
    }
  }

  lemma LoneObserved(ctx: Ctx, q: PodState, alone: PodState, s1: PodState, s: PodState, p: PodState)
    requires Submits(ctx, s1, p) && |alone.containers| == |p.containers| > 0 && alone.serviceAccount == p.serviceAccount
    requires Named(alone.volumes, "fluence-handoff") && Agree(s, alone)
    requires s == DoAll(SidecarStep(ctx, alone, true, Rehearsal(q)).edits, s1)
    ensures |s.containers| == |p.containers| + 1 && s.gates == p.gates && s.group == p.group && s.labels == p.labels && s.inits == s1.inits
    ensures IsSidecar(ctx, s.containers[0].env, s.containers[|p.containers|])
    ensures Plain("FLUENCE_OBSERVE", "true") in s.containers[|p.containers|].env
    ensures s.serviceAccount == (if AsText(p.serviceAccount) in {"", "default"} then Str("fluence-sidecar") else p.serviceAccount)
  {
    SidecarAccompanies(ctx, s1, alone, true, Rehearsal(q));
    SidecarIs(ctx, alone, true, Rehearsal(q));
    ObserverTold(ctx, alone, Rehearsal(q));
    assert s.containers[0] == alone.containers[0];
  }

  lemma HasContainer(q: PodState, p: PodState)
    requires Untouched(q, p) && AnyRequestsQpu(p)
    ensures |q.containers| == |p.containers| > 0
  {
  }

  lemma ServerEquipped(before: PodState, local: PodState, s: PodState)
    requires Equipped(before, local) && Agree(s, local) && |local.containers| == |before.containers|
    ensures Equipped(before, s)
  {
    forall i | 0 <= i < |before.containers| && before.containers[i].name != SIDECAR ensures EquippedAt(before, s.containers[i], i) {
      assert EquippedAt(before, local.containers[i], i);
    }
  }

  /** Every admitted quantum pod outside a shared gang is stored so, and no pod group is made for it. */
  lemma LoneStored(a: Arrival, groups: Groups)
    requires Lone(a) && Admit(a, groups).Admitted?
    ensures Admit(a, groups).s.groups == groups
    ensures var s := Stored(a, Admit(a, groups));
            s.Some? && StoredAlone(a.ctx, Read(a.doc), Injected(a.ctx, Read(a.doc)).pod, s.value)
  {
    LoneAdmission(a, groups);
    LoneRecorded(a, groups);
    StoredAgrees(a, groups);
    LoneMade(a, Stored(a, Admit(a, groups)).value);
  }

  // ---- what every container that asks Fluxion for something is injected with ----

  /** A container that requests anything of Fluxion's is given every configured variable it does not define; others are left alone. */
  lemma InjectedGives(a: Arrival, i: nat, e: Json)
    requires i < |Read(a.doc).containers| && e in a.ctx.injected
    ensures var c, p := Read(a.doc).containers[i], Injected(a.ctx, Read(a.doc)).pod;
            && i < |p.containers|
            && (RequestsFluxion(c) ==> Named(p.containers[i].env, NameOf(e)) && (!Named(c.env, NameOf(e)) ==> e in p.containers[i].env))
            && (!RequestsFluxion(c) ==> p.containers[i] == c)
  {
    var p := Read(a.doc);
    var c := p.containers[i];
    assert c in p.containers;
    if RequestsFluxion(c) {
      MissingNames(c, a.ctx.injected);
      var d := After(Inject(a.ctx.injected), c);
      if Named(c.env, NameOf(e)) {
        NamedPrefix(c.env, d.env, NameOf(e));
      } else {
        var j :| 0 <= j < |Missing(c, a.ctx.injected)| && Missing(c, a.ctx.injected)[j] == e;
        assert d.env[|c.env| + j] == e;
      }
    }
  }

  // ---- a labelled pod without a qpu ----

  lemma LabelledAdmission(a: Arrival, groups: Groups)
    requires !AnyRequestsQpu(Read(a.doc)) && Label(Read(a.doc), GROUP_LABEL) != ""
    ensures var q, group := Injected(a.ctx, Read(a.doc)), Label(Read(a.doc), GROUP_LABEL);
            && Inside(q.edits)
            && Admit(a, groups) == Admitted(State(Then(q, Progress(q.pod, SchedulingGroupOps(q.pod, group))),
                                                  Ensure(groups, GroupId(a.ctx.ns, group), MinCount(a.ctx, q.pod))))
  {
    var p := Read(a.doc);
    DefaultDispatch(a.ctx, State(Before(p), groups));
    FluxionTurn(a, groups);
    AtQuantumIs(a, groups);
    InjectedUntouched(a.ctx, p);
    UntouchedReads(a.ctx, Injected(a.ctx, p).pod, p);
  }

  /** Such a pod is linked to its label's group, which then exists with at least one member, and keeps all else but what is injected. */
  lemma LabelledStored(a: Arrival, groups: Groups)
    requires Shaped(a.doc) && KeysOrdered(a.ctx) && !AnyRequestsQpu(Read(a.doc)) && Label(Read(a.doc), GROUP_LABEL) != ""
    ensures var p, v, s := Read(a.doc), Admit(a, groups), Stored(a, Admit(a, groups));
            var id := GroupId(a.ctx.ns, Label(p, GROUP_LABEL));
            && v.Admitted? && s.Some? && Alike(s.value.(group := p.group), p) && Linked(s.value, Label(p, GROUP_LABEL))
            && v.s.groups.Keys == groups.Keys + {id} && (forall k :: k in groups ==> v.s.groups[k] == groups[k])
            && (id !in groups ==> v.s.groups[id].minCount == (if MinCount(a.ctx, p) > 0 then MinCount(a.ctx, p) else 1)
                                  && v.s.groups[id].admitted == "")
  {
    var p, q, group := Read(a.doc), Injected(a.ctx, Read(a.doc)), Label(Read(a.doc), GROUP_LABEL);
    LabelledAdmission(a, groups);
    StoredAgrees(a, groups);
    InnerAlike(q.edits, p);
    DoAllConcat(q.edits, SchedulingGroupOps(q.pod, group), p);
    LinkedAfter(q.pod, DoAll(q.edits, p), group);
  }

  lemma LinkedAfter(q: PodState, s: PodState, group: string)
    requires q.group == s.group
    ensures var t := DoAll(SchedulingGroupOps(q, group), s); Linked(t, group) && t.(group := s.group) == s
  {
    DoOne(SetSpec(SchedulingGroup, GroupLink(group)), s);
  }
}
