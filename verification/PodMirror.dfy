/**
 * The webhook keeps its own decoded pod in step with the patch it is writing, so that
 * later operations index and create lists correctly. Here: which edits it repeats on
 * its own pod, and that the server's pod and its own stay in agreement.
 */
module PodMirror {
  import opened Options
  import opened Json
  import opened Patches
  import opened PodEdits

  const SIDECAR := "fluence-sidecar"
  const GROUP_LABEL := "fluence.flux-framework.org/group"
  const DEPENDS_ON_KIND := "fluence.flux-framework.org/depends-on-kind"
  const DEPENDS_ON_SCOUT := "fluence.flux-framework.org/depends-on-scout"
  const DEPENDS_ON_GATE := "fluence.flux-framework.org/depends-on-gate"
  const DEPENDENCY := {DEPENDS_ON_KIND, DEPENDS_ON_SCOUT, DEPENDS_ON_GATE}

  /** The edits the webhook also makes to its own pod. */
  predicate Mirrored(e: Edit) {
    match e
    case NewMap(which, _) => which.Annotations?
    case SetKey(which, k, _) => which.Annotations? && k !in DEPENDENCY
    case Put(list, _, _) => list.Volumes?
    case SetSpec(_, _) => false
    case Within(_, _) => true
  }

  function Mirror(e: Edit, p: PodState): PodState {
    if Mirrored(e) then Do(e, p) else p
  }

  function MirrorAll(es: seq<Edit>, p: PodState): PodState {
    if es == [] then p else Mirror(es[|es| - 1], MirrorAll(es[..|es| - 1], p))
  }

  // ---- the branches the webhook takes, from its own pod ----

  predicate ChosenIn(e: ContainerEdit, c: Container) {
    match e
    case AddEnv(_, first) => first <==> c.env == []
    case AddMount(_, first) => first <==> c.mounts == []
    case Drop(Requests, k) => k in c.requests
    case Drop(Limits, k) => k in c.limits
  }

  predicate Chosen(e: Edit, p: PodState) {
    match e
    case NewMap(Annotations, whole) => p.annotations.None? && whole.Keys !! DEPENDENCY
    case NewMap(Labels, whole) => p.labels.None?
    case SetKey(Annotations, _, _) => p.annotations.Some?
    case SetKey(Labels, k, _) => p.labels.Some? && k == GROUP_LABEL
    case Put(list, item, first) =>
      (first <==> Length(p, list) == 0) && (list.Containers? ==> item.Obj? && ReadContainer(item).name == SIDECAR)
    case SetSpec(_, _) => true
    case Within(i, c) => i < |p.containers| && ChosenIn(c, p.containers[i])
  }

  /** Every edit takes the branch the webhook's own pod calls for at its turn. */
  predicate AllChosen(es: seq<Edit>, p: PodState) {
    es == [] || (AllChosen(es[..|es| - 1], p) && Chosen(es[|es| - 1], MirrorAll(es[..|es| - 1], p)))
  }

  // ---- agreement ----

  /** Equal on every key outside the set. */
  ghost predicate AgreeOutside(keys: set<string>, a: map<string, Json>, b: map<string, Json>) {
    forall k :: k !in keys ==> (k in a <==> k in b) && (k in a && k in b ==> a[k] == b[k])
  }

  ghost predicate AnnotationsAgree(server: Option<map<string, Json>>, local: Option<map<string, Json>>) {
    && (local.None? <==> server.None?)
    && (local.Some? && server.Some? ==> AgreeOutside(DEPENDENCY, server.value, local.value))
  }

  ghost predicate LabelsAgree(server: Option<map<string, Json>>, local: Option<map<string, Json>>) {
    local.Some? ==> server.Some? && AgreeOutside({GROUP_LABEL}, server.value, local.value)
  }

  /** The server has the webhook's containers as they are, then sidecars. */
  ghost predicate ContainersAgree(server: seq<Container>, local: seq<Container>) {
    && |local| <= |server|
    && (forall i :: 0 <= i < |local| ==> server[i] == local[i])
    && (forall i :: |local| <= i < |server| ==> server[i].name == SIDECAR)
  }

  ghost predicate Agree(server: PodState, local: PodState) {
    && server.volumes == local.volumes
    && ContainersAgree(server.containers, local.containers)
    && AnnotationsAgree(server.annotations, local.annotations)
    && LabelsAgree(server.labels, local.labels)
    && local.inits <= server.inits && local.gates <= server.gates
  }

  lemma AgreeSelf(p: PodState)
    ensures Agree(p, p)
  {
  }

  lemma MapEditAgrees(e: Edit, server: PodState, local: PodState)
    requires Agree(server, local) && Chosen(e, local) && OnMeta(e)
    ensures Accepts(e, server) && Agree(Do(e, server), Mirror(e, local))
  {
  }

  lemma WithinEditAgrees(e: Edit, server: PodState, local: PodState)
    requires Agree(server, local) && Chosen(e, local) && e.Within?
    ensures Accepts(e, server) && Agree(Do(e, server), Mirror(e, local))
  {
    assert server.containers[e.index] == local.containers[e.index];
  }

  lemma PutEditAgrees(e: Edit, server: PodState, local: PodState)
    requires Agree(server, local) && Chosen(e, local) && e.Put?
    ensures Accepts(e, server) && Agree(Do(e, server), Mirror(e, local))
  {
  }

  /** An edit chosen from the webhook's pod applies on the server and keeps the two in agreement. */
  lemma ChosenAgrees(e: Edit, server: PodState, local: PodState)
    requires Agree(server, local) && Chosen(e, local)
    ensures Accepts(e, server) && Agree(Do(e, server), Mirror(e, local))
  {
    if OnMeta(e) {
      MapEditAgrees(e, server, local);
    } else if e.Within? {
      WithinEditAgrees(e, server, local);
    } else if e.Put? {
      PutEditAgrees(e, server, local);
    }
  }

  lemma {:induction false} AllChosenAgree(es: seq<Edit>, server: PodState, local: PodState)
    requires Agree(server, local) && AllChosen(es, local)
    ensures AcceptsAll(es, server) && Agree(DoAll(es, server), MirrorAll(es, local))
  {
    if es != [] {
      var init, last := es[..|es| - 1], es[|es| - 1];
      AllChosenAgree(init, server, local);
      ChosenAgrees(last, DoAll(init, server), MirrorAll(init, local));
    }
  }

  /** The refinement: a patch whose edits were all so chosen applies, and decodes to what the webhook has. */
  lemma PatchAgrees(doc: Json, es: seq<Edit>)
    requires Shaped(doc) && AllChosen(es, Read(doc))
    ensures var r := ApplyAll(doc, OpsOf(es));
            r.Some? && Shaped(r.value) && Read(r.value) == DoAll(es, Read(doc)) && Agree(Read(r.value), MirrorAll(es, Read(doc)))
  {
    AgreeSelf(Read(doc));
    AllChosenAgree(es, Read(doc), Read(doc));
    EditsAgree(doc, es);
  }

  // ---- lists of edits ----

  lemma {:induction false} MirrorAllConcat(a: seq<Edit>, b: seq<Edit>, p: PodState)
    ensures MirrorAll(a + b, p) == MirrorAll(b, MirrorAll(a, p))
    ensures AllChosen(a + b, p) <==> AllChosen(a, p) && AllChosen(b, MirrorAll(a, p))
  {
    if b == [] {
      assert a + b == a;
    } else {
      MirrorAllConcat(a, b[..|b| - 1], p);
      assert (a + b)[..|a + b| - 1] == a + b[..|b| - 1];
    }
  }

  /** The edits are those the webhook chooses from p, and take its pod to q. */
  predicate Runs(es: seq<Edit>, p: PodState, q: PodState) {
    AllChosen(es, p) && MirrorAll(es, p) == q
  }

  lemma RunsThen(a: seq<Edit>, b: seq<Edit>, p: PodState, q: PodState, r: PodState)
    requires Runs(a, p, q) && Runs(b, q, r)
    ensures Runs(a + b, p, r)
  {
    MirrorAllConcat(a, b, p);
  }

  lemma OneChosen(e: Edit, p: PodState)
    ensures MirrorAll([e], p) == Mirror(e, p) && (AllChosen([e], p) <==> Chosen(e, p))
  {
    assert [e][..0] == [];
  }

  // ---- edits of one container, and of each container in turn ----

  function DoAllIn(es: seq<ContainerEdit>, c: Container): Container {
    if es == [] then c else DoIn(es[|es| - 1], DoAllIn(es[..|es| - 1], c))
  }

  predicate AllChosenIn(es: seq<ContainerEdit>, c: Container) {
    es == [] || (AllChosenIn(es[..|es| - 1], c) && ChosenIn(es[|es| - 1], DoAllIn(es[..|es| - 1], c)))
  }

  lemma {:induction false} DoAllInConcat(a: seq<ContainerEdit>, b: seq<ContainerEdit>, c: Container)
    ensures DoAllIn(a + b, c) == DoAllIn(b, DoAllIn(a, c))
    ensures AllChosenIn(a + b, c) <==> AllChosenIn(a, c) && AllChosenIn(b, DoAllIn(a, c))
  {
    if b == [] {
      assert a + b == a;
    } else {
      DoAllInConcat(a, b[..|b| - 1], c);
      assert (a + b)[..|a + b| - 1] == a + b[..|b| - 1];
    }
  }

  lemma OneChosenIn(e: ContainerEdit, c: Container)
    ensures DoAllIn([e], c) == DoIn(e, c) && (AllChosenIn([e], c) <==> ChosenIn(e, c))
  {
    assert [e][..0] == [];
  }

  function Lift(i: nat, es: seq<ContainerEdit>): (r: seq<Edit>)
    ensures |r| == |es|
  {
    seq(|es|, k requires 0 <= k < |es| => Within(i, es[k]))
  }

  lemma {:induction false} LiftRuns(i: nat, es: seq<ContainerEdit>, p: PodState)
    requires i < |p.containers| && AllChosenIn(es, p.containers[i])
    ensures AllChosen(Lift(i, es), p)
    ensures MirrorAll(Lift(i, es), p) == p.(containers := p.containers[i := DoAllIn(es, p.containers[i])])
  {
    if es == [] {
      assert p.containers[i := p.containers[i]] == p.containers;
    } else {
      var init := es[..|es| - 1];
      LiftRuns(i, init, p);
      assert Lift(i, es)[..|es| - 1] == Lift(i, init);
      assert Lift(i, es)[|es| - 1] == Within(i, es[|es| - 1]);
      var mid := p.containers[i := DoAllIn(init, p.containers[i])];
      assert mid[i := DoAllIn(es, p.containers[i])] == p.containers[i := DoAllIn(es, p.containers[i])];
    }
  }
}
