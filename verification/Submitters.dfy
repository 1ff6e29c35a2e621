/**
 * What a pod that submits is given, container by container: the staged interceptor, the
 * handoff volume, and the sidecar that lets the workers go.
 */
module Submitters {
  import opened Json
  import opened PodEdits
  import opened PodMirror
  import opened PodTasks
  import opened Handlers
  import opened HandlerOutcomes

  // ---- variables ----

  function Plain(name: string, value: string): Json {
    Obj(map["name" := Str(name), "value" := Str(value)])
  }

  /** A variable read from a field of the pod's own. */
  function FromField(name: string, path: string): Json {
    Obj(map["name" := Str(name), "valueFrom" := Obj(map["fieldRef" := Obj(map["fieldPath" := Str(path)])])])
  }

  /** Of the variables of that name the last one counts, and it has this value. */
  predicate Gives(env: seq<Json>, name: string, value: string) {
    exists i :: 0 <= i < |env| && env[i] == Plain(name, value) && LastOf(env, i, name)
  }

  predicate LastOf(env: seq<Json>, i: nat, name: string) {
    forall j :: i < j < |env| ==> NameOf(env[j]) != name
  }

  /** A task defines no variable of that name. */
  predicate Leaves(t: Task, name: string) {
    match t
    case Inject(envs) => forall e :: e in envs ==> NameOf(e) != name
    case SetEnv(e) => NameOf(e) != name
    case Stage => name != "PYTHONPATH" && name != "FLUENCE_POD_UID"
    case _ => true
  }

  lemma LeavesUnnamed(t: Task, c: Container, name: string)
    requires Leaves(t, name) && !Named(c.env, name)
    ensures !Named(After(t, c).env, name)
  {
    match t
    case Inject(envs) => MissingNames(c, envs);
    case SetEnv(e) => MissingNames(c, [e]);
    case Stage =>
      MissingNames(c, STAGE_ENVS);
      assert NameOf(STAGE_ENVS[0]) == "PYTHONPATH" && NameOf(STAGE_ENVS[1]) == "FLUENCE_POD_UID";
    case _ =>
  }

  // ---- what a workload container is given ----

  const STAGED := Obj(map["name" := Str("fluence-pkg"), "mountPath" := Str("/opt/fluence-staged"), "readOnly" := Bool(true)])
  const SHARED_DIR := Obj(map["name" := Str("fluence-handoff"), "mountPath" := Str("/opt/fluence-handoff")])

  /** The container mounts the staged interceptor and finds it, and knows its pod. */
  predicate Staged(c: Container) {
    STAGED in c.mounts && Named(c.env, "PYTHONPATH") && Named(c.env, "FLUENCE_POD_UID")
  }

  /** The variables that were not there before are the staged path and the pod's uid. */
  predicate StagedFrom(before: Container, c: Container) {
    && Staged(c)
    && (!Named(before.env, "PYTHONPATH") ==> Plain("PYTHONPATH", "/opt/fluence-staged") in c.env)
    && (!Named(before.env, "FLUENCE_POD_UID") ==> FromField("FLUENCE_POD_UID", "metadata.uid") in c.env)
  }

  /** The container mounts the handoff volume and is told where. */
  predicate HandsOver(c: Container) {
    SHARED_DIR in c.mounts && Named(c.env, "FLUENCE_HANDOFF_DIR")
  }

  predicate HandsOverFrom(before: Container, c: Container) {
    HandsOver(c) && (!Named(before.env, "FLUENCE_HANDOFF_DIR") ==> Plain("FLUENCE_HANDOFF_DIR", "/opt/fluence-handoff") in c.env)
  }

  lemma StageGives(c: Container)
    requires c.name != SIDECAR
    ensures StagedFrom(c, After(Stage, c))
  {
    MissingNames(c, STAGE_ENVS);
    var after := After(Stage, c);
    assert after.mounts[|c.mounts|] == STAGED;
    StageNamed(c, 0);
    StageNamed(c, 1);
    assert STAGE_ENVS[0] == Plain("PYTHONPATH", "/opt/fluence-staged") && STAGE_ENVS[1] == FromField("FLUENCE_POD_UID", "metadata.uid");
  }

  lemma StageNamed(c: Container, k: nat)
    requires c.name != SIDECAR && k < 2
    ensures Named(After(Stage, c).env, NameOf(STAGE_ENVS[k]))
    ensures !Named(c.env, NameOf(STAGE_ENVS[k])) ==> STAGE_ENVS[k] in After(Stage, c).env
  {
    MissingNames(c, STAGE_ENVS);
    var e, env := STAGE_ENVS[k], After(Stage, c).env;
    assert e in STAGE_ENVS;
    if Named(c.env, NameOf(e)) {
      var i :| 0 <= i < |c.env| && NameOf(c.env[i]) == NameOf(e);
      assert env[i] == c.env[i];
    } else {
      var i :| 0 <= i < |Missing(c, STAGE_ENVS)| && Missing(c, STAGE_ENVS)[i] == e;
      assert env[|c.env| + i] == e;
    }
  }

  lemma HandoffGives(c: Container)
    requires c.name != SIDECAR
    ensures HandsOverFrom(c, After(SetEnv(EnvVar(HANDOFF_DIR_ENV, HANDOFF_PATH)), After(Handoff, c)))
  {
    var mounted, e := After(Handoff, c), EnvVar(HANDOFF_DIR_ENV, HANDOFF_PATH);
    assert mounted.mounts[|c.mounts|] == SHARED_DIR && mounted.env == c.env && mounted.name == c.name;
    SetEnvNames(mounted, e);
    var env := After(SetEnv(e), mounted).env;
    assert !Named(c.env, NameOf(e)) ==> env[|c.env|] == e;
  }

  /** What a container was given stays with it. */
  lemma GivenStays(before: Container, c: Container, later: Container)
    requires Extends(later, c)
    ensures StagedFrom(before, c) ==> StagedFrom(before, later)
    ensures HandsOverFrom(before, c) ==> HandsOverFrom(before, later)
  {
    forall name | Named(c.env, name) ensures Named(later.env, name) {
      var i :| 0 <= i < |c.env| && NameOf(c.env[i]) == name;
      assert later.env[i] == c.env[i];
    }
    assert forall m :: m in c.mounts ==> m in later.mounts;
    assert forall e :: e in c.env ==> e in later.env;
  }

  // ---- what the pod is given ----

  function Scratch(name: string): Json {
    Obj(map["name" := Str(name), "emptyDir" := Obj(map[])])
  }

  /** Each workload container has the interceptor, and the handoff volume unless the pod came with one of that name. */
  predicate Equipped(before: PodState, q: PodState) {
    && |q.containers| >= |before.containers|
    && Scratch("fluence-pkg") in q.volumes && Named(q.volumes, "fluence-handoff")
    && (!Named(before.volumes, "fluence-handoff") ==> Scratch("fluence-handoff") in q.volumes)
    && forall i :: 0 <= i < |before.containers| && before.containers[i].name != SIDECAR ==>
         EquippedAt(before, q.containers[i], i)
  }

  predicate EquippedAt(before: PodState, c: Container, i: nat)
    requires i < |before.containers|
  {
    && StagedFrom(before.containers[i], c)
    && (!Named(before.volumes, "fluence-handoff") ==> HandsOverFrom(before.containers[i], c))
  }

  lemma NamedPrefix(a: seq<Json>, b: seq<Json>, name: string)
    requires a <= b && Named(a, name)
    ensures Named(b, name)
  {
    var i :| 0 <= i < |a| && NameOf(a[i]) == name;
    assert b[i] == a[i];
  }

  lemma SubmitterEquips(ctx: Ctx, p: PodState)
    ensures Equipped(p, Submitter(ctx, p).pod)
  {
    var q, r := Interceptor(ctx, p).pod, Submitter(ctx, p).pod;
    InterceptorGrows(ctx, p);
    HandoffGrows(q);
    assert q.volumes == p.volumes + [Scratch("fluence-pkg")];
    assert q.volumes[|p.volumes|] == Scratch("fluence-pkg") && NameOf(Scratch("fluence-pkg")) == STAGE_VOLUME;
    HandoffIsNew(p.volumes, q.volumes);
    HandoffVolumes(q);
    forall i | 0 <= i < |p.containers| && p.containers[i].name != SIDECAR ensures EquippedAt(p, r.containers[i], i) {
      StageGives(p.containers[i]);
      assert q.containers[i] == After(Stage, p.containers[i]);
      GivenStays(p.containers[i], q.containers[i], r.containers[i]);
      if !Named(p.volumes, HANDOFF_VOLUME) {
        HandoffGives(q.containers[i]);
        assert r.containers[i] == After(SetEnv(EnvVar(HANDOFF_DIR_ENV, HANDOFF_PATH)), After(Handoff, q.containers[i]));
        HandoffUnnamed(p.containers[i]);
      }
    }
  }

  lemma HandoffUnnamed(c: Container)
    ensures !Named(c.env, "FLUENCE_HANDOFF_DIR") ==> !Named(After(Stage, c).env, "FLUENCE_HANDOFF_DIR")
  {
    assert |"FLUENCE_HANDOFF_DIR"| == 19 && |"PYTHONPATH"| == 10 && |"FLUENCE_POD_UID"| == 15;
    if !Named(c.env, "FLUENCE_HANDOFF_DIR") {
      LeavesUnnamed(Stage, c, "FLUENCE_HANDOFF_DIR");
    }
  }

  lemma HandoffIsNew(before: seq<Json>, after: seq<Json>)
    requires after == before + [Scratch("fluence-pkg")]
    ensures Named(after, "fluence-handoff") <==> Named(before, "fluence-handoff")
  {
    assert NameOf(Scratch("fluence-pkg")) == "fluence-pkg" && |"fluence-pkg"| == 11 && |"fluence-handoff"| == 15;
    if Named(before, "fluence-handoff") {
      NamedPrefix(before, after, "fluence-handoff");
    }
  }

  lemma HandoffVolumes(q: PodState)
    ensures var r := HandoffStep(q).pod;
            && q.volumes <= r.volumes && Named(r.volumes, "fluence-handoff")
            && (!Named(q.volumes, "fluence-handoff") ==> Scratch("fluence-handoff") in r.volumes)
  {
    var r := HandoffStep(q).pod;
    if !Named(q.volumes, "fluence-handoff") {
      assert r.volumes == q.volumes + [Scratch("fluence-handoff")];
      assert r.volumes[|q.volumes|] == Scratch("fluence-handoff");
    }
  }

  lemma EquippedStays(before: PodState, q: PodState, later: PodState)
    requires Equipped(before, q) && |later.containers| >= |before.containers| && q.volumes <= later.volumes
    requires forall i :: 0 <= i < |before.containers| ==> Extends(later.containers[i], q.containers[i])
    ensures Equipped(before, later)
  {
    NamedPrefix(q.volumes, later.volumes, "fluence-handoff");
    forall i | 0 <= i < |before.containers| && before.containers[i].name != SIDECAR ensures EquippedAt(before, later.containers[i], i) {
      assert EquippedAt(before, q.containers[i], i);
      GivenStays(before.containers[i], q.containers[i], later.containers[i]);
    }
  }

  // ---- the sidecar ----

  /** A credential the sidecar borrows: a variable from a secret or a config map. */
  predicate FromSecret(e: Json) {
    Field(Field(e, "valueFrom"), "secretKeyRef").Obj? || Field(Field(e, "valueFrom"), "configMapKeyRef").Obj?
  }

  lemma {:induction false} BorrowedAre(have: seq<Json>, env: seq<Json>)
    ensures forall e :: e in Borrowed(have, env) <==> e in env && FromSecret(e) && !Named(have, NameOf(e))
  {
    if env != [] {
      BorrowedAre(have, env[..|env| - 1]);
    }
  }

  /** What the sidecar's own variables are, whatever it is told besides. */
  predicate KnowsItself(env: seq<Json>) {
    && FromField("FLUENCE_POD_UID", "metadata.uid") in env && FromField("FLUENCE_POD_NAME", "metadata.name") in env
    && FromField("FLUENCE_NAMESPACE", "metadata.namespace") in env
    && FromField("FLUENCE_GROUP", "metadata.labels['" + "fluence.flux-framework.org/group" + "']") in env
  }

  /** The container the webhook adds: by its name, with what it asks for, and with all it needs to follow the task. */
  ghost predicate IsSidecar(ctx: Ctx, first: seq<Json>, c: Container) {
    && c.name == "fluence-sidecar" && c.requests == map["cpu" := Str("100m"), "memory" := Str("256Mi")] && c.limits == map[]
    && SHARED_DIR in c.mounts && KnowsItself(c.env) && (forall e :: e in ctx.injected ==> e in c.env)
    && forall e :: e in first && FromSecret(e) ==> e in c.env || Named(c.env, NameOf(e))
  }

  lemma MountsHandoff(volumes: seq<Json>)
    requires Named(volumes, "fluence-handoff")
    ensures SHARED_DIR in HandoffMounts(volumes)
  {
    var n := |volumes| - 1;
    if NameOf(volumes[n]) != HANDOFF_VOLUME {
      var i :| 0 <= i < |volumes| && NameOf(volumes[i]) == "fluence-handoff";
      assert volumes[..n][i] == volumes[i];
      MountsHandoff(volumes[..n]);
    }
  }

  /** The variables as the sidecar has them: its own, those given, then those borrowed. */
  function SidecarGiven(ctx: Ctx, observe: bool, extra: seq<Json>): seq<Json> {
    [FromField("FLUENCE_POD_UID", "metadata.uid"), FromField("FLUENCE_POD_NAME", "metadata.name"),
     FromField("FLUENCE_NAMESPACE", "metadata.namespace"),
     FromField("FLUENCE_GROUP", "metadata.labels['" + "fluence.flux-framework.org/group" + "']")]
    + ctx.injected + (if observe then [Plain("FLUENCE_OBSERVE", "true")] else []) + extra
  }

  lemma SidecarEnvIs(ctx: Ctx, q: PodState, observe: bool, extra: seq<Json>)
    requires q.containers != []
    ensures var given := SidecarGiven(ctx, observe, extra);
            SidecarEnv(ctx, q, observe, extra) == given + Borrowed(given, q.containers[0].env)
  {
    var env := [FieldEnv("FLUENCE_POD_UID", "metadata.uid"), FieldEnv("FLUENCE_POD_NAME", "metadata.name"),
                FieldEnv("FLUENCE_NAMESPACE", "metadata.namespace"),
                FieldEnv("FLUENCE_GROUP", "metadata.labels['" + GROUP_LABEL + "']")];
    assert env == SidecarGiven(ctx, observe, extra)[..4];
  }

  /** The sidecar's document decodes to its parts. */
  lemma SidecarReads(ctx: Ctx, env: seq<Json>, mounts: seq<Json>)
    ensures ReadContainer(Sidecar(ctx, env, mounts)) ==
            Container("fluence-sidecar", env, mounts, map["cpu" := Str("100m"), "memory" := Str("256Mi")], map[])
  {
    assert SIDECAR == "fluence-sidecar";
    var j := Sidecar(ctx, env, mounts);
    assert Field(j, "env") == Arr(env) && Items(Field(j, "volumeMounts")) == mounts;
    assert Field(Field(j, "resources"), "requests") == Obj(map["cpu" := Str("100m"), "memory" := Str("256Mi")]);
    assert Field(Field(j, "resources"), "limits") == Null;
  }

  lemma SidecarEnvHas(ctx: Ctx, q: PodState, observe: bool, extra: seq<Json>)
    requires q.containers != []
    ensures var env, first := SidecarEnv(ctx, q, observe, extra), q.containers[0].env;
            && KnowsItself(env) && (forall e :: e in ctx.injected || e in extra ==> e in env)
            && forall e :: e in first && FromSecret(e) ==> e in env || Named(env, NameOf(e))
  {
    var env, given, first := SidecarEnv(ctx, q, observe, extra), SidecarGiven(ctx, observe, extra), q.containers[0].env;
    SidecarEnvIs(ctx, q, observe, extra);
    BorrowedAre(given, first);
    GivenKnows(ctx, observe, extra);
    assert forall e :: e in given || e in Borrowed(given, first) ==> e in env;
    forall e | e in first && FromSecret(e) ensures e in env || Named(env, NameOf(e)) {
      if Named(given, NameOf(e)) {
        NamedPrefix(given, env, NameOf(e));
      }
    }
  }

  lemma SidecarIs(ctx: Ctx, q: PodState, observe: bool, extra: seq<Json>)
    requires q.containers != [] && Named(q.volumes, "fluence-handoff")
    ensures IsSidecar(ctx, q.containers[0].env, ReadContainer(SidecarContainer(ctx, q, observe, extra)))
    ensures ReadContainer(SidecarContainer(ctx, q, observe, extra)).env == SidecarEnv(ctx, q, observe, extra)
  {
    MountsHandoff(q.volumes);
    SidecarEnvHas(ctx, q, observe, extra);
    SidecarReads(ctx, SidecarEnv(ctx, q, observe, extra), HandoffMounts(q.volumes));
  }

  lemma GivenKnows(ctx: Ctx, observe: bool, extra: seq<Json>)
    ensures KnowsItself(SidecarGiven(ctx, observe, extra))
    ensures forall e :: e in ctx.injected || e in extra ==> e in SidecarGiven(ctx, observe, extra)
  {
    var given := SidecarGiven(ctx, observe, extra);
    assert given[0] == FromField("FLUENCE_POD_UID", "metadata.uid") && given[1] == FromField("FLUENCE_POD_NAME", "metadata.name");
    assert given[2] == FromField("FLUENCE_NAMESPACE", "metadata.namespace");
    assert given[3] == FromField("FLUENCE_GROUP", "metadata.labels['" + "fluence.flux-framework.org/group" + "']");
    forall e | e in ctx.injected ensures e in given {
      var i :| 0 <= i < |ctx.injected| && ctx.injected[i] == e;
      assert given[4 + i] == e;
    }
    forall e | e in extra ensures e in given {
      var i :| 0 <= i < |extra| && extra[i] == e;
      assert given[|given| - |extra| + i] == e;
    }
  }

  /** A variable given last is the one that counts, since none of its name is borrowed. */
  lemma SidecarTold(ctx: Ctx, q: PodState, observe: bool, extra: seq<Json>, k: nat, name: string, value: string)
    requires q.containers != [] && k < |extra| && extra[k] == Plain(name, value) && LastOf(extra, k, name)
    ensures Gives(SidecarEnv(ctx, q, observe, extra), name, value)
  {
    var given, first := SidecarGiven(ctx, observe, extra), q.containers[0].env;
    SidecarEnvIs(ctx, q, observe, extra);
    BorrowedAre(given, first);
    var env, at := SidecarEnv(ctx, q, observe, extra), |given| - |extra| + k;
    assert given[at] == extra[k] && NameOf(extra[k]) == name;
    assert env[at] == Plain(name, value);
    forall j | at < j < |env| ensures NameOf(env[j]) != name {
      if j < |given| {
        assert env[j] == extra[j - (|given| - |extra|)];
      } else {
        assert env[j] == Borrowed(given, first)[j - |given|];
      }
    }
  }

  /** It observes only when asked to, or when the configuration or the workload says so. */
  lemma SidecarObserves(ctx: Ctx, q: PodState, extra: seq<Json>)
    requires q.containers != []
    requires !Named(ctx.injected, "FLUENCE_OBSERVE") && !Named(q.containers[0].env, "FLUENCE_OBSERVE") && !Named(extra, "FLUENCE_OBSERVE")
    ensures !Named(SidecarEnv(ctx, q, false, extra), "FLUENCE_OBSERVE")
  {
    var given, first := SidecarGiven(ctx, false, extra), q.containers[0].env;
    SidecarEnvIs(ctx, q, false, extra);
    BorrowedAre(given, first);
    var env := SidecarEnv(ctx, q, false, extra);
    assert given == given[..4] + ctx.injected + extra;
    forall i | 0 <= i < |env| ensures NameOf(env[i]) != "FLUENCE_OBSERVE" {
      if i < 4 {
        OwnNames(env[i], i, given);
      } else if i < 4 + |ctx.injected| {
        assert env[i] == ctx.injected[i - 4];
      } else if i < |given| {
        assert env[i] == extra[i - 4 - |ctx.injected|];
      } else {
        assert env[i] in Borrowed(given, first) && env[i] in first;
      }
    }
  }

  lemma OwnNames(e: Json, i: nat, given: seq<Json>)
    requires i < 4 <= |given| && e == given[i]
    requires given[..4] == SidecarGiven(Ctx("", "", "", 0, 0, 0, false, [], "", []), false, [])
    ensures NameOf(e) != "FLUENCE_OBSERVE"
  {
    assert given[..4][i] == e;
    assert |"FLUENCE_OBSERVE"| == 15 && |"FLUENCE_POD_NAME"| == 16 && |"FLUENCE_NAMESPACE"| == 17 && |"FLUENCE_GROUP"| == 13;
    assert "FLUENCE_OBSERVE"[8] == 'O' && "FLUENCE_POD_UID"[8] == 'P';
  }
}
