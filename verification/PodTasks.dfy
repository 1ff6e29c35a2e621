/** What the handlers do container by container: the operations and the outcome. */
module PodTasks {
  import opened Vocabulary
  import opened Json
  import opened PodEdits
  import opened PodMirror

  const QPU := "fluxion.flux-framework.org/qpu"
  const STAGE_VOLUME := "fluence-pkg"
  const STAGE_PATH := "/opt/fluence-staged"
  const HANDOFF_VOLUME := "fluence-handoff"
  const HANDOFF_PATH := "/opt/fluence-handoff"
  const HANDOFF_DIR_ENV := "FLUENCE_HANDOFF_DIR"

  function EnvVar(name: string, value: string): Json {
    Obj(map["name" := Str(name), "value" := Str(value)])
  }

  function FieldEnv(name: string, path: string): Json {
    Obj(map["name" := Str(name), "valueFrom" := Obj(map["fieldRef" := Obj(map["fieldPath" := Str(path)])])])
  }

  function AnnotationEnv(name: string, key: string): Json {
    FieldEnv(name, "metadata.annotations['" + key + "']")
  }

  function NameOf(j: Json): string {
    AsText(Field(j, "name"))
  }

  predicate Named(items: seq<Json>, name: string) {
    exists i :: 0 <= i < |items| && NameOf(items[i]) == name
  }

  predicate RequestsFluxion(c: Container) {
    exists k :: k in c.requests && FLUXION_PREFIX <= k
  }

  predicate RequestsQpu(c: Container) {
    QPU in c.requests
  }

  const STAGE_MOUNT := Obj(map["name" := Str(STAGE_VOLUME), "mountPath" := Str(STAGE_PATH), "readOnly" := Bool(true)])
  const HANDOFF_MOUNT := Obj(map["name" := Str(HANDOFF_VOLUME), "mountPath" := Str(HANDOFF_PATH)])
  const STAGE_ENVS := [EnvVar("PYTHONPATH", STAGE_PATH), FieldEnv("FLUENCE_POD_UID", "metadata.uid")]

  datatype Task = Inject(envs: seq<Json>) | SetEnv(env: Json) | Stage | Handoff | DropResource(resource: string)

  /** The variables a container does not already define, looked up in what it first had. */
  function Missing(c: Container, envs: seq<Json>): seq<Json> {
    if envs == [] then []
    else
      var rest := Missing(c, envs[..|envs| - 1]);
      var e := envs[|envs| - 1];
      if Named(c.env, NameOf(e)) then rest else rest + [e]
  }

  function AddEnvs(c: Container, items: seq<Json>): seq<ContainerEdit> {
    seq(|items|, k requires 0 <= k < |items| => AddEnv(items[k], c.env == [] && k == 0))
  }

  function AddMounts(c: Container, mount: Json): seq<ContainerEdit> {
    [AddMount(mount, c.mounts == [])]
  }

  predicate Skips(t: Task, c: Container) {
    if t.Inject? then !RequestsFluxion(c) else c.name == SIDECAR
  }

  /** The operations a task emits for a container. */
  function TaskEdits(t: Task, c: Container): seq<ContainerEdit> {
    if Skips(t, c) then []
    else
      match t
      case Inject(envs) => AddEnvs(c, Missing(c, envs))
      case SetEnv(e) => AddEnvs(c, Missing(c, [e]))
      case Stage => AddMounts(c, STAGE_MOUNT) + AddEnvs(c, Missing(c, STAGE_ENVS))
      case Handoff => AddMounts(c, HANDOFF_MOUNT)
      case DropResource(name) =>
        (if name in c.requests then [Drop(Requests, name)] else []) + if name in c.limits then [Drop(Limits, name)] else []
  }

  /** What a task makes of a container. */
  function After(t: Task, c: Container): Container {
    if Skips(t, c) then c
    else
      match t
      case Inject(envs) => c.(env := c.env + Missing(c, envs))
      case SetEnv(e) => c.(env := c.env + Missing(c, [e]))
      case Stage => c.(mounts := c.mounts + [STAGE_MOUNT], env := c.env + Missing(c, STAGE_ENVS))
      case Handoff => c.(mounts := c.mounts + [HANDOFF_MOUNT])
      case DropResource(name) => c.(requests := c.requests - {name}, limits := c.limits - {name})
  }

  lemma {:induction false} AddEnvsRun(c: Container, items: seq<Json>)
    ensures AllChosenIn(AddEnvs(c, items), c) && DoAllIn(AddEnvs(c, items), c) == c.(env := c.env + items)
  {
    var es := AddEnvs(c, items);
    if items == [] {
      assert es == [] && c.env + items == c.env;
    } else {
      var init := items[..|items| - 1];
      AddEnvsRun(c, init);
      assert es[..|es| - 1] == AddEnvs(c, init);
      assert c.env + items == c.env + init + [items[|items| - 1]];
      assert c.env == [] && |init| == 0 ==> c.env + items == [items[0]];
    }
  }

  lemma AddMountsRun(c: Container, mount: Json)
    ensures AllChosenIn(AddMounts(c, mount), c) && DoAllIn(AddMounts(c, mount), c) == c.(mounts := c.mounts + [mount])
  {
    OneChosenIn(AddMount(mount, c.mounts == []), c);
    assert c.mounts == [] ==> c.mounts + [mount] == [mount];
  }

  lemma StageRuns(c: Container)
    ensures var es := AddMounts(c, STAGE_MOUNT) + AddEnvs(c, Missing(c, STAGE_ENVS));
            AllChosenIn(es, c) && DoAllIn(es, c) == c.(mounts := c.mounts + [STAGE_MOUNT], env := c.env + Missing(c, STAGE_ENVS))
  {
    var mounted := c.(mounts := c.mounts + [STAGE_MOUNT]);
    AddMountsRun(c, STAGE_MOUNT);
    AddEnvsRun(mounted, Missing(c, STAGE_ENVS));
    assert AddEnvs(mounted, Missing(c, STAGE_ENVS)) == AddEnvs(c, Missing(c, STAGE_ENVS));
    DoAllInConcat(AddMounts(c, STAGE_MOUNT), AddEnvs(c, Missing(c, STAGE_ENVS)), c);
  }

  lemma DropIf(c: Container, table: Table, name: string, has: bool)
    requires has <==> name in if table.Requests? then c.requests else c.limits
    ensures var es := if has then [Drop(table, name)] else [];
            && AllChosenIn(es, c)
            && DoAllIn(es, c) == if table.Requests? then c.(requests := c.requests - {name}) else c.(limits := c.limits - {name})
  {
    if has {
      OneChosenIn(Drop(table, name), c);
    } else {
      assert c.requests - {name} == c.requests || table.Limits?;
      assert c.limits - {name} == c.limits || table.Requests?;
    }
  }

  lemma DropRuns(c: Container, name: string)
    ensures var es := (if name in c.requests then [Drop(Requests, name)] else []) + if name in c.limits then [Drop(Limits, name)] else [];
            AllChosenIn(es, c) && DoAllIn(es, c) == c.(requests := c.requests - {name}, limits := c.limits - {name})
  {
    DropIf(c, Requests, name, name in c.requests);
    DropIf(c.(requests := c.requests - {name}), Limits, name, name in c.limits);
    DoAllInConcat(if name in c.requests then [Drop(Requests, name)] else [], if name in c.limits then [Drop(Limits, name)] else [], c);
  }

  /** Every operation of a task takes the right branch, and together they do what it says. */
  lemma TaskRuns(t: Task, c: Container)
    ensures AllChosenIn(TaskEdits(t, c), c) && DoAllIn(TaskEdits(t, c), c) == After(t, c)
  {
    if !Skips(t, c) {
      match t
      case Inject(envs) => AddEnvsRun(c, Missing(c, envs));
      case SetEnv(e) => AddEnvsRun(c, Missing(c, [e]));
      case Stage => StageRuns(c);
      case Handoff => AddMountsRun(c, HANDOFF_MOUNT);
      case DropResource(name) => DropRuns(c, name);
    }
  }

  // ---- over all containers ----

  /** The operations of a task for the first n containers. */
  function Spread(cs: seq<Container>, n: nat, t: Task): seq<Edit>
    requires n <= |cs|
  {
    if n == 0 then [] else Spread(cs, n - 1, t) + Lift(n - 1, TaskEdits(t, cs[n - 1]))
  }

  function TaskOps(cs: seq<Container>, t: Task): seq<Edit> {
    Spread(cs, |cs|, t)
  }

  function AfterFirst(cs: seq<Container>, n: nat, t: Task): (r: seq<Container>)
    ensures |r| == |cs|
  {
    seq(|cs|, i requires 0 <= i < |cs| => if i < n then After(t, cs[i]) else cs[i])
  }

  function AfterAll(cs: seq<Container>, t: Task): (r: seq<Container>)
    ensures |r| == |cs|
  {
    seq(|cs|, i requires 0 <= i < |cs| => After(t, cs[i]))
  }

  function WithContainers(p: PodState, cs: seq<Container>): PodState {
    p.(containers := cs)
  }

  lemma LiftTask(p: PodState, before: seq<Container>, after: seq<Container>, i: nat, t: Task, c: Container)
    requires i < |before| && before[i] == c && after == before[i := After(t, c)]
    ensures Runs(Lift(i, TaskEdits(t, c)), WithContainers(p, before), WithContainers(p, after))
  {
    TaskRuns(t, c);
    LiftRuns(i, TaskEdits(t, c), WithContainers(p, before));
  }

  lemma AfterOneMore(cs: seq<Container>, n: nat, t: Task)
    requires n < |cs|
    ensures AfterFirst(cs, n, t)[n] == cs[n]
    ensures AfterFirst(cs, n + 1, t) == AfterFirst(cs, n, t)[n := After(t, cs[n])]
  {
  }

  lemma SpreadOneMore(p: PodState, cs: seq<Container>, n: nat, t: Task)
    requires n < |cs|
    requires Runs(Spread(cs, n, t), WithContainers(p, cs), WithContainers(p, AfterFirst(cs, n, t)))
    ensures Runs(Spread(cs, n + 1, t), WithContainers(p, cs), WithContainers(p, AfterFirst(cs, n + 1, t)))
  {
    AfterOneMore(cs, n, t);
    LiftTask(p, AfterFirst(cs, n, t), AfterFirst(cs, n + 1, t), n, t, cs[n]);
    RunsThen(Spread(cs, n, t), Lift(n, TaskEdits(t, cs[n])),
             WithContainers(p, cs), WithContainers(p, AfterFirst(cs, n, t)), WithContainers(p, AfterFirst(cs, n + 1, t)));
  }

  lemma {:induction false} SpreadRuns(p: PodState, cs: seq<Container>, n: nat, t: Task)
    requires n <= |cs|
    ensures Runs(Spread(cs, n, t), WithContainers(p, cs), WithContainers(p, AfterFirst(cs, n, t)))
  {
    if n == 0 {
      assert AfterFirst(cs, 0, t) == cs;
    } else {
      SpreadRuns(p, cs, n - 1, t);
      SpreadOneMore(p, cs, n - 1, t);
    }
  }

  lemma TaskOpsRun(p: PodState, t: Task)
    ensures Runs(TaskOps(p.containers, t), p, WithContainers(p, AfterAll(p.containers, t)))
  {
    SpreadRuns(p, p.containers, |p.containers|, t);
    assert AfterFirst(p.containers, |p.containers|, t) == AfterAll(p.containers, t);
    assert WithContainers(p, p.containers) == p;
  }

  // ---- what a task keeps ----

  /** Nothing a container had is lost, but for a qpu request or limit. */
  ghost predicate Extends(after: Container, before: Container) {
    && after.name == before.name
    && before.env <= after.env && before.mounts <= after.mounts
    && after.requests - {QPU} == before.requests - {QPU} && after.limits - {QPU} == before.limits - {QPU}
  }

  lemma TaskExtends(t: Task, c: Container)
    requires t.DropResource? ==> t.resource == QPU
    ensures Extends(After(t, c), c)
    ensures !t.DropResource? ==> After(t, c).requests == c.requests && After(t, c).limits == c.limits
  {
  }

  lemma {:induction false} MissingNames(c: Container, envs: seq<Json>)
    ensures forall e :: e in Missing(c, envs) <==> e in envs && !Named(c.env, NameOf(e))
  {
    if envs != [] {
      MissingNames(c, envs[..|envs| - 1]);
    }
  }

  /** Afterwards the container defines the variable, as it did before if it did. */
  lemma SetEnvNames(c: Container, e: Json)
    requires c.name != SIDECAR
    ensures Named(After(SetEnv(e), c).env, NameOf(e))
    ensures !Named(c.env, NameOf(e)) ==> After(SetEnv(e), c).env == c.env + [e]
    ensures Named(c.env, NameOf(e)) ==> After(SetEnv(e), c) == c
  {
    assert [e][..0] == [];
    assert Missing(c, []) == [];
    var env := After(SetEnv(e), c).env;
    if !Named(c.env, NameOf(e)) {
      assert env[|c.env|] == e;
    } else {
      assert c.env + [] == c.env;
    }
  }
}
