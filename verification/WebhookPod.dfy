/**
 * The webhook at work on one pod: each method emits patch operations and changes the
 * decoded pod in place, and is proved to do what its step in Handlers says.
 */
module WebhookPod {
  import opened Options
  import opened Json
  import opened Pointers
  import opened Patches
  import opened PodEdits
  import opened PodPaths
  import opened PodMirror
  import opened PodTasks
  import opened Handlers

  // ---- operations of one container ----

  function ContainerOps(i: nat, es: seq<ContainerEdit>): seq<Op> {
    OpsOf(Lift(i, es))
  }

  lemma ContainerOpsOne(i: nat, e: ContainerEdit)
    ensures ContainerOps(i, [e]) == [OpOf(Within(i, e))] && ContainerOps(i, []) == []
  {
  }

  lemma ContainerOpsConcat(i: nat, a: seq<ContainerEdit>, b: seq<ContainerEdit>)
    ensures ContainerOps(i, a + b) == ContainerOps(i, a) + ContainerOps(i, b)
  {
    assert Lift(i, a + b) == Lift(i, a) + Lift(i, b);
    OpsOfConcat(Lift(i, a), Lift(i, b));
  }

  lemma SpreadOps(cs: seq<Container>, i: nat, t: Task)
    requires i < |cs|
    ensures OpsOf(Spread(cs, i + 1, t)) == OpsOf(Spread(cs, i, t)) + ContainerOps(i, TaskEdits(t, cs[i]))
    ensures AfterFirst(cs, i, t)[i] == cs[i]
    ensures AfterFirst(cs, i + 1, t) == AfterFirst(cs, i, t)[i := After(t, cs[i])]
  {
    OpsOfConcat(Spread(cs, i, t), Lift(i, TaskEdits(t, cs[i])));
    AfterOneMore(cs, i, t);
  }

  lemma AddEnvsMore(c: Container, items: seq<Json>, e: Json)
    ensures AddEnvs(c, items + [e]) == AddEnvs(c, items) + [AddEnv(e, c.env + items == [])]
  {
  }

  lemma MissingMore(c: Container, envs: seq<Json>, e: Json)
    ensures Missing(c, envs + [e]) == if Named(c.env, NameOf(e)) then Missing(c, envs) else Missing(c, envs) + [e]
  {
    assert (envs + [e])[..|envs|] == envs;
  }

  /** One key more to stamp: its operation, and its entry, when the map has it. */
  lemma StampMore(start: map<string, Json>, ann: map<string, Json>, keys: seq<string>, i: nat)
    requires i < |keys|
    ensures OpsOf(StampOps(ann, keys[..i + 1])) ==
            OpsOf(StampOps(ann, keys[..i])) + if keys[i] in ann then [Add(Slashed(ANNOTATIONS_TOKENS + [Escape(keys[i])]), ann[keys[i]])] else []
    ensures start + Picked(ann, keys[..i + 1]) ==
            if keys[i] in ann then (start + Picked(ann, keys[..i]))[keys[i] := ann[keys[i]]] else start + Picked(ann, keys[..i])
  {
    var k := keys[i];
    PickedMore(start, ann, keys[..i], k);
    assert keys[..i + 1] == keys[..i] + [k] && (keys[..i] + [k])[..i] == keys[..i];
    if k in ann {
      AnnotationOp(k, ann[k]);
      OpsOfConcat(StampOps(ann, keys[..i]), [SetKey(Annotations, k, ann[k])]);
    }
  }

  // ---- the body of a loop over containers ----

  method InjectContainer(i: nat, c: Container, envs: seq<Json>) returns (ops: seq<Op>, now: Container)
    requires RequestsFluxion(c)
    ensures ops == ContainerOps(i, TaskEdits(Inject(envs), c)) && now == After(Inject(envs), c)
  {
    ops, now := [], c;
    ContainerOpsOne(i, AddEnv(Null, false));
    assert c.env + [] == c.env;
    for j := 0 to |envs|
      invariant ops == ContainerOps(i, AddEnvs(c, Missing(c, envs[..j])))
      invariant now == c.(env := c.env + Missing(c, envs[..j]))
    {
      var e := envs[j];
      InjectMore(i, c, envs, j);
      if Named(c.env, NameOf(e)) {
        continue;
      }
      if |now.env| == 0 {
        ops := ops + [Add(Slashed(EnvTokens(i)), Arr([e]))];
      } else {
        ops := ops + [Add(Slashed(EnvTokens(i) + ["-"]), e)];
      }
      now := now.(env := now.env + [e]);
    }
    assert envs[..|envs|] == envs;
  }

  lemma InjectMore(i: nat, c: Container, envs: seq<Json>, j: nat)
    requires j < |envs|
    ensures var items, more := Missing(c, envs[..j]), if Named(c.env, NameOf(envs[j])) then [] else [envs[j]];
            && c.env + Missing(c, envs[..j + 1]) == c.env + items + more
            && ContainerOps(i, AddEnvs(c, Missing(c, envs[..j + 1]))) ==
               ContainerOps(i, AddEnvs(c, items)) + EnvOps(i, more, c.env + items == [])
  {
    var items, more := Missing(c, envs[..j]), if Named(c.env, NameOf(envs[j])) then [] else [envs[j]];
    MissingMore(c, envs[..j], envs[j]);
    assert envs[..j + 1] == envs[..j] + [envs[j]];
    assert items + [] == items;
    OneEnvOp(i, c, items, more);
  }

  method SetContainerEnv(i: nat, c: Container, e: Json) returns (ops: seq<Op>, now: Container)
    ensures ops == ContainerOps(i, TaskEdits(SetEnv(e), c)) && now == After(SetEnv(e), c)
  {
    SetEnvEdits(i, c, e);
    if c.name == SIDECAR || Named(c.env, NameOf(e)) {
      return [], c;
    }
    if |c.env| == 0 {
      return [Add(Slashed(EnvTokens(i)), Arr([e]))], c.(env := [e]);
    }
    return [Add(Slashed(EnvTokens(i) + ["-"]), e)], c.(env := c.env + [e]);
  }

  /** What setting a variable emits and makes for one container. */
  lemma SetEnvEdits(i: nat, c: Container, e: Json)
    ensures ContainerOps(i, TaskEdits(SetEnv(e), c)) ==
            if c.name == SIDECAR || Named(c.env, NameOf(e)) then [] else [ListOp(EnvTokens(i), e, c.env == [])]
    ensures After(SetEnv(e), c) == if c.name == SIDECAR || Named(c.env, NameOf(e)) then c else c.(env := c.env + [e])
  {
    MissingMore(c, [], e);
    assert [] + [e] == [e] && c.env + [] == c.env;
    AddEnvsMore(c, [], e);
    ContainerOpsOne(i, AddEnv(e, c.env == []));
    EnvOp(i, e, c.env == []);
  }

  method MountContainer(i: nat, c: Container) returns (ops: seq<Op>, now: Container)
    ensures ops == ContainerOps(i, TaskEdits(Handoff, c)) && now == After(Handoff, c)
  {
    ContainerOpsOne(i, AddMount(HANDOFF_MOUNT, c.mounts == []));
    if c.name == SIDECAR {
      return [], c;
    }
    MountOp(i, HANDOFF_MOUNT, c.mounts == []);
    now := c.(mounts := c.mounts + [HANDOFF_MOUNT]);
    if |c.mounts| == 0 {
      return [Add(Slashed(MountsTokens(i)), Arr([HANDOFF_MOUNT]))], now;
    }
    return [Add(Slashed(MountsTokens(i) + ["-"]), HANDOFF_MOUNT)], now;
  }

  method StageContainer(i: nat, c: Container) returns (ops: seq<Op>, now: Container)
    requires c.name != SIDECAR
    ensures ops == ContainerOps(i, TaskEdits(Stage, c)) && now == After(Stage, c)
  {
    StageEdits(i, c);
    StageMissing(c);
    if |c.mounts| == 0 {
      ops := [Add(Slashed(MountsTokens(i)), Arr([STAGE_MOUNT]))];
    } else {
      ops := [Add(Slashed(MountsTokens(i) + ["-"]), STAGE_MOUNT)];
    }
    var more, env := StageEnvs(i, c);
    ops := ops + more;
    now := c.(mounts := c.mounts + [STAGE_MOUNT], env := env);
  }

  method StageEnvs(i: nat, c: Container) returns (ops: seq<Op>, env: seq<Json>)
    ensures env == c.env + StageMore(c, 0) + StageMore(c, 1)
    ensures ops == EnvOps(i, StageMore(c, 0), c.env == []) + EnvOps(i, StageMore(c, 1), c.env + StageMore(c, 0) == [])
  {
    var pythonpath, uid := STAGE_ENVS[0], STAGE_ENVS[1];
    ops, env := [], c.env;
    if !Named(c.env, "PYTHONPATH") {
      if |c.env| == 0 {
        ops := [Add(Slashed(EnvTokens(i)), Arr([pythonpath]))];
        env := [pythonpath];
      } else {
        ops := [Add(Slashed(EnvTokens(i) + ["-"]), pythonpath)];
        env := env + [pythonpath];
      }
    }
    assert env == c.env + StageMore(c, 0) && env != [];
    if !Named(c.env, "FLUENCE_POD_UID") {
      ops := ops + [Add(Slashed(EnvTokens(i) + ["-"]), uid)];
      env := env + [uid];
    }
  }

  method DropFromContainer(i: nat, c: Container, name: string) returns (ops: seq<Op>, now: Container)
    requires c.name != SIDECAR
    ensures ops == ContainerOps(i, TaskEdits(DropResource(name), c)) && now == After(DropResource(name), c)
  {
    var key := Escape(name);
    DropEdits(i, c, name);
    ops, now := [], c;
    if name in c.requests {
      ops := [Remove(Slashed(ResourceTokens(i, Requests) + [key]))];
      now := now.(requests := now.requests - {name});
    }
    assert ops == DropOps(i, name, Requests, name in c.requests) && now == c.(requests := c.requests - {name});
    if name in c.limits {
      ops := ops + [Remove(Slashed(ResourceTokens(i, Limits) + [key]))];
      now := now.(limits := now.limits - {name});
    } else {
      assert c.limits - {name} == c.limits;
    }
  }

  // ---- the pod ----

  class Pod {
    var annotations: Option<map<string, Json>>
    var labels: Option<map<string, Json>>
    var volumes: seq<Json>
    var inits: seq<Json>
    var gates: seq<Json>
    var containers: seq<Container>
    var group: Json
    var priorityClass: Json
    var priority: Json
    var serviceAccount: Json

    function State(): PodState
      reads this
    {
      PodState(annotations, labels, volumes, inits, gates, containers, group, priorityClass, priority, serviceAccount)
    }

    constructor (p: PodState)
      ensures State() == p
    {
      annotations, labels, volumes, inits, gates := p.annotations, p.labels, p.volumes, p.inits, p.gates;
      containers, group, priorityClass, priority, serviceAccount := p.containers, p.group, p.priorityClass, p.priority, p.serviceAccount;
    }

    /** annotateOps, over the keys in the order the map is walked. */
    method AnnotateOps(ann: map<string, Json>, keys: seq<string>) returns (ops: seq<Op>)
      requires forall k :: k in ann ==> k in keys
      modifies this`annotations
      ensures ops == OpsOf(Stamp(old(State()), ann, keys).edits) && State() == Stamp(old(State()), ann, keys).pod
    {
      if annotations.None? {
        annotations := Some(ann);
        AnnotationsOp(ann);
        assert map[] + ann == ann;
        return [Add(Slashed(ANNOTATIONS_TOKENS), Obj(ann))];
      }
      var start := annotations.value;
      ops := [];
      assert start + Picked(ann, []) == start;
      for i := 0 to |keys|
        invariant annotations == Some(start + Picked(ann, keys[..i])) && ops == OpsOf(StampOps(ann, keys[..i]))
      {
        var k := keys[i];
        StampMore(start, ann, keys, i);
        if k in ann {
          ops := ops + [Add(Slashed(ANNOTATIONS_TOKENS + [Escape(k)]), ann[k])];
          annotations := Some(annotations.value[k := ann[k]]);
        }
      }
      assert keys[..|keys|] == keys && Picked(ann, keys) == ann;
    }

    method SetContainerEnvOps(e: Json) returns (ops: seq<Op>)
      modifies this`containers
      ensures ops == OpsOf(Run(old(State()), SetEnv(e)).edits) && State() == Run(old(State()), SetEnv(e)).pod
    {
      ghost var cs, t := containers, SetEnv(e);
      ops := [];
      assert AfterFirst(cs, 0, t) == cs;
      for i := 0 to |containers|
        invariant containers == AfterFirst(cs, i, t) && ops == OpsOf(Spread(cs, i, t))
      {
        SpreadOps(cs, i, t);
        var c := containers[i];
        var more, now := SetContainerEnv(i, c, e);
        ops := ops + more;
        containers := containers[i := now];
      }
      assert AfterFirst(cs, |cs|, t) == AfterAll(cs, t);
    }

    /** InjectEnvOps: names are looked up in the container as it was before the loop. */
    method InjectEnvOps(envs: seq<Json>) returns (ops: seq<Op>)
      modifies this`containers
      ensures ops == OpsOf(Run(old(State()), Inject(envs)).edits) && State() == Run(old(State()), Inject(envs)).pod
    {
      ghost var cs, t := containers, Inject(envs);
      ops := [];
      assert AfterFirst(cs, 0, t) == cs;
      for i := 0 to |containers|
        invariant containers == AfterFirst(cs, i, t) && ops == OpsOf(Spread(cs, i, t))
      {
        SpreadOps(cs, i, t);
        var c := containers[i];
        if !RequestsFluxion(c) {
          assert After(t, c) == c && TaskEdits(t, c) == [];
          assert containers[i := c] == containers;
          ContainerOpsOne(i, AddEnv(Null, false));
          continue;
        }
        var more, now := InjectContainer(i, c, envs);
        ops := ops + more;
        containers := containers[i := now];
      }
      assert AfterFirst(cs, |cs|, t) == AfterAll(cs, t);
    }

    /** Adds a volume to the pod, creating the list when there is none. */
    method AddVolumeOp(name: string) returns (ops: seq<Op>)
      modifies this`volumes
      ensures ops == OpsOf(AddVolume(old(State()), name).edits) && State() == AddVolume(old(State()), name).pod
    {
      VolumeOp(EmptyDir(name), volumes == []);
      ops := [if |volumes| == 0 then Add(Slashed(VOLUMES_TOKENS), Arr([EmptyDir(name)])) else Add(Slashed(VOLUMES_TOKENS + ["-"]), EmptyDir(name))];
      volumes := volumes + [EmptyDir(name)];
    }

    /** The stage volume's mount and variables, container by container. */
    method StageOps() returns (ops: seq<Op>)
      modifies this`containers
      ensures ops == OpsOf(Run(old(State()), Stage).edits) && State() == Run(old(State()), Stage).pod
    {
      ghost var cs := containers;
      ops := [];
      assert AfterFirst(cs, 0, Stage) == cs;
      for i := 0 to |containers|
        invariant containers == AfterFirst(cs, i, Stage) && ops == OpsOf(Spread(cs, i, Stage))
      {
        SpreadOps(cs, i, Stage);
        var c := containers[i];
        if c.name == SIDECAR {
          assert containers[i := c] == containers;
          ContainerOpsOne(i, AddEnv(Null, false));
          continue;
        }
        var more, now := StageContainer(i, c);
        ops := ops + more;
        containers := containers[i := now];
      }
      assert AfterFirst(cs, |cs|, Stage) == AfterAll(cs, Stage);
    }

    method InterceptorOps(ctx: Ctx) returns (ops: seq<Op>)
      modifies this`volumes, this`containers
      ensures ops == OpsOf(Interceptor(ctx, old(State())).edits) && State() == Interceptor(ctx, old(State())).pod
    {
      ghost var g := AddVolume(State(), STAGE_VOLUME);
      ops := AddVolumeOp(STAGE_VOLUME);
      var init := InitContainer(ctx);
      ghost var put := Put(Inits, init, inits == []);
      InitOp(init, inits == []);
      ops := ops + [if |inits| == 0 then Add(Slashed(INITS_TOKENS), Arr([init])) else Add(Slashed(INITS_TOKENS + ["-"]), init)];
      OpsOfConcat(g.edits, [put]);
      assert OpsOf([put]) == [OpOf(put)];
      var rest := StageOps();
      OpsOfConcat(g.edits + [put], Run(g.pod, Stage).edits);
      ops := ops + rest;
    }

    method MountHandoffOps() returns (ops: seq<Op>)
      modifies this`containers
      ensures ops == OpsOf(Run(old(State()), Handoff).edits) && State() == Run(old(State()), Handoff).pod
    {
      ghost var cs := containers;
      ops := [];
      assert AfterFirst(cs, 0, Handoff) == cs;
      for i := 0 to |containers|
        invariant containers == AfterFirst(cs, i, Handoff) && ops == OpsOf(Spread(cs, i, Handoff))
      {
        SpreadOps(cs, i, Handoff);
        var more, now := MountContainer(i, containers[i]);
        ops := ops + more;
        containers := containers[i := now];
      }
      assert AfterFirst(cs, |cs|, Handoff) == AfterAll(cs, Handoff);
    }

    method HandoffOps() returns (ops: seq<Op>)
      modifies this`volumes, this`containers
      ensures ops == OpsOf(HandoffStep(old(State())).edits) && State() == HandoffStep(old(State())).pod
    {
      for i := 0 to |volumes|
        invariant forall j :: 0 <= j < i ==> NameOf(volumes[j]) != HANDOFF_VOLUME
      {
        if NameOf(volumes[i]) == HANDOFF_VOLUME {
          return [];
        }
      }
      ghost var g := AddVolume(State(), HANDOFF_VOLUME);
      ops := AddVolumeOp(HANDOFF_VOLUME);
      var mounts := MountHandoffOps();
      var envs := SetContainerEnvOps(EnvVar(HANDOFF_DIR_ENV, HANDOFF_PATH));
      ghost var h := Then(g, Run(g.pod, Handoff));
      OpsOfConcat(g.edits, Run(g.pod, Handoff).edits);
      OpsOfConcat(h.edits, Run(h.pod, SetEnv(EnvVar(HANDOFF_DIR_ENV, HANDOFF_PATH))).edits);
      ops := ops + mounts + envs;
    }

    /** Drops a resource from every workload container, requests and limits. */
    method DropResourceOps(name: string) returns (ops: seq<Op>)
      modifies this`containers
      ensures ops == OpsOf(Run(old(State()), DropResource(name)).edits) && State() == Run(old(State()), DropResource(name)).pod
    {
      ghost var cs, t := containers, DropResource(name);
      ops := [];
      assert AfterFirst(cs, 0, t) == cs;
      for i := 0 to |containers|
        invariant containers == AfterFirst(cs, i, t) && ops == OpsOf(Spread(cs, i, t))
      {
        SpreadOps(cs, i, t);
        var c := containers[i];
        ContainerOpsOne(i, Drop(Requests, name));
        if c.name == SIDECAR {
          assert containers[i := c] == containers;
          continue;
        }
        var more, now := DropFromContainer(i, c, name);
        ops := ops + more;
        containers := containers[i := now];
      }
      assert AfterFirst(cs, |cs|, t) == AfterAll(cs, t);
    }

    method DropQuantumResourceOps() returns (ops: seq<Op>)
      modifies this`containers
      ensures ops == OpsOf(Run(old(State()), DropResource(QPU)).edits) && State() == Run(old(State()), DropResource(QPU)).pod
    {
      ops := DropResourceOps(QPU);
    }
  }

  lemma StageMissing(c: Container)
    ensures Missing(c, STAGE_ENVS) == StageMore(c, 0) + StageMore(c, 1)
  {
    var a, b := STAGE_ENVS[0], STAGE_ENVS[1];
    MissingMore(c, [], a);
    MissingMore(c, [a], b);
    assert [] + [a] == [a] && [a] + [b] == STAGE_ENVS;
  }

  /** The operations for up to two variables. */
  lemma TwoEnvOps(i: nat, c: Container, a: seq<Json>, b: seq<Json>)
    requires |a| <= 1 && |b| <= 1
    ensures ContainerOps(i, AddEnvs(c, a + b)) == EnvOps(i, a, c.env == []) + EnvOps(i, b, c.env + a == [])
  {
    OneEnvOp(i, c, [], a);
    OneEnvOp(i, c, a, b);
    assert [] + a == a && c.env + [] == c.env;
    assert AddEnvs(c, []) == [];
    ContainerOpsOne(i, AddEnv(Null, false));
  }

  lemma OneEnvOp(i: nat, c: Container, items: seq<Json>, more: seq<Json>)
    requires |more| <= 1
    ensures ContainerOps(i, AddEnvs(c, items + more)) ==
            ContainerOps(i, AddEnvs(c, items)) + EnvOps(i, more, c.env + items == [])
  {
    if more == [] {
      assert items + more == items;
    } else {
      var e := AddEnv(more[0], c.env + items == []);
      assert more == [more[0]];
      AddEnvsMore(c, items, more[0]);
      ContainerOpsConcat(i, AddEnvs(c, items), [e]);
      ContainerOpsOne(i, e);
      EnvOp(i, more[0], c.env + items == []);
    }
  }

  /** The variables the interceptor adds to a container. */
  function StageMore(c: Container, k: nat): seq<Json>
    requires k < 2
  {
    if Named(c.env, NameOf(STAGE_ENVS[k])) then [] else [STAGE_ENVS[k]]
  }

  function EnvOps(i: nat, more: seq<Json>, first: bool): seq<Op> {
    if more == [] then [] else [ListOp(EnvTokens(i), more[0], first)]
  }

  lemma StageEdits(i: nat, c: Container)
    requires c.name != SIDECAR
    ensures ContainerOps(i, TaskEdits(Stage, c)) ==
            [ListOp(MountsTokens(i), STAGE_MOUNT, c.mounts == [])]
            + (EnvOps(i, StageMore(c, 0), c.env == []) + EnvOps(i, StageMore(c, 1), c.env + StageMore(c, 0) == []))
  {
    StageMissing(c);
    TwoEnvOps(i, c, StageMore(c, 0), StageMore(c, 1));
    ContainerOpsConcat(i, AddMounts(c, STAGE_MOUNT), AddEnvs(c, Missing(c, STAGE_ENVS)));
    ContainerOpsOne(i, AddMount(STAGE_MOUNT, c.mounts == []));
    MountOp(i, STAGE_MOUNT, c.mounts == []);
  }

  function DropOps(i: nat, name: string, table: Table, has: bool): seq<Op> {
    if has then [Remove(Slashed(ResourceTokens(i, table) + [Escape(name)]))] else []
  }

  lemma DropTableEdits(i: nat, name: string, table: Table, has: bool)
    ensures ContainerOps(i, if has then [Drop(table, name)] else []) == DropOps(i, name, table, has)
  {
    DropOp(i, table, name);
    ContainerOpsOne(i, Drop(table, name));
  }

  lemma DropEdits(i: nat, c: Container, name: string)
    requires c.name != SIDECAR
    ensures ContainerOps(i, TaskEdits(DropResource(name), c)) == DropOps(i, name, Requests, name in c.requests) + DropOps(i, name, Limits, name in c.limits)
  {
    DropTableEdits(i, name, Requests, name in c.requests);
    DropTableEdits(i, name, Limits, name in c.limits);
    ContainerOpsConcat(i, if name in c.requests then [Drop(Requests, name)] else [], if name in c.limits then [Drop(Limits, name)] else []);
  }
}
