/**
 * Jobspecs for a pod group, and reading a Fluxion allocation back as the nodes
 * to bind to and the backend to report.
 */
module Placement {
  import opened Vocabulary
  import opened Options
  import opened Sorting
  import opened Constraints

  const REQUIRE_PREFIX := "fluence.flux-framework.org/require-"
  const VIRTUAL_TRUE := "virtual=true"
  const VIRTUAL_FALSE := "virtual=false"
  const CLASS_PREFIX := "class="
  const COMPUTE_TYPES := {"core", "memory", "gpu"}
  const MIB: nat := 1024 * 1024

  function ComposeClassProperty(resourceType: string): string {
    CLASS_PREFIX + resourceType
  }

  function ComposeAttributeProperty(attr: string, value: string): string {
    FLUXION_PREFIX + attr + "=" + value
  }

  predicate HasPrefix(s: string, prefix: string) {
    prefix <= s
  }

  function TrimPrefix(s: string, prefix: string): string {
    if prefix <= s then s[|prefix|..] else s
  }

  // ---- what a pod asks for ----

  /** A resource quantity, in thousandths of its unit. */
  type Quantity = nat

  /** Quantity.Value: whole units, rounded up. */
  function Value(q: Quantity): nat {
    (q + 999) / 1000
  }

  type Requests = map<string, Quantity>

  datatype Pod = Pod(containers: seq<Requests>, annotations: map<string, string>)

  /** The Fluxion type a request name counts towards. */
  function TypeOf(name: string): Option<string> {
    if name == "cpu" then Some("core")
    else if name == "memory" then Some("memory")
    else if name == "nvidia.com/gpu" then Some("gpu")
    else if HasPrefix(name, FLUXION_PREFIX) then Some(TrimPrefix(name, FLUXION_PREFIX))
    else None
  }

  /** How much a request adds to its type: cores and devices whole, memory in MiB rounded up. */
  function Amount(name: string, q: Quantity): nat {
    if name == "memory" then (Value(q) + MIB - 1) / MIB else Value(q)
  }

  /** What one container's requests ask of a type, natively and by Fluxion name. */
  function ContainerNeed(c: Requests, t: string): nat {
    NativeNeed(c, t) + (var f := FLUXION_PREFIX + t; if f in c then Amount(f, c[f]) else 0)
  }

  function NativeNeed(c: Requests, t: string): nat {
    if t == "core" && "cpu" in c then Amount("cpu", c["cpu"])
    else if t == "memory" && "memory" in c then Amount("memory", c["memory"])
    else if t == "gpu" && "nvidia.com/gpu" in c then Amount("nvidia.com/gpu", c["nvidia.com/gpu"])
    else 0
  }

  function ContainersNeed(cs: seq<Requests>, t: string): nat {
    if cs == [] then 0 else ContainersNeed(cs[..|cs| - 1], t) + ContainerNeed(cs[|cs| - 1], t)
  }

  /** A pod's need of a type; every pod runs somewhere, so it needs a core at least. */
  function Need(p: Pod, t: string): nat {
    var n := ContainersNeed(p.containers, t);
    if t == "core" && n == 0 then 1 else n
  }

  function Get(m: map<string, nat>, t: string): nat {
    if t in m then m[t] else 0
  }

  lemma AddRequest(c: Requests, name: string, q: Quantity, t: string)
    requires name !in c
    ensures ContainerNeed(c[name := q], t) == ContainerNeed(c, t) + if TypeOf(name) == Some(t) then Amount(name, q) else 0
  {
    assert "cpu"[0] != FLUXION_PREFIX[0] && "memory"[0] != FLUXION_PREFIX[0] && "nvidia.com/gpu"[0] != FLUXION_PREFIX[0];
    assert TrimPrefix(FLUXION_PREFIX + t, FLUXION_PREFIX) == t;
    if HasPrefix(name, FLUXION_PREFIX) {
      assert name == FLUXION_PREFIX + TrimPrefix(name, FLUXION_PREFIX);
    }
  }

  /** The counts a pod's containers add up to, one entry per type, and never no core. */
  method PodResources(p: Pod) returns (counts: map<string, nat>)
    ensures forall t :: Get(counts, t) == Need(p, t)
  {
    counts := map[];
    for i := 0 to |p.containers|
      invariant forall t :: Get(counts, t) == ContainersNeed(p.containers[..i], t)
    {
      var c := p.containers[i];
      var names := c.Keys;
      var seen: Requests := map[];
      while names != {}
        invariant names <= c.Keys && seen.Keys == c.Keys - names
        invariant forall n :: n in seen ==> seen[n] == c[n]
        invariant forall t :: Get(counts, t) == ContainersNeed(p.containers[..i], t) + ContainerNeed(seen, t)
      {
        var name :| name in names;
        names := names - {name};
        forall t {
          AddRequest(seen, name, c[name], t);
        }
        if TypeOf(name).Some? {
          var ty := TypeOf(name).value;
          counts := counts[ty := Get(counts, ty) + Amount(name, c[name])];
        }
        seen := seen[name := c[name]];
      }
      assert seen == c;
      assert p.containers[..i + 1][..|p.containers[..i + 1]| - 1] == p.containers[..i];
    }
    assert p.containers[..|p.containers|] == p.containers;
    if Get(counts, "core") == 0 {
      counts := counts["core" := 1];
    }
  }

  /** Every type a pod needs some of. */
  function Needed(p: Pod): (r: set<string>)
    ensures forall t :: t in r <==> Need(p, t) > 0
  {
    var named := set i, n | 0 <= i < |p.containers| && n in p.containers[i] && TypeOf(n).Some? :: TypeOf(n).value;
    forall t | Need(p, t) > 0 && t != "core" ensures t in named {
      SomeContainerNeeds(p.containers, t);
      var i :| 0 <= i < |p.containers| && ContainerNeed(p.containers[i], t) > 0;
      NeedIsNamed(p.containers[i], t);
    }
    set t | t in named + {"core"} && Need(p, t) > 0
  }

  lemma {:induction false} SomeContainerNeeds(cs: seq<Requests>, t: string)
    ensures ContainersNeed(cs, t) > 0 <==> exists i :: 0 <= i < |cs| && ContainerNeed(cs[i], t) > 0
  {
    if cs != [] {
      SomeContainerNeeds(cs[..|cs| - 1], t);
      assert forall i :: 0 <= i < |cs| - 1 ==> cs[..|cs| - 1][i] == cs[i];
    }
  }

  lemma NeedIsNamed(c: Requests, t: string)
    requires ContainerNeed(c, t) > 0
    ensures exists n :: n in c && TypeOf(n) == Some(t)
  {
    if NativeNeed(c, t) > 0 {
      if t == "core" {
        assert TypeOf("cpu") == Some(t);
      } else if t == "memory" {
        assert TypeOf("memory") == Some(t);
      } else {
        assert TypeOf("nvidia.com/gpu") == Some(t);
      }
    } else {
      var n := FLUXION_PREFIX + t;
      assert n in c && n[0] == 'f';
      assert TrimPrefix(n, FLUXION_PREFIX) == t;
      assert TypeOf(n) == Some(t);
    }
  }

  function ComputeNeeds(p: Pod): map<string, nat> {
    map t | t in Needed(p) && t in COMPUTE_TYPES :: Need(p, t)
  }

  /** The device types any pod of the group asks for. */
  function DeviceTypes(pods: seq<Pod>): set<string> {
    set i, t | 0 <= i < |pods| && t in Needed(pods[i]) && t !in COMPUTE_TYPES :: t
  }

  /** The largest need of a type in the group. */
  function MaxNeed(pods: seq<Pod>, t: string): nat {
    if pods == [] then 0
    else
      var rest := MaxNeed(pods[..|pods| - 1], t);
      var last := Need(pods[|pods| - 1], t);
      if last > rest then last else rest
  }

  /** The require-<attr> annotations of the group, as property strings. */
  function RequireProps(pods: seq<Pod>): set<string> {
    set i, k | 0 <= i < |pods| && k in pods[i].annotations && HasPrefix(k, REQUIRE_PREFIX) && pods[i].annotations[k] != ""
      :: ComposeAttributeProperty(TrimPrefix(k, REQUIRE_PREFIX), pods[i].annotations[k])
  }

  method RequireConstraintsFromPods(pods: seq<Pod>) returns (props: seq<string>)
    ensures props == Sorted(RequireProps(pods)) && Increasing(props)
  {
    var seen: set<string> := {};
    for i := 0 to |pods|
      invariant seen == RequireProps(pods[..i])
    {
      var ann := pods[i].annotations;
      var keys := ann.Keys;
      ghost var before := seen;
      while keys != {}
        invariant keys <= ann.Keys
        invariant seen == before + set k | k in ann.Keys - keys && HasPrefix(k, REQUIRE_PREFIX) && ann[k] != ""
                                     :: ComposeAttributeProperty(TrimPrefix(k, REQUIRE_PREFIX), ann[k])
      {
        var k :| k in keys;
        keys := keys - {k};
        if !HasPrefix(k, REQUIRE_PREFIX) || ann[k] == "" {
          continue;
        }
        seen := seen + {ComposeAttributeProperty(TrimPrefix(k, REQUIRE_PREFIX), ann[k])};
      }
      RequirePropsSnoc(pods, i);
    }
    assert pods[..|pods|] == pods;
    props := Sorted(seen);
    SortedIncreasing(seen);
  }

  lemma RequirePropsSnoc(pods: seq<Pod>, i: nat)
    requires i < |pods|
    ensures RequireProps(pods[..i + 1]) == RequireProps(pods[..i]) +
            set k | k in pods[i].annotations && HasPrefix(k, REQUIRE_PREFIX) && pods[i].annotations[k] != ""
              :: ComposeAttributeProperty(TrimPrefix(k, REQUIRE_PREFIX), pods[i].annotations[k])
  {
    var a, b := pods[..i + 1], pods[..i];
    assert forall j :: 0 <= j < i ==> a[j] == b[j];
    assert a[i] == pods[i];
  }

  // ---- jobspecs ----

  datatype Jobspec = Jobspec(command: string, slots: nat, slotLabel: string, contents: map<string, nat>, constraints: Constraint)

  function SystemConstraints(properties: seq<string>, excludeNodes: seq<string>): Constraint {
    if excludeNodes != [] then And([Properties(properties), Not(Hostlist(excludeNodes))])
    else Properties(properties)
  }

  function ComputeJobspec(groupName: string, slots: nat, compute: map<string, nat>, excludeNodes: seq<string>): Jobspec {
    Jobspec(groupName, slots, "default", compute, SystemConstraints([VIRTUAL_FALSE], excludeNodes))
  }

  function DeviceJobspec(groupName: string, deviceType: string, count: nat, extraProps: seq<string>): Jobspec {
    Jobspec(groupName, 1, "device", map["node" := count],
            SystemConstraints([VIRTUAL_TRUE, ComposeClassProperty(deviceType)] + extraProps, []))
  }

  datatype JobspecsResult =
    | Specs(specs: seq<Jobspec>)
    | NoPods
    | NotModeled(deviceType: string)
    | NoGraph(deviceType: string)

  /** Why a device type is refused. knownDevices None is Go's nil map. */
  function DeviceError(t: string, known: Option<set<string>>): Option<JobspecsResult> {
    match known
    case None => Some(NoGraph(t))
    case Some(types) => if types != {} && t !in types then Some(NotModeled(t)) else None
  }

  function AddDeviceSpecs(groupName: string, specs: seq<Jobspec>, types: seq<string>, pods: seq<Pod>,
                          known: Option<set<string>>, props: seq<string>): JobspecsResult
    decreases |types|
  {
    if types == [] then Specs(specs)
    else
      match DeviceError(types[0], known)
      case Some(e) => e
      case None =>
        AddDeviceSpecs(groupName, specs + [DeviceJobspec(groupName, types[0], MaxNeed(pods, types[0]), props)],
                       types[1..], pods, known, props)
  }

  /** One compute jobspec, then one jobspec per device type in sorted order. */
  function Jobspecs(groupName: string, pods: seq<Pod>, known: Option<set<string>>, excludeNodes: seq<string>): JobspecsResult {
    if pods == [] then NoPods
    else
      AddDeviceSpecs(groupName, [ComputeJobspec(groupName, |pods|, ComputeNeeds(pods[0]), excludeNodes)],
                     Sorted(DeviceTypes(pods)), pods, known, Sorted(RequireProps(pods)))
  }

  lemma AddDeviceStep(groupName: string, specs: seq<Jobspec>, types: seq<string>, i: nat, pods: seq<Pod>,
                      known: Option<set<string>>, props: seq<string>)
    requires i < |types|
    ensures AddDeviceSpecs(groupName, specs, types[i..], pods, known, props) ==
            if DeviceError(types[i], known).Some? then DeviceError(types[i], known).value
            else AddDeviceSpecs(groupName, specs + [DeviceJobspec(groupName, types[i], MaxNeed(pods, types[i]), props)],
                                types[i + 1..], pods, known, props)
  {
    assert types[i..][0] == types[i] && types[i..][1..] == types[i + 1..];
  }

  /** The devices of the whole group, each with the largest count any pod asks for. */
  method GroupDevices(pods: seq<Pod>) returns (devices: map<string, nat>)
    ensures devices.Keys == DeviceTypes(pods)
    ensures forall t :: t in devices ==> devices[t] == MaxNeed(pods, t)
  {
    devices := map[];
    for i := 0 to |pods|
      invariant forall t :: t in devices <==> t !in COMPUTE_TYPES && MaxNeed(pods[..i], t) > 0
      invariant forall t :: t in devices ==> devices[t] == MaxNeed(pods[..i], t)
    {
      var counts := PodResources(pods[i]);
      assert pods[..i + 1][..|pods[..i + 1]| - 1] == pods[..i];
      devices := MergeMax(devices, counts);
    }
    assert pods[..|pods|] == pods;
    forall t ensures t in devices.Keys <==> t in DeviceTypes(pods) {
      SomePodNeeds(pods, t);
    }
  }

  /** The device counts of one more pod, keeping the larger of each. */
  function MergeMax(devices: map<string, nat>, counts: map<string, nat>): (r: map<string, nat>)
    ensures forall t :: t in r <==> t in devices || (t !in COMPUTE_TYPES && Get(counts, t) > 0)
    ensures forall t :: t in r ==> r[t] == if t !in COMPUTE_TYPES && Get(counts, t) > Get(devices, t) then Get(counts, t) else Get(devices, t)
  {
    map t | t in devices.Keys + (set u | u in counts && counts[u] > 0 && u !in COMPUTE_TYPES)
      :: if t !in COMPUTE_TYPES && Get(counts, t) > Get(devices, t) then Get(counts, t) else Get(devices, t)
  }

  /** The device jobspecs, type by type, until one type is refused. */
  method AddDevices(groupName: string, start: seq<Jobspec>, deviceTypes: seq<string>, devices: map<string, nat>, pods: seq<Pod>,
                    knownDevices: Option<set<string>>, props: seq<string>) returns (r: JobspecsResult)
    requires forall t :: t in deviceTypes ==> t in devices && devices[t] == MaxNeed(pods, t)
    ensures r == AddDeviceSpecs(groupName, start, deviceTypes, pods, knownDevices, props)
  {
    var specs := start;
    for i := 0 to |deviceTypes|
      invariant AddDeviceSpecs(groupName, start, deviceTypes, pods, knownDevices, props) ==
                AddDeviceSpecs(groupName, specs, deviceTypes[i..], pods, knownDevices, props)
    {
      var t := deviceTypes[i];
      AddDeviceStep(groupName, specs, deviceTypes, i, pods, knownDevices, props);
      if knownDevices.Some? && knownDevices.value != {} && t !in knownDevices.value {
        return NotModeled(t);
      }
      if knownDevices.None? {
        return NoGraph(t);
      }
      specs := specs + [DeviceJobspec(groupName, t, devices[t], props)];
    }
    r := Specs(specs);
  }

  method JobspecsForGroup(groupName: string, pods: seq<Pod>, knownDevices: Option<set<string>>, excludeNodes: seq<string>)
    returns (r: JobspecsResult)
    ensures r == Jobspecs(groupName, pods, knownDevices, excludeNodes)
  {
    if pods == [] {
      return NoPods;
    }
    var first := PodResources(pods[0]);
    var compute := map t | t in first && first[t] > 0 && t in COMPUTE_TYPES :: first[t];
    assert compute == ComputeNeeds(pods[0]) by {
      assert forall t :: Get(first, t) == Need(pods[0], t);
    }
    var devices := GroupDevices(pods);
    var requireProps := RequireConstraintsFromPods(pods);
    r := AddDevices(groupName, [ComputeJobspec(groupName, |pods|, compute, excludeNodes)], Sorted(devices.Keys), devices,
                    pods, knownDevices, requireProps);
  }

  lemma {:induction false} SomePodNeeds(pods: seq<Pod>, t: string)
    ensures MaxNeed(pods, t) > 0 <==> exists i :: 0 <= i < |pods| && Need(pods[i], t) > 0
  {
    if pods != [] {
      SomePodNeeds(pods[..|pods| - 1], t);
      assert forall i :: 0 <= i < |pods| - 1 ==> pods[..|pods| - 1][i] == pods[i];
    }
  }

  // ---- what the jobspecs select ----

  /** A vertex is eligible when it has every property and is not an excluded host. */
  lemma SystemConstraintsMeaning(v: Vertex, properties: seq<string>, excludeNodes: seq<string>)
    ensures Satisfies(v, SystemConstraints(properties, excludeNodes))
       <==> (forall p :: p in properties ==> p in v.properties) && v.name !in excludeNodes
  {
    assert Satisfies(v, Properties(properties)) <==> forall p :: p in properties ==> p in v.properties;
    if excludeNodes != [] {
      var args := [Properties(properties), Not(Hostlist(excludeNodes))];
      assert Satisfies(v, Not(Hostlist(excludeNodes))) <==> !Satisfies(v, Hostlist(excludeNodes));
      assert Satisfies(v, And(args)) <==> Satisfies(v, args[0]) && Satisfies(v, args[1]);
    }
  }

  lemma {:induction false} DeviceSpecsShape(groupName: string, specs: seq<Jobspec>, types: seq<string>, pods: seq<Pod>,
                                            known: Option<set<string>>, props: seq<string>)
    ensures var r := AddDeviceSpecs(groupName, specs, types, pods, known, props);
            r.Specs? ==> |r.specs| == |specs| + |types|
                         && (forall i :: 0 <= i < |specs| ==> r.specs[i] == specs[i])
                         && (forall i :: 0 <= i < |types| ==> r.specs[|specs| + i] == DeviceJobspec(groupName, types[i], MaxNeed(pods, types[i]), props))
    decreases |types|
  {
    if types != [] && DeviceError(types[0], known).None? {
      var more := specs + [DeviceJobspec(groupName, types[0], MaxNeed(pods, types[0]), props)];
      DeviceSpecsShape(groupName, more, types[1..], pods, known, props);
      assert forall i :: 0 < i < |types| ==> types[i] == types[1..][i - 1];
    }
  }

  /** The property strings a device jobspec of the group asks for. */
  function DeviceProps(pods: seq<Pod>, deviceType: string): seq<string> {
    [VIRTUAL_TRUE, ComposeClassProperty(deviceType)] + Sorted(RequireProps(pods))
  }

  /** After the compute jobspec comes one jobspec for each device type some pod needs, no other. */
  lemma JobspecsByType(groupName: string, pods: seq<Pod>, known: Option<set<string>>, excludeNodes: seq<string>)
    ensures var r, types := Jobspecs(groupName, pods, known, excludeNodes), Sorted(DeviceTypes(pods));
            r.Specs? ==>
              && |r.specs| == 1 + |types|
              && r.specs[0] == ComputeJobspec(groupName, |pods|, ComputeNeeds(pods[0]), excludeNodes)
              && forall i :: 0 <= i < |types| ==>
                   r.specs[1 + i] == DeviceJobspec(groupName, types[i], MaxNeed(pods, types[i]), Sorted(RequireProps(pods)))
  {
    if pods != [] {
      var first := ComputeJobspec(groupName, |pods|, ComputeNeeds(pods[0]), excludeNodes);
      DeviceSpecsShape(groupName, [first], Sorted(DeviceTypes(pods)), pods, known, Sorted(RequireProps(pods)));
    }
  }

  /** A device type is let through when the graph knows it, or knows no device at all. */
  predicate LetThrough(known: Option<set<string>>, t: string) {
    known.Some? && (known.value == {} || t in known.value)
  }

  lemma {:induction false} DevicesLetThrough(groupName: string, specs: seq<Jobspec>, types: seq<string>, pods: seq<Pod>,
                                             known: Option<set<string>>, props: seq<string>)
    ensures AddDeviceSpecs(groupName, specs, types, pods, known, props).Specs? <==>
            forall i :: 0 <= i < |types| ==> LetThrough(known, types[i])
    decreases |types|
  {
    if types != [] && DeviceError(types[0], known).None? {
      DevicesLetThrough(groupName, specs + [DeviceJobspec(groupName, types[0], MaxNeed(pods, types[0]), props)], types[1..], pods, known, props);
      assert forall i :: 0 < i < |types| ==> types[i] == types[1..][i - 1];
    } else if types != [] {
      assert !LetThrough(known, types[0]);
    }
  }

  /**
   * A group gets jobspecs exactly when it has pods and each device type it needs is let
   * through. A known set that is empty but not nil refuses nothing.
   */
  lemma JobspecsIff(groupName: string, pods: seq<Pod>, known: Option<set<string>>, excludeNodes: seq<string>)
    ensures Jobspecs(groupName, pods, known, excludeNodes).Specs? <==>
            pods != [] && forall t :: t in DeviceTypes(pods) ==> LetThrough(known, t)
  {
    if pods != [] {
      var types := Sorted(DeviceTypes(pods));
      DevicesLetThrough(groupName, [ComputeJobspec(groupName, |pods|, ComputeNeeds(pods[0]), excludeNodes)], types, pods, known,
                        Sorted(RequireProps(pods)));
      assert forall t :: t in DeviceTypes(pods) <==> t in types;
    }
  }

  /** The compute jobspec selects exactly the physical vertices that are not excluded. */
  lemma ComputeSelects(groupName: string, pods: seq<Pod>, known: Option<set<string>>, excludeNodes: seq<string>, v: Vertex)
    ensures var r := Jobspecs(groupName, pods, known, excludeNodes);
            r.Specs? ==>
              && r.specs != []
              && (Satisfies(v, r.specs[0].constraints) <==> "virtual=false" in v.properties && v.name !in excludeNodes)
  {
    JobspecsByType(groupName, pods, known, excludeNodes);
    SystemConstraintsMeaning(v, [VIRTUAL_FALSE], excludeNodes);
  }

  /** A device jobspec selects exactly the virtual vertices of its class with every required attribute. */
  lemma DeviceSelects(groupName: string, pods: seq<Pod>, known: Option<set<string>>, excludeNodes: seq<string>, i: nat, v: Vertex)
    ensures var r, types := Jobspecs(groupName, pods, known, excludeNodes), Sorted(DeviceTypes(pods));
            r.Specs? && 0 < i < |r.specs| ==>
              && i <= |types|
              && (Satisfies(v, r.specs[i].constraints) <==>
                    "virtual=true" in v.properties && "class=" + types[i - 1] in v.properties
                    && forall p :: p in RequireProps(pods) ==> p in v.properties)
  {
    var r, types := Jobspecs(groupName, pods, known, excludeNodes), Sorted(DeviceTypes(pods));
    JobspecsByType(groupName, pods, known, excludeNodes);
    if r.Specs? && 0 < i < |r.specs| {
      DevicePropsMeaning(pods, types[i - 1], v);
      assert r.specs[1 + (i - 1)] == DeviceJobspec(groupName, types[i - 1], MaxNeed(pods, types[i - 1]), Sorted(RequireProps(pods)));
    }
  }

  lemma DevicePropsMeaning(pods: seq<Pod>, deviceType: string, v: Vertex)
    ensures Satisfies(v, SystemConstraints(DeviceProps(pods, deviceType), [])) <==>
            VIRTUAL_TRUE in v.properties && ComposeClassProperty(deviceType) in v.properties
            && forall p :: p in RequireProps(pods) ==> p in v.properties
  {
    var props := DeviceProps(pods, deviceType);
    SystemConstraintsMeaning(v, props, []);
    assert props[0] == VIRTUAL_TRUE && props[1] == ComposeClassProperty(deviceType);
    assert forall p :: p in props <==> p == props[0] || p == props[1] || p in Sorted(RequireProps(pods));
  }

  // ---- reading an allocation ----

  datatype Placement = Placement(nodes: seq<string>, backend: string, attributes: map<string, string>)

  /** Splits "key=value" at the first '='; a bare key has the empty value. */
  function DecomposeProperty(prop: string): (string, string) {
    if prop == "" then ("", "")
    else if prop[0] == '=' then ("", prop[1..])
    else
      var (k, v) := DecomposeProperty(prop[1..]);
      ([prop[0]] + k, v)
  }

  /** The user attributes in a backend's properties, taken in iteration order. */
  function BackendAttributes(props: seq<string>): map<string, string> {
    if props == [] then map[]
    else
      var rest := BackendAttributes(props[..|props| - 1]);
      var prop := props[|props| - 1];
      if !HasPrefix(prop, FLUXION_PREFIX) then rest
      else
        var (k, v) := DecomposeProperty(TrimPrefix(prop, FLUXION_PREFIX));
        rest[k := v]
  }

  const NOWHERE := Placement([], "", map[])

  function Classified(nodes: seq<Vertex>): Placement {
    if nodes == [] then NOWHERE
    else
      var p := Classified(nodes[..|nodes| - 1]);
      var n := nodes[|nodes| - 1];
      if VIRTUAL_TRUE !in n.properties then p.(nodes := p.nodes + [n.name])
      else if p.backend != "" then p
      else p.(backend := n.name, attributes := BackendAttributes(n.properties))
  }

  /** PlacementFromAllocation, from the allocation's node-typed vertices. */
  method PlacementFromAllocation(nodes: seq<Vertex>) returns (p: Placement)
    ensures p == Classified(nodes)
  {
    p := NOWHERE;
    for i := 0 to |nodes|
      invariant p == Classified(nodes[..i])
    {
      assert nodes[..i + 1][..|nodes[..i + 1]| - 1] == nodes[..i];
      var n := nodes[i];
      if VIRTUAL_TRUE in n.properties {
        if p.backend != "" {
          continue;
        }
        p := p.(backend := n.name, attributes := BackendAttributes(n.properties));
        continue;
      }
      p := p.(nodes := p.nodes + [n.name]);
    }
    assert nodes[..|nodes|] == nodes;
  }

  /** The names bound to are exactly those of the vertices not marked virtual. */
  lemma {:induction false} ClassifiedNodes(nodes: seq<Vertex>)
    ensures forall name :: name in Classified(nodes).nodes <==>
              exists i :: 0 <= i < |nodes| && VIRTUAL_TRUE !in nodes[i].properties && nodes[i].name == name
  {
    if nodes != [] {
      var init := nodes[..|nodes| - 1];
      ClassifiedNodes(init);
      assert forall i :: 0 <= i < |init| ==> init[i] == nodes[i];
    }
  }

  /** The backend is the first named virtual vertex, and its attributes are reported. */
  lemma {:induction false} ClassifiedBackend(nodes: seq<Vertex>, k: nat)
    requires k < |nodes| && VIRTUAL_TRUE in nodes[k].properties && nodes[k].name != ""
    requires forall i :: 0 <= i < k && VIRTUAL_TRUE in nodes[i].properties ==> nodes[i].name == ""
    ensures Classified(nodes).backend == nodes[k].name
    ensures Classified(nodes).attributes == BackendAttributes(nodes[k].properties)
  {
    var init := nodes[..|nodes| - 1];
    if k < |nodes| - 1 {
      assert forall i :: 0 <= i < |init| ==> init[i] == nodes[i];
      ClassifiedBackend(init, k);
    } else {
      NoBackend(init);
    }
  }

  lemma {:induction false} NoBackend(nodes: seq<Vertex>)
    requires forall i :: 0 <= i < |nodes| && VIRTUAL_TRUE in nodes[i].properties ==> nodes[i].name == ""
    ensures Classified(nodes).backend == ""
  {
    if nodes != [] {
      NoBackend(nodes[..|nodes| - 1]);
    }
  }
}
