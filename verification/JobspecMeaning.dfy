/** What a group's jobspecs ask for, from its pods' requests alone. */
module JobspecMeaning {
  import opened Vocabulary
  import opened Options
  import opened Sorting
  import opened Placement

  // ---- quantities ----

  /** The least count of units of so many whole ones that covers the quantity, which is in thousandths. */
  predicate LeastCover(q: Quantity, per: nat, count: nat) {
    q <= 1000 * per * count && (count > 0 ==> 1000 * per * (count - 1) < q)
  }

  lemma CoversWhole(q: Quantity)
    ensures LeastCover(q, 1, Value(q))
  {
  }

  lemma CoversMib(q: Quantity)
    ensures LeastCover(q, 1048576, (Value(q) + MIB - 1) / MIB)
  {
    var v, m := Value(q), (Value(q) + MIB - 1) / MIB;
    assert MIB == 1048576 && v <= MIB * m && (m > 0 ==> MIB * (m - 1) < v);
    assert q <= 1000 * v && (v > 0 ==> 1000 * (v - 1) < q);
  }

  /** The native Kubernetes name of a compute type. */
  function Native(t: string): Option<string> {
    if t == "core" then Some("cpu")
    else if t == "memory" then Some("memory")
    else if t == "gpu" then Some("nvidia.com/gpu")
    else None
  }

  /** How much of a name a container asks for: memory in MiB, anything else in whole units, rounded up. */
  predicate AsksFor(c: Requests, name: string, count: nat) {
    if name in c then LeastCover(c[name], if name == "memory" then 1048576 else 1, count) else count == 0
  }

  /** A container's need of a type is what it asks for by its native name, if it has one, and by Fluxion's. */
  lemma ContainerAsks(c: Requests, t: string) returns (native: nat, named: nat)
    ensures ContainerNeed(c, t) == native + named
    ensures if Native(t).Some? then AsksFor(c, Native(t).value, native) else native == 0
    ensures AsksFor(c, "fluxion.flux-framework.org/" + t, named)
  {
    native := NativeNeed(c, t);
    named := ContainerNeed(c, t) - native;
    assert FLUXION_PREFIX == "fluxion.flux-framework.org/" && (FLUXION_PREFIX + t)[0] == 'f' && "memory"[0] == 'm';
    if Native(t).Some? && Native(t).value in c {
      CoversWhole(c[Native(t).value]);
      CoversMib(c[Native(t).value]);
    }
    if FLUXION_PREFIX + t in c {
      CoversWhole(c[FLUXION_PREFIX + t]);
    }
  }

  /** Containers' needs add up. */
  lemma {:induction false} NeedsAdd(a: seq<Requests>, b: seq<Requests>, t: string)
    ensures ContainersNeed(a + b, t) == ContainersNeed(a, t) + ContainersNeed(b, t)
    ensures ContainersNeed([], t) == 0
    ensures forall c :: ContainersNeed([c], t) == ContainerNeed(c, t)
  {
    forall c ensures ContainersNeed([c], t) == ContainerNeed(c, t) {
      var one := [c];
      assert one[..0] == [] && one[0] == c;
    }
    if b == [] {
      assert a + b == a;
    } else {
      NeedsAdd(a, b[..|b| - 1], t);
      assert (a + b)[..|a + b| - 1] == a + b[..|b| - 1];
    }
  }

  /** A pod needs what its containers do together, and a core when that is none. */
  lemma PodAsks(p: Pod, t: string)
    ensures Need(p, t) == if t == "core" && ContainersNeed(p.containers, "core") == 0 then 1 else ContainersNeed(p.containers, t)
  {
  }

  // ---- the group ----

  predicate ComputeType(t: string) {
    t == "core" || t == "memory" || t == "gpu"
  }

  /** The largest need of a type among the pods. */
  predicate Largest(pods: seq<Pod>, t: string, most: nat) {
    && (forall i :: 0 <= i < |pods| ==> Need(pods[i], t) <= most)
    && (pods != [] ==> exists i :: 0 <= i < |pods| && Need(pods[i], t) == most)
  }

  lemma {:induction false} MaxIsLargest(pods: seq<Pod>, t: string)
    ensures Largest(pods, t, MaxNeed(pods, t))
  {
    if pods != [] {
      var init := pods[..|pods| - 1];
      MaxIsLargest(init, t);
      assert forall i :: 0 <= i < |init| ==> init[i] == pods[i];
      if init == [] {
        assert Need(pods[0], t) == MaxNeed(pods, t);
      }
    }
  }

  /** A device type of the group: not a compute type, and some pod needs some of it. */
  predicate DeviceOf(pods: seq<Pod>, t: string) {
    !ComputeType(t) && exists i :: 0 <= i < |pods| && Need(pods[i], t) > 0
  }

  lemma DevicesAre(pods: seq<Pod>, t: string)
    ensures t in DeviceTypes(pods) <==> DeviceOf(pods, t)
  {
    if DeviceOf(pods, t) {
      var i :| 0 <= i < |pods| && Need(pods[i], t) > 0;
      assert t in Needed(pods[i]) && t !in COMPUTE_TYPES;
    }
    if t in DeviceTypes(pods) {
      var i :| 0 <= i < |pods| && t in Needed(pods[i]) && t !in COMPUTE_TYPES;
      assert Need(pods[i], t) > 0;
    }
  }

  /** One slot for each pod, with what the first of them needs of the compute types. */
  ghost predicate ComputeSpec(s: Jobspec, groupName: string, pods: seq<Pod>)
    requires pods != []
  {
    && s.command == groupName && s.slots == |pods| && s.slotLabel == "default"
    && (forall t :: t in s.contents <==> ComputeType(t) && Need(pods[0], t) > 0)
    && forall t :: t in s.contents ==> s.contents[t] == Need(pods[0], t)
  }

  /** One slot with as many node vertices of the type as the pod that needs most. */
  predicate DeviceSpec(s: Jobspec, groupName: string, pods: seq<Pod>, t: string) {
    && s.command == groupName && s.slots == 1 && s.slotLabel == "device"
    && s.contents.Keys == {"node"} && Largest(pods, t, s.contents["node"])
  }

  /**
   * A group's jobspecs, if it has any: the compute jobspec, then one for each device type
   * some pod needs, in increasing order of the types and no type twice.
   */
  lemma JobspecsAre(groupName: string, pods: seq<Pod>, known: Option<set<string>>, excludeNodes: seq<string>) returns (types: seq<string>)
    requires Jobspecs(groupName, pods, known, excludeNodes).Specs?
    ensures var specs := Jobspecs(groupName, pods, known, excludeNodes).specs;
            && pods != [] && |specs| == 1 + |types| && ComputeSpec(specs[0], groupName, pods)
            && Increasing(types) && (forall t :: t in types <==> DeviceOf(pods, t))
            && forall i :: 0 <= i < |types| ==> DeviceSpec(specs[1 + i], groupName, pods, types[i])
  {
    types := Sorted(DeviceTypes(pods));
    SortedIncreasing(DeviceTypes(pods));
    forall t ensures t in types <==> DeviceOf(pods, t) {
      DevicesAre(pods, t);
    }
    SpecsAre(groupName, pods, known, excludeNodes, types);
  }

  lemma SpecsAre(groupName: string, pods: seq<Pod>, known: Option<set<string>>, excludeNodes: seq<string>, types: seq<string>)
    requires Jobspecs(groupName, pods, known, excludeNodes).Specs? && types == Sorted(DeviceTypes(pods))
    ensures var specs := Jobspecs(groupName, pods, known, excludeNodes).specs;
            && pods != [] && |specs| == 1 + |types| && ComputeSpec(specs[0], groupName, pods)
            && forall i :: 0 <= i < |types| ==> DeviceSpec(specs[1 + i], groupName, pods, types[i])
  {
    JobspecsByType(groupName, pods, known, excludeNodes);
    ComputeIs(groupName, pods, excludeNodes);
    var specs := Jobspecs(groupName, pods, known, excludeNodes).specs;
    forall i | 0 <= i < |types| ensures DeviceSpec(specs[1 + i], groupName, pods, types[i]) {
      DeviceIs(groupName, pods, types[i], Sorted(RequireProps(pods)));
    }
  }

  lemma DeviceIs(groupName: string, pods: seq<Pod>, t: string, props: seq<string>)
    ensures DeviceSpec(DeviceJobspec(groupName, t, MaxNeed(pods, t), props), groupName, pods, t)
  {
    MaxIsLargest(pods, t);
  }

  lemma ComputeIs(groupName: string, pods: seq<Pod>, excludeNodes: seq<string>)
    requires pods != []
    ensures ComputeSpec(ComputeJobspec(groupName, |pods|, ComputeNeeds(pods[0]), excludeNodes), groupName, pods)
  {
  }

  /** A require annotation on any pod of the group asks for the attribute it names, with its value. */
  lemma RequiresAre(pods: seq<Pod>, p: string)
    ensures p in RequireProps(pods) <==>
            exists i, k :: 0 <= i < |pods| && k in pods[i].annotations && Requires(pods[i], k, p)
  {
    if exists i, k :: 0 <= i < |pods| && k in pods[i].annotations && Requires(pods[i], k, p) {
      var i, k :| 0 <= i < |pods| && k in pods[i].annotations && Requires(pods[i], k, p);
      assert HasPrefix(k, REQUIRE_PREFIX) && p == ComposeAttributeProperty(TrimPrefix(k, REQUIRE_PREFIX), pods[i].annotations[k]);
    }
    if p in RequireProps(pods) {
      var i, k :| 0 <= i < |pods| && k in pods[i].annotations && HasPrefix(k, REQUIRE_PREFIX) && pods[i].annotations[k] != ""
                  && p == ComposeAttributeProperty(TrimPrefix(k, REQUIRE_PREFIX), pods[i].annotations[k]);
      assert Requires(pods[i], k, p);
    }
  }

  predicate Requires(pod: Pod, k: string, p: string)
    requires k in pod.annotations
  {
    && pod.annotations[k] != "" && "fluence.flux-framework.org/require-" <= k
    && p == "fluxion.flux-framework.org/" + k[|"fluence.flux-framework.org/require-"|..] + "=" + pod.annotations[k]
  }

  // ---- when there are none ----

  /** A device type the graph has no place for: there is no graph, or it models devices but not this one. */
  predicate Refused(known: Option<set<string>>, t: string) {
    known.None? || (known.value != {} && t !in known.value)
  }

  /** The type a group is refused for: a device type of its own that is refused, and the first of those. */
  ghost predicate FirstRefused(pods: seq<Pod>, known: Option<set<string>>, t: string) {
    && DeviceOf(pods, t) && Refused(known, t)
    && forall u :: DeviceOf(pods, u) && Refused(known, u) ==> u == t || Less(t, u)
  }

  lemma {:induction false} FirstError(groupName: string, specs: seq<Jobspec>, types: seq<string>, pods: seq<Pod>,
                                      known: Option<set<string>>, props: seq<string>) returns (k: nat)
    requires !AddDeviceSpecs(groupName, specs, types, pods, known, props).Specs?
    ensures k < |types| && Refused(known, types[k]) && forall i :: 0 <= i < k ==> !Refused(known, types[i])
    ensures AddDeviceSpecs(groupName, specs, types, pods, known, props) == if known.None? then NoGraph(types[k]) else NotModeled(types[k])
    decreases |types|
  {
    if DeviceError(types[0], known).Some? {
      k := 0;
    } else {
      k := FirstError(groupName, specs + [DeviceJobspec(groupName, types[0], MaxNeed(pods, types[0]), props)], types[1..], pods, known, props);
      k := k + 1;
    }
  }

  /** A group with pods and no jobspecs is refused for the first such type, and told whether there is a graph. */
  lemma RefusalNames(groupName: string, pods: seq<Pod>, known: Option<set<string>>, excludeNodes: seq<string>) returns (t: string)
    requires pods != [] && !Jobspecs(groupName, pods, known, excludeNodes).Specs?
    ensures FirstRefused(pods, known, t)
    ensures Jobspecs(groupName, pods, known, excludeNodes) == if known.None? then NoGraph(t) else NotModeled(t)
  {
    var types := Sorted(DeviceTypes(pods));
    var k := FirstError(groupName, [ComputeJobspec(groupName, |pods|, ComputeNeeds(pods[0]), excludeNodes)], types, pods, known, Sorted(RequireProps(pods)));
    t := types[k];
    FirstOfSorted(pods, known, types, k);
  }

  lemma FirstOfSorted(pods: seq<Pod>, known: Option<set<string>>, types: seq<string>, k: nat)
    requires types == Sorted(DeviceTypes(pods)) && k < |types| && Refused(known, types[k])
    requires forall i :: 0 <= i < k ==> !Refused(known, types[i])
    ensures FirstRefused(pods, known, types[k])
  {
    SortedIncreasing(DeviceTypes(pods));
    DevicesAre(pods, types[k]);
    forall u | DeviceOf(pods, u) && Refused(known, u) ensures u == types[k] || Less(types[k], u) {
      DevicesAre(pods, u);
      var j :| 0 <= j < |types| && types[j] == u;
      assert j >= k;
    }
  }
}
