/**
 * A search that gives up a subtree at the first vertex that fails a constraint, against
 * a plain filter over all vertices.
 */
module Search {
  import opened Vocabulary
  import opened Constraints
  import opened Sorting
  import Graph
  import opened Placement
  import opened Resources

  /** Whether a vertex has every property asked for. */
  predicate Meets(r: Resolved, wanted: set<string>) {
    wanted <= VirtualProperties(r)
  }

  /** The pruned search reaches a place when every vertex on the way, and there, meets the constraint. */
  predicate Finds(r: Resolved, wanted: set<string>, place: Place)
    decreases place
  {
    Meets(r, wanted) && (place == [] || (place[0] < |r.kids| && Finds(r.kids[place[0]], wanted, place[1..])))
  }

  /** The plain filter keeps a place when the vertex there meets the constraint. */
  predicate Filters(r: Resolved, wanted: set<string>, place: Place) {
    HasResolved(r, place) && Meets(At(r, place), wanted)
  }

  function ClassConstraint(t: string): set<string> {
    {VIRTUAL_TRUE, ComposeClassProperty(t)}
  }

  predicate Typed(r: Resolved)
    decreases r
  {
    r.typ != "" && forall i :: 0 <= i < |r.kids| ==> Typed(r.kids[i])
  }

  lemma {:induction false} ClassesTyped(r: Resolved)
    requires Typed(r)
    ensures "" !in SubtreeClasses(r)
    decreases r
  {
    forall i | 0 <= i < |r.kids| ensures "" !in SubtreeClasses(r.kids[i]) {
      ClassesTyped(r.kids[i]);
    }
  }

  lemma ClassPropInjective(t: string, u: string)
    requires ComposeClassProperty(t) == ComposeClassProperty(u)
    ensures t == u
  {
    assert ComposeClassProperty(t)[|CLASS_PREFIX|..] == t && ComposeClassProperty(u)[|CLASS_PREFIX|..] == u;
  }

  /** A vertex has a class property exactly for the types in its subtree. */
  lemma MeetsClass(r: Resolved, t: string)
    requires Typed(r)
    ensures Meets(r, ClassConstraint(t)) <==> t in SubtreeClasses(r)
  {
    PropertyNames(t);
    ClassesTyped(r);
    var prop := ComposeClassProperty(t);
    if t in SubtreeClasses(r) {
      assert ComposeProperty("class", t) == prop;
      assert prop in VirtualProperties(r) && VIRTUAL_TRUE in VirtualProperties(r);
    }
    if prop in VirtualProperties(r) {
      ClassPropSource(r, prop);
      var u :| u in SubtreeClasses(r) && prop == ComposeProperty("class", u);
      PropertyNames(u);
      ClassPropInjective(t, u);
    }
  }

  /** A property that starts with "class=" is one of the classes. */
  lemma ClassPropSource(r: Resolved, prop: string)
    requires prop in VirtualProperties(r) && HasPrefix(prop, CLASS_PREFIX)
    ensures exists u :: u in SubtreeClasses(r) && prop == ComposeProperty("class", u)
  {
    assert prop[0] == 'c';
    assert ComposeProperty("virtual", "true")[0] == 'v';
    assert forall k, v :: ComposeProperty(FLUXION_PREFIX + k, v)[0] == 'f';
  }

  /** What lies below is advertised above. */
  lemma {:induction false} ClassesAbove(r: Resolved, place: Place, t: string)
    requires HasResolved(r, place) && t in SubtreeClasses(At(r, place))
    ensures t in SubtreeClasses(r)
    decreases place
  {
    if place != [] {
      ClassesAbove(r.kids[place[0]], place[1..], t);
    }
  }

  /** A search by class prunes nothing the filter keeps. */
  lemma {:induction false} ClassSearchExact(r: Resolved, t: string, place: Place)
    requires Typed(r)
    ensures Finds(r, ClassConstraint(t), place) <==> Filters(r, ClassConstraint(t), place)
    decreases place
  {
    MeetsClass(r, t);
    if place != [] && place[0] < |r.kids| {
      ClassSearchExact(r.kids[place[0]], t, place[1..]);
      if Filters(r, ClassConstraint(t), place) {
        TypedAt(r, place);
        MeetsClass(At(r, place), t);
        ClassesAbove(r, place, t);
      }
    }
  }

  lemma {:induction false} TypedAt(r: Resolved, place: Place)
    requires Typed(r) && HasResolved(r, place)
    ensures Typed(At(r, place))
    decreases place
  {
    if place != [] {
      TypedAt(r.kids[place[0]], place[1..]);
    }
  }

  /** So a search by class reaches every vertex of the class. */
  lemma ClassAlwaysFound(r: Resolved, place: Place)
    requires Typed(r) && HasResolved(r, place)
    ensures Finds(r, ClassConstraint(At(r, place).typ), place)
  {
    TypedAt(r, place);
    MeetsClass(At(r, place), At(r, place).typ);
    ClassSearchExact(r, At(r, place).typ, place);
  }

  // ---- with required attributes ----

  /** The property strings of required attributes. */
  function RequireSet(required: map<string, string>): set<string> {
    set a | a in required :: ComposeAttributeProperty(a, required[a])
  }

  predicate Requirable(required: map<string, string>) {
    forall a :: a in required ==> NoEquals(a) && a != "backend" && required[a] != ""
  }

  predicate AllEncodable(r: Resolved)
    decreases r
  {
    Encodable(r.attrs) && forall i :: 0 <= i < |r.kids| ==> AllEncodable(r.kids[i])
  }

  predicate HasAttrs(r: Resolved, required: map<string, string>) {
    forall a :: a in required ==> a in r.attrs && r.attrs[a] == required[a]
  }

  lemma MeetsBoth(r: Resolved, t: string, required: map<string, string>)
    requires Typed(r) && Encodable(r.attrs) && Requirable(required)
    ensures Meets(r, ClassConstraint(t) + RequireSet(required)) <==> t in SubtreeClasses(r) && HasAttrs(r, required)
  {
    MeetsClass(r, t);
    forall a | a in required
      ensures ComposeAttributeProperty(a, required[a]) in VirtualProperties(r) <==> a in r.attrs && r.attrs[a] == required[a]
    {
      RequirePresentIff(r, a, required[a]);
    }
    if Meets(r, ClassConstraint(t) + RequireSet(required)) {
      assert ClassConstraint(t) <= VirtualProperties(r);
      forall a | a in required ensures a in r.attrs && r.attrs[a] == required[a] {
        assert ComposeAttributeProperty(a, required[a]) in RequireSet(required);
      }
    }
  }

  /** Every vertex on the way to a place has the attributes. */
  predicate AttrsAllTheWay(r: Resolved, required: map<string, string>, place: Place)
    requires HasResolved(r, place)
    decreases place
  {
    HasAttrs(r, required) && (place == [] || AttrsAllTheWay(r.kids[place[0]], required, place[1..]))
  }

  lemma {:induction false} RequireSearchExact(r: Resolved, t: string, required: map<string, string>, place: Place)
    requires Typed(r) && AllEncodable(r) && Requirable(required) && HasResolved(r, place)
    ensures Finds(r, ClassConstraint(t) + RequireSet(required), place) <==>
            t in SubtreeClasses(At(r, place)) && AttrsAllTheWay(r, required, place)
    decreases place
  {
    MeetsBoth(r, t, required);
    if place != [] {
      RequireSearchExact(r.kids[place[0]], t, required, place[1..]);
      if t in SubtreeClasses(At(r, place)) {
        ClassesAbove(r, place, t);
      }
    }
  }

  // ---- in terms of the configuration ----

  /** No vertex of these overrides or clears a required attribute. */
  predicate Undisturbed(settings: seq<map<string, string>>, required: map<string, string>) {
    forall i, a :: 0 <= i < |settings| && a in required && a in settings[i] ==> settings[i][a] == required[a]
  }

  /** Inherited attributes reach all the way down exactly when the first vertex has them and none disturbs them. */
  lemma {:induction false} AttrsInherited(r: Resource, registry: Registry, top: bool, inherited: map<string, string>, backend: string,
                                          required: map<string, string>, place: Place)
    requires Resolve(r, registry, top, inherited, backend).Ok? && Has(r, place) && Requirable(required)
    requires HasResolved(Resolve(r, registry, top, inherited, backend).value, place)
    ensures var v := Resolve(r, registry, top, inherited, backend).value;
            AttrsAllTheWay(v, required, place) <==> HasAttrs(v, required) && Undisturbed(Settings(r, registry, place)[1..], required)
    decreases place
  {
    var v := Resolve(r, registry, top, inherited, backend).value;
    if place != [] {
      var i := place[0];
      var kid := r.kids[i];
      ResolvedLevel(r, registry, top, inherited, backend, i);
      ResolvedLevel(kid, registry, false, v.attrs, v.backend, 0);
      AttrsInherited(kid, registry, false, v.attrs, v.backend, required, place[1..]);
      var below := Settings(kid, registry, place[1..]);
      assert Settings(r, registry, place)[1..] == below;
      assert below == [below[0]] + below[1..];
      assert forall j :: 1 <= j < |below| ==> below[j] == below[1..][j - 1];
      if HasAttrs(v, required) {
        assert HasAttrs(v.kids[i], required) <==> Undisturbed([below[0]], required);
      }
      UndisturbedSplit(below, required);
    } else {
      assert Settings(r, registry, place)[1..] == [];
    }
  }

  lemma UndisturbedSplit(settings: seq<map<string, string>>, required: map<string, string>)
    requires settings != []
    ensures Undisturbed(settings, required) <==> Undisturbed([settings[0]], required) && Undisturbed(settings[1..], required)
  {
    if Undisturbed([settings[0]], required) && Undisturbed(settings[1..], required) {
      forall i, a | 0 <= i < |settings| && a in required && a in settings[i] ensures settings[i][a] == required[a] {
        if i == 0 {
          assert [settings[0]][0] == settings[i];
        } else {
          assert settings[1..][i - 1] == settings[i];
        }
      }
    }
    if Undisturbed(settings, required) {
      assert forall i :: 0 <= i < |settings[1..]| ==> settings[1..][i] == settings[i + 1];
    }
  }

  /** Attribute keys the property encoding can carry. */
  predicate PlainKeys(m: map<string, string>) {
    forall k :: k in m ==> NoEquals(k) && k != "backend"
  }

  /** Every set of attributes the tree uses has plain keys. */
  predicate PlainTree(r: Resource, registry: Registry)
    decreases r
  {
    && (Own(r, registry).Ok? ==> PlainKeys(Own(r, registry).value))
    && forall i :: 0 <= i < |r.kids| ==> PlainTree(r.kids[i], registry)
  }

  lemma MergeEncodable(inherited: map<string, string>, own: map<string, string>)
    requires Encodable(inherited) && PlainKeys(own)
    ensures Encodable(Merge(inherited, own))
  {
  }

  lemma {:induction false} LoadedEncodable(r: Resource, registry: Registry, top: bool, inherited: map<string, string>, backend: string)
    requires Resolve(r, registry, top, inherited, backend).Ok? && PlainTree(r, registry) && Encodable(inherited)
    ensures AllEncodable(Resolve(r, registry, top, inherited, backend).value)
    decreases r
  {
    var v := Resolve(r, registry, top, inherited, backend).value;
    ResolvedLevel(r, registry, top, inherited, backend, 0);
    MergeEncodable(inherited, Own(r, registry).value);
    forall i | 0 <= i < |v.kids| ensures AllEncodable(v.kids[i]) {
      ResolvedLevel(r, registry, top, inherited, backend, i);
      LoadedEncodable(r.kids[i], registry, false, v.attrs, v.backend);
    }
  }

  /**
   * The search by class and required attributes finds a vertex exactly when its subtree has
   * the class, the device at the top sets every required attribute to the required value,
   * and no vertex below it on the path sets one to anything else.
   */
  lemma RequireReachesIff(r: Resource, registry: Registry, t: string, required: map<string, string>, place: Place)
    requires Load(r, registry).Ok? && Has(r, place) && Requirable(required) && PlainTree(r, registry)
    ensures HasResolved(Load(r, registry).value, place)
    ensures Own(r, registry).Ok?
    ensures Finds(Load(r, registry).value, ClassConstraint(t) + RequireSet(required), place) <==>
            && t in SubtreeClasses(At(Load(r, registry).value, place))
            && (forall a :: a in required ==> a in Own(r, registry).value && Own(r, registry).value[a] == required[a])
            && Undisturbed(Settings(r, registry, place)[1..], required)
  {
    var v := Load(r, registry).value;
    ResolvedAt(r, registry, true, map[], "", place);
    ResolvedLevel(r, registry, true, map[], "", 0);
    LoadedTyped(r, registry, true, map[], "");
    LoadedEncodable(r, registry, true, map[], "");
    RequireSearchExact(v, t, required, place);
    AttrsInherited(r, registry, true, map[], "", required, place);
  }

  /** A loaded tree has a type at every vertex. */
  lemma {:induction false} LoadedTyped(r: Resource, registry: Registry, top: bool, inherited: map<string, string>, backend: string)
    requires Resolve(r, registry, top, inherited, backend).Ok?
    ensures Typed(Resolve(r, registry, top, inherited, backend).value)
    decreases r
  {
    var v := Resolve(r, registry, top, inherited, backend).value;
    ResolvedLevel(r, registry, top, inherited, backend, 0);
    forall i | 0 <= i < |v.kids| ensures Typed(v.kids[i]) {
      ResolvedLevel(r, registry, top, inherited, backend, i);
      LoadedTyped(r.kids[i], registry, false, v.attrs, v.backend);
    }
  }

  /** Every vertex carries its device's name, so a required backend prunes nothing of that device and all of any other. */
  lemma BackendPinned(r: Resource, registry: Registry, place: Place, name: string)
    requires Load(r, registry).Ok? && Has(r, place) && name != ""
    requires HasResolved(Load(r, registry).value, place) && Encodable(At(Load(r, registry).value, place).attrs)
    ensures ComposeAttributeProperty("backend", name) in VirtualProperties(At(Load(r, registry).value, place)) <==> r.name == name
  {
    ResolvedAt(r, registry, true, map[], "", place);
    ResolvedLevel(r, registry, true, map[], "", 0);
    RequirePresentIff(At(Load(r, registry).value, place), "backend", name);
  }

  // ---- where a tree hangs ----

  /** The cluster is no node, so a search starts free of constraints at a tree under it. */
  predicate FindsUnderCluster(r: Resolved, wanted: set<string>, place: Place) {
    Finds(r, wanted, place)
  }

  /** A physical node is one, and must meet the constraint before the search goes below it. */
  predicate FindsUnderNode(n: Graph.KubeNode, r: Resolved, wanted: set<string>, place: Place) {
    wanted <= Graph.NodeItem(n).props && Finds(r, wanted, place)
  }

  /**
   * Of a loaded tree under the cluster a search by class finds every vertex of the class.
   * Under a physical node no device search finds any, though a filter keeps them all.
   */
  lemma UnderPhysicalNodeUnreached(n: Graph.KubeNode, r: Resource, registry: Registry, required: set<string>, place: Place)
    requires Load(r, registry).Ok? && HasResolved(Load(r, registry).value, place)
    ensures var v := Load(r, registry).value;
            var t := At(v, place).typ;
            && FindsUnderCluster(v, ClassConstraint(t), place) && Filters(v, ClassConstraint(t), place)
            && !FindsUnderNode(n, v, ClassConstraint(t) + required, place)
  {
    var v := Load(r, registry).value;
    LoadedTyped(r, registry, true, map[], "");
    ClassAlwaysFound(v, place);
    ClassSearchExact(v, At(v, place).typ, place);
    assert VIRTUAL_TRUE[|"virtual="|] == 't' && VIRTUAL_FALSE[|"virtual="|] == 'f';
    assert VIRTUAL_TRUE in ClassConstraint(At(v, place).typ) + required;
  }

  /** The search's constraint is the one a device jobspec carries: a vertex satisfies it when it meets the set. */
  lemma JobspecMeets(r: Resolved, v: Vertex, groupName: string, t: string, count: nat, pods: seq<Pod>)
    requires forall p :: p in v.properties <==> p in VirtualProperties(r)
    ensures Satisfies(v, DeviceJobspec(groupName, t, count, Sorted(RequireProps(pods))).constraints) <==>
            Meets(r, ClassConstraint(t) + RequireProps(pods))
  {
    var wanted := DeviceProps(pods, t);
    SystemConstraintsMeaning(v, wanted, []);
    assert wanted[0] == VIRTUAL_TRUE && wanted[1] == ComposeClassProperty(t);
    assert forall p :: p in wanted <==> p == wanted[0] || p == wanted[1] || p in Sorted(RequireProps(pods));
    assert forall p :: p in wanted <==> p in ClassConstraint(t) + RequireProps(pods);
  }
}
