/**
 * The configured resource trees: attributes resolved down the tree, the properties
 * stamped on each vertex, and which vertices a constrained search then finds.
 */
module Resources {
  import opened Vocabulary
  import opened Options
  import opened Placement

  /** Attributes as given: by reference to the registry, inline, or not at all. */
  datatype AttributeSpec = AttributeSpec(reference: string, inline_: map<string, string>)

  datatype Resource = Resource(typ: string, name: string, count: nat, parent: string, attributes: AttributeSpec, kids: seq<Resource>)

  /** A resource after loading: its resolved attributes and its device's name. */
  datatype Resolved = Resolved(typ: string, name: string, count: nat, parent: string, attrs: map<string, string>, backend: string, kids: seq<Resolved>)

  datatype Result<T> = Ok(value: T) | MissingType | UnknownSet(typ: string, set_: string)

  type Registry = map<string, map<string, string>>

  const DEFAULT_PARENT := "cluster"

  // ---- resolving ----

  /** The attributes a resource sets itself; an empty reference counts as inline. */
  function Own(r: Resource, registry: Registry): Result<map<string, string>> {
    if r.attributes.reference != "" then
      if r.attributes.reference in registry then Ok(registry[r.attributes.reference])
      else UnknownSet(r.typ, r.attributes.reference)
    else Ok(r.attributes.inline_)
  }

  /** The loop over a resource's own attributes: an empty value clears, any other sets. */
  function Merge(inherited: map<string, string>, own: map<string, string>): map<string, string> {
    map k | k in inherited.Keys + own.Keys && (if k in own then own[k] != "" else true) :: if k in own then own[k] else inherited[k]
  }

  method MergeOwn(inherited: map<string, string>, own: map<string, string>) returns (merged: map<string, string>)
    ensures merged == Merge(inherited, own)
  {
    merged := inherited;
    var keys := own.Keys;
    while keys != {}
      invariant keys <= own.Keys
      invariant forall k :: k in merged <==> if k in own && k !in keys then own[k] != "" else k in inherited
      invariant forall k :: k in merged ==> merged[k] == if k in own && k !in keys then own[k] else inherited[k]
    {
      var k :| k in keys;
      keys := keys - {k};
      if own[k] == "" {
        merged := merged - {k};
        continue;
      }
      merged := merged[k := own[k]];
    }
  }

  function BackendFor(r: Resource, top: bool, backend: string): string {
    if top && r.name != "" then r.name else backend
  }

  function Resolve(r: Resource, registry: Registry, top: bool, inherited: map<string, string>, backend: string): Result<Resolved>
    decreases r, |r.kids| + 1
  {
    if r.typ == "" then MissingType
    else
      match Own(r, registry)
      case MissingType => MissingType
      case UnknownSet(t, s) => UnknownSet(t, s)
      case Ok(own) =>
        var merged, name := Merge(inherited, own), BackendFor(r, top, backend);
        match ResolveKids(r, |r.kids|, registry, merged, name)
        case MissingType => MissingType
        case UnknownSet(t, s) => UnknownSet(t, s)
        case Ok(kids) =>
          Ok(Resolved(r.typ, r.name, r.count, if top && r.parent == "" then DEFAULT_PARENT else r.parent, merged, name, kids))
  }

  /** The first n children, resolved in order; the first error stops. */
  function ResolveKids(r: Resource, n: nat, registry: Registry, merged: map<string, string>, backend: string): (res: Result<seq<Resolved>>)
    requires n <= |r.kids|
    ensures res.Ok? ==> |res.value| == n
    decreases r, n
  {
    if n == 0 then Ok([])
    else
      match ResolveKids(r, n - 1, registry, merged, backend)
      case MissingType => MissingType
      case UnknownSet(t, s) => UnknownSet(t, s)
      case Ok(kids) =>
        match Resolve(r.kids[n - 1], registry, false, merged, backend)
        case MissingType => MissingType
        case UnknownSet(t, s) => UnknownSet(t, s)
        case Ok(kid) => Ok(kids + [kid])
  }

  // ---- places in a tree ----

  /** A vertex's place: the child to take at each level. */
  type Place = seq<nat>

  predicate Has(r: Resource, place: Place)
    decreases place
  {
    place == [] || (place[0] < |r.kids| && Has(r.kids[place[0]], place[1..]))
  }

  predicate HasResolved(r: Resolved, place: Place)
    decreases place
  {
    place == [] || (place[0] < |r.kids| && HasResolved(r.kids[place[0]], place[1..]))
  }

  function At(r: Resolved, place: Place): Resolved
    requires HasResolved(r, place)
    decreases place
  {
    if place == [] then r else At(r.kids[place[0]], place[1..])
  }

  /** What the vertices from the root down to a place set themselves. */
  function Settings(r: Resource, registry: Registry, place: Place): seq<map<string, string>>
    requires Has(r, place)
    decreases place
  {
    var own := if Own(r, registry).Ok? then Own(r, registry).value else map[];
    [own] + if place == [] then [] else Settings(r.kids[place[0]], registry, place[1..])
  }

  /** The setting of the nearest vertex, from the last upwards, that mentions the key. */
  function Nearest(settings: seq<map<string, string>>, k: string): Option<string> {
    if settings == [] then None
    else if k in settings[|settings| - 1] then Some(settings[|settings| - 1][k])
    else Nearest(settings[..|settings| - 1], k)
  }

  function MergeAll(inherited: map<string, string>, settings: seq<map<string, string>>): map<string, string> {
    if settings == [] then inherited else Merge(MergeAll(inherited, settings[..|settings| - 1]), settings[|settings| - 1])
  }

  lemma {:induction false} MergeAllFirst(inherited: map<string, string>, first: map<string, string>, rest: seq<map<string, string>>)
    ensures MergeAll(inherited, [first] + rest) == MergeAll(Merge(inherited, first), rest)
  {
    var all := [first] + rest;
    if rest == [] {
      assert all[..0] == [] && all[0] == first;
    } else {
      MergeAllFirst(inherited, first, rest[..|rest| - 1]);
      assert all[..|all| - 1] == [first] + rest[..|rest| - 1];
    }
  }

  /** Merging down the path leaves each key with its nearest setting, unless that is empty. */
  lemma {:induction false} MergeAllNearest(settings: seq<map<string, string>>, k: string)
    ensures var merged, nearest := MergeAll(map[], settings), Nearest(settings, k);
            && (k in merged <==> nearest.Some? && nearest.value != "")
            && (k in merged ==> merged[k] == nearest.value)
  {
    if settings != [] {
      MergeAllNearest(settings[..|settings| - 1], k);
    }
  }

  lemma {:induction false} KidResolved(r: Resource, n: nat, i: nat, registry: Registry, merged: map<string, string>, backend: string)
    requires i < n <= |r.kids| && ResolveKids(r, n, registry, merged, backend).Ok?
    ensures Resolve(r.kids[i], registry, false, merged, backend) == Ok(ResolveKids(r, n, registry, merged, backend).value[i])
    decreases n
  {
    if i < n - 1 {
      KidResolved(r, n - 1, i, registry, merged, backend);
    }
  }

  /** One level of resolution. */
  lemma ResolvedLevel(r: Resource, registry: Registry, top: bool, inherited: map<string, string>, backend: string, i: nat)
    requires Resolve(r, registry, top, inherited, backend).Ok?
    ensures var v := Resolve(r, registry, top, inherited, backend).value;
            && Own(r, registry).Ok? && v.attrs == Merge(inherited, Own(r, registry).value)
            && v.typ == r.typ && v.backend == BackendFor(r, top, backend) && |v.kids| == |r.kids|
            && (i < |r.kids| ==> Resolve(r.kids[i], registry, false, v.attrs, v.backend) == Ok(v.kids[i]))
  {
    var merged, name := Merge(inherited, Own(r, registry).value), BackendFor(r, top, backend);
    if i < |r.kids| {
      KidResolved(r, |r.kids|, i, registry, merged, name);
    }
  }

  lemma {:induction false} ResolvedAt(r: Resource, registry: Registry, top: bool, inherited: map<string, string>, backend: string, place: Place)
    requires Resolve(r, registry, top, inherited, backend).Ok? && Has(r, place)
    ensures var v := Resolve(r, registry, top, inherited, backend).value;
            && HasResolved(v, place)
            && At(v, place).attrs == MergeAll(inherited, Settings(r, registry, place))
            && At(v, place).backend == v.backend
    decreases place
  {
    var own := Own(r, registry);
    var i := if place == [] then 0 else place[0];
    ResolvedLevel(r, registry, top, inherited, backend, i);
    var v := Resolve(r, registry, top, inherited, backend).value;
    if place == [] {
      MergeAllFirst(inherited, own.value, []);
      assert [own.value] + [] == [own.value];
      assert MergeAll(v.attrs, []) == v.attrs;
    } else {
      ResolvedAt(r.kids[i], registry, false, v.attrs, v.backend, place[1..]);
      MergeAllFirst(inherited, own.value, Settings(r.kids[i], registry, place[1..]));
    }
  }

  function Load(r: Resource, registry: Registry): Result<Resolved> {
    Resolve(r, registry, true, map[], "")
  }

  /**
   * At every vertex of every tree that loads, a key has the value set by the nearest
   * vertex up the tree, itself included, that mentions it, and is absent when that value
   * is empty or no vertex mentions it.
   */
  lemma NearestWins(r: Resource, registry: Registry, place: Place, k: string)
    requires Load(r, registry).Ok? && Has(r, place)
    ensures HasResolved(Load(r, registry).value, place)
    ensures var attrs, nearest := At(Load(r, registry).value, place).attrs, Nearest(Settings(r, registry, place), k);
            && (k in attrs <==> nearest.Some? && nearest.value != "")
            && (k in attrs ==> attrs[k] == nearest.value && attrs[k] != "")
  {
    ResolvedAt(r, registry, true, map[], "", place);
    MergeAllNearest(Settings(r, registry, place), k);
  }

  // ---- when a tree loads ----

  /** A tree loads exactly when every vertex has a type and names a known set, if it names one. */
  predicate WellFormed(r: Resource, registry: Registry)
    decreases r
  {
    r.typ != "" && Own(r, registry).Ok? && forall i :: 0 <= i < |r.kids| ==> WellFormed(r.kids[i], registry)
  }

  lemma {:induction false} LoadsIff(r: Resource, registry: Registry, top: bool, inherited: map<string, string>, backend: string)
    ensures Resolve(r, registry, top, inherited, backend).Ok? <==> WellFormed(r, registry)
    decreases r, |r.kids| + 1
  {
    if r.typ != "" && Own(r, registry).Ok? {
      KidsLoadIff(r, |r.kids|, registry, Merge(inherited, Own(r, registry).value), BackendFor(r, top, backend));
    }
  }

  lemma {:induction false} KidsLoadIff(r: Resource, n: nat, registry: Registry, merged: map<string, string>, backend: string)
    requires n <= |r.kids|
    ensures ResolveKids(r, n, registry, merged, backend).Ok? <==> forall i :: 0 <= i < n ==> WellFormed(r.kids[i], registry)
    decreases r, n
  {
    if n > 0 {
      KidsLoadIff(r, n - 1, registry, merged, backend);
      LoadsIff(r.kids[n - 1], registry, false, merged, backend);
    }
  }

  // ---- properties ----

  function ComposeProperty(key: string, value: string): string {
    if value == "" then key else key + "=" + value
  }

  /** The types at a vertex and below it. */
  function SubtreeClasses(r: Resolved): set<string>
    decreases r
  {
    {r.typ} + set i, t | 0 <= i < |r.kids| && t in SubtreeClasses(r.kids[i]) :: t
  }

  function AttributeProps(attrs: map<string, string>): set<string> {
    set k | k in attrs :: ComposeProperty(FLUXION_PREFIX + k, attrs[k])
  }

  function VirtualProperties(r: Resolved): set<string> {
    {ComposeProperty("virtual", "true")}
    + (set t | t in SubtreeClasses(r) :: ComposeProperty("class", t))
    + AttributeProps(r.attrs)
    + (if r.backend != "" then {ComposeProperty(FLUXION_PREFIX + "backend", r.backend)} else {})
  }

  lemma PropertyNames(t: string)
    ensures ComposeProperty("virtual", "true") == VIRTUAL_TRUE
    ensures t != "" ==> ComposeProperty("class", t) == ComposeClassProperty(t)
  {
    assert "virtual" + "=" + "true" == VIRTUAL_TRUE;
    assert "class" + "=" == CLASS_PREFIX;
  }

  predicate NoEquals(s: string) {
    '=' !in s
  }

  lemma {:induction false} DecomposeComposed(k: string, v: string)
    requires NoEquals(k)
    ensures DecomposeProperty(k + "=" + v) == (k, v)
  {
    var s := k + "=" + v;
    if k != "" {
      assert s[1..] == k[1..] + "=" + v;
      DecomposeComposed(k[1..], v);
      assert k == [k[0]] + k[1..];
    } else {
      assert s[1..] == v;
    }
  }

  lemma OtherPropsUnprefixed(t: string)
    ensures !HasPrefix(ComposeProperty("virtual", "true"), FLUXION_PREFIX) && !HasPrefix(ComposeProperty("class", t), FLUXION_PREFIX)
  {
    assert ComposeProperty("virtual", "true")[0] == 'v' && ComposeProperty("class", t)[0] == 'c' && FLUXION_PREFIX[0] == 'f';
  }

  /** Attributes whose keys the encoding can carry: no '=', and not the device's own. */
  predicate Encodable(attrs: map<string, string>) {
    forall k :: k in attrs ==> NoEquals(k) && k != "backend" && attrs[k] != ""
  }

  /** What a workload on the vertex should read back. */
  function Reported(r: Resolved): map<string, string> {
    if r.backend != "" then r.attrs["backend" := r.backend] else r.attrs
  }

  lemma AttributeDecoded(attrs: map<string, string>, prop: string)
    requires Encodable(attrs) && prop in AttributeProps(attrs)
    ensures HasPrefix(prop, FLUXION_PREFIX)
    ensures var (k, v) := DecomposeProperty(TrimPrefix(prop, FLUXION_PREFIX)); k in attrs && attrs[k] == v
  {
    var k :| k in attrs && prop == ComposeProperty(FLUXION_PREFIX + k, attrs[k]);
    assert prop[..|FLUXION_PREFIX|] == FLUXION_PREFIX && prop[|FLUXION_PREFIX|..] == k + "=" + attrs[k];
    DecomposeComposed(k, attrs[k]);
  }

  lemma BackendDecoded(name: string)
    requires name != ""
    ensures DecomposeProperty(TrimPrefix(ComposeProperty(FLUXION_PREFIX + "backend", name), FLUXION_PREFIX)) == ("backend", name)
  {
    var prop := ComposeProperty(FLUXION_PREFIX + "backend", name);
    assert prop[..|FLUXION_PREFIX|] == FLUXION_PREFIX && prop[|FLUXION_PREFIX|..] == "backend" + "=" + name;
    DecomposeComposed("backend", name);
  }

  /** A prefixed property of the vertex carries something it reports. */
  lemma ReportedProp(r: Resolved, prop: string)
    requires Encodable(r.attrs) && prop in VirtualProperties(r) && HasPrefix(prop, FLUXION_PREFIX)
    ensures var (k, v) := DecomposeProperty(TrimPrefix(prop, FLUXION_PREFIX)); k in Reported(r) && Reported(r)[k] == v
  {
    forall t ensures prop != ComposeProperty("class", t) && prop != ComposeProperty("virtual", "true") {
      OtherPropsUnprefixed(t);
    }
    if prop in AttributeProps(r.attrs) {
      AttributeDecoded(r.attrs, prop);
    } else {
      BackendDecoded(r.backend);
    }
  }

  lemma PropOf(r: Resolved, k: string)
    requires Encodable(r.attrs) && k in Reported(r)
    ensures var prop := FLUXION_PREFIX + k + "=" + Reported(r)[k];
            && prop in VirtualProperties(r) && HasPrefix(prop, FLUXION_PREFIX)
            && DecomposeProperty(TrimPrefix(prop, FLUXION_PREFIX)) == (k, Reported(r)[k])
  {
    var v := Reported(r)[k];
    var prop := FLUXION_PREFIX + k + "=" + v;
    assert prop[|FLUXION_PREFIX|..] == k + "=" + v && prop[..|FLUXION_PREFIX|] == FLUXION_PREFIX;
    assert NoEquals("backend");
    DecomposeComposed(k, v);
    if k != "backend" || r.backend == "" {
      assert prop == ComposeProperty(FLUXION_PREFIX + k, r.attrs[k]);
      assert prop in AttributeProps(r.attrs);
    } else {
      assert prop == ComposeProperty(FLUXION_PREFIX + "backend", r.backend);
    }
  }

  /** Decoding a list of the vertex's properties: the keys it covers, with their values. */
  lemma {:induction false} DecodedSome(r: Resolved, props: seq<string>)
    requires Encodable(r.attrs) && forall p :: p in props ==> p in VirtualProperties(r)
    ensures forall k :: k in BackendAttributes(props) ==> k in Reported(r) && BackendAttributes(props)[k] == Reported(r)[k]
    ensures forall k :: k in Reported(r) && FLUXION_PREFIX + k + "=" + Reported(r)[k] in props ==> k in BackendAttributes(props)
  {
    if props != [] {
      var init, last := props[..|props| - 1], props[|props| - 1];
      DecodedSome(r, init);
      if HasPrefix(last, FLUXION_PREFIX) {
        ReportedProp(r, last);
      }
      forall k | k in Reported(r) && FLUXION_PREFIX + k + "=" + Reported(r)[k] in props ensures k in BackendAttributes(props) {
        PropOf(r, k);
        assert props == init + [last];
      }
    }
  }

  /**
   * The attributes survive the trip through the graph: decoding a vertex's properties, in
   * whatever order they come, gives its resolved attributes and the device's name.
   */
  lemma AttributesRoundTrip(r: Resolved, props: seq<string>)
    requires Encodable(r.attrs) && forall p :: p in props <==> p in VirtualProperties(r)
    ensures BackendAttributes(props) == Reported(r)
  {
    DecodedSome(r, props);
    forall k | k in Reported(r) ensures k in BackendAttributes(props) {
      PropOf(r, k);
    }
  }

  /** A require constraint is met by exactly the vertices whose attribute, or device, has that value. */
  lemma RequirePresentIff(r: Resolved, attr: string, value: string)
    requires Encodable(r.attrs) && NoEquals(attr) && value != ""
    ensures ComposeAttributeProperty(attr, value) in VirtualProperties(r) <==> attr in Reported(r) && Reported(r)[attr] == value
  {
    var prop := ComposeAttributeProperty(attr, value);
    if prop in VirtualProperties(r) {
      assert prop[..|FLUXION_PREFIX|] == FLUXION_PREFIX && prop[|FLUXION_PREFIX|..] == attr + "=" + value;
      DecomposeComposed(attr, value);
      ReportedProp(r, prop);
    } else if attr in Reported(r) && Reported(r)[attr] == value {
      PropOf(r, attr);
    }
  }
}
