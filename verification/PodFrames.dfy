/**
 * What a patch leaves alone: every member of the document, of its metadata, its spec and
 * its containers that the decoded pod has no part in.
 */
module PodFrames {
  import opened Text
  import opened Json
  import opened Patches
  import opened PodEdits
  import opened PodMirror
  import opened Handlers
  import opened HandlerPatches

  const SECTIONS := {"metadata", "spec"}
  const META_FIELDS := {"annotations", "labels"}
  const SPEC_FIELDS := {"volumes", "initContainers", "schedulingGates", "containers",
                        "schedulingGroup", "priorityClassName", "priority", "serviceAccountName"}
  const CONTAINER_FIELDS := {"env", "volumeMounts", "resources"}
  const TABLES := {"requests", "limits"}

  /** The members of an object but for some. */
  function Rest(j: Json, names: set<string>): map<string, Json> {
    Fields(j) - names
  }

  predicate KeepsContainer(a: Json, b: Json) {
    && Rest(a, CONTAINER_FIELDS) == Rest(b, CONTAINER_FIELDS)
    && Rest(Field(a, "resources"), TABLES) == Rest(Field(b, "resources"), TABLES)
  }

  predicate KeepsContainers(a: seq<Json>, b: seq<Json>, n: nat) {
    n <= |a| && n <= |b| && forall i :: 0 <= i < n ==> KeepsContainer(a[i], b[i])
  }

  /** The spec's own members, and those of its first n containers. */
  predicate KeepsSpec(a: Json, b: Json, n: nat) {
    Rest(a, SPEC_FIELDS) == Rest(b, SPEC_FIELDS) && KeepsContainers(Items(Field(a, "containers")), Items(Field(b, "containers")), n)
  }

  predicate Keeps(a: Json, b: Json, n: nat) {
    && Rest(a, SECTIONS) == Rest(b, SECTIONS)
    && Rest(Field(a, "metadata"), META_FIELDS) == Rest(Field(b, "metadata"), META_FIELDS)
    && KeepsSpec(Field(a, "spec"), Field(b, "spec"), n)
  }

  lemma KeepsThen(a: Json, b: Json, c: Json, n: nat)
    requires Keeps(a, b, n) && Keeps(b, c, n)
    ensures Keeps(a, c, n)
  {
  }

  /** Replacing one of the members set aside leaves the rest. */
  lemma RestReplaced(j: Json, name: string, v: Json, names: set<string>)
    requires j.Obj? && name in names
    ensures Rest(Obj(j.fields[name := v]), names) == Rest(j, names)
  {
  }

  lemma ListPutKeeps(j: Json, name: string, item: Json, first: bool)
    requires j.Obj? && (first || Items(Field(j, name)) != []) && name in CONTAINER_FIELDS && name != "resources"
    ensures var r := Change(j, ListPath(name, first), Insert(ListValue(item, first))); r.Some? && KeepsContainer(j, r.value)
  {
    AddToList(j, name, item, first);
    RestReplaced(j, name, Arr(Extended(Items(Field(j, name)), item, first)), CONTAINER_FIELDS);
  }

  lemma DropKeeps(j: Json, table: string, k: string)
    requires j.Obj? && table in TABLES && k in Fields(Field(Field(j, "resources"), table))
    ensures var r := Change(j, ["resources", table, k], Delete); r.Some? && KeepsContainer(j, r.value)
  {
    var resources := Field(j, "resources");
    DropFrom(j, table, k);
    var left := Obj(Field(resources, table).fields - {k});
    RestReplaced(resources, table, left, TABLES);
    RestReplaced(j, "resources", Obj(resources.fields[table := left]), CONTAINER_FIELDS);
  }

  lemma ContainerEditKeeps(j: Json, e: ContainerEdit)
    requires j.Obj? && AcceptsIn(e, ReadContainer(j))
    ensures var r := Change(j, ContainerPath(e), ContainerAction(e)); r.Some? && KeepsContainer(j, r.value)
  {
    match e
    case AddEnv(item, first) => ListPutKeeps(j, "env", item, first);
    case AddMount(item, first) => ListPutKeeps(j, "volumeMounts", item, first);
    case Drop(t, k) => DropKeeps(j, TableName(t), k);
  }

  lemma WithinKeeps(spec: Json, i: nat, e: ContainerEdit, n: nat)
    requires spec.Obj? && n <= |Items(Field(spec, "containers"))|
    requires i < |Items(Field(spec, "containers"))| && Items(Field(spec, "containers"))[i].Obj?
    requires AcceptsIn(e, ReadContainer(Items(Field(spec, "containers"))[i]))
    ensures var r := Change(spec, ["containers"] + ([Dec(i)] + ContainerPath(e)), ContainerAction(e)); r.Some? && KeepsSpec(spec, r.value, n)
  {
    var items := Items(Field(spec, "containers"));
    ContainerEditKeeps(items[i], e);
    var j := Change(items[i], ContainerPath(e), ContainerAction(e)).value;
    ChangeItem(Field(spec, "containers"), i, ContainerPath(e), ContainerAction(e));
    ChangeField(spec, "containers", [Dec(i)] + ContainerPath(e), ContainerAction(e));
    RestReplaced(spec, "containers", Arr(items[i := j]), SPEC_FIELDS);
  }

  lemma PutKeeps(spec: Json, list: ListField, item: Json, first: bool, n: nat)
    requires spec.Obj? && n <= |Items(Field(spec, "containers"))|
    requires (first || Items(Field(spec, ListName(list))) != []) && (list.Containers? && first ==> n == 0)
    ensures var r := Change(spec, ListPath(ListName(list), first), Insert(ListValue(item, first))); r.Some? && KeepsSpec(spec, r.value, n)
  {
    var longer := Arr(Extended(Items(Field(spec, ListName(list))), item, first));
    AddToList(spec, ListName(list), item, first);
    RestReplaced(spec, ListName(list), longer, SPEC_FIELDS);
    Replaced(spec, ListName(list), longer);
  }

  lemma SetSpecKeeps(spec: Json, field: SpecField, v: Json, n: nat)
    requires spec.Obj? && n <= |Items(Field(spec, "containers"))|
    ensures var r := Change(spec, [FieldName(field)], Insert(v)); r.Some? && KeepsSpec(spec, r.value, n)
  {
    ChangeLast(spec, FieldName(field), Insert(v));
    RestReplaced(spec, FieldName(field), v, SPEC_FIELDS);
    Replaced(spec, FieldName(field), v);
  }

  lemma SpecEditKeeps(meta: Json, spec: Json, e: Edit, n: nat)
    requires spec.Obj? && ObjectsIn(Items(Field(spec, "containers"))) && n <= |Items(Field(spec, "containers"))|
    requires !OnMeta(e) && Accepts(e, ReadParts(meta, spec)) && !Restarts(e, n)
    ensures var r := Change(spec, EditPath(e), EditAction(e)); r.Some? && KeepsSpec(spec, r.value, n)
  {
    match e
    case Put(list, item, first) => PutKeeps(spec, list, item, first, n);
    case SetSpec(field, v) => SetSpecKeeps(spec, field, v, n);
    case Within(i, c) => WithinKeeps(spec, i, c, n);
  }

  lemma MetaEditKeeps(meta: Json, spec: Json, e: Edit)
    requires meta.Obj? && OnMeta(e) && Accepts(e, ReadParts(meta, spec))
    ensures var r := Change(meta, EditPath(e), EditAction(e)); r.Some? && Rest(meta, META_FIELDS) == Rest(r.value, META_FIELDS)
  {
    match e
    case NewMap(which, whole) =>
      ChangeLast(meta, MapName(which), Insert(Obj(whole)));
      RestReplaced(meta, MapName(which), Obj(whole), META_FIELDS);
    case SetKey(which, k, v) =>
      SetInMap(meta, MapName(which), k, v);
      RestReplaced(meta, MapName(which), Obj(Field(meta, MapName(which)).fields[k := v]), META_FIELDS);
  }

  /** The edit makes a new list of containers where n are to be kept. */
  predicate Restarts(e: Edit, n: nat) {
    e.Put? && e.list.Containers? && e.first && n > 0
  }

  function Held(doc: Json): nat {
    |Items(Field(Field(doc, "spec"), "containers"))|
  }

  /** On every document, an edit that applies touches nothing else. */
  lemma EditKeeps(doc: Json, e: Edit, n: nat)
    requires Shaped(doc) && Accepts(e, Read(doc)) && n <= Held(doc) && !Restarts(e, n)
    ensures var r := Apply(doc, OpOf(e)); r.Some? && Keeps(doc, r.value, n)
  {
    var meta, spec := Field(doc, "metadata"), Field(doc, "spec");
    OpTarget(e, doc);
    if OnMeta(e) {
      MetaEditKeeps(meta, spec, e);
      ChangeField(doc, "metadata", EditPath(e), EditAction(e));
      SectionKeeps(doc, "metadata", Change(meta, EditPath(e), EditAction(e)).value);
    } else {
      SpecEditKeeps(meta, spec, e, n);
      ChangeField(doc, "spec", EditPath(e), EditAction(e));
      SectionKeeps(doc, "spec", Change(spec, EditPath(e), EditAction(e)).value);
    }
  }

  lemma SectionKeeps(doc: Json, name: string, section: Json)
    requires doc.Obj? && name in SECTIONS
    ensures var r := Obj(doc.fields[name := section]);
            Rest(doc, SECTIONS) == Rest(r, SECTIONS) && Field(r, name) == section
            && forall f {:trigger Field(r, f)} :: f != name ==> Field(r, f) == Field(doc, f)
  {
    RestReplaced(doc, name, section, SECTIONS);
    Replaced(doc, name, section);
  }

  lemma {:induction false} EditsKeep(doc: Json, es: seq<Edit>, n: nat)
    requires Shaped(doc) && AcceptsAll(es, Read(doc)) && n <= Held(doc) && forall e :: e in es ==> !Restarts(e, n)
    ensures var r := ApplyAll(doc, OpsOf(es)); r.Some? && Keeps(doc, r.value, n)
  {
    if es == [] {
      assert OpsOf(es) == [];
    } else {
      var init, last := es[..|es| - 1], es[|es| - 1];
      EditsKeep(doc, init, n);
      EditsAgree(doc, init);
      var mid := ApplyAll(doc, OpsOf(init)).value;
      EditKeeps(mid, last, n);
      ApplyAllThen(doc, OpsOf(init), OpOf(last));
      OpsOfLast(es);
      KeepsThen(doc, mid, ApplyAll(doc, OpsOf(es)).value, n);
    }
  }

  /** The webhook's own pod keeps its number of containers, so it starts no list of them over. */
  lemma {:induction false} ChosenNeverRestarts(es: seq<Edit>, p: PodState)
    requires AllChosen(es, p)
    ensures |MirrorAll(es, p).containers| == |p.containers| && forall e :: e in es ==> !Restarts(e, |p.containers|)
  {
    if es != [] {
      ChosenNeverRestarts(es[..|es| - 1], p);
    }
  }

  /**
   * Whatever the pod, the handler order and the cluster, the patch of an admission leaves
   * every member of the document as it was, and of its metadata, its spec and each of the
   * containers submitted, but for those the decoded pod is made of.
   */
  lemma PatchKeepsTheRest(doc: Json, order: seq<Handler>, ctx: Ctx, groups: Groups)
    requires Shaped(doc) && KeysOrdered(ctx)
    ensures var v := Dispatch(order, ctx, State(Before(Read(doc)), groups));
            v.Admitted? ==> var r := ApplyAll(doc, OpsOf(v.s.g.edits)); r.Some? && Keeps(doc, r.value, Held(doc))
  {
    DispatchRight(order, ctx, Read(doc), groups);
    var v := Dispatch(order, ctx, State(Before(Read(doc)), groups));
    if v.Admitted? {
      AgreeSelf(Read(doc));
      AllChosenAgree(v.s.g.edits, Read(doc), Read(doc));
      ChosenNeverRestarts(v.s.g.edits, Read(doc));
      EditsKeep(doc, v.s.g.edits, Held(doc));
    }
  }
}
