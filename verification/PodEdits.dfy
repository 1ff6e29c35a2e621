/**
 * The part of a pod the webhook reads and changes, as decoded from the document the
 * API server sent, and the edits the handlers make. Each edit is both a patch
 * operation on the document and a change of the decoded pod; the two are proved to
 * agree on every document.
 */
module PodEdits {
  import opened Options
  import opened Text
  import opened Json
  import opened Pointers
  import opened Patches

  /** Env entries, mounts, volumes and quantities are kept as the documents they are. */
  datatype Container = Container(name: string, env: seq<Json>, mounts: seq<Json>, requests: map<string, Json>, limits: map<string, Json>)

  datatype PodState = PodState(
    annotations: Option<map<string, Json>>,
    labels: Option<map<string, Json>>,
    volumes: seq<Json>,
    inits: seq<Json>,
    gates: seq<Json>,
    containers: seq<Container>,
    group: Json,
    priorityClass: Json,
    priority: Json,
    serviceAccount: Json)

  // ---- decoding ----

  /** A map that is absent or null decodes to nil. */
  function AsMap(j: Json): Option<map<string, Json>> {
    if j.Obj? then Some(j.fields) else None
  }

  function ReadContainer(j: Json): Container {
    var resources := Field(j, "resources");
    Container(AsText(Field(j, "name")), Items(Field(j, "env")), Items(Field(j, "volumeMounts")),
              Fields(Field(resources, "requests")), Fields(Field(resources, "limits")))
  }

  function ReadContainers(items: seq<Json>): seq<Container> {
    seq(|items|, i requires 0 <= i < |items| => ReadContainer(items[i]))
  }

  function ReadParts(meta: Json, spec: Json): PodState {
    PodState(AsMap(Field(meta, "annotations")), AsMap(Field(meta, "labels")),
             Items(Field(spec, "volumes")), Items(Field(spec, "initContainers")), Items(Field(spec, "schedulingGates")),
             ReadContainers(Items(Field(spec, "containers"))),
             Field(spec, "schedulingGroup"), Field(spec, "priorityClassName"), Field(spec, "priority"), Field(spec, "serviceAccountName"))
  }

  function Read(doc: Json): PodState {
    ReadParts(Field(doc, "metadata"), Field(doc, "spec"))
  }

  /** What the API server sends: metadata, spec and every container are objects. */
  predicate Shaped(doc: Json) {
    && Field(doc, "metadata").Obj? && Field(doc, "spec").Obj?
    && forall j :: j in Items(Field(Field(doc, "spec"), "containers")) ==> j.Obj?
  }

  // ---- edits ----

  datatype Table = Requests | Limits
  datatype MetaMap = Annotations | Labels
  datatype ListField = Volumes | Inits | Gates | Containers
  datatype SpecField = SchedulingGroup | PriorityClassName | Priority | ServiceAccountName

  /** first says that the operation creates the list instead of appending to it. */
  datatype ContainerEdit =
    | AddEnv(item: Json, first: bool)
    | AddMount(item: Json, first: bool)
    | Drop(table: Table, key: string)

  datatype Edit =
    | NewMap(which: MetaMap, whole: map<string, Json>)
    | SetKey(which: MetaMap, key: string, value: Json)
    | Put(list: ListField, item: Json, first: bool)
    | SetSpec(field: SpecField, value: Json)
    | Within(index: nat, edit: ContainerEdit)

  function MapName(which: MetaMap): string {
    match which case Annotations => "annotations" case Labels => "labels"
  }

  function ListName(list: ListField): string {
    match list
    case Volumes => "volumes"
    case Inits => "initContainers"
    case Gates => "schedulingGates"
    case Containers => "containers"
  }

  function FieldName(field: SpecField): string {
    match field
    case SchedulingGroup => "schedulingGroup"
    case PriorityClassName => "priorityClassName"
    case Priority => "priority"
    case ServiceAccountName => "serviceAccountName"
  }

  function TableName(table: Table): string {
    match table case Requests => "requests" case Limits => "limits"
  }

  // ---- an edit as a patch operation ----

  function ListPath(name: string, first: bool): seq<string> {
    if first then [name] else [name, "-"]
  }

  function ListValue(item: Json, first: bool): Json {
    if first then Arr([item]) else item
  }

  function ContainerPath(e: ContainerEdit): seq<string> {
    match e
    case AddEnv(_, first) => ListPath("env", first)
    case AddMount(_, first) => ListPath("volumeMounts", first)
    case Drop(t, k) => ["resources", TableName(t), k]
  }

  function ContainerAction(e: ContainerEdit): Action {
    match e
    case AddEnv(item, first) => Insert(ListValue(item, first))
    case AddMount(item, first) => Insert(ListValue(item, first))
    case Drop(_, _) => Delete
  }

  /** The path below metadata or spec. */
  function EditPath(e: Edit): seq<string> {
    match e
    case NewMap(which, _) => [MapName(which)]
    case SetKey(which, k, _) => [MapName(which), k]
    case Put(list, _, first) => ListPath(ListName(list), first)
    case SetSpec(f, _) => [FieldName(f)]
    case Within(i, c) => ["containers"] + ([Dec(i)] + ContainerPath(c))
  }

  function EditAction(e: Edit): Action {
    match e
    case NewMap(_, whole) => Insert(Obj(whole))
    case SetKey(_, _, v) => Insert(v)
    case Put(_, item, first) => Insert(ListValue(item, first))
    case SetSpec(_, v) => Insert(v)
    case Within(_, c) => ContainerAction(c)
  }

  predicate OnMeta(e: Edit) {
    e.NewMap? || e.SetKey?
  }

  function OpAt(path: seq<string>, act: Action): Op {
    match act
    case Insert(v) => Add(Pointer(path), v)
    case Delete => Remove(Pointer(path))
  }

  function OpOf(e: Edit): Op {
    OpAt([if OnMeta(e) then "metadata" else "spec"] + EditPath(e), EditAction(e))
  }

  function OpsOf(es: seq<Edit>): seq<Op> {
    seq(|es|, i requires 0 <= i < |es| => OpOf(es[i]))
  }

  // ---- an edit as a change of the decoded pod ----

  function Extended(list: seq<Json>, item: Json, first: bool): seq<Json> {
    if first then [item] else list + [item]
  }

  function DoIn(e: ContainerEdit, c: Container): Container {
    match e
    case AddEnv(item, first) => c.(env := Extended(c.env, item, first))
    case AddMount(item, first) => c.(mounts := Extended(c.mounts, item, first))
    case Drop(Requests, k) => c.(requests := c.requests - {k})
    case Drop(Limits, k) => c.(limits := c.limits - {k})
  }

  function KeySet(m: Option<map<string, Json>>, k: string, v: Json): Option<map<string, Json>> {
    if m.Some? then Some(m.value[k := v]) else None
  }

  function Do(e: Edit, p: PodState): PodState {
    match e
    case NewMap(Annotations, whole) => p.(annotations := Some(whole))
    case NewMap(Labels, whole) => p.(labels := Some(whole))
    case SetKey(Annotations, k, v) => p.(annotations := KeySet(p.annotations, k, v))
    case SetKey(Labels, k, v) => p.(labels := KeySet(p.labels, k, v))
    case Put(Volumes, item, first) => p.(volumes := Extended(p.volumes, item, first))
    case Put(Inits, item, first) => p.(inits := Extended(p.inits, item, first))
    case Put(Gates, item, first) => p.(gates := Extended(p.gates, item, first))
    case Put(Containers, item, first) =>
      p.(containers := if first then [ReadContainer(item)] else p.containers + [ReadContainer(item)])
    case SetSpec(SchedulingGroup, v) => p.(group := v)
    case SetSpec(PriorityClassName, v) => p.(priorityClass := v)
    case SetSpec(Priority, v) => p.(priority := v)
    case SetSpec(ServiceAccountName, v) => p.(serviceAccount := v)
    case Within(i, c) => if i < |p.containers| then p.(containers := p.containers[i := DoIn(c, p.containers[i])]) else p
  }

  function DoAll(es: seq<Edit>, p: PodState): PodState {
    if es == [] then p else Do(es[|es| - 1], DoAll(es[..|es| - 1], p))
  }

  // ---- when the server accepts it ----

  predicate AcceptsIn(e: ContainerEdit, c: Container) {
    match e
    case AddEnv(_, first) => first || c.env != []
    case AddMount(_, first) => first || c.mounts != []
    case Drop(Requests, k) => k in c.requests
    case Drop(Limits, k) => k in c.limits
  }

  function MapIn(p: PodState, which: MetaMap): Option<map<string, Json>> {
    match which case Annotations => p.annotations case Labels => p.labels
  }

  /** The length of a list; the containers and the plain lists alike. */
  function Length(p: PodState, list: ListField): nat {
    match list
    case Volumes => |p.volumes|
    case Inits => |p.inits|
    case Gates => |p.gates|
    case Containers => |p.containers|
  }

  predicate Accepts(e: Edit, p: PodState) {
    match e
    case NewMap(_, _) => true
    case SetKey(which, _, _) => MapIn(p, which).Some?
    case Put(list, item, first) => (first || Length(p, list) > 0) && (list.Containers? ==> item.Obj?)
    case SetSpec(_, _) => true
    case Within(i, c) => i < |p.containers| && AcceptsIn(c, p.containers[i])
  }

  // ---- the two agree ----

  lemma AddToList(j: Json, name: string, item: Json, first: bool)
    requires j.Obj? && (first || Items(Field(j, name)) != [])
    ensures Change(j, ListPath(name, first), Insert(ListValue(item, first))) ==
            Some(Obj(j.fields[name := Arr(Extended(Items(Field(j, name)), item, first))]))
  {
    if !first {
      ChangeField(j, name, ["-"], Insert(item));
      assert ListPath(name, first) == [name] + ["-"];
      ChangeLast(j.fields[name], "-", Insert(item));
    }
  }

  lemma SetInMap(j: Json, name: string, k: string, v: Json)
    requires j.Obj? && Field(j, name).Obj?
    ensures Change(j, [name, k], Insert(v)) == Some(Obj(j.fields[name := Obj(Field(j, name).fields[k := v])]))
  {
    assert [name, k] == [name] + [k];
    ChangeField(j, name, [k], Insert(v));
    ChangeLast(j.fields[name], k, Insert(v));
  }

  lemma DropFrom(j: Json, table: string, k: string)
    requires j.Obj? && k in Fields(Field(Field(j, "resources"), table))
    ensures var resources := Field(j, "resources");
            Change(j, ["resources", table, k], Delete) ==
            Some(Obj(j.fields["resources" := Obj(resources.fields[table := Obj(Field(resources, table).fields - {k})])]))
  {
    var resources := Field(j, "resources");
    assert ["resources", table, k] == ["resources"] + [table, k] && [table, k] == [table] + [k];
    ChangeField(j, "resources", [table, k], Delete);
    ChangeField(resources, table, [k], Delete);
    ChangeLast(resources.fields[table], k, Delete);
  }

  /** A container edit, on the container's document and on the decoded container. */
  lemma ContainerAgrees(j: Json, e: ContainerEdit)
    requires j.Obj? && AcceptsIn(e, ReadContainer(j))
    ensures var r := Change(j, ContainerPath(e), ContainerAction(e));
            r.Some? && r.value.Obj? && ReadContainer(r.value) == DoIn(e, ReadContainer(j))
  {
    match e
    case AddEnv(item, first) =>
      AddToList(j, "env", item, first);
      Replaced(j, "env", Arr(Extended(Items(Field(j, "env")), item, first)));
    case AddMount(item, first) =>
      AddToList(j, "volumeMounts", item, first);
      Replaced(j, "volumeMounts", Arr(Extended(Items(Field(j, "volumeMounts")), item, first)));
    case Drop(t, k) =>
      DropFrom(j, TableName(t), k);
  }

  lemma ContainerChangeAgrees(spec: Json, i: nat, e: ContainerEdit)
    requires spec.Obj? && i < |Items(Field(spec, "containers"))| && Items(Field(spec, "containers"))[i].Obj?
    requires AcceptsIn(e, ReadContainer(Items(Field(spec, "containers"))[i]))
    ensures var items := Items(Field(spec, "containers"));
            exists j: Json ::
              && Change(spec, ["containers"] + ([Dec(i)] + ContainerPath(e)), ContainerAction(e)) ==
                 Some(Obj(spec.fields["containers" := Arr(items[i := j])]))
              && j.Obj? && ReadContainer(j) == DoIn(e, ReadContainer(items[i]))
  {
    var items := Items(Field(spec, "containers"));
    ContainerAgrees(items[i], e);
    ChangeItem(Field(spec, "containers"), i, ContainerPath(e), ContainerAction(e));
    ChangeField(spec, "containers", [Dec(i)] + ContainerPath(e), ContainerAction(e));
  }

  predicate ObjectsIn(items: seq<Json>) {
    forall j :: j in items ==> j.Obj?
  }

  lemma MetaAgrees(meta: Json, spec: Json, e: Edit)
    requires meta.Obj? && OnMeta(e) && Accepts(e, ReadParts(meta, spec))
    ensures var r := Change(meta, EditPath(e), EditAction(e));
            r.Some? && r.value.Obj? && ReadParts(r.value, spec) == Do(e, ReadParts(meta, spec))
  {
    match e
    case NewMap(which, whole) => ChangeLast(meta, MapName(which), Insert(Obj(whole)));
    case SetKey(which, k, v) => SetInMap(meta, MapName(which), k, v);
  }

  /** What a section must become for the decoded pod to change as the edit says. */
  ghost predicate SpecAgrees(meta: Json, spec: Json, e: Edit, r: Option<Json>) {
    && r.Some? && r.value.Obj? && ObjectsIn(Items(Field(r.value, "containers")))
    && ReadParts(meta, r.value) == Do(e, ReadParts(meta, spec))
  }

  /** Replacing one member of an object leaves the others. */
  lemma Replaced(j: Json, name: string, v: Json)
    requires j.Obj?
    ensures var j' := Obj(j.fields[name := v]);
            Field(j', name) == v && forall f {:trigger Field(j', f)} :: f != name ==> Field(j', f) == Field(j, f)
  {
  }

  /** The spec with one of its lists extended. */
  function SpecPut(spec: Json, list: ListField, item: Json, first: bool): Json
    requires spec.Obj?
  {
    Obj(spec.fields[ListName(list) := Arr(Extended(Items(Field(spec, ListName(list))), item, first))])
  }

  lemma PutReads(meta: Json, spec: Json, list: ListField, item: Json, first: bool)
    requires spec.Obj? && !list.Containers?
    ensures ReadParts(meta, SpecPut(spec, list, item, first)) == Do(Put(list, item, first), ReadParts(meta, spec))
    ensures Field(SpecPut(spec, list, item, first), "containers") == Field(spec, "containers")
  {
    Replaced(spec, ListName(list), Arr(Extended(Items(Field(spec, ListName(list))), item, first)));
  }

  lemma PutContainerReads(meta: Json, spec: Json, item: Json, first: bool)
    requires spec.Obj?
    ensures ReadParts(meta, SpecPut(spec, Containers, item, first)) == Do(Put(Containers, item, first), ReadParts(meta, spec))
  {
    var items := Items(Field(spec, "containers"));
    Replaced(spec, "containers", Arr(Extended(items, item, first)));
    ExtendContainers(items, item, first);
  }

  lemma ExtendContainers(items: seq<Json>, item: Json, first: bool)
    ensures ReadContainers(Extended(items, item, first)) ==
            if first then [ReadContainer(item)] else ReadContainers(items) + [ReadContainer(item)]
  {
  }

  lemma PutAgrees(meta: Json, spec: Json, e: Edit)
    requires spec.Obj? && ObjectsIn(Items(Field(spec, "containers"))) && e.Put? && Accepts(e, ReadParts(meta, spec))
    ensures SpecAgrees(meta, spec, e, Change(spec, EditPath(e), EditAction(e)))
  {
    AddToList(spec, ListName(e.list), e.item, e.first);
    if e.list.Containers? {
      PutContainerReads(meta, spec, e.item, e.first);
    } else {
      PutReads(meta, spec, e.list, e.item, e.first);
    }
  }

  lemma SwapReads(meta: Json, spec: Json, i: nat, j: Json)
    requires spec.Obj? && i < |Items(Field(spec, "containers"))|
    ensures var items := Items(Field(spec, "containers"));
            ReadParts(meta, Obj(spec.fields["containers" := Arr(items[i := j])])) ==
            ReadParts(meta, spec).(containers := ReadContainers(items)[i := ReadContainer(j)])
  {
    var items := Items(Field(spec, "containers"));
    Replaced(spec, "containers", Arr(items[i := j]));
    assert ReadContainers(items[i := j]) == ReadContainers(items)[i := ReadContainer(j)];
  }

  lemma WithinAgrees(meta: Json, spec: Json, e: Edit)
    requires spec.Obj? && ObjectsIn(Items(Field(spec, "containers"))) && e.Within? && Accepts(e, ReadParts(meta, spec))
    ensures SpecAgrees(meta, spec, e, Change(spec, EditPath(e), EditAction(e)))
  {
    var items := Items(Field(spec, "containers"));
    ContainerChangeAgrees(spec, e.index, e.edit);
    var j: Json :| && Change(spec, EditPath(e), EditAction(e)) == Some(Obj(spec.fields["containers" := Arr(items[e.index := j])]))
                   && j.Obj? && ReadContainer(j) == DoIn(e.edit, ReadContainer(items[e.index]));
    SwapReads(meta, spec, e.index, j);
  }

  lemma SetSpecAgrees(meta: Json, spec: Json, e: Edit)
    requires spec.Obj? && ObjectsIn(Items(Field(spec, "containers"))) && e.SetSpec?
    ensures SpecAgrees(meta, spec, e, Change(spec, EditPath(e), EditAction(e)))
  {
    ChangeLast(spec, FieldName(e.field), EditAction(e));
    Replaced(spec, FieldName(e.field), e.value);
  }

  /** What the server makes of an edit: it applies, and decodes to the edited pod. */
  ghost predicate Agrees(doc: Json, e: Edit, r: Option<Json>) {
    r.Some? && Shaped(r.value) && Read(r.value) == Do(e, Read(doc))
  }

  lemma SectionAgrees(doc: Json, name: string, section: Json)
    requires doc.Obj?
    ensures Read(Obj(doc.fields["metadata" := section])) == ReadParts(section, Field(doc, "spec"))
    ensures Read(Obj(doc.fields["spec" := section])) == ReadParts(Field(doc, "metadata"), section)
  {
    Replaced(doc, "metadata", section);
    Replaced(doc, "spec", section);
  }

  lemma MetaEditAgrees(doc: Json, e: Edit)
    requires Shaped(doc) && Accepts(e, Read(doc)) && OnMeta(e)
    ensures Agrees(doc, e, Change(doc, ["metadata"] + EditPath(e), EditAction(e)))
  {
    MetaAgrees(Field(doc, "metadata"), Field(doc, "spec"), e);
    ChangeField(doc, "metadata", EditPath(e), EditAction(e));
    SectionAgrees(doc, "metadata", Change(Field(doc, "metadata"), EditPath(e), EditAction(e)).value);
  }

  lemma SpecEditAgrees(doc: Json, e: Edit)
    requires Shaped(doc) && Accepts(e, Read(doc)) && !OnMeta(e)
    ensures Agrees(doc, e, Change(doc, ["spec"] + EditPath(e), EditAction(e)))
  {
    var meta, spec := Field(doc, "metadata"), Field(doc, "spec");
    if e.Put? {
      PutAgrees(meta, spec, e);
    } else if e.Within? {
      WithinAgrees(meta, spec, e);
    } else {
      SetSpecAgrees(meta, spec, e);
    }
    assert EditPath(e) != [];
    ChangeField(doc, "spec", EditPath(e), EditAction(e));
    SectionAgrees(doc, "spec", Change(spec, EditPath(e), EditAction(e)).value);
  }

  lemma OpTarget(e: Edit, doc: Json)
    ensures Apply(doc, OpOf(e)) == Change(doc, [if OnMeta(e) then "metadata" else "spec"] + EditPath(e), EditAction(e))
  {
    ParsePointerOf([if OnMeta(e) then "metadata" else "spec"] + EditPath(e));
  }

  /**
   * On every document, an edit the decoded pod accepts is a patch operation that
   * applies, and decoding what it leaves gives the pod changed as the edit says.
   */
  lemma EditAgrees(doc: Json, e: Edit)
    requires Shaped(doc) && Accepts(e, Read(doc))
    ensures Agrees(doc, e, Apply(doc, OpOf(e)))
  {
    OpTarget(e, doc);
    if OnMeta(e) {
      MetaEditAgrees(doc, e);
    } else {
      SpecEditAgrees(doc, e);
    }
  }

  /** A list of edits each of which the pod accepts when its turn comes. */
  predicate AcceptsAll(es: seq<Edit>, p: PodState) {
    es == [] || (AcceptsAll(es[..|es| - 1], p) && Accepts(es[|es| - 1], DoAll(es[..|es| - 1], p)))
  }

  lemma OpsOfConcat(a: seq<Edit>, b: seq<Edit>)
    ensures OpsOf(a + b) == OpsOf(a) + OpsOf(b)
  {
  }

  lemma ApplyAllThen(doc: Json, a: seq<Op>, op: Op)
    requires ApplyAll(doc, a).Some?
    ensures ApplyAll(doc, a + [op]) == Apply(ApplyAll(doc, a).value, op)
  {
    ApplyAllConcat(doc, a, [op]);
    ApplyOne(ApplyAll(doc, a).value, op);
  }

  lemma OpsOfLast(es: seq<Edit>)
    requires es != []
    ensures OpsOf(es) == OpsOf(es[..|es| - 1]) + [OpOf(es[|es| - 1])]
  {
  }

  /** So a whole patch applies, and decodes to the edited pod. */
  lemma {:induction false} EditsAgree(doc: Json, es: seq<Edit>)
    requires Shaped(doc) && AcceptsAll(es, Read(doc))
    ensures var r := ApplyAll(doc, OpsOf(es)); r.Some? && Shaped(r.value) && Read(r.value) == DoAll(es, Read(doc))
  {
    if es == [] {
      assert OpsOf(es) == [];
    } else {
      var init, last := es[..|es| - 1], es[|es| - 1];
      EditsAgree(doc, init);
      var mid := ApplyAll(doc, OpsOf(init)).value;
      EditAgrees(mid, last);
      assert Agrees(mid, last, ApplyAll(doc, OpsOf(es))) by {
        ApplyAllThen(doc, OpsOf(init), OpOf(last));
        OpsOfLast(es);
      }
    }
  }

  lemma ApplyOne(doc: Json, op: Op)
    ensures ApplyAll(doc, [op]) == Apply(doc, op)
  {
    if Apply(doc, op).Some? {
      assert ApplyAll(Apply(doc, op).value, []) == Apply(doc, op);
    }
  }

  lemma {:induction false} DoAllConcat(a: seq<Edit>, b: seq<Edit>, p: PodState)
    ensures DoAll(a + b, p) == DoAll(b, DoAll(a, p))
  {
    if b == [] {
      assert a + b == a;
    } else {
      DoAllConcat(a, b[..|b| - 1], p);
      assert (a + b)[..|a + b| - 1] == a + b[..|b| - 1];
    }
  }
}
