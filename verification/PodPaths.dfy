/** The paths the webhook writes, token by token as the source spells them, and the pointers they are. */
module PodPaths {
  import opened Text
  import opened Json
  import opened Pointers
  import opened Patches
  import opened PodEdits

  /** Tokens written out as they are, each behind a slash. */
  function Slashed(tokens: seq<string>): string {
    if tokens == [] then "" else "/" + tokens[0] + Slashed(tokens[1..])
  }

  predicate Plain(token: string) {
    '~' !in token && '/' !in token
  }

  /** Plain tokens need no escaping. */
  lemma {:induction false} PlainPointer(tokens: seq<string>)
    requires forall t :: t in tokens ==> Plain(t)
    ensures Pointer(tokens) == Slashed(tokens)
  {
    if tokens != [] {
      assert Plain(tokens[0]);
      PlainEscape(tokens[0]);
      PlainPointer(tokens[1..]);
    }
  }

  /** A last token that is escaped by hand. */
  lemma {:induction false} PlainPointerTo(tokens: seq<string>, key: string)
    requires forall t :: t in tokens ==> Plain(t)
    ensures Pointer(tokens + [key]) == Slashed(tokens + [Escape(key)])
  {
    if tokens == [] {
      assert Pointer([key][1..]) == Slashed([Escape(key)][1..]);
      assert tokens + [key] == [key] && tokens + [Escape(key)] == [Escape(key)];
    } else {
      assert Plain(tokens[0]);
      PlainEscape(tokens[0]);
      PlainPointerTo(tokens[1..], key);
      assert (tokens + [key])[1..] == tokens[1..] + [key];
      assert (tokens + [Escape(key)])[1..] == tokens[1..] + [Escape(key)];
    }
  }

  function EnvTokens(i: nat): seq<string> {
    ["spec", "containers", Dec(i), "env"]
  }

  function MountsTokens(i: nat): seq<string> {
    ["spec", "containers", Dec(i), "volumeMounts"]
  }

  function ResourceTokens(i: nat, table: Table): seq<string> {
    ["spec", "containers", Dec(i), "resources", TableName(table)]
  }

  const VOLUMES_TOKENS := ["spec", "volumes"]
  const INITS_TOKENS := ["spec", "initContainers"]
  const ANNOTATIONS_TOKENS := ["metadata", "annotations"]

  /** The operation that adds an item to a list. */
  function ListOp(tokens: seq<string>, item: Json, first: bool): Op {
    if first then Add(Slashed(tokens), Arr([item])) else Add(Slashed(tokens + ["-"]), item)
  }

  lemma PlainSections()
    ensures Plain("spec") && Plain("containers") && Plain("metadata") && Plain("annotations")
  {
  }

  lemma PlainLists()
    ensures Plain("env") && Plain("volumeMounts") && Plain("volumes") && Plain("initContainers") && Plain("-")
  {
  }

  lemma PlainTables()
    ensures Plain("resources") && Plain("requests") && Plain("limits")
  {
  }

  lemma PlainTokens(i: nat)
    ensures Plain("spec") && Plain("containers") && Plain("env") && Plain("volumeMounts") && Plain("volumes")
    ensures Plain("initContainers") && Plain("metadata") && Plain("annotations")
    ensures Plain("resources") && Plain("requests") && Plain("limits") && Plain("-") && Plain(Dec(i))
  {
    IndexOfDec(i);
    PlainSections();
    PlainLists();
    PlainTables();
  }

  lemma ListOpAt(tokens: seq<string>, item: Json, first: bool)
    requires forall t :: t in tokens ==> Plain(t)
    ensures OpAt(tokens + (if first then [] else ["-"]), Insert(ListValue(item, first))) == ListOp(tokens, item, first)
  {
    PlainTokens(0);
    PlainPointer(tokens + (if first then [] else ["-"]));
    assert tokens + [] == tokens;
  }

  lemma EnvOp(i: nat, item: Json, first: bool)
    ensures OpOf(Within(i, AddEnv(item, first))) == ListOp(EnvTokens(i), item, first)
  {
    PlainTokens(i);
    ListOpAt(EnvTokens(i), item, first);
    Flatten("spec", "containers", Dec(i), ListPath("env", first));
    assert ["spec", "containers", Dec(i)] + ListPath("env", first) == EnvTokens(i) + if first then [] else ["-"];
  }

  lemma MountOp(i: nat, item: Json, first: bool)
    ensures OpOf(Within(i, AddMount(item, first))) == ListOp(MountsTokens(i), item, first)
  {
    PlainTokens(i);
    ListOpAt(MountsTokens(i), item, first);
    Flatten("spec", "containers", Dec(i), ListPath("volumeMounts", first));
    assert ["spec", "containers", Dec(i)] + ListPath("volumeMounts", first) == MountsTokens(i) + if first then [] else ["-"];
  }

  lemma VolumeOp(item: Json, first: bool)
    ensures OpOf(Put(Volumes, item, first)) == ListOp(VOLUMES_TOKENS, item, first)
  {
    PlainTokens(0);
    ListOpAt(VOLUMES_TOKENS, item, first);
    assert ["spec"] + ListPath("volumes", first) == VOLUMES_TOKENS + if first then [] else ["-"];
  }

  lemma InitOp(item: Json, first: bool)
    ensures OpOf(Put(Inits, item, first)) == ListOp(INITS_TOKENS, item, first)
  {
    PlainTokens(0);
    ListOpAt(INITS_TOKENS, item, first);
    assert ["spec"] + ListPath("initContainers", first) == INITS_TOKENS + if first then [] else ["-"];
  }

  lemma AnnotationsOp(ann: map<string, Json>)
    ensures OpOf(NewMap(Annotations, ann)) == Add(Slashed(ANNOTATIONS_TOKENS), Obj(ann))
  {
    PlainTokens(0);
    PlainPointer(ANNOTATIONS_TOKENS);
    assert ["metadata"] + ["annotations"] == ANNOTATIONS_TOKENS;
  }

  lemma AnnotationOp(k: string, v: Json)
    ensures OpOf(SetKey(Annotations, k, v)) == Add(Slashed(ANNOTATIONS_TOKENS + [Escape(k)]), v)
  {
    PlainTokens(0);
    PlainPointerTo(ANNOTATIONS_TOKENS, k);
    assert ["metadata"] + ["annotations", k] == ANNOTATIONS_TOKENS + [k];
  }

  lemma Flatten(a: string, b: string, c: string, rest: seq<string>)
    ensures [a] + ([b] + ([c] + rest)) == [a, b, c] + rest
  {
  }

  lemma PlainResource(i: nat, table: Table)
    ensures forall t :: t in ResourceTokens(i, table) ==> Plain(t)
  {
    PlainTokens(i);
    assert Plain(TableName(table));
  }

  lemma DropTokens(i: nat, table: Table, name: string, key: string)
    requires name == TableName(table)
    ensures ["spec"] + (["containers"] + ([Dec(i)] + ["resources", name, key])) == ResourceTokens(i, table) + [key]
  {
    Flatten("spec", "containers", Dec(i), ["resources", name, key]);
    assert ["spec", "containers", Dec(i)] + ["resources", name, key] == ["spec", "containers", Dec(i), "resources", name] + [key];
  }

  lemma DropOp(i: nat, table: Table, key: string)
    ensures OpOf(Within(i, Drop(table, key))) == Remove(Slashed(ResourceTokens(i, table) + [Escape(key)]))
  {
    PlainResource(i, table);
    PlainPointerTo(ResourceTokens(i, table), key);
    DropTokens(i, table, TableName(table), key);
  }
}
