/** The two JSON Patch operations the webhook emits: sections 4.1 and 4.2 of RFC 6902. */
module Patches {
  import opened Options
  import opened Text
  import opened Json
  import opened Pointers

  datatype Op = Add(path: string, value: Json) | Remove(path: string)

  datatype Action = Insert(value: Json) | Delete

  /** What an operation does at its target location, the last token of its path. */
  function ChangeHere(doc: Json, token: string, act: Action): Option<Json> {
    match doc
    case Obj(fields) =>
      if act.Insert? then Some(Obj(fields[token := act.value]))
      else if token in fields then Some(Obj(fields - {token})) else None
    case Arr(items) =>
      if act.Insert? && token == "-" then Some(Arr(items + [act.value]))
      else
        (match Index(token)
         case None => None
         case Some(k) =>
           if act.Insert? then (if k <= |items| then Some(Arr(items[..k] + [act.value] + items[k..])) else None)
           else if k < |items| then Some(Arr(items[..k] + items[k + 1..])) else None)
    case _ => None
  }

  /** Follows a path to its target location; every location on the way must exist. */
  function Change(doc: Json, path: seq<string>, act: Action): Option<Json> {
    if path == [] then (if act.Insert? then Some(act.value) else None)
    else if |path| == 1 then ChangeHere(doc, path[0], act)
    else
      match doc
      case Obj(fields) =>
        if path[0] !in fields then None
        else
          (match Change(fields[path[0]], path[1..], act)
           case None => None
           case Some(j) => Some(Obj(fields[path[0] := j])))
      case Arr(items) =>
        (match Index(path[0])
         case None => None
         case Some(k) =>
           if k >= |items| then None
           else
             match Change(items[k], path[1..], act)
             case None => None
             case Some(j) => Some(Arr(items[k := j])))
      case _ => None
  }

  function ActionOf(op: Op): Action {
    match op
    case Add(_, v) => Insert(v)
    case Remove(_) => Delete
  }

  /** Applies one operation; None when the server would reject the patch. */
  function Apply(doc: Json, op: Op): Option<Json> {
    match ParsePointer(op.path)
    case None => None
    case Some(path) => Change(doc, path, ActionOf(op))
  }

  /** Operations apply one after another, each to what the one before left. */
  function ApplyAll(doc: Json, ops: seq<Op>): Option<Json>
    decreases |ops|
  {
    if ops == [] then Some(doc)
    else
      match Apply(doc, ops[0])
      case None => None
      case Some(next) => ApplyAll(next, ops[1..])
  }

  lemma {:induction false} ApplyAllConcat(doc: Json, a: seq<Op>, b: seq<Op>)
    requires ApplyAll(doc, a).Some?
    ensures ApplyAll(doc, a + b) == ApplyAll(ApplyAll(doc, a).value, b)
    decreases |a|
  {
    if a == [] {
      assert a + b == b;
    } else {
      ApplyAllConcat(Apply(doc, a[0]).value, a[1..], b);
      assert (a + b)[1..] == a[1..] + b;
    }
  }

  // ---- following a path one token at a time ----

  lemma ChangeLast(doc: Json, token: string, act: Action)
    ensures Change(doc, [token], act) == ChangeHere(doc, token, act)
  {
  }

  lemma ChangeField(doc: Json, name: string, rest: seq<string>, act: Action)
    requires rest != [] && doc.Obj? && name in doc.fields
    ensures Change(doc, [name] + rest, act) ==
              match Change(doc.fields[name], rest, act) { case None => None case Some(j) => Some(Obj(doc.fields[name := j])) }
  {
    assert ([name] + rest)[1..] == rest;
  }

  lemma ChangeItem(doc: Json, k: nat, rest: seq<string>, act: Action)
    requires rest != [] && doc.Arr? && k < |doc.items|
    ensures Change(doc, [Dec(k)] + rest, act) ==
              match Change(doc.items[k], rest, act) { case None => None case Some(j) => Some(Arr(doc.items[k := j])) }
  {
    IndexOfDec(k);
    assert ([Dec(k)] + rest)[1..] == rest;
  }
}
