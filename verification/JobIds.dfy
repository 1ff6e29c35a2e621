/**
 * The jobid annotation: a comma-separated list of Fluxion allocation ids kept on
 * the object that owns the allocation.
 */
module JobIds {
  import opened Options
  import opened Text

  const MAX_UINT64: nat := 0xFFFF_FFFF_FFFF_FFFF

  type JobId = nat

  predicate Uint64s(ids: seq<JobId>) {
    forall i :: 0 <= i < |ids| ==> ids[i] <= MAX_UINT64
  }

  /** strconv.ParseUint(s, 10, 64): digits only, no sign, in range. */
  function ParseUint(s: string): Option<JobId> {
    if s != "" && AllDigits(s) && DigitsValue(s) <= MAX_UINT64 then Some(DigitsValue(s)) else None
  }

  /** The renderings of a list of ids, one field each. */
  function Fields(ids: seq<JobId>): (fields: seq<string>)
    ensures |fields| == |ids|
    ensures forall i :: 0 <= i < |ids| ==> fields[i] == Dec(ids[i])
  {
    seq(|ids|, i requires 0 <= i < |ids| => Dec(ids[i]))
  }

  function Format(ids: seq<JobId>): string {
    Join(Fields(ids), ',')
  }

  /** The ids in a list of fields: blank fields are skipped, a bad one spoils the list. */
  function FieldIds(fields: seq<string>): Option<seq<JobId>> {
    if fields == [] then Some([])
    else
      var last := TrimSpace(fields[|fields| - 1]);
      match FieldIds(fields[..|fields| - 1])
      case None => None
      case Some(ids) =>
        if last == "" then Some(ids)
        else
          match ParseUint(last)
          case None => None
          case Some(id) => Some(ids + [id])
  }

  /** The ids an annotation value names; None when it is absent, empty or malformed. */
  function Parse(raw: string): (r: Option<seq<JobId>>) {
    if raw == "" then None
    else
      match FieldIds(Split(raw, ','))
      case None => None
      case Some(ids) => if ids == [] then None else Some(ids)
  }

  lemma {:induction false} FieldIdsPrefixFails(fields: seq<string>, k: nat)
    requires k <= |fields| && FieldIds(fields[..k]).None?
    ensures FieldIds(fields).None?
    decreases |fields| - k
  {
    if k == |fields| {
      assert fields[..k] == fields;
    } else {
      assert fields[..k + 1][..|fields[..k + 1]| - 1] == fields[..k];
      FieldIdsPrefixFails(fields, k + 1);
    }
  }

  method ParseJobIDs(raw: string) returns (jobids: seq<JobId>, ok: bool)
    ensures ok == Parse(raw).Some?
    ensures jobids == if ok then Parse(raw).value else []
  {
    if raw == "" {
      return [], false;
    }
    jobids := [];
    var fields := Split(raw, ',');
    for i := 0 to |fields|
      invariant FieldIds(fields[..i]) == Some(jobids)
    {
      assert fields[..i + 1][..|fields[..i + 1]| - 1] == fields[..i];
      var part := TrimSpace(fields[i]);
      if part == "" {
        continue;
      }
      var id := ParseUint(part);
      if id.None? {
        FieldIdsPrefixFails(fields, i + 1);
        return [], false;
      }
      jobids := jobids + [id.value];
    }
    assert fields[..|fields|] == fields;
    ok := jobids != [];
  }

  method FormatJobIDs(jobids: seq<JobId>) returns (s: string)
    ensures s == Format(jobids)
  {
    var parts: seq<string> := [];
    for i := 0 to |jobids|
      invariant |parts| == i && forall j :: 0 <= j < i ==> parts[j] == Dec(jobids[j])
    {
      parts := parts + [Dec(jobids[i])];
    }
    assert parts == Fields(jobids);
    s := Join(parts, ',');
  }

  /** A field that names an id: decimal digits, in range, spaces around them. */
  predicate NamesId(field: string) {
    TrimSpace(field) != "" && AllDigits(TrimSpace(field)) && DigitsValue(TrimSpace(field)) <= 0xFFFF_FFFF_FFFF_FFFF
  }

  /** How many fields are not blank. */
  function Filled(fields: seq<string>): nat {
    |set i | 0 <= i < |fields| && TrimSpace(fields[i]) != ""|
  }

  lemma FilledMore(fields: seq<string>, n: nat)
    requires |fields| == n + 1
    ensures Filled(fields) == Filled(fields[..n]) + if TrimSpace(fields[n]) != "" then 1 else 0
  {
    var before := set i | 0 <= i < n && TrimSpace(fields[..n][i]) != "";
    var all := set i | 0 <= i < |fields| && TrimSpace(fields[i]) != "";
    assert forall i :: 0 <= i < n ==> fields[..n][i] == fields[i];
    assert n !in before && all == before + if TrimSpace(fields[n]) != "" then {n} else {};
  }

  lemma {:induction false} FieldsRead(fields: seq<string>)
    ensures FieldIds(fields).Some? <==> forall f :: f in fields ==> TrimSpace(f) == "" || NamesId(f)
    ensures FieldIds(fields).Some? ==>
              && |FieldIds(fields).value| == Filled(fields)
              && forall id :: id in FieldIds(fields).value <==> exists i :: 0 <= i < |fields| && NamesId(fields[i]) && DigitsValue(TrimSpace(fields[i])) == id
  {
    if fields != [] {
      var n := |fields| - 1;
      FieldsRead(fields[..n]);
      FilledMore(fields, n);
      assert forall i :: 0 <= i < n ==> fields[..n][i] == fields[i];
      assert forall f :: f in fields <==> f in fields[..n] || f == fields[n];
    }
  }

  /**
   * An annotation is read exactly when it has a field that is not blank and every such
   * field names an id; what is read is the ids named, one for each.
   */
  lemma ReadsIff(raw: string)
    ensures var fields := Split(raw, ',');
            && (Parse(raw).Some? <==> raw != "" && Filled(fields) > 0 && forall f :: f in fields ==> TrimSpace(f) == "" || NamesId(f))
            && (Parse(raw).Some? ==>
                  && |Parse(raw).value| == Filled(fields)
                  && forall id :: id in Parse(raw).value <==> exists i :: 0 <= i < |fields| && NamesId(fields[i]) && DigitsValue(TrimSpace(fields[i])) == id)
  {
    FieldsRead(Split(raw, ','));
  }

  // ---- what the codec promises ----

  /** A field as a hand-edited annotation may hold it: an id or nothing, padded. */
  datatype PaddedField = PaddedField(left: string, id: Option<JobId>, right: string) {
    predicate Valid() {
      AllSpace(left) && AllSpace(right) && (id.Some? ==> id.value <= MAX_UINT64)
    }

    function Text(): string {
      left + (match id case None => "" case Some(n) => Dec(n)) + right
    }
  }

  function FieldTexts(fields: seq<PaddedField>): (r: seq<string>)
    ensures |r| == |fields|
  {
    seq(|fields|, i requires 0 <= i < |fields| => fields[i].Text())
  }

  /** The ids the fields hold, blank ones dropped. */
  function Ids(fields: seq<PaddedField>): seq<JobId> {
    if fields == [] then []
    else
      var last := fields[|fields| - 1];
      Ids(fields[..|fields| - 1]) + (if last.id.Some? then [last.id.value] else [])
  }

  lemma DigitsAreSolid(n: nat)
    ensures ',' !in Dec(n) && !IsSpace(Dec(n)[0]) && !IsSpace(Dec(n)[|Dec(n)| - 1])
  {
    assert IsDigit(Dec(n)[0]) && IsDigit(Dec(n)[|Dec(n)| - 1]);
  }

  lemma PaddedFieldParses(f: PaddedField)
    requires f.Valid()
    ensures ',' !in f.Text()
    ensures TrimSpace(f.Text()) == match f.id case None => "" case Some(n) => Dec(n)
    ensures f.id.Some? ==> ParseUint(Dec(f.id.value)) == f.id
  {
    if f.id.Some? {
      DigitsAreSolid(f.id.value);
      DecValue(f.id.value);
      TrimPadded(f.left, Dec(f.id.value), f.right);
    } else {
      TrimPadded(f.left, "", f.right);
    }
  }

  lemma {:induction false} PaddedFieldIds(fields: seq<PaddedField>)
    requires forall f :: f in fields ==> f.Valid()
    ensures FieldIds(FieldTexts(fields)) == Some(Ids(fields))
  {
    if fields != [] {
      var init := fields[..|fields| - 1];
      PaddedFieldIds(init);
      assert FieldTexts(fields)[..|fields| - 1] == FieldTexts(init);
      PaddedFieldParses(fields[|fields| - 1]);
      assert FieldTexts(fields)[|fields| - 1] == fields[|fields| - 1].Text();
      assert Ids(init) + [] == Ids(init);
    }
  }

  lemma JoinEmptyOnlyBlank(parts: seq<string>, sep: char)
    requires parts != [] && Join(parts, sep) == ""
    ensures parts == [""]
  {
    assert |parts| > 1 ==> |Join(parts, sep)| > 0;
  }

  /**
   * White space around ids and empty fields between them change nothing: the
   * annotation reads as the list of its ids, or as no list when there are none.
   */
  lemma ParseIgnoresPadding(fields: seq<PaddedField>)
    requires fields != [] && forall f :: f in fields ==> f.Valid()
    ensures Parse(Join(FieldTexts(fields), ',')) == if Ids(fields) == [] then None else Some(Ids(fields))
  {
    var texts := FieldTexts(fields);
    forall t | t in texts ensures ',' !in t {
      var i :| 0 <= i < |texts| && texts[i] == t;
      PaddedFieldParses(fields[i]);
    }
    SplitJoin(texts, ',');
    PaddedFieldIds(fields);
    if Join(texts, ',') == "" {
      JoinEmptyOnlyBlank(texts, ',');
      assert FieldIds(texts[..|texts| - 1]) == Some([]);
    }
  }

  function Plain(ids: seq<JobId>): (fields: seq<PaddedField>)
    ensures |fields| == |ids|
  {
    seq(|ids|, i requires 0 <= i < |ids| => PaddedField("", Some(ids[i]), ""))
  }

  lemma {:induction false} PlainIds(ids: seq<JobId>)
    ensures Ids(Plain(ids)) == ids
  {
    if ids != [] {
      PlainIds(ids[..|ids| - 1]);
      assert Plain(ids)[..|ids| - 1] == Plain(ids[..|ids| - 1]);
      assert ids == ids[..|ids| - 1] + [ids[|ids| - 1]];
    }
  }

  /** Reading back what was recorded gives the same ids, for every non-empty list. */
  lemma ParseFormat(ids: seq<JobId>)
    requires ids != [] && Uint64s(ids)
    ensures Parse(Format(ids)) == Some(ids)
  {
    PlainIds(ids);
    forall i | 0 <= i < |ids| ensures FieldTexts(Plain(ids))[i] == Fields(ids)[i] {
      assert "" + Dec(ids[i]) + "" == Dec(ids[i]);
    }
    assert FieldTexts(Plain(ids)) == Fields(ids);
    ParseIgnoresPadding(Plain(ids));
  }

  lemma {:induction false} FieldIdsInRange(fields: seq<string>)
    ensures FieldIds(fields).Some? ==> Uint64s(FieldIds(fields).value)
  {
    if fields != [] {
      FieldIdsInRange(fields[..|fields| - 1]);
    }
  }

  /** Whatever an annotation is read as, writing that and reading it again agrees. */
  lemma ParseStable(raw: string)
    requires Parse(raw).Some?
    ensures Parse(raw).value != [] && Parse(Format(Parse(raw).value)) == Parse(raw)
  {
    FieldIdsInRange(Split(raw, ','));
    ParseFormat(Parse(raw).value);
  }
}
