/** Optional values, shared by every module. */
module Options {
  datatype Option<+T> = None | Some(value: T)
}

/**
 * The string operations the sources lean on: decimal rendering and parsing
 * (strconv), splitting and joining (strings), trimming and replacement.
 */
module Text {
  import opened Options

  // ---- decimal numbers ----

  predicate IsDigit(c: char) {
    '0' <= c <= '9'
  }

  function DigitChar(d: nat): (c: char)
    requires d < 10
    ensures IsDigit(c) && DigitValue(c) == d
  {
    ('0' as int + d) as char
  }

  function DigitValue(c: char): (d: nat)
    requires IsDigit(c)
    ensures d < 10
  {
    c as int - '0' as int
  }

  /** The rendering of a natural number in base ten, as %d and FormatUint give it. */
  function Dec(n: nat): (s: string)
    ensures |s| > 0 && forall c :: c in s ==> IsDigit(c)
    ensures |s| > 1 ==> s[0] != '0'
  {
    if n < 10 then [DigitChar(n)]
    else
      DecLeading(n);
      Dec(n / 10) + [DigitChar(n % 10)]
  }

  lemma {:induction false} DecLeading(n: nat)
    requires n >= 10
    ensures Dec(n / 10)[0] != '0'
    decreases n, 0
  {
    if n / 10 < 10 {
      assert Dec(n / 10) == [DigitChar(n / 10)];
    } else {
      DecLeading(n / 10);
    }
  }

  predicate AllDigits(s: string) {
    forall i :: 0 <= i < |s| ==> IsDigit(s[i])
  }

  /** The value of a digit string; leading zeros are allowed, as in ParseUint. */
  function DigitsValue(s: string): nat
    requires AllDigits(s)
  {
    if s == "" then 0 else DigitsValue(s[..|s| - 1]) * 10 + DigitValue(s[|s| - 1])
  }

  lemma {:induction false} DecValue(n: nat)
    ensures AllDigits(Dec(n)) && DigitsValue(Dec(n)) == n
  {
    if n < 10 {
      assert Dec(n)[..|Dec(n)| - 1] == "";
    } else {
      DecValue(n / 10);
      assert Dec(n)[..|Dec(n)| - 1] == Dec(n / 10);
    }
  }

  lemma {:induction false} DecInjective(m: nat, n: nat)
    requires Dec(m) == Dec(n)
    ensures m == n
  {
    DecValue(m);
    DecValue(n);
  }

  const MAX_INT64: int := 0x7FFF_FFFF_FFFF_FFFF

  /** strconv.Atoi on a 64-bit platform: an optional sign, then digits. */
  function Atoi(s: string): Option<int> {
    var signed := s != "" && (s[0] == '+' || s[0] == '-');
    var digits := if signed then s[1..] else s;
    if digits == "" || !AllDigits(digits) then None
    else
      var n: int := DigitsValue(digits);
      var v := if signed && s[0] == '-' then -n else n;
      if -MAX_INT64 - 1 <= v <= MAX_INT64 then Some(v) else None
  }

  /** strconv.Itoa for a count. */
  lemma AtoiOfDec(n: nat)
    requires n <= MAX_INT64
    ensures Atoi(Dec(n)) == Some(n)
  {
    DecValue(n);
    assert Dec(n)[0] in Dec(n);
  }

  /** Go's conversion to int32 keeps the low 32 bits. */
  function Int32(v: int): (r: int)
    ensures -0x8000_0000 <= r < 0x8000_0000
    ensures -0x8000_0000 <= v < 0x8000_0000 ==> r == v
  {
    (v + 0x8000_0000) % 0x1_0000_0000 - 0x8000_0000
  }

  // ---- splitting and joining ----

  /** strings.Split for a one-character separator. */
  function Split(s: string, sep: char): (parts: seq<string>)
    ensures |parts| > 0
  {
    if s == "" then [""]
    else
      var rest := Split(s[1..], sep);
      if s[0] == sep then [""] + rest else [[s[0]] + rest[0]] + rest[1..]
  }

  /** strings.Join for a one-character separator. */
  function Join(parts: seq<string>, sep: char): string {
    if parts == [] then ""
    else if |parts| == 1 then parts[0]
    else parts[0] + [sep] + Join(parts[1..], sep)
  }

  lemma {:induction false} SplitNoSep(s: string, sep: char)
    requires sep !in s
    ensures Split(s, sep) == [s]
  {
    if s != "" {
      SplitNoSep(s[1..], sep);
      assert s == [s[0]] + s[1..];
    }
  }

  lemma {:induction false} SplitAtSep(s: string, sep: char, rest: string)
    requires sep !in s
    ensures Split(s + [sep] + rest, sep) == [s] + Split(rest, sep)
  {
    var t := s + [sep] + rest;
    if s == "" {
      assert t[1..] == rest;
    } else {
      SplitAtSep(s[1..], sep, rest);
      assert t[1..] == s[1..] + [sep] + rest;
      assert s == [s[0]] + s[1..];
    }
  }

  /** Splitting undoes joining when no part holds the separator. */
  lemma {:induction false} SplitJoin(parts: seq<string>, sep: char)
    requires parts != []
    requires forall p :: p in parts ==> sep !in p
    ensures Split(Join(parts, sep), sep) == parts
  {
    if |parts| == 1 {
      SplitNoSep(parts[0], sep);
      assert parts == [parts[0]];
    } else {
      SplitJoin(parts[1..], sep);
      SplitAtSep(parts[0], sep, Join(parts[1..], sep));
      assert parts == [parts[0]] + parts[1..];
    }
  }

  // ---- trimming ----

  /** unicode.IsSpace: the White_Space characters strings.TrimSpace removes. */
  predicate IsSpace(c: char) {
    || 9 <= c as int <= 13
    || c as int in {0x20, 0x85, 0xA0, 0x1680, 0x2028, 0x2029, 0x202F, 0x205F, 0x3000}
    || 0x2000 <= c as int <= 0x200A
  }

  predicate AllSpace(s: string) {
    forall i :: 0 <= i < |s| ==> IsSpace(s[i])
  }

  function TrimLeft(s: string): string {
    if s != "" && IsSpace(s[0]) then TrimLeft(s[1..]) else s
  }

  function TrimRight(s: string): string {
    if s != "" && IsSpace(s[|s| - 1]) then TrimRight(s[..|s| - 1]) else s
  }

  function TrimSpace(s: string): string {
    TrimRight(TrimLeft(s))
  }

  lemma {:induction false} TrimLeftPadding(pad: string, body: string)
    requires AllSpace(pad)
    ensures TrimLeft(pad + body) == TrimLeft(body)
  {
    if pad == "" {
      assert pad + body == body;
    } else {
      TrimLeftPadding(pad[1..], body);
      assert (pad + body)[1..] == pad[1..] + body;
    }
  }

  lemma {:induction false} TrimRightPadding(body: string, pad: string)
    requires AllSpace(pad)
    ensures TrimRight(body + pad) == TrimRight(body)
  {
    if pad == "" {
      assert body + pad == body;
    } else {
      TrimRightPadding(body, pad[..|pad| - 1]);
      assert (body + pad)[..|body + pad| - 1] == body + pad[..|pad| - 1];
    }
  }

  /** Surrounding white space goes, and a body with solid ends stays. */
  lemma TrimPadded(left: string, body: string, right: string)
    requires AllSpace(left) && AllSpace(right)
    requires body != "" ==> !IsSpace(body[0]) && !IsSpace(body[|body| - 1])
    ensures TrimSpace(left + body + right) == body
  {
    TrimLeftPadding(left, body + right);
    assert left + body + right == left + (body + right);
    if body == "" {
      TrimLeftPadding(right, "");
      assert right + "" == right && "" + right == right;
      assert TrimLeft("") == "";
    } else {
      assert TrimLeft(body + right) == body + right;
      TrimRightPadding(body, right);
    }
  }

  // ---- replacement ----

  /** strings.ReplaceAll: non-overlapping occurrences, left to right. */
  function ReplaceAll(s: string, old_: string, new_: string): string
    requires old_ != ""
    decreases |s|
  {
    if |s| < |old_| then s
    else if s[..|old_|] == old_ then new_ + ReplaceAll(s[|old_|..], old_, new_)
    else [s[0]] + ReplaceAll(s[1..], old_, new_)
  }
}
