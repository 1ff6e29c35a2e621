/** JSON Pointers, as section 4 of RFC 6901 has them. */
module Pointers {
  import opened Options
  import opened Text

  /** Section 4 of RFC 6901, as escapeJSONPointer does it: "~" first, then "/". */
  function Escape(s: string): string {
    ReplaceAll(ReplaceAll(s, "~", "~0"), "/", "~1")
  }

  /** Decoding undoes the two replacements in the opposite order. */
  function Unescape(s: string): string {
    ReplaceAll(ReplaceAll(s, "~1", "/"), "~0", "~")
  }

  lemma {:induction false} ReplaceOne(s: string, c: char, new_: string)
    requires s != ""
    ensures ReplaceAll(s, [c], new_) == (if s[0] == c then new_ else [s[0]]) + ReplaceAll(s[1..], [c], new_)
  {
    assert s[..1] == [s[0]];
  }

  /** Escape works character by character. */
  lemma {:induction false} EscapeStep(s: string)
    requires s != ""
    ensures Escape(s) == (if s[0] == '~' then "~0" else if s[0] == '/' then "~1" else [s[0]]) + Escape(s[1..])
  {
    var t := ReplaceAll(s, "~", "~0");
    var rest := ReplaceAll(s[1..], "~", "~0");
    ReplaceOne(s, '~', "~0");
    ReplaceOne(t, '/', "~1");
    if s[0] == '~' {
      assert t[1..] == "0" + rest;
      ReplaceOne(t[1..], '/', "~1");
      assert t[1..][1..] == rest;
    } else {
      assert t[1..] == rest;
    }
  }

  /** An escaped token holds no slash, and each tilde starts an escape. */
  lemma {:induction false} EscapedShape(s: string)
    ensures '/' !in Escape(s)
    ensures forall i :: 0 <= i < |Escape(s)| && Escape(s)[i] == '~' ==> i + 1 < |Escape(s)| && Escape(s)[i + 1] in "01"
    ensures Escape(s) != "" ==> Escape(s)[0] !in "01" || s[0] == Escape(s)[0]
  {
    if s != "" {
      EscapeStep(s);
      EscapedShape(s[1..]);
    }
  }

  /** Turning "~1" back into "/" leaves what escaping "~" alone gave. */
  lemma {:induction false} UnescapeSlashes(s: string)
    ensures ReplaceAll(Escape(s), "~1", "/") == ReplaceAll(s, "~", "~0")
  {
    if s != "" {
      EscapeStep(s);
      ReplaceOne(s, '~', "~0");
      UnescapeSlashes(s[1..]);
      var e, rest := Escape(s), Escape(s[1..]);
      if s[0] == '~' {
        assert e[..2] == "~0" && e[1..] == "0" + rest;
        assert e[1..][..1] == "0" && e[1..][1..] == rest;
        assert |rest| >= 1 ==> e[1..][..2][0] == '0';
      } else if s[0] == '/' {
        assert e[..2] == "~1" && e[2..] == rest;
      } else {
        assert e[1..] == rest;
        assert |e| >= 2 ==> e[..2][0] == s[0];
      }
    }
  }

  lemma {:induction false} UnescapeTildes(s: string)
    ensures ReplaceAll(ReplaceAll(s, "~", "~0"), "~0", "~") == s
  {
    if s != "" {
      ReplaceOne(s, '~', "~0");
      UnescapeTildes(s[1..]);
      var t, rest := ReplaceAll(s, "~", "~0"), ReplaceAll(s[1..], "~", "~0");
      if s[0] == '~' {
        assert t[..2] == "~0" && t[2..] == rest;
      } else {
        assert t[1..] == rest;
        assert |t| >= 2 ==> t[..2][0] == s[0];
      }
      assert s == [s[0]] + s[1..];
    }
  }

  /** Every key survives the trip through a pointer. */
  lemma UnescapeEscape(s: string)
    ensures Unescape(Escape(s)) == s
  {
    UnescapeSlashes(s);
    UnescapeTildes(s);
  }

  lemma {:induction false} PlainEscape(s: string)
    requires '~' !in s && '/' !in s
    ensures Escape(s) == s
  {
    if s != "" {
      EscapeStep(s);
      PlainEscape(s[1..]);
      assert s == [s[0]] + s[1..];
    }
  }

  /** The pointer to a path of reference tokens. */
  function Pointer(path: seq<string>): string {
    if path == [] then "" else "/" + Escape(path[0]) + Pointer(path[1..])
  }

  function UnescapeAll(tokens: seq<string>): seq<string> {
    if tokens == [] then [] else [Unescape(tokens[0])] + UnescapeAll(tokens[1..])
  }

  function ParsePointer(s: string): Option<seq<string>> {
    if s == "" then Some([])
    else if s[0] != '/' then None
    else Some(UnescapeAll(Split(s[1..], '/')))
  }

  lemma UnescapeFirst(head: string, parts: seq<string>)
    ensures UnescapeAll([head] + parts) == [Unescape(head)] + UnescapeAll(parts)
  {
    assert ([head] + parts)[1..] == parts;
  }

  lemma PointerTail(path: seq<string>, rest: string)
    requires path != [] && Pointer(path[1..]) == "/" + rest
    ensures Pointer(path)[1..] == Escape(path[0]) + ['/'] + rest
  {
  }

  lemma {:induction false} PointerTokens(path: seq<string>)
    requires path != []
    ensures Pointer(path) != "" && Pointer(path)[0] == '/'
    ensures UnescapeAll(Split(Pointer(path)[1..], '/')) == path
  {
    var head := Escape(path[0]);
    EscapedShape(path[0]);
    UnescapeEscape(path[0]);
    assert path == [path[0]] + path[1..];
    if |path| == 1 {
      assert Pointer(path)[1..] == head;
      SplitNoSep(head, '/');
      UnescapeFirst(head, []);
      assert [head] + [] == [head];
    } else {
      PointerTokens(path[1..]);
      var rest := Pointer(path[1..])[1..];
      PointerTail(path, rest);
      SplitAtSep(head, '/', rest);
      UnescapeFirst(head, Split(rest, '/'));
    }
  }

  /** Parsing undoes rendering, whatever characters the tokens hold. */
  lemma ParsePointerOf(path: seq<string>)
    ensures ParsePointer(Pointer(path)) == Some(path)
  {
    if path != [] {
      PointerTokens(path);
    }
  }

  /** Section 4 of RFC 6901: an array index is a decimal without leading zeros. */
  function Index(token: string): Option<nat> {
    if token != "" && AllDigits(token) && (|token| > 1 ==> token[0] != '0') then Some(DigitsValue(token)) else None
  }

  lemma IndexOfDec(n: nat)
    ensures Index(Dec(n)) == Some(n)
    ensures '~' !in Dec(n) && '/' !in Dec(n) && Dec(n) != "-"
  {
    DecValue(n);
    assert Dec(n)[0] in Dec(n);
  }
}
