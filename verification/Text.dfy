/** Strings as the harness trims, joins and searches them. */
module Text {

  /** The characters `str::trim` removes: Unicode's White_Space property. */
  predicate IsWhitespace(c: char) {
    var n := c as int;
    9 <= n <= 13 || n == 32 || n == 0x85 || n == 0xA0 || n == 0x1680 || 0x2000 <= n <= 0x200A
    || n == 0x2028 || n == 0x2029 || n == 0x202F || n == 0x205F || n == 0x3000
  }

  function TrimStart(s: string): string {
    if |s| > 0 && IsWhitespace(s[0]) then TrimStart(s[1..]) else s
  }

  function TrimEnd(s: string): string {
    if |s| > 0 && IsWhitespace(s[|s| - 1]) then TrimEnd(s[..|s| - 1]) else s
  }

  function Trim(s: string): string {
    TrimEnd(TrimStart(s))
  }

  predicate Blank(s: string) {
    forall i :: 0 <= i < |s| ==> IsWhitespace(s[i])
  }

  /** Decimal digits. */
  function Digits(n: nat): string {
    if n < 10 then [('0' as int + n) as char] else Digits(n / 10) + [('0' as int + n % 10) as char]
  }

  function Join(parts: seq<string>, separator: string): string {
    if |parts| == 0 then ""
    else if |parts| == 1 then parts[0]
    else parts[0] + separator + Join(parts[1..], separator)
  }

  lemma {:induction false} TrimStartBlank(s: string)
    ensures TrimStart(s) == "" <==> Blank(s)
    ensures TrimStart(s) != "" ==> !IsWhitespace(TrimStart(s)[0])
    ensures |TrimStart(s)| <= |s|
  {
    if |s| > 0 && IsWhitespace(s[0]) {
      TrimStartBlank(s[1..]);
      assert Blank(s) <==> Blank(s[1..]) by {
        assert forall i :: 0 < i < |s| ==> s[i] == s[1..][i - 1];
      }
    }
  }

  lemma {:induction false} TrimEndBlank(s: string)
    ensures TrimEnd(s) == "" <==> Blank(s)
    ensures TrimEnd(s) != "" ==> !IsWhitespace(TrimEnd(s)[|TrimEnd(s)| - 1])
    ensures TrimEnd(s) <= s
  {
    if |s| > 0 && IsWhitespace(s[|s| - 1]) {
      TrimEndBlank(s[..|s| - 1]);
      assert Blank(s) <==> Blank(s[..|s| - 1]);
    }
  }

  lemma {:induction false} TrimStartConcat(a: string, b: string)
    ensures TrimStart(a + b) == if Blank(a) then TrimStart(b) else TrimStart(a) + b
  {
    if a == "" {
      assert a + b == b;
    } else if IsWhitespace(a[0]) {
      assert (a + b)[1..] == a[1..] + b;
      assert Blank(a) <==> Blank(a[1..]) by {
        assert forall i :: 0 < i < |a| ==> a[i] == a[1..][i - 1];
      }
      TrimStartConcat(a[1..], b);
    }
  }

  lemma {:induction false} TrimEndConcat(a: string, b: string)
    ensures TrimEnd(a + b) == if Blank(b) then TrimEnd(a) else a + TrimEnd(b)
  {
    if b == "" {
      assert a + b == a;
    } else if IsWhitespace(b[|b| - 1]) {
      assert (a + b)[..|a + b| - 1] == a + b[..|b| - 1];
      assert Blank(b) <==> Blank(b[..|b| - 1]);
      TrimEndConcat(a, b[..|b| - 1]);
    } else {
      assert (a + b)[|a + b| - 1] == b[|b| - 1];
    }
  }

  /** Trimming both ends does not depend on which end goes first. */
  lemma {:induction false} TrimsCommute(s: string)
    ensures TrimStart(TrimEnd(s)) == TrimEnd(TrimStart(s))
    decreases |s|
  {
    if |s| > 0 && IsWhitespace(s[0]) {
      TrimEndConcat(s[..1], s[1..]);
      assert s == s[..1] + s[1..];
      TrimsCommute(s[1..]);
      if Blank(s[1..]) {
        assert TrimEnd(s[..1]) == "" by { TrimEndBlank(s[..1]); }
        TrimEndBlank(s[1..]);
        assert TrimStart("") == "";
      } else {
        assert TrimEnd(s) == s[..1] + TrimEnd(s[1..]);
        TrimStartConcat(s[..1], TrimEnd(s[1..]));
      }
    } else if |s| > 0 {
      TrimEndBlank(s);
    }
  }

  lemma {:induction false} TrimFacts(s: string)
    ensures Trim(s) == "" <==> Blank(s)
    ensures Trim(s) != "" ==> !IsWhitespace(Trim(s)[0])
    ensures Trim(TrimEnd(s)) == Trim(s) && Trim(TrimStart(s)) == Trim(s) && Trim(Trim(s)) == Trim(s)
  {
    TrimStartBlank(s);
    TrimEndBlank(TrimStart(s));
    TrimsCommute(s);
    TrimEndBlank(s);
    TrimsCommute(TrimStart(s));
    assert TrimStart(TrimStart(s)) == TrimStart(s);
    assert TrimEnd(TrimEnd(s)) == TrimEnd(s);
    TrimEndBlank(TrimStart(s));
    TrimsCommute(TrimEnd(s));
    assert Blank(TrimStart(s)) <==> TrimStart(s) == "" by {
      if TrimStart(s) != "" { assert !IsWhitespace(TrimStart(s)[0]); }
    }
    var t := TrimEnd(TrimStart(s));
    assert TrimStart(t) == t by { if t != "" { assert t[0] == TrimStart(s)[0]; } }
    assert TrimEnd(t) == t;
  }

  // ---- Occurrences ----

  predicate OccursAt(part: string, text: string, i: nat) {
    i + |part| <= |text| && text[i..i + |part|] == part
  }

  ghost predicate Occurs(part: string, text: string) {
    exists i: nat :: OccursAt(part, text, i)
  }

  lemma OccursBetween(before: string, part: string, after: string)
    ensures Occurs(part, before + part + after)
  {
    assert OccursAt(part, before + part + after, |before|);
  }

  lemma OccursWithin(part: string, before: string, text: string, after: string)
    requires Occurs(part, text)
    ensures Occurs(part, before + text + after)
  {
    var i: nat :| OccursAt(part, text, i);
    assert (before + text + after)[|before| + i..|before| + i + |part|] == text[i..i + |part|];
    assert OccursAt(part, before + text + after, |before| + i);
  }

  lemma OccursTwice(part: string, middle: string, text: string)
    requires Occurs(part, middle) && Occurs(middle, text)
    ensures Occurs(part, text)
  {
    var i: nat :| OccursAt(middle, text, i);
    assert text == text[..i] + middle + text[i + |middle|..];
    OccursWithin(part, text[..i], middle, text[i + |middle|..]);
  }

  lemma {:induction false} OccursInJoin(parts: seq<string>, separator: string, k: nat)
    requires k < |parts|
    ensures Occurs(parts[k], Join(parts, separator))
  {
    if |parts| == 1 {
      assert parts[0] == "" + parts[0] + "";
      OccursBetween("", parts[0], "");
    } else if k == 0 {
      var rest := separator + Join(parts[1..], separator);
      assert Join(parts, separator) == "" + parts[0] + rest;
      OccursBetween("", parts[0], rest);
    } else {
      OccursInJoin(parts[1..], separator, k - 1);
      var rest := Join(parts[1..], separator);
      assert Join(parts, separator) == parts[0] + separator + rest + "";
      OccursWithin(parts[k], parts[0] + separator, rest, "");
    }
  }

  /** Neither end of the text is whitespace. */
  predicate Solid(s: string) {
    s != "" && !IsWhitespace(s[0]) && !IsWhitespace(s[|s| - 1])
  }

  lemma {:induction false} OccursAfterTrimStart(part: string, text: string)
    requires Solid(part) && Occurs(part, text)
    ensures Occurs(part, TrimStart(text))
  {
    if |text| > 0 && IsWhitespace(text[0]) {
      var i: nat :| OccursAt(part, text, i);
      assert part[0] == text[i];
      assert text[1..][i - 1..i - 1 + |part|] == text[i..i + |part|];
      assert OccursAt(part, text[1..], i - 1);
      OccursAfterTrimStart(part, text[1..]);
    }
  }

  lemma {:induction false} OccursAfterTrimEnd(part: string, text: string)
    requires Solid(part) && Occurs(part, text)
    ensures Occurs(part, TrimEnd(text))
  {
    if |text| > 0 && IsWhitespace(text[|text| - 1]) {
      var i: nat :| OccursAt(part, text, i);
      assert part[|part| - 1] == text[i + |part| - 1];
      assert text[..|text| - 1][i..i + |part|] == text[i..i + |part|];
      assert OccursAt(part, text[..|text| - 1], i);
      OccursAfterTrimEnd(part, text[..|text| - 1]);
    }
  }

  lemma TrimIsSolid(s: string)
    requires Trim(s) != ""
    ensures Solid(Trim(s))
  {
    TrimFacts(s);
    TrimEndBlank(TrimStart(s));
  }
}
