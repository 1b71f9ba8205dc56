/** Exactly which streams show how they were cut into non-empty chunks (bt-providers, sse.rs). */
module SseChunks {
  import opened Wrappers
  import opened Text
  import opened Sse

  /** What one push of a stream leaves in the buffer. */
  function Pending(s: string): string {
    Feed(Replace(s)).1
  }

  predicate Triple(s: string, i: nat) {
    i + 2 < |s| && s[i] == '\r' && s[i + 1] == '\r' && s[i + 2] == '\n'
  }

  predicate EndsIn(s: string, c: char) {
    s != "" && s[|s| - 1] == c
  }

  /** A `"\r\r\n"` that some cut right after it makes visible. */
  predicate Fragile(s: string, i: nat) {
    Triple(s, i) && i + 3 < |s| && (s[i + 3] != '\n' || EndsIn(Pending(s[..i]), '\n'))
  }

  predicate Calm(s: string) {
    forall i :: 0 <= i < |s| ==> !Fragile(s, i)
  }

  /** Each `"\r\r\n"` is followed by a newline, or ends the stream. */
  predicate Hushed(s: string) {
    forall i :: 0 <= i < |s| && Triple(s, i) && i + 3 < |s| ==> s[i + 3] == '\n'
  }

  predicate NoBreak(s: string) {
    forall k :: 0 <= k < |s| - 1 ==> !(s[k] == '\n' && s[k + 1] == '\n')
  }

  // ---- Normalising a concatenation ----

  lemma ReplaceNil()
    ensures Replace("") == ""
  {
  }

  lemma Unfold(a: string)
    requires a != ""
    ensures Replace(a)
         == if |a| > 1 && a[0] == '\r' && a[1] == '\n' then ['\n'] + Replace(a[2..]) else [a[0]] + Replace(a[1..])
  {
  }

  lemma LastOf(c: char, rest: string)
    ensures EndsIn([c] + rest, '\r') <==> if rest == "" then c == '\r' else EndsIn(rest, '\r')
  {
  }

  lemma {:induction false} LastKept(a: string)
    ensures a != "" ==> Replace(a) != "" && (EndsIn(Replace(a), '\r') <==> EndsIn(a, '\r'))
    decreases |a|
  {
    hide Replace, EndsIn;
    if a != "" {
      Unfold(a);
      ReplaceNil();
      var n := if |a| > 1 && a[0] == '\r' && a[1] == '\n' then 2 else 1;
      LastKept(a[n..]);
      LastOf(if n == 2 then '\n' else a[0], Replace(a[n..]));
      assert a == (if n == 2 then [a[0]] else []) + ([a[n - 1]] + a[n..]);
      LastOf(a[n - 1], a[n..]);
      LastOf(a[0], a[1..]);
      assert a == [a[0]] + a[1..] && (n == 2 ==> a[1..] == [a[1]] + a[2..]);
    }
  }

  /** Replacing a concatenation replaces the parts, but for a pair that straddles the cut. */
  lemma {:induction false} ReplaceJoin(a: string, b: string)
    requires !(EndsIn(a, '\r') && b != "" && b[0] == '\n')
    ensures Replace(a + b) == Replace(a) + Replace(b)
    decreases |a|
  {
    hide Replace;
    ReplaceNil();
    if a == "" {
      assert a + b == b;
    } else {
      Unfold(a);
      Unfold(a + b);
      var n := if |a| > 1 && a[0] == '\r' && a[1] == '\n' then 2 else 1;
      assert (a + b)[n..] == a[n..] + b;
      ReplaceJoin(a[n..], b);
    }
  }

  lemma ReplaceStraddle(a: string, b: string)
    requires EndsIn(a, '\r') && b != "" && b[0] == '\n'
    ensures EndsIn(Replace(a), '\r')
    ensures Replace(a + b) == Replace(a)[..|Replace(a)| - 1] + ("\n" + Replace(b[1..]))
  {
    LastKept(a);
    hide Replace;
    var c, pair := a[..|a| - 1], "\r" + b;
    assert a == c + "\r" && a + b == c + pair;
    ReplaceJoin(c, "\r");
    ReplaceJoin(c, pair);
    ReturnAlone();
    Unfold(pair);
    assert pair[2..] == b[1..];
    assert Replace(a)[..|Replace(a)| - 1] == Replace(c);
  }

  lemma ReturnAlone()
    ensures Replace("\r") == "\r" && Replace("\r\n") == "\n" && Replace("\r\r\n") == "\r\n"
  {
    assert "\r"[1..] == "" && "\r\n"[2..] == "" && "\r\r\n"[1..] == "\r\n";
    assert Replace("\r\n") == "\n" + Replace("");
    assert Replace("\r\r\n") == "\r" + Replace("\r\n");
  }

  lemma {:induction false} CleanIsFixed(a: string)
    requires NoCrLf(a)
    ensures Replace(a) == a
  {
    if a != "" {
      assert forall i :: 0 <= i < |a| - 1 ==> a[1..][i] == a[i + 1];
      CleanIsFixed(a[1..]);
    }
  }

  // ---- Where a carriage return can survive ----

  /** Each `"\r\n"` but one at the very end is followed by a newline. */
  predicate Followed(x: string) {
    forall j :: 0 <= j < |x| - 2 && x[j] == '\r' && x[j + 1] == '\n' ==> x[j + 2] == '\n'
  }

  lemma FollowedOn(c: char, x: string)
    requires Followed(x) && (c == '\r' && |x| > 1 && x[0] == '\n' ==> x[1] == '\n')
    ensures Followed([c] + x)
  {
    var y := [c] + x;
    forall j | 0 <= j < |y| - 2 && y[j] == '\r' && y[j + 1] == '\n' ensures y[j + 2] == '\n' {
      assert y[j + 1] == x[j] && y[j + 2] == x[j + 1];
      if j > 0 { assert y[j] == x[j - 1]; }
    }
  }

  /** A surviving `"\r\n"` comes from `"\r\r\n"`. */
  predicate Explained(a: string) {
    Followed(Replace(a)) && (EndsInCrLf(Replace(a)) ==> |a| >= 3 && Triple(a, |a| - 3))
  }

  lemma ExplainedAfterPair(a: string)
    requires |a| > 1 && a[0] == '\r' && a[1] == '\n' && Explained(a[2..])
    ensures Explained(a)
  {
    Unfold(a);
    hide Replace, Followed;
    FollowedOn('\n', Replace(a[2..]));
  }

  lemma ExplainedAfterOne(a: string)
    requires Hushed(a) && a != "" && !(|a| > 1 && a[0] == '\r' && a[1] == '\n') && Explained(a[1..])
    ensures Explained(a)
  {
    Unfold(a);
    hide Replace, Followed, Hushed;
    if |Replace(a)| > 1 && Replace(a)[0] == '\r' && Replace(a)[1] == '\n' { FirstSurvivor(a); }
    FollowedOn(a[0], Replace(a[1..]));
  }

  /** What followed a `"\r\r\n"` follows the `"\r\n"` that survives of it. */
  lemma {:induction false} SurvivorsAreFollowed(a: string)
    requires Hushed(a)
    ensures Explained(a)
    decreases |a|
  {
    if a == "" {
      ReplaceNil();
    } else if |a| > 1 && a[0] == '\r' && a[1] == '\n' {
      hide Explained, Hushed;
      HushedTail(a, 2);
      SurvivorsAreFollowed(a[2..]);
      ExplainedAfterPair(a);
    } else {
      hide Explained, Hushed;
      HushedTail(a, 1);
      SurvivorsAreFollowed(a[1..]);
      ExplainedAfterOne(a);
    }
  }

  lemma HushedTail(a: string, n: nat)
    requires Hushed(a) && n <= |a|
    ensures Hushed(a[n..])
  {
    forall i | 0 <= i < |a[n..]| && Triple(a[n..], i) && i + 3 < |a[n..]| ensures a[n..][i + 3] == '\n' {
      assert Triple(a, n + i);
    }
  }

  lemma FirstSurvivor(a: string)
    requires Hushed(a) && a != "" && !(|a| > 1 && a[0] == '\r' && a[1] == '\n')
    requires |Replace(a)| > 1 && Replace(a)[0] == '\r' && Replace(a)[1] == '\n'
    ensures |a| >= 3 && Triple(a, 0) && (|Replace(a)| > 2 ==> Replace(a)[2] == '\n') && (|Replace(a)| == 2 ==> |a| == 3)
  {
    var rest := a[1..];
    assert Replace(a) == [a[0]] + Replace(rest);
    ReplaceStart(rest);
    assert rest[0] == '\r' && rest[1] == '\n';
    assert Replace(rest) == "\n" + Replace(rest[2..]);
    ReplaceStart(rest[2..]);
    assert Triple(a, 0);
    if |a| > 3 { assert a[3] == rest[2..][0]; }
  }

  // ---- Frames and what is left of them ----

  lemma {:induction false} PendingHasNoBreak(x: string)
    ensures NoBreak(Feed(x).1)
    decreases |x|
  {
    hide OfFrame;
    var i := FindBreak(x);
    if i < |x| { PendingHasNoBreak(x[i + 2..]); }
  }

  lemma NoBreakIsWhole(x: string)
    requires NoBreak(x)
    ensures Feed(x) == ([], x)
  {
    hide OfFrame;
  }

  lemma Slices(a: string, rest: string)
    ensures |a + ("\n\n" + rest)| == |a| + 2 + |rest|
    ensures (a + ("\n\n" + rest))[..|a|] == a && (a + ("\n\n" + rest))[|a| + 2..] == rest
  {
  }

  /** The first blank line comes right after a text without one that does not end its line. */
  lemma FirstBreak(a: string, rest: string)
    requires NoBreak(a) && !EndsIn(a, '\n')
    ensures Feed(a + ("\n\n" + rest)) == (OfFrame(a) + Feed(rest).0, Feed(rest).1)
  {
    hide *;
    BreakAt(a, rest);
    Slices(a, rest);
    FeedStep(a + ("\n\n" + rest));
  }

  lemma BreakAt(a: string, rest: string)
    requires NoBreak(a) && !EndsIn(a, '\n')
    ensures FindBreak(a + ("\n\n" + rest)) == |a|
  {
    hide FindBreak;
    var x := a + ("\n\n" + rest);
    assert x[|a|] == '\n' && x[|a| + 1] == '\n';
    assert forall k :: 0 <= k < |a| ==> !(x[k] == '\n' && x[k + 1] == '\n');
    BreakBounds(x, |a|);
  }

  lemma BreakBounds(x: string, i: nat)
    requires i + 1 < |x| && x[i] == '\n' && x[i + 1] == '\n'
    requires forall k :: 0 <= k < i ==> !(x[k] == '\n' && x[k + 1] == '\n')
    ensures FindBreak(x) == i
  {
  }

  /** The pending text of a stream that ends in `"\r\r\n"`. */
  lemma PendingTriple(p: string)
    ensures Replace(p + "\r\r\n") == Replace(p) + "\r\n"
    ensures Pending(p + "\r\r\n") == Pending(p) + "\r\n" && NoBreak(Pending(p) + "\r\n")
  {
    ReplaceJoin(p, "\r\r\n");
    ReturnAlone();
    var x := Replace(p);
    PendingHasNoBreak(x);
    hide Replace, Feed;
    var frames := FeedSplits(x);
    var a := Feed(x).1;
    assert x + "\r\n" == frames + (a + "\r\n");
    BreakNotMade(a);
    NoBreakIsWhole(a + "\r\n");
  }

  lemma BreakNotMade(a: string)
    requires NoBreak(a)
    ensures NoBreak(a + "\r\n")
  {
    var x := a + "\r\n";
    assert x[|a|] == '\r' && forall k :: 0 <= k < |a| ==> x[k] == a[k];
  }

  /** What is pending is a suffix of the normalised stream. */
  lemma PendingIsSuffix(a: string) returns (start: nat)
    ensures start <= |Replace(a)| && Pending(a) == Replace(a)[start..]
  {
    hide Replace, Feed;
    var frames := FeedSplits(Replace(a));
    start := |frames|;
  }

  lemma SuffixFollowed(x: string, start: nat)
    requires start <= |x| && Followed(x)
    ensures Followed(x[start..])
    ensures |x[start..]| >= 2 && EndsInCrLf(x[start..]) ==> EndsInCrLf(x)
  {
    var left := x[start..];
    forall j | 0 <= j < |left| - 2 && left[j] == '\r' && left[j + 1] == '\n' ensures left[j + 2] == '\n' {
      assert x[start + j] == left[j] && x[start + j + 1] == left[j + 1] && x[start + j + 2] == left[j + 2];
    }
  }

  lemma NotBefore(left: string, j: nat)
    requires Followed(left) && NoBreak(left) && j + 2 < |left|
    ensures !(left[j] == '\r' && left[j + 1] == '\n')
  {
    var a, b, c := left[j], left[j + 1], left[j + 2];
    assert a == '\r' && b == '\n' ==> c == '\n';
    assert b == '\n' ==> c != '\n';
  }

  lemma OnlyAtTheEnd(left: string)
    requires Followed(left) && NoBreak(left)
    ensures forall j :: 0 <= j < |left| - 1 && left[j] == '\r' && left[j + 1] == '\n' ==> j == |left| - 2
    ensures !NoCrLf(left) ==> EndsInCrLf(left)
  {
    forall j | 0 <= j < |left| - 2 ensures !(left[j] == '\r' && left[j + 1] == '\n') {
      NotBefore(left, j);
    }
  }

  /** In a hushed stream only the very end of what is pending can be `"\r\n"`. */
  lemma SurvivorEnds(a: string)
    requires Hushed(a)
    ensures var left := Pending(a);
      forall j :: 0 <= j < |left| - 1 && left[j] == '\r' && left[j + 1] == '\n' ==> j == |left| - 2
    ensures !NoCrLf(Pending(a)) ==> |a| >= 3 && Triple(a, |a| - 3)
  {
    SurvivorsAreFollowed(a);
    assert Followed(Replace(a)) && (EndsInCrLf(Replace(a)) ==> |a| >= 3 && Triple(a, |a| - 3));
    hide *;
    PendingOf(a);
    PendingHasNoBreak(Replace(a));
    var start := PendingIsSuffix(a);
    SuffixFollowed(Replace(a), start);
    OnlyAtTheEnd(Pending(a));
    CrLfIsLong(Pending(a));
  }

  lemma CrLfIsLong(x: string)
    ensures EndsInCrLf(x) ==> |x| >= 2
  {
  }

  lemma PendingOf(a: string)
    ensures Pending(a) == Feed(Replace(a)).1
  {
  }

  lemma PushedOf(buffer: string, chunk: string)
    ensures Pushed(buffer, chunk) == Feed(Replace(buffer + chunk))
  {
  }

  /** In a hushed stream a carriage return is pending only right after its last `"\r\r\n"`. */
  lemma PendingIsClean(a: string)
    requires Hushed(a) && !NoCrLf(Pending(a))
    ensures |a| >= 3 && Triple(a, |a| - 3)
    ensures Pending(a) == Pending(a[..|a| - 3]) + "\r\n" && NoCrLf(Pending(a[..|a| - 3]))
  {
    hide Pending;
    SurvivorEnds(a);
    var p := a[..|a| - 3];
    assert a == p + "\r\r\n";
    PendingTriple(p);
    CleanBefore(Pending(p));
  }

  lemma CleanBefore(text: string)
    requires var left := text + "\r\n";
      forall j :: 0 <= j < |left| - 1 && left[j] == '\r' && left[j + 1] == '\n' ==> j == |left| - 2
    ensures NoCrLf(text)
  {
    var left := text + "\r\n";
    assert forall k :: 0 <= k < |text| ==> left[k] == text[k];
  }

  // ---- A carriage return at the end of a frame means nothing ----

  lemma {:induction false} LinesWithReturn(a: string)
    requires a != "" && !EndsIn(a, '\n')
    ensures Lines(a) != []
    ensures var last := |Lines(a)| - 1; Lines(a + "\r") == Lines(a)[..last] + [Lines(a)[last] + "\r"]
    decreases |a|
  {
    var n := FindNewline(a);
    NewlineStays(a);
    if n < |a| {
      FirstLine(a, n);
      var rest := a[n + 1..];
      LinesWithReturn(rest);
      PrependLine(StripReturn(a[..n]), Lines(rest), "\r");
    }
  }

  lemma FirstLine(a: string, n: nat)
    requires n == FindNewline(a) < |a| && !EndsIn(a, '\n') && FindNewline(a + "\r") == n
    ensures a[n + 1..] != "" && !EndsIn(a[n + 1..], '\n')
    ensures Lines(a) == [StripReturn(a[..n])] + Lines(a[n + 1..])
    ensures Lines(a + "\r") == [StripReturn(a[..n])] + Lines(a[n + 1..] + "\r")
  {
    hide FindNewline, StripReturn;
    assert a[n] == '\n';
    assert (a + "\r")[..n] == a[..n] && (a + "\r")[n + 1..] == a[n + 1..] + "\r";
  }

  lemma PrependLine(line: string, lines: seq<string>, more: string)
    requires lines != []
    ensures var all := [line] + lines; var last := |all| - 1;
      [line] + (lines[..|lines| - 1] + [lines[|lines| - 1] + more]) == all[..last] + [all[last] + more]
  {
  }

  lemma {:induction false} NewlineStays(a: string)
    ensures FindNewline(a + "\r") == if FindNewline(a) < |a| then FindNewline(a) else |a| + 1
  {
    if a == "" {
      assert (a + "\r")[1..] == "";
    } else {
      assert (a + "\r")[1..] == a[1..] + "\r";
      if a[0] != '\n' { NewlineStays(a[1..]); }
    }
  }

  lemma FieldWithReturn(field: string, line: string)
    requires field == DATA_FIELD || field == EVENT_FIELD
    ensures field <= line + "\r" <==> field <= line
    ensures field <= line ==> Trim((line + "\r")[|field|..]) == Trim(line[|field|..])
  {
    assert field[|field| - 1] == ':';
    if field <= line + "\r" { assert (line + "\r")[|field| - 1] == ':'; }
    if field <= line {
      assert (line + "\r")[|field|..] == line[|field|..] + "\r";
      TrimReturn(line[|field|..]);
    }
  }

  lemma TrimReturn(text: string)
    ensures Trim(text + "\r") == Trim(text)
  {
    hide Trim;
    assert (text + "\r")[..|text|] == text;
    assert TrimEnd(text + "\r") == TrimEnd(text);
    TrimFacts(text + "\r");
    TrimFacts(text);
  }

  lemma ReturnAfterNothing()
    ensures OfFrame("\r") == []
  {
    hide Trim;
    assert Lines("\r") == ["\r"] && ["\r"][..0] == [];
    assert DataLines(["\r"]) == [];
  }

  lemma ReturnMeansNothing(a: string)
    requires !EndsIn(a, '\n')
    ensures OfFrame(a + "\r") == OfFrame(a)
  {
    if a == "" {
      assert a + "\r" == "\r";
      hide OfFrame;
      ReturnAfterNothing();
      NoFrame();
    } else {
      LinesWithReturn(a);
      hide Lines, Trim, Join, EventType, DataLines;
      var before, last := Lines(a)[..|Lines(a)| - 1], Lines(a)[|Lines(a)| - 1];
      assert Lines(a) == before + [last];
      SameFields(before, last);
    }
  }

  lemma NoFrame()
    ensures OfFrame("") == []
  {
  }

  lemma SameFields(before: seq<string>, last: string)
    ensures DataLines(before + [last + "\r"]) == DataLines(before + [last])
    ensures EventType(before + [last + "\r"]) == EventType(before + [last])
  {
    hide Trim;
    FieldWithReturn(DATA_FIELD, last);
    FieldWithReturn(EVENT_FIELD, last);
    assert (before + [last])[..|before|] == before && (before + [last + "\r"])[..|before|] == before;
  }

  // ---- One more chunk ----

  /** A further chunk acts like the longer stream when no carriage return is pending. */
  lemma CleanExtends(a: string, b: string)
    requires NoCrLf(Pending(a))
    ensures Feed(Replace(a + b)) == (Feed(Replace(a)).0 + Pushed(Pending(a), b).0, Pushed(Pending(a), b).1)
  {
    var x := Replace(a);
    LastKept(a);
    ReplaceNil();
    hide Replace, Feed;
    var frames := FeedSplits(x);
    var left := Feed(x).1;
    assert Replace(a + b) == frames + Replace(left + b) by {
      CleanIsFixed(left);
      if EndsIn(a, '\r') && b != "" && b[0] == '\n' {
        ReplaceStraddle(a, b);
        ReplaceStraddle(left, b);
        assert x[..|x| - 1] == frames + left[..|left| - 1];
      } else {
        ReplaceJoin(a, b);
        ReplaceJoin(left, b);
      }
    }
    assert Contributes(frames, Feed(x).0);
  }

  lemma NewlineFirst(more: string)
    ensures Replace("\n" + more) == "\n" + Replace(more)
  {
    assert ("\n" + more)[1..] == more;
  }

  /** A text, `"\r\r\n"` and a newline, normalised in one push. */
  lemma TripleInOnePush(p: string, more: string)
    ensures Replace(p + "\r\r\n" + ("\n" + more)) == Replace(p + "\r\r\n") + ("\n" + Replace(more))
  {
    hide Replace;
    NewlineFirst(more);
    ReplaceJoin(p + "\r\r\n", "\n" + more);
  }

  /** The same, normalised in two. */
  lemma TripleInTwoPushes(text: string, more: string)
    requires NoCrLf(text)
    ensures Replace(text + "\r\n" + ("\n" + more)) == text + ("\n\n" + Replace(more))
  {
    hide Replace, NoCrLf;
    NewlineFirst(more);
    ReplaceJoin(text + "\r\n", "\n" + more);
    ReplaceJoin(text, "\r\n");
    CleanIsFixed(text);
    ReturnAlone();
    assert text + "\n" + ("\n" + Replace(more)) == text + ("\n\n" + Replace(more));
  }

  /** A stream is its complete frames, whatever is appended, then what is pending. */
  lemma Onward(a: string, more: string)
    ensures Feed(Replace(a) + more) == (Feed(Replace(a)).0 + Feed(Pending(a) + more).0, Feed(Pending(a) + more).1)
  {
    var x := Replace(a);
    hide Replace, Feed;
    var frames := FeedSplits(x);
    assert x + more == frames + (Feed(x).1 + more);
    assert Contributes(frames, Feed(x).0);
  }

  /** Right after a `"\r\r\n"` that a newline follows, when the text before it does not end a line. */
  lemma TripleExtends(p: string, b: string)
    requires NoCrLf(Pending(p)) && !EndsIn(Pending(p), '\n') && b != "" && b[0] == '\n'
    ensures var a := p + "\r\r\n";
      Feed(Replace(a + b)) == (Feed(Replace(a)).0 + Pushed(Pending(a), b).0, Pushed(Pending(a), b).1)
  {
    hide *;
    var a, text, more := p + "\r\r\n", Pending(p), b[1..];
    PendingOf(p);
    PendingTriple(p);
    PendingHasNoBreak(Replace(p));
    PushedOf(Pending(a), b);
    assert b == "\n" + more;
    TripleInOnePush(p, more);
    TripleInTwoPushes(text, more);
    Onward(a, "\n" + Replace(more));
    TwoBreaks(text, Replace(more));
    assert text + "\r\n" + ("\n" + Replace(more)) == (text + "\r") + ("\n\n" + Replace(more));
  }

  lemma TwoBreaks(text: string, rest: string)
    requires NoBreak(text) && !EndsIn(text, '\n')
    ensures Feed((text + "\r") + ("\n\n" + rest)) == Feed(text + ("\n\n" + rest))
  {
    hide Feed, OfFrame;
    FirstBreak(text, rest);
    ReturnNoBreak(text);
    FirstBreak(text + "\r", rest);
    ReturnMeansNothing(text);
  }

  lemma ReturnNoBreak(text: string)
    requires NoBreak(text)
    ensures NoBreak(text + "\r") && !EndsIn(text + "\r", '\n')
  {
    var x := text + "\r";
    assert forall k :: 0 <= k < |text| ==> x[k] == text[k];
  }

  lemma CalmIsHushed(s: string, n: nat)
    requires Calm(s) && n <= |s|
    ensures Calm(s[..n]) && Hushed(s[..n])
  {
    hide Pending;
    forall i | 0 <= i < n ensures !Fragile(s[..n], i) && (Triple(s[..n], i) && i + 3 < n ==> s[..n][i + 3] == '\n') {
      assert !Fragile(s, i);
      if i + 3 < n { assert s[..n][..i] == s[..i]; }
    }
  }

  lemma CalmExtends(a: string, b: string)
    requires Calm(a + b) && b != ""
    ensures Feed(Replace(a + b)) == (Feed(Replace(a)).0 + Pushed(Pending(a), b).0, Pushed(Pending(a), b).1)
  {
    hide Replace, Feed, Pending, Pushed;
    assert (a + b)[..|a|] == a;
    CalmIsHushed(a + b, |a|);
    if NoCrLf(Pending(a)) {
      CleanExtends(a, b);
    } else {
      PendingIsClean(a);
      var p := a[..|a| - 3];
      assert a == p + "\r\r\n" && (a + b)[..|a| - 3] == p && (a + b)[|a|] == b[0];
      assert Triple(a + b, |a| - 3) && !Fragile(a + b, |a| - 3);
      TripleExtends(p, b);
    }
  }

  // ---- The theorem ----

  predicate NonEmpty(chunks: seq<string>) {
    forall i :: 0 <= i < |chunks| ==> chunks[i] != ""
  }

  lemma {:induction false} CalmChunking(chunks: seq<string>)
    requires NonEmpty(chunks) && Calm(Stream(chunks))
    ensures PushAll(chunks) == Pushed("", Stream(chunks))
  {
    hide Calm, Replace, Feed;
    if chunks == [] {
      EmptyPush();
    } else {
      var init, last := chunks[..|chunks| - 1], chunks[|chunks| - 1];
      CalmIsHushed(Stream(chunks), |Stream(init)|);
      assert Stream(chunks)[..|Stream(init)|] == Stream(init);
      CalmChunking(init);
      CalmExtends(Stream(init), last);
      assert "" + Stream(chunks) == Stream(chunks) && "" + Stream(init) == Stream(init);
    }
  }

  /** At every point of a stream its state does not depend on the non-empty chunks it arrived in. */
  ghost predicate NonEmptyChunkingNeverShows(s: string) {
    forall n, chunks :: 0 <= n <= |s| && NonEmpty(chunks) && Stream(chunks) == s[..n] ==>
      PushAll(chunks) == Pushed("", s[..n])
  }

  lemma TwoChunks(a: string, b: string)
    ensures Stream([a, b]) == a + b
    ensures PushAll([a, b]) == (Pushed("", a).0 + Pushed(Pending(a), b).0, Pushed(Pending(a), b).1)
  {
    hide Replace, Feed;
    assert [a, b][..1] == [a] && [a][..0] == [];
    assert "" + a == a;
    assert Stream([a]) == Stream([]) + a == a;
    assert PushAll([a]) == (PushAll([]).0 + Pushed("", a).0, Pushed("", a).1);
    assert [] + Pushed("", a).0 == Pushed("", a).0;
  }

  /** After `"\r\r\n"` another character but a newline shows, by the length of what is left. */
  lemma LoudShows(p: string, c: char)
    requires c != '\n'
    ensures PushAll([p + "\r\r\n", [c]]) != Pushed("", p + "\r\r\n" + [c])
  {
    var a := p + "\r\r\n";
    LoudWhole(p, c);
    LoudCut(p, c);
    TwoChunks(a, [c]);
    hide *;
  }

  lemma LoudWhole(p: string, c: char)
    requires c != '\n'
    ensures var a := p + "\r\r\n"; Pushed("", a + [c]).1 == Pending(a) + [c]
  {
    var a := p + "\r\r\n";
    assert "" + (a + [c]) == a + [c];
    PendingTriple(p);
    hide Replace, Feed, Pending;
    ReplaceJoin(a, [c]);
    OneCharacter(c);
    Onward(a, [c]);
    LoudNoBreak(Pending(a), c);
    NoBreakIsWhole(Pending(a) + [c]);
  }

  lemma LoudCut(p: string, c: char)
    ensures var a := p + "\r\r\n"; |Pushed(Pending(a), [c]).1| < |Pending(a) + [c]|
  {
    var left := Pending(p + "\r\r\n");
    PendingTriple(p);
    hide Replace, Feed, Pending;
    ReplaceJoin(left, [c]);
    OneCharacter(c);
    ReplaceShortens(left);
    LeftoverNotLonger(Replace(left + [c]));
  }

  lemma OneCharacter(c: char)
    ensures Replace([c]) == [c]
  {
    assert [c][1..] == "";
  }

  lemma LoudNoBreak(left: string, c: char)
    requires NoBreak(left) && c != '\n'
    ensures NoBreak(left + [c])
  {
    var x := left + [c];
    assert x[|left|] == c && forall k :: 0 <= k < |left| ==> x[k] == left[k];
  }

  /** After a line end, `"\r\r\n"` and a newline show: the cut leaves a newline where the whole leaves nothing. */
  lemma LineEndShows(p: string)
    requires NoCrLf(Pending(p)) && EndsIn(Pending(p), '\n')
    ensures PushAll([p + "\r\r\n", "\n"]) != Pushed("", p + "\r\r\n" + "\n")
  {
    var a, text := p + "\r\r\n", Pending(p);
    PendingTriple(p);
    PendingHasNoBreak(Replace(p));
    assert NoBreak(text);
    assert "" + (a + "\n") == a + "\n";
    assert Pushed("", a + "\n").1 == Feed(Replace(a + "\n")).1;
    assert Pushed(Pending(a), "\n").1 == Feed(Replace(text + "\r\n" + "\n")).1;
    TwoChunks(a, "\n");
    hide *;
    assert "\n" + "" == "\n";
    ReplaceNil();
    TripleInOnePush(p, "");
    TripleInTwoPushes(text, "");
    Onward(a, "\n" + "");
    WholeLeavesNothing(text);
    CutLeavesNewline(text);
  }

  lemma WholeLeavesNothing(text: string)
    requires NoBreak(text)
    ensures Feed(text + "\r\n" + "\n").1 == ""
  {
    hide Feed, OfFrame;
    ReturnNoBreak(text);
    FirstBreak(text + "\r", "");
    NothingLeft();
    assert text + "\r\n" + "\n" == (text + "\r") + ("\n\n" + "");
  }

  lemma CutLeavesNewline(text: string)
    requires NoBreak(text) && EndsIn(text, '\n')
    ensures Feed(text + ("\n\n" + "")).1 == "\n"
  {
    hide Feed, OfFrame;
    var line := text[..|text| - 1];
    LineOfText(text);
    FirstBreak(line, "\n");
    NewlineIsWhole();
    assert text + ("\n\n" + "") == line + ("\n\n" + "\n");
  }

  lemma NewlineIsWhole()
    ensures Feed("\n") == ([], "\n")
  {
    NoBreakIsWhole("\n");
  }

  lemma NothingLeft()
    ensures Feed("") == ([], "")
  {
  }

  lemma LineOfText(text: string)
    requires NoBreak(text) && EndsIn(text, '\n')
    ensures NoBreak(text[..|text| - 1]) && !EndsIn(text[..|text| - 1], '\n')
  {
    var line := text[..|text| - 1];
    assert forall k :: 0 <= k < |line| ==> line[k] == text[k];
    if |text| > 1 {
      assert text[|text| - 1] == '\n';
      assert text[|text| - 2] != '\n';
    }
  }

  lemma LoudTripleShows(s: string, j: nat)
    requires Triple(s, j) && j + 3 < |s| && s[j + 3] != '\n'
    ensures !NonEmptyChunkingNeverShows(s)
  {
    hide NonEmptyChunkingNeverShows, PushAll, Pushed;
    var p := s[..j];
    assert s[..j + 4] == p + "\r\r\n" + [s[j + 3]];
    LoudShows(p, s[j + 3]);
    CutShows(s, j + 4, p + "\r\r\n", [s[j + 3]]);
  }

  lemma LineEndTripleShows(s: string, i: nat)
    requires Hushed(s) && Triple(s, i) && i + 3 < |s| && EndsIn(Pending(s[..i]), '\n')
    ensures !NonEmptyChunkingNeverShows(s)
  {
    hide NonEmptyChunkingNeverShows, PushAll, Pushed, Pending;
    var p := s[..i];
    var a := p + "\r\r\n";
    assert s[..i + 3] == a && s[..i + 4] == a + "\n";
    HushedPrefix(s, i + 3);
    PendingTriple(p);
    assert a[..|a| - 3] == p;
    EndIsCrLf(Pending(p));
    PendingIsClean(a);
    LineEndShows(p);
    CutShows(s, i + 4, a, "\n");
  }

  lemma HushedPrefix(s: string, n: nat)
    requires Hushed(s) && n <= |s|
    ensures Hushed(s[..n])
  {
    forall k | 0 <= k < n && Triple(s[..n], k) && k + 3 < n ensures s[..n][k + 3] == '\n' {
      assert Triple(s, k);
    }
  }

  lemma FragileShows(s: string, i: nat)
    requires Fragile(s, i)
    ensures !NonEmptyChunkingNeverShows(s)
  {
    hide NonEmptyChunkingNeverShows, Pending, Triple;
    if Hushed(s) {
      LineEndTripleShows(s, i);
    } else {
      var j :| 0 <= j < |s| && Triple(s, j) && j + 3 < |s| && s[j + 3] != '\n';
      LoudTripleShows(s, j);
    }
  }

  lemma EndIsCrLf(text: string)
    ensures !NoCrLf(text + "\r\n")
  {
    var x := text + "\r\n";
    assert x[|text|] == '\r' && x[|text| + 1] == '\n';
  }

  lemma CutShows(s: string, n: nat, a: string, b: string)
    requires n <= |s| && s[..n] == a + b && a != "" && b != "" && PushAll([a, b]) != Pushed("", a + b)
    ensures !NonEmptyChunkingNeverShows(s)
  {
    TwoChunks(a, b);
    hide Replace, Feed, PushAll, Stream, Pushed;
    var chunks := [a, b];
    assert NonEmpty(chunks) && Stream(chunks) == s[..n] && PushAll(chunks) != Pushed("", s[..n]);
  }

  lemma CalmNeverShows(s: string)
    requires Calm(s)
    ensures NonEmptyChunkingNeverShows(s)
  {
    hide Replace, Feed, Calm;
    forall n, chunks | 0 <= n <= |s| && NonEmpty(chunks) && Stream(chunks) == s[..n]
      ensures PushAll(chunks) == Pushed("", s[..n])
    {
      CalmIsHushed(s, n);
      CalmChunking(chunks);
    }
  }

  /**
   * Cutting a stream into non-empty chunks never shows if and only if every
   * `"\r\r\n"` but one at its very end is followed by a newline, and comes where
   * the pending text does not end a line.
   */
  lemma NonEmptyChunkingNeverShowsIff(s: string)
    ensures NonEmptyChunkingNeverShows(s) <==> Calm(s)
  {
    hide NonEmptyChunkingNeverShows, Fragile;
    if Calm(s) {
      CalmNeverShows(s);
    } else {
      var i :| 0 <= i < |s| && Fragile(s, i);
      FragileShows(s, i);
    }
  }

  /** A following character alone does not make it show: this stream agrees with one push under every non-empty cut. */
  lemma TripleMayNotShow()
    ensures Triple("\r\r\n\n", 0) && NonEmptyChunkingNeverShows("\r\r\n\n")
  {
    var s := "\r\r\n\n";
    assert s[..0] == "";
    ReplaceNil();
    NothingLeft();
    hide Replace, Feed;
    assert !EndsIn(Pending(s[..0]), '\n');
    assert Calm(s);
    NonEmptyChunkingNeverShowsIff(s);
  }
}
