/** The incremental event-stream parsers of the provider and the client (bt-providers sse.rs, bt-client lib.rs). */
module Sse {
  import opened Wrappers
  import opened Text

  datatype SseEvent = SseEvent(event: Option<string>, data: string)

  /** One left-to-right pass of `replace("\r\n", "\n")`. */
  function Replace(s: string): string {
    if s == "" then ""
    else if |s| > 1 && s[0] == '\r' && s[1] == '\n' then "\n" + Replace(s[2..])
    else [s[0]] + Replace(s[1..])
  }

  /** The index of the first blank line `"\n\n"`, or the length when there is none. */
  function FindBreak(s: string): (i: nat)
    ensures i <= |s| && (i < |s| ==> i + 1 < |s| && s[i] == '\n' && s[i + 1] == '\n')
    ensures forall k :: 0 <= k < i && k + 1 < |s| ==> !(s[k] == '\n' && s[k + 1] == '\n')
  {
    if |s| > 1 && s[0] == '\n' && s[1] == '\n' then 0
    else if s == "" then 0
    else 1 + FindBreak(s[1..])
  }

  function FindNewline(s: string): (i: nat)
    ensures i <= |s| && (i < |s| ==> s[i] == '\n')
  {
    if s == "" || s[0] == '\n' then 0 else 1 + FindNewline(s[1..])
  }

  function StripReturn(line: string): string {
    if line != "" && line[|line| - 1] == '\r' then line[..|line| - 1] else line
  }

  /** `str::lines`. */
  function Lines(s: string): seq<string>
    decreases |s|
  {
    if s == "" then []
    else if FindNewline(s) == |s| then [s]
    else [StripReturn(s[..FindNewline(s)])] + Lines(s[FindNewline(s) + 1..])
  }

  const EVENT_FIELD := "event:"
  const DATA_FIELD := "data:"

  function EventType(lines: seq<string>): Option<string> {
    if lines == [] then None
    else
      var last := lines[|lines| - 1];
      if EVENT_FIELD <= last then Some(Trim(last[|EVENT_FIELD|..])) else EventType(lines[..|lines| - 1])
  }

  function DataLines(lines: seq<string>): seq<string> {
    if lines == [] then []
    else
      var before := DataLines(lines[..|lines| - 1]);
      var last := lines[|lines| - 1];
      if !(EVENT_FIELD <= last) && DATA_FIELD <= last then before + [Trim(last[|DATA_FIELD|..])] else before
  }

  /** The event of one frame; a frame without data yields none. */
  function ParseFrame(frame: string): Option<SseEvent> {
    var data := DataLines(Lines(frame));
    if data == [] then None else Some(SseEvent(EventType(Lines(frame)), Join(data, "\n")))
  }

  function OfFrame(frame: string): seq<SseEvent> {
    if frame == "" then []
    else match ParseFrame(frame) case Some(e) => [e] case None => []
  }

  /** The events of the complete frames in a buffer, and what is left of it. */
  function Feed(buffer: string): (seq<SseEvent>, string)
    decreases |buffer|
  {
    var i := FindBreak(buffer);
    if i == |buffer| then ([], buffer)
    else
      var later := Feed(buffer[i + 2..]);
      (OfFrame(buffer[..i]) + later.0, later.1)
  }

  lemma FeedStep(buffer: string)
    requires FindBreak(buffer) < |buffer|
    ensures var i := FindBreak(buffer);
      i + 2 <= |buffer| && Feed(buffer) == (OfFrame(buffer[..i]) + Feed(buffer[i + 2..]).0, Feed(buffer[i + 2..]).1)
  {
    hide OfFrame;
  }

  lemma FeedDone(buffer: string)
    requires FindBreak(buffer) >= |buffer|
    ensures FindBreak(buffer) == |buffer| && Feed(buffer) == ([], buffer)
  {
  }

  function Pushed(buffer: string, chunk: string): (seq<SseEvent>, string) {
    Feed(Replace(buffer + chunk))
  }

  class SseParser {
    var buffer: string

    constructor ()
      ensures buffer == ""
    {
      buffer := "";
    }

    method Push(chunk: string) returns (events: seq<SseEvent>)
      modifies this
      ensures (events, buffer) == Pushed(old(buffer), chunk)
      ensures FindBreak(buffer) == |buffer|
    {
      hide ParseFrame, Replace, FindBreak, Feed;
      buffer := buffer + chunk;
      buffer := Replace(buffer);
      events := [];
      ghost var all := buffer;
      while FindBreak(buffer) < |buffer|
        invariant Feed(all).0 == events + Feed(buffer).0 && Feed(all).1 == Feed(buffer).1
        decreases |buffer|
      {
        FeedStep(buffer);
        var boundary := FindBreak(buffer);
        var frame := buffer[..boundary];
        buffer := buffer[boundary + 2..];
        if frame == "" { continue; }
        match ParseFrame(frame) {
          case Some(event) => events := events + [event];
          case None =>
        }
      }
      FeedDone(buffer);
      assert events + [] == events;
      assert Feed(all) == (events, buffer);
    }
  }

  /** Pushing chunks one after another, from an empty buffer. */
  function PushAll(chunks: seq<string>): (seq<SseEvent>, string) {
    if chunks == [] then ([], "")
    else
      var before := PushAll(chunks[..|chunks| - 1]);
      var now := Pushed(before.1, chunks[|chunks| - 1]);
      (before.0 + now.0, now.1)
  }

  function Stream(chunks: seq<string>): string {
    if chunks == [] then "" else Stream(chunks[..|chunks| - 1]) + chunks[|chunks| - 1]
  }

  // ---- Normalising in pieces ----

  predicate NoTriple(s: string) {
    forall i :: 0 <= i < |s| - 2 ==> !(s[i] == '\r' && s[i + 1] == '\r' && s[i + 2] == '\n')
  }

  predicate NoCrLf(s: string) {
    forall i :: 0 <= i < |s| - 1 ==> !(s[i] == '\r' && s[i + 1] == '\n')
  }

  lemma ReplaceStart(s: string)
    ensures Replace(s) == "" <==> s == ""
    ensures s != "" ==> (Replace(s)[0] == '\n' <==> s[0] == '\n' || (|s| > 1 && s[0] == '\r' && s[1] == '\n'))
  {
  }

  lemma ReplaceHead(c: char, s: string)
    requires !(c == '\r' && s != "" && s[0] == '\n')
    ensures Replace([c] + s) == [c] + Replace(s)
  {
    assert ([c] + s)[1..] == s;
  }

  lemma NoTripleTail(a: string, b: string)
    requires NoTriple(a + b)
    ensures NoTriple(a) && NoTriple(b)
  {
    assert forall i :: 0 <= i < |a| ==> (a + b)[i] == a[i];
    assert forall i :: 0 <= i < |b| ==> (a + b)[|a| + i] == b[i];
  }

  /** Replacing an already replaced prefix again changes nothing, without `"\r\r\n"`. */
  lemma {:induction false} ReplaceAgain(a: string, b: string)
    requires NoTriple(a + b)
    ensures Replace(Replace(a) + b) == Replace(a + b)
    decreases |a|
  {
    hide NoTriple, Replace;
    if a == "" {
      NothingReplaced();
    } else if |a| > 1 && a[0] == '\r' && a[1] == '\n' {
      assert a + b == a[..2] + (a[2..] + b);
      NoTripleTail(a[..2], a[2..] + b);
      ReplaceAgain(a[2..], b);
      ReplaceCrLf(a, b);
    } else {
      var c, rest := a[0], a[1..];
      assert a == [c] + rest && a + b == [c] + (rest + b);
      NoTripleTail([c], rest + b);
      ReplaceAgain(rest, b);
      HeadsApart(c, rest, b);
      ReplaceHead(c, rest);
      assert ([c] + Replace(rest)) + b == [c] + (Replace(rest) + b);
      if rest == "" {
        NothingReplaced();
      } else {
        ReplaceHead(c, Replace(rest) + b);
        ReplaceHead(c, rest + b);
      }
    }
  }

  lemma NothingReplaced()
    ensures Replace("") == ""
  {
  }

  lemma ReplaceCrLf(a: string, b: string)
    requires |a| > 1 && a[0] == '\r' && a[1] == '\n'
    ensures Replace(a + b) == "\n" + Replace(a[2..] + b)
    ensures Replace(Replace(a) + b) == "\n" + Replace(Replace(a[2..]) + b)
  {
    assert (a + b)[2..] == a[2..] + b;
    var later := Replace(a[2..]) + b;
    assert Replace(a) + b == ['\n'] + later;
    ReplaceHead('\n', later);
  }

  lemma HeadsApart(c: char, rest: string, b: string)
    requires NoTriple([c] + (rest + b)) && !(c == '\r' && rest != "" && rest[0] == '\n')
    ensures c == '\r' && rest + b != "" && (rest + b)[0] == '\n' ==> rest == ""
    ensures c == '\r' && rest != "" ==> Replace(rest) != "" && Replace(rest)[0] != '\n'
  {
    ReplaceStart(rest);
    var all := [c] + (rest + b);
    assert |rest| > 1 ==> all[0] == c && all[1] == rest[0] && all[2] == rest[1];
  }

  lemma {:induction false} ReplaceLeavesNoCrLf(a: string)
    requires NoTriple(a)
    ensures NoCrLf(Replace(a))
    decreases |a|
  {
    if a == "" {
    } else if |a| > 1 && a[0] == '\r' && a[1] == '\n' {
      assert a == a[..2] + a[2..];
      NoTripleTail(a[..2], a[2..]);
      ReplaceLeavesNoCrLf(a[2..]);
    } else {
      assert a == [a[0]] + a[1..];
      NoTripleTail([a[0]], a[1..]);
      ReplaceLeavesNoCrLf(a[1..]);
      ReplaceStart(a[1..]);
    }
  }

  /** A clean piece that does not end on a carriage return is left alone, whatever follows. */
  lemma {:induction false} ReplaceAfterClean(clean: string, rest: string)
    requires NoCrLf(clean) && (clean == "" || clean[|clean| - 1] != '\r')
    ensures Replace(clean + rest) == clean + Replace(rest)
  {
    if clean == "" {
      assert clean + rest == rest && clean + Replace(rest) == Replace(rest);
    } else {
      var c, later := clean[0], clean[1..];
      assert NoCrLf(later);
      ReplaceAfterClean(later, rest);
      assert clean + rest == [c] + (later + rest);
      assert later != "" ==> clean[1] == later[0];
      ReplaceHead(c, later + rest);
      assert [c] + (later + Replace(rest)) == clean + Replace(rest);
    }
  }

  // ---- Feeding in pieces ----

  lemma BreakInPrefix(x: string, y: string)
    requires FindBreak(x) < |x|
    ensures FindBreak(x + y) == FindBreak(x)
  {
    hide FindBreak;
    var i, j := FindBreak(x), FindBreak(x + y);
    assert forall k :: 0 <= k < |x| ==> (x + y)[k] == x[k];
  }

  /** Complete frames contribute their events, whatever follows them. */
  ghost predicate Contributes(frames: string, events: seq<SseEvent>) {
    forall y :: Feed(frames + y).0 == events + Feed(y).0 && Feed(frames + y).1 == Feed(y).1
  }

  /** A buffer is its complete frames followed by the leftover. */
  lemma {:induction false} FeedSplits(x: string) returns (frames: string)
    ensures x == frames + Feed(x).1
    ensures frames == "" || frames[|frames| - 1] == '\n'
    ensures Contributes(frames, Feed(x).0)
    decreases |x|
  {
    hide OfFrame, FindBreak, Feed, Contributes;
    var i := FindBreak(x);
    if i >= |x| {
      FeedDone(x);
      frames := "";
      NoFrames();
    } else {
      FeedStep(x);
      BreakEndsLine(x);
      var later := FeedSplits(x[i + 2..]);
      frames := x[..i + 2] + later;
      assert x == x[..i + 2] + x[i + 2..];
      FeedFrames(x, i, later, Feed(x[i + 2..]).0);
    }
  }

  lemma BreakEndsLine(x: string)
    requires FindBreak(x) < |x|
    ensures x[FindBreak(x) + 1] == '\n'
  {
  }

  lemma NoFrames()
    ensures Contributes("", [])
  {
    hide Feed;
    forall y ensures Feed("" + y).0 == [] + Feed(y).0 && Feed("" + y).1 == Feed(y).1 { assert "" + y == y; }
  }

  lemma {:induction false} FeedFrames(x: string, i: nat, later: string, events: seq<SseEvent>)
    requires i == FindBreak(x) < |x| && Contributes(later, events)
    ensures Contributes(x[..i + 2] + later, OfFrame(x[..i]) + events)
  {
    hide OfFrame, FindBreak, Feed;
    var frames := x[..i + 2] + later;
    forall y ensures Feed(frames + y).0 == OfFrame(x[..i]) + events + Feed(y).0 && Feed(frames + y).1 == Feed(y).1 {
      assert frames + y == x[..i + 2] + (later + y);
      FirstFrame(x, i, later + y);
    }
  }

  lemma {:induction false} FirstFrame(x: string, i: nat, rest: string)
    requires i == FindBreak(x) < |x|
    ensures Feed(x[..i + 2] + rest) == (OfFrame(x[..i]) + Feed(rest).0, Feed(rest).1)
  {
    hide OfFrame, FindBreak, Feed;
    var all := x[..i + 2] + rest;
    BreakOfHead(x, i);
    BreakInPrefix(x[..i + 2], rest);
    assert all[..i] == x[..i] && all[i + 2..] == rest;
    FeedStep(all);
  }

  lemma {:induction false} BreakOfHead(x: string, i: nat)
    requires i == FindBreak(x) < |x|
    ensures FindBreak(x[..i + 2]) == i
  {
    hide FindBreak;
    var head := x[..i + 2];
    var j := FindBreak(head);
    assert forall k :: 0 <= k < |head| ==> head[k] == x[k];
  }

  /** One more chunk after a stream acts like the longer stream. */
  lemma PushExtends(a: string, b: string)
    requires NoTriple(a + b)
    ensures Feed(Replace(a + b))
         == (Feed(Replace(a)).0 + Pushed(Feed(Replace(a)).1, b).0, Pushed(Feed(Replace(a)).1, b).1)
  {
    hide NoTriple, Replace, Feed, NoCrLf;
    NoTripleTail(a, b);
    ReplaceAgain(a, b);
    ReplaceLeavesNoCrLf(a);
    var x := Replace(a);
    var frames := FeedSplits(x);
    var rest := Feed(x).1;
    assert x + b == frames + (rest + b);
    CleanPrefix(frames, rest);
    ReplaceAfterClean(frames, rest + b);
  }

  lemma CleanPrefix(a: string, b: string)
    requires NoCrLf(a + b)
    ensures NoCrLf(a)
  {
    assert forall i :: 0 <= i < |a| ==> (a + b)[i] == a[i];
  }

  /**
   * However a stream without `"\r\r\n"` is cut into chunks, pushing them yields
   * the events and the leftover of one push of the whole.
   */
  lemma {:induction false} ChunkingIsInvisible(chunks: seq<string>)
    requires NoTriple(Stream(chunks))
    ensures PushAll(chunks) == Pushed("", Stream(chunks))
  {
    hide NoTriple, Replace, Feed;
    if chunks == [] {
      EmptyPush();
    } else {
      var init, last := chunks[..|chunks| - 1], chunks[|chunks| - 1];
      NoTripleTail(Stream(init), last);
      ChunkingIsInvisible(init);
      PushExtends(Stream(init), last);
      assert "" + Stream(chunks) == Stream(chunks) && "" + Stream(init) == Stream(init);
    }
  }

  lemma EmptyPush()
    ensures Pushed("", "") == ([], "")
  {
    assert "" + "" == "";
  }

  // ---- What goes wrong with "\r\r\n" ----

  predicate EndsInCrLf(s: string) {
    |s| >= 2 && s[|s| - 2] == '\r' && s[|s| - 1] == '\n'
  }

  lemma {:induction false} TripleLeavesCrLf(s: string)
    requires |s| >= 3 && s[|s| - 3] == '\r' && EndsInCrLf(s)
    ensures EndsInCrLf(Replace(s))
  {
    if |s| == 3 {
      assert s[1..] == "\r\n" && s[1..][2..] == "";
      assert Replace(s[1..]) == "\n" + Replace("") == "\n";
      assert Replace(s) == ['\r'] + Replace(s[1..]) == "\r\n";
    } else if s[0] == '\r' && s[1] == '\n' {
      TripleLeavesCrLf(s[2..]);
    } else {
      TripleLeavesCrLf(s[1..]);
    }
  }

  lemma {:induction false} LeftoverEndsInCrLf(x: string)
    requires EndsInCrLf(x)
    ensures EndsInCrLf(Feed(x).1)
    decreases |x|
  {
    hide OfFrame;
    var i := FindBreak(x);
    if i < |x| { LeftoverEndsInCrLf(x[i + 2..]); }
  }

  lemma {:induction false} LeftoverNotLonger(x: string)
    ensures |Feed(x).1| <= |x|
    decreases |x|
  {
    hide OfFrame;
    if FindBreak(x) < |x| { LeftoverNotLonger(x[FindBreak(x) + 2..]); }
  }

  lemma {:induction false} ReplaceShortens(x: string)
    ensures |Replace(x)| <= |x| && (EndsInCrLf(x) ==> |Replace(x)| < |x|)
    decreases |x|
  {
    if |x| > 1 && x[0] == '\r' && x[1] == '\n' {
      ReplaceShortens(x[2..]);
    } else if x != "" {
      ReplaceShortens(x[1..]);
    }
  }

  /** Right after `"\r\r\n"` an empty chunk changes the leftover. */
  lemma EmptyChunkShows(s: string)
    requires |s| >= 3 && s[|s| - 3] == '\r' && EndsInCrLf(s)
    ensures Stream([s, ""]) == s && PushAll([s, ""]) != Pushed("", s)
  {
    hide Replace, Feed, EndsInCrLf;
    assert [s, ""][..1] == [s] && [s][..0] == [];
    assert "" + s == s && s + "" == s;
    assert Stream([s]) == Stream([]) + s == s;
    assert PushAll([s]).1 == Pushed("", s).1;
    TripleLeavesCrLf(s);
    LeftoverEndsInCrLf(Replace(s));
    var leftover := Feed(Replace(s)).1;
    assert leftover + "" == leftover;
    ReplaceShortens(leftover);
    LeftoverNotLonger(Replace(leftover));
    assert PushAll([s, ""]).1 == Pushed(leftover, "").1;
  }

  /** At every point of a stream the events and the leftover do not depend on the chunks it arrived in. */
  ghost predicate ChunkingNeverShows(s: string) {
    forall n, chunks :: 0 <= n <= |s| && Stream(chunks) == s[..n] ==> PushAll(chunks) == Pushed("", s[..n])
  }

  lemma TripleShows(s: string, i: nat)
    requires i < |s| - 2 && s[i] == '\r' && s[i + 1] == '\r' && s[i + 2] == '\n'
    ensures !ChunkingNeverShows(s)
  {
    hide Replace, Feed;
    var n := i + 3;
    var chunks := [s[..n], ""];
    EmptyChunkShows(s[..n]);
    assert Stream(chunks) == s[..n] && PushAll(chunks) != Pushed("", s[..n]);
  }

  lemma NoTripleHides(s: string)
    requires NoTriple(s)
    ensures ChunkingNeverShows(s)
  {
    hide NoTriple, Replace, Feed;
    forall n, chunks | 0 <= n <= |s| && Stream(chunks) == s[..n] ensures PushAll(chunks) == Pushed("", s[..n]) {
      assert s == s[..n] + s[n..];
      NoTripleTail(s[..n], s[n..]);
      ChunkingIsInvisible(chunks);
    }
  }

  /** Chunking never shows exactly in the streams without `"\r\r\n"`. */
  lemma ChunkingNeverShowsIff(s: string)
    ensures ChunkingNeverShows(s) <==> NoTriple(s)
  {
    hide ChunkingNeverShows;
    if NoTriple(s) {
      NoTripleHides(s);
    } else {
      var i :| 0 <= i < |s| - 2 && s[i] == '\r' && s[i + 1] == '\r' && s[i + 2] == '\n';
      TripleShows(s, i);
    }
  }

  // ---- The client's parser ----

  function ClientDataLines(lines: seq<string>): seq<string> {
    if lines == [] then []
    else
      var before := ClientDataLines(lines[..|lines| - 1]);
      var last := lines[|lines| - 1];
      if DATA_FIELD <= last then before + [Trim(last[|DATA_FIELD|..])] else before
  }

  function ClientOfFrame(frame: string): seq<string> {
    if frame == "" || ClientDataLines(Lines(frame)) == [] then [] else [Join(ClientDataLines(Lines(frame)), "\n")]
  }

  function ClientFeed(buffer: string): (seq<string>, string)
    decreases |buffer|
  {
    var i := FindBreak(buffer);
    if i == |buffer| then ([], buffer)
    else
      var later := ClientFeed(buffer[i + 2..]);
      (ClientOfFrame(buffer[..i]) + later.0, later.1)
  }

  lemma {:induction false} ClientFeedStep(buffer: string)
    requires FindBreak(buffer) < |buffer|
    ensures var i := FindBreak(buffer);
      i + 2 <= |buffer|
      && ClientFeed(buffer)
         == (ClientOfFrame(buffer[..i]) + ClientFeed(buffer[i + 2..]).0, ClientFeed(buffer[i + 2..]).1)
  {
    hide ClientOfFrame;
  }

  lemma ClientFeedDone(buffer: string)
    requires FindBreak(buffer) >= |buffer|
    ensures ClientFeed(buffer) == ([], buffer)
  {
  }

  class ClientSseParser {
    var buffer: string

    constructor ()
      ensures buffer == ""
    {
      buffer := "";
    }

    method Push(chunk: string) returns (events: seq<string>)
      modifies this
      ensures (events, buffer) == ClientFeed(Replace(old(buffer) + chunk))
      ensures events == Data(Pushed(old(buffer), chunk).0) && buffer == Pushed(old(buffer), chunk).1
    {
      hide Replace, Lines, FindBreak, ClientFeed, Feed, Join;
      buffer := buffer + chunk;
      buffer := Replace(buffer);
      events := [];
      ghost var all := buffer;
      while FindBreak(buffer) < |buffer|
        invariant ClientFeed(all).0 == events + ClientFeed(buffer).0 && ClientFeed(all).1 == ClientFeed(buffer).1
        decreases |buffer|
      {
        ClientFeedStep(buffer);
        var boundary := FindBreak(buffer);
        var frame := buffer[..boundary];
        buffer := buffer[boundary + 2..];
        if frame == "" { continue; }
        var data := ClientDataLines(Lines(frame));
        if data != [] { events := events + [Join(data, "\n")]; }
      }
      ClientFeedDone(buffer);
      assert events + [] == events;
      assert ClientFeed(all) == (events, buffer);
      ClientIsProjection(all);
    }
  }

  function Data(events: seq<SseEvent>): seq<string> {
    if events == [] then [] else [events[0].data] + Data(events[1..])
  }

  lemma {:induction false} DataConcat(a: seq<SseEvent>, b: seq<SseEvent>)
    ensures Data(a + b) == Data(a) + Data(b)
  {
    if a == [] {
      assert a + b == b;
    } else {
      assert (a + b)[1..] == a[1..] + b;
      DataConcat(a[1..], b);
    }
  }

  lemma {:induction false} SameDataLines(lines: seq<string>)
    ensures ClientDataLines(lines) == DataLines(lines)
  {
    hide Trim;
    if lines != [] {
      SameDataLines(lines[..|lines| - 1]);
      FieldsApart(lines[|lines| - 1]);
    }
  }

  lemma FieldsApart(line: string)
    ensures !(EVENT_FIELD <= line && DATA_FIELD <= line)
  {
    if EVENT_FIELD <= line { assert line[0] == EVENT_FIELD[0]; }
    if DATA_FIELD <= line { assert line[0] == DATA_FIELD[0]; }
  }

  lemma SameFrame(frame: string)
    ensures ClientOfFrame(frame) == Data(OfFrame(frame))
  {
    hide Lines, Join, DataLines, ClientDataLines, EventType;
    SameDataLines(Lines(frame));
    if frame != "" && ParseFrame(frame).Some? { assert [ParseFrame(frame).value][1..] == []; }
  }

  /** The client's output is the provider's, projected to the data, with the same leftover. */
  lemma {:induction false} ClientIsProjection(buffer: string)
    ensures ClientFeed(buffer) == (Data(Feed(buffer).0), Feed(buffer).1)
    decreases |buffer|
  {
    hide FindBreak, OfFrame, ClientOfFrame;
    var i := FindBreak(buffer);
    if i < |buffer| {
      ClientIsProjection(buffer[i + 2..]);
      SameFrame(buffer[..i]);
      DataConcat(OfFrame(buffer[..i]), Feed(buffer[i + 2..]).0);
    }
  }
}
