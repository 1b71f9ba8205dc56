/** Events written in the event-stream format read back, by the provider and the client (bt-providers, bt-client). */
module SseWire {
  import opened Wrappers
  import opened Text
  import opened Sse

  // ---- The wire format ----

  /** A text that stands on one line and loses nothing to trimming. */
  predicate OneLine(text: string) {
    Trim(text) == text && '\n' !in text && '\r' !in text
  }

  /** An event as its type, if any, and the lines of its data. */
  datatype Written = Written(event: Option<string>, data: seq<string>)

  predicate Writable(e: Written) {
    e.data != [] && (e.event.Some? ==> OneLine(e.event.value)) && forall d :: d in e.data ==> OneLine(d)
  }

  function Fields(data: seq<string>): (fields: seq<string>)
    ensures |fields| == |data|
  {
    if data == [] then [] else Fields(data[..|data| - 1]) + ["data: " + data[|data| - 1]]
  }

  function WireLines(e: Written): seq<string> {
    (if e.event.Some? then ["event: " + e.event.value] else []) + Fields(e.data)
  }

  /** The lines of each event, each with its newline, and a blank line after each event. */
  function Wire(events: seq<Written>): string {
    if events == [] then "" else Join(WireLines(events[0]), "\n") + "\n\n" + Wire(events[1..])
  }

  function ReadBack(events: seq<Written>): seq<SseEvent> {
    if events == [] then [] else [SseEvent(events[0].event, Join(events[0].data, "\n"))] + ReadBack(events[1..])
  }

  // ---- Lines ----

  /** Lines that a frame can be made of. */
  predicate Plain(lines: seq<string>) {
    forall l :: l in lines ==> l != "" && '\n' !in l && '\r' !in l
  }

  lemma {:induction false} NewlineAfter(line: string, rest: string)
    requires '\n' !in line
    ensures FindNewline(line + ("\n" + rest)) == |line|
    ensures FindNewline(line) == |line|
  {
    if line == "" {
      assert "" + ("\n" + rest) == "\n" + rest;
    } else {
      assert (line + ("\n" + rest))[1..] == line[1..] + ("\n" + rest);
      NewlineAfter(line[1..], rest);
    }
  }

  lemma {:induction false} LinesOfJoin(lines: seq<string>)
    requires Plain(lines) && lines != []
    ensures Lines(Join(lines, "\n")) == lines && Join(lines, "\n") != ""
  {
    hide *;
    var first := lines[0];
    PlainParts(lines);
    JoinHead(lines);
    if |lines| == 1 {
      OnlyLine(first);
      assert lines == [first];
    } else {
      var rest := Join(lines[1..], "\n");
      LinesOfJoin(lines[1..]);
      FirstLine(first, rest);
      assert lines == [first] + lines[1..];
    }
  }

  lemma PlainParts(lines: seq<string>)
    requires Plain(lines) && lines != []
    ensures Plain(lines[1..]) && lines[0] != "" && FindNewline(lines[0]) == |lines[0]|
    ensures lines[0][|lines[0]| - 1] != '\r'
    ensures forall rest :: FindNewline(lines[0] + ("\n" + rest)) == |lines[0]|
  {
    var first := lines[0];
    assert first in lines;
    assert first[|first| - 1] in first;
    forall rest ensures FindNewline(first + ("\n" + rest)) == |first| && FindNewline(first) == |first| {
      NewlineAfter(first, rest);
    }
  }

  lemma JoinHead(lines: seq<string>)
    requires lines != []
    ensures |lines| == 1 ==> Join(lines, "\n") == lines[0]
    ensures |lines| > 1 ==> Join(lines, "\n") == lines[0] + ("\n" + Join(lines[1..], "\n"))
  {
  }

  lemma OnlyLine(line: string)
    requires line != "" && FindNewline(line) == |line|
    ensures Lines(line) == [line]
  {
  }

  lemma FirstLine(first: string, rest: string)
    requires first != "" && FindNewline(first + ("\n" + rest)) == |first| && first[|first| - 1] != '\r'
    ensures Lines(first + ("\n" + rest)) == [first] + Lines(rest)
  {
    hide FindNewline, Lines;
    var all := first + ("\n" + rest);
    LinesStep(all);
    assert all[|first| + 1..] == rest && all[..|first|] == first;
  }

  lemma LinesStep(s: string)
    requires FindNewline(s) < |s|
    ensures Lines(s) == [StripReturn(s[..FindNewline(s)])] + Lines(s[FindNewline(s) + 1..])
  {
    hide FindNewline, StripReturn;
  }

  /** Joined lines hold no blank line and do not end in a newline, whatever line comes before them. */
  lemma {:induction false} JoinHasNoBreak(lines: seq<string>)
    requires Plain(lines) && lines != []
    ensures var s := Join(lines, "\n");
      && s != "" && s[0] != '\n' && s[|s| - 1] != '\n' && '\r' !in s
      && forall k :: 0 <= k < |s| - 1 ==> !(s[k] == '\n' && s[k + 1] == '\n')
  {
    var first := lines[0];
    assert first in lines && first != "";
    assert first[0] in first && first[|first| - 1] in first;
    if |lines| > 1 {
      var rest := Join(lines[1..], "\n");
      JoinHasNoBreak(lines[1..]);
      var s := first + "\n" + rest;
      assert Join(lines, "\n") == s;
      forall k | 0 <= k < |s| - 1 ensures !(s[k] == '\n' && s[k + 1] == '\n') {
        if k < |first| {
          assert s[k] == first[k] && first[k] in first;
        } else if k > |first| {
          assert s[k] == rest[k - |first| - 1] && s[k + 1] == rest[k - |first|];
        }
      }
    }
  }

  lemma BreakAfterFrame(frame: string, rest: string)
    requires frame != "" && frame[|frame| - 1] != '\n'
    requires forall k :: 0 <= k < |frame| - 1 ==> !(frame[k] == '\n' && frame[k + 1] == '\n')
    ensures FindBreak(frame + "\n\n" + rest) == |frame|
  {
    var s := frame + "\n\n" + rest;
    var n := |frame|;
    assert s[n] == '\n' && s[n + 1] == '\n';
    forall k | 0 <= k < n ensures !(s[k] == '\n' && s[k + 1] == '\n') {
      var here := s[k];
      assert here == frame[k];
      if k < n - 1 {
        var there := s[k + 1];
        assert there == frame[k + 1];
      }
    }
    var i := FindBreak(s);
  }

  // ---- Fields ----

  lemma {:induction false} SpaceTrims(text: string)
    requires Trim(text) == text
    ensures Trim(" " + text) == text
  {
    assert (" " + text)[1..] == text;
    assert TrimStart(" " + text) == TrimStart(text);
  }

  lemma {:induction false} FieldsArePlain(data: seq<string>)
    requires forall d :: d in data ==> OneLine(d)
    ensures Plain(Fields(data)) && DataLines(Fields(data)) == data && EventType(Fields(data)) == None
  {
    if data != [] {
      var init, last := data[..|data| - 1], data[|data| - 1];
      assert data == init + [last];
      FieldsArePlain(init);
      DataField(last);
      var fields := Fields(init) + ["data: " + last];
      assert fields[..|init|] == Fields(init);
    }
  }

  lemma DataField(text: string)
    requires OneLine(text)
    ensures var field := "data: " + text;
      && DATA_FIELD <= field && !(EVENT_FIELD <= field) && Trim(field[|DATA_FIELD|..]) == text
      && field != "" && '\n' !in field && '\r' !in field
  {
    var field := "data: " + text;
    assert field[5..] == " " + text;
    SpaceTrims(text);
    assert field[0] == 'd' && EVENT_FIELD[0] == 'e';
  }

  lemma EventField(text: string)
    requires OneLine(text)
    ensures var field := "event: " + text;
      && EVENT_FIELD <= field && Trim(field[|EVENT_FIELD|..]) == text
      && field != "" && '\n' !in field && '\r' !in field
  {
    var field := "event: " + text;
    assert field[6..] == " " + text;
    SpaceTrims(text);
  }

  /** A leading event line changes the event type only. */
  lemma {:induction false} LeadingEvent(line: string, fields: seq<string>)
    requires EVENT_FIELD <= line && EventType(fields) == None
    ensures DataLines([line] + fields) == DataLines(fields)
    ensures EventType([line] + fields) == Some(Trim(line[|EVENT_FIELD|..]))
  {
    hide *;
    if fields == [] {
      assert [line] + fields == [] + [line];
      FieldSnoc([], line);
      NoFields();
    } else {
      var init, last := fields[..|fields| - 1], fields[|fields| - 1];
      assert fields == init + [last] && [line] + fields == ([line] + init) + [last];
      FieldSnoc(init, last);
      LeadingEvent(line, init);
      FieldSnoc([line] + init, last);
    }
  }

  lemma FieldSnoc(lines: seq<string>, l: string)
    ensures EventType(lines + [l]) == if EVENT_FIELD <= l then Some(Trim(l[|EVENT_FIELD|..])) else EventType(lines)
    ensures DataLines(lines + [l])
         == DataLines(lines) + if !(EVENT_FIELD <= l) && DATA_FIELD <= l then [Trim(l[|DATA_FIELD|..])] else []
  {
    hide Trim;
    assert (lines + [l])[..|lines|] == lines;
  }

  lemma NoFields()
    ensures EventType([]) == None && DataLines([]) == []
  {
  }

  lemma FrameReadsBack(e: Written)
    requires Writable(e)
    ensures Plain(WireLines(e)) && WireLines(e) != []
    ensures OfFrame(Join(WireLines(e), "\n")) == [SseEvent(e.event, Join(e.data, "\n"))]
  {
    hide Trim, DataLines, EventType, Lines, Join;
    FieldsArePlain(e.data);
    var fields := Fields(e.data);
    if e.event.Some? {
      EventField(e.event.value);
      LeadingEvent("event: " + e.event.value, fields);
    } else {
      assert [] + fields == fields;
    }
    LinesOfJoin(WireLines(e));
  }

  // ---- Streams of events ----

  lemma {:induction false} FeedReadsBack(events: seq<Written>)
    requires forall e :: e in events ==> Writable(e)
    ensures Feed(Wire(events)) == (ReadBack(events), "") && '\r' !in Wire(events)
  {
    hide Writable, WireLines, Join, OfFrame, Feed;
    if events == [] {
      FeedDone("");
    } else {
      var frame, rest := Join(WireLines(events[0]), "\n"), Wire(events[1..]);
      FrameReadsBack(events[0]);
      JoinHasNoBreak(WireLines(events[0]));
      BreakAfterFrame(frame, rest);
      FeedReadsBack(events[1..]);
      var all := frame + "\n\n" + rest;
      FeedStep(all);
      assert all[..|frame|] == frame && all[|frame| + 2..] == rest;
    }
  }

  lemma {:induction false} NoReturnsToReplace(s: string)
    requires '\r' !in s
    ensures Replace(s) == s
  {
    if s != "" {
      assert s == [s[0]] + s[1..];
      NoReturnsToReplace(s[1..]);
    }
  }

  /**
   * Any sequence of events, written out and cut into chunks anywhere, comes back
   * as it was, with nothing left in the buffer; the client gets the data of each.
   */
  lemma WrittenEventsReadBack(events: seq<Written>, chunks: seq<string>)
    requires (forall e :: e in events ==> Writable(e)) && Stream(chunks) == Wire(events)
    ensures PushAll(chunks) == (ReadBack(events), "")
    ensures ClientFeed(Replace(Wire(events))) == (Data(ReadBack(events)), "")
  {
    hide Feed, ClientFeed, Wire, Replace, PushAll, Stream, Data, ReadBack;
    FeedReadsBack(events);
    NoReturnsToReplace(Wire(events));
    assert "" + Wire(events) == Wire(events);
    ChunkingIsInvisible(chunks);
    ClientIsProjection(Wire(events));
  }
}
