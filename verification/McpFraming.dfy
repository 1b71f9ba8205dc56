/** Content-Length framing and request/reply matching over stdio (bt-mcp, lib.rs). A character stands for a byte. */
module McpFraming {
  import opened Wrappers
  import opened Text

  datatype Error = StreamClosed | BadLength | MissingLength | TruncatedBody | BadJson | ServerError(text: string)

  const HEADER := "Content-Length:"
  const USIZE_LIMIT := 0x1_0000_0000_0000_0000

  function WriteFrame(body: string): string {
    HEADER + " " + Digits(|body|) + "\r\n\r\n" + body
  }

  /** The length of the next line with its newline, or of all that is left. */
  function LineLength(stream: string): (n: nat)
    ensures n <= |stream| && (stream != "" ==> n > 0)
  {
    if stream == "" then 0 else if stream[0] == '\n' then 1 else 1 + LineLength(stream[1..])
  }

  function ParseDigits(s: string): Option<nat> {
    if s == "" then None
    else if !('0' <= s[|s| - 1] <= '9') then None
    else
      var digit := s[|s| - 1] as int - '0' as int;
      if |s| == 1 then Some(digit)
      else match ParseDigits(s[..|s| - 1]) case Some(n) => Some(10 * n + digit) case None => None
  }

  /** `str::parse::<usize>` on a 64-bit target. */
  function ParseUsize(s: string): Option<nat> {
    match ParseDigits(if s != "" && s[0] == '+' then s[1..] else s)
    case Some(n) => if n < USIZE_LIMIT then Some(n) else None
    case None => None
  }

  /** The header loop: the last declared length, and the stream after the blank line. */
  function ReadHeader(stream: string, length: Option<nat>): Result<(Option<nat>, string), Error>
    decreases |stream|
  {
    if stream == "" then Err(StreamClosed)
    else
      var line, rest := Trim(stream[..LineLength(stream)]), stream[LineLength(stream)..];
      if line == "" then Ok((length, rest))
      else if HEADER <= line then
        match ParseUsize(Trim(line[|HEADER|..]))
        case None => Err(BadLength)
        case Some(n) => ReadHeader(rest, Some(n))
      else ReadHeader(rest, length)
  }

  /** The next body and the stream after it. */
  function ReadFrame(stream: string): Result<(string, string), Error> {
    match ReadHeader(stream, None)
    case Err(e) => Err(e)
    case Ok((None, _)) => Err(MissingLength)
    case Ok((Some(n), rest)) => if n > |rest| then Err(TruncatedBody) else Ok((rest[..n], rest[n..]))
  }

  method ReadFrameLoop(stream: string) returns (result: Result<(string, string), Error>)
    ensures result == ReadFrame(stream)
  {
    hide Trim, ParseUsize, LineLength;
    var length: Option<nat>, rest := None, stream;
    while true
      invariant ReadHeader(stream, None) == ReadHeader(rest, length)
      decreases |rest|
    {
      if rest == "" { return Err(StreamClosed); }
      LineIsNonEmpty(rest);
      var n := LineLength(rest);
      var line := Trim(rest[..n]);
      if line == "" {
        rest := rest[n..];
        break;
      }
      if HEADER <= line {
        match ParseUsize(Trim(line[|HEADER|..])) {
          case None => return Err(BadLength);
          case Some(m) => length := Some(m);
        }
      }
      rest := rest[n..];
    }
    match length {
      case None => result := Err(MissingLength);
      case Some(n) => result := if n > |rest| then Err(TruncatedBody) else Ok((rest[..n], rest[n..]));
    }
  }

  lemma LineIsNonEmpty(stream: string)
    requires stream != ""
    ensures 0 < LineLength(stream) <= |stream|
  {
  }

  // ---- Round trip ----

  lemma {:induction false} DigitsParse(n: nat)
    ensures ParseDigits(Digits(n)) == Some(n)
    ensures Digits(n) != "" && forall i :: 0 <= i < |Digits(n)| ==> '0' <= Digits(n)[i] <= '9'
  {
    if n >= 10 {
      DigitsParse(n / 10);
      assert Digits(n)[..|Digits(n)| - 1] == Digits(n / 10);
    }
  }

  /** A declared length is read with or without a plus sign, as long as a 64-bit `usize` can hold it. */
  lemma {:induction false} LengthParses(n: nat)
    ensures ParseUsize(Digits(n)) == (if n < 0x1_0000_0000_0000_0000 then Some(n) else None)
    ensures ParseUsize("+" + Digits(n)) == (if n < 0x1_0000_0000_0000_0000 then Some(n) else None)
    ensures Digits(n) != "" && forall i :: 0 <= i < |Digits(n)| ==> '0' <= Digits(n)[i] <= '9'
  {
    hide ParseDigits, Digits;
    DigitsParse(n);
    assert ("+" + Digits(n))[1..] == Digits(n);
  }

  lemma {:induction false} LineEnds(line: string, rest: string)
    requires forall i :: 0 <= i < |line| ==> line[i] != '\n'
    ensures LineLength(line + "\n" + rest) == |line| + 1
  {
    if line == "" {
      assert ("" + "\n" + rest)[0] == '\n';
    } else {
      assert (line + "\n" + rest)[1..] == line[1..] + "\n" + rest;
      LineEnds(line[1..], rest);
    }
  }

  /** Trimming a solid text framed by blanks gives the text. */
  lemma TrimSolid(before: string, solid: string, after: string)
    requires Blank(before) && Blank(after)
    requires solid != "" && !IsWhitespace(solid[0]) && !IsWhitespace(solid[|solid| - 1])
    ensures Trim(before + solid + after) == solid
  {
    assert before + solid + after == before + (solid + after);
    TrimStartConcat(before, solid + after);
    assert TrimStart(solid + after) == solid + after;
    TrimEndConcat(solid, after);
  }

  lemma {:induction false} HeaderLine(n: nat)
    requires n < USIZE_LIMIT
    ensures var line := HEADER + " " + Digits(n) + "\r";
      && (forall i :: 0 <= i < |line| ==> line[i] != '\n')
      && Trim(line + "\n") == HEADER + (" " + Digits(n))
      && ParseUsize(Trim(" " + Digits(n))) == Some(n)
  {
    LengthParses(n);
    hide ParseUsize, Digits, Trim;
    SolidHeader(Digits(n));
  }

  lemma SolidHeader(digits: string)
    requires digits != "" && forall i :: 0 <= i < |digits| ==> '0' <= digits[i] <= '9'
    ensures forall i :: 0 <= i < |HEADER + " " + digits + "\r"| ==> (HEADER + " " + digits + "\r")[i] != '\n'
    ensures Trim(HEADER + " " + digits + "\r" + "\n") == HEADER + (" " + digits) && Trim(" " + digits) == digits
  {
    hide Trim;
    HeaderSolid();
    var solid := HEADER + (" " + digits);
    assert solid[0] == HEADER[0] && solid[|solid| - 1] == digits[|digits| - 1];
    TrimSolid("", solid, "\r\n");
    assert HEADER + " " + digits + "\r" + "\n" == "" + solid + "\r\n";
    TrimSolid(" ", digits, "");
    assert " " + digits + "" == " " + digits;
  }

  lemma HeaderSolid()
    ensures HEADER != "" && !IsWhitespace(HEADER[0]) && forall i :: 0 <= i < |HEADER| ==> HEADER[i] != '\n'
  {
  }

  lemma BlankLine()
    ensures Trim("\r\n") == ""
  {
    TrimFacts("\r\n");
  }

  lemma HeaderReads(n: nat, rest: string)
    requires n < USIZE_LIMIT
    ensures ReadHeader(HEADER + " " + Digits(n) + "\r\n\r\n" + rest, None) == Ok((Some(n), rest))
  {
    HeaderLine(n);
    hide ParseUsize, Digits, Trim, LineLength;
    var line := HEADER + " " + Digits(n) + "\r";
    var later := "\r" + "\n" + rest;
    var stream := HEADER + " " + Digits(n) + "\r\n\r\n" + rest;
    assert stream == line + "\n" + later;
    LineEnds(line, later);
    assert stream[..|line| + 1] == line + "\n" && stream[|line| + 1..] == later;
    var named := HEADER + (" " + Digits(n));
    assert HEADER <= named && named[|HEADER|..] == " " + Digits(n) && named != "";
    LineEnds("\r", rest);
    assert later[..2] == "\r\n" && later[2..] == rest;
    BlankLine();
    assert ReadHeader(later, Some(n)) == Ok((Some(n), rest));
  }

  /** Reading a written frame returns its body and leaves what follows untouched. */
  lemma FrameRoundTrip(body: string, rest: string)
    requires |body| < USIZE_LIMIT
    ensures ReadFrame(WriteFrame(body) + rest) == Ok((body, rest))
  {
    hide ReadHeader, Digits;
    HeaderReads(|body|, body + rest);
    assert WriteFrame(body) + rest == HEADER + " " + Digits(|body|) + "\r\n\r\n" + (body + rest);
    assert (body + rest)[..|body|] == body && (body + rest)[|body|..] == rest;
  }

  function WriteFrames(bodies: seq<string>): string {
    if bodies == [] then "" else WriteFrame(bodies[0]) + WriteFrames(bodies[1..])
  }

  function ReadFrames(stream: string, count: nat): Result<(seq<string>, string), Error>
    decreases count
  {
    if count == 0 then Ok(([], stream))
    else match ReadFrame(stream)
      case Err(e) => Err(e)
      case Ok((body, rest)) => match ReadFrames(rest, count - 1)
        case Err(e) => Err(e)
        case Ok((bodies, final)) => Ok(([body] + bodies, final))
  }

  /** Any concatenation of written frames reads back as the bodies, in order, and nothing more is consumed. */
  lemma {:induction false} FramesRoundTrip(bodies: seq<string>, rest: string)
    requires forall b :: b in bodies ==> |b| < USIZE_LIMIT
    ensures ReadFrames(WriteFrames(bodies) + rest, |bodies|) == Ok((bodies, rest))
  {
    hide ReadFrame, WriteFrame;
    if bodies == [] {
      assert "" + rest == rest;
    } else {
      var later := WriteFrames(bodies[1..]) + rest;
      assert WriteFrames(bodies) + rest == WriteFrame(bodies[0]) + later;
      FrameRoundTrip(bodies[0], later);
      FramesRoundTrip(bodies[1..], rest);
      assert bodies == [bodies[0]] + bodies[1..];
    }
  }

  // ---- Matching replies to requests ----

  /** A parsed reply; parsing itself is given. */
  datatype Reply = Reply(id: Option<nat>, error: Option<string>, result: Option<string>)

  function Outcome(reply: Reply): Result<string, Error> {
    if reply.error.Some? then Err(ServerError(reply.error.value))
    else Ok(match reply.result case Some(text) => text case None => "{}")
  }

  lemma ReadFrameShortens(stream: string)
    requires ReadFrame(stream).Ok?
    ensures |ReadFrame(stream).value.1| < |stream|
  {
    hide ParseUsize, Trim;
    HeaderShortens(stream, None);
  }

  lemma {:induction false} HeaderShortens(stream: string, length: Option<nat>)
    requires ReadHeader(stream, length).Ok?
    ensures |ReadHeader(stream, length).value.1| < |stream|
    decreases |stream|
  {
    hide ParseUsize, Trim;
    LineIsNonEmpty(stream);
    var line, rest := Trim(stream[..LineLength(stream)]), stream[LineLength(stream)..];
    if line != "" {
      if HEADER <= line {
        HeaderShortens(rest, Some(ParseUsize(Trim(line[|HEADER|..])).value));
      } else {
        HeaderShortens(rest, length);
      }
    }
  }

  /** Reads frames until the reply to `id`; the outcome and the stream after that reply. */
  function Await(parse: string -> Option<Reply>, stream: string, id: nat): (Result<string, Error>, string)
    decreases |stream|
  {
    match ReadFrame(stream)
    case Err(e) => (Err(e), stream)
    case Ok((body, rest)) =>
      ReadFrameShortens(stream);
      match parse(body)
      case None => (Err(BadJson), rest)
      case Some(reply) => if reply.id != Some(id) then Await(parse, rest, id) else (Outcome(reply), rest)
  }

  class StdioSession {
    var nextId: nat
    var outgoing: string
    var incoming: string

    constructor (incoming: string)
      ensures nextId == 1 && outgoing == "" && this.incoming == incoming
    {
      nextId, outgoing := 1, "";
      this.incoming := incoming;
    }

    method Request(parse: string -> Option<Reply>, payload: nat -> string) returns (outcome: Result<string, Error>)
      modifies this
      ensures nextId == old(nextId) + 1
      ensures outgoing == old(outgoing) + WriteFrame(payload(old(nextId)))
      ensures outcome.Ok? || outcome.error.ServerError? ==>
        (outcome, incoming) == Await(parse, old(incoming), old(nextId))
      ensures outcome == Await(parse, old(incoming), old(nextId)).0
    {
      hide ReadFrame, WriteFrame;
      var id := nextId;
      nextId := nextId + 1;
      outgoing := outgoing + WriteFrame(payload(id));
      while true
        invariant nextId == old(nextId) + 1 && outgoing == old(outgoing) + WriteFrame(payload(id))
        invariant Await(parse, incoming, id) == Await(parse, old(incoming), id)
        decreases |incoming|
      {
        match ReadFrame(incoming) {
          case Err(e) => return Err(e);
          case Ok((body, rest)) =>
            ReadFrameShortens(incoming);
            incoming := rest;
            match parse(body) {
              case None => return Err(BadJson);
              case Some(reply) => if reply.id == Some(id) { return Outcome(reply); }
            }
        }
      }
    }
  }

  /** A server's error fails the request, even beside a result; else the result is returned, or an empty object. */
  predicate Conveys(outcome: Result<string, Error>, reply: Reply) {
    && (outcome.Err? <==> reply.error.Some?)
    && (outcome.Err? ==> outcome.error == ServerError(reply.error.value))
    && (outcome.Ok? ==> outcome.value == if reply.result.Some? then reply.result.value else "{}")
  }

  /**
   * A request skips every frame that is not its own reply, in particular late
   * replies to earlier requests, and stops right after its own.
   */
  lemma {:induction false} AwaitFindsOwnReply(
    parse: string -> Option<Reply>, others: seq<string>, own: string, rest: string, id: nat)
    requires forall b :: b in others ==> |b| < USIZE_LIMIT && parse(b).Some? && parse(b).value.id != Some(id)
    requires |own| < USIZE_LIMIT && parse(own).Some? && parse(own).value.id == Some(id)
    ensures Await(parse, WriteFrames(others) + (WriteFrame(own) + rest), id) == (Outcome(parse(own).value), rest)
    ensures Conveys(Outcome(parse(own).value), parse(own).value)
  {
    hide ReadFrame, WriteFrame;
    if others == [] {
      assert "" + (WriteFrame(own) + rest) == WriteFrame(own) + rest;
      FrameRoundTrip(own, rest);
    } else {
      var later := WriteFrames(others[1..]) + (WriteFrame(own) + rest);
      assert WriteFrames(others) + (WriteFrame(own) + rest) == WriteFrame(others[0]) + later;
      FrameRoundTrip(others[0], later);
      AwaitFindsOwnReply(parse, others[1..], own, rest, id);
    }
  }

  // ---- A whole session ----

  /**
   * What the server writes between one request and its reply, late and unasked-for
   * replies included, and that reply.
   */
  datatype Exchange = Exchange(others: seq<string>, own: string)

  function Traffic(exchanges: seq<Exchange>): string {
    if exchanges == [] then ""
    else WriteFrames(exchanges[0].others) + (WriteFrame(exchanges[0].own) + Traffic(exchanges[1..]))
  }

  /** Reply `k` carries the id of request `k`; nothing before it does. */
  predicate Answering(parse: string -> Option<Reply>, exchanges: seq<Exchange>, first: nat) {
    forall k :: 0 <= k < |exchanges| ==>
      && |exchanges[k].own| < USIZE_LIMIT && parse(exchanges[k].own).Some?
      && parse(exchanges[k].own).value.id == Some(first + k)
      && forall b :: b in exchanges[k].others ==>
          |b| < USIZE_LIMIT && parse(b).Some? && parse(b).value.id != Some(first + k)
  }

  /** Requests made one after another, with ids counting up from `first`. */
  function AwaitAll(parse: string -> Option<Reply>, stream: string, first: nat, count: nat)
    : (seq<Result<string, Error>>, string)
    decreases count
  {
    if count == 0 then ([], stream)
    else
      var now := Await(parse, stream, first);
      var later := AwaitAll(parse, now.1, first + 1, count - 1);
      ([now.0] + later.0, later.1)
  }

  function Outcomes(parse: string -> Option<Reply>, exchanges: seq<Exchange>): seq<Result<string, Error>>
    requires forall k :: 0 <= k < |exchanges| ==> parse(exchanges[k].own).Some?
  {
    if exchanges == [] then [] else [Outcome(parse(exchanges[0].own).value)] + Outcomes(parse, exchanges[1..])
  }

  /**
   * Over a whole session every request gets its own reply, errors included,
   * however many late replies to earlier requests come in between.
   */
  lemma {:induction false} SessionMatchesReplies(
    parse: string -> Option<Reply>, exchanges: seq<Exchange>, rest: string, first: nat)
    requires Answering(parse, exchanges, first)
    ensures AwaitAll(parse, Traffic(exchanges) + rest, first, |exchanges|) == (Outcomes(parse, exchanges), rest)
    ensures |Outcomes(parse, exchanges)| == |exchanges|
    ensures forall k :: 0 <= k < |exchanges| ==> Conveys(Outcomes(parse, exchanges)[k], parse(exchanges[k].own).value)
    decreases |exchanges|
  {
    hide Await, WriteFrame, WriteFrames, Outcome, Conveys;
    if exchanges == [] {
      assert "" + rest == rest;
    } else {
      var others, own := exchanges[0].others, exchanges[0].own;
      var later := Traffic(exchanges[1..]) + rest;
      assert Traffic(exchanges) + rest == WriteFrames(others) + (WriteFrame(own) + later);
      AwaitFindsOwnReply(parse, others, own, later, first);
      SessionMatchesReplies(parse, exchanges[1..], rest, first + 1);
    }
  }
}
