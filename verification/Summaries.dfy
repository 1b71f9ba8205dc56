/** Recognising and folding compaction summary messages (bt-context, lib.rs). */
module Summaries {
  import opened Wrappers
  import opened Text
  import opened Messages

  const COMPACTION_SUMMARY_MARKER := "[compaction summary]"

  const LEGACY_SUMMARY_FIRST_LINE := "Earlier" + " conversation compacted to fit the model context window."

  /** Strips one marker and the surrounding whitespace. */
  function NormalizeSummaryBody(text: string): string {
    var trimmed := Trim(text);
    Trim(if COMPACTION_SUMMARY_MARKER <= trimmed then trimmed[|COMPACTION_SUMMARY_MARKER|..] else trimmed)
  }

  /** The body of a synthetic summary message; `None` for every other message. */
  function SummaryMessageBody(message: Message): Option<string> {
    var trimmed := TrimStart(Join(TextParts(message.parts), "\n"));
    if message.role != System then None
    else if COMPACTION_SUMMARY_MARKER <= trimmed || LEGACY_SUMMARY_FIRST_LINE <= trimmed then
      var body := NormalizeSummaryBody(trimmed);
      if body == "" then None else Some(body)
    else None
  }

  predicate Recognized(message: Message) {
    SummaryMessageBody(message).Some?
  }

  lemma RecognizedIsSystem(message: Message)
    requires Recognized(message)
    ensures message.role == System
  {
  }

  /**
   * A System message is a summary when its text, but for leading whitespace,
   * starts with the marker and goes on with more than whitespace, or starts with
   * the legacy first line; its body is the rest, or all of the text, trimmed.
   */
  lemma SummaryForms(message: Message)
    ensures var text := Join(TextParts(message.parts), "\n");
      var body, start := SummaryMessageBody(message), TrimStart(text);
      if message.role != System then body == None
      else if COMPACTION_SUMMARY_MARKER <= start then
        var rest := start[|COMPACTION_SUMMARY_MARKER|..];
        body == if Blank(rest) then None else Some(Trim(rest))
      else if LEGACY_SUMMARY_FIRST_LINE <= start then body == Some(Trim(text))
      else body == None
  {
    var text := Join(TextParts(message.parts), "\n");
    var start := TrimStart(text);
    TrimFacts(text);
    TrimStartBlank(text);
    assert TrimStart(start) == start;
    hide TrimStart, TrimEnd, Join;
    if COMPACTION_SUMMARY_MARKER <= start {
      MarkerNormalizes(start, start[|COMPACTION_SUMMARY_MARKER|..]);
    } else if LEGACY_SUMMARY_FIRST_LINE <= start {
      LegacyNormalizes(start);
    }
  }

  lemma MarkerNormalizes(start: string, rest: string)
    requires start == COMPACTION_SUMMARY_MARKER + rest && TrimStart(start) == start
    ensures NormalizeSummaryBody(start) == Trim(rest) && (Trim(rest) == "" <==> Blank(rest))
  {
    var marker := COMPACTION_SUMMARY_MARKER;
    TrimEndConcat(marker, rest);
    TrimFacts(rest);
    assert TrimEnd(marker) == marker;
    assert Trim(start) == marker + if Blank(rest) then "" else TrimEnd(rest);
  }

  lemma LegacyNormalizes(start: string)
    requires LEGACY_SUMMARY_FIRST_LINE <= start && TrimStart(start) == start
    ensures NormalizeSummaryBody(start) == Trim(start) != ""
  {
    TrimFacts(start);
    TrimEndBlank(start);
    hide TrimEnd, TrimStart;
    var head := start[0];
    assert head == LEGACY_SUMMARY_FIRST_LINE[0] && head != COMPACTION_SUMMARY_MARKER[0];
    assert !Blank(start);
    assert Trim(start)[0] == head;
  }

  function SummaryText(body: string): string {
    COMPACTION_SUMMARY_MARKER + "\n" + body
  }

  function SummaryMessage(id: int, body: string, now: int): Message {
    NewMessage(id, System, [Part.Text(SummaryText(body))], now)
  }

  /** The history without its recognised summaries. */
  function Remaining(messages: seq<Message>): seq<Message> {
    if messages == [] then []
    else if Recognized(messages[0]) then Remaining(messages[1..])
    else [messages[0]] + Remaining(messages[1..])
  }

  /** The distinct recognised bodies, oldest first. */
  function FoldedBodies(messages: seq<Message>): seq<string> {
    if messages == [] then []
    else
      var folded := FoldedBodies(messages[..|messages| - 1]);
      match SummaryMessageBody(messages[|messages| - 1])
      case Some(body) => if body in folded then folded else folded + [body]
      case None => folded
  }

  method ExtractSummaryMessages(messages: seq<Message>) returns (folded: seq<string>, remaining: seq<Message>)
    ensures folded == FoldedBodies(messages)
    ensures remaining == Remaining(messages)
    ensures forall m :: m in remaining ==> !Recognized(m)
    ensures forall m :: m in messages && Recognized(m) ==> SummaryMessageBody(m).value in folded
  {
    hide SummaryMessageBody;
    folded, remaining := [], [];
    for i := 0 to |messages|
      invariant folded == FoldedBodies(messages[..i])
      invariant remaining == Remaining(messages[..i])
    {
      assert messages[..i + 1] == messages[..i] + [messages[i]];
      RemainingConcat(messages[..i], [messages[i]]);
      match SummaryMessageBody(messages[i]) {
        case Some(body) => if body !in folded { folded := folded + [body]; }
        case None => remaining := remaining + [messages[i]];
      }
    }
    assert messages[..|messages|] == messages;
    RemainingFacts(messages);
    FoldedFacts(messages);
  }

  lemma {:induction false} RemainingConcat(a: seq<Message>, b: seq<Message>)
    ensures Remaining(a + b) == Remaining(a) + Remaining(b)
  {
    if a == [] {
      assert a + b == b;
    } else {
      assert (a + b)[1..] == a[1..] + b;
      RemainingConcat(a[1..], b);
    }
  }

  lemma {:induction false} RemainingFacts(messages: seq<Message>)
    ensures forall m :: m in Remaining(messages) <==> m in messages && !Recognized(m)
    ensures (forall m :: m in messages ==> !Recognized(m)) ==> Remaining(messages) == messages
  {
    if messages != [] {
      RemainingFacts(messages[1..]);
      assert messages == [messages[0]] + messages[1..];
    }
  }

  lemma {:induction false} FoldedFacts(messages: seq<Message>)
    ensures forall m :: m in messages && Recognized(m) ==> SummaryMessageBody(m).value in FoldedBodies(messages)
    ensures (forall m :: m in messages ==> !Recognized(m)) <==> FoldedBodies(messages) == []
  {
    hide SummaryMessageBody;
    if messages != [] {
      var init, last := messages[..|messages| - 1], messages[|messages| - 1];
      FoldedFacts(init);
      assert messages == init + [last];
      assert forall m :: m in messages <==> m in init || m == last;
    }
  }

  /** A history with exactly one recognised summary folds to exactly that body. */
  lemma OneSummaryFolds(before: seq<Message>, summary: Message, after: seq<Message>)
    requires Recognized(summary)
    requires forall m :: m in before + after ==> !Recognized(m)
    ensures FoldedBodies(before + [summary] + after) == [SummaryMessageBody(summary).value]
  {
    FoldedFacts(before);
    assert forall m :: m in before ==> m in before + after;
    assert forall m :: m in after ==> m in before + after;
    assert (before + [summary])[..|before|] == before;
    QuietTail(before + [summary], after);
  }

  lemma {:induction false} QuietTail(messages: seq<Message>, after: seq<Message>)
    requires forall m :: m in after ==> !Recognized(m)
    ensures FoldedBodies(messages + after) == FoldedBodies(messages)
  {
    if after == [] {
      assert messages + after == messages;
    } else {
      var shorter := after[..|after| - 1];
      assert (messages + after)[..|messages + after| - 1] == messages + shorter;
      assert (messages + after)[|messages + after| - 1] == after[|after| - 1];
      assert after[|after| - 1] in after;
      QuietTail(messages, shorter);
    }
  }

  lemma MarkedTrim(marker: string, body: string)
    requires |marker| > 0 && !IsWhitespace(marker[0]) && !Blank(body)
    ensures TrimStart(marker + "\n" + body) == marker + "\n" + body
    ensures Trim(marker + "\n" + body) == marker + TrimEnd("\n" + body)
    ensures Trim(TrimEnd("\n" + body)) == Trim(body)
  {
    var rest := "\n" + body;
    assert marker + "\n" + body == marker + rest;
    assert !Blank(rest) by {
      var i :| 0 <= i < |body| && !IsWhitespace(body[i]);
      assert rest[i + 1] == body[i];
    }
    TrimEndConcat(marker, rest);
    TrimFacts(rest);
    TrimStartConcat("\n", body);
  }

  lemma TextOfSummary(id: int, body: string, now: int)
    ensures SummaryMessage(id, body, now).role == System
    ensures SummaryMessage(id, body, now).parts == [Part.Text(SummaryText(body))]
    ensures Join(TextParts(SummaryMessage(id, body, now).parts), "\n") == SummaryText(body)
  {
    var part := Part.Text(SummaryText(body));
    assert [part][..0] == [];
    assert Extend([], [part][..0]) == [];
    assert Extend([], [part]) == [part];
    assert [part][1..] == [];
  }

  /**
   * A summary written around a non-blank body is recognised, and the next
   * round reads back exactly that body, up to trimming, from the message and
   * from the text recorded in the compaction event alike.
   */
  lemma BodyRecovered(id: int, body: string, now: int)
    requires !Blank(body)
    ensures NormalizeSummaryBody(SummaryText(body)) == Trim(body)
    ensures SummaryMessageBody(SummaryMessage(id, body, now)) == Some(Trim(body))
    ensures Trim(body) != ""
  {
    TextOfSummary(id, body, now);
    MarkedTrim(COMPACTION_SUMMARY_MARKER, body);
    TrimFacts(body);
  }
}
