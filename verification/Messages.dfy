/** Messages, their parts, and how adjacent parts coalesce (bt-core, messages.rs). */
module Messages {
  import opened Wrappers

  datatype Role = System | User | Assistant | Tool

  /** JSON values carried by a part are represented by their printed text. */
  datatype Part =
    | Text(text: string)
    | Reasoning(thought: Option<string>, redacted: bool, replay: Option<string>)
    | ToolCall(callId: string, callTool: string, arguments: string)
    | ToolResult(resultId: string, resultTool: string, isError: bool, output: string)
    | Refusal(refusal: Option<string>, reason: Option<string>, metadata: Option<string>)
    | Structured(schema: Option<string>, value: string)

  datatype Message = Message(id: int, role: Role, parts: seq<Part>, createdAt: int)

  predicate DistinctIds(messages: seq<Message>) {
    forall i, j :: 0 <= i < j < |messages| ==> messages[i].id != messages[j].id
  }

  function VisibleText(part: Part): Option<string> {
    match part
    case Text(text) => Some(text)
    case Refusal(Some(text), _, _) => Some(text)
    case _ => None
  }

  function TextParts(parts: seq<Part>): seq<string> {
    if parts == [] then []
    else (match VisibleText(parts[0]) case Some(t) => [t] case None => []) + TextParts(parts[1..])
  }

  predicate CanCoalesce(left: Part, right: Part) {
    match (left, right)
    case (Text(_), Text(_)) => true
    case (Reasoning(_, l, None), Reasoning(_, r, None)) => l == r
    case _ => false
  }

  function Coalesced(left: Part, right: Part): Part
    requires CanCoalesce(left, right)
  {
    match (left, right)
    case (Text(a), Text(b)) => Text(a + b)
    case (Reasoning(Some(a), redacted, _), Reasoning(Some(b), _, _)) => Reasoning(Some(a + b), redacted, None)
    case (Reasoning(None, redacted, _), Reasoning(b, _, _)) => Reasoning(b, redacted, None)
    case (_, _) => left
  }

  function Push(parts: seq<Part>, part: Part): seq<Part> {
    if parts != [] && CanCoalesce(parts[|parts| - 1], part)
    then parts[..|parts| - 1] + [Coalesced(parts[|parts| - 1], part)]
    else parts + [part]
  }

  function Extend(parts: seq<Part>, added: seq<Part>): seq<Part> {
    if added == [] then parts
    else Push(Extend(parts, added[..|added| - 1]), added[|added| - 1])
  }

  /** What `Message::new` stores for the parts it is given. */
  function NewMessage(id: int, role: Role, parts: seq<Part>, now: int): Message {
    Message(id, role, Extend([], parts), now)
  }

  /** The loop of `extend_message_parts`, updating the last element in place. */
  method ExtendMessageParts(parts: seq<Part>, added: seq<Part>) returns (result: seq<Part>)
    ensures result == Extend(parts, added)
    ensures Normal(parts) ==> Normal(result)
    ensures Content(result) == Content(parts) + Content(added)
  {
    result := parts;
    for i := 0 to |added|
      invariant result == Extend(parts, added[..i])
    {
      var last := |result| - 1;
      if last >= 0 && CanCoalesce(result[last], added[i]) {
        result := result[last := Coalesced(result[last], added[i])];
      } else {
        result := result + [added[i]];
      }
      assert added[..i + 1][..i] == added[..i];
    }
    assert added[..|added|] == added;
    ExtendKeepsContent(parts, added);
    if Normal(parts) { ExtendIsNormal(parts, added); }
  }

  /**
   * Texts join texts; reasoning joins reasoning with the same redaction, when
   * neither has anything to replay; nothing else joins.
   */
  lemma NeighboursJoin(left: Part, right: Part)
    ensures Extend([left], [right]) ==
      if left.Text? && right.Text? then [Part.Text(left.text + right.text)]
      else if left.Reasoning? && right.Reasoning? && left.redacted == right.redacted
              && left.replay.None? && right.replay.None?
      then [Reasoning(if left.thought.None? then right.thought
                      else if right.thought.None? then left.thought
                      else Some(left.thought.value + right.thought.value), left.redacted, None)]
      else [left, right]
  {
    assert [right][..0] == [];
    assert Extend([left], [right]) == Push([left], right);
  }

  /** The visible texts are those of text parts and of refusals that have one, in order. */
  lemma {:induction false} VisibleTexts(before: seq<Part>, part: Part, after: seq<Part>)
    ensures TextParts(before + [part] + after) == TextParts(before)
      + (if part.Text? then [part.text]
         else if part.Refusal? && part.refusal.Some? then [part.refusal.value] else [])
      + TextParts(after)
  {
    if before == [] {
      assert before + [part] + after == [part] + after;
      assert ([part] + after)[1..] == after;
    } else {
      assert (before + [part] + after)[1..] == before[1..] + [part] + after;
      VisibleTexts(before[1..], part, after);
    }
  }

  // ---- Normal form ----

  predicate Normal(parts: seq<Part>) {
    forall i :: 0 < i < |parts| ==> !CanCoalesce(parts[i - 1], parts[i])
  }

  lemma {:induction false} ExtendIsNormal(parts: seq<Part>, added: seq<Part>)
    requires Normal(parts)
    ensures Normal(Extend(parts, added))
  {
    if added != [] {
      ExtendIsNormal(parts, added[..|added| - 1]);
    }
  }

  /** Re-coalescing parts that are already coalesced changes nothing. */
  lemma {:induction false} ExtendNormalIsIdentity(parts: seq<Part>, added: seq<Part>)
    requires Normal(parts + added)
    ensures Extend(parts, added) == parts + added
  {
    if added != [] {
      var shorter := added[..|added| - 1];
      assert parts + added == (parts + shorter) + [added[|added| - 1]];
      assert Normal(parts + shorter) by {
        forall i | 0 < i < |parts + shorter| ensures !CanCoalesce((parts + shorter)[i - 1], (parts + shorter)[i]) {
          assert (parts + added)[i - 1] == (parts + shorter)[i - 1] && (parts + added)[i] == (parts + shorter)[i];
        }
      }
      ExtendNormalIsIdentity(parts, shorter);
      var last := |parts + shorter|;
      assert last > 0 ==> (parts + added)[last - 1] == (parts + shorter)[last - 1];
      assert (parts + added)[last] == added[|added| - 1];
    }
  }

  /** Coalescing the new parts first, or not at all, gives the same result. */
  lemma {:induction false} ExtendByCoalesced(parts: seq<Part>, added: seq<Part>)
    ensures Extend(parts, Extend([], added)) == Extend(parts, added)
  {
    if added != [] {
      var shorter, part := added[..|added| - 1], added[|added| - 1];
      ExtendByCoalesced(parts, shorter);
      var first := Extend([], shorter);
      if first != [] && CanCoalesce(first[|first| - 1], part) {
        var init, last := first[..|first| - 1], first[|first| - 1];
        assert Extend([], added) == init + [Coalesced(last, part)];
        assert (init + [Coalesced(last, part)])[..|init|] == init;
        PushTwice(Extend(parts, init), last, part);
      } else {
        assert (first + [part])[..|first|] == first;
      }
    }
  }

  lemma PushTwice(parts: seq<Part>, a: Part, b: Part)
    requires CanCoalesce(a, b)
    ensures Push(Push(parts, a), b) == Push(parts, Coalesced(a, b))
  {
    if parts != [] && CanCoalesce(parts[|parts| - 1], a) {
      var init, last := parts[..|parts| - 1], parts[|parts| - 1];
      assert Push(parts, a) == init + [Coalesced(last, a)];
      assert (init + [Coalesced(last, a)])[..|init|] == init;
      assert Coalesced(Coalesced(last, a), b) == Coalesced(last, Coalesced(a, b)) by {
        if last.Text? {
          assert (last.text + a.text) + b.text == last.text + (a.text + b.text);
        } else if last.thought.Some? && a.thought.Some? && b.thought.Some? {
          var x, y, z := last.thought.value, a.thought.value, b.thought.value;
          assert (x + y) + z == x + (y + z);
        }
      }
    } else {
      assert (parts + [a])[..|parts|] == parts;
    }
  }

  /** A new message carries what it was given, its parts coalesced. */
  lemma NewMessageHolds(id: int, role: Role, parts: seq<Part>, now: int)
    ensures var m := NewMessage(id, role, parts, now);
      && m.id == id && m.role == role && m.createdAt == now
      && Normal(m.parts) && Content(m.parts) == Content(parts)
  {
    ExtendIsNormal([], parts);
    ExtendKeepsContent([], parts);
    assert Content([]) + Content(parts) == Content(parts);
  }

  // ---- Nothing said is lost ----

  /** What a part says, character by character; parts that never merge count as a whole. */
  datatype Atom = Said(c: char) | Thought(redacted: bool, t: char) | Whole(part: Part)

  function Characters(s: string): seq<Atom> {
    seq(|s|, i requires 0 <= i < |s| => Said(s[i]))
  }

  function Thoughts(redacted: bool, s: string): seq<Atom> {
    seq(|s|, i requires 0 <= i < |s| => Thought(redacted, s[i]))
  }

  function PartContent(part: Part): seq<Atom> {
    match part
    case Text(text) => Characters(text)
    case Reasoning(Some(text), redacted, None) => Thoughts(redacted, text)
    case Reasoning(None, _, None) => []
    case _ => [Whole(part)]
  }

  function Content(parts: seq<Part>): seq<Atom> {
    if parts == [] then [] else Content(parts[..|parts| - 1]) + PartContent(parts[|parts| - 1])
  }

  lemma MergedContent(left: Part, right: Part)
    requires CanCoalesce(left, right)
    ensures PartContent(Coalesced(left, right)) == PartContent(left) + PartContent(right)
  {
  }

  lemma ContentPush(init: seq<Part>, part: Part)
    ensures Content(init + [part]) == Content(init) + PartContent(part)
  {
    assert (init + [part])[..|init|] == init;
  }

  lemma {:induction false} PushKeepsContent(parts: seq<Part>, part: Part)
    ensures Content(Push(parts, part)) == Content(parts) + PartContent(part)
  {
    if parts != [] && CanCoalesce(parts[|parts| - 1], part) {
      var init, last := parts[..|parts| - 1], parts[|parts| - 1];
      MergedContent(last, part);
      ContentPush(init, Coalesced(last, part));
    } else {
      ContentPush(parts, part);
    }
  }

  lemma {:induction false} ExtendKeepsContent(parts: seq<Part>, added: seq<Part>)
    ensures Content(Extend(parts, added)) == Content(parts) + Content(added)
  {
    if added != [] {
      var shorter, part := added[..|added| - 1], added[|added| - 1];
      ExtendKeepsContent(parts, shorter);
      PushKeepsContent(Extend(parts, shorter), part);
    }
  }
}
