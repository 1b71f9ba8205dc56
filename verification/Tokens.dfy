/** The context assembler's token estimate (bt-context, lib.rs). */
module Tokens {
  import opened Messages

  /** `chars / 4 + 8`. */
  function EstimateText(text: string): nat {
    |text| / 4 + 8
  }

  function EstimatePart(part: Part): nat {
    match part
    case Text(text) => EstimateText(text)
    case ToolCall(_, tool, arguments) => EstimateText(tool) + EstimateText(arguments)
    case ToolResult(_, tool, _, output) => EstimateText(tool) + EstimateText(output)
    case Refusal(Some(text), _, _) => EstimateText(text)
    case Structured(_, value) => EstimateText(value)
    case _ => 0
  }

  function EstimateParts(parts: seq<Part>): nat {
    if parts == [] then 0 else EstimatePart(parts[0]) + EstimateParts(parts[1..])
  }

  function EstimateMessage(message: Message): nat {
    EstimateParts(message.parts)
  }

  function Estimate(messages: seq<Message>): nat {
    if messages == [] then 0 else EstimateMessage(messages[0]) + Estimate(messages[1..])
  }

  /** What one part costs, in lengths: every text counts a quarter of its characters and 8 more; reasoning is free. */
  lemma PartCosts(part: Part)
    ensures var cost := EstimateParts([part]);
      match part
      case Text(text) => cost == |text| / 4 + 8
      case Reasoning(_, _, _) => cost == 0
      case ToolCall(_, tool, arguments) => cost == |tool| / 4 + |arguments| / 4 + 16
      case ToolResult(_, tool, _, output) => cost == |tool| / 4 + |output| / 4 + 16
      case Refusal(text, _, _) => cost == if text.Some? then |text.value| / 4 + 8 else 0
      case Structured(_, value) => cost == |value| / 4 + 8
  {
    assert [part][1..] == [];
  }

  lemma {:induction false} PartsAddUp(a: seq<Part>, b: seq<Part>)
    ensures EstimateParts(a + b) == EstimateParts(a) + EstimateParts(b)
  {
    if a == [] {
      assert a + b == b;
    } else {
      assert (a + b)[1..] == a[1..] + b;
      PartsAddUp(a[1..], b);
    }
  }

  /** A message costs what its parts cost, and a history what its messages cost. */
  lemma {:induction false} CostsAddUp(
    messages: seq<Message>, m: Message, before: seq<Part>, part: Part, after: seq<Part>)
    requires m in messages && m.parts == before + [part] + after
    ensures EstimateMessage(m) == EstimateParts(before) + EstimateParts([part]) + EstimateParts(after)
    ensures EstimateMessage(m) <= Estimate(messages)
  {
    hide EstimatePart;
    PartsAddUp(before + [part], after);
    PartsAddUp(before, [part]);
    var k :| 0 <= k < |messages| && messages[k] == m;
    assert messages == messages[..k] + [m] + messages[k + 1..];
    EstimateConcat(messages[..k] + [m], messages[k + 1..]);
    EstimateConcat(messages[..k], [m]);
    assert [m][1..] == [];
  }

  lemma {:induction false} EstimateConcat(a: seq<Message>, b: seq<Message>)
    ensures Estimate(a + b) == Estimate(a) + Estimate(b)
  {
    if a == [] {
      assert a + b == b;
    } else {
      assert (a + b)[1..] == a[1..] + b;
      EstimateConcat(a[1..], b);
    }
  }
}
