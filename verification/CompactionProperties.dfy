/** What a compaction keeps true: call/result pairing, the token fit, and one summary at a time. */
module CompactionProperties {
  import opened Wrappers
  import opened Text
  import opened Messages
  import opened Tokens
  import opened MessageUnits
  import opened Summaries
  import opened Retention
  import opened RetentionProperties
  import opened Compaction

  // ---- When there is a summary at all ----

  lemma {:induction false} FitLinesStart(lines: seq<string>, protectedCount: nat, maxTokens: nat)
    requires 0 < protectedCount <= |lines| && maxTokens > 0 && |lines[0]| > 0
    ensures FitLines(lines, protectedCount, maxTokens) != ""
    ensures FitLines(lines, protectedCount, maxTokens)[0] == lines[0][0]
  {
    if EstimateText(Join(lines, "\n")) > maxTokens && |lines| > protectedCount {
      FitLinesStart(lines[..|lines| - 1], protectedCount, maxTokens);
    }
  }

  /**
   * The digest is the longest prefix of its lines that fits, down to the
   * protected ones; those are cut when even they do not fit. Either way it
   * estimates to at most eight tokens more than allowed.
   */
  lemma {:induction false} DigestIsLongestPrefix(lines: seq<string>, protectedCount: nat, maxTokens: nat)
    returns (n: nat)
    requires 0 < protectedCount <= |lines|
    ensures protectedCount <= n <= |lines|
    ensures forall k :: n < k <= |lines| ==> EstimateText(Join(lines[..k], "\n")) > maxTokens
    ensures var whole, digest := Join(lines[..n], "\n"), FitLines(lines, protectedCount, maxTokens);
      && (EstimateText(whole) <= maxTokens ==> digest == whole)
      && (EstimateText(whole) > maxTokens ==>
            n == protectedCount && digest == if maxTokens * 4 < |whole| then whole[..maxTokens * 4] + "..." else whole)
      && EstimateText(digest) <= maxTokens + 8
  {
    hide Join;
    n := |lines|;
    assert lines[..n] == lines;
    if EstimateText(Join(lines, "\n")) > maxTokens && n > protectedCount {
      var init := lines[..n - 1];
      n := DigestIsLongestPrefix(init, protectedCount, maxTokens);
      assert forall k :: 0 <= k < |lines| ==> init[..k] == lines[..k];
    }
  }

  lemma TruncatedStart(text: string, budget: nat)
    requires text != "" && budget > 0
    ensures TruncateToTokens(text, budget) != "" && TruncateToTokens(text, budget)[0] == text[0]
  {
  }

  lemma NotBlankStart(text: string)
    requires text != "" && !IsWhitespace(text[0])
    ensures !Blank(text)
  {
  }

  lemma LegacyStart()
    ensures LEGACY_SUMMARY_FIRST_LINE != "" && !IsWhitespace(LEGACY_SUMMARY_FIRST_LINE[0])
  {
    assert LEGACY_SUMMARY_FIRST_LINE[0] == "Earlier"[0];
  }

  /** There is a fallback body iff something is dropped or folded, and it is never blank. */
  lemma FallbackExists(dropped: seq<Message>, folded: seq<string>, rendering: Rendering, budget: nat)
    ensures var body := FallbackBody(dropped, folded, rendering, budget);
      (body.Some? <==> dropped != [] || folded != []) && (body.Some? ==> !Blank(body.value))
  {
    hide FitLines, TruncateToTokens, Join, LinesOf;
    var chain := TruncateToTokens("Previous summary:\n" + Join(folded, "\n\n"),
                                  Max(budget / 2, SUMMARY_BUDGET_MIN_TOKENS));
    TruncatedStart("Previous summary:\n" + Join(folded, "\n\n"), Max(budget / 2, SUMMARY_BUDGET_MIN_TOKENS));
    NotBlankStart(chain);
    var chainTokens := if folded == [] then 0 else EstimateText(chain);
    if dropped != [] {
      var lines := DigestLines(dropped, rendering);
      FitLinesStart(lines, 1 + |rendering.fileLines(dropped)|, Max(SatSub(budget, chainTokens), 64));
      LegacyStart();
      var digest := BuildSummary(dropped, rendering, Max(SatSub(budget, chainTokens), 64)).value;
      assert digest[0] == LEGACY_SUMMARY_FIRST_LINE[0];
      assert (digest + "\n" + chain)[0] == digest[0];
      NotBlankStart(digest);
      NotBlankStart(digest + "\n" + chain);
    }
  }

  /** A compaction happens iff something is dropped or folded, or the model wrote a summary; its body is never blank. */
  lemma BodyExists(selection: Selection, options: Options)
    ensures var body := SummaryBody(selection, options);
      && (body.Some? <==> selection.dropped != [] || selection.folded != []
                          || (options.model.Some? && !Blank(options.model.value)))
      && (body.Some? ==> !Blank(body.value))
  {
    hide FallbackBody, TruncateToTokens, Estimate, Trim, Blank;
    var kept := Estimate(selection.prefix) + Estimate(selection.users) + Estimate(selection.tail);
    var room := Clamp(SatSub(options.budget, kept), 16, Max(selection.summaryBudget, 16));
    FallbackExists(selection.dropped, selection.folded, options.rendering, room);
    if options.model.Some? {
      TrimFacts(options.model.value);
      if Trim(options.model.value) != "" {
        TruncatedStart(Trim(options.model.value), Max(room, selection.summaryBudget));
        NotBlankStart(TruncateToTokens(Trim(options.model.value), Max(room, selection.summaryBudget)));
      }
    }
  }

  // ---- No compaction leaves the context alone ----

  lemma {:induction false} AgeUntouched(split: Split, units: seq<seq<Message>>, force: bool)
    requires forall k :: 0 <= k < |units| ==> units[k] != []
    ensures AgeForced(split, units, force).dropped == [] ==> AgeForced(split, units, force) == split
    decreases |units| - split.cut
  {
    if force && split.dropped == [] && split.cut + 1 < |units| {
      AgeUntouched(AgeUnit(split, units), units, force);
    }
  }

  lemma {:induction false} ShrinkUntouched(split: Split, frame: Frame, budget: nat)
    requires split.cut <= |frame.units| && forall k :: 0 <= k < |frame.units| ==> frame.units[k] != []
    ensures Shrink(split, frame, budget).dropped == [] ==> Shrink(split, frame, budget) == split
    decreases |split.users| + |frame.units| - split.cut
  {
    hide SortByTime;
    if Total(split, frame) <= budget {
    } else if split.users != [] {
      SortKeeps(split.dropped + [split.users[0]]);
      assert split.users[0] in multiset(GiveUpUser(split).dropped);
      ShrinkUntouched(GiveUpUser(split), frame, budget);
    } else if split.cut + 1 < |frame.units| {
      ShrinkUntouched(AgeUnit(split, frame.units), frame, budget);
    }
  }

  lemma {:induction false} NoOthers(messages: seq<Message>, ids: set<int>)
    requires Others(messages, ids) == []
    ensures Kept(messages, ids) == messages
  {
    if messages != [] { NoOthers(messages[1..], ids); }
  }

  lemma NothingDropped(frame: Frame, budget: nat, force: bool)
    requires forall k :: 0 <= k < |frame.units| ==> frame.units[k] != []
    requires FinalSplit(frame, budget, force).dropped == []
    ensures var final := FinalSplit(frame, budget, force);
      final.users + Flatten(frame.units[final.cut..]) == Flatten(frame.units)
  {
    hide Flatten, Shrink, AgeForced, UserIds, Kept, Others, TailStart, TrimOrphans;
    var first := FirstSplit(frame);
    ShrinkUntouched(AgeForced(first, frame.units, force), frame, budget);
    AgeUntouched(first, frame.units, force);
    var dropped := Flatten(frame.units[..first.cut]);
    NoOthers(dropped, UserIds(dropped, |dropped|, 0, {}, frame.userBudget));
    CutFlatten(frame.units, first.cut);
  }

  lemma NoneFolded(messages: seq<Message>, previous: Option<string>)
    requires Folded(messages, previous) == []
    ensures Remaining(messages) == messages
  {
    hide Recognized, SummaryMessageBody, NormalizeSummaryBody, FoldedBodies;
    FoldedFacts(messages);
    RemainingFacts(messages);
  }

  lemma SelectionUntouched(messages: seq<Message>, budget: nat, userConfig: nat, force: bool, previous: Option<string>)
    requires Retain(messages, budget, userConfig, force, previous).dropped == []
    requires Retain(messages, budget, userConfig, force, previous).folded == []
    ensures var selection := Retain(messages, budget, userConfig, force, previous);
      selection.prefix + selection.users + selection.tail == messages
  {
    hide *;
    var frame, split, selection := RetainParts(messages, budget, userConfig, force, previous);
    NoneFolded(messages, previous);
    FrameCoversHistory(messages, budget, userConfig, previous);
    UnitsFlatten(Flatten(frame.units));
    NothingDropped(frame, budget, force);
  }

  /** When nothing is dropped and no summary is carried, the context comes back exactly as it was. */
  lemma NoReportIsIdentity(messages: seq<Message>, options: Options)
    requires Compact(messages, options).report == None
    ensures Compact(messages, options).messages == messages
  {
    hide Retain, SummaryBody;
    var selection := SelectionFor(messages, options);
    BodyExists(selection, options);
    SelectionUntouched(messages, options.budget, options.userConfig, options.trigger.Forced?, options.previous);
    assert selection.prefix + selection.users + [] + selection.tail
        == selection.prefix + selection.users + selection.tail;
  }

  /**
   * The report carries the trigger and the summary's id, the number of messages
   * before, and the id of the first message kept behind the pinned prefix: of the
   * tail or, without one, of the retained users.
   */
  lemma ReportTells(messages: seq<Message>, options: Options)
    requires Compact(messages, options).report.Some?
    ensures var report, selection := Compact(messages, options).report.value, SelectionFor(messages, options);
      && report.trigger == options.trigger && report.summaryId == options.summaryId
      && report.messagesBefore == |messages|
      && report.firstKept == (if selection.tail + selection.users == [] then None
                              else Some((selection.tail + selection.users)[0].id))
      && exists m :: m in Compact(messages, options).messages && IsStamped(m, options)
  {
    hide Retain, SummaryBody, SummaryText;
    var selection := SelectionFor(messages, options);
    assert selection.messagesBefore == |messages| by { MessagesBefore(messages, options); }
    var summary := SummaryMessage(options.summaryId, SummaryBody(selection, options).value, options.now);
    assert summary in Compact(messages, options).messages && IsStamped(summary, options);
  }

  /** A System message under the summary's id, made at the time of the compaction. */
  predicate IsStamped(m: Message, options: Options) {
    m.id == options.summaryId && m.createdAt == options.now && m.role == System
  }

  lemma MessagesBefore(messages: seq<Message>, options: Options)
    ensures SelectionFor(messages, options).messagesBefore == |messages|
  {
    hide FrameOf, FinalSplit;
  }

  // ---- A call is never split from its result ----

  lemma {:induction false} RemainingWellPaired(open: set<string>, messages: seq<Message>)
    requires WellPaired(open, messages)
    ensures WellPaired(open, Remaining(messages)) && OpenAfter(open, Remaining(messages)) == OpenAfter(open, messages)
    decreases |messages|
  {
    if messages != [] {
      hide SummaryMessageBody;
      RemainingWellPaired(Step(open, messages[0]), messages[1..]);
      if Recognized(messages[0]) {
        RecognizedIsSystem(messages[0]);
        assert Step(open, messages[0]) == open;
      }
    }
  }

  lemma {:induction false} OnlySpeakersCarryTools(open: set<string>, messages: seq<Message>)
    requires WellPaired(open, messages)
    ensures forall m :: m in messages && (m.role.System? || m.role.User?) ==> CallIds(m) == {} && ResultIds(m) == {}
    decreases |messages|
  {
    if messages != [] { OnlySpeakersCarryTools(Step(open, messages[0]), messages[1..]); }
  }

  lemma TalkThenTail(talk: seq<Message>, tail: seq<Message>)
    requires NoToolParts(talk) && WellPaired({}, tail)
    ensures WellPaired({}, talk + tail)
  {
    hide *;
    NoToolPartsNeutral({}, talk);
    WellPairedConcat({}, talk, tail);
  }

  lemma SummaryIsTalk(id: int, body: string, now: int)
    ensures NoToolParts([SummaryMessage(id, body, now)]) && SummaryMessage(id, body, now).role == System
  {
    hide SummaryMessage;
    TextOfSummary(id, body, now);
  }

  /** Where the messages of a selection come from. */
  lemma SelectionSources(messages: seq<Message>, options: Options)
    ensures var selection := SelectionFor(messages, options);
      && (forall m :: m in selection.prefix ==> m.role == System)
      && (DistinctIds(messages) ==> forall m :: m in selection.users ==> m.role == User)
      && (forall m :: m in selection.prefix + selection.users + selection.tail ==> m in messages && !Recognized(m))
  {
    hide Retain, FrameOf, Recognized, Remaining;
    var force := options.trigger.Forced?;
    var selection := SelectionFor(messages, options);
    var frame, split, s := RetainParts(messages, options.budget, options.userConfig, force, options.previous);
    FrameCoversHistory(messages, options.budget, options.userConfig, options.previous);
    if DistinctIds(messages) {
      RetainedUsersInOrder(messages, options.budget, options.userConfig, force, options.previous);
    }
    RetentionIsPartition(messages, options.budget, options.userConfig, force, options.previous);
    RemainingFacts(messages);
    MembersOf(selection, Remaining(messages));
  }

  lemma MembersOf(selection: Selection, rest: seq<Message>)
    requires multiset(selection.prefix + selection.users + selection.dropped + selection.tail) == multiset(rest)
    ensures forall m :: m in selection.prefix + selection.users + selection.tail ==> m in rest
  {
    var all := selection.prefix + selection.users + selection.dropped + selection.tail;
    forall m | m in selection.prefix + selection.users + selection.tail ensures m in rest {
      assert m in all;
      assert m in multiset(all);
    }
  }

  // ---- Message ids stay distinct ----

  lemma {:induction false} DistinctOnce(messages: seq<Message>, m: Message)
    requires DistinctIds(messages)
    ensures multiset(messages)[m] <= 1
  {
    if messages != [] {
      var init, last := messages[..|messages| - 1], messages[|messages| - 1];
      assert messages == init + [last];
      DistinctOnce(init, m);
      if m == last {
        assert m !in init;
      }
    }
  }

  lemma TwiceInMultiset(messages: seq<Message>, i: nat, j: nat)
    requires i < j < |messages| && messages[i] == messages[j]
    ensures multiset(messages)[messages[i]] >= 2
  {
    var between, after := messages[i + 1..j], messages[j + 1..];
    assert messages == messages[..i] + [messages[i]] + between + [messages[j]] + after;
  }

  lemma DistinctPart(all: seq<Message>, part: seq<Message>)
    requires DistinctIds(all) && multiset(part) <= multiset(all)
    ensures DistinctIds(part)
  {
    forall i, j | 0 <= i < j < |part| ensures part[i].id != part[j].id {
      if part[i] == part[j] {
        TwiceInMultiset(part, i, j);
        DistinctOnce(all, part[i]);
      } else {
        assert part[i] in multiset(part) && part[j] in multiset(part);
        var k :| 0 <= k < |all| && all[k] == part[i];
        var l :| 0 <= l < |all| && all[l] == part[j];
      }
    }
  }

  lemma DistinctWithOne(before: seq<Message>, m: Message, after: seq<Message>)
    requires DistinctIds(before + after) && forall other :: other in before + after ==> other.id != m.id
    ensures DistinctIds(before + [m] + after)
  {
    var kept, all := before + after, before + [m] + after;
    forall i, j | 0 <= i < j < |all| ensures all[i].id != all[j].id {
      var k, l := if i < |before| then i else i - 1, if j < |before| then j else j - 1;
      if i == |before| {
        assert all[j] == kept[l] && kept[l] in kept;
      } else if j == |before| {
        assert all[i] == kept[k] && kept[k] in kept;
      } else {
        assert all[i] == kept[k] && all[j] == kept[l];
      }
    }
  }

  /** What a selection keeps is part of the history, without repetition. */
  lemma KeptDistinct(messages: seq<Message>, options: Options)
    requires DistinctIds(messages)
    ensures var selection := SelectionFor(messages, options);
      DistinctIds(selection.prefix + selection.users + selection.tail)
  {
    var selection := SelectionFor(messages, options);
    var force := options.trigger.Forced?;
    assert selection == Retain(messages, options.budget, options.userConfig, force, options.previous);
    hide *;
    FrameCoversHistory(messages, options.budget, options.userConfig, options.previous);
    RetentionIsPartition(messages, options.budget, options.userConfig, force, options.previous);
    var kept := selection.prefix + selection.users + selection.tail;
    var all := selection.prefix + selection.users + selection.dropped + selection.tail;
    assert multiset(kept) <= multiset(all);
    DistinctPart(Remaining(messages), kept);
  }

  /** Under an unused summary id, compaction keeps message ids distinct and brings in no other id. */
  lemma CompactionKeepsIds(messages: seq<Message>, options: Options)
    requires DistinctIds(messages) && forall m :: m in messages ==> m.id != options.summaryId
    ensures DistinctIds(Compact(messages, options).messages)
    ensures forall m :: m in Compact(messages, options).messages ==> m in messages || m.id == options.summaryId
  {
    hide SelectionFor, SummaryBody, SummaryMessage, Recognized, DistinctIds;
    var selection := SelectionFor(messages, options);
    match SummaryBody(selection, options)
    case None => NoReportIsIdentity(messages, options);
    case Some(body) =>
      SelectionSources(messages, options);
      KeptDistinct(messages, options);
      var summary := SummaryMessage(options.summaryId, body, options.now);
      SummaryHasId(options.summaryId, body, options.now);
      assert selection.prefix + selection.users + selection.tail
          == (selection.prefix + selection.users) + selection.tail;
      DistinctWithOne(selection.prefix + selection.users, summary, selection.tail);
  }

  lemma SummaryHasId(id: int, body: string, now: int)
    ensures SummaryMessage(id, body, now).id == id
  {
  }

  /** For a well-paired history the tail is well paired on its own and opens on no Tool message. */
  lemma TailIsWellPaired(messages: seq<Message>, options: Options)
    requires WellPaired({}, messages)
    ensures var tail := SelectionFor(messages, options).tail;
      WellPaired({}, tail) && (tail != [] ==> !tail[0].role.Tool?)
  {
    assert SelectionFor(messages, options)
        == Retain(messages, options.budget, options.userConfig, options.trigger.Forced?, options.previous);
    hide *;
    var frame, split, selection :=
      RetainParts(messages, options.budget, options.userConfig, options.trigger.Forced?, options.previous);
    FrameCoversHistory(messages, options.budget, options.userConfig, options.previous);
    RemainingWellPaired({}, messages);
    BodyWellPaired(frame.prefix, Flatten(frame.units));
    if frame.units != [] {
      UnitSuffixWellPaired(Flatten(frame.units), split.cut);
    } else {
      NothingPaired(frame.units[split.cut..]);
    }
  }

  lemma NothingPaired(units: seq<seq<Message>>)
    requires units == []
    ensures WellPaired({}, Flatten(units)) && Flatten(units) == []
  {
  }

  lemma BodyWellPaired(prefix: seq<Message>, body: seq<Message>)
    requires WellPaired({}, prefix + body) && forall m :: m in prefix ==> m.role == System
    ensures WellPaired({}, body) && NoToolParts(prefix)
  {
    hide WellPaired, OpenAfter, CallIds, ResultIds;
    WellPairedConcat({}, prefix, body);
    OnlySpeakersCarryTools({}, prefix);
    NoToolPartsNeutral({}, prefix);
  }

  /** The calls open after the history are those open after the tail alone. */
  lemma TailKeepsOpenCalls(messages: seq<Message>, options: Options)
    requires WellPaired({}, messages)
    ensures OpenAfter({}, SelectionFor(messages, options).tail) == OpenAfter({}, messages)
  {
    assert SelectionFor(messages, options)
        == Retain(messages, options.budget, options.userConfig, options.trigger.Forced?, options.previous);
    hide *;
    var frame, split, selection :=
      RetainParts(messages, options.budget, options.userConfig, options.trigger.Forced?, options.previous);
    FrameCoversHistory(messages, options.budget, options.userConfig, options.previous);
    RemainingWellPaired({}, messages);
    var units, body := frame.units, Flatten(frame.units);
    BodyWellPaired(frame.prefix, body);
    NoToolPartsNeutral({}, frame.prefix);
    OpenAfterConcat({}, frame.prefix, body);
    if units == [] {
      assert units[split.cut..] == units;
    } else {
      CutFlatten(units, split.cut);
      OpenAfterConcat({}, Flatten(units[..split.cut]), Flatten(units[split.cut..]));
      NothingOpenAtCut(body, split.cut);
    }
  }

  /** Compaction keeps exactly the calls still awaiting a result, so a late answer still finds its call. */
  lemma CompactionKeepsOpenCalls(messages: seq<Message>, options: Options)
    requires WellPaired({}, messages) && DistinctIds(messages)
    ensures OpenAfter({}, Compact(messages, options).messages) == OpenAfter({}, messages)
  {
    hide SelectionFor, SummaryBody, WellPaired, OpenAfter, SummaryMessage, CallIds, ResultIds, Recognized, DistinctIds;
    var selection := SelectionFor(messages, options);
    match SummaryBody(selection, options)
    case None => NoReportIsIdentity(messages, options);
    case Some(body) =>
      TailKeepsOpenCalls(messages, options);
      TalkOfSelection(messages, options, body);
      var talk := selection.prefix + selection.users + [SummaryMessage(options.summaryId, body, options.now)];
      NoToolPartsNeutral({}, talk);
      OpenAfterConcat({}, talk, selection.tail);
  }

  /** What stands before the tail in the compacted context carries no tool parts. */
  lemma TalkOfSelection(messages: seq<Message>, options: Options, body: string)
    requires WellPaired({}, messages) && DistinctIds(messages)
    ensures var selection := SelectionFor(messages, options);
      NoToolParts(selection.prefix + selection.users + [SummaryMessage(options.summaryId, body, options.now)])
  {
    hide SelectionFor, WellPaired, SummaryMessage, CallIds, ResultIds, Recognized, DistinctIds;
    var selection := SelectionFor(messages, options);
    SelectionSources(messages, options);
    OnlySpeakersCarryTools({}, messages);
    SummaryIsTalk(options.summaryId, body, options.now);
    var talk := selection.prefix + selection.users + [SummaryMessage(options.summaryId, body, options.now)];
    forall m | m in talk ensures !m.role.Tool? && CallIds(m) == {} && ResultIds(m) == {} {
      if m in selection.prefix || m in selection.users {
        assert m in selection.prefix + selection.users + selection.tail;
      } else {
        assert m in [SummaryMessage(options.summaryId, body, options.now)];
      }
    }
  }

  /**
   * Compaction keeps the transcript premise: in the compacted context no
   * result appears without its call before it, every Tool message answers
   * open calls, and the tail does not open on a Tool message.
   */
  lemma CompactionKeepsPairing(messages: seq<Message>, options: Options)
    requires WellPaired({}, messages) && DistinctIds(messages)
    ensures WellPaired({}, Compact(messages, options).messages)
    ensures var tail := SelectionFor(messages, options).tail; tail != [] ==> !tail[0].role.Tool?
  {
    hide SelectionFor, SummaryBody, WellPaired, SummaryMessage, CallIds, ResultIds, Recognized, DistinctIds;
    var selection := SelectionFor(messages, options);
    TailIsWellPaired(messages, options);
    match SummaryBody(selection, options)
    case None => NoReportIsIdentity(messages, options);
    case Some(body) =>
      TalkOfSelection(messages, options, body);
      TalkThenTail(selection.prefix + selection.users + [SummaryMessage(options.summaryId, body, options.now)],
                   selection.tail);
  }

  lemma InSuffix(body: seq<Message>, offset: nat, position: nat)
    requires DistinctIds(body) && offset <= |body| && position < |body|
    ensures body[position] in body[offset..] <==> offset <= position
  {
    if offset <= position { assert body[offset..][position - offset] == body[position]; }
  }

  /** In a compacted context, a message that is neither System nor User survives iff it is in the tail. */
  lemma SpeakerSurvivesInTail(messages: seq<Message>, options: Options, m: Message)
    requires DistinctIds(messages) && (m.role == Assistant || m.role == Tool)
    requires Compact(messages, options).report.Some?
    ensures m in Compact(messages, options).messages <==> m in SelectionFor(messages, options).tail
  {
    hide SelectionFor, SummaryBody, SummaryMessage, Recognized, DistinctIds;
    var selection := SelectionFor(messages, options);
    SelectionSources(messages, options);
    var body := SummaryBody(selection, options).value;
    SummaryIsTalk(options.summaryId, body, options.now);
  }

  lemma RemainingAround(before: seq<Message>, call: Message, after: seq<Message>)
    requires call.role != System
    ensures Remaining(before + [call] + after) == Remaining(before) + [call] + Remaining(after)
  {
    RemainingConcat(before + [call], after);
    RemainingConcat(before, [call]);
    hide SummaryMessageBody;
    if Recognized(call) { RecognizedIsSystem(call); }
    assert [call][1..] == [];
    assert Remaining([call]) == [call];
  }

  lemma CallPlace(
    messages: seq<Message>, before: seq<Message>, call: Message, after: seq<Message>)
    returns (early: seq<Message>)
    requires messages == before + [call] + after && call.role != System
    ensures var n := SystemPrefix(Remaining(messages));
      n <= |Remaining(before)| && early == Remaining(before)[n..]
      && Remaining(messages)[n..] == early + [call] + Remaining(after)
  {
    hide Remaining, SystemPrefix;
    RemainingAround(before, call, after);
    var rest := Remaining(messages);
    PrefixIsSystem(rest);
    var n := SystemPrefix(rest);
    assert rest[|Remaining(before)|] == call;
    assert forall i :: 0 <= i < n ==> rest[i] == rest[..n][i];
    early := Remaining(before)[n..];
  }

  /**
   * A call and the first message that answers it are kept or dropped together,
   * whatever the budget, the trigger and the summary; a call nothing answers
   * yet is never dropped.
   */
  lemma CallKeptIffAnswerKept(
    messages: seq<Message>, options: Options,
    before: seq<Message>, call: Message, between: seq<Message>, after: seq<Message>, id: string)
    requires DistinctIds(messages)
    requires messages == before + [call] + between + after
    requires call.role == Assistant || call.role == Tool
    requires id in CallIds(call) && forall m :: m in between ==> id !in ResultIds(m)
    requires after != [] ==> after[0].role == Assistant || after[0].role == Tool
    ensures after == [] ==> call in Compact(messages, options).messages
    ensures after != [] ==>
      (call in Compact(messages, options).messages <==> after[0] in Compact(messages, options).messages)
  {
    hide *;
    assert before + [call] + between + after == before + [call] + (between + after);
    var early := CallPlace(messages, before, call, between + after);
    var middle, late := AfterPlace(between, after);
    assert messages == before + [call] + between + after;
    CompactCases(messages, options, early, call, middle, late, id, after);
  }

  lemma AfterPlace(between: seq<Message>, after: seq<Message>) returns (middle: seq<Message>, late: seq<Message>)
    requires after != [] ==> after[0].role == Assistant || after[0].role == Tool
    ensures middle == Remaining(between) && late == Remaining(after) && Remaining(between + after) == middle + late
    ensures forall m :: m in middle ==> m in between
    ensures after == [] ==> late == []
    ensures after != [] ==> late != [] && late[0] == after[0]
  {
    hide SummaryMessageBody;
    RemainingConcat(between, after);
    RemainingFacts(between);
    middle, late := Remaining(between), Remaining(after);
    if after != [] && Recognized(after[0]) { RecognizedIsSystem(after[0]); }
  }

  lemma CompactCases(
    messages: seq<Message>, options: Options,
    early: seq<Message>, call: Message, middle: seq<Message>, late: seq<Message>, id: string, after: seq<Message>)
    requires DistinctIds(messages) && call in messages && (forall m :: m in after ==> m in messages)
    requires Remaining(messages)[SystemPrefix(Remaining(messages))..] == early + [call] + (middle + late)
    requires (call.role == Assistant || call.role == Tool) && id in CallIds(call)
    requires forall m :: m in middle ==> id !in ResultIds(m)
    requires after == [] ==> late == []
    requires after != [] ==> late != [] && late[0] == after[0] && (after[0].role == Assistant || after[0].role == Tool)
    ensures after == [] ==> call in Compact(messages, options).messages
    ensures after != [] ==>
      (call in Compact(messages, options).messages <==> after[0] in Compact(messages, options).messages)
  {
    if Compact(messages, options).report == None {
      hide *;
      NoReportIsIdentity(messages, options);
    } else {
      hide *;
      TailHoldsBoth(messages, options, early, call, middle, late, id);
      SpeakerSurvivesInTail(messages, options, call);
      if after != [] { SpeakerSurvivesInTail(messages, options, after[0]); }
    }
  }

  lemma TailHoldsBoth(
    messages: seq<Message>, options: Options,
    early: seq<Message>, call: Message, middle: seq<Message>, late: seq<Message>, id: string)
    requires DistinctIds(messages)
    requires Remaining(messages)[SystemPrefix(Remaining(messages))..] == early + [call] + (middle + late)
    requires id in CallIds(call) && forall m :: m in middle ==> id !in ResultIds(m)
    ensures late == [] ==> call in SelectionFor(messages, options).tail
    ensures late != [] ==>
      (call in SelectionFor(messages, options).tail <==> late[0] in SelectionFor(messages, options).tail)
  {
    hide *;
    var body := early + [call] + middle + late;
    assert body == early + [call] + (middle + late);
    var units, cut := TailOf(messages, options, body);
    CutFlatten(units, cut);
    CallNotCut(early, call, middle, late, id, cut);
    var offset := |Flatten(units[..cut])|;
    InSuffix(body, offset, |early|);
    assert body[|early|] == call;
    if late != [] {
      var answer := |early| + 1 + |middle|;
      InSuffix(body, offset, answer);
      assert body[answer] == late[0];
    }
  }

  lemma TailOf(messages: seq<Message>, options: Options, body: seq<Message>)
    returns (units: seq<seq<Message>>, cut: nat)
    requires DistinctIds(messages) && body == Remaining(messages)[SystemPrefix(Remaining(messages))..]
    ensures units == Units(body) && Flatten(units) == body && DistinctIds(body)
    ensures cut <= |units| && (body != [] ==> cut < |units|)
    ensures SelectionFor(messages, options).tail == Flatten(units[cut..])
  {
    hide Units, Flatten, FinalSplit, Remaining, SystemPrefix, DistinctIds, TimeOrdered, Folded;
    var frame, split, selection :=
      RetainParts(messages, options.budget, options.userConfig, options.trigger.Forced?, options.previous);
    units, cut := frame.units, split.cut;
    UnitsFlatten(body);
    FrameCoversHistory(messages, options.budget, options.userConfig, options.previous);
    assert frame.prefix + body == frame.prefix + body + [];
    DistinctSlice(frame.prefix, body, []);
  }
}
