# Belltower, verified

A Dafny model of the algorithms at the core of Belltower, an LLM agent harness,
with proofs of what they keep over whole loops and whole runs. `dafny verify
dfyconfig.toml` checks it.

| module | what it models |
|---|---|
| `Wrappers`, `Text`, `Tokens` | shared results, string functions of the Rust library, the estimate `chars/4 + 8` |
| `Messages` | message parts, coalescing, `Message::new` |
| `MessageUnits`, `Summaries`, `Retention`, `RetentionProperties`, `RetentionBudgets` | grouping history into indivisible units, recognising summaries, choosing what a compaction keeps |
| `Compaction`, `CompactionProperties`, `CompactionChain`, `FallbackContents`, `Planning` | composing the compacted context, chains of compactions, what a body without a model holds, when one fires and how plan and build agree |
| `CompactionFit`, `TailOpening` | exactly when a compacted context fits, and exactly when its tail can open on a tool result |
| `Conversation` | builds and turns one after the other, for any number of rounds |
| `ToolCallStream` | accumulating streamed parts and tool calls |
| `TurnProtocol`, `TurnStory`, `TurnState`, `TurnLoop` | the order in which a turn may cross its boundaries, what each boundary must tell, what holds of a run at every point, and the loop that keeps it |
| `OAuthRefresh`, `OAuthTokens` | the check, lock, re-check, refresh, reload protocol for rotating refresh tokens |
| `CanonicalJson`, `KeyOrder`, `Fnv`, `Fingerprint` | the approval fingerprint |
| `HelperFreshness` | the dependency search that decides whether a helper binary is fresh |
| `Sse`, `SseChunks`, `SseWire`, `McpFraming` | the incremental event-stream parsers, when chunking shows in them, what they read back, and the MCP stdio framing |
| `OtlpSpans`, `OtlpMessages` | deriving turn, LLM and tool spans from a session's events, and the messages and names they carry |

Code that updates variables in loops is a method, proved against a specification
function; the theorems are about that function. Parsers, the lock registry, the
MCP session and the dependency search keep their fields in classes. The turn loop
is a set of methods over explicit progress values: the provider, approver, tools,
observer and cancel signal are functions of the moment they are asked, so a
statement about every such function is a statement about every run. The refresh
protocol is a state machine over the steps of any number of tasks.

`TurnLoop.RunTurn` produces transcripts that are well paired and whose messages
have distinct ids, which is what `Planning.BuildKeepsPairing` needs.
`Conversation.TurnThenBuild` puts the two together: a request built from what a turn
itself produced never holds a tool result whose call was compacted away, when
message ids are minted once and tools answer under the call id they were given.
`Conversation.Converse` runs that over any number of rounds, each of which builds a
request from the stored history and runs a turn on it. Whether the store keeps the
whole history, as the runtime does (crates/bt-runtime/src/runtime/context.rs:337-469),
or puts the request in its place is up to each round.

## What does not hold

Six things one might expect are false of the code. Each has its exact condition,
with concrete inputs beside it where the condition alone does not name one.

- Chunking of an event stream shows in streams with CR CR LF, because each push
  normalises line ends again: `Sse.ChunkingNeverShowsIff`. When every chunk has
  at least one character, fewer streams show it, and which ones is
  `SseChunks.NonEmptyChunkingNeverShowsIff`.
- Injecting `call_id` changes what is hashed for arguments that are not an object,
  because it wraps them: `Fingerprint.InjectedIdKeepsFingerprint`,
  `Fingerprint.SplitUndoesInjection`.
- A reply lost between the server and the store makes the next task send a consumed
  refresh token: `OAuthRefresh.LostReplyIsSentAgain`, and exactly when that is still
  possible `OAuthTokens.CanSendConsumedIff`.
- A context compacted with a model-written summary may exceed its budget. It fits if
  and only if `CompactionFit.ContextFitsIff` says so. With room for the newest unit
  the overrun is at most 14 tokens (`CompactionChain.CompactedContextFits`), which is
  attained (`CompactionFit.OverrunIsAttained`), and the texts that never overrun are
  exactly those at least 50 characters shorter than four times what the plan reserves
  (`CompactionFit.AlwaysFitsIff`). Without that room the overrun has no bound
  (`CompactionFit.OverrunIsUnbounded`).
- A body without a model-written summary may lose part of the summaries it carries,
  against the comment at crates/bt-context/src/lib.rs:1049-1051. All of their text is
  kept as long as it is at most four characters for each token it is given, and just
  that much of it otherwise: `FallbackContents.FallbackHolds`,
  `FallbackContents.FoldedSurvive`, `FallbackContents.LongSummaryIsCut`.
- The tail may open on a tool result, against the comment at
  crates/bt-context/src/lib.rs:843. The trim loop keeps one unit even if it is an
  orphan, and forced ageing takes a unit off the tail without trimming again; the
  shrink loop alone never leaves one in front unless it is the newest. The exact
  condition is `TailOpening.NeverOpensOnToolIff`, two concrete histories are
  `TailOpening.LoneOrphanIsTheTail` and `TailOpening.ForcedAgeingUncoversOrphan`, and
  for well-paired histories `CompactionProperties.CompactionKeepsPairing` says it
  never happens.

The reload after a failed refresh (crates/bt-auth/src/lib.rs:237-245) can help only
when something other than a lock holder wrote the store:
`OAuthTokens.FailedRefreshIsAnError`.

## Model

| member | source | states |
|---|---|---|
| Messages.ExtendMessageParts | crates/bt-core/src/messages.rs:178-194 | the in-place loop keeps a coalesced list coalesced and keeps all visible and reasoning text, in order |
| Messages.ExtendIsNormal | crates/bt-core/src/messages.rs:125-194 | no two neighbouring parts of the result can still be coalesced |
| Messages.ExtendNormalIsIdentity | crates/bt-core/src/messages.rs:62-71 | rebuilding a message from parts that are already coalesced changes nothing |
| Messages.ExtendByCoalesced | crates/bt-core/src/messages.rs:178-194 | extending by parts and extending by the same parts coalesced first give one result |
| Messages.ExtendKeepsContent | crates/bt-core/src/messages.rs:144-194 | coalescing loses, adds and reorders no text |
| Messages.NeighboursJoin | crates/bt-core/src/messages.rs:178-194 | two texts join; reasoning joins reasoning of the same redaction when neither has a replay; nothing else joins |
| Messages.VisibleTexts | crates/bt-core/src/messages.rs:125-143 | the visible texts are those of text parts and of refusals that carry one, in order |
| Messages.NewMessageHolds | crates/bt-core/src/messages.rs:62-71 | a new message has the id, role and time it was given and the same content, coalesced |
| Tokens.PartCosts | crates/bt-context/src/lib.rs:1448-1467 | in lengths: every text costs a quarter of its characters and 8, calls and results cost name and payload, reasoning is free |
| Tokens.CostsAddUp | crates/bt-context/src/lib.rs:1440-1446 | a message costs the sum of its parts, and a history at least each of its messages |
| MessageUnits.BuildMessageUnits | crates/bt-context/src/lib.rs:1207-1232 | the units concatenate back to the history |
| MessageUnits.TakeUnit | crates/bt-context/src/lib.rs:1211-1229 | the inner loop takes the contiguous run of messages from an opening message to the point where no call is pending |
| MessageUnits.NothingOpenAtCut | crates/bt-context/src/lib.rs:1201-1232 | at every cut before the last unit no tool call awaits its result |
| MessageUnits.CallNotCut | crates/bt-context/src/lib.rs:1201-1232 | in any history, no cut falls between a call and the first message that answers it, and none follows a call nothing answers |
| MessageUnits.UnitSuffixWellPaired | crates/bt-context/src/lib.rs:827-851 | a suffix of whole units of a well-paired history is well paired by itself and does not open on a Tool message |
| Summaries.ExtractSummaryMessages | crates/bt-context/src/lib.rs:1005-1018 | every recognised summary is taken out and its body folded; nothing else is |
| Summaries.BodyRecovered | crates/bt-context/src/lib.rs:1022-1047 | a summary written around a non-blank body is recognised later and its body read back, up to trimming, from the message and from the recorded event text |
| Summaries.SummaryForms | crates/bt-context/src/lib.rs:1022-1047 | a message is a summary exactly when it is a System message that starts with the marker and says more, or starts with the legacy first line; its body is what follows the marker, or all of it, trimmed |
| Summaries.OneSummaryFolds | crates/bt-context/src/lib.rs:1005-1018 | a history with one recognised summary folds to exactly its body |
| Retention.WalkTail | crates/bt-context/src/lib.rs:827-851 | the backward walk and the orphan trim split the units into a prefix and a suffix at the cut the specification walk finds |
| Retention.SelectUsers | crates/bt-context/src/lib.rs:853-880 | retained and dropped messages are the members and non-members of the greedy user selection, both in order |
| Retention.AgeAndShrink | crates/bt-context/src/lib.rs:882-912 | the forced-ageing loop followed by the shrink loop refines the step-by-step specification, re-sort included |
| Retention.ResolveRetentionSelection | crates/bt-context/src/lib.rs:800-923 | the whole selection method refines the specification that all retention theorems are about |
| RetentionProperties.RetentionIsPartition | crates/bt-context/src/lib.rs:800-923 | prefix, retained users, dropped and tail are together a permutation of the non-summary history; the tail is a suffix of whole units that contains the newest one |
| RetentionProperties.DroppedInTimeOrder | crates/bt-context/src/lib.rs:877-910 | for a time-ordered history the dropped messages stay in time order through ageing, shrinking and every re-sort |
| RetentionProperties.RetainedUsersInOrder | crates/bt-context/src/lib.rs:853-876 | retained users are user messages with visible text and a subsequence of the history |
| RetentionProperties.TailIsLongest | crates/bt-context/src/lib.rs:827-841 | the tail starts at the smallest unit index whose suffix fits the tail budget, or at the newest unit when none fits |
| RetentionProperties.UsersAreGreedy | crates/bt-context/src/lib.rs:853-871 | a user message is retained if and only if it fits after everything newer that was retained; together they stay within the user budget |
| RetentionProperties.ShrinkFitsOrIsMinimal | crates/bt-context/src/lib.rs:890-912 | selection ends within the budget, or with no retained user and only the newest unit as tail |
| RetentionProperties.NothingToShrink | crates/bt-context/src/lib.rs:820-912 | with 64 tokens beside the prefix and a newest unit within the tail budget, the shrink loop removes nothing |
| RetentionProperties.BudgetsAddUp | crates/bt-context/src/lib.rs:820-825 | with at least 64 tokens beside the prefix, prefix, summary, user and tail budgets add up to exactly the prompt budget |
| RetentionProperties.SortIsStable | crates/bt-context/src/lib.rs:895-906 | the re-sort keeps messages of one creation time in their order |
| RetentionBudgets.BudgetShares | crates/bt-context/src/lib.rs:816-825 | the summary gets an eighth of what the prefix leaves, within 64 and 4096; users get half of the rest, capped by the configured budget; the tail gets what remains |
| RetentionBudgets.LongOutputsAreDropped | crates/bt-context/src/lib.rs:827-912 | for any history and options, only the newest unit of a tail can hold a tool output of four times the tail budget or more |
| Compaction.ComposeDigest | crates/bt-context/src/lib.rs:1345-1412 | the digest loop refines the line-popping specification; there is a digest exactly when something was dropped and some tokens are allowed |
| CompactionProperties.DigestIsLongestPrefix | crates/bt-context/src/lib.rs:1394-1409 | the digest is the longest prefix of its lines that fits, cut only when the protected lines alone do not fit, and estimates to at most 8 tokens over the limit |
| FallbackContents.DigestLinesAre | crates/bt-context/src/lib.rs:1354-1393 | the digest's lines are the first line, the file lines, and one line for each of the newest eight dropped messages, in order |
| FallbackContents.DigestShowsNewest | crates/bt-context/src/lib.rs:1383-1409 | a digest within its tokens shows each of those messages |
| FallbackContents.FallbackHolds | crates/bt-context/src/lib.rs:1049-1078 | without a model-written summary the body starts with the digest of what is dropped and holds the carried summaries: all of their text up to four characters a token, else just that much |
| FallbackContents.FoldedSurvive | crates/bt-context/src/lib.rs:1049-1078 | carried summaries that fit all occur in the body, each one whole |
| FallbackContents.EarlySummarySurvives | crates/bt-context/src/lib.rs:1049-1078 | over any number of rounds without a model, an early summary's text is still in the recorded one, as long as each round's body fits the next |
| FallbackContents.LongSummaryIsCut | crates/bt-context/src/lib.rs:1049-1088 | with nothing dropped, a carried summary longer than its tokens allow does not occur in the body |
| CompactionProperties.FallbackExists | crates/bt-context/src/lib.rs:1052-1078 | there is a fallback body exactly when something is dropped or folded, and it is never blank |
| CompactionProperties.BodyExists | crates/bt-context/src/lib.rs:945-969 | a compaction happens exactly when something is dropped or folded or the model wrote a non-blank summary |
| CompactionProperties.NoReportIsIdentity | crates/bt-context/src/lib.rs:961-968 | when no compaction is reported the context comes back message for message as it was |
| CompactionProperties.ReportTells | crates/bt-context/src/lib.rs:970-1001 | the report names trigger, summary id, the number of messages before, and the first message kept behind the prefix; the summary message bears that id and time |
| CompactionProperties.CompactionKeepsPairing | crates/bt-context/src/lib.rs:800-1001 | a well-paired history stays well paired through tail walk, trim, user retention, ageing, shrink and composition; the tail does not open on a Tool message |
| CompactionProperties.CallKeptIffAnswerKept | crates/bt-context/src/lib.rs:1201-1232 | the message of a call is in the compacted context if and only if the message of its first result is; the message of an unanswered call always is |
| CompactionChain.CompactionLeavesOneSummary | crates/bt-context/src/lib.rs:961-1001 | after a compaction the context holds exactly one recognised summary, whose body is the recorded one |
| CompactionChain.NextRoundFoldsOnce | crates/bt-context/src/lib.rs:807-814 | the next round folds that body once, whether or not the recorded event text is passed as well |
| CompactionChain.ChainNotStack | crates/bt-context/src/lib.rs:1003-1018 | over any number of append-then-compact rounds there is never more than one summary in the context, and each round folds exactly the previous one |
| CompactionChain.SummarySlack | crates/bt-context/src/lib.rs:1080-1088 | a model-written summary costs at most 14 tokens beyond its reservation, and a long one exactly 14 |
| CompactionChain.CompactedContextFits | crates/bt-context/src/lib.rs:942-982 | under the conditions of NothingToShrink, a context compacted with a model-written summary estimates to at most 14 tokens over the budget |
| CompactionFit.ContextFitsIff | crates/bt-context/src/lib.rs:942-982 | for any history and options, a context compacted with a model-written summary fits its budget if and only if what is written of the text stays 50 characters below four times the tokens left beside what is kept |
| CompactionFit.SummaryWithinReservationIff | crates/bt-context/src/lib.rs:1080-1088 | a summary costs no more than its reservation if and only if its trimmed text is at least 50 characters shorter than four times the reservation |
| CompactionFit.AlwaysFitsIff | crates/bt-context/src/lib.rs:945-982 | a text of at most that length never overruns the budget of a history with room for its newest unit, and every longer one overruns some such history |
| CompactionFit.OverrunIsAttained | crates/bt-context/src/lib.rs:942-982 | for every possible reservation there is a history that a long summary puts exactly 14 tokens over budget |
| CompactionFit.OverrunExample | crates/bt-context/src/lib.rs:942-982 | one concrete message, budget 512 and summary text give a context of 526 tokens |
| CompactionFit.OverrunIsUnbounded | crates/bt-context/src/lib.rs:890-912 | without that room there is no bound: under any options some one-message history ends more than any given number of tokens over budget |
| TailOpening.StopsAt | crates/bt-context/src/lib.rs:827-912 | a run's tail starts at the newest unit, at its first cut, or one unit further by forced ageing; the shrink loop leaves no other unit in front |
| TailOpening.NeverOpensOnToolIff | crates/bt-context/src/lib.rs:843-851 | over all budgets, triggers and previous summaries the tail opens on no Tool message, if and only if neither the newest unit nor one that forced ageing can uncover opens on one |
| TailOpening.LoneOrphanIsTheTail | crates/bt-context/src/lib.rs:844-851 | a lone tool result is the tail under every budget and trigger |
| TailOpening.ForcedAgeingUncoversOrphan | crates/bt-context/src/lib.rs:882-888 | a forced compaction of user, orphan result, assistant leaves a tail that opens on the orphan |
| Planning.PlanAgreesWithBuild | crates/bt-context/src/lib.rs:158-337 | without a usable override, a token-budget trigger compacts if and only if there is a plan; a forced one if and only if there is a plan and the candidate is smaller; the plan's transcript and reservation are those of build's own selection, within the summarizer's remaining window |
| Planning.BuildCompactsIff | crates/bt-context/src/lib.rs:158-240 | within window minus reserve, and within the configured fraction of the window as observed, an unforced build returns the history unchanged; over either it compacts if and only if something is dropped, folded or written by the model; a forced one if and only if the candidate exists and is smaller |
| Planning.PlanMadeIff | crates/bt-context/src/lib.rs:270-337 | there is a plan in the same cases, by force or over either limit, if and only if something is dropped or folded; its transcript fits what the summarizer's window leaves, or 512 tokens |
| Planning.BuildKeepsPairing | crates/bt-context/src/lib.rs:193-223 | the request that is built is well paired whenever the history is, and leaves exactly the same calls open, compacted or not |
| Planning.BuildKeepsIds | crates/bt-context/src/lib.rs:193-223 | under an unused summary id the request keeps message ids distinct and brings in no other id, compacted or not |
| Planning.BudgetScales | crates/bt-context/src/lib.rs:384-400 | an undercounted estimate scales the budget by estimated over observed, rounded down; no observation ever grows it |
| Planning.RenderSummarizationTranscript | crates/bt-context/src/lib.rs:1094-1139 | the transcript is header, elision note and lines from the cut the specification walk finds |
| Planning.TranscriptKeepsMaximalSuffix | crates/bt-context/src/lib.rs:1115-1124 | the lines kept are the longest suffix within the input budget, and always include the newest |
| Planning.TranscriptShows | crates/bt-context/src/lib.rs:1094-1139 | the transcript shows every folded summary and the line of every dropped message it keeps: the newest always, and as many as the input leaves room for, with the number of those omitted |
| ToolCallStream.CollectResponse | crates/bt-agent/src/lib.rs:637-725 | only the concatenation of the chunks decides parts and calls |
| ToolCallStream.CallsAreIndependent | crates/bt-agent/src/lib.rs:1023-1116 | however calls interleave, each id completes exactly what its own deltas alone complete, and the response fails if and only if the deltas of some one id fail |
| ToolCallStream.CompletedInCloseThenOpenOrder | crates/bt-agent/src/lib.rs:700-710 | completed calls come in close order, then the ids opened and not closed, in the order of their opening, all as read off the deltas |
| ToolCallStream.EveryOpenedCallCompletes | crates/bt-agent/src/lib.rs:1065-1088 | the number of calls completed for an id is the number of times it was opened while not open |
| ToolCallStream.SplittingIsInvisible | crates/bt-agent/src/lib.rs:645-707 | splitting a text delta or an argument delta anywhere in a stream changes neither parts nor calls |
| ToolCallStream.OneCallCompletes | crates/bt-agent/src/lib.rs:1048-1116 | a call opened, fed and closed completes with its name and the concatenation of what it was fed or, when that is blank, the arguments it was opened with, or none; a blank id or name fails the response |
| ToolCallStream.ReopeningReplaces | crates/bt-agent/src/lib.rs:1023-1046 | opening a call again replaces its name, and its arguments when new ones come with it |
| ToolCallStream.StrayDeltasFail | crates/bt-agent/src/lib.rs:1048-1080 | arguments for, or the close of, a call that is not open fail the response |
| ToolCallStream.SplittingReasoningIsInvisible | crates/bt-agent/src/lib.rs:645-685 | splitting a reasoning delta anywhere changes neither parts nor calls |
| ToolCallStream.CollectedPartsAreNormal | crates/bt-agent/src/lib.rs:645-685 | the collected parts are coalesced, carry exactly the streamed text, and are stored unchanged by the message built from them |
| TurnProtocol.OneFinishBeforeNextBoundary | crates/bt-agent/src/lib.rs:451-618 | every recorded request has exactly one finish before the next request or LLM start, logged for that request; where finishes echo, the result it reports carries that request's id |
| TurnProtocol.OneFinishAfterLastRequest | crates/bt-agent/src/lib.rs:485-601 | the last recorded request has one finish too, with the same ids, unless the run ends with that call open |
| TurnProtocol.ExecutionIsCleared | crates/bt-agent/src/lib.rs:520-567 | a tool executes only after its request was recorded and needs no approval or was approved, with nothing denied or finished in between, and not while cancelled |
| TurnProtocol.DeniedNeverExecutes | crates/bt-agent/src/lib.rs:548-567 | after a denial nothing executes before the next request or LLM start |
| TurnProtocol.OrdinalsCountUp | crates/bt-agent/src/lib.rs:338-428 | ordinals are 1..n with one finish each, except a last call the run broke off in |
| TurnProtocol.TotalIsComponentwise | crates/bt-agent/src/lib.rs:875-907 | the merged usage is the sum of every component, an optional one being present if any part is |
| TurnLoop.RunTurn | crates/bt-agent/src/lib.rs:303-620 | against any provider, approver, tools, observer and cancel signal, the trace obeys the protocol; each LLM call sees the initial messages and everything emitted before it; with tools that echo their call id the transcript is well paired, each call is followed by its own result, and every reported result carries the id of its call; message ids minted once stay distinct, and moments never go back; every event and message says what was answered: an assistant message the parts or the call of the latest response, a result what the tool answered when executed, or the denial or cancellation; a run fails only over a faulty answer, is cancelled only on a signal, and completes only on a response without calls |
| TurnLoop.CallLlm | crates/bt-agent/src/lib.rs:312-415 | one LLM call keeps the run sound on every way out, cancellation and failures included |
| TurnLoop.DeliverResponse | crates/bt-agent/src/lib.rs:416-449 | a finished response is reported once, adds its usage, one assistant message with exactly its parts if there are any, and queues exactly its calls; refused by the observer it adds no message |
| TurnLoop.HandleCall | crates/bt-agent/src/lib.rs:451-527 | one tool call leaves the run idle with that call off the queue, or stopped in a state its result allows |
| TurnLoop.ApproveAndExecute | crates/bt-agent/src/lib.rs:528-592 | from a recorded request, every approval outcome leads to one finish, a pause, or an error after one finish |
| TurnLoop.ExecuteToolCall | crates/bt-agent/src/lib.rs:727-795 | a tool runs once, and not when the signal is set; the outcome is then what it answered at the moment logged, id, name, error flag and output, or its error under the call's own id, and else a cancelled one |
| TurnStory.ResultsAreAnswers | crates/bt-agent/src/lib.rs:586-602 | every result message of a run shows the tool's answer of the execution logged since its request, or is an error under the call's own id, denied by a logged decision or cancelled by a set signal |
| TurnStory.ErrorOutputsDiffer | crates/bt-agent/src/lib.rs:967-976 | two failed calls have the same output only if they failed with the same error text |
| TurnLoop.FinishCall | crates/bt-agent/src/lib.rs:593-617 | an accepted result adds exactly one result message for its call; a refused one leaves the transcript as it was |
| TurnLoop.NothingBeginsOnceCancelled | crates/bt-agent/src/lib.rs:748-755 | no LLM call and no execution begins at a moment at which the cancel signal is set, nor later in the trace than such a moment |
| TurnLoop.EveryStartFinished | crates/bt-agent/src/lib.rs:339-428 | on every run that returns a result, ordinals are 1..n and each started call is finished |
| TurnLoop.OnlyPausesLeaveCallsOpen | crates/bt-agent/src/lib.rs:506-591 | only a run that pauses for approval or input ends with a recorded call unfinished, also among runs that fail |
| OAuthRefresh.NoConsumedTokenIsSent | crates/bt-auth/src/lib.rs:211-261 | for any interleaving of any number of tasks, replies that repeat or omit the refresh token included, no consumed token is sent as long as no reply that consumed one was lost on the way, dropped, or failed to be written |
| OAuthTokens.CanSendConsumedIff | crates/bt-auth/src/lib.rs:211-261 | from any reachable state, a continuation that loses no further reply can send a consumed token if and only if the stored one is consumed and no task is about to replace it |
| OAuthRefresh.LostReplyIsSentAgain | crates/bt-auth/src/chatgpt.rs:276-279 | after one lost reply the next task does send the consumed token, for every credential due for refresh |
| OAuthTokens.RefreshTokenIsCarriedOver | crates/bt-auth/src/chatgpt.rs:280-290 | at every step of every run a stored refresh token is kept, or replaced by exactly the one that the reply being stored brought |
| OAuthTokens.FailedRefreshIsAnError | crates/bt-auth/src/lib.rs:230-247 | in every reachable state the reload after a failed refresh finds no usable credential, since only lock holders write |
| OAuthTokens.LoadsSeeTheStore | crates/bt-auth/src/lib.rs:205-228 | both loads see what is stored at that moment, and a task that finds nothing returns nothing |
| OAuthTokens.RefreshesExactlyWhenDue | crates/bt-auth/src/lib.rs:536-560 | a task asks for the lock, and refreshes under it, exactly for a ChatGPT token with a refresh token that is unreadable or expires within 300 seconds, and returns any other |
| OAuthTokens.ReturnsFreshOrItsOwn | crates/bt-auth/src/lib.rs:211-261 | whatever the interleaving, a task returns such a credential only when it has just stored it itself |
| OAuthTokens.ReplyIsStored | crates/bt-auth/src/chatgpt.rs:280-290 | what is stored is the access token, expiry and refresh token of the reply, or the refresh token that was sent, however many steps of other tasks come in between |
| OAuthTokens.AloneATaskSucceeds | crates/bt-auth/src/lib.rs:211-261 | a task that finds the lock free returns the stored credential, refreshed first if it must be, and releases the lock |
| OAuthRefresh.StaleCredentialIsRefreshedOnce | crates/bt-auth/src/lib.rs:220-257 | all tasks that meet one stale credential cause at most one refresh, exactly one once any has a result, and all results are the stored fresh credential, as long as no reply goes unstored, by a dropped task or a failed write |
| OAuthRefresh.LockRegistry.LockFor | crates/bt-auth/src/lib.rs:303-315 | one lock per provider: a known provider gets the same lock, a new one a fresh lock, all others are unchanged |
| CanonicalJson.QuotePrefixFree | crates/bt-core/src/types.rs:706-713 | a quoted string can be read off the front of any text |
| CanonicalJson.TextPrefixFree | crates/bt-core/src/types.rs:706-737 | a printed value can be read off the front of any text that goes on with a delimiter |
| KeyOrder.CanonDecides | crates/bt-core/src/types.rs:714-737 | sorting keys at every depth decides equality up to key order |
| KeyOrder.CanonicalIsUnambiguous | crates/bt-core/src/types.rs:706-737 | two values with unique keys print the same text if and only if they are equal up to key order at every depth |
| KeyOrder.LessAtFirstDifference | crates/bt-core/src/types.rs:721-733 | keys are ordered by their first differing character, prefixes first |
| KeyOrder.CanonicalSample | crates/bt-core/src/types.rs:706-737 | one object printed: keys in order, control characters escaped, no spaces |
| Fnv.StableHash | crates/bt-core/src/types.rs:739-746 | the wrapping loop computes the 64-bit hash of the specification |
| Fnv.KnownHashes | crates/bt-core/src/types.rs:739-746 | the hashes of the empty text and of a single `a` are the published ones |
| Fnv.HashByteIsBijective | crates/bt-core/src/types.rs:741-744 | every byte step is a bijection on 64-bit states, with its inverse given |
| Fnv.SuffixKeepsDifference | crates/bt-core/src/types.rs:739-746 | unequal states stay unequal under any common suffix |
| Fnv.OneByteApart | crates/bt-core/src/types.rs:739-746 | inputs of equal length that differ in exactly one byte never hash alike |
| Fingerprint.HashedTextDecides | crates/bt-core/src/types.rs:657-672 | two requests hash the same text if and only if their arguments agree, up to key order, after dropping `call_id` at every depth |
| Fingerprint.FingerprintParts | crates/bt-core/src/types.rs:517-526 | two fingerprints are equal if and only if the tool names are equal and the hashes are |
| Fingerprint.Utf8IsInjective | crates/bt-core/src/types.rs:739-746 | the bytes hashed determine the text |
| Fingerprint.Utf8Samples | crates/bt-core/src/types.rs:739-746 | one character of each length has its UTF-8 bytes (section 7 of RFC 3629) |
| Fingerprint.HexSample | crates/bt-core/src/types.rs:745-745 | 0x1af in four digits prints as 01af |
| Fingerprint.InjectedIdKeepsFingerprint | crates/bt-agent/src/lib.rs:1010-1021 | injecting the agent's `call_id` keeps what is hashed if and only if the arguments are an object |
| Fingerprint.SplitUndoesInjection | crates/bt-mcp/src/lib.rs:463-474 | an MCP tool recovers the id and arguments the agent started from if and only if those are an object |
| Fingerprint.ExecutedWithId | crates/bt-agent/src/lib.rs:1010-1021 | a tool is executed with the agent's call id, in its own object or in a new one around any other value |
| Fingerprint.SplitFallsBack | crates/bt-mcp/src/lib.rs:463-474 | without a string under `call_id` the id is made from the tool's name, and the key is dropped all the same |
| HelperFreshness.Search.LatestCrateEdit | crates/belltower/src/launcher.rs:166-193 | on any finite, possibly cyclic graph the search terminates, adds only crates reachable from its root, leaves their dependencies visited, and returns the newest edit among what it added |
| HelperFreshness.LatestHelperSourceEdit | crates/belltower/src/launcher.rs:157-164 | the crates visited are exactly those reachable from the helper, each scanned once, and the result is their newest edit |
| HelperFreshness.SiblingIsFresh | crates/belltower/src/launcher.rs:139-155 | a readable binary is fresh if and only if it is at least as new as the edit time of every reachable crate |
| Sse.SseParser.Push | crates/bt-providers/src/sse.rs:18-46 | one push yields the events of the complete frames and leaves a buffer without a blank line |
| Sse.ChunkingIsInvisible | crates/bt-providers/src/sse.rs:18-46 | any cut of a stream without CR CR LF into chunks yields the events and the leftover of one push |
| Sse.ChunkingNeverShowsIff | crates/bt-providers/src/sse.rs:19-20 | at every point of a stream its state is independent of the chunking, empty chunks included, if and only if the stream has no CR CR LF |
| SseChunks.NonEmptyChunkingNeverShowsIff | crates/bt-providers/src/sse.rs:18-46 | at every point of a stream its state is independent of how it was cut into non-empty chunks, if and only if every CR CR LF but one at the very end is followed by LF and stands where the unfinished frame before it does not end in LF |
| SseChunks.TripleMayNotShow | crates/bt-providers/src/sse.rs:18-46 | CR CR LF LF has text after its CR CR LF and still yields the same state under every cut into non-empty chunks |
| SseWire.WrittenEventsReadBack | crates/bt-providers/src/sse.rs:18-46 | any sequence of events, written out in the event-stream format and cut anywhere, comes back with its types and data, nothing left over; the client gets the data |
| Sse.ClientSseParser.Push | crates/bt-client/src/lib.rs:1053-1074 | the client yields the data of exactly the events the provider parser yields, and keeps the same buffer |
| Sse.ClientIsProjection | crates/bt-client/src/lib.rs:1053-1074 | frame by frame the client's output is the provider's projected to the data |
| OtlpSpans.DeriveOtlpTurns | crates/bt-otel/src/otlp.rs:251-511 | a turn exists if and only if it has events, and holds exactly its own events in order |
| OtlpSpans.TurnsAgree | crates/bt-otel/src/otlp.rs:251-511 | each turn of the one-pass fold is the fold over that turn's own events, given the tool names and message history of the session so far |
| OtlpSpans.TurnInvariant | crates/bt-otel/src/otlp.rs:604-690 | active ordinals point at unfinished spans with that ordinal, call ids at their spans, and there is one LLM span per request, in order |
| OtlpSpans.TurnStepFacts | crates/bt-otel/src/otlp.rs:277-510 | one event keeps the index maps right, adds a span only for a request, and changes no closed span |
| OtlpSpans.SpansTellTheirCalls | crates/bt-otel/src/otlp.rs:317-385 | an LLM span holds one request, then its chunks, then at most the event that closed it with its reason; every span runs from its first event to its last |
| OtlpSpans.LlmSpansFilterByOrdinal | crates/bt-otel/src/otlp.rs:317-385 | when, read off the turn's events alone, requests use new ordinals and chunks and finishes name a call under way, an LLM span holds exactly the turn's events that name its ordinal, and besides them at most the error that broke it off |
| OtlpSpans.OneSpanPerCall | crates/bt-otel/src/otlp.rs:636-690 | each call id of a turn has exactly one tool span, holding exactly that call's events in order |
| OtlpSpans.ClosedSpanIsFinal | crates/bt-otel/src/otlp.rs:356-385 | a closed LLM span never changes, whatever events follow |
| OtlpSpans.SpansLieWithinTurn | crates/bt-otel/src/otlp.rs:277-316 | with nondecreasing times and the turn start first, every LLM and tool span lies within its turn |
| OtlpMessages.InputsAreNewest | crates/bt-otel/src/otlp.rs:317-345 | every LLM span has the ordinal of its request and, as input, the newest messages of the session at that point, as many as the request says |
| OtlpMessages.MessagesFindTheirSpan | crates/bt-otel/src/otlp.rs:263-281 | in an orderly turn each message goes to the latest call under way; with none under way, assistant messages are the turn's output and user messages end its input, which may start with the input of a call |
| OtlpMessages.ToolNamesAreRequested | crates/bt-otel/src/otlp.rs:650-670 | a tool span bears the name its call was last requested under by its first event, else that event's own |
| OtlpMessages.TurnTimes | crates/bt-otel/src/otlp.rs:286-316 | a turn starts at its last start event, or its first event, and ends with its last event |
| McpFraming.ReadFrameLoop | crates/bt-mcp/src/lib.rs:829-857 | the header loop reads the frame, or the error, of the specification |
| McpFraming.FrameRoundTrip | crates/bt-mcp/src/lib.rs:820-857 | reading a written frame returns its body and leaves what follows untouched |
| McpFraming.FramesRoundTrip | crates/bt-mcp/src/lib.rs:820-857 | any concatenation of written frames reads back as the bodies, in order |
| McpFraming.LengthParses | crates/bt-mcp/src/lib.rs:835-845 | a declared length is read with or without a plus sign, exactly when a 64-bit `usize` can hold it |
| McpFraming.StdioSession.Request | crates/bt-mcp/src/lib.rs:758-783 | a request uses the next id, writes one frame, and returns the outcome of waiting for its own reply |
| McpFraming.AwaitFindsOwnReply | crates/bt-mcp/src/lib.rs:768-782 | a request skips every frame with another id, late replies to earlier requests included, and stops right after its own |
| McpFraming.SessionMatchesReplies | crates/bt-mcp/src/lib.rs:758-783 | over a whole session every request gets its own reply, in order, however many late replies come in between; a server error fails the request, even beside a result |
| CompactionProperties.CompactionKeepsOpenCalls | crates/bt-context/src/lib.rs:800-1001 | the calls still awaiting a result after the compacted context are exactly those awaiting one in the history |
| Conversation.Converse | crates/bt-runtime/src/runtime/context.rs:337-469 | over any number of rounds of a build and a turn, whatever each build compacts, every request is well paired, has distinct message ids and holds at most one recognised summary, for new ids in every round, tools that echo their call id and arrivals that answer only open calls |
| Conversation.TurnThenBuild | crates/bt-context/src/lib.rs:193-223 | a request built from a turn's own outcome is well paired, whatever was compacted and however the turn ended short of an error, for fresh message ids and tools that echo their call id |

## Left out

- Context: tool-output truncation before planning, the file-activity lines and the one-line renderings of messages are given functions; JSON values inside parts are their printed text.
- Context: token sums are unbounded, so saturation at 64 bits is not modelled; the trigger fraction is a real number instead of a floating-point one; `sort_by_key` is a stable insertion sort.
- Context: the size of the fallback digest together with the carried summaries under tiny budgets, where the 64-token floors dominate, is not stated.
- CompactionProperties.CallKeptIffAnswerKept: stated for calls and results in Assistant and Tool messages of a history with distinct message ids, because retained users are selected by id; a user message is retained on its own.
- CompactionChain.CompactedContextFits: stated for model-written summaries only, because the fallback body has no bound below its floors.
- TailOpening.NeverOpensOnToolIff: stated for histories with distinct message ids, because retained users are selected by id.
- Conversation.Converse: a conversation ends with the first turn that fails; branch lineage and handoff summaries are left out, and messages of related sessions are arrivals like any other.
- TurnLoop.RunTurn: a run is cut after `fuel` LLM calls, because nothing in the loop bounds them; what holds of every cut run holds of every prefix of a longer one. Ordinals and usage are unbounded.
- TurnLoop: a failing stream and a failing chunk callback are one provider failure; resuming a paused turn, the result reported after an approval failure, the second registry lookup and tracing are left out; when a turn is cancelled right after a request was recorded, the result is also appended to the local request messages, which nothing reads any more.
- ToolCallStream: parsing the argument text as JSON is left out; a completed call keeps the raw text, and the call message shows it without the removal of `call_id`, which is in `Fingerprint`.
- TurnProtocol.DeniedNeverExecutes: speaks of the stretch up to the next request or LLM start, because a model may reuse a call id in a later, separate request.
- OAuthRefresh: one connection; logins and logouts that bypass the lock are excluded; a lost reply is an explicit step, and so is dropping a task before it stores its reply; replies that cannot be decoded count as lost.
- OAuthRefresh.NoConsumedTokenIsSent: assumes a server that hands out no refresh token it has issued before, except by repeating the one just sent.
- OAuthRefresh.StaleCredentialIsRefreshedOnce: assumes replies that stay fresh while the clock is within the horizon, because a token that is stale on arrival is refreshed again by design, and replies that are all stored, because the next task must refresh again after one that was not.
- Fingerprint: sorting and printing are two steps, where the code sorts while printing; numbers are their printed text.
- HelperFreshness: the file system, path normalisation and manifest parsing are given functions over a finite set of crates.
- Sse and McpFraming: characters stand for ASCII bytes, so lossy decoding of split code points and header lines that are not UTF-8 are not modelled.
- McpFraming.StdioSession.Request: where the stream stands after a framing or transport error is not specified; ids are unbounded.
- McpFraming.FrameRoundTrip: bodies are shorter than the largest length a 64-bit `usize` can hold, as they are in the source.
- OtlpSpans: the three per-turn index maps are fields of one record per turn; attributes, arguments, approval evidence, provider, model, usage and span ids are left out, and so is the final choice of which output messages a turn shows.
- HTTP, process spawning, the keychain, SQLite, the command line, the terminal interface, configuration, bt-runtime beyond the order of builds and turns, bt-session, bt-server and bt-tools are not part of this model.
