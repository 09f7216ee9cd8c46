# Jekylan, modelled and proved in Dafny

Jekylan is a conversation engine for large language models. This project models the parts of it whose
correctness is a matter of state and order, and proves what they keep, over every input and every run:

- the **query loop** with its streaming parser, recovery paths and tool turns (`QueryLoop`, `StreamParser`);
- the **session** that feeds the loop and rebuilds the transcript from the loop's events (`Engine`);
- **compaction**: token estimates, micro-compaction, the session-memory cut, thresholds and the breaker
  (`Tokens`, `Microcompact`, `SessionMemoryCompact`, `AutoCompact`);
- **playbooks**: the indentation parser and the plan interpreter (`PlaybookParser`, `Executor`);
- the **coordinator** of sub-agents (`Coordinator`);
- two small trackers: the **skill collector** and the **file tools** (`SkillCollector`, `FileTools`).

## How the model is built

Values are datatypes; objects that the program updates in place are classes with the same fields. Each
class has a ghost `View()`, and each of its methods is proved to take `View()` to what a specification
function says (`Process` to `Step`, `Turn` to `Iterate`, `AgentDone` to `HandleDone`). The main results are
then lemmas about those functions, by induction over whole runs.

Everything outside the program is a parameter. Replies of the model, the clock, cancellation, memory
files, tool answers and completion orders are a `Choice` per turn; agents are a `World` of functions of
everything asked so far; disk writes carry their own outcome and modification time; JSON decoding and path
cleaning are arbitrary functions. A theorem about all runs is about all values of these.

Pairing of tool uses with results ignores system messages, as both providers do
(`internal/llm/anthropic.go:118`, `internal/llm/openai.go:127`).

## Main results

1. **Replay.** Folding the loop's events over its initial messages gives the loop's own transcript at every
   turn, up to results cleared by micro-compaction (`ReplaySimulation`), and inside a turn after every single
   event (`ReplayInsideTurn`). The session performs that same fold, whatever notices and usage reports arrive in
   between (`SessionReplays`).
2. **Pairing.** Every list ever sent to the model is paired, through tool turns, recoveries and every kind of
   compaction (`RunSound`), and over any number of turns of a session, also one that starts with unanswered tool
   uses (`SessionStaysWellFormed`). For every transcript it is proved whether the repair at the start of a turn
   mends it (`RepairWorksIff`).
3. **Streams.** Whatever the chunking, the block dialect delivers exactly the encoded blocks and emits their
   text (`BlockStreamRoundTrip`); on the other dialect tool calls are the maximal runs of equal ids, with the
   text before the last of them (`PlainStreamMeaning`); events, message and flag mirror each other on every
   stream (`ParserMirror`); usage is, field by field, the last value reported (`UsageIsLastReported`). The loop's
   messages are those of whole streams, or it ends for the first reason not to read on (`AttemptsTell`).
4. **Compaction.** Both steps of the cut are optimal (`StepOneOptimal`, `StepTwoOptimal`). No result loses its
   use on a transcript in which only parts of the using response lie between the two, split responses
   included (`TurnLocalCutIsClosed`), and a transcript can be cut safely whatever comes after it if and only if
   it meets an exact condition on such messages (`CutIsClosedIff`). The kept suffix still meets the budget
   (`KeepIndexSuffices`) and nothing behind the last summarized message is lost (`TrySMKeeps`). Clearing is
   exact, idempotent and accounted for (`ApplyMeaning`, `ApplyIdempotent`, `SavingsAreExact`). What the pipeline
   does follows from the count, the settings and the outside alone (`PipelineMeaning`). The "too large" error is
   unreachable if and only if the threshold does not exceed the blocking limit (`BlockingUnreachableIff`).
5. **Termination.** Every run ends at most once, last, and within its turn limit plus its resumptions; tools are
   executed in no more turns than the limit (`OneEnding`, `RunTerminates`). A risky tool is
   called only if it was approved, where somebody can be asked, and the model is told what became of every use
   (`ToolMessageTells`).
6. **Plans.** Parsing a printed plan gives it back, exactly if no sub-plan looks like properties
   (`RoundTrip`). On every spawner that reuses no id, every agent of any execution is waited on once, or was
   killed because a later sibling failed to start (`NoOrphans`), and the variables and error of a whole plan are
   what its own spawn and wait answers tell, whatever the timing and whatever a kill does
   (`PlanOutcomeIsResults`). On any two spawners, executions given the same answers end alike
   (`SameAnswersSameOutcome`). Each phase fails with the error of its first failing step, sub-plans included,
   and binds the results of the agents that completed (`ParallelOutcomeIsResults`,
   `SequentialOutcomeIsResults`). The first agent to fail, and no other, has its later siblings killed
   (`FailureKillsTheRest`).
7. **Coordinator.** Agents move forward only, each Wait is answered once, first waits always get the final
   record whatever the interleaving, usage is conserved, and the confirm queue is first-in first-out exactly
   while no agent asks twice (`PhaseMoves`, `WaitAnsweredOnce`, `FirstWaitGetsFinal`, `UsageIsConserved`,
   `QueueIsFifo`, `AlwaysFaithfulIff`).
8. **Trackers.** Skill records stay well formed across restarts (`SkillCollector.RunSound`), and a successful
   write or edit replaces exactly what was last recorded (`OnlyKnownContentIsReplaced`).

## Where the code differs from what it says or intends

The model follows the code. Each point below is a proved lemma.

- A prompt refused inside the stream is reported with an empty error (`RefusedInsideStreamHasNoText`): the
  parser's message is dropped on that path. A turn that ends so says "Prompt is too long" if and only if the
  attempt that decided it was refused up front (`TooLongResult`).
- The legacy summary reads only `assistant_text` events, so on a stream in the block dialect it always fails
  (`BlockDialectHasNoSummary`); it succeeds if and only if no event is an error and some such event carries
  text (`SummarySucceedsIff`).
- A provider that names a tool call only in its first chunk has the call split in two, the second with no
  name and no id (`NamelessChunkSplitsCall`); a call stays whole if and only if every chunk repeats the id
  (`OneCallIffIdsRepeat`).
- The cut adjustment can keep a result and drop its use. Step one does it alone: it stops at the use of a
  result after the start, and an older use whose result lies between is dropped (`StepOneCanOrphan`). Step two
  does it by moving the cut back without running step one again (`StepTwoCanOrphan`). Neither happens,
  whatever follows the start, if and only if every assistant message between a use and its result that uses
  tools or is a named part leads step two back before the use (`CutIsClosedIff`). That holds when only parts of
  the using response lie between (`TurnLocalCutIsClosed`), and so on every paired transcript
  (`KeptSuffixPaired`).
- The repair of orphaned tool uses looks for its own placeholder in the message before the uses, where it
  never is. A transcript that ends unanswered is mended if and only if its last message is the assistant's and
  the message before does not look like a placeholder (`RepairWorksIff`). It fails when the assistant repeats an
  id, such as the empty id of a nameless call: the old result passes for the placeholder
  (`LookAlikeIsNotMended`). It fails
  when a notice arrives after the uses (`NoticePreventsRepair`), and with unique ids in no other case
  (`UniqueIdsNeverLookRepaired`).
- An agent that asks for confirmation again while queued leaves an entry behind that no request stands for
  (`SecondAskGoesStale`).
- Waiting before an agent ends leaves its finished record in the registry until another Wait; waiting after
  collects it (`WaitCommutesWithDone`).
- Reading a file records the path as given, while writing and editing look up the cleaned path, so reading
  under another spelling does not allow either (`OtherSpellingDoesNotCount`). After a read the guard passes if
  and only if the path given was the cleaned one, or that one is recorded with its current time
  (`ReadThenChangeIff`).
- A plain skill invoked while a workflow is active is not completed by its round (`PlainSkillLeftIncomplete`,
  `LeftIncompleteIff`).
- A new invocation drops all of a skill's records when the last is incomplete, not only the stale one the
  comment at `internal/memory/skillcollector.go:112-113` speaks of (`InvocationDropsCompleted`); the earlier ones
  survive if and only if there are none or the last is completed (`InvocationKeepsRecordsIff`).
- Micro-compaction clears every result outside the keep set, not only those of the tools it lists
  (`ApplyClearsExactlyTheRest`).

## Model

| member | source | states |
|---|---|---|
| Messages.ToolUses | internal/message/message.go:144-152 | the loop lists the tool uses of a message in order, matching their ids one by one |
| Messages.ToolResults | internal/message/message.go:155-163 | the loop lists the tool results in order |
| Messages.TextContent | internal/message/message.go:133-141 | the loop concatenates the text blocks |
| Messages.UseIdsMatch | internal/message/message.go:144-152 | ids and tool uses are the same fold: same length, same ids, empty together |
| Messages.RemoveFirstNoDuplicates | internal/agent/coordinator.go:544-551 | removing one entry from a duplicate-free list removes the entry altogether |
| Tokens.RoughTokenCount | internal/tokens/tokens.go:34-51 | the loop computes (3·ascii + 8·other)/12 rounded half up, without floating point |
| Tokens.RoughConcat | internal/tokens/tokens.go:34-51 | the estimate of a concatenation differs from the sum by at most one |
| Tokens.RoughIsNearest | internal/tokens/tokens.go:34-51 | the estimate is the whole number nearest to a quarter of the ASCII characters and two thirds of the others, halves upwards |
| Tokens.EstimateMessageTokens | internal/tokens/tokens.go:92-100 | the nested loops sum the block estimates of all messages |
| Tokens.BlockIsNearest | internal/tokens/tokens.go:60-90 | the estimate of a block is the whole number nearest to the weight of the text it is counted by |
| Tokens.EstimateConcat | internal/tokens/tokens.go:92-100 | estimates add over concatenation of transcripts |
| Tokens.EstimateIsSum | internal/tokens/tokens.go:92-100 | the estimate is the sum over all messages, and over their blocks (`ContentIsSum`) |
| Tokens.TokenCountWithEstimation | internal/tokens/tokens.go:155-184 | the backward scan returns the anchored count, or the plain estimate when nobody reported usage |
| Tokens.AnchorMeaning | internal/tokens/tokens.go:161-178 | the anchor opens the stretch that holds only parts of the reporting response and unnamed messages; any earlier part of it lies behind another response |
| Tokens.TokenCountAppend | internal/tokens/tokens.go:155-184 | appending messages without assistant usage raises the count by exactly their estimate |
| Tokens.TokenCountMeaning | internal/tokens/tokens.go:155-184 | exactly the four counters of the last reported usage plus the estimate of what stands behind the message that opens its response |
| Tokens.CountWithoutReport | internal/tokens/tokens.go:179-184 | without any report by the assistant the count is the estimate of the whole |
| Tokens.TokenCountLowerBound | internal/tokens/tokens.go:144-154 | the count is never below the reported usage plus the estimate of what follows |
| Pairing.ScanMeaning | internal/compact/sessionmemorycompact.go:94-96 | the left-to-right scan accepts exactly the transcripts in which every visible use is answered by the next visible message and every result answers one |
| Pairing.SuffixPaired | internal/compact/sessionmemorycompact.go:94-96 | cutting a paired transcript where nothing waits leaves a paired suffix |
| StreamParser.MergeUsage | internal/query/query.go:433-453 | non-zero fields overwrite, field by field; nil on either side yields the other |
| StreamParser.MergeAssociative | internal/query/query.go:426-432 | merging reports is associative, so only their order matters, not their grouping |
| ParserUsage.UsageIsLastReported | internal/query/query.go:426-453 | over a whole stream usage is present exactly if some event reports it, and each field is that of the last report in which it is not zero, or zero |
| ParserUsage.StopReasonIsLast | internal/query/stream_parser.go:136-138 | the stop reason is the last non-empty one reported |
| ParserUsage.ResponseIsNamed | internal/query/stream_parser.go:47-92 | the response is named by the last opening event that names one, or else by the first tool-call chunk that does |
| ParserUsage.ReceivedReports | internal/query/stream_parser.go:173-178 | the message of a whole stream carries that usage and that id, and the current time |
| StreamParser.Parser.Process | internal/query/stream_parser.go:45-151 | one event takes the parser's fields and the channel to the specified state, and returns the specified break and abort signals |
| StreamParser.Parser.ProcessToolUse | internal/query/stream_parser.go:83-102 | a chunk extends the pending call if the ids agree; otherwise it closes that call and opens a new one |
| StreamParser.Parser.ProcessBlockStop | internal/query/stream_parser.go:114-134 | the open block is appended by its type and the accumulators are cleared |
| StreamParser.Parser.FinalizeToolUse | internal/query/stream_parser.go:183-203 | the pending call is appended with its decoded input, or its opening input if decoding fails, and emitted |
| StreamParser.Parser.FlushOpenAI | internal/query/stream_parser.go:156-169 | pending text is appended first, then the pending call |
| StreamParser.Parser.FinalizeAssistantMsg | internal/query/stream_parser.go:173-178 | usage, response id and time are stamped on the message and nothing else changes |
| ParserProofs.ParserMirror | internal/query/stream_parser.go:45-203 | after any prefix of any stream, and after the flush, emitted tool-use events equal the message's tool uses in order and hasToolUse holds exactly if there is one, until a prompt-too-long error |
| ParserProofs.AfterSteps | internal/query/stream_parser.go:33-39 | what the channel carried before has no influence on what a stream produces |
| ParserProofs.StripCore | internal/query/stream_parser.go:47-57 | message-start, usage, message-delta and unknown events do not disturb content, wherever they fall |
| ParserProofs.BlockRebuilt | internal/query/stream_parser.go:58-134 | one encoded block, in any chunking, is appended as exactly that block and leaves the parser idle |
| ParserProofs.ToolInputIsDecoded | internal/query/stream_parser.go:183-203 | the input of a tool block is what its chunks decode to as a whole, or what it opened with if they are nothing or do not decode |
| ParserProofs.CallInputIsDecoded | internal/query/stream_parser.go:183-203 | the input of a call is what its arguments decode to, or none |
| ParserProofs.BlockStreamRoundTrip | internal/query/stream_parser.go:58-134 | a stream encoding a list of text, tool, thinking and redacted blocks is received as exactly those blocks in order, inputs decoded from the concatenated chunks, and the text of its text blocks is emitted |
| ParserProofs.RechunkingIsInvisible | internal/query/stream_parser.go:103-113 | two chunkings of the same blocks are received alike |
| ParserProofs.PlainStreamMeaning | internal/query/stream_parser.go:78-169 | without block events the content is the maximal runs of equal ids with concatenated arguments, the concatenated text before the last of them, and all the text is emitted |
| ParserProofs.RunsAreMaximal | internal/query/stream_parser.go:87-101 | neighbouring runs never share an id |
| ParserProofs.OneCallIffIdsRepeat | internal/query/stream_parser.go:87 | chunks make one call if and only if every chunk repeats the first id |
| ParserProofs.NamelessChunkSplitsCall | internal/query/stream_parser.go:87-101 | a second chunk without id becomes a second, nameless tool use |
| Microcompact.CollectCompactableToolIDs | internal/compact/microcompact.go:146-161 | the loops list the ids of bash and file_read uses in order |
| CompactionMeaning.CompactableMeaning | internal/compact/microcompact.go:146-161 | place by place, the ids are those of all bash and file_read uses of the assistant's, in the order of the transcript |
| Microcompact.ApplyTimeBasedMicrocompact | internal/compact/microcompact.go:95-144 | the loops over fixed-size buffers compute the specified clearing, its change flag and its saving |
| Microcompact.MicrocompactMessages | internal/compact/microcompact.go:48-81 | clearing is triggered by an enabled config, a last assistant message with a time, and a gap of at least the threshold |
| CompactionMeaning.MicroMeaning | internal/compact/microcompact.go:48-81 | clearing happens exactly if it is on and at least the gap has passed since the last assistant message, whose time must be known, with ten minutes and three results as defaults |
| Microcompact.ApplyKeepsShape | internal/compact/microcompact.go:93-144 | roles, block kinds, ids and order are kept, and only user messages are touched |
| Microcompact.ApplyClearsExactlyTheRest | internal/compact/microcompact.go:101-131 | results of the last max(1, keep) compactable uses survive and every other result is cleared |
| Microcompact.ApplyMeaning | internal/compact/microcompact.go:95-144 | something is changed exactly if there is a stale result: one of the user's, not cleared yet, of none of the last max(1, keep) uses; exactly the stale ones are cleared, and a message with one keeps role, time and other blocks and loses its metadata |
| Microcompact.ApplyIdempotent | internal/compact/microcompact.go:122-143 | clearing again with the same setting changes nothing |
| Microcompact.SavingsAreExact | internal/compact/microcompact.go:112-143 | estimate before = estimate after + saved − cleared count × estimate of the placeholder |
| SessionMemoryCompact.AdjustIndexToPreserveAPIInvariants | internal/compact/sessionmemorycompact.go:97-162 | the two backward loops compute the two-step adjustment |
| SessionMemoryCompact.StepOneOptimal | internal/compact/sessionmemorycompact.go:104-143 | step one yields the largest index that keeps a use of every kept result whose use lies before the cut |
| SessionMemoryCompact.StepTwoOptimal | internal/compact/sessionmemorycompact.go:145-159 | step two yields the largest index with no earlier part of a kept response |
| SessionMemoryCompact.CutIsClosed | internal/compact/sessionmemorycompact.go:94-96 | if the messages before the start are safe to cut and each id is used in one message, every result kept has its earlier use kept, whatever follows the start |
| SessionMemoryCompact.CutIsClosedIff | internal/compact/sessionmemorycompact.go:97-162 | a transcript is safe exactly if no continuation of it, cut at its end, keeps a result and drops its use; safe: every assistant message between a use and its result that uses tools or is a named part leads step two back before the use |
| SessionMemoryCompact.TurnLocalCutIsClosed | internal/compact/sessionmemorycompact.go:94-162 | if only further parts of the using response lie between a use and its result, and each id is used in one message, then for every start every result kept has its earlier use kept |
| SessionMemoryCompact.PairedIsTurnLocal | internal/compact/sessionmemorycompact.go:94-96 | on a paired transcript with unique ids no assistant message lies between a use and its result, and each id is used in one message |
| SessionMemoryCompact.CutIsSettled | internal/compact/sessionmemorycompact.go:94-96 | hence on a paired transcript with unique ids the cut never falls between a use and its answer |
| SessionMemoryCompact.KeptSuffixPaired | internal/compact/sessionmemorycompact.go:94-96 | hence the kept suffix of a paired transcript is paired and its ids unique |
| SessionMemoryCompact.StepOneCanOrphan | internal/compact/sessionmemorycompact.go:104-143 | two uses before two results, cut at the last result: step one alone keeps the first result and drops its use |
| SessionMemoryCompact.StepTwoCanOrphan | internal/compact/sessionmemorycompact.go:145-159 | a split response around a result of an earlier use: step two keeps the result and drops its use |
| SessionMemoryCompact.CalculateMessagesToKeepIndex | internal/compact/sessionmemorycompact.go:177-222 | the forward and backward loops compute the budget index and adjust it |
| SessionMemoryKept.KeepIndexMeaning | internal/compact/sessionmemorycompact.go:177-222 | the index before adjustment is the largest one, not behind the message after the last summarized one, whose suffix meets the budget, else zero; so nothing after the last summarized message is cut off |
| SessionMemoryCompact.BudgetIndexOptimal | internal/compact/sessionmemorycompact.go:174-219 | the index before adjustment is the largest whose suffix reaches the maximum or both minimums, else zero |
| SessionMemoryCompact.KeepIndexSuffices | internal/compact/sessionmemorycompact.go:198-221 | after adjustment the suffix still reaches the stop condition unless the whole transcript is kept |
| SessionMemoryCompact.KeepIndexIsClosed | internal/compact/sessionmemorycompact.go:177-222 | wherever the budget stops, on a transcript where only parts of the using response lie between use and result no result kept has lost its use |
| SessionMemoryCompact.TrySessionMemoryCompaction | internal/compact/sessionmemorycompact.go:281-336 | every early exit, the suffix without old boundaries behind boundary and summary, and the final size check |
| SessionMemoryKept.TrySMKeeps | internal/compact/sessionmemorycompact.go:281-336 | a result is the boundary, the summary and then, in order, every message from some index on that is no boundary, at most right after the first message of the last summarized response; it exists whenever there is memory, its response is found and the size is no limit, and it is below the threshold |
| SessionMemoryCompact.TrySMPaired | internal/compact/sessionmemorycompact.go:319-335 | session-memory compaction keeps a paired transcript paired and its ids unique |
| AutoCompact.BlockingImpliesCompacting | internal/compact/autocompact.go:108-144 | every count at the blocking limit is above the threshold, if and only if the threshold is not above the limit |
| AutoCompact.ThresholdBelowLimit | internal/compact/autocompact.go:79-96 | without overrides of either, an effective window of 3000 tokens suffices for that, and without a percentage is also needed |
| CompactionMeaning.ThresholdMeaning | internal/compact/autocompact.go:79-97 | an override, or 13000 below the window and never negative, or less: the whole tokens in the configured share of the window |
| CompactionMeaning.WindowMeaning | internal/compact/autocompact.go:67-77 | the window less 4096, never widened by the setting |
| CompactionMeaning.LimitMeaning | internal/compact/autocompact.go:128-134 | the blocking limit is its override, or 3000 below the window |
| AutoCompact.StreamCompactSummary | internal/compact/compact.go:52-78 | the loop returns the text of assistant_text events, the first error, or the empty-summary error |
| CompactionMeaning.SummaryMeaning | internal/compact/compact.go:52-78 | a summary is all the text of the stream; a stream with an error gives the text of its first error, a refusal its own |
| AutoCompact.SummaryIsText | internal/compact/compact.go:63-75 | a summary is reached exactly if no event is an error, and is empty if no event carries text |
| AutoCompact.SummarySucceedsIff | internal/compact/compact.go:52-78 | a stream gives a summary exactly if none of its events is an error and some assistant_text event is not empty |
| AutoCompact.BlockDialectHasNoSummary | internal/compact/compact.go:64-75 | hence without assistant_text events the legacy strategy always fails |
| AutoCompact.OverThresholdCompactsOrFails | internal/compact/autocompact.go:198-256 | above the threshold with the breaker closed an attempt compacts or errors, never passes |
| CompactionMeaning.AttemptMeaning | internal/compact/autocompact.go:198-256 | nothing happens below the threshold or with the breaker open; else session memory is used if it gives a result, and if not one summary of the whole transcript is asked for, whose rendering replaces it behind a boundary, or the failure is counted |
| AutoCompact.CompactedIsPaired | internal/compact/autocompact.go:235-255 | whichever strategy ran, the new transcript and the request for a summary are paired |
| QueryEvents.EventChannel.Send | internal/query/query.go:88-93 | events reach the listener in the order sent |
| QueryLoop.ExecuteTools | internal/query/query.go:304-361 | for every order in which the tools complete, the message carries one result per use, in the order of the uses, with the specified text and error flag |
| QueryMeaning.ToolMessageTells | internal/query/query.go:304-361 | block by block, from the answers alone: a result is a success exactly if the tool exists, is safe or was approved, and its call succeeded, and then it is the call's text; a refusal, a failed confirmation, a failed call and a missing tool each have their own error text |
| QueryMeaning.RefusedIsNotCalled | internal/query/query.go:323-340 | for a tool that was not permitted, whatever its call would give, the message is the same |
| QueryMeaning.DeclinedIsNotCancelled | internal/query/query.go:326-332 | a refusal and a failed confirmation give different texts |
| QueryLoop.Query.RunCompactionPipeline | internal/query/query.go:248-300 | micro-compaction, then auto-compaction or the breaker reset, then the blocking check unless something was compacted |
| CompactionMeaning.PipelineMeaning | internal/query/query.go:248-300 | at or over the threshold, with compaction on and for an ordinary query, the transcript is compacted or the run ends with the reason; otherwise it is only cleared, and blocked exactly at or over the limit |
| QueryLoop.Query.ReadStream | internal/query/query.go:159-183 | cancellation is checked before each event, errors abort, prompt-too-long stops, and otherwise the message is flushed and stamped |
| QueryLoop.Query.StreamWithFallback | internal/query/query.go:137-184 | each attempt sends the transcript; overload with a fallback retries, prompt-too-long gives up with its text, other errors end the run |
| QueryLoop.Query.SettleMessage | internal/query/query.go:186-237 | append and report the message; resume, finish, interrupt or run tools by flag, stop reason and cancellation |
| QueryLoop.Query.Turn | internal/query/query.go:104-238 | one turn of the loop takes its whole state and output to what Iterate says |
| QueryLoop.Query.Go | internal/query/query.go:88-242 | a run of the loop against any sequence of choices is Run |
| QueryMeaning.AttemptsTell | internal/query/query.go:137-184 | the first attempt that is not retried decides: read to its end, its whole stream is the message received, with everything it emits; at the first cancellation, refusal or error the reading stops and that is the reason; every attempt up to it is one request |
| QueryMeaning.ToolTurnTells | internal/query/query.go:186-237 | a turn with tool uses appends the message and one answer, sends both, and goes on; or, interrupted, answers every use with the same error and ends as aborted |
| QueryMeaning.TextTurnTells | internal/query/query.go:186-213 | a turn without tool uses asks to resume if it was cut off, and otherwise ends with the text of the message, its stop reason and the number of turns |
| QueryMeaning.HeadTells | internal/query/query.go:104-136 | a turn that does not ask the client has been cancelled, is over the limit and says so, or was ended by the compaction pipeline |
| QueryProofs.AttemptsEffect | internal/query/query.go:137-184 | streaming leaves the transcript alone, sends only deltas, repeats the transcript in every request, and delivers an assistant message mirrored by its events |
| QueryProofs.RunSteady | internal/query/query.go:100-238 | in every run: replay, one ending, a breaker count of zero at every loop head, and the turn limit |
| QueryProofs.ReplaySimulation | internal/query/query.go:100-238 | after every turn of every run, folding the events over the initial messages gives the loop's transcript up to cleared result contents |
| QueryProofs.ReplayInsideTurn | internal/query/query.go:137-238 | inside a turn the loop only appends once compaction is over, and after each event sent the events so far replay to the transcript so far |
| QueryProofs.OneEnding | internal/query/query.go:100-238 | a result or error event is sent at most once, as the last event, exactly if the run has ended |
| QuerySafety.RunSound | internal/query/query.go:100-238 | from a paired transcript with fresh reply ids, the transcript after every turn and every request ever sent are paired |
| QuerySafety.SettleSound | internal/query/query.go:186-237 | final messages, resumptions, interruptions and tool answers all keep the transcript paired |
| QuerySafety.SameTranscriptSound | internal/query/query.go:254-265 | clearing result contents changes neither pairing nor uniqueness of ids |
| QuerySafety.CompactionNeverBlocks | internal/query/query.go:248-300 | with compaction on and the threshold not above the limit, the pipeline never reports "too large" |
| QuerySafety.BlocksAtOnce | internal/query/query.go:289-297 | with the threshold above the limit, a transcript exactly at the limit is refused in the first turn |
| QuerySafety.BlockingUnreachableIff | internal/query/query.go:289-297 | "Context is too large" is unreachable from every transcript and in every run if and only if the threshold does not exceed the limit |
| QuerySafety.DefaultsNeverBlock | internal/compact/autocompact.go:79-144 | with no threshold or blocking override and an effective window of at least 3000 it never happens |
| QuerySafety.TurnsAreCounted | internal/query/query.go:200-237 | the turn counter is one more than the number of turns that executed tools, at most the limit; every other turn of a running loop was a resumption |
| QuerySafety.RunTerminates | internal/query/query.go:104-238 | with a turn limit, tools are executed in at most that many turns of any run, and a run of more turns than limit plus resumptions is over |
| QuerySafety.WaitingMeansRetrying | internal/query/query.go:142-157 | attempts stay unanswered exactly if every reply so far was an overload retried with the fallback model |
| QuerySafety.TooLongText | internal/query/query.go:137-184 | the first attempt that is not retried decides: too long exactly if it was refused as such, up front or inside its stream, with the words exactly up front |
| QuerySafety.TooLongResult | internal/query/query.go:175-198 | a turn ends as too long exactly then, and its last event is the failed result with those words, or with none |
| QuerySafety.RefusalIsInStream | internal/query/stream_parser.go:135-148 | a stream that ends so carries an event with the words, which the result leaves out |
| QuerySafety.RefusedInsideStreamHasNoText | internal/query/query.go:175-198 | one such stream: a single refusal event ends the turn with an empty error text |
| Engine.Session.HandleQueryEvent | internal/engine/engine.go:350-432 | each event's effect on transcript, usage, recent tools, text buffer, result and output |
| Engine.Session.RepairOrphanToolUses | internal/engine/engine.go:633-675 | the nested loops append one interrupted result per trailing use unless the message before looks like that repair |
| Engine.Session.RecordRecentTool | internal/engine/engine.go:556-571 | one name is moved to the end and the list cut to five |
| Engine.Session.RunTurn | internal/engine/engine.go:263-348 | repair, merge or append the prompt, serve events and commands in any interleaving, flush |
| SessionMeaning.TurnBeginsWithPrompt | internal/engine/engine.go:263-300 | the query gets the repaired transcript with the prompt as the last block of its last user message: a new message, or the one that was last already; the outcome of the turn before is forgotten and nothing else changes |
| SessionMeaning.RepairMeaning | internal/engine/engine.go:633-675 | one placeholder is added, and nothing else, exactly if the last message is the assistant's, uses tools and does not seem answered by the message before it |
| SessionMeaning.LooksRepairedMeaning | internal/engine/engine.go:648-668 | it seems answered exactly if the message before is the user's with as many results as there are uses and one for every id |
| EngineProofs.SessionReplays | internal/engine/engine.go:350-405 | notices aside, the session's transcript is the replay of the query's events in any interleaving with commands |
| SessionMeaning.ServeKeepsTranscript | internal/engine/engine.go:350-405 | every input, notices included, appends its own message, replaces the transcript or leaves it |
| SessionMeaning.EverythingIsTold | internal/engine/engine.go:350-432 | in any interleaving the caller is told, text aside, exactly one thing per input that has something to tell, in order: a failed result as an error, a successful one with its text |
| SessionMeaning.OutcomeIsLast | internal/engine/engine.go:350-432 | after a turn there is a result exactly if the query sent a result or an error, and it is the last one; the workflow is complete exactly if the tool that completes it was used |
| EngineProofs.TextIsConserved | internal/engine/engine.go:350-432 | text delivered plus text buffered is exactly the text sent, at every moment |
| EngineProofs.TurnDeliversAllText | internal/engine/engine.go:316-325 | at the end of a turn every delta has been delivered, in order |
| EngineProofs.UsageIsConserved | internal/engine/engine.go:688-699 | the total is the component-wise sum of all reports from the query and from outside |
| Messages.SumIsPerField | internal/engine/engine.go:688-699 | the sum of reports is taken field by field |
| EngineProofs.RecentToolsMeaning | internal/engine/engine.go:375-571 | in any interleaving, the session lists the last five of the distinct non-empty names of all tools announced, each once, in the order in which they were last used |
| SessionSafety.PromptKeepsPaired | internal/engine/engine.go:277-287 | adding the prompt neither breaks nor mends the pairing or the uniqueness of ids, for any transcript |
| SessionSafety.RepairWorksIff | internal/engine/engine.go:263-287 | any transcript is paired once a turn has begun exactly if it was, or it ends with unanswered uses in a last message of the assistant's and the message before does not look like a repair |
| SessionSafety.LookAlikeIsNotMended | internal/engine/engine.go:646-668 | use, result and use again of one id: the result passes for a repair, and the last use stays unanswered |
| SessionSafety.NoticePreventsRepair | internal/engine/engine.go:633-645 | a notice behind unanswered uses keeps them from being repaired |
| SessionSafety.UniqueIdsNeverLookRepaired | internal/engine/engine.go:646-668 | with unique ids the check for an earlier repair never fires |
| SessionSafety.BeginsWellIff | internal/engine/engine.go:263-287 | a turn begins with a paired transcript and unique ids exactly if the ids were unique and the transcript was paired or ended with the assistant's unanswered uses |
| SessionSafety.TurnKeepsWellFormed | internal/engine/engine.go:263-348 | if the turn begins so, then however the run ends the session's transcript is paired again and so was every request |
| SessionSafety.SessionStaysWellFormed | internal/engine/engine.go:263-348 | over any number of turns of a session whose first turn begins so, repaired or not, every request is paired and the session ends so |
| Templates.SubstVars | internal/playbook/executor.go:193-209 | the scan computes the filled text or all undefined names in order |
| Templates.SubstMeaning | internal/playbook/executor.go:193-209 | from the front of the template on, each reference is replaced by the value of its name and every other character stays; the names missing are those without a value, in order |
| Templates.TokenMeaning | internal/playbook/executor.go:193-197 | a reference is recognised exactly where a dollar, a brace, a name of word characters and a brace stand |
| Templates.UnparseTokens | internal/playbook/executor.go:193-197 | reading a template as literals and references loses nothing |
| Templates.SubstSucceedsIff | internal/playbook/executor.go:205-208 | substitution succeeds exactly if every referenced name has a value |
| Templates.FillDependsOnReferences | internal/playbook/executor.go:197-204 | only the values of referenced names matter |
| Executor.Executor.Execute | internal/playbook/executor.go:49-65 | the final variables, or the error alone when the plan failed |
| Executor.Executor.ExecutePlan | internal/playbook/executor.go:67-74 | phases run in order and the first failure stops the plan |
| Executor.Executor.ExecuteParallelPhase | internal/playbook/executor.go:88-140 | spawn all or kill those started, then wait for each in order with the first error kept |
| ExecutorKills.FailureKillsTheRest | internal/playbook/executor.go:102-137 | the log of a parallel phase, position by position: spawns, then per agent its Wait, a Kill for each later agent exactly if it is the first to fail and was found not completed, and what its sub-plan asks; a missing agent, a failed sub-plan or a later failure kills nobody |
| ExecutorKills.BrokenStartKills | internal/playbook/executor.go:89-100 | a phase that fails to start kills exactly the agents it has started, in order, before any Wait |
| Executor.Executor.ExecuteStep | internal/playbook/executor.go:142-159 | spawn, wait, bind, run the sub-plan, each failure with its cause |
| ExecutorKills.StepAsks | internal/playbook/executor.go:142-179 | a step asks for nothing if a variable is undefined, else for one Spawn with the filled prompt, and the confirmation directive if it is to confirm, one Wait if it started, and what its sub-plan asks if its agent completed |
| Executor.Executor.StartStep | internal/playbook/executor.go:161-179 | the prompt is filled, extended when confirmation is asked, and spawned |
| ExecutorProofs.StartBalanced | internal/playbook/executor.go:161-179 | a spawn adds one agent to the pending ones, or none when it fails |
| ExecutorProofs.SpawnAllBalanced | internal/playbook/executor.go:89-100 | spawning a parallel phase leaves exactly its distinct agents pending, or none when a spawn fails |
| ExecutorProofs.WaitAllBalanced | internal/playbook/executor.go:102-137 | after waiting on the first n agents exactly the others are pending, and of those spawned since only the ones abandoned in sub-plans are unwaited |
| ExecutorProofs.PlanBalanced | internal/playbook/executor.go:67-191 | the part of the log any plan writes mentions only its own agents, each waited on once, or killed and never waited on if it is one of those abandoned |
| ExecutorProofs.NoOrphans | internal/playbook/executor.go:67-191 | if the spawner reuses no id: every id returned by Spawn is afterwards waited on exactly once, or killed and not waited on, the latter exactly for agents already started in a parallel phase, at any depth, in which a later sibling failed to start; nothing is waited on or killed before it is spawned |
| ExecutorProofs.SuccessAbandonsNone | internal/playbook/executor.go:88-100 | a plan that succeeds has abandoned no agent, at any depth |
| ExecutorOutcome.ParallelPromptsUseStartVars | internal/playbook/executor.go:89-100 | all prompts of a parallel phase are filled from the variables at its start |
| ExecutorOutcome.ParallelOutcomeIsResults | internal/playbook/executor.go:102-139 | with or without sub-plans, the output of every agent that completed is its result, even after a failure, unless its sub-plan or a later step binds that name again; the phase fails exactly if some agent did not complete or its sub-plan failed, with the error of the first such step |
| ExecutorOutcome.SequentialOutcomeIsResults | internal/playbook/executor.go:77-83 | the phase fails exactly if a step it reaches does, with that error, and nothing is asked of the spawner after it; the output of every step reached whose agent completed is that agent's result, unless bound again |
| ExecutorOutcome.PlanKeeps | internal/playbook/executor.go:67-191 | a plan leaves a variable as it is, bound or not, if no step of it at any depth has that output |
| ExecutorOutcome.PlanTold | internal/playbook/executor.go:67-191 | from any state and on any spawner, a plan ends with the variables, the number of spawns and the error told by an interpreter that sees only the answers this run got to its spawns and waits |
| ExecutorOutcome.PlanOutcomeIsResults | internal/playbook/executor.go:49-191 | on every spawner that reuses no id, with no assumption on timing or kills, variables, error and number of spawns of an execution are what its own answers tell, in success and failure, with sub-plans to any depth |
| ExecutorOutcome.SameAnswersSameOutcome | internal/playbook/executor.go:49-191 | two executions, on any two spawners, that are given the same spawn answers and find the same records end with the same variables, error and spawns |
| PlaybookParser.BuildExecutionPlan | internal/playbook/parser.go:60-88 | the loops produce phases that flatten back to the nodes, none empty, neighbours of different kind |
| PlaybookParser.GroupMeaning | internal/playbook/parser.go:65-87 | grouping loses nothing and makes maximal phases |
| PlaybookParser.GroupIsUnique | internal/playbook/parser.go:65-87 | an alternating list of non-empty phases is the grouping of its own steps |
| PlaybookParser.ParseStepNodes | internal/playbook/parser.go:92-123 | the loop returns the listed nodes and stops at the first non-blank line indented less |
| PlaybookParser.ParseStepAt | internal/playbook/parser.go:127-161 | the step with its properties or sub-plan, and the first line after its children |
| PlaybookParser.BelowSplits | internal/playbook/parser.go:131-143 | skipping children first does not change where a list ends |
| PlaybookParser.FindChildListIndent | internal/playbook/parser.go:171-182 | indentation of the first list item among the children, if any |
| PlaybookParser.AllChildrenAreProperties | internal/playbook/parser.go:242-259 | exactly whether every list item at that indentation is a property |
| PlaybookParser.ParseChildProperties | internal/playbook/parser.go:184-197 | the properties at that indentation are applied in order, later ones winning |
| PlaybookMeaning.ItemMeaning | internal/playbook/parser.go:199-207 | any line is an item exactly with a number and a dot, or a bullet, and white space behind it, and its text is what follows |
| PlaybookMeaning.PropertyMeaning | internal/playbook/parser.go:230-290 | a property is recognised in any case by its word and colon and sets exactly its own field, quotes removed from a prompt, a confirmation set by true, yes or on |
| PlaybookMeaning.ChildIndentMeaning | internal/playbook/parser.go:171-182 | the indentation of the children is that of the first item among them, if there is one |
| PlaybookMeaning.TitleMeaning | internal/playbook/parser.go:209-228 | a title with a tag names the agent there; without one, the agent is what stands before the first colon, unless that is nothing |
| PlaybookMeaning.FindTagMeaning | internal/playbook/parser.go:212-214 | the leftmost tag names the agent |
| PlaybookMeaning.RemoveTagsMeaning | internal/playbook/parser.go:215 | the description is the title without any tag |
| PlaybookMeaning.TagIs | internal/playbook/parser.go:12 | a tag is an opening, white space, a name of letters, digits, underscores and hyphens, and a closing |
| PlaybookMeaning.CharacterClasses | internal/playbook/parser.go:10-12 | by code point, which characters are digits, which make up variable names, and which agent names |
| PlaybookParser.Parse | internal/playbook/parser.go:48-58 | the plan of the whole content, or an error when there are no steps |
| PlaybookPrinting.ReadLine | internal/playbook/parser.go:163-207 | a printed list line is read back with its indentation, marker kind and text |
| PlaybookPrinting.ReadTitle | internal/playbook/parser.go:209-228 | a printed title is read back as agent and description |
| PlaybookPrinting.ReadTagged | internal/playbook/parser.go:212-217 | the tagged form names the agent and leaves the rest, colons and all, as the description |
| PlaybookPrinting.ReadPrompt | internal/playbook/parser.go:265-268 | quoting lets any one-line prompt through unchanged |
| PlaybookRoundTrip.ReadProperties | internal/playbook/parser.go:184-197 | the printed properties of a step are recognised as such and give the step back |
| PlaybookRoundTrip.PlanPropertiesIff | internal/playbook/parser.go:242-259 | the printing of a sub-plan counts as properties exactly if all its first-level titles read as properties |
| PlaybookRoundTrip.StepParses | internal/playbook/parser.go:127-161 | a printed step, with anything after it, is read as itself exactly if no sub-plan in it looks like properties |
| PlaybookRoundTrip.PhasesParse | internal/playbook/parser.go:92-123 | a printed plan, with anything after it, is read as its nodes exactly under that condition |
| PlaybookRoundTrip.RoundTrip | internal/playbook/parser.go:48-161 | for every printable plan of any depth and any indentation width, parsing the printing gives the plan back if and only if no sub-plan has only property-like titles |
| Coordinator.Coordinator.Spawned | internal/agent/coordinator.go:319-337 | a new running agent under the next name, and nothing else |
| Coordinator.Coordinator.AgentDone | internal/agent/coordinator.go:401-446 | record, usage, sink, waiters in order, registry and confirm queue, or nothing for an unknown agent |
| Coordinator.Coordinator.Confirmed | internal/agent/coordinator.go:460-474 | the pending request is taken off in any case; the answer goes to its channel if that is still open |
| Coordinator.Coordinator.Waited | internal/agent/coordinator.go:501-515 | queue for a running agent, collect a finished one, answer nil otherwise |
| Coordinator.Coordinator.Listed | internal/agent/coordinator.go:517-523 | every running agent once, in some order |
| CoordinatorProofs.NamesDistinct | internal/agent/coordinator.go:320-321 | different counters give different agent names |
| CoordinatorProofs.RunSound | internal/agent/coordinator.go:271-317 | in every reachable state running and finished agents are disjoint, named below nextID, waiters exist only for running agents, and pending requests are queued |
| CoordinatorProofs.PhaseMoves | internal/agent/coordinator.go:319-515 | no agent moves back, and each move forward is made by exactly Spawn, Done and Wait |
| CoordinatorProofs.PhaseGrows | internal/agent/coordinator.go:271-317 | over a whole run an agent's phase only grows |
| CoordinatorProofs.KillCancelsTheRunning | internal/agent/coordinator.go:448-458 | a kill cancels exactly the running agents and leaves the registry alone |
| CoordinatorProofs.WaitAnsweredOnce | internal/agent/coordinator.go:501-515 | after any further events a Wait has been answered exactly once or is queued exactly once for a running agent |
| CoordinatorProofs.WaitIsImmediateUnlessRunning | internal/agent/coordinator.go:501-515 | a Wait is left open by its own step exactly if the agent is running; otherwise it gets the record, or nil |
| CoordinatorProofs.WaitCommutesWithDone | internal/agent/coordinator.go:401-446 | Wait and the agent's end commute but for the record left in the registry |
| CoordinatorRuns.FinalIsKept | internal/agent/coordinator.go:401-446 | an agent has ended exactly if it is finished or collected, and the record kept is its final one |
| CoordinatorRuns.FinalStory | internal/agent/coordinator.go:319-446 | a final record carries the definition and prompt of its Spawn and the outcome, result, error and usage of its end |
| CoordinatorRuns.AnswersAreFinal | internal/agent/coordinator.go:417-421 | whatever any Wait is told about an agent is that agent's final record |
| CoordinatorRuns.FirstWaitGetsFinal | internal/agent/coordinator.go:501-515 | the first wait on an agent gets its final record however spawning, ending and waiting interleave |
| CoordinatorRuns.SinkGetsTheTotal | internal/agent/coordinator.go:412-415 | the sink has received exactly what the total counts |
| CoordinatorRuns.UsageIsConserved | internal/agent/coordinator.go:553-564 | the total is the component-wise sum, over all agents spawned, of what each reported when it ended |
| ConfirmQueue.AskKeepsFaithfulIff | internal/agent/coordinator.go:476-478 | asking keeps the queue a duplicate-free listing of the pending agents exactly if the agent is not queued already |
| ConfirmQueue.OthersKeepFaithful | internal/agent/coordinator.go:444-474 | every other event keeps it so |
| ConfirmQueue.QueueIsFifo | internal/agent/coordinator.go:118 | in runs where no agent asks while queued, the queue lists exactly the agents with open requests, in order of arrival |
| ConfirmQueue.AlwaysFaithfulIff | internal/agent/coordinator.go:444-478 | over a whole run the queue lists exactly the pending agents at every moment if and only if no agent ever asks while queued |
| ConfirmQueue.OldestIsOldestOpen | internal/agent/coordinator.go:537-542 | then HasPendingConfirm names the agent whose open request is the oldest |
| ConfirmQueue.PendingIsLatest | internal/agent/coordinator.go:476-478 | in every run an agent's pending channel is that of its latest open request |
| ConfirmQueue.AnswerReachesLatest | internal/agent/coordinator.go:460-474 | in any run an answer goes to the channel of the agent's latest open request, if somebody listens there, and to nobody if it has none |
| ConfirmQueue.SecondAskGoesStale | internal/agent/coordinator.go:460-478 | an agent that asks again while queued is still listed after one answer, with no request behind it |
| ConfirmQueue.SecondAskExample | internal/agent/coordinator.go:460-478 | such a run exists |
| SkillCollector.SkillCollector.Invoke | internal/memory/skillcollector.go:103-133 | stale records dropped, workflow switched, one new open record |
| SkillCollector.InvocationMeaning | internal/memory/skillcollector.go:103-133 | a configured skill becomes pending, last; a workflow becomes the active one, a plain skill only ends its own; no other skill's records change |
| SkillCollector.TakeMeaning | internal/memory/skillcollector.go:200-224 | taking a skill's records leaves it without any and without its workflow, and touches nothing else |
| SkillCollector.SkillCollector.EndRound | internal/memory/skillcollector.go:139-198 | ends filled, the workflow kept open or finished, or all invoked skills completed and reported |
| SkillCollector.RoundRecords | internal/memory/skillcollector.go:139-198 | for every skill, which record a round changes, what end it is given and whether it is completed |
| SkillCollector.RoundReports | internal/memory/skillcollector.go:139-198 | what a round reports: nothing while a workflow stays open, the workflow when it ends, else the invoked skills in order |
| SkillCollector.SkillCollector.Save | internal/memory/skillcollector.go:226-244 | the loop copies the non-empty lists, or nil when there are none |
| SkillCollector.SnapshotRoundTrip | internal/memory/skillcollector.go:226-259 | restoring a snapshot brings back every record and the workflow, with nothing pending, and snapshots to the same again |
| SkillCollector.RunSound | internal/memory/skillcollector.go:103-259 | in every run with restarts and changing rules only the last record of a skill can be incomplete and an active workflow has one |
| SkillCollector.LeftIncompleteIff | internal/memory/skillcollector.go:159-197 | exactly which incomplete skills a round leaves incomplete |
| SkillCollector.PlainSkillLeftIncomplete | internal/memory/skillcollector.go:139-186 | a run in which a plain skill invoked during a workflow is left incomplete by its round |
| SkillCollector.InvocationKeepsRecordsIff | internal/memory/skillcollector.go:112-133 | the earlier records of a configured skill survive its invocation exactly if there are none or the last is completed; otherwise only the new record is left |
| SkillCollector.InvocationDropsCompleted | internal/memory/skillcollector.go:112-133 | a run in which a completed record followed by an incomplete one is dropped by the next invocation |
| SkillCollector.WorkflowSpansRounds | internal/memory/skillcollector.go:159-186 | a workflow over any number of rounds gets one record from its invocation to its last round, reported once |
| FileTools.Tools.FileRead | internal/tool/fileread.go:42-82 | the content and time are recorded under the path as given |
| FileTools.Tools.FileWrite | internal/tool/filewrite.go:38-96 | the guards in order, then the write and its record, or the file as a failed write left it |
| FileTools.Tools.FileEdit | internal/tool/fileedit.go:47-164 | the guards in order, exact match before quote-normalised match, one or all occurrences, the final newline, the write and its record |
| FileSafety.OperationMeaning | internal/tool/fileedit.go:47-164 | every read, write and edit is refused for the first reason there is, with nothing changed, or fails as the disk left it, or is done and recorded |
| FileSafety.EditMeaning | internal/tool/fileedit.go:104-150 | the file, as it is or else with straight quotes, is split at every occurrence of the text; none refuses the edit, several do unless all are to be replaced, and otherwise the pieces are joined by the new text with a final newline kept |
| FileSafety.QuotesMeaning | internal/tool/fileedit.go:112-134 | curly quotes count as straight ones of the same kind, and no other character is changed |
| FileSafety.OnlyKnownContentIsReplaced | internal/tool/filestate.go:47-57 | if changes behind the tools' back give fresh times, a successful write or edit of an existing file replaces exactly the content last recorded for its path, unchanged since, and an edit is computed from it |
| FileSafety.WriteSucceedsIff | internal/tool/filewrite.go:59-83 | writing an existing file succeeds exactly if its recorded time is current and the disk agrees |
| FileSafety.ReadThenChangeIff | internal/tool/fileread.go:75-79 | right after a read, a write or edit passes the guard exactly if the file was read under its cleaned path or that path is recorded with the current time |
| FileSafety.OtherSpellingDoesNotCount | internal/tool/fileread.go:75-79 | reading under another spelling of the path alone allows neither writing nor editing |
| FileSafety.SameTimeGoesUnseen | internal/tool/filestate.go:56 | a change that keeps the recorded time is overwritten unseen |
| FileSafety.ReplaceAllMeaning | internal/tool/fileedit.go:140-142 | replacing all occurrences keeps the text between them |
| FileSafety.ReplaceFirstMeaning | internal/tool/fileedit.go:143-145 | replacing one occurrence replaces the leftmost |
| FileSafety.EditFindsNothingIff | internal/tool/fileedit.go:104-134 | an edit finds nothing exactly if the text occurs neither as given nor up to quote style |
| FileSafety.UniqueEditMeaning | internal/tool/fileedit.go:104-150 | an edit whose text occurs once replaces that occurrence and nothing else |
| FileSafety.EditKeepsFinalNewline | internal/tool/fileedit.go:147-150 | a file that ends in a newline still does after any edit |

## Left out

- Model clients, provider conversions and network streams: `StreamMessages` is a choice of refusal or event list.
- JSON, YAML and regular-expression libraries: JSON decoding is any partial function; the few patterns used are spelled out over characters.
- Integer width: token counts and usage are unbounded, where the program has 64-bit integers.
- Floating point: the rough count is exact in twelfths; gap and percentage are real numbers.
- Upper- and lower-case folding and trimming cover ASCII only, and strings are sequences of characters, not UTF-8 bytes.
- PercentLeft and the warning and error levels of the token warning: shown to the user, never acted on.
- The telemetry fields of the compaction tracking state: written, never read by a decision.
- Quoting of tool names in error texts does not escape special characters.
- The wording around summaries, compaction prompts and coordinator notices: arbitrary functions and texts, or left out.
- A missing client, and the model switch itself on a fallback.
- Cancellation is an independent choice at each check, so the theorems also cover runs in which a cancelled context recovers, which do not occur.
- Compaction options are constant during one run of the loop.
- Stubbed strategies (snip, reactive compaction, context collapse): taken as the identities and refusals they are in `internal/compact/stubs.go`.
- Memory injection before a query, memory extraction after it, and the engine's calls into the skill collector: the loop's initial messages are assumed paired instead.
- Interrupts, resets and message queries of the engine: an interrupt shows as cancellation.
- Goroutine scheduling below whole events: tools complete in any order, and the coordinator handles one event at a time as its loop does.
- Stopping the coordinator, and its non-blocking notices channel.
- RunningAgent objects are values: the coordinator clones them whenever they leave its loop, so sharing is not modelled; equally the slices of the skill collector and the node that property lines fill in.
- Cancelling an agent's context is recorded as a request; that the agent then ends is not assumed.
- The lifecycle hook of the executor, and spawner calls made by anyone else on the same agents.
- Round trips of titles with several tags, and of playbooks not in the canonical printing.
- Files that exist but cannot be read, symbolic links, and tools built without a tracker.
- Line ranges and line numbers in the output of file reading; a partial read records the whole file, as in the code.
- Bash, grep, glob, registries, configuration, prompts and the interactive front end.
