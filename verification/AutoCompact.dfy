/** Auto-compaction: thresholds, the decision, the circuit breaker and the two strategies. */
module AutoCompact {
  import opened Messages
  import opened CompactOptions
  import opened StreamParser
  import opened SessionMemoryCompact
  import opened Pairing
  import Tokens

  const AUTO_COMPACT_BUFFER := 13000
  const MANUAL_COMPACT_BUFFER := 3000
  const MAX_OUTPUT_FOR_SUMMARY := 20000
  const MAX_CONSECUTIVE_FAILURES := 3
  const CONTEXT_WINDOW := 128000
  const MAX_OUTPUT := 4096

  datatype Source = EngineSource | AgentSource | CompactSource | SessionMemorySource | MarbleOrigamiSource

  // ---- Thresholds ----

  function EffectiveWindow(opts: Options): int {
    var window := if opts.window > 0 then Min(CONTEXT_WINDOW, opts.window) else CONTEXT_WINDOW;
    window - Min(MAX_OUTPUT, MAX_OUTPUT_FOR_SUMMARY)
  }

  /** Conversion of a float to an integer truncates towards zero. */
  function Truncate(x: real): int {
    if x >= 0.0 then x.Floor else -((-x).Floor)
  }

  function Threshold(opts: Options): int {
    if opts.thresholdOverride > 0 then opts.thresholdOverride
    else
      var effective := EffectiveWindow(opts);
      var threshold := Max(0, effective - AUTO_COMPACT_BUFFER);
      if 0.0 < opts.pctOverride <= 100.0
      then Min(Truncate(effective as real * (opts.pctOverride / 100.0)), threshold)
      else threshold
  }

  function BlockingLimit(opts: Options): int {
    if opts.blockingOverride > 0 then opts.blockingOverride else EffectiveWindow(opts) - MANUAL_COMPACT_BUFFER
  }

  predicate IsAutoCompactEnabled(opts: Options) {
    !opts.disableCompact && !opts.disableAutoCompact
  }

  datatype WarningState = WarningState(aboveAutoCompact: bool, atBlockingLimit: bool)

  function CalculateTokenWarningState(tokens: int, opts: Options): WarningState {
    WarningState(IsAutoCompactEnabled(opts) && tokens >= Threshold(opts), tokens >= BlockingLimit(opts))
  }

  /** The guards of the query source, then the gates, then the count. */
  predicate ShouldAutoCompact(ms: seq<Message>, source: Source, opts: Options) {
    && !source.SessionMemorySource? && !source.CompactSource?
    && IsAutoCompactEnabled(opts)
    && CalculateTokenWarningState(Tokens.TokenCount(ms), opts).aboveAutoCompact
  }

  /** Every count that blocks also compacts, exactly when the threshold is not above the limit. */
  lemma BlockingImpliesCompacting(opts: Options)
    requires IsAutoCompactEnabled(opts)
    ensures Threshold(opts) <= BlockingLimit(opts) <==>
      forall tokens :: CalculateTokenWarningState(tokens, opts).atBlockingLimit ==>
                       CalculateTokenWarningState(tokens, opts).aboveAutoCompact
  {
    hide Threshold, BlockingLimit;
    assert CalculateTokenWarningState(BlockingLimit(opts), opts).atBlockingLimit;
  }

  /** Without overrides of the threshold or the limit, a window of 3000 tokens is enough for that. */
  lemma ThresholdBelowLimit(opts: Options)
    requires opts.thresholdOverride <= 0 && opts.blockingOverride <= 0
    ensures EffectiveWindow(opts) >= MANUAL_COMPACT_BUFFER ==> Threshold(opts) <= BlockingLimit(opts)
    ensures !(0.0 < opts.pctOverride <= 100.0) ==>
      (EffectiveWindow(opts) >= MANUAL_COMPACT_BUFFER <==> Threshold(opts) <= BlockingLimit(opts))
  {
  }

  // ---- The legacy strategy ----

  /** How a client answers: an error before any event, or a finite stream. */
  datatype Reply = Refused(error: string, overloaded: bool) | Streamed(events: seq<StreamEvent>)

  datatype Summary = NoSummary(error: string) | GotSummary(text: string)

  const NO_TEXT_ERROR := "failed to generate conversation summary - response did not contain valid text content"
  const STREAM_ERROR := "compact stream error: "
  const TOO_FEW_ERROR := "not enough messages to compact"
  const COMPACT_FAILED := "autocompact failed: "

  /** Only text events of the block-less dialect count; the first error event ends it. */
  function SummaryText(es: seq<StreamEvent>, sofar: string): Summary {
    if es == [] then GotSummary(sofar)
    else if es[0].StreamError? then NoSummary(STREAM_ERROR + es[0].text)
    else SummaryText(es[1..], if es[0].AssistantText? then sofar + es[0].text else sofar)
  }

  function SummaryOf(reply: Reply): Summary {
    if reply.Refused? then NoSummary(reply.error)
    else
      var s := SummaryText(reply.events, "");
      if s.GotSummary? && s.text == "" then NoSummary(NO_TEXT_ERROR) else s
  }

  method StreamCompactSummary(reply: Reply) returns (s: Summary)
    ensures s == SummaryOf(reply)
  {
    if reply.Refused? {
      return NoSummary(reply.error);
    }
    var summary := "";
    for i := 0 to |reply.events|
      invariant SummaryText(reply.events, "") == SummaryText(reply.events[i..], summary)
    {
      var e := reply.events[i];
      assert reply.events[i..][1..] == reply.events[i + 1..];
      if e.AssistantText? {
        summary := summary + e.text;
      } else if e.StreamError? {
        return NoSummary(STREAM_ERROR + e.text);
      }
    }
    if summary == "" {
      return NoSummary(NO_TEXT_ERROR);
    }
    s := GotSummary(summary);
  }

  /** A summary is non-empty text. */
  lemma {:induction false} SummaryIsText(es: seq<StreamEvent>, sofar: string)
    ensures SummaryText(es, sofar).GotSummary? <==> forall i :: 0 <= i < |es| ==> !es[i].StreamError?
    ensures (forall i :: 0 <= i < |es| ==> !es[i].AssistantText? && !es[i].StreamError?) ==>
              SummaryText(es, sofar) == GotSummary(sofar)
  {
    if es != [] {
      SummaryIsText(es[1..], if es[0].AssistantText? then sofar + es[0].text else sofar);
      assert forall i :: 0 <= i < |es| - 1 ==> es[1..][i] == es[i + 1];
      if forall i :: 0 <= i < |es| - 1 ==> !es[1..][i].StreamError? {
        if !es[0].StreamError? {
          forall i | 0 <= i < |es| ensures !es[i].StreamError? {
            assert i == 0 || es[i] == es[1..][i - 1];
          }
        }
      }
    }
  }

  /** The text collected is non-empty exactly if it was, or some text event is. */
  lemma {:induction false} SummaryGrows(es: seq<StreamEvent>, sofar: string)
    requires SummaryText(es, sofar).GotSummary?
    ensures SummaryText(es, sofar).text != "" <==> sofar != "" || exists i :: 0 <= i < |es| && HasText(es[i])
  {
    if es != [] {
      SummaryGrows(es[1..], if es[0].AssistantText? then sofar + es[0].text else sofar);
      assert forall i :: 1 <= i < |es| ==> es[i] == es[1..][i - 1];
      if i :| 0 <= i < |es| && HasText(es[i]) {
        assert i == 0 || HasText(es[1..][i - 1]);
      }
    }
  }

  predicate HasText(e: StreamEvent) {
    e.AssistantText? && e.text != ""
  }

  /** The legacy strategy gets a summary exactly from a stream without errors in which some text event is not empty. */
  lemma SummarySucceedsIff(es: seq<StreamEvent>)
    ensures SummaryOf(Streamed(es)).GotSummary? <==>
      (forall i :: 0 <= i < |es| ==> !es[i].StreamError?) && (exists i :: 0 <= i < |es| && HasText(es[i]))
  {
    SummaryIsText(es, "");
    if SummaryText(es, "").GotSummary? {
      SummaryGrows(es, "");
    }
  }

  /**
   The text of the block dialect travels in block deltas, which the summary ignores: on such a stream
   the legacy strategy always fails.
   */
  lemma BlockDialectHasNoSummary(es: seq<StreamEvent>)
    requires forall i :: 0 <= i < |es| ==> !es[i].AssistantText?
    ensures SummaryOf(Streamed(es)).NoSummary?
  {
    SummarySucceedsIff(es);
  }

  // ---- AutoCompactIfNeeded ----

  /** What one attempt meets outside: memory, clock, the summarizer's reply, and the wording around its summary. */
  datatype Outside = Outside(now: int, memory: Memory, prompt: string, reply: Reply, render: string -> string)

  datatype Outcome =
    | NotCompacted(failures: nat)
    | Compacted(messages: seq<Message>)
    | Failed(failures: nat, error: string)

  /** The request for a summary: the transcript and one user message. */
  function SummaryRequest(ms: seq<Message>, prompt: string): seq<Message> {
    ms + [NewMessage(User, 0).Add(Block.Text(prompt))]
  }

  function CompactConversation(ms: seq<Message>, failures: nat, o: Outside): Outcome {
    if ms == [] then Failed(failures + 1, COMPACT_FAILED + TOO_FEW_ERROR)
    else
      match SummaryOf(o.reply)
      case NoSummary(error) => Failed(failures + 1, COMPACT_FAILED + error)
      case GotSummary(text) => Compacted(SummaryFirst(o.render(text), o.now, []))
  }

  function AutoCompactIfNeeded(ms: seq<Message>, source: Source, failures: nat, o: Outside, opts: Options): Outcome {
    if opts.disableCompact then NotCompacted(0)
    else if failures >= MAX_CONSECUTIVE_FAILURES then NotCompacted(failures)
    else if !ShouldAutoCompact(ms, source, opts) then NotCompacted(0)
    else
      var sm := TrySM(ms, Threshold(opts), o.memory, o.now, opts);
      if sm.Some? then Compacted(sm.value) else CompactConversation(ms, failures, o)
  }

  /** The requests one attempt sends to the client. */
  function AttemptRequests(ms: seq<Message>, source: Source, failures: nat, o: Outside,
                           opts: Options): seq<seq<Message>> {
    if opts.disableCompact || failures >= MAX_CONSECUTIVE_FAILURES || !ShouldAutoCompact(ms, source, opts)
       || TrySM(ms, Threshold(opts), o.memory, o.now, opts).Some? || ms == []
    then []
    else [SummaryRequest(ms, o.prompt)]
  }

  /** With the breaker closed, a transcript over the threshold is compacted or the attempt fails. */
  lemma OverThresholdCompactsOrFails(ms: seq<Message>, source: Source, failures: nat, o: Outside, opts: Options)
    requires ShouldAutoCompact(ms, source, opts) && failures < MAX_CONSECUTIVE_FAILURES
    ensures !AutoCompactIfNeeded(ms, source, failures, o, opts).NotCompacted?
  {
    hide TrySM, CompactConversation;
    assert !CompactConversation(ms, failures, o).NotCompacted? by { LegacyDecides(ms, failures, o); }
  }

  lemma LegacyDecides(ms: seq<Message>, failures: nat, o: Outside)
    ensures !CompactConversation(ms, failures, o).NotCompacted?
  {
  }

  /** Whichever strategy ran, the new transcript is paired and so was the request for a summary. */
  lemma CompactedIsPaired(ms: seq<Message>, source: Source, failures: nat, o: Outside, opts: Options)
    requires Paired(ms) && UniqueIds(ms)
    ensures var r := AutoCompactIfNeeded(ms, source, failures, o, opts);
      r.Compacted? ==> Paired(r.messages) && UniqueIds(r.messages)
    ensures forall k :: 0 <= k < |AttemptRequests(ms, source, failures, o, opts)| ==>
      Paired(AttemptRequests(ms, source, failures, o, opts)[k])
  {
    hide ShouldAutoCompact, TrySM, CompactConversation, Threshold, SummaryRequest, Scan, UniqueIds;
    if TrySM(ms, Threshold(opts), o.memory, o.now, opts).Some? {
      TrySMPaired(ms, Threshold(opts), o.memory, o.now, opts);
    }
    LegacyIsPaired(ms, failures, o);
    RequestIsPaired(ms, o.prompt);
  }

  lemma LegacyIsPaired(ms: seq<Message>, failures: nat, o: Outside)
    ensures var r := CompactConversation(ms, failures, o);
      r.Compacted? ==> Paired(r.messages) && UniqueIds(r.messages)
  {
    hide SummaryFirst, SummaryOf, Scan, UniqueIds;
    NothingIsPaired();
    if SummaryOf(o.reply).GotSummary? {
      SummaryFirstPaired(o.render(SummaryOf(o.reply).text), o.now, []);
    }
  }

  lemma RequestIsPaired(ms: seq<Message>, prompt: string)
    requires Paired(ms)
    ensures Paired(SummaryRequest(ms, prompt))
  {
    hide Scan;
    var m := NewMessage(User, 0).Add(Block.Text(prompt));
    TextMessageIds(m);
    ScanAppend(SETTLED, ms, m);
  }

  lemma NothingIsPaired()
    ensures Paired([]) && UniqueIds([])
  {
  }
}
