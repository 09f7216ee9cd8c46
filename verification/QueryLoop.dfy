/**
 The multi-turn query loop.

 Everything the loop meets outside itself in one turn is a `Choice`: cancellation, clock, memory, the
 client's replies and the tools' answers. A run is a sequence of choices; a turn whose replies run
 out leaves the loop `Waiting` for the client. `Iterate` says what one turn does to the loop, and the
 class below does the same step by step.
 */
module QueryLoop {
  import opened Messages
  import opened QueryEvents
  import opened StreamParser
  import opened CompactOptions
  import opened AutoCompact
  import Microcompact
  import Text
  import Tokens

  // ---- Parameters and choices ----

  datatype Params = Params(
    messages: seq<Message>,
    maxTurns: int,
    disableCompact: bool,
    source: Source,
    hasFallback: bool,
    hasConfirm: bool)

  datatype ConfirmReply = Approved | Declined | ConfirmFailed(error: string)
  datatype CallReply = CallOk(text: string) | CallFailed(error: string)

  /** How the registry, the user and the tool itself answer one tool use. */
  datatype ToolAnswer = NoSuchTool | Tool(risky: bool, confirm: ConfirmReply, call: CallReply)

  /** One call of StreamMessages; `cancelAt` is the event before which cancellation is noticed. */
  datatype Attempt = Attempt(reply: Reply, cancelAt: Option<nat>)

  datatype Choice = Choice(
    cancelledAtHead: bool,
    outside: Outside,
    attempts: seq<Attempt>,
    cancelledAfter: bool,
    answers: seq<ToolAnswer>,
    order: seq<nat>)

  // ---- State ----

  datatype Cause =
    | Cancelled | TurnLimit | CompactionFailed | Blocked | ClientError | StreamFailed | PromptTooLong
    | Completed | Interrupted

  datatype Status = Running | Waiting | Ended(cause: Cause)

  /** `requests` lists every transcript passed to StreamMessages, summaries included. */
  datatype Loop = Loop(
    msgs: seq<Message>,
    turnCount: nat,
    failures: nat,
    out: seq<Event>,
    requests: seq<seq<Message>>,
    status: Status)

  function Start(p: Params): Loop {
    Loop(p.messages, 1, 0, [], [], Running)
  }

  function Emit(s: Loop, e: Event): Loop {
    s.(out := s.out + [e])
  }

  function Fail(s: Loop, error: string, cause: Cause): Loop {
    Emit(s, ErrorEvent(error)).(status := Ended(cause))
  }

  function Append(s: Loop, m: Message, e: Event): Loop {
    Emit(s.(msgs := s.msgs + [m]), e)
  }

  const ABORTED := "query aborted"
  const TOO_LARGE := "Context is too large. Run /compact to reduce context size."
  const MAX_OUTPUT_TOKENS := "max_output_tokens"
  const END_TURN := "end_turn"
  const TOO_LONG_REASON := "prompt_too_long"
  const RESUME :=
    "Output token limit hit. Resume directly \U{2014} no apology, no recap of what you were doing. "
    + "Pick up mid-thought if that is where the cut happened. Break remaining work into smaller pieces."

  // ---- Compaction pipeline ----

  predicate AtBlockingLimit(p: Params, ms: seq<Message>, opts: Options) {
    && !p.source.CompactSource? && !p.source.SessionMemorySource?
    && CalculateTokenWarningState(Tokens.TokenCount(ms), opts).atBlockingLimit
  }

  function CheckBlocking(p: Params, s: Loop, opts: Options): Loop {
    if AtBlockingLimit(p, s.msgs, opts) then Fail(s, TOO_LARGE, Blocked) else s
  }

  function AutoCompactStep(p: Params, s: Loop, o: Outside, opts: Options): Loop {
    var s1 := s.(requests := s.requests + AttemptRequests(s.msgs, p.source, s.failures, o, opts));
    match AutoCompactIfNeeded(s.msgs, p.source, s.failures, o, opts)
    case Failed(failures, error) => Fail(s1.(failures := failures), COMPACT_FAILED + error, CompactionFailed)
    case Compacted(ms) => Emit(s1.(failures := 0, msgs := ms), CompactionResultEvent(ms))
    case NotCompacted(failures) => CheckBlocking(p, s1.(failures := failures), opts)
  }

  function Compaction(p: Params, s: Loop, o: Outside, opts: Options): Loop {
    if p.disableCompact then CheckBlocking(p, s, opts)
    else
      var s1 := s.(msgs := Microcompact.After(s.msgs, Microcompact.Micro(s.msgs, o.now, opts)));
      if ShouldAutoCompact(s1.msgs, p.source, opts) then AutoCompactStep(p, s1, o, opts)
      else CheckBlocking(p, s1.(failures := 0), opts)
  }

  // ---- Streaming ----

  datatype ReadOutcome = ReadCancelled(st: State) | ReadAborted(st: State, error: string) | ReadDone(st: State)

  /** Read the events from position `i` on, checking for cancellation before each. */
  function Read(parse: JsonParser, st: State, es: seq<StreamEvent>, i: nat, cancelAt: Option<nat>,
                now: int): ReadOutcome
    requires i <= |es|
    decreases |es| - i
  {
    if i == |es| then ReadDone(st)
    else if cancelAt == Some(i) then ReadCancelled(st)
    else
      var st' := Step(parse, st, es[i], now);
      var (stop, error) := Verdict(es[i]);
      if error != "" then ReadAborted(st', error)
      else if stop then ReadDone(st')
      else Read(parse, st', es, i + 1, cancelAt, now)
  }

  datatype StreamOutcome =
    | Unanswered(s: Loop)
    | GaveUp(s: Loop)
    | TooLong(s: Loop, error: string)
    | Received(s: Loop, msg: Message, hasToolUse: bool, stopReason: string)

  function Digest(parse: JsonParser, s: Loop, r: ReadOutcome, now: int): StreamOutcome {
    var s1 := s.(out := r.st.sent);
    match r
    case ReadCancelled(_) => GaveUp(Fail(s1, ABORTED, Cancelled))
    case ReadAborted(_, error) => GaveUp(Fail(s1, error, StreamFailed))
    case ReadDone(st) =>
      if st.isPTL then TooLong(s1, "")
      else
        var f := Flush(parse, st);
        Received(s.(out := f.sent), Finalize(f, now), f.hasToolUse, f.stopReason)
  }

  /** Try the client until it streams, refuses for good, or has not answered yet. */
  function Attempts(parse: JsonParser, p: Params, s: Loop, attempts: seq<Attempt>, now: int): StreamOutcome
    decreases |attempts|
  {
    if attempts == [] then Unanswered(s.(status := Waiting))
    else
      var s1 := s.(requests := s.requests + [s.msgs]);
      match attempts[0].reply
      case Refused(error, overloaded) =>
        if IsPromptTooLong(error) then TooLong(s1, TextOf(PromptTooLongMessage(error, now).content))
        else if overloaded && p.hasFallback then Attempts(parse, p, s1, attempts[1..], now)
        else GaveUp(Fail(s1, error, ClientError))
      case Streamed(es) =>
        Digest(parse, s1, Read(parse, Initial(s1.out), es, 0, attempts[0].cancelAt, now), now)
  }

  // ---- Tools ----

  function AnswerAt(answers: seq<ToolAnswer>, i: nat): ToolAnswer {
    if i < |answers| then answers[i] else NoSuchTool
  }

  function Quoted(s: string): string {
    "\"" + s + "\""
  }

  /** The result text of one tool use, and whether it is an error. */
  function RunTool(name: string, a: ToolAnswer, hasConfirm: bool): (string, bool) {
    match a
    case NoSuchTool => ("Tool " + Quoted(name) + " not found", true)
    case Tool(risky, confirm, call) =>
      if hasConfirm && risky && confirm.ConfirmFailed? then ("confirmation cancelled: " + confirm.error, true)
      else if hasConfirm && risky && confirm.Declined? then ("tool " + Quoted(name) + " was not approved by user", true)
      else if call.CallFailed? then (call.error, true)
      else (call.text, false)
  }

  function ToolResultFor(use: Block, a: ToolAnswer, hasConfirm: bool): Block
    requires use.ToolUse?
  {
    var (text, isError) := RunTool(use.name, a, hasConfirm);
    ToolResult(use.id, text, isError)
  }

  ghost predicate AllToolUses(uses: seq<Block>) {
    forall i :: 0 <= i < |uses| ==> uses[i].ToolUse?
  }

  /** The user message that answers the tool uses, in their order. */
  function ToolMessage(uses: seq<Block>, answers: seq<ToolAnswer>, hasConfirm: bool, now: int): Message
    requires AllToolUses(uses)
  {
    NewMessage(User, now).(content := seq(|uses|, i requires 0 <= i < |uses| =>
                                            ToolResultFor(uses[i], AnswerAt(answers, i), hasConfirm)))
  }

  function InterruptedMessage(uses: seq<Block>, now: int): Message
    requires AllToolUses(uses)
  {
    NewMessage(User, now).(content := seq(|uses|, i requires 0 <= i < |uses| =>
                                            ToolResult(uses[i].id, INTERRUPTED, true)))
  }

  function ResumeMessage(now: int): Message {
    NewMessage(User, now).Add(Block.Text(RESUME))
  }

  lemma UsesAreToolUses(m: Message)
    ensures AllToolUses(ToolUsesOf(m.content))
  {
    UseIdsMatch(m.content);
  }

  // ---- One turn ----

  /** What follows a received message: recovery, the final result, interruption, or tool execution. */
  function Settle(p: Params, s: Loop, m: Message, hasToolUse: bool, stopReason: string, c: Choice): Loop {
    UsesAreToolUses(m);
    var s1 := Append(s, m, UsageEvent(m));
    var now := c.outside.now;
    if !hasToolUse && stopReason == MAX_OUTPUT_TOKENS then
      Append(s1, ResumeMessage(now), UserMessageEvent(ResumeMessage(now)))
    else if !hasToolUse then
      var reason := if stopReason == "" then END_TURN else stopReason;
      Emit(s1, ResultEvent(Result(true, TextOf(m.content), reason, s.turnCount, ""))).(status := Ended(Completed))
    else if c.cancelledAfter then
      var synth := InterruptedMessage(ToolUsesOf(m.content), now);
      Fail(Append(s1, synth, UserMessageEvent(synth)), ABORTED, Interrupted)
    else
      var answer := ToolMessage(ToolUsesOf(m.content), c.answers, p.hasConfirm, now);
      Append(s1, answer, UserMessageEvent(answer)).(turnCount := s.turnCount + 1)
  }

  function Conclude(p: Params, r: StreamOutcome, c: Choice): Loop {
    match r
    case Unanswered(s) => s
    case GaveUp(s) => s
    case TooLong(s, error) =>
      Emit(s, ResultEvent(Result(false, "", TOO_LONG_REASON, s.turnCount, error))).(status := Ended(PromptTooLong))
    case Received(s, m, hasToolUse, stopReason) => Settle(p, s, m, hasToolUse, stopReason, c)
  }

  function TurnLimitResult(p: Params, s: Loop): Result
    requires p.maxTurns > 0
  {
    Result(false, "", "", s.turnCount, "Reached maximum number of turns (" + Text.Decimal(p.maxTurns) + ")")
  }

  function Converse(parse: JsonParser, p: Params, s: Loop, c: Choice): Loop {
    if s.status.Running? then Conclude(p, Attempts(parse, p, s, c.attempts, c.outside.now), c) else s
  }

  /** One turn of the loop, from its head. */
  function Iterate(parse: JsonParser, p: Params, s: Loop, c: Choice, opts: Options): Loop {
    if !s.status.Running? then s
    else if c.cancelledAtHead then Fail(s, ABORTED, Cancelled)
    else if p.maxTurns > 0 && s.turnCount > p.maxTurns then
      Emit(s, ResultEvent(TurnLimitResult(p, s))).(status := Ended(TurnLimit))
    else Converse(parse, p, Compaction(p, s, c.outside, opts), c)
  }

  function Run(parse: JsonParser, p: Params, s: Loop, cs: seq<Choice>, opts: Options): Loop {
    if cs == [] then s else Iterate(parse, p, Run(parse, p, s, Init(cs), opts), Last(cs), opts)
  }

  // ---- Tools run in parallel: the order of completion does not show ----

  datatype IndexedResult = IndexedResult(toolUseId: string, result: string, isError: bool)

  /** Every index completes. */
  predicate Completes(order: seq<nat>, n: nat) {
    && (forall k :: 0 <= k < |order| ==> order[k] < n)
    && forall i :: 0 <= i < n ==> i in order
  }

  /** A completion order for `n` tools: the given one if it is complete, else the order of the uses. */
  function CompletionOrder(order: seq<nat>, n: nat): seq<nat> {
    if Completes(order, n) then order else seq(n, i => i)
  }

  lemma CompletionOrderCompletes(order: seq<nat>, n: nat)
    ensures Completes(CompletionOrder(order, n), n)
  {
    if !Completes(order, n) {
      var o: seq<nat> := seq(n, i => i);
      forall i | 0 <= i < n ensures i in o {
        assert o[i] == i;
      }
    }
  }

  method ExecuteTools(uses: seq<Block>, answers: seq<ToolAnswer>, hasConfirm: bool, order: seq<nat>, now: int)
    returns (m: Message)
    requires AllToolUses(uses)
    requires Completes(order, |uses|)
    ensures m == ToolMessage(uses, answers, hasConfirm, now)
  {
    hide RunTool;
    var sorted := new IndexedResult[|uses|](_ => IndexedResult("", "", false));
    for k := 0 to |order|
      invariant forall i :: 0 <= i < |uses| && i in order[..k] ==>
        ToolResult(sorted[i].toolUseId, sorted[i].result, sorted[i].isError)
        == ToolResultFor(uses[i], AnswerAt(answers, i), hasConfirm)
    {
      var idx := order[k];
      var (text, isError) := RunTool(uses[idx].name, AnswerAt(answers, idx), hasConfirm);
      sorted[idx] := IndexedResult(uses[idx].id, text, isError);
      assert order[..k + 1] == order[..k] + [idx];
    }
    assert order[..|order|] == order;
    m := NewMessage(User, now);
    for i := 0 to |uses|
      invariant m == NewMessage(User, now).(content := ToolMessage(uses, answers, hasConfirm, now).content[..i])
    {
      m := m.Add(ToolResult(sorted[i].toolUseId, sorted[i].result, sorted[i].isError));
    }
  }

  // ---- The loop object ----

  class Query {
    const parse: JsonParser
    const p: Params
    const opts: Options
    const out: EventChannel
    var msgs: seq<Message>
    var turnCount: nat
    var failures: nat
    var requests: seq<seq<Message>>
    var status: Status

    ghost function View(): Loop
      reads this, out
    {
      Loop(msgs, turnCount, failures, out.sent, requests, status)
    }

    constructor (parse: JsonParser, p: Params, opts: Options, out: EventChannel)
      requires out.sent == []
      ensures this.parse == parse && this.p == p && this.opts == opts && this.out == out
      ensures View() == Start(p)
    {
      this.parse := parse;
      this.p := p;
      this.opts := opts;
      this.out := out;
      msgs := p.messages;
      turnCount := 1;
      failures := 0;
      requests := [];
      status := Running;
    }

    method FailWith(error: string, cause: Cause)
      modifies this`status, out
      ensures View() == Fail(old(View()), error, cause)
    {
      out.Send(ErrorEvent(error));
      status := Ended(cause);
    }

    method AppendAndSend(m: Message, e: Event)
      modifies this`msgs, out
      ensures View() == Append(old(View()), m, e)
    {
      msgs := msgs + [m];
      out.Send(e);
    }

    method CheckBlockingLimit()
      modifies this`status, out
      ensures View() == CheckBlocking(p, old(View()), opts)
    {
      hide Fail;
      if !p.source.CompactSource? && !p.source.SessionMemorySource? {
        var count := Tokens.TokenCountWithEstimation(msgs);
        if CalculateTokenWarningState(count, opts).atBlockingLimit {
          FailWith(TOO_LARGE, Blocked);
        }
      }
    }

    method RunAutoCompact(o: Outside)
      modifies this, out
      ensures View() == AutoCompactStep(p, old(View()), o, opts)
    {
      hide AutoCompactIfNeeded, AttemptRequests, CheckBlocking;
      var r := AutoCompactIfNeeded(msgs, p.source, failures, o, opts);
      requests := requests + AttemptRequests(msgs, p.source, failures, o, opts);
      match r
      case Failed(nextFailures, error) =>
        failures := nextFailures;
        FailWith(COMPACT_FAILED + error, CompactionFailed);
      case Compacted(messages) =>
        failures := 0;
        msgs := messages;
        out.Send(CompactionResultEvent(messages));
      case NotCompacted(nextFailures) =>
        failures := nextFailures;
        CheckBlockingLimit();
    }

    method RunCompactionPipeline(o: Outside)
      modifies this, out
      ensures View() == Compaction(p, old(View()), o, opts)
    {
      hide AutoCompactStep, CheckBlocking, ShouldAutoCompact, Microcompact.Micro;
      if p.disableCompact {
        CheckBlockingLimit();
        return;
      }
      var micro := Microcompact.MicrocompactMessages(msgs, o.now, opts);
      if micro.Changed? {
        msgs := micro.messages;
      }
      if ShouldAutoCompact(msgs, p.source, opts) {
        RunAutoCompact(o);
      } else {
        failures := 0;
        CheckBlockingLimit();
      }
    }

    method ReadStream(es: seq<StreamEvent>, cancelAt: Option<nat>, now: int) returns (r: StreamOutcome)
      modifies this, out
      ensures r == Digest(parse, old(View()), Read(parse, Initial(old(out.sent)), es, 0, cancelAt, now), now)
      ensures View() == r.s
    {
      hide Step, Flush, Finalize, Fail;
      var parser := new Parser(parse, out);
      ghost var before := View();
      ghost var whole := Read(parse, Initial(out.sent), es, 0, cancelAt, now);
      for i := 0 to |es|
        invariant parser.parse == parse && parser.out == out && fresh(parser)
        invariant View() == before.(out := out.sent)
        invariant whole == Read(parse, parser.View(), es, i, cancelAt, now)
      {
        if cancelAt == Some(i) {
          FailWith(ABORTED, Cancelled);
          return GaveUp(Loop(msgs, turnCount, failures, out.sent, requests, status));
        }
        var breakLoop, abortErr := parser.Process(es[i], now);
        if abortErr != "" {
          FailWith(abortErr, StreamFailed);
          return GaveUp(Loop(msgs, turnCount, failures, out.sent, requests, status));
        }
        if breakLoop {
          assert whole == ReadDone(parser.View());
          r := FinishStream(parser, now);
          return;
        }
      }
      assert whole == ReadDone(parser.View());
      r := FinishStream(parser, now);
    }

    method FinishStream(parser: Parser, now: int) returns (r: StreamOutcome)
      requires parser.out == out && parser.parse == parse
      modifies parser, out
      ensures r == Digest(parse, old(View()), ReadDone(old(parser.View())), now)
      ensures View() == r.s
    {
      hide Flush, Finalize, Fail;
      if parser.isPTL {
        return TooLong(Loop(msgs, turnCount, failures, out.sent, requests, status), "");
      }
      parser.FlushOpenAI();
      ghost var flushed := parser.View();
      var m := parser.FinalizeAssistantMsg(now);
      r := Received(Loop(msgs, turnCount, failures, out.sent, requests, status), m,
                    parser.hasToolUse, parser.stopReason);
    }

    method StreamWithFallback(attempts: seq<Attempt>, now: int) returns (r: StreamOutcome)
      modifies this, out
      ensures r == Attempts(parse, p, old(View()), attempts, now)
      ensures View() == r.s
    {
      hide Digest, Read, IsPromptTooLong, PromptTooLongMessage, Fail;
      ghost var whole := Attempts(parse, p, View(), attempts, now);
      var k := 0;
      while k < |attempts|
        invariant 0 <= k <= |attempts|
        invariant whole == Attempts(parse, p, View(), attempts[k..], now)
        decreases |attempts| - k
      {
        requests := requests + [msgs];
        assert attempts[k..][1..] == attempts[k + 1..];
        match attempts[k].reply {
          case Refused(error, overloaded) =>
            if IsPromptTooLong(error) {
              var text := TextContent(PromptTooLongMessage(error, now));
              return TooLong(Loop(msgs, turnCount, failures, out.sent, requests, status), text);
            }
            if !(overloaded && p.hasFallback) {
              FailWith(error, ClientError);
              return GaveUp(Loop(msgs, turnCount, failures, out.sent, requests, status));
            }
          case Streamed(es) =>
            r := ReadStream(es, attempts[k].cancelAt, now);
            return;
        }
        k := k + 1;
      }
      status := Waiting;
      r := Unanswered(Loop(msgs, turnCount, failures, out.sent, requests, status));
    }

    method InterruptTools(uses: seq<Block>, now: int)
      requires AllToolUses(uses)
      modifies this`msgs, this`status, out
      ensures var synth := InterruptedMessage(uses, now);
        View() == Fail(Append(old(View()), synth, UserMessageEvent(synth)), ABORTED, Interrupted)
    {
      hide Fail, Append;
      var synth := NewMessage(User, now);
      for i := 0 to |uses|
        invariant synth == NewMessage(User, now).(content := InterruptedMessage(uses, now).content[..i])
      {
        synth := synth.Add(ToolResult(uses[i].id, INTERRUPTED, true));
      }
      assert synth == InterruptedMessage(uses, now);
      AppendAndSend(synth, UserMessageEvent(synth));
      FailWith(ABORTED, Interrupted);
    }

    method SettleMessage(m: Message, hasToolUse: bool, stopReason: string, c: Choice)
      modifies this, out
      ensures View() == Settle(p, old(View()), m, hasToolUse, stopReason, c)
    {
      hide Fail, ToolMessage, InterruptedMessage, ResumeMessage;
      UsesAreToolUses(m);
      var now := c.outside.now;
      AppendAndSend(m, UsageEvent(m));
      if !hasToolUse && stopReason == MAX_OUTPUT_TOKENS {
        AppendAndSend(ResumeMessage(now), UserMessageEvent(ResumeMessage(now)));
        return;
      }
      if !hasToolUse {
        var reason := stopReason;
        if reason == "" {
          reason := END_TURN;
        }
        var text := TextContent(m);
        out.Send(ResultEvent(Result(true, text, reason, turnCount, "")));
        status := Ended(Completed);
        return;
      }
      var uses := ToolUses(m);
      if c.cancelledAfter {
        InterruptTools(uses, now);
        return;
      }
      CompletionOrderCompletes(c.order, |uses|);
      var answer := ExecuteTools(uses, c.answers, p.hasConfirm, CompletionOrder(c.order, |uses|), now);
      AppendAndSend(answer, UserMessageEvent(answer));
      turnCount := turnCount + 1;
    }

    method Turn(c: Choice)
      requires status.Running?
      modifies this, out
      ensures View() == Iterate(parse, p, old(View()), c, opts)
    {
      hide Fail, Compaction, Attempts, Settle, TurnLimitResult;
      if c.cancelledAtHead {
        FailWith(ABORTED, Cancelled);
        return;
      }
      if p.maxTurns > 0 && turnCount > p.maxTurns {
        out.Send(ResultEvent(TurnLimitResult(p, Loop(msgs, turnCount, failures, out.sent, requests, status))));
        status := Ended(TurnLimit);
        return;
      }
      RunCompactionPipeline(c.outside);
      if !status.Running? {
        return;
      }
      var r := StreamWithFallback(c.attempts, c.outside.now);
      match r
      case Unanswered(_) =>
      case GaveUp(_) =>
      case TooLong(_, error) =>
        out.Send(ResultEvent(Result(false, "", TOO_LONG_REASON, turnCount, error)));
        status := Ended(PromptTooLong);
      case Received(_, m, hasToolUse, stopReason) =>
        SettleMessage(m, hasToolUse, stopReason, c);
    }

    /** Run the loop against a sequence of choices, until it ends, waits, or the choices run out. */
    method Go(cs: seq<Choice>)
      requires View() == Start(p)
      modifies this, out
      ensures View() == Run(parse, p, Start(p), cs, opts)
    {
      hide Iterate;
      var k := 0;
      while k < |cs|
        invariant 0 <= k <= |cs|
        invariant View() == Run(parse, p, Start(p), cs[..k], opts)
      {
        assert Init(cs[..k + 1]) == cs[..k];
        if status.Running? {
          Turn(cs[k]);
        } else {
          StoppedStays(parse, p, View(), cs[k], opts);
        }
        k := k + 1;
      }
      assert cs[..|cs|] == cs;
    }
  }

  lemma StoppedStays(parse: JsonParser, p: Params, s: Loop, c: Choice, opts: Options)
    requires !s.status.Running?
    ensures Iterate(parse, p, s, c, opts) == s
  {
  }
}
