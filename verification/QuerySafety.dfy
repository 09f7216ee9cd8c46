/** Pairing, the blocking limit and termination, over every run of the query loop. */
module QuerySafety {
  import opened Messages
  import opened QueryEvents
  import opened StreamParser
  import opened CompactOptions
  import opened AutoCompact
  import opened QueryLoop
  import opened QueryProofs
  import opened Pairing
  import Microcompact
  import SessionMemoryCompact
  import Tokens

  // ---- Pairing ----

  ghost predicate AllPaired(requests: seq<seq<Message>>) {
    forall k :: 0 <= k < |requests| ==> Paired(requests[k])
  }

  ghost predicate Sound(s: Loop) {
    Paired(s.msgs) && UniqueIds(s.msgs) && AllPaired(s.requests)
  }

  /** The turn gets as far as asking the client. */
  predicate AsksClient(p: Params, s: Loop, c: Choice, opts: Options) {
    && s.status.Running? && !c.cancelledAtHead && (p.maxTurns > 0 ==> s.turnCount <= p.maxTurns)
    && Compaction(p, s, c.outside, opts).status.Running?
  }

  function ReplyTo(parse: JsonParser, p: Params, s: Loop, c: Choice, opts: Options): StreamOutcome {
    Attempts(parse, p, Compaction(p, s, c.outside, opts), c.attempts, c.outside.now)
  }

  /** If the turn gets a message, its tool-use ids are new to the transcript it is appended to. */
  ghost predicate FreshReply(parse: JsonParser, p: Params, s: Loop, c: Choice, opts: Options) {
    var r := ReplyTo(parse, p, s, c, opts);
    AsksClient(p, s, c, opts) && r.Received? ==> FreshIn(r.msg, r.s.msgs)
  }

  ghost predicate FreshRun(parse: JsonParser, p: Params, cs: seq<Choice>, opts: Options) {
    forall k :: 0 <= k < |cs| ==> FreshReply(parse, p, QueryLoop.Run(parse, p, Start(p), cs[..k], opts), cs[k], opts)
  }

  lemma {:induction false} ToolResultIds(uses: seq<Block>, content: seq<Block>)
    requires AllToolUses(uses) && |content| == |uses|
    requires forall i :: 0 <= i < |uses| ==> content[i].ToolResult? && content[i].toolUseId == uses[i].id
    ensures UseIds(content) == []
    ensures |ResultIds(content)| == |uses| && forall i :: 0 <= i < |uses| ==> ResultIds(content)[i] == uses[i].id
  {
    if uses != [] {
      ToolResultIds(Init(uses), Init(content));
    }
  }

  /** A message that carries one result per use, in order, answers the message that used them. */
  lemma AnswersUses(m: Message, answer: Message)
    requires answer.role.User? && |answer.content| == |ToolUsesOf(m.content)|
    requires forall i :: 0 <= i < |answer.content| ==>
      ToolUsesOf(m.content)[i].ToolUse? && answer.content[i].ToolResult?
      && answer.content[i].toolUseId == ToolUsesOf(m.content)[i].id
    ensures UseIds(answer.content) == [] && ResultIds(answer.content) == UseIds(m.content)
  {
    ToolResultIds(ToolUsesOf(m.content), answer.content);
    UseIdsMatch(m.content);
  }

  lemma AppendSettled(ms: seq<Message>, m: Message)
    requires Paired(ms) && UniqueIds(ms)
    requires UseIds(m.content) == [] && ResultIds(m.content) == []
    ensures Paired(ms + [m]) && UniqueIds(ms + [m])
  {
    ScanAppend(SETTLED, ms, m);
  }

  lemma AppendExchange(ms: seq<Message>, m: Message, answer: Message)
    requires Paired(ms) && UniqueIds(ms) && FreshIn(m, ms)
    requires m.role.Assistant? && ResultIds(m.content) == []
    requires answer.role.User? && UseIds(answer.content) == [] && ResultIds(answer.content) == UseIds(m.content)
    ensures Paired(ms + [m] + [answer]) && UniqueIds(ms + [m] + [answer])
  {
    hide Scan;
    ScanAppend(SETTLED, ms, m);
    ScanAppend(SETTLED, ms + [m], answer);
    UniqueAppend(ms, m);
    UniqueAppend(ms + [m], answer);
  }

  lemma SettleSound(p: Params, s: Loop, m: Message, hasToolUse: bool, stopReason: string, c: Choice)
    requires Sound(s) && FreshIn(m, s.msgs)
    requires m.role.Assistant? && ResultIds(m.content) == []
    requires hasToolUse <==> ToolUsesOf(m.content) != []
    ensures Sound(Settle(p, s, m, hasToolUse, stopReason, c))
  {
    hide Scan, UniqueIds, FreshIn, AllPaired, RunTool;
    UsesAreToolUses(m);
    UseIdsMatch(m.content);
    var now := c.outside.now;
    if !hasToolUse {
      AppendSettled(s.msgs, m);
      SessionMemoryCompact.TextMessageIds(ResumeMessage(now));
      AppendSettled(s.msgs + [m], ResumeMessage(now));
    } else {
      var synth := InterruptedMessage(ToolUsesOf(m.content), now);
      var answer := ToolMessage(ToolUsesOf(m.content), c.answers, p.hasConfirm, now);
      AnswersUses(m, synth);
      AnswersUses(m, answer);
      AppendExchange(s.msgs, m, synth);
      AppendExchange(s.msgs, m, answer);
    }
  }

  lemma AttemptsSound(s: Loop, r: StreamOutcome)
    requires Sound(s) && StreamEffect(s, r)
    ensures Sound(r.s)
  {
    hide Paired, UniqueIds;
    forall k | 0 <= k < |r.s.requests| ensures Paired(r.s.requests[k]) {
      if k < |s.requests| {
        assert r.s.requests[k] == s.requests[k];
      }
    }
  }

  lemma ConverseSound(parse: JsonParser, p: Params, s: Loop, c: Choice)
    requires Sound(s)
    requires var r := Attempts(parse, p, s, c.attempts, c.outside.now);
      s.status.Running? && r.Received? ==> FreshIn(r.msg, r.s.msgs)
    ensures Sound(Converse(parse, p, s, c))
  {
    hide Paired, UniqueIds, AllPaired, FreshIn, Attempts, Settle, AddsDeltas;
    if s.status.Running? {
      var r := Attempts(parse, p, s, c.attempts, c.outside.now);
      AttemptsEffect(parse, p, s, c.attempts, c.outside.now);
      AttemptsSound(s, r);
      if r.Received? {
        SettleSound(p, r.s, r.msg, r.hasToolUse, r.stopReason, c);
      }
    }
  }

  lemma MicroSound(ms: seq<Message>, now: int, opts: Options)
    requires Paired(ms) && UniqueIds(ms)
    ensures var after := Microcompact.After(ms, Microcompact.Micro(ms, now, opts));
      Paired(after) && UniqueIds(after)
  {
    hide Microcompact.Apply, Scan;
    if Microcompact.Micro(ms, now, opts).Changed? {
      Microcompact.ApplyKeepsShape(ms, Microcompact.Keep(opts));
      SameTranscriptSound(ms, Microcompact.Micro(ms, now, opts).messages);
    }
  }

  lemma SameTranscriptSound(a: seq<Message>, b: seq<Message>)
    requires Microcompact.SameTranscript(a, b)
    ensures Paired(a) == Paired(b) && UniqueIds(a) == UniqueIds(b)
  {
    hide UniqueIds, Scan, UseIds, ResultIds;
    forall i | 0 <= i < |a|
      ensures a[i].role == b[i].role && UseIds(a[i].content) == UseIds(b[i].content)
              && ResultIds(a[i].content) == ResultIds(b[i].content)
    {
      assert Microcompact.SameShape(a[i], b[i]);
      Microcompact.SameIds(a[i].content, b[i].content);
    }
    ScanSameIds(SETTLED, a, b);
    if UniqueIds(a) {
      UniqueSameIds(a, b);
    }
    if UniqueIds(b) {
      UniqueSameIds(b, a);
    }
  }

  lemma UniqueSameIds(a: seq<Message>, b: seq<Message>)
    requires |a| == |b| && UniqueIds(a)
    requires forall i :: 0 <= i < |a| ==> a[i].role == b[i].role && UseIds(a[i].content) == UseIds(b[i].content)
    ensures UniqueIds(b)
  {
  }

  lemma AutoCompactSound(p: Params, s: Loop, o: Outside, opts: Options)
    requires Sound(s)
    ensures Sound(AutoCompactStep(p, s, o, opts))
  {
    hide Paired, UniqueIds, AutoCompactIfNeeded, AttemptRequests, AtBlockingLimit;
    CompactedIsPaired(s.msgs, p.source, s.failures, o, opts);
    var extra := AttemptRequests(s.msgs, p.source, s.failures, o, opts);
    forall k | 0 <= k < |s.requests + extra| ensures Paired((s.requests + extra)[k]) {
      if k < |s.requests| {
        assert (s.requests + extra)[k] == s.requests[k];
      } else {
        assert (s.requests + extra)[k] == extra[k - |s.requests|];
      }
    }
  }

  lemma CompactionSound(p: Params, s: Loop, o: Outside, opts: Options)
    requires Sound(s)
    ensures Sound(Compaction(p, s, o, opts))
  {
    hide Paired, UniqueIds, AllPaired, AutoCompactStep, AtBlockingLimit, ShouldAutoCompact, Microcompact.Micro,
         Microcompact.After;
    MicroSound(s.msgs, o.now, opts);
    var s1 := s.(msgs := Microcompact.After(s.msgs, Microcompact.Micro(s.msgs, o.now, opts)));
    AutoCompactSound(p, s1, o, opts);
  }

  lemma IterateSound(parse: JsonParser, p: Params, s: Loop, c: Choice, opts: Options)
    requires Sound(s) && FreshReply(parse, p, s, c, opts)
    ensures Sound(Iterate(parse, p, s, c, opts))
  {
    hide Paired, UniqueIds, AllPaired, FreshIn, Attempts, Compaction, Converse, TurnLimitResult;
    if s.status.Running? && !c.cancelledAtHead && !(p.maxTurns > 0 && s.turnCount > p.maxTurns) {
      CompactionSound(p, s, c.outside, opts);
      ConverseSound(parse, p, Compaction(p, s, c.outside, opts), c);
    }
  }

  /**
   Pairing over whole runs: if the initial transcript is paired with unique ids and the ids of every
   reply are fresh, then so is the transcript after every turn, and every list ever passed to
   StreamMessages is paired, through tool turns, recoveries and every kind of compaction.
   */
  lemma {:induction false} RunSound(parse: JsonParser, p: Params, cs: seq<Choice>, opts: Options)
    requires Paired(p.messages) && UniqueIds(p.messages)
    requires FreshRun(parse, p, cs, opts)
    ensures Sound(QueryLoop.Run(parse, p, Start(p), cs, opts))
  {
    hide Paired, UniqueIds, Iterate, FreshReply;
    if cs != [] {
      var n := |cs| - 1;
      forall k | 0 <= k < n
        ensures FreshReply(parse, p, QueryLoop.Run(parse, p, Start(p), Init(cs)[..k], opts), Init(cs)[k], opts)
      {
        assert Init(cs)[..k] == cs[..k] && Init(cs)[k] == cs[k];
      }
      RunSound(parse, p, Init(cs), opts);
      assert cs[..n] == Init(cs) && cs[n] == Last(cs);
      IterateSound(parse, p, QueryLoop.Run(parse, p, Start(p), Init(cs), opts), Last(cs), opts);
    }
  }

  // ---- The blocking limit ----

  /** With compaction on, a state that reaches the blocking check is below the threshold. */
  lemma CompactionNeverBlocks(p: Params, s: Loop, o: Outside, opts: Options)
    requires s.status.Running? && s.failures == 0
    requires !p.disableCompact && IsAutoCompactEnabled(opts) && Threshold(opts) <= BlockingLimit(opts)
    ensures Compaction(p, s, o, opts).status != Ended(Blocked)
  {
    hide Threshold, BlockingLimit, Tokens.TokenCount, AutoCompactIfNeeded, AttemptRequests, Microcompact.Micro;
    var s1 := s.(msgs := Microcompact.After(s.msgs, Microcompact.Micro(s.msgs, o.now, opts)));
    if ShouldAutoCompact(s1.msgs, p.source, opts) {
      OverThresholdCompactsOrFails(s1.msgs, p.source, 0, o, opts);
    }
  }

  lemma IterateNeverBlocks(parse: JsonParser, p: Params, s: Loop, c: Choice, opts: Options)
    requires Steady(p, s) && s.status != Ended(Blocked)
    requires !p.disableCompact && IsAutoCompactEnabled(opts) && Threshold(opts) <= BlockingLimit(opts)
    ensures Iterate(parse, p, s, c, opts).status != Ended(Blocked)
  {
    hide Replays, EndsOnce, Compaction, Converse, TurnLimitResult, Threshold, BlockingLimit;
    if s.status.Running? {
      CompactionNeverBlocks(p, s, c.outside, opts);
      if !c.cancelledAtHead && !(p.maxTurns > 0 && s.turnCount > p.maxTurns) {
        CompactionSteady(p, s, c.outside, opts);
        ConverseSteady(parse, p, Compaction(p, s, c.outside, opts), c);
      }
    }
  }

  lemma {:induction false} RunNeverBlocks(parse: JsonParser, p: Params, cs: seq<Choice>, opts: Options)
    requires !p.disableCompact && IsAutoCompactEnabled(opts) && Threshold(opts) <= BlockingLimit(opts)
    ensures QueryLoop.Run(parse, p, Start(p), cs, opts).status != Ended(Blocked)
    ensures QueryLoop.Run(parse, p, Start(p), cs, opts).status.Running? ==>
      QueryLoop.Run(parse, p, Start(p), cs, opts).failures == 0
  {
    hide Iterate, Replays, EndsOnce, Threshold, BlockingLimit;
    RunSteady(parse, p, cs, opts);
    if cs != [] {
      RunSteady(parse, p, Init(cs), opts);
      RunNeverBlocks(parse, p, Init(cs), opts);
      IterateNeverBlocks(parse, p, QueryLoop.Run(parse, p, Start(p), Init(cs), opts), Last(cs), opts);
    }
  }

  /** A transcript whose count is exactly `tokens`: one assistant message that reports it. */
  function Measured(tokens: int): seq<Message> {
    [NewMessage(Assistant, 0).(usage := Some(Usage(tokens, 0, 0, 0)))]
  }

  lemma MeasuredCount(tokens: int)
    ensures Tokens.TokenCount(Measured(tokens)) == tokens
  {
    var ms := Measured(tokens);
    assert Tokens.LastUsage(ms) == 0;
    assert ms[1..] == [];
  }

  const QUIET :=
    Choice(false, Outside(0, SessionMemoryCompact.Memory("", "", ""), "", Refused("", false), summary => summary),
           [], false, [], [])

  lemma BlocksAtOnce(parse: JsonParser, p: Params, opts: Options)
    requires !p.disableCompact && !p.source.CompactSource? && !p.source.SessionMemorySource?
    requires BlockingLimit(opts) < Threshold(opts)
    ensures var q := p.(messages := Measured(BlockingLimit(opts)));
      QueryLoop.Run(parse, q, Start(q), [QUIET], opts).status == Ended(Blocked)
  {
    hide Threshold, BlockingLimit, Tokens.TokenCount, Converse;
    var limit := BlockingLimit(opts);
    var q := p.(messages := Measured(limit));
    MeasuredCount(limit);
    assert !Microcompact.Micro(q.messages, 0, opts).Changed?;
    assert Init([QUIET]) == [];
    var s1 := Start(q);
    assert Microcompact.After(s1.msgs, Microcompact.Micro(s1.msgs, 0, opts)) == s1.msgs;
    assert !ShouldAutoCompact(s1.msgs, q.source, opts);
    assert Compaction(q, s1, QUIET.outside, opts).status == Ended(Blocked);
    NotRunningStops(parse, q, Compaction(q, s1, QUIET.outside, opts), QUIET);
    assert Iterate(parse, q, s1, QUIET, opts) == Converse(parse, q, Compaction(q, s1, QUIET.outside, opts), QUIET);
  }

  lemma NotRunningStops(parse: JsonParser, p: Params, s: Loop, c: Choice)
    requires !s.status.Running?
    ensures Converse(parse, p, s, c) == s
  {
  }

  /**
   "Context is too large" is unreachable, from any transcript and in any run, if and only if the
   auto-compact threshold does not exceed the blocking limit.
   */
  lemma BlockingUnreachableIff(parse: JsonParser, p: Params, opts: Options)
    requires !p.disableCompact && IsAutoCompactEnabled(opts)
    requires !p.source.CompactSource? && !p.source.SessionMemorySource?
    ensures Threshold(opts) <= BlockingLimit(opts) <==>
      forall ms: seq<Message>, cs: seq<Choice> ::
        QueryLoop.Run(parse, p.(messages := ms), Start(p.(messages := ms)), cs, opts).status != Ended(Blocked)
  {
    hide QueryLoop.Run, Threshold, BlockingLimit;
    if Threshold(opts) <= BlockingLimit(opts) {
      forall ms: seq<Message>, cs: seq<Choice>
        ensures QueryLoop.Run(parse, p.(messages := ms), Start(p.(messages := ms)), cs, opts).status != Ended(Blocked)
      {
        RunNeverBlocks(parse, p.(messages := ms), cs, opts);
      }
    } else {
      BlocksAtOnce(parse, p, opts);
    }
  }

  /** With default thresholds and an effective window of at least 3000 tokens no run is ever blocked. */
  lemma DefaultsNeverBlock(parse: JsonParser, p: Params, cs: seq<Choice>, opts: Options)
    requires !p.disableCompact && IsAutoCompactEnabled(opts)
    requires opts.thresholdOverride <= 0 && opts.blockingOverride <= 0
    requires EffectiveWindow(opts) >= MANUAL_COMPACT_BUFFER
    ensures QueryLoop.Run(parse, p, Start(p), cs, opts).status != Ended(Blocked)
  {
    hide QueryLoop.Run, Threshold, BlockingLimit, EffectiveWindow;
    ThresholdBelowLimit(opts);
    RunNeverBlocks(parse, p, cs, opts);
  }

  // ---- Termination ----

  /** This turn ends with the output limit and no tool use: the loop resumes without counting a turn. */
  ghost predicate Resumes(parse: JsonParser, p: Params, s: Loop, c: Choice, opts: Options) {
    var r := ReplyTo(parse, p, s, c, opts);
    AsksClient(p, s, c, opts) && r.Received? && !r.hasToolUse && r.stopReason == MAX_OUTPUT_TOKENS
  }

  /** This turn executes the tools its reply asks for. */
  ghost predicate RunsTools(parse: JsonParser, p: Params, s: Loop, c: Choice, opts: Options) {
    var r := ReplyTo(parse, p, s, c, opts);
    AsksClient(p, s, c, opts) && r.Received? && r.hasToolUse && !c.cancelledAfter
  }

  ghost function Resumptions(parse: JsonParser, p: Params, cs: seq<Choice>, opts: Options): nat {
    if cs == [] then 0
    else Resumptions(parse, p, Init(cs), opts) +
         (if Resumes(parse, p, QueryLoop.Run(parse, p, Start(p), Init(cs), opts), Last(cs), opts) then 1 else 0)
  }

  ghost function ToolTurns(parse: JsonParser, p: Params, cs: seq<Choice>, opts: Options): nat {
    if cs == [] then 0
    else ToolTurns(parse, p, Init(cs), opts) +
         (if RunsTools(parse, p, QueryLoop.Run(parse, p, Start(p), Init(cs), opts), Last(cs), opts) then 1 else 0)
  }

  lemma SettleCounts(p: Params, s: Loop, m: Message, hasToolUse: bool, stopReason: string, c: Choice)
    requires s.status.Running?
    ensures var t := Settle(p, s, m, hasToolUse, stopReason, c);
      && t.turnCount == s.turnCount + (if hasToolUse && !c.cancelledAfter then 1 else 0)
      && (t.status.Running? <==> if hasToolUse then !c.cancelledAfter else stopReason == MAX_OUTPUT_TOKENS)
  {
  }

  lemma CompactionCounts(p: Params, s: Loop, o: Outside, opts: Options)
    ensures Compaction(p, s, o, opts).turnCount == s.turnCount
  {
    hide AutoCompactIfNeeded, AttemptRequests, AtBlockingLimit, ShouldAutoCompact, Microcompact.Micro;
  }

  lemma IterateCounts(parse: JsonParser, p: Params, s: Loop, c: Choice, opts: Options)
    ensures var t := Iterate(parse, p, s, c, opts);
      && t.turnCount == s.turnCount + (if RunsTools(parse, p, s, c, opts) then 1 else 0)
      && (t.status.Running? <==> RunsTools(parse, p, s, c, opts) || Resumes(parse, p, s, c, opts))
      && (RunsTools(parse, p, s, c, opts) && p.maxTurns > 0 ==> s.turnCount <= p.maxTurns)
  {
    hide Compaction, Attempts, Settle, TurnLimitResult, Announced, AddsDeltas;
    if s.status.Running? {
      var t := Compaction(p, s, c.outside, opts);
      CompactionCounts(p, s, c.outside, opts);
      if t.status.Running? {
        var r := Attempts(parse, p, t, c.attempts, c.outside.now);
        AttemptsEffect(parse, p, t, c.attempts, c.outside.now);
        if r.Received? {
          SettleCounts(p, r.s, r.msg, r.hasToolUse, r.stopReason, c);
        }
      }
    }
  }

  /** The counter counts the turns that executed tools; a running loop has otherwise only resumed. */
  lemma {:induction false} TurnsAreCounted(parse: JsonParser, p: Params, cs: seq<Choice>, opts: Options)
    ensures var s := QueryLoop.Run(parse, p, Start(p), cs, opts);
      && s.turnCount == 1 + ToolTurns(parse, p, cs, opts)
      && (s.status.Running? ==> |cs| == ToolTurns(parse, p, cs, opts) + Resumptions(parse, p, cs, opts))
      && (p.maxTurns > 0 ==> ToolTurns(parse, p, cs, opts) <= p.maxTurns)
  {
    hide Iterate, Resumes, RunsTools;
    if cs != [] {
      TurnsAreCounted(parse, p, Init(cs), opts);
      var before := QueryLoop.Run(parse, p, Start(p), Init(cs), opts);
      IterateCounts(parse, p, before, Last(cs), opts);
      if before.status.Running? {
        NotBoth(parse, p, before, Last(cs), opts);
      } else {
        StoppedStays(parse, p, before, Last(cs), opts);
      }
    }
  }

  lemma NotBoth(parse: JsonParser, p: Params, s: Loop, c: Choice, opts: Options)
    ensures !(RunsTools(parse, p, s, c, opts) && Resumes(parse, p, s, c, opts))
  {
  }

  /**
   With a turn limit, tools are executed in at most `maxTurns` turns of any run, and a run of more turns
   than the limit plus its resumptions is over: it has ended, or the client has not answered.
   */
  lemma RunTerminates(parse: JsonParser, p: Params, cs: seq<Choice>, opts: Options)
    requires p.maxTurns > 0
    ensures ToolTurns(parse, p, cs, opts) <= p.maxTurns
    ensures |cs| > p.maxTurns + Resumptions(parse, p, cs, opts) ==>
      !QueryLoop.Run(parse, p, Start(p), cs, opts).status.Running?
  {
    hide QueryLoop.Run, Resumptions, ToolTurns;
    TurnsAreCounted(parse, p, cs, opts);
  }

  /** An overload refusal that the loop retries with the fallback model. */
  predicate Retried(p: Params, a: Attempt) {
    a.reply.Refused? && !IsPromptTooLong(a.reply.error) && a.reply.overloaded && p.hasFallback
  }

  /** The position of the first attempt that is not retried. */
  function Answering(p: Params, attempts: seq<Attempt>): (k: nat)
    ensures k <= |attempts| && (k < |attempts| ==> !Retried(p, attempts[k]))
    ensures forall j :: 0 <= j < k ==> Retried(p, attempts[j])
  {
    if attempts == [] || !Retried(p, attempts[0]) then 0
    else
      assert forall j :: 1 <= j < |attempts| ==> attempts[j] == attempts[1..][j - 1];
      1 + Answering(p, attempts[1..])
  }

  /** The loop waits for the client exactly while every reply is an overload refusal it retries. */
  lemma {:induction false} WaitingMeansRetrying(parse: JsonParser, p: Params, s: Loop, attempts: seq<Attempt>, now: int)
    ensures Attempts(parse, p, s, attempts, now).Unanswered? <==>
      forall k :: 0 <= k < |attempts| ==> Retried(p, attempts[k])
    decreases |attempts|
  {
    hide Digest, Read, IsPromptTooLong, PromptTooLongMessage;
    if attempts != [] {
      var rest, s1 := attempts[1..], s.(requests := s.requests + [s.msgs]);
      WaitingMeansRetrying(parse, p, s1, rest, now);
      if attempts[0].reply.Streamed? {
        var es, cancelAt := attempts[0].reply.events, attempts[0].cancelAt;
        DigestAnswers(parse, s1, Read(parse, Initial(s1.out), es, 0, cancelAt, now), now);
      }
      forall k | 0 <= k < |rest| ensures rest[k] == attempts[k + 1] {
      }
      if forall k :: 0 <= k < |rest| ==> Retried(p, rest[k]) {
        forall k | 1 <= k < |attempts| ensures Retried(p, attempts[k]) {
          assert rest[k - 1] == attempts[k];
        }
      }
    }
  }

  lemma DigestAnswers(parse: JsonParser, s: Loop, r: ReadOutcome, now: int)
    ensures !Digest(parse, s, r, now).Unanswered?
  {
  }

  // ---- What is said of a prompt that is too long ----

  /** The stream of a reply runs into a refusal before it is cancelled, aborted or over. */
  predicate RefusedInside(parse: JsonParser, out: seq<Event>, a: Attempt, now: int) {
    && a.reply.Streamed?
    && var r := Read(parse, Initial(out), a.reply.events, 0, a.cancelAt, now);
       r.ReadDone? && r.st.isPTL
  }

  predicate RefusedUpFront(a: Attempt) {
    a.reply.Refused? && IsPromptTooLong(a.reply.error)
  }

  /**
   Among any attempts, the first that is not retried decides. The prompt is too long exactly if that one
   was refused as such, up front or inside its stream, and only up front does the loop say so in words.
   */
  lemma {:induction false} TooLongText(parse: JsonParser, p: Params, s: Loop, attempts: seq<Attempt>, now: int)
    ensures var r, k := Attempts(parse, p, s, attempts, now), Answering(p, attempts);
      && (r.TooLong? <==>
            k < |attempts| && (RefusedUpFront(attempts[k]) || RefusedInside(parse, s.out, attempts[k], now)))
      && (r.TooLong? ==> r.error == (if RefusedUpFront(attempts[k]) then PTL_TEXT else ""))
      && (r.GaveUp? ==> r.s.status != Ended(PromptTooLong))
    decreases |attempts|
  {
    hide Read, Flush, Finalize, IsPromptTooLong, PromptTooLongMessage;
    if attempts != [] {
      if Retried(p, attempts[0]) {
        TooLongText(parse, p, s.(requests := s.requests + [s.msgs]), attempts[1..], now);
      } else if RefusedUpFront(attempts[0]) {
        PTLMessageText(attempts[0].reply.error, now);
      }
    }
  }

  lemma PTLMessageText(details: string, now: int)
    ensures TextOf(PromptTooLongMessage(details, now).content) == PTL_TEXT
  {
    assert Init([Block.Text(PTL_TEXT)]) == [];
  }

  /**
   A turn that ends because the prompt is too long says so in its last event, its result, exactly if the
   answering attempt was refused up front; a refusal inside the stream is reported with an empty error.
   */
  lemma TooLongResult(parse: JsonParser, p: Params, s: Loop, c: Choice)
    requires s.status.Running?
    ensures var t, k := Converse(parse, p, s, c), Answering(p, c.attempts);
      && (t.status == Ended(PromptTooLong) <==>
            && k < |c.attempts|
            && (RefusedUpFront(c.attempts[k]) || RefusedInside(parse, s.out, c.attempts[k], c.outside.now)))
      && (t.status == Ended(PromptTooLong) ==>
            && t.out != []
            && Last(t.out) == ResultEvent(Result(false, "", TOO_LONG_REASON, s.turnCount,
                                                 if RefusedUpFront(c.attempts[k]) then PTL_TEXT else "")))
  {
    hide Attempts, RefusedInside, RefusedUpFront, Answering, Announced, AddsDeltas;
    TooLongText(parse, p, s, c.attempts, c.outside.now);
    AttemptsEffect(parse, p, s, c.attempts, c.outside.now);
  }

  /** The words are there to be said: a stream refused inside carries an event that names the reason. */
  lemma {:induction false} RefusalIsInStream(parse: JsonParser, st: State, es: seq<StreamEvent>, i: nat,
                                             cancelAt: Option<nat>, now: int) returns (k: nat)
    requires i <= |es| && !st.isPTL
    requires var r := Read(parse, st, es, i, cancelAt, now); r.ReadDone? && r.st.isPTL
    ensures i <= k < |es| && es[k].StreamError? && IsPromptTooLong(es[k].text)
    decreases |es| - i
  {
    hide IsPromptTooLong, PromptTooLongMessage, Advance;
    if es[i].StreamError? && IsPromptTooLong(es[i].text) {
      k := i;
    } else {
      AdvanceKeepsPTL(parse, st, es[i]);
      k := RefusalIsInStream(parse, Step(parse, st, es[i], now), es, i + 1, cancelAt, now);
    }
  }

  lemma AdvanceKeepsPTL(parse: JsonParser, s: State, e: StreamEvent)
    ensures Advance(parse, s, e).isPTL == s.isPTL
  {
  }

  /** One such stream: the turn ends with an empty error. */
  lemma RefusedInsideStreamHasNoText(parse: JsonParser, p: Params, s: Loop, text: string, c: Choice)
    requires s.status.Running? && IsPromptTooLong(text)
    requires c.attempts == [Attempt(Streamed([StreamError(text)]), None)]
    ensures var t := Converse(parse, p, s, c);
      && t.status == Ended(PromptTooLong) && t.out != []
      && Last(t.out) == ResultEvent(Result(false, "", TOO_LONG_REASON, s.turnCount, ""))
  {
    hide IsPromptTooLong, PromptTooLongMessage;
    var es := [StreamError(text)];
    assert Verdict(es[0]) == (true, "");
    assert Read(parse, Initial(s.out), es, 0, None, c.outside.now)
        == ReadDone(Step(parse, Initial(s.out), es[0], c.outside.now));
    assert c.attempts[0] == Attempt(Streamed(es), None);
    TooLongResult(parse, p, s, c);
  }
}
