/** What every run of the query loop keeps, whatever the client, the tools and the user do. */
module QueryProofs {
  import opened Messages
  import opened QueryEvents
  import opened StreamParser
  import opened ParserProofs
  import opened CompactOptions
  import opened AutoCompact
  import opened QueryLoop
  import Microcompact

  // ---- Streams add deltas and deliver a mirrored message ----

  lemma AfterStep(parse: JsonParser, base: seq<Event>, s: State, e: StreamEvent, now: int)
    ensures Step(parse, After(base, s), e, now) == After(base, Step(parse, s, e, now))
  {
    hide Advance, IsPromptTooLong, PromptTooLongMessage;
    if !e.StreamError? {
      AfterAdvance(parse, base, s, e);
    }
  }

  /** Reading a stream on a used channel: the state is that of a fresh parser, moved behind `base`. */
  lemma {:induction false} ReadMirrors(parse: JsonParser, base: seq<Event>, st: State, es: seq<StreamEvent>, i: nat,
                                       cancelAt: Option<nat>, now: int) returns (end: State)
    requires i <= |es| && MirrorUntilPTL(st)
    ensures Read(parse, After(base, st), es, i, cancelAt, now).st == After(base, end)
    ensures MirrorUntilPTL(end)
    decreases |es| - i
  {
    hide Step, Verdict, MirrorUntilPTL, After;
    if i == |es| || cancelAt == Some(i) {
      end := st;
    } else {
      AfterStep(parse, base, st, es[i], now);
      MirrorStep(parse, st, es[i], now);
      end := Step(parse, st, es[i], now);
      if Verdict(es[i]).1 == "" && !Verdict(es[i]).0 {
        end := ReadMirrors(parse, base, end, es, i + 1, cancelAt, now);
      }
    }
  }

  ghost predicate AddsDeltas(before: seq<Event>, after: seq<Event>) {
    before <= after && OnlyDeltas(after[|before|..])
  }

  /** A delivered message: an assistant message without results, announced use by use. */
  ghost predicate Announced(before: seq<Event>, after: seq<Event>, m: Message, hasToolUse: bool) {
    && AddsDeltas(before, after)
    && Mirrored(after[|before|..], m, hasToolUse)
  }

  /** What streaming may change: requests repeat the transcript, deltas are sent, nothing else moves. */
  ghost predicate StreamEffect(s: Loop, r: StreamOutcome) {
    && r.s.msgs == s.msgs && r.s.turnCount == s.turnCount && r.s.failures == s.failures
    && s.requests <= r.s.requests
    && (forall k :: |s.requests| <= k < |r.s.requests| ==> r.s.requests[k] == s.msgs)
    && match r
       case Unanswered(t) => t.out == s.out && t.status == Status.Waiting
       case GaveUp(t) => t.out != [] && AddsDeltas(s.out, Init(t.out)) && Last(t.out).ErrorEvent? && t.status.Ended?
                         && t.status.cause != Blocked
       case TooLong(t, _) => AddsDeltas(s.out, t.out) && t.status == s.status
       case Received(t, m, hasToolUse, _) => Announced(s.out, t.out, m, hasToolUse) && t.status == s.status
  }

  lemma DigestEffect(parse: JsonParser, s: Loop, es: seq<StreamEvent>, cancelAt: Option<nat>, now: int)
    ensures StreamEffect(s, Digest(parse, s, Read(parse, Initial(s.out), es, 0, cancelAt, now), now))
  {
    hide Read, Flush, Mirrored;
    assert Initial(s.out) == After(s.out, Initial([]));
    assert MirrorUntilPTL(Initial([])) by { MirrorSteps(parse, [], now); }
    var end := ReadMirrors(parse, s.out, Initial([]), es, 0, cancelAt, now);
    var r := Read(parse, Initial(s.out), es, 0, cancelAt, now);
    assert OnlyDeltas(end.sent) by { MirroredDeltas(end); }
    assert (s.out + end.sent)[|s.out|..] == end.sent;
    if r.ReadDone? && !end.isPTL {
      AfterFlush(parse, s.out, end);
      MirrorFlush(parse, end);
      var f := Flush(parse, end);
      assert (s.out + f.sent)[|s.out|..] == f.sent;
      FinalizeMirrored(f, After(s.out, f), now);
    } else if !r.ReadDone? {
      assert Init(r.st.sent + [ErrorEvent("")]) == r.st.sent;
      var t := Digest(parse, s, r, now).s;
      assert Init(t.out) == r.st.sent;
    }
  }

  lemma MirroredDeltas(st: State)
    requires MirrorUntilPTL(st)
    ensures OnlyDeltas(st.sent)
  {
  }

  lemma FinalizeMirrored(f: State, g: State, now: int)
    requires Mirror(f) && g.msg == f.msg
    ensures Mirrored(f.sent, Finalize(g, now), f.hasToolUse) && OnlyDeltas(f.sent)
  {
  }

  lemma {:induction false} AttemptsEffect(parse: JsonParser, p: Params, s: Loop, attempts: seq<Attempt>, now: int)
    ensures StreamEffect(s, Attempts(parse, p, s, attempts, now))
    decreases |attempts|
  {
    hide Digest, Read, IsPromptTooLong, PromptTooLongMessage, Announced;
    if attempts != [] {
      var s1 := s.(requests := s.requests + [s.msgs]);
      assert s.out[|s.out|..] == [];
      match attempts[0].reply
      case Refused(error, overloaded) =>
        if !IsPromptTooLong(error) {
          if overloaded && p.hasFallback {
            AttemptsEffect(parse, p, s1, attempts[1..], now);
            EffectAfterRequest(s, s1, Attempts(parse, p, s1, attempts[1..], now));
          } else {
            assert Init(s.out + [ErrorEvent(error)]) == s.out;
          }
        }
      case Streamed(es) =>
        DigestEffect(parse, s1, es, attempts[0].cancelAt, now);
        EffectAfterRequest(s, s1, Attempts(parse, p, s, attempts, now));
    }
  }

  lemma EffectAfterRequest(s: Loop, s1: Loop, r: StreamOutcome)
    requires s1 == s.(requests := s.requests + [s.msgs]) && StreamEffect(s1, r)
    ensures StreamEffect(s, r)
  {
    hide Announced, AddsDeltas;
    assert r.s.requests[|s.requests|] == s1.requests[|s.requests|] == s.msgs;
  }

  // ---- One ending ----

  ghost predicate NoTerminal(es: seq<Event>) {
    forall i :: 0 <= i < |es| ==> !IsTerminal(es[i])
  }

  /** Exactly one result or error event, and it is the last one, exactly when the loop has ended. */
  ghost predicate EndsOnce(s: Loop) {
    if s.status.Ended? then s.out != [] && IsTerminal(Last(s.out)) && NoTerminal(Init(s.out))
    else NoTerminal(s.out)
  }

  lemma EndWith(s: Loop, e: Event, cause: Cause)
    requires NoTerminal(s.out) && IsTerminal(e)
    ensures EndsOnce(Emit(s, e).(status := Ended(cause)))
  {
    assert Init(s.out + [e]) == s.out;
  }

  lemma DeltasAreNotTerminal(before: seq<Event>, after: seq<Event>)
    requires NoTerminal(before) && AddsDeltas(before, after)
    ensures NoTerminal(after)
  {
    forall i | 0 <= i < |after| ensures !IsTerminal(after[i]) {
      if i < |before| {
        assert after[i] == before[i];
      } else {
        assert after[i] == after[|before|..][i - |before|];
      }
    }
  }

  // ---- Replay ----

  /** The listener's transcript is the loop's, except for results that micro-compaction cleared. */
  ghost predicate Replays(p: Params, s: Loop) {
    Microcompact.SameTranscript(Replay(p.messages, s.out), s.msgs)
  }

  lemma SameAsItself(ms: seq<Message>)
    ensures Microcompact.SameTranscript(ms, ms)
  {
  }

  lemma ReplayInert(p: Params, s: Loop, e: Event, status: Status)
    requires Replays(p, s) && (IsTerminal(e) || IsDelta(e))
    ensures Replays(p, Emit(s, e).(status := status))
  {
    hide Microcompact.SameTranscript;
    ReplayAppend(p.messages, s.out, e);
  }

  lemma ReplayAppended(p: Params, s: Loop, m: Message, e: Event)
    requires Replays(p, s) && (e == UsageEvent(m) || e == UserMessageEvent(m))
    ensures Replays(p, Append(s, m, e))
  {
    ReplayAppend(p.messages, s.out, e);
    var a, b := Replay(p.messages, s.out), s.msgs;
    forall i | 0 <= i < |a + [m]| ensures Microcompact.SameShape((a + [m])[i], (b + [m])[i]) {
      if i < |a| {
        assert Microcompact.SameShape(a[i], b[i]);
      }
    }
  }

  lemma {:induction false} ReplayDeltas(base: seq<Message>, es: seq<Event>, ds: seq<Event>)
    requires OnlyDeltas(ds)
    ensures Replay(base, es + ds) == Replay(base, es)
  {
    if ds == [] {
      assert es + ds == es;
    } else {
      assert es + ds == (es + Init(ds)) + [Last(ds)];
      ReplayDeltas(base, es, Init(ds));
      ReplayAppend(base, es + Init(ds), Last(ds));
    }
  }

  lemma ReplayAddsDeltas(p: Params, s: Loop, t: Loop)
    requires Replays(p, s) && AddsDeltas(s.out, t.out) && t.msgs == s.msgs
    ensures Replays(p, t)
  {
    hide Microcompact.SameTranscript, Replay;
    assert t.out == s.out + t.out[|s.out|..];
    ReplayDeltas(p.messages, s.out, t.out[|s.out|..]);
  }

  // ---- The plain invariant: replay, one ending, a closed breaker, the turn limit ----

  ghost predicate Steady(p: Params, s: Loop) {
    && Replays(p, s)
    && EndsOnce(s)
    && (!s.status.Ended? ==> s.failures == 0)
    && (p.maxTurns > 0 ==> s.turnCount <= p.maxTurns + 1)
  }

  /** At most what one turn may add while it is still under way. */
  ghost predicate InTurn(p: Params, s: Loop) {
    Steady(p, s) && (p.maxTurns > 0 && !s.status.Ended? ==> s.turnCount <= p.maxTurns)
  }

  lemma FailSteady(p: Params, s: Loop, error: string, cause: Cause)
    requires InTurn(p, s) && !s.status.Ended?
    ensures InTurn(p, Fail(s, error, cause))
  {
    hide Microcompact.SameTranscript, Replay;
    EndWith(s, ErrorEvent(error), cause);
    ReplayInert(p, s, ErrorEvent(error), Ended(cause));
  }

  lemma CheckBlockingSteady(p: Params, s: Loop, opts: Options)
    requires InTurn(p, s) && s.status.Running?
    ensures InTurn(p, CheckBlocking(p, s, opts))
  {
    hide InTurn, AtBlockingLimit, Fail;
    if AtBlockingLimit(p, s.msgs, opts) {
      FailSteady(p, s, TOO_LARGE, Blocked);
    }
  }

  lemma ReplaysCompacted(p: Params, s: Loop, ms: seq<Message>)
    ensures Replays(p, Emit(s.(msgs := ms), CompactionResultEvent(ms)))
  {
    hide Microcompact.SameTranscript, Replay;
    ReplayAppend(p.messages, s.out, CompactionResultEvent(ms));
    SameAsItself(ms);
  }

  lemma AutoCompactSteady(p: Params, s: Loop, o: Outside, opts: Options)
    requires InTurn(p, s) && s.status.Running? && ShouldAutoCompact(s.msgs, p.source, opts)
    ensures InTurn(p, AutoCompactStep(p, s, o, opts))
    ensures AutoCompactStep(p, s, o, opts).status != Ended(Blocked)
  {
    hide Replays, AutoCompactIfNeeded, AttemptRequests, ShouldAutoCompact, CheckBlocking;
    OverThresholdCompactsOrFails(s.msgs, p.source, s.failures, o, opts);
    var s1 := s.(requests := s.requests + AttemptRequests(s.msgs, p.source, s.failures, o, opts));
    assert Replays(p, s1) by { RequestsDoNotShow(p, s, s1); }
    match AutoCompactIfNeeded(s.msgs, p.source, s.failures, o, opts)
    case Failed(failures, error) =>
      FailSteady(p, s1, COMPACT_FAILED + error, CompactionFailed);
      BreakerDoesNotShow(p, Fail(s1, COMPACT_FAILED + error, CompactionFailed), failures);
    case Compacted(ms) => ReplaysCompacted(p, s1, ms);
  }

  lemma RequestsDoNotShow(p: Params, s: Loop, s1: Loop)
    requires Replays(p, s) && s1.out == s.out && s1.msgs == s.msgs
    ensures Replays(p, s1)
  {
  }

  lemma BreakerDoesNotShow(p: Params, s: Loop, failures: nat)
    requires InTurn(p, s) && s.status.Ended?
    ensures InTurn(p, s.(failures := failures))
  {
  }

  lemma MicroSteady(p: Params, s: Loop, now: int, opts: Options)
    requires InTurn(p, s)
    ensures InTurn(p, s.(msgs := Microcompact.After(s.msgs, Microcompact.Micro(s.msgs, now, opts))))
  {
    hide Microcompact.SameTranscript, Replay, Microcompact.Apply;
    if Microcompact.Micro(s.msgs, now, opts).Changed? {
      Microcompact.ApplyKeepsShape(s.msgs, Microcompact.Keep(opts));
      Microcompact.SameTranscriptTransitive(Replay(p.messages, s.out), s.msgs,
                                            Microcompact.Micro(s.msgs, now, opts).messages);
    }
  }

  lemma CompactionSteady(p: Params, s: Loop, o: Outside, opts: Options)
    requires InTurn(p, s) && s.status.Running?
    ensures InTurn(p, Compaction(p, s, o, opts))
  {
    hide Replays, EndsOnce, AutoCompactStep, CheckBlocking, ShouldAutoCompact, Microcompact.Micro;
    if p.disableCompact {
      CheckBlockingSteady(p, s, opts);
    } else {
      MicroSteady(p, s, o.now, opts);
      var s1 := s.(msgs := Microcompact.After(s.msgs, Microcompact.Micro(s.msgs, o.now, opts)));
      if ShouldAutoCompact(s1.msgs, p.source, opts) {
        AutoCompactSteady(p, s1, o, opts);
      } else {
        assert s1.(failures := 0) == s1;
        CheckBlockingSteady(p, s1, opts);
      }
    }
  }

  lemma DeltaSteady(p: Params, s: Loop, t: Loop)
    requires InTurn(p, s) && s.status.Running?
    requires AddsDeltas(s.out, t.out) && t == s.(out := t.out, requests := t.requests)
    ensures InTurn(p, t)
  {
    hide Replays;
    DeltasAreNotTerminal(s.out, t.out);
    ReplayAddsDeltas(p, s, t);
  }

  lemma AppendSteady(p: Params, s: Loop, m: Message, e: Event)
    requires InTurn(p, s) && s.status.Running? && (e == UsageEvent(m) || e == UserMessageEvent(m))
    ensures InTurn(p, Append(s, m, e))
  {
    hide Replays;
    ReplayAppended(p, s, m, e);
  }

  lemma ResultSteady(p: Params, s: Loop, r: Result, cause: Cause)
    requires Steady(p, s) && s.status.Running?
    ensures Steady(p, Emit(s, ResultEvent(r)).(status := Ended(cause)))
  {
    hide Replays;
    EndWith(s, ResultEvent(r), cause);
    ReplayInert(p, s, ResultEvent(r), Ended(cause));
  }

  lemma SettleSteady(p: Params, s: Loop, m: Message, hasToolUse: bool, stopReason: string, c: Choice)
    requires InTurn(p, s) && s.status.Running?
    ensures Steady(p, Settle(p, s, m, hasToolUse, stopReason, c))
    ensures Settle(p, s, m, hasToolUse, stopReason, c).status != Ended(Blocked)
  {
    hide Replays, EndsOnce, ToolMessage, InterruptedMessage, ResumeMessage;
    UsesAreToolUses(m);
    var s1, now := Append(s, m, UsageEvent(m)), c.outside.now;
    AppendSteady(p, s, m, UsageEvent(m));
    if !hasToolUse && stopReason == MAX_OUTPUT_TOKENS {
      AppendSteady(p, s1, ResumeMessage(now), UserMessageEvent(ResumeMessage(now)));
    } else if !hasToolUse {
      var reason := if stopReason == "" then END_TURN else stopReason;
      ResultSteady(p, s1, Result(true, TextOf(m.content), reason, s.turnCount, ""), Completed);
    } else if c.cancelledAfter {
      var synth := InterruptedMessage(ToolUsesOf(m.content), now);
      AppendSteady(p, s1, synth, UserMessageEvent(synth));
      FailSteady(p, Append(s1, synth, UserMessageEvent(synth)), ABORTED, Interrupted);
    } else {
      var answer := ToolMessage(ToolUsesOf(m.content), c.answers, p.hasConfirm, now);
      AppendSteady(p, s1, answer, UserMessageEvent(answer));
      TurnCountDoesNotShow(p, Append(s1, answer, UserMessageEvent(answer)), s.turnCount + 1);
    }
  }

  lemma TurnCountDoesNotShow(p: Params, s: Loop, turnCount: nat)
    requires Steady(p, s) && (p.maxTurns > 0 ==> turnCount <= p.maxTurns + 1)
    ensures Steady(p, s.(turnCount := turnCount))
  {
  }

  lemma GaveUpSteady(p: Params, s: Loop, t: Loop)
    requires InTurn(p, s) && s.status.Running?
    requires StreamEffect(s, GaveUp(t))
    ensures Steady(p, t)
  {
    hide Replays;
    var quiet := s.(out := Init(t.out));
    DeltasAreNotTerminal(s.out, quiet.out);
    ReplayAddsDeltas(p, s, quiet);
    assert t.out == quiet.out + [Last(t.out)];
    ReplayInert(p, quiet, Last(t.out), t.status);
    RequestsDoNotShow(p, Emit(quiet, Last(t.out)).(status := t.status), t);
  }

  lemma WaitingSteady(p: Params, s: Loop, t: Loop)
    requires InTurn(p, s) && s.status.Running? && StreamEffect(s, Unanswered(t))
    ensures Steady(p, t)
  {
    hide Replays;
    RequestsDoNotShow(p, s, t);
  }

  lemma ConverseSteady(parse: JsonParser, p: Params, s: Loop, c: Choice)
    requires InTurn(p, s) && s.status != Ended(Blocked)
    ensures Steady(p, Converse(parse, p, s, c))
    ensures Converse(parse, p, s, c).status != Ended(Blocked)
  {
    hide InTurn, Replays, EndsOnce, Attempts, Settle, AddsDeltas, Announced;
    if s.status.Running? {
      var r := Attempts(parse, p, s, c.attempts, c.outside.now);
      AttemptsEffect(parse, p, s, c.attempts, c.outside.now);
      match r
      case Unanswered(t) => WaitingSteady(p, s, t);
      case GaveUp(t) => GaveUpSteady(p, s, t);
      case TooLong(t, error) =>
        DeltaSteady(p, s, t);
        assert Steady(p, t) by { InTurnIsSteady(p, t); }
        ResultSteady(p, t, Result(false, "", TOO_LONG_REASON, t.turnCount, error), PromptTooLong);
      case Received(t, m, hasToolUse, stopReason) =>
        assert AddsDeltas(s.out, t.out) by { AnnouncedAdds(s.out, t.out, m, hasToolUse); }
        DeltaSteady(p, s, t);
        SettleSteady(p, t, m, hasToolUse, stopReason, c);
    } else {
      InTurnIsSteady(p, s);
    }
  }

  lemma InTurnIsSteady(p: Params, s: Loop)
    requires InTurn(p, s)
    ensures Steady(p, s)
  {
  }

  lemma AnnouncedAdds(before: seq<Event>, after: seq<Event>, m: Message, hasToolUse: bool)
    requires Announced(before, after, m, hasToolUse)
    ensures AddsDeltas(before, after)
  {
  }

  lemma IterateSteady(parse: JsonParser, p: Params, s: Loop, c: Choice, opts: Options)
    requires Steady(p, s)
    ensures Steady(p, Iterate(parse, p, s, c, opts))
  {
    hide Replays, EndsOnce, Compaction, Converse, TurnLimitResult;
    if s.status.Running? {
      if c.cancelledAtHead {
        EndWith(s, ErrorEvent(ABORTED), Cancelled) by { NotEnded(s); }
        ReplayInert(p, s, ErrorEvent(ABORTED), Ended(Cancelled));
      } else if p.maxTurns > 0 && s.turnCount > p.maxTurns {
        ResultSteady(p, s, TurnLimitResult(p, s), TurnLimit);
      } else {
        CompactionSteady(p, s, c.outside, opts);
        ConverseKeeps(parse, p, Compaction(p, s, c.outside, opts), c);
      }
    }
  }

  lemma NotEnded(s: Loop)
    requires EndsOnce(s) && !s.status.Ended?
    ensures NoTerminal(s.out)
  {
  }

  lemma ConverseKeeps(parse: JsonParser, p: Params, s: Loop, c: Choice)
    requires InTurn(p, s)
    ensures Steady(p, Converse(parse, p, s, c))
  {
    hide Replays, EndsOnce, Conclude, Attempts;
    if s.status.Running? {
      ConverseSteady(parse, p, s, c);
    }
  }

  lemma {:induction false} RunSteady(parse: JsonParser, p: Params, cs: seq<Choice>, opts: Options)
    ensures Steady(p, Run(parse, p, Start(p), cs, opts))
  {
    hide Iterate, Replays;
    if cs == [] {
      assert Replays(p, Start(p)) by { StartReplays(p); }
    } else {
      RunSteady(parse, p, Init(cs), opts);
      IterateSteady(parse, p, Run(parse, p, Start(p), Init(cs), opts), Last(cs), opts);
    }
  }

  lemma StartReplays(p: Params)
    ensures Replays(p, Start(p))
  {
    SameAsItself(p.messages);
  }

  /**
   Replay simulation: after every turn of every run, folding the events sent so far over the initial
   messages gives the loop's own transcript, up to tool-result contents that were cleared.
   */
  lemma ReplaySimulation(parse: JsonParser, p: Params, cs: seq<Choice>, opts: Options)
    ensures var s := Run(parse, p, Start(p), cs, opts);
      Microcompact.SameTranscript(Replay(p.messages, s.out), s.msgs)
  {
    hide Run, Microcompact.SameTranscript;
    RunSteady(parse, p, cs, opts);
  }

  // ---- Replay inside a turn ----

  /** The messages that events append to a transcript, in order. */
  function Appended(es: seq<Event>): seq<Message> {
    if es == [] then []
    else Appended(Init(es)) + (if Last(es).UsageEvent? || Last(es).UserMessageEvent? then [Last(es).message] else [])
  }

  ghost predicate NoReplacing(es: seq<Event>) {
    forall i :: 0 <= i < |es| ==> !es[i].CompactionResultEvent?
  }

  /** What is sent between the two states appends exactly the messages the loop appends. */
  ghost predicate Follows(s: Loop, t: Loop) {
    && s.out <= t.out && NoReplacing(t.out[|s.out|..])
    && t.msgs == s.msgs + Appended(t.out[|s.out|..])
  }

  lemma {:induction false} AppendedConcat(a: seq<Event>, b: seq<Event>)
    ensures Appended(a + b) == Appended(a) + Appended(b)
  {
    if b == [] {
      assert a + b == a;
    } else {
      AppendedConcat(a, Init(b));
      assert Init(a + b) == a + Init(b);
    }
  }

  lemma FollowsItself(s: Loop)
    ensures Follows(s, s)
  {
    assert s.out[|s.out|..] == [] && s.msgs + [] == s.msgs;
  }

  lemma FollowsOne(s: Loop, t: Loop, e: Event)
    requires t.out == s.out + [e] && !e.CompactionResultEvent?
    requires t.msgs == s.msgs + (if e.UsageEvent? || e.UserMessageEvent? then [e.message] else [])
    ensures Follows(s, t)
  {
    assert t.out[|s.out|..] == [e] && Init([e]) == [];
  }

  lemma FollowsDeltas(s: Loop, t: Loop)
    requires AddsDeltas(s.out, t.out) && t.msgs == s.msgs
    ensures Follows(s, t)
  {
    DeltasAppendNothing(t.out[|s.out|..]);
    assert s.msgs + [] == s.msgs;
  }

  lemma {:induction false} DeltasAppendNothing(ds: seq<Event>)
    requires OnlyDeltas(ds)
    ensures Appended(ds) == []
  {
    if ds != [] {
      DeltasAppendNothing(Init(ds));
    }
  }

  lemma FollowsTransitive(s: Loop, t: Loop, u: Loop)
    requires Follows(s, t) && Follows(t, u)
    ensures Follows(s, u)
  {
    hide Appended;
    var a, b := t.out[|s.out|..], u.out[|t.out|..];
    assert u.out[|s.out|..] == a + b;
    AppendedConcat(a, b);
    assert s.msgs + Appended(a) + Appended(b) == s.msgs + (Appended(a) + Appended(b));
  }

  lemma SettleFollows(p: Params, s: Loop, m: Message, hasToolUse: bool, stopReason: string, c: Choice)
    ensures Follows(s, Settle(p, s, m, hasToolUse, stopReason, c))
  {
    hide Follows, ToolMessage, InterruptedMessage, ResumeMessage;
    UsesAreToolUses(m);
    var s1, now, t := Append(s, m, UsageEvent(m)), c.outside.now, Settle(p, s, m, hasToolUse, stopReason, c);
    FollowsOne(s, s1, UsageEvent(m));
    if !hasToolUse && stopReason == MAX_OUTPUT_TOKENS {
      FollowsOne(s1, t, UserMessageEvent(ResumeMessage(now)));
    } else if !hasToolUse {
      FollowsOne(s1, t, Last(t.out));
    } else if c.cancelledAfter {
      var synth := InterruptedMessage(ToolUsesOf(m.content), now);
      var s2 := Append(s1, synth, UserMessageEvent(synth));
      FollowsOne(s1, s2, UserMessageEvent(synth));
      FollowsOne(s2, t, ErrorEvent(ABORTED));
      FollowsTransitive(s1, s2, t);
    } else {
      FollowsOne(s1, t, UserMessageEvent(ToolMessage(ToolUsesOf(m.content), c.answers, p.hasConfirm, now)));
    }
    FollowsTransitive(s, s1, t);
  }

  lemma ConverseFollows(parse: JsonParser, p: Params, s: Loop, c: Choice)
    ensures Follows(s, Converse(parse, p, s, c))
  {
    hide Follows, Attempts, Settle, AddsDeltas, Announced;
    FollowsItself(s);
    if s.status.Running? {
      var r, end := Attempts(parse, p, s, c.attempts, c.outside.now), Converse(parse, p, s, c);
      AttemptsEffect(parse, p, s, c.attempts, c.outside.now);
      match r
      case Unanswered(t) => SameFollows(s, t);
      case GaveUp(t) =>
        var quiet := s.(out := Init(t.out));
        FollowsDeltas(s, quiet);
        FollowsOne(quiet, t, Last(t.out));
        FollowsTransitive(s, quiet, t);
      case TooLong(t, _) =>
        FollowsDeltas(s, t);
        FollowsOne(t, end, Last(end.out));
        FollowsTransitive(s, t, end);
      case Received(t, m, hasToolUse, stopReason) =>
        AnnouncedAdds(s.out, t.out, m, hasToolUse);
        FollowsDeltas(s, t);
        SettleFollows(p, t, m, hasToolUse, stopReason, c);
        FollowsTransitive(s, t, end);
    }
  }

  lemma SameFollows(s: Loop, t: Loop)
    requires t.out == s.out && t.msgs == s.msgs
    ensures Follows(s, t)
  {
    FollowsItself(s);
  }

  lemma {:induction false} ReplayFollows(base: seq<Message>, out: seq<Event>, es: seq<Event>)
    requires NoReplacing(es)
    ensures Replay(base, out + es) == Replay(base, out) + Appended(es)
  {
    if es == [] {
      assert out + es == out && Replay(base, out) + [] == Replay(base, out);
    } else {
      assert out + es == (out + Init(es)) + [Last(es)];
      ReplayFollows(base, out, Init(es));
      ReplayAppend(base, out + Init(es), Last(es));
    }
  }

  lemma SameAppended(a: seq<Message>, b: seq<Message>, more: seq<Message>)
    requires Microcompact.SameTranscript(a, b)
    ensures Microcompact.SameTranscript(a + more, b + more)
  {
    forall i | 0 <= i < |a + more| ensures Microcompact.SameShape((a + more)[i], (b + more)[i]) {
      if i < |a| {
        assert Microcompact.SameShape(a[i], b[i]);
      }
    }
  }

  /**
   Inside a turn as well: after compaction the loop only appends, each message just before the event that
   carries it, and whenever an event has been sent the events so far replay to the transcript so far.
   */
  lemma ReplayInsideTurn(parse: JsonParser, p: Params, cs: seq<Choice>, c: Choice, opts: Options, n: nat)
    requires var s := Run(parse, p, Start(p), cs, opts);
      s.status.Running? && (p.maxTurns > 0 ==> s.turnCount <= p.maxTurns)
    requires var begun := Compaction(p, Run(parse, p, Start(p), cs, opts), c.outside, opts);
      |begun.out| <= n <= |Converse(parse, p, begun, c).out|
    ensures var begun := Compaction(p, Run(parse, p, Start(p), cs, opts), c.outside, opts);
      var end := Converse(parse, p, begun, c);
      var sofar := begun.msgs + Appended(end.out[|begun.out|..n]);
      && begun.out <= end.out && sofar <= end.msgs
      && Microcompact.SameTranscript(Replay(p.messages, end.out[..n]), sofar)
  {
    hide Run, Compaction, Converse, Appended, Replay, Microcompact.SameTranscript, EndsOnce;
    var s := Run(parse, p, Start(p), cs, opts);
    var begun := Compaction(p, s, c.outside, opts);
    var end := Converse(parse, p, begun, c);
    RunSteady(parse, p, cs, opts);
    CompactionSteady(p, s, c.outside, opts);
    ConverseFollows(parse, p, begun, c);
    var added, rest := end.out[|begun.out|..n], end.out[n..];
    assert end.out[|begun.out|..] == added + rest && end.out[..n] == begun.out + added;
    AppendedConcat(added, rest);
    assert begun.msgs + (Appended(added) + Appended(rest)) == begun.msgs + Appended(added) + Appended(rest);
    NoneReplaced(added, rest);
    ReplayFollows(p.messages, begun.out, added);
    SameAppended(Replay(p.messages, begun.out), begun.msgs, Appended(added));
  }

  lemma NoneReplaced(a: seq<Event>, b: seq<Event>)
    requires NoReplacing(a + b)
    ensures NoReplacing(a)
  {
    forall i | 0 <= i < |a| ensures !a[i].CompactionResultEvent? {
      assert (a + b)[i] == a[i];
    }
  }

  /** Every run emits a result or an error at most once, as its last event, and exactly if it has ended. */
  lemma OneEnding(parse: JsonParser, p: Params, cs: seq<Choice>, opts: Options)
    ensures EndsOnce(QueryLoop.Run(parse, p, Start(p), cs, opts))
  {
    hide Run, EndsOnce;
    RunSteady(parse, p, cs, opts);
  }
}
