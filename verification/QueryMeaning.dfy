/** What a turn of the query loop tells the model and the user. */
module QueryMeaning {
  import opened Messages
  import opened QueryEvents
  import opened StreamParser
  import opened CompactOptions
  import opened QueryLoop
  import opened QuerySafety
  import opened ParserProofs
  import ParserUsage
  import Text

  // ---- Tool results ----

  /** The tool may be called: it exists, and if it is risky and somebody can be asked, they approved. */
  predicate Permitted(a: ToolAnswer, hasConfirm: bool) {
    a.Tool? && (hasConfirm && a.risky ==> a.confirm.Approved?)
  }

  function NamedError(before: string, name: string, after: string): string {
    before + "\"" + name + "\"" + after
  }

  /**
   What one result block says: it is a success exactly if the tool was permitted and its call succeeded,
   and then it is the call's text; each kind of failure has its own error text.
   */
  predicate Tells(b: Block, use: Block, a: ToolAnswer, hasConfirm: bool)
    requires use.ToolUse?
  {
    && b.ToolResult? && b.toolUseId == use.id
    && (!b.isError <==> Permitted(a, hasConfirm) && a.call.CallOk?)
    && (!b.isError ==> b.content == a.call.text)
    && (Permitted(a, hasConfirm) && a.call.CallFailed? ==> b.content == a.call.error)
    && (a.NoSuchTool? ==> b.content == NamedError("Tool ", use.name, " not found"))
    && (a.Tool? && !Permitted(a, hasConfirm) ==>
          && (a.confirm.Declined? ==> b.content == NamedError("tool ", use.name, " was not approved by user"))
          && (a.confirm.ConfirmFailed? ==> b.content == "confirmation cancelled: " + a.confirm.error))
  }

  /** The message that answers the uses: one block per use, each telling what became of it. */
  ghost predicate TellsAll(m: Message, uses: seq<Block>, answers: seq<ToolAnswer>, hasConfirm: bool)
    requires AllToolUses(uses)
  {
    && m.role.User? && |m.content| == |uses|
    && forall i :: 0 <= i < |uses| ==>
         Tells(m.content[i], uses[i], if i < |answers| then answers[i] else NoSuchTool, hasConfirm)
  }

  lemma ToolMessageTells(uses: seq<Block>, answers: seq<ToolAnswer>, hasConfirm: bool, now: int)
    requires AllToolUses(uses)
    ensures TellsAll(ToolMessage(uses, answers, hasConfirm, now), uses, answers, hasConfirm)
  {
  }

  /** A tool that was not permitted is never called: whatever its call would give, the message is the same. */
  lemma RefusedIsNotCalled(uses: seq<Block>, answers: seq<ToolAnswer>, i: nat, call: CallReply, hasConfirm: bool,
                           now: int)
    requires AllToolUses(uses) && i < |answers| && answers[i].Tool? && !Permitted(answers[i], hasConfirm)
    ensures ToolMessage(uses, answers[i := answers[i].(call := call)], hasConfirm, now)
         == ToolMessage(uses, answers, hasConfirm, now)
  {
    var m := ToolMessage(uses, answers, hasConfirm, now);
    var m' := ToolMessage(uses, answers[i := answers[i].(call := call)], hasConfirm, now);
    forall k | 0 <= k < |uses| ensures m.content[k] == m'.content[k] {
    }
  }

  /** A refusal and a failed confirmation are told apart. */
  lemma DeclinedIsNotCancelled(b: Block, b': Block, use: Block, a: ToolAnswer, error: string, hasConfirm: bool)
    requires use.ToolUse? && a.Tool? && hasConfirm && a.risky && a.confirm.Declined?
    requires Tells(b, use, a, hasConfirm) && Tells(b', use, a.(confirm := ConfirmFailed(error)), hasConfirm)
    ensures b.content != b'.content
  {
    assert b.content[0] == 't' && b'.content[0] == 'c';
  }

  // ---- What a turn appends and sends ----

  /** Every use of an interrupted turn gets the same error, and none was executed. */
  ghost predicate TellsInterrupted(m: Message, uses: seq<Block>)
    requires AllToolUses(uses)
  {
    && m.role.User? && |m.content| == |uses|
    && forall i :: 0 <= i < |uses| ==> m.content[i] == ToolResult(uses[i].id, "[Tool execution interrupted]", true)
  }

  ghost predicate UsesAnswered(p: Params, m: Message, answer: Message, c: Choice) {
    UsesAreToolUses(m);
    if c.cancelledAfter then TellsInterrupted(answer, ToolUsesOf(m.content))
    else TellsAll(answer, ToolUsesOf(m.content), c.answers, p.hasConfirm)
  }

  /**
   A turn that receives a message with tool uses appends it and one answer, and sends both: the answer of
   each tool, or interruptions, after which the run ends as aborted.
   */
  lemma ToolTurnTells(parse: JsonParser, p: Params, s: Loop, c: Choice, opts: Options)
    requires AsksClient(p, s, c, opts)
    requires ReplyTo(parse, p, s, c, opts).Received? && ReplyTo(parse, p, s, c, opts).hasToolUse
    ensures var r, t := ReplyTo(parse, p, s, c, opts), Iterate(parse, p, s, c, opts);
      && |t.msgs| == |r.s.msgs| + 2 && t.msgs[..|r.s.msgs|] == r.s.msgs && t.msgs[|r.s.msgs|] == r.msg
      && UsesAnswered(p, r.msg, Last(t.msgs), c)
      && r.s.out + [UsageEvent(r.msg), UserMessageEvent(Last(t.msgs))] <= t.out
      && (c.cancelledAfter ==> Last(t.out) == ErrorEvent("query aborted") && |t.out| == |r.s.out| + 3)
      && (!c.cancelledAfter ==> |t.out| == |r.s.out| + 2 && t.status == r.s.status)
  {
    hide Attempts, Compaction, ToolMessage, TellsAll;
    var r, t := ReplyTo(parse, p, s, c, opts), Iterate(parse, p, s, c, opts);
    UsesAreToolUses(r.msg);
    ToolMessageTells(ToolUsesOf(r.msg.content), c.answers, p.hasConfirm, c.outside.now);
    assert t == Settle(p, r.s, r.msg, true, r.stopReason, c);
  }

  /**
   A turn that receives a message without tool uses: cut off by the output limit it asks the model to resume and
   goes on; otherwise the run ends, and the result is the text of that message, with its stop reason and the turns.
   */
  lemma TextTurnTells(parse: JsonParser, p: Params, s: Loop, c: Choice, opts: Options)
    requires AsksClient(p, s, c, opts)
    requires ReplyTo(parse, p, s, c, opts).Received? && !ReplyTo(parse, p, s, c, opts).hasToolUse
    ensures var r, t := ReplyTo(parse, p, s, c, opts), Iterate(parse, p, s, c, opts);
      var stop := r.stopReason;
      if stop == "max_output_tokens" then
        && |t.msgs| == |r.s.msgs| + 2 && t.msgs[..|r.s.msgs|] == r.s.msgs && t.msgs[|r.s.msgs|] == r.msg
        && Last(t.msgs).role.User? && Last(t.msgs).content == [Block.Text(RESUME)]
        && t.out == r.s.out + [UsageEvent(r.msg), UserMessageEvent(Last(t.msgs))]
        && t.status == r.s.status && t.turnCount == r.s.turnCount
      else
        && t.msgs == r.s.msgs + [r.msg] && t.status == Ended(Completed)
        && t.out == r.s.out + [UsageEvent(r.msg),
                               ResultEvent(Result(true, TextOf(r.msg.content), if stop == "" then "end_turn" else stop,
                                                  r.s.turnCount, ""))]
  {
    hide Attempts, Compaction, TextOf;
    var r, t := ReplyTo(parse, p, s, c, opts), Iterate(parse, p, s, c, opts);
    assert t == Settle(p, r.s, r.msg, false, r.stopReason, c);
  }

  /**
   A turn that does not ask the client: the loop has stopped, or it is cancelled, or over its limit, or ended by
   the compaction pipeline.
   */
  lemma HeadTells(parse: JsonParser, p: Params, s: Loop, c: Choice, opts: Options)
    requires !AsksClient(p, s, c, opts)
    ensures var t := Iterate(parse, p, s, c, opts);
      if !s.status.Running? then t == s
      else if c.cancelledAtHead then
        t == s.(out := s.out + [ErrorEvent("query aborted")], status := Ended(Cancelled))
      else if p.maxTurns > 0 && s.turnCount > p.maxTurns then
        t == s.(out := s.out + [ResultEvent(Result(false, "", "", s.turnCount,
                                "Reached maximum number of turns (" + Text.Decimal(p.maxTurns) + ")"))],
                status := Ended(TurnLimit))
      else t == Compaction(p, s, c.outside, opts)
  {
    hide Compaction;
  }

  // ---- Streams are read to the end, or to the first event that stops them ----

  /** Reading stops before event `i`: it is cancelled there, or the event is an error. */
  predicate StopsAt(es: seq<StreamEvent>, i: nat, cancelAt: Option<nat>)
    requires i < |es|
  {
    cancelAt == Some(i) || (es[i].StreamError? && (es[i].text != "" || IsPromptTooLong(es[i].text)))
  }

  /** Nothing stops the reading before position `d`, and at `d` it stops, unless that is the end. */
  ghost predicate FirstStop(es: seq<StreamEvent>, i: nat, d: nat, cancelAt: Option<nat>) {
    && i <= d <= |es|
    && (forall j :: i <= j < d ==> !StopsAt(es, j, cancelAt))
    && (d < |es| ==> StopsAt(es, d, cancelAt))
  }

  /** What has been read up to its end or first stop, and how it ended. */
  predicate ReadsTo(parse: JsonParser, st: State, es: seq<StreamEvent>, i: nat, d: nat, cancelAt: Option<nat>, now: int,
                    r: ReadOutcome)
    requires i <= d <= |es|
  {
    var st' := Steps(parse, st, es[i..d], now);
    if d == |es| then r == ReadDone(st')
    else if cancelAt == Some(d) then r == ReadCancelled(st')
    else if IsPromptTooLong(TextAt(es, d)) then r == ReadDone(Step(parse, st', es[d], now))
    else r == ReadAborted(st', TextAt(es, d))
  }

  function TextAt(es: seq<StreamEvent>, d: nat): string
    requires d < |es|
  {
    if es[d].StreamError? then es[d].text else ""
  }

  lemma OneFirst(parse: JsonParser, st: State, es: seq<StreamEvent>, i: nat, d: nat, now: int)
    requires i < d <= |es|
    ensures Steps(parse, st, es[i..d], now) == Steps(parse, Step(parse, st, es[i], now), es[i + 1..d], now)
  {
    hide Step;
    assert es[i..d] == [es[i]] + es[i + 1..d];
    StepsConcat(parse, st, [es[i]], es[i + 1..d], now);
    assert Init([es[i]]) == [];
  }

  lemma {:induction false} ReadStops(parse: JsonParser, st: State, es: seq<StreamEvent>, i: nat, cancelAt: Option<nat>,
                                     now: int) returns (d: nat)
    requires i <= |es|
    ensures FirstStop(es, i, d, cancelAt)
    ensures ReadsTo(parse, st, es, i, d, cancelAt, now, Read(parse, st, es, i, cancelAt, now))
    decreases |es| - i
  {
    hide IsPromptTooLong, Advance, PromptTooLongMessage;
    if i == |es| || StopsAt(es, i, cancelAt) {
      d := i;
      assert es[i..i] == [];
      ErrorLeaves(parse, st, es, i, now);
    } else {
      d := ReadStops(parse, Step(parse, st, es[i], now), es, i + 1, cancelAt, now);
      OneFirst(parse, st, es, i, d, now);
    }
  }

  /** An error that is not a refusal changes nothing. */
  lemma ErrorLeaves(parse: JsonParser, st: State, es: seq<StreamEvent>, i: nat, now: int)
    ensures i < |es| && es[i].StreamError? && !IsPromptTooLong(es[i].text) ==> Step(parse, st, es[i], now) == st
  {
    hide IsPromptTooLong;
  }

  /** How the reading of the deciding stream comes out, by its first stop. */
  predicate StreamTells(parse: JsonParser, s: Loop, a: Attempt, d: nat, now: int, r: StreamOutcome)
    requires a.reply.Streamed? && d <= |a.reply.events|
  {
    var es := a.reply.events;
    var read := Steps(parse, Initial(s.out), es[..d], now);
    if d == |es| then
      && r.Received? && r.msg == ParserProofs.Received(parse, s.out, es, now)
      && r.s.out == Flush(parse, read).sent
      && r.hasToolUse == Flush(parse, read).hasToolUse && r.stopReason == read.stopReason
    else if a.cancelAt == Some(d) then
      r.GaveUp? && r.s.out == read.sent + [ErrorEvent("query aborted")] && r.s.status == Ended(Cancelled)
    else if IsPromptTooLong(TextAt(es, d)) then r.TooLong? && r.s.out == read.sent && r.error == ""
    else r.GaveUp? && r.s.out == read.sent + [ErrorEvent(TextAt(es, d))] && r.s.status == Ended(StreamFailed)
  }

  predicate ReplyTells(parse: JsonParser, s: Loop, a: Attempt, d: nat, now: int, r: StreamOutcome) {
    match a.reply
    case Streamed(es) => d <= |es| && StreamTells(parse, s, a, d, now, r)
    case Refused(error, _) =>
      if IsPromptTooLong(error) then r.TooLong? && r.s.out == s.out && r.error == PTL_TEXT
      else r.GaveUp? && r.s.out == s.out + [ErrorEvent(error)] && r.s.status == Ended(ClientError)
  }

  lemma DigestTells(parse: JsonParser, s: Loop, s1: Loop, a: Attempt, now: int) returns (d: nat)
    requires a.reply.Streamed? && s1 == s.(requests := s1.requests)
    ensures d <= |a.reply.events| && FirstStop(a.reply.events, 0, d, a.cancelAt)
    ensures StreamTells(parse, s, a, d, now,
                        Digest(parse, s1, Read(parse, Initial(s1.out), a.reply.events, 0, a.cancelAt, now), now))
  {
    hide Read, Step, Flush, Finalize, IsPromptTooLong, FirstStop;
    var es := a.reply.events;
    d := ReadStops(parse, Initial(s.out), es, 0, a.cancelAt, now);
    assert FirstStop(es, 0, d, a.cancelAt) && d <= |es| by { StopInRange(es, d, a.cancelAt); }
    assert es[0..d] == es[..d];
    var read := Steps(parse, Initial(s.out), es[..d], now);
    NoRefusal(parse, s.out, es, d, a.cancelAt, now, d);
    if d == |es| {
      assert es[..d] == es;
      ParserUsage.FlushKeepsReports(parse, read);
    } else if a.cancelAt != Some(d) && IsPromptTooLong(TextAt(es, d)) {
      RefusalSends(parse, read, es, d, a.cancelAt, now);
    }
  }

  lemma StopInRange(es: seq<StreamEvent>, d: nat, cancelAt: Option<nat>)
    requires FirstStop(es, 0, d, cancelAt)
    ensures d <= |es|
  {
  }

  lemma RefusalSends(parse: JsonParser, read: State, es: seq<StreamEvent>, d: nat, cancelAt: Option<nat>, now: int)
    requires d < |es| && FirstStop(es, 0, d, cancelAt) && cancelAt != Some(d) && IsPromptTooLong(TextAt(es, d))
    ensures Step(parse, read, es[d], now).isPTL && Step(parse, read, es[d], now).sent == read.sent
  {
    hide IsPromptTooLong;
  }

  lemma {:induction false} NoRefusal(parse: JsonParser, base: seq<Event>, es: seq<StreamEvent>, d: nat,
                                     cancelAt: Option<nat>, now: int, n: nat)
    requires FirstStop(es, 0, d, cancelAt) && n <= d
    ensures !Steps(parse, Initial(base), es[..n], now).isPTL
  {
    hide IsPromptTooLong, Advance;
    if n > 0 {
      NoRefusal(parse, base, es, d, cancelAt, now, n - 1);
      assert Init(es[..n]) == es[..n - 1] && !StopsAt(es, n - 1, cancelAt);
      if !es[n - 1].StreamError? {
        AdvanceKeepsPTL(parse, Steps(parse, Initial(base), es[..n - 1], now), es[n - 1]);
      }
    }
  }

  /**
   What a turn's attempts come to: the first that is not retried decides. Read to its end, its stream is the
   message received, with everything it emits; otherwise the first stop or the refusal says why. Every attempt
   up to it, and no other, has been one request.
   */
  lemma {:induction false} AttemptsTell(parse: JsonParser, p: Params, s: Loop, attempts: seq<Attempt>, now: int)
    returns (d: nat)
    ensures var r, k := Attempts(parse, p, s, attempts, now), Answering(p, attempts);
      if k == |attempts| then r == Unanswered(r.s) && |r.s.requests| == |s.requests| + k
      else
        && |r.s.requests| == |s.requests| + k + 1
        && ReplyTells(parse, s, attempts[k], d, now, r)
        && (attempts[k].reply.Streamed? ==> FirstStop(attempts[k].reply.events, 0, d, attempts[k].cancelAt))
    decreases |attempts|
  {
    hide Digest, Read, IsPromptTooLong, PromptTooLongMessage, StreamTells, FirstStop;
    d := 0;
    if attempts != [] {
      var s1 := s.(requests := s.requests + [s.msgs]);
      if Retried(p, attempts[0]) {
        d := AttemptsTell(parse, p, s1, attempts[1..], now);
        SameReply(parse, p, s, s1, attempts, d, now);
      } else if attempts[0].reply.Streamed? {
        d := DigestTells(parse, s, s1, attempts[0], now);
        DigestKeepsRequests(parse, s1, Read(parse, Initial(s1.out), attempts[0].reply.events, 0,
                                            attempts[0].cancelAt, now), now);
      } else {
        PTLMessageText(attempts[0].reply.error, now);
      }
    }
  }

  lemma DigestKeepsRequests(parse: JsonParser, s: Loop, r: ReadOutcome, now: int)
    ensures Digest(parse, s, r, now).s.requests == s.requests
  {
  }

  /** Only the events sent so far matter to what a reply tells. */
  lemma SameReply(parse: JsonParser, p: Params, s: Loop, s1: Loop, attempts: seq<Attempt>, d: nat, now: int)
    requires attempts != [] && Retried(p, attempts[0]) && s1.out == s.out
    ensures Answering(p, attempts) == 1 + Answering(p, attempts[1..])
    ensures forall k: nat, r :: k < |attempts| && ReplyTells(parse, s1, attempts[k], d, now, r) ==>
      ReplyTells(parse, s, attempts[k], d, now, r)
  {
    hide Steps, Flush, IsPromptTooLong;
  }
}
