/** What a session sends to the query when a turn begins, and what it tells its caller. */
module SessionMeaning {
  import opened Messages
  import opened QueryEvents
  import opened Engine
  import opened EngineProofs
  import opened SessionSafety
  import QueryLoop

  // ---- The start of a turn ----

  /** The placeholder for uses that nobody answered: one error result per use, in order. */
  predicate IsPlaceholder(m: Message, uses: seq<Block>) {
    && m.role.User? && |m.content| == |uses|
    && forall i :: 0 <= i < |uses| && uses[i].ToolUse? ==>
         m.content[i] == ToolResult(uses[i].id, "[Tool execution interrupted]", true)
  }

  /** The message before the last one is the user's, with as many results as the last has uses, and one for each. */
  predicate SeemsAnswered(ms: seq<Message>)
    requires ms != []
  {
    && |ms| >= 2 && ms[|ms| - 2].role.User?
    && |ResultIds(ms[|ms| - 2].content)| == |UseIds(Last(ms).content)|
    && forall id :: id in UseIds(Last(ms).content) ==> id in ResultIds(ms[|ms| - 2].content)
  }

  lemma HasResultMeaning(bs: seq<Block>, id: string)
    ensures HasResultFor(ToolResultsOf(bs), id) <==> id in ResultIds(bs)
  {
    hide ToolResultsOf, ResultIds;
    ResultBlockIds(bs);
    if id in ResultIds(bs) {
      var k :| 0 <= k < |ResultIds(bs)| && ResultIds(bs)[k] == id;
      assert ToolResultsOf(bs)[k].toolUseId == id;
    }
  }

  lemma {:induction false} MatchedAll(uses: seq<Block>, results: seq<Block>)
    ensures Matched(uses, results) <= |uses|
    ensures Matched(uses, results) == |uses| <==>
      forall i :: 0 <= i < |uses| ==> uses[i].ToolUse? && HasResultFor(results, uses[i].id)
  {
    if uses != [] {
      hide HasResultFor;
      MatchedAll(Init(uses), results);
      assert forall i :: 0 <= i < |uses| - 1 ==> uses[i] == Init(uses)[i];
    }
  }

  lemma LooksRepairedMeaning(ms: seq<Message>)
    requires ms != []
    ensures LooksRepaired(ms) <==> SeemsAnswered(ms)
  {
    hide ToolUsesOf, ToolResultsOf, UseIds, ResultIds, HasResultFor, Matched;
    if |ms| >= 2 {
      var uses, before := ToolUsesOf(Last(ms).content), ms[|ms| - 2].content;
      UseIdsMatch(Last(ms).content);
      ResultBlockIds(before);
      MatchedAll(uses, ToolResultsOf(before));
      forall id ensures HasResultFor(ToolResultsOf(before), id) <==> id in ResultIds(before) {
        HasResultMeaning(before, id);
      }
      forall i | 0 <= i < |uses| ensures uses[i].ToolUse? && uses[i].id == UseIds(Last(ms).content)[i] {
      }
      if LooksRepaired(ms) {
        forall id | id in UseIds(Last(ms).content) ensures id in ResultIds(before) {
          var i :| 0 <= i < |uses| && UseIds(Last(ms).content)[i] == id;
          assert HasResultFor(ToolResultsOf(before), uses[i].id);
        }
      }
      if SeemsAnswered(ms) {
        forall i | 0 <= i < |uses| ensures HasResultFor(ToolResultsOf(before), uses[i].id) {
          assert UseIds(Last(ms).content)[i] in UseIds(Last(ms).content);
        }
      }
    }
  }

  /**
   The repair adds one placeholder, behind everything else, exactly if the last message is the assistant's, uses
   tools and does not seem answered by the message before it; otherwise it changes nothing.
   */
  lemma RepairMeaning(ms: seq<Message>, now: int)
    ensures var orphaned := ms != [] && Last(ms).role.Assistant? && UseIds(Last(ms).content) != []
                            && !SeemsAnswered(ms);
      var r := Repair(ms, now);
      if orphaned then |r| == |ms| + 1 && r[..|ms|] == ms && IsPlaceholder(Last(r), ToolUsesOf(Last(ms).content))
      else r == ms
  {
    hide LooksRepaired, SeemsAnswered, ToolUsesOf, UseIds;
    if ms != [] {
      LooksRepairedMeaning(ms);
      UseIdsMatch(Last(ms).content);
    }
  }

  /** The prompt is the last block of a last user message: a new one, or the one that was last already. */
  ghost predicate EndsWithPrompt(before: seq<Message>, after: seq<Message>, prompt: string) {
    && after != [] && Last(after).role.User?
    && if before != [] && Last(before).role.User? then
         && |after| == |before| && Init(after) == Init(before)
         && Last(after) == Last(before).(content := Last(before).content + [Block.Text(prompt)])
       else
         && |after| == |before| + 1 && Init(after) == before
         && Last(after).content == [Block.Text(prompt)] && Last(after).usage.None?
         && Last(after).responseId == "" && Last(after).apiError == "" && Last(after).errorDetails == ""
  }

  /**
   A turn begins with the repaired transcript and the prompt behind it; those are the messages the query gets.
   The outcome of the turn before is forgotten, and nothing else of the session changes.
   */
  lemma TurnBeginsWithPrompt(p: QueryLoop.Params, s: State, t: Turn)
    ensures var begun := BeginTurn(s, t.prompt, t.now);
      && EndsWithPrompt(Repair(s.messages, t.now), begun.messages, t.prompt)
      && ParamsFor(p, s, t).messages == begun.messages
      && QueryLoop.Start(ParamsFor(p, s, t)).msgs == begun.messages
      && ParamsFor(p, s, t) == p.(messages := begun.messages)
      && !begun.hasResult && !begun.workflowCompleted && begun.lastResult == Result(false, "", "", 0, "")
      && begun.totalUsage == s.totalUsage && begun.recentTools == s.recentTools
      && begun.textBuffer == s.textBuffer && begun.out == s.out
  {
    hide Repair;
  }

  // ---- What the caller is told ----

  /** What one input is told to the caller as, text aside. */
  function ToldAs(i: Input): seq<EngineEvent> {
    match i
    case Notify(text, _) => [Notification(text)]
    case AddUsage(_) => []
    case FromQuery(e) =>
      match e
      case UsageEvent(m) => if m.usage.Some? then [UsageOut(m.usage.value)] else []
      case UserMessageEvent(m) => [UserMessageOut(m)]
      case AssistantTextEvent(_) => []
      case AssistantToolUseEvent(id, name, input) => [ToolUseOut(id, name, input)]
      case CompactionResultEvent(ms) => [CompactedOut(|ms|)]
      case ErrorEvent(error) => [TurnError(error)]
      case ResultEvent(r) =>
        if r.success then [TurnResult(r.text, r.stopReason, r.numTurns)] else [TurnError(r.error)]
  }

  function AllTold(inputs: seq<Input>): seq<EngineEvent> {
    if inputs == [] then [] else AllTold(Init(inputs)) + ToldAs(Last(inputs))
  }

  function WithoutText(out: seq<EngineEvent>): seq<EngineEvent> {
    if out == [] then [] else WithoutText(Init(out)) + (if Last(out).TextDelta? then [] else [Last(out)])
  }

  /** Text waits until something else of the query's, a user message aside, is told; then it is told first. */
  predicate FlushesFirst(i: Input) {
    i.FromQuery? && !i.event.AssistantTextEvent? && !i.event.UserMessageEvent?
  }

  function Pending(s: State): seq<EngineEvent> {
    if s.textBuffer == "" then [] else [TextDelta(s.textBuffer)]
  }

  lemma ServeTells(s: State, i: Input)
    ensures var t := Serve(s, i);
      && t.out == s.out + (if FlushesFirst(i) then Pending(s) else []) + ToldAs(i)
      && (FlushesFirst(i) ==> t.textBuffer == "")
      && (!FlushesFirst(i) && !(i.FromQuery? && i.event.AssistantTextEvent?) ==> t.textBuffer == s.textBuffer)
  {
    hide Record, Accumulate, Handle, ToldAs;
    match i
    case FromQuery(e) => HandleTells(s, e);
    case Notify(_, _) => assert s.out + [] == s.out && ToldAs(i) == [Notification(i.text)] by { NoticeIsTold(i); }
    case AddUsage(_) => assert s.out + [] + [] == s.out && ToldAs(i) == [] by { NoticeIsTold(i); }
  }

  lemma NoticeIsTold(i: Input)
    requires !i.FromQuery?
    ensures ToldAs(i) == if i.Notify? then [Notification(i.text)] else []
  {
  }

  lemma HandleTells(s: State, e: Event)
    ensures var t, i := Handle(s, e), FromQuery(e);
      && t.out == s.out + (if FlushesFirst(i) then Pending(s) else []) + ToldAs(i)
      && (FlushesFirst(i) ==> t.textBuffer == "")
      && (!FlushesFirst(i) && !e.AssistantTextEvent? ==> t.textBuffer == s.textBuffer)
  {
    hide Record, Accumulate;
  }

  lemma WithoutTextAppend(out: seq<EngineEvent>, e: EngineEvent)
    ensures WithoutText(out + [e]) == WithoutText(out) + (if e.TextDelta? then [] else [e])
  {
    assert Init(out + [e]) == out;
  }

  lemma ToldIsNoText(i: Input)
    ensures |ToldAs(i)| <= 1 && (ToldAs(i) != [] ==> !ToldAs(i)[0].TextDelta?)
  {
  }

  /**
   In any interleaving the caller is told, text aside, exactly one thing per input that has something to tell,
   in order: a failed result as an error, a successful one with its text, reason and turns.
   */
  lemma {:induction false} EverythingIsTold(s: State, inputs: seq<Input>)
    ensures WithoutText(ServeAll(s, inputs).out) == WithoutText(s.out) + AllTold(inputs)
  {
    hide Serve, ToldAs, WithoutText, FlushesFirst;
    if inputs == [] {
      assert WithoutText(s.out) + [] == WithoutText(s.out);
    } else {
      var before, i := ServeAll(s, Init(inputs)), Last(inputs);
      EverythingIsTold(s, Init(inputs));
      ServeTells(before, i);
      ToldIsNoText(i);
      var flushed := before.out + (if FlushesFirst(i) then Pending(before) else []);
      WithoutTextAppend(before.out, TextDelta(before.textBuffer));
      assert before.out + [] == before.out && WithoutText(before.out) + [] == WithoutText(before.out);
      assert WithoutText(flushed) == WithoutText(before.out);
      if ToldAs(i) != [] {
        WithoutTextAppend(flushed, ToldAs(i)[0]);
        assert ToldAs(i) == [ToldAs(i)[0]];
      } else {
        assert flushed + [] == flushed;
      }
    }
  }

  /** The transcript with its notices: query messages as they come, notices as system messages, nothing for usage. */
  ghost predicate AppendsOrReplaces(before: seq<Message>, after: seq<Message>, i: Input) {
    match i
    case AddUsage(_) => after == before
    case Notify(text, at) =>
      && |after| == |before| + 1 && Init(after) == before
      && Last(after).role.System? && Last(after).content == [Block.Text(text)] && Last(after).timestamp == at
    case FromQuery(e) =>
      if e.UsageEvent? then after == before + [e.message]
      else if e.UserMessageEvent? then after == before + [e.message]
      else if e.CompactionResultEvent? then after == e.messages
      else after == before
  }

  /** Every input, in any interleaving, does to the transcript just what it says. */
  lemma ServeKeepsTranscript(s: State, inputs: seq<Input>, n: nat)
    requires n < |inputs|
    ensures AppendsOrReplaces(ServeAll(s, inputs[..n]).messages, ServeAll(s, inputs[..n + 1]).messages, inputs[n])
  {
    hide Handle;
    assert Init(inputs[..n + 1]) == inputs[..n] && Last(inputs[..n + 1]) == inputs[n];
    if inputs[n].FromQuery? {
      HandleApplies(ServeAll(s, inputs[..n]), inputs[n].event);
    }
  }

  // ---- The outcome of a turn ----

  /** The outcome an event gives the turn, if it is a result or an error. */
  function OutcomeIn(e: Event): Option<Result> {
    match e
    case ResultEvent(r) => Some(r)
    case ErrorEvent(error) => Some(Result(false, "", "", 0, error))
    case _ => None
  }

  function LastOutcome(es: seq<Event>): Option<Result> {
    if es == [] then None
    else if OutcomeIn(Last(es)).Some? then OutcomeIn(Last(es)) else LastOutcome(Init(es))
  }

  predicate UsesTool(es: seq<Event>, name: string) {
    exists k :: 0 <= k < |es| && es[k].AssistantToolUseEvent? && es[k].name == name
  }

  lemma ServeOutcome(s: State, i: Input)
    ensures var t := Serve(s, i);
      && t.lastResult == (if i.FromQuery? && OutcomeIn(i.event).Some? then OutcomeIn(i.event).value else s.lastResult)
      && (t.hasResult <==> s.hasResult || (i.FromQuery? && OutcomeIn(i.event).Some?))
      && (t.workflowCompleted <==>
            || s.workflowCompleted
            || (i.FromQuery? && i.event.AssistantToolUseEvent? && i.event.name == "workflow_complete"))
  {
    hide Record, Accumulate, OutcomeOf;
  }

  /**
   After a turn the session has a result exactly if the query sent a result or an error, and it is the last one
   sent; the workflow counts as completed exactly if the tool that completes it was used in the turn.
   */
  lemma {:induction false} OutcomeIsLast(s: State, inputs: seq<Input>)
    requires !s.hasResult && !s.workflowCompleted
    ensures var t, es := ServeAll(s, inputs), QueryEventsOf(inputs);
      && (t.hasResult <==> LastOutcome(es).Some?)
      && t.lastResult == (if LastOutcome(es).Some? then LastOutcome(es).value else s.lastResult)
      && (t.workflowCompleted <==> UsesTool(es, "workflow_complete"))
  {
    hide Serve, OutcomeIn;
    if inputs != [] {
      OutcomeIsLast(s, Init(inputs));
      var i, es := Last(inputs), QueryEventsOf(Init(inputs));
      ServeOutcome(ServeAll(s, Init(inputs)), i);
      if i.FromQuery? {
        assert QueryEventsOf(inputs) == es + [i.event] && Init(es + [i.event]) == es;
        UsesAppend(es, i.event, "workflow_complete");
      } else {
        assert QueryEventsOf(inputs) == es;
      }
    }
  }

  lemma UsesAppend(es: seq<Event>, e: Event, name: string)
    ensures UsesTool(es + [e], name) <==> UsesTool(es, name) || (e.AssistantToolUseEvent? && e.name == name)
  {
    if UsesTool(es, name) {
      var k :| 0 <= k < |es| && es[k].AssistantToolUseEvent? && es[k].name == name;
      assert (es + [e])[k] == es[k];
    }
    if e.AssistantToolUseEvent? && e.name == name {
      assert (es + [e])[|es|] == e;
    }
  }
}
