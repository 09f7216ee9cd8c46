/** The conversation session: it feeds the query loop and replays the loop's events. */
module Engine {
  import opened Messages
  import opened QueryEvents

  // ---- Events for the caller and state ----

  datatype EngineEvent =
    | TextDelta(text: string)
    | UsageOut(usage: Usage)
    | UserMessageOut(message: Message)
    | ToolUseOut(id: string, name: string, input: ToolInput)
    | CompactedOut(count: nat)
    | TurnError(error: string)
    | TurnResult(text: string, stopReason: string, numTurns: int)
    | Notification(text: string)

  const NO_RESULT := Result(false, "", "", 0, "")
  const RECENT_LIMIT := 5
  const WORKFLOW_TOOL := "workflow_complete"

  datatype State = State(
    messages: seq<Message>,
    totalUsage: Option<Usage>,
    recentTools: seq<string>,
    textBuffer: string,
    lastResult: Result,
    hasResult: bool,
    workflowCompleted: bool,
    out: seq<EngineEvent>)

  // ---- Handling one query event ----

  function LastFew(names: seq<string>): seq<string> {
    if |names| > RECENT_LIMIT then names[|names| - RECENT_LIMIT..] else names
  }

  function Record(names: seq<string>, name: string): seq<string> {
    if name == "" then names else LastFew(RemoveFirst(names, name) + [name])
  }

  function Send(s: State, e: EngineEvent): State {
    s.(out := s.out + [e])
  }

  function FlushText(s: State): State {
    if s.textBuffer == "" then s else Send(s, TextDelta(s.textBuffer)).(textBuffer := "")
  }

  function OutcomeOf(r: Result): EngineEvent {
    if r.success then TurnResult(r.text, r.stopReason, r.numTurns) else TurnError(r.error)
  }

  function Handle(s: State, e: Event): State {
    match e
    case UsageEvent(m) =>
      var s1 := FlushText(s.(messages := s.messages + [m], totalUsage := Accumulate(s.totalUsage, m.usage)));
      if m.usage.Some? then Send(s1, UsageOut(m.usage.value)) else s1
    case UserMessageEvent(m) => Send(s.(messages := s.messages + [m]), UserMessageOut(m))
    case AssistantTextEvent(text) => s.(textBuffer := s.textBuffer + text)
    case AssistantToolUseEvent(id, name, input) =>
      var s1 := s.(recentTools := Record(s.recentTools, name),
                   workflowCompleted := s.workflowCompleted || name == WORKFLOW_TOOL);
      Send(FlushText(s1), ToolUseOut(id, name, input))
    case CompactionResultEvent(messages) =>
      Send(FlushText(s.(messages := messages)), CompactedOut(|messages|))
    case ResultEvent(result) => Send(FlushText(s.(lastResult := result, hasResult := true)), OutcomeOf(result))
    case ErrorEvent(error) =>
      Send(FlushText(s.(lastResult := NO_RESULT.(error := error), hasResult := true)), TurnError(error))
  }

  // ---- Starting a turn ----

  predicate HasResultFor(results: seq<Block>, id: string) {
    exists k :: 0 <= k < |results| && results[k].ToolResult? && results[k].toolUseId == id
  }

  /** Tool uses that some result in `results` answers. */
  function Matched(uses: seq<Block>, results: seq<Block>): nat {
    if uses == [] then 0
    else Matched(Init(uses), results) + (if Last(uses).ToolUse? && HasResultFor(results, Last(uses).id) then 1 else 0)
  }

  /** The message before the last one looks like a repair of the last one's uses. */
  predicate LooksRepaired(ms: seq<Message>)
    requires ms != []
  {
    && |ms| >= 2
    && ms[|ms| - 2].role.User?
    && |ToolResultsOf(ms[|ms| - 2].content)| == |ToolUsesOf(Last(ms).content)|
    && Matched(ToolUsesOf(Last(ms).content), ToolResultsOf(ms[|ms| - 2].content)) == |ToolUsesOf(Last(ms).content)|
  }

  function RepairMessage(uses: seq<Block>, now: int): Message {
    NewMessage(User, now).(content := seq(|uses|, i requires 0 <= i < |uses| =>
      if uses[i].ToolUse? then ToolResult(uses[i].id, INTERRUPTED, true) else uses[i]))
  }

  function Repair(ms: seq<Message>, now: int): seq<Message> {
    if ms == [] || !Last(ms).role.Assistant? || ToolUsesOf(Last(ms).content) == [] || LooksRepaired(ms) then ms
    else ms + [RepairMessage(ToolUsesOf(Last(ms).content), now)]
  }

  /** The prompt joins a trailing user message, or becomes one. */
  function AddPrompt(ms: seq<Message>, prompt: string, now: int): seq<Message> {
    if ms != [] && Last(ms).role.User? then Init(ms) + [Last(ms).Add(Block.Text(prompt))]
    else ms + [NewMessage(User, now).Add(Block.Text(prompt))]
  }

  function BeginTurn(s: State, prompt: string, now: int): State {
    s.(hasResult := false, lastResult := NO_RESULT, workflowCompleted := false,
       messages := AddPrompt(Repair(s.messages, now), prompt, now))
  }

  // ---- What arrives during a turn ----

  /** A query event, or a command served while the query runs. */
  datatype Input = FromQuery(event: Event) | Notify(text: string, now: int) | AddUsage(usage: Usage)

  function NoticeMessage(text: string, now: int): Message {
    NewMessage(System, now).Add(Block.Text(text))
  }

  function Serve(s: State, i: Input): State {
    match i
    case FromQuery(e) => Handle(s, e)
    case Notify(text, now) => Send(s.(messages := s.messages + [NoticeMessage(text, now)]), Notification(text))
    case AddUsage(u) => s.(totalUsage := Accumulate(s.totalUsage, Some(u)))
  }

  function ServeAll(s: State, inputs: seq<Input>): State {
    if inputs == [] then s else Serve(ServeAll(s, Init(inputs)), Last(inputs))
  }

  /** A whole turn: repair, prompt, events until the channel closes, final flush. */
  function TakeTurn(s: State, prompt: string, now: int, inputs: seq<Input>): State {
    FlushText(ServeAll(BeginTurn(s, prompt, now), inputs))
  }

  // ---- The session object ----

  class Session {
    var messages: seq<Message>
    var totalUsage: Option<Usage>
    var recentTools: seq<string>
    var textBuffer: string
    var lastResult: Result
    var hasResult: bool
    var workflowCompleted: bool
    var out: seq<EngineEvent>

    ghost function View(): State
      reads this
    {
      State(messages, totalUsage, recentTools, textBuffer, lastResult, hasResult, workflowCompleted, out)
    }

    constructor ()
      ensures View() == State([], None, [], "", NO_RESULT, false, false, [])
    {
      messages, totalUsage, recentTools, textBuffer := [], None, [], "";
      lastResult, hasResult, workflowCompleted, out := NO_RESULT, false, false, [];
    }

    method Emit(e: EngineEvent)
      modifies this`out
      ensures View() == Send(old(View()), e)
    {
      out := out + [e];
    }

    method Flush()
      modifies this`textBuffer, this`out
      ensures View() == FlushText(old(View()))
    {
      if textBuffer != "" {
        Emit(TextDelta(textBuffer));
        textBuffer := "";
      }
    }

    method AccumulateUsage(u: Option<Usage>)
      modifies this`totalUsage
      ensures totalUsage == Accumulate(old(totalUsage), u)
    {
      if u.None? {
        return;
      }
      if totalUsage.None? {
        totalUsage := Some(ZERO_USAGE);
      }
      totalUsage := Some(totalUsage.value.Plus(u.value));
    }

    method RecordRecentTool(name: string)
      modifies this`recentTools
      ensures recentTools == Record(old(recentTools), name)
    {
      if name == "" {
        return;
      }
      recentTools := DeleteFirst(recentTools, name);
      recentTools := recentTools + [name];
      if |recentTools| > RECENT_LIMIT {
        recentTools := recentTools[|recentTools| - RECENT_LIMIT..];
      }
    }

    method HandleQueryEvent(evt: Event)
      modifies this
      ensures View() == Handle(old(View()), evt)
    {
      hide Record, FlushText, Accumulate, OutcomeOf;
      match evt
      case UsageEvent(m) =>
        messages := messages + [m];
        AccumulateUsage(m.usage);
        Flush();
        if m.usage.Some? {
          Emit(UsageOut(m.usage.value));
        }
      case UserMessageEvent(m) =>
        messages := messages + [m];
        Emit(UserMessageOut(m));
      case AssistantTextEvent(text) =>
        textBuffer := textBuffer + text;
      case AssistantToolUseEvent(id, name, input) =>
        RecordRecentTool(name);
        if name == WORKFLOW_TOOL {
          workflowCompleted := true;
        }
        Flush();
        Emit(ToolUseOut(id, name, input));
      case CompactionResultEvent(compacted) =>
        messages := compacted;
        Flush();
        Emit(CompactedOut(|messages|));
      case ResultEvent(result) =>
        lastResult := result;
        hasResult := true;
        Flush();
        Emit(OutcomeOf(result));
      case ErrorEvent(error) =>
        lastResult := NO_RESULT.(error := error);
        hasResult := true;
        Flush();
        Emit(TurnError(error));
    }

    method CountMatched(uses: seq<Block>, results: seq<Block>) returns (matched: nat)
      ensures matched == Matched(uses, results)
    {
      matched := 0;
      for i := 0 to |uses|
        invariant matched == Matched(uses[..i], results)
      {
        assert Init(uses[..i + 1]) == uses[..i];
        if uses[i].ToolUse? {
          for k := 0 to |results|
            invariant matched == Matched(uses[..i], results)
            invariant forall j :: 0 <= j < k ==> !(results[j].ToolResult? && results[j].toolUseId == uses[i].id)
          {
            if results[k].ToolResult? && results[k].toolUseId == uses[i].id {
              matched := matched + 1;
              break;
            }
          }
        }
      }
      assert uses[..|uses|] == uses;
    }

    method RepairOrphanToolUses(now: int)
      modifies this`messages
      ensures messages == Repair(old(messages), now)
    {
      hide Matched;
      if |messages| == 0 {
        return;
      }
      var last := messages[|messages| - 1];
      if !last.role.Assistant? {
        return;
      }
      var toolUses := ToolUses(last);
      if |toolUses| == 0 {
        return;
      }
      if |messages| >= 2 {
        var previous := messages[|messages| - 2];
        if previous.role.User? {
          var results := ToolResults(previous);
          if |results| == |toolUses| {
            var matched := CountMatched(toolUses, results);
            if matched == |toolUses| {
              return;
            }
          }
        }
      }
      var repair := NewMessage(User, now);
      for i := 0 to |toolUses|
        invariant repair == NewMessage(User, now).(content := RepairMessage(toolUses, now).content[..i])
      {
        repair := repair.Add(ToolResult(toolUses[i].id, INTERRUPTED, true));
      }
      assert repair == RepairMessage(toolUses, now);
      messages := messages + [repair];
    }

    method RunTurn(prompt: string, now: int, inputs: seq<Input>)
      modifies this
      ensures View() == TakeTurn(old(View()), prompt, now, inputs)
    {
      hide Repair, FlushText, Serve;
      hasResult := false;
      lastResult := NO_RESULT;
      workflowCompleted := false;
      RepairOrphanToolUses(now);
      if |messages| > 0 && messages[|messages| - 1].role.User? {
        messages := messages[..|messages| - 1] + [messages[|messages| - 1].Add(Block.Text(prompt))];
      } else {
        messages := messages + [NewMessage(User, now).Add(Block.Text(prompt))];
      }
      ghost var begun := View();
      assert begun == BeginTurn(old(View()), prompt, now);
      for k := 0 to |inputs|
        invariant View() == ServeAll(begun, inputs[..k])
      {
        assert Init(inputs[..k + 1]) == inputs[..k];
        ServeInput(inputs[k]);
      }
      assert inputs[..|inputs|] == inputs;
      Flush();
    }

    method ServeInput(i: Input)
      modifies this
      ensures View() == Serve(old(View()), i)
    {
      hide Handle, Accumulate;
      match i
      case FromQuery(e) => HandleQueryEvent(e);
      case Notify(text, now) =>
        messages := messages + [NoticeMessage(text, now)];
        Emit(Notification(text));
      case AddUsage(u) => AccumulateUsage(Some(u));
    }
  }
}
