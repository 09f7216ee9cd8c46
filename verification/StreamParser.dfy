/** The automaton that turns one streamed reply, in either dialect, into an assistant message. */
module StreamParser {
  import opened Messages
  import opened QueryEvents
  import Text

  // ---- Input ----

  datatype BlockType = NoType | TextType | ToolUseType | ThinkingType | RedactedType | OtherType

  /** Usage as a provider reports it: the unified record, or only the legacy counters. */
  datatype WireUsage = WireUsage(usage: Option<Usage>, prompt: int, completion: int, total: int)

  datatype StreamEvent =
    | MessageStart(responseId: string, wire: WireUsage)
    | UsageReport(wire: WireUsage)
    | BlockStart(blockType: BlockType, id: string, name: string, input: ToolInput,
                 thinking: string, signature: string, redacted: string)
    | AssistantText(text: string)
    | AssistantToolUse(responseId: string, id: string, name: string, json: string)
    | BlockDelta(text: string, json: string, thinking: string, signature: string)
    | BlockStop
    | MessageDelta(stopReason: string, wire: WireUsage)
    | StreamError(text: string)
    | Ignored

  /** JSON decoding is outside the model: any partial function from text to an input. */
  type JsonParser = string -> Option<ToolInput>

  // ---- Usage ----

  function WireToUsage(w: WireUsage): Option<Usage> {
    if w.usage.Some? then w.usage
    else if w.prompt > 0 || w.completion > 0 || w.total > 0 then Some(Usage(w.prompt, w.completion, 0, 0))
    else None
  }

  function Overwrite(dst: int, src: int): int {
    if src != 0 then src else dst
  }

  function Merged(dst: Option<Usage>, src: Option<Usage>): Option<Usage> {
    if src.None? then dst
    else if dst.None? then src
    else Some(Usage(Overwrite(dst.value.inputTokens, src.value.inputTokens),
                    Overwrite(dst.value.outputTokens, src.value.outputTokens),
                    Overwrite(dst.value.cacheCreation, src.value.cacheCreation),
                    Overwrite(dst.value.cacheRead, src.value.cacheRead)))
  }

  method MergeUsage(dst: Option<Usage>, src: Option<Usage>) returns (r: Option<Usage>)
    ensures r == Merged(dst, src)
  {
    if src.None? {
      return dst;
    }
    if dst.None? {
      return src;
    }
    var u := dst.value;
    if src.value.inputTokens != 0 {
      u := u.(inputTokens := src.value.inputTokens);
    }
    if src.value.outputTokens != 0 {
      u := u.(outputTokens := src.value.outputTokens);
    }
    if src.value.cacheCreation != 0 {
      u := u.(cacheCreation := src.value.cacheCreation);
    }
    if src.value.cacheRead != 0 {
      u := u.(cacheRead := src.value.cacheRead);
    }
    r := Some(u);
  }

  /** Field by field, the last non-zero report wins, so merging is associative. */
  lemma MergeAssociative(a: Option<Usage>, b: Option<Usage>, c: Option<Usage>)
    ensures Merged(Merged(a, b), c) == Merged(a, Merged(b, c))
  {
  }

  // ---- State ----

  datatype PendingTool = PendingTool(id: string, name: string, input: ToolInput)

  datatype State = State(
    sent: seq<Event>,
    msg: Message,
    text: string,
    tool: Option<PendingTool>,
    json: string,
    thinking: string,
    signature: string,
    redacted: string,
    blockType: BlockType,
    usage: Option<Usage>,
    responseId: string,
    hasToolUse: bool,
    stopReason: string,
    isPTL: bool)

  function Initial(sent: seq<Event>): State {
    State(sent, NewMessage(Assistant, 0), "", None, "", "", "", "", NoType, None, "", false, "", false)
  }

  const PTL_TEXT := "Prompt is too long"

  predicate IsPromptTooLong(s: string) {
    Text.Contains(Text.ToLower(s), Text.ToLower(PTL_TEXT))
  }

  function PromptTooLongMessage(details: string, now: int): Message {
    NewMessage(Assistant, now).Add(Block.Text(PTL_TEXT)).(apiError := "invalid_request", errorDetails := details)
  }

  /** The input of a finished tool call: the decoded JSON, or what the call opened with. */
  function FinalInput(parse: JsonParser, initial: ToolInput, json: string): ToolInput {
    if json != "" && parse(json).Some? then parse(json).value else initial
  }

  /** Append a tool use to the message and emit it. */
  function AddToolUse(s: State, id: string, name: string, input: ToolInput): State {
    s.(tool := None,
       hasToolUse := true,
       msg := s.msg.Add(ToolUse(id, name, input)),
       sent := s.sent + [AssistantToolUseEvent(id, name, input)])
  }

  /** Close the pending tool call, if any. */
  function FinalizeTool(parse: JsonParser, s: State): State {
    if s.tool.None? then s
    else AddToolUse(s, s.tool.value.id, s.tool.value.name, FinalInput(parse, s.tool.value.input, s.json))
  }

  lemma FinalizeNothing(parse: JsonParser, s: State)
    requires s.tool.None?
    ensures FinalizeTool(parse, s) == s
  {
  }

  function OnBlockStart(s: State, e: StreamEvent): State
    requires e.BlockStart?
  {
    var s := s.(blockType := e.blockType);
    match e.blockType
    case TextType => s.(text := "")
    case ToolUseType => s.(tool := Some(PendingTool(e.id, e.name, e.input)), json := "")
    case ThinkingType => s.(thinking := e.thinking, signature := e.signature)
    case RedactedType => s.(redacted := e.redacted)
    case _ => s
  }

  function OnText(s: State, text: string): State {
    if text == "" then s else s.(text := s.text + text, sent := s.sent + [AssistantTextEvent(text)])
  }

  /** A tool-call chunk names the response only while it has no name yet. */
  function NameResponse(s: State, id: string): State {
    if id != "" && s.responseId == "" then s.(responseId := id) else s
  }

  /** Whether a chunk with this id continues the pending call. */
  predicate Continues(s: State, id: string) {
    s.tool.Some? && s.tool.value.id == id
  }

  function OpenCall(s: State, id: string, name: string, json: string): State {
    s.(tool := Some(PendingTool(id, name, NilInput)), json := json)
  }

  function OnToolUse(parse: JsonParser, s: State, e: StreamEvent): State
    requires e.AssistantToolUse?
  {
    var s1 := NameResponse(s, e.responseId);
    if Continues(s1, e.id) then s1.(json := s1.json + e.json)
    else OpenCall(FinalizeTool(parse, s1), e.id, e.name, e.json)
  }

  function OnBlockDelta(s: State, e: StreamEvent): State
    requires e.BlockDelta?
  {
    if e.text != "" then OnText(s, e.text)
    else if e.json != "" && s.tool.Some? then s.(json := s.json + e.json)
    else if e.thinking != "" then s.(thinking := s.thinking + e.thinking)
    else if e.signature != "" then s.(signature := s.signature + e.signature)
    else s
  }

  /** Append the block that has just ended; text, an unknown type and no type at all read as text. */
  function CloseBlock(parse: JsonParser, s: State): State {
    match s.blockType
    case ToolUseType => FinalizeTool(parse, s).(json := "")
    case ThinkingType => s.(msg := s.msg.Add(Thinking(s.thinking, s.signature)), thinking := "", signature := "")
    case RedactedType => s.(msg := s.msg.Add(RedactedThinking(s.redacted)), redacted := "")
    case _ => s.(msg := s.msg.Add(Block.Text(s.text)), text := "")
  }

  function OnBlockStop(parse: JsonParser, s: State): State {
    CloseBlock(parse, s).(blockType := NoType)
  }

  /** Every event but an error. */
  function Advance(parse: JsonParser, s: State, e: StreamEvent): State {
    match e
    case MessageStart(responseId, wire) =>
      s.(responseId := if responseId != "" then responseId else s.responseId,
         usage := Merged(s.usage, WireToUsage(wire)))
    case UsageReport(wire) => s.(usage := Merged(s.usage, WireToUsage(wire)))
    case BlockStart(_, _, _, _, _, _, _) => OnBlockStart(s, e)
    case AssistantText(text) => OnText(s, text)
    case AssistantToolUse(_, _, _, _) => OnToolUse(parse, s, e)
    case BlockDelta(_, _, _, _) => OnBlockDelta(s, e)
    case BlockStop => OnBlockStop(parse, s)
    case MessageDelta(stopReason, wire) =>
      s.(stopReason := if stopReason != "" then stopReason else s.stopReason,
         usage := Merged(s.usage, WireToUsage(wire)))
    case _ => s
  }

  function Step(parse: JsonParser, s: State, e: StreamEvent, now: int): State {
    if !e.StreamError? then Advance(parse, s, e)
    else if IsPromptTooLong(e.text) then s.(msg := PromptTooLongMessage(e.text, now), isPTL := true)
    else s
  }

  /** Whether the caller stops reading, and the error that aborts the whole query, if not empty. */
  function Verdict(e: StreamEvent): (bool, string) {
    if e.StreamError? then
      if IsPromptTooLong(e.text) then (true, "") else (false, e.text)
    else (false, "")
  }

  function Flush(parse: JsonParser, s: State): State {
    var s := if s.text != "" then s.(msg := s.msg.Add(Block.Text(s.text)), text := "") else s;
    if s.tool.Some? then FinalizeTool(parse, s).(json := "") else s
  }

  function Finalize(s: State, now: int): Message {
    s.msg.(usage := s.usage, responseId := s.responseId, timestamp := now)
  }

  function Steps(parse: JsonParser, s: State, es: seq<StreamEvent>, now: int): State {
    if es == [] then s else Step(parse, Steps(parse, s, Init(es), now), Last(es), now)
  }

  // ---- The parser object ----

  class Parser {
    const parse: JsonParser
    const out: EventChannel
    var assistantMsg: Message
    var currentText: string
    var currentToolUse: Option<PendingTool>
    var currentToolInputJSON: string
    var currentThinking: string
    var currentSignature: string
    var currentRedacted: string
    var currentBlockType: BlockType
    var currentUsage: Option<Usage>
    var currentResponseID: string
    var hasToolUse: bool
    var stopReason: string
    var isPTL: bool

    ghost function View(): State
      reads this, out
    {
      State(out.sent, assistantMsg, currentText, currentToolUse, currentToolInputJSON, currentThinking,
            currentSignature, currentRedacted, currentBlockType, currentUsage, currentResponseID,
            hasToolUse, stopReason, isPTL)
    }

    constructor (parse: JsonParser, out: EventChannel)
      ensures this.parse == parse && this.out == out
      ensures View() == Initial(out.sent)
    {
      this.parse := parse;
      this.out := out;
      assistantMsg := NewMessage(Assistant, 0);
      currentText := "";
      currentToolUse := None;
      currentToolInputJSON := "";
      currentThinking := "";
      currentSignature := "";
      currentRedacted := "";
      currentBlockType := NoType;
      currentUsage := None;
      currentResponseID := "";
      hasToolUse := false;
      stopReason := "";
      isPTL := false;
    }

    /** Appends the pending tool call to the message and emits it; reports whether there was one. */
    method FinalizeToolUse() returns (pending: Option<PendingTool>, finalized: bool)
      modifies this`assistantMsg, this`currentToolUse, out
      ensures pending == None && finalized == old(currentToolUse).Some?
      ensures View().(tool := None, hasToolUse := old(hasToolUse) || finalized)
           == FinalizeTool(parse, old(View())).(tool := None)
    {
      if currentToolUse.None? {
        return None, false;
      }
      if currentToolInputJSON != "" {
        var decoded := parse(currentToolInputJSON);
        if decoded.Some? {
          currentToolUse := Some(currentToolUse.value.(input := decoded.value));
        }
      }
      var t := currentToolUse.value;
      assistantMsg := assistantMsg.Add(ToolUse(t.id, t.name, t.input));
      out.Send(AssistantToolUseEvent(t.id, t.name, t.input));
      return None, true;
    }

    method ProcessBlockStart(evt: StreamEvent)
      requires evt.BlockStart?
      modifies this
      ensures View() == OnBlockStart(old(View()), evt)
    {
      currentBlockType := evt.blockType;
      match evt.blockType
      case TextType =>
        currentText := "";
      case ToolUseType =>
        currentToolUse := Some(PendingTool(evt.id, evt.name, evt.input));
        currentToolInputJSON := "";
      case ThinkingType =>
        currentThinking := evt.thinking;
        currentSignature := evt.signature;
      case RedactedType =>
        currentRedacted := evt.redacted;
      case _ =>
    }

    method ProcessText(text: string)
      modifies this`currentText, out
      ensures View() == OnText(old(View()), text)
    {
      if text != "" {
        currentText := currentText + text;
        out.Send(AssistantTextEvent(text));
      }
    }

    method ProcessToolUse(evt: StreamEvent)
      requires evt.AssistantToolUse?
      modifies this, out
      ensures View() == OnToolUse(parse, old(View()), evt)
    {
      hide FinalizeTool;
      if evt.responseId != "" && currentResponseID == "" {
        currentResponseID := evt.responseId;
      }
      if currentToolUse.None? || currentToolUse.value.id != evt.id {
        if currentToolUse.Some? {
          CloseToolUse();
        } else {
          FinalizeNothing(parse, View());
        }
        currentToolUse := Some(PendingTool(evt.id, evt.name, NilInput));
        currentToolInputJSON := evt.json;
      } else {
        currentToolInputJSON := currentToolInputJSON + evt.json;
      }
    }

    method ProcessBlockDelta(evt: StreamEvent)
      requires evt.BlockDelta?
      modifies this, out
      ensures View() == OnBlockDelta(old(View()), evt)
    {
      if evt.text != "" {
        ProcessText(evt.text);
      } else if evt.json != "" && currentToolUse.Some? {
        currentToolInputJSON := currentToolInputJSON + evt.json;
      } else if evt.thinking != "" {
        currentThinking := currentThinking + evt.thinking;
      } else if evt.signature != "" {
        currentSignature := currentSignature + evt.signature;
      }
    }

    method CloseToolUse()
      modifies this, out
      ensures View() == FinalizeTool(parse, old(View())).(json := "")
    {
      var finalized;
      currentToolUse, finalized := FinalizeToolUse();
      if finalized {
        hasToolUse := true;
      }
      currentToolInputJSON := "";
    }

    method CloseCurrentBlock()
      modifies this, out
      ensures View() == CloseBlock(parse, old(View()))
    {
      hide FinalizeTool;
      match currentBlockType {
        case ToolUseType =>
          CloseToolUse();
        case ThinkingType =>
          assistantMsg := assistantMsg.Add(Thinking(currentThinking, currentSignature));
          currentThinking := "";
          currentSignature := "";
        case RedactedType =>
          assistantMsg := assistantMsg.Add(RedactedThinking(currentRedacted));
          currentRedacted := "";
        case _ =>
          assistantMsg := assistantMsg.Add(Block.Text(currentText));
          currentText := "";
      }
    }

    method ProcessBlockStop()
      modifies this, out
      ensures View() == OnBlockStop(parse, old(View()))
    {
      hide CloseBlock;
      CloseCurrentBlock();
      currentBlockType := NoType;
    }

    method ProcessUsage(wire: WireUsage)
      modifies this`currentUsage
      ensures View() == old(View()).(usage := Merged(old(currentUsage), WireToUsage(wire)))
    {
      var u := WireToUsage(wire);
      if u.Some? {
        currentUsage := MergeUsage(currentUsage, u);
      }
    }

    method Process(evt: StreamEvent, now: int) returns (breakLoop: bool, abortErr: string)
      modifies this, out
      ensures View() == Step(parse, old(View()), evt, now)
      ensures (breakLoop, abortErr) == Verdict(evt)
    {
      hide OnBlockStart, OnToolUse, OnBlockDelta, OnBlockStop, OnText, WireToUsage, Merged, PromptTooLongMessage,
           IsPromptTooLong;
      breakLoop, abortErr := false, "";
      match evt
      case MessageStart(responseId, wire) =>
        if responseId != "" {
          currentResponseID := responseId;
        }
        ProcessUsage(wire);
      case UsageReport(wire) =>
        ProcessUsage(wire);
      case BlockStart(_, _, _, _, _, _, _) =>
        ProcessBlockStart(evt);
      case AssistantText(text) =>
        ProcessText(text);
      case AssistantToolUse(_, _, _, _) =>
        ProcessToolUse(evt);
      case BlockDelta(_, _, _, _) =>
        ProcessBlockDelta(evt);
      case BlockStop =>
        ProcessBlockStop();
      case MessageDelta(reason, wire) =>
        if reason != "" {
          stopReason := reason;
        }
        ProcessUsage(wire);
      case StreamError(text) =>
        if IsPromptTooLong(text) {
          assistantMsg := PromptTooLongMessage(text, now);
          isPTL := true;
          return true, "";
        }
        return false, text;
      case Ignored =>
    }

    /** Closes what the OpenAI dialect never closes. */
    method FlushOpenAI()
      modifies this, out
      ensures View() == Flush(parse, old(View()))
    {
      if currentText != "" {
        assistantMsg := assistantMsg.Add(Block.Text(currentText));
        currentText := "";
      }
      if currentToolUse.Some? {
        CloseToolUse();
      }
    }

    method FinalizeAssistantMsg(now: int) returns (m: Message)
      modifies this`assistantMsg
      ensures m == Finalize(old(View()), now)
      ensures View() == old(View()).(msg := m)
    {
      assistantMsg := assistantMsg.(usage := currentUsage);
      assistantMsg := assistantMsg.(responseId := currentResponseID);
      assistantMsg := assistantMsg.(timestamp := now);
      m := assistantMsg;
    }
  }
}
