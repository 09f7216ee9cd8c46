/** What the stream automaton promises, for every event sequence and for both dialects. */
module ParserProofs {
  import opened Messages
  import opened QueryEvents
  import opened StreamParser
  import Text

  // ---- The mirror invariant: emitted tool uses, the message and the flag agree ----

  function ToolEvents(es: seq<Event>): seq<Block> {
    if es == [] then []
    else ToolEvents(Init(es)) +
         (if Last(es).AssistantToolUseEvent? then [ToolUse(Last(es).id, Last(es).name, Last(es).input)] else [])
  }

  function TextEvents(es: seq<Event>): string {
    if es == [] then ""
    else TextEvents(Init(es)) + (if Last(es).AssistantTextEvent? then Last(es).text else "")
  }

  lemma AppendEvent(es: seq<Event>, e: Event)
    ensures ToolEvents(es + [e]) ==
      ToolEvents(es) + (if e.AssistantToolUseEvent? then [ToolUse(e.id, e.name, e.input)] else [])
    ensures TextEvents(es + [e]) == TextEvents(es) + (if e.AssistantTextEvent? then e.text else "")
  {
    assert Init(es + [e]) == es;
  }

  predicate IsDelta(e: Event) {
    e.AssistantTextEvent? || e.AssistantToolUseEvent?
  }

  ghost predicate OnlyDeltas(sent: seq<Event>) {
    forall i :: 0 <= i < |sent| ==> IsDelta(sent[i])
  }

  /** The tool-use events sent are the message's tool uses in order, and the flag says if there is one. */
  ghost predicate Mirrored(sent: seq<Event>, msg: Message, flag: bool) {
    && OnlyDeltas(sent)
    && msg.role.Assistant?
    && ResultIds(msg.content) == []
    && ToolEvents(sent) == ToolUsesOf(msg.content)
    && (flag <==> ToolUsesOf(msg.content) != [])
  }

  ghost predicate Mirror(s: State) {
    Mirrored(s.sent, s.msg, s.hasToolUse)
  }

  /** Until a prompt-too-long error, which throws the message away. */
  ghost predicate MirrorUntilPTL(s: State) {
    if s.isPTL then OnlyDeltas(s.sent) else Mirror(s)
  }

  lemma MirrorAdd(s: State, b: Block)
    requires Mirror(s) && !b.ToolUse? && !b.ToolResult?
    ensures Mirror(s.(msg := s.msg.Add(b)))
  {
    AppendFolds(s.msg.content, b);
  }

  lemma MirrorText(s: State, text: string)
    requires Mirror(s)
    ensures Mirror(OnText(s, text))
  {
    if text != "" {
      AppendEvent(s.sent, AssistantTextEvent(text));
    }
  }

  lemma MirrorAddTool(s: State, id: string, name: string, input: ToolInput)
    requires Mirror(s)
    ensures Mirror(AddToolUse(s, id, name, input))
  {
    AppendEvent(s.sent, AssistantToolUseEvent(id, name, input));
    AppendFolds(s.msg.content, ToolUse(id, name, input));
  }

  lemma MirrorTool(parse: JsonParser, s: State)
    requires Mirror(s)
    ensures Mirror(FinalizeTool(parse, s))
    ensures FinalizeTool(parse, s).isPTL == s.isPTL
  {
    if s.tool.Some? {
      MirrorAddTool(s, s.tool.value.id, s.tool.value.name, FinalInput(parse, s.tool.value.input, s.json));
    }
  }

  lemma MirrorStop(parse: JsonParser, s: State)
    requires Mirror(s)
    ensures Mirror(OnBlockStop(parse, s))
  {
    match s.blockType
    case ToolUseType => MirrorTool(parse, s);
    case ThinkingType => MirrorAdd(s, Thinking(s.thinking, s.signature));
    case RedactedType => MirrorAdd(s, RedactedThinking(s.redacted));
    case _ => MirrorAdd(s, Block.Text(s.text));
  }

  lemma MirrorToolUse(parse: JsonParser, s: State, e: StreamEvent)
    requires Mirror(s) && e.AssistantToolUse?
    ensures Mirror(OnToolUse(parse, s, e))
    ensures OnToolUse(parse, s, e).isPTL == s.isPTL
  {
    hide Mirrored, FinalizeTool;
    var s1 := NameResponse(s, e.responseId);
    MirrorTool(parse, s1);
  }

  lemma MirrorAdvance(parse: JsonParser, s: State, e: StreamEvent)
    requires Mirror(s)
    ensures Mirror(Advance(parse, s, e))
    ensures Advance(parse, s, e).isPTL == s.isPTL
  {
    hide Mirrored;
    if e.AssistantToolUse? {
      MirrorToolUse(parse, s, e);
    } else if e.AssistantText? || e.BlockDelta? {
      MirrorText(s, e.text);
    } else if e.BlockStop? {
      MirrorStop(parse, s);
    }
  }

  lemma DeltasOnly(parse: JsonParser, s: State, e: StreamEvent)
    requires OnlyDeltas(s.sent)
    ensures OnlyDeltas(Advance(parse, s, e).sent)
    ensures Advance(parse, s, e).isPTL == s.isPTL
  {
    hide FinalInput, Merged, WireToUsage, OnToolUse, OnBlockStop;
    if e.AssistantToolUse? {
      ToolUseDeltas(parse, s, e);
    } else if e.BlockStop? {
      StopDeltas(parse, s);
    }
  }

  lemma ToolUseDeltas(parse: JsonParser, s: State, e: StreamEvent)
    requires OnlyDeltas(s.sent) && e.AssistantToolUse?
    ensures OnlyDeltas(OnToolUse(parse, s, e).sent) && OnToolUse(parse, s, e).isPTL == s.isPTL
  {
    hide FinalInput;
  }

  lemma StopDeltas(parse: JsonParser, s: State)
    requires OnlyDeltas(s.sent)
    ensures OnlyDeltas(OnBlockStop(parse, s).sent) && OnBlockStop(parse, s).isPTL == s.isPTL
  {
    hide FinalInput;
  }

  lemma MirrorStep(parse: JsonParser, s: State, e: StreamEvent, now: int)
    requires MirrorUntilPTL(s)
    ensures MirrorUntilPTL(Step(parse, s, e, now))
  {
    if !e.StreamError? {
      if s.isPTL {
        DeltasOnly(parse, s, e);
      } else {
        MirrorAdvance(parse, s, e);
      }
    }
  }

  lemma MirrorFlush(parse: JsonParser, s: State)
    requires Mirror(s)
    ensures Mirror(Flush(parse, s))
  {
    hide Mirrored;
    if s.text != "" {
      MirrorAdd(s, Block.Text(s.text));
      MirrorTool(parse, s.(msg := s.msg.Add(Block.Text(s.text)), text := ""));
    } else {
      MirrorTool(parse, s);
    }
  }

  lemma {:induction false} MirrorSteps(parse: JsonParser, es: seq<StreamEvent>, now: int)
    ensures MirrorUntilPTL(Steps(parse, Initial([]), es, now))
  {
    if es != [] {
      MirrorSteps(parse, Init(es), now);
      MirrorStep(parse, Steps(parse, Initial([]), Init(es), now), Last(es), now);
    }
  }

  /**
   After any prefix of any stream, and again after the final flush, the tool-use events sent are the
   message's tool uses in order, and `hasToolUse` holds exactly when there is one.
   */
  lemma ParserMirror(parse: JsonParser, es: seq<StreamEvent>, now: int)
    ensures var s := Steps(parse, Initial([]), es, now);
      MirrorUntilPTL(s) && (!s.isPTL ==> Mirror(Flush(parse, s)))
  {
    MirrorSteps(parse, es, now);
    var s := Steps(parse, Initial([]), es, now);
    if !s.isPTL {
      MirrorFlush(parse, s);
    }
  }

  // ---- What was sent before does not matter ----

  /** The same state on a channel that already carried `base`. */
  function After(base: seq<Event>, s: State): State {
    s.(sent := base + s.sent)
  }

  lemma AfterTool(parse: JsonParser, base: seq<Event>, s: State)
    ensures FinalizeTool(parse, After(base, s)) == After(base, FinalizeTool(parse, s))
  {
    if s.tool.Some? {
      var t := s.tool.value;
      var e := AssistantToolUseEvent(t.id, t.name, FinalInput(parse, t.input, s.json));
      assert base + (s.sent + [e]) == (base + s.sent) + [e];
    }
  }

  lemma AfterText(base: seq<Event>, s: State, text: string)
    ensures OnText(After(base, s), text) == After(base, OnText(s, text))
  {
    var e := AssistantTextEvent(text);
    assert base + (s.sent + [e]) == (base + s.sent) + [e];
  }

  lemma AfterToolUse(parse: JsonParser, base: seq<Event>, s: State, e: StreamEvent)
    requires e.AssistantToolUse?
    ensures OnToolUse(parse, After(base, s), e) == After(base, OnToolUse(parse, s, e))
  {
    hide FinalizeTool;
    var s1 := NameResponse(s, e.responseId);
    assert NameResponse(After(base, s), e.responseId) == After(base, s1);
    AfterTool(parse, base, s1);
  }

  lemma AfterStop(parse: JsonParser, base: seq<Event>, s: State)
    ensures OnBlockStop(parse, After(base, s)) == After(base, OnBlockStop(parse, s))
  {
    hide FinalizeTool;
    AfterTool(parse, base, s);
    assert CloseBlock(parse, After(base, s)) == After(base, CloseBlock(parse, s));
  }

  lemma AfterStart(base: seq<Event>, s: State, e: StreamEvent)
    requires e.BlockStart?
    ensures OnBlockStart(After(base, s), e) == After(base, OnBlockStart(s, e))
  {
    match e.blockType
    case TextType =>
    case ToolUseType =>
    case ThinkingType =>
    case RedactedType =>
    case _ =>
  }

  lemma AfterAdvance(parse: JsonParser, base: seq<Event>, s: State, e: StreamEvent)
    ensures Advance(parse, After(base, s), e) == After(base, Advance(parse, s, e))
  {
    hide OnToolUse, OnBlockStop, OnBlockStart, OnText, Merged, WireToUsage;
    if e.AssistantToolUse? {
      AfterToolUse(parse, base, s, e);
    } else if e.BlockStart? {
      AfterStart(base, s, e);
    } else if e.AssistantText? || e.BlockDelta? {
      AfterText(base, s, e.text);
    } else if e.BlockStop? {
      AfterStop(parse, base, s);
    }
  }

  lemma {:induction false} AfterSteps(parse: JsonParser, base: seq<Event>, es: seq<StreamEvent>, now: int)
    ensures Steps(parse, Initial(base), es, now) == After(base, Steps(parse, Initial([]), es, now))
  {
    if es == [] {
      assert base + [] == base;
    } else {
      AfterSteps(parse, base, Init(es), now);
      AfterAdvance(parse, base, Steps(parse, Initial([]), Init(es), now), Last(es));
    }
  }

  lemma AfterFlush(parse: JsonParser, base: seq<Event>, s: State)
    ensures Flush(parse, After(base, s)) == After(base, Flush(parse, s))
  {
    hide FinalizeTool;
    AfterTool(parse, base, if s.text != "" then s.(msg := s.msg.Add(Block.Text(s.text)), text := "") else s);
  }

  // ---- Sequencing ----

  lemma StepsAppend(parse: JsonParser, s: State, es: seq<StreamEvent>, e: StreamEvent, now: int)
    ensures Steps(parse, s, es + [e], now) == Step(parse, Steps(parse, s, es, now), e, now)
  {
    hide Step;
    assert Init(es + [e]) == es;
  }

  lemma {:induction false} StepsConcat(parse: JsonParser, s: State, a: seq<StreamEvent>, b: seq<StreamEvent>, now: int)
    ensures Steps(parse, s, a + b, now) == Steps(parse, Steps(parse, s, a, now), b, now)
  {
    hide Step;
    if b == [] {
      assert a + b == a;
    } else {
      StepsConcat(parse, s, a, Init(b), now);
      assert Init(a + b) == a + Init(b);
    }
  }

  // ---- Events about the message as a whole do not disturb its content ----

  predicate IsEnvelope(e: StreamEvent) {
    e.MessageStart? || e.UsageReport? || e.MessageDelta? || e.Ignored?
  }

  function Strip(es: seq<StreamEvent>): seq<StreamEvent> {
    if es == [] then []
    else Strip(Init(es)) + (if IsEnvelope(Last(es)) then [] else [Last(es)])
  }

  /** A state without what the envelope events set. */
  function Core(s: State): State {
    s.(usage := None, responseId := "", stopReason := "")
  }

  lemma ToolCore(parse: JsonParser, a: State, b: State)
    requires Core(a) == Core(b)
    ensures Core(FinalizeTool(parse, a)) == Core(FinalizeTool(parse, b))
  {
  }

  lemma ToolUseCore(parse: JsonParser, a: State, b: State, e: StreamEvent)
    requires Core(a) == Core(b) && e.AssistantToolUse?
    ensures Core(OnToolUse(parse, a, e)) == Core(OnToolUse(parse, b, e))
  {
    hide FinalizeTool, FinalInput;
    var a1, b1 := NameResponse(a, e.responseId), NameResponse(b, e.responseId);
    assert Core(a1) == Core(b1);
    assert a1.tool == Core(a1).tool && b1.tool == Core(b1).tool;
    ToolCore(parse, a1, b1);
  }

  lemma StopCore(parse: JsonParser, a: State, b: State)
    requires Core(a) == Core(b)
    ensures Core(OnBlockStop(parse, a)) == Core(OnBlockStop(parse, b))
  {
    hide FinalizeTool;
    assert a.blockType == Core(a).blockType && b.blockType == Core(b).blockType;
    ToolCore(parse, a, b);
  }

  lemma StartCore(a: State, b: State, e: StreamEvent)
    requires Core(a) == Core(b) && e.BlockStart?
    ensures Core(OnBlockStart(a, e)) == Core(OnBlockStart(b, e))
  {
    assert a.sent == Core(a).sent && b.sent == Core(b).sent && a.msg == Core(a).msg && b.msg == Core(b).msg;
    assert a.text == Core(a).text && b.text == Core(b).text && a.json == Core(a).json && b.json == Core(b).json;
  }

  lemma DeltaCore(a: State, b: State, e: StreamEvent)
    requires Core(a) == Core(b) && (e.AssistantText? || e.BlockDelta?)
    ensures Core(OnText(a, e.text)) == Core(OnText(b, e.text))
    ensures e.BlockDelta? ==> Core(OnBlockDelta(a, e)) == Core(OnBlockDelta(b, e))
  {
    assert a.text == Core(a).text && b.text == Core(b).text && a.sent == Core(a).sent && b.sent == Core(b).sent;
    assert a.json == Core(a).json && b.json == Core(b).json && a.tool == Core(a).tool && b.tool == Core(b).tool;
    assert a.thinking == Core(a).thinking && b.thinking == Core(b).thinking;
    assert a.signature == Core(a).signature && b.signature == Core(b).signature;
  }

  lemma AdvanceCore(parse: JsonParser, a: State, b: State, e: StreamEvent)
    requires Core(a) == Core(b)
    ensures Core(Advance(parse, a, e)) == Core(Advance(parse, b, e))
    ensures IsEnvelope(e) ==> Core(Advance(parse, a, e)) == Core(b)
  {
    hide OnToolUse, OnBlockStop, OnBlockStart, OnBlockDelta, OnText, Merged;
    if e.AssistantToolUse? {
      ToolUseCore(parse, a, b, e);
    } else if e.BlockStop? {
      StopCore(parse, a, b);
    } else if e.BlockStart? {
      StartCore(a, b, e);
    } else if e.AssistantText? || e.BlockDelta? {
      DeltaCore(a, b, e);
    }
  }

  lemma StepCore(parse: JsonParser, a: State, b: State, e: StreamEvent, now: int)
    requires Core(a) == Core(b)
    ensures Core(Step(parse, a, e, now)) == Core(Step(parse, b, e, now))
    ensures IsEnvelope(e) ==> Core(Step(parse, a, e, now)) == Core(b)
  {
    hide Advance, IsPromptTooLong;
    if !e.StreamError? {
      AdvanceCore(parse, a, b, e);
    }
  }

  lemma {:induction false} StripCore(parse: JsonParser, s: State, es: seq<StreamEvent>, now: int)
    ensures Core(Steps(parse, s, es, now)) == Core(Steps(parse, s, Strip(es), now))
  {
    hide Step, Core;
    if es != [] {
      StripCore(parse, s, Init(es), now);
      StepCore(parse, Steps(parse, s, Init(es), now), Steps(parse, s, Strip(Init(es)), now), Last(es), now);
      if IsEnvelope(Last(es)) {
        assert Strip(es) == Strip(Init(es));
      } else {
        StepsAppend(parse, s, Strip(Init(es)), Last(es), now);
      }
    }
  }

  // ---- The block dialect: encoding and decoding ----

  datatype ThinkingPart = ThinkingChunk(text: string) | SignatureChunk(text: string)

  /** One content block as it travels: opening fields and any chunking of its deltas. */
  datatype WireBlock =
    | TextWire(chunks: seq<string>)
    | ToolWire(id: string, name: string, initial: ToolInput, chunks: seq<string>)
    | ThinkingWire(thinking: string, signature: string, parts: seq<ThinkingPart>)
    | RedactedWire(data: string)

  function StartOf(w: WireBlock): StreamEvent {
    match w
    case TextWire(_) => BlockStart(TextType, "", "", NilInput, "", "", "")
    case ToolWire(id, name, initial, _) => BlockStart(ToolUseType, id, name, initial, "", "", "")
    case ThinkingWire(thinking, signature, _) => BlockStart(ThinkingType, "", "", NilInput, thinking, signature, "")
    case RedactedWire(data) => BlockStart(RedactedType, "", "", NilInput, "", "", data)
  }

  function PartDelta(p: ThinkingPart): StreamEvent {
    match p
    case ThinkingChunk(text) => BlockDelta("", "", text, "")
    case SignatureChunk(text) => BlockDelta("", "", "", text)
  }

  function DeltasOf(w: WireBlock): seq<StreamEvent> {
    match w
    case TextWire(chunks) => seq(|chunks|, i requires 0 <= i < |chunks| => BlockDelta(chunks[i], "", "", ""))
    case ToolWire(_, _, _, chunks) => seq(|chunks|, i requires 0 <= i < |chunks| => BlockDelta("", chunks[i], "", ""))
    case ThinkingWire(_, _, parts) => seq(|parts|, i requires 0 <= i < |parts| => PartDelta(parts[i]))
    case RedactedWire(_) => []
  }

  function Encode(ws: seq<WireBlock>): seq<StreamEvent> {
    if ws == [] then [] else Encode(Init(ws)) + ([StartOf(Last(ws))] + DeltasOf(Last(ws)) + [BlockStop])
  }

  function ThinkingText(parts: seq<ThinkingPart>): string {
    if parts == [] then ""
    else ThinkingText(Init(parts)) + (if Last(parts).ThinkingChunk? then Last(parts).text else "")
  }

  function SignatureText(parts: seq<ThinkingPart>): string {
    if parts == [] then ""
    else SignatureText(Init(parts)) + (if Last(parts).SignatureChunk? then Last(parts).text else "")
  }

  /** The block a wire form stands for: chunks concatenated, tool input decoded from the whole. */
  function Decode(parse: JsonParser, w: WireBlock): Block {
    match w
    case TextWire(chunks) => Block.Text(Text.Join(chunks))
    case ToolWire(id, name, initial, chunks) => ToolUse(id, name, FinalInput(parse, initial, Text.Join(chunks)))
    case ThinkingWire(thinking, signature, parts) =>
      Thinking(thinking + ThinkingText(parts), signature + SignatureText(parts))
    case RedactedWire(data) => RedactedThinking(data)
  }

  function DecodeAll(parse: JsonParser, ws: seq<WireBlock>): seq<Block> {
    seq(|ws|, i requires 0 <= i < |ws| => Decode(parse, ws[i]))
  }

  ghost predicate Quiet(s: State) {
    s.text == "" && s.tool.None? && s.blockType.NoType? && !s.isPTL
  }

  lemma OneTextDelta(s: State, chunk: string)
    ensures var s' := OnBlockDelta(s, BlockDelta(chunk, "", "", ""));
      s' == s.(text := s.text + chunk, sent := s'.sent) && TextEvents(s'.sent) == TextEvents(s.sent) + chunk
  {
    hide TextEvents;
    assert chunk == "" ==> s.text + chunk == s.text && TextEvents(s.sent) + chunk == TextEvents(s.sent);
    AppendEvent(s.sent, AssistantTextEvent(chunk));
  }

  lemma OneToolDelta(s: State, chunk: string)
    requires s.tool.Some?
    ensures OnBlockDelta(s, BlockDelta("", chunk, "", "")) == s.(json := s.json + chunk)
  {
    assert chunk == "" ==> s.json + chunk == s.json;
  }

  lemma OneThinkingDelta(s: State, p: ThinkingPart)
    ensures OnBlockDelta(s, PartDelta(p)) ==
      if p.ThinkingChunk? then s.(thinking := s.thinking + p.text) else s.(signature := s.signature + p.text)
  {
    assert p.text == "" ==> s.thinking + p.text == s.thinking && s.signature + p.text == s.signature;
  }

  lemma DeltaStep(parse: JsonParser, s: State, e: StreamEvent, now: int)
    requires e.BlockDelta?
    ensures Step(parse, s, e, now) == OnBlockDelta(s, e)
  {
    hide OnBlockDelta;
  }

  lemma {:induction false} TextDeltas(parse: JsonParser, s: State, chunks: seq<string>, now: int)
    ensures var s' := Steps(parse, s, DeltasOf(TextWire(chunks)), now);
      s' == s.(text := s.text + Text.Join(chunks), sent := s'.sent)
      && TextEvents(s'.sent) == TextEvents(s.sent) + Text.Join(chunks)
  {
    hide Step, OnBlockDelta, TextEvents;
    if chunks == [] {
      assert TextEvents(s.sent) + "" == TextEvents(s.sent);
    } else {
      var e := BlockDelta(Last(chunks), "", "", "");
      TextDeltas(parse, s, Init(chunks), now);
      assert DeltasOf(TextWire(chunks)) == DeltasOf(TextWire(Init(chunks))) + [e];
      StepsAppend(parse, s, DeltasOf(TextWire(Init(chunks))), e, now);
      var mid := Steps(parse, s, DeltasOf(TextWire(Init(chunks))), now);
      DeltaStep(parse, mid, e, now);
      OneTextDelta(mid, Last(chunks));
      assert s.text + Text.Join(chunks) == (s.text + Text.Join(Init(chunks))) + Last(chunks);
      assert TextEvents(s.sent) + Text.Join(chunks)
          == (TextEvents(s.sent) + Text.Join(Init(chunks))) + Last(chunks);
    }
  }

  lemma {:induction false} ToolDeltas(parse: JsonParser, s: State, w: WireBlock, now: int)
    requires w.ToolWire? && s.tool.Some?
    ensures Steps(parse, s, DeltasOf(w), now) == s.(json := s.json + Text.Join(w.chunks))
    decreases |w.chunks|
  {
    hide Step, OnBlockDelta;
    if w.chunks != [] {
      var w0, e := w.(chunks := Init(w.chunks)), BlockDelta("", Last(w.chunks), "", "");
      ToolDeltas(parse, s, w0, now);
      assert DeltasOf(w) == DeltasOf(w0) + [e];
      StepsAppend(parse, s, DeltasOf(w0), e, now);
      var mid := Steps(parse, s, DeltasOf(w0), now);
      DeltaStep(parse, mid, e, now);
      OneToolDelta(mid, Last(w.chunks));
      assert s.json + Text.Join(w.chunks) == (s.json + Text.Join(w0.chunks)) + Last(w.chunks);
    }
  }

  lemma NoParts(s: State, w: WireBlock)
    requires w.ThinkingWire? && w.parts == []
    ensures s.thinking + ThinkingText(w.parts) == s.thinking && s.signature + SignatureText(w.parts) == s.signature
  {
  }

  lemma PartAppend(s: State, w: WireBlock)
    requires w.ThinkingWire? && w.parts != []
    ensures var p, th, sig := Last(w.parts), ThinkingText(Init(w.parts)), SignatureText(Init(w.parts));
      if p.ThinkingChunk?
      then (s.thinking + th) + p.text == s.thinking + ThinkingText(w.parts) && sig == SignatureText(w.parts)
      else (s.signature + sig) + p.text == s.signature + SignatureText(w.parts) && th == ThinkingText(w.parts)
  {
  }

  lemma {:induction false} ThinkingDeltas(parse: JsonParser, s: State, w: WireBlock, now: int)
    requires w.ThinkingWire?
    ensures Steps(parse, s, DeltasOf(w), now)
         == s.(thinking := s.thinking + ThinkingText(w.parts), signature := s.signature + SignatureText(w.parts))
    decreases |w.parts|
  {
    hide Step, OnBlockDelta, ThinkingText, SignatureText;
    if w.parts == [] {
      NoParts(s, w);
    } else {
      var w0, e := w.(parts := Init(w.parts)), PartDelta(Last(w.parts));
      ThinkingDeltas(parse, s, w0, now);
      assert DeltasOf(w) == DeltasOf(w0) + [e];
      StepsAppend(parse, s, DeltasOf(w0), e, now);
      var mid := Steps(parse, s, DeltasOf(w0), now);
      DeltaStep(parse, mid, e, now);
      OneThinkingDelta(mid, Last(w.parts));
      PartAppend(s, w);
    }
  }

  /** An encoded block runs through its three stages: start, deltas, stop. */
  lemma BlockStages(parse: JsonParser, s: State, w: WireBlock, now: int)
    ensures Steps(parse, s, [StartOf(w)] + DeltasOf(w) + [BlockStop], now)
         == OnBlockStop(parse, Steps(parse, OnBlockStart(s, StartOf(w)), DeltasOf(w), now))
  {
    hide OnBlockStart, OnBlockStop, StartOf, DeltasOf;
    assert StartOf(w).BlockStart? by { StartIsStart(w); }
    assert [StartOf(w)] == [] + [StartOf(w)];
    StepsAppend(parse, s, [], StartOf(w), now);
    StepsConcat(parse, s, [StartOf(w)], DeltasOf(w), now);
    StepsAppend(parse, s, [StartOf(w)] + DeltasOf(w), BlockStop, now);
  }

  lemma StartIsStart(w: WireBlock)
    ensures StartOf(w).BlockStart?
  {
  }

  /** Between the two states, the text sent is that of the block, if it is a text block. */
  predicate SendsText(s: State, s': State, b: Block) {
    TextEvents(s'.sent) == TextEvents(s.sent) + (if b.Text? then b.text else "")
  }

  lemma ToolRebuilt(parse: JsonParser, s: State, w: WireBlock, now: int)
    requires Quiet(s) && w.ToolWire?
    ensures var s' := OnBlockStop(parse, Steps(parse, OnBlockStart(s, StartOf(w)), DeltasOf(w), now));
      Quiet(s') && s'.msg == s.msg.Add(Decode(parse, w)) && SendsText(s, s', Decode(parse, w))
  {
    hide Steps, TextEvents;
    ToolDeltas(parse, OnBlockStart(s, StartOf(w)), w, now);
    AppendEvent(s.sent, AssistantToolUseEvent(w.id, w.name, FinalInput(parse, w.initial, Text.Join(w.chunks))));
    assert "" + Text.Join(w.chunks) == Text.Join(w.chunks);
  }

  lemma TextRebuilt(parse: JsonParser, s: State, w: WireBlock, now: int)
    requires Quiet(s) && w.TextWire?
    ensures var s' := OnBlockStop(parse, Steps(parse, OnBlockStart(s, StartOf(w)), DeltasOf(w), now));
      Quiet(s') && s'.msg == s.msg.Add(Decode(parse, w)) && SendsText(s, s', Decode(parse, w))
  {
    hide Steps, TextEvents;
    TextDeltas(parse, OnBlockStart(s, StartOf(w)), w.chunks, now);
    assert "" + Text.Join(w.chunks) == Text.Join(w.chunks);
  }

  lemma ThinkingRebuilt(parse: JsonParser, s: State, w: WireBlock, now: int)
    requires Quiet(s) && w.ThinkingWire?
    ensures var s' := OnBlockStop(parse, Steps(parse, OnBlockStart(s, StartOf(w)), DeltasOf(w), now));
      Quiet(s') && s'.msg == s.msg.Add(Decode(parse, w)) && SendsText(s, s', Decode(parse, w))
  {
    hide Steps, TextEvents;
    ThinkingDeltas(parse, OnBlockStart(s, StartOf(w)), w, now);
    assert TextEvents(s.sent) + "" == TextEvents(s.sent);
  }

  /** From a quiet state, one encoded block appends exactly that block and leaves the parser quiet. */
  lemma BlockRebuilt(parse: JsonParser, s: State, w: WireBlock, now: int)
    requires Quiet(s)
    ensures var s' := Steps(parse, s, [StartOf(w)] + DeltasOf(w) + [BlockStop], now);
      Quiet(s') && s'.msg == s.msg.Add(Decode(parse, w)) && SendsText(s, s', Decode(parse, w))
  {
    hide Steps, OnBlockStart, OnBlockStop, StartOf, DeltasOf, Decode, Quiet, SendsText;
    BlockStages(parse, s, w, now);
    match w
    case TextWire(_) => TextRebuilt(parse, s, w, now);
    case ToolWire(_, _, _, _) => ToolRebuilt(parse, s, w, now);
    case ThinkingWire(_, _, _) => ThinkingRebuilt(parse, s, w, now);
    case RedactedWire(_) => RedactedRebuilt(parse, s, w, now);
  }

  lemma RedactedRebuilt(parse: JsonParser, s: State, w: WireBlock, now: int)
    requires Quiet(s) && w.RedactedWire?
    ensures var s' := OnBlockStop(parse, Steps(parse, OnBlockStart(s, StartOf(w)), DeltasOf(w), now));
      Quiet(s') && s'.msg == s.msg.Add(Decode(parse, w)) && SendsText(s, s', Decode(parse, w))
  {
    hide TextEvents;
    assert TextEvents(s.sent) + "" == TextEvents(s.sent);
  }

  /** The input of a tool block: what its chunks decode to as a whole, or what it opened with if that is nothing. */
  lemma ToolInputIsDecoded(parse: JsonParser, w: WireBlock)
    requires w.ToolWire?
    ensures var b, json := Decode(parse, w), Text.Join(w.chunks);
      && b.ToolUse? && b.id == w.id && b.name == w.name
      && (json != "" && parse(json).Some? ==> b.input == parse(json).value)
      && (json == "" || parse(json).None? ==> b.input == w.initial)
  {
  }

  lemma DecodeAppend(parse: JsonParser, content: seq<Block>, ws: seq<WireBlock>)
    requires ws != []
    ensures content + DecodeAll(parse, ws) == (content + DecodeAll(parse, Init(ws))) + [Decode(parse, Last(ws))]
  {
    hide Decode;
  }

  lemma DecodeNothing(parse: JsonParser, content: seq<Block>)
    ensures content + DecodeAll(parse, []) == content
  {
  }

  lemma {:induction false} BlocksRebuilt(parse: JsonParser, s: State, ws: seq<WireBlock>, now: int)
    requires Quiet(s)
    ensures var s' := Steps(parse, s, Encode(ws), now);
      && Quiet(s') && s'.msg == s.msg.(content := s.msg.content + DecodeAll(parse, ws))
      && TextEvents(s'.sent) == TextEvents(s.sent) + TextOf(DecodeAll(parse, ws))
  {
    hide Step, Decode, StartOf, DeltasOf, DecodeAll, Quiet, TextEvents, TextOf;
    if ws == [] {
      DecodeNothing(parse, s.msg.content);
      NoTextSent(parse, s);
    } else {
      BlocksRebuilt(parse, s, Init(ws), now);
      var mid := Steps(parse, s, Encode(Init(ws)), now);
      StepsConcat(parse, s, Encode(Init(ws)), [StartOf(Last(ws))] + DeltasOf(Last(ws)) + [BlockStop], now);
      BlockRebuilt(parse, mid, Last(ws), now);
      DecodeAppend(parse, s.msg.content, ws);
      TextAppend(parse, mid, Steps(parse, s, Encode(ws), now), TextEvents(s.sent), ws);
    }
  }

  lemma NoTextSent(parse: JsonParser, s: State)
    ensures TextEvents(s.sent) + TextOf(DecodeAll(parse, [])) == TextEvents(s.sent)
  {
  }

  lemma TextAppend(parse: JsonParser, mid: State, end: State, before: string, ws: seq<WireBlock>)
    requires ws != [] && SendsText(mid, end, Decode(parse, Last(ws)))
    requires TextEvents(mid.sent) == before + TextOf(DecodeAll(parse, Init(ws)))
    ensures TextEvents(end.sent) == before + TextOf(DecodeAll(parse, ws))
  {
    hide Decode, DecodeAll, TextEvents, TextOf;
    var b, init := Decode(parse, Last(ws)), DecodeAll(parse, Init(ws));
    DecodeAppend(parse, [], ws);
    assert [] + DecodeAll(parse, ws) == DecodeAll(parse, ws) && [] + init == init;
    AppendFolds(init, b);
    var text := if b.Text? then b.text else "";
    assert before + TextOf(init) + text == before + (TextOf(init) + text);
  }

  /** The message a whole stream produces. */
  function Received(parse: JsonParser, base: seq<Event>, es: seq<StreamEvent>, now: int): Message {
    Finalize(Flush(parse, Steps(parse, Initial(base), es, now)), now)
  }

  /**
   Round trip: a stream that, envelope events aside, encodes the blocks `ws` is received as a message
   with exactly those blocks in order, and the text of its text blocks has been emitted.
   */
  lemma BlockStreamRoundTrip(parse: JsonParser, base: seq<Event>, es: seq<StreamEvent>, ws: seq<WireBlock>, now: int)
    requires Strip(es) == Encode(ws)
    ensures Received(parse, base, es, now).content == DecodeAll(parse, ws)
    ensures TextEvents(Steps(parse, Initial(base), es, now).sent) == TextEvents(base) + TextOf(DecodeAll(parse, ws))
  {
    hide Steps, Strip, Encode, DecodeAll, TextEvents, TextOf;
    StripCore(parse, Initial(base), es, now);
    BlocksRebuilt(parse, Initial(base), ws, now);
    var s := Steps(parse, Initial(base), es, now);
    assert Core(s).tool == s.tool && Core(s).text == s.text && Core(s).msg == s.msg && Core(s).sent == s.sent;
    assert s.tool.None? && s.text == "";
    assert [] + DecodeAll(parse, ws) == DecodeAll(parse, ws);
  }

  /** Re-chunking the deltas, or moving the envelope events, never changes the blocks received. */
  lemma RechunkingIsInvisible(parse: JsonParser, base: seq<Event>, es: seq<StreamEvent>, ws: seq<WireBlock>,
                              es': seq<StreamEvent>, ws': seq<WireBlock>, now: int)
    requires Strip(es) == Encode(ws) && Strip(es') == Encode(ws')
    requires DecodeAll(parse, ws) == DecodeAll(parse, ws')
    ensures Received(parse, base, es, now).content == Received(parse, base, es', now).content
  {
    BlockStreamRoundTrip(parse, base, es, ws, now);
    BlockStreamRoundTrip(parse, base, es', ws', now);
  }

  // ---- The other dialect: no block boundaries ----

  datatype Call = Call(id: string, name: string, json: string)

  predicate IsPlain(e: StreamEvent) {
    e.AssistantText? || e.AssistantToolUse? || IsEnvelope(e)
  }

  ghost predicate PlainStream(es: seq<StreamEvent>) {
    forall i :: 0 <= i < |es| ==> IsPlain(es[i])
  }

  function CallsOf(es: seq<StreamEvent>): seq<Call> {
    if es == [] then []
    else CallsOf(Init(es)) +
         (if Last(es).AssistantToolUse? then [Call(Last(es).id, Last(es).name, Last(es).json)] else [])
  }

  function DeltaText(es: seq<StreamEvent>): string {
    if es == [] then "" else DeltaText(Init(es)) + (if Last(es).AssistantText? then Last(es).text else "")
  }

  /** Put a call in front of a list of runs, joining it to the first run when the ids agree. */
  function Prepend(c: Call, rs: seq<Call>): seq<Call> {
    if rs != [] && rs[0].id == c.id then [Call(c.id, c.name, c.json + rs[0].json)] + rs[1..] else [c] + rs
  }

  /** Merge each maximal run of equal ids: first name, concatenated arguments. Reads from the right. */
  function Runs(cs: seq<Call>): seq<Call> {
    if cs == [] then [] else Prepend(cs[0], Runs(cs[1..]))
  }

  /** No two neighbouring runs share an id: the runs are maximal. */
  lemma {:induction false} RunsAreMaximal(cs: seq<Call>)
    ensures cs != [] ==> Runs(cs) != [] && Runs(cs)[0].id == cs[0].id
    ensures forall i :: 0 <= i < |Runs(cs)| - 1 ==> Runs(cs)[i].id != Runs(cs)[i + 1].id
  {
    if cs != [] {
      RunsAreMaximal(cs[1..]);
    }
  }

  /** How the automaton sees it, from the left: extend the last run or open a new one. */
  function Extend(rs: seq<Call>, c: Call): seq<Call> {
    if rs != [] && Last(rs).id == c.id then Init(rs) + [Call(c.id, Last(rs).name, Last(rs).json + c.json)]
    else rs + [c]
  }

  lemma PrependExtend(a: Call, rs: seq<Call>, c: Call)
    ensures Prepend(a, Extend(rs, c)) == Extend(Prepend(a, rs), c)
  {
    if |rs| == 1 && a.id == rs[0].id == c.id {
      assert (a.json + rs[0].json) + c.json == a.json + (rs[0].json + c.json);
    }
  }

  lemma {:induction false} RunsAppend(cs: seq<Call>, c: Call)
    ensures Runs(cs + [c]) == Extend(Runs(cs), c)
  {
    hide Extend, Prepend;
    if cs == [] {
      assert [c][1..] == [];
      assert Runs([c]) == Prepend(c, []);
      assert cs + [c] == [c];
      ExtendNil(c);
    } else {
      RunsAppend(cs[1..], c);
      assert (cs + [c])[1..] == cs[1..] + [c];
      PrependExtend(cs[0], Runs(cs[1..]), c);
    }
  }

  lemma ExtendNil(c: Call)
    ensures Prepend(c, []) == Extend([], c)
  {
  }

  function Finished(parse: JsonParser, cs: seq<Call>): seq<Block> {
    seq(|cs|, i requires 0 <= i < |cs| => ToolUse(cs[i].id, cs[i].name, FinalInput(parse, NilInput, cs[i].json)))
  }

  function PendingCall(s: State): seq<Call> {
    if s.tool.Some? then [Call(s.tool.value.id, s.tool.value.name, s.json)] else []
  }

  /** Closed calls, the pending one, and the text so far, after the events `es`. */
  ghost predicate PlainState(parse: JsonParser, s: State, es: seq<StreamEvent>, closed: seq<Call>) {
    && Runs(CallsOf(es)) == closed + PendingCall(s)
    && (closed != [] ==> s.tool.Some?)
    && s.msg.content == Finished(parse, closed)
    && (s.tool.Some? ==> s.tool.value.input == NilInput)
    && s.text == DeltaText(es)
    && TextEvents(s.sent) == DeltaText(es)
    && !s.isPTL
  }

  /** The input of a call: what its arguments decode to, or none. */
  lemma CallInputIsDecoded(parse: JsonParser, cs: seq<Call>, i: nat)
    requires i < |cs|
    ensures |Finished(parse, cs)| == |cs|
    ensures var b, c := Finished(parse, cs)[i], cs[i];
      && b.ToolUse? && b.id == c.id && b.name == c.name
      && (c.json != "" && parse(c.json).Some? ==> b.input == parse(c.json).value)
      && (c.json == "" || parse(c.json).None? ==> b.input == NilInput)
  {
  }

  lemma FinishedAppend(parse: JsonParser, cs: seq<Call>, c: Call)
    ensures Finished(parse, cs + [c]) == Finished(parse, cs) + Finished(parse, [c])
  {
  }

  lemma SourceAppend(es: seq<StreamEvent>, e: StreamEvent)
    ensures CallsOf(es + [e]) == CallsOf(es) + (if e.AssistantToolUse? then [Call(e.id, e.name, e.json)] else [])
    ensures DeltaText(es + [e]) == DeltaText(es) + (if e.AssistantText? then e.text else "")
  {
    assert Init(es + [e]) == es;
  }

  /** Closing the pending call moves it to the closed ones. */
  lemma PlainFinalize(parse: JsonParser, s: State, es: seq<StreamEvent>, closed: seq<Call>)
    requires PlainState(parse, s, es, closed) && s.tool.Some?
    ensures var s' := FinalizeTool(parse, s);
      && s'.msg.content == Finished(parse, Runs(CallsOf(es))) && TextEvents(s'.sent) == DeltaText(es)
      && s'.tool.None? && s'.text == s.text && !s'.isPTL
  {
    hide ToolUsesOf, TextOf, TextEvents, ToolEvents, Runs, CallsOf, DeltaText;
    var c := PendingCall(s)[0];
    var input := FinalInput(parse, NilInput, c.json);
    FinishedAppend(parse, closed, c);
    AppendEvent(s.sent, AssistantToolUseEvent(c.id, c.name, input));
  }

  lemma PlainExtend(parse: JsonParser, s: State, es: seq<StreamEvent>, e: StreamEvent, closed: seq<Call>)
    requires PlainState(parse, s, es, closed) && e.AssistantToolUse? && Continues(s, e.id)
    ensures PlainState(parse, s.(json := s.json + e.json), es + [e], closed)
  {
    hide ToolUsesOf, TextOf, TextEvents, Runs, CallsOf, DeltaText, Finished;
    SourceAppend(es, e);
    RunsAppend(CallsOf(es), Call(e.id, e.name, e.json));
    assert Init(closed + PendingCall(s)) == closed;
  }

  lemma PlainOpen(parse: JsonParser, s: State, es: seq<StreamEvent>, e: StreamEvent, closed: seq<Call>)
    requires PlainState(parse, s, es, closed) && e.AssistantToolUse? && !Continues(s, e.id)
    ensures PlainState(parse, OpenCall(FinalizeTool(parse, s), e.id, e.name, e.json), es + [e], Runs(CallsOf(es)))
  {
    hide ToolUsesOf, TextOf, TextEvents, Runs, CallsOf, DeltaText, Finished, FinalizeTool;
    SourceAppend(es, e);
    RunsAppend(CallsOf(es), Call(e.id, e.name, e.json));
    if s.tool.Some? {
      PlainFinalize(parse, s, es, closed);
    } else {
      assert FinalizeTool(parse, s) == s by { FinalizeNothing(parse, s); }
      assert closed + [] == closed;
    }
  }

  lemma PlainToolUse(parse: JsonParser, s: State, es: seq<StreamEvent>, e: StreamEvent, closed: seq<Call>)
    returns (closed': seq<Call>)
    requires PlainState(parse, s, es, closed) && e.AssistantToolUse?
    ensures PlainState(parse, OnToolUse(parse, s, e), es + [e], closed')
  {
    hide ToolUsesOf, TextOf, TextEvents, Runs, CallsOf, DeltaText, Finished, FinalizeTool;
    var s1 := NameResponse(s, e.responseId);
    assert PlainState(parse, s1, es, closed);
    if Continues(s1, e.id) {
      PlainExtend(parse, s1, es, e, closed);
      closed' := closed;
    } else {
      PlainOpen(parse, s1, es, e, closed);
      closed' := Runs(CallsOf(es));
    }
  }

  lemma PlainText(parse: JsonParser, s: State, es: seq<StreamEvent>, e: StreamEvent, closed: seq<Call>)
    requires PlainState(parse, s, es, closed) && IsPlain(e) && !e.AssistantToolUse?
    ensures PlainState(parse, Advance(parse, s, e), es + [e], closed)
  {
    hide ToolUsesOf, TextOf, TextEvents, Runs, CallsOf, DeltaText, Finished, FinalizeTool;
    SourceAppend(es, e);
    assert CallsOf(es) + [] == CallsOf(es) && DeltaText(es) + "" == DeltaText(es);
    if e.AssistantText? {
      AppendEvent(s.sent, AssistantTextEvent(e.text));
    }
  }

  lemma PlainAdvance(parse: JsonParser, s: State, es: seq<StreamEvent>, e: StreamEvent, now: int, closed: seq<Call>)
    returns (closed': seq<Call>)
    requires PlainState(parse, s, es, closed) && IsPlain(e)
    ensures PlainState(parse, Step(parse, s, e, now), es + [e], closed')
  {
    hide PlainState, OnToolUse;
    if e.AssistantToolUse? {
      closed' := PlainToolUse(parse, s, es, e, closed);
    } else {
      PlainText(parse, s, es, e, closed);
      closed' := closed;
    }
  }

  lemma {:induction false} PlainSteps(parse: JsonParser, es: seq<StreamEvent>, now: int) returns (closed: seq<Call>)
    requires PlainStream(es)
    ensures PlainState(parse, Steps(parse, Initial([]), es, now), es, closed)
  {
    if es == [] {
      closed := [];
    } else {
      hide PlainState, Step;
      closed := PlainSteps(parse, Init(es), now);
      assert es == Init(es) + [Last(es)];
      closed := PlainAdvance(parse, Steps(parse, Initial([]), Init(es), now), Init(es), Last(es), now, closed);
    }
  }

  /** What a plain stream leaves: the calls but the last, the text if there is any, the last call. */
  function PlainContent(parse: JsonParser, calls: seq<Call>, text: string): seq<Block> {
    var said := if text == "" then [] else [Block.Text(text)];
    if calls == [] then said else Finished(parse, Init(calls)) + said + Finished(parse, [Last(calls)])
  }

  /** The final flush: text first, then the pending call. */
  lemma PlainFlush(parse: JsonParser, s: State, es: seq<StreamEvent>, closed: seq<Call>)
    requires PlainState(parse, s, es, closed)
    ensures Flush(parse, s).msg.content == PlainContent(parse, Runs(CallsOf(es)), DeltaText(es))
  {
    hide TextEvents, Runs, CallsOf, DeltaText, Finished;
    if s.tool.Some? {
      var c := PendingCall(s)[0];
      FinishedOne(parse, c);
      assert Init(closed + [c]) == closed && Last(closed + [c]) == c;
      assert s.msg.content + [] == s.msg.content;
    } else {
      assert closed + [] == closed;
      assert Finished(parse, []) == [] by { FinishedNone(parse); }
      assert [] + [Block.Text(s.text)] == [Block.Text(s.text)];
    }
  }

  lemma FinishedNone(parse: JsonParser)
    ensures Finished(parse, []) == []
  {
  }

  lemma {:induction false} FinishedFolds(parse: JsonParser, cs: seq<Call>)
    ensures ToolUsesOf(Finished(parse, cs)) == Finished(parse, cs) && TextOf(Finished(parse, cs)) == ""
  {
    if cs != [] {
      hide ToolUsesOf, TextOf, Finished;
      var c := Last(cs);
      FinishedFolds(parse, Init(cs));
      FinishedAppend(parse, Init(cs), c);
      FinishedOne(parse, c);
      assert cs == Init(cs) + [c];
      AppendFolds(Finished(parse, Init(cs)), ToolUse(c.id, c.name, FinalInput(parse, NilInput, c.json)));
    }
  }

  /** Its tool uses are the calls in order, its text the text. */
  lemma PlainContentFolds(parse: JsonParser, calls: seq<Call>, text: string)
    ensures ToolUsesOf(PlainContent(parse, calls, text)) == Finished(parse, calls)
    ensures TextOf(PlainContent(parse, calls, text)) == text
  {
    hide ToolUsesOf, TextOf, Finished;
    var said := if text == "" then [] else [Block.Text(text)];
    assert ToolUsesOf(said) == [] && TextOf(said) == text by { SaidFolds(text); }
    if calls == [] {
      FinishedNone(parse);
    } else {
      var front, c := Finished(parse, Init(calls)), Last(calls);
      FinishedFolds(parse, Init(calls));
      FinishedFolds(parse, [c]);
      ConcatToolUses(front, said);
      ConcatToolUses(front + said, Finished(parse, [c]));
      ConcatText(front, said);
      ConcatText(front + said, Finished(parse, [c]));
      assert calls == Init(calls) + [c];
      FinishedAppend(parse, Init(calls), c);
    }
  }

  lemma SaidFolds(text: string)
    ensures var said := if text == "" then [] else [Block.Text(text)]; ToolUsesOf(said) == [] && TextOf(said) == text
  {
    AppendFolds([], Block.Text(text));
    assert [] + [Block.Text(text)] == [Block.Text(text)];
  }

  lemma FinishedOne(parse: JsonParser, c: Call)
    ensures Finished(parse, [c]) == [ToolUse(c.id, c.name, FinalInput(parse, NilInput, c.json))]
  {
  }

  /**
   On a stream without block events the tool uses received are the maximal runs of equal ids with
   their arguments concatenated, and the text is the concatenation of the deltas, all of it emitted. The
   text stands before the last call and after all others.
   */
  lemma PlainStreamMeaning(parse: JsonParser, es: seq<StreamEvent>, now: int)
    requires PlainStream(es)
    ensures Received(parse, [], es, now).content == PlainContent(parse, Runs(CallsOf(es)), DeltaText(es))
    ensures ToolUsesOf(Received(parse, [], es, now).content) == Finished(parse, Runs(CallsOf(es)))
    ensures TextOf(Received(parse, [], es, now).content) == DeltaText(es)
    ensures TextEvents(Steps(parse, Initial([]), es, now).sent) == DeltaText(es)
  {
    hide ToolUsesOf, TextOf, TextEvents, Runs, CallsOf, DeltaText, Finished, Steps, Flush, PlainContent;
    var closed := PlainSteps(parse, es, now);
    PlainFlush(parse, Steps(parse, Initial([]), es, now), es, closed);
    PlainContentFolds(parse, Runs(CallsOf(es)), DeltaText(es));
  }

  /** Tool-call chunks make one tool use if and only if every later chunk repeats the first id. */
  lemma {:induction false} OneCallIffIdsRepeat(cs: seq<Call>)
    requires cs != []
    ensures |Runs(cs)| == 1 <==> forall i :: 0 <= i < |cs| ==> cs[i].id == cs[0].id
  {
    if |cs| > 1 {
      OneCallIffIdsRepeat(cs[1..]);
      RunsAreMaximal(cs[1..]);
      if forall i :: 0 <= i < |cs| ==> cs[i].id == cs[0].id {
        assert forall i :: 0 <= i < |cs| - 1 ==> cs[1..][i] == cs[i + 1];
        assert cs[1].id == cs[0].id;
      } else {
        var k :| 0 <= k < |cs| && cs[k].id != cs[0].id;
        assert cs[1..][k - 1] == cs[k];
      }
    }
  }

  /**
   A provider that names a call only in its first chunk splits it: the rest of the arguments becomes
   a second tool use with no id and no name.
   */
  lemma NamelessChunkSplitsCall(parse: JsonParser, responseId: string, id: string, name: string,
                                json0: string, json1: string, now: int)
    requires id != ""
    ensures var es := [AssistantToolUse(responseId, id, name, json0), AssistantToolUse(responseId, "", "", json1)];
      ToolUsesOf(Received(parse, [], es, now).content) ==
        [ToolUse(id, name, FinalInput(parse, NilInput, json0)), ToolUse("", "", FinalInput(parse, NilInput, json1))]
  {
    hide ToolUsesOf, TextOf, Received, PlainContent, DeltaText, TextEvents, Steps;
    var e0, e1 := AssistantToolUse(responseId, id, name, json0), AssistantToolUse(responseId, "", "", json1);
    PlainStreamMeaning(parse, [e0, e1], now);
    assert [e0, e1] == ([] + [e0]) + [e1];
    SourceAppend([], e0);
    SourceAppend([] + [e0], e1);
    var c0, c1 := Call(id, name, json0), Call("", "", json1);
    assert CallsOf([e0, e1]) == ([] + [c0]) + [c1];
    RunsAppend([], c0);
    RunsAppend([] + [c0], c1);
    assert Runs([]) == [] && Extend([], c0) == [c0] && Extend([c0], c1) == [c0, c1];
  }
}
