/** What a stream reports besides its content: usage, response id and stop reason. */
module ParserUsage {
  import opened Messages
  import opened QueryEvents
  import opened StreamParser
  import opened ParserProofs

  // ---- The last value that says something ----

  /** `v` is the last non-zero value of the list, or zero if there is none. */
  ghost predicate IsLastNonZero(vs: seq<int>, v: int) {
    if v == 0 then forall k :: 0 <= k < |vs| ==> vs[k] == 0
    else exists k :: 0 <= k < |vs| && vs[k] == v && forall j :: k < j < |vs| ==> vs[j] == 0
  }

  lemma LastNonZeroAppend(vs: seq<int>, v: int, more: int)
    requires IsLastNonZero(vs, v)
    ensures IsLastNonZero(vs + [more], if more != 0 then more else v)
  {
    var vs' := vs + [more];
    if more != 0 {
      assert vs'[|vs|] == more;
    } else if v != 0 {
      var k :| 0 <= k < |vs| && vs[k] == v && forall j :: k < j < |vs| ==> vs[j] == 0;
      assert vs'[k] == v;
    }
  }

  /** `t` is the last non-empty text of the list, or empty if there is none. */
  ghost predicate IsLastNonEmpty(ts: seq<string>, t: string) {
    if t == "" then forall k :: 0 <= k < |ts| ==> ts[k] == ""
    else exists k :: 0 <= k < |ts| && ts[k] == t && forall j :: k < j < |ts| ==> ts[j] == ""
  }

  ghost predicate IsFirstNonEmpty(ts: seq<string>, t: string) {
    if t == "" then forall k :: 0 <= k < |ts| ==> ts[k] == ""
    else exists k :: 0 <= k < |ts| && ts[k] == t && forall j :: 0 <= j < k ==> ts[j] == ""
  }

  lemma LastNonEmptyAppend(ts: seq<string>, t: string, more: string)
    requires IsLastNonEmpty(ts, t)
    ensures IsLastNonEmpty(ts + [more], if more != "" then more else t)
  {
    var ts' := ts + [more];
    if more != "" {
      assert ts'[|ts|] == more;
    } else if t != "" {
      var k :| 0 <= k < |ts| && ts[k] == t && forall j :: k < j < |ts| ==> ts[j] == "";
      assert ts'[k] == t;
    }
  }

  lemma FirstNonEmptyAppend(ts: seq<string>, t: string, more: string)
    requires IsFirstNonEmpty(ts, t)
    ensures IsFirstNonEmpty(ts + [more], if t != "" then t else more)
  {
    var ts' := ts + [more];
    if t != "" {
      var k :| 0 <= k < |ts| && ts[k] == t && forall j :: 0 <= j < k ==> ts[j] == "";
      assert ts'[k] == t;
    } else if more != "" {
      assert ts'[|ts|] == more;
    }
  }

  // ---- Usage ----

  /** What one event reports: the unified record, or legacy counters if one of them is positive. */
  function ReportOf(e: StreamEvent): Option<Usage> {
    match e
    case MessageStart(_, wire) => Reported(wire)
    case UsageReport(wire) => Reported(wire)
    case MessageDelta(_, wire) => Reported(wire)
    case _ => None
  }

  function Reported(w: WireUsage): Option<Usage> {
    match w.usage
    case Some(u) => Some(u)
    case None => if w.prompt <= 0 && w.completion <= 0 && w.total <= 0 then None
                 else Some(Usage(w.prompt, w.completion, 0, 0))
  }

  /** The usage reports of a stream, in order. */
  function ReportsOf(es: seq<StreamEvent>): seq<Usage> {
    if es == [] then []
    else ReportsOf(Init(es)) + (if ReportOf(Last(es)).Some? then [ReportOf(Last(es)).value] else [])
  }

  function Inputs(us: seq<Usage>): seq<int> { seq(|us|, i requires 0 <= i < |us| => us[i].inputTokens) }
  function Outputs(us: seq<Usage>): seq<int> { seq(|us|, i requires 0 <= i < |us| => us[i].outputTokens) }
  function Creations(us: seq<Usage>): seq<int> { seq(|us|, i requires 0 <= i < |us| => us[i].cacheCreation) }
  function Reads(us: seq<Usage>): seq<int> { seq(|us|, i requires 0 <= i < |us| => us[i].cacheRead) }

  /** Each field is that of the last report in which it is not zero. */
  ghost predicate LastOfEach(us: seq<Usage>, u: Usage) {
    && IsLastNonZero(Inputs(us), u.inputTokens) && IsLastNonZero(Outputs(us), u.outputTokens)
    && IsLastNonZero(Creations(us), u.cacheCreation) && IsLastNonZero(Reads(us), u.cacheRead)
  }

  ghost predicate SumsUp(us: seq<Usage>, usage: Option<Usage>) {
    (usage.Some? <==> us != []) && (usage.Some? ==> LastOfEach(us, usage.value))
  }

  lemma FieldsAppend(us: seq<Usage>, u: Usage)
    ensures Inputs(us + [u]) == Inputs(us) + [u.inputTokens] && Outputs(us + [u]) == Outputs(us) + [u.outputTokens]
    ensures Creations(us + [u]) == Creations(us) + [u.cacheCreation] && Reads(us + [u]) == Reads(us) + [u.cacheRead]
  {
  }

  lemma OneReport(u: Usage)
    ensures LastOfEach([u], u)
  {
    assert Inputs([u])[0] == u.inputTokens && Outputs([u])[0] == u.outputTokens;
    assert Creations([u])[0] == u.cacheCreation && Reads([u])[0] == u.cacheRead;
  }

  lemma MergeSumsUp(us: seq<Usage>, usage: Option<Usage>, u: Usage)
    requires SumsUp(us, usage)
    ensures SumsUp(us + [u], Merged(usage, Some(u)))
  {
    if usage.None? {
      OneReport(u);
      assert us + [u] == [u];
    } else {
      hide IsLastNonZero, Inputs, Outputs, Creations, Reads;
      FieldsAppend(us, u);
      LastNonZeroAppend(Inputs(us), usage.value.inputTokens, u.inputTokens);
      LastNonZeroAppend(Outputs(us), usage.value.outputTokens, u.outputTokens);
      LastNonZeroAppend(Creations(us), usage.value.cacheCreation, u.cacheCreation);
      LastNonZeroAppend(Reads(us), usage.value.cacheRead, u.cacheRead);
    }
  }

  lemma WireReports(w: WireUsage)
    ensures WireToUsage(w) == Reported(w)
  {
  }

  /** One event changes the usage, the response id and the stop reason as follows. */
  lemma StepReports(parse: JsonParser, s: State, e: StreamEvent, now: int)
    ensures var s' := Step(parse, s, e, now);
      && s'.usage == Merged(s.usage, ReportOf(e))
      && s'.stopReason == (if e.MessageDelta? && e.stopReason != "" then e.stopReason else s.stopReason)
      && s'.responseId == (if e.MessageStart? && e.responseId != "" then e.responseId
                           else if e.AssistantToolUse? && s.responseId == "" then e.responseId else s.responseId)
  {
    hide Merged, Reported, WireToUsage, PromptTooLongMessage, IsPromptTooLong, FinalInput, OnBlockStart, OnBlockDelta,
         OnText, OnToolUse, OnBlockStop;
    MergeNothing(s.usage);
    match e
    case MessageStart(_, wire) => WireReports(wire);
    case UsageReport(wire) => WireReports(wire);
    case MessageDelta(_, wire) => WireReports(wire);
    case BlockStart(_, _, _, _, _, _, _) => StartReportsNothing(s, e);
    case AssistantToolUse(_, _, _, _) => ToolUseReportsNothing(parse, s, e);
    case BlockDelta(_, _, _, _) => DeltaReportsNothing(s, e);
    case AssistantText(text) => TextReportsNothing(s, text);
    case BlockStop => StopReportsNothing(parse, s);
    case _ =>
  }

  predicate SameReports(s: State, s': State) {
    s'.usage == s.usage && s'.stopReason == s.stopReason && s'.responseId == s.responseId
  }

  lemma StartReportsNothing(s: State, e: StreamEvent)
    requires e.BlockStart?
    ensures SameReports(s, OnBlockStart(s, e))
  {
  }

  lemma DeltaReportsNothing(s: State, e: StreamEvent)
    requires e.BlockDelta?
    ensures SameReports(s, OnBlockDelta(s, e))
  {
  }

  lemma TextReportsNothing(s: State, text: string)
    ensures SameReports(s, OnText(s, text))
  {
  }

  lemma StopReportsNothing(parse: JsonParser, s: State)
    ensures SameReports(s, OnBlockStop(parse, s))
  {
    hide FinalInput;
  }

  lemma ToolUseReportsNothing(parse: JsonParser, s: State, e: StreamEvent)
    requires e.AssistantToolUse?
    ensures var s' := OnToolUse(parse, s, e);
      && s'.usage == s.usage && s'.stopReason == s.stopReason
      && s'.responseId == (if s.responseId == "" then e.responseId else s.responseId)
  {
    hide FinalInput;
  }

  /**
   Over a whole stream, whatever came before: usage is present exactly if some event reports it, and each of
   its fields is the value of the last report in which that field is not zero, or zero.
   */
  lemma {:induction false} UsageIsLastReported(parse: JsonParser, sent: seq<Event>, es: seq<StreamEvent>, now: int)
    ensures SumsUp(ReportsOf(es), Steps(parse, Initial(sent), es, now).usage)
  {
    hide Step, SumsUp, Merged, ReportOf;
    if es == [] {
      assert SumsUp([], None) by { NothingReported(); }
    } else {
      var before := Steps(parse, Initial(sent), Init(es), now);
      UsageIsLastReported(parse, sent, Init(es), now);
      StepReports(parse, before, Last(es), now);
      match ReportOf(Last(es))
      case Some(u) => MergeSumsUp(ReportsOf(Init(es)), before.usage, u);
      case None =>
        MergeNothing(before.usage);
        assert ReportsOf(es) == ReportsOf(Init(es));
    }
  }

  lemma NothingReported()
    ensures SumsUp([], None)
  {
  }

  lemma MergeNothing(usage: Option<Usage>)
    ensures Merged(usage, None) == usage
  {
  }

  // ---- Response id and stop reason ----

  function StopReasons(es: seq<StreamEvent>): seq<string> {
    seq(|es|, i requires 0 <= i < |es| => if es[i].MessageDelta? then es[i].stopReason else "")
  }

  function StartIds(es: seq<StreamEvent>): seq<string> {
    seq(|es|, i requires 0 <= i < |es| => if es[i].MessageStart? then es[i].responseId else "")
  }

  function ChunkIds(es: seq<StreamEvent>): seq<string> {
    seq(|es|, i requires 0 <= i < |es| => if es[i].AssistantToolUse? then es[i].responseId else "")
  }

  /** The last opening event names the response; where none does, the first tool-call chunk that can. */
  ghost predicate NamesResponse(es: seq<StreamEvent>, id: string) {
    if forall k :: 0 <= k < |es| ==> StartIds(es)[k] == "" then IsFirstNonEmpty(ChunkIds(es), id)
    else id != "" && IsLastNonEmpty(StartIds(es), id)
  }

  lemma {:induction false} StopReasonIsLast(parse: JsonParser, sent: seq<Event>, es: seq<StreamEvent>, now: int)
    ensures IsLastNonEmpty(StopReasons(es), Steps(parse, Initial(sent), es, now).stopReason)
  {
    hide Step;
    if es != [] {
      hide IsLastNonEmpty;
      var before, e := Steps(parse, Initial(sent), Init(es), now), Last(es);
      StopReasonIsLast(parse, sent, Init(es), now);
      StepReports(parse, before, e, now);
      var more := if e.MessageDelta? then e.stopReason else "";
      LastNonEmptyAppend(StopReasons(Init(es)), before.stopReason, more);
      assert StopReasons(es) == StopReasons(Init(es)) + [more];
    }
  }

  lemma NamesAppend(es: seq<StreamEvent>, id: string, e: StreamEvent)
    requires NamesResponse(es, id)
    ensures NamesResponse(es + [e],
              if e.MessageStart? && e.responseId != "" then e.responseId
              else if e.AssistantToolUse? && id == "" then e.responseId else id)
  {
    hide IsFirstNonEmpty, IsLastNonEmpty;
    var start := if e.MessageStart? then e.responseId else "";
    var chunk := if e.AssistantToolUse? then e.responseId else "";
    assert StartIds(es + [e]) == StartIds(es) + [start] && ChunkIds(es + [e]) == ChunkIds(es) + [chunk];
    if forall k :: 0 <= k < |es| ==> StartIds(es)[k] == "" {
      FirstNonEmptyAppend(ChunkIds(es), id, chunk);
      assert IsLastNonEmpty(StartIds(es), "") by { AllEmpty(StartIds(es)); }
      LastNonEmptyAppend(StartIds(es), "", start);
      if start != "" {
        assert StartIds(es + [e])[|es|] != "";
      }
    } else {
      var k :| 0 <= k < |es| && StartIds(es)[k] != "";
      assert StartIds(es + [e])[k] != "";
      LastNonEmptyAppend(StartIds(es), id, start);
    }
  }

  lemma AllEmpty(ts: seq<string>)
    requires forall k :: 0 <= k < |ts| ==> ts[k] == ""
    ensures IsLastNonEmpty(ts, "")
  {
  }

  lemma {:induction false} ResponseIsNamed(parse: JsonParser, sent: seq<Event>, es: seq<StreamEvent>, now: int)
    ensures NamesResponse(es, Steps(parse, Initial(sent), es, now).responseId)
  {
    hide Step;
    if es != [] {
      hide NamesResponse;
      var before := Steps(parse, Initial(sent), Init(es), now);
      ResponseIsNamed(parse, sent, Init(es), now);
      StepReports(parse, before, Last(es), now);
      NamesAppend(Init(es), before.responseId, Last(es));
      assert Init(es) + [Last(es)] == es;
    }
  }

  lemma FlushKeepsReports(parse: JsonParser, s: State)
    ensures var f := Flush(parse, s);
      f.usage == s.usage && f.responseId == s.responseId && f.stopReason == s.stopReason
  {
  }

  /** The message of a whole stream carries the usage and the response id so reported, and the current time. */
  lemma ReceivedReports(parse: JsonParser, base: seq<Event>, es: seq<StreamEvent>, now: int)
    ensures var m := Received(parse, base, es, now);
      SumsUp(ReportsOf(es), m.usage) && NamesResponse(es, m.responseId) && m.timestamp == now
  {
    hide Steps, Flush, SumsUp, NamesResponse;
    UsageIsLastReported(parse, base, es, now);
    ResponseIsNamed(parse, base, es, now);
    FlushKeepsReports(parse, Steps(parse, Initial(base), es, now));
  }
}
