/** What the session keeps, turn after turn, whatever the query sends and whoever interrupts. */
module EngineProofs {
  import opened Messages
  import opened QueryEvents
  import opened Engine
  import opened Pairing
  import opened ParserProofs

  // ---- The session replays the query's events ----

  function QueryEventsOf(inputs: seq<Input>): seq<Event> {
    if inputs == [] then []
    else QueryEventsOf(Init(inputs)) + (if Last(inputs).FromQuery? then [Last(inputs).event] else [])
  }

  lemma HandleApplies(s: State, e: Event)
    ensures Handle(s, e).messages == ApplyEvent(s.messages, e)
  {
    hide Record, Accumulate, OutcomeOf;
  }

  lemma VisibleApply(a: seq<Message>, b: seq<Message>, e: Event)
    requires Visible(a) == Visible(b)
    ensures Visible(ApplyEvent(a, e)) == Visible(ApplyEvent(b, e))
  {
    hide Visible;
    if e.UsageEvent? || e.UserMessageEvent? {
      VisibleConcat(a, [e.message]);
      VisibleConcat(b, [e.message]);
    }
  }

  /** Notices aside, the session's transcript is the replay of the query events it has received. */
  lemma {:induction false} SessionReplays(s: State, inputs: seq<Input>)
    ensures Visible(ServeAll(s, inputs).messages) == Visible(Replay(s.messages, QueryEventsOf(inputs)))
  {
    hide Handle;
    if inputs != [] {
      SessionReplays(s, Init(inputs));
      var before, i := ServeAll(s, Init(inputs)), Last(inputs);
      match i
      case FromQuery(e) =>
        HandleApplies(before, e);
        ReplayAppend(s.messages, QueryEventsOf(Init(inputs)), e);
        VisibleApply(before.messages, Replay(s.messages, QueryEventsOf(Init(inputs))), e);
      case Notify(text, now) =>
        VisibleConcat(before.messages, [NoticeMessage(text, now)]);
        assert Visible([NoticeMessage(text, now)]) == [];
        assert QueryEventsOf(inputs) == QueryEventsOf(Init(inputs));
      case AddUsage(_) =>
        assert QueryEventsOf(inputs) == QueryEventsOf(Init(inputs));
    }
  }

  // ---- No text is lost ----

  function DeliveredText(out: seq<EngineEvent>): string {
    if out == [] then ""
    else DeliveredText(Init(out)) + (if Last(out).TextDelta? then Last(out).text else "")
  }

  lemma SendText(s: State, e: EngineEvent)
    ensures DeliveredText(Send(s, e).out) == DeliveredText(s.out) + (if e.TextDelta? then e.text else "")
  {
    assert Init(s.out + [e]) == s.out;
  }

  lemma FlushKeepsText(s: State)
    ensures DeliveredText(FlushText(s).out) == DeliveredText(s.out) + s.textBuffer
    ensures FlushText(s).textBuffer == ""
  {
    SendText(s, TextDelta(s.textBuffer));
  }

  /** All text received so far: delivered, then buffered. */
  function TextSoFar(s: State): string {
    DeliveredText(s.out) + s.textBuffer
  }

  lemma FlushThenSend(s: State, e: EngineEvent)
    requires !e.TextDelta?
    ensures TextSoFar(Send(FlushText(s), e)) == TextSoFar(s) && TextSoFar(FlushText(s)) == TextSoFar(s)
  {
    hide DeliveredText, FlushText;
    FlushKeepsText(s);
    SendText(FlushText(s), e);
    assert TextSoFar(s) + "" == TextSoFar(s);
  }

  lemma UsageKeepsText(s: State, m: Message)
    ensures TextSoFar(Handle(s, UsageEvent(m))) == TextSoFar(s)
  {
    hide DeliveredText, FlushText, Accumulate;
    var s1 := s.(messages := s.messages + [m], totalUsage := Accumulate(s.totalUsage, m.usage));
    FlushThenSend(s1, UsageOut(if m.usage.Some? then m.usage.value else ZERO_USAGE));
    assert TextSoFar(s1) == TextSoFar(s);
  }

  lemma UserMessageKeepsText(s: State, m: Message)
    ensures TextSoFar(Handle(s, UserMessageEvent(m))) == TextSoFar(s)
  {
    hide DeliveredText;
    SendText(s.(messages := s.messages + [m]), UserMessageOut(m));
    assert DeliveredText(s.out) + "" == DeliveredText(s.out);
  }

  lemma OtherKeepsText(s: State, e: Event)
    requires e.AssistantToolUseEvent? || e.CompactionResultEvent? || e.ResultEvent? || e.ErrorEvent?
    ensures TextSoFar(Handle(s, e)) == TextSoFar(s)
  {
    hide DeliveredText, FlushText, Record;
    match e
    case AssistantToolUseEvent(id, name, input) =>
      FlushThenSend(s.(recentTools := Record(s.recentTools, name),
                       workflowCompleted := s.workflowCompleted || name == WORKFLOW_TOOL), ToolUseOut(id, name, input));
    case CompactionResultEvent(ms) => FlushThenSend(s.(messages := ms), CompactedOut(|ms|));
    case ResultEvent(r) => FlushThenSend(s.(lastResult := r, hasResult := true), OutcomeOf(r));
    case ErrorEvent(error) =>
      FlushThenSend(s.(lastResult := NO_RESULT.(error := error), hasResult := true), TurnError(error));
  }

  lemma HandleText(s: State, e: Event)
    ensures TextSoFar(Handle(s, e)) == TextSoFar(s) + (if e.AssistantTextEvent? then e.text else "")
  {
    hide DeliveredText, FlushText, Record;
    match e
    case UsageEvent(m) => UsageKeepsText(s, m);
    case UserMessageEvent(m) => UserMessageKeepsText(s, m);
    case AssistantTextEvent(text) =>
      assert DeliveredText(s.out) + (s.textBuffer + text) == (DeliveredText(s.out) + s.textBuffer) + text;
    case _ => OtherKeepsText(s, e);
  }

  /** In any interleaving, the text delivered and buffered is exactly the text the query has sent. */
  lemma {:induction false} TextIsConserved(s: State, inputs: seq<Input>)
    ensures TextSoFar(ServeAll(s, inputs)) == TextSoFar(s) + TextEvents(QueryEventsOf(inputs))
  {
    hide Handle, TextSoFar;
    if inputs == [] {
      assert TextSoFar(s) + "" == TextSoFar(s);
    } else {
      TextIsConserved(s, Init(inputs));
      var before, i := ServeAll(s, Init(inputs)), Last(inputs);
      match i
      case FromQuery(e) =>
        HandleText(before, e);
        AppendEvent(QueryEventsOf(Init(inputs)), e);
      case Notify(text, now) =>
        NoticeKeepsText(before, text, now);
        assert QueryEventsOf(inputs) == QueryEventsOf(Init(inputs));
      case AddUsage(u) =>
        UsageDeltaKeepsText(before, u);
        assert QueryEventsOf(inputs) == QueryEventsOf(Init(inputs));
    }
  }

  lemma NoticeKeepsText(s: State, text: string, now: int)
    ensures TextSoFar(Serve(s, Notify(text, now))) == TextSoFar(s)
  {
    hide DeliveredText;
    SendText(s.(messages := s.messages + [NoticeMessage(text, now)]), Notification(text));
    assert DeliveredText(s.out) + "" == DeliveredText(s.out);
  }

  lemma UsageDeltaKeepsText(s: State, u: Usage)
    ensures TextSoFar(Serve(s, AddUsage(u))) == TextSoFar(s)
  {
  }

  /** At the end of a turn nothing is left in the buffer: every delta has been delivered, in order. */
  lemma TurnDeliversAllText(s: State, prompt: string, now: int, inputs: seq<Input>)
    requires s.textBuffer == ""
    ensures var t := TakeTurn(s, prompt, now, inputs);
      t.textBuffer == "" && DeliveredText(t.out) == DeliveredText(s.out) + TextEvents(QueryEventsOf(inputs))
  {
    hide ServeAll, DeliveredText, FlushText, TextEvents, QueryEventsOf, Repair;
    var begun := BeginTurn(s, prompt, now);
    TextIsConserved(begun, inputs);
    FlushKeepsText(ServeAll(begun, inputs));
    assert DeliveredText(s.out) + "" == DeliveredText(s.out);
  }

  // ---- Usage is conserved ----

  function UsageDeltas(inputs: seq<Input>): seq<Usage> {
    if inputs == [] then []
    else
      UsageDeltas(Init(inputs)) +
      match Last(inputs)
      case AddUsage(u) => [u]
      case FromQuery(UsageEvent(m)) => if m.usage.Some? then [m.usage.value] else []
      case _ => []
  }

  /** The total the session keeps: absent if nothing was reported, else the component-wise sum. */
  function TotalOf(us: seq<Usage>): Option<Usage> {
    if us == [] then None else Some(SumUsages(us))
  }

  lemma TotalAppend(us: seq<Usage>, u: Option<Usage>)
    ensures TotalOf(us + (if u.Some? then [u.value] else [])) == Accumulate(TotalOf(us), u)
  {
    if u.Some? {
      assert Init(us + [u.value]) == us;
    } else {
      assert us + [] == us;
    }
  }

  lemma HandleUsage(s: State, e: Event)
    ensures Handle(s, e).totalUsage == Accumulate(s.totalUsage, if e.UsageEvent? then e.message.usage else None)
  {
    hide Record, OutcomeOf;
  }

  /** The total is the sum of every delta reported by the query or from outside, in any interleaving. */
  lemma {:induction false} UsageIsConserved(s: State, before: seq<Usage>, inputs: seq<Input>)
    requires s.totalUsage == TotalOf(before)
    ensures ServeAll(s, inputs).totalUsage == TotalOf(before + UsageDeltas(inputs))
  {
    hide Handle, Accumulate, TotalOf;
    if inputs == [] {
      assert before + [] == before;
    } else {
      UsageIsConserved(s, before, Init(inputs));
      var mid, i := before + UsageDeltas(Init(inputs)), Last(inputs);
      var delta := match i
        case AddUsage(u) => Some(u)
        case FromQuery(e) => if e.UsageEvent? then e.message.usage else None
        case _ => None;
      TotalAppend(mid, delta);
      assert before + UsageDeltas(inputs) == mid + (if delta.Some? then [delta.value] else []);
      assert Accumulate(TotalOf(mid), None) == TotalOf(mid) by { AccumulateNothing(TotalOf(mid)); }
      if i.FromQuery? {
        HandleUsage(ServeAll(s, Init(inputs)), i.event);
      }
    }
  }

  lemma AccumulateNothing(total: Option<Usage>)
    ensures Accumulate(total, None) == total
  {
  }

  // ---- Recent tools ----

  /** The distinct names, each at its last occurrence. */
  function Distinct(names: seq<string>): seq<string> {
    if names == [] then []
    else if Last(names) == "" then Distinct(Init(names))
    else RemoveFirst(Distinct(Init(names)), Last(names)) + [Last(names)]
  }

  /** The names of the tools the query announced, in order. */
  function ToolNames(es: seq<Event>): seq<string> {
    if es == [] then []
    else ToolNames(Init(es)) + (if Last(es).AssistantToolUseEvent? then [Last(es).name] else [])
  }

  lemma {:induction false} DistinctIsDistinct(names: seq<string>)
    ensures NoDuplicates(Distinct(names))
    ensures forall n :: n in Distinct(names) <==> n in names && n != ""
  {
    if names != [] {
      DistinctIsDistinct(Init(names));
      var d, last := Distinct(Init(names)), Last(names);
      assert names == Init(names) + [last];
      RemoveFirstNoDuplicates(d, last);
      forall n ensures n in RemoveFirst(d, last) <==> n in d && n != last {
        RemoveFirstMembers(d, last, n);
      }
    }
  }

  lemma LastFewSuffix(a: seq<string>, b: seq<string>)
    requires |b| >= RECENT_LIMIT
    ensures LastFew(a + b) == LastFew(b)
  {
    var n := |a + b| - RECENT_LIMIT;
    assert (a + b)[n..] == b[n - |a|..];
    assert b[0..] == b && (a + b)[|a|..] == b;
    assert a == [] ==> a + b == b;
  }

  lemma LastFewStep(d: seq<string>, name: string)
    requires NoDuplicates(d)
    ensures LastFew(RemoveFirst(LastFew(d), name) + [name]) == LastFew(RemoveFirst(d, name) + [name])
  {
    if |d| > RECENT_LIMIT {
      hide LastFew, RemoveFirst;
      var cut := |d| - RECENT_LIMIT;
      var early, few := d[..cut], d[cut..];
      assert d == early + few;
      assert LastFew(d) == few by { LastFewSuffix(early, few); LastFewAll(few); }
      RemoveFirstConcat(early, few, name);
      assert NoDuplicates(few);
      RemoveFirstNoDuplicates(few, name);
      if name in early {
        assert name !in few;
        RemoveFirstAbsent(few, name);
        LastFewSuffix(RemoveFirst(early, name), few + [name]);
        assert RemoveFirst(early, name) + few + [name] == RemoveFirst(early, name) + (few + [name]);
      } else {
        LastFewSuffix(early, RemoveFirst(few, name) + [name]);
        assert early + RemoveFirst(few, name) + [name] == early + (RemoveFirst(few, name) + [name]);
      }
    }
  }

  lemma LastFewAll(s: seq<string>)
    requires |s| == RECENT_LIMIT
    ensures LastFew(s) == s
  {
  }

  lemma {:induction false} RemoveFirstAbsent(s: seq<string>, x: string)
    requires x !in s
    ensures RemoveFirst(s, x) == s
  {
    if s != [] {
      RemoveFirstAbsent(s[1..], x);
    }
  }

  lemma RecordOne(names: seq<string>, name: string)
    ensures Record(LastFew(Distinct(names)), name) == LastFew(Distinct(names + [name]))
  {
    assert Init(names + [name]) == names;
    DistinctIsDistinct(names);
    if name != "" {
      LastFewStep(Distinct(names), name);
    }
  }

  lemma ServeRecords(s: State, i: Input)
    ensures Serve(s, i).recentTools ==
      if i.FromQuery? && i.event.AssistantToolUseEvent? then Record(s.recentTools, i.event.name) else s.recentTools
  {
    hide Record, Accumulate, OutcomeOf;
  }

  /** The last position of a name. */
  function LastAt(names: seq<string>, name: string): int {
    if names == [] then -1 else if Last(names) == name then |names| - 1 else LastAt(Init(names), name)
  }

  /** The names stand in the order of their last occurrences. */
  ghost predicate ByLastUse(names: seq<string>, d: seq<string>) {
    forall i, j :: 0 <= i < j < |d| ==> LastAt(names, d[i]) < LastAt(names, d[j])
  }

  lemma {:induction false} RemoveFirstKeepsOrder(names: seq<string>, d: seq<string>, x: string)
    requires ByLastUse(names, d)
    ensures ByLastUse(names, RemoveFirst(d, x))
    ensures forall i :: 0 <= i < |RemoveFirst(d, x)| ==> RemoveFirst(d, x)[i] in d
  {
    hide LastAt;
    if d != [] && d[0] != x {
      assert ByLastUse(names, d[1..]);
      RemoveFirstKeepsOrder(names, d[1..], x);
      var r := RemoveFirst(d[1..], x);
      forall i, j | 0 <= i < j < |RemoveFirst(d, x)|
        ensures LastAt(names, RemoveFirst(d, x)[i]) < LastAt(names, RemoveFirst(d, x)[j])
      {
        if i == 0 {
          var k :| 0 <= k < |d[1..]| && d[1..][k] == r[j - 1];
          assert d[k + 1] == r[j - 1];
        }
      }
    }
  }

  lemma LastAtRange(names: seq<string>, name: string)
    ensures -1 <= LastAt(names, name) < |names|
  {
  }

  /** The distinct names are listed in the order in which each was last used. */
  lemma {:induction false} DistinctInOrder(names: seq<string>)
    ensures ByLastUse(names, Distinct(names))
  {
    if names != [] {
      var init, last := Init(names), Last(names);
      var d := Distinct(init);
      DistinctInOrder(init);
      DistinctIsDistinct(init);
      RemoveFirstKeepsOrder(init, d, last);
      RemoveFirstNoDuplicates(d, last);
      var r := if last == "" then d else RemoveFirst(d, last);
      forall i | 0 <= i < |r| ensures r[i] != last && LastAt(names, r[i]) == LastAt(init, r[i]) < |names| - 1 {
        LastAtRange(init, r[i]);
      }
    }
  }

  lemma LastFewMeaning(d: seq<string>)
    ensures LastFew(d) == d[if |d| > 5 then |d| - 5 else 0..]
  {
  }

  /**
   Whatever arrives in between, the short list kept is exactly the last five distinct names, most recent
   last, of all the tools announced before and during the stretch.
   */
  lemma {:induction false} RecentToolsAreLastDistinct(s: State, before: seq<string>, inputs: seq<Input>)
    requires s.recentTools == LastFew(Distinct(before))
    ensures ServeAll(s, inputs).recentTools == LastFew(Distinct(before + ToolNames(QueryEventsOf(inputs))))
  {
    hide Record, LastFew, Distinct;
    if inputs == [] {
      assert before + [] == before;
    } else {
      RecentToolsAreLastDistinct(s, before, Init(inputs));
      var events, i := QueryEventsOf(Init(inputs)), Last(inputs);
      ServeRecords(ServeAll(s, Init(inputs)), i);
      assert ToolNames(events) + [] == ToolNames(events) && events + [] == events;
      if i.FromQuery? {
        assert Init(events + [i.event]) == events;
        if i.event.AssistantToolUseEvent? {
          RecordOne(before + ToolNames(events), i.event.name);
          assert before + ToolNames(events) + [i.event.name] == before + (ToolNames(events) + [i.event.name]);
        }
      }
    }
  }

  /**
   The list holds the last five of the distinct non-empty names of all tools announced, each once, in the order in
   which they were last used.
   */
  lemma RecentToolsMeaning(s: State, before: seq<string>, inputs: seq<Input>)
    requires s.recentTools == LastFew(Distinct(before))
    ensures var names := before + ToolNames(QueryEventsOf(inputs));
      var d := Distinct(names);
      && ServeAll(s, inputs).recentTools == d[if |d| > 5 then |d| - 5 else 0..]
      && NoDuplicates(d) && (forall n :: n in d <==> n in names && n != "") && ByLastUse(names, d)
  {
    hide ServeAll, LastFew, Distinct, ToolNames, QueryEventsOf, NoDuplicates, ByLastUse;
    var names := before + ToolNames(QueryEventsOf(inputs));
    RecentToolsAreLastDistinct(s, before, inputs);
    DistinctIsDistinct(names);
    DistinctInOrder(names);
    LastFewMeaning(Distinct(names));
  }
}
