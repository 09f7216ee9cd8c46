/** Whole sessions: the session and the query loop together keep every transcript well formed. */
module SessionSafety {
  import opened Messages
  import opened QueryEvents
  import StreamParser
  import opened CompactOptions
  import opened Engine
  import opened EngineProofs
  import opened Pairing
  import QueryLoop
  import QueryProofs
  import QuerySafety
  import Microcompact
  import SessionMemoryCompact

  // ---- Starting a turn ----

  /** Adding the prompt, merged or appended, neither breaks nor mends the pairing, and uses no tool. */
  lemma PromptKeepsPaired(ms: seq<Message>, prompt: string, now: int)
    ensures Paired(AddPrompt(ms, prompt, now)) <==> Paired(ms)
    ensures UniqueIds(AddPrompt(ms, prompt, now)) <==> UniqueIds(ms)
  {
    hide UseIds, ResultIds, UniqueIds, FreshIn;
    if ms != [] && Last(ms).role.User? {
      AppendFolds(Last(ms).content, Block.Text(prompt));
      var m := Last(ms).Add(Block.Text(prompt));
      assert UseIds(m.content) == UseIds(Last(ms).content) && ResultIds(m.content) == ResultIds(Last(ms).content);
      ScanAppend(SETTLED, Init(ms), m);
      UniqueChange(Init(ms), Last(ms), m);
      assert ms == Init(ms) + [Last(ms)];
    } else {
      var m := NewMessage(User, now).Add(Block.Text(prompt));
      SessionMemoryCompact.TextMessageIds(m);
      ScanAppend(SETTLED, ms, m);
      UniqueAppendNone(ms, m);
    }
  }

  /** Only the ids of the uses matter for uniqueness. */
  lemma UniqueChange(ms: seq<Message>, m: Message, m': Message)
    requires m.role == m'.role && UseIds(m.content) == UseIds(m'.content)
    ensures UniqueIds(ms + [m]) <==> UniqueIds(ms + [m'])
  {
    hide UseIds, FreshIn, UniqueIds;
    if UniqueIds(ms + [m]) {
      UniqueChangeOne(ms, m, m');
    }
    if UniqueIds(ms + [m']) {
      UniqueChangeOne(ms, m', m);
    }
  }

  lemma UniqueChangeOne(ms: seq<Message>, m: Message, m': Message)
    requires m.role == m'.role && UseIds(m.content) == UseIds(m'.content) && UniqueIds(ms + [m])
    ensures UniqueIds(ms + [m'])
  {
    hide UseIds;
    assert Init(ms + [m]) == ms;
    UniqueInit(ms + [m]);
    UniqueAppend(ms, m');
  }

  /** A message without uses leaves uniqueness as it is. */
  lemma UniqueAppendNone(ms: seq<Message>, m: Message)
    requires UseIds(m.content) == []
    ensures UniqueIds(ms + [m]) <==> UniqueIds(ms)
  {
    hide UseIds, UniqueIds;
    assert Init(ms + [m]) == ms;
    if UniqueIds(ms + [m]) {
      UniqueInit(ms + [m]);
    }
    if UniqueIds(ms) {
      UniqueAppend(ms, m);
    }
  }

  // ---- Repairing an interrupted transcript ----

  lemma RepairAnswers(m: Message, now: int)
    ensures var repair := RepairMessage(ToolUsesOf(m.content), now);
      repair.role.User? && UseIds(repair.content) == [] && ResultIds(repair.content) == UseIds(m.content)
  {
    UseIdsMatch(m.content);
    QuerySafety.AnswersUses(m, RepairMessage(ToolUsesOf(m.content), now));
  }

  /** The last visible message uses tools and nothing has answered it. */
  predicate EndsUnanswered(ms: seq<Message>) {
    Scan(SETTLED, ms).Waiting? && Scan(SETTLED, ms).ids != []
  }

  lemma LastUsesWait(ms: seq<Message>)
    requires ms != [] && Last(ms).role.Assistant? && UseIds(Last(ms).content) != []
    ensures Scan(SETTLED, ms) == Broken || Scan(SETTLED, ms) == Waiting(UseIds(Last(ms).content))
  {
    hide UseIds, ResultIds;
  }

  lemma UnansweredHasUses(ms: seq<Message>)
    requires EndsUnanswered(ms)
    ensures ms != [] && (Last(ms).role.Assistant? ==> UseIds(Last(ms).content) != [])
  {
    hide UseIds, ResultIds;
  }

  /**
   For every transcript: it is paired once a turn has begun if and only if it was, or it ends with
   unanswered uses in a last message of the assistant's and the message before does not look like a repair.
   */
  lemma RepairWorksIff(ms: seq<Message>, prompt: string, now: int)
    ensures Paired(AddPrompt(Repair(ms, now), prompt, now)) <==>
      Paired(ms) || (EndsUnanswered(ms) && Last(ms).role.Assistant? && !LooksRepaired(ms))
  {
    hide UseIds, ResultIds, LooksRepaired, AddPrompt;
    PromptKeepsPaired(Repair(ms, now), prompt, now);
    if ms != [] {
      UseIdsMatch(Last(ms).content);
    }
    if Repair(ms, now) != ms {
      var repair := RepairMessage(ToolUsesOf(Last(ms).content), now);
      RepairAnswers(Last(ms), now);
      ScanAppend(SETTLED, ms, repair);
      LastUsesWait(ms);
    } else if EndsUnanswered(ms) {
      UnansweredHasUses(ms);
    }
  }

  function UseOf(id: string, name: string, input: ToolInput): Message {
    NewMessage(Assistant, 0).Add(ToolUse(id, name, input))
  }

  /**
   The look-alike: when the assistant repeats an id, the result of the first use passes for a repair of the
   second, so the second stays unanswered.
   */
  lemma LookAlikeIsNotMended(id: string, name: string, input: ToolInput, text: string, prompt: string, now: int)
    ensures var use := UseOf(id, name, input);
      var ms := [use, NewMessage(User, 0).Add(ToolResult(id, text, false)), use];
      && EndsUnanswered(ms) && LooksRepaired(ms)
      && Repair(ms, now) == ms && !Paired(AddPrompt(Repair(ms, now), prompt, now))
  {
    hide AddPrompt, Repair, LooksRepaired, ToolUsesOf, ToolResultsOf, UseIds, ResultIds, EndsUnanswered;
    var use, result := UseOf(id, name, input), NewMessage(User, 0).Add(ToolResult(id, text, false));
    OneBlock(ToolUse(id, name, input));
    OneBlock(ToolResult(id, text, false));
    assert use.content == [ToolUse(id, name, input)] && result.content == [ToolResult(id, text, false)];
    UsedAgain(use, result);
    AnsweredLooksRepaired(use, result);
    RepairWorksIff([use, result, use], prompt, now);
    NothingToRepair([use, result, use], now);
  }

  lemma NothingToRepair(ms: seq<Message>, now: int)
    requires ms != [] && LooksRepaired(ms)
    ensures Repair(ms, now) == ms
  {
  }

  lemma AnsweredLooksRepaired(use: Message, result: Message)
    requires |ToolUsesOf(use.content)| == 1 && |ToolResultsOf(result.content)| == 1 && result.role.User?
    requires var u, r := ToolUsesOf(use.content)[0], ToolResultsOf(result.content)[0];
      u.ToolUse? && r.ToolResult? && r.toolUseId == u.id
    ensures LooksRepaired([use, result, use])
  {
    hide ToolUsesOf, ToolResultsOf;
    var uses, results := ToolUsesOf(use.content), ToolResultsOf(result.content);
    assert HasResultFor(results, uses[0].id);
    assert Init(uses) == [];
    assert Matched(uses, results) == 1;
  }

  lemma OneBlock(b: Block)
    ensures UseIds([b]) == (if b.ToolUse? then [b.id] else [])
    ensures ResultIds([b]) == (if b.ToolResult? then [b.toolUseId] else [])
    ensures ToolUsesOf([b]) == (if b.ToolUse? then [b] else [])
    ensures ToolResultsOf([b]) == (if b.ToolResult? then [b] else [])
  {
    assert Init([b]) == [];
  }

  lemma UsedAgain(use: Message, result: Message)
    requires use.role.Assistant? && UseIds(use.content) != [] && ResultIds(use.content) == []
    requires result.role.User? && UseIds(result.content) == [] && ResultIds(result.content) == UseIds(use.content)
    ensures Scan(SETTLED, [use, result, use]) == Waiting(UseIds(use.content)) && EndsUnanswered([use, result, use])
  {
    hide UseIds, ResultIds;
    ScanAppend(SETTLED, [], use);
    ScanAppend(SETTLED, [use], result);
    ScanAppend(SETTLED, [use, result], use);
    assert [] + [use] == [use] && [use] + [result] == [use, result] && [use, result] + [use] == [use, result, use];
  }

  /** A notice that arrives after unanswered uses hides them: nothing is repaired, and the turn begins unpaired. */
  lemma NoticePreventsRepair(ms: seq<Message>, text: string, at: int, prompt: string, now: int)
    requires EndsUnanswered(ms)
    ensures var noticed := ms + [NoticeMessage(text, at)];
      Repair(noticed, now) == noticed && !Paired(AddPrompt(Repair(noticed, now), prompt, now))
  {
    hide AddPrompt;
    ScanAppend(SETTLED, ms, NoticeMessage(text, at));
    RepairWorksIff(ms + [NoticeMessage(text, at)], prompt, now);
  }

  lemma {:induction false} AllMatched(uses: seq<Block>, results: seq<Block>)
    ensures Matched(uses, results) <= |uses|
    ensures Matched(uses, results) == |uses| && uses != [] ==>
      Last(uses).ToolUse? && HasResultFor(results, Last(uses).id)
  {
    if uses != [] {
      AllMatched(Init(uses), results);
    }
  }

  lemma {:induction false} ResultBlockIds(bs: seq<Block>)
    ensures |ToolResultsOf(bs)| == |ResultIds(bs)|
    ensures forall k :: 0 <= k < |ToolResultsOf(bs)| ==>
      ToolResultsOf(bs)[k].ToolResult? && ToolResultsOf(bs)[k].toolUseId == ResultIds(bs)[k]
  {
    if bs != [] {
      ResultBlockIds(Init(bs));
    }
  }

  /** Unique ids rule out the false alarm, so then only a trailing notice prevents the repair. */
  lemma UniqueIdsNeverLookRepaired(ms: seq<Message>)
    requires EndsUnanswered(ms) && UniqueIds(ms)
    requires ms != [] && Last(ms).role.Assistant?
    ensures !LooksRepaired(ms)
  {
    if LooksRepaired(ms) {
      var n := |ms| - 1;
      var uses, before := ToolUsesOf(ms[n].content), ms[n - 1];
      LastBefore(ms);
      UseIdsMatch(ms[n].content);
      AllMatched(uses, ToolResultsOf(before.content));
      ResultBlockIds(before.content);
      var id := Last(uses).id;
      assert id in UseIds(ms[n].content) && id in ResultIds(before.content);
      assert Init(Init(ms)) == ms[..n - 1] && Last(Init(ms)) == before;
      AnsweredBefore(ms, n - 1, id);
      assert false;
    }
  }

  lemma LastBefore(ms: seq<Message>)
    requires EndsUnanswered(ms) && ms != [] && Last(ms).role.Assistant?
    ensures Scan(SETTLED, Init(ms)) == SETTLED && UseIds(Last(ms).content) != []
  {
    hide UseIds, ResultIds;
  }

  /** The id of a result in a settled prefix was used before it. */
  lemma AnsweredBefore(ms: seq<Message>, v: nat, id: string)
    requires v < |ms| - 1 && UniqueIds(ms)
    requires Scan(SETTLED, ms[..v + 1]) == SETTLED
    requires ms[v].role.User? && id in ResultIds(ms[v].content)
    ensures id !in UseIds(ms[|ms| - 1].content) || ms[|ms| - 1].role.System?
  {
    hide UseIds, ResultIds;
    assert ms[..v + 1] == ms[..v] + [ms[v]];
    ScanAppend(SETTLED, ms[..v], ms[v]);
    var u := WaitingWereUsed(ms[..v]);
    assert id in UseIds(ms[u].content);
  }

  // ---- Sessions ----

  /** A turn of a session: the prompt, the loop's run, and how its events and commands interleave. */
  datatype Turn = Turn(prompt: string, now: int, choices: seq<QueryLoop.Choice>, inputs: seq<Input>)

  function ParamsFor(p: QueryLoop.Params, s: State, t: Turn): QueryLoop.Params {
    p.(messages := BeginTurn(s, t.prompt, t.now).messages)
  }

  ghost function RunOf(parse: StreamParser.JsonParser, p: QueryLoop.Params, opts: Options, s: State,
                       t: Turn): QueryLoop.Loop {
    QueryLoop.Run(parse, ParamsFor(p, s, t), QueryLoop.Start(ParamsFor(p, s, t)), t.choices, opts)
  }

  /** The session receives exactly the events of its run, and the model's ids are fresh. */
  ghost predicate Happens(parse: StreamParser.JsonParser, p: QueryLoop.Params, opts: Options, s: State, t: Turn) {
    && QueryEventsOf(t.inputs) == RunOf(parse, p, opts, s, t).out
    && QuerySafety.FreshRun(parse, ParamsFor(p, s, t), t.choices, opts)
  }

  ghost predicate WellFormed(s: State) {
    Paired(s.messages) && UniqueIds(s.messages)
  }

  /** The session is well formed once the turn has begun: repaired, and with the prompt added. */
  ghost predicate BeginsWell(s: State, t: Turn) {
    WellFormed(BeginTurn(s, t.prompt, t.now))
  }

  /** Exactly the sessions with unique ids that are paired, or end with the assistant's unanswered uses. */
  lemma BeginsWellIff(s: State, t: Turn)
    ensures BeginsWell(s, t) <==>
      && UniqueIds(s.messages)
      && (Paired(s.messages) || (EndsUnanswered(s.messages) && Last(s.messages).role.Assistant?))
  {
    hide UniqueIds, LooksRepaired, AddPrompt;
    var ms := s.messages;
    RepairWorksIff(ms, t.prompt, t.now);
    PromptKeepsPaired(Repair(ms, t.now), t.prompt, t.now);
    RepairKeepsUnique(ms, t.now);
    if UniqueIds(ms) && EndsUnanswered(ms) && Last(ms).role.Assistant? {
      UniqueIdsNeverLookRepaired(ms);
    }
  }

  lemma RepairKeepsUnique(ms: seq<Message>, now: int)
    ensures UniqueIds(Repair(ms, now)) <==> UniqueIds(ms)
  {
    hide UniqueIds, LooksRepaired;
    if Repair(ms, now) != ms {
      RepairAnswers(Last(ms), now);
      UniqueAppendNone(ms, RepairMessage(ToolUsesOf(Last(ms).content), now));
    }
  }

  lemma FlushKeepsMessages(s: State)
    ensures FlushText(s).messages == s.messages
  {
  }

  /**
   One turn: if it begins well, whatever way the run ends, the session's transcript is paired again, and
   so was every list sent to the client on the way.
   */
  lemma TurnKeepsWellFormed(parse: StreamParser.JsonParser, p: QueryLoop.Params, opts: Options, s: State, t: Turn)
    requires BeginsWell(s, t) && Happens(parse, p, opts, s, t)
    ensures WellFormed(TakeTurn(s, t.prompt, t.now, t.inputs))
    ensures QuerySafety.AllPaired(RunOf(parse, p, opts, s, t).requests)
  {
    hide Scan, UniqueIds, Repair, AddPrompt, QueryLoop.Run, ServeAll, Replay, FlushText, Microcompact.SameTranscript,
         QuerySafety.FreshRun, QuerySafety.AllPaired, QueryEventsOf;
    var begun, q := BeginTurn(s, t.prompt, t.now), ParamsFor(p, s, t);
    QuerySafety.RunSound(parse, q, t.choices, opts);
    QueryProofs.ReplaySimulation(parse, q, t.choices, opts);
    var r := RunOf(parse, p, opts, s, t);
    var replayed := Replay(q.messages, r.out);
    QuerySafety.SameTranscriptSound(replayed, r.msgs);
    var end := ServeAll(begun, t.inputs);
    SessionReplays(begun, t.inputs);
    assert Visible(end.messages) == Visible(replayed);
    ScanVisible(SETTLED, end.messages);
    ScanVisible(SETTLED, replayed);
    UniqueVisible(end.messages);
    UniqueVisible(replayed);
    FlushKeepsMessages(end);
  }

  function AfterTurns(s: State, ts: seq<Turn>): State {
    if ts == [] then s
    else
      var s1 := AfterTurns(s, Init(ts));
      TakeTurn(s1, Last(ts).prompt, Last(ts).now, Last(ts).inputs)
  }

  ghost predicate SessionHappens(parse: StreamParser.JsonParser, p: QueryLoop.Params, opts: Options, s: State,
                                 ts: seq<Turn>) {
    forall k :: 0 <= k < |ts| ==> Happens(parse, p, opts, AfterTurns(s, ts[..k]), ts[k])
  }

  /**
   Over any number of turns of a session whose first turn begins well, unanswered uses or not, every list
   sent to the client is paired and the session ends well formed.
   */
  lemma {:induction false} SessionStaysWellFormed(parse: StreamParser.JsonParser, p: QueryLoop.Params, opts: Options,
                                                  s: State, ts: seq<Turn>)
    requires ts != [] && BeginsWell(s, ts[0]) && SessionHappens(parse, p, opts, s, ts)
    ensures WellFormed(AfterTurns(s, ts))
    ensures forall k :: 0 <= k < |ts| ==>
      QuerySafety.AllPaired(RunOf(parse, p, opts, AfterTurns(s, ts[..k]), ts[k]).requests)
  {
    hide WellFormed, BeginsWell, Happens, TakeTurn, RunOf, QuerySafety.AllPaired;
    var before := Init(ts);
    forall k | 0 <= k < |before| ensures before[..k] == ts[..k] && before[k] == ts[k] {
    }
    assert ts[..|ts| - 1] == before;
    if before != [] {
      SessionStaysWellFormed(parse, p, opts, s, before);
      WellFormedBeginsWell(AfterTurns(s, before), Last(ts));
    }
    TurnKeepsWellFormed(parse, p, opts, AfterTurns(s, before), Last(ts));
    forall k | 0 <= k < |ts|
      ensures QuerySafety.AllPaired(RunOf(parse, p, opts, AfterTurns(s, ts[..k]), ts[k]).requests)
    {
      if k < |before| {
        assert before[..k] == ts[..k] && before[k] == ts[k];
      }
    }
  }

  lemma WellFormedBeginsWell(s: State, t: Turn)
    requires WellFormed(s)
    ensures BeginsWell(s, t)
  {
    hide UniqueIds;
    BeginsWellIff(s, t);
  }
}
