/** Conservation over whole runs of the coordinator: final records, usage and the confirm queue. */
module CoordinatorRuns {
  import opened Messages
  import opened Coordinator
  import opened CoordinatorProofs

  // ---- The final record of an agent ----

  predicate Ends(s: State, e: Event, id: string) {
    e.Done? && e.id == id && id in s.agents
  }

  function Ending(s: State, e: Event, id: string): Record
    requires Ends(s, e, id)
  {
    FinalRecord(s.agents[id], e.how, e.result, e.error, e.usage)
  }

  /** How agent `id` ended, told from the events alone. */
  function FinalOf(hasSink: bool, es: seq<Event>, id: string): Option<Record> {
    if es == [] then None
    else FinalAfter(Run(hasSink, Init(es)), Last(es), id, FinalOf(hasSink, Init(es), id))
  }

  function FinalAfter(s: State, e: Event, id: string, final: Option<Record>): Option<Record> {
    if Ends(s, e, id) then Some(Ending(s, e, id)) else final
  }

  ghost predicate Kept(s: State, id: string, final: Option<Record>) {
    && (PhaseOf(s, id) >= 2 <==> final.Some?)
    && (id in s.completed ==> final == Some(s.completed[id]))
    && (final.Some? ==> final.value.id == id)
  }

  lemma CompletedAfter(s: State, e: Event, id: string)
    requires id in Step(s, e).completed
    ensures Ends(s, e, id) ==> Step(s, e).completed[id] == Ending(s, e, id)
    ensures !Ends(s, e, id) ==> id in s.completed && Step(s, e).completed[id] == s.completed[id]
  {
    hide AgentName, RemoveFirst, Tell, Accumulate, FinalRecord, WaitersOf;
  }

  lemma StepKept(s: State, e: Event, id: string, final: Option<Record>)
    requires Sound(s) && Kept(s, id, final)
    ensures Kept(Step(s, e), id, FinalAfter(s, e, id, final))
  {
    hide AgentName, Step, Born, WaitersRun, PendingQueued;
    PhaseMoves(s, e, id);
    if id in Step(s, e).completed {
      CompletedAfter(s, e, id);
    }
  }

  /** An agent has ended exactly if it is finished or collected, and the record kept is the final one. */
  lemma {:induction false} FinalIsKept(hasSink: bool, es: seq<Event>, id: string)
    ensures Kept(Run(hasSink, es), id, FinalOf(hasSink, es, id))
  {
    if es != [] {
      hide Kept, Step, Sound, FinalAfter;
      FinalIsKept(hasSink, Init(es), id);
      RunSound(hasSink, Init(es));
      StepKept(Run(hasSink, Init(es)), Last(es), id, FinalOf(hasSink, Init(es), id));
    }
  }

  /** An agent ends once. */
  lemma FinalStays(hasSink: bool, es: seq<Event>, e: Event, id: string)
    requires FinalOf(hasSink, es, id).Some?
    ensures FinalOf(hasSink, es + [e], id) == FinalOf(hasSink, es, id)
  {
    hide Step, Born, Sound;
    assert Init(es + [e]) == es;
    FinalIsKept(hasSink, es, id);
  }

  // ---- What a final record says ----

  function Spawns(es: seq<Event>): nat {
    if es == [] then 0 else Spawns(Init(es)) + (if Last(es).Spawn? then 1 else 0)
  }

  lemma {:induction false} NextIDCounts(hasSink: bool, es: seq<Event>)
    ensures Run(hasSink, es).nextID == Spawns(es)
  {
    if es != [] {
      hide Step;
      NextIDCounts(hasSink, Init(es));
      StepNextID(Run(hasSink, Init(es)), Last(es));
    }
  }

  /** Definition and prompt are those of the Spawn that was given this id: the k-th one, for agent k. */
  ghost predicate SpawnedAs(es: seq<Event>, r: Record, i: nat) {
    i < |es| && es[i] == Spawn(r.definition, r.prompt) && r.id == AgentName(Spawns(es[..i]))
  }

  /** Outcome, result, error and usage are those of the agent's own end. */
  predicate EndedAs(es: seq<Event>, r: Record, j: nat) {
    && j < |es| && es[j].Done?
    && es[j] == Done(r.id, es[j].how, r.result, r.error, r.usage) && r.status == Ended(es[j].how)
  }

  lemma SpawnedAsStep(es: seq<Event>, e: Event, r: Record, i: nat)
    requires SpawnedAs(es, r, i)
    ensures SpawnedAs(es + [e], r, i)
  {
    hide AgentName;
    assert (es + [e])[i] == es[i] && (es + [e])[..i] == es[..i];
  }

  lemma AgentAfter(s: State, e: Event, id: string)
    requires id in Step(s, e).agents
    ensures e.Spawn? && id == AgentName(s.nextID) ==>
      Step(s, e).agents[id] == Record(id, e.definition, e.prompt, Running, "", "", None)
    ensures !(e.Spawn? && id == AgentName(s.nextID)) ==> id in s.agents && Step(s, e).agents[id] == s.agents[id]
  {
    hide AgentName, RemoveFirst, Tell, Accumulate, FinalRecord, WaitersOf;
  }

  /** A running agent's record says how it was spawned, and nothing else yet. */
  lemma {:induction false} RunningStory(hasSink: bool, es: seq<Event>, id: string) returns (i: nat)
    requires id in Run(hasSink, es).agents
    ensures var r := Run(hasSink, es).agents[id];
      SpawnedAs(es, r, i) && r == Record(id, r.definition, r.prompt, Running, "", "", None)
  {
    hide Step, AgentName;
    assert es != [];
    var s, e := Run(hasSink, Init(es)), Last(es);
    assert Init(es) + [e] == es;
    AgentAfter(s, e, id);
    if e.Spawn? && id == AgentName(s.nextID) {
      NextIDCounts(hasSink, Init(es));
      i := |es| - 1;
      assert es[..i] == Init(es);
    } else {
      i := RunningStory(hasSink, Init(es), id);
      SpawnedAsStep(Init(es), e, s.agents[id], i);
    }
  }

  /** A final record says how the agent was spawned and how it ended, field by field. */
  lemma {:induction false} FinalStory(hasSink: bool, es: seq<Event>, id: string) returns (i: nat, j: nat)
    requires FinalOf(hasSink, es, id).Some?
    ensures var r := FinalOf(hasSink, es, id).value; r.id == id && SpawnedAs(es, r, i) && EndedAs(es, r, j)
  {
    hide Run, AgentName, SpawnedAs;
    var s, e := Run(hasSink, Init(es)), Last(es);
    assert Init(es) + [e] == es;
    if Ends(s, e, id) {
      i := RunningStory(hasSink, Init(es), id);
      j := |es| - 1;
      var r := FinalOf(hasSink, es, id).value;
      SpawnedAsStep(Init(es), e, s.agents[id], i);
      SpawnedAsSame(es, s.agents[id], r, i);
    } else {
      i, j := FinalStory(hasSink, Init(es), id);
      SpawnedAsStep(Init(es), e, FinalOf(hasSink, es, id).value, i);
    }
  }

  lemma SpawnedAsSame(es: seq<Event>, a: Record, b: Record, i: nat)
    requires SpawnedAs(es, a, i) && a.id == b.id && a.definition == b.definition && a.prompt == b.prompt
    ensures SpawnedAs(es, b, i)
  {
  }

  // ---- Answers ----

  lemma {:induction false} TellAt(channels: seq<Channel>, r: Record, i: nat)
    requires i < |channels|
    ensures |Tell(channels, r)| == |channels| && Tell(channels, r)[i] == Answer(channels[i], Some(r))
  {
    if |channels| > 1 {
      TellAt(Init(channels), r, if i < |channels| - 1 then i else 0);
    }
  }

  lemma TellMember(channels: seq<Channel>, r: Record, a: Answer)
    requires a in Tell(channels, r)
    ensures a.record == Some(r)
  {
  }

  lemma NewAnswers(s: State, e: Event, a: Answer)
    requires a in Step(s, e).answers && a !in s.answers && a.record.Some?
    ensures e.Done? || e.Wait?
    ensures e.Done? ==> Ends(s, e, e.id) && a.record.value == Ending(s, e, e.id)
    ensures e.Wait? ==> e.id in s.completed && a.record.value == s.completed[e.id]
  {
    hide AgentName, RemoveFirst, Tell, Accumulate, FinalRecord, WaitersOf;
    if e.Done? && e.id in s.agents {
      TellMember(WaitersOf(s, e.id), Ending(s, e, e.id), a);
    }
  }

  lemma EndingId(s: State, e: Event)
    requires Registered(s) && e.Done? && Ends(s, e, e.id)
    ensures Ending(s, e, e.id).id == e.id
  {
    hide Born;
  }

  /** Whatever a Wait is told about an agent is that agent's final record. */
  lemma {:induction false} AnswersAreFinal(hasSink: bool, es: seq<Event>, a: Answer)
    requires a in Run(hasSink, es).answers && a.record.Some?
    ensures FinalOf(hasSink, es, a.record.value.id) == a.record
  {
    hide Step, Ends, Ending, FinalOf, Born, WaitersRun, PendingQueued;
    assert es != [];
    var s, e := Run(hasSink, Init(es)), Last(es);
    var id := a.record.value.id;
    assert Init(es) + [e] == es;
    RunSound(hasSink, Init(es));
    if a in s.answers {
      AnswersAreFinal(hasSink, Init(es), a);
      FinalStays(hasSink, Init(es), e, id);
    } else {
      NewAnswers(s, e, a);
      if e.Done? {
        EndingId(s, e);
        FinalUnfold(hasSink, Init(es), e, id);
      } else {
        FinalIsKept(hasSink, Init(es), e.id);
        FinalStays(hasSink, Init(es), e, id);
      }
    }
  }

  lemma FinalUnfold(hasSink: bool, es: seq<Event>, e: Event, id: string)
    ensures FinalOf(hasSink, es + [e], id) == FinalAfter(Run(hasSink, es), e, id, FinalOf(hasSink, es, id))
  {
    assert Init(es + [e]) == es;
  }

  lemma RunUnfold(hasSink: bool, es: seq<Event>, e: Event)
    ensures Run(hasSink, es + [e]) == Step(Run(hasSink, es), e)
  {
    assert Init(es + [e]) == es;
  }

  ghost predicate NeverWaited(es: seq<Event>, id: string) {
    forall j :: 0 <= j < |es| && es[j].Wait? ==> es[j].id != id
  }

  /** Only a Wait collects a finished agent. */
  lemma {:induction false} OnlyWaitCollects(hasSink: bool, es: seq<Event>, id: string)
    requires NeverWaited(es, id)
    ensures PhaseOf(Run(hasSink, es), id) < 3
  {
    if es != [] {
      hide PhaseOf, Step, Sound;
      OnlyWaitCollects(hasSink, Init(es), id);
      RunSound(hasSink, Init(es));
      PhaseMoves(Run(hasSink, Init(es)), Last(es), id);
    } else {
      NobodyBorn(hasSink, id);
    }
  }

  lemma NobodyBorn(hasSink: bool, id: string)
    ensures PhaseOf(Initial(hasSink), id) == 0
  {
  }

  /** The request on `c` is queued for a running agent, or answered with that agent's final record. */
  ghost predicate Served(s: State, id: string, c: Channel, final: Option<Record>) {
    if final.None? then c in WaitersOf(s, id) else Answer(c, final) in s.answers
  }

  lemma StepServed(s: State, e: Event, id: string, c: Channel, final: Option<Record>)
    requires Sound(s) && Served(s, id, c, final) && (final.None? ==> id in s.agents)
    ensures Served(Step(s, e), id, c, if final.Some? then final else FinalAfter(s, e, id, final))
  {
    hide Ending, FinalRecord, Tell, RemoveFirst, Accumulate, AgentName, Sound;
    if final.None? && Ends(s, e, id) {
      var i :| 0 <= i < |WaitersOf(s, id)| && WaitersOf(s, id)[i] == c;
      TellAt(WaitersOf(s, id), Ending(s, e, id), i);
      assert Answer(c, Some(Ending(s, e, id))) in Tell(WaitersOf(s, id), Ending(s, e, id));
      DoneAnswers(s, e);
    } else if final.None? {
      WaitersStay(s, e, id);
    } else {
      AnswersGrow(s, e);
    }
  }

  lemma DoneAnswers(s: State, e: Event)
    requires e.Done? && e.id in s.agents
    ensures Step(s, e).answers == s.answers + Tell(WaitersOf(s, e.id), Ending(s, e, e.id))
  {
  }

  lemma AnswersGrow(s: State, e: Event)
    ensures s.answers <= Step(s, e).answers
  {
    hide AgentName, RemoveFirst, Tell, Accumulate, FinalRecord, WaitersOf;
  }

  lemma WaitersStay(s: State, e: Event, id: string)
    requires !Ends(s, e, id)
    ensures WaitersOf(s, id) <= WaitersOf(Step(s, e), id)
  {
    hide AgentName, RemoveFirst, Tell, Accumulate, FinalRecord;
  }

  lemma JustServed(s: State, id: string, c: Channel, final: Option<Record>)
    requires Kept(s, id, final) && (PhaseOf(s, id) == 1 || PhaseOf(s, id) == 2)
    ensures Served(HandleWait(s, id, c), id, c, final)
  {
    hide Born;
  }

  /**
   An agent's id that is waited on for the first time gets that agent's final record, no matter how
   spawning, ending and waiting of this and other agents interleave: the answer is a function of how
   the agent ended. This is what lets the plan executor treat an agent's record as independent of timing.
   */
  lemma {:induction false} FirstWaitGetsFinal(hasSink: bool, before: seq<Event>, id: string, c: Channel,
                                              after: seq<Event>)
    requires NeverWaited(before, id) && PhaseOf(Run(hasSink, before), id) > 0
    ensures var es := before + [Wait(id, c)] + after;
      Served(Run(hasSink, es), id, c, FinalOf(hasSink, es, id))
    decreases after
  {
    hide Kept, Step, Served, HandleWait, FinalOf, FinalAfter, NeverWaited, Born, Registered, WaitersRun, PendingQueued;
    var es := before + [Wait(id, c)] + after;
    if after == [] {
      var s := Run(hasSink, before);
      OnlyWaitCollects(hasSink, before, id);
      FinalIsKept(hasSink, before, id);
      JustServed(s, id, c, FinalOf(hasSink, before, id));
      assert es == before + [Wait(id, c)];
      RunUnfold(hasSink, before, Wait(id, c));
      StepIsHandleWait(s, id, c);
      FinalUnfold(hasSink, before, Wait(id, c), id);
      WaitEndsNothing(s, id, c, FinalOf(hasSink, before, id));
    } else {
      var es0, e := before + [Wait(id, c)] + Init(after), Last(after);
      FirstWaitGetsFinal(hasSink, before, id, c, Init(after));
      assert es == es0 + [e];
      var s := Run(hasSink, es0);
      RunSound(hasSink, es0);
      FinalIsKept(hasSink, es0, id);
      assert es0[..|before|] == before;
      PhaseGrows(hasSink, es0, |before|, id);
      KeptRuns(s, id, FinalOf(hasSink, es0, id));
      StepServed(s, e, id, c, FinalOf(hasSink, es0, id));
      RunUnfold(hasSink, es0, e);
      FinalUnfold(hasSink, es0, e, id);
      if FinalOf(hasSink, es0, id).Some? {
        FinalStays(hasSink, es0, e, id);
      }
    }
  }

  lemma WaitEndsNothing(s: State, id: string, c: Channel, final: Option<Record>)
    ensures FinalAfter(s, Wait(id, c), id, final) == final
  {
  }

  lemma KeptRuns(s: State, id: string, final: Option<Record>)
    requires Kept(s, id, final) && PhaseOf(s, id) > 0
    ensures final.None? ==> id in s.agents
  {
    hide Born;
  }

  // ---- Usage ----

  function UsageOf(r: Option<Record>): Usage {
    if r.Some? && r.value.usage.Some? then r.value.usage.value else ZERO_USAGE
  }

  /** The component-wise sum over the first `n` agents of what each reported when it ended. */
  function SumFinal(hasSink: bool, es: seq<Event>, n: nat): Usage {
    if n == 0 then ZERO_USAGE
    else SumFinal(hasSink, es, n - 1).Plus(UsageOf(FinalOf(hasSink, es, AgentName(n - 1))))
  }

  function TotalOf(total: Option<Usage>): Usage {
    if total.None? then ZERO_USAGE else total.value
  }

  /** What an event adds to the total. */
  function Reported(s: State, e: Event): Option<Usage> {
    if e.Done? && e.id in s.agents then e.usage else None
  }

  function OrZero(u: Option<Usage>): Usage {
    if u.None? then ZERO_USAGE else u.value
  }

  lemma StepTotal(s: State, e: Event)
    ensures var s' := Step(s, e);
      && s'.total == Accumulate(s.total, Reported(s, e))
      && s'.sunk == (if s.hasSink && Reported(s, e).Some? then s.sunk + [Reported(s, e).value] else s.sunk)
      && s'.hasSink == s.hasSink
  {
    hide AgentName, RemoveFirst, Tell, FinalRecord, WaitersOf;
    if !e.Done? {
      hide Accumulate;
      QuietTotal(s, e);
    }
  }

  lemma QuietTotal(s: State, e: Event)
    requires !e.Done?
    ensures var s' := Step(s, e); s'.total == s.total && s'.sunk == s.sunk && s'.hasSink == s.hasSink
  {
    hide AgentName, RemoveFirst, Tell, FinalRecord, WaitersOf, Accumulate;
  }

  lemma AccumulateMeaning(total: Option<Usage>, u: Option<Usage>)
    ensures TotalOf(Accumulate(total, u)) == TotalOf(total).Plus(OrZero(u))
    ensures Accumulate(total, u).Some? <==> total.Some? || u.Some?
  {
  }

  lemma PlusSwap(a: Usage, b: Usage, x: Usage, y: Usage)
    ensures a.Plus(x).Plus(b.Plus(y)) == a.Plus(b).Plus(x.Plus(y))
  {
  }

  lemma StepNextID(s: State, e: Event)
    ensures Step(s, e).nextID == s.nextID + if e.Spawn? then 1 else 0
  {
    hide AgentName, RemoveFirst, Tell, FinalRecord, WaitersOf, Accumulate;
  }

  lemma OneAgentStep(hasSink: bool, es: seq<Event>, e: Event, j: nat, k: nat)
    requires e.Done? && e.id in Run(hasSink, es).agents ==> e.id == AgentName(k)
    ensures UsageOf(FinalOf(hasSink, es + [e], AgentName(j)))
         == UsageOf(FinalOf(hasSink, es, AgentName(j)))
               .Plus(if j == k then OrZero(Reported(Run(hasSink, es), e)) else ZERO_USAGE)
  {
    hide FinalOf, Run, AgentName, Kept, Usage.Plus;
    var s, id := Run(hasSink, es), AgentName(j);
    FinalUnfold(hasSink, es, e, id);
    PlusZero(UsageOf(FinalOf(hasSink, es, id)));
    if j != k && id == AgentName(k) {
      NamesDistinct(j, k);
    }
    if Ends(s, e, id) {
      FinalIsKept(hasSink, es, id);
      RunningHasNoFinal(s, id, FinalOf(hasSink, es, id));
      PlusZero(OrZero(e.usage));
    }
  }

  lemma PlusZero(a: Usage)
    ensures a.Plus(ZERO_USAGE) == a && ZERO_USAGE.Plus(a) == a
  {
  }

  lemma RunningHasNoFinal(s: State, id: string, final: Option<Record>)
    requires Kept(s, id, final) && id in s.agents
    ensures final.None?
  {
  }

  /** One more event changes the sum by what the event's own agent, if counted, reports. */
  lemma {:induction false} SumFinalStep(hasSink: bool, es: seq<Event>, e: Event, n: nat, k: nat)
    requires e.Done? && e.id in Run(hasSink, es).agents ==> e.id == AgentName(k)
    ensures SumFinal(hasSink, es + [e], n)
         == SumFinal(hasSink, es, n).Plus(if k < n then OrZero(Reported(Run(hasSink, es), e)) else ZERO_USAGE)
    decreases n
  {
    hide FinalOf, Run, AgentName, Reported, UsageOf, OrZero, Usage.Plus;
    var d := OrZero(Reported(Run(hasSink, es), e));
    if n == 0 {
      PlusZero(ZERO_USAGE);
    } else {
      SumFinalStep(hasSink, es, e, n - 1, k);
      OneAgentStep(hasSink, es, e, n - 1, k);
      var before, u := SumFinal(hasSink, es, n - 1), UsageOf(FinalOf(hasSink, es, AgentName(n - 1)));
      PlusSwap(before, u, if k < n - 1 then d else ZERO_USAGE, if n - 1 == k then d else ZERO_USAGE);
      PlusZero(d);
      PlusZero(ZERO_USAGE);
    }
  }

  lemma NewestHasNoFinal(hasSink: bool, es: seq<Event>, e: Event)
    requires e.Spawn?
    ensures FinalOf(hasSink, es + [e], AgentName(Run(hasSink, es).nextID)).None?
  {
    hide FinalOf, Run, AgentName, Born, WaitersRun, PendingQueued;
    var s := Run(hasSink, es);
    FinalUnfold(hasSink, es, e, AgentName(s.nextID));
    FinalIsKept(hasSink, es, AgentName(s.nextID));
    RunSound(hasSink, es);
    NextIsNew(s);
  }

  lemma BornName(s: State, id: string) returns (k: nat)
    requires Registered(s) && id in s.agents
    ensures k < s.nextID && id == AgentName(k)
  {
    hide AgentName;
    k :| k < s.nextID && AgentName(k) == id;
  }

  ghost predicate SinkAgrees(s: State) {
    if s.hasSink then SumUsages(s.sunk) == TotalOf(s.total) && (s.total.None? <==> s.sunk == []) else s.sunk == []
  }

  lemma StepSink(s: State, e: Event)
    requires SinkAgrees(s)
    ensures SinkAgrees(Step(s, e))
  {
    hide Step, Reported, OrZero, Accumulate, SumUsages, TotalOf, Usage.Plus;
    StepTotal(s, e);
    AccumulateMeaning(s.total, Reported(s, e));
    SumOfAppend(s.sunk, Reported(s, e));
  }

  /** The sink has received exactly what the total counts. */
  lemma {:induction false} SinkGetsTheTotal(hasSink: bool, es: seq<Event>)
    ensures SinkAgrees(Run(hasSink, es)) && Run(hasSink, es).hasSink == hasSink
  {
    if es != [] {
      hide Step, SinkAgrees;
      SinkGetsTheTotal(hasSink, Init(es));
      StepSink(Run(hasSink, Init(es)), Last(es));
      StepTotal(Run(hasSink, Init(es)), Last(es));
    }
  }

  /**
   In every reachable state the total usage is the component-wise sum, over all agents spawned so far,
   of what each reported when it ended.
   */
  lemma {:induction false} UsageIsConserved(hasSink: bool, es: seq<Event>)
    ensures TotalOf(Run(hasSink, es).total) == SumFinal(hasSink, es, Run(hasSink, es).nextID)
  {
    if es != [] {
      hide Step, SumFinal, Registered, WaitersRun, PendingQueued, TotalOf, Reported, OrZero, Accumulate, Usage.Plus;
      UsageIsConserved(hasSink, Init(es));
      var s, e := Run(hasSink, Init(es)), Last(es);
      assert Init(es) + [e] == es;
      StepTotal(s, e);
      AccumulateMeaning(s.total, Reported(s, e));
      RunSound(hasSink, Init(es));
      SumGrows(hasSink, Init(es), e);
    }
  }

  lemma SumOfAppend(us: seq<Usage>, u: Option<Usage>)
    ensures SumUsages(if u.Some? then us + [u.value] else us) == SumUsages(us).Plus(OrZero(u))
    ensures SumUsages([]) == ZERO_USAGE
  {
    if u.Some? {
      assert Init(us + [u.value]) == us;
    }
  }

  lemma SumGrows(hasSink: bool, es: seq<Event>, e: Event)
    requires Registered(Run(hasSink, es))
    ensures SumFinal(hasSink, es + [e], Step(Run(hasSink, es), e).nextID)
         == SumFinal(hasSink, es, Run(hasSink, es).nextID).Plus(OrZero(Reported(Run(hasSink, es), e)))
  {
    hide Step, FinalOf, Run, AgentName, Registered, Born;
    var s := Run(hasSink, es);
    StepNextID(s, e);
    if e.Done? && e.id in s.agents {
      var k := BornName(s, e.id);
      SumFinalStep(hasSink, es, e, s.nextID, k);
    } else {
      SumFinalStep(hasSink, es, e, s.nextID, s.nextID);
      if e.Spawn? {
        NewestHasNoFinal(hasSink, es, e);
      }
    }
  }
}
