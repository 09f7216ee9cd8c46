/** What every run of the coordinator's event loop keeps. */
module CoordinatorProofs {
  import opened Messages
  import opened Coordinator
  import Text

  // ---- Names are distinct ----

  lemma NamesDistinct(m: nat, n: nat)
    requires AgentName(m) == AgentName(n)
    ensures m == n
  {
    assert AgentName(m)[6..] == Text.Decimal(m);
    assert AgentName(n)[6..] == Text.Decimal(n);
    Text.DecimalInjective(m, n);
  }

  // ---- The lifecycle of an agent ----

  ghost predicate Born(s: State, id: string) {
    exists k: nat :: k < s.nextID && AgentName(k) == id
  }

  /** 0 never spawned, 1 running, 2 finished and not yet collected, 3 collected. */
  ghost function PhaseOf(s: State, id: string): nat {
    if id in s.agents then 1 else if id in s.completed then 2 else if Born(s, id) then 3 else 0
  }

  ghost predicate Registered(s: State) {
    && s.agents.Keys !! s.completed.Keys
    && (forall id :: id in s.agents ==> Born(s, id) && s.agents[id].id == id && s.agents[id].status.Running?)
    && (forall id :: id in s.completed ==> Born(s, id) && s.completed[id].id == id && s.completed[id].status.Ended?)
  }

  ghost predicate WaitersRun(s: State) {
    forall id :: id in s.waiters ==> id in s.agents && s.waiters[id] != []
  }

  ghost predicate PendingQueued(s: State) {
    forall id :: id in s.pending ==> id in s.order
  }

  ghost predicate Sound(s: State) {
    Registered(s) && WaitersRun(s) && PendingQueued(s)
  }

  lemma NextIsNew(s: State)
    ensures !Born(s, AgentName(s.nextID))
  {
    hide AgentName;
    forall k: nat | k < s.nextID ensures AgentName(k) != AgentName(s.nextID) {
      if AgentName(k) == AgentName(s.nextID) {
        NamesDistinct(k, s.nextID);
      }
    }
  }

  lemma SpawnBears(s: State, s': State, id: string)
    requires s'.nextID == s.nextID + 1
    ensures Born(s', id) <==> Born(s, id) || id == AgentName(s.nextID)
  {
    hide AgentName;
    if Born(s, id) {
      var k: nat :| k < s.nextID && AgentName(k) == id;
      assert k < s'.nextID;
    }
  }

  lemma StepRegistered(s: State, e: Event)
    requires Registered(s)
    ensures Registered(Step(s, e))
  {
    hide AgentName, RemoveFirst, Tell, Accumulate, Born, WaitersOf;
    if e.Spawn? {
      SpawnRegistered(s, e.definition, e.prompt);
    } else {
      SameNextID(s, e);
      if e.Wait? {
        assert Step(s, e).completed.Keys <= s.completed.Keys;
      } else if e.Done? {
        DoneRegistered(s, e.id, e.how, e.result, e.error, e.usage);
      }
    }
  }

  lemma SpawnRegistered(s: State, definition: string, prompt: string)
    requires Registered(s)
    ensures Registered(HandleSpawn(s, definition, prompt))
  {
    hide AgentName, Born;
    var s' := HandleSpawn(s, definition, prompt);
    NextIsNew(s);
    forall id ensures Born(s', id) <==> Born(s, id) || id == AgentName(s.nextID) {
      SpawnBears(s, s', id);
    }
  }

  lemma DoneRegistered(s: State, id: string, how: Final, result: string, error: string, usage: Option<Usage>)
    requires Registered(s)
    ensures Registered(HandleDone(s, id, how, result, error, usage))
  {
    hide AgentName, RemoveFirst, Tell, Accumulate, WaitersOf;
    if id in s.agents {
      var s' := HandleDone(s, id, how, result, error, usage);
      var r := FinalRecord(s.agents[id], how, result, error, usage);
      assert s'.agents == s.agents - {id} && s'.completed == s.completed[id := r] && s'.nextID == s.nextID;
    }
  }

  lemma SameNextID(s: State, e: Event)
    requires !e.Spawn?
    ensures Step(s, e).nextID == s.nextID
    ensures forall id :: Born(Step(s, e), id) <==> Born(s, id)
  {
    hide AgentName, RemoveFirst, Tell, Accumulate;
  }

  lemma StepWaiters(s: State, e: Event)
    requires WaitersRun(s)
    ensures WaitersRun(Step(s, e))
  {
    hide AgentName, RemoveFirst, Tell, Accumulate;
  }

  lemma StepPending(s: State, e: Event)
    requires PendingQueued(s)
    ensures PendingQueued(Step(s, e))
  {
    hide AgentName, Tell, Accumulate;
    if e.Confirm? || e.Done? {
      forall id ensures id != e.id ==> (id in RemoveFirst(s.order, e.id) <==> id in s.order) {
        RemoveFirstMembers(s.order, e.id, id);
      }
    }
  }

  /**
   In every reachable state running and finished agents are disjoint and were all spawned under
   distinct names, waiters exist only for running agents, and every pending confirmation is queued.
   */
  lemma {:induction false} RunSound(hasSink: bool, es: seq<Event>)
    ensures Sound(Run(hasSink, es))
  {
    if es != [] {
      hide Registered, WaitersRun, PendingQueued, Step;
      RunSound(hasSink, Init(es));
      StepRegistered(Run(hasSink, Init(es)), Last(es));
      StepWaiters(Run(hasSink, Init(es)), Last(es));
      StepPending(Run(hasSink, Init(es)), Last(es));
    }
  }

  /** No agent moves back, and each move forward is made by exactly one kind of event. */
  lemma PhaseMoves(s: State, e: Event, id: string)
    requires Sound(s)
    ensures var before, after := PhaseOf(s, id), PhaseOf(Step(s, e), id);
      && before <= after <= before + 1
      && (before == 0 && after == 1 <==> e.Spawn? && id == AgentName(s.nextID))
      && (before == 1 && after == 2 <==> e.Done? && id == e.id && before == 1)
      && (before == 2 && after == 3 <==> e.Wait? && id == e.id && before == 2)
  {
    hide AgentName, RemoveFirst, Tell, Accumulate, Born, FinalRecord, WaitersOf, WaitersRun, PendingQueued;
    NextIsNew(s);
    if e.Spawn? {
      SpawnBears(s, Step(s, e), id);
    } else {
      SameNextID(s, e);
    }
  }

  /** Killing cancels exactly the running agents, and changes nothing else: the agent stays until it ends. */
  lemma KillCancelsTheRunning(s: State, id: string)
    requires Sound(s)
    ensures HandleKill(s, id) == if PhaseOf(s, id) == 1 then s.(cancelled := s.cancelled + [id]) else s
  {
    hide Born;
  }

  /** Over a whole run an agent's phase only grows. */
  lemma {:induction false} PhaseGrows(hasSink: bool, es: seq<Event>, n: nat, id: string)
    requires n <= |es|
    ensures PhaseOf(Run(hasSink, es[..n]), id) <= PhaseOf(Run(hasSink, es), id)
    decreases |es|
  {
    hide PhaseOf, Sound, Step;
    if n < |es| {
      PhaseGrows(hasSink, Init(es), n, id);
      assert Init(es)[..n] == es[..n];
      RunSound(hasSink, Init(es));
      PhaseMoves(Run(hasSink, Init(es)), Last(es), id);
    } else {
      assert es[..n] == es;
    }
  }

  // ---- Every Wait is answered once ----

  function TimesAnswered(answers: seq<Answer>, c: Channel): nat {
    if answers == [] then 0
    else TimesAnswered(Init(answers), c) + (if Last(answers).channel == c then 1 else 0)
  }

  function TimesIn(channels: seq<Channel>, c: Channel): nat {
    multiset(channels)[c]
  }

  lemma {:induction false} AnsweredConcat(a: seq<Answer>, b: seq<Answer>, c: Channel)
    ensures TimesAnswered(a + b, c) == TimesAnswered(a, c) + TimesAnswered(b, c)
  {
    if b == [] {
      assert a + b == a;
    } else {
      AnsweredConcat(a, Init(b), c);
      assert Init(a + b) == a + Init(b);
    }
  }

  lemma {:induction false} TellCounts(channels: seq<Channel>, r: Record, c: Channel)
    ensures TimesAnswered(Tell(channels, r), c) == TimesIn(channels, c)
  {
    if channels != [] {
      TellCounts(Init(channels), r, c);
      assert channels == Init(channels) + [Last(channels)];
      assert Init(Tell(channels, r)) == Tell(Init(channels), r);
    }
  }

  /** The request on `c` for agent `id`: waiting exactly once on a running agent, or answered exactly once. */
  ghost predicate Pledged(s: State, id: string, c: Channel) {
    && (forall other :: other != id ==> TimesIn(WaitersOf(s, other), c) == 0)
    && TimesAnswered(s.answers, c) + TimesIn(WaitersOf(s, id), c) == 1
  }

  ghost predicate Unheard(s: State, c: Channel) {
    TimesAnswered(s.answers, c) == 0 && forall id :: TimesIn(WaitersOf(s, id), c) == 0
  }

  lemma CountsWait(s: State, wid: string, ch: Channel, id: string, c: Channel)
    ensures var s' := HandleWait(s, wid, ch);
      && TimesIn(WaitersOf(s', id), c)
         == TimesIn(WaitersOf(s, id), c) + (if wid == id && wid in s.agents && ch == c then 1 else 0)
      && TimesAnswered(s'.answers, c) == TimesAnswered(s.answers, c) + (if wid !in s.agents && ch == c then 1 else 0)
  {
    if wid !in s.agents {
      assert Init(HandleWait(s, wid, ch).answers) == s.answers;
    }
  }

  lemma CountsDone(s: State, e: Event, id: string, c: Channel)
    requires e.Done? && e.id in s.agents
    ensures var s' := Step(s, e);
      && TimesIn(WaitersOf(s', id), c) == (if id == e.id then 0 else TimesIn(WaitersOf(s, id), c))
      && TimesAnswered(s'.answers, c) == TimesAnswered(s.answers, c) + TimesIn(WaitersOf(s, e.id), c)
  {
    hide RemoveFirst, Tell, Accumulate, FinalRecord, TimesAnswered;
    var r := FinalRecord(s.agents[e.id], e.how, e.result, e.error, e.usage);
    TellCounts(WaitersOf(s, e.id), r, c);
    AnsweredConcat(s.answers, Tell(WaitersOf(s, e.id), r), c);
  }

  lemma CountsOther(s: State, e: Event)
    requires !e.Wait? && !(e.Done? && e.id in s.agents)
    ensures Step(s, e).waiters == s.waiters && Step(s, e).answers == s.answers
  {
    hide AgentName, RemoveFirst, Tell, Accumulate;
  }

  /** What one event does to the counts of a channel that is not the event's own. */
  lemma StepCounts(s: State, e: Event, id: string, c: Channel)
    requires e.Wait? ==> e.channel != c
    ensures var s' := Step(s, e);
      var ends := e.Done? && e.id in s.agents;
      && TimesIn(WaitersOf(s', id), c) == (if ends && id == e.id then 0 else TimesIn(WaitersOf(s, id), c))
      && TimesAnswered(s'.answers, c)
         == TimesAnswered(s.answers, c) + (if ends then TimesIn(WaitersOf(s, e.id), c) else 0)
  {
    hide HandleWait, HandleDone, TimesAnswered, TimesIn;
    if e.Wait? {
      CountsWait(s, e.id, e.channel, id, c);
    } else if e.Done? && e.id in s.agents {
      CountsDone(s, e, id, c);
    } else {
      CountsOther(s, e);
    }
  }

  ghost predicate FreshChannel(es: seq<Event>, c: Channel) {
    forall j :: 0 <= j < |es| && es[j].Wait? ==> es[j].channel != c
  }

  lemma {:induction false} UnusedChannel(hasSink: bool, es: seq<Event>, c: Channel)
    requires FreshChannel(es, c)
    ensures Unheard(Run(hasSink, es), c)
  {
    if es != [] {
      hide Step, TimesIn, TimesAnswered, WaitersOf;
      UnusedChannel(hasSink, Init(es), c);
      StepUnheard(Run(hasSink, Init(es)), Last(es), c);
    }
  }

  lemma StepUnheard(s: State, e: Event, c: Channel)
    requires Unheard(s, c) && (e.Wait? ==> e.channel != c)
    ensures Unheard(Step(s, e), c)
  {
    hide Step, TimesIn, TimesAnswered, WaitersOf;
    StepCounts(s, e, "", c);
    forall id ensures TimesIn(WaitersOf(Step(s, e), id), c) == 0 {
      StepCounts(s, e, id, c);
    }
  }

  lemma StepPledged(s: State, e: Event, id: string, c: Channel)
    requires Pledged(s, id, c) && (e.Wait? ==> e.channel != c)
    ensures Pledged(Step(s, e), id, c)
  {
    hide Step, TimesIn, TimesAnswered, WaitersOf;
    StepCounts(s, e, id, c);
    forall other | other != id ensures TimesIn(WaitersOf(Step(s, e), other), c) == 0 {
      StepCounts(s, e, other, c);
    }
  }

  lemma AskedPledges(s: State, id: string, c: Channel)
    requires Unheard(s, c)
    ensures Pledged(HandleWait(s, id, c), id, c)
  {
    hide HandleWait, TimesIn, TimesAnswered, WaitersOf;
    CountsWait(s, id, c, id, c);
    forall other | other != id ensures TimesIn(WaitersOf(HandleWait(s, id, c), other), c) == 0 {
      CountsWait(s, id, c, other, c);
    }
  }

  /**
   A Wait made on its own channel is answered at most once: after any further events it has been
   answered exactly once, or it is queued exactly once for an agent that is still running.
   */
  lemma {:induction false} WaitAnsweredOnce(hasSink: bool, before: seq<Event>, id: string, c: Channel,
                                            after: seq<Event>)
    requires FreshChannel(before, c) && FreshChannel(after, c)
    ensures var s := Run(hasSink, before + [Wait(id, c)] + after);
      && Pledged(s, id, c)
      && (TimesAnswered(s.answers, c) == 0 ==> id in s.agents && id in s.waiters && c in s.waiters[id])
    decreases after
  {
    hide Step, TimesAnswered, TimesIn, WaitersRun, Registered, PendingQueued;
    var es := before + [Wait(id, c)] + after;
    if after == [] {
      assert Init(es) == before;
      UnusedChannel(hasSink, before, c);
      AskedPledges(Run(hasSink, before), id, c);
      StepIsHandleWait(Run(hasSink, before), id, c);
    } else {
      assert Init(es) == before + [Wait(id, c)] + Init(after);
      WaitAnsweredOnce(hasSink, before, id, c, Init(after));
      assert Last(es) == Last(after);
      StepPledged(Run(hasSink, Init(es)), Last(es), id, c);
    }
    RunSound(hasSink, es);
    WaitingRuns(Run(hasSink, es), id, c);
  }

  lemma StepIsHandleWait(s: State, id: string, c: Channel)
    ensures Step(s, Wait(id, c)) == HandleWait(s, id, c)
  {
  }

  lemma WaitingRuns(s: State, id: string, c: Channel)
    requires WaitersRun(s)
    ensures TimesIn(WaitersOf(s, id), c) > 0 ==> id in s.agents && id in s.waiters && c in s.waiters[id]
  {
  }

  /** A Wait is left unanswered by its own step exactly when the agent is running. */
  lemma WaitIsImmediateUnlessRunning(s: State, id: string, c: Channel)
    requires Sound(s)
    ensures var s' := HandleWait(s, id, c);
      && (PhaseOf(s, id) == 1 <==> s'.answers == s.answers)
      && (PhaseOf(s, id) == 2 ==> s'.answers == s.answers + [Answer(c, Some(s.completed[id]))])
      && (PhaseOf(s, id) == 0 || PhaseOf(s, id) == 3 ==> s'.answers == s.answers + [Answer(c, None)])
  {
    hide Born, WaitersOf;
  }

  lemma TellOneMore(channels: seq<Channel>, c: Channel, r: Record)
    ensures Tell(channels + [c], r) == Tell(channels, r) + [Answer(c, Some(r))]
  {
    assert Init(channels + [c]) == channels;
  }

  /**
   Whether Wait or the agent's end comes first, the answer is the same; the one difference is that
   waiting first leaves the finished record in the registry, and waiting second collects it.
   */
  lemma WaitCommutesWithDone(s: State, id: string, c: Channel, how: Final, result: string, error: string,
                             usage: Option<Usage>)
    requires Registered(s) && id in s.agents
    ensures var r := FinalRecord(s.agents[id], how, result, error, usage);
      var waitFirst := HandleDone(HandleWait(s, id, c), id, how, result, error, usage);
      var doneFirst := HandleWait(HandleDone(s, id, how, result, error, usage), id, c);
      && waitFirst.(completed := doneFirst.completed) == doneFirst
      && waitFirst.answers == s.answers + Tell(WaitersOf(s, id), r) + [Answer(c, Some(r))]
      && waitFirst.completed == doneFirst.completed[id := r] && id !in doneFirst.completed
  {
    hide RemoveFirst, Accumulate, Born, Tell, FinalRecord;
    var r := FinalRecord(s.agents[id], how, result, error, usage);
    var ws := WaitersOf(s, id);
    TellOneMore(ws, c, r);
    assert s.answers + Tell(ws + [c], r) == s.answers + Tell(ws, r) + [Answer(c, Some(r))];
    assert s.waiters[id := ws + [c]] - {id} == s.waiters - {id};
    assert s.completed[id := r] == (s.completed[id := r] - {id})[id := r];
  }
}
