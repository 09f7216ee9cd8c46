/** The queue of pending confirmations: when it is first-in first-out, and exactly when it stops being so. */
module ConfirmQueue {
  import opened Messages
  import opened Coordinator
  import opened CoordinatorRuns

  /** The event takes agent `id` off the queue: it is answered, or the agent ends. */
  predicate Closes(s: State, e: Event, id: string) {
    (e.Confirm? && e.id == id) || Ends(s, e, id)
  }

  /** The request made at position `i` of a run has not been closed since. */
  ghost predicate Open(hasSink: bool, es: seq<Event>, i: nat)
    requires i < |es|
  {
    es[i].AskConfirm? && forall j :: i < j < |es| ==> !Closes(Run(hasSink, es[..j]), es[j], es[i].id)
  }

  /** The agents with open requests among the first `m` events, in order of arrival. */
  ghost function OpenIds(hasSink: bool, es: seq<Event>, m: nat): seq<string>
    requires m <= |es|
  {
    if m == 0 then []
    else OpenIds(hasSink, es, m - 1) + OpenAt(hasSink, es, m - 1)
  }

  ghost function OpenAt(hasSink: bool, es: seq<Event>, i: nat): seq<string>
    requires i < |es|
  {
    if Open(hasSink, es, i) then [es[i].id] else []
  }

  /** No agent asks again while a request of its own is queued. */
  ghost predicate Disciplined(hasSink: bool, es: seq<Event>) {
    forall j :: 0 <= j < |es| && es[j].AskConfirm? ==> es[j].id !in Run(hasSink, es[..j]).order
  }

  /** The queue lists exactly the pending agents, each once. */
  ghost predicate Faithful(s: State) {
    NoDuplicates(s.order) && forall id :: id in s.order <==> id in s.pending
  }

  // ---- One event ----

  lemma StepOrder(s: State, e: Event)
    ensures var s' := Step(s, e);
      && (e.AskConfirm? ==> s'.order == s.order + [e.id] && s'.pending == s.pending[e.id := e.channel])
      && (!e.AskConfirm? ==>
            if e.Confirm? || (e.Done? && e.id in s.agents)
            then s'.order == RemoveFirst(s.order, e.id) && s'.pending == s.pending - {e.id}
            else s'.order == s.order && s'.pending == s.pending)
  {
    hide AgentName, RemoveFirst, Tell, Accumulate, FinalRecord, WaitersOf;
  }

  /** From a faithful queue, asking keeps it faithful exactly if the agent is not queued already. */
  lemma AskKeepsFaithfulIff(s: State, id: string, c: Channel)
    requires Faithful(s)
    ensures Faithful(HandleAskConfirm(s, id, c)) <==> id !in s.order
  {
    var order := s.order + [id];
    if id in s.order {
      var i :| 0 <= i < |s.order| && s.order[i] == id;
      assert order[i] == order[|s.order|];
    }
  }

  /** Every other event keeps the queue faithful. */
  lemma OthersKeepFaithful(s: State, e: Event)
    requires Faithful(s) && !e.AskConfirm?
    ensures Faithful(Step(s, e))
  {
    hide Step, NoDuplicates, RemoveFirst;
    StepOrder(s, e);
    if e.Confirm? || (e.Done? && e.id in s.agents) {
      RemoveFirstNoDuplicates(s.order, e.id);
      forall id ensures id != e.id ==> (id in RemoveFirst(s.order, e.id) <==> id in s.order) {
        RemoveFirstMembers(s.order, e.id, id);
      }
    }
  }

  /**
   An agent that asks again while queued leaves a stale entry: after one answer it is still listed,
   with no request behind it, and a second answer is delivered to nobody.
   */
  lemma SecondAskGoesStale(s: State, id: string, c: Channel, approved: bool, again: bool)
    requires Faithful(s) && id in s.order
    ensures var s' := HandleConfirm(HandleAskConfirm(s, id, c), id, approved, true);
      && id in s'.order && id !in s'.pending && !Faithful(s')
      && s'.responses == s.responses + [Response(c, approved)]
      && HandleConfirm(s', id, again, true).responses == s'.responses
  {
    hide NoDuplicates, RemoveFirst;
    RemoveFirstConcat(s.order, [id], id);
    var s' := HandleConfirm(HandleAskConfirm(s, id, c), id, approved, true);
    assert s'.order == RemoveFirst(s.order, id) + [id];
    assert s'.order[|s'.order| - 1] == id;
  }

  /** Such a run exists: one agent asking twice before it is answered. */
  lemma SecondAskExample(hasSink: bool)
    ensures var id := AgentName(0);
      var es := [Spawn("", ""), AskConfirm(id, 0), AskConfirm(id, 1), Confirm(id, true, true)];
      Oldest(Run(hasSink, es)) == id && id !in Run(hasSink, es).pending
  {
    hide AgentName, Run;
    var id := AgentName(0);
    var one := [Spawn("", "")];
    var two := one + [AskConfirm(id, 0)];
    var three := two + [AskConfirm(id, 1)];
    RunUnfold(hasSink, [], Spawn("", ""));
    assert [] + one == one;
    RunUnfold(hasSink, one, AskConfirm(id, 0));
    RunUnfold(hasSink, two, AskConfirm(id, 1));
    RunUnfold(hasSink, three, Confirm(id, true, true));
    assert Run(hasSink, []) == Initial(hasSink) by { RunNothing(hasSink); }
    assert Run(hasSink, three).order == [id, id];
    assert three + [Confirm(id, true, true)]
        == [Spawn("", ""), AskConfirm(id, 0), AskConfirm(id, 1), Confirm(id, true, true)];
  }

  lemma RunNothing(hasSink: bool)
    ensures Run(hasSink, []) == Initial(hasSink)
  {
  }

  // ---- Whole runs ----

  function Without<T(==)>(s: seq<T>, x: T): seq<T> {
    if s == [] then [] else Without(Init(s), x) + (if Last(s) == x then [] else [Last(s)])
  }

  lemma {:induction false} WithoutConcat<T>(a: seq<T>, b: seq<T>, x: T)
    ensures Without(a + b, x) == Without(a, x) + Without(b, x)
  {
    if b == [] {
      assert a + b == a;
    } else {
      WithoutConcat(a, Init(b), x);
      assert Init(a + b) == a + Init(b);
    }
  }

  lemma {:induction false} WithoutAbsent<T>(s: seq<T>, x: T)
    requires x !in s
    ensures Without(s, x) == s
  {
    if s != [] {
      var before := Init(s);
      assert s == before + [Last(s)] && x != Last(s);
      WithoutAbsent(before, x);
    }
  }

  lemma {:induction false} WithoutIsRemoveFirst<T>(s: seq<T>, x: T)
    requires NoDuplicates(s)
    ensures Without(s, x) == RemoveFirst(s, x)
  {
    if s != [] {
      hide Without;
      WithoutConcat([s[0]], s[1..], x);
      assert s == [s[0]] + s[1..];
      WithoutOne(s[0], x);
      if s[0] == x {
        assert forall i :: 0 <= i < |s[1..]| ==> s[1..][i] == s[i + 1];
        WithoutAbsent(s[1..], x);
      } else {
        assert NoDuplicates(s[1..]);
        WithoutIsRemoveFirst(s[1..], x);
      }
    }
  }

  lemma WithoutOne<T>(y: T, x: T)
    ensures Without([y], x) == if y == x then [] else [y]
  {
  }

  lemma OpenAtStep(hasSink: bool, es: seq<Event>, e: Event, i: nat)
    requires i < |es|
    ensures OpenAt(hasSink, es + [e], i)
         == if OpenAt(hasSink, es, i) != [] && Closes(Run(hasSink, es), e, OpenAt(hasSink, es, i)[0]) then []
            else OpenAt(hasSink, es, i)
    ensures |OpenAt(hasSink, es, i)| <= 1
  {
    hide Closes, Run;
    var es' := es + [e];
    assert es'[i] == es[i];
    assert forall j :: 0 <= j < |es| ==> es'[j] == es[j] && es'[..j] == es[..j];
    assert es'[|es|] == e && es'[..|es|] == es;
  }

  function Closed(s: State, e: Event): Option<string> {
    if e.Confirm? || (e.Done? && e.id in s.agents) then Some(e.id) else None
  }

  lemma ClosesOne(s: State, e: Event, id: string)
    ensures Closes(s, e, id) <==> Closed(s, e) == Some(id)
  {
  }

  lemma {:induction false} OpenIdsStep(hasSink: bool, es: seq<Event>, e: Event, m: nat)
    requires m <= |es|
    ensures var closed := Closed(Run(hasSink, es), e);
      OpenIds(hasSink, es + [e], m)
      == if closed.Some? then Without(OpenIds(hasSink, es, m), closed.value) else OpenIds(hasSink, es, m)
    decreases m
  {
    hide OpenAt, Run, Closes, Closed, Without;
    var closed := Closed(Run(hasSink, es), e);
    if m > 0 {
      OpenIdsStep(hasSink, es, e, m - 1);
      OneOpen(hasSink, es, e, m - 1);
      if closed.Some? {
        WithoutConcat(OpenIds(hasSink, es, m - 1), OpenAt(hasSink, es, m - 1), closed.value);
      }
    } else if closed.Some? {
      WithoutNothing(closed.value);
    }
  }

  lemma WithoutNothing(id: string)
    ensures Without([], id) == []
  {
  }

  lemma OneOpen(hasSink: bool, es: seq<Event>, e: Event, i: nat)
    requires i < |es|
    ensures var closed := Closed(Run(hasSink, es), e);
      OpenAt(hasSink, es + [e], i)
      == if closed.Some? then Without(OpenAt(hasSink, es, i), closed.value) else OpenAt(hasSink, es, i)
  {
    hide OpenAt, Run, Closes, Closed;
    OpenAtStep(hasSink, es, e, i);
    var at := OpenAt(hasSink, es, i);
    if at != [] {
      ClosesOne(Run(hasSink, es), e, at[0]);
      assert at == [at[0]];
    }
  }

  lemma OpenNow(hasSink: bool, es: seq<Event>, e: Event)
    ensures OpenAt(hasSink, es + [e], |es|) == if e.AskConfirm? then [e.id] else []
  {
    hide Closes, Run;
  }

  lemma DisciplinedInit(hasSink: bool, es: seq<Event>)
    requires es != [] && Disciplined(hasSink, es)
    ensures Disciplined(hasSink, Init(es))
    ensures Last(es).AskConfirm? ==> Last(es).id !in Run(hasSink, Init(es)).order
  {
    hide Run;
    assert forall j :: 0 <= j < |es| - 1 ==> Init(es)[j] == es[j] && Init(es)[..j] == es[..j];
    assert es[..|es| - 1] == Init(es);
  }

  /**
   In a disciplined run the queue is at all times a duplicate-free listing, in order of arrival, of the
   agents whose request is still open, and these are exactly the agents with a pending request.
   */
  lemma {:induction false} QueueIsFifo(hasSink: bool, es: seq<Event>)
    requires Disciplined(hasSink, es)
    ensures Faithful(Run(hasSink, es)) && Run(hasSink, es).order == OpenIds(hasSink, es, |es|)
  {
    hide Disciplined, Faithful, Closes, Step, OpenAt, Without, RemoveFirst, NoDuplicates, Run;
    if es == [] {
      NoQueue(hasSink);
    } else {
      var es0, e := Init(es), Last(es);
      var s := Run(hasSink, es0);
      assert es0 + [e] == es;
      DisciplinedInit(hasSink, es);
      QueueIsFifo(hasSink, es0);
      RunUnfold(hasSink, es0, e);
      StepOrder(s, e);
      OpenIdsStep(hasSink, es0, e, |es0|);
      OpenNow(hasSink, es0, e);
      FaithfulNoDuplicates(s);
      if e.AskConfirm? {
        AskKeepsFaithfulIff(s, e.id, e.channel);
        StepIsHandleAsk(s, e.id, e.channel);
      } else {
        OthersKeepFaithful(s, e);
        if e.Confirm? || (e.Done? && e.id in s.agents) {
          WithoutIsRemoveFirst(s.order, e.id);
        }
      }
    }
  }

  lemma NoQueue(hasSink: bool)
    ensures Faithful(Run(hasSink, [])) && Run(hasSink, []).order == OpenIds(hasSink, [], 0)
  {
  }

  /** The queue lists exactly the pending agents throughout a run if and only if no agent asks while queued. */
  lemma AlwaysFaithfulIff(hasSink: bool, es: seq<Event>)
    ensures Disciplined(hasSink, es) <==> forall n :: 0 <= n <= |es| ==> Faithful(Run(hasSink, es[..n]))
  {
    hide Faithful, Run, Step;
    if Disciplined(hasSink, es) {
      forall n | 0 <= n <= |es| ensures Faithful(Run(hasSink, es[..n])) {
        DisciplinedPrefix(hasSink, es, n);
        QueueIsFifo(hasSink, es[..n]);
      }
    }
    if forall n :: 0 <= n <= |es| ==> Faithful(Run(hasSink, es[..n])) {
      forall j | 0 <= j < |es| && es[j].AskConfirm? ensures es[j].id !in Run(hasSink, es[..j]).order {
        assert es[..j + 1] == es[..j] + [es[j]];
        RunUnfold(hasSink, es[..j], es[j]);
        StepIsHandleAsk(Run(hasSink, es[..j]), es[j].id, es[j].channel);
        AskKeepsFaithfulIff(Run(hasSink, es[..j]), es[j].id, es[j].channel);
      }
    }
  }

  lemma DisciplinedPrefix(hasSink: bool, es: seq<Event>, n: nat)
    requires n <= |es| && Disciplined(hasSink, es)
    ensures Disciplined(hasSink, es[..n])
  {
    hide Run;
    forall j | 0 <= j < n && es[..n][j].AskConfirm? ensures es[..n][j].id !in Run(hasSink, es[..n][..j]).order {
      assert es[..n][..j] == es[..j] && es[..n][j] == es[j];
    }
  }

  lemma FaithfulNoDuplicates(s: State)
    requires Faithful(s)
    ensures NoDuplicates(s.order)
  {
  }

  lemma StepIsHandleAsk(s: State, id: string, c: Channel)
    ensures Step(s, AskConfirm(id, c)) == HandleAskConfirm(s, id, c)
  {
  }

  /** HasPendingConfirm names the agent whose open request is the oldest, or nobody when none is open. */
  lemma OldestIsOldestOpen(hasSink: bool, es: seq<Event>, i: nat)
    requires Disciplined(hasSink, es) && i < |es| && Open(hasSink, es, i)
    requires forall k :: 0 <= k < i ==> !Open(hasSink, es, k)
    ensures Oldest(Run(hasSink, es)) == es[i].id && es[i].id in Run(hasSink, es).pending
  {
    hide Open, Run, NoDuplicates;
    QueueIsFifo(hasSink, es);
    FirstOpen(hasSink, es, i, |es|);
  }

  lemma {:induction false} FirstOpen(hasSink: bool, es: seq<Event>, i: nat, m: nat)
    requires i < m <= |es| && Open(hasSink, es, i)
    requires forall k :: 0 <= k < i ==> !Open(hasSink, es, k)
    ensures OpenIds(hasSink, es, m) != [] && es[i].AskConfirm? && OpenIds(hasSink, es, m)[0] == es[i].id
    decreases m
  {
    hide Run, Closes;
    if i < m - 1 {
      FirstOpen(hasSink, es, i, m - 1);
    } else {
      NoneOpen(hasSink, es, i);
    }
  }

  lemma {:induction false} NoneOpen(hasSink: bool, es: seq<Event>, m: nat)
    requires m <= |es| && forall k :: 0 <= k < m ==> !Open(hasSink, es, k)
    ensures OpenIds(hasSink, es, m) == []
  {
    hide Open;
    if m > 0 {
      NoneOpen(hasSink, es, m - 1);
    }
  }

  /** The request an answer to agent `id` goes to: its latest one, if it is still open. */
  ghost predicate LatestOpen(hasSink: bool, es: seq<Event>, i: nat, id: string) {
    && i < |es| && Open(hasSink, es, i) && es[i].id == id
    && forall k :: i < k < |es| ==> !(es[k].AskConfirm? && es[k].id == id)
  }

  lemma LatestOpenStep(hasSink: bool, es: seq<Event>, e: Event, i: nat, id: string)
    ensures LatestOpen(hasSink, es + [e], i, id)
       <==> if e.AskConfirm? && e.id == id then i == |es|
            else LatestOpen(hasSink, es, i, id) && !Closes(Run(hasSink, es), e, id)
  {
    hide Closes, Run;
    var es' := es + [e];
    assert es'[|es|] == e && es'[..|es|] == es;
    assert forall j :: 0 <= j < |es| ==> es'[j] == es[j] && es'[..j] == es[..j];
  }

  /** In every run, disciplined or not, an agent's pending channel is that of its latest open request. */
  lemma {:induction false} PendingIsLatest(hasSink: bool, es: seq<Event>, id: string, i: nat)
    ensures var s := Run(hasSink, es);
      LatestOpen(hasSink, es, i, id) ==> es[i].AskConfirm? && id in s.pending && s.pending[id] == es[i].channel
  {
    if es != [] {
      hide Step, LatestOpen, Closes;
      var es0, e := Init(es), Last(es);
      assert es0 + [e] == es;
      PendingIsLatest(hasSink, es0, id, i);
      StepOrder(Run(hasSink, es0), e);
      ClosesOne(Run(hasSink, es0), e, id);
      LatestOpenStep(hasSink, es0, e, i, id);
      if LatestOpen(hasSink, es0, i, id) {
        LatestInRange(hasSink, es0, i, id);
      }
    }
  }

  lemma LatestInRange(hasSink: bool, es: seq<Event>, i: nat, id: string)
    requires LatestOpen(hasSink, es, i, id)
    ensures i < |es|
  {
  }

  lemma {:induction false} PendingIsOpen(hasSink: bool, es: seq<Event>, id: string) returns (i: nat)
    requires id in Run(hasSink, es).pending
    ensures LatestOpen(hasSink, es, i, id)
  {
    hide Step, LatestOpen, Closes, Run;
    if es == [] {
      RunNothing(hasSink);
      assert false;
    } else {
      var es0, e := Init(es), Last(es);
      assert es0 + [e] == es;
      RunUnfold(hasSink, es0, e);
      StepOrder(Run(hasSink, es0), e);
      ClosesOne(Run(hasSink, es0), e, id);
      if e.AskConfirm? && e.id == id {
        i := |es0|;
      } else {
        i := PendingIsOpen(hasSink, es0, id);
      }
      LatestOpenStep(hasSink, es0, e, i, id);
    }
  }

  /**
   In any run an answer goes to the channel of the agent's latest open request, if somebody listens there, and to
   nobody if the agent has none.
   */
  lemma AnswerReachesLatest(hasSink: bool, es: seq<Event>, id: string, approved: bool, listening: bool)
    ensures var s, s' := Run(hasSink, es), Run(hasSink, es + [Confirm(id, approved, listening)]);
      && (forall i: nat :: LatestOpen(hasSink, es, i, id) && listening ==>
            i < |es| && es[i].AskConfirm? && s'.responses == s.responses + [Response(es[i].channel, approved)])
      && (!listening || (forall i: nat :: !LatestOpen(hasSink, es, i, id)) ==> s'.responses == s.responses)
  {
    hide LatestOpen, Run;
    RunUnfold(hasSink, es, Confirm(id, approved, listening));
    if id in Run(hasSink, es).pending {
      var k := PendingIsOpen(hasSink, es, id);
    }
    forall i: nat | LatestOpen(hasSink, es, i, id)
      ensures i < |es| && es[i].AskConfirm? && id in Run(hasSink, es).pending
              && Run(hasSink, es).pending[id] == es[i].channel
    {
      PendingIsLatest(hasSink, es, id, i);
      LatestInRange(hasSink, es, i, id);
    }
  }
}
