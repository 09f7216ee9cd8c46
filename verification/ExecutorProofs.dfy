/** What every execution of a plan keeps, whatever the agents do. */
module ExecutorProofs {
  import opened Messages
  import opened Plans
  import opened Executor

  // ---- Ids in a log ----

  function IdOf(a: Action): set<string> {
    match a
    case Spawn(_, _, reply) => if reply.Id? then {reply.id} else {}
    case Wait(id) => {id}
    case Kill(id) => {id}
  }

  function IdsOf(log: seq<Action>): set<string> {
    if log == [] then {} else IdsOf(Init(log)) + IdOf(Last(log))
  }

  /** Ids returned by Spawn. */
  function SpawnedIn(log: seq<Action>): set<string> {
    if log == [] then {} else SpawnedIn(Init(log)) + (if Last(log).Spawn? then IdOf(Last(log)) else {})
  }

  lemma IdsAppend(log: seq<Action>, a: Action)
    ensures IdsOf(log + [a]) == IdsOf(log) + IdOf(a)
    ensures SpawnedIn(log + [a]) == SpawnedIn(log) + (if a.Spawn? then IdOf(a) else {})
  {
    assert Init(log + [a]) == log;
  }

  lemma {:induction false} IdsConcat(a: seq<Action>, b: seq<Action>)
    ensures IdsOf(a + b) == IdsOf(a) + IdsOf(b)
    ensures SpawnedIn(a + b) == SpawnedIn(a) + SpawnedIn(b)
  {
    if b == [] {
      assert a + b == a;
    } else {
      hide IdOf;
      IdsConcat(a, Init(b));
      assert Init(a + b) == a + Init(b);
    }
  }

  lemma {:induction false} IdsMention(log: seq<Action>, a: Action)
    requires a in log
    ensures IdOf(a) <= IdsOf(log)
  {
    if a != Last(log) {
      assert log == Init(log) + [Last(log)];
      IdsMention(Init(log), a);
    }
  }

  /** The spawner never reuses an id it has been asked about. */
  ghost predicate FreshIds(w: World) {
    forall log: seq<Action>, agentType: string, prompt: string ::
      w.spawn(log, agentType, prompt).Id? ==> w.spawn(log, agentType, prompt).id !in IdsOf(log)
  }

  // ---- Balanced segments ----

  function Waits(seg: seq<Action>, id: string): nat {
    multiset(seg)[Wait(id)]
  }

  /** Waited on exactly once; or, if it is one of the `gone`, killed and never waited on. */
  ghost predicate Settles(seg: seq<Action>, id: string, gone: set<string>) {
    if id in gone then Waits(seg, id) == 0 && Kill(id) in seg else Waits(seg, id) == 1
  }

  /** In every prefix, an id that is waited on or killed has been spawned in it. */
  ghost predicate SpawnedFirst(seg: seq<Action>) {
    forall j :: 0 <= j <= |seg| ==> IdsOf(seg[..j]) == SpawnedIn(seg[..j])
  }

  /** A stretch of the log after `before`: its own agents only, all settled but the pending ones. */
  ghost predicate Balanced(before: seq<Action>, seg: seq<Action>, pending: set<string>, gone: set<string>) {
    && SpawnedFirst(seg)
    && IdsOf(seg) !! IdsOf(before)
    && pending <= SpawnedIn(seg)
    && gone <= SpawnedIn(seg) - pending
    && (forall id :: id in pending ==> Waits(seg, id) == 0)
    && forall id :: id in SpawnedIn(seg) && id !in pending ==> Settles(seg, id, gone)
  }

  lemma WholePrefix(seg: seq<Action>)
    requires SpawnedFirst(seg)
    ensures IdsOf(seg) == SpawnedIn(seg)
  {
    assert seg[..|seg|] == seg;
  }

  lemma SpawnedFirstAppend(seg: seq<Action>, a: Action)
    requires SpawnedFirst(seg) && (a.Spawn? || IdOf(a) <= SpawnedIn(seg))
    ensures SpawnedFirst(seg + [a])
  {
    hide IdsOf, SpawnedIn, IdOf;
    WholePrefix(seg);
    IdsAppend(seg, a);
    forall j | 0 <= j <= |seg + [a]| ensures IdsOf((seg + [a])[..j]) == SpawnedIn((seg + [a])[..j]) {
      if j <= |seg| {
        assert (seg + [a])[..j] == seg[..j];
      } else {
        assert (seg + [a])[..j] == seg + [a];
      }
    }
  }

  lemma SpawnedFirstConcat(a: seq<Action>, b: seq<Action>)
    requires SpawnedFirst(a) && SpawnedFirst(b)
    ensures SpawnedFirst(a + b)
  {
    hide IdsOf, SpawnedIn;
    WholePrefix(a);
    forall j | 0 <= j <= |a + b| ensures IdsOf((a + b)[..j]) == SpawnedIn((a + b)[..j]) {
      if j <= |a| {
        assert (a + b)[..j] == a[..j];
      } else {
        assert (a + b)[..j] == a + b[..j - |a|];
        IdsConcat(a, b[..j - |a|]);
      }
    }
  }

  lemma NoMentionNoWait(seg: seq<Action>, id: string)
    requires id !in IdsOf(seg)
    ensures Waits(seg, id) == 0 && Kill(id) !in seg
  {
    hide IdsOf;
    if Wait(id) in seg {
      IdsMention(seg, Wait(id));
    }
    if Kill(id) in seg {
      IdsMention(seg, Kill(id));
    }
  }

  lemma WaitsAppend(seg: seq<Action>, a: Action, id: string)
    ensures Waits(seg + [a], id) == Waits(seg, id) + (if a == Wait(id) then 1 else 0)
    ensures Kill(id) in seg + [a] <==> Kill(id) in seg || a == Kill(id)
  {
  }

  lemma WaitsConcat(a: seq<Action>, b: seq<Action>, id: string)
    ensures Waits(a + b, id) == Waits(a, id) + Waits(b, id)
    ensures Kill(id) in a + b <==> Kill(id) in a || Kill(id) in b
  {
  }

  lemma NothingBalanced(before: seq<Action>)
    ensures Balanced(before, [], {}, {})
  {
  }

  lemma BalancedSpawn(before: seq<Action>, seg: seq<Action>, pending: set<string>, gone: set<string>, a: Action)
    requires Balanced(before, seg, pending, gone) && a.Spawn?
    requires a.reply.Id? ==> a.reply.id !in IdsOf(before + seg)
    ensures Balanced(before, seg + [a], pending + IdOf(a), gone)
  {
    hide IdsOf, SpawnedIn, SpawnedFirst, Waits;
    IdsConcat(before, seg);
    IdsAppend(seg, a);
    SpawnedFirstAppend(seg, a);
    assert IdsOf(seg) == SpawnedIn(seg) by { WholePrefix(seg); }
    forall id ensures Waits(seg + [a], id) == Waits(seg, id) && (Kill(id) in seg + [a] <==> Kill(id) in seg) {
      WaitsAppend(seg, a, id);
    }
    if a.reply.Id? {
      NoMentionNoWait(seg, a.reply.id);
    }
  }

  lemma BalancedWait(before: seq<Action>, seg: seq<Action>, pending: set<string>, gone: set<string>, id: string)
    requires Balanced(before, seg, pending, gone) && id in pending
    ensures Balanced(before, seg + [Wait(id)], pending - {id}, gone)
  {
    hide IdsOf, SpawnedIn, SpawnedFirst, Waits;
    IdsAppend(seg, Wait(id));
    SpawnedFirstAppend(seg, Wait(id));
    assert IdsOf(seg) == SpawnedIn(seg) by { WholePrefix(seg); }
    forall i ensures Waits(seg + [Wait(id)], i) == Waits(seg, i) + (if i == id then 1 else 0)
                     && (Kill(i) in seg + [Wait(id)] <==> Kill(i) in seg) {
      WaitsAppend(seg, Wait(id), i);
    }
  }

  lemma BalancedKill(before: seq<Action>, seg: seq<Action>, pending: set<string>, gone: set<string>, id: string)
    requires Balanced(before, seg, pending, gone) && id in SpawnedIn(seg)
    ensures Balanced(before, seg + [Kill(id)], pending, gone)
  {
    hide IdsOf, SpawnedIn, SpawnedFirst, Waits;
    IdsAppend(seg, Kill(id));
    SpawnedFirstAppend(seg, Kill(id));
    assert IdsOf(seg) == SpawnedIn(seg) by { WholePrefix(seg); }
    forall i ensures Waits(seg + [Kill(id)], i) == Waits(seg, i)
                     && (Kill(i) in seg ==> Kill(i) in seg + [Kill(id)]) {
      WaitsAppend(seg, Kill(id), i);
    }
  }

  lemma BalancedConcat(before: seq<Action>, a: seq<Action>, pending: set<string>, goneA: set<string>, b: seq<Action>,
                       goneB: set<string>)
    requires Balanced(before, a, pending, goneA) && Balanced(before + a, b, {}, goneB)
    ensures Balanced(before, a + b, pending, goneA + goneB)
  {
    hide IdsOf, SpawnedIn, SpawnedFirst, Waits;
    IdsConcat(before, a);
    IdsConcat(a, b);
    SpawnedFirstConcat(a, b);
    assert IdsOf(a) == SpawnedIn(a) by { WholePrefix(a); }
    assert IdsOf(b) == SpawnedIn(b) by { WholePrefix(b); }
    forall id ensures Waits(a + b, id) == Waits(a, id) + Waits(b, id)
                      && (Kill(id) in a + b <==> Kill(id) in a || Kill(id) in b) {
      WaitsConcat(a, b, id);
    }
    forall id | id in SpawnedIn(a) ensures Waits(b, id) == 0 {
      NoMentionNoWait(b, id);
    }
    forall id | id in SpawnedIn(b) ensures Waits(a, id) == 0 {
      NoMentionNoWait(a, id);
    }
  }

  /** A phase that failed to start may leave pending agents behind if it has killed them. */
  lemma BalancedAbandon(before: seq<Action>, seg: seq<Action>, pending: set<string>, gone: set<string>)
    requires Balanced(before, seg, pending, gone) && forall id :: id in pending ==> Kill(id) in seg
    ensures Balanced(before, seg, {}, gone + pending)
  {
    hide IdsOf, SpawnedIn, SpawnedFirst, Waits;
  }

  lemma {:induction false} BalancedKillAll(before: seq<Action>, seg: seq<Action>, pending: set<string>,
                                           gone: set<string>,
                                           e: Env, ids: seq<string>) returns (seg': seq<Action>)
    requires Balanced(before, seg, pending, gone) && e.log == before + seg
    requires forall k :: 0 <= k < |ids| ==> ids[k] in SpawnedIn(seg)
    ensures KillAll(e, ids) == e.(log := before + seg') && Balanced(before, seg', pending, gone)
    ensures seg <= seg' && SpawnedIn(seg') == SpawnedIn(seg)
    ensures forall k :: 0 <= k < |ids| ==> Kill(ids[k]) in seg'
  {
    if ids == [] {
      seg' := seg;
    } else {
      hide Balanced, SpawnedIn;
      var mid := BalancedKillAll(before, seg, pending, gone, e, Init(ids));
      var id := Last(ids);
      BalancedKill(before, mid, pending, gone, id);
      IdsAppend(mid, Kill(id));
      seg' := mid + [Kill(id)];
      assert before + seg' == (before + mid) + [Kill(id)];
      forall k | 0 <= k < |ids| ensures Kill(ids[k]) in seg' {
        if k < |ids| - 1 {
          assert ids[k] == Init(ids)[k];
        }
      }
    }
  }

  // ---- Agents abandoned because a later sibling failed to start ----

  /** If one of the first `n` steps of a parallel phase fails to start, the agents started before it. */
  function Abandoned(w: World, e: Env, phaseIdx: nat, steps: seq<Step>, n: nat): set<string>
    requires n <= |steps|
  {
    if n == 0 then {}
    else
      match SpawnAll(w, e, phaseIdx, steps, n - 1)
      case SpawnBroke(_, _) => Abandoned(w, e, phaseIdx, steps, n - 1)
      case AllStarted(e1, ids) => if SpawnStep(w, e1, steps[n - 1]).NotStarted? then ToSet(ids) else {}
  }

  function GoneCompleted(w: World, e: Env, step: Step, result: string): set<string>
    decreases step, 0
  {
    if step.subPlan.Some? then GonePlan(w, Bind(e, step, result), step.subPlan.value) else {}
  }

  /** The agents abandoned in the sub-plan of a step, if its agent completes. */
  function GoneAfter(w: World, e: Env, step: Step, id: string): set<string>
    decreases step, 1
  {
    var ra := w.wait(e.log, id);
    if ra.Some? && ra.value.status.AgentCompleted? then GoneCompleted(w, e.Do(Wait(id)), step, ra.value.result) else {}
  }

  function GoneStep(w: World, e: Env, step: Step): set<string>
    decreases step, 2
  {
    match SpawnStep(w, e, step)
    case NotStarted(_, _) => {}
    case Started(e1, id) => GoneAfter(w, e1, step, id)
  }

  function GoneSteps(w: World, e: Env, phaseIdx: nat, phase: Phase, n: nat): set<string>
    requires n <= |phase.steps|
    decreases phase, n
  {
    if n == 0 then {}
    else
      var r := RunSteps(w, e, phaseIdx, phase, n - 1);
      GoneSteps(w, e, phaseIdx, phase, n - 1) + (if r.error.None? then GoneStep(w, r.env, phase.steps[n - 1]) else {})
  }

  function GoneWait(w: World, e: Env, phaseIdx: nat, phase: Phase, ids: seq<string>, n: nat): set<string>
    requires n <= |phase.steps| == |ids|
    decreases phase, n
  {
    if n == 0 then {}
    else
      GoneWait(w, e, phaseIdx, phase, ids, n - 1) +
      GoneAfter(w, WaitAll(w, e, phaseIdx, phase, ids, n - 1).env, phase.steps[n - 1], ids[n - 1])
  }

  function GonePhase(w: World, e: Env, phaseIdx: nat, phase: Phase): set<string>
    decreases phase, |phase.steps| + 1
  {
    if !phase.parallel then GoneSteps(w, e, phaseIdx, phase, |phase.steps|)
    else
      match SpawnAll(w, e, phaseIdx, phase.steps, |phase.steps|)
      case SpawnBroke(_, _) => Abandoned(w, e, phaseIdx, phase.steps, |phase.steps|)
      case AllStarted(e1, ids) => GoneWait(w, e1, phaseIdx, phase, ids, |ids|)
  }

  function GonePhases(w: World, e: Env, plan: Plan, n: nat): set<string>
    requires n <= |plan.phases|
    decreases plan, n
  {
    if n == 0 then {}
    else
      var r := RunPhases(w, e, plan, n - 1);
      GonePhases(w, e, plan, n - 1) + (if r.error.None? then GonePhase(w, r.env, n - 1, plan.phases[n - 1]) else {})
  }

  /** Over the whole execution: the agents of exactly those parallel phases, at any depth, that failed to start. */
  function GonePlan(w: World, e: Env, plan: Plan): set<string>
    decreases plan, |plan.phases| + 1
  {
    GonePhases(w, e, plan, |plan.phases|)
  }

  // ---- Every execution is balanced ----

  /** Two balanced stretches, one after the other. */
  lemma JoinBalanced(e: Env, a: seq<Action>, e1: Env, goneA: set<string>, b: seq<Action>, e2: Env, goneB: set<string>)
    requires e1.log == e.log + a && Balanced(e.log, a, {}, goneA)
    requires e2.log == e1.log + b && Balanced(e1.log, b, {}, goneB)
    ensures e2.log == e.log + (a + b) && Balanced(e.log, a + b, {}, goneA + goneB)
  {
    hide Balanced;
    BalancedConcat(e.log, a, {}, goneA, b, goneB);
    assert e.log + (a + b) == (e.log + a) + b;
  }

  /** What a spawn leaves: a started agent is new and pending; a failed start changes nothing. */
  ghost predicate AfterSpawn(before: seq<Action>, seg: seq<Action>, pending: set<string>, gone: set<string>, e: Env,
                             r: Spawning) {
    match r
    case Started(_, id) => id !in IdsOf(e.log) && Balanced(before, seg, pending + {id}, gone)
    case NotStarted(_, _) => Balanced(before, seg, pending, gone)
  }

  lemma StartBalanced(w: World, before: seq<Action>, seg: seq<Action>, pending: set<string>, gone: set<string>,
                      e: Env, step: Step)
    returns (seg': seq<Action>)
    requires FreshIds(w) && Balanced(before, seg, pending, gone) && e.log == before + seg
    ensures SpawnStep(w, e, step).env == e.(log := before + seg')
    ensures SpawnedIn(seg) <= SpawnedIn(seg')
    ensures AfterSpawn(before, seg', pending, gone, e, SpawnStep(w, e, step))
  {
    hide Balanced, IdsOf, SpawnedIn, PromptOf;
    seg' := seg;
    var prompt := PromptOf(step, e.vars);
    if prompt.Filled? {
      var reply := w.spawn(e.log, step.agentType, prompt.text);
      var a := Spawn(step.agentType, prompt.text, reply);
      BalancedSpawn(before, seg, pending, gone, a);
      IdsAppend(seg, a);
      seg' := seg + [a];
      assert before + seg' == (before + seg) + [a];
      assert pending + {} == pending;
    }
  }

  lemma {:induction false} CompletedBalanced(w: World, e: Env, step: Step, result: string) returns (seg: seq<Action>)
    requires FreshIds(w)
    ensures AfterCompleted(w, e, step, result).env.log == e.log + seg
    ensures Balanced(e.log, seg, {}, GoneCompleted(w, e, step, result))
    decreases step, 0
  {
    if step.subPlan.None? {
      seg := [];
      NothingBalanced(e.log);
    } else {
      hide RunPlan, GonePlan, Balanced;
      seg := PlanBalanced(w, Bind(e, step, result), step.subPlan.value);
    }
  }

  lemma {:induction false} StepBalanced(w: World, e: Env, step: Step) returns (seg: seq<Action>)
    requires FreshIds(w)
    ensures RunStep(w, e, step).env.log == e.log + seg && Balanced(e.log, seg, {}, GoneStep(w, e, step))
    decreases step, 1
  {
    hide Balanced, SpawnStep, AfterCompleted, GoneCompleted, FreshIds;
    NothingBalanced(e.log);
    assert e.log + [] == e.log;
    seg := StartBalanced(w, e.log, [], {}, {}, e, step);
    var started := SpawnStep(w, e, step);
    match started
    case NotStarted(_, _) =>
    case Started(e1, id) =>
      BalancedWait(e.log, seg, {} + {id}, {}, id);
      assert {} + {id} - {id} == {};
      seg := seg + [Wait(id)];
      var e2 := e1.Do(Wait(id));
      assert e2.log == e.log + seg;
      var ra := w.wait(e1.log, id);
      if ra.Some? && ra.value.status.AgentCompleted? {
        var more := CompletedBalanced(w, e2, step, ra.value.result);
        var done := AfterCompleted(w, e2, step, ra.value.result);
        JoinBalanced(e, seg, e2, {}, more, done.env, GoneCompleted(w, e2, step, ra.value.result));
        assert {} + GoneCompleted(w, e2, step, ra.value.result) == GoneCompleted(w, e2, step, ra.value.result);
        seg := seg + more;
      }
  }

  lemma {:induction false} StepsBalanced(w: World, e: Env, phaseIdx: nat, phase: Phase,
                                         n: nat) returns (seg: seq<Action>)
    requires FreshIds(w) && n <= |phase.steps|
    ensures RunSteps(w, e, phaseIdx, phase, n).env.log == e.log + seg
    ensures Balanced(e.log, seg, {}, GoneSteps(w, e, phaseIdx, phase, n))
    decreases phase, n
  {
    if n == 0 {
      seg := [];
      NothingBalanced(e.log);
    } else {
      hide Balanced, RunStep, GoneStep, FreshIds;
      seg := StepsBalanced(w, e, phaseIdx, phase, n - 1);
      var r := RunSteps(w, e, phaseIdx, phase, n - 1);
      if r.error.None? {
        var more := StepBalanced(w, r.env, phase.steps[n - 1]);
        var r1 := RunStep(w, r.env, phase.steps[n - 1]);
        JoinBalanced(e, seg, r.env, GoneSteps(w, e, phaseIdx, phase, n - 1), more, r1.env,
                     GoneStep(w, r.env, phase.steps[n - 1]));
        seg := seg + more;
      }
    }
  }

  /** What spawning a phase leaves: all its distinct agents pending, or those started so far abandoned. */
  ghost predicate AfterSpawns(before: seq<Action>, seg: seq<Action>, r: Spawned, abandoned: set<string>) {
    match r
    case AllStarted(_, ids) => Balanced(before, seg, ToSet(ids), {}) && NoDuplicates(ids)
    case SpawnBroke(_, _) => Balanced(before, seg, {}, abandoned)
  }

  lemma {:induction false} SpawnAllBalanced(w: World, e: Env, phaseIdx: nat, steps: seq<Step>, n: nat)
    returns (seg: seq<Action>)
    requires FreshIds(w) && n <= |steps|
    ensures SpawnAll(w, e, phaseIdx, steps, n).env.log == e.log + seg
    ensures AfterSpawns(e.log, seg, SpawnAll(w, e, phaseIdx, steps, n), Abandoned(w, e, phaseIdx, steps, n))
    decreases n
  {
    if n == 0 {
      seg := [];
      NothingBalanced(e.log);
      assert ToSet([]) == {};
    } else {
      hide Balanced, SpawnStep, KillAll, IdsOf, SpawnedIn, FreshIds, ToSet, NoDuplicates;
      seg := SpawnAllBalanced(w, e, phaseIdx, steps, n - 1);
      var before := SpawnAll(w, e, phaseIdx, steps, n - 1);
      if before.AllStarted? {
        var ids, seg0 := before.ids, seg;
        PendingIsSpawned(e.log, seg0, ToSet(ids), {});
        seg := StartBalanced(w, e.log, seg0, ToSet(ids), {}, before.env, steps[n - 1]);
        match SpawnStep(w, before.env, steps[n - 1])
        case Started(_, id) => OneMoreId(e.log, seg0, ids, id);
        case NotStarted(e2, cause) => seg := KillStarted(e, seg, ids, e2);
      }
    }
  }

  lemma OneMoreId(before: seq<Action>, seg: seq<Action>, ids: seq<string>, id: string)
    requires id !in IdsOf(before + seg) && ToSet(ids) <= IdsOf(seg) && NoDuplicates(ids)
    ensures ToSet(ids + [id]) == ToSet(ids) + {id} && NoDuplicates(ids + [id])
  {
    hide IdsOf;
    IdsConcat(before, seg);
    assert id !in ToSet(ids);
  }

  lemma KillStarted(e: Env, seg: seq<Action>, ids: seq<string>, e2: Env) returns (seg': seq<Action>)
    requires Balanced(e.log, seg, ToSet(ids), {}) && e2.log == e.log + seg && ToSet(ids) <= SpawnedIn(seg)
    ensures KillAll(e2, ids).log == e.log + seg' && Balanced(e.log, seg', {}, ToSet(ids))
  {
    hide Balanced, KillAll, SpawnedIn;
    forall k | 0 <= k < |ids| ensures ids[k] in SpawnedIn(seg) {
      assert ids[k] in ToSet(ids);
    }
    seg' := BalancedKillAll(e.log, seg, ToSet(ids), {}, e2, ids);
    BalancedAbandon(e.log, seg', ToSet(ids), {});
    assert {} + ToSet(ids) == ToSet(ids);
  }

  lemma PendingIsSpawned(before: seq<Action>, seg: seq<Action>, pending: set<string>, gone: set<string>)
    requires Balanced(before, seg, pending, gone)
    ensures pending <= SpawnedIn(seg) <= IdsOf(seg)
  {
    WholePrefix(seg);
  }

  lemma SuffixIds(ids: seq<string>, k: nat)
    requires k < |ids| && NoDuplicates(ids)
    ensures ToSet(ids[k..]) - {ids[k]} == ToSet(ids[k + 1..]) && ids[k] in ToSet(ids[k..])
    ensures ToSet(ids[k + 1..]) <= ToSet(ids)
  {
    assert ids[k..] == [ids[k]] + ids[k + 1..];
    forall id | id in ids[k + 1..] ensures id != ids[k] && id in ids {
      var j :| 0 <= j < |ids[k + 1..]| && ids[k + 1..][j] == id;
      assert ids[k + 1 + j] == id;
    }
  }

  /** The log so far is balanced but for the agents still to be waited on. */
  ghost predicate Outstanding(before: seq<Action>, seg: seq<Action>, log: seq<Action>, ids: seq<string>, n: nat,
                              gone: set<string>)
    requires n <= |ids|
  {
    && log == before + seg
    && Balanced(before, seg, ToSet(ids[n..]), gone)
    && ToSet(ids) <= SpawnedIn(seg)
  }

  lemma WaitOnly(before: seq<Action>, seg: seq<Action>, e: Env, ids: seq<string>, k: nat, gone: set<string>)
    requires k < |ids| && NoDuplicates(ids) && Outstanding(before, seg, e.log, ids, k, gone)
    ensures Outstanding(before, seg + [Wait(ids[k])], e.Do(Wait(ids[k])).log, ids, k + 1, gone)
  {
    hide Balanced, IdsOf, SpawnedIn, ToSet;
    SuffixIds(ids, k);
    BalancedWait(before, seg, ToSet(ids[k..]), gone, ids[k]);
    IdsAppend(seg, Wait(ids[k]));
    assert (before + seg) + [Wait(ids[k])] == before + (seg + [Wait(ids[k])]);
  }

  lemma KillRest(before: seq<Action>, seg: seq<Action>, e: Env, ids: seq<string>, n: nat, gone: set<string>)
    returns (seg': seq<Action>)
    requires n <= |ids| && Outstanding(before, seg, e.log, ids, n, gone)
    ensures Outstanding(before, seg', KillAll(e, ids[n..]).log, ids, n, gone)
  {
    hide Balanced, SpawnedIn, KillAll;
    forall j | 0 <= j < |ids[n..]| ensures ids[n..][j] in SpawnedIn(seg) {
      assert ids[n..][j] in ToSet(ids);
    }
    seg' := BalancedKillAll(before, seg, ToSet(ids[n..]), gone, e, ids[n..]);
  }

  lemma RunOneSub(w: World, before: seq<Action>, seg: seq<Action>, e: Env, ids: seq<string>, n: nat, gone: set<string>,
                  step: Step, result: string) returns (seg': seq<Action>)
    requires FreshIds(w) && n <= |ids| && Outstanding(before, seg, e.log, ids, n, gone)
    ensures Outstanding(before, seg', AfterCompleted(w, e, step, result).env.log, ids, n,
                        gone + GoneCompleted(w, e, step, result))
    decreases step, 1
  {
    hide Balanced, AfterCompleted, GoneCompleted, SpawnedIn, ToSet, FreshIds;
    var more := CompletedBalanced(w, e, step, result);
    BalancedConcat(before, seg, ToSet(ids[n..]), gone, more, GoneCompleted(w, e, step, result));
    IdsConcatSpawned(seg, more);
    assert before + (seg + more) == (before + seg) + more;
    seg' := seg + more;
  }

  lemma IdsConcatSpawned(a: seq<Action>, b: seq<Action>)
    ensures SpawnedIn(a) <= SpawnedIn(a + b)
  {
    IdsConcat(a, b);
  }

  lemma {:induction false} WaitAllBalanced(w: World, before: seq<Action>, spawned: seq<Action>, e: Env, phaseIdx: nat,
                                           phase: Phase, ids: seq<string>, n: nat) returns (seg: seq<Action>)
    requires FreshIds(w) && n <= |phase.steps| == |ids| && NoDuplicates(ids)
    requires Outstanding(before, spawned, e.log, ids, 0, {})
    ensures Outstanding(before, seg, WaitAll(w, e, phaseIdx, phase, ids, n).env.log, ids, n,
                        GoneWait(w, e, phaseIdx, phase, ids, n))
    decreases phase, n
  {
    hide Outstanding, AfterCompleted, GoneCompleted, KillAll, FreshIds, NoDuplicates;
    if n == 0 {
      seg := spawned;
    } else {
      var k := n - 1;
      seg := WaitAllBalanced(w, before, spawned, e, phaseIdx, phase, ids, k);
      var r, gone := WaitAll(w, e, phaseIdx, phase, ids, k), GoneWait(w, e, phaseIdx, phase, ids, k);
      assert gone + {} == gone;
      WaitOnly(before, seg, r.env, ids, k, gone);
      seg := seg + [Wait(ids[k])];
      var e1 := r.env.Do(Wait(ids[k]));
      var ra := w.wait(r.env.log, ids[k]);
      if ra.Some? && !ra.value.status.AgentCompleted? && r.error.None? {
        seg := KillRest(before, seg, e1, ids, n, gone);
      } else if ra.Some? && ra.value.status.AgentCompleted? {
        seg := RunOneSub(w, before, seg, e1, ids, n, gone, phase.steps[k], ra.value.result);
      }
    }
  }

  lemma {:induction false} PhaseBalanced(w: World, e: Env, phaseIdx: nat, phase: Phase) returns (seg: seq<Action>)
    requires FreshIds(w)
    ensures RunPhase(w, e, phaseIdx, phase).env.log == e.log + seg
    ensures Balanced(e.log, seg, {}, GonePhase(w, e, phaseIdx, phase))
    decreases phase, |phase.steps| + 1
  {
    hide Balanced, SpawnAll, WaitAll, RunSteps, GoneSteps, GoneWait, FreshIds;
    if !phase.parallel {
      seg := StepsBalanced(w, e, phaseIdx, phase, |phase.steps|);
    } else {
      seg := SpawnAllBalanced(w, e, phaseIdx, phase.steps, |phase.steps|);
      var r := SpawnAll(w, e, phaseIdx, phase.steps, |phase.steps|);
      if r.AllStarted? {
        PendingIsSpawned(e.log, seg, ToSet(r.ids), {});
        assert r.ids[0..] == r.ids;
        seg := WaitAllBalanced(w, e.log, seg, r.env, phaseIdx, phase, r.ids, |r.ids|);
        assert ToSet(r.ids[|r.ids|..]) == {};
      }
    }
  }

  lemma {:induction false} PhasesBalanced(w: World, e: Env, plan: Plan, n: nat) returns (seg: seq<Action>)
    requires FreshIds(w) && n <= |plan.phases|
    ensures RunPhases(w, e, plan, n).env.log == e.log + seg
    ensures Balanced(e.log, seg, {}, GonePhases(w, e, plan, n))
    decreases plan, n
  {
    if n == 0 {
      seg := [];
      NothingBalanced(e.log);
    } else {
      hide Balanced, RunPhase, GonePhase, FreshIds;
      seg := PhasesBalanced(w, e, plan, n - 1);
      var r := RunPhases(w, e, plan, n - 1);
      if r.error.None? {
        var more := PhaseBalanced(w, r.env, n - 1, plan.phases[n - 1]);
        var r1 := RunPhase(w, r.env, n - 1, plan.phases[n - 1]);
        JoinBalanced(e, seg, r.env, GonePhases(w, e, plan, n - 1), more, r1.env,
                     GonePhase(w, r.env, n - 1, plan.phases[n - 1]));
        seg := seg + more;
      }
    }
  }

  lemma {:induction false} PlanBalanced(w: World, e: Env, plan: Plan) returns (seg: seq<Action>)
    requires FreshIds(w)
    ensures RunPlan(w, e, plan).env.log == e.log + seg && Balanced(e.log, seg, {}, GonePlan(w, e, plan))
    decreases plan, |plan.phases| + 1
  {
    hide RunPhases, GonePhases, Balanced;
    seg := PhasesBalanced(w, e, plan, |plan.phases|);
  }

  /**
   No orphaned agents: in any execution, with nested sub-plans, failing spawns and failing agents,
   every id returned by Spawn is afterwards waited on exactly once, except those that are killed, and
   never waited on, because a later step of their own parallel phase failed to start.
   Nothing is waited on or killed before it is spawned.
   */
  lemma NoOrphans(w: World, vars: map<string, string>, plan: Plan, id: string)
    requires FreshIds(w)
    ensures var e := Env(vars, []);
      id in SpawnedIn(RunPlan(w, e, plan).env.log) ==> Settles(RunPlan(w, e, plan).env.log, id, GonePlan(w, e, plan))
    ensures SpawnedFirst(RunPlan(w, Env(vars, []), plan).env.log)
  {
    hide RunPlan, GonePlan, SpawnedIn, IdsOf, Settles, SpawnedFirst;
    var seg := PlanBalanced(w, Env(vars, []), plan);
    assert [] + seg == seg;
  }

  // ---- A plan that succeeds has abandoned nobody ----

  lemma {:induction false} CompletedAbandonsNone(w: World, e: Env, step: Step, result: string)
    requires AfterCompleted(w, e, step, result).error.None?
    ensures GoneCompleted(w, e, step, result) == {}
    decreases step, 0
  {
    if step.subPlan.Some? {
      hide RunPlan, GonePlan;
      SuccessAbandonsNone(w, Bind(e, step, result), step.subPlan.value);
    }
  }

  lemma {:induction false} StepAbandonsNone(w: World, e: Env, step: Step)
    requires RunStep(w, e, step).StepOk?
    ensures GoneStep(w, e, step) == {}
    decreases step, 1
  {
    hide AfterCompleted, GoneCompleted, SpawnStep;
    match SpawnStep(w, e, step)
    case NotStarted(_, _) =>
    case Started(e1, id) =>
      var ra := w.wait(e1.log, id);
      CompletedAbandonsNone(w, e1.Do(Wait(id)), step, ra.value.result);
  }

  lemma {:induction false} StepsAbandonNone(w: World, e: Env, phaseIdx: nat, phase: Phase, n: nat)
    requires n <= |phase.steps| && RunSteps(w, e, phaseIdx, phase, n).error.None?
    ensures GoneSteps(w, e, phaseIdx, phase, n) == {}
    decreases phase, n
  {
    if n > 0 {
      hide RunStep, GoneStep;
      StepsAbandonNone(w, e, phaseIdx, phase, n - 1);
      StepAbandonsNone(w, RunSteps(w, e, phaseIdx, phase, n - 1).env, phase.steps[n - 1]);
    }
  }

  lemma {:induction false} WaitAbandonsNone(w: World, e: Env, phaseIdx: nat, phase: Phase, ids: seq<string>, n: nat)
    requires n <= |phase.steps| == |ids| && WaitAll(w, e, phaseIdx, phase, ids, n).error.None?
    ensures GoneWait(w, e, phaseIdx, phase, ids, n) == {}
    decreases phase, n
  {
    if n > 0 {
      hide AfterCompleted, GoneCompleted, KillAll;
      WaitAbandonsNone(w, e, phaseIdx, phase, ids, n - 1);
      var before := WaitAll(w, e, phaseIdx, phase, ids, n - 1).env;
      var ra := w.wait(before.log, ids[n - 1]);
      CompletedAbandonsNone(w, before.Do(Wait(ids[n - 1])), phase.steps[n - 1], ra.value.result);
    }
  }

  lemma {:induction false} PhaseAbandonsNone(w: World, e: Env, phaseIdx: nat, phase: Phase)
    requires RunPhase(w, e, phaseIdx, phase).error.None?
    ensures GonePhase(w, e, phaseIdx, phase) == {}
    decreases phase, |phase.steps| + 1
  {
    hide RunSteps, GoneSteps, WaitAll, GoneWait, SpawnAll, Abandoned;
    if !phase.parallel {
      StepsAbandonNone(w, e, phaseIdx, phase, |phase.steps|);
    } else {
      var r := SpawnAll(w, e, phaseIdx, phase.steps, |phase.steps|);
      WaitAbandonsNone(w, r.env, phaseIdx, phase, r.ids, |r.ids|);
    }
  }

  lemma {:induction false} PhasesAbandonNone(w: World, e: Env, plan: Plan, n: nat)
    requires n <= |plan.phases| && RunPhases(w, e, plan, n).error.None?
    ensures GonePhases(w, e, plan, n) == {}
    decreases plan, n
  {
    if n > 0 {
      hide RunPhase, GonePhase;
      PhasesAbandonNone(w, e, plan, n - 1);
      PhaseAbandonsNone(w, RunPhases(w, e, plan, n - 1).env, n - 1, plan.phases[n - 1]);
    }
  }

  /** A plan that succeeds has abandoned nobody, so it has waited on every agent exactly once. */
  lemma {:induction false} SuccessAbandonsNone(w: World, e: Env, plan: Plan)
    requires RunPlan(w, e, plan).error.None?
    ensures GonePlan(w, e, plan) == {}
    decreases plan, |plan.phases| + 1
  {
    hide RunPhases, GonePhases;
    PhasesAbandonNone(w, e, plan, |plan.phases|);
  }
}
