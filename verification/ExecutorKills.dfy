/** What the plan interpreter asks of the spawner, and in particular whom it kills and when. */
module ExecutorKills {
  import opened Messages
  import opened Plans
  import opened Templates
  import opened Executor
  import opened ExecutorOutcome

  // ---- One step ----

  /** The prompt sent for a step whose template reads `text`: confirmed steps are told how to confirm. */
  predicate IsPromptFor(step: Step, text: string, prompt: string) {
    if step.confirm then
      && |prompt| == |text| + |CONFIRM_DIRECTIVE| && prompt[..|text|] == text
      && prompt[|text|..] == CONFIRM_DIRECTIVE
    else prompt == text
  }

  /**
   The log after a step whose prompt reads `text`: one Spawn with the prompt, then one Wait if it started, then
   what its sub-plan adds if its agent completed.
   */
  predicate StepLog(w: World, e: Env, step: Step, text: string, r: StepOutcome) {
    var log, n := r.env.log, |e.log|;
    && n < |log| && log[..n] == e.log && log[n].Spawn?
    && log[n].agentType == step.agentType && IsPromptFor(step, text, log[n].prompt)
    && log[n].reply == w.spawn(e.log, step.agentType, log[n].prompt)
    && (log[n].reply.Refused? ==>
          |log| == n + 1 && r == StepFailed(Env(e.vars, log), SpawnFailed(log[n].reply.error)))
    && (log[n].reply.Id? ==>
          && n + 1 < |log| && log[n + 1] == Wait(log[n].reply.id)
          && AfterWait(w, e.(log := log[..n + 2]), step, w.wait(log[..n + 1], log[n].reply.id), log))
  }

  /** After the Wait: a completed agent's sub-plan goes on from there; otherwise nothing more is asked. */
  predicate AfterWait(w: World, e: Env, step: Step, ra: Option<Agent>, log: seq<Action>) {
    if Finished(ra) && step.subPlan.Some?
    then log == RunPlan(w, Bind(e, step, ra.value.result), step.subPlan.value).env.log
    else log == e.log
  }

  lemma PromptMeaning(step: Step, vars: map<string, string>)
    ensures var filled, prompt := Subst(step.prompt, vars), PromptOf(step, vars);
      if filled.Missing? then prompt == filled else prompt.Filled? && IsPromptFor(step, filled.text, prompt.text)
  {
    hide Subst, CONFIRM_DIRECTIVE;
  }

  lemma CompletedLog(w: World, e: Env, step: Step, ra: Option<Agent>)
    requires Finished(ra)
    ensures AfterWait(w, e, step, ra, AfterCompleted(w, e, step, ra.value.result).env.log)
  {
    hide RunPlan;
  }

  /** What a step asks of the spawner: nothing if a variable is undefined. */
  lemma StepAsks(w: World, e: Env, step: Step)
    ensures var filled, r := Subst(step.prompt, e.vars), RunStep(w, e, step);
      && (filled.Missing? ==> r == StepFailed(e, UndefinedVariables(filled.names)))
      && (filled.Filled? ==> StepLog(w, e, step, filled.text, r))
  {
    hide RunPlan, AfterCompleted, PromptOf, Subst, IsPromptFor;
    PromptMeaning(step, e.vars);
    if PromptOf(step, e.vars).Filled? {
      StartedAsks(w, e, step);
    }
  }

  lemma StartedAsks(w: World, e: Env, step: Step)
    requires Subst(step.prompt, e.vars).Filled? && PromptOf(step, e.vars).Filled?
    requires IsPromptFor(step, Subst(step.prompt, e.vars).text, PromptOf(step, e.vars).text)
    ensures StepLog(w, e, step, Subst(step.prompt, e.vars).text, RunStep(w, e, step))
  {
    hide RunPlan, AfterCompleted, PromptOf, Subst, IsPromptFor;
    var r, started := RunStep(w, e, step), SpawnStep(w, e, step);
    if started.Started? {
      var e1, e2 := started.env, started.env.Do(Wait(started.id));
      var ra := w.wait(e1.log, started.id);
      if Finished(ra) {
        CompletedGrows(w, e2, step, ra.value.result);
        CompletedLog(w, e2, step, ra);
      }
      Prefixes(e.log, e1.log, e2.log, r.env.log);
    }
  }

  lemma Prefixes(a: seq<Action>, b: seq<Action>, c: seq<Action>, d: seq<Action>)
    requires a <= b && |b| == |a| + 1 && b <= c && |c| == |a| + 2 && c <= d
    ensures d[..|a|] == a && d[..|a| + 1] == b && d[..|a| + 2] == c
    ensures d[|a|] == b[|a|] && d[|a| + 1] == c[|a| + 1]
  {
  }

  // ---- Killing ----

  function Kills(ids: seq<string>): seq<Action> {
    seq(|ids|, i requires 0 <= i < |ids| => Kill(ids[i]))
  }

  lemma {:induction false} KillAllAdds(e: Env, ids: seq<string>)
    ensures KillAll(e, ids).log == e.log + Kills(ids)
  {
    if ids != [] {
      KillAllAdds(e, Init(ids));
      assert Kills(ids) == Kills(Init(ids)) + [Kill(Last(ids))];
    } else {
      assert Kills(ids) == [];
    }
  }

  /** Step `k` is the first of the phase to fail. */
  ghost predicate FirstToFail(w: World, e: Env, phaseIdx: nat, phase: Phase, ids: seq<string>, k: nat)
    requires k < |phase.steps| == |ids|
  {
    && WaitCause(w, e, phaseIdx, phase, ids, k).Some?
    && forall j :: 0 <= j < k ==> WaitCause(w, e, phaseIdx, phase, ids, j).None?
  }

  /**
   The stretch of a log from the Wait for agent `k` to just before the Wait for the next, `from` to `to`: the
   Wait; then a Kill for every later agent, in order, exactly if the step is the first to fail and its agent was
   found and had not completed; what a completed agent's sub-plan adds; and nothing else.
   */
  ghost predicate IsWaitStretch(w: World, vars: map<string, string>, log: seq<Action>, from: nat, to: nat, step: Step,
                                ids: seq<string>, k: nat, first: bool)
    requires k < |ids|
  {
    && from < to <= |log| && log[from] == Wait(ids[k])
    && var ra := w.wait(log[..from], ids[k]);
       if first && ra.Some? && !ra.value.status.AgentCompleted? then log[from + 1..to] == Kills(ids[k + 1..])
       else AfterWait(w, Env(vars, log[..from + 1]), step, ra, log[..to])
  }

  lemma WaitStretch(w: World, e: Env, phaseIdx: nat, phase: Phase, ids: seq<string>, k: nat)
    requires k < |phase.steps| == |ids|
    ensures var r, r' := WaitAll(w, e, phaseIdx, phase, ids, k), WaitAll(w, e, phaseIdx, phase, ids, k + 1);
      IsWaitStretch(w, r.env.vars, r'.env.log, |r.env.log|, |r'.env.log|, phase.steps[k], ids, k,
                    FirstToFail(w, e, phaseIdx, phase, ids, k))
  {
    hide AfterCompleted, KillAll, WaitAll, Kills;
    var r, r' := WaitAll(w, e, phaseIdx, phase, ids, k), WaitAll(w, e, phaseIdx, phase, ids, k + 1);
    var ra := w.wait(r.env.log, ids[k]);
    WaitUnfold(w, e, phaseIdx, phase, ids, k);
    ParallelOutcomeIsResults(w, e, phaseIdx, phase, ids, k);
    OneStretch(w, r, phaseIdx, phase, ids, k);
  }

  lemma WaitUnfold(w: World, e: Env, phaseIdx: nat, phase: Phase, ids: seq<string>, k: nat)
    requires k < |phase.steps| == |ids|
    ensures WaitAll(w, e, phaseIdx, phase, ids, k + 1)
         == WaitOne(w, WaitAll(w, e, phaseIdx, phase, ids, k), phaseIdx, phase, ids, k)
  {
    hide WaitOne;
  }

  /** One wait, after the outcome `r` of those before it. */
  lemma OneStretch(w: World, r: Outcome, phaseIdx: nat, phase: Phase, ids: seq<string>, k: nat)
    requires k < |phase.steps| == |ids|
    ensures var log := WaitOne(w, r, phaseIdx, phase, ids, k).env.log;
      IsWaitStretch(w, r.env.vars, log, |r.env.log|, |log|, phase.steps[k], ids, k,
                    r.error.None? && CauseOf(w, r.env, phase.steps[k], ids[k]).Some?)
  {
    hide KillAll, Kills, RunPlan;
    var e1, ra := r.env.Do(Wait(ids[k])), w.wait(r.env.log, ids[k]);
    var log := WaitOne(w, r, phaseIdx, phase, ids, k).env.log;
    KillAllAdds(e1, ids[k + 1..]);
    WaitOneGrows(w, r, phaseIdx, phase, ids, k);
    if Finished(ra) {
      CompletedGrows(w, e1, phase.steps[k], ra.value.result);
    }
    assert e1.log <= log && e1.log[..|r.env.log|] == r.env.log;
    assert log[..|r.env.log|] == r.env.log && log[..|r.env.log| + 1] == e1.log && log[..|log|] == log;
  }

  lemma {:induction false} WaitsGrow(w: World, e: Env, phaseIdx: nat, phase: Phase, ids: seq<string>, k: nat, n: nat)
    requires k <= n <= |phase.steps| == |ids|
    ensures WaitAll(w, e, phaseIdx, phase, ids, k).env.log <= WaitAll(w, e, phaseIdx, phase, ids, n).env.log
    decreases n - k
  {
    hide WaitOne, WaitAll;
    if k < n {
      WaitsGrow(w, e, phaseIdx, phase, ids, k, n - 1);
      WaitUnfold(w, e, phaseIdx, phase, ids, n - 1);
      WaitOneGrows(w, WaitAll(w, e, phaseIdx, phase, ids, n - 1), phaseIdx, phase, ids, n - 1);
    }
  }

  lemma StretchInside(w: World, vars: map<string, string>, a: seq<Action>, b: seq<Action>, from: nat, step: Step,
                      ids: seq<string>, k: nat, first: bool)
    requires k < |ids| && a <= b && IsWaitStretch(w, vars, a, from, |a|, step, ids, k, first)
    ensures IsWaitStretch(w, vars, b, from, |a|, step, ids, k, first)
  {
    hide Kills, AfterWait;
    assert b[..|a|] == a && a[..|a|] == a;
    assert b[..from] == a[..from] && b[..from + 1] == a[..from + 1] && b[from + 1..|a|] == a[from + 1..|a|];
  }

  /**
   The log of a parallel phase that has started: the spawns, then for each agent in order its Wait and what
   belongs to it, and nothing else. The first failing agent, and no other, has all its later siblings killed.
   */
  lemma FailureKillsTheRest(w: World, e: Env, phaseIdx: nat, phase: Phase, k: nat)
    requires phase.parallel && SpawnAll(w, e, phaseIdx, phase.steps, |phase.steps|).AllStarted? && k < |phase.steps|
    ensures var started := SpawnAll(w, e, phaseIdx, phase.steps, |phase.steps|);
      var before := WaitAll(w, started.env, phaseIdx, phase, started.ids, k).env;
      var log, from := RunPhase(w, e, phaseIdx, phase).env.log, |before.log|;
      var to := |WaitAll(w, started.env, phaseIdx, phase, started.ids, k + 1).env.log|;
      && IsWaitStretch(w, before.vars, log, from, to, phase.steps[k], started.ids, k,
                       FirstToFail(w, started.env, phaseIdx, phase, started.ids, k))
      && (k == 0 ==> from == |started.env.log| == |e.log| + |phase.steps|)
      && (k == |phase.steps| - 1 ==> to == |log|)
  {
    hide WaitAll, SpawnAll, FirstToFail, IsWaitStretch;
    var started := SpawnAll(w, e, phaseIdx, phase.steps, |phase.steps|);
    var e1, ids, n := started.env, started.ids, |phase.steps|;
    var r := WaitAll(w, e1, phaseIdx, phase, ids, k + 1);
    WaitStretch(w, e1, phaseIdx, phase, ids, k);
    WaitsGrow(w, e1, phaseIdx, phase, ids, k + 1, n);
    StretchInside(w, WaitAll(w, e1, phaseIdx, phase, ids, k).env.vars, r.env.log,
                  WaitAll(w, e1, phaseIdx, phase, ids, n).env.log, |WaitAll(w, e1, phaseIdx, phase, ids, k).env.log|,
                  phase.steps[k], ids, k, FirstToFail(w, e1, phaseIdx, phase, ids, k));
    WaitNone(w, e1, phaseIdx, phase, ids);
    ParallelPromptsUseStartVars(w, e, phaseIdx, phase.steps, n);
  }

  /**
   A parallel phase that fails to start has spawned the steps before the failing one and killed exactly those,
   in order, before anything is waited on.
   */
  lemma {:induction false} BrokenStartKills(w: World, e: Env, phaseIdx: nat, steps: seq<Step>, n: nat)
    requires n <= |steps| && SpawnAll(w, e, phaseIdx, steps, n).SpawnBroke?
    ensures var broke := SpawnAll(w, e, phaseIdx, steps, n);
      var m := broke.error.step;
      && m < n && broke.error.phase == phaseIdx && broke.env.vars == e.vars
      && var before := SpawnAll(w, e, phaseIdx, steps, m);
         && before.AllStarted?
         && var last := SpawnStep(w, before.env, steps[m]);
            && last == NotStarted(last.env, broke.error.cause)
            && broke.env.log == last.env.log + Kills(before.ids)
    decreases n
  {
    hide SpawnStep, KillAll, Kills;
    var before := SpawnAll(w, e, phaseIdx, steps, n - 1);
    if before.SpawnBroke? {
      BrokenStartKills(w, e, phaseIdx, steps, n - 1);
    } else {
      var last := SpawnStep(w, before.env, steps[n - 1]);
      KillAllAdds(last.env, before.ids);
      SpawnAllGrows(w, e, phaseIdx, steps, n);
    }
  }
}
