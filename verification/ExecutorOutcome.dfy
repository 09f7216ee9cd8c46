/** The outcome of a plan is a function of what the spawner answered and how the agents ended. */
module ExecutorOutcome {
  import opened Messages
  import opened Plans
  import opened Executor
  import opened ExecutorProofs

  // ---- Variables and log only grow ----

  ghost predicate Grows(before: Env, after: Env) {
    before.vars.Keys <= after.vars.Keys && before.log <= after.log
  }

  lemma {:induction false} KillGrows(e: Env, ids: seq<string>)
    ensures KillAll(e, ids).vars == e.vars && e.log <= KillAll(e, ids).log
  {
    if ids != [] {
      KillGrows(e, Init(ids));
    }
  }

  lemma SpawnGrows(w: World, e: Env, step: Step)
    ensures SpawnStep(w, e, step).env.vars == e.vars && e.log <= SpawnStep(w, e, step).env.log
  {
    hide PromptOf;
  }

  lemma OneSpawnGrows(w: World, e: Env, phaseIdx: nat, steps: seq<Step>, n: nat)
    requires 0 < n <= |steps|
    ensures var before := SpawnAll(w, e, phaseIdx, steps, n - 1).env;
      var after := SpawnAll(w, e, phaseIdx, steps, n).env;
      after.vars == before.vars && before.log <= after.log
  {
    hide SpawnStep, KillAll;
    var before := SpawnAll(w, e, phaseIdx, steps, n - 1);
    if before.AllStarted? {
      var started := SpawnStep(w, before.env, steps[n - 1]);
      SpawnGrows(w, before.env, steps[n - 1]);
      KillGrows(started.env, before.ids);
    }
  }

  lemma {:induction false} SpawnAllGrows(w: World, e: Env, phaseIdx: nat, steps: seq<Step>, n: nat)
    requires n <= |steps|
    ensures var r := SpawnAll(w, e, phaseIdx, steps, n).env; r.vars == e.vars && e.log <= r.log
    decreases n
  {
    if n > 0 {
      SpawnAllGrows(w, e, phaseIdx, steps, n - 1);
      OneSpawnGrows(w, e, phaseIdx, steps, n);
    }
  }

  lemma {:induction false} CompletedGrows(w: World, e: Env, step: Step, result: string)
    ensures Grows(e, AfterCompleted(w, e, step, result).env)
    ensures step.outputVar != "" ==> step.outputVar in AfterCompleted(w, e, step, result).env.vars
    decreases step, 0
  {
    if step.subPlan.Some? {
      hide RunPlan;
      PlanGrows(w, Bind(e, step, result), step.subPlan.value);
    }
  }

  lemma {:induction false} StepGrows(w: World, e: Env, step: Step)
    ensures Grows(e, RunStep(w, e, step).env)
    decreases step, 1
  {
    hide AfterCompleted, SpawnStep;
    SpawnGrows(w, e, step);
    match SpawnStep(w, e, step)
    case NotStarted(_, _) =>
    case Started(e1, id) =>
      var ra := w.wait(e1.log, id);
      if ra.Some? {
        CompletedGrows(w, e1.Do(Wait(id)), step, ra.value.result);
      }
  }

  lemma {:induction false} StepsGrow(w: World, e: Env, phaseIdx: nat, phase: Phase, n: nat)
    requires n <= |phase.steps|
    ensures Grows(e, RunSteps(w, e, phaseIdx, phase, n).env)
    decreases phase, n
  {
    if n > 0 {
      hide RunStep;
      StepsGrow(w, e, phaseIdx, phase, n - 1);
      StepGrows(w, RunSteps(w, e, phaseIdx, phase, n - 1).env, phase.steps[n - 1]);
    }
  }

  lemma {:induction false} WaitOneGrows(w: World, r: Outcome, phaseIdx: nat, phase: Phase, ids: seq<string>, k: nat)
    requires k < |phase.steps| == |ids|
    ensures Grows(r.env, WaitOne(w, r, phaseIdx, phase, ids, k).env)
    decreases phase, k
  {
    hide AfterCompleted, KillAll;
    var ra := w.wait(r.env.log, ids[k]);
    var e1 := r.env.Do(Wait(ids[k]));
    KillGrows(e1, ids[k + 1..]);
    if ra.Some? {
      CompletedGrows(w, e1, phase.steps[k], ra.value.result);
    }
  }

  lemma {:induction false} WaitAllGrows(w: World, e: Env, phaseIdx: nat, phase: Phase, ids: seq<string>, n: nat)
    requires n <= |phase.steps| == |ids|
    ensures Grows(e, WaitAll(w, e, phaseIdx, phase, ids, n).env)
    decreases phase, n
  {
    hide WaitOne;
    if n > 0 {
      WaitAllGrows(w, e, phaseIdx, phase, ids, n - 1);
      WaitOneGrows(w, WaitAll(w, e, phaseIdx, phase, ids, n - 1), phaseIdx, phase, ids, n - 1);
    }
  }

  lemma {:induction false} PhaseGrows(w: World, e: Env, phaseIdx: nat, phase: Phase)
    ensures Grows(e, RunPhase(w, e, phaseIdx, phase).env)
    decreases phase, |phase.steps| + 1
  {
    hide SpawnAll, WaitAll, RunSteps;
    if !phase.parallel {
      StepsGrow(w, e, phaseIdx, phase, |phase.steps|);
    } else {
      SpawnAllGrows(w, e, phaseIdx, phase.steps, |phase.steps|);
      var r := SpawnAll(w, e, phaseIdx, phase.steps, |phase.steps|);
      if r.AllStarted? {
        WaitAllGrows(w, r.env, phaseIdx, phase, r.ids, |r.ids|);
      }
    }
  }

  lemma {:induction false} PhasesGrow(w: World, e: Env, plan: Plan, n: nat)
    requires n <= |plan.phases|
    ensures Grows(e, RunPhases(w, e, plan, n).env)
    decreases plan, n
  {
    if n > 0 {
      hide RunPhase;
      PhasesGrow(w, e, plan, n - 1);
      PhaseGrows(w, RunPhases(w, e, plan, n - 1).env, n - 1, plan.phases[n - 1]);
    }
  }

  lemma {:induction false} PlanGrows(w: World, e: Env, plan: Plan)
    ensures Grows(e, RunPlan(w, e, plan).env)
    decreases plan, |plan.phases| + 1
  {
    hide RunPhases;
    PhasesGrow(w, e, plan, |plan.phases|);
  }

  // ---- A variable keeps its value where nothing binds it ----

  /** The step's own output, or that of some step of its sub-plan. */
  predicate StepBinds(step: Step, v: string) {
    (step.outputVar != "" && step.outputVar == v) || (step.subPlan.Some? && PlanBinds(step.subPlan.value, v))
  }

  predicate PhaseBinds(phase: Phase, v: string) {
    exists k :: 0 <= k < |phase.steps| && StepBinds(phase.steps[k], v)
  }

  predicate PlanBinds(plan: Plan, v: string) {
    exists k :: 0 <= k < |plan.phases| && PhaseBinds(plan.phases[k], v)
  }

  predicate SubPlanBinds(step: Step, v: string) {
    step.subPlan.Some? && PlanBinds(step.subPlan.value, v)
  }

  predicate Same(before: Env, after: Env, v: string) {
    && (v in before.vars <==> v in after.vars)
    && (v in before.vars ==> after.vars[v] == before.vars[v])
  }

  lemma {:induction false} SubPlanKeeps(w: World, e: Env, step: Step, result: string, v: string)
    requires !SubPlanBinds(step, v)
    ensures Same(Bind(e, step, result), AfterCompleted(w, e, step, result).env, v)
    decreases step, 0
  {
    if step.subPlan.Some? {
      hide RunPlan, PlanBinds;
      PlanKeeps(w, Bind(e, step, result), step.subPlan.value, v);
    }
  }

  lemma {:induction false} StepKeeps(w: World, e: Env, step: Step, v: string)
    requires !StepBinds(step, v)
    ensures Same(e, RunStep(w, e, step).env, v)
    decreases step, 1
  {
    hide AfterCompleted, SpawnStep, PlanBinds;
    SpawnGrows(w, e, step);
    match SpawnStep(w, e, step)
    case NotStarted(_, _) =>
    case Started(e1, id) =>
      var ra := w.wait(e1.log, id);
      if ra.Some? {
        SubPlanKeeps(w, e1.Do(Wait(id)), step, ra.value.result, v);
      }
  }

  lemma {:induction false} StepsKeep(w: World, e: Env, phaseIdx: nat, phase: Phase, n: nat, v: string)
    requires n <= |phase.steps| && !PhaseBinds(phase, v)
    ensures Same(e, RunSteps(w, e, phaseIdx, phase, n).env, v)
    decreases phase, n
  {
    if n > 0 {
      hide RunStep, StepBinds;
      StepsKeep(w, e, phaseIdx, phase, n - 1, v);
      StepKeeps(w, RunSteps(w, e, phaseIdx, phase, n - 1).env, phase.steps[n - 1], v);
    }
  }

  lemma {:induction false} WaitOneKeeps(w: World, r: Outcome, phaseIdx: nat, phase: Phase, ids: seq<string>, k: nat,
                                        v: string)
    requires k < |phase.steps| == |ids| && !StepBinds(phase.steps[k], v)
    ensures Same(r.env, WaitOne(w, r, phaseIdx, phase, ids, k).env, v)
    decreases phase, k
  {
    hide AfterCompleted, KillAll, PlanBinds;
    var ra := w.wait(r.env.log, ids[k]);
    var e1 := r.env.Do(Wait(ids[k]));
    KillGrows(e1, ids[k + 1..]);
    if ra.Some? {
      SubPlanKeeps(w, e1, phase.steps[k], ra.value.result, v);
    }
  }

  lemma {:induction false} WaitAllKeeps(w: World, e: Env, phaseIdx: nat, phase: Phase, ids: seq<string>, n: nat,
                                        v: string)
    requires n <= |phase.steps| == |ids| && !PhaseBinds(phase, v)
    ensures Same(e, WaitAll(w, e, phaseIdx, phase, ids, n).env, v)
    decreases phase, n
  {
    hide WaitOne, StepBinds;
    if n > 0 {
      WaitAllKeeps(w, e, phaseIdx, phase, ids, n - 1, v);
      WaitOneKeeps(w, WaitAll(w, e, phaseIdx, phase, ids, n - 1), phaseIdx, phase, ids, n - 1, v);
    }
  }

  lemma {:induction false} PhaseKeeps(w: World, e: Env, phaseIdx: nat, phase: Phase, v: string)
    requires !PhaseBinds(phase, v)
    ensures Same(e, RunPhase(w, e, phaseIdx, phase).env, v)
    decreases phase, |phase.steps| + 1
  {
    hide SpawnAll, WaitAll, RunSteps, PhaseBinds;
    if !phase.parallel {
      StepsKeep(w, e, phaseIdx, phase, |phase.steps|, v);
    } else {
      SpawnAllGrows(w, e, phaseIdx, phase.steps, |phase.steps|);
      var r := SpawnAll(w, e, phaseIdx, phase.steps, |phase.steps|);
      if r.AllStarted? {
        WaitAllKeeps(w, r.env, phaseIdx, phase, r.ids, |r.ids|, v);
      }
    }
  }

  lemma {:induction false} PhasesKeep(w: World, e: Env, plan: Plan, n: nat, v: string)
    requires n <= |plan.phases| && !PlanBinds(plan, v)
    ensures Same(e, RunPhases(w, e, plan, n).env, v)
    decreases plan, n
  {
    if n > 0 {
      hide RunPhase, PhaseBinds;
      PhasesKeep(w, e, plan, n - 1, v);
      PhaseKeeps(w, RunPhases(w, e, plan, n - 1).env, n - 1, plan.phases[n - 1], v);
    }
  }

  lemma {:induction false} PlanKeeps(w: World, e: Env, plan: Plan, v: string)
    requires !PlanBinds(plan, v)
    ensures Same(e, RunPlan(w, e, plan).env, v)
    decreases plan, |plan.phases| + 1
  {
    hide RunPhases, PlanBinds;
    PhasesKeep(w, e, plan, |plan.phases|, v);
  }

  // ---- Which step fails ----

  predicate Finished(ra: Option<Agent>) {
    ra.Some? && ra.value.status.AgentCompleted?
  }

  /** The output of the step is the result of its agent, or something its sub-plan or `later` bound over it. */
  predicate Bound(step: Step, result: string, later: bool, e: Env) {
    step.outputVar != "" ==>
      && step.outputVar in e.vars
      && (e.vars[step.outputVar] == result || SubPlanBinds(step, step.outputVar) || later)
  }

  /** Some step of the phase after step `k`, among the first `n`, can bind the output of step `k` again. */
  predicate BoundAgain(phase: Phase, k: nat, n: nat)
    requires k < n <= |phase.steps|
  {
    exists j :: k < j < n && StepBinds(phase.steps[j], phase.steps[k].outputVar)
  }

  lemma StaysBound(phase: Phase, k: nat, n: nat, result: string, before: Env, after: Env)
    requires k < n < |phase.steps| && before.vars.Keys <= after.vars.Keys
    requires Bound(phase.steps[k], result, BoundAgain(phase, k, n), before)
    requires StepBinds(phase.steps[n], phase.steps[k].outputVar) || Same(before, after, phase.steps[k].outputVar)
    ensures Bound(phase.steps[k], result, BoundAgain(phase, k, n + 1), after)
  {
    hide StepBinds, SubPlanBinds;
  }

  /** Why the step of agent `id` fails, if it does: its agent has not completed, or its own sub-plan failed. */
  function CauseOf(w: World, e: Env, step: Step, id: string): Option<Cause> {
    var ra := w.wait(e.log, id);
    if ra.None? then Some(AgentMissing(id))
    else if !Finished(ra) then Some(AgentFailed(id, ra.value.status, ra.value.error))
    else
      var sub := AfterCompleted(w, e.Do(Wait(id)), step, ra.value.result);
      if sub.error.Some? then Some(InSubPlan(sub.error.value)) else None
  }

  /** Why a step of a sequential phase fails, if it does: it may also fail to start. */
  function StepCause(w: World, e: Env, step: Step): Option<Cause> {
    match SpawnStep(w, e, step)
    case NotStarted(_, cause) => Some(cause)
    case Started(e1, id) => CauseOf(w, e1, step, id)
  }

  lemma OneWait(w: World, r: Outcome, phaseIdx: nat, phase: Phase, ids: seq<string>, k: nat)
    requires k < |phase.steps| == |ids|
    ensures var r' := WaitOne(w, r, phaseIdx, phase, ids, k);
      var cause := CauseOf(w, r.env, phase.steps[k], ids[k]);
      var ra := w.wait(r.env.log, ids[k]);
      && r'.error == (if r.error.Some? || cause.None? then r.error else Some(ExecError(phaseIdx, k, cause.value)))
      && (Finished(ra) ==> Bound(phase.steps[k], ra.value.result, false, r'.env))
  {
    hide KillAll, AfterCompleted;
    var ra := w.wait(r.env.log, ids[k]);
    if Finished(ra) {
      CompletedBinds(w, r.env.Do(Wait(ids[k])), phase.steps[k], ra.value.result);
    }
  }

  lemma CompletedBinds(w: World, e: Env, step: Step, result: string)
    ensures Bound(step, result, false, AfterCompleted(w, e, step, result).env)
  {
    hide AfterCompleted, SubPlanBinds;
    CompletedGrows(w, e, step, result);
    if step.outputVar != "" && !SubPlanBinds(step, step.outputVar) {
      SubPlanKeeps(w, e, step, result, step.outputVar);
    }
  }

  /** Why step `k` of a parallel phase fails, if it does, where its agent is waited on. */
  function WaitCause(w: World, e: Env, phaseIdx: nat, phase: Phase, ids: seq<string>, k: nat): Option<Cause>
    requires k < |phase.steps| == |ids|
  {
    CauseOf(w, WaitAll(w, e, phaseIdx, phase, ids, k).env, phase.steps[k], ids[k])
  }

  /**
   If the agent of step `k` has completed when it is waited on, its result is the step's output in `after`,
   unless its own sub-plan or one of the first `n` steps binds that name again.
   */
  predicate WaitBound(w: World, e: Env, phaseIdx: nat, phase: Phase, ids: seq<string>, k: nat, n: nat, after: Env)
    requires k < n <= |phase.steps| == |ids|
  {
    var ra := w.wait(WaitAll(w, e, phaseIdx, phase, ids, k).env.log, ids[k]);
    Finished(ra) ==> Bound(phase.steps[k], ra.value.result, BoundAgain(phase, k, n), after)
  }

  /**
   A parallel phase, sub-plans and all, binds the result of every agent that completed, even after a
   failure, and fails exactly if some agent did not complete or its sub-plan failed, with the error of
   the first such step.
   */
  lemma {:induction false} ParallelOutcomeIsResults(w: World, e: Env, phaseIdx: nat, phase: Phase, ids: seq<string>,
                                                    n: nat)
    requires n <= |phase.steps| == |ids|
    ensures var r := WaitAll(w, e, phaseIdx, phase, ids, n);
      && (forall k :: 0 <= k < n ==> WaitBound(w, e, phaseIdx, phase, ids, k, n, r.env))
      && (r.error.None? <==> forall k :: 0 <= k < n ==> WaitCause(w, e, phaseIdx, phase, ids, k).None?)
      && (r.error.Some? ==>
            && r.error.value.phase == phaseIdx && r.error.value.step < n
            && WaitCause(w, e, phaseIdx, phase, ids, r.error.value.step) == Some(r.error.value.cause)
            && (forall j :: 0 <= j < r.error.value.step ==> WaitCause(w, e, phaseIdx, phase, ids, j).None?))
    decreases n
  {
    hide WaitOne, CauseOf, Finished, Bound, BoundAgain, StepBinds;
    if n > 0 {
      var before := WaitAll(w, e, phaseIdx, phase, ids, n - 1);
      ParallelOutcomeIsResults(w, e, phaseIdx, phase, ids, n - 1);
      OneWait(w, before, phaseIdx, phase, ids, n - 1);
      WaitOneGrows(w, before, phaseIdx, phase, ids, n - 1);
      var r := WaitAll(w, e, phaseIdx, phase, ids, n);
      assert r.error.None? <==> before.error.None? && WaitCause(w, e, phaseIdx, phase, ids, n - 1).None?;
      forall k | 0 <= k < n ensures WaitBound(w, e, phaseIdx, phase, ids, k, n, r.env) {
        WaitStaysBound(w, e, phaseIdx, phase, ids, k, n);
      }
    }
  }

  lemma WaitStaysBound(w: World, e: Env, phaseIdx: nat, phase: Phase, ids: seq<string>, k: nat, n: nat)
    requires k < n <= |phase.steps| == |ids|
    requires var before := WaitAll(w, e, phaseIdx, phase, ids, n - 1).env;
      k < n - 1 ==> WaitBound(w, e, phaseIdx, phase, ids, k, n - 1, before)
    ensures WaitBound(w, e, phaseIdx, phase, ids, k, n, WaitAll(w, e, phaseIdx, phase, ids, n).env)
  {
    hide WaitOne, Finished, StepBinds, Bound, BoundAgain, Same;
    var before := WaitAll(w, e, phaseIdx, phase, ids, n - 1);
    var after := WaitOne(w, before, phaseIdx, phase, ids, n - 1);
    if k == n - 1 {
      OneWait(w, before, phaseIdx, phase, ids, k);
      FirstBinding(phase, k, w.wait(before.env.log, ids[k]), after.env);
    } else {
      var v := phase.steps[k].outputVar;
      WaitOneGrows(w, before, phaseIdx, phase, ids, n - 1);
      if !StepBinds(phase.steps[n - 1], v) {
        WaitOneKeeps(w, before, phaseIdx, phase, ids, n - 1, v);
      }
      var ra := w.wait(WaitAll(w, e, phaseIdx, phase, ids, k).env.log, ids[k]);
      if Finished(ra) {
        FinishedIsSome(ra);
        StaysBound(phase, k, n - 1, ra.value.result, before.env, after.env);
      }
    }
  }

  lemma FinishedIsSome(ra: Option<Agent>)
    requires Finished(ra)
    ensures ra.Some?
  {
  }

  lemma FirstBinding(phase: Phase, k: nat, ra: Option<Agent>, after: Env)
    requires k < |phase.steps| && (Finished(ra) ==> Bound(phase.steps[k], ra.value.result, false, after))
    ensures Finished(ra) ==> Bound(phase.steps[k], ra.value.result, BoundAgain(phase, k, k + 1), after)
  {
  }

  /** All prompts of a parallel phase are filled from the variables at its start. */
  lemma {:induction false} ParallelPromptsUseStartVars(w: World, e: Env, phaseIdx: nat, steps: seq<Step>, n: nat)
    requires n <= |steps| && SpawnAll(w, e, phaseIdx, steps, n).AllStarted?
    ensures var r := SpawnAll(w, e, phaseIdx, steps, n);
      && r.env.vars == e.vars
      && |r.env.log| == |e.log| + n && r.env.log[..|e.log|] == e.log
      && forall k :: 0 <= k < n ==>
           PromptOf(steps[k], e.vars).Filled? &&
           r.env.log[|e.log| + k] == Spawn(steps[k].agentType, PromptOf(steps[k], e.vars).text, Id(r.ids[k]))
    decreases n
  {
    hide PromptOf;
    if n > 0 {
      ParallelPromptsUseStartVars(w, e, phaseIdx, steps, n - 1);
    }
  }

  /** What the agent of a step that starts is found to be. */
  function AgentOf(w: World, e: Env, step: Step): Option<Agent> {
    match SpawnStep(w, e, step)
    case NotStarted(_, _) => None
    case Started(e1, id) => w.wait(e1.log, id)
  }

  lemma OneStep(w: World, e: Env, step: Step)
    ensures var r := RunStep(w, e, step);
      var ra := AgentOf(w, e, step);
      && StepCause(w, e, step) == (if r.StepFailed? then Some(r.cause) else None)
      && (Finished(ra) ==> Bound(step, ra.value.result, false, r.env))
  {
    hide AfterCompleted, SpawnStep;
    match SpawnStep(w, e, step)
    case NotStarted(_, _) =>
    case Started(e1, id) =>
      var ra := w.wait(e1.log, id);
      if Finished(ra) {
        CompletedBinds(w, e1.Do(Wait(id)), step, ra.value.result);
      }
  }

  /** Why step `k` of a sequential phase fails, if it does, where it is reached. */
  function ReachedCause(w: World, e: Env, phaseIdx: nat, phase: Phase, k: nat): Option<Cause>
    requires k < |phase.steps|
  {
    StepCause(w, RunSteps(w, e, phaseIdx, phase, k).env, phase.steps[k])
  }

  /**
   If step `k` starts and its agent completes, its result is the step's output in `after`, unless its own
   sub-plan or one of the first `n` steps binds that name again.
   */
  predicate ReachedBound(w: World, e: Env, phaseIdx: nat, phase: Phase, k: nat, n: nat, after: Env)
    requires k < n <= |phase.steps|
  {
    var ra := AgentOf(w, RunSteps(w, e, phaseIdx, phase, k).env, phase.steps[k]);
    Finished(ra) ==> Bound(phase.steps[k], ra.value.result, BoundAgain(phase, k, n), after)
  }

  /** How many of the first `n` steps a sequential phase reaches. */
  function Reached(r: Outcome, n: nat): nat {
    if r.error.Some? then r.error.value.step + 1 else n
  }

  /**
   A sequential phase, sub-plans and all, fails exactly if some step it reaches fails, with that step's
   error, and reaches no further: nothing more is asked of the spawner. Every step reached whose agent
   completed has its output bound to that agent's result.
   */
  lemma {:induction false} SequentialOutcomeIsResults(w: World, e: Env, phaseIdx: nat, phase: Phase, n: nat)
    requires n <= |phase.steps|
    ensures var r := RunSteps(w, e, phaseIdx, phase, n);
      && (r.error.None? <==> forall k :: 0 <= k < n ==> ReachedCause(w, e, phaseIdx, phase, k).None?)
      && (r.error.Some? ==>
            && r.error.value.phase == phaseIdx && r.error.value.step < n
            && ReachedCause(w, e, phaseIdx, phase, r.error.value.step) == Some(r.error.value.cause)
            && r == RunSteps(w, e, phaseIdx, phase, r.error.value.step + 1)
            && (forall j :: 0 <= j < r.error.value.step ==> ReachedCause(w, e, phaseIdx, phase, j).None?))
      && (forall k :: 0 <= k < Reached(r, n) ==> ReachedBound(w, e, phaseIdx, phase, k, Reached(r, n), r.env))
    decreases n
  {
    hide RunStep, StepCause, ReachedBound;
    if n > 0 {
      var before := RunSteps(w, e, phaseIdx, phase, n - 1);
      SequentialOutcomeIsResults(w, e, phaseIdx, phase, n - 1);
      OneStep(w, before.env, phase.steps[n - 1]);
      var r := RunSteps(w, e, phaseIdx, phase, n);
      assert before.error.None? ==> (r.error.None? <==> ReachedCause(w, e, phaseIdx, phase, n - 1).None?);
      if before.error.Some? {
        assert r == before && Reached(r, n) == Reached(before, n - 1);
      } else {
        var m := n - 1;
        assert Reached(before, m) == m && Reached(r, n) == n;
        forall k | 0 <= k < m ensures ReachedBound(w, e, phaseIdx, phase, k, m, before.env) {
        }
        forall k | 0 <= k < n ensures ReachedBound(w, e, phaseIdx, phase, k, n, r.env) {
          StepStaysBound(w, e, phaseIdx, phase, k, n);
        }
      }
    }
  }

  lemma StepStaysBound(w: World, e: Env, phaseIdx: nat, phase: Phase, k: nat, n: nat)
    requires k < n <= |phase.steps| && RunSteps(w, e, phaseIdx, phase, n - 1).error.None?
    requires var before := RunSteps(w, e, phaseIdx, phase, n - 1).env;
      k < n - 1 ==> ReachedBound(w, e, phaseIdx, phase, k, n - 1, before)
    ensures ReachedBound(w, e, phaseIdx, phase, k, n, RunSteps(w, e, phaseIdx, phase, n).env)
  {
    hide RunStep, AgentOf, Finished, StepBinds, Bound, BoundAgain, Same, StepCause;
    var before := RunSteps(w, e, phaseIdx, phase, n - 1).env;
    var after := RunStep(w, before, phase.steps[n - 1]).env;
    if k == n - 1 {
      OneStep(w, before, phase.steps[k]);
      FirstBinding(phase, k, AgentOf(w, before, phase.steps[k]), after);
    } else {
      var v := phase.steps[k].outputVar;
      StepGrows(w, before, phase.steps[n - 1]);
      if !StepBinds(phase.steps[n - 1], v) {
        StepKeeps(w, before, phase.steps[n - 1], v);
      }
      var ra := AgentOf(w, RunSteps(w, e, phaseIdx, phase, k).env, phase.steps[k]);
      if Finished(ra) {
        FinishedIsSome(ra);
        StaysBound(phase, k, n - 1, ra.value.result, before, after);
      }
    }
  }

  // ---- The plan told from the facts alone ----

  /** What the spawner answered, spawn by spawn, and how each agent ended. */
  datatype Facts = Facts(replies: seq<SpawnReply>, record: string -> Option<Agent>) {
    function Reply(at: nat): SpawnReply {
      if at < |replies| then replies[at] else SpawnReply.Refused("")
    }
  }

  /** The variables, the spawns so far, and why the telling stopped. */
  datatype Told = Told(vars: map<string, string>, at: nat, error: Option<ExecError>)

  datatype ToldStep = ToldStep(vars: map<string, string>, at: nat, cause: Option<Cause>)

  function TellCompleted(f: Facts, vars: map<string, string>, at: nat, step: Step, result: string): Told
    decreases step, 0
  {
    var bound := if step.outputVar == "" then vars else vars[step.outputVar := result];
    if step.subPlan.None? then Told(bound, at, None) else TellPlan(f, bound, at, step.subPlan.value)
  }

  /** What comes of an agent: its failure, or its result bound and its sub-plan told. */
  function TellAgent(f: Facts, vars: map<string, string>, at: nat, step: Step, id: string): ToldStep
    decreases step, 1
  {
    match f.record(id)
    case None => ToldStep(vars, at, Some(AgentMissing(id)))
    case Some(a) =>
      if !a.status.AgentCompleted? then ToldStep(vars, at, Some(AgentFailed(id, a.status, a.error)))
      else
        var sub := TellCompleted(f, vars, at, step, a.result);
        ToldStep(sub.vars, sub.at, if sub.error.Some? then Some(InSubPlan(sub.error.value)) else None)
  }

  function TellStep(f: Facts, vars: map<string, string>, at: nat, step: Step): ToldStep
    decreases step, 2
  {
    match PromptOf(step, vars)
    case Missing(names) => ToldStep(vars, at, Some(UndefinedVariables(names)))
    case Filled(_) =>
      match f.Reply(at)
      case Refused(error) => ToldStep(vars, at + 1, Some(SpawnFailed(error)))
      case Id(id) => TellAgent(f, vars, at + 1, step, id)
  }

  function Failing(phaseIdx: nat, k: nat, cause: Option<Cause>): Option<ExecError> {
    if cause.Some? then Some(ExecError(phaseIdx, k, cause.value)) else None
  }

  function TellSteps(f: Facts, vars: map<string, string>, at: nat, phaseIdx: nat, phase: Phase, n: nat): Told
    requires n <= |phase.steps|
    decreases phase, n
  {
    if n == 0 then Told(vars, at, None)
    else
      var before := TellSteps(f, vars, at, phaseIdx, phase, n - 1);
      if before.error.Some? then before
      else
        var r := TellStep(f, before.vars, before.at, phase.steps[n - 1]);
        Told(r.vars, r.at, Failing(phaseIdx, n - 1, r.cause))
  }

  /** The first `n` steps that start together are the next `n` replies, if all are ids. */
  function TellStart(f: Facts, vars: map<string, string>, at: nat, phaseIdx: nat, steps: seq<Step>, n: nat): Told
    requires n <= |steps|
  {
    if n == 0 then Told(vars, at, None)
    else
      var before := TellStart(f, vars, at, phaseIdx, steps, n - 1);
      if before.error.Some? then before
      else
        match PromptOf(steps[n - 1], vars)
        case Missing(names) => before.(error := Some(ExecError(phaseIdx, n - 1, UndefinedVariables(names))))
        case Filled(_) =>
          match f.Reply(before.at)
          case Refused(error) => Told(vars, before.at + 1, Some(ExecError(phaseIdx, n - 1, SpawnFailed(error))))
          case Id(_) => Told(vars, before.at + 1, None)
  }

  /** The agents started at `first` and after end one by one in the order of the steps; the first error stays. */
  function TellWait(f: Facts, vars: map<string, string>, at: nat, phaseIdx: nat, phase: Phase, first: nat, n: nat): Told
    requires n <= |phase.steps|
    decreases phase, n
  {
    if n == 0 then Told(vars, at, None)
    else
      var before := TellWait(f, vars, at, phaseIdx, phase, first, n - 1);
      match f.Reply(first + n - 1)
      case Refused(_) => before
      case Id(id) =>
        var r := TellAgent(f, before.vars, before.at, phase.steps[n - 1], id);
        Told(r.vars, r.at, if before.error.Some? then before.error else Failing(phaseIdx, n - 1, r.cause))
  }

  function TellPhase(f: Facts, vars: map<string, string>, at: nat, phaseIdx: nat, phase: Phase): Told
    decreases phase, |phase.steps| + 1
  {
    if !phase.parallel then TellSteps(f, vars, at, phaseIdx, phase, |phase.steps|)
    else
      var started := TellStart(f, vars, at, phaseIdx, phase.steps, |phase.steps|);
      if started.error.Some? then started
      else TellWait(f, vars, started.at, phaseIdx, phase, at, |phase.steps|)
  }

  function TellPhases(f: Facts, vars: map<string, string>, at: nat, plan: Plan, n: nat): Told
    requires n <= |plan.phases|
    decreases plan, n
  {
    if n == 0 then Told(vars, at, None)
    else
      var before := TellPhases(f, vars, at, plan, n - 1);
      if before.error.Some? then before else TellPhase(f, before.vars, before.at, n - 1, plan.phases[n - 1])
  }

  function TellPlan(f: Facts, vars: map<string, string>, at: nat, plan: Plan): Told
    decreases plan, |plan.phases| + 1
  {
    TellPhases(f, vars, at, plan, |plan.phases|)
  }

  // ---- The run is what the facts tell ----

  /** The spawner's answers in a log, in order. */
  function RepliesOf(log: seq<Action>): seq<SpawnReply> {
    if log == [] then []
    else RepliesOf(Init(log)) + (if Last(log).Spawn? then [Last(log).reply] else [])
  }

  lemma RepliesAppend(log: seq<Action>, a: Action)
    ensures RepliesOf(log + [a]) == RepliesOf(log) + (if a.Spawn? then [a.reply] else [])
  {
    assert Init(log + [a]) == log;
  }

  lemma {:induction false} RepliesGrow(a: seq<Action>, b: seq<Action>)
    requires a <= b
    ensures RepliesOf(a) <= RepliesOf(b)
    decreases |b|
  {
    if a != b {
      RepliesGrow(a, Init(b));
    }
  }

  /** What the log was told is what the facts list: the spawner's answers in order, each agent's end. */
  ghost predicate Holds(f: Facts, w: World, log: seq<Action>) {
    && RepliesOf(log) <= f.replies
    && forall k :: 0 <= k < |log| && log[k].Wait? ==> w.wait(log[..k], log[k].id) == f.record(log[k].id)
  }

  function At(e: Env): nat {
    |RepliesOf(e.log)|
  }

  function TellingOf(r: Outcome): Told {
    Told(r.env.vars, At(r.env), r.error)
  }

  lemma HeldBefore(f: Facts, w: World, e: Env, after: Env)
    requires e.log <= after.log && Holds(f, w, after.log)
    ensures Holds(f, w, e.log) && At(e) <= At(after)
  {
    RepliesGrow(e.log, after.log);
    forall k | 0 <= k < |e.log| && e.log[k].Wait? ensures w.wait(e.log[..k], e.log[k].id) == f.record(e.log[k].id) {
      assert e.log[k] == after.log[k] && e.log[..k] == after.log[..k];
    }
  }

  lemma WaitHeld(f: Facts, w: World, e: Env, id: string, after: Env)
    requires e.Do(Wait(id)).log <= after.log && Holds(f, w, after.log)
    ensures w.wait(e.log, id) == f.record(id)
  {
    var k := |e.log|;
    assert after.log[k] == e.Do(Wait(id)).log[k] == Wait(id) && after.log[..k] == e.log;
  }

  /** What a spawn comes to: no prompt, or the next answer. */
  predicate IsNextAnswer(f: Facts, e: Env, step: Step, r: Spawning) {
    match PromptOf(step, e.vars)
    case Missing(names) => r == NotStarted(e, UndefinedVariables(names))
    case Filled(_) =>
      && At(r.env) == At(e) + 1 && At(e) < |f.replies|
      && match f.replies[At(e)]
         case Refused(error) => r.NotStarted? && r.cause == SpawnFailed(error)
         case Id(id) => r.Started? && r.id == id
  }

  lemma SpawnTold(f: Facts, w: World, e: Env, step: Step)
    requires Holds(f, w, SpawnStep(w, e, step).env.log)
    ensures SpawnStep(w, e, step).env.vars == e.vars && IsNextAnswer(f, e, step, SpawnStep(w, e, step))
  {
    hide PromptOf;
    if PromptOf(step, e.vars).Filled? {
      RepliesAppend(e.log, Last(SpawnStep(w, e, step).env.log));
    }
  }

  lemma {:induction false} KillTold(e: Env, ids: seq<string>)
    ensures RepliesOf(KillAll(e, ids).log) == RepliesOf(e.log)
  {
    if ids != [] {
      KillTold(e, Init(ids));
      RepliesAppend(KillAll(e, Init(ids)).log, Kill(Last(ids)));
    }
  }

  lemma {:induction false} CompletedTold(f: Facts, w: World, e: Env, step: Step, result: string)
    requires Holds(f, w, AfterCompleted(w, e, step, result).env.log)
    ensures TellingOf(AfterCompleted(w, e, step, result)) == TellCompleted(f, e.vars, At(e), step, result)
    decreases step, 0
  {
    if step.subPlan.Some? {
      hide RunPlan, TellPlan, Holds;
      PlanTold(f, w, Bind(e, step, result), step.subPlan.value);
    }
  }

  lemma {:induction false} StepTold(f: Facts, w: World, e: Env, step: Step)
    requires Holds(f, w, RunStep(w, e, step).env.log)
    ensures var r := RunStep(w, e, step);
      ToldStep(r.env.vars, At(r.env), if r.StepFailed? then Some(r.cause) else None) == TellStep(f, e.vars, At(e), step)
    decreases step, 1
  {
    hide AfterCompleted, TellCompleted, SpawnStep, PromptOf, RepliesOf;
    var started := SpawnStep(w, e, step);
    match started {
      case NotStarted(_, _) =>
      case Started(e1, id) =>
        var e2 := e1.Do(Wait(id));
        RepliesAppend(e1.log, Wait(id));
        var after := RunStep(w, e, step).env;
        var ra := w.wait(e1.log, id);
        if ra.Some? {
          CompletedGrows(w, e2, step, ra.value.result);
        }
        WaitHeld(f, w, e1, id, after);
        if Finished(ra) {
          CompletedTold(f, w, e2, step, ra.value.result);
        }
        HeldBefore(f, w, e1, RunStep(w, e, step).env);
    }
    SpawnTold(f, w, e, step);
  }

  lemma {:induction false} StepsTold(f: Facts, w: World, e: Env, phaseIdx: nat, phase: Phase, n: nat)
    requires n <= |phase.steps| && Holds(f, w, RunSteps(w, e, phaseIdx, phase, n).env.log)
    ensures TellingOf(RunSteps(w, e, phaseIdx, phase, n)) == TellSteps(f, e.vars, At(e), phaseIdx, phase, n)
    decreases phase, n
  {
    if n > 0 {
      hide RunStep, TellStep, Holds;
      var before := RunSteps(w, e, phaseIdx, phase, n - 1).env;
      StepGrows(w, before, phase.steps[n - 1]);
      HeldBefore(f, w, before, RunSteps(w, e, phaseIdx, phase, n).env);
      StepsTold(f, w, e, phaseIdx, phase, n - 1);
      if RunSteps(w, e, phaseIdx, phase, n - 1).error.None? {
        StepTold(f, w, before, phase.steps[n - 1]);
      }
    }
  }

  ghost predicate StartTold(f: Facts, e: Env, r: Spawned, told: Told) {
    && told.vars == r.env.vars == e.vars && told.at == At(r.env)
    && (r.AllStarted? ==>
          && told.error.None? && told.at == At(e) + |r.ids|
          && (forall k :: 0 <= k < |r.ids| ==> f.Reply(At(e) + k) == Id(r.ids[k])))
    && (r.SpawnBroke? ==> told.error == Some(r.error))
  }

  lemma {:induction false} SpawnAllTold(f: Facts, w: World, e: Env, phaseIdx: nat, steps: seq<Step>, n: nat)
    requires n <= |steps| && Holds(f, w, SpawnAll(w, e, phaseIdx, steps, n).env.log)
    ensures StartTold(f, e, SpawnAll(w, e, phaseIdx, steps, n), TellStart(f, e.vars, At(e), phaseIdx, steps, n))
    decreases n
  {
    if n > 0 {
      hide SpawnAll, RepliesOf, StartTold, TellStart;
      OneSpawnGrows(w, e, phaseIdx, steps, n);
      HeldBefore(f, w, SpawnAll(w, e, phaseIdx, steps, n - 1).env, SpawnAll(w, e, phaseIdx, steps, n).env);
      SpawnAllTold(f, w, e, phaseIdx, steps, n - 1);
      OneStartTold(f, w, e, phaseIdx, steps, n);
    } else {
      NoStartTold(f, w, e, phaseIdx, steps);
    }
  }

  lemma NoStartTold(f: Facts, w: World, e: Env, phaseIdx: nat, steps: seq<Step>)
    ensures StartTold(f, e, SpawnAll(w, e, phaseIdx, steps, 0), TellStart(f, e.vars, At(e), phaseIdx, steps, 0))
  {
  }

  lemma OneStartTold(f: Facts, w: World, e: Env, phaseIdx: nat, steps: seq<Step>, n: nat)
    requires 0 < n <= |steps| && Holds(f, w, SpawnAll(w, e, phaseIdx, steps, n).env.log)
    requires var before := SpawnAll(w, e, phaseIdx, steps, n - 1);
      StartTold(f, e, before, TellStart(f, e.vars, At(e), phaseIdx, steps, n - 1))
    ensures StartTold(f, e, SpawnAll(w, e, phaseIdx, steps, n), TellStart(f, e.vars, At(e), phaseIdx, steps, n))
  {
    hide SpawnStep, KillAll, PromptOf, RepliesOf;
    var before := SpawnAll(w, e, phaseIdx, steps, n - 1);
    if before.AllStarted? {
      var started := SpawnStep(w, before.env, steps[n - 1]);
      KillGrows(started.env, before.ids);
      KillTold(started.env, before.ids);
      HeldBefore(f, w, started.env, SpawnAll(w, e, phaseIdx, steps, n).env);
      SpawnTold(f, w, before.env, steps[n - 1]);
    }
  }

  ghost predicate Names(f: Facts, first: nat, ids: seq<string>) {
    forall k :: 0 <= k < |ids| ==> f.Reply(first + k) == Id(ids[k])
  }

  lemma {:induction false} WaitOneTold(f: Facts, w: World, r: Outcome, phaseIdx: nat, phase: Phase, ids: seq<string>,
                                       k: nat)
    requires k < |phase.steps| == |ids|
    requires Holds(f, w, WaitOne(w, r, phaseIdx, phase, ids, k).env.log)
    ensures var r' := WaitOne(w, r, phaseIdx, phase, ids, k);
      var t := TellAgent(f, r.env.vars, At(r.env), phase.steps[k], ids[k]);
      TellingOf(r') == Told(t.vars, t.at, if r.error.Some? then r.error else Failing(phaseIdx, k, t.cause))
    decreases phase, k
  {
    hide AfterCompleted, TellCompleted, KillAll, RepliesOf;
    var e1 := r.env.Do(Wait(ids[k]));
    RepliesAppend(r.env.log, Wait(ids[k]));
    KillGrows(e1, ids[k + 1..]);
    KillTold(e1, ids[k + 1..]);
    var ra := w.wait(r.env.log, ids[k]);
    if ra.Some? {
      CompletedGrows(w, e1, phase.steps[k], ra.value.result);
    }
    WaitHeld(f, w, r.env, ids[k], WaitOne(w, r, phaseIdx, phase, ids, k).env);
    if Finished(ra) {
      CompletedTold(f, w, e1, phase.steps[k], ra.value.result);
    }
  }

  lemma {:induction false} WaitAllTold(f: Facts, w: World, e: Env, phaseIdx: nat, phase: Phase, ids: seq<string>,
                                       first: nat, n: nat)
    requires n <= |phase.steps| == |ids| && Names(f, first, ids)
    requires Holds(f, w, WaitAll(w, e, phaseIdx, phase, ids, n).env.log)
    ensures TellingOf(WaitAll(w, e, phaseIdx, phase, ids, n)) == TellWait(f, e.vars, At(e), phaseIdx, phase, first, n)
    decreases phase, n
  {
    if n > 0 {
      hide WaitOne, TellAgent, Holds;
      var before := WaitAll(w, e, phaseIdx, phase, ids, n - 1);
      WaitOneGrows(w, before, phaseIdx, phase, ids, n - 1);
      HeldBefore(f, w, before.env, WaitAll(w, e, phaseIdx, phase, ids, n).env);
      WaitAllTold(f, w, e, phaseIdx, phase, ids, first, n - 1);
      WaitOneTold(f, w, before, phaseIdx, phase, ids, n - 1);
    }
  }

  lemma {:induction false} PhaseTold(f: Facts, w: World, e: Env, phaseIdx: nat, phase: Phase)
    requires Holds(f, w, RunPhase(w, e, phaseIdx, phase).env.log)
    ensures TellingOf(RunPhase(w, e, phaseIdx, phase)) == TellPhase(f, e.vars, At(e), phaseIdx, phase)
    decreases phase, |phase.steps| + 1
  {
    hide SpawnAll, WaitAll, RunSteps, TellStart, TellWait, TellSteps, Holds;
    if !phase.parallel {
      StepsTold(f, w, e, phaseIdx, phase, |phase.steps|);
    } else {
      var r := SpawnAll(w, e, phaseIdx, phase.steps, |phase.steps|);
      if r.AllStarted? {
        WaitAllGrows(w, r.env, phaseIdx, phase, r.ids, |r.ids|);
      }
      HeldBefore(f, w, r.env, RunPhase(w, e, phaseIdx, phase).env);
      SpawnAllTold(f, w, e, phaseIdx, phase.steps, |phase.steps|);
      if r.AllStarted? {
        WaitAllTold(f, w, r.env, phaseIdx, phase, r.ids, At(e), |r.ids|);
      }
    }
  }

  lemma {:induction false} PhasesTold(f: Facts, w: World, e: Env, plan: Plan, n: nat)
    requires n <= |plan.phases| && Holds(f, w, RunPhases(w, e, plan, n).env.log)
    ensures TellingOf(RunPhases(w, e, plan, n)) == TellPhases(f, e.vars, At(e), plan, n)
    decreases plan, n
  {
    if n > 0 {
      hide RunPhase, TellPhase, Holds;
      var before := RunPhases(w, e, plan, n - 1);
      PhaseGrows(w, before.env, n - 1, plan.phases[n - 1]);
      HeldBefore(f, w, before.env, RunPhases(w, e, plan, n).env);
      PhasesTold(f, w, e, plan, n - 1);
      if before.error.None? {
        PhaseTold(f, w, before.env, n - 1, plan.phases[n - 1]);
      }
    }
  }

  lemma {:induction false} PlanTold(f: Facts, w: World, e: Env, plan: Plan)
    requires Holds(f, w, RunPlan(w, e, plan).env.log)
    ensures TellingOf(RunPlan(w, e, plan)) == TellPlan(f, e.vars, At(e), plan)
    decreases plan, |plan.phases| + 1
  {
    hide RunPhases, TellPhases, Holds;
    PhasesTold(f, w, e, plan, |plan.phases|);
  }

  /**
   Two executions, on any spawners, that are given the same answers and find the same records end alike,
   whatever the order in which their agents ended and whatever their kills did.
   */
  lemma SameAnswersSameOutcome(w1: World, w2: World, vars: map<string, string>, plan: Plan, f: Facts)
    requires Holds(f, w1, RunPlan(w1, Env(vars, []), plan).env.log)
    requires Holds(f, w2, RunPlan(w2, Env(vars, []), plan).env.log)
    ensures var r1 := RunPlan(w1, Env(vars, []), plan);
      var r2 := RunPlan(w2, Env(vars, []), plan);
      r1.env.vars == r2.env.vars && r1.error == r2.error && RepliesOf(r1.env.log) == RepliesOf(r2.env.log)
  {
    hide RunPlan, TellPlan;
    PlanTold(f, w1, Env(vars, []), plan);
    PlanTold(f, w2, Env(vars, []), plan);
  }

  // ---- Every run has its facts ----

  /** What the last Wait on an agent was told. */
  function RecordIn(w: World, log: seq<Action>, id: string): Option<Agent> {
    if log == [] then None
    else if Last(log) == Wait(id) then w.wait(Init(log), id)
    else RecordIn(w, Init(log), id)
  }

  function FactsOf(w: World, log: seq<Action>): Facts {
    Facts(RepliesOf(log), id => RecordIn(w, log, id))
  }

  lemma {:induction false} OnlyWait(w: World, log: seq<Action>, id: string, k: nat)
    requires k < |log| && log[k] == Wait(id) && Waits(log, id) == 1
    ensures RecordIn(w, log, id) == w.wait(log[..k], id)
  {
    var n := |log| - 1;
    assert log == Init(log) + [Last(log)];
    WaitsAppend(Init(log), Last(log), id);
    if k < n {
      assert Wait(id) in Init(log) by { assert Init(log)[k] == Wait(id); }
      OnlyWait(w, Init(log), id, k);
      assert Init(log)[..k] == log[..k];
    }
  }

  /** Where no agent is waited on twice, the facts of a log hold of it. */
  lemma OwnFactsHold(w: World, log: seq<Action>)
    requires forall id :: Waits(log, id) <= 1
    ensures Holds(FactsOf(w, log), w, log)
  {
    hide Waits, RecordIn, RepliesOf;
    forall k | 0 <= k < |log| && log[k].Wait? ensures w.wait(log[..k], log[k].id) == FactsOf(w, log).record(log[k].id) {
      assert Waits(log, log[k].id) > 0 by { SomeWait(log, k); }
      OnlyWait(w, log, log[k].id, k);
    }
  }

  lemma SomeWait(log: seq<Action>, k: nat)
    requires k < |log| && log[k].Wait?
    ensures Waits(log, log[k].id) > 0
  {
    assert log[k] in multiset(log);
  }

  lemma AtMostOneWait(w: World, vars: map<string, string>, plan: Plan, id: string)
    requires FreshIds(w)
    ensures Waits(RunPlan(w, Env(vars, []), plan).env.log, id) <= 1
  {
    hide RunPlan, GonePlan, FreshIds, Waits, IdsOf, SpawnedIn;
    var log := RunPlan(w, Env(vars, []), plan).env.log;
    NoOrphans(w, vars, plan, id);
    WholePrefix(log);
    if id !in SpawnedIn(log) {
      NoMentionNoWait(log, id);
    }
  }

  /**
   On any spawner that never reuses an id, and with no assumption on timing or on what a kill does: the
   variables, the error and the number of spawns of a plan, with sub-plans to any depth, in success and in
   failure, are what its own spawn answers and wait answers tell.
   */
  lemma PlanOutcomeIsResults(w: World, vars: map<string, string>, plan: Plan)
    requires FreshIds(w)
    ensures var r := RunPlan(w, Env(vars, []), plan);
      TellingOf(r) == TellPlan(FactsOf(w, r.env.log), vars, 0, plan)
  {
    hide RunPlan, TellPlan, FreshIds, Waits, RecordIn;
    var r := RunPlan(w, Env(vars, []), plan);
    forall id ensures Waits(r.env.log, id) <= 1 {
      AtMostOneWait(w, vars, plan, id);
    }
    OwnFactsHold(w, r.env.log);
    PlanTold(FactsOf(w, r.env.log), w, Env(vars, []), plan);
  }
}
