/** The plan interpreter: spawns, waits and kills agents, phase by phase. */
module Executor {
  import opened Messages
  import opened Plans
  import opened Templates

  // ---- The world outside: agents ----

  datatype AgentStatus = AgentCompleted | AgentKilled | AgentError

  datatype Agent = Agent(id: string, status: AgentStatus, result: string, error: string)

  datatype SpawnReply = Id(id: string) | Refused(error: string)

  /** Everything asked of the spawner, in order. */
  datatype Action = Spawn(agentType: string, prompt: string, reply: SpawnReply) | Wait(id: string) | Kill(id: string)

  /** How agents behave: any answers that depend on all that was asked before. */
  datatype World = World(
    spawn: (seq<Action>, string, string) -> SpawnReply,
    wait: (seq<Action>, string) -> Option<Agent>)

  datatype Cause =
    | UndefinedVariables(names: seq<string>)
    | SpawnFailed(error: string)
    | AgentMissing(id: string)
    | AgentFailed(id: string, status: AgentStatus, error: string)
    | InSubPlan(inner: ExecError)

  datatype ExecError = ExecError(phase: nat, step: nat, cause: Cause)

  datatype Env = Env(vars: map<string, string>, log: seq<Action>) {
    function Do(a: Action): Env {
      this.(log := log + [a])
    }
  }

  datatype Outcome = Outcome(env: Env, error: Option<ExecError>)

  const CONFIRM_DIRECTIVE :=
    "\n\nImportant: After completing this task, you MUST follow these steps in order:\n"
    + "1. Call the confirm tool, with the summary parameter describing your result\n"
    + "2. Wait for user confirmation\n"
    + "3. After user confirmation, output the final result "
    + "(the result only, do not repeat the confirm tool's response text)"

  // ---- One step ----

  function PromptOf(step: Step, vars: map<string, string>): Filled {
    match Subst(step.prompt, vars)
    case Filled(text) => Filled(if step.confirm then text + CONFIRM_DIRECTIVE else text)
    case Missing(names) => Missing(names)
  }

  datatype Spawning = Started(env: Env, id: string) | NotStarted(env: Env, cause: Cause)

  function SpawnStep(w: World, e: Env, step: Step): Spawning {
    match PromptOf(step, e.vars)
    case Missing(names) => NotStarted(e, UndefinedVariables(names))
    case Filled(prompt) =>
      var reply := w.spawn(e.log, step.agentType, prompt);
      var e1 := e.Do(Spawn(step.agentType, prompt, reply));
      match reply
      case Id(id) => Started(e1, id)
      case Refused(error) => NotStarted(e1, SpawnFailed(error))
  }

  function Bind(e: Env, step: Step, result: string): Env {
    if step.outputVar == "" then e else e.(vars := e.vars[step.outputVar := result])
  }

  /** After a completed agent: bind its result, then run its sub-plan. */
  function AfterCompleted(w: World, e: Env, step: Step, result: string): Outcome
    decreases step, 0
  {
    var e1 := Bind(e, step, result);
    if step.subPlan.None? then Outcome(e1, None) else RunPlan(w, e1, step.subPlan.value)
  }

  datatype StepOutcome = StepOk(env: Env) | StepFailed(env: Env, cause: Cause)

  function RunStep(w: World, e: Env, step: Step): StepOutcome
    decreases step, 1
  {
    match SpawnStep(w, e, step)
    case NotStarted(e1, cause) => StepFailed(e1, cause)
    case Started(e1, id) =>
      var ra := w.wait(e1.log, id);
      var e2 := e1.Do(Wait(id));
      if ra.None? then StepFailed(e2, AgentMissing(id))
      else if !ra.value.status.AgentCompleted? then StepFailed(e2, AgentFailed(id, ra.value.status, ra.value.error))
      else
        var r := AfterCompleted(w, e2, step, ra.value.result);
        if r.error.Some? then StepFailed(r.env, InSubPlan(r.error.value)) else StepOk(r.env)
  }

  // ---- Phases ----

  /** The first `n` steps of a sequential phase; the first failure stops it. */
  function RunSteps(w: World, e: Env, phaseIdx: nat, phase: Phase, n: nat): Outcome
    requires n <= |phase.steps|
    decreases phase, n
  {
    if n == 0 then Outcome(e, None)
    else
      var r := RunSteps(w, e, phaseIdx, phase, n - 1);
      if r.error.Some? then r
      else
        match RunStep(w, r.env, phase.steps[n - 1])
        case StepOk(e1) => Outcome(e1, None)
        case StepFailed(e1, cause) => Outcome(e1, Some(ExecError(phaseIdx, n - 1, cause)))
  }

  function KillAll(e: Env, ids: seq<string>): Env {
    if ids == [] then e else KillAll(e, Init(ids)).Do(Kill(Last(ids)))
  }

  datatype Spawned = AllStarted(env: Env, ids: seq<string>) | SpawnBroke(env: Env, error: ExecError)

  /** Spawn the first `n` steps of a parallel phase; on a failure kill those already started. */
  function SpawnAll(w: World, e: Env, phaseIdx: nat, steps: seq<Step>, n: nat): (r: Spawned)
    requires n <= |steps|
    ensures r.AllStarted? ==> |r.ids| == n
  {
    if n == 0 then AllStarted(e, [])
    else
      match SpawnAll(w, e, phaseIdx, steps, n - 1)
      case SpawnBroke(e1, error) => SpawnBroke(e1, error)
      case AllStarted(e1, ids) =>
        match SpawnStep(w, e1, steps[n - 1])
        case Started(e2, id) => AllStarted(e2, ids + [id])
        case NotStarted(e2, cause) => SpawnBroke(KillAll(e2, ids), ExecError(phaseIdx, n - 1, cause))
  }

  function FirstOf(error: Option<ExecError>, other: ExecError): Option<ExecError> {
    if error.Some? then error else Some(other)
  }

  /** Wait for agent `k` of a parallel phase, after the outcome `r` of the agents before it. */
  function WaitOne(w: World, r: Outcome, phaseIdx: nat, phase: Phase, ids: seq<string>, k: nat): Outcome
    requires k < |phase.steps| == |ids|
    decreases phase, k
  {
    var ra := w.wait(r.env.log, ids[k]);
    var e1 := r.env.Do(Wait(ids[k]));
    if ra.None? then Outcome(e1, FirstOf(r.error, ExecError(phaseIdx, k, AgentMissing(ids[k]))))
    else if !ra.value.status.AgentCompleted? then
      if r.error.Some? then Outcome(e1, r.error)
      else Outcome(KillAll(e1, ids[k + 1..]),
                   Some(ExecError(phaseIdx, k, AgentFailed(ids[k], ra.value.status, ra.value.error))))
    else
      var sub := AfterCompleted(w, e1, phase.steps[k], ra.value.result);
      if sub.error.Some? then Outcome(sub.env, FirstOf(r.error, ExecError(phaseIdx, k, InSubPlan(sub.error.value))))
      else Outcome(sub.env, r.error)
  }

  /** Wait for the first `n` agents of a parallel phase, in the order of the steps. */
  function WaitAll(w: World, e: Env, phaseIdx: nat, phase: Phase, ids: seq<string>, n: nat): Outcome
    requires n <= |phase.steps| == |ids|
    decreases phase, n
  {
    if n == 0 then Outcome(e, None)
    else WaitOne(w, WaitAll(w, e, phaseIdx, phase, ids, n - 1), phaseIdx, phase, ids, n - 1)
  }

  function RunPhase(w: World, e: Env, phaseIdx: nat, phase: Phase): Outcome
    decreases phase, |phase.steps| + 1
  {
    if !phase.parallel then RunSteps(w, e, phaseIdx, phase, |phase.steps|)
    else
      match SpawnAll(w, e, phaseIdx, phase.steps, |phase.steps|)
      case SpawnBroke(e1, error) => Outcome(e1, Some(error))
      case AllStarted(e1, ids) => WaitAll(w, e1, phaseIdx, phase, ids, |ids|)
  }

  /** The first `n` phases of a plan. */
  function RunPhases(w: World, e: Env, plan: Plan, n: nat): Outcome
    requires n <= |plan.phases|
    decreases plan, n
  {
    if n == 0 then Outcome(e, None)
    else
      var r := RunPhases(w, e, plan, n - 1);
      if r.error.Some? then r else RunPhase(w, r.env, n - 1, plan.phases[n - 1])
  }

  function RunPlan(w: World, e: Env, plan: Plan): Outcome
    decreases plan, |plan.phases| + 1
  {
    RunPhases(w, e, plan, |plan.phases|)
  }

  // ---- The executor object ----

  class Spawner {
    const world: World
    var log: seq<Action>

    constructor (world: World)
      ensures this.world == world && log == []
    {
      this.world := world;
      log := [];
    }

    method Spawn(agentType: string, prompt: string) returns (reply: SpawnReply)
      modifies this
      ensures reply == world.spawn(old(log), agentType, prompt)
      ensures log == old(log) + [Action.Spawn(agentType, prompt, reply)]
    {
      reply := world.spawn(log, agentType, prompt);
      log := log + [Action.Spawn(agentType, prompt, reply)];
    }

    method Wait(id: string) returns (ra: Option<Agent>)
      modifies this
      ensures ra == world.wait(old(log), id)
      ensures log == old(log) + [Action.Wait(id)]
    {
      ra := world.wait(log, id);
      log := log + [Action.Wait(id)];
    }

    method Kill(id: string)
      modifies this
      ensures log == old(log) + [Action.Kill(id)]
    {
      log := log + [Action.Kill(id)];
    }
  }

  class Executor {
    const spawner: Spawner
    var vars: map<string, string>

    ghost function View(): Env
      reads this, spawner
    {
      Env(vars, spawner.log)
    }

    constructor (spawner: Spawner)
      ensures this.spawner == spawner && vars == map[]
    {
      this.spawner := spawner;
      vars := map[];
    }

    method SetVar(name: string, value: string)
      modifies this
      ensures vars == old(vars)[name := value]
    {
      vars := vars[name := value];
    }

    /** The final variables, or the error that stopped the plan. */
    method Execute(plan: Plan) returns (result: Option<map<string, string>>, error: Option<ExecError>)
      modifies this, spawner
      ensures var r := RunPlan(spawner.world, old(View()), plan);
        View() == r.env && error == r.error && result == if r.error.Some? then None else Some(r.env.vars)
    {
      error := ExecutePlan(plan);
      result := if error.Some? then None else Some(vars);
    }

    method ExecutePlan(plan: Plan) returns (error: Option<ExecError>)
      modifies this, spawner
      ensures Outcome(View(), error) == RunPlan(spawner.world, old(View()), plan)
      decreases plan, |plan.phases| + 1
    {
      hide RunPhase;
      error := None;
      for i := 0 to |plan.phases|
        invariant error.None?
        invariant Outcome(View(), None) == RunPhases(spawner.world, old(View()), plan, i)
      {
        error := ExecutePhase(i, plan.phases[i]);
        if error.Some? {
          StoppedPlan(spawner.world, old(View()), plan, i + 1, |plan.phases|);
          return;
        }
      }
    }

    method ExecutePhase(phaseIdx: nat, phase: Phase) returns (error: Option<ExecError>)
      modifies this, spawner
      ensures Outcome(View(), error) == RunPhase(spawner.world, old(View()), phaseIdx, phase)
      decreases phase, |phase.steps| + 2
    {
      hide RunStep, SpawnAll, WaitAll;
      error := None;
      if phase.parallel {
        error := ExecuteParallelPhase(phaseIdx, phase);
        return;
      }
      for i := 0 to |phase.steps|
        invariant error.None?
        invariant Outcome(View(), None) == RunSteps(spawner.world, old(View()), phaseIdx, phase, i)
      {
        var cause := ExecuteStep(phase.steps[i]);
        if cause.Some? {
          error := Some(ExecError(phaseIdx, i, cause.value));
          StoppedSteps(spawner.world, old(View()), phaseIdx, phase, i + 1, |phase.steps|);
          return;
        }
      }
    }

    method ExecuteStep(step: Step) returns (cause: Option<Cause>)
      modifies this, spawner
      ensures var r := RunStep(spawner.world, old(View()), step);
        View() == r.env && cause == if r.StepOk? then None else Some(r.cause)
      decreases step, 1
    {
      hide SpawnStep, AfterCompleted;
      var started := StartStep(step);
      if started.NotStarted? {
        return Some(started.cause);
      }
      var ra := spawner.Wait(started.id);
      if ra.None? {
        return Some(AgentMissing(started.id));
      }
      if !ra.value.status.AgentCompleted? {
        return Some(AgentFailed(started.id, ra.value.status, ra.value.error));
      }
      var error := FinishStep(step, ra.value.result);
      cause := if error.Some? then Some(InSubPlan(error.value)) else None;
    }

    method FinishStep(step: Step, result: string) returns (error: Option<ExecError>)
      modifies this, spawner
      ensures Outcome(View(), error) == AfterCompleted(spawner.world, old(View()), step, result)
      decreases step, 0
    {
      hide RunPlan;
      error := None;
      if step.outputVar != "" {
        vars := vars[step.outputVar := result];
      }
      if step.subPlan.Some? {
        error := ExecutePlan(step.subPlan.value);
      }
    }

    method StartStep(step: Step) returns (r: Spawning)
      modifies spawner
      ensures r == SpawnStep(spawner.world, old(View()), step)
      ensures View() == r.env
    {
      hide Subst;
      var filled := SubstVars(step.prompt, vars);
      if filled.Missing? {
        return NotStarted(Env(vars, spawner.log), UndefinedVariables(filled.names));
      }
      var prompt := filled.text;
      if step.confirm {
        prompt := prompt + CONFIRM_DIRECTIVE;
      }
      var reply := spawner.Spawn(step.agentType, prompt);
      match reply
      case Id(id) => r := Started(Env(vars, spawner.log), id);
      case Refused(error) => r := NotStarted(Env(vars, spawner.log), SpawnFailed(error));
    }

    method KillEach(ids: seq<string>)
      modifies spawner
      ensures View() == KillAll(old(View()), ids)
    {
      for j := 0 to |ids|
        invariant vars == old(vars)
        invariant View() == KillAll(old(View()), ids[..j])
      {
        assert Init(ids[..j + 1]) == ids[..j];
        spawner.Kill(ids[j]);
      }
      assert ids[..|ids|] == ids;
    }

    method SpawnSteps(phaseIdx: nat, steps: seq<Step>) returns (r: Spawned)
      modifies spawner
      ensures r == SpawnAll(spawner.world, old(View()), phaseIdx, steps, |steps|)
      ensures View() == r.env
    {
      hide SpawnStep, KillAll;
      var ids := [];
      for i := 0 to |steps|
        invariant vars == old(vars)
        invariant AllStarted(View(), ids) == SpawnAll(spawner.world, old(View()), phaseIdx, steps, i)
      {
        var started := StartStep(steps[i]);
        if started.NotStarted? {
          KillEach(ids);
          BrokenSpawn(spawner.world, old(View()), phaseIdx, steps, i + 1, |steps|);
          return SpawnBroke(Env(vars, spawner.log), ExecError(phaseIdx, i, started.cause));
        }
        ids := ids + [started.id];
      }
      r := AllStarted(Env(vars, spawner.log), ids);
    }

    method WaitStep(phaseIdx: nat, phase: Phase, ids: seq<string>, i: nat, firstErr: Option<ExecError>)
      returns (error: Option<ExecError>)
      requires i < |phase.steps| == |ids|
      modifies this, spawner
      ensures Outcome(View(), error) == WaitOne(spawner.world, Outcome(old(View()), firstErr), phaseIdx, phase, ids, i)
      decreases phase, i
    {
      hide AfterCompleted, KillAll;
      var ra := spawner.Wait(ids[i]);
      if ra.None? {
        return if firstErr.None? then Some(ExecError(phaseIdx, i, AgentMissing(ids[i]))) else firstErr;
      }
      if firstErr.Some? && !ra.value.status.AgentCompleted? {
        return firstErr;
      }
      if !ra.value.status.AgentCompleted? {
        KillEach(ids[i + 1..]);
        return Some(ExecError(phaseIdx, i, AgentFailed(ids[i], ra.value.status, ra.value.error)));
      }
      var err := FinishStep(phase.steps[i], ra.value.result);
      error := firstErr;
      if err.Some? && firstErr.None? {
        error := Some(ExecError(phaseIdx, i, InSubPlan(err.value)));
      }
    }

    method ExecuteParallelPhase(phaseIdx: nat, phase: Phase) returns (firstErr: Option<ExecError>)
      requires phase.parallel
      modifies this, spawner
      ensures Outcome(View(), firstErr) == RunPhase(spawner.world, old(View()), phaseIdx, phase)
      decreases phase, |phase.steps| + 1
    {
      hide SpawnAll, WaitOne;
      var spawned := SpawnSteps(phaseIdx, phase.steps);
      if spawned.SpawnBroke? {
        return Some(spawned.error);
      }
      ghost var e := View();
      firstErr := None;
      WaitNone(spawner.world, e, phaseIdx, phase, spawned.ids);
      for i := 0 to |spawned.ids|
        invariant Outcome(View(), firstErr) == WaitAll(spawner.world, e, phaseIdx, phase, spawned.ids, i)
      {
        firstErr := WaitStep(phaseIdx, phase, spawned.ids, i, firstErr);
      }
    }
  }

  // ---- A failure is final ----

  lemma {:induction false} StoppedPlan(w: World, e: Env, plan: Plan, m: nat, n: nat)
    requires m <= n <= |plan.phases| && RunPhases(w, e, plan, m).error.Some?
    ensures RunPhases(w, e, plan, n) == RunPhases(w, e, plan, m)
    decreases n - m
  {
    hide RunPhase;
    if m < n {
      StoppedPlan(w, e, plan, m, n - 1);
    }
  }

  lemma {:induction false} StoppedSteps(w: World, e: Env, phaseIdx: nat, phase: Phase, m: nat, n: nat)
    requires m <= n <= |phase.steps| && RunSteps(w, e, phaseIdx, phase, m).error.Some?
    ensures RunSteps(w, e, phaseIdx, phase, n) == RunSteps(w, e, phaseIdx, phase, m)
    decreases n - m
  {
    hide RunStep;
    if m < n {
      StoppedSteps(w, e, phaseIdx, phase, m, n - 1);
    }
  }

  lemma {:induction false} BrokenSpawn(w: World, e: Env, phaseIdx: nat, steps: seq<Step>, m: nat, n: nat)
    requires m <= n <= |steps| && SpawnAll(w, e, phaseIdx, steps, m).SpawnBroke?
    ensures SpawnAll(w, e, phaseIdx, steps, n) == SpawnAll(w, e, phaseIdx, steps, m)
    decreases n - m
  {
    hide SpawnStep;
    if m < n {
      BrokenSpawn(w, e, phaseIdx, steps, m, n - 1);
    }
  }

  lemma WaitNone(w: World, e: Env, phaseIdx: nat, phase: Phase, ids: seq<string>)
    requires |phase.steps| == |ids|
    ensures WaitAll(w, e, phaseIdx, phase, ids, 0) == Outcome(e, None)
  {
  }
}
