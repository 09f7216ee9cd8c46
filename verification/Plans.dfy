/** The workflow a playbook describes: phases of steps, each step possibly with its own sub-plan. */
module Plans {
  import opened Messages

  datatype Plan = Plan(phases: seq<Phase>)

  datatype Phase = Phase(steps: seq<Step>, parallel: bool)

  datatype Step = Step(
    agentType: string,
    description: string,
    prompt: string,
    outputVar: string,
    confirm: bool,
    subPlan: Option<Plan>)
}
