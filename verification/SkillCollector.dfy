/** The skill collector: one list of execution records per skill, across rounds and sessions. */
module SkillCollector {
  import opened Messages

  datatype Config = Config(workflowMode: bool)

  datatype Record = Record(start: int, end: int, completed: bool)

  type Executions = map<string, seq<Record>>

  datatype State = State(pending: seq<string>, active: string, executions: Executions)

  datatype Saved = Saved(executions: Option<Executions>, active: string)

  const EMPTY := State([], "", map[])

  function RecordsOf(ex: Executions, skill: string): seq<Record> {
    if skill in ex then ex[skill] else []
  }

  predicate Incomplete(recs: seq<Record>) {
    recs != [] && !Last(recs).completed
  }

  // ---- Operations ----

  function OnSkillInvocation(configs: map<string, Config>, s: State, skill: string, start: int): State {
    if skill !in configs then s
    else
      var recs := RecordsOf(s.executions, skill);
      var kept := if Incomplete(recs) then [] else recs;
      State(s.pending + [skill],
            if configs[skill].workflowMode then skill else if s.active == skill then "" else s.active,
            s.executions[skill := kept + [Record(start, 0, false)]])
  }

  function EndLast(recs: seq<Record>, end: int, overwrite: bool): seq<Record>
    requires recs != []
  {
    Init(recs) + [Last(recs).(end := if overwrite || Last(recs).end == 0 then end else Last(recs).end)]
  }

  function CompleteLast(recs: seq<Record>): seq<Record>
    requires recs != []
  {
    Init(recs) + [Last(recs).(completed := true)]
  }

  /** Give the last record of each named skill its end, in order, unless it has one. */
  function FillEnds(ex: Executions, names: seq<string>, end: int): Executions {
    if names == [] then ex
    else EndOne(FillEnds(ex, Init(names), end), Last(names), end, false)
  }

  function EndOne(ex: Executions, skill: string, end: int, overwrite: bool): Executions {
    var recs := RecordsOf(ex, skill);
    if recs == [] then ex else ex[skill := EndLast(recs, end, overwrite)]
  }

  function CompleteOne(ex: Executions, skill: string): Executions {
    var recs := RecordsOf(ex, skill);
    if recs == [] then ex else ex[skill := CompleteLast(recs)]
  }

  function CompleteAll(ex: Executions, names: seq<string>): Executions {
    if names == [] then ex else CompleteOne(CompleteAll(ex, Init(names)), Last(names))
  }

  function WithRecords(ex: Executions, names: seq<string>): seq<string> {
    if names == [] then []
    else WithRecords(ex, Init(names)) + (if RecordsOf(ex, Last(names)) == [] then [] else [Last(names)])
  }

  datatype Round = Round(state: State, completed: seq<string>)

  predicate StaysOpen(configs: map<string, Config>, skill: string, workflowEnded: bool) {
    skill in configs && configs[skill].workflowMode && !workflowEnded
  }

  function OnExecutionResult(configs: map<string, Config>, s: State, end: int, workflowEnded: bool): Round {
    var filled := FillEnds(s.executions, s.pending, end);
    if s.active == "" then
      Round(State([], "", CompleteAll(filled, s.pending)), WithRecords(filled, s.pending))
    else
      var ex := EndOne(filled, s.active, end, true);
      if StaysOpen(configs, s.active, workflowEnded) then Round(State([], s.active, ex), [])
      else Round(State([], "", CompleteOne(ex, s.active)), [s.active])
  }

  function TakeRecordsForAnalysis(s: State, skill: string): State {
    s.(executions := s.executions[skill := []], active := if s.active == skill then "" else s.active)
  }

  function NonEmpty(ex: Executions): Executions {
    map skill | skill in ex && ex[skill] != [] :: ex[skill]
  }

  function Snapshot(s: State): Saved {
    Saved(if NonEmpty(s.executions) == map[] then None else Some(NonEmpty(s.executions)), s.active)
  }

  function Restore(saved: Saved): State {
    State([], saved.active, if saved.executions.None? then map[] else saved.executions.value)
  }

  // ---- The collector's object ----

  class SkillCollector {
    var configs: map<string, Config>
    var pending: seq<string>
    var activeWorkflow: string
    var executions: Executions

    ghost function View(): State
      reads this
    {
      State(pending, activeWorkflow, executions)
    }

    constructor (configs: map<string, Config>)
      ensures this.configs == configs && View() == EMPTY
    {
      this.configs := configs;
      pending, activeWorkflow, executions := [], "", map[];
    }

    method Invoke(skillName: string, startMsgIndex: int)
      modifies this
      ensures configs == old(configs) && View() == OnSkillInvocation(configs, old(View()), skillName, startMsgIndex)
    {
      if skillName !in configs {
        return;
      }
      var execs := RecordsOf(executions, skillName);
      if |execs| > 0 {
        var last := execs[|execs| - 1];
        if !last.completed {
          executions := executions[skillName := []];
        }
      }
      if activeWorkflow == skillName {
        activeWorkflow := "";
      }
      pending := pending + [skillName];
      executions := executions[skillName := RecordsOf(executions, skillName) + [Record(startMsgIndex, 0, false)]];
      if configs[skillName].workflowMode {
        activeWorkflow := skillName;
      }
    }

    method FillPending(end: int)
      modifies this`executions
      ensures executions == FillEnds(old(executions), pending, end)
    {
      for i := 0 to |pending|
        invariant executions == FillEnds(old(executions), pending[..i], end)
      {
        assert Init(pending[..i + 1]) == pending[..i];
        var execs := RecordsOf(executions, pending[i]);
        if |execs| == 0 {
          continue;
        }
        var last := execs[|execs| - 1];
        if last.end == 0 {
          last := last.(end := end);
        }
        executions := executions[pending[i] := Init(execs) + [last]];
      }
      assert pending[..|pending|] == pending;
    }

    method CompleteEach(names: seq<string>) returns (completed: seq<string>)
      modifies this`executions
      ensures executions == CompleteAll(old(executions), names)
      ensures completed == WithRecords(old(executions), names)
    {
      completed := [];
      for i := 0 to |names|
        invariant executions == CompleteAll(old(executions), names[..i])
        invariant completed == WithRecords(old(executions), names[..i])
      {
        assert Init(names[..i + 1]) == names[..i];
        CompleteKeepsShape(old(executions), names[..i], names[i]);
        var execs := RecordsOf(executions, names[i]);
        if |execs| == 0 {
          continue;
        }
        executions := executions[names[i] := CompleteLast(execs)];
        completed := completed + [names[i]];
      }
      assert names[..|names|] == names;
    }

    method EndRound(endMsgIndex: int, workflowEnded: bool) returns (completed: seq<string>)
      modifies this
      ensures configs == old(configs)
      ensures Round(View(), completed) == OnExecutionResult(configs, old(View()), endMsgIndex, workflowEnded)
    {
      var updated := pending;
      FillPending(endMsgIndex);
      pending := [];
      if activeWorkflow != "" {
        var execs := RecordsOf(executions, activeWorkflow);
        if |execs| > 0 {
          executions := executions[activeWorkflow := EndLast(execs, endMsgIndex, true)];
        }
        var skillName := activeWorkflow;
        if skillName in configs && configs[skillName].workflowMode && !workflowEnded {
          return [];
        }
        activeWorkflow := "";
        execs := RecordsOf(executions, skillName);
        if |execs| > 0 {
          executions := executions[skillName := CompleteLast(execs)];
        }
        return [skillName];
      }
      completed := CompleteEach(updated);
    }

    method Take(skillName: string) returns (execs: seq<Record>)
      modifies this
      ensures configs == old(configs) && View() == TakeRecordsForAnalysis(old(View()), skillName)
      ensures execs == RecordsOf(old(executions), skillName)
    {
      execs := RecordsOf(executions, skillName);
      executions := executions[skillName := []];
      if activeWorkflow == skillName {
        activeWorkflow := "";
      }
    }

    method Reset()
      modifies this
      ensures configs == old(configs) && View() == EMPTY
    {
      executions := map[];
      pending := [];
      activeWorkflow := "";
    }

    method Save() returns (saved: Saved)
      ensures saved == Snapshot(View())
    {
      var out: Executions := map[];
      var keys := executions.Keys;
      while keys != {}
        invariant keys <= executions.Keys
        invariant forall k :: k in out <==> k in executions && k !in keys && executions[k] != []
        invariant forall k :: k in out ==> out[k] == executions[k]
      {
        var k :| k in keys;
        keys := keys - {k};
        if |executions[k]| > 0 {
          out := out[k := executions[k]];
        }
      }
      assert out == NonEmpty(executions);
      if |out| == 0 {
        return Saved(None, activeWorkflow);
      }
      return Saved(Some(out), activeWorkflow);
    }

    method Load(saved: Saved)
      modifies this
      ensures configs == old(configs) && View() == Restore(saved)
    {
      executions := if saved.executions.None? then map[] else saved.executions.value;
      activeWorkflow := saved.active;
      pending := [];
    }
  }

  // ---- What operations keep ----

  /** Completing marks records; it never adds or drops any. */
  lemma {:induction false} CompleteKeepsShape(ex: Executions, names: seq<string>, skill: string)
    ensures |RecordsOf(CompleteAll(ex, names), skill)| == |RecordsOf(ex, skill)|
  {
    if names != [] {
      CompleteKeepsShape(ex, Init(names), skill);
      CompleteKeepsShape(ex, Init(names), Last(names));
    }
  }

  /** Only the last record of each skill can be incomplete, and an active workflow has one that is. */
  ghost predicate Sound(ex: Executions, active: string) {
    && (forall skill, i :: skill in ex && 0 <= i < |ex[skill]| - 1 ==> ex[skill][i].completed)
    && (active != "" ==> Incomplete(RecordsOf(ex, active)))
  }

  lemma InvocationSound(configs: map<string, Config>, s: State, skill: string, start: int)
    requires Sound(s.executions, s.active)
    ensures var s' := OnSkillInvocation(configs, s, skill, start); Sound(s'.executions, s'.active)
  {
  }

  lemma EndOneSound(ex: Executions, active: string, skill: string, end: int, overwrite: bool)
    requires Sound(ex, active)
    ensures Sound(EndOne(ex, skill, end, overwrite), active)
  {
  }

  lemma {:induction false} FillSound(ex: Executions, active: string, names: seq<string>, end: int)
    requires Sound(ex, active)
    ensures Sound(FillEnds(ex, names, end), active)
  {
    if names != [] {
      hide Sound, EndOne;
      FillSound(ex, active, Init(names), end);
      EndOneSound(FillEnds(ex, Init(names), end), active, Last(names), end, false);
    }
  }

  lemma CompleteOneSound(ex: Executions, active: string, skill: string)
    requires Sound(ex, active)
    ensures Sound(CompleteOne(ex, skill), "")
  {
  }

  lemma {:induction false} CompleteSound(ex: Executions, names: seq<string>)
    requires Sound(ex, "")
    ensures Sound(CompleteAll(ex, names), "")
  {
    if names != [] {
      hide Sound, CompleteOne;
      CompleteSound(ex, Init(names));
      CompleteOneSound(CompleteAll(ex, Init(names)), "", Last(names));
    }
  }

  lemma ResultSound(configs: map<string, Config>, s: State, end: int, workflowEnded: bool)
    requires Sound(s.executions, s.active)
    ensures var s' := OnExecutionResult(configs, s, end, workflowEnded).state; Sound(s'.executions, s'.active)
  {
    hide Sound, FillEnds, CompleteAll, CompleteOne, EndOne;
    FillSound(s.executions, s.active, s.pending, end);
    var filled := FillEnds(s.executions, s.pending, end);
    if s.active == "" {
      CompleteSound(filled, s.pending);
    } else {
      EndOneSound(filled, s.active, s.active, end, true);
      CompleteOneSound(EndOne(filled, s.active, end, true), s.active, s.active);
    }
  }

  lemma TakeSound(s: State, skill: string)
    requires Sound(s.executions, s.active)
    ensures var s' := TakeRecordsForAnalysis(s, skill); Sound(s'.executions, s'.active)
  {
  }

  /** Restoring a snapshot brings back every record and the active workflow, and nothing is pending. */
  lemma SnapshotRoundTrip(s: State)
    ensures var s' := Restore(Snapshot(s));
      && s'.pending == [] && s'.active == s.active
      && forall skill :: RecordsOf(s'.executions, skill) == RecordsOf(s.executions, skill)
    ensures Snapshot(Restore(Snapshot(s))) == Snapshot(s)
  {
    assert NonEmpty(NonEmpty(s.executions)) == NonEmpty(s.executions);
    forall skill ensures RecordsOf(NonEmpty(s.executions), skill) == RecordsOf(s.executions, skill) {
    }
    if NonEmpty(s.executions) == map[] {
      forall skill ensures RecordsOf(s.executions, skill) == [] {
        assert skill in s.executions && s.executions[skill] != [] ==> skill in NonEmpty(s.executions);
      }
    }
  }

  lemma RestoreSound(s: State)
    requires Sound(s.executions, s.active)
    ensures var s' := Restore(Snapshot(s)); Sound(s'.executions, s'.active)
  {
    hide RecordsOf, Snapshot;
    SnapshotRoundTrip(s);
    var s' := Restore(Snapshot(s));
    forall skill, i | skill in s'.executions && 0 <= i < |s'.executions[skill]| - 1
      ensures s'.executions[skill][i].completed
    {
      SameRecords(s, skill);
    }
  }

  lemma SameRecords(s: State, skill: string)
    requires skill in Restore(Snapshot(s)).executions
    ensures skill in s.executions && Restore(Snapshot(s)).executions[skill] == s.executions[skill]
  {
  }

  // ---- Whole runs, across sessions ----

  datatype Op =
    | Invoke(skill: string, start: int)
    | EndRound(end: int, workflowEnded: bool)
    | Take(skill: string)
    | Reset
    | Configure(configs: map<string, Config>)
    | Save
    | Resume

  /** The running collector, and the state whose snapshot is in the session store. */
  datatype Sessions = Sessions(configs: map<string, Config>, state: State, stored: State)

  function Do(sys: Sessions, op: Op): Sessions {
    match op
    case Invoke(skill, start) => sys.(state := OnSkillInvocation(sys.configs, sys.state, skill, start))
    case EndRound(end, ended) => sys.(state := OnExecutionResult(sys.configs, sys.state, end, ended).state)
    case Take(skill) => sys.(state := TakeRecordsForAnalysis(sys.state, skill))
    case Reset => sys.(state := EMPTY)
    case Configure(configs) => sys.(configs := configs)
    case Save => sys.(stored := sys.state)
    case Resume => sys.(state := Restore(Snapshot(sys.stored)))
  }

  function Run(configs: map<string, Config>, ops: seq<Op>): Sessions {
    if ops == [] then Sessions(configs, EMPTY, EMPTY) else Do(Run(configs, Init(ops)), Last(ops))
  }

  /** In every run, with restarts and changing configurations, the records stay well formed. */
  lemma {:induction false} RunSound(configs: map<string, Config>, ops: seq<Op>)
    ensures var sys := Run(configs, ops);
      Sound(sys.state.executions, sys.state.active) && Sound(sys.stored.executions, sys.stored.active)
  {
    if ops != [] {
      hide Sound, OnSkillInvocation, OnExecutionResult, TakeRecordsForAnalysis, Restore, Snapshot;
      RunSound(configs, Init(ops));
      var sys := Run(configs, Init(ops));
      match Last(ops)
      case Invoke(skill, start) => InvocationSound(sys.configs, sys.state, skill, start);
      case EndRound(end, ended) => ResultSound(sys.configs, sys.state, end, ended);
      case Take(skill) => TakeSound(sys.state, skill);
      case Reset => EmptySound();
      case Configure(_) =>
      case Save =>
      case Resume => RestoreSound(sys.stored);
    } else {
      EmptySound();
    }
  }

  lemma EmptySound()
    ensures Sound(EMPTY.executions, EMPTY.active)
  {
  }

  // ---- What a round completes ----

  lemma CompleteOneEffect(ex: Executions, skill: string, other: string)
    ensures Incomplete(RecordsOf(CompleteOne(ex, skill), other)) <==> Incomplete(RecordsOf(ex, other)) && other != skill
  {
  }

  lemma EndOneEffect(ex: Executions, skill: string, end: int, overwrite: bool, other: string)
    ensures Incomplete(RecordsOf(EndOne(ex, skill, end, overwrite), other)) <==> Incomplete(RecordsOf(ex, other))
  {
  }

  lemma {:induction false} FillEffect(ex: Executions, names: seq<string>, end: int, other: string)
    ensures Incomplete(RecordsOf(FillEnds(ex, names, end), other)) <==> Incomplete(RecordsOf(ex, other))
  {
    if names != [] {
      hide Incomplete, RecordsOf, EndOne;
      FillEffect(ex, Init(names), end, other);
      EndOneEffect(FillEnds(ex, Init(names), end), Last(names), end, false, other);
    }
  }

  lemma {:induction false} CompleteEffect(ex: Executions, names: seq<string>, other: string)
    ensures Incomplete(RecordsOf(CompleteAll(ex, names), other)) <==>
      Incomplete(RecordsOf(ex, other)) && other !in names
  {
    if names != [] {
      hide Incomplete, RecordsOf, CompleteOne;
      CompleteEffect(ex, Init(names), other);
      CompleteOneEffect(CompleteAll(ex, Init(names)), Last(names), other);
      assert names == Init(names) + [Last(names)];
    }
  }

  /**
   Exactly which incomplete skills a round leaves incomplete: with no active workflow, those not
   invoked in the round; with one, every skill but the workflow, which stays open until it ends. So a
   plain skill invoked while a workflow is active is not completed by its round.
   */
  lemma LeftIncompleteIff(configs: map<string, Config>, s: State, end: int, workflowEnded: bool, skill: string)
    ensures Incomplete(RecordsOf(OnExecutionResult(configs, s, end, workflowEnded).state.executions, skill)) <==>
            && Incomplete(RecordsOf(s.executions, skill))
            && if s.active == "" then skill !in s.pending
               else skill != s.active || StaysOpen(configs, skill, workflowEnded)
  {
    hide Incomplete, RecordsOf, FillEnds, EndOne, CompleteOne, CompleteAll;
    var filled := FillEnds(s.executions, s.pending, end);
    FillEffect(s.executions, s.pending, end, skill);
    CompleteEffect(filled, s.pending, skill);
    EndOneEffect(filled, s.active, end, true, skill);
    CompleteOneEffect(EndOne(filled, s.active, end, true), s.active, skill);
  }

  /** Taking a skill's records leaves it without any and without its workflow, and touches nothing else. */
  lemma TakeMeaning(s: State, skill: string, other: string)
    ensures var t := TakeRecordsForAnalysis(s, skill);
      && RecordsOf(t.executions, other) == (if other == skill then [] else RecordsOf(s.executions, other))
      && t.pending == s.pending && t.active == (if s.active == skill then "" else s.active)
  {
  }

  /**
   Invoking a skill without rules does nothing. Otherwise it is pending, last; a workflow becomes the active one, and
   a plain skill ends its own; no other skill's records change.
   */
  lemma InvocationMeaning(configs: map<string, Config>, s: State, skill: string, start: int, other: string)
    ensures var t := OnSkillInvocation(configs, s, skill, start);
      && (skill !in configs ==> t == s)
      && (skill in configs ==>
            && t.pending == s.pending + [skill]
            && (configs[skill].workflowMode ==> t.active == skill)
            && (!configs[skill].workflowMode && s.active != skill ==> t.active == s.active)
            && (!configs[skill].workflowMode && s.active == skill ==> t.active == "")
            && (other != skill ==> RecordsOf(t.executions, other) == RecordsOf(s.executions, other)))
  {
  }

  /** The first records are untouched, and the last keeps its start. */
  predicate SameButLast(before: seq<Record>, after: seq<Record>, end: int, completed: bool) {
    && |after| == |before|
    && (before != [] ==>
          && Init(after) == Init(before) && Last(after) == Record(Last(before).start, end, completed))
  }

  function LastEnd(recs: seq<Record>): int {
    if recs == [] then 0 else Last(recs).end
  }

  predicate LastDone(recs: seq<Record>) {
    recs != [] && Last(recs).completed
  }

  lemma {:induction false} FillRecords(ex: Executions, names: seq<string>, end: int, skill: string)
    ensures var before, after := RecordsOf(ex, skill), RecordsOf(FillEnds(ex, names, end), skill);
      SameButLast(before, after, if skill in names && LastEnd(before) == 0 then end else LastEnd(before),
                  LastDone(before))
  {
    if names != [] {
      FillRecords(ex, Init(names), end, skill);
      assert names == Init(names) + [Last(names)];
    }
  }

  lemma {:induction false} CompleteRecords(ex: Executions, names: seq<string>, skill: string)
    ensures var before, after := RecordsOf(ex, skill), RecordsOf(CompleteAll(ex, names), skill);
      SameButLast(before, after, LastEnd(before), skill in names || LastDone(before))
  {
    if names != [] {
      CompleteRecords(ex, Init(names), skill);
      assert names == Init(names) + [Last(names)];
    }
  }

  /**
   What a round does to the records of any skill: only the last changes. The active workflow's is given the end of
   the round; with or without one, that of a skill invoked in the round is, if it has none. Completed are the
   invoked skills if no workflow is active, and otherwise the workflow alone, once it ends.
   */
  lemma RoundRecords(configs: map<string, Config>, s: State, end: int, workflowEnded: bool, skill: string)
    ensures var before := RecordsOf(s.executions, skill);
      var after := RecordsOf(OnExecutionResult(configs, s, end, workflowEnded).state.executions, skill);
      SameButLast(before, after,
                  if s.active != "" && skill == s.active then end
                  else if skill in s.pending && LastEnd(before) == 0 then end
                  else LastEnd(before),
                  || LastDone(before)
                  || (if s.active == "" then skill in s.pending
                      else skill == s.active && !StaysOpen(configs, skill, workflowEnded)))
  {
    hide FillEnds, CompleteAll;
    var filled := FillEnds(s.executions, s.pending, end);
    FillRecords(s.executions, s.pending, end, skill);
    CompleteRecords(filled, s.pending, skill);
  }

  lemma {:induction false} ReportedMeaning(ex: Executions, names: seq<string>)
    ensures forall n :: n in WithRecords(ex, names) <==> n in names && RecordsOf(ex, n) != []
    ensures (forall n :: n in names ==> RecordsOf(ex, n) != []) ==> WithRecords(ex, names) == names
  {
    if names != [] {
      hide RecordsOf;
      ReportedMeaning(ex, Init(names));
      assert names == Init(names) + [Last(names)];
    }
  }

  /**
   What a round reports and leaves: nothing is pending; while a workflow stays open it reports nothing, when it ends
   just the workflow, and without one the skills invoked, in order.
   */
  lemma RoundReports(configs: map<string, Config>, s: State, end: int, workflowEnded: bool)
    ensures var r := OnExecutionResult(configs, s, end, workflowEnded);
      && r.state.pending == []
      && (s.active != "" && StaysOpen(configs, s.active, workflowEnded) ==>
            r.completed == [] && r.state.active == s.active)
      && (s.active != "" && !StaysOpen(configs, s.active, workflowEnded) ==>
            r.completed == [s.active] && r.state.active == "")
      && (s.active == "" ==>
            && r.state.active == ""
            && (forall n :: n in r.completed <==> n in s.pending && RecordsOf(s.executions, n) != [])
            && ((forall n :: n in s.pending ==> RecordsOf(s.executions, n) != []) ==> r.completed == s.pending))
  {
    hide FillEnds, CompleteAll, RecordsOf, EndOne, CompleteOne, SameButLast;
    var filled := FillEnds(s.executions, s.pending, end);
    ReportedMeaning(filled, s.pending);
    forall n ensures RecordsOf(filled, n) != [] <==> RecordsOf(s.executions, n) != [] {
      FillRecords(s.executions, s.pending, end, n);
      SameLength(RecordsOf(s.executions, n), RecordsOf(filled, n));
    }
  }

  lemma SameLength(before: seq<Record>, after: seq<Record>)
    ensures forall end, completed :: SameButLast(before, after, end, completed) ==> (after != [] <==> before != [])
  {
  }

  /** A run in which a plain skill is invoked while a workflow is active, and its round leaves it incomplete. */
  lemma PlainSkillLeftIncomplete()
    ensures var configs := map["w" := Config(true), "s" := Config(false)];
      var after := Run(configs, [Op.Invoke("w", 0), Op.Invoke("s", 2), Op.EndRound(5, false)]).state;
      after.pending == [] && after.active == "w" && Incomplete(RecordsOf(after.executions, "s"))
  {
    hide OnSkillInvocation, OnExecutionResult, Incomplete, RecordsOf;
    var configs := map["w" := Config(true), "s" := Config(false)];
    LastOp(configs, [], Op.Invoke("w", 0));
    LastOp(configs, [Op.Invoke("w", 0)], Op.Invoke("s", 2));
    LastOp(configs, [Op.Invoke("w", 0), Op.Invoke("s", 2)], Op.EndRound(5, false));
    BothInvoked(configs);
    var s := OnSkillInvocation(configs, OnSkillInvocation(configs, EMPTY, "w", 0), "s", 2);
    LeftIncompleteIff(configs, s, 5, false, "s");
    WorkflowStaysActive(configs, s, 5);
  }

  lemma BothInvoked(configs: map<string, Config>)
    requires configs == map["w" := Config(true), "s" := Config(false)]
    ensures var s := OnSkillInvocation(configs, OnSkillInvocation(configs, EMPTY, "w", 0), "s", 2);
      s.active == "w" && Incomplete(RecordsOf(s.executions, "s"))
  {
  }

  lemma WorkflowStaysActive(configs: map<string, Config>, s: State, end: int)
    requires s.active != "" && StaysOpen(configs, s.active, false)
    ensures var t := OnExecutionResult(configs, s, end, false).state; t.active == s.active && t.pending == []
  {
    hide FillEnds, EndOne, CompleteAll;
  }

  /**
   An invocation keeps a skill's earlier records exactly if it has none or the last one is completed;
   otherwise it drops them all, completed ones included, and only the new record is left.
   */
  lemma InvocationKeepsRecordsIff(configs: map<string, Config>, s: State, skill: string, start: int)
    requires skill in configs
    ensures var before := RecordsOf(s.executions, skill);
      var after := RecordsOf(OnSkillInvocation(configs, s, skill, start).executions, skill);
      && (after == before + [Record(start, 0, false)] <==> before == [] || Last(before).completed)
      && (after != before + [Record(start, 0, false)] ==> after == [Record(start, 0, false)])
  {
  }

  /** A completed record, then a stale one: the next invocation drops both, not the stale one alone. */
  lemma InvocationDropsCompleted()
    ensures var ops := [Op.Invoke("s", 0), Op.EndRound(5, false), Op.Invoke("s", 5)];
      var configs := map["s" := Config(false)];
      && RecordsOf(Run(configs, ops).state.executions, "s") == [Record(0, 5, true), Record(5, 0, false)]
      && RecordsOf(Run(configs, ops + [Op.Invoke("s", 7)]).state.executions, "s") == [Record(7, 0, false)]
  {
    hide OnSkillInvocation, OnExecutionResult;
    var configs := map["s" := Config(false)];
    var ops := [Op.Invoke("s", 0), Op.EndRound(5, false), Op.Invoke("s", 5)];
    LastOp(configs, [], ops[0]);
    InvokedOnce(configs);
    LastOp(configs, [ops[0]], ops[1]);
    EndedOnce(configs, Run(configs, [ops[0]]).state);
    LastOp(configs, [ops[0], ops[1]], ops[2]);
    InvocationKeepsRecordsIff(configs, Run(configs, [ops[0], ops[1]]).state, "s", 5);
    LastOp(configs, ops, Op.Invoke("s", 7));
    InvocationKeepsRecordsIff(configs, Run(configs, ops).state, "s", 7);
  }

  lemma LastOp(configs: map<string, Config>, ops: seq<Op>, op: Op)
    ensures Run(configs, ops + [op]) == Do(Run(configs, ops), op)
  {
    assert Init(ops + [op]) == ops;
  }

  lemma InvokedOnce(configs: map<string, Config>)
    requires "s" in configs && !configs["s"].workflowMode
    ensures var s := OnSkillInvocation(configs, EMPTY, "s", 0);
      s.pending == ["s"] && s.active == "" && RecordsOf(s.executions, "s") == [Record(0, 0, false)]
  {
  }

  lemma EndedOnce(configs: map<string, Config>, s: State)
    requires s.pending == ["s"] && s.active == "" && RecordsOf(s.executions, "s") == [Record(0, 0, false)]
    ensures var t := OnExecutionResult(configs, s, 5, false).state;
      t.pending == [] && t.active == "" && RecordsOf(t.executions, "s") == [Record(0, 5, true)]
  {
    assert Init(["s"]) == [];
    assert FillEnds(s.executions, [], 5) == s.executions;
    var filled := FillEnds(s.executions, ["s"], 5);
    assert RecordsOf(filled, "s") == [Record(0, 5, false)];
    assert CompleteAll(filled, []) == filled;
  }

  /** Rounds in which the workflow has not ended yet. */
  function Rounds(configs: map<string, Config>, s: State, ends: seq<int>): State {
    if ends == [] then s else OnExecutionResult(configs, Rounds(configs, s, Init(ends)), Last(ends), false).state
  }

  ghost predicate OpenWorkflow(s: State, skill: string, start: int) {
    && s.active == skill && (forall i :: 0 <= i < |s.pending| ==> s.pending[i] == skill)
    && Incomplete(RecordsOf(s.executions, skill)) && Last(RecordsOf(s.executions, skill)).start == start
  }

  lemma {:induction false} FillKeepsStart(ex: Executions, names: seq<string>, end: int, skill: string)
    requires Incomplete(RecordsOf(ex, skill))
    ensures var recs := RecordsOf(FillEnds(ex, names, end), skill);
      Incomplete(recs) && Last(recs).start == Last(RecordsOf(ex, skill)).start
  {
    if names != [] {
      hide FillEnds;
      assert FillEnds(ex, names, end) == EndOne(FillEnds(ex, Init(names), end), Last(names), end, false) by {
        FillUnfold(ex, names, end);
      }
      FillKeepsStart(ex, Init(names), end, skill);
    } else {
      assert FillEnds(ex, [], end) == ex;
    }
  }

  lemma FillUnfold(ex: Executions, names: seq<string>, end: int)
    requires names != []
    ensures FillEnds(ex, names, end) == EndOne(FillEnds(ex, Init(names), end), Last(names), end, false)
  {
  }

  lemma OpenRound(configs: map<string, Config>, s: State, skill: string, start: int, end: int, ended: bool)
    requires skill != "" && skill in configs && configs[skill].workflowMode && OpenWorkflow(s, skill, start)
    ensures var r := OnExecutionResult(configs, s, end, ended);
      if ended then r.completed == [skill] && r.state.active == "" && RecordsOf(r.state.executions, skill) != []
                    && Last(RecordsOf(r.state.executions, skill)) == Record(start, end, true)
      else r.completed == [] && OpenWorkflow(r.state, skill, start)
  {
    hide FillEnds;
    FillKeepsStart(s.executions, s.pending, end, skill);
  }

  /**
   A workflow skill gets one record however many rounds it spans: from the message index at its
   invocation to the index at the end of the round that ends it, reported once.
   */
  lemma {:induction false} WorkflowSpansRounds(configs: map<string, Config>, s: State, skill: string, start: int,
                                               ends: seq<int>, end: int)
    requires skill != "" && skill in configs && configs[skill].workflowMode && s.pending == []
    ensures var open := Rounds(configs, OnSkillInvocation(configs, s, skill, start), ends);
      var r := OnExecutionResult(configs, open, end, true);
      && OpenWorkflow(open, skill, start)
      && r.completed == [skill] && RecordsOf(r.state.executions, skill) != []
      && Last(RecordsOf(r.state.executions, skill)) == Record(start, end, true)
  {
    hide OnExecutionResult;
    if ends != [] {
      WorkflowSpansRounds(configs, s, skill, start, Init(ends), end);
      var open := Rounds(configs, OnSkillInvocation(configs, s, skill, start), Init(ends));
      OpenRound(configs, open, skill, start, Last(ends), false);
    }
    OpenRound(configs, Rounds(configs, OnSkillInvocation(configs, s, skill, start), ends), skill, start, end, true);
  }
}
