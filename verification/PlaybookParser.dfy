/** The playbook parser: from lines to steps, and from steps to phases. */
module PlaybookParser {
  import opened Messages
  import opened Plans
  import opened PlaybookLines

  datatype Node = Node(step: Step, ordered: bool)

  // ---- Grouping ----

  /** Consecutive nodes of the same kind share a phase. */
  function Group(nodes: seq<Node>): seq<Phase> {
    if nodes == [] then [] else AddNode(nodes[0], Group(nodes[1..]))
  }

  function AddNode(first: Node, rest: seq<Phase>): seq<Phase> {
    if rest != [] && rest[0].parallel == !first.ordered
    then [Phase([first.step] + rest[0].steps, rest[0].parallel)] + rest[1..]
    else [Phase([first.step], !first.ordered)] + rest
  }

  function StepNodes(steps: seq<Step>, ordered: bool): seq<Node> {
    if steps == [] then [] else StepNodes(Init(steps), ordered) + [Node(Last(steps), ordered)]
  }

  /** The steps of a list of phases, in order, each marked as its phase is. */
  function Flatten(phases: seq<Phase>): seq<Node> {
    if phases == [] then [] else StepNodes(phases[0].steps, !phases[0].parallel) + Flatten(phases[1..])
  }

  /** No phase is empty, and neighbours differ in kind: phases are as long as they can be. */
  ghost predicate Alternating(phases: seq<Phase>) {
    && (forall i :: 0 <= i < |phases| ==> phases[i].steps != [])
    && forall i :: 0 < i < |phases| ==> phases[i - 1].parallel != phases[i].parallel
  }

  lemma {:induction false} StepNodesFront(step: Step, steps: seq<Step>, ordered: bool)
    ensures StepNodes([step] + steps, ordered) == [Node(step, ordered)] + StepNodes(steps, ordered)
  {
    if steps == [] {
      assert [step] + steps == [step];
      assert Init([step]) == [];
    } else {
      StepNodesFront(step, Init(steps), ordered);
      assert Init([step] + steps) == [step] + Init(steps);
    }
  }

  lemma AddNodeFlattens(first: Node, rest: seq<Phase>)
    ensures Flatten(AddNode(first, rest)) == [first] + Flatten(rest)
  {
    hide StepNodes;
    var phases := AddNode(first, rest);
    if rest != [] && rest[0].parallel == !first.ordered {
      StepNodesFront(first.step, rest[0].steps, first.ordered);
      assert phases[1..] == rest[1..];
    } else {
      StepNodesFront(first.step, [], first.ordered);
      assert [first.step] + [] == [first.step];
      assert StepNodes([], first.ordered) == [] by { StepNodesNone(first.ordered); }
      assert phases[1..] == rest;
    }
  }

  lemma StepNodesNone(ordered: bool)
    ensures StepNodes([], ordered) == []
  {
  }

  lemma AddNodeAlternates(first: Node, rest: seq<Phase>)
    requires Alternating(rest)
    ensures Alternating(AddNode(first, rest))
    ensures AddNode(first, rest)[0].parallel == !first.ordered
  {
  }

  /** Grouping loses nothing and makes maximal phases. */
  lemma {:induction false} GroupMeaning(nodes: seq<Node>)
    ensures Flatten(Group(nodes)) == nodes && Alternating(Group(nodes))
    ensures nodes != [] ==> Group(nodes) != [] && Group(nodes)[0].parallel == !nodes[0].ordered
  {
    if nodes != [] {
      hide AddNode, Alternating, Flatten;
      GroupMeaning(nodes[1..]);
      AddNodeFlattens(nodes[0], Group(nodes[1..]));
      AddNodeAlternates(nodes[0], Group(nodes[1..]));
    }
  }

  /** And it is the only way to do so: an alternating list of phases is the grouping of its own steps. */
  lemma {:induction false} GroupIsUnique(phases: seq<Phase>)
    requires Alternating(phases)
    ensures Group(Flatten(phases)) == phases
  {
    if phases != [] {
      GroupIsUnique(phases[1..]);
      GroupPhase(phases[0].steps, phases[0].parallel, Flatten(phases[1..]));
      if phases[1..] != [] {
        assert phases[0].parallel != phases[1].parallel;
      }
      assert phases == [phases[0]] + phases[1..];
    }
  }

  lemma {:induction false} GroupPhase(steps: seq<Step>, parallel: bool, rest: seq<Node>)
    requires steps != []
    requires Group(rest) != [] ==> Group(rest)[0].parallel != parallel
    ensures Group(StepNodes(steps, !parallel) + rest) == [Phase(steps, parallel)] + Group(rest)
    decreases |steps|
  {
    hide StepNodes;
    var nodes := StepNodes(steps, !parallel) + rest;
    StepNodesFront(steps[0], steps[1..], !parallel);
    assert steps == [steps[0]] + steps[1..];
    assert nodes == [Node(steps[0], !parallel)] + (StepNodes(steps[1..], !parallel) + rest);
    assert nodes[1..] == StepNodes(steps[1..], !parallel) + rest;
    if steps[1..] == [] {
      StepNodesNone(!parallel);
      assert nodes[1..] == rest;
      assert steps == [steps[0]];
    } else {
      GroupPhase(steps[1..], parallel, rest);
    }
  }

  // ---- Steps and their children ----

  /** How many leading lines are blank or indented by at least `k`. */
  function Below(ls: seq<string>, k: nat): (n: nat)
    ensures n <= |ls|
  {
    if ls != [] && (IsEmptyLine(ls[0]) || MeasureIndent(ls[0]) >= k) then 1 + Below(ls[1..], k) else 0
  }

  function ChildListIndent(ls: seq<string>): Option<nat> {
    if ls == [] then None
    else if !IsEmptyLine(ls[0]) && ItemOf(ls[0]).text != "" then Some(MeasureIndent(ls[0]))
    else ChildListIndent(ls[1..])
  }

  /** A list item exactly at the given indentation. */
  predicate ItemAt(line: string, indent: nat) {
    !IsEmptyLine(line) && MeasureIndent(line) == indent && ItemOf(line).text != ""
  }

  predicate AllProperties(ls: seq<string>, indent: nat) {
    forall i :: 0 <= i < |ls| && ItemAt(ls[i], indent) ==> IsPropertyLine(ItemOf(ls[i]).text)
  }

  function WithProperties(ls: seq<string>, indent: nat, step: Step): Step {
    if ls == [] then step
    else
      var before := WithProperties(Init(ls), indent, step);
      if ItemAt(Last(ls), indent) then ParseProperty(ItemOf(Last(ls)).text, before) else before
  }

  function NewStep(title: Title): Step {
    Step(title.agentType, title.description, "", "", false, None)
  }

  /** The steps listed at indentation `base`, up to the first line indented less. */
  function ParseNodes(ls: seq<string>, base: nat): seq<Node>
    decreases |ls|, 1
  {
    if ls == [] then []
    else if IsEmptyLine(ls[0]) || MeasureIndent(ls[0]) > base then ParseNodes(ls[1..], base)
    else if MeasureIndent(ls[0]) < base then []
    else if ItemOf(ls[0]).text == "" then ParseNodes(ls[1..], base)
    else
      [Node(ParseStep(ls, base), ItemOf(ls[0]).ordered)] + ParseNodes(ls[1 + Below(ls[1..], base + 1)..], base)
  }

  /** The step whose title is the first line, with the deeper lines that follow as its children. */
  function ParseStep(ls: seq<string>, base: nat): Step
    requires ls != []
    decreases |ls|, 0
  {
    var step := NewStep(ParseStepTitle(ItemOf(ls[0]).text));
    var children := ls[1..][..Below(ls[1..], base + 1)];
    match ChildListIndent(children)
    case None => step
    case Some(indent) =>
      if AllProperties(children, indent) then WithProperties(children, indent, step)
      else
        var sub := ParseNodes(ls[1..], indent);
        if sub == [] then step else step.(subPlan := Some(Plan(Group(sub))))
  }

  datatype Parsed = Ok(plan: Plan) | NoSteps

  function ParsePlan(content: string): Parsed {
    var nodes := ParseNodes(Split(content), 0);
    if nodes == [] then NoSteps else Ok(Plan(Group(nodes)))
  }

  // ---- The loops of the parser ----

  lemma {:induction false} FlattenAppend(phases: seq<Phase>, p: Phase)
    ensures Flatten(phases + [p]) == Flatten(phases) + StepNodes(p.steps, !p.parallel)
  {
    hide StepNodes;
    if phases == [] {
      assert phases + [p] == [p];
      assert [p][1..] == [];
    } else {
      FlattenAppend(phases[1..], p);
      assert (phases + [p])[1..] == phases[1..] + [p];
    }
  }

  method StepsOf(nodes: seq<Node>, start: nat, end: nat) returns (steps: seq<Step>)
    requires start <= end <= |nodes|
    requires forall k :: start <= k < end ==> nodes[k].ordered == nodes[start].ordered
    ensures |steps| == end - start
    ensures start < end ==> StepNodes(steps, nodes[start].ordered) == nodes[start..end]
  {
    hide StepNodes;
    steps := [];
    if start < end {
      StepNodesNone(nodes[start].ordered);
    }
    for i := start to end
      invariant |steps| == i - start
      invariant start < end ==> StepNodes(steps, nodes[start].ordered) == nodes[start..i]
    {
      StepNodesBack(steps, nodes[i].step, nodes[start].ordered);
      assert nodes[start..i + 1] == nodes[start..i] + [nodes[i]];
      steps := steps + [nodes[i].step];
    }
  }

  lemma StepNodesBack(steps: seq<Step>, step: Step, ordered: bool)
    ensures StepNodes(steps + [step], ordered) == StepNodes(steps, ordered) + [Node(step, ordered)]
  {
    assert Init(steps + [step]) == steps;
  }

  method BuildExecutionPlan(nodes: seq<Node>) returns (plan: Plan)
    ensures plan == Plan(Group(nodes))
    ensures Flatten(plan.phases) == nodes && Alternating(plan.phases)
  {
    hide StepNodes;
    var phases: seq<Phase> := [];
    var start := 0;
    while start < |nodes|
      invariant start <= |nodes|
      invariant Flatten(phases) == nodes[..start] && Alternating(phases)
      invariant phases != [] && start < |nodes| ==> Last(phases).parallel == nodes[start].ordered
    {
      var parallel := !nodes[start].ordered;
      var end := start + 1;
      while end < |nodes| && nodes[end].ordered == nodes[start].ordered
        invariant start < end <= |nodes|
        invariant forall k :: start <= k < end ==> nodes[k].ordered == nodes[start].ordered
      {
        end := end + 1;
      }
      var steps := StepsOf(nodes, start, end);
      FlattenAppend(phases, Phase(steps, parallel));
      assert nodes[..start] + nodes[start..end] == nodes[..end];
      phases := phases + [Phase(steps, parallel)];
      start := end;
    }
    assert nodes[..start] == nodes;
    GroupIsUnique(phases);
    plan := Plan(phases);
  }

  method FindChildListIndent(childLines: seq<string>) returns (r: Option<nat>)
    ensures r == ChildListIndent(childLines)
  {
    hide IsEmptyLine, ItemOf, MeasureIndent;
    for i := 0 to |childLines|
      invariant ChildListIndent(childLines) == ChildListIndent(childLines[i..])
    {
      assert childLines[i..][0] == childLines[i] && childLines[i..][1..] == childLines[i + 1..];
      if IsEmptyLine(childLines[i]) {
        continue;
      }
      if ItemOf(childLines[i]).text != "" {
        return Some(MeasureIndent(childLines[i]));
      }
    }
    return None;
  }

  method AllChildrenAreProperties(lines: seq<string>, listIndent: nat) returns (ok: bool)
    ensures ok == AllProperties(lines, listIndent)
  {
    hide IsEmptyLine, ItemOf, MeasureIndent, IsPropertyLine;
    for i := 0 to |lines|
      invariant AllProperties(lines[..i], listIndent)
    {
      assert forall k :: 0 <= k < i ==> lines[..i + 1][k] == lines[..i][k];
      if IsEmptyLine(lines[i]) {
        continue;
      }
      if MeasureIndent(lines[i]) != listIndent {
        continue;
      }
      var text := ItemOf(lines[i]).text;
      if text != "" {
        if !IsPropertyLine(text) {
          return false;
        }
      }
    }
    assert lines[..|lines|] == lines;
    return true;
  }

  method ParseChildProperties(childLines: seq<string>, listIndent: nat, step: Step) returns (r: Step)
    ensures r == WithProperties(childLines, listIndent, step)
  {
    hide IsEmptyLine, ItemOf, MeasureIndent, ParseProperty;
    r := step;
    for i := 0 to |childLines|
      invariant r == WithProperties(childLines[..i], listIndent, step)
    {
      assert Init(childLines[..i + 1]) == childLines[..i];
      if IsEmptyLine(childLines[i]) {
        continue;
      }
      if MeasureIndent(childLines[i]) != listIndent {
        continue;
      }
      var text := ItemOf(childLines[i]).text;
      if text != "" {
        r := ParseProperty(text, r);
      }
    }
    assert childLines[..|childLines|] == childLines;
  }

  lemma SkipLine(ls: seq<string>, base: nat)
    requires ls != []
    requires IsEmptyLine(ls[0]) || MeasureIndent(ls[0]) > base
             || (MeasureIndent(ls[0]) == base && ItemOf(ls[0]).text == "")
    ensures ParseNodes(ls, base) == ParseNodes(ls[1..], base) && Below(ls, base) == 1 + Below(ls[1..], base)
  {
    hide IsEmptyLine, ItemOf, MeasureIndent, ParseStep;
  }

  lemma StopAt(ls: seq<string>, base: nat)
    requires ls == [] || (!IsEmptyLine(ls[0]) && MeasureIndent(ls[0]) < base)
    ensures ParseNodes(ls, base) == [] && Below(ls, base) == 0
  {
    hide IsEmptyLine, ItemOf, MeasureIndent, ParseStep;
  }

  lemma TakeStep(ls: seq<string>, base: nat)
    requires ls != [] && ItemAt(ls[0], base)
    ensures var n := 1 + Below(ls[1..], base + 1);
      && ParseNodes(ls, base) == [Node(ParseStep(ls, base), ItemOf(ls[0]).ordered)] + ParseNodes(ls[n..], base)
      && Below(ls, base) == n + Below(ls[n..], base)
  {
    hide IsEmptyLine, ItemOf, MeasureIndent, ParseStep;
    BelowSplits(ls[1..], base);
    assert ls[1..][Below(ls[1..], base + 1)..] == ls[1 + Below(ls[1..], base + 1)..];
  }

  /** The nodes listed from line `start`, and the first line after them: the first one indented less. */
  method ParseStepNodes(lines: seq<string>, start: nat, baseIndent: nat) returns (nodes: seq<Node>, next: nat)
    requires start <= |lines|
    ensures nodes == ParseNodes(lines[start..], baseIndent)
    ensures next == start + Below(lines[start..], baseIndent)
    decreases |lines| - start, 1
  {
    hide IsEmptyLine, ItemOf, MeasureIndent, ParseStep, ParseNodes, Below;
    nodes := [];
    var i := start;
    while i < |lines|
      invariant start <= i <= |lines|
      invariant nodes + ParseNodes(lines[i..], baseIndent) == ParseNodes(lines[start..], baseIndent)
      invariant i + Below(lines[i..], baseIndent) == start + Below(lines[start..], baseIndent)
    {
      var line := lines[i];
      assert lines[i..][0] == line && lines[i..][1..] == lines[i + 1..];
      if IsEmptyLine(line) {
        SkipLine(lines[i..], baseIndent);
        i := i + 1;
        continue;
      }
      var indent := MeasureIndent(line);
      if indent < baseIndent {
        break;
      }
      if indent > baseIndent {
        SkipLine(lines[i..], baseIndent);
        i := i + 1;
        continue;
      }
      var item := ItemOf(line);
      if item.text == "" {
        SkipLine(lines[i..], baseIndent);
        i := i + 1;
        continue;
      }
      var step, nextIdx := ParseStepAt(lines, i, baseIndent);
      TakeStep(lines[i..], baseIndent);
      assert lines[i..][nextIdx - i..] == lines[nextIdx..];
      nodes := nodes + [Node(step, item.ordered)];
      i := nextIdx;
    }
    StopAt(lines[i..], baseIndent);
    next := i;
  }

  /** Skipping the lines indented deeper first does not change where the lines at `k` or deeper end. */
  lemma {:induction false} BelowSplits(ls: seq<string>, k: nat)
    ensures Below(ls, k) == Below(ls, k + 1) + Below(ls[Below(ls, k + 1)..], k)
  {
    hide IsEmptyLine, MeasureIndent;
    if ls != [] && (IsEmptyLine(ls[0]) || MeasureIndent(ls[0]) >= k + 1) {
      BelowSplits(ls[1..], k);
      assert ls[1..][Below(ls[1..], k + 1)..] == ls[Below(ls, k + 1)..];
    }
  }

  /** The step titled by line `i`, and the first line after its children. */
  method ParseStepAt(lines: seq<string>, i: nat, baseIndent: nat) returns (step: Step, next: nat)
    requires i < |lines|
    ensures step == ParseStep(lines[i..], baseIndent)
    ensures next == i + 1 + Below(lines[i + 1..], baseIndent + 1)
    decreases |lines| - i, 0
  {
    hide IsEmptyLine, ItemOf, MeasureIndent, ParseStepTitle, WithProperties, AllProperties, ChildListIndent, Group;
    step := NewStep(ParseStepTitle(ItemOf(lines[i]).text));
    var childStart := i + 1;
    next := childStart;
    while next < |lines|
      invariant childStart <= next <= |lines|
      invariant next + Below(lines[next..], baseIndent + 1) == childStart + Below(lines[childStart..], baseIndent + 1)
    {
      assert lines[next..][0] == lines[next] && lines[next..][1..] == lines[next + 1..];
      if IsEmptyLine(lines[next]) {
        next := next + 1;
        continue;
      }
      if MeasureIndent(lines[next]) <= baseIndent {
        break;
      }
      next := next + 1;
    }
    assert lines[i..][0] == lines[i] && lines[i..][1..] == lines[childStart..];
    var childLines := lines[childStart..next];
    assert childLines == lines[childStart..][..next - childStart];
    if childStart < next {
      var listIndent := FindChildListIndent(childLines);
      if listIndent.Some? {
        var properties := AllChildrenAreProperties(childLines, listIndent.value);
        if properties {
          step := ParseChildProperties(childLines, listIndent.value, step);
        } else {
          var subNodes, _ := ParseStepNodes(lines, childStart, listIndent.value);
          if |subNodes| > 0 {
            var plan := BuildExecutionPlan(subNodes);
            step := step.(subPlan := Some(plan));
          }
        }
      }
    } else {
      NoChildren();
    }
  }

  lemma NoChildren()
    ensures ChildListIndent([]) == None
  {
  }

  method Parse(content: string) returns (r: Parsed)
    ensures r == ParsePlan(content)
  {
    hide Group, ParseNodes;
    var lines := Split(content);
    var steps, _ := ParseStepNodes(lines, 0, 0);
    assert lines[0..] == lines;
    if |steps| == 0 {
      return NoSteps;
    }
    var plan := BuildExecutionPlan(steps);
    return Ok(plan);
  }
}
