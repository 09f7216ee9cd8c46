/** Parsing a printed plan gives the plan back, exactly if no sub-plan looks like a list of properties. */
module PlaybookRoundTrip {
  import opened Messages
  import opened Plans
  import opened PlaybookLines
  import opened PlaybookParser
  import opened PlaybookPrinting

  /** Some first-level title of the sub-plan does not read as a property. */
  predicate HasProperTitle(plan: Plan) {
    exists i, j :: 0 <= i < |plan.phases| && 0 <= j < |plan.phases[i].steps| &&
      !IsPropertyLine(TitleText(plan.phases[i].steps[j]))
  }

  predicate Survives(step: Step)
    decreases step
  {
    step.subPlan.Some? ==> HasProperTitle(step.subPlan.value) && PlanSurvives(step.subPlan.value)
  }

  /** No sub-plan, at any depth, has only titles that read as properties. */
  predicate PlanSurvives(plan: Plan)
    decreases plan
  {
    forall i, j :: 0 <= i < |plan.phases| && 0 <= j < |plan.phases[i].steps| ==> Survives(plan.phases[i].steps[j])
  }

  // ---- Printed lines ----

  /** Single non-blank lines, none indented less than `k`. */
  predicate Clean(ls: seq<string>, k: nat) {
    forall i :: 0 <= i < |ls| ==> OneLine(ls[i]) && !IsEmptyLine(ls[i]) && MeasureIndent(ls[i]) >= k
  }

  /** What follows a printed step: nothing, or a line that ends its children. */
  predicate Follows(post: seq<string>, k: nat) {
    post == [] || (!IsEmptyLine(post[0]) && MeasureIndent(post[0]) <= k)
  }

  lemma CleanConcat(a: seq<string>, b: seq<string>, k: nat)
    requires Clean(a, k) && Clean(b, k)
    ensures Clean(a + b, k)
  {
    hide IsEmptyLine, MeasureIndent, OneLine;
  }

  lemma CleanDeeper(a: seq<string>, k: nat, m: nat)
    requires Clean(a, m) && k <= m
    ensures Clean(a, k)
  {
    hide IsEmptyLine, MeasureIndent, OneLine;
  }

  lemma {:induction false} SpacesOneLine(n: nat)
    ensures OneLine(Spaces(n))
  {
    if n > 0 {
      SpacesOneLine(n - 1);
    }
  }

  lemma LineIsClean(indent: nat, ordered: bool, text: string)
    requires text != "" && !IsGap(text[0]) && OneLine(text)
    ensures Clean([ItemLine(indent, ordered, text)], indent)
  {
    hide IsEmptyLine, MeasureIndent;
    ReadLine(indent, ordered, text);
    SpacesOneLine(indent);
  }

  lemma FourLines(texts: seq<string>, indent: nat)
    requires |texts| == 4
    ensures PropertyLines(texts, indent)
         == [ItemLine(indent, false, texts[0]), ItemLine(indent, false, texts[1]),
             ItemLine(indent, false, texts[2]), ItemLine(indent, false, texts[3])]
  {
    hide ItemLine, PropertyLines;
    var one, two, three := texts[..1], texts[..2], texts[..3];
    assert Init(texts) == three && Init(three) == two && Init(two) == one && Init(one) == [];
    NoLines(indent);
    OneMoreLine(one, indent);
    OneMoreLine(two, indent);
    OneMoreLine(three, indent);
    OneMoreLine(texts, indent);
  }

  lemma NoLines(indent: nat)
    ensures PropertyLines([], indent) == []
  {
  }

  lemma OneMoreLine(texts: seq<string>, indent: nat)
    requires texts != []
    ensures PropertyLines(texts, indent) == PropertyLines(Init(texts), indent) + [ItemLine(indent, false, Last(texts))]
  {
  }

  lemma PropertyTextsShape(step: Step, i: nat)
    requires PrintableNames(step) && i < 4
    ensures var text := PropertyTexts(step)[i]; text != "" && !IsGap(text[0]) && OneLine(text)
  {
  }

  lemma PropertiesClean(step: Step, indent: nat)
    requires PrintableNames(step)
    ensures Clean(PropertyLines(PropertyTexts(step), indent), indent)
  {
    hide IsEmptyLine, MeasureIndent, ItemLine, OneLine, PrintableNames;
    var texts := PropertyTexts(step);
    assert |texts| == 4;
    hide PropertyTexts;
    FourLines(texts, indent);
    forall i: nat | i < 4 ensures Clean([ItemLine(indent, false, texts[i])], indent) {
      PropertyTextsShape(step, i);
      LineIsClean(indent, false, texts[i]);
    }
    var a, b, c, d := [ItemLine(indent, false, texts[0])], [ItemLine(indent, false, texts[1])],
                      [ItemLine(indent, false, texts[2])], [ItemLine(indent, false, texts[3])];
    assert PropertyLines(texts, indent) == a + b + c + d;
    CleanConcat(a, b, indent);
    CleanConcat(a + b, c, indent);
    CleanConcat(a + b + c, d, indent);
  }

  lemma {:induction false} StepIsClean(step: Step, ordered: bool, base: nat, w: nat)
    requires PrintableStep(step)
    ensures Clean(PrintStep(step, ordered, base, w), base) && Clean(Children(step, base + w, w), base + w)
    decreases step
  {
    hide Clean, TitleText, PrintableNames, PrintableTitle;
    TitleStarts(step);
    LineIsClean(base, ordered, TitleText(step));
    match step.subPlan {
      case None => PropertiesClean(step, base + w);
      case Some(sub) => PhasesAreClean(sub, 0, base + w, w);
    }
    CleanDeeper(Children(step, base + w, w), base, base + w);
    CleanConcat([ItemLine(base, ordered, TitleText(step))], Children(step, base + w, w), base);
  }

  lemma {:induction false} StepsAreClean(phase: Phase, k: nat, base: nat, w: nat)
    requires k <= |phase.steps| && forall j :: 0 <= j < |phase.steps| ==> PrintableStep(phase.steps[j])
    ensures Clean(PrintSteps(phase, k, base, w), base)
    decreases phase, |phase.steps| - k
  {
    if k < |phase.steps| {
      hide Clean, PrintableStep;
      StepIsClean(phase.steps[k], !phase.parallel, base, w);
      StepsAreClean(phase, k + 1, base, w);
      CleanConcat(PrintStep(phase.steps[k], !phase.parallel, base, w), PrintSteps(phase, k + 1, base, w), base);
    }
  }

  lemma {:induction false} PhasesAreClean(plan: Plan, k: nat, base: nat, w: nat)
    requires k <= |plan.phases| && Printable(plan)
    ensures Clean(PrintPhases(plan, k, base, w), base)
    decreases plan, |plan.phases| - k
  {
    if k < |plan.phases| {
      hide Clean, PrintableStep;
      StepsAreClean(plan.phases[k], 0, base, w);
      PhasesAreClean(plan, k + 1, base, w);
      CleanConcat(PrintSteps(plan.phases[k], 0, base, w), PrintPhases(plan, k + 1, base, w), base);
    }
  }

  lemma {:induction false} BelowClean(a: seq<string>, post: seq<string>, k: nat)
    requires Clean(a, k + 1) && Follows(post, k)
    ensures Below(a + post, k + 1) == |a|
  {
    hide IsEmptyLine, MeasureIndent, OneLine;
    if a == [] {
      assert a + post == post;
    } else {
      assert forall i :: 0 <= i < |a[1..]| ==> a[1..][i] == a[i + 1];
      BelowClean(a[1..], post, k);
      assert (a + post)[1..] == a[1..] + post;
    }
  }

  /** Printed steps begin with a title at their own indentation. */
  lemma StepStarts(step: Step, ordered: bool, base: nat, w: nat)
    requires PrintableStep(step)
    ensures var ls := PrintStep(step, ordered, base, w);
      && ls != [] && ItemAt(ls[0], base) && ItemOf(ls[0]) == Item(ordered, TitleText(step))
      && ls[1..] == Children(step, base + w, w)
  {
    hide TitleText, PrintableNames, PrintableTitle, IsEmptyLine, MeasureIndent, ItemOf, Children, ItemLine;
    TitleStarts(step);
    ReadLine(base, ordered, TitleText(step));
  }

  // ---- Children that are properties ----

  lemma {:induction false} WithPropertiesKeeps(ls: seq<string>, indent: nat, step: Step)
    ensures WithProperties(ls, indent, step).subPlan == step.subPlan
  {
    hide IsEmptyLine, MeasureIndent, ItemOf;
    if ls != [] {
      WithPropertiesKeeps(Init(ls), indent, step);
      PropertyKeeps(ItemOf(Last(ls)).text, WithProperties(Init(ls), indent, step));
    }
  }

  lemma PropertyKeeps(text: string, step: Step)
    ensures ParseProperty(text, step).subPlan == step.subPlan
  {
  }

  lemma OneMoreProperty(ls: seq<string>, indent: nat, text: string, step: Step)
    requires text != "" && !IsGap(text[0])
    ensures WithProperties(ls + [ItemLine(indent, false, text)], indent, step)
         == ParseProperty(text, WithProperties(ls, indent, step))
  {
    hide IsEmptyLine, MeasureIndent, ItemOf, ParseProperty, ItemLine;
    ReadLine(indent, false, text);
    assert Init(ls + [ItemLine(indent, false, text)]) == ls;
  }

  lemma ReadTexts(step: Step, start: Step)
    requires PrintableNames(step) && step.subPlan.None? && start.subPlan.None? && start.agentType == step.agentType
    ensures var texts := PropertyTexts(step);
      ParseProperty(texts[3], ParseProperty(texts[2], ParseProperty(texts[1], ParseProperty(texts[0], start)))) == step
    ensures forall i :: 0 <= i < 4 ==> IsPropertyLine(PropertyTexts(step)[i])
  {
    hide ParseProperty, IsPropertyLine;
    var a := start.(description := step.description);
    var b := a.(prompt := step.prompt);
    var c := b.(outputVar := step.outputVar);
    ReadDescription(start, step.description);
    ReadPrompt(a, step.prompt);
    ReadOutput(b, step.outputVar);
    ReadConfirm(c, step.confirm);
  }

  /** The printed properties of a step are recognised as such and give the step back. */
  lemma ReadProperties(step: Step, indent: nat, start: Step)
    requires PrintableNames(step) && step.subPlan.None? && start.subPlan.None? && start.agentType == step.agentType
    ensures var ls := PropertyLines(PropertyTexts(step), indent);
      ChildListIndent(ls) == Some(indent) && AllProperties(ls, indent) && WithProperties(ls, indent, start) == step
  {
    hide IsEmptyLine, MeasureIndent, ItemOf, ParseProperty, IsPropertyLine, ItemLine, PrintableNames;
    var t := PropertyTexts(step);
    ReadTexts(step, start);
    forall i: nat | i < 4 ensures t[i] != "" && !IsGap(t[i][0]) {
      PropertyTextsShape(step, i);
    }
    hide PropertyTexts;
    FourLines(t, indent);
    forall i: nat | i < 4 ensures ItemAt(ItemLine(indent, false, t[i]), indent)
                                  && ItemOf(ItemLine(indent, false, t[i])).text == t[i] {
      ReadLine(indent, false, t[i]);
    }
    var l0, l1, l2, l3 := ItemLine(indent, false, t[0]), ItemLine(indent, false, t[1]),
                          ItemLine(indent, false, t[2]), ItemLine(indent, false, t[3]);
    OneMoreProperty([], indent, t[0], start);
    OneMoreProperty([l0], indent, t[1], start);
    OneMoreProperty([l0, l1], indent, t[2], start);
    OneMoreProperty([l0, l1, l2], indent, t[3], start);
    assert [] + [l0] == [l0] && [l0] + [l1] == [l0, l1] && [l0, l1] + [l2] == [l0, l1, l2];
    assert [l0, l1, l2] + [l3] == PropertyLines(t, indent);
  }

  // ---- Children that are a sub-plan ----

  lemma AllPropertiesConcat(a: seq<string>, b: seq<string>, indent: nat)
    ensures AllProperties(a + b, indent) <==> AllProperties(a, indent) && AllProperties(b, indent)
  {
    hide ItemAt, ItemOf, IsPropertyLine;
    assert forall i :: 0 <= i < |a| ==> a[i] == (a + b)[i];
    assert forall i :: 0 <= i < |b| ==> b[i] == (a + b)[|a| + i];
  }

  lemma DeeperAreNoItems(ls: seq<string>, indent: nat)
    requires Clean(ls, indent + 1)
    ensures AllProperties(ls, indent)
  {
    hide ItemOf, IsPropertyLine, IsEmptyLine, MeasureIndent, OneLine;
  }

  lemma StepLooksLikeProperty(step: Step, ordered: bool, base: nat, w: nat)
    requires PrintableStep(step) && w > 0
    ensures AllProperties(PrintStep(step, ordered, base, w), base) <==> IsPropertyLine(TitleText(step))
  {
    hide PrintableStep, Clean, TitleText, IsPropertyLine, ItemOf, ItemAt, Children;
    StepIsClean(step, ordered, base, w);
    StepStarts(step, ordered, base, w);
    var ls := PrintStep(step, ordered, base, w);
    CleanDeeper(Children(step, base + w, w), base + 1, base + w);
    DeeperAreNoItems(Children(step, base + w, w), base);
    assert ls == [ls[0]] + ls[1..];
    AllPropertiesConcat([ls[0]], ls[1..], base);
  }

  lemma {:induction false} StepsLookLikeProperties(phase: Phase, k: nat, base: nat, w: nat)
    requires w > 0 && k <= |phase.steps| && forall j :: 0 <= j < |phase.steps| ==> PrintableStep(phase.steps[j])
    ensures AllProperties(PrintSteps(phase, k, base, w), base)
       <==> forall j :: k <= j < |phase.steps| ==> IsPropertyLine(TitleText(phase.steps[j]))
    decreases |phase.steps| - k
  {
    hide PrintableStep, TitleText, IsPropertyLine, PrintStep;
    if k < |phase.steps| {
      StepsLookLikeProperties(phase, k + 1, base, w);
      StepLooksLikeProperty(phase.steps[k], !phase.parallel, base, w);
      AllPropertiesConcat(PrintStep(phase.steps[k], !phase.parallel, base, w), PrintSteps(phase, k + 1, base, w), base);
      hide AllProperties;
    }
  }

  lemma {:induction false} PlanLooksLikeProperties(plan: Plan, k: nat, base: nat, w: nat)
    requires w > 0 && k <= |plan.phases| && Printable(plan)
    ensures AllProperties(PrintPhases(plan, k, base, w), base)
       <==> forall i, j :: k <= i < |plan.phases| && 0 <= j < |plan.phases[i].steps| ==>
              IsPropertyLine(TitleText(plan.phases[i].steps[j]))
    decreases |plan.phases| - k
  {
    hide PrintableStep, TitleText, IsPropertyLine, PrintSteps;
    if k < |plan.phases| {
      PlanLooksLikeProperties(plan, k + 1, base, w);
      StepsLookLikeProperties(plan.phases[k], 0, base, w);
      AllPropertiesConcat(PrintSteps(plan.phases[k], 0, base, w), PrintPhases(plan, k + 1, base, w), base);
      hide AllProperties;
    }
  }

  lemma PlanPropertiesIff(sub: Plan, base: nat, w: nat)
    requires w > 0 && Printable(sub)
    ensures AllProperties(PrintPhases(sub, 0, base, w), base) <==> !HasProperTitle(sub)
  {
    hide PrintableStep, TitleText, IsPropertyLine, PrintPhases, AllProperties;
    PlanLooksLikeProperties(sub, 0, base, w);
  }

  // ---- Steps, phases and plans ----

  lemma PrintableParts(step: Step)
    requires PrintableStep(step)
    ensures PrintableNames(step) && (step.subPlan.Some? ==> PrintableTitle(step) && Printable(step.subPlan.value))
  {
  }

  /** Parsing a printed step followed by other text looks at exactly the step's own children. */
  lemma ParseUnfold(step: Step, ordered: bool, base: nat, w: nat, post: seq<string>)
    requires w > 0 && PrintableStep(step) && Follows(post, base)
    ensures var ls := PrintStep(step, ordered, base, w) + post;
      var kids := Children(step, base + w, w);
      && ls != [] && ItemAt(ls[0], base) && ItemOf(ls[0]) == Item(ordered, TitleText(step))
      && ls[1..] == kids + post && Below(ls[1..], base + 1) == |kids| && ls[1..][..|kids|] == kids
      && ls[1 + |kids|..] == post
  {
    hide PrintableStep, Children, PrintStep, IsEmptyLine, MeasureIndent, ItemOf, Clean, Below, Follows;
    var ls, kids := PrintStep(step, ordered, base, w), Children(step, base + w, w);
    StepStarts(step, ordered, base, w);
    StepIsClean(step, ordered, base, w);
    CleanDeeper(kids, base + 1, base + w);
    BelowClean(kids, post, base);
    assert (ls + post)[1..] == kids + post;
    assert (ls + post)[1 + |kids|..] == (kids + post)[|kids|..] == post;
  }

  /** The step with its children read: properties, or a sub-plan, or nothing. */
  function WithChildren(start: Step, kids: seq<string>, post: seq<string>): Step {
    match ChildListIndent(kids)
    case None => start
    case Some(indent) =>
      if AllProperties(kids, indent) then WithProperties(kids, indent, start)
      else
        var sub := ParseNodes(kids + post, indent);
        if sub == [] then start else start.(subPlan := Some(Plan(Group(sub))))
  }

  lemma ParseStepUnfold(step: Step, ordered: bool, base: nat, w: nat, post: seq<string>)
    requires w > 0 && PrintableStep(step) && Follows(post, base)
    ensures var ls := PrintStep(step, ordered, base, w) + post;
      var kids := Children(step, base + w, w);
      ls != [] && ParseStep(ls, base) == WithChildren(NewStep(ParseStepTitle(TitleText(step))), kids, post)
  {
    hide PrintableStep, Children, PrintStep, ItemOf, Below, Follows, ParseNodes, Group, WithProperties,
      AllProperties, ChildListIndent, ParseStepTitle, TitleText, ItemAt;
    ParseUnfold(step, ordered, base, w, post);
  }

  lemma PropertyStepParses(step: Step, ordered: bool, base: nat, w: nat, post: seq<string>)
    requires w > 0 && PrintableStep(step) && Follows(post, base) && step.subPlan.None?
    ensures var ls := PrintStep(step, ordered, base, w) + post; ls != [] && ParseStep(ls, base) == step
  {
    hide PrintStep, Follows, ParseNodes, ParseStep, Group, WithProperties, AllProperties, ChildListIndent,
         ParseStepTitle,
      TitleText, PropertyLines, PropertyTexts, PrintableNames, PrintableTitle;
    ReadTitle(step);
    ParseStepUnfold(step, ordered, base, w, post);
    ReadProperties(step, base + w, NewStep(ParseStepTitle(TitleText(step))));
  }

  lemma FirstIsListIndent(ls: seq<string>, indent: nat)
    requires ls != [] && ItemAt(ls[0], indent)
    ensures ChildListIndent(ls) == Some(indent)
  {
  }

  lemma PhasesStart(plan: Plan, base: nat, w: nat)
    requires Printable(plan)
    ensures var ls := PrintPhases(plan, 0, base, w); ls != [] && ItemAt(ls[0], base)
  {
    hide PrintableStep, PrintStep, ItemAt;
    StepStarts(plan.phases[0].steps[0], !plan.phases[0].parallel, base, w);
  }

  lemma FollowsDeeper(post: seq<string>, k: nat, m: nat)
    requires Follows(post, k) && k < m
    ensures Follows(post, m) && ParseNodes(post, m) == []
  {
    hide IsEmptyLine, MeasureIndent;
    StopAt(post, m);
  }

  lemma SurvivesUnfold(step: Step)
    ensures Survives(step) <==>
      (step.subPlan.Some? ==> HasProperTitle(step.subPlan.value) && PlanSurvives(step.subPlan.value))
  {
  }

  /** A printed step is read as itself exactly if it survives. */
  lemma {:induction false} StepParses(step: Step, ordered: bool, base: nat, w: nat, post: seq<string>) returns (r: Step)
    requires w > 0 && PrintableStep(step) && Follows(post, base)
    ensures var ls := PrintStep(step, ordered, base, w) + post; ls != [] && ParseStep(ls, base) == r
    ensures r == step <==> Survives(step)
    decreases step
  {
    hide PrintStep, Follows, ParseNodes, ParseStep, Group, WithProperties, AllProperties, ChildListIndent,
         ParseStepTitle, TitleText, PrintableStep, PrintableNames, PrintableTitle, Printable, Survives,
         PlanSurvives, HasProperTitle, PrintPhases;
    SurvivesUnfold(step);
    if step.subPlan.None? {
      PropertyStepParses(step, ordered, base, w, post);
      r := step;
    } else {
      var sub := step.subPlan.value;
      PrintableParts(step);
      ReadTitle(step);
      ParseStepUnfold(step, ordered, base, w, post);
      PhasesStart(sub, base + w, w);
      var kids := PrintPhases(sub, 0, base + w, w);
      FirstIsListIndent(kids, base + w);
      PlanPropertiesIff(sub, base + w, w);
      var start := NewStep(ParseStepTitle(TitleText(step)));
      if HasProperTitle(sub) {
        FollowsDeeper(post, base, base + w);
        var nodes := PhasesParse(sub, 0, base + w, w, post);
        assert nodes + [] == nodes;
        RegroupIff(sub, nodes);
        r := start.(subPlan := Some(Plan(Group(nodes))));
        TitleOnly(step, start);
      } else {
        WithPropertiesKeeps(kids, base + w, start);
        r := WithProperties(kids, base + w, start);
      }
    }
  }

  lemma TitleOnly(step: Step, start: Step)
    requires PrintableTitle(step) && start == NewStep(Title(step.agentType, step.description))
    ensures start.(subPlan := step.subPlan) == step
  {
  }

  /** Grouping gives the plan's phases back exactly when its nodes came back. */
  lemma RegroupIff(plan: Plan, nodes: seq<Node>)
    requires Printable(plan) && |nodes| == |Flatten(plan.phases)|
    ensures nodes != []
    ensures Plan(Group(nodes)) == plan <==> nodes == Flatten(plan.phases)
  {
    hide PrintableStep, Group, Flatten;
    GroupMeaning(nodes);
    GroupIsUnique(plan.phases);
    NonEmptyFlatten(plan);
  }

  lemma NonEmptyFlatten(plan: Plan)
    requires Printable(plan)
    ensures Flatten(plan.phases) != []
  {
    hide PrintableStep;
    var steps := plan.phases[0].steps;
    StepNodesFront(steps[0], steps[1..], !plan.phases[0].parallel);
    assert steps == [steps[0]] + steps[1..];
  }

  lemma StepsFollow(phase: Phase, k: nat, base: nat, w: nat, post: seq<string>)
    requires k <= |phase.steps| && forall j :: 0 <= j < |phase.steps| ==> PrintableStep(phase.steps[j])
    requires Follows(post, base)
    ensures Follows(PrintSteps(phase, k, base, w) + post, base)
  {
    hide PrintableStep, PrintStep, IsEmptyLine, MeasureIndent, ItemOf;
    if k == |phase.steps| {
      assert [] + post == post;
    } else {
      StepStarts(phase.steps[k], !phase.parallel, base, w);
    }
  }

  lemma {:induction false} PhasesFollow(plan: Plan, k: nat, base: nat, w: nat, post: seq<string>)
    requires k <= |plan.phases| && Printable(plan) && Follows(post, base)
    ensures Follows(PrintPhases(plan, k, base, w) + post, base)
    decreases |plan.phases| - k
  {
    hide PrintableStep, Follows, PrintSteps;
    if k == |plan.phases| {
      assert [] + post == post;
    } else {
      PhasesFollow(plan, k + 1, base, w, post);
      StepsFollow(plan.phases[k], 0, base, w, PrintPhases(plan, k + 1, base, w) + post);
      assert PrintSteps(plan.phases[k], 0, base, w) + (PrintPhases(plan, k + 1, base, w) + post)
          == PrintPhases(plan, k, base, w) + post;
    }
  }

  lemma {:induction false} StepsParse(phase: Phase, k: nat, base: nat, w: nat, post: seq<string>) returns (r: seq<Node>)
    requires w > 0 && k <= |phase.steps| && forall j :: 0 <= j < |phase.steps| ==> PrintableStep(phase.steps[j])
    requires Follows(post, base)
    ensures ParseNodes(PrintSteps(phase, k, base, w) + post, base) == r + ParseNodes(post, base)
    ensures |r| == |phase.steps| - k == |StepNodes(phase.steps[k..], !phase.parallel)|
    ensures r == StepNodes(phase.steps[k..], !phase.parallel) <==>
      forall j :: k <= j < |phase.steps| ==> Survives(phase.steps[j])
    decreases phase, |phase.steps| - k
  {
    hide PrintStep, Follows, ParseNodes, ParseStep, PrintableStep, Survives, StepNodes, Below, ItemOf, ItemAt, Children;
    if k == |phase.steps| {
      r := [];
      assert PrintSteps(phase, k, base, w) + post == post;
      StepNodesNone(!phase.parallel);
    } else {
      var step, ordered := phase.steps[k], !phase.parallel;
      var rest := PrintSteps(phase, k + 1, base, w) + post;
      StepsFollow(phase, k + 1, base, w, post);
      var first := StepParses(step, ordered, base, w, rest);
      var others := StepsParse(phase, k + 1, base, w, post);
      var ls := PrintStep(step, ordered, base, w) + rest;
      assert ls == PrintSteps(phase, k, base, w) + post;
      ParseUnfold(step, ordered, base, w, rest);
      TakeStep(ls, base);
      r := [Node(first, ordered)] + others;
      assert phase.steps[k..] == [step] + phase.steps[k + 1..];
      StepNodesFront(step, phase.steps[k + 1..], ordered);
      SplitFirst(Node(first, ordered), others, Node(step, ordered), StepNodes(phase.steps[k + 1..], ordered));
    }
  }

  lemma SplitFirst(a: Node, as_: seq<Node>, b: Node, bs: seq<Node>)
    ensures [a] + as_ == [b] + bs <==> a == b && as_ == bs
  {
    assert ([a] + as_)[0] == a && ([a] + as_)[1..] == as_;
    assert ([b] + bs)[0] == b && ([b] + bs)[1..] == bs;
  }

  lemma SplitAt(a: seq<Node>, as_: seq<Node>, b: seq<Node>, bs: seq<Node>)
    requires |a| == |b|
    ensures a + as_ == b + bs <==> a == b && as_ == bs
  {
    assert (a + as_)[..|a|] == a && (a + as_)[|a|..] == as_;
    assert (b + bs)[..|b|] == b && (b + bs)[|b|..] == bs;
  }

  lemma {:induction false} PhasesParse(plan: Plan, k: nat, base: nat, w: nat, post: seq<string>) returns (r: seq<Node>)
    requires w > 0 && k <= |plan.phases| && Printable(plan) && Follows(post, base)
    ensures ParseNodes(PrintPhases(plan, k, base, w) + post, base) == r + ParseNodes(post, base)
    ensures |r| == |Flatten(plan.phases[k..])|
    ensures r == Flatten(plan.phases[k..]) <==>
            forall i, j :: k <= i < |plan.phases| && 0 <= j < |plan.phases[i].steps| ==>
              Survives(plan.phases[i].steps[j])
    ensures k == 0 ==> (r == Flatten(plan.phases) <==> PlanSurvives(plan)) && |r| == |Flatten(plan.phases)|
    decreases plan, |plan.phases| - k
  {
    hide PrintSteps, Follows, ParseNodes, PrintableStep, Survives, StepNodes;
    if k == |plan.phases| {
      r := [];
      assert PrintPhases(plan, k, base, w) + post == post;
    } else {
      var phase := plan.phases[k];
      var rest := PrintPhases(plan, k + 1, base, w) + post;
      PhasesFollow(plan, k + 1, base, w, post);
      var first := StepsParse(phase, 0, base, w, rest);
      var others := PhasesParse(plan, k + 1, base, w, post);
      assert PrintSteps(phase, 0, base, w) + rest == PrintPhases(plan, k, base, w) + post;
      r := first + others;
      assert r + ParseNodes(post, base) == first + (others + ParseNodes(post, base));
      assert phase.steps[0..] == phase.steps && plan.phases[k..][1..] == plan.phases[k + 1..];
      SplitAt(first, others, StepNodes(phase.steps, !phase.parallel), Flatten(plan.phases[k + 1..]));
      assert plan.phases[0..] == plan.phases;
    }
  }

  lemma {:induction false} SplitJoin(ls: seq<string>)
    requires ls != [] && forall i :: 0 <= i < |ls| ==> OneLine(ls[i])
    ensures Split(JoinLines(ls)) == ls
    decreases |ls|
  {
    if |ls| == 1 {
      SplitLine(ls[0]);
    } else {
      SplitJoin(ls[1..]);
      SplitTwo(ls[0], JoinLines(ls[1..]));
      assert ls == [ls[0]] + ls[1..];
    }
  }

  lemma {:induction false} SplitLine(s: string)
    requires OneLine(s)
    ensures Split(s) == [s]
  {
    if s != "" {
      SplitLine(s[1..]);
      assert [s[0]] + s[1..] == s;
    }
  }

  lemma {:induction false} SplitTwo(a: string, b: string)
    requires OneLine(a)
    ensures Split(a + "\n" + b) == [a] + Split(b)
  {
    var s := a + "\n" + b;
    if a == "" {
      assert s[1..] == b;
    } else {
      assert s[1..] == a[1..] + "\n" + b;
      SplitTwo(a[1..], b);
      assert [a[0]] + a[1..] == a;
    }
  }

  /**
   The round trip: for every plan of any depth whose names are printable, whose phases are non-empty
   and alternate, and whose steps have either properties or a sub-plan, parsing the canonical printing
   gives the same plan back exactly if no sub-plan has only titles that read as properties.
   */
  lemma RoundTrip(plan: Plan, w: nat)
    requires w > 0 && Printable(plan)
    ensures ParsePlan(Print(plan, w)) == Ok(plan) <==> PlanSurvives(plan)
  {
    hide ParseNodes, PrintPhases, Printable, PlanSurvives, Group, Flatten, Split, JoinLines, IsEmptyLine,
         MeasureIndent, OneLine;
    var ls := PrintPhases(plan, 0, 0, w);
    PhasesAreClean(plan, 0, 0, w);
    PhasesStart(plan, 0, w);
    SplitJoin(ls);
    var nodes := PhasesParse(plan, 0, 0, w, []);
    assert ls + [] == ls && nodes + [] == nodes;
    StopAt([], 0);
    RegroupIff(plan, nodes);
  }
}
