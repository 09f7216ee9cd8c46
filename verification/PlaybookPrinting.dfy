/** A canonical printing of plans, and what the parser makes of each printed line. */
module PlaybookPrinting {
  import opened Messages
  import opened Plans
  import opened Text
  import opened PlaybookLines

  // ---- Printing ----

  function Spaces(n: nat): string {
    if n == 0 then "" else " " + Spaces(n - 1)
  }

  function ItemLine(indent: nat, ordered: bool, text: string): string {
    Spaces(indent) + ((if ordered then "1. " else "- ") + text)
  }

  function Padded(s: string): string {
    if s == "" then "" else " " + s
  }

  /** A step with a sub-plan carries its description in the title; any other step in a property. */
  function TitleText(step: Step): string {
    if step.subPlan.None? then (if step.agentType == "" then "step" else step.agentType + ":")
    else if step.agentType == "" then step.description
    else step.agentType + (":" + Padded(step.description))
  }

  function PropertyTexts(step: Step): seq<string> {
    ["description:" + Padded(step.description),
     "prompt: \"" + step.prompt + "\"",
     "output:" + Padded(step.outputVar),
     "confirm: " + (if step.confirm then "true" else "false")]
  }

  function PropertyLines(texts: seq<string>, indent: nat): seq<string> {
    if texts == [] then [] else PropertyLines(Init(texts), indent) + [ItemLine(indent, false, Last(texts))]
  }

  /** Children are indented by `w` more than their step. */
  function PrintStep(step: Step, ordered: bool, base: nat, w: nat): seq<string>
    decreases step, 1
  {
    [ItemLine(base, ordered, TitleText(step))] + Children(step, base + w, w)
  }

  function Children(step: Step, indent: nat, w: nat): seq<string>
    decreases step, 0
  {
    match step.subPlan
    case None => PropertyLines(PropertyTexts(step), indent)
    case Some(sub) => PrintPhases(sub, 0, indent, w)
  }

  function PrintSteps(phase: Phase, k: nat, base: nat, w: nat): seq<string>
    requires k <= |phase.steps|
    decreases phase, |phase.steps| - k
  {
    if k == |phase.steps| then []
    else PrintStep(phase.steps[k], !phase.parallel, base, w) + PrintSteps(phase, k + 1, base, w)
  }

  function PrintPhases(plan: Plan, k: nat, base: nat, w: nat): seq<string>
    requires k <= |plan.phases|
    decreases plan, |plan.phases| - k
  {
    if k == |plan.phases| then []
    else PrintSteps(plan.phases[k], 0, base, w) + PrintPhases(plan, k + 1, base, w)
  }

  function JoinLines(ls: seq<string>): string {
    if ls == [] then "" else if |ls| == 1 then ls[0] else ls[0] + "\n" + JoinLines(ls[1..])
  }

  function Print(plan: Plan, w: nat): string {
    JoinLines(PrintPhases(plan, 0, 0, w))
  }

  // ---- Which plans can be written down ----

  predicate OneLine(s: string) {
    '\n' !in s
  }

  /** Names and descriptions are single trimmed lines, and a name has no colon; prompts are any single line. */
  predicate PrintableNames(step: Step) {
    && OneLine(step.agentType) && Trimmed(step.agentType) && ':' !in step.agentType
    && OneLine(step.description) && Trimmed(step.description)
    && OneLine(step.outputVar) && Trimmed(step.outputVar)
    && OneLine(step.prompt)
  }

  /** A step with a sub-plan has no properties, and its title can be read back. */
  predicate PrintableTitle(step: Step) {
    && step.prompt == "" && step.outputVar == "" && !step.confirm
    && FindTag(TitleText(step)).None?
    && (step.agentType == "" ==>
          step.description != "" && (step.description[0] == ':' || ':' !in step.description))
  }

  predicate PrintableStep(step: Step)
    decreases step
  {
    PrintableNames(step) && (step.subPlan.Some? ==> PrintableTitle(step) && Printable(step.subPlan.value))
  }

  /** Phases are non-empty and alternate, at every depth. */
  predicate Printable(plan: Plan)
    decreases plan
  {
    && plan.phases != []
    && (forall i :: 0 <= i < |plan.phases| ==> plan.phases[i].steps != [])
    && (forall i :: 0 < i < |plan.phases| ==> plan.phases[i - 1].parallel != plan.phases[i].parallel)
    && forall i, j :: 0 <= i < |plan.phases| && 0 <= j < |plan.phases[i].steps| ==>
         PrintableStep(plan.phases[i].steps[j])
  }

  // ---- Reading a line back ----

  lemma {:induction false} TrimSpaces(n: nat, r: string)
    requires r != "" && !IsBlank(r[0])
    ensures TrimBlanks(Spaces(n) + r) == r && |Spaces(n)| == n
  {
    if n == 0 {
      assert Spaces(0) + r == r;
    } else {
      TrimSpaces(n - 1, r);
      assert (Spaces(n) + r)[1..] == Spaces(n - 1) + r;
    }
  }

  lemma {:induction false} NotEmpty(s: string, i: nat)
    requires i < |s| && !IsBlank(s[i])
    ensures !IsEmptyLine(s)
    decreases |s|
  {
    if IsBlank(s[|s| - 1]) {
      NotEmpty(s[..|s| - 1], i);
    }
  }

  lemma ReadMarker(ordered: bool, text: string)
    requires text != "" && !IsGap(text[0])
    ensures MatchListItem((if ordered then "1. " else "- ") + text) == Item(ordered, text)
  {
    var s := (if ordered then "1. " else "- ") + text;
    if ordered {
      assert s[1..] == ". " + text;
      assert DropDigits(s) == DropDigits(s[1..]) == ". " + text;
      assert (". " + text)[1..] == " " + text;
    } else {
      assert DropDigits(s) == s;
      assert s[1..] == " " + text;
    }
    assert (" " + text)[1..] == text;
    assert DropGap(" " + text) == DropGap(text) == text;
  }

  lemma ReadLine(indent: nat, ordered: bool, text: string)
    requires text != "" && !IsGap(text[0])
    ensures var line := ItemLine(indent, ordered, text);
      !IsEmptyLine(line) && MeasureIndent(line) == indent && ItemOf(line) == Item(ordered, text)
  {
    hide MatchListItem, IsEmptyLine;
    var r := (if ordered then "1. " else "- ") + text;
    TrimSpaces(indent, r);
    ReadMarker(ordered, text);
    assert (Spaces(indent) + r)[indent] == r[0];
    NotEmpty(Spaces(indent) + r, indent);
  }

  // ---- Reading a title back ----

  lemma TrimPadded(s: string)
    requires Trimmed(s)
    ensures TrimSpace(Padded(s)) == s
  {
    if s != "" {
      assert (" " + s)[1..] == s;
      assert TrimLeft(" " + s) == TrimLeft(s);
    }
    TrimKeepsTrimmed(s);
  }

  lemma ColonAfter(a: string, r: string)
    requires ':' !in a
    ensures ColonAt(a + (":" + r)) == |a|
  {
    var s := a + (":" + r);
    var n := ColonAt(s);
    assert s[|a|] == ':';
    assert forall i :: 0 <= i < |a| ==> s[i] == a[i];
  }

  lemma {:induction false} NoTagBeforeLastColon(s: string)
    requires s != "" && forall i :: 0 <= i < |s| - 1 ==> s[i] != ':'
    ensures FindTag(s).None?
  {
    assert TAG_OPEN[6] == ':';
    assert TAG_OPEN <= s ==> s[6] == ':';
    if |s| > 1 {
      NoTagBeforeLastColon(s[1..]);
    }
  }

  /** Titles are read back as agent and description. */
  lemma ReadTitle(step: Step)
    requires PrintableNames(step) && (step.subPlan.Some? ==> PrintableTitle(step))
    ensures var t := ParseStepTitle(TitleText(step));
      && t.agentType == step.agentType
      && (step.subPlan.Some? ==> t.description == step.description)
  {
    hide TrimSpace, FindTag, ColonAt, Padded;
    var text := TitleText(step);
    var tail := if step.subPlan.None? then "" else Padded(step.description);
    PaddedEnd(step.description);
    TrimKeepsTrimmed(text);
    TrimKeepsTrimmed(step.agentType);
    if step.agentType == "" {
      if step.subPlan.None? {
        NoTagBeforeLastColon("step");
      }
    } else {
      if step.subPlan.None? {
        NoTagBeforeLastColon(text);
      }
      assert ":" + "" == ":";
      assert text == step.agentType + (":" + tail);
      ColonAfter(step.agentType, tail);
      assert text[..|step.agentType|] == step.agentType && text[|step.agentType| + 1..] == tail;
      TrimPadded(step.description);
    }
  }

  lemma PaddedEnd(s: string)
    requires Trimmed(s)
    ensures Padded(s) == "" || !IsSpace(Padded(s)[|Padded(s)| - 1])
    ensures OneLine(s) ==> OneLine(Padded(s))
  {
  }

  lemma {:induction false} NameRunOf(name: string, rest: string)
    requires forall i :: 0 <= i < |name| ==> IsNameChar(name[i])
    requires rest != "" && !IsNameChar(rest[0])
    ensures NameRun(name + rest) == |name|
  {
    if name == "" {
      assert name + rest == rest;
    } else {
      assert (name + rest)[1..] == name[1..] + rest;
      NameRunOf(name[1..], rest);
    }
  }

  lemma {:induction false} NothingToRemove(s: string)
    requires FindTag(s).None?
    ensures RemoveTags(s) == s
  {
    if s != "" {
      NothingToRemove(s[1..]);
    }
  }

  lemma MatchWritten(name: string, rest: string)
    requires name != "" && forall i :: 0 <= i < |name| ==> IsNameChar(name[i])
    ensures MatchTag("(agent: " + name + ")" + rest) == Some(Tag(name, |name| + 9))
  {
    hide NameRun;
    var s := "(agent: " + name + ")" + rest;
    var r := name + (")" + rest);
    assert s[7..] == " " + r;
    assert (" " + r)[1..] == r;
    assert DropGap(" " + r) == DropGap(r) == r;
    NameRunOf(name, ")" + rest);
    assert r[..|name|] == name && r[|name|] == ')';
  }

  /** The tagged form of a title: the tag names the agent, and the rest, colons and all, is the description. */
  lemma ReadTagged(name: string, description: string)
    requires name != "" && forall i :: 0 <= i < |name| ==> IsNameChar(name[i])
    requires Trimmed(description) && FindTag(description).None?
    ensures ParseStepTitle("(agent: " + name + ")" + Padded(description)) == Title(name, description)
  {
    hide TrimSpace, MatchTag, Padded;
    var rest := Padded(description);
    var s := "(agent: " + name + ")" + rest;
    PaddedEnd(description);
    TrimKeepsTrimmed(s);
    MatchWritten(name, rest);
    assert s[|name| + 9..] == rest;
    PaddedHasNoTag(description);
    NothingToRemove(rest);
    TrimPadded(description);
  }

  lemma PaddedHasNoTag(s: string)
    requires FindTag(s).None?
    ensures FindTag(Padded(s)).None?
  {
    if s != "" {
      assert (" " + s)[1..] == s;
      assert TAG_OPEN[0] != ' ';
    }
  }

  lemma TitleStarts(step: Step)
    requires PrintableNames(step) && (step.subPlan.Some? ==> PrintableTitle(step))
    ensures TitleText(step) != "" && !IsGap(TitleText(step)[0]) && OneLine(TitleText(step))
  {
    hide FindTag;
  }

  // ---- Reading properties back ----

  lemma LowerPrefix(key: string, rest: string)
    requires forall i :: 0 <= i < |key| ==> Lower(key[i]) == key[i]
    ensures key <= ToLower(key + rest) && (key + rest)[|key|..] == rest
  {
  }

  lemma ReadDescription(step: Step, d: string)
    requires Trimmed(d)
    ensures ParseProperty("description:" + Padded(d), step) == step.(description := d)
    ensures IsPropertyLine("description:" + Padded(d))
  {
    hide TrimSpace, Padded;
    PaddedEnd(d);
    TrimKeepsTrimmed("description:" + Padded(d));
    LowerPrefix("description:", Padded(d));
    TrimPadded(d);
  }

  lemma ReadOutput(step: Step, v: string)
    requires Trimmed(v)
    ensures ParseProperty("output:" + Padded(v), step) == step.(outputVar := v)
    ensures IsPropertyLine("output:" + Padded(v))
  {
    hide TrimSpace, Padded;
    PaddedEnd(v);
    TrimKeepsTrimmed("output:" + Padded(v));
    LowerPrefix("output:", Padded(v));
    TrimPadded(v);
  }

  /** Quoting lets any prompt through, whatever blanks or quotes it begins and ends with. */
  lemma ReadPrompt(step: Step, p: string)
    ensures ParseProperty("prompt: \"" + p + "\"", step) == step.(prompt := p)
    ensures IsPropertyLine("prompt: \"" + p + "\"")
  {
    hide TrimSpace;
    var quoted := "\"" + p + "\"";
    var text := "prompt: \"" + p + "\"";
    assert text == "prompt:" + Padded(quoted);
    TrimKeepsTrimmed(text);
    LowerPrefix("prompt:", Padded(quoted));
    TrimPadded(quoted);
    assert quoted[1..|quoted| - 1] == p;
  }

  lemma ReadConfirm(step: Step, c: bool)
    ensures var text := "confirm: " + (if c then "true" else "false");
      ParseProperty(text, step) == step.(confirm := c) && IsPropertyLine(text)
  {
    hide TrimSpace;
    var val := if c then "true" else "false";
    var text := "confirm: " + val;
    assert text == "confirm:" + Padded(val);
    TrimKeepsTrimmed(text);
    LowerPrefix("confirm:", Padded(val));
    TrimPadded(val);
  }
}
