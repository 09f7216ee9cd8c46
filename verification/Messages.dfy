/** Conversation messages: roles, content blocks and the read-only folds over them. */
module Messages {

  datatype Option<+T> = None | Some(value: T)

  datatype Role = User | Assistant | System

  /** A tool input. A nil map is `NilInput`; any other map is identified by its canonical JSON text. */
  datatype ToolInput = NilInput | Object(json: string)

  datatype Block =
    | Text(text: string)
    | ToolUse(id: string, name: string, input: ToolInput)
    | ToolResult(toolUseId: string, content: string, isError: bool)
    | Thinking(thinking: string, signature: string)
    | RedactedThinking(data: string)

  datatype Usage = Usage(inputTokens: int, outputTokens: int, cacheCreation: int, cacheRead: int) {
    function Plus(u: Usage): Usage {
      Usage(inputTokens + u.inputTokens, outputTokens + u.outputTokens,
            cacheCreation + u.cacheCreation, cacheRead + u.cacheRead)
    }

    function Total(): int {
      inputTokens + cacheCreation + cacheRead + outputTokens
    }
  }

  const ZERO_USAGE := Usage(0, 0, 0, 0)

  /** The running total kept by accumulateUsage: absent until the first delta arrives. */
  function Accumulate(total: Option<Usage>, delta: Option<Usage>): Option<Usage> {
    if delta.None? then total
    else if total.None? then Some(ZERO_USAGE.Plus(delta.value))
    else Some(total.value.Plus(delta.value))
  }

  /** The component-wise sum of a list of reports. */
  function SumUsages(us: seq<Usage>): Usage {
    if us == [] then ZERO_USAGE else SumUsages(us[..|us| - 1]).Plus(us[|us| - 1])
  }

  function Sum(xs: seq<int>): int {
    if xs == [] then 0 else Sum(xs[..|xs| - 1]) + xs[|xs| - 1]
  }

  /** Field by field, the sum of a list of reports is the sum of that field. */
  lemma {:induction false} SumIsPerField(us: seq<Usage>)
    ensures SumUsages(us).inputTokens == Sum(seq(|us|, i requires 0 <= i < |us| => us[i].inputTokens))
    ensures SumUsages(us).outputTokens == Sum(seq(|us|, i requires 0 <= i < |us| => us[i].outputTokens))
    ensures SumUsages(us).cacheCreation == Sum(seq(|us|, i requires 0 <= i < |us| => us[i].cacheCreation))
    ensures SumUsages(us).cacheRead == Sum(seq(|us|, i requires 0 <= i < |us| => us[i].cacheRead))
  {
    if us != [] {
      var init, u := us[..|us| - 1], us[|us| - 1];
      SumIsPerField(init);
      SumAppend(seq(|init|, i requires 0 <= i < |init| => init[i].inputTokens), u.inputTokens);
      SumAppend(seq(|init|, i requires 0 <= i < |init| => init[i].outputTokens), u.outputTokens);
      SumAppend(seq(|init|, i requires 0 <= i < |init| => init[i].cacheCreation), u.cacheCreation);
      SumAppend(seq(|init|, i requires 0 <= i < |init| => init[i].cacheRead), u.cacheRead);
      assert seq(|us|, i requires 0 <= i < |us| => us[i].inputTokens)
          == seq(|init|, i requires 0 <= i < |init| => init[i].inputTokens) + [u.inputTokens];
      assert seq(|us|, i requires 0 <= i < |us| => us[i].outputTokens)
          == seq(|init|, i requires 0 <= i < |init| => init[i].outputTokens) + [u.outputTokens];
      assert seq(|us|, i requires 0 <= i < |us| => us[i].cacheCreation)
          == seq(|init|, i requires 0 <= i < |init| => init[i].cacheCreation) + [u.cacheCreation];
      assert seq(|us|, i requires 0 <= i < |us| => us[i].cacheRead)
          == seq(|init|, i requires 0 <= i < |init| => init[i].cacheRead) + [u.cacheRead];
    }
  }

  lemma SumAppend(xs: seq<int>, x: int)
    ensures Sum(xs + [x]) == Sum(xs) + x
  {
    assert (xs + [x])[..|xs|] == xs;
  }

  /** Timestamp 0 is Go's zero time. */
  datatype Message = Message(
    role: Role,
    content: seq<Block>,
    timestamp: int,
    usage: Option<Usage>,
    responseId: string,
    apiError: string,
    errorDetails: string)
  {
    function Add(b: Block): Message {
      this.(content := content + [b])
    }
  }

  function NewMessage(role: Role, timestamp: int): Message {
    Message(role, [], timestamp, None, "", "", "")
  }

  /** The result given to a tool use that was never executed. */
  const INTERRUPTED := "[Tool execution interrupted]"

  // ---- Folds over content; they recurse on the last block because messages grow by appending ----

  function Init<T>(s: seq<T>): seq<T>
    requires s != []
  {
    s[..|s| - 1]
  }

  function Last<T>(s: seq<T>): T
    requires s != []
  {
    s[|s| - 1]
  }

  function ToSet(ids: seq<string>): set<string> {
    set id | id in ids
  }

  function ToolUsesOf(bs: seq<Block>): seq<Block> {
    if bs == [] then []
    else ToolUsesOf(Init(bs)) + (if Last(bs).ToolUse? then [Last(bs)] else [])
  }

  function ToolResultsOf(bs: seq<Block>): seq<Block> {
    if bs == [] then []
    else ToolResultsOf(Init(bs)) + (if Last(bs).ToolResult? then [Last(bs)] else [])
  }

  function TextOf(bs: seq<Block>): string {
    if bs == [] then ""
    else TextOf(Init(bs)) + (if Last(bs).Text? then Last(bs).text else "")
  }

  function UseIds(bs: seq<Block>): seq<string> {
    if bs == [] then []
    else UseIds(Init(bs)) + (if Last(bs).ToolUse? then [Last(bs).id] else [])
  }

  function ResultIds(bs: seq<Block>): seq<string> {
    if bs == [] then []
    else ResultIds(Init(bs)) + (if Last(bs).ToolResult? then [Last(bs).toolUseId] else [])
  }

  lemma AppendFolds(bs: seq<Block>, b: Block)
    ensures ToolUsesOf(bs + [b]) == ToolUsesOf(bs) + (if b.ToolUse? then [b] else [])
    ensures ToolResultsOf(bs + [b]) == ToolResultsOf(bs) + (if b.ToolResult? then [b] else [])
    ensures TextOf(bs + [b]) == TextOf(bs) + (if b.Text? then b.text else "")
    ensures UseIds(bs + [b]) == UseIds(bs) + (if b.ToolUse? then [b.id] else [])
    ensures ResultIds(bs + [b]) == ResultIds(bs) + (if b.ToolResult? then [b.toolUseId] else [])
  {
    assert Init(bs + [b]) == bs;
  }

  lemma {:induction false} ConcatToolUses(a: seq<Block>, b: seq<Block>)
    ensures ToolUsesOf(a + b) == ToolUsesOf(a) + ToolUsesOf(b)
  {
    if b == [] {
      assert a + b == a;
    } else {
      ConcatToolUses(a, Init(b));
      assert Init(a + b) == a + Init(b);
    }
  }

  lemma {:induction false} ConcatText(a: seq<Block>, b: seq<Block>)
    ensures TextOf(a + b) == TextOf(a) + TextOf(b)
  {
    if b == [] {
      assert a + b == a;
    } else {
      ConcatText(a, Init(b));
      assert Init(a + b) == a + Init(b) && Last(a + b) == Last(b);
      var last := if Last(b).Text? then Last(b).text else "";
      assert TextOf(a) + TextOf(Init(b)) + last == TextOf(a) + (TextOf(Init(b)) + last);
    }
  }

  /** UseIds lists the ids of the tool uses, in order: both are folds over the same blocks. */
  lemma {:induction false} UseIdsMatch(bs: seq<Block>)
    ensures |UseIds(bs)| == |ToolUsesOf(bs)|
    ensures forall i :: 0 <= i < |ToolUsesOf(bs)| ==>
      ToolUsesOf(bs)[i].ToolUse? && ToolUsesOf(bs)[i].id == UseIds(bs)[i]
    ensures ToolUsesOf(bs) == [] <==> UseIds(bs) == []
  {
    if bs != [] {
      UseIdsMatch(Init(bs));
    }
  }

  lemma {:induction false} UseIdMembership(bs: seq<Block>, id: string)
    ensures id in UseIds(bs) <==> exists j :: 0 <= j < |bs| && bs[j].ToolUse? && bs[j].id == id
  {
    if bs != [] {
      UseIdMembership(Init(bs), id);
      assert forall j :: 0 <= j < |bs| - 1 ==> Init(bs)[j] == bs[j];
    }
  }

  lemma {:induction false} ResultIdMembership(bs: seq<Block>, id: string)
    ensures id in ResultIds(bs) <==> exists j :: 0 <= j < |bs| && bs[j].ToolResult? && bs[j].toolUseId == id
  {
    if bs != [] {
      ResultIdMembership(Init(bs), id);
      assert forall j :: 0 <= j < |bs| - 1 ==> Init(bs)[j] == bs[j];
    }
  }

  // ---- The loops of message.go ----

  method ToolUses(m: Message) returns (out: seq<Block>)
    ensures out == ToolUsesOf(m.content)
    ensures |out| == |UseIds(m.content)|
    ensures forall i :: 0 <= i < |out| ==> out[i].ToolUse? && out[i].id == UseIds(m.content)[i]
  {
    out := [];
    for i := 0 to |m.content|
      invariant out == ToolUsesOf(m.content[..i])
    {
      assert m.content[..i + 1] == m.content[..i] + [m.content[i]];
      AppendFolds(m.content[..i], m.content[i]);
      if m.content[i].ToolUse? {
        out := out + [m.content[i]];
      }
    }
    assert m.content[..|m.content|] == m.content;
    UseIdsMatch(m.content);
  }

  method ToolResults(m: Message) returns (out: seq<Block>)
    ensures out == ToolResultsOf(m.content)
  {
    out := [];
    for i := 0 to |m.content|
      invariant out == ToolResultsOf(m.content[..i])
    {
      assert m.content[..i + 1] == m.content[..i] + [m.content[i]];
      AppendFolds(m.content[..i], m.content[i]);
      if m.content[i].ToolResult? {
        out := out + [m.content[i]];
      }
    }
    assert m.content[..|m.content|] == m.content;
  }

  method TextContent(m: Message) returns (out: string)
    ensures out == TextOf(m.content)
  {
    out := "";
    for i := 0 to |m.content|
      invariant out == TextOf(m.content[..i])
    {
      assert m.content[..i + 1] == m.content[..i] + [m.content[i]];
      AppendFolds(m.content[..i], m.content[i]);
      if m.content[i].Text? {
        out := out + m.content[i].text;
      }
    }
    assert m.content[..|m.content|] == m.content;
  }

  // ---- Deleting the first occurrence from a slice ----

  function RemoveFirst<T(==)>(s: seq<T>, x: T): seq<T> {
    if s == [] then [] else if s[0] == x then s[1..] else [s[0]] + RemoveFirst(s[1..], x)
  }

  lemma {:induction false} RemoveAt<T>(s: seq<T>, x: T, i: nat)
    requires i <= |s| && forall k :: 0 <= k < i ==> s[k] != x
    requires i < |s| ==> s[i] == x
    ensures RemoveFirst(s, x) == if i < |s| then s[..i] + s[i + 1..] else s
  {
    if s != [] && i > 0 {
      RemoveAt(s[1..], x, i - 1);
    }
  }

  method DeleteFirst<T(==)>(s: seq<T>, x: T) returns (r: seq<T>)
    ensures r == RemoveFirst(s, x)
  {
    for i := 0 to |s|
      invariant forall k :: 0 <= k < i ==> s[k] != x
    {
      if s[i] == x {
        RemoveAt(s, x, i);
        return s[..i] + s[i + 1..];
      }
    }
    RemoveAt(s, x, |s|);
    return s;
  }

  lemma {:induction false} RemoveFirstMembers<T>(s: seq<T>, x: T, y: T)
    ensures y != x ==> (y in RemoveFirst(s, x) <==> y in s)
    ensures y in RemoveFirst(s, x) ==> y in s
  {
    if s != [] {
      RemoveFirstMembers(s[1..], x, y);
      assert y in s <==> y == s[0] || y in s[1..];
    }
  }

  ghost predicate NoDuplicates<T>(s: seq<T>) {
    forall i, j :: 0 <= i < j < |s| ==> s[i] != s[j]
  }

  lemma {:induction false} RemoveFirstNoDuplicates<T>(s: seq<T>, x: T)
    requires NoDuplicates(s)
    ensures NoDuplicates(RemoveFirst(s, x)) && x !in RemoveFirst(s, x)
    ensures |RemoveFirst(s, x)| == |s| - (if x in s then 1 else 0)
  {
    if s != [] {
      assert NoDuplicates(s[1..]);
      RemoveFirstNoDuplicates(s[1..], x);
      if s[0] != x {
        RemoveFirstMembers(s[1..], x, s[0]);
        assert x in s <==> x in s[1..];
      }
    }
  }

  lemma {:induction false} RemoveFirstConcat<T>(a: seq<T>, b: seq<T>, x: T)
    ensures RemoveFirst(a + b, x) == if x in a then RemoveFirst(a, x) + b else a + RemoveFirst(b, x)
  {
    if a == [] {
      assert a + b == b;
    } else {
      RemoveFirstConcat(a[1..], b, x);
      assert (a + b)[1..] == a[1..] + b;
    }
  }
}
