/** Token estimation: rounding per block and the anchored backward scan of the transcript. */
module Tokens {
  import opened Messages

  // ---- RoughTokenCount ----

  function AsciiCount(s: string): nat {
    if s == "" then 0 else AsciiCount(Init(s)) + (if Last(s) as int < 128 then 1 else 0)
  }

  /** a / b rounded to the nearest integer, halves upwards, for non-negative arguments. */
  function RoundDiv(a: nat, b: nat): nat
    requires b > 0
  {
    (2 * a + b) / (2 * b)
  }

  /** Four ASCII characters, or one and a half others, make a token: the count is in twelfths. */
  function Twelfths(s: string): nat {
    AsciiCountBound(s);
    3 * AsciiCount(s) + 8 * (|s| - AsciiCount(s))
  }

  lemma {:induction false} AsciiCountBound(s: string)
    ensures AsciiCount(s) <= |s|
  {
    if s != "" {
      AsciiCountBound(Init(s));
    }
  }

  function Rough(s: string): nat {
    RoundDiv(Twelfths(s), 12)
  }

  method RoughTokenCount(s: string) returns (tokens: nat)
    ensures tokens == Rough(s)
  {
    var ascii, other := 0, 0;
    for i := 0 to |s|
      invariant ascii + other == i
      invariant ascii == AsciiCount(s[..i])
    {
      assert s[..i + 1] == s[..i] + [s[i]];
      assert Init(s[..i + 1]) == s[..i];
      if s[i] as int < 128 {
        ascii := ascii + 1;
      } else {
        other := other + 1;
      }
    }
    assert s[..|s|] == s;
    tokens := RoundDiv(3 * ascii + 8 * other, 12);
  }

  lemma {:induction false} AsciiConcat(a: string, b: string)
    ensures AsciiCount(a + b) == AsciiCount(a) + AsciiCount(b)
  {
    if b == "" {
      assert a + b == a;
    } else {
      AsciiConcat(a, Init(b));
      assert Init(a + b) == a + Init(b);
    }
  }

  /** Rounding makes the estimate of a concatenation differ from the sum by at most one token. */
  lemma RoughConcat(a: string, b: string)
    ensures Rough(a) + Rough(b) - 1 <= Rough(a + b) <= Rough(a) + Rough(b) + 1
  {
    hide AsciiCount;
    AsciiConcat(a, b);
    assert Twelfths(a + b) == Twelfths(a) + Twelfths(b);
  }

  /** The positions of ASCII characters. */
  function AsciiAt(s: string): set<nat> {
    set i: nat | i < |s| && s[i] as int < 128
  }

  lemma {:induction false} AsciiCountIsSize(s: string)
    ensures AsciiCount(s) == |AsciiAt(s)|
  {
    if s == "" {
      assert AsciiAt(s) == {};
    } else {
      AsciiCountIsSize(Init(s));
      var n := |s| - 1;
      if Last(s) as int < 128 {
        assert AsciiAt(s) == AsciiAt(Init(s)) + {n};
      } else {
        assert AsciiAt(s) == AsciiAt(Init(s));
      }
    }
  }

  /**
   The estimate is the whole number nearest to a quarter of the ASCII characters and two thirds of the others,
   halves upwards.
   */
  lemma RoughIsNearest(s: string)
    ensures var ascii := |AsciiAt(s)|;
      12 * Rough(s) - 6 <= 3 * ascii + 8 * (|s| - ascii) < 12 * Rough(s) + 6
  {
    AsciiCountIsSize(s);
  }

  // ---- Blocks and messages ----

  function MarshalInput(input: ToolInput): string {
    match input
    case NilInput => "null"
    case Object(json) => json
  }

  function BlockTokens(b: Block): nat {
    match b
    case Text(text) => Rough(text)
    case ToolResult(_, content, _) => Rough(content)
    case ToolUse(_, name, input) => Rough(name + MarshalInput(input))
    case Thinking(thinking, _) => Rough(thinking)
    case RedactedThinking(data) => Rough(data)
  }

  /** The text that a block is counted by. */
  function CountedText(b: Block): string {
    if b.Text? then b.text
    else if b.ToolResult? then b.content
    else if b.ToolUse? then b.name + (if b.input.NilInput? then "null" else b.input.json)
    else if b.Thinking? then b.thinking
    else b.data
  }

  /** The estimate of a block is the nearest one to the weight of its counted text. */
  lemma BlockIsNearest(b: Block)
    ensures var s := CountedText(b);
      12 * BlockTokens(b) - 6 <= 3 * |AsciiAt(s)| + 8 * (|s| - |AsciiAt(s)|) < 12 * BlockTokens(b) + 6
  {
    hide Rough, AsciiAt;
    RoughIsNearest(CountedText(b));
  }

  function ContentTokens(bs: seq<Block>): nat {
    if bs == [] then 0 else ContentTokens(Init(bs)) + BlockTokens(Last(bs))
  }

  function Estimate(ms: seq<Message>): nat {
    if ms == [] then 0 else Estimate(Init(ms)) + ContentTokens(Last(ms).content)
  }

  /** The estimate of a transcript is the sum over its blocks, and that of no block is nothing. */
  lemma {:induction false} ContentIsSum(bs: seq<Block>)
    ensures ContentTokens(bs) == Sum(seq(|bs|, j requires 0 <= j < |bs| => BlockTokens(bs[j])))
  {
    if bs != [] {
      ContentIsSum(Init(bs));
      SumAppend(seq(|bs| - 1, j requires 0 <= j < |bs| - 1 => BlockTokens(Init(bs)[j])), BlockTokens(Last(bs)));
      assert seq(|bs|, j requires 0 <= j < |bs| => BlockTokens(bs[j]))
          == seq(|bs| - 1, j requires 0 <= j < |bs| - 1 => BlockTokens(Init(bs)[j])) + [BlockTokens(Last(bs))];
    }
  }

  lemma {:induction false} EstimateIsSum(ms: seq<Message>)
    ensures Estimate(ms) == Sum(seq(|ms|, i requires 0 <= i < |ms| => ContentTokens(ms[i].content)))
  {
    if ms != [] {
      EstimateIsSum(Init(ms));
      SumAppend(seq(|ms| - 1, i requires 0 <= i < |ms| - 1 => ContentTokens(Init(ms)[i].content)),
                ContentTokens(Last(ms).content));
      assert seq(|ms|, i requires 0 <= i < |ms| => ContentTokens(ms[i].content))
          == seq(|ms| - 1, i requires 0 <= i < |ms| - 1 => ContentTokens(Init(ms)[i].content))
             + [ContentTokens(Last(ms).content)];
    }
  }

  method EstimateSingleMessageTokens(m: Message) returns (total: nat)
    ensures total == ContentTokens(m.content)
  {
    total := 0;
    for j := 0 to |m.content|
      invariant total == ContentTokens(m.content[..j])
    {
      assert Init(m.content[..j + 1]) == m.content[..j];
      total := total + BlockTokens(m.content[j]);
    }
    assert m.content[..|m.content|] == m.content;
  }

  method EstimateMessageTokens(ms: seq<Message>) returns (total: nat)
    ensures total == Estimate(ms)
  {
    total := 0;
    for i := 0 to |ms|
      invariant total == Estimate(ms[..i])
    {
      assert Init(ms[..i + 1]) == ms[..i];
      ghost var before := total;
      for j := 0 to |ms[i].content|
        invariant total == before + ContentTokens(ms[i].content[..j])
      {
        assert Init(ms[i].content[..j + 1]) == ms[i].content[..j];
        total := total + BlockTokens(ms[i].content[j]);
      }
      assert ms[i].content[..|ms[i].content|] == ms[i].content;
    }
    assert ms[..|ms|] == ms;
  }

  lemma {:induction false} EstimateConcat(a: seq<Message>, b: seq<Message>)
    ensures Estimate(a + b) == Estimate(a) + Estimate(b)
  {
    if b == [] {
      assert a + b == a;
    } else {
      EstimateConcat(a, Init(b));
      assert Init(a + b) == a + Init(b);
    }
  }

  lemma EstimateCons(m: Message, ms: seq<Message>)
    ensures Estimate([m] + ms) == ContentTokens(m.content) + Estimate(ms)
  {
    EstimateConcat([m], ms);
    assert Init([m]) == [];
  }

  lemma EstimateSplit(ms: seq<Message>, i: nat, j: nat)
    requires i <= j <= |ms|
    ensures Estimate(ms[i..]) == Estimate(ms[i..j]) + Estimate(ms[j..])
    ensures Estimate(ms[j..]) <= Estimate(ms[i..])
  {
    assert ms[i..] == ms[i..j] + ms[j..];
    EstimateConcat(ms[i..j], ms[j..]);
  }

  // ---- TokenCountWithEstimation ----

  predicate HasUsage(m: Message) {
    m.role.Assistant? && m.usage.Some?
  }

  /** Index of the last assistant message that carries usage, or -1. */
  function LastUsage(ms: seq<Message>): (i: int)
    ensures -1 <= i < |ms|
    ensures i >= 0 ==> HasUsage(ms[i])
    ensures forall k :: i < k < |ms| ==> !HasUsage(ms[k])
  {
    if ms == [] then -1
    else if HasUsage(Last(ms)) then |ms| - 1
    else
      var i := LastUsage(Init(ms));
      assert forall k :: i < k < |ms| - 1 ==> Init(ms)[k] == ms[k];
      i
  }

  /** Walk back over ms[..j] looking for earlier parts of response `id`; `anchor` is the best so far. */
  function FirstSibling(ms: seq<Message>, j: nat, id: string, anchor: nat): (first: nat)
    requires j <= |ms| && j <= anchor
    ensures first <= anchor
  {
    if j == 0 then anchor
    else if ms[j - 1].responseId == id then FirstSibling(ms, j - 1, id, j - 1)
    else if ms[j - 1].responseId != "" then anchor
    else FirstSibling(ms, j - 1, id, anchor)
  }

  function Anchor(ms: seq<Message>): (a: int)
    ensures -1 <= a <= LastUsage(ms)
    ensures LastUsage(ms) >= 0 ==> a >= 0
  {
    var u := LastUsage(ms);
    if u < 0 || ms[u].responseId == "" then u else FirstSibling(ms, u, ms[u].responseId, u)
  }

  /** The anchor opens the stretch that holds nothing but parts of the response and unnamed messages. */
  ghost predicate OpensResponse(ms: seq<Message>, a: nat, u: nat, id: string)
    requires a <= u < |ms|
  {
    && ms[a].responseId == id
    && (forall k :: a <= k <= u ==> ms[k].responseId == id || ms[k].responseId == "")
    && forall b :: 0 <= b < a && ms[b].responseId == id ==>
         exists k :: b < k < a && ms[k].responseId != id && ms[k].responseId != ""
  }

  lemma {:induction false} FirstSiblingOpens(ms: seq<Message>, j: nat, id: string, anchor: nat, u: nat)
    requires j <= anchor <= u < |ms| && id != "" && ms[anchor].responseId == id
    requires forall k :: j <= k <= u ==> ms[k].responseId == id || ms[k].responseId == ""
    requires forall k :: j <= k < anchor ==> ms[k].responseId == ""
    ensures FirstSibling(ms, j, id, anchor) <= u
    ensures OpensResponse(ms, FirstSibling(ms, j, id, anchor), u, id)
  {
    if j > 0 {
      if ms[j - 1].responseId == id {
        FirstSiblingOpens(ms, j - 1, id, j - 1, u);
      } else if ms[j - 1].responseId == "" {
        FirstSiblingOpens(ms, j - 1, id, anchor, u);
      } else {
        forall b | 0 <= b < anchor && ms[b].responseId == id
          ensures exists k :: b < k < anchor && ms[k].responseId != id && ms[k].responseId != ""
        {
          assert b < j - 1;
        }
      }
    }
  }

  lemma AnchorMeaning(ms: seq<Message>)
    ensures var u := LastUsage(ms); u >= 0 && ms[u].responseId != "" ==>
      0 <= Anchor(ms) <= u && OpensResponse(ms, Anchor(ms), u, ms[u].responseId)
  {
    var u := LastUsage(ms);
    if u >= 0 && ms[u].responseId != "" {
      FirstSiblingOpens(ms, u, ms[u].responseId, u, u);
    }
  }

  function TokenCount(ms: seq<Message>): int {
    var u := LastUsage(ms);
    if u < 0 then Estimate(ms)
    else ms[u].usage.value.Total() + Estimate(ms[Anchor(ms) + 1..])
  }

  method TokenCountWithEstimation(ms: seq<Message>) returns (count: int)
    ensures count == TokenCount(ms)
  {
    hide Estimate, ContentTokens;
    var i := |ms| - 1;
    assert ms == ms[..|ms|];
    while i >= 0
      invariant -1 <= i < |ms|
      invariant LastUsage(ms) == LastUsage(ms[..i + 1])
      decreases i
    {
      assert Init(ms[..i + 1]) == ms[..i];
      if HasUsage(ms[i]) {
        var id := ms[i].responseId;
        var u := i;
        if id != "" {
          var j := i - 1;
          while j >= 0
            invariant -1 <= j < u && j < i <= u
            invariant FirstSibling(ms, u, id, u) == FirstSibling(ms, j + 1, id, i)
            decreases j
          {
            if ms[j].responseId == id {
              i := j;
            } else if ms[j].responseId != "" {
              break;
            }
            j := j - 1;
          }
        }
        assert Anchor(ms) == i;
        var rest := EstimateMessageTokens(ms[i + 1..]);
        return ms[u].usage.value.Total() + rest;
      }
      i := i - 1;
    }
    assert ms[..0] == [];
    count := EstimateMessageTokens(ms);
  }

  // ---- What the canonical count promises ----

  lemma {:induction false} LastUsageAppend(ms: seq<Message>, tail: seq<Message>)
    requires forall k :: 0 <= k < |tail| ==> !HasUsage(tail[k])
    ensures LastUsage(ms + tail) == LastUsage(ms)
  {
    if tail == [] {
      assert ms + tail == ms;
    } else {
      LastUsageAppend(ms, Init(tail));
      assert Init(ms + tail) == ms + Init(tail);
    }
  }

  lemma {:induction false} FirstSiblingPrefix(a: seq<Message>, b: seq<Message>, j: nat, id: string, anchor: nat)
    requires j <= |a| && j <= |b| && j <= anchor && a[..j] == b[..j]
    ensures FirstSibling(a, j, id, anchor) == FirstSibling(b, j, id, anchor)
  {
    if j > 0 {
      assert a[j - 1] == a[..j][j - 1] == b[j - 1];
      assert a[..j - 1] == a[..j][..j - 1] == b[..j - 1];
      if a[j - 1].responseId == id {
        FirstSiblingPrefix(a, b, j - 1, id, j - 1);
      } else if a[j - 1].responseId == "" {
        FirstSiblingPrefix(a, b, j - 1, id, anchor);
      }
    }
  }

  lemma AnchorAppend(ms: seq<Message>, tail: seq<Message>)
    requires forall k :: 0 <= k < |tail| ==> !HasUsage(tail[k])
    ensures LastUsage(ms + tail) == LastUsage(ms) && Anchor(ms + tail) == Anchor(ms)
  {
    LastUsageAppend(ms, tail);
    var u := LastUsage(ms);
    if u >= 0 {
      assert (ms + tail)[u] == ms[u];
      FirstSiblingPrefix(ms, ms + tail, u, ms[u].responseId, u);
    }
  }

  /** Appending messages that carry no assistant usage raises the count by exactly their estimate. */
  lemma TokenCountAppend(ms: seq<Message>, tail: seq<Message>)
    requires forall k :: 0 <= k < |tail| ==> !HasUsage(tail[k])
    ensures TokenCount(ms + tail) == TokenCount(ms) + Estimate(tail)
  {
    hide Estimate, LastUsage, Anchor;
    AnchorAppend(ms, tail);
    if LastUsage(ms) < 0 {
      EstimateConcat(ms, tail);
    } else {
      var a := Anchor(ms) + 1;
      assert (ms + tail)[a..] == ms[a..] + tail;
      EstimateConcat(ms[a..], tail);
    }
  }

  /**
   The count exactly: all four counters of the last usage the assistant reported, and the estimate of what stands
   behind the message that opens its response; without any report, the estimate of the whole.
   */
  lemma TokenCountMeaning(ms: seq<Message>, u: nat) returns (a: nat)
    requires u < |ms| && HasUsage(ms[u]) && forall k :: u < k < |ms| ==> !HasUsage(ms[k])
    ensures a <= u && (if ms[u].responseId == "" then a == u else OpensResponse(ms, a, u, ms[u].responseId))
    ensures var us := ms[u].usage.value;
      TokenCount(ms) == us.inputTokens + us.cacheCreation + us.cacheRead + us.outputTokens + Estimate(ms[a + 1..])
  {
    hide Estimate, OpensResponse;
    AnchorMeaning(ms);
    assert LastUsage(ms) == u;
    a := Anchor(ms);
  }

  lemma CountWithoutReport(ms: seq<Message>)
    requires forall k :: 0 <= k < |ms| ==> !HasUsage(ms[k])
    ensures TokenCount(ms) == Estimate(ms)
  {
    hide Estimate;
    assert LastUsage(ms) == -1;
  }

  /** The count never falls below the reported usage plus the estimate of what follows it. */
  lemma TokenCountLowerBound(ms: seq<Message>, u: nat)
    requires u < |ms| && HasUsage(ms[u])
    requires forall k :: u < k < |ms| ==> !HasUsage(ms[k])
    ensures TokenCount(ms) >= ms[u].usage.value.Total() + Estimate(ms[u + 1..])
  {
    assert LastUsage(ms) == u;
    EstimateSplit(ms, Anchor(ms) + 1, u + 1);
  }
}
