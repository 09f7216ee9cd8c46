/** What session-memory compaction keeps: everything not summarized yet, and more until the budget is met. */
module SessionMemoryKept {
  import opened Messages
  import opened CompactOptions
  import opened Tokens
  import opened SessionMemoryCompact
  import Text

  // ---- The index ----

  /** The messages from `k` on that hold text. */
  function TextMessages(ms: seq<Message>, k: nat): set<nat> {
    set i: nat | k <= i < |ms| && exists j :: 0 <= j < |ms[i].content| && ms[i].content[j].Text?
  }

  /** The suffix reaches the maximum of tokens, or the minimum of tokens and of messages with text. */
  predicate MeetsBudget(ms: seq<Message>, k: nat, cfg: SMConfig)
    requires k <= |ms|
  {
    var tokens := Estimate(ms[k..]);
    tokens >= cfg.maxTokens || (tokens >= cfg.minTokens && |TextMessages(ms, k)| >= cfg.minTextBlockMessages)
  }

  /** `k` is the largest index up to `limit` whose suffix meets the budget, or zero if there is none. */
  ghost predicate IsBudgetCut(ms: seq<Message>, limit: nat, k: nat, cfg: SMConfig)
    requires limit <= |ms|
  {
    && k <= limit && (MeetsBudget(ms, k, cfg) || k == 0)
    && forall j :: k < j <= limit ==> !MeetsBudget(ms, j, cfg)
  }

  lemma {:induction false} TextCountIsSize(ms: seq<Message>, k: nat)
    requires k <= |ms|
    ensures TextCount(ms, k) == |TextMessages(ms, k)|
    decreases |ms| - k
  {
    if k == |ms| {
      assert TextMessages(ms, k) == {};
    } else {
      TextCountIsSize(ms, k + 1);
      if HasText(ms[k]) {
        assert TextMessages(ms, k) == TextMessages(ms, k + 1) + {k};
      } else {
        assert TextMessages(ms, k) == TextMessages(ms, k + 1);
      }
    }
  }

  lemma ReachesIsBudget(ms: seq<Message>, k: nat, cfg: SMConfig)
    requires k <= |ms|
    ensures Reaches(ms, k, cfg) <==> MeetsBudget(ms, k, cfg)
  {
    hide Estimate, TextMessages;
    TextCountIsSize(ms, k);
  }

  /**
   The cut starts right after the last summarized message, or at the end if there is none, goes back to the
   largest index that meets the budget, and is then adjusted; so nothing after the last summarized message is
   ever left out.
   */
  lemma KeepIndexMeaning(ms: seq<Message>, lastSummarized: int, cfg: SMConfig) returns (k: nat)
    requires lastSummarized < |ms|
    ensures IsBudgetCut(ms, if lastSummarized < 0 then |ms| else lastSummarized + 1, k, cfg)
    ensures KeepIndex(ms, lastSummarized, cfg) == Adjust(ms, k) <= k
    ensures lastSummarized >= 0 ==> KeepIndex(ms, lastSummarized, cfg) <= lastSummarized + 1
  {
    hide MeetsBudget, Reaches, Adjust, BudgetIndex;
    var limit := StartIndex(ms, lastSummarized);
    k := BudgetIndex(ms, limit, cfg);
    BudgetIndexOptimal(ms, limit, cfg);
    forall j | 0 <= j <= |ms| ensures Reaches(ms, j, cfg) <==> MeetsBudget(ms, j, cfg) {
      ReachesIsBudget(ms, j, cfg);
    }
  }

  // ---- The result ----

  /** A system message of which some text mentions a boundary. */
  ghost predicate MarksBoundary(m: Message) {
    m.role.System? && exists j :: 0 <= j < |m.content| && m.content[j].Text? && Mentions(m.content[j].text)
  }

  ghost predicate Mentions(text: string) {
    exists before: string, after: string :: text == before + "[Compact boundary" + after
  }

  lemma BoundaryMarks(m: Message)
    ensures IsBoundary(m) <==> MarksBoundary(m)
  {
    hide Text.Contains, Mentions;
    forall j | 0 <= j < |m.content| && m.content[j].Text?
      ensures Text.Contains(m.content[j].text, BOUNDARY_MARK) <==> Mentions(m.content[j].text)
    {
      MentionsMeaning(m.content[j].text);
    }
  }

  lemma MentionsMeaning(text: string)
    ensures Text.Contains(text, BOUNDARY_MARK) <==> Mentions(text)
  {
    hide Text.Contains;
    Text.ContainsMeaning(text, BOUNDARY_MARK);
  }

  /** `kept` is, in order, exactly the messages from `from` to `n` that are no boundary; `at` are their positions. */
  ghost predicate KeepsBetween(ms: seq<Message>, from: nat, n: nat, kept: seq<Message>, at: seq<nat>)
    requires n <= |ms|
  {
    && |kept| == |at|
    && (forall i :: 0 <= i < |at| ==> from <= at[i] < n && kept[i] == ms[at[i]] && !MarksBoundary(kept[i]))
    && (forall i, j :: 0 <= i < j < |at| ==> at[i] < at[j])
    && forall k: nat :: from <= k < n && !MarksBoundary(ms[k]) ==> k in at
  }

  lemma KeepsOneMore(ms: seq<Message>, from: nat, n: nat, kept: seq<Message>, at: seq<nat>)
    requires from <= n < |ms| && KeepsBetween(ms, from, n, kept, at)
    ensures if IsBoundary(ms[n]) then KeepsBetween(ms, from, n + 1, kept, at)
            else KeepsBetween(ms, from, n + 1, kept + [ms[n]], at + [n])
  {
    hide IsBoundary, MarksBoundary;
    BoundaryMarks(ms[n]);
    var at' := at + [n];
    assert at'[|at|] == n;
    forall k: nat | from <= k < n && !MarksBoundary(ms[k]) ensures k in at' {
      assert k in at;
    }
  }

  lemma {:induction false} DropBoundariesKeeps(ms: seq<Message>, from: nat, n: nat) returns (at: seq<nat>)
    requires from <= n <= |ms|
    ensures KeepsBetween(ms, from, n, DropBoundaries(ms[from..n]), at)
    decreases n - from
  {
    hide IsBoundary, KeepsBetween;
    if from == n {
      at := [];
      NothingBetween(ms, from);
    } else {
      at := DropBoundariesKeeps(ms, from, n - 1);
      assert Init(ms[from..n]) == ms[from..n - 1] && Last(ms[from..n]) == ms[n - 1];
      var before := DropBoundaries(ms[from..n - 1]);
      assert before + [] == before;
      KeepsOneMore(ms, from, n - 1, before, at);
      at := if IsBoundary(ms[n - 1]) then at else at + [n - 1];
    }
  }

  lemma NothingBetween(ms: seq<Message>, n: nat)
    requires n <= |ms|
    ensures KeepsBetween(ms, n, n, DropBoundaries(ms[n..n]), [])
  {
  }

  /** Position `f` holds the first message of response `id`. */
  predicate FirstOfResponse(ms: seq<Message>, id: string, f: nat) {
    f < |ms| && ms[f].responseId == id && forall j :: 0 <= j < f ==> ms[j].responseId != id
  }

  /** Some memory to use: the strategy is on and the content is neither blank nor the bare template. */
  predicate HasMemory(memory: Memory, opts: Options) {
    opts.enableSM && memory.content != "" && !IsEmptyMemory(memory.content)
  }

  /** The last summarized message is known to be in the transcript, or is not named. */
  ghost predicate KnowsLast(ms: seq<Message>, memory: Memory) {
    memory.lastId == "" || exists f: nat :: FirstOfResponse(ms, memory.lastId, f)
  }

  /** Nothing behind the first message of the last summarized response lies before `from`. */
  ghost predicate NothingLost(ms: seq<Message>, memory: Memory, from: nat) {
    memory.lastId != "" ==> forall f: nat :: FirstOfResponse(ms, memory.lastId, f) ==> from <= f + 1
  }

  /** The boundary, the summary, and then what is kept from `from` on. */
  ghost predicate IsResult(ms: seq<Message>, memory: Memory, r: seq<Message>, from: nat, at: seq<nat>) {
    && |r| >= 2
    && r[0].role.System? && r[0].content == [Block.Text(BOUNDARY_TEXT)]
    && r[1].role.User? && r[1].content == [Block.Text(memory.summary)]
    && from <= |ms| && KeepsBetween(ms, from, |ms|, r[2..], at)
  }

  /**
   A result is the boundary, the summary, and then, in order, every message from some index on that is no
   boundary; the index is at most right after the first message of the last summarized response. There is a
   result whenever there is memory, its response is found and the size is no limit.
   */
  lemma TrySMKeeps(ms: seq<Message>, threshold: int, memory: Memory, now: int, opts: Options)
    returns (from: nat, at: seq<nat>)
    ensures var r := TrySM(ms, threshold, memory, now, opts);
      && (r.Some? ==>
            && HasMemory(memory, opts) && KnowsLast(ms, memory) && (threshold <= 0 || Estimate(r.value) < threshold)
            && IsResult(ms, memory, r.value, from, at) && NothingLost(ms, memory, from))
      && (HasMemory(memory, opts) && KnowsLast(ms, memory) && threshold <= 0 ==> r.Some?)
  {
    hide Estimate, KeepIndex, IsEmptyMemory, DropBoundaries, IsBoundary, KeepsBetween, FirstOfResponse, SummaryFirst;
    var last := if memory.lastId != "" then FindResponse(ms, memory.lastId) else |ms| - 1;
    FoundIsFirst(ms, memory.lastId);
    from, at := 0, [];
    if memory.lastId == "" || last >= 0 {
      var k := KeepIndexMeaning(ms, last, opts.sessionMemory);
      from := KeepIndex(ms, last, opts.sessionMemory);
      at := DropBoundariesKeeps(ms, from, |ms|);
      assert ms[from..|ms|] == ms[from..];
      FrontIsResult(ms, memory, now, from, at);
    }
  }

  lemma FrontIsResult(ms: seq<Message>, memory: Memory, now: int, from: nat, at: seq<nat>)
    requires from <= |ms| && KeepsBetween(ms, from, |ms|, DropBoundaries(ms[from..]), at)
    ensures IsResult(ms, memory, SummaryFirst(memory.summary, now, DropBoundaries(ms[from..])), from, at)
  {
    hide KeepsBetween, DropBoundaries;
    assert SummaryFirst(memory.summary, now, DropBoundaries(ms[from..]))[2..] == DropBoundaries(ms[from..]);
  }

  lemma FoundIsFirst(ms: seq<Message>, id: string)
    ensures var i := FindResponse(ms, id);
      && (i >= 0 ==> FirstOfResponse(ms, id, i))
      && forall f: nat :: FirstOfResponse(ms, id, f) ==> f == i
  {
    var i := FindResponse(ms, id);
    forall f: nat | FirstOfResponse(ms, id, f) ensures f == i {
    }
  }
}
