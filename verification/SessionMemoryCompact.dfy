/** Session-memory compaction: choose a suffix to keep, safe for tool pairs, split responses and budget. */
module SessionMemoryCompact {
  import opened Messages
  import opened CompactOptions
  import opened Tokens
  import opened Pairing
  import Text

  // ---- Ids in a message and in a range ----

  function ResultIdSet(m: Message): set<string> {
    if m.role.User? then ToSet(ResultIds(m.content)) else {}
  }

  function UseIdSet(m: Message): set<string> {
    if m.role.Assistant? then ToSet(UseIds(m.content)) else {}
  }

  function ResultsFrom(ms: seq<Message>, i: nat): set<string>
    requires i <= |ms|
    decreases |ms| - i
  {
    if i == |ms| then {} else ResultIdSet(ms[i]) + ResultsFrom(ms, i + 1)
  }

  /** Ids used by assistant messages in ms[lo..hi]. */
  function UsesIn(ms: seq<Message>, lo: nat, hi: nat): set<string>
    requires lo <= hi <= |ms|
    decreases hi - lo
  {
    if lo == hi then {} else UseIdSet(ms[lo]) + UsesIn(ms, lo + 1, hi)
  }

  /** Assistant message `m` is a named part of a response. */
  predicate Named(m: Message) {
    m.role.Assistant? && m.responseId != ""
  }

  function ResponsesFrom(ms: seq<Message>, i: nat): set<string>
    requires i <= |ms|
    decreases |ms| - i
  {
    if i == |ms| then {}
    else (if Named(ms[i]) then {ms[i].responseId} else {}) + ResponsesFrom(ms, i + 1)
  }

  // ---- The adjustment as a function ----

  /** Results kept from `start` on whose use is not kept. */
  function Needed(ms: seq<Message>, start: nat): set<string>
    requires start <= |ms|
  {
    ResultsFrom(ms, start) - UsesIn(ms, start, |ms|)
  }

  function WalkBack(ms: seq<Message>, i: nat, needed: set<string>, adjusted: nat): (a: nat)
    requires i <= adjusted <= |ms|
    ensures a <= adjusted
  {
    if i == 0 || needed == {} then adjusted
    else if UseIdSet(ms[i - 1]) * needed != {} then WalkBack(ms, i - 1, needed - UseIdSet(ms[i - 1]), i - 1)
    else WalkBack(ms, i - 1, needed, adjusted)
  }

  function StepOne(ms: seq<Message>, start: nat): (a: nat)
    requires start <= |ms|
    ensures a <= start
  {
    WalkBack(ms, start, Needed(ms, start), start)
  }

  function SplitBack(ms: seq<Message>, i: nat, responses: set<string>, adjusted: nat): (a: nat)
    requires i <= adjusted <= |ms|
    ensures a <= adjusted
  {
    if i == 0 then adjusted
    else if Named(ms[i - 1]) && ms[i - 1].responseId in responses then SplitBack(ms, i - 1, responses, i - 1)
    else SplitBack(ms, i - 1, responses, adjusted)
  }

  function StepTwo(ms: seq<Message>, a: nat): (r: nat)
    requires a <= |ms|
    ensures r <= a
  {
    SplitBack(ms, a, ResponsesFrom(ms, a), a)
  }

  function Adjust(ms: seq<Message>, start: nat): (r: nat)
    requires start <= |ms|
    ensures r <= start
  {
    if start == 0 || start == |ms| then start else StepTwo(ms, StepOne(ms, start))
  }

  // ---- The loops ----

  method CollectResultIds(ms: seq<Message>, start: nat) returns (ids: set<string>)
    requires start <= |ms|
    ensures ids == ResultsFrom(ms, start)
  {
    ids := {};
    for i := start to |ms|
      invariant ids + ResultsFrom(ms, i) == ResultsFrom(ms, start)
    {
      ids := ids + ResultIdSet(ms[i]);
    }
  }

  method CollectUseIds(ms: seq<Message>, start: nat) returns (ids: set<string>)
    requires start <= |ms|
    ensures ids == UsesIn(ms, start, |ms|)
  {
    ids := {};
    for i := start to |ms|
      invariant ids + UsesIn(ms, i, |ms|) == UsesIn(ms, start, |ms|)
    {
      ids := ids + UseIdSet(ms[i]);
    }
  }

  method CollectResponseIds(ms: seq<Message>, start: nat) returns (ids: set<string>)
    requires start <= |ms|
    ensures ids == ResponsesFrom(ms, start)
  {
    ids := {};
    for i := start to |ms|
      invariant ids + ResponsesFrom(ms, i) == ResponsesFrom(ms, start)
    {
      if Named(ms[i]) {
        ids := ids + {ms[i].responseId};
      }
    }
  }

  method AdjustIndexToPreserveAPIInvariants(ms: seq<Message>, startIndex: nat) returns (adjusted: nat)
    requires startIndex <= |ms|
    ensures adjusted == Adjust(ms, startIndex)
  {
    if startIndex <= 0 || startIndex >= |ms| {
      return startIndex;
    }
    adjusted := startIndex;

    var allResults := CollectResultIds(ms, startIndex);
    if allResults != {} {
      var kept := CollectUseIds(ms, adjusted);
      var needed := allResults - kept;
      var i := adjusted;
      while i > 0 && needed != {}
        invariant 0 <= i <= adjusted <= startIndex
        invariant StepOne(ms, startIndex) == WalkBack(ms, i, needed, adjusted)
        decreases i
      {
        i := i - 1;
        if UseIdSet(ms[i]) * needed != {} {
          adjusted := i;
          needed := needed - UseIdSet(ms[i]);
        }
      }
    }
    assert adjusted == StepOne(ms, startIndex);

    ghost var a := adjusted;
    var responses := CollectResponseIds(ms, adjusted);
    var i := adjusted;
    while i > 0
      invariant 0 <= i <= adjusted <= a
      invariant StepTwo(ms, a) == SplitBack(ms, i, responses, adjusted)
      decreases i
    {
      i := i - 1;
      if Named(ms[i]) && ms[i].responseId in responses {
        adjusted := i;
      }
    }
  }

  // ---- Step one is optimal ----

  lemma {:induction false} UsesSplit(ms: seq<Message>, lo: nat, mid: nat, hi: nat)
    requires lo <= mid <= hi <= |ms|
    ensures UsesIn(ms, lo, hi) == UsesIn(ms, lo, mid) + UsesIn(ms, mid, hi)
    decreases mid - lo
  {
    if lo < mid {
      UsesSplit(ms, lo + 1, mid, hi);
    }
  }

  lemma {:induction false} UsesMembers(ms: seq<Message>, lo: nat, hi: nat, id: string)
    requires lo <= hi <= |ms|
    ensures id in UsesIn(ms, lo, hi) <==> exists j :: lo <= j < hi && id in UseIdSet(ms[j])
    decreases hi - lo
  {
    if lo < hi {
      UsesMembers(ms, lo + 1, hi, id);
    }
  }

  lemma {:induction false} ResultsMembers(ms: seq<Message>, i: nat, id: string)
    requires i <= |ms|
    ensures id in ResultsFrom(ms, i) <==> exists j :: i <= j < |ms| && id in ResultIdSet(ms[j])
    decreases |ms| - i
  {
    if i < |ms| {
      ResultsMembers(ms, i + 1, id);
    }
  }

  /** Keeping from `a` on keeps a use of every id in `needed` that is used before `start` at all. */
  predicate Covers(ms: seq<Message>, needed: set<string>, a: nat, start: nat)
    requires a <= start <= |ms|
  {
    needed * UsesIn(ms, 0, start) <= UsesIn(ms, a, start)
  }

  /** Message `a` is an assistant message with a needed use that no later message before `start` has. */
  predicate Essential(ms: seq<Message>, needed: set<string>, a: nat, start: nat)
    requires a < start <= |ms|
  {
    exists id :: id in UseIdSet(ms[a]) && id in needed && id !in UsesIn(ms, a + 1, start)
  }

  lemma {:induction false} WalkBackOptimal(ms: seq<Message>, i: nat, rest: set<string>, adjusted: nat,
                                           needed: set<string>, start: nat)
    requires i <= adjusted <= start <= |ms|
    requires rest == needed - UsesIn(ms, i, start)
    requires needed * UsesIn(ms, i, start) <= UsesIn(ms, adjusted, start)
    requires adjusted < start ==> Essential(ms, needed, adjusted, start)
    ensures var a := WalkBack(ms, i, rest, adjusted);
      Covers(ms, needed, a, start) && (a < start ==> Essential(ms, needed, a, start))
    decreases i
  {
    if i > 0 && rest != {} {
      var uses, later := UseIdSet(ms[i - 1]), UsesIn(ms, i, start);
      assert UsesIn(ms, i - 1, start) == uses + later;
      if uses * rest != {} {
        var id :| id in uses * rest;
        assert Essential(ms, needed, i - 1, start);
        assert rest - uses == needed - (uses + later);
        WalkBackOptimal(ms, i - 1, rest - uses, i - 1, needed, start);
      } else {
        MissChangesNothing(needed, uses, later);
        WalkBackOptimal(ms, i - 1, rest, adjusted, needed, start);
      }
    } else {
      UsesSplit(ms, 0, i, start);
      forall id | id in needed && id in UsesIn(ms, 0, start) ensures id in UsesIn(ms, adjusted, start) {
        assert id in rest || id in needed * UsesIn(ms, i, start);
      }
    }
  }

  lemma MissChangesNothing(needed: set<string>, uses: set<string>, later: set<string>)
    requires uses * (needed - later) == {}
    ensures needed - later == needed - (uses + later)
    ensures needed * (uses + later) == needed * later
  {
    forall id | id in needed && id in uses ensures id in later {
      assert id in uses * (needed - later) || id in later;
    }
  }

  lemma EssentialBlocks(ms: seq<Message>, needed: set<string>, a: nat, b: nat, start: nat)
    requires a < b <= start <= |ms| && Essential(ms, needed, a, start)
    ensures !Covers(ms, needed, b, start)
  {
    var id :| id in UseIdSet(ms[a]) && id in needed && id !in UsesIn(ms, a + 1, start);
    UsesSplit(ms, 0, a, start);
    UsesSplit(ms, a + 1, b, start);
    assert id in UsesIn(ms, a, start);
  }

  /** Step one yields the largest index that keeps every needed use. */
  lemma StepOneOptimal(ms: seq<Message>, start: nat)
    requires start <= |ms|
    ensures Covers(ms, Needed(ms, start), StepOne(ms, start), start)
    ensures forall b :: StepOne(ms, start) < b <= start ==> !Covers(ms, Needed(ms, start), b, start)
    ensures StepOne(ms, start) < start ==> ms[StepOne(ms, start)].role.Assistant?
  {
    var needed, a := Needed(ms, start), StepOne(ms, start);
    assert UsesIn(ms, start, start) == {};
    WalkBackOptimal(ms, start, needed, start, needed, start);
    forall b | a < b <= start ensures !Covers(ms, needed, b, start) {
      EssentialBlocks(ms, needed, a, b, start);
    }
  }

  // ---- Step two is optimal ----

  lemma {:induction false} ResponsesMembers(ms: seq<Message>, i: nat, id: string)
    requires i <= |ms|
    ensures id in ResponsesFrom(ms, i) <==> exists j :: i <= j < |ms| && Named(ms[j]) && ms[j].responseId == id
    decreases |ms| - i
  {
    if i < |ms| {
      ResponsesMembers(ms, i + 1, id);
    }
  }

  /** No assistant message before `r` belongs to a response that has a part from `a` on. */
  predicate NoEarlierPart(ms: seq<Message>, responses: set<string>, r: nat)
    requires r <= |ms|
  {
    forall j :: 0 <= j < r ==> !(Named(ms[j]) && ms[j].responseId in responses)
  }

  lemma {:induction false} SplitBackOptimal(ms: seq<Message>, i: nat, responses: set<string>, adjusted: nat)
    requires i <= adjusted <= |ms|
    requires forall j :: i <= j < adjusted ==> !(Named(ms[j]) && ms[j].responseId in responses)
    ensures var r := SplitBack(ms, i, responses, adjusted);
      && NoEarlierPart(ms, responses, r)
      && (r < adjusted ==> Named(ms[r]) && ms[r].responseId in responses)
    decreases i
  {
    if i > 0 {
      if Named(ms[i - 1]) && ms[i - 1].responseId in responses {
        SplitBackOptimal(ms, i - 1, responses, i - 1);
      } else {
        SplitBackOptimal(ms, i - 1, responses, adjusted);
      }
    }
  }

  /** Step two yields the largest index with no earlier part of a response kept by step one. */
  lemma StepTwoOptimal(ms: seq<Message>, a: nat)
    requires a <= |ms|
    ensures NoEarlierPart(ms, ResponsesFrom(ms, a), StepTwo(ms, a))
    ensures forall b :: StepTwo(ms, a) < b <= a ==> !NoEarlierPart(ms, ResponsesFrom(ms, a), b)
    ensures StepTwo(ms, a) < a ==> ms[StepTwo(ms, a)].role.Assistant?
  {
    SplitBackOptimal(ms, a, ResponsesFrom(ms, a), a);
  }

  // ---- When the cut loses no use ----

  /** Message `v` holds a result whose use is in the earlier message `u`. */
  predicate Answered(ms: seq<Message>, u: nat, v: nat) {
    u < v < |ms| && UseIdSet(ms[u]) * ResultIdSet(ms[v]) != {}
  }

  /** Every result kept from `r` on has its earlier use kept too. */
  ghost predicate Closed(ms: seq<Message>, r: nat) {
    forall u: nat, v: nat :: Answered(ms, u, v) && r <= v ==> r <= u
  }

  /** Each tool-use id belongs to one message. */
  ghost predicate UsedOnce(ms: seq<Message>) {
    forall i, j :: 0 <= i < j < |ms| ==> UseIdSet(ms[i]) * UseIdSet(ms[j]) == {}
  }

  predicate SameResponse(a: Message, b: Message) {
    Named(a) && Named(b) && a.responseId == b.responseId
  }

  /** Between a use and its result the assistant only says further parts of the use's own response. */
  ghost predicate TurnLocal(ms: seq<Message>) {
    forall u: nat, c: nat, v: nat :: Answered(ms, u, v) && u < c < v && ms[c].role.Assistant? ==>
      SameResponse(ms[u], ms[c])
  }

  /** Some response has a part at or before `u` and another at or after `c`. */
  ghost predicate LeadsBack(ms: seq<Message>, u: nat, c: nat) {
    exists p: nat, q: nat :: p <= u && c <= q && q < |ms| && p < |ms| && SameResponse(ms[p], ms[q])
  }

  ghost predicate PartBefore(ms: seq<Message>, u: nat, c: nat)
    requires c < |ms|
  {
    exists p: nat :: p <= u && p < |ms| && SameResponse(ms[p], ms[c])
  }

  /**
   Whatever assistant message lies between a use and its result leads the second step back before the
   use: if it uses tools, through some response around it, and if it is a named part, through its own.
   */
  ghost predicate CutSafe(ms: seq<Message>) {
    forall u: nat, c: nat, v: nat :: Answered(ms, u, v) && u < c < v && ms[c].role.Assistant? ==>
      (UseIdSet(ms[c]) != {} ==> LeadsBack(ms, u, c)) && (Named(ms[c]) ==> PartBefore(ms, u, c))
  }

  lemma TurnLocalIsCutSafe(ms: seq<Message>)
    requires TurnLocal(ms)
    ensures CutSafe(ms)
  {
    hide UseIdSet, ResultIdSet;
    forall u: nat, c: nat, v: nat | Answered(ms, u, v) && u < c < v && ms[c].role.Assistant?
      ensures LeadsBack(ms, u, c) && PartBefore(ms, u, c)
    {
      assert SameResponse(ms[u], ms[c]);
    }
  }

  lemma OnlyUse(ms: seq<Message>, u: nat, id: string)
    requires UsedOnce(ms) && u < |ms| && id in UseIdSet(ms[u])
    ensures forall j :: 0 <= j < |ms| && id in UseIdSet(ms[j]) ==> j == u
  {
    hide UseIdSet;
    forall j | 0 <= j < |ms| && j != u ensures id !in UseIdSet(ms[j]) {
      var i, k := if j < u then j else u, if j < u then u else j;
      var a, b := UseIdSet(ms[i]), UseIdSet(ms[k]);
      assert a * b == {};
      assert id in a * b <==> id in a && id in b;
    }
  }

  /** A result from `start` on keeps its use through step one. */
  lemma LateResultsKeepUses(ms: seq<Message>, start: nat, u: nat, v: nat)
    requires UsedOnce(ms) && Answered(ms, u, v) && u < start <= v
    ensures Adjust(ms, start) <= u
  {
    hide UsedOnce, UseIdSet, ResultIdSet, StepOne, StepTwo;
    var id :| id in UseIdSet(ms[u]) * ResultIdSet(ms[v]);
    var a := StepOne(ms, start);
    StepOneOptimal(ms, start);
    OnlyUse(ms, u, id);
    ResultsMembers(ms, start, id);
    UsesMembers(ms, start, |ms|, id);
    UsesMembers(ms, 0, start, id);
    UsesMembers(ms, a, start, id);
    assert id in Needed(ms, start);
  }

  /** A cut moved by step one is at a message with uses; one moved by step two is at an earlier part. */
  lemma WhereTheCutIs(ms: seq<Message>, start: nat)
    requires 0 < start < |ms| && Adjust(ms, start) < start
    ensures var a, r := StepOne(ms, start), Adjust(ms, start);
      && ms[r].role.Assistant?
      && NoEarlierPart(ms, ResponsesFrom(ms, a), r)
      && if r == a then UseIdSet(ms[r]) != {} else Named(ms[r]) && ms[r].responseId in ResponsesFrom(ms, a)
  {
    hide StepOne, StepTwo, ResponsesFrom, UseIdSet;
    var a, r := StepOne(ms, start), Adjust(ms, start);
    StepOneOptimal(ms, start);
    StepTwoOptimal(ms, a);
    if r == a {
      var needed := Needed(ms, start);
      assert Covers(ms, needed, a, start) && !Covers(ms, needed, a + 1, start);
      assert UsesIn(ms, a, start) == UseIdSet(ms[a]) + UsesIn(ms, a + 1, start);
    } else {
      assert !NoEarlierPart(ms, ResponsesFrom(ms, a), r + 1);
    }
  }

  /**
   If the messages before the start are safe to cut, the kept suffix has every result with its use,
   whatever follows them.
   */
  lemma CutIsClosed(ms: seq<Message>, start: nat)
    requires start <= |ms| && UsedOnce(ms) && CutSafe(ms[..start])
    ensures Closed(ms, Adjust(ms, start))
  {
    hide UseIdSet, ResultIdSet, StepOne, StepTwo, ResponsesFrom, UsedOnce, CutSafe;
    var head, r := ms[..start], Adjust(ms, start);
    forall u: nat, v: nat | Answered(ms, u, v) && r <= v ensures r <= u {
      if u < r {
        if start <= v {
          LateResultsKeepUses(ms, start, u, v);
        } else {
          EarlyResultsKeepUses(ms, start, u, v);
        }
      }
    }
  }

  lemma NoneLeadsBack(ms: seq<Message>, start: nat, a: nat, u: nat)
    requires u < a <= start <= |ms| && NoEarlierPart(ms, ResponsesFrom(ms, a), a)
    ensures !LeadsBack(ms[..start], u, a)
  {
    hide ResponsesFrom;
    var head := ms[..start];
    forall p: nat, q: nat | p <= u && a <= q && q < |head| && p < |head| ensures !SameResponse(head[p], head[q]) {
      assert head[p] == ms[p] && head[q] == ms[q];
      ResponsesMembers(ms, a, ms[q].responseId);
    }
  }

  lemma NoPartBefore(ms: seq<Message>, start: nat, responses: set<string>, r: nat, u: nat)
    requires u < r < start <= |ms| && NoEarlierPart(ms, responses, r) && ms[r].responseId in responses
    ensures !PartBefore(ms[..start], u, r)
  {
    var head := ms[..start];
    forall p: nat | p <= u && p < |head| ensures !SameResponse(head[p], head[r]) {
      assert head[p] == ms[p] && head[r] == ms[r];
    }
  }

  lemma EarlyResultsKeepUses(ms: seq<Message>, start: nat, u: nat, v: nat)
    requires start <= |ms| && CutSafe(ms[..start]) && Answered(ms, u, v) && v < start
    requires Adjust(ms, start) <= v
    ensures Adjust(ms, start) <= u
  {
    hide StepOne, StepTwo, ResponsesFrom, UseIdSet, ResultIdSet, LeadsBack, PartBefore;
    var head, a, r := ms[..start], StepOne(ms, start), Adjust(ms, start);
    if u < r {
      WhereTheCutIs(ms, start);
      assert head[r] == ms[r] && head[u] == ms[u] && head[v] == ms[v];
      assert r != v by { ResultsAreTheUsers(ms, u, v); }
      assert Answered(head, u, v);
      if r == a {
        NoneLeadsBack(ms, start, a, u);
      } else {
        NoPartBefore(ms, start, ResponsesFrom(ms, a), r, u);
      }
    }
  }

  lemma ResultsAreTheUsers(ms: seq<Message>, u: nat, v: nat)
    requires Answered(ms, u, v)
    ensures ms[v].role.User?
  {
  }

  /** A transcript that is not safe is cut wrongly before some next message. */
  lemma UnsafeCutLosesUse(head: seq<Message>, u: nat, c: nat, v: nat) returns (next: Message)
    requires UsedOnce(head) && Answered(head, u, v) && u < c < v && head[c].role.Assistant?
    requires (UseIdSet(head[c]) != {} && !LeadsBack(head, u, c)) || (Named(head[c]) && !PartBefore(head, u, c))
    ensures UsedOnce(head + [next]) && !Closed(head + [next], Adjust(head + [next], |head|))
  {
    hide UsedOnce, StepOne, StepTwo, ResponsesFrom, Needed;
    var n := |head|;
    if Named(head[c]) && !PartBefore(head, u, c) {
      next := NewMessage(Assistant, 0).(responseId := head[c].responseId);
      PartCutsAfter(head, u, c, next);
    } else {
      var id :| id in UseIdSet(head[c]);
      next := NewMessage(User, 0).Add(ToolResult(id, "", false));
      ResultCutsAfter(head, u, c, id, next);
    }
    var ms := head + [next];
    UsedOnceAppend(head, next);
    assert ms[u] == head[u] && ms[v] == head[v];
    assert Answered(ms, u, v);
  }

  lemma UsedOnceAppend(head: seq<Message>, next: Message)
    requires UsedOnce(head) && UseIdSet(next) == {}
    ensures UsedOnce(head + [next])
  {
    hide UseIdSet;
  }

  /** A next part of the response of `c` moves the cut to that response's first part, after `u`. */
  lemma PartCutsAfter(head: seq<Message>, u: nat, c: nat, next: Message)
    requires u < c < |head| && Named(head[c]) && !PartBefore(head, u, c)
    requires next.content == [] && SameResponse(next, head[c])
    ensures u < Adjust(head + [next], |head|) <= c
    ensures UseIdSet(next) == {}
  {
    hide StepTwo, ResponsesFrom;
    var ms, n := head + [next], |head|;
    assert ResultIdSet(ms[n]) == {};
    assert ResultsFrom(ms, n + 1) == {};
    assert ResultsFrom(ms, n) == {};
    assert Needed(ms, n) == {};
    assert StepOne(ms, n) == n;
    StepTwoOptimal(ms, n);
    var r := Adjust(ms, n);
    ResponsesMembers(ms, n, next.responseId);
    assert ms[c] == head[c] && ms[n] == next;
    assert NoEarlierPart(ms, ResponsesFrom(ms, n), r) && r <= c;
    assert !NoEarlierPart(ms, ResponsesFrom(ms, n), r + 1);
    ResponsesMembers(ms, n, ms[r].responseId);
    assert SameResponse(head[r], head[c]);
  }

  /** A next result for a use in `c` moves the cut to `c`, and no response leads it back to `u`. */
  lemma ResultCutsAfter(head: seq<Message>, u: nat, c: nat, id: string, next: Message)
    requires UsedOnce(head) && u < c < |head| && id in UseIdSet(head[c]) && !LeadsBack(head, u, c)
    requires next == NewMessage(User, 0).Add(ToolResult(id, "", false))
    ensures u < Adjust(head + [next], |head|) <= c
    ensures UseIdSet(next) == {}
  {
    hide StepTwo, ResponsesFrom;
    var ms, n := head + [next], |head|;
    OneResultMoves(head, c, id, next);
    var r := Adjust(ms, n);
    StepTwoOptimal(ms, c);
    if r < c {
      assert !NoEarlierPart(ms, ResponsesFrom(ms, c), r + 1);
      ResponsesMembers(ms, c, ms[r].responseId);
      var q: nat :| c <= q < |ms| && Named(ms[q]) && ms[q].responseId == ms[r].responseId;
      assert ms[q] == head[q] && ms[r] == head[r];
      assert SameResponse(head[r], head[q]);
    }
  }

  lemma OneResultMoves(head: seq<Message>, c: nat, id: string, next: Message)
    requires UsedOnce(head) && c < |head| && id in UseIdSet(head[c])
    requires next == NewMessage(User, 0).Add(ToolResult(id, "", false))
    ensures StepOne(head + [next], |head|) == c && UseIdSet(next) == {}
  {
    hide StepOne, UsedOnce, UseIdSet, ResultIdSet, UsesIn, Needed;
    var ms, n := head + [next], |head|;
    OneResultIds(id, next);
    LastNeeded(head, id, next);
    StepOneOptimal(ms, n);
    var a := StepOne(ms, n);
    assert forall j :: 0 <= j < n ==> ms[j] == head[j];
    OnlyUse(head, c, id);
    UsesMembers(ms, 0, n, id);
    UsesMembers(ms, a, n, id);
    UsesMembers(ms, c, n, id);
    assert id in UsesIn(ms, a, n) && Covers(ms, {id}, c, n);
  }

  lemma OneResultIds(id: string, next: Message)
    requires next == NewMessage(User, 0).Add(ToolResult(id, "", false))
    ensures ResultIdSet(next) == {id} && UseIdSet(next) == {}
  {
    var content := next.content;
    assert Init(content) == [];
    assert ResultIds(content) == [id];
  }

  lemma LastNeeded(head: seq<Message>, id: string, next: Message)
    requires ResultIdSet(next) == {id} && UseIdSet(next) == {}
    ensures Needed(head + [next], |head|) == {id}
  {
    hide UseIdSet, ResultIdSet;
    var ms, n := head + [next], |head|;
    assert ResultsFrom(ms, n + 1) == {} && UsesIn(ms, n + 1, n + 1) == {};
  }

  /**
   The exact condition: messages in which no id is used twice are cut without losing a use, whatever
   messages are kept after them, if and only if they are safe to cut.
   */
  lemma CutIsClosedIff(head: seq<Message>)
    requires UsedOnce(head)
    ensures CutSafe(head) <==>
      forall tail: seq<Message> :: UsedOnce(head + tail) ==> Closed(head + tail, Adjust(head + tail, |head|))
  {
    hide UsedOnce, Closed, Adjust, UseIdSet, LeadsBack, PartBefore;
    if CutSafe(head) {
      forall tail: seq<Message> | UsedOnce(head + tail) ensures Closed(head + tail, Adjust(head + tail, |head|)) {
        assert (head + tail)[..|head|] == head;
        CutIsClosed(head + tail, |head|);
      }
    } else {
      var u: nat, c: nat, v: nat :| Answered(head, u, v) && u < c < v && head[c].role.Assistant?
        && ((UseIdSet(head[c]) != {} && !LeadsBack(head, u, c)) || (Named(head[c]) && !PartBefore(head, u, c)));
      var next := UnsafeCutLosesUse(head, u, c, v);
      assert UsedOnce(head + [next]) && !Closed(head + [next], Adjust(head + [next], |head|));
    }
  }

  /** Two uses of different responses, answered only after both: step one alone drops the first use. */
  lemma StepOneCanOrphan(first: Message, second: Message, one: Message, two: Message)
    requires first.role.Assistant? && UseIds(first.content) == ["s"] && !Named(first)
    requires second.role.Assistant? && UseIds(second.content) == ["t"] && !Named(second)
    requires one.role.User? && ResultIds(one.content) == ["s"]
    requires two.role.User? && ResultIds(two.content) == ["t"]
    ensures var ms := [first, second, one, two];
      StepOne(ms, 3) == 1 && Adjust(ms, 3) == 1 && Answered(ms, 0, 2) && !Closed(ms, 1)
  {
    hide StepOne;
    var ms := [first, second, one, two];
    assert UseIdSet(ms[0]) == {"s"} && UseIdSet(ms[1]) == {"t"} && UseIdSet(ms[2]) == {} && UseIdSet(ms[3]) == {};
    assert ResultIdSet(ms[2]) == {"s"} && ResultIdSet(ms[3]) == {"t"};
    assert ResultsFrom(ms, 4) == {} && UsesIn(ms, 4, 4) == {};
    assert Needed(ms, 3) == {"t"};
    var a := StepOne(ms, 3);
    StepOneOptimal(ms, 3);
    assert UsesIn(ms, 3, 3) == {} && UsesIn(ms, 2, 3) == {} && UsesIn(ms, 1, 3) == {"t"};
    assert UsesIn(ms, 0, 3) == {"s", "t"};
    assert Covers(ms, {"t"}, 1, 3) && !Covers(ms, {"t"}, 2, 3) && !Covers(ms, {"t"}, 3, 3);
    assert a == 1;
    assert !Named(ms[0]);
    assert SplitBack(ms, 0, ResponsesFrom(ms, 1), 1) == 1;
    assert StepTwo(ms, 1) == 1;
    assert "s" in UseIdSet(ms[0]) * ResultIdSet(ms[2]);
    assert Answered(ms, 0, 2);
  }

  /** A later part of a response split around a result: step two drops the use of that result. */
  lemma StepTwoCanOrphan(use: Message, first: Message, result: Message, second: Message)
    requires use.role.Assistant? && UseIds(use.content) == ["t"] && !Named(use)
    requires first.role.Assistant? && first.content == [] && first.responseId == "r"
    requires result.role.User? && ResultIds(result.content) == ["t"]
    requires second.role.Assistant? && second.content == [] && second.responseId == "r"
    ensures var ms := [use, first, result, second];
      StepOne(ms, 3) == 3 && Adjust(ms, 3) == 1 && Answered(ms, 0, 2) && !Closed(ms, 1)
  {
    var ms := [use, first, result, second];
    assert UseIdSet(ms[0]) == {"t"} && UseIdSet(ms[1]) == {} && UseIdSet(ms[2]) == {} && UseIdSet(ms[3]) == {};
    assert ResultsFrom(ms, 4) == {} && ResultsFrom(ms, 3) == {};
    assert Needed(ms, 3) == {};
    assert StepOne(ms, 3) == 3;
    assert ResponsesFrom(ms, 4) == {};
    assert ResponsesFrom(ms, 3) == {"r"};
    assert SplitBack(ms, 1, {"r"}, 1) == 1;
    assert SplitBack(ms, 2, {"r"}, 3) == 1;
    assert SplitBack(ms, 3, {"r"}, 3) == 1;
    assert "t" in UseIdSet(ms[0]) * ResultIdSet(ms[2]);
    assert Answered(ms, 0, 2);
  }

  // ---- Paired transcripts are a case of it ----

  lemma UniqueIsUsedOnce(ms: seq<Message>)
    requires UniqueIds(ms)
    ensures UsedOnce(ms)
  {
    hide UseIds;
    forall i, j | 0 <= i < j < |ms| ensures UseIdSet(ms[i]) * UseIdSet(ms[j]) == {} {
      forall id | id in UseIdSet(ms[i]) ensures id !in UseIdSet(ms[j]) {
        assert !ms[i].role.System? && id in UseIds(ms[i].content);
      }
    }
  }

  /** In a paired transcript with unique ids nothing visible lies between a use and its result. */
  lemma NothingBetween(ms: seq<Message>, u: nat, v: nat)
    requires Paired(ms) && UniqueIds(ms) && Answered(ms, u, v)
    ensures forall j :: u < j < v ==> ms[j].role.System?
  {
    hide UseIds, ResultIds;
    var id :| id in UseIdSet(ms[u]) * ResultIdSet(ms[v]);
    assert ms[..v + 1] == ms[..v] + [ms[v]];
    assert ms[..v + 1] + ms[v + 1..] == ms;
    ScanAppend(SETTLED, ms[..v], ms[v]);
    ScanConcat(SETTLED, ms[..v + 1], ms[v + 1..]);
    ScanBroken(ms[v + 1..]);
    var w := WaitingWereUsed(ms[..v]);
    assert ms[w] == ms[..v][w] && id in UseIds(ms[w].content);
    assert w == u;
    forall j | u < j < v ensures ms[j].role.System? {
      assert ms[j] == ms[..v][j];
    }
  }

  lemma PairedIsTurnLocal(ms: seq<Message>)
    requires Paired(ms) && UniqueIds(ms)
    ensures TurnLocal(ms) && UsedOnce(ms)
  {
    hide Scan, UniqueIds, UsedOnce, SameResponse, Answered;
    UniqueIsUsedOnce(ms);
    forall u: nat, v: nat | Answered(ms, u, v) ensures u < v < |ms| && forall j :: u < j < v ==> ms[j].role.System? {
      AnsweredInRange(ms, u, v);
      NothingBetween(ms, u, v);
    }
  }

  lemma AnsweredInRange(ms: seq<Message>, u: nat, v: nat)
    requires Answered(ms, u, v)
    ensures u < v < |ms|
  {
  }

  /** What holds between the uses and results of a transcript holds between those of a prefix. */
  lemma TurnLocalPrefix(ms: seq<Message>, n: nat)
    requires n <= |ms| && TurnLocal(ms)
    ensures TurnLocal(ms[..n])
  {
    hide UseIdSet, ResultIdSet, SameResponse;
    var head := ms[..n];
    forall u: nat, c: nat, v: nat | Answered(head, u, v) && u < c < v && head[c].role.Assistant?
      ensures SameResponse(head[u], head[c])
    {
      assert Answered(ms, u, v) && ms[c] == head[c] && ms[u] == head[u];
    }
  }

  /** On a turn-local transcript with ids used once, no kept result loses its use, wherever the start is. */
  lemma TurnLocalCutIsClosed(ms: seq<Message>, start: nat)
    requires start <= |ms| && UsedOnce(ms) && TurnLocal(ms)
    ensures Closed(ms, Adjust(ms, start))
  {
    hide UsedOnce, TurnLocal, CutSafe, Closed, Adjust;
    TurnLocalPrefix(ms, start);
    TurnLocalIsCutSafe(ms[..start]);
    CutIsClosed(ms, start);
  }

  /** Ids that wait at a cut are used before it and answered after it. */
  lemma WaitingCrosses(ms: seq<Message>, r: nat) returns (u: nat, v: nat)
    requires r <= |ms| && Paired(ms) && Scan(SETTLED, ms[..r]) != SETTLED
    ensures Answered(ms, u, v) && u < r <= v
  {
    hide ScanMessage, UseIds, ResultIds;
    v := WaitingIsAnswered(ms, r);
    u := WaitingWereUsed(ms[..r]);
    var id := ResultIds(ms[v].content)[0];
    assert ms[u] == ms[..r][u] && id in UseIdSet(ms[u]) * ResultIdSet(ms[v]);
  }

  /** So on a paired transcript the cut never falls between a use and its answer. */
  lemma CutIsSettled(ms: seq<Message>, start: nat)
    requires start <= |ms| && Paired(ms) && UniqueIds(ms)
    ensures Scan(SETTLED, ms[..Adjust(ms, start)]) == SETTLED
  {
    hide UniqueIds, UsedOnce, TurnLocal, Adjust, Scan, Answered;
    PairedIsTurnLocal(ms);
    TurnLocalCutIsClosed(ms, start);
    if Scan(SETTLED, ms[..Adjust(ms, start)]) != SETTLED {
      var u, v := WaitingCrosses(ms, Adjust(ms, start));
    }
  }

  /** And the kept suffix of a paired transcript is paired. */
  lemma KeptSuffixPaired(ms: seq<Message>, start: nat)
    requires start <= |ms| && Paired(ms) && UniqueIds(ms)
    ensures Paired(ms[Adjust(ms, start)..]) && UniqueIds(ms[Adjust(ms, start)..])
  {
    CutIsSettled(ms, start);
    SuffixPaired(ms, Adjust(ms, start));
  }

  // ---- The budget ----

  predicate HasText(m: Message) {
    exists j :: 0 <= j < |m.content| && m.content[j].Text?
  }

  method HasTextBlocks(m: Message) returns (r: bool)
    ensures r == HasText(m)
  {
    for j := 0 to |m.content|
      invariant forall k :: 0 <= k < j ==> !m.content[k].Text?
    {
      if m.content[j].Text? {
        return true;
      }
    }
    return false;
  }

  function TextCount(ms: seq<Message>, i: nat): nat
    requires i <= |ms|
    decreases |ms| - i
  {
    if i == |ms| then 0 else (if HasText(ms[i]) then 1 else 0) + TextCount(ms, i + 1)
  }

  predicate Enough(tokens: int, texts: int, cfg: SMConfig) {
    tokens >= cfg.maxTokens || (tokens >= cfg.minTokens && texts >= cfg.minTextBlockMessages)
  }

  /** The suffix from `k` on reaches the maximum, or both minimums. */
  predicate Reaches(ms: seq<Message>, k: nat, cfg: SMConfig)
    requires k <= |ms|
  {
    Enough(Estimate(ms[k..]), TextCount(ms, k), cfg)
  }

  function BudgetIndex(ms: seq<Message>, start: nat, cfg: SMConfig): (k: nat)
    requires start <= |ms|
    ensures k <= start
  {
    if start == 0 || Reaches(ms, start, cfg) then start else BudgetIndex(ms, start - 1, cfg)
  }

  function StartIndex(ms: seq<Message>, lastSummarized: int): nat
    requires lastSummarized < |ms|
  {
    if lastSummarized < 0 then |ms| else lastSummarized + 1
  }

  function KeepIndex(ms: seq<Message>, lastSummarized: int, cfg: SMConfig): (r: nat)
    requires lastSummarized < |ms|
    ensures r <= |ms|
  {
    Adjust(ms, BudgetIndex(ms, StartIndex(ms, lastSummarized), cfg))
  }

  lemma EstimateStep(ms: seq<Message>, i: nat)
    requires i < |ms|
    ensures Estimate(ms[i..]) == ContentTokens(ms[i].content) + Estimate(ms[i + 1..])
  {
    hide Estimate, ContentTokens;
    assert ms[i..] == [ms[i]] + ms[i + 1..];
    EstimateCons(ms[i], ms[i + 1..]);
  }

  method MeasureSuffix(ms: seq<Message>, start: nat) returns (tokens: nat, texts: nat)
    requires start <= |ms|
    ensures tokens == Estimate(ms[start..]) && texts == TextCount(ms, start)
  {
    hide Estimate, ContentTokens, HasText;
    tokens, texts := 0, 0;
    for i := start to |ms|
      invariant tokens + Estimate(ms[i..]) == Estimate(ms[start..])
      invariant texts + TextCount(ms, i) == TextCount(ms, start)
    {
      var t := EstimateSingleMessageTokens(ms[i]);
      EstimateStep(ms, i);
      tokens := tokens + t;
      var has := HasTextBlocks(ms[i]);
      if has {
        texts := texts + 1;
      }
    }
    EstimateNil(ms);
  }

  lemma EstimateNil(ms: seq<Message>)
    ensures Estimate(ms[|ms|..]) == 0
  {
  }

  method CalculateMessagesToKeepIndex(ms: seq<Message>, lastSummarizedIndex: int, cfg: SMConfig) returns (r: nat)
    requires lastSummarizedIndex < |ms|
    ensures r == KeepIndex(ms, lastSummarizedIndex, cfg)
  {
    hide Estimate, ContentTokens, HasText, Adjust, Enough;
    if |ms| == 0 {
      AdjustNothing(ms);
      return 0;
    }
    var startIndex: nat := if lastSummarizedIndex < 0 then |ms| else lastSummarizedIndex + 1;
    ghost var first := startIndex;
    var tokens, texts := MeasureSuffix(ms, startIndex);
    if Enough(tokens, texts, cfg) {
      r := AdjustIndexToPreserveAPIInvariants(ms, startIndex);
      return;
    }
    while startIndex > 0
      invariant startIndex <= first <= |ms|
      invariant tokens == Estimate(ms[startIndex..]) && texts == TextCount(ms, startIndex)
      invariant BudgetIndex(ms, first, cfg) == BudgetIndex(ms, startIndex, cfg)
      invariant !Reaches(ms, startIndex, cfg)
      decreases startIndex
    {
      var i := startIndex - 1;
      var t := EstimateSingleMessageTokens(ms[i]);
      EstimateStep(ms, i);
      tokens := tokens + t;
      var has := HasTextBlocks(ms[i]);
      if has {
        texts := texts + 1;
      }
      startIndex := i;
      if Enough(tokens, texts, cfg) {
        break;
      }
    }
    r := AdjustIndexToPreserveAPIInvariants(ms, startIndex);
  }

  lemma AdjustNothing(ms: seq<Message>)
    ensures Adjust(ms, 0) == 0
  {
  }

  lemma {:induction false} TextCountMonotone(ms: seq<Message>, i: nat, j: nat)
    requires i <= j <= |ms|
    ensures TextCount(ms, j) <= TextCount(ms, i)
    decreases j - i
  {
    if i < j {
      TextCountMonotone(ms, i + 1, j);
    }
  }

  lemma ReachesMonotone(ms: seq<Message>, i: nat, j: nat, cfg: SMConfig)
    requires i <= j <= |ms| && Reaches(ms, j, cfg)
    ensures Reaches(ms, i, cfg)
  {
    hide Estimate;
    EstimateSplit(ms, i, j);
    TextCountMonotone(ms, i, j);
  }

  /** The budget index is the largest one whose suffix suffices, or zero if none does. */
  lemma {:induction false} BudgetIndexOptimal(ms: seq<Message>, start: nat, cfg: SMConfig)
    requires start <= |ms|
    ensures var k := BudgetIndex(ms, start, cfg);
      && (Reaches(ms, k, cfg) || k == 0)
      && forall j :: k < j <= start ==> !Reaches(ms, j, cfg)
    decreases start
  {
    hide Reaches;
    if start > 0 && !Reaches(ms, start, cfg) {
      BudgetIndexOptimal(ms, start - 1, cfg);
    }
  }

  /** After the adjustment the kept suffix still suffices, unless it is the whole transcript. */
  lemma KeepIndexSuffices(ms: seq<Message>, lastSummarized: int, cfg: SMConfig)
    requires lastSummarized < |ms|
    ensures var r := KeepIndex(ms, lastSummarized, cfg);
      r == 0 || Reaches(ms, r, cfg)
  {
    hide Adjust, BudgetIndex, Reaches;
    var start := StartIndex(ms, lastSummarized);
    var k := BudgetIndex(ms, start, cfg);
    BudgetIndexOptimal(ms, start, cfg);
    if Reaches(ms, k, cfg) {
      ReachesMonotone(ms, Adjust(ms, k), k, cfg);
    }
  }

  /** The budget's cut, too, keeps every kept result's use. */
  lemma KeepIndexIsClosed(ms: seq<Message>, lastSummarized: int, cfg: SMConfig)
    requires lastSummarized < |ms| && UsedOnce(ms) && TurnLocal(ms)
    ensures Closed(ms, KeepIndex(ms, lastSummarized, cfg))
  {
    hide Adjust, BudgetIndex, UsedOnce, TurnLocal, Closed;
    TurnLocalCutIsClosed(ms, BudgetIndex(ms, StartIndex(ms, lastSummarized), cfg));
  }

  // ---- The compaction itself ----

  const BOUNDARY_TEXT := "[Compact boundary: earlier conversation summarized below]"
  const BOUNDARY_MARK := "[Compact boundary"

  predicate IsBoundary(m: Message) {
    && m.role.System?
    && exists j :: 0 <= j < |m.content| && m.content[j].Text? && Text.Contains(m.content[j].text, BOUNDARY_MARK)
  }

  function BoundaryMessage(now: int): Message {
    NewMessage(System, now).Add(Block.Text(BOUNDARY_TEXT))
  }

  function SummaryMessage(summary: string, now: int): Message {
    NewMessage(User, now).Add(Block.Text(summary))
  }

  function DropBoundaries(ms: seq<Message>): seq<Message> {
    if ms == [] then [] else DropBoundaries(Init(ms)) + (if IsBoundary(Last(ms)) then [] else [Last(ms)])
  }

  function SummaryFirst(summary: string, now: int, kept: seq<Message>): seq<Message> {
    [BoundaryMessage(now), SummaryMessage(summary, now)] + kept
  }

  /** What the strategy finds outside the transcript: the memory file and the last summarized id. */
  datatype Memory = Memory(content: string, lastId: string, summary: string)

  predicate IsEmptyMemory(content: string) {
    Text.TrimSpace(content) == "" || Text.Contains(Text.TrimSpace(content), "Session Memory Template")
  }

  /** Position of the first message of response `id`, or -1. */
  function FindResponse(ms: seq<Message>, id: string): (i: int)
    ensures -1 <= i < |ms|
    ensures i >= 0 ==> ms[i].responseId == id
    ensures forall k :: 0 <= k < (if i >= 0 then i else |ms|) ==> ms[k].responseId != id
  {
    if ms == [] then -1
    else
      var i := FindResponse(Init(ms), id);
      assert forall k :: 0 <= k < |ms| - 1 ==> Init(ms)[k] == ms[k];
      if i >= 0 then i else if Last(ms).responseId == id then |ms| - 1 else -1
  }

  function TrySM(ms: seq<Message>, threshold: int, memory: Memory, now: int, opts: Options): Option<seq<Message>> {
    if !opts.enableSM || memory.content == "" || IsEmptyMemory(memory.content) then None
    else if memory.lastId != "" && FindResponse(ms, memory.lastId) < 0 then None
    else
      var last := if memory.lastId != "" then FindResponse(ms, memory.lastId) else |ms| - 1;
      var keep := KeepIndex(ms, last, opts.sessionMemory);
      var result := SummaryFirst(memory.summary, now, DropBoundaries(ms[keep..]));
      if threshold > 0 && Estimate(result) >= threshold then None else Some(result)
  }

  method FindLastSummarized(ms: seq<Message>, id: string) returns (i: int)
    ensures i == FindResponse(ms, id)
  {
    for k := 0 to |ms|
      invariant forall j :: 0 <= j < k ==> ms[j].responseId != id
    {
      if ms[k].responseId == id {
        return k;
      }
    }
    return -1;
  }

  method MessagesToKeep(ms: seq<Message>, startIndex: nat) returns (keep: seq<Message>)
    requires startIndex <= |ms|
    ensures keep == DropBoundaries(ms[startIndex..])
  {
    hide IsBoundary;
    keep := [];
    for i := startIndex to |ms|
      invariant keep == DropBoundaries(ms[startIndex..i])
    {
      assert Init(ms[startIndex..i + 1]) == ms[startIndex..i];
      if !IsBoundary(ms[i]) {
        keep := keep + [ms[i]];
      }
    }
    assert ms[startIndex..|ms|] == ms[startIndex..];
  }

  method TrySessionMemoryCompaction(ms: seq<Message>, threshold: int, memory: Memory, now: int, opts: Options)
    returns (r: Option<seq<Message>>)
    ensures r == TrySM(ms, threshold, memory, now, opts)
  {
    hide Estimate, KeepIndex, IsEmptyMemory, DropBoundaries, BoundaryMessage, SummaryMessage;
    if !opts.enableSM {
      return None;
    }
    if memory.content == "" {
      return None;
    }
    if IsEmptyMemory(memory.content) {
      return None;
    }
    var last;
    if memory.lastId != "" {
      last := FindLastSummarized(ms, memory.lastId);
      if last < 0 {
        return None;
      }
    } else {
      last := |ms| - 1;
    }
    var startIndex := CalculateMessagesToKeepIndex(ms, last, opts.sessionMemory);
    var keep := MessagesToKeep(ms, startIndex);
    var result := [BoundaryMessage(now), SummaryMessage(memory.summary, now)] + keep;
    var tokens := EstimateMessageTokens(result);
    if threshold > 0 && tokens >= threshold {
      return None;
    }
    r := Some(result);
  }

  // ---- Compacted transcripts are paired ----

  lemma {:induction false} DropBoundariesScan(o: Open, ms: seq<Message>)
    ensures Scan(o, DropBoundaries(ms)) == Scan(o, ms)
  {
    hide IsBoundary, ScanMessage;
    if ms != [] {
      DropBoundariesScan(o, Init(ms));
      if IsBoundary(Last(ms)) {
        BoundaryIsSkipped(Scan(o, Init(ms)), Last(ms));
        assert DropBoundaries(ms) == DropBoundaries(Init(ms));
      } else {
        ScanAppend(o, DropBoundaries(Init(ms)), Last(ms));
      }
    }
  }

  lemma BoundaryIsSkipped(o: Open, m: Message)
    requires IsBoundary(m)
    ensures ScanMessage(o, m) == o
  {
  }

  lemma {:induction false} DropBoundariesFrom(ms: seq<Message>, i: nat)
    requires i < |DropBoundaries(ms)|
    ensures exists k :: 0 <= k < |ms| && ms[k] == DropBoundaries(ms)[i]
  {
    hide IsBoundary;
    if i < |DropBoundaries(Init(ms))| {
      DropBoundariesFrom(Init(ms), i);
      var k :| 0 <= k < |Init(ms)| && Init(ms)[k] == DropBoundaries(Init(ms))[i];
      assert ms[k] == DropBoundaries(ms)[i];
    } else {
      assert ms[|ms| - 1] == DropBoundaries(ms)[i];
    }
  }

  lemma {:induction false} DropBoundariesUnique(ms: seq<Message>)
    requires UniqueIds(ms)
    ensures UniqueIds(DropBoundaries(ms))
  {
    hide IsBoundary;
    if ms != [] {
      UniqueInit(ms);
      DropBoundariesUnique(Init(ms));
      var d, m := DropBoundaries(Init(ms)), Last(ms);
      if IsBoundary(m) {
        assert DropBoundaries(ms) == d;
      } else {
        if !m.role.System? {
          forall i, id | 0 <= i < |d| && !d[i].role.System? && id in UseIds(m.content)
            ensures id !in UseIds(d[i].content) {
            DropBoundariesFrom(Init(ms), i);
          }
        }
        UniqueAppend(d, m);
      }
    }
  }

  /** A summary in front changes nothing: it uses and answers no tools. */
  lemma SummaryFirstPaired(summary: string, now: int, kept: seq<Message>)
    requires Paired(kept) && UniqueIds(kept)
    ensures Paired(SummaryFirst(summary, now, kept)) && UniqueIds(SummaryFirst(summary, now, kept))
  {
    hide BoundaryMessage, SummaryMessage;
    var b, s := BoundaryMessage(now), SummaryMessage(summary, now);
    FrontIds(summary, now);
    PlainFront(b, s, kept);
  }

  lemma FrontIds(summary: string, now: int)
    ensures var b, s := BoundaryMessage(now), SummaryMessage(summary, now);
      && b.role.System? && s.role.User?
      && UseIds(s.content) == [] && ResultIds(s.content) == [] && UseIds(b.content) == []
  {
    TextMessageIds(BoundaryMessage(now));
    TextMessageIds(SummaryMessage(summary, now));
  }

  lemma PlainFront(b: Message, s: Message, kept: seq<Message>)
    requires b.role.System? && s.role.User? && UseIds(s.content) == [] && ResultIds(s.content) == []
    requires Paired(kept) && UniqueIds(kept)
    ensures Paired([b, s] + kept) && UniqueIds([b, s] + kept)
  {
    assert [b, s] == ([] + [b]) + [s];
    ScanAppend(SETTLED, [], b);
    ScanAppend(SETTLED, [b], s);
    ScanConcat(SETTLED, [b, s], kept);
    var all := [b, s] + kept;
    forall i, j, id | 0 <= i < j < |all| && !all[i].role.System? && !all[j].role.System? && id in UseIds(all[i].content)
      ensures id !in UseIds(all[j].content)
    {
      assert i >= 2 && all[i] == kept[i - 2] && all[j] == kept[j - 2];
    }
  }

  lemma TextMessageIds(m: Message)
    requires |m.content| == 1 && m.content[0].Text?
    ensures UseIds(m.content) == [] && ResultIds(m.content) == []
  {
    assert Init(m.content) == [];
  }

  /** Session-memory compaction keeps a paired transcript paired and its ids unique. */
  lemma TrySMPaired(ms: seq<Message>, threshold: int, memory: Memory, now: int, opts: Options)
    requires Paired(ms) && UniqueIds(ms)
    requires TrySM(ms, threshold, memory, now, opts).Some?
    ensures Paired(TrySM(ms, threshold, memory, now, opts).value)
    ensures UniqueIds(TrySM(ms, threshold, memory, now, opts).value)
  {
    hide Scan, UniqueIds, KeepIndex, IsEmptyMemory, DropBoundaries, SummaryFirst, Estimate;
    var last := if memory.lastId != "" then FindResponse(ms, memory.lastId) else |ms| - 1;
    var start := BudgetIndex(ms, StartIndex(ms, last), opts.sessionMemory);
    var keep := KeepIndex(ms, last, opts.sessionMemory);
    assert keep == Adjust(ms, start) by { KeepIndexDef(ms, last, opts.sessionMemory); }
    KeptSuffixPaired(ms, start);
    DropBoundariesScan(SETTLED, ms[keep..]);
    DropBoundariesUnique(ms[keep..]);
    SummaryFirstPaired(memory.summary, now, DropBoundaries(ms[keep..]));
  }

  lemma KeepIndexDef(ms: seq<Message>, last: int, cfg: SMConfig)
    requires last < |ms|
    ensures KeepIndex(ms, last, cfg) == Adjust(ms, BudgetIndex(ms, StartIndex(ms, last), cfg))
  {
  }
}
