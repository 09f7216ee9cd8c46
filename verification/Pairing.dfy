/**
 Pairing of tool uses with their results over a whole transcript.

 Both providers skip system messages, so pairing ignores them. `Scan` reads a transcript left to
 right carrying the ids that still wait for an answer; `WellPaired` is the same requirement stated
 over positions, and `ScanMeaning` proves that the two agree.
 */
module Pairing {
  import opened Messages

  datatype Open = Broken | Waiting(ids: seq<string>)

  const SETTLED := Waiting([])

  function ScanMessage(o: Open, m: Message): Open {
    if m.role.System? || o.Broken? then o
    else if o.ids != [] then
      if m.role.User? && ResultIds(m.content) == o.ids && UseIds(m.content) == [] then SETTLED else Broken
    else if ResultIds(m.content) != [] then Broken
    else if m.role.Assistant? then Waiting(UseIds(m.content))
    else if UseIds(m.content) == [] then SETTLED
    else Broken
  }

  function Scan(o: Open, ms: seq<Message>): Open {
    if ms == [] then o else ScanMessage(Scan(o, Init(ms)), Last(ms))
  }

  /** Every tool use is answered by the next visible message, and every result answers one. */
  ghost predicate Paired(ms: seq<Message>) {
    Scan(SETTLED, ms) == SETTLED
  }

  // ---- The same requirement over positions ----

  function Visible(ms: seq<Message>): seq<Message> {
    if ms == [] then []
    else Visible(Init(ms)) + (if Last(ms).role.System? then [] else [Last(ms)])
  }

  /** Message `m` answers exactly the tool uses of the message before it. */
  ghost predicate Answers(m: Message, use: Message) {
    m.role.User? && UseIds(m.content) == [] && ResultIds(m.content) == UseIds(use.content)
  }

  ghost predicate UsesAreAnswered(v: seq<Message>, i: int)
    requires 0 <= i < |v|
  {
    UseIds(v[i].content) != [] ==>
      v[i].role.Assistant? && ResultIds(v[i].content) == [] && i + 1 < |v| && Answers(v[i + 1], v[i])
  }

  ghost predicate ResultsAreOwed(v: seq<Message>, i: int)
    requires 0 <= i < |v|
  {
    ResultIds(v[i].content) != [] ==>
      v[i].role.User? && 0 < i && UseIds(v[i - 1].content) == ResultIds(v[i].content)
  }

  ghost predicate WellPaired(v: seq<Message>) {
    forall i :: 0 <= i < |v| ==> UsesAreAnswered(v, i) && ResultsAreOwed(v, i)
  }

  /** What the scan knows about a visible prefix. */
  ghost predicate ScanState(v: seq<Message>, o: Open) {
    match o
    case Broken => true
    case Waiting(ids) =>
      if ids == [] then WellPaired(v)
      else v != [] && Last(v).role.Assistant? && UseIds(Last(v).content) == ids && ResultIds(Last(v).content) == []
           && WellPaired(Init(v))
           && (|v| > 1 ==> UseIds(v[|v| - 2].content) == [] )
  }

  /** Extending a well-paired prefix by a message that owes nothing and uses nothing. */
  lemma ExtendPlain(v: seq<Message>, m: Message)
    requires WellPaired(v) && UseIds(m.content) == [] && ResultIds(m.content) == []
    ensures WellPaired(v + [m])
  {
    var w := v + [m];
    forall i | 0 <= i < |w| ensures UsesAreAnswered(w, i) && ResultsAreOwed(w, i) {
      if i < |v| {
        assert UsesAreAnswered(v, i) && ResultsAreOwed(v, i);
      }
    }
  }

  lemma ExtendAnswer(v: seq<Message>, use: Message, m: Message)
    requires WellPaired(v) && use.role.Assistant? && UseIds(use.content) != [] && ResultIds(use.content) == []
    requires Answers(m, use)
    ensures WellPaired(v + [use] + [m])
  {
    var w := v + [use] + [m];
    forall i | 0 <= i < |w| ensures UsesAreAnswered(w, i) && ResultsAreOwed(w, i) {
      if i < |v| {
        assert UsesAreAnswered(v, i) && ResultsAreOwed(v, i);
      }
    }
  }

  lemma ScanStateStep(v: seq<Message>, o: Open, m: Message)
    requires ScanState(v, o) && !m.role.System?
    ensures ScanState(v + [m], ScanMessage(o, m))
  {
    var w := v + [m];
    assert Init(w) == v && Last(w) == m;
    var next := ScanMessage(o, m);
    if next.Broken? || o.Broken? {
    } else if o.ids != [] {
      ExtendAnswer(Init(v), Last(v), m);
      assert w == Init(v) + [Last(v)] + [m];
    } else if UseIds(m.content) == [] {
      ExtendPlain(v, m);
    } else if v != [] {
      assert UsesAreAnswered(v, |v| - 1);
      assert w[|w| - 2] == Last(v);
    }
  }

  lemma {:induction false} ScanSound(ms: seq<Message>)
    ensures ScanState(Visible(ms), Scan(SETTLED, ms))
  {
    if ms != [] {
      ScanSound(Init(ms));
      var v, m := Visible(Init(ms)), Last(ms);
      if m.role.System? {
        assert Visible(ms) == v;
      } else {
        assert Visible(ms) == v + [m];
        ScanStateStep(v, Scan(SETTLED, Init(ms)), m);
      }
    }
  }

  /** A prefix of a well-paired list scans to exactly the uses of its last message. */
  lemma {:induction false} ScanComplete(ms: seq<Message>, rest: seq<Message>)
    requires WellPaired(Visible(ms) + rest)
    ensures Scan(SETTLED, ms) == if Visible(ms) == [] then SETTLED else Waiting(UseIds(Last(Visible(ms)).content))
  {
    if ms != [] {
      var v, m := Visible(Init(ms)), Last(ms);
      if m.role.System? {
        assert Visible(ms) == v;
        ScanComplete(Init(ms), rest);
      } else {
        assert v + ([m] + rest) == Visible(ms) + rest;
        ScanComplete(Init(ms), [m] + rest);
        var w := v + ([m] + rest);
        assert w[|v|] == m;
        assert UsesAreAnswered(w, |v|) && ResultsAreOwed(w, |v|);
        if v != [] {
          assert w[|v| - 1] == Last(v);
          assert UsesAreAnswered(w, |v| - 1);
        }
        assert Last(Visible(ms)) == m;
      }
    }
  }

  /** The scan accepts exactly the transcripts that are well paired position by position. */
  lemma ScanMeaning(ms: seq<Message>)
    ensures Paired(ms) <==> WellPaired(Visible(ms))
  {
    ScanSound(ms);
    if WellPaired(Visible(ms)) {
      assert Visible(ms) + [] == Visible(ms);
      ScanComplete(ms, []);
      var v := Visible(ms);
      if v != [] {
        assert UsesAreAnswered(v, |v| - 1);
      }
    }
  }

  // ---- Algebra of the scan ----

  lemma ScanAppend(o: Open, ms: seq<Message>, m: Message)
    ensures Scan(o, ms + [m]) == ScanMessage(Scan(o, ms), m)
  {
    assert Init(ms + [m]) == ms;
  }

  lemma {:induction false} ScanConcat(o: Open, a: seq<Message>, b: seq<Message>)
    ensures Scan(o, a + b) == Scan(Scan(o, a), b)
  {
    if b == [] {
      assert a + b == a;
    } else {
      ScanConcat(o, a, Init(b));
      assert a + b == (a + Init(b)) + [Last(b)];
      ScanAppend(o, a + Init(b), Last(b));
    }
  }

  lemma {:induction false} ScanBroken(ms: seq<Message>)
    ensures Scan(Broken, ms) == Broken
  {
    if ms != [] {
      ScanBroken(Init(ms));
    }
  }

  /** Cutting a paired transcript where nothing is waiting leaves a paired suffix. */
  lemma SuffixPaired(ms: seq<Message>, r: nat)
    requires r <= |ms| && Paired(ms) && Scan(SETTLED, ms[..r]) == SETTLED
    ensures Paired(ms[r..])
  {
    assert ms[..r] + ms[r..] == ms;
    ScanConcat(SETTLED, ms[..r], ms[r..]);
  }

  /** In a paired transcript, an id waiting at a cut is answered by the first visible message after it. */
  lemma {:induction false} WaitingIsAnswered(ms: seq<Message>, r: nat) returns (v: nat)
    requires r <= |ms| && Paired(ms)
    requires Scan(SETTLED, ms[..r]) != SETTLED
    ensures r <= v < |ms| && ms[v].role.User?
    ensures Scan(SETTLED, ms[..r]) == Waiting(ResultIds(ms[v].content)) && ResultIds(ms[v].content) != []
    ensures forall j :: r <= j < v ==> ms[j].role.System?
    decreases |ms| - r
  {
    assert ms[..|ms|] == ms;
    v := r;
    if r < |ms| {
      assert ms[..r + 1] == ms[..r] + [ms[r]];
      ScanAppend(SETTLED, ms[..r], ms[r]);
      if ms[r].role.System? {
        v := WaitingIsAnswered(ms, r + 1);
      } else {
        assert ms[..r + 1] + ms[r + 1..] == ms;
        ScanConcat(SETTLED, ms[..r + 1], ms[r + 1..]);
        ScanBroken(ms[r + 1..]);
        assert ms[..r] + ms[r..] == ms;
        ScanConcat(SETTLED, ms[..r], ms[r..]);
        ScanBroken(ms[r..]);
      }
    }
  }

  /** The ids waiting after a prefix were used in it, by its last visible message. */
  lemma {:induction false} WaitingWereUsed(ms: seq<Message>) returns (u: nat)
    requires Scan(SETTLED, ms).Waiting? && Scan(SETTLED, ms).ids != []
    ensures u < |ms| && ms[u].role.Assistant? && UseIds(ms[u].content) == Scan(SETTLED, ms).ids
    ensures forall j :: u < j < |ms| ==> ms[j].role.System?
  {
    if Last(ms).role.System? {
      u := WaitingWereUsed(Init(ms));
    } else {
      u := |ms| - 1;
    }
  }

  /** Scanning looks only at roles and ids, so rewriting anything else keeps it. */
  lemma {:induction false} ScanSameIds(o: Open, a: seq<Message>, b: seq<Message>)
    requires |a| == |b|
    requires forall i :: 0 <= i < |a| ==> a[i].role == b[i].role
                                          && UseIds(a[i].content) == UseIds(b[i].content)
                                          && ResultIds(a[i].content) == ResultIds(b[i].content)
    ensures Scan(o, a) == Scan(o, b)
  {
    if a != [] {
      ScanSameIds(o, Init(a), Init(b));
    }
  }

  /** The scan skips system messages altogether. */
  lemma {:induction false} ScanVisible(o: Open, ms: seq<Message>)
    ensures Scan(o, Visible(ms)) == Scan(o, ms)
  {
    if ms != [] {
      ScanVisible(o, Init(ms));
      if Last(ms).role.System? {
        assert Visible(ms) == Visible(Init(ms));
      } else {
        ScanAppend(o, Visible(Init(ms)), Last(ms));
      }
    }
  }

  lemma {:induction false} VisibleConcat(a: seq<Message>, b: seq<Message>)
    ensures Visible(a + b) == Visible(a) + Visible(b)
  {
    if b == [] {
      assert a + b == a;
    } else {
      VisibleConcat(a, Init(b));
      assert Init(a + b) == a + Init(b);
    }
  }

  // ---- Unique ids ----

  /** No tool-use id appears in two visible messages. */
  ghost predicate UniqueIds(ms: seq<Message>) {
    forall i, j, id :: 0 <= i < j < |ms| && !ms[i].role.System? && !ms[j].role.System? && id in UseIds(ms[i].content)
                       ==> id !in UseIds(ms[j].content)
  }

  ghost predicate FreshIn(m: Message, ms: seq<Message>) {
    forall i, id :: 0 <= i < |ms| && !ms[i].role.System? && id in UseIds(m.content) ==> id !in UseIds(ms[i].content)
  }

  lemma UniqueAppend(ms: seq<Message>, m: Message)
    requires UniqueIds(ms) && (m.role.System? || FreshIn(m, ms))
    ensures UniqueIds(ms + [m])
  {
  }

  lemma UniqueInit(ms: seq<Message>)
    requires ms != [] && UniqueIds(ms)
    ensures UniqueIds(Init(ms))
    ensures Last(ms).role.System? || FreshIn(Last(ms), Init(ms))
  {
    forall i, j, id | 0 <= i < j < |Init(ms)| && !Init(ms)[i].role.System? && !Init(ms)[j].role.System?
                      && id in UseIds(Init(ms)[i].content)
      ensures id !in UseIds(Init(ms)[j].content)
    {
      assert Init(ms)[i] == ms[i] && Init(ms)[j] == ms[j];
    }
    if !Last(ms).role.System? {
      forall i, id | 0 <= i < |Init(ms)| && !Init(ms)[i].role.System? && id in UseIds(Last(ms).content)
        ensures id !in UseIds(Init(ms)[i].content)
      {
        assert Init(ms)[i] == ms[i] && Last(ms) == ms[|ms| - 1];
      }
    }
  }

  lemma {:induction false} FreshVisible(m: Message, ms: seq<Message>)
    ensures FreshIn(m, ms) <==> FreshIn(m, Visible(ms))
  {
    if ms != [] {
      FreshVisible(m, Init(ms));
      FreshSplit(m, Init(ms), Last(ms));
      assert ms == Init(ms) + [Last(ms)];
      if Last(ms).role.System? {
        assert Visible(ms) == Visible(Init(ms));
      } else {
        FreshSplit(m, Visible(Init(ms)), Last(ms));
      }
    }
  }

  lemma FreshSplit(m: Message, ms: seq<Message>, last: Message)
    ensures FreshIn(m, ms + [last]) <==> FreshIn(m, ms) && FreshIn(m, [last])
    ensures last.role.System? ==> FreshIn(m, [last])
  {
    if FreshIn(m, ms + [last]) {
      forall i, id | 0 <= i < |ms| && !ms[i].role.System? && id in UseIds(m.content)
        ensures id !in UseIds(ms[i].content) {
        assert (ms + [last])[i] == ms[i];
      }
      assert (ms + [last])[|ms|] == last;
    }
  }

  lemma {:induction false} UniqueVisible(ms: seq<Message>)
    ensures UniqueIds(ms) <==> UniqueIds(Visible(ms))
  {
    if ms != [] {
      UniqueVisible(Init(ms));
      var v, m := Visible(Init(ms)), Last(ms);
      FreshVisible(m, Init(ms));
      assert ms == Init(ms) + [m];
      if UniqueIds(ms) {
        UniqueInit(ms);
        if m.role.System? {
          assert Visible(ms) == v;
        } else {
          UniqueAppend(v, m);
        }
      }
      if UniqueIds(Visible(ms)) {
        if m.role.System? {
          assert Visible(ms) == v;
        } else {
          UniqueInit(v + [m]);
          assert Init(v + [m]) == v;
        }
        UniqueAppend(Init(ms), m);
      }
    }
  }
}
