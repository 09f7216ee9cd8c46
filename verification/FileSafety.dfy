/** Over whole runs, the file tools only replace what was last read or written under the same path. */
module FileSafety {
  import opened Messages
  import opened FileTools

  function Run(clean: string -> string, s0: State, ops: seq<Op>): State {
    if ops == [] then s0 else Step(clean, Run(clean, s0, Init(ops)), Last(ops)).state
  }

  /** The tools record file `p` in this step: it is read under this very path, or written. */
  predicate Records(clean: string -> string, s: State, op: Op, p: string) {
    && Step(clean, s, op).result.Done?
    && match op
       case Read(path) => path == p
       case Write(path, _, _, _) => clean(path) == p
       case Edit(path, _, _, _, _) => clean(path) == p
       case Outside(_, _) => false
  }

  /** Where the step changes file `p` unrecorded, the new time differs from the recorded one. */
  predicate FreshStep(clean: string -> string, s: State, op: Op, p: string) {
    var s' := Step(clean, s, op).state;
    p in s'.files && p in s.states && !Records(clean, s, op, p) && (p !in s.files || s'.files[p] != s.files[p]) ==>
      s'.files[p].mtime != s.states[p].mtime
  }

  /** Every change to file `p` behind the tools' back gives it a time other than the recorded one. */
  ghost predicate Fresh(clean: string -> string, s0: State, ops: seq<Op>, p: string) {
    forall k :: 0 <= k < |ops| ==> FreshStep(clean, Run(clean, s0, ops[..k]), ops[k], p)
  }

  /** The last step at which file `p` was recorded. */
  function LastRecord(clean: string -> string, s0: State, ops: seq<Op>, p: string): Option<nat> {
    if ops == [] then None
    else if Records(clean, Run(clean, s0, Init(ops)), Last(ops), p) then Some(|ops| - 1)
    else LastRecord(clean, s0, Init(ops), p)
  }

  // ---- One step ----

  lemma RecordingStep(clean: string -> string, s: State, op: Op, p: string)
    requires clean(p) == p && Records(clean, s, op, p)
    ensures var s' := Step(clean, s, op).state; p in s'.files && p in s'.states && s'.states[p] == s'.files[p]
  {
    hide EditText;
  }

  lemma OtherStep(clean: string -> string, s: State, op: Op, p: string)
    requires !Records(clean, s, op, p)
    ensures var s' := Step(clean, s, op).state;
      (p in s'.states <==> p in s.states) && (p in s.states ==> s'.states[p] == s.states[p])
  {
    hide EditText;
  }

  /** A recorded path that passes the time check has not changed since it was recorded. */
  ghost predicate Kept(clean: string -> string, s0: State, ops: seq<Op>, p: string) {
    var s, j := Run(clean, s0, ops), LastRecord(clean, s0, ops, p);
    && (p in s.states <==> j.Some?)
    && (p in s.states && p in s.files && s.states[p].mtime == s.files[p].mtime ==>
          s.states[p] == s.files[p] && Steady(clean, s0, ops, j.value, p))
  }

  ghost predicate Steady(clean: string -> string, s0: State, ops: seq<Op>, j: nat, p: string) {
    forall k :: j < k <= |ops| ==> FileAt(Run(clean, s0, ops[..k]), p) == FileAt(Run(clean, s0, ops), p)
  }

  function FileAt(s: State, p: string): Option<File> {
    if p in s.files then Some(s.files[p]) else None
  }

  lemma SteadyStep(clean: string -> string, s0: State, ops: seq<Op>, op: Op, j: nat, p: string)
    requires Steady(clean, s0, ops, j, p) && j <= |ops|
    requires FileAt(Run(clean, s0, ops), p) == FileAt(Step(clean, Run(clean, s0, ops), op).state, p)
    ensures Steady(clean, s0, ops + [op], j, p)
  {
    hide Step;
    var ops' := ops + [op];
    assert Init(ops') == ops;
    forall k | j < k <= |ops'|
      ensures FileAt(Run(clean, s0, ops'[..k]), p) == FileAt(Run(clean, s0, ops'), p)
    {
      if k <= |ops| {
        assert ops'[..k] == ops[..k];
      } else {
        assert ops'[..k] == ops';
      }
    }
  }

  lemma SteadyNow(clean: string -> string, s0: State, ops: seq<Op>, p: string)
    requires ops != []
    ensures Steady(clean, s0, ops, |ops| - 1, p)
  {
    hide Run;
    assert ops[..|ops|] == ops;
  }

  lemma {:induction false} LastRecordInRange(clean: string -> string, s0: State, ops: seq<Op>, p: string)
    ensures var j := LastRecord(clean, s0, ops, p);
      j.Some? ==> j.value < |ops| && Records(clean, Run(clean, s0, ops[..j.value]), ops[j.value], p)
  {
    if ops != [] {
      hide Records, Step;
      LastRecordInRange(clean, s0, Init(ops), p);
      assert ops[..|ops| - 1] == Init(ops);
      var j := LastRecord(clean, s0, Init(ops), p);
      assert j.Some? ==> ops[..j.value] == Init(ops)[..j.value];
    }
  }

  lemma KeptStep(clean: string -> string, s0: State, ops: seq<Op>, op: Op, p: string)
    requires clean(p) == p && Kept(clean, s0, ops, p) && FreshStep(clean, Run(clean, s0, ops), op, p)
    ensures Kept(clean, s0, ops + [op], p)
  {
    hide Step, Records, Steady;
    var s, ops' := Run(clean, s0, ops), ops + [op];
    assert Init(ops') == ops;
    if Records(clean, s, op, p) {
      RecordingStep(clean, s, op, p);
      SteadyNow(clean, s0, ops', p);
    } else {
      OtherStep(clean, s, op, p);
      var s' := Step(clean, s, op).state;
      LastRecordInRange(clean, s0, ops, p);
      if p in s.states && p in s'.files && s.states[p].mtime == s'.files[p].mtime {
        SteadyStep(clean, s0, ops, op, LastRecord(clean, s0, ops, p).value, p);
      }
    }
  }

  lemma FreshInit(clean: string -> string, s0: State, ops: seq<Op>, p: string)
    requires ops != [] && Fresh(clean, s0, ops, p)
    ensures Fresh(clean, s0, Init(ops), p) && FreshStep(clean, Run(clean, s0, Init(ops)), Last(ops), p)
  {
    hide FreshStep, Run;
    assert forall k :: 0 <= k < |Init(ops)| ==> Init(ops)[..k] == ops[..k] && Init(ops)[k] == ops[k];
    assert ops[..|ops| - 1] == Init(ops);
  }

  lemma {:induction false} RunKeeps(clean: string -> string, s0: State, ops: seq<Op>, p: string)
    requires clean(p) == p && s0.states == map[] && Fresh(clean, s0, ops, p)
    ensures Kept(clean, s0, ops, p)
  {
    hide Kept, FreshStep, Run, Fresh;
    if ops == [] {
      NothingKept(clean, s0, p);
    } else {
      FreshInit(clean, s0, ops, p);
      RunKeeps(clean, s0, Init(ops), p);
      KeptStep(clean, s0, Init(ops), Last(ops), p);
      assert Init(ops) + [Last(ops)] == ops;
    }
  }

  lemma NothingKept(clean: string -> string, s0: State, p: string)
    requires s0.states == map[]
    ensures Kept(clean, s0, [], p)
  {
    hide Step, Records, Steady;
  }

  /** On an existing file a write or edit that succeeds has passed the guard. */
  lemma SuccessPassesGuard(clean: string -> string, s: State, op: Op, p: string)
    requires (op.Write? || op.Edit?) && p == clean(op.path) && p in s.files && Step(clean, s, op).result.Done?
    ensures p in s.states && s.states[p].mtime == s.files[p].mtime
    ensures var s' := Step(clean, s, op).state;
      p in s'.files && s'.states == s.states[p := s'.files[p]] && s'.files == s.files[p := s'.files[p]]
    ensures var text := Step(clean, s, op).state.files[p].content;
      && (op.Write? ==> text == op.content)
      && (op.Edit? ==> EditText(s.files[p].content, op.oldStr, op.newStr, op.replaceAll) == NewContent(text))
  {
    hide EditText;
  }

  /**
   Run safety: in any run where changes behind the tools' back give fresh times, a successful write or
   edit of an existing file replaces exactly the content that was last recorded for its path. The path
   was recorded at some earlier step, by reading it under this name or writing it, and at no point
   since then was the file anything else. An edit's result is computed from that same content.
   */
  lemma OnlyKnownContentIsReplaced(clean: string -> string, s0: State, ops: seq<Op>, op: Op) returns (j: nat)
    requires op.Write? || op.Edit?
    requires clean(clean(op.path)) == clean(op.path) && s0.states == map[] && Fresh(clean, s0, ops, clean(op.path))
    requires clean(op.path) in Run(clean, s0, ops).files && Step(clean, Run(clean, s0, ops), op).result.Done?
    ensures var p, s := clean(op.path), Run(clean, s0, ops);
      && j < |ops| && Records(clean, Run(clean, s0, ops[..j]), ops[j], p)
      && Steady(clean, s0, ops, j, p)
      && p in s.states && s.files[p] == s.states[p]
      && (op.Edit? ==> EditText(s.states[p].content, op.oldStr, op.newStr, op.replaceAll)
                       == NewContent(Step(clean, s, op).state.states[p].content))
  {
    hide Run, Records, Steady, EditText, LastRecord;
    var p, s := clean(op.path), Run(clean, s0, ops);
    RunKeeps(clean, s0, ops, p);
    SuccessPassesGuard(clean, s, op, p);
    LastRecordInRange(clean, s0, ops, p);
    j := LastRecord(clean, s0, ops, p).value;
  }

  /** The first reason, in order, for which an operation is refused before anything is written. */
  function Reason(clean: string -> string, s: State, op: Op): Option<Error> {
    if op.Outside? then None
    else
      var p := clean(op.path);
      if op.path == "" then Some(BadInput)
      else if op.Edit? && op.oldStr == op.newStr then Some(Identical)
      else if !op.Write? && p !in s.files then Some(NotFound)
      else if op.Read? || p !in s.files then None
      else if p !in s.states then Some(NotRead)
      else if s.states[p].mtime != s.files[p].mtime then Some(Stale)
      else None
  }

  /**
   What every operation comes to: refused for the first reason there is, with nothing changed; or because its text
   cannot be edited, with nothing changed; or because the disk fails, with the file as that left it; else done.
   */
  lemma OperationMeaning(clean: string -> string, s: State, op: Op)
    requires !op.Outside?
    ensures var r, reason, p := Step(clean, s, op), Reason(clean, s, op), clean(op.path);
      && (reason.Some? ==> r == Answer(s, Refused(reason.value)))
      && (reason.None? && op.Read? ==>
            p in s.files && r == Answer(State(s.files, s.states[op.path := s.files[p]]), Done))
      && (reason.None? && op.Write? && !op.dirMade ==> r == Answer(s, Refused(IoFailed)))
      && (reason.None? && op.Write? && op.dirMade ==> Stored(s, p, op.content, op.io, r))
      && (reason.None? && op.Edit? ==>
            && p in s.files
            && var text := EditText(s.files[p].content, op.oldStr, op.newStr, op.replaceAll);
               if text.Cannot? then r == Answer(s, Refused(text.error)) else Stored(s, p, text.text, op.io, r))
  {
    hide EditText;
  }

  /** The text is on disk and recorded with its new time, or the disk failed and nothing is recorded. */
  predicate Stored(s: State, p: string, text: string, io: Io, r: Answer) {
    if io.Written? then
      r == Answer(State(s.files[p := File(text, io.mtime)], s.states[p := File(text, io.mtime)]), Done)
    else
      && r.result == Refused(IoFailed) && r.state.states == s.states
      && r.state.files == if io.left.Some? then s.files[p := io.left.value] else s.files - {p}
  }

  /** Writing an existing file succeeds exactly if its recorded time is its current one and the disk agrees. */
  lemma WriteSucceedsIff(clean: string -> string, s: State, path: string, content: string, dirMade: bool, io: Io)
    requires path != "" && clean(path) in s.files
    ensures Step(clean, s, Write(path, content, dirMade, io)).result.Done? <==>
            && clean(path) in s.states && s.states[clean(path)].mtime == s.files[clean(path)].mtime
            && dirMade && io.Written?
  {
  }

  /**
   Reading records the path as given, while writing and editing look up the cleaned path: after reading a
   file the guard lets it be changed, under any spelling, exactly if it was read under its cleaned path or
   that path has its current time recorded anyway.
   */
  lemma ReadThenChangeIff(clean: string -> string, s: State, path: string, op: Op)
    requires path != "" && clean(path) in s.files
    requires (op.Write? || op.Edit?) && op.path != "" && clean(op.path) == clean(path)
    ensures var p, s1 := clean(path), Step(clean, s, Read(path)).state;
      var passes := clean(path) == path || (p in s.states && s.states[p].mtime == s.files[p].mtime);
      && (op.Write? ==> (Step(clean, s1, op).result.Done? <==> passes && op.dirMade && op.io.Written?))
      && (op.Edit? ==>
            (Step(clean, s1, op).result.Done? <==>
             && passes && op.oldStr != op.newStr && op.io.Written?
             && EditText(s.files[p].content, op.oldStr, op.newStr, op.replaceAll).NewContent?))
  {
    hide EditText;
  }

  /** Reading under another spelling alone does not allow a write or an edit, under any spelling. */
  lemma OtherSpellingDoesNotCount(clean: string -> string, s: State, path: string, op: Op)
    requires path != "" && clean(path) != path && clean(path) in s.files && clean(path) !in s.states
    requires (op.Write? || (op.Edit? && op.oldStr != op.newStr)) && op.path != "" && clean(op.path) == clean(path)
    ensures var s1 := Step(clean, s, Read(path));
      && s1.result.Done? && path in s1.state.states
      && Step(clean, s1.state, op) == Answer(s1.state, Refused(NotRead))
  {
    hide EditText;
  }

  /** The assumption on times is needed: a change that keeps the recorded time is overwritten unseen. */
  lemma SameTimeGoesUnseen(clean: string -> string, s: State, p: string, unseen: string, content: string, mtime: int)
    requires p != "" && clean(p) == p && p in s.files && p in s.states && s.states[p] == s.files[p]
    ensures var s1 := Step(clean, s, Outside(p, Some(File(unseen, s.files[p].mtime)))).state;
      && s1.files[p].content == unseen && s1.states[p] == s.states[p]
      && Step(clean, s1, Write(p, content, true, Written(mtime))).result.Done?
  {
  }

  // ---- What replacing does ----

  /** Pieces of a text with a separator between neighbours. */
  function JoinWith(pieces: seq<string>, sep: string): string
    requires pieces != []
  {
    if |pieces| == 1 then pieces[0] else pieces[0] + sep + JoinWith(pieces[1..], sep)
  }

  /** The text between the occurrences found from left to right. */
  function Pieces(s: string, sub: string): (ps: seq<string>)
    requires sub != ""
    ensures ps != []
  {
    if |s| < |sub| then [s]
    else if sub <= s then [""] + Pieces(s[|sub|..], sub)
    else
      var rest := Pieces(s[1..], sub);
      [[s[0]] + rest[0]] + rest[1..]
  }

  /** Replacing all occurrences keeps the text between them, and there is one more piece than occurrences. */
  lemma {:induction false} ReplaceAllMeaning(s: string, sub: string, repl: string)
    requires sub != ""
    ensures var ps := Pieces(s, sub);
      && |ps| == Count(s, sub) + 1
      && s == JoinWith(ps, sub)
      && Replace(s, sub, repl, Count(s, sub)) == JoinWith(ps, repl)
    decreases |s|
  {
    if |s| < |sub| {
    } else if sub <= s {
      ReplaceAllMeaning(s[|sub|..], sub, repl);
      assert s == "" + sub + s[|sub|..];
      assert Pieces(s, sub)[1..] == Pieces(s[|sub|..], sub);
      assert "" + repl + JoinWith(Pieces(s[|sub|..], sub), repl) == repl + JoinWith(Pieces(s[|sub|..], sub), repl);
    } else {
      ReplaceAllMeaning(s[1..], sub, repl);
      var rest := Pieces(s[1..], sub);
      assert s == [s[0]] + s[1..];
      JoinPrefix([s[0]], rest, sub);
      JoinPrefix([s[0]], rest, repl);
      if Count(s, sub) == 0 {
        assert Replace(s[1..], sub, repl, 0) == s[1..];
      }
    }
  }

  lemma JoinPrefix(x: string, ps: seq<string>, sep: string)
    requires ps != []
    ensures JoinWith([x + ps[0]] + ps[1..], sep) == x + JoinWith(ps, sep)
  {
    var qs := [x + ps[0]] + ps[1..];
    if |ps| > 1 {
      assert qs[1..] == ps[1..];
      assert x + ps[0] + sep + JoinWith(ps[1..], sep) == x + (ps[0] + sep + JoinWith(ps[1..], sep));
    }
  }

  predicate OccursAt(s: string, sub: string, i: int) {
    0 <= i <= |s| - |sub| && s[i..i + |sub|] == sub
  }

  lemma Shift(s: string, sub: string, m: nat)
    requires s != ""
    ensures m > 0 ==> (OccursAt(s, sub, m) <==> OccursAt(s[1..], sub, m - 1))
    ensures OccursAt(s, sub, 0) <==> sub <= s
  {
    if 0 < m <= |s| - |sub| {
      assert s[1..][m - 1..m - 1 + |sub|] == s[m..m + |sub|];
    }
    if |sub| <= |s| {
      assert s[0..0 + |sub|] == s[..|sub|];
    }
  }

  lemma ShiftText(s: string, sub: string, repl: string, k: nat)
    requires s != "" && k + |sub| <= |s| - 1
    ensures [s[0]] + (s[1..][..k] + repl + s[1..][k + |sub|..]) == s[..k + 1] + repl + s[k + 1 + |sub|..]
  {
    assert [s[0]] + s[1..][..k] == s[..k + 1];
    assert s[1..][k + |sub|..] == s[k + 1 + |sub|..];
  }

  /** Replacing one occurrence replaces the leftmost. */
  lemma {:induction false} ReplaceFirstMeaning(s: string, sub: string, repl: string) returns (i: nat)
    requires sub != "" && Count(s, sub) > 0
    ensures OccursAt(s, sub, i) && forall k :: 0 <= k < i ==> !OccursAt(s, sub, k)
    ensures Replace(s, sub, repl, 1) == s[..i] + repl + s[i + |sub|..]
    decreases |s|
  {
    hide OccursAt;
    if sub <= s {
      i := 0;
      Shift(s, sub, 0);
      OccursInRange(s, sub, 0);
      assert Replace(s[|sub|..], sub, repl, 0) == s[|sub|..];
      assert s[..0] + repl + s[|sub|..] == repl + s[|sub|..];
    } else {
      var k := ReplaceFirstMeaning(s[1..], sub, repl);
      i := k + 1;
      Shift(s, sub, i);
      OccursInRange(s, sub, i);
      OccursInRange(s[1..], sub, k);
      ShiftText(s, sub, repl, k);
      forall m: nat | m < i ensures !OccursAt(s, sub, m) {
        Shift(s, sub, m);
      }
    }
  }

  lemma OccursInRange(s: string, sub: string, i: int)
    requires OccursAt(s, sub, i)
    ensures 0 <= i && i + |sub| <= |s|
  {
  }

  /** Counting finds an occurrence exactly if there is one. */
  lemma CountIff(s: string, sub: string)
    requires sub != ""
    ensures Count(s, sub) > 0 <==> exists i :: OccursAt(s, sub, i)
  {
    hide OccursAt, Count;
    if Count(s, sub) > 0 {
      var i := ReplaceFirstMeaning(s, sub, "");
    }
    if i :| OccursAt(s, sub, i) {
      OccursInRange(s, sub, i);
      OccurrenceCounts(s, sub, i);
    }
  }

  lemma {:induction false} OccurrenceCounts(s: string, sub: string, i: nat)
    requires sub != "" && OccursAt(s, sub, i)
    ensures Count(s, sub) > 0
    decreases |s|
  {
    hide OccursAt;
    OccursInRange(s, sub, i);
    Shift(s, sub, i);
    if !(sub <= s) {
      OccurrenceCounts(s[1..], sub, i - 1);
    }
  }

  /** None of the pieces holds an occurrence: they are what lies between them. */
  lemma {:induction false} PiecesHoldNone(s: string, sub: string, k: nat, i: int)
    requires sub != "" && k < |Pieces(s, sub)|
    ensures !OccursAt(Pieces(s, sub)[k], sub, i)
    decreases |s|
  {
    hide OccursAt;
    if |s| < |sub| {
      TooShort(s, sub, i);
    } else if sub <= s {
      if k > 0 {
        PiecesHoldNone(s[|sub|..], sub, k - 1, i);
      } else {
        TooShort("", sub, i);
      }
    } else {
      var rest := Pieces(s[1..], sub);
      if k > 0 {
        PiecesHoldNone(s[1..], sub, k, i);
      } else {
        PiecesHoldNone(s[1..], sub, 0, i - 1);
        FrontOfFirst(s, sub);
        NotInFirst(s, rest[0], sub, i);
      }
    }
  }

  lemma TooShort(s: string, sub: string, i: int)
    requires |s| < |sub|
    ensures !OccursAt(s, sub, i)
  {
  }

  lemma FrontOfFirst(s: string, sub: string)
    requires sub != ""
    ensures Pieces(s, sub)[0] <= s
    decreases |s|
  {
    if |s| >= |sub| && !(sub <= s) {
      FrontOfFirst(s[1..], sub);
    }
  }

  lemma NotInFirst(s: string, piece: string, sub: string, i: int)
    requires s != "" && !(sub <= s) && [s[0]] + piece <= s && !OccursAt(piece, sub, i - 1)
    ensures !OccursAt([s[0]] + piece, sub, i)
  {
    var whole := [s[0]] + piece;
    if 0 < i <= |whole| - |sub| {
      assert whole[i..i + |sub|] == piece[i - 1..i - 1 + |sub|];
    } else if i == 0 && |sub| <= |whole| {
      assert whole[0..|sub|] == s[..|sub|];
    }
  }

  ghost predicate IsSplitAt(s: string, sub: string, ps: seq<string>) {
    ps != [] && s == JoinWith(ps, sub) && forall k, i :: 0 <= k < |ps| ==> !OccursAt(ps[k], sub, i)
  }

  function NewlineLike(original: string, s: string): string {
    if original != "" && original[|original| - 1] == '\n' && (s == "" || s[|s| - 1] != '\n') then s + "\n" else s
  }

  /** What an edit makes of the pieces between the occurrences of its text: refuse, or join them anew. */
  function Rejoined(content: string, ps: seq<string>, newStr: string, replaceAll: bool): Edited
    requires ps != []
  {
    if |ps| == 1 then Cannot(NoMatch)
    else if |ps| > 2 && !replaceAll then Cannot(Ambiguous(|ps| - 1))
    else NewContent(NewlineLike(content, JoinWith(ps, newStr)))
  }

  lemma {:induction false} ReplaceInMeaning(s: string, sub: string, repl: string, replaceAll: bool)
    requires sub != ""
    ensures var ps := Pieces(s, sub);
      && IsSplitAt(s, sub, ps)
      && ReplaceIn(s, sub, repl, replaceAll) ==
           (if |ps| == 1 then Cannot(NoMatch)
            else if |ps| > 2 && !replaceAll then Cannot(Ambiguous(|ps| - 1))
            else NewContent(JoinWith(ps, repl)))
  {
    hide OccursAt, Count, Replace, Pieces;
    ReplaceAllMeaning(s, sub, repl);
    forall k, i | 0 <= k < |Pieces(s, sub)| ensures !OccursAt(Pieces(s, sub)[k], sub, i) {
      PiecesHoldNone(s, sub, k, i);
    }
  }

  /** Curly quotes count as straight ones of the same kind, and no other character is changed. */
  lemma QuotesMeaning(s: string)
    ensures |NormalizeQuotes(s)| == |s|
    ensures forall i :: 0 <= i < |s| ==>
      NormalizeQuotes(s)[i] ==
        if s[i] in "\U{2018}\U{2019}" then '\'' else if s[i] in "\U{201C}\U{201D}" then '"' else s[i]
  {
  }

  /**
   Any edit: the file, as it is or else with its quotes straightened, is split at every occurrence of the text.
   With none the edit is refused, with several unless all are to be replaced; otherwise the pieces are joined by
   the new text, and a final newline stays. An empty text only fills an empty file.
   */
  lemma EditMeaning(content: string, oldStr: string, newStr: string, replaceAll: bool) returns (ps: seq<string>)
    ensures oldStr == "" ==>
      EditText(content, oldStr, newStr, replaceAll) == if content == "" then NewContent(newStr) else Cannot(EmptyOld)
    ensures oldStr != "" ==>
      var exact := exists i :: OccursAt(content, oldStr, i);
      && (exact ==> IsSplitAt(content, oldStr, ps)
                    && EditText(content, oldStr, newStr, replaceAll) == Rejoined(content, ps, newStr, replaceAll))
      && (!exact ==> IsSplitAt(NormalizeQuotes(content), NormalizeQuotes(oldStr), ps)
                     && EditText(content, oldStr, newStr, replaceAll)
                        == Rejoined(content, ps, NormalizeQuotes(newStr), replaceAll))
  {
    hide Count, Pieces, OccursAt, NormalizeQuotes, ReplaceIn, IsSplitAt, JoinWith;
    ps := [];
    if oldStr != "" {
      NormalizeKeepsLength(oldStr);
      CountIff(content, oldStr);
      if Count(content, oldStr) > 0 {
        ps := Pieces(content, oldStr);
        ReplaceInMeaning(content, oldStr, newStr, replaceAll);
      } else {
        var c, o, n := NormalizeQuotes(content), NormalizeQuotes(oldStr), NormalizeQuotes(newStr);
        ps := Pieces(c, o);
        ReplaceInMeaning(c, o, n, replaceAll);
      }
    }
  }

  /** An edit finds nothing exactly if the text occurs neither as given nor up to quote style. */
  lemma EditFindsNothingIff(content: string, oldStr: string, newStr: string, replaceAll: bool)
    requires oldStr != ""
    ensures EditText(content, oldStr, newStr, replaceAll) == Cannot(NoMatch) <==>
            && (forall i :: !OccursAt(content, oldStr, i))
            && forall i :: !OccursAt(NormalizeQuotes(content), NormalizeQuotes(oldStr), i)
  {
    hide Count, Replace, OccursAt, NormalizeQuotes, KeepNewline;
    assert NormalizeQuotes(oldStr) != "" by { NormalizeKeepsLength(oldStr); }
    CountIff(content, oldStr);
    CountIff(NormalizeQuotes(content), NormalizeQuotes(oldStr));
  }

  /**
   An edit that names its text exactly once replaces that one occurrence and nothing else, and never
   loses a final newline.
   */
  lemma UniqueEditMeaning(content: string, oldStr: string, newStr: string, replaceAll: bool) returns (i: nat)
    requires oldStr != "" && Count(content, oldStr) == 1
    ensures OccursAt(content, oldStr, i)
    ensures var r := content[..i] + newStr + content[i + |oldStr|..];
      EditText(content, oldStr, newStr, replaceAll)
      == NewContent(if EndsLine(content) && !EndsLine(r) then r + "\n" else r)
  {
    hide Count, Replace, OccursAt;
    i := ReplaceFirstMeaning(content, oldStr, newStr);
    OccursInRange(content, oldStr, i);
  }

  /** A file that ends in a newline still does after any edit. */
  lemma EditKeepsFinalNewline(content: string, oldStr: string, newStr: string, replaceAll: bool)
    requires EndsLine(content) && EditText(content, oldStr, newStr, replaceAll).NewContent?
    ensures EndsLine(EditText(content, oldStr, newStr, replaceAll).text)
  {
    hide Count, Replace, NormalizeQuotes;
  }
}
