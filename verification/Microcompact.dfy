/** Time-based micro-compaction: clear the contents of old tool results, keep everything else. */
module Microcompact {
  import opened Messages
  import opened CompactOptions
  import opened Tokens

  const CLEARED := "[Old tool result content cleared]"

  predicate IsCompactable(name: string) {
    name == "bash" || name == "file_read"
  }

  function CompactableIn(bs: seq<Block>): seq<string> {
    if bs == [] then []
    else CompactableIn(Init(bs)) + (if Last(bs).ToolUse? && IsCompactable(Last(bs).name) then [Last(bs).id] else [])
  }

  function CompactableIds(ms: seq<Message>): seq<string> {
    if ms == [] then []
    else CompactableIds(Init(ms)) + (if Last(ms).role.Assistant? then CompactableIn(Last(ms).content) else [])
  }

  method CollectCompactableToolIDs(ms: seq<Message>) returns (ids: seq<string>)
    ensures ids == CompactableIds(ms)
  {
    ids := [];
    for i := 0 to |ms|
      invariant ids == CompactableIds(ms[..i])
    {
      assert Init(ms[..i + 1]) == ms[..i];
      if !ms[i].role.Assistant? {
        continue;
      }
      ghost var before := ids;
      for j := 0 to |ms[i].content|
        invariant ids == before + CompactableIn(ms[i].content[..j])
      {
        assert Init(ms[i].content[..j + 1]) == ms[i].content[..j];
        if ms[i].content[j].ToolUse? && IsCompactable(ms[i].content[j].name) {
          ids := ids + [ms[i].content[j].id];
        }
      }
      assert ms[i].content[..|ms[i].content|] == ms[i].content;
    }
    assert ms[..|ms|] == ms;
  }

  // ---- Clearing ----

  predicate Clears(keep: set<string>, b: Block) {
    b.ToolResult? && b.toolUseId !in keep && b.content != CLEARED
  }

  function ClearBlock(keep: set<string>, b: Block): Block {
    if Clears(keep, b) then b.(content := CLEARED) else b
  }

  function ClearContent(keep: set<string>, bs: seq<Block>): seq<Block> {
    seq(|bs|, j requires 0 <= j < |bs| => ClearBlock(keep, bs[j]))
  }

  predicate Touches(keep: set<string>, m: Message) {
    m.role.User? && exists j :: 0 <= j < |m.content| && Clears(keep, m.content[j])
  }

  /** A touched message is rebuilt from its role, content and timestamp; its metadata is dropped. */
  function ClearMessage(keep: set<string>, m: Message): Message {
    if Touches(keep, m) then NewMessage(m.role, m.timestamp).(content := ClearContent(keep, m.content)) else m
  }

  function ClearAll(keep: set<string>, ms: seq<Message>): seq<Message> {
    seq(|ms|, i requires 0 <= i < |ms| => ClearMessage(keep, ms[i]))
  }

  function SavedIn(keep: set<string>, bs: seq<Block>): nat {
    if bs == [] then 0
    else SavedIn(keep, Init(bs)) + (if Clears(keep, Last(bs)) then BlockTokens(Last(bs)) else 0)
  }

  function Saved(keep: set<string>, ms: seq<Message>): nat {
    if ms == [] then 0
    else Saved(keep, Init(ms)) + (if Last(ms).role.User? then SavedIn(keep, Last(ms).content) else 0)
  }

  function KeepSet(ids: seq<string>, keepRecent: int): set<string> {
    var keep := Max(1, keepRecent);
    if keep >= |ids| then ToSet(ids) else ToSet(ids[|ids| - keep..])
  }

  datatype Outcome = Unchanged | Changed(messages: seq<Message>, tokensSaved: nat)

  function Apply(ms: seq<Message>, keepRecent: int): Outcome {
    var ids := CompactableIds(ms);
    if ids == [] || Max(1, keepRecent) >= |ids| then Unchanged
    else
      var keep := KeepSet(ids, keepRecent);
      if exists i :: 0 <= i < |ms| && Touches(keep, ms[i])
      then Changed(ClearAll(keep, ms), Saved(keep, ms))
      else Unchanged
  }

  method ClearOne(m: Message, keep: set<string>) returns (r: Message, changed: bool, saved: nat)
    requires m.role.User?
    ensures r == ClearMessage(keep, m)
    ensures changed == Touches(keep, m)
    ensures saved == SavedIn(keep, m.content)
  {
    var newContent := new Block[|m.content|](j requires 0 <= j < |m.content| => m.content[j]);
    changed, saved := false, 0;
    for j := 0 to newContent.Length
      invariant forall k :: 0 <= k < j ==> newContent[k] == ClearBlock(keep, m.content[k])
      invariant forall k :: j <= k < newContent.Length ==> newContent[k] == m.content[k]
      invariant changed <==> exists k :: 0 <= k < j && Clears(keep, m.content[k])
      invariant saved == SavedIn(keep, m.content[..j])
    {
      assert Init(m.content[..j + 1]) == m.content[..j];
      if Clears(keep, newContent[j]) {
        saved := saved + BlockTokens(newContent[j]);
        newContent[j] := newContent[j].(content := CLEARED);
        changed := true;
      }
    }
    assert m.content[..|m.content|] == m.content;
    if changed {
      r := NewMessage(m.role, m.timestamp).(content := newContent[..]);
      assert newContent[..] == ClearContent(keep, m.content);
    } else {
      r := m;
    }
  }

  method CollectKeepSet(ids: seq<string>, keep: nat) returns (keepSet: set<string>)
    requires keep < |ids|
    ensures keepSet == ToSet(ids[|ids| - keep..])
  {
    keepSet := {};
    for k := |ids| - keep to |ids|
      invariant keepSet == ToSet(ids[|ids| - keep..k])
    {
      assert ids[|ids| - keep..k + 1] == ids[|ids| - keep..k] + [ids[k]];
      keepSet := keepSet + {ids[k]};
    }
    assert ids[|ids| - keep..|ids|] == ids[|ids| - keep..];
  }

  method ClearMessages(ms: seq<Message>, keepSet: set<string>)
    returns (messages: seq<Message>, changed: bool, tokensSaved: nat)
    ensures messages == ClearAll(keepSet, ms)
    ensures changed <==> exists i :: 0 <= i < |ms| && Touches(keepSet, ms[i])
    ensures tokensSaved == Saved(keepSet, ms)
  {
    hide ClearMessage, Touches;
    changed, tokensSaved := false, 0;
    var result := new Message[|ms|](i requires 0 <= i < |ms| => ms[i]);
    for i := 0 to |ms|
      invariant forall k :: 0 <= k < i ==> result[k] == ClearMessage(keepSet, ms[k])
      invariant changed <==> exists k :: 0 <= k < i && Touches(keepSet, ms[k])
      invariant tokensSaved == Saved(keepSet, ms[..i])
    {
      assert Init(ms[..i + 1]) == ms[..i];
      if !ms[i].role.User? || |ms[i].content| == 0 {
        Untouched(keepSet, ms[i]);
        result[i] := ms[i];
        continue;
      }
      var m, touched, saved := ClearOne(ms[i], keepSet);
      tokensSaved := tokensSaved + saved;
      if touched {
        changed := true;
      }
      result[i] := m;
    }
    assert ms[..|ms|] == ms;
    messages := result[..];
    assert messages == ClearAll(keepSet, ms);
  }

  lemma Untouched(keep: set<string>, m: Message)
    requires !m.role.User? || m.content == []
    ensures ClearMessage(keep, m) == m && !Touches(keep, m)
    ensures SavedIn(keep, []) == 0
  {
  }

  method ApplyTimeBasedMicrocompact(ms: seq<Message>, keepRecent: int) returns (r: Outcome)
    ensures r == Apply(ms, keepRecent)
  {
    hide CompactableIds, Saved, ClearAll, ToSet;
    var ids := CollectCompactableToolIDs(ms);
    if |ids| == 0 {
      return Unchanged;
    }
    var keep := Max(1, keepRecent);
    if keep >= |ids| {
      return Unchanged;
    }
    var keepSet := CollectKeepSet(ids, keep);
    var messages, changed, tokensSaved := ClearMessages(ms, keepSet);
    r := if changed then Changed(messages, tokensSaved) else Unchanged;
  }

  // ---- The trigger ----

  function LastAssistant(ms: seq<Message>): Option<Message> {
    if ms == [] then None
    else if Last(ms).role.Assistant? then Some(Last(ms))
    else LastAssistant(Init(ms))
  }

  method FindLastAssistant(ms: seq<Message>) returns (r: Option<Message>)
    ensures r == LastAssistant(ms)
  {
    var i := |ms|;
    assert ms[..|ms|] == ms;
    while i > 0
      invariant 0 <= i <= |ms|
      invariant LastAssistant(ms) == LastAssistant(ms[..i])
    {
      i := i - 1;
      assert Init(ms[..i + 1]) == ms[..i];
      if ms[i].role.Assistant? {
        return Some(ms[i]);
      }
    }
    return None;
  }

  function Gap(opts: Options): real {
    if opts.timeBasedGap == 0.0 then DEFAULT_GAP else opts.timeBasedGap
  }

  function Keep(opts: Options): int {
    if opts.timeBasedKeep == 0 then DEFAULT_KEEP else opts.timeBasedKeep
  }

  /** Timestamps count seconds; the gap is in minutes. */
  predicate Triggered(ms: seq<Message>, now: int, opts: Options) {
    var last := LastAssistant(ms);
    && !opts.disableTimeBased
    && last.Some?
    && last.value.timestamp != 0
    && (now - last.value.timestamp) as real / 60.0 >= Gap(opts)
  }

  function Micro(ms: seq<Message>, now: int, opts: Options): Outcome {
    if Triggered(ms, now, opts) then Apply(ms, Keep(opts)) else Unchanged
  }

  function After(ms: seq<Message>, o: Outcome): seq<Message> {
    if o.Changed? then o.messages else ms
  }

  method MicrocompactMessages(ms: seq<Message>, now: int, opts: Options) returns (r: Outcome)
    ensures r == Micro(ms, now, opts)
  {
    if opts.disableTimeBased {
      return Unchanged;
    }
    var last := FindLastAssistant(ms);
    if last.None? || last.value.timestamp == 0 {
      return Unchanged;
    }
    if (now - last.value.timestamp) as real / 60.0 < Gap(opts) {
      return Unchanged;
    }
    r := ApplyTimeBasedMicrocompact(ms, Keep(opts));
  }

  // ---- What clearing promises ----

  /** The same block, or the same tool result with its content cleared. */
  predicate SameOrCleared(before: Block, after: Block) {
    after == before || (before.ToolResult? && after == before.(content := CLEARED))
  }

  predicate SameShape(before: Message, after: Message) {
    && after.role == before.role
    && |after.content| == |before.content|
    && forall j :: 0 <= j < |before.content| ==> SameOrCleared(before.content[j], after.content[j])
  }

  /** Message by message the same roles, block kinds, ids and order; only result contents may differ. */
  ghost predicate SameTranscript(before: seq<Message>, after: seq<Message>) {
    |after| == |before| && forall i :: 0 <= i < |before| ==> SameShape(before[i], after[i])
  }

  lemma SameTranscriptTransitive(a: seq<Message>, b: seq<Message>, c: seq<Message>)
    requires SameTranscript(a, b) && SameTranscript(b, c)
    ensures SameTranscript(a, c)
  {
    forall i | 0 <= i < |a| ensures SameShape(a[i], c[i]) {
      assert SameShape(a[i], b[i]) && SameShape(b[i], c[i]);
      forall j | 0 <= j < |a[i].content| ensures SameOrCleared(a[i].content[j], c[i].content[j]) {
        assert SameOrCleared(a[i].content[j], b[i].content[j]);
        assert SameOrCleared(b[i].content[j], c[i].content[j]);
      }
    }
  }

  lemma {:induction false} SameIds(a: seq<Block>, b: seq<Block>)
    requires |a| == |b| && forall j :: 0 <= j < |a| ==> SameOrCleared(a[j], b[j])
    ensures UseIds(a) == UseIds(b) && ResultIds(a) == ResultIds(b) && ToolUsesOf(a) == ToolUsesOf(b)
    ensures CompactableIn(a) == CompactableIn(b)
  {
    if a != [] {
      SameIds(Init(a), Init(b));
      assert SameOrCleared(Last(a), Last(b));
    }
  }

  lemma ClearKeepsShape(ms: seq<Message>, keep: set<string>)
    ensures SameTranscript(ms, ClearAll(keep, ms))
  {
  }

  /** Clearing keeps roles, kinds, ids and order, and touches no message but the user's. */
  lemma ApplyKeepsShape(ms: seq<Message>, keepRecent: int)
    requires Apply(ms, keepRecent).Changed?
    ensures SameTranscript(ms, Apply(ms, keepRecent).messages)
    ensures forall i :: 0 <= i < |ms| && !ms[i].role.User? ==> Apply(ms, keepRecent).messages[i] == ms[i]
  {
  }

  /** Results of the last max(1, keep) compactable uses survive; every other result is cleared. */
  lemma ApplyClearsExactlyTheRest(ms: seq<Message>, keepRecent: int, i: nat, j: nat)
    requires Apply(ms, keepRecent).Changed?
    requires i < |ms| && ms[i].role.User? && j < |ms[i].content| && ms[i].content[j].ToolResult?
    ensures |Apply(ms, keepRecent).messages| == |ms| && j < |Apply(ms, keepRecent).messages[i].content|
    ensures var ids, b, b' := CompactableIds(ms), ms[i].content[j], Apply(ms, keepRecent).messages[i].content[j];
      Max(1, keepRecent) < |ids| &&
      if b.toolUseId in ids[|ids| - Max(1, keepRecent)..] then b' == b else b' == b.(content := CLEARED)
  {
    var keep := KeepSet(CompactableIds(ms), keepRecent);
    var b := ms[i].content[j];
    if Clears(keep, b) {
      assert Touches(keep, ms[i]);
    }
  }

  /** How many uses, at least one, keep their results. */
  function Kept(keepRecent: int): nat {
    if keepRecent > 1 then keepRecent else 1
  }

  /** A user's result, not cleared yet, of none of the last uses that keep theirs. */
  predicate IsStale(ms: seq<Message>, keepRecent: int, i: nat, j: nat) {
    var ids := CompactableIds(ms);
    && i < |ms| && ms[i].role.User? && j < |ms[i].content| && ms[i].content[j].ToolResult?
    && Kept(keepRecent) < |ids|
    && ms[i].content[j].toolUseId !in ids[|ids| - Kept(keepRecent)..]
    && ms[i].content[j].content != "[Old tool result content cleared]"
  }

  /**
   Exactly the stale results are cleared, and nothing is changed if there are none. A message without a stale
   result is left as it is; one with keeps its role, its time and its other blocks, and loses the rest.
   */
  lemma ApplyMeaning(ms: seq<Message>, keepRecent: int)
    ensures var r := Apply(ms, keepRecent);
      && (r.Changed? <==> exists i: nat, j: nat :: IsStale(ms, keepRecent, i, j))
      && (r.Changed? ==>
            && |r.messages| == |ms|
            && forall i: nat :: i < |ms| ==>
                 if exists j: nat :: IsStale(ms, keepRecent, i, j) then Rebuilt(ms, keepRecent, i, r.messages[i])
                 else r.messages[i] == ms[i])
  {
    hide CompactableIds;
    var ids := CompactableIds(ms);
    if Kept(keepRecent) < |ids| {
      var keep := KeepSet(ids, keepRecent);
      forall i: nat, j: nat | i < |ms| && j < |ms[i].content|
        ensures IsStale(ms, keepRecent, i, j) <==> ms[i].role.User? && Clears(keep, ms[i].content[j])
      {
      }
      forall i: nat | i < |ms| ensures Touches(keep, ms[i]) <==> exists j: nat :: IsStale(ms, keepRecent, i, j) {
      }
    }
  }

  predicate Rebuilt(ms: seq<Message>, keepRecent: int, i: nat, m: Message)
    requires i < |ms|
  {
    && m == NewMessage(ms[i].role, ms[i].timestamp).(content := m.content)
    && |m.content| == |ms[i].content|
    && forall j :: 0 <= j < |m.content| ==>
         m.content[j] == if IsStale(ms, keepRecent, i, j)
                         then ToolResult(ms[i].content[j].toolUseId, "[Old tool result content cleared]",
                                         ms[i].content[j].isError)
                         else ms[i].content[j]
  }

  lemma {:induction false} CompactableSame(a: seq<Message>, b: seq<Message>)
    requires SameTranscript(a, b)
    ensures CompactableIds(a) == CompactableIds(b)
  {
    if a != [] {
      assert SameShape(Last(a), Last(b));
      SameIds(Last(a).content, Last(b).content);
      assert forall i :: 0 <= i < |a| - 1 ==> SameShape(Init(a)[i], Init(b)[i]);
      CompactableSame(Init(a), Init(b));
    }
  }

  /** Clearing twice with the same setting changes nothing the second time. */
  lemma ApplyIdempotent(ms: seq<Message>, keepRecent: int)
    requires Apply(ms, keepRecent).Changed?
    ensures Apply(Apply(ms, keepRecent).messages, keepRecent) == Unchanged
  {
    var keep := KeepSet(CompactableIds(ms), keepRecent);
    var after := ClearAll(keep, ms);
    ClearKeepsShape(ms, keep);
    CompactableSame(ms, after);
    forall i | 0 <= i < |after| ensures !Touches(keep, after[i]) {
      assert after[i] == ClearMessage(keep, ms[i]);
    }
  }

  // ---- Token accounting ----

  function ClearedIn(keep: set<string>, bs: seq<Block>): nat {
    if bs == [] then 0 else ClearedIn(keep, Init(bs)) + (if Clears(keep, Last(bs)) then 1 else 0)
  }

  function ClearedCount(keep: set<string>, ms: seq<Message>): nat {
    if ms == [] then 0
    else ClearedCount(keep, Init(ms)) + (if Last(ms).role.User? then ClearedIn(keep, Last(ms).content) else 0)
  }

  lemma ClearedTokens(keep: set<string>, b: Block)
    ensures BlockTokens(ClearBlock(keep, b)) == if Clears(keep, b) then Rough(CLEARED) else BlockTokens(b)
  {
    hide Rough;
  }

  lemma {:induction false} ContentAccounting(keep: set<string>, bs: seq<Block>)
    ensures ContentTokens(bs) + ClearedIn(keep, bs) * Rough(CLEARED)
         == ContentTokens(ClearContent(keep, bs)) + SavedIn(keep, bs)
  {
    hide Rough, BlockTokens;
    if bs != [] {
      ClearedTokens(keep, Last(bs));
      ContentAccounting(keep, Init(bs));
      assert Init(ClearContent(keep, bs)) == ClearContent(keep, Init(bs));
    }
  }

  lemma {:induction false} NothingToClear(keep: set<string>, bs: seq<Block>)
    requires forall j :: 0 <= j < |bs| ==> !Clears(keep, bs[j])
    ensures ClearedIn(keep, bs) == 0 && SavedIn(keep, bs) == 0
  {
    if bs != [] {
      NothingToClear(keep, Init(bs));
    }
  }

  lemma MessageAccounting(keep: set<string>, m: Message)
    requires m.role.User?
    ensures ContentTokens(m.content) + ClearedIn(keep, m.content) * Rough(CLEARED)
         == ContentTokens(ClearMessage(keep, m).content) + SavedIn(keep, m.content)
  {
    hide Rough, ClearedIn, SavedIn, ContentTokens;
    ContentAccounting(keep, m.content);
    if !Touches(keep, m) {
      NothingToClear(keep, m.content);
    }
  }

  lemma {:induction false} TranscriptAccounting(keep: set<string>, ms: seq<Message>)
    ensures Estimate(ms) + ClearedCount(keep, ms) * Rough(CLEARED)
         == Estimate(ClearAll(keep, ms)) + Saved(keep, ms)
  {
    hide Rough, ClearedIn, SavedIn, ContentTokens, ClearMessage;
    if ms != [] {
      TranscriptAccounting(keep, Init(ms));
      assert Init(ClearAll(keep, ms)) == ClearAll(keep, Init(ms));
      if Last(ms).role.User? {
        MessageAccounting(keep, Last(ms));
      } else {
        Untouched(keep, Last(ms));
      }
    }
  }

  /** The reported saving is the estimate before, minus the estimate after without its placeholders. */
  lemma SavingsAreExact(ms: seq<Message>, keepRecent: int)
    requires Apply(ms, keepRecent).Changed?
    ensures var o, keep := Apply(ms, keepRecent), KeepSet(CompactableIds(ms), keepRecent);
      Estimate(ms) == Estimate(o.messages) + o.tokensSaved - ClearedCount(keep, ms) * Rough(CLEARED)
  {
    hide Rough, ClearedCount, Estimate, Saved, ClearAll, KeepSet, CompactableIds;
    TranscriptAccounting(KeepSet(CompactableIds(ms), keepRecent), ms);
  }
}
