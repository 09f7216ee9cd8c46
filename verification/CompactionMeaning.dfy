/** When the transcript is compacted, how, and when it is refused: from the numbers and the outside alone. */
module CompactionMeaning {
  import opened Messages
  import opened QueryEvents
  import opened StreamParser
  import opened ParserProofs
  import opened CompactOptions
  import opened AutoCompact
  import opened QueryLoop
  import opened SessionMemoryCompact
  import Microcompact
  import Tokens

  // ---- Thresholds ----

  /** The window less the reserve for the summary; a window set by the user only ever narrows it. */
  lemma WindowMeaning(opts: Options)
    ensures opts.window <= 0 || opts.window >= 128000 ==> EffectiveWindow(opts) == 128000 - 4096
    ensures 0 < opts.window <= 128000 ==> EffectiveWindow(opts) == opts.window - 4096
  {
  }

  /**
   A positive override is the threshold. Otherwise it is 13000 below the window, but not negative; a percentage
   between 0 and 100 lowers it to the whole tokens in that share of the window, if that is less.
   */
  lemma ThresholdMeaning(opts: Options)
    ensures var t, window := Threshold(opts), EffectiveWindow(opts);
      var cap := if window >= 13000 then window - 13000 else 0;
      && (opts.thresholdOverride > 0 ==> t == opts.thresholdOverride)
      && (opts.thresholdOverride <= 0 ==> t <= cap)
      && (opts.thresholdOverride <= 0 && !(0.0 < opts.pctOverride <= 100.0) ==> t == cap)
      && (opts.thresholdOverride <= 0 && 0.0 < opts.pctOverride <= 100.0 && window >= 0 ==>
            && t as real * 100.0 <= window as real * opts.pctOverride
            && (t == cap || window as real * opts.pctOverride < (t + 1) as real * 100.0))
  {
    hide EffectiveWindow;
    if opts.thresholdOverride <= 0 && 0.0 < opts.pctOverride <= 100.0 && EffectiveWindow(opts) >= 0 {
      ShareMeaning(EffectiveWindow(opts), opts.pctOverride);
    }
  }

  lemma ShareMeaning(window: int, pct: real)
    requires window >= 0 && 0.0 < pct <= 100.0
    ensures var share := Truncate(window as real * (pct / 100.0));
      share as real * 100.0 <= window as real * pct < (share + 1) as real * 100.0
  {
    var x := window as real * (pct / 100.0);
    assert x * 100.0 == window as real * pct;
    assert x >= 0.0;
  }

  lemma LimitMeaning(opts: Options)
    ensures BlockingLimit(opts) == if opts.blockingOverride > 0 then opts.blockingOverride
                                   else EffectiveWindow(opts) - 3000
  {
  }

  // ---- Micro-compaction ----

  /** Message `i` is the last of the assistant's. */
  predicate IsLastAssistant(ms: seq<Message>, i: nat) {
    i < |ms| && ms[i].role.Assistant? && forall j :: i < j < |ms| ==> !ms[j].role.Assistant?
  }

  lemma {:induction false} LastAssistantMeaning(ms: seq<Message>)
    ensures var last := Microcompact.LastAssistant(ms);
      && (last.None? ==> forall i :: 0 <= i < |ms| ==> !ms[i].role.Assistant?)
      && forall i: nat :: IsLastAssistant(ms, i) ==> last == Some(ms[i])
    ensures Microcompact.LastAssistant(ms).Some? ==> exists i: nat :: IsLastAssistant(ms, i)
  {
    if ms != [] {
      LastAssistantMeaning(Init(ms));
      if Last(ms).role.Assistant? {
        assert IsLastAssistant(ms, |ms| - 1);
      } else {
        forall i: nat ensures IsLastAssistant(ms, i) <==> IsLastAssistant(Init(ms), i) {
          assert forall j :: 0 <= j < |ms| - 1 ==> Init(ms)[j] == ms[j];
        }
      }
    }
  }

  /** At least the gap, in minutes, has passed since the assistant last spoke at a known time. */
  ghost predicate LongSilence(ms: seq<Message>, now: int, opts: Options) {
    exists i: nat ::
      && IsLastAssistant(ms, i) && ms[i].timestamp != 0
      && (now - ms[i].timestamp) as real >= 60.0 * (if opts.timeBasedGap == 0.0 then 10.0 else opts.timeBasedGap)
  }

  /** Old results are cleared, all but the last few, exactly after a long silence and while that is switched on. */
  lemma MicroMeaning(ms: seq<Message>, now: int, opts: Options)
    ensures Microcompact.Micro(ms, now, opts) ==
      if !opts.disableTimeBased && LongSilence(ms, now, opts)
      then Microcompact.Apply(ms, if opts.timeBasedKeep == 0 then 3 else opts.timeBasedKeep)
      else Microcompact.Unchanged
  {
    hide Microcompact.Apply;
    LastAssistantMeaning(ms);
    var last := Microcompact.LastAssistant(ms);
    if last.Some? {
      var i: nat :| IsLastAssistant(ms, i);
      assert ms[i] == last.value;
      assert Microcompact.Triggered(ms, now, opts) <==> !opts.disableTimeBased && LongSilence(ms, now, opts) by {
        Minutes(now - ms[i].timestamp, Microcompact.Gap(opts));
      }
    }
  }

  lemma Minutes(seconds: int, gap: real)
    ensures seconds as real / 60.0 >= gap <==> seconds as real >= 60.0 * gap
  {
  }

  /** A use of a tool whose results may be cleared. */
  predicate MayBeCleared(b: Block) {
    b.ToolUse? && (b.name == "bash" || b.name == "file_read")
  }

  datatype Place = Place(message: nat, block: nat) {
    predicate Before(p: Place) {
      message < p.message || (message == p.message && block < p.block)
    }

    predicate In(ms: seq<Message>) {
      message < |ms| && ms[message].role.Assistant? && block < |ms[message].content|
      && MayBeCleared(ms[message].content[block])
    }
  }

  /** `ids` are those of the uses at `at`, which are all such uses of the assistant's in the order of the transcript. */
  ghost predicate ListsUses(ms: seq<Message>, ids: seq<string>, at: seq<Place>) {
    && |ids| == |at|
    && (forall k :: 0 <= k < |at| ==> at[k].In(ms) && ids[k] == ms[at[k].message].content[at[k].block].id)
    && (forall k, l :: 0 <= k < l < |at| ==> at[k].Before(at[l]))
    && forall p: Place :: p.In(ms) ==> p in at
  }

  lemma {:induction false} ContentLists(m: Message, n: nat, i: nat) returns (at: seq<Place>)
    requires n <= |m.content|
    ensures var ids := Microcompact.CompactableIn(m.content[..n]);
      && |ids| == |at|
      && (forall k :: 0 <= k < |at| ==>
            && at[k].message == i && at[k].block < n && MayBeCleared(m.content[at[k].block])
            && ids[k] == m.content[at[k].block].id)
      && (forall k, l :: 0 <= k < l < |at| ==> at[k].block < at[l].block)
      && forall j: nat :: j < n && MayBeCleared(m.content[j]) ==> Place(i, j) in at
    decreases n
  {
    at := [];
    if n > 0 {
      var b := m.content[n - 1];
      var before := ContentLists(m, n - 1, i);
      assert Init(m.content[..n]) == m.content[..n - 1] && Last(m.content[..n]) == b;
      at := if MayBeCleared(b) then before + [Place(i, n - 1)] else before;
      assert MayBeCleared(b) ==> at[|before|] == Place(i, n - 1);
      forall j: nat | j < n && MayBeCleared(m.content[j]) ensures Place(i, j) in at {
        assert j < n - 1 ==> Place(i, j) in before;
      }
    }
  }

  lemma ListsOneMore(ms: seq<Message>, ids: seq<string>, at: seq<Place>, m: Message, more: seq<string>,
                     added: seq<Place>)
    requires ListsUses(ms, ids, at) && |more| == |added|
    requires forall k :: 0 <= k < |added| ==>
      && m.role.Assistant? && added[k].message == |ms| && added[k].block < |m.content|
      && MayBeCleared(m.content[added[k].block]) && more[k] == m.content[added[k].block].id
    requires forall k, l :: 0 <= k < l < |added| ==> added[k].block < added[l].block
    requires forall j: nat :: m.role.Assistant? && j < |m.content| && MayBeCleared(m.content[j]) ==>
      Place(|ms|, j) in added
    ensures ListsUses(ms + [m], ids + more, at + added)
  {
    var all := at + added;
    forall p: Place | p.In(ms + [m]) ensures p in all {
      if p.message < |ms| {
        assert p.In(ms);
      } else {
        assert p == Place(|ms|, p.block);
      }
    }
    forall k | 0 <= k < |all| ensures all[k].In(ms + [m])
                                      && (ids + more)[k] == (ms + [m])[all[k].message].content[all[k].block].id {
      if k < |at| {
        assert all[k] == at[k];
      } else {
        assert all[k] == added[k - |at|];
      }
    }
    forall k, l | 0 <= k < l < |all| ensures all[k].Before(all[l]) {
      if l < |at| {
        assert at[k].Before(at[l]);
      } else if k >= |at| {
        assert added[k - |at|].block < added[l - |at|].block;
      } else {
        assert at[k].In(ms);
      }
    }
  }

  /** The uses that count for clearing: bash and file_read uses of the assistant's, all of them, in order. */
  lemma {:induction false} CompactableMeaning(ms: seq<Message>) returns (at: seq<Place>)
    ensures ListsUses(ms, Microcompact.CompactableIds(ms), at)
  {
    at := [];
    if ms != [] {
      hide Microcompact.CompactableIn, ListsUses, MayBeCleared;
      var m := Last(ms);
      var before := CompactableMeaning(Init(ms));
      var more: seq<Place> := [];
      if m.role.Assistant? {
        more := ContentLists(m, |m.content|, |ms| - 1);
        assert m.content[..|m.content|] == m.content;
      }
      var ids := if m.role.Assistant? then Microcompact.CompactableIn(m.content) else [];
      ListsOneMore(Init(ms), Microcompact.CompactableIds(Init(ms)), before, m, ids, more);
      at := before + more;
      assert Init(ms) + [m] == ms;
    } else {
      NoUses();
    }
  }

  lemma NoUses()
    ensures ListsUses([], [], [])
  {
  }

  // ---- The legacy summary ----

  /** Position `k` holds the first error event. */
  predicate IsFirstError(es: seq<StreamEvent>, k: nat) {
    k < |es| && es[k].StreamError? && forall j :: 0 <= j < k ==> !es[j].StreamError?
  }

  lemma {:induction false} SummaryCollects(es: seq<StreamEvent>, sofar: string)
    ensures var s := SummaryText(es, sofar);
      && (s.GotSummary? ==> s.text == sofar + DeltaText(es))
      && forall k: nat :: IsFirstError(es, k) ==> s == NoSummary("compact stream error: " + es[k].text)
  {
    if es == [] {
      assert sofar + "" == sofar;
    } else {
      var rest, more := es[1..], if es[0].AssistantText? then es[0].text else "";
      SummaryCollects(rest, sofar + more);
      assert sofar + "" == sofar;
      DeltaTextCons(es);
      assert sofar + more + DeltaText(rest) == sofar + (more + DeltaText(rest));
      forall k: nat | IsFirstError(es, k) ensures k == 0 || IsFirstError(rest, k - 1) {
        assert forall j :: 1 <= j < |es| ==> es[j] == rest[j - 1];
      }
    }
  }

  lemma {:induction false} DeltaTextCons(es: seq<StreamEvent>)
    requires es != []
    ensures DeltaText(es) == (if es[0].AssistantText? then es[0].text else "") + DeltaText(es[1..])
  {
    if |es| > 1 {
      DeltaTextCons(Init(es));
      assert Init(es)[1..] == Init(es[1..]) && Last(es) == Last(es[1..]);
    }
  }

  /** The summary is all the text of the stream, or the reason there is none: a refusal, its first error, no text. */
  lemma SummaryMeaning(reply: Reply)
    ensures var s := SummaryOf(reply);
      && (reply.Refused? ==> s == NoSummary(reply.error))
      && (reply.Streamed? && s.GotSummary? ==> s.text == DeltaText(reply.events) && s.text != "")
      && (reply.Streamed? ==>
            forall k: nat :: IsFirstError(reply.events, k) ==>
              s == NoSummary("compact stream error: " + reply.events[k].text))
  {
    if reply.Streamed? {
      SummaryCollects(reply.events, "");
      assert "" + DeltaText(reply.events) == DeltaText(reply.events);
    }
  }

  // ---- One attempt ----

  /** The count has reached the threshold, compaction is on, and the query is not itself compacting. */
  predicate MustCompact(ms: seq<Message>, source: Source, opts: Options) {
    && !opts.disableCompact && !opts.disableAutoCompact
    && source != SessionMemorySource && source != CompactSource
    && Tokens.TokenCount(ms) >= Threshold(opts)
  }

  /** Boundary and rendered summary, and nothing else. */
  predicate IsLegacyResult(o: Outside, r: seq<Message>) {
    && SummaryOf(o.reply).GotSummary?
    && |r| == 2 && r[0].role.System? && r[0].content == [Block.Text(BOUNDARY_TEXT)]
    && r[1].role.User? && r[1].content == [Block.Text(o.render(SummaryOf(o.reply).text))]
  }

  /** The whole transcript and one user message with the prompt. */
  predicate AsksForSummary(ms: seq<Message>, prompt: string, request: seq<Message>) {
    && |request| == |ms| + 1 && request[..|ms|] == ms
    && Last(request).role.User? && Last(request).content == [Block.Text(prompt)]
  }

  /**
   An attempt does nothing unless it must, and below the threshold it closes the breaker again, which an attempt
   with the breaker open leaves as it is. With the breaker closed it then uses the session memory if that gives
   a result, and else asks for a summary, once, of the whole transcript: boundary and summary replace it, or the
   failure is counted.
   */
  lemma AttemptMeaning(ms: seq<Message>, source: Source, failures: nat, o: Outside, opts: Options)
    ensures var r, asked := AutoCompactIfNeeded(ms, source, failures, o, opts),
                            AttemptRequests(ms, source, failures, o, opts);
      var sm := TrySM(ms, Threshold(opts), o.memory, o.now, opts);
      && (!MustCompact(ms, source, opts) || failures >= 3 ==>
            r == NotCompacted(if opts.disableCompact || failures < 3 then 0 else failures) && asked == [])
      && (MustCompact(ms, source, opts) && failures < 3 ==>
            && (sm.Some? ==> r == Compacted(sm.value) && asked == [])
            && (sm.None? && ms != [] ==>
                  && |asked| == 1 && AsksForSummary(ms, o.prompt, asked[0])
                  && (SummaryOf(o.reply).GotSummary? ==> r.Compacted? && IsLegacyResult(o, r.messages))
                  && (SummaryOf(o.reply).NoSummary? ==>
                        r == Failed(failures + 1, "autocompact failed: " + SummaryOf(o.reply).error)))
            && (sm.None? && ms == [] ==> r.Failed? && r.failures == failures + 1 && asked == []))
  {
    hide TrySM, Threshold, SummaryOf, Tokens.TokenCount;
  }

  // ---- The pipeline at the head of a turn ----

  /** What the turn starts from: old results cleared, unless compaction is off. */
  function Cleared(p: Params, s: Loop, o: Outside, opts: Options): seq<Message> {
    if p.disableCompact then s.msgs else Microcompact.After(s.msgs, Microcompact.Micro(s.msgs, o.now, opts))
  }

  /** At the limit, and the query is not itself compacting. */
  predicate MustBlock(p: Params, ms: seq<Message>, opts: Options) {
    && p.source != CompactSource && p.source != SessionMemorySource
    && Tokens.TokenCount(ms) >= BlockingLimit(opts)
  }

  /**
   The pipeline of a loop whose breaker is closed: where it must, it compacts and says so, or ends the run with
   the reason; otherwise the transcript is only cleared, and at the blocking limit the run ends.
   */
  lemma PipelineMeaning(p: Params, s: Loop, o: Outside, opts: Options)
    requires s.status.Running? && s.failures == 0
    ensures var t, ms := Compaction(p, s, o, opts), Cleared(p, s, o, opts);
      if !p.disableCompact && MustCompact(ms, p.source, opts) then
        var r := AutoCompactIfNeeded(ms, p.source, 0, o, opts);
        && t.requests == s.requests + AttemptRequests(ms, p.source, 0, o, opts)
        && (r.Compacted? ==>
              t.msgs == r.messages && t.out == s.out + [CompactionResultEvent(r.messages)] && t.status == s.status)
        && (r.Failed? ==>
              t.status == Ended(CompactionFailed) && t.out == s.out + [ErrorEvent("autocompact failed: " + r.error)])
        && !r.NotCompacted?
      else
        && t.msgs == ms && t.requests == s.requests
        && (if MustBlock(p, ms, opts)
            then t.status == Ended(Blocked) && t.out == s.out + [ErrorEvent(TOO_LARGE)]
            else t.status == s.status && t.out == s.out)
  {
    hide AutoCompactIfNeeded, AttemptRequests, Tokens.TokenCount, Threshold, BlockingLimit, Microcompact.Micro;
    var ms := Cleared(p, s, o, opts);
    if !p.disableCompact && MustCompact(ms, p.source, opts) {
      OverThresholdCompactsOrFails(ms, p.source, 0, o, opts);
    }
  }
}
