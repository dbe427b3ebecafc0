/** One batched decode step equals one step of each sequence alone. */
module BatchedDecode {
  import opened LanguageModel
  import opened Options
  import opened Positions
  import opened PagedKvCache
  import opened CacheInvariant
  import opened CacheOperations
  import opened ModelRunner

  /** The cached tokens after every listed sequence got its token. */
  function ExtendAll(hist: map<SeqId, seq<Token>>, ids: seq<SeqId>, tokens: seq<Token>): (r: map<SeqId, seq<Token>>)
    requires |ids| == |tokens|
    ensures r.Keys == hist.Keys
    decreases |ids|
  {
    if ids == [] then hist
    else
      var n := |ids| - 1;
      var before := ExtendAll(hist, ids[..n], tokens[..n]);
      if ids[n] in before then before[ids[n] := before[ids[n]] + [tokens[n]]] else before
  }

  lemma {:induction false} ExtendAllAt(hist: map<SeqId, seq<Token>>, ids: seq<SeqId>, tokens: seq<Token>)
    requires |ids| == |tokens| && NoDup(ids)
    ensures forall x | x in hist && x !in ids :: ExtendAll(hist, ids, tokens)[x] == hist[x]
    ensures forall i | 0 <= i < |ids| && ids[i] in hist :: ExtendAll(hist, ids, tokens)[ids[i]] == hist[ids[i]] + [tokens[i]]
    decreases |ids|
  {
    if ids != [] {
      var n := |ids| - 1;
      ExtendAllAt(hist, ids[..n], tokens[..n]);
      assert ids[n] !in ids[..n];
    }
  }

  /** Each row's sequence is cached and may write its next slot. */
  ghost predicate RowsReady(c: Cache, hist: map<SeqId, seq<Token>>, ids: seq<SeqId>) {
    && NoDup(ids)
    && (forall i | 0 <= i < |ids| :: RowReady(c, hist, ids[i]))
  }

  ghost predicate RowReady(c: Cache, hist: map<SeqId, seq<Token>>, id: SeqId) {
    && id in hist && id in c.seqs && c.blockSize >= 1
    && PrivateFrom(c.info, c.seqs[id].table, |hist[id]| / c.blockSize)
  }

  // ---- reserving a row of sequences ----

  /** The reservation of a batch stopped at row k: earlier rows have room for one more token,
      later ones are untouched, and it stopped early only for lack of blocks. */
  ghost predicate StoppedAt(c: Cache, ids: seq<SeqId>, r: (Cache, bool), k: nat) {
    && c.blockSize >= 1 && k <= |ids|
    && (r.1 <==> k == |ids|)
    && (forall i | 0 <= i < k :: RowReserved(c, r.0, ids[i]))
    && (forall x | x in c.seqs && x !in ids[..k] :: x in r.0.seqs && r.0.seqs[x] == c.seqs[x])
    && (k < |ids| ==> r.0.free == [] && ids[k] in c.seqs
                      && |c.seqs[ids[k]].table| < BlocksFor(c.blockSize, c.seqs[ids[k]].len + 1))
  }

  ghost predicate RowReserved(c: Cache, after: Cache, id: SeqId) {
    && id in c.seqs && id in after.seqs && c.blockSize >= 1
    && var need, old_ := BlocksFor(c.blockSize, c.seqs[id].len + 1), |c.seqs[id].table|;
    |after.seqs[id].table| == if need <= old_ then old_ else need
  }

  lemma {:induction false} ReserveAllKeeps(m: Model, c: Cache, hist: map<SeqId, seq<Token>>, ids: seq<SeqId>) returns (k: nat)
    requires Sound(c, {}) && Faithful(m, c, hist) && AllCached(c, ids) && NoDup(ids)
    ensures StoppedAt(c, ids, ReserveAll(c, ids), k)
    ensures Sound(ReserveAll(c, ids).0, {}) && Faithful(m, ReserveAll(c, ids).0, hist)
    ensures PrivacyKept(c, ReserveAll(c, ids).0)
    decreases |ids|
  {
    hide Counted, FreeExact, SharedIndexed, TablesDistinct, Faithful, Wf, PrivateFrom, BlocksFor;
    if ids == [] {
      k := 0;
      assert c.blockSize >= 1 by { SoundSize(c); }
    } else {
      var n := |ids| - 1;
      k := ReserveAllKeeps(m, c, hist, ids[..n]);
      var before := ReserveAll(c, ids[..n]);
      if before.1 {
        assert ids[n] !in ids[..n];
        SoundTables(c, ids[n]);
        ReserveKeeps(m, before.0, hist, ids[n], 1);
        k := ReserveAllNext(c, ids, before, Reserve(before.0, ids[n], 1));
      } else {
        assert ids[..n][..k] == ids[..k];
      }
    }
  }

  lemma SoundSize(c: Cache)
    requires Sound(c, {})
    ensures c.blockSize >= 1
  {
  }

  lemma SoundTables(c: Cache, id: SeqId)
    requires Sound(c, {}) && id in c.seqs
    ensures WfSeq(c, c.seqs[id])
  {
  }

  lemma ReserveAllNext(c: Cache, ids: seq<SeqId>, before: (Cache, bool), r: (Cache, bool)) returns (k: nat)
    requires ids != [] && before.1 && StoppedAt(c, ids[..|ids| - 1], before, |ids| - 1)
    requires TablesGrown(c, before.0) && ids[|ids| - 1] in c.seqs && ids[|ids| - 1] !in ids[..|ids| - 1]
    requires Reserved(before.0, ids[|ids| - 1], 1, r.0, r.1)
    requires r.0.seqs == before.0.seqs[ids[|ids| - 1] := r.0.seqs[ids[|ids| - 1]]]
    requires r.0.seqs[ids[|ids| - 1]].len == before.0.seqs[ids[|ids| - 1]].len
    requires WfSeq(c, c.seqs[ids[|ids| - 1]])
    requires before.0.seqs[ids[|ids| - 1]].table <= r.0.seqs[ids[|ids| - 1]].table
    ensures StoppedAt(c, ids, r, k)
  {
    hide BlocksFor;
    var n := |ids| - 1;
    var id := ids[n];
    assert ids[..n][..n] == ids[..n];
    assert before.0.seqs[id] == c.seqs[id];
    k := if r.1 then n + 1 else n;
    assert ids[..n + 1] == ids;
    forall i | 0 <= i < k ensures RowReserved(c, r.0, ids[i]) {
      if i < n {
        assert ids[..n][i] == ids[i];
        assert RowReserved(c, before.0, ids[i]);
      }
    }
    if !r.1 {
      BlocksForOneMore(c.blockSize, c.seqs[id].len, |c.seqs[id].table|);
      assert |r.0.seqs[id].table| == |c.seqs[id].table|;
    }
  }

  // ---- writing and reading a row of sequences ----

  /** The state after the first k rows have been written and counted. */
  function RowsDone(m: Model, c: Cache, ids: seq<SeqId>, tokens: seq<Token>, k: nat): (r: Cache)
    requires Wf(c) && Roomy(c, ids) && NoDup(ids) && |ids| == |tokens| && k <= |ids|
    ensures Wf(r) && r == c.(store := r.store, seqs := r.seqs)
    ensures r.store == WriteAll(c.store, RowSlots(c, ids)[..k], RowEntries(m, c, ids, tokens)[..k])
    ensures r.seqs.Keys == c.seqs.Keys
    ensures forall x | x in c.seqs :: r.seqs[x] == if x in ids[..k] then c.seqs[x].(len := c.seqs[x].len + 1) else c.seqs[x]
  {
    AdvanceAll(Write(c, RowSlots(c, ids)[..k], RowEntries(m, c, ids, tokens)[..k]), ids[..k])
  }

  /** Each further row is an append to its own sequence alone. */
  lemma RowsDoneStep(m: Model, c: Cache, ids: seq<SeqId>, tokens: seq<Token>, k: nat)
    requires Wf(c) && Roomy(c, ids) && NoDup(ids) && |ids| == |tokens| && k < |ids|
    ensures
      var before := RowsDone(m, c, ids, tokens, k);
      && ids[k] in before.seqs && before.seqs[ids[k]] == c.seqs[ids[k]]
      && before.seqs[ids[k]].len + 1 <= |before.seqs[ids[k]].table| * before.blockSize
      && RowsDone(m, c, ids, tokens, k + 1) == Append(before, ids[k], [RowEntries(m, c, ids, tokens)[k]])
  {
    hide Wf, RowEntries, RowSlots, Slots, PosOf, RowsDone, Append, WriteAll, AllInStore, InStore, Rows;
    var slots, values := RowSlots(c, ids), RowEntries(m, c, ids, tokens);
    var before, after, id := RowsDone(m, c, ids, tokens, k), RowsDone(m, c, ids, tokens, k + 1), ids[k];
    assert id !in ids[..k];
    assert forall x :: x in ids[..k + 1] <==> x in ids[..k] || x == id;
    assert after.seqs == before.seqs[id := c.seqs[id].(len := c.seqs[id].len + 1)];
    WriteAllOne(c.store, slots, values, k);
    SlotsOne(c.seqs[id].table, c.blockSize, c.seqs[id].len);
    RowSlotsAt(c, ids, k);
    assert after.store == WriteAll(before.store, [slots[k]], [values[k]]);
  }

  lemma RowSlotsAt(c: Cache, ids: seq<SeqId>, k: nat)
    requires Wf(c) && Roomy(c, ids) && k < |ids|
    ensures RowSlots(c, ids)[k] == RowSlot(c, ids[k])
  {
  }

  lemma SlotsOne(table: seq<Block>, B: nat, p: nat)
    requires B >= 1 && p + 1 <= |table| * B
    ensures Slots(table, B, p, 1) == [PosOf(table, B, p)]
  {
  }

  lemma WriteAllOne(store: seq<seq<Kv>>, slots: seq<Pos>, values: seq<Kv>, k: nat)
    requires |slots| == |values| && AllInStore(store, slots) && k < |slots|
    ensures AllInStore(WriteAll(store, slots[..k], values[..k]), [slots[k]])
    ensures WriteAll(WriteAll(store, slots[..k], values[..k]), [slots[k]], [values[k]]) == WriteAll(store, slots[..k + 1], values[..k + 1])
  {
    assert slots[..k + 1][..k] == slots[..k] && values[..k + 1][..k] == values[..k];
    assert InStore(store, slots[k]);
  }

  lemma {:induction false} RowsDoneKeeps(m: Model, c: Cache, hist: map<SeqId, seq<Token>>, ids: seq<SeqId>, tokens: seq<Token>, k: nat)
    requires Sound(c, {}) && Faithful(m, c, hist) && RowsReady(c, hist, ids) && Roomy(c, ids)
    requires |ids| == |tokens| && k <= |ids|
    ensures Sound(RowsDone(m, c, ids, tokens, k), {})
    ensures Faithful(m, RowsDone(m, c, ids, tokens, k), ExtendAll(hist, ids[..k], tokens[..k]))
    decreases k
  {
    hide Counted, FreeExact, SharedIndexed, TablesDistinct, Faithful, Wf, PrivateFrom, RowEntries, RowsDone;
    if k == 0 {
      assert RowsDone(m, c, ids, tokens, 0) == c by { RowsDoneNone(m, c, ids, tokens); }
    } else {
      var id, n := ids[k - 1], k - 1;
      RowsDoneKeeps(m, c, hist, ids, tokens, n);
      RowsDoneStep(m, c, ids, tokens, n);
      ExtendAllAt(hist, ids[..n], tokens[..n]);
      assert RowReady(c, hist, id);
      assert id !in ids[..n];
      assert ids[..k][..n] == ids[..n] && tokens[..k][..n] == tokens[..n];
      RowEntryIsNext(m, c, hist, ids, tokens, n);
      FaithfulLength(m, c, hist, id);
      AppendFaithful(m, RowsDone(m, c, ids, tokens, n), ExtendAll(hist, ids[..n], tokens[..n]), id, [tokens[n]],
                     [RowEntries(m, c, ids, tokens)[n]]);
    }
  }

  lemma FaithfulLength(m: Model, c: Cache, hist: map<SeqId, seq<Token>>, id: SeqId)
    requires Faithful(m, c, hist) && id in hist
    ensures id in c.seqs && |hist[id]| == c.seqs[id].len
  {
  }

  lemma RowsDoneNone(m: Model, c: Cache, ids: seq<SeqId>, tokens: seq<Token>)
    requires Wf(c) && Roomy(c, ids) && NoDup(ids) && |ids| == |tokens|
    ensures RowsDone(m, c, ids, tokens, 0) == c
  {
  }

  lemma RowEntryIsNext(m: Model, c: Cache, hist: map<SeqId, seq<Token>>, ids: seq<SeqId>, tokens: seq<Token>, i: nat)
    requires Wf(c) && Faithful(m, c, hist) && Roomy(c, ids) && |ids| == |tokens| && i < |ids| && ids[i] in hist
    ensures Entries(m, hist[ids[i]]) + [RowEntries(m, c, ids, tokens)[i]] == Entries(m, hist[ids[i]] + [tokens[i]])
  {
    var id := ids[i];
    assert Holds(m, c.store, c.blockSize, c.seqs[id], hist[id]);
    assert Reached(c, id, c.seqs[id].len) == Entries(m, hist[id]);
    assert RowEntries(m, c, ids, tokens)[i] == m.entry(Reached(c, id, c.seqs[id].len), tokens[i]);
    EntriesOne(m, hist[id], tokens[i]);
  }

  /** A decode step that found room: every sequence of the batch has its token cached and its own
      next greedy token predicted, as if it had been alone; every other one is untouched. */
  ghost predicate Decoded(m: Model, c: Cache, hist: map<SeqId, seq<Token>>, ids: seq<SeqId>, tokens: seq<Token>,
                          after: Cache, predictions: seq<Token>) {
    && |ids| == |tokens| == |predictions|
    && Sound(after, {}) && Faithful(m, after, ExtendAll(hist, ids, tokens))
    && PrivacyKept(c, after) && after.info == c.info && after.host == c.host && after.seqs.Keys == c.seqs.Keys
    && (forall i | 0 <= i < |ids| :: ids[i] in hist && predictions[i] == Next(m, hist[ids[i]] + [tokens[i]]))
    && (forall i | 0 <= i < |ids| :: RowReserved(c, after, ids[i]) && after.seqs[ids[i]].len == c.seqs[ids[i]].len + 1)
    && (forall x | x in c.seqs && x !in ids :: after.seqs[x] == c.seqs[x])
  }

  lemma DecodeBatchKeeps(m: Model, c: Cache, hist: map<SeqId, seq<Token>>, ids: seq<SeqId>, tokens: seq<Token>) returns (k: nat)
    requires Sound(c, {}) && Faithful(m, c, hist) && RowsReady(c, hist, ids) && |ids| == |tokens|
    ensures
      var (after, predictions) := DecodeBatch(m, c, ids, tokens);
      match predictions
      case Some(p) => Decoded(m, c, hist, ids, tokens, after, p)
      case None => k < |ids| && StoppedAt(c, ids, (after, false), k)
                   && Sound(after, {}) && Faithful(m, after, hist) && PrivacyKept(c, after)
                   && TablesGrown(c, after)
  {
    hide Sound, Faithful, Wf, PrivacyKept, StoppedAt, RowsReady, Decoded, Next;
    hide RowSlots, RowEntries, RowPredictions, AdvanceAll, Write, ReserveAll;
    SoundAllCached(c, hist, ids);
    k := ReserveAllKeeps(m, c, hist, ids);
    StoppedEarly(c, ids, ReserveAll(c, ids), k);
    if ReserveAll(c, ids).1 {
      DecodedWhenReserved(m, c, hist, ids, tokens);
    }
  }

  lemma SoundAllCached(c: Cache, hist: map<SeqId, seq<Token>>, ids: seq<SeqId>)
    requires Sound(c, {}) && RowsReady(c, hist, ids)
    ensures Wf(c) && NoDup(ids) && AllCached(c, ids)
  {
    hide PrivateFrom;
    forall i | 0 <= i < |ids| ensures ids[i] in c.seqs {
      assert RowReady(c, hist, ids[i]);
    }
  }

  lemma StoppedEarly(c: Cache, ids: seq<SeqId>, r: (Cache, bool), k: nat)
    requires StoppedAt(c, ids, r, k)
    ensures !r.1 ==> k < |ids|
    ensures r.1 ==> k == |ids|
  {
  }

  // ---- exactly when a batch finds room ----

  /** The next token of a sequence needs a block its table does not have. */
  predicate NeedsBlock(c: Cache, id: SeqId) {
    c.blockSize >= 1 && id in c.seqs && BlocksFor(c.blockSize, c.seqs[id].len + 1) > |c.seqs[id].table|
  }

  /** How many of the listed sequences do. */
  function Needy(c: Cache, ids: seq<SeqId>): nat {
    if ids == [] then 0 else Needy(c, ids[..|ids| - 1]) + if NeedsBlock(c, ids[|ids| - 1]) then 1 else 0
  }

  lemma ReserveOneCounts(c: Cache, id: SeqId)
    requires Wf(c) && id in c.seqs
    ensures var (after, ok) := Reserve(c, id, 1);
            && (ok <==> NeedsBlock(c, id) ==> c.free != [])
            && (ok ==> |after.free| == |c.free| - if NeedsBlock(c, id) then 1 else 0)
  {
    var B, table, len := c.blockSize, c.seqs[id].table, c.seqs[id].len;
    assert WfSeq(c, c.seqs[id]) && B >= 1;
    BlocksForOneMore(B, len, |table|);
    hide Wf, BlocksFor;
    var need := BlocksFor(B, len + 1);
    if need > |table| && c.free != [] {
      assert Grow(c, id, need) == Grow(AppendBlock(c, id), id, need);
    }
  }

  /** Every row gets its slot exactly if at most as many rows need a block as are free. */
  lemma {:induction false} ReserveAllIff(c: Cache, ids: seq<SeqId>)
    requires Wf(c) && AllCached(c, ids) && NoDup(ids)
    ensures ReserveAll(c, ids).1 <==> Needy(c, ids) <= |c.free|
    ensures ReserveAll(c, ids).1 ==> |ReserveAll(c, ids).0.free| == |c.free| - Needy(c, ids)
    ensures forall x | x in c.seqs && x !in ids :: ReserveAll(c, ids).0.seqs[x] == c.seqs[x]
    decreases |ids|
  {
    hide Wf, Reserve, NeedsBlock;
    if ids != [] {
      var n := |ids| - 1;
      ReserveAllIff(c, ids[..n]);
      var before := ReserveAll(c, ids[..n]);
      assert ids[n] !in ids[..n];
      assert forall x | x !in ids :: x !in ids[..n] && x != ids[n];
      if before.1 {
        ReserveOneCounts(before.0, ids[n]);
        SameNeed(c, before.0, ids[n]);
      }
    }
  }

  lemma SameNeed(c: Cache, after: Cache, id: SeqId)
    requires after.blockSize == c.blockSize && id in c.seqs && id in after.seqs && after.seqs[id] == c.seqs[id]
    ensures NeedsBlock(after, id) == NeedsBlock(c, id)
  {
  }

  /** A batch decodes exactly if at most as many rows need a block as are free, and then as promised. */
  lemma DecodeBatchOk(m: Model, c: Cache, hist: map<SeqId, seq<Token>>, ids: seq<SeqId>, tokens: seq<Token>)
    requires Sound(c, {}) && Faithful(m, c, hist) && RowsReady(c, hist, ids) && |ids| == |tokens|
    requires Wf(c) && NoDup(ids) && AllCached(c, ids)
    ensures var (after, predictions) := DecodeBatch(m, c, ids, tokens);
            && (predictions.Some? <==> Needy(c, ids) <= |c.free|)
            && (predictions.Some? ==> Decoded(m, c, hist, ids, tokens, after, predictions.value))
  {
    hide Sound, Faithful, RowsReady, Wf, ReserveAll, Decoded, NoDup;
    ReserveAllIff(c, ids);
    if ReserveAll(c, ids).1 { DecodedWhenReserved(m, c, hist, ids, tokens); }
  }

  lemma DecodedWhenReserved(m: Model, c: Cache, hist: map<SeqId, seq<Token>>, ids: seq<SeqId>, tokens: seq<Token>)
    requires Sound(c, {}) && Faithful(m, c, hist) && RowsReady(c, hist, ids) && |ids| == |tokens|
    requires Wf(c) && NoDup(ids) && AllCached(c, ids) && ReserveAll(c, ids).1
    ensures var (after, predictions) := DecodeBatch(m, c, ids, tokens);
            predictions.Some? && Decoded(m, c, hist, ids, tokens, after, predictions.value)
  {
    hide Counted, FreeExact, SharedIndexed, TablesDistinct, Faithful, Wf, PrivateFrom, BlocksFor, RowReserved;
    hide RowSlots, RowEntries, RowPredictions, AdvanceAll, Write, WriteAll;
    var k := ReserveAllKeeps(m, c, hist, ids);
    var grown := ReserveAll(c, ids).0;
    ReadyAfterReserve(c, hist, ids, grown);
    BatchRead(m, grown, hist, ids, tokens);
    BatchDecoded(m, c, grown, hist, ids, tokens);
  }

  lemma ReadyAfterReserve(c: Cache, hist: map<SeqId, seq<Token>>, ids: seq<SeqId>, grown: Cache)
    requires RowsReady(c, hist, ids) && PrivacyKept(c, grown) && TablesGrown(c, grown)
    ensures RowsReady(grown, hist, ids)
  {
    hide PrivateFrom;
    forall i | 0 <= i < |ids| ensures RowReady(grown, hist, ids[i]) {
      assert RowReady(c, hist, ids[i]);
    }
  }

  lemma BatchRead(m: Model, c: Cache, hist: map<SeqId, seq<Token>>, ids: seq<SeqId>, tokens: seq<Token>)
    requires Sound(c, {}) && Faithful(m, c, hist) && RowsReady(c, hist, ids) && Roomy(c, ids) && |ids| == |tokens|
    ensures
      var written := Write(c, RowSlots(c, ids), RowEntries(m, c, ids, tokens));
      && AdvanceAll(written, ids) == RowsDone(m, c, ids, tokens, |ids|)
      && Sound(AdvanceAll(written, ids), {}) && Faithful(m, AdvanceAll(written, ids), ExtendAll(hist, ids, tokens))
      && forall i | 0 <= i < |ids| :: ids[i] in hist && RowPredictions(m, written, ids, tokens)[i] == Next(m, hist[ids[i]] + [tokens[i]])
  {
    hide Counted, FreeExact, SharedIndexed, TablesDistinct, PrivateFrom, Filed, WriteAll;
    var slots, values := RowSlots(c, ids), RowEntries(m, c, ids, tokens);
    var written := Write(c, slots, values);
    assert slots[..|ids|] == slots && values[..|ids|] == values && ids[..|ids|] == ids && tokens[..|ids|] == tokens;
    RowsDoneKeeps(m, c, hist, ids, tokens, |ids|);
    var after := RowsDone(m, c, ids, tokens, |ids|);
    assert after == AdvanceAll(written, ids);
    forall i | 0 <= i < |ids|
      ensures ids[i] in hist && RowPredictions(m, written, ids, tokens)[i] == Next(m, hist[ids[i]] + [tokens[i]])
    {
      assert RowReady(c, hist, ids[i]);
      ExtendAllAt(hist, ids, tokens);
      RowPredictionIsNext(m, written, after, ids, tokens, i, hist[ids[i]]);
    }
  }

  lemma RowPredictionIsNext(m: Model, written: Cache, after: Cache, ids: seq<SeqId>, tokens: seq<Token>, i: nat, toks: seq<Token>)
    requires Wf(written) && |ids| == |tokens| && Roomy(written, ids) && i < |ids|
    requires after == written.(seqs := after.seqs) && ids[i] in after.seqs
    requires after.seqs[ids[i]] == written.seqs[ids[i]].(len := written.seqs[ids[i]].len + 1)
    requires Holds(m, after.store, after.blockSize, after.seqs[ids[i]], toks + [tokens[i]])
    ensures RowPredictions(m, written, ids, tokens)[i] == Next(m, toks + [tokens[i]])
  {
    assert Reached(written, ids[i], written.seqs[ids[i]].len + 1) == Entries(m, toks + [tokens[i]]);
  }

  lemma BatchDecoded(m: Model, c: Cache, grown: Cache, hist: map<SeqId, seq<Token>>, ids: seq<SeqId>, tokens: seq<Token>)
    requires Wf(grown) && Roomy(grown, ids) && NoDup(ids) && |ids| == |tokens| && TablesGrown(c, grown)
    requires StoppedAt(c, ids, (grown, true), |ids|) && PrivacyKept(c, grown)
    ensures
      var after := RowsDone(m, grown, ids, tokens, |ids|);
      && PrivacyKept(c, after) && after.info == c.info && after.host == c.host && after.seqs.Keys == c.seqs.Keys
      && (forall i | 0 <= i < |ids| :: RowReserved(c, after, ids[i]) && after.seqs[ids[i]].len == c.seqs[ids[i]].len + 1)
      && (forall x | x in c.seqs && x !in ids :: after.seqs[x] == c.seqs[x])
  {
    hide RowsDone, PrivateFrom, BlocksFor, Wf;
    assert ids[..|ids|] == ids;
    var after := RowsDone(m, grown, ids, tokens, |ids|);
    forall i | 0 <= i < |ids| ensures RowReserved(c, after, ids[i]) && after.seqs[ids[i]].len == c.seqs[ids[i]].len + 1 {
      assert RowReserved(c, grown, ids[i]);
    }
  }
}
