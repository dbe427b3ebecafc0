/** A decode step replayed from a captured graph (cuda_graph_decoder.py): rows padded with scratch
    sequences, tables padded with zeros, slots flattened to indices. It does what the eager decode
    does, except in the scratch sequences' own slots. */
module GraphDecode {
  import opened LanguageModel
  import opened Options
  import opened Positions
  import opened PagedKvCache
  import opened CacheInvariant
  import opened CacheOperations
  import opened ModelRunner
  import opened BatchedDecode

  /** One row of the static buffers. */
  datatype Row = Row(token: Token, position: nat, table: seq<Block>, context: nat, writeIdx: nat)

  /** Where a flat index points: the cache viewed as blocks * B slots. */
  function FlatPos(B: nat, idx: nat): Pos
    requires B >= 1
  {
    Pos(idx / B, idx % B)
  }

  function FlatIndex(B: nat, p: Pos): nat {
    p.block * B + p.slot
  }

  lemma FlatRoundTrip(B: nat, p: Pos)
    requires B >= 1 && p.slot < B
    ensures FlatPos(B, FlatIndex(B, p)) == p
  {
    DivUnique(FlatIndex(B, p), B, p.block);
  }

  predicate RowFits(c: Cache, row: Row)
    requires c.blockSize >= 1
  {
    && Readable(c.store, c.blockSize, row.table)
    && row.position <= |row.table| * c.blockSize && row.context <= |row.table| * c.blockSize
    && InStore(c.store, FlatPos(c.blockSize, row.writeIdx))
  }

  predicate RowsFit(c: Cache, rows: seq<Row>)
    requires c.blockSize >= 1
  {
    forall i | 0 <= i < |rows| :: RowFits(c, rows[i])
  }

  function WriteSlots(c: Cache, rows: seq<Row>): (r: seq<Pos>)
    requires c.blockSize >= 1 && RowsFit(c, rows)
    ensures |r| == |rows| && AllInStore(c.store, r)
  {
    seq(|rows|, i requires 0 <= i < |rows| => FlatPos(c.blockSize, rows[i].writeIdx))
  }

  function StepEntries(m: Model, c: Cache, rows: seq<Row>): (r: seq<Kv>)
    requires c.blockSize >= 1 && RowsFit(c, rows)
    ensures |r| == |rows|
  {
    seq(|rows|, i requires 0 <= i < |rows| => m.entry(Gather(c.store, c.blockSize, rows[i].table, rows[i].position), rows[i].token))
  }

  function StepPredictions(m: Model, c: Cache, rows: seq<Row>): (r: seq<Token>)
    requires c.blockSize >= 1 && RowsFit(c, rows)
    ensures |r| == |rows|
  {
    seq(|rows|, i requires 0 <= i < |rows| => m.predict(Gather(c.store, c.blockSize, rows[i].table, rows[i].context), rows[i].token))
  }

  /** The captured computation: every row's entry goes to its write index, then every row attends
      over its context. */
  function GraphStep(m: Model, c: Cache, rows: seq<Row>): (r: (Cache, seq<Token>))
    requires Wf(c) && RowsFit(c, rows)
    ensures Wf(r.0) && r.0 == c.(store := r.0.store) && |r.1| == |rows|
  {
    var written := Write(c, WriteSlots(c, rows), StepEntries(m, c, rows));
    StillFits(c, written, rows);
    (written, StepPredictions(m, written, rows))
  }

  lemma StillFits(c: Cache, after: Cache, rows: seq<Row>)
    requires Wf(c) && Wf(after) && RowsFit(c, rows) && after == c.(store := after.store)
    ensures RowsFit(after, rows)
  {
    forall i | 0 <= i < |rows| ensures RowFits(after, rows[i]) {
      assert RowFits(c, rows[i]);
    }
  }

  // ---- filling the buffers ----

  /** A table in a buffer row, the rest zeroed. */
  function Padded(table: seq<Block>, width: nat): (r: seq<Block>)
    requires |table| <= width
    ensures |r| == width && table <= r && forall k | |table| <= k < width :: r[k] == 0
  {
    table + seq(width - |table|, k => 0)
  }

  function RealRow(c: Cache, id: SeqId, token: Token, width: nat): Row
    requires Wf(c) && id in c.seqs && c.seqs[id].len < |c.seqs[id].table| * c.blockSize && |c.seqs[id].table| <= width
  {
    var st := c.seqs[id];
    Row(token, st.len, Padded(st.table, width), st.len + 1, FlatIndex(c.blockSize, RowSlot(c, id)))
  }

  /** The slot scratch sequences are overwritten at: the first of their first block. */
  function ScratchSlot(c: Cache, id: SeqId): (r: Pos)
    requires Wf(c) && id in c.seqs && c.seqs[id].table != []
    ensures InStore(c.store, r)
  {
    Pos(c.seqs[id].table[0], 0)
  }

  function PadRow(c: Cache, id: SeqId, width: nat): Row
    requires Wf(c) && id in c.seqs && c.seqs[id].table != [] && |c.seqs[id].table| <= width
  {
    var st := c.seqs[id];
    Row(0, st.len, Padded(st.table, width), st.len, FlatIndex(c.blockSize, ScratchSlot(c, id)))
  }

  predicate Narrow(c: Cache, ids: seq<SeqId>, width: nat) {
    forall i | 0 <= i < |ids| :: ids[i] in c.seqs && 1 <= |c.seqs[ids[i]].table| <= width
  }

  function AllRows(c: Cache, ids: seq<SeqId>, tokens: seq<Token>, pads: seq<SeqId>, width: nat): (r: seq<Row>)
    requires Wf(c) && Roomy(c, ids) && |tokens| == |ids| && Narrow(c, ids, width) && Narrow(c, pads, width)
    ensures |r| == |ids| + |pads|
    ensures forall i | 0 <= i < |ids| :: r[i] == RealRow(c, ids[i], tokens[i], width)
    ensures forall i | 0 <= i < |pads| :: r[|ids| + i] == PadRow(c, pads[i], width)
  {
    seq(|ids|, i requires 0 <= i < |ids| => RealRow(c, ids[i], tokens[i], width))
    + seq(|pads|, i requires 0 <= i < |pads| => PadRow(c, pads[i], width))
  }

  function ScratchSlots(c: Cache, pads: seq<SeqId>): (r: seq<Pos>)
    requires Wf(c) && forall i | 0 <= i < |pads| :: pads[i] in c.seqs && c.seqs[pads[i]].table != []
    ensures |r| == |pads| && AllInStore(c.store, r)
  {
    seq(|pads|, i requires 0 <= i < |pads| => ScratchSlot(c, pads[i]))
  }

  lemma RealRowFits(c: Cache, id: SeqId, token: Token, width: nat)
    requires Wf(c) && id in c.seqs && c.seqs[id].len < |c.seqs[id].table| * c.blockSize && |c.seqs[id].table| <= width
    ensures RowFits(c, RealRow(c, id, token, width))
    ensures FlatPos(c.blockSize, RealRow(c, id, token, width).writeIdx) == RowSlot(c, id)
  {
    MulMonotone(|c.seqs[id].table|, width, c.blockSize);
    FlatRoundTrip(c.blockSize, RowSlot(c, id));
  }

  lemma PadRowFits(c: Cache, id: SeqId, width: nat)
    requires Wf(c) && id in c.seqs && c.seqs[id].table != [] && |c.seqs[id].table| <= width
    ensures RowFits(c, PadRow(c, id, width))
    ensures FlatPos(c.blockSize, PadRow(c, id, width).writeIdx) == ScratchSlot(c, id)
  {
    MulMonotone(|c.seqs[id].table|, width, c.blockSize);
    FlatRoundTrip(c.blockSize, ScratchSlot(c, id));
  }

  lemma AllRowsFit(c: Cache, ids: seq<SeqId>, tokens: seq<Token>, pads: seq<SeqId>, width: nat)
    requires Wf(c) && Roomy(c, ids) && |tokens| == |ids| && Narrow(c, ids, width) && Narrow(c, pads, width)
    ensures var rows := AllRows(c, ids, tokens, pads, width);
            RowsFit(c, rows) && WriteSlots(c, rows) == RowSlots(c, ids) + ScratchSlots(c, pads)
  {
    hide Wf, RealRow, PadRow, RowFits, RowSlot, ScratchSlot;
    var rows := AllRows(c, ids, tokens, pads, width);
    assert c.blockSize >= 1 by { SizeOf(c); }
    forall i | 0 <= i < |rows|
      ensures RowFits(c, rows[i])
      ensures FlatPos(c.blockSize, rows[i].writeIdx) == (RowSlots(c, ids) + ScratchSlots(c, pads))[i]
    {
      if i < |ids| {
        RealRowFits(c, ids[i], tokens[i], width);
      } else {
        assert rows[|ids| + (i - |ids|)] == PadRow(c, pads[i - |ids|], width);
        PadRowFits(c, pads[i - |ids|], width);
      }
    }
  }

  lemma SizeOf(c: Cache)
    requires Wf(c)
    ensures c.blockSize >= 1
  {
  }

  // ---- scratch sequences ----

  /** One dummy token each, in a block of their own that no prefix match can reach. */
  ghost predicate ScratchReady(c: Cache, scratch: seq<SeqId>) {
    && NoDup(scratch)
    && forall i | 0 <= i < |scratch| ::
         && scratch[i] in c.seqs && c.seqs[scratch[i]].len == 1 && |c.seqs[scratch[i]].table| == 1
         && c.seqs[scratch[i]].table[0] !in c.info
  }

  ghost predicate Disjoint(ids: seq<SeqId>, scratch: seq<SeqId>) {
    forall i, j | 0 <= i < |ids| && 0 <= j < |scratch| :: ids[i] != scratch[j]
  }

  /** A scratch block is in nobody else's table. */
  lemma ScratchIsPrivate(c: Cache, scratch: seq<SeqId>, j: nat, x: SeqId)
    requires Sound(c, {}) && ScratchReady(c, scratch) && j < |scratch| && x in c.seqs && x != scratch[j]
    ensures c.seqs[scratch[j]].table[0] !in c.seqs[x].table
  {
    hide TablesDistinct, Counted, FreeExact;
    var b := c.seqs[scratch[j]].table[0];
    assert Holders(c.seqs, b) == {scratch[j]};
    assert x in Holders(c.seqs, b) <==> b in c.seqs[x].table;
  }

  /** All write slots of a step, real and padding, are pairwise distinct. */
  lemma WriteSlotsDistinct(c: Cache, hist: map<SeqId, seq<Token>>, ids: seq<SeqId>, pads: seq<SeqId>)
    requires Sound(c, {}) && RowsReady(c, hist, ids) && Roomy(c, ids) && ScratchReady(c, pads) && Disjoint(ids, pads)
    requires forall i | 0 <= i < |ids| :: |hist[ids[i]]| == c.seqs[ids[i]].len
    ensures NoDup(RowSlots(c, ids) + ScratchSlots(c, pads))
  {
    hide Counted, FreeExact, SharedIndexed, TablesDistinct, Wf, PrivateFrom;
    var a, b := RowSlots(c, ids), ScratchSlots(c, pads);
    forall i, j | 0 <= i < j < |a + b| ensures (a + b)[i] != (a + b)[j] {
      if j < |a| {
        RowSlotsApart(c, hist, ids, i, j);
      } else if i < |a| {
        SlotVersusScratch(c, ids, pads, i, j - |a|);
      } else {
        ScratchIsPrivate(c, pads, j - |a|, pads[i - |a|]);
      }
    }
  }

  lemma RowSlotsApart(c: Cache, hist: map<SeqId, seq<Token>>, ids: seq<SeqId>, i: nat, j: nat)
    requires Sound(c, {}) && RowsReady(c, hist, ids) && Roomy(c, ids) && i < j < |ids|
    requires forall k | 0 <= k < |ids| :: |hist[ids[k]]| == c.seqs[ids[k]].len
    ensures RowSlots(c, ids)[i] != RowSlots(c, ids)[j]
  {
    hide Counted, FreeExact, SharedIndexed, TablesDistinct, Wf, PrivateFrom;
    assert RowReady(c, hist, ids[i]);
    var x, y := ids[i], ids[j];
    SlotIsPrivate(c, x, c.seqs[x].len, 0);
    var b := RowSlot(c, x).block;
    assert Holders(c.seqs, b) == {x};
    assert y in Holders(c.seqs, b) <==> b in c.seqs[y].table;
  }

  lemma SlotVersusScratch(c: Cache, ids: seq<SeqId>, pads: seq<SeqId>, i: nat, j: nat)
    requires Sound(c, {}) && Roomy(c, ids) && ScratchReady(c, pads) && Disjoint(ids, pads) && i < |ids| && j < |pads|
    ensures RowSlots(c, ids)[i] != ScratchSlots(c, pads)[j]
  {
    hide Counted, FreeExact, SharedIndexed, TablesDistinct, Wf;
    ScratchIsPrivate(c, pads, j, ids[i]);
    assert RowSlot(c, ids[i]).block in c.seqs[ids[i]].table;
  }

  // ---- the replayed step against the eager one ----

  lemma {:induction false} WriteAllConcat(store: seq<seq<Kv>>, a: seq<Pos>, u: seq<Kv>, b: seq<Pos>, v: seq<Kv>)
    requires |a| == |u| && |b| == |v| && AllInStore(store, a) && AllInStore(store, b)
    ensures AllInStore(WriteAll(store, a, u), b) && AllInStore(store, a + b)
    ensures WriteAll(store, a + b, u + v) == WriteAll(WriteAll(store, a, u), b, v)
    decreases |b|
  {
    if b == [] {
      assert a + b == a && u + v == u;
    } else {
      var n := |b| - 1;
      WriteAllConcat(store, a, u, b[..n], v[..n]);
      assert (a + b)[..|a + b| - 1] == a + b[..n] && (u + v)[..|u + v| - 1] == u + v[..n];
    }
  }

  /** Every real row gets the eager position, context and slot, hence the eager entry. */
  lemma RealEntries(m: Model, c: Cache, ids: seq<SeqId>, tokens: seq<Token>, pads: seq<SeqId>, width: nat)
    requires Wf(c) && Roomy(c, ids) && |tokens| == |ids| && Narrow(c, ids, width) && Narrow(c, pads, width)
    requires RowsFit(c, AllRows(c, ids, tokens, pads, width))
    ensures StepEntries(m, c, AllRows(c, ids, tokens, pads, width))[..|ids|] == RowEntries(m, c, ids, tokens)
  {
    hide Wf, Gather, RealRow;
    SizeOf(c);
    var rows := AllRows(c, ids, tokens, pads, width);
    forall i | 0 <= i < |ids| ensures StepEntries(m, c, rows)[i] == RowEntries(m, c, ids, tokens)[i] {
      assert RowFits(c, rows[i]);
      RealEntry(c, ids[i], tokens[i], width, rows[i]);
    }
  }

  lemma RealEntry(c: Cache, id: SeqId, token: Token, width: nat, row: Row)
    requires Wf(c) && id in c.seqs && c.seqs[id].len < |c.seqs[id].table| * c.blockSize && |c.seqs[id].table| <= width
    requires RowFits(c, row) && row == RealRow(c, id, token, width)
    ensures row.token == token && Gather(c.store, c.blockSize, row.table, row.position) == Reached(c, id, c.seqs[id].len)
  {
    hide Gather;
    var st := c.seqs[id];
    GatherGrown(c.store, c.blockSize, st.table, row.table, st.len);
  }

  /** Slots outside the tables do not change what a real row reads. */
  lemma RealPredictions(m: Model, eager: Cache, replayed: Cache, ids: seq<SeqId>, tokens: seq<Token>, pads: seq<SeqId>, width: nat, rows: seq<Row>)
    requires Wf(eager) && Roomy(eager, ids) && |tokens| == |ids| && Narrow(eager, ids, width) && Narrow(eager, pads, width)
    requires Sound(eager, {}) && ScratchReady(eager, pads) && Disjoint(ids, pads)
    requires Wf(replayed) && replayed == eager.(store := replayed.store) && RowsFit(replayed, rows)
    requires SameBut(eager.store, replayed.store, ScratchSlots(eager, pads))
    requires |rows| >= |ids| && forall i | 0 <= i < |ids| :: rows[i] == RealRow(eager, ids[i], tokens[i], width)
    ensures StepPredictions(m, replayed, rows)[..|ids|] == RowPredictions(m, eager, ids, tokens)
  {
    hide Wf, Gather, Counted, FreeExact, SharedIndexed, TablesDistinct, SameBut, RealRow;
    forall i | 0 <= i < |ids| ensures StepPredictions(m, replayed, rows)[i] == RowPredictions(m, eager, ids, tokens)[i] {
      assert RowFits(replayed, rows[i]);
      RealRead(eager, replayed, ids, pads, i, width, tokens[i], rows[i]);
    }
  }

  lemma RealRead(eager: Cache, replayed: Cache, ids: seq<SeqId>, pads: seq<SeqId>, i: nat, width: nat, token: Token, row: Row)
    requires Wf(eager) && Roomy(eager, ids) && i < |ids| && Narrow(eager, ids, width)
    requires Sound(eager, {}) && ScratchReady(eager, pads) && Disjoint(ids, pads)
    requires Wf(replayed) && replayed == eager.(store := replayed.store) && RowFits(replayed, row)
    requires SameBut(eager.store, replayed.store, ScratchSlots(eager, pads))
    requires row == RealRow(eager, ids[i], token, width)
    ensures row.token == token
    ensures Gather(replayed.store, replayed.blockSize, row.table, row.context) == Reached(eager, ids[i], eager.seqs[ids[i]].len + 1)
  {
    hide Counted, FreeExact, SharedIndexed, TablesDistinct;
    var st, B := eager.seqs[ids[i]], eager.blockSize;
    GatherGrown(replayed.store, B, st.table, row.table, st.len + 1);
    var a, b := Gather(replayed.store, B, st.table, st.len + 1), Gather(eager.store, B, st.table, st.len + 1);
    forall p | 0 <= p < st.len + 1 ensures a[p] == b[p] {
      var pos := PosOf(st.table, B, p);
      forall j | 0 <= j < |pads| ensures ScratchSlots(eager, pads)[j] != pos {
        ScratchIsPrivate(eager, pads, j, ids[i]);
      }
    }
  }

  /** Advancing does not look at the entries. */
  lemma {:induction false} AdvanceAllStore(c: Cache, ids: seq<SeqId>, store: seq<seq<Kv>>)
    requires Wf(c) && Roomy(c, ids) && NoDup(ids) && Wf(c.(store := store))
    ensures AdvanceAll(c.(store := store), ids) == AdvanceAll(c, ids).(store := store)
    decreases |ids|
  {
    hide Wf, Advance;
    if ids != [] {
      var n := |ids| - 1;
      var d := c.(store := store);
      assert ids[n] !in ids[..n];
      assert AdvanceAll(d, ids) == Advance(AdvanceAll(d, ids[..n]), ids[n], 1);
      AdvanceAllStore(c, ids[..n], store);
      AdvanceStore(AdvanceAll(c, ids[..n]), ids[n], store);
    }
  }

  lemma AdvanceStore(c: Cache, id: SeqId, store: seq<seq<Kv>>)
    requires Wf(c) && Wf(c.(store := store)) && id in c.seqs && c.seqs[id].len + 1 <= |c.seqs[id].table| * c.blockSize
    ensures Advance(c.(store := store), id, 1) == Advance(c, id, 1).(store := store)
  {
    hide Wf;
  }

  /** The replayed step writes and predicts for the real rows what the eager step does, and touches
      nothing else but the scratch slots. */
  lemma GraphStepIsEager(m: Model, c: Cache, hist: map<SeqId, seq<Token>>, ids: seq<SeqId>, tokens: seq<Token>, pads: seq<SeqId>, width: nat)
    requires Sound(c, {}) && RowsReady(c, hist, ids) && Roomy(c, ids) && ScratchReady(c, pads) && Disjoint(ids, pads)
    requires forall i | 0 <= i < |ids| :: |hist[ids[i]]| == c.seqs[ids[i]].len
    requires |tokens| == |ids| && Narrow(c, ids, width) && Narrow(c, pads, width)
    requires RowsFit(c, AllRows(c, ids, tokens, pads, width))
    ensures
      var eager := Write(c, RowSlots(c, ids), RowEntries(m, c, ids, tokens));
      var (replayed, predictions) := GraphStep(m, c, AllRows(c, ids, tokens, pads, width));
      && replayed == eager.(store := replayed.store) && SameBut(eager.store, replayed.store, ScratchSlots(c, pads))
      && predictions[..|ids|] == RowPredictions(m, eager, ids, tokens)
  {
    hide Counted, FreeExact, SharedIndexed, TablesDistinct, Wf, PrivateFrom, WriteAll, AllRows, RowsReady, StepEntries, StepPredictions;
    hide RowEntries, RowPredictions, SameBut, RowSlots, ScratchSlots;
    var rows := AllRows(c, ids, tokens, pads, width);
    var eager := Write(c, RowSlots(c, ids), RowEntries(m, c, ids, tokens));
    ReplayedWrites(m, c, hist, ids, tokens, pads, width);
    var replayed := GraphStep(m, c, rows).0;
    StoreSound(c, eager.store);
    SameScratchSlots(c, eager, pads);
    StillFits(c, replayed, rows);
    RealPredictions(m, eager, replayed, ids, tokens, pads, width, rows);
  }

  /** The replayed step writes what the eager one writes, and the scratch slots. */
  lemma ReplayedWrites(m: Model, c: Cache, hist: map<SeqId, seq<Token>>, ids: seq<SeqId>, tokens: seq<Token>, pads: seq<SeqId>, width: nat)
    requires Sound(c, {}) && RowsReady(c, hist, ids) && Roomy(c, ids) && ScratchReady(c, pads) && Disjoint(ids, pads)
    requires forall i | 0 <= i < |ids| :: |hist[ids[i]]| == c.seqs[ids[i]].len
    requires |tokens| == |ids| && Narrow(c, ids, width) && Narrow(c, pads, width)
    requires RowsFit(c, AllRows(c, ids, tokens, pads, width))
    ensures
      var eager := Write(c, RowSlots(c, ids), RowEntries(m, c, ids, tokens));
      SameBut(eager.store, GraphStep(m, c, AllRows(c, ids, tokens, pads, width)).0.store, ScratchSlots(c, pads))
  {
    hide Counted, FreeExact, SharedIndexed, TablesDistinct, Wf, PrivateFrom, WriteAll, AllRows, RowsReady, StepEntries, StepPredictions;
    hide RowEntries, SameBut, WriteSlots, RowSlots, ScratchSlots;
    var rows, slots, pad := AllRows(c, ids, tokens, pads, width), RowSlots(c, ids), ScratchSlots(c, pads);
    SizeOf(c);
    var values := StepEntries(m, c, rows);
    AllRowsFit(c, ids, tokens, pads, width);
    RealEntries(m, c, ids, tokens, pads, width);
    assert values == values[..|ids|] + values[|ids|..];
    WriteAllConcat(c.store, slots, values[..|ids|], pad, values[|ids|..]);
    WriteSlotsDistinct(c, hist, ids, pads);
    PadsDistinct(slots, pad);
    WriteElsewhere(WriteAll(c.store, slots, values[..|ids|]), pad, values[|ids|..]);
  }

  lemma SameScratchSlots(c: Cache, after: Cache, pads: seq<SeqId>)
    requires Wf(c) && Wf(after) && after.seqs == c.seqs
    requires forall i | 0 <= i < |pads| :: pads[i] in c.seqs && c.seqs[pads[i]].table != []
    ensures ScratchSlots(after, pads) == ScratchSlots(c, pads)
  {
    hide Wf;
  }

  lemma PadsDistinct(a: seq<Pos>, b: seq<Pos>)
    requires NoDup(a + b)
    ensures NoDup(b)
  {
    forall i, j | 0 <= i < j < |b| ensures b[i] != b[j] {
      assert (a + b)[|a| + i] != (a + b)[|a| + j];
    }
  }

  /** The accounting does not look at the entries. */
  lemma StoreSound(c: Cache, store: seq<seq<Kv>>)
    requires Sound(c, {}) && Wf(c.(store := store))
    ensures Sound(c.(store := store), {})
  {
    hide Counted, FreeExact, SharedIndexed, TablesDistinct;
  }

  // ---- the decoder ----

  /** `_fits_captured_graphs`. */
  predicate FitsCaptured(c: Cache, ids: seq<SeqId>, maxBucket: nat, width: nat)
    requires AllCached(c, ids)
  {
    |ids| <= maxBucket && forall i | 0 <= i < |ids| :: |c.seqs[ids[i]].table| + 1 <= width
  }

  predicate Sorted(buckets: seq<nat>) {
    forall i, j | 0 <= i < j < |buckets| :: buckets[i] <= buckets[j]
  }

  /** The first bucket that holds n rows: always there when n is at most the last, and then there are
      scratch sequences enough to pad it. */
  function BucketFor(buckets: seq<nat>, n: nat): (b: nat)
    requires buckets != [] && n <= buckets[|buckets| - 1]
    ensures b in buckets && b >= n
    ensures forall k | 0 <= k < |buckets| && buckets[k] < b && Sorted(buckets) :: buckets[k] < n
    ensures Sorted(buckets) ==> b <= buckets[|buckets| - 1]
  {
    if buckets[0] >= n then buckets[0]
    else
      assert Sorted(buckets) ==> Sorted(buckets[1..]);
      assert forall k | 1 <= k < |buckets| :: buckets[k] == buckets[1..][k - 1];
      BucketFor(buckets[1..], n)
  }

  /** Reserving one token each adds at most one block to a table. */
  lemma {:induction false} ReserveAllAdds(c: Cache, ids: seq<SeqId>, x: SeqId)
    requires Wf(c) && AllCached(c, ids) && NoDup(ids) && x in c.seqs
    ensures x in ReserveAll(c, ids).0.seqs && |ReserveAll(c, ids).0.seqs[x].table| <= |c.seqs[x].table| + 1
    ensures x !in ids ==> ReserveAll(c, ids).0.seqs[x] == c.seqs[x]
    decreases |ids|
  {
    hide Wf, Reserve;
    if ids != [] {
      var n := |ids| - 1;
      ReserveAllAdds(c, ids[..n], x);
      assert ids[n] !in ids[..n];
      var before := ReserveAll(c, ids[..n]);
      if before.1 && x == ids[n] {
        ReserveAdds(before.0, x);
      }
    }
  }

  lemma ReserveAdds(c: Cache, id: SeqId)
    requires Wf(c) && id in c.seqs
    ensures |Reserve(c, id, 1).0.seqs[id].table| <= |c.seqs[id].table| + 1
  {
    BlocksForOneMore(c.blockSize, c.seqs[id].len, |c.seqs[id].table|);
    GrowAtMost(c, id, BlocksFor(c.blockSize, c.seqs[id].len + 1));
  }

  lemma {:induction false} GrowAtMost(c: Cache, id: SeqId, target: nat)
    requires Wf(c) && id in c.seqs
    ensures |Grow(c, id, target).0.seqs[id].table| <= if target <= |c.seqs[id].table| then |c.seqs[id].table| else target
    decreases target - |c.seqs[id].table|
  {
    hide Wf;
    if |c.seqs[id].table| < target && c.free != [] {
      GrowAtMost(AppendBlock(c, id), id, target);
    }
  }

  /** The sizes `capture` sets up: sorted buckets and one scratch sequence less than the largest. */
  ghost predicate Captured(c: Cache, buckets: seq<nat>, scratch: seq<SeqId>, width: nat) {
    && buckets != [] && Sorted(buckets) && |scratch| + 1 == buckets[|buckets| - 1] && width >= 1
    && ScratchReady(c, scratch)
  }

  /** Every row, real or padding, fits the static buffers. */
  ghost predicate ReplayFits(c: Cache, ids: seq<SeqId>, tokens: seq<Token>, pads: seq<SeqId>, width: nat) {
    && Wf(c) && Roomy(c, ids) && NoDup(ids) && |tokens| == |ids| && Narrow(c, ids, width) && Narrow(c, pads, width)
    && RowsFit(c, AllRows(c, ids, tokens, pads, width))
  }

  /** Fill the buffers, replay, advance the real rows; the padding rows' predictions are dropped. */
  ghost function Replay(m: Model, c: Cache, ids: seq<SeqId>, tokens: seq<Token>, pads: seq<SeqId>, width: nat): (r: (Cache, seq<Token>))
    requires ReplayFits(c, ids, tokens, pads, width)
    ensures |r.1| == |ids|
  {
    var (written, predictions) := GraphStep(m, c, AllRows(c, ids, tokens, pads, width));
    (AdvanceAll(written, ids), predictions[..|ids|])
  }

  /** The scratch sequences that pad a batch of n to its bucket. */
  function Pads(buckets: seq<nat>, scratch: seq<SeqId>, n: nat): (r: seq<SeqId>)
    requires buckets != [] && Sorted(buckets) && n <= buckets[|buckets| - 1]
    requires n >= 1 && |scratch| + 1 == buckets[|buckets| - 1]
    ensures |r| == BucketFor(buckets, n) - n && r <= scratch
  {
    scratch[..BucketFor(buckets, n) - n]
  }

  /** A decode of a non-empty batch: replayed when it fits, eager otherwise. */
  ghost function DecodeReplayed(m: Model, c: Cache, ids: seq<SeqId>, tokens: seq<Token>, buckets: seq<nat>, scratch: seq<SeqId>, width: nat)
    : (r: (Cache, Option<seq<Token>>))
    requires Wf(c) && NoDup(ids) && ids != [] && |ids| == |tokens| && AllCached(c, ids)
    requires Captured(c, buckets, scratch, width) && Disjoint(ids, scratch)
    ensures r.1.Some? ==> |r.1.value| == |ids|
  {
    if !FitsCaptured(c, ids, buckets[|buckets| - 1], width) then DecodeBatch(m, c, ids, tokens)
    else if !ReserveAll(c, ids).1 then (ReserveAll(c, ids).0, None)
    else
      BuffersFit(c, ids, tokens, buckets, scratch, width);
      var (after, predictions) := Replay(m, ReserveAll(c, ids).0, ids, tokens, Pads(buckets, scratch, |ids|), width);
      (after, Some(predictions))
  }

  /** There is a bucket, and a scratch sequence for every padding row, and every row fits the static
      buffers. */
  lemma BuffersFit(c: Cache, ids: seq<SeqId>, tokens: seq<Token>, buckets: seq<nat>, scratch: seq<SeqId>, width: nat)
    requires Wf(c) && NoDup(ids) && ids != [] && |ids| == |tokens| && AllCached(c, ids)
    requires Captured(c, buckets, scratch, width) && Disjoint(ids, scratch)
    requires FitsCaptured(c, ids, buckets[|buckets| - 1], width) && ReserveAll(c, ids).1
    ensures var grown, pads := ReserveAll(c, ids).0, Pads(buckets, scratch, |ids|);
            && ScratchReady(grown, scratch) && ScratchReady(grown, pads) && Disjoint(ids, pads)
            && ReplayFits(grown, ids, tokens, pads, width)
  {
    hide Wf, ReserveAll, AllRows, RowFits, RowsFit, Sorted;
    var grown, pads := ReserveAll(c, ids).0, Pads(buckets, scratch, |ids|);
    forall i | 0 <= i < |ids| ensures ids[i] in grown.seqs && 1 <= |grown.seqs[ids[i]].table| <= width {
      ReserveAllAdds(c, ids, ids[i]);
      RoomIsTable(|grown.seqs[ids[i]].table|, grown.blockSize, grown.seqs[ids[i]].len);
    }
    forall j | 0 <= j < |scratch| ensures scratch[j] in grown.seqs && grown.seqs[scratch[j]] == c.seqs[scratch[j]] {
      ReserveAllAdds(c, ids, scratch[j]);
    }
    assert grown.info == c.info;
    AllRowsFit(grown, ids, tokens, pads, width);
  }

  lemma RoomIsTable(size: nat, B: nat, len: nat)
    requires len < size * B
    ensures size >= 1
  {
  }

  /** The replayed decode is the eager decode but for the scratch slots: the same predictions, the
      same tables and lengths, the same entries wherever a real sequence can look. */
  lemma ReplayedIsEager(m: Model, c: Cache, hist: map<SeqId, seq<Token>>, ids: seq<SeqId>, tokens: seq<Token>, buckets: seq<nat>, scratch: seq<SeqId>, width: nat)
    requires Sound(c, {}) && Faithful(m, c, hist) && RowsReady(c, hist, ids) && ids != [] && |ids| == |tokens|
    requires Captured(c, buckets, scratch, width) && Disjoint(ids, scratch)
    ensures
      var (eager, predictions) := DecodeBatch(m, c, ids, tokens);
      var (replayed, same) := DecodeReplayed(m, c, ids, tokens, buckets, scratch, width);
      && same == predictions
      && replayed == eager.(store := replayed.store)
      && (same.None? ==> replayed == eager)
      && ScratchReady(eager, scratch)
      && SameButScratch(eager, replayed.store, scratch)
  {
    hide Counted, FreeExact, SharedIndexed, TablesDistinct, Faithful, Wf, PrivateFrom, WriteAll, AllRows, RowsFit, SameBut;
    hide RowEntries, RowPredictions, GraphStep, ReserveAll, FitsCaptured, ScratchReady, RowSlots, RowReady, AdvanceAll;
    RowsCached(c, hist, ids);
    var (grown, ok) := ReserveAll(c, ids);
    var eager := DecodeBatch(m, c, ids, tokens).0;
    ScratchAfter(m, c, ids, tokens, scratch);
    if FitsCaptured(c, ids, buckets[|buckets| - 1], width) && ok {
      ReplayedStep(m, c, hist, ids, tokens, buckets, scratch, width);
    } else {
      SameStore(eager, scratch);
    }
  }

  /** The same entries outside the scratch sequences' slots. */
  ghost predicate SameButScratch(c: Cache, store: seq<seq<Kv>>, scratch: seq<SeqId>) {
    && Wf(c) && Rows(store, c.blockSize) && (forall j | 0 <= j < |scratch| :: scratch[j] in c.seqs && c.seqs[scratch[j]].table != [])
    && SameBut(c.store, store, ScratchSlots(c, scratch))
  }

  lemma SameStore(c: Cache, scratch: seq<SeqId>)
    requires Wf(c) && ScratchReady(c, scratch)
    ensures SameButScratch(c, c.store, scratch)
  {
  }

  lemma RowsCached(c: Cache, hist: map<SeqId, seq<Token>>, ids: seq<SeqId>)
    requires RowsReady(c, hist, ids)
    ensures AllCached(c, ids)
  {
    forall i | 0 <= i < |ids| ensures ids[i] in c.seqs {
      assert RowReady(c, hist, ids[i]);
    }
  }

  /** Scratch sequences never advance. */
  lemma ScratchAfter(m: Model, c: Cache, ids: seq<SeqId>, tokens: seq<Token>, scratch: seq<SeqId>)
    requires Wf(c) && NoDup(ids) && |ids| == |tokens| && AllCached(c, ids) && ScratchReady(c, scratch) && Disjoint(ids, scratch)
    ensures ScratchReady(DecodeBatch(m, c, ids, tokens).0, scratch)
  {
    hide Wf, ReserveAll, RowSlots, RowEntries, RowPredictions, WriteAll;
    forall j | 0 <= j < |scratch| ensures scratch[j] !in ids {
    }
    var after := DecodeBatch(m, c, ids, tokens).0;
    forall j | 0 <= j < |scratch| ensures scratch[j] in after.seqs && after.seqs[scratch[j]] == c.seqs[scratch[j]] {
      ReserveAllAdds(c, ids, scratch[j]);
    }
  }

  lemma ReplayedStep(m: Model, c: Cache, hist: map<SeqId, seq<Token>>, ids: seq<SeqId>, tokens: seq<Token>, buckets: seq<nat>, scratch: seq<SeqId>, width: nat)
    requires Sound(c, {}) && Faithful(m, c, hist) && RowsReady(c, hist, ids) && ids != [] && |ids| == |tokens| && AllCached(c, ids)
    requires Captured(c, buckets, scratch, width) && Disjoint(ids, scratch)
    requires FitsCaptured(c, ids, buckets[|buckets| - 1], width) && ReserveAll(c, ids).1
    ensures
      var (eager, predictions) := DecodeBatch(m, c, ids, tokens);
      var (replayed, same) := DecodeReplayed(m, c, ids, tokens, buckets, scratch, width);
      same == predictions && replayed == eager.(store := replayed.store) && SameButScratch(eager, replayed.store, scratch)
  {
    hide Counted, FreeExact, SharedIndexed, TablesDistinct, Faithful, Wf, PrivateFrom, WriteAll, AllRows, RowsFit, SameBut;
    hide RowEntries, RowPredictions, GraphStep, ReserveAll, ScratchReady, RowSlots, RowReady, AdvanceAll, ScratchSlots;
    var grown, pads := ReserveAll(c, ids).0, Pads(buckets, scratch, |ids|);
    BuffersFit(c, ids, tokens, buckets, scratch, width);
    GrownReady(m, c, hist, ids);
    ReplayIsEager(m, grown, hist, ids, tokens, pads, width);
    var written := Write(grown, RowSlots(grown, ids), RowEntries(m, grown, ids, tokens));
    var replayed := Replay(m, grown, ids, tokens, pads, width).0;
    FewerScratch(grown, written, AdvanceAll(written, ids), replayed.store, ids, scratch, |pads|);
  }

  /** What the eager step writes. */
  ghost function EagerWrites(m: Model, c: Cache, ids: seq<SeqId>, tokens: seq<Token>): (r: Cache)
    requires Wf(c) && Roomy(c, ids) && |tokens| == |ids|
    ensures Wf(r) && Roomy(r, ids) && r == c.(store := r.store)
  {
    Write(c, RowSlots(c, ids), RowEntries(m, c, ids, tokens))
  }

  lemma ReplayIsEager(m: Model, c: Cache, hist: map<SeqId, seq<Token>>, ids: seq<SeqId>, tokens: seq<Token>, pads: seq<SeqId>, width: nat)
    requires Sound(c, {}) && RowsReady(c, hist, ids) && ScratchReady(c, pads) && Disjoint(ids, pads)
    requires ReplayFits(c, ids, tokens, pads, width)
    requires forall i | 0 <= i < |ids| :: |hist[ids[i]]| == c.seqs[ids[i]].len
    ensures
      var eager := EagerWrites(m, c, ids, tokens);
      var (after, predictions) := Replay(m, c, ids, tokens, pads, width);
      && Rows(after.store, c.blockSize) && SameBut(eager.store, after.store, ScratchSlots(c, pads))
      && after == AdvanceAll(eager, ids).(store := after.store)
      && predictions == RowPredictions(m, eager, ids, tokens)
  {
    hide Counted, FreeExact, SharedIndexed, TablesDistinct, PrivateFrom, WriteAll, AllRows, RowsFit, SameBut;
    hide RowEntries, RowPredictions, GraphStep, RowSlots, RowReady, AdvanceAll, ScratchSlots;
    GraphStepIsEager(m, c, hist, ids, tokens, pads, width);
    var eager := Write(c, RowSlots(c, ids), RowEntries(m, c, ids, tokens));
    var written := GraphStep(m, c, AllRows(c, ids, tokens, pads, width)).0;
    AdvanceAllStore(eager, ids, written.store);
  }

  lemma GrownReady(m: Model, c: Cache, hist: map<SeqId, seq<Token>>, ids: seq<SeqId>)
    requires Sound(c, {}) && Faithful(m, c, hist) && RowsReady(c, hist, ids) && AllCached(c, ids) && ReserveAll(c, ids).1
    ensures var grown := ReserveAll(c, ids).0;
            && Sound(grown, {}) && RowsReady(grown, hist, ids) && Roomy(grown, ids)
            && forall i | 0 <= i < |ids| :: |hist[ids[i]]| == grown.seqs[ids[i]].len
  {
    hide Counted, FreeExact, SharedIndexed, TablesDistinct, Wf, PrivateFrom, Filed, ReserveAll, StoppedAt;
    var k := ReserveAllKeeps(m, c, hist, ids);
    var grown := ReserveAll(c, ids).0;
    ReadyAfterReserve(c, hist, ids, grown);
    forall i | 0 <= i < |ids| ensures |hist[ids[i]]| == grown.seqs[ids[i]].len {
      assert RowReady(grown, hist, ids[i]);
      assert Holds(m, grown.store, grown.blockSize, grown.seqs[ids[i]], hist[ids[i]]);
    }
  }

  /** What holds outside the first k scratch slots holds outside all of them. */
  lemma FewerScratch(grown: Cache, written: Cache, after: Cache, store: seq<seq<Kv>>, ids: seq<SeqId>, scratch: seq<SeqId>, k: nat)
    requires Wf(grown) && Wf(written) && Wf(after) && written == grown.(store := written.store) && after == written.(seqs := after.seqs)
    requires ScratchReady(grown, scratch) && k <= |scratch| && Disjoint(ids, scratch)
    requires Rows(store, grown.blockSize) && SameBut(written.store, store, ScratchSlots(grown, scratch[..k]))
    requires forall x | x in grown.seqs && x !in ids :: x in after.seqs && after.seqs[x] == grown.seqs[x]
    ensures SameButScratch(after, store, scratch)
  {
    hide Wf;
    forall j | 0 <= j < |scratch| ensures scratch[j] in after.seqs && after.seqs[scratch[j]] == grown.seqs[scratch[j]] {
      assert scratch[j] !in ids;
    }
    var few, all := ScratchSlots(grown, scratch[..k]), ScratchSlots(after, scratch);
    forall p | p in few ensures p in all {
      var j :| 0 <= j < |few| && few[j] == p;
      assert all[j] == p;
    }
  }

  /** So a replayed decode meets the eager decode's contract to the letter: every sequence of the
      batch gets its own next greedy token, its new entry is cached, every other one is untouched. */
  lemma ReplayedKeeps(m: Model, c: Cache, hist: map<SeqId, seq<Token>>, ids: seq<SeqId>, tokens: seq<Token>, buckets: seq<nat>, scratch: seq<SeqId>, width: nat)
    requires Sound(c, {}) && Faithful(m, c, hist) && RowsReady(c, hist, ids) && ids != [] && |ids| == |tokens|
    requires Captured(c, buckets, scratch, width) && Disjoint(ids, scratch)
    requires forall j | 0 <= j < |scratch| :: scratch[j] !in hist
    ensures var (after, predictions) := DecodeReplayed(m, c, ids, tokens, buckets, scratch, width);
            && Captured(after, buckets, scratch, width)
            && (predictions.Some? ==> Decoded(m, c, hist, ids, tokens, after, predictions.value))
  {
    hide Counted, FreeExact, SharedIndexed, TablesDistinct, Faithful, Wf, PrivateFrom, RowReady, SameButScratch, BlocksFor;
    hide DecodeBatch, DecodeReplayed, ExtendAll, StoppedAt;
    RowsCached(c, hist, ids);
    ReplayedIsEager(m, c, hist, ids, tokens, buckets, scratch, width);
    var k := DecodeBatchKeeps(m, c, hist, ids, tokens);
    var (eager, predictions) := DecodeBatch(m, c, ids, tokens);
    var replayed := DecodeReplayed(m, c, ids, tokens, buckets, scratch, width).0;
    if predictions.Some? {
      assert forall x | x in ExtendAll(hist, ids, tokens) :: x in hist;
      FaithfulElsewhere(m, eager, replayed, ExtendAll(hist, ids, tokens), scratch);
    }
  }

  /** Scratch slots are in no table that matters. */
  lemma FaithfulElsewhere(m: Model, c: Cache, after: Cache, hist: map<SeqId, seq<Token>>, scratch: seq<SeqId>)
    requires Sound(c, {}) && Faithful(m, c, hist) && ScratchReady(c, scratch) && after == c.(store := after.store)
    requires SameButScratch(c, after.store, scratch) && forall j | 0 <= j < |scratch| :: scratch[j] !in hist
    ensures Sound(after, {}) && Faithful(m, after, hist)
  {
    hide Counted, FreeExact, SharedIndexed, TablesDistinct, Filed, Holds;
    StoreWf(c, after.store);
    StoreSound(c, after.store);
    forall x | x in hist ensures Holds(m, after.store, after.blockSize, after.seqs[x], hist[x]) {
      HoldsElsewhere(m, c, after.store, scratch, x, hist[x]);
    }
  }

  lemma StoreWf(c: Cache, store: seq<seq<Kv>>)
    requires Wf(c) && |store| == |c.store| && Rows(store, c.blockSize)
    ensures Wf(c.(store := store))
  {
  }

  lemma HoldsElsewhere(m: Model, c: Cache, store: seq<seq<Kv>>, scratch: seq<SeqId>, x: SeqId, toks: seq<Token>)
    requires Sound(c, {}) && ScratchReady(c, scratch) && x in c.seqs && x !in scratch
    requires Holds(m, c.store, c.blockSize, c.seqs[x], toks) && SameButScratch(c, store, scratch)
    ensures Holds(m, store, c.blockSize, c.seqs[x], toks)
  {
    hide Counted, FreeExact, SharedIndexed, TablesDistinct, Wf, Entries;
    var st, B := c.seqs[x], c.blockSize;
    var a, b := Gather(store, B, st.table, st.len), Gather(c.store, B, st.table, st.len);
    forall p | 0 <= p < st.len ensures a[p] == b[p] {
      var pos := PosOf(st.table, B, p);
      forall j | 0 <= j < |scratch| ensures ScratchSlots(c, scratch)[j] != pos {
        ScratchIsPrivate(c, scratch, j, x);
      }
    }
  }
}
