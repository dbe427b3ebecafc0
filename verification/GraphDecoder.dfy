/** The graph decoder in its own form: one set of static buffers per bucket, filled before every
    replay (cuda_graph_decoder.py). */
module GraphDecoders {
  import opened LanguageModel
  import opened Options
  import opened Positions
  import opened PagedKvCache
  import opened CacheInvariant
  import opened CacheOperations
  import opened ModelRunner
  import opened BatchedDecode
  import opened GraphDecode
  import opened KvCacheManagers
  import opened ForwardPasses

  /** The static buffers one captured graph reads. */
  class Buffers {
    const size: nat
    const width: nat
    const tokenIds: array<Token>
    const positionIds: array<nat>
    const contextLen: array<nat>
    const writeIdx: array<nat>
    const blockTable: array2<nat>

    constructor (size: nat, width: nat)
      ensures this.size == size && this.width == width && Valid() && fresh(Arrays())
    {
      this.size, this.width := size, width;
      tokenIds := new Token[size](i => 0);
      positionIds := new nat[size](i => 0);
      contextLen := new nat[size](i => 1);
      writeIdx := new nat[size](i => 0);
      blockTable := new nat[size, width]((i, k) => 0);
    }

    ghost function Arrays(): set<object> {
      {tokenIds, positionIds, contextLen, writeIdx, blockTable}
    }

    ghost predicate Valid() {
      && tokenIds.Length == positionIds.Length == contextLen.Length == writeIdx.Length == size
      && blockTable.Length0 == size && blockTable.Length1 == width
      && positionIds != contextLen && positionIds != writeIdx && contextLen != writeIdx
      && tokenIds as object != positionIds as object && tokenIds as object != contextLen as object && tokenIds as object != writeIdx as object
    }

    ghost function Table(i: nat): (r: seq<Block>)
      requires Valid() && i < size
      reads blockTable
      ensures |r| == width && forall k | 0 <= k < width :: r[k] == blockTable[i, k]
    {
      seq(width, k requires 0 <= k < width && blockTable.Length0 == size && blockTable.Length1 == width reads blockTable => blockTable[i, k])
    }

    ghost function RowAt(i: nat): Row
      requires Valid() && i < size
      reads Arrays()
    {
      Row(tokenIds[i], positionIds[i], Table(i), contextLen[i], writeIdx[i])
    }

    /** Copies one row in. */
    method Fill(i: nat, token: Token, position: nat, table: seq<Block>, context: nat, write: nat)
      requires Valid() && i < size && |table| <= width
      modifies Arrays()
      ensures RowAt(i) == Row(token, position, Padded(table, width), context, write)
      ensures forall k | 0 <= k < size && k != i :: RowAt(k) == old(RowAt(k))
    {
      tokenIds[i], positionIds[i], contextLen[i], writeIdx[i] := token, position, context, write;
      forall k | 0 <= k < width { blockTable[i, k] := if k < |table| then table[k] else 0; }
      assert Table(i) == Padded(table, width);
      forall k | 0 <= k < size && k != i ensures RowAt(k) == old(RowAt(k)) {
        assert Table(k) == old(Table(k));
      }
    }
  }

  /** Scratch ids start far outside the real ones. */
  const SCRATCH_SEQ_ID_BASE: SeqId := 0x8000_0000

  function ScratchId(i: nat): SeqId {
    SCRATCH_SEQ_ID_BASE + i
  }

  datatype Outcome = NotCaptured | OutOfMemory | Decoded(tokens: seq<Token>)

  function OutcomeOf(r: Option<seq<Token>>): Outcome {
    if r.None? then OutOfMemory else Decoded(r.value)
  }

  /** The value of a decode. */
  ghost function Replayed(m: Model, c: Cache, ids: seq<SeqId>, tokens: seq<Token>, buckets: seq<nat>, scratch: seq<SeqId>, width: nat): (Cache, Outcome)
    requires Wf(c) && NoDup(ids) && ids != [] && |ids| == |tokens| && AllCached(c, ids)
    requires Captured(c, buckets, scratch, width) && Disjoint(ids, scratch)
  {
    var (after, predictions) := DecodeReplayed(m, c, ids, tokens, buckets, scratch, width);
    (after, OutcomeOf(predictions))
  }

  class CudaGraphDecoder {
    const model: Model
    const cache: KvCacheManager
    const bucketSizes: seq<nat>
    const maxBlocksPerSeq: nat
    var graphs: map<nat, Buffers>
    var scratchSeqIds: seq<SeqId>
    var captured: bool
    ghost var arrays: set<object>   // the static buffers' storage

    /** The buffers of every bucket, none of them the cache's own storage. */
    ghost predicate Ready()
      reads this
    {
      && bucketSizes != [] && Sorted(bucketSizes) && maxBlocksPerSeq >= 1
      && this !in arrays && cache !in arrays && cache.allocator !in arrays && cache.kv !in arrays
      && (captured ==> forall b | b in bucketSizes ::
            && b in graphs && graphs[b].Valid() && graphs[b].size == b && graphs[b].width == maxBlocksPerSeq
            && graphs[b].Arrays() <= arrays)
    }

    constructor (model: Model, cache: KvCacheManager, bucketSizes: seq<nat>, maxBlocksPerSeq: nat)
      requires bucketSizes != [] && Sorted(bucketSizes) && maxBlocksPerSeq >= 1
      ensures Ready() && !captured && scratchSeqIds == []
      ensures this.model == model && this.cache == cache && this.bucketSizes == bucketSizes && this.maxBlocksPerSeq == maxBlocksPerSeq
    {
      this.model, this.cache, this.bucketSizes, this.maxBlocksPerSeq := model, cache, bucketSizes, maxBlocksPerSeq;
      graphs, scratchSeqIds, captured, arrays := map[], [], false, {};
    }

    /** One dummy token per scratch sequence; false if the blocks ran out. */
    method SetupScratchSequences() returns (ok: bool)
      requires Ready() && cache.Valid() && Sound(cache.View(), {}) && scratchSeqIds == []
      requires forall i | 0 <= i && i + 1 < bucketSizes[|bucketSizes| - 1] :: ScratchId(i) !in cache.sequences
      modifies this`scratchSeqIds, cache, cache.allocator, cache.kv
      ensures cache.Valid() && Sound(cache.View(), {})
      ensures scratchSeqIds == [] <== bucketSizes[|bucketSizes| - 1] <= 1
      ensures ok && scratchSeqIds != [] ==> Captured(cache.View(), bucketSizes, scratchSeqIds, maxBlocksPerSeq)
    {
      hide Wf, ContinuePrefill, Sound;
      var n := if bucketSizes[|bucketSizes| - 1] >= 1 then bucketSizes[|bucketSizes| - 1] - 1 else 0;
      for i := 0 to n
        invariant cache.Valid() && Sound(cache.View(), {})
        invariant |scratchSeqIds| == i && (forall j | 0 <= j < i :: scratchSeqIds[j] == ScratchId(j))
        invariant ScratchReady(cache.View(), scratchSeqIds)
        invariant forall j | i <= j < n :: ScratchId(j) !in cache.sequences
      {
        var id := ScratchId(i);
        ghost var c := cache.View();
        ScratchCreated(model, c, id);
        cache.CreateSequence(id);
        var logits := RunContinuePrefill(model, cache, id, [0]);
        if logits.None? { return false; }
        MoreScratch(c, cache.View(), scratchSeqIds, id);
        scratchSeqIds := scratchSeqIds + [id];
      }
      return true;
    }

    /** Scratch sequences, then buffers for every bucket. False if the blocks ran out, and if no
        bucket is larger than one: there is then no scratch sequence to capture with. */
    method Capture() returns (ok: bool)
      requires Ready() && cache.Valid() && Sound(cache.View(), {}) && scratchSeqIds == [] && !captured
      requires forall i | 0 <= i && i + 1 < bucketSizes[|bucketSizes| - 1] :: ScratchId(i) !in cache.sequences
      modifies this, cache, cache.allocator, cache.kv
      ensures cache.Valid() && Sound(cache.View(), {}) && Ready() && captured == ok
      ensures ok ==> bucketSizes[|bucketSizes| - 1] >= 2
      ensures ok ==> Captured(cache.View(), bucketSizes, scratchSeqIds, maxBlocksPerSeq)
    {
      hide Wf, Sound, ScratchReady;
      ok := SetupScratchSequences();
      if !ok { return; }
      if scratchSeqIds == [] { return false; }
      var made: map<nat, Buffers> := map[];
      for i := 0 to |bucketSizes|
        invariant cache.Valid() && Sound(cache.View(), {}) && Captured(cache.View(), bucketSizes, scratchSeqIds, maxBlocksPerSeq)
        invariant forall b | b in bucketSizes[..i] ::
                    && b in made && made[b].Valid() && made[b].size == b && made[b].width == maxBlocksPerSeq
                    && made[b].Arrays() <= arrays
        invariant this !in arrays && cache !in arrays && cache.allocator !in arrays && cache.kv !in arrays
      {
        var buf := new Buffers(bucketSizes[i], maxBlocksPerSeq);
        made := made[bucketSizes[i] := buf];
        arrays := arrays + buf.Arrays();
      }
      graphs := made;
      captured := true;
    }

    method FitsCapturedGraphs(ids: seq<SeqId>) returns (fits: bool)
      requires Ready() && cache.Valid() && AllCached(cache.View(), ids)
      ensures fits == FitsCaptured(cache.View(), ids, bucketSizes[|bucketSizes| - 1], maxBlocksPerSeq)
    {
      hide Wf;
      if |ids| > bucketSizes[|bucketSizes| - 1] { return false; }
      for i := 0 to |ids|
        invariant forall k | 0 <= k < i :: |cache.sequences[ids[k]].table| + 1 <= maxBlocksPerSeq
      {
        if |cache.sequences[ids[i]].table| + 1 > maxBlocksPerSeq { return false; }
      }
      return true;
    }

    /** The first bucket that holds n rows. */
    method ChooseBucket(n: nat) returns (bucket: nat)
      requires Ready() && n <= bucketSizes[|bucketSizes| - 1]
      ensures bucket == BucketFor(bucketSizes, n)
    {
      var i := 0;
      assert bucketSizes[0..] == bucketSizes;
      while bucketSizes[i] < n
        invariant 0 <= i < |bucketSizes| && BucketFor(bucketSizes, n) == BucketFor(bucketSizes[i..], n)
        decreases |bucketSizes| - i
      {
        assert bucketSizes[i..][1..] == bucketSizes[i + 1..];
        i := i + 1;
      }
      return bucketSizes[i];
    }

    /** The buffers' rows for a batch: real ones, then padding. */
    method FillRows(buf: Buffers, ids: seq<SeqId>, tokens: seq<Token>, positions: seq<Pos>, pads: seq<SeqId>)
      requires buf.Valid() && buf.size == |ids| + |pads| && cache.Valid() && cache.kv as object !in buf.Arrays()
      requires Roomy(cache.View(), ids) && |tokens| == |ids| && Narrow(cache.View(), ids, buf.width) && Narrow(cache.View(), pads, buf.width)
      requires positions == RowSlots(cache.View(), ids)
      modifies buf.Arrays()
      ensures cache.Valid() && cache.View() == old(cache.View())
      ensures forall i | 0 <= i < buf.size :: buf.RowAt(i) == AllRows(cache.View(), ids, tokens, pads, buf.width)[i]
    {
      hide Wf, Padded;
      ghost var c := cache.View();
      assert c.seqs == cache.sequences;
      ghost var rows := AllRows(c, ids, tokens, pads, buf.width);
      for i := 0 to |ids|
        invariant cache.Valid() && cache.View() == c
        invariant forall k | 0 <= k < i :: buf.RowAt(k) == rows[k]
      {
        var st := cache.sequences[ids[i]];
        assert rows[i] == RealRow(c, ids[i], tokens[i], buf.width);
        buf.Fill(i, tokens[i], st.len, st.table, st.len + 1, FlatIndex(cache.blockSize, positions[i]));
      }
      for i := 0 to |pads|
        invariant cache.Valid() && cache.View() == c
        invariant forall k | 0 <= k < |ids| + i :: buf.RowAt(k) == rows[k]
      {
        var st := cache.sequences[pads[i]];
        assert rows[|ids| + i] == PadRow(c, pads[i], buf.width);
        var write := ScratchWriteIdx(pads[i]);
        buf.Fill(|ids| + i, 0, st.len, st.table, st.len, write);
      }
    }

    /** The flat index of the first slot of a scratch sequence's block. */
    method ScratchWriteIdx(id: SeqId) returns (idx: nat)
      requires cache.Valid() && id in cache.View().seqs && cache.View().seqs[id].table != []
      ensures idx == FlatIndex(cache.blockSize, ScratchSlot(cache.View(), id))
    {
      hide Wf;
      return cache.sequences[id].table[0] * cache.blockSize;
    }

    /** The replayed computation, off the static buffers: every row's entry to its write index, then
        every row's prediction over its context. */
    method RunGraphStep(buf: Buffers, ghost rows: seq<Row>) returns (predictions: seq<Token>)
      requires buf.Valid() && cache.Valid() && cache.blockSize >= 1 && |rows| == buf.size && RowsFit(cache.View(), rows)
      requires cache.kv as object !in buf.Arrays() && forall i | 0 <= i < buf.size :: buf.RowAt(i) == rows[i]
      modifies cache.kv
      ensures cache.Valid() && (cache.View(), predictions) == GraphStep(model, old(cache.View()), rows)
    {
      hide Wf, Gather, RowFits, WriteSlots, StepEntries, StepPredictions;
      ghost var c := cache.View();
      var slots, entries := StepWrites(buf, rows);
      cache.Write(slots, entries);
      StillFits(c, cache.View(), rows);
      predictions := StepReads(buf, rows);
    }

    method StepWrites(buf: Buffers, ghost rows: seq<Row>) returns (slots: seq<Pos>, entries: seq<Kv>)
      requires buf.Valid() && cache.Valid() && cache.blockSize >= 1 && |rows| == buf.size && RowsFit(cache.View(), rows)
      requires forall i | 0 <= i < buf.size :: buf.RowAt(i) == rows[i]
      ensures slots == WriteSlots(cache.View(), rows) && entries == StepEntries(model, cache.View(), rows)
    {
      hide Wf, Gather, Readable;
      slots, entries := [], [];
      for i := 0 to buf.size
        invariant |slots| == |entries| == i
        invariant forall k | 0 <= k < i :: slots[k] == WriteSlots(cache.View(), rows)[k] && entries[k] == StepEntries(model, cache.View(), rows)[k]
      {
        assert RowFits(cache.View(), rows[i]) && buf.RowAt(i) == rows[i];
        var prefix := ReadRow(buf, i, buf.positionIds[i]);
        slots := slots + [FlatPos(cache.blockSize, buf.writeIdx[i])];
        entries := entries + [model.entry(prefix, buf.tokenIds[i])];
      }
    }

    method StepReads(buf: Buffers, ghost rows: seq<Row>) returns (predictions: seq<Token>)
      requires buf.Valid() && cache.Valid() && cache.blockSize >= 1 && |rows| == buf.size && RowsFit(cache.View(), rows)
      requires forall i | 0 <= i < buf.size :: buf.RowAt(i) == rows[i]
      ensures predictions == StepPredictions(model, cache.View(), rows)
    {
      hide Wf, Gather, Readable;
      predictions := [];
      for i := 0 to buf.size
        invariant |predictions| == i
        invariant forall k | 0 <= k < i :: predictions[k] == StepPredictions(model, cache.View(), rows)[k]
      {
        assert RowFits(cache.View(), rows[i]) && buf.RowAt(i) == rows[i];
        var seen := ReadRow(buf, i, buf.contextLen[i]);
        predictions := predictions + [model.predict(seen, buf.tokenIds[i])];
      }
    }

    /** The first n entries behind a buffer row's table. */
    method ReadRow(buf: Buffers, i: nat, n: nat) returns (entries: seq<Kv>)
      requires buf.Valid() && cache.Valid() && cache.blockSize >= 1 && i < buf.size
      requires RowFits(cache.View(), buf.RowAt(i)) && n <= buf.width * cache.blockSize
      ensures entries == Gather(cache.View().store, cache.blockSize, buf.Table(i), n)
    {
      hide Gather;
      var width, blockTable := buf.width, buf.blockTable;
      var table := seq(width, k requires 0 <= k < width && i < blockTable.Length0 && width == blockTable.Length1 reads blockTable => blockTable[i, k]);
      assert table == buf.Table(i);
      entries := cache.GatherPrefixKv(table, n);
    }

    /** One decode of a non-empty batch of distinct sequences. */
    method Decode(ids: seq<SeqId>, tokens: seq<Token>, ghost c: Cache) returns (r: Outcome)
      requires Ready() && cache.Valid() && c == cache.View()
      requires NoDup(ids) && ids != [] && |ids| == |tokens| && AllCached(c, ids)
      requires captured ==> Captured(c, bucketSizes, scratchSeqIds, maxBlocksPerSeq) && Disjoint(ids, scratchSeqIds)
      modifies cache, cache.allocator, cache.kv, arrays
      ensures cache.Valid() && Wf(c)
      ensures if captured then (cache.View(), r) == Replayed(model, c, ids, tokens, bucketSizes, scratchSeqIds, maxBlocksPerSeq)
              else r == NotCaptured && cache.View() == c
    {
      hide Wf, FitsCaptured, DecodeBatch, ReserveAll, Replay, ScratchReady;
      if !captured { return NotCaptured; }
      var fits := FitsCapturedGraphs(ids);
      if !fits {
        var eager := RunDecodeStepBatch(model, cache, ids, tokens);
        return OutcomeOf(eager);
      }
      var positions := ReserveRows(cache, ids);
      if positions.None? { return OutOfMemory; }
      BuffersFit(c, ids, tokens, bucketSizes, scratchSeqIds, maxBlocksPerSeq);
      r := DecodeCaptured(ids, tokens, positions.value);
    }

    /** The replayed half of a decode, once the real rows have their slots. */
    method DecodeCaptured(ids: seq<SeqId>, tokens: seq<Token>, positions: seq<Pos>) returns (r: Outcome)
      requires Ready() && captured && cache.Valid() && ids != [] && |ids| <= bucketSizes[|bucketSizes| - 1]
      requires |scratchSeqIds| + 1 == bucketSizes[|bucketSizes| - 1]
      requires ReplayFits(cache.View(), ids, tokens, Pads(bucketSizes, scratchSeqIds, |ids|), maxBlocksPerSeq)
      requires positions == RowSlots(cache.View(), ids)
      modifies cache, cache.kv, arrays
      ensures cache.Valid()
      ensures var (after, predictions) := Replay(model, old(cache.View()), ids, tokens, Pads(bucketSizes, scratchSeqIds, |ids|), maxBlocksPerSeq);
              cache.View() == after && r == Decoded(predictions)
    {
      hide Wf, Replay, ReplayFits, RowSlots, KvCacheManager.View, KvCacheManager.Valid;
      var bucket := ChooseBucket(|ids|);
      var pads := scratchSeqIds[..bucket - |ids|];
      var buf := graphs[bucket];
      var predictions := RunReplay(buf, ids, tokens, positions, pads);
      return Decoded(predictions);
    }

    /** Fill, replay, advance; the padding rows' predictions are dropped. */
    method RunReplay(buf: Buffers, ids: seq<SeqId>, tokens: seq<Token>, positions: seq<Pos>, pads: seq<SeqId>) returns (predictions: seq<Token>)
      requires buf.Valid() && buf.size == |ids| + |pads| && cache.Valid() && cache.kv as object !in buf.Arrays()
      requires ReplayFits(cache.View(), ids, tokens, pads, buf.width) && positions == RowSlots(cache.View(), ids)
      modifies buf.Arrays(), cache, cache.kv
      ensures cache.Valid() && (cache.View(), predictions) == Replay(model, old(cache.View()), ids, tokens, pads, buf.width)
    {
      hide Wf, GraphStep, KvCacheManager.Valid, AllRows, RowsFit, Narrow, RowSlots;
      ghost var c := cache.View();
      SizeOf(c);
      FillRows(buf, ids, tokens, positions, pads);
      var all := RunGraphStep(buf, AllRows(c, ids, tokens, pads, buf.width));
      AdvanceRows(cache, ids);
      return all[..|ids|];
    }
  }

  lemma EmptySound(c: Cache, id: SeqId)
    requires Sound(c, {}) && id !in c.seqs
    ensures Sound(CreateSequence(c, id), {})
  {
    assert Elems([]) == {};
    hide Counted, FreeExact, SharedIndexed, TablesDistinct;
    AttachSound(c, id, [], 0);
  }

  lemma RunSound(m: Model, c: Cache, id: SeqId)
    requires Sound(c, {}) && id in c.seqs && c.seqs[id].len + 1 <= |c.seqs[id].table| * c.blockSize
    ensures Sound(RunChunk(m, c, id, [0]), {})
  {
    hide Counted, FreeExact, SharedIndexed, TablesDistinct, Append;
    AppendValuesSound(c, id, Extend(m, Reached(c, id, c.seqs[id].len), [0])[c.seqs[id].len..]);
  }

  lemma MoreScratch(c: Cache, after: Cache, scratch: seq<SeqId>, id: SeqId)
    requires ScratchReady(c, scratch) && id !in c.seqs && id in after.seqs && after.info == c.info
    requires forall x | x in c.seqs :: x in after.seqs && after.seqs[x] == c.seqs[x]
    requires after.seqs[id].len == 1 && |after.seqs[id].table| == 1 && after.seqs[id].table[0] !in after.info
    ensures ScratchReady(after, scratch + [id])
  {
    forall i | 0 <= i < |scratch| ensures scratch[i] != id {
      assert scratch[i] in c.seqs;
    }
  }

  lemma ScratchCreated(m: Model, c: Cache, id: SeqId)
    requires Sound(c, {}) && id !in c.seqs
    ensures Wf(c) && id in CreateSequence(c, id).seqs
    ensures var (after, p) := ContinuePrefill(m, CreateSequence(c, id), id, [0]);
            && Sound(after, {})
            && (forall x | x in c.seqs :: x in after.seqs && after.seqs[x] == c.seqs[x])
            && after.seqs.Keys == c.seqs.Keys + {id} && after.info == c.info
            && (p.Some? ==> after.seqs[id].len == 1 && |after.seqs[id].table| == 1 && after.seqs[id].table[0] !in after.info)
  {
    hide Counted, FreeExact, SharedIndexed, TablesDistinct, NoDup;
    EmptySound(c, id);
    var created := CreateSequence(c, id);
    var B := created.blockSize;
    BlocksForLeast(B, 0, 0);
    BlocksForNext(B, 0);
    GrowSound(created, id, BlocksFor(B, 1));
    var grown := Reserve(created, id, 1).0;
    if Reserve(created, id, 1).1 {
      RunSound(m, grown, id);
    }
  }
}
