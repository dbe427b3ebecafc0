/** Every operation of the cache manager keeps `Sound` and `Faithful`, with its effect on the
    cached tokens of each sequence. */
module CacheOperations {
  import opened LanguageModel
  import opened Options
  import opened Positions
  import opened PagedKvCache
  import opened CacheInvariant

  /** From block k on, a sequence's blocks are outside the prefix index, so they are its own. */
  ghost predicate PrivateFrom(info: map<Block, BlockInfo>, table: seq<Block>, k: int) {
    forall i | 0 <= i < |table| && k <= i :: table[i] !in info
  }

  /** Reserving room changes no cached content and adds only private blocks. */
  lemma GrowFaithful(m: Model, c: Cache, hist: map<SeqId, seq<Token>>, id: SeqId, target: nat)
    requires Sound(c, {}) && Faithful(m, c, hist) && id in c.seqs
    ensures Faithful(m, Grow(c, id, target).0, hist)
  {
    GrowSound(c, id, target);
    var after := Grow(c, id, target).0;
    forall x | x in hist ensures x in after.seqs && Holds(m, after.store, after.blockSize, after.seqs[x], hist[x]) {
      GatherGrown(c.store, c.blockSize, c.seqs[x].table, after.seqs[x].table, |hist[x]|);
    }
    forall x, i | x in after.seqs && 0 <= i < |after.seqs[x].table| && after.seqs[x].table[i] in after.info
      ensures x in hist && FiledAs(after.info, after.hash, after.blockSize, hist[x], i, after.seqs[x].table[i])
    {
      if x == id {
        assert i < |c.seqs[id].table|;
        assert after.seqs[x].table[i] == c.seqs[x].table[i];
      }
      assert FiledAs(c.info, c.hash, c.blockSize, hist[x], i, c.seqs[x].table[i]);
    }
  }

  /** Writing the entries of `chunk` after the cached ones extends the sequence and nothing else. */
  lemma AppendFaithful(m: Model, c: Cache, hist: map<SeqId, seq<Token>>, id: SeqId, chunk: seq<Token>, values: seq<Kv>)
    requires Sound(c, {}) && Faithful(m, c, hist) && id in hist
    requires |chunk| == |values| && Entries(m, hist[id]) + values == Entries(m, hist[id] + chunk)
    requires |hist[id]| + |chunk| <= |c.seqs[id].table| * c.blockSize
    requires PrivateFrom(c.info, c.seqs[id].table, |hist[id]| / c.blockSize)
    ensures Sound(Append(c, id, values), {})
    ensures Faithful(m, Append(c, id, values), hist[id := hist[id] + chunk])
  {
    AppendValuesSound(c, id, values);
    AppendHolds(m, c, hist, id, chunk, values);
    AppendedFiled(m, c, hist, id, chunk, Append(c, id, values));
  }

  lemma AppendValuesSound(c: Cache, id: SeqId, values: seq<Kv>)
    requires Sound(c, {}) && id in c.seqs && c.seqs[id].len + |values| <= |c.seqs[id].table| * c.blockSize
    ensures Sound(Append(c, id, values), {})
  {
    SameTablesSound(c, Append(c, id, values));
  }

  lemma AppendHolds(m: Model, c: Cache, hist: map<SeqId, seq<Token>>, id: SeqId, chunk: seq<Token>, values: seq<Kv>)
    requires Sound(c, {}) && Faithful(m, c, hist) && id in hist
    requires |chunk| == |values| && Entries(m, hist[id]) + values == Entries(m, hist[id] + chunk)
    requires |hist[id]| + |chunk| <= |c.seqs[id].table| * c.blockSize
    requires PrivateFrom(c.info, c.seqs[id].table, |hist[id]| / c.blockSize)
    ensures Holds(m, Append(c, id, values).store, c.blockSize, Append(c, id, values).seqs[id], hist[id] + chunk)
    ensures forall x | x in hist && x != id :: Holds(m, Append(c, id, values).store, c.blockSize, c.seqs[x], hist[x])
  {
    AppendedReads(c.store, c.blockSize, c.seqs[id].table, |hist[id]|, values);
    forall x | x in hist && x != id ensures Holds(m, Append(c, id, values).store, c.blockSize, c.seqs[x], hist[x]) {
      AppendKeepsOther(m, c, id, x, hist[x], values);
    }
  }

  lemma AppendKeepsOther(m: Model, c: Cache, id: SeqId, x: SeqId, toks: seq<Token>, values: seq<Kv>)
    requires Sound(c, {}) && id in c.seqs && x in c.seqs && x != id && Holds(m, c.store, c.blockSize, c.seqs[x], toks)
    requires c.seqs[id].len + |values| <= |c.seqs[id].table| * c.blockSize
    requires PrivateFrom(c.info, c.seqs[id].table, c.seqs[id].len / c.blockSize)
    ensures Holds(m, Append(c, id, values).store, c.blockSize, c.seqs[x], toks)
  {
    var slots := Slots(c.seqs[id].table, c.blockSize, c.seqs[id].len, |values|);
    SlotsDistinct(c.seqs[id].table, c.blockSize, c.seqs[id].len, |values|);
    AppendedElsewhere(c, id, x, c.seqs[id].len, slots);
    ReadUnwritten(c.store, Slots(c.seqs[x].table, c.blockSize, 0, |toks|), slots, values);
  }

  lemma AppendedFiled(m: Model, c: Cache, hist: map<SeqId, seq<Token>>, id: SeqId, chunk: seq<Token>, after: Cache)
    requires Sound(c, {}) && Faithful(m, c, hist) && id in hist && Wf(after)
    requires after == c.(store := after.store, seqs := c.seqs[id := c.seqs[id].(len := |hist[id]| + |chunk|)])
    ensures Filed(after.info, after.seqs, after.hash, after.blockSize, hist[id := hist[id] + chunk])
  {
    var longer := hist[id := hist[id] + chunk];
    forall x, i | x in after.seqs && 0 <= i < |after.seqs[x].table| && after.seqs[x].table[i] in after.info
      ensures x in longer && FiledAs(after.info, after.hash, after.blockSize, longer[x], i, after.seqs[x].table[i])
    {
      assert FiledAs(c.info, c.hash, c.blockSize, hist[x], i, c.seqs[x].table[i]);
      ChainExtends(c.hash, c.blockSize, hist[x], longer[x], i + 1);
      MulMonotone(i, i + 1, c.blockSize);
    }
  }

  /** A hash chain depends only on the whole blocks it covers. */
  lemma {:induction false} ChainExtends(hash: (Option<Hash>, seq<Token>) -> Hash, B: nat, a: seq<Token>, b: seq<Token>, n: nat)
    requires n * B <= |a| && n * B <= |b| && a[..n * B] == b[..n * B]
    ensures Chain(hash, B, a, n) == Chain(hash, B, b, n)
    ensures n > 0 ==> n * B == (n - 1) * B + B && Chunk(a, B, n - 1) == Chunk(b, B, n - 1)
  {
    if n > 0 {
      assert n * B == (n - 1) * B + B;
      assert a[..(n - 1) * B] == a[..n * B][..(n - 1) * B];
      assert b[..(n - 1) * B] == b[..n * B][..(n - 1) * B];
      ChainExtends(hash, B, a, b, n - 1);
      assert Chunk(a, B, n - 1) == a[..n * B][(n - 1) * B..];
      assert Chunk(b, B, n - 1) == b[..n * B][(n - 1) * B..];
    }
  }

  /** After the write, the table reads the old entries followed by the new ones. */
  lemma AppendedReads(store: seq<seq<Kv>>, B: nat, table: seq<Block>, n: nat, values: seq<Kv>)
    requires B >= 1 && Readable(store, B, table) && NoDup(table)
    requires n + |values| <= |table| * B
    ensures
      var after := WriteAll(store, Slots(table, B, n, |values|), values);
      && Readable(after, B, table)
      && Gather(after, B, table, n + |values|) == Gather(store, B, table, n) + values
  {
    var slots, before := Slots(table, B, n, |values|), Slots(table, B, 0, n);
    SlotsSplit(table, B, 0, n, |values|);
    SlotsDistinct(table, B, 0, n + |values|);
    assert Slots(table, B, 0, n + |values|) == before + slots;
    ReadAfterWrite(store, before, slots, values);
    var after := WriteAll(store, slots, values);
    assert Gather(after, B, table, n + |values|) == ReadAll(after, before + slots);
  }

  lemma ReadAfterWrite(store: seq<seq<Kv>>, before: seq<Pos>, slots: seq<Pos>, values: seq<Kv>)
    requires |slots| == |values| && AllInStore(store, before) && AllInStore(store, slots) && NoDup(before + slots)
    ensures AllInStore(WriteAll(store, slots, values), before + slots)
    ensures ReadAll(WriteAll(store, slots, values), before + slots) == ReadAll(store, before) + values
  {
    var all := before + slots;
    forall i, j | 0 <= i < j < |slots| ensures slots[i] != slots[j] {
      assert all[|before| + i] != all[|before| + j];
    }
    forall i, j | 0 <= i < |before| && 0 <= j < |slots| ensures before[i] != slots[j] {
      assert all[i] != all[|before| + j];
    }
    ReadUnwritten(store, before, slots, values);
    ReadWritten(store, slots, values);
    ReadConcat(WriteAll(store, slots, values), before, slots);
  }

  /** The slots written for one sequence are in no block another sequence lists. */
  lemma AppendedElsewhere(c: Cache, id: SeqId, other: SeqId, from: nat, slots: seq<Pos>)
    requires Sound(c, {}) && id in c.seqs && other in c.seqs && id != other
    requires PrivateFrom(c.info, c.seqs[id].table, from / c.blockSize)
    requires from + |slots| <= |c.seqs[id].table| * c.blockSize
    requires slots == Slots(c.seqs[id].table, c.blockSize, from, |slots|)
    ensures Apart(Slots(c.seqs[other].table, c.blockSize, 0, c.seqs[other].len), slots)
  {
    forall i | 0 <= i < |slots| ensures slots[i].block !in c.seqs[other].table {
      SlotIsPrivate(c, id, from, i);
      assert other in Holders(c.seqs, slots[i].block) <==> slots[i].block in c.seqs[other].table;
    }
  }

  lemma SlotIsPrivate(c: Cache, id: SeqId, from: nat, i: nat)
    requires Sound(c, {}) && id in c.seqs && PrivateFrom(c.info, c.seqs[id].table, from / c.blockSize)
    requires from + i < |c.seqs[id].table| * c.blockSize
    ensures Holders(c.seqs, PosOf(c.seqs[id].table, c.blockSize, from + i).block) == {id}
  {
    DivMonotone(from, from + i, c.blockSize);
    DivLess(from + i, c.blockSize, |c.seqs[id].table|);
  }

  // ---- creating and releasing sequences ----

  lemma CreateSequenceKeeps(m: Model, c: Cache, hist: map<SeqId, seq<Token>>, id: SeqId)
    requires Sound(c, {}) && Faithful(m, c, hist) && id !in c.seqs
    ensures Sound(CreateSequence(c, id), {}) && Faithful(m, CreateSequence(c, id), hist[id := []])
  {
    assert Elems([]) == {};
    AttachSound(c, id, [], 0);
    var after := CreateSequence(c, id);
    hide Counted, FreeExact, SharedIndexed, TablesDistinct;
    forall x | x in hist ensures Holds(m, after.store, after.blockSize, after.seqs[x], hist[x]) {
      assert Holds(m, c.store, c.blockSize, c.seqs[x], hist[x]);
    }
    forall x, i | x in after.seqs && 0 <= i < |after.seqs[x].table| && after.seqs[x].table[i] in after.info
      ensures x in hist && x != id && FiledAs(after.info, after.hash, after.blockSize, hist[x], i, after.seqs[x].table[i])
    {
      assert FiledAs(c.info, c.hash, c.blockSize, hist[x], i, c.seqs[x].table[i]);
    }
  }

  /** Releasing a sequence frees exactly the blocks no other sequence names, and touches nobody else. */
  lemma FreeSequenceKeeps(m: Model, c: Cache, hist: map<SeqId, seq<Token>>, id: SeqId)
    requires Sound(c, {}) && Faithful(m, c, hist) && id in c.seqs
    ensures Sound(FreeSequence(c, id), {}) && Faithful(m, FreeSequence(c, id), hist - {id})
    ensures FreeSequence(c, id).seqs == c.seqs - {id} && FreeSequence(c, id).store == c.store
    ensures FreeSequence(c, id).info.Items <= c.info.Items
    ensures IndexLeft(c, id, FreeSequence(c, id))
  {
    hide Gather, Wf, Counted, FreeExact, SharedIndexed, FreeBlock, FreeBlocks, IndexLeft;
    FreeSequenceSound(c, id);
    FreeSequenceIndex(c, id);
    var after := FreeSequence(c, id);
    forall x, i | x in after.seqs && 0 <= i < |after.seqs[x].table| && after.seqs[x].table[i] in after.info
      ensures x in hist - {id} && FiledAs(after.info, after.hash, after.blockSize, hist[x], i, after.seqs[x].table[i])
    {
      var b := after.seqs[x].table[i];
      assert (b, after.info[b]) in after.info.Items;
      assert FiledAs(c.info, c.hash, c.blockSize, hist[x], i, c.seqs[x].table[i]);
    }
  }

  /** Some other sequence holds the block. */
  ghost predicate HeldElsewhere(c: Cache, id: SeqId, b: Block) {
    exists x :: x in c.seqs && x != id && b in c.seqs[x].table
  }

  /** What freeing a sequence leaves of the index: exactly the blocks that somebody else holds stay
      filed, and exactly the hashes that lead to one of those stay indexed, and to the same block. */
  ghost predicate IndexLeft(c: Cache, id: SeqId, after: Cache) {
    && (forall b :: b in after.info <==> b in c.info && HeldElsewhere(c, id, b))
    && (forall h :: h in after.index <==> h in c.index && HeldElsewhere(c, id, c.index[h]))
    && (forall h | h in after.index :: h in c.index && after.index[h] == c.index[h])
  }

  /** A hash leaves the index exactly with the block it leads to. */
  lemma {:induction false} FreeBlocksIndex(c: Cache, blocks: seq<Block>)
    requires Wf(c) && InRange(c, blocks)
    ensures var after := FreeBlocks(c, blocks);
            IndexFollows(c, after)
    decreases |blocks|
  {
    hide Wf, FreeBlock;
    if blocks != [] {
      var n := |blocks| - 1;
      FreeBlocksIndex(c, blocks[..n]);
      FreeBlockIndex(FreeBlocks(c, blocks[..n]), blocks[n]);
    } else {
      NothingFreed(c);
    }
  }

  lemma NothingFreed(c: Cache)
    requires Wf(c)
    ensures IndexFollows(c, c)
  {
  }

  /** Blocks only leave, and exactly the hashes that lead to one that left go with it. */
  ghost predicate IndexFollows(c: Cache, after: Cache) {
    && (forall b | b in after.info :: b in c.info && after.info[b] == c.info[b])
    && (forall h :: h in after.index <==> h in c.index && c.index[h] in after.info)
    && (forall h | h in after.index :: h in c.index && after.index[h] == c.index[h])
  }

  lemma FreeBlockIndex(c: Cache, b: Block)
    requires Wf(c) && b < |c.refs|
    ensures IndexFollows(c, FreeBlock(c, b))
  {
  }

  lemma FreeSequenceIndex(c: Cache, id: SeqId)
    requires Sound(c, {}) && id in c.seqs
    ensures IndexLeft(c, id, FreeSequence(c, id))
  {
    hide Sound, FreeBlocks, NoDup, Wf, HeldElsewhere, Holders;
    SoundTable(c, id);
    DetachSound(c, id);
    var table, detached, after := c.seqs[id].table, c.(seqs := c.seqs - {id}), FreeSequence(c, id);
    FreeBlocksSound(detached, Elems(table), table);
    FreeBlocksIndex(detached, table);
    FreeSequenceSound(c, id);
    forall b | b in after.info ensures HeldElsewhere(c, id, b) {
      LiveHolder(after, b);
      StillHeld(c, id, after, b);
    }
    forall b | b in c.info && b !in after.info ensures !HeldElsewhere(c, id, b) {
      NotHeld(c, id, b);
    }
  }

  lemma StillHeld(c: Cache, id: SeqId, after: Cache, b: Block)
    requires after.seqs == c.seqs - {id} && exists x :: x in after.seqs && b in after.seqs[x].table
    ensures HeldElsewhere(c, id, b)
  {
  }

  lemma NotHeld(c: Cache, id: SeqId, b: Block)
    requires Holders(c.seqs - {id}, b) == {}
    ensures !HeldElsewhere(c, id, b)
  {
    forall x | x in c.seqs && x != id ensures b !in c.seqs[x].table {
      assert x !in Holders(c.seqs - {id}, b);
    }
  }

  lemma SoundTable(c: Cache, id: SeqId)
    requires Sound(c, {}) && id in c.seqs
    ensures NoDup(c.seqs[id].table) && InRange(c, c.seqs[id].table) && Wf(c) && Wf(c.(seqs := c.seqs - {id}))
  {
  }

  lemma LiveHolder(c: Cache, b: Block)
    requires Sound(c, {}) && b in c.info
    ensures exists x :: x in c.seqs && b in c.seqs[x].table
  {
    assert c.refs[b] > 0 && c.refs[b] == |Holders(c.seqs, b)|;
    var x := Member(Holders(c.seqs, b));
  }

  lemma FreeSequenceSound(c: Cache, id: SeqId)
    requires Sound(c, {}) && id in c.seqs
    ensures Sound(FreeSequence(c, id), {}) && FreeSequence(c, id).info.Items <= c.info.Items
  {
    hide Wf, Counted, FreeExact, SharedIndexed, FreeBlock, FreeBlocks;
    var table := c.seqs[id].table;
    var detached := c.(seqs := c.seqs - {id});
    DetachSound(c, id);
    assert TablesDistinct(c.seqs);
    assert NoDup(table);
    FreeBlocksSound(detached, Elems(table), table);
    assert Elems(table) - Elems(table) == {};
  }

  /** Forgetting positions is safe as long as no indexed block becomes writable. */
  lemma RollbackKeeps(m: Model, c: Cache, hist: map<SeqId, seq<Token>>, id: SeqId, n: nat)
    requires Sound(c, {}) && Faithful(m, c, hist) && id in hist && n <= |hist[id]|
    requires PrivateFrom(c.info, c.seqs[id].table, (|hist[id]| - n) / c.blockSize)
    ensures Sound(Rollback(c, id, n), {})
    ensures Faithful(m, Rollback(c, id, n), hist[id := hist[id][..|hist[id]| - n]])
  {
    var after, kept := Rollback(c, id, n), |hist[id]| - n;
    SameTablesSound(c, after);
    EntriesPrefix(m, hist[id], kept);
    SlotsSplit(c.seqs[id].table, c.blockSize, 0, kept, n);
    assert Gather(c.store, c.blockSize, c.seqs[id].table, kept) == Gather(c.store, c.blockSize, c.seqs[id].table, kept + n)[..kept];
    RollbackFiled(m, c, hist, id, kept, after);
  }

  lemma RollbackFiled(m: Model, c: Cache, hist: map<SeqId, seq<Token>>, id: SeqId, kept: nat, after: Cache)
    requires Sound(c, {}) && Faithful(m, c, hist) && id in hist && kept <= |hist[id]|
    requires PrivateFrom(c.info, c.seqs[id].table, kept / c.blockSize)
    requires after == c.(seqs := c.seqs[id := c.seqs[id].(len := kept)])
    ensures Filed(after.info, after.seqs, after.hash, after.blockSize, hist[id := hist[id][..kept]])
  {
    var shorter := hist[id := hist[id][..kept]];
    forall x, i | x in after.seqs && 0 <= i < |after.seqs[x].table| && after.seqs[x].table[i] in after.info
      ensures x in shorter && FiledAs(after.info, after.hash, after.blockSize, shorter[x], i, after.seqs[x].table[i])
    {
      assert FiledAs(c.info, c.hash, c.blockSize, hist[x], i, c.seqs[x].table[i]);
      if x == id {
        DivLess(kept, c.blockSize, i + 1);
        MulMonotone(i, i + 1, c.blockSize);
        ChainExtends(c.hash, c.blockSize, hist[x], shorter[x], i + 1);
      }
    }
  }

  /** Accounting depends on tables, counts, free list and index only. */
  lemma SameTablesSound(c: Cache, after: Cache)
    requires Sound(c, {}) && Wf(after)
    requires after == c.(store := after.store, seqs := after.seqs, host := after.host)
    requires after.seqs.Keys == c.seqs.Keys
    requires forall x | x in c.seqs :: after.seqs[x].table == c.seqs[x].table
    ensures Sound(after, {})
  {
    forall b ensures Holders(after.seqs, b) == Holders(c.seqs, b) {
      assert forall x :: x in Holders(after.seqs, b) <==> x in Holders(c.seqs, b);
    }
  }
}
