/** Swapping to the host and back: what survives, and exactly when the way back exists. */
module SwapToHost {
  import opened LanguageModel
  import opened Options
  import opened Positions
  import opened PagedKvCache
  import opened CacheInvariant
  import opened CacheOperations

  /** A table with no spare block. */
  predicate Tight(c: Cache, id: SeqId)
    requires id in c.seqs && c.blockSize >= 1
  {
    |c.seqs[id].table| == BlocksFor(c.blockSize, c.seqs[id].len)
  }

  /** Rows copied out of the store read the same through the identity table. */
  lemma CopyReadsSame(store: seq<seq<Kv>>, B: nat, table: seq<Block>, rows: seq<seq<Kv>>, n: nat)
    requires B >= 1 && Readable(store, B, table) && n <= |table| * B
    requires |rows| == |table| && forall i | 0 <= i < |rows| :: rows[i] == store[table[i]]
    ensures Readable(rows, B, Iota(|rows|))
    ensures Gather(rows, B, Iota(|rows|), n) == Gather(store, B, table, n)
  {
    assert Readable(rows, B, Iota(|rows|));
    hide Readable, Rows, PosOf;
    forall p | 0 <= p < n
      ensures InStore(rows, PosOf(Iota(|rows|), B, p)) && InStore(store, PosOf(table, B, p))
      ensures At(rows, PosOf(Iota(|rows|), B, p)) == At(store, PosOf(table, B, p))
    {
      CopyReadsAt(store, B, table, rows, p);
    }
  }

  lemma CopyReadsAt(store: seq<seq<Kv>>, B: nat, table: seq<Block>, rows: seq<seq<Kv>>, p: nat)
    requires B >= 1 && Readable(store, B, table) && p < |table| * B
    requires |rows| == |table| && forall i | 0 <= i < |rows| :: rows[i] == store[table[i]]
    ensures InStore(rows, PosOf(Iota(|rows|), B, p)) && InStore(store, PosOf(table, B, p))
    ensures At(rows, PosOf(Iota(|rows|), B, p)) == At(store, PosOf(table, B, p))
  {
    DivMod(p, B);
    DivLess(p, B, |table|);
    assert Iota(|rows|)[p / B] == p / B;
  }

  /** Swapping a tight sequence out saves its whole cache and releases it on the device. */
  lemma SwapOutKeeps(m: Model, c: Cache, hist: map<SeqId, seq<Token>>, saved: map<SeqId, seq<Token>>, id: SeqId)
    requires Sound(c, {}) && Faithful(m, c, hist) && HostFaithful(m, c.blockSize, c.host, saved)
    requires id in hist && Tight(c, id)
    ensures
      var after := SwapOut(c, id);
      && Sound(after, {}) && Faithful(m, after, hist - {id})
      && HostFaithful(m, c.blockSize, after.host, saved[id := hist[id]])
      && after.seqs == c.seqs - {id} && after.info.Items <= c.info.Items
      && after.host == c.host[id := after.host[id]] && after.host[id].len == c.seqs[id].len
      && |after.host[id].blocks| == |c.seqs[id].table|
  {
    FreeSequenceKeeps(m, c, hist, id);
    var after := SwapOut(c, id);
    var freed := FreeSequence(c, id);
    assert Holds(m, c.store, c.blockSize, c.seqs[id], hist[id]);
    CopyReadsSame(c.store, c.blockSize, c.seqs[id].table, after.host[id].blocks, c.seqs[id].len);
    hide FreeSequence, Filed, FreeExact, Counted, SharedIndexed, TablesDistinct, Holds, Gather;
    assert after == freed.(host := after.host);
  }

  lemma {:induction false} AllocateNSound(c: Cache, n: nat)
    requires Sound(c, {})
    ensures
      var (after, taken, ok) := AllocateN(c, n);
      && (ok <==> n <= |c.free|)
      && |after.free| + |taken| == |c.free|
      && Sound(after, Elems(taken)) && NoDup(taken)
      && (forall b | b in taken :: b !in c.info && Holders(c.seqs, b) == {})
  {
    hide Wf, Counted, FreeExact, SharedIndexed, TablesDistinct, Holders;
    if n == 0 {
      assert Elems([]) == {};
    } else {
      var (before, taken, ok) := AllocateN(c, n - 1);
      AllocateNSound(c, n - 1);
      if ok && before.free != [] {
        var b := Allocate(before).value.1;
        AllocateSound(before, Elems(taken));
        assert Elems(taken + [b]) == Elems(taken) + {b};
        assert b !in taken;
      }
    }
  }

  lemma {:induction false} WriteBlocksAt(store: seq<seq<Kv>>, blocks: seq<Block>, rows: seq<seq<Kv>>, b: Block)
    requires |blocks| == |rows| && NoDup(blocks) && b < |store|
    requires forall i | 0 <= i < |blocks| :: blocks[i] < |store|
    ensures b !in blocks ==> WriteBlocks(store, blocks, rows)[b] == store[b]
    ensures forall i | 0 <= i < |blocks| && blocks[i] == b :: WriteBlocks(store, blocks, rows)[b] == rows[i]
    decreases |blocks|
  {
    if blocks != [] {
      WriteBlocksAt(store, blocks[..|blocks| - 1], rows[..|rows| - 1], b);
    }
  }

  /** The way back exists exactly when there is room and the copy has as many rows as its length
      needs, or just one. */
  lemma SwapInSucceedsIff(c: Cache, id: SeqId)
    requires Sound(c, {}) && id in c.host
    requires Rows(c.host[id].blocks, c.blockSize)
    ensures SwapIn(c, id).1 <==>
            && BlocksFor(c.blockSize, c.host[id].len) <= |c.free|
            && (|c.host[id].blocks| == BlocksFor(c.blockSize, c.host[id].len) || |c.host[id].blocks| == 1)
  {
    AllocateNSound(c.(host := c.host - {id}), BlocksFor(c.blockSize, c.host[id].len));
  }

  /** A swapped-in sequence has its saved cache again, in fresh blocks of its own. */
  lemma SwapInKeeps(m: Model, c: Cache, hist: map<SeqId, seq<Token>>, saved: map<SeqId, seq<Token>>, id: SeqId)
    requires Sound(c, {}) && Faithful(m, c, hist) && HostFaithful(m, c.blockSize, c.host, saved)
    requires id in saved && id !in c.seqs && BlocksFor(c.blockSize, c.host[id].len) <= |c.free|
    ensures
      var (after, ok) := SwapIn(c, id);
      && ok && Sound(after, {}) && Faithful(m, after, hist[id := saved[id]])
      && HostFaithful(m, c.blockSize, after.host, saved - {id})
      && after.info == c.info && after.host == c.host - {id}
      && id in after.seqs && after.seqs == c.seqs[id := after.seqs[id]] && Tight(after, id)
      && after.seqs[id].len == c.host[id].len
      && PrivateFrom(after.info, after.seqs[id].table, 0)
      && |after.free| + |after.seqs[id].table| == |c.free|
  {
    hide Wf, Counted, FreeExact, SharedIndexed, TablesDistinct, SwapIn, AllocateN, WriteBlocks, Gather, Filed, Rows, NoDup;
    var r := SwapInAccounting(c, id);
    var table := r.0;
    var after := SwapIn(c, id).0;
    assert forall x | x in hist :: x in c.seqs && Holds(m, c.store, c.blockSize, c.seqs[x], hist[x]);
    assert HostHolds(m, c.blockSize, c.host[id], saved[id]);
    assert Filed(c.info, c.seqs, c.hash, c.blockSize, hist);
    hide Sound, Holds, HostHolds;
    forall x | x in hist ensures Holds(m, after.store, c.blockSize, c.seqs[x], hist[x]) {
      SwapInKeepsOther(m, c, table, c.host[id].blocks, x, hist[x]);
    }
    SwapInRestores(m, c, table, c.host[id], saved[id]);
    SwapInFiled(c, hist, id, saved[id], table, c.host[id].len);
  }

  lemma SwapInAccounting(c: Cache, id: SeqId) returns (r: (seq<Block>, Cache))
    requires Sound(c, {}) && id in c.host && id !in c.seqs
    requires BlocksFor(c.blockSize, c.host[id].len) <= |c.free|
    requires Rows(c.host[id].blocks, c.blockSize)
    requires |c.host[id].blocks| == BlocksFor(c.blockSize, c.host[id].len)
    ensures
      var table := r.0;
      var (after, ok) := SwapIn(c, id);
      && ok && Sound(after, {}) && NoDup(table) && InRange(c, table)
      && |table| == |c.host[id].blocks|
      && (forall b | b in table :: b !in c.info && Holders(c.seqs, b) == {})
      && after == c.(free := after.free, refs := after.refs, host := c.host - {id},
                     store := WriteBlocks(c.store, table, c.host[id].blocks),
                     seqs := c.seqs[id := SeqState(table, c.host[id].len)])
      && |after.free| + |table| == |c.free|
  {
    var copy, base := c.host[id], c.(host := c.host - {id});
    AllocateNSound(base, BlocksFor(c.blockSize, copy.len));
    var (mid, table, ok) := AllocateN(base, BlocksFor(c.blockSize, copy.len));
    BlocksForLeast(c.blockSize, copy.len, |table|);
    AttachSound(mid, id, table, copy.len);
    r := (table, mid);
    var after := SwapIn(c, id).0;
    hide Counted, FreeExact, SharedIndexed, TablesDistinct, Holders, AllocateN, WriteBlocks;
    SwapInSound(mid.(seqs := mid.seqs[id := SeqState(table, copy.len)]), after);
  }

  lemma SwapInSound(mid: Cache, after: Cache)
    requires Sound(mid, {}) && Wf(after) && after == mid.(store := after.store)
    ensures Sound(after, {})
  {
    hide Wf, Counted, FreeExact, SharedIndexed, TablesDistinct;
  }

  lemma SwapInKeepsOther(m: Model, c: Cache, table: seq<Block>, rows: seq<seq<Kv>>, x: SeqId, toks: seq<Token>)
    requires Wf(c) && x in c.seqs && Holds(m, c.store, c.blockSize, c.seqs[x], toks)
    requires |table| == |rows| && NoDup(table) && InRange(c, table)
    requires Rows(rows, c.blockSize)
    requires forall b | b in table :: Holders(c.seqs, b) == {}
    ensures Holds(m, WriteBlocks(c.store, table, rows), c.blockSize, c.seqs[x], toks)
  {
    var after, st := WriteBlocks(c.store, table, rows), c.seqs[x];
    WriteBlocksRows(c.store, table, rows, c.blockSize);
    assert Readable(after, c.blockSize, st.table);
    var slots := Slots(st.table, c.blockSize, 0, st.len);
    forall i | 0 <= i < |slots| ensures InStore(after, slots[i]) && At(after, slots[i]) == At(c.store, slots[i]) {
      var b := slots[i].block;
      assert x in Holders(c.seqs, b);
      WriteBlocksAt(c.store, table, rows, b);
    }
    assert Gather(after, c.blockSize, st.table, st.len) == Gather(c.store, c.blockSize, st.table, st.len);
  }

  lemma SwapInRestores(m: Model, c: Cache, table: seq<Block>, copy: HostCopy, toks: seq<Token>)
    requires Wf(c) && HostHolds(m, c.blockSize, copy, toks)
    requires |table| == |copy.blocks| && NoDup(table) && InRange(c, table)
    ensures Holds(m, WriteBlocks(c.store, table, copy.blocks), c.blockSize, SeqState(table, copy.len), toks)
  {
    var after := WriteBlocks(c.store, table, copy.blocks);
    assert forall i | 0 <= i < |copy.blocks| :: Iota(|copy.blocks|)[i] == i;
    WriteBlocksRows(c.store, table, copy.blocks, c.blockSize);
    forall i | 0 <= i < |table| ensures copy.blocks[i] == after[table[i]] {
      WriteBlocksAt(c.store, table, copy.blocks, table[i]);
    }
    CopyReadsSame(after, c.blockSize, table, copy.blocks, copy.len);
  }

  lemma SwapInFiled(c: Cache, hist: map<SeqId, seq<Token>>, id: SeqId, toks: seq<Token>, table: seq<Block>, len: nat)
    requires Filed(c.info, c.seqs, c.hash, c.blockSize, hist) && id !in c.seqs
    requires forall b | b in table :: b !in c.info
    ensures Filed(c.info, c.seqs[id := SeqState(table, len)], c.hash, c.blockSize, hist[id := toks])
  {
    hide FiledAs;
  }

  // ---- the round trip ----

  /** Out, then anything that leaves the snapshot alone, then back in. It succeeds exactly when there
      is room and the table had no spare block (or only that one block, and then no token), and then
      restores the length and every entry, in blocks that were free and now belong to this sequence
      alone. */
  lemma SwapRoundTrip(c: Cache, id: SeqId, later: Cache)
    requires Sound(c, {}) && id in c.seqs && c.blockSize >= 1
    requires Sound(later, {}) && later.blockSize == c.blockSize && id !in later.seqs
    requires Wf(c) && id in later.host && later.host[id] == SwapOut(c, id).host[id]
    ensures Wf(later) && Rows(later.host[id].blocks, later.blockSize)
    ensures SwapIn(later, id).1 <==>
              (Tight(c, id) || (|c.seqs[id].table| == 1 && c.seqs[id].len == 0)) && BlocksFor(c.blockSize, c.seqs[id].len) <= |later.free|
    ensures SwapIn(later, id).1 ==>
              var after, before := SwapIn(later, id).0, c.seqs[id];
              && id in after.seqs && after.seqs[id].len == before.len
              && Readable(after.store, c.blockSize, after.seqs[id].table) && before.len <= |after.seqs[id].table| * c.blockSize
              && Gather(after.store, c.blockSize, after.seqs[id].table, before.len) == Gather(c.store, c.blockSize, before.table, before.len)
              && forall b | b in after.seqs[id].table :: b in later.free && Holders(after.seqs, b) == {id}
  {
    var copy, st, B := later.host[id], c.seqs[id], c.blockSize;
    SnapshotOf(c, id);
    SwapInSucceedsIff(later, id);
    BlocksForLeast(B, st.len, |st.table|);
    BlocksForAtLeast(B, st.len, 0);
    OneBlock(B, st.len);
    if SwapIn(later, id).1 {
      if Tight(c, id) {
        CopyReadsSame(c.store, B, st.table, copy.blocks, st.len);
        RestoredReads(later, id);
      } else {
        RestoredEmpty(later, id);
      }
    }
  }

  lemma OneBlock(B: nat, n: nat)
    requires B >= 1
    ensures 1 <= n <= B ==> BlocksFor(B, n) == 1
    ensures BlocksFor(B, 0) == 0
  {
    BlocksForLeast(B, n, 0);
    BlocksForLeast(B, n, 1);
    BlocksForLeast(B, 0, 0);
  }

  lemma RestoredEmpty(c: Cache, id: SeqId)
    requires Wf(c) && id in c.host && c.host[id].len == 0 && Rows(c.host[id].blocks, c.blockSize) && SwapIn(c, id).1
    ensures SwapIn(c, id).0 == c.(host := c.host - {id}, seqs := c.seqs[id := SeqState([], 0)])
  {
    OneBlock(c.blockSize, 0);
  }

  /** A tight sequence that is rolled back comes back from the host exactly if that freed no block, or
      it had only one: otherwise the rollback's spare blocks strand it. */
  lemma RolledBackReturns(c: Cache, id: SeqId, n: nat)
    requires Sound(c, {}) && Wf(c) && id in c.seqs && c.blockSize >= 1 && Tight(c, id) && n <= c.seqs[id].len
    ensures var after, B, len := SwapOut(Rollback(c, id, n), id), c.blockSize, c.seqs[id].len;
            && Wf(after) && Rows(after.host[id].blocks, B)
            && (BlocksFor(B, len - n) <= |after.free| ==>
                  (SwapIn(after, id).1 <==> BlocksFor(B, len - n) == BlocksFor(B, len) || BlocksFor(B, len) == 1))
  {
    var rolled := Rollback(c, id, n);
    var after := SwapOut(rolled, id);
    SnapshotOf(rolled, id);
    SameTablesSound(c, rolled);
    SwappedOutSound(rolled, id);
    SwapInSucceedsIff(after, id);
  }

  lemma SwappedOutSound(c: Cache, id: SeqId)
    requires Sound(c, {}) && Wf(c) && id in c.seqs
    ensures Sound(SwapOut(c, id), {})
  {
    hide FreeSequence, CopyRows, Wf, Counted, FreeExact, SharedIndexed, TablesDistinct;
    FreeSequenceSound(c, id);
    SameTablesSound(FreeSequence(c, id), SwapOut(c, id));
  }

  /** One slot to a block: two tokens cached, one rolled back. The table keeps its second block, and
      the swapped-out sequence cannot be swapped in again, however many blocks are free. */
  lemma RollbackStrands(c: Cache, id: SeqId, x: Kv, y: Kv)
    requires Sound(c, {}) && Wf(c) && c.blockSize == 1 && id !in c.seqs && |c.free| >= 2
    ensures var (reserved, ok) := Reserve(CreateSequence(c, id), id, 2);
            && ok && 2 <= |reserved.seqs[id].table|
            && var cached := Append(reserved, id, [x, y]);
            var rolled := Rollback(cached, id, 1);
            var out := SwapOut(rolled, id);
            && Tight(cached, id) && !Tight(rolled, id) && rolled.seqs[id].len == 1
            && Rows(out.host[id].blocks, 1) && !SwapIn(out, id).1
  {
    hide Sound, SwapOut, SwapIn, Grow, BlocksFor, Append, Broadcast, Rows;
    var created := CreateSequence(c, id);
    assert Elems([]) == {};
    AttachSound(c, id, [], 0);
    BlocksForLeast(1, 2, 2);
    BlocksForLeast(1, 2, 1);
    BlocksForLeast(1, 1, 1);
    BlocksForLeast(1, 1, 0);
    GrowSound(created, id, BlocksFor(1, 2));
    var reserved := Reserve(created, id, 2).0;
    StrandedOut(Rollback(Append(reserved, id, [x, y]), id, 1), id);
  }

  lemma StrandedOut(c: Cache, id: SeqId)
    requires Wf(c) && c.blockSize == 1 && id in c.seqs && c.seqs[id].len == 1 && |c.seqs[id].table| == 2 && BlocksFor(1, 1) == 1
    ensures Rows(SwapOut(c, id).host[id].blocks, 1) && !SwapIn(SwapOut(c, id), id).1
  {
    SnapshotOf(c, id);
  }

  lemma SnapshotOf(c: Cache, id: SeqId)
    requires Wf(c) && id in c.seqs
    ensures var copy := SwapOut(c, id).host[id];
            && Rows(copy.blocks, c.blockSize) && copy.len == c.seqs[id].len && |copy.blocks| == |c.seqs[id].table|
            && Readable(c.store, c.blockSize, c.seqs[id].table)
            && forall i | 0 <= i < |copy.blocks| :: copy.blocks[i] == c.store[c.seqs[id].table[i]]
  {
  }

  /** Blocks nobody held were free, and now have one holder. */
  lemma FreshBlocks(c: Cache, seqs: map<SeqId, SeqState>, id: SeqId, table: seq<Block>)
    requires Sound(c, {}) && InRange(c, table) && (forall b | b in table :: Holders(c.seqs, b) == {})
    requires id in seqs && seqs[id].table == table && seqs == c.seqs[id := seqs[id]]
    ensures forall b | b in table :: b in c.free && Holders(seqs, b) == {id}
  {
    hide SharedIndexed, TablesDistinct;
    forall b | b in table ensures b in c.free && Holders(seqs, b) == {id} {
      assert b < |c.refs| && |Holders(c.seqs, b)| == 0;
      assert forall x | x in c.seqs :: x in Holders(c.seqs, b) <==> b in c.seqs[x].table;
      assert forall x :: x in Holders(seqs, b) <==> x == id;
    }
  }

  lemma RestoredReads(c: Cache, id: SeqId)
    requires Sound(c, {}) && id in c.host && id !in c.seqs && c.blockSize >= 1 && Wf(c)
    requires Rows(c.host[id].blocks, c.blockSize) && SwapIn(c, id).1
    requires |c.host[id].blocks| == BlocksFor(c.blockSize, c.host[id].len)
    ensures
      var after, copy := SwapIn(c, id).0, c.host[id];
      && id in after.seqs && after.seqs[id].len == copy.len && |after.seqs[id].table| == |copy.blocks|
      && Readable(after.store, c.blockSize, after.seqs[id].table) && Readable(copy.blocks, c.blockSize, Iota(|copy.blocks|))
      && copy.len <= |after.seqs[id].table| * c.blockSize
      && Gather(after.store, c.blockSize, after.seqs[id].table, copy.len) == Gather(copy.blocks, c.blockSize, Iota(|copy.blocks|), copy.len)
      && forall b | b in after.seqs[id].table :: b in c.free && Holders(after.seqs, b) == {id}
  {
    hide Counted, FreeExact, SharedIndexed, TablesDistinct, Gather, SwapIn;
    SwapInSucceedsIff(c, id);
    var r := SwapInAccounting(c, id);
    var copy, after, table := c.host[id], SwapIn(c, id).0, r.0;
    forall i | 0 <= i < |table| ensures copy.blocks[i] == after.store[table[i]] {
      WriteBlocksAt(c.store, table, copy.blocks, table[i]);
    }
    WriteBlocksRows(c.store, table, copy.blocks, c.blockSize);
    BlocksForLeast(c.blockSize, copy.len, |table|);
    CopyReadsSame(after.store, c.blockSize, table, copy.blocks, copy.len);
    FreshBlocks(c, after.seqs, id, table);
  }
}
