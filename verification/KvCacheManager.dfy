/** The block allocator and the cache manager in their own form: objects updated in place. Every
    method is proved to do to the object what the function of PagedKvCache does to its value. */
module KvCacheManagers {
  import opened LanguageModel
  import opened Options
  import opened Positions
  import opened PagedKvCache
  import opened CacheInvariant

  class BlockAllocator {
    var freeBlocks: seq<Block>
    var refCounts: seq<nat>

    constructor (numBlocks: nat)
      ensures freeBlocks == seq(numBlocks, i => i) && refCounts == seq(numBlocks, i => 0)
    {
      freeBlocks := seq(numBlocks, i => i);
      refCounts := seq(numBlocks, i => 0);
    }

    /** Pops the last free block; None is the out-of-memory error. */
    method Allocate() returns (r: Option<Block>)
      requires forall i | 0 <= i < |freeBlocks| :: freeBlocks[i] < |refCounts|
      modifies this
      ensures old(freeBlocks) == [] ==> r.None? && freeBlocks == [] && refCounts == old(refCounts)
      ensures old(freeBlocks) != [] ==>
                && r == Some(old(freeBlocks)[|old(freeBlocks)| - 1])
                && freeBlocks == old(freeBlocks)[..|old(freeBlocks)| - 1]
                && refCounts == old(refCounts)[r.value := 1]
    {
      if freeBlocks == [] { return None; }
      var b := freeBlocks[|freeBlocks| - 1];
      freeBlocks := freeBlocks[..|freeBlocks| - 1];
      refCounts := refCounts[b := 1];
      return Some(b);
    }

    method AddRef(b: Block)
      requires b < |refCounts|
      modifies this
      ensures freeBlocks == old(freeBlocks) && refCounts == old(refCounts)[b := old(refCounts)[b] + 1]
    {
      refCounts := refCounts[b := refCounts[b] + 1];
    }

    /** Whether this was the last reference. */
    method Free(b: Block) returns (last: bool)
      requires b < |refCounts|
      modifies this
      ensures last == (old(refCounts)[b] <= 1)
      ensures refCounts == old(refCounts)[b := if last then 0 else old(refCounts)[b] - 1]
      ensures freeBlocks == if last then old(freeBlocks) + [b] else old(freeBlocks)
    {
      if refCounts[b] <= 1 {
        refCounts := refCounts[b := 0];
        freeBlocks := freeBlocks + [b];
        return true;
      }
      refCounts := refCounts[b := refCounts[b] - 1];
      return false;
    }
  }

  /** The rows of a cache tensor. */
  ghost function StoreOf(kv: array2<Kv>): (r: seq<seq<Kv>>)
    reads kv
    ensures |r| == kv.Length0
    ensures forall b | 0 <= b < kv.Length0 :: |r[b]| == kv.Length1
    ensures forall b, s | 0 <= b < kv.Length0 && 0 <= s < kv.Length1 :: r[b][s] == kv[b, s]
  {
    seq(kv.Length0, b requires 0 <= b < kv.Length0 reads kv =>
      seq(kv.Length1, s requires 0 <= s < kv.Length1 reads kv => kv[b, s]))
  }

  class KvCacheManager {
    const blockSize: nat
    const enablePrefixCaching: bool
    const hash: (Option<Hash>, seq<Token>) -> Hash
    const allocator: BlockAllocator
    const kv: array2<Kv>
    var sequences: map<SeqId, SeqState>
    var hashToBlock: map<Hash, Block>
    var blockHashInfo: map<Block, BlockInfo>
    var swappedKv: map<SeqId, seq<seq<Kv>>>
    var swappedContextLen: map<SeqId, nat>

    ghost function Host(): map<SeqId, HostCopy>
      reads this
    {
      map id | id in swappedKv && id in swappedContextLen :: HostCopy(swappedKv[id], swappedContextLen[id])
    }

    /** The object's value. */
    ghost function View(): (c: Cache)
      reads this, allocator, kv
    {
      Cache(blockSize, enablePrefixCaching, hash, allocator.freeBlocks, allocator.refCounts, StoreOf(kv),
            sequences, hashToBlock, blockHashInfo, Host())
    }

    ghost predicate Valid()
      reads this, allocator, kv
    {
      && Wf(View())
      && kv.Length1 == blockSize
      && swappedKv.Keys == swappedContextLen.Keys
    }

    constructor (numBlocks: nat, blockSize: nat, enablePrefixCaching: bool,
                 hash: (Option<Hash>, seq<Token>) -> Hash, zero: Kv)
      requires blockSize >= 1
      ensures Valid() && fresh(this) && fresh(allocator) && fresh(kv)
      ensures View() == Cache(blockSize, enablePrefixCaching, hash, seq(numBlocks, i => i), seq(numBlocks, i => 0),
                              seq(numBlocks, i => seq(blockSize, j => zero)), map[], map[], map[], map[])
    {
      this.blockSize := blockSize;
      this.enablePrefixCaching := enablePrefixCaching;
      this.hash := hash;
      allocator := new BlockAllocator(numBlocks);
      kv := new Kv[numBlocks, blockSize]((i, j) => zero);
      sequences, hashToBlock, blockHashInfo := map[], map[], map[];
      swappedKv, swappedContextLen := map[], map[];
      new;
      SameRows(StoreOf(kv), seq(numBlocks, i => seq(blockSize, j => zero)));
    }

    method CreateSequence(id: SeqId)
      requires Valid()
      modifies this
      ensures Valid() && View() == PagedKvCache.CreateSequence(old(View()), id)
    {
      sequences := sequences[id := SeqState([], 0)];
    }

    method CreateSequenceFromPrefix(id: SeqId, blocks: seq<Block>)
      requires Valid() && InRange(View(), blocks)
      modifies this, allocator
      ensures Valid() && View() == PagedKvCache.CreateSequenceFromPrefix(old(View()), id, blocks)
    {
      hide Wf;
      ghost var c := View();
      var table: seq<Block> := [];
      for i := 0 to |blocks|
        invariant Valid() && table == blocks[..i] && View() == AddRefs(c, blocks[..i])
      {
        assert blocks[..i + 1][..i] == blocks[..i];
        allocator.AddRef(blocks[i]);
        table := table + [blocks[i]];
        assert View() == AddRefs(c, blocks[..i + 1]);
      }
      assert blocks[..|blocks|] == blocks;
      sequences := sequences[id := SeqState(table, |blocks| * blockSize)];
      assert View() == PagedKvCache.CreateSequenceFromPrefix(c, id, blocks);
    }

    method FreeBlock(b: Block)
      requires Valid() && b < |allocator.refCounts|
      modifies this, allocator
      ensures Valid() && View() == PagedKvCache.FreeBlock(old(View()), b)
    {
      var last := allocator.Free(b);
      if last && b in blockHashInfo {
        var h := blockHashInfo[b].hash;
        blockHashInfo := blockHashInfo - {b};
        if h in hashToBlock && hashToBlock[h] == b {
          hashToBlock := hashToBlock - {h};
        }
      }
    }

    method FreeSequence(id: SeqId)
      requires Valid() && id in sequences
      modifies this, allocator
      ensures Valid() && View() == PagedKvCache.FreeSequence(old(View()), id)
    {
      var table := sequences[id].table;
      sequences := sequences - {id};
      ghost var c := View();
      assert c == old(View()).(seqs := old(View()).seqs - {id});
      FreeTable(table);
    }

    /** The loop both free_sequence and swap_out end with. */
    method FreeTable(table: seq<Block>)
      requires Valid() && InRange(View(), table)
      modifies this, allocator
      ensures Valid() && View() == FreeBlocks(old(View()), table)
    {
      ghost var c := View();
      for i := 0 to |table|
        invariant Valid() && View() == FreeBlocks(c, table[..i])
      {
        assert table[..i + 1][..i] == table[..i];
        FreeBlock(table[i]);
      }
      assert table[..|table|] == table;
    }

    method SwapOut(id: SeqId)
      requires Valid() && id in sequences
      modifies this, allocator
      ensures Valid() && View() == PagedKvCache.SwapOut(old(View()), id)
    {
      hide Wf;
      ghost var c := View();
      var st := sequences[id];
      SequenceBounds(c, id);
      var copied := ReadRows(st.table);
      sequences := sequences - {id};
      swappedKv := swappedKv[id := copied];
      swappedContextLen := swappedContextLen[id := st.len];
      ghost var copy := HostCopy(copied, st.len);
      assert Host() == c.host[id := copy];
      WfHost(c.(seqs := c.seqs - {id}), c.host[id := copy]);
      FreeTable(st.table);
      FreeBlocksHost(c.(seqs := c.seqs - {id}), st.table, c.host[id := copy]);
    }

    /** The listed blocks' contents, as indexing the tensor by a list of blocks copies them. */
    method ReadRows(table: seq<Block>) returns (rows: seq<seq<Kv>>)
      requires Valid() && InRange(View(), table)
      ensures |View().store| == |View().refs| && rows == CopyRows(View().store, table)
    {
      rows := [];
      for i := 0 to |table|
        invariant |rows| == i && forall k | 0 <= k < i :: rows[k] == View().store[table[k]]
      {
        var row := seq(blockSize, s requires 0 <= s < blockSize && table[i] < kv.Length0 && kv.Length1 == blockSize reads kv => kv[table[i], s]);
        assert row == View().store[table[i]];
        rows := rows + [row];
      }
    }

    /** Writes whole rows back. */
    method WriteRows(table: seq<Block>, rows: seq<seq<Kv>>)
      requires Valid() && InRange(View(), table) && |rows| == |table| && Rows(rows, blockSize)
      modifies kv
      ensures Valid() && View() == old(View()).(store := WriteBlocks(old(View()).store, table, rows))
    {
      ghost var before := StoreOf(kv);
      for i := 0 to |table|
        invariant StoreOf(kv) == WriteBlocks(before, table[..i], rows[..i])
      {
        forall s | 0 <= s < blockSize { kv[table[i], s] := rows[i][s]; }
        assert table[..i + 1][..i] == table[..i] && rows[..i + 1][..i] == rows[..i];
        SameRows(StoreOf(kv), WriteBlocks(before, table[..i], rows[..i])[table[i] := rows[i]]);
      }
      assert table[..|table|] == table && rows[..|rows|] == rows;
    }

    /** False when the blocks run out, or when the copy has neither one row for each block nor just one. */
    method SwapIn(id: SeqId) returns (ok: bool)
      requires Valid() && id in swappedKv && Rows(swappedKv[id], blockSize)
      modifies this, allocator, kv
      ensures Valid() && (View(), ok) == PagedKvCache.SwapIn(old(View()), id)
    {
      hide Wf, BlocksFor;
      ghost var c := View();
      SizeBounds(c);
      var len, rows := swappedContextLen[id], swappedKv[id];
      swappedContextLen, swappedKv := swappedContextLen - {id}, swappedKv - {id};
      assert Host() == c.host - {id};
      WfHost(c, c.host - {id});
      var table: seq<Block>;
      table, ok := AllocateBlocks(BlocksFor(blockSize, len));
      var values := Broadcast(rows, |table|);
      if !ok || values.None? {
        ok := false;
      } else {
        WriteRows(table, values.value);
        sequences := sequences[id := SeqState(table, len)];
      }
      assert (View(), ok) == PagedKvCache.SwapIn(c, id);
    }

    /** Takes n blocks; on failure those taken so far stay taken. */
    method AllocateBlocks(n: nat) returns (table: seq<Block>, ok: bool)
      requires Valid()
      modifies allocator
      ensures Valid() && (View(), table, ok) == AllocateN(old(View()), n)
    {
      ghost var c := View();
      table, ok := [], true;
      var i := 0;
      while i < n
        invariant i <= n && Valid() && ok && (View(), table, true) == AllocateN(c, i)
      {
        var b := allocator.Allocate();
        if b.None? {
          AllocateStops(c, i, n);
          return table, false;
        }
        table := table + [b.value];
        i := i + 1;
      }
    }

    method DiscardSwapped(id: SeqId)
      requires Valid()
      modifies this
      ensures Valid() && View() == PagedKvCache.DiscardSwapped(old(View()), id)
    {
      swappedKv, swappedContextLen := swappedKv - {id}, swappedContextLen - {id};
      assert Host() == old(Host()) - {id};
    }

    method Rollback(id: SeqId, n: nat)
      requires Valid() && id in sequences && n <= sequences[id].len
      modifies this
      ensures Valid() && View() == PagedKvCache.Rollback(old(View()), id, n)
    {
      sequences := sequences[id := sequences[id].(len := sequences[id].len - n)];
    }

    /** Follows the hash chain over whole blocks, as far as it leads to cached blocks with the same
        tokens, and never over the last token. */
    method MatchPrefix(tokens: seq<Token>) returns (matched: seq<Block>)
      requires Valid()
      ensures matched == PagedKvCache.MatchPrefix(View(), tokens)
    {
      if !enablePrefixCaching { return []; }
      matched := [];
      var parent: Option<Hash> := None;
      var full := |tokens| / blockSize;
      DivMod(|tokens|, blockSize);
      if |tokens| % blockSize == 0 { full := full - 1; }
      var i := 0;
      ghost var c, n := View(), MatchableBlocks(blockSize, |tokens|);
      MatchableFits(blockSize, |tokens|);
      while i < full
        invariant 0 <= i <= n
        invariant MatchFrom(c, tokens, 0, n, None) == matched + MatchFrom(c, tokens, i, n, parent)
      {
        MulMonotone(i + 1, n, blockSize);
        assert (i + 1) * blockSize == i * blockSize + blockSize;
        var chunk := tokens[i * blockSize..(i + 1) * blockSize];
        var h := hash(parent, chunk);
        if h !in hashToBlock { break; }
        var b := hashToBlock[h];
        if blockHashInfo[b].chunk != chunk { break; }
        assert matched + ([b] + MatchFrom(c, tokens, i + 1, n, Some(h))) == matched + [b] + MatchFrom(c, tokens, i + 1, n, Some(h));
        matched := matched + [b];
        parent := Some(h);
        i := i + 1;
      }
    }

    /** Files the whole blocks of a prompt under their hashes, unless they already are filed. */
    method RegisterPrefixBlocks(id: SeqId, tokens: seq<Token>)
      requires Valid() && id in sequences && |tokens| / blockSize <= |sequences[id].table|
      modifies this
      ensures Valid() && View() == PagedKvCache.RegisterPrefixBlocks(old(View()), id, tokens)
    {
      hide Wf;
      if !enablePrefixCaching { return; }
      ghost var c := View();
      SequenceBounds(c, id);
      var table := sequences[id].table;
      var full := |tokens| / blockSize;
      DivMod(|tokens|, blockSize);
      var parent: Option<Hash> := None;
      var i := 0;
      while i < full
        invariant 0 <= i <= full && Valid() && View() == c.(info := blockHashInfo, index := hashToBlock)
        invariant RegisterFrom(c, table, tokens, 0, full, None) == RegisterFrom(View(), table, tokens, i, full, parent)
      {
        ghost var now := View();
        ChunkBounds(|tokens|, blockSize, i, full);
        var chunk := tokens[i * blockSize..(i + 1) * blockSize];
        var h := hash(parent, chunk);
        var b := table[i];
        assert RegisterFrom(now, table, tokens, i, full, parent)
            == RegisterFrom(PagedKvCache.FileBlock(now, b, h, chunk), table, tokens, i + 1, full, Some(h));
        FileBlock(b, h, chunk);
        parent := Some(h);
        i := i + 1;
      }
    }

    method FileBlock(b: Block, h: Hash, chunk: seq<Token>)
      requires Valid() && b < |allocator.refCounts|
      modifies this
      ensures Valid() && View() == PagedKvCache.FileBlock(old(View()), b, h, chunk)
    {
      if b !in blockHashInfo {
        hashToBlock := hashToBlock[h := b];
        blockHashInfo := blockHashInfo[b := BlockInfo(h, chunk)];
      }
    }

    /** The first n entries of the listed blocks laid end to end. */
    method GatherPrefixKv(blocks: seq<Block>, n: nat) returns (entries: seq<Kv>)
      requires Valid() && InRange(View(), blocks) && n <= |blocks| * blockSize
      ensures Readable(View().store, blockSize, blocks)
      ensures entries == Gather(View().store, blockSize, blocks, n)
    {
      ghost var store := View().store;
      var all: seq<Kv> := [];
      assert Readable(store, blockSize, []) && Reshape(store, blockSize, []) == [];
      for i := 0 to |blocks|
        invariant Readable(store, blockSize, blocks[..i]) && all == Reshape(store, blockSize, blocks[..i])
      {
        ReshapeEnd(store, blockSize, blocks[..i], blocks[i]);
        assert blocks[..i + 1] == blocks[..i] + [blocks[i]];
        var row := seq(blockSize, s requires 0 <= s < blockSize && blocks[i] < kv.Length0 && kv.Length1 == blockSize reads kv => kv[blocks[i], s]);
        assert row == store[blocks[i]];
        all := all + row;
      }
      assert blocks[..|blocks|] == blocks;
      ReshapeIsGather(store, blockSize, blocks, n);
      return all[..n];
    }

    /** Finds room for n more tokens, one at a time, and says where each will go; None is the
        out-of-memory error, which leaves the blocks appended so far. */
    method Reserve(id: SeqId, n: nat) returns (positions: Option<seq<Pos>>)
      requires Valid() && id in sequences
      modifies this, allocator
      ensures Valid() && (View(), positions.Some?) == PagedKvCache.Reserve(old(View()), id, n)
      ensures positions.Some? ==>
                positions.value == Slots(sequences[id].table, blockSize, sequences[id].len, n)
    {
      hide Wf, BlocksFor, Grow, Slots;
      ghost var c := View();
      StartGrow(c, id);
      var found: seq<Pos> := [];
      var len := sequences[id].len;
      for i := 0 to n
        invariant Valid() && id in sequences && sequences[id].len == len
        invariant (View(), true) == Grow(c, id, BlocksFor(blockSize, len + i))
        invariant len + i <= |sequences[id].table| * blockSize
        invariant |found| == i && found == Slots(sequences[id].table, blockSize, len, i)
      {
        ghost var table := sequences[id].table;
        var p := ReserveNext(c, id, len + i, len + n);
        if p.None? { return None; }
        SlotsOneMore(table, sequences[id].table, blockSize, len, i);
        found := found + [p.value];
      }
      return Some(found);
    }

    /** One round of the loop: the block and slot of position pos, after appending the block if the
        table does not reach it yet. */
    method ReserveNext(ghost c: Cache, id: SeqId, pos: nat, ghost end: nat) returns (p: Option<Pos>)
      requires Valid() && id in sequences && Wf(c) && id in c.seqs && c.blockSize == blockSize >= 1
      requires (View(), true) == Grow(c, id, BlocksFor(blockSize, pos)) && pos < end
      requires pos <= |sequences[id].table| * blockSize
      modifies this, allocator
      ensures Valid() && id in sequences && sequences[id].len == old(sequences[id].len)
      ensures p.None? ==> (View(), false) == Grow(c, id, BlocksFor(blockSize, end))
      ensures p.Some? ==>
                && (View(), true) == Grow(c, id, BlocksFor(blockSize, pos + 1))
                && pos + 1 <= |sequences[id].table| * blockSize && pos / blockSize < |sequences[id].table|
                && old(sequences[id].table) <= sequences[id].table
                && p.value == Pos(sequences[id].table[pos / blockSize], pos % blockSize)
    {
      hide Wf, BlocksFor, Grow;
      ReserveStep(c, View(), id, pos, end);
      DivLess(pos, blockSize, |sequences[id].table| + 1);
      var k, slot := pos / blockSize, pos % blockSize;
      if k == |sequences[id].table| {
        var ok := AppendBlock(id);
        if !ok { return None; }
      }
      return Some(Pos(sequences[id].table[k], slot));
    }

    /** Appends a free block to a sequence's table; false if there is none. */
    method AppendBlock(id: SeqId) returns (ok: bool)
      requires Valid() && id in sequences
      modifies this, allocator
      ensures Valid() && ok == (old(View()).free != [])
      ensures View() == if ok then PagedKvCache.AppendBlock(old(View()), id) else old(View())
    {
      ghost var c := View();
      var b := allocator.Allocate();
      if b.None? { return false; }
      sequences := sequences[id := sequences[id].(table := sequences[id].table + [b.value])];
      assert View() == PagedKvCache.AppendBlock(c, id);
      return true;
    }

    /** Writes one entry per position. */
    method Write(positions: seq<Pos>, values: seq<Kv>)
      requires Valid() && |positions| == |values| && AllInStore(View().store, positions)
      modifies kv
      ensures Valid() && View() == PagedKvCache.Write(old(View()), positions, values)
    {
      ghost var before := StoreOf(kv);
      for i := 0 to |positions|
        invariant AllInStore(before, positions[..i]) && StoreOf(kv) == WriteAll(before, positions[..i], values[..i])
      {
        var p := positions[i];
        assert InStore(before, p);
        kv[p.block, p.slot] := values[i];
        assert positions[..i + 1][..i] == positions[..i] && values[..i + 1][..i] == values[..i];
        ghost var prior := WriteAll(before, positions[..i], values[..i]);
        SameRows(StoreOf(kv), prior[p.block := prior[p.block][p.slot := values[i]]]);
      }
      assert positions[..|positions|] == positions && values[..|values|] == values;
    }

    method Advance(id: SeqId, n: nat)
      requires Valid() && id in sequences && sequences[id].len + n <= |sequences[id].table| * blockSize
      modifies this
      ensures Valid() && View() == PagedKvCache.Advance(old(View()), id, n)
    {
      sequences := sequences[id := sequences[id].(len := sequences[id].len + n)];
    }
  }

  // ---- what the loops need ----

  lemma SameRows(a: seq<seq<Kv>>, b: seq<seq<Kv>>)
    requires |a| == |b| && forall i | 0 <= i < |a| :: |a[i]| == |b[i]|
    requires forall i, j | 0 <= i < |a| && 0 <= j < |a[i]| :: a[i][j] == b[i][j]
    ensures a == b
  {
    assert forall i | 0 <= i < |a| :: a[i] == b[i];
  }

  lemma {:induction false} AllocateStops(c: Cache, i: nat, n: nat)
    requires Wf(c) && i < n && AllocateN(c, i).2 && AllocateN(c, i).0.free == []
    ensures AllocateN(c, n) == (AllocateN(c, i).0, AllocateN(c, i).1, false)
  {
    if i + 1 < n {
      AllocateStops(c, i, n - 1);
    }
  }

  /** Freeing blocks does not look at the host copies. */
  lemma {:induction false} FreeBlocksHost(c: Cache, blocks: seq<Block>, host: map<SeqId, HostCopy>)
    requires Wf(c) && InRange(c, blocks)
    ensures FreeBlocks(c.(host := host), blocks) == FreeBlocks(c, blocks).(host := host)
    decreases |blocks|
  {
    hide FreeBlock, Wf;
    WfHost(c, host);
    if blocks != [] {
      var n := |blocks| - 1;
      FreeBlocksHost(c, blocks[..n], host);
      FreeBlockHost(FreeBlocks(c, blocks[..n]), blocks[n], host);
    }
  }

  lemma SizeBounds(c: Cache)
    requires Wf(c)
    ensures c.blockSize >= 1 && |c.store| == |c.refs|
  {
  }

  lemma ChunkBounds(n: nat, B: nat, i: nat, k: nat)
    requires i < k && k * B <= n
    ensures 0 <= i * B <= (i + 1) * B <= n && (i + 1) * B == i * B + B
  {
    MulMonotone(i + 1, k, B);
  }

  lemma SequenceBounds(c: Cache, id: SeqId)
    requires Wf(c) && id in c.seqs
    ensures WfSeq(c, c.seqs[id]) && Wf(c.(seqs := c.seqs - {id})) && |c.store| == |c.refs| && c.blockSize >= 1
  {
  }

  lemma WfHost(c: Cache, host: map<SeqId, HostCopy>)
    requires Wf(c)
    ensures Wf(c.(host := host))
  {
  }

  lemma FreeBlockHost(c: Cache, b: Block, host: map<SeqId, HostCopy>)
    requires Wf(c) && b < |c.refs|
    ensures Wf(c.(host := host)) && FreeBlock(c.(host := host), b) == FreeBlock(c, b).(host := host)
  {
    WfHost(c, host);
    hide Wf;
  }

  lemma MatchableFits(B: nat, n: nat)
    requires B >= 1
    ensures MatchableBlocks(B, n) * B <= n
    ensures MatchableBlocks(B, n) == (if n % B == 0 && n > 0 then n / B - 1 else n / B)
  {
    DivMod(n, B);
  }

  lemma {:induction false} ReshapeEnd(store: seq<seq<Kv>>, B: nat, table: seq<Block>, b: Block)
    requires Readable(store, B, table) && b < |store|
    ensures Readable(store, B, table + [b])
    ensures Reshape(store, B, table + [b]) == Reshape(store, B, table) + store[b]
    decreases |table|
  {
    if table == [] {
      assert [b][1..] == [];
    } else {
      assert (table + [b])[1..] == table[1..] + [b];
      assert forall i | 0 <= i < |table| - 1 :: table[1..][i] == table[i + 1];
      ReshapeEnd(store, B, table[1..], b);
    }
  }

  lemma StartGrow(c: Cache, id: SeqId)
    requires Wf(c) && id in c.seqs
    ensures c.blockSize >= 1 && c.seqs[id].len <= |c.seqs[id].table| * c.blockSize
    ensures Grow(c, id, BlocksFor(c.blockSize, c.seqs[id].len)) == (c, true)
  {
    BlocksForLeast(c.blockSize, c.seqs[id].len, |c.seqs[id].table|);
  }

  /** One round of reserve: what the position after `pos` cached ones asks of the table. */
  lemma ReserveStep(c: Cache, now: Cache, id: SeqId, pos: nat, end: nat)
    requires Wf(c) && id in c.seqs && c.blockSize >= 1 && pos < end
    requires (now, true) == Grow(c, id, BlocksFor(c.blockSize, pos)) && pos <= |now.seqs[id].table| * c.blockSize
    ensures
      var B, k, size := c.blockSize, pos / c.blockSize, |now.seqs[id].table|;
      && k <= size
      && (k < size ==> Grow(c, id, BlocksFor(B, pos + 1)) == (now, true) && pos + 1 <= size * B)
      && (k == size && now.free != [] ==> Grow(c, id, BlocksFor(B, pos + 1)) == (AppendBlock(now, id), true))
      && (k == size ==> pos + 1 <= (size + 1) * B)
      && (k == size && now.free == [] ==> Grow(c, id, BlocksFor(B, end)) == (now, false))
  {
    hide Wf, Grow, PagedKvCache.AppendBlock;
    var B, k, size := c.blockSize, pos / c.blockSize, |now.seqs[id].table|;
    BlocksForNext(B, pos);
    DivLess(pos, B, size);
    DivLess(pos, B, size + 1);
    MulMonotone(size, size + 1, B);
    GrowOneMore(c, id, BlocksFor(B, pos), k + 1);
    if k == size && now.free == [] {
      BlocksForMonotone(B, pos, end);
      BlocksForMonotone(B, pos + 1, end);
      GrowStops(c, id, BlocksFor(B, pos), BlocksFor(B, end));
    }
  }

  lemma SlotsOneMore(table: seq<Block>, grown: seq<Block>, B: nat, from: nat, n: nat)
    requires B >= 1 && table <= grown && from + n <= |table| * B && from + n + 1 <= |grown| * B
    ensures (from + n) / B < |grown| && from + n <= |grown| * B
    ensures Slots(grown, B, from, n + 1) == Slots(table, B, from, n) + [Pos(grown[(from + n) / B], (from + n) % B)]
  {
    MulMonotone(|table|, |grown|, B);
    DivLess(from + n, B, |grown|);
    var longer, shorter := Slots(grown, B, from, n + 1), Slots(table, B, from, n);
    forall i | 0 <= i < n ensures longer[i] == shorter[i] {
      DivLess(from + i, B, |table|);
    }
  }

  /** Growing to one block more is growing first and appending one block if it is missing. */
  lemma {:induction false} GrowOneMore(c: Cache, id: SeqId, some: nat, target: nat)
    requires Wf(c) && id in c.seqs && some <= target && Grow(c, id, some).1
    requires target <= |Grow(c, id, some).0.seqs[id].table| + 1
    ensures var g := Grow(c, id, some).0;
            && (target <= |g.seqs[id].table| ==> Grow(c, id, target) == (g, true))
            && (target > |g.seqs[id].table| ==> Grow(c, id, target) == if g.free == [] then (g, false) else (AppendBlock(g, id), true))
    decreases some - |c.seqs[id].table|
  {
    if |c.seqs[id].table| < some && c.free != [] {
      GrowOneMore(AppendBlock(c, id), id, some, target);
    }
  }

  /** Growing runs out at the same point whatever was asked for. */
  lemma {:induction false} GrowStops(c: Cache, id: SeqId, some: nat, target: nat)
    requires Wf(c) && id in c.seqs
    requires Grow(c, id, some).1 && Grow(c, id, some).0.free == []
    requires |Grow(c, id, some).0.seqs[id].table| < target && some <= target
    ensures Grow(c, id, target) == (Grow(c, id, some).0, false)
    decreases target - |c.seqs[id].table|
  {
    if |c.seqs[id].table| < some && c.free != [] {
      GrowStops(AppendBlock(c, id), id, some, target);
    }
  }
}
