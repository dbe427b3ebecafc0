/**
 What every cache operation keeps. `Sound` is block accounting: a reference count is the number
 of tables naming the block, plus one for each block in transit. `Faithful` is content: the
 entries reached through a sequence's table are the contiguous cache of its tokens, and every
 indexed block is filed under the hash of the whole prefix it ends.
 */
module CacheInvariant {
  import opened LanguageModel
  import opened Options
  import opened Positions
  import opened PagedKvCache

  ghost predicate NoDup<T(!new)>(s: seq<T>) {
    forall i, j | 0 <= i < j < |s| :: s[i] != s[j]
  }

  lemma Member<T>(s: set<T>) returns (x: T)
    requires |s| > 0
    ensures x in s
  {
    x :| x in s;
  }

  lemma HasMember(ids: seq<SeqId>)
    ensures ids != [] ==> exists x :: x in ids
  {
    if ids != [] {
      var x := ids[0];
      assert x in ids;
    }
  }

  ghost function Holders(seqs: map<SeqId, SeqState>, b: Block): set<SeqId> {
    set id | id in seqs && b in seqs[id].table
  }

  /** Reference counts, with one extra reference for every block in transit. */
  ghost predicate Counted(refs: seq<nat>, seqs: map<SeqId, SeqState>, transit: set<Block>) {
    forall b | 0 <= b < |refs| :: refs[b] == |Holders(seqs, b)| + (if b in transit then 1 else 0)
  }

  /** The free list is exactly the blocks nobody references, each once. */
  ghost predicate FreeExact(free: seq<Block>, refs: seq<nat>) {
    && NoDup(free)
    && (forall b | 0 <= b < |refs| :: b in free <==> refs[b] == 0)
  }

  /** Indexed blocks are alive, and any other block belongs to one sequence alone. */
  ghost predicate SharedIndexed(info: map<Block, BlockInfo>, refs: seq<nat>, seqs: map<SeqId, SeqState>) {
    && (forall b | b in info && b < |refs| :: refs[b] > 0)
    && (forall id, b | id in seqs && b in seqs[id].table && b !in info :: Holders(seqs, b) == {id})
  }

  ghost predicate TablesDistinct(seqs: map<SeqId, SeqState>) {
    forall id | id in seqs :: NoDup(seqs[id].table)
  }

  ghost predicate Sound(c: Cache, transit: set<Block>) {
    && Wf(c)
    && TablesDistinct(c.seqs)
    && (forall b | b in transit :: b < |c.refs|)
    && Counted(c.refs, c.seqs, transit)
    && FreeExact(c.free, c.refs)
    && SharedIndexed(c.info, c.refs, c.seqs)
  }

  // ---- block accounting ----

  lemma SoundIsWf(c: Cache)
    requires Sound(c, {})
    ensures Wf(c)
  {
  }

  lemma AllocateSound(c: Cache, transit: set<Block>)
    requires Sound(c, transit) && c.free != []
    ensures
      var (after, b) := Allocate(c).value;
      Sound(after, transit + {b}) && b !in transit && b !in c.info && Holders(c.seqs, b) == {}
  {
    var (after, b) := Allocate(c).value;
    assert b in c.free && c.refs[b] == 0;
    assert |Holders(c.seqs, b)| == 0;
    assert forall x | 0 <= x < |c.refs| :: Holders(after.seqs, x) == Holders(c.seqs, x);
    forall x | 0 <= x < |c.refs| ensures x in after.free <==> after.refs[x] == 0 {
      if x in c.free && x != b {
        var i :| 0 <= i < |c.free| && c.free[i] == x;
        assert after.free[i] == x;
      }
    }
  }

  function Elems(s: seq<Block>): (r: set<Block>)
    ensures forall i | 0 <= i < |s| :: s[i] in r
  {
    set b | b in s
  }

  /** A new sequence takes over the references in transit. */
  lemma AttachSound(c: Cache, id: SeqId, table: seq<Block>, len: nat)
    requires Sound(c, Elems(table)) && id !in c.seqs && NoDup(table)
    requires len <= |table| * c.blockSize
    requires forall b | b in table && Holders(c.seqs, b) != {} :: b in c.info
    ensures Sound(c.(seqs := c.seqs[id := SeqState(table, len)]), {})
  {
    var after := c.(seqs := c.seqs[id := SeqState(table, len)]);
    assert Wf(after);
    forall b | 0 <= b < |c.refs| ensures after.refs[b] == |Holders(after.seqs, b)| {
      if b in table {
        assert Holders(after.seqs, b) == Holders(c.seqs, b) + {id};
      } else {
        assert Holders(after.seqs, b) == Holders(c.seqs, b);
      }
    }
    forall i, b | i in after.seqs && b in after.seqs[i].table && b !in after.info
      ensures Holders(after.seqs, b) == {i}
    {
      if b in table { assert Holders(c.seqs, b) == {}; assert Holders(after.seqs, b) == {id}; }
      else { assert Holders(after.seqs, b) == Holders(c.seqs, b); }
    }
  }

  /** A sequence takes over one fresh block. */
  lemma AppendSound(c: Cache, id: SeqId, b: Block)
    requires Sound(c, {b}) && id in c.seqs && Holders(c.seqs, b) == {}
    ensures Sound(c.(seqs := c.seqs[id := c.seqs[id].(table := c.seqs[id].table + [b])]), {})
  {
    var st := c.seqs[id];
    var after := c.(seqs := c.seqs[id := st.(table := st.table + [b])]);
    MulMonotone(|st.table|, |st.table| + 1, c.blockSize);
    assert id !in Holders(c.seqs, b);
    forall x | 0 <= x < |c.refs| ensures after.refs[x] == |Holders(after.seqs, x)| {
      if x == b {
        assert Holders(after.seqs, x) == {id};
      } else {
        assert Holders(after.seqs, x) == Holders(c.seqs, x);
      }
    }
    forall i, x | i in after.seqs && x in after.seqs[i].table && x !in after.info
      ensures Holders(after.seqs, x) == {i}
    {
      if x == b { assert Holders(after.seqs, x) == {id}; }
      else { assert Holders(after.seqs, x) == Holders(c.seqs, x); }
    }
  }

  /** A removed sequence leaves its references in transit. */
  lemma DetachSound(c: Cache, id: SeqId)
    requires Sound(c, {}) && id in c.seqs
    ensures Sound(c.(seqs := c.seqs - {id}), Elems(c.seqs[id].table))
  {
    var after, table := c.(seqs := c.seqs - {id}), c.seqs[id].table;
    assert Wf(after);
    assert forall b | b in table :: b < |c.refs|;
    hide Wf, NoDup, Counted, FreeExact, SharedIndexed;
    DetachCounted(c.refs, c.seqs, id);
    DetachShared(c.info, c.refs, c.seqs, id);
  }

  lemma DetachHolders(seqs: map<SeqId, SeqState>, id: SeqId)
    ensures forall b :: Holders(seqs - {id}, b) == Holders(seqs, b) - {id}
  {
  }

  lemma DetachCounted(refs: seq<nat>, seqs: map<SeqId, SeqState>, id: SeqId)
    requires id in seqs && Counted(refs, seqs, {})
    ensures Counted(refs, seqs - {id}, Elems(seqs[id].table))
  {
    DetachHolders(seqs, id);
    assert forall b :: b in seqs[id].table <==> id in Holders(seqs, b);
  }

  lemma DetachShared(info: map<Block, BlockInfo>, refs: seq<nat>, seqs: map<SeqId, SeqState>, id: SeqId)
    requires SharedIndexed(info, refs, seqs)
    ensures SharedIndexed(info, refs, seqs - {id})
  {
    DetachHolders(seqs, id);
    forall i, b | i in seqs - {id} && b in seqs[i].table && b !in info
      ensures Holders(seqs - {id}, b) == {i}
    {
      assert Holders(seqs, b) == {i};
    }
  }

  /** Dropping a reference in transit: the block is freed, and leaves the index, exactly at its last one. */
  lemma FreeBlockSound(c: Cache, transit: set<Block>, b: Block)
    requires Sound(c, transit) && b in transit
    ensures Sound(FreeBlock(c, b), transit - {b})
    ensures FreeBlock(c, b).info == if Holders(c.seqs, b) == {} then c.info - {b} else c.info
  {
    FreeBlockCounted(c, transit, b);
    if c.refs[b] <= 1 {
      FreeLastReference(c, transit, b);
    } else {
      FreeSharedReference(c, transit, b);
    }
  }

  lemma FreeBlockCounted(c: Cache, transit: set<Block>, b: Block)
    requires Sound(c, transit) && b in transit
    ensures Counted(FreeBlock(c, b).refs, c.seqs, transit - {b})
  {
    var after := FreeBlock(c, b);
    assert forall x | 0 <= x < |c.refs| :: Holders(after.seqs, x) == Holders(c.seqs, x);
  }

  lemma FreeSharedReference(c: Cache, transit: set<Block>, b: Block)
    requires Sound(c, transit) && b in transit && c.refs[b] > 1
    ensures FreeExact(FreeBlock(c, b).free, FreeBlock(c, b).refs) && SharedIndexed(FreeBlock(c, b).info, FreeBlock(c, b).refs, c.seqs)
    ensures Holders(c.seqs, b) != {}
  {
    assert |Holders(c.seqs, b)| >= 1;
    var after := FreeBlock(c, b);
    forall id, x | id in after.seqs && x in after.seqs[id].table && x !in after.info
      ensures Holders(after.seqs, x) == {id}
    {
      assert Holders(after.seqs, x) == Holders(c.seqs, x);
    }
  }

  lemma FreeLastReference(c: Cache, transit: set<Block>, b: Block)
    requires Sound(c, transit) && b in transit && c.refs[b] <= 1
    ensures FreeExact(FreeBlock(c, b).free, FreeBlock(c, b).refs) && SharedIndexed(FreeBlock(c, b).info, FreeBlock(c, b).refs, c.seqs)
    ensures Holders(c.seqs, b) == {}
  {
    var after := FreeBlock(c, b);
    assert |Holders(c.seqs, b)| == 0;
    assert b !in c.free;
    assert after.free == c.free + [b];
    assert forall x | 0 <= x < |c.refs| :: x in after.free <==> x in c.free || x == b;
    forall id, x | id in after.seqs && x in after.seqs[id].table && x !in after.info
      ensures Holders(after.seqs, x) == {id}
    {
      assert id in Holders(c.seqs, x);
      assert Holders(after.seqs, x) == Holders(c.seqs, x);
    }
  }

  lemma {:induction false} FreeBlocksSound(c: Cache, transit: set<Block>, blocks: seq<Block>)
    requires Sound(c, transit) && NoDup(blocks) && Elems(blocks) <= transit && InRange(c, blocks)
    ensures Sound(FreeBlocks(c, blocks), transit - Elems(blocks))
    ensures FreeBlocks(c, blocks).info.Items <= c.info.Items
    ensures forall b | b in c.info && b !in FreeBlocks(c, blocks).info :: b in blocks && Holders(c.seqs, b) == {}
    decreases |blocks|
  {
    hide Wf, Counted, FreeExact, SharedIndexed, TablesDistinct, FreeBlock;
    if blocks == [] {
      assert transit - Elems(blocks) == transit;
    } else {
      var n := |blocks| - 1;
      var before := FreeBlocks(c, blocks[..n]);
      assert Elems(blocks) == Elems(blocks[..n]) + {blocks[n]};
      FreeBlocksSound(c, transit, blocks[..n]);
      assert blocks[n] !in Elems(blocks[..n]);
      FreeBlockSound(before, transit - Elems(blocks[..n]), blocks[n]);
      assert transit - Elems(blocks) == transit - Elems(blocks[..n]) - {blocks[n]};
      assert Holders(before.seqs, blocks[n]) == Holders(c.seqs, blocks[n]);
    }
  }

  /** Appending fresh blocks keeps the accounting; so does stopping halfway for lack of blocks. */
  lemma {:induction false} GrowSound(c: Cache, id: SeqId, target: nat)
    requires Sound(c, {}) && id in c.seqs
    ensures var (after, ok) := Grow(c, id, target);
            && Sound(after, {})
            && (forall i | |c.seqs[id].table| <= i < |after.seqs[id].table| :: after.seqs[id].table[i] !in c.info)
            && |after.seqs[id].table| - |c.seqs[id].table| == |c.free| - |after.free|
            && (ok ==> |after.seqs[id].table| == if target <= |c.seqs[id].table| then |c.seqs[id].table| else target)
            && (!ok ==> after.free == [] && |after.seqs[id].table| < target)
    decreases target - |c.seqs[id].table|
  {
    hide Wf, Counted, FreeExact, SharedIndexed, TablesDistinct;
    var st := c.seqs[id];
    if |st.table| < target && c.free != [] {
      AllocateSound(c, {});
      var (after, b) := Allocate(c).value;
      assert {} + {b} == {b};
      assert Holders(after.seqs, b) == Holders(c.seqs, b);
      AppendSound(after, id, b);
      assert AppendBlock(c, id) == after.(seqs := after.seqs[id := st.(table := st.table + [b])]);
      GrowSound(AppendBlock(c, id), id, target);
    }
  }

  // ---- content ----

  /** The hash chain of the first n whole blocks of a prompt. */
  function Chain(hash: (Option<Hash>, seq<Token>) -> Hash, B: nat, toks: seq<Token>, n: nat): (r: Option<Hash>)
    requires n * B <= |toks|
    ensures r.None? <==> n == 0
  {
    if n == 0 then None
    else
      MulMonotone(n - 1, n, B);
      Some(hash(Chain(hash, B, toks, n - 1), Chunk(toks, B, n - 1)))
  }

  ghost predicate InjectiveHash(hash: (Option<Hash>, seq<Token>) -> Hash) {
    forall p, q, a, b :: hash(p, a) == hash(q, b) ==> p == q && a == b
  }

  /** The entries behind a sequence's table are the contiguous cache of `toks`. */
  ghost predicate Holds(m: Model, store: seq<seq<Kv>>, B: nat, st: SeqState, toks: seq<Token>) {
    && B >= 1 && Readable(store, B, st.table)
    && |toks| == st.len <= |st.table| * B
    && Gather(store, B, st.table, st.len) == Entries(m, toks)
  }

  /** Block b is filed as block i of the prompt `toks`. */
  ghost predicate FiledAs(info: map<Block, BlockInfo>, hash: (Option<Hash>, seq<Token>) -> Hash, B: nat,
                          toks: seq<Token>, i: nat, b: Block) {
    && b in info
    && (i + 1) * B <= |toks|
    && info[b] == BlockInfo(Chain(hash, B, toks, i + 1).value, Chunk(toks, B, i))
  }

  /** Every indexed block is filed under the prefix it holds, whichever table reaches it. */
  ghost predicate Filed(info: map<Block, BlockInfo>, seqs: map<SeqId, SeqState>,
                        hash: (Option<Hash>, seq<Token>) -> Hash, B: nat, hist: map<SeqId, seq<Token>>) {
    forall id, i | id in seqs && 0 <= i < |seqs[id].table| && seqs[id].table[i] in info ::
      id in hist && FiledAs(info, hash, B, hist[id], i, seqs[id].table[i])
  }

  /** `hist` gives, for each sequence whose content matters, the tokens it has cached. */
  ghost predicate Faithful(m: Model, c: Cache, hist: map<SeqId, seq<Token>>) {
    && (forall id | id in hist :: id in c.seqs && Holds(m, c.store, c.blockSize, c.seqs[id], hist[id]))
    && Filed(c.info, c.seqs, c.hash, c.blockSize, hist)
  }

  /** Host copies hold the contiguous caches of `saved`, block by block. */
  ghost predicate HostFaithful(m: Model, B: nat, host: map<SeqId, HostCopy>, saved: map<SeqId, seq<Token>>) {
    && saved.Keys == host.Keys
    && (forall id | id in saved :: HostHolds(m, B, host[id], saved[id]))
  }

  ghost predicate HostHolds(m: Model, B: nat, copy: HostCopy, toks: seq<Token>) {
    && B >= 1 && Readable(copy.blocks, B, Iota(|copy.blocks|))
    && |copy.blocks| == BlocksFor(B, copy.len)
    && |toks| == copy.len <= |copy.blocks| * B
    && Gather(copy.blocks, B, Iota(|copy.blocks|), copy.len) == Entries(m, toks)
  }

  /** The table that lists the rows of a host copy in order. */
  function Iota(n: nat): (r: seq<Block>)
    ensures |r| == n && forall i | 0 <= i < n :: r[i] == i
  {
    seq(n, i requires 0 <= i < n => i)
  }

  /** The indexed gather reads what the source's reshape reads. */
  lemma {:induction false} ReshapeAt(store: seq<seq<Kv>>, B: nat, table: seq<Block>, p: nat)
    requires B >= 1 && Readable(store, B, table) && p < |table| * B
    ensures Reshape(store, B, table)[p] == At(store, PosOf(table, B, p))
    decreases |table|
  {
    DivShift(p, B);
    DivLess(p, B, |table|);
    assert forall i | 0 <= i < |table| - 1 :: table[1..][i] == table[i + 1];
    if p >= B {
      assert |table[1..]| * B == |table| * B - B;
      ReshapeAt(store, B, table[1..], p - B);
    }
  }

  /** `gather_prefix_kv` as written, blocks end to end cut to n entries, is Gather. */
  lemma ReshapeIsGather(store: seq<seq<Kv>>, B: nat, table: seq<Block>, n: nat)
    requires B >= 1 && Readable(store, B, table) && n <= |table| * B
    ensures Reshape(store, B, table)[..n] == Gather(store, B, table, n)
  {
    forall p | 0 <= p < n ensures Reshape(store, B, table)[p] == Gather(store, B, table, n)[p] {
      ReshapeAt(store, B, table, p);
    }
  }

  /** Positions of one table are distinct slots. */
  lemma PosOfInjective(table: seq<Block>, B: nat, p: nat, q: nat)
    requires B >= 1 && NoDup(table) && p < |table| * B && q < |table| * B && p != q
    ensures PosOf(table, B, p) != PosOf(table, B, q)
  {
    DivMod(p, B);
    DivMod(q, B);
    DivLess(p, B, |table|);
    DivLess(q, B, |table|);
  }

  lemma SlotsDistinct(table: seq<Block>, B: nat, from: nat, n: nat)
    requires B >= 1 && NoDup(table) && from + n <= |table| * B
    ensures NoDup(Slots(table, B, from, n))
  {
    forall i, j | 0 <= i < j < n ensures Slots(table, B, from, n)[i] != Slots(table, B, from, n)[j] {
      PosOfInjective(table, B, from + i, from + j);
    }
  }

  lemma SlotsSplit(table: seq<Block>, B: nat, from: nat, a: nat, b: nat)
    requires B >= 1 && from + a + b <= |table| * B
    ensures Slots(table, B, from, a + b) == Slots(table, B, from, a) + Slots(table, B, from + a, b)
  {
  }

  /** A longer table reads the same entries at the positions the shorter one has. */
  lemma GatherGrown(store: seq<seq<Kv>>, B: nat, table: seq<Block>, grown: seq<Block>, n: nat)
    requires B >= 1 && Readable(store, B, grown) && table <= grown && n <= |table| * B
    ensures n <= |grown| * B && Readable(store, B, table)
    ensures Gather(store, B, grown, n) == Gather(store, B, table, n)
  {
    MulMonotone(|table|, |grown|, B);
    forall p | 0 <= p < n ensures PosOf(grown, B, p) == PosOf(table, B, p) {
      DivLess(p, B, |table|);
    }
    assert Slots(table, B, 0, n) == Slots(grown, B, 0, n);
  }

  /** What WriteAll leaves in a slot: the value written there, or what was there. */
  lemma {:induction false} WriteAllAt(store: seq<seq<Kv>>, positions: seq<Pos>, values: seq<Kv>, pos: Pos)
    requires |positions| == |values| && AllInStore(store, positions)
    requires NoDup(positions) && InStore(store, pos)
    ensures InStore(WriteAll(store, positions, values), pos)
    ensures pos !in positions ==> At(WriteAll(store, positions, values), pos) == At(store, pos)
    ensures forall i | 0 <= i < |positions| && positions[i] == pos :: At(WriteAll(store, positions, values), pos) == values[i]
    decreases |positions|
  {
    if positions != [] {
      var n := |positions| - 1;
      assert InStore(store, positions[n]);
      WriteAllAt(store, positions[..n], values[..n], pos);
    }
  }

  lemma ReadConcat(store: seq<seq<Kv>>, a: seq<Pos>, b: seq<Pos>)
    requires AllInStore(store, a) && AllInStore(store, b)
    ensures AllInStore(store, a + b) && ReadAll(store, a + b) == ReadAll(store, a) + ReadAll(store, b)
  {
  }

  ghost predicate Apart(a: seq<Pos>, b: seq<Pos>) {
    forall i, j | 0 <= i < |a| && 0 <= j < |b| :: a[i] != b[j]
  }

  /** Writing elsewhere does not change what is read. */
  lemma ReadUnwritten(store: seq<seq<Kv>>, others: seq<Pos>, positions: seq<Pos>, values: seq<Kv>)
    requires |positions| == |values| && AllInStore(store, positions) && NoDup(positions)
    requires AllInStore(store, others) && Apart(others, positions)
    ensures AllInStore(WriteAll(store, positions, values), others)
    ensures ReadAll(WriteAll(store, positions, values), others) == ReadAll(store, others)
  {
    forall i | 0 <= i < |others|
      ensures InStore(WriteAll(store, positions, values), others[i])
      ensures At(WriteAll(store, positions, values), others[i]) == At(store, others[i])
    {
      WriteAllAt(store, positions, values, others[i]);
    }
  }

  /** What was written is read back. */
  lemma ReadWritten(store: seq<seq<Kv>>, positions: seq<Pos>, values: seq<Kv>)
    requires |positions| == |values| && AllInStore(store, positions) && NoDup(positions)
    ensures AllInStore(WriteAll(store, positions, values), positions)
    ensures ReadAll(WriteAll(store, positions, values), positions) == values
  {
    forall i | 0 <= i < |positions|
      ensures InStore(WriteAll(store, positions, values), positions[i])
      ensures At(WriteAll(store, positions, values), positions[i]) == values[i]
    {
      WriteAllAt(store, positions, values, positions[i]);
    }
  }

  /** The same entries everywhere but in the given slots. */
  ghost predicate SameBut(a: seq<seq<Kv>>, b: seq<seq<Kv>>, slots: seq<Pos>) {
    && |a| == |b| && (forall k | 0 <= k < |a| :: |a[k]| == |b[k]|)
    && forall p | InStore(a, p) && p !in slots :: At(a, p) == At(b, p)
  }

  lemma WriteElsewhere(store: seq<seq<Kv>>, slots: seq<Pos>, values: seq<Kv>)
    requires |slots| == |values| && AllInStore(store, slots) && NoDup(slots)
    ensures SameBut(store, WriteAll(store, slots, values), slots)
  {
    hide WriteAll;
    forall p | InStore(store, p) && p !in slots ensures At(WriteAll(store, slots, values), p) == At(store, p) {
      WriteAllAt(store, slots, values, p);
    }
  }
}
