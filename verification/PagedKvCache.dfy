/** A value that may be absent. */
module Options {
  datatype Option<+T> = None | Some(value: T)
}

/**
 The paged cache as a value: the block allocator, per-sequence block tables, the hash-chained
 prefix index and the host copies of swapped sequences, with every operation on them. The
 class KvCacheManager performs these operations in place; the theorems are about this module.
 */
module PagedKvCache {
  import opened LanguageModel
  import opened Options
  import opened Positions

  type SeqId = int
  type Block = nat
  type Hash = int

  /** Where one token's entry lives. */
  datatype Pos = Pos(block: Block, slot: nat)
  datatype SeqState = SeqState(table: seq<Block>, len: nat)
  datatype BlockInfo = BlockInfo(hash: Hash, chunk: seq<Token>)
  datatype HostCopy = HostCopy(blocks: seq<seq<Kv>>, len: nat)

  datatype Cache = Cache(
    blockSize: nat,
    prefixCaching: bool,
    hash: (Option<Hash>, seq<Token>) -> Hash,
    free: seq<Block>,               // used as a stack
    refs: seq<nat>,
    store: seq<seq<Kv>>,
    seqs: map<SeqId, SeqState>,
    index: map<Hash, Block>,
    info: map<Block, BlockInfo>,
    host: map<SeqId, HostCopy>)

  /** The bounds under which no operation indexes outside a list. */
  predicate Wf(c: Cache) {
    && c.blockSize >= 1
    && |c.store| == |c.refs|
    && Rows(c.store, c.blockSize)
    && InRange(c, c.free)
    && (forall id | id in c.seqs :: WfSeq(c, c.seqs[id]))
    && (forall b | b in c.info :: b < |c.refs|)
    && (forall h | h in c.index :: c.index[h] in c.info && c.info[c.index[h]].hash == h)
  }

  predicate WfSeq(c: Cache, st: SeqState) {
    && InRange(c, st.table)
    && st.len <= |st.table| * c.blockSize
  }

  predicate InRange(c: Cache, table: seq<Block>) {
    forall i | 0 <= i < |table| :: table[i] < |c.refs|
  }

  predicate InStore(store: seq<seq<Kv>>, pos: Pos) {
    pos.block < |store| && pos.slot < |store[pos.block]|
  }

  function At(store: seq<seq<Kv>>, pos: Pos): Kv
    requires InStore(store, pos)
  {
    store[pos.block][pos.slot]
  }

  /** Position p of a sequence lives in slot p % B of the block its table lists at p / B. */
  function PosOf(table: seq<Block>, B: nat, p: nat): (pos: Pos)
    requires B >= 1 && p < |table| * B
    ensures pos.block in table && pos.slot < B
  {
    DivLess(p, B, |table|);
    Pos(table[p / B], p % B)
  }

  /** Every row has B slots. */
  predicate Rows(store: seq<seq<Kv>>, B: nat) {
    forall b | 0 <= b < |store| :: |store[b]| == B
  }

  /** Every block a table lists is in the store, and every block of the store has B slots. */
  predicate Readable(store: seq<seq<Kv>>, B: nat, table: seq<Block>) {
    && Rows(store, B)
    && (forall i | 0 <= i < |table| :: table[i] < |store|)
  }

  /** The slots of the n tokens from position `from` on. */
  function Slots(table: seq<Block>, B: nat, from: nat, n: nat): (r: seq<Pos>)
    requires B >= 1 && from + n <= |table| * B
    ensures |r| == n
    ensures forall i | 0 <= i < n :: r[i] == PosOf(table, B, from + i)
    ensures forall i | 0 <= i < n :: r[i].block in table && r[i].slot < B
  {
    seq(n, i requires 0 <= i < n => PosOf(table, B, from + i))
  }

  predicate AllInStore(store: seq<seq<Kv>>, positions: seq<Pos>) {
    forall i | 0 <= i < |positions| :: InStore(store, positions[i])
  }

  function ReadAll(store: seq<seq<Kv>>, positions: seq<Pos>): (r: seq<Kv>)
    requires AllInStore(store, positions)
    ensures |r| == |positions|
    ensures forall i | 0 <= i < |r| :: r[i] == At(store, positions[i])
  {
    seq(|positions|, i requires 0 <= i < |positions| => At(store, positions[i]))
  }

  /** The first n entries reached through a block table. */
  function Gather(store: seq<seq<Kv>>, B: nat, table: seq<Block>, n: nat): (r: seq<Kv>)
    requires B >= 1 && Readable(store, B, table) && n <= |table| * B
    ensures |r| == n
  {
    ReadAll(store, Slots(table, B, 0, n))
  }

  /** The gather as the source spells it: the listed blocks end to end. */
  function Reshape(store: seq<seq<Kv>>, B: nat, table: seq<Block>): (r: seq<Kv>)
    requires Readable(store, B, table)
    ensures |r| == |table| * B
  {
    if table == [] then []
    else
      assert forall i | 0 <= i < |table| - 1 :: table[1..][i] == table[i + 1];
      store[table[0]] + Reshape(store, B, table[1..])
  }

  /** Writes values[i] to positions[i], in order. */
  function WriteAll(store: seq<seq<Kv>>, positions: seq<Pos>, values: seq<Kv>): (r: seq<seq<Kv>>)
    requires |positions| == |values|
    requires AllInStore(store, positions)
    ensures |r| == |store|
    ensures forall b | 0 <= b < |r| :: |r[b]| == |store[b]|
    decreases |positions|
  {
    if positions == [] then store
    else
      var n := |positions| - 1;
      assert InStore(store, positions[n]);
      var before := WriteAll(store, positions[..n], values[..n]);
      before[positions[n].block := before[positions[n].block][positions[n].slot := values[n]]]
  }

  // ---- BlockAllocator ----

  /** Pops a free block; None is the out-of-memory error. */
  function Allocate(c: Cache): (r: Option<(Cache, Block)>)
    requires Wf(c)
    ensures r.Some? ==> Wf(r.value.0) && r.value.1 < |c.refs|
  {
    if c.free == [] then None
    else
      var b := c.free[|c.free| - 1];
      Some((c.(free := c.free[..|c.free| - 1], refs := c.refs[b := 1]), b))
  }

  /** Drops one reference; at the last one the block becomes free and leaves the prefix index. */
  function FreeBlock(c: Cache, b: Block): (r: Cache)
    requires Wf(c) && b < |c.refs|
    ensures Wf(r) && |r.refs| == |c.refs|
    ensures r == c.(free := r.free, refs := r.refs, info := r.info, index := r.index)
  {
    if c.refs[b] > 1 then c.(refs := c.refs[b := c.refs[b] - 1])
    else
      var freed := c.(refs := c.refs[b := 0], free := c.free + [b]);
      if b in c.info then
        var h := c.info[b].hash;
        freed.(info := c.info - {b}, index := if h in c.index && c.index[h] == b then c.index - {h} else c.index)
      else freed
  }

  // ---- KVCacheManager ----

  function CreateSequence(c: Cache, id: SeqId): (r: Cache)
    requires Wf(c)
    ensures Wf(r)
  {
    c.(seqs := c.seqs[id := SeqState([], 0)])
  }

  /** Adds one reference to each listed block, in order. */
  function AddRefs(c: Cache, blocks: seq<Block>): (r: Cache)
    requires Wf(c) && InRange(c, blocks)
    ensures Wf(r) && |r.refs| == |c.refs| && r == c.(refs := r.refs)
    decreases |blocks|
  {
    if blocks == [] then c
    else
      var n := |blocks| - 1;
      var before := AddRefs(c, blocks[..n]);
      before.(refs := before.refs[blocks[n] := before.refs[blocks[n]] + 1])
  }

  /** A new sequence that starts out reusing already cached blocks. */
  function CreateSequenceFromPrefix(c: Cache, id: SeqId, blocks: seq<Block>): (r: Cache)
    requires Wf(c) && InRange(c, blocks)
    ensures Wf(r) && |r.refs| == |c.refs|
  {
    var shared := AddRefs(c, blocks);
    shared.(seqs := shared.seqs[id := SeqState(blocks, |blocks| * c.blockSize)])
  }

  function FreeBlocks(c: Cache, blocks: seq<Block>): (r: Cache)
    requires Wf(c) && InRange(c, blocks)
    ensures Wf(r) && |r.refs| == |c.refs|
    ensures r == c.(free := r.free, refs := r.refs, info := r.info, index := r.index)
    decreases |blocks|
  {
    if blocks == [] then c else FreeBlock(FreeBlocks(c, blocks[..|blocks| - 1]), blocks[|blocks| - 1])
  }

  function FreeSequence(c: Cache, id: SeqId): (r: Cache)
    requires Wf(c) && id in c.seqs
    ensures Wf(r) && |r.refs| == |c.refs|
    ensures r == c.(free := r.free, refs := r.refs, info := r.info, index := r.index, seqs := c.seqs - {id})
  {
    FreeBlocks(c.(seqs := c.seqs - {id}), c.seqs[id].table)
  }

  /** The contents of the listed blocks. */
  function CopyRows(store: seq<seq<Kv>>, table: seq<Block>): (r: seq<seq<Kv>>)
    requires forall i | 0 <= i < |table| :: table[i] < |store|
    ensures |r| == |table| && forall i | 0 <= i < |table| :: r[i] == store[table[i]]
  {
    seq(|table|, i requires 0 <= i < |table| => store[table[i]])
  }

  /** Copies the sequence's blocks to the host, then frees them. */
  function SwapOut(c: Cache, id: SeqId): (r: Cache)
    requires Wf(c) && id in c.seqs
    ensures Wf(r) && |r.refs| == |c.refs| && id in r.host
    ensures r == c.(free := r.free, refs := r.refs, info := r.info, index := r.index, seqs := c.seqs - {id},
                    host := c.host[id := r.host[id]])
  {
    var st := c.seqs[id];
    FreeSequence(c, id).(host := c.host[id := HostCopy(CopyRows(c.store, st.table), st.len)])
  }

  /** Allocates n blocks; on failure the blocks taken so far stay taken. */
  function AllocateN(c: Cache, n: nat): (r: (Cache, seq<Block>, bool))
    requires Wf(c)
    ensures Wf(r.0) && InRange(r.0, r.1) && |r.0.refs| == |c.refs|
    ensures r.0 == c.(free := r.0.free, refs := r.0.refs)
    ensures r.2 ==> |r.1| == n
  {
    if n == 0 then (c, [], true)
    else
      var (before, taken, ok) := AllocateN(c, n - 1);
      if !ok then (before, taken, false)
      else
        match Allocate(before)
        case None => (before, taken, false)
        case Some((after, b)) => (after, taken + [b], true)
  }

  /** Overwrites whole blocks. */
  function WriteBlocks(store: seq<seq<Kv>>, blocks: seq<Block>, rows: seq<seq<Kv>>): (r: seq<seq<Kv>>)
    requires |blocks| == |rows|
    requires forall i | 0 <= i < |blocks| :: blocks[i] < |store|
    ensures |r| == |store|
    decreases |blocks|
  {
    if blocks == [] then store
    else
      var n := |blocks| - 1;
      WriteBlocks(store, blocks[..n], rows[..n])[blocks[n] := rows[n]]
  }

  /** Assigning rows to n blocks: as many rows as blocks, or a single one, which goes to all of them;
      None is the tensor library's error for shapes that differ. */
  function Broadcast(rows: seq<seq<Kv>>, n: nat): (r: Option<seq<seq<Kv>>>)
    ensures r.Some? <==> |rows| == n || |rows| == 1
    ensures r.Some? ==> |r.value| == n && forall i | 0 <= i < n :: r.value[i] in rows
    ensures |rows| == n ==> r == Some(rows)
  {
    if |rows| == n then Some(rows)
    else if |rows| == 1 then Some(seq(n, i => rows[0]))
    else None
  }

  /** Restores a host copy into fresh blocks. Raises when the blocks run out, and when the copy
      holds another number of blocks than its length needs. */
  function SwapIn(c: Cache, id: SeqId): (r: (Cache, bool))
    requires Wf(c) && id in c.host
    requires Rows(c.host[id].blocks, c.blockSize)
    ensures Wf(r.0) && |r.0.refs| == |c.refs|
    ensures r.0 == c.(free := r.0.free, refs := r.0.refs, store := r.0.store, seqs := r.0.seqs, host := c.host - {id})
  {
    var copy := c.host[id];
    var (after, table, ok) := AllocateN(c.(host := c.host - {id}), BlocksFor(c.blockSize, copy.len));
    var rows := Broadcast(copy.blocks, |table|);
    if !ok || rows.None? then (after, false)
    else
      assert forall i | 0 <= i < |table| :: table[i] < |after.store|;
      var store := WriteBlocks(after.store, table, rows.value);
      WriteBlocksRows(after.store, table, rows.value, c.blockSize);
      BlocksForLeast(c.blockSize, copy.len, |table|);
      (after.(store := store, seqs := after.seqs[id := SeqState(table, copy.len)]), true)
  }

  lemma WriteBlocksRows(store: seq<seq<Kv>>, blocks: seq<Block>, rows: seq<seq<Kv>>, B: nat)
    requires |blocks| == |rows|
    requires forall i | 0 <= i < |blocks| :: blocks[i] < |store|
    requires Rows(store, B) && Rows(rows, B)
    ensures Rows(WriteBlocks(store, blocks, rows), B)
    decreases |blocks|
  {
    if blocks != [] {
      WriteBlocksRows(store, blocks[..|blocks| - 1], rows[..|rows| - 1], B);
    }
  }

  function DiscardSwapped(c: Cache, id: SeqId): (r: Cache)
    requires Wf(c)
    ensures Wf(r)
  {
    c.(host := c.host - {id})
  }

  /** Forgets the last n cached positions; blocks stay owned. */
  function Rollback(c: Cache, id: SeqId, n: nat): (r: Cache)
    requires Wf(c) && id in c.seqs && n <= c.seqs[id].len
    ensures Wf(r)
  {
    c.(seqs := c.seqs[id := c.seqs[id].(len := c.seqs[id].len - n)])
  }

  function Chunk(toks: seq<Token>, B: nat, i: nat): (r: seq<Token>)
    requires (i + 1) * B <= |toks|
    ensures |r| == B
  {
    assert (i + 1) * B == i * B + B;
    toks[i * B..(i + 1) * B]
  }

  /** How many whole blocks of a prompt may be matched: one token always stays unmatched. */
  function MatchableBlocks(B: nat, n: nat): (r: nat)
    requires B >= 1
    ensures n >= 1 ==> r * B < n
    ensures n == 0 ==> r == 0
  {
    DivMod(n, B);
    if n >= 1 && n % B == 0 then
      assert n / B >= 1;
      assert (n / B - 1) * B == (n / B) * B - B;
      n / B - 1
    else n / B
  }

  /** Follows the hash chain from block i on, as far as it leads to cached blocks. */
  function MatchFrom(c: Cache, toks: seq<Token>, i: nat, n: nat, parent: Option<Hash>): (r: seq<Block>)
    requires Wf(c) && i <= n && n * c.blockSize <= |toks|
    ensures |r| <= n - i && InRange(c, r)
    decreases n - i
  {
    if i == n then []
    else
      MulMonotone(i + 1, n, c.blockSize);
      var chunk := Chunk(toks, c.blockSize, i);
      var h := c.hash(parent, chunk);
      if h !in c.index || c.info[c.index[h]].chunk != chunk then []
      else [c.index[h]] + MatchFrom(c, toks, i + 1, n, Some(h))
  }

  function MatchPrefix(c: Cache, toks: seq<Token>): (r: seq<Block>)
    requires Wf(c)
    ensures InRange(c, r)
    ensures |r| * c.blockSize <= |toks|
    ensures toks != [] ==> |r| * c.blockSize < |toks|
  {
    if !c.prefixCaching then []
    else
      var n := MatchableBlocks(c.blockSize, |toks|);
      var r := MatchFrom(c, toks, 0, n, None);
      MulMonotone(|r|, n, c.blockSize);
      r
  }

  /** Files a block under a hash unless it already is filed. */
  function FileBlock(c: Cache, b: Block, h: Hash, chunk: seq<Token>): (r: Cache)
    requires Wf(c) && b < |c.refs|
    ensures Wf(r) && r == c.(info := r.info, index := r.index)
  {
    if b in c.info then c else c.(index := c.index[h := b], info := c.info[b := BlockInfo(h, chunk)])
  }

  /** Enters blocks i.. of a table into the prefix index unless they already are in it. */
  function RegisterFrom(c: Cache, table: seq<Block>, toks: seq<Token>, i: nat, n: nat, parent: Option<Hash>): (r: Cache)
    requires Wf(c) && InRange(c, table) && i <= n <= |table| && n * c.blockSize <= |toks|
    ensures Wf(r)
    ensures r == c.(info := r.info, index := r.index)
    decreases n - i
  {
    if i == n then c
    else
      MulMonotone(i + 1, n, c.blockSize);
      var chunk := Chunk(toks, c.blockSize, i);
      var h := c.hash(parent, chunk);
      var b := table[i];
      RegisterFrom(FileBlock(c, b, h, chunk), table, toks, i + 1, n, Some(h))
  }

  function RegisterPrefixBlocks(c: Cache, id: SeqId, toks: seq<Token>): (r: Cache)
    requires Wf(c) && id in c.seqs && |toks| / c.blockSize <= |c.seqs[id].table|
    ensures Wf(r)
    ensures r == c.(info := r.info, index := r.index)
    ensures !c.prefixCaching ==> r == c
  {
    if !c.prefixCaching then c
    else
      DivMod(|toks|, c.blockSize);
      RegisterFrom(c, c.seqs[id].table, toks, 0, |toks| / c.blockSize, None)
  }

  /** Appends one free block to a table. */
  function AppendBlock(c: Cache, id: SeqId): (r: Cache)
    requires Wf(c) && id in c.seqs && c.free != []
    ensures Wf(r) && |r.refs| == |c.refs|
    ensures r == c.(free := r.free, refs := r.refs, seqs := r.seqs)
  {
    var st := c.seqs[id];
    var (after, b) := Allocate(c).value;
    MulMonotone(|st.table|, |st.table| + 1, c.blockSize);
    after.(seqs := after.seqs[id := st.(table := st.table + [b])])
  }

  /** Appends fresh blocks to a table until it has `target`; false is the out-of-memory error,
      which leaves the blocks appended so far. */
  function Grow(c: Cache, id: SeqId, target: nat): (r: (Cache, bool))
    requires Wf(c) && id in c.seqs
    ensures Wf(r.0) && id in r.0.seqs && |r.0.refs| == |c.refs|
    ensures r.0 == c.(free := r.0.free, refs := r.0.refs, seqs := c.seqs[id := r.0.seqs[id]])
    ensures r.0.seqs[id].len == c.seqs[id].len && c.seqs[id].table <= r.0.seqs[id].table
    ensures r.1 ==> target <= |r.0.seqs[id].table|
    decreases target - |c.seqs[id].table|
  {
    if |c.seqs[id].table| >= target then (c, true)
    else if c.free == [] then (c, false)
    else Grow(AppendBlock(c, id), id, target)
  }

  /** Makes room for n more tokens without counting them as cached. */
  function Reserve(c: Cache, id: SeqId, n: nat): (r: (Cache, bool))
    requires Wf(c) && id in c.seqs
    ensures Wf(r.0) && id in r.0.seqs && |r.0.refs| == |c.refs|
    ensures r.0 == c.(free := r.0.free, refs := r.0.refs, seqs := c.seqs[id := r.0.seqs[id]])
    ensures r.0.seqs[id].len == c.seqs[id].len && c.seqs[id].table <= r.0.seqs[id].table
    ensures r.1 ==> c.seqs[id].len + n <= |r.0.seqs[id].table| * c.blockSize
  {
    var r := Grow(c, id, BlocksFor(c.blockSize, c.seqs[id].len + n));
    BlocksForLeast(c.blockSize, c.seqs[id].len + n, |r.0.seqs[id].table|);
    r
  }

  function Write(c: Cache, positions: seq<Pos>, values: seq<Kv>): (r: Cache)
    requires Wf(c) && |positions| == |values|
    requires AllInStore(c.store, positions)
    ensures Wf(r) && r == c.(store := r.store)
  {
    c.(store := WriteAll(c.store, positions, values))
  }

  function Advance(c: Cache, id: SeqId, n: nat): (r: Cache)
    requires Wf(c) && id in c.seqs && c.seqs[id].len + n <= |c.seqs[id].table| * c.blockSize
    ensures Wf(r)
  {
    c.(seqs := c.seqs[id := c.seqs[id].(len := c.seqs[id].len + n)])
  }

  /** Writes `values` into the slots after the cached positions and counts them as cached. */
  function Append(c: Cache, id: SeqId, values: seq<Kv>): (r: Cache)
    requires Wf(c) && id in c.seqs && c.seqs[id].len + |values| <= |c.seqs[id].table| * c.blockSize
    ensures Wf(r)
    ensures r == c.(store := r.store, seqs := c.seqs[id := c.seqs[id].(len := c.seqs[id].len + |values|)])
    ensures r.store == WriteAll(c.store, Slots(c.seqs[id].table, c.blockSize, c.seqs[id].len, |values|), values)
  {
    var st := c.seqs[id];
    Advance(Write(c, Slots(st.table, c.blockSize, st.len, |values|), values), id, |values|)
  }
}
