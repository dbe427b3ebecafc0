/** How far a prefix match reaches, and when a prompt that was filed is found again. */
module PrefixIndex {
  import opened LanguageModel
  import opened Options
  import opened Positions
  import opened PagedKvCache
  import opened CacheInvariant
  import opened CacheOperations
  import opened PrefixReuse

  /** The hash under which a prompt's i-th block is filed. */
  function BlockHash(c: Cache, toks: seq<Token>, i: nat): Hash
    requires (i + 1) * c.blockSize <= |toks|
  {
    Chain(c.hash, c.blockSize, toks, i + 1).value
  }

  /** The index leads somewhere from it. */
  predicate Indexed(c: Cache, toks: seq<Token>, i: nat) {
    (i + 1) * c.blockSize <= |toks| && BlockHash(c, toks, i) in c.index
  }

  // ---- hash chains that do not collide at all ----

  /** The chains of one prompt's blocks differ. */
  ghost predicate OwnChains(hash: (Option<Hash>, seq<Token>) -> Hash, B: nat, toks: seq<Token>) {
    forall i: nat, k: nat :: ChainsDiffer(hash, B, toks, i, k)
  }

  ghost predicate ChainsDiffer(hash: (Option<Hash>, seq<Token>) -> Hash, B: nat, toks: seq<Token>, i: nat, k: nat) {
    i * B <= |toks| && k * B <= |toks| && Chain(hash, B, toks, i) == Chain(hash, B, toks, k) ==> i == k
  }

  lemma InjectiveOwnChains(hash: (Option<Hash>, seq<Token>) -> Hash, B: nat, toks: seq<Token>)
    requires InjectiveHash(hash)
    ensures OwnChains(hash, B, toks)
  {
    hide InjectiveHash, Chain;
    forall i: nat, k: nat ensures ChainsDiffer(hash, B, toks, i, k) {
      if i * B <= |toks| && k * B <= |toks| && Chain(hash, B, toks, i) == Chain(hash, B, toks, k) {
        ChainInjective(hash, B, toks, i, toks, k);
      }
    }
  }

  /** The prefixes filed and the one asked for have equal chains only if they are equal. */
  ghost predicate NoChainCollision(c: Cache, hist: map<SeqId, seq<Token>>, toks: seq<Token>) {
    forall x, j: nat, i: nat | x in hist && FiledBlock(c, x, j) :: ChainsApart(c, hist[x], j, toks, i)
  }

  ghost predicate ChainsApart(c: Cache, a: seq<Token>, j: nat, b: seq<Token>, i: nat) {
    (j + 1) * c.blockSize <= |a| && (i + 1) * c.blockSize <= |b| && Chain(c.hash, c.blockSize, a, j + 1) == Chain(c.hash, c.blockSize, b, i + 1)
    ==> i == j && a[..(j + 1) * c.blockSize] == b[..(i + 1) * c.blockSize]
  }

  lemma InjectiveNoChainCollision(c: Cache, hist: map<SeqId, seq<Token>>, toks: seq<Token>)
    requires InjectiveHash(c.hash)
    ensures NoChainCollision(c, hist, toks)
  {
    hide InjectiveHash, Chain, FiledBlock;
    forall x, j: nat, i: nat | x in hist && FiledBlock(c, x, j) ensures ChainsApart(c, hist[x], j, toks, i) {
      if (j + 1) * c.blockSize <= |hist[x]| && (i + 1) * c.blockSize <= |toks|
         && Chain(c.hash, c.blockSize, hist[x], j + 1) == Chain(c.hash, c.blockSize, toks, i + 1) {
        ChainInjective(c.hash, c.blockSize, hist[x], j + 1, toks, i + 1);
      }
    }
  }

  // ---- how far a match reaches ----

  /** Then comparing the chunk never refuses a block found under the right hash. */
  lemma IndexedChunk(m: Model, c: Cache, hist: map<SeqId, seq<Token>>, toks: seq<Token>, i: nat)
    requires Sound(c, {}) && Faithful(m, c, hist) && NoChainCollision(c, hist, toks) && Indexed(c, toks, i)
    ensures MatchesAt(c, toks, i, c.index[BlockHash(c, toks, i)])
  {
    var b := c.index[BlockHash(c, toks, i)];
    var x := SomeHolder(c, b);
    var j :| 0 <= j < |c.seqs[x].table| && c.seqs[x].table[j] == b;
    assert FiledAs(c.info, c.hash, c.blockSize, hist[x], j, b);
    assert FiledBlock(c, x, j) && ChainsApart(c, hist[x], j, toks, i);
    assert Chunk(toks, c.blockSize, i) == toks[..(i + 1) * c.blockSize][i * c.blockSize..];
    assert Chunk(hist[x], c.blockSize, i) == hist[x][..(i + 1) * c.blockSize][i * c.blockSize..];
  }

  lemma {:induction false} MatchFromReach(m: Model, c: Cache, hist: map<SeqId, seq<Token>>, toks: seq<Token>, i: nat, n: nat)
    requires Sound(c, {}) && Faithful(m, c, hist) && NoChainCollision(c, hist, toks)
    requires i <= n && n * c.blockSize <= |toks| && i * c.blockSize <= |toks|
    ensures var k := i + |MatchFrom(c, toks, i, n, Chain(c.hash, c.blockSize, toks, i))|;
            && (forall j | i <= j < k :: Indexed(c, toks, j))
            && (k < n ==> !Indexed(c, toks, k))
    decreases n - i
  {
    hide Sound, Faithful, NoChainCollision;
    if i < n {
      MulMonotone(i + 1, n, c.blockSize);
      var h := c.hash(Chain(c.hash, c.blockSize, toks, i), Chunk(toks, c.blockSize, i));
      assert Chain(c.hash, c.blockSize, toks, i + 1) == Some(h);
      if h in c.index {
        IndexedChunk(m, c, hist, toks, i);
        MatchFromReach(m, c, hist, toks, i + 1, n);
      }
    }
  }

  /** A match reaches exactly to the first block whose hash is not indexed, or as far as it may. */
  lemma MatchReach(m: Model, c: Cache, hist: map<SeqId, seq<Token>>, toks: seq<Token>)
    requires Sound(c, {}) && Faithful(m, c, hist) && NoChainCollision(c, hist, toks) && c.prefixCaching
    ensures var k := |MatchPrefix(c, toks)|;
            && k <= MatchableBlocks(c.blockSize, |toks|)
            && (forall j | 0 <= j < k :: Indexed(c, toks, j))
            && (k < MatchableBlocks(c.blockSize, |toks|) ==> !Indexed(c, toks, k))
  {
    var n := MatchableBlocks(c.blockSize, |toks|);
    assert n * c.blockSize <= |toks|;
    MatchFromReach(m, c, hist, toks, 0, n);
  }

  /** Filing a table's blocks indexes exactly the ones that were not filed before. */
  lemma {:induction false} RegisterIndexes(c: Cache, table: seq<Block>, toks: seq<Token>, i: nat, n: nat, k: nat)
    requires Wf(c) && InRange(c, table) && NoDup(table) && OwnChains(c.hash, c.blockSize, toks)
    requires i <= n <= |table| && n * c.blockSize <= |toks| && i * c.blockSize <= |toks| && k < n && (k + 1) * c.blockSize <= |toks|
    ensures var after := RegisterFrom(c, table, toks, i, n, Chain(c.hash, c.blockSize, toks, i));
            Indexed(after, toks, k) <==> Indexed(c, toks, k) || (i <= k && table[k] !in c.info)
    decreases n - i
  {
    hide Wf, Chunk;
    if i < n {
      MulMonotone(i + 1, n, c.blockSize);
      var h := c.hash(Chain(c.hash, c.blockSize, toks, i), Chunk(toks, c.blockSize, i));
      assert Chain(c.hash, c.blockSize, toks, i + 1) == Some(h);
      var next := FileBlock(c, table[i], h, Chunk(toks, c.blockSize, i));
      RegisterIndexes(next, table, toks, i + 1, n, k);
      if h == BlockHash(c, toks, k) {
        assert ChainsDiffer(c.hash, c.blockSize, toks, i + 1, k + 1);
      }
    }
  }

  /** After a prompt is filed, an equal prompt matches every block it may, exactly if each of those
      blocks was new to the index or its hash still led to some block. Blocks filed under a hash that
      no longer leads to them are not filed again. */
  lemma FiledPromptIsMatched(m: Model, c: Cache, hist: map<SeqId, seq<Token>>, id: SeqId)
    requires Sound(c, {}) && Faithful(m, c, hist) && InjectiveHash(c.hash) && c.prefixCaching && id in hist
    requires PrivateFrom(c.info, c.seqs[id].table, |hist[id]| / c.blockSize)
    ensures |hist[id]| / c.blockSize <= |c.seqs[id].table|
    ensures var toks, n := hist[id], MatchableBlocks(c.blockSize, |hist[id]|);
            && n <= |c.seqs[id].table|
            && (|MatchPrefix(RegisterPrefixBlocks(c, id, toks), toks)| == n <==>
                forall k | 0 <= k < n :: Indexed(c, toks, k) || c.seqs[id].table[k] !in c.info)
  {
    var toks, table, B := hist[id], c.seqs[id].table, c.blockSize;
    var n, all := MatchableBlocks(B, |toks|), |toks| / B;
    assert InRange(c, table) && NoDup(table);
    RegisterKeeps(m, c, hist, id);
    var after := RegisterPrefixBlocks(c, id, toks);
    hide Sound, Faithful, InjectiveHash, Indexed, RegisterFrom, PrivateFrom, NoChainCollision, OwnChains;
    InjectiveNoChainCollision(after, hist, toks);
    InjectiveOwnChains(c.hash, B, toks);
    MatchReach(m, after, hist, toks);
    DivMod(|toks|, B);
    forall k | 0 <= k < n ensures Indexed(after, toks, k) <==> Indexed(c, toks, k) || table[k] !in c.info {
      MulMonotone(k + 1, all, B);
      RegisterIndexes(c, table, toks, 0, all, k);
    }
  }

  /** When freeing a sequence makes a block unreachable that stays live and filed: exactly when the
      index leads from its hash to another block, which only that sequence holds. */
  lemma LiveHashLost(c: Cache, id: SeqId, y: SeqId, b: Block)
    requires Sound(c, {}) && id in c.seqs && y in c.seqs && y != id && b in c.seqs[y].table && b in c.info
    ensures var h, after := c.info[b].hash, FreeSequence(c, id);
            && b in after.info && y in after.seqs && after.seqs[y] == c.seqs[y]
            && (h in c.index && h !in after.index <==> h in c.index && c.index[h] != b && !HeldElsewhere(c, id, c.index[h]))
  {
    FreeSequenceIndex(c, id);
    hide Sound;
    assert HeldElsewhere(c, id, b);
  }

  // ---- which hashes filing gives a new block ----

  /** Block j of the table is not filed yet, and will be under h. */
  ghost predicate FiledNow(c: Cache, table: seq<Block>, toks: seq<Token>, j: nat, h: Hash) {
    j < |table| && (j + 1) * c.blockSize <= |toks| && table[j] !in c.info && h == BlockHash(c, toks, j)
  }

  ghost predicate NewHash(c: Cache, table: seq<Block>, toks: seq<Token>, i: nat, n: nat, h: Hash) {
    exists j: nat :: i <= j < n && FiledNow(c, table, toks, j, h)
  }

  /** Filing leads h to a new block of the table, or leaves it alone. */
  ghost predicate Named(c: Cache, after: Cache, table: seq<Block>, toks: seq<Token>, i: nat, n: nat, h: Hash) {
    && (NewHash(c, table, toks, i, n, h) ==> h in after.index && after.index[h] in table && after.index[h] !in c.info)
    && (!NewHash(c, table, toks, i, n, h) ==> (h in after.index <==> h in c.index) && (h in c.index ==> after.index[h] == c.index[h]))
  }

  lemma {:induction false} RegisterNames(c: Cache, table: seq<Block>, toks: seq<Token>, i: nat, n: nat)
    requires Wf(c) && InRange(c, table) && NoDup(table)
    requires i <= n <= |table| && n * c.blockSize <= |toks| && i * c.blockSize <= |toks|
    ensures var after := RegisterFrom(c, table, toks, i, n, Chain(c.hash, c.blockSize, toks, i));
            forall h :: Named(c, after, table, toks, i, n, h)
    decreases n - i
  {
    hide Wf, Chunk, Named, NoDup;
    var after := RegisterFrom(c, table, toks, i, n, Chain(c.hash, c.blockSize, toks, i));
    if i == n {
      forall h ensures Named(c, after, table, toks, i, n, h) { NothingNamed(c, table, toks, i, h); }
    } else {
      MulMonotone(i + 1, n, c.blockSize);
      var h := c.hash(Chain(c.hash, c.blockSize, toks, i), Chunk(toks, c.blockSize, i));
      assert Chain(c.hash, c.blockSize, toks, i + 1) == Some(h);
      var next := FileBlock(c, table[i], h, Chunk(toks, c.blockSize, i));
      RegisterNames(next, table, toks, i + 1, n);
      assert h == BlockHash(c, toks, i);
      assert after == RegisterFrom(next, table, toks, i + 1, n, Chain(next.hash, next.blockSize, toks, i + 1));
      forall k ensures Named(c, after, table, toks, i, n, k) { OneNamed(c, next, after, table, toks, i, n, k); }
    }
  }

  lemma NothingNamed(c: Cache, table: seq<Block>, toks: seq<Token>, i: nat, h: Hash)
    ensures Named(c, c, table, toks, i, i, h)
  {
  }

  lemma OneNamed(c: Cache, next: Cache, after: Cache, table: seq<Block>, toks: seq<Token>, i: nat, n: nat, h: Hash)
    requires Wf(c) && InRange(c, table) && NoDup(table) && i < n <= |table| && (i + 1) * c.blockSize <= |toks|
    requires next == FileBlock(c, table[i], BlockHash(c, toks, i), Chunk(toks, c.blockSize, i))
    requires Named(next, after, table, toks, i + 1, n, h)
    ensures Named(c, after, table, toks, i, n, h)
  {
    hide Wf, BlockHash, Chunk;
    SameHashes(c, next, toks);
    forall j: nat | i + 1 <= j < n ensures FiledNow(next, table, toks, j, h) <==> FiledNow(c, table, toks, j, h) {
    }
    if NewHash(next, table, toks, i + 1, n, h) {
      var j: nat :| i + 1 <= j < n && FiledNow(next, table, toks, j, h);
      assert FiledNow(c, table, toks, j, h);
    } else if FiledNow(c, table, toks, i, h) {
      assert NewHash(c, table, toks, i, n, h);
      assert table[i] in table;
    } else {
      assert forall j: nat | i <= j < n :: !FiledNow(c, table, toks, j, h);
    }
  }

  lemma SameHashes(c: Cache, next: Cache, toks: seq<Token>)
    requires next.hash == c.hash && next.blockSize == c.blockSize
    ensures forall j: nat | (j + 1) * c.blockSize <= |toks| :: BlockHash(next, toks, j) == BlockHash(c, toks, j)
  {
  }

  /** The last block of a prompt of whole blocks is never matched, so a second sequence with the same
      prompt fills a block of its own and files it under the same hash; the index keeps the later one.
      Freeing the second sequence removes the hash, although the block of the first is still live and
      still filed: the prompt is no longer matched, and filing it again from the first sequence changes
      nothing. */
  lemma LiveBlockLost(c: Cache, t: Token, u: Token)
    requires Wf(c) && c.prefixCaching && c.blockSize == 1 && c.refs == [1, 1] && c.index == map[] && c.info == map[]
    requires c.seqs == map[1 := SeqState([0], 1), 2 := SeqState([1], 1)]
    ensures MatchPrefix(RegisterPrefixBlocks(c, 1, [t]), [t]) == []
    ensures MatchPrefix(RegisterPrefixBlocks(c, 1, [t]), [t, u]) == [0]
    ensures var both := RegisterPrefixBlocks(RegisterPrefixBlocks(c, 1, [t]), 2, [t]);
            var after := FreeSequence(both, 2);
            && MatchPrefix(both, [t, u]) == [1]
            && after.refs == [1, 0] && 0 in after.info && after.seqs == map[1 := SeqState([0], 1)]
            && RegisterPrefixBlocks(after, 1, [t]) == after
            && MatchPrefix(after, [t, u]) == []
  {
    var h := c.hash(None, [t]);
    assert Chunk([t, u], 1, 0) == [t] && Chunk([t], 1, 0) == [t];
    var first := RegisterPrefixBlocks(c, 1, [t]);
    FiledAlone(c, 0, t);
    assert first == FileBlock(c, 0, h, [t]);
    FiledAlone(first, 1, t);
    var both := RegisterPrefixBlocks(first, 2, [t]);
    assert both == FileBlock(first, 1, h, [t]);
    MatchOne(first, t, u);
    MatchOne(both, t, u);
    var after := FreeSequence(both, 2);
    FreeOne(both.(seqs := both.seqs - {2}), 1);
    assert after.index == map[];
    FiledAlone(after, 0, t);
    MatchOne(after, t, u);
  }

  lemma FreeOne(c: Cache, b: Block)
    requires Wf(c) && InRange(c, [b])
    ensures FreeBlocks(c, [b]) == FreeBlock(c, b)
  {
    assert [b][..0] == [];
    assert FreeBlocks(c, []) == c;
  }

  /** Filing a prompt of one block of one token. */
  lemma FiledAlone(c: Cache, b: Block, t: Token)
    requires Wf(c) && c.blockSize == 1 && b < |c.refs|
    ensures RegisterFrom(c, [b], [t], 0, 1, None) == FileBlock(c, b, c.hash(None, [t]), [t])
  {
    var h := c.hash(None, [t]);
    assert Chunk([t], 1, 0) == [t];
    assert RegisterFrom(FileBlock(c, b, h, [t]), [b], [t], 1, 1, Some(h)) == FileBlock(c, b, h, [t]);
  }

  /** Matching a prompt of two blocks of one token. */
  lemma MatchOne(c: Cache, t: Token, u: Token)
    requires Wf(c) && c.blockSize == 1 && c.prefixCaching
    ensures var h := c.hash(None, [t]);
            MatchPrefix(c, [t, u]) == if h in c.index && c.info[c.index[h]].chunk == [t] then [c.index[h]] else []
    ensures MatchPrefix(c, [t]) == []
  {
    var h := c.hash(None, [t]);
    assert Chunk([t, u], 1, 0) == [t];
    assert MatchFrom(c, [t, u], 1, 1, Some(h)) == [];
  }
}
