/** Prefix reuse: what `match_prefix` returns really is the cache of the prefix asked for. */
module PrefixReuse {
  import opened LanguageModel
  import opened Options
  import opened Positions
  import opened PagedKvCache
  import opened CacheInvariant
  import opened CacheOperations

  /** Equal chains of an injective hash cover equally many blocks with equal tokens. */
  lemma {:induction false} ChainInjective(hash: (Option<Hash>, seq<Token>) -> Hash, B: nat, a: seq<Token>, n: nat, b: seq<Token>, k: nat)
    requires InjectiveHash(hash) && n * B <= |a| && k * B <= |b|
    requires Chain(hash, B, a, n) == Chain(hash, B, b, k)
    ensures n == k && a[..n * B] == b[..k * B]
  {
    if n > 0 {
      assert n * B == (n - 1) * B + B && k * B == (k - 1) * B + B;
      ChainInjective(hash, B, a, n - 1, b, k - 1);
      assert a[..n * B] == a[..(n - 1) * B] + Chunk(a, B, n - 1);
      assert b[..k * B] == b[..(k - 1) * B] + Chunk(b, B, k - 1);
    }
  }

  /** Blocks `from`.. of a match are indexed under the hash chain of the tokens asked for. */
  ghost predicate Matches(c: Cache, toks: seq<Token>, from: nat, blocks: seq<Block>)
    requires (from + |blocks|) * c.blockSize <= |toks|
  {
    forall k | 0 <= k < |blocks| :: MatchesAt(c, toks, from + k, blocks[k])
  }

  ghost predicate MatchesAt(c: Cache, toks: seq<Token>, i: nat, b: Block) {
    && (i + 1) * c.blockSize <= |toks|
    && b in c.info
    && c.info[b] == BlockInfo(Chain(c.hash, c.blockSize, toks, i + 1).value, Chunk(toks, c.blockSize, i))
  }

  lemma {:induction false} MatchFromMatches(c: Cache, toks: seq<Token>, i: nat, n: nat)
    requires Wf(c) && i <= n && n * c.blockSize <= |toks| && i * c.blockSize <= |toks|
    ensures
      var r := MatchFrom(c, toks, i, n, Chain(c.hash, c.blockSize, toks, i));
      (i + |r|) * c.blockSize <= |toks| && Matches(c, toks, i, r)
    decreases n - i
  {
    var parent := Chain(c.hash, c.blockSize, toks, i);
    var r := MatchFrom(c, toks, i, n, parent);
    MulMonotone(i + |r|, n, c.blockSize);
    MulMonotone(i + 1, n, c.blockSize);
    if r != [] {
      var h := c.hash(parent, Chunk(toks, c.blockSize, i));
      assert Chain(c.hash, c.blockSize, toks, i + 1) == Some(h);
      MatchFromMatches(c, toks, i + 1, n);
      var rest := MatchFrom(c, toks, i + 1, n, Some(h));
      assert r == [c.index[h]] + rest;
      forall k | 0 <= k < |r| ensures MatchesAt(c, toks, i + k, r[k]) {
        if k > 0 { assert MatchesAt(c, toks, i + 1 + (k - 1), rest[k - 1]); }
      }
    }
  }

  lemma MatchPrefixMatches(c: Cache, toks: seq<Token>)
    requires Wf(c)
    ensures
      var r := MatchPrefix(c, toks);
      && (toks != [] ==> |r| * c.blockSize < |toks|)
      && |r| * c.blockSize <= |toks|
      && Matches(c, toks, 0, r)
  {
    if c.prefixCaching {
      var n := MatchableBlocks(c.blockSize, |toks|);
      MatchFromMatches(c, toks, 0, n);
    }
  }

  lemma SomeHolder(c: Cache, b: Block) returns (x: SeqId)
    requires Sound(c, {}) && b in c.info
    ensures x in c.seqs && b in c.seqs[x].table
  {
    assert c.refs[b] > 0 && c.refs[b] == |Holders(c.seqs, b)|;
    hide Wf, FreeExact, Counted, TablesDistinct;
    x := Member(Holders(c.seqs, b));
  }

  // ---- when a match is right ----

  /** Sequence x has cached, up to and with block j of its table, what `toks` has up to block i. */
  ghost predicate HasPrefix(c: Cache, hist: map<SeqId, seq<Token>>, x: SeqId, j: nat, toks: seq<Token>, i: nat) {
    && x in hist && j == i && (i + 1) * c.blockSize <= |hist[x]| && (i + 1) * c.blockSize <= |toks|
    && hist[x][..(i + 1) * c.blockSize] == toks[..(i + 1) * c.blockSize]
  }

  /** Whoever holds block i of a match holds it at the same place, after the same tokens: the tokens of
      all earlier blocks included, which matching does not compare. */
  ghost predicate HoldersAgree(c: Cache, hist: map<SeqId, seq<Token>>, toks: seq<Token>, blocks: seq<Block>) {
    forall x, j: nat, i: nat | i < |blocks| && x in c.seqs && j < |c.seqs[x].table| && c.seqs[x].table[j] == blocks[i] ::
      HasPrefix(c, hist, x, j, toks, i)
  }

  /** A block is a match's block at one place only. */
  lemma AgreedDistinct(c: Cache, hist: map<SeqId, seq<Token>>, toks: seq<Token>, blocks: seq<Block>)
    requires Sound(c, {}) && |blocks| * c.blockSize <= |toks| && Matches(c, toks, 0, blocks) && HoldersAgree(c, hist, toks, blocks)
    ensures NoDup(blocks)
  {
    hide Sound;
    forall k, l | 0 <= k < l < |blocks| ensures blocks[k] != blocks[l] {
      assert MatchesAt(c, toks, 0 + k, blocks[k]);
      var x := SomeHolder(c, blocks[k]);
      var j :| 0 <= j < |c.seqs[x].table| && c.seqs[x].table[j] == blocks[k];
      assert HasPrefix(c, hist, x, j, toks, k);
      assert blocks[k] == blocks[l] ==> HasPrefix(c, hist, x, j, toks, l);
    }
  }

  /** Every matched block is live: some sequence holds it, then at the same place and after the same
      tokens. */
  lemma MatchedHolder(c: Cache, hist: map<SeqId, seq<Token>>, toks: seq<Token>, blocks: seq<Block>, i: nat) returns (x: SeqId)
    requires Sound(c, {}) && i < |blocks| && MatchesAt(c, toks, i, blocks[i]) && HoldersAgree(c, hist, toks, blocks)
    ensures x in c.seqs && i < |c.seqs[x].table| && c.seqs[x].table[i] == blocks[i] && HasPrefix(c, hist, x, i, toks, i)
  {
    hide Sound;
    x := SomeHolder(c, blocks[i]);
    var j :| 0 <= j < |c.seqs[x].table| && c.seqs[x].table[j] == blocks[i];
    assert HasPrefix(c, hist, x, j, toks, i);
  }

  /** Then the matched blocks hold exactly the contiguous cache of the matched tokens. */
  lemma MatchedContent(m: Model, c: Cache, hist: map<SeqId, seq<Token>>, toks: seq<Token>, blocks: seq<Block>)
    requires Sound(c, {}) && Faithful(m, c, hist) && HoldersAgree(c, hist, toks, blocks)
    requires |blocks| * c.blockSize <= |toks| && Matches(c, toks, 0, blocks) && InRange(c, blocks)
    ensures Gather(c.store, c.blockSize, blocks, |blocks| * c.blockSize) == Entries(m, toks[..|blocks| * c.blockSize])
  {
    var B, n := c.blockSize, |blocks| * c.blockSize;
    assert Readable(c.store, B, blocks);
    forall p | 0 <= p < n
      ensures Gather(c.store, B, blocks, n)[p] == Entries(m, toks[..n])[p]
    {
      MatchedEntry(m, c, hist, toks, blocks, p);
    }
  }

  lemma MatchedEntry(m: Model, c: Cache, hist: map<SeqId, seq<Token>>, toks: seq<Token>, blocks: seq<Block>, p: nat)
    requires Sound(c, {}) && Faithful(m, c, hist) && HoldersAgree(c, hist, toks, blocks)
    requires |blocks| * c.blockSize <= |toks| && Matches(c, toks, 0, blocks) && InRange(c, blocks)
    requires p < |blocks| * c.blockSize
    ensures InStore(c.store, PosOf(blocks, c.blockSize, p))
    ensures At(c.store, PosOf(blocks, c.blockSize, p)) == Entries(m, toks[..|blocks| * c.blockSize])[p]
  {
    var B, n := c.blockSize, |blocks| * c.blockSize;
    var i := p / B;
    DivMod(p, B);
    DivLess(p, B, |blocks|);
    assert MatchesAt(c, toks, 0 + i, blocks[i]);
    var x := MatchedHolder(c, hist, toks, blocks, i);
    hide HoldersAgree;
    var end := (i + 1) * B;
    assert p < end;
    HeldEntry(m, c, hist, x, i, p);
    MulMonotone(i + 1, |blocks|, B);
    EntriesPrefix(m, hist[x], end);
    EntriesPrefix(m, toks[..n], end);
    assert toks[..n][..end] == toks[..end];
    assert Entries(m, hist[x])[p] == Entries(m, hist[x])[..end][p];
    assert Entries(m, toks[..n])[p] == Entries(m, toks[..n])[..end][p];
  }

  /** What is stored for position p of a sequence. */
  lemma HeldEntry(m: Model, c: Cache, hist: map<SeqId, seq<Token>>, x: SeqId, j: nat, p: nat)
    requires Faithful(m, c, hist) && x in hist && c.blockSize >= 1 && p / c.blockSize == j && p < |hist[x]|
    ensures x in c.seqs && j < |c.seqs[x].table|
    ensures InStore(c.store, Pos(c.seqs[x].table[j], p % c.blockSize))
    ensures At(c.store, Pos(c.seqs[x].table[j], p % c.blockSize)) == Entries(m, hist[x])[p]
  {
    assert Holds(m, c.store, c.blockSize, c.seqs[x], hist[x]);
    DivLess(p, c.blockSize, |c.seqs[x].table|);
    assert Gather(c.store, c.blockSize, c.seqs[x].table, |hist[x]|)[p] == At(c.store, PosOf(c.seqs[x].table, c.blockSize, p));
  }

  /** Conversely, if no two entries are equal by accident, a match holds the right entries only then. */
  lemma ContentMeansAgreed(m: Model, c: Cache, hist: map<SeqId, seq<Token>>, toks: seq<Token>, blocks: seq<Block>)
    requires Sound(c, {}) && Faithful(m, c, hist) && InjectiveEntry(m) && c.blockSize >= 1
    requires |blocks| * c.blockSize <= |toks| && Matches(c, toks, 0, blocks) && InRange(c, blocks) && Readable(c.store, c.blockSize, blocks)
    requires Gather(c.store, c.blockSize, blocks, |blocks| * c.blockSize) == Entries(m, toks[..|blocks| * c.blockSize])
    ensures HoldersAgree(c, hist, toks, blocks)
  {
    hide InjectiveEntry, Gather, Sound, Faithful;
    forall x, j: nat, i: nat | i < |blocks| && x in c.seqs && j < |c.seqs[x].table| && c.seqs[x].table[j] == blocks[i]
      ensures HasPrefix(c, hist, x, j, toks, i)
    {
      assert MatchesAt(c, toks, 0 + i, blocks[i]);
      HolderAgrees(m, c, hist, toks, blocks, x, j, i);
    }
  }

  lemma HolderAgrees(m: Model, c: Cache, hist: map<SeqId, seq<Token>>, toks: seq<Token>, blocks: seq<Block>, x: SeqId, j: nat, i: nat)
    requires Faithful(m, c, hist) && InjectiveEntry(m) && c.blockSize >= 1
    requires |blocks| * c.blockSize <= |toks| && Readable(c.store, c.blockSize, blocks) && i < |blocks| && MatchesAt(c, toks, i, blocks[i])
    requires Gather(c.store, c.blockSize, blocks, |blocks| * c.blockSize) == Entries(m, toks[..|blocks| * c.blockSize])
    requires x in c.seqs && j < |c.seqs[x].table| && c.seqs[x].table[j] == blocks[i]
    ensures HasPrefix(c, hist, x, j, toks, i)
  {
    assert FiledAs(c.info, c.hash, c.blockSize, hist[x], j, blocks[i]);
    hide InjectiveEntry, Chain, Chunk;
    var B, n := c.blockSize, |blocks| * c.blockSize;
    var p, q := (i + 1) * B - 1, (j + 1) * B - 1;
    LastOfBlock(B, i);
    LastOfBlock(B, j);
    MulMonotone(i + 1, |blocks|, B);
    HeldEntry(m, c, hist, x, j, q);
    assert Gather(c.store, B, blocks, n)[p] == At(c.store, PosOf(blocks, B, p));
    EntryInjective(m, toks[..n], p, hist[x], q);
    SameBlock(B, i, j);
    assert toks[..n][..p + 1] == toks[..p + 1];
  }

  lemma LastOfBlock(B: nat, i: nat)
    requires B >= 1
    ensures (i + 1) * B >= 1 && ((i + 1) * B - 1) / B == i && ((i + 1) * B - 1) % B == B - 1
  {
    assert (i + 1) * B == i * B + B;
    DivUnique((i + 1) * B - 1, B, i);
  }

  lemma SameBlock(B: nat, i: nat, j: nat)
    requires B >= 1
    ensures (i + 1) * B - 1 == (j + 1) * B - 1 ==> i == j
  {
    LastOfBlock(B, i);
    LastOfBlock(B, j);
  }

  /** Exactly when a prefix match is right, whatever the hash: the reused blocks hold the contiguous
      cache of the matched tokens if and only if everybody who holds one has the whole prefix asked
      for, not just the block's own tokens. */
  lemma MatchIsRightIff(m: Model, c: Cache, hist: map<SeqId, seq<Token>>, toks: seq<Token>)
    requires Sound(c, {}) && Faithful(m, c, hist) && Wf(c)
    ensures var blocks := MatchPrefix(c, toks);
            && c.blockSize >= 1 && Readable(c.store, c.blockSize, blocks) && |blocks| * c.blockSize <= |toks|
            && (HoldersAgree(c, hist, toks, blocks) ==>
                  Gather(c.store, c.blockSize, blocks, |blocks| * c.blockSize) == Entries(m, toks[..|blocks| * c.blockSize]))
            && (InjectiveEntry(m) ==>
                  (Gather(c.store, c.blockSize, blocks, |blocks| * c.blockSize) == Entries(m, toks[..|blocks| * c.blockSize])
                   <==> HoldersAgree(c, hist, toks, blocks)))
  {
    var blocks := MatchPrefix(c, toks);
    MatchPrefixMatches(c, toks);
    assert Readable(c.store, c.blockSize, blocks);
    hide Sound, Faithful, InjectiveEntry, HoldersAgree, Gather, Matches, MatchPrefix, Readable;
    if HoldersAgree(c, hist, toks, blocks) { MatchedContent(m, c, hist, toks, blocks); }
    if InjectiveEntry(m) && Gather(c.store, c.blockSize, blocks, |blocks| * c.blockSize) == Entries(m, toks[..|blocks| * c.blockSize]) {
      ContentMeansAgreed(m, c, hist, toks, blocks);
    }
  }

  /** The prefixes filed and the one asked for do not collide: two with equal chains and equal last
      blocks are equal. Chains that collide over different last blocks do no harm: comparing the
      block's own tokens turns them into a miss. */
  ghost predicate NoCollision(c: Cache, hist: map<SeqId, seq<Token>>, toks: seq<Token>) {
    forall x, j: nat, i: nat | x in hist && FiledBlock(c, x, j) :: SamePrefixes(c, hist[x], j, toks, i)
  }

  /** Block j of a table is in the index. */
  ghost predicate FiledBlock(c: Cache, x: SeqId, j: nat) {
    x in c.seqs && j < |c.seqs[x].table| && c.seqs[x].table[j] in c.info
  }

  ghost predicate SamePrefixes(c: Cache, a: seq<Token>, j: nat, b: seq<Token>, i: nat) {
    && (j + 1) * c.blockSize <= |a| && (i + 1) * c.blockSize <= |b|
    && Chain(c.hash, c.blockSize, a, j + 1) == Chain(c.hash, c.blockSize, b, i + 1)
    && Chunk(a, c.blockSize, j) == Chunk(b, c.blockSize, i)
    ==> i == j && a[..(j + 1) * c.blockSize] == b[..(i + 1) * c.blockSize]
  }

  /** Without a collision every match is right. */
  lemma NoCollisionAgrees(m: Model, c: Cache, hist: map<SeqId, seq<Token>>, toks: seq<Token>)
    requires Wf(c) && Faithful(m, c, hist) && NoCollision(c, hist, toks)
    ensures HoldersAgree(c, hist, toks, MatchPrefix(c, toks))
  {
    hide Chain, Chunk, SamePrefixes, Wf;
    var blocks := MatchPrefix(c, toks);
    MatchPrefixMatches(c, toks);
    forall x, j: nat, i: nat | i < |blocks| && x in c.seqs && j < |c.seqs[x].table| && c.seqs[x].table[j] == blocks[i]
      ensures HasPrefix(c, hist, x, j, toks, i)
    {
      assert MatchesAt(c, toks, 0 + i, blocks[i]);
      assert FiledAs(c.info, c.hash, c.blockSize, hist[x], j, blocks[i]);
      assert FiledBlock(c, x, j) && SamePrefixes(c, hist[x], j, toks, i);
      SamePrefixesApplied(c, hist[x], j, toks, i, blocks[i]);
    }
  }

  lemma SamePrefixesApplied(c: Cache, a: seq<Token>, j: nat, b: seq<Token>, i: nat, block: Block)
    requires SamePrefixes(c, a, j, b, i) && FiledAs(c.info, c.hash, c.blockSize, a, j, block) && MatchesAt(c, b, i, block)
    ensures i == j && a[..(j + 1) * c.blockSize] == b[..(i + 1) * c.blockSize]
  {
    assert Chain(c.hash, c.blockSize, a, j + 1).Some? && Chain(c.hash, c.blockSize, b, i + 1).Some?;
  }

  /** An injective hash has no collision among any prefixes. */
  lemma InjectiveNoCollision(c: Cache, hist: map<SeqId, seq<Token>>, toks: seq<Token>)
    requires InjectiveHash(c.hash)
    ensures NoCollision(c, hist, toks)
  {
    hide InjectiveHash, Chain, FiledBlock, Chunk;
    forall x, j: nat, i: nat | x in hist && FiledBlock(c, x, j) ensures SamePrefixes(c, hist[x], j, toks, i) {
      if (j + 1) * c.blockSize <= |hist[x]| && (i + 1) * c.blockSize <= |toks|
         && Chain(c.hash, c.blockSize, hist[x], j + 1) == Chain(c.hash, c.blockSize, toks, i + 1) {
        ChainInjective(c.hash, c.blockSize, hist[x], j + 1, toks, i + 1);
      }
    }
  }

  lemma NothingMatched(c: Cache, hist: map<SeqId, seq<Token>>, toks: seq<Token>)
    requires Wf(c) && !c.prefixCaching
    ensures HoldersAgree(c, hist, toks, MatchPrefix(c, toks))
  {
  }

  lemma InjectiveAgrees(m: Model, c: Cache, hist: map<SeqId, seq<Token>>, toks: seq<Token>)
    requires Wf(c) && Faithful(m, c, hist) && InjectiveHash(c.hash)
    ensures HoldersAgree(c, hist, toks, MatchPrefix(c, toks))
  {
    hide Faithful, InjectiveHash, NoCollision, Wf;
    InjectiveNoCollision(c, hist, toks);
    NoCollisionAgrees(m, c, hist, toks);
  }

  /** Taking one more reference on a live block. */
  lemma AddRefSound(c: Cache, transit: set<Block>, b: Block)
    requires Sound(c, transit) && b < |c.refs| && b !in transit && c.refs[b] > 0
    ensures Sound(c.(refs := c.refs[b := c.refs[b] + 1]), transit + {b})
  {
    hide Holders, NoDup;
  }

  lemma {:induction false} AddRefsSound(c: Cache, blocks: seq<Block>)
    requires Sound(c, {}) && NoDup(blocks) && InRange(c, blocks) && (forall b | b in blocks :: b in c.info)
    ensures Sound(AddRefs(c, blocks), Elems(blocks))
    decreases |blocks|
  {
    if blocks == [] {
      assert Elems(blocks) == {};
    } else {
      var n := |blocks| - 1;
      var before := AddRefs(c, blocks[..n]);
      AddRefsSound(c, blocks[..n]);
      assert Elems(blocks) == Elems(blocks[..n]) + {blocks[n]};
      assert blocks[n] !in Elems(blocks[..n]);
      assert before.refs[blocks[n]] > 0;
      hide Wf, Counted, FreeExact, SharedIndexed, TablesDistinct;
      AddRefSound(before, Elems(blocks[..n]), blocks[n]);
    }
  }

  /** A sequence created over the matched blocks of a prompt has exactly that prefix cached, with
      at least one prompt token left to run. */
  lemma ReuseKeeps(m: Model, c: Cache, hist: map<SeqId, seq<Token>>, id: SeqId, toks: seq<Token>)
    requires Sound(c, {}) && Faithful(m, c, hist) && id !in c.seqs && Wf(c) && HoldersAgree(c, hist, toks, MatchPrefix(c, toks))
    ensures
      var blocks := MatchPrefix(c, toks);
      var after := CreateSequenceFromPrefix(c, id, blocks);
      && |blocks| * c.blockSize <= |toks|
      && (toks != [] ==> |blocks| * c.blockSize < |toks|)
      && Sound(after, {})
      && Faithful(m, after, hist[id := toks[..|blocks| * c.blockSize]])
  {
    var blocks := MatchPrefix(c, toks);
    MatchPrefixMatches(c, toks);
    assert forall k | 0 <= k < |blocks| :: MatchesAt(c, toks, 0 + k, blocks[k]);
    AgreedDistinct(c, hist, toks, blocks);
    MatchedContent(m, c, hist, toks, blocks);
    AddRefsSound(c, blocks);
    var shared := AddRefs(c, blocks);
    AttachSound(shared, id, blocks, |blocks| * c.blockSize);
    ReuseFaithful(m, c, hist, id, toks, blocks);
  }

  lemma ReuseFaithful(m: Model, c: Cache, hist: map<SeqId, seq<Token>>, id: SeqId, toks: seq<Token>, blocks: seq<Block>)
    requires Wf(c) && Faithful(m, c, hist) && id !in c.seqs && InRange(c, blocks)
    requires |blocks| * c.blockSize <= |toks| && Matches(c, toks, 0, blocks)
    requires Gather(c.store, c.blockSize, blocks, |blocks| * c.blockSize) == Entries(m, toks[..|blocks| * c.blockSize])
    ensures Faithful(m, CreateSequenceFromPrefix(c, id, blocks), hist[id := toks[..|blocks| * c.blockSize]])
  {
    hide AddRefs, Gather, Chain, Chunk;
    var n := |blocks| * c.blockSize;
    var after := CreateSequenceFromPrefix(c, id, blocks);
    var longer := hist[id := toks[..n]];
    forall x | x in hist ensures Holds(m, after.store, after.blockSize, after.seqs[x], hist[x]) {
      assert Holds(m, c.store, c.blockSize, c.seqs[x], hist[x]);
    }
    forall x, i | x in after.seqs && 0 <= i < |after.seqs[x].table| && after.seqs[x].table[i] in after.info
      ensures x in longer && FiledAs(after.info, after.hash, after.blockSize, longer[x], i, after.seqs[x].table[i])
    {
      if x == id {
        assert MatchesAt(c, toks, 0 + i, blocks[i]);
        MulMonotone(i + 1, |blocks|, c.blockSize);
        assert toks[..n][..(i + 1) * c.blockSize] == toks[..(i + 1) * c.blockSize];
        ChainExtends(c.hash, c.blockSize, toks[..n], toks, i + 1);
      } else {
        assert FiledAs(c.info, c.hash, c.blockSize, hist[x], i, c.seqs[x].table[i]);
      }
    }
  }

  /** Filing a fully prefilled prompt keeps the index exact: blocks already filed stay as they
      are, and each new one is filed under its own prefix. */
  lemma {:induction false} RegisterFromKeeps(m: Model, c: Cache, hist: map<SeqId, seq<Token>>, id: SeqId, i: nat, n: nat)
    requires Sound(c, {}) && Faithful(m, c, hist) && id in hist
    requires i <= n <= |c.seqs[id].table| && n * c.blockSize <= |hist[id]| && i * c.blockSize <= |hist[id]|
    ensures
      var after := RegisterFrom(c, c.seqs[id].table, hist[id], i, n, Chain(c.hash, c.blockSize, hist[id], i));
      && Sound(after, {}) && Faithful(m, after, hist)
      && (forall b | b in after.info && b !in c.info :: b in c.seqs[id].table[..n])
    decreases n - i
  {
    hide Wf, Counted, FreeExact, SharedIndexed, TablesDistinct, Filed, Holds, Chunk;
    if i < n {
      MulMonotone(i + 1, n, c.blockSize);
      var table, toks := c.seqs[id].table, hist[id];
      var chunk := Chunk(toks, c.blockSize, i);
      var h := c.hash(Chain(c.hash, c.blockSize, toks, i), chunk);
      assert Chain(c.hash, c.blockSize, toks, i + 1) == Some(h);
      if table[i] in c.info {
        RegisterFromKeeps(m, c, hist, id, i + 1, n);
      } else {
        var next := c.(index := c.index[h := table[i]], info := c.info[table[i] := BlockInfo(h, chunk)]);
        RegisterOneKeeps(m, c, hist, id, i);
        RegisterFromKeeps(m, next, hist, id, i + 1, n);
      }
    }
  }

  lemma RegisterOneKeeps(m: Model, c: Cache, hist: map<SeqId, seq<Token>>, id: SeqId, i: nat)
    requires Sound(c, {}) && Faithful(m, c, hist) && id in hist
    requires i < |c.seqs[id].table| && (i + 1) * c.blockSize <= |hist[id]| && c.seqs[id].table[i] !in c.info
    ensures
      var b, h := c.seqs[id].table[i], Chain(c.hash, c.blockSize, hist[id], i + 1).value;
      var after := c.(index := c.index[h := b], info := c.info[b := BlockInfo(h, Chunk(hist[id], c.blockSize, i))]);
      Sound(after, {}) && Faithful(m, after, hist)
  {
    var b, h := c.seqs[id].table[i], Chain(c.hash, c.blockSize, hist[id], i + 1).value;
    var after := c.(index := c.index[h := b], info := c.info[b := BlockInfo(h, Chunk(hist[id], c.blockSize, i))]);
    assert Wf(after);
    RegisterOneSound(c, after, id, b);
    assert Holders(c.seqs, b) == {id} && NoDup(c.seqs[id].table);
    assert forall x | x in c.seqs && b in c.seqs[x].table :: x in Holders(c.seqs, b);
    RegisterOneFiled(c, hist, id, i, after.info);
  }

  lemma RegisterOneFiled(c: Cache, hist: map<SeqId, seq<Token>>, id: SeqId, i: nat, info: map<Block, BlockInfo>)
    requires Filed(c.info, c.seqs, c.hash, c.blockSize, hist) && id in hist && id in c.seqs
    requires i < |c.seqs[id].table| && (i + 1) * c.blockSize <= |hist[id]| && c.seqs[id].table[i] !in c.info
    requires NoDup(c.seqs[id].table)
    requires forall x | x in c.seqs && c.seqs[id].table[i] in c.seqs[x].table :: x == id
    requires info == c.info[c.seqs[id].table[i] :=
      BlockInfo(Chain(c.hash, c.blockSize, hist[id], i + 1).value, Chunk(hist[id], c.blockSize, i))]
    ensures Filed(info, c.seqs, c.hash, c.blockSize, hist)
  {
    hide Chain, Chunk;
    var b := c.seqs[id].table[i];
    forall x, k | x in c.seqs && 0 <= k < |c.seqs[x].table| && c.seqs[x].table[k] in info
      ensures x in hist && FiledAs(info, c.hash, c.blockSize, hist[x], k, c.seqs[x].table[k])
    {
      if c.seqs[x].table[k] == b {
        assert x == id && k == i;
      } else {
        assert FiledAs(c.info, c.hash, c.blockSize, hist[x], k, c.seqs[x].table[k]);
      }
    }
  }

  lemma RegisterOneSound(c: Cache, after: Cache, id: SeqId, b: Block)
    requires Sound(c, {}) && Wf(after) && id in c.seqs && b in c.seqs[id].table && b < |c.refs|
    requires after == c.(index := after.index, info := after.info)
    requires after.info.Keys == c.info.Keys + {b}
    ensures Sound(after, {})
  {
    hide Wf, NoDup;
    forall x ensures Holders(after.seqs, x) == Holders(c.seqs, x) {
    }
    assert id in Holders(c.seqs, b);
    assert |Holders(c.seqs, b)| > 0;
    hide Holders;
  }

  /** Registration files a prompt's whole blocks, and no block that is still written to. */
  lemma RegisterKeeps(m: Model, c: Cache, hist: map<SeqId, seq<Token>>, id: SeqId)
    requires Sound(c, {}) && Faithful(m, c, hist) && id in hist
    requires PrivateFrom(c.info, c.seqs[id].table, |hist[id]| / c.blockSize)
    ensures |hist[id]| / c.blockSize <= |c.seqs[id].table|
    ensures
      var after := RegisterPrefixBlocks(c, id, hist[id]);
      && Sound(after, {}) && Faithful(m, after, hist)
      && PrivateFrom(after.info, after.seqs[id].table, |hist[id]| / c.blockSize)
      && (forall x, k | x in c.seqs && x != id && PrivateFrom(c.info, c.seqs[x].table, k) :: PrivateFrom(after.info, after.seqs[x].table, k))
  {
    var n, table := |hist[id]| / c.blockSize, c.seqs[id].table;
    assert NoDup(table) && |hist[id]| == c.seqs[id].len <= |table| * c.blockSize;
    assert forall x, b | x in c.seqs && b in c.seqs[x].table && b !in c.info :: Holders(c.seqs, b) == {x};
    hide Wf, Counted, FreeExact, SharedIndexed, TablesDistinct, Filed, Holds, RegisterFrom;
    DivMod(|hist[id]|, c.blockSize);
    DivMonotone(|hist[id]|, |table| * c.blockSize, c.blockSize);
    DivUnique(|table| * c.blockSize, c.blockSize, |table|);
    if c.prefixCaching {
      RegisterFromKeeps(m, c, hist, id, 0, n);
      OthersUnfiled(c, RegisterPrefixBlocks(c, id, hist[id]).info, id);
    }
  }

  /** Filing blocks of one sequence files none that only another may write. */
  lemma OthersUnfiled(c: Cache, info: map<Block, BlockInfo>, id: SeqId)
    requires id in c.seqs && forall b | b in info && b !in c.info :: b in c.seqs[id].table
    requires forall x, b | x in c.seqs && b in c.seqs[x].table && b !in c.info :: Holders(c.seqs, b) == {x}
    ensures forall x, b | x in c.seqs && x != id && b in c.seqs[x].table && b !in c.info :: b !in info
  {
    forall x, b | x in c.seqs && x != id && b in c.seqs[x].table && b !in c.info ensures b !in info {
      assert Holders(c.seqs, b) == {x};
      assert b in c.seqs[id].table ==> id in Holders(c.seqs, b);
    }
  }

  /** A block that is filed under the chain of the block asked for, with the same tokens, is matched,
      whatever came before it: and if that differs, the match is wrong. */
  lemma CollisionMatchesWrongBlock(m: Model, c: Cache, hist: map<SeqId, seq<Token>>, x: SeqId, j: nat, toks: seq<Token>, i: nat)
    requires Sound(c, {}) && Faithful(m, c, hist) && Wf(c) && c.prefixCaching && x in hist && FiledBlock(c, x, j)
    requires (j + 1) * c.blockSize <= |hist[x]| && (i + 1) * c.blockSize <= |toks|
    requires i < MatchableBlocks(c.blockSize, |toks|) && i <= |MatchPrefix(c, toks)|
    requires Chain(c.hash, c.blockSize, hist[x], j + 1) == Chain(c.hash, c.blockSize, toks, i + 1)
    requires Chunk(hist[x], c.blockSize, j) == Chunk(toks, c.blockSize, i)
    requires Some(c.seqs[x].table[j]) == Leads(c, toks, i)
    ensures i < |MatchPrefix(c, toks)| && MatchPrefix(c, toks)[i] == c.seqs[x].table[j]
    ensures var blocks := MatchPrefix(c, toks);
            && c.blockSize >= 1 && Readable(c.store, c.blockSize, blocks) && |blocks| * c.blockSize <= |toks|
            && (InjectiveEntry(m) && !HasPrefix(c, hist, x, j, toks, i) ==>
                  Gather(c.store, c.blockSize, blocks, |blocks| * c.blockSize) != Entries(m, toks[..|blocks| * c.blockSize]))
  {
    hide Sound, Wf, InjectiveEntry, Gather, Chunk, HasPrefix;
    var n := MatchableBlocks(c.blockSize, |toks|);
    assert FiledAs(c.info, c.hash, c.blockSize, hist[x], j, c.seqs[x].table[j]);
    hide Faithful;
    MatchGoesOn(c, toks, 0, n, i);
    MatchIsRightIff(m, c, hist, toks);
  }

  /** The block the index gives for block i of a prompt. */
  function Leads(c: Cache, toks: seq<Token>, i: nat): Option<Block>
    requires (i + 1) * c.blockSize <= |toks|
  {
    var h := Chain(c.hash, c.blockSize, toks, i + 1).value;
    if h in c.index then Some(c.index[h]) else None
  }

  /** A match that got to block i goes on over it if the index leads to a block with its tokens. */
  lemma {:induction false} MatchGoesOn(c: Cache, toks: seq<Token>, from: nat, n: nat, i: nat)
    requires Wf(c) && from <= i < n && n * c.blockSize <= |toks| && from * c.blockSize <= |toks| && (i + 1) * c.blockSize <= |toks|
    requires i - from <= |MatchFrom(c, toks, from, n, Chain(c.hash, c.blockSize, toks, from))|
    requires Leads(c, toks, i).Some? && Leads(c, toks, i).value in c.info
    requires c.info[Leads(c, toks, i).value].chunk == Chunk(toks, c.blockSize, i)
    ensures var r := MatchFrom(c, toks, from, n, Chain(c.hash, c.blockSize, toks, from));
            i - from < |r| && r[i - from] == Leads(c, toks, i).value
    decreases i - from
  {
    hide Wf, Chunk;
    MulMonotone(from + 1, n, c.blockSize);
    var h := c.hash(Chain(c.hash, c.blockSize, toks, from), Chunk(toks, c.blockSize, from));
    assert Chain(c.hash, c.blockSize, toks, from + 1) == Some(h);
    if from < i { MatchGoesOn(c, toks, from + 1, n, i); }
  }

  /** For instance with every hash the same and one token to a block: one cached block is offered for
      two positions of a prompt that repeats its token. */
  lemma ConstantHashMatchesWrongBlock(m: Model, c: Cache, t: Token, u: Token)
    requires Wf(c) && c.prefixCaching && c.blockSize == 1 && forall p, chunk :: c.hash(p, chunk) == 0
    requires c.index == map[0 := 0] && c.info == map[0 := BlockInfo(0, [t])]
    requires c.seqs == map[1 := SeqState([0], 1)] && Holds(m, c.store, 1, c.seqs[1], [t])
    ensures MatchPrefix(c, [t, t, u]) == [0, 0]
    ensures Gather(c.store, 1, [0, 0], 2) == Entries(m, [t, t]) <==> m.entry([m.entry([], t)], t) == m.entry([], t)
  {
    var toks := [t, t, u];
    assert Chunk(toks, 1, 0) == [t] && Chunk(toks, 1, 1) == [t];
    assert MatchFrom(c, toks, 2, 2, Some(0)) == [];
    assert MatchFrom(c, toks, 1, 2, Some(0)) == [0];
    assert MatchFrom(c, toks, 0, 2, None) == [0] + MatchFrom(c, toks, 1, 2, Some(0));
    var e := m.entry([], t);
    assert [t][1..] == [];
    assert Entries(m, [t]) == [e];
    EntriesOne(m, [t], t);
    assert [t] + [t] == [t, t];
    assert Gather(c.store, 1, [0], 1)[0] == c.store[0][0];
    assert Gather(c.store, 1, [0, 0], 2) == [c.store[0][0], c.store[0][0]];
  }
}
