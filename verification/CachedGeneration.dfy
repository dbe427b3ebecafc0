/** Generation with the cache returns what generation without it does, and a scratch prefill leaves
    nothing behind. */
module CachedGeneration {
  import opened LanguageModel
  import opened Options
  import opened Positions
  import opened PagedKvCache
  import opened CacheInvariant
  import opened CacheOperations
  import opened PrefixReuse
  import opened PrefixIndex
  import opened ModelRunner
  import opened BatchedDecode
  import opened KvCacheManagers
  import opened ForwardPasses

  // ---- one sequence, start to finish ----

  /** After i tokens: all but the last are cached, in a table with no spare block. */
  ghost predicate Generating(m: Model, c: Cache, hist: map<SeqId, seq<Token>>, id: SeqId, prompt: seq<Token>, i: nat, total: nat) {
    && prompt != [] && i >= 1 && c.blockSize >= 1 && id in c.seqs
    && Sound(c, {}) && Faithful(m, c, hist[id := prompt + Greedy(m, prompt, i - 1)])
    && PrivateFrom(c.info, c.seqs[id].table, 0)
    && c.seqs[id].len == |prompt| + i - 1 && |c.seqs[id].table| == BlocksFor(c.blockSize, |prompt| + i - 1)
    && |c.free| + |c.seqs[id].table| == total
  }

  lemma GenerateFirst(m: Model, c: Cache, hist: map<SeqId, seq<Token>>, id: SeqId, prompt: seq<Token>)
    requires Sound(c, {}) && Faithful(m, c, hist) && id !in c.seqs && prompt != []
    ensures c.blockSize >= 1 && Wf(c) && id in CreateSequence(c, id).seqs
    ensures var (after, p) := ContinuePrefill(m, CreateSequence(c, id), id, prompt);
            && (p.Some? <==> BlocksFor(c.blockSize, |prompt|) <= |c.free|)
            && (p.Some? ==> |p.value| == |prompt| && [p.value[|prompt| - 1]] == Greedy(m, prompt, 1)
                            && Generating(m, after, hist, id, prompt, 1, |c.free|) && after.blockSize == c.blockSize)
  {
    hide Counted, FreeExact, SharedIndexed, TablesDistinct, Faithful, BlocksFor, ContinuePrefill, Next, Wf;
    CacheSize(c);
    CreateSequenceKeeps(m, c, hist, id);
    var created, start := CreateSequence(c, id), hist[id := []];
    ContinuePrefillKeeps(m, created, start, id, prompt);
    var (after, p) := ContinuePrefill(m, created, id, prompt);
    PassedLen(m, created, start, id, prompt, (after, p));
    if p.Some? {
      PromptDone(m, created, hist, id, prompt, (after, p));
    }
  }

  /** After the prompt's pass, generation stands at its first token. */
  lemma PromptDone(m: Model, created: Cache, hist: map<SeqId, seq<Token>>, id: SeqId, prompt: seq<Token>, r: (Cache, Option<seq<Token>>))
    requires Passed(m, created, hist[id := []], id, prompt, r) && r.1.Some? && prompt != []
    requires id in r.0.seqs && r.0.seqs[id].len == |prompt| && r.0.blockSize == created.blockSize >= 1
    requires created.seqs[id] == SeqState([], 0)
    ensures |r.1.value| == |prompt| && [r.1.value[|prompt| - 1]] == Greedy(m, prompt, 1)
    ensures Generating(m, r.0, hist, id, prompt, 1, |created.free|)
  {
    hide Sound, Faithful, BlocksFor, Next;
    var start := hist[id := []];
    assert [] + prompt == prompt && prompt[..|prompt|] == prompt;
    assert r.1.value[|prompt| - 1] == Next(m, [] + prompt[..|prompt| - 1 + 1]);
    assert prompt + Greedy(m, prompt, 0) == prompt;
    assert start[id := prompt] == hist[id := prompt];
    OneGreedy(m, prompt, r.1.value[|prompt| - 1]);
    NeedsBlocks(created.blockSize, |prompt|);
  }

  lemma NeedsBlocks(B: nat, n: nat)
    requires B >= 1 && n >= 1
    ensures BlocksFor(B, n) >= 1
  {
    BlocksForMonotone(B, 1, n);
    BlocksForNext(B, 0);
  }

  lemma OneGreedy(m: Model, prompt: seq<Token>, t: Token)
    requires prompt != [] && t == Next(m, prompt)
    ensures Greedy(m, prompt, 1) == [t]
  {
    hide Next;
    assert Greedy(m, prompt, 0) == [] && prompt + [] == prompt;
  }

  lemma CacheSize(c: Cache)
    requires Sound(c, {})
    ensures c.blockSize >= 1 && Wf(c)
  {
  }

  lemma PassedLen(m: Model, c: Cache, hist: map<SeqId, seq<Token>>, id: SeqId, chunk: seq<Token>, p: (Cache, Option<seq<Token>>))
    requires Passed(m, c, hist, id, chunk, p)
    ensures p.1.Some? ==> id in p.0.seqs && p.0.seqs[id].len == |hist[id]| + |chunk|
  {
    hide Sound;
  }

  /** One decode step: the next greedy token, or no block for it. */
  lemma GenerateNext(m: Model, c: Cache, hist: map<SeqId, seq<Token>>, id: SeqId, prompt: seq<Token>, i: nat, total: nat)
    requires Generating(m, c, hist, id, prompt, i, total)
    ensures Wf(c)
    ensures var (after, p) := DecodeBatch(m, c, [id], [Greedy(m, prompt, i)[i - 1]]);
            && (p.None? ==> total < BlocksFor(c.blockSize, |prompt| + i))
            && (p.Some? ==> Greedy(m, prompt, i + 1) == Greedy(m, prompt, i) + [p.value[0]]
                            && Generating(m, after, hist, id, prompt, i + 1, total) && after.blockSize == c.blockSize)
  {
    hide Counted, FreeExact, SharedIndexed, TablesDistinct, Faithful, BlocksFor, DecodeBatch, Next, Wf, Greedy;
    CacheSize(c);
    var cached, t := prompt + Greedy(m, prompt, i - 1), Greedy(m, prompt, i)[i - 1];
    var h := hist[id := cached];
    LastGreedy(m, prompt, i);
    DivMod(|cached|, c.blockSize);
    PrivateLater(c.info, c.seqs[id].table, 0, |cached| / c.blockSize);
    var k := DecodeBatchKeeps(m, c, h, [id], [t]);
    var (after, p) := DecodeBatch(m, c, [id], [t]);
    DecodeOneFree(m, c, h, id, t);
    if p.Some? {
      assert [id][0] == id && [t][0] == t;
      ExtendOne(h, id, t);
      assert h[id := cached + [t]] == hist[id := prompt + Greedy(m, prompt, i)];
      BlocksForMonotone(c.blockSize, |cached|, |cached| + 1);
      assert RowReserved(c, after, [id][0]);
    } else {
      assert [id][..0] == [];
    }
  }

  /** The token after i is predicted from the prompt and all i before it. */
  lemma LastGreedy(m: Model, prompt: seq<Token>, i: nat)
    requires prompt != [] && i >= 1
    ensures prompt + Greedy(m, prompt, i - 1) + [Greedy(m, prompt, i)[i - 1]] == prompt + Greedy(m, prompt, i)
    ensures Greedy(m, prompt, i + 1) == Greedy(m, prompt, i) + [Next(m, prompt + Greedy(m, prompt, i))]
  {
    hide Next;
    GreedyPrefix(m, prompt, i - 1, i);
  }

  lemma ExtendOne(hist: map<SeqId, seq<Token>>, id: SeqId, t: Token)
    requires id in hist
    ensures ExtendAll(hist, [id], [t]) == hist[id := hist[id] + [t]]
  {
    assert [id][..0] == [] && [t][..0] == [];
    assert ExtendAll(hist, [], []) == hist;
  }

  lemma DecodeOneFree(m: Model, c: Cache, hist: map<SeqId, seq<Token>>, id: SeqId, t: Token)
    requires Sound(c, {}) && Faithful(m, c, hist) && id in c.seqs && Wf(c)
    ensures var after := DecodeBatch(m, c, [id], [t]).0;
            id in after.seqs && |after.free| + |after.seqs[id].table| == |c.free| + |c.seqs[id].table|
  {
    hide Counted, FreeExact, SharedIndexed, TablesDistinct, Faithful, Wf, RowSlots, RowEntries, Reserve, BlocksFor, PrivacyKept;
    ReserveKeeps(m, c, hist, id, 1);
    assert [id][..0] == [];
    assert ReserveAll(c, []) == (c, true);
    assert ReserveAll(c, [id]) == Reserve(c, id, 1);
  }

  /** `generate_with_kv_cache`: the prompt and the same greedy tokens the cache-free generator
      appends (one at least), or out of memory exactly when the blocks do not suffice. */
  method GenerateWithKvCache(m: Model, cache: KvCacheManager, id: SeqId, prompt: seq<Token>, maxNewTokens: nat,
                             ghost hist: map<SeqId, seq<Token>>) returns (tokens: Option<seq<Token>>)
    requires cache.Valid() && Sound(cache.View(), {}) && Faithful(m, cache.View(), hist)
    requires id !in cache.sequences && prompt != []
    modifies cache, cache.allocator, cache.kv
    ensures cache.blockSize >= 1
    ensures var n := if maxNewTokens >= 1 then maxNewTokens else 1;
            && (tokens.Some? ==> tokens.value == prompt + Greedy(m, prompt, n))
            && (tokens.Some? <==> BlocksFor(cache.blockSize, |prompt| + n - 1) <= |old(cache.View()).free|)
  {
    hide Wf, Sound, Faithful, Greedy, BlocksFor, ContinuePrefill, DecodeBatch, Next, Generating;
    ghost var c := cache.View();
    GenerateFirst(m, c, hist, id, prompt);
    cache.CreateSequence(id);
    var logits := RunContinuePrefill(m, cache, id, prompt);
    ghost var n := if maxNewTokens >= 1 then maxNewTokens else 1;
    if logits.None? {
      BlocksForMonotone(cache.blockSize, |prompt|, |prompt| + n - 1);
      return None;
    }
    var next := logits.value[|prompt| - 1];
    var out := [next];
    var i := 1;
    while i < maxNewTokens
      invariant 1 <= i <= n && cache.Valid() && out == Greedy(m, prompt, i) && next == out[i - 1]
      invariant Generating(m, cache.View(), hist, id, prompt, i, |c.free|)
      invariant BlocksFor(cache.blockSize, |prompt| + i - 1) <= |c.free|
    {
      InCache(m, cache.View(), hist, id, prompt, i, |c.free|);
      GenerateNext(m, cache.View(), hist, id, prompt, i, |c.free|);
      logits := RunDecodeStepBatch(m, cache, [id], [next]);
      if logits.None? {
        BlocksForMonotone(cache.blockSize, |prompt| + i, |prompt| + n - 1);
        return None;
      }
      next := logits.value[0];
      out := out + [next];
      i := i + 1;
      TableFits(m, cache.View(), hist, id, prompt, i, |c.free|);
    }
    return Some(prompt + out);
  }

  lemma InCache(m: Model, c: Cache, hist: map<SeqId, seq<Token>>, id: SeqId, prompt: seq<Token>, i: nat, total: nat)
    requires Generating(m, c, hist, id, prompt, i, total)
    ensures id in c.seqs && NoDup([id])
  {
  }

  lemma TableFits(m: Model, c: Cache, hist: map<SeqId, seq<Token>>, id: SeqId, prompt: seq<Token>, i: nat, total: nat)
    requires Generating(m, c, hist, id, prompt, i, total)
    ensures c.blockSize >= 1 && BlocksFor(c.blockSize, |prompt| + i - 1) <= total
  {
  }

  // ---- a scratch prefill, freed at once ----

  /** Filing adds at most the blocks of the table, and changes no entry already there. */
  lemma {:induction false} RegisterAdds(c: Cache, table: seq<Block>, toks: seq<Token>, i: nat, n: nat, parent: Option<Hash>)
    requires Wf(c) && InRange(c, table) && i <= n <= |table| && n * c.blockSize <= |toks|
    ensures var r := RegisterFrom(c, table, toks, i, n, parent);
            && (forall b | b in r.info && b !in c.info :: b in table)
            && (forall b | b in c.info :: b in r.info && r.info[b] == c.info[b])
    decreases n - i
  {
    hide Wf;
    if i < n {
      MulMonotone(i + 1, n, c.blockSize);
      var chunk := Chunk(toks, c.blockSize, i);
      var h := c.hash(parent, chunk);
      RegisterAdds(FileBlock(c, table[i], h, chunk), table, toks, i + 1, n, Some(h));
    }
  }

  lemma SharedIsIndexed(c: Cache, b: Block, x: SeqId, y: SeqId)
    requires SharedIndexed(c.info, c.refs, c.seqs) && x in c.seqs && y in c.seqs && x != y
    requires b in c.seqs[x].table && b in c.seqs[y].table
    ensures b in c.info
  {
    assert b !in c.info ==> Holders(c.seqs, b) == {x};
    assert y in Holders(c.seqs, b);
  }

  /** What is filed of a prompt that only one sequence holds is gone when that sequence is freed. */
  lemma FreedLeavesIndex(c: Cache, filed: Cache, freed: Cache, id: SeqId)
    requires Sound(c, {}) && id in c.seqs && Sound(freed, {})
    requires filed == c.(info := filed.info, index := filed.index) && freed.seqs == c.seqs - {id}
    requires |freed.refs| == |c.refs| && freed.info.Items <= filed.info.Items
    requires forall b | b in filed.info && b !in c.info :: b in c.seqs[id].table
    requires forall b | b in c.info :: b in filed.info && filed.info[b] == c.info[b]
    ensures freed.info.Items <= c.info.Items
  {
    hide TablesDistinct, FreeExact;
    forall b | b in freed.info ensures b in c.info && freed.info[b] == c.info[b] {
      assert (b, freed.info[b]) in freed.info.Items;
      assert freed.refs[b] > 0 && |Holders(freed.seqs, b)| > 0;
      var y := Member(Holders(freed.seqs, b));
      if b in c.seqs[id].table { SharedIsIndexed(c, b, y, id); }
    }
  }

  /** A beam's prefill under a scratch id, freed at once: its prediction is the full pass's, and the
      cache is as it was for everybody else. Nothing it filed can be matched later: an entry that
      only the scratch sequence held leaves the index with it. It can even lose what was there: the
      hashes of the blocks it ran itself are gone from the index, whatever they led to before. */
  lemma ScratchPrefill(m: Model, c: Cache, hist: map<SeqId, seq<Token>>, id: SeqId, prompt: seq<Token>)
    requires Sound(c, {}) && Faithful(m, c, hist) && id !in c.seqs && prompt != [] && Wf(c)
    requires HoldersAgree(c, hist, prompt, MatchPrefix(c, prompt))
    ensures var (after, p) := PrefillWithPrefixReuse(m, c, id, prompt);
            p.Some? ==>
              var freed := FreeSequence(after, id);
              && p.value != [] && p.value[|p.value| - 1] == Next(m, prompt)
              && Sound(freed, {}) && Faithful(m, freed, hist)
              && freed.seqs == c.seqs && freed.info.Items <= c.info.Items
              && (c.prefixCaching ==> forall h :: HashKept(c, freed, prompt, h))
  {
    hide HashKept, MatchPrefix;
    hide Counted, FreeExact, SharedIndexed, TablesDistinct, Faithful, HoldersAgree, Wf, ContinuePrefill, CreateForPrompt, FreeSequence;
    hide RegisterPrefixBlocks, BlocksFor, Next, Passed;
    PrefillKeeps(m, c, hist, id, prompt);
    var (after, p) := PrefillWithPrefixReuse(m, c, id, prompt);
    if p.Some? {
      FreeSequenceKeeps(m, after, hist[id := prompt], id);
      var freed := FreeSequence(after, id);
      NotYet(m, c, hist, id);
      assert hist[id := prompt] - {id} == hist;
      assert after.seqs - {id} == c.seqs;
      ScratchIndex(m, c, hist, id, prompt, freed);
      if c.prefixCaching { ScratchHashes(m, c, hist, id, prompt); }
    }
  }

  /** h is the hash of a whole block of the prompt that was not matched. */
  ghost predicate Unmatched(c: Cache, prompt: seq<Token>, h: Hash)
    requires Wf(c)
  {
    exists j: nat :: |MatchPrefix(c, prompt)| <= j && HasHash(c, prompt, j, h)
  }

  ghost predicate HasHash(c: Cache, prompt: seq<Token>, j: nat, h: Hash) {
    (j + 1) * c.blockSize <= |prompt| && h == BlockHash(c, prompt, j)
  }

  /** A hash is still indexed exactly if it was and is not one of those, and leads where it led. */
  ghost predicate HashKept(c: Cache, freed: Cache, prompt: seq<Token>, h: Hash)
    requires Wf(c)
  {
    && (h in freed.index <==> h in c.index && !Unmatched(c, prompt, h))
    && (h in freed.index && h in c.index ==> freed.index[h] == c.index[h])
  }

  lemma ScratchHashes(m: Model, c: Cache, hist: map<SeqId, seq<Token>>, id: SeqId, prompt: seq<Token>)
    requires Sound(c, {}) && Faithful(m, c, hist) && id !in c.seqs && prompt != [] && c.prefixCaching
    requires Wf(c) && HoldersAgree(c, hist, prompt, MatchPrefix(c, prompt)) && PrefillWithPrefixReuse(m, c, id, prompt).1.Some?
    ensures forall h :: HashKept(c, FreeSequence(PrefillWithPrefixReuse(m, c, id, prompt).0, id), prompt, h)
  {
    hide Faithful, HoldersAgree, Wf, ContinuePrefill, CreateForPrompt, RegisterFrom, FiledPrompt, PrefillWithPrefixReuse;
    hide FreeSequence, NoDup, Sound, Named, IndexLeft, HashKept, MatchPrefix, BeforeFiling;
    var created := CreateForPrompt(c, id, prompt);
    var mid := ContinuePrefill(m, created, id, prompt[created.seqs[id].len..]).0;
    PromptRun(m, c, hist, id, prompt);
    ScratchFiled(m, c, hist, id, prompt);
    PrefillKeeps(m, c, hist, id, prompt);
    FiledHashes(c, mid, id, prompt);
  }

  /** A prompt that has just been run, before it is filed: matched blocks first, then new ones. */
  ghost predicate BeforeFiling(c: Cache, mid: Cache, id: SeqId, prompt: seq<Token>) {
    && Wf(c) && Wf(mid) && Sound(c, {}) && Sound(mid, {}) && id !in c.seqs && id in mid.seqs && mid.prefixCaching
    && mid.blockSize == c.blockSize >= 1 && mid.hash == c.hash && mid.info == c.info && mid.index == c.index
    && mid.seqs == c.seqs[id := mid.seqs[id]]
    && MatchPrefix(c, prompt) <= mid.seqs[id].table && |prompt| / c.blockSize <= |mid.seqs[id].table|
    && (forall b | b in MatchPrefix(c, prompt) :: b in c.info)
    && (forall i | |MatchPrefix(c, prompt)| <= i < |mid.seqs[id].table| :: mid.seqs[id].table[i] !in c.info)
  }

  function FiledPrompt(mid: Cache, id: SeqId, prompt: seq<Token>): Cache
    requires Wf(mid) && id in mid.seqs && 0 <= |prompt| / mid.blockSize <= |mid.seqs[id].table|
  {
    RegisterPrefixBlocks(mid, id, prompt)
  }

  lemma PromptRun(m: Model, c: Cache, hist: map<SeqId, seq<Token>>, id: SeqId, prompt: seq<Token>)
    requires Sound(c, {}) && Faithful(m, c, hist) && id !in c.seqs && prompt != [] && c.prefixCaching
    requires Wf(c) && HoldersAgree(c, hist, prompt, MatchPrefix(c, prompt)) && PrefillWithPrefixReuse(m, c, id, prompt).1.Some?
    ensures var created := CreateForPrompt(c, id, prompt);
            BeforeFiling(c, ContinuePrefill(m, created, id, prompt[created.seqs[id].len..]).0, id, prompt)
  {
    hide Counted, FreeExact, SharedIndexed, TablesDistinct, Faithful, HoldersAgree, Wf, ContinuePrefill, RegisterFrom, Sound;
    hide BlocksFor, PredictsNext, PrivacyKept, FreeSequence, NoDup, MatchPrefix;
    CreateForPromptKeeps(m, c, hist, id, prompt);
    CreatedTable(c, id, prompt);
    hide CreateForPrompt;
    var created := CreateForPrompt(c, id, prompt);
    var start, rest := hist[id := prompt[..created.seqs[id].len]], prompt[created.seqs[id].len..];
    ContinuePrefillKeeps(m, created, start, id, rest);
    PassTable(m, created, id, rest);
    var mid := ContinuePrefill(m, created, id, rest).0;
    SequenceBounds(mid, id);
    WholeBlocksFit(|prompt|, mid.blockSize, |mid.seqs[id].table|);
  }

  lemma PassTable(m: Model, c: Cache, id: SeqId, chunk: seq<Token>)
    requires Wf(c) && id in c.seqs
    ensures c.seqs[id].table <= ContinuePrefill(m, c, id, chunk).0.seqs[id].table
  {
    hide Wf;
  }

  lemma ScratchFiled(m: Model, c: Cache, hist: map<SeqId, seq<Token>>, id: SeqId, prompt: seq<Token>)
    requires Wf(c) && PrefillWithPrefixReuse(m, c, id, prompt).1.Some?
    requires var created := CreateForPrompt(c, id, prompt);
             BeforeFiling(c, ContinuePrefill(m, created, id, prompt[created.seqs[id].len..]).0, id, prompt)
    ensures var created := CreateForPrompt(c, id, prompt);
            var mid := ContinuePrefill(m, created, id, prompt[created.seqs[id].len..]).0;
            && Wf(mid) && id in mid.seqs && 0 <= |prompt| / mid.blockSize <= |mid.seqs[id].table|
            && PrefillWithPrefixReuse(m, c, id, prompt).0 == FiledPrompt(mid, id, prompt)
  {
    hide Wf, Sound, MatchPrefix, ContinuePrefill, CreateForPrompt, RegisterPrefixBlocks;
  }

  lemma FiledHashes(c: Cache, mid: Cache, id: SeqId, prompt: seq<Token>)
    requires BeforeFiling(c, mid, id, prompt)
    requires Wf(mid) && 0 <= |prompt| / mid.blockSize <= |mid.seqs[id].table| && Sound(FiledPrompt(mid, id, prompt), {})
    ensures Wf(mid) && id in mid.seqs && 0 <= |prompt| / mid.blockSize <= |mid.seqs[id].table| && Wf(c)
    ensures forall h :: HashKept(c, FreeSequence(FiledPrompt(mid, id, prompt), id), prompt, h)
  {
    hide Wf, RegisterFrom, FreeSequence, NoDup, Sound, Named, IndexLeft, HashKept, MatchPrefix;
    var table, n, filed := mid.seqs[id].table, |prompt| / mid.blockSize, FiledPrompt(mid, id, prompt);
    SoundTable(mid, id);
    DivMod(|prompt|, mid.blockSize);
    RegisterNames(mid, table, prompt, 0, n);
    assert filed == RegisterFrom(mid, table, prompt, 0, n, Chain(mid.hash, mid.blockSize, prompt, 0));
    FreeSequenceIndex(filed, id);
    forall h ensures HashKept(c, FreeSequence(filed, id), prompt, h) {
      HashOfPrompt(c, mid, id, prompt, h);
      OneHash(c, mid, filed, FreeSequence(filed, id), id, prompt, h);
    }
  }

  lemma CreatedTable(c: Cache, id: SeqId, prompt: seq<Token>)
    requires Wf(c)
    ensures var created := CreateForPrompt(c, id, prompt); created.seqs[id].table == MatchPrefix(c, prompt) && created.info == c.info
    ensures forall b | b in MatchPrefix(c, prompt) :: b in c.info
  {
    var blocks := MatchPrefix(c, prompt);
    MatchPrefixMatches(c, prompt);
    forall k | 0 <= k < |blocks| ensures blocks[k] in c.info {
      assert MatchesAt(c, prompt, 0 + k, blocks[k]);
    }
  }

  /** The blocks filed anew are the ones that were not matched. */
  lemma HashOfPrompt(c: Cache, mid: Cache, id: SeqId, prompt: seq<Token>, h: Hash)
    requires BeforeFiling(c, mid, id, prompt)
    ensures NewHash(mid, mid.seqs[id].table, prompt, 0, |prompt| / c.blockSize, h) <==> Unmatched(c, prompt, h)
  {
    hide Wf, Sound, Chain, MatchPrefix, FiledNow, HasHash;
    var table, n := mid.seqs[id].table, |prompt| / c.blockSize;
    if Unmatched(c, prompt, h) {
      var j: nat :| |MatchPrefix(c, prompt)| <= j && HasHash(c, prompt, j, h);
      FiledIsUnmatched(c, mid, id, prompt, j, h);
    }
    if NewHash(mid, table, prompt, 0, n, h) {
      var j: nat :| 0 <= j < n && FiledNow(mid, table, prompt, j, h);
      FiledIsUnmatched(c, mid, id, prompt, j, h);
    }
  }

  lemma FiledIsUnmatched(c: Cache, mid: Cache, id: SeqId, prompt: seq<Token>, j: nat, h: Hash)
    requires BeforeFiling(c, mid, id, prompt)
    ensures j < |prompt| / c.blockSize && FiledNow(mid, mid.seqs[id].table, prompt, j, h) <==>
            |MatchPrefix(c, prompt)| <= j && HasHash(c, prompt, j, h)
  {
    hide Wf, Sound, Chain, MatchPrefix;
    var table := mid.seqs[id].table;
    if (j + 1) * c.blockSize <= |prompt| { WholeBlock(|prompt|, c.blockSize, j); }
    if j < |MatchPrefix(c, prompt)| {
      assert table[j] == MatchPrefix(c, prompt)[j] && MatchPrefix(c, prompt)[j] in MatchPrefix(c, prompt);
    }
  }

  lemma WholeBlock(n: nat, B: nat, j: nat)
    requires B >= 1 && (j + 1) * B <= n
    ensures j < n / B
  {
    DivMod(n, B);
    MulMonotone(n / B + 1, j + 1, B);
  }

  lemma OneHash(c: Cache, mid: Cache, filed: Cache, freed: Cache, id: SeqId, prompt: seq<Token>, h: Hash)
    requires Sound(c, {}) && Wf(c) && Sound(mid, {}) && id !in c.seqs && id in mid.seqs && mid.blockSize >= 1
    requires mid.index == c.index && mid.info == c.info && mid.seqs == c.seqs[id := mid.seqs[id]]
    requires filed == mid.(info := filed.info, index := filed.index) && IndexLeft(filed, id, freed)
    requires Named(mid, filed, mid.seqs[id].table, prompt, 0, |prompt| / mid.blockSize, h)
    requires NewHash(mid, mid.seqs[id].table, prompt, 0, |prompt| / mid.blockSize, h) <==> Unmatched(c, prompt, h)
    ensures HashKept(c, freed, prompt, h)
  {
    hide NewHash, Unmatched;
    if h in filed.index {
      var b := filed.index[h];
      if b in c.info {
        LiveHolder(c, b);
        StillHeld(filed, id, c, b);
      } else if b in mid.seqs[id].table {
        OnlyOwn(mid, id, b);
      }
    }
  }

  /** A block of a sequence that is not filed is in no other table. */
  lemma OnlyOwn(c: Cache, id: SeqId, b: Block)
    requires Sound(c, {}) && id in c.seqs && b in c.seqs[id].table && b !in c.info
    ensures !HeldElsewhere(c, id, b)
  {
    assert Holders(c.seqs, b) == {id};
    forall x | x in c.seqs && x != id ensures b !in c.seqs[x].table {
      assert x !in Holders(c.seqs, b);
    }
  }

  lemma NotYet(m: Model, c: Cache, hist: map<SeqId, seq<Token>>, id: SeqId)
    requires Faithful(m, c, hist) && id !in c.seqs
    ensures id !in hist
  {
  }

  lemma ScratchIndex(m: Model, c: Cache, hist: map<SeqId, seq<Token>>, id: SeqId, prompt: seq<Token>, freed: Cache)
    requires Sound(c, {}) && Faithful(m, c, hist) && id !in c.seqs && prompt != [] && Wf(c)
    requires Wf(c) && HoldersAgree(c, hist, prompt, MatchPrefix(c, prompt))
    requires var (after, p) := PrefillWithPrefixReuse(m, c, id, prompt);
             p.Some? && freed.seqs == after.seqs - {id} && |freed.refs| == |after.refs| && freed.info.Items <= after.info.Items
    requires Sound(freed, {})
    ensures freed.info.Items <= c.info.Items
  {
    hide Counted, FreeExact, SharedIndexed, TablesDistinct, Faithful, HoldersAgree, Wf, ContinuePrefill, CreateForPrompt, RegisterFrom;
    hide BlocksFor, PredictsNext, PrivacyKept;
    CreateForPromptKeeps(m, c, hist, id, prompt);
    var created := CreateForPrompt(c, id, prompt);
    var start, rest := hist[id := prompt[..created.seqs[id].len]], prompt[created.seqs[id].len..];
    ContinuePrefillKeeps(m, created, start, id, rest);
    var mid := ContinuePrefill(m, created, id, rest).0;
    SequenceBounds(mid, id);
    WholeBlocksFit(|prompt|, mid.blockSize, |mid.seqs[id].table|);
    var filed := RegisterPrefixBlocks(mid, id, prompt);
    if c.prefixCaching {
      DivMod(|prompt|, mid.blockSize);
      RegisterAdds(mid, mid.seqs[id].table, prompt, 0, |prompt| / mid.blockSize, None);
    }
    FreedLeavesIndex(mid, filed, freed, id);
  }
}
