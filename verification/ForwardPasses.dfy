/** The forward passes in their own form: they read and write the cache object in place. */
module ForwardPasses {
  import opened LanguageModel
  import opened Options
  import opened Positions
  import opened PagedKvCache
  import opened CacheInvariant
  import opened ModelRunner
  import opened KvCacheManagers

  /** One causal pass over `chunk` after what is cached. The block list is read after reserving has
      grown it: the source holds on to the list object itself. */
  method RunContinuePrefill(m: Model, cache: KvCacheManager, id: SeqId, chunk: seq<Token>) returns (predictions: Option<seq<Token>>)
    requires cache.Valid() && id in cache.sequences
    modifies cache, cache.allocator, cache.kv
    ensures cache.Valid() && (cache.View(), predictions) == ContinuePrefill(m, old(cache.View()), id, chunk)
  {
    hide Wf, Grow, BlocksFor, Gather, Slots, WriteAll;
    ghost var c := cache.View();
    var cached := cache.sequences[id].len;
    var positions := cache.Reserve(id, |chunk|);
    ghost var grown := cache.View();
    assert (grown, positions.Some?) == Reserve(c, id, |chunk|);
    if positions.None? { return None; }
    SequenceBounds(grown, id);
    var prefix := cache.GatherPrefixKv(cache.sequences[id].table, cached);
    assert prefix == Reached(grown, id, cached);
    var entries := Extend(m, prefix, chunk);
    cache.Write(positions.value, entries[cached..]);
    cache.Advance(id, |chunk|);
    assert cache.View() == RunChunk(m, grown, id, chunk);
    return Some(Predictions(m, prefix, chunk));
  }

  /** Creates the sequence over whatever prefix of its prompt is cached. */
  method RunCreateForPrompt(cache: KvCacheManager, id: SeqId, prompt: seq<Token>)
    requires cache.Valid()
    modifies cache, cache.allocator
    ensures cache.Valid() && cache.View() == CreateForPrompt(old(cache.View()), id, prompt)
    ensures id in cache.sequences
  {
    hide Wf;
    var matched := cache.MatchPrefix(prompt);
    if matched != [] {
      cache.CreateSequenceFromPrefix(id, matched);
    } else {
      cache.CreateSequence(id);
    }
  }

  /** Reuses what matches, runs the rest of the prompt, and files its whole blocks. */
  method RunPrefillWithPrefixReuse(m: Model, cache: KvCacheManager, id: SeqId, prompt: seq<Token>) returns (predictions: Option<seq<Token>>)
    requires cache.Valid()
    modifies cache, cache.allocator, cache.kv
    ensures cache.Valid() && (cache.View(), predictions) == PrefillWithPrefixReuse(m, old(cache.View()), id, prompt)
  {
    hide Wf, CreateForPrompt, ContinuePrefill, RegisterPrefixBlocks;
    ghost var c := cache.View();
    RunCreateForPrompt(cache, id, prompt);
    ghost var created := cache.View();
    assert created.seqs[id].len <= |prompt|;
    predictions := RunContinuePrefill(m, cache, id, prompt[cache.sequences[id].len..]);
    if predictions.Some? {
      SequenceBounds(cache.View(), id);
      WholeBlocksFit(|prompt|, cache.blockSize, |cache.sequences[id].table|);
      cache.RegisterPrefixBlocks(id, prompt);
    }
  }

  lemma RowSlotsStep(before: Cache, after: Cache, ids: seq<SeqId>, i: nat)
    requires Wf(before) && Wf(after) && NoDup(ids) && i < |ids| && ids[i] in before.seqs
    requires Roomy(before, ids[..i]) && (after, true) == Reserve(before, ids[i], 1)
    ensures Roomy(after, ids[..i + 1])
    ensures RowSlots(after, ids[..i + 1]) ==
              RowSlots(before, ids[..i]) + Slots(after.seqs[ids[i]].table, after.blockSize, after.seqs[ids[i]].len, 1)
  {
    hide Wf, Grow, BlocksFor;
    var some, more := ids[..i], ids[..i + 1];
    forall k | 0 <= k < |more|
      ensures more[k] in after.seqs && after.seqs[more[k]].len < |after.seqs[more[k]].table| * after.blockSize
      ensures k < i ==> after.seqs[more[k]] == before.seqs[more[k]]
    {
      if k < i { assert some[k] == more[k] && ids[k] != ids[i]; }
    }
  }

  /** Reserves one slot for each row, in order; None at the first failure. */
  method ReserveRows(cache: KvCacheManager, ids: seq<SeqId>) returns (positions: Option<seq<Pos>>)
    requires cache.Valid() && NoDup(ids) && AllCached(cache.View(), ids)
    modifies cache, cache.allocator
    ensures cache.Valid() && (cache.View(), positions.Some?) == ReserveAll(old(cache.View()), ids)
    ensures positions.Some? ==> positions.value == RowSlots(cache.View(), ids)
  {
    hide Wf, Reserve, RowSlots, Slots;
    ghost var c := cache.View();
    var found: seq<Pos> := [];
    assert ids[..0] == [];
    NoSlots(c);
    for i := 0 to |ids|
      invariant cache.Valid() && (cache.View(), true) == ReserveAll(c, ids[..i])
      invariant found == RowSlots(cache.View(), ids[..i])
    {
      ghost var before := cache.View();
      assert ids[..i + 1][..i] == ids[..i];
      var p := cache.Reserve(ids[i], 1);
      assert (cache.View(), p.Some?) == ReserveAll(c, ids[..i + 1]);
      if p.None? {
        ReserveAllStops(c, ids, i + 1);
        return None;
      }
      RowSlotsStep(before, cache.View(), ids, i);
      found := found + p.value;
    }
    assert ids[..|ids|] == ids;
    return Some(found);
  }

  lemma NoSlots(c: Cache)
    requires Wf(c)
    ensures RowSlots(c, []) == []
  {
    hide Wf;
  }

  /** Once a row finds no block the rows after it are not tried. */
  lemma {:induction false} ReserveAllStops(c: Cache, ids: seq<SeqId>, k: nat)
    requires Wf(c) && AllCached(c, ids) && k <= |ids| && !ReserveAll(c, ids[..k]).1
    ensures ReserveAll(c, ids) == ReserveAll(c, ids[..k])
    decreases |ids|
  {
    hide Wf, Reserve;
    if k < |ids| {
      assert ids[..|ids| - 1][..k] == ids[..k];
      ReserveAllStops(c, ids[..|ids| - 1], k);
    } else {
      assert ids[..k] == ids;
    }
  }

  /** One decode step of a batch: a slot for every row, then every row's entry, then every row's
      prediction over its own table. */
  method RunDecodeStepBatch(m: Model, cache: KvCacheManager, ids: seq<SeqId>, tokens: seq<Token>) returns (predictions: Option<seq<Token>>)
    requires cache.Valid() && NoDup(ids) && |ids| == |tokens| && AllCached(cache.View(), ids)
    modifies cache, cache.allocator, cache.kv
    ensures cache.Valid() && (cache.View(), predictions) == DecodeBatch(m, old(cache.View()), ids, tokens)
  {
    hide Wf, ReserveAll, Write, AdvanceAll;
    ghost var c := cache.View();
    var positions := ReserveRows(cache, ids);
    if positions.None? { return None; }
    ghost var grown := cache.View();
    var entries := NewEntries(m, cache, ids, tokens);
    cache.Write(positions.value, entries);
    ghost var written := cache.View();
    var next := BatchPredictions(m, cache, ids, tokens);
    AdvanceRows(cache, ids);
    return Some(next);
  }

  method NewEntries(m: Model, cache: KvCacheManager, ids: seq<SeqId>, tokens: seq<Token>) returns (entries: seq<Kv>)
    requires cache.Valid() && |ids| == |tokens| && Roomy(cache.View(), ids)
    ensures entries == RowEntries(m, cache.View(), ids, tokens)
  {
    hide Wf, Gather;
    entries := [];
    for i := 0 to |ids|
      invariant |entries| == i
      invariant forall k | 0 <= k < i :: entries[k] == m.entry(Reached(cache.View(), ids[k], cache.sequences[ids[k]].len), tokens[k])
    {
      SequenceBounds(cache.View(), ids[i]);
      var st := cache.sequences[ids[i]];
      var prefix := cache.GatherPrefixKv(st.table, st.len);
      assert prefix == Reached(cache.View(), ids[i], st.len);
      entries := entries + [m.entry(prefix, tokens[i])];
    }
  }

  method BatchPredictions(m: Model, cache: KvCacheManager, ids: seq<SeqId>, tokens: seq<Token>) returns (next: seq<Token>)
    requires cache.Valid() && |ids| == |tokens| && Roomy(cache.View(), ids)
    ensures next == RowPredictions(m, cache.View(), ids, tokens)
  {
    hide Wf, Gather;
    next := [];
    for i := 0 to |ids|
      invariant |next| == i
      invariant forall k | 0 <= k < i :: next[k] == m.predict(Reached(cache.View(), ids[k], cache.sequences[ids[k]].len + 1), tokens[k])
    {
      SequenceBounds(cache.View(), ids[i]);
      var st := cache.sequences[ids[i]];
      var seen := cache.GatherPrefixKv(st.table, st.len + 1);
      assert seen == Reached(cache.View(), ids[i], st.len + 1);
      next := next + [m.predict(seen, tokens[i])];
    }
  }

  lemma RoomyPrefix(c: Cache, ids: seq<SeqId>, n: nat)
    requires Roomy(c, ids) && n <= |ids|
    ensures Roomy(c, ids[..n])
  {
  }

  method AdvanceRows(cache: KvCacheManager, ids: seq<SeqId>)
    requires cache.Valid() && NoDup(ids) && Roomy(cache.View(), ids)
    modifies cache
    ensures cache.Valid() && cache.View() == AdvanceAll(old(cache.View()), ids)
  {
    hide Wf;
    ghost var c := cache.View();
    for i := 0 to |ids|
      invariant cache.Valid() && Roomy(c, ids[..i]) && cache.View() == AdvanceAll(c, ids[..i])
    {
      assert ids[..i + 1][..i] == ids[..i];
      assert ids[i] !in ids[..i];
      cache.Advance(ids[i], 1);
      RoomyPrefix(c, ids, i + 1);
    }
    assert ids[..|ids|] == ids;
  }
}
