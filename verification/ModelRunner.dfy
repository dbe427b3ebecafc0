/** The forward passes of llama.py, reading and writing the paged cache. */
module ModelRunner {
  import opened LanguageModel
  import opened Options
  import opened Positions
  import opened PagedKvCache
  import opened CacheInvariant
  import opened CacheOperations
  import opened PrefixReuse

  /** One causal pass over `chunk` on top of what is cached; None is the out-of-memory error. */
  function ContinuePrefill(m: Model, c: Cache, id: SeqId, chunk: seq<Token>): (r: (Cache, Option<seq<Token>>))
    requires Wf(c) && id in c.seqs
    ensures Wf(r.0) && id in r.0.seqs && |r.0.refs| == |c.refs|
    ensures r.0 == c.(free := r.0.free, refs := r.0.refs, store := r.0.store, seqs := c.seqs[id := r.0.seqs[id]])
    ensures r.1.Some? ==> |r.1.value| == |chunk| && r.0.seqs[id].len == c.seqs[id].len + |chunk|
  {
    var (grown, ok) := Reserve(c, id, |chunk|);
    if !ok then (grown, None)
    else (RunChunk(m, grown, id, chunk), Some(ChunkPredictions(m, grown, id, chunk)))
  }

  /** Writes the chunk's entries; the cached ones are gathered through the block list as
      `reserve` has grown it. */
  function RunChunk(m: Model, c: Cache, id: SeqId, chunk: seq<Token>): (r: Cache)
    requires Wf(c) && id in c.seqs && c.seqs[id].len + |chunk| <= |c.seqs[id].table| * c.blockSize
    ensures Wf(r)
    ensures r == c.(store := r.store, seqs := c.seqs[id := c.seqs[id].(len := c.seqs[id].len + |chunk|)])
  {
    Append(c, id, Extend(m, Reached(c, id, c.seqs[id].len), chunk)[c.seqs[id].len..])
  }

  function ChunkPredictions(m: Model, c: Cache, id: SeqId, chunk: seq<Token>): (r: seq<Token>)
    requires Wf(c) && id in c.seqs
    ensures |r| == |chunk|
  {
    Predictions(m, Reached(c, id, c.seqs[id].len), chunk)
  }

  /** The first n entries a sequence's table reaches. */
  function Reached(c: Cache, id: SeqId, n: nat): (r: seq<Kv>)
    requires Wf(c) && id in c.seqs && n <= |c.seqs[id].table| * c.blockSize
    ensures |r| == n
  {
    Gather(c.store, c.blockSize, c.seqs[id].table, n)
  }

  /** Prefill through the prefix index: reuse what matches, run the rest, file the prompt. */
  function PrefillWithPrefixReuse(m: Model, c: Cache, id: SeqId, prompt: seq<Token>): (r: (Cache, Option<seq<Token>>))
    requires Wf(c)
    ensures Wf(r.0) && id in r.0.seqs && |r.0.refs| == |c.refs|
    ensures r.0 == c.(free := r.0.free, refs := r.0.refs, store := r.0.store, seqs := r.0.seqs, info := r.0.info, index := r.0.index)
    ensures r.1.Some? && prompt != [] ==> r.1.value != []
  {
    var created := CreateForPrompt(c, id, prompt);
    var (after, predictions) := ContinuePrefill(m, created, id, prompt[created.seqs[id].len..]);
    if predictions.None? then (after, None)
    else
      assert WfSeq(after, after.seqs[id]);
      WholeBlocksFit(|prompt|, after.blockSize, |after.seqs[id].table|);
      (RegisterPrefixBlocks(after, id, prompt), predictions)
  }

  lemma WholeBlocksFit(n: nat, B: nat, k: nat)
    requires B >= 1 && n <= k * B
    ensures 0 <= n / B <= k
  {
    DivMod(n, B);
    DivLess(n, B, k + 1);
  }

  /** A new sequence over whatever prefix of the prompt is already cached. */
  function CreateForPrompt(c: Cache, id: SeqId, prompt: seq<Token>): (r: Cache)
    requires Wf(c)
    ensures Wf(r) && id in r.seqs && r.seqs[id].len <= |prompt|
    ensures |r.refs| == |c.refs| && r == c.(refs := r.refs, seqs := r.seqs)
    ensures prompt != [] ==> r.seqs[id].len < |prompt|
  {
    var matched := MatchPrefix(c, prompt);
    if matched != [] then CreateSequenceFromPrefix(c, id, matched) else CreateSequence(c, id)
  }

  /** Every listed sequence has room for one more token. */
  predicate Roomy(c: Cache, ids: seq<SeqId>) {
    forall i | 0 <= i < |ids| :: ids[i] in c.seqs && c.seqs[ids[i]].len < |c.seqs[ids[i]].table| * c.blockSize
  }

  predicate AllCached(c: Cache, ids: seq<SeqId>) {
    forall i | 0 <= i < |ids| :: ids[i] in c.seqs
  }

  /** The tables of `after` only have blocks added. */
  ghost predicate TablesGrown(c: Cache, after: Cache) {
    && after == c.(free := after.free, refs := after.refs, seqs := after.seqs)
    && after.seqs.Keys == c.seqs.Keys
    && |after.refs| == |c.refs|
    && (forall x | x in c.seqs :: after.seqs[x].len == c.seqs[x].len && c.seqs[x].table <= after.seqs[x].table)
  }

  /** Makes room for one token in each sequence, in order, stopping at the first failure. */
  function ReserveAll(c: Cache, ids: seq<SeqId>): (r: (Cache, bool))
    requires Wf(c) && AllCached(c, ids)
    ensures Wf(r.0) && TablesGrown(c, r.0)
    ensures r.1 ==> Roomy(r.0, ids)
    decreases |ids|
  {
    if ids == [] then (c, true)
    else
      var n := |ids| - 1;
      var before := ReserveAll(c, ids[..n]);
      if !before.1 then before
      else
        var r := Reserve(before.0, ids[n], 1);
        ReserveAllStep(c, before.0, r, ids);
        r
  }

  lemma ReserveAllStep(c: Cache, before: Cache, r: (Cache, bool), ids: seq<SeqId>)
    requires Wf(before) && ids != [] && TablesGrown(c, before) && Roomy(before, ids[..|ids| - 1])
    requires ids[|ids| - 1] in c.seqs && r == Reserve(before, ids[|ids| - 1], 1)
    ensures TablesGrown(c, r.0)
    ensures r.1 ==> Roomy(r.0, ids)
  {
    hide Wf;
    var n, id := |ids| - 1, ids[|ids| - 1];
    MulMonotone(|before.seqs[id].table|, |r.0.seqs[id].table|, c.blockSize);
    forall i | 0 <= i < n ensures ids[i] in r.0.seqs && r.0.seqs[ids[i]].len < |r.0.seqs[ids[i]].table| * c.blockSize {
      assert ids[..n][i] == ids[i];
    }
  }

  function RowSlot(c: Cache, id: SeqId): (r: Pos)
    requires Wf(c) && id in c.seqs && c.seqs[id].len < |c.seqs[id].table| * c.blockSize
    ensures InStore(c.store, r)
  {
    PosOf(c.seqs[id].table, c.blockSize, c.seqs[id].len)
  }

  /** Where each row's new token goes. */
  function RowSlots(c: Cache, ids: seq<SeqId>): (r: seq<Pos>)
    requires Wf(c) && Roomy(c, ids)
    ensures |r| == |ids| && AllInStore(c.store, r)
  {
    seq(|ids|, i requires 0 <= i < |ids| => RowSlot(c, ids[i]))
  }

  /** Each row's new entry, from the entries its table reaches before anything is written. */
  function RowEntries(m: Model, c: Cache, ids: seq<SeqId>, tokens: seq<Token>): (r: seq<Kv>)
    requires Wf(c) && |ids| == |tokens| && Roomy(c, ids)
    ensures |r| == |ids|
  {
    seq(|ids|, i requires 0 <= i < |ids| => m.entry(Reached(c, ids[i], c.seqs[ids[i]].len), tokens[i]))
  }

  /** Each row's prediction, from the entries its table reaches after every row was written. */
  function RowPredictions(m: Model, c: Cache, ids: seq<SeqId>, tokens: seq<Token>): (r: seq<Token>)
    requires Wf(c) && |ids| == |tokens| && Roomy(c, ids)
    ensures |r| == |ids|
  {
    seq(|ids|, i requires 0 <= i < |ids| => m.predict(Reached(c, ids[i], c.seqs[ids[i]].len + 1), tokens[i]))
  }

  function AdvanceAll(c: Cache, ids: seq<SeqId>): (r: Cache)
    requires Wf(c) && Roomy(c, ids) && NoDup(ids)
    ensures Wf(r) && r.seqs.Keys == c.seqs.Keys && r == c.(seqs := r.seqs)
    ensures forall x | x in c.seqs :: r.seqs[x] == if x in ids then c.seqs[x].(len := c.seqs[x].len + 1) else c.seqs[x]
    decreases |ids|
  {
    if ids == [] then c
    else
      var n := |ids| - 1;
      assert ids[n] !in ids[..n];
      Advance(AdvanceAll(c, ids[..n]), ids[n], 1)
  }

  /** One decode step for a batch: reserve for every row, write every row, then read. */
  function DecodeBatch(m: Model, c: Cache, ids: seq<SeqId>, tokens: seq<Token>): (r: (Cache, Option<seq<Token>>))
    requires Wf(c) && NoDup(ids) && |ids| == |tokens| && AllCached(c, ids)
    ensures Wf(r.0) && r.0.seqs.Keys == c.seqs.Keys && |r.0.refs| == |c.refs|
    ensures r.0 == c.(free := r.0.free, refs := r.0.refs, store := r.0.store, seqs := r.0.seqs)
    ensures r.1.Some? ==> |r.1.value| == |ids|
  {
    var (grown, ok) := ReserveAll(c, ids);
    if !ok then (grown, None)
    else
      var written := Write(grown, RowSlots(grown, ids), RowEntries(m, grown, ids, tokens));
      (AdvanceAll(written, ids), Some(RowPredictions(m, written, ids, tokens)))
  }

  // ---- what the passes keep ----

  /** The blocks a sequence may still write to are its own. */
  ghost predicate Writable(c: Cache, id: SeqId) {
    id in c.seqs && c.blockSize >= 1 && PrivateFrom(c.info, c.seqs[id].table, c.seqs[id].len / c.blockSize)
  }

  /** What reserving changes: at most the one table, by the blocks the free list lost. */
  ghost predicate Reserved(c: Cache, id: SeqId, n: nat, after: Cache, ok: bool) {
    && id in c.seqs && id in after.seqs && c.blockSize >= 1
    && var old_, table, need := c.seqs[id].table, after.seqs[id].table, BlocksFor(c.blockSize, c.seqs[id].len + n);
    && (forall i | |old_| <= i < |table| :: table[i] !in c.info)
    && |table| - |old_| == |c.free| - |after.free|
    && (ok <==> need <= |old_| + |c.free|)
    && (ok ==> |table| == if need <= |old_| then |old_| else need)
    && (!ok ==> after.free == [] && |table| < need)
    && after.info == c.info
  }

  /** Who may write where is not affected. */
  ghost predicate PrivacyKept(c: Cache, after: Cache) {
    forall x, k | x in c.seqs && x in after.seqs && PrivateFrom(c.info, c.seqs[x].table, k) :: PrivateFrom(after.info, after.seqs[x].table, k)
  }

  lemma ReserveKeeps(m: Model, c: Cache, hist: map<SeqId, seq<Token>>, id: SeqId, n: nat)
    requires Sound(c, {}) && Faithful(m, c, hist) && id in c.seqs
    ensures Sound(Reserve(c, id, n).0, {}) && Faithful(m, Reserve(c, id, n).0, hist)
    ensures Reserved(c, id, n, Reserve(c, id, n).0, Reserve(c, id, n).1) && PrivacyKept(c, Reserve(c, id, n).0)
  {
    assert c.blockSize >= 1;
    hide Wf, Counted, FreeExact, SharedIndexed, TablesDistinct, Faithful, Grow, BlocksFor, PrivacyKept;
    GrowSound(c, id, BlocksFor(c.blockSize, c.seqs[id].len + n));
    GrowFaithful(m, c, hist, id, BlocksFor(c.blockSize, c.seqs[id].len + n));
    ReservedPrivacy(c, id, n, Reserve(c, id, n).0, Reserve(c, id, n).1);
  }

  lemma ReservedPrivacy(c: Cache, id: SeqId, n: nat, after: Cache, ok: bool)
    requires Reserved(c, id, n, after, ok) && c.seqs[id].table <= after.seqs[id].table
    requires after.seqs == c.seqs[id := after.seqs[id]]
    ensures PrivacyKept(c, after)
  {
    forall x, k | x in c.seqs && PrivateFrom(c.info, c.seqs[x].table, k) ensures PrivateFrom(after.info, after.seqs[x].table, k) {
      if x == id {
        forall i | 0 <= i < |after.seqs[id].table| && k <= i ensures after.seqs[id].table[i] !in after.info {
          if i < |c.seqs[id].table| { assert after.seqs[id].table[i] == c.seqs[id].table[i]; }
        }
      }
    }
  }

  ghost predicate PredictsNext(m: Model, toks: seq<Token>, chunk: seq<Token>, predictions: seq<Token>) {
    && |predictions| == |chunk|
    && forall j | 0 <= j < |chunk| :: predictions[j] == Next(m, toks + chunk[..j + 1])
  }

  /** The outcome of a pass over `chunk`: all of it cached and every prediction the one a full
      pass makes, or no content changed for lack of blocks. */
  ghost predicate Passed(m: Model, c: Cache, hist: map<SeqId, seq<Token>>, id: SeqId, chunk: seq<Token>,
                         r: (Cache, Option<seq<Token>>)) {
    var (after, predictions) := r;
    && id in hist
    && Sound(after, {})
    && Faithful(m, after, if predictions.Some? then hist[id := hist[id] + chunk] else hist)
    && (predictions.Some? ==> PredictsNext(m, hist[id], chunk, predictions.value))
    && Reserved(c, id, |chunk|, after, predictions.Some?)
    && PrivacyKept(c, after)
  }

  /** A pass over a chunk extends the cached tokens by exactly that chunk, predicts what full
      passes would, and fails exactly when the blocks do not suffice, changing no content then. */
  lemma ContinuePrefillKeeps(m: Model, c: Cache, hist: map<SeqId, seq<Token>>, id: SeqId, chunk: seq<Token>)
    requires Sound(c, {}) && Faithful(m, c, hist) && id in hist && Writable(c, id)
    ensures Passed(m, c, hist, id, chunk, ContinuePrefill(m, c, id, chunk))
  {
    assert |hist[id]| == c.seqs[id].len && c.blockSize >= 1;
    hide Wf, Counted, FreeExact, SharedIndexed, TablesDistinct, Faithful, PrivateFrom, BlocksFor, RunChunk, ChunkPredictions, Reserve, PredictsNext;
    ReserveKeeps(m, c, hist, id, |chunk|);
    var (grown, ok) := Reserve(c, id, |chunk|);
    if ok {
      assert PrivateFrom(grown.info, grown.seqs[id].table, |hist[id]| / c.blockSize);
      RunChunkKeeps(m, grown, hist, id, chunk);
    }
  }

  lemma RunChunkKeeps(m: Model, c: Cache, hist: map<SeqId, seq<Token>>, id: SeqId, chunk: seq<Token>)
    requires Sound(c, {}) && Faithful(m, c, hist) && id in hist
    requires |hist[id]| + |chunk| <= |c.seqs[id].table| * c.blockSize
    requires PrivateFrom(c.info, c.seqs[id].table, |hist[id]| / c.blockSize)
    ensures Sound(RunChunk(m, c, id, chunk), {})
    ensures Faithful(m, RunChunk(m, c, id, chunk), hist[id := hist[id] + chunk])
    ensures PredictsNext(m, hist[id], chunk, ChunkPredictions(m, c, id, chunk))
  {
    var toks := hist[id];
    assert Holds(m, c.store, c.blockSize, c.seqs[id], toks);
    hide Wf, Counted, FreeExact, SharedIndexed, TablesDistinct, Filed, PrivateFrom, Gather, Append, Predictions;
    EntriesAppend(m, toks, chunk);
    var all := Extend(m, Entries(m, toks), chunk);
    assert Entries(m, toks) + all[|toks|..] == all;
    AppendFaithful(m, c, hist, id, chunk, all[|toks|..]);
    PassPredicts(m, toks, chunk);
  }

  lemma PassPredicts(m: Model, toks: seq<Token>, chunk: seq<Token>)
    ensures PredictsNext(m, toks, chunk, Predictions(m, Entries(m, toks), chunk))
  {
    forall j | 0 <= j < |chunk| ensures Predictions(m, Entries(m, toks), chunk)[j] == Next(m, toks + chunk[..j + 1]) {
      PredictionsAreNext(m, toks, chunk, j);
    }
  }

  /** What a new sequence starts from: a cached proper prefix of its prompt in whole blocks, and
      no block taken from the free list. */
  ghost predicate Created(m: Model, c: Cache, hist: map<SeqId, seq<Token>>, id: SeqId, prompt: seq<Token>, after: Cache) {
    && id in after.seqs && after.blockSize >= 1
    && after == c.(refs := after.refs, seqs := c.seqs[id := after.seqs[id]]) && |after.refs| == |c.refs|
    && after.seqs[id].len == |after.seqs[id].table| * c.blockSize <= |prompt|
    && (prompt != [] ==> after.seqs[id].len < |prompt|)
    && Sound(after, {}) && Faithful(m, after, hist[id := prompt[..after.seqs[id].len]])
    && Writable(after, id)
  }

  lemma CreateForPromptKeeps(m: Model, c: Cache, hist: map<SeqId, seq<Token>>, id: SeqId, prompt: seq<Token>)
    requires Sound(c, {}) && Faithful(m, c, hist) && id !in c.seqs
    requires Wf(c) && HoldersAgree(c, hist, prompt, MatchPrefix(c, prompt))
    ensures Created(m, c, hist, id, prompt, CreateForPrompt(c, id, prompt))
  {
    var matched := MatchPrefix(c, prompt);
    var after := CreateForPrompt(c, id, prompt);
    if matched != [] {
      ReuseKeeps(m, c, hist, id, prompt);
      DivUnique(|matched| * c.blockSize, c.blockSize, |matched|);
    } else {
      CreateSequenceKeeps(m, c, hist, id);
      assert prompt[..0] == [];
    }
  }

  /** A prompt's prefill: exactly the prompt cached, its first greedy token predicted, whatever
      part was reused, in a table with no spare block; or out of memory. */
  ghost predicate Prefilled(m: Model, c: Cache, hist: map<SeqId, seq<Token>>, id: SeqId, prompt: seq<Token>,
                            created: Cache, r: (Cache, Option<seq<Token>>)) {
    var (after, predictions) := r;
    && id in created.seqs && c.blockSize >= 1 && prompt != []
    && (predictions.Some? <==> BlocksFor(c.blockSize, |prompt|) <= |created.seqs[id].table| + |c.free|)
    && (predictions.Some? ==>
          && predictions.value != [] && predictions.value[|predictions.value| - 1] == Next(m, prompt)
          && PromptCached(m, c, hist, id, prompt, after)
          && |after.free| + |after.seqs[id].table| == |c.free| + |created.seqs[id].table|)
  }

  ghost predicate PromptCached(m: Model, c: Cache, hist: map<SeqId, seq<Token>>, id: SeqId, prompt: seq<Token>, after: Cache) {
    && Sound(after, {}) && Faithful(m, after, hist[id := prompt])
    && id in after.seqs && after.seqs == c.seqs[id := after.seqs[id]]
    && c.blockSize >= 1 && |after.seqs[id].table| == BlocksFor(c.blockSize, |prompt|)
    && PrivateFrom(after.info, after.seqs[id].table, |prompt| / c.blockSize)
    && OthersPrivate(c, id, after)
    && after == c.(free := after.free, refs := after.refs, store := after.store, seqs := after.seqs,
                   info := after.info, index := after.index)
    && |after.refs| == |c.refs|
    && (!c.prefixCaching ==> after.info == c.info)
  }

  /** Privacy of the other sequences' blocks survives. */
  ghost predicate OthersPrivate(c: Cache, id: SeqId, after: Cache) {
    forall x, k | x in c.seqs && x != id && x in after.seqs && PrivateFrom(c.info, c.seqs[x].table, k) ::
      PrivateFrom(after.info, after.seqs[x].table, k)
  }

  lemma PrefillKeeps(m: Model, c: Cache, hist: map<SeqId, seq<Token>>, id: SeqId, prompt: seq<Token>)
    requires Sound(c, {}) && Faithful(m, c, hist) && id !in c.seqs && prompt != []
    requires Wf(c) && HoldersAgree(c, hist, prompt, MatchPrefix(c, prompt))
    ensures Prefilled(m, c, hist, id, prompt, CreateForPrompt(c, id, prompt), PrefillWithPrefixReuse(m, c, id, prompt))
  {
    hide Counted, FreeExact, SharedIndexed, TablesDistinct, Faithful, HoldersAgree, Wf, ContinuePrefill, CreateForPrompt;
    hide RegisterPrefixBlocks, PromptCached, BlocksFor, Created;
    CreateForPromptKeeps(m, c, hist, id, prompt);
    PrefillFrom(m, c, hist, id, prompt, CreateForPrompt(c, id, prompt));
  }

  lemma PrefillFrom(m: Model, c: Cache, hist: map<SeqId, seq<Token>>, id: SeqId, prompt: seq<Token>, created: Cache)
    requires prompt != [] && Created(m, c, hist, id, prompt, created)
    ensures
      var r := ContinuePrefill(m, created, id, prompt[created.seqs[id].len..]);
      && (r.1.Some? <==> BlocksFor(c.blockSize, |prompt|) <= |created.seqs[id].table| + |c.free|)
      && (r.1.Some? ==>
            && r.1.value != [] && r.1.value[|r.1.value| - 1] == Next(m, prompt)
            && |prompt| / c.blockSize <= |r.0.seqs[id].table|
            && PromptCached(m, c, hist, id, prompt, RegisterPrefixBlocks(r.0, id, prompt))
            && |r.0.free| + |r.0.seqs[id].table| == |c.free| + |created.seqs[id].table|)
  {
    hide Wf, Counted, FreeExact, SharedIndexed, TablesDistinct, Faithful, PrivateFrom, BlocksFor, RegisterPrefixBlocks, PrivacyKept;
    hide Reserve, RunChunk, ChunkPredictions, PromptCached, Next;
    var cached := created.seqs[id].len;
    var rest, start := prompt[cached..], hist[id := prompt[..cached]];
    ContinuePrefillKeeps(m, created, start, id, rest);
    var r := ContinuePrefill(m, created, id, rest);
    hide Sound, ContinuePrefill;
    if r.1.Some? {
      assert rest[..|rest|] == rest;
      assert start[id] + rest == prompt;
      FinishPromptKeeps(m, c, hist, id, prompt, created, r);
    }
  }

  lemma FinishPromptKeeps(m: Model, c: Cache, hist: map<SeqId, seq<Token>>, id: SeqId, prompt: seq<Token>,
                          created: Cache, r: (Cache, Option<seq<Token>>))
    requires Created(m, c, hist, id, prompt, created) && r.1.Some?
    requires Passed(m, created, hist[id := prompt[..created.seqs[id].len]], id, prompt[created.seqs[id].len..], r)
    requires r.0 == created.(free := r.0.free, refs := r.0.refs, store := r.0.store, seqs := created.seqs[id := r.0.seqs[id]])
    requires |r.0.refs| == |c.refs|
    ensures |prompt| / c.blockSize <= |r.0.seqs[id].table|
    ensures PromptCached(m, c, hist, id, prompt, RegisterPrefixBlocks(r.0, id, prompt))
  {
    hide Counted, FreeExact, SharedIndexed, TablesDistinct, Wf, Faithful, PredictsNext, PrivateFrom, BlocksFor;
    hide RegisterPrefixBlocks;
    var start := hist[id := prompt[..created.seqs[id].len]];
    assert start[id] + prompt[created.seqs[id].len..] == prompt;
    assert start[id := prompt] == hist[id := prompt];
    FinishFaithful(m, r.0, hist[id := prompt], id, prompt);
    BlocksForAtLeast(c.blockSize, |prompt|, |created.seqs[id].table|);
    FinishPrivate(created, id, prompt);
    hide Sound;
    RegisterKeeps(m, r.0, hist[id := prompt], id);
  }

  lemma FinishPrivate(created: Cache, id: SeqId, prompt: seq<Token>)
    requires Writable(created, id) && created.seqs[id].len <= |prompt|
    ensures PrivateFrom(created.info, created.seqs[id].table, |prompt| / created.blockSize)
  {
    DivMonotone(created.seqs[id].len, |prompt|, created.blockSize);
    PrivateLater(created.info, created.seqs[id].table, created.seqs[id].len / created.blockSize, |prompt| / created.blockSize);
  }

  lemma FinishFaithful(m: Model, c: Cache, hist: map<SeqId, seq<Token>>, id: SeqId, prompt: seq<Token>)
    requires Sound(c, {}) && Faithful(m, c, hist) && id in hist && hist[id] == prompt
    ensures Wf(c) && id in c.seqs && c.seqs[id].len == |prompt| <= |c.seqs[id].table| * c.blockSize
    ensures 0 <= |prompt| / c.blockSize <= |c.seqs[id].table|
  {
    WholeBlocksFit(|prompt|, c.blockSize, |c.seqs[id].table|);
  }

  lemma PrivateLater(info: map<Block, BlockInfo>, table: seq<Block>, k: int, l: int)
    requires PrivateFrom(info, table, k) && k <= l
    ensures PrivateFrom(info, table, l)
  {
  }
}
