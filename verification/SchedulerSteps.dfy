/** The single transitions the scheduler is made of, and that each keeps the invariant. */
module SchedulerSteps {
  import opened LanguageModel
  import opened Options
  import opened Positions
  import opened PagedKvCache
  import opened CacheInvariant
  import opened CacheOperations
  import opened PrefixReuse
  import opened SwapToHost
  import opened ModelRunner
  import opened BatchedDecode
  import opened Requests
  import opened SchedulerState

  // ---- arrival and cancellation ----

  function AddRequest(s: State, id: SeqId, r: Request): State {
    s.(reqs := s.reqs[id := r.(output := [], status := Waiting)], waiting := s.waiting + [id])
  }

  lemma AddRequestKeeps(m: Model, cfg: Config, s: State, id: SeqId, r: Request)
    requires Inv(m, cfg, s, {}) && id !in s.reqs && r.prompt != []
    ensures Inv(m, cfg, AddRequest(s, id, r), {})
  {
    hide Sound, Faithful, HostFaithful, Resident, OnTrack;
    var added := r.(output := [], status := Waiting);
    FreshOnTrack(m, added);
    HistElsewhere(s.reqs, s.cache.seqs, id, added);
    SavedElsewhere(s.reqs, s.cache.host, id, added);
  }

  /** Stops a request wherever it is; unknown or finished ids are ignored. */
  function Cancel(s: State, id: SeqId): (r: State)
    requires Wf(s.cache) && (id in s.running ==> id in s.cache.seqs)
  {
    if id in s.running then s.(cache := FreeSequence(s.cache, id), running := Remove(s.running, id))
    else if id in s.swapped then s.(cache := DiscardSwapped(s.cache, id), swapped := Remove(s.swapped, id))
    else s.(waiting := Remove(s.waiting, id))
  }

  lemma CancelKeeps(m: Model, cfg: Config, s: State, id: SeqId, loose: set<SeqId>)
    requires Inv(m, cfg, s, loose)
    ensures Inv(m, cfg, Cancel(s, id), loose)
  {
    if id in s.running {
      DropKeeps(m, cfg, s, id, loose);
    } else if id in s.swapped {
      DiscardKeeps(m, cfg, s, id, loose);
    } else {
      hide Sound, Faithful, HostFaithful, Resident, OnTrack;
      RemoveDistinct(s.waiting, id);
    }
  }

  lemma DiscardKeeps(m: Model, cfg: Config, s: State, id: SeqId, loose: set<SeqId>)
    requires Inv(m, cfg, s, loose) && id in s.swapped && id !in s.running
    ensures Inv(m, cfg, Cancel(s, id), loose)
  {
    hide Wf, Counted, FreeExact, SharedIndexed, TablesDistinct, Faithful, Resident, OnTrack, HostHolds, NoDup;
    RemoveDistinct(s.swapped, id);
    SavedRemove(s.reqs, s.cache.host, id);
    DiscardFaithful(m, s.cache, id, Hist(s.reqs, s.cache.seqs));
  }

  lemma DiscardFaithful(m: Model, c: Cache, id: SeqId, hist: map<SeqId, seq<Token>>)
    requires Sound(c, {}) && Faithful(m, c, hist)
    ensures Sound(DiscardSwapped(c, id), {}) && Faithful(m, DiscardSwapped(c, id), hist)
  {
    hide Counted, FreeExact, SharedIndexed, TablesDistinct, Filed, Holds;
  }

  /** Releasing a resident request: its blocks come back, nobody else's content changes. */
  lemma DropKeeps(m: Model, cfg: Config, s: State, id: SeqId, loose: set<SeqId>)
    requires Inv(m, cfg, s, loose) && id in s.running
    ensures Inv(m, cfg, s.(cache := FreeSequence(s.cache, id), running := Remove(s.running, id)), loose)
  {
    hide Counted, FreeExact, SharedIndexed, TablesDistinct, Faithful, FreeSequence, HostHolds, OnTrack, Resident, Wf, NoDup;
    var after := s.(cache := FreeSequence(s.cache, id), running := Remove(s.running, id));
    FreeSequenceKeeps(m, s.cache, Hist(s.reqs, s.cache.seqs), id);
    RemoveDistinct(s.running, id);
    HistRemove(s.reqs, s.cache.seqs, id);
    ResidentAfterFree(cfg, s, after, loose);
  }

  lemma ResidentAfterFree(cfg: Config, s: State, after: State, loose: set<SeqId>)
    requires AllResident(cfg, s, loose) && after.reqs == s.reqs && after.cache.blockSize == s.cache.blockSize
    requires after.cache.info.Items <= s.cache.info.Items
    requires forall x | x in after.running :: x in s.running
    requires forall x | x in after.cache.seqs :: x in s.cache.seqs && after.cache.seqs[x] == s.cache.seqs[x]
    ensures AllResident(cfg, after, loose)
  {
    assert forall b | b in after.cache.info :: (b, after.cache.info[b]) in after.cache.info.Items;
    forall x | x in after.running && x in after.reqs && x in after.cache.seqs
      ensures Resident(cfg, after.reqs[x], after.cache.seqs[x], after.cache.info, after.cache.blockSize, x in loose)
    {
      assert Resident(cfg, s.reqs[x], s.cache.seqs[x], s.cache.info, s.cache.blockSize, x in loose);
    }
  }

  // ---- swapping in ----

  /** The head of the swapped list fits into the free blocks. */
  ghost predicate HeadFits(s: State) {
    && s.swapped != [] && s.cache.blockSize >= 1
    && s.swapped[0] in s.cache.host
    && BlocksFor(s.cache.blockSize, s.cache.host[s.swapped[0]].len) <= |s.cache.free|
  }

  function SwapInOne(m: Model, cfg: Config, s: State): State
    requires Inv(m, cfg, s, {}) && s.swapped != []
  {
    var id := s.swapped[0];
    SnapshotRows(m, s, id);
    State(s.reqs[id := s.reqs[id].(status := Running)], s.waiting, s.running + [id], s.swapped[1..], SwapIn(s.cache, id).0)
  }

  lemma SwapInOneKeeps(m: Model, cfg: Config, s: State)
    requires Inv(m, cfg, s, {}) && HeadFits(s)
    ensures Inv(m, cfg, SwapInOne(m, cfg, s), {})
  {
    hide Sound, Faithful, HostFaithful, OnTrack, SwapIn, Resident, BlocksFor;
    var id := s.swapped[0];
    SnapshotRows(m, s, id);
    StatusOnTrack(m, s.reqs[id], Running);
    SwapInOneCache(m, cfg, s);
    SwapInOneLists(m, cfg, s);
  }

  lemma SnapshotRows(m: Model, s: State, id: SeqId)
    requires CacheOk(m, s) && Listed(s) && id in s.swapped
    ensures id in s.cache.host && Rows(s.cache.host[id].blocks, s.cache.blockSize)
  {
    hide Sound, Faithful, NoDup;
    assert HostHolds(m, s.cache.blockSize, s.cache.host[id], Saved(s.reqs, s.cache.host)[id]);
  }

  lemma SwapInOneLists(m: Model, cfg: Config, s: State)
    requires Inv(m, cfg, s, {}) && s.swapped != [] && s.swapped[0] in s.cache.host
    requires Rows(s.cache.host[s.swapped[0]].blocks, s.cache.blockSize)
    requires SwapIn(s.cache, s.swapped[0]).0.seqs.Keys == s.cache.seqs.Keys + {s.swapped[0]}
    ensures Listed(SwapInOne(m, cfg, s)) && OnePrefilling(cfg, SwapInOne(m, cfg, s).reqs, SwapInOne(m, cfg, s).running)
    ensures s.swapped[0] !in s.running && s.swapped[0] !in s.swapped[1..]
  {
    hide CacheOk, AllOnTrack, SwapIn, AllResident, Wf;
    var id := s.swapped[0];
    assert s.swapped == [id] + s.swapped[1..];
    assert id !in s.swapped[1..];
  }

  lemma SwapInOneCache(m: Model, cfg: Config, s: State)
    requires Inv(m, cfg, s, {}) && HeadFits(s)
    ensures CacheOk(m, SwapInOne(m, cfg, s))
    ensures AllResident(cfg, SwapInOne(m, cfg, s), {})
    ensures SwapInOne(m, cfg, s).cache.seqs.Keys == s.cache.seqs.Keys + {s.swapped[0]}
  {
    hide Counted, FreeExact, SharedIndexed, TablesDistinct, Faithful, HostHolds, OnTrack, Wf, NoDup, PrivateFrom, SwapIn, BlocksFor, Resident;
    var id := s.swapped[0];
    var r := s.reqs[id].(status := Running);
    assert id !in s.running;
    SnapshotRows(m, s, id);
    SwapInKeeps(m, s.cache, Hist(s.reqs, s.cache.seqs), Saved(s.reqs, s.cache.host), id);
    var c := SwapIn(s.cache, id).0;
    HistUpdate(s.reqs, s.cache.seqs, id, r, c.seqs[id]);
    SavedRemove(s.reqs, s.cache.host, id);
    SavedElsewhere(s.reqs, c.host, id, r);
    SwappedInResident(cfg, r, c.seqs[id], c.info, c.blockSize);
  }

  lemma SwappedInResident(cfg: Config, r: Request, st: SeqState, info: map<Block, BlockInfo>, B: nat)
    requires B >= 1 && r.status == Running && r.output != [] && st.len == |History(r)| - 1
    requires |st.table| == BlocksFor(B, st.len) && PrivateFrom(info, st.table, 0)
    ensures Resident(cfg, r, st, info, B, false)
  {
    DivMod(|r.prompt|, B);
    PrivateLater(info, st.table, 0, |r.prompt| / B);
  }

  // ---- a prompt's first token ----

  /** The request after its prompt is cached and its first token sampled. */
  function FirstToken(r: Request, t: Token): Request {
    AppendToken(r.(status := Running), t)
  }

  /** Everything but the list bookkeeping of a completed prefill. */
  lemma FirstTokenKeeps(m: Model, cfg: Config, s: State, id: SeqId, after: State)
    requires Inv(m, cfg, s, {}) && id in s.reqs && id !in s.swapped
    requires s.reqs[id].output == [] && s.reqs[id].status != Finished
    requires s.reqs[id].prompt != []
    requires PromptCached(m, s.cache, Hist(s.reqs, s.cache.seqs), id, s.reqs[id].prompt, after.cache)
    requires after.reqs == s.reqs[id := FirstToken(s.reqs[id], Next(m, s.reqs[id].prompt))] && after.swapped == s.swapped
    requires forall x | x in after.running :: x in s.running || x == id
    ensures CacheOk(m, after) && AllResident(cfg, after, {}) && AllOnTrack(m, after.reqs) && AllSaved(after)
    ensures after.reqs[id].status in {Running, Finished}
  {
    hide Sound, Faithful, HostFaithful, OnTrack, Listed, PrivateFrom, Resident, BlocksFor, Next, InjectiveHash;
    var r, r', st := s.reqs[id], after.reqs[id], after.cache.seqs[id];
    CachedLength(m, after.cache, Hist(s.reqs, s.cache.seqs)[id := r.prompt], id);
    FirstTokenRequest(m, cfg, r, st, after.cache.info, after.cache.blockSize);
    HistUpdate(s.reqs, s.cache.seqs, id, r', st);
    NotSwapped(s, id);
    SavedElsewhere(s.reqs, s.cache.host, id, r');
    FirstTokenOthers(m, cfg, s, id, after);
    FirstTokenHost(m, s, after);
  }

  lemma FirstTokenHost(m: Model, s: State, after: State)
    requires HostFaithful(m, s.cache.blockSize, s.cache.host, Saved(s.reqs, s.cache.host))
    requires after.cache.host == s.cache.host && after.cache.blockSize == s.cache.blockSize
    requires Saved(after.reqs, s.cache.host) == Saved(s.reqs, s.cache.host)
    ensures HostFaithful(m, after.cache.blockSize, after.cache.host, Saved(after.reqs, after.cache.host))
  {
  }

  lemma NotSwapped(s: State, id: SeqId)
    requires Listed(s) && id !in s.swapped
    ensures id !in s.cache.host
  {
  }

  lemma CachedLength(m: Model, c: Cache, hist: map<SeqId, seq<Token>>, id: SeqId)
    requires Faithful(m, c, hist) && id in hist
    ensures id in c.seqs && c.seqs[id].len == |hist[id]|
  {
  }

  lemma FirstTokenRequest(m: Model, cfg: Config, r: Request, st: SeqState, info: map<Block, BlockInfo>, B: nat)
    requires OnTrack(m, r) && r.output == [] && r.status != Finished && st.len == |r.prompt| && B >= 1
    requires |st.table| == BlocksFor(B, |r.prompt|) && PrivateFrom(info, st.table, |r.prompt| / B)
    ensures
      var r' := FirstToken(r, Next(m, r.prompt));
      && OnTrack(m, r') && Resident(cfg, r', st, info, B, false)
      && Prefix(History(r'), st.len) == r.prompt && r'.status in {Running, Finished}
  {
    StatusOnTrack(m, r, Running);
    assert History(r.(status := Running)) == r.prompt;
    AppendOnTrack(m, r.(status := Running), Next(m, r.prompt));
  }

  lemma FirstTokenOthers(m: Model, cfg: Config, s: State, id: SeqId, after: State)
    requires AllResident(cfg, s, {}) && OthersPrivate(s.cache, id, after.cache)
    requires id in after.reqs && after.reqs == s.reqs[id := after.reqs[id]]
    requires id in after.cache.seqs && after.cache.seqs == s.cache.seqs[id := after.cache.seqs[id]]
    requires after.cache.blockSize == s.cache.blockSize
    requires forall x | x in after.running :: x in s.running || x == id
    requires Resident(cfg, after.reqs[id], after.cache.seqs[id], after.cache.info, after.cache.blockSize, false)
    ensures AllResident(cfg, after, {})
  {
    hide PrivateFrom, BlocksFor;
    forall x | x in after.running && x in after.reqs && x in after.cache.seqs && x != id
      ensures Resident(cfg, after.reqs[x], after.cache.seqs[x], after.cache.info, after.cache.blockSize, false)
    {
      assert Resident(cfg, s.reqs[x], s.cache.seqs[x], s.cache.info, s.cache.blockSize, false);
    }
  }

  // ---- unchunked admission ----

  /** Admits the head of the queue, running its whole prompt; false is a raised out-of-memory error. */
  function AdmitOne(m: Model, cfg: Config, s: State): (State, bool)
    requires Inv(m, cfg, s, {}) && s.waiting != []
  {
    var id := s.waiting[0];
    var r := s.reqs[id];
    assert OnTrack(m, r);
    var (c, predictions) := PrefillWithPrefixReuse(m, s.cache, id, r.prompt);
    if predictions.None? then (s.(cache := c), false)
    else
      var t := predictions.value[|predictions.value| - 1];
      (State(s.reqs[id := FirstToken(r, t)], s.waiting[1..], s.running + [id], s.swapped, c), true)
  }

  /** The head of the queue could fill up completely within the free blocks. */
  ghost predicate WaitingFits(s: State) {
    && s.waiting != [] && s.waiting[0] in s.reqs && s.cache.blockSize >= 1
    && BlocksFor(s.cache.blockSize, TotalLenEstimate(s.reqs[s.waiting[0]])) <= |s.cache.free|
  }

  /** What a prompt matches is right. */
  lemma MatchAgrees(m: Model, s: State, prompt: seq<Token>)
    requires CacheOk(m, s)
    ensures Wf(s.cache) && HoldersAgree(s.cache, Hist(s.reqs, s.cache.seqs), prompt, MatchPrefix(s.cache, prompt))
  {
    hide Faithful, HostFaithful, InjectiveHash, HoldersAgree;
    if s.cache.prefixCaching {
      InjectiveAgrees(m, s.cache, Hist(s.reqs, s.cache.seqs), prompt);
    } else {
      NothingMatched(s.cache, Hist(s.reqs, s.cache.seqs), prompt);
    }
  }

  /** When the head of the queue passes the admission test, its own prefill cannot run out of
      blocks, and the request joins the running list with its first greedy token. */
  lemma AdmitOneKeeps(m: Model, cfg: Config, s: State)
    requires Inv(m, cfg, s, {}) && cfg.budget.None? && WaitingFits(s)
    ensures AdmitOne(m, cfg, s).1 && Inv(m, cfg, AdmitOne(m, cfg, s).0, {})
  {
    hide Counted, FreeExact, SharedIndexed, TablesDistinct, Faithful, HostFaithful, OnTrack, PromptCached, PrefillWithPrefixReuse;
    hide CreateForPrompt, Next, Resident, InjectiveHash, HoldersAgree, Wf, NoDup, BlocksFor;
    var id := s.waiting[0];
    var r := s.reqs[id];
    WaitingHead(m, cfg, s);
    BlocksForMonotone(s.cache.blockSize, |r.prompt|, TotalLenEstimate(r));
    MatchAgrees(m, s, r.prompt);
    PrefillKeeps(m, s.cache, Hist(s.reqs, s.cache.seqs), id, r.prompt);
    var after := AdmitOne(m, cfg, s).0;
    FirstTokenKeeps(m, cfg, s, id, after);
    PromptCachedFrame(m, s.cache, Hist(s.reqs, s.cache.seqs), id, r.prompt, after.cache);
    AdmitLists(m, cfg, s, after);
  }

  lemma PromptCachedFrame(m: Model, c: Cache, hist: map<SeqId, seq<Token>>, id: SeqId, prompt: seq<Token>, after: Cache)
    requires PromptCached(m, c, hist, id, prompt, after)
    ensures after.seqs.Keys == c.seqs.Keys + {id} && after.host == c.host
  {
    hide Sound, Faithful, OthersPrivate;
  }

  lemma WaitingHead(m: Model, cfg: Config, s: State)
    requires Inv(m, cfg, s, {}) && s.waiting != []
    ensures var id := s.waiting[0];
            && id in s.reqs && s.reqs[id].status == Waiting && s.reqs[id].output == []
            && id !in s.running && id !in s.swapped && id !in s.waiting[1..] && id !in s.cache.seqs && id !in s.cache.host
            && s.reqs[id].prompt != [] && s.cache.blockSize >= 1
  {
    hide Faithful, HostFaithful, Resident, Counted, FreeExact, SharedIndexed, TablesDistinct;
    var id := s.waiting[0];
    assert s.waiting == [id] + s.waiting[1..];
    assert OnTrack(m, s.reqs[id]);
  }

  lemma AdmitLists(m: Model, cfg: Config, s: State, after: State)
    requires Listed(s) && s.waiting != [] && s.waiting[0] !in s.running && s.waiting[0] !in s.waiting[1..]
    requires OnePrefilling(cfg, s.reqs, s.running) && s.waiting[0] in after.reqs
    requires after.reqs == s.reqs[s.waiting[0] := after.reqs[s.waiting[0]]]
    requires after.waiting == s.waiting[1..] && after.running == s.running + [s.waiting[0]] && after.swapped == s.swapped
    requires after.reqs[s.waiting[0]].status in {Running, Finished}
             || (after.reqs[s.waiting[0]].status == Prefilling && cfg.budget.Some?
                 && forall x | x in s.running :: s.reqs[x].status != Prefilling)
    requires after.cache.seqs.Keys == s.cache.seqs.Keys + {s.waiting[0]} && after.cache.host == s.cache.host
    ensures Listed(after) && OnePrefilling(cfg, after.reqs, after.running)
  {
    var id := s.waiting[0];
    assert s.waiting == [id] + s.waiting[1..];
  }

  // ---- chunked prefill ----

  ghost predicate NonePrefilling(s: State) {
    forall x | x in s.running && x in s.reqs :: s.reqs[x].status != Prefilling
  }

  /** Moves the head of the queue to the running list, with whatever prefix is already cached. */
  function StartChunked(m: Model, cfg: Config, s: State): State
    requires Inv(m, cfg, s, {}) && s.waiting != []
  {
    var id := s.waiting[0];
    var r := s.reqs[id].(status := Prefilling);
    State(s.reqs[id := r], s.waiting[1..], s.running + [id], s.swapped, CreateForPrompt(s.cache, id, r.prompt))
  }

  lemma StartChunkedKeeps(m: Model, cfg: Config, s: State)
    requires Inv(m, cfg, s, {}) && s.waiting != [] && cfg.budget.Some? && NonePrefilling(s)
    ensures Inv(m, cfg, StartChunked(m, cfg, s), {})
    ensures var id := s.waiting[0];
            id in s.reqs && StartChunked(m, cfg, s).reqs == s.reqs[id := s.reqs[id].(status := Prefilling)]
  {
    hide Counted, FreeExact, SharedIndexed, TablesDistinct, Faithful, HostFaithful, OnTrack, CreateForPrompt;
    hide Resident, InjectiveHash, HoldersAgree, Wf, NoDup, BlocksFor, Created;
    var id := s.waiting[0];
    var r := s.reqs[id].(status := Prefilling);
    WaitingHead(m, cfg, s);
    StatusOnTrack(m, s.reqs[id], Prefilling);
    MatchAgrees(m, s, r.prompt);
    CreateForPromptKeeps(m, s.cache, Hist(s.reqs, s.cache.seqs), id, r.prompt);
    var after := StartChunked(m, cfg, s);
    CreatedCache(m, cfg, s, id, after);
    AdmitLists(m, cfg, s, after);
  }

  lemma CreatedCache(m: Model, cfg: Config, s: State, id: SeqId, after: State)
    requires CacheOk(m, s) && AllResident(cfg, s, {}) && id in s.reqs && id !in s.cache.seqs && id !in s.cache.host
    requires s.reqs[id].output == [] && s.reqs[id].prompt != []
    requires Created(m, s.cache, Hist(s.reqs, s.cache.seqs), id, s.reqs[id].prompt, after.cache)
    requires after.reqs == s.reqs[id := s.reqs[id].(status := Prefilling)]
    requires forall x | x in after.running :: x in s.running || x == id
    ensures CacheOk(m, after) && AllResident(cfg, after, {})
    ensures after.cache.seqs.Keys == s.cache.seqs.Keys + {id} && after.cache.host == s.cache.host
  {
    hide Sound, Faithful, HostFaithful, PrivateFrom, InjectiveHash;
    var r, st := after.reqs[id], after.cache.seqs[id];
    assert History(r) == r.prompt;
    HistUpdate(s.reqs, s.cache.seqs, id, r, st);
    SavedElsewhere(s.reqs, s.cache.host, id, r);
    BlocksForAtLeast(s.cache.blockSize, |r.prompt|, |st.table|);
    hide BlocksFor;
    forall x | x in after.running && x in after.reqs && x in after.cache.seqs && x != id
      ensures Resident(cfg, after.reqs[x], after.cache.seqs[x], after.cache.info, after.cache.blockSize, false)
    {
      assert Resident(cfg, s.reqs[x], s.cache.seqs[x], s.cache.info, s.cache.blockSize, false);
    }
  }

  /** The result of one chunk: what is left of the budget, whether the prompt is complete, and
      false for a raised out-of-memory error. */
  datatype ChunkResult = ChunkResult(state: State, budget: nat, done: bool, ok: bool)

  /** Runs up to `budget` more prompt tokens of an in-flight request. */
  function PrefillChunk(m: Model, cfg: Config, s: State, id: SeqId, budget: nat): ChunkResult
    requires Inv(m, cfg, s, {}) && id in s.running && s.reqs[id].status == Prefilling
  {
    PrefillingFacts(m, cfg, s, id);
    var r, start := s.reqs[id], s.cache.seqs[id].len;
    var n := if budget <= |r.prompt| - start then budget else |r.prompt| - start;
    var (c, predictions) := ContinuePrefill(m, s.cache, id, r.prompt[start..start + n]);
    if predictions.None? then ChunkResult(s.(cache := c), budget, false, false)
    else if start + n < |r.prompt| then ChunkResult(s.(cache := c), budget - n, false, true)
    else
      assert WfSeq(c, c.seqs[id]);
      WholeBlocksFit(|r.prompt|, c.blockSize, |c.seqs[id].table|);
      var t := predictions.value[|predictions.value| - 1];
      ChunkResult(s.(reqs := s.reqs[id := FirstToken(r, t)], cache := RegisterPrefixBlocks(c, id, r.prompt)),
                  budget - n, true, true)
  }

  lemma PrefillingFacts(m: Model, cfg: Config, s: State, id: SeqId)
    requires Inv(m, cfg, s, {}) && id in s.running && s.reqs[id].status == Prefilling
    ensures id in s.reqs && id in s.cache.seqs && s.cache.blockSize >= 1
    ensures var r, st, B := s.reqs[id], s.cache.seqs[id], s.cache.blockSize;
            && r.output == [] && st.len < |r.prompt| && PrivateFrom(s.cache.info, st.table, st.len / B)
            && |st.table| <= BlocksFor(B, |r.prompt|)
            && Hist(s.reqs, s.cache.seqs)[id] == r.prompt[..st.len]
            && id !in s.swapped && id !in s.waiting && r.prompt != []
  {
    hide Sound, Faithful, HostFaithful, OnTrack;
    assert Resident(cfg, s.reqs[id], s.cache.seqs[id], s.cache.info, s.cache.blockSize, false);
    assert History(s.reqs[id]) == s.reqs[id].prompt;
  }

  /** A chunk advances an in-flight prompt by min(budget, what is left), keeps the invariant even
      when it raises, and completes with the request's first greedy token. */
  lemma PrefillChunkKeeps(m: Model, cfg: Config, s: State, id: SeqId, budget: nat)
    requires Inv(m, cfg, s, {}) && id in s.running && s.reqs[id].status == Prefilling
    ensures ChunkOutcome(m, cfg, s, id, budget, PrefillChunk(m, cfg, s, id, budget))
  {
    hide Counted, FreeExact, SharedIndexed, TablesDistinct, Faithful, HostFaithful, OnTrack, ContinuePrefill, RegisterPrefixBlocks;
    hide Resident, InjectiveHash, Wf, NoDup, BlocksFor, PrivateFrom, Next, Listed, OnePrefilling, Passed, PromptCached, AllSaved;
    PrefillingFacts(m, cfg, s, id);
    var r, start := s.reqs[id], s.cache.seqs[id].len;
    var n := if budget <= |r.prompt| - start then budget else |r.prompt| - start;
    var chunk := r.prompt[start..start + n];
    ContinuePrefillKeeps(m, s.cache, Hist(s.reqs, s.cache.seqs), id, chunk);
    var p := ContinuePrefill(m, s.cache, id, chunk);
    PassedLength(m, s.cache, Hist(s.reqs, s.cache.seqs), id, chunk, p);
    if p.1.None? || start + n < |r.prompt| {
      ChunkPartialKeeps(m, cfg, s, id, chunk, p);
    } else {
      assert chunk == r.prompt[start..];
      ChunkCompleteKeeps(m, cfg, s, id, p);
    }
    hide Inv;
  }

  lemma ChunkPartialKeeps(m: Model, cfg: Config, s: State, id: SeqId, chunk: seq<Token>, p: (Cache, Option<seq<Token>>))
    requires Inv(m, cfg, s, {}) && id in s.running && id in s.reqs && id in s.cache.seqs
    requires s.reqs[id].status == Prefilling && Passed(m, s.cache, Hist(s.reqs, s.cache.seqs), id, chunk, p)
    requires p.0 == s.cache.(free := p.0.free, refs := p.0.refs, store := p.0.store, seqs := s.cache.seqs[id := p.0.seqs[id]])
    requires s.cache.seqs[id].len + |chunk| < |s.reqs[id].prompt|
             || (p.1.None? && s.cache.seqs[id].len + |chunk| <= |s.reqs[id].prompt|)
    requires chunk == s.reqs[id].prompt[s.cache.seqs[id].len..s.cache.seqs[id].len + |chunk|]
    ensures Inv(m, cfg, s.(cache := p.0), {})
  {
    hide Sound, Faithful, HostFaithful, OnTrack, Resident, Passed, InjectiveHash;
    ChunkPartial(m, cfg, s, id, chunk, p);
  }

  lemma ChunkCompleteKeeps(m: Model, cfg: Config, s: State, id: SeqId, p: (Cache, Option<seq<Token>>))
    requires Inv(m, cfg, s, {}) && id in s.running && s.reqs[id].status == Prefilling && id in s.cache.seqs
    requires s.cache.seqs[id].len <= |s.reqs[id].prompt|
    requires Passed(m, s.cache, Hist(s.reqs, s.cache.seqs), id, s.reqs[id].prompt[s.cache.seqs[id].len..], p) && p.1.Some?
    requires p.0 == s.cache.(free := p.0.free, refs := p.0.refs, store := p.0.store, seqs := s.cache.seqs[id := p.0.seqs[id]])
    requires |p.0.refs| == |s.cache.refs| && Wf(p.0)
    ensures p.1.value != [] && p.1.value[|p.1.value| - 1] == Next(m, s.reqs[id].prompt)
    ensures |s.reqs[id].prompt| / s.cache.blockSize <= |p.0.seqs[id].table|
    ensures
      var r := s.reqs[id];
      Inv(m, cfg, s.(reqs := s.reqs[id := FirstToken(r, Next(m, r.prompt))], cache := RegisterPrefixBlocks(p.0, id, r.prompt)), {})
  {
    hide Counted, FreeExact, SharedIndexed, TablesDistinct, Faithful, HostFaithful, OnTrack, RegisterPrefixBlocks, InjectiveHash;
    hide Wf, NoDup, BlocksFor, PrivateFrom, Next, Listed, AllSaved, OnePrefilling, Hist, Resident, Passed, PromptCached, AllResident;
    PrefillingFacts(m, cfg, s, id);
    var r := s.reqs[id];
    ChunkComplete(m, cfg, s, id, p);
    var after := s.(reqs := s.reqs[id := FirstToken(r, Next(m, r.prompt))], cache := RegisterPrefixBlocks(p.0, id, r.prompt));
    FirstTokenKeeps(m, cfg, s, id, after);
    ChunkLists(m, cfg, s, after);
  }

  ghost predicate ChunkOutcome(m: Model, cfg: Config, s: State, id: SeqId, budget: nat, out: ChunkResult) {
    && Inv(m, cfg, out.state, {})
    && id in s.reqs && id in s.cache.seqs && id in out.state.cache.seqs && id in out.state.reqs
    && out.state.running == s.running && out.state.waiting == s.waiting && out.state.swapped == s.swapped
    && out.state.reqs == s.reqs[id := out.state.reqs[id]]
    && var left := |s.reqs[id].prompt| - s.cache.seqs[id].len;
    && left > 0
    && (out.ok ==>
          && budget - out.budget == (if budget <= left then budget else left)
          && out.state.cache.seqs[id].len == s.cache.seqs[id].len + (budget - out.budget)
          && (out.done <==> budget >= left))
    && (!out.ok ==> !out.done && out.budget == budget)
    && (if out.done then out.state.reqs[id] == FirstToken(s.reqs[id], Next(m, s.reqs[id].prompt))
        else out.state.reqs == s.reqs)
  }

  lemma ChunkLists(m: Model, cfg: Config, s: State, after: State)
    requires Listed(s) && OnePrefilling(cfg, s.reqs, s.running)
    requires after == s.(reqs := after.reqs, cache := after.cache) && after.reqs.Keys == s.reqs.Keys
    requires forall x | x in s.reqs :: after.reqs[x] == s.reqs[x]
               || (x in s.running && x !in s.waiting && x !in s.swapped && after.reqs[x].status in {Running, Finished})
    requires after.cache.seqs.Keys == s.cache.seqs.Keys && after.cache.host == s.cache.host
    ensures Listed(after) && OnePrefilling(cfg, after.reqs, after.running)
  {
  }

  lemma ChunkPartial(m: Model, cfg: Config, s: State, id: SeqId, chunk: seq<Token>, p: (Cache, Option<seq<Token>>))
    requires CacheOk(m, s) && AllResident(cfg, s, {}) && id in s.running && id in s.reqs && id in s.cache.seqs
    requires s.reqs[id].status == Prefilling && Passed(m, s.cache, Hist(s.reqs, s.cache.seqs), id, chunk, p)
    requires p.0 == s.cache.(free := p.0.free, refs := p.0.refs, store := p.0.store, seqs := s.cache.seqs[id := p.0.seqs[id]])
    requires s.cache.seqs[id].len + |chunk| < |s.reqs[id].prompt|
             || (p.1.None? && s.cache.seqs[id].len + |chunk| <= |s.reqs[id].prompt|)
    requires chunk == s.reqs[id].prompt[s.cache.seqs[id].len..s.cache.seqs[id].len + |chunk|]
    ensures CacheOk(m, s.(cache := p.0)) && AllResident(cfg, s.(cache := p.0), {})
  {
    hide Sound, Faithful, HostFaithful, InjectiveHash, PredictsNext, PrivateFrom, BlocksFor, Hist;
    var r, st, st' := s.reqs[id], s.cache.seqs[id], p.0.seqs[id];
    assert Resident(cfg, r, st, s.cache.info, s.cache.blockSize, false);
    assert History(r) == r.prompt;
    ChunkHist(s.reqs, s.cache.seqs, id, p.0.seqs[id]);
    PassedLength(m, s.cache, Hist(s.reqs, s.cache.seqs), id, chunk, p);
    if p.1.Some? {
      assert r.prompt[..st.len] + chunk == r.prompt[..st'.len];
      BlocksForMonotone(s.cache.blockSize, st.len + |chunk|, |r.prompt|);
      DivMonotone(st.len, st'.len, s.cache.blockSize);
      PrivateLater(p.0.info, st'.table, st.len / s.cache.blockSize, st'.len / s.cache.blockSize);
    } else {
      BlocksForMonotone(s.cache.blockSize, st.len + |chunk|, |r.prompt|);
      assert Hist(s.reqs, p.0.seqs) == Hist(s.reqs, s.cache.seqs);
    }
    assert Resident(cfg, r, st', p.0.info, p.0.blockSize, false);
    OthersAfterPass(cfg, s, id, p.0);
  }

  lemma ChunkHist(reqs: map<SeqId, Request>, seqs: map<SeqId, SeqState>, id: SeqId, st: SeqState)
    requires id in reqs && id in seqs
    ensures Hist(reqs, seqs)[id] == Prefix(History(reqs[id]), seqs[id].len)
    ensures Hist(reqs, seqs[id := st]) == Hist(reqs, seqs)[id := Prefix(History(reqs[id]), st.len)]
    ensures st.len == seqs[id].len ==> Hist(reqs, seqs[id := st]) == Hist(reqs, seqs)
  {
  }

  /** How long a sequence is after a pass. */
  lemma PassedLength(m: Model, c: Cache, hist: map<SeqId, seq<Token>>, id: SeqId, chunk: seq<Token>, p: (Cache, Option<seq<Token>>))
    requires Passed(m, c, hist, id, chunk, p)
    ensures p.0.seqs[id].len == |hist[id]| + (if p.1.Some? then |chunk| else 0)
  {
    hide Sound;
  }

  lemma OthersAfterPass(cfg: Config, s: State, id: SeqId, c: Cache)
    requires AllResident(cfg, s, {}) && id in s.reqs && id in s.cache.seqs && id in c.seqs && PrivacyKept(s.cache, c)
    requires c == s.cache.(free := c.free, refs := c.refs, store := c.store, seqs := s.cache.seqs[id := c.seqs[id]])
    requires Resident(cfg, s.reqs[id], c.seqs[id], c.info, c.blockSize, false)
    ensures AllResident(cfg, s.(cache := c), {})
  {
    hide PrivateFrom, BlocksFor;
    forall x | x in s.running && x in s.reqs && x in c.seqs && x != id
      ensures Resident(cfg, s.reqs[x], c.seqs[x], c.info, c.blockSize, false)
    {
      assert Resident(cfg, s.reqs[x], s.cache.seqs[x], s.cache.info, s.cache.blockSize, false);
    }
  }

  lemma ChunkComplete(m: Model, cfg: Config, s: State, id: SeqId, p: (Cache, Option<seq<Token>>))
    requires Inv(m, cfg, s, {}) && id in s.running && s.reqs[id].status == Prefilling && id in s.cache.seqs
    requires s.cache.seqs[id].len <= |s.reqs[id].prompt|
    requires Passed(m, s.cache, Hist(s.reqs, s.cache.seqs), id, s.reqs[id].prompt[s.cache.seqs[id].len..], p) && p.1.Some?
    requires p.0 == s.cache.(free := p.0.free, refs := p.0.refs, store := p.0.store, seqs := s.cache.seqs[id := p.0.seqs[id]])
    requires |p.0.refs| == |s.cache.refs| && Wf(p.0)
    ensures p.1.value != [] && p.1.value[|p.1.value| - 1] == Next(m, s.reqs[id].prompt)
    ensures |s.reqs[id].prompt| / s.cache.blockSize <= |p.0.seqs[id].table|
    ensures PromptCached(m, s.cache, Hist(s.reqs, s.cache.seqs), id, s.reqs[id].prompt,
                         RegisterPrefixBlocks(p.0, id, s.reqs[id].prompt))
  {
    hide Counted, FreeExact, SharedIndexed, TablesDistinct, Faithful, HostFaithful, OnTrack, RegisterPrefixBlocks, InjectiveHash;
    hide Wf, NoDup, BlocksFor, PrivateFrom, Next, Listed, AllSaved, OnePrefilling, Hist, Resident;
    PrefillingFacts(m, cfg, s, id);
    var r, st, hist := s.reqs[id], s.cache.seqs[id], Hist(s.reqs, s.cache.seqs);
    var rest := r.prompt[st.len..];
    assert hist[id] + rest == r.prompt;
    assert rest[..|rest|] == rest;
    FinishFaithful(m, p.0, hist[id := r.prompt], id, r.prompt);
    DivMonotone(st.len, |r.prompt|, s.cache.blockSize);
    PrivateLater(s.cache.info, st.table, st.len / s.cache.blockSize, |r.prompt| / s.cache.blockSize);
    hide Sound, CacheOk;
    RegisterKeeps(m, p.0, hist[id := r.prompt], id);
  }
}
