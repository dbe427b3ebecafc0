/** Preemption, the batched decode with its out-of-memory retry loop, and speculation. */
module SchedulerDecode {
  import opened LanguageModel
  import opened Options
  import opened Positions
  import opened PagedKvCache
  import opened CacheInvariant
  import opened CacheOperations
  import opened SwapToHost
  import opened ModelRunner
  import opened BatchedDecode
  import opened Requests
  import opened SchedulerState
  import opened SchedulerSteps

  // ---- preemption ----

  /** Takes a running request off the device: to the host with its progress, or back to the front
      of the queue without it. */
  function Preempt(cfg: Config, s: State, id: SeqId): State
    requires Wf(s.cache) && id in s.reqs && id in s.cache.seqs
  {
    var r := s.reqs[id];
    if cfg.swap then
      State(s.reqs[id := r.(status := Swapped)], s.waiting, Remove(s.running, id), [id] + s.swapped, SwapOut(s.cache, id))
    else
      State(s.reqs[id := r.(output := [], status := Waiting)], [id] + s.waiting, Remove(s.running, id), s.swapped,
            FreeSequence(s.cache, id))
  }

  /** A request taken off the device. */
  function Evicted(cfg: Config, r: Request): Request {
    if cfg.swap then r.(status := Swapped) else r.(output := [], status := Waiting)
  }

  lemma PreemptKeeps(m: Model, cfg: Config, s: State, id: SeqId, loose: set<SeqId>)
    requires Inv(m, cfg, s, loose) && id in s.running && s.reqs[id].status == Running && id !in loose
    ensures id in s.cache.seqs && Inv(m, cfg, Preempt(cfg, s, id), loose)
  {
    if cfg.swap {
      SwapPreemptKeeps(m, cfg, s, id, loose);
    } else {
      DropKeeps(m, cfg, s, id, loose);
      RequeueKeeps(m, cfg, s.(cache := FreeSequence(s.cache, id), running := Remove(s.running, id)), id, loose);
    }
  }

  lemma RequeueKeeps(m: Model, cfg: Config, s: State, id: SeqId, loose: set<SeqId>)
    requires Inv(m, cfg, s, loose) && id in s.reqs && id !in s.running && id !in s.swapped && id !in s.waiting
    ensures Inv(m, cfg, s.(reqs := s.reqs[id := s.reqs[id].(output := [], status := Waiting)], waiting := [id] + s.waiting), loose)
  {
    hide Sound, Faithful, HostFaithful, Resident, OnTrack;
    var r := s.reqs[id].(output := [], status := Waiting);
    RequestPrompt(m, s.reqs[id]);
    FreshOnTrack(m, r);
    HistElsewhere(s.reqs, s.cache.seqs, id, r);
    SavedElsewhere(s.reqs, s.cache.host, id, r);
  }

  lemma RequestPrompt(m: Model, r: Request)
    requires OnTrack(m, r)
    ensures r.prompt != []
  {
  }

  lemma SwapPreemptKeeps(m: Model, cfg: Config, s: State, id: SeqId, loose: set<SeqId>)
    requires Inv(m, cfg, s, loose) && id in s.running && s.reqs[id].status == Running && id !in loose && cfg.swap
    ensures id in s.cache.seqs && Inv(m, cfg, Preempt(cfg, s, id), loose)
  {
    hide Counted, FreeExact, SharedIndexed, TablesDistinct, Faithful, HostHolds, OnTrack, SwapOut, Wf, PrivateFrom;
    var r, st := s.reqs[id].(status := Swapped), s.cache.seqs[id];
    var after := Preempt(cfg, s, id);
    assert Resident(cfg, s.reqs[id], st, s.cache.info, s.cache.blockSize, false);
    hide Resident, BlocksFor;
    StatusOnTrack(m, s.reqs[id], Swapped);
    SwapPreemptCache(m, cfg, s, id, loose, after);
    SwapPreemptLists(cfg, s, id, after);
  }

  lemma SwapPreemptLists(cfg: Config, s: State, id: SeqId, after: State)
    requires Listed(s) && OnePrefilling(cfg, s.reqs, s.running) && id in s.running && id in s.reqs
    requires after.reqs == s.reqs[id := s.reqs[id].(status := Swapped)] && after.waiting == s.waiting
    requires after.running == Remove(s.running, id) && after.swapped == [id] + s.swapped
    requires after.cache.seqs == s.cache.seqs - {id} && after.cache.host.Keys == s.cache.host.Keys + {id}
    ensures Listed(after) && OnePrefilling(cfg, after.reqs, after.running)
  {
    hide Remove;
    RemoveDistinct(s.running, id);
  }

  lemma SwapPreemptCache(m: Model, cfg: Config, s: State, id: SeqId, loose: set<SeqId>, after: State)
    requires CacheOk(m, s) && Listed(s) && AllResident(cfg, s, loose) && AllSaved(s)
    requires id in s.running && id in s.cache.seqs && id in s.reqs && s.cache.blockSize >= 1 && Wf(s.cache)
    requires s.reqs[id].output != [] && s.cache.seqs[id].len == |History(s.reqs[id])| - 1 && Tight(s.cache, id)
    requires after.reqs == s.reqs[id := s.reqs[id].(status := Swapped)] && after.swapped == [id] + s.swapped
    requires after.running == Remove(s.running, id) && after.cache == SwapOut(s.cache, id)
    ensures CacheOk(m, after) && AllResident(cfg, after, loose) && AllSaved(after)
  {
    hide Counted, FreeExact, SharedIndexed, TablesDistinct, Faithful, SwapOut, Wf, PrivateFrom, Resident, BlocksFor, Remove, HostFaithful;
    var r, st := s.reqs[id].(status := Swapped), s.cache.seqs[id];
    ChunkHist(s.reqs, s.cache.seqs, id, st);
    SwapOutKeeps(m, s.cache, Hist(s.reqs, s.cache.seqs), Saved(s.reqs, s.cache.host), id);
    HistRemove(s.reqs, s.cache.seqs, id);
    HistElsewhere(s.reqs, s.cache.seqs - {id}, id, r);
    SavedUpdate(s.reqs, s.cache.host, id, r, after.cache.host[id]);
    RemoveDistinct(s.running, id);
    SwapPreemptResident(cfg, s, id, loose, after);
  }

  lemma SwapPreemptResident(cfg: Config, s: State, id: SeqId, loose: set<SeqId>, after: State)
    requires AllResident(cfg, s, loose) && id in s.reqs && id in after.reqs
    requires after.reqs == s.reqs[id := after.reqs[id]] && after.cache.blockSize == s.cache.blockSize
    requires after.cache.info.Items <= s.cache.info.Items && after.cache.seqs == s.cache.seqs - {id}
    requires forall x | x in after.running :: x in s.running
    ensures AllResident(cfg, after, loose)
  {
    hide BlocksFor;
    assert forall b | b in after.cache.info :: (b, after.cache.info[b]) in after.cache.info.Items;
    forall x | x in after.running && x in after.reqs && x in after.cache.seqs
      ensures Resident(cfg, after.reqs[x], after.cache.seqs[x], after.cache.info, after.cache.blockSize, x in loose)
    {
      assert Resident(cfg, s.reqs[x], s.cache.seqs[x], s.cache.info, s.cache.blockSize, x in loose);
    }
  }

  // ---- one batched decode attempt ----

  /** The batch: distinct running requests. */
  ghost predicate Active(s: State, ids: seq<SeqId>) {
    && NoDup(ids)
    && (forall i | 0 <= i < |ids| :: ids[i] in s.running && ids[i] in s.reqs && s.reqs[ids[i]].status == Running)
  }

  function LastTokens(reqs: map<SeqId, Request>, ids: seq<SeqId>): (r: seq<Token>)
    requires forall i | 0 <= i < |ids| :: ids[i] in reqs && reqs[ids[i]].prompt != []
    ensures |r| == |ids|
  {
    seq(|ids|, i requires 0 <= i < |ids| => LastToken(reqs[ids[i]]))
  }

  function AppendAll(reqs: map<SeqId, Request>, ids: seq<SeqId>, tokens: seq<Token>): (r: map<SeqId, Request>)
    requires |ids| == |tokens| && forall i | 0 <= i < |ids| :: ids[i] in reqs
    ensures r.Keys == reqs.Keys
    decreases |ids|
  {
    if ids == [] then reqs
    else
      var n := |ids| - 1;
      var before := AppendAll(reqs, ids[..n], tokens[..n]);
      before[ids[n] := AppendToken(before[ids[n]], tokens[n])]
  }

  lemma {:induction false} AppendAllAt(reqs: map<SeqId, Request>, ids: seq<SeqId>, tokens: seq<Token>)
    requires |ids| == |tokens| && NoDup(ids) && forall i | 0 <= i < |ids| :: ids[i] in reqs
    ensures forall x | x in reqs && x !in ids :: AppendAll(reqs, ids, tokens)[x] == reqs[x]
    ensures forall i | 0 <= i < |ids| :: AppendAll(reqs, ids, tokens)[ids[i]] == AppendToken(reqs[ids[i]], tokens[i])
    decreases |ids|
  {
    if ids != [] {
      var n := |ids| - 1;
      AppendAllAt(reqs, ids[..n], tokens[..n]);
      assert ids[n] !in ids[..n];
    }
  }

  /** What the invariant says about one running request. */
  ghost predicate RunningRow(m: Model, cfg: Config, s: State, id: SeqId, loose: bool) {
    && id in s.reqs && id in s.cache.seqs && s.cache.blockSize >= 1
    && id !in s.waiting && id !in s.swapped
    && OnTrack(m, s.reqs[id])
    && RowReady(s.cache, Hist(s.reqs, s.cache.seqs), id)
    && RunningParts(cfg, s.reqs[id], s.cache.seqs[id], s.cache.info, s.cache.blockSize, loose, Hist(s.reqs, s.cache.seqs)[id])
  }

  ghost predicate RunningParts(cfg: Config, r: Request, st: SeqState, info: map<Block, BlockInfo>, B: nat, loose: bool, cached: seq<Token>) {
    && B >= 1 && r.prompt != [] && r.output != [] && st.len == |History(r)| - 1
    && Resident(cfg, r, st, info, B, loose)
    && cached == History(r)[..st.len] && cached + [LastToken(r)] == History(r)
    && PrivateFrom(info, st.table, |r.prompt| / B) && PrivateFrom(info, st.table, st.len / B)
  }

  lemma RunningFacts(m: Model, cfg: Config, s: State, id: SeqId, loose: set<SeqId>)
    requires Inv(m, cfg, s, loose) && id in s.running && s.reqs[id].status == Running
    ensures RunningRow(m, cfg, s, id, id in loose)
  {
    hide Sound, Faithful, HostFaithful, BlocksFor, PrivateFrom, Resident, OnTrack, RunningParts;
    var r, st, B := s.reqs[id], s.cache.seqs[id], s.cache.blockSize;
    RunningFactsAt(m, cfg, r, st, s.cache.info, B, id in loose, Hist(s.reqs, s.cache.seqs)[id]);
  }

  lemma RunningFactsAt(m: Model, cfg: Config, r: Request, st: SeqState, info: map<Block, BlockInfo>, B: nat, loose: bool, cached: seq<Token>)
    requires OnTrack(m, r) && r.status == Running && Resident(cfg, r, st, info, B, loose)
    requires cached == Prefix(History(r), st.len)
    ensures RunningParts(cfg, r, st, info, B, loose, cached) && |cached| == st.len
    ensures B >= 1 && PrivateFrom(info, st.table, st.len / B)
  {
    hide PrivateFrom, BlocksFor;
    DivMonotone(|r.prompt|, st.len, B);
    PrivateLater(info, st.table, |r.prompt| / B, st.len / B);
    assert History(r)[..st.len] + [LastToken(r)] == History(r);
  }

  /** The retry loop's state: a prefix of the batch has its next block reserved, all else as usual. */
  ghost predicate Retrying(m: Model, cfg: Config, s: State, ids: seq<SeqId>) {
    && Active(s, ids)
    && exists j: nat | j <= |ids| :: Inv(m, cfg, s, Ids(ids[..j]))
  }

  lemma ActiveReady(m: Model, cfg: Config, s: State, ids: seq<SeqId>)
    requires Retrying(m, cfg, s, ids)
    ensures RowsReady(s.cache, Hist(s.reqs, s.cache.seqs), ids) && AllCached(s.cache, ids)
    ensures Sound(s.cache, {}) && Faithful(m, s.cache, Hist(s.reqs, s.cache.seqs))
    ensures forall i | 0 <= i < |ids| :: s.reqs[ids[i]].prompt != []
  {
    hide Sound, Faithful, HostFaithful, OnTrack, Resident;
    var j: nat :| j <= |ids| && Inv(m, cfg, s, Ids(ids[..j]));
    forall i | 0 <= i < |ids|
      ensures ids[i] in s.cache.seqs && RowReady(s.cache, Hist(s.reqs, s.cache.seqs), ids[i]) && s.reqs[ids[i]].prompt != []
    {
      RunningFacts(m, cfg, s, ids[i], Ids(ids[..j]));
    }
  }

  /** Runs the batch once; false is the caught out-of-memory error, after which the rows before
      the failing one keep the block they reserved. */
  function DecodeOnce(m: Model, cfg: Config, s: State, ids: seq<SeqId>): (State, bool)
    requires Retrying(m, cfg, s, ids)
  {
    ActiveReady(m, cfg, s, ids);
    var (c, predictions) := DecodeBatch(m, s.cache, ids, LastTokens(s.reqs, ids));
    match predictions
    case None => (s.(cache := c), false)
    case Some(tokens) => (s.(reqs := AppendAll(s.reqs, ids, tokens), cache := c), true)
  }

  /** The greedy token after a running request's whole history. */
  function NextOf(m: Model, r: Request): Token
    requires r.prompt != []
  {
    Next(m, History(r))
  }

  /** A decode that finds room gives every request of the batch exactly its next greedy token; one
      that does not changes no request, and reserves ahead for a proper prefix of the batch. */
  ghost predicate DecodeOutcome(m: Model, cfg: Config, s: State, ids: seq<SeqId>, out: (State, bool)) {
    var (after, ok) := out;
    if ok then
      && Inv(m, cfg, after, {})
      && after == s.(reqs := after.reqs, cache := after.cache) && after.reqs.Keys == s.reqs.Keys
      && (forall i | 0 <= i < |ids| :: ids[i] in s.reqs && s.reqs[ids[i]].prompt != []
                                       && after.reqs[ids[i]] == AppendToken(s.reqs[ids[i]], NextOf(m, s.reqs[ids[i]])))
      && (forall x | x in s.reqs && x !in ids :: after.reqs[x] == s.reqs[x])
    else
      && after == s.(cache := after.cache)
      && exists k: nat | k < |ids| :: Inv(m, cfg, after, Ids(ids[..k]))
  }

  lemma DecodeOnceKeeps(m: Model, cfg: Config, s: State, ids: seq<SeqId>)
    requires Retrying(m, cfg, s, ids)
    ensures DecodeOutcome(m, cfg, s, ids, DecodeOnce(m, cfg, s, ids))
  {
    hide Counted, FreeExact, SharedIndexed, TablesDistinct, Wf, Faithful, HostFaithful, OnTrack, Resident, DecodeBatch, LastTokens;
    hide AppendAll, NoDup, Listed, OnePrefilling, Decoded, StoppedAt, RowsReady, PrivacyKept;
    var j: nat :| j <= |ids| && Inv(m, cfg, s, Ids(ids[..j]));
    ActiveReady(m, cfg, s, ids);
    var tokens := LastTokens(s.reqs, ids);
    var k := DecodeBatchKeeps(m, s.cache, Hist(s.reqs, s.cache.seqs), ids, tokens);
    var p := DecodeBatch(m, s.cache, ids, tokens);
    if p.1.None? {
      DecodeFailedKeeps(m, cfg, s, ids, j, k, p.0);
    } else {
      DecodedKeeps(m, cfg, s, ids, j, tokens, p.0, p.1.value);
    }
  }

  /** After a failed attempt a longer prefix of the batch is reserved ahead, never a shorter one. */
  lemma DecodeFailedKeeps(m: Model, cfg: Config, s: State, ids: seq<SeqId>, j: nat, k: nat, c: Cache)
    requires Active(s, ids) && j <= |ids| && Inv(m, cfg, s, Ids(ids[..j])) && k < |ids|
    requires StoppedAt(s.cache, ids, (c, false), k) && TablesGrown(s.cache, c) && PrivacyKept(s.cache, c)
    requires Sound(c, {}) && Faithful(m, c, Hist(s.reqs, s.cache.seqs))
    ensures Inv(m, cfg, s.(cache := c), Ids(ids[..k]))
    ensures !cfg.speculate ==> j <= k
  {
    hide Sound, Faithful, HostFaithful, OnTrack, PrivateFrom, BlocksFor, Resident;
    HistSameLengths(s.reqs, s.cache.seqs, c.seqs);
    if !cfg.speculate {
      FailureNeverMovesLeft(m, cfg, s, ids, j, k, c);
    }
    forall x | x in s.running && x in s.reqs && x in c.seqs
      ensures Resident(cfg, s.reqs[x], c.seqs[x], c.info, c.blockSize, x in Ids(ids[..k]))
    {
      ResidentAfterReserve(m, cfg, s, ids, j, k, c, x);
    }
  }

  lemma FailureNeverMovesLeft(m: Model, cfg: Config, s: State, ids: seq<SeqId>, j: nat, k: nat, c: Cache)
    requires Active(s, ids) && j <= |ids| && Inv(m, cfg, s, Ids(ids[..j])) && k < |ids|
    requires StoppedAt(s.cache, ids, (c, false), k) && !cfg.speculate
    ensures j <= k
  {
    hide Sound, Faithful, HostFaithful, OnTrack, PrivateFrom, BlocksFor;
    RunningFacts(m, cfg, s, ids[k], Ids(ids[..j]));
    assert forall i | 0 <= i < j :: ids[i] == ids[..j][i];
  }

  lemma ResidentAfterReserve(m: Model, cfg: Config, s: State, ids: seq<SeqId>, j: nat, k: nat, c: Cache, x: SeqId)
    requires j <= |ids| && k < |ids| && AllResident(cfg, s, Ids(ids[..j])) && Active(s, ids)
    requires StoppedAt(s.cache, ids, (c, false), k) && TablesGrown(s.cache, c) && PrivacyKept(s.cache, c)
    requires !cfg.speculate ==> j <= k
    requires x in s.running && x in s.reqs && x in s.cache.seqs
    ensures Resident(cfg, s.reqs[x], c.seqs[x], c.info, c.blockSize, x in Ids(ids[..k]))
  {
    hide PrivateFrom;
    var st, B := s.cache.seqs[x], s.cache.blockSize;
    assert Resident(cfg, s.reqs[x], st, s.cache.info, B, x in Ids(ids[..j]));
    if x in ids[..k] {
      var i :| 0 <= i < k && ids[..k][i] == x;
      assert ids[i] == x && RowReserved(s.cache, c, ids[i]);
      BlocksForMonotone(B, st.len, st.len + 1);
    } else {
      assert forall i | 0 <= i < j && i < k :: ids[..j][i] == ids[..k][i];
    }
  }

  lemma DecodedKeeps(m: Model, cfg: Config, s: State, ids: seq<SeqId>, j: nat, tokens: seq<Token>, c: Cache, next: seq<Token>)
    requires Active(s, ids) && j <= |ids| && Inv(m, cfg, s, Ids(ids[..j]))
    requires forall i | 0 <= i < |ids| :: s.reqs[ids[i]].prompt != []
    requires tokens == LastTokens(s.reqs, ids) && |next| == |ids|
    requires Decoded(m, s.cache, Hist(s.reqs, s.cache.seqs), ids, tokens, c, next)
    requires c.blockSize == s.cache.blockSize && c.prefixCaching == s.cache.prefixCaching && c.hash == s.cache.hash
    ensures DecodeOutcome(m, cfg, s, ids, (s.(reqs := AppendAll(s.reqs, ids, next), cache := c), true))
  {
    hide Sound, Faithful, HostFaithful, OnTrack, PrivateFrom, BlocksFor, Resident, AppendAll, LastTokens, ExtendAll, Next, InjectiveHash;
    hide NoDup, RunningRow, PrivacyKept;
    var reqs := AppendAll(s.reqs, ids, next);
    var after := s.(reqs := reqs, cache := c);
    AppendAllAt(s.reqs, ids, next);
    DecodedRows(m, cfg, s, ids, j, tokens, c, next);
    DecodedHist(m, cfg, s, ids, j, tokens, c, next);
    DecodedLists(cfg, s, ids, after);
    DecodedSaved(s, after);
  }

  lemma DecodedSaved(s: State, after: State)
    requires Listed(s) && AllSaved(s) && after.reqs.Keys == s.reqs.Keys
    requires after.swapped == s.swapped && after.cache.host == s.cache.host
    requires forall x | x in s.reqs && x !in s.running :: after.reqs[x] == s.reqs[x]
    ensures AllSaved(after) && Saved(after.reqs, after.cache.host) == Saved(s.reqs, s.cache.host)
  {
    assert forall x | x in s.cache.host :: x in s.swapped && x !in s.running;
    assert forall x :: x in after.reqs.Keys <==> x in s.reqs.Keys;
    var a, b := Saved(after.reqs, after.cache.host), Saved(s.reqs, s.cache.host);
    assert forall x :: x in a <==> x in b;
    assert forall x | x in a :: a[x] == b[x];
  }

  lemma DecodedLists(cfg: Config, s: State, ids: seq<SeqId>, after: State)
    requires Listed(s) && OnePrefilling(cfg, s.reqs, s.running) && Active(s, ids)
    requires after == s.(reqs := after.reqs, cache := after.cache) && after.reqs.Keys == s.reqs.Keys
    requires after.cache.seqs.Keys == s.cache.seqs.Keys && after.cache.host == s.cache.host
    requires forall x | x in s.reqs && x !in ids :: after.reqs[x] == s.reqs[x]
    requires forall i | 0 <= i < |ids| :: ids[i] in s.reqs && after.reqs[ids[i]].status in {Running, Finished}
    ensures Listed(after) && OnePrefilling(cfg, after.reqs, after.running)
    ensures forall x | x in s.reqs && x !in s.running :: after.reqs[x] == s.reqs[x]
  {
    hide NoDup;
    forall x | x in s.reqs ensures after.reqs[x] == s.reqs[x] || (x in s.running && after.reqs[x].status in {Running, Finished}) {
      if x in ids {
        var i :| 0 <= i < |ids| && ids[i] == x;
      }
    }
    assert forall x | x in s.waiting || x in s.swapped :: x !in s.running;
  }

  /** Each row of a batch afterwards: on track by one token, and resident without a spare block. */
  lemma DecodedRows(m: Model, cfg: Config, s: State, ids: seq<SeqId>, j: nat, tokens: seq<Token>, c: Cache, next: seq<Token>)
    requires Active(s, ids) && j <= |ids| && Inv(m, cfg, s, Ids(ids[..j]))
    requires forall i | 0 <= i < |ids| :: s.reqs[ids[i]].prompt != []
    requires tokens == LastTokens(s.reqs, ids) && |next| == |ids|
    requires Decoded(m, s.cache, Hist(s.reqs, s.cache.seqs), ids, tokens, c, next)
    requires c.blockSize == s.cache.blockSize
    ensures
      var reqs := AppendAll(s.reqs, ids, next);
      && AllOnTrack(m, reqs) && AllResident(cfg, s.(reqs := reqs, cache := c), {})
      && (forall i | 0 <= i < |ids| :: next[i] == NextOf(m, s.reqs[ids[i]]) && reqs[ids[i]].status in {Running, Finished})
  {
    hide Sound, Faithful, HostFaithful, OnTrack, PrivateFrom, BlocksFor, Resident, AppendAll, LastTokens, ExtendAll, Next, NoDup;
    var reqs := AppendAll(s.reqs, ids, next);
    var loose := Ids(ids[..j]);
    AppendAllAt(s.reqs, ids, next);
    forall i | 0 <= i < |ids|
      ensures next[i] == NextOf(m, s.reqs[ids[i]]) && reqs[ids[i]].status in {Running, Finished} && OnTrack(m, reqs[ids[i]])
      ensures Resident(cfg, reqs[ids[i]], c.seqs[ids[i]], c.info, c.blockSize, false)
    {
      RunningFacts(m, cfg, s, ids[i], loose);
      LastTokensAt(s.reqs, ids, i);
      DecodedRow(m, cfg, s, ids[i], ids[i] in loose, c, next[i]);
    }
    forall x | x in s.running && x in reqs && x in c.seqs && x !in ids
      ensures Resident(cfg, reqs[x], c.seqs[x], c.info, c.blockSize, false)
    {
      assert Resident(cfg, s.reqs[x], s.cache.seqs[x], s.cache.info, s.cache.blockSize, x in loose);
      assert x !in ids[..j];
    }
  }

  lemma LastTokensAt(reqs: map<SeqId, Request>, ids: seq<SeqId>, i: nat)
    requires forall i | 0 <= i < |ids| :: ids[i] in reqs && reqs[ids[i]].prompt != []
    requires i < |ids|
    ensures LastTokens(reqs, ids)[i] == LastToken(reqs[ids[i]])
  {
  }

  lemma DecodedRow(m: Model, cfg: Config, s: State, id: SeqId, loose: bool, c: Cache, t: Token)
    requires RunningRow(m, cfg, s, id, loose) && s.reqs[id].status == Running
    requires RowReserved(s.cache, c, id) && c.seqs[id].len == s.cache.seqs[id].len + 1
    requires PrivacyKept(s.cache, c) && c.info == s.cache.info && c.blockSize == s.cache.blockSize
    requires t == Next(m, Hist(s.reqs, s.cache.seqs)[id] + [LastToken(s.reqs[id])])
    ensures t == NextOf(m, s.reqs[id])
    ensures
      var r := AppendToken(s.reqs[id], t);
      && OnTrack(m, r) && r.status in {Running, Finished}
      && Resident(cfg, r, c.seqs[id], c.info, c.blockSize, false)
      && Prefix(History(r), c.seqs[id].len) == Hist(s.reqs, s.cache.seqs)[id] + [LastToken(s.reqs[id])]
  {
    hide OnTrack, PrivateFrom, Next;
    var r, st := s.reqs[id], s.cache.seqs[id];
    AppendOnTrack(m, r, t);
    BlocksForMonotone(s.cache.blockSize, st.len, st.len + 1);
    hide BlocksFor;
    var a := AppendToken(r, t);
    assert History(a) == History(r) + [t];
    assert Prefix(History(a), st.len + 1) == History(r);
  }

  lemma DecodedHist(m: Model, cfg: Config, s: State, ids: seq<SeqId>, j: nat, tokens: seq<Token>, c: Cache, next: seq<Token>)
    requires Active(s, ids) && j <= |ids| && Inv(m, cfg, s, Ids(ids[..j]))
    requires forall i | 0 <= i < |ids| :: s.reqs[ids[i]].prompt != []
    requires tokens == LastTokens(s.reqs, ids) && |next| == |ids|
    requires Decoded(m, s.cache, Hist(s.reqs, s.cache.seqs), ids, tokens, c, next)
    requires c.blockSize == s.cache.blockSize
    ensures ExtendAll(Hist(s.reqs, s.cache.seqs), ids, tokens) == Hist(AppendAll(s.reqs, ids, next), c.seqs)
  {
    hide Sound, Faithful, HostFaithful, OnTrack, PrivateFrom, BlocksFor, Resident, AppendAll, LastTokens, ExtendAll, Next, NoDup;
    var hist := Hist(s.reqs, s.cache.seqs);
    var a, b := ExtendAll(hist, ids, tokens), Hist(AppendAll(s.reqs, ids, next), c.seqs);
    AppendAllAt(s.reqs, ids, next);
    ExtendAllAt(hist, ids, tokens);
    forall i | 0 <= i < |ids| ensures ids[i] in a && ids[i] in b && a[ids[i]] == b[ids[i]] {
      RunningFacts(m, cfg, s, ids[i], Ids(ids[..j]));
      LastTokensAt(s.reqs, ids, i);
      DecodedRow(m, cfg, s, ids[i], ids[i] in Ids(ids[..j]), c, next[i]);
    }
    forall x | x in a && x !in ids ensures x in b && a[x] == b[x] {
    }
  }
}
