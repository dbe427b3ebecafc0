/** The scheduler's state as a value, and what holds of it at every moment. */
module SchedulerState {
  import opened LanguageModel
  import opened Options
  import opened Positions
  import opened PagedKvCache
  import opened CacheInvariant
  import opened CacheOperations
  import opened SwapToHost
  import opened Requests

  /** The constructor arguments that choose a mode; `draft` is the n-gram proposer, [] for none. */
  datatype Config = Config(budget: Option<nat>, swap: bool, speculate: bool, draft: seq<Token> -> seq<Token>)

  /** Lists hold sequence ids; `reqs` resolves them, and keeps requests that left the lists. */
  datatype State = State(
    reqs: map<SeqId, Request>,
    waiting: seq<SeqId>,
    running: seq<SeqId>,
    swapped: seq<SeqId>,
    cache: Cache)

  function Prefix(toks: seq<Token>, n: nat): seq<Token> {
    if n <= |toks| then toks[..n] else toks
  }

  /** The tokens each device-resident sequence has cached. */
  function Hist(reqs: map<SeqId, Request>, seqs: map<SeqId, SeqState>): map<SeqId, seq<Token>> {
    map id | id in seqs && id in reqs :: Prefix(History(reqs[id]), seqs[id].len)
  }

  /** The tokens each swapped sequence had cached. */
  function Saved(reqs: map<SeqId, Request>, host: map<SeqId, HostCopy>): map<SeqId, seq<Token>> {
    map id | id in host && id in reqs :: Prefix(History(reqs[id]), host[id].len)
  }

  // ---- the invariant ----

  /** Each list holds distinct requests with the status the list stands for; the cache knows
      exactly the running ones and the host exactly the swapped ones. */
  ghost predicate Listed(s: State) {
    && NoDup(s.waiting) && NoDup(s.running) && NoDup(s.swapped)
    && (forall id | id in s.waiting :: id in s.reqs && s.reqs[id].status == Waiting && s.reqs[id].output == [])
    && (forall id | id in s.running :: id in s.reqs && s.reqs[id].status in {Prefilling, Running, Finished})
    && (forall id | id in s.swapped :: id in s.reqs && s.reqs[id].status == Swapped)
    && (forall id :: id in s.cache.seqs <==> id in s.running)
    && (forall id :: id in s.cache.host <==> id in s.swapped)
  }

  /** At most one prompt is being prefilled in pieces, and none without a prefill budget. */
  ghost predicate OnePrefilling(cfg: Config, reqs: map<SeqId, Request>, running: seq<SeqId>) {
    && (forall x, y | x in running && y in running && x in reqs && y in reqs
                      && reqs[x].status == Prefilling && reqs[y].status == Prefilling :: x == y)
    && (cfg.budget.None? ==> forall x | x in running && x in reqs :: reqs[x].status != Prefilling)
  }

  /** How much of a device-resident request is cached, which of its blocks it may write, and that
      its table is exactly as long as its tokens need (its next token included, if `loose`) unless
      speculation leaves spare blocks behind. */
  ghost predicate Resident(cfg: Config, r: Request, st: SeqState, info: map<Block, BlockInfo>, B: nat, loose: bool) {
    && B >= 1
    && (r.status == Prefilling ==>
          && r.output == [] && st.len < |r.prompt|
          && PrivateFrom(info, st.table, st.len / B)
          && |st.table| <= BlocksFor(B, |r.prompt|))
    && (r.status == Running ==>
          && r.output != [] && st.len == |History(r)| - 1
          && PrivateFrom(info, st.table, |r.prompt| / B)
          && (!cfg.speculate ==> |st.table| == BlocksFor(B, if loose then st.len + 1 else st.len)))
    && (r.status == Finished ==>
          && r.output != [] && st.len <= |History(r)|
          && (!cfg.speculate ==> st.len == |History(r)| - 1 && |st.table| == BlocksFor(B, st.len)))
  }

  ghost predicate AllResident(cfg: Config, s: State, loose: set<SeqId>) {
    forall id | id in s.running && id in s.reqs && id in s.cache.seqs ::
      Resident(cfg, s.reqs[id], s.cache.seqs[id], s.cache.info, s.cache.blockSize, id in loose)
  }

  ghost predicate AllSaved(s: State) {
    forall id | id in s.swapped && id in s.reqs && id in s.cache.host ::
      s.reqs[id].output != [] && s.cache.host[id].len == |History(s.reqs[id])| - 1
  }

  ghost predicate AllOnTrack(m: Model, reqs: map<SeqId, Request>) {
    forall id | id in reqs :: OnTrack(m, reqs[id])
  }

  /** The cache part: accounting and content, for the tokens the requests say are cached. */
  ghost predicate CacheOk(m: Model, s: State) {
    && Sound(s.cache, {})
    && (s.cache.prefixCaching ==> InjectiveHash(s.cache.hash))
    && (!s.cache.prefixCaching ==> s.cache.info == map[])
    && Faithful(m, s.cache, Hist(s.reqs, s.cache.seqs))
    && HostFaithful(m, s.cache.blockSize, s.cache.host, Saved(s.reqs, s.cache.host))
  }

  /** What holds between any two steps of the scheduler, and inside one. `loose` names the
      sequences whose next block has been reserved but not yet used. */
  ghost predicate Inv(m: Model, cfg: Config, s: State, loose: set<SeqId>) {
    && !(cfg.swap && cfg.speculate)
    && Listed(s)
    && OnePrefilling(cfg, s.reqs, s.running)
    && AllOnTrack(m, s.reqs)
    && CacheOk(m, s)
    && AllResident(cfg, s, loose)
    && AllSaved(s)
  }

  // ---- maps that follow the state ----

  lemma HistUpdate(reqs: map<SeqId, Request>, seqs: map<SeqId, SeqState>, id: SeqId, r: Request, st: SeqState)
    ensures Hist(reqs[id := r], seqs[id := st]) == Hist(reqs, seqs)[id := Prefix(History(r), st.len)]
  {
  }

  /** Changing a request that is not resident changes no cached tokens. */
  lemma HistElsewhere(reqs: map<SeqId, Request>, seqs: map<SeqId, SeqState>, id: SeqId, r: Request)
    requires id !in seqs || (id in reqs && History(reqs[id]) == History(r))
    ensures Hist(reqs[id := r], seqs) == Hist(reqs, seqs)
  {
  }

  lemma HistRemove(reqs: map<SeqId, Request>, seqs: map<SeqId, SeqState>, id: SeqId)
    ensures Hist(reqs, seqs - {id}) == Hist(reqs, seqs) - {id}
  {
  }

  /** Growing tables changes no cached tokens. */
  lemma HistSameLengths(reqs: map<SeqId, Request>, seqs: map<SeqId, SeqState>, after: map<SeqId, SeqState>)
    requires after.Keys == seqs.Keys && forall x | x in seqs :: after[x].len == seqs[x].len
    ensures Hist(reqs, after) == Hist(reqs, seqs)
  {
    var a, b := Hist(reqs, after), Hist(reqs, seqs);
    assert forall x :: x in after.Keys <==> x in seqs.Keys;
    assert forall x :: x in a <==> x in b;
    assert forall x | x in a :: a[x] == b[x];
  }

  lemma SavedUpdate(reqs: map<SeqId, Request>, host: map<SeqId, HostCopy>, id: SeqId, r: Request, copy: HostCopy)
    ensures Saved(reqs[id := r], host[id := copy]) == Saved(reqs, host)[id := Prefix(History(r), copy.len)]
  {
  }

  lemma SavedElsewhere(reqs: map<SeqId, Request>, host: map<SeqId, HostCopy>, id: SeqId, r: Request)
    requires id !in host || (id in reqs && History(reqs[id]) == History(r))
    ensures Saved(reqs[id := r], host) == Saved(reqs, host)
  {
  }

  lemma SavedRemove(reqs: map<SeqId, Request>, host: map<SeqId, HostCopy>, id: SeqId)
    ensures Saved(reqs, host - {id}) == Saved(reqs, host) - {id}
  {
  }

  // ---- lists ----

  function Ids(s: seq<SeqId>): (r: set<SeqId>)
    ensures forall i | 0 <= i < |s| :: s[i] in r
  {
    set x | x in s
  }

  /** Python's list.remove on a list of distinct ids. */
  function Remove(ids: seq<SeqId>, id: SeqId): (r: seq<SeqId>)
    ensures forall x | x != id :: x in r <==> x in ids
    ensures id !in ids ==> r == ids
  {
    if ids == [] then []
    else if ids[0] == id then ids[1..]
    else [ids[0]] + Remove(ids[1..], id)
  }

  lemma {:induction false} RemoveDistinct(ids: seq<SeqId>, id: SeqId)
    requires NoDup(ids)
    ensures NoDup(Remove(ids, id)) && id !in Remove(ids, id)
    ensures id in ids ==> |Remove(ids, id)| == |ids| - 1
  {
    if ids != [] {
      assert forall i | 0 <= i < |ids| - 1 :: ids[1..][i] == ids[i + 1];
      RemoveDistinct(ids[1..], id);
      if ids[0] != id {
        assert ids[0] !in Remove(ids[1..], id);
      }
    }
  }
}
