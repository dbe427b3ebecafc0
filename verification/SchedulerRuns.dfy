/** What holds over every run: any interleaving of arrivals, cancellations and steps. */
module SchedulerRuns {
  import opened LanguageModel
  import opened Options
  import opened Positions
  import opened PagedKvCache
  import opened CacheInvariant
  import opened SwapToHost
  import opened ModelRunner
  import opened Requests
  import opened SchedulerState
  import opened SchedulerSteps
  import opened SchedulerModel

  datatype Event = Arrive(id: SeqId, request: Request) | Abandon(id: SeqId) | Iterate

  function EmptyCache(numBlocks: nat, blockSize: nat, prefixCaching: bool, hash: (Option<Hash>, seq<Token>) -> Hash, zero: Kv): Cache {
    Cache(blockSize, prefixCaching, hash, seq(numBlocks, i => i), seq(numBlocks, i => 0),
          seq(numBlocks, i => seq(blockSize, j => zero)), map[], map[], map[], map[])
  }

  function Initial(c: Cache): State {
    State(map[], [], [], [], c)
  }

  lemma InitialInv(m: Model, cfg: Config, n: nat, B: nat, caching: bool, hash: (Option<Hash>, seq<Token>) -> Hash, zero: Kv)
    requires B >= 1 && (caching ==> InjectiveHash(hash)) && !(cfg.swap && cfg.speculate)
    ensures Inv(m, cfg, Initial(EmptyCache(n, B, caching, hash, zero)), {})
  {
    var c := EmptyCache(n, B, caching, hash, zero);
    assert Wf(c);
    assert forall b :: Holders(c.seqs, b) == {};
    forall b | 0 <= b < n ensures b in c.free {
      assert c.free[b] == b;
    }
  }

  /** Ids are distinct and prompts non-empty: other arrivals are outside what callers do. */
  function Perform(m: Model, cfg: Config, s: State, e: Event): (r: State)
    requires Inv(m, cfg, s, {})
    ensures Inv(m, cfg, r, {})
  {
    ListFacts(m, cfg, s);
    match e
    case Arrive(id, request) =>
      if id in s.reqs || request.prompt == [] then s
      else
        AddRequestKeeps(m, cfg, s, id, request);
        AddRequest(s, id, request)
    case Abandon(id) =>
      CancelKeeps(m, cfg, s, id, {});
      RunningCached(s, id);
      Cancel(s, id)
    case Iterate => Step(m, cfg, s).state
  }

  lemma RunningCached(s: State, id: SeqId)
    requires forall i | 0 <= i < |s.running| :: s.running[i] in s.reqs && s.running[i] in s.cache.seqs
    ensures id in s.running ==> id in s.cache.seqs
  {
  }

  /** A whole run. */
  function Execute(m: Model, cfg: Config, s: State, events: seq<Event>): (r: State)
    requires Inv(m, cfg, s, {})
    ensures Inv(m, cfg, r, {})
    decreases |events|
  {
    if events == [] then s else Perform(m, cfg, Execute(m, cfg, s, events[..|events| - 1]), events[|events| - 1])
  }

  // ---- transparency ----

  /** Scheduling is invisible: every request, wherever it is, has produced a prefix of what decoding
      it alone produces, and all of it exactly when it is finished. */
  ghost predicate Transparent(m: Model, s: State) {
    forall id | id in s.reqs ::
      && s.reqs[id].prompt != []
      && s.reqs[id].output <= Reference(m, s.reqs[id])
      && (s.reqs[id].status == Finished <==> s.reqs[id].output == Reference(m, s.reqs[id]))
  }

  lemma InvIsTransparent(m: Model, cfg: Config, s: State, loose: set<SeqId>)
    requires Inv(m, cfg, s, loose)
    ensures Transparent(m, s)
  {
    hide CacheOk, Listed, AllResident, AllSaved, OnTrack, Reference;
    forall id | id in s.reqs
      ensures s.reqs[id].prompt != [] && s.reqs[id].output <= Reference(m, s.reqs[id])
      ensures s.reqs[id].status == Finished <==> s.reqs[id].output == Reference(m, s.reqs[id])
    {
      PromptOf(m, s.reqs[id]);
      OnTrackIsReference(m, s.reqs[id]);
    }
  }

  lemma PromptOf(m: Model, r: Request)
    requires OnTrack(m, r)
    ensures r.prompt != []
  {
  }

  /** The main theorem: from an empty engine, after any arrivals, cancellations and steps, in any
      mode, every output is a prefix of the sequential greedy decode of its prompt, and a finished
      one is that decode cut at its first stop token or its length limit. */
  lemma SchedulingIsTransparent(m: Model, cfg: Config, n: nat, B: nat, caching: bool,
                                hash: (Option<Hash>, seq<Token>) -> Hash, zero: Kv, events: seq<Event>)
    requires B >= 1 && (caching ==> InjectiveHash(hash)) && !(cfg.swap && cfg.speculate)
    ensures Inv(m, cfg, Initial(EmptyCache(n, B, caching, hash, zero)), {})
    ensures Transparent(m, Execute(m, cfg, Initial(EmptyCache(n, B, caching, hash, zero)), events))
  {
    InitialInv(m, cfg, n, B, caching, hash, zero);
    InvIsTransparent(m, cfg, Execute(m, cfg, Initial(EmptyCache(n, B, caching, hash, zero)), events), {});
  }

  // ---- the paged cache is the contiguous cache ----

  /** Every device-resident request reads, through its block table, exactly the contiguous cache of
      its tokens; a running one has cached all of them but the last. */
  ghost predicate CacheRefines(m: Model, s: State) {
    && s.cache.blockSize >= 1
    && (forall id | id in s.running ::
          && id in s.reqs && id in s.cache.seqs
          && var r, st := s.reqs[id], s.cache.seqs[id];
          && Readable(s.cache.store, s.cache.blockSize, st.table)
          && st.len <= |st.table| * s.cache.blockSize && st.len <= |History(r)|
          && Gather(s.cache.store, s.cache.blockSize, st.table, st.len) == Entries(m, History(r)[..st.len])
          && (r.status == Running ==> st.len == |r.prompt| + |r.output| - 1))
  }

  lemma InvRefinesCache(m: Model, cfg: Config, s: State)
    requires Inv(m, cfg, s, {})
    ensures CacheRefines(m, s)
  {
    hide Sound, HostFaithful, OnTrack, Filed, Gather, Readable;
    assert s.cache.blockSize >= 1 by { SoundSizeOf(s.cache); }
    forall id | id in s.running
      ensures id in s.reqs && id in s.cache.seqs && s.cache.seqs[id].len <= |History(s.reqs[id])|
      ensures Holds(m, s.cache.store, s.cache.blockSize, s.cache.seqs[id], History(s.reqs[id])[..s.cache.seqs[id].len])
      ensures s.reqs[id].status == Running ==> s.cache.seqs[id].len == |s.reqs[id].prompt| + |s.reqs[id].output| - 1
    {
      assert Resident(cfg, s.reqs[id], s.cache.seqs[id], s.cache.info, s.cache.blockSize, false);
      assert Holds(m, s.cache.store, s.cache.blockSize, s.cache.seqs[id], Hist(s.reqs, s.cache.seqs)[id]);
    }
  }

  lemma SoundSizeOf(c: Cache)
    requires Sound(c, {})
    ensures c.blockSize >= 1
  {
  }

  // ---- conservation ----

  function Range(n: nat): (r: set<Block>)
    ensures |r| == n
    ensures forall b :: b in r <==> 0 <= b < n
  {
    if n == 0 then {} else Range(n - 1) + {n - 1}
  }

  lemma {:induction false} DistinctSize(s: seq<Block>)
    requires NoDup(s)
    ensures |Elems(s)| == |s|
  {
    if s == [] {
      assert Elems(s) == {};
    } else {
      var n := |s| - 1;
      DistinctSize(s[..n]);
      assert Elems(s) == Elems(s[..n]) + {s[n]};
      assert s[n] !in Elems(s[..n]);
    }
  }

  /** Blocks are conserved: a block's count is the number of running requests whose table names it,
      the free list is exactly the unnamed blocks, the cache knows exactly the running requests
      and the host exactly the swapped ones, and an idle engine has every block free. */
  ghost predicate Conserved(s: State) {
    && (forall b | 0 <= b < |s.cache.refs| ::
          s.cache.refs[b] == |set id | id in s.running && id in s.cache.seqs && b in s.cache.seqs[id].table|)
    && (forall b | 0 <= b < |s.cache.refs| :: b in s.cache.free <==> s.cache.refs[b] == 0)
    && NoDup(s.cache.free)
    && (forall id :: id in s.cache.seqs <==> id in s.running)
    && (forall id :: id in s.cache.host <==> id in s.swapped)
    && (s.running == [] ==> |s.cache.free| == |s.cache.refs|)
  }

  lemma InvConserves(m: Model, cfg: Config, s: State)
    requires Inv(m, cfg, s, {})
    ensures Conserved(s)
  {
    hide Faithful, HostFaithful, OnTrack, Resident;
    forall b | 0 <= b < |s.cache.refs|
      ensures s.cache.refs[b] == |set id | id in s.running && id in s.cache.seqs && b in s.cache.seqs[id].table|
    {
      var users := set id | id in s.running && id in s.cache.seqs && b in s.cache.seqs[id].table;
      assert forall x :: x in s.cache.seqs <==> x in s.running;
      assert forall x :: x in Holders(s.cache.seqs, b) <==> x in users;
      assert Holders(s.cache.seqs, b) == users;
    }
    if s.running == [] {
      assert forall x :: x !in s.cache.seqs;
      IdleIsFree(s);
    }
  }

  lemma IdleIsFree(s: State)
    requires Sound(s.cache, {}) && s.cache.seqs == map[]
    ensures |s.cache.free| == |s.cache.refs|
  {
    forall b | 0 <= b < |s.cache.refs| ensures b in s.cache.free {
      assert Holders(s.cache.seqs, b) == {};
    }
    FreeCoversAll(s.cache);
  }

  lemma FreeCoversAll(c: Cache)
    requires NoDup(c.free) && InRange(c, c.free) && forall b | 0 <= b < |c.refs| :: b in c.free
    ensures |c.free| == |c.refs|
  {
    DistinctSize(c.free);
    assert Elems(c.free) == Range(|c.refs|);
  }

  /** Over every run, blocks are conserved and every cached entry is the contiguous cache's. */
  lemma RunsConserve(m: Model, cfg: Config, n: nat, B: nat, caching: bool,
                     hash: (Option<Hash>, seq<Token>) -> Hash, zero: Kv, events: seq<Event>)
    requires B >= 1 && (caching ==> InjectiveHash(hash)) && !(cfg.swap && cfg.speculate)
    ensures Inv(m, cfg, Initial(EmptyCache(n, B, caching, hash, zero)), {})
    ensures
      var s := Execute(m, cfg, Initial(EmptyCache(n, B, caching, hash, zero)), events);
      Conserved(s) && CacheRefines(m, s) && OnePrefilling(cfg, s.reqs, s.running)
  {
    InitialInv(m, cfg, n, B, caching, hash, zero);
    hide CacheOk, Listed, AllResident, AllSaved, AllOnTrack;
    var s := Execute(m, cfg, Initial(EmptyCache(n, B, caching, hash, zero)), events);
    InvConserves(m, cfg, s);
    InvRefinesCache(m, cfg, s);
  }
}
