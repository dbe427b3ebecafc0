/** Chunked prefill: how many prompt tokens a step runs, and that a prompt in flight moves on. */
module ChunkBudget {
  import opened LanguageModel
  import opened Options
  import opened Positions
  import opened Sums
  import opened PagedKvCache
  import opened CacheInvariant
  import opened CacheOperations
  import opened ModelRunner
  import opened Requests
  import opened SchedulerState
  import opened SchedulerSteps
  import opened SchedulerModel
  import opened AdmissionSlack

  function Lens(seqs: map<SeqId, SeqState>): (r: map<SeqId, nat>)
    ensures r.Keys == seqs.Keys && forall x | x in seqs :: r[x] == seqs[x].len
  {
    map x | x in seqs :: seqs[x].len
  }

  /** All tokens cached on the device. */
  ghost function Cached(s: State): nat {
    Sum(Lens(s.cache.seqs), s.cache.seqs.Keys)
  }

  lemma CachedChange(s: State, t: State, id: SeqId)
    requires id in s.cache.seqs && id in t.cache.seqs && t.cache.seqs == s.cache.seqs[id := t.cache.seqs[id]]
    ensures Cached(t) - Cached(s) == t.cache.seqs[id].len - s.cache.seqs[id].len
  {
    hide Sum;
    var ids, before, after := s.cache.seqs.Keys, Lens(s.cache.seqs), Lens(t.cache.seqs);
    assert t.cache.seqs.Keys == ids;
    SumWithout(before, ids, id);
    SumWithout(after, ids, id);
    SumSame(before, after, ids - {id});
  }

  lemma SumSame(u: map<SeqId, nat>, v: map<SeqId, nat>, ids: set<SeqId>)
    requires ids <= u.Keys && ids <= v.Keys && forall x | x in ids :: u[x] == v[x]
    ensures Sum(u, ids) == Sum(v, ids)
  {
    hide Sum;
    forall x | x in ids ensures u[x] <= v[x] && v[x] <= u[x] {
    }
    SumAtMost(u, ids, v, ids);
    SumAtMost(v, ids, u, ids);
  }

  lemma CachedNew(s: State, t: State, id: SeqId)
    requires id !in s.cache.seqs && id in t.cache.seqs && t.cache.seqs == s.cache.seqs[id := t.cache.seqs[id]]
    ensures Cached(t) - Cached(s) == t.cache.seqs[id].len
  {
    hide Sum;
    var ids, before, after := s.cache.seqs.Keys, Lens(s.cache.seqs), Lens(t.cache.seqs);
    assert t.cache.seqs.Keys == ids + {id};
    SumWithout(after, ids + {id}, id);
    assert (ids + {id}) - {id} == ids;
    SumSame(before, after, ids);
  }

  /** A chunk caches exactly what it takes from the budget. */
  lemma ChunkAccounts(m: Model, cfg: Config, s: State, id: SeqId, budget: nat)
    requires Inv(m, cfg, s, {}) && id in s.running && id in s.reqs && s.reqs[id].status == Prefilling
    ensures var out := PrefillChunk(m, cfg, s, id, budget);
            out.ok ==> out.budget <= budget && Cached(out.state) == Cached(s) + (budget - out.budget)
  {
    hide Inv, PrefillChunk, Cached;
    PrefillChunkKeeps(m, cfg, s, id, budget);
    var out := PrefillChunk(m, cfg, s, id, budget);
    if out.ok {
      ChunkSeqs(m, cfg, s, id, budget);
      CachedChange(s, out.state, id);
    }
  }

  lemma ChunkSeqs(m: Model, cfg: Config, s: State, id: SeqId, budget: nat)
    requires Inv(m, cfg, s, {}) && id in s.running && id in s.reqs && s.reqs[id].status == Prefilling
    ensures var t := PrefillChunk(m, cfg, s, id, budget).state;
            && id in t.cache.seqs && t.cache.seqs == s.cache.seqs[id := t.cache.seqs[id]]
            && t.cache.prefixCaching == s.cache.prefixCaching
  {
    hide Inv, ContinuePrefill, RegisterPrefixBlocks, Next;
    PrefillingFacts(m, cfg, s, id);
  }

  /** Without a prefix index a new sequence starts with nothing cached. */
  lemma StartAccounts(m: Model, cfg: Config, s: State)
    requires Inv(m, cfg, s, {}) && s.waiting != [] && !s.cache.prefixCaching
    ensures Cached(StartChunked(m, cfg, s)) == Cached(s)
    ensures !StartChunked(m, cfg, s).cache.prefixCaching
  {
    hide Inv, Cached;
    WaitingHead(m, cfg, s);
    ListFacts(m, cfg, s);
    CachedNew(s, StartChunked(m, cfg, s), s.waiting[0]);
  }

  lemma {:induction false} InFlightAccounts(m: Model, cfg: Config, s: State, ids: seq<SeqId>, budget: nat, completed: seq<SeqId>)
    requires Inv(m, cfg, s, {}) && InFlight(s, ids, budget)
    ensures var w := ContinueInFlight(m, cfg, s, ids, budget, completed);
            && w.state.cache.prefixCaching == s.cache.prefixCaching
            && (w.ok ==> w.budget <= budget && Cached(w.state) == Cached(s) + (budget - w.budget))
    decreases |ids|
  {
    hide Inv, InFlight, PrefillChunk, ChunkOutcome, Cached;
    if ids != [] && budget > 0 {
      InFlightHead(m, cfg, s, ids, budget);
      ChunkAccounts(m, cfg, s, ids[0], budget);
      ChunkSeqs(m, cfg, s, ids[0], budget);
      var out := PrefillChunk(m, cfg, s, ids[0], budget);
      if out.ok {
        InFlightAccounts(m, cfg, out.state, ids[1..], out.budget, if out.done then completed + [ids[0]] else completed);
      }
    }
  }

  lemma {:induction false} AdmitAccounts(m: Model, cfg: Config, s: State, budget: nat, completed: seq<SeqId>)
    requires Inv(m, cfg, s, {}) && cfg.budget.Some? && (budget > 0 ==> NonePrefilling(s)) && !s.cache.prefixCaching
    ensures var w := AdmitChunked(m, cfg, s, budget, completed);
            w.ok ==> w.budget <= budget && Cached(w.state) == Cached(s) + (budget - w.budget)
    decreases |s.waiting|
  {
    hide Inv, PrefillChunk, ChunkOutcome, StartChunked, NonePrefilling, Cached;
    if s.waiting != [] && budget > 0 && WaitingNeed(m, cfg, s) <= Available(m, cfg, s) {
      var id, started := s.waiting[0], StartChunked(m, cfg, s);
      AdmitChunkedHead(m, cfg, s, budget);
      StartAccounts(m, cfg, s);
      ChunkAccounts(m, cfg, started, id, budget);
      ChunkSeqs(m, cfg, started, id, budget);
      var out := PrefillChunk(m, cfg, started, id, budget);
      if out.ok {
        AdmitAccounts(m, cfg, out.state, out.budget, if out.done then completed + [id] else completed);
      }
    }
  }

  /** Without prefix caching, a step's prefill work caches exactly the part of the budget it uses,
      so never more than the budget. */
  lemma PrefillWorkAccounts(m: Model, cfg: Config, s: State)
    requires Inv(m, cfg, s, {}) && cfg.budget.Some? && !s.cache.prefixCaching
    ensures var w := PrefillWork(m, cfg, s);
            w.ok ==> w.budget <= cfg.budget.value && Cached(w.state) == Cached(s) + (cfg.budget.value - w.budget)
  {
    hide Inv, ContinueInFlight, AdmitChunked, WithStatus, Cached;
    ListFacts(m, cfg, s);
    RunningDistinctIds(m, cfg, s);
    var ids := WithStatus(s.reqs, s.running, Prefilling);
    InFlightAccounts(m, cfg, s, ids, cfg.budget.value, []);
    var w := ContinueInFlight(m, cfg, s, ids, cfg.budget.value, []);
    if w.ok { AdmitAccounts(m, cfg, w.state, w.budget, w.completed); }
  }

  // ---- with or without prefix caching: what a step writes ----

  /** A pass over a chunk writes one slot for each of its tokens, and none when it raises. */
  lemma PassWrites(m: Model, c: Cache, id: SeqId, chunk: seq<Token>) returns (slots: seq<Pos>)
    requires Sound(c, {}) && id in c.seqs
    ensures var (after, predictions) := ContinuePrefill(m, c, id, chunk);
            |slots| == (if predictions.Some? then |chunk| else 0) && SameBut(c.store, after.store, slots)
  {
    var (grown, ok) := Reserve(c, id, |chunk|);
    slots := [];
    GrowSound(c, id, BlocksFor(c.blockSize, c.seqs[id].len + |chunk|));
    if ok {
      var st, n := grown.seqs[id], c.seqs[id].len;
      var values := Extend(m, Reached(grown, id, n), chunk)[n..];
      slots := Slots(st.table, c.blockSize, n, |chunk|);
      assert NoDup(st.table);
      SlotsDistinct(st.table, c.blockSize, n, |chunk|);
      hide Sound, WriteAll, SameBut, Slots, NoDup, Extend;
      WriteElsewhere(grown.store, slots, values);
    }
  }

  lemma SoundCache(m: Model, cfg: Config, s: State)
    requires Inv(m, cfg, s, {})
    ensures Sound(s.cache, {})
  {
    hide Sound, AllResident, Listed, AllOnTrack, AllSaved, OnePrefilling, Faithful, HostFaithful;
  }

  lemma ChunkWrites(m: Model, cfg: Config, s: State, id: SeqId, budget: nat) returns (slots: seq<Pos>)
    requires Inv(m, cfg, s, {}) && id in s.running && id in s.reqs && s.reqs[id].status == Prefilling
    ensures var out := PrefillChunk(m, cfg, s, id, budget);
            out.budget + |slots| == budget && SameBut(s.cache.store, out.state.cache.store, slots)
  {
    hide Inv, ContinuePrefill, RegisterPrefixBlocks, Next, SameBut, Sound, PrivateFrom, BlocksFor, Hist;
    var r := s.reqs[id];
    PrefillingFacts(m, cfg, s, id);
    SoundCache(m, cfg, s);
    var start := s.cache.seqs[id].len;
    slots := PassWrites(m, s.cache, id, r.prompt[start..start + if budget <= |r.prompt| - start then budget else |r.prompt| - start]);
  }

  /** The same entries but in two sets of slots, one after the other. */
  lemma WritesJoin(a: seq<seq<Kv>>, b: seq<seq<Kv>>, c: seq<seq<Kv>>, x: seq<Pos>, y: seq<Pos>)
    requires SameBut(a, b, x) && SameBut(b, c, y)
    ensures SameBut(a, c, x + y)
  {
    forall p | InStore(a, p) && p !in x + y ensures At(a, p) == At(c, p) {
      assert InStore(b, p) && At(a, p) == At(b, p);
    }
  }

  lemma {:induction false} InFlightWrites(m: Model, cfg: Config, s: State, ids: seq<SeqId>, budget: nat, completed: seq<SeqId>)
    returns (slots: seq<Pos>)
    requires Inv(m, cfg, s, {}) && InFlight(s, ids, budget)
    ensures var w := ContinueInFlight(m, cfg, s, ids, budget, completed);
            w.budget + |slots| == budget && SameBut(s.cache.store, w.state.cache.store, slots)
    decreases |ids|
  {
    slots := [];
    if ids != [] && budget > 0 {
      InFlightHead(m, cfg, s, ids, budget);
      hide Inv, InFlight, PrefillChunk, ChunkOutcome, SameBut;
      var out := PrefillChunk(m, cfg, s, ids[0], budget);
      slots := ChunkWrites(m, cfg, s, ids[0], budget);
      if out.ok {
        var rest := InFlightWrites(m, cfg, out.state, ids[1..], out.budget, if out.done then completed + [ids[0]] else completed);
        WritesJoin(s.cache.store, out.state.cache.store,
          ContinueInFlight(m, cfg, s, ids, budget, completed).state.cache.store, slots, rest);
        slots := slots + rest;
      }
    }
  }

  lemma {:induction false} AdmitWrites(m: Model, cfg: Config, s: State, budget: nat, completed: seq<SeqId>) returns (slots: seq<Pos>)
    requires Inv(m, cfg, s, {}) && cfg.budget.Some? && (budget > 0 ==> NonePrefilling(s))
    ensures var w := AdmitChunked(m, cfg, s, budget, completed);
            w.budget + |slots| == budget && SameBut(s.cache.store, w.state.cache.store, slots)
    decreases |s.waiting|
  {
    slots := [];
    if s.waiting != [] && budget > 0 && WaitingNeed(m, cfg, s) <= Available(m, cfg, s) {
      var id, started := s.waiting[0], StartChunked(m, cfg, s);
      AdmitChunkedHead(m, cfg, s, budget);
      assert started.cache.store == s.cache.store;
      hide Inv, PrefillChunk, ChunkOutcome, StartChunked, NonePrefilling, SameBut;
      var out := PrefillChunk(m, cfg, started, id, budget);
      slots := ChunkWrites(m, cfg, started, id, budget);
      if out.ok {
        var rest := AdmitWrites(m, cfg, out.state, out.budget, if out.done then completed + [id] else completed);
        WritesJoin(s.cache.store, out.state.cache.store,
          AdmitChunked(m, cfg, s, budget, completed).state.cache.store, slots, rest);
        slots := slots + rest;
      }
    }
  }

  /** A step's prefill work, reused prefixes or not, raising or not, writes at most as many slots as
      it takes from the budget: no more than the budget in all. */
  lemma PrefillWorkWrites(m: Model, cfg: Config, s: State) returns (slots: seq<Pos>)
    requires Inv(m, cfg, s, {}) && cfg.budget.Some?
    ensures var w := PrefillWork(m, cfg, s);
            |slots| <= cfg.budget.value && w.budget + |slots| == cfg.budget.value
            && SameBut(s.cache.store, w.state.cache.store, slots)
  {
    hide Inv, ContinueInFlight, AdmitChunked, WithStatus, SameBut;
    ListFacts(m, cfg, s);
    RunningDistinctIds(m, cfg, s);
    var ids := WithStatus(s.reqs, s.running, Prefilling);
    var w := ContinueInFlight(m, cfg, s, ids, cfg.budget.value, []);
    slots := InFlightWrites(m, cfg, s, ids, cfg.budget.value, []);
    if w.ok {
      var rest := AdmitWrites(m, cfg, w.state, w.budget, w.completed);
      WritesJoin(s.cache.store, w.state.cache.store, PrefillWork(m, cfg, s).state.cache.store, slots, rest);
      slots := slots + rest;
    }
  }

  // ---- the prompt in flight ----

  /** Admission leaves sequences that are already on the device alone. */
  lemma {:induction false} AdmitLeavesAlone(m: Model, cfg: Config, s: State, budget: nat, completed: seq<SeqId>, x: SeqId)
    requires Inv(m, cfg, s, {}) && cfg.budget.Some? && (budget > 0 ==> NonePrefilling(s))
    requires x in s.cache.seqs
    ensures var w := AdmitChunked(m, cfg, s, budget, completed);
            && x in w.state.cache.seqs && w.state.cache.seqs[x] == s.cache.seqs[x]
            && (x in w.completed <==> x in completed)
    decreases |s.waiting|
  {
    hide Inv, PrefillChunk, ChunkOutcome, StartChunked, NonePrefilling;
    if s.waiting != [] && budget > 0 && WaitingNeed(m, cfg, s) <= Available(m, cfg, s) {
      var id, started := s.waiting[0], StartChunked(m, cfg, s);
      AdmitChunkedHead(m, cfg, s, budget);
      WaitingHead(m, cfg, s);
      StartSeqs(m, cfg, s);
      ChunkSeqs(m, cfg, started, id, budget);
      var out := PrefillChunk(m, cfg, started, id, budget);
      if out.ok {
        AdmitLeavesAlone(m, cfg, out.state, out.budget, if out.done then completed + [id] else completed, x);
      }
    }
  }

  lemma StartSeqs(m: Model, cfg: Config, s: State)
    requires Inv(m, cfg, s, {}) && s.waiting != []
    ensures var id, t := s.waiting[0], StartChunked(m, cfg, s);
            id in t.cache.seqs && t.cache.seqs == s.cache.seqs[id := t.cache.seqs[id]]
  {
    hide Inv;
    WaitingHead(m, cfg, s);
    ListFacts(m, cfg, s);
  }

  lemma OnlyOne(ids: seq<SeqId>, x: SeqId)
    requires NoDup(ids) && x in ids && forall y | y in ids :: y == x
    ensures ids == [x]
  {
    var ones: map<SeqId, nat> := map[x := 1];
    assert Ids(ids) == {x};
    CountOnes(ones, ids);
    SumWithout(ones, {x}, x);
  }

  /** A prompt in flight advances by the whole budget or by all that is left of it: by at least one
      token, and it completes exactly when the budget reaches its end. */
  lemma InFlightAdvances(m: Model, cfg: Config, s: State, x: SeqId)
    requires Inv(m, cfg, s, {}) && cfg.budget.Some? && cfg.budget.value >= 1
    requires x in s.running && x in s.reqs && x in s.cache.seqs && s.reqs[x].status == Prefilling
    ensures
      var w, left := PrefillWork(m, cfg, s), |s.reqs[x].prompt| - s.cache.seqs[x].len;
      && left >= 1
      && (w.ok ==>
            && x in w.state.cache.seqs
            && w.state.cache.seqs[x].len == s.cache.seqs[x].len + (if cfg.budget.value <= left then cfg.budget.value else left)
            && (x in w.completed <==> cfg.budget.value >= left))
  {
    hide Inv, PrefillChunk, AdmitChunked, WithStatus;
    ListFacts(m, cfg, s);
    RunningDistinctIds(m, cfg, s);
    var ids, budget := WithStatus(s.reqs, s.running, Prefilling), cfg.budget.value;
    OneInFlight(m, cfg, s);
    OnlyOne(ids, x);
    InFlightHead(m, cfg, s, ids, budget);
    var out := PrefillChunk(m, cfg, s, x, budget);
    if out.ok {
      var w := ContinueInFlight(m, cfg, s, ids, budget, []);
      var done := if out.done then [] + [x] else [];
      assert ids[1..] == [];
      assert w == ContinueInFlight(m, cfg, out.state, [], out.budget, done);
      assert w == Work(out.state, out.budget, if out.done then [x] else [], true);
      AdmitLeavesAlone(m, cfg, w.state, w.budget, w.completed, x);
    }
  }

  lemma OneInFlight(m: Model, cfg: Config, s: State)
    requires Inv(m, cfg, s, {})
    ensures OnePrefilling(cfg, s.reqs, s.running)
  {
    hide CacheOk, AllOnTrack, Listed, AllResident, AllSaved;
  }
}
