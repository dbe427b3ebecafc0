/** How far admission control may overcommit: by at most one block for each running request. */
module AdmissionSlack {
  import opened LanguageModel
  import opened Options
  import opened Positions
  import opened Sums
  import opened PagedKvCache
  import opened CacheInvariant
  import opened CacheOperations
  import opened PrefixReuse
  import opened ModelRunner
  import opened BatchedDecode
  import opened Requests
  import opened SchedulerState
  import opened SchedulerSteps
  import opened SchedulerDecode
  import opened Speculation
  import opened SchedulerModel
  import opened SchedulerRuns
  import opened SwapProgress

  // ---- weights ----

  /** The blocks admission control counts for a request that generates as much as it may. */
  function Worst(r: Request, B: nat): nat
    requires B >= 1
  {
    BlocksFor(B, TotalLenEstimate(r))
  }

  function Worsts(reqs: map<SeqId, Request>, B: nat): (r: map<SeqId, nat>)
    requires B >= 1
    ensures r.Keys == reqs.Keys && forall x | x in reqs :: r[x] == Worst(reqs[x], B)
  {
    map x | x in reqs :: Worst(reqs[x], B)
  }

  /** All but one of those blocks. */
  function Extra(r: Request, B: nat): nat
    requires B >= 1
  {
    if Worst(r, B) > 0 then Worst(r, B) - 1 else 0
  }

  function Extras(reqs: map<SeqId, Request>, B: nat): (r: map<SeqId, nat>)
    requires B >= 1
    ensures r.Keys == reqs.Keys && forall x | x in reqs :: r[x] == Extra(reqs[x], B)
  {
    map x | x in reqs :: Extra(reqs[x], B)
  }

  function Pledges(reqs: map<SeqId, Request>, B: nat): (r: map<SeqId, nat>)
    requires B >= 1
    ensures r.Keys == reqs.Keys && forall x | x in reqs :: r[x] == PledgeOf(reqs[x], B)
  {
    map x | x in reqs :: PledgeOf(reqs[x], B)
  }

  function Tables(seqs: map<SeqId, SeqState>): map<SeqId, nat> {
    map x | x in seqs :: |seqs[x].table|
  }

  // ---- without sharing, blocks are free or in exactly one table ----

  ghost function Used(seqs: map<SeqId, SeqState>, ids: set<SeqId>): set<Block> {
    set x, b | x in ids && x in seqs && b in seqs[x].table :: b
  }

  lemma {:induction false} UsedSize(c: Cache, ids: set<SeqId>)
    requires Sound(c, {}) && c.info == map[] && ids <= c.seqs.Keys
    ensures |Used(c.seqs, ids)| == Sum(Tables(c.seqs), ids)
    decreases |ids|
  {
    hide Counted, FreeExact, Wf;
    if ids == {} {
      assert Used(c.seqs, ids) == {};
    } else {
      var x := Pick(ids);
      var mine, rest := Elems(c.seqs[x].table), Used(c.seqs, ids - {x});
      UsedSize(c, ids - {x});
      DistinctSize(c.seqs[x].table);
      assert Used(c.seqs, ids) == mine + rest;
      forall b | b in mine ensures b !in rest {
        assert Holders(c.seqs, b) == {x};
        assert forall y | y in ids - {x} && b in c.seqs[y].table :: y in Holders(c.seqs, b);
      }
      assert mine * rest == {};
    }
  }

  /** Every block is on the free list or in a table. */
  lemma BlocksSplit(c: Cache)
    requires Sound(c, {}) && c.info == map[]
    ensures |c.free| + Sum(Tables(c.seqs), c.seqs.Keys) == |c.refs|
  {
    hide Sound, Sum, Used;
    UsedSize(c, c.seqs.Keys);
    FreeDistinct(c);
    DistinctSize(c.free);
    forall b: Block ensures b < |c.refs| <==> b in Elems(c.free) || b in Used(c.seqs, c.seqs.Keys)
             ensures !(b in Elems(c.free) && b in Used(c.seqs, c.seqs.Keys))
    {
      FreeOrUsed(c, b);
    }
    SplitSize(Elems(c.free), Used(c.seqs, c.seqs.Keys), |c.refs|);
  }

  lemma SplitSize(a: set<Block>, b: set<Block>, n: nat)
    requires forall x: Block :: x < n <==> x in a || x in b
    requires forall x: Block :: !(x in a && x in b)
    ensures |a| + |b| == n
  {
    assert a + b == Range(n);
    assert a * b == {};
  }

  lemma FreeDistinct(c: Cache)
    requires Sound(c, {})
    ensures NoDup(c.free)
  {
  }

  lemma FreeOrUsed(c: Cache, b: Block)
    requires Sound(c, {})
    ensures b < |c.refs| <==> b in c.free || b in Used(c.seqs, c.seqs.Keys)
    ensures !(b in c.free && b in Used(c.seqs, c.seqs.Keys))
  {
    hide TablesDistinct, SharedIndexed;
    if b in Used(c.seqs, c.seqs.Keys) {
      var x :| x in c.seqs && b in c.seqs[x].table;
      assert x in Holders(c.seqs, b);
    } else {
      forall x | x in c.seqs ensures b !in c.seqs[x].table {
        assert b in c.seqs[x].table ==> b in Used(c.seqs, c.seqs.Keys);
      }
      assert Holders(c.seqs, b) == {};
    }
  }

  // ---- what admission counts, against what is really needed ----

  /** The table of a settled request: as long as its cached tokens need. */
  ghost predicate TableSettled(r: Request, st: SeqState, B: nat) {
    && B >= 1 && r.status in {Running, Finished} && r.output != []
    && st.len == |r.prompt| + |r.output| - 1 && |st.table| == BlocksFor(B, st.len)
  }

  /** The pledge and the blocks already held cover all but one of the blocks a request may need. */
  lemma PledgeCovers(r: Request, st: SeqState, B: nat)
    requires TableSettled(r, st, B)
    ensures PledgeOf(r, B) + |st.table| >= Extra(r, B)
  {
    BlocksForNext(B, st.len);
  }

  /** What a request still takes from the free list if it generates all it may: its last token is
      never cached. */
  function StillTakes(r: Request, st: SeqState, B: nat): int
    requires B >= 1 && r.maxNew >= 1
  {
    BlocksFor(B, |r.prompt| + r.maxNew - 1) - |st.table|
  }

  /** The pledge is one block short exactly if the cached tokens end at a block boundary and the last
      ones the request may cache do not, one block too many exactly the other way round, and otherwise
      exactly what the request still takes. */
  lemma PledgeExactness(r: Request, st: SeqState, B: nat)
    requires TableSettled(r, st, B) && |r.output| <= r.maxNew
    ensures var now, end := (|r.prompt| + |r.output| - 1) % B == 0, (|r.prompt| + r.maxNew - 1) % B == 0;
            && StillTakes(r, st, B) >= 0
            && (PledgeOf(r, B) == StillTakes(r, st, B) - 1 <==> now && !end)
            && (PledgeOf(r, B) == StillTakes(r, st, B) + 1 <==> !now && end)
            && (PledgeOf(r, B) == StillTakes(r, st, B) <==> now == end)
  {
    var last := |r.prompt| + r.maxNew - 1;
    BlocksForMonotone(B, st.len, last);
    BlocksForMonotone(B, st.len + 1, last + 1);
    BlocksForStep(B, st.len);
    BlocksForStep(B, last);
  }

  lemma {:induction false} PledgedIsSum(reqs: map<SeqId, Request>, running: seq<SeqId>, B: nat)
    requires B >= 1 && NoDup(running) && forall i | 0 <= i < |running| :: running[i] in reqs
    ensures Ids(running) <= reqs.Keys
    ensures PledgedBlocks(reqs, running, B) == Sum(Pledges(reqs, B), Ids(running))
    decreases |running|
  {
    if running == [] {
      assert Ids(running) == {};
    } else {
      var n := |running| - 1;
      PledgedIsSum(reqs, running[..n], B);
      assert running[n] !in running[..n];
      assert Ids(running) == Ids(running[..n]) + {running[n]};
      assert Ids(running) - {running[n]} == Ids(running[..n]);
      SumWithout(Pledges(reqs, B), Ids(running), running[n]);
    }
  }

  // ---- the invariant ----

  /** Swap, speculation and prefix caching off, and the running requests, one block each apart,
      fit into the device together. */
  ghost predicate Bounded(s: State) {
    && s.cache.blockSize >= 1 && s.swapped == [] && !s.cache.prefixCaching
    && Ids(s.running) <= s.reqs.Keys
    && Sum(Extras(s.reqs, s.cache.blockSize), Ids(s.running)) <= |s.cache.refs|
  }

  /** Nobody starts running, and nobody's prompt or limit changes. */
  ghost predicate Lighter(s: State, t: State) {
    && t.cache.blockSize == s.cache.blockSize && |t.cache.refs| == |s.cache.refs|
    && t.cache.prefixCaching == s.cache.prefixCaching
    && t.swapped == s.swapped && t.reqs.Keys == s.reqs.Keys
    && (forall x | x in t.running :: x in s.running)
    && (forall x | x in s.reqs :: t.reqs[x].prompt == s.reqs[x].prompt && t.reqs[x].maxNew == s.reqs[x].maxNew)
  }

  lemma LighterTwice(s: State, t: State, u: State)
    requires Lighter(s, t) && Lighter(t, u)
    ensures Lighter(s, u)
  {
  }

  lemma LighterSelf(s: State)
    ensures Lighter(s, s)
  {
  }

  lemma SameExtra(reqs: map<SeqId, Request>, after: map<SeqId, Request>, B: nat)
    requires B >= 1 && after.Keys == reqs.Keys
    requires forall x | x in reqs :: after[x].prompt == reqs[x].prompt && after[x].maxNew == reqs[x].maxNew
    ensures forall x | x in reqs :: Extra(after[x], B) == Extra(reqs[x], B) <= Worst(reqs[x], B)
  {
    hide BlocksFor;
  }

  lemma LighterBounded(s: State, t: State)
    requires Bounded(s) && Lighter(s, t)
    ensures Bounded(t)
  {
    hide Sum, Extra;
    var B := s.cache.blockSize;
    SameExtra(s.reqs, t.reqs, B);
    forall x | x in Ids(t.running) ensures x in Ids(s.running) && x in s.reqs.Keys && Extra(t.reqs[x], B) == Extra(s.reqs[x], B) {
    }
    SumAtMost(Extras(s.reqs, B), Ids(s.running), Extras(t.reqs, B), Ids(t.running));
  }

  /** One more running request keeps the bound if there is room for it in the worst case. */
  lemma JoinBounded(s: State, t: State, id: SeqId)
    requires Bounded(s) && id in s.reqs && id !in s.running
    requires t.running == s.running + [id] && t.reqs.Keys == s.reqs.Keys && t.swapped == s.swapped
    requires forall x | x in s.reqs :: t.reqs[x].prompt == s.reqs[x].prompt && t.reqs[x].maxNew == s.reqs[x].maxNew
    requires t.cache.blockSize == s.cache.blockSize && |t.cache.refs| == |s.cache.refs| && !t.cache.prefixCaching
    requires Worst(s.reqs[id], s.cache.blockSize) + Sum(Extras(s.reqs, s.cache.blockSize), Ids(s.running)) <= |s.cache.refs|
    ensures Bounded(t)
  {
    hide Sum, Extra;
    var B := s.cache.blockSize;
    SameExtra(s.reqs, t.reqs, B);
    var before, after := Extras(s.reqs, B), Extras(t.reqs, B);
    forall x | x in Ids(s.running) ensures x in s.reqs.Keys && Extra(t.reqs[x], B) == Extra(s.reqs[x], B) {
    }
    assert Extra(t.reqs[id], B) <= Worst(s.reqs[id], B);
    assert Ids(t.running) - {id} == Ids(s.running);
    SumWithout(after, Ids(t.running), id);
    SumAtMost(before, Ids(s.running), after, Ids(s.running));
  }

  /** The admission test leaves the room JoinBounded asks for. */
  lemma AdmissionRoom(m: Model, cfg: Config, s: State)
    requires Inv(m, cfg, s, {}) && !cfg.speculate && !s.cache.prefixCaching && NonePrefilling(s)
    requires s.waiting != [] && WaitingNeed(m, cfg, s) <= Available(m, cfg, s)
    ensures s.cache.blockSize >= 1 && s.waiting[0] in s.reqs && Ids(s.running) <= s.reqs.Keys
    ensures Worst(s.reqs[s.waiting[0]], s.cache.blockSize) + Sum(Extras(s.reqs, s.cache.blockSize), Ids(s.running)) <= |s.cache.refs|
  {
    hide Sum, BlocksFor, PledgeOf, Extra;
    ListFacts(m, cfg, s);
    RunningDistinctIds(m, cfg, s);
    var B, ids := s.cache.blockSize, Ids(s.running);
    PledgedIsSum(s.reqs, s.running, B);
    forall x | x in ids ensures Extra(s.reqs[x], B) <= PledgeOf(s.reqs[x], B) + |s.cache.seqs[x].table| {
      RunningSettled(m, cfg, s, x);
      PledgeCovers(s.reqs[x], s.cache.seqs[x], B);
    }
    hide Inv;
    var both := map x | x in ids :: PledgeOf(s.reqs[x], B) + |s.cache.seqs[x].table|;
    SumPlus(Pledges(s.reqs, B), Tables(s.cache.seqs), both, ids);
    SumAtMost(both, ids, Extras(s.reqs, B), ids);
  }

  lemma RunningDistinctIds(m: Model, cfg: Config, s: State)
    requires Inv(m, cfg, s, {})
    ensures NoDup(s.running) && Ids(s.running) == s.cache.seqs.Keys
    ensures !s.cache.prefixCaching ==> |s.cache.free| + Sum(Tables(s.cache.seqs), Ids(s.running)) == |s.cache.refs|
  {
    hide Counted, FreeExact, SharedIndexed, TablesDistinct, Faithful, HostFaithful, OnTrack, Resident, Wf;
    assert forall x :: x in Ids(s.running) <==> x in s.cache.seqs.Keys;
    if !s.cache.prefixCaching {
      BlocksSplit(s.cache);
    }
  }

  lemma RunningSettled(m: Model, cfg: Config, s: State, x: SeqId)
    requires Inv(m, cfg, s, {}) && !cfg.speculate && x in s.running && x in s.reqs && s.reqs[x].status != Prefilling
    ensures x in s.cache.seqs && TableSettled(s.reqs[x], s.cache.seqs[x], s.cache.blockSize)
  {
    hide Sound, Faithful, HostFaithful, OnTrack, PrivateFrom, BlocksFor, NoDup;
    assert Resident(cfg, s.reqs[x], s.cache.seqs[x], s.cache.info, s.cache.blockSize, false);
  }

  /** In every reachable state without speculation: no table grows beyond what all tokens but the last
      one need, and for every request past its prefill the pledge is off as PledgeExactness says. */
  lemma PledgesAgainstNeeds(m: Model, cfg: Config, s: State, x: SeqId)
    requires Inv(m, cfg, s, {}) && !cfg.speculate && x in s.running && x in s.reqs && s.reqs[x].maxNew >= 1
    ensures x in s.cache.seqs && s.cache.blockSize >= 1
    ensures var r, st, B := s.reqs[x], s.cache.seqs[x], s.cache.blockSize;
            var now, end := (|r.prompt| + |r.output| - 1) % B == 0, (|r.prompt| + r.maxNew - 1) % B == 0;
            && StillTakes(r, st, B) >= 0
            && (r.status != Prefilling ==>
                  PledgeOf(r, B) - StillTakes(r, st, B) == if now == end then 0 else if now then -1 else 1)
  {
    var r := s.reqs[x];
    ResidentFacts(m, cfg, s, x);
    var st, B := s.cache.seqs[x], s.cache.blockSize;
    if r.status == Prefilling {
      BlocksForMonotone(B, |r.prompt|, |r.prompt| + r.maxNew - 1);
    } else {
      RunningSettled(m, cfg, s, x);
      PledgeExactness(r, st, B);
    }
  }

  lemma ResidentFacts(m: Model, cfg: Config, s: State, x: SeqId)
    requires Inv(m, cfg, s, {}) && x in s.running && x in s.reqs && s.reqs[x].maxNew >= 1
    ensures x in s.cache.seqs && s.cache.blockSize >= 1 && s.reqs[x].prompt != [] && |s.reqs[x].output| <= s.reqs[x].maxNew
    ensures s.reqs[x].status == Prefilling ==> |s.cache.seqs[x].table| <= BlocksFor(s.cache.blockSize, |s.reqs[x].prompt|)
    ensures s.reqs[x].status in {Prefilling, Running, Finished}
  {
    hide Sound, Faithful, HostFaithful, PrivateFrom, BlocksFor, NoDup, IsStop, Greedy;
    assert Resident(cfg, s.reqs[x], s.cache.seqs[x], s.cache.info, s.cache.blockSize, false);
    assert OnTrack(m, s.reqs[x]);
    if |s.reqs[x].output| >= 2 { assert !StopsAt(m, s.reqs[x], |s.reqs[x].output| - 1); }
  }

  // ---- every transition keeps it ----

  lemma {:induction false} AdmitBounded(m: Model, cfg: Config, s: State, admitted: seq<SeqId>)
    requires Inv(m, cfg, s, {}) && cfg.budget.None? && !cfg.speculate && Bounded(s)
    ensures Bounded(Admit(m, cfg, s, admitted).0)
    decreases |s.waiting|
  {
    hide Inv, Bounded, AdmitOne;
    if s.waiting != [] && WaitingNeed(m, cfg, s) <= Available(m, cfg, s) {
      AvailableFits(m, cfg, s);
      AdmitOneKeeps(m, cfg, s);
      AdmitOneBounded(m, cfg, s);
      AdmitOneFrame(m, cfg, s);
      AdmitBounded(m, cfg, AdmitOne(m, cfg, s).0, admitted + [s.waiting[0]]);
    }
  }

  lemma AdmitOneBounded(m: Model, cfg: Config, s: State)
    requires Inv(m, cfg, s, {}) && cfg.budget.None? && !cfg.speculate && Bounded(s)
    requires s.waiting != [] && WaitingNeed(m, cfg, s) <= Available(m, cfg, s) && AdmitOne(m, cfg, s).1
    ensures Bounded(AdmitOne(m, cfg, s).0)
  {
    hide Inv, AdmitOne, Sum, BlocksFor;
    WaitingHead(m, cfg, s);
    UnchunkedNonePrefilling(m, cfg, s);
    AdmissionRoom(m, cfg, s);
    AdmitOneFrame(m, cfg, s);
    AdmitOneCaching(m, cfg, s);
    JoinBounded(s, AdmitOne(m, cfg, s).0, s.waiting[0]);
  }

  lemma AdmitOneCaching(m: Model, cfg: Config, s: State)
    requires Inv(m, cfg, s, {}) && s.waiting != []
    ensures AdmitOne(m, cfg, s).0.cache.prefixCaching == s.cache.prefixCaching
  {
    hide CacheOk, AllOnTrack, Listed, OnePrefilling, AllResident, AllSaved, PrefillWithPrefixReuse;
  }

  lemma UnchunkedNonePrefilling(m: Model, cfg: Config, s: State)
    requires Inv(m, cfg, s, {}) && cfg.budget.None?
    ensures NonePrefilling(s)
  {
    hide CacheOk, AllOnTrack, Listed, AllResident, AllSaved;
  }

  lemma ChunkLighter(m: Model, cfg: Config, s: State, id: SeqId, budget: nat)
    requires Inv(m, cfg, s, {}) && id in s.running && id in s.reqs && s.reqs[id].status == Prefilling
    ensures Lighter(s, PrefillChunk(m, cfg, s, id, budget).state)
  {
    hide Inv, ContinuePrefill, RegisterPrefixBlocks, Next;
    PrefillingFacts(m, cfg, s, id);
  }

  lemma {:induction false} InFlightBounded(m: Model, cfg: Config, s: State, ids: seq<SeqId>, budget: nat, completed: seq<SeqId>)
    requires Inv(m, cfg, s, {}) && InFlight(s, ids, budget) && Bounded(s)
    ensures Bounded(ContinueInFlight(m, cfg, s, ids, budget, completed).state)
    decreases |ids|
  {
    hide Inv, Bounded, InFlight, PrefillChunk, Lighter, ChunkOutcome;
    if ids != [] && budget > 0 {
      InFlightHead(m, cfg, s, ids, budget);
      var out := PrefillChunk(m, cfg, s, ids[0], budget);
      ChunkLighter(m, cfg, s, ids[0], budget);
      LighterBounded(s, out.state);
      if out.ok {
        InFlightBounded(m, cfg, out.state, ids[1..], out.budget, if out.done then completed + [ids[0]] else completed);
      }
    }
  }

  lemma {:induction false} AdmitChunkedBounded(m: Model, cfg: Config, s: State, budget: nat, completed: seq<SeqId>)
    requires Inv(m, cfg, s, {}) && cfg.budget.Some? && (budget > 0 ==> NonePrefilling(s)) && !cfg.speculate && Bounded(s)
    ensures Bounded(AdmitChunked(m, cfg, s, budget, completed).state)
    decreases |s.waiting|
  {
    hide Inv, Bounded, PrefillChunk, Lighter, ChunkOutcome, StartChunked, NonePrefilling;
    if s.waiting != [] && budget > 0 && WaitingNeed(m, cfg, s) <= Available(m, cfg, s) {
      var id := s.waiting[0];
      AdmitChunkedHead(m, cfg, s, budget);
      var started := StartChunked(m, cfg, s);
      StartBounded(m, cfg, s);
      var out := PrefillChunk(m, cfg, started, id, budget);
      ChunkLighter(m, cfg, started, id, budget);
      LighterBounded(started, out.state);
      if out.ok {
        AdmitChunkedBounded(m, cfg, out.state, out.budget, if out.done then completed + [id] else completed);
      }
    }
  }

  lemma StartBounded(m: Model, cfg: Config, s: State)
    requires Inv(m, cfg, s, {}) && !cfg.speculate && Bounded(s) && NonePrefilling(s)
    requires s.waiting != [] && WaitingNeed(m, cfg, s) <= Available(m, cfg, s)
    ensures Bounded(StartChunked(m, cfg, s))
  {
    hide Inv, CreateForPrompt, Sum, BlocksFor;
    WaitingHead(m, cfg, s);
    AdmissionRoom(m, cfg, s);
    ListFacts(m, cfg, s);
    JoinBounded(s, StartChunked(m, cfg, s), s.waiting[0]);
  }

  lemma PrefillWorkBounded(m: Model, cfg: Config, s: State)
    requires Inv(m, cfg, s, {}) && !cfg.speculate && Bounded(s)
    ensures Bounded(PrefillWork(m, cfg, s).state)
  {
    hide Inv, Bounded, Admit, ContinueInFlight, AdmitChunked, WithStatus;
    ListFacts(m, cfg, s);
    if cfg.budget.None? {
      AdmitBounded(m, cfg, s, []);
    } else {
      var ids := WithStatus(s.reqs, s.running, Prefilling);
      RunningDistinctIds(m, cfg, s);
      InFlightBounded(m, cfg, s, ids, cfg.budget.value, []);
      var w := ContinueInFlight(m, cfg, s, ids, cfg.budget.value, []);
      if w.ok {
        AdmitChunkedBounded(m, cfg, w.state, w.budget, w.completed);
      }
    }
  }

  lemma DecodeOnceLighter(m: Model, cfg: Config, s: State, ids: seq<SeqId>)
    requires Retrying(m, cfg, s, ids)
    ensures Lighter(s, DecodeOnce(m, cfg, s, ids).0)
  {
    hide Inv, DecodeOnce, Next;
    DecodeOnceKeeps(m, cfg, s, ids);
    DecodeOnceFrame(m, cfg, s, ids);
    var t := DecodeOnce(m, cfg, s, ids).0;
    forall x | x in s.reqs ensures t.reqs[x].prompt == s.reqs[x].prompt && t.reqs[x].maxNew == s.reqs[x].maxNew {
      if DecodeOnce(m, cfg, s, ids).1 && x in ids {
        var i :| 0 <= i < |ids| && ids[i] == x;
      }
    }
  }

  lemma PreemptLighter(cfg: Config, s: State, id: SeqId)
    requires Wf(s.cache) && id in s.reqs && id in s.cache.seqs && NoDup(s.running) && !cfg.swap
    ensures Lighter(s, Preempt(cfg, s, id))
  {
    hide Wf, FreeSequence;
    RemoveDistinct(s.running, id);
  }

  lemma {:induction false} DecodeActiveLighter(m: Model, cfg: Config, s: State, ids: seq<SeqId>)
    requires Retrying(m, cfg, s, ids) && !cfg.swap
    ensures Lighter(s, DecodeActive(m, cfg, s, ids).0)
    decreases |ids|
  {
    hide Inv, Lighter, Retrying, DecodeOnce, Preempt;
    if ids == [] {
      LighterSelf(s);
    } else {
      DecodeOnceLighter(m, cfg, s, ids);
      var (after, ok) := DecodeOnce(m, cfg, s, ids);
      if !ok {
        RetryKeeps(m, cfg, s, ids);
        RunningDistinct(m, cfg, s, ids);
        DecodeOnceFrame(m, cfg, s, ids);
        PreemptLighter(cfg, after, ids[|ids| - 1]);
        var next := Preempt(cfg, after, ids[|ids| - 1]);
        DecodeActiveLighter(m, cfg, next, ids[..|ids| - 1]);
        LighterTwice(s, after, next);
        LighterTwice(s, next, DecodeActive(m, cfg, next, ids[..|ids| - 1]).0);
      }
    }
  }

  lemma DecodeWorkLighter(m: Model, cfg: Config, s: State, completed: seq<SeqId>)
    requires Inv(m, cfg, s, {}) && !cfg.swap && !cfg.speculate
    ensures Lighter(s, DecodeWork(m, cfg, s, completed).0)
  {
    hide Inv, DecodeActive, SpeculateActive, ActiveOf, Retrying;
    ListFacts(m, cfg, s);
    ActiveOfIsActive(m, cfg, s, completed);
    var active := ActiveOf(s.reqs, s.running, completed);
    NothingSpeculated(m, cfg, s, active, [], []);
    assert [] + active == active;
    if active != [] {
      StartRetrying(m, cfg, s, active);
      DecodeActiveLighter(m, cfg, s, active);
    }
  }

  lemma RetireLighter(m: Model, cfg: Config, s: State)
    requires Inv(m, cfg, s, {})
    ensures Lighter(s, Retire(m, cfg, s))
  {
    hide Inv, Retire;
  }

  lemma StepBounded(m: Model, cfg: Config, s: State)
    requires Inv(m, cfg, s, {}) && !cfg.swap && !cfg.speculate && Bounded(s)
    ensures Bounded(Step(m, cfg, s).state)
  {
    hide Inv, PrefillWork, DecodeWork, Retire, Lighter;
    assert TrySwapIn(m, cfg, s) == s;
    PrefillWorkBounded(m, cfg, s);
    hide Bounded;
    var w := PrefillWork(m, cfg, s);
    if w.ok {
      var t := DecodeWork(m, cfg, w.state, w.completed).0;
      DecodeWorkLighter(m, cfg, w.state, w.completed);
      RetireLighter(m, cfg, t);
      LighterTwice(w.state, t, Retire(m, cfg, t));
      LighterBounded(w.state, Retire(m, cfg, t));
    }
  }

  // ---- over every run ----

  lemma PerformBounded(m: Model, cfg: Config, s: State, e: Event)
    requires Inv(m, cfg, s, {}) && !cfg.swap && !cfg.speculate && Bounded(s)
    ensures Bounded(Perform(m, cfg, s, e))
  {
    hide Inv, Step, Sum;
    ListFacts(m, cfg, s);
    match e
    case Arrive(id, request) =>
      if id !in s.reqs { ArriveBounded(s, id, request); }
    case Abandon(id) =>
      CancelFrame(m, cfg, s, id);
      LighterBounded(s, Cancel(s, id));
    case Iterate =>
      StepBounded(m, cfg, s);
  }

  lemma ArriveBounded(s: State, id: SeqId, r: Request)
    requires Bounded(s) && id !in s.reqs
    ensures Bounded(AddRequest(s, id, r))
  {
    hide Sum;
    var t, B := AddRequest(s, id, r), s.cache.blockSize;
    SumAtMost(Extras(s.reqs, B), Ids(s.running), Extras(t.reqs, B), Ids(s.running));
  }

  lemma {:induction false} ExecuteBounded(m: Model, cfg: Config, s: State, events: seq<Event>)
    requires Inv(m, cfg, s, {}) && !cfg.swap && !cfg.speculate && Bounded(s)
    ensures Bounded(Execute(m, cfg, s, events))
    decreases |events|
  {
    hide Inv, Bounded, Perform;
    if events != [] {
      var k := |events| - 1;
      ExecuteBounded(m, cfg, s, events[..k]);
      PerformBounded(m, cfg, Execute(m, cfg, s, events[..k]), events[k]);
    }
  }

  /** What running requests may still ask for never exceeds the free blocks by more than one block
      for each of them. */
  ghost predicate WithinSlack(s: State) {
    && s.cache.blockSize >= 1 && Ids(s.running) <= s.reqs.Keys && Ids(s.running) <= s.cache.seqs.Keys
    && |s.cache.free| >= Sum(Worsts(s.reqs, s.cache.blockSize), Ids(s.running))
                         - Sum(Tables(s.cache.seqs), Ids(s.running)) - |s.running|
  }

  lemma BoundedWithinSlack(m: Model, cfg: Config, s: State)
    requires Inv(m, cfg, s, {}) && Bounded(s)
    ensures WithinSlack(s)
  {
    hide Sum;
    RunningDistinctIds(m, cfg, s);
    hide Inv;
    var B, ids := s.cache.blockSize, Ids(s.running);
    var ones := map x | x in s.reqs :: 1;
    var both := map x | x in s.reqs :: Extra(s.reqs[x], B) + 1;
    SumPlus(Extras(s.reqs, B), ones, both, ids);
    SumAtMost(both, ids, Worsts(s.reqs, B), ids);
    CountOnes(ones, s.running);
  }

  lemma {:induction false} CountOnes(ones: map<SeqId, nat>, ids: seq<SeqId>)
    requires NoDup(ids) && Ids(ids) <= ones.Keys && forall x | x in ones :: ones[x] == 1
    ensures Sum(ones, Ids(ids)) == |ids|
    decreases |ids|
  {
    if ids == [] {
      assert Ids(ids) == {};
    } else {
      var n := |ids| - 1;
      assert ids[n] !in ids[..n];
      assert Ids(ids) - {ids[n]} == Ids(ids[..n]);
      SumWithout(ones, Ids(ids), ids[n]);
      CountOnes(ones, ids[..n]);
    }
  }

  /** With swap, speculation and prefix caching off, every reachable state is within the slack,
      chunked prefill or not. */
  lemma SlackIsBounded(m: Model, cfg: Config, n: nat, B: nat, hash: (Option<Hash>, seq<Token>) -> Hash, zero: Kv, events: seq<Event>)
    requires B >= 1 && !cfg.swap && !cfg.speculate
    ensures Inv(m, cfg, Initial(EmptyCache(n, B, false, hash, zero)), {})
    ensures WithinSlack(Execute(m, cfg, Initial(EmptyCache(n, B, false, hash, zero)), events))
  {
    var start := Initial(EmptyCache(n, B, false, hash, zero));
    InitialInv(m, cfg, n, B, false, hash, zero);
    hide Inv, Execute;
    assert Ids(start.running) == {};
    ExecuteBounded(m, cfg, start, events);
    BoundedWithinSlack(m, cfg, Execute(m, cfg, start, events));
  }
}
