/** Chunked prefill: exactly when a step runs out of blocks, and a run that does. */
module ChunkedRoom {
  import opened LanguageModel
  import opened Options
  import opened Positions
  import opened Sums
  import opened PagedKvCache
  import opened CacheInvariant
  import opened CacheOperations
  import opened ModelRunner
  import opened BatchedDecode
  import opened Requests
  import opened SchedulerState
  import opened SchedulerSteps
  import opened SchedulerDecode
  import opened SchedulerModel
  import opened SchedulerRuns
  import opened SwapProgress
  import opened AdmissionSlack
  import opened RetryLoop
  import opened ChunkBudget
  import opened RecomputeProgress
  import opened Overcommit

  /** The tokens the next chunk of a prompt caches up to. */
  function ChunkEnd(r: Request, st: SeqState, budget: nat): nat {
    if st.len + budget <= |r.prompt| then st.len + budget else |r.prompt|
  }

  /** The blocks the next chunk needs are in its table or free. */
  ghost predicate ChunkFits(s: State, id: SeqId, budget: nat) {
    && id in s.reqs && id in s.cache.seqs && s.cache.blockSize >= 1
    && BlocksFor(s.cache.blockSize, ChunkEnd(s.reqs[id], s.cache.seqs[id], budget)) <= |s.cache.seqs[id].table| + |s.cache.free|
  }

  ghost predicate InFlightFits(s: State, budget: nat) {
    forall x | x in s.running && x in s.reqs && s.reqs[x].status == Prefilling :: ChunkFits(s, x, budget)
  }

  /** A chunk raises exactly when its blocks do not suffice; otherwise its table gets just those. */
  lemma ChunkRaisesIff(m: Model, cfg: Config, s: State, id: SeqId, budget: nat)
    requires Inv(m, cfg, s, {}) && id in s.running && id in s.reqs && s.reqs[id].status == Prefilling
    ensures id in s.cache.seqs && s.cache.blockSize >= 1
    ensures var out := PrefillChunk(m, cfg, s, id, budget);
            && (out.ok <==> ChunkFits(s, id, budget))
            && id in out.state.cache.seqs
            && var need := BlocksFor(s.cache.blockSize, ChunkEnd(s.reqs[id], s.cache.seqs[id], budget));
            (out.ok ==> |out.state.cache.seqs[id].table| == if need <= |s.cache.seqs[id].table| then |s.cache.seqs[id].table| else need)
  {
    hide Counted, FreeExact, SharedIndexed, TablesDistinct, Faithful, HostFaithful, OnTrack, ContinuePrefill, RegisterPrefixBlocks;
    hide Resident, InjectiveHash, Wf, NoDup, BlocksFor, PrivateFrom, Next, Listed, OnePrefilling, AllSaved, PredictsNext;
    PrefillingFacts(m, cfg, s, id);
    var r, start := s.reqs[id], s.cache.seqs[id].len;
    var n := if budget <= |r.prompt| - start then budget else |r.prompt| - start;
    ContinuePrefillKeeps(m, s.cache, Hist(s.reqs, s.cache.seqs), id, r.prompt[start..start + n]);
    hide Inv;
    assert ChunkEnd(r, s.cache.seqs[id], budget) == start + n;
  }

  /** A prompt that was just admitted never lacks blocks for its first chunk. */
  lemma FreshChunkFits(m: Model, cfg: Config, s: State, budget: nat)
    requires Inv(m, cfg, s, {}) && cfg.budget.Some? && NonePrefilling(s) && s.waiting != []
    requires WaitingNeed(m, cfg, s) <= Available(m, cfg, s)
    ensures var id, started := s.waiting[0], StartChunked(m, cfg, s);
            && Inv(m, cfg, started, {}) && id in started.running && id in started.reqs && started.reqs[id].status == Prefilling
            && PrefillChunk(m, cfg, started, id, budget).ok
  {
    hide Inv, NonePrefilling, PrefillChunk, BlocksFor;
    var id, started := s.waiting[0], StartChunked(m, cfg, s);
    ListFacts(m, cfg, s);
    StartChunkedKeeps(m, cfg, s);
    WaitingHead(m, cfg, s);
    AvailableFits(m, cfg, s);
    ChunkRaisesIff(m, cfg, started, id, budget);
    StartTakesNothing(m, cfg, s);
    var r := started.reqs[id];
    BlocksForMonotone(s.cache.blockSize, ChunkEnd(r, started.cache.seqs[id], budget), TotalLenEstimate(r));
  }

  lemma StartTakesNothing(m: Model, cfg: Config, s: State)
    requires Inv(m, cfg, s, {}) && s.waiting != []
    ensures var t := StartChunked(m, cfg, s); t.cache.free == s.cache.free && t.cache.blockSize == s.cache.blockSize
  {
    hide Inv;
    ListFacts(m, cfg, s);
    WaitingHead(m, cfg, s);
  }

  lemma {:induction false} AdmitChunkedNeverRaises(m: Model, cfg: Config, s: State, budget: nat, completed: seq<SeqId>)
    requires Inv(m, cfg, s, {}) && cfg.budget.Some? && (budget > 0 ==> NonePrefilling(s))
    ensures AdmitChunked(m, cfg, s, budget, completed).ok
    decreases |s.waiting|
  {
    hide Inv, PrefillChunk, ChunkOutcome, StartChunked, NonePrefilling;
    if s.waiting != [] && budget > 0 && WaitingNeed(m, cfg, s) <= Available(m, cfg, s) {
      var id, started := s.waiting[0], StartChunked(m, cfg, s);
      AdmitChunkedHead(m, cfg, s, budget);
      FreshChunkFits(m, cfg, s, budget);
      var out := PrefillChunk(m, cfg, started, id, budget);
      AdmitChunkedNeverRaises(m, cfg, out.state, out.budget, if out.done then completed + [id] else completed);
    }
  }

  /** A step's prefill work raises exactly when the prompt in flight lacks blocks for its next chunk:
      admissions never raise, chunked or not. */
  lemma PrefillWorkRaisesIff(m: Model, cfg: Config, s: State)
    requires Inv(m, cfg, s, {})
    ensures PrefillWork(m, cfg, s).ok <==>
              cfg.budget.None? || cfg.budget.value == 0 || InFlightFits(s, cfg.budget.value)
  {
    hide Inv, ContinueInFlight, AdmitChunked, Admit, WithStatus, InFlightFits;
    if cfg.budget.Some? {
      ListFacts(m, cfg, s);
      RunningDistinctIds(m, cfg, s);
      var ids, budget := WithStatus(s.reqs, s.running, Prefilling), cfg.budget.value;
      var w := ContinueInFlight(m, cfg, s, ids, budget, []);
      InFlightRaisesIff(m, cfg, s, ids, budget);
      if w.ok { AdmitChunkedNeverRaises(m, cfg, w.state, w.budget, w.completed); }
    }
  }

  lemma InFlightRaisesIff(m: Model, cfg: Config, s: State, ids: seq<SeqId>, budget: nat)
    requires Inv(m, cfg, s, {}) && InFlight(s, ids, budget)
    requires forall x | x in s.running && x in s.reqs && s.reqs[x].status == Prefilling :: x in ids
    ensures ContinueInFlight(m, cfg, s, ids, budget, []).ok <==>
              budget == 0 || InFlightFits(s, budget)
  {
    hide Inv, PrefillChunk, ChunkFits, ChunkOutcome;
    OneInFlight(m, cfg, s);
    HasMember(ids);
    if ids != [] && budget > 0 {
      var x := ids[0];
      assert x in ids;
      OnlyOne(ids, x);
      InFlightHead(m, cfg, s, ids, budget);
      ChunkRaisesIff(m, cfg, s, x, budget);
      assert ids[1..] == [];
    }
  }

  /** And so does a whole step: decoding, preempting and retiring never raise. */
  lemma StepRaisesIff(m: Model, cfg: Config, s: State)
    requires Inv(m, cfg, s, {})
    ensures Step(m, cfg, s).ok <==>
              cfg.budget.None? || cfg.budget.value == 0 || InFlightFits(TrySwapIn(m, cfg, s), cfg.budget.value)
  {
    hide Inv, PrefillWork, TrySwapIn, InFlightFits, DecodeWork, Retire;
    PrefillWorkRaisesIff(m, cfg, TrySwapIn(m, cfg, s));
  }

  // ---- a run that raises ----

  /** Three prompt tokens a step; no swap or speculation. */
  function Pieces(): Config {
    Config(Some(3), false, false, h => [])
  }

  /** Three prompt tokens and up to three new ones; five prompt tokens and one new one. */
  predicate Early(r: Request) {
    |r.prompt| == 3 && r.maxNew == 3 && r.eos == None && r.stops == {}
  }

  predicate Late(r: Request) {
    |r.prompt| == 5 && r.maxNew == 1 && r.eos == None && r.stops == {}
  }

  /** Three blocks of three slots. */
  ghost predicate TinyEngine(m: Model, s: State) {
    && Inv(m, Pieces(), s, {})
    && s.cache.blockSize == 3 && |s.cache.refs| == 3 && !s.cache.prefixCaching && s.swapped == []
    && 1 in s.reqs && 2 in s.reqs && Early(s.reqs[1]) && Late(s.reqs[2])
  }

  ghost predicate BothQueued(m: Model, s: State) {
    TinyEngine(m, s) && s.running == [] && s.waiting == [1, 2]
  }

  /** The early one has its first token, and half the pledge it needs. */
  ghost predicate EarlyRuns(m: Model, s: State) {
    && TinyEngine(m, s) && s.running == [1] && s.waiting == [2]
    && s.reqs[1].status == Running && |s.reqs[1].output| == 1
  }

  /** The late one is mid-prefill, and the early one's second token has taken the last block. */
  ghost predicate NoBlockLeft(m: Model, s: State) {
    && TinyEngine(m, s) && s.running == [1, 2] && s.waiting == []
    && s.reqs[1].status == Running && |s.reqs[1].output| == 2
    && s.reqs[2].status == Prefilling && 2 in s.cache.seqs && s.cache.seqs[2].len == 3 && |s.cache.seqs[2].table| == 1
  }

  /** One piece of the head's prompt uses the whole budget. */
  ghost predicate Piece(m: Model, s: State, w: Work) {
    && s.waiting != [] && s.waiting[0] in s.reqs
    && var id := s.waiting[0];
    && w.ok && Inv(m, Pieces(), w.state, {}) && Lighter(s, w.state.(running := s.running))
    && w.state.running == s.running + [id] && w.state.waiting == s.waiting[1..]
    && w.state.reqs.Keys == s.reqs.Keys && (forall x | x in s.reqs && x != id :: w.state.reqs[x] == s.reqs[x])
    && id in w.state.cache.seqs && w.state.cache.seqs[id].len == 3 && |w.state.cache.seqs[id].table| == 1
    && s.reqs[id].prompt != []
    && (if |s.reqs[id].prompt| == 3
        then w.completed == [id] && w.state.reqs[id] == FirstToken(s.reqs[id].(status := Prefilling), Next(m, s.reqs[id].prompt))
        else w.completed == [] && w.state.reqs[id] == s.reqs[id].(status := Prefilling))
  }

  lemma FirstPiece(m: Model, s: State)
    requires Inv(m, Pieces(), s, {}) && NonePrefilling(s) && !s.cache.prefixCaching && s.cache.blockSize == 3
    requires s.waiting != [] && s.waiting[0] in s.reqs
    requires WaitingNeed(m, Pieces(), s) <= Available(m, Pieces(), s) && |s.reqs[s.waiting[0]].prompt| >= 3
    ensures Piece(m, s, AdmitChunked(m, Pieces(), s, 3, []))
  {
    hide Inv, NonePrefilling, PrefillChunk, StartChunked, FirstToken, Next;
    var id, started := s.waiting[0], StartChunked(m, Pieces(), s);
    AdmitChunkedHead(m, Pieces(), s, 3);
    FreshChunkFits(m, Pieces(), s, 3);
    StartedEmpty(m, s);
    ChunkRaisesIff(m, Pieces(), started, id, 3);
    assert BlocksFor(3, 3) == 1;
    ChunkLighter(m, Pieces(), started, id, 3);
    var out := PrefillChunk(m, Pieces(), started, id, 3);
    assert out.budget == 0;
    assert [] + [id] == [id];
    hide Lighter;
    LighterTwice(s, started.(running := s.running), out.state.(running := s.running));
  }

  lemma StartedEmpty(m: Model, s: State)
    requires Inv(m, Pieces(), s, {}) && !s.cache.prefixCaching && s.waiting != [] && s.waiting[0] in s.reqs
    ensures var id, t := s.waiting[0], StartChunked(m, Pieces(), s);
            && t.running == s.running + [id] && t.waiting == s.waiting[1..] && s.reqs[id].prompt != []
            && t.reqs == s.reqs[id := s.reqs[id].(status := Prefilling)]
            && id in t.cache.seqs && t.cache.seqs[id] == SeqState([], 0)
            && Lighter(s, t.(running := s.running))
  {
    hide Inv;
    WaitingHead(m, Pieces(), s);
    ListFacts(m, Pieces(), s);
  }

  /** Free blocks, with one running request that has generated k tokens. */
  lemma EarlyTable(m: Model, s: State)
    requires TinyEngine(m, s) && 1 in s.running && s.reqs[1].status == Running && 1 <= |s.reqs[1].output| <= 2
    ensures 1 in s.cache.seqs && |s.cache.seqs[1].table| == |s.reqs[1].output| && PledgeOf(s.reqs[1], 3) == 0
  {
    hide Inv;
    RunningSettled(m, Pieces(), s, 1);
  }

  lemma TinyFree(m: Model, s: State)
    requires TinyEngine(m, s) && (s.running == [] || s.running == [1] || s.running == [1, 2])
    ensures s.running == [] ==> |s.cache.free| == 3
    ensures s.running == [1] ==> 1 in s.cache.seqs && |s.cache.free| == 3 - |s.cache.seqs[1].table|
    ensures s.running == [1, 2] ==>
              1 in s.cache.seqs && 2 in s.cache.seqs && |s.cache.free| == 3 - |s.cache.seqs[1].table| - |s.cache.seqs[2].table|
  {
    hide Inv, Sum;
    RunningDistinctIds(m, Pieces(), s);
    var w := Tables(s.cache.seqs);
    if s.running == [] {
      SumNothing(w);
      assert Ids([]) == {};
    } else if s.running == [1] {
      SumNothing(w);
      assert Ids([1]) == {1};
      assert 1 in Ids(s.running);
      SumWithout(w, {1}, 1);
      assert {1} - {1} == {};
    } else {
      SumNothing(w);
      assert Ids([1, 2]) == {1, 2};
      assert 1 in Ids(s.running) && 2 in Ids(s.running);
      SumWithout(w, {1, 2}, 1);
      assert {1, 2} - {1} == {2};
      SumWithout(w, {2}, 2);
      assert {2} - {2} == {};
    }
  }

  lemma SumNothing(w: map<SeqId, nat>)
    ensures Sum(w, {}) == 0
  {
  }

  lemma NobodyMidPrefill(reqs: map<SeqId, Request>, running: seq<SeqId>)
    requires forall i | 0 <= i < |running| :: running[i] in reqs && reqs[running[i]].status != Prefilling
    ensures WithStatus(reqs, running, Prefilling) == []
  {
    HasMember(WithStatus(reqs, running, Prefilling));
  }

  /** The first step admits the early request. */
  lemma EarlyStep(m: Model, s: State)
    requires BothQueued(m, s)
    ensures var out := Step(m, Pieces(), s); out.ok && EarlyRuns(m, out.state)
  {
    hide Inv, AdmitChunked, Retire, NonePrefilling, Next, SpeculateActive, WithStatus, Lighter;
    ListFacts(m, Pieces(), s);
    NobodyMidPrefill(s.reqs, s.running);
    TinyFree(m, s);
    NoneOfNobody(s);
    FirstPiece(m, s);
    var w := AdmitChunked(m, Pieces(), s, 3, []);
    assert PrefillWork(m, Pieces(), s) == w;
    EarlyAdmitted(m, s, w);
    NothingToDecode(m, Pieces(), w.state, [1]);
    RetireNobody(m, Pieces(), w.state);
  }

  lemma NoneOfNobody(s: State)
    ensures s.running == [] ==> NonePrefilling(s)
    ensures s.running == [1] && 1 in s.reqs && s.reqs[1].status == Running ==> NonePrefilling(s)
  {
  }

  lemma EarlyAdmitted(m: Model, s: State, w: Work)
    requires BothQueued(m, s) && Piece(m, s, w)
    ensures EarlyRuns(m, w.state) && w.completed == [1]
    ensures forall x | x in w.state.running && x in w.state.reqs :: w.state.reqs[x].status != Finished
  {
    hide Inv;
    WaitingHead(m, Pieces(), s);
  }

  /** The second step admits the late one, whose worst case is all that is free, and the early one's
      next token takes a block of it. */
  lemma LateStep(m: Model, s: State)
    requires EarlyRuns(m, s)
    ensures var out := Step(m, Pieces(), s); out.ok && NoBlockLeft(m, out.state)
  {
    hide Inv, AdmitChunked, Retire, NonePrefilling, Next, SpeculateActive, WithStatus, Lighter, DecodeWork;
    ListFacts(m, Pieces(), s);
    NobodyMidPrefill(s.reqs, s.running);
    EarlyTable(m, s);
    TinyFree(m, s);
    PledgedNothing(s.reqs, s.running, 3);
    NoneOfNobody(s);
    FirstPiece(m, s);
    var w := AdmitChunked(m, Pieces(), s, 3, []);
    assert PrefillWork(m, Pieces(), s) == w;
    LateAdmitted(m, s, w);
    LateDecodes(m, w.state);
    RetireNobody(m, Pieces(), DecodeWork(m, Pieces(), w.state, []).0);
  }

  /** Between admission and decoding of the second step. */
  ghost predicate LateStarted(m: Model, s: State) {
    && TinyEngine(m, s) && s.running == [1, 2] && s.waiting == []
    && s.reqs[1].status == Running && |s.reqs[1].output| == 1
    && s.reqs[2].status == Prefilling && 2 in s.cache.seqs && s.cache.seqs[2].len == 3 && |s.cache.seqs[2].table| == 1
  }

  lemma LateAdmitted(m: Model, s: State, w: Work)
    requires EarlyRuns(m, s) && Piece(m, s, w)
    ensures LateStarted(m, w.state) && w.completed == []
  {
    hide Inv;
  }

  lemma LateDecodes(m: Model, s: State)
    requires LateStarted(m, s)
    ensures var t := DecodeWork(m, Pieces(), s, []).0;
            NoBlockLeft(m, t) && forall x | x in t.running && x in t.reqs :: t.reqs[x].status != Finished
  {
    hide Inv, DecodeActive, Retrying, SpeculateActive, Ready;
    ListFacts(m, Pieces(), s);
    ActiveOfIsActive(m, Pieces(), s, []);
    EarlyActive(s.reqs);
    NothingSpeculated(m, Pieces(), s, [1], [], []);
    assert [] + [1] == [1];
    StartRetrying(m, Pieces(), s, [1]);
    BlockForEarly(m, s);
    EarlyDecodes(m, s);
  }

  lemma EarlyActive(reqs: map<SeqId, Request>)
    requires 1 in reqs && 2 in reqs && reqs[1].status == Running && reqs[2].status == Prefilling
    ensures ActiveOf(reqs, [1, 2], []) == [1]
  {
    assert [1, 2][..1] == [1] && [1][..0] == [];
    assert ActiveOf(reqs, [1], []) == [1];
  }

  /** The late one's chunk took one block of the two that were free. */
  lemma BlockForEarly(m: Model, s: State)
    requires LateStarted(m, s)
    ensures Ready(s.cache, 1)
  {
    hide Inv;
    EarlyTable(m, s);
    TinyFree(m, s);
  }

  lemma EarlyDecodes(m: Model, s: State)
    requires LateStarted(m, s) && Retrying(m, Pieces(), s, [1]) && Ready(s.cache, 1)
    ensures var (t, left) := DecodeActive(m, Pieces(), s, [1]);
            NoBlockLeft(m, t) && forall x | x in t.running && x in t.reqs :: t.reqs[x].status != Finished
  {
    hide Inv, Retrying, DecodeOnce, Preempt, NextOf, Ready;
    HeadStays(m, Pieces(), s, [1]);
    DecodeOnceKeeps(m, Pieces(), s, [1]);
    DecodeOnceFrame(m, Pieces(), s, [1]);
    EarlyTwice(m, s);
    OthersUntouched(m, Pieces(), s, [1], 2);
    var ids := [1];
    assert ids[0] == 1;
    var t := DecodeOnce(m, Pieces(), s, ids).0;
    assert t.reqs[1] == AppendToken(s.reqs[1], NextOf(m, s.reqs[1])) && t.reqs[2] == s.reqs[2];
  }

  /** Somebody stayed, and there was only one. */
  lemma EarlyTwice(m: Model, s: State)
    requires Retrying(m, Pieces(), s, [1])
    ensures DecodeActive(m, Pieces(), s, [1]).1 != [] ==>
              && DecodeOnce(m, Pieces(), s, [1]).1
              && DecodeActive(m, Pieces(), s, [1]) == (DecodeOnce(m, Pieces(), s, [1]).0, [1])
  {
    hide Inv, Retrying, DecodeOnce, Preempt;
    if !DecodeOnce(m, Pieces(), s, [1]).1 {
      RetryKeeps(m, Pieces(), s, [1]);
      NobodyLeft(m, Pieces(), s, [1]);
    }
  }

  /** A decode that finds room leaves the tables outside the batch alone. */
  lemma OthersUntouched(m: Model, cfg: Config, s: State, ids: seq<SeqId>, x: SeqId)
    requires Retrying(m, cfg, s, ids) && DecodeOnce(m, cfg, s, ids).1 && x in s.cache.seqs && x !in ids
    ensures x in DecodeOnce(m, cfg, s, ids).0.cache.seqs && DecodeOnce(m, cfg, s, ids).0.cache.seqs[x] == s.cache.seqs[x]
  {
    hide Inv, DecodeBatch, Sound, Faithful, RowsReady, LastTokens, AppendAll, RowReserved, PrivacyKept;
    ActiveReady(m, cfg, s, ids);
    var k := DecodeBatchKeeps(m, s.cache, Hist(s.reqs, s.cache.seqs), ids, LastTokens(s.reqs, ids));
  }

  /** The third step has nowhere to put the rest of the late prompt. */
  lemma RaisingStep(m: Model, s: State)
    requires NoBlockLeft(m, s)
    ensures !Step(m, Pieces(), s).ok
  {
    hide Inv, Step;
    EarlyTable(m, s);
    TinyFree(m, s);
    StepRaisesIff(m, Pieces(), s);
    assert !ChunkFits(s, 2, 3);
    assert 2 in s.running;
  }

  /** Three blocks of three, three prompt tokens a step, a request of three prompt tokens that may
      generate three, and one of five that may generate one: both pass admission, and the third step
      raises for lack of blocks. */
  lemma ChunkedPrefillRunsOut(m: Model, hash: (Option<Hash>, seq<Token>) -> Hash, zero: Kv, r: Request, q: Request)
    requires Early(r) && Late(q)
    ensures Inv(m, Pieces(), Initial(EmptyCache(3, 3, false, hash, zero)), {})
    ensures
      var start, events := Initial(EmptyCache(3, 3, false, hash, zero)), [Arrive(1, r), Arrive(2, q), Iterate, Iterate];
      !Step(m, Pieces(), Execute(m, Pieces(), start, events)).ok
  {
    hide Inv, Step;
    var start, arrivals := Initial(EmptyCache(3, 3, false, hash, zero)), [Arrive(1, r), Arrive(2, q)];
    InitialInv(m, Pieces(), 3, 3, false, hash, zero);
    var both := AddRequest(AddRequest(start, 1, r), 2, q);
    assert arrivals == [] + [Arrive(1, r)] + [Arrive(2, q)];
    ExecuteNext(m, Pieces(), start, [], Arrive(1, r));
    ExecuteNext(m, Pieces(), start, [] + [Arrive(1, r)], Arrive(2, q));
    assert Execute(m, Pieces(), start, arrivals) == both;
    assert BothQueued(m, both);
    EarlyStep(m, both);
    ExecuteNext(m, Pieces(), start, arrivals, Iterate);
    LateStep(m, Step(m, Pieces(), both).state);
    ExecuteNext(m, Pieces(), start, arrivals + [Iterate], Iterate);
    assert arrivals + [Iterate] + [Iterate] == [Arrive(1, r), Arrive(2, q), Iterate, Iterate];
    RaisingStep(m, Execute(m, Pieces(), start, arrivals + [Iterate] + [Iterate]));
  }
}
