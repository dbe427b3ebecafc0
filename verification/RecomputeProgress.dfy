/** Recompute mode finishes as well, although preemption throws a request's output away. The oldest
    running request loses its place only when admissions have just taken the last block; whoever is
    then the oldest never needs another block, and finishes. */
module RecomputeProgress {
  import opened LanguageModel
  import opened Options
  import opened Positions
  import opened PagedKvCache
  import opened CacheInvariant
  import opened CacheOperations
  import opened PrefixReuse
  import opened SwapToHost
  import opened ModelRunner
  import opened BatchedDecode
  import opened Requests
  import opened SchedulerState
  import opened SchedulerSteps
  import opened SchedulerDecode
  import opened Speculation
  import opened SchedulerModel
  import opened SchedulerRuns
  import opened SwapProgress
  import opened AdmissionSlack
  import opened RetryLoop

  // ---- what a step may do to requests ----

  predicate SameRequest(r: Request, t: Request) {
    t == r.(output := t.output, status := t.status)
  }

  /** Nobody joins, whoever leaves the lists is finished, and requests change in output and status only. */
  ghost predicate Goes(s: State, t: State) {
    && t.reqs.Keys == s.reqs.Keys
    && (forall x | x in s.reqs :: SameRequest(s.reqs[x], t.reqs[x]))
    && (forall x :: Live(t, x) ==> Live(s, x))
    && (forall x :: Live(s, x) ==> Live(t, x) || (x in t.reqs && t.reqs[x].status == Finished))
    && (forall x | x in s.reqs && !Live(s, x) :: t.reqs[x] == s.reqs[x])
    && t.cache.blockSize == s.cache.blockSize && |t.cache.refs| == |s.cache.refs|
  }

  lemma GoesTwice(s: State, t: State, u: State)
    requires Goes(s, t) && Goes(t, u)
    ensures Goes(s, u)
  {
    forall x | x in s.reqs ensures SameRequest(s.reqs[x], u.reqs[x]) {
      assert SameRequest(s.reqs[x], t.reqs[x]) && SameRequest(t.reqs[x], u.reqs[x]);
    }
    forall x | Live(s, x) ensures Live(u, x) || (x in u.reqs && u.reqs[x].status == Finished) {
      if !Live(t, x) {
        assert x in t.reqs.Keys;
        assert u.reqs[x] == t.reqs[x];
      }
    }
    forall x | x in s.reqs && !Live(s, x) ensures u.reqs[x] == s.reqs[x] {
      assert !Live(t, x);
    }
  }

  lemma AdvancesGoes(s: State, t: State)
    requires Advances(s, t)
    ensures Goes(s, t)
  {
    forall x | x in s.reqs ensures SameRequest(s.reqs[x], t.reqs[x]) {
      assert Extended(s.reqs[x], t.reqs[x]);
    }
  }

  lemma AllFitGoes(s: State, t: State)
    requires AllFit(s) && Goes(s, t)
    ensures AllFit(t)
  {
    forall x | Live(t, x) && x in t.reqs
      ensures t.reqs[x].maxNew >= 1 && BlocksFor(t.cache.blockSize, TotalLenEstimate(t.reqs[x])) <= |t.cache.refs|
    {
      assert Live(s, x) && x in s.reqs.Keys;
      assert SameRequest(s.reqs[x], t.reqs[x]);
    }
  }

  lemma PreemptGoes(cfg: Config, s: State, id: SeqId)
    requires Wf(s.cache) && id in s.reqs && id in s.cache.seqs && id in s.running
    ensures Goes(s, Preempt(cfg, s, id))
  {
    hide Wf, SwapOut, FreeSequence;
  }

  // ---- the oldest of the batch ----

  /** The next token of x has its slot, or there is a block for it. */
  ghost predicate Ready(c: Cache, x: SeqId) {
    x in c.seqs && c.blockSize >= 1 && (c.free != [] || BlocksFor(c.blockSize, c.seqs[x].len + 1) <= |c.seqs[x].table|)
  }

  lemma ReadyReserves(c: Cache, x: SeqId)
    requires Sound(c, {}) && Ready(c, x)
    ensures Reserve(c, x, 1).1
    ensures BlocksFor(c.blockSize, c.seqs[x].len + 1) <= |Reserve(c, x, 1).0.seqs[x].table|
  {
    GrowSound(c, x, BlocksFor(c.blockSize, c.seqs[x].len + 1));
    BlocksForOneMore(c.blockSize, c.seqs[x].len, |c.seqs[x].table|);
    hide Sound;
  }

  /** If the first row is ready it gets its slot, whatever becomes of the others. */
  lemma {:induction false} FirstReserved(c: Cache, ids: seq<SeqId>)
    requires Sound(c, {}) && Wf(c) && AllCached(c, ids) && NoDup(ids) && ids != [] && Ready(c, ids[0])
    ensures var after := ReserveAll(c, ids).0;
            && ids[0] in after.seqs && after.blockSize == c.blockSize && after.seqs[ids[0]].len == c.seqs[ids[0]].len
            && BlocksFor(c.blockSize, c.seqs[ids[0]].len + 1) <= |after.seqs[ids[0]].table|
    ensures |ids| == 1 ==> ReserveAll(c, ids).1
    decreases |ids|
  {
    hide Sound, Wf, BlocksFor, Reserve;
    var n := |ids| - 1;
    if n == 0 {
      assert ids[..0] == [];
      assert ReserveAll(c, []) == (c, true);
      ReadyReserves(c, ids[0]);
    } else {
      FirstReserved(c, ids[..n]);
      assert ids[0] != ids[n];
    }
  }

  /** A batch whose first request is ready decodes something. */
  lemma {:induction false} HeadStays(m: Model, cfg: Config, s: State, ids: seq<SeqId>)
    requires Retrying(m, cfg, s, ids) && ids != [] && Ready(s.cache, ids[0])
    ensures DecodeActive(m, cfg, s, ids).1 != []
    decreases |ids|
  {
    hide Inv, Retrying, DecodeOnce, Preempt, Ready;
    if !DecodeOnce(m, cfg, s, ids).1 {
      var after, n := DecodeOnce(m, cfg, s, ids).0, |ids| - 1;
      HeadSurvivesAttempt(m, cfg, s, ids);
      RetryKeeps(m, cfg, s, ids);
      HeadSurvivesPreempt(m, cfg, s, ids);
      HeadStays(m, cfg, Preempt(cfg, after, ids[n]), ids[..n]);
    }
  }

  lemma HeadSurvivesAttempt(m: Model, cfg: Config, s: State, ids: seq<SeqId>)
    requires Retrying(m, cfg, s, ids) && ids != [] && Ready(s.cache, ids[0]) && !DecodeOnce(m, cfg, s, ids).1
    ensures |ids| > 1 && NoDup(ids)
    ensures var c := DecodeOnce(m, cfg, s, ids).0.cache;
            ids[0] in c.seqs && c.blockSize >= 1 && BlocksFor(c.blockSize, c.seqs[ids[0]].len + 1) <= |c.seqs[ids[0]].table|
  {
    hide Inv, Sound, Wf, Faithful, RowsReady, BlocksFor, Reserve;
    ActiveReady(m, cfg, s, ids);
    BatchDistinct(m, cfg, s, ids);
    SoundIsWf(s.cache);
    FirstReserved(s.cache, ids);
  }

  lemma HeadSurvivesPreempt(m: Model, cfg: Config, s: State, ids: seq<SeqId>)
    requires |ids| > 1 && NoDup(ids) && Retrying(m, cfg, s, ids) && !DecodeOnce(m, cfg, s, ids).1
    requires var c := DecodeOnce(m, cfg, s, ids).0.cache;
             ids[0] in c.seqs && c.blockSize >= 1 && BlocksFor(c.blockSize, c.seqs[ids[0]].len + 1) <= |c.seqs[ids[0]].table|
    requires var after := DecodeOnce(m, cfg, s, ids).0; ids[|ids| - 1] in after.reqs && ids[|ids| - 1] in after.cache.seqs && Wf(after.cache)
    ensures Ready(Preempt(cfg, DecodeOnce(m, cfg, s, ids).0, ids[|ids| - 1]).cache, ids[..|ids| - 1][0])
  {
    hide Inv, Retrying, DecodeOnce, Wf, BlocksFor;
    assert ids[0] != ids[|ids| - 1];
  }

  /** When the batch is everybody on the device, somebody in it decodes. */
  lemma {:induction false} SomebodyStays(m: Model, cfg: Config, s: State, ids: seq<SeqId>)
    requires Retrying(m, cfg, s, ids) && ids != [] && AllFit(s) && !cfg.speculate
    requires forall x | x in s.running :: x in ids
    ensures DecodeActive(m, cfg, s, ids).1 != []
    decreases |ids|
  {
    hide Inv, Advances, Goes, Retrying, DecodeOnce, Preempt, AllFit, Wf;
    if |ids| == 1 {
      AloneDecodes(m, cfg, s, ids);
    } else if !DecodeOnce(m, cfg, s, ids).1 {
      var n, next := AttemptGoes(m, cfg, s, ids);
      AllFitGoes(s, next);
      PreemptRunning(m, cfg, s, ids);
      SomebodyStays(m, cfg, next, ids[..n]);
    }
  }

  /** One failed attempt and the preemption after it. */
  lemma AttemptGoes(m: Model, cfg: Config, s: State, ids: seq<SeqId>) returns (n: nat, next: State)
    requires Retrying(m, cfg, s, ids) && ids != [] && !DecodeOnce(m, cfg, s, ids).1
    ensures n == |ids| - 1 && ids[n] in DecodeOnce(m, cfg, s, ids).0.reqs && ids[n] in DecodeOnce(m, cfg, s, ids).0.cache.seqs
    ensures Wf(DecodeOnce(m, cfg, s, ids).0.cache) && next == Preempt(cfg, DecodeOnce(m, cfg, s, ids).0, ids[n])
    ensures Retrying(m, cfg, next, ids[..n]) && Goes(s, next)
  {
    hide Inv, Advances, Goes, Retrying, DecodeOnce, Preempt, Wf;
    n := |ids| - 1;
    var after := DecodeOnce(m, cfg, s, ids).0;
    RetryKeeps(m, cfg, s, ids);
    DecodeOnceAdvances(m, cfg, s, ids);
    AdvancesGoes(s, after);
    VictimRunning(m, cfg, s, ids);
    PreemptGoes(cfg, after, ids[n]);
    next := Preempt(cfg, after, ids[n]);
    GoesTwice(s, after, next);
  }

  lemma {:induction false} DecodeActiveGoes(m: Model, cfg: Config, s: State, ids: seq<SeqId>)
    requires Retrying(m, cfg, s, ids)
    ensures Goes(s, DecodeActive(m, cfg, s, ids).0)
    decreases |ids|
  {
    hide Inv, Advances, Goes, Retrying, DecodeOnce, Preempt, Wf;
    if ids == [] {
      StaysPut(s);
      AdvancesGoes(s, s);
    } else if DecodeOnce(m, cfg, s, ids).1 {
      DecodeOnceAdvances(m, cfg, s, ids);
      AdvancesGoes(s, DecodeOnce(m, cfg, s, ids).0);
    } else {
      var n, next := AttemptGoes(m, cfg, s, ids);
      DecodeActiveGoes(m, cfg, next, ids[..n]);
      GoesTwice(s, next, DecodeActive(m, cfg, next, ids[..n]).0);
    }
  }

  lemma AttemptMoves(m: Model, cfg: Config, s: State, ids: seq<SeqId>)
    requires Retrying(m, cfg, s, ids) && ids != [] && !DecodeOnce(m, cfg, s, ids).1
    requires var after, x := DecodeOnce(m, cfg, s, ids).0, ids[|ids| - 1]; x in after.reqs && x in after.cache.seqs && Wf(after.cache)
    ensures var next, x := Preempt(cfg, DecodeOnce(m, cfg, s, ids).0, ids[|ids| - 1]), ids[|ids| - 1];
            && next.running == Remove(s.running, x) && next.cache.blockSize == s.cache.blockSize
            && forall y | y != x && y in s.reqs :: y in next.reqs && next.reqs[y] == s.reqs[y]
  {
    hide Inv, Retrying, DecodeOnce, Wf, FreeSequence, SwapOut, Remove, NextOf, AppendToken;
    DecodeOnceFrame(m, cfg, s, ids);
    DecodeOnceKeeps(m, cfg, s, ids);
  }

  lemma NobodyLeft(m: Model, cfg: Config, s: State, ids: seq<SeqId>)
    requires Retrying(m, cfg, s, ids) && |ids| == 1 && !DecodeOnce(m, cfg, s, ids).1
    requires var after := DecodeOnce(m, cfg, s, ids).0; ids[0] in after.reqs && ids[0] in after.cache.seqs && Wf(after.cache)
    ensures DecodeActive(m, cfg, s, ids) == (Preempt(cfg, DecodeOnce(m, cfg, s, ids).0, ids[0]), [])
  {
    hide Inv, Retrying, DecodeOnce, Preempt, Wf;
    assert ids[..0] == [];
  }

  /** If somebody survives, the oldest on the device still is. */
  lemma {:induction false} HeadKept(m: Model, cfg: Config, s: State, ids: seq<SeqId>)
    requires Retrying(m, cfg, s, ids) && ids != [] && s.running != [] && s.running[0] == ids[0]
    ensures DecodeActive(m, cfg, s, ids).1 != [] ==>
              DecodeActive(m, cfg, s, ids).0.running != [] && DecodeActive(m, cfg, s, ids).0.running[0] == ids[0]
    decreases |ids|
  {
    hide Inv, Goes, Retrying, Wf, DecodeOnce, Preempt, NoDup;
    if DecodeOnce(m, cfg, s, ids).1 {
      DecodeOnceFrame(m, cfg, s, ids);
    } else {
      var n, next := AttemptGoes(m, cfg, s, ids);
      AttemptMoves(m, cfg, s, ids);
      if n == 0 {
        NobodyLeft(m, cfg, s, ids);
      } else {
        BatchDistinct(m, cfg, s, ids);
        FirstIsNotLast(ids);
        HeadKept(m, cfg, next, ids[..n]);
      }
    }
  }

  lemma FirstIsNotLast(ids: seq<SeqId>)
    requires NoDup(ids) && |ids| > 1
    ensures ids[0] != ids[|ids| - 1]
  {
  }

  lemma {:induction false} FreedAtMost(c: Cache, blocks: seq<Block>)
    requires Wf(c) && InRange(c, blocks)
    ensures |FreeBlocks(c, blocks).free| <= |c.free| + |blocks|
    decreases |blocks|
  {
    hide Wf;
    if blocks != [] { FreedAtMost(c, blocks[..|blocks| - 1]); }
  }

  /** If nobody survives, what is free in the end is at most the oldest request's blocks. */
  lemma {:induction false} EvictedFree(m: Model, cfg: Config, s: State, ids: seq<SeqId>)
    requires Retrying(m, cfg, s, ids) && ids != [] && !cfg.swap && !cfg.speculate && DecodeActive(m, cfg, s, ids).1 == []
    ensures s.cache.blockSize >= 1 && ids[0] in s.reqs && |History(s.reqs[ids[0]])| >= 1
    ensures |DecodeActive(m, cfg, s, ids).0.cache.free| <= BlocksFor(s.cache.blockSize, |History(s.reqs[ids[0]])| - 1)
    decreases |ids|
  {
    hide Inv, Goes, Retrying, Wf, DecodeOnce, Preempt, BlocksFor, NoDup;
    if !DecodeOnce(m, cfg, s, ids).1 {
      var n, next := AttemptGoes(m, cfg, s, ids);
      AttemptMoves(m, cfg, s, ids);
      if n == 0 {
        NobodyLeft(m, cfg, s, ids);
        LastVictim(m, cfg, s, ids);
      } else {
        BatchDistinct(m, cfg, s, ids);
        FirstIsNotLast(ids);
        EvictedFree(m, cfg, next, ids[..n]);
      }
    }
  }

  /** A request that is alone in its batch and fails leaves no more behind than its table. */
  lemma LastVictim(m: Model, cfg: Config, s: State, ids: seq<SeqId>)
    requires Retrying(m, cfg, s, ids) && |ids| == 1 && !cfg.swap && !cfg.speculate && !DecodeOnce(m, cfg, s, ids).1
    requires var after := DecodeOnce(m, cfg, s, ids).0; ids[0] in after.reqs && ids[0] in after.cache.seqs && Wf(after.cache)
    ensures s.cache.blockSize >= 1 && ids[0] in s.reqs && |History(s.reqs[ids[0]])| >= 1
    ensures |Preempt(cfg, DecodeOnce(m, cfg, s, ids).0, ids[0]).cache.free| <= BlocksFor(s.cache.blockSize, |History(s.reqs[ids[0]])| - 1)
  {
    hide Inv, Sound, Faithful, Wf, BlocksFor, Retrying, AppendAll;
    var k := FailedAt(m, cfg, s, ids);
    BatchDistinct(m, cfg, s, ids);
    var x, after := ids[0], DecodeOnce(m, cfg, s, ids).0;
    assert ids[..k] == [];
    assert Ids([]) == {};
    RunningTight(m, cfg, after, x, {});
    RunningFacts(m, cfg, after, x, {});
    var detached := after.cache.(seqs := after.cache.seqs - {x});
    SequenceInRange(after.cache, x);
    FreedAtMost(detached, after.cache.seqs[x].table);
    hide DecodeOnce;
  }

  lemma SequenceInRange(c: Cache, x: SeqId)
    requires Wf(c) && x in c.seqs
    ensures InRange(c, c.seqs[x].table) && Wf(c.(seqs := c.seqs - {x}))
  {
  }

  /** Where an attempt failed: the rows before it are reserved ahead, nothing is free. */
  lemma FailedAt(m: Model, cfg: Config, s: State, ids: seq<SeqId>) returns (k: nat)
    requires Retrying(m, cfg, s, ids) && !DecodeOnce(m, cfg, s, ids).1
    ensures var after := DecodeOnce(m, cfg, s, ids).0;
            && k < |ids| && Inv(m, cfg, after, Ids(ids[..k])) && after.cache.free == []
            && after == s.(cache := after.cache) && after.cache.blockSize == s.cache.blockSize
            && StoppedAt(s.cache, ids, (after.cache, false), k)
  {
    hide Counted, FreeExact, SharedIndexed, TablesDistinct, Wf, Faithful, HostFaithful, OnTrack, Resident, DecodeBatch, LastTokens;
    hide AppendAll, NoDup, Listed, OnePrefilling, Decoded, RowsReady, PrivacyKept;
    var j: nat :| j <= |ids| && Inv(m, cfg, s, Ids(ids[..j]));
    ActiveReady(m, cfg, s, ids);
    var tokens := LastTokens(s.reqs, ids);
    k := DecodeBatchKeeps(m, s.cache, Hist(s.reqs, s.cache.seqs), ids, tokens);
    DecodeFailedKeeps(m, cfg, s, ids, j, k, DecodeBatch(m, s.cache, ids, tokens).0);
  }

  // ---- admission ----

  /** Nothing that running requests may still need is pledged. */
  ghost predicate NothingPledged(s: State) {
    s.cache.blockSize >= 1 && forall x | x in s.running && x in s.reqs :: PledgeOf(s.reqs[x], s.cache.blockSize) == 0
  }

  /** Admission appends to the running list, and touches nobody in it. */
  lemma {:induction false} AdmitAppends(m: Model, cfg: Config, s: State, admitted: seq<SeqId>)
    requires Inv(m, cfg, s, {}) && cfg.budget.None?
    ensures var (t, who) := Admit(m, cfg, s, admitted);
            && admitted <= who && t.running == s.running + who[|admitted|..] && t.swapped == s.swapped
            && t.reqs.Keys == s.reqs.Keys && (forall x | x in s.running && x in s.reqs :: t.reqs[x] == s.reqs[x])
    decreases |s.waiting|
  {
    hide Inv, AdmitOne;
    if s.waiting != [] && WaitingNeed(m, cfg, s) <= Available(m, cfg, s) {
      AvailableFits(m, cfg, s);
      AdmitOneKeeps(m, cfg, s);
      AdmitOneFrame(m, cfg, s);
      WaitingHead(m, cfg, s);
      AdmitAppends(m, cfg, AdmitOne(m, cfg, s).0, admitted + [s.waiting[0]]);
    }
  }

  /** Admissions that leave no block free leave nothing pledged either. */
  lemma {:induction false} AdmitTakesAll(m: Model, cfg: Config, s: State, admitted: seq<SeqId>)
    requires Inv(m, cfg, s, {}) && cfg.budget.None?
    ensures var (t, who) := Admit(m, cfg, s, admitted);
            |who| > |admitted| && t.cache.free == [] ==> NothingPledged(t)
    decreases |s.waiting|
  {
    hide Inv, AdmitOne, NothingPledged;
    if s.waiting != [] && WaitingNeed(m, cfg, s) <= Available(m, cfg, s) {
      AvailableFits(m, cfg, s);
      AdmitOneKeeps(m, cfg, s);
      AdmitOneFrame(m, cfg, s);
      WaitingHead(m, cfg, s);
      var next, more := AdmitOne(m, cfg, s).0, admitted + [s.waiting[0]];
      AdmitTakesAll(m, cfg, next, more);
      AdmitAdvances(m, cfg, next, more);
      if next.cache.free == [] { LastBlockTaken(m, cfg, s); }
    }
  }

  lemma LastBlockTaken(m: Model, cfg: Config, s: State)
    requires Inv(m, cfg, s, {}) && cfg.budget.None? && s.waiting != [] && WaitingNeed(m, cfg, s) <= Available(m, cfg, s)
    requires AdmitOne(m, cfg, s).0.cache.free == []
    ensures NothingPledged(AdmitOne(m, cfg, s).0)
  {
    hide Inv, AdmitOne, BlocksFor;
    ListFacts(m, cfg, s);
    AvailableFits(m, cfg, s);
    AdmitOneKeeps(m, cfg, s);
    AdmitOneFrame(m, cfg, s);
    WaitingHead(m, cfg, s);
    TakenAtMost(m, cfg, s);
    var id, t, B := s.waiting[0], AdmitOne(m, cfg, s).0, s.cache.blockSize;
    var r := s.reqs[id];
    BlocksForMonotone(B, |r.prompt|, TotalLenEstimate(r));
    BlocksForMonotone(B, |r.prompt|, |r.prompt| + 1);
    assert PledgedBlocks(s.reqs, s.running, B) == 0;
    forall x | x in t.running && x in t.reqs ensures PledgeOf(t.reqs[x], B) == 0 {
      if x in s.running { NoPledge(s.reqs, s.running, B, x); }
    }
  }

  /** A prefill takes from the free list at most the blocks of its prompt. */
  lemma TakenAtMost(m: Model, cfg: Config, s: State)
    requires Inv(m, cfg, s, {}) && cfg.budget.None? && WaitingFits(s) && AdmitOne(m, cfg, s).1
    ensures s.waiting[0] in s.reqs && s.cache.blockSize >= 1
    ensures |s.cache.free| <= |AdmitOne(m, cfg, s).0.cache.free| + BlocksFor(s.cache.blockSize, |s.reqs[s.waiting[0]].prompt|)
  {
    hide Counted, FreeExact, SharedIndexed, TablesDistinct, Faithful, HostFaithful, OnTrack, PrefillWithPrefixReuse;
    hide CreateForPrompt, Next, Resident, InjectiveHash, HoldersAgree, Wf, NoDup, BlocksFor;
    var id := s.waiting[0];
    WaitingHead(m, cfg, s);
    MatchAgrees(m, s, s.reqs[id].prompt);
    PrefillKeeps(m, s.cache, Hist(s.reqs, s.cache.seqs), id, s.reqs[id].prompt);
    hide Inv;
  }

  lemma {:induction false} NoPledge(reqs: map<SeqId, Request>, running: seq<SeqId>, B: nat, x: SeqId)
    requires B >= 1 && (forall i | 0 <= i < |running| :: running[i] in reqs) && PledgedBlocks(reqs, running, B) == 0 && x in running
    ensures PledgeOf(reqs[x], B) == 0
    decreases |running|
  {
    var n := |running| - 1;
    if x != running[n] { NoPledge(reqs, running[..n], B, x); }
  }

  // ---- the batch of a step ----

  lemma {:induction false} OldOnesActive(reqs: map<SeqId, Request>, old_: seq<SeqId>, new_: seq<SeqId>, completed: seq<SeqId>)
    requires forall i | 0 <= i < |old_| :: old_[i] in reqs && reqs[old_[i]].status == Running && old_[i] !in completed
    requires forall i | 0 <= i < |new_| :: new_[i] in reqs && new_[i] in completed
    ensures forall i | 0 <= i < |old_ + new_| :: (old_ + new_)[i] in reqs
    ensures ActiveOf(reqs, old_ + new_, completed) == old_
    decreases |new_|
  {
    if new_ == [] {
      assert old_ + new_ == old_;
      AllActive(reqs, old_, completed);
    } else {
      var n := |new_| - 1;
      assert (old_ + new_)[..|old_ + new_| - 1] == old_ + new_[..n];
      OldOnesActive(reqs, old_, new_[..n], completed);
    }
  }

  lemma {:induction false} AllActive(reqs: map<SeqId, Request>, ids: seq<SeqId>, completed: seq<SeqId>)
    requires forall i | 0 <= i < |ids| :: ids[i] in reqs && reqs[ids[i]].status == Running && ids[i] !in completed
    ensures ActiveOf(reqs, ids, completed) == ids
    decreases |ids|
  {
    hide NoDup;
    if ids != [] {
      var n := |ids| - 1;
      AllActive(reqs, ids[..n], completed);
      assert ActiveOf(reqs, ids, completed) == ActiveOf(reqs, ids[..n], completed) + [ids[n]];
    }
  }

  // ---- a whole step ----

  /** Swap, chunking and speculation off, and every live request fits into the device alone. */
  ghost predicate Recomputing(m: Model, cfg: Config, s: State) {
    && Inv(m, cfg, s, {}) && !cfg.swap && !cfg.speculate && cfg.budget.None?
    && Settled(s) && AllFit(s) && s.swapped == []
  }

  lemma OldOnesRun(m: Model, cfg: Config, s: State)
    requires Inv(m, cfg, s, {}) && cfg.budget.None? && Settled(s)
    ensures forall i | 0 <= i < |s.running| :: s.running[i] in s.reqs && s.reqs[s.running[i]].status == Running
    ensures NoDup(s.running)
  {
    hide CacheOk, AllOnTrack, AllResident, AllSaved;
    forall i | 0 <= i < |s.running| ensures s.running[i] in s.reqs && s.reqs[s.running[i]].status == Running {
      var x := s.running[i];
      assert x in s.running;
    }
  }

  /** The batch of a step is everybody who ran before it. */
  lemma StepBatch(m: Model, cfg: Config, s: State)
    requires Recomputing(m, cfg, s)
    ensures var (t, who) := Admit(m, cfg, s, []);
            && Inv(m, cfg, t, {}) && t.running == s.running + who && t.swapped == [] && t.reqs.Keys == s.reqs.Keys
            && (forall i | 0 <= i < |t.running| :: t.running[i] in t.reqs) && NoDup(t.running)
            && ActiveOf(t.reqs, t.running, who) == s.running
            && forall x | x in s.running && x in s.reqs :: t.reqs[x] == s.reqs[x]
  {
    hide Inv, Admit, ActiveOf, NoDup;
    AdmitAppends(m, cfg, s, []);
    OldOnesRun(m, cfg, s);
    var (t, who) := Admit(m, cfg, s, []);
    ListsDistinct(m, cfg, t);
    ListFacts(m, cfg, t);
    assert who[0..] == who;
    AppendedApart(s.running, who);
    forall i | 0 <= i < |s.running| ensures s.running[i] in t.reqs && t.reqs[s.running[i]].status == Running && s.running[i] !in who {
      var x := s.running[i];
      assert x in s.running;
    }
    forall i | 0 <= i < |who| ensures who[i] in t.reqs && who[i] in who {
      assert t.running[|s.running| + i] == who[i];
    }
    OldOnesActive(t.reqs, s.running, who, who);
  }

  lemma AppendedApart(a: seq<SeqId>, b: seq<SeqId>)
    requires NoDup(a + b)
    ensures forall x | x in a :: x !in b
  {
    forall i, j | 0 <= i < |a| && 0 <= j < |b| ensures a[i] != b[j] {
      assert (a + b)[i] == a[i] && (a + b)[|a| + j] == b[j];
    }
  }

  lemma RecomputingInv(m: Model, cfg: Config, s: State)
    requires Recomputing(m, cfg, s)
    ensures Inv(m, cfg, s, {}) && cfg.budget.None?
  {
  }

  /** What a step does: admit, decode whoever ran before, retire. */
  lemma StepIs(m: Model, cfg: Config, s: State)
    requires Recomputing(m, cfg, s)
    ensures var (t, who) := Admit(m, cfg, s, []);
            && Inv(m, cfg, t, {}) && Retrying(m, cfg, t, s.running)
            && Step(m, cfg, s).ok && Step(m, cfg, s).state == Retire(m, cfg, DecodeActive(m, cfg, t, s.running).0)
  {
    hide Inv, Admit, ActiveOf, SpeculateActive, DecodeActive, Retire, Retrying;
    StepBatch(m, cfg, s);
    var (t, who) := Admit(m, cfg, s, []);
    ActiveOfIsActive(m, cfg, t, who);
    assert [] + s.running == s.running;
    NothingSpeculated(m, cfg, t, s.running, [], []);
    StartRetrying(m, cfg, t, s.running);
    assert TrySwapIn(m, cfg, s) == s;
    if s.running == [] { NobodyToDecode(m, cfg, t); }
  }

  lemma NobodyToDecode(m: Model, cfg: Config, s: State)
    requires Retrying(m, cfg, s, [])
    ensures DecodeActive(m, cfg, s, []) == (s, [])
  {
    hide Inv, Retrying;
  }

  /** A step keeps everything but output and status, and the settings it runs in. */
  lemma StepGoes(m: Model, cfg: Config, s: State)
    requires Recomputing(m, cfg, s)
    ensures Step(m, cfg, s).ok && Goes(s, Step(m, cfg, s).state) && Recomputing(m, cfg, Step(m, cfg, s).state)
  {
    hide Inv, Admit, DecodeActive, Retire, Retrying, Goes, Advances, AllFit, Settled, Step;
    StepIs(m, cfg, s);
    StepBatch(m, cfg, s);
    AdmitAdvances(m, cfg, s, []);
    var t := Admit(m, cfg, s, []).0;
    AdvancesGoes(s, t);
    DecodeActiveGoes(m, cfg, t, s.running);
    DecodeActiveRetries(m, cfg, t, s.running);
    var d := DecodeActive(m, cfg, t, s.running).0;
    GoesTwice(s, t, d);
    RetireAdvances(m, cfg, d);
    AdvancesGoes(d, Retire(m, cfg, d));
    GoesTwice(s, d, Retire(m, cfg, d));
    AllFitGoes(s, Retire(m, cfg, d));
  }

  // ---- counting down ----

  /** All the blocks the request may need are already its own. */
  predicate Full(r: Request, B: nat) {
    B >= 1 && History(r) != [] && BlocksFor(B, TotalLenEstimate(r)) <= BlocksFor(B, |History(r)| - 1)
  }

  /** The oldest has no more pledged, and the head of the queue needs more than is free. */
  ghost predicate Stuck(s: State) {
    && s.cache.blockSize >= 1 && s.running != [] && s.waiting != []
    && s.running[0] in s.reqs && s.waiting[0] in s.reqs
    && PledgeOf(s.reqs[s.running[0]], s.cache.blockSize) == 0
    && BlocksFor(s.cache.blockSize, TotalLenEstimate(s.reqs[s.waiting[0]])) > |s.cache.free|
  }

  /** How far the oldest running request is from the end, given that no limit exceeds K. */
  ghost function Weight(s: State, K: nat): nat {
    if s.running == [] || s.running[0] !in s.reqs then 2 * K + 3
    else
      var r := s.reqs[s.running[0]];
      if Full(r, s.cache.blockSize) then Left(r) else if Stuck(s) then K + 1 else K + 2 + Left(r)
  }

  ghost function Rank(s: State, K: nat): nat {
    |LiveIds(s)| * (2 * K + 4) + Weight(s, K)
  }

  ghost predicate Limited(s: State, K: nat) {
    forall x | x in s.reqs && Live(s, x) :: s.reqs[x].maxNew <= K
  }

  lemma WeightBounded(s: State, K: nat)
    requires Limited(s, K)
    ensures Weight(s, K) <= 2 * K + 3
  {
    if s.running != [] && s.running[0] in s.reqs { assert Live(s, s.running[0]); }
  }

  /** After a step in which the oldest decoded. */
  lemma DecodedWeighsLess(m: Model, s: State, t: State, K: nat)
    requires Limited(s, K) && s.running != [] && t.running != [] && t.running[0] == s.running[0] && s.running[0] in s.reqs && s.running[0] in t.reqs
    requires s.cache.blockSize >= 1 && t.cache.blockSize == s.cache.blockSize
    requires var r := s.reqs[s.running[0]];
             r.prompt != [] && |r.output| < r.maxNew && t.reqs[t.running[0]] == AppendToken(r, NextOf(m, r))
    ensures Weight(t, K) < Weight(s, K)
  {
    hide Stuck, BlocksFor;
    var B, r := s.cache.blockSize, s.reqs[s.running[0]];
    var a := t.reqs[t.running[0]];
    assert Live(s, s.running[0]);
    BlocksForMonotone(B, |History(r)| - 1, |History(a)| - 1);
    if Stuck(s) { FullNext(s, r, a, B); }
  }

  lemma FullNext(s: State, r: Request, a: Request, B: nat)
    requires Stuck(s) && r == s.reqs[s.running[0]] && B == s.cache.blockSize
    requires a.prompt == r.prompt && |a.output| == |r.output| + 1 && a.maxNew == r.maxNew
    ensures Full(a, B)
  {
    hide BlocksFor;
  }

  /** The oldest has room, or there is a block for it, once it has all its blocks. */
  lemma FullReady(m: Model, cfg: Config, s: State, x: SeqId)
    requires Inv(m, cfg, s, {}) && !cfg.speculate && x in s.running && x in s.reqs && s.reqs[x].status == Running
    ensures x in s.cache.seqs && s.cache.blockSize >= 1 && History(s.reqs[x]) != [] && s.reqs[x].prompt != []
    ensures |s.reqs[x].output| < s.reqs[x].maxNew || s.reqs[x].maxNew == 0
    ensures s.cache.seqs[x].len == |History(s.reqs[x])| - 1 && |s.cache.seqs[x].table| == BlocksFor(s.cache.blockSize, |History(s.reqs[x])| - 1)
    ensures Full(s.reqs[x], s.cache.blockSize) && s.reqs[x].maxNew >= 1 ==> Ready(s.cache, x)
  {
    hide Sound, Faithful, HostFaithful, BlocksFor, PrivateFrom, Greedy, IsStop;
    RunningTight(m, cfg, s, x, {});
    RunningFacts(m, cfg, s, x, {});
    var r := s.reqs[x];
    assert OnTrack(m, r) && !StopsAt(m, r, |r.output|);
    if r.maxNew >= 1 { BlocksForMonotone(s.cache.blockSize, |History(r)|, TotalLenEstimate(r)); }
    hide Inv;
  }

  /** Whoever is still in a list is unfinished. */
  lemma LiveUnfinished(m: Model, cfg: Config, s: State, x: SeqId)
    requires Inv(m, cfg, s, {}) && Settled(s) && Live(s, x)
    ensures x in s.reqs && s.reqs[x].status != Finished
  {
    hide CacheOk, AllOnTrack, AllResident, AllSaved, OnePrefilling;
  }

  /** Retiring when nobody finished changes no block, and the order of the running list not at all. */
  lemma RetireNobody(m: Model, cfg: Config, s: State)
    requires Inv(m, cfg, s, {}) && forall x | x in s.running && x in s.reqs :: s.reqs[x].status != Finished
    ensures Retire(m, cfg, s) == s
  {
    hide Inv, WithStatus, Unfinished;
    ListFacts(m, cfg, s);
    forall i | 0 <= i < |s.running| ensures s.reqs[s.running[i]].status != Finished {
      var x := s.running[i];
      assert x in s.running;
    }
    var finished := WithStatus(s.reqs, s.running, Finished);
    HasMember(finished);
    AllUnfinished(s.reqs, s.running);
  }

  lemma {:induction false} AllUnfinished(reqs: map<SeqId, Request>, ids: seq<SeqId>)
    requires forall i | 0 <= i < |ids| :: ids[i] in reqs && reqs[ids[i]].status != Finished
    ensures Unfinished(reqs, ids) == ids
    decreases |ids|
  {
    hide NoDup;
    if ids != [] {
      var n := |ids| - 1;
      AllUnfinished(reqs, ids[..n]);
      assert Unfinished(reqs, ids) == Unfinished(reqs, ids[..n]) + [ids[n]];
    }
  }

  /** If a step finishes nobody, it ends right after decoding. */
  lemma StepEnds(m: Model, cfg: Config, s: State)
    requires Recomputing(m, cfg, s) && forall x :: Live(s, x) ==> Live(Step(m, cfg, s).state, x)
    ensures var t := Admit(m, cfg, s, []).0;
            Retrying(m, cfg, t, s.running) && Step(m, cfg, s).state == DecodeActive(m, cfg, t, s.running).0
  {
    hide Inv, Admit, DecodeActive, Retire, Retrying, Goes, Step, AllFit, Settled, Live;
    StepIs(m, cfg, s);
    StepGoes(m, cfg, s);
    StepBatch(m, cfg, s);
    var t := Admit(m, cfg, s, []).0;
    var d, u := DecodeActive(m, cfg, t, s.running).0, Step(m, cfg, s).state;
    AdmitAdvances(m, cfg, s, []);
    AdvancesGoes(s, t);
    DecodeActiveGoes(m, cfg, t, s.running);
    GoesTwice(s, t, d);
    forall x | x in d.running && x in d.reqs ensures d.reqs[x].status != Finished {
      RunningLive(s, d, x);
      LiveUnfinished(m, cfg, u, x);
    }
    RetireNobody(m, cfg, d);
  }

  lemma RunningLive(s: State, d: State, x: SeqId)
    requires Goes(s, d) && x in d.running
    ensures Live(s, x)
  {
    assert Live(d, x);
  }

  /** With nobody on the device, somebody is admitted. */
  lemma IdleAdmits(m: Model, cfg: Config, s: State, K: nat)
    requires Recomputing(m, cfg, s) && HasUnfinished(s) && s.running == [] && Limited(s, K)
    requires forall x :: Live(s, x) ==> Live(Step(m, cfg, s).state, x)
    ensures Weight(Step(m, cfg, s).state, K) < Weight(s, K)
  {
    hide Inv, Admit, Retrying, Goes, Step, AllFit, Settled, Live, Full, Stuck, Advances, DecodeActive, ActiveOf, Limited, NoDup, Left;
    StepEnds(m, cfg, s);
    StepBatch(m, cfg, s);
    StepGoes(m, cfg, s);
    AdmitAdvances(m, cfg, s, []);
    var (t, who) := Admit(m, cfg, s, []);
    NobodyToDecode(m, cfg, t);
    if who == [] { IdleMeansDone(m, cfg, t); }
    assert t.running == who;
    LimitedGoes(s, t, K);
    assert t.running[0] in t.reqs;
    HeadLimited(t, K);
  }

  lemma LimitedGoes(s: State, t: State, K: nat)
    requires Goes(s, t) && Limited(s, K)
    ensures Limited(t, K)
  {
    forall x | x in t.reqs && Live(t, x) ensures t.reqs[x].maxNew <= K {
      assert Live(s, x) && x in s.reqs.Keys && SameRequest(s.reqs[x], t.reqs[x]);
    }
  }

  lemma HeadLimited(s: State, K: nat)
    requires Limited(s, K) && s.running != [] && s.running[0] in s.reqs
    ensures Left(s.reqs[s.running[0]]) <= K && s.reqs[s.running[0]].maxNew <= K
  {
    assert Live(s, s.running[0]);
  }

  /** If the oldest survives the step it has one token more. */
  lemma HeadDecodes(m: Model, cfg: Config, s: State, K: nat)
    requires Recomputing(m, cfg, s) && s.running != [] && Limited(s, K)
    requires forall x :: Live(s, x) ==> Live(Step(m, cfg, s).state, x)
    requires var t := Admit(m, cfg, s, []).0; Retrying(m, cfg, t, s.running) && DecodeActive(m, cfg, t, s.running).1 != []
    ensures Weight(Step(m, cfg, s).state, K) < Weight(s, K)
  {
    hide Inv, Admit, DecodeActive, Retrying, Goes, Step, AllFit, Settled, Live, Weight, NextOf, AppendToken;
    StepEnds(m, cfg, s);
    StepBatch(m, cfg, s);
    StepGoes(m, cfg, s);
    OldOnesRun(m, cfg, s);
    var t, h := Admit(m, cfg, s, []).0, s.running[0];
    HeadKept(m, cfg, t, s.running);
    DecodeActiveRetries(m, cfg, t, s.running);
    var u := DecodeActive(m, cfg, t, s.running).0;
    assert h in s.running;
    FullReady(m, cfg, s, h);
    assert u == Step(m, cfg, s).state;
    SameSize(s, u);
    OldestMayGo(s, h);
    DecodedWeighsLess(m, s, u, K);
  }

  lemma SameSize(s: State, t: State)
    requires Goes(s, t)
    ensures t.cache.blockSize == s.cache.blockSize
  {
  }

  lemma OldestMayGo(s: State, x: SeqId)
    requires AllFit(s) && x in s.running && x in s.reqs
    ensures s.reqs[x].maxNew >= 1
  {
    assert Live(s, x);
  }

  /** The oldest survives if it has all its blocks, or if nobody was admitted beside it. */
  lemma HeadSurvives(m: Model, cfg: Config, s: State)
    requires Recomputing(m, cfg, s) && s.running != []
    ensures var (t, who) := Admit(m, cfg, s, []);
            && Retrying(m, cfg, t, s.running)
            && (who == [] ==> DecodeActive(m, cfg, t, s.running).1 != [])
            && (Ready(t.cache, s.running[0]) ==> DecodeActive(m, cfg, t, s.running).1 != [])
            && (s.running[0] in s.reqs && Full(s.reqs[s.running[0]], s.cache.blockSize) ==> Ready(t.cache, s.running[0]))
            && (Stuck(s) ==> who == [])
  {
    hide Inv, DecodeActive, Retrying, Goes, Step, AllFit, Settled, Live, Ready, Full, Advances, Admit;
    StepIs(m, cfg, s);
    StepBatch(m, cfg, s);
    OldOnesRun(m, cfg, s);
    var (t, who) := Admit(m, cfg, s, []);
    var h := s.running[0];
    assert h in s.running && t.running[0] == h;
    AdmitAdvances(m, cfg, s, []);
    AdvancesGoes(s, t);
    AllFitGoes(s, t);
    SameSize(s, t);
    if who == [] {
      assert t.running == s.running;
      SomebodyStays(m, cfg, t, s.running);
    }
    if Ready(t.cache, h) { HeadStays(m, cfg, t, s.running); }
    assert h in t.running && t.reqs[h] == s.reqs[h];
    OldestMayGo(t, h);
    FullReady(m, cfg, t, h);
    if Stuck(s) { StuckAdmitsNobody(m, cfg, s); }
  }

  lemma StuckAdmitsNobody(m: Model, cfg: Config, s: State)
    requires Inv(m, cfg, s, {}) && cfg.budget.None? && Stuck(s)
    ensures Admit(m, cfg, s, []) == (s, [])
  {
    hide Inv;
    ListFacts(m, cfg, s);
  }

  /** If the oldest is preempted, whoever is the oldest afterwards has nothing pledged, and the queue
      is stuck behind the victims. */
  lemma HeadEvicted(m: Model, cfg: Config, s: State, K: nat)
    requires Recomputing(m, cfg, s) && s.running != [] && Limited(s, K)
    requires forall x :: Live(s, x) ==> Live(Step(m, cfg, s).state, x)
    requires var t := Admit(m, cfg, s, []).0; Retrying(m, cfg, t, s.running) && DecodeActive(m, cfg, t, s.running).1 == []
    ensures Weight(Step(m, cfg, s).state, K) < Weight(s, K)
  {
    hide Inv, Admit, DecodeActive, Retrying, Goes, Step, AllFit, Settled, Live, Full, Ready, Advances, BlocksFor, NothingPledged;
    hide Retried, ActiveOf, Limited, NoDup, Stuck, Outgrown;
    StepEnds(m, cfg, s);
    StepBatch(m, cfg, s);
    StepGoes(m, cfg, s);
    OldOnesRun(m, cfg, s);
    HeadSurvives(m, cfg, s);
    var (t, who) := Admit(m, cfg, s, []);
    var h, u := s.running[0], Step(m, cfg, s).state;
    assert h in s.running && h in t.running;
    AdmitAdvances(m, cfg, s, []);
    AdmitTakesAll(m, cfg, s, []);
    OldestMayGo(s, h);
    VictimOutgrown(m, cfg, t, s.running);
    assert NothingPledged(t);
    LimitedGoes(s, u, K);
    NowStuck(m, cfg, s, t, who, u);
    HeadLimited(u, K);
    assert !Stuck(s) && !Full(s.reqs[h], s.cache.blockSize);
  }

  /** The victim needed more blocks than it left behind. */
  ghost predicate Outgrown(t: State, u: State, h: SeqId) {
    && h in t.reqs && History(t.reqs[h]) != [] && u.cache.blockSize == t.cache.blockSize >= 1
    && |u.cache.free| <= BlocksFor(t.cache.blockSize, |History(t.reqs[h])| - 1) < BlocksFor(t.cache.blockSize, |History(t.reqs[h])|)
    && |t.reqs[h].output| < t.reqs[h].maxNew
  }

  lemma VictimOutgrown(m: Model, cfg: Config, t: State, ids: seq<SeqId>)
    requires Inv(m, cfg, t, {}) && Retrying(m, cfg, t, ids) && ids != [] && !cfg.swap && !cfg.speculate
    requires ids[0] in t.running && ids[0] in t.reqs && t.reqs[ids[0]].status == Running && t.reqs[ids[0]].maxNew >= 1
    requires DecodeActive(m, cfg, t, ids).1 == [] && !Ready(t.cache, ids[0])
    ensures var u := DecodeActive(m, cfg, t, ids).0; t.cache.free == [] && Outgrown(t, u, ids[0]) && Retried(m, cfg, t, ids, 0, u)
  {
    hide Inv, DecodeActive, Retrying, Ready, BlocksFor, Retried, Goes, Outgrown, Full, History, VictimsTight;
    FullReady(m, cfg, t, ids[0]);
    NotReadyFree(t, ids[0]);
    EvictedFree(m, cfg, t, ids);
    DecodeActiveGoes(m, cfg, t, ids);
    SameSize(t, DecodeActive(m, cfg, t, ids).0);
    DecodeActiveRetries(m, cfg, t, ids);
    assert |DecodeActive(m, cfg, t, ids).1| == 0;
    Outgrows(t, DecodeActive(m, cfg, t, ids).0, ids[0], t.cache.seqs[ids[0]]);
  }

  lemma Outgrows(t: State, u: State, h: SeqId, st: SeqState)
    requires h in t.reqs && History(t.reqs[h]) != [] && u.cache.blockSize == t.cache.blockSize >= 1
    requires st.len == |History(t.reqs[h])| - 1 && |st.table| == BlocksFor(t.cache.blockSize, |History(t.reqs[h])| - 1)
    requires BlocksFor(t.cache.blockSize, st.len + 1) > |st.table|
    requires |u.cache.free| <= BlocksFor(t.cache.blockSize, |History(t.reqs[h])| - 1) && |t.reqs[h].output| < t.reqs[h].maxNew
    ensures Outgrown(t, u, h)
  {
    hide BlocksFor;
  }

  lemma NotReadyFree(s: State, x: SeqId)
    requires x in s.cache.seqs && s.cache.blockSize >= 1 && !Ready(s.cache, x)
    ensures s.cache.free == [] && BlocksFor(s.cache.blockSize, s.cache.seqs[x].len + 1) > |s.cache.seqs[x].table|
  {
  }

  lemma NowStuck(m: Model, cfg: Config, s: State, t: State, who: seq<SeqId>, u: State)
    requires s.running != [] && who != [] && t.running == s.running + who && NoDup(t.running) && !cfg.swap
    requires Retried(m, cfg, t, s.running, 0, u) && NothingPledged(t) && Outgrown(t, u, s.running[0])
    requires forall i | 0 <= i < |t.running| :: t.running[i] in t.reqs
    ensures Stuck(u) && u.running != [] && u.running[0] in u.reqs
  {
    hide BlocksFor, NextOf;
    assert s.running[0..] == s.running;
    AppendedApart(s.running, who);
    var h := s.running[0];
    assert u.waiting == s.running + t.waiting && u.waiting[0] == h;
    var x := who[0];
    assert x in t.running && x !in s.running;
    assert x in u.running;
    var y := u.running[0];
    assert y in t.running && y !in s.running;
    assert u.reqs[y] == t.reqs[y];
    BlocksForMonotone(u.cache.blockSize, |History(t.reqs[h])|, TotalLenEstimate(t.reqs[h]));
    assert s.running[0] == h && u.reqs[h] == Evicted(cfg, t.reqs[h]);
  }

  /** Every step with unfinished requests lowers the rank. */
  lemma StepRanks(m: Model, cfg: Config, s: State, K: nat)
    requires Recomputing(m, cfg, s) && HasUnfinished(s) && Limited(s, K)
    ensures Rank(Step(m, cfg, s).state, K) < Rank(s, K)
  {
    hide Inv, Recomputing, Weight, Goes, Step, Limited, HasUnfinished, Admit, DecodeActive, Retrying, LiveIds, Live;
    RecomputingInv(m, cfg, s);
    StepGoes(m, cfg, s);
    var u := Step(m, cfg, s).state;
    LimitedGoes(s, u, K);
    WeightBounded(u, K);
    if forall x :: Live(s, x) ==> Live(u, x) {
      SameLive(s, u);
      if s.running == [] {
        IdleAdmits(m, cfg, s, K);
      } else {
        HeadSurvives(m, cfg, s);
        if DecodeActive(m, cfg, Admit(m, cfg, s, []).0, s.running).1 == [] {
          HeadEvicted(m, cfg, s, K);
        } else {
          HeadDecodes(m, cfg, s, K);
        }
      }
    } else {
      FewerLive(m, cfg, s, u);
      var some, all := |LiveIds(u)|, |LiveIds(s)|;
      assert (some + 1) * (2 * K + 4) <= all * (2 * K + 4);
      assert (some + 1) * (2 * K + 4) == some * (2 * K + 4) + 2 * K + 4;
    }
  }

  lemma SameLive(s: State, t: State)
    requires Goes(s, t) && forall x :: Live(s, x) ==> Live(t, x)
    ensures LiveIds(t) == LiveIds(s)
  {
  }

  lemma FewerLive(m: Model, cfg: Config, s: State, t: State)
    requires Recomputing(m, cfg, s) && Goes(s, t) && !forall x :: Live(s, x) ==> Live(t, x)
    ensures |LiveIds(t)| < |LiveIds(s)|
  {
    var x :| Live(s, x) && !Live(t, x);
    LiveUnfinished(m, cfg, s, x);
    hide Recomputing, Inv;
    assert LiveIds(t) <= LiveIds(s) - {x};
    FewerIds(LiveIds(t), LiveIds(s), x);
  }

  lemma FewerIds(a: set<SeqId>, b: set<SeqId>, x: SeqId)
    requires a <= b - {x} && x in b
    ensures |a| < |b|
  {
    assert b == a + (b - a) && x in b - a;
  }

  // ---- completion ----

  /** In recompute mode, unchunked and without speculation, if every request could be cached alone,
      enough steps serve everybody, however much work preemption throws away on the way. */
  lemma {:induction false} RecomputeCompletes(m: Model, cfg: Config, s: State, K: nat, n: nat)
    requires Recomputing(m, cfg, s) && Limited(s, K) && n >= Rank(s, K)
    ensures Inv(m, cfg, s, {})
    ensures var (t, ok) := RunToCompletion(m, cfg, s, n);
            ok && !HasUnfinished(t) && Goes(s, t) && forall x | Live(s, x) :: Served(m, s, t, x)
    decreases n
  {
    hide Inv, Recomputing, Step, Goes, Reference, Rank, Limited, Live, Served, HasUnfinished, Advances;
    RecomputingInv(m, cfg, s);
    var t := RunToCompletion(m, cfg, s, n).0;
    if !HasUnfinished(s) {
      StaysPut(s);
      AdvancesGoes(s, s);
      NobodyLive(s);
    } else {
      StepGoes(m, cfg, s);
      StepRanks(m, cfg, s, K);
      var next := Step(m, cfg, s).state;
      LimitedGoes(s, next, K);
      RecomputeCompletes(m, cfg, next, K, n - 1);
      GoesTwice(s, next, t);
      AllServed(m, cfg, s, t);
    }
  }

  lemma AllServed(m: Model, cfg: Config, s: State, t: State)
    requires Inv(m, cfg, s, {}) && Inv(m, cfg, t, {}) && Goes(s, t) && !HasUnfinished(t)
    ensures forall x | Live(s, x) :: Served(m, s, t, x)
  {
    hide Inv, Goes, Live, HasUnfinished, Served;
    forall x | Live(s, x) ensures Served(m, s, t, x) {
      GoneServed(m, cfg, s, t, x);
    }
  }

  lemma NobodyLive(s: State)
    requires !HasUnfinished(s)
    ensures forall x :: !Live(s, x)
  {
  }

  lemma GoneServed(m: Model, cfg: Config, s: State, t: State, x: SeqId)
    requires Inv(m, cfg, s, {}) && Inv(m, cfg, t, {}) && Goes(s, t) && !HasUnfinished(t) && Live(s, x)
    ensures Served(m, s, t, x)
  {
    hide CacheOk, AllResident, AllSaved, OnePrefilling;
    assert !Live(t, x);
    assert x in s.reqs.Keys;
    assert SameRequest(s.reqs[x], t.reqs[x]) && OnTrack(m, t.reqs[x]) && OnTrack(m, s.reqs[x]);
    OnTrackIsReference(m, t.reqs[x]);
    SameStopLength(m, s.reqs[x], t.reqs[x], 1);
  }

  // ---- from an empty engine ----

  lemma PerformRecomputes(m: Model, cfg: Config, s: State, e: Event, n: nat, B: nat)
    requires Recomputing(m, cfg, s) && B >= 1 && s.cache.blockSize == B && |s.cache.refs| == n && ArrivalsFit([e], n, B)
    ensures Inv(m, cfg, s, {})
    ensures var t := Perform(m, cfg, s, e); Recomputing(m, cfg, t) && t.cache.blockSize == B && |t.cache.refs| == n
  {
    hide Inv, Step;
    ListFacts(m, cfg, s);
    match e
    case Arrive(id, request) =>
      assert [e][0].Arrive?;
    case Abandon(id) =>
      CancelFrame(m, cfg, s, id);
    case Iterate =>
      StepGoes(m, cfg, s);
  }

  lemma {:induction false} ExecuteRecomputes(m: Model, cfg: Config, s: State, events: seq<Event>, n: nat, B: nat)
    requires Recomputing(m, cfg, s) && B >= 1 && s.cache.blockSize == B && |s.cache.refs| == n && ArrivalsFit(events, n, B)
    ensures Inv(m, cfg, s, {})
    ensures var t := Execute(m, cfg, s, events); Recomputing(m, cfg, t) && t.cache.blockSize == B && |t.cache.refs| == n
    decreases |events|
  {
    assert Inv(m, cfg, s, {});
    hide Inv, Perform, Recomputing;
    if events != [] {
      var k := |events| - 1;
      ExecuteRecomputes(m, cfg, s, events[..k], n, B);
      assert [events[k]][0] == events[k];
      PerformRecomputes(m, cfg, Execute(m, cfg, s, events[..k]), events[k], n, B);
    }
  }

  /** From an empty engine in recompute mode, after any arrivals that fit, cancellations and steps,
      running to completion serves every request still in the engine. */
  lemma EverybodyRecomputed(m: Model, cfg: Config, n: nat, B: nat, caching: bool,
                            hash: (Option<Hash>, seq<Token>) -> Hash, zero: Kv, events: seq<Event>, K: nat, steps: nat)
    requires B >= 1 && (caching ==> InjectiveHash(hash)) && !cfg.swap && !cfg.speculate && cfg.budget.None?
    requires ArrivalsFit(events, n, B)
    ensures Inv(m, cfg, Initial(EmptyCache(n, B, caching, hash, zero)), {})
    ensures var s := Execute(m, cfg, Initial(EmptyCache(n, B, caching, hash, zero)), events);
            Limited(s, K) && steps >= (|LiveIds(s)| + 1) * (2 * K + 4) ==>
              var (t, ok) := RunToCompletion(m, cfg, s, steps);
              ok && !HasUnfinished(t) && forall x | Live(s, x) :: Served(m, s, t, x)
  {
    hide Inv, Execute, Served, Live;
    InitialInv(m, cfg, n, B, caching, hash, zero);
    var start := Initial(EmptyCache(n, B, caching, hash, zero));
    NobodyLive(start);
    ExecuteRecomputes(m, cfg, start, events, n, B);
    var s := Execute(m, cfg, start, events);
    if Limited(s, K) && steps >= (|LiveIds(s)| + 1) * (2 * K + 4) {
      WeightBounded(s, K);
      assert (|LiveIds(s)| + 1) * (2 * K + 4) == |LiveIds(s)| * (2 * K + 4) + 2 * K + 4;
      RecomputeCompletes(m, cfg, s, K, steps);
    }
  }
}
