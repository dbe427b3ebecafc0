/** What the out-of-memory retry loop amounts to, however often it goes round. */
module RetryLoop {
  import opened LanguageModel
  import opened Options
  import opened Positions
  import opened PagedKvCache
  import opened CacheInvariant
  import opened ModelRunner
  import opened SwapToHost
  import opened BatchedDecode
  import opened Requests
  import opened SchedulerState
  import opened SchedulerSteps
  import opened SchedulerDecode
  import opened SchedulerModel
  import opened SwapProgress

  /** The victims left the device, in their order, for the front of the list preemption uses. */
  ghost predicate VictimsMoved(cfg: Config, s: State, victims: seq<SeqId>, t: State) {
    && t.waiting == (if cfg.swap then s.waiting else victims + s.waiting)
    && t.swapped == (if cfg.swap then victims + s.swapped else s.swapped)
    && (forall x :: x in t.running <==> x in s.running && x !in victims)
  }

  /** The first `left` requests of the batch got exactly one token each, the greedy one; the others
      were evicted; nobody else was touched. */
  ghost predicate DecodedOnce(m: Model, cfg: Config, reqs: map<SeqId, Request>, ids: seq<SeqId>, left: nat, after: map<SeqId, Request>) {
    && after.Keys == reqs.Keys
    && (forall i | 0 <= i < |ids| :: ids[i] in reqs && reqs[ids[i]].prompt != []
          && after[ids[i]] == if i < left then AppendToken(reqs[ids[i]], NextOf(m, reqs[ids[i]])) else Evicted(cfg, reqs[ids[i]]))
    && (forall x | x in reqs && x !in ids :: after[x] == reqs[x])
  }

  ghost predicate Retried(m: Model, cfg: Config, s: State, ids: seq<SeqId>, left: nat, t: State) {
    && left <= |ids|
    && VictimsMoved(cfg, s, ids[left..], t)
    && DecodedOnce(m, cfg, s.reqs, ids, left, t.reqs)
  }

  /** Whoever the loop preempts has, at that moment, no spare block in its table. */
  ghost predicate VictimsTight(m: Model, cfg: Config, s: State, ids: seq<SeqId>)
    requires Retrying(m, cfg, s, ids)
    decreases |ids|
  {
    if ids == [] || DecodeOnce(m, cfg, s, ids).1 then true
    else
      RetryKeeps(m, cfg, s, ids);
      var after, victim := DecodeOnce(m, cfg, s, ids).0, ids[|ids| - 1];
      && after.cache.blockSize >= 1 && Tight(after.cache, victim)
      && VictimsTight(m, cfg, Preempt(cfg, after, victim), ids[..|ids| - 1])
  }

  lemma {:induction false} DecodeActiveRetries(m: Model, cfg: Config, s: State, ids: seq<SeqId>)
    requires Retrying(m, cfg, s, ids)
    ensures var (t, left) := DecodeActive(m, cfg, s, ids);
            |left| <= |ids| && left == ids[..|left|] && Retried(m, cfg, s, ids, |left|, t)
    ensures !cfg.speculate ==> VictimsTight(m, cfg, s, ids)
    decreases |ids|
  {
    hide Inv, Retrying, DecodeOnce, Preempt, Retried, Faithful, Sound, RowsReady, Wf, AllCached;
    if ids == [] {
      NothingRetried(m, cfg, s);
    } else {
      DecodeOnceKeeps(m, cfg, s, ids);
      var (after, ok) := DecodeOnce(m, cfg, s, ids);
      if ok {
        AllRetried(m, cfg, s, ids, after);
      } else {
        var n := |ids| - 1;
        RetryKeeps(m, cfg, s, ids);
        RunningDistinct(m, cfg, s, ids);
        BatchDistinct(m, cfg, s, ids);
        var next := Preempt(cfg, after, ids[n]);
        DecodeActiveRetries(m, cfg, next, ids[..n]);
        var (t, left) := DecodeActive(m, cfg, next, ids[..n]);
        assert ids[..n][..|left|] == ids[..|left|];
        ActiveReady(m, cfg, s, ids);
        OneMoreVictim(m, cfg, s, after, ids, |left|, t);
      }
    }
  }

  // ---- exactly when somebody is preempted ----

  /** How many of the listed requests have filled their last block: their cached tokens, all but the
      last one of the history, end at a block boundary. */
  function AtBoundary(reqs: map<SeqId, Request>, ids: seq<SeqId>, B: nat): nat
    requires B >= 1 && forall i | 0 <= i < |ids| :: ids[i] in reqs
  {
    if ids == [] then 0
    else AtBoundary(reqs, ids[..|ids| - 1], B) + if Filled(reqs[ids[|ids| - 1]], B) then 1 else 0
  }

  predicate Filled(r: Request, B: nat)
    requires B >= 1
  {
    (|r.prompt| + |r.output| - 1) % B == 0
  }

  /** An attempt finds room exactly if at most as many rows need a block as are free. */
  lemma DecodesIff(m: Model, cfg: Config, s: State, ids: seq<SeqId>)
    requires Retrying(m, cfg, s, ids)
    ensures DecodeOnce(m, cfg, s, ids).1 <==> Needy(s.cache, ids) <= |s.cache.free|
  {
    hide Inv, DecodeBatch, Sound, Faithful, RowsReady, LastTokens, AppendAll, Decoded, Needy;
    ActiveReady(m, cfg, s, ids);
    BatchDistinct(m, cfg, s, ids);
    SoundIsWf(s.cache);
    DecodeBatchOk(m, s.cache, Hist(s.reqs, s.cache.seqs), ids, LastTokens(s.reqs, ids));
  }

  /** Between steps and without speculation, a running request needs a block exactly at a boundary. */
  lemma {:induction false} NeedyAtBoundary(m: Model, cfg: Config, s: State, ids: seq<SeqId>)
    requires Inv(m, cfg, s, {}) && Active(s, ids) && !cfg.speculate && s.cache.blockSize >= 1
    ensures forall i | 0 <= i < |ids| :: ids[i] in s.reqs
    ensures Needy(s.cache, ids) == AtBoundary(s.reqs, ids, s.cache.blockSize)
    decreases |ids|
  {
    hide Inv, NeedsBlock, Filled;
    if ids != [] {
      var n := |ids| - 1;
      NeedyAtBoundary(m, cfg, s, ids[..n]);
      OneNeedy(m, cfg, s, ids[n]);
    }
  }

  lemma OneNeedy(m: Model, cfg: Config, s: State, x: SeqId)
    requires Inv(m, cfg, s, {}) && x in s.running && x in s.reqs && s.reqs[x].status == Running && !cfg.speculate && s.cache.blockSize >= 1
    ensures NeedsBlock(s.cache, x) <==> Filled(s.reqs[x], s.cache.blockSize)
  {
    hide Inv, BlocksFor;
    RunningTight(m, cfg, s, x, {});
    RunningFacts(m, cfg, s, x, {});
    BlocksForStep(s.cache.blockSize, s.cache.seqs[x].len);
  }

  /** A batch is decoded whole, and nobody preempted, exactly if at most as many of its requests have
      filled their last block as blocks are free. */
  lemma PreemptsIff(m: Model, cfg: Config, s: State, ids: seq<SeqId>)
    requires Inv(m, cfg, s, {}) && Active(s, ids) && !cfg.speculate && s.cache.blockSize >= 1
    ensures Retrying(m, cfg, s, ids) && forall i | 0 <= i < |ids| :: ids[i] in s.reqs
    ensures AtBoundary(s.reqs, ids, s.cache.blockSize) <= |s.cache.free| <==> DecodeActive(m, cfg, s, ids).1 == ids
    ensures AtBoundary(s.reqs, ids, s.cache.blockSize) > |s.cache.free| <==>
              |DecodeActive(m, cfg, s, ids).1| < |ids| && ids[|ids| - 1] !in DecodeActive(m, cfg, s, ids).0.running
  {
    hide Inv, Retrying, DecodeOnce, Preempt, Needy, AtBoundary, Retried;
    StartRetrying(m, cfg, s, ids);
    NeedyAtBoundary(m, cfg, s, ids);
    DecodesIff(m, cfg, s, ids);
    DecodeActiveRetries(m, cfg, s, ids);
    WholeOrLess(m, cfg, s, ids);
  }

  /** So a step's decode part gives a token to everybody it should, or preempts, exactly by that count. */
  lemma DecodeWorkPreemptsIff(m: Model, cfg: Config, s: State, completed: seq<SeqId>)
    requires Inv(m, cfg, s, {}) && !cfg.speculate
    ensures s.cache.blockSize >= 1 && forall i | 0 <= i < |s.running| :: s.running[i] in s.reqs
    ensures var active := ActiveOf(s.reqs, s.running, completed);
            var (t, updated) := DecodeWork(m, cfg, s, completed);
            && (forall i | 0 <= i < |active| :: active[i] in s.reqs)
            && (updated == active <==> AtBoundary(s.reqs, active, s.cache.blockSize) <= |s.cache.free|)
            && ((exists x :: x in s.running && x !in t.running) <==> AtBoundary(s.reqs, active, s.cache.blockSize) > |s.cache.free|)
  {
    hide Inv, DecodeActive, SpeculateActive, ActiveOf, Retrying, AtBoundary;
    ListFacts(m, cfg, s);
    ActiveOfIsActive(m, cfg, s, completed);
    var active := ActiveOf(s.reqs, s.running, completed);
    NothingSpeculated(m, cfg, s, active, [], []);
    assert [] + active == active;
    PreemptsIff(m, cfg, s, active);
    if active == [] {
      NobodyAtBoundary(s);
    } else {
      WholeOrLess(m, cfg, s, active);
      var last := active[|active| - 1];
      assert last in active;
    }
  }

  lemma NobodyAtBoundary(s: State)
    requires s.cache.blockSize >= 1
    ensures AtBoundary(s.reqs, [], s.cache.blockSize) == 0
  {
  }

  lemma WholeOrLess(m: Model, cfg: Config, s: State, ids: seq<SeqId>)
    requires Retrying(m, cfg, s, ids)
    ensures var (t, left) := DecodeActive(m, cfg, s, ids);
            && (ids == [] || DecodeOnce(m, cfg, s, ids).1 ==> left == ids && t.running == s.running)
            && (ids != [] && !DecodeOnce(m, cfg, s, ids).1 ==> |left| < |ids| && ids[|ids| - 1] !in t.running)
            && (ids == [] ==> DecodeOnce(m, cfg, s, ids).1)
  {
    hide Inv, Retrying, Preempt, Needy, DecodeOnce, VictimsTight;
    if ids == [] { DecodesIff(m, cfg, s, ids); NobodyNeedy(s.cache); }
    DecodeOnceFrame(m, cfg, s, ids);
    if ids != [] && !DecodeOnce(m, cfg, s, ids).1 {
      RetryKeeps(m, cfg, s, ids);
      DecodeActiveRetries(m, cfg, Preempt(cfg, DecodeOnce(m, cfg, s, ids).0, ids[|ids| - 1]), ids[..|ids| - 1]);
      DecodeActiveRetries(m, cfg, s, ids);
      var (t, left) := DecodeActive(m, cfg, s, ids);
      assert ids[|left|..][|ids| - 1 - |left|] == ids[|ids| - 1];
      assert ids[|ids| - 1] in ids[|left|..];
    }
  }

  lemma NobodyNeedy(c: Cache)
    ensures Needy(c, []) == 0
  {
  }

  lemma NothingRetried(m: Model, cfg: Config, s: State)
    ensures Retried(m, cfg, s, [], 0, s)
  {
  }

  lemma AllRetried(m: Model, cfg: Config, s: State, ids: seq<SeqId>, t: State)
    requires DecodeOutcome(m, cfg, s, ids, (t, true))
    ensures ids[..|ids|] == ids && Retried(m, cfg, s, ids, |ids|, t)
  {
    hide Inv, NextOf;
  }

  lemma BatchDistinct(m: Model, cfg: Config, s: State, ids: seq<SeqId>)
    requires Retrying(m, cfg, s, ids)
    ensures Active(s, ids)
  {
  }

  lemma OneMoreVictim(m: Model, cfg: Config, s: State, after: State, ids: seq<SeqId>, left: nat, t: State)
    requires Active(s, ids) && ids != [] && NoDup(s.running) && after == s.(cache := after.cache)
    requires s.reqs[ids[|ids| - 1]].prompt != []
    requires var victim := ids[|ids| - 1];
             && Wf(after.cache) && victim in after.cache.seqs
             && Retried(m, cfg, Preempt(cfg, after, victim), ids[..|ids| - 1], left, t)
    ensures Retried(m, cfg, s, ids, left, t)
  {
    hide Wf, NextOf, AppendToken, SwapOut, FreeSequence, DecodedOnce, VictimsMoved, NoDup;
    var n := |ids| - 1;
    var victim, next := ids[n], Preempt(cfg, after, ids[n]);
    BatchEnd(s, ids);
    assert ids[left..] == ids[..n][left..] + [victim];
    OneMoreMoved(cfg, s, victim, ids[..n][left..], next, t);
    assert next.reqs == s.reqs[victim := Evicted(cfg, s.reqs[victim])];
    OneMoreEvicted(m, cfg, s.reqs, ids, left, t.reqs);
  }

  lemma BatchEnd(s: State, ids: seq<SeqId>)
    requires Active(s, ids) && ids != []
    ensures ids[|ids| - 1] !in ids[..|ids| - 1] && ids[|ids| - 1] in s.running
  {
  }

  lemma OneMoreMoved(cfg: Config, s: State, victim: SeqId, victims: seq<SeqId>, next: State, t: State)
    requires NoDup(s.running) && next.running == Remove(s.running, victim) && VictimsMoved(cfg, next, victims, t)
    requires next.waiting == (if cfg.swap then s.waiting else [victim] + s.waiting)
    requires next.swapped == (if cfg.swap then [victim] + s.swapped else s.swapped)
    ensures VictimsMoved(cfg, s, victims + [victim], t)
  {
    hide Remove, NoDup;
    RemoveDistinct(s.running, victim);
    MoveOneMore(victims, victim, s.waiting);
    MoveOneMore(victims, victim, s.swapped);
    forall x ensures x in t.running <==> x in s.running && x !in victims + [victim] {
      assert x in next.running <==> x in s.running && x != victim;
    }
  }

  lemma MoveOneMore(victims: seq<SeqId>, victim: SeqId, ids: seq<SeqId>)
    ensures victims + ([victim] + ids) == victims + [victim] + ids
  {
  }

  lemma OneMoreEvicted(m: Model, cfg: Config, reqs: map<SeqId, Request>, ids: seq<SeqId>, left: nat, after: map<SeqId, Request>)
    requires ids != [] && left < |ids| && ids[|ids| - 1] !in ids[..|ids| - 1]
    requires ids[|ids| - 1] in reqs && reqs[ids[|ids| - 1]].prompt != []
    requires var victim := ids[|ids| - 1];
             DecodedOnce(m, cfg, reqs[victim := Evicted(cfg, reqs[victim])], ids[..|ids| - 1], left, after)
    ensures DecodedOnce(m, cfg, reqs, ids, left, after)
  {
    hide NextOf, AppendToken, Evicted;
    var n := |ids| - 1;
    var early, victim := ids[..n], ids[n];
    var evicted := reqs[victim := Evicted(cfg, reqs[victim])];
    assert forall x :: x in ids <==> x in early || x == victim;
    forall i | 0 <= i < |ids|
      ensures ids[i] in reqs && reqs[ids[i]].prompt != []
      ensures after[ids[i]] == if i < left then AppendToken(reqs[ids[i]], NextOf(m, reqs[ids[i]])) else Evicted(cfg, reqs[ids[i]])
    {
      if i < n {
        var x := early[i];
        assert x == ids[i] && x in early && evicted[x] == reqs[x];
      } else {
        assert after[victim] == evicted[victim];
      }
    }
    forall x | x in reqs && x !in ids ensures after[x] == reqs[x] {
      assert x in evicted && x !in early;
    }
  }

  /** Reserving again does nothing, whether it succeeded or ran out of blocks, so a retried decode
      picks up where the failed one stopped. */
  lemma ReserveTwice(c: Cache, id: SeqId, n: nat)
    requires Wf(c) && id in c.seqs
    ensures Reserve(Reserve(c, id, n).0, id, n) == Reserve(c, id, n)
  {
    GrowTwice(c, id, BlocksFor(c.blockSize, c.seqs[id].len + n));
  }

  lemma {:induction false} GrowTwice(c: Cache, id: SeqId, target: nat)
    requires Wf(c) && id in c.seqs
    ensures Grow(Grow(c, id, target).0, id, target) == Grow(c, id, target)
    decreases target - |c.seqs[id].table|
  {
    if |c.seqs[id].table| < target && c.free != [] {
      GrowTwice(AppendBlock(c, id), id, target);
    }
  }
}
