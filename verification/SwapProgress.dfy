/** Swap mode finishes: every step gives some request a token and no token is ever lost. */
module SwapProgress {
  import opened LanguageModel
  import opened Options
  import opened Positions
  import opened Sums
  import opened PagedKvCache
  import opened CacheInvariant
  import opened SwapToHost
  import opened ModelRunner
  import opened BatchedDecode
  import opened Requests
  import opened SchedulerState
  import opened SchedulerSteps
  import opened SchedulerDecode
  import opened Speculation
  import opened SchedulerModel
  import opened SchedulerRuns

  /** In one of the scheduler's lists. */
  predicate Live(s: State, x: SeqId) {
    x in s.waiting || x in s.running || x in s.swapped
  }

  /** The same request, with at least the same output. */
  predicate Extended(r: Request, t: Request) {
    && t == r.(output := t.output, status := t.status)
    && r.output <= t.output
  }

  /** No output is lost, nobody joins, and whoever leaves the lists is finished. */
  ghost predicate Advances(s: State, t: State) {
    && t.reqs.Keys == s.reqs.Keys
    && (forall x | x in s.reqs :: Extended(s.reqs[x], t.reqs[x]))
    && (forall x :: Live(t, x) ==> Live(s, x))
    && (forall x :: Live(s, x) ==> Live(t, x) || (x in t.reqs && t.reqs[x].status == Finished))
    && (forall x | x in s.reqs && !Live(s, x) :: t.reqs[x] == s.reqs[x])
    && t.cache.blockSize == s.cache.blockSize && |t.cache.refs| == |s.cache.refs|
  }

  lemma AdvancesTwice(s: State, t: State, u: State)
    requires Advances(s, t) && Advances(t, u)
    ensures Advances(s, u)
  {
    forall x | x in s.reqs ensures Extended(s.reqs[x], u.reqs[x]) {
      assert Extended(s.reqs[x], t.reqs[x]) && Extended(t.reqs[x], u.reqs[x]);
    }
    forall x | Live(s, x) ensures Live(u, x) || (x in u.reqs && u.reqs[x].status == Finished) {
      if !Live(t, x) {
        assert x in t.reqs.Keys;
        assert u.reqs[x] == t.reqs[x];
      }
    }
    forall x | x in s.reqs && !Live(s, x) ensures u.reqs[x] == s.reqs[x] {
      assert !Live(t, x);
    }
  }

  // ---- each transition advances ----

  /** Moving a request between lists and touching at most it. */
  lemma MoveAdvances(s: State, t: State, id: SeqId)
    requires id in s.reqs && id in t.reqs && t.reqs == s.reqs[id := t.reqs[id]] && Extended(s.reqs[id], t.reqs[id])
    requires Live(s, id) && Live(t, id)
    requires forall x | x != id :: Live(t, x) <==> Live(s, x)
    requires t.cache.blockSize == s.cache.blockSize && |t.cache.refs| == |s.cache.refs|
    ensures Advances(s, t)
  {
  }

  lemma SwapInOneAdvances(m: Model, cfg: Config, s: State)
    requires Inv(m, cfg, s, {}) && s.swapped != []
    ensures Advances(s, SwapInOne(m, cfg, s))
    ensures Settled(s) ==> Settled(SwapInOne(m, cfg, s))
    ensures forall x :: Live(s, x) ==> Live(SwapInOne(m, cfg, s), x)
  {
    hide AllOnTrack, AllResident, AllSaved, OnePrefilling;
    var id := s.swapped[0];
    ListFacts(m, cfg, s);
    SnapshotRows(m, s, id);
    hide Inv;
    assert s.swapped == [id] + s.swapped[1..];
    MoveAdvances(s, SwapInOne(m, cfg, s), id);
  }

  /** No finished request is left over in the running list. */
  ghost predicate Settled(s: State) {
    forall x | x in s.running && x in s.reqs :: s.reqs[x].status != Finished
  }

  /** Swapping in stops only when nobody is left or the head does not fit. */
  lemma {:induction false} TrySwapInAdvances(m: Model, cfg: Config, s: State)
    requires Inv(m, cfg, s, {})
    ensures Advances(s, TrySwapIn(m, cfg, s))
    ensures Settled(s) ==> Settled(TrySwapIn(m, cfg, s))
    ensures forall x :: Live(s, x) ==> Live(TrySwapIn(m, cfg, s), x)
    ensures TrySwapIn(m, cfg, s).swapped != [] ==>
              SwappedNeed(m, cfg, TrySwapIn(m, cfg, s)) > Available(m, cfg, TrySwapIn(m, cfg, s))
    decreases |s.swapped|
  {
    hide Inv, Advances;
    if s.swapped == [] || SwappedNeed(m, cfg, s) > Available(m, cfg, s) {
      StaysPut(s);
    } else {
      AvailableFits(m, cfg, s);
      SwapInOneKeeps(m, cfg, s);
      SwapInOneAdvances(m, cfg, s);
      TrySwapInAdvances(m, cfg, SwapInOne(m, cfg, s));
      AdvancesTwice(s, SwapInOne(m, cfg, s), TrySwapIn(m, cfg, s));
    }
  }

  lemma StaysPut(s: State)
    ensures Advances(s, s)
  {
  }

  /** Some request of s has more output in t. */
  ghost predicate Gained(s: State, t: State) {
    exists x :: Live(s, x) && GainedOne(s, t, x)
  }

  predicate GainedOne(s: State, t: State, x: SeqId) {
    x in s.reqs && x in t.reqs && |s.reqs[x].output| < |t.reqs[x].output|
  }

  lemma GainedBefore(s: State, t: State, u: State)
    requires Gained(s, t) && Advances(t, u)
    ensures Gained(s, u)
  {
    var x :| Live(s, x) && GainedOne(s, t, x);
    assert x in t.reqs.Keys && Extended(t.reqs[x], u.reqs[x]);
    assert GainedOne(s, u, x);
  }

  lemma GainedAfter(s: State, t: State, u: State)
    requires Advances(s, t) && Gained(t, u)
    ensures Gained(s, u)
  {
    var x :| Live(t, x) && GainedOne(t, u, x);
    assert x in s.reqs.Keys && Extended(s.reqs[x], t.reqs[x]);
    assert GainedOne(s, u, x);
  }

  /** Admission gives its request a token and makes nobody worse off. */
  lemma AdmitOneAdvances(m: Model, cfg: Config, s: State)
    requires Inv(m, cfg, s, {}) && cfg.budget.None? && WaitingFits(s)
    ensures Advances(s, AdmitOne(m, cfg, s).0) && Gained(s, AdmitOne(m, cfg, s).0)
  {
    hide Inv, AdmitOne;
    AdmitOneKeeps(m, cfg, s);
    AdmitOneFrame(m, cfg, s);
    var id, t := s.waiting[0], AdmitOne(m, cfg, s).0;
    WaitingHead(m, cfg, s);
    assert s.waiting == [id] + s.waiting[1..];
    assert GainedOne(s, t, id);
    MoveAdvances(s, t, id);
  }

  lemma AdmitOneFrame(m: Model, cfg: Config, s: State)
    requires Inv(m, cfg, s, {}) && s.waiting != [] && s.waiting[0] in s.reqs && AdmitOne(m, cfg, s).1
    ensures
      var id, t := s.waiting[0], AdmitOne(m, cfg, s).0;
      && t.cache.blockSize == s.cache.blockSize && |t.cache.refs| == |s.cache.refs|
      && t.waiting == s.waiting[1..] && t.running == s.running + [id] && t.swapped == s.swapped
      && id in t.reqs && t.reqs == s.reqs[id := t.reqs[id]]
      && exists token :: t.reqs[id] == FirstToken(s.reqs[id], token)
  {
    hide CacheOk, AllOnTrack, Listed, OnePrefilling, AllResident, AllSaved, PrefillWithPrefixReuse;
  }

  lemma {:induction false} AdmitAdvances(m: Model, cfg: Config, s: State, admitted: seq<SeqId>)
    requires Inv(m, cfg, s, {}) && cfg.budget.None?
    ensures var (t, who) := Admit(m, cfg, s, admitted);
            && Advances(s, t) && admitted <= who
            && (|who| > |admitted| ==> Gained(s, t)) && (|who| == |admitted| ==> t == s)
            && (t.waiting != [] ==> WaitingNeed(m, cfg, t) > Available(m, cfg, t))
    decreases |s.waiting|
  {
    hide Inv, Advances, Gained;
    if s.waiting == [] || WaitingNeed(m, cfg, s) > Available(m, cfg, s) {
      StaysPut(s);
    } else {
      AvailableFits(m, cfg, s);
      AdmitOneKeeps(m, cfg, s);
      AdmitOneAdvances(m, cfg, s);
      var mid := AdmitOne(m, cfg, s).0;
      AdmitAdvances(m, cfg, mid, admitted + [s.waiting[0]]);
      AdvancesTwice(s, mid, Admit(m, cfg, s, admitted).0);
      GainedBefore(s, mid, Admit(m, cfg, s, admitted).0);
    }
  }

  // ---- decoding ----

  lemma DecodeOnceAdvances(m: Model, cfg: Config, s: State, ids: seq<SeqId>)
    requires Retrying(m, cfg, s, ids)
    ensures var (t, ok) := DecodeOnce(m, cfg, s, ids);
            Advances(s, t) && (ok && ids != [] ==> Gained(s, t))
  {
    hide Inv, DecodeOnce;
    DecodeOnceKeeps(m, cfg, s, ids);
    DecodeOnceFrame(m, cfg, s, ids);
    var (t, ok) := DecodeOnce(m, cfg, s, ids);
    if ok {
      forall x | x in s.reqs ensures Extended(s.reqs[x], t.reqs[x]) {
        if x in ids {
          var i :| 0 <= i < |ids| && ids[i] == x;
        }
      }
      forall x | x in ids ensures Live(s, x) {
        var i :| 0 <= i < |ids| && ids[i] == x;
      }
      if ids != [] {
        assert Live(s, ids[0]) && GainedOne(s, t, ids[0]);
      }
    }
  }

  lemma DecodeOnceFrame(m: Model, cfg: Config, s: State, ids: seq<SeqId>)
    requires Retrying(m, cfg, s, ids)
    ensures var t := DecodeOnce(m, cfg, s, ids).0;
            && t == s.(reqs := t.reqs, cache := t.cache)
            && t.cache.blockSize == s.cache.blockSize && |t.cache.refs| == |s.cache.refs|
            && t.cache.info == s.cache.info && t.cache.prefixCaching == s.cache.prefixCaching
            && t.cache.seqs.Keys == s.cache.seqs.Keys && t.cache.host == s.cache.host
  {
    hide Inv, DecodeBatch;
    ActiveReady(m, cfg, s, ids);
  }

  lemma PreemptAdvances(cfg: Config, s: State, id: SeqId)
    requires Wf(s.cache) && id in s.reqs && id in s.cache.seqs && id in s.running && cfg.swap
    ensures Advances(s, Preempt(cfg, s, id))
  {
    hide Wf, SwapOut;
    MoveAdvances(s, Preempt(cfg, s, id), id);
  }

  /** Whatever is preempted on the way, the survivors are the front of the batch, and if there are
      any the batch gained tokens. */
  lemma {:induction false} DecodeActiveAdvances(m: Model, cfg: Config, s: State, ids: seq<SeqId>)
    requires Retrying(m, cfg, s, ids) && cfg.swap
    ensures var (t, left) := DecodeActive(m, cfg, s, ids);
            Advances(s, t) && left <= ids && (left != [] ==> Gained(s, t))
    decreases |ids|
  {
    hide Inv, Advances, Gained, Retrying, DecodeOnce, Preempt;
    if ids == [] {
      StaysPut(s);
    } else {
      DecodeOnceAdvances(m, cfg, s, ids);
      var (after, ok) := DecodeOnce(m, cfg, s, ids);
      if !ok {
        RetryKeeps(m, cfg, s, ids);
        VictimRunning(m, cfg, s, ids);
        PreemptAdvances(cfg, after, ids[|ids| - 1]);
        var next := Preempt(cfg, after, ids[|ids| - 1]);
        var (t, left) := DecodeActive(m, cfg, next, ids[..|ids| - 1]);
        DecodeActiveAdvances(m, cfg, next, ids[..|ids| - 1]);
        AdvancesTwice(s, after, next);
        AdvancesTwice(s, next, t);
        if left != [] { GainedAfter(s, next, t); }
      }
    }
  }

  lemma VictimRunning(m: Model, cfg: Config, s: State, ids: seq<SeqId>)
    requires Retrying(m, cfg, s, ids) && ids != []
    ensures ids[|ids| - 1] in DecodeOnce(m, cfg, s, ids).0.running
  {
    hide Inv, DecodeOnce;
    DecodeOnceFrame(m, cfg, s, ids);
  }

  /** Every live request could fit into the whole cache alone, and may generate something. */
  ghost predicate AllFit(s: State) {
    && s.cache.blockSize >= 1
    && forall x | Live(s, x) && x in s.reqs ::
         s.reqs[x].maxNew >= 1 && BlocksFor(s.cache.blockSize, TotalLenEstimate(s.reqs[x])) <= |s.cache.refs|
  }

  lemma AllFitAdvances(s: State, t: State)
    requires AllFit(s) && Advances(s, t)
    ensures AllFit(t)
  {
    forall x | Live(t, x) && x in t.reqs
      ensures t.reqs[x].maxNew >= 1 && BlocksFor(t.cache.blockSize, TotalLenEstimate(t.reqs[x])) <= |t.cache.refs|
    {
      assert Live(s, x) && x in s.reqs.Keys;
      assert Extended(s.reqs[x], t.reqs[x]);
    }
  }

  /** A sequence alone on the device owns every block that is not free. */
  lemma AloneOwnsAll(c: Cache, x: SeqId)
    requires Sound(c, {}) && c.free == [] && x in c.seqs && forall y | y in c.seqs :: y == x
    ensures |c.refs| <= |c.seqs[x].table|
  {
    hide TablesDistinct, SharedIndexed;
    var table := c.seqs[x].table;
    forall b | 0 <= b < |c.refs| ensures b in Elems(table) {
      assert c.refs[b] != 0 && c.refs[b] == |Holders(c.seqs, b)|;
      var y := Member(Holders(c.seqs, b));
    }
    ElemsAtMost(table);
    SubsetSize(Range(|c.refs|), Elems(table));
  }

  lemma {:induction false} ElemsAtMost(s: seq<Block>)
    ensures |Elems(s)| <= |s|
  {
    if s != [] {
      var n := |s| - 1;
      ElemsAtMost(s[..n]);
      assert Elems(s) == Elems(s[..n]) + {s[n]};
    } else {
      assert Elems(s) == {};
    }
  }

  lemma SubsetSize(a: set<Block>, b: set<Block>)
    requires a <= b
    ensures |a| <= |b|
  {
    assert b == a + (b - a);
  }

  /** The last request of a batch, alone on the device, always finds room. */
  lemma AloneDecodes(m: Model, cfg: Config, s: State, ids: seq<SeqId>)
    requires Retrying(m, cfg, s, ids) && |ids| == 1 && AllFit(s) && !cfg.speculate
    requires forall x | x in s.running :: x in ids
    ensures DecodeOnce(m, cfg, s, ids).1
  {
    hide Counted, FreeExact, SharedIndexed, TablesDistinct, Faithful, HostFaithful, OnTrack, Resident, DecodeBatch, Wf, NoDup, BlocksFor;
    ActiveReady(m, cfg, s, ids);
    var j: nat :| j <= |ids| && Inv(m, cfg, s, Ids(ids[..j]));
    var x, tokens := ids[0], LastTokens(s.reqs, ids);
    var k := DecodeBatchKeeps(m, s.cache, Hist(s.reqs, s.cache.seqs), ids, tokens);
    var p := DecodeBatch(m, s.cache, ids, tokens);
    if p.1.None? {
      assert ids[..k] == [];
      RunningNeed(m, cfg, s, x, Ids(ids[..j]));
      assert forall y | y in s.running :: y == x;
      AloneCached(s, x);
      AloneOwnsAll(p.0, x);
    }
  }

  lemma AloneCached(s: State, x: SeqId)
    requires Listed(s) && forall y | y in s.running :: y == x
    ensures forall y | y in s.cache.seqs :: y == x
  {
  }

  lemma RunningNeed(m: Model, cfg: Config, s: State, x: SeqId, loose: set<SeqId>)
    requires Inv(m, cfg, s, loose) && x in s.running && s.reqs[x].status == Running && AllFit(s)
    ensures x in s.cache.seqs && s.cache.blockSize >= 1
    ensures BlocksFor(s.cache.blockSize, s.cache.seqs[x].len + 1) <= |s.cache.refs|
  {
    hide Sound, Faithful, HostFaithful, NoDup, BlocksFor, Resident;
    RunningFacts(m, cfg, s, x, loose);
    assert Live(s, x);
    var r := s.reqs[x];
    assert !StopsAt(m, r, |r.output|);
    BlocksForMonotone(s.cache.blockSize, s.cache.seqs[x].len + 1, TotalLenEstimate(r));
  }

  /** When the batch is everybody on the device, somebody in it decodes. */
  lemma {:induction false} SomebodyDecodes(m: Model, cfg: Config, s: State, ids: seq<SeqId>)
    requires Retrying(m, cfg, s, ids) && ids != [] && AllFit(s) && cfg.swap && !cfg.speculate
    requires forall x | x in s.running :: x in ids
    ensures DecodeActive(m, cfg, s, ids).1 != []
    decreases |ids|
  {
    hide Inv, Advances, Retrying, DecodeOnce, Preempt, AllFit, Wf;
    if |ids| == 1 {
      AloneDecodes(m, cfg, s, ids);
    } else if !DecodeOnce(m, cfg, s, ids).1 {
      var after, n := DecodeOnce(m, cfg, s, ids).0, |ids| - 1;
      RetryKeeps(m, cfg, s, ids);
      DecodeOnceAdvances(m, cfg, s, ids);
      VictimRunning(m, cfg, s, ids);
      PreemptAdvances(cfg, after, ids[n]);
      var next := Preempt(cfg, after, ids[n]);
      AdvancesTwice(s, after, next);
      AllFitAdvances(s, next);
      PreemptRunning(m, cfg, s, ids);
      SomebodyDecodes(m, cfg, next, ids[..n]);
    }
  }

  lemma PreemptRunning(m: Model, cfg: Config, s: State, ids: seq<SeqId>)
    requires Retrying(m, cfg, s, ids) && ids != [] && !DecodeOnce(m, cfg, s, ids).1
    requires forall x | x in s.running :: x in ids
    requires var after, victim := DecodeOnce(m, cfg, s, ids).0, ids[|ids| - 1];
             victim in after.reqs && victim in after.cache.seqs && Wf(after.cache)
    ensures var next := Preempt(cfg, DecodeOnce(m, cfg, s, ids).0, ids[|ids| - 1]);
            forall x | x in next.running :: x in ids[..|ids| - 1]
  {
    hide Wf, DecodeOnce;
    DecodeOnceFrame(m, cfg, s, ids);
    RunningDistinct(m, cfg, s, ids);
    hide Inv, Retrying;
    RemoveDistinct(s.running, ids[|ids| - 1]);
    assert forall x | x in ids :: x in ids[..|ids| - 1] || x == ids[|ids| - 1];
  }

  lemma RunningDistinct(m: Model, cfg: Config, s: State, ids: seq<SeqId>)
    requires Retrying(m, cfg, s, ids)
    ensures NoDup(s.running)
  {
    hide AllOnTrack, CacheOk, OnePrefilling, AllResident, AllSaved;
  }

  // ---- a whole step ----

  lemma {:induction false} NothingSpeculated(m: Model, cfg: Config, s: State, active: seq<SeqId>, done: seq<SeqId>, regular: seq<SeqId>)
    requires Inv(m, cfg, s, {}) && Active(s, regular + active) && !cfg.speculate
    ensures SpeculateActive(m, cfg, s, active, done, regular) == (s, done, regular + active)
    decreases |active|
  {
    hide Inv, Active, Speculate;
    if active == [] {
      assert regular + active == regular;
    } else {
      assert (regular + [active[0]]) + active[1..] == regular + active;
      ActiveHead(m, cfg, s, active, regular);
      NothingSpeculated(m, cfg, s, active[1..], done, regular + [active[0]]);
    }
  }

  lemma NothingToDecode(m: Model, cfg: Config, s: State, completed: seq<SeqId>)
    requires Inv(m, cfg, s, {}) && forall x | x in s.running :: x in completed
    ensures DecodeWork(m, cfg, s, completed) == (s, [])
  {
    hide Inv;
    ListFacts(m, cfg, s);
    ActiveOfIsActive(m, cfg, s, completed);
    HasMember(ActiveOf(s.reqs, s.running, completed));
    assert ActiveOf(s.reqs, s.running, completed) == [];
    assert SpeculateActive(m, cfg, s, [], [], []) == (s, [], []);
  }

  lemma DecodeWorkAdvances(m: Model, cfg: Config, s: State, completed: seq<SeqId>)
    requires Inv(m, cfg, s, {}) && cfg.swap && !cfg.speculate && cfg.budget.None?
    ensures Advances(s, DecodeWork(m, cfg, s, completed).0)
    ensures completed == [] && Settled(s) && AllFit(s) && s.running != [] ==> Gained(s, DecodeWork(m, cfg, s, completed).0)
  {
    hide Inv, Advances, Gained, DecodeActive, SpeculateActive, AllFit, ActiveOf, Retrying;
    ListFacts(m, cfg, s);
    ActiveOfIsActive(m, cfg, s, completed);
    var active := ActiveOf(s.reqs, s.running, completed);
    NothingSpeculated(m, cfg, s, active, [], []);
    assert [] + active == active;
    if active == [] {
      StaysPut(s);
    } else {
      StartRetrying(m, cfg, s, active);
      DecodeActiveAdvances(m, cfg, s, active);
    }
    if completed == [] && Settled(s) && AllFit(s) && s.running != [] {
      EverybodyActive(m, cfg, s);
      var x := s.running[0];
      assert x in active;
      SomebodyDecodes(m, cfg, s, active);
    }
  }

  lemma EverybodyActive(m: Model, cfg: Config, s: State)
    requires Inv(m, cfg, s, {}) && Settled(s) && cfg.budget.None?
    requires forall i | 0 <= i < |s.running| :: s.running[i] in s.reqs
    ensures forall x | x in s.running :: x in ActiveOf(s.reqs, s.running, [])
  {
    hide CacheOk, AllOnTrack, AllResident, AllSaved, ActiveOf;
  }

  lemma RetireAdvances(m: Model, cfg: Config, s: State)
    requires Inv(m, cfg, s, {})
    ensures Advances(s, Retire(m, cfg, s)) && Settled(Retire(m, cfg, s))
  {
    hide Inv, Retire, Wf, Extended;
    ListFacts(m, cfg, s);
    var t := Retire(m, cfg, s);
    forall x | x in s.running ensures x in s.reqs {
    }
    forall x | x in s.reqs ensures Extended(s.reqs[x], t.reqs[x]) {
      ExtendedSelf(s.reqs[x]);
    }
  }

  lemma ExtendedSelf(r: Request)
    ensures Extended(r, r)
  {
  }

  /** With nobody on the device and the loops stopped, nobody is left. */
  lemma IdleMeansDone(m: Model, cfg: Config, s: State)
    requires Inv(m, cfg, s, {}) && AllFit(s) && s.running == []
    requires s.swapped != [] ==> SwappedNeed(m, cfg, s) > Available(m, cfg, s)
    requires s.waiting != [] ==> WaitingNeed(m, cfg, s) > Available(m, cfg, s)
    ensures s.swapped == [] && s.waiting == []
  {
    IdleFree(m, cfg, s);
    hide CacheOk, AllOnTrack, OnePrefilling, AllResident, BlocksFor;
    if s.swapped != [] {
      var x := s.swapped[0];
      assert x in s.swapped && Live(s, x);
      BlocksForMonotone(s.cache.blockSize, s.cache.host[x].len, TotalLenEstimate(s.reqs[x]));
    }
    if s.waiting != [] {
      WaitingLive(s);
    }
  }

  lemma WaitingLive(s: State)
    requires s.waiting != []
    ensures Live(s, s.waiting[0])
  {
  }

  lemma IdleFree(m: Model, cfg: Config, s: State)
    requires Inv(m, cfg, s, {}) && s.running == []
    ensures |s.cache.free| == |s.cache.refs| && Available(m, cfg, s) == |s.cache.refs|
    ensures s.cache.blockSize >= 1
    ensures forall x | x in s.swapped :: x in s.reqs && x in s.cache.host && s.cache.host[x].len <= TotalLenEstimate(s.reqs[x])
  {
    hide Faithful, HostFaithful, Resident, NoDup;
    assert forall x :: x !in s.cache.seqs;
    IdleIsFree(s);
    forall x | x in s.swapped ensures x in s.reqs && x in s.cache.host && s.cache.host[x].len <= TotalLenEstimate(s.reqs[x]) {
      var r := s.reqs[x];
      assert OnTrack(m, r) && r.status != Finished;
      assert !StopsAt(m, r, |r.output|);
    }
  }

  /** One step in swap mode, unchunked: it does not raise, loses nothing, and if anything is left
      to do some request gets at least one more token. */
  lemma StepProgresses(m: Model, cfg: Config, s: State)
    requires Inv(m, cfg, s, {}) && cfg.swap && !cfg.speculate && cfg.budget.None? && Settled(s) && AllFit(s)
    ensures var out := Step(m, cfg, s);
            out.ok && Advances(s, out.state) && Settled(out.state) && (HasUnfinished(s) ==> Gained(s, out.state))
  {
    hide Inv, Advances, Gained, DecodeWork, Retire, TrySwapIn, Admit, AllFit, Settled;
    var s1 := TrySwapIn(m, cfg, s);
    TrySwapInAdvances(m, cfg, s);
    var (s2, who) := Admit(m, cfg, s1, []);
    AdmitAdvances(m, cfg, s1, []);
    AdvancesTwice(s, s1, s2);
    var s3 := DecodeWork(m, cfg, s2, who).0;
    DecodeWorkAdvances(m, cfg, s2, who);
    AdvancesTwice(s, s2, s3);
    var s4 := Retire(m, cfg, s3);
    RetireAdvances(m, cfg, s3);
    AdvancesTwice(s, s3, s4);
    if HasUnfinished(s) {
      if who != [] {
        GainedBefore(s1, s2, s3);
        GainedBefore(s1, s3, s4);
        GainedAfter(s, s1, s4);
      } else {
        AllFitAdvances(s, s2);
        SomebodyLeft(s, s2);
        if s2.running == [] { IdleMeansDone(m, cfg, s2); }
        GainedBefore(s2, s3, s4);
        GainedAfter(s, s2, s4);
      }
    }
  }

  lemma SomebodyLeft(s: State, t: State)
    requires HasUnfinished(s) && forall x :: Live(s, x) ==> Live(t, x)
    ensures HasUnfinished(t)
  {
    var x := if s.waiting != [] then s.waiting[0] else if s.running != [] then s.running[0] else s.swapped[0];
    assert Live(s, x);
  }

  // ---- counting down ----

  function Left(r: Request): nat {
    if |r.output| < r.maxNew then r.maxNew - |r.output| else 0
  }

  function Lefts(reqs: map<SeqId, Request>): map<SeqId, nat> {
    map x | x in reqs :: Left(reqs[x])
  }

  /** How many tokens the given requests may still generate. */
  ghost function SumLeft(reqs: map<SeqId, Request>, ids: set<SeqId>): nat
    requires ids <= reqs.Keys
  {
    Sum(Lefts(reqs), ids)
  }

  ghost function LiveIds(s: State): (r: set<SeqId>)
    ensures r <= s.reqs.Keys
  {
    set x | x in s.reqs && Live(s, x)
  }

  /** Every step with unfinished requests strictly decreases what is left to generate. */
  lemma StepDecreases(m: Model, cfg: Config, s: State)
    requires Inv(m, cfg, s, {}) && cfg.swap && !cfg.speculate && cfg.budget.None? && Settled(s) && AllFit(s) && HasUnfinished(s)
    ensures var out := Step(m, cfg, s);
            out.ok && SumLeft(out.state.reqs, LiveIds(out.state)) < SumLeft(s.reqs, LiveIds(s))
  {
    hide Inv, Step, AllFit, Advances, Gained, Settled;
    StepProgresses(m, cfg, s);
    var t := Step(m, cfg, s).state;
    SomeLeft(m, cfg, s);
    LeftDecreases(s, t);
  }

  lemma LeftDecreases(s: State, t: State)
    requires Advances(s, t) && Gained(s, t) && forall x | Live(s, x) && x in s.reqs :: Left(s.reqs[x]) > 0
    ensures SumLeft(t.reqs, LiveIds(t)) < SumLeft(s.reqs, LiveIds(s))
  {
    hide Sum;
    var x :| Live(s, x) && GainedOne(s, t, x);
    var before, after, all, some := Lefts(s.reqs), Lefts(t.reqs), LiveIds(s), LiveIds(t);
    forall y | y in some ensures y in all && after[y] <= before[y] {
      assert Extended(s.reqs[y], t.reqs[y]);
    }
    assert Extended(s.reqs[x], t.reqs[x]);
    SumWithout(before, all, x);
    if x in some {
      SumWithout(after, some, x);
      assert after[x] < before[x];
    } else {
      assert some - {x} == some;
    }
    SumAtMost(before, all - {x}, after, some - {x});
  }

  lemma SomeLeft(m: Model, cfg: Config, s: State)
    requires Inv(m, cfg, s, {}) && Settled(s) && AllFit(s)
    ensures forall x | Live(s, x) && x in s.reqs :: Left(s.reqs[x]) > 0
  {
    hide Inv, AllFit, Settled;
    forall x | Live(s, x) && x in s.reqs ensures Left(s.reqs[x]) > 0 {
      LeftOfLive(m, cfg, s, x);
    }
  }

  /** A request in a list is unfinished, so it has tokens left. */
  lemma LeftOfLive(m: Model, cfg: Config, s: State, x: SeqId)
    requires Inv(m, cfg, s, {}) && Settled(s) && AllFit(s) && Live(s, x) && x in s.reqs
    ensures Left(s.reqs[x]) > 0
  {
    hide CacheOk, AllResident, AllSaved, OnePrefilling;
    assert OnTrack(m, s.reqs[x]) && s.reqs[x].status != Finished;
    assert !StopsAt(m, s.reqs[x], |s.reqs[x].output|);
  }

  // ---- completion ----

  lemma {:induction false} SameStopLength(m: Model, r: Request, t: Request, n: nat)
    requires r.prompt != [] && n >= 1 && t == r.(output := t.output, status := t.status)
    ensures StopLength(m, t, n) == StopLength(m, r, n)
    decreases r.maxNew - n
  {
    assert StopsAt(m, t, n) == StopsAt(m, r, n);
    if !StopsAt(m, r, n) {
      SameStopLength(m, r, t, n + 1);
    }
  }

  /** Finished, with the sequential decode of the original request. */
  ghost predicate Served(m: Model, s: State, t: State, x: SeqId) {
    && x in s.reqs && x in t.reqs && t.reqs[x].status == Finished
    && s.reqs[x].prompt != [] && t.reqs[x].output == Reference(m, s.reqs[x])
  }

  /** In swap mode, unchunked and without speculation, if every request could be cached alone, then
      as many steps as there are tokens left to generate serve everybody, however many preemptions
      that takes. */
  lemma {:induction false} SwapModeCompletes(m: Model, cfg: Config, s: State, n: nat)
    requires Inv(m, cfg, s, {}) && cfg.swap && !cfg.speculate && cfg.budget.None? && Settled(s) && AllFit(s)
    requires n >= SumLeft(s.reqs, LiveIds(s))
    ensures var (t, ok) := RunToCompletion(m, cfg, s, n);
            ok && !HasUnfinished(t) && Advances(s, t) && forall x | Live(s, x) :: Served(m, s, t, x)
    decreases n
  {
    hide Inv, Step, Advances, Settled, AllFit, Reference;
    var t := RunToCompletion(m, cfg, s, n).0;
    if !HasUnfinished(s) {
      StaysPut(s);
      assert forall x :: !Live(s, x);
    } else {
      StepDecreases(m, cfg, s);
      StepProgresses(m, cfg, s);
      var next := Step(m, cfg, s).state;
      AllFitAdvances(s, next);
      SwapModeCompletes(m, cfg, next, n - 1);
      AdvancesTwice(s, next, t);
      forall x | Live(s, x) ensures Served(m, s, t, x) {
        LiveServed(m, cfg, s, t, x);
      }
    }
  }

  lemma LiveServed(m: Model, cfg: Config, s: State, t: State, x: SeqId)
    requires Inv(m, cfg, s, {}) && Inv(m, cfg, t, {}) && Advances(s, t) && !HasUnfinished(t) && Live(s, x)
    ensures Served(m, s, t, x)
  {
    hide CacheOk, AllResident, AllSaved, OnePrefilling;
    assert !Live(t, x);
    assert x in s.reqs.Keys;
    assert Extended(s.reqs[x], t.reqs[x]) && OnTrack(m, t.reqs[x]) && OnTrack(m, s.reqs[x]);
    OnTrackIsReference(m, t.reqs[x]);
    SameStopLength(m, s.reqs[x], t.reqs[x], 1);
  }

  // ---- from an empty engine ----

  /** Every arriving request could be cached alone, and may generate something. */
  predicate ArrivalsFit(events: seq<Event>, n: nat, B: nat)
    requires B >= 1
  {
    forall i | 0 <= i < |events| && events[i].Arrive? ::
      events[i].request.maxNew >= 1 && BlocksFor(B, TotalLenEstimate(events[i].request)) <= n
  }

  lemma PerformFits(m: Model, cfg: Config, s: State, e: Event, n: nat, B: nat)
    requires Inv(m, cfg, s, {}) && cfg.swap && !cfg.speculate && cfg.budget.None? && Settled(s) && AllFit(s)
    requires B >= 1 && s.cache.blockSize == B && |s.cache.refs| == n && ArrivalsFit([e], n, B)
    ensures var t := Perform(m, cfg, s, e);
            Settled(t) && AllFit(t) && t.cache.blockSize == B && |t.cache.refs| == n
  {
    hide Inv, Step;
    ListFacts(m, cfg, s);
    match e
    case Arrive(id, request) =>
      assert [e][0].Arrive?;
    case Abandon(id) =>
      CancelFrame(m, cfg, s, id);
    case Iterate =>
      StepProgresses(m, cfg, s);
      AllFitAdvances(s, Step(m, cfg, s).state);
  }

  lemma CancelFrame(m: Model, cfg: Config, s: State, id: SeqId)
    requires Inv(m, cfg, s, {}) && Wf(s.cache) && (id in s.running ==> id in s.cache.seqs)
    ensures var t := Cancel(s, id);
            && t.reqs == s.reqs && t.cache.blockSize == s.cache.blockSize && |t.cache.refs| == |s.cache.refs|
            && (forall x | Live(t, x) :: Live(s, x)) && (forall x | x in t.running :: x in s.running)
  {
    hide Inv, FreeSequence, Wf;
    ListsDistinct(m, cfg, s);
    RemoveDistinct(s.waiting, id);
    RemoveDistinct(s.running, id);
    RemoveDistinct(s.swapped, id);
  }

  lemma ListsDistinct(m: Model, cfg: Config, s: State)
    requires Inv(m, cfg, s, {})
    ensures NoDup(s.waiting) && NoDup(s.running) && NoDup(s.swapped)
  {
    hide AllOnTrack, CacheOk, OnePrefilling, AllResident, AllSaved;
  }

  lemma {:induction false} ExecuteFits(m: Model, cfg: Config, s: State, events: seq<Event>, n: nat, B: nat)
    requires Inv(m, cfg, s, {}) && cfg.swap && !cfg.speculate && cfg.budget.None? && Settled(s) && AllFit(s)
    requires B >= 1 && s.cache.blockSize == B && |s.cache.refs| == n && ArrivalsFit(events, n, B)
    ensures var t := Execute(m, cfg, s, events);
            Settled(t) && AllFit(t) && t.cache.blockSize == B && |t.cache.refs| == n
    decreases |events|
  {
    hide Inv, Perform, Settled, AllFit;
    if events != [] {
      var k := |events| - 1;
      ExecuteFits(m, cfg, s, events[..k], n, B);
      PerformFits(m, cfg, Execute(m, cfg, s, events[..k]), events[k], n, B);
    }
  }

  /** From an empty engine, after any arrivals that fit, cancellations and steps, running to
      completion serves every request still in the engine. */
  lemma EverybodyServed(m: Model, cfg: Config, n: nat, B: nat, caching: bool,
                        hash: (Option<Hash>, seq<Token>) -> Hash, zero: Kv, events: seq<Event>, steps: nat)
    requires B >= 1 && (caching ==> InjectiveHash(hash)) && cfg.swap && !cfg.speculate && cfg.budget.None?
    requires ArrivalsFit(events, n, B)
    ensures Inv(m, cfg, Initial(EmptyCache(n, B, caching, hash, zero)), {})
    ensures var s := Execute(m, cfg, Initial(EmptyCache(n, B, caching, hash, zero)), events);
            steps >= SumLeft(s.reqs, LiveIds(s)) ==>
              var (t, ok) := RunToCompletion(m, cfg, s, steps);
              ok && !HasUnfinished(t) && forall x | Live(s, x) :: Served(m, s, t, x)
  {
    hide Inv, Served;
    var start := Initial(EmptyCache(n, B, caching, hash, zero));
    InitialInv(m, cfg, n, B, caching, hash, zero);
    ExecuteFits(m, cfg, start, events, n, B);
    var s := Execute(m, cfg, start, events);
    if steps >= SumLeft(s.reqs, LiveIds(s)) {
      SwapModeCompletes(m, cfg, s, steps);
    }
  }
}
