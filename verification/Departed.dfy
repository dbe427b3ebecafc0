/** A request that has left the lists is never touched again, whatever the mode. */
module Departed {
  import opened LanguageModel
  import opened Options
  import opened PagedKvCache
  import opened CacheInvariant
  import opened ModelRunner
  import opened Requests
  import opened SchedulerState
  import opened SchedulerSteps
  import opened SchedulerDecode
  import opened Speculation
  import opened SchedulerModel
  import opened SwapProgress
  import opened AdmissionSlack
  import opened RetryLoop

  /** Nobody outside the lists changes or comes back. */
  ghost predicate Contained(s: State, t: State) {
    && (forall x | x in s.reqs && !Live(s, x) :: x in t.reqs && t.reqs[x] == s.reqs[x])
    && (forall x :: Live(t, x) ==> Live(s, x))
    && t.reqs.Keys == s.reqs.Keys
  }

  lemma ContainedTwice(s: State, t: State, u: State)
    requires Contained(s, t) && Contained(t, u)
    ensures Contained(s, u)
  {
  }

  lemma ContainedSelf(s: State)
    ensures Contained(s, s)
  {
  }

  /** Touching one listed request, and moving it between lists. */
  lemma ContainedMove(s: State, t: State, id: SeqId)
    requires id in t.reqs && id in s.reqs && t.reqs == s.reqs[id := t.reqs[id]] && Live(s, id)
    requires forall x | x != id :: Live(t, x) ==> Live(s, x)
    ensures Contained(s, t)
  {
  }

  lemma {:induction false} TrySwapInContained(m: Model, cfg: Config, s: State)
    requires Inv(m, cfg, s, {})
    ensures Contained(s, TrySwapIn(m, cfg, s))
    decreases |s.swapped|
  {
    hide Inv, Contained;
    if s.swapped == [] || SwappedNeed(m, cfg, s) > Available(m, cfg, s) {
      ContainedSelf(s);
    } else {
      AvailableFits(m, cfg, s);
      SwapInOneKeeps(m, cfg, s);
      SwapInOneAdvances(m, cfg, s);
      AdvancesContained(s, SwapInOne(m, cfg, s));
      TrySwapInContained(m, cfg, SwapInOne(m, cfg, s));
      ContainedTwice(s, SwapInOne(m, cfg, s), TrySwapIn(m, cfg, s));
    }
  }

  lemma AdvancesContained(s: State, t: State)
    requires Advances(s, t)
    ensures Contained(s, t)
  {
    hide Extended;
  }

  lemma {:induction false} AdmitContained(m: Model, cfg: Config, s: State, admitted: seq<SeqId>)
    requires Inv(m, cfg, s, {}) && cfg.budget.None?
    ensures Contained(s, Admit(m, cfg, s, admitted).0)
  {
    hide Inv, Contained, Gained, Advances;
    AdmitAdvances(m, cfg, s, admitted);
    AdvancesContained(s, Admit(m, cfg, s, admitted).0);
  }

  lemma ChunkContained(m: Model, cfg: Config, s: State, id: SeqId, budget: nat)
    requires Inv(m, cfg, s, {}) && id in s.running && id in s.reqs && s.reqs[id].status == Prefilling
    ensures Contained(s, PrefillChunk(m, cfg, s, id, budget).state)
  {
    hide Inv, PrefillChunk, Next, FirstToken;
    PrefillChunkKeeps(m, cfg, s, id, budget);
    ContainedMove(s, PrefillChunk(m, cfg, s, id, budget).state, id);
  }

  lemma {:induction false} InFlightContained(m: Model, cfg: Config, s: State, ids: seq<SeqId>, budget: nat, completed: seq<SeqId>)
    requires Inv(m, cfg, s, {}) && InFlight(s, ids, budget)
    ensures Contained(s, ContinueInFlight(m, cfg, s, ids, budget, completed).state)
    decreases |ids|
  {
    hide Inv, InFlight, PrefillChunk, Contained, ChunkOutcome;
    if ids == [] || budget == 0 {
      ContainedSelf(s);
    } else {
      InFlightHead(m, cfg, s, ids, budget);
      ChunkContained(m, cfg, s, ids[0], budget);
      var out := PrefillChunk(m, cfg, s, ids[0], budget);
      if out.ok {
        var more := if out.done then completed + [ids[0]] else completed;
        InFlightContained(m, cfg, out.state, ids[1..], out.budget, more);
        ContainedTwice(s, out.state, ContinueInFlight(m, cfg, out.state, ids[1..], out.budget, more).state);
      }
    }
  }

  lemma StartContained(m: Model, cfg: Config, s: State)
    requires Inv(m, cfg, s, {}) && s.waiting != []
    ensures Contained(s, StartChunked(m, cfg, s))
  {
    hide Inv;
    WaitingHead(m, cfg, s);
    ListFacts(m, cfg, s);
    assert s.waiting == [s.waiting[0]] + s.waiting[1..];
    ContainedMove(s, StartChunked(m, cfg, s), s.waiting[0]);
  }

  lemma {:induction false} AdmitChunkedContained(m: Model, cfg: Config, s: State, budget: nat, completed: seq<SeqId>)
    requires Inv(m, cfg, s, {}) && cfg.budget.Some? && (budget > 0 ==> NonePrefilling(s))
    ensures Contained(s, AdmitChunked(m, cfg, s, budget, completed).state)
    decreases |s.waiting|
  {
    hide Inv, PrefillChunk, Contained, ChunkOutcome, StartChunked, NonePrefilling;
    if s.waiting == [] || budget == 0 || WaitingNeed(m, cfg, s) > Available(m, cfg, s) {
      ContainedSelf(s);
    } else {
      var id, started := s.waiting[0], StartChunked(m, cfg, s);
      AdmitChunkedHead(m, cfg, s, budget);
      StartContained(m, cfg, s);
      ChunkContained(m, cfg, started, id, budget);
      var out := PrefillChunk(m, cfg, started, id, budget);
      ContainedTwice(s, started, out.state);
      if out.ok {
        var more := if out.done then completed + [id] else completed;
        AdmitChunkedContained(m, cfg, out.state, out.budget, more);
        ContainedTwice(s, out.state, AdmitChunked(m, cfg, out.state, out.budget, more).state);
      }
    }
  }

  lemma PrefillWorkContained(m: Model, cfg: Config, s: State)
    requires Inv(m, cfg, s, {})
    ensures Contained(s, PrefillWork(m, cfg, s).state)
  {
    hide Inv, Contained, Admit, ContinueInFlight, AdmitChunked, WithStatus;
    ListFacts(m, cfg, s);
    if cfg.budget.None? {
      AdmitContained(m, cfg, s, []);
    } else {
      var ids := WithStatus(s.reqs, s.running, Prefilling);
      RunningDistinctIds(m, cfg, s);
      InFlightContained(m, cfg, s, ids, cfg.budget.value, []);
      var w := ContinueInFlight(m, cfg, s, ids, cfg.budget.value, []);
      if w.ok {
        AdmitChunkedContained(m, cfg, w.state, w.budget, w.completed);
        ContainedTwice(s, w.state, AdmitChunked(m, cfg, w.state, w.budget, w.completed).state);
      }
    }
  }

  /** The batch's requests are running, so the retry loop touches only listed ones. */
  lemma DecodeActiveContained(m: Model, cfg: Config, s: State, ids: seq<SeqId>)
    requires Retrying(m, cfg, s, ids)
    ensures Contained(s, DecodeActive(m, cfg, s, ids).0)
  {
    hide Inv, Retrying, DecodeActive, NextOf, AppendToken, Evicted, DecodeOnce;
    DecodeActiveRetries(m, cfg, s, ids);
    BatchDistinct(m, cfg, s, ids);
    forall x | x in ids ensures Live(s, x) {
      var i :| 0 <= i < |ids| && ids[i] == x;
    }
  }

  lemma SpeculateContained(m: Model, cfg: Config, s: State, id: SeqId, draft: seq<Token>)
    requires Inv(m, cfg, s, {}) && id in s.running && id in s.reqs && s.reqs[id].status == Running && cfg.speculate
    ensures Contained(s, Speculate(m, cfg, s, id, draft).0)
  {
    hide Inv, Speculate, Greedy;
    SpeculateKeeps(m, cfg, s, id, draft);
    SpeculateLists(m, cfg, s, id, draft);
    ContainedMove(s, Speculate(m, cfg, s, id, draft).0, id);
  }

  lemma SpeculateLists(m: Model, cfg: Config, s: State, id: SeqId, draft: seq<Token>)
    requires Inv(m, cfg, s, {}) && id in s.running && id in s.reqs && s.reqs[id].status == Running
    ensures forall x | x != id :: Live(Speculate(m, cfg, s, id, draft).0, x) ==> Live(s, x)
  {
    hide Inv, ContinuePrefill, AppendUntilDone, MatchedFrom, Rollback, FreeSequence, SwapOut;
    RunningFacts(m, cfg, s, id, {});
  }

  lemma {:induction false} SpeculateActiveContained(m: Model, cfg: Config, s: State, active: seq<SeqId>, done: seq<SeqId>, regular: seq<SeqId>)
    requires Inv(m, cfg, s, {}) && Active(s, regular + active)
    ensures Contained(s, SpeculateActive(m, cfg, s, active, done, regular).0)
    decreases |active|
  {
    hide Inv, Active, Speculate, Contained;
    if active == [] {
      ContainedSelf(s);
    } else {
      var id := active[0];
      ActiveHead(m, cfg, s, active, regular);
      var draft := DraftFor(cfg, s.reqs[id]);
      if draft != [] {
        SpeculateHead(m, cfg, s, active, regular, draft);
        SpeculateContained(m, cfg, s, id, draft);
        var (after, ok) := Speculate(m, cfg, s, id, draft);
        var more := if ok then done + [id] else done;
        SpeculateActiveContained(m, cfg, after, active[1..], more, regular);
        ContainedTwice(s, after, SpeculateActive(m, cfg, after, active[1..], more, regular).0);
      } else {
        assert (regular + [id]) + active[1..] == regular + active;
        SpeculateActiveContained(m, cfg, s, active[1..], done, regular + [id]);
      }
    }
  }

  lemma DecodeWorkContained(m: Model, cfg: Config, s: State, completed: seq<SeqId>)
    requires Inv(m, cfg, s, {})
    ensures Contained(s, DecodeWork(m, cfg, s, completed).0)
  {
    hide Inv, DecodeActive, SpeculateActive, ActiveOf, Retrying, Contained;
    ListFacts(m, cfg, s);
    ActiveOfIsActive(m, cfg, s, completed);
    var active := ActiveOf(s.reqs, s.running, completed);
    SpeculateActiveContained(m, cfg, s, active, [], []);
    var (verified, done, regular) := SpeculateActive(m, cfg, s, active, [], []);
    if regular != [] {
      StartRetrying(m, cfg, verified, regular);
      DecodeActiveContained(m, cfg, verified, regular);
      ContainedTwice(s, verified, DecodeActive(m, cfg, verified, regular).0);
    }
  }

  /** A step never touches a request outside the lists, and afterwards no finished one is running. */
  lemma StepContained(m: Model, cfg: Config, s: State)
    requires Inv(m, cfg, s, {})
    ensures Contained(s, Step(m, cfg, s).state)
    ensures Step(m, cfg, s).ok ==> SwapProgress.Settled(Step(m, cfg, s).state)
  {
    hide Inv, Contained, TrySwapIn, PrefillWork, DecodeWork, Retire, Advances, SwapProgress.Settled;
    var s1 := TrySwapIn(m, cfg, s);
    TrySwapInContained(m, cfg, s);
    var w := PrefillWork(m, cfg, s1);
    PrefillWorkContained(m, cfg, s1);
    ContainedTwice(s, s1, w.state);
    if w.ok {
      var s3 := DecodeWork(m, cfg, w.state, w.completed).0;
      DecodeWorkContained(m, cfg, w.state, w.completed);
      ContainedTwice(s, w.state, s3);
      RetireAdvances(m, cfg, s3);
      AdvancesContained(s3, Retire(m, cfg, s3));
      ContainedTwice(s, s3, Retire(m, cfg, s3));
    }
  }

  /** So a request that is finished after a completed step keeps its output through every later one. */
  lemma FinishedStays(m: Model, cfg: Config, s: State, x: SeqId)
    requires Inv(m, cfg, s, {}) && SwapProgress.Settled(s) && x in s.reqs && s.reqs[x].status == Finished
    ensures !Live(s, x)
    ensures x in Step(m, cfg, s).state.reqs && Step(m, cfg, s).state.reqs[x] == s.reqs[x]
  {
    hide Step;
    StepContained(m, cfg, s);
    NotListed(m, cfg, s, x);
  }

  lemma NotListed(m: Model, cfg: Config, s: State, x: SeqId)
    requires Inv(m, cfg, s, {}) && SwapProgress.Settled(s) && x in s.reqs && s.reqs[x].status == Finished
    ensures !Live(s, x)
  {
    hide CacheOk, AllOnTrack, AllResident, AllSaved, OnePrefilling;
  }
}
