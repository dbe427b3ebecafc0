/** Admission control promises more than it has: two requests it admits together cannot both stay. */
module Overcommit {
  import opened LanguageModel
  import opened Options
  import opened Positions
  import opened Sums
  import opened PagedKvCache
  import opened CacheInvariant
  import opened ModelRunner
  import opened BatchedDecode
  import opened Requests
  import opened SchedulerState
  import opened SchedulerSteps
  import opened SchedulerDecode
  import opened Speculation
  import opened SchedulerModel
  import opened SchedulerRuns
  import opened SwapProgress
  import opened AdmissionSlack
  import opened RetryLoop

  /** No chunking, swap or speculation. */
  function Plain(): Config {
    Config(None, false, false, h => [])
  }

  /** Sixteen prompt tokens, up to five new ones, and no stop token. */
  predicate Short(r: Request) {
    |r.prompt| == 16 && r.maxNew == 5 && r.eos == None && r.stops == {}
  }

  /** Running, with one token generated. */
  predicate Started(r: Request) {
    Short(r) && r.status == Running && |r.output| == 1
  }

  /** What the facts about a plain engine of three sixteen-slot blocks need. */
  ghost predicate SmallEngine(m: Model, s: State) {
    && Inv(m, Plain(), s, {})
    && s.cache.blockSize == 16 && |s.cache.refs| == 3 && !s.cache.prefixCaching && s.swapped == []
  }

  lemma StartedTable(m: Model, s: State, x: SeqId)
    requires SmallEngine(m, s) && x in s.running && x in s.reqs && Started(s.reqs[x])
    ensures x in s.cache.seqs && |s.cache.seqs[x].table| == 1
    ensures PledgeOf(s.reqs[x], 16) == 0
  {
    hide Inv;
    RunningSettled(m, Plain(), s, x);
  }

  /** One admission: the request starts with its first token. */
  lemma AdmitStarts(m: Model, s: State)
    requires SmallEngine(m, s) && s.waiting != [] && s.waiting[0] in s.reqs && Short(s.reqs[s.waiting[0]])
    requires WaitingNeed(m, Plain(), s) <= Available(m, Plain(), s)
    ensures var t := AdmitOne(m, Plain(), s).0;
            && SmallEngine(m, t) && AdmitOne(m, Plain(), s).1
            && t.running == s.running + [s.waiting[0]] && t.waiting == s.waiting[1..]
            && t.reqs.Keys == s.reqs.Keys && Started(t.reqs[s.waiting[0]])
            && forall x | x in s.reqs && x != s.waiting[0] :: t.reqs[x] == s.reqs[x]
  {
    hide Inv, AdmitOne;
    AvailableFits(m, Plain(), s);
    AdmitOneKeeps(m, Plain(), s);
    AdmitOneFrame(m, Plain(), s);
    AdmitOneCaching(m, Plain(), s);
    WaitingHead(m, Plain(), s);
  }

  /** Both requests waiting in an empty engine. */
  ghost predicate BothWait(m: Model, s: State) {
    && SmallEngine(m, s) && s.running == [] && s.waiting == [1, 2]
    && 1 in s.reqs && 2 in s.reqs && Short(s.reqs[1]) && Short(s.reqs[2])
  }

  /** Both running, one token each, and one block left. */
  ghost predicate BothRun(m: Model, s: State) {
    && SmallEngine(m, s) && s.running == [1, 2] && s.waiting == []
    && 1 in s.reqs && 2 in s.reqs && Started(s.reqs[1]) && Started(s.reqs[2])
    && |s.cache.free| == 1
  }

  lemma FreeNow(m: Model, s: State)
    requires SmallEngine(m, s) && forall x | x in s.running :: x in s.reqs && Started(s.reqs[x])
    ensures |s.cache.free| == 3 - |s.running|
  {
    hide Inv, Sum, BlocksFor;
    RunningDistinctIds(m, Plain(), s);
    forall x | x in s.running ensures |s.cache.seqs[x].table| == 1 {
      StartedTable(m, s, x);
    }
    var ones := map x | x in s.running :: 1;
    SumAtMost(ones, Ids(s.running), Tables(s.cache.seqs), Ids(s.running));
    SumAtMost(Tables(s.cache.seqs), Ids(s.running), ones, Ids(s.running));
    CountOnes(ones, s.running);
  }

  lemma BothAdmitted(m: Model, s: State)
    requires BothWait(m, s)
    ensures var (t, who) := Admit(m, Plain(), s, []); BothRun(m, t) && who == [1, 2]
  {
    hide Inv, AdmitOne, FirstToken;
    ListFacts(m, Plain(), s);
    FreeNow(m, s);
    AdmitStarts(m, s);
    AvailableFits(m, Plain(), s);
    var t := AdmitOne(m, Plain(), s).0;
    assert t.running == [1] && t.waiting == [2];
    assert [] + [1] == [1];
    SecondAdmitted(m, t);
  }

  /** With the first one running, the second still passes the admission test. */
  lemma SecondAdmitted(m: Model, t: State)
    requires SmallEngine(m, t) && t.running == [1] && t.waiting == [2]
    requires 1 in t.reqs && 2 in t.reqs && Started(t.reqs[1]) && Short(t.reqs[2])
    ensures var (u, who) := Admit(m, Plain(), t, [1]); BothRun(m, u) && who == [1, 2]
  {
    hide Inv, AdmitOne, FirstToken;
    ListFacts(m, Plain(), t);
    FreeNow(m, t);
    StartedTable(m, t, 1);
    PledgedNothing(t.reqs, t.running, 16);
    AdmitStarts(m, t);
    AvailableFits(m, Plain(), t);
    var u := AdmitOne(m, Plain(), t).0;
    assert u.running == [1, 2] && u.waiting == [];
    FreeNow(m, u);
    assert Admit(m, Plain(), u, [1, 2]) == (u, [1, 2]);
    assert [1] + [2] == [1, 2];
  }

  lemma {:induction false} PledgedNothing(reqs: map<SeqId, Request>, running: seq<SeqId>, B: nat)
    requires B >= 1 && forall i | 0 <= i < |running| :: running[i] in reqs && PledgeOf(reqs[running[i]], B) == 0
    ensures PledgedBlocks(reqs, running, B) == 0
    decreases |running|
  {
    if running != [] {
      PledgedNothing(reqs, running[..|running| - 1], B);
    }
  }

  /** The admitting step changes nothing else. */
  lemma AdmittingStep(m: Model, s: State)
    requires BothWait(m, s)
    ensures var out := Step(m, Plain(), s); out.ok && BothRun(m, out.state)
  {
    hide Inv, Admit, Retire;
    BothAdmitted(m, s);
    assert TrySwapIn(m, Plain(), s) == s;
    var (t, who) := Admit(m, Plain(), s, []);
    ListFacts(m, Plain(), t);
    HasMember(ActiveOf(t.reqs, t.running, who));
    NothingRetired(m, t);
  }

  lemma NothingRetired(m: Model, s: State)
    requires BothRun(m, s)
    ensures Retire(m, Plain(), s) == s
  {
    hide Inv, WithStatus, Unfinished;
    ListFacts(m, Plain(), s);
    HasMember(WithStatus(s.reqs, s.running, Finished));
    UnfinishedBoth(s.reqs);
  }

  lemma UnfinishedBoth(reqs: map<SeqId, Request>)
    requires 1 in reqs && 2 in reqs && reqs[1].status == Running && reqs[2].status == Running
    ensures Unfinished(reqs, [1, 2]) == [1, 2]
  {
    assert [1, 2][..1] == [1] && [1][..0] == [];
    assert Unfinished(reqs, [1]) == [1];
  }

  /** Both cannot take the block each needs for its next token. */
  lemma NoRoomForBoth(m: Model, s: State)
    requires BothRun(m, s) && Retrying(m, Plain(), s, [1, 2])
    ensures !DecodeOnce(m, Plain(), s, [1, 2]).1
  {
    hide Inv, DecodeOnce, Sum, BlocksFor, Next, Retrying;
    DecodeOnceKeeps(m, Plain(), s, [1, 2]);
    DecodeOnceFrame(m, Plain(), s, [1, 2]);
    var (t, ok) := DecodeOnce(m, Plain(), s, [1, 2]);
    if ok {
      var ids := [1, 2];
      assert ids[0] == 1 && ids[1] == 2;
      assert t.reqs[1] == AppendToken(s.reqs[1], NextOf(m, s.reqs[1]));
      assert t.reqs[2] == AppendToken(s.reqs[2], NextOf(m, s.reqs[2]));
      RunningDistinctIds(m, Plain(), t);
      SecondTable(m, t, 1);
      SecondTable(m, t, 2);
      var w := Tables(t.cache.seqs);
      assert Ids(t.running) == {1, 2};
      SumWithout(w, {1, 2}, 1);
      assert {1, 2} - {1} == {2};
      SumWithout(w, {2}, 2);
    }
  }

  lemma SecondTable(m: Model, s: State, x: SeqId)
    requires SmallEngine(m, s) && x in s.running && x in s.reqs && |s.reqs[x].prompt| == 16 && |s.reqs[x].output| == 2
    requires s.reqs[x].status == Running
    ensures x in s.cache.seqs && |s.cache.seqs[x].table| == 2
  {
    hide Inv;
    RunningSettled(m, Plain(), s, x);
  }

  /** The next step sends the second request back to the queue without its work. */
  lemma PreemptingStep(m: Model, s: State)
    requires BothRun(m, s)
    ensures var t := Step(m, Plain(), s).state;
            2 in t.waiting && 2 in t.reqs && t.reqs[2].output == [] && t.reqs[2].status == Waiting
  {
    hide Inv, DecodeWork, Retire, BothRun;
    NothingAdmitted(m, s);
    SecondDecodeEvicts(m, s);
  }

  lemma NothingAdmitted(m: Model, s: State)
    requires BothRun(m, s)
    ensures SmallEngine(m, s) && TrySwapIn(m, Plain(), s) == s && Admit(m, Plain(), s, []) == (s, [])
  {
    hide Inv;
  }

  lemma SecondDecodeEvicts(m: Model, s: State)
    requires BothRun(m, s)
    ensures var t := DecodeWork(m, Plain(), s, []).0;
            2 in t.waiting && 2 in t.reqs && t.reqs[2].output == [] && t.reqs[2].status == Waiting
  {
    hide Inv, DecodeActive, Retrying, SpeculateActive;
    ListFacts(m, Plain(), s);
    ActiveOfIsActive(m, Plain(), s, []);
    ActiveBoth(s.reqs);
    NothingSpeculated(m, Plain(), s, [1, 2], [], []);
    assert [] + [1, 2] == [1, 2];
    StartRetrying(m, Plain(), s, [1, 2]);
    SecondEvicted(m, s);
  }

  lemma ActiveBoth(reqs: map<SeqId, Request>)
    requires 1 in reqs && 2 in reqs && reqs[1].status == Running && reqs[2].status == Running
    ensures ActiveOf(reqs, [1, 2], []) == [1, 2]
  {
    assert [1, 2][..1] == [1] && [1][..0] == [];
    assert ActiveOf(reqs, [1], []) == [1];
  }

  lemma SecondEvicted(m: Model, s: State)
    requires BothRun(m, s) && Retrying(m, Plain(), s, [1, 2])
    ensures var t := DecodeActive(m, Plain(), s, [1, 2]).0;
            2 in t.waiting && 2 in t.reqs && t.reqs[2].output == [] && t.reqs[2].status == Waiting
  {
    hide Inv, Retrying, DecodeOnce, Preempt, NextOf, AppendToken;
    NoRoomForBoth(m, s);
    DecodeActiveRetries(m, Plain(), s, [1, 2]);
    RetryKeeps(m, Plain(), s, [1, 2]);
    var ids := [1, 2];
    var (t, left) := DecodeActive(m, Plain(), s, ids);
    var next := Preempt(Plain(), DecodeOnce(m, Plain(), s, ids).0, 2);
    assert ids[..1] == [1];
    DecodeActiveRetries(m, Plain(), next, [1]);
    assert left == DecodeActive(m, Plain(), next, [1]).1;
    var victims := ids[|left|..];
    assert victims[|victims| - 1] == 2;
    assert t.waiting[|victims| - 1] == 2;
    assert ids[1] == 2;
  }

  /** Three blocks of sixteen, two requests of sixteen prompt tokens that may generate five: the
      first step admits both, the second preempts one of them. */
  lemma AdmissionOvercommits(m: Model, hash: (Option<Hash>, seq<Token>) -> Hash, zero: Kv, r: Request)
    requires Short(r)
    ensures Inv(m, Plain(), Initial(EmptyCache(3, 16, false, hash, zero)), {})
    ensures
      var start, arrivals := Initial(EmptyCache(3, 16, false, hash, zero)), [Arrive(1, r), Arrive(2, r)];
      var admitted, later := Execute(m, Plain(), start, arrivals + [Iterate]), Execute(m, Plain(), start, arrivals + [Iterate, Iterate]);
      && admitted.running == [1, 2]
      && 2 in later.waiting && 2 in later.reqs && later.reqs[2].output == []
  {
    hide Inv, Step;
    var start, arrivals := Initial(EmptyCache(3, 16, false, hash, zero)), [Arrive(1, r), Arrive(2, r)];
    InitialInv(m, Plain(), 3, 16, false, hash, zero);
    var one, both := AddRequest(start, 1, r), AddRequest(AddRequest(start, 1, r), 2, r);
    assert arrivals == [] + [Arrive(1, r)] + [Arrive(2, r)];
    ExecuteNext(m, Plain(), start, [], Arrive(1, r));
    ExecuteNext(m, Plain(), start, [] + [Arrive(1, r)], Arrive(2, r));
    assert Execute(m, Plain(), start, arrivals) == both;
    assert BothWait(m, both);
    AdmittingStep(m, both);
    ExecuteNext(m, Plain(), start, arrivals, Iterate);
    PreemptingStep(m, Step(m, Plain(), both).state);
    ExecuteNext(m, Plain(), start, arrivals + [Iterate], Iterate);
    assert arrivals + [Iterate, Iterate] == arrivals + [Iterate] + [Iterate];
  }

  lemma ExecuteNext(m: Model, cfg: Config, s: State, events: seq<Event>, e: Event)
    requires Inv(m, cfg, s, {})
    ensures Execute(m, cfg, s, events + [e]) == Perform(m, cfg, Execute(m, cfg, s, events), e)
  {
    hide Inv, Perform;
    assert (events + [e])[..|events|] == events;
  }
}
