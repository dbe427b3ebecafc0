/** Speculation in recompute mode: a draft longer than what is left to generate can keep a request that
    fits from ever finishing, and a draft no longer than that cannot. */
module DraftCap {
  import opened LanguageModel
  import opened Options
  import opened Positions
  import opened PagedKvCache
  import opened CacheInvariant
  import opened CacheOperations
  import opened SwapToHost
  import opened ModelRunner
  import opened BatchedDecode
  import opened Requests
  import opened SchedulerState
  import opened SchedulerSteps
  import opened SchedulerDecode
  import opened Speculation
  import opened SchedulerModel
  import opened SchedulerRuns
  import opened SwapProgress
  import opened AdmissionSlack
  import opened RetryLoop
  import opened RecomputeProgress
  import opened Overcommit

  // ---- a request alone on the device ----

  /** Every block is free or its own. */
  lemma AloneBlocks(c: Cache, x: SeqId)
    requires Sound(c, {}) && x in c.seqs && forall y | y in c.seqs :: y == x
    ensures |c.free| + |c.seqs[x].table| == |c.refs|
  {
    var table := c.seqs[x].table;
    SoundTable(c, x);
    FreeDistinct(c);
    DistinctSize(c.free);
    DistinctSize(table);
    forall b: Block ensures b < |c.refs| <==> b in Elems(c.free) || b in Elems(table)
             ensures !(b in Elems(c.free) && b in Elems(table))
    {
      FreeOrUsed(c, b);
      assert b in Used(c.seqs, c.seqs.Keys) <==> b in table;
    }
    SplitSize(Elems(c.free), Elems(table), |c.refs|);
  }

  /** Verifying a draft finds room exactly if the history and the whole draft fit into the device. */
  lemma LoneDraftFits(m: Model, cfg: Config, s: State, x: SeqId, draft: seq<Token>)
    requires Inv(m, cfg, s, {}) && s.running == [x] && x in s.reqs && s.reqs[x].status == Running
    ensures s.cache.blockSize >= 1 && x in s.running
    ensures Speculate(m, cfg, s, x, draft).1 <==> BlocksFor(s.cache.blockSize, |History(s.reqs[x])| + |draft|) <= |s.cache.refs|
  {
    hide Counted, FreeExact, SharedIndexed, TablesDistinct, Faithful, HostFaithful, OnTrack, Resident, ContinuePrefill, NoDup;
    hide Hist, PrivateFrom, BlocksFor, Wf, Preempt, PredictsNext, PrivacyKept, Rollback, AppendUntilDone, Accepted, MatchedFrom;
    RunningFacts(m, cfg, s, x, {});
    var r, chunk := s.reqs[x], [LastToken(s.reqs[x])] + draft;
    ContinuePrefillKeeps(m, s.cache, Hist(s.reqs, s.cache.seqs), x, chunk);
    OnlyResident(m, cfg, s, x);
    AloneBlocks(s.cache, x);
    hide Inv, Sound;
    assert s.cache.seqs[x].len + |chunk| == |History(r)| + |draft|;
  }

  lemma OnlyResident(m: Model, cfg: Config, s: State, x: SeqId)
    requires Inv(m, cfg, s, {}) && s.running == [x]
    ensures x in s.cache.seqs && forall y | y in s.cache.seqs :: y == x
    ensures Sound(s.cache, {})
  {
    hide Sound, Faithful, HostFaithful, OnTrack, Resident;
    assert x in s.running;
  }

  /** So a draft no longer than what is left always does, if the request fits at all. */
  lemma CappedDraftFits(m: Model, cfg: Config, s: State, x: SeqId, draft: seq<Token>)
    requires Inv(m, cfg, s, {}) && s.running == [x] && x in s.reqs && s.reqs[x].status == Running && AllFit(s)
    requires |s.reqs[x].output| + |draft| <= s.reqs[x].maxNew
    ensures x in s.running && Speculate(m, cfg, s, x, draft).1
  {
    hide Inv, BlocksFor, Speculate;
    LoneDraftFits(m, cfg, s, x, draft);
    assert Live(s, x);
    BlocksForMonotone(s.cache.blockSize, |History(s.reqs[x])| + |draft|, TotalLenEstimate(s.reqs[x]));
  }

  // ---- a draft that is too long, again and again ----

  /** Recompute mode with speculation. */
  function Drafting(draft: seq<Token> -> seq<Token>): Config {
    Config(None, false, true, draft)
  }

  /** The request fits alone and is not done after one token, but the draft that follows does not fit. */
  ghost predicate Overdrafted(m: Model, r: Request, draft: seq<Token> -> seq<Token>, n: nat, B: nat) {
    && B >= 1 && r.prompt != [] && r.output == [] && r.status == Waiting && r.maxNew >= 2
    && BlocksFor(B, TotalLenEstimate(r)) <= n
    && var t := Next(m, r.prompt);
    && !IsStop(r, t) && draft(r.prompt + [t]) != []
    && BlocksFor(B, |r.prompt| + 1 + |draft(r.prompt + [t])|) > n
  }

  ghost predicate Engine(m: Model, draft: seq<Token> -> seq<Token>, s: State, r: Request, n: nat, B: nat) {
    && Inv(m, Drafting(draft), s, {}) && s.cache.blockSize == B && |s.cache.refs| == n && s.swapped == []
    && s.reqs.Keys == {1} && Overdrafted(m, r, draft, n, B)
  }

  ghost predicate Queued(m: Model, draft: seq<Token> -> seq<Token>, s: State, r: Request, n: nat, B: nat) {
    Engine(m, draft, s, r, n, B) && s.running == [] && s.waiting == [1] && s.reqs[1] == r
  }

  ghost predicate OneToken(m: Model, draft: seq<Token> -> seq<Token>, s: State, r: Request, n: nat, B: nat) {
    && Engine(m, draft, s, r, n, B) && s.running == [1] && s.waiting == [] && r.prompt != []
    && s.reqs[1] == r.(output := [Next(m, r.prompt)], status := Running)
  }

  lemma AdmitsAgain(m: Model, draft: seq<Token> -> seq<Token>, s: State, r: Request, n: nat, B: nat)
    requires Queued(m, draft, s, r, n, B)
    ensures Step(m, Drafting(draft), s).ok && OneToken(m, draft, Step(m, Drafting(draft), s).state, r, n, B)
  {
    hide Inv, AdmitOne, Retire, DecodeWork, Next, BlocksFor;
    var cfg := Drafting(draft);
    IdleFree(m, cfg, s);
    ListFacts(m, cfg, s);
    AvailableFits(m, cfg, s);
    AdmitOneKeeps(m, cfg, s);
    AdmitOneFrame(m, cfg, s);
    AdmittedToken(m, cfg, s);
    var t := AdmitOne(m, cfg, s).0;
    assert t.running == [1] && t.waiting == [] && [] + [1] == [1];
    assert Admit(m, cfg, t, [1]) == (t, [1]);
    assert Admit(m, cfg, s, []) == (t, [1]);
    NothingToDecode(m, cfg, t, [1]);
    RetireNobody(m, cfg, t);
  }

  lemma AdmittedToken(m: Model, cfg: Config, s: State)
    requires Inv(m, cfg, s, {}) && cfg.budget.None? && WaitingFits(s) && AdmitOne(m, cfg, s).1
    ensures var id := s.waiting[0];
            && id in s.reqs && s.reqs[id].prompt != [] && id in AdmitOne(m, cfg, s).0.reqs
            && AdmitOne(m, cfg, s).0.reqs[id] == FirstToken(s.reqs[id], Next(m, s.reqs[id].prompt))
  {
    hide Counted, FreeExact, SharedIndexed, TablesDistinct, Faithful, HostFaithful, OnTrack, PromptCached, PrefillWithPrefixReuse;
    hide CreateForPrompt, Next, Resident, InjectiveHash, Wf, NoDup, BlocksFor;
    var id := s.waiting[0];
    WaitingHead(m, cfg, s);
    MatchAgrees(m, s, s.reqs[id].prompt);
    PrefillKeeps(m, s.cache, Hist(s.reqs, s.cache.seqs), id, s.reqs[id].prompt);
    hide Inv;
  }

  lemma OverdraftsAgain(m: Model, draft: seq<Token> -> seq<Token>, s: State, r: Request, n: nat, B: nat)
    requires OneToken(m, draft, s, r, n, B)
    ensures Step(m, Drafting(draft), s).ok && Queued(m, draft, Step(m, Drafting(draft), s).state, r, n, B)
  {
    hide Inv, Retire, Next, BlocksFor, Speculate, DecodeWork;
    var cfg := Drafting(draft);
    ListFacts(m, cfg, s);
    assert Admit(m, cfg, s, []) == (s, []);
    DraftEvicts(m, draft, s, r, n, B);
    RetireNobody(m, cfg, DecodeWork(m, cfg, s, []).0);
  }

  lemma DraftEvicts(m: Model, draft: seq<Token> -> seq<Token>, s: State, r: Request, n: nat, B: nat)
    requires OneToken(m, draft, s, r, n, B)
    ensures Queued(m, draft, DecodeWork(m, Drafting(draft), s, []).0, r, n, B)
  {
    hide Inv, Next, BlocksFor, Speculate;
    var cfg := Drafting(draft);
    ListFacts(m, cfg, s);
    ActiveOfIsActive(m, cfg, s, []);
    assert ActiveOf(s.reqs, [], []) == [] && [1][..0] == [];
    assert ActiveOf(s.reqs, [1], []) == [1];
    var tried := draft(r.prompt + [Next(m, r.prompt)]);
    assert History(s.reqs[1]) == r.prompt + [Next(m, r.prompt)];
    LoneDraftFits(m, cfg, s, 1, tried);
    SpeculateKeeps(m, cfg, s, 1, tried);
    var after := Speculate(m, cfg, s, 1, tried).0;
    SpeculateSizes(m, cfg, s, 1, tried);
    assert after.running == [] by { NobodyIn(after.running); }
    assert [1] + [] == [1];
    assert SpeculateActive(m, cfg, after, [], [], []) == (after, [], []);
    assert [1][1..] == [] && [] + [1] == [1];
  }

  lemma NobodyIn(ids: seq<SeqId>)
    ensures (forall x :: x !in ids) ==> ids == []
  {
    HasMember(ids);
  }

  lemma SpeculateSizes(m: Model, cfg: Config, s: State, x: SeqId, draft: seq<Token>)
    requires Inv(m, cfg, s, {}) && x in s.running && s.reqs[x].status == Running
    ensures var t := Speculate(m, cfg, s, x, draft).0;
            t.cache.blockSize == s.cache.blockSize && |t.cache.refs| == |s.cache.refs|
  {
    hide Inv, ContinuePrefill, Accepted, AppendUntilDone, MatchedFrom, FreeSequence, SwapOut;
    RunningFacts(m, cfg, s, x, {});
  }

  function Iterations(k: nat): seq<Event> {
    seq(k, i => Iterate)
  }

  /** A request that fits alone, in an engine of its own, and never gets beyond its first token: its
      draft does not fit, so it is preempted and loses its output, and then drafts the same again. */
  lemma {:induction false} DraftLoops(m: Model, draft: seq<Token> -> seq<Token>, n: nat, B: nat, caching: bool,
                                      hash: (Option<Hash>, seq<Token>) -> Hash, zero: Kv, r: Request, k: nat)
    requires Overdrafted(m, r, draft, n, B) && (caching ==> InjectiveHash(hash))
    ensures Inv(m, Drafting(draft), Initial(EmptyCache(n, B, caching, hash, zero)), {})
    ensures var s := Execute(m, Drafting(draft), Initial(EmptyCache(n, B, caching, hash, zero)), [Arrive(1, r)] + Iterations(k));
            && 1 in s.reqs && s.reqs[1].status != Finished && |s.reqs[1].output| <= 1
            && if k % 2 == 0 then Queued(m, draft, s, r, n, B) else OneToken(m, draft, s, r, n, B)
    decreases k
  {
    hide Inv, Step, Overdrafted, Next, Queued, OneToken, Execute, EmptyCache;
    NotDone(m, r, draft, n, B);
    var cfg, start := Drafting(draft), Initial(EmptyCache(n, B, caching, hash, zero));
    InitialInv(m, cfg, n, B, caching, hash, zero);
    if k == 0 {
      OverdraftedArrives(m, draft, n, B, caching, hash, zero, r);
      QueuedFacts(m, draft, AddRequest(start, 1, r), r, n, B);
      StartsEmpty(m, cfg, start);
      assert [Arrive(1, r)] + Iterations(0) == [] + [Arrive(1, r)];
      ExecuteNext(m, cfg, start, [], Arrive(1, r));
    } else {
      DraftLoops(m, draft, n, B, caching, hash, zero, r, k - 1);
      var before := [Arrive(1, r)] + Iterations(k - 1);
      assert [Arrive(1, r)] + Iterations(k) == before + [Iterate];
      ExecuteNext(m, cfg, start, before, Iterate);
      var s := Execute(m, cfg, start, before);
      if (k - 1) % 2 == 0 {
        QueuedFacts(m, draft, s, r, n, B);
        AdmitsAgain(m, draft, s, r, n, B);
        OneTokenFacts(m, draft, Step(m, cfg, s).state, r, n, B);
      } else {
        OneTokenFacts(m, draft, s, r, n, B);
        OverdraftsAgain(m, draft, s, r, n, B);
        QueuedFacts(m, draft, Step(m, cfg, s).state, r, n, B);
      }
    }
  }

  lemma StartsEmpty(m: Model, cfg: Config, s: State)
    requires Inv(m, cfg, s, {})
    ensures Execute(m, cfg, s, []) == s
  {
    hide Inv;
  }

  lemma QueuedFacts(m: Model, draft: seq<Token> -> seq<Token>, s: State, r: Request, n: nat, B: nat)
    requires Queued(m, draft, s, r, n, B)
    ensures Inv(m, Drafting(draft), s, {}) && 1 in s.reqs && s.reqs[1].status != Finished && s.reqs[1].output == []
  {
    hide Inv, Next, BlocksFor;
  }

  lemma OneTokenFacts(m: Model, draft: seq<Token> -> seq<Token>, s: State, r: Request, n: nat, B: nat)
    requires OneToken(m, draft, s, r, n, B)
    ensures Inv(m, Drafting(draft), s, {}) && 1 in s.reqs && s.reqs[1].status != Finished && |s.reqs[1].output| == 1
  {
    hide Inv, Next, BlocksFor;
  }

  lemma NotDone(m: Model, r: Request, draft: seq<Token> -> seq<Token>, n: nat, B: nat)
    requires Overdrafted(m, r, draft, n, B)
    ensures B >= 1 && r.output == [] && r.status == Waiting && r.prompt != []
  {
  }

  lemma OverdraftedArrives(m: Model, draft: seq<Token> -> seq<Token>, n: nat, B: nat, caching: bool,
                           hash: (Option<Hash>, seq<Token>) -> Hash, zero: Kv, r: Request)
    requires Overdrafted(m, r, draft, n, B) && Inv(m, Drafting(draft), Initial(EmptyCache(n, B, caching, hash, zero)), {})
    ensures r.prompt != [] && r.output == [] && r.status == Waiting
    ensures var s := AddRequest(Initial(EmptyCache(n, B, caching, hash, zero)), 1, r); Queued(m, draft, s, r, n, B)
  {
    hide Inv, BlocksFor, Next;
    AddRequestKeeps(m, Drafting(draft), Initial(EmptyCache(n, B, caching, hash, zero)), 1, r);
  }

  // ---- drafts capped at what is left ----

  /** x is all there is, and it fits. */
  ghost predicate Alone(m: Model, cfg: Config, s: State, x: SeqId) {
    && Inv(m, cfg, s, {}) && !cfg.swap && cfg.budget.None? && s.swapped == [] && AllFit(s)
    && x in s.reqs && s.reqs[x].status != Finished
    && ((s.running == [x] && s.waiting == [] && s.reqs[x].status == Running) || (s.running == [] && s.waiting == [x]))
  }

  /** No draft goes beyond the request's limit. */
  ghost predicate Capped(cfg: Config, r: Request) {
    forall out: seq<Token> | |out| <= r.maxNew :: |out| + |DraftAfter(cfg, r, out)| <= r.maxNew
  }

  function DraftAfter(cfg: Config, r: Request, out: seq<Token>): seq<Token> {
    cfg.draft(r.prompt + out)
  }

  /** What one step makes of a lone request: at least one more token, and all over if that finished it. */
  ghost predicate Grown(m: Model, cfg: Config, s: State, t: State, x: SeqId) {
    && x in s.reqs && x in t.reqs && SameRequest(s.reqs[x], t.reqs[x])
    && |t.reqs[x].output| > |s.reqs[x].output|
    && (if t.reqs[x].status == Finished then !HasUnfinished(t) else Alone(m, cfg, t, x))
  }

  /** Before retiring: x has grown and is still on the device. */
  ghost predicate GrownHere(m: Model, cfg: Config, s: State, t: State, x: SeqId) {
    && Inv(m, cfg, t, {}) && x in s.reqs && x in t.reqs && SameRequest(s.reqs[x], t.reqs[x])
    && |t.reqs[x].output| > |s.reqs[x].output| && t.reqs[x].status in {Running, Finished}
    && t.running == [x] && t.waiting == [] && t.swapped == []
    && t.cache.blockSize == s.cache.blockSize && |t.cache.refs| == |s.cache.refs|
  }

  lemma RetireLone(m: Model, cfg: Config, s: State, t: State, x: SeqId)
    requires Alone(m, cfg, s, x) && GrownHere(m, cfg, s, t, x)
    ensures Grown(m, cfg, s, Retire(m, cfg, t), x)
  {
    hide Inv, Retire, BlocksFor;
    assert Live(s, x);
    if t.reqs[x].status == Finished {
      NobodyIn(Retire(m, cfg, t).running);
    } else {
      RetireNobody(m, cfg, t);
    }
  }

  lemma LoneAdmitted(m: Model, cfg: Config, s: State, x: SeqId)
    requires Alone(m, cfg, s, x) && s.running == []
    ensures Step(m, cfg, s).ok && Grown(m, cfg, s, Step(m, cfg, s).state, x)
  {
    hide Inv, AdmitOne, Retire, DecodeWork, Next, BlocksFor;
    IdleFree(m, cfg, s);
    ListFacts(m, cfg, s);
    assert Live(s, x);
    AvailableFits(m, cfg, s);
    AdmitOneKeeps(m, cfg, s);
    AdmitOneFrame(m, cfg, s);
    AdmittedToken(m, cfg, s);
    WaitingHead(m, cfg, s);
    var t := AdmitOne(m, cfg, s).0;
    assert t.running == [x] && t.waiting == [] && [] + [x] == [x];
    assert Admit(m, cfg, t, [x]) == (t, [x]);
    assert Admit(m, cfg, s, []) == (t, [x]);
    NothingToDecode(m, cfg, t, [x]);
    RetireLone(m, cfg, s, t, x);
  }

  lemma LoneRuns(m: Model, cfg: Config, s: State, x: SeqId)
    requires Alone(m, cfg, s, x) && s.running == [x] && s.waiting == [] && Capped(cfg, s.reqs[x])
    ensures Step(m, cfg, s).ok && Grown(m, cfg, s, Step(m, cfg, s).state, x)
  {
    hide Inv, Retire, DecodeWork, Capped, AllFit;
    ListFacts(m, cfg, s);
    assert x in s.running;
    assert Admit(m, cfg, s, []) == (s, []);
    LoneDecodes(m, cfg, s, x);
    RetireLone(m, cfg, s, DecodeWork(m, cfg, s, []).0, x);
  }

  lemma LoneDecodes(m: Model, cfg: Config, s: State, x: SeqId)
    requires Alone(m, cfg, s, x) && s.running == [x] && s.waiting == [] && s.reqs[x].status == Running && Capped(cfg, s.reqs[x])
    ensures GrownHere(m, cfg, s, DecodeWork(m, cfg, s, []).0, x)
  {
    hide Inv, Next, BlocksFor, Speculate, DecodeActive, Capped, AllFit;
    ListFacts(m, cfg, s);
    ActiveOfIsActive(m, cfg, s, []);
    assert [x][..0] == [];
    assert ActiveOf(s.reqs, [], []) == [];
    assert ActiveOf(s.reqs, [x], []) == [x];
    assert [x][1..] == [] && [] + [x] == [x];
    var draft := DraftFor(cfg, s.reqs[x]);
    if draft != [] {
      LoneSpeculates(m, cfg, s, x);
      var after := Speculate(m, cfg, s, x, draft).0;
      assert SpeculateActive(m, cfg, after, [], [x], []) == (after, [x], []);
    } else {
      assert SpeculateActive(m, cfg, s, [], [], [x]) == (s, [], [x]);
      StartRetrying(m, cfg, s, [x]);
      LoneRegular(m, cfg, s, x);
    }
  }

  lemma LoneSpeculates(m: Model, cfg: Config, s: State, x: SeqId)
    requires Alone(m, cfg, s, x) && s.running == [x] && s.waiting == [] && s.reqs[x].status == Running && Capped(cfg, s.reqs[x])
    requires DraftFor(cfg, s.reqs[x]) != []
    ensures x in s.running && Speculate(m, cfg, s, x, DraftFor(cfg, s.reqs[x])).1
    ensures GrownHere(m, cfg, s, Speculate(m, cfg, s, x, DraftFor(cfg, s.reqs[x])).0, x)
  {
    hide Inv, Next, BlocksFor, Speculate, Greedy;
    var r, draft := s.reqs[x], DraftFor(cfg, s.reqs[x]);
    WithinLimit(m, cfg, s, x);
    assert draft == DraftAfter(cfg, r, r.output);
    CappedDraftFits(m, cfg, s, x, draft);
    SpeculateKeeps(m, cfg, s, x, draft);
    SpeculateSizes(m, cfg, s, x, draft);
    SpeculateSame(m, cfg, s, x, draft);
  }

  lemma WithinLimit(m: Model, cfg: Config, s: State, x: SeqId)
    requires Inv(m, cfg, s, {}) && AllFit(s) && x in s.running && x in s.reqs && s.reqs[x].status == Running
    ensures |s.reqs[x].output| <= s.reqs[x].maxNew
  {
    hide CacheOk, AllResident, AllSaved, OnePrefilling, Listed;
    assert Live(s, x) && OnTrack(m, s.reqs[x]) && !StopsAt(m, s.reqs[x], |s.reqs[x].output|);
  }

  lemma SpeculateSame(m: Model, cfg: Config, s: State, x: SeqId, draft: seq<Token>)
    requires Inv(m, cfg, s, {}) && x in s.running && x in s.reqs && s.reqs[x].status == Running
    ensures var t := Speculate(m, cfg, s, x, draft).0; x in t.reqs && SameRequest(s.reqs[x], t.reqs[x])
  {
    hide Inv, ContinuePrefill, Accepted, MatchedFrom, FreeSequence, SwapOut, AppendUntilDone, Rollback;
    RunningFacts(m, cfg, s, x, {});
    var r := s.reqs[x];
    forall tokens: seq<Token> ensures SameRequest(r, AppendUntilDone(r, tokens).0) { AppendsOnly(r, tokens); }
  }

  lemma {:induction false} AppendsOnly(r: Request, tokens: seq<Token>)
    ensures SameRequest(r, AppendUntilDone(r, tokens).0)
    decreases |tokens|
  {
    if tokens != [] { AppendsOnly(AppendToken(r, tokens[0]), tokens[1..]); }
  }

  lemma LoneRegular(m: Model, cfg: Config, s: State, x: SeqId)
    requires Alone(m, cfg, s, x) && s.running == [x] && s.waiting == [] && s.reqs[x].status == Running && Retrying(m, cfg, s, [x])
    ensures DecodeActive(m, cfg, s, [x]).1 == [x] && GrownHere(m, cfg, s, DecodeActive(m, cfg, s, [x]).0, x)
  {
    hide Inv, Retrying, DecodeOnce, Preempt, NextOf, BlocksFor;
    LoneHasRoom(m, cfg, s, x);
    DecodesIff(m, cfg, s, [x]);
    DecodeOnceKeeps(m, cfg, s, [x]);
    DecodeOnceFrame(m, cfg, s, [x]);
    var ids := [x];
    assert ids[0] == x;
    var t := DecodeOnce(m, cfg, s, ids).0;
    assert t.reqs[x] == AppendToken(s.reqs[x], NextOf(m, s.reqs[x]));
  }

  lemma LoneHasRoom(m: Model, cfg: Config, s: State, x: SeqId)
    requires Alone(m, cfg, s, x) && s.running == [x] && s.reqs[x].status == Running
    ensures Needy(s.cache, [x]) <= |s.cache.free|
  {
    hide Inv, BlocksFor, Sound;
    OnlyResident(m, cfg, s, x);
    AloneBlocks(s.cache, x);
    RunningNeed(m, cfg, s, x, {});
    assert [x][..0] == [];
    assert Needy(s.cache, []) == 0;
  }

  /** With drafts capped at what is left to generate, a lone request that fits completes within as many
      steps as it may generate tokens, speculation or not. */
  lemma {:induction false} LoneCompletes(m: Model, cfg: Config, s: State, x: SeqId, n: nat)
    requires Alone(m, cfg, s, x) && Capped(cfg, s.reqs[x]) && n >= Left(s.reqs[x])
    ensures Inv(m, cfg, s, {})
    ensures var (t, ok) := RunToCompletion(m, cfg, s, n); ok && !HasUnfinished(t) && Served(m, s, t, x)
    decreases n
  {
    hide Inv, Step, Capped, AllFit, Reference, BlocksFor;
    if s.running == [] { LoneAdmitted(m, cfg, s, x); } else { LoneRuns(m, cfg, s, x); }
    LoneLeft(m, cfg, s, x);
    var next := Step(m, cfg, s).state;
    StaysOnTrack(m, cfg, s, next, x);
    if next.reqs[x].status == Finished {
      assert RunToCompletion(m, cfg, next, n - 1) == (next, true);
    } else {
      LoneLeft(m, cfg, next, x);
      SameCap(cfg, s.reqs[x], next.reqs[x]);
      LoneCompletes(m, cfg, next, x, n - 1);
    }
  }

  lemma LoneLeft(m: Model, cfg: Config, s: State, x: SeqId)
    requires Alone(m, cfg, s, x)
    ensures Left(s.reqs[x]) > 0 && HasUnfinished(s)
  {
    hide CacheOk, AllResident, AllSaved, OnePrefilling, Listed;
    assert Live(s, x) && OnTrack(m, s.reqs[x]) && !StopsAt(m, s.reqs[x], |s.reqs[x].output|);
  }

  lemma SameCap(cfg: Config, r: Request, t: Request)
    requires Capped(cfg, r) && SameRequest(r, t)
    ensures Capped(cfg, t)
  {
    forall out: seq<Token> | |out| <= t.maxNew ensures |out| + |DraftAfter(cfg, t, out)| <= t.maxNew {
      assert DraftAfter(cfg, t, out) == DraftAfter(cfg, r, out);
    }
  }

  /** The reference does not change, and a finished request has all of it. */
  lemma StaysOnTrack(m: Model, cfg: Config, s: State, t: State, x: SeqId)
    requires Inv(m, cfg, s, {}) && Inv(m, cfg, t, {}) && x in s.reqs && x in t.reqs && SameRequest(s.reqs[x], t.reqs[x])
    ensures s.reqs[x].prompt != [] && t.reqs[x].prompt != [] && Reference(m, t.reqs[x]) == Reference(m, s.reqs[x])
    ensures t.reqs[x].status == Finished ==> t.reqs[x].output == Reference(m, t.reqs[x])
  {
    hide CacheOk, AllResident, AllSaved, OnePrefilling, Listed;
    assert OnTrack(m, s.reqs[x]) && OnTrack(m, t.reqs[x]);
    OnTrackIsReference(m, t.reqs[x]);
    SameStopLength(m, s.reqs[x], t.reqs[x], 1);
  }
}
