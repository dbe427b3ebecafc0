/** What a step and a run hand back: a step exactly the requests that gained a token, a run each
    request that finished during it, once. */
module StepReturns {
  import opened LanguageModel
  import opened Options
  import opened PagedKvCache
  import opened CacheInvariant
  import opened ModelRunner
  import opened Requests
  import opened SchedulerState
  import opened SchedulerSteps
  import opened SchedulerDecode
  import opened Speculation
  import opened SchedulerModel
  import opened SwapProgress
  import opened AdmissionSlack
  import opened RetryLoop
  import opened Departed

  /** An unfinished request that got at least one token. */
  predicate Grew(r: Request, t: Request) {
    r.status != Finished && r.output <= t.output && |r.output| < |t.output|
  }

  /** A request that got none: its output is the same, or gone if it may have been evicted, and it
      is finished only if it was. */
  predicate Waited(r: Request, t: Request, touched: bool) {
    && (t.output == r.output || (touched && t.output == []))
    && (t.status == Finished <==> r.status == Finished)
  }

  /** From reqs to after exactly the reported requests grew, and only touched ones may be evicted. */
  ghost predicate Reported(reqs: map<SeqId, Request>, after: map<SeqId, Request>, ids: seq<SeqId>, touched: set<SeqId>) {
    && after.Keys == reqs.Keys && NoDup(ids)
    && (forall x | x in ids :: x in reqs && x in touched)
    && (forall x | x in reqs :: if x in ids then Grew(reqs[x], after[x]) else Waited(reqs[x], after[x], x in touched))
  }

  lemma ReportedTwice(a: map<SeqId, Request>, b: map<SeqId, Request>, c: map<SeqId, Request>,
                      ids: seq<SeqId>, touched: set<SeqId>, more: seq<SeqId>, others: set<SeqId>)
    requires Reported(a, b, ids, touched) && Reported(b, c, more, others) && touched !! others
    ensures Reported(a, c, ids + more, touched + others)
  {
    var all := ids + more;
    assert forall x :: x in all <==> x in ids || x in more;
    forall i, j | 0 <= i < j < |all| ensures all[i] != all[j] {
      if i < |ids| && |ids| <= j {
        assert ids[i] in ids && more[j - |ids|] in more;
      }
    }
    forall x | x in a
      ensures if x in all then Grew(a[x], c[x]) else Waited(a[x], c[x], x in touched + others)
    {
      assert x in b.Keys;
    }
  }

  lemma NobodyReported(reqs: map<SeqId, Request>, after: map<SeqId, Request>)
    requires after.Keys == reqs.Keys && forall x | x in reqs :: Waited(reqs[x], after[x], false)
    ensures Reported(reqs, after, [], {})
  {
  }

  lemma NobodyTwice(a: map<SeqId, Request>, b: map<SeqId, Request>, c: map<SeqId, Request>)
    requires Reported(a, b, [], {}) && Reported(b, c, [], {})
    ensures Reported(a, c, [], {})
  {
    forall x | x in a ensures Waited(a[x], c[x], false) {
      assert x in b.Keys;
    }
  }

  /** One request touched, and reported or not. */
  lemma OneReported(reqs: map<SeqId, Request>, after: map<SeqId, Request>, id: SeqId, grew: bool)
    requires id in reqs && id in after && after == reqs[id := after[id]]
    requires if grew then Grew(reqs[id], after[id]) else Waited(reqs[id], after[id], true)
    ensures Reported(reqs, after, if grew then [id] else [], {id})
  {
  }

  // ---- swap-in and prefill work ----

  lemma {:induction false} TrySwapInReports(m: Model, cfg: Config, s: State)
    requires Inv(m, cfg, s, {})
    ensures Reported(s.reqs, TrySwapIn(m, cfg, s).reqs, [], {})
    decreases |s.swapped|
  {
    hide Inv, Reported, PledgedBlocks;
    if s.swapped == [] || SwappedNeed(m, cfg, s) > Available(m, cfg, s) {
      NobodyReported(s.reqs, s.reqs);
    } else {
      AvailableFits(m, cfg, s);
      SwapInOneKeeps(m, cfg, s);
      SwapInOneReports(m, cfg, s);
      var next := SwapInOne(m, cfg, s);
      TrySwapInReports(m, cfg, next);
      NobodyTwice(s.reqs, next.reqs, TrySwapIn(m, cfg, next).reqs);
    }
  }

  lemma SwapInOneReports(m: Model, cfg: Config, s: State)
    requires Inv(m, cfg, s, {}) && s.swapped != []
    ensures Reported(s.reqs, SwapInOne(m, cfg, s).reqs, [], {})
  {
    hide CacheOk, AllOnTrack, AllResident, AllSaved, OnePrefilling;
    ListFacts(m, cfg, s);
    var id := s.swapped[0];
    assert id in s.swapped;
    hide Inv;
    NobodyReported(s.reqs, SwapInOne(m, cfg, s).reqs);
  }

  /** Whoever a prefill reports had no output before it. */
  ghost predicate PrefillReported(s: State, t: State, ids: seq<SeqId>) {
    && Reported(s.reqs, t.reqs, ids, Ids(ids))
    && (forall x | x in ids && x in s.reqs :: s.reqs[x].output == [])
  }

  lemma PrefillReportedNobody(s: State, t: State)
    requires t.reqs.Keys == s.reqs.Keys && forall x | x in s.reqs :: Waited(s.reqs[x], t.reqs[x], false)
    ensures PrefillReported(s, t, [])
  {
  }

  lemma PrefillReportedTwice(s: State, t: State, u: State, ids: seq<SeqId>, more: seq<SeqId>)
    requires PrefillReported(s, t, ids) && PrefillReported(t, u, more)
    ensures PrefillReported(s, u, ids + more)
  {
    forall x | x in Ids(ids) ensures x !in Ids(more) {
      assert x in s.reqs && Grew(s.reqs[x], t.reqs[x]);
      assert x in t.reqs.Keys;
    }
    ReportedTwice(s.reqs, t.reqs, u.reqs, ids, Ids(ids), more, Ids(more));
    assert Ids(ids + more) == Ids(ids) + Ids(more);
    forall x | x in ids + more && x in s.reqs ensures s.reqs[x].output == [] {
      if x !in ids { assert Waited(s.reqs[x], t.reqs[x], false); }
    }
  }

  /** A completed prefill: the first token. */
  lemma FirstTokenReported(s: State, t: State, id: SeqId, token: Token)
    requires id in s.reqs && s.reqs[id].output == [] && s.reqs[id].status != Finished
    requires t.reqs == s.reqs[id := FirstToken(s.reqs[id], token)]
    ensures PrefillReported(s, t, [id])
  {
    OneReported(s.reqs, t.reqs, id, true);
    assert Ids([id]) == {id};
  }

  lemma {:induction false} AdmitReports(m: Model, cfg: Config, s: State, admitted: seq<SeqId>)
    requires Inv(m, cfg, s, {}) && cfg.budget.None?
    ensures var (t, who) := Admit(m, cfg, s, admitted);
            admitted <= who && PrefillReported(s, t, who[|admitted|..])
    decreases |s.waiting|
  {
    hide Inv, PrefillReported, AdmitOne, FirstToken, PledgedBlocks;
    if s.waiting == [] || WaitingNeed(m, cfg, s) > Available(m, cfg, s) {
      PrefillReportedNobody(s, s);
      assert admitted[|admitted|..] == [];
    } else {
      AvailableFits(m, cfg, s);
      AdmitOneKeeps(m, cfg, s);
      WaitingHead(m, cfg, s);
      AdmitOneFrame(m, cfg, s);
      var id, mid := s.waiting[0], AdmitOne(m, cfg, s).0;
      var token :| mid.reqs[id] == FirstToken(s.reqs[id], token);
      FirstTokenReported(s, mid, id, token);
      AdmitReports(m, cfg, mid, admitted + [id]);
      var (t, who) := Admit(m, cfg, mid, admitted + [id]);
      PrefillReportedTwice(s, mid, t, [id], who[|admitted| + 1..]);
      assert who[|admitted|..] == [id] + who[|admitted| + 1..];
    }
  }

  /** One chunk: a prompt reports when it is complete. */
  lemma ChunkReports(m: Model, cfg: Config, s: State, id: SeqId, budget: nat)
    requires Inv(m, cfg, s, {}) && id in s.running && id in s.reqs && s.reqs[id].status == Prefilling
    ensures var out := PrefillChunk(m, cfg, s, id, budget);
            PrefillReported(s, out.state, if out.done then [id] else []) && (!out.ok ==> !out.done)
  {
    hide Inv, PrefillChunk, PrefillReported, Next, FirstToken;
    PrefillChunkKeeps(m, cfg, s, id, budget);
    PrefillingFacts(m, cfg, s, id);
    var out := PrefillChunk(m, cfg, s, id, budget);
    if out.done {
      FirstTokenReported(s, out.state, id, Next(m, s.reqs[id].prompt));
    } else {
      PrefillReportedNobody(s, out.state);
    }
  }

  lemma {:induction false} InFlightReports(m: Model, cfg: Config, s: State, ids: seq<SeqId>, budget: nat, completed: seq<SeqId>)
    requires Inv(m, cfg, s, {}) && InFlight(s, ids, budget)
    ensures var w := ContinueInFlight(m, cfg, s, ids, budget, completed);
            completed <= w.completed && PrefillReported(s, w.state, w.completed[|completed|..])
    decreases |ids|
  {
    hide Inv, InFlight, PrefillChunk, PrefillReported, ChunkOutcome;
    assert completed[|completed|..] == [];
    if ids == [] || budget == 0 {
      PrefillReportedNobody(s, s);
    } else {
      InFlightHead(m, cfg, s, ids, budget);
      ChunkReports(m, cfg, s, ids[0], budget);
      var out := PrefillChunk(m, cfg, s, ids[0], budget);
      if out.ok {
        var one := if out.done then [ids[0]] else [];
        assert completed + [] == completed;
        InFlightReports(m, cfg, out.state, ids[1..], out.budget, completed + one);
        var w := ContinueInFlight(m, cfg, out.state, ids[1..], out.budget, completed + one);
        PrefillReportedTwice(s, out.state, w.state, one, w.completed[|completed + one|..]);
        assert w.completed[|completed|..] == one + w.completed[|completed + one|..];
      }
    }
  }

  lemma {:induction false} AdmitChunkedReports(m: Model, cfg: Config, s: State, budget: nat, completed: seq<SeqId>)
    requires Inv(m, cfg, s, {}) && cfg.budget.Some? && (budget > 0 ==> NonePrefilling(s))
    ensures var w := AdmitChunked(m, cfg, s, budget, completed);
            completed <= w.completed && PrefillReported(s, w.state, w.completed[|completed|..])
    decreases |s.waiting|
  {
    hide Inv, PrefillChunk, PrefillReported, ChunkOutcome, StartChunked, NonePrefilling, PledgedBlocks;
    if s.waiting == [] || budget == 0 || WaitingNeed(m, cfg, s) > Available(m, cfg, s) {
      PrefillReportedNobody(s, s);
      assert completed[|completed|..] == [];
    } else {
      AdmitChunkedHead(m, cfg, s, budget);
      StartedChunkReports(m, cfg, s, budget);
      var id, started := s.waiting[0], StartChunked(m, cfg, s);
      var out := PrefillChunk(m, cfg, started, id, budget);
      var one := if out.done then [id] else [];
      var more := if out.done then completed + [id] else completed;
      if out.ok {
        AdmitChunkedReports(m, cfg, out.state, out.budget, more);
        var w := AdmitChunked(m, cfg, out.state, out.budget, more);
        PrefillReportedTwice(s, out.state, w.state, one, w.completed[|more|..]);
        assert w.completed[|completed|..] == one + w.completed[|more|..];
      } else {
        assert completed[|completed|..] == [];
      }
    }
  }

  lemma StartedChunkReports(m: Model, cfg: Config, s: State, budget: nat)
    requires Inv(m, cfg, s, {}) && cfg.budget.Some? && budget > 0 && NonePrefilling(s) && s.waiting != []
    requires var id, started := s.waiting[0], StartChunked(m, cfg, s);
             Inv(m, cfg, started, {}) && id in started.running && id in started.reqs && started.reqs[id].status == Prefilling
    ensures var id := s.waiting[0];
            var out := PrefillChunk(m, cfg, StartChunked(m, cfg, s), id, budget);
            PrefillReported(s, out.state, if out.done then [id] else []) && (!out.ok ==> !out.done)
  {
    hide Inv, PrefillChunk, PrefillReported, StartChunked, NonePrefilling;
    var id, started := s.waiting[0], StartChunked(m, cfg, s);
    StartReports(m, cfg, s);
    ChunkReports(m, cfg, started, id, budget);
    var out := PrefillChunk(m, cfg, started, id, budget);
    var one := if out.done then [id] else [];
    PrefillReportedTwice(s, started, out.state, [], one);
    assert [] + one == one;
  }

  lemma StartReports(m: Model, cfg: Config, s: State)
    requires Inv(m, cfg, s, {}) && s.waiting != []
    ensures PrefillReported(s, StartChunked(m, cfg, s), [])
  {
    hide Inv, PrefillReported;
    WaitingHead(m, cfg, s);
    PrefillReportedNobody(s, StartChunked(m, cfg, s));
  }

  /** Raising or not, the prefill work reports exactly the prompts that got their first token. */
  lemma PrefillWorkReports(m: Model, cfg: Config, s: State)
    requires Inv(m, cfg, s, {})
    ensures PrefillReported(s, PrefillWork(m, cfg, s).state, PrefillWork(m, cfg, s).completed)
  {
    hide Inv, PrefillReported, Admit, ContinueInFlight, AdmitChunked, WithStatus;
    ListFacts(m, cfg, s);
    if cfg.budget.None? {
      AdmitReports(m, cfg, s, []);
    } else {
      var ids := WithStatus(s.reqs, s.running, Prefilling);
      RunningDistinctIds(m, cfg, s);
      InFlightReports(m, cfg, s, ids, cfg.budget.value, []);
      var w := ContinueInFlight(m, cfg, s, ids, cfg.budget.value, []);
      if w.ok {
        AdmitChunkedReports(m, cfg, w.state, w.budget, w.completed);
        var v := AdmitChunked(m, cfg, w.state, w.budget, w.completed);
        PrefillReportedTwice(s, w.state, v.state, w.completed, v.completed[|w.completed|..]);
        assert v.completed == w.completed + v.completed[|w.completed|..];
      }
    }
  }

  // ---- decode work ----

  lemma SpeculateReports(m: Model, cfg: Config, s: State, id: SeqId, draft: seq<Token>)
    requires Inv(m, cfg, s, {}) && id in s.running && id in s.reqs && s.reqs[id].status == Running && cfg.speculate
    ensures var (t, ok) := Speculate(m, cfg, s, id, draft);
            Reported(s.reqs, t.reqs, if ok then [id] else [], {id})
  {
    hide Inv, Speculate, Greedy, Reported;
    SpeculateKeeps(m, cfg, s, id, draft);
    OneReported(s.reqs, Speculate(m, cfg, s, id, draft).0.reqs, id, Speculate(m, cfg, s, id, draft).1);
  }

  /** The part of the active requests that speculation neither reported nor left to the batch is
      touched, and so are the reported ones. */
  ghost predicate Sorted(s: State, t: State, active: seq<SeqId>, done: seq<SeqId>, regular: seq<SeqId>) {
    && Ids(regular) <= Ids(active)
    && Reported(s.reqs, t.reqs, done, Ids(active) - Ids(regular))
  }

  lemma {:induction false} SpeculateActiveReports(m: Model, cfg: Config, s: State, active: seq<SeqId>, done: seq<SeqId>, regular: seq<SeqId>)
    requires Inv(m, cfg, s, {}) && Active(s, regular + active)
    ensures var (t, all, rest) := SpeculateActive(m, cfg, s, active, done, regular);
            done <= all && regular <= rest && Sorted(s, t, active, all[|done|..], rest[|regular|..])
    decreases |active|
  {
    hide Inv, Speculate, Reported, Sorted;
    if active == [] {
      NobodySorted(s);
      assert done[|done|..] == [] && regular[|regular|..] == [];
    } else {
      var id := active[0];
      ActiveHead(m, cfg, s, active, regular);
      ActiveTail(s, active, regular);
      var draft := DraftFor(cfg, s.reqs[id]);
      if draft != [] {
        SpeculateHead(m, cfg, s, active, regular, draft);
        SpeculateReports(m, cfg, s, id, draft);
        var (after, ok) := Speculate(m, cfg, s, id, draft);
        var one := if ok then [id] else [];
        assert done + [] == done;
        hide Active;
        SpeculateActiveReports(m, cfg, after, active[1..], done + one, regular);
        var (t, all, rest) := SpeculateActive(m, cfg, after, active[1..], done + one, regular);
        SortedTouched(s, after, t, active, one, all[|done + one|..], rest[|regular|..]);
        assert all[|done|..] == one + all[|done + one|..];
      } else {
        assert (regular + [id]) + active[1..] == regular + active;
        hide Active;
        SpeculateActiveReports(m, cfg, s, active[1..], done, regular + [id]);
        var (t, all, rest) := SpeculateActive(m, cfg, s, active[1..], done, regular + [id]);
        assert rest[|regular|..] == [id] + rest[|regular| + 1..];
        SortedRegular(s, t, active, all[|done|..], rest[|regular| + 1..]);
      }
    }
  }

  lemma NobodySorted(s: State)
    ensures Sorted(s, s, [], [], [])
  {
    NobodyReported(s.reqs, s.reqs);
    assert Ids([]) - Ids([]) == {};
  }

  lemma ActiveTail(s: State, active: seq<SeqId>, regular: seq<SeqId>)
    requires Active(s, regular + active) && active != []
    ensures active[0] !in active[1..]
  {
    var rows := regular + active;
    forall i | 0 <= i < |active| - 1 ensures active[1..][i] != active[0] {
      assert rows[|regular|] == active[0] && rows[|regular| + 1 + i] == active[1..][i];
    }
  }

  lemma SortedTouched(s: State, after: State, t: State, active: seq<SeqId>, one: seq<SeqId>, done: seq<SeqId>, regular: seq<SeqId>)
    requires active != [] && active[0] !in active[1..] && Reported(s.reqs, after.reqs, one, {active[0]})
    requires Sorted(after, t, active[1..], done, regular)
    ensures Sorted(s, t, active, one + done, regular)
  {
    hide Reported;
    IdsHead(active);
    ReportedTwice(s.reqs, after.reqs, t.reqs, one, {active[0]}, done, Ids(active[1..]) - Ids(regular));
    assert {active[0]} + (Ids(active[1..]) - Ids(regular)) == Ids(active) - Ids(regular);
  }

  lemma SortedRegular(s: State, t: State, active: seq<SeqId>, done: seq<SeqId>, regular: seq<SeqId>)
    requires active != [] && active[0] !in active[1..] && Sorted(s, t, active[1..], done, regular)
    ensures Sorted(s, t, active, done, [active[0]] + regular)
  {
    hide Reported;
    IdsHead(active);
    var rows := [active[0]] + regular;
    assert rows[1..] == regular;
    IdsHead(rows);
    assert Ids(active) - Ids(rows) == Ids(active[1..]) - Ids(regular);
  }

  lemma IdsHead(ids: seq<SeqId>)
    requires ids != []
    ensures Ids(ids) == {ids[0]} + Ids(ids[1..])
  {
    assert ids == [ids[0]] + ids[1..];
  }

  lemma DecodeActiveReports(m: Model, cfg: Config, s: State, ids: seq<SeqId>)
    requires Retrying(m, cfg, s, ids)
    ensures var (t, left) := DecodeActive(m, cfg, s, ids);
            Reported(s.reqs, t.reqs, left, Ids(ids))
  {
    hide Inv, Retrying, DecodeActive, NextOf, DecodeOnce, VictimsTight;
    DecodeActiveRetries(m, cfg, s, ids);
    BatchDistinct(m, cfg, s, ids);
    var (t, left) := DecodeActive(m, cfg, s, ids);
    forall x | x in s.reqs
      ensures if x in left then Grew(s.reqs[x], t.reqs[x]) else Waited(s.reqs[x], t.reqs[x], x in Ids(ids))
    {
      if x in ids {
        var i :| 0 <= i < |ids| && ids[i] == x;
        assert x in left <==> i < |left|;
      } else {
        assert x !in left;
      }
    }
  }

  /** The decode part reports exactly who gained a token, out of those not just prefilled. */
  lemma DecodeWorkReports(m: Model, cfg: Config, s: State, completed: seq<SeqId>)
    requires Inv(m, cfg, s, {}) && forall i | 0 <= i < |s.running| :: s.running[i] in s.reqs
    ensures var (t, updated) := DecodeWork(m, cfg, s, completed);
            Reported(s.reqs, t.reqs, updated, Ids(ActiveOf(s.reqs, s.running, completed)))
  {
    hide Inv, DecodeActive, SpeculateActive, ActiveOf, Retrying, Reported;
    ActiveOfIsActive(m, cfg, s, completed);
    var active := ActiveOf(s.reqs, s.running, completed);
    assert [] + active == active;
    SpeculateActiveReports(m, cfg, s, active, [], []);
    var (verified, done, regular) := SpeculateActive(m, cfg, s, active, [], []);
    if regular == [] {
      assert Ids(active) - Ids(regular) == Ids(active);
    } else {
      StartRetrying(m, cfg, verified, regular);
      DecodeActiveReports(m, cfg, verified, regular);
      var (t, left) := DecodeActive(m, cfg, verified, regular);
      ReportedTwice(s.reqs, verified.reqs, t.reqs, done, Ids(active) - Ids(regular), left, Ids(regular));
      assert (Ids(active) - Ids(regular)) + Ids(regular) == Ids(active);
    }
  }

  // ---- a step ----

  /** The requests a step worked on, each at most once. */
  ghost predicate StepReported(s: State, t: State, ids: seq<SeqId>) {
    exists touched :: Reported(s.reqs, t.reqs, ids, touched)
  }

  lemma StepReports(m: Model, cfg: Config, s: State)
    requires Inv(m, cfg, s, {})
    ensures Step(m, cfg, s).ok ==> StepReported(s, Step(m, cfg, s).state, Step(m, cfg, s).updated)
    ensures !Step(m, cfg, s).ok ==>
              StepReported(s, Step(m, cfg, s).state, PrefillWork(m, cfg, TrySwapIn(m, cfg, s)).completed)
  {
    hide Inv, TrySwapIn, PrefillWork, DecodeWork, Retire, Reported, ActiveOf;
    var s1 := TrySwapIn(m, cfg, s);
    TrySwapInReports(m, cfg, s);
    var w := PrefillWork(m, cfg, s1);
    PrefillWorkReports(m, cfg, s1);
    ReportedTwice(s.reqs, s1.reqs, w.state.reqs, [], {}, w.completed, Ids(w.completed));
    assert [] + w.completed == w.completed;
    if w.ok {
      ListFacts(m, cfg, w.state);
      DecodeWorkReports(m, cfg, w.state, w.completed);
      var (t, updated) := DecodeWork(m, cfg, w.state, w.completed);
      var active := Ids(ActiveOf(w.state.reqs, w.state.running, w.completed));
      ReportedTwice(s.reqs, w.state.reqs, t.reqs, w.completed, {} + Ids(w.completed), updated, active);
    }
  }

  /** A completed step returns exactly the requests that have more output than before it, each once;
      their output is extended, and everybody else's is the same or was dropped by an eviction. */
  lemma StepReturnsGrown(m: Model, cfg: Config, s: State)
    requires Inv(m, cfg, s, {}) && Step(m, cfg, s).ok
    ensures var (t, updated) := (Step(m, cfg, s).state, Step(m, cfg, s).updated);
            && t.reqs.Keys == s.reqs.Keys && NoDup(updated)
            && (forall x :: x in updated <==> x in s.reqs && |t.reqs[x].output| > |s.reqs[x].output|)
            && (forall x | x in s.reqs :: s.reqs[x].output <= t.reqs[x].output || t.reqs[x].output == [])
            && (forall x | x in s.reqs && x !in updated :: t.reqs[x].status == Finished <==> s.reqs[x].status == Finished)
  {
    hide Inv, Step;
    StepReports(m, cfg, s);
  }

  // ---- a run ----

  /** What `run_to_completion` returns: step by step, whoever gained a token and is finished. */
  function Returned(m: Model, cfg: Config, s: State, n: nat): (r: seq<SeqId>)
    requires Inv(m, cfg, s, {})
    decreases n
  {
    if n == 0 || !HasUnfinished(s) || !Step(m, cfg, s).ok then []
    else
      var out := Step(m, cfg, s);
      UpdatedKnown(m, cfg, s);
      WithStatus(out.state.reqs, out.updated, Finished) + Returned(m, cfg, out.state, n - 1)
  }

  lemma UpdatedKnown(m: Model, cfg: Config, s: State)
    requires Inv(m, cfg, s, {}) && Step(m, cfg, s).ok
    ensures var out := Step(m, cfg, s);
            forall i | 0 <= i < |out.updated| :: out.updated[i] in out.state.reqs
  {
    hide Inv, Step;
    StepReturnsGrown(m, cfg, s);
    var out := Step(m, cfg, s);
    forall i | 0 <= i < |out.updated| ensures out.updated[i] in out.state.reqs {
      var x := out.updated[i];
      assert x in out.updated;
    }
  }

  /** Not finished before, finished after. */
  predicate Finishes(reqs: map<SeqId, Request>, after: map<SeqId, Request>, x: SeqId) {
    x in reqs && x in after && reqs[x].status != Finished && after[x].status == Finished
  }

  /** A step finishes exactly the returned requests that are finished; a finished one stays finished. */
  lemma StepFinishes(m: Model, cfg: Config, s: State)
    requires Inv(m, cfg, s, {})
    ensures var out := Step(m, cfg, s);
            && out.state.reqs.Keys == s.reqs.Keys
            && (forall x | x in s.reqs && s.reqs[x].status == Finished :: out.state.reqs[x].status == Finished)
            && (out.ok ==> NoDup(out.updated) && forall x :: Finishes(s.reqs, out.state.reqs, x) <==>
                  x in out.updated && x in out.state.reqs && out.state.reqs[x].status == Finished)
  {
    hide Inv, Step;
    StepReports(m, cfg, s);
  }

  /** A run returns each request that finished during it exactly once, and nobody else. */
  lemma {:induction false} RunReturnsOnce(m: Model, cfg: Config, s: State, n: nat)
    requires Inv(m, cfg, s, {})
    ensures var (t, ok) := RunToCompletion(m, cfg, s, n);
            && t.reqs.Keys == s.reqs.Keys && NoDup(Returned(m, cfg, s, n))
            && (forall x | x in s.reqs && s.reqs[x].status == Finished :: t.reqs[x].status == Finished)
            && (forall x | x in Returned(m, cfg, s, n) :: Finishes(s.reqs, t.reqs, x))
            && (ok ==> forall x | Finishes(s.reqs, t.reqs, x) :: x in Returned(m, cfg, s, n))
    decreases n
  {
    hide Inv, Step, WithStatus;
    if n > 0 && HasUnfinished(s) {
      StepFinishes(m, cfg, s);
      var out := Step(m, cfg, s);
      if out.ok {
        UpdatedKnown(m, cfg, s);
        RunReturnsOnce(m, cfg, out.state, n - 1);
        var now, later := WithStatus(out.state.reqs, out.updated, Finished), Returned(m, cfg, out.state, n - 1);
        NowAndLater(s.reqs, out.state.reqs, RunToCompletion(m, cfg, out.state, n - 1).0.reqs, now, later);
      }
    }
  }

  lemma NowAndLater(a: map<SeqId, Request>, b: map<SeqId, Request>, c: map<SeqId, Request>, now: seq<SeqId>, later: seq<SeqId>)
    requires a.Keys == b.Keys == c.Keys && NoDup(now) && NoDup(later)
    requires forall x :: x in now <==> Finishes(a, b, x)
    requires forall x | x in later :: Finishes(b, c, x)
    requires forall x | x in b && b[x].status == Finished :: c[x].status == Finished
    requires forall x | x in a && a[x].status == Finished :: b[x].status == Finished
    ensures NoDup(now + later)
    ensures forall x | x in now + later :: Finishes(a, c, x)
    ensures forall x | Finishes(a, c, x) :: x in now || Finishes(b, c, x)
  {
    var all := now + later;
    forall i, j | 0 <= i < j < |all| ensures all[i] != all[j] {
      if i < |now| && |now| <= j {
        assert all[i] in now && all[j] in later;
      }
    }
    forall x | x in all ensures Finishes(a, c, x) {
      assert x in now || x in later;
    }
  }
}
