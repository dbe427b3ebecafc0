/** The scheduler's loops and its step, as functions of its state. */
module SchedulerModel {
  import opened LanguageModel
  import opened Options
  import opened Positions
  import opened PagedKvCache
  import opened CacheInvariant
  import opened CacheOperations
  import opened SwapToHost
  import opened ModelRunner
  import opened BatchedDecode
  import opened Requests
  import opened SchedulerState
  import opened SchedulerSteps
  import opened SchedulerDecode
  import opened Speculation

  // ---- capacity ----

  /** Blocks one running request may still come to need, as admission control counts them. */
  function PledgeOf(r: Request, B: nat): nat
    requires B >= 1
  {
    var used, worst := BlocksFor(B, |r.prompt| + |r.output|), BlocksFor(B, TotalLenEstimate(r));
    if worst > used then worst - used else 0
  }

  function PledgedBlocks(reqs: map<SeqId, Request>, running: seq<SeqId>, B: nat): nat
    requires B >= 1 && forall i | 0 <= i < |running| :: running[i] in reqs
  {
    if running == [] then 0
    else PledgedBlocks(reqs, running[..|running| - 1], B) + PledgeOf(reqs[running[|running| - 1]], B)
  }

  /** The invariant's domains, by list index. */
  lemma ListFacts(m: Model, cfg: Config, s: State)
    requires Inv(m, cfg, s, {})
    ensures s.cache.blockSize >= 1 && Wf(s.cache)
    ensures forall i | 0 <= i < |s.running| :: s.running[i] in s.reqs && s.running[i] in s.cache.seqs
    ensures forall i | 0 <= i < |s.waiting| :: s.waiting[i] in s.reqs
    ensures forall i | 0 <= i < |s.swapped| :: s.swapped[i] in s.reqs && s.swapped[i] in s.cache.host
  {
    hide Faithful, HostFaithful, Resident, OnTrack, NoDup, Counted, FreeExact, SharedIndexed, TablesDistinct;
    forall i | 0 <= i < |s.running| ensures s.running[i] in s.reqs && s.running[i] in s.cache.seqs {
      var x := s.running[i];
      assert x in s.running;
    }
    forall i | 0 <= i < |s.waiting| ensures s.waiting[i] in s.reqs {
      var x := s.waiting[i];
      assert x in s.waiting;
    }
    forall i | 0 <= i < |s.swapped| ensures s.swapped[i] in s.reqs && s.swapped[i] in s.cache.host {
      var x := s.swapped[i];
      assert x in s.swapped;
    }
  }

  function Available(m: Model, cfg: Config, s: State): int
    requires Inv(m, cfg, s, {})
  {
    ListFacts(m, cfg, s);
    |s.cache.free| - PledgedBlocks(s.reqs, s.running, s.cache.blockSize)
  }

  /** Blocks the head of the swapped list needs to come back, and the head of the queue in the
      worst case. */
  function SwappedNeed(m: Model, cfg: Config, s: State): nat
    requires Inv(m, cfg, s, {}) && s.swapped != []
  {
    ListFacts(m, cfg, s);
    BlocksFor(s.cache.blockSize, s.cache.host[s.swapped[0]].len)
  }

  function WaitingNeed(m: Model, cfg: Config, s: State): nat
    requires Inv(m, cfg, s, {}) && s.waiting != []
  {
    ListFacts(m, cfg, s);
    BlocksFor(s.cache.blockSize, TotalLenEstimate(s.reqs[s.waiting[0]]))
  }

  lemma AvailableFits(m: Model, cfg: Config, s: State)
    requires Inv(m, cfg, s, {})
    ensures s.swapped != [] && SwappedNeed(m, cfg, s) <= Available(m, cfg, s) ==> HeadFits(s)
    ensures s.waiting != [] && WaitingNeed(m, cfg, s) <= Available(m, cfg, s) ==> WaitingFits(s)
  {
    hide Inv;
    ListFacts(m, cfg, s);
  }

  // ---- swap-in and admission ----

  function TrySwapIn(m: Model, cfg: Config, s: State): (r: State)
    requires Inv(m, cfg, s, {})
    ensures Inv(m, cfg, r, {})
    decreases |s.swapped|
  {
    if s.swapped == [] || SwappedNeed(m, cfg, s) > Available(m, cfg, s) then s
    else
      AvailableFits(m, cfg, s);
      SwapInOneKeeps(m, cfg, s);
      TrySwapIn(m, cfg, SwapInOne(m, cfg, s))
  }

  /** Admits from the front of the queue until the head no longer fits; also who was admitted. */
  function Admit(m: Model, cfg: Config, s: State, admitted: seq<SeqId>): (r: (State, seq<SeqId>))
    requires Inv(m, cfg, s, {}) && cfg.budget.None?
    ensures Inv(m, cfg, r.0, {})
    decreases |s.waiting|
  {
    if s.waiting == [] || WaitingNeed(m, cfg, s) > Available(m, cfg, s) then (s, admitted)
    else
      AvailableFits(m, cfg, s);
      AdmitOneKeeps(m, cfg, s);
      Admit(m, cfg, AdmitOne(m, cfg, s).0, admitted + [s.waiting[0]])
  }

  // ---- chunked prefill ----

  /** What a step's prefill work leaves: the state, the unused budget, who completed, and false for
      an out-of-memory error that leaves the step. */
  datatype Work = Work(state: State, budget: nat, completed: seq<SeqId>, ok: bool)

  function WithStatus(reqs: map<SeqId, Request>, ids: seq<SeqId>, status: Status): (r: seq<SeqId>)
    requires forall i | 0 <= i < |ids| :: ids[i] in reqs
    ensures forall x :: x in r <==> x in ids && reqs[x].status == status
    ensures NoDup(ids) ==> NoDup(r)
  {
    if ids == [] then []
    else
      var n := |ids| - 1;
      var before := WithStatus(reqs, ids[..n], status);
      assert NoDup(ids) ==> ids[n] !in ids[..n];
      assert forall x :: x in ids <==> x in ids[..n] || x == ids[n];
      if reqs[ids[n]].status == status then before + [ids[n]] else before
  }

  /** The in-flight prompts not yet continued, all of them while there is budget. */
  ghost predicate InFlight(s: State, ids: seq<SeqId>, budget: nat) {
    && NoDup(ids)
    && (forall x | x in ids :: x in s.running && x in s.reqs && s.reqs[x].status == Prefilling)
    && (budget > 0 ==> forall x | x in s.running && x in s.reqs && s.reqs[x].status == Prefilling :: x in ids)
  }

  /** Continues in-flight prompts while there is budget. */
  function ContinueInFlight(m: Model, cfg: Config, s: State, ids: seq<SeqId>, budget: nat, completed: seq<SeqId>): (r: Work)
    requires Inv(m, cfg, s, {}) && InFlight(s, ids, budget)
    ensures Inv(m, cfg, r.state, {})
    ensures r.ok && r.budget > 0 ==> NonePrefilling(r.state)
    decreases |ids|
  {
    if ids == [] || budget == 0 then Work(s, budget, completed, true)
    else
      InFlightHead(m, cfg, s, ids, budget);
      var out := PrefillChunk(m, cfg, s, ids[0], budget);
      if !out.ok then Work(out.state, budget, completed, false)
      else ContinueInFlight(m, cfg, out.state, ids[1..], out.budget, if out.done then completed + [ids[0]] else completed)
  }

  lemma InFlightHead(m: Model, cfg: Config, s: State, ids: seq<SeqId>, budget: nat)
    requires Inv(m, cfg, s, {}) && ids != [] && InFlight(s, ids, budget) && budget > 0
    ensures ids[0] in s.running && ids[0] in s.reqs && s.reqs[ids[0]].status == Prefilling
    ensures ChunkOutcome(m, cfg, s, ids[0], budget, PrefillChunk(m, cfg, s, ids[0], budget))
    ensures var out := PrefillChunk(m, cfg, s, ids[0], budget);
            Inv(m, cfg, out.state, {}) && (out.ok ==> InFlight(out.state, ids[1..], out.budget))
  {
    hide CacheOk, AllOnTrack, AllResident, AllSaved, PrefillChunk;
    assert ids[0] in ids;
    PrefillChunkKeeps(m, cfg, s, ids[0], budget);
    var out := PrefillChunk(m, cfg, s, ids[0], budget);
    assert forall x :: x in ids <==> x == ids[0] || x in ids[1..];
    assert ids[0] !in ids[1..];
    hide Inv;
    FirstTokenStatus(s.reqs[ids[0]], Next(m, s.reqs[ids[0]].prompt));
  }

  lemma FirstTokenStatus(r: Request, t: Token)
    ensures FirstToken(r, t).status in {Running, Finished}
  {
  }

  /** Admits from the front of the queue into what is left of the budget. */
  function AdmitChunked(m: Model, cfg: Config, s: State, budget: nat, completed: seq<SeqId>): (r: Work)
    requires Inv(m, cfg, s, {}) && cfg.budget.Some? && (budget > 0 ==> NonePrefilling(s))
    ensures Inv(m, cfg, r.state, {})
    decreases |s.waiting|
  {
    if s.waiting == [] || budget == 0 || WaitingNeed(m, cfg, s) > Available(m, cfg, s) then Work(s, budget, completed, true)
    else
      AdmitChunkedHead(m, cfg, s, budget);
      var id := s.waiting[0];
      var started := StartChunked(m, cfg, s);
      var out := PrefillChunk(m, cfg, started, id, budget);
      if !out.ok then Work(out.state, budget, completed, false)
      else AdmitChunked(m, cfg, out.state, out.budget, if out.done then completed + [id] else completed)
  }

  lemma AdmitChunkedHead(m: Model, cfg: Config, s: State, budget: nat)
    requires Inv(m, cfg, s, {}) && cfg.budget.Some? && budget > 0 && NonePrefilling(s) && s.waiting != []
    ensures var id, started := s.waiting[0], StartChunked(m, cfg, s);
            && Inv(m, cfg, started, {}) && id in started.running && id in started.reqs && started.reqs[id].status == Prefilling
            && var out := PrefillChunk(m, cfg, started, id, budget);
               && ChunkOutcome(m, cfg, started, id, budget, out)
               && Inv(m, cfg, out.state, {}) && out.state.waiting == s.waiting[1..]
               && (out.ok && out.budget > 0 ==> NonePrefilling(out.state))
  {
    hide CacheOk, AllOnTrack, AllResident, AllSaved, PrefillChunk, Listed, OnePrefilling;
    var id, started := s.waiting[0], StartChunked(m, cfg, s);
    StartChunkedKeeps(m, cfg, s);
    PrefillChunkKeeps(m, cfg, started, id, budget);
    hide Inv;
    FirstTokenStatus(started.reqs[id], Next(m, started.reqs[id].prompt));
  }

  /** The prefill part of a step. */
  function PrefillWork(m: Model, cfg: Config, s: State): (r: Work)
    requires Inv(m, cfg, s, {})
    ensures Inv(m, cfg, r.state, {})
  {
    ListFacts(m, cfg, s);
    if cfg.budget.None? then
      var (after, admitted) := Admit(m, cfg, s, []);
      Work(after, 0, admitted, true)
    else
      var ids := WithStatus(s.reqs, s.running, Prefilling);
      assert InFlight(s, ids, cfg.budget.value);
      var w := ContinueInFlight(m, cfg, s, ids, cfg.budget.value, []);
      if !w.ok then w else AdmitChunked(m, cfg, w.state, w.budget, w.completed)
  }

  // ---- decode ----

  /** Decodes the batch, preempting from its end until it fits; also who is left. */
  function DecodeActive(m: Model, cfg: Config, s: State, ids: seq<SeqId>): (r: (State, seq<SeqId>))
    requires Retrying(m, cfg, s, ids)
    ensures Inv(m, cfg, r.0, {})
    decreases |ids|
  {
    if ids == [] then
      NothingLeft(m, cfg, s);
      (s, [])
    else
      DecodeOnceKeeps(m, cfg, s, ids);
      var (after, ok) := DecodeOnce(m, cfg, s, ids);
      if ok then (after, ids)
      else
        RetryKeeps(m, cfg, s, ids);
        DecodeActive(m, cfg, Preempt(cfg, after, ids[|ids| - 1]), ids[..|ids| - 1])
  }

  lemma NothingLeft(m: Model, cfg: Config, s: State)
    requires Retrying(m, cfg, s, [])
    ensures Inv(m, cfg, s, {})
  {
    hide Inv;
    var j: nat :| j <= 0 && Inv(m, cfg, s, Ids([][..j]));
    assert Ids([][..j]) == {};
  }

  /** After the last request of the batch is preempted the loop is where it was, one shorter. Its
      table had no spare block, so that it can come back from the host. */
  lemma RetryKeeps(m: Model, cfg: Config, s: State, ids: seq<SeqId>)
    requires Retrying(m, cfg, s, ids) && ids != [] && !DecodeOnce(m, cfg, s, ids).1
    ensures
      var after, victim := DecodeOnce(m, cfg, s, ids).0, ids[|ids| - 1];
      && victim in after.reqs && victim in after.cache.seqs && Wf(after.cache)
      && Retrying(m, cfg, Preempt(cfg, after, victim), ids[..|ids| - 1])
      && after.cache.blockSize >= 1 && (!cfg.speculate ==> Tight(after.cache, victim))
  {
    hide CacheOk, AllOnTrack, AllResident, AllSaved, DecodeOnce, OnePrefilling, Listed;
    DecodeOnceKeeps(m, cfg, s, ids);
    var after, n := DecodeOnce(m, cfg, s, ids).0, |ids| - 1;
    var k: nat :| k < |ids| && Inv(m, cfg, after, Ids(ids[..k]));
    var victim := ids[n];
    assert victim !in ids[..k];
    CacheWf(m, after);
    RunningTight(m, cfg, after, victim, Ids(ids[..k]));
    PreemptKeeps(m, cfg, after, victim, Ids(ids[..k]));
    var next := Preempt(cfg, after, victim);
    assert ids[..n][..k] == ids[..k];
    hide Inv;
    forall i | 0 <= i < n
      ensures ids[..n][i] in next.running && ids[..n][i] in next.reqs && next.reqs[ids[..n][i]].status == Running
    {
      assert ids[i] != victim;
    }
  }

  lemma RunningTight(m: Model, cfg: Config, s: State, id: SeqId, loose: set<SeqId>)
    requires Inv(m, cfg, s, loose) && id in s.running && s.reqs[id].status == Running && id !in loose
    ensures id in s.cache.seqs && s.cache.blockSize >= 1 && (!cfg.speculate ==> Tight(s.cache, id))
  {
    hide Sound, Faithful, HostFaithful, OnTrack, PrivateFrom, BlocksFor;
    assert Resident(cfg, s.reqs[id], s.cache.seqs[id], s.cache.info, s.cache.blockSize, false);
  }

  lemma CacheWf(m: Model, s: State)
    requires CacheOk(m, s)
    ensures Wf(s.cache)
  {
  }

  /** The requests to decode: running, and without a token yet this step. */
  function ActiveOf(reqs: map<SeqId, Request>, running: seq<SeqId>, completed: seq<SeqId>): (r: seq<SeqId>)
    requires forall i | 0 <= i < |running| :: running[i] in reqs
    ensures forall x :: x in r <==> x in running && x !in completed && reqs[x].status == Running
    ensures NoDup(running) ==> NoDup(r)
  {
    if running == [] then []
    else
      var n := |running| - 1;
      var id := running[n];
      var before := ActiveOf(reqs, running[..n], completed);
      assert NoDup(running) ==> id !in running[..n];
      assert forall x :: x in running <==> x in running[..n] || x == id;
      if reqs[id].status == Running && id !in completed then before + [id] else before
  }

  /** The draft for a request; [] when speculation is off or nothing was proposed. */
  function DraftFor(cfg: Config, r: Request): seq<Token> {
    if cfg.speculate then cfg.draft(History(r)) else []
  }

  /** Speculates on the active requests that have a draft; the rest form the regular batch. */
  function SpeculateActive(m: Model, cfg: Config, s: State, active: seq<SeqId>, done: seq<SeqId>, regular: seq<SeqId>)
    : (r: (State, seq<SeqId>, seq<SeqId>))
    requires Inv(m, cfg, s, {}) && Active(s, regular + active)
    ensures Inv(m, cfg, r.0, {}) && Active(r.0, r.2)
    decreases |active|
  {
    if active == [] then
      assert regular + active == regular;
      (s, done, regular)
    else
      var id := active[0];
      ActiveHead(m, cfg, s, active, regular);
      var draft := DraftFor(cfg, s.reqs[id]);
      if draft != [] then
        SpeculateHead(m, cfg, s, active, regular, draft);
        var (after, ok) := Speculate(m, cfg, s, id, draft);
        SpeculateActive(m, cfg, after, active[1..], if ok then done + [id] else done, regular)
      else
        assert (regular + [id]) + active[1..] == regular + active;
        SpeculateActive(m, cfg, s, active[1..], done, regular + [id])
  }

  lemma ActiveHead(m: Model, cfg: Config, s: State, active: seq<SeqId>, regular: seq<SeqId>)
    requires Active(s, regular + active) && active != []
    ensures active[0] in s.running && active[0] in s.reqs && s.reqs[active[0]].status == Running
  {
    assert (regular + active)[|regular|] == active[0];
  }

  lemma SpeculateHead(m: Model, cfg: Config, s: State, active: seq<SeqId>, regular: seq<SeqId>, draft: seq<Token>)
    requires Inv(m, cfg, s, {}) && Active(s, regular + active) && active != [] && cfg.speculate
    requires active[0] in s.running && active[0] in s.reqs && s.reqs[active[0]].status == Running
    ensures var out := Speculate(m, cfg, s, active[0], draft);
            && SpeculateOutcome(m, cfg, s, active[0], out)
            && Inv(m, cfg, out.0, {}) && Active(out.0, regular + active[1..])
  {
    hide CacheOk, AllOnTrack, AllResident, AllSaved, OnePrefilling, Listed, Speculate;
    SpeculateKeeps(m, cfg, s, active[0], draft);
    hide Inv;
    var rows, rest, after := regular + active, regular + active[1..], Speculate(m, cfg, s, active[0], draft).0;
    assert rows[|regular|] == active[0];
    assert forall i | 0 <= i < |regular| :: rest[i] == rows[i];
    assert forall i | |regular| <= i < |rest| :: rest[i] == rows[i + 1];
    forall i | 0 <= i < |rest| ensures rest[i] in after.running && rest[i] in after.reqs && after.reqs[rest[i]].status == Running {
      var k := if i < |regular| then i else i + 1;
      assert rows[k] == rest[i] && k != |regular|;
    }
  }

  // ---- retiring ----

  /** Releases the listed requests. */
  function Release(m: Model, cfg: Config, s: State, ids: seq<SeqId>): (r: State)
    requires Inv(m, cfg, s, {}) && NoDup(ids) && forall x | x in ids :: x in s.running
    ensures Inv(m, cfg, r, {}) && r == s.(cache := r.cache, running := r.running)
    ensures forall x :: x in r.running <==> x in s.running && x !in ids
    ensures r.cache.blockSize == s.cache.blockSize && |r.cache.refs| == |s.cache.refs|
    ensures r.cache.prefixCaching == s.cache.prefixCaching
    decreases |ids|
  {
    if ids == [] then s
    else
      var n := |ids| - 1;
      assert ids[n] !in ids[..n];
      assert forall x :: x in ids <==> x in ids[..n] || x == ids[n];
      var before := Release(m, cfg, s, ids[..n]);
      ReleaseOne(m, cfg, before, ids[n]);
      before.(cache := FreeSequence(before.cache, ids[n]), running := Remove(before.running, ids[n]))
  }

  lemma ReleaseOne(m: Model, cfg: Config, s: State, id: SeqId)
    requires Inv(m, cfg, s, {}) && id in s.running
    ensures Wf(s.cache) && id in s.cache.seqs && id !in Remove(s.running, id)
    ensures Inv(m, cfg, s.(cache := FreeSequence(s.cache, id), running := Remove(s.running, id)), {})
  {
    hide AllOnTrack, AllResident, AllSaved, OnePrefilling, Faithful, HostFaithful, Counted, FreeExact, SharedIndexed, TablesDistinct;
    RemoveDistinct(s.running, id);
    DropKeeps(m, cfg, s, id, {});
  }

  function Unfinished(reqs: map<SeqId, Request>, ids: seq<SeqId>): (r: seq<SeqId>)
    requires forall i | 0 <= i < |ids| :: ids[i] in reqs
    ensures forall x :: x in r <==> x in ids && reqs[x].status != Finished
    ensures NoDup(ids) ==> NoDup(r)
  {
    if ids == [] then []
    else
      var n := |ids| - 1;
      var before := Unfinished(reqs, ids[..n]);
      assert NoDup(ids) ==> ids[n] !in ids[..n];
      assert forall x :: x in ids <==> x in ids[..n] || x == ids[n];
      if reqs[ids[n]].status != Finished then before + [ids[n]] else before
  }

  /** The invariant does not depend on the order of the running list. */
  lemma SameMembers(m: Model, cfg: Config, s: State, running: seq<SeqId>)
    requires Inv(m, cfg, s, {}) && NoDup(running) && forall x :: x in running <==> x in s.running
    ensures Inv(m, cfg, s.(running := running), {})
  {
    hide AllOnTrack, Sound, Faithful, HostFaithful, Resident;
  }

  /** Releases the finished requests and drops them from the running list. */
  function Retire(m: Model, cfg: Config, s: State): (r: State)
    requires Inv(m, cfg, s, {})
    ensures Inv(m, cfg, r, {})
    ensures r == s.(cache := r.cache, running := r.running)
    ensures forall x :: x in r.running <==> x in s.running && s.reqs[x].status != Finished
    ensures r.cache.blockSize == s.cache.blockSize && |r.cache.refs| == |s.cache.refs|
    ensures r.cache.prefixCaching == s.cache.prefixCaching
  {
    ListFacts(m, cfg, s);
    var finished := WithStatus(s.reqs, s.running, Finished);
    var kept := Unfinished(s.reqs, s.running);
    var released := Release(m, cfg, s, finished);
    SameMembers(m, cfg, released, kept);
    released.(running := kept)
  }

  // ---- one step, and runs ----

  datatype StepResult = StepResult(state: State, updated: seq<SeqId>, ok: bool)

  lemma ActiveOfIsActive(m: Model, cfg: Config, s: State, completed: seq<SeqId>)
    requires Inv(m, cfg, s, {}) && forall i | 0 <= i < |s.running| :: s.running[i] in s.reqs
    ensures Active(s, [] + ActiveOf(s.reqs, s.running, completed))
  {
    hide AllOnTrack, CacheOk, AllResident, AllSaved, ActiveOf;
    var active := ActiveOf(s.reqs, s.running, completed);
    assert [] + active == active;
    forall i | 0 <= i < |active| ensures active[i] in s.running && active[i] in s.reqs && s.reqs[active[i]].status == Running {
      var x := active[i];
      assert x in active;
    }
  }

  lemma StartRetrying(m: Model, cfg: Config, s: State, ids: seq<SeqId>)
    requires Inv(m, cfg, s, {}) && Active(s, ids)
    ensures Retrying(m, cfg, s, ids)
  {
    hide Inv;
    assert Ids(ids[..0]) == {};
  }

  /** The decode part of a step: everything after the prefill work. */
  function DecodeWork(m: Model, cfg: Config, s: State, completed: seq<SeqId>): (r: (State, seq<SeqId>))
    requires Inv(m, cfg, s, {})
    ensures Inv(m, cfg, r.0, {})
  {
    ListFacts(m, cfg, s);
    ActiveOfIsActive(m, cfg, s, completed);
    var (verified, done, regular) := SpeculateActive(m, cfg, s, ActiveOf(s.reqs, s.running, completed), [], []);
    if regular == [] then (verified, done)
    else
      StartRetrying(m, cfg, verified, regular);
      var (decoded, left) := DecodeActive(m, cfg, verified, regular);
      (decoded, done + left)
  }

  /** One scheduler iteration; ok is false when it raises, and the invariant holds even then. */
  function Step(m: Model, cfg: Config, s: State): (r: StepResult)
    requires Inv(m, cfg, s, {})
    ensures Inv(m, cfg, r.state, {})
  {
    var w := PrefillWork(m, cfg, TrySwapIn(m, cfg, s));
    if !w.ok then StepResult(w.state, [], false)
    else
      var (decoded, updated) := DecodeWork(m, cfg, w.state, w.completed);
      StepResult(Retire(m, cfg, decoded), w.completed + updated, true)
  }

  predicate HasUnfinished(s: State) {
    s.waiting != [] || s.running != [] || s.swapped != []
  }

  /** `run_to_completion`: steps until nothing is left, at most n times; false if a step raised. */
  function RunToCompletion(m: Model, cfg: Config, s: State, n: nat): (r: (State, bool))
    requires Inv(m, cfg, s, {})
    ensures Inv(m, cfg, r.0, {})
    decreases n
  {
    if n == 0 || !HasUnfinished(s) then (s, true)
    else
      var out := Step(m, cfg, s);
      if !out.ok then (out.state, false) else RunToCompletion(m, cfg, out.state, n - 1)
  }
}
