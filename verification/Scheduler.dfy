/** The scheduler in its own form: lists of request objects and one cache object, updated in place.
    Every method is proved to do what the function of SchedulerModel does to the value, so every
    theorem about runs of that value is a theorem about this class. */
module Schedulers {
  import opened LanguageModel
  import opened Options
  import opened Positions
  import opened PagedKvCache
  import opened CacheInvariant
  import opened SwapToHost
  import opened ModelRunner
  import opened BatchedDecode
  import opened Requests
  import opened SchedulerState
  import opened SchedulerSteps
  import opened SchedulerDecode
  import opened Speculation
  import opened SchedulerModel
  import opened SchedulerRuns
  import opened StepReturns
  import opened SequenceObjects
  import opened KvCacheManagers
  import opened ForwardPasses

  function IdsOf(list: seq<Sequence>): (r: seq<SeqId>)
    ensures |r| == |list| && forall i | 0 <= i < |list| :: r[i] == list[i].id
  {
    seq(|list|, i requires 0 <= i < |list| => list[i].id)
  }

  lemma IdsOfSplit(a: seq<Sequence>, b: seq<Sequence>)
    ensures IdsOf(a + b) == IdsOf(a) + IdsOf(b)
  {
  }

  /** Every listed object is the known one of its id. */
  ghost predicate Listing(list: seq<Sequence>, known: map<SeqId, Sequence>) {
    forall i | 0 <= i < |list| :: list[i].id in known && known[list[i].id] == list[i]
  }

  lemma ListingJoin(list: seq<Sequence>, other: seq<Sequence>, k: nat, known: map<SeqId, Sequence>)
    requires Listing(list, known) && Listing(other, known) && k < |other|
    ensures Listing(list + [other[k]], known) && IdsOf(list + [other[k]]) == IdsOf(list) + [IdsOf(other)[k]]
  {
  }

  lemma ListingSplit(list: seq<Sequence>, i: nat, known: map<SeqId, Sequence>)
    requires Listing(list, known) && i < |list|
    ensures IdsOf(list[i..]) != [] && IdsOf(list[i..])[0] == list[i].id && IdsOf(list[i..])[1..] == IdsOf(list[i + 1..])
    ensures Listing([list[i]], known) && list[i].id in known && known[list[i].id] == list[i]
  {
  }

  class Scheduler {
    const model: Model
    const cfg: Config
    const cache: KvCacheManager
    var waiting: seq<Sequence>
    var running: seq<Sequence>
    var swapped: seq<Sequence>
    ghost var known: map<SeqId, Sequence>   // every request ever added
    ghost var reqs: map<SeqId, Request>     // and its value

    /** The object's value. */
    ghost function View(): (s: State)
      reads this, cache, cache.allocator, cache.kv
    {
      State(reqs, IdsOf(waiting), IdsOf(running), IdsOf(swapped), cache.View())
    }

    /** The request objects are what `reqs` says. */
    ghost predicate Mirrored()
      reads this, known.Values
    {
      && known.Keys == reqs.Keys
      && forall id | id in known ::
           var q := known[id];
           q.id == id && reqs[id] == Request(q.prompt, q.maxNew, q.eos, q.stops, q.output, q.status)
    }

    ghost predicate Valid()
      reads this, known.Values, cache, cache.allocator, cache.kv
    {
      && cache.Valid() && Mirrored()
      && Listing(waiting, known) && Listing(running, known) && Listing(swapped, known)
    }

    constructor (model: Model, cfg: Config, cache: KvCacheManager)
      requires cache.Valid()
      ensures Valid() && View() == Initial(cache.View()) && this.model == model && this.cfg == cfg && this.cache == cache
      ensures known == map[]
    {
      this.model, this.cfg, this.cache := model, cfg, cache;
      waiting, running, swapped := [], [], [];
      known, reqs := map[], map[];
    }

    // ---- one request changes ----

    method SetStatus(q: Sequence, status: Status)
      requires Valid() && q.id in known && known[q.id] == q
      modifies q, this`reqs
      ensures Valid() && View() == old(View()).(reqs := old(reqs)[q.id := old(reqs)[q.id].(status := status)])
    {
      q.status := status;
      reqs := reqs[q.id := reqs[q.id].(status := status)];
    }

    method Append(q: Sequence, t: Token)
      requires Valid() && q.id in known && known[q.id] == q
      modifies q, this`reqs
      ensures Valid() && View() == old(View()).(reqs := old(reqs)[q.id := AppendToken(old(reqs)[q.id], t)])
    {
      q.AppendToken(t);
      reqs := reqs[q.id := AppendToken(reqs[q.id], t)];
    }

    method ClearOutput(q: Sequence)
      requires Valid() && q.id in known && known[q.id] == q
      modifies q, this`reqs
      ensures Valid() && View() == old(View()).(reqs := old(reqs)[q.id := old(reqs)[q.id].(output := [])])
    {
      q.output := [];
      reqs := reqs[q.id := reqs[q.id].(output := [])];
    }

    // ---- arrival, cancellation, capacity ----

    method AddRequest(q: Sequence)
      requires Valid() && q.id !in known && q.output == [] && q.status == Waiting
      modifies this
      ensures Valid() && known == old(known)[q.id := q]
      ensures View() == SchedulerSteps.AddRequest(old(View()), q.id, q.View())
    {
      known := known[q.id := q];
      reqs := reqs[q.id := q.View()];
      waiting := waiting + [q];
      IdsOfSplit(old(waiting), [q]);
    }

    method HasUnfinishedRequests() returns (r: bool)
      ensures r == HasUnfinished(View())
    {
      return waiting != [] || running != [] || swapped != [];
    }

    /** Where a request is in a list, -1 if it is not in it. */
    static method FindIn(list: seq<Sequence>, id: SeqId) returns (k: int)
      ensures -1 <= k < |list|
      ensures k == -1 <==> id !in IdsOf(list)
      ensures k >= 0 ==> list[k].id == id && id !in IdsOf(list)[..k]
    {
      for i := 0 to |list|
        invariant id !in IdsOf(list)[..i]
      {
        if list[i].id == id { return i; }
      }
      return -1;
    }

    /** The list without its k-th request. */
    static method Without(list: seq<Sequence>, k: nat) returns (r: seq<Sequence>)
      requires k < |list| && list[k].id !in IdsOf(list)[..k]
      ensures IdsOf(r) == Remove(IdsOf(list), list[k].id)
      ensures forall i | 0 <= i < |r| :: r[i] in list
    {
      r := list[..k] + list[k + 1..];
      IdsOfSplit(list[..k], list[k + 1..]);
      RemoveAt(IdsOf(list), k);
    }

    method Cancel(id: SeqId)
      requires Valid() && Inv(model, cfg, View(), {})
      modifies this, cache, cache.allocator
      ensures Valid() && known == old(known) && View() == SchedulerSteps.Cancel(old(View()), id)
    {
      hide Inv, Wf, FreeSequence, DiscardSwapped, Remove;
      RunningIsCached(model, cfg, View(), id);
      var k := FindIn(running, id);
      if k >= 0 {
        DropRunning(k);
        return;
      }
      k := FindIn(swapped, id);
      if k >= 0 {
        DropSwapped(k);
        return;
      }
      k := FindIn(waiting, id);
      if k >= 0 {
        waiting := Without(waiting, k);
      }
    }

    method DropRunning(k: nat)
      requires Valid() && k < |running| && running[k].id in cache.sequences && running[k].id !in IdsOf(running)[..k]
      modifies this, cache, cache.allocator
      ensures Valid() && known == old(known)
      ensures View() == old(View()).(cache := FreeSequence(old(cache.View()), old(running[k].id)),
                                     running := Remove(IdsOf(old(running)), old(running[k].id)))
    {
      hide Wf, FreeSequence, Remove;
      cache.FreeSequence(running[k].id);
      running := Without(running, k);
    }

    method DropSwapped(k: nat)
      requires Valid() && k < |swapped| && swapped[k].id !in IdsOf(swapped)[..k]
      modifies this, cache
      ensures Valid() && known == old(known)
      ensures View() == old(View()).(cache := DiscardSwapped(old(cache.View()), old(swapped[k].id)),
                                     swapped := Remove(IdsOf(old(swapped)), old(swapped[k].id)))
    {
      hide Wf, DiscardSwapped, Remove;
      cache.DiscardSwapped(swapped[k].id);
      swapped := Without(swapped, k);
    }

    function BlocksNeeded(n: nat): nat
      requires cache.blockSize >= 1
    {
      (n + cache.blockSize - 1) / cache.blockSize
    }

    method PledgedBlocks() returns (total: nat)
      requires Valid() && cache.blockSize >= 1
      ensures forall i | 0 <= i < |running| :: View().running[i] in View().reqs
      ensures total == SchedulerModel.PledgedBlocks(View().reqs, View().running, cache.blockSize)
    {
      hide Wf;
      total := 0;
      for i := 0 to |running|
        invariant total == SchedulerModel.PledgedBlocks(View().reqs, View().running[..i], cache.blockSize)
      {
        var q := running[i];
        var used := BlocksNeeded(|q.prompt| + |q.output|);
        var worst := BlocksNeeded(|q.prompt| + q.maxNew);
        total := total + if worst > used then worst - used else 0;
        assert View().running[..i + 1][..i] == View().running[..i];
      }
      assert View().running[..|running|] == View().running;
    }

    method Available() returns (n: int)
      requires Valid() && Inv(model, cfg, View(), {})
      ensures n == SchedulerModel.Available(model, cfg, View())
    {
      hide Inv, Wf;
      ListFacts(model, cfg, View());
      var pledged := PledgedBlocks();
      return |cache.allocator.freeBlocks| - pledged;
    }

    /** Whether the head of the swapped list fits beside what the running requests may need. */
    method SwappedFits() returns (fits: bool)
      requires Valid() && Inv(model, cfg, View(), {}) && swapped != []
      ensures fits == (SwappedNeed(model, cfg, View()) <= SchedulerModel.Available(model, cfg, View()))
    {
      hide Inv, Wf, SchedulerModel.Available;
      ListFacts(model, cfg, View());
      var q := swapped[0];
      assert View().swapped[0] == q.id;
      var needed := BlocksNeeded(cache.swappedContextLen[q.id]);
      var available := Available();
      return needed <= available;
    }

    /** Whether the head of the queue does, in the worst case. */
    method WaitingFits() returns (fits: bool)
      requires Valid() && Inv(model, cfg, View(), {}) && waiting != []
      ensures fits == (WaitingNeed(model, cfg, View()) <= SchedulerModel.Available(model, cfg, View()))
    {
      hide Inv, Wf, SchedulerModel.Available;
      ListFacts(model, cfg, View());
      var q := waiting[0];
      assert View().waiting[0] == q.id;
      var needed := BlocksNeeded(|q.prompt| + q.maxNew);
      var available := Available();
      return needed <= available;
    }

    // ---- swapping in ----

    /** Resumes the head of the swapped list. Its snapshot always fits back in. */
    method SwapInHead()
      requires Valid() && Inv(model, cfg, View(), {}) && HeadFits(View())
      modifies this, swapped[0], cache, cache.allocator, cache.kv
      ensures Valid() && known == old(known) && View() == SwapInOne(model, cfg, old(View()))
      ensures |swapped| == |old(swapped)| - 1
    {
      hide Inv, Wf, PagedKvCache.SwapIn, Rows;
      ghost var s := View();
      SwappedHead(model, cfg, s);
      var q := swapped[0];
      assert s.swapped[0] == q.id && s.swapped[1..] == IdsOf(swapped[1..]);
      swapped := swapped[1..];
      var ok := cache.SwapIn(q.id);
      assert ok;
      SetStatus(q, Running);
      IdsOfSplit(running, [q]);
      running := running + [q];
    }

    /** Resumes swapped requests, in order, while they fit beside what the running ones may need. */
    method TrySwapIn()
      requires Valid() && Inv(model, cfg, View(), {})
      modifies this, known.Values, cache, cache.allocator, cache.kv
      ensures Valid() && known == old(known) && View() == SchedulerModel.TrySwapIn(model, cfg, old(View()))
    {
      hide Inv, Wf, SwapInOne, Mirrored, KvCacheManager.View, KvCacheManager.Valid;
      while swapped != []
        invariant Valid() && known == old(known) && Inv(model, cfg, View(), {})
        invariant SchedulerModel.TrySwapIn(model, cfg, View()) == SchedulerModel.TrySwapIn(model, cfg, old(View()))
        decreases |swapped|
      {
        var fits := SwappedFits();
        if !fits { break; }
        AvailableFits(model, cfg, View());
        SwapInOneKeeps(model, cfg, View());
        assert swapped[0] in known.Values by { assert known[swapped[0].id] == swapped[0]; }
        SwapInHead();
      }
    }

    // ---- unchunked admission ----

    /** Runs a whole prompt and samples its first token; false if the blocks ran out. */
    method Prefill(q: Sequence) returns (ok: bool)
      requires Valid() && q.id in known && known[q.id] == q && q.prompt != []
      modifies this`reqs, q, cache, cache.allocator, cache.kv
      ensures Valid()
      ensures var (c, predictions) := PrefillWithPrefixReuse(model, old(cache.View()), q.id, q.prompt);
              && ok == predictions.Some?
              && View() == old(View()).(cache := c,
                   reqs := if ok then old(reqs)[q.id := FirstToken(old(reqs)[q.id], predictions.value[|predictions.value| - 1])]
                           else old(reqs))
    {
      hide Wf, PrefillWithPrefixReuse;
      var predictions := RunPrefillWithPrefixReuse(model, cache, q.id, q.prompt);
      if predictions.None? { return false; }
      StartDecoding(q, predictions.value[|predictions.value| - 1]);
      return true;
    }

    /** The prompt is cached: the request runs, with its first token. */
    method StartDecoding(q: Sequence, t: Token)
      requires Valid() && q.id in known && known[q.id] == q
      modifies this`reqs, q
      ensures Valid() && View() == old(View()).(reqs := old(reqs)[q.id := FirstToken(old(reqs)[q.id], t)])
    {
      hide Mirrored, KvCacheManager.View, KvCacheManager.Valid, AppendToken, Listing;
      SetStatus(q, Running);
      Append(q, t);
    }

    method AdmitHead() returns (ok: bool)
      requires Valid() && Inv(model, cfg, View(), {}) && waiting != []
      modifies this, waiting[0], cache, cache.allocator, cache.kv
      ensures Valid() && known == old(known) && (View(), ok) == AdmitOne(model, cfg, old(View()))
      ensures ok ==> |waiting| == |old(waiting)| - 1
    {
      hide Inv, Wf, PrefillWithPrefixReuse, FirstToken;
      WaitingHead(model, cfg, View());
      var q := waiting[0];
      assert View().waiting[0] == q.id;
      ghost var s := View();
      ok := Prefill(q);
      if ok {
        IdsOfSplit(running, [q]);
        running := running + [q];
        assert IdsOf(waiting)[1..] == IdsOf(waiting[1..]);
        waiting := waiting[1..];
        assert IdsOf(running) == s.running + [q.id];
        assert IdsOf(waiting) == s.waiting[1..];
        assert View() == AdmitOne(model, cfg, s).0;
      }
    }

    /** Admits from the front of the queue until the head's worst case no longer fits. */
    method Admit() returns (admitted: seq<Sequence>)
      requires Valid() && Inv(model, cfg, View(), {}) && cfg.budget.None?
      modifies this, known.Values, cache, cache.allocator, cache.kv
      ensures Valid() && known == old(known) && Listing(admitted, known)
      ensures (View(), IdsOf(admitted)) == SchedulerModel.Admit(model, cfg, old(View()), [])
    {
      hide Inv, Wf, AdmitOne, Mirrored, KvCacheManager.View, KvCacheManager.Valid;
      admitted := [];
      while waiting != []
        invariant Valid() && known == old(known) && Inv(model, cfg, View(), {}) && Listing(admitted, known)
        invariant SchedulerModel.Admit(model, cfg, View(), IdsOf(admitted)) == SchedulerModel.Admit(model, cfg, old(View()), [])
        decreases |waiting|
      {
        var fits := WaitingFits();
        if !fits { break; }
        AvailableFits(model, cfg, View());
        AdmitOneKeeps(model, cfg, View());
        var q := waiting[0];
        ghost var s, who := View(), IdsOf(admitted);
        assert SchedulerModel.Admit(model, cfg, s, who) == SchedulerModel.Admit(model, cfg, AdmitOne(model, cfg, s).0, who + [s.waiting[0]]);
        ListingJoin(admitted, waiting, 0, known);
        assert waiting[0] in known.Values by { assert known[waiting[0].id] == waiting[0]; }
        var ok := AdmitHead();
        admitted := admitted + [q];
      }
    }

    // ---- chunked prefill ----

    /** Runs up to `budget` more prompt tokens of an in-flight request; ok is false for a raised
        out-of-memory error. */
    method ContinuePrefillChunk(q: Sequence, budget: nat) returns (left: nat, done: bool, ok: bool)
      requires Valid() && Inv(model, cfg, View(), {}) && q.id in View().running && q.id in known && known[q.id] == q && q.status == Prefilling
      modifies this`reqs, q, cache, cache.allocator, cache.kv
      ensures Valid() && ChunkResult(View(), left, done, ok) == PrefillChunk(model, cfg, old(View()), q.id, budget)
      ensures !ok ==> left == budget
    {
      hide Inv, Wf, ContinuePrefill, RegisterPrefixBlocks, FirstToken, BlocksFor;
      ghost var s := View();
      PrefillingFacts(model, cfg, s, q.id);
      var start := cache.sequences[q.id].len;
      var n := if budget <= |q.prompt| - start then budget else |q.prompt| - start;
      var predictions := RunContinuePrefill(model, cache, q.id, q.prompt[start..start + n]);
      if predictions.None? { return budget, false, false; }
      done := cache.sequences[q.id].len >= |q.prompt|;
      if done {
        SequenceBounds(cache.View(), q.id);
        WholeBlocksFit(|q.prompt|, cache.blockSize, |cache.sequences[q.id].table|);
        FinishPrompt(q, predictions.value[|predictions.value| - 1]);
      }
      return budget - n, done, true;
    }

    /** Files the prompt's blocks and samples its first token. */
    method FinishPrompt(q: Sequence, t: Token)
      requires Valid() && q.id in known && known[q.id] == q
      requires q.id in cache.sequences && cache.blockSize >= 1 && |q.prompt| / cache.blockSize <= |cache.sequences[q.id].table|
      modifies this`reqs, q, cache
      ensures Valid() && View() == old(View()).(reqs := old(reqs)[q.id := FirstToken(old(reqs)[q.id], t)],
                                                cache := RegisterPrefixBlocks(old(cache.View()), q.id, q.prompt))
    {
      hide Wf, RegisterPrefixBlocks, FirstToken, Listing;
      cache.RegisterPrefixBlocks(q.id, q.prompt);
      StartDecoding(q, t);
    }

    lemma ListedKnown(list: seq<Sequence>)
      requires Valid() && Listing(list, known)
      ensures forall i | 0 <= i < |list| :: IdsOf(list)[i] in reqs && reqs[IdsOf(list)[i]].status == list[i].status
    {
      hide KvCacheManager.View, KvCacheManager.Valid;
    }

    /** The requests of a list with a status, in order. */
    method Having(list: seq<Sequence>, status: Status) returns (having: seq<Sequence>)
      requires Valid() && Listing(list, known)
      ensures Listing(having, known) && forall i | 0 <= i < |list| :: IdsOf(list)[i] in reqs
      ensures IdsOf(having) == WithStatus(reqs, IdsOf(list), status)
    {
      hide KvCacheManager.View, KvCacheManager.Valid, Mirrored, Listing, WithStatus;
      ListedKnown(list);
      EmptyListing(known);
      having := [];
      NothingListed(reqs, status);
      ghost var ids := IdsOf(list);
      for i := 0 to |list|
        invariant Listing(having, known) && IdsOf(having) == WithStatus(reqs, ids[..i], status)
      {
        WithStatusStep(reqs, ids, i, status);
        ListingJoin(having, list, i, known);
        if list[i].status == status { having := having + [list[i]]; }
      }
      assert ids[..|list|] == ids;
    }

    /** Moves the head of the queue to the running list, to be prefilled in pieces. */
    method StartHead()
      requires Valid() && Inv(model, cfg, View(), {}) && waiting != []
      modifies this, waiting[0], cache, cache.allocator
      ensures Valid() && known == old(known) && View() == StartChunked(model, cfg, old(View()))
      ensures |waiting| == |old(waiting)| - 1
    {
      hide Inv, Wf, CreateForPrompt;
      ghost var s := View();
      WaitingHead(model, cfg, s);
      var q := waiting[0];
      assert s.waiting[0] == q.id && s.waiting[1..] == IdsOf(waiting[1..]);
      IdsOfSplit(running, [q]);
      waiting := waiting[1..];
      running := running + [q];
      SetStatus(q, Prefilling);
      RunCreateForPrompt(cache, q.id, q.prompt);
      assert View().running == s.running + [q.id];
    }

    /** Continues the prompts in flight while there is budget. */
    method ContinuePrompts(list: seq<Sequence>, budget: nat) returns (left: nat, completed: seq<Sequence>, ok: bool)
      requires Valid() && Inv(model, cfg, View(), {}) && Listing(list, known) && InFlight(View(), IdsOf(list), budget)
      modifies this, known.Values, cache, cache.allocator, cache.kv
      ensures Valid() && known == old(known) && Listing(completed, known)
      ensures Work(View(), left, IdsOf(completed), ok) == ContinueInFlight(model, cfg, old(View()), IdsOf(list), budget, [])
    {
      hide Inv, Wf, InFlight, PrefillChunk, Mirrored, KvCacheManager.View, KvCacheManager.Valid, ChunkOutcome;
      left, completed, ok := budget, [], true;
      assert list[0..] == list;
      for i := 0 to |list|
        invariant Valid() && known == old(known) && Inv(model, cfg, View(), {}) && Listing(completed, known) && ok
        invariant InFlight(View(), IdsOf(list[i..]), left)
        invariant ContinueInFlight(model, cfg, View(), IdsOf(list[i..]), left, IdsOf(completed))
               == ContinueInFlight(model, cfg, old(View()), IdsOf(list), budget, [])
      {
        if left == 0 { return; }
        var q := list[i];
        ghost var s, ids, who := View(), IdsOf(list[i..]), IdsOf(completed);
        assert ids[0] == q.id && ids[1..] == IdsOf(list[i + 1..]);
        InFlightHead(model, cfg, s, ids, left);
        assert q in known.Values by { assert known[q.id] == q; }
        ListingJoin(completed, list, i, known);
        var done;
        left, done, ok := NextChunk(q, left);
        if !ok { return; }
        if done { completed := completed + [q]; }
      }
    }

    /** One chunk of a request known to be in flight. */
    method NextChunk(q: Sequence, budget: nat) returns (left: nat, done: bool, ok: bool)
      requires Valid() && Inv(model, cfg, View(), {}) && q.id in View().running && q.id in known && known[q.id] == q
      requires q.id in reqs && reqs[q.id].status == Prefilling
      modifies this`reqs, q, cache, cache.allocator, cache.kv
      ensures Valid() && ChunkResult(View(), left, done, ok) == PrefillChunk(model, cfg, old(View()), q.id, budget)
      ensures !ok ==> left == budget
    {
      hide Inv, Wf, PrefillChunk, KvCacheManager.View, KvCacheManager.Valid;
      left, done, ok := ContinuePrefillChunk(q, budget);
    }

    /** Admits from the front of the queue into what is left of the budget. */
    method AdmitInPieces(budget: nat, already: seq<Sequence>) returns (left: nat, completed: seq<Sequence>, ok: bool)
      requires Valid() && Inv(model, cfg, View(), {}) && cfg.budget.Some? && Listing(already, known)
      requires budget > 0 ==> NonePrefilling(View())
      modifies this, known.Values, cache, cache.allocator, cache.kv
      ensures Valid() && known == old(known) && Listing(completed, known)
      ensures Work(View(), left, IdsOf(completed), ok) == AdmitChunked(model, cfg, old(View()), budget, IdsOf(already))
    {
      hide Inv, Wf, StartChunked, PrefillChunk, NonePrefilling, Mirrored, KvCacheManager.View, KvCacheManager.Valid, ChunkOutcome;
      left, completed, ok := budget, already, true;
      while waiting != [] && left > 0
        invariant Valid() && known == old(known) && Inv(model, cfg, View(), {}) && Listing(completed, known) && ok
        invariant left > 0 ==> NonePrefilling(View())
        invariant AdmitChunked(model, cfg, View(), left, IdsOf(completed))
               == AdmitChunked(model, cfg, old(View()), budget, IdsOf(already))
        decreases |waiting|
      {
        var fits := WaitingFits();
        if !fits { break; }
        var q := waiting[0];
        ghost var s := View();
        AdmitChunkedHead(model, cfg, s, left);
        assert q in known.Values by { assert known[q.id] == q; }
        assert s.waiting[0] == q.id;
        ListingJoin(completed, waiting, 0, known);
        StartHead();
        var done;
        left, done, ok := NextChunk(q, left);
        if !ok { return; }
        if done { completed := completed + [q]; }
      }
    }

    /** The prefill part of a step: who got a first token, and false for a raised out-of-memory error. */
    method StepPrefillWork() returns (completed: seq<Sequence>, ghost left: nat, ok: bool)
      requires Valid() && Inv(model, cfg, View(), {})
      modifies this, known.Values, cache, cache.allocator, cache.kv
      ensures Valid() && known == old(known) && Listing(completed, known)
      ensures Work(View(), left, IdsOf(completed), ok) == PrefillWork(model, cfg, old(View()))
    {
      hide Inv, Wf, SchedulerModel.Admit, ContinueInFlight, AdmitChunked, WithStatus, Mirrored, KvCacheManager.View, KvCacheManager.Valid, Listing;
      ListFacts(model, cfg, View());
      if cfg.budget.None? {
        completed := Admit();
        return completed, 0, true;
      }
      var list := Having(running, Prefilling);
      PrefillingList(model, cfg, View());
      var budget, done;
      budget, done, ok := ContinuePrompts(list, cfg.budget.value);
      if !ok { return done, budget, false; }
      budget, done, ok := AdmitInPieces(budget, done);
      return done, budget, ok;
    }

    // ---- preemption and decoding ----

    /** Takes a request off the device: to the host with its progress, or to the front of the queue
        without it. */
    method Preempt(q: Sequence)
      requires Valid() && q.id in known && known[q.id] == q && q.id in View().running && q.id in cache.sequences
      modifies this, q, cache, cache.allocator
      ensures Valid() && known == old(known) && View() == SchedulerDecode.Preempt(cfg, old(View()), q.id)
    {
      hide Wf, Remove, SwapOut, FreeSequence;
      var k := FindIn(running, q.id);
      running := Without(running, k);
      if cfg.swap {
        PreemptToHost(q);
      } else {
        PreemptToQueue(q);
      }
    }

    method PreemptToHost(q: Sequence)
      requires Valid() && q.id in known && known[q.id] == q && q.id in cache.sequences
      modifies this`swapped, this`reqs, q, cache, cache.allocator
      ensures Valid()
      ensures View() == old(View()).(cache := SwapOut(old(cache.View()), q.id), swapped := [q.id] + IdsOf(old(swapped)),
                                     reqs := old(reqs)[q.id := old(reqs)[q.id].(status := Swapped)])
    {
      hide Wf, SwapOut;
      cache.SwapOut(q.id);
      SetStatus(q, Swapped);
      IdsOfSplit([q], swapped);
      swapped := [q] + swapped;
    }

    method PreemptToQueue(q: Sequence)
      requires Valid() && q.id in known && known[q.id] == q && q.id in cache.sequences
      modifies this`waiting, this`reqs, q, cache, cache.allocator
      ensures Valid()
      ensures View() == old(View()).(cache := FreeSequence(old(cache.View()), q.id), waiting := [q.id] + IdsOf(old(waiting)),
                                     reqs := old(reqs)[q.id := old(reqs)[q.id].(output := [], status := Waiting)])
    {
      hide Wf, FreeSequence, KvCacheManager.View, KvCacheManager.Valid;
      cache.FreeSequence(q.id);
      ClearOutput(q);
      SetStatus(q, Waiting);
      IdsOfSplit([q], waiting);
      waiting := [q] + waiting;
    }

    /** The batch's last tokens. */
    method LastTokenIds(batch: seq<Sequence>) returns (tokens: seq<Token>)
      requires Valid() && Listing(batch, known) && forall i | 0 <= i < |batch| :: batch[i].prompt != []
      ensures forall i | 0 <= i < |batch| :: batch[i].id in reqs && reqs[batch[i].id].prompt != []
      ensures tokens == LastTokens(reqs, IdsOf(batch))
    {
      hide KvCacheManager.View, KvCacheManager.Valid;
      tokens := [];
      for i := 0 to |batch|
        invariant |tokens| == i
        invariant forall k | 0 <= k < i :: batch[k].id in reqs && reqs[batch[k].id].prompt != [] && tokens[k] == LastToken(reqs[batch[k].id])
      {
        var t := batch[i].LastTokenId();
        tokens := tokens + [t];
      }
    }

    lemma BatchKnown(batch: seq<Sequence>)
      requires Valid() && Listing(batch, known)
      ensures forall i | 0 <= i < |batch| :: IdsOf(batch)[i] in reqs && batch[i].id in reqs
    {
      hide KvCacheManager.View, KvCacheManager.Valid;
    }

    /** One sampled token for each request of the batch. */
    method AppendTokens(batch: seq<Sequence>, tokens: seq<Token>)
      requires Valid() && Listing(batch, known) && |tokens| == |batch|
      modifies this`reqs, known.Values
      ensures Valid() && forall i | 0 <= i < |batch| :: batch[i].id in old(reqs)
      ensures View() == old(View()).(reqs := AppendAll(old(reqs), IdsOf(batch), tokens))
    {
      hide KvCacheManager.View, KvCacheManager.Valid, Requests.AppendToken, Mirrored;
      BatchKnown(batch);
      ghost var before, ids := reqs, IdsOf(batch);
      for i := 0 to |batch|
        invariant Valid() && View() == old(View()).(reqs := AppendAll(before, ids[..i], tokens[..i]))
      {
        assert ids[..i + 1][..i] == ids[..i] && tokens[..i + 1][..i] == tokens[..i];
        assert batch[i] in known.Values by { assert known[batch[i].id] == batch[i]; }
        Append(batch[i], tokens[i]);
      }
      assert ids[..|batch|] == ids && tokens[..|batch|] == tokens;
    }

    /** One attempt at a batched decode; false is the caught out-of-memory error. */
    method TryDecode(batch: seq<Sequence>) returns (ok: bool)
      requires Valid() && Listing(batch, known) && Retrying(model, cfg, View(), IdsOf(batch))
      modifies this`reqs, known.Values, cache, cache.allocator, cache.kv
      ensures Valid() && (View(), ok) == DecodeOnce(model, cfg, old(View()), IdsOf(batch))
    {
      hide Inv, Wf, DecodeBatch, Sound, Faithful, RowsReady, AppendAll, LastTokens, Retrying, KvCacheManager.View;
      ghost var s := View();
      var ids := IdsOf(batch);
      ActiveReady(model, cfg, s, ids);
      BatchIsDistinct(model, cfg, s, ids);
      PromptsOf(batch, ids);
      var tokens := LastTokenIds(batch);
      var predictions := RunDecodeStepBatch(model, cache, ids, tokens);
      if predictions.None? { return false; }
      AppendTokens(batch, predictions.value);
      return true;
    }

    lemma PromptsOf(batch: seq<Sequence>, ids: seq<SeqId>)
      requires Valid() && Listing(batch, known) && ids == IdsOf(batch)
      requires forall i | 0 <= i < |ids| :: ids[i] in reqs && reqs[ids[i]].prompt != []
      ensures forall i | 0 <= i < |batch| :: batch[i].prompt != []
    {
      forall i | 0 <= i < |batch| ensures batch[i].prompt != [] {
        assert ids[i] == batch[i].id && known[ids[i]] == batch[i];
      }
    }

    /** Decodes the batch, preempting from its end until it fits. */
    method DecodeActive(batch: seq<Sequence>) returns (left: seq<Sequence>)
      requires Valid() && Listing(batch, known) && Retrying(model, cfg, View(), IdsOf(batch))
      modifies this, known.Values, cache, cache.allocator, cache.kv
      ensures Valid() && known == old(known) && Listing(left, known)
      ensures (View(), IdsOf(left)) == SchedulerModel.DecodeActive(model, cfg, old(View()), IdsOf(batch))
    {
      hide Inv, Wf, DecodeOnce, Retrying, SchedulerDecode.Preempt, Mirrored, KvCacheManager.Valid, Active;
      left := batch;
      while left != []
        invariant Valid() && known == old(known) && Listing(left, known) && Retrying(model, cfg, View(), IdsOf(left))
        invariant SchedulerModel.DecodeActive(model, cfg, View(), IdsOf(left))
               == SchedulerModel.DecodeActive(model, cfg, old(View()), IdsOf(batch))
        decreases |left|
      {
        ghost var s, ids := View(), IdsOf(left);
        var ok := TryDecode(left);
        if ok { break; }
        RetryKeeps(model, cfg, s, ids);
        VictimIsRunning(model, cfg, s, ids);
        var victim := left[|left| - 1];
        assert victim in known.Values by { assert known[victim.id] == victim; }
        left := left[..|left| - 1];
        assert IdsOf(left) == ids[..|ids| - 1];
        Preempt(victim);
      }
    }

    // ---- speculation ----

    /** How many draft tokens the predictions confirm. */
    static method CountMatched(predicted: seq<Token>, draft: seq<Token>) returns (matched: nat)
      requires |draft| < |predicted|
      ensures matched == MatchedFrom(predicted, draft, 0)
    {
      matched := 0;
      while matched < |draft| && predicted[matched] == draft[matched]
        invariant matched <= |draft| && MatchedFrom(predicted, draft, 0) == MatchedFrom(predicted, draft, matched)
      {
        matched := matched + 1;
      }
    }

    /** Appends tokens until the request finishes. */
    method AppendAccepted(q: Sequence, accepted: seq<Token>) returns (kept: nat)
      requires Valid() && q.id in known && known[q.id] == q
      modifies this`reqs, q
      ensures Valid()
      ensures var (a, n) := AppendUntilDone(old(reqs)[q.id], accepted);
              kept == n && View() == old(View()).(reqs := old(reqs)[q.id := a])
    {
      hide KvCacheManager.View, KvCacheManager.Valid, Requests.AppendToken, Listing;
      kept := 0;
      ghost var r, before := reqs[q.id], reqs;
      assert accepted[0..] == accepted;
      while kept < |accepted|
        invariant kept <= |accepted| && Valid() && q.id in reqs
        invariant View() == old(View()).(reqs := before[q.id := reqs[q.id]])
        invariant AppendUntilDone(r, accepted) == (AppendUntilDone(reqs[q.id], accepted[kept..]).0,
                                                   kept + AppendUntilDone(reqs[q.id], accepted[kept..]).1)
      {
        ghost var rest := accepted[kept..];
        assert rest[0] == accepted[kept] && rest[1..] == accepted[kept + 1..];
        Append(q, accepted[kept]);
        kept := kept + 1;
        if q.status == Finished { break; }
      }
    }

    /** Verifies a draft in one pass; false is the caught out-of-memory error, which preempts. */
    method SpeculativeDecodeOne(q: Sequence, draft: seq<Token>) returns (ok: bool)
      requires Valid() && Inv(model, cfg, View(), {}) && q.id in View().running && q.id in known && known[q.id] == q
      requires q.id in reqs && reqs[q.id].status == Running && q.prompt != []
      modifies this, q, cache, cache.allocator, cache.kv
      ensures Valid() && known == old(known) && (View(), ok) == Speculate(model, cfg, old(View()), q.id, draft)
    {
      hide Inv, Wf, ContinuePrefill, SchedulerDecode.Preempt, VerifiedState, Listing;
      ghost var s := View();
      RunningIsThere(model, cfg, s, q.id);
      var last := q.LastTokenId();
      var predictions := RunContinuePrefill(model, cache, q.id, [last] + draft);
      if predictions.None? {
        Preempt(q);
        return false;
      }
      ghost var mid := View();
      KeepVerified(q, draft, predictions.value);
      VerifiedElsewhere(s, mid, q.id, draft, mid.cache, predictions.value);
      return true;
    }

    /** Keeps what the predictions confirm and forgets the rest of what was written. */
    method KeepVerified(q: Sequence, draft: seq<Token>, predicted: seq<Token>)
      requires Valid() && q.id in known && known[q.id] == q && q.id in cache.sequences
      requires |draft| < |predicted| && |draft| <= cache.sequences[q.id].len
      modifies this`reqs, q, cache
      ensures Valid() && Wf(old(cache.View())) && q.id in old(reqs)
      ensures View() == VerifiedState(old(View()), q.id, draft, old(cache.View()), predicted).0
    {
      hide Wf, PagedKvCache.Rollback, AppendUntilDone, MatchedFrom, Listing;
      ghost var s := View();
      var matched := CountMatched(predicted, draft);
      var accepted := draft[..matched] + [predicted[matched]];
      var kept := AppendAccepted(q, accepted);
      var rollback := |draft| - (if kept <= matched then kept else matched);
      if rollback > 0 {
        cache.Rollback(q.id, rollback);
      }
    }

    // ---- a step ----

    /** The requests to decode: running, and without a token yet this step. */
    method ActiveRequests(completed: seq<Sequence>) returns (active: seq<Sequence>)
      requires Valid() && Listing(completed, known)
      ensures Listing(active, known) && forall i | 0 <= i < |running| :: View().running[i] in reqs
      ensures IdsOf(active) == ActiveOf(reqs, View().running, IdsOf(completed))
    {
      hide KvCacheManager.View, KvCacheManager.Valid, Mirrored, Listing, ActiveOf;
      ListedKnown(running);
      EmptyListing(known);
      active := [];
      NobodyActive(reqs, IdsOf(completed));
      ghost var ids := IdsOf(running);
      for i := 0 to |running|
        invariant Listing(active, known) && IdsOf(active) == ActiveOf(reqs, ids[..i], IdsOf(completed))
      {
        ActiveOfStep(reqs, ids, i, IdsOf(completed));
        ListingJoin(active, running, i, known);
        KnownMember(completed, running, i, known);
        if running[i].status == Running && running[i] !in completed { active := active + [running[i]]; }
      }
      assert ids[..|running|] == ids;
    }

    /** Speculates on the active requests that have a draft; the rest form the regular batch. */
    method SpeculateOnActive(active: seq<Sequence>) returns (done: seq<Sequence>, regular: seq<Sequence>)
      requires Valid() && Inv(model, cfg, View(), {}) && Listing(active, known) && Active(View(), [] + IdsOf(active))
      modifies this, known.Values, cache, cache.allocator, cache.kv
      ensures Valid() && known == old(known) && Listing(done, known) && Listing(regular, known)
      ensures (View(), IdsOf(done), IdsOf(regular)) == SpeculateActive(model, cfg, old(View()), IdsOf(active), [], [])
    {
      hide Inv, Wf, Active, Speculate, SpeculateActive, Mirrored, KvCacheManager.View, KvCacheManager.Valid, Listing;
      done, regular := [], [];
      assert active[0..] == active && IdsOf(regular) == [];
      EmptyListing(known);
      for i := 0 to |active|
        invariant Valid() && known == old(known) && Inv(model, cfg, View(), {})
        invariant Listing(done, known) && Listing(regular, known) && Active(View(), IdsOf(regular) + IdsOf(active[i..]))
        invariant SpeculateActive(model, cfg, View(), IdsOf(active[i..]), IdsOf(done), IdsOf(regular))
               == SpeculateActive(model, cfg, old(View()), IdsOf(active), [], [])
      {
        var q := active[i];
        ghost var s, ids := View(), IdsOf(active[i..]);
        ListingSplit(active, i, known);
        ActiveHead(model, cfg, s, ids, IdsOf(regular));
        SpeculateActiveStep(model, cfg, s, ids, IdsOf(done), IdsOf(regular));
        var draft := ProposeDraft(q);
        if draft != [] {
          ListingJoin(done, active, i, known);
          var ok := SpeculateOn(q, draft);
          if ok { done := done + [q]; }
        } else {
          ListingJoin(regular, active, i, known);
          regular := regular + [q];
        }
      }
      NothingToSpeculate(model, cfg, View(), IdsOf(done), IdsOf(regular));
    }

    /** The draft for a request; [] when speculation is off or nothing is proposed. */
    method ProposeDraft(q: Sequence) returns (draft: seq<Token>)
      requires Valid() && Listing([q], known)
      ensures q.id in reqs && draft == DraftFor(cfg, reqs[q.id])
    {
      assert [q][0] == q;
      if !cfg.speculate { return []; }
      return cfg.draft(q.prompt + q.output);
    }

    method SpeculateOn(q: Sequence, draft: seq<Token>) returns (ok: bool)
      requires Valid() && Inv(model, cfg, View(), {}) && q.id in View().running && Listing([q], known)
      requires q.id in reqs && reqs[q.id].status == Running
      modifies this, known.Values, cache, cache.allocator, cache.kv
      ensures Valid() && known == old(known) && (View(), ok) == Speculate(model, cfg, old(View()), q.id, draft)
    {
      hide Inv, Wf, Speculate, KvCacheManager.View, KvCacheManager.Valid;
      assert [q][0] == q;
      RunningIsThere(model, cfg, View(), q.id);
      assert q in known.Values by { assert known[q.id] == q; }
      ok := SpeculativeDecodeOne(q, draft);
    }

    /** The decode part of a step; who got tokens. */
    method StepDecodeWork(completed: seq<Sequence>) returns (updated: seq<Sequence>)
      requires Valid() && Inv(model, cfg, View(), {}) && Listing(completed, known)
      modifies this, known.Values, cache, cache.allocator, cache.kv
      ensures Valid() && known == old(known) && Listing(updated, known)
      ensures (View(), IdsOf(updated)) == DecodeWork(model, cfg, old(View()), IdsOf(completed))
    {
      hide Inv, Wf, SpeculateActive, SchedulerModel.DecodeActive, ActiveOf, Retrying, Mirrored, KvCacheManager.View, KvCacheManager.Valid, Listing;
      ListFacts(model, cfg, View());
      ActiveOfIsActive(model, cfg, View(), IdsOf(completed));
      var active := ActiveRequests(completed);
      var done, regular := SpeculateOnActive(active);
      if regular == [] { return done; }
      StartRetrying(model, cfg, View(), IdsOf(regular));
      regular := DecodeActive(regular);
      ListingConcat(done, regular, known);
      return done + regular;
    }

    /** Frees the finished requests' caches and drops them from the running list. */
    method RetireFinished()
      requires Valid() && Inv(model, cfg, View(), {})
      modifies this, cache, cache.allocator
      ensures Valid() && known == old(known) && View() == Retire(model, cfg, old(View()))
    {
      hide Inv, Wf, Release, WithStatus, Unfinished;
      ghost var s := View();
      ListFacts(model, cfg, s);
      var finished := Having(running, Finished);
      RunningNoDup(model, cfg, s);
      FreeFinished(finished, s);
      KeepUnfinished();
    }

    method FreeFinished(finished: seq<Sequence>, ghost s: State)
      requires Valid() && s == View() && Inv(model, cfg, s, {})
      requires NoDup(IdsOf(finished)) && forall x | x in IdsOf(finished) :: x in s.running
      modifies cache, cache.allocator
      ensures Valid() && cache.View() == Release(model, cfg, s, IdsOf(finished)).cache
    {
      hide Inv, Wf, Mirrored, KvCacheManager.Valid, Listing, FreeSequence;
      ghost var ids := IdsOf(finished);
      for i := 0 to |finished|
        invariant Valid() && NoDup(ids[..i]) && (forall x | x in ids[..i] :: x in s.running)
        invariant cache.View() == Release(model, cfg, s, ids[..i]).cache
      {
        ReleaseNext(model, cfg, s, ids, i);
        cache.FreeSequence(finished[i].id);
      }
      assert ids[..|finished|] == ids;
    }

    method KeepUnfinished()
      requires Valid()
      modifies this`running
      ensures Valid() && (forall i | 0 <= i < |old(running)| :: IdsOf(old(running))[i] in reqs)
      ensures View() == old(View()).(running := Unfinished(reqs, IdsOf(old(running))))
    {
      hide KvCacheManager.View, KvCacheManager.Valid, Unfinished;
      ListedKnown(running);
      var kept := NotFinished();
      running := kept;
    }

    method NotFinished() returns (kept: seq<Sequence>)
      requires Valid()
      ensures Listing(kept, known) && forall i | 0 <= i < |running| :: IdsOf(running)[i] in reqs
      ensures IdsOf(kept) == Unfinished(reqs, IdsOf(running))
    {
      hide KvCacheManager.View, KvCacheManager.Valid, Mirrored, Listing, Unfinished;
      ListedKnown(running);
      EmptyListing(known);
      kept := [];
      NothingListed(reqs, Finished);
      ghost var ids := IdsOf(running);
      for i := 0 to |running|
        invariant Listing(kept, known) && IdsOf(kept) == Unfinished(reqs, ids[..i])
      {
        UnfinishedStep(reqs, ids, i);
        ListingJoin(kept, running, i, known);
        if running[i].status != Finished { kept := kept + [running[i]]; }
      }
      assert ids[..|running|] == ids;
    }

    /** One scheduler iteration: who got a token, exactly; ok is false if it raised. */
    method Step() returns (updated: seq<Sequence>, ok: bool)
      requires Valid() && Inv(model, cfg, View(), {})
      modifies this, known.Values, cache, cache.allocator, cache.kv
      ensures Valid() && known == old(known) && Listing(updated, known) && reqs.Keys == old(reqs).Keys
      ensures StepResult(View(), IdsOf(updated), ok) == SchedulerModel.Step(model, cfg, old(View()))
      ensures ok ==> NoDup(IdsOf(updated)) && forall x | x in reqs ::
                x in IdsOf(updated) <==> |reqs[x].output| > |old(reqs)[x].output|
    {
      hide Inv, Wf, SchedulerModel.TrySwapIn, PrefillWork, DecodeWork, Retire, Mirrored, KvCacheManager.View, KvCacheManager.Valid, Listing;
      StepTells(model, cfg, View());
      TrySwapIn();
      ghost var left;
      updated, left, ok := StepPrefillWork();
      EmptyListing(known);
      if !ok { return [], false; }
      var decoded := StepDecodeWork(updated);
      ListingConcat(updated, decoded, known);
      RetireFinished();
      return updated + decoded, true;
    }

    /** Steps until nothing is left, at most `maxSteps` times; false if a step raised. What it returns
        is each request that finished meanwhile, once, with the sequential decode of its prompt. */
    method RunToCompletion(maxSteps: nat) returns (finished: seq<Sequence>, ok: bool)
      requires Valid() && Inv(model, cfg, View(), {})
      modifies this, known.Values, cache, cache.allocator, cache.kv
      ensures Valid() && known == old(known) && Listing(finished, known)
      ensures (View(), ok) == SchedulerModel.RunToCompletion(model, cfg, old(View()), maxSteps)
      ensures IdsOf(finished) == Returned(model, cfg, old(View()), maxSteps)
      ensures NoDup(IdsOf(finished)) && (ok ==> forall x :: x in IdsOf(finished) <==> Finishes(old(reqs), reqs, x))
      ensures Transparent(model, View()) && forall i | 0 <= i < |finished| :: Served(model, reqs, finished[i].id)
    {
      hide Inv, Wf, SchedulerModel.Step, Mirrored, KvCacheManager.View, KvCacheManager.Valid, Listing, Transparent, WithStatus, Served;
      hide SchedulerModel.RunToCompletion, Returned, Finishes, HasUnfinished;
      finished, ok := [], true;
      EmptyListing(known);
      ghost var s := View();
      for i := 0 to maxSteps
        invariant Valid() && known == old(known) && Inv(model, cfg, View(), {}) && Listing(finished, known) && ok
        invariant SchedulerModel.RunToCompletion(model, cfg, View(), maxSteps - i) == SchedulerModel.RunToCompletion(model, cfg, s, maxSteps)
        invariant IdsOf(finished) + Returned(model, cfg, View(), maxSteps - i) == Returned(model, cfg, s, maxSteps)
      {
        var more := HasUnfinishedRequests();
        ghost var before := View();
        RunUnfolds(model, cfg, before, maxSteps - i);
        if !more { break; }
        var ended;
        ended, ok := StepAndSift();
        if !ok { break; }
        ListingConcat(finished, ended, known);
        Appended(IdsOf(finished), IdsOf(ended), Returned(model, cfg, View(), maxSteps - i - 1));
        finished := finished + ended;
      }
      RunEnds(model, cfg, View());
      assert IdsOf(finished) + [] == IdsOf(finished);
      RunReturnsOnce(model, cfg, s, maxSteps);
      InvIsTransparent(model, cfg, View(), {});
      ReturnedServed(s.reqs, finished);
    }

    /** One step, and who of those it reports is finished. */
    method StepAndSift() returns (ended: seq<Sequence>, ok: bool)
      requires Valid() && Inv(model, cfg, View(), {})
      modifies this, known.Values, cache, cache.allocator, cache.kv
      ensures Valid() && known == old(known) && Listing(ended, known)
      ensures var out := SchedulerModel.Step(model, cfg, old(View()));
              && (View(), ok) == (out.state, out.ok)
              && (ok ==> (forall i | 0 <= i < |out.updated| :: out.updated[i] in reqs) && IdsOf(ended) == WithStatus(reqs, out.updated, Finished))
    {
      hide Inv, Wf, SchedulerModel.Step, Mirrored, KvCacheManager.View, KvCacheManager.Valid, Listing, WithStatus;
      var updated;
      updated, ok := Step();
      ended := Having(updated, Finished);
    }

    lemma ReturnedServed(before: map<SeqId, Request>, finished: seq<Sequence>)
      requires Transparent(model, View()) && forall x | x in IdsOf(finished) :: Finishes(before, reqs, x)
      ensures forall i | 0 <= i < |finished| :: Served(model, reqs, finished[i].id)
    {
      hide KvCacheManager.View, Reference;
      forall i | 0 <= i < |finished| ensures Served(model, reqs, finished[i].id) {
        assert finished[i].id == IdsOf(finished)[i] && IdsOf(finished)[i] in IdsOf(finished);
      }
    }
  }

  /** Finished, with the sequential decode of its prompt. */
  ghost predicate Served(m: Model, reqs: map<SeqId, Request>, id: SeqId) {
    id in reqs && reqs[id].prompt != [] && reqs[id].status == Finished && reqs[id].output == Reference(m, reqs[id])
  }

  /** One round of `run_to_completion`. */
  lemma RunUnfolds(m: Model, cfg: Config, s: State, n: nat)
    requires Inv(m, cfg, s, {}) && n > 0
    ensures var out := SchedulerModel.Step(m, cfg, s);
            && (!HasUnfinished(s) || !out.ok ==>
                  Returned(m, cfg, s, n) == [] && SchedulerModel.RunToCompletion(m, cfg, s, n) == (if HasUnfinished(s) then (out.state, false) else (s, true)))
            && (HasUnfinished(s) && out.ok ==>
                  && SchedulerModel.RunToCompletion(m, cfg, s, n) == SchedulerModel.RunToCompletion(m, cfg, out.state, n - 1)
                  && (forall i | 0 <= i < |out.updated| :: out.updated[i] in out.state.reqs)
                  && Returned(m, cfg, s, n) == WithStatus(out.state.reqs, out.updated, Finished) + Returned(m, cfg, out.state, n - 1))
  {
    hide Inv, SchedulerModel.Step, WithStatus;
    if SchedulerModel.Step(m, cfg, s).ok { UpdatedKnown(m, cfg, s); }
  }

  lemma Appended(a: seq<SeqId>, b: seq<SeqId>, c: seq<SeqId>)
    ensures (a + b) + c == a + (b + c)
  {
  }

  lemma RunEnds(m: Model, cfg: Config, s: State)
    requires Inv(m, cfg, s, {})
    ensures Returned(m, cfg, s, 0) == [] && SchedulerModel.RunToCompletion(m, cfg, s, 0) == (s, true)
  {
  }

  /** A completed step reports exactly who gained a token. */
  lemma StepTells(m: Model, cfg: Config, s: State)
    requires Inv(m, cfg, s, {})
    ensures var out := SchedulerModel.Step(m, cfg, s);
            && out.state.reqs.Keys == s.reqs.Keys
            && (out.ok ==> NoDup(out.updated) && forall x | x in s.reqs ::
                  x in out.updated <==> |out.state.reqs[x].output| > |s.reqs[x].output|)
  {
    hide Inv, SchedulerModel.Step;
    StepFinishes(m, cfg, s);
    if SchedulerModel.Step(m, cfg, s).ok { StepReturnsGrown(m, cfg, s); }
  }

  lemma NothingToSpeculate(m: Model, cfg: Config, s: State, done: seq<SeqId>, regular: seq<SeqId>)
    requires Inv(m, cfg, s, {}) && Active(s, regular + [])
    ensures SpeculateActive(m, cfg, s, [], done, regular) == (s, done, regular)
  {
    hide Inv, Active;
  }

  lemma SpeculateActiveStep(m: Model, cfg: Config, s: State, active: seq<SeqId>, done: seq<SeqId>, regular: seq<SeqId>)
    requires Inv(m, cfg, s, {}) && Active(s, regular + active) && active != []
    requires active[0] in s.running && active[0] in s.reqs && s.reqs[active[0]].status == Running
    ensures var id, draft := active[0], DraftFor(cfg, s.reqs[active[0]]);
            && (draft != [] ==>
                  var (after, ok) := Speculate(m, cfg, s, id, draft);
                  && Inv(m, cfg, after, {}) && Active(after, regular + active[1..])
                  && SpeculateActive(m, cfg, s, active, done, regular)
                     == SpeculateActive(m, cfg, after, active[1..], if ok then done + [id] else done, regular))
            && (draft == [] ==>
                  && Active(s, regular + [id] + active[1..])
                  && SpeculateActive(m, cfg, s, active, done, regular)
                     == SpeculateActive(m, cfg, s, active[1..], done, regular + [id]))
  {
    hide Inv, Active, Speculate;
    var draft := DraftFor(cfg, s.reqs[active[0]]);
    if draft != [] {
      SpeculateHead(m, cfg, s, active, regular, draft);
    } else {
      assert (regular + [active[0]]) + active[1..] == regular + active;
    }
  }

  lemma NothingListed(reqs: map<SeqId, Request>, status: Status)
    ensures WithStatus(reqs, [], status) == [] && Unfinished(reqs, []) == []
  {
  }

  lemma NobodyActive(reqs: map<SeqId, Request>, completed: seq<SeqId>)
    ensures ActiveOf(reqs, [], completed) == []
  {
  }

  lemma WithStatusStep(reqs: map<SeqId, Request>, ids: seq<SeqId>, i: nat, status: Status)
    requires i < |ids| && forall j | 0 <= j < |ids| :: ids[j] in reqs
    ensures WithStatus(reqs, ids[..i + 1], status) ==
              if reqs[ids[i]].status == status then WithStatus(reqs, ids[..i], status) + [ids[i]] else WithStatus(reqs, ids[..i], status)
  {
    assert ids[..i + 1][..i] == ids[..i];
  }

  lemma ActiveOfStep(reqs: map<SeqId, Request>, ids: seq<SeqId>, i: nat, completed: seq<SeqId>)
    requires i < |ids| && forall j | 0 <= j < |ids| :: ids[j] in reqs
    ensures var before := ActiveOf(reqs, ids[..i], completed);
            ActiveOf(reqs, ids[..i + 1], completed) ==
              if reqs[ids[i]].status == Running && ids[i] !in completed then before + [ids[i]] else before
  {
    assert ids[..i + 1][..i] == ids[..i];
  }

  lemma UnfinishedStep(reqs: map<SeqId, Request>, ids: seq<SeqId>, i: nat)
    requires i < |ids| && forall j | 0 <= j < |ids| :: ids[j] in reqs
    ensures Unfinished(reqs, ids[..i + 1]) ==
              if reqs[ids[i]].status != Finished then Unfinished(reqs, ids[..i]) + [ids[i]] else Unfinished(reqs, ids[..i])
  {
    assert ids[..i + 1][..i] == ids[..i];
  }

  lemma EmptyListing(known: map<SeqId, Sequence>)
    ensures Listing([], known) && IdsOf([]) == []
  {
  }

  lemma ListingConcat(a: seq<Sequence>, b: seq<Sequence>, known: map<SeqId, Sequence>)
    requires Listing(a, known) && Listing(b, known)
    ensures Listing(a + b, known) && IdsOf(a + b) == IdsOf(a) + IdsOf(b)
  {
  }

  /** Among known objects, being listed is having one's id listed. */
  lemma KnownMember(list: seq<Sequence>, other: seq<Sequence>, k: nat, known: map<SeqId, Sequence>)
    requires Listing(list, known) && Listing(other, known) && k < |other|
    ensures other[k] in list <==> IdsOf(other)[k] in IdsOf(list)
  {
    var q := other[k];
    if q in list {
      var i :| 0 <= i < |list| && list[i] == q;
      assert IdsOf(list)[i] == q.id;
    }
  }

  lemma ReleaseNext(m: Model, cfg: Config, s: State, ids: seq<SeqId>, i: nat)
    requires Inv(m, cfg, s, {}) && NoDup(ids) && i < |ids| && forall x | x in ids :: x in s.running
    ensures NoDup(ids[..i]) && NoDup(ids[..i + 1])
    ensures (forall x | x in ids[..i] :: x in s.running) && (forall x | x in ids[..i + 1] :: x in s.running)
    ensures var before := Release(m, cfg, s, ids[..i]).cache;
            && Wf(before) && ids[i] in before.seqs
            && Release(m, cfg, s, ids[..i + 1]).cache == FreeSequence(before, ids[i])
  {
    hide Inv, FreeSequence, NoDup, Remove, Wf;
    FirstFew(ids, i, s.running);
    var before := Release(m, cfg, s, ids[..i]);
    ReleaseOne(m, cfg, before, ids[i]);
    assert ids[..i + 1][..i] == ids[..i] && ids[..i + 1][i] == ids[i];
  }

  lemma FirstFew(ids: seq<SeqId>, i: nat, running: seq<SeqId>)
    requires NoDup(ids) && i < |ids| && forall x | x in ids :: x in running
    ensures NoDup(ids[..i]) && NoDup(ids[..i + 1]) && ids[i] !in ids[..i] && ids[i] in running
    ensures (forall x | x in ids[..i] :: x in running) && (forall x | x in ids[..i + 1] :: x in running)
  {
    var x := ids[i];
    assert x in ids;
  }

  lemma RunningNoDup(m: Model, cfg: Config, s: State)
    requires Inv(m, cfg, s, {}) && forall i | 0 <= i < |s.running| :: s.running[i] in s.reqs
    ensures NoDup(WithStatus(s.reqs, s.running, Finished))
    ensures forall x | x in WithStatus(s.reqs, s.running, Finished) :: x in s.running
  {
    hide CacheOk, AllOnTrack, AllResident, AllSaved, OnePrefilling, WithStatus;
  }

  /** The verified state takes everything but the cache from before the pass. */
  lemma VerifiedElsewhere(s: State, mid: State, id: SeqId, draft: seq<Token>, c: Cache, predicted: seq<Token>)
    requires Wf(c) && id in s.reqs && id in c.seqs && |draft| < |predicted| && |draft| <= c.seqs[id].len
    requires mid == s.(cache := c)
    ensures VerifiedState(mid, id, draft, c, predicted) == VerifiedState(s, id, draft, c, predicted)
    ensures VerifiedState(s, id, draft, c, predicted).1
  {
    hide Wf, PagedKvCache.Rollback, AppendUntilDone, MatchedFrom;
  }

  lemma RunningIsThere(m: Model, cfg: Config, s: State, id: SeqId)
    requires Inv(m, cfg, s, {}) && id in s.running && id in s.reqs && s.reqs[id].status == Running
    ensures id in s.cache.seqs && s.reqs[id].prompt != []
  {
    hide Inv;
    RunningFacts(m, cfg, s, id, {});
    RequestPrompt(m, s.reqs[id]);
  }

  lemma BatchIsDistinct(m: Model, cfg: Config, s: State, ids: seq<SeqId>)
    requires Retrying(m, cfg, s, ids)
    ensures NoDup(ids) && Active(s, ids)
  {
    hide Inv;
  }

  lemma VictimIsRunning(m: Model, cfg: Config, s: State, ids: seq<SeqId>)
    requires Retrying(m, cfg, s, ids) && ids != [] && !DecodeOnce(m, cfg, s, ids).1
    ensures ids[|ids| - 1] in DecodeOnce(m, cfg, s, ids).0.running
  {
    hide Inv, DecodeOnce;
    DecodeOnceKeeps(m, cfg, s, ids);
  }

  lemma PrefillingList(m: Model, cfg: Config, s: State)
    requires Inv(m, cfg, s, {}) && cfg.budget.Some? && forall i | 0 <= i < |s.running| :: s.running[i] in s.reqs
    ensures InFlight(s, WithStatus(s.reqs, s.running, Prefilling), cfg.budget.value)
  {
    hide CacheOk, AllOnTrack, AllResident, AllSaved, WithStatus;
  }

  lemma SwappedHead(m: Model, cfg: Config, s: State)
    requires Inv(m, cfg, s, {}) && HeadFits(s)
    ensures var id := s.swapped[0];
            && Wf(s.cache) && id in s.reqs && Rows(s.cache.host[id].blocks, s.cache.blockSize)
            && PagedKvCache.SwapIn(s.cache, id).1
  {
    hide Faithful, Resident, OnTrack, Counted, FreeExact, SharedIndexed, TablesDistinct, PagedKvCache.SwapIn, BlocksFor;
    var id := s.swapped[0];
    SnapshotRows(m, s, id);
    SwapInSucceedsIff(s.cache, id);
    assert HostHolds(m, s.cache.blockSize, s.cache.host[id], Saved(s.reqs, s.cache.host)[id]);
  }

  lemma RunningIsCached(m: Model, cfg: Config, s: State, id: SeqId)
    requires Inv(m, cfg, s, {})
    ensures Wf(s.cache) && (id in s.running ==> id in s.cache.seqs)
  {
    hide Inv;
    ListFacts(m, cfg, s);
    RunningCached(s, id);
  }

  lemma {:induction false} RemoveAt(ids: seq<SeqId>, k: nat)
    requires k < |ids| && ids[k] !in ids[..k]
    ensures Remove(ids, ids[k]) == ids[..k] + ids[k + 1..]
  {
    if k > 0 {
      assert ids[..k][0] == ids[0];
      assert ids[1..][..k - 1] == ids[1..k];
      assert forall x | x in ids[1..k] :: x in ids[..k];
      RemoveAt(ids[1..], k - 1);
      assert ids[1..][k..] == ids[k + 1..];
      assert [ids[0]] + (ids[1..k] + ids[k + 1..]) == ids[..k] + ids[k + 1..];
    }
  }
}
