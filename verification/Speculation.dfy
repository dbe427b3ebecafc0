/** Speculative decoding: verifying a draft appends exactly what plain decoding would. */
module Speculation {
  import opened LanguageModel
  import opened Options
  import opened Positions
  import opened PagedKvCache
  import opened CacheInvariant
  import opened CacheOperations
  import opened ModelRunner
  import opened Requests
  import opened SchedulerState
  import opened SchedulerSteps
  import opened SchedulerDecode

  /** How many draft tokens the predictions confirm, counting from `from`. */
  function MatchedFrom(predicted: seq<Token>, draft: seq<Token>, from: nat): (k: nat)
    requires from <= |draft| < |predicted|
    ensures from <= k <= |draft|
    ensures forall i | from <= i < k :: predicted[i] == draft[i]
    ensures k < |draft| ==> predicted[k] != draft[k]
    decreases |draft| - from
  {
    if from < |draft| && predicted[from] == draft[from] then MatchedFrom(predicted, draft, from + 1) else from
  }

  /** The confirmed draft tokens and one more: the correction, or the bonus token. */
  function Accepted(predicted: seq<Token>, draft: seq<Token>): (r: seq<Token>)
    requires |draft| < |predicted|
    ensures r != []
  {
    var k := MatchedFrom(predicted, draft, 0);
    draft[..k] + [predicted[k]]
  }

  /** Appends tokens until the request finishes; also how many were appended. */
  function AppendUntilDone(r: Request, tokens: seq<Token>): (a: (Request, nat))
    ensures a.1 <= |tokens| && (tokens != [] ==> a.1 >= 1)
    decreases |tokens|
  {
    if tokens == [] then (r, 0)
    else
      var next := AppendToken(r, tokens[0]);
      if next.status == Finished then (next, 1)
      else
        var rest := AppendUntilDone(next, tokens[1..]);
        (rest.0, rest.1 + 1)
  }

  /** Each token is the greedy one after the history and the tokens before it. */
  ghost predicate GreedyRun(m: Model, history: seq<Token>, tokens: seq<Token>)
    requires history != []
  {
    forall j | 0 <= j < |tokens| :: tokens[j] == Next(m, history + tokens[..j])
  }

  /** Whatever was drafted, the accepted tokens are the greedy continuation. */
  lemma AcceptedIsGreedy(m: Model, history: seq<Token>, cached: seq<Token>, last: Token, draft: seq<Token>, predicted: seq<Token>)
    requires history == cached + [last] && PredictsNext(m, cached, [last] + draft, predicted)
    ensures GreedyRun(m, history, Accepted(predicted, draft))
  {
    hide Next;
    var accepted := Accepted(predicted, draft);
    forall j | 0 <= j < |accepted| ensures accepted[j] == Next(m, history + accepted[..j]) {
      AcceptedAt(m, history, cached, last, draft, predicted, j);
    }
  }

  lemma AcceptedAt(m: Model, history: seq<Token>, cached: seq<Token>, last: Token, draft: seq<Token>, predicted: seq<Token>, j: nat)
    requires history == cached + [last] && PredictsNext(m, cached, [last] + draft, predicted)
    requires j < |Accepted(predicted, draft)|
    ensures Accepted(predicted, draft)[j] == Next(m, history + Accepted(predicted, draft)[..j])
  {
    hide Next;
    var chunk, accepted := [last] + draft, Accepted(predicted, draft);
    assert predicted[j] == Next(m, cached + chunk[..j + 1]);
    assert accepted[..j] == draft[..j];
    assert cached + chunk[..j + 1] == history + accepted[..j];
  }

  lemma GreedyRunTail(m: Model, history: seq<Token>, tokens: seq<Token>)
    requires history != [] && tokens != [] && GreedyRun(m, history, tokens)
    ensures tokens[0] == Next(m, history)
    ensures GreedyRun(m, history + [tokens[0]], tokens[1..])
  {
    hide Next;
    var rest, longer := tokens[1..], history + [tokens[0]];
    assert tokens[0] == Next(m, history + tokens[..0]);
    assert history + tokens[..0] == history;
    forall j | 0 <= j < |rest| ensures rest[j] == Next(m, longer + rest[..j]) {
      assert tokens[j + 1] == Next(m, history + tokens[..j + 1]);
      assert history + tokens[..j + 1] == longer + rest[..j];
    }
  }

  /** A greedy run keeps a request on track, token by token, and stops where it finishes. */
  lemma {:induction false} AppendUntilDoneOnTrack(m: Model, r: Request, tokens: seq<Token>)
    requires OnTrack(m, r) && History(r) != [] && r.status == Running && tokens != [] && GreedyRun(m, History(r), tokens)
    ensures
      var (a, kept) := AppendUntilDone(r, tokens);
      && OnTrack(m, a) && a.status in {Running, Finished}
      && a == r.(output := r.output + tokens[..kept], status := a.status)
      && (a.status == Running ==> kept == |tokens|)
    decreases |tokens|
  {
    hide OnTrack, Next, GreedyRun;
    RequestPrompt(m, r);
    GreedyRunTail(m, History(r), tokens);
    AppendOnTrack(m, r, tokens[0]);
    var next, rest := AppendToken(r, tokens[0]), tokens[1..];
    assert tokens[..1] == [tokens[0]];
    if next.status != Finished && rest != [] {
      assert History(next) == History(r) + [tokens[0]];
      AppendUntilDoneOnTrack(m, next, rest);
      var kept := AppendUntilDone(next, rest).1;
      assert tokens[..kept + 1] == [tokens[0]] + rest[..kept];
    }
  }

  /** Verifies a draft in one pass; false is the caught out-of-memory error, which preempts. */
  function Speculate(m: Model, cfg: Config, s: State, id: SeqId, draft: seq<Token>): (State, bool)
    requires Inv(m, cfg, s, {}) && id in s.running && s.reqs[id].status == Running
  {
    RunningFacts(m, cfg, s, id, {});
    var r := s.reqs[id];
    var (c, predictions) := ContinuePrefill(m, s.cache, id, [LastToken(r)] + draft);
    match predictions
    case None => (Preempt(cfg, s.(cache := c), id), false)
    case Some(predicted) =>
      VerifiedState(s, id, draft, c, predicted)
  }

  /** A verified draft of any content: one or more tokens of the greedy continuation, finishing
      where plain decoding would, and the invariant again after the rollback; or, for lack of blocks,
      the request back at the front of the queue without its work. */
  ghost predicate SpeculateOutcome(m: Model, cfg: Config, s: State, id: SeqId, out: (State, bool)) {
    var (after, ok) := out;
    && Inv(m, cfg, after, {})
    && id in s.reqs && id in after.reqs && s.reqs[id].prompt != []
    && after.reqs == s.reqs[id := after.reqs[id]]
    && (ok ==>
          && after.running == s.running && after.waiting == s.waiting && after.swapped == s.swapped
          && after.reqs[id].status in {Running, Finished}
          && |after.reqs[id].output| > |s.reqs[id].output| && s.reqs[id].output <= after.reqs[id].output
          && after.reqs[id].output == Greedy(m, s.reqs[id].prompt, |after.reqs[id].output|))
    && (!ok ==>
          && after.reqs[id] == Evicted(cfg, s.reqs[id]) && after.waiting == [id] + s.waiting && after.swapped == s.swapped
          && id !in after.running && forall x | x != id :: x in after.running <==> x in s.running)
  }

  lemma SpeculateKeeps(m: Model, cfg: Config, s: State, id: SeqId, draft: seq<Token>)
    requires Inv(m, cfg, s, {}) && id in s.running && s.reqs[id].status == Running && cfg.speculate
    ensures SpeculateOutcome(m, cfg, s, id, Speculate(m, cfg, s, id, draft))
  {
    hide Counted, FreeExact, SharedIndexed, TablesDistinct, Faithful, HostFaithful, OnTrack, Resident, ContinuePrefill, NoDup;
    hide Hist, PrivateFrom, BlocksFor, Passed, Wf, SpeculateOutcome, VerifiedState, Preempt;
    RunningFacts(m, cfg, s, id, {});
    var r, chunk := s.reqs[id], [LastToken(s.reqs[id])] + draft;
    ContinuePrefillKeeps(m, s.cache, Hist(s.reqs, s.cache.seqs), id, chunk);
    var p := ContinuePrefill(m, s.cache, id, chunk);
    if p.1.None? {
      SpeculateFailed(m, cfg, s, id, chunk, p);
    } else {
      SpeculateVerified(m, cfg, s, id, draft, p);
    }
  }

  lemma SpeculateFailed(m: Model, cfg: Config, s: State, id: SeqId, chunk: seq<Token>, p: (Cache, Option<seq<Token>>))
    requires Inv(m, cfg, s, {}) && id in s.running && s.reqs[id].status == Running && cfg.speculate
    requires id in s.cache.seqs && Passed(m, s.cache, Hist(s.reqs, s.cache.seqs), id, chunk, p) && p.1.None?
    requires p.0 == s.cache.(free := p.0.free, refs := p.0.refs, store := p.0.store, seqs := s.cache.seqs[id := p.0.seqs[id]])
    ensures id in p.0.seqs && Wf(p.0) && SpeculateOutcome(m, cfg, s, id, (Preempt(cfg, s.(cache := p.0), id), false))
  {
    hide Counted, FreeExact, SharedIndexed, TablesDistinct, Wf, Faithful, HostFaithful, OnTrack, NoDup, PrivateFrom, BlocksFor, Remove;
    hide PredictsNext, InjectiveHash;
    RunningFacts(m, cfg, s, id, {});
    RequestPrompt(m, s.reqs[id]);
    ChunkHist(s.reqs, s.cache.seqs, id, p.0.seqs[id]);
    PassedLength(m, s.cache, Hist(s.reqs, s.cache.seqs), id, chunk, p);
    OthersAfterPass(cfg, s, id, p.0);
    hide Resident, Hist;
    var mid := s.(cache := p.0);
    assert Inv(m, cfg, mid, {});
    PreemptKeeps(m, cfg, mid, id, {});
    RemoveDistinct(s.running, id);
  }

  lemma SpeculateVerified(m: Model, cfg: Config, s: State, id: SeqId, draft: seq<Token>, p: (Cache, Option<seq<Token>>))
    requires Inv(m, cfg, s, {}) && id in s.running && s.reqs[id].status == Running && cfg.speculate
    requires id in s.cache.seqs && p.1.Some? && Wf(p.0) && s.reqs[id].prompt != []
    requires Passed(m, s.cache, Hist(s.reqs, s.cache.seqs), id, [LastToken(s.reqs[id])] + draft, p)
    requires p.0 == s.cache.(free := p.0.free, refs := p.0.refs, store := p.0.store, seqs := s.cache.seqs[id := p.0.seqs[id]])
    requires |p.1.value| == |draft| + 1 && p.0.seqs[id].len == s.cache.seqs[id].len + |draft| + 1
    ensures SpeculateOutcome(m, cfg, s, id, VerifiedState(s, id, draft, p.0, p.1.value))
  {
    hide Inv, Passed, Wf, Rollback, Accepted, MatchedFrom, AppendUntilDone, OnTrack, Hist, Greedy, RunningRow;
    RunningFacts(m, cfg, s, id, {});
    VerifiedStart(m, cfg, s, id, draft, p);
    var r, accepted := s.reqs[id], Accepted(p.1.value, draft);
    VerifiedGrows(m, cfg, s, id, draft, p);
    VerifiedKeeps(m, cfg, s, id, draft, p);
    OnTrackOutput(m, AppendUntilDone(r, accepted).0);
  }

  /** What is appended continues the greedy decode, by at least one token. */
  lemma VerifiedGrows(m: Model, cfg: Config, s: State, id: SeqId, draft: seq<Token>, p: (Cache, Option<seq<Token>>))
    requires Inv(m, cfg, s, {}) && id in s.running && s.reqs[id].status == Running
    requires id in s.cache.seqs && p.1.Some?
    requires Passed(m, s.cache, Hist(s.reqs, s.cache.seqs), id, [LastToken(s.reqs[id])] + draft, p)
    requires |p.1.value| == |draft| + 1
    ensures var r, accepted := s.reqs[id], Accepted(p.1.value, draft);
            var (a, kept) := AppendUntilDone(r, accepted);
            && 1 <= kept <= |accepted|
            && OnTrack(m, a) && a.status in {Running, Finished}
            && a == r.(output := r.output + accepted[..kept], status := a.status)
            && (a.status == Running ==> kept == |accepted|)
  {
    hide Counted, FreeExact, SharedIndexed, TablesDistinct, Wf, Faithful, HostFaithful, OnTrack, NoDup, PrivateFrom, BlocksFor, Next;
    hide Resident, InjectiveHash, PredictsNext, Listed, OnePrefilling, AllSaved, Accepted, AppendUntilDone, Hist, GreedyRun, CacheOk;
    RunningFacts(m, cfg, s, id, {});
    var r, predicted := s.reqs[id], p.1.value;
    AcceptedIsGreedy(m, History(r), Hist(s.reqs, s.cache.seqs)[id], LastToken(r), draft, predicted);
    AppendUntilDoneOnTrack(m, r, Accepted(predicted, draft));
  }

  /** After the rollback the invariant holds again. */
  lemma VerifiedKeeps(m: Model, cfg: Config, s: State, id: SeqId, draft: seq<Token>, p: (Cache, Option<seq<Token>>))
    requires Inv(m, cfg, s, {}) && id in s.running && s.reqs[id].status == Running && cfg.speculate
    requires id in s.cache.seqs && p.1.Some? && Wf(p.0) && s.reqs[id].prompt != []
    requires Passed(m, s.cache, Hist(s.reqs, s.cache.seqs), id, [LastToken(s.reqs[id])] + draft, p)
    requires p.0 == s.cache.(free := p.0.free, refs := p.0.refs, store := p.0.store, seqs := s.cache.seqs[id := p.0.seqs[id]])
    requires |p.1.value| == |draft| + 1 && p.0.seqs[id].len == s.cache.seqs[id].len + |draft| + 1
    ensures Inv(m, cfg, VerifiedState(s, id, draft, p.0, p.1.value).0, {})
  {
    hide Inv, Passed, Sound, Faithful, Wf, OnTrack, PrivateFrom, PrivacyKept, Rollback, Accepted, MatchedFrom, AppendUntilDone, Hist;
    VerifiedGrows(m, cfg, s, id, draft, p);
    VerifiedStart(m, cfg, s, id, draft, p);
    var r, predicted := s.reqs[id], p.1.value;
    var hist := Hist(s.reqs, s.cache.seqs);
    var (a, kept) := AppendUntilDone(r, Accepted(predicted, draft));
    var matched := MatchedFrom(predicted, draft, 0);
    var rollback := |draft| - (if kept <= matched then kept else matched);
    var c := if rollback > 0 then Rollback(p.0, id, rollback) else p.0;
    VerifiedCache(m, s, id, p.0, hist, History(r) + draft, rollback);
    VerifiedText(r, predicted, draft, a, kept, rollback);
    VerifiedPrivacy(s.cache, p.0, c, id);
    VerifiedInv(m, cfg, s, id, c, a);
  }

  /** Right after the pass: the whole draft is cached behind the history. */
  lemma VerifiedStart(m: Model, cfg: Config, s: State, id: SeqId, draft: seq<Token>, p: (Cache, Option<seq<Token>>))
    requires Inv(m, cfg, s, {}) && id in s.running && s.reqs[id].status == Running
    requires id in s.cache.seqs && p.1.Some? && id in p.0.seqs && p.0.blockSize == s.cache.blockSize
    requires Passed(m, s.cache, Hist(s.reqs, s.cache.seqs), id, [LastToken(s.reqs[id])] + draft, p)
    ensures id in s.reqs && s.reqs[id].prompt != [] && s.reqs[id].output != [] && p.0.blockSize >= 1
    ensures Sound(p.0, {}) && Faithful(m, p.0, Hist(s.reqs, s.cache.seqs)[id := History(s.reqs[id]) + draft])
    ensures PrivateFrom(p.0.info, p.0.seqs[id].table, |s.reqs[id].prompt| / p.0.blockSize) && PrivacyKept(s.cache, p.0)
  {
    hide Counted, FreeExact, SharedIndexed, TablesDistinct, Wf, Faithful, HostFaithful, OnTrack, NoDup, PrivateFrom, BlocksFor;
    hide Resident, InjectiveHash, PredictsNext, Listed, OnePrefilling, AllSaved, Hist, CacheOk, AllOnTrack, AllResident;
    RunningFacts(m, cfg, s, id, {});
    assert Hist(s.reqs, s.cache.seqs)[id] + ([LastToken(s.reqs[id])] + draft) == History(s.reqs[id]) + draft;
  }

  /** A rollback changes no table. */
  lemma VerifiedPrivacy(before: Cache, c: Cache, after: Cache, id: SeqId)
    requires PrivacyKept(before, c) && id in c.seqs && id in after.seqs
    requires after == c.(seqs := c.seqs[id := c.seqs[id].(len := after.seqs[id].len)])
    ensures PrivacyKept(before, after)
  {
    hide PrivateFrom;
  }

  function VerifiedState(s: State, id: SeqId, draft: seq<Token>, c: Cache, predicted: seq<Token>): (State, bool)
    requires Wf(c) && id in s.reqs && id in c.seqs && |draft| < |predicted| && |draft| <= c.seqs[id].len
  {
    var matched := MatchedFrom(predicted, draft, 0);
    var (a, kept) := AppendUntilDone(s.reqs[id], Accepted(predicted, draft));
    var rollback := |draft| - (if kept <= matched then kept else matched);
    (s.(reqs := s.reqs[id := a], cache := if rollback > 0 then Rollback(c, id, rollback) else c), true)
  }

  lemma OnTrackOutput(m: Model, r: Request)
    requires OnTrack(m, r)
    ensures r.prompt != [] && r.output == Greedy(m, r.prompt, |r.output|)
  {
  }

  /** What is left after the rollback: the history and the draft, cut. */
  lemma VerifiedCache(m: Model, s: State, id: SeqId, c: Cache, hist: map<SeqId, seq<Token>>, text: seq<Token>, rollback: nat)
    requires Sound(c, {}) && Faithful(m, c, hist[id := text]) && id in s.reqs && id in c.seqs
    requires rollback <= |text| && |text| - rollback >= |s.reqs[id].prompt| && c.blockSize >= 1
    requires PrivateFrom(c.info, c.seqs[id].table, |s.reqs[id].prompt| / c.blockSize)
    ensures Wf(c) && c.seqs[id].len == |text|
    ensures
      var after := if rollback > 0 then Rollback(c, id, rollback) else c;
      && Sound(after, {}) && Faithful(m, after, hist[id := text[..|text| - rollback]])
      && after == c.(seqs := c.seqs[id := c.seqs[id].(len := |text| - rollback)])
  {
    hide Counted, FreeExact, SharedIndexed, TablesDistinct, Filed, PrivateFrom;
    DivMonotone(|s.reqs[id].prompt|, |text| - rollback, c.blockSize);
    PrivateLater(c.info, c.seqs[id].table, |s.reqs[id].prompt| / c.blockSize, (|text| - rollback) / c.blockSize);
    if rollback > 0 {
      RollbackKeeps(m, c, hist[id := text], id, rollback);
      assert hist[id := text][id := text[..|text| - rollback]] == hist[id := text[..|text| - rollback]];
    } else {
      assert text[..|text| - rollback] == text;
      assert c.seqs[id := c.seqs[id].(len := |text|)] == c.seqs;
    }
  }

  /** The cut text is the new history's prefix, all but its last token while still running. */
  lemma VerifiedText(r: Request, predicted: seq<Token>, draft: seq<Token>, a: Request, kept: nat, rollback: nat)
    requires |draft| < |predicted|
    requires var accepted := Accepted(predicted, draft);
             && kept <= |accepted| && a.prompt == r.prompt && a.output == r.output + accepted[..kept]
             && (a.status == Running ==> kept == |accepted|)
    requires var matched := MatchedFrom(predicted, draft, 0);
             rollback == |draft| - (if kept <= matched then kept else matched)
    ensures
      var len := |History(r)| + |draft| - rollback;
      && |History(r)| <= len <= |History(a)|
      && (History(r) + draft)[..len] == Prefix(History(a), len)
      && (a.status == Running ==> len == |History(a)| - 1)
  {
    var matched, accepted := MatchedFrom(predicted, draft, 0), Accepted(predicted, draft);
    var q := if kept <= matched then kept else matched;
    assert accepted[..q] == draft[..q];
    assert History(a) == History(r) + accepted[..kept];
    assert (History(r) + draft)[..|History(r)| + q] == History(r) + draft[..q];
    assert History(a)[..|History(r)| + q] == History(r) + accepted[..q];
  }

  lemma VerifiedInv(m: Model, cfg: Config, s: State, id: SeqId, c: Cache, a: Request)
    requires Inv(m, cfg, s, {}) && id in s.running && s.reqs[id].status == Running && cfg.speculate
    requires OnTrack(m, a) && a.status in {Running, Finished} && a.output != [] && a.prompt == s.reqs[id].prompt
    requires id in s.cache.seqs && id in c.seqs && c.seqs[id].len <= |History(a)|
    requires a.status == Running ==> c.seqs[id].len == |History(a)| - 1
    requires Sound(c, {}) && Faithful(m, c, Hist(s.reqs, s.cache.seqs)[id := Prefix(History(a), c.seqs[id].len)])
    requires c == s.cache.(free := c.free, refs := c.refs, store := c.store, seqs := s.cache.seqs[id := c.seqs[id]])
    requires c.blockSize >= 1 && PrivateFrom(c.info, c.seqs[id].table, |a.prompt| / c.blockSize) && PrivacyKept(s.cache, c)
    ensures Inv(m, cfg, s.(reqs := s.reqs[id := a], cache := c), {})
  {
    hide Sound, Faithful, HostFaithful, OnTrack, NoDup, PrivateFrom, BlocksFor, InjectiveHash;
    HistUpdate(s.reqs, s.cache.seqs, id, a, c.seqs[id]);
    NotSwapped(s, id);
    SavedElsewhere(s.reqs, s.cache.host, id, a);
    var after := s.(reqs := s.reqs[id := a], cache := c);
    FirstTokenOthers(m, cfg, s, id, after);
  }
}
