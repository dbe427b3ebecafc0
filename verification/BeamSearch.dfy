/** Beam search (beam_search.py): the step as a function of a group's state, what its pruning keeps,
    when it ends, and that one beam is greedy decoding. */
module BeamSearch {
  import opened LanguageModel
  import opened Options
  import opened CacheInvariant
  import opened PagedKvCache
  import opened Requests
  import opened SchedulerRuns

  datatype Beam = Beam(tokens: seq<Token>, cum: real)

  /** What a request fixes: `norm` is what a length is divided by, the length to the penalty's power. */
  datatype Params = Params(prompt: seq<Token>, maxNew: nat, numBeams: nat, eos: Option<Token>, stops: set<Token>, norm: nat -> real)

  datatype Group = Group(beams: seq<Beam>, finished: seq<Beam>, result: Option<seq<Token>>, stopped: bool)

  /** A next token for a beam, with the cumulative log-probability it would give. */
  datatype Candidate = Candidate(score: real, parent: nat, token: nat)

  // ---- the top k of a distribution ----

  /** The best index not in `used`, the first among equals, looking from i on. */
  function BestFrom(xs: seq<real>, used: seq<nat>, i: nat, best: Option<nat>): (r: Option<nat>)
    requires i <= |xs| && (best.Some? ==> best.value < i && best.value !in used)
    requires forall t | 0 <= t < i && t !in used :: best.Some? && xs[best.value] >= xs[t]
    ensures r.Some? ==> r.value < |xs| && r.value !in used
    ensures forall t | 0 <= t < |xs| && t !in used :: r.Some? && xs[r.value] >= xs[t]
    decreases |xs| - i
  {
    if i == |xs| then best
    else BestFrom(xs, used, i + 1, if i !in used && (best.None? || xs[i] > xs[best.value]) then Some(i) else best)
  }

  lemma Unused(n: nat, used: seq<nat>)
    requires |used| < n && NoDup(used)
    ensures exists t: nat :: t < n && t !in used
  {
    DistinctSize(used);
    if forall t: nat | t < n :: t in used {
      RangeAtMost(n, Elems(used));
    }
  }

  lemma RangeAtMost(n: nat, s: set<nat>)
    requires Range(n) <= s
    ensures n <= |s|
  {
    assert s == Range(n) + (s - Range(n));
  }

  /** The k best indices, best first. */
  function TopK(xs: seq<real>, k: nat): (r: seq<nat>)
    requires k <= |xs|
    ensures |r| == k && NoDup(r) && forall j | 0 <= j < k :: r[j] < |xs|
    ensures forall j, t | 0 <= j < k && 0 <= t < |xs| && t !in r :: xs[r[j]] >= xs[t]
  {
    if k == 0 then []
    else
      var before := TopK(xs, k - 1);
      Unused(|xs|, before);
      var next := BestFrom(xs, before, 0, None).value;
      before + [next]
  }

  // ---- the candidates of a step ----

  /** Log-probabilities after a history, over a vocabulary at least as large as the beam count. */
  ghost predicate Distribution(lp: seq<Token> -> seq<real>, V: nat) {
    forall h :: |lp(h)| == V
  }

  function Score(lp: seq<Token> -> seq<real>, beam: Beam, t: nat): real
    requires t < |lp(beam.tokens)|
  {
    beam.cum + lp(beam.tokens)[t]
  }

  /** One beam's own top tokens. */
  function BeamCandidates(lp: seq<Token> -> seq<real>, beams: seq<Beam>, i: nat, k: nat): (r: seq<Candidate>)
    requires i < |beams| && k <= |lp(beams[i].tokens)|
    ensures |r| == k
    ensures forall j | 0 <= j < k :: r[j].parent == i && r[j].token < |lp(beams[i].tokens)| && r[j].score == Score(lp, beams[i], r[j].token)
  {
    var top := TopK(lp(beams[i].tokens), k);
    seq(k, j requires 0 <= j < k => Candidate(Score(lp, beams[i], top[j]), i, top[j]))
  }

  /** The first n beams' candidates, in order. */
  function Candidates(lp: seq<Token> -> seq<real>, beams: seq<Beam>, n: nat, k: nat): (r: seq<Candidate>)
    requires n <= |beams| && forall i | 0 <= i < |beams| :: k <= |lp(beams[i].tokens)|
    ensures |r| == n * k
  {
    if n == 0 then []
    else Candidates(lp, beams, n - 1, k) + BeamCandidates(lp, beams, n - 1, k)
  }

  /** Every candidate is a real one: of an active beam, in the vocabulary, with its own score. */
  ghost predicate Genuine(lp: seq<Token> -> seq<real>, beams: seq<Beam>, c: Candidate) {
    c.parent < |beams| && c.token < |lp(beams[c.parent].tokens)| && c.score == Score(lp, beams[c.parent], c.token)
  }

  lemma {:induction false} CandidatesGenuine(lp: seq<Token> -> seq<real>, beams: seq<Beam>, n: nat, k: nat)
    requires n <= |beams| && forall i | 0 <= i < |beams| :: k <= |lp(beams[i].tokens)|
    ensures forall c | c in Candidates(lp, beams, n, k) :: Genuine(lp, beams, c) && c.parent < n
  {
    if n > 0 {
      CandidatesGenuine(lp, beams, n - 1, k);
    }
  }

  // ---- sorting ----

  /** Puts a candidate behind all that score at least as high: a stable descending sort. */
  function Insert(c: Candidate, sorted: seq<Candidate>): (r: seq<Candidate>)
    ensures multiset(r) == multiset(sorted) + multiset{c}
  {
    if sorted == [] || c.score > sorted[0].score then
      assert [c] + sorted == [c] + sorted;
      [c] + sorted
    else
      assert sorted == [sorted[0]] + sorted[1..];
      [sorted[0]] + Insert(c, sorted[1..])
  }

  function SortDescending(cs: seq<Candidate>): (r: seq<Candidate>)
    ensures multiset(r) == multiset(cs)
  {
    if cs == [] then []
    else
      assert cs == cs[..|cs| - 1] + [cs[|cs| - 1]];
      Insert(cs[|cs| - 1], SortDescending(cs[..|cs| - 1]))
  }

  predicate Descending(cs: seq<Candidate>) {
    forall i, j | 0 <= i < j < |cs| :: cs[i].score >= cs[j].score
  }

  lemma {:induction false} InsertDescending(c: Candidate, sorted: seq<Candidate>)
    requires Descending(sorted)
    ensures Descending(Insert(c, sorted))
    decreases |sorted|
  {
    if sorted != [] && c.score <= sorted[0].score {
      InsertDescending(c, sorted[1..]);
      var rest := Insert(c, sorted[1..]);
      assert multiset(rest) == multiset(sorted[1..]) + multiset{c};
      forall j | 0 <= j < |rest| ensures rest[j].score <= sorted[0].score {
        assert rest[j] in multiset(rest);
        if rest[j] != c { assert rest[j] in sorted[1..]; }
      }
    }
  }

  lemma {:induction false} SortedDescending(cs: seq<Candidate>)
    ensures Descending(SortDescending(cs))
    decreases |cs|
  {
    if cs != [] {
      SortedDescending(cs[..|cs| - 1]);
      InsertDescending(cs[|cs| - 1], SortDescending(cs[..|cs| - 1]));
    }
  }

  // ---- pruning loses nothing ----

  ghost function CountAtLeast(cs: seq<Candidate>, x: real): nat {
    if cs == [] then 0 else CountAtLeast(cs[..|cs| - 1], x) + if cs[|cs| - 1].score >= x then 1 else 0
  }

  lemma {:induction false} CountConcat(a: seq<Candidate>, b: seq<Candidate>, x: real)
    ensures CountAtLeast(a + b, x) == CountAtLeast(a, x) + CountAtLeast(b, x)
    decreases |b|
  {
    if b == [] {
      assert a + b == a;
    } else {
      assert (a + b)[..|a + b| - 1] == a + b[..|b| - 1];
      CountConcat(a, b[..|b| - 1], x);
    }
  }

  lemma {:induction false} CountInsert(c: Candidate, sorted: seq<Candidate>, x: real)
    ensures CountAtLeast(Insert(c, sorted), x) == CountAtLeast(sorted, x) + if c.score >= x then 1 else 0
    decreases |sorted|
  {
    CountConcat([c], sorted, x);
    assert [c][..0] == [];
    if sorted != [] && c.score <= sorted[0].score {
      CountInsert(c, sorted[1..], x);
      assert sorted == [sorted[0]] + sorted[1..];
      CountConcat([sorted[0]], sorted[1..], x);
      CountConcat([sorted[0]], Insert(c, sorted[1..]), x);
    }
  }

  lemma {:induction false} CountSorted(cs: seq<Candidate>, x: real)
    ensures CountAtLeast(SortDescending(cs), x) == CountAtLeast(cs, x)
    decreases |cs|
  {
    if cs != [] {
      CountSorted(cs[..|cs| - 1], x);
      CountInsert(cs[|cs| - 1], SortDescending(cs[..|cs| - 1]), x);
    }
  }

  /** In a descending list the ones that reach x come first. */
  lemma {:induction false} CountReaches(cs: seq<Candidate>, x: real, k: nat)
    requires Descending(cs) && 1 <= k <= CountAtLeast(cs, x)
    ensures k <= |cs| && cs[k - 1].score >= x
    decreases |cs|
  {
    if cs[|cs| - 1].score >= x {
      CountAtMost(cs, x);
    } else {
      CountReaches(cs[..|cs| - 1], x, k);
    }
  }

  lemma {:induction false} CountAtMost(cs: seq<Candidate>, x: real)
    ensures CountAtLeast(cs, x) <= |cs|
    decreases |cs|
  {
    if cs != [] { CountAtMost(cs[..|cs| - 1], x); }
  }

  lemma {:induction false} CountAll(cs: seq<Candidate>, x: real)
    requires forall j | 0 <= j < |cs| :: cs[j].score >= x
    ensures CountAtLeast(cs, x) == |cs|
    decreases |cs|
  {
    if cs != [] { CountAll(cs[..|cs| - 1], x); }
  }

  /** Beam i's own candidates are among all of them. */
  lemma {:induction false} CountOfBeam(lp: seq<Token> -> seq<real>, beams: seq<Beam>, n: nat, k: nat, i: nat, x: real)
    requires i < n <= |beams| && forall j | 0 <= j < |beams| :: k <= |lp(beams[j].tokens)|
    ensures CountAtLeast(Candidates(lp, beams, n, k), x) >= CountAtLeast(BeamCandidates(lp, beams, i, k), x)
  {
    hide BeamCandidates, CountAtLeast;
    assert Candidates(lp, beams, n, k) == Candidates(lp, beams, n - 1, k) + BeamCandidates(lp, beams, n - 1, k);
    CountConcat(Candidates(lp, beams, n - 1, k), BeamCandidates(lp, beams, n - 1, k), x);
    if i < n - 1 {
      CountOfBeam(lp, beams, n - 1, k, i, x);
    }
  }

  lemma {:induction false} HasCandidate(lp: seq<Token> -> seq<real>, beams: seq<Beam>, n: nat, k: nat, i: nat, j: nat)
    requires i < n <= |beams| && j < k && forall b | 0 <= b < |beams| :: k <= |lp(beams[b].tokens)|
    ensures BeamCandidates(lp, beams, i, k)[j] in Candidates(lp, beams, n, k)
  {
    if i < n - 1 {
      HasCandidate(lp, beams, n - 1, k, i, j);
    }
  }

  lemma {:induction false} CandidatesNoDup(lp: seq<Token> -> seq<real>, beams: seq<Beam>, n: nat, k: nat)
    requires n <= |beams| && forall i | 0 <= i < |beams| :: k <= |lp(beams[i].tokens)|
    ensures NoDup(Candidates(lp, beams, n, k))
  {
    if n > 0 {
      CandidatesNoDup(lp, beams, n - 1, k);
      CandidatesGenuine(lp, beams, n - 1, k);
      OwnNoDup(lp, beams, n - 1, k);
      hide BeamCandidates, Genuine, NoDup;
      JoinedNoDup(Candidates(lp, beams, n - 1, k), BeamCandidates(lp, beams, n - 1, k), n - 1);
    }
  }

  lemma OwnNoDup(lp: seq<Token> -> seq<real>, beams: seq<Beam>, i: nat, k: nat)
    requires i < |beams| && k <= |lp(beams[i].tokens)|
    ensures NoDup(BeamCandidates(lp, beams, i, k))
    ensures forall c | c in BeamCandidates(lp, beams, i, k) :: c.parent == i
  {
    hide TopK;
    var own, top := BeamCandidates(lp, beams, i, k), TopK(lp(beams[i].tokens), k);
    assert forall j | 0 <= j < k :: own[j].token == top[j];
  }

  lemma JoinedNoDup(a: seq<Candidate>, b: seq<Candidate>, n: nat)
    requires NoDup(a) && NoDup(b) && (forall c | c in a :: c.parent < n) && (forall c | c in b :: c.parent == n)
    ensures NoDup(a + b)
  {
    forall i, j | 0 <= i < |a| && 0 <= j < |b| ensures a[i] != b[j] {
      assert a[i] in a && b[j] in b;
    }
  }

  /** A reordering of distinct candidates is distinct. */
  lemma ReorderedNoDup(a: seq<Candidate>, b: seq<Candidate>)
    requires NoDup(a) && multiset(a) == multiset(b)
    ensures NoDup(b)
  {
    forall i, j | 0 <= i < j < |b| ensures b[i] != b[j] {
      if b[i] == b[j] {
        assert b == b[..i] + [b[i]] + b[i + 1..j] + [b[j]] + b[j + 1..];
        assert multiset(b)[b[i]] >= 2;
        OnlyOnce(a, b[i]);
      }
    }
  }

  lemma {:induction false} OnlyOnce(a: seq<Candidate>, c: Candidate)
    requires NoDup(a)
    ensures multiset(a)[c] <= 1
    decreases |a|
  {
    if a != [] {
      var n := |a| - 1;
      assert a == a[..n] + [a[n]];
      OnlyOnce(a[..n], c);
      if a[n] == c { assert c !in a[..n]; }
    }
  }

  /** No (beam, token) pair is ranked twice. */
  ghost predicate PairsDistinct(cs: seq<Candidate>) {
    forall i, j | 0 <= i < j < |cs| :: cs[i].parent != cs[j].parent || cs[i].token != cs[j].token
  }

  lemma RankedDistinct(lp: seq<Token> -> seq<real>, beams: seq<Beam>, k: nat)
    requires forall i | 0 <= i < |beams| :: k <= |lp(beams[i].tokens)|
    ensures PairsDistinct(Ranked(lp, beams, k))
  {
    var all, ranked := Candidates(lp, beams, |beams|, k), Ranked(lp, beams, k);
    CandidatesNoDup(lp, beams, |beams|, k);
    assert ranked == SortDescending(all);
    ReorderedNoDup(all, ranked);
    hide Candidates, SortDescending, Ranked, TopK;
    forall i, j | 0 <= i < j < |ranked| ensures ranked[i].parent != ranked[j].parent || ranked[i].token != ranked[j].token {
      assert Genuine(lp, beams, ranked[i]) && Genuine(lp, beams, ranked[j]) && ranked[i] != ranked[j];
    }
  }

  /** A pair outside the first k of the sorted candidates scores no higher than the last of them. */
  lemma PrunedScoresLess(lp: seq<Token> -> seq<real>, beams: seq<Beam>, k: nat, i: nat, t: nat)
    requires k >= 1 && i < |beams| && (forall j | 0 <= j < |beams| :: k <= |lp(beams[j].tokens)|) && t < |lp(beams[i].tokens)|
    ensures var best := SortDescending(Candidates(lp, beams, |beams|, k));
            && |best| >= k
            && (Candidate(Score(lp, beams[i], t), i, t) in best[..k] || Score(lp, beams[i], t) <= best[k - 1].score)
  {
    var all := Candidates(lp, beams, |beams|, k);
    var best, x, own := SortDescending(all), Score(lp, beams[i], t), BeamCandidates(lp, beams, i, k);
    SortedDescending(all);
    SameLength(best, all);
    assert |beams| * k >= 1 * k;
    var top := TopK(lp(beams[i].tokens), k);
    if t in top {
      var j :| 0 <= j < k && top[j] == t;
      assert own[j] == Candidate(x, i, t);
      HasCandidate(lp, beams, |beams|, k, i, j);
      assert own[j] in multiset(all);
      assert own[j] in best;
      var q :| 0 <= q < |best| && best[q] == own[j];
      if q < k { assert best[..k][q] == own[j]; }
    } else {
      CountAll(own, x);
      CountOfBeam(lp, beams, |beams|, k, i, x);
      CountSorted(all, x);
      CountReaches(best, x, k);
    }
  }

  /** Scoring only each beam's own top k loses nothing: the first k of the sorted candidates are k
      different (beam, token) pairs with their own scores, best first, and any pair that is not among
      them scores no higher than the last of them. */
  lemma PruningIsOptimal(lp: seq<Token> -> seq<real>, beams: seq<Beam>, k: nat, i: nat, t: nat)
    requires k >= 1 && i < |beams| && (forall j | 0 <= j < |beams| :: k <= |lp(beams[j].tokens)|) && t < |lp(beams[i].tokens)|
    ensures var best := Ranked(lp, beams, k);
            && |best| >= k && PairsDistinct(best[..k]) && Descending(best[..k])
            && (forall j | 0 <= j < k :: Genuine(lp, beams, best[j]))
            && (Candidate(Score(lp, beams[i], t), i, t) in best[..k] || Score(lp, beams[i], t) <= best[k - 1].score)
  {
    hide Candidates, SortDescending, TopK, Genuine;
    PrunedScoresLess(lp, beams, k, i, t);
    SortedDescending(Candidates(lp, beams, |beams|, k));
    RankedDistinct(lp, beams, k);
  }

  lemma SameLength(a: seq<Candidate>, b: seq<Candidate>)
    requires multiset(a) == multiset(b)
    ensures |a| == |b|
  {
    assert |multiset(a)| == |a| && |multiset(b)| == |b|;
  }

  // ---- a step ----

  predicate IsStopToken(p: Params, t: Token) {
    p.eos == Some(t) || t in p.stops
  }

  function Child(parents: seq<Beam>, c: Candidate): Beam
    requires c.parent < |parents|
  {
    Beam(parents[c.parent].tokens + [c.token], c.score)
  }

  /** Deals sorted candidates out to the next beams, until there are enough, or to the finished. */
  function Deal(p: Params, parents: seq<Beam>, cs: seq<Candidate>, next: seq<Beam>, finished: seq<Beam>): (r: (seq<Beam>, seq<Beam>))
    requires forall j | 0 <= j < |cs| :: cs[j].parent < |parents|
    decreases |cs|
  {
    if cs == [] || |next| >= p.numBeams then (next, finished)
    else if IsStopToken(p, cs[0].token) then Deal(p, parents, cs[1..], next, finished + [Child(parents, cs[0])])
    else Deal(p, parents, cs[1..], next + [Child(parents, cs[0])], finished)
  }

  /** The length-penalised score of a beam. */
  function Penalised(p: Params, b: Beam): real
    requires p.norm(if |b.tokens| > |p.prompt| + 1 then |b.tokens| - |p.prompt| else 1) > 0.0
  {
    b.cum / p.norm(if |b.tokens| > |p.prompt| + 1 then |b.tokens| - |p.prompt| else 1)
  }

  ghost predicate Penalises(p: Params) {
    forall n: nat | n >= 1 :: p.norm(n) > 0.0
  }

  /** Python's max: the first of the best-scoring ones. */
  ghost function BestBeam(p: Params, pool: seq<Beam>): (b: Beam)
    requires pool != [] && Penalises(p)
    ensures b in pool && forall c | c in pool :: Penalised(p, b) >= Penalised(p, c)
  {
    if |pool| == 1 then pool[0]
    else
      var n := |pool| - 1;
      var before := BestBeam(p, pool[..n]);
      assert forall c | c in pool :: c in pool[..n] || c == pool[n];
      if Penalised(p, pool[n]) > Penalised(p, before) then pool[n] else before
  }

  ghost function Finalize(p: Params, g: Group): Group
    requires Penalises(p) && Pool(g) != []
    requires forall b | b in g.finished + g.beams :: |b.tokens| >= |p.prompt|
  {
    var best := BestBeam(p, Pool(g));
    assert best in g.finished + g.beams;
    Group([], g.finished, Some(best.tokens[|p.prompt|..]), g.finished != [])
  }

  /** The sorted candidates of a group. */
  function Ranked(lp: seq<Token> -> seq<real>, beams: seq<Beam>, k: nat): (r: seq<Candidate>)
    requires forall i | 0 <= i < |beams| :: k <= |lp(beams[i].tokens)|
    ensures |r| == |beams| * k && forall j | 0 <= j < |r| :: r[j].parent < |beams| && Genuine(lp, beams, r[j])
  {
    var all := Candidates(lp, beams, |beams|, k);
    CandidatesGenuine(lp, beams, |beams|, k);
    var r := SortDescending(all);
    SameLength(r, all);
    assert forall j | 0 <= j < |r| :: r[j] in multiset(all);
    r
  }

  // ---- what holds of a group after n steps ----

  /** The log-probability of what a beam generated, token by token. */
  ghost function CumLog(lp: seq<Token> -> seq<real>, history: seq<Token>, prompt: nat): real
    requires prompt <= |history|
    decreases |history|
  {
    if |history| == prompt then 0.0
    else
      var before, t := history[..|history| - 1], history[|history| - 1];
      CumLog(lp, before, prompt) + if 0 <= t < |lp(before)| then lp(before)[t] else 0.0
  }

  /** A beam of n generated tokens, with the sum of their log-probabilities. */
  ghost predicate BeamOk(p: Params, lp: seq<Token> -> seq<real>, b: Beam, n: nat) {
    && |b.tokens| == |p.prompt| + n && p.prompt <= b.tokens
    && b.cum == CumLog(lp, b.tokens, |p.prompt|)
  }

  ghost predicate FinishedOk(p: Params, lp: seq<Token> -> seq<real>, b: Beam, n: nat) {
    exists k | 1 <= k <= n :: BeamOk(p, lp, b, k) && IsStopToken(p, b.tokens[|b.tokens| - 1])
  }

  /** All active beams have the same length, every cumulative log-probability is the sum of its
      tokens', and there is always something to finalize from. */
  ghost predicate GroupOk(p: Params, lp: seq<Token> -> seq<real>, g: Group, n: nat) {
    && (forall i | 0 <= i < |g.beams| :: BeamOk(p, lp, g.beams[i], n))
    && (forall i | 0 <= i < |g.finished| :: FinishedOk(p, lp, g.finished[i], n))
    && |g.beams| <= p.numBeams
  }

  ghost predicate Active(p: Params, lp: seq<Token> -> seq<real>, g: Group, n: nat) {
    && GroupOk(p, lp, g, n) && g.result.None? && !g.stopped && g.beams != [] && |g.finished| < p.numBeams
    && (n >= 1 ==> n < p.maxNew)
  }

  function Start(p: Params): Group {
    Group([Beam(p.prompt, 0.0)], [], None, false)
  }

  /** The group once its candidates are dealt out, before it is decided whether it ends. */
  ghost function Expanded(p: Params, lp: seq<Token> -> seq<real>, V: nat, g: Group): Group
    requires Distribution(lp, V) && p.numBeams <= V
  {
    var (next, finished) := Deal(p, g.beams, Ranked(lp, g.beams, p.numBeams), [], g.finished);
    Group(next, finished, None, false)
  }

  /** One call of `step` on an active group. */
  ghost function StepGroup(p: Params, lp: seq<Token> -> seq<real>, V: nat, g: Group, n: nat): (r: Group)
    requires Distribution(lp, V) && 1 <= p.numBeams <= V && Penalises(p) && Active(p, lp, g, n)
    ensures r.result.None? ==> r == Expanded(p, lp, V, g) && Active(p, lp, r, n + 1)
    ensures r.result.Some? <==>
              var after := Expanded(p, lp, V, g); after.beams == [] || |after.finished| >= p.numBeams || n + 1 >= p.maxNew
    ensures r.result.Some? ==> Ended(p, lp, Expanded(p, lp, V, g), r, n + 1)
  {
    var after := Expanded(p, lp, V, g);
    ExpandedOk(p, lp, V, g, n);
    assert after.beams != [] ==> BeamOk(p, lp, after.beams[0], n + 1);
    if after.beams == [] || |after.finished| >= p.numBeams || |after.beams[0].tokens| - |p.prompt| >= p.maxNew then
      FinalizeOk(p, lp, after, n + 1);
      Finalize(p, after)
    else after
  }

  /** What a group finalizes from: the finished beams, or the active ones if none finished. */
  function Pool(g: Group): seq<Beam> {
    if g.finished != [] then g.finished else g.beams
  }

  /** The group `last`, after n steps, was finalized to r: the result is what a best-scoring member of
      its pool generated. */
  ghost predicate Ended(p: Params, lp: seq<Token> -> seq<real>, last: Group, r: Group, n: nat) {
    && Penalises(p) && GroupOk(p, lp, last, n) && last.result.None?
    && r.result.Some? && r == Group([], last.finished, r.result, last.finished != [])
    && exists best :: Wins(p, Pool(last), best) && p.prompt + r.result.value == best.tokens && |r.result.value| <= n
  }

  ghost predicate Wins(p: Params, pool: seq<Beam>, best: Beam)
    requires Penalises(p)
  {
    best in pool && forall c | c in pool :: Penalised(p, best) >= Penalised(p, c)
  }

  lemma ExpandedOk(p: Params, lp: seq<Token> -> seq<real>, V: nat, g: Group, n: nat)
    requires Distribution(lp, V) && 1 <= p.numBeams <= V && Active(p, lp, g, n)
    ensures var after := Expanded(p, lp, V, g);
            GroupOk(p, lp, after, n + 1) && after.result.None? && !after.stopped && Pool(after) != []
  {
    var ranked := Ranked(lp, g.beams, p.numBeams);
    DealOk(p, lp, g, n, ranked, [], g.finished);
    DealSome(p, g.beams, ranked, [], g.finished);
    assert |g.beams| * p.numBeams >= 1;
  }

  lemma ChildOk(p: Params, lp: seq<Token> -> seq<real>, parents: seq<Beam>, n: nat, c: Candidate)
    requires (forall i | 0 <= i < |parents| :: BeamOk(p, lp, parents[i], n)) && Genuine(lp, parents, c)
    ensures BeamOk(p, lp, Child(parents, c), n + 1)
    ensures IsStopToken(p, c.token) ==> FinishedOk(p, lp, Child(parents, c), n + 1)
  {
    var parent, child := parents[c.parent], Child(parents, c);
    assert child.tokens[..|child.tokens| - 1] == parent.tokens;
    assert BeamOk(p, lp, parent, n);
    assert BeamOk(p, lp, child, n + 1);
  }

  lemma {:induction false} DealOk(p: Params, lp: seq<Token> -> seq<real>, g: Group, n: nat, cs: seq<Candidate>, next: seq<Beam>, finished: seq<Beam>)
    requires forall j | 0 <= j < |cs| :: cs[j].parent < |g.beams| && Genuine(lp, g.beams, cs[j])
    requires forall i | 0 <= i < |g.beams| :: BeamOk(p, lp, g.beams[i], n)
    requires forall i | 0 <= i < |next| :: BeamOk(p, lp, next[i], n + 1)
    requires forall i | 0 <= i < |finished| :: FinishedOk(p, lp, finished[i], n) || FinishedOk(p, lp, finished[i], n + 1)
    requires |next| <= p.numBeams
    ensures var (a, f) := Deal(p, g.beams, cs, next, finished);
            && (forall i | 0 <= i < |a| :: BeamOk(p, lp, a[i], n + 1))
            && (forall i | 0 <= i < |f| :: FinishedOk(p, lp, f[i], n + 1))
            && |a| <= p.numBeams
    decreases |cs|
  {
    hide BeamOk, FinishedOk;
    forall i | 0 <= i < |finished| ensures FinishedOk(p, lp, finished[i], n + 1) {
      FinishedLater(p, lp, finished[i], n);
    }
    if cs != [] && |next| < p.numBeams {
      ChildOk(p, lp, g.beams, n, cs[0]);
      if IsStopToken(p, cs[0].token) {
        DealOk(p, lp, g, n, cs[1..], next, finished + [Child(g.beams, cs[0])]);
      } else {
        DealOk(p, lp, g, n, cs[1..], next + [Child(g.beams, cs[0])], finished);
      }
    }
  }

  lemma FinishedLater(p: Params, lp: seq<Token> -> seq<real>, b: Beam, n: nat)
    ensures FinishedOk(p, lp, b, n) ==> FinishedOk(p, lp, b, n + 1)
  {
    hide BeamOk;
  }

  /** A step with any candidate leaves a beam or a finished one. */
  lemma {:induction false} DealSome(p: Params, parents: seq<Beam>, cs: seq<Candidate>, next: seq<Beam>, finished: seq<Beam>)
    requires forall j | 0 <= j < |cs| :: cs[j].parent < |parents|
    requires p.numBeams >= 1
    ensures var (a, f) := Deal(p, parents, cs, next, finished);
            (cs != [] || next != [] || finished != [] ==> a != [] || f != []) && (next != [] ==> a != [] && a[0] == next[0])
    decreases |cs|
  {
    if cs != [] && |next| < p.numBeams {
      if IsStopToken(p, cs[0].token) {
        DealSome(p, parents, cs[1..], next, finished + [Child(parents, cs[0])]);
      } else {
        DealSome(p, parents, cs[1..], next + [Child(parents, cs[0])], finished);
      }
    }
  }

  lemma FinalizeOk(p: Params, lp: seq<Token> -> seq<real>, g: Group, n: nat)
    requires Penalises(p) && GroupOk(p, lp, g, n) && Pool(g) != [] && g.result.None?
    ensures forall b | b in g.finished + g.beams :: |b.tokens| >= |p.prompt|
    ensures Ended(p, lp, g, Finalize(p, g), n)
  {
    forall b | b in g.finished + g.beams ensures |b.tokens| >= |p.prompt| {
      if b in g.finished {
        var i :| 0 <= i < |g.finished| && g.finished[i] == b;
        assert FinishedOk(p, lp, b, n);
      } else {
        var i :| 0 <= i < |g.beams| && g.beams[i] == b;
        assert BeamOk(p, lp, b, n);
      }
    }
    var best := BestBeam(p, Pool(g));
    var i :| 0 <= i < |Pool(g)| && Pool(g)[i] == best;
    if g.finished != [] { assert FinishedOk(p, lp, best, n); } else { assert BeamOk(p, lp, best, n); }
    assert p.prompt + best.tokens[|p.prompt|..] == best.tokens;
    assert Wins(p, Pool(g), best);
  }

  // ---- runs ----

  lemma StartActive(p: Params, lp: seq<Token> -> seq<real>)
    requires p.numBeams >= 1
    ensures Active(p, lp, Start(p), 0)
  {
    assert BeamOk(p, lp, Start(p).beams[0], 0);
  }

  /** `step` until the group is done, at most k more times. */
  ghost function RunGroup(p: Params, lp: seq<Token> -> seq<real>, V: nat, g: Group, n: nat, k: nat): (r: Group)
    requires Distribution(lp, V) && 1 <= p.numBeams <= V && Penalises(p)
    requires g.result.None? ==> Active(p, lp, g, n)
    decreases k
  {
    if k == 0 || g.result.Some? then g
    else RunGroup(p, lp, V, StepGroup(p, lp, V, g, n), n + 1, k - 1)
  }

  /** A group is done after at most maxNew steps: it runs, active all the while, up to some group
      `last`, and finalizes what one more token makes of that one. */
  lemma {:induction false} EndsInTime(p: Params, lp: seq<Token> -> seq<real>, V: nat, g: Group, n: nat, k: nat)
    returns (last: Group, steps: nat)
    requires Distribution(lp, V) && 1 <= p.numBeams <= V && Penalises(p) && p.maxNew >= 1
    requires Active(p, lp, g, n) && n + k >= p.maxNew
    ensures steps < k && n + steps < p.maxNew
    ensures last == RunGroup(p, lp, V, g, n, steps) && Active(p, lp, last, n + steps)
    ensures Ended(p, lp, Expanded(p, lp, V, last), RunGroup(p, lp, V, g, n, k), n + steps + 1)
    decreases k
  {
    hide StepGroup, Expanded, GroupOk, Ended;
    var after := StepGroup(p, lp, V, g, n);
    assert RunGroup(p, lp, V, g, n, k) == RunGroup(p, lp, V, after, n + 1, k - 1);
    if after.result.None? {
      last, steps := EndsInTime(p, lp, V, after, n + 1, k - 1);
      steps := steps + 1;
      assert RunGroup(p, lp, V, g, n, steps) == RunGroup(p, lp, V, after, n + 1, steps - 1);
    } else {
      last, steps := g, 0;
      assert RunGroup(p, lp, V, after, n + 1, k - 1) == after;
    }
  }

  // ---- one beam is greedy decoding ----

  /** The request a group stands for. */
  function RequestOf(p: Params): Request {
    Request(p.prompt, p.maxNew, p.eos, p.stops, [], Waiting)
  }

  /** The greedy token is the first best one. */
  ghost predicate Agree(m: Model, lp: seq<Token> -> seq<real>, V: nat) {
    Distribution(lp, V) && V >= 1 && forall h: seq<Token> | h != [] :: TopK(lp(h), 1)[0] == Next(m, h)
  }

  lemma {:induction false} OneBeamIsGreedy(p: Params, m: Model, lp: seq<Token> -> seq<real>, V: nat, g: Group, n: nat, k: nat)
    requires p.numBeams == 1 && p.prompt != [] && p.maxNew >= 1 && Penalises(p) && Agree(m, lp, V)
    requires Active(p, lp, g, n) && n + k >= p.maxNew
    requires |g.beams| == 1 && g.beams[0].tokens == p.prompt + Greedy(m, p.prompt, n)
    requires forall j | 1 <= j <= n :: !StopsAt(m, RequestOf(p), j)
    ensures RunGroup(p, lp, V, g, n, k).result == Some(Reference(m, RequestOf(p)))
    decreases k
  {
    hide Active, GroupOk, Next, Ended, StepGroup, StopsAt, Greedy, Expanded;
    var after, r := StepGroup(p, lp, V, g, n), RequestOf(p);
    ActiveBounds(p, lp, g, n);
    OneBeamStep(p, m, lp, V, g, n);
    assert RunGroup(p, lp, V, g, n, k) == RunGroup(p, lp, V, after, n + 1, k - 1);
    if StopsAt(m, r, n + 1) {
      assert RunGroup(p, lp, V, after, n + 1, k - 1) == after;
      FirstStop(m, r, 1, n + 1);
    } else {
      ActiveBounds(p, lp, after, n + 1);
      OneBeamIsGreedy(p, m, lp, V, after, n + 1, k - 1);
    }
  }

  lemma ActiveBounds(p: Params, lp: seq<Token> -> seq<real>, g: Group, n: nat)
    requires Active(p, lp, g, n)
    ensures g.result.None? && !g.stopped && g.beams != []
    ensures n >= 1 ==> n < p.maxNew
    ensures |g.finished| < p.numBeams
  {
  }

  lemma {:induction false} FirstStop(m: Model, r: Request, first: nat, n: nat)
    requires r.prompt != [] && 1 <= first <= n && StopsAt(m, r, n) && forall j | first <= j < n :: !StopsAt(m, r, j)
    ensures StopLength(m, r, first) == n
    decreases n - first
  {
    hide StopsAt;
    if first < n { FirstStop(m, r, first + 1, n); }
  }

  /** One step of one beam: the greedy token is appended, and the group ends exactly where greedy
      decoding stops. */
  lemma OneBeamStep(p: Params, m: Model, lp: seq<Token> -> seq<real>, V: nat, g: Group, n: nat)
    requires p.numBeams == 1 && p.prompt != [] && p.maxNew >= 1 && Penalises(p) && Agree(m, lp, V) && Active(p, lp, g, n)
    requires |g.beams| == 1 && g.beams[0].tokens == p.prompt + Greedy(m, p.prompt, n)
    ensures var after := StepGroup(p, lp, V, g, n);
            if StopsAt(m, RequestOf(p), n + 1) then after.result == Some(Greedy(m, p.prompt, n + 1))
            else after.result.None? && |after.beams| == 1 && after.beams[0].tokens == p.prompt + Greedy(m, p.prompt, n + 1)
  {
    hide Next, GroupOk, BestBeam;
    var history := g.beams[0].tokens;
    var t := Next(m, history);
    OneCandidate(lp, g.beams, V);
    var ranked := Ranked(lp, g.beams, 1);
    var child := Child(g.beams, ranked[0]);
    assert ranked[0].token == t && child.tokens == p.prompt + Greedy(m, p.prompt, n + 1);
    assert child.tokens[|p.prompt|..] == Greedy(m, p.prompt, n + 1);
    assert ranked[1..] == [];
    OneDealt(p, g.beams, ranked);
    OneBest(p, child);
  }

  lemma OneCandidate(lp: seq<Token> -> seq<real>, beams: seq<Beam>, V: nat)
    requires Distribution(lp, V) && V >= 1 && |beams| == 1
    ensures |Ranked(lp, beams, 1)| == 1 && Ranked(lp, beams, 1)[0].parent == 0
    ensures Ranked(lp, beams, 1)[0].token == TopK(lp(beams[0].tokens), 1)[0]
  {
    var all := Candidates(lp, beams, 1, 1);
    assert all == Candidates(lp, beams, 0, 1) + BeamCandidates(lp, beams, 0, 1);
    assert all[..0] == [];
    assert SortDescending(all) == Insert(all[0], SortDescending([]));
  }

  lemma OneDealt(p: Params, parents: seq<Beam>, cs: seq<Candidate>)
    requires p.numBeams == 1 && |cs| == 1 && cs[0].parent < |parents|
    ensures Deal(p, parents, cs, [], []) ==
              if IsStopToken(p, cs[0].token) then ([], [Child(parents, cs[0])]) else ([Child(parents, cs[0])], [])
  {
    assert cs[1..] == [];
    assert [] + [Child(parents, cs[0])] == [Child(parents, cs[0])];
  }

  lemma OneBest(p: Params, b: Beam)
    requires Penalises(p)
    ensures BestBeam(p, [b]) == b
  {
  }

  /** With one beam the result is exactly what plain greedy decoding returns for the request. */
  lemma OneBeamReturnsReference(p: Params, m: Model, lp: seq<Token> -> seq<real>, V: nat)
    requires p.numBeams == 1 && p.prompt != [] && p.maxNew >= 1 && Penalises(p) && Agree(m, lp, V)
    ensures Active(p, lp, Start(p), 0)
    ensures RunGroup(p, lp, V, Start(p), 0, p.maxNew).result == Some(Reference(m, RequestOf(p)))
  {
    StartActive(p, lp);
    assert p.prompt + Greedy(m, p.prompt, 0) == p.prompt;
    OneBeamIsGreedy(p, m, lp, V, Start(p), 0, p.maxNew);
  }

  // ---- where the pruning does cost something ----

  /** When no stop token is among the first candidates, they are the next beams. */
  lemma {:induction false} DealTakesFirst(p: Params, parents: seq<Beam>, cs: seq<Candidate>, next: seq<Beam>, finished: seq<Beam>)
    requires (forall j | 0 <= j < |cs| :: cs[j].parent < |parents|) && |next| <= p.numBeams <= |next| + |cs|
    requires forall j | 0 <= j < p.numBeams - |next| :: !IsStopToken(p, cs[j].token)
    ensures var (a, f) := Deal(p, parents, cs, next, finished);
            && f == finished && |a| == p.numBeams && next <= a
            && forall j | 0 <= j < p.numBeams - |next| :: a[|next| + j] == Child(parents, cs[j])
    decreases |cs|
  {
    if |next| < p.numBeams {
      var more := next + [Child(parents, cs[0])];
      forall j | 0 <= j < p.numBeams - |more| ensures !IsStopToken(p, cs[1..][j].token) {
        assert cs[1..][j] == cs[j + 1];
      }
      DealTakesFirst(p, parents, cs[1..], more, finished);
      var a := Deal(p, parents, cs, next, finished).0;
      assert a == Deal(p, parents, cs[1..], more, finished).0;
      forall j | 0 <= j < p.numBeams - |next| ensures a[|next| + j] == Child(parents, cs[j]) {
        if j > 0 {
          assert a[|more| + (j - 1)] == Child(parents, cs[1..][j - 1]);
        } else {
          assert a[|next|] == more[|next|];
        }
      }
    }
  }

  /** How many candidates can go on. */
  function Ongoing(p: Params, cs: seq<Candidate>): nat {
    if cs == [] then 0 else Ongoing(p, cs[1..]) + if IsStopToken(p, cs[0].token) then 0 else 1
  }

  /** Dealing fills the next beams up, as far as there are candidates that can go on. */
  lemma {:induction false} DealWidth(p: Params, parents: seq<Beam>, cs: seq<Candidate>, next: seq<Beam>, finished: seq<Beam>)
    requires (forall j | 0 <= j < |cs| :: cs[j].parent < |parents|) && |next| <= p.numBeams
    ensures var a := Deal(p, parents, cs, next, finished).0;
            |a| == if |next| + Ongoing(p, cs) <= p.numBeams then |next| + Ongoing(p, cs) else p.numBeams
    decreases |cs|
  {
    if cs != [] && |next| < p.numBeams {
      if IsStopToken(p, cs[0].token) {
        DealWidth(p, parents, cs[1..], next, finished + [Child(parents, cs[0])]);
      } else {
        DealWidth(p, parents, cs[1..], next + [Child(parents, cs[0])], finished);
      }
    }
  }

  /** The next beams never end in a stop token. */
  lemma {:induction false} DealGoesOn(p: Params, parents: seq<Beam>, cs: seq<Candidate>, next: seq<Beam>, finished: seq<Beam>)
    requires (forall j | 0 <= j < |cs| :: cs[j].parent < |parents|)
    requires forall b | b in next :: GoesOn(p, b)
    ensures forall b | b in Deal(p, parents, cs, next, finished).0 :: GoesOn(p, b)
    decreases |cs|
  {
    if cs != [] && |next| < p.numBeams {
      if IsStopToken(p, cs[0].token) {
        DealGoesOn(p, parents, cs[1..], next, finished + [Child(parents, cs[0])]);
      } else {
        assert GoesOn(p, Child(parents, cs[0]));
        DealGoesOn(p, parents, cs[1..], next + [Child(parents, cs[0])], finished);
      }
    }
  }

  predicate GoesOn(p: Params, b: Beam) {
    b.tokens != [] && !IsStopToken(p, b.tokens[|b.tokens| - 1])
  }

  /** The next beams are the first k candidates exactly when none of those is a stop token. */
  lemma DealIsFirst(p: Params, parents: seq<Beam>, cs: seq<Candidate>, finished: seq<Beam>)
    requires (forall j | 0 <= j < |cs| :: cs[j].parent < |parents|) && p.numBeams <= |cs|
    ensures FirstChildren(p, parents, cs, Deal(p, parents, cs, [], finished).0)
            <==> forall j | 0 <= j < p.numBeams :: !IsStopToken(p, cs[j].token)
  {
    hide Deal;
    var k, a := p.numBeams, Deal(p, parents, cs, [], finished).0;
    if forall j | 0 <= j < k :: !IsStopToken(p, cs[j].token) {
      DealTakesFirst(p, parents, cs, [], finished);
      forall j | 0 <= j < k ensures a[j] == Child(parents, cs[j]) {
        assert a[0 + j] == Child(parents, cs[j]);
      }
    } else if |a| == k {
      DealGoesOn(p, parents, cs, [], finished);
      var j :| 0 <= j < k && IsStopToken(p, cs[j].token);
      assert a[j] in a;
      assert GoesOn(p, a[j]) && !GoesOn(p, Child(parents, cs[j]));
    }
  }

  ghost predicate FirstChildren(p: Params, parents: seq<Beam>, cs: seq<Candidate>, next: seq<Beam>)
    requires (forall j | 0 <= j < |cs| :: cs[j].parent < |parents|) && p.numBeams <= |cs|
  {
    |next| == p.numBeams && forall j | 0 <= j < p.numBeams :: next[j] == Child(parents, cs[j])
  }

  /** When a step keeps the group as wide as it was asked to be: exactly when at least numBeams of the
      |beams| * numBeams ranked candidates are not stop tokens. And the next beams are the first
      numBeams candidates exactly when none of those is a stop token. */
  lemma StepKeepsWidth(p: Params, lp: seq<Token> -> seq<real>, V: nat, g: Group, n: nat)
    requires Distribution(lp, V) && 1 <= p.numBeams <= V && Active(p, lp, g, n)
    ensures var ranked, after := Ranked(lp, g.beams, p.numBeams), Expanded(p, lp, V, g);
            && |ranked| == |g.beams| * p.numBeams >= p.numBeams
            && (|after.beams| == p.numBeams <==> Ongoing(p, ranked) >= p.numBeams)
            && (|after.beams| < p.numBeams ==> |after.beams| == Ongoing(p, ranked))
            && (FirstChildren(p, g.beams, ranked, after.beams) <==> forall j | 0 <= j < p.numBeams :: !IsStopToken(p, ranked[j].token))
  {
    hide Ranked, GroupOk, Deal, FirstChildren, IsStopToken, Ongoing;
    var ranked := Ranked(lp, g.beams, p.numBeams);
    assert |g.beams| * p.numBeams >= 1 * p.numBeams;
    DealWidth(p, g.beams, ranked, [], g.finished);
    DealIsFirst(p, g.beams, ranked, g.finished);
  }

  /** So the group can be left with fewer beams than asked for although other tokens could go on:
      three tokens, two beams, and the best token a stop token. */
  lemma StopLeavesFewer(p: Params, lp: seq<Token> -> seq<real>)
    requires p == Params([7], 5, 2, Some(0), {}, n => 1.0) && forall h :: lp(h) == [-1.0, -2.0, -3.0]
    ensures Distribution(lp, 3) && Penalises(p) && Active(p, lp, Start(p), 0)
    ensures var after := StepGroup(p, lp, 3, Start(p), 0);
            after.result.None? && after.beams == [Beam([7, 1], -2.0)] && after.finished == [Beam([7, 0], -1.0)]
  {
    hide Active, Ranked, Deal, BestFrom, TopK;
    StartActive(p, lp);
    var beams := [Beam([7], 0.0)];
    assert Start(p).beams == beams;
    var a, b := Candidate(-1.0, 0, 0), Candidate(-2.0, 0, 1);
    TwoRanked(lp, beams, a, b);
    assert Child(beams, a) == Beam([7, 0], -1.0) && Child(beams, b) == Beam([7, 1], -2.0);
    TwoDealt(p, beams, a, b);
  }

  lemma TwoRanked(lp: seq<Token> -> seq<real>, beams: seq<Beam>, a: Candidate, b: Candidate)
    requires beams == [Beam([7], 0.0)] && forall h :: lp(h) == [-1.0, -2.0, -3.0]
    requires a == Candidate(-1.0, 0, 0) && b == Candidate(-2.0, 0, 1)
    ensures Ranked(lp, beams, 2) == [a, b]
  {
    hide BestFrom, TopK, SortDescending, Insert, Genuine;
    TopTwo([-1.0, -2.0, -3.0]);
    TwoCandidates(lp, beams);
    assert BeamCandidates(lp, beams, 0, 2) == [a, b];
    TwoSorted(a, b);
  }

  lemma TwoCandidates(lp: seq<Token> -> seq<real>, beams: seq<Beam>)
    requires |beams| == 1 && 2 <= |lp(beams[0].tokens)|
    ensures Candidates(lp, beams, 1, 2) == BeamCandidates(lp, beams, 0, 2)
  {
    hide BeamCandidates;
    assert Candidates(lp, beams, 0, 2) == [];
  }

  lemma TwoSorted(a: Candidate, b: Candidate)
    requires a.score >= b.score
    ensures SortDescending([a, b]) == [a, b]
  {
    assert [a, b][..1] == [a] && [a][1..] == [];
    OneSorted(a);
    assert Insert(b, [a]) == [a] + Insert(b, []);
  }

  lemma OneSorted(a: Candidate)
    ensures SortDescending([a]) == [a]
  {
    assert [a][..0] == [];
    assert SortDescending([a]) == Insert(a, []);
  }

  lemma TopTwo(xs: seq<real>)
    requires xs == [-1.0, -2.0, -3.0]
    ensures TopK(xs, 2) == [0, 1]
  {
    TopFirst(xs);
    TopSecond(xs);
  }

  lemma TopFirst(xs: seq<real>)
    requires xs == [-1.0, -2.0, -3.0]
    ensures BestFrom(xs, [], 0, None) == Some(0) && TopK(xs, 1) == [0]
  {
    assert BestFrom(xs, [], 2, Some(0)) == BestFrom(xs, [], 3, Some(0));
    assert BestFrom(xs, [], 0, None) == BestFrom(xs, [], 1, Some(0));
  }

  lemma TopSecond(xs: seq<real>)
    requires xs == [-1.0, -2.0, -3.0]
    ensures BestFrom(xs, [0], 0, None) == Some(1)
  {
    assert BestFrom(xs, [0], 2, Some(1)) == BestFrom(xs, [0], 3, Some(1));
    assert BestFrom(xs, [0], 0, None) == BestFrom(xs, [0], 1, None);
  }

  lemma TwoDealt(p: Params, parents: seq<Beam>, a: Candidate, b: Candidate)
    requires p.numBeams == 2 && a.parent < |parents| && b.parent < |parents| && IsStopToken(p, a.token) && !IsStopToken(p, b.token)
    ensures Deal(p, parents, [a, b], [], []) == ([Child(parents, b)], [Child(parents, a)])
  {
    assert [a, b][1..] == [b] && [b][1..] == [];
    assert [] + [Child(parents, a)] == [Child(parents, a)] && [] + [Child(parents, b)] == [Child(parents, b)];
    assert Deal(p, parents, [b], [], [Child(parents, a)]) == Deal(p, parents, [], [Child(parents, b)], [Child(parents, a)]);
  }

  // ---- the group as an object ----

  class BeamGroup {
    const p: Params
    var beams: seq<Beam>
    var finished: seq<Beam>
    var result: Option<seq<Token>>
    var stopped: bool   // finish_reason: "stop", or "length"

    ghost function View(): Group
      reads this
    {
      Group(beams, finished, result, stopped)
    }

    constructor (p: Params)
      ensures this.p == p && View() == Start(p)
    {
      this.p := p;
      beams, finished, result, stopped := [Beam(p.prompt, 0.0)], [], None, false;
    }

    method IsDone() returns (done: bool)
      ensures done == View().result.Some?
    {
      return result.Some?;
    }

    /** Advances every active beam by one token; does nothing once the group is done. */
    method Step(lp: seq<Token> -> seq<real>, ghost V: nat, ghost n: nat)
      requires Distribution(lp, V) && 1 <= p.numBeams <= V && Penalises(p)
      requires result.None? ==> Active(p, lp, View(), n)
      modifies this
      ensures View() == if old(View()).result.Some? then old(View()) else StepGroup(p, lp, V, old(View()), n)
    {
      hide Active, BestBeam, Deal, Ranked, Distribution, Penalises, Ended, Expanded;
      var done := IsDone();
      if done { return; }
      ghost var g := View();
      ActiveBounds(p, lp, g, n);
      WideEnough(p, lp, V, beams);
      var ranked := Rank(lp);
      StepReady(p, lp, V, g, n);
      var next := DealOut(ranked);
      beams := next;
      if beams == [] || |finished| >= p.numBeams || |beams[0].tokens| - |p.prompt| >= p.maxNew {
        FinalizeInPlace();
      }
    }

    /** Every beam's own best tokens, all sorted by score. */
    method Rank(lp: seq<Token> -> seq<real>) returns (ranked: seq<Candidate>)
      requires forall i | 0 <= i < |beams| :: p.numBeams <= |lp(beams[i].tokens)|
      ensures ranked == Ranked(lp, beams, p.numBeams)
    {
      hide SortDescending, BeamCandidates, Genuine;
      var candidates: seq<Candidate> := [];
      for i := 0 to |beams|
        invariant candidates == Candidates(lp, beams, i, p.numBeams)
      {
        candidates := candidates + BeamCandidates(lp, beams, i, p.numBeams);
      }
      return SortDescending(candidates);
    }

    /** Deals the sorted candidates out; the finished ones go to `finished`. */
    method DealOut(ranked: seq<Candidate>) returns (next: seq<Beam>)
      requires forall j | 0 <= j < |ranked| :: ranked[j].parent < |beams|
      modifies this`finished
      ensures (next, finished) == Deal(p, beams, ranked, [], old(finished))
    {
      next := [];
      var j := 0;
      assert ranked[0..] == ranked;
      while j < |ranked| && |next| < p.numBeams
        invariant 0 <= j <= |ranked|
        invariant Deal(p, beams, ranked, [], old(finished)) == Deal(p, beams, ranked[j..], next, finished)
        decreases |ranked| - j
      {
        var c := ranked[j];
        assert ranked[j..][0] == c && ranked[j..][1..] == ranked[j + 1..];
        var child := Beam(beams[c.parent].tokens + [c.token], c.score);
        if IsStopToken(p, c.token) {
          finished := finished + [child];
        } else {
          next := next + [child];
        }
        j := j + 1;
      }
    }

    /** The best-scoring finished beam, or active one, is the result. */
    method FinalizeInPlace()
      requires Penalises(p) && (finished != [] || beams != []) && result.None?
      requires forall b | b in finished + beams :: |b.tokens| >= |p.prompt|
      modifies this
      ensures View() == Finalize(p, old(View()))
    {
      hide BestBeam;
      var best := ChooseBest(if finished != [] then finished else beams);
      assert best in finished + beams;
      result := Some(best.tokens[|p.prompt|..]);
      stopped := finished != [];
      beams := [];
    }

    /** The first best-scoring beam of a pool. */
    method ChooseBest(pool: seq<Beam>) returns (best: Beam)
      requires Penalises(p) && pool != []
      ensures best == BestBeam(p, pool)
    {
      assert pool[..1] == [pool[0]];
      best := pool[0];
      for i := 1 to |pool|
        invariant best == BestBeam(p, pool[..i])
      {
        assert pool[..i + 1][..i] == pool[..i];
        if Penalised(p, pool[i]) > Penalised(p, best) { best := pool[i]; }
      }
      assert pool[..|pool|] == pool;
    }
  }

  lemma WideEnough(p: Params, lp: seq<Token> -> seq<real>, V: nat, beams: seq<Beam>)
    requires Distribution(lp, V) && p.numBeams <= V
    ensures forall i | 0 <= i < |beams| :: p.numBeams <= |lp(beams[i].tokens)|
  {
  }

  /** The step's intermediate state can be finalized. */
  lemma StepReady(p: Params, lp: seq<Token> -> seq<real>, V: nat, g: Group, n: nat)
    requires Distribution(lp, V) && 1 <= p.numBeams <= V && Penalises(p) && Active(p, lp, g, n)
    ensures var (next, finished) := Deal(p, g.beams, Ranked(lp, g.beams, p.numBeams), [], g.finished);
            && Expanded(p, lp, V, g) == Group(next, finished, None, false)
            && (finished != [] || next != []) && forall b | b in finished + next :: |b.tokens| >= |p.prompt|
  {
    ExpandedOk(p, lp, V, g, n);
    FinalizeOk(p, lp, Expanded(p, lp, V, g), n + 1);
  }
}
