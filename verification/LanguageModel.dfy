/**
 The transformer, seen from the cache: one abstract cache entry per position (the keys and
 values of every layer), written from the entries before it and the token at that position,
 and one greedy prediction, read from the entries up to and including a position.
 Everything here is independent of paging, batching and scheduling.
 */
module LanguageModel {

  type Token = int

  /** The cache entry of one position. */
  type Kv(==, 0, !new)

  /** `entry(before, t)` is what the forward pass stores for token t after the entries `before`;
      `predict(upTo, t)` is the argmax token after position |upTo| - 1, which holds t. */
  datatype Model = Model(entry: (seq<Kv>, Token) -> Kv, predict: (seq<Kv>, Token) -> Token)

  /** One causal forward pass over `chunk` on top of already cached entries. */
  function Extend(m: Model, cached: seq<Kv>, chunk: seq<Token>): (r: seq<Kv>)
    ensures |r| == |cached| + |chunk|
    ensures r[..|cached|] == cached
    decreases |chunk|
  {
    if chunk == [] then cached else Extend(m, cached + [m.entry(cached, chunk[0])], chunk[1..])
  }

  /** The greedy token after each position of `chunk`. */
  function Predictions(m: Model, cached: seq<Kv>, chunk: seq<Token>): (r: seq<Token>)
    ensures |r| == |chunk|
  {
    var all := Extend(m, cached, chunk);
    seq(|chunk|, j requires 0 <= j < |chunk| => m.predict(all[..|cached| + j + 1], chunk[j]))
  }

  /** The contiguous cache of a token history: the reference the paged cache must agree with. */
  function Entries(m: Model, history: seq<Token>): (r: seq<Kv>)
    ensures |r| == |history|
  {
    Extend(m, [], history)
  }

  /** The greedy token after a history, from a full forward pass over it. */
  function Next(m: Model, history: seq<Token>): Token
    requires history != []
  {
    m.predict(Entries(m, history), history[|history| - 1])
  }

  /** The first n tokens that one-at-a-time greedy decoding appends to `prompt`. */
  function Greedy(m: Model, prompt: seq<Token>, n: nat): (r: seq<Token>)
    requires prompt != []
    ensures |r| == n
  {
    if n == 0 then []
    else
      var g := Greedy(m, prompt, n - 1);
      g + [Next(m, prompt + g)]
  }

  lemma {:induction false} ExtendTwice(m: Model, cached: seq<Kv>, a: seq<Token>, b: seq<Token>)
    ensures Extend(m, cached, a + b) == Extend(m, Extend(m, cached, a), b)
    decreases |a|
  {
    if a == [] {
      assert a + b == b;
    } else {
      assert (a + b)[1..] == a[1..] + b;
      ExtendTwice(m, cached + [m.entry(cached, a[0])], a[1..], b);
    }
  }

  /** Processing a history in two pieces builds the same cache as processing it at once. */
  lemma EntriesAppend(m: Model, history: seq<Token>, chunk: seq<Token>)
    ensures Extend(m, Entries(m, history), chunk) == Entries(m, history + chunk)
  {
    ExtendTwice(m, [], history, chunk);
  }

  lemma EntriesOne(m: Model, history: seq<Token>, t: Token)
    ensures Entries(m, history + [t]) == Entries(m, history) + [m.entry(Entries(m, history), t)]
  {
    EntriesAppend(m, history, [t]);
    assert [t][1..] == [];
  }

  /** A cache entry never depends on later tokens. */
  lemma EntriesPrefix(m: Model, history: seq<Token>, k: nat)
    requires k <= |history|
    ensures Entries(m, history)[..k] == Entries(m, history[..k])
  {
    assert history == history[..k] + history[k..];
    ExtendTwice(m, [], history[..k], history[k..]);
  }

  /** No two entries are equal by accident: an entry tells its token and the entries before it. */
  ghost predicate InjectiveEntry(m: Model) {
    forall a, b, t, u :: m.entry(a, t) == m.entry(b, u) ==> a == b && t == u
  }

  lemma EntryIs(m: Model, a: seq<Token>, p: nat)
    requires p < |a|
    ensures Entries(m, a)[p] == m.entry(Entries(m, a[..p]), a[p])
  {
    EntriesPrefix(m, a, p + 1);
    EntriesOne(m, a[..p], a[p]);
    assert a[..p + 1] == a[..p] + [a[p]];
    assert Entries(m, a)[p] == Entries(m, a)[..p + 1][p];
  }

  lemma EntriesApart(m: Model, a: seq<Kv>, t: Token, b: seq<Kv>, u: Token)
    requires InjectiveEntry(m) && m.entry(a, t) == m.entry(b, u)
    ensures a == b && t == u
  {
  }

  /** Then equal entries come from equal positions after equal tokens. */
  lemma {:induction false} EntryInjective(m: Model, a: seq<Token>, p: nat, b: seq<Token>, q: nat)
    requires InjectiveEntry(m) && p < |a| && q < |b| && Entries(m, a)[p] == Entries(m, b)[q]
    ensures p == q && a[..p + 1] == b[..q + 1]
  {
    EntryIs(m, a, p);
    EntryIs(m, b, q);
    EntriesApart(m, Entries(m, a[..p]), a[p], Entries(m, b[..q]), b[q]);
    assert |Entries(m, a[..p])| == p && |Entries(m, b[..q])| == q;
    if p > 0 {
      assert a[..p][..p] == a[..p] && b[..q][..q] == b[..q];
      EntryInjective(m, a[..p], p - 1, b[..q], q - 1);
      assert p - 1 + 1 == p && a[..p][..p - 1 + 1] == a[..p] && b[..q][..q - 1 + 1] == b[..q];
    }
    assert a[..p + 1] == a[..p] + [a[p]];
    assert b[..q + 1] == b[..q] + [b[q]];
    assert a[..p] == b[..q];
  }

  /** A forward pass over a chunk predicts, after each of its positions, the token a full pass
      over the whole history would. */
  lemma PredictionsAreNext(m: Model, history: seq<Token>, chunk: seq<Token>, j: nat)
    requires j < |chunk|
    ensures Predictions(m, Entries(m, history), chunk)[j] == Next(m, history + chunk[..j + 1])
  {
    var h := history + chunk;
    EntriesAppend(m, history, chunk);
    EntriesPrefix(m, h, |history| + j + 1);
    assert h[..|history| + j + 1] == history + chunk[..j + 1];
  }

  /** Greedy decoding can be resumed: its first k tokens do not depend on how many follow. */
  lemma {:induction false} GreedyPrefix(m: Model, prompt: seq<Token>, k: nat, n: nat)
    requires prompt != [] && k <= n
    ensures Greedy(m, prompt, n)[..k] == Greedy(m, prompt, k)
    decreases n
  {
    if k < n {
      GreedyPrefix(m, prompt, k, n - 1);
      assert Greedy(m, prompt, n)[..k] == Greedy(m, prompt, n - 1)[..k];
    } else {
      assert Greedy(m, prompt, n)[..k] == Greedy(m, prompt, k);
    }
  }

  /** The cache-free generator: a full forward pass over everything for every token. */
  method GenerateGreedyNaive(m: Model, prompt: seq<Token>, maxNewTokens: nat) returns (tokens: seq<Token>)
    requires prompt != []
    ensures tokens == prompt + Greedy(m, prompt, maxNewTokens)
  {
    tokens := prompt;
    for i := 0 to maxNewTokens
      invariant tokens == prompt + Greedy(m, prompt, i)
    {
      var predictions := Predictions(m, [], tokens);
      PredictionsAreNext(m, [], tokens, |tokens| - 1);
      assert [] + tokens[..|tokens|] == tokens;
      tokens := tokens + [predictions[|tokens| - 1]];
    }
  }
}
