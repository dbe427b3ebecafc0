/** The attention kernel (paged_attention.cu) against plain softmax attention, over the reals. Four
    warps stride over a sequence's blocks, each with its own online softmax; the last part of the
    kernel merges them. Exponentiation is any function that turns sums into products and is positive. */
module PagedAttention {
  import opened Positions

  ghost predicate IsExp(exp: real -> real) {
    && (forall x :: exp(x) > 0.0)
    && (forall x, y :: exp(x + y) == exp(x) * exp(y))
  }

  lemma ExpAdd(exp: real -> real, x: real, y: real)
    requires IsExp(exp)
    ensures exp(x + y) == exp(x) * exp(y) && exp(x) > 0.0
  {
  }

  // ---- sums ----

  function Total(s: seq<real>): real {
    if s == [] then 0.0 else Total(s[..|s| - 1]) + s[|s| - 1]
  }

  /** s[from] + s[from + step] + ... */
  function StrideSum(s: seq<real>, from: nat, step: nat): real
    requires step >= 1
    decreases |s| - from
  {
    if from >= |s| then 0.0 else s[from] + StrideSum(s, from + step, step)
  }

  lemma {:induction false} StrideSplit(s: seq<real>, from: nat, step: nat)
    requires step >= 1
    ensures StrideSum(s, from, step) == StrideSum(s, from, 2 * step) + StrideSum(s, from + step, 2 * step)
    decreases |s| - from
  {
    if from < |s| {
      if from + step < |s| {
        StrideSplit(s, from + 2 * step, step);
        assert StrideSum(s, from + step, step) == s[from + step] + StrideSum(s, from + step + step, step);
        assert from + 2 * step + step == from + step + 2 * step;
      } else {
        assert StrideSum(s, from + step, step) == 0.0;
      }
    }
  }

  lemma {:induction false} StrideOne(s: seq<real>, from: nat)
    requires from <= |s|
    ensures Total(s[..from]) + StrideSum(s, from, 1) == Total(s)
    decreases |s| - from
  {
    if from == |s| {
      assert s[..from] == s;
    } else {
      assert s[..from + 1][..from] == s[..from];
      StrideOne(s, from + 1);
    }
  }

  // ---- one dot product, over the lanes of a warp ----

  const LANES: nat := 32
  const WARPS: nat := 4
  const MAX_ELEMS_PER_LANE: nat := 8

  function Products(a: seq<real>, b: seq<real>): (r: seq<real>)
    requires |a| == |b|
    ensures |r| == |a|
  {
    seq(|a|, d requires 0 <= d < |a| => a[d] * b[d])
  }

  function Dot(a: seq<real>, b: seq<real>): real
    requires |a| == |b|
  {
    Total(Products(a, b))
  }

  /** What one lane adds up: the elements lane, lane + 32, and so on. */
  method LanePartial(q: seq<real>, k: seq<real>, lane: nat) returns (partial: real)
    requires |q| == |k| <= LANES * MAX_ELEMS_PER_LANE && lane < LANES
    ensures partial == StrideSum(Products(q, k), lane, LANES)
  {
    var elems := (|q| + 31) / 32;
    ghost var p := Products(q, k);
    partial := 0.0;
    var e := 0;
    while e < MAX_ELEMS_PER_LANE
      invariant 0 <= e <= MAX_ELEMS_PER_LANE
      invariant partial + StrideSum(p, lane + e * LANES, LANES) == StrideSum(p, lane, LANES)
    {
      if e < elems {
        var d := lane + e * LANES;
        if d < |q| { partial := partial + q[d] * k[d]; }
      }
      e := e + 1;
    }
  }

  /** The shuffle reduction: after a round with some offset, lane l < offset holds every offset-th
      product from l on, so lane 0 ends up with all of them. */
  method Reduce(partial: array<real>, ghost p: seq<real>)
    requires partial.Length == LANES
    requires forall l | 0 <= l < LANES :: partial[l] == StrideSum(p, l, LANES)
    modifies partial
    ensures partial[0] == Total(p)
  {
    var offset := 16;
    ghost var width := LANES;
    while offset > 0
      invariant width in {32, 16, 8, 4, 2, 1} && offset == width / 2 && 1 <= width <= partial.Length
      invariant forall l | 0 <= l < width :: partial[l] == StrideSum(p, l, width)
      decreases offset
    {
      ReduceRound(partial, p, width, offset);
      width := offset;
      offset := offset / 2;
    }
    StrideOne(p, 0);
    assert p[..0] == [];
  }

  /** One round: every lane adds what the lane `offset` above it holds; a lane without one adds its
      own, which no later round reads. */
  method ReduceRound(partial: array<real>, ghost p: seq<real>, ghost width: nat, offset: nat)
    requires partial.Length == LANES && 1 <= width <= LANES && offset >= 1 && width == 2 * offset
    requires forall l | 0 <= l < width :: partial[l] == StrideSum(p, l, width)
    modifies partial
    ensures forall l | 0 <= l < offset :: partial[l] == StrideSum(p, l, offset)
  {
    hide StrideSum;
    var before := partial[..];
    forall l | 0 <= l < LANES {
      partial[l] := before[l] + (if l + offset < LANES then before[l + offset] else before[l]);
    }
    forall l | 0 <= l < offset ensures partial[l] == StrideSum(p, l, offset) {
      StrideSplit(p, l, offset);
    }
  }

  method WarpDot(q: seq<real>, k: seq<real>) returns (r: real)
    requires |q| == |k| <= LANES * MAX_ELEMS_PER_LANE
    ensures r == Dot(q, k)
  {
    var partial := new real[LANES];
    for lane := 0 to LANES
      invariant forall l | 0 <= l < lane :: partial[l] == StrideSum(Products(q, k), l, LANES)
    {
      partial[lane] := LanePartial(q, k, lane);
    }
    Reduce(partial, Products(q, k));
    return partial[0];
  }

  // ---- which warp visits which token ----

  /** The warp that reads token t. */
  function Owner(B: nat, t: nat): nat
    requires B >= 1
  {
    t / B % WARPS
  }

  /** The part of a sum over tokens 0..k that warp w contributes: a token belongs to the warp its
      block index leads to. */
  function Share(x: seq<real>, B: nat, w: nat, k: nat): real
    requires B >= 1 && k <= |x|
  {
    if k == 0 then 0.0 else Share(x, B, w, k - 1) + if Owner(B, k - 1) == w then x[k - 1] else 0.0
  }

  /** Every token belongs to exactly one warp. */
  lemma {:induction false} SharesCover(x: seq<real>, B: nat, k: nat)
    requires B >= 1 && k <= |x|
    ensures Share(x, B, 0, k) + Share(x, B, 1, k) + Share(x, B, 2, k) + Share(x, B, 3, k) == Total(x[..k])
  {
    if k > 0 {
      SharesCover(x, B, k - 1);
      assert x[..k][..k - 1] == x[..k - 1];
    }
  }

  /** A warp skips the blocks that are not its own. */
  lemma {:induction false} ShareSkips(x: seq<real>, B: nat, w: nat, first: nat, last: nat)
    requires B >= 1 && first <= last <= |x|
    requires forall t | first <= t < last :: Owner(B, t) != w
    ensures Share(x, B, w, last) == Share(x, B, w, first)
    decreases last
  {
    if first < last {
      ShareSkips(x, B, w, first, last - 1);
    }
  }

  // ---- the problem ----

  /** One launch: the tensors flat, as the kernel indexes them. */
  datatype Launch = Launch(
    q: seq<real>, k: seq<real>, v: seq<real>,
    tables: seq<seq<nat>>, lens: seq<nat>,
    blocks: nat, heads: nat, kvHeads: nat, dim: nat, B: nat, scale: real)

  ghost predicate Valid(a: Launch) {
    && a.B >= 1 && a.kvHeads >= 1 && a.heads >= a.kvHeads && a.heads % a.kvHeads == 0
    && 1 <= a.dim <= LANES * MAX_ELEMS_PER_LANE
    && |a.q| == |a.lens| * a.heads * a.dim
    && |a.k| == |a.v| == a.blocks * a.B * a.kvHeads * a.dim
    && |a.tables| == |a.lens|
    && forall i | 0 <= i < |a.lens| ::
         && a.lens[i] >= 1 && BlocksFor(a.B, a.lens[i]) <= |a.tables[i]|
         && forall j | 0 <= j < BlocksFor(a.B, a.lens[i]) :: a.tables[i][j] < a.blocks
  }

  /** Grouped-query attention: consecutive query heads share a key head. */
  function KvHead(a: Launch, h: nat): nat
    requires a.kvHeads >= 1 && a.heads >= a.kvHeads
  {
    h / (a.heads / a.kvHeads)
  }

  lemma KvHeadBound(a: Launch, h: nat)
    requires Valid(a) && h < a.heads
    ensures KvHead(a, h) < a.kvHeads
  {
    var n := a.heads / a.kvHeads;
    DivMod(a.heads, a.kvHeads);
    assert n * a.kvHeads == a.heads;
    assert a.kvHeads * n == a.heads;
    DivLess(h, n, a.kvHeads);
  }

  function Row(x: seq<real>, index: nat, dim: nat): (r: seq<real>)
    requires index * dim + dim <= |x|
    ensures |r| == dim
  {
    x[index * dim..index * dim + dim]
  }

  lemma RowFits(index: nat, n: nat, dim: nat)
    requires index < n
    ensures index * dim + dim <= n * dim
  {
    MulMonotone(index + 1, n, dim);
  }

  /** Where token t of sequence i lives: (block * B + slot) * kvHeads + kv head. */
  function TokenRow(a: Launch, i: nat, h: nat, t: nat): nat
    requires Valid(a) && i < |a.lens| && t < a.lens[i] && h < a.heads
    ensures TokenRow(a, i, h, t) < a.blocks * a.B * a.kvHeads
  {
    BlocksForLeast(a.B, a.lens[i], BlocksFor(a.B, a.lens[i]));
    DivLess(t, a.B, BlocksFor(a.B, a.lens[i]));
    KvHeadBound(a, h);
    TokenRowFits(a.tables[i][t / a.B], t % a.B, KvHead(a, h), a.blocks, a.B, a.kvHeads);
    (a.tables[i][t / a.B] * a.B + t % a.B) * a.kvHeads + KvHead(a, h)
  }

  lemma TokenRowFits(block: nat, slot: nat, head: nat, blocks: nat, B: nat, heads: nat)
    requires block < blocks && slot < B && head < heads
    ensures (block * B + slot) * heads + head < blocks * B * heads
  {
    MulMonotone(block + 1, blocks, B);
    MulMonotone(block * B + slot + 1, blocks * B, heads);
  }

  function QueryRow(a: Launch, i: nat, h: nat): (r: seq<real>)
    requires Valid(a) && i < |a.lens| && h < a.heads
    ensures |r| == a.dim
  {
    QueryRowFits(a, i, h);
    Row(a.q, i * a.heads + h, a.dim)
  }

  lemma QueryRowFits(a: Launch, i: nat, h: nat)
    requires Valid(a) && i < |a.lens| && h < a.heads
    ensures (i * a.heads + h) * a.dim + a.dim <= |a.q|
  {
    MulMonotone(i + 1, |a.lens|, a.heads);
    RowFits(i * a.heads + h, |a.lens| * a.heads, a.dim);
  }

  function KeyRow(a: Launch, i: nat, h: nat, t: nat): (r: seq<real>)
    requires Valid(a) && i < |a.lens| && t < a.lens[i] && h < a.heads
    ensures |r| == a.dim
  {
    RowFits(TokenRow(a, i, h, t), a.blocks * a.B * a.kvHeads, a.dim);
    Row(a.k, TokenRow(a, i, h, t), a.dim)
  }

  function ValueRow(a: Launch, i: nat, h: nat, t: nat): (r: seq<real>)
    requires Valid(a) && i < |a.lens| && t < a.lens[i] && h < a.heads
    ensures |r| == a.dim
  {
    RowFits(TokenRow(a, i, h, t), a.blocks * a.B * a.kvHeads, a.dim);
    Row(a.v, TokenRow(a, i, h, t), a.dim)
  }

  function Score(a: Launch, i: nat, h: nat, t: nat): real
    requires Valid(a) && i < |a.lens| && t < a.lens[i] && h < a.heads
  {
    Dot(QueryRow(a, i, h), KeyRow(a, i, h, t)) * a.scale
  }

  // ---- the reference ----

  /** exp of each token's score. */
  function Weights(exp: real -> real, a: Launch, i: nat, h: nat): (r: seq<real>)
    requires Valid(a) && i < |a.lens| && h < a.heads
    ensures |r| == a.lens[i] && forall t | 0 <= t < a.lens[i] :: r[t] == exp(Score(a, i, h, t))
  {
    seq(a.lens[i], t requires 0 <= t < a.lens[i] => exp(Score(a, i, h, t)))
  }

  function Term(exp: real -> real, a: Launch, i: nat, h: nat, d: nat, t: nat): real
    requires Valid(a) && i < |a.lens| && t < a.lens[i] && h < a.heads && d < a.dim
  {
    exp(Score(a, i, h, t)) * ValueRow(a, i, h, t)[d]
  }

  /** The same, times one coordinate of each token's value. */
  function Terms(exp: real -> real, a: Launch, i: nat, h: nat, d: nat): (r: seq<real>)
    requires Valid(a) && i < |a.lens| && h < a.heads && d < a.dim
    ensures |r| == a.lens[i] && forall t | 0 <= t < a.lens[i] :: r[t] == Term(exp, a, i, h, d, t)
  {
    seq(a.lens[i], t requires 0 <= t < a.lens[i] => Term(exp, a, i, h, d, t))
  }

  /** Softmax attention: the average of the values, weighted by exp of the scores. */
  ghost function Attention(exp: real -> real, a: Launch, i: nat, h: nat, d: nat): real
    requires Valid(a) && i < |a.lens| && h < a.heads && d < a.dim && IsExp(exp)
  {
    WeightsPositive(exp, a, i, h);
    Total(Terms(exp, a, i, h, d)) / Total(Weights(exp, a, i, h))
  }

  lemma WeightsPositive(exp: real -> real, a: Launch, i: nat, h: nat)
    requires Valid(a) && i < |a.lens| && h < a.heads && IsExp(exp)
    ensures Total(Weights(exp, a, i, h)) > 0.0
  {
    var w := Weights(exp, a, i, h);
    assert forall t | 0 <= t < |w| :: w[t] > 0.0;
    PositiveTotal(w);
  }

  lemma {:induction false} PositiveTotal(s: seq<real>)
    requires s != [] && forall t | 0 <= t < |s| :: s[t] > 0.0
    ensures Total(s) > 0.0
    decreases |s|
  {
    if |s| > 1 {
      PositiveTotal(s[..|s| - 1]);
    } else {
      assert s[..0] == [];
    }
  }

  // ---- one warp ----

  /** A warp's registers: the running maximum, and sum and accumulators relative to it. */
  datatype Partial = Partial(max: real, sum: real, acc: seq<real>)

  /** Where every running maximum starts. */
  const LOWEST: real := -1000000000000000000000000000000.0

  /** No score of the warp's first k tokens is above max, which is one of them or the start value. */
  ghost predicate Tops(a: Launch, i: nat, h: nat, w: nat, k: nat, max: real)
    requires Valid(a) && i < |a.lens| && h < a.heads && k <= a.lens[i] && a.B >= 1
  {
    && LOWEST <= max && (forall t | 0 <= t < k && Owner(a.B, t) == w :: Score(a, i, h, t) <= max)
    && (max == LOWEST || exists t | 0 <= t < k && Owner(a.B, t) == w :: Score(a, i, h, t) == max)
  }

  /** The registers stand for the warp's share of the first k tokens. */
  ghost predicate Stands(exp: real -> real, a: Launch, i: nat, h: nat, w: nat, k: nat, r: Partial) {
    && Valid(a) && i < |a.lens| && h < a.heads && k <= a.lens[i] && |r.acc| == a.dim && a.B >= 1
    && Tops(a, i, h, w, k, r.max)
    && r.sum == Share(Weights(exp, a, i, h), a.B, w, k) * exp(-r.max)
    && forall d | 0 <= d < a.dim :: r.acc[d] == Share(Terms(exp, a, i, h, d), a.B, w, k) * exp(-r.max)
  }

  lemma Distribute(share: real, e: real, v: real, a: real, b: real)
    ensures share * a * b + e * (a * b) * v == (share + e * v) * (a * b)
  {
  }

  /** Moving the maximum rescales what was summed, and the new term comes in at the new scale. */
  lemma Rescale(exp: real -> real, share: real, max: real, next: real, s: real, v: real)
    requires IsExp(exp)
    ensures share * exp(-max) * exp(max - next) + exp(s - next) * v == (share + exp(s) * v) * exp(-next)
  {
    hide IsExp;
    var a, b, c, e := exp(-max), exp(max - next), exp(-next), exp(s);
    ExpAdd(exp, -max, max - next);
    assert -max + (max - next) == -next;
    ExpAdd(exp, s, -next);
    assert s + -next == s - next;
    Distribute(share, e, v, a, b);
  }

  /** A warp that owns token t takes its term. */
  lemma ShareTakes(exp: real -> real, a: Launch, i: nat, h: nat, w: nat, t: nat)
    requires Valid(a) && i < |a.lens| && t < a.lens[i] && h < a.heads && Owner(a.B, t) == w
    ensures Share(Weights(exp, a, i, h), a.B, w, t + 1) == Share(Weights(exp, a, i, h), a.B, w, t) + exp(Score(a, i, h, t))
    ensures forall d | 0 <= d < a.dim ::
              Share(Terms(exp, a, i, h, d), a.B, w, t + 1) == Share(Terms(exp, a, i, h, d), a.B, w, t) + Term(exp, a, i, h, d, t)
  {
    hide Score, Term, Weights, Terms;
  }

  lemma TopsTakes(a: Launch, i: nat, h: nat, w: nat, t: nat, max: real)
    requires Valid(a) && i < |a.lens| && h < a.heads && t < a.lens[i] && a.B >= 1 && Owner(a.B, t) == w
    requires Tops(a, i, h, w, t, max)
    ensures Tops(a, i, h, w, t + 1, if max >= Score(a, i, h, t) then max else Score(a, i, h, t))
  {
    hide Valid, Score, Owner;
  }

  /** One token: the online-softmax update. What it takes the exp of is never positive. */
  method WarpToken(exp: real -> real, a: Launch, i: nat, h: nat, ghost w: nat, t: nat, r: Partial) returns (next: Partial)
    requires IsExp(exp) && Stands(exp, a, i, h, w, t, r) && t < a.lens[i] && Owner(a.B, t) == w
    ensures Stands(exp, a, i, h, w, t + 1, next)
    ensures r.max <= next.max && Score(a, i, h, t) <= next.max
  {
    hide IsExp, Valid, Weights, Terms, Score, ValueRow, KeyRow, QueryRow, Share, Dot, Tops;
    ValidDim(a);
    TopsTakes(a, i, h, w, t, r.max);
    ShareTakes(exp, a, i, h, w, t);
    ScoreIs(a, i, h, t);
    var dot := WarpDot(QueryRow(a, i, h), KeyRow(a, i, h, t));
    var score := dot * a.scale;
    var max := if r.max >= score then r.max else score;
    var correction := exp(r.max - max);
    var p := exp(score - max);
    var sum := r.sum * correction + p;
    Rescale(exp, Share(Weights(exp, a, i, h), a.B, w, t), r.max, max, score, 1.0);
    var acc := Accumulate(exp, a, i, h, w, t, r, max, score);
    next := Partial(max, sum, acc);
  }

  /** Every coordinate's accumulator moves with the maximum too. */
  method Accumulate(exp: real -> real, a: Launch, i: nat, h: nat, ghost w: nat, t: nat, r: Partial, max: real, score: real) returns (acc: seq<real>)
    requires IsExp(exp) && Stands(exp, a, i, h, w, t, r) && t < a.lens[i] && Owner(a.B, t) == w && score == Score(a, i, h, t)
    ensures |acc| == a.dim && forall d | 0 <= d < a.dim :: acc[d] == Share(Terms(exp, a, i, h, d), a.B, w, t + 1) * exp(-max)
  {
    hide IsExp, Valid, Weights, Terms, Score, ValueRow, KeyRow, QueryRow, Share, Tops;
    ValidDim(a);
    ShareTakes(exp, a, i, h, w, t);
    var v := ValueRow(a, i, h, t);
    var correction, p := exp(r.max - max), exp(score - max);
    acc := [];
    for d := 0 to a.dim
      invariant |acc| == d
      invariant forall c | 0 <= c < d :: acc[c] == Share(Terms(exp, a, i, h, c), a.B, w, t + 1) * exp(-max)
    {
      Rescale(exp, Share(Terms(exp, a, i, h, d), a.B, w, t), r.max, max, score, v[d]);
      acc := acc + [r.acc[d] * correction + p * v[d]];
    }
  }

  lemma ValidDim(a: Launch)
    requires Valid(a)
    ensures 1 <= a.dim <= LANES * MAX_ELEMS_PER_LANE && a.B >= 1
  {
  }

  lemma ScoreIs(a: Launch, i: nat, h: nat, t: nat)
    requires Valid(a) && i < |a.lens| && t < a.lens[i] && h < a.heads
    ensures Score(a, i, h, t) == Dot(QueryRow(a, i, h), KeyRow(a, i, h, t)) * a.scale
  {
  }

  /** The tokens before a block. */
  function Before(B: nat, n: nat, block: nat): (k: nat)
    ensures k <= n
  {
    if block * B <= n then block * B else n
  }

  /** One warp: every fourth block from its own on, slot by slot. */
  method Warp(exp: real -> real, a: Launch, i: nat, h: nat, w: nat) returns (r: Partial)
    requires IsExp(exp) && Valid(a) && i < |a.lens| && h < a.heads && w < WARPS
    ensures Stands(exp, a, i, h, w, a.lens[i], r)
  {
    hide IsExp, Stands, Valid, Before;
    ValidDim(a);
    var n := a.lens[i];
    var numBlocks := (n + a.B - 1) / a.B;
    r := Partial(LOWEST, 0.0, seq(a.dim, d => 0.0));
    var block := w;
    Untouched(exp, a, i, h, w, r);
    while block < numBlocks
      invariant block % WARPS == w && Stands(exp, a, i, h, w, Before(a.B, n, block), r)
      decreases numBlocks - block
    {
      r := WarpBlock(exp, a, i, h, w, block, r);
      block := block + WARPS;
    }
    BlockEnds(a.B, n, block);
  }

  /** One block of a warp's, all its tokens in order. */
  method WarpBlock(exp: real -> real, a: Launch, i: nat, h: nat, ghost w: nat, block: nat, r: Partial) returns (next: Partial)
    requires IsExp(exp) && Valid(a) && i < |a.lens| && h < a.heads && block % WARPS == w && block < BlocksFor(a.B, a.lens[i])
    requires Stands(exp, a, i, h, w, Before(a.B, a.lens[i], block), r)
    ensures Stands(exp, a, i, h, w, Before(a.B, a.lens[i], block + WARPS), next)
  {
    hide IsExp, Stands, Valid;
    ValidDim(a);
    var n := a.lens[i];
    BlockStarts(a.B, n, block);
    var first := block * a.B;
    var count := if a.B <= n - first then a.B else n - first;
    next := r;
    for slot := 0 to count
      invariant Stands(exp, a, i, h, w, first + slot, next)
    {
      DivUnique(first + slot, a.B, block);
      next := WarpToken(exp, a, i, h, w, first + slot, next);
    }
    forall t | first + count <= t < Before(a.B, n, block + WARPS) ensures Owner(a.B, t) != w {
      OtherBlocks(a.B, block, t, n);
    }
    BlocksGrow(a.B, n, block, first + count);
    StandsSkips(exp, a, i, h, w, first + count, Before(a.B, n, block + WARPS), next);
  }

  lemma BlockStarts(B: nat, n: nat, block: nat)
    requires B >= 1 && block < BlocksFor(B, n)
    ensures block * B < n && Before(B, n, block) == block * B
  {
    BlocksForLeast(B, n, block);
  }

  lemma BlockEnds(B: nat, n: nat, block: nat)
    requires B >= 1 && block >= BlocksFor(B, n)
    ensures Before(B, n, block) == n
  {
    BlocksForLeast(B, n, block);
  }

  lemma BlocksGrow(B: nat, n: nat, block: nat, k: nat)
    requires block * B < n && k == block * B + (if B <= n - block * B then B else n - block * B)
    ensures k <= Before(B, n, block + WARPS)
  {
    assert (block + WARPS) * B == block * B + WARPS * B;
  }

  /** The three blocks up to a warp's next one are not its own. */
  lemma OtherBlocks(B: nat, block: nat, t: nat, n: nat)
    requires B >= 1 && block * B < n && t < Before(B, n, block + WARPS)
    requires t >= block * B + (if B <= n - block * B then B else n - block * B)
    ensures Owner(B, t) != block % WARPS
  {
    assert (block + 1) * B == block * B + B;
    DivLess(t, B, block + WARPS);
    DivLess(t, B, block + 1);
  }

  lemma TopsSkips(a: Launch, i: nat, h: nat, w: nat, first: nat, last: nat, max: real)
    requires Valid(a) && i < |a.lens| && h < a.heads && first <= last <= a.lens[i] && a.B >= 1
    requires Tops(a, i, h, w, first, max) && forall t | first <= t < last :: Owner(a.B, t) != w
    ensures Tops(a, i, h, w, last, max)
  {
    hide Valid, Score;
  }

  /** Tokens of other warps change nothing. */
  lemma StandsSkips(exp: real -> real, a: Launch, i: nat, h: nat, w: nat, first: nat, last: nat, r: Partial)
    requires Stands(exp, a, i, h, w, first, r) && first <= last <= a.lens[i] && a.B >= 1
    requires forall t | first <= t < last :: Owner(a.B, t) != w
    ensures Stands(exp, a, i, h, w, last, r)
  {
    hide Weights, Terms, Share, Valid, Score, Tops;
    TopsSkips(a, i, h, w, first, last, r.max);
    ShareSkips(Weights(exp, a, i, h), a.B, w, first, last);
    forall d | 0 <= d < a.dim ensures r.acc[d] == Share(Terms(exp, a, i, h, d), a.B, w, last) * exp(-r.max) {
      ShareSkips(Terms(exp, a, i, h, d), a.B, w, first, last);
    }
  }

  /** Before its first block a warp stands for nothing: its share of earlier tokens is empty. */
  lemma Untouched(exp: real -> real, a: Launch, i: nat, h: nat, w: nat, r: Partial)
    requires Valid(a) && i < |a.lens| && h < a.heads && w < WARPS
    requires r.max == LOWEST && r.sum == 0.0 && |r.acc| == a.dim && forall d | 0 <= d < a.dim :: r.acc[d] == 0.0
    ensures Stands(exp, a, i, h, w, Before(a.B, a.lens[i], w), r)
  {
    hide Weights, Terms, Valid;
    ValidDim(a);
    var k := Before(a.B, a.lens[i], w);
    forall t | 0 <= t < k ensures Owner(a.B, t) != w {
      DivLess(t, a.B, w);
    }
    assert Stands(exp, a, i, h, w, 0, r);
    StandsSkips(exp, a, i, h, w, 0, k, r);
  }

  // ---- the merge ----

  /** Four partials, one per warp. */
  ghost predicate AllStand(exp: real -> real, a: Launch, i: nat, h: nat, parts: seq<Partial>) {
    && |parts| == WARPS && Valid(a) && i < |a.lens|
    && forall w | 0 <= w < WARPS :: Stands(exp, a, i, h, w, a.lens[i], parts[w])
  }

  /** Rescaled to a common maximum, the warps' sums add up to the whole. */
  lemma Merged(exp: real -> real, x: seq<real>, B: nat, n: nat, m: real, parts: seq<real>, maxes: seq<real>)
    requires IsExp(exp) && B >= 1 && n == |x| && |parts| == |maxes| == WARPS
    requires forall w | 0 <= w < WARPS :: parts[w] == Share(x, B, w, n) * exp(-maxes[w])
    ensures parts[0] * exp(maxes[0] - m) + parts[1] * exp(maxes[1] - m) + parts[2] * exp(maxes[2] - m)
            + parts[3] * exp(maxes[3] - m) == Total(x) * exp(-m)
  {
    hide IsExp, Share, Total;
    MergedOne(exp, Share(x, B, 0, n), maxes[0], m);
    MergedOne(exp, Share(x, B, 1, n), maxes[1], m);
    MergedOne(exp, Share(x, B, 2, n), maxes[2], m);
    MergedOne(exp, Share(x, B, 3, n), maxes[3], m);
    SharesCover(x, B, n);
    assert x[..n] == x;
    FourTimes(Share(x, B, 0, n), Share(x, B, 1, n), Share(x, B, 2, n), Share(x, B, 3, n), exp(-m));
  }

  lemma FourTimes(a: real, b: real, c: real, d: real, e: real)
    ensures a * e + b * e + c * e + d * e == (a + b + c + d) * e
  {
  }

  lemma MergedOne(exp: real -> real, share: real, max: real, m: real)
    requires IsExp(exp)
    ensures share * exp(-max) * exp(max - m) == share * exp(-m)
  {
    hide IsExp;
    ExpAdd(exp, -max, max - m);
    assert -max + (max - m) == -m;
    Distribute(share, 0.0, 0.0, exp(-max), exp(max - m));
  }

  /** A common factor cancels. */
  lemma Cancel(x: real, y: real, e: real)
    requires e > 0.0 && y > 0.0
    ensures y * e > 0.0 && (x * e) / (y * e) == x / y
  {
    assert x / y * (y * e) == x * e;
  }

  function MergeSum(exp: real -> real, parts: seq<real>, maxes: seq<real>, m: real, k: nat): real
    requires k <= |parts| == |maxes|
  {
    if k == 0 then 0.0 else MergeSum(exp, parts, maxes, m, k - 1) + parts[k - 1] * exp(maxes[k - 1] - m)
  }

  /** All four warps' parts of one quantity, at the merged maximum. */
  lemma MergeSumAll(exp: real -> real, x: seq<real>, B: nat, m: real, parts: seq<real>, maxes: seq<real>)
    requires IsExp(exp) && B >= 1 && |parts| == |maxes| == WARPS
    requires forall w | 0 <= w < WARPS :: parts[w] == Share(x, B, w, |x|) * exp(-maxes[w])
    ensures MergeSum(exp, parts, maxes, m, WARPS) == Total(x) * exp(-m)
  {
    hide IsExp, Share, Total;
    Merged(exp, x, B, |x|, m, parts, maxes);
    assert MergeSum(exp, parts, maxes, m, 1) == parts[0] * exp(maxes[0] - m);
    assert MergeSum(exp, parts, maxes, m, 2) == MergeSum(exp, parts, maxes, m, 1) + parts[1] * exp(maxes[1] - m);
    assert MergeSum(exp, parts, maxes, m, 3) == MergeSum(exp, parts, maxes, m, 2) + parts[2] * exp(maxes[2] - m);
  }

  /** Folds one quantity of the four warps. */
  method MergeOne(exp: real -> real, parts: seq<real>, maxes: seq<real>, m: real) returns (r: real)
    requires |parts| == |maxes| == WARPS
    ensures r == MergeSum(exp, parts, maxes, m, WARPS)
  {
    r := 0.0;
    for w := 0 to WARPS
      invariant r == MergeSum(exp, parts, maxes, m, w)
    {
      r := r + parts[w] * exp(maxes[w] - m);
    }
  }

  /** The part after the barrier: rescale every warp to the common maximum, add up, divide. */
  method Merge(exp: real -> real, a: Launch, i: nat, h: nat, parts: seq<Partial>) returns (out: seq<real>)
    requires IsExp(exp) && h < a.heads && AllStand(exp, a, i, h, parts)
    ensures |out| == a.dim && forall d | 0 <= d < a.dim :: out[d] == Attention(exp, a, i, h, d)
  {
    hide IsExp, Valid, AllStand, Attention;
    PartsNumber(exp, a, i, h, parts);
    ValidDim(a);
    var m := MergedMax(exp, a, i, h, parts);
    var maxes := seq(WARPS, w requires 0 <= w < WARPS => parts[w].max);
    var sum := MergeSums(exp, a, i, h, parts, maxes, m);
    out := [];
    for d := 0 to a.dim
      invariant |out| == d && forall c | 0 <= c < d :: out[c] == Attention(exp, a, i, h, c)
    {
      var acc := MergeCoordinate(exp, a, i, h, parts, maxes, m, d);
      Quotient(exp, a, i, h, d, m, acc, sum);
      out := out + [acc / sum];
    }
  }

  /** The common maximum: no token of the sequence scores above it, and every warp is rescaled down. */
  method MergedMax(exp: real -> real, a: Launch, i: nat, h: nat, parts: seq<Partial>) returns (m: real)
    requires h < a.heads && AllStand(exp, a, i, h, parts)
    ensures forall w | 0 <= w < WARPS :: parts[w].max <= m
    ensures forall t | 0 <= t < a.lens[i] :: Score(a, i, h, t) <= m
    ensures m == LOWEST || exists t | 0 <= t < a.lens[i] :: Score(a, i, h, t) == m
  {
    hide Valid, Weights, Terms, Share, Score, Owner, AllStand;
    PartsStand(exp, a, i, h, parts);
    m := LOWEST;
    for w := 0 to WARPS
      invariant m >= LOWEST && forall u | 0 <= u < w :: parts[u].max <= m
      invariant m == LOWEST || exists t | 0 <= t < a.lens[i] :: Score(a, i, h, t) == m
    {
      assert Stands(exp, a, i, h, w, a.lens[i], parts[w]);
      if parts[w].max > m { m := parts[w].max; }
    }
    forall t | 0 <= t < a.lens[i] ensures Score(a, i, h, t) <= m {
      OwnerIsWarp(a.B, t);
      assert Stands(exp, a, i, h, Owner(a.B, t), a.lens[i], parts[Owner(a.B, t)]);
    }
  }

  lemma OwnerIsWarp(B: nat, t: nat)
    requires B >= 1
    ensures 0 <= Owner(B, t) < WARPS
  {
  }

  lemma PartsStand(exp: real -> real, a: Launch, i: nat, h: nat, parts: seq<Partial>)
    requires AllStand(exp, a, i, h, parts)
    ensures |parts| == WARPS && Valid(a) && i < |a.lens| && a.B >= 1
    ensures forall w | 0 <= w < WARPS :: Stands(exp, a, i, h, w, a.lens[i], parts[w])
  {
    hide Stands;
    ValidDim(a);
  }

  lemma PartsNumber(exp: real -> real, a: Launch, i: nat, h: nat, parts: seq<Partial>)
    requires AllStand(exp, a, i, h, parts)
    ensures |parts| == WARPS && Valid(a) && i < |a.lens|
    ensures forall w | 0 <= w < WARPS :: |parts[w].acc| == a.dim
  {
    assert forall w | 0 <= w < WARPS :: Stands(exp, a, i, h, w, a.lens[i], parts[w]);
  }

  /** The merged denominator. */
  method MergeSums(exp: real -> real, a: Launch, i: nat, h: nat, parts: seq<Partial>, maxes: seq<real>, m: real) returns (sum: real)
    requires IsExp(exp) && h < a.heads && AllStand(exp, a, i, h, parts)
    requires |maxes| == WARPS && forall w | 0 <= w < WARPS :: maxes[w] == parts[w].max
    ensures sum == Total(Weights(exp, a, i, h)) * exp(-m)
  {
    hide IsExp, Valid, Share, Weights, MergeSum, Total, Tops;
    ValidDim(a);
    assert forall w | 0 <= w < WARPS :: Stands(exp, a, i, h, w, a.lens[i], parts[w]);
    var sums := seq(WARPS, w requires 0 <= w < WARPS => parts[w].sum);
    sum := MergeOne(exp, sums, maxes, m);
    MergeSumAll(exp, Weights(exp, a, i, h), a.B, m, sums, maxes);
  }

  /** The merged numerator of one coordinate. */
  method MergeCoordinate(exp: real -> real, a: Launch, i: nat, h: nat, parts: seq<Partial>, maxes: seq<real>, m: real, d: nat) returns (acc: real)
    requires IsExp(exp) && h < a.heads && AllStand(exp, a, i, h, parts) && d < a.dim
    requires |maxes| == WARPS && forall w | 0 <= w < WARPS :: maxes[w] == parts[w].max
    ensures acc == Total(Terms(exp, a, i, h, d)) * exp(-m)
  {
    hide IsExp, Valid, Share, Terms, Weights, MergeSum, Total, Tops;
    ValidDim(a);
    assert forall w | 0 <= w < WARPS :: Stands(exp, a, i, h, w, a.lens[i], parts[w]);
    var accs := seq(WARPS, w requires 0 <= w < WARPS => parts[w].acc[d]);
    acc := MergeOne(exp, accs, maxes, m);
    MergeSumAll(exp, Terms(exp, a, i, h, d), a.B, m, accs, maxes);
  }

  lemma Quotient(exp: real -> real, a: Launch, i: nat, h: nat, d: nat, m: real, acc: real, sum: real)
    requires IsExp(exp) && Valid(a) && i < |a.lens| && h < a.heads && d < a.dim
    requires acc == Total(Terms(exp, a, i, h, d)) * exp(-m) && sum == Total(Weights(exp, a, i, h)) * exp(-m)
    ensures sum != 0.0 && acc / sum == Attention(exp, a, i, h, d)
  {
    hide IsExp, Valid, Terms, Weights, Total;
    WeightsPositive(exp, a, i, h);
    ExpAdd(exp, -m, 0.0);
    Cancel(Total(Terms(exp, a, i, h, d)), Total(Weights(exp, a, i, h)), exp(-m));
  }

  /** The whole grid: one thread block per sequence and query head. */
  method PagedAttentionDecode(exp: real -> real, a: Launch) returns (out: array3<real>)
    requires IsExp(exp) && Valid(a)
    ensures out.Length0 == |a.lens| && out.Length1 == a.heads && out.Length2 == a.dim
    ensures forall i, h, d | 0 <= i < |a.lens| && 0 <= h < a.heads && 0 <= d < a.dim :: out[i, h, d] == Attention(exp, a, i, h, d)
  {
    hide IsExp, Valid, Attention;
    out := new real[|a.lens|, a.heads, a.dim];
    for i := 0 to |a.lens|
      invariant forall j, h, d | 0 <= j < i && 0 <= h < a.heads && 0 <= d < a.dim :: out[j, h, d] == Attention(exp, a, j, h, d)
    {
      for h := 0 to a.heads
        invariant forall j, g, d | 0 <= j < i && 0 <= g < a.heads && 0 <= d < a.dim :: out[j, g, d] == Attention(exp, a, j, g, d)
        invariant forall g, d | 0 <= g < h && 0 <= d < a.dim :: out[i, g, d] == Attention(exp, a, i, g, d)
      {
        var row := HeadKernel(exp, a, i, h);
        forall d | 0 <= d < a.dim { out[i, h, d] := row[d]; }
      }
    }
  }

  /** One thread block. */
  method HeadKernel(exp: real -> real, a: Launch, i: nat, h: nat) returns (row: seq<real>)
    requires IsExp(exp) && Valid(a) && i < |a.lens| && h < a.heads
    ensures |row| == a.dim && forall d | 0 <= d < a.dim :: row[d] == Attention(exp, a, i, h, d)
  {
    hide IsExp, Valid, Stands, Attention;
    var parts: seq<Partial> := [];
    for w := 0 to WARPS
      invariant |parts| == w && forall u | 0 <= u < w :: Stands(exp, a, i, h, u, a.lens[i], parts[u])
    {
      var r := Warp(exp, a, i, h, w);
      parts := parts + [r];
    }
    row := Merge(exp, a, i, h, parts);
  }

  // ---- the CPU path: the gathered tensors ----

  /** Indexing a tensor by a list of blocks, `size` numbers each, and laying them end to end. */
  function GatherBlocks(x: seq<real>, table: seq<nat>, n: nat, size: nat): (r: seq<real>)
    requires n <= |table| && forall j | 0 <= j < n :: table[j] * size + size <= |x|
    ensures |r| == n * size
  {
    if n == 0 then []
    else
      Times(n - 1, size);
      GatherBlocks(x, table, n - 1, size) + Row(x, table[n - 1], size)
  }

  lemma Times(n: nat, size: nat)
    ensures (n + 1) * size == n * size + size
  {
  }

  /** `rep` copies of a row. */
  function Copies(row: seq<real>, rep: nat): (r: seq<real>)
    ensures |r| == rep * |row|
  {
    if rep == 0 then []
    else
      Times(rep - 1, |row|);
      Copies(row, rep - 1) + row
  }

  /** `repeat_interleave` over the heads: every row of a (tokens, heads, dim) tensor `rep` times. */
  function RepeatRows(x: seq<real>, rows: nat, rep: nat, dim: nat): (r: seq<real>)
    requires rows * dim <= |x|
    ensures |r| == rows * (rep * dim)
  {
    if rows == 0 then []
    else
      Times(rows - 1, dim);
      Times(rows - 1, rep * dim);
      RepeatRows(x, rows - 1, rep, dim) + Copies(Row(x, rows - 1, dim), rep)
  }

  /** Row `index` of a tensor of rows of `dim` numbers. */
  predicate RowIs(x: seq<real>, index: nat, dim: nat, row: seq<real>) {
    index * dim + dim <= |x| && Row(x, index, dim) == row
  }

  /** Row i of two tensors one after the other. */
  lemma RowConcat(x: seq<real>, y: seq<real>, n: nat, i: nat, dim: nat, row: seq<real>)
    requires |x| == n * dim && |y| == dim && i <= n
    requires if i < n then RowIs(x, i, dim, row) else row == y
    ensures RowIs(x + y, i, dim, row)
  {
  }

  lemma {:induction false} GatheredBlock(x: seq<real>, table: seq<nat>, n: nat, size: nat, j: nat, row: seq<real>)
    requires n <= |table| && (forall b | 0 <= b < n :: table[b] * size + size <= |x|) && j < n
    requires RowIs(x, table[j], size, row)
    ensures RowIs(GatherBlocks(x, table, n, size), j, size, row)
  {
    if j < n - 1 { GatheredBlock(x, table, n - 1, size, j, row); }
    RowConcat(GatherBlocks(x, table, n - 1, size), Row(x, table[n - 1], size), n - 1, j, size, row);
  }

  lemma {:induction false} CopyAt(row: seq<real>, rep: nat, c: nat)
    requires c < rep
    ensures RowIs(Copies(row, rep), c, |row|, row)
  {
    if c < rep - 1 { CopyAt(row, rep - 1, c); }
    RowConcat(Copies(row, rep - 1), row, rep - 1, c, |row|, row);
  }

  lemma {:induction false} RepeatedRows(x: seq<real>, rows: nat, rep: nat, dim: nat, i: nat, row: seq<real>)
    requires rows * dim <= |x| && i < rows && RowIs(x, i, dim, row)
    ensures RowIs(RepeatRows(x, rows, rep, dim), i, rep * dim, Copies(row, rep))
  {
    Times(rows - 1, dim);
    if i < rows - 1 { RepeatedRows(x, rows - 1, rep, dim, i, row); }
    RowConcat(RepeatRows(x, rows - 1, rep, dim), Copies(Row(x, rows - 1, dim), rep), rows - 1, i, rep * dim, Copies(row, rep));
  }

  /** A row within a row of k rows. */
  lemma RowOfRow(x: seq<real>, j: nat, k: nat, r: nat, dim: nat, block: seq<real>, row: seq<real>)
    requires r < k && RowIs(x, j, k * dim, block)
    ensures RowIs(x, j * k + r, dim, row) <==> RowIs(block, r, dim, row)
  {
    RowFits(r, k, dim);
    Distributed(j, k, r, dim);
    PartOfPart(x, j * (k * dim), k * dim, r * dim, dim, (j * k + r) * dim, block);
  }

  /** A part of a part of a sequence. */
  lemma PartOfPart(x: seq<real>, start: nat, size: nat, o: nat, n: nat, p: nat, block: seq<real>)
    requires start + size <= |x| && o + n <= size && p == start + o && block == x[start..start + size]
    ensures p + n <= |x| && o + n <= |block| && x[p..p + n] == block[o..o + n]
  {
    var outer, inner := x[p..p + n], block[o..o + n];
    forall k | 0 <= k < n ensures outer[k] == inner[k] {
      assert block[o + k] == x[start + (o + k)];
    }
  }

  lemma Distributed(j: nat, k: nat, r: nat, dim: nat)
    ensures (j * k + r) * dim == j * (k * dim) + r * dim
  {
    SumTimes(j * k, r, dim);
    Associated(j, k, dim);
  }

  lemma SumTimes(a: nat, b: nat, c: nat)
    ensures (a + b) * c == a * c + b * c
  {
  }

  lemma Associated(a: nat, b: nat, c: nat)
    ensures a * b * c == a * (b * c)
  {
  }

  /** A cache tensor as one sequence sees it: its blocks, one token's heads after the other's, cut to
      its context, every head once for each query head that shares it. */
  function SequenceTensor(a: Launch, x: seq<real>, i: nat): (r: seq<real>)
    requires TensorShape(a, x, i)
    ensures |r| == a.lens[i] * a.heads * a.dim
  {
    var gathered := GatherBlocks(x, a.tables[i], BlocksFor(a.B, a.lens[i]), a.B * a.kvHeads * a.dim);
    SharedHeads(gathered, a.lens[i] * a.kvHeads, a.heads / a.kvHeads, a.dim)
  }

  /** The first rows, each repeated if heads are shared. */
  function SharedHeads(x: seq<real>, rows: nat, rep: nat, dim: nat): (r: seq<real>)
    requires rows * dim <= |x| && rep >= 1
    ensures |r| == rows * (rep * dim)
  {
    if rep > 1 then RepeatRows(x[..rows * dim], rows, rep, dim) else x[..rows * dim]
  }

  /** The gather, the cut and the repetition stay within the tensors. */
  ghost predicate TensorShape(a: Launch, x: seq<real>, i: nat) {
    && i < |a.lens| && i < |a.tables| && a.B >= 1 && a.kvHeads >= 1
    && var n, size, rep := BlocksFor(a.B, a.lens[i]), a.B * a.kvHeads * a.dim, a.heads / a.kvHeads;
    && n <= |a.tables[i]|
    && (forall j | 0 <= j < n :: a.tables[i][j] * size + size <= |x|)
    && a.lens[i] * a.kvHeads * a.dim <= n * size
    && rep >= 1 && rep * a.kvHeads == a.heads
    && a.lens[i] * a.kvHeads * (rep * a.dim) == a.lens[i] * a.heads * a.dim
  }

  lemma TensorFits(a: Launch, x: seq<real>, i: nat)
    requires Valid(a) && i < |a.lens| && |x| == a.blocks * a.B * a.kvHeads * a.dim
    ensures TensorShape(a, x, i)
  {
    var n, size, rep := BlocksFor(a.B, a.lens[i]), a.B * a.kvHeads * a.dim, a.heads / a.kvHeads;
    HeadsSplit(a);
    Regroup(a.blocks, a.B, a.kvHeads, a.dim);
    BlocksForLeast(a.B, a.lens[i], n);
    assert n <= |a.tables[i]| && forall j | 0 <= j < n :: a.tables[i][j] < a.blocks;
    hide Valid, BlocksFor;
    forall j | 0 <= j < n ensures a.tables[i][j] * size + size <= |x| {
      RowFits(a.tables[i][j], a.blocks, size);
    }
    Regroup(n, a.B, a.kvHeads, a.dim);
    MulMonotone(a.lens[i], n * a.B, a.kvHeads);
    MulMonotone(a.lens[i] * a.kvHeads, n * a.B * a.kvHeads, a.dim);
    Regroup(a.lens[i], a.kvHeads, rep, a.dim);
    Swapped(a.lens[i], a.kvHeads, rep, a.dim);
  }

  lemma HeadsSplit(a: Launch)
    requires Valid(a)
    ensures a.heads / a.kvHeads >= 1 && (a.heads / a.kvHeads) * a.kvHeads == a.heads
  {
    DivMod(a.heads, a.kvHeads);
    DivLess(a.heads, a.kvHeads, 1);
  }

  lemma Regroup(a: nat, b: nat, c: nat, d: nat)
    ensures a * b * c * d == a * (b * c * d)
  {
    Associated(a, b, c);
    Associated(a, b * c, d);
  }

  lemma Swapped(n: nat, k: nat, rep: nat, dim: nat)
    ensures n * k * (rep * dim) == n * (rep * k) * dim
  {
    Associated(n * k, rep, dim);
    Associated(n, k, rep);
    assert k * rep == rep * k;
  }

  /** Row (t, h) of that tensor is what the kernel reads for token t and query head h: through the
      block table, from the key head that h shares. */
  lemma SequenceTensorRow(a: Launch, x: seq<real>, i: nat, h: nat, t: nat, row: seq<real>)
    requires Valid(a) && i < |a.lens| && |x| == a.blocks * a.B * a.kvHeads * a.dim && h < a.heads && t < a.lens[i]
    requires RowIs(x, TokenRow(a, i, h, t), a.dim, row) && TensorShape(a, x, i)
    ensures RowIs(SequenceTensor(a, x, i), t * a.heads + h, a.dim, row)
  {
    KvHeadBound(a, h);
    HeadIndex(a, t, h);
    GatheredToken(a, x, i, h, t, row);
    IndexFits(t, KvHead(a, h), a.lens[i], a.kvHeads);
    hide Valid, TokenRow, BlocksFor, GatherBlocks, RepeatRows, RowIs;
    var gathered := GatherBlocks(x, a.tables[i], BlocksFor(a.B, a.lens[i]), a.B * a.kvHeads * a.dim);
    SharedRow(gathered, a.lens[i] * a.kvHeads, a.heads / a.kvHeads, a.dim, t * a.kvHeads + KvHead(a, h), h % (a.heads / a.kvHeads), row);
  }

  lemma SharedRow(x: seq<real>, rows: nat, rep: nat, dim: nat, i: nat, c: nat, row: seq<real>)
    requires rows * dim <= |x| && i < rows && c < rep && RowIs(x, i, dim, row)
    ensures RowIs(SharedHeads(x, rows, rep, dim), i * rep + c, dim, row)
  {
    hide RowIs, RepeatRows;
    RowCut(x, rows, i, dim, row);
    if rep > 1 {
      RepeatedRow(x[..rows * dim], rows, rep, dim, i, c, row);
    } else {
      assert i * rep + c == i;
    }
  }

  lemma RepeatedRow(x: seq<real>, rows: nat, rep: nat, dim: nat, i: nat, c: nat, row: seq<real>)
    requires rows * dim <= |x| && i < rows && c < rep && RowIs(x, i, dim, row)
    ensures RowIs(RepeatRows(x, rows, rep, dim), i * rep + c, dim, row)
  {
    hide RowIs, Row, RepeatRows;
    RowLength(x, i, dim, row);
    RepeatedRows(x, rows, rep, dim, i, row);
    CopyAt(row, rep, c);
    RowOfRow(RepeatRows(x, rows, rep, dim), i, rep, c, dim, Copies(row, rep), row);
  }

  lemma RowLength(x: seq<real>, i: nat, dim: nat, row: seq<real>)
    requires RowIs(x, i, dim, row)
    ensures |row| == dim
  {
  }

  lemma RowCut(x: seq<real>, n: nat, i: nat, dim: nat, row: seq<real>)
    requires i < n && n * dim <= |x| && RowIs(x, i, dim, row)
    ensures RowIs(x[..n * dim], i, dim, row)
  {
    RowFits(i, n, dim);
  }

  lemma IndexFits(t: nat, h: nat, n: nat, heads: nat)
    requires t < n && h < heads
    ensures t * heads + h < n * heads
  {
    MulMonotone(t + 1, n, heads);
  }

  /** Which copy of which head a query head reads. */
  lemma HeadIndex(a: Launch, t: nat, h: nat)
    requires Valid(a) && h < a.heads
    ensures var rep := a.heads / a.kvHeads;
            && rep >= 1 && h % rep < rep
            && t * a.heads + h == (t * a.kvHeads + KvHead(a, h)) * rep + h % rep
            && (rep == 1 ==> t * a.heads + h == t * a.kvHeads + KvHead(a, h))
  {
    var rep := a.heads / a.kvHeads;
    HeadsSplit(a);
    DivMod(h, rep);
    Distributed(t, a.kvHeads, KvHead(a, h), rep);
    Swapped(t, a.kvHeads, rep, 1);
    assert t * (a.kvHeads * rep) == t * a.heads;
  }

  /** Row (t, head) of the blocks laid end to end is the token's row in its block. */
  lemma GatheredToken(a: Launch, x: seq<real>, i: nat, h: nat, t: nat, row: seq<real>)
    requires Valid(a) && i < |a.lens| && |x| == a.blocks * a.B * a.kvHeads * a.dim && h < a.heads && t < a.lens[i]
    requires RowIs(x, TokenRow(a, i, h, t), a.dim, row)
    requires BlocksFor(a.B, a.lens[i]) <= |a.tables[i]|
    requires forall j | 0 <= j < BlocksFor(a.B, a.lens[i]) :: a.tables[i][j] * (a.B * a.kvHeads * a.dim) + a.B * a.kvHeads * a.dim <= |x|
    ensures RowIs(GatherBlocks(x, a.tables[i], BlocksFor(a.B, a.lens[i]), a.B * a.kvHeads * a.dim), t * a.kvHeads + KvHead(a, h), a.dim, row)
  {
    TokenIndex(a, i, h, t);
    hide Valid, BlocksFor, GatherBlocks, TokenRow, RowIs;
    GatheredRow(x, a.tables[i], BlocksFor(a.B, a.lens[i]), a.B * a.kvHeads, a.dim, t / a.B, t % a.B * a.kvHeads + KvHead(a, h), row);
  }

  /** Where a token's row is: row r of block t / B, in the cache and in the gathered blocks. */
  lemma TokenIndex(a: Launch, i: nat, h: nat, t: nat)
    requires Valid(a) && i < |a.lens| && h < a.heads && t < a.lens[i]
    ensures var j, k, r := t / a.B, a.B * a.kvHeads, t % a.B * a.kvHeads + KvHead(a, h);
            && 0 <= j < BlocksFor(a.B, a.lens[i]) <= |a.tables[i]| && 0 <= r < k
            && TokenRow(a, i, h, t) == a.tables[i][j] * k + r
            && t * a.kvHeads + KvHead(a, h) == j * k + r
  {
    var n := BlocksFor(a.B, a.lens[i]);
    var j, slot, head := t / a.B, t % a.B, KvHead(a, h);
    BlocksForLeast(a.B, a.lens[i], n);
    DivLess(t, a.B, n);
    KvHeadBound(a, h);
    DivMod(t, a.B);
    InBlock(j, slot, head, a.B, a.kvHeads);
    InBlock(a.tables[i][j], slot, head, a.B, a.kvHeads);
    IndexFits(slot, head, a.B, a.kvHeads);
  }

  lemma GatheredRow(x: seq<real>, table: seq<nat>, n: nat, k: nat, dim: nat, j: nat, r: nat, row: seq<real>)
    requires n <= |table| && (forall b | 0 <= b < n :: table[b] * (k * dim) + k * dim <= |x|) && j < n && r < k
    requires RowIs(x, table[j] * k + r, dim, row)
    ensures RowIs(GatherBlocks(x, table, n, k * dim), j * k + r, dim, row)
  {
    var block := Row(x, table[j], k * dim);
    assert RowIs(x, table[j], k * dim, block);
    hide RowIs, Row, GatherBlocks;
    RowOfRow(x, table[j], k, r, dim, block, row);
    GatheredBlock(x, table, n, k * dim, j, block);
    RowOfRow(GatherBlocks(x, table, n, k * dim), j, k, r, dim, block, row);
  }

  lemma InBlock(block: nat, slot: nat, head: nat, B: nat, heads: nat)
    ensures (block * B + slot) * heads + head == block * (B * heads) + (slot * heads + head)
  {
    Distributed(block, B, slot, heads);
  }

  // ---- the CPU path: attention over them ----

  /** The reference: per sequence, gather, then attend. */
  method PagedAttentionDecodeCpu(exp: real -> real, a: Launch) returns (out: array3<real>)
    requires IsExp(exp) && Valid(a)
    ensures out.Length0 == |a.lens| && out.Length1 == a.heads && out.Length2 == a.dim
    ensures forall i, h, d | 0 <= i < |a.lens| && 0 <= h < a.heads && 0 <= d < a.dim :: out[i, h, d] == Attention(exp, a, i, h, d)
  {
    hide IsExp, Valid, Attention;
    out := new real[|a.lens|, a.heads, a.dim];
    for i := 0 to |a.lens|
      invariant forall j, h, d | 0 <= j < i && 0 <= h < a.heads && 0 <= d < a.dim :: out[j, h, d] == Attention(exp, a, j, h, d)
    {
      var rows := SequenceCpu(exp, a, i);
      forall h, d | 0 <= h < a.heads && 0 <= d < a.dim { out[i, h, d] := rows[h][d]; }
    }
  }

  /** One sequence: its gathered tensors, then every head. */
  method SequenceCpu(exp: real -> real, a: Launch, i: nat) returns (rows: seq<seq<real>>)
    requires IsExp(exp) && Valid(a) && i < |a.lens|
    ensures |rows| == a.heads && forall h | 0 <= h < a.heads :: |rows[h]| == a.dim
    ensures forall h, d | 0 <= h < a.heads && 0 <= d < a.dim :: rows[h][d] == Attention(exp, a, i, h, d)
  {
    assert |a.k| == |a.v| == a.blocks * a.B * a.kvHeads * a.dim;
    hide IsExp, Valid, Attention, SequenceTensor, TensorShape;
    TensorFits(a, a.k, i);
    TensorFits(a, a.v, i);
    var k, v := SequenceTensor(a, a.k, i), SequenceTensor(a, a.v, i);
    rows := [];
    for h := 0 to a.heads
      invariant |rows| == h && forall g | 0 <= g < h :: |rows[g]| == a.dim
      invariant forall g, d | 0 <= g < h && 0 <= d < a.dim :: rows[g][d] == Attention(exp, a, i, g, d)
    {
      var row := HeadCpu(exp, a, i, h, k, v);
      rows := rows + [row];
    }
  }

  /** So row (t, h) of the key tensor is the kernel's key, and likewise for the values. */
  lemma TensorRows(a: Launch, i: nat, h: nat, t: nat)
    requires Valid(a) && i < |a.lens| && h < a.heads && t < a.lens[i] && |a.k| == |a.v| == a.blocks * a.B * a.kvHeads * a.dim
    requires TensorShape(a, a.k, i) && TensorShape(a, a.v, i)
    ensures RowIs(SequenceTensor(a, a.k, i), t * a.heads + h, a.dim, KeyRow(a, i, h, t))
    ensures RowIs(SequenceTensor(a, a.v, i), t * a.heads + h, a.dim, ValueRow(a, i, h, t))
  {
    RowFits(TokenRow(a, i, h, t), a.blocks * a.B * a.kvHeads, a.dim);
    hide Valid, TokenRow, SequenceTensor;
    SequenceTensorRow(a, a.k, i, h, t, KeyRow(a, i, h, t));
    SequenceTensorRow(a, a.v, i, h, t, ValueRow(a, i, h, t));
  }

  /** Row (t, h) of a sequence's tensor. */
  function TensorRow(a: Launch, x: seq<real>, t: nat, h: nat): seq<real> {
    var index := t * a.heads + h;
    if index * a.dim + a.dim <= |x| then Row(x, index, a.dim) else []
  }

  lemma TensorRowIs(a: Launch, i: nat, h: nat, t: nat)
    requires Valid(a) && i < |a.lens| && h < a.heads && t < a.lens[i] && |a.k| == |a.v| == a.blocks * a.B * a.kvHeads * a.dim
    requires TensorShape(a, a.k, i) && TensorShape(a, a.v, i)
    ensures TensorRow(a, SequenceTensor(a, a.k, i), t, h) == KeyRow(a, i, h, t)
    ensures TensorRow(a, SequenceTensor(a, a.v, i), t, h) == ValueRow(a, i, h, t)
  {
    hide Valid, SequenceTensor;
    TensorRows(a, i, h, t);
  }

  method CpuScore(a: Launch, i: nat, h: nat, t: nat, k: seq<real>) returns (score: real)
    requires Valid(a) && i < |a.lens| && h < a.heads && t < a.lens[i] && |a.k| == |a.v| == a.blocks * a.B * a.kvHeads * a.dim
    requires TensorShape(a, a.k, i) && TensorShape(a, a.v, i) && k == SequenceTensor(a, a.k, i)
    ensures score == Score(a, i, h, t)
  {
    hide Valid, TensorShape, SequenceTensor, KeyRow, TensorRow, Dot, QueryRow;
    TensorRowIs(a, i, h, t);
    score := Dot(QueryRow(a, i, h), TensorRow(a, k, t, h)) * a.scale;
  }

  /** exp of the scores of one head against the gathered keys. */
  method CpuWeights(exp: real -> real, a: Launch, i: nat, h: nat, k: seq<real>) returns (raw: seq<real>)
    requires Valid(a) && i < |a.lens| && h < a.heads && |a.k| == |a.v| == a.blocks * a.B * a.kvHeads * a.dim
    requires TensorShape(a, a.k, i) && TensorShape(a, a.v, i) && k == SequenceTensor(a, a.k, i)
    ensures raw == Weights(exp, a, i, h)
  {
    hide Valid, TensorShape, SequenceTensor, KeyRow, TensorRow, Dot, QueryRow, Score;
    raw := [];
    for t := 0 to a.lens[i]
      invariant |raw| == t && forall u | 0 <= u < t :: raw[u] == exp(Score(a, i, h, u))
    {
      var score := CpuScore(a, i, h, t, k);
      raw := raw + [exp(score)];
    }
  }

  /** Softmax of one head's scores, then the weighted values. */
  method HeadCpu(exp: real -> real, a: Launch, i: nat, h: nat, k: seq<real>, v: seq<real>) returns (row: seq<real>)
    requires IsExp(exp) && Valid(a) && i < |a.lens| && h < a.heads && |a.k| == |a.v| == a.blocks * a.B * a.kvHeads * a.dim
    requires TensorShape(a, a.k, i) && TensorShape(a, a.v, i) && k == SequenceTensor(a, a.k, i) && v == SequenceTensor(a, a.v, i)
    ensures |row| == a.dim && forall d | 0 <= d < a.dim :: row[d] == Attention(exp, a, i, h, d)
  {
    hide IsExp, Valid, Score, Weights, Terms, SequenceTensor, TensorShape, ValueRow, TensorRow;
    var raw := CpuWeights(exp, a, i, h, k);
    WeightsPositive(exp, a, i, h);
    row := [];
    for d := 0 to a.dim
      invariant |row| == d && forall c | 0 <= c < d :: row[c] == Attention(exp, a, i, h, c)
    {
      var x := CpuCoordinate(exp, a, i, h, v, raw, d);
      row := row + [x];
    }
  }

  lemma AttentionIs(exp: real -> real, a: Launch, i: nat, h: nat, d: nat)
    requires Valid(a) && i < |a.lens| && h < a.heads && d < a.dim && IsExp(exp)
    ensures Total(Weights(exp, a, i, h)) != 0.0
    ensures Attention(exp, a, i, h, d) == Total(Terms(exp, a, i, h, d)) / Total(Weights(exp, a, i, h))
  {
    hide Valid, IsExp, Total, Terms, Weights;
    WeightsPositive(exp, a, i, h);
  }

  /** A value, weighted by its normalised weight. */
  function Weighted(weight: real, total: real, value: real): real
    requires total != 0.0
  {
    weight / total * value
  }

  /** One coordinate: normalise the weights, then add up the values. */
  method CpuCoordinate(exp: real -> real, a: Launch, i: nat, h: nat, v: seq<real>, raw: seq<real>, d: nat) returns (x: real)
    requires IsExp(exp) && Valid(a) && i < |a.lens| && h < a.heads && d < a.dim && |a.k| == |a.v| == a.blocks * a.B * a.kvHeads * a.dim
    requires TensorShape(a, a.k, i) && TensorShape(a, a.v, i) && v == SequenceTensor(a, a.v, i) && raw == Weights(exp, a, i, h)
    ensures x == Attention(exp, a, i, h, d)
  {
    hide IsExp, Valid, Score, Weights, Terms, SequenceTensor, TensorShape, ValueRow, TensorRow, Attention, Total, Weighted;
    WeightsPositive(exp, a, i, h);
    AttentionIs(exp, a, i, h, d);
    var total := Total(raw);
    var parts: seq<real> := [];
    for t := 0 to |raw|
      invariant |parts| == t && forall u | 0 <= u < t :: parts[u] == Weighted(raw[u], total, ValueRow(a, i, h, u)[d])
    {
      TensorRowIs(a, i, h, t);
      parts := parts + [Weighted(raw[t], total, TensorRow(a, v, t, h)[d])];
    }
    NormalisedLast(exp, a, i, h, d, total, parts);
    x := Total(parts);
  }

  /** Normalising each weight first is dividing the sum at the end. */
  lemma NormalisedLast(exp: real -> real, a: Launch, i: nat, h: nat, d: nat, total: real, parts: seq<real>)
    requires Valid(a) && i < |a.lens| && h < a.heads && d < a.dim && total != 0.0 && |parts| == a.lens[i]
    requires forall t | 0 <= t < a.lens[i] :: parts[t] == Weighted(Weights(exp, a, i, h)[t], total, ValueRow(a, i, h, t)[d])
    ensures Total(parts) == Total(Terms(exp, a, i, h, d)) / total
  {
    hide Valid, Score, Total;
    var terms := Terms(exp, a, i, h, d);
    forall t | 0 <= t < |parts| ensures parts[t] == terms[t] / total {
      QuotientFirst(Weights(exp, a, i, h)[t], ValueRow(a, i, h, t)[d], total);
    }
    TotalScaled(parts, terms, total);
  }

  lemma QuotientFirst(x: real, y: real, z: real)
    requires z != 0.0
    ensures x / z * y == x * y / z
  {
  }

  lemma {:induction false} TotalScaled(parts: seq<real>, terms: seq<real>, total: real)
    requires |parts| == |terms| && total != 0.0 && forall t | 0 <= t < |parts| :: parts[t] == terms[t] / total
    ensures Total(parts) == Total(terms) / total
    decreases |parts|
  {
    if parts != [] {
      var n := |parts| - 1;
      TotalScaled(parts[..n], terms[..n], total);
    }
  }
}
