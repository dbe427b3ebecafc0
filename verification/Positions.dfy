/** Token positions and fixed-size blocks: the division facts every paged structure here needs. */
module Positions {

  /** How many blocks of size B hold n tokens. */
  function BlocksFor(B: nat, n: nat): nat
    requires B >= 1
  {
    (n + B - 1) / B
  }

  lemma DivMod(p: nat, B: nat)
    requires B >= 1
    ensures (p / B) * B + p % B == p && 0 <= p % B < B
  {
  }

  lemma MulMonotone(a: nat, b: nat, B: nat)
    ensures a <= b ==> a * B <= b * B
  {
  }

  /** The block of a position is the one whose range contains it. */
  lemma DivUnique(p: nat, B: nat, i: nat)
    requires B >= 1 && i * B <= p < i * B + B
    ensures p / B == i && p % B == p - i * B
  {
    DivMod(p, B);
    MulMonotone(p / B + 1, i, B);
    MulMonotone(i + 1, p / B, B);
  }

  lemma DivLess(p: nat, B: nat, k: nat)
    requires B >= 1
    ensures p < k * B <==> p / B < k
  {
    DivMod(p, B);
    MulMonotone(k, p / B, B);
    MulMonotone(p / B + 1, k, B);
  }

  lemma DivMonotone(p: nat, q: nat, B: nat)
    requires B >= 1 && p <= q
    ensures p / B <= q / B
  {
    DivMod(p, B);
    DivLess(q, B, p / B);
  }

  /** BlocksFor is the least number of blocks that covers n tokens. */
  lemma BlocksForLeast(B: nat, n: nat, k: nat)
    requires B >= 1
    ensures n <= BlocksFor(B, n) * B
    ensures n <= k * B <==> BlocksFor(B, n) <= k
  {
    var q := BlocksFor(B, n);
    DivMod(n + B - 1, B);
    MulMonotone(q, k, B);
    MulMonotone(k + 1, q, B);
  }

  lemma BlocksForAtLeast(B: nat, n: nat, k: nat)
    requires B >= 1 && k * B <= n
    ensures k <= BlocksFor(B, n)
  {
    BlocksForLeast(B, n, k);
    MulMonotone(BlocksFor(B, n) + 1, k, B);
  }

  lemma BlocksForMonotone(B: nat, n: nat, k: nat)
    requires B >= 1 && n <= k
    ensures BlocksFor(B, n) <= BlocksFor(B, k)
  {
    BlocksForLeast(B, k, BlocksFor(B, k));
    BlocksForLeast(B, n, BlocksFor(B, k));
  }

  lemma BlocksForOneMore(B: nat, n: nat, k: nat)
    requires B >= 1 && n <= k * B
    ensures BlocksFor(B, n + 1) <= k + 1
  {
    assert (k + 1) * B == k * B + B;
    BlocksForLeast(B, n + 1, k + 1);
  }

  /** One more token needs at most one more block, and exactly when the last one is full. */
  lemma BlocksForNext(B: nat, n: nat)
    requires B >= 1
    ensures BlocksFor(B, n) <= BlocksFor(B, n + 1) == n / B + 1 <= BlocksFor(B, n) + 1
  {
    BlocksForLeast(B, n, BlocksFor(B, n));
    BlocksForLeast(B, n, n / B + 1);
    BlocksForLeast(B, n + 1, n / B + 1);
    DivLess(n, B, BlocksFor(B, n + 1));
    BlocksForLeast(B, n + 1, BlocksFor(B, n + 1));
    BlocksForLeast(B, n + 1, BlocksFor(B, n) + 1);
    DivMod(n, B);
  }

  /** One more token needs one more block exactly at a block boundary. */
  lemma BlocksForStep(B: nat, n: nat)
    requires B >= 1
    ensures BlocksFor(B, n + 1) == BlocksFor(B, n) + if n % B == 0 then 1 else 0
  {
    BlocksForNext(B, n);
    BlocksForLeast(B, n, n / B);
    DivMod(n, B);
  }

  /** Dropping the first block shifts every later position by B. */
  lemma DivShift(p: nat, B: nat)
    requires B >= 1
    ensures p < B ==> p / B == 0 && p % B == p
    ensures p >= B ==> p / B >= 1 && (p - B) / B == p / B - 1 && (p - B) % B == p % B
  {
    DivMod(p, B);
    if p < B {
      DivUnique(p, B, 0);
    } else {
      DivLess(p, B, 1);
      assert (p / B - 1) * B == (p / B) * B - B;
      DivUnique(p - B, B, p / B - 1);
    }
  }
}
