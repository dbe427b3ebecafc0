/** Sums of weights over finite sets. */
module Sums {
  ghost function Pick<T>(s: set<T>): (x: T)
    requires |s| > 0
    ensures x in s
  {
    var y :| y in s;
    y
  }

  ghost function Sum<T>(w: map<T, nat>, s: set<T>): nat
    requires s <= w.Keys
  {
    if s == {} then 0
    else
      var x := Pick(s);
      w[x] + Sum(w, s - {x})
  }

  lemma {:induction false} SumWithout<T>(w: map<T, nat>, s: set<T>, y: T)
    requires s <= w.Keys && y in s
    ensures Sum(w, s) == w[y] + Sum(w, s - {y})
    decreases |s|
  {
    var x := Pick(s);
    if x != y {
      SumWithout(w, s - {x}, y);
      SumWithout(w, s - {y}, x);
      assert (s - {x}) - {y} == (s - {y}) - {x};
    }
  }

  /** Fewer elements of no more weight sum to no more. */
  lemma {:induction false} SumAtMost<T>(w: map<T, nat>, s: set<T>, v: map<T, nat>, t: set<T>)
    requires t <= s <= w.Keys && t <= v.Keys
    requires forall x | x in t :: v[x] <= w[x]
    ensures Sum(v, t) <= Sum(w, s)
    decreases |s|
  {
    if s != {} {
      var x := Pick(s);
      if x in t {
        SumWithout(v, t, x);
        SumAtMost(w, s - {x}, v, t - {x});
      } else {
        SumAtMost(w, s - {x}, v, t);
      }
    }
  }

  lemma {:induction false} SumPlus<T>(u: map<T, nat>, v: map<T, nat>, w: map<T, nat>, s: set<T>)
    requires s <= u.Keys && s <= v.Keys && s <= w.Keys
    requires forall x | x in s :: u[x] + v[x] == w[x]
    ensures Sum(u, s) + Sum(v, s) == Sum(w, s)
    decreases |s|
  {
    if s != {} {
      var x := Pick(s);
      SumPlus(u, v, w, s - {x});
      SumWithout(u, s, x);
      SumWithout(v, s, x);
    }
  }
}
