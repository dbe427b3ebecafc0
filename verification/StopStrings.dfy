/** The streaming stop-string filter (stop_strings.py). */
module StopStrings {
  import opened Options

  function Flat(chunks: seq<string>): (r: string) {
    if chunks == [] then "" else Flat(chunks[..|chunks| - 1]) + chunks[|chunks| - 1]
  }

  lemma {:induction false} FlatConcat(a: seq<string>, b: seq<string>)
    ensures Flat(a + b) == Flat(a) + Flat(b)
    decreases |b|
  {
    if b == [] {
      assert a + b == a;
    } else {
      var n := |b| - 1;
      assert (a + b)[..|a + b| - 1] == a + b[..n];
      FlatConcat(a, b[..n]);
    }
  }

  predicate OccursAt(text: string, s: string, i: nat) {
    i + |s| <= |text| && text[i..i + |s|] == s
  }

  /** Some stop string ends, or starts, at a position. */
  predicate EndsAt(text: string, stops: seq<string>, e: nat) {
    exists k | 0 <= k < |stops| :: |stops[k]| <= e && OccursAt(text, stops[k], e - |stops[k]|)
  }

  predicate StartsAt(text: string, stops: seq<string>, i: nat) {
    exists k | 0 <= k < |stops| :: OccursAt(text, stops[k], i)
  }

  predicate NoneEmpty(stops: seq<string>) {
    forall k | 0 <= k < |stops| :: stops[k] != ""
  }

  /** Some stop string is complete in the text. */
  ghost predicate Completes(text: string, stops: seq<string>) {
    exists e: nat :: EndsAt(text, stops, e)
  }

  ghost predicate NoneEndsBy(text: string, stops: seq<string>, n: nat) {
    forall d | 0 <= d <= n :: !EndsAt(text, stops, d)
  }

  ghost predicate Mentions(text: string, stops: seq<string>) {
    exists i: nat :: i <= |text| && StartsAt(text, stops, i)
  }

  /** An occurrence within a prefix is one in the whole text, and the other way round. */
  lemma OccursInPrefix(text: string, n: nat, s: string, i: nat)
    requires n <= |text| && i + |s| <= n
    ensures OccursAt(text[..n], s, i) <==> OccursAt(text, s, i)
  {
    assert text[..n][i..i + |s|] == text[i..i + |s|];
  }

  lemma EndsInPrefix(text: string, n: nat, stops: seq<string>, e: nat)
    requires n <= |text|
    ensures EndsAt(text[..n], stops, e) <==> e <= n && EndsAt(text, stops, e)
  {
    forall k | 0 <= k < |stops| && |stops[k]| <= e <= n
      ensures OccursAt(text[..n], stops[k], e - |stops[k]|) <==> OccursAt(text, stops[k], e - |stops[k]|)
    {
      OccursInPrefix(text, n, stops[k], e - |stops[k]|);
    }
  }

  // ---- the two ways of cutting ----

  /** `out` is the text up to the earliest end of any stop string, all of it if there is none. */
  predicate CutAtEarliestEnd(text: string, stops: seq<string>, out: string) {
    && out <= text
    && (forall e | 0 <= e < |out| :: !EndsAt(text, stops, e))
    && (EndsAt(text, stops, |out|) || (out == text && !EndsAt(text, stops, |text|)))
  }

  /** That cut is a matter of the text alone, so no two ways of splitting it can differ. */
  lemma EarliestEndIsUnique(text: string, stops: seq<string>, a: string, b: string)
    requires CutAtEarliestEnd(text, stops, a) && CutAtEarliestEnd(text, stops, b)
    ensures a == b
  {
    var n: nat, k: nat := |a|, |b|;
    assert n < k ==> !EndsAt(text, stops, n);
    assert k < n ==> !EndsAt(text, stops, k);
  }

  /** The earliest start of a stop string lying wholly in the text. */
  predicate IsEarliestStart(text: string, stops: seq<string>, i: nat) {
    StartsAt(text, stops, i) && forall j | 0 <= j < i :: !StartsAt(text, stops, j)
  }

  /** No complete stop string is in `out`. */
  predicate Clean(out: string, stops: seq<string>) {
    forall i | 0 <= i <= |out| :: !StartsAt(out, stops, i)
  }

  /** Cutting at the earliest start, or at what is already out if that is longer, leaves nothing
      complete behind. */
  lemma CutIsClean(text: string, stops: seq<string>, visible: nat, cut: nat, out: string)
    requires NoneEmpty(stops) && visible <= |text| && Clean(text[..visible], stops) && IsEarliestStart(text, stops, cut) && cut <= |text|
    requires out == text[..if cut > visible then cut else visible]
    ensures Clean(out, stops)
  {
    forall i | 0 <= i <= |out| ensures !StartsAt(out, stops, i) {
      forall k | 0 <= k < |stops| ensures !OccursAt(out, stops[k], i) {
        if i + |stops[k]| <= |out| {
          OccursInPrefix(text, |out|, stops[k], i);
          if |out| == visible {
            assert !StartsAt(text[..visible], stops, i);
          } else {
            assert !StartsAt(text, stops, i);
          }
        }
      }
    }
  }

  // ---- the filter ----

  /** Python's str.find: the first occurrence, -1 for none. */
  method Find(text: string, s: string) returns (idx: int)
    ensures idx == -1 <==> forall i | 0 <= i <= |text| :: !OccursAt(text, s, i)
    ensures idx != -1 ==> 0 <= idx && OccursAt(text, s, idx) && forall i | 0 <= i < idx :: !OccursAt(text, s, i)
  {
    for i := 0 to |text| + 1
      invariant forall j | 0 <= j < i :: !OccursAt(text, s, j)
    {
      if i + |s| <= |text| && text[i..i + |s|] == s {
        assert OccursAt(text, s, i);
        return i;
      }
    }
    return -1;
  }

  class StopStringFilter {
    const stops: seq<string>
    const inclusive: seq<string>
    var stoppedEarly: bool
    var stoppedInclusive: bool

    constructor (stopStrings: seq<string>, inclusiveStopStrings: seq<string>)
      ensures NoneEmpty(stops) && NoneEmpty(inclusive) && !stoppedEarly && !stoppedInclusive
      ensures forall s :: s in stops <==> s in stopStrings && s != ""
      ensures forall s :: s in inclusive <==> s in inclusiveStopStrings && s != ""
    {
      stops, inclusive := NonEmpty(stopStrings), NonEmpty(inclusiveStopStrings);
      stoppedEarly, stoppedInclusive := false, false;
    }

    static function NonEmpty(strings: seq<string>): (r: seq<string>)
      ensures NoneEmpty(r) && forall s :: s in r <==> s in strings && s != ""
    {
      if strings == [] then []
      else
        var rest := NonEmpty(strings[1..]);
        assert forall s :: s in strings <==> s == strings[0] || s in strings[1..];
        if strings[0] != "" then [strings[0]] + rest else rest
    }

    /** The earliest end among first occurrences; None when no stop string is in the buffer. */
    static method InclusiveCut(buffer: string, stops: seq<string>) returns (cut: Option<nat>)
      ensures cut.None? ==> forall e: nat :: !EndsAt(buffer, stops, e)
      ensures cut.Some? ==> EndsAt(buffer, stops, cut.value) && cut.value <= |buffer|
                            && forall e | 0 <= e < cut.value :: !EndsAt(buffer, stops, e)
    {
      cut := None;
      for k := 0 to |stops|
        invariant cut.None? ==> forall j, i | 0 <= j < k && 0 <= i :: !OccursAt(buffer, stops[j], i)
        invariant cut.Some? ==> EndsAt(buffer, stops, cut.value) && cut.value <= |buffer|
        invariant cut.Some? ==> forall j, i | 0 <= j < k && 0 <= i && i + |stops[j]| < cut.value :: !OccursAt(buffer, stops[j], i)
      {
        var idx := Find(buffer, stops[k]);
        if idx != -1 {
          var end := idx + |stops[k]|;
          assert OccursAt(buffer, stops[k], end - |stops[k]|);
          cut := if cut.None? || end < cut.value then Some(end) else cut;
        }
      }
    }

    /** The earliest start among first occurrences. */
    static method ExclusiveCut(buffer: string, stops: seq<string>) returns (cut: Option<nat>)
      ensures cut.None? ==> forall i: nat :: !StartsAt(buffer, stops, i)
      ensures cut.Some? ==> IsEarliestStart(buffer, stops, cut.value) && cut.value <= |buffer|
    {
      cut := None;
      for k := 0 to |stops|
        invariant cut.None? ==> forall j, i | 0 <= j < k && 0 <= i :: !OccursAt(buffer, stops[j], i)
        invariant cut.Some? ==> StartsAt(buffer, stops, cut.value) && cut.value <= |buffer|
        invariant cut.Some? ==> forall j, i | 0 <= j < k && 0 <= i < cut.value :: !OccursAt(buffer, stops[j], i)
      {
        var idx := Find(buffer, stops[k]);
        if idx != -1 {
          cut := if cut.None? || idx < cut.value then Some(idx) else cut;
        }
      }
    }

    /** Passes deltas on until a stop string is complete; also how many deltas were taken before the
        wrapped generator was closed. */
    method Run(deltas: seq<string>) returns (out: seq<string>, taken: nat)
      requires NoneEmpty(stops) && NoneEmpty(inclusive) && !stoppedEarly && !stoppedInclusive
      modifies this
      ensures taken <= |deltas| && Flat(out) <= Flat(deltas) && Flat(deltas[..taken]) <= Flat(deltas)
      ensures !stoppedEarly ==> taken == |deltas| && Flat(out) == Flat(deltas)
      ensures stoppedInclusive ==> stoppedEarly
      ensures stoppedEarly <==> Mentions(Flat(deltas), stops) || Completes(Flat(deltas), inclusive)
      ensures stoppedEarly ==> taken > 0 && Quiet(Flat(deltas[..taken - 1]), inclusive, stops)
      ensures stoppedInclusive <==> Completes(Flat(deltas[..taken]), inclusive)
      ensures stops == [] || stoppedInclusive ==> CutAtEarliestEnd(Flat(deltas), inclusive, Flat(out))
      ensures !stoppedInclusive ==> Clean(Flat(out), stops)
      ensures Clean(Flat(out), stops) <==> !stoppedInclusive || NoneEndsBy(Flat(deltas), stops, |Flat(out)|)
      ensures stoppedEarly && !stoppedInclusive ==>
                && taken > 0 && Flat(deltas[..taken - 1]) <= Flat(deltas[..taken])
                && ExclusiveLength(Flat(deltas[..taken - 1]), Flat(deltas[..taken]), stops, |Flat(out)|)
    {
      hide StartsAt, EndsAt, CutAtEarliestEnd, Clean, Quiet, Completes, Mentions, NoneEndsBy, Inspected, ExclusiveLength;
      var buffer := "";
      out := [];
      assert deltas[..0] == [];
      NothingYet(inclusive, stops);
      for i := 0 to |deltas|
        invariant buffer == Flat(deltas[..i]) == Flat(out) && !stoppedEarly && !stoppedInclusive
        invariant Quiet(buffer, inclusive, stops)
      {
        assert deltas[..i + 1][..i] == deltas[..i];
        assert deltas == deltas[..i + 1] + deltas[i + 1..];
        FlatConcat(deltas[..i + 1], deltas[i + 1..]);
        ghost var before := buffer;
        buffer := buffer + deltas[i];
        assert buffer[..|before|] == before;
        assert Flat(deltas)[..|buffer|] == buffer;
        assert Flat(deltas[..i + 1]) == buffer;
        var piece, kind := Inspect(buffer, |buffer| - |deltas[i]|);
        FlatConcat(out, [piece]);
        FlatOne(piece);
        if kind == Passed || piece != "" { out := out + [piece]; }
        assert Flat(out) == before + piece;
        if kind != Passed {
          StopInWhole(Flat(deltas), |buffer|, before, inclusive, stops, before + piece, kind);
          CleanIffNoEnd(Flat(deltas), |before + piece|, stops);
          assert Flat(deltas)[..|before + piece|] == before + piece;
          assert (i + 1) - 1 == i;
          stoppedEarly, stoppedInclusive := true, kind == Inclusive;
          return out, i + 1;
        }
      }
      assert deltas[..|deltas|] == deltas;
      QuietThroughout(Flat(deltas), inclusive, stops);
      return out, |deltas|;
    }

    /** What one more delta lets through, given that nothing was found before it. */
    method Inspect(buffer: string, visible: nat) returns (piece: string, kind: Verdict)
      requires visible <= |buffer| && NoneEmpty(stops) && NoneEmpty(inclusive) && Quiet(buffer[..visible], inclusive, stops)
      ensures Inspected(buffer[..visible], buffer, inclusive, stops, buffer[..visible] + piece, kind)
    {
      ghost var before := buffer[..visible];
      var cut := InclusiveCut(buffer, inclusive);
      if cut.Some? {
        EndsInPrefix(buffer, visible, inclusive, cut.value);
        piece := buffer[visible..cut.value];
        assert before + piece == buffer[..cut.value];
        return piece, Inclusive;
      }
      cut := ExclusiveCut(buffer, stops);
      if cut.Some? {
        piece := if cut.value > visible then buffer[visible..cut.value] else "";
        assert before + piece == buffer[..if cut.value > visible then cut.value else visible];
        CutIsClean(buffer, stops, visible, cut.value, before + piece);
        return piece, Exclusive;
      }
      piece := buffer[visible..];
      assert before + piece == buffer;
      return piece, Passed;
    }
  }

  /** What became of a delta: passed on, or stopped at by one or the other kind of stop string. */
  datatype Verdict = Passed | Inclusive | Exclusive

  /** No stop string of either kind is in the text. */
  ghost predicate Quiet(text: string, inclusive: seq<string>, stops: seq<string>) {
    && (forall e: nat :: !EndsAt(text, inclusive, e))
    && (forall i: nat :: !StartsAt(text, stops, i))
  }

  /** What is out after a delta: everything, the buffer cut at the earliest inclusive end, or the
      buffer cut at the earliest exclusive start but not before what was out already. */
  ghost predicate Inspected(before: string, buffer: string, inclusive: seq<string>, stops: seq<string>, out: string, kind: Verdict) {
    && before <= buffer && out <= buffer
    && match kind
       case Passed => out == buffer && Quiet(buffer, inclusive, stops)
       case Inclusive => CutAtEarliestEnd(buffer, inclusive, out) && EndsAt(buffer, inclusive, |out|)
       case Exclusive =>
         && (forall e: nat :: !EndsAt(buffer, inclusive, e))
         && Clean(out, stops) && ExclusiveLength(before, buffer, stops, |out|)
  }

  lemma StopInWhole(text: string, n: nat, before: string, inclusive: seq<string>, stops: seq<string>, out: string, kind: Verdict)
    requires n <= |text| && Inspected(before, text[..n], inclusive, stops, out, kind) && kind != Passed
    ensures out <= text
    ensures kind == Inclusive ==> inclusive != [] && EndsAt(text, inclusive, |out|) && CutAtEarliestEnd(text, inclusive, out)
    ensures kind == Inclusive <==> Completes(text[..n], inclusive)
    ensures kind == Inclusive ==> Completes(text, inclusive)
    ensures kind == Exclusive ==> stops != [] && Mentions(text, stops) && Clean(out, stops)
  {
    if kind == Inclusive {
      InclusiveStop(text, n, inclusive, |out|);
    } else {
      var cut: nat :| IsEarliestStart(text[..n], stops, cut) && |out| == if cut > |before| then cut else |before|;
      StartsGrows(text, n, stops, cut);
    }
  }

  lemma EndHasStart(text: string, n: nat, stops: seq<string>, d: nat) returns (i: nat)
    requires d <= n <= |text| && EndsAt(text, stops, d)
    ensures i <= n && StartsAt(text[..n], stops, i)
  {
    var k :| 0 <= k < |stops| && |stops[k]| <= d && OccursAt(text, stops[k], d - |stops[k]|);
    i := d - |stops[k]|;
    OccursInPrefix(text, n, stops[k], i);
  }

  /** A text up to n has no complete stop string exactly when none ends by n. */
  lemma CleanIffNoEnd(text: string, n: nat, stops: seq<string>)
    requires n <= |text|
    ensures Clean(text[..n], stops) <==> NoneEndsBy(text, stops, n)
  {
    forall d | 0 <= d <= n && EndsAt(text, stops, d) ensures !Clean(text[..n], stops) {
      var i := EndHasStart(text, n, stops, d);
    }
    if !Clean(text[..n], stops) {
      var i :| 0 <= i <= n && StartsAt(text[..n], stops, i);
      var k :| 0 <= k < |stops| && OccursAt(text[..n], stops[k], i);
      OccursInPrefix(text, n, stops[k], i);
      assert EndsAt(text, stops, i + |stops[k]|);
    }
  }

  /** With both kinds of stop string an inclusive one wins within a delta, even over an exclusive one
      that was complete before it: "ab" with the exclusive "a" and the inclusive "b" is shown whole. */
  lemma InclusiveShowsExclusive()
    ensures CutAtEarliestEnd("ab", ["b"], "ab") && !Clean("ab", ["a"])
    ensures forall out | Inspected("", "ab", ["b"], ["a"], out, Inclusive) :: out == "ab"
    ensures forall out, kind | Inspected("", "ab", ["b"], ["a"], out, kind) :: kind == Inclusive
  {
    assert OccursAt("ab", ["b"][0], 1) && EndsAt("ab", ["b"], 2) && OccursAt("ab", ["a"][0], 0) && StartsAt("ab", ["a"], 0);
    assert !OccursAt("ab", "b", 0);
    assert "ab"[..2] == "ab";
    forall e | 0 <= e < 2 ensures !EndsAt("ab", ["b"], e) {
    }
    forall out | Inspected("", "ab", ["b"], ["a"], out, Inclusive) ensures out == "ab" {
      EarliestEndIsUnique("ab", ["b"], out, "ab");
    }
  }

  lemma QuietThroughout(text: string, inclusive: seq<string>, stops: seq<string>)
    requires Quiet(text, inclusive, stops)
    ensures !Completes(text, inclusive)
    ensures !Mentions(text, stops) && CutAtEarliestEnd(text, inclusive, text) && Clean(text, stops)
  {
  }

  /** What an exclusive stop leaves visible: up to the earliest start found, or everything that was
      already out. */
  ghost predicate ExclusiveLength(before: string, buffer: string, stops: seq<string>, n: nat) {
    exists cut: nat :: IsEarliestStart(buffer, stops, cut) && n == if cut > |before| then cut else |before|
  }

  /** An exclusive stop cuts at the earliest start in the whole text exactly when that match is
      complete in the buffer and begins in its last delta. */
  lemma ExclusiveCutIsIdeal(text: string, before: string, buffer: string, stops: seq<string>, n: nat, ideal: nat)
    requires before <= buffer <= text && ExclusiveLength(before, buffer, stops, n)
    requires IsEarliestStart(text, stops, ideal)
    ensures n == ideal <==> |before| <= ideal && StartsAt(buffer, stops, ideal)
  {
    var cut: nat :| IsEarliestStart(buffer, stops, cut) && n == if cut > |before| then cut else |before|;
    StartsGrows(text, |buffer|, stops, cut);
  }

  lemma StartsGrows(text: string, n: nat, stops: seq<string>, i: nat)
    requires n <= |text| && StartsAt(text[..n], stops, i)
    ensures StartsAt(text, stops, i)
  {
    var k :| 0 <= k < |stops| && OccursAt(text[..n], stops[k], i);
    OccursInPrefix(text, n, stops[k], i);
  }

  /** So splitting a text differently can show more of a match: "ab" with stop string "ab". */
  lemma SplitMatchLeaks()
    ensures ExclusiveLength("", "ab", ["ab"], 0) && forall n: nat | ExclusiveLength("", "ab", ["ab"], n) :: n == 0
    ensures ExclusiveLength("a", "ab", ["ab"], 1) && forall n: nat | ExclusiveLength("a", "ab", ["ab"], n) :: n == 1
  {
    assert OccursAt("ab", ["ab"][0], 0);
    assert IsEarliestStart("ab", ["ab"], 0);
  }

  lemma FlatOne(s: string)
    ensures Flat([s]) == s
  {
    assert [s][..0] == [];
  }

  lemma NothingYet(inclusive: seq<string>, stops: seq<string>)
    requires NoneEmpty(inclusive) && NoneEmpty(stops)
    ensures Quiet("", inclusive, stops)
  {
  }

  lemma InclusiveStop(text: string, n: nat, stops: seq<string>, cut: nat)
    requires n <= |text| && EndsAt(text[..n], stops, cut) && cut <= n
    requires forall e | 0 <= e < cut :: !EndsAt(text[..n], stops, e)
    ensures CutAtEarliestEnd(text, stops, text[..cut])
  {
    EndsInPrefix(text, n, stops, cut);
    forall e | 0 <= e < cut ensures !EndsAt(text, stops, e) {
      EndsInPrefix(text, n, stops, e);
    }
  }
}
