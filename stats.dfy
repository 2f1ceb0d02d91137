/**
 * The numeric helpers pandas and Python supply to the engine, over exact
 * reals: order-statistic median, mean, minimum and maximum, `round()` (ties
 * to even), `round(x, 2)` and `int()` (truncation toward zero).
 */
module Stats {

  // ---------------------------------------------------------------------------
  // Counting and sorting
  // ---------------------------------------------------------------------------

  /** How many elements of `s` are at most `y`. */
  function CountAtMost(s: seq<real>, y: real): nat {
    if s == [] then 0 else (if s[0] <= y then 1 else 0) + CountAtMost(s[1..], y)
  }

  /** How many elements of `s` are at least `y`. */
  function CountAtLeast(s: seq<real>, y: real): nat {
    if s == [] then 0 else (if s[0] >= y then 1 else 0) + CountAtLeast(s[1..], y)
  }

  predicate Ascending(s: seq<real>) {
    forall i, j :: 0 <= i < j < |s| ==> s[i] <= s[j]
  }

  function InsertAsc(x: real, s: seq<real>): (r: seq<real>)
    requires Ascending(s)
    ensures Ascending(r)
    ensures |r| == |s| + 1
    ensures r[0] == x || (s != [] && r[0] == s[0])
    ensures forall y :: CountAtMost(r, y) == CountAtMost(s, y) + (if x <= y then 1 else 0)
    ensures forall y :: CountAtLeast(r, y) == CountAtLeast(s, y) + (if x >= y then 1 else 0)
  {
    if s == [] || x <= s[0] then
      var r := [x] + s;
      assert r[1..] == s;
      r
    else
      var tail := InsertAsc(x, s[1..]);
      var r := [s[0]] + tail;
      assert r[1..] == tail;
      r
  }

  /** The elements of `s` in ascending order, with the same count below and above every threshold. */
  function SortAsc(s: seq<real>): (r: seq<real>)
    ensures Ascending(r)
    ensures |r| == |s|
    ensures forall y :: CountAtMost(r, y) == CountAtMost(s, y)
    ensures forall y :: CountAtLeast(r, y) == CountAtLeast(s, y)
  {
    if s == [] then [] else InsertAsc(s[0], SortAsc(s[1..]))
  }

  lemma {:induction false} CountAtMostPrefix(t: seq<real>, y: real, k: nat)
    requires k <= |t|
    requires forall i :: 0 <= i < k ==> t[i] <= y
    ensures CountAtMost(t, y) >= k
  {
    if k > 0 {
      CountAtMostPrefix(t[1..], y, k - 1);
    }
  }

  lemma {:induction false} CountAtLeastSuffix(t: seq<real>, y: real, k: nat)
    requires k <= |t|
    requires forall i :: k <= i < |t| ==> t[i] >= y
    ensures CountAtLeast(t, y) >= |t| - k
  {
    if t != [] {
      if k == 0 {
        CountAtLeastSuffix(t[1..], y, 0);
      } else {
        CountAtLeastSuffix(t[1..], y, k - 1);
      }
    }
  }

  lemma {:induction false} CountAtMostWitness(s: seq<real>, y: real)
    requires CountAtMost(s, y) > 0
    ensures exists i :: 0 <= i < |s| && s[i] <= y
  {
    if s[0] > y {
      CountAtMostWitness(s[1..], y);
      var i :| 0 <= i < |s[1..]| && s[1..][i] <= y;
      assert s[i + 1] <= y;
    }
  }

  lemma {:induction false} CountAtLeastWitness(s: seq<real>, y: real)
    requires CountAtLeast(s, y) > 0
    ensures exists i :: 0 <= i < |s| && s[i] >= y
  {
    if s[0] < y {
      CountAtLeastWitness(s[1..], y);
      var i :| 0 <= i < |s[1..]| && s[1..][i] >= y;
      assert s[i + 1] >= y;
    }
  }

  // ---------------------------------------------------------------------------
  // Median
  // ---------------------------------------------------------------------------

  /** `m` splits `s` in halves: at least half the elements are at most `m`, at least half at least `m`. */
  predicate IsMedian(s: seq<real>, m: real) {
    2 * CountAtMost(s, m) >= |s| && 2 * CountAtLeast(s, m) >= |s|
  }

  /**
   * pandas' `Series.median()`: the middle element of the sorted values, or the
   * mean of the two middle ones for an even count.
   */
  function Median(s: seq<real>): (m: real)
    requires |s| > 0
    ensures IsMedian(s, m)
  {
    var t := SortAsc(s);
    MiddleSplits(t);
    Middle(t)
  }

  /** The middle element of a sequence, or the mean of the two middle ones for an even length. */
  function Middle(t: seq<real>): real
    requires |t| > 0
  {
    var h := |t| / 2;
    if |t| % 2 == 1 then t[h] else (t[h - 1] + t[h]) / 2.0
  }

  /** The middle of an ascending sequence splits it in halves. */
  lemma MiddleSplits(t: seq<real>)
    requires |t| > 0 && Ascending(t)
    ensures IsMedian(t, Middle(t))
  {
    var h := |t| / 2;
    var m := Middle(t);
    if |t| % 2 == 1 {
      CountAtMostPrefix(t, m, h + 1);
      CountAtLeastSuffix(t, m, h);
    } else {
      assert t[h - 1] <= m <= t[h];
      CountAtMostPrefix(t, m, h);
      CountAtLeastSuffix(t, m, h);
    }
  }

  /** A median lies between the smallest and the largest value. */
  lemma MedianWithinRange(s: seq<real>)
    requires |s| > 0
    ensures exists i :: 0 <= i < |s| && s[i] <= Median(s)
    ensures exists j :: 0 <= j < |s| && Median(s) <= s[j]
  {
    CountAtMostWitness(s, Median(s));
    CountAtLeastWitness(s, Median(s));
  }

  /** The median of positive values is positive. */
  lemma MedianPositive(s: seq<real>)
    requires |s| > 0
    requires forall i :: 0 <= i < |s| ==> s[i] > 0.0
    ensures Median(s) > 0.0
  {
    MedianWithinRange(s);
  }

  // ---------------------------------------------------------------------------
  // Minimum, maximum, mean
  // ---------------------------------------------------------------------------

  function Min(s: seq<real>): (m: real)
    requires |s| > 0
    ensures m in s
    ensures forall i :: 0 <= i < |s| ==> m <= s[i]
  {
    if |s| == 1 then s[0]
    else
      var rest := Min(s[1..]);
      assert forall i :: 1 <= i < |s| ==> s[i] == s[1..][i - 1];
      if s[0] <= rest then s[0] else rest
  }

  function Max(s: seq<real>): (m: real)
    requires |s| > 0
    ensures m in s
    ensures forall i :: 0 <= i < |s| ==> s[i] <= m
  {
    if |s| == 1 then s[0]
    else
      var rest := Max(s[1..]);
      assert forall i :: 1 <= i < |s| ==> s[i] == s[1..][i - 1];
      if s[0] >= rest then s[0] else rest
  }

  function Sum(s: seq<real>): real {
    if s == [] then 0.0 else s[0] + Sum(s[1..])
  }

  lemma {:induction false} SumBounds(s: seq<real>, lo: real, hi: real)
    requires forall i :: 0 <= i < |s| ==> lo <= s[i] <= hi
    ensures |s| as real * lo <= Sum(s) <= |s| as real * hi
  {
    if s != [] {
      SumBounds(s[1..], lo, hi);
    }
  }

  /** pandas' `Series.mean()`. */
  function Mean(s: seq<real>): (m: real)
    requires |s| > 0
    ensures Min(s) <= m <= Max(s)
  {
    MeanWithin(s);
    Sum(s) / (|s| as real)
  }

  /** The average of a non-empty sample lies between its extremes. */
  lemma MeanWithin(s: seq<real>)
    requires |s| > 0
    ensures Min(s) <= Sum(s) / (|s| as real) <= Max(s)
  {
    AverageBetween(s, Min(s), Max(s));
  }

  /** The average of values that all lie in `[lo, hi]` lies there too. */
  lemma AverageBetween(s: seq<real>, lo: real, hi: real)
    requires |s| > 0
    requires forall i :: 0 <= i < |s| ==> lo <= s[i] <= hi
    ensures lo <= Sum(s) / (|s| as real) <= hi
  {
    SumBounds(s, lo, hi);
    DivBounds(Sum(s), |s| as real, lo, hi);
  }

  lemma DivBounds(a: real, n: real, lo: real, hi: real)
    requires n > 0.0
    requires n * lo <= a <= n * hi
    ensures lo <= a / n <= hi
  {
    var q := a / n;
    assert q * n == a;
    assert (q - lo) * n >= 0.0;
    assert (hi - q) * n >= 0.0;
  }

  // ---------------------------------------------------------------------------
  // Python's round() and int()
  // ---------------------------------------------------------------------------

  /** Python's `round(x)`: the nearest integer, ties going to the even one. */
  function RoundHalfEven(x: real): (r: int)
    ensures -0.5 <= x - r as real <= 0.5
    ensures (x - r as real == 0.5 || r as real - x == 0.5) ==> r % 2 == 0
  {
    var f := x.Floor;
    var d := x - f as real;
    if d < 0.5 then f
    else if d > 0.5 then f + 1
    else if f % 2 == 0 then f
    else f + 1
  }

  /** The two properties in `RoundHalfEven`'s contract single out its result. */
  lemma RoundHalfEvenUnique(x: real, r: int)
    requires -0.5 <= x - r as real <= 0.5
    requires (x - r as real == 0.5 || r as real - x == 0.5) ==> r % 2 == 0
    ensures r == RoundHalfEven(x)
  {
  }

  /** Python's `round(x, 2)` over exact reals. */
  function Round2(x: real): (r: real)
    ensures -0.005 <= x - r <= 0.005
  {
    RoundHalfEven(x * 100.0) as real / 100.0
  }

  /** Rounding never reverses the order of two numbers. */
  lemma RoundHalfEvenMonotone(x: real, y: real)
    requires x <= y
    ensures RoundHalfEven(x) <= RoundHalfEven(y)
  {
    if x < y {
      var a, b := RoundHalfEven(x), RoundHalfEven(y);
      assert a as real <= x + 0.5 && y - 0.5 <= b as real;
    }
  }

  lemma Round2Monotone(x: real, y: real)
    requires x <= y
    ensures Round2(x) <= Round2(y)
  {
    RoundHalfEvenMonotone(x * 100.0, y * 100.0);
  }

  /** Python's `int(x)` on a float: truncation toward zero. */
  function Truncate(x: real): (r: int)
    ensures x >= 0.0 ==> 0 <= r && r as real <= x < r as real + 1.0
    ensures x < 0.0 ==> r <= 0 && r as real - 1.0 < x <= r as real
  {
    if x >= 0.0 then x.Floor else -((-x).Floor)
  }
}
