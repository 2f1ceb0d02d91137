/**
 * Orderings used by the engine: Python's code-point order on strings (for
 * `sorted(...unique())` and for pandas' sorted group keys) and a stable
 * descending sort on a two-level ranking key (for `sort_values(...,
 * ascending=False)` and `list.sort(key=..., reverse=True)`).
 */
module Ordering {

  // ---------------------------------------------------------------------------
  // Strings in code-point order
  // ---------------------------------------------------------------------------

  /** Python's `a < b` on strings. */
  predicate LexLess(a: string, b: string) {
    if a == [] then b != []
    else if b == [] then false
    else if a[0] != b[0] then a[0] < b[0]
    else LexLess(a[1..], b[1..])
  }

  lemma {:induction false} LexLessIrreflexive(a: string)
    ensures !LexLess(a, a)
  {
    if a != [] {
      LexLessIrreflexive(a[1..]);
    }
  }

  lemma {:induction false} LexLessTransitive(a: string, b: string, c: string)
    requires LexLess(a, b) && LexLess(b, c)
    ensures LexLess(a, c)
  {
    if a != [] && b != [] && c != [] && a[0] == b[0] && b[0] == c[0] {
      LexLessTransitive(a[1..], b[1..], c[1..]);
    }
  }

  lemma {:induction false} LexLessTotal(a: string, b: string)
    ensures a == b || LexLess(a, b) || LexLess(b, a)
  {
    if a != [] && b != [] && a[0] == b[0] {
      LexLessTotal(a[1..], b[1..]);
      if a[1..] == b[1..] {
        assert a == [a[0]] + a[1..] && b == [b[0]] + b[1..];
      }
    }
  }

  lemma LexLessAsymmetric(a: string, b: string)
    requires LexLess(a, b)
    ensures !LexLess(b, a)
  {
    if LexLess(b, a) {
      LexLessTransitive(a, b, a);
      LexLessIrreflexive(a);
    }
  }

  /** Python's `min` over strings: an element that nothing precedes. */
  function LeastString(s: seq<string>): (m: string)
    requires |s| > 0
    ensures m in s
    ensures forall i :: 0 <= i < |s| ==> !LexLess(s[i], m)
  {
    if |s| == 1 then
      LexLessIrreflexive(s[0]);
      s[0]
    else
      var rest := LeastString(s[1..]);
      assert forall i :: 1 <= i < |s| ==> s[i] == s[1..][i - 1];
      LexLessTotal(s[0], rest);
      if LexLess(s[0], rest) then
        forall i | 1 <= i < |s| ensures !LexLess(s[i], s[0]) {
          if LexLess(s[i], s[0]) {
            LexLessTransitive(s[i], s[0], rest);
          }
        }
        LexLessIrreflexive(s[0]);
        s[0]
      else
        LexLessIrreflexive(rest);
        rest
  }

  /** Python's `max` over strings: an element that precedes nothing. */
  function GreatestString(s: seq<string>): (m: string)
    requires |s| > 0
    ensures m in s
    ensures forall i :: 0 <= i < |s| ==> !LexLess(m, s[i])
  {
    if |s| == 1 then
      LexLessIrreflexive(s[0]);
      s[0]
    else
      var rest := GreatestString(s[1..]);
      assert forall i :: 1 <= i < |s| ==> s[i] == s[1..][i - 1];
      LexLessTotal(s[0], rest);
      if LexLess(rest, s[0]) then
        forall i | 1 <= i < |s| ensures !LexLess(s[0], s[i]) {
          if LexLess(s[0], s[i]) {
            LexLessTransitive(rest, s[0], s[i]);
          }
        }
        LexLessIrreflexive(s[0]);
        s[0]
      else
        LexLessIrreflexive(rest);
        rest
  }

  /** The least string never comes after the greatest. */
  lemma LeastNotAfterGreatest(s: seq<string>)
    requires |s| > 0
    ensures !LexLess(GreatestString(s), LeastString(s))
  {
    var i :| 0 <= i < |s| && s[i] == GreatestString(s);
  }

  predicate StrictlyAscending(s: seq<string>) {
    forall i, j :: 0 <= i < j < |s| ==> LexLess(s[i], s[j])
  }

  /** Inserts `x` into an ascending duplicate-free list, keeping it so. */
  function InsertUnique(x: string, s: seq<string>): (r: seq<string>)
    requires StrictlyAscending(s)
    ensures StrictlyAscending(r)
    ensures forall y :: y in r <==> y == x || y in s
  {
    if s == [] then [x]
    else if x == s[0] then s
    else if LexLess(x, s[0]) then
      forall j | 0 < j < |s| ensures LexLess(x, s[j]) {
        LexLessTransitive(x, s[0], s[j]);
      }
      [x] + s
    else
      LexLessTotal(x, s[0]);
      var tail := InsertUnique(x, s[1..]);
      forall j | 0 <= j < |tail| ensures LexLess(s[0], tail[j]) {
        assert tail[j] in tail;
      }
      [s[0]] + tail
  }

  /** Python's `sorted(set(s))` on strings: ascending, without duplicates, with exactly the elements of `s`. */
  function SortedUnique(s: seq<string>): (r: seq<string>)
    ensures StrictlyAscending(r)
    ensures forall y :: y in r <==> y in s
  {
    if s == [] then [] else InsertUnique(s[0], SortedUnique(s[1..]))
  }

  /** A strictly ascending list has no repeated element. */
  lemma StrictlyAscendingDistinct(s: seq<string>)
    requires StrictlyAscending(s)
    ensures forall i, j :: 0 <= i < j < |s| ==> s[i] != s[j]
  {
    forall i, j | 0 <= i < j < |s| ensures s[i] != s[j] {
      LexLessIrreflexive(s[i]);
    }
  }

  // ---------------------------------------------------------------------------
  // Stable descending sort on a two-level key
  // ---------------------------------------------------------------------------

  /** A ranking key compared first on `primary`, then on `secondary`. */
  datatype Key = Key(primary: real, secondary: real)

  predicate KeyLe(a: Key, b: Key) {
    a.primary < b.primary || (a.primary == b.primary && a.secondary <= b.secondary)
  }

  /** Every element ranks at least as high as every element after it. */
  predicate SortedDesc<T>(s: seq<T>, key: T -> Key) {
    forall i, j :: 0 <= i < j < |s| ==> KeyLe(key(s[j]), key(s[i]))
  }

  /**
   * Puts `x` in front of the first element that does not outrank it, so that
   * among equal keys the element inserted last (the earliest in the input)
   * comes first.
   */
  function InsertDesc<T>(x: T, s: seq<T>, key: T -> Key): (r: seq<T>)
    requires SortedDesc(s, key)
    ensures SortedDesc(r, key)
    ensures multiset(r) == multiset(s) + multiset{x}
    ensures |r| == |s| + 1
    ensures r[0] == x || (s != [] && r[0] == s[0])
  {
    if s == [] || KeyLe(key(s[0]), key(x)) then
      [x] + s
    else
      var tail := InsertDesc(x, s[1..], key);
      assert s == [s[0]] + s[1..];
      assert KeyLe(key(tail[0]), key(s[0]));
      [s[0]] + tail
  }

  /** A stable sort into descending key order (Python's `sorted(..., reverse=True)`). */
  function SortDesc<T>(s: seq<T>, key: T -> Key): (r: seq<T>)
    ensures SortedDesc(r, key)
    ensures multiset(r) == multiset(s)
    ensures |r| == |s|
  {
    if s == [] then []
    else
      assert s == [s[0]] + s[1..];
      var r := InsertDesc(s[0], SortDesc(s[1..], key), key);
      assert |r| == |multiset(r)|;
      r
  }

  /** Python's `s[:n]` (also `head(n)`). */
  function Take<T>(s: seq<T>, n: nat): (r: seq<T>)
    ensures |r| == if n < |s| then n else |s|
    ensures r == s[..|r|]
  {
    if n < |s| then s[..n] else s
  }

  /**
   * The first `n` of a descending order are its top `n`: nothing left out
   * outranks anything kept.
   */
  lemma TakeSortedIsTop<T>(s: seq<T>, key: T -> Key, n: nat)
    requires SortedDesc(s, key)
    ensures SortedDesc(Take(s, n), key)
    ensures forall i, j :: 0 <= i < |Take(s, n)| <= j < |s| ==> KeyLe(key(s[j]), key(Take(s, n)[i]))
  {
  }

  /** An element of a descending order is among its first `n`, or `n` elements ranking at least as high are. */
  lemma TakeKeepsOrOutranks<T>(s: seq<T>, key: T -> Key, n: nat, j: nat)
    requires SortedDesc(s, key) && j < |s|
    ensures s[j] in Take(s, n)
         || (|Take(s, n)| == n && forall i :: 0 <= i < n ==> KeyLe(key(s[j]), key(Take(s, n)[i])))
  {
    if j < n {
      assert Take(s, n)[j] == s[j];
    }
  }
}
