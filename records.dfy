/**
 * The resale transaction frame the engine reads, and the pandas idioms it
 * applies to it: boolean-mask filtering, column projection and
 * `value_counts()`.
 */
module Records {
  import opened Ordering

  /** One row of the cleaned resale frame (`load_resale_data`'s result). */
  datatype Record = Record(
    month: string,              // the CSV's "YYYY-MM" text
    transactionYear: int,       // year of the parsed `month`
    town: string,
    flatType: string,
    floorAreaSqm: real,
    leaseCommenceDate: int,
    resalePrice: real)

  type Frame = seq<Record>

  // ---------------------------------------------------------------------------
  // Filtering and projection
  // ---------------------------------------------------------------------------

  /** `df[mask]`: the rows satisfying `keep`, in their original order. */
  function Where(f: Frame, keep: Record -> bool): (r: Frame)
    ensures |r| <= |f|
    ensures forall x :: x in r <==> x in f && keep(x)
  {
    if f == [] then []
    else
      assert f == [f[0]] + f[1..];
      (if keep(f[0]) then [f[0]] else []) + Where(f[1..], keep)
  }

  /** Filtering keeps every selected row as many times as the frame holds it, and no other row. */
  lemma {:induction false} WhereMultiset(f: Frame, keep: Record -> bool)
    ensures forall x :: multiset(Where(f, keep))[x] == if keep(x) then multiset(f)[x] else 0
  {
    if f != [] {
      WhereMultiset(f[1..], keep);
      assert f == [f[0]] + f[1..];
      var head := if keep(f[0]) then [f[0]] else [];
      assert Where(f, keep) == head + Where(f[1..], keep);
      assert multiset(Where(f, keep)) == multiset(head) + multiset(Where(f[1..], keep));
      assert multiset(f) == multiset([f[0]]) + multiset(f[1..]);
    }
  }

  /** `df[df['town'] == town]`. */
  function OfTown(f: Frame, town: string): Frame {
    Where(f, (x: Record) => x.town == town)
  }

  /** `df[(df['town'] == town) & (df['flat_type'] == flatType)]`. */
  function OfTownAndType(f: Frame, town: string, flatType: string): Frame {
    Where(f, (x: Record) => x.town == town && x.flatType == flatType)
  }

  /** `df[df['flat_type'] == flatType]`. */
  function OfType(f: Frame, flatType: string): Frame {
    Where(f, (x: Record) => x.flatType == flatType)
  }

  /** `df[df['transaction_year'] >= year]`. */
  function Since(f: Frame, year: int): Frame {
    Where(f, (x: Record) => x.transactionYear >= year)
  }

  function Prices(f: Frame): (s: seq<real>)
    ensures |s| == |f| && forall i :: 0 <= i < |f| ==> s[i] == f[i].resalePrice
  {
    seq(|f|, i requires 0 <= i < |f| => f[i].resalePrice)
  }

  function FloorAreas(f: Frame): (s: seq<real>)
    ensures |s| == |f| && forall i :: 0 <= i < |f| ==> s[i] == f[i].floorAreaSqm
  {
    seq(|f|, i requires 0 <= i < |f| => f[i].floorAreaSqm)
  }

  function Towns(f: Frame): (s: seq<string>)
    ensures |s| == |f| && forall i :: 0 <= i < |f| ==> s[i] == f[i].town
  {
    seq(|f|, i requires 0 <= i < |f| => f[i].town)
  }

  function FlatTypes(f: Frame): (s: seq<string>)
    ensures |s| == |f| && forall i :: 0 <= i < |f| ==> s[i] == f[i].flatType
  {
    seq(|f|, i requires 0 <= i < |f| => f[i].flatType)
  }

  function Months(f: Frame): (s: seq<string>)
    ensures |s| == |f| && forall i :: 0 <= i < |f| ==> s[i] == f[i].month
  {
    seq(|f|, i requires 0 <= i < |f| => f[i].month)
  }

  /** `df['lease_commence_date'].max()`. */
  function MaxLease(f: Frame): (m: int)
    requires |f| > 0
    ensures exists i :: 0 <= i < |f| && f[i].leaseCommenceDate == m
    ensures forall i :: 0 <= i < |f| ==> f[i].leaseCommenceDate <= m
  {
    if |f| == 1 then f[0].leaseCommenceDate
    else
      var rest := MaxLease(f[1..]);
      assert forall i :: 1 <= i < |f| ==> f[i] == f[1..][i - 1];
      if f[0].leaseCommenceDate >= rest then f[0].leaseCommenceDate else rest
  }

  /** `df['lease_commence_date'].min()`. */
  function MinLease(f: Frame): (m: int)
    requires |f| > 0
    ensures exists i :: 0 <= i < |f| && f[i].leaseCommenceDate == m
    ensures forall i :: 0 <= i < |f| ==> m <= f[i].leaseCommenceDate
  {
    if |f| == 1 then f[0].leaseCommenceDate
    else
      var rest := MinLease(f[1..]);
      assert forall i :: 1 <= i < |f| ==> f[i] == f[1..][i - 1];
      if f[0].leaseCommenceDate <= rest then f[0].leaseCommenceDate else rest
  }

  // ---------------------------------------------------------------------------
  // value_counts()
  // ---------------------------------------------------------------------------

  /** How often `x` occurs in `s`. */
  function Count(s: seq<string>, x: string): nat {
    if s == [] then 0 else (if s[0] == x then 1 else 0) + Count(s[1..], x)
  }

  /** A town's rows are as many as the occurrences of its name in the town column. */
  lemma {:induction false} TownCount(f: Frame, town: string)
    ensures |OfTown(f, town)| == Count(Towns(f), town)
  {
    if f != [] {
      TownCount(f[1..], town);
      assert Towns(f)[1..] == Towns(f[1..]);
    }
  }

  /** Restricting to a town and restricting to a period commute. */
  lemma {:induction false} SinceOfTown(f: Frame, town: string, year: int)
    ensures Since(OfTown(f, town), year) == OfTown(Since(f, year), town)
  {
    if f != [] {
      SinceOfTown(f[1..], town, year);
      var x := f[0];
      var both: Frame := if x.town == town && x.transactionYear >= year then [x] else [];
      var t := OfTown(f, town);
      if x.town == town {
        assert t[1..] == OfTown(f[1..], town);
        assert Since(t, year) == both + Since(OfTown(f[1..], town), year);
      } else {
        assert t == OfTown(f[1..], town);
      }
      var s := Since(f, year);
      if x.transactionYear >= year {
        assert s[1..] == Since(f[1..], year);
        assert OfTown(s, town) == both + OfTown(Since(f[1..], year), town);
      } else {
        assert s == Since(f[1..], year);
      }
    }
  }

  lemma {:induction false} CountAppend(s: seq<string>, x: string, y: string)
    ensures Count(s + [y], x) == Count(s, x) + (if y == x then 1 else 0)
  {
    if s != [] {
      assert (s + [y])[1..] == s[1..] + [y];
      CountAppend(s[1..], x, y);
    }
  }

  lemma {:induction false} CountAbsent(s: seq<string>, x: string)
    requires x !in s
    ensures Count(s, x) == 0
  {
    if s != [] {
      CountAbsent(s[1..], x);
    }
  }

  lemma {:induction false} CountPresent(s: seq<string>, x: string)
    requires x in s
    ensures Count(s, x) > 0
  {
    if s[0] != x {
      CountPresent(s[1..], x);
    }
  }

  /** The distinct elements of `s` in order of first appearance. */
  function Distinct(s: seq<string>): (r: seq<string>)
    ensures forall x :: x in r <==> x in s
    ensures forall i, j :: 0 <= i < j < |r| ==> r[i] != r[j]
  {
    if s == [] then []
    else
      var init := s[..|s| - 1];
      var last := s[|s| - 1];
      assert s == init + [last];
      var r := Distinct(init);
      if last in r then r else r + [last]
  }

  /** A label with its count. */
  type Tally = (string, nat)

  function Labels(ps: seq<Tally>): (ls: seq<string>)
    ensures |ls| == |ps| && forall i :: 0 <= i < |ps| ==> ls[i] == ps[i].0
  {
    seq(|ps|, i requires 0 <= i < |ps| => ps[i].0)
  }

  function TotalCount(ps: seq<Tally>): nat {
    if ps == [] then 0 else ps[0].1 + TotalCount(ps[1..])
  }

  function WithCounts(ds: seq<string>, s: seq<string>): (r: seq<Tally>)
    ensures |r| == |ds| && forall i :: 0 <= i < |ds| ==> r[i] == (ds[i], Count(s, ds[i]))
  {
    seq(|ds|, i requires 0 <= i < |ds| => (ds[i], Count(s, ds[i])))
  }

  /** Ranks tallies by count alone. */
  function CountKey(p: Tally): Key {
    Key(p.1 as real, 0.0)
  }

  /**
   * `s.value_counts()`: each distinct value once with how often it occurs,
   * most frequent first. pandas leaves the order of equal counts open; this
   * model keeps first-appearance order among them.
   */
  function ValueCounts(s: seq<string>): (r: seq<Tally>)
    ensures SortedDesc(r, CountKey)
    ensures forall p :: p in r ==> p.1 == Count(s, p.0) && p.1 > 0
    ensures forall x :: x in Labels(r) <==> x in s
    ensures forall i, j :: 0 <= i < j < |r| ==> r[i].0 != r[j].0
    ensures TotalCount(r) == |s|
  {
    var r := SortDesc(WithCounts(Distinct(s), s), CountKey);
    TalliesMatchCounts(s);
    TallyLabelsMatch(s);
    NoDuplicatesPermutation(WithCounts(Distinct(s), s), r);
    TotalCountSort(WithCounts(Distinct(s), s));
    TotalCountDistinct(s);
    r
  }

  lemma TalliesMatchCounts(s: seq<string>)
    ensures forall p :: p in SortDesc(WithCounts(Distinct(s), s), CountKey) ==> p.1 == Count(s, p.0) && p.1 > 0
  {
    var w := WithCounts(Distinct(s), s);
    var r := SortDesc(w, CountKey);
    forall p | p in r ensures p.1 == Count(s, p.0) && p.1 > 0 {
      assert p in multiset(w);
      CountPresent(s, p.0);
    }
  }

  lemma TallyLabelsMatch(s: seq<string>)
    ensures forall x :: x in Labels(SortDesc(WithCounts(Distinct(s), s), CountKey)) <==> x in s
  {
    var ds := Distinct(s);
    var w := WithCounts(ds, s);
    var r := SortDesc(w, CountKey);
    forall x | x in s ensures x in Labels(r) {
      var i :| 0 <= i < |ds| && ds[i] == x;
      assert w[i] in multiset(r);
      var j :| 0 <= j < |r| && r[j] == w[i];
      assert Labels(r)[j] == x;
    }
    forall x | x in Labels(r) ensures x in s {
      var j :| 0 <= j < |r| && r[j].0 == x;
      assert r[j] in multiset(w);
    }
  }

  lemma {:induction false} MultiplicityAtMostOne<T>(a: seq<T>, x: T)
    requires forall i, j :: 0 <= i < j < |a| ==> a[i] != a[j]
    ensures multiset(a)[x] <= 1
  {
    if a != [] {
      assert a == [a[0]] + a[1..];
      MultiplicityAtMostOne(a[1..], x);
      assert a[0] == x ==> x !in a[1..];
    }
  }

  lemma SameElements<T>(a: seq<T>, b: seq<T>)
    requires multiset(a) == multiset(b)
    ensures forall x :: x in a <==> x in b
  {
    assert forall x :: x in a <==> x in multiset(a);
  }

  /** A prefix holds only elements of the whole, and no repeats if the whole has none. */
  lemma TakeKeeps<T>(s: seq<T>, n: nat)
    ensures forall x :: x in Take(s, n) ==> x in s
    ensures (forall i, j :: 0 <= i < j < |s| ==> s[i] != s[j])
         ==> forall i, j :: 0 <= i < j < |Take(s, n)| ==> Take(s, n)[i] != Take(s, n)[j]
  {
  }

  lemma NoDuplicatesPermutation<T>(a: seq<T>, b: seq<T>)
    requires forall i, j :: 0 <= i < j < |a| ==> a[i] != a[j]
    requires multiset(a) == multiset(b)
    ensures forall i, j :: 0 <= i < j < |b| ==> b[i] != b[j]
  {
    forall i, j | 0 <= i < j < |b| ensures b[i] != b[j] {
      var x := b[i];
      assert b == b[..j] + b[j..];
      assert x in b[..j];
      assert b[j] == x ==> multiset(b)[x] >= 2 by {
        assert multiset(b) == multiset(b[..j]) + multiset(b[j..]);
        assert b[j] == b[j..][0];
      }
      MultiplicityAtMostOne(a, x);
    }
  }

  lemma {:induction false} TotalCountInsert(x: Tally, t: seq<Tally>)
    requires SortedDesc(t, CountKey)
    ensures TotalCount(InsertDesc(x, t, CountKey)) == x.1 + TotalCount(t)
  {
    var r := InsertDesc(x, t, CountKey);
    if t == [] || KeyLe(CountKey(t[0]), CountKey(x)) {
      assert r[1..] == t;
    } else {
      TotalCountInsert(x, t[1..]);
      assert r[1..] == InsertDesc(x, t[1..], CountKey);
    }
  }

  lemma {:induction false} TotalCountSort(s: seq<Tally>)
    ensures TotalCount(SortDesc(s, CountKey)) == TotalCount(s)
  {
    if s != [] {
      TotalCountSort(s[1..]);
      TotalCountInsert(s[0], SortDesc(s[1..], CountKey));
    }
  }

  lemma {:induction false} TotalCountAppend(ps: seq<Tally>, q: Tally)
    ensures TotalCount(ps + [q]) == TotalCount(ps) + q.1
  {
    if ps != [] {
      assert (ps + [q])[1..] == ps[1..] + [q];
      TotalCountAppend(ps[1..], q);
    }
  }

  /** Occurrences of `x` among the labels `ds`. */
  function Occurrences(ds: seq<string>, x: string): nat {
    if ds == [] then 0 else (if ds[0] == x then 1 else 0) + Occurrences(ds[1..], x)
  }

  lemma {:induction false} WithCountsGrow(ds: seq<string>, s: seq<string>, y: string)
    ensures TotalCount(WithCounts(ds, s + [y])) == TotalCount(WithCounts(ds, s)) + Occurrences(ds, y)
  {
    if ds != [] {
      assert WithCounts(ds, s + [y])[1..] == WithCounts(ds[1..], s + [y]);
      assert WithCounts(ds, s)[1..] == WithCounts(ds[1..], s);
      CountAppend(s, ds[0], y);
      WithCountsGrow(ds[1..], s, y);
    }
  }

  lemma {:induction false} OccurrencesDistinct(ds: seq<string>, x: string)
    requires forall i, j :: 0 <= i < j < |ds| ==> ds[i] != ds[j]
    ensures Occurrences(ds, x) == if x in ds then 1 else 0
  {
    if ds != [] {
      OccurrencesDistinct(ds[1..], x);
      assert ds[0] == x ==> x !in ds[1..];
      assert ds == [ds[0]] + ds[1..];
    }
  }

  /** The counts of the distinct values add up to the number of values. */
  lemma {:induction false} TotalCountDistinct(s: seq<string>)
    ensures TotalCount(WithCounts(Distinct(s), s)) == |s|
  {
    if s != [] {
      var init := s[..|s| - 1];
      var last := s[|s| - 1];
      assert s == init + [last];
      var d0 := Distinct(init);
      TotalCountDistinct(init);
      WithCountsGrow(d0, init, last);
      OccurrencesDistinct(d0, last);
      if last !in d0 {
        assert WithCounts(d0 + [last], s) == WithCounts(d0, s) + [(last, Count(s, last))];
        TotalCountAppend(WithCounts(d0, s), (last, Count(s, last)));
        CountAppend(init, last, last);
        CountAbsent(init, last);
      }
    }
  }

  /** The first `n` labels of `value_counts` come in non-increasing order of count. */
  lemma MostFrequentOrdered(s: seq<string>, n: nat)
    ensures var ps := Take(Labels(ValueCounts(s)), n);
      forall i, j :: 0 <= i < j < |ps| ==> Count(s, ps[i]) >= Count(s, ps[j])
  {
    var vc := ValueCounts(s);
    var ps := Take(Labels(vc), n);
    forall i, j | 0 <= i < j < |ps| ensures Count(s, ps[i]) >= Count(s, ps[j]) {
      assert vc[i] in vc && vc[j] in vc;
      assert KeyLe(CountKey(vc[j]), CountKey(vc[i]));
    }
  }

  /** No value left out of the first `n` labels of `value_counts` occurs more often than one kept. */
  lemma MostFrequentKept(s: seq<string>, n: nat)
    ensures var ps := Take(Labels(ValueCounts(s)), n);
      forall x :: x in s && x !in ps ==> forall p :: p in ps ==> Count(s, x) <= Count(s, p)
  {
    var vc := ValueCounts(s);
    var ps := Take(Labels(vc), n);
    forall x, p | x in s && x !in ps && p in ps ensures Count(s, x) <= Count(s, p) {
      LeftOutNotAbove(vc, n, x, p);
    }
  }

  /** In a tally sorted by count, a label left out of the first `n` has a tally no larger than a kept one. */
  lemma LeftOutNotAbove(vc: seq<Tally>, n: nat, x: string, p: string)
    requires SortedDesc(vc, CountKey)
    requires x in Labels(vc) && x !in Take(Labels(vc), n) && p in Take(Labels(vc), n)
    ensures exists a, b :: a in vc && b in vc && a.0 == x && b.0 == p && a.1 <= b.1
  {
    var ps := Take(Labels(vc), n);
    var j :| 0 <= j < |vc| && Labels(vc)[j] == x;
    var i :| 0 <= i < |ps| && ps[i] == p;
    LaterTallyNotAbove(vc, i, j);
    assert vc[i] in vc && vc[j] in vc;
  }

  /** In a tally sorted by count, a later entry counts no more than an earlier one. */
  lemma LaterTallyNotAbove(vc: seq<Tally>, i: nat, j: nat)
    requires SortedDesc(vc, CountKey) && i < |vc| && j < |vc|
    requires j >= i
    ensures vc[j].1 <= vc[i].1
  {
    if i < j {
      assert KeyLe(CountKey(vc[j]), CountKey(vc[i]));
    }
  }
}
