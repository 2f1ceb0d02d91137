/**
 * BTO gap analysis: per-town statistics from the resale frame, the towns
 * that qualify as under-served, ranked by how long since their last major
 * launch and then by recent resale activity, top eight.
 */
module GapAnalysis {
  import opened Wrappers
  import opened Ordering
  import opened Stats
  import opened Records

  const CurrentYear := 2025
  const MinYearsSinceLaunch := 5
  const MinTransactions := 100
  /** Transactions from this year on count as recent in the gap analysis. */
  const RecentFrom := 2022
  const TopTowns := 8

  /** One row of the grouped `town_stats` frame. */
  datatype TownStat = TownStat(
    town: string,
    maxLeaseYear: int,
    totalTransactions: nat,
    recentTransactions: nat,
    avgPrice: real,
    yearsSinceLastMajorLaunch: int)

  /** The town has at least one transaction in the frame. */
  predicate Present(f: Frame, town: string) {
    town in Towns(f)
  }

  lemma PresentNonEmpty(f: Frame, town: string)
    requires Present(f, town)
    ensures |OfTown(f, town)| > 0
  {
    var i :| 0 <= i < |f| && Towns(f)[i] == town;
    assert f[i] in OfTown(f, town);
  }

  /** The aggregates of one town's group, rounded to two decimals as `.round(2)` does. */
  function StatsFor(f: Frame, town: string): (t: TownStat)
    requires Present(f, town)
    ensures t.town == town
    ensures t.totalTransactions > 0 && t.recentTransactions <= t.totalTransactions
    ensures t.totalTransactions == Count(Towns(f), town)
    ensures t.recentTransactions == Count(Towns(Since(f, RecentFrom)), town)
    ensures t.yearsSinceLastMajorLaunch == CurrentYear - t.maxLeaseYear
  {
    PresentNonEmpty(f, town);
    TownCount(f, town);
    SinceOfTown(f, town, RecentFrom);
    TownCount(Since(f, RecentFrom), town);
    var rows := OfTown(f, town);
    var maxLease := MaxLease(rows);
    TownStat(
      town,
      maxLease,
      |rows|,
      |Since(rows, RecentFrom)|,
      Round2(Mean(Prices(rows))),
      CurrentYear - maxLease)
  }

  /** The group's `max_lease_year` is the latest lease commencement among the town's transactions. */
  lemma MaxLeaseOfGroup(f: Frame, town: string)
    requires Present(f, town)
    ensures forall x :: x in f && x.town == town ==> x.leaseCommenceDate <= StatsFor(f, town).maxLeaseYear
    ensures exists x :: x in f && x.town == town && x.leaseCommenceDate == StatsFor(f, town).maxLeaseYear
  {
    PresentNonEmpty(f, town);
    var rows := OfTown(f, town);
    var i :| 0 <= i < |rows| && rows[i].leaseCommenceDate == MaxLease(rows);
    assert rows[i] in rows;
  }

  /** `t` is the statistics row of its own town's group. */
  predicate IsGroupStat(f: Frame, t: TownStat) {
    Present(f, t.town) && t == StatsFor(f, t.town)
  }

  /** `df.groupby('town')` visits the towns in sorted order, one group each. */
  function GroupKeys(f: Frame): (ts: seq<string>)
    ensures StrictlyAscending(ts)
    ensures forall t :: t in ts <==> Present(f, t)
  {
    SortedUnique(Towns(f))
  }

  function StatsOf(f: Frame, towns: seq<string>): (r: seq<TownStat>)
    requires forall t :: t in towns ==> Present(f, t)
    ensures |r| == |towns|
    ensures forall i :: 0 <= i < |towns| ==> r[i] == StatsFor(f, towns[i])
  {
    if towns == [] then [] else [StatsFor(f, towns[0])] + StatsOf(f, towns[1..])
  }

  /** The town-level aggregates, one per town, in group order. */
  function TownStats(f: Frame): (r: seq<TownStat>)
    ensures forall t :: t in r <==> IsGroupStat(f, t)
    ensures forall i, j :: 0 <= i < j < |r| ==> r[i] != r[j]
  {
    var ts := GroupKeys(f);
    var r := StatsOf(f, ts);
    forall t: TownStat | IsGroupStat(f, t) ensures t in r {
      var i :| 0 <= i < |ts| && ts[i] == t.town;
      assert r[i] == t;
    }
    StrictlyAscendingDistinct(ts);
    r
  }

  predicate Qualifies(t: TownStat) {
    t.totalTransactions > MinTransactions && t.yearsSinceLastMajorLaunch >= MinYearsSinceLaunch
  }

  /** The boolean-mask filter on `town_stats`. */
  function Qualifying(ts: seq<TownStat>): (r: seq<TownStat>)
    ensures |r| <= |ts|
    ensures forall t :: t in r <==> t in ts && Qualifies(t)
    ensures (forall i, j :: 0 <= i < j < |ts| ==> ts[i] != ts[j])
         ==> forall i, j :: 0 <= i < j < |r| ==> r[i] != r[j]
  {
    if ts == [] then []
    else
      assert ts == [ts[0]] + ts[1..];
      var rest := Qualifying(ts[1..]);
      assert (forall i, j :: 0 <= i < j < |ts| ==> ts[i] != ts[j]) ==> ts[0] !in ts[1..];
      (if Qualifies(ts[0]) then [ts[0]] else []) + rest
  }

  /** `sort_values(['years_since_last_major_launch', 'recent_transactions'], ascending=[False, False])`. */
  function GapKey(t: TownStat): Key {
    Key(t.yearsSinceLastMajorLaunch as real, t.recentTransactions as real)
  }

  /** The qualifying towns in ranking order, before truncation. */
  function Ranked(f: Frame): (r: seq<TownStat>)
    ensures SortedDesc(r, GapKey)
    ensures forall t :: t in r <==> IsGroupStat(f, t) && Qualifies(t)
    ensures forall i, j :: 0 <= i < j < |r| ==> r[i] != r[j]
  {
    var q := Qualifying(TownStats(f));
    var r := SortDesc(q, GapKey);
    SameElements(q, r);
    NoDuplicatesPermutation(q, r);
    r
  }

  /** `analyze_bto_gaps`: `[]` for a missing or empty frame, otherwise the top eight ranked towns. */
  function AnalyzeBtoGaps(data: Option<Frame>): (r: seq<TownStat>)
    ensures data.None? || data.value == [] ==> r == []
    ensures |r| <= TopTowns
    ensures SortedDesc(r, GapKey)
    ensures forall t :: t in r ==> Qualifies(t) && t.recentTransactions <= t.totalTransactions
    ensures forall t :: t in r ==> data.Some? && IsGroupStat(data.value, t)
    ensures forall i, j :: 0 <= i < j < |r| ==> r[i].town != r[j].town
  {
    if data.None? || data.value == [] then []
    else
      var ranked := Ranked(data.value);
      var r := Take(ranked, TopTowns);
      TakeSortedIsTop(ranked, GapKey, TopTowns);
      TakeKeeps(ranked, TopTowns);
      DistinctTowns(data.value, r);
      r
  }

  /** Two reported entries with the same town would be the same group's statistics. */
  lemma DistinctTowns(f: Frame, r: seq<TownStat>)
    requires forall t :: t in r ==> IsGroupStat(f, t)
    requires forall i, j :: 0 <= i < j < |r| ==> r[i] != r[j]
    ensures forall i, j :: 0 <= i < j < |r| ==> r[i].town != r[j].town
  {
    forall i, j | 0 <= i < j < |r| ensures r[i].town != r[j].town {
      var a, b := r[i], r[j];
      assert a in r && b in r;
      assert a.town == b.town ==> a == b;
    }
  }

  /**
   * Nothing is lost to the truncation that outranks what is kept: every
   * qualifying town is reported, or eight towns ranking at least as high are.
   */
  lemma GapsComplete(f: Frame, town: string)
    requires f != [] && Present(f, town) && Qualifies(StatsFor(f, town))
    ensures var r := AnalyzeBtoGaps(Some(f));
      StatsFor(f, town) in r
      || (|r| == TopTowns && forall i :: 0 <= i < |r| ==> KeyLe(GapKey(StatsFor(f, town)), GapKey(r[i])))
  {
    var ranked := Ranked(f);
    var t := StatsFor(f, town);
    assert t in ranked by {
      assert IsGroupStat(f, t);
    }
    var j :| 0 <= j < |ranked| && ranked[j] == t;
    TakeKeepsOrOutranks(ranked, GapKey, TopTowns, j);
    ReportIsTopOfRanking(f);
  }

  lemma ReportIsTopOfRanking(f: Frame)
    requires f != []
    ensures AnalyzeBtoGaps(Some(f)) == Take(Ranked(f), TopTowns)
  {
  }

  /** A town with too few transactions or too recent a launch is never reported. */
  lemma UnqualifiedExcluded(f: Frame, town: string)
    requires Present(f, town) && !Qualifies(StatsFor(f, town))
    ensures forall t :: t in AnalyzeBtoGaps(Some(f)) ==> t.town != town
  {
  }
}
