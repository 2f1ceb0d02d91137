/**
 * Town profiles: the characteristics attached to each recommendation
 * (`get_town_characteristics`) and the detailed market analysis of one town
 * (`get_town_market_analysis`).
 */
module TownProfiles {
  import opened Wrappers
  import opened Text
  import opened Ordering
  import opened Stats
  import opened Records
  import opened Dicts

  // ---------------------------------------------------------------------------
  // Per-flat-type aggregates
  // ---------------------------------------------------------------------------

  datatype Column = FloorArea | ResalePrice
  datatype Aggregation = MinOf | MaxOf | MedianOf

  function ColumnValues(rows: Frame, col: Column): (vs: seq<real>)
    ensures |vs| == |rows|
  {
    match col
    case FloorArea => FloorAreas(rows)
    case ResalePrice => Prices(rows)
  }

  function Aggregate(vs: seq<real>, agg: Aggregation): real
    requires |vs| > 0
  {
    match agg
    case MinOf => Min(vs)
    case MaxOf => Max(vs)
    case MedianOf => Median(vs)
  }

  lemma TypePresent(rows: Frame, flatType: string)
    requires flatType in FlatTypes(rows)
    ensures |OfType(rows, flatType)| > 0
  {
    var i :| 0 <= i < |rows| && FlatTypes(rows)[i] == flatType;
    assert rows[i] in OfType(rows, flatType);
  }

  function GroupAggregate(rows: Frame, col: Column, agg: Aggregation, groups: seq<string>): (d: Dict<real>)
    requires forall g :: g in groups ==> g in FlatTypes(rows)
    ensures |d| == |groups|
    ensures forall i :: 0 <= i < |groups| ==> d[i].0 == groups[i]
    ensures forall i :: 0 <= i < |groups| ==>
      |OfType(rows, groups[i])| > 0 && d[i].1 == Aggregate(ColumnValues(OfType(rows, groups[i]), col), agg)
  {
    if groups == [] then []
    else
      TypePresent(rows, groups[0]);
      var v := Aggregate(ColumnValues(OfType(rows, groups[0]), col), agg);
      [(groups[0], v)] + GroupAggregate(rows, col, agg, groups[1..])
  }

  /** `rows.groupby('flat_type')[col].agg(agg).to_dict()`: one entry per flat type, in sorted order. */
  function ByFlatType(rows: Frame, col: Column, agg: Aggregation): (d: Dict<real>)
    ensures StrictlyAscending(KeysOf(d))
    ensures forall ft :: ft in KeysOf(d) <==> ft in FlatTypes(rows)
    ensures forall i :: 0 <= i < |d| ==>
      |OfType(rows, d[i].0)| > 0 && d[i].1 == Aggregate(ColumnValues(OfType(rows, d[i].0), col), agg)
  {
    var groups := SortedUnique(FlatTypes(rows));
    var d := GroupAggregate(rows, col, agg, groups);
    assert KeysOf(d) == groups;
    d
  }

  // ---------------------------------------------------------------------------
  // get_town_characteristics
  // ---------------------------------------------------------------------------

  datatype PriceRanges = PriceRanges(min: Dict<real>, max: Dict<real>, median: Dict<real>)

  datatype Characteristics =
    | NoCharacteristics
    | Characteristics(
        flatTypeMix: Dict<real>,
        typicalSizes: Dict<real>,
        priceRanges: PriceRanges,
        totalTransactions: nat)

  /** Each count divided by `n`. */
  function Normalize(vc: seq<Tally>, n: real): (d: Dict<real>)
    requires n > 0.0
    ensures |d| == |vc|
    ensures forall i :: 0 <= i < |vc| ==> d[i] == (vc[i].0, vc[i].1 as real / n)
  {
    if vc == [] then [] else [(vc[0].0, vc[0].1 as real / n)] + Normalize(vc[1..], n)
  }

  /** `value_counts(normalize=True)`: each flat type's share of the transactions, most frequent first. */
  function Shares(s: seq<string>): (d: Dict<real>)
    requires |s| > 0
  {
    Normalize(ValueCounts(s), |s| as real)
  }

  function SumShares(d: Dict<real>): real {
    if d == [] then 0.0 else d[0].1 + SumShares(d[1..])
  }

  lemma {:induction false} NormalizeSum(vc: seq<Tally>, n: real)
    requires n > 0.0
    ensures SumShares(Normalize(vc, n)) == TotalCount(vc) as real / n
  {
    if vc != [] {
      NormalizeSum(vc[1..], n);
    }
  }

  /** The flat-type shares of a town add up to one. */
  lemma SharesSumToOne(s: seq<string>)
    requires |s| > 0
    ensures SumShares(Shares(s)) == 1.0
  {
    var vc := ValueCounts(s);
    NormalizeSum(vc, |s| as real);
    WholeOverWhole(TotalCount(vc), |s|);
  }

  lemma WholeOverWhole(x: nat, n: nat)
    requires n > 0 && x == n
    ensures x as real / n as real == 1.0
  {
  }

  /** `get_town_characteristics`: empty for missing data or an unknown town. */
  function TownCharacteristics(data: Option<Frame>, town: string): (c: Characteristics)
    ensures c.NoCharacteristics? <==> data.None? || |OfTown(data.value, town)| == 0
    ensures c.Characteristics? ==> c.totalTransactions == |OfTown(data.value, town)| > 0
  {
    if data.None? then NoCharacteristics
    else
      var rows := OfTown(data.value, town);
      if |rows| == 0 then NoCharacteristics
      else
        Characteristics(
          Shares(FlatTypes(rows)),
          ByFlatType(rows, FloorArea, MedianOf),
          PriceRanges(
            ByFlatType(rows, ResalePrice, MinOf),
            ByFlatType(rows, ResalePrice, MaxOf),
            ByFlatType(rows, ResalePrice, MedianOf)),
          |rows|)
  }

  /** The flat-type mix lists exactly the town's flat types, most frequent first. */
  lemma MixCoversFlatTypes(f: Frame, town: string)
    requires |OfTown(f, town)| > 0
    ensures var c := TownCharacteristics(Some(f), town);
      var fts := FlatTypes(OfTown(f, town));
      KeysOf(c.flatTypeMix) == Labels(ValueCounts(fts))
      && (forall ft :: ft in KeysOf(c.flatTypeMix) <==> ft in fts)
  {
    var fts := FlatTypes(OfTown(f, town));
    assert KeysOf(Shares(fts)) == Labels(ValueCounts(fts));
  }

  /** Per flat type, the median price lies between the minimum and the maximum. */
  lemma PriceRangesOrdered(rows: Frame, i: nat)
    requires i < |ByFlatType(rows, ResalePrice, MedianOf)|
    ensures |ByFlatType(rows, ResalePrice, MinOf)| == |ByFlatType(rows, ResalePrice, MedianOf)|
         == |ByFlatType(rows, ResalePrice, MaxOf)|
    ensures ByFlatType(rows, ResalePrice, MinOf)[i].0 == ByFlatType(rows, ResalePrice, MedianOf)[i].0
         == ByFlatType(rows, ResalePrice, MaxOf)[i].0
    ensures ByFlatType(rows, ResalePrice, MinOf)[i].1 <= ByFlatType(rows, ResalePrice, MedianOf)[i].1
         <= ByFlatType(rows, ResalePrice, MaxOf)[i].1
  {
    var groups := SortedUnique(FlatTypes(rows));
    var vs := Prices(OfType(rows, groups[i]));
    MedianWithinRange(vs);
  }

  // ---------------------------------------------------------------------------
  // get_town_market_analysis
  // ---------------------------------------------------------------------------

  /** Transactions from this year on count as recent in the market analysis. */
  const AnalysisRecentFrom := 2023

  datatype MarketAnalysis = MarketAnalysis(
    town: string,
    dataPeriod: string,
    totalTransactions: nat,
    flatTypes: Dict<nat>,
    overallMedian: int,
    recentMedian: Option<int>,
    sizeDistribution: Dict<real>,
    oldestLease: int,
    newestLease: int)

  /** `df[df['town'].str.upper() == upperName]`. */
  function MatchingTown(f: Frame, upperName: string): (r: Frame)
    ensures forall x :: x in r <==> x in f && ToUpper(x.town) == upperName
  {
    Where(f, (x: Record) => ToUpper(x.town) == upperName)
  }

  function MarketOf(rows: Frame, townName: string): (a: MarketAnalysis)
    requires |rows| > 0
    ensures a.town == townName
    ensures a.totalTransactions == |rows| && TotalCount(a.flatTypes) == |rows|
    ensures forall p :: p in a.flatTypes ==> p.1 == Count(FlatTypes(rows), p.0)
    ensures forall ft :: ft in Labels(a.flatTypes) <==> ft in FlatTypes(rows)
    ensures (exists i :: 0 <= i < |rows| && rows[i].leaseCommenceDate == a.oldestLease)
         && forall i :: 0 <= i < |rows| ==> a.oldestLease <= rows[i].leaseCommenceDate
    ensures (exists i :: 0 <= i < |rows| && rows[i].leaseCommenceDate == a.newestLease)
         && forall i :: 0 <= i < |rows| ==> rows[i].leaseCommenceDate <= a.newestLease
    ensures exists m :: IsMedian(Prices(rows), m) && a.overallMedian == Truncate(m)
    ensures a.recentMedian.Some? <==> |Since(rows, AnalysisRecentFrom)| > 0
    ensures a.recentMedian.Some? ==> exists m ::
      IsMedian(Prices(Since(rows, AnalysisRecentFrom)), m) && a.recentMedian.value == Truncate(m)
  {
    var recent := Since(rows, AnalysisRecentFrom);
    var overall := Median(Prices(rows));
    assert IsMedian(Prices(rows), overall);
    assert |recent| > 0 ==> IsMedian(Prices(recent), Median(Prices(recent)));
    MarketAnalysis(
      townName,
      LeastString(Months(rows)) + " to " + GreatestString(Months(rows)),
      |rows|,
      ValueCounts(FlatTypes(rows)),
      Truncate(overall),
      if |recent| > 0 then Some(Truncate(Median(Prices(recent)))) else None,
      ByFlatType(rows, FloorArea, MedianOf),
      MinLease(rows),
      MaxLease(rows))
  }

  /** `get_town_market_analysis`: an error message for missing data or a town without transactions. */
  function TownMarketAnalysis(data: Option<Frame>, townName: string): (r: Result<MarketAnalysis, string>)
    ensures data.None? ==> r == Err("Data not available")
    ensures data.Some? && |MatchingTown(data.value, ToUpper(townName))| == 0
         ==> r == Err("No data found for " + townName)
    ensures data.Some? && |MatchingTown(data.value, ToUpper(townName))| > 0
         ==> r.Ok? && r.value.totalTransactions == |MatchingTown(data.value, ToUpper(townName))|
    ensures r.Ok? ==> r.value.town == townName && r.value.totalTransactions > 0
    ensures r.Ok? ==> r.value == MarketOf(MatchingTown(data.value, ToUpper(townName)), townName)
  {
    if data.None? then Err("Data not available")
    else
      var rows := MatchingTown(data.value, ToUpper(townName));
      if |rows| == 0 then Err("No data found for " + townName)
      else Ok(MarketOf(rows, townName))
  }

  /** The period runs from the earliest month to the latest, and never backwards. */
  lemma DataPeriodSpan(data: Option<Frame>, townName: string)
    requires TownMarketAnalysis(data, townName).Ok?
    ensures var rows := MatchingTown(data.value, ToUpper(townName));
      var period := TownMarketAnalysis(data, townName).value.dataPeriod;
      period == LeastString(Months(rows)) + " to " + GreatestString(Months(rows))
      && !LexLess(GreatestString(Months(rows)), LeastString(Months(rows)))
      && (forall x :: x in rows ==> !LexLess(x.month, LeastString(Months(rows))))
      && (forall x :: x in rows ==> !LexLess(GreatestString(Months(rows)), x.month))
  {
    var rows := MatchingTown(data.value, ToUpper(townName));
    assert TownMarketAnalysis(data, townName).value == MarketOf(rows, townName);
    MonthsWithinPeriod(rows);
  }

  /** Every row's month lies between the least and the greatest month of the frame. */
  lemma MonthsWithinPeriod(rows: Frame)
    requires |rows| > 0
    ensures !LexLess(GreatestString(Months(rows)), LeastString(Months(rows)))
    ensures forall x :: x in rows ==> !LexLess(x.month, LeastString(Months(rows)))
    ensures forall x :: x in rows ==> !LexLess(GreatestString(Months(rows)), x.month)
  {
    LeastNotAfterGreatest(Months(rows));
    forall x | x in rows
      ensures !LexLess(x.month, LeastString(Months(rows)))
      ensures !LexLess(GreatestString(Months(rows)), x.month)
    {
      var i :| 0 <= i < |rows| && rows[i] == x;
      assert Months(rows)[i] == x.month;
    }
  }

  lemma UpperIdempotent(s: string)
    ensures ToUpper(ToUpper(s)) == ToUpper(s)
  {
  }

  /**
   * Town names match case-insensitively: names with the same upper-case
   * form give the same analysis apart from the echoed name. In particular
   * the upper-cased name the endpoint passes finds what the original would.
   */
  lemma AnalysisIgnoresCase(data: Option<Frame>, a: string, b: string)
    requires ToUpper(a) == ToUpper(b)
    ensures TownMarketAnalysis(data, a).Ok? <==> TownMarketAnalysis(data, b).Ok?
    ensures TownMarketAnalysis(data, a).Ok?
         ==> TownMarketAnalysis(data, a).value.(town := b) == TownMarketAnalysis(data, b).value
  {
  }
}
