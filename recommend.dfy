/**
 * `recommend_estates`: for the leading gap-analysis towns, the BTO price map,
 * a demand score, a rationale sentence and a short market profile, ranked by
 * demand score and launch gap.
 */
module Recommendation {
  import opened Wrappers
  import opened Text
  import opened Ordering
  import opened Stats
  import opened Records
  import opened Dicts
  import opened GapAnalysis
  import opened Pricing
  import opened TownProfiles

  /** How many gap-analysis towns are turned into recommendations, and how many are returned. */
  const MaxRecommendations := 6
  const LongGapYears := 8
  const ActiveMarketThreshold := 50
  const AffordableBelow := 400000

  datatype Recommendation =
    | Entry(
        town: string,
        yearsSinceLastMajorLaunch: int,
        demandScore: real,
        recentMarketActivity: nat,
        predictedPricing: Dict<int>,
        rationale: string,
        totalTransactions: nat,
        predominantFlatTypes: seq<string>)
    /** The fixed record returned when no data could be loaded. */
    | DataUnavailable(
        town: string,
        yearsSinceLastMajorLaunch: int,
        predicted4RoomBtoPrice: int,
        rationale: string)

  const DataUnavailableFallback: Recommendation :=
    DataUnavailable("WOODLANDS", 8, 350000, "Data unavailable - using fallback estimate")

  // ---------------------------------------------------------------------------
  // Demand score
  // ---------------------------------------------------------------------------

  /** `min(years_gap / 10.0, 1.0) if years_gap > 0 else 0.5`. */
  function DemandScore(years: int): (d: real)
    ensures 0.0 <= d <= 1.0
    ensures years <= 0 ==> d == 0.5
    ensures years >= 10 ==> d == 1.0
    ensures 0 < years < 10 ==> d * 10.0 == years as real
  {
    if years > 0 then (if years as real / 10.0 < 1.0 then years as real / 10.0 else 1.0) else 0.5
  }

  /** A longer gap never lowers the score. */
  lemma DemandScoreMonotone(y1: int, y2: int)
    requires 0 < y1 <= y2
    ensures DemandScore(y1) <= DemandScore(y2)
  {
  }

  /** The score is a whole number of hundredths, so `round(…, 2)` leaves it unchanged. */
  lemma DemandScoreRoundsToItself(years: int)
    ensures Round2(DemandScore(years)) == DemandScore(years)
  {
    var d := DemandScore(years);
    var k: int := if years <= 0 then 50 else if years >= 10 then 100 else 10 * years;
    assert d * 100.0 == k as real;
    RoundHalfEvenUnique(k as real, k);
  }

  // ---------------------------------------------------------------------------
  // Rationale
  // ---------------------------------------------------------------------------

  function LongGapPart(years: int): string {
    "No major launches for " + IntToString(years) + " years"
  }

  function ActiveMarketPart(recent: int): string {
    "Active resale market (" + IntToString(recent) + " recent transactions)"
  }

  const AffordablePart := "Affordable pricing segment"
  const ModerateRationale := "Moderate BTO opportunity"

  /** The parts that apply, in their fixed order. */
  function RationaleParts(years: int, recent: int, pricing: Dict<int>): seq<string> {
    (if years >= LongGapYears then [LongGapPart(years)] else [])
    + (if recent > ActiveMarketThreshold then [ActiveMarketPart(recent)] else [])
    + (if Get(pricing, "4_room", 0) < AffordableBelow then [AffordablePart] else [])
  }

  /** `"; ".join(rationale_parts) if rationale_parts else "Moderate BTO opportunity"`. */
  function Rationale(years: int, recent: int, pricing: Dict<int>): string {
    var parts := RationaleParts(years, recent, pricing);
    if parts == [] then ModerateRationale else Join(parts, "; ")
  }

  /** A long gap leads the rationale. */
  lemma RationaleLeadsWithGap(years: int, recent: int, pricing: Dict<int>)
    requires years >= LongGapYears
    ensures StartsWith(Rationale(years, recent, pricing), LongGapPart(years))
  {
    JoinStartsWith(RationaleParts(years, recent, pricing), "; ");
  }

  /** An affordable 4-room price (a missing one counts as 0) closes the rationale. */
  lemma RationaleEndsAffordable(years: int, recent: int, pricing: Dict<int>)
    requires Get(pricing, "4_room", 0) < AffordableBelow
    ensures EndsWith(Rationale(years, recent, pricing), AffordablePart)
  {
    JoinEndsWith(RationaleParts(years, recent, pricing), "; ");
  }

  /** The rationale is "Moderate BTO opportunity" exactly when no part applies. */
  lemma RationaleModerateExactly(years: int, recent: int, pricing: Dict<int>)
    ensures Rationale(years, recent, pricing) == ModerateRationale
        <==> years < LongGapYears && recent <= ActiveMarketThreshold
             && Get(pricing, "4_room", 0) >= AffordableBelow
  {
    var parts := RationaleParts(years, recent, pricing);
    if parts != [] {
      JoinStartsWith(parts, "; ");
      var r := Join(parts, "; ");
      assert |parts[0]| > 0 && parts[0][0] != 'M';
      assert r[0] == parts[0][0];
    }
  }

  // ---------------------------------------------------------------------------
  // One recommendation
  // ---------------------------------------------------------------------------

  /** `list(characteristics.get('flat_type_mix', {}).keys())[:3]`. */
  function PredominantFlatTypes(c: Characteristics): (ps: seq<string>)
    ensures |ps| <= 3
  {
    if c.NoCharacteristics? then [] else Take(KeysOf(c.flatTypeMix), 3)
  }

  /** `characteristics.get('total_transactions', 0)`. */
  function TotalOf(c: Characteristics): nat {
    if c.NoCharacteristics? then 0 else c.totalTransactions
  }

  /** The recommendation built for one gap-analysis town from its price map. */
  function BuildEntry(f: Frame, t: TownStat, pricing: Dict<int>): (e: Recommendation)
    ensures e.Entry? && e.town == t.town
    ensures e.yearsSinceLastMajorLaunch == t.yearsSinceLastMajorLaunch
    ensures 0.0 <= e.demandScore <= 1.0
    ensures |e.predominantFlatTypes| <= 3
  {
    var c := TownCharacteristics(Some(f), t.town);
    var years := t.yearsSinceLastMajorLaunch;
    DemandScoreRoundsToItself(years);
    Entry(
      t.town,
      years,
      Round2(DemandScore(years)),
      t.recentTransactions,
      pricing,
      Rationale(years, t.recentTransactions, pricing),
      TotalOf(c),
      PredominantFlatTypes(c))
  }

  /** The entry for a town, with the price map of the three standard flat types. */
  function EntryFor(f: Frame, t: TownStat): Recommendation {
    BuildEntry(f, t, PricingOf(f, t.town, StandardFlatTypes))
  }

  function EntriesFor(f: Frame, ts: seq<TownStat>): (es: seq<Recommendation>)
    ensures |es| == |ts|
    ensures forall i :: 0 <= i < |ts| ==> es[i] == EntryFor(f, ts[i])
  {
    seq(|ts|, i requires 0 <= i < |ts| => EntryFor(f, ts[i]))
  }

  lemma EntriesForSnoc(f: Frame, ts: seq<TownStat>, t: TownStat)
    ensures EntriesFor(f, ts + [t]) == EntriesFor(f, ts) + [EntryFor(f, t)]
  {
    var longer, shorter := EntriesFor(f, ts + [t]), EntriesFor(f, ts);
    forall i | 0 <= i < |ts| ensures longer[i] == shorter[i] {
      assert (ts + [t])[i] == ts[i];
    }
    assert longer[|ts|] == EntryFor(f, t);
  }

  /** `(demand_score, years_since_last_major_launch)`, the final sort key. */
  function RecommendationKey(r: Recommendation): Key {
    match r
    case Entry(_, years, score, _, _, _, _, _) => Key(score, years as real)
    case DataUnavailable(_, years, _, _) => Key(0.0, years as real)
  }

  /** The towns handed to the recommendation loop. */
  function Candidates(f: Frame): (ts: seq<TownStat>)
    ensures |ts| <= MaxRecommendations
  {
    Take(AnalyzeBtoGaps(Some(f)), MaxRecommendations)
  }

  /** What `recommend_estates` returns for the loaded data. */
  function Recommendations(data: Option<Frame>): (r: seq<Recommendation>)
    ensures data.None? ==> r == [DataUnavailableFallback]
    ensures data.Some? ==> |r| <= MaxRecommendations && SortedDesc(r, RecommendationKey)
    ensures data.Some? ==> multiset(r) == multiset(EntriesFor(data.value, Candidates(data.value)))
  {
    if data.None? then [DataUnavailableFallback]
    else Take(SortDesc(EntriesFor(data.value, Candidates(data.value)), RecommendationKey), MaxRecommendations)
  }

  /** The elements of a mapped sequence are the images of the original elements. */
  lemma MappedElements<T, U>(ts: seq<T>, us: seq<U>, g: T -> U)
    requires |us| == |ts| && forall i :: 0 <= i < |ts| ==> us[i] == g(ts[i])
    ensures forall u :: u in us <==> exists t :: t in ts && u == g(t)
  {
    forall u | exists t :: t in ts && u == g(t) ensures u in us {
      var t :| t in ts && u == g(t);
      var i :| 0 <= i < |ts| && ts[i] == t;
      assert us[i] == u;
    }
  }

  /** The entries are exactly the entries of the given towns. */
  lemma EntriesElements(f: Frame, ts: seq<TownStat>)
    ensures forall e :: e in EntriesFor(f, ts) <==> exists t :: t in ts && e == EntryFor(f, t)
  {
    MappedElements(ts, EntriesFor(f, ts), t => EntryFor(f, t));
  }

  /**
   * Every recommendation is the entry of one of the first six gap-analysis
   * towns, and each such town is recommended.
   */
  lemma RecommendationsFromCandidates(f: Frame)
    ensures forall e :: e in Recommendations(Some(f)) <==> exists t :: t in Candidates(f) && e == EntryFor(f, t)
  {
    var c := Candidates(f);
    var es := EntriesFor(f, c);
    var r := Recommendations(Some(f));
    SameElements(es, r);
    EntriesElements(f, c);
    forall e ensures e in r <==> exists t :: t in c && e == EntryFor(f, t) {
      assert e in r <==> e in es;
    }
  }

  /** Every recommendation built from data is an entry with a score in [0, 1] and at most three flat types. */
  lemma RecommendationsBounded(f: Frame)
    ensures forall e :: e in Recommendations(Some(f)) ==>
      e.Entry? && 0.0 <= e.demandScore <= 1.0 && |e.predominantFlatTypes| <= 3
  {
    RecommendationsFromCandidates(f);
  }

  /**
   * The predominant flat types of a town are its most frequent ones: in
   * non-increasing order of count, and no flat type left out occurs more
   * often than one that is listed.
   */
  lemma PredominantAreMostFrequent(f: Frame, town: string)
    requires |OfTown(f, town)| > 0
    ensures var ps := PredominantFlatTypes(TownCharacteristics(Some(f), town));
      var fts := FlatTypes(OfTown(f, town));
      (forall i, j :: 0 <= i < j < |ps| ==> Count(fts, ps[i]) >= Count(fts, ps[j]))
      && (forall ft :: ft in fts && ft !in ps ==> forall p :: p in ps ==> Count(fts, ft) <= Count(fts, p))
  {
    var fts := FlatTypes(OfTown(f, town));
    MixCoversFlatTypes(f, town);
    MostFrequentOrdered(fts, 3);
    MostFrequentKept(fts, 3);
  }

  /**
   * The loop of `recommend_estates` over the candidate towns: compute each
   * town's price map and append its entry.
   */
  method BuildRecommendations(df: Frame, townAnalysis: seq<TownStat>) returns (recommendations: seq<Recommendation>)
    ensures recommendations == EntriesFor(df, townAnalysis)
  {
    recommendations := [];
    var i := 0;
    while i < |townAnalysis|
      invariant 0 <= i <= |townAnalysis|
      invariant recommendations == EntriesFor(df, townAnalysis[..i])
    {
      var townInfo := townAnalysis[i];
      var pricing := CalculatePricing(df, townInfo.town, StandardFlatTypes);
      var recommendation := BuildEntry(df, townInfo, pricing);
      assert townAnalysis[..i + 1] == townAnalysis[..i] + [townInfo];
      EntriesForSnoc(df, townAnalysis[..i], townInfo);
      recommendations := recommendations + [recommendation];
      i := i + 1;
    }
    assert townAnalysis[..i] == townAnalysis;
  }

  /**
   * `recommend_estates` on the loaded data: the fallback record without
   * data; otherwise the entries of the first six gap-analysis towns, sorted
   * by demand score and gap, descending, at most six.
   */
  method RecommendEstates(data: Option<Frame>) returns (recs: seq<Recommendation>)
    ensures recs == Recommendations(data)
  {
    if data.None? {
      return [DataUnavailableFallback];
    }
    var recommendations := BuildRecommendations(data.value, Candidates(data.value));
    recommendations := SortDesc(recommendations, RecommendationKey);
    recs := Take(recommendations, MaxRecommendations);
  }
}
