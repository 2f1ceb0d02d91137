/**
 * The HTTP API: model-state gating, the feature dictionary of a prediction
 * request, its range checks, the BTO price and affordability band, and the
 * listing, town-analysis and recommendation endpoints. Routing, middleware
 * and logging are not part of this model; each endpoint is an operation that
 * returns its response or the `HTTPException` it ends with.
 */
module Api {
  import opened Wrappers
  import opened Text
  import opened Ordering
  import opened Stats
  import opened Dicts
  import opened Records
  import opened TownProfiles
  import opened Recommendation
  import opened Narrative
  import opened Predictor

  /** An `HTTPException` as the client sees it. */
  datatype HttpError = HttpError(status: int, detail: string)

  /** `str(HTTPException(...))`, as an outer handler embeds it in its own detail. */
  function ErrorText(e: HttpError): string {
    IntToString(e.status) + ": " + e.detail
  }

  const DefaultDiscount: real := 0.2
  const DefaultModelVersion := "1.0.0"

  // ---------------------------------------------------------------------------
  // Prediction features
  // ---------------------------------------------------------------------------

  /** The six numeric features every request sets. */
  const NumericFeatures: seq<string> :=
    ["floor_area_sqm", "storey_low", "storey_high", "lease_commence_year", "tx_year", "tx_month"]

  function TownKey(town: string): string { "town_" + town }
  function FlatTypeKey(flatType: string): string { "flat_type_" + flatType }

  /** A one-hot key never collides with a numeric feature. */
  lemma OneHotNotNumeric(town: string, flatType: string)
    ensures TownKey(town) !in NumericFeatures && FlatTypeKey(flatType) !in NumericFeatures
    ensures TownKey(town) != FlatTypeKey(flatType)
  {
    var t, f := TownKey(town), FlatTypeKey(flatType);
    assert t[0] == 't' && t[1] == 'o';
    assert f[0] == 'f' && f[1] == 'l' && f[2] == 'a';
  }

  /** The six numeric assignments of `create_prediction_features`, in order. */
  function NumericAssignments(floorAreaSqm: real, storey: int, leaseCommenceYear: int): (es: Dict<real>)
    ensures KeysOf(es) == NumericFeatures
  {
    [("floor_area_sqm", floorAreaSqm), ("storey_low", storey as real), ("storey_high", storey as real),
     ("lease_commence_year", leaseCommenceYear as real), ("tx_year", 2025.0), ("tx_month", 6.0)]
  }

  lemma NumericKeys(floorAreaSqm: real, storey: int, leaseCommenceYear: int, k: string)
    ensures HasKey(NumericAssignments(floorAreaSqm, storey, leaseCommenceYear), k) <==> k in NumericFeatures
  {
    var es := NumericAssignments(floorAreaSqm, storey, leaseCommenceYear);
    HasKeyAt(es, k);
    if k in NumericFeatures {
      var i :| 0 <= i < |NumericFeatures| && NumericFeatures[i] == k;
      assert es[i].0 == k;
    }
  }

  /** `if key in features: features[key] = 1`. */
  function SetOneHot(d: Dict<real>, key: string): (r: Dict<real>)
    requires DistinctKeys(d)
    ensures DistinctKeys(r)
    ensures forall k :: HasKey(r, k) <==> HasKey(d, k)
    ensures forall k :: k != key ==> Lookup(r, k) == Lookup(d, k)
    ensures Lookup(r, key) == if HasKey(d, key) then Some(1.0) else None
  {
    PutDistinct(d, key, 1.0);
    if HasKey(d, key) then Put(d, key, 1.0) else d
  }

  /**
   * The dictionary `create_prediction_features` builds: every expected
   * feature at zero, the six numeric features, then the one-hot keys of the
   * town and flat type if they are already keys.
   */
  function PredictionFeatures(
    expected: seq<string>, town: string, flatType: string,
    floorAreaSqm: real, storey: int, leaseCommenceYear: int): (d: Dict<real>)
    ensures DistinctKeys(d)
  {
    var numeric := PutAll(FromKeys(expected, 0.0), NumericAssignments(floorAreaSqm, storey, leaseCommenceYear));
    SetOneHot(SetOneHot(numeric, TownKey(town)), FlatTypeKey(flatType))
  }

  /** The keys are the expected features plus the six numeric ones. */
  lemma FeatureKeys(
    expected: seq<string>, town: string, flatType: string,
    floorAreaSqm: real, storey: int, leaseCommenceYear: int, k: string)
    ensures HasKey(PredictionFeatures(expected, town, flatType, floorAreaSqm, storey, leaseCommenceYear), k)
        <==> k in expected || k in NumericFeatures
  {
    NumericKeys(floorAreaSqm, storey, leaseCommenceYear, k);
  }

  /** The numeric feature names are distinct. */
  lemma NumericDistinct(floorAreaSqm: real, storey: int, leaseCommenceYear: int)
    ensures DistinctKeys(NumericAssignments(floorAreaSqm, storey, leaseCommenceYear))
  {
    var es := NumericAssignments(floorAreaSqm, storey, leaseCommenceYear);
    assert es[0].0[0] == 'f' && es[1].0[0] == 's' && es[2].0[0] == 's' && es[3].0[0] == 'l';
    assert es[4].0[0] == 't' && es[5].0[0] == 't';
    assert es[1].0[7] == 'l' && es[2].0[7] == 'h';
    assert es[4].0[3] == 'y' && es[5].0[3] == 'm';
  }

  /** Each numeric assignment survives into the final dictionary. */
  lemma NumericAssigned(
    expected: seq<string>, town: string, flatType: string,
    floorAreaSqm: real, storey: int, leaseCommenceYear: int, i: nat)
    requires i < |NumericFeatures|
    ensures var es := NumericAssignments(floorAreaSqm, storey, leaseCommenceYear);
      Lookup(PredictionFeatures(expected, town, flatType, floorAreaSqm, storey, leaseCommenceYear), es[i].0)
      == Some(es[i].1)
  {
    OneHotNotNumeric(town, flatType);
    var es := NumericAssignments(floorAreaSqm, storey, leaseCommenceYear);
    assert KeysOf(es)[i] == es[i].0;
    NumericDistinct(floorAreaSqm, storey, leaseCommenceYear);
    LookupAt(es, i);
    PutAllAssigns(FromKeys(expected, 0.0), es, es[i].0);
  }

  /** The numeric features hold the request's values and the fixed sale date, June 2025. */
  lemma NumericFeatureValues(
    expected: seq<string>, town: string, flatType: string,
    floorAreaSqm: real, storey: int, leaseCommenceYear: int)
    ensures var d := PredictionFeatures(expected, town, flatType, floorAreaSqm, storey, leaseCommenceYear);
      Lookup(d, "floor_area_sqm") == Some(floorAreaSqm)
      && Lookup(d, "storey_low") == Some(storey as real)
      && Lookup(d, "storey_high") == Some(storey as real)
      && Lookup(d, "lease_commence_year") == Some(leaseCommenceYear as real)
      && Lookup(d, "tx_year") == Some(2025.0)
      && Lookup(d, "tx_month") == Some(6.0)
  {
    NumericAssigned(expected, town, flatType, floorAreaSqm, storey, leaseCommenceYear, 0);
    NumericAssigned(expected, town, flatType, floorAreaSqm, storey, leaseCommenceYear, 1);
    NumericAssigned(expected, town, flatType, floorAreaSqm, storey, leaseCommenceYear, 2);
    NumericAssigned(expected, town, flatType, floorAreaSqm, storey, leaseCommenceYear, 3);
    NumericAssigned(expected, town, flatType, floorAreaSqm, storey, leaseCommenceYear, 4);
    NumericAssigned(expected, town, flatType, floorAreaSqm, storey, leaseCommenceYear, 5);
  }

  /** The one-hot keys are set to one only when the model expects them, and are never added. */
  lemma OneHotValues(
    expected: seq<string>, town: string, flatType: string,
    floorAreaSqm: real, storey: int, leaseCommenceYear: int)
    ensures var d := PredictionFeatures(expected, town, flatType, floorAreaSqm, storey, leaseCommenceYear);
      Lookup(d, TownKey(town)) == (if TownKey(town) in expected then Some(1.0) else None)
      && Lookup(d, FlatTypeKey(flatType)) == (if FlatTypeKey(flatType) in expected then Some(1.0) else None)
  {
    OneHotNotNumeric(town, flatType);
    NumericKeys(floorAreaSqm, storey, leaseCommenceYear, TownKey(town));
    NumericKeys(floorAreaSqm, storey, leaseCommenceYear, FlatTypeKey(flatType));
  }

  /** Every other expected feature stays zero. */
  lemma OtherFeaturesZero(
    expected: seq<string>, town: string, flatType: string,
    floorAreaSqm: real, storey: int, leaseCommenceYear: int, k: string)
    requires k in expected && k !in NumericFeatures && k != TownKey(town) && k != FlatTypeKey(flatType)
    ensures Lookup(PredictionFeatures(expected, town, flatType, floorAreaSqm, storey, leaseCommenceYear), k)
         == Some(0.0)
  {
    NumericKeys(floorAreaSqm, storey, leaseCommenceYear, k);
  }

  // ---------------------------------------------------------------------------
  // Request checks and affordability
  // ---------------------------------------------------------------------------

  datatype PredictRequest = PredictRequest(
    town: string, flatType: string, floorAreaSqm: real, storey: int, leaseCommenceYear: int)

  datatype PredictResponse = PredictResponse(
    town: string, flatType: string, predictedResalePrice: real, predictedBtoPrice: real,
    affordability: string)

  predicate InRange(req: PredictRequest) {
    0.0 < req.floorAreaSqm <= 300.0
    && 1 <= req.storey <= 50
    && 1960 <= req.leaseCommenceYear <= 2025
  }

  /** The range checks of `predict`, in order: the detail of the first that fails. */
  function RangeError(req: PredictRequest): (detail: Option<string>)
    ensures detail.None? <==> InRange(req)
    ensures detail.Some? ==> detail.value in {"Invalid floor area", "Invalid storey level", "Invalid lease commence year"}
  {
    if req.floorAreaSqm <= 0.0 || req.floorAreaSqm > 300.0 then Some("Invalid floor area")
    else if req.storey < 1 || req.storey > 50 then Some("Invalid storey level")
    else if req.leaseCommenceYear < 1960 || req.leaseCommenceYear > 2025 then Some("Invalid lease commence year")
    else None
  }

  const AffordabilityBands: seq<string> := [
    "Lower Income (<$7,000)",
    "Middle Income ($7,000-$14,000)",
    "Upper Middle Income ($14,000-$21,000)",
    "High Income (>$21,000)"]

  /** The position of the band in `AffordabilityBands`, upper bounds inclusive. */
  function BandIndex(btoPrice: real): (i: nat)
    ensures i < |AffordabilityBands|
  {
    if btoPrice <= 300000.0 then 0
    else if btoPrice <= 450000.0 then 1
    else if btoPrice <= 600000.0 then 2
    else 3
  }

  /** `calculate_affordability`. */
  function CalculateAffordability(btoPrice: real): (band: string)
    ensures band in AffordabilityBands
  {
    AffordabilityBands[BandIndex(btoPrice)]
  }

  /** A dearer flat never falls in a lower income band. */
  lemma AffordabilityMonotone(a: real, b: real)
    requires a <= b
    ensures BandIndex(a) <= BandIndex(b)
  {
  }

  /** The band thresholds: each band is a half-open price interval. */
  lemma AffordabilityThresholds(p: real)
    ensures CalculateAffordability(p) == AffordabilityBands[0] <==> p <= 300000.0
    ensures CalculateAffordability(p) == AffordabilityBands[1] <==> 300000.0 < p <= 450000.0
    ensures CalculateAffordability(p) == AffordabilityBands[2] <==> 450000.0 < p <= 600000.0
    ensures CalculateAffordability(p) == AffordabilityBands[3] <==> 600000.0 < p
  {
  }

  /** `resale_price * (1 - discount)`. */
  function DiscountedPrice(resale: real, discount: real): real {
    resale * (1.0 - discount)
  }

  // ---------------------------------------------------------------------------
  // Model state and prediction
  // ---------------------------------------------------------------------------

  datatype HealthStatus = HealthStatus(
    status: string, modelLoaded: bool, modelVersion: string, featuresCount: nat, timestamp: real)

  const ModelUnavailable := "Model not available. Please check model files."

  /** The module-level state of the API process. */
  class PredictionService {
    /** The feature names read at startup. */
    var expectedFeatures: seq<string>
    var modelLoaded: bool
    /** `BTO_DISCOUNT`, 0.2 when unset. */
    const discount: real
    const modelVersion: string
    /** The predictor's own feature list, read when it is imported; `None` if its file is missing. */
    const predictorFeatures: Option<seq<string>>
    /** `model.predict` on a one-row frame, with the conversion of its result to a float. */
    const model: Model

    constructor(envDiscount: Option<real>, envVersion: Option<string>,
                predictorFeatures: Option<seq<string>>, model: Model)
      ensures expectedFeatures == [] && !modelLoaded
      ensures discount == envDiscount.GetOr(DefaultDiscount)
      ensures modelVersion == envVersion.GetOr(DefaultModelVersion)
      ensures this.predictorFeatures == predictorFeatures && this.model == model
    {
      expectedFeatures := [];
      modelLoaded := false;
      discount := envDiscount.GetOr(DefaultDiscount);
      modelVersion := envVersion.GetOr(DefaultModelVersion);
      this.predictorFeatures := predictorFeatures;
      this.model := model;
    }

    /** `startup_event`: the feature file's contents, or `None` when it is missing. */
    method Startup(featuresFile: Option<seq<string>>)
      modifies this`expectedFeatures, this`modelLoaded
      ensures featuresFile.Some? ==> expectedFeatures == featuresFile.value && modelLoaded
      ensures featuresFile.None? ==> expectedFeatures == [] && !modelLoaded
    {
      match featuresFile
      case Some(names) =>
        expectedFeatures := names;
        modelLoaded := true;
      case None =>
        expectedFeatures := [];
        modelLoaded := false;
    }

    /** `/health`: always "ok", whether or not the model could be loaded. */
    function Health(timestamp: real): (h: HealthStatus)
      reads this
      ensures h.status == "ok" && h.modelLoaded == modelLoaded
      ensures h.modelVersion == modelVersion && h.timestamp == timestamp
      ensures h.featuresCount == |expectedFeatures|
    {
      HealthStatus("ok", modelLoaded, modelVersion, |expectedFeatures|, timestamp)
    }

    /** `create_prediction_features`, assigning the keys one by one. */
    method CreatePredictionFeatures(
      town: string, flatType: string, floorAreaSqm: real, storey: int, leaseCommenceYear: int)
      returns (features: Dict<real>)
      ensures features == PredictionFeatures(expectedFeatures, town, flatType, floorAreaSqm, storey, leaseCommenceYear)
    {
      features := FromKeys(expectedFeatures, 0.0);
      // floor_area_sqm, storey_low, storey_high, lease_commence_year, tx_year, tx_month
      features := PutAll(features, NumericAssignments(floorAreaSqm, storey, leaseCommenceYear));
      var townFeature := TownKey(town);
      if HasKey(features, townFeature) {
        features := Put(features, townFeature, 1.0);
      }
      var flatTypeFeature := FlatTypeKey(flatType);
      if HasKey(features, flatTypeFeature) {
        features := Put(features, flatTypeFeature, 1.0);
      }
    }

    /** The model's resale price for a request, or the exception it raises. */
    function ResaleEstimate(req: PredictRequest): Result<real, Fault>
      reads this
    {
      model(ModelInput(predictorFeatures,
        PredictionFeatures(expectedFeatures, req.town, req.flatType, req.floorAreaSqm, req.storey, req.leaseCommenceYear)))
    }

    /**
     * `/predict`: refused with 503 while no model is loaded; a request out
     * of range raises 400, which the surrounding handler turns into 500; a
     * `ValueError` from the model becomes 400 "Invalid input", any other
     * exception 500 "Prediction failed"; otherwise both prices rounded to
     * cents and the band of the unrounded BTO price.
     */
    method Predict(req: PredictRequest) returns (r: Result<PredictResponse, HttpError>)
      ensures !modelLoaded ==> r == Err(HttpError(503, ModelUnavailable))
      ensures modelLoaded && !InRange(req)
           ==> r == Err(HttpError(500, "Prediction failed: " + ErrorText(HttpError(400, RangeError(req).value))))
      ensures modelLoaded && InRange(req) ==> (r.Ok? <==> ResaleEstimate(req).Ok?)
      ensures modelLoaded && InRange(req) && ResaleEstimate(req).Err? && ResaleEstimate(req).error.ValueError?
           ==> r == Err(HttpError(400, "Invalid input: " + ResaleEstimate(req).error.message))
      ensures modelLoaded && InRange(req) && ResaleEstimate(req).Err? && ResaleEstimate(req).error.OtherError?
           ==> r == Err(HttpError(500, "Prediction failed: " + ResaleEstimate(req).error.message))
      ensures r.Ok? ==> ResaleEstimate(req).Ok? && var resale := ResaleEstimate(req).value;
        var bto := DiscountedPrice(resale, discount);
        r.value == PredictResponse(req.town, req.flatType, Round2(resale), Round2(bto), CalculateAffordability(bto))
    {
      if !modelLoaded {
        return Err(HttpError(503, ModelUnavailable));
      }
      var invalid := RangeError(req);
      if invalid.Some? {
        var e := HttpError(400, invalid.value);
        return Err(HttpError(500, "Prediction failed: " + ErrorText(e)));
      }
      var features := CreatePredictionFeatures(req.town, req.flatType, req.floorAreaSqm, req.storey, req.leaseCommenceYear);
      var estimate := PredictPrice(predictorFeatures, model, features);
      assert estimate == ResaleEstimate(req);
      if estimate.Err? {
        match estimate.error
        case ValueError(message) =>
          return Err(HttpError(400, "Invalid input: " + message));
        case OtherError(message) =>
          return Err(HttpError(500, "Prediction failed: " + message));
      }
      var resalePrice := estimate.value;
      var btoPrice := DiscountedPrice(resalePrice, discount);
      var affordability := CalculateAffordability(btoPrice);
      r := Ok(PredictResponse(req.town, req.flatType, Round2(resalePrice), Round2(btoPrice), affordability));
    }
  }

  /** With a discount between 0 and 1 and a non-negative estimate, the BTO price never exceeds the resale price. */
  lemma BtoNotAboveResale(resale: real, discount: real)
    requires 0.0 <= discount <= 1.0 && resale >= 0.0
    ensures Round2(DiscountedPrice(resale, discount)) <= Round2(resale)
  {
    assert resale * discount >= 0.0;
    assert DiscountedPrice(resale, discount) == resale - resale * discount;
    Round2Monotone(DiscountedPrice(resale, discount), resale);
  }

  // ---------------------------------------------------------------------------
  // Listings and town analysis
  // ---------------------------------------------------------------------------

  datatype Listing = Listing(items: seq<string>, count: nat)

  /** `sorted(values.unique())` with its length. */
  function SortedListing(values: seq<string>): (l: Listing)
    ensures StrictlyAscending(l.items) && l.count == |l.items|
    ensures forall v :: v in l.items <==> v in values
    ensures forall i, j :: 0 <= i < j < |l.items| ==> l.items[i] != l.items[j]
  {
    var items := SortedUnique(values);
    StrictlyAscendingDistinct(items);
    Listing(items, |items|)
  }

  /** `/towns`: the 503 for missing data is caught by the endpoint's own handler and becomes a 500. */
  function ListTowns(data: Option<Frame>): (r: Result<Listing, HttpError>)
    ensures r.Err? <==> data.None?
    ensures r.Err? ==> r.error == HttpError(500, "Failed to fetch towns")
    ensures r.Ok? ==> forall t :: t in r.value.items <==> t in Towns(data.value)
  {
    if data.None? then Err(HttpError(500, "Failed to fetch towns")) else Ok(SortedListing(Towns(data.value)))
  }

  /** `/flat-types`, in the same way. */
  function ListFlatTypes(data: Option<Frame>): (r: Result<Listing, HttpError>)
    ensures r.Err? <==> data.None?
    ensures r.Err? ==> r.error == HttpError(500, "Failed to fetch flat types")
    ensures r.Ok? ==> forall t :: t in r.value.items <==> t in FlatTypes(data.value)
  {
    if data.None? then Err(HttpError(500, "Failed to fetch flat types")) else Ok(SortedListing(FlatTypes(data.value)))
  }

  /** The name the town-analysis endpoint looks up: upper-cased, then stripped. */
  function CleanTownName(name: string): string {
    Strip(ToUpper(name))
  }

  /** Cleaning a name twice is cleaning it once. */
  lemma CleanTownNameIdempotent(name: string)
    ensures CleanTownName(CleanTownName(name)) == CleanTownName(name)
  {
    var c := CleanTownName(name);
    UpperCaseStable(name);
    StripKeepsUpper(ToUpper(name));
    UpperCaseStable(c);
    StripIdempotent(ToUpper(name));
  }

  /** `/town/{town_name}/analysis`: any error of the analysis becomes a 404 with its message. */
  function TownAnalysis(data: Option<Frame>, townName: string): (r: Result<MarketAnalysis, HttpError>)
    ensures r.Err? ==> r.error.status == 404
    ensures data.None? ==> r == Err(HttpError(404, "Data not available"))
    ensures data.Some? && |MatchingTown(data.value, ToUpper(CleanTownName(townName)))| == 0
         ==> r == Err(HttpError(404, "No data found for " + CleanTownName(townName)))
    ensures data.Some? && |MatchingTown(data.value, ToUpper(CleanTownName(townName)))| > 0
         ==> r.Ok? && r.value.totalTransactions == |MatchingTown(data.value, ToUpper(CleanTownName(townName)))|
    ensures r.Ok? ==> r.value.town == CleanTownName(townName) && r.value.totalTransactions > 0
  {
    match TownMarketAnalysis(data, CleanTownName(townName))
    case Ok(a) => Ok(a)
    case Err(e) => Err(HttpError(404, e))
  }

  /** A name that is already clean is answered exactly as any spelling that cleans to it. */
  lemma TownAnalysisOfCleanName(data: Option<Frame>, townName: string)
    ensures TownAnalysis(data, CleanTownName(townName)) == TownAnalysis(data, townName)
  {
    CleanTownNameIdempotent(townName);
  }

  // ---------------------------------------------------------------------------
  // Recommendations with analysis
  // ---------------------------------------------------------------------------

  const RecommendQuestion :=
    "Recommend estates with limited BTO launches in the past decade and analyse potential BTO pricing "
    + "for different flat types (3-room, 4-room, 5-room) with affordability considerations."
  const RecommendPrompt := "limited_bto_last_decade_with_pricing_analysis"
  const NoRecommendations := HttpError(404, "No recommendations available")

  datatype RecommendationResponse = RecommendationResponse(
    prompt: string, analysis: string, recommendedTowns: seq<Recommendation>)

  /** `str(pricing)` for a price map: `{'k': v, ...}`. */
  function PricingText(pricing: Dict<int>): string {
    "{" + Join(seq(|pricing|, i requires 0 <= i < |pricing| =>
      "'" + pricing[i].0 + "': " + IntToString(pricing[i].1)), ", ") + "}"
  }

  /** One line of the data handed to the analysis; missing fields take the `get` defaults. */
  function DataLine(r: Recommendation): string {
    var activity := if r.Entry? then r.recentMarketActivity else 0;
    var pricing := if r.Entry? then PricingText(r.predictedPricing) else "{}";
    var head := "Town: " + r.town + ", ";
    var tail := ": " + IntToString(r.yearsSinceLastMajorLaunch)
      + ", Recent activity: " + IntToString(activity)
      + ", Pricing: " + pricing
      + ", Rationale: " + r.rationale;
    head + "Years since BTO" + tail
  }

  /** The first five recommendations, one line each. */
  function DataText(recs: seq<Recommendation>): string {
    var top := Take(recs, 5);
    Join(seq(|top|, i requires 0 <= i < |top| => DataLine(top[i])), "\n")
  }

  lemma DataLineMentionsGap(r: Recommendation)
    ensures Contains(DataLine(r), "Years since BTO")
  {
    var activity := if r.Entry? then r.recentMarketActivity else 0;
    var pricing := if r.Entry? then PricingText(r.predictedPricing) else "{}";
    var head := "Town: " + r.town + ", ";
    var tail := ": " + IntToString(r.yearsSinceLastMajorLaunch)
      + ", Recent activity: " + IntToString(activity)
      + ", Pricing: " + pricing
      + ", Rationale: " + r.rationale;
    ContainsWithin(head, "Years since BTO", tail);
  }

  /** Every data text for a non-empty list mentions the launch gap. */
  lemma DataTextMentionsGap(recs: seq<Recommendation>)
    requires |recs| > 0
    ensures MentionsLaunchGap(DataText(recs))
  {
    var top := Take(recs, 5);
    var lines := seq(|top|, i requires 0 <= i < |top| => DataLine(top[i]));
    DataLineMentionsGap(top[0]);
    JoinStartsWith(lines, "\n");
    var text := Join(lines, "\n");
    assert text == lines[0] + text[|lines[0]|..];
    ContainsExtend(lines[0], text[|lines[0]|..], "Years since BTO");
  }

  /**
   * `/recommend`: an empty list raises 404, which the endpoint's handler
   * turns into a 500; otherwise the recommendations with the analysis of
   * the first five.
   */
  method Recommend(
    data: Option<Frame>, openAi: string -> Option<string>, keyConfigured: bool, send: string -> Exchange)
    returns (r: Result<RecommendationResponse, HttpError>)
    ensures Recommendations(data) == [] ==> r == Err(HttpError(500, "Recommendation failed: " + ErrorText(NoRecommendations)))
    ensures Recommendations(data) != [] ==> r == Ok(RecommendationResponse(
      RecommendPrompt,
      LlmAnalysis(openAi, keyConfigured, send, RecommendQuestion, DataText(Recommendations(data))),
      Recommendations(data)))
  {
    var recs := RecommendEstates(data);
    if recs == [] {
      return Err(HttpError(500, "Recommendation failed: " + ErrorText(NoRecommendations)));
    }
    var dataStr := DataText(recs);
    var analysis := AnalyzeWithLlm(openAi, keyConfigured, send, RecommendQuestion, dataStr);
    r := Ok(RecommendationResponse(RecommendPrompt, analysis, recs));
  }

  /** When both services fail, the endpoint's analysis of a non-empty list always carries the launch-pattern notes. */
  lemma RecommendFallbackHasNotes(
    recs: seq<Recommendation>, openAi: string -> Option<string>, keyConfigured: bool, send: string -> Exchange)
    requires recs != []
    requires openAi(Prompt(RecommendQuestion, DataText(recs))).None?
    requires AnalyzeWithPerplexity(keyConfigured, send, RecommendQuestion, DataText(recs)).Err?
    ensures EndsWith(LlmAnalysis(openAi, keyConfigured, send, RecommendQuestion, DataText(recs)), LongGapNotes)
  {
    DataTextMentionsGap(recs);
    BothFailedCarriesNotes(openAi, keyConfigured, send, RecommendQuestion, DataText(recs));
  }
}
