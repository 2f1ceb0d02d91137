# HDB BTO recommendation and price prediction — a Dafny model

This project models the core of a service that recommends Singapore HDB
towns for new Build-To-Order (BTO) launches and estimates flat prices. The
model is built from the service's resale-transaction data. It covers:

- **Loading** (`Loader`): the resale frame. This is the required-column
  check, the clean-up of rows with a missing date, price or lease, and of
  non-positive prices, and the two caches in front of it. The first cache is
  the service's one-hour cache fields. The second is the `lru_cache` that
  pins the first result of `load_resale_data`.
- **Gap analysis** (`GapAnalysis`): per-town statistics. These are the
  latest lease year, the transaction counts (all and since 2022) and the
  years since the last major launch. Towns qualify with more than 100
  transactions and a gap of at least 5 years. Qualifying towns are ranked by
  gap and then by recent activity, and the first eight are reported.
- **Pricing** (`Pricing`): median resale price per town and flat type. It
  uses recent data when there are at least ten recent sales and all data
  otherwise. The BTO price is 80% of that median, rounded to an integer.
  Prices are keyed `3_room`, `4_room`, `5_room`.
- **Town profiles** (`TownProfiles`): the flat-type mix, the typical sizes,
  the price ranges, and the per-town market analysis.
- **Recommendations** (`Recommendation`): a demand score and a rationale for
  each of the first six gap towns. The entries are stably sorted by
  (demand score, years since launch), descending.
- **Prediction** (`Predictor`, `Api`): the aligned feature row that reaches
  the trained model, the HTTP endpoints (`/health`, `/predict`, `/recommend`,
  `/town/{name}/analysis`, `/towns`, `/flat-types`) and the affordability
  bands.
- **Narrative** (`Narrative`): the language-model analysis. It tries OpenAI
  once, then Perplexity, then a fixed fallback text.
- **Ingestion** (`Transform`): the transform of a raw resale CSV into the
  cleaned column set.

Shared vocabulary lives in small library modules:

| module | what it provides |
|---|---|
| `Text` | Python string operations |
| `Ordering` | code-point string order and stable descending sort |
| `Stats` | pandas median, banker's rounding, `int()` truncation |
| `Dicts` | insertion-ordered dictionaries |
| `Records` | frame filters and `value_counts` |

Numbers are exact reals and unbounded integers. Python's `round` is modelled
as round-half-to-even, and `int()` of a float as truncation toward zero. The
trained model, the two language-model services, the clock and the file system
are parameters of the operations that use them.

In these places the model follows the code:

- Recommendations are sorted only by (demand score, years since launch),
  descending, with a stable sort.
- "Recent" means a transaction year of at least 2022 for gap analysis and
  pricing, and at least 2023 for the market analysis.
- An out-of-range `/predict` request ends in a 500. The 400 raised inside
  the handler is caught by its generic handler, so the detail is
  "Prediction failed: 400: …".
- The rationale joins up to three parts with "; " (long gap, active market,
  affordable 4-room). With no part it is "Moderate BTO opportunity".
- The one-hour cache compares only the `seconds` component of the elapsed
  time, so the elapsed time is taken modulo one day. The model states this
  as written. It is never reached after the first call, because
  `lru_cache(maxsize=1)` returns the pinned first result (`None` included)
  from then on.

## Model

| member | source | states |
|---|---|---|
| Loader.MissingColumns | services/recommendation.py:40-41 | a column is missing exactly when it is required and absent from the CSV |
| Loader.Clean | services/recommendation.py:46-51 | the cleaned frame holds exactly the usable rows (price present and > 0, date and lease present), never more rows than the input, all prices positive |
| Loader.CleanKeepsMultiplicity | services/recommendation.py:46-51 | each usable row appears in the cleaned frame exactly as many times as in the input |
| Loader.CleanCount | services/recommendation.py:49-51 | no row is dropped if and only if every row is usable |
| Loader.Preprocess | services/recommendation.py:37-62 | a frame comes back exactly when the CSV was read and no required column is missing; it is the clean-up of the CSV's rows, with positive prices |
| Loader.MissingColumnRefused | services/recommendation.py:40-43 | any one missing required column makes the load return None |
| Loader.ResaleDataService.constructor | services/recommendation.py:21-24 | both caches start empty and the cache duration is 3600 seconds |
| Loader.ResaleDataService.LoadUncached | services/recommendation.py:30-62 | a fresh cache is returned with the state unchanged; otherwise the result is the preprocessing of the CSV, and the cache and its timestamp are set only when that succeeds |
| Loader.ResaleDataService.LoadResaleData | services/recommendation.py:27-28 | the first call computes the load and pins its result; every later call returns the pinned result and changes nothing |
| GapAnalysis.StatsFor | services/recommendation.py:70-77 | a town's total transactions are the occurrences of its name in the town column, its recent transactions the occurrences among the 2022+ rows (so 0 < recent ≤ total), and years since launch = 2025 − max lease year |
| GapAnalysis.MaxLeaseOfGroup | services/recommendation.py:70-71 | the max lease year bounds every sale of the town and is attained by one of them |
| GapAnalysis.GroupKeys | services/recommendation.py:70 | the group keys are strictly ascending and are exactly the towns present |
| GapAnalysis.TownStats | services/recommendation.py:70-80 | one statistics row per present town, with no duplicates, each equal to that town's group statistics |
| GapAnalysis.Qualifying | services/recommendation.py:83-85 | keeps exactly the rows with more than 100 transactions and a gap of at least 5 years |
| GapAnalysis.Ranked | services/recommendation.py:83-86 | the qualifying group statistics, without duplicates, sorted descending by (gap, recent transactions) |
| GapAnalysis.AnalyzeBtoGaps | services/recommendation.py:64-88 | empty for missing or empty data; otherwise at most 8 qualifying group statistics, sorted by (gap, recent), with distinct towns |
| GapAnalysis.ReportIsTopOfRanking | services/recommendation.py:86-88 | the report is the first eight rows of the ranking |
| GapAnalysis.GapsComplete | services/recommendation.py:83-88 | a qualifying town is reported, or eight towns are reported that each rank at least as high |
| GapAnalysis.UnqualifiedExcluded | services/recommendation.py:83-85 | a town that does not qualify is never reported |
| Pricing.RecentFlats | services/recommendation.py:113-117 | the recent sales of a town and flat type are among all its sales |
| Pricing.SinglePricing | services/recommendation.py:110-127 | a price exists exactly when the town has a sale of that flat type; with at least 10 recent sales it is their median, otherwise the median of all of them |
| Pricing.SinglePricingPositive | services/recommendation.py:119-125 | with positive resale prices the representative price is positive |
| Pricing.NormalizeKey | services/recommendation.py:199 | the key is the lower-cased flat type with every space replaced by "_": same length, no spaces |
| Text.ReplaceCharAt | services/recommendation.py:199 | replacing a one-character pattern with one character substitutes it at every position and keeps the length |
| Pricing.StandardKeys | services/recommendation.py:192-199 | "3 ROOM", "4 ROOM", "5 ROOM" become "3_room", "4_room", "5_room" |
| Pricing.BtoPrice | services/recommendation.py:198-199 | the BTO price is within 0.5 of 80% of the resale price |
| Pricing.PricingOf | services/recommendation.py:193-199 | the pricing dictionary has distinct keys |
| Pricing.PricingLookup | services/recommendation.py:195-199 | a flat type whose representative price is present and non-zero maps to its rounded BTO price; otherwise it has no entry |
| Pricing.PricingAbsent | services/recommendation.py:195-199 | no key appears that is not the normalised name of a requested flat type |
| Pricing.CalculatePricing | services/recommendation.py:90-108 | the loop's dictionary is the pricing of the requested flat types |
| Records.MaxLease | services/recommendation.py:293 | the maximum lease year bounds every row and is attained |
| Records.WhereMultiset | services/recommendation.py:274 | a boolean-mask filter keeps each selected row exactly as many times as the frame holds it, and no other row |
| Records.TownCount | services/recommendation.py:70-72 | a town's group has as many rows as its name has occurrences in the town column |
| Records.SinceOfTown | services/recommendation.py:72 | counting a town's 2022+ rows is counting the town among the 2022+ rows |
| Records.MinLease | services/recommendation.py:292 | the minimum lease year bounds every row and is attained |
| Records.ValueCounts | services/recommendation.py:284 | each distinct value appears once with its number of occurrences, in non-increasing order of count |
| Records.MostFrequentOrdered | services/recommendation.py:230 | the first n labels of the value counts have non-increasing counts |
| Records.MostFrequentKept | services/recommendation.py:230 | a value left out of the first n is no more frequent than any kept |
| Stats.Mean | services/recommendation.py:73 | the mean lies between the minimum and the maximum |
| Stats.Median | services/recommendation.py:120 | at least half of a non-empty sample is at or below the median, and at least half is at or above it |
| Stats.MedianWithinRange | services/recommendation.py:157 | some sample value is at or below the median and some is at or above it |
| Stats.RoundHalfEven | services/recommendation.py:199 | the result is within 0.5 of the input, and a tie goes to the even neighbour |
| Stats.RoundHalfEvenUnique | services/recommendation.py:199 | rounding is the only integer with that property |
| Stats.Round2 | api/main.py:144-145 | rounding to two decimals lies within 0.005 of the input |
| Stats.Round2Monotone | api/main.py:144-145 | rounding to two decimals preserves order |
| Stats.Truncate | services/recommendation.py:286-293 | `int()` of a real moves toward zero by less than one |
| TownProfiles.ByFlatType | services/recommendation.py:156-157 | the group-by keys are strictly ascending and are exactly the flat types present; each value is the aggregate of that flat type's rows |
| TownProfiles.TownCharacteristics | services/recommendation.py:144-164 | no characteristics exactly when the data is missing or the town has no sales; otherwise the total is the number of sales |
| TownProfiles.SharesSumToOne | services/recommendation.py:155 | the normalised flat-type mix sums to one |
| TownProfiles.MixCoversFlatTypes | services/recommendation.py:155 | the mix's keys are the labels of the town's flat-type value counts, and are exactly the flat types it sold |
| TownProfiles.PriceRangesOrdered | services/recommendation.py:157 | for each flat type, min ≤ median ≤ max |
| TownProfiles.MatchingTown | services/recommendation.py:274 | keeps exactly the rows whose upper-cased town equals the upper-cased name |
| TownProfiles.MarketOf | services/recommendation.py:280-295 | echoes the name; total = rows; each flat type with its exact count, exactly the town's flat types, counts summing to total; oldest and newest lease are the smallest and largest lease year of the rows; overall median = int() of a median of all prices; a recent median exactly when there are 2023+ sales, and then int() of a median of their prices |
| TownProfiles.TownMarketAnalysis | services/recommendation.py:267-296 | "Data not available" without data, "No data found for …" without matching rows; a town with matching rows always gets its analysis, with that many transactions, built from exactly those rows |
| TownProfiles.DataPeriodSpan | services/recommendation.py:282 | every sale's month lies within the reported data period |
| TownProfiles.AnalysisIgnoresCase | services/recommendation.py:274 | names equal up to case both succeed or both fail, and give the same analysis apart from the echoed name |
| Recommendation.DemandScore | services/recommendation.py:209 | the score is in [0,1]: 0.5 for no gap, 1 from 10 years, otherwise years/10 |
| Recommendation.DemandScoreMonotone | services/recommendation.py:209 | a longer positive gap never scores lower |
| Recommendation.DemandScoreRoundsToItself | services/recommendation.py:224 | rounding the score to two decimals leaves it unchanged |
| Recommendation.RationaleLeadsWithGap | services/recommendation.py:211-213 | a gap of at least 8 years puts "No major launches for N years" first |
| Recommendation.RationaleEndsAffordable | services/recommendation.py:216-219 | a 4-room price below 400000 (or none) puts "Affordable pricing segment" last |
| Recommendation.RationaleModerateExactly | services/recommendation.py:211-219 | the rationale is "Moderate BTO opportunity" exactly when no part applies |
| Recommendation.PredominantFlatTypes | services/recommendation.py:230 | at most three predominant flat types |
| Recommendation.BuildEntry | services/recommendation.py:205-232 | an entry keeps the town and its gap, with a score in [0,1] and at most three predominant flat types |
| Recommendation.EntriesForSnoc | services/recommendation.py:187-234 | processing one more town appends its entry |
| Recommendation.Candidates | services/recommendation.py:183-187 | at most six candidate towns |
| Recommendation.Recommendations | services/recommendation.py:166-243 | the fallback entry when data is missing; otherwise at most six entries, sorted descending by (score, gap), that are a permutation of the candidates' entries |
| Recommendation.RecommendationsFromCandidates | services/recommendation.py:183-243 | an entry is recommended exactly when it is the entry of one of the first six gap towns |
| Recommendation.RecommendationsBounded | services/recommendation.py:205-243 | every recommendation built from data is an entry with a score in [0,1] and at most three predominant flat types |
| Recommendation.PredominantAreMostFrequent | services/recommendation.py:155-230 | the predominant flat types are in non-increasing frequency, and no flat type left out is more frequent |
| Recommendation.BuildRecommendations | services/recommendation.py:184-238 | the loop builds one entry per candidate, in order |
| Recommendation.RecommendEstates | services/recommendation.py:166-243 | the returned list is the specified recommendation list |
| Predictor.Aligned | ml_models/predict.py:29-39 | the aligned row has exactly the expected columns, in order |
| Predictor.AlignedValue | ml_models/predict.py:31-36 | an expected column takes the input's value when present and 0 otherwise |
| Predictor.AlignedDropsUnexpected | ml_models/predict.py:34-35 | an input column that is not expected is dropped |
| Predictor.AlignedToOwnKeys | ml_models/predict.py:29-39 | aligning to the input's own columns gives the input back |
| Predictor.AlignFeatures | ml_models/predict.py:31-39 | the column-assignment loop produces the aligned row |
| Predictor.PredictPrice | ml_models/predict.py:21-42 | the result, a price or the exception `model.predict` or `float` raises, is the model applied to the aligned row, or to the raw features when the feature list is missing or empty |
| Narrative.FallbackAnalysis | services/llm_analysis.py:26-28 | the fallback text starts with "LLM analysis unavailable - reason." |
| Narrative.FallbackNotes | services/llm_analysis.py:30-45 | the text ends with the launch-gap notes exactly when the data mentions a launch gap, and with the general note otherwise |
| Narrative.AnalyzeWithPerplexity | services/llm_analysis.py:49-118 | no key gives a key error; an answer exists only for status 200 with choices, and is the first choice stripped |
| Narrative.PerplexityAnswers | services/llm_analysis.py:51-104 | an answer comes back exactly when the key is set, the call returns 200 and there is at least one choice |
| Narrative.BothFailedMeansFallback | services/llm_analysis.py:151-158 | when OpenAI and Perplexity both fail, the result is the fallback for "Both OpenAI and Perplexity APIs unavailable" |
| Narrative.BothFailedCarriesNotes | services/llm_analysis.py:151-158 | when both services fail on data that mentions the launch gap, the analysis ends with the launch-gap notes |
| Narrative.AnalyzeWithLlm | services/llm_analysis.py:120-158 | the retry loop gives the OpenAI answer if any, else Perplexity's, else the fallback |
| Transform.RenameOnlyLease | data_ingestion/transform.py:14-23 | only `lease_commence_date` is renamed, to `lease_commence_year` |
| Transform.DashPair | data_ingestion/transform.py:26-28 | two digit strings joined by "-" split back into their values |
| Transform.MonthParses | data_ingestion/transform.py:26-28 | "YYYY-MM" parses to (year, month) |
| Transform.ReplaceTo | data_ingestion/transform.py:31 | "a TO b" becomes "a-b" |
| Transform.StoreyParses | data_ingestion/transform.py:31-34 | "a TO b" parses to (a, b) |
| Transform.SelectionOrder | data_ingestion/transform.py:13-41 | selecting the ten output columns by name from the renamed frame with its derived columns gives the transformed row's cells, in order |
| Transform.SelectedCells | data_ingestion/transform.py:13-41 | the same selection for any row that carries the raw columns over |
| Transform.TransformRow | data_ingestion/transform.py:26-41 | the cleaned row has the parsed year, month and storey bounds, and copies the other seven columns |
| Transform.TransformResaleRows | data_ingestion/transform.py:3-43 | succeeds exactly when every month and storey range parses, else fails on the first column that does not; rows keep their order and count |
| Api.SetOneHot | api/main.py:84-90 | a one-hot column is set to 1 only if it already exists; no key is added and nothing else changes |
| Api.NumericAssignments | api/main.py:76-81 | the six numeric features are assigned, in order |
| Api.PredictionFeatures | api/main.py:69-92 | the feature dictionary has distinct keys |
| Api.FeatureKeys | api/main.py:73-90 | the keys are the expected features plus the six numeric ones, and nothing else |
| Api.NumericAssigned | api/main.py:73-90 | each of the six numeric assignments survives the one-hot updates with its value |
| Api.NumericFeatureValues | api/main.py:76-81 | floor area, storey (low and high), lease year, 2025 and 6 |
| Api.OneHotValues | api/main.py:84-90 | the town and flat-type columns are 1 when expected, and absent otherwise |
| Api.OtherFeaturesZero | api/main.py:73 | every other expected feature is 0 |
| Api.RangeError | api/main.py:121-126 | no error exactly when floor area, storey and lease year are in range; otherwise one of the three messages |
| Api.CalculateAffordability | api/main.py:94-103 | the result is one of the four bands |
| Api.AffordabilityMonotone | api/main.py:94-103 | a higher BTO price never gets a lower band |
| Api.AffordabilityThresholds | api/main.py:96-103 | each band is chosen exactly on its price interval (≤300000, ≤450000, ≤600000, above) |
| Api.BtoNotAboveResale | api/main.py:136-145 | with a discount in [0,1] the rounded BTO price never exceeds the rounded resale price |
| Api.PredictionService.constructor | api/main.py:16-42 | the discount and model version default to 0.2 and "1.0.0"; no features and no model are loaded |
| Api.PredictionService.Startup | api/main.py:44-58 | a features file loads its list and marks the model loaded; without one the list is empty and the model not loaded |
| Api.PredictionService.Health | api/main.py:105-114 | status "ok", the model-loaded flag, the model version, the feature count and the given timestamp |
| Api.PredictionService.CreatePredictionFeatures | api/main.py:68-92 | the assignments produce the specified feature dictionary |
| Api.PredictionService.Predict | api/main.py:116-152 | 503 when no model; "Prediction failed: 400: …" (500) out of range; a `ValueError` from the model gives 400 "Invalid input: …" and any other exception 500 "Prediction failed: …"; otherwise (and only then) both prices rounded to two decimals and the band of the unrounded BTO price |
| Api.SortedListing | api/main.py:220-223 | sorted, duplicate-free, exactly the values given, with the count |
| Api.ListTowns | api/main.py:210-227 | 500 "Failed to fetch towns" exactly when there is no data; otherwise exactly the towns in the data |
| Api.ListFlatTypes | api/main.py:229-246 | 500 "Failed to fetch flat types" exactly when there is no data; otherwise exactly the flat types in the data |
| Api.CleanTownNameIdempotent | api/main.py:197 | cleaning a cleaned town name changes nothing |
| Api.TownAnalysis | api/main.py:193-208 | every error is a 404 ("Data not available" without data, "No data found for …" without matching rows); a cleaned name with matching rows always succeeds, with that many transactions |
| Api.TownAnalysisOfCleanName | api/main.py:197-198 | asking with the cleaned name gives the same answer |
| Api.DataLineMentionsGap | api/main.py:167-172 | each data line mentions "Years since BTO" |
| Api.DataTextMentionsGap | api/main.py:167-173 | the data text given to the language models mentions the launch gap |
| Api.Recommend | api/main.py:154-191 | no recommendations gives 500 "Recommendation failed: 404: No recommendations available"; otherwise the fixed prompt tag, the analysis of the first five lines and all recommendations |
| Api.RecommendFallbackHasNotes | api/main.py:163-179 | when both language models fail, the analysis of any non-empty recommendation list ends with the launch-gap notes |

## Left out

- File, network and database I/O are not modelled. This covers `read_csv`, the JSON features file, `joblib`, the HTTP calls to OpenAI and Perplexity, and the database loader. Each result is an input or a function parameter (`csv`, `featuresFile`, `openAi`, `send`, `model`).
- `pd.to_datetime` is not modelled: each row carries its parsed year or a missing marker.
- The trained regressor is not modelled. It is an uninterpreted function from the aligned row to a price or a raised exception (a `ValueError` or any other kind), and `train_model.py` is not part of this model.
- Clocks and randomness are not modelled: `datetime.now()` and `time.time()` are parameters. The retry back-off sleep never runs, because the loop has one attempt.
- Concurrency is not modelled. The `ThreadPoolExecutor` pricing tasks and their 5-second timeout are sequential in `Pricing.CalculatePricing`, so a timed-out task is not represented.
- `Narrative.AnalyzeWithPerplexity`: the exception messages and the console output are not modelled. Failures are the kinds KeyMissing, Timeout, CallFailed, BadStatus and NoChoices.
- Floating point is not modelled. Numbers are exact reals, so rounding noise in `x * (1 - 0.2)` and `years / 10.0` is not represented.
- NaN values in columns that `dropna` does not check, such as floor area, are not represented.
- `Records.ValueCounts`: among equal counts the model keeps first-appearance order. pandas does not fix the order of ties, so the lemmas about it state only the non-increasing order by count.
- `Text.ToUpper`: only ASCII letters change case. Python's full Unicode case mapping is not modelled.
- `Transform.TransformResaleRows`: a field counts as a number only when it is a plain digit string. Python `int()` also accepts a sign, surrounding whitespace and underscores, which are not modelled. A missing CSV column (a `KeyError`) is not modelled, and neither is the column shape pandas gives to an empty file.
- `Api.PricingText`: Python's `repr` of the pricing dictionary is reproduced for keys without quote characters. The keys are always `3_room`, `4_room` or `5_room`.
- The system-error fallback list at services/recommendation.py:245-265 and the per-town `except` at lines 236-238 are not modelled. No modelled step raises, so neither is reachable.
- The non-dict branches at lines 189 and 205-206 are not modelled, because gap rows are always dictionaries.
- The `lru_cache` on `create_prediction_features` is not modelled. It only memoises a pure result.
- CORS, routing, request-schema validation, the global exception handler and the logging of processing time are not modelled.
- Monitoring metrics, the ORM models and the data-fetch script are not part of this model.
- A malformed features JSON is not modelled: the features file is either a list of names or absent.
