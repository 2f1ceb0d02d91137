/**
 * Representative pricing: the median resale price of a town's flat type
 * (recent transactions when there are enough of them), and the BTO price map
 * derived from it with the 20% discount.
 */
module Pricing {
  import opened Wrappers
  import opened Text
  import opened Stats
  import opened Records
  import opened Dicts

  const BtoDiscountRate: real := 0.2
  /** Transactions from this year on are preferred for pricing. */
  const RecentFrom := 2022
  /** The smallest recent sample trusted for a median. */
  const MinRecentSample := 10
  const StandardFlatTypes: seq<string> := ["3 ROOM", "4 ROOM", "5 ROOM"]

  /** The town's transactions of one flat type. */
  function SameFlats(f: Frame, town: string, flatType: string): Frame {
    OfTownAndType(f, town, flatType)
  }

  /** The town's transactions of one flat type from 2022 on. */
  function RecentFlats(f: Frame, town: string, flatType: string): (r: Frame)
    ensures forall x :: x in r ==> x in SameFlats(f, town, flatType)
  {
    Where(f, (x: Record) => x.town == town && x.flatType == flatType && x.transactionYear >= RecentFrom)
  }

  /**
   * `_calculate_single_pricing`: the median price of the recent sample if it
   * has at least ten transactions, else the median of all of them, else none.
   */
  function SinglePricing(f: Frame, town: string, flatType: string): (r: Option<real>)
    ensures r.Some? <==> |SameFlats(f, town, flatType)| > 0
    ensures |RecentFlats(f, town, flatType)| >= MinRecentSample
         ==> r.Some? && IsMedian(Prices(RecentFlats(f, town, flatType)), r.value)
    ensures |RecentFlats(f, town, flatType)| < MinRecentSample && r.Some?
         ==> IsMedian(Prices(SameFlats(f, town, flatType)), r.value)
  {
    var recent := RecentFlats(f, town, flatType);
    var all := SameFlats(f, town, flatType);
    if |recent| >= MinRecentSample then
      assert recent[0] in all;
      Some(Median(Prices(recent)))
    else if |all| > 0 then
      Some(Median(Prices(all)))
    else
      None
  }

  /** With positive prices (as the loader guarantees) a priced flat type has a positive median. */
  lemma SinglePricingPositive(f: Frame, town: string, flatType: string)
    requires forall x :: x in f ==> x.resalePrice > 0.0
    requires SinglePricing(f, town, flatType).Some?
    ensures SinglePricing(f, town, flatType).value > 0.0
  {
    var recent := RecentFlats(f, town, flatType);
    var all := SameFlats(f, town, flatType);
    if |recent| >= MinRecentSample {
      MedianPositive(Prices(recent));
    } else {
      MedianPositive(Prices(all));
    }
  }

  /** `flat_type.lower().replace(' ', '_')`: a one-character replacement is a per-character substitution. */
  function NormalizeKey(flatType: string): (k: string)
    ensures |k| == |flatType|
    ensures ' ' !in k
    ensures k == ReplaceAll(ToLower(flatType), " ", "_")
  {
    ReplaceCharAt(ToLower(flatType), ' ', '_');
    seq(|flatType|, i requires 0 <= i < |flatType| =>
      if LowerChar(flatType[i]) == ' ' then '_' else LowerChar(flatType[i]))
  }

  lemma StandardKeys()
    ensures NormalizeKey("3 ROOM") == "3_room"
    ensures NormalizeKey("4 ROOM") == "4_room"
    ensures NormalizeKey("5 ROOM") == "5_room"
  {
  }

  /** `round(resale_price * (1 - BTO_DISCOUNT_RATE))`. */
  function BtoPrice(resale: real): (p: int)
    ensures -0.5 <= resale * 0.8 - p as real <= 0.5
  {
    RoundHalfEven(resale * (1.0 - BtoDiscountRate))
  }

  /** `if resale_price:` — a price is used unless it is missing or zero. */
  predicate Priced(p: Option<real>) {
    p.Some? && p.value != 0.0
  }

  /** The entry one flat type contributes: its discounted, rounded price when it has a usable one. */
  function PriceOf(f: Frame, town: string, flatType: string): Option<int> {
    var p := SinglePricing(f, town, flatType);
    if Priced(p) then Some(BtoPrice(p.value)) else None
  }

  /**
   * The map built by assigning, in order, each flat type's entry under its
   * normalised key, skipping the flat types without one.
   */
  function PriceMap(flatTypes: seq<string>, price: string -> Option<int>): (d: Dict<int>)
    ensures DistinctKeys(d)
    decreases |flatTypes|
  {
    if flatTypes == [] then []
    else
      var ft := flatTypes[|flatTypes| - 1];
      var d := PriceMap(flatTypes[..|flatTypes| - 1], price);
      if price(ft).Some? then
        PutDistinct(d, NormalizeKey(ft), price(ft).value);
        Put(d, NormalizeKey(ft), price(ft).value)
      else d
  }

  /** The price map of a town (the specification of the pricing loop). */
  function PricingOf(f: Frame, town: string, flatTypes: seq<string>): (d: Dict<int>)
    ensures DistinctKeys(d)
  {
    PriceMap(flatTypes, ft => PriceOf(f, town, ft))
  }

  /** The keys of the flat types are pairwise different. */
  predicate DistinctNormalized(flatTypes: seq<string>) {
    forall i, j :: 0 <= i < j < |flatTypes| ==> NormalizeKey(flatTypes[i]) != NormalizeKey(flatTypes[j])
  }

  /** With distinct keys, each flat type's key holds exactly that flat type's entry. */
  lemma {:induction false} PriceMapLookup(flatTypes: seq<string>, price: string -> Option<int>, k: nat)
    requires DistinctNormalized(flatTypes) && k < |flatTypes|
    ensures Lookup(PriceMap(flatTypes, price), NormalizeKey(flatTypes[k])) == price(flatTypes[k])
  {
    var n := |flatTypes|;
    var init := flatTypes[..n - 1];
    var key := NormalizeKey(flatTypes[k]);
    if k < n - 1 {
      assert DistinctNormalized(init) by {
        forall i, j | 0 <= i < j < |init| ensures NormalizeKey(init[i]) != NormalizeKey(init[j]) {
          assert init[i] == flatTypes[i] && init[j] == flatTypes[j];
        }
      }
      assert init[k] == flatTypes[k];
      PriceMapLookup(init, price, k);
      assert key != NormalizeKey(flatTypes[n - 1]);
    } else {
      assert forall i :: 0 <= i < |init| ==> NormalizeKey(init[i]) != key by {
        forall i | 0 <= i < |init| ensures NormalizeKey(init[i]) != key {
          assert init[i] == flatTypes[i];
        }
      }
      PriceMapAbsent(init, price, key);
    }
  }

  /** A key that none of the flat types normalises to is not in the map. */
  lemma {:induction false} PriceMapAbsent(flatTypes: seq<string>, price: string -> Option<int>, key: string)
    requires forall i :: 0 <= i < |flatTypes| ==> NormalizeKey(flatTypes[i]) != key
    ensures !HasKey(PriceMap(flatTypes, price), key)
  {
    if flatTypes != [] {
      PriceMapAbsent(flatTypes[..|flatTypes| - 1], price, key);
    }
  }

  /**
   * Each listed flat type's key maps to its discounted, rounded price when
   * it has one, and is absent otherwise.
   */
  lemma PricingLookup(f: Frame, town: string, flatTypes: seq<string>, k: nat)
    requires DistinctNormalized(flatTypes) && k < |flatTypes|
    ensures var p := SinglePricing(f, town, flatTypes[k]);
      Lookup(PricingOf(f, town, flatTypes), NormalizeKey(flatTypes[k]))
      == if Priced(p) then Some(BtoPrice(p.value)) else None
  {
    PriceMapLookup(flatTypes, ft => PriceOf(f, town, ft), k);
  }

  /** A key that none of the flat types normalises to is not in the town's map. */
  lemma PricingAbsent(f: Frame, town: string, flatTypes: seq<string>, key: string)
    requires forall i :: 0 <= i < |flatTypes| ==> NormalizeKey(flatTypes[i]) != key
    ensures !HasKey(PricingOf(f, town, flatTypes), key)
  {
    PriceMapAbsent(flatTypes, ft => PriceOf(f, town, ft), key);
  }

  /**
   * The pricing loop of `calculate_pricing_async` and `recommend_estates`,
   * run in order: each flat type with a usable price gets the discounted,
   * rounded price under its normalised key.
   */
  method CalculatePricing(f: Frame, town: string, flatTypes: seq<string>) returns (pricing: Dict<int>)
    ensures pricing == PricingOf(f, town, flatTypes)
  {
    pricing := [];
    var i := 0;
    while i < |flatTypes|
      invariant 0 <= i <= |flatTypes|
      invariant pricing == PricingOf(f, town, flatTypes[..i])
    {
      var ft := flatTypes[i];
      var resale := SinglePricing(f, town, ft);
      assert flatTypes[..i + 1][..i] == flatTypes[..i];
      if resale.Some? && resale.value != 0.0 {
        pricing := Put(pricing, NormalizeKey(ft), BtoPrice(resale.value));
      }
      i := i + 1;
    }
    assert flatTypes[..i] == flatTypes;
  }
}
