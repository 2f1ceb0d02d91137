/**
 * Loading the resale frame: the required-column check, the row clean-up
 * (`dropna` on date, price and lease, then `resale_price > 0`), and the two
 * caches that sit in front of it: the service's one-hour cache fields and the
 * `lru_cache(maxsize=1)` wrapper that pins the first result.
 */
module Loader {
  import opened Wrappers
  import opened Records

  /**
   * A row as `read_csv` gives it, after `pd.to_datetime(month,
   * errors='coerce')`: `transactionYear` is the parsed date's year, `None`
   * where parsing failed; `None` in a numeric column is a missing value.
   */
  datatype RawRow = RawRow(
    month: string,
    transactionYear: Option<int>,
    town: string,
    flatType: string,
    floorAreaSqm: real,
    leaseCommenceDate: Option<int>,
    resalePrice: Option<real>)

  datatype RawFrame = RawFrame(columns: set<string>, rows: seq<RawRow>)

  const RequiredColumns: seq<string> :=
    ["month", "town", "flat_type", "resale_price", "lease_commence_date", "floor_area_sqm"]

  /** `set(required_columns) - set(df.columns)`. */
  function MissingColumns(f: RawFrame): (missing: set<string>)
    ensures forall c :: c in missing <==> c in RequiredColumns && c !in f.columns
  {
    set c | c in RequiredColumns && c !in f.columns
  }

  /** A row survives `dropna(subset=[date, price, lease])` and `resale_price > 0`. */
  predicate Usable(r: RawRow) {
    r.transactionYear.Some? && r.leaseCommenceDate.Some? && r.resalePrice.Some?
    && r.resalePrice.value > 0.0
  }

  function ToRecord(r: RawRow): (x: Record)
    requires Usable(r)
    ensures x.resalePrice > 0.0
  {
    Record(r.month, r.transactionYear.value, r.town, r.flatType, r.floorAreaSqm,
           r.leaseCommenceDate.value, r.resalePrice.value)
  }

  /** The row clean-up: keeps exactly the usable rows, in order. */
  function Clean(rows: seq<RawRow>): (f: Frame)
    ensures |f| <= |rows|
    ensures forall x :: x in f ==> x.resalePrice > 0.0
    ensures forall r :: r in rows && Usable(r) ==> ToRecord(r) in f
    ensures forall x :: x in f ==> exists r :: r in rows && Usable(r) && x == ToRecord(r)
  {
    if rows == [] then []
    else
      assert rows == [rows[0]] + rows[1..];
      (if Usable(rows[0]) then [ToRecord(rows[0])] else []) + Clean(rows[1..])
  }

  /** Each usable row appears in the cleaned frame exactly as often as in the input. */
  lemma {:induction false} CleanKeepsMultiplicity(rows: seq<RawRow>, r: RawRow)
    requires Usable(r)
    ensures multiset(Clean(rows))[ToRecord(r)] == multiset(rows)[r]
  {
    if rows != [] {
      CleanKeepsMultiplicity(rows[1..], r);
      assert rows == [rows[0]] + rows[1..];
      assert multiset(rows) == multiset([rows[0]]) + multiset(rows[1..]);
      var head := if Usable(rows[0]) then [ToRecord(rows[0])] else [];
      assert Clean(rows) == head + Clean(rows[1..]);
      assert multiset(Clean(rows)) == multiset(head) + multiset(Clean(rows[1..]));
      if Usable(rows[0]) {
        assert ToRecord(rows[0]) == ToRecord(r) <==> rows[0] == r;
      }
    }
  }

  /** Every row is kept exactly when it is usable: the clean-up neither adds nor drops anything else. */
  lemma {:induction false} CleanCount(rows: seq<RawRow>)
    ensures |Clean(rows)| == |rows| ==> forall i :: 0 <= i < |rows| ==> Usable(rows[i])
    ensures (forall i :: 0 <= i < |rows| ==> Usable(rows[i])) ==> |Clean(rows)| == |rows|
  {
    if rows != [] {
      CleanCount(rows[1..]);
      assert forall i :: 1 <= i < |rows| ==> rows[i] == rows[1..][i - 1];
    }
  }

  /**
   * The uncached body of `load_resale_data`: `None` when the CSV cannot be
   * read or lacks a required column, otherwise the cleaned rows.
   */
  function Preprocess(csv: Option<RawFrame>): (r: Option<Frame>)
    ensures r.Some? <==> csv.Some? && MissingColumns(csv.value) == {}
    ensures r.Some? ==> forall x :: x in r.value ==> x.resalePrice > 0.0
    ensures r.Some? ==> r.value == Clean(csv.value.rows)
  {
    match csv
    case None => None
    case Some(f) => if MissingColumns(f) != {} then None else Some(Clean(f.rows))
  }

  /** A frame missing any one required column is refused. */
  lemma MissingColumnRefused(f: RawFrame, c: string)
    requires c in RequiredColumns && c !in f.columns
    ensures Preprocess(Some(f)) == None
  {
    assert c in MissingColumns(f);
  }

  const SecondsPerDay := 86400

  /** The recommendation service's data-loading state. */
  class ResaleDataService {
    var dataCache: Option<Frame>
    /** When `dataCache` was filled, in seconds on the injected clock. */
    var cacheTimestamp: Option<int>
    const cacheDuration: int
    /** The single slot of the `lru_cache(maxsize=1)` decorating `load_resale_data`. */
    var pinned: Option<Option<Frame>>

    /** Until the memo slot is filled, the body has never run, so its own cache is empty. */
    predicate Valid()
      reads this
    {
      pinned.None? ==> dataCache.None? && cacheTimestamp.None?
    }

    constructor()
      ensures Valid()
      ensures dataCache == None && cacheTimestamp == None && pinned == None
      ensures cacheDuration == 3600
    {
      dataCache := None;
      cacheTimestamp := None;
      cacheDuration := 3600;
      pinned := None;
    }

    /** The hour-long cache test, with `timedelta.seconds` (the age modulo one day). */
    predicate CacheFresh(now: int)
      reads this
    {
      dataCache.Some? && cacheTimestamp.Some?
      && (now - cacheTimestamp.value) % SecondsPerDay < cacheDuration
    }

    /** The body of `load_resale_data` without its memo decorator. */
    method LoadUncached(now: int, csv: Option<RawFrame>) returns (r: Option<Frame>)
      modifies this`dataCache, this`cacheTimestamp
      ensures old(CacheFresh(now)) ==> r == old(dataCache) && unchanged(this)
      ensures !old(CacheFresh(now)) ==> r == Preprocess(csv)
      ensures !old(CacheFresh(now)) && r.Some? ==> dataCache == r && cacheTimestamp == Some(now)
      ensures !old(CacheFresh(now)) && r.None? ==> unchanged(this)
    {
      if CacheFresh(now) {
        return dataCache;
      }
      r := Preprocess(csv);
      if r.Some? {
        dataCache := r;
        cacheTimestamp := Some(now);
      }
    }

    /**
     * `load_resale_data` as called: the first call runs the body and its
     * result, `None` included, is returned by every later call whatever the
     * clock or the file then say. The hour-long cache is never consulted,
     * because the body only ever runs with an empty cache.
     */
    method LoadResaleData(now: int, csv: Option<RawFrame>) returns (r: Option<Frame>)
      requires Valid()
      modifies this
      ensures Valid()
      ensures old(pinned).Some? ==> r == old(pinned).value && unchanged(this)
      ensures old(pinned).None? ==> r == Preprocess(csv) && pinned == Some(r)
    {
      if pinned.Some? {
        return pinned.value;
      }
      r := LoadUncached(now, csv);
      pinned := Some(r);
    }
  }
}
