/**
 * The resale-CSV transformation: the sale month is split into year and
 * month, the storey range into its lowest and highest storey, the lease
 * column is renamed, and ten columns are kept. Rows are never dropped: a
 * malformed month or storey range fails the whole transformation.
 */
module Transform {
  import opened Wrappers
  import opened Text
  import opened Dicts

  /** The columns of the raw CSV that the transformation reads, with `read_csv`'s types. */
  datatype RawResaleRow = RawResaleRow(
    month: string,
    town: string,
    flatType: string,
    flatModel: string,
    floorAreaSqm: real,
    storeyRange: string,
    leaseCommenceDate: int,
    resalePrice: real)

  /** One output row, its fields in the order of `OutputColumns` (see `SelectionOrder`). */
  datatype CleanRow = CleanRow(
    town: string,
    flatType: string,
    flatModel: string,
    floorAreaSqm: real,
    storeyLow: int,
    storeyHigh: int,
    leaseCommenceYear: int,
    txYear: int,
    txMonth: int,
    resalePrice: real)

  /** The `rename` mapping: every listed column keeps its name except the lease column. */
  const RenameMap: Dict<string> := [
    ("month", "month"), ("town", "town"), ("flat_type", "flat_type"), ("flat_model", "flat_model"),
    ("floor_area_sqm", "floor_area_sqm"), ("storey_range", "storey_range"),
    ("lease_commence_date", "lease_commence_year"), ("resale_price", "resale_price")]

  /** `rename(columns=...)` on one column name: unmapped names pass through. */
  function Rename(column: string): string {
    Get(RenameMap, column, column)
  }

  /** The renaming each entry of the mapping performs. */
  function RenamedTo(column: string): string {
    if column == "lease_commence_date" then "lease_commence_year" else column
  }

  /** A mapping whose every entry agrees with `g` maps each of its keys by `g`. */
  lemma {:induction false} LookupAgrees(d: Dict<string>, g: string -> string, k: string)
    requires forall i :: 0 <= i < |d| ==> d[i].1 == g(d[i].0)
    ensures HasKey(d, k) ==> Lookup(d, k) == Some(g(k))
  {
    if d != [] && d[0].0 != k {
      assert forall i :: 0 <= i < |d[1..]| ==> d[1..][i] == d[i + 1];
      LookupAgrees(d[1..], g, k);
    }
  }

  /** Only the lease column changes its name. */
  lemma RenameOnlyLease(column: string)
    ensures Rename(column) == RenamedTo(column)
  {
    var m := RenameMap;
    assert forall i :: 0 <= i < |m| ==> m[i].1 == RenamedTo(m[i].0);
    LookupAgrees(m, RenamedTo, column);
    HasKeyAt(m, column);
    if column == "lease_commence_date" {
      assert m[6].0 == column;
    }
  }

  /** The final column selection, in order. */
  const OutputColumns: seq<string> := [
    "town", "flat_type", "flat_model", "floor_area_sqm", "storey_low", "storey_high",
    "lease_commence_year", "tx_year", "tx_month", "resale_price"]

  /** One value of a frame row, whatever the column's type. */
  datatype Cell = Text(text: string) | Number(number: real) | Whole(whole: int)

  /** An output row as the selected frame lists it, one cell per output column. */
  function Cells(c: CleanRow): (cells: seq<Cell>)
    ensures |cells| == |OutputColumns|
  {
    [Text(c.town), Text(c.flatType), Text(c.flatModel), Number(c.floorAreaSqm),
     Whole(c.storeyLow), Whole(c.storeyHigh), Whole(c.leaseCommenceYear),
     Whole(c.txYear), Whole(c.txMonth), Number(c.resalePrice)]
  }

  /**
   * A named column of one row of the frame just before the selection: the
   * raw columns under their renamed names, and the four derived columns.
   */
  function FrameColumn(r: RawResaleRow, year: int, month: int, low: int, high: int, name: string): Option<Cell> {
    if name == Rename("month") then Some(Text(r.month))
    else if name == Rename("town") then Some(Text(r.town))
    else if name == Rename("flat_type") then Some(Text(r.flatType))
    else if name == Rename("flat_model") then Some(Text(r.flatModel))
    else if name == Rename("floor_area_sqm") then Some(Number(r.floorAreaSqm))
    else if name == Rename("storey_range") then Some(Text(ReplaceAll(r.storeyRange, " TO ", "-")))
    else if name == Rename("lease_commence_date") then Some(Whole(r.leaseCommenceDate))
    else if name == Rename("resale_price") then Some(Number(r.resalePrice))
    else if name == "tx_year" then Some(Whole(year))
    else if name == "tx_month" then Some(Whole(month))
    else if name == "storey_low" then Some(Whole(low))
    else if name == "storey_high" then Some(Whole(high))
    else None
  }

  /** Which column pass raised. */
  datatype TransformError = BadMonth | BadStorey

  /** `.astype(int)` on the first two pieces of `.str.split('-', expand=True)`; later pieces are ignored. */
  function LeadingPair(s: string): Option<(int, int)> {
    var parts := Split(s, '-');
    if |parts| < 2 then None
    else
      match (ParseNat(parts[0]), ParseNat(parts[1]))
      case (Some(a), Some(b)) => Some((a, b))
      case _ => None
  }

  /** The sale year and month of a `YYYY-MM` month. */
  function ParseMonth(month: string): Option<(int, int)> {
    LeadingPair(month)
  }

  /** `storey_range.replace(' TO ', '-')`, then its two ends. */
  function ParseStorey(storeyRange: string): Option<(int, int)> {
    LeadingPair(ReplaceAll(storeyRange, " TO ", "-"))
  }

  lemma DigitsHaveNo(s: string, c: char)
    requires IsDigits(s) && !IsDigit(c)
    ensures c !in s
  {
  }

  /** Two digit strings joined by a dash split back into the two numbers. */
  lemma DashPair(a: string, b: string)
    requires IsDigits(a) && IsDigits(b)
    ensures LeadingPair(a + "-" + b) == Some((DigitsValue(a), DigitsValue(b)))
  {
    DigitsHaveNo(a, '-');
    DigitsHaveNo(b, '-');
    SplitJoin([a, b], '-');
    assert Join([a, b], "-") == a + "-" + b;
  }

  /** A month `y-m` of digit strings gives year `y` and month `m` as numbers. */
  lemma MonthParses(y: string, m: string)
    requires IsDigits(y) && IsDigits(m)
    ensures ParseMonth(y + "-" + m) == Some((DigitsValue(y), DigitsValue(m)))
  {
    DashPair(y, m);
  }

  /** The separator `" TO "` between two digit strings becomes a dash. */
  lemma ReplaceTo(a: string, b: string)
    requires IsDigits(a) && IsDigits(b)
    ensures ReplaceAll(a + " TO " + b, " TO ", "-") == a + "-" + b
  {
    var pat := " TO ";
    DigitsHaveNo(a, ' ');
    DigitsHaveNo(b, ' ');
    ReplaceAllSkips(a, pat + b, pat, "-");
    assert a + pat + b == a + (pat + b);
    var t := pat + b;
    assert t[..|pat|] == pat && t[|pat|..] == b;
    ReplaceAllSkips(b, [], pat, "-");
    assert b + [] == b;
  }

  /** A storey range `A TO B` of digit strings gives storeys `A` and `B`. */
  lemma StoreyParses(a: string, b: string)
    requires IsDigits(a) && IsDigits(b)
    ensures ParseStorey(a + " TO " + b) == Some((DigitsValue(a), DigitsValue(b)))
  {
    ReplaceTo(a, b);
    DashPair(a, b);
  }

  /** Both columns of one row parse. */
  predicate Parses(r: RawResaleRow) {
    ParseMonth(r.month).Some? && ParseStorey(r.storeyRange).Some?
  }

  /** One row's output: the derived numbers and the carried-over columns. */
  function TransformRow(r: RawResaleRow): (c: CleanRow)
    requires Parses(r)
    ensures (c.txYear, c.txMonth) == ParseMonth(r.month).value
    ensures (c.storeyLow, c.storeyHigh) == ParseStorey(r.storeyRange).value
    ensures c.town == r.town && c.flatType == r.flatType && c.flatModel == r.flatModel
    ensures c.floorAreaSqm == r.floorAreaSqm && c.leaseCommenceYear == r.leaseCommenceDate
    ensures c.resalePrice == r.resalePrice
  {
    var (year, month) := ParseMonth(r.month).value;
    var (low, high) := ParseStorey(r.storeyRange).value;
    CleanRow(r.town, r.flatType, r.flatModel, r.floorAreaSqm, low, high,
             r.leaseCommenceDate, year, month, r.resalePrice)
  }

  /**
   * Selecting `OutputColumns` from the renamed frame with its derived
   * columns yields, column by column, the cells of the transformed row.
   */
  lemma SelectionOrder(r: RawResaleRow)
    requires Parses(r)
    ensures var (year, month) := ParseMonth(r.month).value;
      var (low, high) := ParseStorey(r.storeyRange).value;
      forall i :: 0 <= i < |OutputColumns| ==>
        FrameColumn(r, year, month, low, high, OutputColumns[i]) == Some(Cells(TransformRow(r))[i])
  {
    SelectedCells(r, TransformRow(r));
  }

  /** The selection applied to a row that carries `r`'s columns over. */
  lemma SelectedCells(r: RawResaleRow, c: CleanRow)
    requires c.town == r.town && c.flatType == r.flatType && c.flatModel == r.flatModel
    requires c.floorAreaSqm == r.floorAreaSqm && c.leaseCommenceYear == r.leaseCommenceDate
    requires c.resalePrice == r.resalePrice
    ensures forall i :: 0 <= i < |OutputColumns| ==>
      FrameColumn(r, c.txYear, c.txMonth, c.storeyLow, c.storeyHigh, OutputColumns[i]) == Some(Cells(c)[i])
  {
    RenameListed();
  }

  /** The names the mapping gives the raw columns. */
  lemma RenameListed()
    ensures Rename("month") == "month" && Rename("town") == "town"
    ensures Rename("flat_type") == "flat_type" && Rename("flat_model") == "flat_model"
    ensures Rename("floor_area_sqm") == "floor_area_sqm" && Rename("storey_range") == "storey_range"
    ensures Rename("lease_commence_date") == "lease_commence_year" && Rename("resale_price") == "resale_price"
  {
    RenameOnlyLease("month");
    RenameOnlyLease("town");
    RenameOnlyLease("flat_type");
    RenameOnlyLease("flat_model");
    RenameOnlyLease("floor_area_sqm");
    RenameOnlyLease("storey_range");
    RenameOnlyLease("lease_commence_date");
    RenameOnlyLease("resale_price");
  }

  predicate MonthsParse(rows: seq<RawResaleRow>) {
    forall i :: 0 <= i < |rows| ==> ParseMonth(rows[i].month).Some?
  }

  predicate StoreysParse(rows: seq<RawResaleRow>) {
    forall i :: 0 <= i < |rows| ==> ParseStorey(rows[i].storeyRange).Some?
  }

  /**
   * `transform_resale_csv` on the rows read: the month column is converted
   * for every row before the storey column, so a bad month is reported
   * first; otherwise every row is transformed, none dropped.
   */
  function TransformResaleRows(rows: seq<RawResaleRow>): (r: Result<seq<CleanRow>, TransformError>)
    ensures r.Ok? <==> MonthsParse(rows) && StoreysParse(rows)
    ensures r.Err? ==> r.error == if MonthsParse(rows) then BadStorey else BadMonth
    ensures r.Ok? ==> |r.value| == |rows|
    ensures r.Ok? ==> forall i :: 0 <= i < |rows| ==> Parses(rows[i]) && r.value[i] == TransformRow(rows[i])
  {
    if !MonthsParse(rows) then Err(BadMonth)
    else if !StoreysParse(rows) then Err(BadStorey)
    else Ok(seq(|rows|, i requires 0 <= i < |rows| => TransformRow(rows[i])))
  }
}
