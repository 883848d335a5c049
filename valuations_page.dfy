/**
 * The arithmetic of the valuations page: which table column holds a
 * year, the demonstration figures, the two accounting identities
 * (Expenses = Gross Profit - Net Profit + Net Additions and
 * Adjusted Profit = Net Profit + Add Backs) checked to within 1%, and the
 * rule that decides whether a radius-page value and a value from another
 * page are related.
 */
module Valuations {
  import opened Wrappers
  import opened Text

  const GROSS_PROFIT := "Gross Profit"
  const NET_PROFIT := "Net Profit"
  const NET_ADDITIONS := "Net Additions"
  const EXPENSES := "Expenses"
  const ADD_BACKS := "Add Backs"
  const ADJUSTED_PROFIT := "Adjusted Profit"

  /** Table column of a year: 2020 to 2025 are columns 2 to 7; any other year falls back to column 2. */
  function YearColumnPosition(year: string): (col: nat)
    ensures 2 <= col <= 7
  {
    if year == "2020" then 2
    else if year == "2021" then 3
    else if year == "2022" then 4
    else if year == "2023" then 5
    else if year == "2024" then 6
    else if year == "2025" then 7
    else 2
  }

  /** The year shown in a column, the inverse of the mapping on 2020..2025. */
  function ColumnYear(col: nat): string
    requires 2 <= col <= 7
  {
    if col == 2 then "2020"
    else if col == 3 then "2021"
    else if col == 4 then "2022"
    else if col == 5 then "2023"
    else if col == 6 then "2024"
    else "2025"
  }

  /** Every column from 2 to 7 belongs to exactly one known year. */
  lemma YearColumnRoundTrip(col: nat)
    requires 2 <= col <= 7
    ensures YearColumnPosition(ColumnYear(col)) == col
  {
  }

  /** An unknown year reads the 2020 column. */
  lemma UnknownYearReadsColumnOf2020(year: string)
    requires forall col :: 2 <= col <= 7 ==> year != ColumnYear(col)
    ensures YearColumnPosition(year) == YearColumnPosition("2020")
  {
    assert year != ColumnYear(2) && year != ColumnYear(3) && year != ColumnYear(4);
    assert year != ColumnYear(5) && year != ColumnYear(6) && year != ColumnYear(7);
  }

  /** The hard-coded figures behind the page-source fallback, for 2021 to 2023. */
  const DEMO_2023: map<string, int> := map[
    GROSS_PROFIT := 10662902, NET_PROFIT := 4744810, NET_ADDITIONS := 3084126,
    EXPENSES := 9002218, ADD_BACKS := 948962, ADJUSTED_PROFIT := 5693772]
  const DEMO_2022: map<string, int> := map[
    GROSS_PROFIT := 9670653, NET_PROFIT := 3268681, NET_ADDITIONS := 2124642,
    EXPENSES := 8526615, ADD_BACKS := 653736, ADJUSTED_PROFIT := 3922417]
  const DEMO_2021: map<string, int> := map[
    GROSS_PROFIT := 9261478, NET_PROFIT := 3908344, NET_ADDITIONS := 2540423,
    EXPENSES := 7893557, ADD_BACKS := 781669, ADJUSTED_PROFIT := 4690012]

  const DEMO_DATA: map<string, map<string, int>> := map["2023" := DEMO_2023, "2022" := DEMO_2022, "2021" := DEMO_2021]

  /** `extract_value_from_page_source`: the demonstration figure, None outside its table. */
  function ExtractValueFromPageSource(row: string, year: string): (r: Option<int>)
    ensures year !in {"2021", "2022", "2023"} ==> r.None?
    ensures r.Some? <==> year in DEMO_DATA && row in DEMO_DATA[year]
  {
    if year in DEMO_DATA && row in DEMO_DATA[year] then Some(DEMO_DATA[year][row]) else None
  }

  /** The figures read from the page for one year: row name to value; a missing row could not be read. */
  type Figures = map<string, real>

  /** `calculate_expenses_using_formula`: (expenses, gross profit, net profit, net additions), or None when an input is missing. */
  function CalculateExpenses(f: Figures): (r: Option<(real, real, real, real)>)
    ensures r.Some? <==> GROSS_PROFIT in f && NET_PROFIT in f && NET_ADDITIONS in f
    ensures r.Some? ==> r.value.0 == r.value.1 - r.value.2 + r.value.3
    ensures r.Some? ==> r.value.1 == f[GROSS_PROFIT] && r.value.2 == f[NET_PROFIT] && r.value.3 == f[NET_ADDITIONS]
  {
    if GROSS_PROFIT in f && NET_PROFIT in f && NET_ADDITIONS in f then
      Some((f[GROSS_PROFIT] - f[NET_PROFIT] + f[NET_ADDITIONS], f[GROSS_PROFIT], f[NET_PROFIT], f[NET_ADDITIONS]))
    else None
  }

  /** `calculate_adjusted_profit_using_formula`: (adjusted profit, net profit, add backs), or None when an input is missing. */
  function CalculateAdjustedProfit(f: Figures): (r: Option<(real, real, real)>)
    ensures r.Some? <==> NET_PROFIT in f && ADD_BACKS in f
    ensures r.Some? ==> r.value.0 == r.value.1 + r.value.2 && r.value.1 == f[NET_PROFIT] && r.value.2 == f[ADD_BACKS]
  {
    if NET_PROFIT in f && ADD_BACKS in f then Some((f[NET_PROFIT] + f[ADD_BACKS], f[NET_PROFIT], f[ADD_BACKS]))
    else None
  }

  /**
   * The 1% check: `|calculated - actual| / actual * 100 <= 1`, with the
   * difference taken as 0 when `actual` is 0. The divisor is `actual`
   * itself, not its absolute value.
   */
  predicate WithinOnePercent(calculated: real, actual: real) {
    (if actual != 0.0 then Abs(calculated - actual) / actual * 100.0 else 0.0) <= 1.0
  }

  /** Scaling by a positive factor keeps an order. */
  lemma ScalePositive(x: real, y: real, k: real)
    requires k > 0.0
    ensures x <= y <==> x * k <= y * k
  {
  }

  /** A ratio to a positive base is at most 1% exactly when the numerator is at most 1% of the base. */
  lemma RatioBound(d: real, base: real)
    requires base > 0.0
    ensures d / base * 100.0 <= 1.0 <==> d * 100.0 <= base
  {
    var q := d / base;
    assert q * base == d;
    ScalePositive(q * 100.0, 1.0, base);
    assert q * 100.0 * base == d * 100.0;
  }

  /** Dividing a non-negative number by a negative one gives at most 0. */
  lemma RatioNonPositive(d: real, base: real)
    requires d >= 0.0 && base < 0.0
    ensures d / base * 100.0 <= 0.0
  {
    var q := d / base;
    assert q * base == d;
  }

  /** For a positive actual the check is a 1% band around it; a zero or negative actual always passes. */
  lemma WithinOnePercentMeaning(calculated: real, actual: real)
    ensures actual > 0.0 ==> (WithinOnePercent(calculated, actual) <==> Abs(calculated - actual) * 100.0 <= actual)
    ensures actual <= 0.0 ==> WithinOnePercent(calculated, actual)
  {
    if actual > 0.0 {
      RatioBound(Abs(calculated - actual), actual);
    } else if actual < 0.0 {
      RatioNonPositive(Abs(calculated - actual), actual);
    }
  }

  /** `validate_calculated_expenses`: False when an input or the shown expenses are missing. */
  function ValidateExpenses(f: Figures): (ok: bool)
    ensures ok ==> EXPENSES in f && CalculateExpenses(f).Some?
    ensures GROSS_PROFIT in f && NET_PROFIT in f && NET_ADDITIONS in f && EXPENSES in f && f[EXPENSES] > 0.0 ==>
      (ok <==> Abs(f[GROSS_PROFIT] - f[NET_PROFIT] + f[NET_ADDITIONS] - f[EXPENSES]) * 100.0 <= f[EXPENSES])
    ensures GROSS_PROFIT in f && NET_PROFIT in f && NET_ADDITIONS in f && EXPENSES in f && f[EXPENSES] <= 0.0 ==> ok
  {
    match CalculateExpenses(f)
    case None => false
    case Some(t) =>
      if EXPENSES in f then
        WithinOnePercentMeaning(t.0, f[EXPENSES]);
        WithinOnePercent(t.0, f[EXPENSES])
      else false
  }

  /** `validate_calculated_adjusted_profit`: False when an input or the shown adjusted profit are missing. */
  function ValidateAdjustedProfit(f: Figures): (ok: bool)
    ensures ok ==> ADJUSTED_PROFIT in f && CalculateAdjustedProfit(f).Some?
    ensures NET_PROFIT in f && ADD_BACKS in f && ADJUSTED_PROFIT in f && f[ADJUSTED_PROFIT] > 0.0 ==>
      (ok <==> Abs(f[NET_PROFIT] + f[ADD_BACKS] - f[ADJUSTED_PROFIT]) * 100.0 <= f[ADJUSTED_PROFIT])
    ensures NET_PROFIT in f && ADD_BACKS in f && ADJUSTED_PROFIT in f && f[ADJUSTED_PROFIT] <= 0.0 ==> ok
  {
    match CalculateAdjustedProfit(f)
    case None => false
    case Some(t) =>
      if ADJUSTED_PROFIT in f then
        WithinOnePercentMeaning(t.0, f[ADJUSTED_PROFIT]);
        WithinOnePercent(t.0, f[ADJUSTED_PROFIT])
      else false
  }

  /** The six figures the combined check needs. */
  predicate HasAllSix(f: Figures) {
    GROSS_PROFIT in f && NET_PROFIT in f && NET_ADDITIONS in f && EXPENSES in f && ADD_BACKS in f && ADJUSTED_PROFIT in f
  }

  /**
   * Both figures lie within 1% of the shown ones, a shown figure of zero or
   * below passing unconditionally: the promise of the two checks, stated
   * directly on the six figures.
   */
  predicate BothWithinBand(f: Figures)
    requires HasAllSix(f)
  {
    (f[EXPENSES] <= 0.0 ||
     Abs(f[GROSS_PROFIT] - f[NET_PROFIT] + f[NET_ADDITIONS] - f[EXPENSES]) * 100.0 <= f[EXPENSES]) &&
    (f[ADJUSTED_PROFIT] <= 0.0 ||
     Abs(f[NET_PROFIT] + f[ADD_BACKS] - f[ADJUSTED_PROFIT]) * 100.0 <= f[ADJUSTED_PROFIT])
  }

  /** `validate_both_financial_calculations`. */
  function ValidateBoth(f: Figures): (ok: bool)
    ensures ok ==> HasAllSix(f)
    ensures HasAllSix(f) && f[EXPENSES] > 0.0 && f[ADJUSTED_PROFIT] > 0.0 ==>
      (ok <==> Abs(f[GROSS_PROFIT] - f[NET_PROFIT] + f[NET_ADDITIONS] - f[EXPENSES]) * 100.0 <= f[EXPENSES] &&
               Abs(f[NET_PROFIT] + f[ADD_BACKS] - f[ADJUSTED_PROFIT]) * 100.0 <= f[ADJUSTED_PROFIT])
    ensures HasAllSix(f) ==> (ok <==> BothWithinBand(f))
  {
    ValidateExpenses(f) && ValidateAdjustedProfit(f)
  }

  /**
   * The arithmetic of `validate_financial_calculations_with_javascript` on
   * the extracted figures (None or empty: extraction failed).
   */
  function ValidateWithJavascript(extracted: Option<Figures>): (ok: bool)
    ensures ok ==> extracted.Some? && HasAllSix(extracted.value)
    ensures extracted.Some? && HasAllSix(extracted.value) ==> (ok <==> BothWithinBand(extracted.value))
  {
    match extracted
    case None => false
    case Some(f) =>
      if |f| == 0 || !HasAllSix(f) then false
      else
        var e := f[GROSS_PROFIT] - f[NET_PROFIT] + f[NET_ADDITIONS];
        var a := f[NET_PROFIT] + f[ADD_BACKS];
        WithinOnePercentMeaning(e, f[EXPENSES]);
        WithinOnePercentMeaning(a, f[ADJUSTED_PROFIT]);
        WithinOnePercent(e, f[EXPENSES]) && WithinOnePercent(a, f[ADJUSTED_PROFIT])
  }

  /** The one-pass check and the two separate checks agree on every set of figures. */
  lemma JavascriptAgreesWithBoth(f: Figures)
    ensures ValidateWithJavascript(Some(f)) == ValidateBoth(f)
  {
    if HasAllSix(f) {
      assert GROSS_PROFIT in f;
    }
  }

  /** The demonstration figures of a year, as the page checks read them. */
  function DemoFigures(year: string): (f: Figures)
    requires year in DEMO_DATA
  {
    map row | row in DEMO_DATA[year] :: DEMO_DATA[year][row] as real
  }

  /**
   * The demonstration figures pass both checks for every year. Only 2023 is
   * exact: 2022's expenses and 2021's adjusted profit are off by one.
   */
  lemma DemoFiguresPass()
    ensures ValidateBoth(DemoFigures("2023")) && ValidateBoth(DemoFigures("2022")) && ValidateBoth(DemoFigures("2021"))
    ensures DEMO_2023[GROSS_PROFIT] - DEMO_2023[NET_PROFIT] + DEMO_2023[NET_ADDITIONS] == DEMO_2023[EXPENSES]
    ensures DEMO_2023[NET_PROFIT] + DEMO_2023[ADD_BACKS] == DEMO_2023[ADJUSTED_PROFIT]
    ensures DEMO_2022[GROSS_PROFIT] - DEMO_2022[NET_PROFIT] + DEMO_2022[NET_ADDITIONS] == DEMO_2022[EXPENSES] - 1
    ensures DEMO_2021[NET_PROFIT] + DEMO_2021[ADD_BACKS] == DEMO_2021[ADJUSTED_PROFIT] + 1
  {
    WithinOnePercentMeaning(8526614.0, 8526615.0);
    WithinOnePercentMeaning(4690013.0, 4690012.0);
  }

  /** A value on a page: a number, a string, or nothing. */
  datatype FieldValue = Num(n: real) | Str(s: string) | NoValue

  /** The field-name table: a key containing the base name relates to a key containing any of the related names. */
  const FIELD_RELATIONS: seq<(string, seq<string>)> := [
    ("revenue", ["gross_profit", "total_revenue", "sales"]),
    ("fi_new", ["finance_insurance", "f_i"]),
    ("pvr", ["per_vehicle_retail", "vehicle_retail"]),
    ("days_to_turn", ["inventory_turn", "turn_days"]),
    ("google_rank", ["ranking", "search_rank"]),
    ("website_rating", ["rating", "web_rating"])]

  predicate MentionsAny(key: string, names: seq<string>) {
    exists i :: 0 <= i < |names| && Contains(key, names[i])
  }

  /** Lower-cased keys related by some row of the table, in the given order. */
  predicate KeysRelatedOneWay(k1: string, k2: string) {
    exists i :: 0 <= i < |FIELD_RELATIONS| && Contains(k1, FIELD_RELATIONS[i].0) && MentionsAny(k2, FIELD_RELATIONS[i].1)
  }

  /** The table is tried in both orders. */
  predicate KeysRelated(key1: string, key2: string) {
    var k1, k2 := Lower(key1), Lower(key2);
    KeysRelatedOneWay(k1, k2) || KeysRelatedOneWay(k2, k1)
  }

  /** Numbers within 1% of the first one (when it is not zero). */
  predicate NumbersClose(v1: FieldValue, v2: FieldValue) {
    v1.Num? && v2.Num? && v1.n != 0.0 && Abs(v1.n - v2.n) / Abs(v1.n) * 100.0 <= 1.0
  }

  /** `values_are_related`: equal values, close numbers, or related field names. */
  predicate ValuesAreRelated(key1: string, key2: string, v1: FieldValue, v2: FieldValue) {
    v1 == v2 || NumbersClose(v1, v2) || KeysRelated(key1, key2)
  }

  /** Swapping the keys leaves the field-name part unchanged. */
  lemma KeysRelatedSymmetric(key1: string, key2: string)
    ensures KeysRelated(key1, key2) == KeysRelated(key2, key1)
  {
  }

  /** Equal values are related whatever the keys; related names relate any values. */
  lemma RelatedBasics(key1: string, key2: string, v1: FieldValue, v2: FieldValue)
    ensures ValuesAreRelated(key1, key2, v1, v1)
    ensures KeysRelated(key1, key2) ==> ValuesAreRelated(key1, key2, v1, v2) && ValuesAreRelated(key2, key1, v2, v1)
  {
    KeysRelatedSymmetric(key1, key2);
  }

  /** "revenue" on one page relates to "gross_profit" on the other, in either order. */
  lemma RevenueRelatesToGrossProfit()
    ensures KeysRelated("revenue", "gross_profit") && KeysRelated("gross_profit", "revenue")
  {
    assert Lower("revenue") == "revenue";
    assert Lower("gross_profit") == "gross_profit";
    ContainsAt("revenue", "revenue", 0);
    ContainsAt("gross_profit", "gross_profit", 0);
    assert FIELD_RELATIONS[0].1[0] == "gross_profit";
    assert MentionsAny("gross_profit", FIELD_RELATIONS[0].1);
    assert KeysRelatedOneWay("revenue", "gross_profit");
  }

  /** The numeric tolerance is relative to the first value, so it is not symmetric: 100 vs 99 is close, 99 vs 100 is not. */
  lemma NumbersCloseIsAsymmetric()
    ensures NumbersClose(Num(100.0), Num(99.0))
    ensures !NumbersClose(Num(99.0), Num(100.0))
  {
  }

  /** A pair reported by the radius cross-check. */
  datatype Match = Match(radiusField: string, comparisonField: string, radiusValue: FieldValue,
                         comparisonValue: FieldValue, exact: bool)

  /** The matches of one radius entry against the comparison entries, in order. */
  function MatchesFor(r: (string, FieldValue), cs: seq<(string, FieldValue)>): (ms: seq<Match>)
    ensures |ms| <= |cs|
  {
    if cs == [] then []
    else
      var c := cs[|cs| - 1];
      MatchesFor(r, cs[..|cs| - 1]) +
        (if ValuesAreRelated(r.0, c.0, r.1, c.1) then [Match(r.0, c.0, r.1, c.1, r.1 == c.1)] else [])
  }

  /** All matches: each radius entry in order, against each comparison entry in order. */
  function Matches(rs: seq<(string, FieldValue)>, cs: seq<(string, FieldValue)>): (ms: seq<Match>)
    ensures |ms| <= |rs| * |cs|
  {
    if rs == [] then [] else Matches(rs[..|rs| - 1], cs) + MatchesFor(rs[|rs| - 1], cs)
  }

  lemma {:induction false} MatchesForNonEmpty(r: (string, FieldValue), cs: seq<(string, FieldValue)>)
    ensures |MatchesFor(r, cs)| > 0 <==> exists j :: 0 <= j < |cs| && ValuesAreRelated(r.0, cs[j].0, r.1, cs[j].1)
  {
    if cs != [] {
      var init := cs[..|cs| - 1];
      MatchesForNonEmpty(r, init);
      assert forall j :: 0 <= j < |init| ==> init[j] == cs[j];
    }
  }

  /** There is a match exactly when some radius entry and some comparison entry are related. */
  lemma {:induction false} MatchesNonEmpty(rs: seq<(string, FieldValue)>, cs: seq<(string, FieldValue)>)
    ensures |Matches(rs, cs)| > 0 <==>
      exists i, j :: 0 <= i < |rs| && 0 <= j < |cs| && ValuesAreRelated(rs[i].0, cs[j].0, rs[i].1, cs[j].1)
  {
    if rs != [] {
      var init := rs[..|rs| - 1];
      MatchesNonEmpty(init, cs);
      MatchesForNonEmpty(rs[|rs| - 1], cs);
      assert forall i :: 0 <= i < |init| ==> init[i] == rs[i];
    }
  }

  /** Every reported match relates its two values, and is marked exact iff they are equal. */
  lemma {:induction false} MatchesAreRelated(rs: seq<(string, FieldValue)>, cs: seq<(string, FieldValue)>)
    ensures forall m :: m in Matches(rs, cs) ==>
      ValuesAreRelated(m.radiusField, m.comparisonField, m.radiusValue, m.comparisonValue) &&
      (m.exact <==> m.radiusValue == m.comparisonValue)
  {
    if rs != [] {
      MatchesAreRelated(rs[..|rs| - 1], cs);
      MatchesForRelated(rs[|rs| - 1], cs);
    }
  }

  lemma {:induction false} MatchesForRelated(r: (string, FieldValue), cs: seq<(string, FieldValue)>)
    ensures forall m :: m in MatchesFor(r, cs) ==>
      ValuesAreRelated(m.radiusField, m.comparisonField, m.radiusValue, m.comparisonValue) &&
      (m.exact <==> m.radiusValue == m.comparisonValue)
  {
    if cs != [] {
      MatchesForRelated(r, cs[..|cs| - 1]);
    }
  }

  /**
   * `validate_radius_data_against_other_pages`. `dealerData` is the stored
   * radius dealer data (None: nothing stored); `comparison` the other page's
   * data (None: not provided). Both must be non-empty; the check passes iff
   * some pair of entries is related.
   */
  method ValidateRadius(dealerData: Option<seq<(string, FieldValue)>>, comparison: Option<seq<(string, FieldValue)>>)
    returns (ok: bool, matches: seq<Match>)
    ensures dealerData.None? || dealerData.value == [] || comparison.None? || comparison.value == [] ==>
      !ok && matches == []
    ensures dealerData.Some? && dealerData.value != [] && comparison.Some? && comparison.value != [] ==>
      matches == Matches(dealerData.value, comparison.value) && ok == (|matches| > 0)
  {
    matches := [];
    if dealerData.None? || dealerData.value == [] || comparison.None? || comparison.value == [] {
      return false, [];
    }
    var rs, cs := dealerData.value, comparison.value;
    for i := 0 to |rs|
      invariant matches == Matches(rs[..i], cs)
    {
      assert rs[..i + 1][..i] == rs[..i];
      for j := 0 to |cs|
        invariant matches == Matches(rs[..i], cs) + MatchesFor(rs[i], cs[..j])
      {
        assert cs[..j + 1][..j] == cs[..j];
        if ValuesAreRelated(rs[i].0, cs[j].0, rs[i].1, cs[j].1) {
          matches := matches + [Match(rs[i].0, cs[j].0, rs[i].1, cs[j].1, rs[i].1 == cs[j].1)];
        }
      }
      assert cs[..|cs|] == cs;
    }
    assert rs[..|rs|] == rs;
    ok := |matches| > 0;
  }
}
