/**
 * The pass/fail rules of the Portfolio page checks: the share of clickable
 * text boxes on the builder form, the tooltip figures against the stored
 * sales history, the F&I / PVR / suggested-radius comparison with the
 * radius page, the zoom controls of both maps and the min/max revenue
 * fields. Every browser call is replaced by its observed outcome; the
 * loops that gather those outcomes into counters and flags are methods
 * proved against the functions that say what the counters mean.
 */
module Portfolio {
  import opened Wrappers
  import opened Text

  // ---------------------------------------------------------------------
  // Text boxes on the builder form
  // ---------------------------------------------------------------------

  /**
   * What the browser reports for one element a selector matched.
   * `displayed` is None when `is_displayed()` raised; `infoOk` is false when
   * reading its tag or attributes raised; `enabled` is None when
   * `is_enabled()` raised; `clickOk` says whether `click()` went through.
   */
  datatype Probe = Probe(displayed: Option<bool>, infoOk: bool, enabled: Option<bool>, clickOk: bool)

  /** The two counters of the text-box check. */
  datatype Count = Count(total: nat, clickable: nat)

  predicate Clickable(p: Probe) { p.enabled == Some(true) && p.clickOk }

  /**
   * What one selector adds to the counters. An exception while inspecting an
   * element ends that selector's loop: from `is_displayed()` before anything
   * is counted, from the attribute reads after `total` was counted.
   */
  function SelectorTally(ps: seq<Probe>): (c: Count)
    ensures c.clickable <= c.total <= |ps|
    decreases |ps|
  {
    if ps == [] then Count(0, 0)
    else match ps[0].displayed
      case None => Count(0, 0)
      case Some(false) => SelectorTally(ps[1..])
      case Some(true) =>
        if !ps[0].infoOk then Count(1, 0)
        else
          var rest := SelectorTally(ps[1..]);
          Count(rest.total + 1, rest.clickable + if Clickable(ps[0]) then 1 else 0)
  }

  /** The counters after all selectors; None is a selector whose `find_elements` raised. */
  function Tally(sels: seq<Option<seq<Probe>>>): (c: Count)
    ensures c.clickable <= c.total
  {
    if sels == [] then Count(0, 0)
    else
      var init := Tally(sels[..|sels| - 1]);
      var last := match sels[|sels| - 1] case None => Count(0, 0) case Some(ps) => SelectorTally(ps);
      Count(init.total + last.total, init.clickable + last.clickable)
  }

  /** The final rule: something was found and at least half of it is clickable. */
  predicate TextboxesPass(c: Count) {
    c.total > 0 && c.clickable as real >= c.total as real * 0.5
  }

  /** The counting loops of the text-box check. */
  method CountTextboxes(sels: seq<Option<seq<Probe>>>) returns (total: nat, clickable: nat)
    ensures Count(total, clickable) == Tally(sels)
    ensures clickable <= total
  {
    total, clickable := 0, 0;
    for i := 0 to |sels|
      invariant Count(total, clickable) == Tally(sels[..i])
    {
      assert sels[..i + 1][..i] == sels[..i];
      if sels[i].Some? {
        var ps := sels[i].value;
        ghost var t0, c0 := total, clickable;
        var j := 0;
        while j < |ps|
          invariant 0 <= j <= |ps|
          invariant total + SelectorTally(ps[j..]).total == t0 + SelectorTally(ps).total
          invariant clickable + SelectorTally(ps[j..]).clickable == c0 + SelectorTally(ps).clickable
        {
          assert ps[j..][1..] == ps[j + 1..];
          var p := ps[j];
          if p.displayed.None? {
            break;
          }
          if p.displayed == Some(true) {
            total := total + 1;
            if !p.infoOk {
              break;
            }
            if Clickable(p) {
              clickable := clickable + 1;
            }
          }
          j := j + 1;
        }
      }
    }
    assert sels[..|sels|] == sels;
  }

  /** The threshold in whole numbers: clickable boxes make up at least half of the total. */
  lemma TextboxesPassMeaning(c: Count)
    ensures TextboxesPass(c) <==> c.total > 0 && 2 * c.clickable >= c.total
  {
  }

  /** No element of the selector is displayed (or `is_displayed()` raised). */
  predicate ShowsNothing(ps: seq<Probe>) { forall k :: 0 <= k < |ps| ==> ps[k].displayed != Some(true) }

  /** No browser call raises, and every displayed element takes the click. */
  predicate AllWork(ps: seq<Probe>)
  {
    forall k :: 0 <= k < |ps| ==> ps[k].displayed.Some? && ps[k].infoOk && (ps[k].displayed == Some(true) ==> Clickable(ps[k]))
  }

  lemma {:induction false} SelectorTallyNoneDisplayed(ps: seq<Probe>)
    requires ShowsNothing(ps)
    ensures SelectorTally(ps).total == 0
    decreases |ps|
  {
    if ps != [] && ps[0].displayed == Some(false) {
      SelectorTallyNoneDisplayed(ps[1..]);
    }
  }

  /** When no element is displayed (or every check raised) the text-box check fails. */
  lemma {:induction false} NothingDisplayedFails(sels: seq<Option<seq<Probe>>>)
    requires forall i :: 0 <= i < |sels| && sels[i].Some? ==> ShowsNothing(sels[i].value)
    ensures Tally(sels).total == 0
    ensures !TextboxesPass(Tally(sels))
  {
    if sels != [] {
      NothingDisplayedFails(sels[..|sels| - 1]);
      if sels[|sels| - 1].Some? {
        SelectorTallyNoneDisplayed(sels[|sels| - 1].value);
      }
    }
  }

  lemma {:induction false} SelectorTallyAllClickable(ps: seq<Probe>)
    requires AllWork(ps)
    ensures SelectorTally(ps).clickable == SelectorTally(ps).total
    decreases |ps|
  {
    if ps != [] {
      SelectorTallyAllClickable(ps[1..]);
    }
  }

  /**
   * When no browser call raises and every displayed box takes the click, all
   * counted boxes are clickable and the check passes as soon as one is shown.
   */
  lemma {:induction false} AllClickablePasses(sels: seq<Option<seq<Probe>>>)
    requires forall i :: 0 <= i < |sels| && sels[i].Some? ==> AllWork(sels[i].value)
    ensures Tally(sels).clickable == Tally(sels).total
    ensures TextboxesPass(Tally(sels)) <==> Tally(sels).total > 0
  {
    if sels != [] {
      AllClickablePasses(sels[..|sels| - 1]);
      if sels[|sels| - 1].Some? {
        SelectorTallyAllClickable(sels[|sels| - 1].value);
      }
    }
  }

  // ---------------------------------------------------------------------
  // Expected tooltip figures from the stored sales history
  // ---------------------------------------------------------------------

  /**
   * The stored "sales_data" entry: monthly new, used and total vehicle
   * sales, oldest first; a list is None when its key is absent.
   */
  datatype SalesData = SalesData(
    newSales: Option<seq<real>>,
    usedSales: Option<seq<real>>,
    totalVehicles: Option<seq<real>>)

  function Sum(s: seq<real>): real
  {
    if s == [] then 0.0 else Sum(s[..|s| - 1]) + s[|s| - 1]
  }

  lemma SumThree(w: seq<real>)
    requires |w| == 3
    ensures Sum(w) == w[0] + w[1] + w[2]
  {
    var a, b := w[..1], w[..2];
    assert a[..0] == [];
    assert Sum(a) == w[0];
    assert b[..1] == a;
    assert Sum(b) == w[0] + w[1];
    assert w[..2] == b;
  }

  /** Python's `v[-3:]`: the last three values, or all of them when there are fewer. */
  function LastThree(v: seq<real>): (r: seq<real>)
    ensures |r| == if |v| >= 3 then 3 else |v|
    ensures r == v[|v| - |r|..]
  {
    if |v| >= 3 then v[|v| - 3..] else v
  }

  /** `sum(v[-3:]) if len(v) >= 3 else sum(v)`: the total of the last up-to-three months. */
  function RecentTotal(v: seq<real>): (r: real)
    ensures r == Sum(LastThree(v))
    ensures |v| >= 3 ==> r == v[|v| - 3] + v[|v| - 2] + v[|v| - 1]
  {
    if |v| >= 3 then
      var w := v[|v| - 3..];
      SumThree(w);
      Sum(w)
    else Sum(v)
  }

  /** `sum(v[-3:]) / min(3, len(v))`: the mean of the last up-to-three months. */
  function RecentAverage(v: seq<real>): (r: real)
    requires |v| > 0
    ensures r * |LastThree(v)| as real == Sum(LastThree(v))
  {
    Sum(LastThree(v)) / (if |v| < 3 then |v| else 3) as real
  }

  /**
   * `calculate_expected_new_used_ratio` on the stored history (`stored` is
   * None when there is no "sales_data" entry): the recent new-sales mean
   * over the recent used-sales mean, None when a list is absent or empty or
   * the used mean is not positive.
   */
  function ExpectedNewUsedRatio(useStored: bool, stored: Option<SalesData>): (r: Option<real>)
    ensures r.Some? ==> useStored && stored.Some?
    ensures r.Some? ==> stored.value.newSales.Some? && stored.value.newSales.value != []
    ensures r.Some? ==> stored.value.usedSales.Some? && stored.value.usedSales.value != []
    ensures r.Some? ==> RecentAverage(stored.value.usedSales.value) > 0.0
    ensures r.Some? ==>
      r.value * RecentAverage(stored.value.usedSales.value) == RecentAverage(stored.value.newSales.value)
  {
    if !useStored || stored.None? then None
    else match (stored.value.newSales, stored.value.usedSales)
      case (Some(n), Some(u)) =>
        if |n| > 0 && |u| > 0 then
          var recentNew, recentUsed := RecentAverage(n), RecentAverage(u);
          if recentUsed > 0.0 then Some(recentNew / recentUsed) else None
        else None
      case _ => None
  }

  /** The ratio is there exactly when both lists are non-empty and recent used sales are positive. */
  lemma RatioAvailable(n: seq<real>, u: seq<real>, t: Option<seq<real>>)
    ensures ExpectedNewUsedRatio(true, Some(SalesData(Some(n), Some(u), t))).Some?
      <==> n != [] && u != [] && RecentAverage(u) > 0.0
  {
  }

  /**
   * `calculate_expected_vehicles_sold`: the recent new plus the recent used
   * sales when both lists are stored, else the recent total sales when that
   * list is stored, else None.
   */
  function ExpectedVehiclesSold(useStored: bool, stored: Option<SalesData>): (r: Option<real>)
    ensures r.Some?
      <==> useStored && stored.Some? &&
           ((stored.value.newSales.Some? && stored.value.usedSales.Some?) || stored.value.totalVehicles.Some?)
    ensures useStored && stored.Some? && stored.value.newSales.Some? && stored.value.usedSales.Some? ==>
      r == Some(Sum(LastThree(stored.value.newSales.value)) + Sum(LastThree(stored.value.usedSales.value)))
    ensures useStored && stored.Some? && (stored.value.newSales.None? || stored.value.usedSales.None?) ==>
      r == if stored.value.totalVehicles.Some? then Some(Sum(LastThree(stored.value.totalVehicles.value))) else None
  {
    if !useStored || stored.None? then None
    else match (stored.value.newSales, stored.value.usedSales)
      case (Some(n), Some(u)) => Some(RecentTotal(n) + RecentTotal(u))
      case _ =>
        match stored.value.totalVehicles
        case Some(t) => Some(RecentTotal(t))
        case None => None
  }

  lemma LastThreeOfAppend(older: seq<real>, v: seq<real>)
    requires |v| >= 3
    ensures LastThree(older + v) == LastThree(v)
  {
    assert (older + v)[|older + v| - 3..] == v[|v| - 3..];
  }

  /** Months before the last three do not change the expected vehicles sold. */
  lemma OnlyLastThreeMonthsCountForVehicles(older: seq<real>, n: seq<real>, u: seq<real>, t: Option<seq<real>>)
    requires |n| >= 3 && |u| >= 3
    ensures ExpectedVehiclesSold(true, Some(SalesData(Some(older + n), Some(older + u), t))) ==
      ExpectedVehiclesSold(true, Some(SalesData(Some(n), Some(u), t)))
  {
    LastThreeOfAppend(older, n);
    LastThreeOfAppend(older, u);
    assert RecentTotal(older + n) + RecentTotal(older + u) == RecentTotal(n) + RecentTotal(u);
  }

  /** Months before the last three do not change the expected New/Used ratio. */
  lemma OnlyLastThreeMonthsCountForRatio(older: seq<real>, n: seq<real>, u: seq<real>, t: Option<seq<real>>)
    requires |n| >= 3 && |u| >= 3
    ensures ExpectedNewUsedRatio(true, Some(SalesData(Some(older + n), Some(older + u), t))) ==
      ExpectedNewUsedRatio(true, Some(SalesData(Some(n), Some(u), t)))
  {
    LastThreeOfAppend(older, n);
    LastThreeOfAppend(older, u);
    assert RecentAverage(older + n) == RecentAverage(n);
    assert RecentAverage(older + u) == RecentAverage(u);
  }

  /** The top-level names that the module `base.base_test` defines. */
  const BASE_TEST_MODULE_NAMES: set<string> := {
    "pytest", "time", "os", "sys", "yaml", "datetime",
    "ELEMENT_WAIT_TIMEOUT", "PAGE_LOAD_TIMEOUT", "IMPLICIT_WAIT",
    "DEFAULT_CONFIG", "OptimizedBaseTest"}

  /**
   * The stored history as the calculators reach it: they first run
   * `from base.base_test import BaseTest`, and when that name is missing the
   * ImportError is swallowed exactly as a missing "sales_data" entry.
   */
  function ImportedSalesData(stored: Option<SalesData>): (r: Option<SalesData>)
    ensures r.Some? ==> r == stored
  {
    if "BaseTest" in BASE_TEST_MODULE_NAMES then stored else None
  }

  function ExpectedNewUsedRatioAsWritten(useStored: bool, stored: Option<SalesData>): (r: Option<real>)
    ensures r.Some? ==> r == ExpectedNewUsedRatio(useStored, stored)
  {
    ExpectedNewUsedRatio(useStored, ImportedSalesData(stored))
  }

  function ExpectedVehiclesSoldAsWritten(useStored: bool, stored: Option<SalesData>): (r: Option<real>)
    ensures r.Some? ==> r == ExpectedVehiclesSold(useStored, stored)
  {
    ExpectedVehiclesSold(useStored, ImportedSalesData(stored))
  }

  /** As written, whatever is stored, both calculators return None. */
  lemma CalculatorsAsWrittenReturnNone(useStored: bool, stored: Option<SalesData>)
    ensures ExpectedNewUsedRatioAsWritten(useStored, stored).None?
    ensures ExpectedVehiclesSoldAsWritten(useStored, stored).None?
  {
    assert "BaseTest" !in BASE_TEST_MODULE_NAMES by {
      assert "BaseTest"[0] == 'B';
    }
  }

  // ---------------------------------------------------------------------
  // Summaries: True iff at least one comparison passed
  // ---------------------------------------------------------------------

  /** The number of comparisons that passed (`v is True`). */
  function Passed(rs: seq<Option<bool>>): (n: nat)
    ensures n <= |rs|
  {
    if rs == [] then 0 else Passed(rs[..|rs| - 1]) + if rs[|rs| - 1] == Some(true) then 1 else 0
  }

  /** The number of comparisons that failed (`v is False`). */
  function Failed(rs: seq<Option<bool>>): (n: nat)
    ensures n <= |rs|
  {
    if rs == [] then 0 else Failed(rs[..|rs| - 1]) + if rs[|rs| - 1] == Some(false) then 1 else 0
  }

  /** The summary rule: all passed, or a partial success, or nothing passed. */
  predicate SummaryVerdict(rs: seq<Option<bool>>) {
    if Failed(rs) == 0 && Passed(rs) > 0 then true
    else if Passed(rs) > 0 then true
    else false
  }

  /** Failures never matter: the summary passes iff some comparison passed. */
  lemma {:induction false} SummaryVerdictMeaning(rs: seq<Option<bool>>)
    ensures SummaryVerdict(rs) <==> exists i :: 0 <= i < |rs| && rs[i] == Some(true)
  {
    if rs != [] {
      var init := rs[..|rs| - 1];
      SummaryVerdictMeaning(init);
      assert SummaryVerdict(init) <==> Passed(init) > 0;
      if Passed(init) > 0 {
        var i :| 0 <= i < |init| && init[i] == Some(true);
        assert rs[i] == Some(true);
      }
      if i :| 0 <= i < |rs| && rs[i] == Some(true) {
        if i < |rs| - 1 {
          assert init[i] == Some(true);
        }
      }
    }
  }

  lemma SummaryOfTwo(a: Option<bool>, b: Option<bool>)
    ensures SummaryVerdict([a, b]) <==> a == Some(true) || b == Some(true)
  {
    var rs := [a, b];
    SummaryVerdictMeaning(rs);
    if a == Some(true) { assert rs[0] == Some(true); }
    if b == Some(true) { assert rs[1] == Some(true); }
  }

  lemma SummaryOfThree(a: Option<bool>, b: Option<bool>, c: Option<bool>)
    ensures SummaryVerdict([a, b, c]) <==> a == Some(true) || b == Some(true) || c == Some(true)
  {
    var rs := [a, b, c];
    SummaryVerdictMeaning(rs);
    if a == Some(true) { assert rs[0] == Some(true); }
    if b == Some(true) { assert rs[1] == Some(true); }
    if c == Some(true) { assert rs[2] == Some(true); }
  }

  // ---------------------------------------------------------------------
  // Tooltip against the stored history
  // ---------------------------------------------------------------------

  /** The New/Used ratio shown in the tooltip is within 5% of the expected one; None when it cannot be compared. */
  function RatioCheck(tooltip: map<string, string>, expected: Option<real>): (r: Option<bool>)
    ensures r.Some? <==> "new_used_ratio" in tooltip && expected.Some?
    ensures r.Some? ==>
      (r.value <==> (ParseDecimal(tooltip["new_used_ratio"]).Some? &&
                     Abs(ParseDecimal(tooltip["new_used_ratio"]).value - expected.value) <= expected.value * 0.05))
  {
    if "new_used_ratio" in tooltip && expected.Some? then
      match ParseDecimal(tooltip["new_used_ratio"])
      case None => Some(false)
      case Some(shown) => Some(Abs(shown - expected.value) <= expected.value * 0.05)
    else None
  }

  /** The vehicles sold shown in the tooltip is within 0.1 of the expected count; None when it cannot be compared. */
  function VehiclesCheck(tooltip: map<string, string>, expected: Option<real>): (r: Option<bool>)
    ensures r.Some? <==> "vehicles_sold" in tooltip && expected.Some?
    ensures r.Some? ==>
      (r.value <==> (ParseDecimal(tooltip["vehicles_sold"]).Some? &&
                     Abs(ParseDecimal(tooltip["vehicles_sold"]).value - expected.value) <= 0.1))
  {
    if "vehicles_sold" in tooltip && expected.Some? then
      match ParseDecimal(tooltip["vehicles_sold"])
      case None => Some(false)
      case Some(shown) => Some(Abs(shown - expected.value) <= 0.1)
    else None
  }

  /** The verdict of `validate_tooltip_data_against_financials`, given the tooltip read by hovering (None when it could not be read). */
  predicate TooltipVerdict(tooltip: Option<map<string, string>>, expectedRatio: Option<real>, expectedVehicles: Option<real>)
  {
    if tooltip.None? || |tooltip.value| == 0 then false
    else SummaryVerdict([RatioCheck(tooltip.value, expectedRatio), VehiclesCheck(tooltip.value, expectedVehicles)])
  }

  /** The tooltip passes iff it was read and one of its two figures matches. */
  lemma TooltipVerdictMeaning(tooltip: Option<map<string, string>>, er: Option<real>, ev: Option<real>)
    ensures TooltipVerdict(tooltip, er, ev) <==>
      tooltip.Some? && (RatioCheck(tooltip.value, er) == Some(true) || VehiclesCheck(tooltip.value, ev) == Some(true))
    ensures er.None? && ev.None? ==> !TooltipVerdict(tooltip, er, ev)
  {
    if tooltip.Some? && |tooltip.value| > 0 {
      SummaryOfTwo(RatioCheck(tooltip.value, er), VehiclesCheck(tooltip.value, ev));
    }
  }

  /** A negative expected ratio makes the 5% band empty, so the ratio comparison can never pass. */
  lemma NegativeRatioNeverMatches(tooltip: map<string, string>, e: real)
    requires e < 0.0
    ensures RatioCheck(tooltip, Some(e)) != Some(true)
  {
  }

  /** The tooltip check with the stored history reaching the calculators. */
  predicate ValidateTooltip(tooltip: Option<map<string, string>>, useStored: bool, stored: Option<SalesData>)
  {
    TooltipVerdict(tooltip, ExpectedNewUsedRatio(useStored, stored), ExpectedVehiclesSold(useStored, stored))
  }

  /** The tooltip check as written, where both calculators fail to import the stored history. */
  predicate ValidateTooltipAsWritten(tooltip: Option<map<string, string>>, useStored: bool, stored: Option<SalesData>)
  {
    TooltipVerdict(tooltip, ExpectedNewUsedRatioAsWritten(useStored, stored), ExpectedVehiclesSoldAsWritten(useStored, stored))
  }

  /** As written, the tooltip check fails for every tooltip and every stored history. */
  lemma TooltipAsWrittenNeverPasses(tooltip: Option<map<string, string>>, useStored: bool, stored: Option<SalesData>)
    ensures !ValidateTooltipAsWritten(tooltip, useStored, stored)
  {
    CalculatorsAsWrittenReturnNone(useStored, stored);
    TooltipVerdictMeaning(tooltip, ExpectedNewUsedRatioAsWritten(useStored, stored),
      ExpectedVehiclesSoldAsWritten(useStored, stored));
  }

  /**
   * With the history reaching the calculators, a tooltip showing the exact
   * recent total passes: e.g. three months of 20 new and 10 used sales
   * against a tooltip reading 90 vehicles sold.
   */
  lemma TooltipMatchingHistoryPasses(n: nat, u: nat, older: seq<real>)
    ensures ValidateTooltip(
      Some(map["vehicles_sold" := NatToString(3 * n + 3 * u)]), true,
      Some(SalesData(Some(older + [n as real, n as real, n as real]), Some(older + [u as real, u as real, u as real]), None)))
  {
    var newSales, usedSales := older + [n as real, n as real, n as real], older + [u as real, u as real, u as real];
    var stored := Some(SalesData(Some(newSales), Some(usedSales), None));
    var tooltip := map["vehicles_sold" := NatToString(3 * n + 3 * u)];
    ParseDecimalOfNat(3 * n + 3 * u);
    assert RecentTotal(newSales) == 3.0 * n as real;
    assert RecentTotal(usedSales) == 3.0 * u as real;
    assert VehiclesCheck(tooltip, ExpectedVehiclesSold(true, stored)) == Some(true);
    TooltipVerdictMeaning(Some(tooltip), ExpectedNewUsedRatio(true, stored), ExpectedVehiclesSold(true, stored));
  }

  // ---------------------------------------------------------------------
  // F&I, PVR and suggested radius against the radius page
  // ---------------------------------------------------------------------

  /** `_clean_numeric_value`: drop ',', '$' and '%', trim, parse; None for an empty or unparsable value. */
  function CleanNumericValue(s: string): (r: Option<real>)
    ensures s == "" ==> r.None?
    ensures r.Some? ==> Strip(Remove(Remove(Remove(s, ','), '$'), '%')) != []
  {
    if s == "" then None
    else ParseDecimal(Remove(Remove(Remove(s, ','), '$'), '%'))
  }

  /** A dollar amount such as "$1250" cleans to its number. */
  lemma CleanDollarAmount(n: nat)
    ensures CleanNumericValue("$" + NatToString(n)) == Some(n as real)
  {
    var d := NatToString(n);
    RemoveAbsent(d, ',');
    RemoveAbsent(d, '$');
    RemoveAbsent(d, '%');
    RemoveAppend("$", d, ',');
    assert Remove("$", ',') == "$";
    RemoveAppend("$", d, '$');
    assert Remove("$", '$') == "";
    assert "" + d == d;
    ParseDecimalOfNat(n);
  }

  /** A percentage such as "12%" cleans to its number. */
  lemma CleanPercentage(n: nat)
    ensures CleanNumericValue(NatToString(n) + "%") == Some(n as real)
  {
    var d := NatToString(n);
    RemoveAbsent(d, ',');
    RemoveAbsent(d, '$');
    RemoveAbsent(d, '%');
    RemoveAppend(d, "%", ',');
    assert Remove("%", ',') == "%";
    RemoveAppend(d, "%", '$');
    assert Remove("%", '$') == "%";
    RemoveAppend(d, "%", '%');
    assert Remove("%", '%') == "";
    assert d + "" == d;
    ParseDecimalOfNat(n);
  }

  /** `d.get(key)` is truthy: the key is there with a non-empty value. */
  predicate Truthy(d: map<string, string>, key: string) { key in d && d[key] != "" }

  /** F&I or PVR: the two cleaned numbers are within 0.01; None when a value is missing or does not parse. */
  function NumericCheck(portfolio: map<string, string>, radius: map<string, string>, key: string): (r: Option<bool>)
    ensures r.Some? ==> Truthy(portfolio, key) && Truthy(radius, key)
    ensures r.Some? ==> CleanNumericValue(portfolio[key]).Some? && CleanNumericValue(radius[key]).Some?
    ensures Truthy(portfolio, key) && Truthy(radius, key) && CleanNumericValue(portfolio[key]).Some? ==>
      (CleanNumericValue(radius[key]).Some? ==> r.Some?)
    ensures r.Some? ==> (r.value <==> Abs(CleanNumericValue(portfolio[key]).value - CleanNumericValue(radius[key]).value) <= 0.01)
  {
    if Truthy(portfolio, key) && Truthy(radius, key) then
      match (CleanNumericValue(portfolio[key]), CleanNumericValue(radius[key]))
      case (Some(a), Some(b)) => Some(Abs(a - b) <= 0.01)
      case _ => None
    else None
  }

  /**
   * Suggested radius: equal after lower-casing, or else both contain digits
   * and their first runs of digits are equal; None when a value is missing.
   */
  function RadiusCheck(portfolio: map<string, string>, radius: map<string, string>): (r: Option<bool>)
    ensures r.Some? <==> Truthy(portfolio, "suggested_radius") && Truthy(radius, "suggested_radius")
  {
    var key := "suggested_radius";
    if Truthy(portfolio, key) && Truthy(radius, key) then
      var a, b := Lower(portfolio[key]), Lower(radius[key]);
      if a == b then Some(true)
      else match (FirstDigitRun(a), FirstDigitRun(b))
        case (Some(x), Some(y)) => Some(x == y)
        case _ => Some(false)
    else None
  }

  /** A radius reading "<n><unit>" lower-cases to the digits of `n` before the lower-cased unit, and its first digit run is `n`. */
  lemma RadiusReading(n: nat, unit: string)
    requires unit == [] || !IsDigit(unit[0])
    ensures Lower(NatToString(n) + unit) == NatToString(n) + Lower(unit)
    ensures FirstDigitRun(Lower(NatToString(n) + unit)) == Some(NatToString(n))
  {
    LowerAppend(NatToString(n), unit);
    LowerDigits(NatToString(n));
    FirstDigitRunOfNumber(n, Lower(unit));
  }

  /** The same distance in miles passes whatever the unit is written as, e.g. "25 Miles" against "25 mi". */
  lemma RadiusSameNumberPasses(n: nat, unit1: string, unit2: string)
    requires unit1 == [] || !IsDigit(unit1[0])
    requires unit2 == [] || !IsDigit(unit2[0])
    ensures RadiusCheck(map["suggested_radius" := NatToString(n) + unit1],
                        map["suggested_radius" := NatToString(n) + unit2]) == Some(true)
  {
    RadiusReading(n, unit1);
    RadiusReading(n, unit2);
  }

  /** Different distances fail, whatever follows the numbers. */
  lemma RadiusDifferentNumbersFail(m: nat, n: nat, unit1: string, unit2: string)
    requires m != n
    requires unit1 == [] || !IsDigit(unit1[0])
    requires unit2 == [] || !IsDigit(unit2[0])
    ensures RadiusCheck(map["suggested_radius" := NatToString(m) + unit1],
                        map["suggested_radius" := NatToString(n) + unit2]) == Some(false)
  {
    var a, b := NatToString(m), NatToString(n);
    assert a != b by {
      ParseNatToString(m);
      ParseNatToString(n);
    }
    RadiusReading(m, unit1);
    RadiusReading(n, unit2);
    var la, lb := Lower(a + unit1), Lower(b + unit2);
    assert FirstDigitRun(la) != FirstDigitRun(lb);
    assert la != lb;
  }

  /**
   * The verdict of `validate_fni_pvr_suggested_radius_against_radius_page`:
   * False when the portfolio table gave nothing, navigation failed or the
   * radius page gave nothing; otherwise True iff one comparison passed.
   */
  predicate FniPvrVerdict(portfolio: Option<map<string, string>>, navigated: bool, radius: Option<map<string, string>>)
  {
    if portfolio.None? || |portfolio.value| == 0 then false
    else if !navigated then false
    else if radius.None? || |radius.value| == 0 then false
    else
      var p, r := portfolio.value, radius.value;
      SummaryVerdict([NumericCheck(p, r, "fni"), NumericCheck(p, r, "pvr"), RadiusCheck(p, r)])
  }

  lemma FniPvrVerdictMeaning(portfolio: Option<map<string, string>>, navigated: bool, radius: Option<map<string, string>>)
    ensures FniPvrVerdict(portfolio, navigated, radius) <==>
      portfolio.Some? && navigated && radius.Some? &&
      (NumericCheck(portfolio.value, radius.value, "fni") == Some(true) ||
       NumericCheck(portfolio.value, radius.value, "pvr") == Some(true) ||
       RadiusCheck(portfolio.value, radius.value) == Some(true))
  {
    if portfolio.Some? && |portfolio.value| > 0 && navigated && radius.Some? && |radius.value| > 0 {
      var p, r := portfolio.value, radius.value;
      SummaryOfThree(NumericCheck(p, r, "fni"), NumericCheck(p, r, "pvr"), RadiusCheck(p, r));
    }
  }

  /** Two pages showing the same parsable F&I value pass, whatever else they show. */
  lemma SameFniPasses(portfolio: map<string, string>, radius: map<string, string>)
    requires Truthy(portfolio, "fni") && CleanNumericValue(portfolio["fni"]).Some?
    requires "fni" in radius && radius["fni"] == portfolio["fni"]
    ensures FniPvrVerdict(Some(portfolio), true, Some(radius))
  {
    FniPvrVerdictMeaning(Some(portfolio), true, Some(radius));
  }

  // ---------------------------------------------------------------------
  // Looking up a control through a list of selectors
  // ---------------------------------------------------------------------

  /** A located element; `displayed` and `enabled` are None when the call raised. */
  datatype Elem = Elem(displayed: Option<bool>, enabled: Option<bool>, clickOk: bool)

  /** One selector's explicit wait: it timed out, or it located an element. */
  datatype Lookup = TimedOut | Located(elem: Elem)

  /**
   * The selector loop: the first located element that is displayed ends it
   * with `found`; otherwise the variable keeps the last element located.
   */
  function Search(ls: seq<Lookup>, held: Option<Elem>): (r: (bool, Option<Elem>))
    decreases |ls|
  {
    if ls == [] then (false, held)
    else match ls[0]
      case TimedOut => Search(ls[1..], held)
      case Located(e) => if e.displayed == Some(true) then (true, Some(e)) else Search(ls[1..], Some(e))
  }

  /** A control is found iff some selector located a displayed element, and then that element is kept. */
  lemma {:induction false} SearchMeaning(ls: seq<Lookup>, held: Option<Elem>)
    ensures Search(ls, held).0 <==> exists i :: 0 <= i < |ls| && ls[i].Located? && ls[i].elem.displayed == Some(true)
    ensures Search(ls, held).0 ==> Search(ls, held).1.Some? && Search(ls, held).1.value.displayed == Some(true)
    ensures Search(ls, held).1.None? <==> held.None? && forall i :: 0 <= i < |ls| ==> ls[i].TimedOut?
    decreases |ls|
  {
    if ls != [] {
      SearchMeaning(ls[1..], if ls[0].Located? then Some(ls[0].elem) else held);
      assert forall i :: 1 <= i < |ls| ==> ls[i] == ls[1..][i - 1];
    }
  }

  /** The selector loop itself. */
  method FindControl(ls: seq<Lookup>) returns (found: bool, elem: Option<Elem>)
    ensures (found, elem) == Search(ls, None)
  {
    found, elem := false, None;
    var i := 0;
    while i < |ls|
      invariant 0 <= i <= |ls|
      invariant Search(ls[i..], elem) == Search(ls, None)
    {
      assert ls[i..][1..] == ls[i + 1..];
      if ls[i].Located? {
        elem := Some(ls[i].elem);
        if ls[i].elem.displayed == Some(true) {
          found := true;
          break;
        }
      }
      i := i + 1;
    }
  }

  // ---------------------------------------------------------------------
  // Zoom controls of the builder-page map
  // ---------------------------------------------------------------------

  datatype ZoomFlags = ZoomFlags(
    inFound: bool, outFound: bool,
    inClickable: bool, outClickable: bool,
    inResponsive: bool, outResponsive: bool)

  /** Sum of the booleans, as Python's `sum([...])`. */
  function CountTrue(bs: seq<bool>): (n: nat)
    ensures n <= |bs|
  {
    if bs == [] then 0 else CountTrue(bs[..|bs| - 1]) + if bs[|bs| - 1] then 1 else 0
  }

  lemma CountFour(a: bool, b: bool, c: bool, d: bool)
    ensures CountTrue([a, b, c, d]) == (if a then 1 else 0) + (if b then 1 else 0) + (if c then 1 else 0) + (if d then 1 else 0)
  {
    var s1, s2, s3, s4 := [a], [a, b], [a, b, c], [a, b, c, d];
    assert s1[..0] == [];
    assert CountTrue(s1) == (if a then 1 else 0);
    assert s2[..1] == s1;
    assert CountTrue(s2) == (if a then 1 else 0) + (if b then 1 else 0);
    assert s3[..2] == s2;
    assert CountTrue(s3) == (if a then 1 else 0) + (if b then 1 else 0) + (if c then 1 else 0);
    assert s4[..3] == s3;
  }

  /** At least two of the four found/clickable flags pass; fewer pass when at least one holds. */
  predicate BuilderZoomVerdict(f: ZoomFlags)
  {
    var ops := CountTrue([f.inFound, f.outFound, f.inClickable, f.outClickable]);
    if ops >= 2 then true else ops > 0
  }

  /** The builder-page zoom check passes iff any one of its four flags is set. */
  lemma BuilderZoomVerdictMeaning(f: ZoomFlags)
    ensures BuilderZoomVerdict(f) <==> f.inFound || f.outFound || f.inClickable || f.outClickable
  {
    CountFour(f.inFound, f.outFound, f.inClickable, f.outClickable);
  }

  /**
   * Clicking whichever element the lookup kept: clickable when
   * `is_enabled()` says so, responsive when the click also went through.
   */
  method TryClick(elem: Option<Elem>) returns (clickable: bool, responsive: bool)
    ensures clickable <==> elem.Some? && elem.value.enabled == Some(true)
    ensures responsive <==> clickable && elem.value.clickOk
  {
    clickable, responsive := false, false;
    if elem.Some? && elem.value.enabled == Some(true) {
      clickable := true;
      if elem.value.clickOk {
        responsive := true;
      }
    }
  }

  /** `validate_map_zoom_functionality_on_builder_page`, given what each selector's wait produced. */
  method ValidateBuilderZoom(zoomIn: seq<Lookup>, zoomOut: seq<Lookup>) returns (pass: bool, flags: ZoomFlags)
    ensures flags.inFound == Search(zoomIn, None).0 && flags.outFound == Search(zoomOut, None).0
    ensures flags.inClickable <==> Search(zoomIn, None).1.Some? && Search(zoomIn, None).1.value.enabled == Some(true)
    ensures flags.outClickable <==> Search(zoomOut, None).1.Some? && Search(zoomOut, None).1.value.enabled == Some(true)
    ensures pass == BuilderZoomVerdict(flags)
    ensures pass ==> exists i :: 0 <= i < |zoomIn + zoomOut| && (zoomIn + zoomOut)[i].Located?
  {
    var inFound, inElem := FindControl(zoomIn);
    var inClickable, inResponsive := TryClick(inElem);
    var outFound, outElem := FindControl(zoomOut);
    var outClickable, outResponsive := TryClick(outElem);
    flags := ZoomFlags(inFound, outFound, inClickable, outClickable, inResponsive, outResponsive);
    var ops := CountTrue([inFound, outFound, inClickable, outClickable]);
    if ops >= 2 {
      pass := true;
    } else {
      pass := ops > 0;
    }
    SearchMeaning(zoomIn, None);
    SearchMeaning(zoomOut, None);
    BuilderZoomVerdictMeaning(flags);
    if pass {
      if inElem.Some? {
        var i :| 0 <= i < |zoomIn| && !zoomIn[i].TimedOut?;
        assert (zoomIn + zoomOut)[i] == zoomIn[i];
      } else {
        var i :| 0 <= i < |zoomOut| && !zoomOut[i].TimedOut?;
        assert (zoomIn + zoomOut)[|zoomIn| + i] == zoomOut[i];
      }
    }
  }

  /** A displayed zoom-in control alone is enough for the builder-page zoom check. */
  lemma BuilderZoomPassesWhenShown(zoomIn: seq<Lookup>, i: nat)
    requires i < |zoomIn| && zoomIn[i].Located? && zoomIn[i].elem.displayed == Some(true)
    ensures forall f: ZoomFlags :: f.inFound == Search(zoomIn, None).0 ==> BuilderZoomVerdict(f)
  {
    SearchMeaning(zoomIn, None);
    forall f: ZoomFlags | f.inFound == Search(zoomIn, None).0
      ensures BuilderZoomVerdict(f)
    {
      BuilderZoomVerdictMeaning(f);
    }
  }

  // ---------------------------------------------------------------------
  // Zoom controls of the main portfolio map
  // ---------------------------------------------------------------------

  /**
   * One control of the main map: whether the wait for a clickable control
   * succeeded, whether the click went through, and whether the control
   * looked up again afterwards is displayed (None when that lookup raised).
   */
  datatype MainZoomProbe = MainZoomProbe(waitOk: bool, clickOk: bool, displayedAfter: Option<bool>)

  predicate MainClickable(p: MainZoomProbe) { p.waitOk && p.clickOk }

  /** A lookup that raises after the click also counts as a response; only a hidden control does not. */
  predicate MainResponsive(p: MainZoomProbe) { MainClickable(p) && p.displayedAfter != Some(false) }

  /** At least two of the four flags. */
  predicate MainZoomVerdict(zoomIn: MainZoomProbe, zoomOut: MainZoomProbe)
  {
    CountTrue([MainClickable(zoomIn), MainClickable(zoomOut), MainResponsive(zoomIn), MainResponsive(zoomOut)]) >= 2
  }

  /**
   * The main-map zoom check passes iff both controls take a click, or one of
   * them takes a click and stays usable: a single working control suffices.
   */
  lemma MainZoomVerdictMeaning(zoomIn: MainZoomProbe, zoomOut: MainZoomProbe)
    ensures MainZoomVerdict(zoomIn, zoomOut) <==>
      (MainClickable(zoomIn) && MainClickable(zoomOut)) || MainResponsive(zoomIn) || MainResponsive(zoomOut)
  {
    CountFour(MainClickable(zoomIn), MainClickable(zoomOut), MainResponsive(zoomIn), MainResponsive(zoomOut));
  }

  // ---------------------------------------------------------------------
  // Min/max revenue fields
  // ---------------------------------------------------------------------

  /** An input field from the general search, with its placeholder, id and name. */
  datatype Field = Field(placeholder: string, id: string, name: string, elem: Elem)

  /** `word in placeholder.lower() or word in id.lower() or word in name.lower()`. */
  predicate Mentions(f: Field, word: string)
  {
    Contains(Lower(f.placeholder), word) || Contains(Lower(f.id), word) || Contains(Lower(f.name), word)
  }

  /** The two elements the check works with, and their `found` flags. */
  datatype Pick = Pick(minElem: Option<Elem>, minFound: bool, maxElem: Option<Elem>, maxFound: bool)

  /** A field that mentions "min" becomes the min field; otherwise one that mentions "max" becomes the max field. */
  function ClassifyStep(p: Pick, f: Field): Pick
  {
    if Mentions(f, "min") then p.(minElem := Some(f.elem), minFound := true)
    else if Mentions(f, "max") then p.(maxElem := Some(f.elem), maxFound := true)
    else p
  }

  function Classify(fields: seq<Field>, p: Pick): Pick
    decreases |fields|
  {
    if fields == [] then p else Classify(fields[1..], ClassifyStep(p, fields[0]))
  }

  /**
   * After the general search the min field counts as found iff it already
   * was or some field mentions "min"; the max field iff it already was or
   * some field mentions "max" but not "min".
   */
  lemma {:induction false} ClassifyMeaning(fields: seq<Field>, p: Pick)
    ensures Classify(fields, p).minFound <==> p.minFound || exists i :: 0 <= i < |fields| && Mentions(fields[i], "min")
    ensures Classify(fields, p).maxFound <==>
      p.maxFound || exists i :: 0 <= i < |fields| && !Mentions(fields[i], "min") && Mentions(fields[i], "max")
    decreases |fields|
  {
    if fields != [] {
      ClassifyMeaning(fields[1..], ClassifyStep(p, fields[0]));
      assert forall i :: 1 <= i < |fields| ==> fields[i] == fields[1..][i - 1];
    }
  }

  /** The loop over the fields of the general search. */
  method ClassifyFields(fields: seq<Field>, p0: Pick) returns (p: Pick)
    ensures p == Classify(fields, p0)
  {
    p := p0;
    for i := 0 to |fields|
      invariant Classify(fields[i..], p) == Classify(fields, p0)
    {
      assert fields[i..][1..] == fields[i + 1..];
      var f := fields[i];
      if Mentions(f, "min") {
        p := p.(minElem := Some(f.elem), minFound := true);
      } else if Mentions(f, "max") {
        p := p.(maxElem := Some(f.elem), maxFound := true);
      }
    }
  }

  /**
   * The fields the check ends up with: the selector searches, then the
   * general search when either search located no element at all.
   */
  function RevenuePick(minLookups: seq<Lookup>, maxLookups: seq<Lookup>, fields: seq<Field>): Pick
  {
    var (minFound, minElem) := Search(minLookups, None);
    var (maxFound, maxElem) := Search(maxLookups, None);
    var p := Pick(minElem, minFound, maxElem, maxFound);
    if minElem.None? || maxElem.None? then Classify(fields, p) else p
  }

  /**
   * The final rule: at least two of the four checks and both fields found.
   * Whether min > max was rejected (`rejected`) only changes the log
   * message, so it does not enter the verdict.
   */
  predicate MinMaxVerdict(minFound: bool, maxFound: bool, minInteractable: bool, maxInteractable: bool, rejected: bool)
  {
    CountTrue([minFound, maxFound, minInteractable, maxInteractable]) >= 2 && minFound && maxFound
  }

  /** The revenue verdict is exactly "both fields found". */
  lemma MinMaxVerdictMeaning(minFound: bool, maxFound: bool, minI: bool, maxI: bool, rejected: bool)
    ensures MinMaxVerdict(minFound, maxFound, minI, maxI, rejected) <==> minFound && maxFound
  {
    CountFour(minFound, maxFound, minI, maxI);
  }

  /**
   * `validate_min_max_revenue_fields`. The field interaction reads
   * `is_enabled()` of the min field, then of the max field; a call that
   * raises ends the interaction. `rejected` is whether min > max was
   * refused by the page.
   */
  method ValidateMinMaxRevenue(minLookups: seq<Lookup>, maxLookups: seq<Lookup>, fields: seq<Field>, rejected: bool)
    returns (pass: bool)
    ensures pass <==> RevenuePick(minLookups, maxLookups, fields).minFound && RevenuePick(minLookups, maxLookups, fields).maxFound
  {
    var minFound, minElem := FindControl(minLookups);
    var maxFound, maxElem := FindControl(maxLookups);
    if minElem.None? || maxElem.None? {
      var p := ClassifyFields(fields, Pick(minElem, minFound, maxElem, maxFound));
      minElem, minFound, maxElem, maxFound := p.minElem, p.minFound, p.maxElem, p.maxFound;
    }
    var minInteractable, maxInteractable := false, false;
    if minElem.Some? && maxElem.Some? && minElem.value.enabled.Some? {
      minInteractable := minElem.value.enabled.value;
      if maxElem.value.enabled.Some? {
        maxInteractable := maxElem.value.enabled.value;
      }
    }
    pass := MinMaxVerdict(minFound, maxFound, minInteractable, maxInteractable, rejected);
    MinMaxVerdictMeaning(minFound, maxFound, minInteractable, maxInteractable, rejected);
  }

  /** Both selector searches showing a displayed field make the revenue check pass, whatever the general search holds. */
  lemma RevenueFoundBySelectors(minLookups: seq<Lookup>, maxLookups: seq<Lookup>, fields: seq<Field>, i: nat, j: nat)
    requires i < |minLookups| && minLookups[i].Located? && minLookups[i].elem.displayed == Some(true)
    requires j < |maxLookups| && maxLookups[j].Located? && maxLookups[j].elem.displayed == Some(true)
    ensures RevenuePick(minLookups, maxLookups, fields).minFound
    ensures RevenuePick(minLookups, maxLookups, fields).maxFound
  {
    SearchMeaning(minLookups, None);
    SearchMeaning(maxLookups, None);
  }

  /**
   * When every selector wait times out, the check passes iff the general
   * search has a field mentioning "min" and another mentioning "max" but not "min".
   */
  lemma RevenueFromGeneralSearch(minLookups: seq<Lookup>, maxLookups: seq<Lookup>, fields: seq<Field>)
    requires forall i :: 0 <= i < |minLookups| ==> minLookups[i].TimedOut?
    requires forall i :: 0 <= i < |maxLookups| ==> maxLookups[i].TimedOut?
    ensures RevenuePick(minLookups, maxLookups, fields).minFound && RevenuePick(minLookups, maxLookups, fields).maxFound <==>
      (exists i :: 0 <= i < |fields| && Mentions(fields[i], "min")) &&
      (exists i :: 0 <= i < |fields| && !Mentions(fields[i], "min") && Mentions(fields[i], "max"))
  {
    SearchMeaning(minLookups, None);
    SearchMeaning(maxLookups, None);
    ClassifyMeaning(fields, Pick(None, false, None, false));
  }
}
