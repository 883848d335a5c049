/**
 * The test-run bookkeeping of the HTML report generator: the list of stored
 * results, the pass/fail/skip counter table, and the HTML fragments built from
 * them. Wall-clock values are explicit parameters; the static CSS/JavaScript
 * text and the file output are not part of this model.
 */
module Reports {
  import opened Wrappers
  import opened Text

  /** One stored test result (the dict built in `add_test_result`). */
  datatype TestResult = TestResult(
    testName: string,
    status: string,
    duration: real,
    errorMessage: Option<string>,
    screenshotPath: Option<string>,
    testSteps: seq<string>,
    timestamp: string)

  /** The `execution_summary` table; times are seconds since an arbitrary epoch. */
  datatype Summary = Summary(
    startTime: Option<real>,
    endTime: Option<real>,
    totalTests: nat,
    passed: nat,
    failed: nat,
    skipped: nat)

  const EmptySummary := Summary(None, None, 0, 0, 0, 0)

  /** Number of stored results whose (already lower-cased) status is `status`. */
  function CountStatus(rs: seq<TestResult>, status: string): (n: nat)
    ensures n <= |rs|
    ensures n == 0 <== forall i :: 0 <= i < |rs| ==> rs[i].status != status
  {
    if rs == [] then 0
    else CountStatus(rs[..|rs| - 1], status) + (if rs[|rs| - 1].status == status then 1 else 0)
  }

  /** The three named counters together never exceed the number of results. */
  lemma {:induction false} StatusCountsBounded(rs: seq<TestResult>)
    ensures CountStatus(rs, "passed") + CountStatus(rs, "failed") + CountStatus(rs, "skipped") <= |rs|
  {
    if rs != [] {
      StatusCountsBounded(rs[..|rs| - 1]);
    }
  }

  /** The result record `add_test_result` stores: status lower-cased, missing steps become []. */
  function NewResult(testName: string, status: string, duration: real, errorMessage: Option<string>,
                     screenshotPath: Option<string>, testSteps: Option<seq<string>>, timestamp: string): (t: TestResult)
    ensures t.status == Lower(status) && t.testName == testName && t.timestamp == timestamp
    ensures testSteps.None? ==> t.testSteps == []
    ensures testSteps.Some? ==> t.testSteps == testSteps.value
  {
    TestResult(testName, Lower(status), duration, errorMessage, screenshotPath, testSteps.GetOr([]), timestamp)
  }

  /**
   * `_get_success_percentage`: 0 with no tests, otherwise passed / total * 100.
   */
  function SuccessPercentage(s: Summary): (r: real)
    ensures s.totalTests == 0 ==> r == 0.0
    ensures s.totalTests > 0 ==> r * (s.totalTests as real) == (s.passed as real) * 100.0
    ensures s.passed <= s.totalTests ==> 0.0 <= r <= 100.0
  {
    if s.totalTests == 0 then 0.0
    else
      var r := (s.passed as real / s.totalTests as real) * 100.0;
      assert s.passed <= s.totalTests ==> s.passed as real / s.totalTests as real <= 1.0;
      r
  }

  function Plural(days: int): string {
    if days == 1 || days == -1 then "" else "s"
  }

  function IntToString(i: int): string {
    if i < 0 then "-" + NatToString(-i) else NatToString(i)
  }

  function TwoDigits(n: nat): (r: string)
    requires n < 100
    ensures |r| == 2 && AllDigits(r)
    ensures ParseDigits(r) == n
  {
    var r := [DigitChar(n / 10), DigitChar(n % 10)];
    assert r[..1] == [r[0]] && [r[0]][..0] == [];
    assert ParseDigits([r[0]]) == n / 10;
    assert ParseDigits(r) == n / 10 * 10 + n % 10;
    r
  }

  /**
   * `str(timedelta).split('.')[0]` for an elapsed time of `elapsed` seconds:
   * "[D day[s], ]H:MM:SS" with the fraction of a second dropped.
   */
  function FormatElapsed(elapsed: real): string {
    var whole := elapsed.Floor;
    var days, rest := whole / 86400, whole % 86400;
    var clock := NatToString(rest / 3600) + ":" + TwoDigits(rest % 3600 / 60) + ":" + TwoDigits(rest % 60);
    if days == 0 then clock else IntToString(days) + " day" + Plural(days) + ", " + clock
  }

  /**
   * Under a day the duration reads "H:MM:SS": hours below 24, minutes and
   * seconds below 60, adding back up to the whole seconds elapsed.
   */
  lemma ElapsedClock(elapsed: real) returns (h: nat, m: nat, s: nat)
    requires 0.0 <= elapsed < 86400.0
    ensures h < 24 && m < 60 && s < 60
    ensures h * 3600 + m * 60 + s == elapsed.Floor
    ensures FormatElapsed(elapsed) == NatToString(h) + ":" + TwoDigits(m) + ":" + TwoDigits(s)
  {
    var secs := elapsed.Floor;
    h, m, s := secs / 3600, secs % 3600 / 60, secs % 60;
  }

  /** `_get_execution_duration`: "N/A" unless both ends of the run were recorded. */
  function ExecutionDuration(s: Summary): (r: string)
    ensures r == "N/A" <==> s.startTime.None? || s.endTime.None?
    ensures s.startTime.Some? && s.endTime.Some? ==> r == FormatElapsed(s.endTime.value - s.startTime.value)
  {
    if s.startTime.Some? && s.endTime.Some? then
      var r := FormatElapsed(s.endTime.value - s.startTime.value);
      assert r != "N/A" by {
        assert r[|r| - 1] != 'A';
      }
      r
    else "N/A"
  }

  const ErrorOpen := "<div class=\"error-message\"><strong>Error:</strong><br>"
  const ErrorClose := "</div>"

  /** `_format_error_message`: empty without a message, otherwise the message wrapped unchanged. */
  function FormatErrorMessage(errorMessage: Option<string>): (r: string)
    ensures r == "" <==> errorMessage.None? || errorMessage.value == ""
    ensures errorMessage.Some? && errorMessage.value != "" ==>
              var m := errorMessage.value;
              |r| == |ErrorOpen| + |m| + |ErrorClose|
              && StartsWith(r, ErrorOpen)
              && r[|ErrorOpen|..|ErrorOpen| + |m|] == m
              && r[|ErrorOpen| + |m|..] == ErrorClose
  {
    if errorMessage.Some? && errorMessage.value != "" then
      var m := errorMessage.value;
      var r := ErrorOpen + m + ErrorClose;
      assert r[|ErrorOpen|..|ErrorOpen| + |m|] == m;
      r
    else ""
  }

  const StepsOpen := "<div class=\"test-steps\"><strong>Test Steps:</strong>"
  const StepsClose := "</div>"

  /** One list item per step, in the order given. */
  function StepItems(steps: seq<string>): string {
    if steps == [] then "" else StepItems(steps[..|steps| - 1]) + "<li>" + steps[|steps| - 1] + "</li>"
  }

  /** The items for a concatenation of step lists are the concatenated items. */
  lemma {:induction false} StepItemsAppend(a: seq<string>, b: seq<string>)
    ensures StepItems(a + b) == StepItems(a) + StepItems(b)
    decreases |b|
  {
    if b == [] {
      assert a + b == a;
    } else {
      var b', last := b[..|b| - 1], b[|b| - 1];
      var ab := a + b;
      assert ab[..|ab| - 1] == a + b';
      assert ab[|ab| - 1] == last;
      StepItemsAppend(a, b');
      calc {
        StepItems(ab);
        StepItems(a + b') + "<li>" + last + "</li>";
        StepItems(a) + StepItems(b') + "<li>" + last + "</li>";
        StepItems(a) + (StepItems(b') + "<li>" + last + "</li>");
      }
    }
  }

  /** Step `k` is rendered as the `k`-th item, whatever the other steps are. */
  lemma StepItemAt(steps: seq<string>, k: nat)
    requires k < |steps|
    ensures StepItems(steps) == StepItems(steps[..k]) + "<li>" + steps[k] + "</li>" + StepItems(steps[k + 1..])
  {
    var front, back := steps[..k + 1], steps[k + 1..];
    assert steps == front + back;
    StepItemsAppend(front, back);
    assert front[..|front| - 1] == steps[..k];
    assert StepItems(front) == StepItems(steps[..k]) + "<li>" + steps[k] + "</li>";
  }

  /** `_format_test_steps`: an ordered list of the steps, or "" when there are none. */
  method FormatTestSteps(testSteps: seq<string>) returns (html: string)
    ensures testSteps == [] ==> html == ""
    ensures testSteps != [] ==> html == StepsOpen + "<ol>" + StepItems(testSteps) + "</ol>" + StepsClose
  {
    if testSteps == [] {
      return "";
    }
    var stepsHtml := "<ol>";
    var i := 0;
    while i < |testSteps|
      invariant 0 <= i <= |testSteps|
      invariant stepsHtml == "<ol>" + StepItems(testSteps[..i])
    {
      assert testSteps[..i + 1][..i] == testSteps[..i];
      stepsHtml := stepsHtml + "<li>" + testSteps[i] + "</li>";
      i := i + 1;
    }
    assert testSteps[..i] == testSteps;
    stepsHtml := stepsHtml + "</ol>";
    html := StepsOpen + stepsHtml + StepsClose;
  }

  /** `f"{d:.2f}"` on an exact real, rounding halves up. */
  function FormatFixed2(d: real): string {
    var x := if d < 0.0 then -d else d;
    var cents := (x * 100.0 + 0.5).Floor;
    var digits := NatToString(cents / 100) + "." + TwoDigits(cents % 100);
    if d < 0.0 then "-" + digits else digits
  }

  /** The table row for result number `i`; its button toggles detail section `i`. */
  function Row(i: nat, t: TestResult): string {
    RowHead(t) + ToggleCall(i) + RowTail
  }

  function RowHead(t: TestResult): string {
    "<tr><td>" + t.testName + "</td>"
    + "<td><span class=\"status " + t.status + "\">" + t.status + "</span></td>"
    + "<td>" + FormatFixed2(t.duration) + "s</td>"
    + "<td>" + t.timestamp + "</td>"
    + "<td><button class=\"btn\" onclick=\""
  }

  const RowTail := "\">View Details</button></td></tr>"

  function ToggleCall(i: nat): string {
    "toggleDetails(" + NatToString(i) + ")"
  }

  /** The fragments joined in order (the effect of repeated `+=` on a string). */
  function Concat(parts: seq<string>): string {
    if parts == [] then "" else Concat(parts[..|parts| - 1]) + parts[|parts| - 1]
  }

  lemma {:induction false} ConcatAppend(a: seq<string>, b: seq<string>)
    ensures Concat(a + b) == Concat(a) + Concat(b)
    decreases |b|
  {
    if b == [] {
      assert a + b == a;
    } else {
      var b', last := b[..|b| - 1], b[|b| - 1];
      var ab := a + b;
      assert ab[..|ab| - 1] == a + b';
      ConcatAppend(a, b');
    }
  }

  /** Joining one more fragment appends it. */
  lemma ConcatPrefixStep(parts: seq<string>, i: nat)
    requires i < |parts|
    ensures Concat(parts[..i + 1]) == Concat(parts[..i]) + parts[i]
  {
    assert parts[..i + 1][..i] == parts[..i];
  }

  /** Rendering one more result appends its row to the table body. */
  lemma RowsPrefixStep(rs: seq<TestResult>, i: nat)
    requires i < |rs|
    ensures Concat(Rows(rs)[..i + 1]) == Concat(Rows(rs)[..i]) + Row(i, rs[i])
  {
    ConcatPrefixStep(Rows(rs), i);
  }

  /** The prefix of all the rows is the whole table body. */
  lemma RowsComplete(rs: seq<TestResult>)
    ensures Concat(Rows(rs)[..|rs|]) == Concat(Rows(rs))
  {
    assert Rows(rs)[..|rs|] == Rows(rs);
  }

  /** The rows of the results table: row `i` renders stored result `i`. */
  function Rows(rs: seq<TestResult>): (r: seq<string>)
    ensures |r| == |rs|
    ensures forall i :: 0 <= i < |rs| ==> r[i] == Row(i, rs[i])
  {
    seq(|rs|, i requires 0 <= i < |rs| => Row(i, rs[i]))
  }

  /** Result `k` is rendered by exactly one row, between the rows of the earlier and the later results. */
  lemma RowAt(rs: seq<TestResult>, k: nat)
    requires k < |rs|
    ensures Concat(Rows(rs)) == Concat(Rows(rs)[..k]) + Row(k, rs[k]) + Concat(Rows(rs)[k + 1..])
  {
    var all := Rows(rs);
    assert all == all[..k] + [all[k]] + all[k + 1..];
    ConcatAppend(all[..k] + [all[k]], all[k + 1..]);
    ConcatAppend(all[..k], [all[k]]);
    assert Concat([all[k]]) == all[k] by {
      assert [all[k]][..0] == [];
    }
  }

  /** The row for result `i` carries the call that opens detail section `i`. */
  lemma RowTogglesOwnDetails(i: nat, t: TestResult)
    ensures Contains(Row(i, t), ToggleCall(i))
  {
    var row, head := Row(i, t), RowHead(t);
    assert row[|head|..|head| + |ToggleCall(i)|] == ToggleCall(i);
    ContainsAt(row, ToggleCall(i), |head|);
  }

  /** The report generator: stored results plus the counter table. */
  class ReportGenerator {
    var testResults: seq<TestResult>
    var summary: Summary

    /** The counters always agree with the stored results. */
    ghost predicate Valid()
      reads this
    {
      && summary.totalTests == |testResults|
      && summary.passed == CountStatus(testResults, "passed")
      && summary.failed == CountStatus(testResults, "failed")
      && summary.skipped == CountStatus(testResults, "skipped")
    }

    constructor ()
      ensures Valid()
      ensures testResults == [] && summary == EmptySummary
    {
      testResults := [];
      summary := EmptySummary;
    }

    method StartExecution(now: real)
      requires Valid()
      modifies this
      ensures Valid() && testResults == old(testResults)
      ensures summary == old(summary).(startTime := Some(now))
    {
      summary := summary.(startTime := Some(now));
    }

    method EndExecution(now: real)
      requires Valid()
      modifies this
      ensures Valid() && testResults == old(testResults)
      ensures summary == old(summary).(endTime := Some(now))
    {
      summary := summary.(endTime := Some(now));
    }

    /**
     * `add_test_result`: append exactly one record and bump the total; bump at
     * most one of the named counters, according to the lower-cased status.
     */
    method AddTestResult(testName: string, status: string, duration: real, errorMessage: Option<string>,
                         screenshotPath: Option<string>, testSteps: Option<seq<string>>, timestamp: string)
      requires Valid()
      modifies this
      ensures Valid()
      ensures testResults == old(testResults) + [NewResult(testName, status, duration, errorMessage, screenshotPath, testSteps, timestamp)]
      ensures summary.totalTests == old(summary.totalTests) + 1
      ensures summary.passed == old(summary.passed) + (if Lower(status) == "passed" then 1 else 0)
      ensures summary.failed == old(summary.failed) + (if Lower(status) == "failed" then 1 else 0)
      ensures summary.skipped == old(summary.skipped) + (if Lower(status) == "skipped" then 1 else 0)
      ensures summary.startTime == old(summary.startTime) && summary.endTime == old(summary.endTime)
    {
      var result := NewResult(testName, status, duration, errorMessage, screenshotPath, testSteps, timestamp);
      var before := testResults;
      testResults := testResults + [result];
      assert testResults[..|testResults| - 1] == before;
      summary := summary.(totalTests := summary.totalTests + 1);
      var lowered := Lower(status);
      if lowered == "passed" {
        summary := summary.(passed := summary.passed + 1);
      } else if lowered == "failed" {
        summary := summary.(failed := summary.failed + 1);
      } else if lowered == "skipped" {
        summary := summary.(skipped := summary.skipped + 1);
      }
    }

    /** In every reachable state the counters fit inside the total and the percentage inside [0, 100]. */
    lemma CountersBounded()
      requires Valid()
      ensures summary.passed + summary.failed + summary.skipped <= summary.totalTests
      ensures 0.0 <= SuccessPercentage(summary) <= 100.0
    {
      StatusCountsBounded(testResults);
    }

    /** `_generate_test_rows`: one row per stored result, in stored order, numbered from 0. */
    method GenerateTestRows() returns (rows: string)
      ensures rows == Concat(Rows(testResults))
    {
      rows := "";
      var i := 0;
      while i < |testResults|
        invariant 0 <= i <= |testResults|
        invariant rows == Concat(Rows(testResults)[..i])
      {
        RowsPrefixStep(testResults, i);
        rows := rows + Row(i, testResults[i]);
        i := i + 1;
      }
      RowsComplete(testResults);
    }
  }
}
