# Jump UI automation: a verified model of its framework core

Jump-UI-Automation is a Selenium test suite for a dealership-valuation web
application. Its test classes share one browser per class and log in once.
They read page locators from a YAML registry and test inputs from a JSON data
file, record each test's outcome in an HTML report, and use page objects that
decide whether a page "passes" from what the browser showed. This project
models the parts of that framework that decide something:

- `report_generator.dfy` (module `Reports`): the report generator's result
  store, counter table, percentage and duration arithmetic, and the HTML
  fragments built from the stored results (steps list, table rows).
- `locator_manager.dfy` (module `Locators`): the locator registry, with its
  defaults, lookups, additions and updates, and the module-level singleton.
- `test_data_manager.dfy` (module `TestData`): the data manager, with its
  credential fallback chain, scenario lists, expected messages and updates.
- `base_test.dfy` (module `BaseTest`): the class-level configuration merge,
  the mock-or-form login route, the simulated login, and setup, teardown and
  navigation.
- `optimized_base_test.dfy` (module `SessionReuse`): the cookie-reusing login
  of the optimized base class, with its 30-minute staleness rule.
- `valuations_page.dfy` (module `Valuations`): the year-to-column map, the
  demonstration figures, the expenses and adjusted-profit formulas with their
  1% check, and the radius cross-page matching.
- `portfolio_page.dfy` (module `Portfolio`): the verdict rules of the
  portfolio page checks. These cover the text boxes, the New/Used ratio and
  vehicles-sold calculators, the tooltip check, F&I/PVR/suggested radius, the
  two map-zoom checks, and the min/max revenue fields.
- `browser.dfy` (module `Browser`): the WebDriver state the tests touch:
  current URL, cookie jar, quit flag.
- `text.dfy` (module `Text`) and `wrappers.dfy` (module `Wrappers`): Python
  string behaviour the checks rely on (`lower`, `in`, `strip`, `replace`,
  `float`, `str(int)`, the first `\d+` match), and `Option`.

Objects whose fields the source updates in place are classes:
`ReportGenerator`, `LocatorManager`, `DataManager`, the two base-test class and
object states, and the driver. Everything the browser reports (a wait that
timed out, `is_displayed()` raising, a click going through, the text read
from a page) is an input to the model. Each page check is then a function of
those observations. Where the source loops over selectors or fields, the
model has a method with the same loop and proves it equal to that function.

## Model

| member | source | states |
|---|---|---|
| `Reports.CountStatus` | utils/report_generator.py:55-62 | a status count never exceeds the number of results and is 0 when no result has that status |
| `Reports.StatusCountsBounded` | utils/report_generator.py:55-62 | passed + failed + skipped never exceeds the number of results |
| `Reports.NewResult` | utils/report_generator.py:43-51 | the stored record lower-cases the status and stores a missing step list as empty, keeping every other field |
| `Reports.SuccessPercentage` | utils/report_generator.py:433-437 | 0 when there are no tests; otherwise percentage × total = passed × 100, and the value lies in [0, 100] whenever the counters are consistent |
| `Reports.TwoDigits` | utils/report_generator.py:426-431 | a number below 100 renders as exactly two digits that read back as that number |
| `Reports.FormatElapsed` | utils/report_generator.py:426-431 | the rendering of an elapsed time; `Reports.ElapsedClock` states the under-a-day clock |
| `Reports.ElapsedClock` | utils/report_generator.py:426-431 | under a day the duration renders as `H:MM:SS` with hours below 24, minutes and seconds below 60, and the parts adding back to the whole seconds elapsed |
| `Reports.ExecutionDuration` | utils/report_generator.py:426-431 | "N/A" exactly when the start or the end time is missing |
| `Reports.FormatErrorMessage` | utils/report_generator.py:404-408 | the fragment is empty exactly when there is no message or it is empty, and otherwise wraps the message |
| `Reports.StepItemsAppend` | utils/report_generator.py:416-424 | the list items of a longer step list extend those of the shorter one |
| `Reports.StepItemAt` | utils/report_generator.py:416-424 | step k appears as its own list item, between the items of the steps before and after it |
| `Reports.FormatTestSteps` | utils/report_generator.py:416-424 | no steps give ""; otherwise an ordered list with one item per step, in order |
| `Reports.ConcatAppend` | utils/report_generator.py:368-384 | joining two lists of fragments is joining each and concatenating |
| `Reports.Rows` | utils/report_generator.py:368-384 | one row per stored result, row i rendering result i |
| `Reports.RowAt` | utils/report_generator.py:368-384 | result k's row sits in the table body between the rows of earlier and later results |
| `Reports.RowTogglesOwnDetails` | utils/report_generator.py:378-381 | the button of row i opens details section i |
| `Reports.ReportGenerator.constructor` | utils/report_generator.py:10-29 | a new generator has no results, zero counters and no times, and its counters agree with its results |
| `Reports.ReportGenerator.StartExecution` | utils/report_generator.py:31-33 | records the start time and changes nothing else |
| `Reports.ReportGenerator.EndExecution` | utils/report_generator.py:35-37 | records the end time and changes nothing else |
| `Reports.ReportGenerator.AddTestResult` | utils/report_generator.py:39-62 | appends exactly the new record, adds one to the total and to at most one named counter chosen by the lower-cased status, keeps the times, and keeps the counters consistent with the results |
| `Reports.ReportGenerator.CountersBounded` | utils/report_generator.py:53-62 | in every consistent state the named counters fit in the total and the success percentage lies in [0, 100] |
| `Reports.ReportGenerator.GenerateTestRows` | utils/report_generator.py:368-384 | the loop produces exactly the stored results' rows joined in stored order |
| `Locators.Lookup` | utils/locator_manager.py:53-69 | the entry is found exactly when the page and the element are both present |
| `Locators.WithLocator` | utils/locator_manager.py:121-134 | adding keeps every page and creates the named page when it is missing |
| `Locators.WithUpdatedLocator` | utils/locator_manager.py:136-152 | an update never adds or removes a page |
| `Locators.AddThenLookup` | utils/locator_manager.py:121-134 | after adding, the element reads back the new XPath and every other entry is unchanged |
| `Locators.UpdateThenLookup` | utils/locator_manager.py:136-152 | after a successful update the element reads back the new XPath; other entries are unchanged; a failed update changes nothing |
| `Locators.UpdateExistingIsAdd` | utils/locator_manager.py:121-152 | updating an existing element has the same effect as adding it |
| `Locators.LocatorManager.constructor` | utils/locator_manager.py:14-51 | the default path is used when none is given; a failed load yields the default locators, a successful one the loaded document |
| `Locators.LocatorManager.GetLocator` | utils/locator_manager.py:53-69 | Some((XPATH, entry)) exactly when the page and element are present, None otherwise |
| `Locators.LocatorManager.GetXpath` | utils/locator_manager.py:71-86 | the XPath string of a present element, and None when it is missing |
| `Locators.LocatorManager.GetPageLocators` | utils/locator_manager.py:88-102 | the page's entries, or the empty map for an unknown page |
| `Locators.LocatorManager.GetTextMessage` | utils/locator_manager.py:104-119 | the message when present; "" when the messages section or the page is missing; None (the TypeError) exactly when the entry is not a message table |
| `Locators.LocatorManager.AddLocator` | utils/locator_manager.py:121-134 | the new registry is the old one with the element added |
| `Locators.LocatorManager.UpdateLocator` | utils/locator_manager.py:136-152 | the new registry is the old one with the update applied, which changes nothing when the element is missing |
| `Locators.LocatorManager.ListPageElements` | utils/locator_manager.py:154-168 | exactly the element names of the page, empty for an unknown page |
| `Locators.LocatorManager.ListAllPages` | utils/locator_manager.py:170-179 | exactly the page names other than `text_messages` and `common` |
| `Locators.LocatorManager.ValidateLocator` | utils/locator_manager.py:199-216 | true exactly when the element is present and its XPath is not null |
| `Locators.DefaultLocatorsPresent` | utils/locator_manager.py:40-51 | the default registry holds only the login page, whose entries are XPaths including the email, password, terms and sign-in elements |
| `Locators.Registry.constructor` | utils/locator_manager.py:218-223 | the module starts without a manager |
| `Locators.Registry.GetLocatorManager` | utils/locator_manager.py:218-223 | the first call creates the manager; later calls return the same object and ignore their argument |
| `Locators.SingletonTwice` | utils/locator_manager.py:218-223 | two calls return the same manager |
| `TestData.Cred` | utils/test_data_manager.py:195-204 | a credentials record holds exactly the email and the password |
| `TestData.StoredCredentials` | utils/test_data_manager.py:135-151 | the stored entry is found exactly when the credentials section has the user |
| `TestData.LoginCredentials` | utils/test_data_manager.py:135-151 | `get_login_credentials`: its fallback order is stated by `TestData.LoginCredentialsOrder`, and when it fails by `TestData.LoginCredentialsFailure` |
| `TestData.LoginCredentialsOrder` | utils/test_data_manager.py:135-151 | config credentials first, then the data file's entry, then config's valid user, then the file's valid user |
| `TestData.LoginCredentialsFailure` | utils/test_data_manager.py:135-151 | the lookup fails exactly when neither source knows the user or `valid_user` |
| `TestData.TestScenarios` | utils/test_data_manager.py:153-159 | the named scenario list, or [] when it or the section is missing |
| `TestData.ExpectedMessage` | utils/test_data_manager.py:161-167 | the named message, or "" when it or the section is missing |
| `TestData.WithScenario` | utils/test_data_manager.py:169-175 | appending succeeds exactly when the scenario section exists |
| `TestData.AddScenarioThenRead` | utils/test_data_manager.py:169-175 | the scenario becomes the last of its list; every other list and section is unchanged |
| `TestData.WithCredentials` | utils/test_data_manager.py:195-204 | the data after `update_credentials`; `TestData.UpdateCredentialsThenRead` states that the user's entry becomes exactly {email, password} and nothing else changes |
| `TestData.UpdateCredentialsThenRead` | utils/test_data_manager.py:195-204 | the user's entry becomes exactly {email, password}; other users and sections keep theirs |
| `TestData.UpdatedCredentialsAreServed` | utils/test_data_manager.py:135-204 | without config credentials, the lookup after an update returns the new entry |
| `TestData.DefaultScenarios` | utils/test_data_manager.py:39-117 | the defaults hold one positive scenario that expects success and five negative ones that expect failure |
| `TestData.DefaultCredentialsAlwaysResolve` | utils/test_data_manager.py:39-151 | with the default data any user type resolves, an unknown one to the valid user |
| `TestData.DataManager.constructor` | utils/test_data_manager.py:10-37 | the default file path when none is given; the loaded data or, on failure, the defaults; config credentials as read |
| `TestData.DataManager.AddTestScenario` | utils/test_data_manager.py:169-175 | returns false (the KeyError) and changes nothing without a scenario section, otherwise appends |
| `TestData.DataManager.UpdateCredentials` | utils/test_data_manager.py:195-204 | the new data is the old data with the user's credentials set |
| `BaseTest.FillDefaultsProperties` | base/base_test.py:109-112 | after the merge every default key is present, loaded keys keep their values, and no other key appears |
| `BaseTest.MergeIsShallow` | base/base_test.py:109-112 | a loaded section replaces the default section whole, even an empty one |
| `BaseTest.DefaultsAreFixedPoint` | base/base_test.py:93-112 | merging the defaults into themselves gives the defaults |
| `BaseTest.MergeDefaults` | base/base_test.py:109-112 | the key-by-key loop computes exactly the merge |
| `BaseTest.LoadConfig` | base/base_test.py:93-112 | an empty document leaves the configuration unset (the loop raises); a parsed one is merged with the defaults; a missing or unreadable file gives the defaults |
| `BaseTest.LoginUrl` | base/base_test.py:261-262 | the configured URL when it is a string, the built-in fallback when it is absent |
| `BaseTest.SimulateLoginAsWrittenNeverSucceeds` | base/base_test.py:280-307 | with the `By.TYPE` lookup the simulated login never succeeds |
| `BaseTest.SimulateLoginCorrectedSucceeds` | base/base_test.py:280-307 | with the CSS-selector lookup the login succeeds exactly when the config has a valid user and the form's elements are found and clicked |
| `BaseTest.DefaultConfigHasValidUser` | base/base_test.py:19-44 | the default configuration has a valid user with email and password |
| `BaseTest.RouteFor` | base/base_test.py:266-275 | the mock route exactly when the URL mentions `mock-driver`; the form route exactly when it does not but its lower-cased form mentions `login` |
| `BaseTest.RouteIgnoresCaseOfLogin` | base/base_test.py:266-275 | any URL with `login` and no `mock-driver` takes the form route |
| `BaseTest.Suite.constructor` | base/base_test.py:56-77 | the class state starts with the given browser and configuration, not logged in |
| `BaseTest.Suite.SimulateLogin` | base/base_test.py:280-307 | with the given submit lookup, the logged-in flag becomes set exactly when the login succeeds (or it was already set); with the `By.TYPE` lookup as written it never changes |
| `BaseTest.Suite.AttemptLogin` | base/base_test.py:254-278 | without a browser, a configuration, a login URL or a successful load, neither the flag nor the browser's page changes; otherwise the browser shows the landed URL and the route decides the flag; with the `By.TYPE` lookup as written only the mock route can set the flag |
| `BaseTest.Suite.TeardownClass` | base/base_test.py:309-317 | the browser is quit and the reference kept; its page and cookies stay as they were |
| `BaseTest.Test.constructor` | base/base_test.py:319-332 | a test object starts without a browser or configuration |
| `BaseTest.Test.SetupMethod` | base/base_test.py:319-332 | the object takes the class's browser and configuration and notes the start time |
| `BaseTest.Test.NavigateToUrl` | base/base_test.py:384-394 | true exactly when a browser exists and the load works; then the browser shows the URL, and nothing else changes |
| `SessionReuse.NeedFreshLogin` | base/optimized_base_test.py:89-93 | no recorded login (or time 0) needs a login; otherwise exactly when more than 1800 s have passed |
| `SessionReuse.StaleBoundary` | base/optimized_base_test.py:89-93 | a login exactly 30 minutes old is fresh, one any moment older is stale |
| `SessionReuse.StaleStaysStale` | base/optimized_base_test.py:89-93 | a stale login stays stale as time moves on |
| `SessionReuse.LooksLoggedIn` | base/optimized_base_test.py:164-170 | `_is_logged_in` on a URL; `SessionReuse.LooksLoggedInIgnoresCase` states that `home` or `dashboard` in any case counts |
| `SessionReuse.LooksLoggedInIgnoresCase` | base/optimized_base_test.py:164-170 | `home` or `dashboard` anywhere in the URL, in any case, counts as logged in |
| `SessionReuse.AttemptOutcome` | base/optimized_base_test.py:95-162 | how one `_fast_login` ends; `SessionReuse.AttemptOutcomeCases` states when it replays the session, when a full login succeeds and what it saves |
| `SessionReuse.LandedUrl` | base/optimized_base_test.py:95-162 | the page `_fast_login` leaves the browser on; `SessionReuse.FormFailureStaysOnLoginPage` states that a failed form leaves it on `<base>/auth/login` |
| `SessionReuse.AttemptOutcomeCases` | base/optimized_base_test.py:95-162 | the cookie replay is used exactly when reuse is on, cookies were saved and the refreshed page looks logged in; a full login records cookies only with reuse on; no browser means failure |
| `SessionReuse.FreshObjectLogsIn` | base/optimized_base_test.py:19-27 | a new test object always logs in during setup |
| `SessionReuse.ReplayKeepsSessionStale` | base/optimized_base_test.py:95-107 | a replayed session does not refresh the login time, so a stale object stays due for a login |
| `SessionReuse.NoReuseAlwaysRelogs` | base/optimized_base_test.py:151-158 | with reuse off no login time is recorded, so every setup logs in again |
| `SessionReuse.FullLoginIsFreshFor30Minutes` | base/optimized_base_test.py:151-158 | a full login with reuse on leaves the object logged in and fresh for 30 minutes |
| `SessionReuse.Suite.constructor` | base/optimized_base_test.py:29-41 | the class holds the given shared browser |
| `SessionReuse.Suite.TeardownClass` | base/optimized_base_test.py:65-69 | the shared browser is quit and forgotten; its page and cookies stay as they were |
| `SessionReuse.Test.constructor` | base/optimized_base_test.py:19-27 | a test object starts from the class defaults |
| `SessionReuse.Test.IsLoggedIn` | base/optimized_base_test.py:164-170 | true exactly when a browser exists and its URL looks logged in |
| `SessionReuse.Test.FastLogin` | base/optimized_base_test.py:95-162 | reports success exactly when the attempt did not fail; the new login state, cookie jar and URL are those the attempt determines, including the login page itself when a step of its form fails |
| `SessionReuse.FormFailureStaysOnLoginPage` | base/optimized_base_test.py:113-136 | without a cookie replay, a login page that loads but whose form fails leaves the browser on `<base>/auth/login`, and the attempt fails |
| `SessionReuse.Test.SetupMethod` | base/optimized_base_test.py:71-78 | takes the shared browser and start time, and logs in exactly when not logged in or stale; the shared browser's cookies and page are then those the login attempt leaves, and otherwise unchanged; it is never quit |
| `Valuations.YearColumnPosition` | pages/valuations_page.py:1090-1100 | every year maps to a column from 2 to 7 |
| `Valuations.YearColumnRoundTrip` | pages/valuations_page.py:1090-1100 | 2020 to 2025 map one-to-one onto columns 2 to 7 |
| `Valuations.UnknownYearReadsColumnOf2020` | pages/valuations_page.py:1090-1100 | any other year reads the 2020 column |
| `Valuations.ExtractValueFromPageSource` | pages/valuations_page.py:1118-1163 | a figure exactly for the rows of 2021 to 2023 in the built-in table, None otherwise |
| `Valuations.CalculateExpenses` | pages/valuations_page.py:1276-1304 | defined exactly when gross profit, net profit and net additions were read, and then expenses = gross − net + additions |
| `Valuations.CalculateAdjustedProfit` | pages/valuations_page.py:1352-1378 | defined exactly when net profit and add backs were read, and then adjusted = net + add backs |
| `Valuations.RatioBound` | pages/valuations_page.py:1326-1337 | for a positive base, the percentage is at most 1 exactly when the difference is at most 1% of the base |
| `Valuations.WithinOnePercentMeaning` | pages/valuations_page.py:1326-1337 | for a positive actual value the check is a 1% band; a zero or negative actual value always passes |
| `Valuations.ValidateExpenses` | pages/valuations_page.py:1306-1350 | passing needs the shown expenses and the three formula inputs; with them, a positive shown expenses passes exactly when the distance between gross − net + additions and it, times 100, is at most it, and a zero or negative one always passes |
| `Valuations.ValidateAdjustedProfit` | pages/valuations_page.py:1380-1424 | passing needs the shown adjusted profit and the two formula inputs; with them, a positive shown value passes exactly when the distance between net + add backs and it, times 100, is at most it, and a zero or negative one always passes |
| `Valuations.ValidateBoth` | pages/valuations_page.py:1426-1455 | passing needs all six figures; with them it passes exactly when each formula lies within 1% of its positive shown figure, a zero or negative shown figure passing unconditionally |
| `Valuations.ValidateWithJavascript` | pages/valuations_page.py:1809-1883 | passing needs all six figures extracted; with them it passes exactly when each formula lies within 1% of its positive shown figure, a zero or negative shown figure passing unconditionally |
| `Valuations.JavascriptAgreesWithBoth` | pages/valuations_page.py:1809-1883 | the one-pass check agrees with the two separate checks on every set of figures |
| `Valuations.DemoFiguresPass` | pages/valuations_page.py:1118-1163 | the built-in figures pass both checks for every year; 2023 is exact and 2022/2021 are off by one |
| `Valuations.ValuesAreRelated` | pages/valuations_page.py:2168-2206 | `values_are_related`; `Valuations.RelatedBasics`, `Valuations.KeysRelatedSymmetric` and `Valuations.NumbersCloseIsAsymmetric` state its three branches |
| `Valuations.KeysRelatedSymmetric` | pages/valuations_page.py:2183-2202 | the field-name relation is tried in both orders, so it is symmetric |
| `Valuations.RelatedBasics` | pages/valuations_page.py:2168-2206 | equal values are always related; related names relate any values |
| `Valuations.RevenueRelatesToGrossProfit` | pages/valuations_page.py:2183-2202 | `revenue` relates to `gross_profit` in either order |
| `Valuations.NumbersCloseIsAsymmetric` | pages/valuations_page.py:2175-2181 | the 1% tolerance is relative to the first value: 100 vs 99 is close, 99 vs 100 is not |
| `Valuations.MatchesFor` | pages/valuations_page.py:2139-2149 | at most one match per comparison entry |
| `Valuations.Matches` | pages/valuations_page.py:2139-2149 | at most one match per pair of entries |
| `Valuations.MatchesForNonEmpty` | pages/valuations_page.py:2139-2149 | an entry has a match exactly when some comparison entry is related to it |
| `Valuations.MatchesNonEmpty` | pages/valuations_page.py:2139-2149 | there is a match exactly when some pair of entries is related |
| `Valuations.MatchesAreRelated` | pages/valuations_page.py:2139-2149 | every reported match relates its two values and is marked exact exactly when they are equal |
| `Valuations.MatchesForRelated` | pages/valuations_page.py:2139-2149 | the same, for one radius entry |
| `Valuations.ValidateRadius` | pages/valuations_page.py:2106-2166 | fails when either side is missing or empty; otherwise passes exactly when there is a match |
| `Portfolio.SelectorTally` | pages/portfolio_page.py:379-412 | clickable ≤ displayed ≤ elements of the selector |
| `Portfolio.Tally` | pages/portfolio_page.py:378-412 | clickable ≤ total over all selectors |
| `Portfolio.CountTextboxes` | pages/portfolio_page.py:374-412 | the nested loops compute exactly the tally |
| `Portfolio.TextboxesPass` | pages/portfolio_page.py:425-433 | the text-box rule; `Portfolio.TextboxesPassMeaning` states it in whole numbers |
| `Portfolio.TextboxesPassMeaning` | pages/portfolio_page.py:425-433 | passes exactly when something was found and twice the clickable count reaches the total |
| `Portfolio.NothingDisplayedFails` | pages/portfolio_page.py:425-433 | when nothing is displayed the total is 0 and the check fails |
| `Portfolio.AllClickablePasses` | pages/portfolio_page.py:378-433 | when every displayed box takes the click, the check passes exactly when some box was displayed |
| `Portfolio.LastThree` | pages/portfolio_page.py:2280-2281 | the last three values, or all when fewer |
| `Portfolio.RecentTotal` | pages/portfolio_page.py:2318-2332 | the sum of the last up-to-three months, the last three values when there are at least three |
| `Portfolio.RecentAverage` | pages/portfolio_page.py:2280-2281 | average × count of recent months = their sum |
| `Portfolio.ExpectedNewUsedRatio` | pages/portfolio_page.py:2263-2299 | a ratio only with stored data, non-empty new and used lists and a positive recent used average, and then ratio × used average = new average |
| `Portfolio.RatioAvailable` | pages/portfolio_page.py:2263-2299 | the ratio is available exactly when both lists are non-empty and the recent used average is positive |
| `Portfolio.ExpectedVehiclesSold` | pages/portfolio_page.py:2301-2344 | new + used recent totals when both lists are stored; else the recent total list; else None |
| `Portfolio.OnlyLastThreeMonthsCountForVehicles` | pages/portfolio_page.py:2318-2332 | months before the last three do not change the vehicles sold |
| `Portfolio.OnlyLastThreeMonthsCountForRatio` | pages/portfolio_page.py:2280-2281 | months before the last three do not change the ratio |
| `Portfolio.ImportedSalesData` | pages/portfolio_page.py:2270-2272 | the import yields nothing other than the stored data |
| `Portfolio.ExpectedNewUsedRatioAsWritten` | pages/portfolio_page.py:2263-2299 | as written, a ratio can only be the corrected ratio |
| `Portfolio.ExpectedVehiclesSoldAsWritten` | pages/portfolio_page.py:2301-2344 | as written, a count can only be the corrected count |
| `Portfolio.CalculatorsAsWrittenReturnNone` | pages/portfolio_page.py:2270-2310 | as written, both calculators always return None |
| `Portfolio.SummaryVerdictMeaning` | pages/portfolio_page.py:2411-2422 | the three-branch summary passes exactly when some comparison passed |
| `Portfolio.SummaryOfTwo` | pages/portfolio_page.py:2411-2422 | two comparisons: passes exactly when one of them passed |
| `Portfolio.SummaryOfThree` | pages/portfolio_page.py:2796-2807 | three comparisons: passes exactly when one of them passed |
| `Portfolio.RatioCheck` | pages/portfolio_page.py:2364-2383 | a comparison exactly when the tooltip has the ratio and an expected ratio exists; it passes exactly when the shown ratio parses and lies within 5% of the expected one |
| `Portfolio.VehiclesCheck` | pages/portfolio_page.py:2386-2406 | a comparison exactly when the tooltip has the count and an expected count exists; it passes exactly when the shown count parses and lies within 0.1 of the expected one |
| `Portfolio.TooltipVerdict` | pages/portfolio_page.py:2346-2426 | the tooltip verdict; `Portfolio.TooltipVerdictMeaning` states that it passes exactly when the tooltip was read and one figure matches |
| `Portfolio.TooltipVerdictMeaning` | pages/portfolio_page.py:2346-2426 | the tooltip passes exactly when it was read and one of its figures matches; never without an expected value |
| `Portfolio.NegativeRatioNeverMatches` | pages/portfolio_page.py:2368-2373 | a negative expected ratio gives an empty 5% band |
| `Portfolio.TooltipAsWrittenNeverPasses` | pages/portfolio_page.py:2346-2426 | as written, the tooltip check fails for every tooltip and history |
| `Portfolio.TooltipMatchingHistoryPasses` | pages/portfolio_page.py:2346-2426 | with the import corrected, a tooltip showing the recent vehicle count passes |
| `Portfolio.CleanNumericValue` | pages/portfolio_page.py:2813-2822 | "" gives None; a number needs something left after removing `,` `$` `%` and trimming |
| `Portfolio.CleanDollarAmount` | pages/portfolio_page.py:2813-2822 | "$n" cleans to n |
| `Portfolio.CleanPercentage` | pages/portfolio_page.py:2813-2822 | "n%" cleans to n |
| `Portfolio.NumericCheck` | pages/portfolio_page.py:2721-2764 | a comparison only when both values are present and parse, and then pass exactly within 0.01 |
| `Portfolio.RadiusCheck` | pages/portfolio_page.py:2767-2790 | a comparison exactly when both radius values are present |
| `Portfolio.RadiusSameNumberPasses` | pages/portfolio_page.py:2767-2790 | the same number of miles passes whatever unit text follows |
| `Portfolio.RadiusDifferentNumbersFail` | pages/portfolio_page.py:2767-2790 | different numbers fail whatever follows them |
| `Portfolio.FniPvrVerdict` | pages/portfolio_page.py:2696-2811 | the F&I / PVR / radius verdict; `Portfolio.FniPvrVerdictMeaning` states that it passes exactly when both pages were read and one comparison passed |
| `Portfolio.FniPvrVerdictMeaning` | pages/portfolio_page.py:2696-2811 | passes exactly when both pages were read and one of the three comparisons passed |
| `Portfolio.SameFniPasses` | pages/portfolio_page.py:2700-2807 | the same parsable F&I value on both pages passes |
| `Portfolio.SearchMeaning` | pages/portfolio_page.py:2861-2874 | a control is found exactly when some selector located a displayed element, which is kept; none is held only when every wait timed out |
| `Portfolio.FindControl` | pages/portfolio_page.py:2861-2874 | the selector loop computes exactly the search |
| `Portfolio.CountFour` | pages/portfolio_page.py:2922-2938 | the sum of four flags counts the true ones |
| `Portfolio.BuilderZoomVerdict` | pages/portfolio_page.py:2922-2938 | the builder zoom rule; `Portfolio.BuilderZoomVerdictMeaning` states that any one flag passes it |
| `Portfolio.BuilderZoomVerdictMeaning` | pages/portfolio_page.py:2922-2938 | the builder zoom check passes exactly when any one of its four flags is set |
| `Portfolio.TryClick` | pages/portfolio_page.py:2876-2889 | clickable exactly when an element is held and enabled; responsive exactly when the click then works |
| `Portfolio.ValidateBuilderZoom` | pages/portfolio_page.py:2824-2942 | the flags are those of the two searches and clicks, the verdict follows the rule, and a pass needs some located element |
| `Portfolio.BuilderZoomPassesWhenShown` | pages/portfolio_page.py:2861-2938 | a displayed zoom-in control alone makes the check pass |
| `Portfolio.MainZoomVerdict` | pages/portfolio_page.py:3293-3305 | the main zoom rule; `Portfolio.MainZoomVerdictMeaning` states that it passes exactly when both buttons are clickable or either responds |
| `Portfolio.MainZoomVerdictMeaning` | pages/portfolio_page.py:3293-3305 | the main zoom check passes exactly when both buttons are clickable or either one responds |
| `Portfolio.ClassifyMeaning` | pages/portfolio_page.py:3053-3064 | the min field is found exactly when some field mentions `min`; the max field exactly when some field mentions `max` without mentioning `min` |
| `Portfolio.ClassifyFields` | pages/portfolio_page.py:3053-3064 | the field loop computes exactly the classification |
| `Portfolio.MinMaxVerdict` | pages/portfolio_page.py:3157-3175 | the revenue rule; `Portfolio.MinMaxVerdictMeaning` states that it is exactly "both fields found" |
| `Portfolio.MinMaxVerdictMeaning` | pages/portfolio_page.py:3157-3175 | the revenue verdict is exactly "both fields found" |
| `Portfolio.ValidateMinMaxRevenue` | pages/portfolio_page.py:2944-3179 | passes exactly when both the min and the max field were found |
| `Portfolio.RevenueFoundBySelectors` | pages/portfolio_page.py:2994-3019 | displayed fields from both selector searches make the check find both |
| `Portfolio.RevenueFromGeneralSearch` | pages/portfolio_page.py:3021-3064 | when neither selector search finds a field, both are found exactly when the general fields mention `min` and, separately, `max` |

## Left out

- Browser, waits and sleeps: every Selenium call (`find_element(s)`, explicit waits, `is_displayed`, `is_enabled`, `click`, JavaScript execution, hovering, screenshots) is represented by its outcome, passed in as data. Timing, retries inside a wait and the page's real behaviour are not modelled.
- Logging and console output are left out; they do not affect any result.
- File I/O: reading YAML and JSON files is an input (the parsed document or a failure), and `save_locators`, `save_test_data`, `create_test_data_file`, `export_json_report`, `generate_html_report` and the CSS/JavaScript templates are not modelled. Only the row and step fragments of the report are.
- Dictionary iteration order: `list_page_elements` and `list_all_pages` return sets. Python lists in insertion order.
- Non-dictionary YAML/JSON values: locator entries are modelled as XPath strings or message tables. Other shapes (which would raise a TypeError in lookups) are not.
- Text: `lower`, `strip` and `\d` are modelled on ASCII only: `strip` removes the ASCII characters Python counts as whitespace (including 0x1C-0x1F), but not Unicode spaces such as U+00A0. `float()` is modelled for plain decimal notation (no exponents, `inf`, `nan` or underscores), with exact reals instead of binary floating point.
- Time: `time.time()` and `datetime.now()` are parameters.
- Report markup: a table row is modelled without the indentation and line breaks of its f-string template, and the duration's `:.2f` is modelled as rounding halves up.
- Reports.ExecutionDuration: the rendering beyond a day (`D day[s], H:MM:SS`) is modelled, but the contracts state only the "N/A" case and the under-a-day clock (`Reports.ElapsedClock`).
- Reports.SuccessPercentage: uses exact division, not Python's float result; the bound [0, 100] is stated under the counter invariant.
- The outer `except Exception` of each page check, which catches unexpected driver errors, is not modelled beyond the outcomes passed in.
- The main map zoom check's repeated zoom clicks and the min>max interaction (clearing, typing, searching for an error message) are represented by their flags. Neither changes the verdict, which depends only on the flags proved to decide it.
- The data-extraction helpers (`extract_and_store_sales_data`, the radius and portfolio table readers, the hover tooltip reader, the general revenue field collection) are inputs; only the checks that consume their output are modelled.
- Valuations: a compared value is a number, a string or None (`FieldValue`). A Python bool, which `isinstance(v, (int, float))` also accepts as a number, is not modelled.
- `TestData`: scenarios are fixed six-field records rather than free-form dictionaries.
- BaseTest.LoadConfig: `DEFAULT_CONFIG.copy()` is shallow, so the nested sections of the class configuration and of the module constant are shared objects. The model works on values, so that sharing is not captured.
- BaseTest.Suite.AttemptLogin: a `KeyError` on a missing `base_url` and other exceptions in the form route are folded into the outcome passed in.
- `_create_driver`, the real Chrome options and `_create_mock_driver`'s element stubs are replaced by the `Browser.Driver` state.
- `SessionReuse`: `REUSE_BROWSER_SESSION` is a parameter; the cookies saved from the browser are an input of the full-login outcome.

## Findings

| source | as written | input that shows it | evidently intended | confidence | as-written member | corrected member |
|---|---|---|---|---|---|---|
| base/base_test.py:298 | the submit button is looked up with `By.TYPE`, which Selenium's `By` does not define, so the AttributeError is caught and `_simulate_login` always fails | any configuration and any login form | look the button up with `By.CSS_SELECTOR, "button[type='submit']"` | not executed | `BaseTest.SimulateLoginAsWrittenNeverSucceeds`; the class methods `BaseTest.Suite.SimulateLogin` and `BaseTest.Suite.AttemptLogin` take the lookup as a parameter | `BaseTest.SimulateLoginCorrectedSucceeds` |
| pages/portfolio_page.py:2270 | both calculators import `BaseTest` from `base.base_test`, which defines only `OptimizedBaseTest`, and read `stored_financials_data`, which nothing defines; the ImportError is swallowed, so both return None and the tooltip check can never pass | stored sales data with new sales [1, 1, 1], used sales [1, 1, 1] and a tooltip showing `vehicles_sold` "6" | read the stored financials from where they are kept, so the calculators see the history | not executed | `Portfolio.CalculatorsAsWrittenReturnNone` | `Portfolio.TooltipMatchingHistoryPasses` |

The main-page zoom check's comment says both buttons must be clickable, but the
rule it applies (at least two of four flags) also passes with a single button
that was clicked and stayed visible (`Portfolio.MainZoomVerdictMeaning`).
