# BC Hydro client, modelled in Dafny

This project models the core of the BC Hydro Home Assistant integration. The core is the
`BCHydroApi` client of `api.py` and the record types of `types.py`. The client logs in to the
BC Hydro customer portal with a headless browser, opens the consumption view and reads the
`#consumptionTableSection` fragment. It then checks the fragment for error alerts and parses the
consumption table into daily readings. It caches the resulting snapshot and its latest reading
for the three `get_latest_*` accessors.

Modules, one per concern:

- `Base` (`base.dfy`): `Option`, `Result`, the last element of a list, and Python's `xs[1:]`.
- `Text` (`text.dfy`): digit strings, `str.join`, `str.replace(c, "")`, ASCII case mapping and
  `str.find`.
- `Numbers` (`numbers.dfy`): Python's `float()` on the decimal spellings the portal shows,
  giving an exact `Decimal`, and the matching formatter.
- `Dates` (`dates.dfy`): `datetime.strptime(s, "%b %d, %Y")` for English month abbreviations,
  the matching formatter, and the `YYYY-MM-DD 00:00:00` text that `str(datetime)` gives.
- `Exceptions` (`exceptions.dfy`): the exception kinds the core raises, as one datatype.
  - `AuthError` is `BCHydroAuthException`, with its message prefix and its chained cause.
  - `InvalidHtml` is `BCHydroInvalidHtmlException`.
  - `AlertDialog` is `BCHydroAlertDialogException`.
  - The Python built-ins `ValueError`, `IndexError`, `KeyError` and `AttributeError` keep their names.
  - Browser-library failures are `BrowserError`.
- `Types` (`types.dfy`): `BCHydroRates`, `BCHydroInterval` with its `__repr__`,
  `BCHydroDailyElectricity`, `BCHydroAccount.from_json` and `BCHydroDailyUsage`.
- `Markup` (`markup.dfy`): `_validate_html` and `_parse_consumption_data`.
  - The parser is a method with the source's `for`/`continue`/`append` loop.
  - It is proved equal to a recursive specification.
  - Lemmas state what that specification yields.
- `Api` (`api.dfy`): the `BCHydroApi` class, whose fields are the client's.
  - Its methods `EnsureBrowser`, `Authenticate`, `Refresh` and `GetLatestUsage`/`Cost`/`Interval` are proved to move the fields as pure transition functions over a `Session` value say.
  - The lemmas state the behaviour of those transition functions.

The parsed HTML is abstract.
- A fragment is its raw text together with a `Document`.
- The `Document` lists the elements in document order, each with its CSS classes and its stripped text.
- It also holds the rows of the `consumptionTable` element, when there is one. Each row is the list of the stripped texts of its `<td>` cells.

Every browser interaction is an input describing its outcome:
- `Launch`: starting Chromium and opening a page;
- `Login`: the login sequence, the error banner and the account chooser;
- `Fetch`: opening the consumption view and reading the fragment.

An exception is a returned `Option<Error>` or `Result`.

Behaviour of the code worth knowing, each stated as the model has it:

- A retained row whose date, consumption or cost does not parse aborts the whole parse with
  `ValueError`; it is not skipped (`Markup.MalformedRowAborts`).
- A table with no retained row fails at `electricity[0]` with `IndexError`
  (`Markup.ParseConsumptionEmpty`).
- Rows of fewer than four cells are dropped, so a table of three-cell rows yields `IndexError`
  (`Markup.ThreeCellRowsAreDropped`). The same two days as four-cell rows parse to two readings
  (`Markup.ExampleTableParses`, `Api.ExampleSession`).
- `_authenticate` runs before `refresh`'s `try`, so its exceptions are not re-wrapped. A failure
  to start the browser reaches the caller as the browser library's own exception, not as
  `BCHydroAuthException` (`Api.RefreshErrors`).
- If Chromium starts but `new_page` fails, `_browser` is set and `_page` is not. `_ensure_browser`
  never retries, so every later login fails with "Browser page not initialized"
  (`Api.NewPageFailureLeavesNoPage`, `Api.PageFailureIsPermanent`).
- `_account` is never assigned, so every snapshot carries no account (`Api.AccountNeverAssigned`).
- The accessors' `0.0`/`None` fallback is never returned after a successful refresh.
  - A successful refresh always sets `_latest_point`, because a parse with no reading fails (`Api.AccessorsRefreshWhenEmpty`).
  - The fallback is only reachable in a state the client never enters.

## Model

| member | source | states |
|---|---|---|
| Types.NewInterval | types.py:14-19 | an interval built from a start and an end has those days and no billing-period end |
| Types.IntervalRepr | types.py:21-22 | the repr of an interval of two valid days is always 67 characters: the wrapper around two `YYYY-MM-DD 00:00:00` texts |
| Types.IntervalReprIgnoresBillingPeriodEnd | types.py:21-22 | the repr of an interval does not depend on its billing-period end |
| Types.IntervalReprDeterminesDays | types.py:21-22 | two intervals with the same repr have the same start and end |
| Types.NewDailyElectricity | types.py:24-30 | a reading built without `is_estimate` keeps its consumption, cost and interval and is not an estimate |
| Types.AccountFromJson | types.py:50-58 | succeeds exactly when all five keys are present, and then maps each JSON key to its field unchanged |
| Types.AccountJsonRoundTrip | types.py:50-58 | an account written out under the five JSON keys reads back as itself, and a successful read reads only those keys |
| Types.AccountFromJsonMissingKey | types.py:52-57 | the first missing key, in subscript order, is the KeyError raised |
| Numbers.ParseFloat | api.py:150-151 | a parsed number comes from a non-empty text and is negative exactly when the text starts with `-` |
| Numbers.ParseFormatRoundTrip | api.py:150-151 | every decimal, written out with its scale, parses back to itself |
| Dates.StrpTime | api.py:153 | every date it accepts is a real calendar date in years 1 to 9999 |
| Dates.StrpTimeFormatRoundTrip | api.py:153 | every valid date written as `Mon D, YYYY` parses back to itself |
| Dates.IsoFormatInjective | types.py:21-22 | different dates print differently in `str(datetime)` form |
| Text.RemoveAll | api.py:151 | the result holds no `$` and every other character of the cell, in the same numbers; a text without `$` is unchanged |
| Text.RemoveAllSingle | api.py:151 | one character is removed exactly when it is `$`, and kept otherwise |
| Text.RemoveAllAppend | api.py:151 | removal from two joined texts is the removal from each, joined in the same order, so the kept characters keep their order |
| Text.JoinContains | api.py:108 | every part occurs in the joined string |
| Markup.VisibleAlertTexts | api.py:106-107 | at most one text is collected per element |
| Markup.NoVisibleAlerts | api.py:106-107 | the list of alert texts is empty exactly when no element is a visible `.alert.error` |
| Markup.AlertsCons | api.py:106-107 | an element contributes its own text, ahead of the later elements' texts, exactly when it is a visible alert |
| Markup.AlertsAppend | api.py:106-107 | the texts of two runs of elements are the first run's texts followed by the second's, so the list keeps document order with one text per visible alert |
| Markup.VisibleAlertTextsComplete | api.py:106-108 | the texts collected are exactly the texts of the visible alerts |
| Markup.ValidateHtml | api.py:98-111 | an empty fragment fails with InvalidHtml before the alert scan. Otherwise any visible alert fails with AlertDialog "Alert dialog detected: " plus the alert texts joined by spaces. Success happens exactly when neither applies, and returns the document |
| Markup.AlertMessageNamesEveryAlert | api.py:106-109 | the alert-dialog message contains the text of each visible alert |
| Markup.ParseRow | api.py:149-165 | a row that does not parse fails with `ValueError` |
| Markup.ParseRowOutcome | api.py:149-164 | a row succeeds exactly when the consumption, the dollar-stripped cost and the date parse. The reading is then a same-day interval with those values, no billing-period end and not an estimate. Otherwise the error is a ValueError |
| Markup.CostCell | api.py:151 | a cost written with a leading dollar sign loses only the dollar sign and parses back to the cost |
| Markup.PortalCells | api.py:149-153 | the date, consumption and dollar cost cells of a reading each parse back to that field |
| Markup.RowRoundTrip | api.py:149-164 | a row whose first three cells are a reading as the portal writes it, cost with a dollar sign, reads back as that reading, whatever its other cells |
| Markup.Retained | api.py:144-147 | every row kept has at least four cells, and no more rows are kept than given |
| Markup.RetainedSingle | api.py:144-147 | one row is kept exactly when it has at least four cells |
| Markup.RetainedAppend | api.py:144-147 | the rows kept from two runs of rows are those kept from the first followed by those kept from the second, so every row of four or more cells is kept, in order |
| Markup.ParseRows | api.py:143-165 | a list that cannot be built fails with `ValueError` |
| Markup.ParseRowsRetained | api.py:143-165 | the list is built exactly when every row of four or more cells parses. It then has one reading per such row, in row order |
| Markup.ParseRowsFirstFailure | api.py:143-165 | a failed list reports the error of the first retained row that does not parse |
| Markup.ParseRowsPrefixFailure | api.py:143-165 | once a prefix of the rows fails, the whole list fails with the same error |
| Markup.ParseConsumption | api.py:136-180 | a missing table fails with "Consumption table not found"; a snapshot carries the client's account, the current rates and at least one reading |
| Markup.ParseConsumptionData | api.py:136-180 | the loop with `continue` and `append` computes exactly the parse specification |
| Markup.ParseConsumptionRetained | api.py:136-180 | the parse succeeds exactly when at least one row is retained and all retained rows parse. The snapshot then has one reading per retained row in order. Its interval runs from the first row's date to the last's, and it carries the fixed rates and the client's account |
| Markup.ParseConsumptionEmpty | api.py:138-172 | a missing table fails with InvalidHtml "Consumption table not found", and a table with no retained row fails with IndexError |
| Markup.MalformedRowAborts | api.py:149-153 | a retained row that does not parse makes the whole parse fail with ValueError |
| Markup.HeaderRowIgnored | api.py:144 | the first row never affects the result |
| Markup.SnapshotSpan | api.py:168-174 | the first and last readings of a parsed list carry the dates of the first and last retained rows |
| Markup.TwoPortalRows | api.py:136-180 | any header followed by two portal rows parses to those two readings, spanning the first day to the second |
| Markup.ExampleTableText | api.py:149-153 | the two example rows read "Jan 1, 2024", "10.5", "$1.00" and "Jan 2, 2024", "12.0", "$1.20" |
| Markup.ExampleTableParses | api.py:136-180 | a header row plus two days gives readings 10.5 kWh/$1.00 and 12.0 kWh/$1.20, spanning Jan 1 to Jan 2 2024, with the fixed rates |
| Markup.ThreeCellRowsAreDropped | api.py:144-147 | the same two days as three-cell rows are all dropped and the parse fails with IndexError |
| Api.BCHydroApi.constructor | api.py:34-45 | a new client holds its credentials, has no browser, is not authenticated and caches nothing |
| Api.BCHydroApi.EnsureBrowser | api.py:47-56 | starts the browser and a page only when no browser exists, and keeps the client consistent |
| Api.BCHydroApi.Authenticate | api.py:58-96 | moves the fields and raises exactly as the login transition says |
| Api.BCHydroApi.Refresh | api.py:113-134 | moves the fields and raises exactly as the refresh transition says, parsing through `ParseConsumptionData` |
| Api.BCHydroApi.FetchAndParse | api.py:120-128 | fetches, validates and parses exactly as the fetch step of the refresh transition says |
| Api.BCHydroApi.GetLatestUsage | api.py:182-186 | refreshes only when no reading is cached, and returns the latest reading's consumption |
| Api.BCHydroApi.GetLatestCost | api.py:188-192 | refreshes only when no reading is cached, and returns the latest reading's cost |
| Api.BCHydroApi.GetLatestInterval | api.py:194-202 | refreshes only when no reading is cached, and returns the latest reading's start, end and billing-period end |
| Api.StepsPreserveConsistency | api.py:58-134 | every operation keeps these invariants: a login needs a page, a page needs a browser, and the cached latest reading is the last reading of the cached snapshot |
| Api.AccountNeverAssigned | api.py:168-169 | no operation changes the account, and every snapshot a refresh caches carries the client's account |
| Api.AuthenticateOutcome | api.py:58-96 | login is memoised. The flag is set exactly when no exception is raised, and the cache is untouched. Every failure is BCHydroAuthException except a failure to start the browser |
| Api.LoginBannerFails | api.py:81-96 | an error banner fails the login with "Login failed: " plus its text, wrapped in "Authentication failed: ", and leaves the flag clear |
| Api.RefreshOutcome | api.py:113-134 | a refresh succeeds exactly when the login, fetch, validation and parse succeed. It then caches the new snapshot and its last reading and stays authenticated. Any failure clears the flag and keeps the previous cache |
| Api.RefreshErrors | api.py:113-134 | every refresh failure is BCHydroAuthException except a browser-start failure from `_authenticate`. A failure after login is "Failed to refresh data: " with its cause |
| Api.AlertFailsRefresh | api.py:124-134 | a fragment showing an error alert fails the refresh with an alert-dialog cause, whatever the table holds, and keeps the cache |
| Api.RefreshIdempotent | api.py:113-134 | a second refresh against the same markup needs no login and caches an equal snapshot |
| Api.AccessorsUseCache | api.py:182-202 | with a cached reading the accessors return its consumption, cost and interval and change nothing |
| Api.AccessorsRefreshWhenEmpty | api.py:182-202 | with no cached reading the accessors refresh. They return its error, or the last reading fetched, never the fallback |
| Api.PageFailureIsPermanent | api.py:63-65 | with a browser but no page, every refresh fails with "Browser page not initialized" and changes nothing |
| Api.NewPageFailureLeavesNoPage | api.py:49-56 | a `new_page` failure on a new client leaves a browser without a page |
| Api.FirstRefresh | api.py:113-186 | a new client whose login succeeds and whose fragment parses reports the table's last reading |
| Api.ExampleSession | api.py:113-186 | on the two-day example a new client reports 12.0 kWh and $1.20 for Jan 2 2024 |
| Api.BannerKeepsCache | api.py:81-116 | an error banner at login makes the refresh fail with BCHydroAuthException and keeps the cached snapshot |

## Left out

- Browser control through Playwright is not modelled: the `goto`, `fill`, `click`, `wait_for_*`, `query_selector*` and `inner_html` calls, and `__aexit__`'s browser close (api.py:204-211). These are foreign asynchronous I/O. Each browser step is an input giving its outcome.
- The `asyncio.gather` of the navigation wait and the submit click (api.py:76-79) is one atomic `submit` step. Concurrency is not modelled.
- The HTML parser and CSS selector engine are not modelled.
  - The document is abstract: elements with class sets and stripped text, and the table as rows of stripped cell texts.
  - `get_text(strip=True)` is assumed already applied.
- Numbers.ParseFloat accepts only an optional sign, then ASCII digits, then an optional point with ASCII digits after it. Python's `float()` also accepts exponents, `inf`/`nan`, underscores, surrounding whitespace, `5.` and `.5`, and non-ASCII Unicode decimal digits (`float("１２")` is 12.0). The model refuses those inputs.
- Numbers are exact decimals, not binary floating point. Rounding is not modelled, and the rate constants 0.0954, 0.1427 and 1332.0 are kept as exact decimals.
- Dates.StrpTime is a simplified `strptime`:
  - exactly one space after the month and after the comma;
  - English month abbreviations in any ASCII case (Python's `re` matches `%b` with Unicode case folding, so for example `ſ` also matches `s`; the model does not);
  - a day of one or two ASCII digits;
  - a year of exactly four ASCII digits.

  Locales, runs of whitespace and non-ASCII digits are not modelled.
- Readings carry calendar dates, not `datetime` values. The time of day is always midnight in the source and is left out.
- Exceptions carry a message prefix and the chained cause rather than the formatted `str(err)` text.
- `Types.IntervalRepr` is stated for dates printed as `YYYY-MM-DD 00:00:00` only.
- Rows are held as the stripped cell texts, so the `$` removal applies to the already-stripped cost cell.
- config_flow.py, sensor.py, coordinator.py, __init__.py and const.py are not part of this model. They are host-platform setup, entity and scheduling glue, and constants (URLs, user agent).
- `ENUM_CURRENT_BILLING_PERIOD` and the billing-period end are never set by the core, so the billing-period end is always absent in parsed readings.
