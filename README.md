# MyBCA scraper, modelled and verified in Dafny

This project models the core of a scraper for the MyBCA internet-banking portal: the
`MyBcaBankScrapper` class and its date helper. It proves properties of that model.

The scraper drives a browser through the portal:
- it logs in;
- it reads the current balance from the dashboard;
- on the statement page it optionally selects a date range with the portal's year/month/day picker;
- it turns the statement table into `BankTransaction` records, whose external id is an md5 digest over six fields;
- it logs out and closes the browser.

The browser is replaced by a fixed in-memory `Portal` value. It says:
- whether a launch succeeds;
- which URLs fail to load and which elements never appear;
- whether the navigation after the login submit settles;
- the texts the page shows: the balance, the account number and the table rows;
- the date-picker widget: year-range pages with a label such as `"2016 - 2027"` and a year grid, plus the month and day grids of `(text, disabled, hasSpan)` cells.

Every browser call the scraper makes is appended to the object's `trace`, so
statements such as "login ran first" and "no range was selected" can be made about a
call.

Files:
- `wrappers.dfy` (`Option`, `Result`);
- `jstext.dfy` (the JavaScript string built-ins used: `split`, `join`, `trim`, `parseInt`, the non-digit stripping `replace`, decimal rendering);
- `helper.dfy` (`monthsIdn`, `decomposeDate`);
- `calendar.dfy` (the picker widget, the label parse, the year-range loop and the grid search);
- `statement.dfy` (row extraction, amount and type parsing, `formatterDateBca`, record and external-id construction);
- `scraper.dfy` (the portal stand-in, the action trace, the outcome functions and the `MyBcaBankScrapper` class).

The class keeps the source's mutable fields:
- `hasLoggedIn`, `browser`, `page` and `waitOptions` (`defaultWaitForOptions`);
- `browserClosed`, which records that the browser was closed;
- `yearIdx`, the picker page shown;
- `trace`.

Its methods are imperative, and `Run` awaits calls one after another in a loop. Each
method is proved against an outcome function (`LoginOutcome`, `ReadBalance`,
`ChooseOutcome`, `TransactionsOutcome`, and so on). Those functions are then
characterised by lemmas.

Some outcome and trace functions only join characterised pieces in the order the
source awaits them, and have no contract of their own:
- `TurnPickOutcome`/`TurnPickTrace`: the paging loop, then the picks on the page it lands on;
- `MonthDayTrace`: the month pick, then the day pick unless the month pick threw;
- `BoundsOutcome`/`BoundsTrace`: the start choice, then `EndOutcome`/`EndTrace` unless it threw;
- `EndOutcome`/`EndTrace`: the end choice, then the submit unless it threw;
- `AfterNavOutcome`/`AfterNavTrace`: the range selection when both bounds are given, then the statement's reading unless the selection threw;
- `HomeEnd`: the end year of the label of the page the year view opens on.

The methods that page and pick in the picker require an open browser. Their one
caller runs them only after the year view opened, which a closed browser refuses
(`HeaderNeedsOpen`).

A few things are parameters rather than definitions:
- md5 (`md5: string -> string`);
- the string a JavaScript `Date` becomes inside a template literal (`showDate`);
- `new Date().getFullYear()` (`currentYear`).

`chooseDate` returns nothing in the source. The model's `ChooseDate` returns the
year page it left the picker on, so the landing can be stated.

Three behaviours of the code worth noting:
- An amount or balance text without any digit gives NaN (`None`), not a parse error. `parseInt("")` is NaN and nothing checks for it.
- `close` closes the browser but leaves the `browser`, `page` and `hasLoggedIn` fields as they are. A later `login` therefore reuses the closed page and fails with `SessionClosed`.
- `logout` does not reset `hasLoggedIn`.

## Model

| member | source | states |
|---|---|---|
| Helper.MonthsIdnDistinct | src/utils/Helper.ts:2-15 | the month table has exactly twelve entries and they are pairwise distinct |
| Helper.DecomposeDate | src/utils/Helper.ts:17-24 | the month is 1..12 and the month name is the table entry of that month |
| Helper.MonthNumber | src/utils/Helper.ts:2-15 | inverse of the table lookup: a found number names `name`; no number means `name` is not in the table |
| Helper.MonthNumberFrom | src/utils/Helper.ts:2-15 | the search from position `i` finds a number whose table entry is `name`, or proves no later entry is |
| Helper.DecomposeDateSpec | src/utils/Helper.ts:17-24 | year and day pass through, month is month0 + 1, and the month name maps back to the month |
| Helper.MonthNameDeterminesMonth | src/utils/Helper.ts:17-24 | two dates with the same month name have the same month |
| JsText.DigitChar | src/scrapper/MyBcaBankScraper.ts:362 | the digit character of `d` reads back as `d` |
| JsText.NatToString | src/scrapper/MyBcaBankScraper.ts:362 | `toString` of a non-negative number is a non-empty digit string |
| JsText.DigitsValueOfNatToString | src/scrapper/MyBcaBankScraper.ts:362 | the rendering of `n` has value `n` (round trip) |
| JsText.StripNonDigits | src/scrapper/MyBcaBankScraper.ts:179 | `replace(/[^0-9]/g, "")` leaves only digits and never lengthens the text |
| JsText.StripNonDigitsKeepsDigits | src/scrapper/MyBcaBankScraper.ts:179 | a character survives the stripping exactly when it is a digit of the text |
| JsText.StripNonDigitsAppend | src/scrapper/MyBcaBankScraper.ts:179 | stripping distributes over concatenation |
| JsText.StripNonDigitsOfDigits | src/scrapper/MyBcaBankScraper.ts:179 | a text of digits is unchanged |
| JsText.StripNonDigitsOfNoDigit | src/scrapper/MyBcaBankScraper.ts:179 | a text without digits strips to the empty string |
| JsText.TrimStart | src/scrapper/MyBcaBankScraper.ts:130 | the result is a suffix of the text, does not start with white space, and only white space was dropped |
| JsText.TrimEnd | src/scrapper/MyBcaBankScraper.ts:130 | the result is a prefix of the text, does not end with white space, and only white space was dropped |
| JsText.Trim | src/scrapper/MyBcaBankScraper.ts:130 | never longer than the text, and neither starts nor ends with white space |
| JsText.TrimOfNoSpaces | src/scrapper/MyBcaBankScraper.ts:198 | `trim` leaves a text without white space unchanged |
| JsText.StripNonDigitsOfTrim | src/scrapper/MyBcaBankScraper.ts:130 | trimming before stripping does not change the digits kept |
| JsText.DigitPrefixLength | src/scrapper/MyBcaBankScraper.ts:260 | the prefix counted is all digits and the next character is not a digit |
| JsText.ParseInt | src/scrapper/MyBcaBankScraper.ts:260 | a number only when the text has a digit, and a negative one only when the text, after its leading white space, starts with `-` |
| JsText.ParseIntOfDigits | src/scrapper/MyBcaBankScraper.ts:179 | `parseInt` of a non-empty digit string is its decimal value |
| JsText.ParseIntOfNatToString | src/scrapper/MyBcaBankScraper.ts:317 | `parseInt` reads a rendered number back (round trip) |
| JsText.ParseIntOfNoDigit | src/scrapper/MyBcaBankScraper.ts:179 | `parseInt` of a text without digits is NaN |
| JsText.IndexOf | src/scrapper/MyBcaBankScraper.ts:378 | a found position is an occurrence of the separator |
| JsText.IndexOfSpec | src/scrapper/MyBcaBankScraper.ts:378 | the position is the first occurrence; -1 means there is no occurrence at all |
| JsText.Split | src/scrapper/MyBcaBankScraper.ts:378 | `split` always yields at least one piece |
| JsText.SplitPiecesFree | src/scrapper/MyBcaBankScraper.ts:378 | no piece of a split contains the separator |
| JsText.Join | src/scrapper/MyBcaBankScraper.ts:378 | the first piece begins the joined text, and the separator follows it when there are more pieces |
| JsText.JoinSplit | src/scrapper/MyBcaBankScraper.ts:378 | joining the pieces with the separator gives the text back (round trip) |
| JsText.SplitAtFirst | src/scrapper/MyBcaBankScraper.ts:260 | when `x` cannot begin the separator, the split of `x + sep + y` starts with the piece `x` |
| JsText.SplitOfNoSeparatorChar | src/scrapper/MyBcaBankScraper.ts:261 | a text without the separator's first character splits into itself alone |
| Calendar.LabelOfRange | src/scrapper/MyBcaBankScraper.ts:260-261 | a label "a - b" of two rendered numbers reads back as start `a` and end `b` |
| Calendar.LabelStart | src/scrapper/MyBcaBankScraper.ts:260 | a start year only when the label has a digit |
| Calendar.LabelEnd | src/scrapper/MyBcaBankScraper.ts:261 | no end year (NaN) when the label has no " - " |
| Calendar.StartYears | src/scrapper/MyBcaBankScraper.ts:260 | one start year per page |
| Calendar.StartYearsAt | src/scrapper/MyBcaBankScraper.ts:260 | entry `i` is the parsed first piece of page `i`'s label |
| Calendar.EndYears | src/scrapper/MyBcaBankScraper.ts:261 | one end year per page |
| Calendar.EndYearsAt | src/scrapper/MyBcaBankScraper.ts:261 | entry `i` is the parsed second piece of page `i`'s label, NaN without one |
| Calendar.Paginate | src/scrapper/MyBcaBankScraper.ts:264-304 | the loop as written lands on an existing page |
| Calendar.PaginateStartLands | src/scrapper/MyBcaBankScraper.ts:264-267 | a start bound lands on the nearest page at or before the shown one whose start year is at most the target; it moved only if the button was there |
| Calendar.PaginateStartFails | src/scrapper/MyBcaBankScraper.ts:273-291 | the disabled-button error happens exactly when the button exists and no page at or before the shown one starts early enough; the missing-button error exactly when the button is absent and the shown page does not stop the loop |
| Calendar.PaginateEndBound | src/scrapper/MyBcaBankScraper.ts:261-304 | an end bound stops at once when the end year read before the loop covers the target; otherwise it fails (disabled or missing button) whatever later pages cover |
| Calendar.PaginateStartIgnoresEnd | src/scrapper/MyBcaBankScraper.ts:265-267 | a start bound after the shown range still stops at once (no upper-bound check) |
| Calendar.PaginateCorrected | src/scrapper/MyBcaBankScraper.ts:264-304 | the intended loop lands on an existing page |
| Calendar.PaginateCorrectedStart | src/scrapper/MyBcaBankScraper.ts:264-304 | for a start bound the corrected loop equals the loop as written |
| Calendar.PaginateCorrectedEndBound | src/scrapper/MyBcaBankScraper.ts:269-303 | the corrected end-bound loop lands on the nearest page whose end year covers the target, and fails with the disabled button exactly when no page does |
| Calendar.EndBoundDefectExample | src/scrapper/MyBcaBankScraper.ts:261-303 | pages 2016-2027 and 2028-2039 and target 2030: as written the loop fails, corrected it lands on the second page |
| Calendar.Flatten | src/scrapper/MyBcaBankScraper.ts:311-315 | the first row's cells begin the flattened grid |
| Calendar.FlattenAt | src/scrapper/MyBcaBankScraper.ts:311-315 | cell `c` of row `r` sits at position `Offset(r) + c` of the flattened grid (row-major order) |
| Calendar.FlattenContains | src/scrapper/MyBcaBankScraper.ts:311-315 | every cell of the grid is kept |
| Calendar.OffsetMonotone | src/scrapper/MyBcaBankScraper.ts:311-315 | each row's cells come right after the previous row's |
| Calendar.Matches | src/scrapper/MyBcaBankScraper.ts:316-367 | only a year cell can match while disabled (the year search ignores the `disabled` class; month and day searches need an enabled cell) |
| Calendar.FindFirst | src/scrapper/MyBcaBankScraper.ts:316-320 | `find` returns an index inside the sequence |
| Calendar.FindFirstSpec | src/scrapper/MyBcaBankScraper.ts:316-320 | the found cell satisfies the test and no earlier one does; nothing found means no cell does |
| Calendar.FindCell | src/scrapper/MyBcaBankScraper.ts:335-342 | the matched position is a cell of the flattened grid |
| Calendar.FindCellFirst | src/scrapper/MyBcaBankScraper.ts:316-367 | the cell found is the first that matches; nothing found means no cell matches |
| Calendar.DisabledYearIsFound | src/scrapper/MyBcaBankScraper.ts:316-320 | a disabled year cell is still picked, while disabled month and day cells are skipped |
| Statement.ParseAmount | src/scrapper/MyBcaBankScraper.ts:179 | NaN exactly when the text has no digit; otherwise the decimal value of all its digits taken together |
| Statement.ParseAmountOfNatToString | src/scrapper/MyBcaBankScraper.ts:179 | a rendered amount reads back as itself |
| Statement.ParseAmountIgnoresSeparators | src/scrapper/MyBcaBankScraper.ts:179 | digit-free separators inside the text do not change the amount |
| Statement.ParseAmountOfRupiah | src/scrapper/MyBcaBankScraper.ts:179 | "Rp 1.234.567,00" reads as 123456700 |
| Statement.StripRupiah | src/scrapper/MyBcaBankScraper.ts:179 | "Rp 1.234.567,00" strips to "123456700" |
| Statement.ParseAmountOfStripped | src/scrapper/MyBcaBankScraper.ts:179 | with a non-empty digit remainder the amount is that remainder's value |
| Statement.StripSeparated | src/scrapper/MyBcaBankScraper.ts:179 | a digit-free separator contributes nothing to the digits |
| Statement.ParseAmountOfTrim | src/scrapper/MyBcaBankScraper.ts:130 | the balance's `trim` before stripping does not change the amount |
| Statement.TypeOf | src/scrapper/MyBcaBankScraper.ts:175-180 | the type is CR exactly when the amount cell has class `text-danger` |
| Statement.ParseRow | src/scrapper/MyBcaBankScraper.ts:173-188 | a row parses exactly when it has three cells; date, description, amount and type come from cells 0, 1 and 2 |
| Statement.ExtractRows | src/scrapper/MyBcaBankScraper.ts:171-188 | extraction succeeds exactly when every row has three cells; then there is one raw transaction per row |
| Statement.ExtractRowsAt | src/scrapper/MyBcaBankScraper.ts:173-188 | the raw transaction at each position is the parse of the row at that position |
| Statement.FormatterDateBca | src/scrapper/MyBcaBankScraper.ts:377-384 | the year is the supplied current year; the day is a "/"-free prefix of the text; the month is missing exactly when the text has no "/" |
| Statement.FormatterDateBcaOfDayMonth | src/scrapper/MyBcaBankScraper.ts:377-384 | "DD/MM" gives day "DD" and month "MM" of the current year |
| Statement.AmountText | src/scrapper/MyBcaBankScraper.ts:213 | a present amount renders as a non-empty digit string, NaN as a text without digits |
| Statement.AmountTextReadsBack | src/scrapper/MyBcaBankScraper.ts:213 | the rendered amount parses back to the amount, NaN included (round trip) |
| Statement.IdSource | src/scrapper/MyBcaBankScraper.ts:213 | the concatenation starts with bank code, account and date, and its length is the sum of the six fields' lengths |
| Statement.MakeRecord | src/scrapper/MyBcaBankScraper.ts:202-217 | bank code "BCA", the given account, the formatted date, the row's type, amount and name, and an external id that is the md5 of the six fields |
| Statement.BuildRecords | src/scrapper/MyBcaBankScraper.ts:202-218 | one record per raw transaction |
| Statement.BuildRecordsAt | src/scrapper/MyBcaBankScraper.ts:202-218 | the record at each position is built from the raw transaction at that position |
| Statement.RecordsShareAccount | src/scrapper/MyBcaBankScraper.ts:202-218 | every record of one call has bank code "BCA", the same account number and a matching external id |
| Statement.BuildRecordsAppend | src/scrapper/MyBcaBankScraper.ts:202-218 | records are built row by row: the records of two tables are the concatenation of each |
| Statement.SameFieldsSameId | src/scrapper/MyBcaBankScraper.ts:213-215 | records equal in the six fields have equal external ids |
| Statement.IdSourceCollides | src/scrapper/MyBcaBankScraper.ts:213 | without separators, amount 12 with name "3 TRANSFER" and amount 123 with name " TRANSFER" hash the same string |
| Scraper.ErrorOf | src/scrapper/MyBcaBankScraper.ts:86-106 | the error of a failing browser call is one a browser call throws |
| Scraper.SelectorsShared | src/scrapper/MyBcaBankScraper.ts:27-45 | targets taken for one element have one selector; the two submit buttons share `button[type=submit]` |
| Scraper.Ok | src/scrapper/MyBcaBankScraper.ts:234-238 | closing never throws, and after `close` only a new launch or a close succeeds |
| Scraper.Performed | src/scrapper/MyBcaBankScraper.ts:86-106 | an awaited run never makes more calls than it lists |
| Scraper.ScriptResult | src/scrapper/MyBcaBankScraper.ts:86-106 | a failed run fails with a browser-call error |
| Scraper.AllOkRun | src/scrapper/MyBcaBankScraper.ts:86-106 | when every call succeeds, all of them are made and the run succeeds |
| Scraper.SucceededAllOk | src/scrapper/MyBcaBankScraper.ts:86-106 | a run succeeds only when every call does |
| Scraper.FirstFailureAt | src/scrapper/MyBcaBankScraper.ts:86-106 | the first failing call ends the run, with its error, right after it |
| Scraper.PerformedIsPrefix | src/scrapper/MyBcaBankScraper.ts:86-106 | the calls made are the first calls of the run |
| Scraper.ClosedSessionFails | src/scrapper/MyBcaBankScraper.ts:234-238 | after `close`, the first page call throws and nothing after it is made |
| Scraper.OpenWhenSucceeded | src/scrapper/MyBcaBankScraper.ts:91 | a run that starts with a `goto` succeeds only on an open browser |
| Scraper.BrowserScript | src/scrapper/MyBcaBankScraper.ts:82-83 | two calls, the launch with the given options first |
| Scraper.BrowserScriptRun | src/scrapper/MyBcaBankScraper.ts:82-83 | a failed launch ends the run; after a launch, `newPage` decides the outcome |
| Scraper.LoginScript | src/scrapper/MyBcaBankScraper.ts:91-103 | the login calls start with the `goto` of the login page and end with the navigation wait |
| Scraper.LoginScriptTypesCredentials | src/scrapper/MyBcaBankScraper.ts:99-100 | the user id and the password are typed into their inputs, and every call is a page call |
| Scraper.LoginOutcome | src/scrapper/MyBcaBankScraper.ts:86-106 | a failed login fails with a browser-call error; a login on an existing page succeeds only when it is open |
| Scraper.LoginTrace | src/scrapper/MyBcaBankScraper.ts:86-89 | the calls start with a launch exactly when there is no page |
| Scraper.LoginTraceCases | src/scrapper/MyBcaBankScraper.ts:86-106 | `login` launches a browser first exactly when there is no page; a failed launch ends it |
| Scraper.LoginSucceedsIff | src/scrapper/MyBcaBankScraper.ts:86-106 | `login` succeeds exactly when the browser is usable, the login page loads, its three elements appear and the navigation after submit settles |
| Scraper.LoginTraceOnSuccess | src/scrapper/MyBcaBankScraper.ts:91-103 | a successful `login` made goto, the three waits, the two types, the click and the navigation wait, in that order, the navigation last |
| Scraper.AfterInit | src/scrapper/MyBcaBankScraper.ts:82-83 | a page exists afterwards only if it did before or a browser does now; a successful launch sets `browser` |
| Scraper.AfterLogin | src/scrapper/MyBcaBankScraper.ts:86-89 | with a browser and a page, `login` leaves the browser fields as they are |
| Scraper.LoginLeavesOpenPage | src/scrapper/MyBcaBankScraper.ts:86-105 | a successful `login` leaves an open browser and page behind |
| Scraper.BalanceScript | src/scrapper/MyBcaBankScraper.ts:112-132 | the dashboard `goto` first, the unlock click, the balance read last |
| Scraper.ReadBalance | src/scrapper/MyBcaBankScraper.ts:112-134 | the balance is read exactly when the dashboard calls succeed; it is the amount of the balance text, NaN exactly when the text has no digit |
| Scraper.LogoutScript | src/scrapper/MyBcaBankScraper.ts:227-231 | the logout `goto` first and the click on the logout link last |
| Scraper.PickerHeader | src/scrapper/MyBcaBankScraper.ts:241-258 | the year-view opening clicks its button, reads the label last and navigates nowhere |
| Scraper.PickerLanding | src/scrapper/MyBcaBankScraper.ts:241-304 | the picker lands on an existing page |
| Scraper.LandingOn | src/scrapper/MyBcaBankScraper.ts:241-304 | the picker lands on an existing page |
| Scraper.TurnedSpec | src/scrapper/MyBcaBankScraper.ts:273-291 | the loop's end maps to `chooseDate`'s outcome: landing kept, disabled button to "Cannot find previous year button", missing button to a selector timeout |
| Scraper.TurnTraceUnfold | src/scrapper/MyBcaBankScraper.ts:273-303 | one round of the loop: a missing button ends at its wait, a disabled one after its read, an enabled one is clicked and the label re-read before the next round |
| Scraper.TurnTraceShape | src/scrapper/MyBcaBankScraper.ts:264-304 | landing `k` pages away costs `4 * k` calls, every click is on the navigation button, and a failed loop ends on the button's wait (missing) or read (disabled) |
| Scraper.PickCells | src/scrapper/MyBcaBankScraper.ts:306-374 | picking the cells leaves the picker on the page it landed on |
| Scraper.PickStepSpec | src/scrapper/MyBcaBankScraper.ts:307-371 | a pick succeeds on the first matching cell of a table that shows, which for a day holds a span; otherwise it throws the wait's timeout, the not-found error, or the missing span's error, each exactly in its case |
| Scraper.StepTrace | src/scrapper/MyBcaBankScraper.ts:307-371 | a pick waits for its table first; it makes the `$eval` as a second call exactly when the table shows, and that call is the click exactly when the pick succeeds |
| Scraper.MonthDayPicks | src/scrapper/MyBcaBankScraper.ts:326-371 | the month and day picks, when both succeed, leave the picker on the page it was on |
| Scraper.HeaderNeedsOpen | src/scrapper/MyBcaBankScraper.ts:241-258 | the year view opens only on an open browser |
| Scraper.PickTraceOnSuccess | src/scrapper/MyBcaBankScraper.ts:306-374 | successful picks wait for each table in turn and click the first matching year, month and day cells, and nothing else |
| Scraper.ChooseOutcomeOn | src/scrapper/MyBcaBankScraper.ts:240-375 | a choice leaves the picker on one of the pages |
| Scraper.ChooseOutcome | src/scrapper/MyBcaBankScraper.ts:240-375 | a choice that succeeds lands on one of the calendar's pages |
| Scraper.ChooseTraceOnSuccess | src/scrapper/MyBcaBankScraper.ts:240-375 | a successful choice made the year-view opening, the paging loop's calls and the six picking calls, in that order |
| Scraper.PickerStartLands | src/scrapper/MyBcaBankScraper.ts:260-304 | a start bound lands on the nearest page at or before the home page whose label starts at or before the year |
| Scraper.PickerStartDisabledIff | src/scrapper/MyBcaBankScraper.ts:273-291 | a start bound throws the disabled-button error exactly when the view opened, the button is there and no page up to the home page starts early enough |
| Scraper.PickerEndStaysHome | src/scrapper/MyBcaBankScraper.ts:261-303 | an end bound never leaves the home page, and fails when the home page's range ends before the year |
| Scraper.ChooseDateCells | src/scrapper/MyBcaBankScraper.ts:306-374 | a choice succeeds exactly when the picker lands, the three tables show, the landed page has a year cell, an enabled month cell has the month's Indonesian name, an enabled day cell has the day and holds a span; the page left on is the landed one |
| Scraper.ChooseDateCellFailures | src/scrapper/MyBcaBankScraper.ts:307-371 | after landing, the choice throws the first failure in source order: a table that never shows, no year cell (the click on `undefined`), "Cannot find month", "Cannot find day", or a day cell without a span |
| Scraper.ChooseDateLandingFails | src/scrapper/MyBcaBankScraper.ts:241-304 | a choice whose year view or paging loop threw throws that error |
| Scraper.ReadStatement | src/scrapper/MyBcaBankScraper.ts:166-220 | the statement is read exactly when the table and account calls succeed and every row parses; when the table call succeeds, a bad row gives the row error |
| Scraper.ReadStatementRecords | src/scrapper/MyBcaBankScraper.ts:166-220 | a read statement has one record per table row, built from that row and the trimmed account number |
| Scraper.ReadStatementSucceedsIff | src/scrapper/MyBcaBankScraper.ts:166-200 | the statement is read exactly when the browser is open, the table and account number appear and every row has three cells |
| Scraper.TransactionsRecordsMatchRows | src/scrapper/MyBcaBankScraper.ts:166-220 | every returned record matches the table row at its position: "BCA", the trimmed account, the row's date, name, amount and type, and a matching external id |
| Scraper.MalformedRowFails | src/scrapper/MyBcaBankScraper.ts:175 | one row without a third cell makes `getTransactions` throw |
| Scraper.TransactionsIgnorePicker | src/scrapper/MyBcaBankScraper.ts:146 | without both bounds the date picker plays no part in the outcome |
| Scraper.SameCallsSameRun | src/scrapper/MyBcaBankScraper.ts:146 | a portal differing only in the picker makes every run behave the same |
| Scraper.RangeEndPastHomeFails | src/scrapper/MyBcaBankScraper.ts:146-164 | a range whose end year lies past the home page's range is never selected |
| Scraper.RangeOutcomeSteps | src/scrapper/MyBcaBankScraper.ts:146-164 | a range is selected exactly when the picker opens, both bounds are chosen and the submit is clicked |
| Scraper.RangeTraceOnSuccess | src/scrapper/MyBcaBankScraper.ts:146-164 | a selected range made the picker's opening, the start choice's calls, the end choice's calls and the submit, in that order |
| Scraper.TransactionsTraceOpensStatement | src/scrapper/MyBcaBankScraper.ts:144 | once logged in, the first call is the statement page's `goto` |
| Scraper.TransactionsTraceNoRange | src/scrapper/MyBcaBankScraper.ts:146 | without both bounds the calls are exactly `PlainTrace` |
| Scraper.TransactionsTraceRangeFails | src/scrapper/MyBcaBankScraper.ts:146-166 | a selection that throws ends the calls: the statement is never read |
| Scraper.PlainTraceNoRange | src/scrapper/MyBcaBankScraper.ts:146 | without a range no duration click, cell pick or submit click is made |
| Scraper.NoRangeInPerformed | src/scrapper/MyBcaBankScraper.ts:146 | a run without range calls makes none |
| Scraper.PlainTraceOnSuccess | src/scrapper/MyBcaBankScraper.ts:144-200 | a successful read without a range makes exactly goto, wait and read of the table, wait and read of the account number |
| Scraper.StatementTrace | src/scrapper/MyBcaBankScraper.ts:166-170 | reading the statement starts by waiting for the table |
| Scraper.PlainTrace | src/scrapper/MyBcaBankScraper.ts:144 | without a range the calls start with the statement page's `goto` |
| Scraper.LogoutSucceedsIff | src/scrapper/MyBcaBankScraper.ts:227-231 | `logout` succeeds exactly when the browser is open, the page loads and the logout link appears |
| Scraper.MyBcaBankScrapper.constructor | src/scrapper/MyBcaBankScraper.ts:55-64 | not logged in, no browser or page, wait options `domcontentloaded` with timeout 0, empty trace |
| Scraper.MyBcaBankScrapper.SetDefaultWaitForOptions | src/scrapper/MyBcaBankScraper.ts:66-68 | the wait options become the given ones |
| Scraper.MyBcaBankScrapper.InitBrowser | src/scrapper/MyBcaBankScraper.ts:70-85 | the trace is the launch, then `newPage` when the launch succeeded; a failed launch changes nothing else, a failed `newPage` leaves `browser` set and `page` as it was, success sets both and reopens the browser |
| Scraper.MyBcaBankScrapper.Run | src/scrapper/MyBcaBankScraper.ts:86-106 | the calls made and the outcome are `Performed` and `ScriptResult` of the script |
| Scraper.MyBcaBankScrapper.Login | src/scrapper/MyBcaBankScraper.ts:86-106 | the outcome is `LoginOutcome`; the trace is `LoginTrace`; the browser fields become `AfterLogin` of the old ones; the flag is set exactly on success, and success leaves an open browser and page |
| Scraper.MyBcaBankScrapper.EnsureLoggedIn | src/scrapper/MyBcaBankScraper.ts:108-110 | logged in already: nothing changes at all; otherwise exactly `login` runs, with its outcome, trace and new browser fields, and the flag records its success |
| Scraper.MyBcaBankScrapper.GetCurrentBalance | src/scrapper/MyBcaBankScraper.ts:107-135 | logged in already: the browser fields stay, the trace grows by the dashboard calls and the result is `ReadBalance`; otherwise the fields become `AfterLogin`, and the trace and result are the login's on a failed login, the login's calls then the dashboard calls on an open browser otherwise |
| Scraper.MyBcaBankScrapper.Await | src/scrapper/MyBcaBankScraper.ts:86-106 | as `Run`, and the trace only grows |
| Scraper.MyBcaBankScrapper.GetTransactions | src/scrapper/MyBcaBankScraper.ts:136-221 | logs in first exactly when not logged in; the flag, the browser fields and the result follow the login and then `TransactionsOutcome`; the trace is exactly the login calls (when it logged in) followed, once logged in, by `TransactionsTrace` |
| Scraper.MyBcaBankScrapper.LoggedInTransactions | src/scrapper/MyBcaBankScraper.ts:144-220 | the result is `TransactionsOutcome` and the trace exactly `TransactionsTrace`; without a range the picker page is unchanged |
| Scraper.MyBcaBankScrapper.RangeThenRead | src/scrapper/MyBcaBankScraper.ts:146-220 | with the statement page open: the result is `AfterNavOutcome`, the trace exactly `AfterNavTrace` (the selection when both bounds are given, then the reading unless it threw) |
| Scraper.MyBcaBankScrapper.SelectRange | src/scrapper/MyBcaBankScraper.ts:146-164 | the result is `RangeOutcome` and the trace exactly `RangeTrace`: the opening of the picker, then the two choices and the submit up to the first that throws |
| Scraper.MyBcaBankScrapper.ChooseBounds | src/scrapper/MyBcaBankScraper.ts:152-163 | the start choice, then the end choice and the submit unless it threw; result and trace are `BoundsOutcome` and `BoundsTrace` |
| Scraper.MyBcaBankScrapper.FinishRange | src/scrapper/MyBcaBankScraper.ts:153-163 | the end choice, then the submit unless it threw; result and trace are `EndOutcome` and `EndTrace` |
| Scraper.MyBcaBankScrapper.Submit | src/scrapper/MyBcaBankScraper.ts:155-163 | the submit calls run as awaited calls |
| Scraper.MyBcaBankScrapper.AwaitThen | src/scrapper/MyBcaBankScraper.ts:166-200 | the second run of calls is awaited only when the first succeeded and its condition holds; the trace is the calls of both runs that were made |
| Scraper.MyBcaBankScrapper.ReadStatementPage | src/scrapper/MyBcaBankScraper.ts:166-220 | the result is `ReadStatement`, the trace the table calls then (if the rows parse) the account calls |
| Scraper.MyBcaBankScrapper.Logout | src/scrapper/MyBcaBankScraper.ts:222-232 | when not logged in no call is made and it succeeds; otherwise the logout calls run; the login flag is not changed |
| Scraper.MyBcaBankScrapper.Close | src/scrapper/MyBcaBankScraper.ts:234-238 | one close call exactly when a browser exists, after which page calls fail; browser, page and login flag stay |
| Scraper.MyBcaBankScrapper.ChooseDate | src/scrapper/MyBcaBankScraper.ts:240-375 | the outcome is `ChooseOutcome` of the decomposed date, the trace exactly `ChooseTrace`, and the picker is left on the page returned |
| Scraper.MyBcaBankScrapper.ChooseDecomposed | src/scrapper/MyBcaBankScraper.ts:241-374 | for the label readings given: outcome `ChooseOutcomeOn`, trace exactly `ChooseTraceOn` (year-view opening, then paging and picks when it opened) |
| Scraper.MyBcaBankScrapper.OpenYearView | src/scrapper/MyBcaBankScraper.ts:241-258 | the outcome and the exact calls of opening the year view and reading its label; the picker shows the home page when it opened |
| Scraper.MyBcaBankScrapper.TurnAndPick | src/scrapper/MyBcaBankScraper.ts:264-374 | on an open browser, from the home page: the paging loop, then the picks on the page landed on; outcome `TurnPickOutcome`, trace exactly `TurnPickTrace` |
| Scraper.MyBcaBankScrapper.TurnPages | src/scrapper/MyBcaBankScraper.ts:264-304 | on an open browser, the loop ends as `Paginate` says, on the page it lands on, with the error `Turned` assigns; the trace is exactly `TurnTrace`: per turn the button's wait, the click, the label's wait and read |
| Scraper.MyBcaBankScrapper.PickGrid | src/scrapper/MyBcaBankScraper.ts:306-374 | on an open browser: the outcome is `PickCells` on the page shown and the trace exactly `PickTrace`, the year pick's calls then, unless it threw, `PickMonthDay`'s |
| Scraper.MyBcaBankScrapper.PickMonthDay | src/scrapper/MyBcaBankScraper.ts:326-371 | the outcome is `MonthDayPicks` and the trace exactly `MonthDayTrace`: the month pick's calls, then the day pick's unless the month pick threw |
| Scraper.MyBcaBankScrapper.PickFrom | src/scrapper/MyBcaBankScraper.ts:307-324 | on an open browser: wait for the table, then make the `$eval`, which clicks the cell `PickStep` finds or throws; the outcome is `PickStep` and the trace exactly `StepTrace` |

## Left out

- Puppeteer, which is not part of this model: real DOM queries, timing, `waitForSelector` timeouts and `Promise.all` batching. Calls are awaited in order against the fixed `Portal`. A wait either finds its element or fails, and `waitForNavigation` either settles or fails.
- The portal does not change in response to clicks. After the range is submitted the same table rows show. Opening the picker's year view always shows the home page, so each `chooseDate` starts there. Cell clicks do not change the grids.
- `crypto`'s md5, the JavaScript `Date` string rendering and `new Date().getFullYear()` are parameters. Nothing is claimed about md5 beyond it being a function.
- `formatterDateBca` returns the year, month and day pieces passed to `new Date(...)`, not the parsed `Date`. Date parsing and time zones are not modelled.
- Dates are valid (`ValidDate`): an "Invalid Date" argument, which would give NaN fields, is not modelled.
- `parseInt` is modelled for decimal text only. The `0x` hexadecimal prefix and the float precision loss on very long digit strings are not modelled. White space is the ASCII subset space, tab, newline and carriage return.
- A statement table without a `tbody` (which would throw) is not modelled: the rows are the `tbody` rows.
- `initBrowser`'s launch options are recorded in the trace but not interpreted.
- `CanTurn` and `Paginate` end because the model's calendar has finitely many pages, and "next"/"previous" is disabled on the last/first of them. The source's `while (true)` loop has no such bound: on a live widget whose button never disables it would never end. Its ending is a property of the modelled widget, not of the source.
- A day cell's `disabled` stands for the `span.disabled` inside it, and `hasSpan` for whether it holds a `span` at all. A matching day cell without a span, whose click throws a `TypeError`, is modelled as `SpanMissing`. The model admits a day cell that is disabled and has no span, which a page cannot show (`span.disabled` needs a span): there the model skips the cell, where the source would match it and throw. A `newPage` that throws after a successful launch is modelled as `NewPageFailed`, and `browser` stays set.
- Scraper.MyBcaBankScrapper.GetTransactions: the picker page left after a range selection is not stated. Each `chooseDate` reopens the year view on the home page, so no later call depends on it.
- Scraper.MyBcaBankScrapper.LoggedInTransactions: the picker page left after a range selection is not stated, for the same reason.
- Scraper.MyBcaBankScrapper.RangeThenRead: the picker page left after a range selection is not stated, for the same reason.
- Scraper.MyBcaBankScrapper.SelectRange: the picker page left after the two choices is not stated, for the same reason.
- Scraper.MyBcaBankScrapper.ChooseBounds: the picker page left after the choices is not stated, for the same reason.
- Scraper.MyBcaBankScrapper.FinishRange: the picker page left after the end choice is not stated, for the same reason.
- Scraper.MyBcaBankScrapper.ChooseDate: the picker page after a choice that throws is not stated. The DOM keeps no record of it that the next choice reads.
- Scraper.MyBcaBankScrapper.ChooseDecomposed: the picker page after a choice that throws is not stated, for the same reason.
- Scraper.MyBcaBankScrapper.TurnAndPick: the picker page after a choice that throws is not stated, for the same reason.
- Scraper.MyBcaBankScrapper.TurnPages: the page a loop that throws stops on is not stated, for the same reason.
- src/index.ts, src/utils/Logger.ts, src/browser/PuppeteerWrapper.ts, src/interfaces/IBrowser.ts, src/bases/BaseBankScrapper.ts, src/scrapper/KlikBcaBankScraper.ts and `Helper.sleep` are not part of this model. They are a command-line driver, logging, a library wrapper, abstract signatures, stubs and a timer.

## Findings

| source | as written | input that shows it | evidently intended | confidence | as-written member | corrected member |
|---|---|---|---|---|---|---|
| src/scrapper/MyBcaBankScraper.ts:261-303 | for an end bound the loop compares the end year read before the loop; after each click only `curYearStart` is re-read, so the loop keeps clicking "next" and then throws when the button disables, or never ends if "next" never disables | pages "2016 - 2027" and "2028 - 2039", year view opening on the first, end date in 2030 | re-read `curYearEnd` after each click, so the loop lands on the page whose range covers the end year | not executed | Calendar.EndBoundDefectExample | Calendar.PaginateCorrectedEndBound |
