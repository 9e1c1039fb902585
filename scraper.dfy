/**
 * The `MyBcaBankScrapper` session over an in-memory stand-in for the MyBCA portal.
 *
 * The browser is replaced by a fixed `Portal` value: whether a browser can be launched,
 * which URLs fail to load, which selectors never appear, whether a navigation settles,
 * the texts the page shows and the date-picker widget. Every browser call the scraper
 * makes is appended to `trace` as an `Action`, so that "login ran first" or "nothing was
 * navigated" can be stated about a call.
 */
module Scraper {
  import opened Wrappers
  import opened JsText
  import opened Helper
  import opened Calendar
  import opened Statement

  // ---------------------------------------------------------------------------
  // The pages and elements the scraper addresses

  const LoginUrl: string := "https://mybca.bca.co.id/auth/login"
  const DashboardUrl: string := "https://mybca.bca.co.id/dashboard"
  const TransactionUrl: string := "https://mybca.bca.co.id/profile/statement"
  /** The logout page is the dashboard. */
  const LogoutUrl: string := "https://mybca.bca.co.id/dashboard"

  const BalanceCardSelector: string := "app-dashboard-card-balance"
  const DateRangeSelector: string := "app-daterangepicker"
  const InnerYearSelector: string :=
    "section > app-bottom-sheet > div > div.sheet-content > app-card > app-card-body > "
    + "bs-daterangepicker-inline > bs-daterangepicker-inline-container > div > div > div > div > "
    + "bs-days-calendar-view > bs-calendar-layout > div.bs-datepicker-head > "
    + "bs-datepicker-navigation-view > button:nth-child(3)"

  /** The elements the scraper waits for, types into, clicks or reads. */
  datatype Target =
    | UsernameInput | PasswordInput | LoginSubmit
    | BalanceUnlock | BalanceAmount
    | TransactionTable | AccountNumber | DurationInput | StatementSubmit
    | DateRange | YearViewButton | CurrentYearButton
    | NavButton(isStart: bool)   // "previous" for a start bound, "next" for an end bound
    | YearTable | MonthTable | DayTable
    | LogoutButton

  /** The CSS selector of each element; the two submit buttons share one. */
  function Selector(t: Target): string
  {
    match t
    case UsernameInput => "input[name='username']"
    case PasswordInput => "input[name='password']"
    case LoginSubmit => "button[type=submit]"
    case BalanceUnlock => BalanceCardSelector + " " + "> app-card > app-card-body > div > a"
    case BalanceAmount => BalanceCardSelector + " " + "h5"
    case TransactionTable => "table"
    case AccountNumber => "app-form-group span.font-weight-semibold"
    case DurationInput => "input[name='duration']"
    case StatementSubmit => "button[type=submit]"
    case DateRange => DateRangeSelector
    case YearViewButton => DateRangeSelector + " " + InnerYearSelector
    case CurrentYearButton => "bs-datepicker-navigation-view > button.current"
    case NavButton(isStart) => "bs-datepicker-navigation-view > button." + (if isStart then "previous" else "next")
    case YearTable => "table.years"
    case MonthTable => "table.months"
    case DayTable => "table.days.weeks"
    case LogoutButton => "app-header > header > nav > div > div > ul > li:nth-child(3) > a"
  }

  datatype Viewport = Viewport(width: nat, height: nat)

  /** The `puppeteer.launch` options the scraper passes. */
  datatype LaunchOptions = LaunchOptions(headless: bool, defaultViewport: Option<Viewport>, userDataDir: string)

  /** `puppeteer.WaitForOptions`: the load event to wait for and a timeout (0: none). */
  datatype WaitForOptions = WaitForOptions(waitUntil: string, timeout: nat)

  /** The options `initBrowser` uses when `login` starts the browser. */
  const DefaultLaunchOptions: LaunchOptions := LaunchOptions(false, None, "./tmp")

  /** The wait options of a new scraper. */
  const DefaultWaitForOptions: WaitForOptions := WaitForOptions("domcontentloaded", 0)

  // ---------------------------------------------------------------------------
  // The portal stand-in and the browser calls

  datatype Portal = Portal(
    launchOk: bool,              // `puppeteer.launch` succeeds
    newPageOk: bool,             // `browser.newPage` on the launched browser succeeds
    unreachable: set<string>,    // URLs whose `goto` throws
    absent: set<Target>,         // elements that never appear
    navigationSettles: bool,     // `waitForNavigation` after the login submit returns
    balanceText: string,         // `innerText` of the balance `h5`
    accNumText: string,          // `innerText` of the account number span
    rows: seq<Row>,              // the `tbody tr`s of the statement table
    calendar: Widget)            // the date picker

  /** The element a target's selector finds: both submit buttons are `button[type=submit]`. */
  function SameElement(t: Target): Target
  {
    if t == StatementSubmit then LoginSubmit else t
  }

  /** Targets taken for one element have one selector: the two submit buttons share theirs. */
  lemma SelectorsShared(t: Target, u: Target)
    requires SameElement(t) == SameElement(u)
    ensures Selector(t) == Selector(u)
    ensures Selector(StatementSubmit) == Selector(LoginSubmit)
  {
    if t != u {
      assert (t == StatementSubmit && u == LoginSubmit) || (t == LoginSubmit && u == StatementSubmit);
    }
  }

  predicate Present(env: Portal, t: Target)
  {
    SameElement(t) !in env.absent
  }

  /** One browser call. */
  datatype Action =
    | Launch(launch: LaunchOptions)                     // `puppeteer.launch`
    | NewPage                                           // `browser.newPage`
    | Goto(url: string, wait: WaitForOptions)          // `page.goto`
    | WaitFor(target: Target)                           // `page.waitForSelector`
    | Type(target: Target, text: string)                // `page.type`
    | Click(target: Target)                             // `page.click`, or an `$eval` that clicks
    | Read(target: Target)                              // an `$eval` that returns what it sees, or that throws
    | PickCell(table: Target, index: nat)               // the click on the cell `find` returned
    | WaitNavigation(wait: WaitForOptions)              // `page.waitForNavigation`
    | CloseBrowser                                      // `browser.close`

  /** Why a call of the scraper threw. */
  datatype Error =
    | LaunchFailed
    | NewPageFailed
    | NavigationFailed(url: string)
    | SelectorTimeout(target: Target)   // `waitForSelector` gave up
    | NoElement(target: Target)         // `type`, `click` or `$eval` found no element
    | NavigationTimeout                 // `waitForNavigation` did not return
    | SessionClosed                     // the browser was closed
    | NavButtonDisabled                 // "Cannot find previous year button", in both directions
    | YearCellMissing                   // `selectedYear.click()` on `undefined`
    | MonthNotFound                     // "Cannot find month"
    | DayNotFound                       // "Cannot find day"
    | SpanMissing                       // `res.querySelector("span").click()` on `null`
    | MalformedRow                      // a row without a third cell

  /**
   * Whether a browser call succeeds: closing never throws, and after `close` every
   * call but a new launch does.
   */
  predicate Ok(env: Portal, closed: bool, a: Action)
    ensures a.CloseBrowser? ==> Ok(env, closed, a)
    ensures closed && Ok(env, closed, a) ==> a.Launch? || a.CloseBrowser?
  {
    match a
    case Launch(_) => env.launchOk
    case NewPage => !closed && env.newPageOk
    case CloseBrowser => true
    case Goto(url, _) => !closed && url !in env.unreachable
    case WaitFor(t) => !closed && Present(env, t)
    case Type(t, _) => !closed && Present(env, t)
    case Click(t) => !closed && Present(env, t)
    case Read(t) => !closed && Present(env, t)
    case PickCell(t, _) => !closed && Present(env, t)
    case WaitNavigation(_) => !closed && env.navigationSettles
  }

  /** The errors a browser call itself throws, as opposed to the scraper's own. */
  predicate CallError(e: Error)
  {
    e.LaunchFailed? || e.NewPageFailed? || e.NavigationFailed? || e.SelectorTimeout? || e.NoElement?
    || e.NavigationTimeout? || e.SessionClosed?
  }

  /** What a failing browser call throws. */
  function ErrorOf(closed: bool, a: Action): (e: Error)
    ensures CallError(e)
  {
    match a
    case Launch(_) => LaunchFailed
    case NewPage => if closed then SessionClosed else NewPageFailed
    case CloseBrowser => SessionClosed
    case Goto(url, _) => if closed then SessionClosed else NavigationFailed(url)
    case WaitFor(t) => if closed then SessionClosed else SelectorTimeout(t)
    case Type(t, _) => if closed then SessionClosed else NoElement(t)
    case Click(t) => if closed then SessionClosed else NoElement(t)
    case Read(t) => if closed then SessionClosed else NoElement(t)
    case PickCell(t, _) => if closed then SessionClosed else NoElement(t)
    case WaitNavigation(_) => if closed then SessionClosed else NavigationTimeout
  }

  /** Every call of `script` succeeds. */
  predicate AllOk(env: Portal, closed: bool, script: seq<Action>)
  {
    forall i :: 0 <= i < |script| ==> Ok(env, closed, script[i])
  }

  /**
   * The calls of a run of awaited calls that are made: all of them, or those up to and
   * including the first that throws.
   */
  function Performed(env: Portal, closed: bool, script: seq<Action>): (done: seq<Action>)
    ensures |done| <= |script|
  {
    if script == [] then []
    else if !Ok(env, closed, script[0]) then [script[0]]
    else [script[0]] + Performed(env, closed, script[1..])
  }

  /** The outcome of a run of awaited calls: success, or the error of the first that throws. */
  function ScriptResult(env: Portal, closed: bool, script: seq<Action>): (r: Result<(), Error>)
    ensures r.Failure? ==> CallError(r.error)
  {
    if script == [] then Success(())
    else if !Ok(env, closed, script[0]) then Failure(ErrorOf(closed, script[0]))
    else ScriptResult(env, closed, script[1..])
  }

  /** When every call succeeds the whole run is made and succeeds. */
  lemma {:induction false} AllOkRun(env: Portal, closed: bool, script: seq<Action>)
    requires AllOk(env, closed, script)
    ensures Performed(env, closed, script) == script
    ensures ScriptResult(env, closed, script) == Success(())
  {
    if script != [] {
      assert AllOk(env, closed, script[1..]) by {
        forall i | 0 <= i < |script[1..]| ensures Ok(env, closed, script[1..][i]) {
          assert script[1..][i] == script[i + 1];
        }
      }
      AllOkRun(env, closed, script[1..]);
      assert script == [script[0]] + script[1..];
    }
  }

  /** A run succeeds only when every one of its calls does. */
  lemma {:induction false} SucceededAllOk(env: Portal, closed: bool, script: seq<Action>)
    requires ScriptResult(env, closed, script).Success?
    ensures AllOk(env, closed, script)
  {
    if script != [] {
      SucceededAllOk(env, closed, script[1..]);
      forall i | 1 <= i < |script| ensures Ok(env, closed, script[i]) {
        assert script[i] == script[1..][i - 1];
      }
    }
  }

  /** When call `n` is the first to fail, the run stops right after it, with its error. */
  lemma {:induction false} FirstFailureAt(env: Portal, closed: bool, script: seq<Action>, n: nat)
    requires n < |script| && !Ok(env, closed, script[n])
    requires forall j :: 0 <= j < n ==> Ok(env, closed, script[j])
    ensures Performed(env, closed, script) == script[..n + 1]
    ensures ScriptResult(env, closed, script) == Failure(ErrorOf(closed, script[n]))
  {
    if n > 0 {
      FirstFailureAt(env, closed, script[1..], n - 1);
      assert script[..n + 1] == [script[0]] + script[1..][..n];
    }
  }

  /** The calls made are the first calls of the run. */
  lemma {:induction false} PerformedIsPrefix(env: Portal, closed: bool, script: seq<Action>)
    ensures Performed(env, closed, script) <= script
  {
    if script != [] && Ok(env, closed, script[0]) {
      PerformedIsPrefix(env, closed, script[1..]);
      assert script == [script[0]] + script[1..];
    }
  }

  /** A page call made after the browser was closed throws `SessionClosed`. */
  lemma ClosedSessionFails(env: Portal, script: seq<Action>)
    requires |script| > 0 && !script[0].Launch? && !script[0].CloseBrowser?
    ensures ScriptResult(env, true, script) == Failure(SessionClosed)
    ensures Performed(env, true, script) == script[..1]
  {
  }

  /** A run that starts with a navigation can only succeed on an open browser. */
  lemma OpenWhenSucceeded(env: Portal, closed: bool, script: seq<Action>)
    requires |script| > 0 && script[0].Goto?
    ensures ScriptResult(env, closed, script).Success? ==> !closed
  {
    if ScriptResult(env, closed, script).Success? {
      assert Ok(env, closed, script[0]);
    }
  }

  /** The picker's year view opens only on an open browser. */
  lemma HeaderNeedsOpen(env: Portal, closed: bool)
    ensures ScriptResult(env, closed, PickerHeader()).Success? ==> !closed
  {
    if closed {
      ClosedSessionFails(env, PickerHeader());
    }
  }

  // ---------------------------------------------------------------------------
  // The call sequences of each operation

  /** The calls of `initBrowser(options)`: launch a browser, then open a page in it. */
  function BrowserScript(options: LaunchOptions): (s: seq<Action>)
    ensures |s| == 2 && s[0].Launch? && s[0].launch == options
  {
    [Launch(options), NewPage]
  }

  /**
   * `initBrowser` on a fresh browser: a failed launch ends it, otherwise `newPage`
   * follows and decides the outcome.
   */
  lemma BrowserScriptRun(env: Portal, options: LaunchOptions)
    ensures Performed(env, false, BrowserScript(options))
      == if env.launchOk then [Launch(options), NewPage] else [Launch(options)]
    ensures ScriptResult(env, false, BrowserScript(options))
      == if !env.launchOk then Failure(LaunchFailed)
         else if !env.newPageOk then Failure(NewPageFailed) else Success(())
  {
    var s := BrowserScript(options);
    assert s[1..] == [NewPage] && s[1..][1..] == [];
    assert ScriptResult(env, false, s[1..]) == if env.newPageOk then Success(()) else Failure(NewPageFailed);
  }

  /** Calls other than launching and closing the browser: those on the page. */
  predicate PageCalls(s: seq<Action>)
  {
    forall i :: 0 <= i < |s| ==> !s[i].Launch? && !s[i].CloseBrowser?
  }

  /**
   * `login` after the browser is up: it opens the login page first and ends waiting
   * for the navigation (what it types is `LoginScriptTypesCredentials`).
   */
  function LoginScript(userId: string, pass: string, wait: WaitForOptions): (s: seq<Action>)
    ensures |s| > 0 && s[0] == Goto(LoginUrl, wait) && s[|s| - 1] == WaitNavigation(wait)
  {
    [Goto(LoginUrl, wait), WaitFor(UsernameInput), WaitFor(PasswordInput), WaitFor(LoginSubmit),
     Type(UsernameInput, userId), Type(PasswordInput, pass), Click(LoginSubmit), WaitNavigation(wait)]
  }

  /** The login sequence types the two credentials into their inputs, and works on the page only. */
  lemma LoginScriptTypesCredentials(userId: string, pass: string, wait: WaitForOptions)
    ensures Type(UsernameInput, userId) in LoginScript(userId, pass, wait)
    ensures Type(PasswordInput, pass) in LoginScript(userId, pass, wait)
    ensures PageCalls(LoginScript(userId, pass, wait))
  {
    assert LoginScript(userId, pass, wait)[4] == Type(UsernameInput, userId);
    assert LoginScript(userId, pass, wait)[5] == Type(PasswordInput, pass);
  }

  /**
   * The outcome of `login` from a state where a browser and page are (`hasPage`) or are
   * not there yet; a freshly launched browser is open whatever `closed` says, so a
   * login that succeeds on an old page found it open.
   */
  function LoginOutcome(env: Portal, hasPage: bool, closed: bool, userId: string, pass: string,
                        wait: WaitForOptions): (r: Result<(), Error>)
    ensures r.Failure? ==> CallError(r.error)
    ensures r.Success? && hasPage ==> !closed
  {
    var launch := ScriptResult(env, false, BrowserScript(DefaultLaunchOptions));
    OpenWhenSucceeded(env, hasPage && closed, LoginScript(userId, pass, wait));
    if !hasPage && launch.Failure? then launch
    else ScriptResult(env, hasPage && closed, LoginScript(userId, pass, wait))
  }

  /** The calls `login` makes: it starts with a launch exactly when there is no page. */
  function LoginTrace(env: Portal, hasPage: bool, closed: bool, userId: string, pass: string,
                      wait: WaitForOptions): (t: seq<Action>)
    ensures |t| > 0 && (t[0].Launch? <==> !hasPage)
  {
    var init := if hasPage then [] else Performed(env, false, BrowserScript(DefaultLaunchOptions));
    if !hasPage && ScriptResult(env, false, BrowserScript(DefaultLaunchOptions)).Failure? then init
    else init + Performed(env, hasPage && closed, LoginScript(userId, pass, wait))
  }

  /** The calls of `login`, case by case. */
  lemma LoginTraceCases(env: Portal, hasPage: bool, closed: bool, userId: string, pass: string,
                        wait: WaitForOptions)
    ensures hasPage ==>
      LoginTrace(env, hasPage, closed, userId, pass, wait) == Performed(env, closed, LoginScript(userId, pass, wait))
    ensures !hasPage && env.launchOk && env.newPageOk ==>
      LoginTrace(env, hasPage, closed, userId, pass, wait)
        == [Launch(DefaultLaunchOptions), NewPage] + Performed(env, false, LoginScript(userId, pass, wait))
    ensures !hasPage && env.launchOk && !env.newPageOk ==>
      LoginTrace(env, hasPage, closed, userId, pass, wait) == [Launch(DefaultLaunchOptions), NewPage]
    ensures !hasPage && !env.launchOk ==> LoginTrace(env, hasPage, closed, userId, pass, wait) == [Launch(DefaultLaunchOptions)]
  {
    BrowserScriptRun(env, DefaultLaunchOptions);
  }

  /**
   * `login` succeeds exactly when the browser is usable (launched now, or not closed)
   * and the login page loads, shows its three elements and navigates after the submit.
   */
  lemma LoginSucceedsIff(env: Portal, hasPage: bool, closed: bool, userId: string, pass: string,
                         wait: WaitForOptions)
    ensures LoginOutcome(env, hasPage, closed, userId, pass, wait).Success? <==>
      (if hasPage then !closed else env.launchOk && env.newPageOk)
      && LoginUrl !in env.unreachable
      && Present(env, UsernameInput) && Present(env, PasswordInput) && Present(env, LoginSubmit)
      && env.navigationSettles
  {
    var s := LoginScript(userId, pass, wait);
    var c := hasPage && closed;
    BrowserScriptRun(env, DefaultLaunchOptions);
    assert s[0] == Goto(LoginUrl, wait) && s[1] == WaitFor(UsernameInput);
    assert s[2] == WaitFor(PasswordInput) && s[3] == WaitFor(LoginSubmit);
    assert s[7] == WaitNavigation(wait);
    if ScriptResult(env, c, s).Success? {
      SucceededAllOk(env, c, s);
    }
    if !c && LoginUrl !in env.unreachable && Present(env, UsernameInput) && Present(env, PasswordInput)
       && Present(env, LoginSubmit) && env.navigationSettles {
      assert forall i :: 0 <= i < |s| ==> Ok(env, c, s[i]);
      AllOkRun(env, c, s);
    }
  }

  /**
   * A successful `login` made every call of the sequence, in order, the navigation
   * after the submit last; one that failed at its last step never got past it.
   */
  lemma LoginTraceOnSuccess(env: Portal, hasPage: bool, closed: bool, userId: string, pass: string,
                            wait: WaitForOptions)
    requires LoginOutcome(env, hasPage, closed, userId, pass, wait).Success?
    ensures LoginTrace(env, hasPage, closed, userId, pass, wait)
      == (if hasPage then [] else BrowserScript(DefaultLaunchOptions)) + LoginScript(userId, pass, wait)
    ensures LoginTrace(env, hasPage, closed, userId, pass, wait)[|LoginTrace(env, hasPage, closed, userId, pass, wait)| - 1]
      == WaitNavigation(wait)
  {
    var s := LoginScript(userId, pass, wait);
    SucceededAllOk(env, hasPage && closed, s);
    AllOkRun(env, hasPage && closed, s);
    if !hasPage {
      SucceededAllOk(env, false, BrowserScript(DefaultLaunchOptions));
      AllOkRun(env, false, BrowserScript(DefaultLaunchOptions));
    }
  }

  /**
   * `getCurrentBalance` after the login check: it opens the dashboard, clicks the
   * unlock link and ends reading the balance, all on the page.
   */
  function BalanceScript(wait: WaitForOptions): (s: seq<Action>)
    ensures |s| > 0 && s[0] == Goto(DashboardUrl, wait) && s[|s| - 1] == Read(BalanceAmount)
    ensures Click(BalanceUnlock) in s && PageCalls(s)
  {
    [Goto(DashboardUrl, wait), WaitFor(BalanceUnlock), Click(BalanceUnlock), WaitFor(BalanceAmount), Read(BalanceAmount)]
  }

  /**
   * The value `getCurrentBalance` returns once the dashboard has been reached: the digits
   * of the balance text read as one number, NaN (`None`) when it has none.
   */
  function ReadBalance(env: Portal, closed: bool, wait: WaitForOptions): (r: Result<Option<nat>, Error>)
    ensures r.Success? <==> ScriptResult(env, closed, BalanceScript(wait)).Success?
    ensures r.Failure? ==> r.error == ScriptResult(env, closed, BalanceScript(wait)).error
    ensures r.Success? ==> r.value == ParseAmount(env.balanceText)
    ensures r.Success? ==> (r.value.None? <==> forall i :: 0 <= i < |env.balanceText| ==> !IsDigit(env.balanceText[i]))
  {
    ParseAmountOfTrim(env.balanceText);
    match ScriptResult(env, closed, BalanceScript(wait))
    case Failure(e) => Failure(e)
    case Success(_) => Success(ParseAmount(Trim(env.balanceText)))
  }

  /** `logout` when logged in: open the logout page and end clicking the logout link. */
  function LogoutScript(wait: WaitForOptions): (s: seq<Action>)
    ensures |s| > 0 && s[0] == Goto(LogoutUrl, wait) && s[|s| - 1] == Click(LogoutButton)
    ensures PageCalls(s)
  {
    [Goto(LogoutUrl, wait), WaitFor(LogoutButton), Click(LogoutButton)]
  }

  /**
   * The calls that open the year view of the picker and read its label: a click on the
   * year-view button, the label read last, and no navigation.
   */
  function PickerHeader(): (s: seq<Action>)
    ensures |s| > 0 && s[|s| - 1] == Read(CurrentYearButton)
    ensures Click(YearViewButton) in s && PageCalls(s)
    ensures forall i :: 0 <= i < |s| ==> !s[i].Goto?
  {
    [WaitFor(DateRange), WaitFor(YearViewButton), Click(YearViewButton), WaitFor(CurrentYearButton), Read(CurrentYearButton)]
  }

  /**
   * The first half of `chooseDate` on the widget, as written: open the year view (which
   * shows the home page), read its label and page with the loop of `Paginate` towards
   * `year`. The result is the page reached.
   */
  function PickerLanding(env: Portal, closed: bool, year: int, isStart: bool): (r: Result<nat, Error>)
    requires WellFormed(env.calendar)
    ensures r.Success? ==> r.value < |env.calendar.pages|
  {
    LandingOn(env, closed, StartYears(env.calendar.pages), HomeEnd(env.calendar), year, isStart)
  }

  /**
   * The landing given what the page labels read as: `starts` the start year of each page
   * and `homeEnd` the end year of the home page.
   */
  function LandingOn(env: Portal, closed: bool, starts: seq<Option<int>>, homeEnd: Option<int>,
                     year: int, isStart: bool): (r: Result<nat, Error>)
    requires env.calendar.home < |starts|
    ensures r.Success? ==> r.value < |starts|
  {
    match ScriptResult(env, closed, PickerHeader())
    case Failure(e) => Failure(e)
    case Success(_) => Turned(Paginate(starts, env.calendar.home, isStart, year, homeEnd, Present(env, NavButton(isStart))), isStart)
  }

  /** How the paging loop ends, as the error `chooseDate` throws. */
  function Turned(p: Result<nat, TurnFailure>, isStart: bool): (r: Result<nat, Error>)
  {
    match p
    case Failure(ButtonMissing) => Failure(SelectorTimeout(NavButton(isStart)))
    case Failure(ButtonDisabled) => Failure(NavButtonDisabled)
    case Success(idx) => Success(idx)
  }

  /** `Turned` keeps where the loop landed and tells the two ways it can fail apart. */
  lemma TurnedSpec(p: Result<nat, TurnFailure>, isStart: bool)
    ensures Turned(p, isStart).Success? <==> p.Success?
    ensures Turned(p, isStart).Success? ==> Turned(p, isStart).value == p.value
    ensures Turned(p, isStart) == Failure(NavButtonDisabled) <==> p == Failure(ButtonDisabled)
    ensures Turned(p, isStart) == Failure(SelectorTimeout(NavButton(isStart))) <==> p == Failure(ButtonMissing)
  {
  }

  /** The end year of the home page's label: the `curYearEnd` of the loop. */
  function HomeEnd(w: Widget): Option<int>
    requires WellFormed(w)
  {
    EndYears(w.pages)[w.home]
  }

  /**
   * The calls of the paging loop from page `idx`, as `Paginate` walks it: each turn waits
   * for the button, clicks it and re-reads the label; a disabled button is read, not
   * clicked; a missing one ends at its wait.
   */
  function TurnTrace(starts: seq<Option<int>>, idx: nat, isStart: bool, year: int,
                     curYearEnd: Option<int>, present: bool): seq<Action>
    requires idx < |starts|
    decreases if isStart then idx else |starts| - idx
  {
    if (isStart && AtMost(starts[idx], year)) || (!isStart && AtLeast(curYearEnd, year)) then []
    else if !present then [WaitFor(NavButton(isStart))]
    else if !CanTurn(|starts|, idx, isStart) then [WaitFor(NavButton(isStart)), Read(NavButton(isStart))]
    else [WaitFor(NavButton(isStart)), Click(NavButton(isStart)), WaitFor(CurrentYearButton), Read(CurrentYearButton)]
         + TurnTrace(starts, if isStart then idx - 1 else idx + 1, isStart, year, curYearEnd, present)
  }

  /** One round of the paging loop when it does not stop at page `idx`. */
  lemma TurnTraceUnfold(starts: seq<Option<int>>, idx: nat, isStart: bool, year: int,
                        curYearEnd: Option<int>, present: bool)
    requires idx < |starts|
    requires !((isStart && AtMost(starts[idx], year)) || (!isStart && AtLeast(curYearEnd, year)))
    ensures !present ==> TurnTrace(starts, idx, isStart, year, curYearEnd, present) == [WaitFor(NavButton(isStart))]
    ensures present && !CanTurn(|starts|, idx, isStart) ==>
      TurnTrace(starts, idx, isStart, year, curYearEnd, present) == [WaitFor(NavButton(isStart))] + [Read(NavButton(isStart))]
    ensures present && CanTurn(|starts|, idx, isStart) ==>
      var next := if isStart then idx - 1 else idx + 1;
      TurnTrace(starts, idx, isStart, year, curYearEnd, present)
        == [WaitFor(NavButton(isStart))]
           + ([Click(NavButton(isStart)), WaitFor(CurrentYearButton), Read(CurrentYearButton)]
              + TurnTrace(starts, next, isStart, year, curYearEnd, present))
        && Paginate(starts, idx, isStart, year, curYearEnd, present) == Paginate(starts, next, isStart, year, curYearEnd, present)
  {
  }

  /**
   * The loop makes four calls per page it turns: landing `k` pages away costs `4 * k`
   * calls, all of them clicks on the button or waits and reads; when it gives up it ends
   * on the button's wait (missing) or on its read (disabled).
   */
  lemma {:induction false} TurnTraceShape(starts: seq<Option<int>>, idx: nat, isStart: bool, year: int,
                                          curYearEnd: Option<int>, present: bool)
    requires idx < |starts|
    ensures var p := Paginate(starts, idx, isStart, year, curYearEnd, present);
      var t := TurnTrace(starts, idx, isStart, year, curYearEnd, present);
      (p.Success? ==> |t| == 4 * (if isStart then idx - p.value else p.value - idx))
      && (p == Failure(ButtonMissing) ==> |t| > 0 && t[|t| - 1] == WaitFor(NavButton(isStart)))
      && (p == Failure(ButtonDisabled) ==> |t| > 1 && t[|t| - 1] == Read(NavButton(isStart)))
    ensures var t := TurnTrace(starts, idx, isStart, year, curYearEnd, present);
      forall i :: 0 <= i < |t| && t[i].Click? ==> t[i] == Click(NavButton(isStart))
    decreases if isStart then idx else |starts| - idx
  {
    if (isStart && AtMost(starts[idx], year)) || (!isStart && AtLeast(curYearEnd, year)) {
    } else if !present {
    } else if !CanTurn(|starts|, idx, isStart) {
    } else {
      var next := if isStart then idx - 1 else idx + 1;
      TurnTraceShape(starts, next, isStart, year, curYearEnd, present);
      var head := [WaitFor(NavButton(isStart)), Click(NavButton(isStart)), WaitFor(CurrentYearButton), Read(CurrentYearButton)];
      var rest := TurnTrace(starts, next, isStart, year, curYearEnd, present);
      assert TurnTrace(starts, idx, isStart, year, curYearEnd, present) == head + rest;
      assert forall i :: 4 <= i < |head + rest| ==> (head + rest)[i] == rest[i - 4];
    }
  }

  /**
   * The second half of `chooseDate`: on year page `idx`, click the first cell showing the
   * year, then the first enabled month cell with the month's name, then the first enabled
   * day cell with the day.
   */
  function PickCells(env: Portal, idx: nat, d: DecomposedDate): (r: Result<nat, Error>)
    requires idx < |env.calendar.pages| && d.day >= 1
    ensures r.Success? ==> r.value == idx
  {
    var w := env.calendar;
    match PickStep(env, YearTable, w.pages[idx].years, YearNumber(d.year), YearCellMissing)
    case Failure(e) => Failure(e)
    case Success(_) => MonthDayPicks(env, idx, d)
  }

  /** The month pick and then the day pick, which leave the picker on page `idx`. */
  function MonthDayPicks(env: Portal, idx: nat, d: DecomposedDate): (r: Result<nat, Error>)
    requires d.day >= 1
    ensures r.Success? ==> r.value == idx
  {
    var w := env.calendar;
    match PickStep(env, MonthTable, w.months, MonthName(d.monthName), MonthNotFound)
    case Failure(e) => Failure(e)
    case Success(_) =>
      match PickStep(env, DayTable, w.days, DayNumber(d.day as nat), DayNotFound)
      case Failure(e) => Failure(e)
      case Success(_) => Success(idx)
  }

  /**
   * One pick of `chooseDate`: wait for the table, then the position of the first cell
   * showing what `k` asks for; `notFound` when there is none. A day is clicked through
   * the span inside its cell, so a day cell without one makes the click throw.
   */
  function PickStep(env: Portal, table: Target, g: Grid, k: Criterion, notFound: Error): Result<nat, Error>
  {
    if !Present(env, table) then Failure(SelectorTimeout(table))
    else match FindCell(g, k)
         case None => Failure(notFound)
         case Some(i) => if k.DayNumber? && !Flatten(g)[i].hasSpan then Failure(SpanMissing) else Success(i)
  }

  /**
   * A pick succeeds on the first matching cell of a table that shows, which for a day
   * holds the span to click; it fails with the wait's timeout, with `notFound`, or on a
   * missing span.
   */
  lemma PickStepSpec(env: Portal, table: Target, g: Grid, k: Criterion, notFound: Error)
    ensures var r := PickStep(env, table, g, k, notFound);
      r.Success? ==>
        Present(env, table) && FindCell(g, k) == Some(r.value) && r.value < |Flatten(g)|
        && (k.DayNumber? ==> Flatten(g)[r.value].hasSpan)
    ensures var r := PickStep(env, table, g, k, notFound);
      r.Failure? ==> r.error == SelectorTimeout(table) || r.error == notFound || r.error == SpanMissing
    ensures !Present(env, table) ==> PickStep(env, table, g, k, notFound) == Failure(SelectorTimeout(table))
    ensures Present(env, table) && FindCell(g, k).None? ==> PickStep(env, table, g, k, notFound) == Failure(notFound)
    ensures Present(env, table) && FindCell(g, k).Some? && k.DayNumber? && !Flatten(g)[FindCell(g, k).value].hasSpan ==>
      PickStep(env, table, g, k, notFound) == Failure(SpanMissing)
  {
  }

  /** The calls of one pick: the wait for the table, then the click when there is one. */
  function StepTrace(table: Target, shown: bool, r: Result<nat, Error>): (t: seq<Action>)
    ensures |t| > 0 && t[0] == WaitFor(table) && (|t| == 2 <==> shown || r.Success?)
    ensures t[|t| - 1].PickCell? <==> r.Success?
  {
    [WaitFor(table)]
    + (if r.Success? then [PickCell(table, r.value)] else if shown then [Read(table)] else [])
  }

  /** The calls of the cell picks on year page `idx`, up to the first that fails. */
  function PickTrace(env: Portal, idx: nat, d: DecomposedDate): seq<Action>
    requires idx < |env.calendar.pages| && d.day >= 1
  {
    var w := env.calendar;
    var y := PickStep(env, YearTable, w.pages[idx].years, YearNumber(d.year), YearCellMissing);
    StepTrace(YearTable, Present(env, YearTable), y) + (if y.Failure? then [] else MonthDayTrace(env, d))
  }

  /** The calls of the month pick and, unless it threw, the day pick. */
  function MonthDayTrace(env: Portal, d: DecomposedDate): seq<Action>
    requires d.day >= 1
  {
    var w := env.calendar;
    var m := PickStep(env, MonthTable, w.months, MonthName(d.monthName), MonthNotFound);
    var dc := PickStep(env, DayTable, w.days, DayNumber(d.day as nat), DayNotFound);
    StepTrace(MonthTable, Present(env, MonthTable), m)
    + (if m.Failure? then [] else StepTrace(DayTable, Present(env, DayTable), dc))
  }

  /**
   * When the picks succeed they wait for each table in turn and click the first year,
   * month and day cells that match, and nothing else.
   */
  lemma PickTraceOnSuccess(env: Portal, idx: nat, d: DecomposedDate)
    requires idx < |env.calendar.pages| && d.day >= 1
    requires PickCells(env, idx, d).Success?
    ensures var w := env.calendar;
      FindCell(w.pages[idx].years, YearNumber(d.year)).Some? && FindCell(w.months, MonthName(d.monthName)).Some?
      && FindCell(w.days, DayNumber(d.day as nat)).Some?
    ensures var w := env.calendar;
        PickTrace(env, idx, d) ==
          [WaitFor(YearTable), PickCell(YearTable, FindCell(w.pages[idx].years, YearNumber(d.year)).value),
           WaitFor(MonthTable), PickCell(MonthTable, FindCell(w.months, MonthName(d.monthName)).value),
           WaitFor(DayTable), PickCell(DayTable, FindCell(w.days, DayNumber(d.day as nat)).value)]
  {
    var w := env.calendar;
    var y := PickStep(env, YearTable, w.pages[idx].years, YearNumber(d.year), YearCellMissing);
    var m := PickStep(env, MonthTable, w.months, MonthName(d.monthName), MonthNotFound);
    var dc := PickStep(env, DayTable, w.days, DayNumber(d.day as nat), DayNotFound);
    assert y.Success? && m.Success? && dc.Success?;
    var ty, tm, td := StepTrace(YearTable, true, y), StepTrace(MonthTable, true, m), StepTrace(DayTable, true, dc);
    assert PickTrace(env, idx, d) == ty + (tm + td);
    StepClicksFound(env, YearTable, w.pages[idx].years, YearNumber(d.year), YearCellMissing);
    StepClicksFound(env, MonthTable, w.months, MonthName(d.monthName), MonthNotFound);
    StepClicksFound(env, DayTable, w.days, DayNumber(d.day as nat), DayNotFound);
    Pairs(ty, tm, td);
  }

  /** A pick that succeeds waits for its table and clicks the cell `FindCell` found. */
  lemma StepClicksFound(env: Portal, table: Target, g: Grid, k: Criterion, notFound: Error)
    requires PickStep(env, table, g, k, notFound).Success?
    ensures Present(env, table)
    ensures StepTrace(table, true, PickStep(env, table, g, k, notFound)) == [WaitFor(table), PickCell(table, FindCell(g, k).value)]
  {
    PickStepSpec(env, table, g, k, notFound);
  }

  /** Three two-call sequences in a row. */
  lemma Pairs(p: seq<Action>, q: seq<Action>, u: seq<Action>)
    requires |p| == 2 && |q| == 2 && |u| == 2
    ensures p + (q + u) == [p[0], p[1], q[0], q[1], u[0], u[1]]
  {
  }

  /** `chooseDate(date, isStart)`: the page the picker is left on, or why it threw. */
  function ChooseOutcome(env: Portal, closed: bool, d: DecomposedDate, isStart: bool): (r: Result<nat, Error>)
    requires WellFormed(env.calendar) && d.day >= 1
    ensures r.Success? ==> r.value < |env.calendar.pages|
  {
    ChooseOutcomeOn(env, closed, StartYears(env.calendar.pages), HomeEnd(env.calendar), d, isStart)
  }

  /** `ChooseOutcome` given what the page labels read as. */
  function ChooseOutcomeOn(env: Portal, closed: bool, starts: seq<Option<int>>, homeEnd: Option<int>,
                           d: DecomposedDate, isStart: bool): (r: Result<nat, Error>)
    requires WellFormed(env.calendar) && |starts| == |env.calendar.pages| && d.day >= 1
    ensures r.Success? ==> r.value < |starts|
  {
    match LandingOn(env, closed, starts, homeEnd, d.year, isStart)
    case Failure(e) => Failure(e)
    case Success(idx) => PickCells(env, idx, d)
  }

  /**
   * The calls of `chooseDate` given what the page labels read as: the year view's opening,
   * the paging loop when it opened, and the cell picks on the page the loop landed on.
   */
  function ChooseTraceOn(env: Portal, closed: bool, starts: seq<Option<int>>, homeEnd: Option<int>,
                         d: DecomposedDate, isStart: bool): seq<Action>
    requires WellFormed(env.calendar) && |starts| == |env.calendar.pages| && d.day >= 1
  {
    Performed(env, closed, PickerHeader())
    + (if ScriptResult(env, closed, PickerHeader()).Failure? then [] else TurnPickTrace(env, starts, homeEnd, d, isStart))
  }

  /** The calls of `chooseDate` once the year view opened: the paging loop, then the picks. */
  function TurnPickTrace(env: Portal, starts: seq<Option<int>>, homeEnd: Option<int>,
                         d: DecomposedDate, isStart: bool): seq<Action>
    requires WellFormed(env.calendar) && |starts| == |env.calendar.pages| && d.day >= 1
  {
    var present := Present(env, NavButton(isStart));
    TurnTrace(starts, env.calendar.home, isStart, d.year, homeEnd, present)
    + (match Paginate(starts, env.calendar.home, isStart, d.year, homeEnd, present)
       case Failure(_) => []
       case Success(idx) => PickTrace(env, idx, d))
  }

  /** The outcome of `chooseDate` once the year view opened. */
  function TurnPickOutcome(env: Portal, starts: seq<Option<int>>, homeEnd: Option<int>,
                           d: DecomposedDate, isStart: bool): (r: Result<nat, Error>)
    requires WellFormed(env.calendar) && |starts| == |env.calendar.pages| && d.day >= 1
    ensures r.Success? ==> r.value < |starts|
  {
    match Turned(Paginate(starts, env.calendar.home, isStart, d.year, homeEnd, Present(env, NavButton(isStart))), isStart)
    case Failure(e) => Failure(e)
    case Success(idx) => PickCells(env, idx, d)
  }

  /** The loop either gives up, and nothing is picked, or is followed by the picks on the page it reached. */
  lemma TurnPickSteps(env: Portal, starts: seq<Option<int>>, homeEnd: Option<int>, d: DecomposedDate, isStart: bool)
    requires WellFormed(env.calendar) && |starts| == |env.calendar.pages| && d.day >= 1
    ensures var p := Paginate(starts, env.calendar.home, isStart, d.year, homeEnd, Present(env, NavButton(isStart)));
      var turns := TurnTrace(starts, env.calendar.home, isStart, d.year, homeEnd, Present(env, NavButton(isStart)));
      (p.Failure? ==>
        TurnPickOutcome(env, starts, homeEnd, d, isStart) == Failure(Turned(p, isStart).error)
        && TurnPickTrace(env, starts, homeEnd, d, isStart) == turns)
      && (p.Success? ==>
        p.value < |env.calendar.pages|
        && TurnPickOutcome(env, starts, homeEnd, d, isStart) == PickCells(env, p.value, d)
        && TurnPickTrace(env, starts, homeEnd, d, isStart) == turns + PickTrace(env, p.value, d))
  {
    var p := Paginate(starts, env.calendar.home, isStart, d.year, homeEnd, Present(env, NavButton(isStart)));
    var turns := TurnTrace(starts, env.calendar.home, isStart, d.year, homeEnd, Present(env, NavButton(isStart)));
    TurnedSpec(p, isStart);
    assert turns + [] == turns;
  }

  /** Once the year view opened, `chooseDate`'s outcome is that of the loop and the picks. */
  lemma ChooseAfterHeader(env: Portal, closed: bool, starts: seq<Option<int>>, homeEnd: Option<int>,
                          d: DecomposedDate, isStart: bool)
    requires WellFormed(env.calendar) && |starts| == |env.calendar.pages| && d.day >= 1
    ensures ScriptResult(env, closed, PickerHeader()).Success? ==>
      ChooseOutcomeOn(env, closed, starts, homeEnd, d, isStart) == TurnPickOutcome(env, starts, homeEnd, d, isStart)
    ensures ScriptResult(env, closed, PickerHeader()).Failure? ==>
      ChooseOutcomeOn(env, closed, starts, homeEnd, d, isStart) == Failure(ScriptResult(env, closed, PickerHeader()).error)
      && ChooseTraceOn(env, closed, starts, homeEnd, d, isStart) == Performed(env, closed, PickerHeader())
  {
    var h := Performed(env, closed, PickerHeader());
    assert h + [] == h;
  }

  /** The calls of `chooseDate(date, isStart)`. */
  function ChooseTrace(env: Portal, closed: bool, d: DecomposedDate, isStart: bool): seq<Action>
    requires WellFormed(env.calendar) && d.day >= 1
  {
    ChooseTraceOn(env, closed, StartYears(env.calendar.pages), HomeEnd(env.calendar), d, isStart)
  }

  /** A run that succeeded made every one of its calls. */
  lemma RanInFull(env: Portal, closed: bool, script: seq<Action>)
    requires ScriptResult(env, closed, script).Success?
    ensures Performed(env, closed, script) == script
  {
    SucceededAllOk(env, closed, script);
    AllOkRun(env, closed, script);
  }

  /**
   * A successful choice made the whole opening of the year view, the turns of the loop
   * and exactly the three cell clicks on the page it chose.
   */
  lemma ChooseTraceOnSuccess(env: Portal, closed: bool, d: DecomposedDate, isStart: bool)
    requires WellFormed(env.calendar) && d.day >= 1
    requires ChooseOutcome(env, closed, d, isStart).Success?
    ensures var w := env.calendar;
      var idx := ChooseOutcome(env, closed, d, isStart).value;
      idx < |w.pages|
      && FindCell(w.pages[idx].years, YearNumber(d.year)).Some?
      && FindCell(w.months, MonthName(d.monthName)).Some?
      && FindCell(w.days, DayNumber(d.day as nat)).Some?
      && ChooseTrace(env, closed, d, isStart) ==
        PickerHeader()
        + TurnTrace(StartYears(w.pages), w.home, isStart, d.year, HomeEnd(w), Present(env, NavButton(isStart)))
        + [WaitFor(YearTable), PickCell(YearTable, FindCell(w.pages[idx].years, YearNumber(d.year)).value),
           WaitFor(MonthTable), PickCell(MonthTable, FindCell(w.months, MonthName(d.monthName)).value),
           WaitFor(DayTable), PickCell(DayTable, FindCell(w.days, DayNumber(d.day as nat)).value)]
  {
    var w := env.calendar;
    var present := Present(env, NavButton(isStart));
    var p := Paginate(StartYears(w.pages), w.home, isStart, d.year, HomeEnd(w), present);
    assert ScriptResult(env, closed, PickerHeader()).Success?;
    TurnedSpec(p, isStart);
    assert p.Success?;
    RanInFull(env, closed, PickerHeader());
    PickTraceOnSuccess(env, p.value, d);
    Regroup(PickerHeader(), TurnTrace(StartYears(w.pages), w.home, isStart, d.year, HomeEnd(w), present), PickTrace(env, p.value, d));
  }

  /**
   * For a start bound the picker lands on the nearest page at or before the home page
   * whose range starts at or before the year.
   */
  lemma PickerStartLands(env: Portal, closed: bool, year: int)
    requires WellFormed(env.calendar)
    ensures var o := PickerLanding(env, closed, year, true);
      var starts := StartYears(env.calendar.pages);
      o.Success? ==>
        o.value <= env.calendar.home && AtMost(starts[o.value], year)
        && forall k :: o.value < k <= env.calendar.home ==> !AtMost(starts[k], year)
  {
    var w := env.calendar;
    var p := Paginate(StartYears(w.pages), w.home, true, year, HomeEnd(w), Present(env, NavButton(true)));
    PaginateStartLands(StartYears(w.pages), w.home, year, HomeEnd(w), Present(env, NavButton(true)));
    TurnedSpec(p, true);
  }

  /**
   * For a start bound the picker fails with the disabled button exactly when it opened,
   * the button is there, and no page up to the home page starts early enough.
   */
  lemma PickerStartDisabledIff(env: Portal, closed: bool, year: int)
    requires WellFormed(env.calendar)
    ensures PickerLanding(env, closed, year, true) == Failure(NavButtonDisabled) ==>
      ScriptResult(env, closed, PickerHeader()).Success? && Present(env, NavButton(true))
      && forall k :: 0 <= k <= env.calendar.home ==> !AtMost(StartYears(env.calendar.pages)[k], year)
    ensures
      ScriptResult(env, closed, PickerHeader()).Success? && Present(env, NavButton(true))
      && (forall k :: 0 <= k <= env.calendar.home ==> !AtMost(StartYears(env.calendar.pages)[k], year))
      ==> PickerLanding(env, closed, year, true) == Failure(NavButtonDisabled)
  {
    var w := env.calendar;
    var p := Paginate(StartYears(w.pages), w.home, true, year, HomeEnd(w), Present(env, NavButton(true)));
    PaginateStartFails(StartYears(w.pages), w.home, year, HomeEnd(w), Present(env, NavButton(true)));
    TurnedSpec(p, true);
    var h := ScriptResult(env, closed, PickerHeader());
    assert PickerLanding(env, closed, year, true) == if h.Failure? then Failure(h.error) else Turned(p, true);
  }

  /**
   * For an end bound the picker never leaves the home page: it lands only there, and
   * when the home page's range ends before the year it fails, whatever later pages cover.
   */
  lemma PickerEndStaysHome(env: Portal, closed: bool, year: int)
    requires WellFormed(env.calendar)
    ensures var o := PickerLanding(env, closed, year, false);
      o.Success? ==> o.value == env.calendar.home && AtLeast(HomeEnd(env.calendar), year)
    ensures var o := PickerLanding(env, closed, year, false);
      !AtLeast(HomeEnd(env.calendar), year) && ScriptResult(env, closed, PickerHeader()).Success? ==>
        o == Failure(if Present(env, NavButton(false)) then NavButtonDisabled else SelectorTimeout(NavButton(false)))
  {
    var w := env.calendar;
    var p := Paginate(StartYears(w.pages), w.home, false, year, HomeEnd(w), Present(env, NavButton(false)));
    PaginateEndBound(StartYears(w.pages), w.home, year, HomeEnd(w), Present(env, NavButton(false)));
    TurnedSpec(p, false);
  }

  /**
   * A choice succeeds exactly when the picker lands on a page, the three tables show,
   * each has a cell for the year, the month name and the day, and the day cell holds
   * the span to click; the page is then the one it landed on.
   */
  lemma ChooseDateCells(env: Portal, closed: bool, date: Date, isStart: bool)
    requires WellFormed(env.calendar) && ValidDate(date)
    ensures var o := ChooseOutcome(env, closed, DecomposeDate(date), isStart);
      var w := env.calendar;
      var landing := PickerLanding(env, closed, date.year, isStart);
      o.Success? <==>
        landing.Success? && landing.value < |w.pages|
        && Present(env, YearTable) && Present(env, MonthTable) && Present(env, DayTable)
        && FindCell(w.pages[landing.value].years, YearNumber(date.year)).Some?
        && FindCell(w.months, MonthName(MonthsIdn[date.month0])).Some?
        && FindCell(w.days, DayNumber(date.day as nat)).Some?
        && Flatten(w.days)[FindCell(w.days, DayNumber(date.day as nat)).value].hasSpan
    ensures var o := ChooseOutcome(env, closed, DecomposeDate(date), isStart);
      o.Success? ==> PickerLanding(env, closed, date.year, isStart) == Success(o.value)
  {
    DecomposeDateSpec(date);
    var w := env.calendar;
    var d := DecomposeDate(date);
    var landing := PickerLanding(env, closed, date.year, isStart);
    if landing.Success? {
      var idx := landing.value;
      PickStepSpec(env, YearTable, w.pages[idx].years, YearNumber(d.year), YearCellMissing);
      PickStepSpec(env, MonthTable, w.months, MonthName(d.monthName), MonthNotFound);
      PickStepSpec(env, DayTable, w.days, DayNumber(d.day as nat), DayNotFound);
    }
  }

  /**
   * Why a choice throws once the picker landed on page `idx`: the first of the year,
   * month and day picks whose table does not show, that finds no cell, or, for the day,
   * whose cell has no span.
   */
  lemma ChooseDateCellFailures(env: Portal, closed: bool, date: Date, isStart: bool, idx: nat)
    requires WellFormed(env.calendar) && ValidDate(date)
    requires PickerLanding(env, closed, date.year, isStart) == Success(idx) && idx < |env.calendar.pages|
    ensures var o := ChooseOutcome(env, closed, DecomposeDate(date), isStart);
      var w := env.calendar;
      var year := FindCell(w.pages[idx].years, YearNumber(date.year));
      var month := FindCell(w.months, MonthName(MonthsIdn[date.month0]));
      var day := FindCell(w.days, DayNumber(date.day as nat));
      var dayShows := Present(env, YearTable) && year.Some? && Present(env, MonthTable) && month.Some?
        && Present(env, DayTable);
      (!Present(env, YearTable) ==> o == Failure(SelectorTimeout(YearTable)))
      && (Present(env, YearTable) && year.None? ==> o == Failure(YearCellMissing))
      && (Present(env, YearTable) && year.Some? && !Present(env, MonthTable) ==> o == Failure(SelectorTimeout(MonthTable)))
      && (Present(env, YearTable) && year.Some? && Present(env, MonthTable) && month.None? ==> o == Failure(MonthNotFound))
      && (Present(env, YearTable) && year.Some? && Present(env, MonthTable) && month.Some? && !Present(env, DayTable) ==>
            o == Failure(SelectorTimeout(DayTable)))
      && (dayShows && day.None? ==> o == Failure(DayNotFound))
      && (dayShows && day.Some? && !Flatten(w.days)[day.value].hasSpan ==> o == Failure(SpanMissing))
  {
    DecomposeDateSpec(date);
    var w := env.calendar;
    var d := DecomposeDate(date);
    PickStepSpec(env, YearTable, w.pages[idx].years, YearNumber(d.year), YearCellMissing);
    PickStepSpec(env, MonthTable, w.months, MonthName(d.monthName), MonthNotFound);
    PickStepSpec(env, DayTable, w.days, DayNumber(d.day as nat), DayNotFound);
  }

  /** A choice whose picker does not land throws what the landing threw. */
  lemma ChooseDateLandingFails(env: Portal, closed: bool, date: Date, isStart: bool)
    requires WellFormed(env.calendar) && ValidDate(date)
    requires PickerLanding(env, closed, date.year, isStart).Failure?
    ensures ChooseOutcome(env, closed, DecomposeDate(date), isStart)
      == Failure(PickerLanding(env, closed, date.year, isStart).error)
  {
    DecomposeDateSpec(date);
  }

  /** Whether a call belongs to the date-range selection of `getTransactions`. */
  predicate RangeAction(a: Action)
  {
    a == Click(DurationInput) || a == Click(StatementSubmit) || a.PickCell?
  }

  predicate NoRangeSelection(acts: seq<Action>)
  {
    forall i :: 0 <= i < |acts| ==> !RangeAction(acts[i])
  }

  // ---------------------------------------------------------------------------
  // getTransactions

  /** The navigation to the statement page. */
  function StatementNav(wait: WaitForOptions): seq<Action>
  {
    [Goto(TransactionUrl, wait)]
  }

  /** Opening the duration picker: wait for its input and click it. */
  function RangeOpenScript(): seq<Action>
  {
    [WaitFor(DurationInput), Click(DurationInput)]
  }

  /** Submitting the chosen range: wait for the submit buttons and click them. */
  function RangeSubmitScript(): seq<Action>
  {
    [WaitFor(StatementSubmit), Click(StatementSubmit)]
  }

  /** Reading the statement table. */
  function TableScript(): seq<Action>
  {
    [WaitFor(TransactionTable), Read(TransactionTable)]
  }

  /** Reading the account number. */
  function AccountScript(): seq<Action>
  {
    [WaitFor(AccountNumber), Read(AccountNumber)]
  }

  /**
   * The range selection of `getTransactions(startAt, endAt)`: open the picker, choose
   * the start bound, then the end bound, then submit.
   */
  function RangeOutcome(env: Portal, closed: bool, startAt: Date, endAt: Date): Result<(), Error>
    requires WellFormed(env.calendar) && ValidDate(startAt) && ValidDate(endAt)
  {
    match ScriptResult(env, closed, RangeOpenScript())
    case Failure(e) => Failure(e)
    case Success(_) => BoundsOutcome(env, closed, startAt, endAt)
  }

  /** The range selection once the picker opened: both bounds, then the submission. */
  function BoundsOutcome(env: Portal, closed: bool, startAt: Date, endAt: Date): Result<(), Error>
    requires WellFormed(env.calendar) && ValidDate(startAt) && ValidDate(endAt)
  {
    match ChooseOutcome(env, closed, DecomposeDate(startAt), true)
    case Failure(e) => Failure(e)
    case Success(_) => EndOutcome(env, closed, endAt)
  }

  /** The end bound's choice, then the submission. */
  function EndOutcome(env: Portal, closed: bool, endAt: Date): Result<(), Error>
    requires WellFormed(env.calendar) && ValidDate(endAt)
  {
    match ChooseOutcome(env, closed, DecomposeDate(endAt), false)
    case Failure(e) => Failure(e)
    case Success(_) => ScriptResult(env, closed, RangeSubmitScript())
  }

  /**
   * The calls of the range selection: the picker's opening, the start bound's choice when
   * it opened, the end bound's after that, and the submission when both were chosen.
   */
  function RangeTrace(env: Portal, closed: bool, startAt: Date, endAt: Date): seq<Action>
    requires WellFormed(env.calendar) && ValidDate(startAt) && ValidDate(endAt)
  {
    Performed(env, closed, RangeOpenScript())
    + (if ScriptResult(env, closed, RangeOpenScript()).Failure? then [] else BoundsTrace(env, closed, startAt, endAt))
  }

  /** The calls of the range selection once the picker opened. */
  function BoundsTrace(env: Portal, closed: bool, startAt: Date, endAt: Date): seq<Action>
    requires WellFormed(env.calendar) && ValidDate(startAt) && ValidDate(endAt)
  {
    var ds := DecomposeDate(startAt);
    DecomposeDateSpec(startAt);
    ChooseTrace(env, closed, ds, true)
    + (if ChooseOutcome(env, closed, ds, true).Failure? then [] else EndTrace(env, closed, endAt))
  }

  /** The calls of the end bound's choice and of the submission. */
  function EndTrace(env: Portal, closed: bool, endAt: Date): seq<Action>
    requires WellFormed(env.calendar) && ValidDate(endAt)
  {
    var de := DecomposeDate(endAt);
    DecomposeDateSpec(endAt);
    ChooseTrace(env, closed, de, false)
    + (if ChooseOutcome(env, closed, de, false).Failure? then [] else Performed(env, closed, RangeSubmitScript()))
  }

  /** A successful selection made every call of its four steps, in order. */
  lemma RangeTraceOnSuccess(env: Portal, closed: bool, startAt: Date, endAt: Date)
    requires WellFormed(env.calendar) && ValidDate(startAt) && ValidDate(endAt)
    requires RangeOutcome(env, closed, startAt, endAt).Success?
    ensures RangeTrace(env, closed, startAt, endAt) ==
      RangeOpenScript() + ChooseTrace(env, closed, DecomposeDate(startAt), true)
      + ChooseTrace(env, closed, DecomposeDate(endAt), false) + RangeSubmitScript()
  {
    DecomposeDateSpec(startAt);
    DecomposeDateSpec(endAt);
    var a := RangeOpenScript();
    var b := ChooseTrace(env, closed, DecomposeDate(startAt), true);
    var c := ChooseTrace(env, closed, DecomposeDate(endAt), false);
    var e := RangeSubmitScript();
    assert ScriptResult(env, closed, a).Success?;
    assert ScriptResult(env, closed, e).Success?;
    RanInFull(env, closed, a);
    RanInFull(env, closed, e);
    assert RangeTrace(env, closed, startAt, endAt) == a + (b + (c + e));
    Regroup(a + b, c, e);
    Regroup(a, b, c + e);
  }

  /** The end bound's choice either throws, and nothing follows, or is followed by the submission. */
  lemma EndSteps(env: Portal, closed: bool, endAt: Date)
    requires WellFormed(env.calendar) && ValidDate(endAt)
    ensures DecomposeDate(endAt).day >= 1
    ensures var c := ChooseOutcome(env, closed, DecomposeDate(endAt), false);
      c.Failure? ==> EndOutcome(env, closed, endAt) == Failure(c.error)
                     && EndTrace(env, closed, endAt) == ChooseTrace(env, closed, DecomposeDate(endAt), false)
    ensures var c := ChooseOutcome(env, closed, DecomposeDate(endAt), false);
      c.Success? ==> EndOutcome(env, closed, endAt) == ScriptResult(env, closed, RangeSubmitScript())
                     && EndTrace(env, closed, endAt)
                        == ChooseTrace(env, closed, DecomposeDate(endAt), false) + Performed(env, closed, RangeSubmitScript())
  {
    DecomposeDateSpec(endAt);
    var t := ChooseTrace(env, closed, DecomposeDate(endAt), false);
    assert t + [] == t;
  }

  /**
   * The records `getTransactions` returns once the statement page shows: one per table
   * row, in table order, each combining the row with the trimmed account number; a row
   * without a third cell makes the extraction throw.
   */
  function ReadStatement(env: Portal, closed: bool, currentYear: int, md5: string -> string,
                         showDate: BcaDate -> string): (r: Result<seq<BankTransaction>, Error>)
    ensures r.Success? <==>
      ScriptResult(env, closed, TableScript()).Success? && ExtractRows(env.rows).Some?
      && ScriptResult(env, closed, AccountScript()).Success?
    ensures ScriptResult(env, closed, TableScript()).Success? && ExtractRows(env.rows).None? ==>
      r == Failure(MalformedRow)
  {
    match ScriptResult(env, closed, TableScript())
    case Failure(e) => Failure(e)
    case Success(_) =>
      match ExtractRows(env.rows)
      case None => Failure(MalformedRow)
      case Some(raw) =>
        match ScriptResult(env, closed, AccountScript())
        case Failure(e) => Failure(e)
        case Success(_) => Success(BuildRecords(raw, Trim(env.accNumText), currentYear, md5, showDate))
  }

  /** One record per table row, built from that row and the trimmed account number. */
  lemma ReadStatementRecords(env: Portal, closed: bool, currentYear: int, md5: string -> string,
                             showDate: BcaDate -> string)
    ensures var r := ReadStatement(env, closed, currentYear, md5, showDate);
      r.Success? ==>
        |r.value| == |env.rows|
        && forall i :: 0 <= i < |env.rows| ==>
          r.value[i] == MakeRecord(ParseRow(env.rows[i]).value, Trim(env.accNumText), currentYear, md5, showDate)
  {
    var r := ReadStatement(env, closed, currentYear, md5, showDate);
    if r.Success? {
      var raw := ExtractRows(env.rows).value;
      assert r.value == BuildRecords(raw, Trim(env.accNumText), currentYear, md5, showDate);
      BuildRecordsAt(raw, Trim(env.accNumText), currentYear, md5, showDate);
    }
  }

  /** Both bounds are given: only then is a range selected. */
  predicate HasRange(startAt: Option<Date>, endAt: Option<Date>)
  {
    startAt.Some? && endAt.Some?
  }

  predicate BoundsValid(startAt: Option<Date>, endAt: Option<Date>)
  {
    (startAt.Some? ==> ValidDate(startAt.value)) && (endAt.Some? ==> ValidDate(endAt.value))
  }

  /** `getTransactions(startAt, endAt)` once logged in. */
  function TransactionsOutcome(env: Portal, closed: bool, startAt: Option<Date>, endAt: Option<Date>,
                               wait: WaitForOptions, currentYear: int, md5: string -> string,
                               showDate: BcaDate -> string): Result<seq<BankTransaction>, Error>
    requires WellFormed(env.calendar) && BoundsValid(startAt, endAt)
  {
    match ScriptResult(env, closed, StatementNav(wait))
    case Failure(e) => Failure(e)
    case Success(_) => AfterNavOutcome(env, closed, startAt, endAt, currentYear, md5, showDate)
  }

  /** `getTransactions` once the statement page is open: the range, when given, then the reading. */
  function AfterNavOutcome(env: Portal, closed: bool, startAt: Option<Date>, endAt: Option<Date>,
                           currentYear: int, md5: string -> string,
                           showDate: BcaDate -> string): Result<seq<BankTransaction>, Error>
    requires WellFormed(env.calendar) && BoundsValid(startAt, endAt)
  {
    match (if HasRange(startAt, endAt) then RangeOutcome(env, closed, startAt.value, endAt.value) else Success(()))
    case Failure(e) => Failure(e)
    case Success(_) => ReadStatement(env, closed, currentYear, md5, showDate)
  }

  /** The calls of reading the statement page. */
  function StatementTrace(env: Portal, closed: bool): (t: seq<Action>)
    ensures |t| > 0 && t[0] == WaitFor(TransactionTable)
  {
    Performed(env, closed, TableScript())
    + (if ScriptResult(env, closed, TableScript()).Success? && ExtractRows(env.rows).Some?
       then Performed(env, closed, AccountScript()) else [])
  }

  /** The calls of `getTransactions` once logged in, when no range is selected. */
  function PlainTrace(env: Portal, closed: bool, wait: WaitForOptions): (t: seq<Action>)
    ensures |t| > 0 && t[0] == Goto(TransactionUrl, wait)
  {
    Performed(env, closed, StatementNav(wait))
    + (if ScriptResult(env, closed, StatementNav(wait)).Success? then StatementTrace(env, closed) else [])
  }

  /**
   * The calls of `getTransactions` once logged in: the navigation, the range selection
   * when both bounds are given, and the statement's reading unless something threw first.
   */
  function TransactionsTrace(env: Portal, closed: bool, startAt: Option<Date>, endAt: Option<Date>,
                             wait: WaitForOptions): seq<Action>
    requires WellFormed(env.calendar) && BoundsValid(startAt, endAt)
  {
    Performed(env, closed, StatementNav(wait))
    + (if ScriptResult(env, closed, StatementNav(wait)).Failure? then []
       else AfterNavTrace(env, closed, startAt, endAt))
  }

  /** The calls once the statement page is open: the selection when given, then the reading unless it threw. */
  function AfterNavTrace(env: Portal, closed: bool, startAt: Option<Date>, endAt: Option<Date>): seq<Action>
    requires WellFormed(env.calendar) && BoundsValid(startAt, endAt)
  {
    if !HasRange(startAt, endAt) then StatementTrace(env, closed)
    else RangeTrace(env, closed, startAt.value, endAt.value)
         + (if RangeOutcome(env, closed, startAt.value, endAt.value).Failure? then []
            else StatementTrace(env, closed))
  }

  /** The first call of `getTransactions` once logged in is always the `goto` of the statement page. */
  lemma TransactionsTraceOpensStatement(env: Portal, closed: bool, startAt: Option<Date>, endAt: Option<Date>,
                                        wait: WaitForOptions)
    requires WellFormed(env.calendar) && BoundsValid(startAt, endAt)
    ensures var t := TransactionsTrace(env, closed, startAt, endAt, wait);
      |t| > 0 && t[0] == Goto(TransactionUrl, wait)
  {
    var nav := StatementNav(wait);
    assert Performed(env, closed, nav)[0] == nav[0];
  }

  /** Without both bounds no range is selected: the calls are the plain ones. */
  lemma TransactionsTraceNoRange(env: Portal, closed: bool, startAt: Option<Date>, endAt: Option<Date>,
                                 wait: WaitForOptions)
    requires WellFormed(env.calendar) && BoundsValid(startAt, endAt) && !HasRange(startAt, endAt)
    ensures TransactionsTrace(env, closed, startAt, endAt, wait) == PlainTrace(env, closed, wait)
  {
  }

  /** With both bounds, a selection that throws ends the calls: the statement is not read. */
  lemma TransactionsTraceRangeFails(env: Portal, closed: bool, startAt: Date, endAt: Date, wait: WaitForOptions)
    requires WellFormed(env.calendar) && ValidDate(startAt) && ValidDate(endAt)
    requires ScriptResult(env, closed, StatementNav(wait)).Success?
    requires RangeOutcome(env, closed, startAt, endAt).Failure?
    ensures TransactionsTrace(env, closed, Some(startAt), Some(endAt), wait)
      == StatementNav(wait) + RangeTrace(env, closed, startAt, endAt)
  {
    RanInFull(env, closed, StatementNav(wait));
    assert RangeTrace(env, closed, startAt, endAt) + [] == RangeTrace(env, closed, startAt, endAt);
  }

  /** The statement page is read exactly when the browser is open, both elements show and every row has three cells. */
  lemma ReadStatementSucceedsIff(env: Portal, closed: bool, currentYear: int, md5: string -> string,
                                 showDate: BcaDate -> string)
    ensures ReadStatement(env, closed, currentYear, md5, showDate).Success? <==>
      !closed && Present(env, TransactionTable) && Present(env, AccountNumber)
      && forall i :: 0 <= i < |env.rows| ==> |env.rows[i]| >= 3
  {
    var t := TableScript();
    var a := AccountScript();
    if ScriptResult(env, closed, t).Success? {
      SucceededAllOk(env, closed, t);
      assert Ok(env, closed, t[0]);
    }
    if ScriptResult(env, closed, a).Success? {
      SucceededAllOk(env, closed, a);
      assert Ok(env, closed, a[0]);
    }
    if !closed && Present(env, TransactionTable) && Present(env, AccountNumber) {
      AllOkRun(env, closed, t);
      AllOkRun(env, closed, a);
    }
  }

  /**
   * Each record `getTransactions` returns comes from the table row at the same place:
   * bank code "BCA", the trimmed account number, the row's date, description, amount and
   * type, and an external id that is the digest of those fields.
   */
  lemma TransactionsRecordsMatchRows(env: Portal, closed: bool, startAt: Option<Date>, endAt: Option<Date>,
                                     wait: WaitForOptions, currentYear: int, md5: string -> string,
                                     showDate: BcaDate -> string)
    requires WellFormed(env.calendar) && BoundsValid(startAt, endAt)
    ensures var o := TransactionsOutcome(env, closed, startAt, endAt, wait, currentYear, md5, showDate);
      o.Success? ==>
        |o.value| == |env.rows|
        && forall i :: 0 <= i < |env.rows| ==>
          |env.rows[i]| >= 3
          && o.value[i].bankCode == BankCode && o.value[i].accountNum == Trim(env.accNumText)
          && o.value[i].transactionDate == FormatterDateBca(env.rows[i][0].text, currentYear)
          && o.value[i].transactionName == env.rows[i][1].text
          && o.value[i].transactionAmount == ParseAmount(env.rows[i][2].text)
          && (o.value[i].transactionType == CR <==> "text-danger" in env.rows[i][2].classes)
          && KeyedBy(o.value[i], md5, showDate)
  {
    var o := TransactionsOutcome(env, closed, startAt, endAt, wait, currentYear, md5, showDate);
    if o.Success? {
      var rs := ReadStatement(env, closed, currentYear, md5, showDate);
      assert o == rs;
      ReadStatementRecords(env, closed, currentYear, md5, showDate);
      forall i | 0 <= i < |env.rows|
        ensures |env.rows[i]| >= 3
        ensures rs.value[i] == MakeRecord(ParseRow(env.rows[i]).value, Trim(env.accNumText), currentYear, md5, showDate)
      {
      }
    }
  }

  /** One row without a third cell makes `getTransactions` throw, whatever else the page shows. */
  lemma MalformedRowFails(env: Portal, closed: bool, startAt: Option<Date>, endAt: Option<Date>,
                          wait: WaitForOptions, currentYear: int, md5: string -> string,
                          showDate: BcaDate -> string, k: nat)
    requires WellFormed(env.calendar) && BoundsValid(startAt, endAt)
    requires k < |env.rows| && |env.rows[k]| < 3
    ensures TransactionsOutcome(env, closed, startAt, endAt, wait, currentYear, md5, showDate).Failure?
  {
    assert ExtractRows(env.rows).None?;
  }

  /** Without both bounds the date picker plays no part in the outcome. */
  lemma TransactionsIgnorePicker(env: Portal, closed: bool, startAt: Option<Date>, endAt: Option<Date>,
                                 wait: WaitForOptions, currentYear: int, md5: string -> string,
                                 showDate: BcaDate -> string, other: Widget)
    requires WellFormed(env.calendar) && WellFormed(other) && BoundsValid(startAt, endAt)
    requires !HasRange(startAt, endAt)
    ensures TransactionsOutcome(env, closed, startAt, endAt, wait, currentYear, md5, showDate)
         == TransactionsOutcome(env.(calendar := other), closed, startAt, endAt, wait, currentYear, md5, showDate)
  {
    var env2 := env.(calendar := other);
    assert forall s :: Performed(env, closed, s) == Performed(env2, closed, s) && ScriptResult(env, closed, s) == ScriptResult(env2, closed, s) by {
      forall s ensures Performed(env, closed, s) == Performed(env2, closed, s) && ScriptResult(env, closed, s) == ScriptResult(env2, closed, s) {
        SameCallsSameRun(env, env2, closed, s);
      }
    }
  }

  /** Two portals that differ only in the picker make the same calls succeed. */
  lemma {:induction false} SameCallsSameRun(env: Portal, env2: Portal, closed: bool, script: seq<Action>)
    requires env2 == env.(calendar := env2.calendar)
    ensures Performed(env, closed, script) == Performed(env2, closed, script)
    ensures ScriptResult(env, closed, script) == ScriptResult(env2, closed, script)
  {
    if script != [] {
      SameCallsSameRun(env, env2, closed, script[1..]);
    }
  }

  /**
   * When the end bound's year lies past the home page's range, a range is never
   * selected: the end-bound picker does not page forwards.
   */
  lemma RangeEndPastHomeFails(env: Portal, closed: bool, startAt: Date, endAt: Date)
    requires WellFormed(env.calendar) && ValidDate(startAt) && ValidDate(endAt)
    requires !AtLeast(HomeEnd(env.calendar), endAt.year)
    ensures RangeOutcome(env, closed, startAt, endAt).Failure?
  {
    PickerEndStaysHome(env, closed, endAt.year);
  }

  /** A selected range chose both bounds and submitted. */
  lemma RangeOutcomeSteps(env: Portal, closed: bool, startAt: Date, endAt: Date)
    requires WellFormed(env.calendar) && ValidDate(startAt) && ValidDate(endAt)
    ensures RangeOutcome(env, closed, startAt, endAt).Success? <==>
      ScriptResult(env, closed, RangeOpenScript()).Success?
      && ChooseOutcome(env, closed, DecomposeDate(startAt), true).Success?
      && ChooseOutcome(env, closed, DecomposeDate(endAt), false).Success?
      && ScriptResult(env, closed, RangeSubmitScript()).Success?
  {
  }

  /** Without a range, `getTransactions` makes no range call. */
  lemma PlainTraceNoRange(env: Portal, closed: bool, wait: WaitForOptions)
    ensures NoRangeSelection(PlainTrace(env, closed, wait))
  {
    NoRangeInPerformed(env, closed, StatementNav(wait));
    NoRangeInPerformed(env, closed, TableScript());
    NoRangeInPerformed(env, closed, AccountScript());
  }

  lemma NoRangeInPerformed(env: Portal, closed: bool, script: seq<Action>)
    requires NoRangeSelection(script)
    ensures NoRangeSelection(Performed(env, closed, script))
  {
    PerformedIsPrefix(env, closed, script);
  }

  /** A successful read without a range made exactly the five calls, in order. */
  lemma PlainTraceOnSuccess(env: Portal, closed: bool, wait: WaitForOptions, currentYear: int,
                            md5: string -> string, showDate: BcaDate -> string)
    requires ScriptResult(env, closed, StatementNav(wait)).Success?
    requires ReadStatement(env, closed, currentYear, md5, showDate).Success?
    ensures PlainTrace(env, closed, wait)
      == [Goto(TransactionUrl, wait), WaitFor(TransactionTable), Read(TransactionTable),
          WaitFor(AccountNumber), Read(AccountNumber)]
  {
    assert ScriptResult(env, closed, TableScript()).Success? && ExtractRows(env.rows).Some?
      && ScriptResult(env, closed, AccountScript()).Success?;
    PlainTraceWhenRead(env, closed, wait);
  }

  lemma PlainTraceWhenRead(env: Portal, closed: bool, wait: WaitForOptions)
    requires ScriptResult(env, closed, StatementNav(wait)).Success?
    requires ScriptResult(env, closed, TableScript()).Success? && ExtractRows(env.rows).Some?
    requires ScriptResult(env, closed, AccountScript()).Success?
    ensures PlainTrace(env, closed, wait)
      == [Goto(TransactionUrl, wait), WaitFor(TransactionTable), Read(TransactionTable),
          WaitFor(AccountNumber), Read(AccountNumber)]
  {
    SucceededAllOk(env, closed, StatementNav(wait));
    AllOkRun(env, closed, StatementNav(wait));
    SucceededAllOk(env, closed, TableScript());
    AllOkRun(env, closed, TableScript());
    SucceededAllOk(env, closed, AccountScript());
    AllOkRun(env, closed, AccountScript());
    var nav, table, account := StatementNav(wait), TableScript(), AccountScript();
    assert StatementTrace(env, closed) == table + account;
    assert PlainTrace(env, closed, wait) == nav + (table + account);
  }

  /** `logout` when logged in succeeds exactly when the page opens and shows its button. */
  lemma LogoutSucceedsIff(env: Portal, closed: bool, wait: WaitForOptions)
    ensures ScriptResult(env, closed, LogoutScript(wait)).Success? <==>
      !closed && LogoutUrl !in env.unreachable && Present(env, LogoutButton)
  {
    var s := LogoutScript(wait);
    if ScriptResult(env, closed, s).Success? {
      SucceededAllOk(env, closed, s);
      assert Ok(env, closed, s[0]) && Ok(env, closed, s[1]);
    }
    if !closed && LogoutUrl !in env.unreachable && Present(env, LogoutButton) {
      AllOkRun(env, closed, s);
    }
  }

  lemma Regroup(a: seq<Action>, b: seq<Action>, c: seq<Action>)
    ensures a + b + c == a + (b + c)
  {
  }

  // ---------------------------------------------------------------------------
  // The browser fields of the scraper

  /**
   * The browser side of the scraper's state: whether `browser` and `page` are set,
   * whether the page's browser was closed, and the year page the picker shows.
   */
  datatype BrowserState = BrowserState(browser: bool, page: bool, closed: bool, yearIdx: nat)

  /**
   * The state after `initBrowser`: a failed launch changes nothing; a launch whose
   * `newPage` fails sets `browser` but leaves the page (and whether its calls fail) as
   * it was; otherwise a fresh open browser and page, with the picker on its home page.
   */
  function AfterInit(env: Portal, st: BrowserState): (after: BrowserState)
    ensures after.page ==> after.browser || st.page
    ensures env.launchOk ==> after.browser
  {
    if !env.launchOk then st
    else if !env.newPageOk then st.(browser := true)
    else BrowserState(true, true, false, env.calendar.home)
  }

  /** The state after `login`: the browser is started only when `browser` or `page` is missing. */
  function AfterLogin(env: Portal, st: BrowserState): (after: BrowserState)
    ensures st.browser && st.page ==> after == st
  {
    if st.browser && st.page then st else AfterInit(env, st)
  }

  /** A successful `login` leaves an open browser and page behind. */
  lemma LoginLeavesOpenPage(env: Portal, st: BrowserState, userId: string, pass: string, wait: WaitForOptions)
    requires st.page ==> st.browser
    requires LoginOutcome(env, st.page, st.closed, userId, pass, wait).Success?
    ensures var after := AfterLogin(env, st); after.browser && after.page && !after.closed
  {
    BrowserScriptRun(env, DefaultLaunchOptions);
  }

  // ---------------------------------------------------------------------------
  // The scraper

  class MyBcaBankScrapper {
    const userId: string
    const pass: string
    /** The portal the browser talks to. */
    const portal: Portal

    var hasLoggedIn: bool
    var browser: bool
    var page: bool
    var waitOptions: WaitForOptions

    /** State of the browser: closed by `close`, and the year page the picker shows. */
    var browserClosed: bool
    var yearIdx: nat
    /** Every browser call made so far, oldest first. */
    var trace: seq<Action>

    ghost predicate Valid()
      reads this`yearIdx, this`page, this`browser, this`hasLoggedIn
    {
      WellFormed(portal.calendar) && yearIdx < |portal.calendar.pages|
      && (page ==> browser) && (hasLoggedIn ==> page)
    }

    /** The browser fields, together. */
    function State(): BrowserState
      reads this
    {
      BrowserState(browser, page, browserClosed, yearIdx)
    }

    constructor(userId: string, pass: string, portal: Portal)
      requires WellFormed(portal.calendar)
      ensures Valid()
      ensures this.userId == userId && this.pass == pass && this.portal == portal
      ensures !hasLoggedIn && !browser && !page && !browserClosed
      ensures waitOptions == DefaultWaitForOptions
      ensures trace == []
    {
      this.userId := userId;
      this.pass := pass;
      this.portal := portal;
      hasLoggedIn := false;
      browser := false;
      page := false;
      waitOptions := DefaultWaitForOptions;
      browserClosed := false;
      yearIdx := portal.calendar.home;
      trace := [];
    }

    method SetDefaultWaitForOptions(options: WaitForOptions)
      modifies this`waitOptions
      ensures waitOptions == options
    {
      waitOptions := options;
    }

    /**
     * Launch a browser, then open a page in it. A failed launch changes nothing but the
     * trace; a failed `newPage` leaves `browser` set and `page` as it was.
     */
    method InitBrowser(options: LaunchOptions) returns (r: Result<(), Error>)
      requires Valid()
      modifies this`browser, this`page, this`browserClosed, this`yearIdx, this`trace
      ensures Valid()
      ensures trace == old(trace) + Performed(portal, false, BrowserScript(options))
      ensures r == ScriptResult(portal, false, BrowserScript(options))
      ensures State() == AfterInit(portal, old(State()))
    {
      BrowserScriptRun(portal, options);
      trace := trace + [Launch(options)];
      if !portal.launchOk {
        return Failure(LaunchFailed);
      }
      browser := true;
      trace := trace + [NewPage];
      if !portal.newPageOk {
        return Failure(NewPageFailed);
      }
      page := true;
      browserClosed := false;
      yearIdx := portal.calendar.home;
      r := Success(());
    }

    /** Await the calls of `script` one after the other; the first that throws ends the run. */
    method Run(script: seq<Action>) returns (r: Result<(), Error>)
      requires Valid()
      modifies this`trace
      ensures Valid()
      ensures trace == old(trace) + Performed(portal, browserClosed, script)
      ensures r == ScriptResult(portal, browserClosed, script)
    {
      var i := 0;
      while i < |script|
        invariant 0 <= i <= |script|
        invariant trace == old(trace) + script[..i]
        invariant forall j :: 0 <= j < i ==> Ok(portal, browserClosed, script[j])
      {
        trace := trace + [script[i]];
        assert script[..i + 1] == script[..i] + [script[i]];
        if !Ok(portal, browserClosed, script[i]) {
          FirstFailureAt(portal, browserClosed, script, i);
          return Failure(ErrorOf(browserClosed, script[i]));
        }
        i := i + 1;
      }
      assert script[..i] == script;
      AllOkRun(portal, browserClosed, script);
      r := Success(());
    }

    /** Start the browser when there is none, then run the login sequence. */
    method Login() returns (r: Result<(), Error>)
      requires Valid()
      modifies this`browser, this`page, this`browserClosed, this`yearIdx, this`trace, this`hasLoggedIn
      ensures Valid()
      ensures r == LoginOutcome(portal, old(page), old(browserClosed), userId, pass, waitOptions)
      ensures trace == old(trace) + LoginTrace(portal, old(page), old(browserClosed), userId, pass, waitOptions)
      ensures hasLoggedIn == (old(hasLoggedIn) || r.Success?)
      ensures State() == AfterLogin(portal, old(State()))
      ensures r.Success? ==> browser && page && !browserClosed
    {
      var script := LoginScript(userId, pass, waitOptions);
      ghost var lt := LoginTrace(portal, page, browserClosed, userId, pass, waitOptions);
      ghost var lo := LoginOutcome(portal, page, browserClosed, userId, pass, waitOptions);
      BrowserScriptRun(portal, DefaultLaunchOptions);
      if !browser || !page {
        assert !page;
        r := InitBrowser(DefaultLaunchOptions);
        ghost var launch := Performed(portal, false, BrowserScript(DefaultLaunchOptions));
        if r.Success? {
          r := Run(script);
          assert lt == launch + Performed(portal, false, script);
          Regroup(old(trace), launch, Performed(portal, false, script));
        } else {
          assert lt == launch;
        }
      } else {
        assert lt == Performed(portal, browserClosed, script);
        r := Run(script);
      }
      assert trace == old(trace) + lt;
      OpenWhenSucceeded(portal, browserClosed, script);
      if r.Success? {
        hasLoggedIn := true;
      }
    }

    /** Log in if needed, then open the dashboard, unlock the balance and read it. */
    method GetCurrentBalance() returns (r: Result<Option<nat>, Error>)
      requires Valid()
      modifies this`browser, this`page, this`browserClosed, this`yearIdx, this`trace, this`hasLoggedIn
      ensures Valid()
      ensures old(hasLoggedIn) ==>
        hasLoggedIn && State() == old(State())
        && trace == old(trace) + Performed(portal, old(browserClosed), BalanceScript(waitOptions))
        && r == ReadBalance(portal, old(browserClosed), waitOptions)
      ensures !old(hasLoggedIn) ==> State() == AfterLogin(portal, old(State()))
      ensures !old(hasLoggedIn) ==>
        var lr := LoginOutcome(portal, old(page), old(browserClosed), userId, pass, waitOptions);
        var lt := LoginTrace(portal, old(page), old(browserClosed), userId, pass, waitOptions);
        hasLoggedIn == lr.Success?
        && (lr.Failure? ==> r == Failure(lr.error) && trace == old(trace) + lt)
        && (lr.Success? ==> r == ReadBalance(portal, false, waitOptions)
                            && trace == old(trace) + lt + Performed(portal, false, BalanceScript(waitOptions)))
    {
      var l := EnsureLoggedIn();
      if l.Failure? {
        return Failure(l.error);
      }
      ghost var t0 := trace;
      var script := BalanceScript(waitOptions);
      var s := Run(script);
      assert trace == t0 + Performed(portal, browserClosed, script);
      if s.Failure? {
        return Failure(s.error);
      }
      r := Success(ParseAmount(Trim(portal.balanceText)));
    }

    /** Await the calls of `script`; only the made calls are added to the trace. */
    method Await(script: seq<Action>) returns (r: Result<(), Error>)
      requires Valid()
      modifies this`trace
      ensures Valid()
      ensures r == ScriptResult(portal, browserClosed, script)
      ensures trace == old(trace) + Performed(portal, browserClosed, script)
      ensures old(trace) <= trace
    {
      r := Run(script);
      PerformedIsPrefix(portal, browserClosed, script);
    }

    /**
     * Log in if needed, open the statement page, select the range when both bounds are
     * given, then read the table and the account number and build the records.
     * `currentYear`, `md5` and `showDate` stand for `new Date().getFullYear()`, the MD5
     * hex digest and the rendering of a `Date` in a template literal.
     */
    method GetTransactions(startAt: Option<Date>, endAt: Option<Date>, currentYear: int,
                           md5: string -> string, showDate: BcaDate -> string)
        returns (r: Result<seq<BankTransaction>, Error>)
      requires Valid() && BoundsValid(startAt, endAt)
      modifies this`browser, this`page, this`browserClosed, this`yearIdx, this`trace, this`hasLoggedIn
      ensures Valid()
      ensures hasLoggedIn == (old(hasLoggedIn)
                              || LoginOutcome(portal, old(page), old(browserClosed), userId, pass, waitOptions).Success?)
      ensures !hasLoggedIn ==> r == Failure(LoginOutcome(portal, old(page), old(browserClosed), userId, pass, waitOptions).error)
      ensures hasLoggedIn ==>
        browserClosed == (old(browserClosed) && old(hasLoggedIn))
        && r == TransactionsOutcome(portal, browserClosed, startAt, endAt, waitOptions, currentYear, md5, showDate)
      ensures var st := if old(hasLoggedIn) then old(State()) else AfterLogin(portal, old(State()));
        browser == st.browser && page == st.page && browserClosed == st.closed
        && (!HasRange(startAt, endAt) || !hasLoggedIn ==> yearIdx == st.yearIdx)
      ensures trace == old(trace)
        + (if old(hasLoggedIn) then [] else LoginTrace(portal, old(page), old(browserClosed), userId, pass, waitOptions))
        + (if hasLoggedIn then TransactionsTrace(portal, browserClosed, startAt, endAt, waitOptions) else [])
    {
      ghost var login := if hasLoggedIn then [] else LoginTrace(portal, page, browserClosed, userId, pass, waitOptions);
      var l := EnsureLoggedIn();
      ghost var t1 := trace;
      assert t1 == old(trace) + login;
      if l.Failure? {
        r := Failure(l.error);
        assert t1 + [] == t1;
      } else {
        r := LoggedInTransactions(startAt, endAt, currentYear, md5, showDate);
      }
    }

    /** The login check of `getCurrentBalance` and `getTransactions`: log in unless logged in. */
    method EnsureLoggedIn() returns (l: Result<(), Error>)
      requires Valid()
      modifies this`browser, this`page, this`browserClosed, this`yearIdx, this`trace, this`hasLoggedIn
      ensures Valid()
      ensures old(hasLoggedIn) ==>
        l == Success(()) && hasLoggedIn && trace == old(trace) && State() == old(State())
      ensures !old(hasLoggedIn) ==>
        l == LoginOutcome(portal, old(page), old(browserClosed), userId, pass, waitOptions)
        && trace == old(trace) + LoginTrace(portal, old(page), old(browserClosed), userId, pass, waitOptions)
        && hasLoggedIn == l.Success? && State() == AfterLogin(portal, old(State()))
        && (l.Success? ==> !browserClosed)
    {
      if hasLoggedIn {
        return Success(());
      }
      l := Login();
    }

    /** `getTransactions` after the login check. */
    method LoggedInTransactions(startAt: Option<Date>, endAt: Option<Date>, currentYear: int,
                                md5: string -> string, showDate: BcaDate -> string)
        returns (r: Result<seq<BankTransaction>, Error>)
      requires Valid() && BoundsValid(startAt, endAt)
      modifies this`yearIdx, this`trace
      ensures Valid()
      ensures r == TransactionsOutcome(portal, browserClosed, startAt, endAt, waitOptions, currentYear, md5, showDate)
      ensures trace == old(trace) + TransactionsTrace(portal, browserClosed, startAt, endAt, waitOptions)
      ensures !HasRange(startAt, endAt) ==> yearIdx == old(yearIdx)
    {
      ghost var nav := Performed(portal, browserClosed, StatementNav(waitOptions));
      var g := Await(StatementNav(waitOptions));
      if g.Failure? {
        r := Failure(g.error);
        assert nav + [] == nav;
      } else {
        r := RangeThenRead(startAt, endAt, currentYear, md5, showDate);
        Regroup(old(trace), nav, AfterNavTrace(portal, browserClosed, startAt, endAt));
      }
    }

    /** The statement page is open: select the range when both bounds are given, then read the page. */
    method RangeThenRead(startAt: Option<Date>, endAt: Option<Date>, currentYear: int,
                         md5: string -> string, showDate: BcaDate -> string)
        returns (r: Result<seq<BankTransaction>, Error>)
      requires Valid() && BoundsValid(startAt, endAt)
      modifies this`yearIdx, this`trace
      ensures Valid()
      ensures r == AfterNavOutcome(portal, browserClosed, startAt, endAt, currentYear, md5, showDate)
      ensures trace == old(trace) + AfterNavTrace(portal, browserClosed, startAt, endAt)
      ensures !HasRange(startAt, endAt) ==> yearIdx == old(yearIdx)
    {
      if HasRange(startAt, endAt) {
        ghost var range := RangeTrace(portal, browserClosed, startAt.value, endAt.value);
        var s := SelectRange(startAt.value, endAt.value);
        if s.Failure? {
          r := Failure(s.error);
          assert range + [] == range;
        } else {
          r := ReadStatementPage(currentYear, md5, showDate);
          Regroup(old(trace), range, StatementTrace(portal, browserClosed));
        }
      } else {
        r := ReadStatementPage(currentYear, md5, showDate);
      }
    }

    /** Open the duration picker, choose both bounds and submit. */
    method SelectRange(startAt: Date, endAt: Date) returns (r: Result<(), Error>)
      requires Valid() && ValidDate(startAt) && ValidDate(endAt)
      modifies this`yearIdx, this`trace
      ensures Valid()
      ensures r == RangeOutcome(portal, browserClosed, startAt, endAt)
      ensures trace == old(trace) + RangeTrace(portal, browserClosed, startAt, endAt)
    {
      ghost var opening := Performed(portal, browserClosed, RangeOpenScript());
      var o := Await(RangeOpenScript());
      if o.Failure? {
        assert opening + [] == opening;
        return Failure(o.error);
      }
      r := ChooseBounds(startAt, endAt);
      Regroup(old(trace), opening, BoundsTrace(portal, browserClosed, startAt, endAt));
    }

    /** Choose the start bound, then the end bound, then submit. */
    method ChooseBounds(startAt: Date, endAt: Date) returns (r: Result<(), Error>)
      requires Valid() && ValidDate(startAt) && ValidDate(endAt)
      modifies this`yearIdx, this`trace
      ensures Valid()
      ensures r == BoundsOutcome(portal, browserClosed, startAt, endAt)
      ensures trace == old(trace) + BoundsTrace(portal, browserClosed, startAt, endAt)
    {
      DecomposeDateSpec(startAt);
      ghost var first := ChooseTrace(portal, browserClosed, DecomposeDate(startAt), true);
      var a := ChooseDate(startAt, true);
      if a.Failure? {
        assert first + [] == first;
        return Failure(a.error);
      }
      r := FinishRange(endAt);
      Regroup(old(trace), first, EndTrace(portal, browserClosed, endAt));
    }

    /** Choose the end bound, then submit. */
    method FinishRange(endAt: Date) returns (r: Result<(), Error>)
      requires Valid() && ValidDate(endAt)
      modifies this`yearIdx, this`trace
      ensures Valid()
      ensures r == EndOutcome(portal, browserClosed, endAt)
      ensures trace == old(trace) + EndTrace(portal, browserClosed, endAt)
    {
      EndSteps(portal, browserClosed, endAt);
      var b := ChooseDate(endAt, false);
      if b.Failure? {
        r := Failure(b.error);
      } else {
        r := Submit();
        Regroup(old(trace), ChooseTrace(portal, browserClosed, DecomposeDate(endAt), false),
                Performed(portal, browserClosed, RangeSubmitScript()));
      }
    }

    /** Wait for the submit buttons and click them. */
    method Submit() returns (r: Result<(), Error>)
      requires Valid()
      modifies this`trace
      ensures Valid()
      ensures r == ScriptResult(portal, browserClosed, RangeSubmitScript())
      ensures trace == old(trace) + Performed(portal, browserClosed, RangeSubmitScript())
    {
      r := Run(RangeSubmitScript());
    }

    /** Read the statement table and the account number and build the records. */
    method ReadStatementPage(currentYear: int, md5: string -> string, showDate: BcaDate -> string)
        returns (r: Result<seq<BankTransaction>, Error>)
      requires Valid()
      modifies this`trace
      ensures Valid()
      ensures r == ReadStatement(portal, browserClosed, currentYear, md5, showDate)
      ensures trace == old(trace) + StatementTrace(portal, browserClosed)
    {
      var raw := ExtractRows(portal.rows);
      var t, a := AwaitThen(TableScript(), raw.Some?, AccountScript());
      r := if t.Failure? then Failure(t.error)
           else if raw.None? then Failure(MalformedRow)
           else if a.Failure? then Failure(a.error)
           else Success(BuildRecords(raw.value, Trim(portal.accNumText), currentYear, md5, showDate));
    }

    /** Await `first`, then, when it succeeded and `go` holds, await `second`. */
    method AwaitThen(first: seq<Action>, go: bool, second: seq<Action>) returns (r1: Result<(), Error>, r2: Result<(), Error>)
      requires Valid()
      modifies this`trace
      ensures Valid()
      ensures r1 == ScriptResult(portal, browserClosed, first)
      ensures r1.Success? && go ==> r2 == ScriptResult(portal, browserClosed, second)
      ensures trace == old(trace) + (Performed(portal, browserClosed, first)
                       + (if r1.Success? && go then Performed(portal, browserClosed, second) else []))
    {
      ghost var p1 := Performed(portal, browserClosed, first);
      r1 := Await(first);
      r2 := Success(());
      if r1.Success? && go {
        r2 := Await(second);
        Regroup(old(trace), p1, Performed(portal, browserClosed, second));
      } else {
        assert p1 + [] == p1;
      }
    }

    /** `logout`: nothing when not logged in; the login flag is left as it is. */
    method Logout() returns (r: Result<(), Error>)
      requires Valid()
      modifies this`trace
      ensures Valid()
      ensures !hasLoggedIn ==> r == Success(()) && trace == old(trace)
      ensures hasLoggedIn ==>
        r == ScriptResult(portal, browserClosed, LogoutScript(waitOptions))
        && trace == old(trace) + Performed(portal, browserClosed, LogoutScript(waitOptions))
    {
      if !hasLoggedIn {
        return Success(());
      }
      r := Run(LogoutScript(waitOptions));
    }

    /** `close`: close the browser when one was started; the page and the login flag stay. */
    method Close()
      modifies this`trace, this`browserClosed
      ensures browser ==> trace == old(trace) + [CloseBrowser] && browserClosed
      ensures !browser ==> trace == old(trace) && browserClosed == old(browserClosed)
    {
      if browser {
        trace := trace + [CloseBrowser];
        browserClosed := true;
      }
    }

    /**
     * `chooseDate(date, isStart)`: open the year view, page towards the year, then click
     * the year, month and day cells.
     */
    method ChooseDate(date: Date, isStart: bool) returns (r: Result<nat, Error>)
      requires Valid() && ValidDate(date)
      modifies this`trace, this`yearIdx
      ensures Valid()
      ensures r == ChooseOutcome(portal, browserClosed, DecomposeDate(date), isStart)
      ensures r.Success? ==> yearIdx == r.value
      ensures trace == old(trace) + ChooseTrace(portal, browserClosed, DecomposeDate(date), isStart)
    {
      var w := portal.calendar;
      var d := DecomposeDate(date);
      r := ChooseDecomposed(d, isStart, StartYears(w.pages), HomeEnd(w));
    }

    /**
     * `chooseDate` once the date is decomposed; `starts` is what each page's label reads
     * as for its start year, `curYearEnd` what the home page's label reads as for its end.
     */
    method ChooseDecomposed(d: DecomposedDate, isStart: bool, starts: seq<Option<int>>, curYearEnd: Option<int>)
        returns (r: Result<nat, Error>)
      requires Valid() && d.day >= 1 && |starts| == |portal.calendar.pages|
      modifies this`trace, this`yearIdx
      ensures Valid()
      ensures r == ChooseOutcomeOn(portal, browserClosed, starts, curYearEnd, d, isStart)
      ensures r.Success? ==> yearIdx == r.value
      ensures trace == old(trace) + ChooseTraceOn(portal, browserClosed, starts, curYearEnd, d, isStart)
    {
      ChooseAfterHeader(portal, browserClosed, starts, curYearEnd, d, isStart);
      var h := OpenYearView();
      if h.Failure? {
        r := Failure(h.error);
      } else {
        HeaderNeedsOpen(portal, browserClosed);
        r := TurnAndPick(d, isStart, starts, curYearEnd);
        Regroup(old(trace), Performed(portal, browserClosed, PickerHeader()),
                TurnPickTrace(portal, starts, curYearEnd, d, isStart));
      }
    }

    /** The paging loop from the home page, then the cell clicks on the page it ends on. */
    method TurnAndPick(d: DecomposedDate, isStart: bool, starts: seq<Option<int>>, curYearEnd: Option<int>)
        returns (r: Result<nat, Error>)
      requires Valid() && !browserClosed && d.day >= 1 && |starts| == |portal.calendar.pages|
      requires yearIdx == portal.calendar.home
      modifies this`trace, this`yearIdx
      ensures Valid()
      ensures r == TurnPickOutcome(portal, starts, curYearEnd, d, isStart)
      ensures r.Success? ==> yearIdx == r.value
      ensures trace == old(trace) + TurnPickTrace(portal, starts, curYearEnd, d, isStart)
    {
      TurnPickSteps(portal, starts, curYearEnd, d, isStart);
      TurnedSpec(Paginate(starts, yearIdx, isStart, d.year, curYearEnd, Present(portal, NavButton(isStart))), isStart);
      var t := TurnPages(isStart, d.year, starts, curYearEnd);
      if t.Failure? {
        r := Failure(t.error);
      } else {
        r := PickGrid(d);
        Regroup(old(trace), TurnTrace(starts, portal.calendar.home, isStart, d.year, curYearEnd, Present(portal, NavButton(isStart))),
                PickTrace(portal, t.value, d));
      }
    }

    /** Open the picker's year view, which shows the home page, and read that page's label. */
    method OpenYearView() returns (h: Result<(), Error>)
      requires Valid()
      modifies this`trace, this`yearIdx
      ensures Valid()
      ensures h == ScriptResult(portal, browserClosed, PickerHeader())
      ensures trace == old(trace) + Performed(portal, browserClosed, PickerHeader())
      ensures yearIdx == if h.Success? then portal.calendar.home else old(yearIdx)
    {
      h := Run(PickerHeader());
      if h.Success? {
        yearIdx := portal.calendar.home;
      }
    }

    /**
     * The paging loop of `chooseDate`: while the shown page's start year (start bound) or
     * the home page's end year `curYearEnd` (end bound) has not passed `year`, wait for the
     * navigation button, give up when it is disabled, otherwise click it and re-read the
     * label of the page it turns to.
     */
    method TurnPages(isStart: bool, year: int, starts: seq<Option<int>>, curYearEnd: Option<int>)
        returns (r: Result<nat, Error>)
      requires Valid() && !browserClosed && |starts| == |portal.calendar.pages|
      modifies this`trace, this`yearIdx
      ensures Valid()
      ensures r == Turned(Paginate(starts, old(yearIdx), isStart, year, curYearEnd, Present(portal, NavButton(isStart))), isStart)
      ensures r.Success? ==> yearIdx == r.value
      ensures trace == old(trace) + TurnTrace(starts, old(yearIdx), isStart, year, curYearEnd, Present(portal, NavButton(isStart)))
    {
      var w := portal.calendar;
      var present := Present(portal, NavButton(isStart));
      ghost var p := Paginate(starts, yearIdx, isStart, year, curYearEnd, present);
      ghost var whole := old(trace) + TurnTrace(starts, yearIdx, isStart, year, curYearEnd, present);
      var curYearStart := starts[yearIdx];
      var ended: Result<nat, TurnFailure>;
      while true
        invariant yearIdx < |w.pages|
        invariant curYearStart == starts[yearIdx]
        invariant Paginate(starts, yearIdx, isStart, year, curYearEnd, present) == p
        invariant trace + TurnTrace(starts, yearIdx, isStart, year, curYearEnd, present) == whole
        decreases if isStart then yearIdx else |w.pages| - yearIdx
      {
        ghost var t0 := trace;
        if (isStart && AtMost(curYearStart, year)) || (!isStart && AtLeast(curYearEnd, year)) {
          ended := Success(yearIdx);
          assert trace + [] == trace;
          break;
        }
        TurnTraceUnfold(starts, yearIdx, isStart, year, curYearEnd, present);
        var wait := [WaitFor(NavButton(isStart))];
        if !present {
          trace := trace + wait;
          ended := Failure(ButtonMissing);
          break;
        }
        if !CanTurn(|w.pages|, yearIdx, isStart) {
          trace := trace + (wait + [Read(NavButton(isStart))]);
          ended := Failure(ButtonDisabled);
          break;
        }
        var next := if isStart then yearIdx - 1 else yearIdx + 1;
        var turn := [Click(NavButton(isStart)), WaitFor(CurrentYearButton), Read(CurrentYearButton)];
        ghost var rest := TurnTrace(starts, next, isStart, year, curYearEnd, present);
        trace := trace + (wait + turn);
        Regroup(t0, wait + turn, rest);
        Regroup(wait, turn, rest);
        yearIdx := next;
        curYearStart := starts[yearIdx];
      }
      assert ended == p;
      r := Turned(ended, isStart);
    }

    /** The cell clicks of `chooseDate` on the page the loop ended on. */
    method PickGrid(d: DecomposedDate) returns (r: Result<nat, Error>)
      requires Valid() && !browserClosed && d.day >= 1
      modifies this`trace
      ensures r == PickCells(portal, yearIdx, d)
      ensures trace == old(trace) + PickTrace(portal, yearIdx, d)
    {
      var w := portal.calendar;
      ghost var t0 := trace;
      var y := PickFrom(YearTable, w.pages[yearIdx].years, YearNumber(d.year), YearCellMissing);
      ghost var ty := StepTrace(YearTable, Present(portal, YearTable), y);
      if y.Failure? {
        r := Failure(y.error);
        assert ty + [] == ty;
      } else {
        r := PickMonthDay(d);
        Regroup(t0, ty, MonthDayTrace(portal, d));
      }
    }

    /** The month and day clicks of `chooseDate`, after the year was picked. */
    method PickMonthDay(d: DecomposedDate) returns (r: Result<nat, Error>)
      requires Valid() && !browserClosed && d.day >= 1
      modifies this`trace
      ensures r == MonthDayPicks(portal, yearIdx, d)
      ensures trace == old(trace) + MonthDayTrace(portal, d)
    {
      var w := portal.calendar;
      var m := PickFrom(MonthTable, w.months, MonthName(d.monthName), MonthNotFound);
      ghost var tm := StepTrace(MonthTable, Present(portal, MonthTable), m);
      if m.Failure? {
        r := Failure(m.error);
        assert tm + [] == tm;
      } else {
        var dc := PickFrom(DayTable, w.days, DayNumber(d.day as nat), DayNotFound);
        Regroup(old(trace), tm, StepTrace(DayTable, Present(portal, DayTable), dc));
        r := if dc.Failure? then Failure(dc.error) else Success(yearIdx);
      }
    }

    /** Wait for `table` and click the first cell showing what `k` asks for. */
    method PickFrom(table: Target, g: Grid, k: Criterion, notFound: Error) returns (r: Result<nat, Error>)
      requires Valid() && !browserClosed
      modifies this`trace
      ensures Valid()
      ensures r == PickStep(portal, table, g, k, notFound)
      ensures trace == old(trace) + StepTrace(table, Present(portal, table), r)
    {
      r := PickStep(portal, table, g, k, notFound);
      var calls := [WaitFor(table)];
      if r.Success? {
        calls := calls + [PickCell(table, r.value)];
      } else if Present(portal, table) {
        calls := calls + [Read(table)];
      }
      trace := trace + calls;
    }
  }
}
