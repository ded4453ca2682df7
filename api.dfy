/** The `BCHydroApi` client: its session flags and cache, its login and refresh sequences and
    its accessors. Each browser interaction is represented only by its outcome, passed in. */
module Api {
  import opened Base
  import opened Numbers
  import opened Dates
  import opened Exceptions
  import opened Types
  import opened Markup
  import Text

  /** The outcome of a browser call that may raise. */
  datatype Step = Done | Failed(message: string)

  /** `_ensure_browser`: starting the headless browser, then opening a page on it. */
  datatype Launch = Launched | LaunchFailed(message: string) | NewPageFailed(message: string)

  /** The account chooser after login: absent, or present and its first entry clicked. */
  datatype Chooser = NoAccountList | AccountList(click: Step)

  /** The login sequence: opening the login page, filling the form and submitting it while
      waiting for the navigation (one step); the text of the visible error banner, if there is
      one; and the account chooser. */
  datatype Login = Login(submit: Step, banner: Option<string>, chooser: Chooser)

  /** Opening the consumption view, waiting for its section and reading the section's HTML. */
  datatype Fetch = Fetched(html: Html) | FetchFailed(message: string)

  /** The client's fields: whether a browser and a page exist, the authenticated flag, the
      account (never assigned after construction), the cached usage and the latest reading. */
  datatype Session = Session(browser: bool, page: bool, authenticated: bool, account: Option<Account>,
                             usage: Option<DailyUsage>, latestPoint: Option<DailyElectricity>)

  /** The session after an operation, and the exception the operation raised, if any. */
  datatype Transition = Transition(next: Session, error: Option<Error>)

  /** A newly constructed client. */
  const Initial := Session(false, false, false, None, None, None)

  /** What holds of every session the client can reach: a login needs a page, a page needs a
      browser, and the latest reading is the last reading of the cached usage. */
  predicate Consistent(s: Session)
  {
    && (s.authenticated ==> s.page)
    && (s.page ==> s.browser)
    && (s.usage.Some? <==> s.latestPoint.Some?)
    && (s.usage.Some? ==> |s.usage.value.electricity| > 0 && s.latestPoint.value == Last(s.usage.value.electricity))
  }

  /** `_ensure_browser`: nothing to do once a browser exists, even one whose page failed to open. */
  function EnsureBrowserStep(s: Session, launch: Launch): Transition
  {
    if s.browser then Transition(s, None)
    else
      match launch
      case Launched => Transition(s.(browser := true, page := true), None)
      case LaunchFailed(m) => Transition(s, Some(BrowserError(m)))
      case NewPageFailed(m) => Transition(s.(browser := true), Some(BrowserError(m)))
  }

  /** The exception raised inside the login `try` block, if any. */
  function LoginFailure(login: Login): Option<Error>
  {
    if login.submit.Failed? then Some(BrowserError(login.submit.message))
    else if login.banner.Some? then Some(AuthError("Login failed: " + login.banner.value, None))
    else if login.chooser.AccountList? && login.chooser.click.Failed? then Some(BrowserError(login.chooser.click.message))
    else None
  }

  const PageNotInitialized := AuthError("Browser page not initialized", None)

  /** `_authenticate`. */
  function AuthenticateStep(s: Session, launch: Launch, login: Login): Transition
  {
    if s.authenticated then Transition(s, None)
    else
      var b := EnsureBrowserStep(s, launch);
      if b.error.Some? then b
      else if !b.next.page then Transition(b.next, Some(PageNotInitialized))
      else
        match LoginFailure(login)
        case None => Transition(b.next.(authenticated := true), None)
        case Some(e) => Transition(b.next.(authenticated := false), Some(AuthError("Authentication failed: ", Some(e))))
  }

  /** The part of `refresh`'s `try` block after the page exists: fetch, validate, parse. */
  function FetchUsage(fetch: Fetch, account: Option<Account>): (r: Result<DailyUsage, Error>)
    ensures fetch.FetchFailed? ==> r == Err(BrowserError(fetch.message))
    ensures r.Ok? ==> fetch.Fetched? && ValidateHtml(fetch.html) == Ok(fetch.html.doc)
                      && r.value.account == account && |r.value.electricity| > 0
  {
    match fetch
    case FetchFailed(m) => Err(BrowserError(m))
    case Fetched(html) =>
      match ValidateHtml(html)
      case Err(e) => Err(e)
      case Ok(doc) => ParseConsumption(doc, account)
  }

  const NoPage := AttributeError("'NoneType' object has no attribute 'click'")

  /** `refresh`: authenticate unless already authenticated (outside the `try`, so its
      exceptions pass through unchanged), then fetch and parse; only a complete success
      replaces the cache, and any failure clears the flag and is raised wrapped in
      BCHydroAuthException. */
  function RefreshStep(s: Session, launch: Launch, login: Login, fetch: Fetch): Transition
  {
    var a := if !s.authenticated then AuthenticateStep(s, launch, login) else Transition(s, None);
    if a.error.Some? then a else TryRefresh(a.next, fetch)
  }

  /** The `try` block of `refresh`, run on the session left by the login. */
  function TryRefresh(s: Session, fetch: Fetch): Transition
  {
    var result := if s.page then FetchUsage(fetch, s.account) else Err(NoPage);
    match result
    case Err(e) => Transition(s.(authenticated := false), Some(AuthError("Failed to refresh data: ", Some(e))))
    case Ok(u) =>
      var latest := if |u.electricity| > 0 then Some(Last(u.electricity)) else s.latestPoint;
      Transition(s.(usage := Some(u), latestPoint := latest), None)
  }

  /** The common first step of the `get_latest_*` accessors: refresh only when no reading is cached. */
  function LatestStep(s: Session, launch: Launch, login: Login, fetch: Fetch): Transition
  {
    if s.latestPoint.None? then RefreshStep(s, launch, login, fetch) else Transition(s, None)
  }

  /** `get_latest_usage`. */
  function LatestUsage(s: Session, launch: Launch, login: Login, fetch: Fetch): Result<Decimal, Error>
  {
    var t := LatestStep(s, launch, login, fetch);
    if t.error.Some? then Err(t.error.value)
    else Ok(if t.next.latestPoint.Some? then t.next.latestPoint.value.consumption else Zero)
  }

  /** `get_latest_cost`. */
  function LatestCost(s: Session, launch: Launch, login: Login, fetch: Fetch): Result<Decimal, Error>
  {
    var t := LatestStep(s, launch, login, fetch);
    if t.error.Some? then Err(t.error.value)
    else Ok(if t.next.latestPoint.Some? then t.next.latestPoint.value.cost else Zero)
  }

  /** The dictionary `get_latest_interval` returns. */
  datatype LatestInterval = LatestInterval(start: Option<Date>, end: Option<Date>, billingPeriodEnd: Option<Date>)

  /** `get_latest_interval`. */
  function LatestIntervalOf(s: Session, launch: Launch, login: Login, fetch: Fetch): Result<LatestInterval, Error>
  {
    var t := LatestStep(s, launch, login, fetch);
    if t.error.Some? then Err(t.error.value)
    else if t.next.latestPoint.Some? then
      var i := t.next.latestPoint.value.interval;
      Ok(LatestInterval(Some(i.start), Some(i.end), i.billingPeriodEnd))
    else Ok(LatestInterval(None, None, None))
  }

  /** Every operation keeps the session consistent. */
  lemma StepsPreserveConsistency(s: Session, launch: Launch, login: Login, fetch: Fetch)
    requires Consistent(s)
    ensures Consistent(EnsureBrowserStep(s, launch).next)
    ensures Consistent(AuthenticateStep(s, launch, login).next)
    ensures Consistent(RefreshStep(s, launch, login, fetch).next)
    ensures Consistent(LatestStep(s, launch, login, fetch).next)
  {
  }

  /** No operation assigns the account, so on a client that started with none every cached
      snapshot carries none. */
  lemma AccountNeverAssigned(s: Session, launch: Launch, login: Login, fetch: Fetch)
    ensures AuthenticateStep(s, launch, login).next.account == s.account
    ensures LatestStep(s, launch, login, fetch).next.account == s.account
    ensures
      var t := RefreshStep(s, launch, login, fetch);
      && t.next.account == s.account
      && (t.error.None? ==> t.next.usage.Some? && t.next.usage.value.account == s.account)
  {
    var a := if !s.authenticated then AuthenticateStep(s, launch, login) else Transition(s, None);
    assert a.next.account == s.account;
  }

  /** Login is memoised: once authenticated, `_authenticate` does nothing. Otherwise the flag
      ends up set exactly when the whole sequence succeeds, the cache is untouched, and every
      failure is a BCHydroAuthException except a failure to start the browser, which passes
      through as the browser library raised it. */
  lemma AuthenticateOutcome(s: Session, launch: Launch, login: Login)
    ensures s.authenticated ==> AuthenticateStep(s, launch, login) == Transition(s, None)
    ensures
      var t := AuthenticateStep(s, launch, login);
      && (t.next.authenticated <==> t.error.None?)
      && t.next.account == s.account && t.next.usage == s.usage && t.next.latestPoint == s.latestPoint
      && (t.error.None? <==> s.authenticated || (((s.browser && s.page) || (!s.browser && launch.Launched?)) && LoginFailure(login).None?))
      && (t.error.Some? ==> t.error.value.AuthError? || (!s.browser && !launch.Launched? && t.error == Some(BrowserError(launch.message))))
  {
  }

  /** An error banner after submitting the form fails the login with its text, wrapped twice:
      the banner's own exception is raised inside the block that catches and re-wraps it. */
  lemma LoginBannerFails(s: Session, launch: Launch, login: Login)
    requires !s.authenticated && ((s.browser && s.page) || (!s.browser && launch.Launched?))
    requires login.submit.Done? && login.banner.Some?
    ensures AuthenticateStep(s, launch, login).error
      == Some(AuthError("Authentication failed: ", Some(AuthError("Login failed: " + login.banner.value, None))))
    ensures !AuthenticateStep(s, launch, login).next.authenticated
  {
  }

  /** `refresh`: a success leaves the client authenticated with the new usage cached and its
      last reading as the latest point; it happens exactly when the login (if needed), the
      fetch, the validation and the parse all succeed. A failure clears the flag and keeps the
      previous cache. */
  lemma RefreshOutcome(s: Session, launch: Launch, login: Login, fetch: Fetch)
    requires Consistent(s)
    ensures
      var t := RefreshStep(s, launch, login, fetch);
      var a := AuthenticateStep(s, launch, login);
      var u := FetchUsage(fetch, s.account);
      && (t.error.None? <==> a.error.None? && u.Ok?)
      && (t.error.None? ==>
            && t.next.authenticated
            && |u.value.electricity| > 0
            && t.next.usage == Some(u.value)
            && t.next.latestPoint == Some(Last(u.value.electricity)))
      && (t.error.Some? ==>
            && !t.next.authenticated
            && t.next.usage == s.usage
            && t.next.latestPoint == s.latestPoint)
  {
  }

  /** Every failure of `refresh` is a BCHydroAuthException, except a failure to start the
      browser, which is raised by `_authenticate` outside `refresh`'s `try` block. Failures
      after login carry their cause. */
  lemma RefreshErrors(s: Session, launch: Launch, login: Login, fetch: Fetch)
    requires Consistent(s)
    ensures
      var t := RefreshStep(s, launch, login, fetch);
      t.error.Some? ==>
        || t.error.value.AuthError?
        || (!s.authenticated && !s.browser && !launch.Launched? && t.error == Some(BrowserError(launch.message)))
    ensures
      var t := RefreshStep(s, launch, login, fetch);
      AuthenticateStep(s, launch, login).error.None? && FetchUsage(fetch, s.account).Err? ==>
        t.error == Some(AuthError("Failed to refresh data: ", Some(FetchUsage(fetch, s.account).error)))
  {
  }

  /** A visible error alert in the fetched fragment fails the refresh with an alert-dialog cause,
      whatever the table holds, and leaves the cache as it was. */
  lemma AlertFailsRefresh(s: Session, launch: Launch, login: Login, html: Html, i: nat)
    requires Consistent(s) && AuthenticateStep(s, launch, login).error.None?
    requires html.text != [] && i < |html.doc.elements| && IsVisibleAlert(html.doc.elements[i])
    ensures
      var t := RefreshStep(s, launch, login, Fetched(html));
      && t.error.Some? && t.error.value.AuthError? && t.error.value.cause.Some?
      && t.error.value.cause.value == AlertDialog(AlertPrefix + Text.Join(" ", VisibleAlertTexts(html.doc.elements)))
      && t.next.usage == s.usage && t.next.latestPoint == s.latestPoint
  {
    VisibleAlertTextsComplete(html.doc.elements);
  }

  /** Refreshing twice against the same markup: the second refresh needs no login and caches
      an equal snapshot. */
  lemma RefreshIdempotent(s: Session, launch1: Launch, login1: Login, launch2: Launch, login2: Login, fetch: Fetch)
    requires Consistent(s) && RefreshStep(s, launch1, login1, fetch).error.None?
    ensures
      var t1 := RefreshStep(s, launch1, login1, fetch);
      RefreshStep(t1.next, launch2, login2, fetch) == t1.(error := None)
  {
  }

  /** With a reading cached, the accessors return it and nothing else happens. */
  lemma AccessorsUseCache(s: Session, launch: Launch, login: Login, fetch: Fetch)
    requires s.latestPoint.Some?
    ensures LatestStep(s, launch, login, fetch) == Transition(s, None)
    ensures LatestUsage(s, launch, login, fetch) == Ok(s.latestPoint.value.consumption)
    ensures LatestCost(s, launch, login, fetch) == Ok(s.latestPoint.value.cost)
    ensures LatestIntervalOf(s, launch, login, fetch)
      == Ok(LatestInterval(Some(s.latestPoint.value.interval.start), Some(s.latestPoint.value.interval.end),
                           s.latestPoint.value.interval.billingPeriodEnd))
  {
  }

  /** With nothing cached, the accessors refresh, and when that succeeds they return the last
      reading fetched: the 0.0 and None fallbacks are never what a successful call returns. */
  lemma AccessorsRefreshWhenEmpty(s: Session, launch: Launch, login: Login, fetch: Fetch)
    requires Consistent(s) && s.latestPoint.None?
    ensures LatestStep(s, launch, login, fetch) == RefreshStep(s, launch, login, fetch)
    ensures
      var t := RefreshStep(s, launch, login, fetch);
      var u := FetchUsage(fetch, s.account);
      && (t.error.Some? ==>
            && LatestUsage(s, launch, login, fetch) == Err(t.error.value)
            && LatestCost(s, launch, login, fetch) == Err(t.error.value))
      && (t.error.None? ==>
            && LatestUsage(s, launch, login, fetch) == Ok(Last(u.value.electricity).consumption)
            && LatestCost(s, launch, login, fetch) == Ok(Last(u.value.electricity).cost)
            && LatestIntervalOf(s, launch, login, fetch).value.start.Some?)
  {
    RefreshOutcome(s, launch, login, fetch);
  }

  /** If the browser started but its page did not open, the client can never log in again:
      `_ensure_browser` sees the browser and does nothing, so every refresh fails with
      "Browser page not initialized" and changes nothing. */
  lemma PageFailureIsPermanent(s: Session, launch: Launch, login: Login, fetch: Fetch)
    requires !s.authenticated && s.browser && !s.page
    ensures RefreshStep(s, launch, login, fetch) == Transition(s, Some(PageNotInitialized))
  {
  }

  /** How such a session arises: the first login attempt on a new client whose page fails to open. */
  lemma NewPageFailureLeavesNoPage(m: string, login: Login)
    ensures
      var t := AuthenticateStep(Initial, NewPageFailed(m), login);
      t.error == Some(BrowserError(m)) && t.next.browser && !t.next.page && !t.next.authenticated
  {
  }

  /** A new client whose login succeeds and whose fetched fragment shows no alert and parses
      reports the last reading of the table. */
  lemma FirstRefresh(text: string, doc: Document, u: DailyUsage)
    requires text != [] && forall i | 0 <= i < |doc.elements| :: !IsVisibleAlert(doc.elements[i])
    requires ParseConsumption(doc, None) == Ok(u)
    ensures
      var fetch := Fetched(Html(text, doc));
      var login := Login(Done, None, NoAccountList);
      var last := Last(u.electricity);
      && RefreshStep(Initial, Launched, login, fetch).error.None?
      && LatestUsage(Initial, Launched, login, fetch) == Ok(last.consumption)
      && LatestCost(Initial, Launched, login, fetch) == Ok(last.cost)
      && LatestIntervalOf(Initial, Launched, login, fetch)
         == Ok(LatestInterval(Some(last.interval.start), Some(last.interval.end), last.interval.billingPeriodEnd))
  {
    RefreshOutcome(Initial, Launched, Login(Done, None, NoAccountList), Fetched(Html(text, doc)));
  }

  /** A new client, logging in and fetching the two-day table, reports 12.0 kWh and $1.20 for
      Jan 2 2024. */
  lemma ExampleSession(text: string)
    requires text != []
    ensures
      var fetch := Fetched(Html(text, Document([], Some(ExampleTable))));
      var login := Login(Done, None, NoAccountList);
      && LatestUsage(Initial, Launched, login, fetch) == Ok(Decimal(false, 120, 1))
      && LatestCost(Initial, Launched, login, fetch) == Ok(Decimal(false, 120, 2))
      && LatestIntervalOf(Initial, Launched, login, fetch) == Ok(LatestInterval(Some(Date(2024, 1, 2)), Some(Date(2024, 1, 2)), None))
  {
    ExampleTableParses();
    var doc := Document([], Some(ExampleTable));
    var u := ParseConsumption(doc, None).value;
    FirstRefresh(text, doc, u);
  }

  /** An error banner at login on a client that already holds data: the refresh fails with
      BCHydroAuthException and the cached snapshot is kept. */
  lemma BannerKeepsCache(s: Session, banner: string, fetch: Fetch)
    requires Consistent(s) && !s.authenticated && s.page
    ensures
      var t := RefreshStep(s, Launched, Login(Done, Some(banner), NoAccountList), fetch);
      && t.error == Some(AuthError("Authentication failed: ", Some(AuthError("Login failed: " + banner, None))))
      && t.next.usage == s.usage && t.next.latestPoint == s.latestPoint
  {
  }

  /** The client object. Its methods change its fields exactly as the transition functions
      above say. */
  class BCHydroApi {
    const username: string
    const password: string
    var browser: bool
    var page: bool
    var authenticated: bool
    var account: Option<Account>
    var usage: Option<DailyUsage>
    var latestPoint: Option<DailyElectricity>

    function State(): Session
      reads this
    {
      Session(browser, page, authenticated, account, usage, latestPoint)
    }

    ghost predicate Valid()
      reads this
    {
      Consistent(State())
    }

    constructor (username: string, password: string)
      ensures Valid() && State() == Initial
      ensures this.username == username && this.password == password
    {
      this.username := username;
      this.password := password;
      browser, page, authenticated := false, false, false;
      account, usage, latestPoint := None, None, None;
    }

    method EnsureBrowser(launch: Launch) returns (err: Option<Error>)
      requires Valid()
      modifies this
      ensures Valid()
      ensures State() == EnsureBrowserStep(old(State()), launch).next
      ensures err == EnsureBrowserStep(old(State()), launch).error
    {
      err := None;
      if !browser {
        match launch {
          case Launched =>
            browser := true;
            page := true;
          case LaunchFailed(m) =>
            err := Some(BrowserError(m));
          case NewPageFailed(m) =>
            browser := true;
            err := Some(BrowserError(m));
        }
      }
    }

    method Authenticate(launch: Launch, login: Login) returns (err: Option<Error>)
      requires Valid()
      modifies this
      ensures Valid()
      ensures State() == AuthenticateStep(old(State()), launch, login).next
      ensures err == AuthenticateStep(old(State()), launch, login).error
    {
      if authenticated {
        return None;
      }
      err := EnsureBrowser(launch);
      if err.Some? {
        return;
      }
      if !page {
        return Some(PageNotInitialized);
      }
      var failure := LoginFailure(login);
      if failure.Some? {
        authenticated := false;
        return Some(AuthError("Authentication failed: ", failure));
      }
      authenticated := true;
    }

    method Refresh(launch: Launch, login: Login, fetch: Fetch) returns (err: Option<Error>)
      requires Valid()
      modifies this
      ensures Valid()
      ensures State() == RefreshStep(old(State()), launch, login, fetch).next
      ensures err == RefreshStep(old(State()), launch, login, fetch).error
    {
      ghost var before := State();
      if !authenticated {
        err := Authenticate(launch, login);
        if err.Some? {
          return;
        }
      }
      ghost var a := if !before.authenticated then AuthenticateStep(before, launch, login) else Transition(before, None);
      assert a.error.None? && State() == a.next && page;
      var result := FetchAndParse(fetch, account);
      if result.Err? {
        authenticated := false;
        err := Some(AuthError("Failed to refresh data: ", Some(result.error)));
        return;
      }
      usage := Some(result.value);
      if |result.value.electricity| > 0 {
        latestPoint := Some(result.value.electricity[|result.value.electricity| - 1]);
      }
      err := None;
    }

    /** The part of `refresh`'s `try` block that reads the fragment: fetch, validate, parse. */
    method FetchAndParse(fetch: Fetch, account: Option<Account>) returns (r: Result<DailyUsage, Error>)
      ensures r == FetchUsage(fetch, account)
    {
      match fetch {
        case FetchFailed(m) =>
          r := Err(BrowserError(m));
        case Fetched(html) =>
          var checked := ValidateHtml(html);
          if checked.Err? {
            return Err(checked.error);
          }
          r := ParseConsumptionData(checked.value, account);
      }
    }

    method GetLatestUsage(launch: Launch, login: Login, fetch: Fetch) returns (r: Result<Decimal, Error>)
      requires Valid()
      modifies this
      ensures Valid()
      ensures State() == LatestStep(old(State()), launch, login, fetch).next
      ensures r == LatestUsage(old(State()), launch, login, fetch)
    {
      if latestPoint.None? {
        var err := Refresh(launch, login, fetch);
        if err.Some? {
          return Err(err.value);
        }
      }
      r := Ok(if latestPoint.Some? then latestPoint.value.consumption else Zero);
    }

    method GetLatestCost(launch: Launch, login: Login, fetch: Fetch) returns (r: Result<Decimal, Error>)
      requires Valid()
      modifies this
      ensures Valid()
      ensures State() == LatestStep(old(State()), launch, login, fetch).next
      ensures r == LatestCost(old(State()), launch, login, fetch)
    {
      if latestPoint.None? {
        var err := Refresh(launch, login, fetch);
        if err.Some? {
          return Err(err.value);
        }
      }
      r := Ok(if latestPoint.Some? then latestPoint.value.cost else Zero);
    }

    method GetLatestInterval(launch: Launch, login: Login, fetch: Fetch) returns (r: Result<LatestInterval, Error>)
      requires Valid()
      modifies this
      ensures Valid()
      ensures State() == LatestStep(old(State()), launch, login, fetch).next
      ensures r == LatestIntervalOf(old(State()), launch, login, fetch)
    {
      if latestPoint.None? {
        var err := Refresh(launch, login, fetch);
        if err.Some? {
          return Err(err.value);
        }
      }
      r := Ok(if latestPoint.Some?
              then LatestInterval(Some(latestPoint.value.interval.start), Some(latestPoint.value.interval.end),
                                  latestPoint.value.interval.billingPeriodEnd)
              else LatestInterval(None, None, None));
    }
  }
}
