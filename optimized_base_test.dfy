/**
 * The session-reusing base test: one browser shared by a test class, a
 * login that first tries to replay saved cookies, and a 30-minute rule
 * for when a recorded login is too old.
 *
 * The login flags live on each test object. They start from the class
 * defaults (not logged in, no cookies, no login time), and the login
 * writes them on the object only, so the defaults never change.
 */
module SessionReuse {
  import opened Wrappers
  import opened Text
  import Browser

  type Cookie = Browser.Cookie

  /** A recorded login older than this many seconds is stale. */
  const STALE_AFTER: real := 1800.0

  /**
   * `_need_fresh_login`: no usable login time (None, or 0, which Python
   * treats as false) means a fresh login is needed; otherwise it is needed
   * once strictly more than 30 minutes have passed.
   */
  function NeedFreshLogin(lastLogin: Option<real>, now: real): (r: bool)
    ensures lastLogin.None? || lastLogin == Some(0.0) ==> r
    ensures lastLogin.Some? && lastLogin.value != 0.0 ==> (r <==> now - lastLogin.value > STALE_AFTER)
  {
    match lastLogin
    case None => true
    case Some(t) => t == 0.0 || now - t > STALE_AFTER
  }

  /** A login exactly 30 minutes old is still fresh; one a moment older is stale. */
  lemma StaleBoundary(t: real, eps: real)
    requires t != 0.0 && eps > 0.0
    ensures !NeedFreshLogin(Some(t), t + STALE_AFTER)
    ensures NeedFreshLogin(Some(t), t + STALE_AFTER + eps)
  {
  }

  /** Once stale, a login time stays stale as the clock moves on. */
  lemma StaleStaysStale(last: Option<real>, now: real, later: real)
    requires NeedFreshLogin(last, now) && now <= later
    ensures NeedFreshLogin(last, later)
  {
  }

  /** `_is_logged_in` on the page shown: its lower-cased URL mentions "home" or "dashboard". */
  predicate LooksLoggedIn(url: string) {
    Contains(Lower(url), "home") || Contains(Lower(url), "dashboard")
  }

  /** The check ignores case: any spelling of the two words counts. */
  lemma LooksLoggedInIgnoresCase(url: string)
    ensures Contains(url, "home") ==> LooksLoggedIn(url)
    ensures Contains(url, "dashboard") ==> LooksLoggedIn(url)
    ensures LooksLoggedIn(Lower(url)) == LooksLoggedIn(url)
  {
    if Contains(url, "home") {
      ContainsLower(url, "home");
    }
    if Contains(url, "dashboard") {
      ContainsLower(url, "dashboard");
    }
    assert Lower(Lower(url)) == Lower(url);
  }

  /**
   * What the site and browser do during one `_fast_login`:
   * whether loading the base URL for the cookie replay works, where the
   * refresh lands (None: it raised), whether the login page loads, whether
   * its form is then filled and submitted (the email wait, the password and
   * terms fields, the submit button and the configured credentials all
   * work), the URL the OTP wait sees, whether the OTP
   * form is filled and submitted, the URL the home-page wait sees, and the
   * cookies read back afterwards (None: reading them raised).
   */
  datatype Behaviour = Behaviour(
    reuseGetOk: bool,
    urlAfterRefresh: Option<string>,
    loginGetOk: bool,
    formOk: bool,
    urlAfterSubmit: string,
    otpOk: bool,
    urlAfterVerify: string,
    cookiesAfterLogin: Option<seq<Cookie>>)

  /** How a `_fast_login` ended: an exception, a replayed session, or a full login (with the cookies it saved, if any). */
  datatype Attempt = Failed | Reused | LoggedIn(saved: Option<seq<Cookie>>)

  /** The cookie replay is tried when session reuse is on and cookies were saved (a non-empty list). */
  predicate ReusePath(reuse: bool, saved: Option<seq<Cookie>>) {
    reuse && saved.Some? && |saved.value| > 0
  }

  function AttemptOutcome(hasDriver: bool, reuse: bool, saved: Option<seq<Cookie>>, b: Behaviour): Attempt {
    if !hasDriver then Failed
    else if ReusePath(reuse, saved) && !b.reuseGetOk then Failed
    else if ReusePath(reuse, saved) && b.urlAfterRefresh.None? then Failed
    else if ReusePath(reuse, saved) && LooksLoggedIn(b.urlAfterRefresh.value) then Reused
    else if !b.loginGetOk || !b.formOk || !Contains(b.urlAfterSubmit, "otp") || !b.otpOk || !Contains(b.urlAfterVerify, "home") then
      Failed
    else if reuse then
      match b.cookiesAfterLogin
      case None => Failed
      case Some(c) => LoggedIn(Some(c))
    else LoggedIn(None)
  }

  /**
   * The two ways a login succeeds: the replay reaches a logged-in page, or
   * the full login passes the OTP page and reaches a URL containing "home".
   */
  lemma AttemptOutcomeCases(hasDriver: bool, reuse: bool, saved: Option<seq<Cookie>>, b: Behaviour)
    ensures AttemptOutcome(hasDriver, reuse, saved, b) == Reused <==>
      hasDriver && ReusePath(reuse, saved) && b.reuseGetOk && b.urlAfterRefresh.Some? &&
      LooksLoggedIn(b.urlAfterRefresh.value)
    ensures AttemptOutcome(hasDriver, reuse, saved, b).LoggedIn? ==>
      hasDriver && b.loginGetOk && b.formOk && Contains(b.urlAfterSubmit, "otp") && b.otpOk &&
      Contains(b.urlAfterVerify, "home") &&
      (AttemptOutcome(hasDriver, reuse, saved, b).saved.Some? <==> reuse)
    ensures !hasDriver ==> AttemptOutcome(hasDriver, reuse, saved, b) == Failed
  {
  }

  /** The per-object login state. */
  datatype Session = Session(loggedIn: bool, cookies: Option<seq<Cookie>>, lastLogin: Option<real>)

  /** The class defaults every test object starts from. */
  const CLASS_DEFAULTS := Session(false, None, None)

  /** The state after a `_fast_login` at time `now`. */
  function AfterAttempt(s: Session, a: Attempt, now: real): Session {
    match a
    case Failed => s
    case Reused => s
    case LoggedIn(None) => s.(loggedIn := true)
    case LoggedIn(Some(c)) => Session(true, Some(c), Some(now))
  }

  /** `setup_method` logs in when not logged in or when the last login is stale. */
  predicate NeedsLogin(s: Session, now: real) {
    !s.loggedIn || NeedFreshLogin(s.lastLogin, now)
  }

  /** A new test object always logs in during its setup. */
  lemma FreshObjectLogsIn(now: real)
    ensures NeedsLogin(CLASS_DEFAULTS, now)
  {
  }

  /**
   * A replayed session records no login time, so a session that was stale
   * stays stale, and the next setup tries to log in again.
   */
  lemma ReplayKeepsSessionStale(s: Session, now: real, later: real, hasDriver: bool, saved: Option<seq<Cookie>>, b: Behaviour)
    requires NeedFreshLogin(s.lastLogin, now) && now <= later
    requires AttemptOutcome(hasDriver, true, saved, b) == Reused
    ensures NeedsLogin(AfterAttempt(s, Reused, now), later)
  {
    StaleStaysStale(s.lastLogin, now, later);
  }

  /** With session reuse off no login time is ever recorded, so every setup logs in again. */
  lemma NoReuseAlwaysRelogs(s: Session, now: real, later: real, hasDriver: bool, b: Behaviour)
    requires s.lastLogin.None?
    ensures var after := AfterAttempt(s, AttemptOutcome(hasDriver, false, s.cookies, b), now);
      after.lastLogin.None? && after.cookies == s.cookies && NeedsLogin(after, later)
  {
  }

  /** A full login with reuse on makes the object logged in and fresh for the next 30 minutes. */
  lemma FullLoginIsFreshFor30Minutes(s: Session, now: real, later: real, hasDriver: bool, saved: Option<seq<Cookie>>, b: Behaviour)
    requires AttemptOutcome(hasDriver, true, saved, b).LoggedIn?
    requires now != 0.0 && now <= later <= now + STALE_AFTER
    ensures !NeedsLogin(AfterAttempt(s, AttemptOutcome(hasDriver, true, saved, b), now), later)
  {
    AttemptOutcomeCases(hasDriver, true, saved, b);
  }

  /** Cookies added to the browser during the replay. */
  function Replayed(reuse: bool, saved: Option<seq<Cookie>>, b: Behaviour): seq<Cookie> {
    if ReusePath(reuse, saved) && b.reuseGetOk then saved.value else []
  }

  /**
   * The page the browser shows when `_fast_login` returns: where the replay
   * left it when the login page does not load, the login page itself when
   * a step of its form fails, then the page after each submit.
   */
  function LandedUrl(start: string, reuse: bool, saved: Option<seq<Cookie>>, baseUrl: string, b: Behaviour): string {
    var replayUrl :=
      if ReusePath(reuse, saved) && b.reuseGetOk then b.urlAfterRefresh.GetOr(baseUrl) else start;
    if ReusePath(reuse, saved) && (!b.reuseGetOk || b.urlAfterRefresh.None? || LooksLoggedIn(b.urlAfterRefresh.value)) then
      replayUrl
    else if !b.loginGetOk then replayUrl
    else if !b.formOk then baseUrl + "/auth/login"
    else if !Contains(b.urlAfterSubmit, "otp") || !b.otpOk then b.urlAfterSubmit
    else b.urlAfterVerify
  }

  /**
   * A login page that loads but whose form fails leaves the browser on the
   * login page, and the attempt fails.
   */
  lemma FormFailureStaysOnLoginPage(start: string, hasDriver: bool, reuse: bool, saved: Option<seq<Cookie>>, baseUrl: string, b: Behaviour)
    requires !ReusePath(reuse, saved) && b.loginGetOk && !b.formOk
    ensures LandedUrl(start, reuse, saved, baseUrl, b) == baseUrl + "/auth/login"
    ensures AttemptOutcome(hasDriver, reuse, saved, b) == Failed
  {
  }

  /** The class-level part: the browser shared by every test of a class. */
  class Suite {
    var sharedDriver: Browser.Driver?

    constructor (driver: Browser.Driver?)
      ensures sharedDriver == driver
    {
      sharedDriver := driver;
    }

    /** `teardown_class`: quit the shared browser, then forget it. */
    method TeardownClass()
      modifies this`sharedDriver, sharedDriver
      ensures sharedDriver == null
      ensures old(sharedDriver) != null ==> old(sharedDriver).quitCalled
      ensures old(sharedDriver) != null ==>
        old(sharedDriver).currentUrl == old(sharedDriver.currentUrl) &&
        old(sharedDriver).cookieJar == old(sharedDriver.cookieJar)
    {
      if sharedDriver != null {
        sharedDriver.Quit();
        sharedDriver := null;
      }
    }
  }

  /** One test object. */
  class Test {
    var driver: Browser.Driver?
    var loggedIn: bool
    var sessionCookies: Option<seq<Cookie>>
    var lastLoginTime: Option<real>
    var startTime: real

    function State(): Session
      reads this
    {
      Session(loggedIn, sessionCookies, lastLoginTime)
    }

    constructor ()
      ensures State() == CLASS_DEFAULTS && driver == null
    {
      driver := null;
      loggedIn, sessionCookies, lastLoginTime := false, None, None;
      startTime := 0.0;
    }

    /** `_is_logged_in`: false when there is no browser (the AttributeError is caught). */
    function IsLoggedIn(): (r: bool)
      reads this, driver
      ensures r <==> driver != null && LooksLoggedIn(driver.currentUrl)
    {
      driver != null && LooksLoggedIn(driver.currentUrl)
    }

    /**
     * `_fast_login`. Every exception, including the one from a missing
     * browser, ends it with False and leaves the login state alone.
     */
    method FastLogin(reuse: bool, baseUrl: string, now: real, b: Behaviour) returns (ok: bool)
      modifies this`loggedIn, this`sessionCookies, this`lastLoginTime, driver
      ensures ok <==> AttemptOutcome(driver != null, reuse, old(sessionCookies), b) != Failed
      ensures State() == AfterAttempt(old(State()), AttemptOutcome(driver != null, reuse, old(sessionCookies), b), now)
      ensures driver != null ==>
        driver.cookieJar == old(driver.cookieJar) + Replayed(reuse, old(sessionCookies), b) &&
        driver.currentUrl == LandedUrl(old(driver.currentUrl), reuse, old(sessionCookies), baseUrl, b) &&
        driver.quitCalled == old(driver.quitCalled)
    {
      if driver == null {
        return false;
      }
      if reuse && sessionCookies.Some? && |sessionCookies.value| > 0 {
        if !b.reuseGetOk {
          return false;
        }
        driver.Get(baseUrl);
        var cookies := sessionCookies.value;
        for i := 0 to |cookies|
          invariant driver.cookieJar == old(driver.cookieJar) + cookies[..i]
          invariant driver.currentUrl == baseUrl && driver.quitCalled == old(driver.quitCalled)
          invariant State() == old(State())
        {
          driver.AddCookie(cookies[i]);
        }
        assert cookies[..|cookies|] == cookies;
        if b.urlAfterRefresh.None? {
          return false;
        }
        driver.Land(b.urlAfterRefresh.value);
        if IsLoggedIn() {
          return true;
        }
      }
      if !b.loginGetOk {
        return false;
      }
      driver.Get(baseUrl + "/auth/login");
      if !b.formOk {
        return false;
      }
      driver.Land(b.urlAfterSubmit);
      if !Contains(driver.currentUrl, "otp") || !b.otpOk {
        return false;
      }
      driver.Land(b.urlAfterVerify);
      if !Contains(driver.currentUrl, "home") {
        return false;
      }
      if reuse {
        if b.cookiesAfterLogin.None? {
          return false;
        }
        sessionCookies := b.cookiesAfterLogin;
        lastLoginTime := Some(now);
      }
      loggedIn := true;
      ok := true;
    }

    /**
     * `setup_method`: take the shared browser, then log in when not logged
     * in or when the last login is stale. `attempted` says whether it did.
     */
    method SetupMethod(suite: Suite, reuse: bool, baseUrl: string, now: real, b: Behaviour)
      returns (ghost attempted: bool)
      modifies this, suite.sharedDriver
      ensures driver == suite.sharedDriver && startTime == now
      ensures attempted <==> NeedsLogin(old(State()), now)
      ensures attempted ==>
        State() == AfterAttempt(old(State()), AttemptOutcome(driver != null, reuse, old(sessionCookies), b), now)
      ensures !attempted ==> State() == old(State())
      ensures suite.sharedDriver != null ==> suite.sharedDriver.quitCalled == old(suite.sharedDriver.quitCalled)
      ensures suite.sharedDriver != null && attempted ==>
        suite.sharedDriver.cookieJar == old(suite.sharedDriver.cookieJar) + Replayed(reuse, old(sessionCookies), b) &&
        suite.sharedDriver.currentUrl == LandedUrl(old(suite.sharedDriver.currentUrl), reuse, old(sessionCookies), baseUrl, b)
      ensures suite.sharedDriver != null && !attempted ==>
        suite.sharedDriver.cookieJar == old(suite.sharedDriver.cookieJar) &&
        suite.sharedDriver.currentUrl == old(suite.sharedDriver.currentUrl)
    {
      driver := suite.sharedDriver;
      startTime := now;
      attempted := !loggedIn || NeedFreshLogin(lastLoginTime, now);
      if !loggedIn || NeedFreshLogin(lastLoginTime, now) {
        var _ := FastLogin(reuse, baseUrl, now, b);
      }
    }
  }
}
