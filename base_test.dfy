/**
 * The fault-tolerant base test: a configuration merged with built-in
 * defaults, a class-wide browser and login flag, a login attempt routed on
 * the URL the browser lands on, and guarded navigation.
 */
module BaseTest {
  import opened Wrappers
  import opened Text
  import Browser

  /** A YAML value as the configuration uses it. */
  datatype ConfigValue = Str(s: string) | Int(i: int) | Bool(b: bool) | Dict(d: map<string, ConfigValue>)

  type Config = map<string, ConfigValue>

  const BASE_URL := "https://demo-app.example.com"

  /** The configuration used when the file is missing or unreadable, and the source of missing keys. */
  const DEFAULT_CONFIG: Config := map[
    "base_url" := Str(BASE_URL),
    "login_url" := Str(BASE_URL + "/login"),
    "otp_url" := Str(BASE_URL + "/otp"),
    "timeouts" := Dict(map["implicit_wait" := Int(5), "explicit_wait" := Int(10), "page_load_timeout" := Int(15)]),
    "browser" := Dict(map["default" := Str("chrome"), "headless" := Bool(true), "window_size" := Str("1920,1080")]),
    "credentials" := Dict(map["valid_user" := Dict(map["email" := Str("demo@example.com"), "password" := Str("demo123")])]),
    "test_data" := Dict(map["screenshot_on_failure" := Bool(true), "report_path" := Str("reports/"),
                            "screenshot_path" := Str("screenshots/")])]

  /** The configuration file: absent, failing to read or parse, or parsed (None for an empty document). */
  datatype ConfigFile = Missing | Unreadable | Parsed(doc: Option<Config>)

  /** `c` with every key of `defaults` in `keys` that `c` lacks taken from `defaults`. */
  function FillDefaults(c: Config, defaults: Config, keys: set<string>): (r: Config)
    requires keys <= defaults.Keys
  {
    map k | k in c.Keys + keys :: if k in c then c[k] else defaults[k]
  }

  /** After the merge every default key is present, loaded keys keep their values, and nothing else is added. */
  lemma FillDefaultsProperties(c: Config, defaults: Config)
    ensures defaults.Keys <= FillDefaults(c, defaults, defaults.Keys).Keys
    ensures FillDefaults(c, defaults, defaults.Keys).Keys == c.Keys + defaults.Keys
    ensures forall k :: k in c ==> FillDefaults(c, defaults, defaults.Keys)[k] == c[k]
    ensures forall k :: k in defaults && k !in c ==> FillDefaults(c, defaults, defaults.Keys)[k] == defaults[k]
  {
  }

  /** The merge is shallow: a loaded section replaces the default section whole, even when it lacks keys the default has. */
  lemma MergeIsShallow(c: Config, defaults: Config, key: string)
    requires key in c && c[key] == Dict(map[])
    ensures FillDefaults(c, defaults, defaults.Keys)[key] == Dict(map[])
  {
  }

  /** Merging the defaults into themselves changes nothing, so a missing or unreadable file yields exactly the defaults. */
  lemma DefaultsAreFixedPoint(defaults: Config)
    ensures FillDefaults(defaults, defaults, defaults.Keys) == defaults
  {
  }


  /** `c` is the merge of `loaded` with the default keys outside `todo`. */
  ghost predicate MergedExcept(c: Config, loaded: Config, defaults: Config, todo: set<string>) {
    && (forall k :: k in c <==> k in loaded || (k in defaults && k !in todo))
    && (forall k :: k in c ==> c[k] == if k in loaded then loaded[k] else defaults[k])
  }

  /** One turn of the merge loop keeps `MergedExcept` with `key` done. */
  lemma MergeStep(c: Config, loaded: Config, defaults: Config, todo: set<string>, key: string)
    requires key in todo && todo <= defaults.Keys
    requires MergedExcept(c, loaded, defaults, todo)
    ensures MergedExcept(if key !in c then c[key := defaults[key]] else c, loaded, defaults, todo - {key})
  {
  }

  /** A configuration merged with every default key is the merge. */
  lemma MergedIsFillDefaults(c: Config, loaded: Config, defaults: Config)
    requires MergedExcept(c, loaded, defaults, {})
    ensures c == FillDefaults(loaded, defaults, defaults.Keys)
  {
    assert c.Keys == loaded.Keys + defaults.Keys;
  }

  /** The merge loop: for each default key, add it when the configuration lacks it. */
  method MergeDefaults(loaded: Config, defaults: Config) returns (c: Config)
    ensures c == FillDefaults(loaded, defaults, defaults.Keys)
  {
    c := loaded;
    var todo := defaults.Keys;
    while todo != {}
      invariant todo <= defaults.Keys
      invariant MergedExcept(c, loaded, defaults, todo)
      decreases |todo|
    {
      var key :| key in todo;
      MergeStep(c, loaded, defaults, todo, key);
      c := if key !in c then c[key := defaults[key]] else c;
      todo := todo - {key};
    }
    MergedIsFillDefaults(c, loaded, defaults);
  }

  /**
   * `_load_config`. None is the class's configuration left unset: an empty
   * document makes the merge loop raise a TypeError.
   */
  method LoadConfig(file: ConfigFile) returns (config: Option<Config>)
    ensures file.Parsed? && file.doc.None? ==> config.None?
    ensures file.Parsed? && file.doc.Some? ==> config == Some(FillDefaults(file.doc.value, DEFAULT_CONFIG, DEFAULT_CONFIG.Keys))
    ensures !file.Parsed? ==> config == Some(DEFAULT_CONFIG)
  {
    var c: Config;
    match file {
      case Parsed(None) => return None;
      case Parsed(Some(doc)) => c := doc;
      case _ => c := DEFAULT_CONFIG;
    }
    c := MergeDefaults(c, DEFAULT_CONFIG);
    config := Some(c);
    DefaultsAreFixedPoint(DEFAULT_CONFIG);
  }

  /** The login URL the attempt opens: the configured one, or a built-in fallback; None when it is not a string. */
  function LoginUrl(c: Config): (r: Option<string>)
    ensures "login_url" !in c ==> r == Some("https://demo.example.com/login")
    ensures "login_url" in c ==> (r.Some? <==> c["login_url"].Str?)
  {
    if "login_url" !in c then Some("https://demo.example.com/login")
    else if c["login_url"].Str? then Some(c["login_url"].s)
    else None
  }

  /** `config['credentials']['valid_user']` holds an email and a password. */
  predicate HasValidUser(c: Config) {
    "credentials" in c && c["credentials"].Dict? && "valid_user" in c["credentials"].d &&
    c["credentials"].d["valid_user"].Dict? &&
    "email" in c["credentials"].d["valid_user"].d && "password" in c["credentials"].d["valid_user"].d
  }

  /** A Selenium locator strategy, named by its attribute on `By`. */
  datatype By = By(attr: string)

  /** The attributes Selenium's `By` class defines. */
  const SELENIUM_BY := {"ID", "XPATH", "LINK_TEXT", "PARTIAL_LINK_TEXT", "NAME", "TAG_NAME", "CLASS_NAME", "CSS_SELECTOR"}

  /** The submit-button lookup as written: `By.TYPE`, which Selenium does not define. */
  const SUBMIT_AS_WRITTEN := By("TYPE")

  /** The evidently intended lookup: the submit button by CSS selector `button[type='submit']`. */
  const SUBMIT_CORRECTED := By("CSS_SELECTOR")

  /** What the login form does: whether each element is found and the click goes through. */
  datatype LoginForm = LoginForm(emailFound: bool, passwordFound: bool, submitFound: bool, clickOk: bool)

  /**
   * `_simulate_login` succeeds (sets the login flag) only when every step
   * runs: both fields found, the credentials present in the configuration,
   * the submit lookup's strategy exists on `By`, the button found and clicked.
   */
  predicate SimulateLoginSucceeds(submitBy: By, c: Config, f: LoginForm) {
    f.emailFound && f.passwordFound && HasValidUser(c) && submitBy.attr in SELENIUM_BY && f.submitFound && f.clickOk
  }

  /** As written, the `By.TYPE` lookup raises an AttributeError, so the simulated login never succeeds. */
  lemma SimulateLoginAsWrittenNeverSucceeds(c: Config, f: LoginForm)
    ensures !SimulateLoginSucceeds(SUBMIT_AS_WRITTEN, c, f)
  {
    assert "TYPE" !in SELENIUM_BY;
  }

  /** With the corrected lookup, the login succeeds exactly when the form and the configuration allow it. */
  lemma SimulateLoginCorrectedSucceeds(c: Config, f: LoginForm)
    ensures SimulateLoginSucceeds(SUBMIT_CORRECTED, c, f) <==>
      f.emailFound && f.passwordFound && HasValidUser(c) && f.submitFound && f.clickOk
  {
    assert "CSS_SELECTOR" in SELENIUM_BY;
  }

  /** With the defaults, a form that works lets the corrected login through. */
  lemma DefaultConfigHasValidUser()
    ensures HasValidUser(DEFAULT_CONFIG)
  {
  }

  /** Where `_attempt_login` goes after loading the login URL. */
  datatype Route = MockLogin | FormLogin | NoLogin

  function RouteFor(landed: string): (r: Route)
    ensures r == MockLogin <==> Contains(landed, "mock-driver")
    ensures r == FormLogin <==> !Contains(landed, "mock-driver") && Contains(Lower(landed), "login")
  {
    if Contains(landed, "mock-driver") then MockLogin
    else if Contains(Lower(landed), "login") then FormLogin
    else NoLogin
  }

  /** The form route ignores case ("LOGIN" counts); the mock route does not. */
  lemma RouteIgnoresCaseOfLogin(landed: string)
    requires !Contains(landed, "mock-driver") && Contains(landed, "login")
    ensures RouteFor(landed) == FormLogin
  {
    ContainsLower(landed, "login");
  }

  /** The class-level state: shared browser, login flag, configuration. */
  class Suite {
    var sharedDriver: Browser.Driver?
    var loggedIn: bool
    var config: Option<Config>

    constructor (driver: Browser.Driver?, config: Option<Config>)
      ensures sharedDriver == driver && this.config == config && !loggedIn
    {
      sharedDriver := driver;
      this.config := config;
      loggedIn := false;
    }

    /**
     * `_simulate_login`, looking the submit button up with `submitBy`
     * (`SUBMIT_AS_WRITTEN` for the program as written): the flag is set only
     * when every step succeeds; any exception leaves it unchanged.
     */
    method SimulateLogin(submitBy: By, f: LoginForm)
      requires config.Some?
      modifies this`loggedIn
      ensures loggedIn == (old(loggedIn) || SimulateLoginSucceeds(submitBy, config.value, f))
      ensures submitBy == SUBMIT_AS_WRITTEN ==> loggedIn == old(loggedIn)
    {
      if f.emailFound && f.passwordFound && HasValidUser(config.value) && submitBy.attr in SELENIUM_BY
        && f.submitFound && f.clickOk
      {
        loggedIn := true;
      }
      if submitBy == SUBMIT_AS_WRITTEN {
        SimulateLoginAsWrittenNeverSucceeds(config.value, f);
      }
    }

    /**
     * `_attempt_login`: nothing without a browser or a configuration; else
     * load the login URL (`landed` is where the browser ends up, None when
     * loading raised) and route on it, the form route looking the submit
     * button up with `submitBy`.
     */
    method AttemptLogin(submitBy: By, landed: Option<string>, f: LoginForm)
      modifies this`loggedIn, sharedDriver
      ensures sharedDriver == null || config.None? ==> loggedIn == old(loggedIn)
      ensures sharedDriver != null && config.Some? && LoginUrl(config.value).Some? && landed.Some? ==>
        sharedDriver.currentUrl == landed.value &&
        loggedIn == match RouteFor(landed.value)
          case MockLogin => true
          case FormLogin => old(loggedIn) || SimulateLoginSucceeds(submitBy, config.value, f)
          case NoLogin => old(loggedIn)
      ensures !(sharedDriver != null && config.Some? && LoginUrl(config.value).Some? && landed.Some?) ==>
        loggedIn == old(loggedIn)
      ensures sharedDriver != null && !(config.Some? && LoginUrl(config.value).Some? && landed.Some?) ==>
        sharedDriver.currentUrl == old(sharedDriver.currentUrl)
      ensures sharedDriver != null ==>
        sharedDriver.cookieJar == old(sharedDriver.cookieJar) && sharedDriver.quitCalled == old(sharedDriver.quitCalled)
      ensures submitBy == SUBMIT_AS_WRITTEN && loggedIn && !old(loggedIn) ==>
        sharedDriver != null && landed.Some? && RouteFor(landed.value) == MockLogin
    {
      if sharedDriver == null || config.None? {
        return;
      }
      var url := LoginUrl(config.value);
      if url.None? || landed.None? {
        return;
      }
      sharedDriver.Get(url.value);
      sharedDriver.Land(landed.value);
      var route := RouteFor(sharedDriver.currentUrl);
      if route == MockLogin {
        loggedIn := true;
      } else if route == FormLogin {
        SimulateLogin(submitBy, f);
      }
    }

    /** `teardown_class`: quit the browser but keep the reference to it. */
    method TeardownClass()
      modifies sharedDriver
      ensures sharedDriver != null ==> sharedDriver.quitCalled
      ensures sharedDriver != null ==>
        sharedDriver.currentUrl == old(sharedDriver.currentUrl) && sharedDriver.cookieJar == old(sharedDriver.cookieJar)
    {
      if sharedDriver != null {
        sharedDriver.Quit();
      }
    }
  }

  /** One test object: copies of the class's browser and configuration. */
  class Test {
    var driver: Browser.Driver?
    var config: Option<Config>
    var startTime: real

    constructor ()
      ensures driver == null && config.None?
    {
      driver := null;
      config := None;
      startTime := 0.0;
    }

    /** `setup_method`: take the class's browser and configuration, note the start time. */
    method SetupMethod(suite: Suite, now: real)
      modifies this
      ensures driver == suite.sharedDriver && config == suite.config && startTime == now
    {
      driver := suite.sharedDriver;
      config := suite.config;
      startTime := now;
    }

    /** `navigate_to_url`: True only when a browser exists and loading the page works (`getOk`). */
    method NavigateToUrl(url: string, getOk: bool) returns (ok: bool)
      modifies driver
      ensures ok <==> driver != null && getOk
      ensures driver != null ==> driver.currentUrl == (if ok then url else old(driver.currentUrl))
      ensures driver != null ==> driver.cookieJar == old(driver.cookieJar) && driver.quitCalled == old(driver.quitCalled)
    {
      if driver == null || !getOk {
        return false;
      }
      driver.Get(url);
      ok := true;
    }
  }
}
