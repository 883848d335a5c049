/**
 * Test data for the login tests: credentials per user type, lists of
 * scenarios per scenario type and expected UI messages, with lookups that
 * fall back to the config file's credentials, to "valid_user", to [] or
 * to "", and in-memory updates.
 */
module TestData {
  import opened Wrappers

  /** A credentials record, e.g. {"email": ..., "password": ...}. */
  type Credential = map<string, string>

  datatype Scenario = Scenario(
    testName: string,
    description: string,
    email: string,
    password: string,
    acceptTerms: bool,
    expectedResult: string)

  /** The three top-level sections of the data file; a section can be absent from a loaded file. */
  datatype Data = Data(
    loginCredentials: Option<map<string, Credential>>,
    testScenarios: Option<map<string, seq<Scenario>>>,
    expectedMessages: Option<map<string, string>>)

  const VALID_USER := "valid_user"
  const POSITIVE_TESTS := "positive_tests"
  const NEGATIVE_TESTS := "negative_tests"
  const SUCCESS := "success"
  const FAILURE := "failure"

  const DEFAULT_EMAIL := "test3"
  const DEFAULT_PASSWORD := "value@123"
  const WRONG_EMAIL := "invalid@example.com"
  const WRONG_PASSWORD := "WrongPassword"

  function Cred(email: string, password: string): (c: Credential)
    ensures c.Keys == {"email", "password"} && c["email"] == email && c["password"] == password
  {
    map["email" := email, "password" := password]
  }

  const DEFAULT_POSITIVE: seq<Scenario> := [
    Scenario("valid_login", "Login with valid credentials", DEFAULT_EMAIL, DEFAULT_PASSWORD, true, SUCCESS)]

  const DEFAULT_NEGATIVE: seq<Scenario> := [
    Scenario("invalid_email", "Login with invalid email", WRONG_EMAIL, DEFAULT_PASSWORD, true, FAILURE),
    Scenario("invalid_password", "Login with invalid password", DEFAULT_EMAIL, WRONG_PASSWORD, true, FAILURE),
    Scenario("empty_email", "Login with empty email", "", DEFAULT_PASSWORD, true, FAILURE),
    Scenario("empty_password", "Login with empty password", DEFAULT_EMAIL, "", true, FAILURE),
    Scenario("terms_not_accepted", "Login without accepting terms", DEFAULT_EMAIL, DEFAULT_PASSWORD, false, FAILURE)]

  const DEFAULT_MESSAGES: map<string, string> := map[
    "login_success" := "Login successful",
    "invalid_credentials" := "Invalid credentials",
    "empty_email" := "Email is required",
    "empty_password" := "Password is required",
    "terms_required" := "Please accept terms and conditions"]

  /** The data used when the data file is missing or unreadable. */
  const DEFAULT_DATA := Data(
    Some(map[VALID_USER := Cred(DEFAULT_EMAIL, DEFAULT_PASSWORD),
             "invalid_user" := Cred(WRONG_EMAIL, WRONG_PASSWORD),
             "empty_credentials" := Cred("", "")]),
    Some(map[POSITIVE_TESTS := DEFAULT_POSITIVE, NEGATIVE_TESTS := DEFAULT_NEGATIVE]),
    Some(DEFAULT_MESSAGES))

  /** `test_data["login_credentials"][user]`, None on a KeyError. */
  function StoredCredentials(d: Data, user: string): (r: Option<Credential>)
    ensures r.Some? <==> d.loginCredentials.Some? && user in d.loginCredentials.value
    ensures r.Some? ==> r.value == d.loginCredentials.value[user]
  {
    if d.loginCredentials.Some? && user in d.loginCredentials.value then Some(d.loginCredentials.value[user])
    else None
  }

  /**
   * Credentials for a user type: the config file's entry when it has one,
   * else the data file's; for an unknown type, "valid_user" from the config
   * file, else from the data file. None is the KeyError that escapes when
   * even the data file has no "valid_user".
   */
  function LoginCredentials(d: Data, config: map<string, Credential>, user: string): (r: Option<Credential>)
  {
    if |config| > 0 && user in config then Some(config[user])
    else match StoredCredentials(d, user)
      case Some(c) => Some(c)
      case None =>
        if |config| > 0 && VALID_USER in config then Some(config[VALID_USER])
        else StoredCredentials(d, VALID_USER)
  }

  /** The fallback order of the credential lookup, case by case. */
  lemma LoginCredentialsOrder(d: Data, config: map<string, Credential>, user: string)
    ensures user in config ==> LoginCredentials(d, config, user) == Some(config[user])
    ensures user !in config && StoredCredentials(d, user).Some? ==>
      LoginCredentials(d, config, user) == StoredCredentials(d, user)
    ensures user !in config && StoredCredentials(d, user).None? && VALID_USER in config ==>
      LoginCredentials(d, config, user) == Some(config[VALID_USER])
    ensures user !in config && StoredCredentials(d, user).None? && VALID_USER !in config ==>
      LoginCredentials(d, config, user) == StoredCredentials(d, VALID_USER)
  {
  }

  /** The lookup fails only when neither source knows the user nor "valid_user". */
  lemma LoginCredentialsFailure(d: Data, config: map<string, Credential>, user: string)
    ensures LoginCredentials(d, config, user).None? <==>
      user !in config && VALID_USER !in config &&
      StoredCredentials(d, user).None? && StoredCredentials(d, VALID_USER).None?
  {
  }

  /** `test_data["test_scenarios"][kind]`, or [] on a KeyError. */
  function TestScenarios(d: Data, kind: string): (r: seq<Scenario>)
    ensures d.testScenarios.Some? && kind in d.testScenarios.value ==> r == d.testScenarios.value[kind]
    ensures !(d.testScenarios.Some? && kind in d.testScenarios.value) ==> r == []
  {
    if d.testScenarios.Some? && kind in d.testScenarios.value then d.testScenarios.value[kind] else []
  }

  /** `test_data["expected_messages"][key]`, or "" on a KeyError. */
  function ExpectedMessage(d: Data, key: string): (r: string)
    ensures d.expectedMessages.Some? && key in d.expectedMessages.value ==> r == d.expectedMessages.value[key]
    ensures !(d.expectedMessages.Some? && key in d.expectedMessages.value) ==> r == ""
  {
    if d.expectedMessages.Some? && key in d.expectedMessages.value then d.expectedMessages.value[key] else ""
  }

  /** The data after appending a scenario; None is the KeyError when there is no scenario section. */
  function WithScenario(d: Data, kind: string, s: Scenario): (r: Option<Data>)
    ensures r.Some? <==> d.testScenarios.Some?
  {
    match d.testScenarios
    case None => None
    case Some(m) => Some(d.(testScenarios := Some(m[kind := (if kind in m then m[kind] else []) + [s]])))
  }

  /** Appending puts the scenario last in its list and changes nothing else. */
  lemma AddScenarioThenRead(d: Data, kind: string, s: Scenario)
    requires d.testScenarios.Some?
    ensures WithScenario(d, kind, s).Some?
    ensures TestScenarios(WithScenario(d, kind, s).value, kind) == TestScenarios(d, kind) + [s]
    ensures forall k :: k != kind ==> TestScenarios(WithScenario(d, kind, s).value, k) == TestScenarios(d, k)
    ensures WithScenario(d, kind, s).value.loginCredentials == d.loginCredentials
    ensures WithScenario(d, kind, s).value.expectedMessages == d.expectedMessages
  {
  }

  /** The data after setting a user's credentials, creating the credentials section if absent. */
  function WithCredentials(d: Data, user: string, email: string, password: string): Data
  {
    var creds := d.loginCredentials.GetOr(map[]);
    d.(loginCredentials := Some(creds[user := Cred(email, password)]))
  }

  /** The user's entry becomes exactly {email, password}; other users keep theirs. */
  lemma UpdateCredentialsThenRead(d: Data, user: string, email: string, password: string)
    ensures StoredCredentials(WithCredentials(d, user, email, password), user) == Some(Cred(email, password))
    ensures forall u :: u != user ==>
      StoredCredentials(WithCredentials(d, user, email, password), u) == StoredCredentials(d, u)
    ensures WithCredentials(d, user, email, password).testScenarios == d.testScenarios
  {
  }

  /** After an update and without config credentials, the lookup returns the new entry. */
  lemma UpdatedCredentialsAreServed(d: Data, user: string, email: string, password: string)
    ensures LoginCredentials(WithCredentials(d, user, email, password), map[], user) == Some(Cred(email, password))
  {
  }

  /** The default data: one positive scenario expecting success, five negative ones expecting failure. */
  lemma DefaultScenarios()
    ensures |TestScenarios(DEFAULT_DATA, POSITIVE_TESTS)| == 1
    ensures TestScenarios(DEFAULT_DATA, POSITIVE_TESTS)[0].expectedResult == SUCCESS
    ensures |TestScenarios(DEFAULT_DATA, NEGATIVE_TESTS)| == 5
    ensures forall i :: 0 <= i < 5 ==> TestScenarios(DEFAULT_DATA, NEGATIVE_TESTS)[i].expectedResult == FAILURE
  {
    assert POSITIVE_TESTS != NEGATIVE_TESTS;
  }

  /** With the default data any user type resolves: unknown ones get the valid user. */
  lemma DefaultCredentialsAlwaysResolve(user: string)
    ensures LoginCredentials(DEFAULT_DATA, map[], user).Some?
    ensures StoredCredentials(DEFAULT_DATA, user).None? ==>
      LoginCredentials(DEFAULT_DATA, map[], user) == Some(Cred(DEFAULT_EMAIL, DEFAULT_PASSWORD))
  {
  }

  class DataManager {
    var dataFilePath: string
    var testData: Data
    var configCredentials: map<string, Credential>

    /**
     * `loaded` is the parsed data file, None when it is missing or unreadable;
     * `config` is the config file's credentials section ({} when absent).
     */
    constructor (dataFile: Option<string>, loaded: Option<Data>, config: map<string, Credential>)
      ensures dataFilePath == dataFile.GetOr("utils/../test_data/test_data.json")
      ensures testData == loaded.GetOr(DEFAULT_DATA)
      ensures configCredentials == config
    {
      dataFilePath := dataFile.GetOr("utils/../test_data/test_data.json");
      testData := loaded.GetOr(DEFAULT_DATA);
      configCredentials := config;
    }

    /** Appends to the named scenario list; `ok` is false (the KeyError) when there is no scenario section. */
    method AddTestScenario(kind: string, s: Scenario) returns (ok: bool)
      modifies this`testData
      ensures ok <==> old(testData).testScenarios.Some?
      ensures ok ==> Some(testData) == WithScenario(old(testData), kind, s)
      ensures !ok ==> testData == old(testData)
    {
      if testData.testScenarios.None? {
        return false;
      }
      var m := testData.testScenarios.value;
      ghost var before := if kind in m then m[kind] else [];
      if kind !in m {
        m := m[kind := []];
      }
      assert m[kind] == before;
      m := m[kind := m[kind] + [s]];
      testData := testData.(testScenarios := Some(m));
      ok := true;
      assert m == old(testData).testScenarios.value[kind := before + [s]];
    }

    /** Sets the user's credentials to exactly {email, password}. */
    method UpdateCredentials(user: string, email: string, password: string)
      modifies this`testData
      ensures testData == WithCredentials(old(testData), user, email, password)
    {
      if testData.loginCredentials.None? {
        testData := testData.(loginCredentials := Some(map[]));
      }
      var creds := testData.loginCredentials.value;
      testData := testData.(loginCredentials := Some(creds[user := map["email" := email, "password" := password]]));
    }
  }
}
