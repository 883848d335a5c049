/**
 * The locator table: page name -> element name -> XPath string, loaded
 * from a YAML file or taken from a built-in default, with lookups that
 * fall back to None / {} / [] / "" for missing keys, in-memory add and
 * update, and a process-wide instance created on first use.
 */
module Locators {
  import opened Wrappers

  /** A value stored under a page: an XPath, YAML `null`, or (under `text_messages`) a table of messages. */
  datatype Entry = Xpath(xpath: string) | Null | Messages(messages: map<string, string>)

  type PageTable = map<string, Entry>
  type Table = map<string, PageTable>

  /** Selenium's `By.XPATH`. */
  const XPATH := "xpath"

  const TEXT_MESSAGES := "text_messages"
  const COMMON := "common"

  /** Path used when no configuration file is named. */
  const DEFAULT_LOCATORS_PATH := "utils/../config/locators.yaml"

  /** The built-in table used when the YAML file cannot be read: the six login-page XPaths. */
  const DEFAULT_LOGIN_PAGE: PageTable := map[
    "email_field" := Xpath("//input[@id='company-email']"),
    "password_field" := Xpath("//span[@class='ant-input-affix-wrapper css-bixahu ant-input-outlined ant-input-password input']//input[@type='password']"),
    "terms_checkbox" := Xpath("//input[@type='checkbox']"),
    "sign_in_button" := Xpath("//button[normalize-space()='Sign In']"),
    "general_error" := Xpath("//div[contains(@class, 'error')]"),
    "loading_indicator" := Xpath("//div[contains(@class, 'loading')]")]

  const DEFAULT_LOCATORS: Table := map["login_page" := DEFAULT_LOGIN_PAGE]

  /** `t[page][element]`, or None when either key is missing. */
  function Lookup(t: Table, page: string, element: string): (r: Option<Entry>)
    ensures r.Some? <==> page in t && element in t[page]
  {
    if page in t && element in t[page] then Some(t[page][element]) else None
  }

  /** The table after `t.setdefault(page, {})[element] = Xpath(xpath)`. */
  function WithLocator(t: Table, page: string, element: string, xpath: string): (r: Table)
    ensures r.Keys == t.Keys + {page}
  {
    t[page := (if page in t then t[page] else map[])[element := Xpath(xpath)]]
  }

  /** The table after replacing an existing entry; unchanged when the entry is missing. */
  function WithUpdatedLocator(t: Table, page: string, element: string, xpath: string): (r: Table)
    ensures r.Keys == t.Keys
  {
    if page in t && element in t[page] then t[page := t[page][element := Xpath(xpath)]] else t
  }

  /** Adding an entry makes it readable and leaves every other entry as it was. */
  lemma AddThenLookup(t: Table, page: string, element: string, xpath: string)
    ensures Lookup(WithLocator(t, page, element, xpath), page, element) == Some(Xpath(xpath))
    ensures forall p, e :: (p, e) != (page, element) ==>
      Lookup(WithLocator(t, page, element, xpath), p, e) == Lookup(t, p, e)
  {
  }

  /** Updating changes only an existing entry, and only that one. */
  lemma UpdateThenLookup(t: Table, page: string, element: string, xpath: string)
    ensures Lookup(t, page, element).Some? ==>
      Lookup(WithUpdatedLocator(t, page, element, xpath), page, element) == Some(Xpath(xpath))
    ensures Lookup(t, page, element).None? ==> WithUpdatedLocator(t, page, element, xpath) == t
    ensures forall p, e :: (p, e) != (page, element) ==>
      Lookup(WithUpdatedLocator(t, page, element, xpath), p, e) == Lookup(t, p, e)
  {
  }

  /** Updating an entry that already exists is the same as adding it. */
  lemma UpdateExistingIsAdd(t: Table, page: string, element: string, xpath: string)
    requires Lookup(t, page, element).Some?
    ensures WithUpdatedLocator(t, page, element, xpath) == WithLocator(t, page, element, xpath)
  {
  }

  /** The outcome of reading the YAML file. */
  datatype LoadOutcome = Loaded(table: Table) | LoadFailed

  class LocatorManager {
    var configFilePath: string
    var locators: Table

    /** A failed read (missing file or any other error) falls back to the built-in table. */
    constructor (configFile: Option<string>, load: LoadOutcome)
      ensures configFilePath == configFile.GetOr(DEFAULT_LOCATORS_PATH)
      ensures locators == (if load.Loaded? then load.table else DEFAULT_LOCATORS)
    {
      configFilePath := configFile.GetOr(DEFAULT_LOCATORS_PATH);
      locators := if load.Loaded? then load.table else DEFAULT_LOCATORS;
    }

    /** `(By.XPATH, value)` for a present entry, whatever its value; None when the page or element is missing. */
    function GetLocator(page: string, element: string): (r: Option<(string, Entry)>)
      reads this
      ensures r.Some? <==> page in locators && element in locators[page]
      ensures r.Some? ==> r.value.0 == XPATH && r.value.1 == locators[page][element]
    {
      match Lookup(locators, page, element)
      case Some(v) => Some((XPATH, v))
      case None => None
    }

    /** The stored value; a missing entry gives `None` just as a stored null does. */
    function GetXpath(page: string, element: string): (r: Entry)
      reads this
      ensures page in locators && element in locators[page] ==> r == locators[page][element]
      ensures !(page in locators && element in locators[page]) ==> r == Null
    {
      Lookup(locators, page, element).GetOr(Null)
    }

    /** Every entry of a page, or the empty table for an unknown page. */
    function GetPageLocators(page: string): (r: PageTable)
      reads this
      ensures page in locators ==> r == locators[page]
      ensures page !in locators ==> r == map[]
    {
      if page in locators then locators[page] else map[]
    }

    /**
     * `locators['text_messages'][page][key]`, or "" when a key is missing.
     * None stands for the TypeError raised when the page's entry is not a table of messages.
     */
    function GetTextMessage(page: string, key: string): (r: Option<string>)
      reads this
      ensures r == Some("") <== TEXT_MESSAGES !in locators || page !in locators[TEXT_MESSAGES]
      ensures r.None? <==> TEXT_MESSAGES in locators && page in locators[TEXT_MESSAGES] &&
                           !locators[TEXT_MESSAGES][page].Messages?
      ensures r.Some? && r.value != "" ==>
        Lookup(locators, TEXT_MESSAGES, page) == Some(Messages(locators[TEXT_MESSAGES][page].messages)) &&
        key in locators[TEXT_MESSAGES][page].messages && r.value == locators[TEXT_MESSAGES][page].messages[key]
      ensures TEXT_MESSAGES in locators && page in locators[TEXT_MESSAGES] && locators[TEXT_MESSAGES][page].Messages? ==>
        r == Some(if key in locators[TEXT_MESSAGES][page].messages then locators[TEXT_MESSAGES][page].messages[key] else "")
    {
      match Lookup(locators, TEXT_MESSAGES, page)
      case None => Some("")
      case Some(Messages(m)) => Some(if key in m then m[key] else "")
      case Some(_) => None
    }

    /** Adds (or overwrites) an entry, creating the page when it is new. */
    method AddLocator(page: string, element: string, xpath: string)
      modifies this`locators
      ensures locators == WithLocator(old(locators), page, element, xpath)
    {
      if page !in locators {
        locators := locators[page := map[]];
      }
      locators := locators[page := locators[page][element := Xpath(xpath)]];
    }

    /** Replaces an existing entry; a missing page or element leaves the table as it was. */
    method UpdateLocator(page: string, element: string, newXpath: string)
      modifies this`locators
      ensures locators == WithUpdatedLocator(old(locators), page, element, newXpath)
    {
      if page in locators && element in locators[page] {
        locators := locators[page := locators[page][element := Xpath(newXpath)]];
      }
    }

    /** The element names of a page; none for an unknown page. */
    function ListPageElements(page: string): (r: set<string>)
      reads this
      ensures forall e :: e in r <==> page in locators && e in locators[page]
    {
      if page in locators then locators[page].Keys else {}
    }

    /** Every top-level key except `text_messages` and `common`. */
    function ListAllPages(): (r: set<string>)
      reads this
      ensures forall p :: p in r <==> p in locators && p != TEXT_MESSAGES && p != COMMON
    {
      locators.Keys - {TEXT_MESSAGES, COMMON}
    }

    /** True iff the page exists, the element exists and its value is not null. */
    function ValidateLocator(page: string, element: string): (r: bool)
      reads this
      ensures r <==> Lookup(locators, page, element).Some? && Lookup(locators, page, element) != Some(Null)
    {
      page in locators && element in locators[page] && locators[page][element] != Null
    }
  }

  /** Without a readable file, the login page's six elements are present and not null. */
  lemma DefaultLocatorsPresent()
    ensures DEFAULT_LOCATORS.Keys == {"login_page"}
    ensures forall e :: e in DEFAULT_LOCATORS["login_page"] ==> DEFAULT_LOCATORS["login_page"][e].Xpath?
    ensures "email_field" in DEFAULT_LOCATORS["login_page"] && "password_field" in DEFAULT_LOCATORS["login_page"]
    ensures "terms_checkbox" in DEFAULT_LOCATORS["login_page"] && "sign_in_button" in DEFAULT_LOCATORS["login_page"]
  {
  }

  /** The module-level slot holding the shared instance. */
  class Registry {
    var instance: LocatorManager?

    constructor ()
      ensures instance == null
    {
      instance := null;
    }

    /** Creates the instance on first use; later calls return it and ignore their arguments. */
    method GetLocatorManager(configFile: Option<string>, load: LoadOutcome) returns (m: LocatorManager)
      modifies this
      ensures old(instance) != null ==> m == old(instance) && instance == m
      ensures old(instance) == null ==> fresh(m) && instance == m
      ensures old(instance) == null ==> m.configFilePath == configFile.GetOr(DEFAULT_LOCATORS_PATH)
      ensures old(instance) == null ==> m.locators == (if load.Loaded? then load.table else DEFAULT_LOCATORS)
    {
      if instance == null {
        instance := new LocatorManager(configFile, load);
      }
      m := instance;
    }
  }

  /** Two calls in a row return the same instance, whatever the second call's arguments. */
  method SingletonTwice(r: Registry, f1: Option<string>, l1: LoadOutcome, f2: Option<string>, l2: LoadOutcome)
    returns (a: LocatorManager, b: LocatorManager)
    modifies r
    ensures a == b && r.instance == a
  {
    a := r.GetLocatorManager(f1, l1);
    b := r.GetLocatorManager(f2, l2);
  }
}
