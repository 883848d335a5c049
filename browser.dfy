/**
 * The WebDriver as the tests see it: the page currently shown, the cookie
 * jar, and whether the browser was shut down. Where a page lands after a
 * click, a redirect or a refresh is decided by the site, so it is passed in.
 */
module Browser {

  datatype Cookie = Cookie(name: string, value: string)

  class Driver {
    var currentUrl: string
    var cookieJar: seq<Cookie>
    var quitCalled: bool

    constructor (url: string)
      ensures currentUrl == url && cookieJar == [] && !quitCalled
    {
      currentUrl := url;
      cookieJar := [];
      quitCalled := false;
    }

    /** `driver.get(url)`. */
    method Get(url: string)
      modifies this`currentUrl
      ensures currentUrl == url
    {
      currentUrl := url;
    }

    /** The browser ends up on `url` after a refresh, a redirect or a form submission. */
    method Land(url: string)
      modifies this`currentUrl
      ensures currentUrl == url
    {
      currentUrl := url;
    }

    /** `driver.add_cookie(c)`. */
    method AddCookie(c: Cookie)
      modifies this`cookieJar
      ensures cookieJar == old(cookieJar) + [c]
    {
      cookieJar := cookieJar + [c];
    }

    /** `driver.quit()`. */
    method Quit()
      modifies this`quitCalled
      ensures quitCalled
    {
      quitCalled := true;
    }
  }
}
