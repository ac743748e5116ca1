/**
 * The WatiN automation provider: a browser type that may change only until
 * the browser is created, lazy creation on the first page navigation, and
 * history navigation on the created browser.
 */
module WatiN {
  import opened Wrappers

  datatype BrowserType = InternetExplorer | Firefox | OtherBrowser(name: string)

  datatype Direction = Back | Forward | OtherDirection(code: int)

  /** What the provider asks of the browser it created. */
  datatype BrowserCall = GoTo(uri: string) | GoBack | GoForward

  datatype ProviderError =
    | BrowserTypeLocked            // "Browser Type can't be changed after it has been accessed."
    | NotImplemented(message: string)
    | NullBrowser                  // a call on the browser before it exists

  const FirefoxUnsupported := "WatiN only supports Firefox with JSSH enabled. JSSH is not supported on versions newer than 4.0 so it has been disabled via this API."
  const OnlyInternetExplorer := "WatiN only supports Internet Explorer. Switch to Selenium if you want to target other browsers."

  /** Why creating a browser of type `t` fails; only Internet Explorer can be created. */
  function CreationFailure(t: BrowserType): (e: Option<ProviderError>)
    ensures e.None? <==> t == InternetExplorer
    ensures t == Firefox ==> e == Some(NotImplemented(FirefoxUnsupported))
    ensures t.OtherBrowser? ==> e == Some(NotImplemented(OnlyInternetExplorer))
  {
    match t
    case InternetExplorer => None
    case Firefox => Some(NotImplemented(FirefoxUnsupported))
    case OtherBrowser(_) => Some(NotImplemented(OnlyInternetExplorer))
  }

  /** The calls a direction sends to the browser: one step back, one forward, or none. */
  function DirectionCalls(d: Direction): (cs: seq<BrowserCall>)
    ensures d == Back <==> cs == [GoBack]
    ensures d == Forward <==> cs == [GoForward]
    ensures d.OtherDirection? <==> cs == []
  {
    match d
    case Back => [GoBack]
    case Forward => [GoForward]
    case OtherDirection(_) => []
  }

  /** An Internet Explorer instance, opened in full-screen mode. */
  class IEBrowser {
    var calls: seq<BrowserCall>
    const fullScreen: bool

    constructor ()
      ensures calls == [] && fullScreen
    {
      calls := [];
      fullScreen := true;
    }

    method Call(c: BrowserCall)
      modifies this
      ensures calls == old(calls) + [c]
    {
      calls := calls + [c];
    }
  }

  class AutomationProvider {
    var browser: IEBrowser?
    var browserType: BrowserType

    /** A new provider has no browser and targets Internet Explorer. */
    constructor ()
      ensures browser == null && browserType == InternetExplorer
    {
      browser := null;
      browserType := InternetExplorer;
    }

    /** `SetBrowser`: refused once a browser exists, otherwise records the type. */
    method SetBrowser(t: BrowserType) returns (r: Outcome<ProviderError>)
      modifies this`browserType
      ensures old(browser) != null ==> r == Fail(BrowserTypeLocked) && browserType == old(browserType)
      ensures old(browser) == null ==> r == Pass && browserType == t
    {
      if browser != null {
        return Fail(BrowserTypeLocked);
      }
      browserType := t;
      r := Pass;
    }

    /** `getCurrentBrowser`: a fresh full-screen Internet Explorer, or the reason the type is not supported. */
    method GetCurrentBrowser() returns (r: Result<IEBrowser, ProviderError>)
      ensures r.Failure? <==> CreationFailure(browserType).Some?
      ensures r.Failure? ==> r.error == CreationFailure(browserType).value
      ensures r.Success? ==> fresh(r.value) && r.value.calls == [] && r.value.fullScreen
    {
      match browserType
      case InternetExplorer =>
        var ie := new IEBrowser();
        r := Success(ie);
      case Firefox =>
        r := Failure(NotImplemented(FirefoxUnsupported));
      case OtherBrowser(_) =>
        r := Failure(NotImplemented(OnlyInternetExplorer));
    }

    /**
     * `Navigate(pageUri)`: create the browser on first use, then go to the
     * page. A failed creation leaves the provider without a browser.
     */
    method Navigate(uri: string) returns (r: Outcome<ProviderError>)
      modifies this`browser, browser
      ensures old(browser) != null ==> r == Pass && browser == old(browser) && browser.calls == old(browser.calls) + [GoTo(uri)]
      ensures old(browser) == null && CreationFailure(browserType).Some? ==>
                r == Fail(CreationFailure(browserType).value) && browser == null
      ensures old(browser) == null && CreationFailure(browserType).None? ==>
                r == Pass && fresh(browser) && browser.calls == [GoTo(uri)] && browser.fullScreen
      ensures browserType == old(browserType)
    {
      if browser == null {
        var created := GetCurrentBrowser();
        if created.Failure? {
          return Fail(created.error);
        }
        browser := created.value;
      }
      browser.Call(GoTo(uri));
      r := Pass;
    }

    /** `Navigate(direction)`: back or forward in the browser's history; any other direction does nothing. */
    method NavigateDirection(d: Direction) returns (r: Outcome<ProviderError>)
      modifies browser
      ensures browser == old(browser)
      ensures old(browser) == null && d != Back && d != Forward ==> r == Pass
      ensures old(browser) == null && (d == Back || d == Forward) ==> r == Fail(NullBrowser)
      ensures old(browser) != null ==> r == Pass && browser.calls == old(browser.calls) + DirectionCalls(d)
    {
      if d == Back || d == Forward {
        if browser == null {
          return Fail(NullBrowser);
        }
        browser.Call(if d == Back then GoBack else GoForward);
      }
      r := Pass;
    }
  }

  /**
   * The type lock: once a navigation has created the browser, no later
   * `SetBrowser` can change the type, and a failed creation leaves it free.
   */
  method TypeLockedAfterNavigate(p: AutomationProvider, uri: string, t: BrowserType)
    returns (navigated: Outcome<ProviderError>, retyped: Outcome<ProviderError>)
    modifies p, p.browser
    ensures navigated.Pass? ==> retyped == Fail(BrowserTypeLocked) && p.browserType == old(p.browserType)
    ensures navigated.Fail? ==> retyped == Pass && p.browserType == t
  {
    navigated := p.Navigate(uri);
    retyped := p.SetBrowser(t);
  }
}
