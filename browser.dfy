/**
 * The browser, seen from the automation code: an interaction port that answers each request
 * (create a driver, load a URL, read the current URL, wait for an element or an alert, load
 * cookies, quit the driver, choose an option, fill a field) from the exchanges so far, and
 * records every request with its answer. Actions whose outcome the code does not look at (click,
 * clear, type, scroll, screenshot, sleep, a quit whose failure is swallowed, save cookies) are
 * recorded without an answer.
 */
module Browser {
  import opened Wrappers

  /** The locator strategies the core uses, spelled as Selenium's `By` constants. */
  datatype By = ById | ByName | ByTagName

  function ByText(strategy: By): string
  {
    match strategy
    case ById => "id"
    case ByName => "name"
    case ByTagName => "tag name"
  }

  datatype Locator = Locator(strategy: By, value: string)

  /** What the code reads from a located element: `is_displayed()`, `.text`, `get_attribute("value")`. */
  datatype Element = Element(displayed: bool, text: string, value: Option<string>)

  /** A wait for an element: it appears, the wait times out, or the driver raises something else. */
  datatype ElementReply = Found(element: Element) | TimedOut | Fault(error: string)

  /**
   * A wait for a JavaScript alert: one appears (and is accepted) with its text, the wait times
   * out, no alert is present, or another error occurs, after which a forced accept is tried.
   */
  datatype AlertReply = AlertShown(text: string) | AlertTimeout | NoAlertPresent | AlertFault(forcedAccept: bool)

  /** Driver construction: a driver, `None`, or an exception. */
  datatype CreateReply = Started | ReturnedNone | Raised(error: string)

  /**
   * `load_cookies`: no cookie file, cookies added and the page refreshed, or an exception from
   * loading the base URL, reading the file or refreshing.
   */
  datatype CookieReply = NoCookieFile | Restored | CookieFault(error: string)

  datatype Action =
    | Clear(loc: Locator)
    | Type(loc: Locator, text: string)
    | Click(loc: Locator)
    | Scroll(loc: Locator)
    | Screenshot(file: string)
    | Sleep(seconds: nat)
    | Quit
    | SaveCookies

  datatype Exchange =
    | Created(browser: string, headless: bool, created: CreateReply)
    | Visited(url: string, loaded: bool)
    | UrlRead(current: Option<string>)
    | ElementAwaited(loc: Locator, timeout: nat, reply: ElementReply)
    | AlertAwaited(timeout: nat, alert: AlertReply)
    | CookiesLoaded(cookies: CookieReply)
    | Stopped(quit: bool)
    | Chosen(loc: Locator, option: string, chosen: bool)
    | Filled(loc: Locator, text: string, filled: bool)
    | Did(action: Action)

  /** The remote site and browser: every answer may depend on everything asked and answered before. */
  datatype World = World(
    create: (seq<Exchange>, string, bool) -> CreateReply,
    visit: (seq<Exchange>, string) -> bool,
    url: seq<Exchange> -> Option<string>,
    element: (seq<Exchange>, Locator, nat) -> ElementReply,
    alert: (seq<Exchange>, nat) -> AlertReply,
    cookies: seq<Exchange> -> CookieReply,
    quit: seq<Exchange> -> bool,
    choose: (seq<Exchange>, Locator, string) -> bool,
    fill: (seq<Exchange>, Locator, string) -> bool)

  class Port {
    const world: World
    var log: seq<Exchange>

    constructor (world: World)
      ensures this.world == world && log == []
    {
      this.world := world;
      log := [];
    }

    method Create(browser: string, headless: bool) returns (reply: CreateReply)
      modifies this
      ensures reply == world.create(old(log), browser, headless)
      ensures log == old(log) + [Created(browser, headless, reply)]
    {
      reply := world.create(log, browser, headless);
      log := log + [Created(browser, headless, reply)];
    }

    method Visit(url: string) returns (loaded: bool)
      modifies this
      ensures loaded == world.visit(old(log), url)
      ensures log == old(log) + [Visited(url, loaded)]
    {
      loaded := world.visit(log, url);
      log := log + [Visited(url, loaded)];
    }

    method ReadUrl() returns (current: Option<string>)
      modifies this
      ensures current == world.url(old(log))
      ensures log == old(log) + [UrlRead(current)]
    {
      current := world.url(log);
      log := log + [UrlRead(current)];
    }

    method AwaitElement(loc: Locator, timeout: nat) returns (reply: ElementReply)
      modifies this
      ensures reply == world.element(old(log), loc, timeout)
      ensures log == old(log) + [ElementAwaited(loc, timeout, reply)]
    {
      reply := world.element(log, loc, timeout);
      log := log + [ElementAwaited(loc, timeout, reply)];
    }

    method AwaitAlert(timeout: nat) returns (reply: AlertReply)
      modifies this
      ensures reply == world.alert(old(log), timeout)
      ensures log == old(log) + [AlertAwaited(timeout, reply)]
    {
      reply := world.alert(log, timeout);
      log := log + [AlertAwaited(timeout, reply)];
    }

    method LoadCookies() returns (cookies: CookieReply)
      modifies this
      ensures cookies == world.cookies(old(log))
      ensures log == old(log) + [CookiesLoaded(cookies)]
    {
      cookies := world.cookies(log);
      log := log + [CookiesLoaded(cookies)];
    }

    /** `driver.quit()`, which may raise: whether it returned normally. */
    method Quit() returns (quit: bool)
      modifies this
      ensures quit == world.quit(old(log))
      ensures log == old(log) + [Stopped(quit)]
    {
      quit := world.quit(log);
      log := log + [Stopped(quit)];
    }

    method Choose(loc: Locator, option: string) returns (chosen: bool)
      modifies this
      ensures chosen == world.choose(old(log), loc, option)
      ensures log == old(log) + [Chosen(loc, option, chosen)]
    {
      chosen := world.choose(log, loc, option);
      log := log + [Chosen(loc, option, chosen)];
    }

    method Fill(loc: Locator, text: string) returns (filled: bool)
      modifies this
      ensures filled == world.fill(old(log), loc, text)
      ensures log == old(log) + [Filled(loc, text, filled)]
    {
      filled := world.fill(log, loc, text);
      log := log + [Filled(loc, text, filled)];
    }

    method Do(action: Action)
      modifies this
      ensures log == old(log) + [Did(action)]
    {
      log := log + [Did(action)];
    }
  }
}
