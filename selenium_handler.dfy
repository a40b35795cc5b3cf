/**
 * automation/selenium_handler.py: the handler that owns the WebDriver. It starts the driver
 * with up to three tries, stops it, loads pages, waits for elements and alerts, and takes
 * screenshots, all through the interaction port.
 */
module Selenium {
  import opened Wrappers
  import opened Strings
  import opened Settings
  import opened Browser

  /** Tries `start_driver` makes before giving up. */
  const StartTries: nat := 3
  /** Seconds of the `WebDriverWait` kept for a started driver. */
  const WaitTimeout: nat := 30
  const ForcedAcceptText := "Alert dismissed (forced)"

  predicate SupportedBrowser(name: string)
  {
    name == "chrome" || name == "firefox"
  }

  // ---------------------------------------------------------------- counting exchanges

  function Count(xs: seq<Exchange>, p: Exchange -> bool): nat
  {
    if xs == [] then 0 else (if p(xs[0]) then 1 else 0) + Count(xs[1..], p)
  }

  lemma {:induction false} CountAppend(xs: seq<Exchange>, ys: seq<Exchange>, p: Exchange -> bool)
    ensures Count(xs + ys, p) == Count(xs, p) + Count(ys, p)
    decreases |xs|
  {
    if xs == [] {
      assert xs + ys == ys;
    } else {
      assert (xs + ys)[1..] == xs[1..] + ys;
      CountAppend(xs[1..], ys, p);
    }
  }

  lemma CountOne(x: Exchange, p: Exchange -> bool)
    ensures Count([x], p) == if p(x) then 1 else 0
  {
    assert [x][1..] == [];
  }

  predicate IsPause(x: Exchange) { x.Did? && x.action.Sleep? }
  predicate IsCreation(x: Exchange) { x.Created? }
  predicate IsStart(x: Exchange) { x.Created? && x.created == Started }

  // ---------------------------------------------------------------- start_driver

  datatype StartResult = StartResult(ok: bool, tries: nat, log: seq<Exchange>)

  /** What one try asks for: create a supported browser, else the try has already failed. */
  function TryReply(w: World, log: seq<Exchange>, browser: string, headless: bool): Option<CreateReply>
  {
    if SupportedBrowser(browser) then Some(w.create(log, browser, headless)) else None
  }

  /**
   * The exchanges of one try: the creation, and after a failure the quit of a driver still held
   * and a two-second pause unless this is the last try.
   */
  function TryExchanges(w: World, log: seq<Exchange>, browser: string, headless: bool, live: bool, last: bool): seq<Exchange>
  {
    var reply := TryReply(w, log, browser, headless);
    (if reply.Some? then [Created(browser, headless, reply.value)] else [])
      + (if reply == Some(Started) then []
         else
           (if live && reply != Some(ReturnedNone) then [Did(Quit)] else [])
             + (if last then [] else [Did(Sleep(2))]))
  }

  /**
   * `start_driver` after `failures` failed tries, `live` telling whether a driver object is
   * held.
   */
  function StartFrom(w: World, log: seq<Exchange>, browser: string, headless: bool, live: bool, failures: nat): StartResult
    requires failures < StartTries
    decreases StartTries - failures
  {
    var last := failures + 1 == StartTries;
    var next := log + TryExchanges(w, log, browser, headless, live, last);
    if TryReply(w, log, browser, headless) == Some(Started) then StartResult(true, failures + 1, next)
    else if last then StartResult(false, StartTries, next)
    else StartFrom(w, next, browser, headless, false, failures + 1)
  }

  /** One step of `StartFrom`: a started driver ends it, a failed last try ends it, else the next try follows. */
  lemma StartFromUnfold(w: World, log: seq<Exchange>, browser: string, headless: bool, live: bool, failures: nat)
    requires failures < StartTries
    ensures var last := failures + 1 == StartTries;
      var next := log + TryExchanges(w, log, browser, headless, live, last);
      StartFrom(w, log, browser, headless, live, failures)
        == if TryReply(w, log, browser, headless) == Some(Started) then StartResult(true, failures + 1, next)
           else if last then StartResult(false, StartTries, next)
           else StartFrom(w, next, browser, headless, false, failures + 1)
  {
  }

  /** One try creates a driver only for a supported browser, pauses only after a failure that is not the last. */
  lemma TryCounts(w: World, log: seq<Exchange>, browser: string, headless: bool, live: bool, last: bool)
    ensures var xs := TryExchanges(w, log, browser, headless, live, last);
      var started := TryReply(w, log, browser, headless) == Some(Started);
      && Count(xs, IsCreation) == (if SupportedBrowser(browser) then 1 else 0)
      && Count(xs, IsStart) == (if started then 1 else 0)
      && Count(xs, IsPause) == (if started || last then 0 else 1)
      && (started ==> xs == [Created(browser, headless, Started)])
  {
    var reply := TryReply(w, log, browser, headless);
    var create := if reply.Some? then [Created(browser, headless, reply.value)] else [];
    var quit := if live && reply != Some(ReturnedNone) then [Did(Quit)] else [];
    var pause := if last then [] else [Did(Sleep(2))];
    var tail := if reply == Some(Started) then [] else quit + pause;
    assert TryExchanges(w, log, browser, headless, live, last) == create + tail;
    forall p: Exchange -> bool
      ensures Count(create + tail, p) == Count(create, p) + Count(quit, p) * (if reply == Some(Started) then 0 else 1)
                                        + Count(pause, p) * (if reply == Some(Started) then 0 else 1)
    {
      CountAppend(create, tail, p);
      CountAppend(quit, pause, p);
    }
    if reply.Some? {
      CountOne(create[0], IsCreation);
      CountOne(create[0], IsStart);
      CountOne(create[0], IsPause);
    }
    if quit != [] {
      CountOne(Did(Quit), IsCreation);
      CountOne(Did(Quit), IsStart);
      CountOne(Did(Quit), IsPause);
    }
    if !last {
      CountOne(Did(Sleep(2)), IsCreation);
      CountOne(Did(Sleep(2)), IsStart);
      CountOne(Did(Sleep(2)), IsPause);
    }
  }

  /**
   * At most three tries, all of them when none starts a driver, the exchanges only appended;
   * success exactly when the last exchange is a started driver; an unsupported browser always
   * fails.
   */
  lemma {:induction false} StartFromTries(w: World, log: seq<Exchange>, browser: string, headless: bool, live: bool, failures: nat)
    requires failures < StartTries
    ensures var r := StartFrom(w, log, browser, headless, live, failures);
      && failures < r.tries <= StartTries
      && |log| <= |r.log| && r.log[..|log|] == log
      && (!r.ok ==> r.tries == StartTries)
      && (r.ok ==> |r.log| > |log| && r.log[|r.log| - 1] == Created(browser, headless, Started))
      && (!SupportedBrowser(browser) ==> !r.ok)
    decreases StartTries - failures
  {
    var last := failures + 1 == StartTries;
    var next := log + TryExchanges(w, log, browser, headless, live, last);
    if TryReply(w, log, browser, headless) == Some(Started) {
      assert TryExchanges(w, log, browser, headless, live, last) == [Created(browser, headless, Started)];
    } else if !last {
      StartFromTries(w, next, browser, headless, false, failures + 1);
      var r := StartFrom(w, next, browser, headless, false, failures + 1);
      assert r.log[..|log|] == r.log[..|next|][..|log|];
    }
  }

  /**
   * One creation per try for a supported browser, exactly one started driver when the start
   * succeeds, and a pause between tries but none after the last.
   */
  lemma {:induction false} StartFromCounts(w: World, log: seq<Exchange>, browser: string, headless: bool, live: bool, failures: nat)
    requires failures < StartTries
    ensures var r := StartFrom(w, log, browser, headless, live, failures);
      && |log| <= |r.log|
      && Count(r.log[|log|..], IsPause) == r.tries - failures - 1
      && Count(r.log[|log|..], IsCreation) == (if SupportedBrowser(browser) then r.tries - failures else 0)
      && Count(r.log[|log|..], IsStart) == (if r.ok then 1 else 0)
    decreases StartTries - failures
  {
    var last := failures + 1 == StartTries;
    var first := TryExchanges(w, log, browser, headless, live, last);
    TryCounts(w, log, browser, headless, live, last);
    if TryReply(w, log, browser, headless) != Some(Started) && !last {
      var next := log + first;
      StartFromCounts(w, next, browser, headless, false, failures + 1);
      var rest := StartFromStep(w, log, browser, headless, live, failures);
      CountAppend(first, rest, IsPause);
      CountAppend(first, rest, IsCreation);
      CountAppend(first, rest, IsStart);
    } else {
      assert (log + first)[|log|..] == first;
    }
  }

  /** A failed try that is not the last adds its exchanges and hands over to the next try. */
  lemma StartFromStep(w: World, log: seq<Exchange>, browser: string, headless: bool, live: bool, failures: nat)
    returns (rest: seq<Exchange>)
    requires failures + 1 < StartTries && TryReply(w, log, browser, headless) != Some(Started)
    ensures var first := TryExchanges(w, log, browser, headless, live, false);
      var r := StartFrom(w, log + first, browser, headless, false, failures + 1);
      && StartFrom(w, log, browser, headless, live, failures) == r
      && rest == r.log[|log + first|..]
      && r.log[|log|..] == first + rest
  {
    var first := TryExchanges(w, log, browser, headless, live, false);
    var next := log + first;
    StartFromTries(w, next, browser, headless, false, failures + 1);
    var r := StartFrom(w, next, browser, headless, false, failures + 1);
    rest := r.log[|next|..];
    assert r.log == next + rest;
  }

  // ---------------------------------------------------------------- alerts and waits

  /** The text `handle_alert` returns for a reply of the browser. */
  function AlertResult(reply: AlertReply): Option<string>
  {
    match reply
    case AlertShown(text) => Some(text)
    case AlertTimeout => None
    case NoAlertPresent => None
    case AlertFault(forced) => if forced then Some(ForcedAcceptText) else None
  }

  /** Alert text comes back only from a shown alert or a successful forced accept. */
  lemma AlertResultSpec(reply: AlertReply)
    ensures AlertResult(reply).Some? <==> reply.AlertShown? || reply == AlertFault(true)
    ensures reply.AlertShown? ==> AlertResult(reply) == Some(reply.text)
    ensures reply == AlertFault(true) ==> AlertResult(reply) == Some(ForcedAcceptText)
  {
  }

  /** Locators that may raise a dialog once present: an id naming a button. */
  predicate DialogProne(loc: Locator)
  {
    loc.strategy == ById && (Contains(Lower(loc.value), "btn") || Contains(Lower(loc.value), "button"))
  }

  /** An id with "btn" at position i (ignoring case) is dialog-prone. */
  lemma BtnAt(v: string, i: nat)
    requires i + 3 <= |v| && LowerChar(v[i]) == 'b' && LowerChar(v[i + 1]) == 't' && LowerChar(v[i + 2]) == 'n'
    ensures DialogProne(Locator(ById, v))
  {
    var l := Lower(v);
    assert l[i..i + 3] == "btn";
    ContainsAt(l, "btn", i);
  }

  /** The three buttons of the sign-in page are dialog-prone. */
  lemma SignInButtonsDialogProne()
    ensures DialogProne(Locator(ById, "generateOtpBtn"))
    ensures DialogProne(Locator(ById, "verifyOtpBtn"))
    ensures DialogProne(Locator(ById, "signInBtn"))
  {
    BtnAt("generateOtpBtn", 11);
    BtnAt("verifyOtpBtn", 9);
    BtnAt("signInBtn", 6);
  }

  /** Nothing located by name is dialog-prone. */
  lemma NamesNotDialogProne(v: string)
    ensures !DialogProne(Locator(ByName, v))
  {
  }

  /** An id without the letter b is never dialog-prone: "username", "password", "otpSection". */
  lemma NoLetterB(v: string)
    requires 'b' !in v && 'B' !in v
    ensures !DialogProne(Locator(ById, v))
  {
    var l := Lower(v);
    assert 'b' !in l by {
      forall i | 0 <= i < |l|
        ensures l[i] != 'b'
      {
        assert l[i] == LowerChar(v[i]) && v[i] != 'b' && v[i] != 'B';
      }
    }
    FirstCharMissing(l, "btn");
    FirstCharMissing(l, "button");
  }

  lemma FirstCharMissing(s: string, pat: string)
    requires |pat| > 0 && pat[0] !in s
    ensures !Contains(s, pat)
  {
    ContainsIff(s, pat);
  }

  /** Capitals do not matter to the dialog-prone test. */
  lemma DialogProneIgnoresCase(v: string)
    ensures DialogProne(Locator(ById, Upper(v))) == DialogProne(Locator(ById, v))
  {
    LowerOfUpper(v);
  }

  /** The screenshot name of a failed robust wait. */
  function FailureShot(loc: Locator): string
  {
    "element_not_found_" + ByText(loc.strategy) + "_" + loc.value + ".png"
  }

  /**
   * What `wait_for_element_robust` exchanges with a live driver: a one-second alert check, the
   * wait, then a second one-second alert check only for a dialog-prone element that was found,
   * or a screenshot when the wait failed. Without a driver nothing is exchanged.
   */
  ghost predicate RobustWait(loc: Locator, timeout: nat, live: bool, seen: seq<Exchange>, e: Option<Element>)
  {
    if !live then seen == [] && e == None
    else
      && |seen| >= 2
      && seen[0].AlertAwaited? && seen[0].timeout == 1
      && seen[1].ElementAwaited? && seen[1].loc == loc && seen[1].timeout == timeout
      && (if seen[1].reply.Found? then
            && e == Some(seen[1].reply.element)
            && (if DialogProne(loc) then |seen| == 3 && seen[2].AlertAwaited? && seen[2].timeout == 1
                else |seen| == 2)
          else e == None && seen[2..] == [Did(Screenshot(FailureShot(loc)))])
  }

  // ---------------------------------------------------------------- screenshots

  /** Python's `os.path.dirname`: the path up to its last slash, trailing slashes removed. */
  function DirName(path: string): string
  {
    var head := UpToLastSlash(path);
    if AllSlashes(head) then head else TrimSlashes(head)
  }

  function UpToLastSlash(path: string): string
    decreases |path|
  {
    if path == [] then []
    else if path[|path| - 1] == '/' then path
    else UpToLastSlash(path[..|path| - 1])
  }

  predicate AllSlashes(s: string)
  {
    forall i :: 0 <= i < |s| ==> s[i] == '/'
  }

  function TrimSlashes(s: string): string
    decreases |s|
  {
    if s != [] && s[|s| - 1] == '/' then TrimSlashes(s[..|s| - 1]) else s
  }

  lemma {:induction false} UpToLastSlashSpec(path: string)
    ensures var h := UpToLastSlash(path);
      |h| <= |path| && h == path[..|h|] && (h == [] <==> '/' !in path)
    decreases |path|
  {
    if path != [] && path[|path| - 1] != '/' {
      var p := path[..|path| - 1];
      UpToLastSlashSpec(p);
      assert '/' in path <==> '/' in p by {
        assert path == p + [path[|path| - 1]];
      }
    }
  }

  /** A file name without a slash has an empty directory part. */
  lemma DirNameEmpty(path: string)
    ensures DirName(path) == "" <==> '/' !in path
  {
    UpToLastSlashSpec(path);
    var h := UpToLastSlash(path);
    if h != [] && !AllSlashes(h) {
      TrimNonEmpty(h);
    }
  }

  lemma {:induction false} TrimNonEmpty(s: string)
    requires !AllSlashes(s)
    ensures TrimSlashes(s) != []
    decreases |s|
  {
    if s != [] && s[|s| - 1] == '/' {
      var t := s[..|s| - 1];
      assert !AllSlashes(t) by {
        var i :| 0 <= i < |s| && s[i] != '/';
        assert i < |s| - 1 && t[i] == s[i];
      }
      TrimNonEmpty(t);
    }
  }

  /**
   * `take_screenshot` as written: `os.makedirs(os.path.dirname(filename))` raises for a file
   * name without a directory, so such a name is never saved.
   */
  function ScreenshotAsWritten(filename: string, live: bool): Option<string>
  {
    if DirName(filename) == "" then None
    else if live then Some(filename)
    else None
  }

  /** The intended behaviour: create the directory only when there is one, then save. */
  function ScreenshotIntended(filename: string, live: bool): Option<string>
  {
    if live then Some(filename) else None
  }

  /**
   * Every name the core passes is a bare file name: as written none of them is ever saved,
   * while the intended behaviour saves each one.
   */
  lemma BareScreenshotsLost(filename: string)
    requires '/' !in filename
    ensures ScreenshotAsWritten(filename, true) == None
    ensures ScreenshotIntended(filename, true) == Some(filename)
  {
    DirNameEmpty(filename);
  }

  /** With a directory part the two agree. */
  lemma ScreenshotWithDirectory(filename: string, live: bool)
    requires '/' in filename
    ensures ScreenshotAsWritten(filename, live) == ScreenshotIntended(filename, live)
  {
    DirNameEmpty(filename);
  }

  // ---------------------------------------------------------------- the handler against the world

  /** A value obtained through the port, with the exchanges after obtaining it. */
  datatype Exchanged<T> = Exchanged(value: T, log: seq<Exchange>)

  /** The error `find_element` passes on when there is no driver. */
  const NoDriverFault := "'NoneType' object has no attribute 'find_element'"

  /** `navigate_to` after `log`; `live` tells whether a driver is held. */
  function VisitFrom(w: World, log: seq<Exchange>, live: bool, url: string): Exchanged<bool>
  {
    if live then Exchanged(w.visit(log, url), log + [Visited(url, w.visit(log, url))]) else Exchanged(false, log)
  }

  /** `get_current_url` after `log`. */
  function UrlFrom(w: World, log: seq<Exchange>, live: bool): Exchanged<Option<string>>
  {
    if live then Exchanged(w.url(log), log + [UrlRead(w.url(log))]) else Exchanged(None, log)
  }

  /** `find_element` after `log`. */
  function FindFrom(w: World, log: seq<Exchange>, live: bool, loc: Locator, timeout: nat): Exchanged<ElementReply>
  {
    if live then Exchanged(w.element(log, loc, timeout), log + [ElementAwaited(loc, timeout, w.element(log, loc, timeout))])
    else Exchanged(Fault(NoDriverFault), log)
  }

  /** `handle_alert` after `log`. */
  function AlertFrom(w: World, log: seq<Exchange>, live: bool, timeout: nat): Exchanged<Option<string>>
  {
    if live then Exchanged(AlertResult(w.alert(log, timeout)), log + [AlertAwaited(timeout, w.alert(log, timeout))])
    else Exchanged(None, log)
  }

  /** `take_screenshot` after `log`. */
  function ShotFrom(log: seq<Exchange>, live: bool, filename: string): Exchanged<Option<string>>
  {
    Exchanged(ScreenshotIntended(filename, live), if live then log + [Did(Screenshot(filename))] else log)
  }

  /** `wait_for_element_robust` after `log`. */
  function RobustFrom(w: World, log: seq<Exchange>, live: bool, loc: Locator, timeout: nat): Exchanged<Option<Element>>
  {
    var checked := AlertFrom(w, log, live, 1).log;
    if !live then Exchanged(None, checked)
    else
      var found := FindFrom(w, checked, live, loc, timeout);
      if found.value.Found? then
        Exchanged(Some(found.value.element), if DialogProne(loc) then AlertFrom(w, found.log, live, 1).log else found.log)
      else Exchanged(None, ShotFrom(found.log, live, FailureShot(loc)).log)
  }

  /** `stop_driver` after `log`: whether a driver is still held afterwards. */
  function StopFrom(w: World, log: seq<Exchange>, live: bool): Exchanged<bool>
  {
    if live then Exchanged(!w.quit(log), log + [Stopped(w.quit(log))]) else Exchanged(false, log)
  }

  /**
   * A robust wait has the shape `RobustWait` describes, and it finds an element exactly when a
   * driver is held and the browser shows the element once the first alert check is done.
   */
  lemma RobustFromSpec(w: World, log: seq<Exchange>, live: bool, loc: Locator, timeout: nat)
    ensures var r := RobustFrom(w, log, live, loc, timeout);
      && Extends(log, r.log)
      && RobustWait(loc, timeout, live, r.log[|log|..], r.value)
      && (r.value.Some? <==> live && w.element(log + [AlertAwaited(1, w.alert(log, 1))], loc, timeout).Found?)
  {
    var r := RobustFrom(w, log, live, loc, timeout);
    if live {
      var checked := log + [AlertAwaited(1, w.alert(log, 1))];
      var reply := w.element(checked, loc, timeout);
      var found := checked + [ElementAwaited(loc, timeout, reply)];
      assert r.log[|log|..] == [AlertAwaited(1, w.alert(log, 1)), ElementAwaited(loc, timeout, reply)] + r.log[|found|..];
    }
  }

  // ---------------------------------------------------------------- growing logs

  /** `after` is `before` with exchanges appended. */
  ghost predicate Extends(before: seq<Exchange>, after: seq<Exchange>)
  {
    before <= after
  }

  /** The exchanges `after` holds beyond the length of `before`. */
  ghost function Added(before: seq<Exchange>, after: seq<Exchange>): seq<Exchange>
  {
    if |before| <= |after| then after[|before|..] else []
  }

  lemma ExtendsTrans(a: seq<Exchange>, b: seq<Exchange>, c: seq<Exchange>)
    requires Extends(a, b) && Extends(b, c)
    ensures Extends(a, c)
  {
    assert c[..|a|] == c[..|b|][..|a|];
  }

  lemma ExtendsAppend(log: seq<Exchange>, xs: seq<Exchange>)
    ensures Extends(log, log + xs)
  {
    assert (log + xs)[..|log|] == log;
  }

  /** The last exchange of `mid`, added after `log`, stays among the exchanges added after `log`. */
  lemma KeptAfter(log: seq<Exchange>, mid: seq<Exchange>, after: seq<Exchange>)
    requires Extends(log, mid) && Extends(mid, after) && |mid| > |log|
    ensures mid[|mid| - 1] in after[|log|..]
  {
    assert after[|mid| - 1] == after[..|mid|][|mid| - 1];
    assert after[|log|..][|mid| - 1 - |log|] == after[|mid| - 1];
  }

  // ---------------------------------------------------------------- pauses

  /** `after` extends `before`, and no exchange added is a pause of `seconds`. */
  ghost predicate PauseFree(before: seq<Exchange>, after: seq<Exchange>, seconds: nat)
  {
    && Extends(before, after)
    && forall i :: |before| <= i < |after| ==> after[i] != Did(Sleep(seconds))
  }

  lemma PauseFreeTrans(a: seq<Exchange>, b: seq<Exchange>, c: seq<Exchange>, seconds: nat)
    requires PauseFree(a, b, seconds) && PauseFree(b, c, seconds)
    ensures PauseFree(a, c, seconds)
  {
    assert c[..|a|] == c[..|b|][..|a|];
    forall i | |a| <= i < |c|
      ensures c[i] != Did(Sleep(seconds))
    {
      if i < |b| {
        assert c[i] == c[..|b|][i] == b[i];
      }
    }
  }

  /** Appending exchanges that are not pauses of `seconds` keeps a log pause-free. */
  lemma PauseFreeAppend(log: seq<Exchange>, xs: seq<Exchange>, seconds: nat)
    requires forall i :: 0 <= i < |xs| ==> xs[i] != Did(Sleep(seconds))
    ensures PauseFree(log, log + xs, seconds)
  {
    assert (log + xs)[..|log|] == log;
    forall i | |log| <= i < |log + xs|
      ensures (log + xs)[i] != Did(Sleep(seconds))
    {
      assert (log + xs)[i] == xs[i - |log|];
    }
  }

  /** The handler's single requests never pause. */
  lemma HandlerPauseFree(w: World, log: seq<Exchange>, live: bool, loc: Locator, timeout: nat, url: string, seconds: nat)
    ensures PauseFree(log, VisitFrom(w, log, live, url).log, seconds)
    ensures PauseFree(log, UrlFrom(w, log, live).log, seconds)
    ensures PauseFree(log, FindFrom(w, log, live, loc, timeout).log, seconds)
    ensures PauseFree(log, AlertFrom(w, log, live, timeout).log, seconds)
    ensures PauseFree(log, ShotFrom(log, live, url).log, seconds)
    ensures PauseFree(log, StopFrom(w, log, live).log, seconds)
  {
    assert log + [] == log;
    PauseFreeAppend(log, [], seconds);
    PauseFreeAppend(log, [Visited(url, w.visit(log, url))], seconds);
    PauseFreeAppend(log, [UrlRead(w.url(log))], seconds);
    PauseFreeAppend(log, [ElementAwaited(loc, timeout, w.element(log, loc, timeout))], seconds);
    PauseFreeAppend(log, [AlertAwaited(timeout, w.alert(log, timeout))], seconds);
    PauseFreeAppend(log, [Did(Screenshot(url))], seconds);
    PauseFreeAppend(log, [Stopped(w.quit(log))], seconds);
  }

  /** A robust wait never pauses. */
  lemma RobustPauseFree(w: World, log: seq<Exchange>, live: bool, loc: Locator, timeout: nat, seconds: nat)
    ensures PauseFree(log, RobustFrom(w, log, live, loc, timeout).log, seconds)
  {
    var checked := AlertFrom(w, log, live, 1).log;
    HandlerPauseFree(w, log, live, loc, 1, "", seconds);
    if live {
      var found := FindFrom(w, checked, live, loc, timeout);
      HandlerPauseFree(w, checked, live, loc, timeout, FailureShot(loc), seconds);
      PauseFreeTrans(log, checked, found.log, seconds);
      HandlerPauseFree(w, found.log, live, loc, 1, FailureShot(loc), seconds);
      PauseFreeTrans(log, found.log, AlertFrom(w, found.log, live, 1).log, seconds);
      PauseFreeTrans(log, found.log, ShotFrom(found.log, live, FailureShot(loc)).log, seconds);
    }
  }

  /** Starting the driver pauses only for two seconds between tries. */
  lemma {:induction false} StartPauseFree(w: World, log: seq<Exchange>, browser: string, headless: bool, live: bool, failures: nat, seconds: nat)
    requires failures < StartTries && seconds != 2
    ensures PauseFree(log, StartFrom(w, log, browser, headless, live, failures).log, seconds)
    decreases StartTries - failures
  {
    var last := failures + 1 == StartTries;
    var tried := TryExchanges(w, log, browser, headless, live, last);
    PauseFreeAppend(log, tried, seconds);
    if TryReply(w, log, browser, headless) != Some(Started) && !last {
      StartPauseFree(w, log + tried, browser, headless, false, failures + 1, seconds);
      PauseFreeTrans(log, log + tried, StartFrom(w, log + tried, browser, headless, false, failures + 1).log, seconds);
    }
  }

  // ---------------------------------------------------------------- the handler

  class SeleniumHandler {
    const config: Config
    const port: Port
    /** The browser the live driver drives, if there is one. */
    var driver: Option<string>
    /** The timeout of the `WebDriverWait` kept with the driver. */
    var wait: Option<nat>

    ghost predicate Valid()
      reads this
    {
      driver.Some? ==> wait == Some(WaitTimeout)
    }

    constructor (config: Config, port: Port)
      ensures Valid()
      ensures this.config == config && this.port == port
      ensures driver == None && wait == None
    {
      this.config := config;
      this.port := port;
      driver := None;
      wait := None;
    }

    /** The lower-cased browser name `start_driver` reads from the configuration. */
    function BrowserChoice(): string
    {
      Lower(config.BrowserName())
    }

    /**
     * `start_driver`: up to three tries to create a driver for the configured browser. After a
     * failed try no driver is held; a started driver gets the 30-second wait.
     */
    method StartDriver() returns (ok: bool)
      requires Valid()
      modifies this, port
      ensures Valid()
      ensures var r := StartFrom(port.world, old(port.log), BrowserChoice(), config.Headless(), old(driver).Some?, 0);
        ok == r.ok && port.log == r.log
      ensures ok ==> driver == Some(BrowserChoice()) && wait == Some(WaitTimeout)
      ensures !ok ==> driver == None && wait == old(wait)
    {
      var browser := BrowserChoice();
      var headless := config.Headless();
      ghost var whole := StartFrom(port.world, port.log, browser, headless, driver.Some?, 0);
      var retry: nat := 0;
      while retry < StartTries
        invariant retry <= StartTries
        invariant retry < StartTries ==> StartFrom(port.world, port.log, browser, headless, driver.Some?, retry) == whole
        invariant retry == StartTries ==> !whole.ok && port.log == whole.log
        invariant retry > 0 ==> driver == None
        invariant wait == old(wait)
        invariant retry == 0 ==> driver == old(driver)
        decreases StartTries - retry
      {
        StartFromUnfold(port.world, port.log, browser, headless, driver.Some?, retry);
        var started := TryStart(browser, headless, retry + 1 == StartTries);
        if started {
          return true;
        }
        retry := retry + 1;
      }
      return false;
    }

    /**
     * One try of `start_driver`: create the driver (an unsupported browser fails without one),
     * and after a failure quit a driver still held and pause unless this is the last try.
     */
    method TryStart(browser: string, headless: bool, last: bool) returns (started: bool)
      requires Valid()
      modifies this, port
      ensures Valid()
      ensures started == (TryReply(port.world, old(port.log), browser, headless) == Some(Started))
      ensures port.log == old(port.log) + TryExchanges(port.world, old(port.log), browser, headless, old(driver).Some?, last)
      ensures started ==> driver == Some(browser) && wait == Some(WaitTimeout)
      ensures !started ==> driver == None && wait == old(wait)
    {
      ghost var log0 := port.log;
      ghost var live := driver.Some?;
      var created: Option<CreateReply> := None;
      if SupportedBrowser(browser) {
        var reply := port.Create(browser, headless);
        created := Some(reply);
        if reply == Started {
          driver := Some(browser);
        } else if reply == ReturnedNone {
          driver := None;
        }
      }
      ghost var made := port.log[|log0|..];
      assert port.log == log0 + made;
      if created == Some(Started) {
        wait := Some(WaitTimeout);
        return true;
      }
      ghost var quit: seq<Exchange> := [];
      if driver.Some? {
        port.Do(Quit);
        quit := [Did(Quit)];
        driver := None;
      }
      ghost var pause: seq<Exchange> := [];
      if !last {
        port.Do(Sleep(2));
        pause := [Did(Sleep(2))];
      }
      assert port.log == log0 + (made + (quit + pause));
      return false;
    }

    /**
     * `stop_driver`: quits a live driver and forgets it and its wait. When `quit()` raises, the
     * error is only logged and the driver and its wait are kept.
     */
    method StopDriver()
      requires Valid()
      modifies this, port
      ensures Valid()
      ensures Exchanged(driver.Some?, port.log) == StopFrom(port.world, old(port.log), old(driver).Some?)
      ensures driver.None? ==> wait == (if old(driver).Some? then None else old(wait))
      ensures driver.Some? ==> driver == old(driver) && wait == old(wait)
    {
      if driver.Some? {
        var quit := port.Quit();
        if quit {
          driver := None;
          wait := None;
        }
      }
    }

    /** `navigate_to`: false without a driver, else whether the page loaded. */
    method NavigateTo(url: string) returns (ok: bool)
      modifies port
      ensures driver.None? ==> !ok && port.log == old(port.log)
      ensures driver.Some? ==>
        ok == port.world.visit(old(port.log), url) && port.log == old(port.log) + [Visited(url, ok)]
      ensures Exchanged(ok, port.log) == VisitFrom(port.world, old(port.log), driver.Some?, url)
    {
      if driver.None? {
        return false;
      }
      ok := port.Visit(url);
    }

    /** `get_current_url`: None without a driver or when reading it fails. */
    method GetCurrentUrl() returns (url: Option<string>)
      modifies port
      ensures driver.None? ==> url == None && port.log == old(port.log)
      ensures driver.Some? ==> url == port.world.url(old(port.log)) && port.log == old(port.log) + [UrlRead(url)]
      ensures Exchanged(url, port.log) == UrlFrom(port.world, old(port.log), driver.Some?)
    {
      if driver.None? {
        return None;
      }
      url := port.ReadUrl();
    }

    /**
     * `find_element`: only a timeout is turned into "not found"; any other failure, including
     * a missing driver, is passed on to the caller as a fault.
     */
    method FindElement(loc: Locator, timeout: nat) returns (reply: ElementReply)
      modifies port
      ensures driver.None? ==> reply.Fault? && port.log == old(port.log)
      ensures driver.Some? ==>
        reply == port.world.element(old(port.log), loc, timeout)
        && port.log == old(port.log) + [ElementAwaited(loc, timeout, reply)]
      ensures Exchanged(reply, port.log) == FindFrom(port.world, old(port.log), driver.Some?, loc, timeout)
    {
      if driver.None? {
        return Fault(NoDriverFault);
      }
      reply := port.AwaitElement(loc, timeout);
    }

    /** `handle_alert(accept=True)`: the alert's text, the forced-accept notice, or None. */
    method HandleAlert(timeout: nat) returns (text: Option<string>)
      modifies port
      ensures driver.None? ==> text == None && port.log == old(port.log)
      ensures driver.Some? ==>
        var reply := port.world.alert(old(port.log), timeout);
        text == AlertResult(reply) && port.log == old(port.log) + [AlertAwaited(timeout, reply)]
      ensures Exchanged(text, port.log) == AlertFrom(port.world, old(port.log), driver.Some?, timeout)
    {
      if driver.None? {
        return None;
      }
      var reply := port.AwaitAlert(timeout);
      text := AlertResult(reply);
    }

    /** `handle_possible_alerts`: one alert check whose outcome is only logged. */
    method HandlePossibleAlerts(timeout: nat)
      modifies port
      ensures driver.None? ==> port.log == old(port.log)
      ensures driver.Some? ==>
        port.log == old(port.log) + [AlertAwaited(timeout, port.world.alert(old(port.log), timeout))]
      ensures port.log == AlertFrom(port.world, old(port.log), driver.Some?, timeout).log
    {
      var _ := HandleAlert(timeout);
    }

    /**
     * `take_screenshot` with the directory created only when the name has one (see
     * `ScreenshotAsWritten` for the code as written).
     */
    method TakeScreenshot(filename: string) returns (saved: Option<string>)
      modifies port
      ensures saved == ScreenshotIntended(filename, driver.Some?)
      ensures driver.Some? ==> port.log == old(port.log) + [Did(Screenshot(filename))]
      ensures driver.None? ==> port.log == old(port.log)
      ensures Exchanged(saved, port.log) == ShotFrom(old(port.log), driver.Some?, filename)
    {
      if driver.None? {
        return None;
      }
      port.Do(Screenshot(filename));
      return Some(filename);
    }

    /**
     * `wait_for_element_robust`: the element if it appears within `timeout`, else None, with the
     * exchanges `RobustWait` describes.
     */
    method WaitForElementRobust(loc: Locator, timeout: nat) returns (e: Option<Element>)
      modifies port
      ensures Exchanged(e, port.log) == RobustFrom(port.world, old(port.log), driver.Some?, loc, timeout)
      ensures |old(port.log)| <= |port.log| && port.log[..|old(port.log)|] == old(port.log)
      ensures RobustWait(loc, timeout, driver.Some?, port.log[|old(port.log)|..], e)
    {
      RobustFromSpec(port.world, port.log, driver.Some?, loc, timeout);
      HandlePossibleAlerts(1);
      if driver.None? {
        return None;
      }
      var reply := port.AwaitElement(loc, timeout);
      if reply.Found? {
        if DialogProne(loc) {
          HandlePossibleAlerts(1);
        }
        e := Some(reply.element);
      } else {
        var _ := TakeScreenshot(FailureShot(loc));
        e := None;
      }
    }
  }
}
