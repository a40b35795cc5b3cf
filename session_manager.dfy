/**
 * automation/session_manager.py: the sign-in state machine. Its flags `loggedIn` and
 * `otpRequired` move according to what the browser reports: URLs, alert texts, the presence
 * of elements and status texts.
 */
module Session {
  import opened Wrappers
  import opened Strings
  import opened Settings
  import opened Browser
  import opened Selenium

  const BaseUrl := "https://kpcl-ams.com"
  const LoginUrl := BaseUrl + "/signin_page.php"
  const DashboardUrl := BaseUrl + "/user/dashboard.php"
  const GatepassUrl := BaseUrl + "/user/gatepass.php"
  const LogoutUrl := BaseUrl + "/logout.php"

  const OtpSentMessage := "OTP sent. Please enter OTP to continue."
  /** The text of the `TypeError` raised when `send_keys` is given `None`. */
  const NoneKeysError := "'NoneType' object is not iterable"
  /** Rounds of the one-second wait for the redirect after OTP verification. */
  const RedirectPolls: nat := 10

  const UsernameField := Locator(ById, "username")
  const PasswordField := Locator(ById, "password")
  const GenerateOtpButton := Locator(ById, "generateOtpBtn")
  const OtpSection := Locator(ById, "otpSection")
  const OtpStatus := Locator(ById, "otpStatus")
  const OtpField := Locator(ById, "otp_code")
  const VerifyOtpButton := Locator(ById, "verifyOtpBtn")
  const SignInButton := Locator(ById, "signInBtn")

  // ---------------------------------------------------------------- URL and alert tests

  /** A URL that shows the session is not usable yet: a sign-in, login or data page. */
  predicate LoginLike(url: Option<string>)
  {
    url.Some? && (Contains(url.value, "signin") || Contains(url.value, "login") || Contains(url.value, "data"))
  }

  /** A URL after loading the dashboard that shows a redirect to sign in. */
  predicate SentToSignIn(url: Option<string>)
  {
    url.Some? && (Contains(url.value, "signin") || Contains(url.value, "login"))
  }

  /** A URL inside the signed-in area. */
  predicate SignedInArea(url: Option<string>)
  {
    url.Some? && (Contains(url.value, "dashboard") || Contains(url.value, "user"))
  }

  /** A URL read that still shows the sign-in page. */
  predicate OnSignInPage(url: Option<string>)
  {
    url.Some? && Contains(url.value, "signin")
  }

  /** A URL read that shows the gatepass page. */
  predicate ShowsGatepass(url: Option<string>)
  {
    url.Some? && Contains(url.value, "gatepass")
  }

  /** An alert saying the session is invalid, in any capitalisation. */
  predicate InvalidSessionAlert(text: Option<string>)
  {
    text.Some? && Contains(Lower(text.value), "invalid session")
  }

  /** A redirect to sign in is also a login-like page. */
  lemma SentToSignInIsLoginLike(url: Option<string>)
    ensures SentToSignIn(url) ==> LoginLike(url)
  {
  }

  /** The invalid-session test ignores capitalisation. */
  lemma InvalidSessionIgnoresCase(text: string)
    ensures InvalidSessionAlert(Some(Upper(text))) == InvalidSessionAlert(Some(text))
  {
    LowerOfUpper(text);
  }

  /** What `check_session_valid` concludes from the URL before and after loading the dashboard and the alert. */
  datatype SessionCheck = SessionCheck(valid: bool, signsOut: bool)

  function CheckVerdict(first: Option<string>, second: Option<string>, alert: Option<string>): SessionCheck
  {
    if LoginLike(first) then SessionCheck(false, false)
    else if SentToSignIn(second) then SessionCheck(false, true)
    else if InvalidSessionAlert(alert) then SessionCheck(false, true)
    else SessionCheck(true, false)
  }

  /**
   * A valid session never signs out; being on a login-like page already fails without touching
   * `logged_in`; a redirect to sign in or an invalid-session alert fails and signs out.
   */
  lemma CheckVerdictSpec(first: Option<string>, second: Option<string>, alert: Option<string>)
    ensures var v := CheckVerdict(first, second, alert);
      && (v.valid ==> !v.signsOut)
      && (LoginLike(first) ==> !v.valid && !v.signsOut)
      && (!LoginLike(first) && (SentToSignIn(second) || InvalidSessionAlert(alert)) ==> !v.valid && v.signsOut)
      && (v.valid <==> !LoginLike(first) && !SentToSignIn(second) && !InvalidSessionAlert(alert))
  {
  }

  // ---------------------------------------------------------------- verdicts of login and OTP

  /** Why `login` stops before it clicks the Generate OTP button. */
  datatype LoginStop = NoBrowser | NoLoginPage | NoUsernameField | NoPasswordField | NoOtpButton | MissingCredential

  /** The message `login` returns for each stop. */
  function StopMessage(stop: LoginStop): string
  {
    match stop
    case NoBrowser => "Failed to start browser session"
    case NoLoginPage => "Failed to navigate to login page"
    case NoUsernameField => "Username field not found"
    case NoPasswordField => "Password field not found"
    case NoOtpButton => "Generate OTP button not found"
    case MissingCredential => "Login error: " + NoneKeysError
  }

  /** The messages with which `login` stops before it clicks the Generate OTP button. */
  const LoginStops := [StopMessage(NoBrowser), StopMessage(NoLoginPage), StopMessage(NoUsernameField),
                       StopMessage(NoPasswordField), StopMessage(NoOtpButton), StopMessage(MissingCredential)]

  /** `LoginStops` lists every stop message, and none of them is the OTP-sent message. */
  lemma StopMessageSpec(stop: LoginStop)
    ensures StopMessage(stop) in LoginStops
    ensures StopMessage(stop) != OtpSentMessage
  {
    if stop == MissingCredential {
      assert StopMessage(stop)[0] == 'L';
    }
  }

  /** How `login` ends once the Generate OTP button was clicked. */
  function LoginVerdict(section: Option<Element>, status: ElementReply): (bool, string)
  {
    if section.Some? && section.value.displayed then (true, OtpSentMessage)
    else match status
      case Found(e) =>
        if e.text != "" then (false, "Login failed: " + e.text)
        else (false, "Failed to generate OTP. Please check credentials.")
      case TimedOut => (false, "Failed to generate OTP. Please check credentials.")
      case Fault(error) => (false, "Login error: " + error)
  }

  /** Login succeeds exactly when the OTP section is shown; a status text becomes the failure reason. */
  lemma LoginVerdictSpec(section: Option<Element>, status: ElementReply)
    ensures LoginVerdict(section, status).0 <==> section.Some? && section.value.displayed
    ensures LoginVerdict(section, status).0 <==> LoginVerdict(section, status).1 == OtpSentMessage
    ensures !(section.Some? && section.value.displayed) && status.Found? && status.element.text != "" ==>
      LoginVerdict(section, status).1 == "Login failed: " + status.element.text
  {
    if !(section.Some? && section.value.displayed) {
      match status
      case Found(e) =>
        if e.text != "" {
          assert ("Login failed: " + e.text)[0] == 'L';
        }
      case TimedOut =>
      case Fault(error) =>
        assert ("Login error: " + error)[0] == 'L';
    }
  }

  /** How `verify_otp` ends when it falls back to the OTP status element. */
  function StatusVerdict(status: Option<Element>): (bool, string)
  {
    if status.None? then (true, "OTP verification completed")
    else
      var text := Lower(status.value.text);
      if Contains(text, "verified successfully") then (true, "OTP verified successfully")
      else if Contains(text, "invalid") || Contains(text, "expired") then (false, "OTP verification failed: " + status.value.text)
      else (true, "OTP verification completed")
  }

  /**
   * "verified successfully" wins over "invalid" and "expired"; only those two words fail the
   * verification; capitals do not matter.
   */
  lemma StatusVerdictSpec(e: Element)
    ensures Contains(Lower(e.text), "verified successfully") ==> StatusVerdict(Some(e)) == (true, "OTP verified successfully")
    ensures !StatusVerdict(Some(e)).0 <==>
      !Contains(Lower(e.text), "verified successfully")
      && (Contains(Lower(e.text), "invalid") || Contains(Lower(e.text), "expired"))
    ensures StatusVerdict(Some(e.(text := Upper(e.text)))).0 == StatusVerdict(Some(e)).0
  {
    LowerOfUpper(e.text);
  }

  /** A rejected OTP status reports the status text after a fixed prefix. */
  lemma StatusRejection(text: string)
    ensures IsPrefix("OTP verification failed: ", "OTP verification failed: " + text)
  {
    assert ("OTP verification failed: " + text)[..25] == "OTP verification failed: ";
  }

  // ---------------------------------------------------------------- the redirect poll

  predicate IsUrlRead(x: Exchange) { x.UrlRead? }

  /** The poll after clicking Verify OTP: read the URL, stop in the signed-in area, else wait a second. */
  function PollFrom(w: World, log: seq<Exchange>, waited: nat): seq<Exchange>
    decreases RedirectPolls - waited
  {
    if waited >= RedirectPolls then []
    else
      var url := w.url(log);
      if SignedInArea(url) then [UrlRead(url)]
      else [UrlRead(url), Did(Sleep(1))] + PollFrom(w, log + [UrlRead(url), Did(Sleep(1))], waited + 1)
  }

  /** The poll reads the URL at most ten times and waits a second at most ten times. */
  lemma {:induction false} PollBounded(w: World, log: seq<Exchange>, waited: nat)
    requires waited <= RedirectPolls
    ensures Count(PollFrom(w, log, waited), IsUrlRead) <= RedirectPolls - waited
    ensures Count(PollFrom(w, log, waited), IsPause) <= RedirectPolls - waited
    ensures |PollFrom(w, log, waited)| <= 2 * (RedirectPolls - waited)
    decreases RedirectPolls - waited
  {
    if waited < RedirectPolls {
      var url := w.url(log);
      CountOne(UrlRead(url), IsUrlRead);
      CountOne(UrlRead(url), IsPause);
      if !SignedInArea(url) {
        var two := [UrlRead(url), Did(Sleep(1))];
        var rest := PollFrom(w, log + two, waited + 1);
        PollBounded(w, log + two, waited + 1);
        CountOne(Did(Sleep(1)), IsUrlRead);
        CountOne(Did(Sleep(1)), IsPause);
        CountAppend([UrlRead(url)], [Did(Sleep(1))], IsUrlRead);
        CountAppend([UrlRead(url)], [Did(Sleep(1))], IsPause);
        assert [UrlRead(url)] + [Did(Sleep(1))] == two;
        CountAppend(two, rest, IsUrlRead);
        CountAppend(two, rest, IsPause);
        assert PollFrom(w, log, waited) == two + rest;
      }
    }
  }

  /** Outside the signed-in area the poll waits a second and reads again. */
  lemma PollStep(w: World, log: seq<Exchange>, waited: nat)
    requires waited < RedirectPolls && !SignedInArea(w.url(log))
    ensures var two := [UrlRead(w.url(log)), Did(Sleep(1))];
      log + PollFrom(w, log, waited) == (log + two) + PollFrom(w, log + two, waited + 1)
  {
  }

  /** Reaching the signed-in area ends the poll at once: no wait follows that reading. */
  lemma PollStopsOnArrival(w: World, log: seq<Exchange>, waited: nat)
    requires waited < RedirectPolls && SignedInArea(w.url(log))
    ensures PollFrom(w, log, waited) == [UrlRead(w.url(log))]
  {
  }

  // ---------------------------------------------------------------- the session against the world

  /** What the session's operations change: whether a driver is held, the two flags, the exchanges. */
  datatype State = State(live: bool, loggedIn: bool, otpRequired: bool, log: seq<Exchange>)

  /** A value a session operation computes, with the state after it. */
  datatype After<T> = After(value: T, state: State)

  /** The URL a log records at position `i`, if it records a URL reading there. */
  function UrlAt(xs: seq<Exchange>, i: nat): Option<string>
  {
    if i < |xs| && xs[i].UrlRead? then xs[i].current else None
  }

  /** The text `handle_alert` gave for the alert check a log records at position `i`, if any. */
  function AlertAt(xs: seq<Exchange>, i: nat): Option<string>
  {
    if i < |xs| && xs[i].AlertAwaited? then AlertResult(xs[i].alert) else None
  }

  /** `check_session_valid` from state `s`. */
  function CheckRun(w: World, s: State): After<bool>
  {
    if !s.live then After(false, s)
    else
      var first := UrlFrom(w, s.log, true);
      var shot := first.log + [Did(Screenshot("current_url.png"))];
      if LoginLike(first.value) then After(false, s.(log := shot))
      else
        var loaded := VisitFrom(w, shot, true, DashboardUrl).log + [Did(Sleep(2)), Did(Screenshot("session_check.png"))];
        var second := UrlFrom(w, loaded, true);
        if SentToSignIn(second.value) then After(false, s.(loggedIn := false, log := second.log))
        else
          var alert := AlertFrom(w, second.log, true, 10);
          if InvalidSessionAlert(alert.value) then After(false, s.(loggedIn := false, log := alert.log))
          else After(true, s.(log := alert.log))
  }

  /**
   * The session check decides by `CheckVerdict` on the readings it records, in order: the URL
   * read first, the URL read after loading the dashboard, the alert text. It signs the session
   * out exactly when that verdict says so and changes nothing else; a valid verdict comes only
   * after the dashboard was requested.
   */
  lemma CheckRunSpec(w: World, s: State)
    ensures var r := CheckRun(w, s); var xs := Added(s.log, r.state.log);
      && Extends(s.log, r.state.log)
      && r.state.live == s.live && r.state.otpRequired == s.otpRequired
      && (!s.live ==> r == After(false, s))
      && (s.live ==>
            && |xs| >= 2 && xs[0] == UrlRead(w.url(s.log))
            && var v := CheckVerdict(UrlAt(xs, 0), UrlAt(xs, 5), AlertAt(xs, 6));
               && r.value == v.valid
               && r.state.loggedIn == (if v.signsOut then false else s.loggedIn)
               && (r.value ==> |xs| == 7 && xs[2].Visited? && xs[2].url == DashboardUrl))
  {
    if s.live {
      CheckRunSteps(w, s);
      CheckRunVerdict(w, s);
    }
  }

  /** The exchanges a live session check adds, up to the reading after the dashboard or all seven. */
  lemma CheckRunSteps(w: World, s: State)
    requires s.live
    ensures var r := CheckRun(w, s); var xs := Added(s.log, r.state.log);
      && Extends(s.log, r.state.log)
      && r.state.live == s.live && r.state.otpRequired == s.otpRequired
      && |xs| >= 2 && xs[0] == UrlRead(w.url(s.log))
      && (r.value ==> |xs| == 7 && xs[2].Visited? && xs[2].url == DashboardUrl)
  {
    var r := CheckRun(w, s);
    var first := UrlFrom(w, s.log, true);
    var shot := first.log + [Did(Screenshot("current_url.png"))];
    if !LoginLike(first.value) {
      var visit := VisitFrom(w, shot, true, DashboardUrl);
      var loaded := visit.log + [Did(Sleep(2)), Did(Screenshot("session_check.png"))];
      var second := UrlFrom(w, loaded, true);
      assert second.log == s.log + [UrlRead(first.value), Did(Screenshot("current_url.png")), visit.log[|shot|],
                                    Did(Sleep(2)), Did(Screenshot("session_check.png")), UrlRead(second.value)];
      if !SentToSignIn(second.value) {
        var alert := AlertFrom(w, second.log, true, 10);
        assert Added(s.log, alert.log) == [UrlRead(first.value), Did(Screenshot("current_url.png")), visit.log[|shot|],
                                           Did(Sleep(2)), Did(Screenshot("session_check.png")), UrlRead(second.value),
                                           AlertAwaited(10, w.alert(second.log, 10))];
      }
    }
  }

  /** A live session check's verdict and sign-out follow `CheckVerdict` on the readings it records. */
  lemma CheckRunVerdict(w: World, s: State)
    requires s.live
    ensures var r := CheckRun(w, s); var xs := Added(s.log, r.state.log);
      var v := CheckVerdict(UrlAt(xs, 0), UrlAt(xs, 5), AlertAt(xs, 6));
      && r.value == v.valid
      && r.state.loggedIn == (if v.signsOut then false else s.loggedIn)
  {
    var r := CheckRun(w, s);
    var first := UrlFrom(w, s.log, true);
    var shot := first.log + [Did(Screenshot("current_url.png"))];
    if LoginLike(first.value) {
      assert Added(s.log, r.state.log) == [UrlRead(first.value), Did(Screenshot("current_url.png"))];
    } else {
      var visit := VisitFrom(w, shot, true, DashboardUrl);
      var loaded := visit.log + [Did(Sleep(2)), Did(Screenshot("session_check.png"))];
      var second := UrlFrom(w, loaded, true);
      var added := [UrlRead(first.value), Did(Screenshot("current_url.png")), visit.log[|shot|],
                    Did(Sleep(2)), Did(Screenshot("session_check.png")), UrlRead(second.value)];
      assert second.log == s.log + added;
      if SentToSignIn(second.value) {
        assert Added(s.log, r.state.log) == added;
      } else {
        var alert := AlertFrom(w, second.log, true, 10);
        assert Added(s.log, alert.log) == added + [AlertAwaited(10, w.alert(second.log, 10))];
      }
    }
  }

  /** `start_session` from state `s`, starting `browser`, headless or not. */
  function StartRun(w: World, browser: string, headless: bool, s: State): After<bool>
  {
    var started := StartFrom(w, s.log, browser, headless, s.live, 0);
    if !started.ok then After(false, s.(live := false, log := started.log))
    else
      var cookies := w.cookies(started.log);
      var ready := s.(live := true, log := started.log + [CookiesLoaded(cookies)]);
      if cookies.CookieFault? then After(false, ready)
      else if cookies == NoCookieFile then After(true, ready)
      else
        var check := CheckRun(w, ready);
        After(true, if check.value then check.state.(loggedIn := true, otpRequired := false) else check.state)
  }

  /**
   * A driver is held afterwards exactly when it started; the session starts when, in addition,
   * loading the cookies did not raise. Only restored cookies that pass the session check sign
   * the session in, and then no OTP is pending; a failed start keeps both flags.
   */
  lemma StartRunSpec(w: World, browser: string, headless: bool, s: State)
    ensures var r := StartRun(w, browser, headless, s);
      var d := StartFrom(w, s.log, browser, headless, s.live, 0);
      && Extends(s.log, r.state.log)
      && r.state.live == d.ok
      && (r.value <==> d.ok && !w.cookies(d.log).CookieFault?)
      && (r.state.loggedIn && !s.loggedIn ==>
            r.value && !r.state.otpRequired && CookiesLoaded(Restored) in r.state.log[|s.log|..])
      && (r.state.otpRequired ==> s.otpRequired)
      && (!r.value ==> r.state.loggedIn == s.loggedIn && r.state.otpRequired == s.otpRequired)
  {
    var d := StartFrom(w, s.log, browser, headless, s.live, 0);
    StartFromTries(w, s.log, browser, headless, s.live, 0);
    var r := StartRun(w, browser, headless, s);
    if d.ok {
      var cookies := w.cookies(d.log);
      var ready := s.(live := true, log := d.log + [CookiesLoaded(cookies)]);
      assert Extends(s.log, ready.log);
      if cookies == Restored {
        var check := CheckRun(w, ready);
        CheckRunSpec(w, ready);
        assert r.state.log == check.state.log;
        ExtendsTrans(s.log, ready.log, r.state.log);
        assert r.state.log[|s.log|..][|d.log| - |s.log|] == CookiesLoaded(Restored);
      } else {
        assert r.state == ready;
      }
    } else {
      assert r.state == s.(live := false, log := d.log);
    }
  }

  /** One credential of `login`: wait for its field, clear it and type into it; the stop it causes, if any. */
  function FieldRun(w: World, log: seq<Exchange>, live: bool, field: Locator, timeout: nat, text: Option<string>, missing: LoginStop)
    : Exchanged<Option<LoginStop>>
  {
    var found := RobustFrom(w, log, live, field, timeout);
    if found.value.None? then Exchanged(Some(missing), found.log)
    else if text.None? then Exchanged(Some(MissingCredential), found.log + [Did(Clear(field))])
    else Exchanged(None, found.log + [Did(Clear(field)), Did(Type(field, text.value))])
  }

  /** `login` from loading the sign-in page to clicking Generate OTP: None once clicked, else the stop. */
  function CredentialsRun(w: World, log: seq<Exchange>, live: bool, user: Option<string>, pass: Option<string>)
    : Exchanged<Option<LoginStop>>
  {
    var page := VisitFrom(w, log, live, LoginUrl);
    if !page.value then Exchanged(Some(NoLoginPage), page.log)
    else
      var checked := AlertFrom(w, page.log, live, 3).log;
      var name := FieldRun(w, checked, live, UsernameField, 15, user, NoUsernameField);
      if name.value.Some? then name
      else SecretRun(w, name.log, live, pass)
  }

  /** The password and the Generate OTP button, once the user name was typed. */
  function SecretRun(w: World, log: seq<Exchange>, live: bool, pass: Option<string>): Exchanged<Option<LoginStop>>
  {
    var secret := FieldRun(w, log, live, PasswordField, 10, pass, NoPasswordField);
    if secret.value.Some? then secret
    else
      var button := RobustFrom(w, secret.log, live, GenerateOtpButton, 15);
      if button.value.None? then Exchanged(Some(NoOtpButton), button.log)
      else Exchanged(None, button.log + [Did(Click(GenerateOtpButton))])
  }

  /**
   * A credential step stops at a missing field, with its failure screenshot last, or at a
   * missing credential; going through ends with the typing of the credential.
   */
  lemma FieldRunSpec(w: World, log: seq<Exchange>, live: bool, field: Locator, timeout: nat, text: Option<string>, missing: LoginStop)
    ensures var r := FieldRun(w, log, live, field, timeout, text, missing);
      && Extends(log, r.log)
      && (r.value == Some(missing) || r.value == Some(MissingCredential) || r.value == None)
      && (r.value.None? ==> live && text.Some? && |r.log| > |log| && r.log[|r.log| - 1] == Did(Type(field, text.value)))
      && (r.value == Some(missing) && missing != MissingCredential && live ==>
            |r.log| > |log| && r.log[|r.log| - 1] == Did(Screenshot(FailureShot(field))))
      && (r.value == Some(MissingCredential) && missing != MissingCredential ==> text.None?)
  {
    RobustFromSpec(w, log, live, field, timeout);
    var found := RobustFrom(w, log, live, field, timeout);
    if found.value.Some? {
      var tail := if text.None? then [Did(Clear(field))] else [Did(Clear(field)), Did(Type(field, text.value))];
      ExtendsAppend(found.log, tail);
      ExtendsTrans(log, found.log, found.log + tail);
    }
  }

  /**
   * The second half of the sign-in page stops at the password field, at a missing password or at
   * the Generate OTP button, each wait failure with its screenshot last; going through types the
   * password and clicks Generate OTP last.
   */
  lemma SecretRunSpec(w: World, log: seq<Exchange>, live: bool, pass: Option<string>)
    ensures var r := SecretRun(w, log, live, pass);
      && Extends(log, r.log)
      && (r.value == None || r.value == Some(NoPasswordField) || r.value == Some(MissingCredential) || r.value == Some(NoOtpButton))
      && (r.value == Some(MissingCredential) ==> pass.None?)
      && (live && r.value == Some(NoPasswordField) ==>
            |r.log| > |log| && r.log[|r.log| - 1] == Did(Screenshot(FailureShot(PasswordField))))
      && (live && r.value == Some(NoOtpButton) ==>
            |r.log| > |log| && r.log[|r.log| - 1] == Did(Screenshot(FailureShot(GenerateOtpButton))))
      && (r.value.None? ==>
            && live && pass.Some? && |r.log| > |log| && r.log[|r.log| - 1] == Did(Click(GenerateOtpButton))
            && Did(Type(PasswordField, pass.value)) in r.log[|log|..])
  {
    var secret := FieldRun(w, log, live, PasswordField, 10, pass, NoPasswordField);
    FieldRunSpec(w, log, live, PasswordField, 10, pass, NoPasswordField);
    if secret.value.Some? {
      return;
    }
    var button := RobustFrom(w, secret.log, live, GenerateOtpButton, 15);
    RobustFromSpec(w, secret.log, live, GenerateOtpButton, 15);
    ExtendsTrans(log, secret.log, button.log);
    if button.value.Some? {
      var r := button.log + [Did(Click(GenerateOtpButton))];
      ExtendsAppend(button.log, [Did(Click(GenerateOtpButton))]);
      ExtendsTrans(secret.log, button.log, r);
      KeptAfter(log, secret.log, r);
    }
  }

  /**
   * Each stop of `login` before the OTP request names the step that failed: the sign-in page
   * did not load, a wait failed (its failure screenshot is the last exchange), or a credential
   * is missing. A start failure is never among them.
   */
  lemma CredentialsRunSpec(w: World, log: seq<Exchange>, live: bool, user: Option<string>, pass: Option<string>)
    ensures var r := CredentialsRun(w, log, live, user, pass);
      && Extends(log, r.log)
      && r.value != Some(NoBrowser)
      && (!live || !w.visit(log, LoginUrl) ==> r.value == Some(NoLoginPage))
      && (r.value == Some(MissingCredential) ==> user.None? || pass.None?)
      && (r.value == Some(NoUsernameField) ==>
            |r.log| > |log| && r.log[|r.log| - 1] == Did(Screenshot(FailureShot(UsernameField))))
      && (r.value == Some(NoPasswordField) ==>
            |r.log| > |log| && r.log[|r.log| - 1] == Did(Screenshot(FailureShot(PasswordField))))
      && (r.value == Some(NoOtpButton) ==>
            |r.log| > |log| && r.log[|r.log| - 1] == Did(Screenshot(FailureShot(GenerateOtpButton))))
  {
    var page := VisitFrom(w, log, live, LoginUrl);
    if !page.value {
      return;
    }
    var checked := AlertFrom(w, page.log, live, 3).log;
    assert Extends(log, checked);
    var name := FieldRun(w, checked, live, UsernameField, 15, user, NoUsernameField);
    FieldRunSpec(w, checked, live, UsernameField, 15, user, NoUsernameField);
    ExtendsTrans(log, checked, name.log);
    if name.value.None? {
      SecretRunSpec(w, name.log, live, pass);
      ExtendsTrans(log, name.log, SecretRun(w, name.log, live, pass).log);
    }
  }

  /** Going through the sign-in page means both credentials were typed and Generate OTP was clicked last. */
  lemma CredentialsRunThrough(w: World, log: seq<Exchange>, live: bool, user: Option<string>, pass: Option<string>)
    ensures var r := CredentialsRun(w, log, live, user, pass);
      r.value.None? ==>
        && live && user.Some? && pass.Some?
        && Extends(log, r.log) && |r.log| > |log| && r.log[|r.log| - 1] == Did(Click(GenerateOtpButton))
        && Did(Type(UsernameField, user.value)) in r.log[|log|..] && Did(Type(PasswordField, pass.value)) in r.log[|log|..]
  {
    var page := VisitFrom(w, log, live, LoginUrl);
    if !page.value {
      return;
    }
    var checked := AlertFrom(w, page.log, live, 3).log;
    assert Extends(log, checked);
    var name := FieldRun(w, checked, live, UsernameField, 15, user, NoUsernameField);
    if name.value.Some? {
      return;
    }
    FieldRunSpec(w, checked, live, UsernameField, 15, user, NoUsernameField);
    ExtendsTrans(log, checked, name.log);
    var r := SecretRun(w, name.log, live, pass);
    SecretRunSpec(w, name.log, live, pass);
    if r.value.None? {
      ExtendsTrans(log, name.log, r.log);
      KeptAfter(log, name.log, r.log);
      AddedLater(log, name.log, r.log, Did(Type(PasswordField, pass.value)));
    }
  }

  /** The end of `login`: the OTP section within 45 seconds, else the OTP status element. */
  function AwaitOtpRun(w: World, log: seq<Exchange>, live: bool): Exchanged<(bool, string)>
  {
    var checked := AlertFrom(w, log, live, 10).log;
    var section := RobustFrom(w, checked, live, OtpSection, 45);
    if section.value.Some? && section.value.value.displayed then Exchanged((true, OtpSentMessage), section.log)
    else
      var status := FindFrom(w, section.log, live, OtpStatus, 10);
      Exchanged(LoginVerdict(section.value, status.value), status.log)
  }

  /**
   * The OTP request succeeds exactly when the OTP section, the third exchange, is found
   * displayed; otherwise the verdict is `LoginVerdict` of the OTP status lookup, the last
   * exchange (a fault without a driver).
   */
  lemma AwaitOtpRunSpec(w: World, log: seq<Exchange>, live: bool)
    ensures var r := AwaitOtpRun(w, log, live); var xs := Added(log, r.log);
      && Extends(log, r.log)
      && (r.value.0 <==> r.value.1 == OtpSentMessage)
      && (live ==>
            && |xs| >= 3 && xs[2].ElementAwaited? && xs[2].loc == OtpSection && xs[2].timeout == 45
            && (r.value.0 <==> xs[2].reply.Found? && xs[2].reply.element.displayed))
      && (live && !r.value.0 ==>
            && |r.log| > |log| && r.log[|r.log| - 1].ElementAwaited?
            && r.log[|r.log| - 1].loc == OtpStatus && r.log[|r.log| - 1].timeout == 10
            && r.value == LoginVerdict(None, r.log[|r.log| - 1].reply))
      && (!live ==> r.value == LoginVerdict(None, Fault(NoDriverFault)))
  {
    var checked := AlertFrom(w, log, live, 10).log;
    var section := RobustFrom(w, checked, live, OtpSection, 45);
    RobustFromSpec(w, checked, live, OtpSection, 45);
    LoginVerdictSpec(section.value, FindFrom(w, section.log, live, OtpStatus, 10).value);
    assert Extends(log, checked);
    ExtendsTrans(log, checked, section.log);
    if live {
      assert section.log[|log|..][1..] == section.log[|checked|..];
      var status := FindFrom(w, section.log, live, OtpStatus, 10);
      ExtendsAppend(section.log, [ElementAwaited(OtpStatus, 10, status.value)]);
      ExtendsTrans(log, section.log, status.log);
      assert status.log[|log|..][..|section.log| - |log|] == section.log[|log|..];
    }
  }

  /** The session held in `s`, else `start_session`, as `login` and the form filler begin. */
  function StartIfNeeded(w: World, browser: string, headless: bool, s: State): After<bool>
  {
    if s.live then After(true, s) else StartRun(w, browser, headless, s)
  }

  /** `login` from state `s`; the session is started first when no driver is held. */
  function LoginRun(w: World, browser: string, headless: bool, s: State, user: Option<string>, pass: Option<string>)
    : After<(bool, string)>
  {
    var started := StartIfNeeded(w, browser, headless, s);
    if !started.value then After((false, StopMessage(NoBrowser)), started.state)
    else RequestOtp(w, started.state, user, pass)
  }

  /** `login` once a session is started: enter the credentials, then wait for the OTP section. */
  function RequestOtp(w: World, ready: State, user: Option<string>, pass: Option<string>): After<(bool, string)>
  {
    var entered := CredentialsRun(w, ready.log, ready.live, user, pass);
    if entered.value.Some? then After((false, StopMessage(entered.value.value)), ready.(log := entered.log))
    else
      var otp := AwaitOtpRun(w, entered.log, ready.live);
      After(otp.value, ready.(otpRequired := otp.value.0 || ready.otpRequired, log := otp.log))
  }

  /**
   * After the start, the OTP request changes only the OTP flag and the exchanges: it sets the
   * flag exactly on success, which needs both credentials; a message outside `LoginStops`
   * comes after the Generate OTP click.
   */
  lemma RequestOtpSpec(w: World, ready: State, user: Option<string>, pass: Option<string>)
    ensures var r := RequestOtp(w, ready, user, pass); var xs := Added(ready.log, r.state.log);
      && Extends(ready.log, r.state.log)
      && r.state.live == ready.live && r.state.loggedIn == ready.loggedIn
      && r.state.otpRequired == (r.value.0 || ready.otpRequired)
      && (r.value.0 <==> r.value.1 == OtpSentMessage)
      && (r.value.0 ==> ready.live && user.Some? && pass.Some?)
      && (r.value.1 !in LoginStops ==> Did(Click(GenerateOtpButton)) in xs)
  {
    var entered := CredentialsRun(w, ready.log, ready.live, user, pass);
    CredentialsRunSpec(w, ready.log, ready.live, user, pass);
    if entered.value.Some? {
      StopMessageSpec(entered.value.value);
      return;
    }
    CredentialsRunThrough(w, ready.log, ready.live, user, pass);
    var otp := AwaitOtpRun(w, entered.log, ready.live);
    AwaitOtpRunSpec(w, entered.log, ready.live);
    ExtendsTrans(ready.log, entered.log, otp.log);
    KeptAfter(ready.log, entered.log, otp.log);
  }

  /**
   * `login` succeeds exactly with the OTP-sent message; then an OTP is pending, a driver is held,
   * and both credentials were given. A failure never sets the OTP flag. With a driver already
   * held the driver and the sign-in flag are kept and a failure keeps the OTP flag. A message
   * outside `LoginStops`, the success message among them, comes after the Generate OTP click.
   */
  lemma LoginRunSpec(w: World, browser: string, headless: bool, s: State, user: Option<string>, pass: Option<string>)
    ensures var r := LoginRun(w, browser, headless, s, user, pass);
      && Extends(s.log, r.state.log)
      && (r.value.0 <==> r.value.1 == OtpSentMessage)
      && (r.value.0 ==> r.state.otpRequired && r.state.live && user.Some? && pass.Some?)
      && (!r.value.0 ==> (r.state.otpRequired ==> s.otpRequired))
      && (s.live ==> r.state.live && r.state.loggedIn == s.loggedIn && (!r.value.0 ==> r.state.otpRequired == s.otpRequired))
      && (!s.live && !StartRun(w, browser, headless, s).value ==> r.value == (false, StopMessage(NoBrowser)))
      && (r.value.1 !in LoginStops ==> Did(Click(GenerateOtpButton)) in r.state.log[|s.log|..])
  {
    var started := StartIfNeeded(w, browser, headless, s);
    StartRunSpec(w, browser, headless, s);
    StopMessageSpec(NoBrowser);
    if started.value {
      RequestOtpSpec(w, started.state, user, pass);
      var r := RequestOtp(w, started.state, user, pass);
      ExtendsTrans(s.log, started.state.log, r.state.log);
      if r.value.1 !in LoginStops {
        AddedLater(s.log, started.state.log, r.state.log, Did(Click(GenerateOtpButton)));
      }
    }
  }

  /** Why `verify_otp` stops before the code is submitted. */
  datatype OtpStop = NoOtpField | NoVerifyButton

  /** The message `verify_otp` returns for each stop. */
  function OtpStopMessage(stop: OtpStop): string
  {
    match stop
    case NoOtpField => "OTP field not found"
    case NoVerifyButton => "Verify OTP button not found"
  }

  /** The part of `verify_otp` that types the code and clicks Verify OTP: None once clicked, else the stop. */
  function SubmitOtpRun(w: World, log: seq<Exchange>, live: bool, otp: string): Exchanged<Option<OtpStop>>
  {
    var field := RobustFrom(w, log, live, OtpField, 30);
    if field.value.None? then Exchanged(Some(NoOtpField), field.log)
    else
      var typed := AlertFrom(w, field.log + [Did(Clear(OtpField)), Did(Type(OtpField, otp))], live, 5).log;
      var button := RobustFrom(w, typed, live, VerifyOtpButton, 30);
      if button.value.None? then Exchanged(Some(NoVerifyButton), button.log)
      else Exchanged(None, AlertFrom(w, button.log + [Did(Click(VerifyOtpButton))], live, 15).log)
  }

  /** Past the OTP field the code was typed; going through means Verify OTP was clicked with a driver held. */
  lemma SubmitOtpRunSpec(w: World, log: seq<Exchange>, live: bool, otp: string)
    ensures var r := SubmitOtpRun(w, log, live, otp);
      && Extends(log, r.log)
      && (r.value != Some(NoOtpField) ==> live && Did(Type(OtpField, otp)) in r.log[|log|..])
      && (r.value.None? ==> Did(Click(VerifyOtpButton)) in r.log[|log|..])
  {
    var field := RobustFrom(w, log, live, OtpField, 30);
    RobustFromSpec(w, log, live, OtpField, 30);
    if field.value.Some? {
      var entered := field.log + [Did(Clear(OtpField)), Did(Type(OtpField, otp))];
      var typed := AlertFrom(w, entered, live, 5).log;
      ExtendsAppend(field.log, [Did(Clear(OtpField)), Did(Type(OtpField, otp))]);
      ExtendsTrans(log, field.log, entered);
      assert Extends(entered, typed);
      var button := RobustFrom(w, typed, live, VerifyOtpButton, 30);
      RobustFromSpec(w, typed, live, VerifyOtpButton, 30);
      ExtendsTrans(entered, typed, button.log);
      ExtendsTrans(log, entered, button.log);
      KeptAfter(log, entered, button.log);
      if button.value.Some? {
        var clicked := button.log + [Did(Click(VerifyOtpButton))];
        var r := SubmitOtpRun(w, log, live, otp);
        ExtendsAppend(button.log, [Did(Click(VerifyOtpButton))]);
        assert Extends(clicked, r.log);
        ExtendsTrans(entered, button.log, clicked);
        ExtendsTrans(entered, clicked, r.log);
        ExtendsTrans(log, entered, r.log);
        KeptAfter(log, entered, r.log);
        ExtendsTrans(log, button.log, clicked);
        KeptAfter(log, clicked, r.log);
      }
    }
  }

  /** The Sign In step of `verify_otp` while still on the sign-in page: whether it reached the signed-in area. */
  function ConfirmRun(w: World, log: seq<Exchange>, live: bool): Exchanged<bool>
  {
    var button := RobustFrom(w, log, live, SignInButton, 15);
    if button.value.None? || !button.value.value.displayed then Exchanged(false, button.log)
    else
      var clicked := AlertFrom(w, button.log + [Did(Click(SignInButton))], live, 10).log + [Did(Sleep(5))];
      var url := UrlFrom(w, clicked, live);
      Exchanged(SignedInArea(url.value), url.log)
  }

  /** The Sign In step succeeds only by clicking Sign In and then reading a URL of the signed-in area last. */
  lemma ConfirmRunSpec(w: World, log: seq<Exchange>, live: bool)
    ensures var r := ConfirmRun(w, log, live);
      && Extends(log, r.log)
      && (r.value ==>
            && live && |r.log| > |log| && r.log[|r.log| - 1].UrlRead? && SignedInArea(r.log[|r.log| - 1].current)
            && Did(Click(SignInButton)) in r.log[|log|..])
  {
    var button := RobustFrom(w, log, live, SignInButton, 15);
    RobustFromSpec(w, log, live, SignInButton, 15);
    if button.value.Some? && button.value.value.displayed {
      var pressed := button.log + [Did(Click(SignInButton))];
      var r := ConfirmRun(w, log, live);
      ExtendsAppend(button.log, [Did(Click(SignInButton))]);
      ExtendsTrans(log, button.log, pressed);
      assert Extends(pressed, r.log);
      ExtendsTrans(log, pressed, r.log);
      KeptAfter(log, pressed, r.log);
    }
  }

  /** `verify_otp` from state `s`. */
  function VerifyRun(w: World, s: State, otp: string): After<(bool, string)>
  {
    if !s.otpRequired then After((false, "OTP not required"), s)
    else
      var submitted := SubmitOtpRun(w, s.log, s.live, otp);
      if submitted.value.Some? then After((false, OtpStopMessage(submitted.value.value)), s.(log := submitted.log))
      else Landing(w, s.(log := submitted.log))
  }

  /**
   * `after` adds to `before` and ends either with saving the cookies or with reading a URL of the
   * signed-in area: the two ways `verify_otp` confirms a sign-in.
   */
  ghost predicate ConfirmedLast(before: seq<Exchange>, after: seq<Exchange>)
  {
    |after| > |before|
    && (after[|after| - 1] == Did(SaveCookies)
        || (after[|after| - 1].UrlRead? && SignedInArea(after[|after| - 1].current)))
  }

  /**
   * The rest of `verify_otp` once the code was submitted: the redirect poll and the URL reading,
   * then `Fallback` outside the signed-in area.
   */
  function Landing(w: World, s: State): After<(bool, string)>
  {
    var landed := UrlFrom(w, s.log + PollFrom(w, s.log, 0), s.live);
    if SignedInArea(landed.value) then
      After((true, "Login successful"), s.(loggedIn := true, otpRequired := false, log := landed.log))
    else Fallback(w, s.(log := landed.log), OnSignInPage(landed.value))
  }

  /** The Sign In step while the URL read still shows the sign-in page, then the OTP status as the last resort. */
  function Fallback(w: World, s: State, onSignIn: bool): After<(bool, string)>
  {
    var confirmed :=
      if onSignIn then ConfirmRun(w, s.log, s.live)
      else Exchanged(false, s.log);
    if confirmed.value then
      After((true, "Login successful"), s.(loggedIn := true, otpRequired := false, log := confirmed.log + [Did(SaveCookies)]))
    else StatusRun(w, s.(log := confirmed.log))
  }

  /** The last resort of `verify_otp`: the OTP status element and its verdict; a success saves the cookies. */
  function StatusRun(w: World, s: State): After<(bool, string)>
  {
    var status := RobustFrom(w, s.log, s.live, OtpStatus, 10);
    var verdict := StatusVerdict(status.value);
    if verdict.0 then
      After(verdict, s.(loggedIn := true, otpRequired := false, log := status.log + [Did(SaveCookies)]))
    else After(verdict, s.(log := status.log))
  }

  /**
   * A success by the OTP status signs the session in, clears the OTP flag and ends with saving
   * the cookies; a failure is a status text the verdict rejects and changes neither flag.
   */
  lemma StatusRunSpec(w: World, s: State)
    ensures var r := StatusRun(w, s); var ok := r.value.0;
      && Extends(s.log, r.state.log) && r.state.live == s.live
      && (ok ==> r.state.loggedIn && !r.state.otpRequired)
      && (!ok ==> r.state == s.(log := r.state.log))
      && (ok ==> |r.state.log| > |s.log| && r.state.log[|r.state.log| - 1] == Did(SaveCookies))
      && (!ok ==> IsPrefix("OTP verification failed: ", r.value.1))
  {
    var status := RobustFrom(w, s.log, s.live, OtpStatus, 10);
    RobustFromSpec(w, s.log, s.live, OtpStatus, 10);
    if StatusVerdict(status.value).0 {
      ExtendsAppend(status.log, [Did(SaveCookies)]);
      ExtendsTrans(s.log, status.log, status.log + [Did(SaveCookies)]);
    } else {
      StatusRejection(status.value.value.text);
    }
  }

  /**
   * A success signs the session in, clears the OTP flag and ends with saving the cookies; a
   * failure is a status text the verdict rejects and changes neither flag.
   */
  lemma FallbackSpec(w: World, s: State, onSignIn: bool)
    ensures var r := Fallback(w, s, onSignIn); var ok := r.value.0;
      && Extends(s.log, r.state.log) && r.state.live == s.live
      && (ok ==> r.state.loggedIn && !r.state.otpRequired)
      && (!ok ==> r.state.loggedIn == s.loggedIn && r.state.otpRequired == s.otpRequired)
      && (ok ==> |r.state.log| > |s.log| && r.state.log[|r.state.log| - 1] == Did(SaveCookies))
      && (!ok ==> IsPrefix("OTP verification failed: ", r.value.1))
  {
    var confirmed := if onSignIn then ConfirmRun(w, s.log, s.live) else Exchanged(false, s.log);
    ConfirmRunSpec(w, s.log, s.live);
    var r := Fallback(w, s, onSignIn);
    if confirmed.value {
      var saved := confirmed.log + [Did(SaveCookies)];
      assert r == After((true, "Login successful"), s.(loggedIn := true, otpRequired := false, log := saved));
      ExtendsAppend(confirmed.log, [Did(SaveCookies)]);
      ExtendsTrans(s.log, confirmed.log, saved);
    } else {
      assert r == StatusRun(w, s.(log := confirmed.log));
      StatusRunSpec(w, s.(log := confirmed.log));
      ExtendsTrans(s.log, confirmed.log, r.state.log);
    }
  }

  /**
   * After the submission, a success signs the session in, clears the OTP flag and ends with a
   * URL of the signed-in area or with saving the cookies; a failure is a status text the verdict
   * rejects and changes neither flag.
   */
  lemma LandingSpec(w: World, s: State)
    ensures var r := Landing(w, s); var ok := r.value.0;
      && Extends(s.log, r.state.log) && r.state.live == s.live
      && (ok ==> r.state.loggedIn && !r.state.otpRequired)
      && (!ok ==> r.state.loggedIn == s.loggedIn && r.state.otpRequired == s.otpRequired)
      && (ok ==> ConfirmedLast(s.log, r.state.log))
      && (!ok ==> IsPrefix("OTP verification failed: ", r.value.1))
  {
    var polled := s.log + PollFrom(w, s.log, 0);
    ExtendsAppend(s.log, PollFrom(w, s.log, 0));
    var landed := UrlFrom(w, polled, s.live);
    assert Extends(polled, landed.log);
    ExtendsTrans(s.log, polled, landed.log);
    if !SignedInArea(landed.value) {
      FallbackSpec(w, s.(log := landed.log), OnSignInPage(landed.value));
      ExtendsTrans(s.log, landed.log, Landing(w, s).state.log);
    }
  }

  /**
   * `verify_otp` signs the session in exactly when it succeeds, and then no OTP is pending; a
   * failure keeps both flags. Without a pending OTP nothing is exchanged. A success either read a
   * URL of the signed-in area last or saved the cookies last; once past the OTP field the code
   * was typed; a failure is a missing field or button, or a status text the verdict rejects.
   */
  lemma VerifyRunSpec(w: World, s: State, otp: string)
    ensures var r := VerifyRun(w, s, otp); var ok := r.value.0; var message := r.value.1;
      && Extends(s.log, r.state.log) && r.state.live == s.live
      && (!s.otpRequired ==> r == After((false, "OTP not required"), s))
      && (ok ==> r.state.loggedIn && !r.state.otpRequired)
      && (!ok ==> r.state.loggedIn == s.loggedIn && r.state.otpRequired == s.otpRequired)
      && (ok ==> ConfirmedLast(s.log, r.state.log))
      && (s.otpRequired ==> message == OtpStopMessage(NoOtpField) || Did(Type(OtpField, otp)) in r.state.log[|s.log|..])
      && (!ok && s.otpRequired ==>
            message == OtpStopMessage(NoOtpField) || message == OtpStopMessage(NoVerifyButton)
            || IsPrefix("OTP verification failed: ", message))
  {
    if s.otpRequired {
      var r := VerifyRun(w, s, otp);
      var submitted := SubmitOtpRun(w, s.log, s.live, otp);
      SubmitOtpRunSpec(w, s.log, s.live, otp);
      if submitted.value.None? {
        var sub := submitted.log;
        LandingSpec(w, s.(log := sub));
        ExtendsTrans(s.log, sub, r.state.log);
        TypedKept(s.log, sub, r.state.log, Did(Type(OtpField, otp)));
      }
    }
  }

  /** An exchange added after `mid`, which extends `log`, is also added after `log`. */
  lemma AddedLater(log: seq<Exchange>, mid: seq<Exchange>, after: seq<Exchange>, x: Exchange)
    requires Extends(log, mid) && Extends(mid, after) && x in after[|mid|..]
    ensures x in after[|log|..]
  {
    var k :| 0 <= k < |after[|mid|..]| && after[|mid|..][k] == x;
    assert after[|log|..][|mid| - |log| + k] == x;
  }

  /** An exchange added between `log` and `mid` stays among the exchanges added after `log`. */
  lemma TypedKept(log: seq<Exchange>, mid: seq<Exchange>, after: seq<Exchange>, x: Exchange)
    requires Extends(log, mid) && Extends(mid, after) && x in mid[|log|..]
    ensures x in after[|log|..]
  {
    var k :| 0 <= k < |mid[|log|..]| && mid[|log|..][k] == x;
    assert after[|log| + k] == after[..|mid|][|log| + k] == mid[|log| + k];
    assert after[|log|..][k] == x;
  }

  /** `navigate_to_gatepass` from state `s`. */
  function GatepassRun(w: World, s: State): After<bool>
  {
    var check := CheckRun(w, s);
    if !check.value then After(false, check.state)
    else GatepassPage(w, check.state)
  }

  /** `navigate_to_gatepass` once the session was found valid: load the page, check for alerts, read the URL. */
  function GatepassPage(w: World, s: State): After<bool>
  {
    var page := VisitFrom(w, s.log, s.live, GatepassUrl);
    if !page.value then After(false, s.(log := page.log))
    else
      var alert := AlertFrom(w, page.log + [Did(Sleep(3))], s.live, 10);
      if InvalidSessionAlert(alert.value) then After(false, s.(loggedIn := false, log := alert.log))
      else
        var url := UrlFrom(w, alert.log, s.live);
        After(ShowsGatepass(url.value), s.(log := url.log))
  }

  /**
   * `log` was reached by a successful load of the gatepass page after `before`, then an alert
   * check without an invalid-session text, then a last reading of a URL containing "gatepass".
   */
  ghost predicate OnGatepass(before: seq<Exchange>, log: seq<Exchange>)
  {
    && Visited(GatepassUrl, true) in Added(before, log)
    && |log| >= |before| + 2 && !InvalidSessionAlert(AlertAt(log, |log| - 2))
    && ShowsGatepass(UrlAt(log, |log| - 1))
  }

  /**
   * After a valid session check, the gatepass page is reached exactly as `OnGatepass` says; the
   * step can only sign the session out, and keeps the driver and the OTP flag.
   */
  lemma GatepassPageSpec(w: World, s: State)
    ensures var r := GatepassPage(w, s);
      && Extends(s.log, r.state.log)
      && r.state.live == s.live && r.state.otpRequired == s.otpRequired
      && (r.state.loggedIn ==> s.loggedIn)
      && (r.value ==> OnGatepass(s.log, r.state.log))
  {
    var r := GatepassPage(w, s);
    var page := VisitFrom(w, s.log, s.live, GatepassUrl);
    if page.value {
      var alert := AlertFrom(w, page.log + [Did(Sleep(3))], s.live, 10);
      var tail := [Visited(GatepassUrl, true), Did(Sleep(3)), AlertAwaited(10, w.alert(page.log + [Did(Sleep(3))], 10))];
      assert alert.log == s.log + tail;
      if !InvalidSessionAlert(alert.value) {
        var url := w.url(alert.log);
        assert r.state.log == s.log + tail + [UrlRead(url)];
        assert Added(s.log, r.state.log) == tail + [UrlRead(url)];
      }
    } else {
      assert Extends(s.log, page.log);
    }
  }

  /**
   * The gatepass page is reached only after a valid session check and as `OnGatepass` says. It
   * can only sign the session out, and keeps the driver and the OTP flag.
   */
  lemma GatepassRunSpec(w: World, s: State)
    ensures var r := GatepassRun(w, s);
      && Extends(s.log, r.state.log)
      && r.state.live == s.live && r.state.otpRequired == s.otpRequired
      && (r.state.loggedIn ==> s.loggedIn)
      && (r.value ==> CheckRun(w, s).value && OnGatepass(s.log, r.state.log))
  {
    var check := CheckRun(w, s);
    CheckRunSpec(w, s);
    if check.value {
      var r := GatepassPage(w, check.state);
      GatepassPageSpec(w, check.state);
      ExtendsTrans(s.log, check.state.log, r.state.log);
      if r.value {
        AddedLater(s.log, check.state.log, r.state.log, Visited(GatepassUrl, true));
      }
    }
  }

  // ---------------------------------------------------------------- pauses of the session steps

  /** The session check pauses only for two seconds. */
  lemma CheckRunPauseFree(w: World, s: State, seconds: nat)
    requires seconds != 2
    ensures PauseFree(s.log, CheckRun(w, s).state.log, seconds)
  {
    if !s.live {
      PauseFreeAppend(s.log, [], seconds);
      assert s.log + [] == s.log;
      return;
    }
    var first := UrlFrom(w, s.log, true);
    var shot := first.log + [Did(Screenshot("current_url.png"))];
    PauseFreeAppend(s.log, [UrlRead(first.value), Did(Screenshot("current_url.png"))], seconds);
    if !LoginLike(first.value) {
      DashboardPauseFree(w, shot, seconds);
      var loaded := VisitFrom(w, shot, true, DashboardUrl).log + [Did(Sleep(2)), Did(Screenshot("session_check.png"))];
      var second := UrlFrom(w, loaded, true);
      PauseFreeTrans(s.log, shot, second.log, seconds);
      PauseFreeTrans(s.log, shot, AlertFrom(w, second.log, true, 10).log, seconds);
    }
  }

  /** The dashboard part of the session check pauses only for two seconds. */
  lemma DashboardPauseFree(w: World, shot: seq<Exchange>, seconds: nat)
    requires seconds != 2
    ensures var loaded := VisitFrom(w, shot, true, DashboardUrl).log + [Did(Sleep(2)), Did(Screenshot("session_check.png"))];
      var second := UrlFrom(w, loaded, true);
      PauseFree(shot, second.log, seconds) && PauseFree(shot, AlertFrom(w, second.log, true, 10).log, seconds)
  {
    var visited := Visited(DashboardUrl, w.visit(shot, DashboardUrl));
    var loaded := shot + [visited, Did(Sleep(2)), Did(Screenshot("session_check.png"))];
    var read := [visited, Did(Sleep(2)), Did(Screenshot("session_check.png")), UrlRead(w.url(loaded))];
    PauseFreeAppend(shot, read, seconds);
    var alerted := read + [AlertAwaited(10, w.alert(shot + read, 10))];
    PauseFreeAppend(shot, alerted, seconds);
    assert shot + alerted == shot + read + [AlertAwaited(10, w.alert(shot + read, 10))];
  }

  /** Starting a session pauses only for two seconds, between tries and in the session check. */
  lemma StartRunPauseFree(w: World, browser: string, headless: bool, s: State, seconds: nat)
    requires seconds != 2
    ensures PauseFree(s.log, StartRun(w, browser, headless, s).state.log, seconds)
  {
    var d := StartFrom(w, s.log, browser, headless, s.live, 0);
    StartPauseFree(w, s.log, browser, headless, s.live, 0, seconds);
    if d.ok {
      var cookies := w.cookies(d.log);
      var ready := s.(live := true, log := d.log + [CookiesLoaded(cookies)]);
      PauseFreeAppend(d.log, [CookiesLoaded(cookies)], seconds);
      PauseFreeTrans(s.log, d.log, ready.log, seconds);
      if cookies == Restored {
        CheckRunPauseFree(w, ready, seconds);
        PauseFreeTrans(s.log, ready.log, CheckRun(w, ready).state.log, seconds);
      }
    }
  }

  /** A credential step never pauses. */
  lemma FieldRunPauseFree(w: World, log: seq<Exchange>, live: bool, field: Locator, timeout: nat, text: Option<string>,
                          missing: LoginStop, seconds: nat)
    ensures PauseFree(log, FieldRun(w, log, live, field, timeout, text, missing).log, seconds)
  {
    var found := RobustFrom(w, log, live, field, timeout);
    RobustPauseFree(w, log, live, field, timeout, seconds);
    if found.value.Some? {
      PauseFreeAppend(found.log, [Did(Clear(field))], seconds);
      PauseFreeTrans(log, found.log, found.log + [Did(Clear(field))], seconds);
      if text.Some? {
        PauseFreeAppend(found.log, [Did(Clear(field)), Did(Type(field, text.value))], seconds);
        PauseFreeTrans(log, found.log, found.log + [Did(Clear(field)), Did(Type(field, text.value))], seconds);
      }
    }
  }

  /** Entering the credentials and clicking Generate OTP never pauses. */
  lemma CredentialsRunPauseFree(w: World, log: seq<Exchange>, live: bool, user: Option<string>, pass: Option<string>, seconds: nat)
    ensures PauseFree(log, CredentialsRun(w, log, live, user, pass).log, seconds)
  {
    var page := VisitFrom(w, log, live, LoginUrl);
    HandlerPauseFree(w, log, live, UsernameField, 3, LoginUrl, seconds);
    if page.value {
      var checked := AlertFrom(w, page.log, live, 3).log;
      HandlerPauseFree(w, page.log, live, UsernameField, 3, LoginUrl, seconds);
      PauseFreeTrans(log, page.log, checked, seconds);
      var name := FieldRun(w, checked, live, UsernameField, 15, user, NoUsernameField);
      FieldRunPauseFree(w, checked, live, UsernameField, 15, user, NoUsernameField, seconds);
      PauseFreeTrans(log, checked, name.log, seconds);
      if name.value.None? {
        SecretRunPauseFree(w, name.log, live, pass, seconds);
        PauseFreeTrans(log, name.log, SecretRun(w, name.log, live, pass).log, seconds);
      }
    }
  }

  lemma SecretRunPauseFree(w: World, log: seq<Exchange>, live: bool, pass: Option<string>, seconds: nat)
    ensures PauseFree(log, SecretRun(w, log, live, pass).log, seconds)
  {
    var secret := FieldRun(w, log, live, PasswordField, 10, pass, NoPasswordField);
    FieldRunPauseFree(w, log, live, PasswordField, 10, pass, NoPasswordField, seconds);
    if secret.value.None? {
      var button := RobustFrom(w, secret.log, live, GenerateOtpButton, 15);
      RobustPauseFree(w, secret.log, live, GenerateOtpButton, 15, seconds);
      PauseFreeTrans(log, secret.log, button.log, seconds);
      PauseFreeAppend(button.log, [Did(Click(GenerateOtpButton))], seconds);
      PauseFreeTrans(log, button.log, button.log + [Did(Click(GenerateOtpButton))], seconds);
    }
  }

  /** Waiting for the OTP section never pauses. */
  lemma AwaitOtpRunPauseFree(w: World, log: seq<Exchange>, live: bool, seconds: nat)
    ensures PauseFree(log, AwaitOtpRun(w, log, live).log, seconds)
  {
    var checked := AlertFrom(w, log, live, 10).log;
    HandlerPauseFree(w, log, live, OtpStatus, 10, "", seconds);
    var section := RobustFrom(w, checked, live, OtpSection, 45);
    RobustPauseFree(w, checked, live, OtpSection, 45, seconds);
    PauseFreeTrans(log, checked, section.log, seconds);
    HandlerPauseFree(w, section.log, live, OtpStatus, 10, "", seconds);
    PauseFreeTrans(log, section.log, FindFrom(w, section.log, live, OtpStatus, 10).log, seconds);
  }

  /** `login` pauses only for two seconds, when it has to start the session first. */
  lemma LoginRunPauseFree(w: World, browser: string, headless: bool, s: State, user: Option<string>, pass: Option<string>, seconds: nat)
    requires seconds != 2
    ensures PauseFree(s.log, LoginRun(w, browser, headless, s, user, pass).state.log, seconds)
  {
    var started := StartIfNeeded(w, browser, headless, s);
    if s.live {
      PauseFreeAppend(s.log, [], seconds);
      assert s.log + [] == s.log;
    } else {
      StartRunPauseFree(w, browser, headless, s, seconds);
    }
    if started.value {
      var ready := started.state;
      var entered := CredentialsRun(w, ready.log, ready.live, user, pass);
      CredentialsRunPauseFree(w, ready.log, ready.live, user, pass, seconds);
      PauseFreeTrans(s.log, ready.log, entered.log, seconds);
      if entered.value.None? {
        AwaitOtpRunPauseFree(w, entered.log, ready.live, seconds);
        PauseFreeTrans(s.log, entered.log, AwaitOtpRun(w, entered.log, ready.live).log, seconds);
      }
    }
  }

  /** Reaching the gatepass page pauses only for two seconds in the check and three after loading it. */
  lemma GatepassRunPauseFree(w: World, s: State, seconds: nat)
    requires seconds != 2 && seconds != 3
    ensures PauseFree(s.log, GatepassRun(w, s).state.log, seconds)
  {
    var check := CheckRun(w, s);
    CheckRunPauseFree(w, s, seconds);
    if check.value {
      var t := check.state;
      var page := VisitFrom(w, t.log, t.live, GatepassUrl);
      HandlerPauseFree(w, t.log, t.live, UsernameField, 10, GatepassUrl, seconds);
      PauseFreeTrans(s.log, t.log, page.log, seconds);
      if page.value {
        var paused := page.log + [Did(Sleep(3))];
        PauseFreeAppend(page.log, [Did(Sleep(3))], seconds);
        PauseFreeTrans(s.log, page.log, paused, seconds);
        var alert := AlertFrom(w, paused, t.live, 10);
        HandlerPauseFree(w, paused, t.live, UsernameField, 10, GatepassUrl, seconds);
        PauseFreeTrans(s.log, paused, alert.log, seconds);
        HandlerPauseFree(w, alert.log, t.live, UsernameField, 10, GatepassUrl, seconds);
        PauseFreeTrans(s.log, alert.log, UrlFrom(w, alert.log, t.live).log, seconds);
      }
    }
  }

  /** How the reload of the gatepass page in `refresh_session` ends. */
  datatype Reloaded = Refreshed | Expired | OffGatepass

  /** The message `refresh_session` gives for each end of the reload. */
  function ReloadMessage(o: Reloaded): string
  {
    match o
    case Refreshed => "Session refreshed successfully"
    case Expired => "Session expired"
    case OffGatepass => "Failed to refresh session"
  }

  /** The success message and the expiry message each name exactly one end of the reload. */
  lemma ReloadMessageSpec(o: Reloaded)
    ensures ReloadMessage(o) == "Session refreshed successfully" <==> o == Refreshed
    ensures ReloadMessage(o) == "Session expired" <==> o == Expired
  {
    assert "Session refreshed successfully" == "Session " + "refreshed successfully";
    assert "Session refreshed successfully"[0] != "Failed to refresh session"[0];
    assert "Session refreshed successfully"[8] != "Session expired"[8];
    assert "Session expired"[0] != "Failed to refresh session"[0];
  }

  /** The reload of the gatepass page: load it, check for an alert, read the URL. */
  function ReloadStep(w: World, s: State): After<Reloaded>
  {
    var page := VisitFrom(w, s.log, s.live, GatepassUrl).log + [Did(Sleep(3))];
    var alert := AlertFrom(w, page, s.live, 10);
    if InvalidSessionAlert(alert.value) then After(Expired, s.(log := alert.log))
    else
      var url := UrlFrom(w, alert.log, s.live);
      After(if ShowsGatepass(url.value) then Refreshed else OffGatepass, s.(log := url.log))
  }

  /** The part of `refresh_session` after the session check or re-login: reload the gatepass page. */
  function ReloadRun(w: World, s: State): After<(bool, string)>
  {
    var o := ReloadStep(w, s);
    After((o.value == Refreshed, ReloadMessage(o.value)), o.state)
  }

  /**
   * The reload changes only the exchanges; it refreshes only with a last URL reading showing the
   * gatepass page, and it expires exactly when the last exchange is an alert check with an
   * invalid-session text.
   */
  lemma ReloadStepSpec(w: World, s: State)
    ensures var r := ReloadStep(w, s);
      && Extends(s.log, r.state.log) && r.state == s.(log := r.state.log)
      && (r.value == Refreshed ==>
            |r.state.log| > |s.log| && r.state.log[|r.state.log| - 1].UrlRead? && ShowsGatepass(r.state.log[|r.state.log| - 1].current))
      && (r.value == Expired <==>
            |r.state.log| > |s.log| && r.state.log[|r.state.log| - 1].AlertAwaited? && InvalidSessionAlert(AlertResult(r.state.log[|r.state.log| - 1].alert)))
  {
    var page := VisitFrom(w, s.log, s.live, GatepassUrl).log + [Did(Sleep(3))];
    assert Extends(s.log, page);
    var alert := AlertFrom(w, page, s.live, 10);
    assert Extends(page, alert.log);
    ExtendsTrans(s.log, page, alert.log);
    var url := UrlFrom(w, alert.log, s.live);
    assert Extends(alert.log, url.log);
    ExtendsTrans(s.log, alert.log, url.log);
  }

  /**
   * The reload changes only the exchanges. It succeeds exactly with its success message, and
   * then the last exchange is a URL reading containing "gatepass"; it reports an expired session
   * exactly when the last exchange is an alert check with an invalid-session text.
   */
  lemma ReloadRunSpec(w: World, s: State)
    ensures var r := ReloadRun(w, s);
      && Extends(s.log, r.state.log) && r.state == s.(log := r.state.log)
      && (r.value.0 <==> r.value.1 == "Session refreshed successfully")
      && (r.value.0 ==>
            |r.state.log| > |s.log| && r.state.log[|r.state.log| - 1].UrlRead? && ShowsGatepass(r.state.log[|r.state.log| - 1].current))
      && (r.value.1 == "Session expired" <==>
            |r.state.log| > |s.log| && r.state.log[|r.state.log| - 1].AlertAwaited? && InvalidSessionAlert(AlertResult(r.state.log[|r.state.log| - 1].alert)))
  {
    ReloadStepSpec(w, s);
    ReloadMessageSpec(ReloadStep(w, s).value);
  }

  /** `refresh_session` from state `s`, re-signing in with `user` and `pass` when the check fails. */
  function RefreshRun(w: World, browser: string, headless: bool, s: State, user: Option<string>, pass: Option<string>)
    : After<(bool, string)>
  {
    var check := CheckRun(w, s);
    if check.value then ReloadRun(w, check.state)
    else Relogin(w, browser, headless, check.state, user, pass)
  }

  /** `refresh_session` after a failed session check: sign in again, then reload only when no OTP is pending. */
  function Relogin(w: World, browser: string, headless: bool, s: State, user: Option<string>, pass: Option<string>)
    : After<(bool, string)>
  {
    var login := LoginRun(w, browser, headless, s, user, pass);
    if !login.value.0 then After((false, "Re-login failed: " + login.value.1), login.state)
    else if login.state.otpRequired then After((false, "OTP required for re-login"), login.state)
    else ReloadRun(w, login.state)
  }

  /** A re-login always ends in failure: a sign-in that succeeds leaves an OTP pending. */
  lemma ReloginSpec(w: World, browser: string, headless: bool, s: State, user: Option<string>, pass: Option<string>)
    ensures var r := Relogin(w, browser, headless, s, user, pass);
      && Extends(s.log, r.state.log)
      && !r.value.0
      && (r.value.1 == "OTP required for re-login" || IsPrefix("Re-login failed: ", r.value.1))
  {
    var login := LoginRun(w, browser, headless, s, user, pass);
    LoginRunSpec(w, browser, headless, s, user, pass);
    if !login.value.0 {
      assert ("Re-login failed: " + login.value.1)[..17] == "Re-login failed: ";
    }
  }

  /** Neither failure message of a re-login reads as the refresh's success message. */
  lemma ReloginMessages(m: string)
    ensures m == "OTP required for re-login" || IsPrefix("Re-login failed: ", m) ==> m != "Session refreshed successfully"
  {
    assert "Session refreshed successfully" == "Session " + "refreshed successfully";
    assert "Session refreshed successfully"[0] != "OTP required for re-login"[0];
    assert "Session refreshed successfully"[0] != "Re-login failed: "[0];
  }

  /**
   * A refresh succeeds only when the session check passed and the last exchange is a URL
   * reading containing "gatepass"; an invalid-session alert as the last exchange expires it. A
   * failed check always ends in failure. After a passed check the driver, the OTP flag and the
   * sign-in flag the check left are kept.
   */
  lemma RefreshRunSpec(w: World, browser: string, headless: bool, s: State, user: Option<string>, pass: Option<string>)
    ensures var r := RefreshRun(w, browser, headless, s, user, pass);
      var check := CheckRun(w, s);
      && Extends(s.log, r.state.log)
      && (r.value.0 <==> r.value.1 == "Session refreshed successfully")
      && (r.value.0 ==>
            check.value && |r.state.log| > |s.log| && r.state.log[|r.state.log| - 1].UrlRead? && ShowsGatepass(r.state.log[|r.state.log| - 1].current))
      && (!check.value ==> !r.value.0 && (r.value.1 == "OTP required for re-login" || IsPrefix("Re-login failed: ", r.value.1)))
      && (check.value ==>
            && r.state == check.state.(log := r.state.log)
            && (r.value.1 == "Session expired" <==>
                  |r.state.log| > |check.state.log| && r.state.log[|r.state.log| - 1].AlertAwaited? && InvalidSessionAlert(AlertResult(r.state.log[|r.state.log| - 1].alert))))
  {
    var check := CheckRun(w, s);
    CheckRunSpec(w, s);
    if check.value {
      ReloadRunSpec(w, check.state);
      ExtendsTrans(s.log, check.state.log, ReloadRun(w, check.state).state.log);
    } else {
      ReloginSpec(w, browser, headless, check.state, user, pass);
      ExtendsTrans(s.log, check.state.log, Relogin(w, browser, headless, check.state, user, pass).state.log);
      ReloginMessages(Relogin(w, browser, headless, check.state, user, pass).value.1);
    }
  }

  // ---------------------------------------------------------------- the manager

  class SessionManager {
    const config: Config
    const selenium: SeleniumHandler
    var username: Option<string>
    var password: Option<string>
    var otpRequired: bool
    var loggedIn: bool

    ghost predicate Valid()
      reads this, selenium
    {
      selenium.Valid()
    }

    /** The state the exchange functions above describe. */
    ghost function Snap(): State
      reads this, selenium, selenium.port
    {
      State(selenium.driver.Some?, loggedIn, otpRequired, selenium.port.log)
    }

    constructor (config: Config, port: Port)
      ensures Valid() && fresh(selenium)
      ensures this.config == config && selenium.port == port && selenium.config == config
      ensures selenium.driver == None
      ensures username == None && password == None && !otpRequired && !loggedIn
    {
      this.config := config;
      selenium := new SeleniumHandler(config, port);
      username := None;
      password := None;
      otpRequired := false;
      loggedIn := false;
    }

    /** `check_session_valid`, exchanging and deciding as `CheckRun` describes. */
    method CheckSessionValid() returns (valid: bool)
      requires Valid()
      modifies this, selenium.port
      ensures Valid()
      ensures After(valid, Snap()) == CheckRun(selenium.port.world, old(Snap()))
      ensures username == old(username) && password == old(password)
    {
      if selenium.driver.None? {
        return false;
      }
      var before := selenium.GetCurrentUrl();
      selenium.port.Do(Screenshot("current_url.png"));
      if LoginLike(before) {
        return false;
      }
      ghost var shot := selenium.port.log;
      var _ := selenium.NavigateTo(DashboardUrl);
      selenium.port.Do(Sleep(2));
      selenium.port.Do(Screenshot("session_check.png"));
      assert selenium.port.log
        == VisitFrom(selenium.port.world, shot, true, DashboardUrl).log + [Did(Sleep(2)), Did(Screenshot("session_check.png"))];
      var after := selenium.GetCurrentUrl();
      if SentToSignIn(after) {
        loggedIn := false;
        return false;
      }
      var text := selenium.HandleAlert(10);
      if InvalidSessionAlert(text) {
        loggedIn := false;
        return false;
      }
      return true;
    }

    /**
     * `start_session`: start the driver, then try the saved cookies; restored cookies that pass
     * the session check sign the session in, and cookies that raise fail the start.
     */
    method StartSession() returns (ok: bool)
      requires Valid()
      modifies this, selenium, selenium.port
      ensures Valid()
      ensures After(ok, Snap()) == StartRun(selenium.port.world, selenium.BrowserChoice(), selenium.config.Headless(), old(Snap()))
      ensures username == old(username) && password == old(password)
    {
      ok := selenium.StartDriver();
      if !ok {
        return false;
      }
      var cookies := selenium.port.LoadCookies();
      if cookies.CookieFault? {
        return false;
      }
      if cookies == Restored {
        var valid := CheckSessionValid();
        if valid {
          loggedIn := true;
          otpRequired := false;
        }
      }
      return true;
    }

    /** `stop_session`: stops the driver and marks the session signed out. */
    method StopSession()
      requires Valid()
      modifies this, selenium, selenium.port
      ensures Valid()
      ensures var stop := StopFrom(selenium.port.world, old(selenium.port.log), old(selenium.driver).Some?);
        Snap() == old(Snap()).(live := stop.value, loggedIn := false, log := stop.log)
      ensures username == old(username) && password == old(password)
    {
      selenium.StopDriver();
      loggedIn := false;
    }

    /** `close_session`: stops the driver and clears both flags. */
    method CloseSession()
      requires Valid()
      modifies this, selenium, selenium.port
      ensures Valid()
      ensures var stop := StopFrom(selenium.port.world, old(selenium.port.log), old(selenium.driver).Some?);
        Snap() == old(Snap()).(live := stop.value, loggedIn := false, otpRequired := false, log := stop.log)
      ensures username == old(username) && password == old(password)
    {
      selenium.StopDriver();
      loggedIn := false;
      otpRequired := false;
    }

    /** `logout`: with a driver, loads the logout page and waits; always marks the session signed out. */
    method Logout()
      requires Valid()
      modifies this, selenium.port
      ensures Valid()
      ensures !loggedIn && otpRequired == old(otpRequired)
      ensures selenium.driver.Some? ==>
        selenium.port.log == old(selenium.port.log)
          + [Visited(LogoutUrl, selenium.port.world.visit(old(selenium.port.log), LogoutUrl)), Did(Sleep(2))]
      ensures selenium.driver.None? ==> selenium.port.log == old(selenium.port.log)
    {
      if selenium.driver.Some? {
        var _ := selenium.NavigateTo(LogoutUrl);
        selenium.port.Do(Sleep(2));
      }
      loggedIn := false;
    }

    /** Clear a field and type a credential into it; typing `None` raises. */
    method TypeInto(field: Locator, text: Option<string>) returns (typed: bool)
      modifies selenium.port
      ensures typed == text.Some?
      ensures selenium.port.log == old(selenium.port.log) + [Did(Clear(field))]
                                   + (if typed then [Did(Type(field, text.value))] else [])
    {
      selenium.port.Do(Clear(field));
      if text.None? {
        return false;
      }
      selenium.port.Do(Type(field, text.value));
      return true;
    }

    /** `login`, exchanging and deciding as `LoginRun` describes; it also stores the credentials. */
    method Login(user: Option<string>, pass: Option<string>) returns (ok: bool, message: string)
      requires Valid()
      modifies this, selenium, selenium.port
      ensures Valid()
      ensures After((ok, message), Snap())
        == LoginRun(selenium.port.world, selenium.BrowserChoice(), selenium.config.Headless(), old(Snap()), user, pass)
      ensures username == user && password == pass
    {
      username := user;
      password := pass;
      if selenium.driver.None? {
        var started := StartSession();
        if !started {
          return false, StopMessage(NoBrowser);
        }
      }
      ok, message := RequestOtpWith(user, pass);
    }

    /** `login` once a session is started, as `RequestOtp`. */
    method RequestOtpWith(user: Option<string>, pass: Option<string>) returns (ok: bool, message: string)
      modifies this, selenium.port
      ensures After((ok, message), Snap()) == RequestOtp(selenium.port.world, old(Snap()), user, pass)
      ensures username == old(username) && password == old(password)
    {
      var stop := EnterCredentials(user, pass);
      if stop.Some? {
        return false, StopMessage(stop.value);
      }
      ok, message := AwaitOtp();
    }

    /** The part of `login` from loading the sign-in page to clicking Generate OTP, as `CredentialsRun`. */
    method EnterCredentials(user: Option<string>, pass: Option<string>) returns (stop: Option<LoginStop>)
      modifies selenium.port
      ensures Exchanged(stop, selenium.port.log)
        == CredentialsRun(selenium.port.world, old(selenium.port.log), selenium.driver.Some?, user, pass)
    {
      var navigated := selenium.NavigateTo(LoginUrl);
      if !navigated {
        return Some(NoLoginPage);
      }
      selenium.HandlePossibleAlerts(3);
      stop := EnterField(UsernameField, 15, user, NoUsernameField);
      if stop.Some? {
        return;
      }
      stop := EnterSecret(pass);
    }

    /** The password and the Generate OTP button, as `SecretRun`. */
    method EnterSecret(pass: Option<string>) returns (stop: Option<LoginStop>)
      modifies selenium.port
      ensures Exchanged(stop, selenium.port.log) == SecretRun(selenium.port.world, old(selenium.port.log), selenium.driver.Some?, pass)
    {
      stop := EnterField(PasswordField, 10, pass, NoPasswordField);
      if stop.Some? {
        return;
      }
      var button := selenium.WaitForElementRobust(GenerateOtpButton, 15);
      if button.None? {
        return Some(NoOtpButton);
      }
      selenium.port.Do(Click(GenerateOtpButton));
      return None;
    }

    /** One credential of `login`, as `FieldRun`. */
    method EnterField(field: Locator, timeout: nat, text: Option<string>, missing: LoginStop) returns (stop: Option<LoginStop>)
      modifies selenium.port
      ensures Exchanged(stop, selenium.port.log)
        == FieldRun(selenium.port.world, old(selenium.port.log), selenium.driver.Some?, field, timeout, text, missing)
    {
      var found := selenium.WaitForElementRobust(field, timeout);
      if found.None? {
        return Some(missing);
      }
      var typed := TypeInto(field, text);
      if !typed {
        return Some(MissingCredential);
      }
      return None;
    }

    /** The end of `login`, as `AwaitOtpRun`; a success leaves an OTP pending. */
    method AwaitOtp() returns (ok: bool, message: string)
      modifies this, selenium.port
      ensures Exchanged((ok, message), selenium.port.log) == AwaitOtpRun(selenium.port.world, old(selenium.port.log), selenium.driver.Some?)
      ensures otpRequired == (ok || old(otpRequired))
      ensures loggedIn == old(loggedIn) && username == old(username) && password == old(password)
    {
      selenium.HandlePossibleAlerts(10);
      var section := selenium.WaitForElementRobust(OtpSection, 45);
      if section.Some? && section.value.displayed {
        otpRequired := true;
        return true, OtpSentMessage;
      }
      var status := selenium.FindElement(OtpStatus, 10);
      ok, message := LoginVerdict(section, status).0, LoginVerdict(section, status).1;
      LoginVerdictSpec(section, status);
    }

    /** `verify_otp`, exchanging and deciding as `VerifyRun` describes. */
    method VerifyOtp(otp: string) returns (ok: bool, message: string)
      requires Valid()
      modifies this, selenium.port
      ensures Valid()
      ensures After((ok, message), Snap()) == VerifyRun(selenium.port.world, old(Snap()), otp)
      ensures username == old(username) && password == old(password)
    {
      if !otpRequired {
        return false, "OTP not required";
      }
      SubmitOtpRunSpec(selenium.port.world, selenium.port.log, selenium.driver.Some?, otp);
      var stop := SubmitOtp(otp);
      if stop.Some? {
        return false, OtpStopMessage(stop.value);
      }
      ok, message := Land();
    }

    /** The rest of `verify_otp` once the code was submitted, as `Landing`. */
    method Land() returns (ok: bool, message: string)
      requires selenium.driver.Some?
      modifies this, selenium.port
      ensures After((ok, message), Snap()) == Landing(selenium.port.world, old(Snap()))
      ensures username == old(username) && password == old(password)
    {
      AwaitRedirect();
      var url := selenium.GetCurrentUrl();
      if SignedInArea(url) {
        loggedIn := true;
        otpRequired := false;
        return true, "Login successful";
      }
      ok, message := FallBack(OnSignInPage(url));
    }

    /** The Sign In step and the OTP status of `verify_otp`, as `Fallback`. */
    method FallBack(onSignIn: bool) returns (ok: bool, message: string)
      modifies this, selenium.port
      ensures After((ok, message), Snap()) == Fallback(selenium.port.world, old(Snap()), onSignIn)
      ensures username == old(username) && password == old(password)
    {
      var arrived := false;
      if onSignIn {
        arrived := ConfirmSignIn();
      }
      if arrived {
        loggedIn := true;
        otpRequired := false;
        selenium.port.Do(SaveCookies);
        return true, "Login successful";
      }
      ok, message := ReadStatus();
    }

    /** The OTP status as the last resort of `verify_otp`, as `StatusRun`. */
    method ReadStatus() returns (ok: bool, message: string)
      modifies this, selenium.port
      ensures After((ok, message), Snap()) == StatusRun(selenium.port.world, old(Snap()))
      ensures username == old(username) && password == old(password)
    {
      var found := selenium.WaitForElementRobust(OtpStatus, 10);
      ok, message := StatusVerdict(found).0, StatusVerdict(found).1;
      if ok {
        loggedIn := true;
        otpRequired := false;
        selenium.port.Do(SaveCookies);
      }
    }

    /** The part of `verify_otp` that types the code and clicks Verify OTP, as `SubmitOtpRun`. */
    method SubmitOtp(otp: string) returns (stop: Option<OtpStop>)
      modifies selenium.port
      ensures Exchanged(stop, selenium.port.log) == SubmitOtpRun(selenium.port.world, old(selenium.port.log), selenium.driver.Some?, otp)
    {
      ghost var w, live := selenium.port.world, selenium.driver.Some?;
      var field := selenium.WaitForElementRobust(OtpField, 30);
      ghost var found := selenium.port.log;
      if field.None? {
        return Some(NoOtpField);
      }
      selenium.port.Do(Clear(OtpField));
      selenium.port.Do(Type(OtpField, otp));
      assert selenium.port.log == found + [Did(Clear(OtpField)), Did(Type(OtpField, otp))];
      selenium.HandlePossibleAlerts(5);
      ghost var typed := selenium.port.log;
      var button := selenium.WaitForElementRobust(VerifyOtpButton, 30);
      assert Exchanged(button, selenium.port.log) == RobustFrom(w, typed, live, VerifyOtpButton, 30);
      if button.None? {
        return Some(NoVerifyButton);
      }
      selenium.port.Do(Click(VerifyOtpButton));
      selenium.HandlePossibleAlerts(15);
      return None;
    }

    /** The redirect poll of `verify_otp`, exchanging exactly what `PollFrom` describes. */
    method AwaitRedirect()
      requires selenium.driver.Some?
      modifies selenium.port
      ensures selenium.port.log == old(selenium.port.log) + PollFrom(selenium.port.world, old(selenium.port.log), 0)
    {
      ghost var start := selenium.port.log;
      ghost var w := selenium.port.world;
      var waited: nat := 0;
      while waited < RedirectPolls
        invariant waited <= RedirectPolls
        invariant start + PollFrom(w, start, 0) == selenium.port.log + PollFrom(w, selenium.port.log, waited)
        decreases RedirectPolls - waited
      {
        ghost var before := selenium.port.log;
        var url := selenium.GetCurrentUrl();
        if SignedInArea(url) {
          PollStopsOnArrival(w, before, waited);
          return;
        }
        selenium.port.Do(Sleep(1));
        PollStep(w, before, waited);
        assert url == w.url(before) && selenium.port.log == before + [UrlRead(url), Did(Sleep(1))];
        assert before + PollFrom(w, before, waited) == selenium.port.log + PollFrom(w, selenium.port.log, waited + 1);
        waited := waited + 1;
      }
    }

    /** The Sign In step of `verify_otp` while still on the sign-in page, as `ConfirmRun`. */
    method ConfirmSignIn() returns (arrived: bool)
      modifies selenium.port
      ensures Exchanged(arrived, selenium.port.log) == ConfirmRun(selenium.port.world, old(selenium.port.log), selenium.driver.Some?)
    {
      var button := selenium.WaitForElementRobust(SignInButton, 15);
      if button.None? || !button.value.displayed {
        return false;
      }
      selenium.port.Do(Click(SignInButton));
      selenium.HandlePossibleAlerts(10);
      selenium.port.Do(Sleep(5));
      var url := selenium.GetCurrentUrl();
      return SignedInArea(url);
    }

    /** `navigate_to_gatepass`, exchanging and deciding as `GatepassRun` describes. */
    method NavigateToGatepass() returns (ok: bool)
      requires Valid()
      modifies this, selenium.port
      ensures Valid()
      ensures After(ok, Snap()) == GatepassRun(selenium.port.world, old(Snap()))
      ensures username == old(username) && password == old(password)
    {
      var valid := CheckSessionValid();
      if !valid {
        return false;
      }
      ok := OpenGatepass();
    }

    /** The gatepass page after a valid session check, as `GatepassPage`. */
    method OpenGatepass() returns (ok: bool)
      requires Valid()
      modifies this, selenium.port
      ensures Valid()
      ensures After(ok, Snap()) == GatepassPage(selenium.port.world, old(Snap()))
      ensures username == old(username) && password == old(password)
    {
      var navigated := selenium.NavigateTo(GatepassUrl);
      if !navigated {
        return false;
      }
      selenium.port.Do(Sleep(3));
      var text := selenium.HandleAlert(10);
      if InvalidSessionAlert(text) {
        loggedIn := false;
        return false;
      }
      var url := selenium.GetCurrentUrl();
      ok := ShowsGatepass(url);
    }

    /** `refresh_session` with the stored credentials, exchanging and deciding as `RefreshRun` describes. */
    method RefreshSession() returns (ok: bool, message: string)
      requires Valid()
      modifies this, selenium, selenium.port
      ensures Valid()
      ensures After((ok, message), Snap())
        == RefreshRun(selenium.port.world, selenium.BrowserChoice(), selenium.config.Headless(), old(Snap()), old(username), old(password))
      ensures username == old(username) && password == old(password)
    {
      var valid := CheckSessionValid();
      if !valid {
        var relogged, m := Login(username, password);
        if !relogged {
          return false, "Re-login failed: " + m;
        }
        if otpRequired {
          return false, "OTP required for re-login";
        }
      }
      ok, message := Reload();
    }

    /** The gatepass reload of `refresh_session`, as `ReloadRun`. */
    method Reload() returns (ok: bool, message: string)
      modifies selenium.port
      ensures After((ok, message), Snap()) == ReloadRun(selenium.port.world, old(Snap()))
    {
      var _ := selenium.NavigateTo(GatepassUrl);
      selenium.port.Do(Sleep(3));
      var text := selenium.HandleAlert(10);
      if InvalidSessionAlert(text) {
        return false, "Session expired";
      }
      var url := selenium.GetCurrentUrl();
      if ShowsGatepass(url) {
        return true, "Session refreshed successfully";
      }
      return false, "Failed to refresh session";
    }
  }
}
