/**
 * automation/form_filler.py: filling and submitting the gatepass form through a signed-in
 * session, with its own bounded retry loop, the merge of the caller's data with values read from
 * the page, and the reading of the page text after submission.
 */
module Forms {
  import opened Wrappers
  import opened Strings
  import opened Browser
  import opened Selenium
  import opened Session

  // ---------------------------------------------------------------- dynamic data

  /** The page inputs `_extract_dynamic_data` reads, in order; the last three are optional. */
  const ExtractFields := ["ash_price", "balance_amount", "gatepass_token", "total_extra", "full_flyash", "extra_flyash"]

  /** The form keys `_fill_and_submit_form` fills from the merged data. */
  const FillKeys := ["ash_utilization", "pickup_time", "vehicle_no", "dl_no", "driver_mob_no", "authorised_person"]

  function FieldLocator(i: nat): Locator
    requires i < |ExtractFields|
  {
    Locator(ByName, ExtractFields[i])
  }

  /** Python's `value or fallback` for an attribute that may be missing. */
  function OrElse(value: Option<string>, fallback: string): string
  {
    if value.Some? && value.value != "" then value.value else fallback
  }

  /**
   * What one lookup adds to the dynamic data: the price and the balance with their defaults, the
   * token as read (possibly missing), an optional field only when its value is non-empty.
   */
  function FieldEntry(i: nat, reply: ElementReply): (entry: map<string, Option<string>>)
    requires i < |ExtractFields|
    ensures entry.Keys <= {ExtractFields[i]}
  {
    if !reply.Found? then map[]
    else
      var value := reply.element.value;
      if i == 0 then map[ExtractFields[0] := Some(OrElse(value, "150"))]
      else if i == 1 then map[ExtractFields[1] := Some(OrElse(value, "0"))]
      else if i == 2 then map[ExtractFields[2] := value]
      else if value.Some? && value.value != "" then map[ExtractFields[i] := value]
      else map[]
  }

  /**
   * Whether a lookup ends the extraction: a fault other than a timeout, or a token without a
   * value (logging its first characters raises).
   */
  predicate Stops(i: nat, reply: ElementReply)
  {
    reply.Fault? || (i == 2 && reply.Found? && reply.element.value.None?)
  }

  /** The dynamic data after the lookups that were answered with `replies`. */
  function Extraction(replies: seq<ElementReply>): map<string, Option<string>>
    requires |replies| <= |ExtractFields|
  {
    if replies == [] then map[]
    else
      var i := |replies| - 1;
      Extraction(replies[..i]) + FieldEntry(i, replies[i])
  }

  /** The exchanges of the lookups answered with `replies`. */
  function Lookups(replies: seq<ElementReply>): seq<Exchange>
    requires |replies| <= |ExtractFields|
  {
    if replies == [] then []
    else
      var i := |replies| - 1;
      Lookups(replies[..i]) + [ElementAwaited(FieldLocator(i), 10, replies[i])]
  }

  /** One more lookup extends the data by its entry and the exchanges by its request. */
  lemma ExtractionStep(replies: seq<ElementReply>, reply: ElementReply)
    requires |replies| < |ExtractFields|
    ensures Extraction(replies + [reply]) == Extraction(replies) + FieldEntry(|replies|, reply)
    ensures Lookups(replies + [reply]) == Lookups(replies) + [ElementAwaited(FieldLocator(|replies|), 10, reply)]
  {
    var next := replies + [reply];
    assert next[..|replies|] == replies && next[|replies|] == reply;
    ExtractionExtends(replies, reply);
  }

  /** One more lookup extends the data by its entry. */
  lemma ExtractionExtends(replies: seq<ElementReply>, reply: ElementReply)
    requires |replies| < |ExtractFields|
    ensures Extraction(replies + [reply]) == Extraction(replies) + FieldEntry(|replies|, reply)
  {
    var next := replies + [reply];
    assert next[..|replies|] == replies && next[|replies|] == reply;
  }

  /** The six page inputs have distinct names. */
  lemma FieldsDistinct()
    ensures forall i, j :: 0 <= i < j < |ExtractFields| ==> ExtractFields[i] != ExtractFields[j]
  {
    assert forall i :: 0 <= i < |ExtractFields| ==> ExtractFields[i][0] == "abgtfe"[i];
  }

  /** The extracted data has no key other than the names of the inputs looked up. */
  lemma {:induction false} ExtractionKeys(replies: seq<ElementReply>)
    requires |replies| <= |ExtractFields|
    ensures forall k :: k in Extraction(replies) ==> k in ExtractFields[..|replies|]
    decreases |replies|
  {
    if replies != [] {
      var n := |replies| - 1;
      ExtractionKeys(replies[..n]);
      assert ExtractFields[..n + 1] == ExtractFields[..n] + [ExtractFields[n]];
    }
  }

  /** The entry of input `i` in the extracted data is the one its own lookup produced. */
  lemma {:induction false} ExtractionAt(replies: seq<ElementReply>, i: nat)
    requires i < |replies| <= |ExtractFields|
    ensures ExtractFields[i] in Extraction(replies) <==> ExtractFields[i] in FieldEntry(i, replies[i])
    ensures ExtractFields[i] in Extraction(replies) ==>
      Extraction(replies)[ExtractFields[i]] == FieldEntry(i, replies[i])[ExtractFields[i]]
    decreases |replies|
  {
    var n := |replies| - 1;
    var prior := replies[..n];
    FieldsDistinct();
    if i == n {
      ExtractionKeys(prior);
      assert ExtractFields[n] !in ExtractFields[..n];
    } else {
      ExtractionAt(prior, i);
      assert prior[i] == replies[i];
    }
  }

  /**
   * Each page input owns its key: the extracted data holds exactly the entries the lookups
   * produced, field by field, and no other key.
   */
  lemma ExtractionEntries(replies: seq<ElementReply>)
    requires |replies| <= |ExtractFields|
    ensures forall k :: k in Extraction(replies) ==> k in ExtractFields[..|replies|]
    ensures forall i :: 0 <= i < |replies| ==>
      (ExtractFields[i] in Extraction(replies) <==> ExtractFields[i] in FieldEntry(i, replies[i]))
      && (ExtractFields[i] in Extraction(replies) ==>
            Extraction(replies)[ExtractFields[i]] == FieldEntry(i, replies[i])[ExtractFields[i]])
  {
    ExtractionKeys(replies);
    forall i | 0 <= i < |replies|
      ensures ExtractFields[i] in Extraction(replies) <==> ExtractFields[i] in FieldEntry(i, replies[i])
      ensures ExtractFields[i] in Extraction(replies) ==>
        Extraction(replies)[ExtractFields[i]] == FieldEntry(i, replies[i])[ExtractFields[i]]
    {
      ExtractionAt(replies, i);
    }
  }

  /** A price lookup that finds the input gives its value, or "150" when it is empty or missing. */
  lemma AshPriceDefault(replies: seq<ElementReply>)
    requires 1 <= |replies| <= |ExtractFields| && replies[0].Found?
    ensures "ash_price" in Extraction(replies)
    ensures Extraction(replies)["ash_price"] == Some(OrElse(replies[0].element.value, "150"))
    ensures replies[0].element.value in {None, Some("")} ==> Extraction(replies)["ash_price"] == Some("150")
  {
    ExtractionEntries(replies);
  }

  /** A balance lookup that finds the input gives its value, or "0" when it is empty or missing. */
  lemma BalanceDefault(replies: seq<ElementReply>)
    requires 2 <= |replies| <= |ExtractFields| && replies[1].Found?
    ensures "balance_amount" in Extraction(replies)
    ensures Extraction(replies)["balance_amount"] == Some(OrElse(replies[1].element.value, "0"))
    ensures replies[1].element.value in {None, Some("")} ==> Extraction(replies)["balance_amount"] == Some("0")
  {
    ExtractionEntries(replies);
  }

  /** An optional field is present only with a non-empty value, and then with the value read. */
  lemma OptionalFieldsNonEmpty(replies: seq<ElementReply>, i: nat)
    requires 3 <= i < |replies| <= |ExtractFields|
    ensures ExtractFields[i] in Extraction(replies) <==>
      replies[i].Found? && replies[i].element.value.Some? && replies[i].element.value.value != ""
    ensures ExtractFields[i] in Extraction(replies) ==> Extraction(replies)[ExtractFields[i]] == replies[i].element.value
  {
    ExtractionEntries(replies);
  }

  // ---------------------------------------------------------------- the merge

  /** `{**form_data, **dynamic_data}`: the caller's values, overridden by the values read from the page. */
  function Merge(formData: map<string, string>, dynamic: map<string, Option<string>>): (merged: map<string, Option<string>>)
    ensures merged.Keys == formData.Keys + dynamic.Keys
    ensures forall k :: k in dynamic ==> merged[k] == dynamic[k]
    ensures forall k :: k in formData && k !in dynamic ==> merged[k] == Some(formData[k])
  {
    (map k | k in formData :: Some(formData[k])) + dynamic
  }

  /** The keys the form filling reads are never read from the page, so they keep the caller's values. */
  lemma FillKeysKeepStaticValues(formData: map<string, string>, replies: seq<ElementReply>)
    requires |replies| <= |ExtractFields|
    ensures forall i :: 0 <= i < |FillKeys| && FillKeys[i] in formData ==>
      Merge(formData, Extraction(replies))[FillKeys[i]] == Some(formData[FillKeys[i]])
  {
    ExtractionEntries(replies);
    FillKeysNotExtracted();
    forall i | 0 <= i < |FillKeys| && FillKeys[i] in formData
      ensures Merge(formData, Extraction(replies))[FillKeys[i]] == Some(formData[FillKeys[i]])
    {
      assert FillKeys[i] !in ExtractFields[..|replies|];
    }
  }

  /** No key the form filling reads is the name of a page input read for dynamic data. */
  lemma FillKeysNotExtracted()
    ensures forall i, j :: 0 <= i < |FillKeys| && 0 <= j < |ExtractFields| ==> FillKeys[i] != ExtractFields[j]
  {
    assert forall i :: 0 <= i < |ExtractFields| ==> ExtractFields[i][0] == "abgtfe"[i];
    assert forall i :: 0 <= i < |FillKeys| ==> FillKeys[i][0] == "apvdda"[i];
    assert |ExtractFields[0]| == 9 && |FillKeys[0]| == 15 && |FillKeys[5]| == 17;
  }

  // ---------------------------------------------------------------- the page verdict

  const SubmitButton := Locator(ByName, "generate_flyash_gatepass")
  const PageBody := Locator(ByTagName, "body")
  /** The text fields: the data key and the input it fills. */
  const VehicleFields := [("vehicle_no", "vehicle_no1"), ("dl_no", "dl_no"), ("driver_mob_no", "driver_mob_no1")]

  const SuccessIndicators := ["success", "generated", "gatepass", "complete", "submitted"]
  const ErrorIndicators := ["invalid session", "exhausted", "failed", "error", "expired"]

  /** Some indicator occurs in the text. */
  predicate AnyIndicator(text: string, indicators: seq<string>)
  {
    exists i :: 0 <= i < |indicators| && Contains(text, indicators[i])
  }

  /**
   * How `_fill_and_submit_form` reads the page body after submitting: a success indicator wins,
   * then an error indicator fails, and otherwise (also without a body) the submission counts
   * as completed.
   */
  function Classify(page: Option<Element>): (bool, string)
  {
    if page.None? then (true, "Form submission completed")
    else
      var text := Lower(page.value.text);
      if AnyIndicator(text, SuccessIndicators) then (true, "Form submitted successfully")
      else if AnyIndicator(text, ErrorIndicators) then (false, "Form submission failed - check page for details")
      else (true, "Form submission completed")
  }

  /** Only a page with an error indicator and no success indicator fails; capitals do not matter. */
  lemma ClassifySpec(e: Element)
    ensures !Classify(Some(e)).0 <==>
      !AnyIndicator(Lower(e.text), SuccessIndicators) && AnyIndicator(Lower(e.text), ErrorIndicators)
    ensures AnyIndicator(Lower(e.text), SuccessIndicators) ==> Classify(Some(e)) == (true, "Form submitted successfully")
    ensures Classify(Some(e.(text := Upper(e.text)))) == Classify(Some(e))
    ensures Classify(None).0
  {
    LowerOfUpper(e.text);
  }

  /**
   * The indicator lists overlap in practice: a page that reports an exhausted gatepass quota
   * still mentions "gatepass" and so is read as a success.
   */
  lemma ExhaustedGatepassReadsAsSuccess(e: Element)
    requires e.text == "Gatepass exhausted"
    ensures Classify(Some(e)) == (true, "Form submitted successfully")
  {
    var text := Lower(e.text);
    assert text == "gatepass exhausted";
    assert IsPrefix("gatepass", text);
    ContainsAt(text, "gatepass", 0);
    assert Contains(text, SuccessIndicators[2]);
  }

  /** The `for indicator in ...: if indicator in page_text: found = True; break` scan. */
  method FindIndicator(text: string, indicators: seq<string>) returns (found: bool)
    ensures found <==> AnyIndicator(text, indicators)
  {
    found := false;
    for i := 0 to |indicators|
      invariant !found
      invariant forall j :: 0 <= j < i ==> !Contains(text, indicators[j])
    {
      if Contains(text, indicators[i]) {
        found := true;
        break;
      }
    }
  }

  // ---------------------------------------------------------------- the retry verdict

  /** How one attempt of `submit_form` ended. */
  datatype Attempt =
    | SessionFailed(reason: string)
    | NavigationFailed
    | Submitted(success: bool, reason: string)

  predicate Succeeded(a: Attempt) { a.Submitted? && a.success }

  /** The messages `submit_form` returns, given how its last attempt ended. */
  function FinalMessage(a: Attempt, maxRetries: int): (bool, string)
  {
    match a
    case SessionFailed(reason) => (false, "Session setup failed: " + reason)
    case NavigationFailed => (false, "Failed to navigate to gatepass page")
    case Submitted(success, reason) =>
      if success then (true, "Form submitted successfully")
      else (false, "Form submission failed after " + ShowInt(maxRetries) + " attempts: " + reason)
  }

  /** Only a successful submission reads as a success, and no attempt gives the message of the empty loop. */
  lemma FinalMessageSpec(a: Attempt, maxRetries: int)
    ensures FinalMessage(a, maxRetries).0 <==> Succeeded(a)
    ensures FinalMessage(a, maxRetries).0 <==> FinalMessage(a, maxRetries).1 == "Form submitted successfully"
    ensures FinalMessage(a, maxRetries).1 != "Maximum retries exceeded"
  {
    var m := FinalMessage(a, maxRetries).1;
    match a
    case SessionFailed(reason) =>
      assert m[0] == 'S';
    case NavigationFailed =>
      assert m[1] == 'a';
    case Submitted(success, reason) =>
      if !success {
        assert m[1] == 'o';
      }
  }

  /** The three failure exits are told apart by their messages. */
  lemma FinalMessageExits(a: Attempt, maxRetries: int)
    ensures a.SessionFailed? <==> IsPrefix("Session setup failed: ", FinalMessage(a, maxRetries).1)
    ensures a.NavigationFailed? <==> FinalMessage(a, maxRetries).1 == "Failed to navigate to gatepass page"
  {
    var m := FinalMessage(a, maxRetries).1;
    if !a.SessionFailed? {
      assert m[0] != 'S';
    }
    if !a.NavigationFailed? {
      assert m[0] != 'F' || m[1] != 'a';
    }
  }

  // ---------------------------------------------------------------- the session, as `_ensure_valid_session`

  const ValidSessionMessage := "Session is valid"
  const NoSessionMessage := "Failed to start browser session"
  const OtpPendingMessage := "OTP required for login. " + "Please complete login manually."

  /**
   * `_ensure_valid_session` from state `s`: start a session when no driver is held, then log in
   * again when the session check fails.
   */
  function EnsureRun(w: World, browser: string, headless: bool, s: State, user: Option<string>, pass: Option<string>)
    : After<(bool, string)>
  {
    var started := StartIfNeeded(w, browser, headless, s);
    if !started.value then After((false, NoSessionMessage), started.state)
    else
      var check := CheckRun(w, started.state);
      if check.value then After((true, ValidSessionMessage), check.state)
      else
        var login := LoginRun(w, browser, headless, check.state, user, pass);
        if !login.value.0 then After((false, "Login failed: " + login.value.1), login.state)
        else if login.state.otpRequired then After((false, OtpPendingMessage), login.state)
        else After((true, ValidSessionMessage), login.state)
  }

  /** The messages of `_ensure_valid_session` are told apart. */
  lemma EnsureMessages(m: string)
    ensures NoSessionMessage != ValidSessionMessage && OtpPendingMessage != ValidSessionMessage
    ensures NoSessionMessage != OtpPendingMessage
    ensures IsPrefix("Login failed: ", "Login failed: " + m)
    ensures "Login failed: " + m !in {ValidSessionMessage, OtpPendingMessage, NoSessionMessage}
  {
    assert ("Login failed: " + m)[..14] == "Login failed: ";
    assert ("Login failed: " + m)[0] == 'L';
    assert NoSessionMessage[0] == 'F';
    assert OtpPendingMessage[0] == 'O';
    assert ValidSessionMessage[0] == 'S';
  }

  /** No message with which `login` stops early is the OTP-sent message. */
  lemma OtpSentIsNoStop()
    ensures OtpSentMessage !in LoginStops
  {
    StopMessageSpec(NoBrowser);
    StopMessageSpec(NoLoginPage);
    StopMessageSpec(NoUsernameField);
    StopMessageSpec(NoPasswordField);
    StopMessageSpec(NoOtpButton);
    StopMessageSpec(MissingCredential);
  }

  /**
   * The session is valid only as a passed session check after the start left it; a re-login
   * never makes it valid, because a successful login leaves an OTP pending, which is reported
   * after the Generate OTP click. Every failure carries the start failure, that report, or the
   * login failure.
   */
  lemma EnsureRunSpec(w: World, browser: string, headless: bool, s: State, user: Option<string>, pass: Option<string>)
    ensures var r := EnsureRun(w, browser, headless, s, user, pass);
      var started := StartIfNeeded(w, browser, headless, s);
      && Extends(s.log, r.state.log)
      && (r.value.0 <==> r.value.1 == ValidSessionMessage)
      && (r.value.0 ==>
            && started.value && CheckRun(w, started.state).value
            && r.state == CheckRun(w, started.state).state && r.state.live)
      && (!started.value <==> r.value.1 == NoSessionMessage)
      && (r.value.1 == OtpPendingMessage ==>
            r.state.otpRequired && r.state.live && Did(Click(GenerateOtpButton)) in Added(s.log, r.state.log))
      && (!r.value.0 ==>
            r.value.1 == NoSessionMessage || r.value.1 == OtpPendingMessage || IsPrefix("Login failed: ", r.value.1))
  {
    var started := StartIfNeeded(w, browser, headless, s);
    StartRunSpec(w, browser, headless, s);
    EnsureMessages("");
    if started.value {
      var check := CheckRun(w, started.state);
      CheckRunSpec(w, started.state);
      ExtendsTrans(s.log, started.state.log, check.state.log);
      if !check.value {
        var login := LoginRun(w, browser, headless, check.state, user, pass);
        LoginRunSpec(w, browser, headless, check.state, user, pass);
        ExtendsTrans(s.log, check.state.log, login.state.log);
        EnsureMessages(login.value.1);
        if login.value.0 {
          OtpSentIsNoStop();
          AddedLater(s.log, check.state.log, login.state.log, Did(Click(GenerateOtpButton)));
        }
      }
    }
  }

  /** Making sure of the session pauses only for two seconds. */
  lemma EnsureRunPauseFree(w: World, browser: string, headless: bool, s: State, user: Option<string>, pass: Option<string>, seconds: nat)
    requires seconds != 2
    ensures PauseFree(s.log, EnsureRun(w, browser, headless, s, user, pass).state.log, seconds)
  {
    var started := StartIfNeeded(w, browser, headless, s);
    if s.live {
      PauseFreeAppend(s.log, [], seconds);
      assert s.log + [] == s.log;
    } else {
      StartRunPauseFree(w, browser, headless, s, seconds);
    }
    if started.value {
      var check := CheckRun(w, started.state);
      CheckRunPauseFree(w, started.state, seconds);
      PauseFreeTrans(s.log, started.state.log, check.state.log, seconds);
      if !check.value {
        LoginRunPauseFree(w, browser, headless, check.state, user, pass, seconds);
        PauseFreeTrans(s.log, check.state.log, LoginRun(w, browser, headless, check.state, user, pass).state.log, seconds);
      }
    }
  }

  // ---------------------------------------------------------------- extraction against the world

  /** The exchanges after `log` once the lookups answered with `replies` are made. */
  function LookupLog(log: seq<Exchange>, live: bool, replies: seq<ElementReply>): seq<Exchange>
    requires |replies| <= |ExtractFields|
  {
    if live then log + Lookups(replies) else log
  }

  /** The extraction is over after the lookups answered with `replies`. */
  predicate Finished(replies: seq<ElementReply>)
  {
    |replies| >= |ExtractFields| || (replies != [] && Stops(|replies| - 1, replies[|replies| - 1]))
  }

  /** The replies to all lookups of `_extract_dynamic_data` after `log`, given those answered so far. */
  function RepliesFrom(w: World, log: seq<Exchange>, live: bool, replies: seq<ElementReply>): (all: seq<ElementReply>)
    requires |replies| <= |ExtractFields|
    ensures |replies| <= |all| <= |ExtractFields|
    decreases |ExtractFields| - |replies|
  {
    if Finished(replies) then replies
    else
      var reply := FindFrom(w, LookupLog(log, live, replies), live, FieldLocator(|replies|), 10).value;
      RepliesFrom(w, log, live, replies + [reply])
  }

  /** `_extract_dynamic_data` after `log`: the data gathered and the exchanges of its lookups. */
  function ExtractFrom(w: World, log: seq<Exchange>, live: bool): Exchanged<map<string, Option<string>>>
  {
    var replies := RepliesFrom(w, log, live, []);
    Exchanged(Extraction(replies), LookupLog(log, live, replies))
  }

  /** The lookups still to come keep the replies so far. */
  lemma {:induction false} RepliesFromKeeps(w: World, log: seq<Exchange>, live: bool, replies: seq<ElementReply>)
    requires |replies| <= |ExtractFields|
    ensures RepliesFrom(w, log, live, replies)[..|replies|] == replies
    decreases |ExtractFields| - |replies|
  {
    if !Finished(replies) {
      var i := |replies|;
      var next := replies + [FindFrom(w, LookupLog(log, live, replies), live, FieldLocator(i), 10).value];
      RepliesFromKeeps(w, log, live, next);
      var all := RepliesFrom(w, log, live, next);
      assert all[..i] == all[..i + 1][..i] == replies;
    }
  }

  /**
   * The lookups still to come end the extraction and never stop early; without a driver only
   * one more lookup is made.
   */
  lemma {:induction false} RepliesFromEnds(w: World, log: seq<Exchange>, live: bool, replies: seq<ElementReply>)
    requires |replies| <= |ExtractFields|
    requires forall j :: 0 <= j < |replies| - 1 ==> !Stops(j, replies[j])
    ensures var all := RepliesFrom(w, log, live, replies);
      && Finished(all)
      && (forall j :: 0 <= j < |all| - 1 ==> !Stops(j, all[j]))
      && (!live && !Finished(replies) ==> |all| == |replies| + 1)
    decreases |ExtractFields| - |replies|
  {
    if !Finished(replies) {
      var i := |replies|;
      var next := replies + [FindFrom(w, LookupLog(log, live, replies), live, FieldLocator(i), 10).value];
      RepliesFromEnds(w, log, live, next);
      RepliesFromKeeps(w, log, live, next);
      var all := RepliesFrom(w, log, live, next);
      assert all[..i + 1] == next;
      forall j | 0 <= j < i
        ensures all[j] == replies[j]
      {
        assert all[j] == all[..i + 1][j];
      }
    }
  }

  /** Lookup `j`, when still to come, takes the world's answer to the lookup of its own input after the lookups before it. */
  lemma {:induction false} RepliesFromAnswer(w: World, log: seq<Exchange>, live: bool, replies: seq<ElementReply>, j: nat)
    requires |replies| <= |ExtractFields| && |replies| <= j < |RepliesFrom(w, log, live, replies)|
    ensures var all := RepliesFrom(w, log, live, replies);
      all[j] == FindFrom(w, LookupLog(log, live, all[..j]), live, FieldLocator(j), 10).value
    decreases |ExtractFields| - |replies|
  {
    var i := |replies|;
    var next := replies + [FindFrom(w, LookupLog(log, live, replies), live, FieldLocator(i), 10).value];
    var all := RepliesFrom(w, log, live, next);
    if j == i {
      RepliesFromKeeps(w, log, live, next);
      assert all[..i] == all[..i + 1][..i] == replies;
      assert all[i] == next[i];
    } else {
      RepliesFromAnswer(w, log, live, next, j);
    }
  }

  /**
   * `_extract_dynamic_data` makes one to six lookups in order, each the world's answer to the
   * lookup of its input after those before it; it stops at the first lookup that ends the
   * extraction and at no other. The data is `Extraction` of the replies and the exchanges are
   * exactly the lookups; without a driver the first lookup fails and nothing is exchanged.
   */
  lemma ExtractFromSpec(w: World, log: seq<Exchange>, live: bool)
    ensures var r := ExtractFrom(w, log, live); var rs := RepliesFrom(w, log, live, []);
      && 1 <= |rs| <= |ExtractFields|
      && r.value == Extraction(rs)
      && (forall j :: 0 <= j < |rs| - 1 ==> !Stops(j, rs[j]))
      && (|rs| < |ExtractFields| ==> Stops(|rs| - 1, rs[|rs| - 1]))
      && (forall j :: 0 <= j < |rs| ==> rs[j] == FindFrom(w, LookupLog(log, live, rs[..j]), live, FieldLocator(j), 10).value)
      && (live ==> r.log == log + Lookups(rs))
      && (!live ==> r.log == log && rs == [Fault(NoDriverFault)])
  {
    RepliesFromKeeps(w, log, live, []);
    RepliesFromEnds(w, log, live, []);
    forall j | 0 <= j < |RepliesFrom(w, log, live, [])|
      ensures var rs := RepliesFrom(w, log, live, []);
        rs[j] == FindFrom(w, LookupLog(log, live, rs[..j]), live, FieldLocator(j), 10).value
    {
      RepliesFromAnswer(w, log, live, [], j);
    }
  }

  /** Every exchange of the lookups awaits an element. */
  lemma {:induction false} LookupsAwait(replies: seq<ElementReply>)
    requires |replies| <= |ExtractFields|
    ensures |Lookups(replies)| == |replies|
    ensures forall i :: 0 <= i < |replies| ==> Lookups(replies)[i].ElementAwaited?
    decreases |replies|
  {
    if replies != [] {
      LookupsAwait(replies[..|replies| - 1]);
    }
  }

  /** The extraction never pauses. */
  lemma ExtractPauseFree(w: World, log: seq<Exchange>, live: bool, seconds: nat)
    ensures PauseFree(log, ExtractFrom(w, log, live).log, seconds)
  {
    var rs := RepliesFrom(w, log, live, []);
    LookupsAwait(rs);
    PauseFreeAppend(log, Lookups(rs), seconds);
    PauseFreeAppend(log, [], seconds);
    assert log + [] == log;
  }

  // ---------------------------------------------------------------- filling against the world

  const NoButtonMessage := "Submit button not found"

  /** A dropdown after `log`: found within 30 seconds, chosen by its visible text, then a short alert check. */
  function ChooseFrom(w: World, log: seq<Exchange>, live: bool, loc: Locator, value: Option<string>): seq<Exchange>
  {
    var found := RobustFrom(w, log, live, loc, 30);
    if found.value.None? || value.None? then found.log
    else
      var chosen := w.choose(found.log, loc, value.value);
      var picked := found.log + [Chosen(loc, value.value, chosen)];
      if chosen then AlertFrom(w, picked, live, 5).log else picked
  }

  /** A text field after `log`: found within 30 seconds, cleared and typed into, then a short alert check. */
  function TypeFrom(w: World, log: seq<Exchange>, live: bool, loc: Locator, value: Option<string>): seq<Exchange>
  {
    var found := RobustFrom(w, log, live, loc, 30);
    if found.value.None? || value.None? then found.log
    else
      var filled := w.fill(found.log, loc, value.value);
      var typed := found.log + [Filled(loc, value.value, filled)];
      if filled then AlertFrom(w, typed, live, 5).log else typed
  }

  /** The dropdown named `key` when the data has that key. */
  function OptionFrom(w: World, log: seq<Exchange>, live: bool, data: map<string, Option<string>>, key: string): seq<Exchange>
  {
    if key in data then ChooseFrom(w, log, live, Locator(ByName, key), data[key]) else log
  }

  /** The first `n` text fields in order, each when the data has its key. */
  function VehiclesFrom(w: World, log: seq<Exchange>, live: bool, data: map<string, Option<string>>, n: nat): seq<Exchange>
    requires n <= |VehicleFields|
  {
    if n == 0 then log
    else
      var prior := VehiclesFrom(w, log, live, data, n - 1);
      var (key, field) := VehicleFields[n - 1];
      if key in data then TypeFrom(w, prior, live, Locator(ByName, field), data[key]) else prior
  }

  /** The filling part of `_fill_and_submit_form` after `log`. */
  function FieldsFrom(w: World, log: seq<Exchange>, live: bool, data: map<string, Option<string>>): seq<Exchange>
  {
    var checked := AlertFrom(w, log, live, 10).log;
    var ash := OptionFrom(w, checked, live, data, "ash_utilization");
    var pickup := OptionFrom(w, ash, live, data, "pickup_time");
    var vehicles := VehiclesFrom(w, pickup, live, data, |VehicleFields|);
    OptionFrom(w, vehicles, live, data, "authorised_person")
  }

  /** `_fill_and_submit_form` after `log`: fill, pause, check for alerts, then submit if the button is there. */
  function FillRun(w: World, log: seq<Exchange>, live: bool, data: map<string, Option<string>>): Exchanged<(bool, string)>
  {
    var filled := FieldsFrom(w, log, live, data) + [Did(Sleep(3))];
    var button := RobustFrom(w, AlertFrom(w, filled, live, 10).log, live, SubmitButton, 30);
    if button.value.None? then Exchanged((false, NoButtonMessage), button.log)
    else ClickRun(w, button.log, live)
  }

  /** The submission proper after `log`: scroll, pause, screenshot, click, then read the outcome. */
  function ClickRun(w: World, log: seq<Exchange>, live: bool): Exchanged<(bool, string)>
  {
    var shot := ShotFrom(log + [Did(Scroll(SubmitButton)), Did(Sleep(1))], live, "before_submission.png").log;
    OutcomeRun(w, shot + [Did(Click(SubmitButton))], live)
  }

  /** After the click: an alert check, a pause, a screenshot, the URL, and the page body classified. */
  function OutcomeRun(w: World, log: seq<Exchange>, live: bool): Exchanged<(bool, string)>
  {
    var checked := AlertFrom(w, log, live, 15).log + [Did(Sleep(5))];
    var url := UrlFrom(w, ShotFrom(checked, live, "after_submission.png").log, live);
    var body := RobustFrom(w, url.log, live, PageBody, 10);
    Exchanged(Classify(body.value), body.log)
  }

  /** The page body found by the last exchange of a log, when that exchange is a lookup of the body. */
  function BodyAt(xs: seq<Exchange>): Option<Element>
  {
    if xs != [] && xs[|xs| - 1].ElementAwaited? && xs[|xs| - 1].loc == PageBody && xs[|xs| - 1].reply.Found?
    then Some(xs[|xs| - 1].reply.element)
    else None
  }

  /** The verdict after the click is the classification of the body the last exchange found, if any. */
  lemma OutcomeRunSpec(w: World, log: seq<Exchange>, live: bool)
    ensures var r := OutcomeRun(w, log, live);
      && Extends(log, r.log)
      && r.value == Classify(BodyAt(r.log))
  {
    var checked := AlertFrom(w, log, live, 15).log + [Did(Sleep(5))];
    var shot := ShotFrom(checked, live, "after_submission.png").log;
    var url := UrlFrom(w, shot, live);
    RobustFromSpec(w, url.log, live, PageBody, 10);
    PauseFreeAppend(AlertFrom(w, log, live, 15).log, [Did(Sleep(5))], 0);
    HandlerPauseFree(w, log, live, PageBody, 15, "after_submission.png", 0);
    HandlerPauseFree(w, checked, live, PageBody, 15, "after_submission.png", 0);
    HandlerPauseFree(w, shot, live, PageBody, 15, "after_submission.png", 0);
    ExtendsTrans(log, AlertFrom(w, log, live, 15).log, checked);
    ExtendsTrans(log, checked, shot);
    ExtendsTrans(log, shot, url.log);
    ExtendsTrans(log, url.log, RobustFrom(w, url.log, live, PageBody, 10).log);
  }

  /** A submission clicks the submit button, and its verdict is the classification of the body read last. */
  lemma ClickRunSpec(w: World, log: seq<Exchange>, live: bool)
    ensures var r := ClickRun(w, log, live);
      && Extends(log, r.log)
      && Did(Click(SubmitButton)) in Added(log, r.log)
      && r.value == Classify(BodyAt(r.log))
  {
    var scrolled := log + [Did(Scroll(SubmitButton)), Did(Sleep(1))];
    var shot := ShotFrom(scrolled, live, "before_submission.png").log;
    var clicked := shot + [Did(Click(SubmitButton))];
    ExtendsAppend(log, [Did(Scroll(SubmitButton)), Did(Sleep(1))]);
    HandlerPauseFree(w, scrolled, live, PageBody, 1, "before_submission.png", 0);
    ExtendsTrans(log, scrolled, shot);
    ExtendsAppend(shot, [Did(Click(SubmitButton))]);
    ExtendsTrans(log, shot, clicked);
    OutcomeRunSpec(w, clicked, live);
    ExtendsTrans(log, clicked, OutcomeRun(w, clicked, live).log);
    KeptAfter(log, clicked, OutcomeRun(w, clicked, live).log);
  }

  /** The page verdicts are never the missing-button message. */
  lemma ClassifyMessages(page: Option<Element>)
    ensures Classify(page).1 != NoButtonMessage
  {
    assert NoButtonMessage[0] == 'S';
  }

  /**
   * `_fill_and_submit_form` fails with "Submit button not found" exactly when the button did not
   * appear, and then (with a driver) its failure screenshot is the last exchange; otherwise the
   * button was clicked and the verdict is the classification of the body read last. Without a
   * driver nothing is submitted.
   */
  lemma FillRunSpec(w: World, log: seq<Exchange>, live: bool, data: map<string, Option<string>>)
    ensures var r := FillRun(w, log, live, data);
      && Extends(log, r.log)
      && (r.value.1 == NoButtonMessage ==>
            !r.value.0 && (live ==> |r.log| > |log| && r.log[|r.log| - 1] == Did(Screenshot(FailureShot(SubmitButton)))))
      && (r.value.1 != NoButtonMessage ==>
            live && Did(Click(SubmitButton)) in Added(log, r.log) && r.value == Classify(BodyAt(r.log)))
      && (!live ==> r.value == (false, NoButtonMessage))
  {
    var fields := FieldsFrom(w, log, live, data);
    FieldsPauseFree(w, log, live, data, 0);
    var filled := fields + [Did(Sleep(3))];
    ExtendsAppend(fields, [Did(Sleep(3))]);
    ExtendsTrans(log, fields, filled);
    var checked := AlertFrom(w, filled, live, 10).log;
    HandlerPauseFree(w, filled, live, SubmitButton, 10, "", 0);
    ExtendsTrans(log, filled, checked);
    var button := RobustFrom(w, checked, live, SubmitButton, 30);
    RobustFromSpec(w, checked, live, SubmitButton, 30);
    ExtendsTrans(log, checked, button.log);
    if button.value.Some? {
      ClickRunSpec(w, button.log, live);
      ClassifyMessages(BodyAt(ClickRun(w, button.log, live).log));
      ExtendsTrans(log, button.log, ClickRun(w, button.log, live).log);
      AddedLater(log, button.log, ClickRun(w, button.log, live).log, Did(Click(SubmitButton)));
    }
  }

  /** A dropdown or a text field never pauses. */
  lemma PickPauseFree(w: World, log: seq<Exchange>, live: bool, loc: Locator, value: Option<string>, seconds: nat)
    ensures PauseFree(log, ChooseFrom(w, log, live, loc, value), seconds)
    ensures PauseFree(log, TypeFrom(w, log, live, loc, value), seconds)
  {
    var found := RobustFrom(w, log, live, loc, 30);
    RobustPauseFree(w, log, live, loc, 30, seconds);
    if found.value.Some? && value.Some? {
      var chosen := Chosen(loc, value.value, w.choose(found.log, loc, value.value));
      PauseFreeAppend(found.log, [chosen], seconds);
      PauseFreeTrans(log, found.log, found.log + [chosen], seconds);
      HandlerPauseFree(w, found.log + [chosen], live, loc, 5, "", seconds);
      PauseFreeTrans(log, found.log + [chosen], AlertFrom(w, found.log + [chosen], live, 5).log, seconds);
      var filled := Filled(loc, value.value, w.fill(found.log, loc, value.value));
      PauseFreeAppend(found.log, [filled], seconds);
      PauseFreeTrans(log, found.log, found.log + [filled], seconds);
      HandlerPauseFree(w, found.log + [filled], live, loc, 5, "", seconds);
      PauseFreeTrans(log, found.log + [filled], AlertFrom(w, found.log + [filled], live, 5).log, seconds);
    }
  }

  /** The text fields never pause. */
  lemma {:induction false} VehiclesPauseFree(w: World, log: seq<Exchange>, live: bool, data: map<string, Option<string>>, n: nat, seconds: nat)
    requires n <= |VehicleFields|
    ensures PauseFree(log, VehiclesFrom(w, log, live, data, n), seconds)
  {
    if n == 0 {
      PauseFreeAppend(log, [], seconds);
      assert log + [] == log;
    } else {
      var prior := VehiclesFrom(w, log, live, data, n - 1);
      VehiclesPauseFree(w, log, live, data, n - 1, seconds);
      var (key, field) := VehicleFields[n - 1];
      PickPauseFree(w, prior, live, Locator(ByName, field), if key in data then data[key] else None, seconds);
      PauseFreeTrans(log, prior, TypeFrom(w, prior, live, Locator(ByName, field), if key in data then data[key] else None), seconds);
    }
  }

  /** Filling the form never pauses. */
  lemma FieldsPauseFree(w: World, log: seq<Exchange>, live: bool, data: map<string, Option<string>>, seconds: nat)
    ensures PauseFree(log, FieldsFrom(w, log, live, data), seconds)
  {
    var checked := AlertFrom(w, log, live, 10).log;
    HandlerPauseFree(w, log, live, PageBody, 10, "", seconds);
    var ash := OptionFrom(w, checked, live, data, "ash_utilization");
    OptionPauseFree(w, checked, live, data, "ash_utilization", seconds);
    PauseFreeTrans(log, checked, ash, seconds);
    var pickup := OptionFrom(w, ash, live, data, "pickup_time");
    OptionPauseFree(w, ash, live, data, "pickup_time", seconds);
    PauseFreeTrans(log, ash, pickup, seconds);
    var vehicles := VehiclesFrom(w, pickup, live, data, |VehicleFields|);
    VehiclesPauseFree(w, pickup, live, data, |VehicleFields|, seconds);
    PauseFreeTrans(log, pickup, vehicles, seconds);
    OptionPauseFree(w, vehicles, live, data, "authorised_person", seconds);
    PauseFreeTrans(log, vehicles, FieldsFrom(w, log, live, data), seconds);
  }

  lemma OptionPauseFree(w: World, log: seq<Exchange>, live: bool, data: map<string, Option<string>>, key: string, seconds: nat)
    ensures PauseFree(log, OptionFrom(w, log, live, data, key), seconds)
  {
    if key in data {
      PickPauseFree(w, log, live, Locator(ByName, key), data[key], seconds);
    } else {
      PauseFreeAppend(log, [], seconds);
      assert log + [] == log;
    }
  }

  /** Filling and submitting pauses only for one, three and five seconds. */
  lemma FillRunPauseFree(w: World, log: seq<Exchange>, live: bool, data: map<string, Option<string>>, seconds: nat)
    requires seconds != 1 && seconds != 3 && seconds != 5
    ensures PauseFree(log, FillRun(w, log, live, data).log, seconds)
  {
    var fields := FieldsFrom(w, log, live, data);
    FieldsPauseFree(w, log, live, data, seconds);
    var filled := fields + [Did(Sleep(3))];
    PauseFreeAppend(fields, [Did(Sleep(3))], seconds);
    PauseFreeTrans(log, fields, filled, seconds);
    var checked := AlertFrom(w, filled, live, 10).log;
    HandlerPauseFree(w, filled, live, SubmitButton, 10, "", seconds);
    PauseFreeTrans(log, filled, checked, seconds);
    var button := RobustFrom(w, checked, live, SubmitButton, 30);
    RobustPauseFree(w, checked, live, SubmitButton, 30, seconds);
    PauseFreeTrans(log, checked, button.log, seconds);
    if button.value.Some? {
      ClickPauseFree(w, button.log, live, seconds);
      PauseFreeTrans(log, button.log, ClickRun(w, button.log, live).log, seconds);
    }
  }

  lemma ClickPauseFree(w: World, log: seq<Exchange>, live: bool, seconds: nat)
    requires seconds != 1 && seconds != 5
    ensures PauseFree(log, ClickRun(w, log, live).log, seconds)
  {
    var scrolled := log + [Did(Scroll(SubmitButton)), Did(Sleep(1))];
    PauseFreeAppend(log, [Did(Scroll(SubmitButton)), Did(Sleep(1))], seconds);
    var shot := ShotFrom(scrolled, live, "before_submission.png").log;
    HandlerPauseFree(w, scrolled, live, PageBody, 1, "before_submission.png", seconds);
    PauseFreeTrans(log, scrolled, shot, seconds);
    var clicked := shot + [Did(Click(SubmitButton))];
    PauseFreeAppend(shot, [Did(Click(SubmitButton))], seconds);
    PauseFreeTrans(log, shot, clicked, seconds);
    var alerted := AlertFrom(w, clicked, live, 15).log;
    HandlerPauseFree(w, clicked, live, PageBody, 15, "after_submission.png", seconds);
    PauseFreeTrans(log, clicked, alerted, seconds);
    var checked := alerted + [Did(Sleep(5))];
    PauseFreeAppend(alerted, [Did(Sleep(5))], seconds);
    PauseFreeTrans(log, alerted, checked, seconds);
    var shot2 := ShotFrom(checked, live, "after_submission.png").log;
    HandlerPauseFree(w, checked, live, PageBody, 15, "after_submission.png", seconds);
    PauseFreeTrans(log, checked, shot2, seconds);
    var url := UrlFrom(w, shot2, live);
    HandlerPauseFree(w, shot2, live, PageBody, 15, "after_submission.png", seconds);
    PauseFreeTrans(log, shot2, url.log, seconds);
    RobustPauseFree(w, url.log, live, PageBody, 10, seconds);
    PauseFreeTrans(log, url.log, RobustFrom(w, url.log, live, PageBody, 10).log, seconds);
  }

  // ---------------------------------------------------------------- attempts and retries, as `submit_form`

  /** The pause `submit_form` makes after a failed attempt that is not the last. */
  const RetryPause: nat := 10

  predicate IsRetryPause(x: Exchange) { x == Did(Sleep(RetryPause)) }

  /** One attempt of `submit_form` from state `s`: the session, the gatepass page, the extraction and merge, the filling. */
  function AttemptRun(w: World, browser: string, headless: bool, s: State, user: Option<string>, pass: Option<string>,
                      formData: map<string, string>): After<Attempt>
  {
    var ensured := EnsureRun(w, browser, headless, s, user, pass);
    if !ensured.value.0 then After(SessionFailed(ensured.value.1), ensured.state)
    else GatepassAttempt(w, ensured.state, formData)
  }

  /** An attempt once the session is made sure of: the gatepass page, then the form. */
  function GatepassAttempt(w: World, s: State, formData: map<string, string>): After<Attempt>
  {
    var page := GatepassRun(w, s);
    if !page.value then After(NavigationFailed, page.state)
    else FormAttempt(w, page.state, formData)
  }

  /** An attempt on the gatepass page: the extraction and merge, then the filling. */
  function FormAttempt(w: World, s: State, formData: map<string, string>): After<Attempt>
  {
    var dynamic := ExtractFrom(w, s.log, s.live);
    var filled := FillRun(w, dynamic.log, s.live, Merge(formData, dynamic.value));
    After(Submitted(filled.value.0, filled.value.1), s.(log := filled.log))
  }

  /**
   * An attempt on the gatepass page always submits or fails to find the button, keeps the
   * session flags and the driver, and a success clicked the submit button and reads as success
   * from the body read last.
   */
  lemma FormAttemptSpec(w: World, s: State, formData: map<string, string>)
    ensures var r := FormAttempt(w, s, formData);
      && Extends(s.log, r.state.log)
      && r.value.Submitted? && r.state == s.(log := r.state.log)
      && (Succeeded(r.value) ==>
            && Did(Click(SubmitButton)) in Added(s.log, r.state.log)
            && (r.value.success, r.value.reason) == Classify(BodyAt(r.state.log)))
  {
    var dynamic := ExtractFrom(w, s.log, s.live);
    ExtractPauseFree(w, s.log, s.live, 0);
    var filled := FillRun(w, dynamic.log, s.live, Merge(formData, dynamic.value));
    FillRunSpec(w, dynamic.log, s.live, Merge(formData, dynamic.value));
    ExtendsTrans(s.log, dynamic.log, filled.log);
    if filled.value.0 {
      ClassifyMessages(BodyAt(filled.log));
      AddedLater(s.log, dynamic.log, filled.log, Did(Click(SubmitButton)));
    }
  }

  /**
   * Once the session is made sure of, an attempt fails at navigation exactly when the gatepass
   * page is not reached, and submits only from the gatepass page.
   */
  lemma GatepassAttemptSpec(w: World, s: State, formData: map<string, string>)
    ensures var r := GatepassAttempt(w, s, formData); var page := GatepassRun(w, s);
      && Extends(s.log, r.state.log)
      && (r.value.NavigationFailed? <==> !page.value)
      && (r.value.Submitted? ==> OnGatepass(s.log, page.state.log) && Extends(page.state.log, r.state.log))
      && (Succeeded(r.value) ==>
            && Did(Click(SubmitButton)) in Added(s.log, r.state.log)
            && (r.value.success, r.value.reason) == Classify(BodyAt(r.state.log)))
  {
    var page := GatepassRun(w, s);
    GatepassRunSpec(w, s);
    if page.value {
      var r := FormAttempt(w, page.state, formData);
      FormAttemptSpec(w, page.state, formData);
      ExtendsTrans(s.log, page.state.log, r.state.log);
      if Succeeded(r.value) {
        AddedLater(s.log, page.state.log, r.state.log, Did(Click(SubmitButton)));
      }
    }
  }

  /**
   * An attempt fails at the session exactly when making sure of it fails, with its message; it
   * fails at navigation exactly when the gatepass page is not reached next; a submission comes
   * only from the gatepass page, and a successful one clicked the submit button and reads as
   * success from the body read last.
   */
  lemma AttemptRunSpec(w: World, browser: string, headless: bool, s: State, user: Option<string>, pass: Option<string>,
                       formData: map<string, string>)
    ensures var r := AttemptRun(w, browser, headless, s, user, pass, formData);
      var ensured := EnsureRun(w, browser, headless, s, user, pass);
      var page := GatepassRun(w, ensured.state);
      && Extends(s.log, r.state.log)
      && (r.value.SessionFailed? <==> !ensured.value.0)
      && (r.value.SessionFailed? ==> r.value.reason == ensured.value.1)
      && (r.value.NavigationFailed? <==> ensured.value.0 && !page.value)
      && (r.value.Submitted? ==> OnGatepass(ensured.state.log, page.state.log) && Extends(page.state.log, r.state.log))
      && (Succeeded(r.value) ==>
            && Did(Click(SubmitButton)) in Added(s.log, r.state.log)
            && (r.value.success, r.value.reason) == Classify(BodyAt(r.state.log)))
  {
    var ensured := EnsureRun(w, browser, headless, s, user, pass);
    EnsureRunSpec(w, browser, headless, s, user, pass);
    if ensured.value.0 {
      var r := GatepassAttempt(w, ensured.state, formData);
      GatepassAttemptSpec(w, ensured.state, formData);
      ExtendsTrans(s.log, ensured.state.log, r.state.log);
      if Succeeded(r.value) {
        AddedLater(s.log, ensured.state.log, r.state.log, Did(Click(SubmitButton)));
      }
    }
  }

  /** An attempt on the gatepass page pauses only for one, three and five seconds. */
  lemma FormAttemptPauseFree(w: World, s: State, formData: map<string, string>, seconds: nat)
    requires seconds != 1 && seconds != 3 && seconds != 5
    ensures PauseFree(s.log, FormAttempt(w, s, formData).state.log, seconds)
  {
    var dynamic := ExtractFrom(w, s.log, s.live);
    ExtractPauseFree(w, s.log, s.live, seconds);
    FillRunPauseFree(w, dynamic.log, s.live, Merge(formData, dynamic.value), seconds);
    PauseFreeTrans(s.log, dynamic.log, FillRun(w, dynamic.log, s.live, Merge(formData, dynamic.value)).log, seconds);
  }

  /** An attempt never makes the ten-second retry pause. */
  lemma AttemptPauseFree(w: World, browser: string, headless: bool, s: State, user: Option<string>, pass: Option<string>,
                         formData: map<string, string>)
    ensures PauseFree(s.log, AttemptRun(w, browser, headless, s, user, pass, formData).state.log, RetryPause)
  {
    var ensured := EnsureRun(w, browser, headless, s, user, pass);
    EnsureRunPauseFree(w, browser, headless, s, user, pass, RetryPause);
    if ensured.value.0 {
      var page := GatepassRun(w, ensured.state);
      GatepassRunPauseFree(w, ensured.state, RetryPause);
      PauseFreeTrans(s.log, ensured.state.log, page.state.log, RetryPause);
      if page.value {
        FormAttemptPauseFree(w, page.state, formData, RetryPause);
        PauseFreeTrans(s.log, page.state.log, FormAttempt(w, page.state, formData).state.log, RetryPause);
      }
    }
  }

  /** A log segment without a retry pause counts none. */
  lemma {:induction false} CountNoRetryPause(xs: seq<Exchange>)
    requires forall i :: 0 <= i < |xs| ==> xs[i] != Did(Sleep(RetryPause))
    ensures Count(xs, IsRetryPause) == 0
    decreases |xs|
  {
    if xs != [] {
      CountNoRetryPause(xs[1..]);
    }
  }

  /** The attempt `submit_form` makes from a state, with the given credentials and form data. */
  function Step(w: World, browser: string, headless: bool, user: Option<string>, pass: Option<string>,
                formData: map<string, string>): State -> After<Attempt>
  {
    s => AttemptRun(w, browser, headless, s, user, pass, formData)
  }

  /** Attempts `done + 1` onwards from state `s`, with a pause after each failed attempt but the last. */
  function AttemptsRun(step: State -> After<Attempt>, s: State, maxRetries: int, done: nat): (r: After<seq<Attempt>>)
    requires done < maxRetries
    ensures 1 <= |r.value| <= maxRetries - done
    decreases maxRetries - done
  {
    var a := step(s);
    if Succeeded(a.value) || done + 1 >= maxRetries then After([a.value], a.state)
    else
      var rest := AttemptsRun(step, a.state.(log := a.state.log + [Did(Sleep(RetryPause))]), maxRetries, done + 1);
      After([a.value] + rest.value, rest.state)
  }

  /** One attempt from `s` and, unless it ends them, the attempts after the retry pause. */
  lemma AttemptsRunStep(step: State -> After<Attempt>, s: State, maxRetries: int, done: nat)
    requires done < maxRetries
    ensures var a := step(s); var r := AttemptsRun(step, s, maxRetries, done);
      if Succeeded(a.value) || done + 1 >= maxRetries then r == After([a.value], a.state)
      else r == After([a.value] + AttemptsRun(step, a.state.(log := a.state.log + [Did(Sleep(RetryPause))]), maxRetries, done + 1).value,
                      AttemptsRun(step, a.state.(log := a.state.log + [Did(Sleep(RetryPause))]), maxRetries, done + 1).state)
  {
  }

  /**
   * The attempts start with the attempt from `s`; none but the last succeeds, and without a
   * success they use every attempt left.
   */
  lemma {:induction false} AttemptsRunShape(step: State -> After<Attempt>, s: State, maxRetries: int, done: nat)
    requires done < maxRetries
    ensures var r := AttemptsRun(step, s, maxRetries, done); var n := |r.value|;
      && r.value[0] == step(s).value
      && (forall j :: 0 <= j < n - 1 ==> !Succeeded(r.value[j]))
      && (!Succeeded(r.value[n - 1]) ==> n == maxRetries - done)
    decreases maxRetries - done
  {
    var a := step(s);
    if !(Succeeded(a.value) || done + 1 >= maxRetries) {
      var paused := a.state.(log := a.state.log + [Did(Sleep(RetryPause))]);
      AttemptsRunShape(step, paused, maxRetries, done + 1);
    }
  }

  /** A retry pause after a segment without one, and then a later segment, counts one more than the later one. */
  lemma RetryPauseBetween(first: seq<Exchange>, later: seq<Exchange>)
    requires forall i :: 0 <= i < |first| ==> first[i] != Did(Sleep(RetryPause))
    ensures Count(first + [Did(Sleep(RetryPause))] + later, IsRetryPause) == Count(later, IsRetryPause) + 1
  {
    CountNoRetryPause(first);
    CountAppend(first + [Did(Sleep(RetryPause))], later, IsRetryPause);
    CountAppend(first, [Did(Sleep(RetryPause))], IsRetryPause);
    CountOne(Did(Sleep(RetryPause)), IsRetryPause);
  }

  /**
   * With attempts that never make the retry pause themselves, exactly one ten-second pause falls
   * between consecutive attempts and none after the last.
   */
  lemma {:induction false} AttemptsRunPauses(step: State -> After<Attempt>, s: State, maxRetries: int, done: nat)
    requires done < maxRetries
    requires forall t: State :: PauseFree(t.log, step(t).state.log, RetryPause)
    ensures var r := AttemptsRun(step, s, maxRetries, done);
      && Extends(s.log, r.state.log)
      && Count(Added(s.log, r.state.log), IsRetryPause) == |r.value| - 1
    decreases maxRetries - done
  {
    var a := step(s);
    var first := Added(s.log, a.state.log);
    CountNoRetryPause(first);
    if !(Succeeded(a.value) || done + 1 >= maxRetries) {
      var paused := a.state.(log := a.state.log + [Did(Sleep(RetryPause))]);
      AttemptsRunPauses(step, paused, maxRetries, done + 1);
      var rest := AttemptsRun(step, paused, maxRetries, done + 1);
      ExtendsAppend(a.state.log, [Did(Sleep(RetryPause))]);
      ExtendsTrans(s.log, a.state.log, paused.log);
      ExtendsTrans(s.log, paused.log, rest.state.log);
      var later := Added(paused.log, rest.state.log);
      assert Added(s.log, rest.state.log) == first + [Did(Sleep(RetryPause))] + later by {
        assert rest.state.log == paused.log + later;
        assert paused.log == s.log + first + [Did(Sleep(RetryPause))];
      }
      RetryPauseBetween(first, later);
    }
  }

  /** Every attempt of `submit_form` leaves out the ten-second retry pause. */
  lemma StepPauseFree(w: World, browser: string, headless: bool, user: Option<string>, pass: Option<string>,
                      formData: map<string, string>)
    ensures forall t: State :: PauseFree(t.log, Step(w, browser, headless, user, pass, formData)(t).state.log, RetryPause)
  {
    forall t: State
      ensures PauseFree(t.log, Step(w, browser, headless, user, pass, formData)(t).state.log, RetryPause)
    {
      AttemptPauseFree(w, browser, headless, t, user, pass, formData);
    }
  }

  /**
   * `submit_form` from state `s`, each attempt made by `step`: no attempt for `maxRetries <= 0`,
   * else the attempts and the verdict of the last.
   */
  function SubmitFormRun(step: State -> After<Attempt>, s: State, maxRetries: int): After<(bool, string)>
  {
    if maxRetries <= 0 then After((false, "Maximum retries exceeded"), s)
    else
      var tried := AttemptsRun(step, s, maxRetries, 0);
      After(FinalMessage(tried.value[|tried.value| - 1], maxRetries), tried.state)
  }

  /** Attempts that end in `last` give the verdict of `last`. */
  lemma SubmitFormRunEnds(step: State -> After<Attempt>, s: State, maxRetries: int, history: seq<Attempt>, last: Attempt, t: State)
    requires maxRetries > 0 && AttemptsRun(step, s, maxRetries, 0) == After(history + [last], t)
    ensures SubmitFormRun(step, s, maxRetries) == After(FinalMessage(last, maxRetries), t)
  {
  }

  /**
   * `submit_form` succeeds exactly with "Form submitted successfully", and gives "Maximum retries
   * exceeded", without an exchange, exactly when it may make no attempt.
   */
  lemma SubmitFormRunMessages(step: State -> After<Attempt>, s: State, maxRetries: int)
    ensures var r := SubmitFormRun(step, s, maxRetries);
      && (r.value.0 <==> r.value.1 == "Form submitted successfully")
      && (r.value.1 == "Maximum retries exceeded" <==> maxRetries <= 0)
      && (maxRetries <= 0 ==> r == After((false, "Maximum retries exceeded"), s))
  {
    if maxRetries > 0 {
      var tried := AttemptsRun(step, s, maxRetries, 0);
      FinalMessageSpec(tried.value[|tried.value| - 1], maxRetries);
    } else {
      assert "Maximum retries exceeded"[0] == 'M';
    }
  }

  /**
   * Otherwise `submit_form` makes 1 to `maxRetries` attempts, the first from the state it was
   * called in; none but the last succeeds; a failure uses all of them; the verdict is
   * `FinalMessage` of the last; and, as no attempt pauses for ten seconds itself
   * (`StepPauseFree`), one ten-second pause falls between consecutive attempts and none after
   * the last.
   */
  lemma SubmitFormRunSpec(step: State -> After<Attempt>, s: State, maxRetries: int)
    requires maxRetries > 0
    requires forall t: State :: PauseFree(t.log, step(t).state.log, RetryPause)
    ensures var r := SubmitFormRun(step, s, maxRetries);
      var tried := AttemptsRun(step, s, maxRetries, 0);
      var n := |tried.value|;
      && Extends(s.log, r.state.log)
      && n <= maxRetries
      && tried.value[0] == step(s).value
      && r.value == FinalMessage(tried.value[n - 1], maxRetries)
      && (forall j :: 0 <= j < n - 1 ==> !Succeeded(tried.value[j]))
      && (!r.value.0 ==> n == maxRetries)
      && Count(Added(s.log, r.state.log), IsRetryPause) == n - 1
  {
    AttemptsRunShape(step, s, maxRetries, 0);
    AttemptsRunPauses(step, s, maxRetries, 0);
    var tried := AttemptsRun(step, s, maxRetries, 0);
    FinalMessageSpec(tried.value[|tried.value| - 1], maxRetries);
  }

  // ---------------------------------------------------------------- the access test, as `test_form_access`

  const AccessibleMessage := "Gatepass form is accessible"
  const FormMissingMessage := "Gatepass form not found on page"

  /** How `test_form_access` reads the reply to the submit-button lookup. */
  function AccessVerdict(reply: ElementReply): (bool, string)
  {
    match reply
    case Found(_) => (true, AccessibleMessage)
    case TimedOut => (false, FormMissingMessage)
    case Fault(error) => (false, "Form access test error: " + error)
  }

  /** `test_form_access` from state `s`. */
  function TestAccessRun(w: World, browser: string, headless: bool, s: State, user: Option<string>, pass: Option<string>)
    : After<(bool, string)>
  {
    var ensured := EnsureRun(w, browser, headless, s, user, pass);
    if !ensured.value.0 then ensured
    else
      var page := GatepassRun(w, ensured.state);
      if !page.value then After((false, "Cannot access gatepass page"), page.state)
      else
        var t := page.state;
        var form := FindFrom(w, t.log, t.live, SubmitButton, 10);
        After(AccessVerdict(form.value), t.(log := form.log))
  }

  /** The access verdicts are told apart from each other and from the session failures. */
  lemma AccessMessages(reply: ElementReply, m: string)
    ensures AccessVerdict(reply).0 <==> reply.Found?
    ensures AccessVerdict(reply).0 <==> AccessVerdict(reply).1 == AccessibleMessage
    ensures AccessVerdict(reply).1 == FormMissingMessage <==> reply.TimedOut?
    ensures m in {NoSessionMessage, OtpPendingMessage} || IsPrefix("Login failed: ", m) ==>
      m != AccessibleMessage && m != FormMissingMessage
    ensures "Cannot access gatepass page" != AccessibleMessage && "Cannot access gatepass page" != FormMissingMessage
  {
    assert AccessibleMessage[14] == 'i' && FormMissingMessage[14] == 'n';
    if reply.Fault? {
      assert AccessVerdict(reply).1[0] == 'F';
    }
    if IsPrefix("Login failed: ", m) {
      assert m[0] == 'L';
    }
  }

  /**
   * The form is accessible exactly with "Gatepass form is accessible", and only after a valid
   * session, the gatepass page reached, and a last exchange that found the submit button; the
   * page lacks the form exactly when that lookup timed out. A session failure is passed on as is.
   */
  lemma TestAccessRunSpec(w: World, browser: string, headless: bool, s: State, user: Option<string>, pass: Option<string>)
    ensures var r := TestAccessRun(w, browser, headless, s, user, pass);
      var ensured := EnsureRun(w, browser, headless, s, user, pass);
      && Extends(s.log, r.state.log)
      && (r.value.0 <==> r.value.1 == AccessibleMessage)
      && (!ensured.value.0 ==> r == ensured)
      && (r.value.1 in {AccessibleMessage, FormMissingMessage} ==>
            && ensured.value.0 && GatepassRun(w, ensured.state).value
            && |r.state.log| > |s.log|
            && var last := r.state.log[|r.state.log| - 1];
               last.ElementAwaited? && last.loc == SubmitButton && last.timeout == 10
               && (r.value.0 <==> last.reply.Found?)
               && (r.value.1 == FormMissingMessage <==> last.reply.TimedOut?))
  {
    var ensured := EnsureRun(w, browser, headless, s, user, pass);
    EnsureRunSpec(w, browser, headless, s, user, pass);
    AccessMessages(TimedOut, ensured.value.1);
    if ensured.value.0 {
      var page := GatepassRun(w, ensured.state);
      GatepassRunSpec(w, ensured.state);
      ExtendsTrans(s.log, ensured.state.log, page.state.log);
      if page.value {
        var form := FindFrom(w, page.state.log, page.state.live, SubmitButton, 10);
        AccessMessages(form.value, "");
        assert Extends(page.state.log, form.log);
        ExtendsTrans(s.log, page.state.log, form.log);
      }
    }
  }

  // ---------------------------------------------------------------- the filler

  class FormFiller {
    const session: SessionManager
    var username: Option<string>
    var password: Option<string>

    ghost predicate Valid()
      reads this, session, session.selenium
    {
      session.Valid()
    }

    constructor (config: Settings.Config, port: Port)
      ensures Valid() && fresh(session) && fresh(session.selenium)
      ensures session.selenium.port == port && session.selenium.driver == None
      ensures !session.loggedIn && !session.otpRequired
      ensures username == None && password == None
    {
      session := new SessionManager(config, port);
      username := None;
      password := None;
    }

    /** `set_credentials`. */
    method SetCredentials(user: Option<string>, pass: Option<string>)
      modifies this
      ensures username == user && password == pass
    {
      username := user;
      password := pass;
    }

    /** `_ensure_valid_session` with the stored credentials, as `EnsureRun`. */
    method EnsureValidSession() returns (ok: bool, message: string)
      requires Valid()
      modifies session, session.selenium, session.selenium.port
      ensures Valid()
      ensures After((ok, message), session.Snap())
        == EnsureRun(session.selenium.port.world, session.selenium.BrowserChoice(), session.selenium.config.Headless(),
                     old(session.Snap()), username, password)
    {
      if session.selenium.driver.None? {
        var started := session.StartSession();
        if !started {
          return false, NoSessionMessage;
        }
      }
      var valid := session.CheckSessionValid();
      if valid {
        return true, ValidSessionMessage;
      }
      var success, m := session.Login(username, password);
      if !success {
        return false, "Login failed: " + m;
      }
      if session.otpRequired {
        return false, OtpPendingMessage;
      }
      return true, ValidSessionMessage;
    }

    /** One lookup of `_extract_dynamic_data`, after the lookups answered with `replies` from `log0`. */
    method Lookup(i: nat, data: map<string, Option<string>>, ghost replies: seq<ElementReply>, ghost log0: seq<Exchange>)
      returns (data': map<string, Option<string>>, ghost replies': seq<ElementReply>, stop: bool)
      requires i == |replies| < |ExtractFields| && !Finished(replies)
      requires data == Extraction(replies)
      requires session.selenium.port.log == LookupLog(log0, session.selenium.driver.Some?, replies)
      modifies session.selenium.port
      ensures replies' == replies + [FindFrom(session.selenium.port.world, old(session.selenium.port.log),
                                               session.selenium.driver.Some?, FieldLocator(i), 10).value]
      ensures data' == Extraction(replies')
      ensures stop == Stops(i, replies'[i])
      ensures stop ==> Finished(replies')
      ensures i + 1 < |ExtractFields| ==> (Finished(replies') <==> stop)
      ensures session.selenium.port.log == LookupLog(log0, session.selenium.driver.Some?, replies')
      ensures RepliesFrom(session.selenium.port.world, log0, session.selenium.driver.Some?, replies')
        == RepliesFrom(session.selenium.port.world, log0, session.selenium.driver.Some?, replies)
    {
      var reply := session.selenium.FindElement(FieldLocator(i), 10);
      ExtractionStep(replies, reply);
      data', replies' := data + FieldEntry(i, reply), replies + [reply];
      stop := Stops(i, reply);
    }

    /** `_extract_dynamic_data`, as `ExtractFrom`: the required lookups, then the optional ones. */
    method ExtractDynamicData() returns (data: map<string, Option<string>>)
      modifies session.selenium.port
      ensures Exchanged(data, session.selenium.port.log)
        == ExtractFrom(session.selenium.port.world, old(session.selenium.port.log), session.selenium.driver.Some?)
    {
      ghost var w, log0, live := session.selenium.port.world, session.selenium.port.log, session.selenium.driver.Some?;
      var stop;
      ghost var replies;
      data, replies, stop := ExtractRequired();
      if stop {
        return;
      }
      var i := 3;
      while i < |ExtractFields|
        invariant 3 <= i <= |ExtractFields| && |replies| == i
        invariant data == Extraction(replies)
        invariant i < |ExtractFields| ==> !Finished(replies)
        invariant session.selenium.port.log == LookupLog(log0, live, replies)
        invariant RepliesFrom(w, log0, live, replies) == RepliesFrom(w, log0, live, [])
      {
        data, replies, stop := Lookup(i, data, replies, log0);
        if stop {
          return;
        }
        i := i + 1;
      }
    }

    /** The price, balance and token lookups; `stop` when one of them ends the extraction. */
    method ExtractRequired() returns (data: map<string, Option<string>>, ghost replies: seq<ElementReply>, stop: bool)
      modifies session.selenium.port
      ensures 1 <= |replies| <= 3
      ensures data == Extraction(replies)
      ensures stop == Finished(replies) && (!stop ==> |replies| == 3)
      ensures session.selenium.port.log == LookupLog(old(session.selenium.port.log), session.selenium.driver.Some?, replies)
      ensures RepliesFrom(session.selenium.port.world, old(session.selenium.port.log), session.selenium.driver.Some?, replies)
        == RepliesFrom(session.selenium.port.world, old(session.selenium.port.log), session.selenium.driver.Some?, [])
    {
      ghost var log0 := session.selenium.port.log;
      assert log0 == LookupLog(log0, session.selenium.driver.Some?, []);
      data, replies, stop := Lookup(0, map[], [], log0);
      if !stop {
        data, replies, stop := LookupBalanceAndToken(data, replies, log0);
      }
    }

    /** The balance and token lookups after the price lookup; `stop` when one of them ends the extraction. */
    method LookupBalanceAndToken(data: map<string, Option<string>>, ghost replies: seq<ElementReply>, ghost log0: seq<Exchange>)
      returns (data': map<string, Option<string>>, ghost replies': seq<ElementReply>, stop: bool)
      requires |replies| == 1 && !Finished(replies) && data == Extraction(replies)
      requires session.selenium.port.log == LookupLog(log0, session.selenium.driver.Some?, replies)
      modifies session.selenium.port
      ensures 2 <= |replies'| <= 3
      ensures data' == Extraction(replies')
      ensures stop == Finished(replies') && (!stop ==> |replies'| == 3)
      ensures session.selenium.port.log == LookupLog(log0, session.selenium.driver.Some?, replies')
      ensures RepliesFrom(session.selenium.port.world, log0, session.selenium.driver.Some?, replies')
        == RepliesFrom(session.selenium.port.world, log0, session.selenium.driver.Some?, replies)
    {
      data', replies', stop := Lookup(1, data, replies, log0);
      if !stop {
        data', replies', stop := Lookup(2, data', replies', log0);
      }
    }

    /** A dropdown of `_fill_and_submit_form`, as `ChooseFrom`. */
    method ChooseOption(loc: Locator, value: Option<string>)
      modifies session.selenium.port
      ensures session.selenium.port.log
        == ChooseFrom(session.selenium.port.world, old(session.selenium.port.log), session.selenium.driver.Some?, loc, value)
    {
      var e := session.selenium.WaitForElementRobust(loc, 30);
      if e.Some? && value.Some? {
        var chosen := session.selenium.port.Choose(loc, value.value);
        if chosen {
          session.selenium.HandlePossibleAlerts(5);
        }
      }
    }

    /** A text field of `_fill_and_submit_form`, as `TypeFrom`. */
    method FillField(loc: Locator, value: Option<string>)
      modifies session.selenium.port
      ensures session.selenium.port.log
        == TypeFrom(session.selenium.port.world, old(session.selenium.port.log), session.selenium.driver.Some?, loc, value)
    {
      var e := session.selenium.WaitForElementRobust(loc, 30);
      if e.Some? && value.Some? {
        var filled := session.selenium.port.Fill(loc, value.value);
        if filled {
          session.selenium.HandlePossibleAlerts(5);
        }
      }
    }

    /** `_fill_and_submit_form`, as `FillRun`. */
    method FillAndSubmitForm(data: map<string, Option<string>>) returns (ok: bool, message: string)
      modifies session.selenium.port
      ensures Exchanged((ok, message), session.selenium.port.log)
        == FillRun(session.selenium.port.world, old(session.selenium.port.log), session.selenium.driver.Some?, data)
    {
      var selenium := session.selenium;
      FillFields(data);
      selenium.port.Do(Sleep(3));
      selenium.HandlePossibleAlerts(10);
      var button := selenium.WaitForElementRobust(SubmitButton, 30);
      if button.None? {
        return false, NoButtonMessage;
      }
      ok, message := Submit();
    }

    /** The filling part of `_fill_and_submit_form`, as `FieldsFrom`. */
    method FillFields(data: map<string, Option<string>>)
      modifies session.selenium.port
      ensures session.selenium.port.log
        == FieldsFrom(session.selenium.port.world, old(session.selenium.port.log), session.selenium.driver.Some?, data)
    {
      var selenium := session.selenium;
      selenium.HandlePossibleAlerts(10);
      if "ash_utilization" in data {
        ChooseOption(Locator(ByName, "ash_utilization"), data["ash_utilization"]);
      }
      if "pickup_time" in data {
        ChooseOption(Locator(ByName, "pickup_time"), data["pickup_time"]);
      }
      ghost var pickup := selenium.port.log;
      for i := 0 to |VehicleFields|
        invariant selenium.port.log == VehiclesFrom(selenium.port.world, pickup, selenium.driver.Some?, data, i)
      {
        var (key, field) := VehicleFields[i];
        if key in data {
          FillField(Locator(ByName, field), data[key]);
        }
      }
      if "authorised_person" in data {
        ChooseOption(Locator(ByName, "authorised_person"), data["authorised_person"]);
      }
    }

    /** The submission proper, once the submit button was found, as `ClickRun`. */
    method Submit() returns (ok: bool, message: string)
      requires session.selenium.driver.Some?
      modifies session.selenium.port
      ensures Exchanged((ok, message), session.selenium.port.log)
        == ClickRun(session.selenium.port.world, old(session.selenium.port.log), true)
    {
      var selenium := session.selenium;
      ghost var log0 := selenium.port.log;
      selenium.port.Do(Scroll(SubmitButton));
      selenium.port.Do(Sleep(1));
      assert selenium.port.log == log0 + [Did(Scroll(SubmitButton)), Did(Sleep(1))];
      var _ := selenium.TakeScreenshot("before_submission.png");
      selenium.port.Do(Click(SubmitButton));
      ok, message := ReadOutcome();
    }

    /** After the click of `_fill_and_submit_form`, as `OutcomeRun`, scanning the indicator lists. */
    method ReadOutcome() returns (ok: bool, message: string)
      modifies session.selenium.port
      ensures Exchanged((ok, message), session.selenium.port.log)
        == OutcomeRun(session.selenium.port.world, old(session.selenium.port.log), session.selenium.driver.Some?)
    {
      var selenium := session.selenium;
      selenium.HandlePossibleAlerts(15);
      selenium.port.Do(Sleep(5));
      var _ := selenium.TakeScreenshot("after_submission.png");
      var _ := selenium.GetCurrentUrl();
      var page := selenium.WaitForElementRobust(PageBody, 10);
      var success, failure := false, false;
      if page.Some? {
        var text := Lower(page.value.text);
        success := FindIndicator(text, SuccessIndicators);
        failure := FindIndicator(text, ErrorIndicators);
      }
      if success {
        return true, "Form submitted successfully";
      } else if failure {
        return false, "Form submission failed - check page for details";
      }
      return true, "Form submission completed";
    }

    /** One attempt of `submit_form`, as `AttemptRun`. */
    method RunAttempt(formData: map<string, string>) returns (a: Attempt)
      requires Valid()
      modifies session, session.selenium, session.selenium.port
      ensures Valid()
      ensures After(a, session.Snap())
        == AttemptRun(session.selenium.port.world, session.selenium.BrowserChoice(), session.selenium.config.Headless(),
                      old(session.Snap()), username, password, formData)
    {
      var ready, message := EnsureValidSession();
      if !ready {
        return SessionFailed(message);
      }
      a := AttemptOnGatepass(formData);
    }

    /** An attempt once the session is made sure of, as `GatepassAttempt`. */
    method AttemptOnGatepass(formData: map<string, string>) returns (a: Attempt)
      requires Valid()
      modifies session, session.selenium.port
      ensures Valid()
      ensures After(a, session.Snap()) == GatepassAttempt(session.selenium.port.world, old(session.Snap()), formData)
    {
      var navigated := session.NavigateToGatepass();
      if !navigated {
        return NavigationFailed;
      }
      a := AttemptForm(formData);
    }

    /** An attempt on the gatepass page, as `FormAttempt`. */
    method AttemptForm(formData: map<string, string>) returns (a: Attempt)
      modifies session.selenium.port
      ensures After(a, session.Snap()) == FormAttempt(session.selenium.port.world, old(session.Snap()), formData)
    {
      var dynamic := ExtractDynamicData();
      var success, reason := FillAndSubmitForm(Merge(formData, dynamic));
      return Submitted(success, reason);
    }

    /** The attempt `submit_form` makes with the stored credentials and `formData`. */
    function Attempting(formData: map<string, string>): State -> After<Attempt>
      reads this, session, session.selenium
    {
      Step(session.selenium.port.world, session.selenium.BrowserChoice(), session.selenium.config.Headless(),
           username, password, formData)
    }

    /** Attempt number `retry + 1` of `submit_form`, with the retry pause after it unless it ends the attempts. */
    method Retry(formData: map<string, string>, maxRetries: int, retry: nat) returns (a: Attempt)
      requires Valid() && retry < maxRetries
      modifies session, session.selenium, session.selenium.port
      ensures Valid() && Attempting(formData) == old(Attempting(formData))
      ensures var whole := AttemptsRun(Attempting(formData), old(session.Snap()), maxRetries, retry);
        if Succeeded(a) || retry + 1 >= maxRetries then whole == After([a], session.Snap())
        else
          var rest := AttemptsRun(Attempting(formData), session.Snap(), maxRetries, retry + 1);
          whole == After([a] + rest.value, rest.state)
    {
      ghost var before := session.Snap();
      AttemptsRunStep(Attempting(formData), before, maxRetries, retry);
      a := RunAttempt(formData);
      assert Attempting(formData)(before) == After(a, session.Snap());
      if !(Succeeded(a) || retry + 1 >= maxRetries) {
        session.selenium.port.Do(Sleep(RetryPause));
      }
    }

    /** `submit_form`, as `SubmitFormRun`: at most `maxRetries` attempts with a pause after each failed one but the last. */
    method SubmitForm(formData: map<string, string>, maxRetries: int) returns (ok: bool, message: string)
      requires Valid()
      modifies session, session.selenium, session.selenium.port
      ensures Valid()
      ensures After((ok, message), session.Snap()) == SubmitFormRun(old(Attempting(formData)), old(session.Snap()), maxRetries)
    {
      ghost var step := Attempting(formData);
      ghost var s0 := session.Snap();
      ghost var history: seq<Attempt> := [];
      var retry := 0;
      if retry < maxRetries {
        var all := AttemptsRun(step, s0, maxRetries, 0);
        assert history + all.value == all.value;
      }
      while retry < maxRetries
        invariant Valid() && Attempting(formData) == step
        invariant retry == |history| && (retry == 0 || retry < maxRetries)
        invariant retry == 0 ==> session.Snap() == s0
        invariant retry < maxRetries ==>
          var rest := AttemptsRun(step, session.Snap(), maxRetries, retry);
          AttemptsRun(step, s0, maxRetries, 0) == After(history + rest.value, rest.state)
        decreases maxRetries - retry
      {
        ghost var done := history;
        var a := Retry(formData, maxRetries, retry);
        history := history + [a];
        retry := retry + 1;
        if Succeeded(a) || retry >= maxRetries {
          SubmitFormRunEnds(step, s0, maxRetries, done, a, session.Snap());
          return FinalMessage(a, maxRetries).0, FinalMessage(a, maxRetries).1;
        }
        ghost var rest := AttemptsRun(step, session.Snap(), maxRetries, retry);
        assert done + ([a] + rest.value) == history + rest.value;
      }
      return false, "Maximum retries exceeded";
    }

    /** `cleanup`: stops the session, as `stop_session`. */
    method Cleanup()
      requires Valid()
      modifies session, session.selenium, session.selenium.port
      ensures Valid()
      ensures var stop := StopFrom(session.selenium.port.world, old(session.selenium.port.log), old(session.selenium.driver).Some?);
        session.Snap() == old(session.Snap()).(live := stop.value, loggedIn := false, log := stop.log)
    {
      session.StopSession();
    }

    /** `test_form_access` with the stored credentials, as `TestAccessRun`. */
    method TestFormAccess() returns (ok: bool, message: string)
      requires Valid()
      modifies session, session.selenium, session.selenium.port
      ensures Valid()
      ensures After((ok, message), session.Snap())
        == TestAccessRun(session.selenium.port.world, session.selenium.BrowserChoice(), session.selenium.config.Headless(),
                         old(session.Snap()), username, password)
    {
      ok, message := EnsureValidSession();
      if !ok {
        return;
      }
      var navigated := session.NavigateToGatepass();
      if !navigated {
        return false, "Cannot access gatepass page";
      }
      var reply := session.selenium.FindElement(SubmitButton, 10);
      ok, message := AccessVerdict(reply).0, AccessVerdict(reply).1;
    }
  }
}
