# KPCL gatepass automation: a verified model of its decision core

The KPCL gatepass automation signs in to the KPCL ash-management portal every morning and
submits a fly-ash gatepass form. It does this through a Selenium-driven browser. This project
models the sequential logic underneath the browser glue, in Dafny:

- **Scheduler** (`scheduler.dfy`): parsing the configured `H:M[:S]` time of day with its
  07:00:01 fallback; the guarded `running` flag of `start`/`stop`; the status report; and the
  bounded retry loop of a scheduled run. A run is modelled as the ordered stream of emitted
  events, `submit_form` calls, pauses and cleanup.
- **Forms** (`form_filler.dfy`): the `submit_form` retry loop with its three failure exits; the
  session precondition; the extraction of dynamic page data with defaults; the merge in which
  dynamic values win; and the success/error page classifier.
- **Session** (`session_manager.dfy`): the `SessionManager` flags `logged_in` / `otp_required`
  and how `login`, `verify_otp`, `check_session_valid`, `navigate_to_gatepass`,
  `refresh_session`, `close_session`, `stop_session` and `logout` move them. The moves depend
  on substring tests on URLs, alert texts and status texts.
- **Selenium** (`selenium_handler.dfy`): the three-try `start_driver` loop; `stop_driver`;
  `navigate_to`; `find_element`; the result mapping of `handle_alert`; and the
  "dialog-prone" rule of `wait_for_element_robust`.
- **Logger** (`logger.dfy`): the activity and automation-step message builders, the
  case-insensitive level dispatch, and the tail-50 / strip / drop-empty filter of
  `get_log_summary`.

The browser is replaced by an interaction port (`browser.dfy`, class `Browser.Port`). Every
request the code makes is appended to `port.log` together with the reply. The reply comes from
a `World` value the port holds: functions from the exchanges so far to the page's answer (an
element found, timed out or failing; the current URL; an alert's text; whether a page loaded;
whether loading cookies or quitting the driver raised). Pauses (`time.sleep`) are exchanges too.
Each operation of the handler, the session manager and the form filler is stated twice: as a
function of the world and the state before the call (the driver, the two session flags and the
log) that gives the result and the state after it (`CheckRun`, `LoginRun`, `VerifyRun`,
`SubmitFormRun`, …), and as the class method whose contract says its result and new state are
exactly that function's. The lemmas beside each function state which requests it makes, in
which order, and what it concludes from the answers. `strings.dfy` holds the Python string
semantics the source relies on: `in`, `lower`/`upper` on ASCII, `strip`, `split`, `int()` and
zero-padded formatting. `settings.dfy` holds the configuration dictionary with the defaults of
its `config.get` calls.

## Model

| member | source | states |
|---|---|---|
| Scheduler.ParseScheduleTime | automation/scheduler.py:62-73 | the result is always a valid time of day (hour < 24, minute < 60, second < 60) |
| Scheduler.ParseThreeFields | automation/scheduler.py:65-70 | `"H:M:S"` with integer fields gives exactly (H, M, S) when in range, else 07:00:01 |
| Scheduler.ParseTwoFields | automation/scheduler.py:65-70 | `"H:M"` gives (H, M, 0) when in range, else 07:00:01 |
| Scheduler.ParseWithoutColon | automation/scheduler.py:65-73 | text with fewer than two fields falls back to 07:00:01 |
| Scheduler.ParseBadHour | automation/scheduler.py:64-73 | a non-integer hour field gives 07:00:01 whatever follows |
| Scheduler.ParseTimeText | automation/scheduler.py:62-73 | parsing the printed form `HH:MM:SS` of a valid time gives the same time back |
| Scheduler.DefaultTextParses | automation/scheduler.py:39-41 | the default configuration text `07:00:01` denotes the fallback time |
| Scheduler.LoopSpec | automation/scheduler.py:177-237 | from any attempt count: attempts are made in increasing order, at most `max_retries` of them; the loop stops at the first success; without a success it runs to `max_retries`; the steps are exactly the per-attempt blocks |
| Scheduler.RunSpec | automation/scheduler.py:157-264 | a run calls `submit_form` at most `max_retries` times; it succeeds iff the last attempt succeeded, and no earlier attempt did; a failure uses all attempts; the steps are start event, attempt blocks, then final failure (reporting `max_retries`) only if nothing succeeded, cleanup and a completion event carrying the loop counter |
| Scheduler.BlocksCounts | automation/scheduler.py:180-237 | attempts lo+1..hi make one call each and pause once per failed attempt before `max_retries` |
| Scheduler.RunPauses | automation/scheduler.py:180-237 | a run calls `submit_form` once per attempt and pauses exactly one time fewer: never after a success or the last attempt |
| Scheduler.RunAutomation | automation/scheduler.py:157-264 | the imperative `while attempt < max_retries and not success` loop produces exactly the outcome and step stream of `Run` |
| Scheduler.AutomationScheduler.constructor | automation/scheduler.py:19-60 | not running, no job, no credentials; the schedule time is the parsed configured time; the form data is the file's, else the nine default fields |
| Scheduler.AutomationScheduler.SetCredentials | automation/scheduler.py:75-78 | stores both credentials and changes nothing else |
| Scheduler.AutomationScheduler.Status | automation/scheduler.py:381-388 | `credentials_set` holds iff both username and password are present and non-empty; the reported schedule text parses back to the schedule time |
| Scheduler.AutomationScheduler.Start | automation/scheduler.py:80-122 | already running: returns true and changes nothing; without both credentials: returns false and changes nothing; otherwise registers the job at the schedule time, starts the engine, emits one running status event; returns true iff running afterwards |
| Scheduler.AutomationScheduler.Stop | automation/scheduler.py:124-141 | always leaves the scheduler and its engine not running and emits one stopped status event |
| Scheduler.AutomationScheduler.UpdateSchedule | automation/scheduler.py:343-379 | the schedule time becomes the parse of the new text; a running scheduler re-registers its job at that time and emits a status event; a stopped one changes nothing else |
| Forms.FieldEntry | automation/form_filler.py:170-203 | one lookup adds at most the entry of the input it looked up |
| Forms.ExtractionStep | automation/form_filler.py:166-208 | one more lookup extends the data by its own entry and the exchanges by its own request |
| Forms.FieldsDistinct | automation/form_filler.py:172-194 | the six page inputs read are distinct names |
| Forms.ExtractionKeys | automation/form_filler.py:166-208 | the extracted data has no key other than inputs that were looked up |
| Forms.ExtractionAt | automation/form_filler.py:166-208 | the entry of input i is the one its own lookup produced |
| Forms.ExtractionEntries | automation/form_filler.py:166-208 | both facts above for every input looked up |
| Forms.AshPriceDefault | automation/form_filler.py:172-176 | a found price input gives its value, or "150" when the value is empty or missing |
| Forms.BalanceDefault | automation/form_filler.py:179-183 | a found balance input gives its value, or "0" when the value is empty or missing |
| Forms.OptionalFieldsNonEmpty | automation/form_filler.py:192-203 | an optional field is in the data iff its input was found with a non-empty value, and then holds that value |
| Forms.Merge | automation/form_filler.py:107 | the merged keys are the union of both; every dynamic key takes its dynamic value; every static key absent from the dynamic data keeps its static value |
| Forms.FillKeysKeepStaticValues | automation/form_filler.py:107-279 | every key the form filling reads keeps the caller's value after the merge, whatever was extracted |
| Forms.FillKeysNotExtracted | automation/form_filler.py:172-279 | no key the form filling reads is the name of an extracted page input |
| Forms.ClassifySpec | automation/form_filler.py:317-352 | the page fails iff an error indicator and no success indicator occurs in the lower-cased text; any success indicator gives "Form submitted successfully" even with an error indicator; capitals do not matter; no body reads as success |
| Forms.ExhaustedGatepassReadsAsSuccess | automation/form_filler.py:325-337 | the page text "Gatepass exhausted" reads as a successful submission because "gatepass" is a success indicator |
| Forms.FindIndicator | automation/form_filler.py:333-343 | the scan with early exit finds an indicator iff one occurs in the text |
| Forms.FinalMessageSpec | automation/form_filler.py:84-124 | an attempt reads as success iff its submission succeeded, iff the message is "Form submitted successfully"; no attempt gives "Maximum retries exceeded" |
| Forms.FinalMessageExits | automation/form_filler.py:84-124 | the three failure exits are told apart by their messages: "Session setup failed: …", "Failed to navigate to gatepass page", "Form submission failed after N attempts: …" |
| Forms.EnsureMessages | automation/form_filler.py:139-164 | the outcomes "Session is valid", "Failed to start browser session", the OTP-pending report and "Login failed: …" are pairwise distinct |
| Forms.OtpSentIsNoStop | automation/session_manager.py:108-189 | the OTP-sent message is not one of the messages of a login that stopped before the Generate OTP click |
| Forms.EnsureRunSpec | automation/form_filler.py:139-164 | the session precondition succeeds iff "Session is valid", and then only after a started driver and a passed session check, in the state that check left; "Failed to start browser session" iff the start failed; the OTP-pending report only with the OTP flag set, a live driver and a Generate OTP click among the exchanges; every failure is one of the three failure messages |
| Forms.EnsureRunPauseFree | automation/form_filler.py:139-164 | the session precondition makes no pause other than the two-second pauses of its callees |
| Forms.RepliesFromEnds | automation/form_filler.py:166-208 | the lookups of the extraction run until the first that ends it (a fault or an empty token) or all six; without a driver exactly one more lookup is made |
| Forms.RepliesFromAnswer | automation/form_filler.py:170-203 | every reply of the extraction is the browser's answer to a ten-second wait for that input after the lookups before it |
| Forms.ExtractFromSpec | automation/form_filler.py:166-208 | 1 to 6 lookups are made in order, each the browser's answer after the ones before it; none but the last ends extraction, and fewer than six means the last did; the data is `Extraction` of the replies; with a driver the exchanges are exactly those waits, without one nothing is exchanged |
| Forms.ExtractPauseFree | automation/form_filler.py:166-208 | the extraction never pauses |
| Forms.OutcomeRunSpec | automation/form_filler.py:304-352 | after the alert check, the pause, the screenshot and the URL read, the verdict is the classification of the page body read last |
| Forms.ClickRunSpec | automation/form_filler.py:289-352 | a found submit button is clicked and the verdict is the classification of the page body read afterwards |
| Forms.ClassifyMessages | automation/form_filler.py:317-354 | no classification of a page reads "Submit button not found" |
| Forms.FillRunSpec | automation/form_filler.py:210-354 | "Submit button not found" fails, after a failure screenshot when a driver is held; any other verdict comes from a click on the submit button and the classification of the body read afterwards; without a driver the result is the missing-button failure |
| Forms.FillRunPauseFree | automation/form_filler.py:210-354 | filling and submitting pauses only for one, three or five seconds |
| Forms.FormAttemptSpec | automation/form_filler.py:102-124 | on the gatepass page an attempt always submits, changes only the exchanges, and succeeds only with a submit click and a successful classification of the body read last |
| Forms.GatepassAttemptSpec | automation/form_filler.py:92-124 | navigation fails iff `navigate_to_gatepass` returns false; a submission follows only once on the gatepass page; success needs the submit click and a successful classification |
| Forms.AttemptRunSpec | automation/form_filler.py:83-124 | one attempt fails its session step iff the precondition fails, with its message; fails navigation iff the precondition held and navigation failed; otherwise submits on the gatepass page; success needs the submit click and a successful classification |
| Forms.AttemptPauseFree | automation/form_filler.py:83-124 | one attempt never makes the ten-second retry pause |
| Forms.AttemptsRunShape | automation/form_filler.py:75-124 | the first attempt is made from the starting state; no attempt before the last succeeded; a run without success makes all `max_retries` attempts |
| Forms.AttemptsRunPauses | automation/form_filler.py:75-132 | when one attempt never makes the retry pause, a run of n attempts makes exactly n-1 ten-second pauses |
| Forms.StepPauseFree | automation/form_filler.py:83-124 | the attempt of `submit_form` never makes the retry pause, whatever state it starts from |
| Forms.SubmitFormRunMessages | automation/form_filler.py:62-137 | success iff "Form submitted successfully"; "Maximum retries exceeded" iff `max_retries <= 0`, and then with no exchange |
| Forms.SubmitFormRunSpec | automation/form_filler.py:75-124 | with `max_retries > 0`: at most `max_retries` attempts, the first from the starting state; the result is the final message of the last attempt; no earlier attempt succeeded; a failure uses every attempt; exactly one ten-second pause between consecutive attempts |
| Forms.AccessMessages | automation/form_filler.py:372-396 | the access test succeeds iff the form was found, iff "Gatepass form is accessible"; "Gatepass form not found on page" iff the wait timed out; no session failure and not "Cannot access gatepass page" reads as either |
| Forms.TestAccessRunSpec | automation/form_filler.py:372-396 | a failed precondition is returned as it is; the two form verdicts come only after the precondition and navigation succeeded, from the last exchange, a wait for the submit button: accessible iff found, not found iff timed out |
| Forms.FormFiller.constructor | automation/form_filler.py:19-32 | a fresh session manager with no driver and both flags false; no credentials |
| Forms.FormFiller.SetCredentials | automation/form_filler.py:46-49 | stores both credentials |
| Forms.FormFiller.EnsureValidSession | automation/form_filler.py:139-164 | the result and the new session state and exchanges are `EnsureRun` of the state before |
| Forms.FormFiller.Lookup | automation/form_filler.py:170-190 | one lookup appends the browser's answer to its wait, extends the data by that input's entry, and reports whether it ends the extraction |
| Forms.FormFiller.ExtractDynamicData | automation/form_filler.py:166-208 | the data and the exchanges are `ExtractFrom` of the log before |
| Forms.FormFiller.ExtractRequired | automation/form_filler.py:170-190 | the price, balance and token lookups, stopping at the first that ends extraction, as `RepliesFrom` describes |
| Forms.FormFiller.LookupBalanceAndToken | automation/form_filler.py:178-190 | the balance and token lookups after the price, stopping at the first that ends extraction |
| Forms.FormFiller.ChooseOption | automation/form_filler.py:218-279 | the exchanges of one select field are `ChooseFrom` |
| Forms.FormFiller.FillField | automation/form_filler.py:218-279 | the exchanges of one text field are `TypeFrom` |
| Forms.FormFiller.FillFields | automation/form_filler.py:218-279 | the exchanges of all fields, in the source's order, are `FieldsFrom` |
| Forms.FormFiller.FillAndSubmitForm | automation/form_filler.py:210-362 | the verdict and exchanges are `FillRun` of the log before |
| Forms.FormFiller.Submit | automation/form_filler.py:289-352 | with a driver, the verdict and exchanges are `ClickRun` |
| Forms.FormFiller.ReadOutcome | automation/form_filler.py:304-352 | the verdict and exchanges are `OutcomeRun` |
| Forms.FormFiller.RunAttempt | automation/form_filler.py:83-124 | the attempt and the new session state and exchanges are `AttemptRun` of the state before |
| Forms.FormFiller.AttemptOnGatepass | automation/form_filler.py:92-124 | the attempt after a valid session is `GatepassAttempt` |
| Forms.FormFiller.AttemptForm | automation/form_filler.py:102-124 | the attempt on the gatepass page is `FormAttempt` |
| Forms.FormFiller.Retry | automation/form_filler.py:75-132 | one turn of the retry loop is the head of `AttemptsRun`: it ends after a success or the last attempt, and otherwise pauses ten seconds before the rest of the run |
| Forms.FormFiller.SubmitForm | automation/form_filler.py:62-137 | the verdict and the new session state and exchanges are `SubmitFormRun` of the attempt step from the state before |
| Forms.FormFiller.Cleanup | automation/form_filler.py:364-370 | the driver is quit as `StopFrom` decides and the session is marked signed out |
| Forms.FormFiller.TestFormAccess | automation/form_filler.py:372-396 | the verdict and the new session state and exchanges are `TestAccessRun` of the state before |
| Session.SentToSignInIsLoginLike | automation/session_manager.py:340-352 | a redirect to sign in after loading the dashboard is also a login-like URL |
| Session.InvalidSessionIgnoresCase | automation/session_manager.py:354-358 | the "invalid session" alert test ignores capitalisation |
| Session.CheckVerdictSpec | automation/session_manager.py:325-364 | a login-like first URL gives invalid without signing out; after the dashboard, a sign-in URL or an "invalid session" alert gives invalid and signs out; valid iff none of these |
| Session.LoginVerdictSpec | automation/session_manager.py:173-198 | after the Generate OTP click, success iff the OTP section is displayed, iff the message is the OTP-sent message; a non-empty status text becomes "Login failed: " + text |
| Session.StatusVerdictSpec | automation/session_manager.py:289-314 | "verified successfully" wins over "invalid"/"expired"; failure iff one of these occurs without it; capitals do not matter |
| Session.PollBounded | automation/session_manager.py:244-251 | the redirect poll reads the URL at most ten times and waits at most ten times |
| Session.PollStep | automation/session_manager.py:246-251 | outside the signed-in area the poll waits one second and reads again |
| Session.PollStopsOnArrival | automation/session_manager.py:247-250 | reaching the dashboard or user area ends the poll with no further wait |
| Session.StopMessageSpec | automation/session_manager.py:108-168 | every stop of a login before the Generate OTP click has one of the listed messages, never the OTP-sent one |
| Session.StatusRejection | automation/session_manager.py:304-305 | a rejected OTP's message starts with "OTP verification failed: " |
| Session.CheckRunSpec | automation/session_manager.py:325-364 | no driver: false with no exchange and no change; otherwise the first exchange reads the URL, the verdict is `CheckVerdict` of the URL read first, the URL read after the dashboard load and the alert, signing out exactly when that verdict does; a valid session took all seven exchanges, the third a load of the dashboard; the driver and the OTP flag are unchanged |
| Session.CheckRunSteps | automation/session_manager.py:332-360 | with a driver, the session check begins with a URL read, and a valid verdict comes after exactly seven exchanges whose third loads the dashboard |
| Session.CheckRunVerdict | automation/session_manager.py:336-360 | with a driver, the session check's result and sign-out follow `CheckVerdict` of the URLs and alert actually read |
| Session.CheckRunPauseFree | automation/session_manager.py:325-364 | the session check pauses only for two seconds |
| Session.StartRunSpec | automation/session_manager.py:59-82 | the driver is live iff `start_driver` started it; the start succeeds iff the driver started and loading the cookies did not raise; it signs in only on success with restored cookies and never sets the OTP flag; a failure leaves both flags as they were |
| Session.StartRunPauseFree | automation/session_manager.py:59-82 | starting a session pauses only for two seconds |
| Session.FieldRunSpec | automation/session_manager.py:122-159 | one credential field either stops with its own missing-element message (after a failure screenshot when a driver is held), stops on a `None` credential, or ends by typing the credential into that field |
| Session.SecretRunSpec | automation/session_manager.py:143-176 | the password step stops only with the password-field, credential or Generate OTP button messages; passing it types the password and ends with the Generate OTP click |
| Session.CredentialsRunSpec | automation/session_manager.py:113-176 | entering credentials never reports a missing browser; a failed load of the login page stops with its message; a `None` credential stops only when one is `None`; each missing element stops after a screenshot of that element's failure |
| Session.CredentialsRunThrough | automation/session_manager.py:113-176 | passing every credential step needs a driver and both credentials, types both into their fields and ends with the Generate OTP click |
| Session.AwaitOtpRunSpec | automation/session_manager.py:178-198 | success iff the OTP-sent message iff the third exchange, a 45-second wait for the OTP section, found it displayed; a failure with a driver reads the status element last and reports `LoginVerdict` of it |
| Session.RequestOtpSpec | automation/session_manager.py:113-198 | with the driver ready, a login sets the OTP flag exactly on success, which needs a driver and both credentials; every message outside the early stops follows a Generate OTP click; the driver and the sign-in flag are unchanged |
| Session.LoginRunSpec | automation/session_manager.py:93-202 | success iff the OTP-sent message, and then the OTP flag is set with a live driver and both credentials; a failure never sets the flag; with a driver held the driver and sign-in flag are kept and a failure keeps the OTP flag; a failed start gives the no-browser stop; messages outside the early stops follow the Generate OTP click |
| Session.LoginRunPauseFree | automation/session_manager.py:93-202 | a login pauses only for two seconds |
| Session.SubmitOtpRunSpec | automation/session_manager.py:218-241 | unless the OTP field was missing, a driver is held and the code was typed into the OTP field; passing the step clicks Verify OTP |
| Session.ConfirmRunSpec | automation/session_manager.py:263-279 | the Sign In step arrives only with a driver, after a Sign In click, with a last URL read in the signed-in area |
| Session.StatusRunSpec | automation/session_manager.py:289-314 | a verified status signs in, clears the OTP flag and saves the cookies last; a rejected one changes nothing but the exchanges and starts with "OTP verification failed: " |
| Session.FallbackSpec | automation/session_manager.py:263-314 | outside the signed-in area: success signs in, clears the OTP flag and saves the cookies last; failure keeps both flags and is a rejected OTP |
| Session.LandingSpec | automation/session_manager.py:253-314 | after the redirect poll: success signs in, clears the OTP flag and ends with a signed-in URL read or saved cookies; failure keeps both flags and is a rejected OTP |
| Session.VerifyRunSpec | automation/session_manager.py:204-314 | without a pending OTP: (False, "OTP not required") and no change; success signs in, clears the OTP flag and ends with the sign-in confirmed; failure keeps both flags; unless the OTP field was missing the code was typed; each failure is a missing field, a missing Verify button, or a rejected OTP |
| Session.GatepassPageSpec | automation/session_manager.py:419-441 | the gatepass step can only sign out; success means the gatepass page loaded, no invalid-session alert followed and the last URL read contains "gatepass" |
| Session.GatepassRunSpec | automation/session_manager.py:406-445 | `navigate_to_gatepass` succeeds only after a valid session check and with the gatepass page reached as above; it can only sign out and keeps the driver and the OTP flag |
| Session.GatepassRunPauseFree | automation/session_manager.py:406-445 | navigating to the gatepass page pauses only for two or three seconds |
| Session.ReloadMessageSpec | automation/session_manager.py:386-400 | "Session refreshed successfully" and "Session expired" each name exactly one outcome of the reload |
| Session.ReloadStepSpec | automation/session_manager.py:386-400 | the reload changes only the exchanges; it refreshes only with a last URL read containing "gatepass", and expires iff its last exchange is an invalid-session alert |
| Session.ReloadRunSpec | automation/session_manager.py:386-400 | the reload succeeds iff "Session refreshed successfully", only with a last URL containing "gatepass"; "Session expired" iff the last exchange is an invalid-session alert |
| Session.ReloginSpec | automation/session_manager.py:374-383 | a re-login always fails, with "OTP required for re-login" or "Re-login failed: …" |
| Session.ReloginMessages | automation/session_manager.py:374-398 | no re-login message reads as "Session refreshed successfully" |
| Session.RefreshRunSpec | automation/session_manager.py:366-404 | success iff "Session refreshed successfully", only after a valid session check and with a last URL containing "gatepass"; an invalid session fails with a re-login message; after a valid check only the exchanges change and "Session expired" iff the last exchange is an invalid-session alert |
| Session.SessionManager.constructor | automation/session_manager.py:39-57 | a fresh handler with no driver; no credentials; both flags false |
| Session.SessionManager.CheckSessionValid | automation/session_manager.py:325-364 | the verdict and the new state and exchanges are `CheckRun` of the state before; credentials unchanged |
| Session.SessionManager.StartSession | automation/session_manager.py:59-82 | the result and the new state and exchanges are `StartRun` of the state before |
| Session.SessionManager.StopSession | automation/session_manager.py:84-91 | the driver is quit as `StopFrom` decides, the session is signed out and the OTP flag is unchanged |
| Session.SessionManager.CloseSession | automation/session_manager.py:447-456 | the driver is quit as `StopFrom` decides and both flags are false |
| Session.SessionManager.Logout | automation/session_manager.py:480-492 | always signed out; with a driver the logout page is visited and a two-second pause follows; without one nothing is exchanged |
| Session.SessionManager.TypeInto | automation/session_manager.py:134-157 | the field is cleared, and typing succeeds iff the credential is present |
| Session.SessionManager.Login | automation/session_manager.py:93-202 | stores the credentials; the verdict and the new state and exchanges are `LoginRun` of the state before |
| Session.SessionManager.RequestOtpWith | automation/session_manager.py:113-198 | with the driver ready, the verdict, state and exchanges are `RequestOtp` |
| Session.SessionManager.EnterCredentials | automation/session_manager.py:113-176 | the stop and the exchanges are `CredentialsRun` of the log before |
| Session.SessionManager.EnterSecret | automation/session_manager.py:143-176 | the stop and the exchanges are `SecretRun` |
| Session.SessionManager.EnterField | automation/session_manager.py:122-138 | the stop and the exchanges are `FieldRun` |
| Session.SessionManager.AwaitOtp | automation/session_manager.py:178-198 | the verdict and exchanges are `AwaitOtpRun`; the OTP flag is set exactly on success |
| Session.SessionManager.VerifyOtp | automation/session_manager.py:204-319 | the verdict and the new state and exchanges are `VerifyRun` of the state before |
| Session.SessionManager.SubmitOtp | automation/session_manager.py:218-241 | the stop and exchanges are `SubmitOtpRun` |
| Session.SessionManager.AwaitRedirect | automation/session_manager.py:244-251 | the loop makes exactly the exchanges `PollFrom` describes |
| Session.SessionManager.Land | automation/session_manager.py:253-314 | the verdict, state and exchanges are `Landing` |
| Session.SessionManager.FallBack | automation/session_manager.py:263-314 | the verdict, state and exchanges are `Fallback` |
| Session.SessionManager.ReadStatus | automation/session_manager.py:289-314 | the verdict, state and exchanges are `StatusRun` |
| Session.SessionManager.ConfirmSignIn | automation/session_manager.py:263-279 | arrival and exchanges are `ConfirmRun` |
| Session.SessionManager.NavigateToGatepass | automation/session_manager.py:406-445 | the verdict and the new state and exchanges are `GatepassRun` of the state before |
| Session.SessionManager.OpenGatepass | automation/session_manager.py:419-441 | the verdict, state and exchanges are `GatepassPage` |
| Session.SessionManager.RefreshSession | automation/session_manager.py:366-404 | the verdict and the new state and exchanges are `RefreshRun` of the state before |
| Session.SessionManager.Reload | automation/session_manager.py:386-400 | the verdict, state and exchanges are `ReloadRun` |
| Selenium.CountAppend | automation/selenium_handler.py:38-85 | counting exchanges distributes over concatenation |
| Selenium.StartFromUnfold | automation/selenium_handler.py:38-85 | one try: a started driver ends the loop, a failed third try ends it, otherwise the next try follows |
| Selenium.TryCounts | automation/selenium_handler.py:40-82 | one try creates a driver only for a supported browser, and pauses only after a failure that is not the last |
| Selenium.StartFromTries | automation/selenium_handler.py:38-85 | `start_driver` succeeds iff some try within three starts a driver; it stops at the first success |
| Selenium.StartFromCounts | automation/selenium_handler.py:38-85 | at most three creation attempts, and a pause only between failed tries |
| Selenium.StartFromStep | automation/selenium_handler.py:73-82 | a failed non-final try adds its exchanges and hands over to the next try |
| Selenium.StartPauseFree | automation/selenium_handler.py:38-85 | `start_driver` pauses only for two seconds |
| Selenium.AlertResultSpec | automation/selenium_handler.py:349-384 | text comes back only from a shown alert (its own text) or a successful forced accept ("Alert dismissed (forced)"); a timeout, no alert or a failed forced accept give none |
| Selenium.BtnAt | automation/selenium_handler.py:408 | an id with "btn" anywhere, in any case, is dialog-prone |
| Selenium.SignInButtonsDialogProne | automation/selenium_handler.py:408 | the Generate OTP, Verify OTP and Sign In buttons are dialog-prone |
| Selenium.NamesNotDialogProne | automation/selenium_handler.py:408 | no locator by name is dialog-prone |
| Selenium.NoLetterB | automation/selenium_handler.py:408 | an id without the letter b is never dialog-prone |
| Selenium.DialogProneIgnoresCase | automation/selenium_handler.py:408 | capitals do not matter to the dialog-prone test |
| Selenium.DirNameEmpty | automation/selenium_handler.py:322 | a path has an empty directory part iff it has no slash |
| Selenium.BareScreenshotsLost | automation/selenium_handler.py:315-329 | as written, a bare file name is never saved; as intended it is |
| Selenium.ScreenshotWithDirectory | automation/selenium_handler.py:315-329 | with a directory part, the as-written and intended behaviours agree |
| Selenium.RobustFromSpec | automation/selenium_handler.py:397-417 | a robust wait has the shape described above, and finds an element iff a driver is held and the browser shows the element after the first alert check |
| Selenium.RobustPauseFree | automation/selenium_handler.py:397-417 | a robust wait never pauses |
| Selenium.HandlerPauseFree | automation/selenium_handler.py:178-448 | loading a page, reading the URL, finding an element, checking for an alert, taking a screenshot and stopping the driver never pause |
| Selenium.SeleniumHandler.constructor | automation/selenium_handler.py:25-34 | no driver and no wait |
| Selenium.SeleniumHandler.StartDriver | automation/selenium_handler.py:36-85 | the result and exchanges are `StartFrom` from the first try; on success the driver is the configured lower-cased browser with a 30-second explicit wait; on failure there is no driver and the wait is unchanged |
| Selenium.SeleniumHandler.TryStart | automation/selenium_handler.py:40-82 | one try makes exactly `TryExchanges` and starts iff a supported browser was created; a failure leaves no driver |
| Selenium.SeleniumHandler.StopDriver | automation/selenium_handler.py:178-187 | a live driver is asked to quit; if quitting succeeds driver and wait are cleared, if it raises both are kept; without a driver nothing happens; as `StopFrom` |
| Selenium.SeleniumHandler.NavigateTo | automation/selenium_handler.py:189-201 | false without a driver, with no exchange; else whether the page loaded |
| Selenium.SeleniumHandler.GetCurrentUrl | automation/selenium_handler.py:442-448 | none without a driver; else the world's current URL, read once |
| Selenium.SeleniumHandler.FindElement | automation/selenium_handler.py:203-211 | a fault without a driver; else the world's answer to one wait for the locator |
| Selenium.SeleniumHandler.HandleAlert | automation/selenium_handler.py:349-384 | none without a driver; else `AlertResult` of the world's reply to one alert wait |
| Selenium.SeleniumHandler.HandlePossibleAlerts | automation/selenium_handler.py:386-395 | one alert check of the given timeout, outcome only logged |
| Selenium.SeleniumHandler.TakeScreenshot | automation/selenium_handler.py:315-329 | the saved name is `ScreenshotIntended`: the file name with a live driver, else none |
| Selenium.SeleniumHandler.WaitForElementRobust | automation/selenium_handler.py:397-417 | the element and exchanges are `RobustFrom`: a one-second alert check, then the wait; a second alert check only for a dialog-prone locator found; none and a failure screenshot otherwise |
| Logger.ActivityCategoryRoundTrip | automation/logger.py:45-94 | every activity message starts with the prefix of the logger that made it |
| Logger.EmptyDetailsOmitted | automation/logger.py:49-51 | absent and empty details give the bare prefix-and-activity message |
| Logger.DetailsAppended | automation/logger.py:50-51 | non-empty details append " - " and the details |
| Logger.LevelNamedIgnoresCase | automation/logger.py:53-60 | any casing of a level's name selects that level |
| Logger.LevelNamedCaseInsensitive | automation/logger.py:53-60 | upper- or lower-casing the level argument never changes the level |
| Logger.UnknownLevelIsInfo | automation/logger.py:59-60 | anything but error, warning or debug maps to info |
| Logger.StepLevelCaseInsensitive | automation/logger.py:106-113 | the step level ignores the case of the status |
| Logger.StepErrorIff | automation/logger.py:108-109 | a step logs as an error iff its status is FAILED or ERROR in any case |
| Logger.MicrosToMillis | automation/logger.py:100 | the first three of six padded microsecond digits are the padded milliseconds |
| Logger.StepTimestampIsMillis | automation/logger.py:100 | dropping three characters from `%H:%M:%S.%f` gives the 12-character HH:MM:SS.mmm timestamp |
| Logger.StepRecordShape | automation/logger.py:96-104 | a step line opens with `AUTOMATION [HH:MM:SS.mmm] Step: s \| Status: st`, and is exactly that iff there are no details |
| Logger.CleanedAppend | automation/logger.py:145-149 | cleaning works line by line |
| Logger.CleanedLine | automation/logger.py:147-149 | one line survives, stripped, iff it is not all whitespace |
| Logger.CleanedLinesAreStripped | automation/logger.py:145-149 | no line is added, and every surviving line is non-empty and already stripped |
| Logger.GetLogSummary | automation/logger.py:130-156 | a missing or unreadable file gives []; otherwise the cleaned last 50 lines, in order: at most 50, none empty, all stripped |
| Strings.ContainsIff | automation/session_manager.py:340 | Python's `pat in s` holds iff the pattern occurs at some position |
| Strings.StripSpec | automation/logger.py:147 | `strip` removes exactly the leading and trailing whitespace |
| Strings.JoinSplit | automation/scheduler.py:65 | splitting on ':' loses nothing |
| Strings.ParseDigits | automation/scheduler.py:66-68 | `int()` of a non-empty digit string is its decimal value |
| Strings.ParseShowNat | automation/form_filler.py:124 | formatting a count in decimal and reading it back gives the count |

## Left out

- Browser-driver construction (`_create_chrome_driver`, `_create_firefox_driver`): filesystem probing, driver downloads and option objects are foreign calls; only the pass/fail result of a creation is modelled.
- Cookie persistence (`save_cookies`/`load_cookies`): JSON file I/O. Loading appears as an exchange whose answer the world supplies (no file, cookies restored, or an exception, which makes `start_session` fail); saving appears as a `Did(SaveCookies)` exchange.
- Real time: `WebDriverWait` timeouts and elapsed-time logging. Each `time.sleep` is recorded as a `Did(Sleep(n))` exchange (or a step in the scheduler), and a wait's outcome is the world's answer.
- The cron trigger, `get_next_run_time` and the `next_run` status field: the next fire time is computed by the scheduling library.
- `run_manual` and `_run_manual_automation`: their point is the background thread. The submission they make is `SubmitForm`.
- SocketIO transport and `emit_status` in the form filler: events are appended to a sequence in the scheduler and otherwise not modelled.
- `setup_logger`, `log_debug_info` and `log_performance_metric`: handler set-up and float formatting.
- `get_csrf_token`, `find_elements`, `click_element`, `send_keys`, `select_dropdown`, `wait_for_element`, `wait_for_url_contains`, `get_text`, `get_attribute`, `execute_script`, `switch_to_frame`, `switch_to_default_content`, `scroll_to_element`, `wait_for_page_load`, `refresh_page`: these are thin wrappers outside the modelled decisions. Where the modelled code uses the browser directly, the call is an exchange.
- Raw driver faults: a click, clear, typing, script or `is_displayed` call that raises. The paths that only such exceptions reach ("Error in submission attempt", "Form submission error", "OTP verification error", "Session refresh error", "Session validation error", the fatal path of `_run_automation`) are not modelled. Modelled faults: a `find_element` fault other than a timeout (it reaches "Form access test error" in `test_form_access`), the errors `handle_alert` catches, a `quit` that raises in `stop_driver` (the driver is then kept), and a `load_cookies` that raises in `start_session` (the start then fails).
- The second `except` of `verify_otp` (automation/session_manager.py:321-323): it can never be reached.
- app.py, gunicorn.conf.py and wsgi.py: web routes and deployment configuration.
- `str.lower`/`str.upper` are modelled on ASCII letters only; `int()`'s acceptance of underscores, signs with spaces and non-ASCII digits is not modelled. `ParseInt` accepts surrounding whitespace, an optional sign and ASCII digits.
- A negative `retry_interval` (on which `time.sleep` raises): the interval is a natural number.
- `take_screenshot` with no file name (the timestamped default): every call in the modelled code passes a name.
- Scheduler.RunAutomation: the outcome of each `submit_form(form_data, max_retries=1)` call is supplied as a parameter rather than computed by `Forms.FormFiller.SubmitForm`, which models that call on its own.
- Window maximisation and implicit waits set at driver creation.

## Findings

| source | as written | input that shows it | evidently intended | confidence | as-written member | corrected member |
|---|---|---|---|---|---|---|
| automation/selenium_handler.py:322 | `os.makedirs(os.path.dirname(filename), exist_ok=True)` is called for every file name; for a bare name the directory part is `''`, `makedirs('')` raises, and the screenshot is never saved | `take_screenshot("before_submission.png")` (automation/form_filler.py:297) with a live driver | create the directory only when the name has one, then save | not executed | Selenium.ScreenshotAsWritten (with Selenium.BareScreenshotsLost) | Selenium.ScreenshotIntended (with Selenium.ScreenshotWithDirectory, used by Selenium.SeleniumHandler.TakeScreenshot) |

The success indicators of the page classifier include the word "gatepass". Any result page
mentioning a gatepass therefore reads as a success, even one reporting an error
(Forms.ExhaustedGatepassReadsAsSuccess). The model keeps this behaviour as written.
