/**
 * The daily-run engine of automation/scheduler.py: parsing the configured time of day, the
 * running flag of start/stop, the status report, and the bounded retry loop of a scheduled run
 * with the ordered stream of events and pauses it produces.
 */
module Scheduler {
  import opened Wrappers
  import opened Strings
  import opened Settings

  // ---------------------------------------------------------------- time of day

  datatype TimeOfDay = TimeOfDay(hour: int, minute: int, second: int)
  {
    /** The ranges `datetime.time` accepts. */
    predicate Valid() { 0 <= hour < 24 && 0 <= minute < 60 && 0 <= second < 60 }
  }

  const DefaultTime := TimeOfDay(7, 0, 1)

  /** `str(t)` of a `datetime.time` without microseconds: HH:MM:SS. */
  function TimeText(t: TimeOfDay): string
    requires t.Valid()
  {
    Pad(t.hour, 2) + ":" + Pad(t.minute, 2) + ":" + Pad(t.second, 2)
  }

  /**
   * `_parse_schedule_time`: the colon-separated fields are read with `int()`; the third is
   * optional and defaults to 0, any further field is ignored. A missing or non-integer field,
   * or a value out of range, gives 07:00:01.
   */
  function ParseScheduleTime(text: string): (t: TimeOfDay)
    ensures t.Valid()
  {
    var parts := Split(text, ':');
    if |parts| < 2 then DefaultTime
    else
      var second := if |parts| > 2 then ParseInt(parts[2]) else Some(0);
      match (ParseInt(parts[0]), ParseInt(parts[1]), second)
      case (Some(h), Some(m), Some(s)) =>
        if TimeOfDay(h, m, s).Valid() then TimeOfDay(h, m, s) else DefaultTime
      case _ => DefaultTime
  }

  lemma DigitsHaveNoColon(a: string)
    requires AllDigits(a)
    ensures ':' !in a
  {
  }

  /** Three digit fields are read as hour, minute and second, subject to the range check. */
  lemma ParseThreeFields(a: string, b: string, c: string)
    requires |a| > 0 && AllDigits(a) && |b| > 0 && AllDigits(b) && |c| > 0 && AllDigits(c)
    ensures var t := TimeOfDay(DigitsValue(a), DigitsValue(b), DigitsValue(c));
      ParseScheduleTime(a + ":" + b + ":" + c) == if t.Valid() then t else DefaultTime
  {
    DigitsHaveNoColon(a);
    DigitsHaveNoColon(b);
    DigitsHaveNoColon(c);
    assert a + ":" + b + ":" + c == a + [':'] + (b + [':'] + c);
    SplitField(a, b + [':'] + c, ':');
    SplitField(b, c, ':');
    SplitNoSeparator(c, ':');
    assert Split(a + ":" + b + ":" + c, ':') == [a, b, c];
    ParseDigits(a);
    ParseDigits(b);
    ParseDigits(c);
  }

  /** With only two fields the second of the minute is 0. */
  lemma ParseTwoFields(a: string, b: string)
    requires |a| > 0 && AllDigits(a) && |b| > 0 && AllDigits(b)
    ensures var t := TimeOfDay(DigitsValue(a), DigitsValue(b), 0);
      ParseScheduleTime(a + ":" + b) == if t.Valid() then t else DefaultTime
  {
    DigitsHaveNoColon(a);
    DigitsHaveNoColon(b);
    SplitField(a, b, ':');
    SplitNoSeparator(b, ':');
    assert Split(a + ":" + b, ':') == [a, b];
    ParseDigits(a);
    ParseDigits(b);
  }

  /** Text without a colon has fewer than two fields and falls back to the default. */
  lemma ParseWithoutColon(text: string)
    requires ':' !in text
    ensures ParseScheduleTime(text) == DefaultTime
  {
    SplitNoSeparator(text, ':');
  }

  /** A first field that is not an integer gives the default, whatever follows. */
  lemma ParseBadHour(a: string, rest: string)
    requires ':' !in a && ParseInt(a) == None
    ensures ParseScheduleTime(a + ":" + rest) == DefaultTime
  {
    SplitField(a, rest, ':');
  }

  /** Printing a valid time and parsing it back gives the same time. */
  lemma ParseTimeText(t: TimeOfDay)
    requires t.Valid()
    ensures ParseScheduleTime(TimeText(t)) == t
  {
    assert Pow10(2) == 100;
    PadValue(t.hour, 2);
    PadValue(t.minute, 2);
    PadValue(t.second, 2);
    ParseThreeFields(Pad(t.hour, 2), Pad(t.minute, 2), Pad(t.second, 2));
  }

  /** The default configuration text denotes the default time. */
  lemma DefaultTextParses()
    ensures ParseScheduleTime(Config(None, None, None, None, None).ScheduleTimeText()) == DefaultTime
  {
    ParseTimeText(DefaultTime);
    assert TimeText(DefaultTime) == "07:00:01";
  }

  // ---------------------------------------------------------------- events of a run

  datatype Event =
    | SchedulerStatus(running: bool, scheduleTime: Option<TimeOfDay>)
    | AutomationStarted(kind: string)
    | AutomationAttempt(attempt: nat, maxAttempts: int)
    | AutomationSuccess(attempt: nat, message: string)
    | AttemptFailed(attempt: nat, message: string)
    | AutomationError(attempt: nat, error: string)
    | FinalFailure(reportedAttempts: int)
    | AutomationCompleted(success: bool, totalAttempts: nat)

  /** What a scheduled run does, in order: emit an event, call `submit_form`, pause, clean up. */
  datatype Step = Emit(event: Event) | Submit(attempt: nat) | Sleep(seconds: nat) | Cleanup

  /** How one `submit_form(form_data, max_retries=1)` call ends. */
  datatype SubmitOutcome = Returned(success: bool, message: string) | Raised(error: string)

  predicate Succeeded(o: SubmitOutcome) { o.Returned? && o.success }

  /** The event reporting attempt `k` once its call has ended. */
  function ResultEvent(k: nat, o: SubmitOutcome): Event
  {
    match o
    case Returned(true, message) => AutomationSuccess(k, message)
    case Returned(false, message) => AttemptFailed(k, message)
    case Raised(error) => AutomationError(k, error)
  }

  datatype Outcome = Outcome(success: bool, attempts: nat, steps: seq<Step>)

  /**
   * The retry loop after `done` attempts: announce attempt k, call, report; stop on success;
   * otherwise pause only if another attempt follows.
   */
  function Loop(outcomes: nat -> SubmitOutcome, maxRetries: int, interval: nat, done: nat): Outcome
    decreases maxRetries - done
  {
    if done >= maxRetries then Outcome(false, done, [])
    else
      var k := done + 1;
      var o := outcomes(k);
      var head := [Emit(AutomationAttempt(k, maxRetries)), Submit(k), Emit(ResultEvent(k, o))];
      if Succeeded(o) then Outcome(true, k, head)
      else
        var rest := Loop(outcomes, maxRetries, interval, k);
        Outcome(rest.success, rest.attempts,
                head + (if k < maxRetries then [Sleep(interval)] else []) + rest.steps)
  }

  /** What follows the loop: a final-failure report if nothing succeeded, cleanup, completion. */
  function Finish(success: bool, attempts: nat, maxRetries: int): seq<Step>
  {
    (if success then [] else [Emit(FinalFailure(maxRetries))])
      + [Cleanup, Emit(AutomationCompleted(success, attempts))]
  }

  /** A whole scheduled run of `_run_automation`. */
  function Run(outcomes: nat -> SubmitOutcome, maxRetries: int, interval: nat): Outcome
  {
    var l := Loop(outcomes, maxRetries, interval, 0);
    Outcome(l.success, l.attempts,
            [Emit(AutomationStarted("scheduled"))] + l.steps + Finish(l.success, l.attempts, maxRetries))
  }

  /** Reference shape of attempt k: announce, call, report, and a pause only after a failure before the last. */
  function Block(outcomes: nat -> SubmitOutcome, maxRetries: int, interval: nat, k: nat): seq<Step>
  {
    [Emit(AutomationAttempt(k, maxRetries)), Submit(k), Emit(ResultEvent(k, outcomes(k)))]
      + (if !Succeeded(outcomes(k)) && k < maxRetries then [Sleep(interval)] else [])
  }

  /** The blocks of attempts lo+1 .. hi, in increasing order. */
  function Blocks(outcomes: nat -> SubmitOutcome, maxRetries: int, interval: nat, lo: nat, hi: nat): seq<Step>
    decreases hi - lo
  {
    if lo >= hi then [] else Block(outcomes, maxRetries, interval, lo + 1) + Blocks(outcomes, maxRetries, interval, lo + 1, hi)
  }

  /**
   * The loop makes attempts done+1 .. n in order and stops at the first success; without one it
   * runs up to `maxRetries`.
   */
  lemma {:induction false} LoopSpec(outcomes: nat -> SubmitOutcome, maxRetries: int, interval: nat, done: nat)
    ensures var r := Loop(outcomes, maxRetries, interval, done);
      && done <= r.attempts
      && (r.attempts > done ==> r.attempts <= maxRetries)
      && (r.success ==> r.attempts > done && Succeeded(outcomes(r.attempts)))
      && (!r.success ==> r.attempts == if done < maxRetries then maxRetries else done)
      && (forall k :: done < k < r.attempts ==> !Succeeded(outcomes(k)))
      && (!r.success ==> forall k :: done < k <= r.attempts ==> !Succeeded(outcomes(k)))
      && r.steps == Blocks(outcomes, maxRetries, interval, done, r.attempts)
    decreases maxRetries - done
  {
    if done < maxRetries {
      var k := done + 1;
      if !Succeeded(outcomes(k)) {
        LoopSpec(outcomes, maxRetries, interval, k);
      }
    }
  }

  /**
   * `_run_automation` calls `submit_form` at most `max_retries` times, stops after the first
   * success, and otherwise reports a final failure with `max_retries`; the completion event
   * carries the loop counter.
   */
  lemma RunSpec(outcomes: nat -> SubmitOutcome, maxRetries: int, interval: nat)
    ensures var r := Run(outcomes, maxRetries, interval);
      && (r.attempts == 0 || r.attempts <= maxRetries)
      && (r.success <==> r.attempts > 0 && Succeeded(outcomes(r.attempts)))
      && (forall k :: 0 < k < r.attempts ==> !Succeeded(outcomes(k)))
      && (!r.success ==> r.attempts == (if maxRetries > 0 then maxRetries else 0))
      && r.steps == [Emit(AutomationStarted("scheduled"))] + Blocks(outcomes, maxRetries, interval, 0, r.attempts)
                    + Finish(r.success, r.attempts, maxRetries)
  {
    LoopSpec(outcomes, maxRetries, interval, 0);
  }

  /** The number of calls to `submit_form` among some steps. */
  function SubmitCount(steps: seq<Step>): nat
  {
    if steps == [] then 0 else (if steps[0].Submit? then 1 else 0) + SubmitCount(steps[1..])
  }

  /** The number of pauses among some steps. */
  function SleepCount(steps: seq<Step>): nat
  {
    if steps == [] then 0 else (if steps[0].Sleep? then 1 else 0) + SleepCount(steps[1..])
  }

  lemma {:induction false} CountsAppend(xs: seq<Step>, ys: seq<Step>)
    ensures SubmitCount(xs + ys) == SubmitCount(xs) + SubmitCount(ys)
    ensures SleepCount(xs + ys) == SleepCount(xs) + SleepCount(ys)
    decreases |xs|
  {
    if xs == [] {
      assert xs + ys == ys;
    } else {
      assert (xs + ys)[1..] == xs[1..] + ys;
      CountsAppend(xs[1..], ys);
    }
  }

  /** Steps that are only events and cleanup hold no call and no pause. */
  lemma {:induction false} CountsOfEvents(steps: seq<Step>)
    requires forall i :: 0 <= i < |steps| ==> steps[i].Emit? || steps[i].Cleanup?
    ensures SubmitCount(steps) == 0 && SleepCount(steps) == 0
    decreases |steps|
  {
    if steps != [] {
      CountsOfEvents(steps[1..]);
    }
  }

  /** Between attempts lo+1 .. hi there is one call each, and one pause per failure before `maxRetries`. */
  lemma {:induction false} BlocksCounts(outcomes: nat -> SubmitOutcome, maxRetries: int, interval: nat, lo: nat, hi: nat)
    requires lo <= hi
    requires forall k :: lo < k < hi ==> !Succeeded(outcomes(k))
    requires hi <= maxRetries
    ensures SubmitCount(Blocks(outcomes, maxRetries, interval, lo, hi)) == hi - lo
    ensures SleepCount(Blocks(outcomes, maxRetries, interval, lo, hi))
         == if lo < hi && (Succeeded(outcomes(hi)) || hi == maxRetries) then hi - lo - 1 else hi - lo
    decreases hi - lo
  {
    if lo < hi {
      var b := Block(outcomes, maxRetries, interval, lo + 1);
      BlocksCounts(outcomes, maxRetries, interval, lo + 1, hi);
      CountsAppend(b, Blocks(outcomes, maxRetries, interval, lo + 1, hi));
      var call := [Submit(lo + 1)];
      var announce := [Emit(AutomationAttempt(lo + 1, maxRetries))];
      var report := [Emit(ResultEvent(lo + 1, outcomes(lo + 1)))];
      var pause := b[3..];
      assert b == announce + call + report + pause;
      CountsOfEvents(announce);
      CountsOfEvents(report);
      assert call[1..] == [];
      assert SubmitCount(call) == 1 && SleepCount(call) == 0;
      assert pause == [] || pause == [Sleep(interval)];
      assert pause != [] ==> pause[1..] == [];
      CountsAppend(announce, call);
      CountsAppend(announce + call, report);
      CountsAppend(announce + call + report, pause);
    }
  }

  /**
   * A run calls `submit_form` once per attempt and pauses once fewer than it attempts: never
   * after a success and never after the last attempt.
   */
  lemma RunPauses(outcomes: nat -> SubmitOutcome, maxRetries: int, interval: nat)
    ensures var r := Run(outcomes, maxRetries, interval);
      && SubmitCount(r.steps) == r.attempts
      && SleepCount(r.steps) == if r.attempts == 0 then 0 else r.attempts - 1
  {
    var r := Run(outcomes, maxRetries, interval);
    RunSpec(outcomes, maxRetries, interval);
    var blocks := Blocks(outcomes, maxRetries, interval, 0, r.attempts);
    var start := [Emit(AutomationStarted("scheduled"))];
    var finish := Finish(r.success, r.attempts, maxRetries);
    if r.attempts > 0 {
      BlocksCounts(outcomes, maxRetries, interval, 0, r.attempts);
    }
    CountsAppend(start, blocks);
    CountsAppend(start + blocks, finish);
    CountsOfEvents(finish);
  }

  // ---------------------------------------------------------------- the scheduler object

  /** The field names and values used when config/form_data.json is missing. */
  function DefaultFormData(): map<string, string>
  {
    map[
      "ash_utilization" := "Ash_based_Products",
      "pickup_time" := "10.00AM - 11.00AM",
      "vehicle_type" := "Bluker 16 Wheeler",
      "quantity_limit" := "36",
      "vehicle_classification" := "Hired",
      "authorised_person" := "POTHALINGAPPA C",
      "vehicle_no" := "KA28AB2222",
      "dl_no" := "7634",
      "driver_mob_no" := "9768453423"
    ]
  }

  /** Python's `bool(username and password)`: both present and non-empty. */
  predicate CredentialsSet(username: Option<string>, password: Option<string>)
  {
    username.Some? && username.value != "" && password.Some? && password.value != ""
  }

  /** `get_status()` without the next fire time, which the cron library computes. */
  datatype StatusReport = StatusReport(running: bool, scheduleTime: string, credentialsSet: bool)

  /**
   * `_run_automation` as the source writes it: the loop on `attempt` and `success`, the outcome
   * of each `submit_form` call supplied by `outcomes`. It returns the steps taken.
   */
  method RunAutomation(config: Config, outcomes: nat -> SubmitOutcome)
    returns (success: bool, attempts: nat, steps: seq<Step>)
    ensures Outcome(success, attempts, steps) == Run(outcomes, config.MaxRetries(), config.RetryInterval())
  {
    var maxRetries := config.MaxRetries();
    var retryInterval := config.RetryInterval();
    var start := [Emit(AutomationStarted("scheduled"))];
    steps := start;
    success := false;
    attempts := 0;
    while attempts < maxRetries && !success
      invariant !success ==> steps + Loop(outcomes, maxRetries, retryInterval, attempts).steps
                               == start + Loop(outcomes, maxRetries, retryInterval, 0).steps
      invariant !success ==> Loop(outcomes, maxRetries, retryInterval, attempts).success
                               == Loop(outcomes, maxRetries, retryInterval, 0).success
      invariant !success ==> Loop(outcomes, maxRetries, retryInterval, attempts).attempts
                               == Loop(outcomes, maxRetries, retryInterval, 0).attempts
      invariant success ==> Outcome(success, attempts, steps)
                              == Outcome(true, Loop(outcomes, maxRetries, retryInterval, 0).attempts,
                                         start + Loop(outcomes, maxRetries, retryInterval, 0).steps)
      invariant success ==> Loop(outcomes, maxRetries, retryInterval, 0).success
      decreases maxRetries - attempts
    {
      attempts := attempts + 1;
      steps := steps + [Emit(AutomationAttempt(attempts, maxRetries)), Submit(attempts)];
      match outcomes(attempts) {
        case Returned(ok, message) =>
          if ok {
            steps := steps + [Emit(AutomationSuccess(attempts, message))];
            success := true;
          } else {
            steps := steps + [Emit(AttemptFailed(attempts, message))];
            if attempts < maxRetries {
              steps := steps + [Sleep(retryInterval)];
            }
          }
        case Raised(error) =>
          steps := steps + [Emit(AutomationError(attempts, error))];
          if attempts < maxRetries {
            steps := steps + [Sleep(retryInterval)];
          }
      }
    }
    if !success {
      steps := steps + [Emit(FinalFailure(maxRetries))];
    }
    steps := steps + [Cleanup, Emit(AutomationCompleted(success, attempts))];
  }

  class AutomationScheduler {
    const config: Config
    /** The static form fields, loaded once. */
    const formData: map<string, string>
    var username: Option<string>
    var password: Option<string>
    var running: bool
    var scheduleTime: TimeOfDay
    /** The cron job registered with the background scheduler, by its trigger time. */
    var job: Option<TimeOfDay>
    /** Whether the background scheduler itself is started. */
    var engineRunning: bool
    /** The status events sent so far. */
    var emitted: seq<Event>

    ghost predicate Valid()
      reads this
    {
      running == engineRunning && (running ==> job == Some(scheduleTime)) && scheduleTime.Valid()
    }

    /** `__init__`: not running, no credentials; `formFile` is the form-data file if it exists. */
    constructor (config: Config, formFile: Option<map<string, string>>)
      ensures Valid()
      ensures this.config == config && !running && job == None && emitted == []
      ensures username == None && password == None
      ensures scheduleTime == ParseScheduleTime(config.ScheduleTimeText())
      ensures formData == formFile.GetOr(DefaultFormData())
    {
      this.config := config;
      formData := formFile.GetOr(DefaultFormData());
      username := None;
      password := None;
      running := false;
      scheduleTime := ParseScheduleTime(config.ScheduleTimeText());
      job := None;
      engineRunning := false;
      emitted := [];
    }

    method SetCredentials(username: Option<string>, password: Option<string>)
      requires Valid()
      modifies this
      ensures Valid()
      ensures this.username == username && this.password == password
      ensures running == old(running) && scheduleTime == old(scheduleTime) && job == old(job)
      ensures engineRunning == old(engineRunning) && emitted == old(emitted)
    {
      this.username := username;
      this.password := password;
    }

    function Status(): (s: StatusReport)
      requires Valid()
      reads this
      ensures s.credentialsSet <==> CredentialsSet(username, password)
      ensures ParseScheduleTime(s.scheduleTime) == scheduleTime
    {
      ParseTimeText(scheduleTime);
      StatusReport(running, TimeText(scheduleTime), CredentialsSet(username, password))
    }

    /**
     * `start`: already running changes nothing and succeeds; without both credentials it fails
     * and changes nothing; otherwise the job is registered at the schedule time and a status
     * event is sent.
     */
    method Start() returns (ok: bool)
      requires Valid()
      modifies this
      ensures Valid()
      ensures old(running) ==> ok && unchanged(this)
      ensures !old(running) && !CredentialsSet(username, password) ==> !ok && unchanged(this)
      ensures !old(running) ==> (ok <==> old(Status().credentialsSet))
      ensures ok <==> running
      ensures !old(running) && ok ==>
        && job == Some(scheduleTime) && engineRunning
        && emitted == old(emitted) + [SchedulerStatus(true, Some(scheduleTime))]
      ensures scheduleTime == old(scheduleTime) && username == old(username) && password == old(password)
    {
      if running {
        return true;
      }
      if !CredentialsSet(username, password) {
        return false;
      }
      job := Some(scheduleTime);
      engineRunning := true;
      running := true;
      emitted := emitted + [SchedulerStatus(true, Some(scheduleTime))];
      return true;
    }

    /** `stop`: shuts the background scheduler down if it runs; always ends not running. */
    method Stop()
      requires Valid()
      modifies this
      ensures Valid()
      ensures !running && !engineRunning
      ensures emitted == old(emitted) + [SchedulerStatus(false, None)]
      ensures scheduleTime == old(scheduleTime) && job == old(job)
      ensures username == old(username) && password == old(password)
    {
      if engineRunning {
        engineRunning := false;
      }
      running := false;
      emitted := emitted + [SchedulerStatus(false, None)];
    }

    /** `update_schedule`: re-parses the time; a running scheduler re-registers its job. */
    method UpdateSchedule(newTime: string) returns (ok: bool)
      requires Valid()
      modifies this
      ensures Valid() && ok
      ensures scheduleTime == ParseScheduleTime(newTime)
      ensures running == old(running)
      ensures old(running) ==>
        job == Some(scheduleTime) && emitted == old(emitted) + [SchedulerStatus(true, Some(scheduleTime))]
      ensures !old(running) ==> job == old(job) && emitted == old(emitted)
      ensures username == old(username) && password == old(password)
    {
      scheduleTime := ParseScheduleTime(newTime);
      if running {
        job := Some(scheduleTime);
        emitted := emitted + [SchedulerStatus(true, Some(scheduleTime))];
      }
      return true;
    }
  }
}
