/**
 * Log-message formatting of automation/logger.py: the category activity messages, the
 * case-insensitive level dispatch, the standardised automation-step line and the dashboard's
 * log summary. A log call is modelled by the record it hands to the logger.
 */
module Logger {
  import opened Wrappers
  import opened Strings

  datatype Level = Debug | Info | Warning | Error

  /** What one `logger.<level>(message)` call emits. */
  datatype Record = Record(level: Level, message: string)

  /** The three activity loggers differ only in their message prefix. */
  datatype Category = SessionActivity | FormActivity | SchedulerActivity

  function Prefix(c: Category): string
  {
    match c
    case SessionActivity => "SESSION: "
    case FormActivity => "FORM: "
    case SchedulerActivity => "SCHEDULER: "
  }

  /** Python's truth test `if details:` on an optional string. */
  predicate Truthy(d: Option<string>)
  {
    d.Some? && d.value != ""
  }

  function ActivityMessage(c: Category, activity: string, details: Option<string>): string
  {
    Prefix(c) + activity + (if Truthy(details) then " - " + details.value else "")
  }

  /** The level named by a `level` argument, compared after lower-casing; unknown names mean info. */
  function LevelNamed(level: string): Level
  {
    var l := Lower(level);
    if l == "error" then Error
    else if l == "warning" then Warning
    else if l == "debug" then Debug
    else Info
  }

  /** `log_session_activity`, `log_form_activity` and `log_scheduler_activity`. */
  function LogActivity(c: Category, activity: string, details: Option<string>, level: string): Record
  {
    Record(LevelNamed(level), ActivityMessage(c, activity, details))
  }

  /** The category whose prefix a message starts with, if any. */
  function CategoryOf(message: string): Option<Category>
  {
    if IsPrefix(Prefix(SessionActivity), message) then Some(SessionActivity)
    else if IsPrefix(Prefix(FormActivity), message) then Some(FormActivity)
    else if IsPrefix(Prefix(SchedulerActivity), message) then Some(SchedulerActivity)
    else None
  }

  /** Every activity record can be traced back to the logger that produced it. */
  lemma ActivityCategoryRoundTrip(c: Category, activity: string, details: Option<string>, level: string)
    ensures CategoryOf(LogActivity(c, activity, details, level).message) == Some(c)
  {
    var m := ActivityMessage(c, activity, details);
    assert m[..|Prefix(c)|] == Prefix(c);
    match c
    case SessionActivity =>
    case FormActivity =>
      assert m[0] == 'F';
    case SchedulerActivity =>
      assert m[0] == 'S' && m[1] == 'C';
  }

  /** Absent and empty details both leave the message as prefix and activity alone. */
  lemma EmptyDetailsOmitted(c: Category, activity: string, level: string)
    ensures LogActivity(c, activity, None, level) == LogActivity(c, activity, Some(""), level)
    ensures LogActivity(c, activity, None, level).message == Prefix(c) + activity
  {
  }

  /** Non-empty details extend the bare message by " - " and the details. */
  lemma DetailsAppended(c: Category, activity: string, details: string, level: string)
    requires details != ""
    ensures LogActivity(c, activity, Some(details), level).message
         == LogActivity(c, activity, None, level).message + " - " + details
  {
  }

  /** The canonical lower-case name of each level. */
  function LevelName(l: Level): string
  {
    match l
    case Debug => "debug"
    case Info => "info"
    case Warning => "warning"
    case Error => "error"
  }

  /** Level dispatch ignores case: any casing of a level's name selects that level. */
  lemma LevelNamedIgnoresCase(l: Level)
    ensures LevelNamed(LevelName(l)) == l
    ensures LevelNamed(Upper(LevelName(l))) == l
  {
    LowerOfUpper(LevelName(l));
    LowerIdempotent(LevelName(l));
    assert Lower(LevelName(l)) == LevelName(l);
  }

  /** Upper- or lower-casing a level argument never changes the level chosen. */
  lemma LevelNamedCaseInsensitive(level: string)
    ensures LevelNamed(Upper(level)) == LevelNamed(level)
    ensures LevelNamed(Lower(level)) == LevelNamed(level)
  {
    LowerOfUpper(level);
    LowerIdempotent(level);
  }

  /** Anything but a name of error, warning or debug falls back to info. */
  lemma UnknownLevelIsInfo(level: string)
    requires Lower(level) !in ["error", "warning", "debug"]
    ensures LevelNamed(level) == Info
  {
  }

  // ---------------------------------------------------------------- automation steps

  /** The level `log_automation_step` chooses for a status, compared after upper-casing. */
  function StepLevel(status: string): Level
  {
    var u := Upper(status);
    if u in ["SUCCESS", "COMPLETED"] then Info
    else if u in ["FAILED", "ERROR"] then Error
    else if u in ["WARNING", "RETRY"] then Warning
    else Info
  }

  /** Step levels ignore the case of the status. */
  lemma StepLevelCaseInsensitive(status: string)
    ensures StepLevel(Lower(status)) == StepLevel(status)
  {
    UpperOfLower(status);
  }

  /** A step is reported as an error exactly for a failed or error status. */
  lemma StepErrorIff(status: string)
    ensures StepLevel(status) == Error <==> Upper(status) == "FAILED" || Upper(status) == "ERROR"
  {
  }

  /** The wall-clock reading `datetime.now()` supplies. */
  datatype Clock = Clock(hour: nat, minute: nat, second: nat, micro: nat)
  {
    predicate Valid() { hour < 24 && minute < 60 && second < 60 && micro < 1000000 }
  }

  /** `now.strftime('%H:%M:%S.%f')` */
  function ClockText(c: Clock): string
  {
    Pad(c.hour, 2) + ":" + Pad(c.minute, 2) + ":" + Pad(c.second, 2) + "." + Pad(c.micro, 6)
  }

  /** Python's `s[:-3]`. */
  function DropLast3(s: string): string
  {
    if |s| >= 3 then s[..|s| - 3] else ""
  }

  /** The step timestamp: the clock text with its last three characters dropped. */
  function StepTimestamp(c: Clock): string
  {
    DropLast3(ClockText(c))
  }

  /** The first three of six padded micro-second digits are the padded milliseconds. */
  lemma MicrosToMillis(n: nat)
    ensures Pad(n, 6)[..3] == Pad(n / 1000, 3)
  {
    calc {
      Pad(n, 6);
      Pad(n / 10, 5) + [DigitChar(n % 10)];
      Pad(n / 10 / 10, 4) + [DigitChar(n / 10 % 10)] + [DigitChar(n % 10)];
      Pad(n / 10 / 10 / 10, 3) + [DigitChar(n / 10 / 10 % 10)] + [DigitChar(n / 10 % 10)] + [DigitChar(n % 10)];
    }
    assert n / 10 / 10 / 10 == n / 1000;
  }

  /** Dropping three characters turns the micro-second clock into a millisecond one, HH:MM:SS.mmm. */
  lemma StepTimestampIsMillis(c: Clock)
    requires c.Valid()
    ensures StepTimestamp(c)
         == Pad(c.hour, 2) + ":" + Pad(c.minute, 2) + ":" + Pad(c.second, 2) + "." + Pad(c.micro / 1000, 3)
    ensures |StepTimestamp(c)| == 12
  {
    MicrosToMillis(c.micro);
    var head := Pad(c.hour, 2) + ":" + Pad(c.minute, 2) + ":" + Pad(c.second, 2) + ".";
    assert ClockText(c) == head + Pad(c.micro, 6);
    assert (head + Pad(c.micro, 6))[..|head| + 3] == head + Pad(c.micro, 6)[..3];
  }

  function StepMessage(c: Clock, step: string, status: string, details: Option<string>): string
  {
    StepHead(StepTimestamp(c), step, status)
      + (if Truthy(details) then " | Details: " + details.value else "")
  }

  /** `log_automation_step`. */
  function LogStep(c: Clock, step: string, status: string, details: Option<string>): Record
  {
    Record(StepLevel(status), StepMessage(c, step, status, details))
  }

  /** The part of a step line before any details. */
  function StepHead(millis: string, step: string, status: string): string
  {
    "AUTOMATION [" + millis + "] Step: " + step + " | Status: " + status
  }

  /** A step line opens with the millisecond timestamp, the step and its status, whatever the details. */
  lemma StepRecordShape(c: Clock, step: string, status: string, details: Option<string>)
    requires c.Valid()
    ensures var millis := Pad(c.hour, 2) + ":" + Pad(c.minute, 2) + ":" + Pad(c.second, 2) + "." + Pad(c.micro / 1000, 3);
      var head := StepHead(millis, step, status);
      IsPrefix(head, LogStep(c, step, status, details).message)
      && (LogStep(c, step, status, details).message == head <==> !Truthy(details))
  {
    StepTimestampIsMillis(c);
    var head := StepHead(StepTimestamp(c), step, status);
    var tail := if Truthy(details) then " | Details: " + details.value else "";
    var m := LogStep(c, step, status, details).message;
    assert m == head + tail;
    assert m[..|head|] == head;
  }

  // ---------------------------------------------------------------- log summary

  /** The day's log file as `readlines()` would return it. */
  datatype LogFile = Missing | Unreadable | Lines(lines: seq<string>)

  /** `lines[-50:] if len(lines) > 50 else lines` */
  function Recent(lines: seq<string>): seq<string>
  {
    if |lines| > 50 then lines[|lines| - 50..] else lines
  }

  /** Each line stripped, blank lines dropped, order kept. */
  function Cleaned(lines: seq<string>): seq<string>
    decreases |lines|
  {
    if lines == [] then []
    else
      var line := Strip(lines[|lines| - 1]);
      Cleaned(lines[..|lines| - 1]) + (if line != "" then [line] else [])
  }

  /** Cleaning works line by line: the cleaned lines of a concatenation are concatenated. */
  lemma {:induction false} CleanedAppend(xs: seq<string>, ys: seq<string>)
    ensures Cleaned(xs + ys) == Cleaned(xs) + Cleaned(ys)
    decreases |ys|
  {
    if ys == [] {
      assert xs + ys == xs;
    } else {
      var zs := ys[..|ys| - 1];
      CleanedAppend(xs, zs);
      assert (xs + ys)[..|xs + ys| - 1] == xs + zs;
    }
  }

  /** One line survives, stripped, exactly when it is not all whitespace. */
  lemma CleanedLine(x: string)
    ensures Cleaned([x]) == if AllSpace(x) then [] else [Strip(x)]
  {
    StripSpec(x);
    assert [x][..0] == [];
  }

  /** Every surviving line is non-empty and already stripped, and nothing is added. */
  lemma {:induction false} CleanedLinesAreStripped(lines: seq<string>)
    ensures |Cleaned(lines)| <= |lines|
    ensures forall l :: l in Cleaned(lines) ==> l != "" && Strip(l) == l
    decreases |lines|
  {
    if lines != [] {
      CleanedLinesAreStripped(lines[..|lines| - 1]);
      var line := Strip(lines[|lines| - 1]);
      StripSpec(lines[|lines| - 1]);
      if line != "" {
        StripUnchanged(line);
      }
    }
  }

  /** `get_log_summary`: at most the last 50 lines, stripped, blanks removed; no file gives []. */
  method GetLogSummary(file: LogFile) returns (summary: seq<string>)
    ensures file.Lines? ==> summary == Cleaned(Recent(file.lines))
    ensures !file.Lines? ==> summary == []
    ensures |summary| <= 50
    ensures forall l :: l in summary ==> l != "" && Strip(l) == l
  {
    if !file.Lines? {
      return [];
    }
    var lines := file.lines;
    var recent := if |lines| > 50 then lines[|lines| - 50..] else lines;
    summary := [];
    var i := 0;
    while i < |recent|
      invariant 0 <= i <= |recent|
      invariant summary == Cleaned(recent[..i])
    {
      var line := Strip(recent[i]);
      if line != "" {
        summary := summary + [line];
      }
      assert recent[..i + 1][..i] == recent[..i];
      i := i + 1;
    }
    assert recent[..i] == recent;
    CleanedLinesAreStripped(recent);
  }
}
