/**
 * The configuration dictionary the automation classes receive. Each key may be absent; the
 * accessors apply the default the source passes to `config.get(key, default)`.
 */
module Settings {
  import opened Wrappers

  datatype Config = Config(
    scheduleTime: Option<string>,
    maxRetries: Option<int>,
    retryInterval: Option<nat>,
    browser: Option<string>,
    headless: Option<bool>)
  {
    /** `config.get('schedule_time', '07:00:01')` */
    function ScheduleTimeText(): string { scheduleTime.GetOr("07:00:01") }

    /** `config.get('max_retries', 3)` */
    function MaxRetries(): int { maxRetries.GetOr(3) }

    /** `config.get('retry_interval', 10)`, in seconds */
    function RetryInterval(): nat { retryInterval.GetOr(10) }

    /** `config.get('browser', 'chrome')` */
    function BrowserName(): string { browser.GetOr("chrome") }

    /** `config.get('headless', True)` */
    function Headless(): bool { headless.GetOr(true) }
  }
}
