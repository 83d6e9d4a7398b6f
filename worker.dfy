/**
 * The ping bookkeeping of the uptime worker: one record per ping attempt,
 * a most-recent-first log capped at MAX_LOGS entries, the time of the next
 * scheduled ping, and the handlers that read and change that state.
 *
 * The network call, the clock, the random interval and the record id are
 * parameters: an `Attempt` carries what one call to `fetch` produced and
 * the clock readings around it.
 */
module Worker {
  import opened Decimal

  datatype Option<+T> = None | Some(value: T)

  /** The log keeps at most this many records. */
  const MAX_LOGS: nat := 20

  /** Target used when TARGET_URL is absent or empty. */
  const DEFAULT_TARGET_URL: string := "https://ip-geolocation-api-40va.onrender.com"

  /** The random interval lies between 10 and 14 minutes, in milliseconds. */
  const MIN_INTERVAL_MS: int := 10 * 60 * 1000
  const MAX_INTERVAL_MS: int := 14 * 60 * 1000

  /** Status text of a record whose request never got a response. */
  const ERROR_STATUS: string := "ERROR"

  const CRON_SCHEDULE: string := "*/1 * * * *"
  const STATUS_MESSAGE: string := "Pinging every 10-14 minutes (randomized)"

  /** One observation of a ping attempt. */
  datatype PingLog = PingLog(
    id: string,
    timestamp: string,
    url: string,
    status: string,
    responseTime: int,
    success: bool,
    error: Option<string>)

  /** What the single GET produced: a response with its status code, or a transport failure. */
  datatype Outcome = Response(code: nat) | Failure(message: string)

  /**
   * Everything one ping attempt takes from the outside world: its id, the
   * clock before the request and after it, the completion time as text, and
   * the outcome of the request.
   */
  datatype Attempt = Attempt(id: string, startedAt: int, finishedAt: int, timestamp: string, outcome: Outcome)

  /** The view the status endpoint returns; `nextPingTime` is kept in milliseconds. */
  datatype StatusReport = StatusReport(
    isRunning: bool,
    targetUrl: string,
    cronSchedule: string,
    message: string,
    nextPingTime: int,
    lastPingTime: Option<string>,
    nextPingInSeconds: nat)

  function Min(a: int, b: int): int { if a <= b then a else b }

  function Max(a: int, b: int): int { if a >= b then a else b }

  /** An "ok status" of the Fetch Standard (section 2.2.3): 200 to 299 inclusive. */
  predicate IsOkStatus(code: int) {
    200 <= code <= 299
  }

  /** A value the random interval generator can produce. */
  predicate IsDrawnInterval(ms: int) {
    MIN_INTERVAL_MS <= ms <= MAX_INTERVAL_MS
  }

  /** The configured TARGET_URL, falling back to the default when it is absent or empty. */
  function TargetUrl(configured: Option<string>): (url: string)
    ensures url != ""
    ensures configured.Some? && configured.value != "" ==> url == configured.value
    ensures configured == None || configured == Some("") ==> url == DEFAULT_TARGET_URL
  {
    match configured
    case Some(u) => if u != "" then u else DEFAULT_TARGET_URL
    case None => DEFAULT_TARGET_URL
  }

  /**
   * The record of one attempt against `targetUrl`. A response of any code
   * is recorded with its code as text and no error; a transport failure
   * with the marker ERROR_STATUS and the failure's message.
   */
  function MakeRecord(targetUrl: string, attempt: Attempt): (log: PingLog)
    ensures log.id == attempt.id && log.url == targetUrl && log.timestamp == attempt.timestamp
    ensures log.responseTime == attempt.finishedAt - attempt.startedAt
    ensures attempt.outcome.Response? ==>
      log.status == ToDecimal(attempt.outcome.code) &&
      IsDigits(log.status) && ValueOf(log.status) == attempt.outcome.code &&
      (log.success <==> 200 <= attempt.outcome.code <= 299) &&
      log.error == None
    ensures attempt.outcome.Failure? ==>
      log.status == ERROR_STATUS && !log.success && log.error == Some(attempt.outcome.message)
    ensures log.status == ERROR_STATUS <==> attempt.outcome.Failure?
    ensures log.error.Some? <==> !log.success && log.status == ERROR_STATUS
  {
    var responseTime := attempt.finishedAt - attempt.startedAt;
    match attempt.outcome
    case Response(code) =>
      var text := ToDecimal(code);
      DecimalRoundTrip(code);
      assert text[0] != ERROR_STATUS[0];
      PingLog(attempt.id, attempt.timestamp, targetUrl, text, responseTime, IsOkStatus(code), None)
    case Failure(message) =>
      PingLog(attempt.id, attempt.timestamp, targetUrl, ERROR_STATUS, responseTime, false, Some(message))
  }

  /** The log after `log` is pushed on its front and its tail cut back to MAX_LOGS entries. */
  function Inserted(logs: seq<PingLog>, log: PingLog): (r: seq<PingLog>)
    ensures |r| == Min(|logs| + 1, MAX_LOGS)
    ensures r[0] == log
    ensures r[1..] == logs[..Min(|logs|, MAX_LOGS - 1)]
  {
    var pushed := [log] + logs;
    if |pushed| > MAX_LOGS then pushed[..MAX_LOGS] else pushed
  }

  /** `s` in the opposite order. */
  function Reversed<T>(s: seq<T>): (r: seq<T>)
    ensures |r| == |s|
    ensures forall i :: 0 <= i < |s| ==> r[i] == s[|s| - 1 - i]
  {
    if s == [] then [] else Reversed(s[1..]) + [s[0]]
  }

  /** The last MAX_LOGS records of a history of pings, newest first. */
  function Recent(history: seq<PingLog>): (r: seq<PingLog>)
    ensures |r| == Min(|history|, MAX_LOGS) && |r| <= MAX_LOGS
    ensures forall i :: 0 <= i < |r| ==> r[i] == history[|history| - 1 - i]
  {
    Reversed(history)[..Min(|history|, MAX_LOGS)]
  }

  /** Inserting the next record into the recent log gives the recent log of the longer history. */
  lemma RecentAppend(history: seq<PingLog>, log: PingLog)
    ensures Recent(history + [log]) == Inserted(Recent(history), log)
  {
  }

  /**
   * The recent log is exactly the newest MAX_LOGS records of the history,
   * in reverse order of insertion; older records have been evicted.
   */
  lemma RecentIsNewestSuffix(history: seq<PingLog>)
    ensures Recent(history) == Reversed(history[|history| - Min(|history|, MAX_LOGS)..])
  {
  }

  /** Whole seconds until `nextPingAt`, rounded down and never negative. */
  function CountdownSeconds(nextPingAt: int, now: int): (secs: nat)
    ensures secs * 1000 <= Max(0, nextPingAt - now) < secs * 1000 + 1000
    ensures now >= nextPingAt ==> secs == 0
  {
    Max(0, nextPingAt - now) / 1000
  }

  /** As time passes without a new ping, the countdown never goes up. */
  lemma CountdownNonIncreasing(nextPingAt: int, earlier: int, later: int)
    requires earlier <= later
    ensures CountdownSeconds(nextPingAt, later) <= CountdownSeconds(nextPingAt, earlier)
  {
  }

  /**
   * The worker's process-wide state: when the next scheduled ping is due,
   * the most recent record, and the log. `history` is every record made
   * since the worker started, oldest first; it is what the log and the
   * last result are views of.
   */
  class Monitor {
    var nextPingAt: int
    var lastPingResult: Option<PingLog>
    var pingLogs: seq<PingLog>
    ghost var history: seq<PingLog>

    ghost predicate Valid()
      reads this
    {
      pingLogs == Recent(history) &&
      lastPingResult == (if history == [] then None else Some(history[|history| - 1]))
    }

    /** The state at start-up: no pings yet, the first one due one interval after `loadedAt`. */
    constructor (loadedAt: int, interval: int)
      requires IsDrawnInterval(interval)
      ensures Valid() && history == []
      ensures pingLogs == [] && lastPingResult == None
      ensures nextPingAt == loadedAt + interval
      ensures loadedAt + MIN_INTERVAL_MS <= nextPingAt <= loadedAt + MAX_INTERVAL_MS
    {
      nextPingAt := loadedAt + interval;
      lastPingResult := None;
      pingLogs := [];
      history := [];
    }

    /**
     * Record one attempt against `targetUrl`: the record goes to the front
     * of the log, the log is cut back to MAX_LOGS, and the record becomes
     * the last result, whichever way the request ended.
     */
    method ExecutePing(targetUrl: string, attempt: Attempt) returns (log: PingLog)
      requires Valid()
      modifies this
      ensures Valid()
      ensures log == MakeRecord(targetUrl, attempt)
      ensures history == old(history) + [log]
      ensures pingLogs == Inserted(old(pingLogs), log) && |pingLogs| <= MAX_LOGS
      ensures lastPingResult == Some(log)
      ensures nextPingAt == old(nextPingAt)
    {
      log := MakeRecord(targetUrl, attempt);
      pingLogs := [log] + pingLogs;
      if |pingLogs| > MAX_LOGS {
        pingLogs := pingLogs[..MAX_LOGS];
      }
      lastPingResult := Some(log);
      history := history + [log];
      RecentAppend(old(history), log);
    }

    /**
     * The timer tick at time `now`: when the next ping is due it pings the
     * configured target once and reschedules one `interval` after `now`,
     * the time read before the ping; otherwise it changes nothing.
     */
    method Scheduled(configured: Option<string>, now: int, attempt: Attempt, interval: int)
      requires Valid() && IsDrawnInterval(interval)
      modifies this
      ensures Valid()
      ensures now < old(nextPingAt) ==> unchanged(this)
      ensures now >= old(nextPingAt) ==>
        var log := MakeRecord(TargetUrl(configured), attempt);
        history == old(history) + [log] &&
        pingLogs == Inserted(old(pingLogs), log) &&
        lastPingResult == Some(log) &&
        nextPingAt == now + interval &&
        now + MIN_INTERVAL_MS <= nextPingAt <= now + MAX_INTERVAL_MS
    {
      if now >= nextPingAt {
        var targetUrl := TargetUrl(configured);
        var _ := ExecutePing(targetUrl, attempt);
        nextPingAt := now + interval;
      }
    }

    /**
     * The manual-ping endpoint: pings the configured target once and
     * reschedules one `interval` after `clockAfter`, the time read once the
     * ping has completed; returns the record.
     */
    method ManualPing(configured: Option<string>, attempt: Attempt, clockAfter: int, interval: int)
      returns (result: PingLog)
      requires Valid() && IsDrawnInterval(interval)
      modifies this
      ensures Valid()
      ensures result == MakeRecord(TargetUrl(configured), attempt)
      ensures history == old(history) + [result]
      ensures pingLogs == Inserted(old(pingLogs), result)
      ensures lastPingResult == Some(result)
      ensures nextPingAt == clockAfter + interval
      ensures clockAfter + MIN_INTERVAL_MS <= nextPingAt <= clockAfter + MAX_INTERVAL_MS
    {
      var targetUrl := TargetUrl(configured);
      result := ExecutePing(targetUrl, attempt);
      nextPingAt := clockAfter + interval;
    }

    /** The ping-logs endpoint: the newest MAX_LOGS records, newest first. */
    function PingLogs(): (logs: seq<PingLog>)
      reads this
      requires Valid()
      ensures |logs| == Min(|history|, MAX_LOGS) && |logs| <= MAX_LOGS
      ensures forall i :: 0 <= i < |logs| ==> logs[i] == history[|history| - 1 - i]
    {
      pingLogs
    }

    /**
     * The status endpoint at time `now`. The last ping time is absent when
     * there has been no ping, and also when the last record's timestamp is
     * the empty string.
     */
    function Status(configured: Option<string>, now: int): (report: StatusReport)
      reads this
      requires Valid()
      ensures report.isRunning && report.targetUrl == TargetUrl(configured)
      ensures report.cronSchedule == CRON_SCHEDULE && report.message == STATUS_MESSAGE
      ensures report.nextPingTime == nextPingAt
      ensures report.nextPingInSeconds * 1000 <= Max(0, nextPingAt - now) < report.nextPingInSeconds * 1000 + 1000
      ensures report.lastPingTime.Some? <==> history != [] && history[|history| - 1].timestamp != ""
      ensures report.lastPingTime.Some? ==> report.lastPingTime.value == history[|history| - 1].timestamp
    {
      var lastPingTime :=
        match lastPingResult
        case Some(log) => if log.timestamp != "" then Some(log.timestamp) else None
        case None => None;
      StatusReport(
        true,
        TargetUrl(configured),
        CRON_SCHEDULE,
        STATUS_MESSAGE,
        nextPingAt,
        lastPingTime,
        CountdownSeconds(nextPingAt, now))
    }
  }
}
