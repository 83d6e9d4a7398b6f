# Uptime worker ping bookkeeping, modelled in Dafny

The worker pings one target URL on a jittered schedule. A timer tick arrives
about once a minute and pings when the scheduled time has come. An operator
can also trigger a ping by hand, and can read the recent history and the
countdown to the next ping.

This model covers the worker's deterministic core:

- the `PingLog` record and how one attempt is classified: a response of any
  code, or a transport failure;
- the most-recent-first log, capped at `MAX_LOGS` = 20 entries;
- the three pieces of process-wide state (`nextPingAt`, `lastPingResult`,
  `pingLogs`), held as the fields of the class `Worker.Monitor`;
- the scheduled tick, the manual ping and their two reschedule rules;
- the status countdown and the `TARGET_URL` fallback.

The network, the clock, the random interval and the record id are inputs.
An `Attempt` value carries the id, the clock readings before and after the
request, the completion timestamp as text, and the `Outcome`. The outcome is
either `Response(code)` or `Failure(message)`. The clock reading a handler
takes itself is a parameter (`now`, `clockAfter`). The random interval is a
parameter in the range that `IsDrawnInterval` describes.

`Monitor` carries a ghost `history` holding every record made since start-up,
oldest first. `Valid()` says that the log is the newest 20 records of that
history, newest first, and that `lastPingResult` is its last record. Every
handler keeps `Valid()`.

Files: `decimal.dfy` (module `Decimal`: a whole number written as decimal
text, as `${response.status}` produces it, and its inverse) and `worker.dfy`
(module `Worker`: everything else).

## Model

| member | source | states |
|---|---|---|
| `Decimal.ToDecimal` | worker.ts:57 | the status text of a code is non-empty decimal digits with no leading zero (a leading '0' only for the code 0) |
| `Decimal.DecimalRoundTrip` | worker.ts:57 | reading the status text back as a decimal number gives the original status code |
| `Decimal.DecimalInjective` | worker.ts:57 | two different codes never produce the same status text |
| `Worker.TargetUrl` | worker.ts:109 | the target is `TARGET_URL` when it is present and non-empty, and otherwise the hard-coded default; it is never empty |
| `Worker.MakeRecord` | worker.ts:36-96 | id and timestamp come from the attempt, url is the target pinged, and responseTime is the finish time minus the start time. A response gives status text that is exactly `ToDecimal(code)`, the shortest decimal text of the code, which reads back as the code, `success` iff 200 <= code <= 299 (an ok status in the Fetch Standard), and no error. A transport failure gives status "ERROR", `success` false and error = the failure message. The status is "ERROR" iff the transport failed, and `error` is present iff `success` is false and the status is "ERROR" |
| `Worker.Inserted` | worker.ts:63-66 | the new record is at index 0; the rest is the old log's first min(n, 19) entries in the same order; the length is min(n + 1, 20) |
| `Worker.Reversed` | worker.ts:63 | the newest-first order that repeated `unshift` builds from the insertion order: entry i of the result is the i-th element counted from the end of the input, and the length is kept |
| `Worker.Recent` | worker.ts:33-34 | the log view of a history holds min(n, 20) entries, and entry i is the i-th newest record |
| `Worker.RecentAppend` | worker.ts:63-66 | inserting the next record into the log of a history gives the log of the extended history, so the front insert and the truncation maintain the log |
| `Worker.RecentIsNewestSuffix` | worker.ts:34 | the log is exactly the newest 20 records reversed; every older record has been evicted |
| `Worker.CountdownSeconds` | worker.ts:111-120 | the countdown is floor(max(0, nextPingAt - now) / 1000), stated by its bounds; it is never negative and is 0 once the ping is due |
| `Worker.CountdownNonIncreasing` | worker.ts:111-120 | with no reschedule in between, a later reading never shows more seconds than an earlier one |
| `Worker.Monitor.constructor` | worker.ts:30-34 | no record exists and the log is empty; the first ping is due one drawn interval after load, between 10 and 14 minutes |
| `Worker.Monitor.ExecutePing` | worker.ts:36-96 | the returned record is `MakeRecord`'s record. It is pushed onto the log with the tail cut to 20, and it becomes `lastPingResult` on either outcome. `nextPingAt` is unchanged and `Valid()` is kept |
| `Worker.Monitor.Scheduled` | worker.ts:141-153 | a tick before `nextPingAt` changes no state. A tick at or after it adds exactly one record for the resolved target and sets `nextPingAt = now + interval`, where `now` is read before the ping. That places the next ping between 10 and 14 minutes after `now` |
| `Worker.Monitor.ManualPing` | worker.ts:124-132 | one record is added and returned, and `nextPingAt` is the clock reading after the ping plus the interval |
| `Worker.Monitor.PingLogs` | worker.ts:104-106 | the endpoint returns at most 20 records, and entry i is the i-th newest record made; reading changes no state |
| `Worker.Monitor.Status` | worker.ts:108-121 | `isRunning` is true, the target is the resolved URL, and the schedule and message are the fixed texts. The countdown satisfies floor(max(0, nextPingAt - now) / 1000). The last ping time is present exactly when some ping has happened and its timestamp is non-empty, and then it is that timestamp. Reading changes no state |

## Left out

- The outbound `fetch`, its `User-Agent` header and the 30-second `AbortSignal` timeout (worker.ts:43-49): the request's result is the `Outcome` input, and a timeout is one kind of `Failure`.
- `getRandomInterval` (worker.ts:22-28): the `Math.random()` draw and its floating-point arithmetic are not modelled. The interval is an input within `IsDrawnInterval`, 600000 to 840000 ms inclusive. Float rounding can make the draw exactly 14 minutes, so the upper bound is not strict.
- `crypto.randomUUID()` (worker.ts:40): the id is an input, so its uniqueness is not stated.
- `Date.now()` and `toISOString()`: clock readings are integer inputs and timestamps are opaque strings. `StatusReport.nextPingTime` is the millisecond value rather than its ISO text.
- `Worker.Monitor.Status`: its contract is stated for states where `Valid()` holds, which every handler keeps.
- The Hono app and route registration around the handlers, the `cors()` middleware (worker.ts:98-101), JSON serialisation and `console` logging: they make no decision about the state.
- The `ASSETS` catch-all (worker.ts:135-137) passes the request to the static-asset binding, and the `fetch` forwarder (worker.ts:155-158) passes it to the router; neither reads or changes the ping state.
- Concurrency: a manual ping and a scheduled tick that overlap across `await` can interleave their writes. Each handler is modelled as one atomic step.

## Notes on the code

- `error` is `error.message` as given (worker.ts:82), which may be empty, so the model does not claim it is non-empty.
- `||` (worker.ts:109, 125, 146) also falls back to the default URL when `TARGET_URL` is the empty string.
- `lastPingResult?.timestamp || null` (worker.ts:119) reads an empty timestamp as absent too, and `Status` states this.
- Float rounding in worker.ts:26-27 can give exactly 840000 ms, so `IsDrawnInterval` includes its upper bound.
