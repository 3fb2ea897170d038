# AgentLedger: a verified model

AgentLedger is a metering reverse proxy for model APIs. It passes requests through, counts
tokens and money, and enforces limits. This project models the stateful machines at its core
in Dafny and proves what they guarantee over whole runs:

| file | machine |
|---|---|
| `SseFraming.dfy`, `SseEvent.dfy`, `StreamInterceptor.dfy` | the streaming-response interceptor: cutting bytes into events, reading an event, folding usage, recording once |
| `WhatwgEvents.dfy` | the event-stream standard, and when the interceptor agrees with it |
| `Breaker.dfy`, `BreakerSteps.dfy` | the circuit breaker, one request at a time and as interleaved atomic steps |
| `RateLimiter.dfy`, `RateBounds.dfy`, `SlidingWindow.dfy` | the request limiter, its sweep, how many requests an interval can hold, and when that is a sliding window |
| `LoopDetector.dfy`, `Tracker.dfy`, `TrackerRuns.dfy` | agent sessions: loop and ghost detection, eviction, expiry, and the write-back to the store |
| `Budget.dfy`, `Admission.dfy`, `BudgetSteps.dfy` | budget rules and the spend cache, the pre-flight gate, and budget checks as interleaved atomic steps |
| `Recorder.dfy` | the asynchronous recorder: a bounded queue, producers and workers |
| `McpInterceptor.dfy` | pairing of tool calls with their responses |
| `Meter.dfy`, `Percentile.dfy`, `AlertCooldown.dfy` | price lookup, latency percentiles, alert deduplication |

Each stateful object is a class whose methods are proved to compute a step function
(`Step`, `Serve`, `Check`, ...), and the theorems are about every run of that step function.
Where requests interleave (breaker, budget checks, recorder, flushes of the session tracker),
each atomic action is one step and a run is any sequence of enabled steps.

Conventions. Times are integers (nanoseconds) and money and percentiles are real numbers.
Each reading of the clock in the source is its own parameter; a run requires that the clock
does not go back. Code that the machines are given (glob matching, the provider's chunk
parser, the token estimator, tool prices, the calendar) is a function-valued parameter, so the
results hold for all of it. Loops over Go maps pick keys in an arbitrary order. Integers are
unbounded.

`dafny verify dfyconfig.toml` checks the whole project.

## Main results

- Framing of a stream does not depend on how the network cut it, exactly when no CR LF CR LF
  comes before an LF LF (`SseFraming.ChunkIndependentIff`); then neither does the record
  (`StreamInterceptor.DeliveryInvisible`), of which there is exactly one
  (`StreamInterceptor.RecordedExactlyOnce`, `StreamInterceptor.RecordMeaning`), and what each
  block adds to it follows from its lines alone (`StreamInterceptor.ParseEventMeaning`).
- The breaker counts the attempts that ended in a transport error or a status of at least 500
  since the last other one (`Breaker.CounterMeaning`), and rejects exactly by that count and the
  timeout (`Breaker.AttemptedIff`). Over every interleaving, its Open branch lets a request
  through only on the latest completed trip and after the timeout
  (`BreakerSteps.OpenBranchSound`).
- The limiter admits at most 2N, 2N - 1 or 2H - 1 requests in any interval
  (`RateBounds.MinuteBound`, `RateBounds.HourBound`), and is a sliding window for exactly the
  rules that `SlidingWindow.SlidingWindowIff` names; its sweep is invisible
  (`RateLimiter.SweepInvisible`).
- Sessions: totals are the sums over each incarnation and reach the store
  (`TrackerRuns.FlushedStateAgrees`, `TrackerRuns.EndedSessionsAreFlushed`,
  `TrackerRuns.AgreesIff`), the session metrics balance (`TrackerRuns.SessionAccounting`), and
  loop alerts are exact on the untrimmed history (`TrackerRuns.LoopAlertExact`).
- A budget check gives the stricter of two exactly described results (`Budget.DecisionExact`,
  `Budget.CheckExact`). Over every interleaving of checks, queries, stores, records and rule
  changes, decisions rest on recent truth (`BudgetSteps.JudgedOnRecentTruth`), are not too strict within
  a day (`BudgetSteps.NeverStricterThanFresh`), and spend passes a limit by no more than what
  was unrecorded at the fetch (`BudgetSteps.Overshoot`).
- Records are conserved and all written before a close returns (`Recorder.Conservation`,
  `Recorder.ClosedMeansWritten`, `Recorder.CloseTerminates`), and only a full queue drops one
  (`Recorder.DroppedIff`).
- Each tool call that is answered gives one record, of call and answer together
  (`McpInterceptor.RecordsMeaning`).

## Where the code differs from what is said about it

- `docs/features/circuit-breaker.md:19` says that half-open lets one request through. The code
  lets every request through (`BreakerSteps.TwoProbesAtOnce`, for every setting), and its swap
  can leave an Open newer than the one that was measured (`BreakerSteps.SwapHitsNewerOpen`).
  A swap within one timeout of its measurement leaves an Open whose timeout has passed exactly
  when no trip completed since the measurement (`BreakerSteps.HalfOpenEntry`).
- `docs/features/rate-limiting.md:19` speaks of a sliding window. The windows are fixed and
  start with a request. A rule with one limit is a sliding window exactly when the limit is 1;
  with N per minute and H per hour, the minute is one exactly when N is 1 and H is 1 or at
  least 60, or N is at least 2 and 2H is at most N + 2, and the hour exactly when H is 1 or at
  least 61N - 1 (`SlidingWindow.SlidingWindowIff`).
- Event framing looks for LF LF in the whole buffer before it looks for CR LF CR LF
  (`SseFraming.MixedExample`).
- Of a block whose lines end in LF or CR LF, the code reads the data of the events that section
  9.2.6 of the WHATWG HTML Living Standard dispatches exactly when no blank line parts two data
  lines, no value has white space at its ends beyond one leading space and, if there are values,
  no data line lacks its colon and the first value is not empty
  (`WhatwgEvents.EventsMatchStandardIff`; failing lines in `WhatwgEvents.EmptyValueExample` and
  `WhatwgEvents.DoubleSpaceExample`).
- The comment above `matchRule` in `internal/budget/budget.go:220-221` says that the most
  specific rule is chosen; the code takes the first that matches (`Budget.BroadRuleShadows`).
  The two agree for all keys exactly when a rule comes before a strictly narrower one only
  where still earlier rules match all keys of the narrower one (`Budget.MostSpecificIff`).
- The pre-flight test sees one result only. When the tenant's warning replaces the key's
  result, the key's limit is not tested (`Admission.TenantWarningHidesKeyLimit`;
  `Admission.CheckProtectsKeyIff` says exactly when it is protected).
- Cached figures outlive the day: a key that spent its limit yesterday can be blocked for one
  time-to-live of the new day (`Budget.StaleDayStillBlocks`). With figures of the present day
  and month no decision is too strict (`BudgetSteps.NeverStricterThanFresh`).
- Closing the session tracker flushes while the background flush may be running, and when
  flushes overtake each other a row can stay out of date (`TrackerRuns.TwoFlushersLoseUpdate`).
  A settled row is right exactly when the flush that wrote the id last is the one that took it
  last, or took a row that shows the same (`TrackerRuns.AgreesIff`). That is so when rows of an
  id are written in the order they were taken (`TrackerRuns.FlushedStateAgrees`), in particular
  with one flush at a time (`TrackerRuns.OneFlusherInOrder`).
- Trimming the call history keeps the newest call exactly when nothing is trimmed or that call is
  not itself older than the window by then (`LoopDetector.TrimKeepsNewestIff`,
  `LoopDetector.TrimDropsNewest`).
- The SQLite latency query reads at most 10000 rows in ascending order, so with more rows the
  percentile is too low unless the samples involved are equal (`Percentile.RowLimit`,
  `Percentile.RowLimitTooLow`, `Percentile.RowLimitExample`).

## Model

| member | source | states |
|---|---|---|
| `SseFraming.ChunkIndependentIff` | internal/proxy/streaming.go:84-124 | the events of a stream are independent of its delivery iff no CR LF CR LF comes before an LF LF |
| `SseFraming.FrameLossless` | internal/proxy/streaming.go:103-124 | for every buffer, the blocks with their terminators and the leftover are the buffer, and the leftover holds no terminator |
| `SseFraming.FeedLossless` | internal/proxy/streaming.go:84-124 | the same over any sequence of reads |
| `SseFraming.FeedEqualsFrame` | internal/proxy/streaming.go:84-124 | every delivery of an unmixed stream yields the blocks and leftover of one read |
| `SseFraming.FrameSplit` | internal/proxy/streaming.go:84-124 | in an unmixed stream, cutting a prefix first and the remainder later gives the cuts of the whole |
| `SseFraming.MixedDisagrees` | internal/proxy/streaming.go:103-124 | every mixed stream has a delivery whose events differ from those of one read |
| `SseFraming.PrefixDisagrees` | internal/proxy/streaming.go:103-124 | a read that stops after the first CR LF CR LF of a mixed stream cuts a shorter block than the single read does |
| `SseFraming.MixedExample` | internal/proxy/streaming.go:103-124 | a CR LF CR LF b LF LF is one event in one read and two events in two reads |
| `WhatwgEvents.EventsMatchStandardIff` | internal/proxy/streaming.go:128-148 | for every block whose lines end in LF or CR LF, code and standard agree on the data dispatched iff no blank line parts two data lines, all values are plain and, if there are any, none comes from a line without a colon and the first is not empty |
| `WhatwgEvents.EmptyValueExample` | internal/proxy/streaming.go:137-148 | of the line `data:` alone the code reads nothing, and the standard an event with empty data |
| `WhatwgEvents.DoubleSpaceExample` | internal/proxy/streaming.go:137-142 | of a data line with two spaces before x the code reads x, and the standard a space and x |
| `SseEvent.PayloadMeaning` | internal/proxy/streaming.go:128-144 | the payload is the trimmed data values joined by LF, without the leading empty ones |
| `SseEvent.EventTypeMeaning` | internal/proxy/streaming.go:135-136 | the event type is the trimmed value of the last `event:` line, and empty if there is none |
| `SseEvent.WhiteCharacters` | internal/proxy/streaming.go:136-138 | of all characters below U+10000, in UTF-8, exactly the white-space characters of Unicode are trimmed, at either end |
| `SseEvent.SplitLinesJoin` | internal/proxy/streaming.go:132-133 | the lines of a block joined by LF are the block |
| `SseEvent.FieldNames` | internal/proxy/streaming.go:135-146 | the prefixes and the end marker are the characters of `event:`, `data:` and `[DONE]` |
| `SseEvent.ScanBlock` | internal/proxy/streaming.go:132-144 | the loop over the lines computes event type and payload of the block |
| `StreamInterceptor.RecordedExactlyOnce` | internal/proxy/streaming.go:84-230 | every sequence of reads and closes that reaches an end emits exactly one record and at most one charge, for what came up to the first end; all others emit none |
| `StreamInterceptor.RecordMeaning` | internal/proxy/streaming.go:170-212 | over the contributions of all event blocks up to the first end, the record has the last reported model or else the request's, the last positive counts, an estimate of the output iff none was reported and there is text, and the price of these; the session is charged the same |
| `StreamInterceptor.DeliveryInvisible` | internal/proxy/streaming.go:84-230 | two runs that deliver the same unmixed bytes record and charge the same |
| `StreamInterceptor.UsageMeaning` | internal/proxy/streaming.go:150-167 | over any events, the model is the last non-empty one, the counts are the last positive ones, and the text is all text |
| `StreamInterceptor.ParseEventMeaning` | internal/proxy/streaming.go:128-153 | for every block: it contributes nothing if the joined data is empty or `[DONE]`, and otherwise what the parser makes of the value of the last `event:` line and that data |
| `StreamInterceptor.ChunksMeaning` | internal/proxy/streaming.go:103-153 | of any blocks, the chunks are the contributions of those that contribute, in order |
| `StreamInterceptor.RunBeforeEnd` | internal/proxy/streaming.go:84-124 | until the stream ends nothing is recorded, and buffer and usage follow the framing of the delivered bytes |
| `StreamInterceptor.Interceptor.Read` | internal/proxy/streaming.go:84-94 | bytes are passed on unmodified, and the new state is the read step of the machine the theorems are about |
| `StreamInterceptor.Interceptor.Close` | internal/proxy/streaming.go:96-99 | the close step of the same machine |
| `StreamInterceptor.Interceptor.ProcessEvents` | internal/proxy/streaming.go:103-124 | the loop terminates, leaves the framing's leftover and has absorbed every block in order |
| `StreamInterceptor.Interceptor.ParseSseEvent` | internal/proxy/streaming.go:128-167 | one block changes the usage by its contribution (`StreamInterceptor.ParseEventMeaning`), and nothing else |
| `StreamInterceptor.Interceptor.Finish` | internal/proxy/streaming.go:170-230 | the first call records and charges, later calls change nothing |
| `Breaker.SerialState` | internal/budget/circuit_breaker.go:51-101 | between serial requests the counter is the trailing run of failed attempts, the breaker is open iff that run reached the limit and closed otherwise, never half-open, and open is stamped with the last failure |
| `Breaker.CounterMeaning` | internal/budget/circuit_breaker.go:56-66 | over every run the counter is the length of the longest suffix of attempts that are transport errors or have a status of at least 500; the breaker is open iff that length is positive and reached the limit, and closed otherwise |
| `Breaker.HealthyRun` | internal/budget/circuit_breaker.go:56-66 | if all answers have a status below 500, the breaker stays closed with 0 failures and rejects nothing |
| `Breaker.AttemptedIff` | internal/budget/circuit_breaker.go:71-86 | after every run the next request is rejected iff the failures reached the limit and it arrives no later than the timeout after the last attempt ended; otherwise it is an attempt |
| `Breaker.ProbeSpacing` | internal/budget/circuit_breaker.go:71-96 | if all attempts after a trip fail, the k-th arrives strictly later than k timeouts after it |
| `Breaker.NextAttemptWaits` | internal/budget/circuit_breaker.go:71-86 | after a trip the next attempt arrives strictly more than the timeout later |
| `Breaker.BreakerTransport.RoundTrip` | internal/budget/circuit_breaker.go:51-69 | rejects exactly when not admitted, otherwise returns the upstream's answer, and takes the serial step whose runs `Breaker.CounterMeaning` and `Breaker.AttemptedIff` describe |
| `Breaker.BreakerTransport.Allow` | internal/budget/circuit_breaker.go:71-86 | refuses only an open breaker within its timeout; a granted probe leaves it half-open |
| `Breaker.BreakerTransport.RecordFailure` | internal/budget/circuit_breaker.go:88-96 | counts the failure and trips at the limit, stamping the time |
| `BreakerSteps.OpenBranchSound` | internal/budget/circuit_breaker.go:71-82 | over every interleaving, a request let through by the Open branch measured against the latest completed trip, one not older than the Open it loaded, and more than the timeout had passed |
| `BreakerSteps.HalfOpenEntry` | internal/budget/circuit_breaker.go:77-80 | half-open is entered only by a swap from Open by a thread that measured; for a swap within one timeout of the measurement, the timeout of the latest trip has passed iff no trip completed since the measurement |
| `BreakerSteps.InvKept` | internal/budget/circuit_breaker.go:71-101 | every interleaving keeps: the stamp is the latest completed trip, the lock is held by the one thread in the critical section, measurements and admissions are sound |
| `BreakerSteps.TwoProbesAtOnce` | internal/budget/circuit_breaker.go:71-86 | for every setting, two probes can be at the upstream at once after a single trip |
| `BreakerSteps.SwapHitsNewerOpen` | internal/budget/circuit_breaker.go:74-80 | for every setting, half-open can be entered at the very moment of the latest trip |
| `BreakerSteps.SerialRefinement` | internal/budget/circuit_breaker.go:51-101 | a request whose steps are not interleaved does what the serial breaker does |
| `SlidingWindow.SlidingWindowIff` | docs/features/rate-limiting.md:19-19 | for every rule, with one limit or both, its minute or hour is a sliding window over all runs iff the numbers satisfy an explicit condition |
| `SlidingWindow.KeepsPromise` | internal/ratelimit/limiter.go:67-117 | under that condition no run exceeds the limit in any interval of the window's length |
| `SlidingWindow.BreaksPromise` | internal/ratelimit/limiter.go:67-117 | otherwise some run does |
| `SlidingWindow.RunPaired` | internal/ratelimit/limiter.go:78-94 | in every run the first admission of a minute window is at its start, or is the first of an hour window |
| `SlidingWindow.StraddleReachesBound` | internal/ratelimit/limiter.go:67-117 | with one limit L of at least 2, per minute or per hour, a run has 2L - 1 admissions in one interval |
| `SlidingWindow.MinuteBoundReached` | internal/ratelimit/limiter.go:78-94 | with N per minute and H per hour and 2N <= H <= 59N, a run has 2N admissions in one minute |
| `RateBounds.MinuteBound` | internal/ratelimit/limiter.go:67-117 | with interleaved sweeps, any closed minute holds at most 2N admissions of a key, 2N - 1 without an hourly limit |
| `RateBounds.HourBound` | internal/ratelimit/limiter.go:67-117 | any closed hour holds at most 2H - 1 admissions of a key |
| `RateBounds.RunLogInv` | internal/ratelimit/limiter.go:67-117 | in every run the stored window counts exactly the latest admissions, and `limit` admissions later a window has been opened after the old one ended |
| `RateBounds.RunAnchored` | internal/ratelimit/limiter.go:87-94 | hour windows, and minute windows without an hourly limit, are only opened by an admitted request |
| `RateLimiter.SweepInvisible` | internal/ratelimit/limiter.go:152-167 | sweeps inserted anywhere change no decision and no retry-after value |
| `RateLimiter.SweepSimulation` | internal/ratelimit/limiter.go:107-117 | a run and the same run without sweeps agree on all live windows and all verdicts |
| `RateLimiter.SweepExact` | internal/ratelimit/limiter.go:152-167 | a sweep keeps exactly the windows of both maps whose end has not passed, unchanged |
| `RateLimiter.RefusalFacts` | internal/ratelimit/limiter.go:78-94 | a refusal changes no live count of any key; its retry-after lies between zero and the refusing window's length, a minute if the minute refuses; that window is full until then and counts anew strictly after |
| `RateLimiter.RefusedUntilRetry` | internal/ratelimit/limiter.go:67-117 | until the retry-after moment the key stays refused, whatever else happens |
| `RateLimiter.RunStarted` | internal/ratelimit/limiter.go:107-117 | in every run no window ends later than one length from now, and counts are not negative |
| `RateLimiter.EffectiveLimits` | internal/ratelimit/limiter.go:119-136 | a key is held to the positive limits of the first matching rule, to the default's where that rule sets none, and to the default if none matches |
| `RateLimiter.Limiter.Allow` | internal/ratelimit/limiter.go:67-105 | verdict and counters are those of the request step |
| `RateLimiter.Limiter.EvictExpired` | internal/ratelimit/limiter.go:152-167 | the sweep step on both maps |
| `RateLimiter.DropExpired` | internal/ratelimit/limiter.go:157-161 | exactly the windows that have not ended remain, for any iteration order |
| `TrackerRuns.FlushedStateAgrees` | internal/agent/session.go:316-339 | with any number of flushes that write each id's rows in the order taken: a session in memory carries the agent, user, task and start of the call that started the incarnation, its totals are the sums over the incarnation, every clean session that no flush still has to write agrees with its row, and so does the newest row taken of every id |
| `TrackerRuns.EndedSessionsAreFlushed` | internal/agent/session.go:316-339 | a flush takes an ended session out of memory, and once no flush has to write it the row holds its end and the sums of all calls and costs of the incarnation |
| `TrackerRuns.AgreesIff` | internal/agent/session.go:316-339 | over every run, with flushes in any order, a clean settled session has a row and agrees with it iff the flush that wrote the id last is the one that took it last, or took a row that shows the same |
| `TrackerRuns.OneFlusherInOrder` | internal/agent/session.go:300-314 | with one flush at a time rows are always written in order |
| `TrackerRuns.TwoFlushersLoseUpdate` | internal/agent/session.go:267-272 | for every configuration a run with two flushes ends with no flush in progress, a clean session and an outdated row |
| `TrackerRuns.SessionAccounting` | internal/agent/session.go:124-151 | at most 10000 sessions, ended iff completed, at most one ghost alert per incarnation, and started minus ended is active plus evicted-while-active minus repeated ends |
| `TrackerRuns.LoopAlertExact` | internal/agent/session.go:153-176 | over every run, a call raises an alert iff the same-path calls in the window over the full untrimmed history reach the threshold |
| `TrackerRuns.StatusOneWay` | internal/agent/session.go:197-233 | all the while an id stays tracked its start is kept, its call count does not fall, and its status goes only from active to completed |
| `TrackerRuns.ExpiryExact` | internal/agent/session.go:341-372 | over every run, an expiry completes exactly the active sessions whose last activity, read from the history, is more than the session timeout ago |
| `TrackerRuns.EndExact` | internal/agent/session.go:211-233 | an end completes the session named, with that time, and no other |
| `TrackerRuns.GhostsExact` | internal/agent/detector.go:74-97 | over every run, a scan reports exactly the active sessions not reported before that reached the age, the number of calls and the cost of a ghost, all three read from the history |
| `TrackerRuns.ForgottenIff` | internal/agent/session.go:274-330 | a step takes a session out of memory iff it is a flush and the session is not active, or 10000 sessions are tracked, a new one starts and this is the victim, which has minimal last activity |
| `TrackerRuns.RunInv` | internal/agent/session.go:124-404 | every run of calls, costs, ends, expiries, ghost scans, flush snapshots and single row writes keeps the whole invariant |
| `LoopDetector.ScanIsCount` | internal/agent/detector.go:47-56 | on calls in time order the early exit misses nothing |
| `LoopDetector.CountMeaning` | internal/agent/detector.go:47-56 | the count is the number of positions with that path that are not before the cutoff |
| `LoopDetector.CountSplit` | internal/agent/session.go:162-172 | dropping calls from before the window does not change the count |
| `LoopDetector.TrimKeepsNewestIff` | internal/agent/session.go:153-172 | trimming keeps the newest call, and so the last activity, iff nothing is trimmed or that call is not before the window |
| `LoopDetector.TrimDropsNewest` | internal/agent/session.go:162-172 | eleven calls at 0, a window of 10, a trim at 11: all are dropped |
| `LoopDetector.CheckLoop` | internal/agent/detector.go:42-69 | alerts iff the scan reaches the threshold, with that count, session and agent |
| `LoopDetector.TrimCalls` | internal/agent/session.go:162-172 | drops exactly the leading calls before the window, for long histories only |
| `Tracker.SessionTracker.TrackCall` | internal/agent/session.go:124-194 | the session is started or extended and trimmed, a session of minimal activity makes room when needed, and an alert with session, agent and count is returned and sent iff a loop is found |
| `Tracker.SessionTracker.EvictOldest` | internal/agent/session.go:274-298 | removes one session of minimal last activity, for any iteration order |
| `Tracker.SessionTracker.RecordCost` | internal/agent/session.go:197-208 | adds cost and tokens to a tracked session and to no other |
| `Tracker.SessionTracker.EndSession` | internal/agent/session.go:211-233 | completes a tracked session, also one that had ended, and counts it |
| `Tracker.SessionTracker.TakeDirty` | internal/agent/session.go:317-324 | takes exactly the dirty sessions and marks them clean |
| `Tracker.SessionTracker.DropEnded` | internal/agent/session.go:325-330 | forgets exactly the clean sessions that are not active |
| `Tracker.WriteRows` | internal/agent/session.go:333-338 | upserting in any order stores every row, a new one as taken and an existing one with its origin kept, and leaves all others alone |
| `Tracker.FlushedMore` | internal/ledger/sqlite.go:264-274 | one more upsert stores that row, with the origin of the row that was there, and keeps what is stored |
| `Tracker.SessionTracker.ExpireIdleSessions` | internal/agent/session.go:341-372 | exactly the idle active sessions end, and each is counted |
| `Tracker.ExpireLoop` | internal/agent/session.go:350-371 | the same for any iteration order |
| `Tracker.SessionTracker.DetectGhosts` | internal/agent/session.go:374-404 | with a clock reading per session, sends exactly one alert, with session and agent, for each new ghost and marks it |
| `Tracker.GhostLoop` | internal/agent/session.go:382-403 | the same for any iteration order |
| `BudgetSteps.Overshoot` | internal/proxy/proxy.go:187-224 | over every interleaving of requests of many keys and tenants, over any number of days, spend of a key or tenant since the start of the day (or month) of the fetch behind an admission stays below the daily (or monthly) limit of its blocking rule plus what was recorded after the clock reading of that fetch, each such record the only one of an admitted request that was unrecorded then |
| `BudgetSteps.NeverStricterThanFresh` | internal/budget/budget.go:132-334 | over every interleaving on an append-only ledger, failed queries included, a decision on figures of the present day and month is never stricter than current spend calls for |
| `BudgetSteps.JudgedOnRecentTruth` | internal/budget/budget.go:270-334 | over every interleaving and across days, what a request decides on was queried for its own key or tenant, for the day and month of that query, and was less than one time-to-live old, or fetched by itself |
| `BudgetSteps.RunInv` | internal/budget/budget.go:132-359 | arrivals, single steps of checks, completions, evictions and rule changes keep everything cached and held a true past spend |
| `BudgetSteps.UnadmittedUnspent` | internal/proxy/proxy.go:187-224 | a key of which no request was admitted has no spend in any interval |
| `BudgetSteps.SerialRefinement` | internal/budget/budget.go:132-181 | a request whose steps are not interleaved decides what the serial check decides and leaves the same cache |
| `Budget.MostSpecificIff` | internal/budget/budget.go:220-234 | the rule that applies is most specific for every key iff a rule precedes a strictly narrower one only where earlier rules match all keys of the narrower one |
| `Budget.BroadRuleShadows` | internal/budget/budget.go:228-232 | a general pattern before a special one: the general rule applies to a key of the special one |
| `Budget.FirstMatchApplies` | internal/budget/budget.go:222-251 | the first matching rule applies, merged with the default, and the default if none matches |
| `Budget.EffectiveRule` | internal/budget/budget.go:222-251 | the rule of a key has, field by field, the positive limits and share and the non-empty action of the first matching rule, and the default's where that sets none; without a match it is the default |
| `Budget.EffectiveTenantRule` | internal/budget/budget.go:254-267 | the same for the first rule of a tenant that has no pattern; without such a rule, and for the empty tenant, no rule applies |
| `Budget.StaleDayStillBlocks` | internal/budget/budget.go:304-334 | two checks around midnight: the second is blocked on yesterday's cached figures although today's spend allows it |
| `Budget.DecisionMonotone` | internal/budget/budget.go:185-218 | more spend never gives a milder decision |
| `Budget.DecisionExact` | internal/budget/budget.go:185-218 | the decision is Block iff the action is "block" and a positive limit is reached, Warn iff it is not Block and a positive limit, or a positive share of one, is reached, and Allow otherwise; the figures are the spend and limits it was made on |
| `Budget.CheckExact` | internal/budget/budget.go:132-181 | for every check, given the exact results of key and tenant, the result is the tenant's if it has a rule and is stricter or the key has no limits, else the key's, and Allow without figures if neither applies |
| `Budget.LookupMeaning` | internal/budget/budget.go:270-334 | the figures are the cached ones within the time-to-live, else the spend of the subject since the start of day and month, with zero for a failed query; only a fetch changes the cache, and only that entry |
| `Budget.CheckIsStricter` | internal/budget/budget.go:132-181 | the decision is the maximum of the key's and the tenant's evaluation, each on its own spend; `Budget.CheckExact` says what these are |
| `Budget.CallbacksEscalate` | internal/budget/budget.go:132-181 | callbacks have strictly increasing severity, the last is for the result, and there are none iff the result is Allow |
| `Budget.SpendGrows` | internal/budget/budget.go:304-334 | on nonnegative costs, more records and a later end never lower the spend |
| `Budget.Manager.GetSpend` | internal/budget/budget.go:270-334 | returns a cached entry within its time-to-live, otherwise fetches, stamps and stores; a failed query counts as zero |
| `Budget.Manager.CheckBudget` | internal/budget/budget.go:132-181 | result, cache and callbacks are those of the serial check that `Budget.CheckExact` and the other lemmas are about |
| `Budget.Manager.EvictStaleCache` | internal/budget/budget.go:350-359 | exactly the entries within their time-to-live remain |
| `Budget.EvictionExact` | internal/budget/budget.go:350-359 | eviction keeps exactly the entries no older than the time-to-live, and no later lookup sees a difference |
| `Admission.SerialOvershoot` | internal/proxy/proxy.go:206-223 | in serial runs with fresh spend, honoured max_tokens and no dearer response model, spend passes the limit by at most one request's input cost |
| `Admission.PreflightProtectsIff` | internal/proxy/proxy.go:206-223 | the pre-flight test on one result protects the daily and monthly limits of another iff that one has none, or the tested one leaves nothing or no more |
| `Admission.TenantWarningHidesKeyLimit` | internal/budget/budget.go:163-178 | on a concrete ledger, check and gate forward a request of estimated cost 50 for a key with 1 left, because the tenant's warning replaced the key's result |
| `Admission.CheckProtectsKeyIff` | internal/budget/budget.go:163-180 | the gate on the result of a check protects the key's limits iff the key has none, the tenant's decision is not stricter, or the tenant's limits leave nothing or no more than the key's |
| `Admission.MissingMaxTokensUnbounded` | internal/proxy/proxy.go:208-208 | without max_tokens a single request can pass the limit by any amount |
| `Admission.GateExact` | internal/proxy/proxy.go:190-223 | a request is blocked iff the decision is Block, rejected before flight iff else it states max_tokens, its worst case has a positive price and passes a positive limit, and forwarded otherwise |
| `Recorder.Conservation` | internal/ledger/recorder.go:46-77 | over every interleaving, submitted is dropped, queued, held and attempted together, as multisets, and the queue stays within its capacity |
| `Recorder.ClosedMeansWritten` | internal/ledger/recorder.go:63-77 | once Close has returned, every accepted record was attempted exactly once |
| `Recorder.CloseTerminates` | internal/ledger/recorder.go:63-77 | after the close every schedule is finite, and one that cannot go on has drained everything |
| `Recorder.ConservedStep` | internal/ledger/recorder.go:46-77 | every step of producers, workers and close keeps each record in exactly one place |
| `Recorder.SingleWorkerOrder` | internal/ledger/recorder.go:70-77 | a single worker writes in the order of submission |
| `Recorder.DroppedIff` | internal/ledger/recorder.go:46-53 | after every run, a submission is dropped iff accepted less taken equals the capacity at that moment, and is queued last otherwise |
| `Recorder.NothingDropped` | internal/ledger/recorder.go:46-77 | in a run with no more submissions than the capacity none is dropped, and after Close all were attempted |
| `Recorder.QueueLength` | internal/ledger/recorder.go:46-77 | over every run the queue holds accepted less taken records, and every submission is counted |
| `Recorder.InitialWorkers` | internal/ledger/recorder.go:22-42 | a new recorder is empty and has the workers asked for, or 4 |
| `Recorder.AsyncRecorder.Record` | internal/ledger/recorder.go:46-53 | never waits: enqueues, or drops and counts when full, as the submission of `Recorder.DroppedIff` |
| `McpInterceptor.RunMeaning` | internal/mcp/interceptor.go:68-191 | over every trace, the calls in flight are the unanswered ones, and records, server name and calls are those that `McpInterceptor.RecordsMeaning`, `ServerNameMeaning` and `PendingMeaning` describe |
| `McpInterceptor.RecordsMeaning` | internal/mcp/interceptor.go:92-175 | over every trace the records are, in order, one for each response that is the first after an unanswered tools/call of its id: with the tool of that call, the server announced by then, the price of server and tool, the time between the two, status 500 iff the response is an error and else 200, and the event's agent or else the default |
| `McpInterceptor.PendingMeaning` | internal/mcp/interceptor.go:92-130 | an id is pending iff a tools/call of it has had neither a response nor a later call with its id, and then with the tool and time of that call |
| `McpInterceptor.ServerNameMeaning` | internal/mcp/interceptor.go:117-191 | the server name is the last one announced by a response that answers no call, or the configured one |
| `McpInterceptor.CallsConserved` | internal/mcp/interceptor.go:92-175 | accepted calls are recorded, in flight, or overwritten by reuse of a pending id |
| `McpInterceptor.Interceptor.HandleMessage` | internal/mcp/interceptor.go:68-90 | takes the step of the trace machine for every message, malformed ones included |
| `McpInterceptor.Interceptor.HandleClientRequest` | internal/mcp/interceptor.go:92-115 | only a tools/call with id and parsable parameters becomes pending |
| `McpInterceptor.Interceptor.HandleServerResponse` | internal/mcp/interceptor.go:117-175 | a matching response removes the call and records it as `McpInterceptor.RecordsMeaning` says; any other one may only name the server |
| `Meter.FindPricing` | internal/meter/meter.go:47-65 | the loop returns the price of the longest non-empty key that is a prefix of the model, for every iteration order |
| `Meter.PricingKeyIsLongest` | internal/meter/meter.go:47-50 | for non-empty models the exact-match shortcut agrees with the longest-prefix rule |
| `Meter.LongestPrefixMeaning` | internal/meter/meter.go:47-65 | the reference lookup finds the longest non-empty key that is a prefix of the model, and nothing iff there is none |
| `Meter.LongestUnique` | internal/meter/meter.go:54-59 | that key is unique |
| `Meter.CalculateUnit` | internal/meter/meter.go:28-36 | a million tokens cost the price of the longest matching key, or nothing for an unknown model |
| `Meter.CalculateAdditive` | internal/meter/meter.go:28-36 | the cost of two usages together is the sum of their costs |
| `Meter.CalculateMonotone` | internal/meter/meter.go:28-36 | with nonnegative prices more tokens never cost less |
| `Percentile.RowLimit` | internal/ledger/sqlite.go:425-453 | with at most 10000 rows both ledgers agree; with more SQLite never reports too much, and is exact iff the samples between the two positions are equal |
| `Percentile.RowLimitTooLow` | internal/ledger/sqlite.go:425-453 | with more than 10000 different durations SQLite reports strictly too little, for every percentile |
| `Percentile.RowLimitExample` | internal/ledger/sqlite.go:425-453 | of the durations 0 to 10000 the median is 5000, and SQLite reports 4999.5 |
| `Percentile.PercentileIsContinuous` | internal/ledger/postgres.go:420-424 | the computed interpolation is the continuous percentile asked of Postgres |
| `Percentile.PercentileMonotone` | internal/ledger/sqlite.go:503-516 | percentiles are monotone in p, across segment boundaries |
| `Percentile.PointwiseMonotone` | internal/ledger/sqlite.go:503-516 | larger samples never give a smaller percentile |
| `Percentile.StatsOrdered` | internal/ledger/sqlite.go:449-453 | minimum, P50, P90, P99 and maximum are in order |
| `Percentile.AtBetween` | internal/ledger/sqlite.go:503-516 | a percentile lies between its two neighbouring samples |
| `AlertCooldown.DeliveredIff` | internal/alert/ratelimit.go:28-47 | an alert is delivered iff none with its key was delivered less than a cooldown earlier, evictions notwithstanding |
| `AlertCooldown.DeliveriesApart` | internal/alert/ratelimit.go:28-47 | deliveries of one key are at least a cooldown apart |
| `AlertCooldown.RunRemembers` | internal/alert/ratelimit.go:31-45 | in every run the table holds the last delivery of a key unless that is more than two cooldowns old |
| `AlertCooldown.TableExact` | internal/alert/ratelimit.go:28-59 | a suppressed alert changes nothing; a delivered one is stamped, and then exactly the entries no older than two cooldowns remain |
| `AlertCooldown.AlertKeyMeaning` | internal/alert/ratelimit.go:49-59 | alerts of one type share a key iff they have the same scope or both have none |
| `AlertCooldown.Notifier.Notify` | internal/alert/ratelimit.go:28-59 | delivers unless suppressed, stamps the key of type and scope, and evicts exactly the entries that are old at their own clock reading |

## Left out

- HTTP proxying, headers, TLS, routing, configuration loading, the command line, the dashboard, Slack and webhook delivery, telemetry and logging: plumbing over libraries.
- SQL text, migrations and drivers: the ledger is a sequence of entries and the session store a map.
- JSON decoding of provider chunks and JSON-RPC messages: parsed values come from a parameter or are the input.
- Glob matching, SHA-256 and token estimation: foreign code, taken as parameters.
- Admin handlers, the blocklist and the MCP price table: short lookups that would only add easy members.
- Floating-point rounding and integer overflow: reals and unbounded integers are used.
- Record fields that are copied unchanged (ids, provider, path, tenant, timestamps): not part of the modelled records. The duration of a tool call is kept in nanoseconds, where the source truncates it to milliseconds.
- Failed writes of session rows: the source logs them and the row stays as it was; the store results assume that upserts succeed.
- Evicted sessions: what was not flushed before an eviction is lost, and the results speak of each incarnation of an id.
- Submitting to the recorder after its close: a caller error that panics in the source; the step system does not allow it.
- `Enabled()` switches and missing callbacks: limits are taken as configured and both budget callbacks as set.
- Event blocks with a bare CR as line end: not compared with the event-stream standard.
