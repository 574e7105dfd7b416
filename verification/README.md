# HttpStress in Dafny

A model of the core of `HttpStress`, a Java load generator. It sends
`totalRequest` HTTP requests to one URL, with at most `concurrentRequest` in
flight, and prints a summary: how many responses carried each status code, and
the average response time in milliseconds.

The model covers four parts of `HttpStress.java`:

- **Configuration check** (`stress_config.dfy`, module `StressConfig`). This is
  the compact constructor of the `HttpStressInput` record. `Validate` returns the
  record, or the error of the first check that fails. Nullable Java strings are
  `Option<string>`. "Blank" follows `Character.isWhitespace` exactly, over
  Unicode scalar values. The method is compared upper-cased against GET, HEAD,
  PATCH, POST, PUT, DELETE.
- **Worker** (`worker.dfy`, module `Worker`). One forked request task. It builds
  the request and sends it through a `Transport`. The transport is a function
  standing for the HTTP client and the clock: it gives the reply that request
  number `k` receives. The request carries the method exactly as the caller
  spelled it, as the code does. The upper-casing correction of the finding
  below is modelled beside it, but `Execute` does not use it. The worker
  always yields exactly one `Outcome`: the response status with the measured
  duration, or the sentinel `(-1, 0)` when anything in its `try` throws. A `null` body or `null` headers also throw
  there, so they produce the sentinel too.
- **Collector** (`collector.dfy`, module `Collector`). `processResult`. It folds
  exactly `totalRequest` outcomes into a status → count map and a nanosecond sum.
  It then takes the average, using Java's truncating `toMillis` and `long`
  division. `TakeOutcomes` is the loop, `ProcessResult` builds the report from
  it, and `Summarize` is their functional specification.
- **Permits and dispatch** (`permits.dfy`, `dispatch.dfy`, modules `Permits` and
  `Dispatch`). The `ArrayBlockingQueue` used as a semaphore is a counter:
  `put` is `Acquire` and `take` is `Release`. The dispatch loop and the workers
  form a transition system over three kinds of event:
  - `Fork`: acquire a permit and fork the next request.
  - `Emit(k)`: worker `k` queues its outcome.
  - `Return(k)`: worker `k` returns its permit after pacing.

  Any interleaving the threads can produce is a schedule that `Run` accepts.

`http_stress.dfy` (module `HttpStress`) puts these together as `Execute`. It
proves the following about every schedule:

- The permit count stays within the capacity.
- Each request queues exactly one outcome.
- A completed run's summary does not depend on the order in which outcomes
  arrived.
- The counts add up to `totalRequest`.
- The sentinel `-1` is listed exactly when some request failed.
- When no request's duration is negative, the average is the floor of the
  total milliseconds over `totalRequest`.

Notes on the code:

- The result queue is an unbounded `LinkedBlockingQueue`. It is not bounded by
  the concurrency.
- `body` and `headers` are not checked at construction and may be `null`.
- Durations come from the wall clock (`Instant.now`), so the model does not
  assume they are non-negative. That every request's duration is
  non-negative is a hypothesis of the average lemma.
- The average is computed as `toMillis(total) / totalRequest`, with
  `Duration.toMillis` and `long` division both truncating toward zero. For
  non-negative totals this equals the floor of the total over `totalRequest`,
  and `Collector.AverageIsFloor` proves it.

## Model

| member | source | states |
|---|---|---|
| `JavaText.IsWhitespace` | src/main/java/com/egon89/stresstest/HttpStress.java:114-118 | the `Character.isWhitespace` table behind `isBlank`: tab through carriage return and the space are white space, the three non-breaking spaces U+00A0, U+2007 and U+202F are not, and nothing above U+3000 is |
| `JavaText.IndexOfNonWhitespace` | src/main/java/com/egon89/stresstest/HttpStress.java:114-118 | the scan behind `isBlank` stops at the first character that is not white space, or at the end, and everything before it is white space |
| `JavaText.IsBlankIsScan` | src/main/java/com/egon89/stresstest/HttpStress.java:114-118 | a string is blank (every character is white space in the sense of `Character.isWhitespace`, so the empty string is blank) exactly when the scan for a non-white-space character reaches the end |
| `JavaText.ToUpper` | src/main/java/com/egon89/stresstest/HttpStress.java:134-134 | upper-casing keeps the length and leaves no ASCII lower-case letter |
| `JavaText.ToUpperLetters` | src/main/java/com/egon89/stresstest/HttpStress.java:134-134 | upper-casing maps each ASCII lower-case letter to its upper-case counterpart and keeps every other character |
| `JavaText.ToUpperIdempotent` | src/main/java/com/egon89/stresstest/HttpStress.java:134-134 | upper-casing an upper-cased string changes nothing |
| `StressConfig.Validate` | src/main/java/com/egon89/stresstest/HttpStress.java:113-138 | the record is constructed exactly when url and method are non-null and non-blank, the upper-cased method is one of the six admitted ones, both counts are positive and the interval is not negative; a constructed record holds the arguments unchanged |
| `StressConfig.ValidateReportsFirstFailure` | src/main/java/com/egon89/stresstest/HttpStress.java:114-137 | the exception raised is the one of the first check, in source order, that fails, and none is raised when every check passes |
| `StressConfig.BlankChecksComeFirst` | src/main/java/com/egon89/stresstest/HttpStress.java:114-120 | a null or blank url is reported whatever else is wrong; a null or blank method is reported next; a null method never reaches the upper-casing membership test |
| `StressConfig.NumericBounds` | src/main/java/com/egon89/stresstest/HttpStress.java:122-132 | non-positive totalRequest, then non-positive concurrentRequest, then negative intervalSec are rejected in that order; a zero interval is accepted |
| `StressConfig.MethodCaseInsensitive` | src/main/java/com/egon89/stresstest/HttpStress.java:134-137 | when url, counts and interval pass, the method is accepted exactly when its upper-cased form is admitted and is otherwise reported as unknown; "get" and "Delete" are admitted, "FOO" and "CONNECT" are not |
| `Worker.BuildRequestAsWritten` | src/main/java/com/egon89/stresstest/HttpStress.java:41-46 | the request can be built exactly when body and headers are non-null, and it carries the method exactly as the caller spelled it |
| `Worker.BuildRequest` | src/main/java/com/egon89/stresstest/HttpStress.java:41-46 | the corrected request carries the url and headers, no body when the body is empty, and the configured method upper-cased, which is an admitted method whenever the configuration's method passed the check |
| `Worker.RequestOutcome` | src/main/java/com/egon89/stresstest/HttpStress.java:40-58 | a request, built with the method as spelled, yields status -1 exactly when building or sending it threw, and then a zero duration; otherwise it yields exactly the status and the measured duration of the response the transport gave |
| `Worker.NullBodyFailsEveryRequest` | src/main/java/com/egon89/stresstest/HttpStress.java:41-58 | with a null body, which the constructor does not reject, every request records the sentinel |
| `Worker.LowerCaseMethodSentVerbatim` | src/main/java/com/egon89/stresstest/HttpStress.java:43-44 | a configuration with method "get" is accepted, yet its request carries "get", which is none of the admitted methods |
| `Worker.AcceptedConfigSendsValidMethod` | src/main/java/com/egon89/stresstest/HttpStress.java:134-137 | with the method normalised, every request of an accepted configuration carries an admitted method, and it is the configured method up to case |
| `Worker.CorrectionKeepsCanonicalMethods` | src/main/java/com/egon89/stresstest/HttpStress.java:41-46 | for a method already spelled as one of the six admitted names, the corrected builder sends exactly the request the code sends |
| `Collector.ProcessResult` | src/main/java/com/egon89/stresstest/HttpStress.java:82-94 | the collector summarises exactly the first totalRequest outcomes (none if it is not positive): their status map, whose counts add up to the number taken, and the average |
| `Collector.TakeOutcomes` | src/main/java/com/egon89/stresstest/HttpStress.java:87-92 | the loop takes exactly max(totalRequest, 0) outcomes, and its map and duration total are the fold of exactly those outcomes |
| `Collector.Merge` | src/main/java/com/egon89/stresstest/HttpStress.java:89-89 | `merge(status, 1, Integer::sum)` lists the status with its previous count plus one, or 1 when it is new |
| `Collector.MergeKeepsOthers` | src/main/java/com/egon89/stresstest/HttpStress.java:89-89 | merging adds no key but the merged status and leaves every other count unchanged |
| `Collector.Tally` | src/main/java/com/egon89/stresstest/HttpStress.java:87-92 | after folding, every status that occurred is listed and every listed count is positive |
| `Collector.SumNanos` | src/main/java/com/egon89/stresstest/HttpStress.java:90-90 | `totalDuration.plus` over the outcomes sums their durations in nanoseconds, and the total is not negative when no single duration is |
| `Collector.Summarize` | src/main/java/com/egon89/stresstest/HttpStress.java:94-100 | the printed report echoes the requested total, lists every status taken, and has average 0 when nothing was requested |
| `Collector.JavaDiv` | src/main/java/com/egon89/stresstest/HttpStress.java:94-94 | `long` division truncates toward zero: the remainder is smaller than the divisor and has the sign of the dividend |
| `Collector.ToMillis` | src/main/java/com/egon89/stresstest/HttpStress.java:94-94 | `toMillis` keeps the whole milliseconds, dropping less than one millisecond on the side of zero |
| `Collector.AverageMillis` | src/main/java/com/egon89/stresstest/HttpStress.java:94-94 | the average is 0 when totalRequest is not positive, otherwise the quotient of the whole milliseconds by totalRequest truncated toward zero (the remainder is smaller than totalRequest and has the sign of the milliseconds), and it is not negative for a non-negative total |
| `Collector.TallyCounts` | src/main/java/com/egon89/stresstest/HttpStress.java:87-92 | a status is a key of the map exactly when it occurs among the outcomes, and its count is its number of occurrences, at least 1 |
| `Collector.TallyTotal` | src/main/java/com/egon89/stresstest/HttpStress.java:87-91 | the counts in the map add up to the number of outcomes folded |
| `Collector.TallyUniform` | src/main/java/com/egon89/stresstest/HttpStress.java:89-89 | outcomes that all carry status c fold to the single entry {c: their number} |
| `Collector.FailureReported` | src/main/java/com/egon89/stresstest/HttpStress.java:87-92 | -1 is a key of the map exactly when some outcome carries the sentinel status |
| `Collector.FoldPermutation` | src/main/java/com/egon89/stresstest/HttpStress.java:88-90 | any two arrival orders of the same outcomes give the same status map and the same duration sum |
| `Collector.AverageIsFloor` | src/main/java/com/egon89/stresstest/HttpStress.java:94-94 | with non-negative durations and a positive count, the average is the floor of the total whole milliseconds over the count, and is not negative |
| `Collector.NoRequestsAverageZero` | src/main/java/com/egon89/stresstest/HttpStress.java:94-94 | when totalRequest is not positive the average is 0 |
| `Permits.NewPool` | src/main/java/com/egon89/stresstest/HttpStress.java:26-26 | the permit queue can be created exactly when the capacity is at least 1, and starts with no permit held |
| `Permits.Acquire` | src/main/java/com/egon89/stresstest/HttpStress.java:36-36 | `put` proceeds exactly when a permit is free, takes one more, and keeps the count within the capacity |
| `Permits.Release` | src/main/java/com/egon89/stresstest/HttpStress.java:64-64 | `take` proceeds exactly when a permit is held and gives one back |
| `Permits.AcquireReleaseInverse` | src/main/java/com/egon89/stresstest/HttpStress.java:36-64 | a release undoes an acquire, and in a valid pool an acquire undoes a release |
| `Dispatch.Step` | src/main/java/com/egon89/stresstest/HttpStress.java:34-64 | the loop forks only while fewer than totalRequest requests are forked and a permit is free; a worker queues its outcome only once, after being forked, and returns its permit only after queuing; the queue only grows, by at most one outcome per step; the capacity never changes and at most one request is forked per step |
| `Dispatch.Run` | src/main/java/com/egon89/stresstest/HttpStress.java:34-64 | a schedule of the interleaved threads is accepted only if each event can happen in turn; along it the capacity stays fixed, no forked request is forgotten, and the queue only grows, by at most one outcome per event |
| `Dispatch.InitInv` | src/main/java/com/egon89/stresstest/HttpStress.java:25-26 | before the loop the invariant holds with the configured capacity |
| `Dispatch.ForkInv` | src/main/java/com/egon89/stresstest/HttpStress.java:34-38 | acquiring a permit and forking the next request keeps the invariant |
| `Dispatch.EmitInv` | src/main/java/com/egon89/stresstest/HttpStress.java:51-58 | a worker queuing its one outcome keeps the invariant |
| `Dispatch.ReturnInv` | src/main/java/com/egon89/stresstest/HttpStress.java:61-64 | a worker returning its permit after pacing keeps the invariant |
| `Dispatch.StepInv` | src/main/java/com/egon89/stresstest/HttpStress.java:34-64 | every step keeps the invariant and the capacity |
| `Dispatch.RunInv` | src/main/java/com/egon89/stresstest/HttpStress.java:26-64 | in every reachable state the permits in use equal the number of forked requests still holding one and never exceed the capacity, at most totalRequest are forked, and the queue holds exactly one outcome per request past its send |
| `Dispatch.CompletedRun` | src/main/java/com/egon89/stresstest/HttpStress.java:34-64 | when every request has finished, the permit count is back to 0, the queue holds totalRequest outcomes, each request 1..totalRequest put exactly one and no other request put any, and they are the requests' outcomes in some order |
| `Dispatch.SerialRun` | src/main/java/com/egon89/stresstest/HttpStress.java:34-67 | running requests one at a time for n rounds finishes the first n requests with no permit held and their outcomes queued in request order |
| `Dispatch.SerialCompletes` | src/main/java/com/egon89/stresstest/HttpStress.java:34-67 | the one-at-a-time schedule always completes the run |
| `HttpStress.Execute` | src/main/java/com/egon89/stresstest/HttpStress.java:18-71 | a call is rejected exactly when the record's constructor throws, with that error and before any request is sent; a completed call reports the configured positive totalRequest |
| `HttpStress.ReachableStatesBounded` | src/main/java/com/egon89/stresstest/HttpStress.java:26-64 | in any unfinished run the permits in use never exceed concurrentRequest and equal the requests still holding one |
| `HttpStress.SummaryIsOrderIndependent` | src/main/java/com/egon89/stresstest/HttpStress.java:28-70 | a completed run prints the summary of the outcomes of requests 1..N taken in request order, whatever order they arrived in |
| `HttpStress.SameSummaryForEverySchedule` | src/main/java/com/egon89/stresstest/HttpStress.java:28-70 | any two interleavings that complete print the same summary |
| `HttpStress.CompletedCounts` | src/main/java/com/egon89/stresstest/HttpStress.java:87-92 | in a completed run the counts add up to totalRequest and every listed status has a count of at least 1 |
| `HttpStress.FailuresVisible` | src/main/java/com/egon89/stresstest/HttpStress.java:51-89 | in a completed run -1 is listed exactly when some request's build or send threw |
| `HttpStress.FailedInOrder` | src/main/java/com/egon89/stresstest/HttpStress.java:56-58 | the outcomes of requests 1 to n include the -1 sentinel exactly when one of those requests threw |
| `HttpStress.UniformStatus` | src/main/java/com/egon89/stresstest/HttpStress.java:87-92 | when each of requests 1..totalRequest receives the same status c, the map is {c: totalRequest} |
| `HttpStress.CompletedAverage` | src/main/java/com/egon89/stresstest/HttpStress.java:84-94 | when none of requests 1..totalRequest has a negative duration, the average is the floor of the total whole milliseconds over totalRequest, and is not negative |
| `HttpStress.AcceptedConfigCanComplete` | src/main/java/com/egon89/stresstest/HttpStress.java:34-70 | every accepted configuration has a schedule that completes and prints a summary |

## Left out

- The HTTP transport (`HttpClient`, `URI.create`, request building, `client.send`). These are library calls. The `Transport` function stands for them, and any exception they raise is a `SendFailed` reply. Header validity, URL syntax and restricted methods are left to that function.
- `StructuredTaskScope.ShutdownOnFailure` with `fork`, `join` and `throwIfFailed`, thread interruption and cancellation. The model keeps only the order in which events can happen. A schedule that blocks or stops early ends as `Inadmissible` or `Unfinished`. Escalated task errors are not modelled.
- The collector's own interleaving. The result queue is a FIFO with no bound, so the collector takes outcomes in arrival order whenever it runs. The model summarises the arrival sequence once the run is complete.
- `Thread.sleep` pacing and `Instant.now` timing. Pacing is the `Pacing` phase, between `Emit` and `Return`. Durations are the `nanos` the transport reports. The total wall-clock time printed at the end is not modelled.
- All console output and the exception messages. The error is a `ConfigError` tag.
- The empty `validate` method. It has no behaviour.
- `StressTestApplication.java`. It is a hard-coded demo whose call passes seven arguments to `execute`, which takes one `HttpStressInput`.
- `build.gradle.kts`. It is build configuration.
- JavaText.ToUpper: `toUpperCase` is modelled on ASCII letters only, one character to one. Java's full Unicode mapping can change the length ("ß" becomes "SS") and maps some other characters to ASCII letters.
- StressConfig.Validate: because upper-casing is modelled on ASCII letters only, the method check does not admit spellings that Java admits, such as "poſt" (Java upper-cases U+017F to 'S').
- Collector.ProcessResult: the `ArithmeticException` that `Duration.plus` or `toMillis` throws on a `long` overflow is not modelled. A `Duration` keeps a `long` count of seconds, and `toMillis` multiplies it by 1000, so the total would have to exceed about 292 million years.
- Worker.RequestOutcome: a response's status is taken to be a three-digit code (100..999). The model relies on the HTTP client never reporting another value. Without that, a server-sent status of -1 could not be told apart from the sentinel.
- Dispatch.Step: request numbers are unbounded integers. The Java loop's `int` counter cannot overflow, because it stops at `totalRequest`, which is an `int`.

## Findings

| source | as written | input that shows it | evidently intended | confidence | as-written member | corrected member |
|---|---|---|---|---|---|---|
| src/main/java/com/egon89/stresstest/HttpStress.java:43-44 | the request is built with `input.method` as given, although line 134 checks it only after upper-casing | method "get": it is accepted, then sent as the token "get". HTTP methods are case-sensitive (section 9.1 of RFC 9110), so this is none of the admitted methods | send the upper-cased method that the check admitted | medium; not executed | `Worker.BuildRequestAsWritten`, exhibited by `Worker.LowerCaseMethodSentVerbatim` | `Worker.BuildRequest`, proved by `Worker.AcceptedConfigSendsValidMethod` and `Worker.CorrectionKeepsCanonicalMethods` |
