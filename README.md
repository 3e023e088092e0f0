# sugar-agent: a Dafny model of the task agent

sugar-agent is a worker that takes task messages from a RabbitMQ queue, one
at a time, and reports each task's lifecycle to a remote task authority over
HTTP. For each delivery it:

- logs in;
- reports the task as RECEIVED (status 1), then STARTED (2);
- runs the task;
- reports SUCCESS (3) or FAILURE (4) with a result record;
- acknowledges the delivery.

Every failed login, status report or acknowledgement goes through
`FailOnError`. It panics, and the panic ends the agent; so does a message
that does not decode. An error from the task is reported as FAILURE
instead, and the delivery is still acknowledged.

The one task type (0) collects performance data. It reads the CPU and host
properties once, then takes `count` samples of disk, memory, load and CPU
usage, pausing `intervals` seconds after each one. The host uptime is
rendered as text such as "1d 2h 3m 4s".

The model has one module per part of the agent:

| file | module | models |
|---|---|---|
| outcomes.dfy | `Outcomes` | Go's `(T, error)` and panics, as `Outcome<T> = Ok \| Fail \| Panic` |
| duration.dfy | `Humanize` | `humanizeDuration`, and a reader of its format |
| perfdata.dfy | `PerfData` | the `get*` helpers and `StartGetPerfDataTask` |
| task.dfy | `Task` | `StartTask`, the dispatch on `task_type` |
| api.dfy | `Api` | `UserLogin` and `UpdateTaskStatus`: the requests they build and how they read the reply |
| worker.dfy | `Worker` | `doWork`, as a trace of events, and the `Agent` class running its loop |
| worker_properties.dfy | `WorkerProperties` | the lifecycle and stream properties of that trace |
| cli.dfy | `Cli` | the seven-flag guard in `main` |

How the outside world enters the model:

- **I/O as values.** The authority's decoded replies, the metrics library's
  readings and the broker's acknowledgement result are inputs, held in the
  `Environment` and `Metrics` records.
- **Effects as events.** What the agent does is an event, in order: a login
  or status request, a metrics call or a pause, an acknowledgement, or a
  crash (`Halt`).
- **Panics.** A panic is `Outcome.Panic` inside a function. In the worker it
  is the `Halt` that ends the stream.
- **Integer conversions.** Go's truncating integer division is `Quot`, and
  its `uint16` conversion is `Uint16`.

Three behaviours of the code that the model keeps as they are:

- **Pause after the last sample.** The sampling loop sleeps after every
  sample, the last one included (internal/perfdata.go:267), so `count`
  samples make `count` pauses.
- **Report failures always crash.** A failed login or a failed status report
  goes through `FailOnError` (cmd/main.go:36, 43, 52, 80), so the agent
  crashes before the acknowledgement and the delivery is not acknowledged.
- **`task_config` is read for every type.** `StartTask` reads `task_config`
  (pkg/task/task.go:16) before it checks the task type, so a message of any
  type without it panics, not only type 0.

## Model

| member | source | states |
|---|---|---|
| Outcomes.Outcome.Propagate | internal/perfdata.go:239-259 | each early return builds a new error with the helper's own text, or passes the panic on: the same failure kind and text at another result type |
| Humanize.Quot | internal/perfdata.go:208-213 | Go's truncating division: for a non-negative dividend it is Euclidean division with the remainder in [0, b); for a negative one the quotient is ≤ 0 and the remainder is in (-b, 0] |
| Humanize.Components | internal/perfdata.go:207-214 | for seconds ≥ 0: days·86400 + hours·3600 + minutes·60 + seconds equals the input, with hours < 24 and minutes, seconds < 60; for a negative input no component is positive |
| Humanize.NatToString | internal/perfdata.go:215-226 | `%d` of a count: a non-empty run of decimal digits with no leading zero |
| Humanize.ParseNatToString | internal/perfdata.go:215-226 | reading the digits of `%d` gives the number back |
| Humanize.Humanize | internal/perfdata.go:206-231 | the step-by-step code (reduce `seconds`, append to `res`, drop the trailing space or give "0s") produces exactly `HumanizeDuration` |
| Humanize.NonPositiveIsZeroSeconds | internal/perfdata.go:227-230 | a zero or negative duration prints as "0s" |
| Humanize.RenderShape | internal/perfdata.go:215-226 | `res` is empty exactly when no component is positive; otherwise it starts with a digit and ends with a unit letter and one space, and is never "0s " |
| Humanize.HumanizeDurationShape | internal/perfdata.go:227-230 | the text is never empty, never starts or ends with a space, and is "0s" exactly when the duration is ≤ 0 |
| Humanize.ParseRender | internal/perfdata.go:215-226 | reading `res` back as "<n><unit> " terms gives exactly the positive components, in the order d, h, m, s |
| Humanize.HumanizeDurationTerms | internal/perfdata.go:215-230 | the text lists exactly the non-zero components in the order d, h, m, s, separated by single spaces, or the single term "0s" |
| Humanize.TotalOfTerms | internal/perfdata.go:208-214 | the listed terms add up to the components' value in seconds |
| Humanize.ParseHumanizeDuration | internal/perfdata.go:206-231 | round trip: reading the text of n ≥ 0 seconds gives n back |
| PerfData.Uint16 | internal/perfdata.go:92-93 | `uint16(n)` is below 65536, leaves values already in range unchanged, and keeps the low 16 bits of values outside it (differs from n by a multiple of 65536) |
| PerfData.GetCpuProperties | internal/perfdata.go:77-97 | success iff all three reads succeed and the CPU list is non-empty, with the model of the first CPU and both core counts as `uint16` of the reads; an empty list panics; otherwise the error is the text of the first failed read: physical cores, logical cores, then CPU info |
| PerfData.HumanizePercent | internal/perfdata.go:191-202 | values ≥ 100 become exactly 100; smaller values pass unchanged (rounding left out) |
| PerfData.GetCpuPercent | internal/perfdata.go:100-108 | never an error: a failed read gives -1, an empty reading panics, otherwise the result is `HumanizePercent` of the first reading, so at most 100 |
| PerfData.GetHostInfo | internal/perfdata.go:157-174 | success iff host.Info succeeds, with "get host info failed" otherwise; the uptime is `HumanizeDuration` of the host's uptime, so it has that format and reads back as the uptime in seconds, and every other field is copied unchanged |
| PerfData.TakeSample | internal/perfdata.go:248-267 | one loop turn as the code runs it equals `SampleRun`: reads disk, memory, load, CPU usage, then pauses, stopping at the first failed read |
| PerfData.StartGetPerfDataTask | internal/perfdata.go:237-277 | the counted loop with early returns produces exactly the outcome and calls of `PerfRun` |
| PerfData.FailedSamplesStay | internal/perfdata.go:247-259 | after a failed sample the loop stops: later turns change neither the result nor the calls |
| PerfData.SamplesInOrder | internal/perfdata.go:247-268 | without a failure the loop yields exactly n samples, sample k being the k-th taken, with each sample's five calls in a row |
| PerfData.SamplesOkIff | internal/perfdata.go:247-268 | the loop succeeds iff every sample succeeds |
| PerfData.SamplesFirstFailure | internal/perfdata.go:248-259 | a failed loop carries the failure of its first failed sample; its error is the disk, memory or load error exactly when that read is the one that failed |
| PerfData.CpuPercentFailureRecordsMinusOne | internal/perfdata.go:100-104 | a failed CPU-usage read does not abort the sample; the sample records -1 |
| PerfData.PerfRunSucceeds | internal/perfdata.go:237-277 | the task succeeds iff the properties and every sample are read; it then returns those properties and exactly `count` samples in collection order |
| PerfData.PerfRunFailure | internal/perfdata.go:239-259 | all or nothing: a failed task returns no data, and its error is one of the five step errors, matching the step that failed |
| PerfData.PropertiesReadOnceFirst | internal/perfdata.go:239-246 | the CPU properties, then the host properties, are read first and never again |
| PerfData.ZeroCountReturnsPropertiesOnly | internal/perfdata.go:269-276 | with `count` 0 the task returns the properties and an empty sample list, and makes no sample read and no pause |
| Task.StartTask | pkg/task/task.go:11-34 | every error is "task type not supported" or "get perf data task failed"; only type 0 makes any metrics call |
| Task.UnsupportedTypeDoesNoWork | pkg/task/task.go:30-33 | any type but 0 fails with "task type not supported", with no data and no work done |
| Task.PerfDataTypeRunsPerfTask | pkg/task/task.go:18-29 | type 0 runs the task with `intervals` and `count` from `task_config`; success carries exactly its data, and any failure becomes "get perf data task failed" |
| Api.StatusPath | pkg/utils/api.go:30 | the path is "/api/v1/task-results/", the task id, then "/" |
| Api.StatusPathRoundTrip | pkg/utils/api.go:30 | the path names exactly the task it was built for, and every path read as a task's path was built that way |
| Api.Authorization | pkg/utils/api.go:32 | the header value is "Bearer " followed by the token |
| Api.AuthorizationRoundTrip | pkg/utils/api.go:32 | the header carries exactly the token it was built from, and every bearer value read as a token was built that way |
| Api.LoginRequest | pkg/utils/api.go:12-14 | a POST to base URL + "/api/v1/system/users/login/" carrying the credentials unchanged, as JSON |
| Api.UpdateRequest | pkg/utils/api.go:30-33 | a PATCH under the base URL to the task's status path, with a bearer header carrying the token and the update as JSON |
| Api.UserLogin | pkg/utils/api.go:15-23 | returns `data.access` iff code is 20000 and message is "登录成功"; any other decoded reply is "failed to login"; an unreadable reply panics |
| Api.UpdateTaskStatus | pkg/utils/api.go:34-41 | succeeds iff code is 20000 and message is "success"; any other decoded reply is "failed to update task status" |
| Worker.Decode | cmd/main.go:24-28 | never an error: a bad body, metadata, base URL or task id crashes the agent; otherwise the fields and credentials are taken as they are |
| Worker.TerminalUpdate | cmd/main.go:54-78 | SUCCESS iff the task succeeded, with status true, its data and "everything is ok"; otherwise FAILURE, with status false, no data and the error text |
| Worker.Finish | cmd/main.go:79-83 | the delivery is acknowledged, with its own tag, iff the final report is accepted and the ack succeeds |
| Worker.Handle | cmd/main.go:22-83 | no step happens unless the previous one completed; the login is sent iff the message decodes; an ack carries the delivery's tag |
| Worker.AcceptedBeforeNext | cmd/main.go:35-52 | RECEIVED is reported only after the login succeeded, STARTED only after the server accepted RECEIVED, and the task runs and its final report is sent only after the server accepted STARTED |
| Worker.HandleDelivery | cmd/main.go:22-83 | the step-by-step loop body, with the `taskStatus`, `resultDesc` and `resultStatus` locals, produces exactly `Events(Handle(d, env))` and stops exactly when the delivery crashes the agent |
| Worker.CompletedOf | cmd/main.go:21-84 | the deliveries counted as completed all ended acknowledged, and the one after them, if any, crashed the agent |
| Worker.TraceStep | cmd/main.go:21-84 | the first delivery is handled to its end before the next; the rest are handled only if it did not crash the agent |
| Worker.Agent.DoWork | cmd/main.go:20-85 | the loop over deliveries appends exactly `Trace(ds, env)`; the agent ends crashed iff some delivery was not acknowledged |
| WorkerProperties.EventsShape | cmd/main.go:35-83 | a delivery's trace is login, reports and metrics calls, followed by exactly one acknowledgement or crash |
| WorkerProperties.StatusesOfEvents | cmd/main.go:39-80 | the statuses a delivery reports come from its RECEIVED, STARTED and final requests, in that order |
| WorkerProperties.AckTagsOfEvents | cmd/main.go:79-83 | a delivery's trace acknowledges its own tag once if it ends acknowledged, and nothing otherwise |
| WorkerProperties.HaltOnlyAtEnd | cmd/main.go:22-83 | a delivery's trace is never empty, and only its last event can be a crash |
| WorkerProperties.ReportBodies | cmd/main.go:39-78 | RECEIVED and STARTED carry only `task_status`; the final report is SUCCESS or FAILURE and carries a result |
| WorkerProperties.AckedIff | cmd/main.go:35-83 | acknowledged iff the message decodes, the authority accepts the login and all three reports, the task does not crash, and the ack succeeds |
| WorkerProperties.TerminalReportsTask | cmd/main.go:56-80 | the final report states the task outcome: SUCCESS with exactly its data, or FAILURE with exactly its error and no data |
| WorkerProperties.RecordedRequests | cmd/main.go:27-79 | the login request uses the message's base URL and credentials; each status request is addressed to the task under that base URL with the login's token |
| WorkerProperties.RequestsOfEvents | cmd/main.go:27-79 | every request in a delivery's trace is one of the login, RECEIVED, STARTED or final requests it records |
| WorkerProperties.RequestsAddressTheTask | cmd/main.go:27-79 | the login goes to the message's base URL with its credentials; every report goes to that task's status path under the same base URL, with the token the login returned |
| WorkerProperties.StatusOrder | cmd/main.go:39-80 | reports are a prefix of RECEIVED, STARTED, then one terminal status; an acknowledged delivery made all three |
| WorkerProperties.LoginRejectedReportsNothing | cmd/main.go:35-36 | a failed login is followed only by the crash, with no report |
| WorkerProperties.ReceivedRejectedStops | cmd/main.go:38-43 | when the server rejects RECEIVED, the trace is the login, the RECEIVED report and the crash: STARTED is never sent |
| WorkerProperties.StartedRejectedStops | cmd/main.go:47-52 | when the server rejects STARTED, the trace is the login, both reports and the crash: the task never runs and no final report is sent |
| WorkerProperties.UnsupportedTaskReportsFailure | cmd/main.go:60-80 | an unsupported task type is still reported, as FAILURE "task type not supported" with no data and no metrics call |
| WorkerProperties.StreamAckTags | cmd/main.go:21-84 | over successive deliveries, the acknowledged tags are those of the completed prefix, in order |
| WorkerProperties.AcksInArrivalOrder | cmd/main.go:21-84 | the acknowledged tags are exactly those of the deliveries completed before the first crash, once each, in arrival order |
| WorkerProperties.StreamCrash | cmd/main.go:21-84 | over successive deliveries, a crash is the last event, and there is one iff some delivery was not acknowledged |
| WorkerProperties.CrashEndsTrace | cmd/main.go:21-84 | a crash is the last event, and the trace ends in a crash iff some delivery was not acknowledged |
| WorkerProperties.AckIsLast | cmd/main.go:79-83 | when the final request is a SUCCESS or FAILURE report, the acknowledgement is the last event and directly follows that report |
| WorkerProperties.AckOnlyAfterReport | cmd/main.go:79-83 | within one delivery the acknowledgement is the last event and directly follows the final report |
| WorkerProperties.StreamAcksFollowReports | cmd/main.go:21-84 | if each delivery's acknowledgement follows its final report, the same holds across the whole stream |
| WorkerProperties.AckFollowsTerminalReport | cmd/main.go:79-83 | across the stream, every acknowledgement directly follows a SUCCESS or FAILURE report |
| Cli.TrimSpaceShape | cmd/main.go:176 | `strings.TrimSpace` is empty iff the flag is all Unicode white space; otherwise it starts and ends with a non-space |
| Cli.TrimSpaceIdempotent | cmd/main.go:176 | trimming twice is trimming once |
| Cli.Launch | cmd/main.go:176-180 | the consumer starts iff each of the seven flags holds a non-space character, and it gets the flags untrimmed; otherwise only the tips are shown |

## Left out

- Broker plumbing is not modelled: `startConsuming` (connection, exchange and queue declaration, QoS, binding, consumer registration, the `forever` channel). It is configuration I/O with no logic beyond `FailOnError`. A delivery stream is a finite sequence.
- HTTP transport (pkg/utils/request.go) is not modelled. A request is the value the client would send. The reply is the decoded JSON, or `Unreachable` / `NotJson`.
- JSON decoding and Go type assertions are not modelled. A field of the wrong type is `None`. Fractional or out-of-range numbers for `task_type`, `intervals` and `count` are not modelled. `intervals` and `count` are naturals, as `uint64(x)` gives them for sane inputs.
- The task's second decoding of the message body (pkg/task/task.go:12-14) is not modelled. It decodes the same bytes `doWork` already decoded, so it cannot fail there.
- The metrics library (gopsutil) is not modelled. Its answers are the fields of `Metrics`, per sample index.
- `getDiskInfo`, `getMemoryInfo` and `getLoadInfo` are recorded only as calls with their readings. The GB conversion (`humanizeGB`), the two-decimal rounding and the cap at 100 that `humanizePercent` puts on the used percentages and on each load average (internal/perfdata.go:120, 135, 149-151) are not modelled: `Metrics` holds the helpers' results as they come out.
- PerfData.HumanizePercent: does not model the two-decimal rounding through `strconv`; only the cap at 100 is kept.
- Humanize.Humanize: takes the whole seconds of the duration. The conversion `time.Duration(uptime) * time.Second`, which overflows int64 for uptimes beyond about 292 years, is not modelled.
- Timestamps are the `clock` oracle. Pauses are `Sleep` events, not delays. Logging and the elapsed-time measurement are not modelled.
- A zero `count` gives an empty sample list. The Go code gives a nil slice, which JSON encodes as `null` rather than `[]`.
- The wire codes of `task_status` (1 RECEIVED, 2 STARTED, 3 SUCCESS, 4 FAILURE; cmd/main.go:40, 49, 56, 62) are not modelled. A `StatusUpdate` carries the status itself, as the JSON encoding of the body is left out.
- Worker.Decode: the crash reasons are descriptive texts, not Go's exact runtime messages. A crash from `FailOnError` keeps its message argument but not the wrapped error text.
- The environment answers per delivery tag. Two deliveries with the same tag, which the broker does not produce on one channel, would get the same answers.
- `utils.ShowTips` output and flag parsing are not modelled. `Cli.Launch` decides only between starting and showing the tips.
