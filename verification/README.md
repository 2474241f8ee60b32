# GoFaas, modelled and verified

A Dafny 4.11 model of the hard core of GoFaas: the queue of invocations with its workers, the
rate limiter, the demultiplexer for Docker logs, the two stores behind a function, the runtimes
and the PostgreSQL repositories. `dafny verify dfyconfig.toml` checks all of it.

## What is modelled

**Queue, workers and invocation rows** (`Types`, `Protocol`, `ProtocolInvariant`, `Lifecycle`,
`ProtocolTheorems`, `Deliveries`, `ProcessingList`, `Draining`, `Results`, `SharedStores`, `Services`).
`Protocol` is a state machine whose steps are single Redis commands, single repository calls and
single decisions of a worker. Any number of workers and `InvokeAsync` calls interleave freely, every
command may fail with or without having been applied, every process may die at any step, and
function deletions may drop rows at any time. `Pipeline()` is not a transaction, so its commands are
separate steps. `ProtocolInvariant` proves the inductive invariant of this machine; the main results
follow from it: one live copy of each message, one owner of each invocation, and from that the
refinement of `Lifecycle`, a table whose updates are indivisible and guarded although the code has
neither a lock nor a check for terminal rows. `Results` is about what the stores say in the end: rows
what runs gave, dead letters why the last run failed, messages what was pushed. `Services` holds `RedisQueue`, the invocation service
and the worker as classes, statement by statement, over the shared lists and rows of `SharedStores`.
Between any two accesses `Cluster.Others` stands for everybody else: its contract is all a caller
may use, so each method is proved against any behaviour of the other processes that the contract
allows, and what each method adds to the trace is exactly a piece of a legal run. How each call goes,
done or not, reported or not, is an argument, so that the contracts say of every course of events what
is done and what is reported.

`Dequeue` counts the attempt after the delivered bytes are in the processing list
(`internal/messaging/redis.go:53,66`), so the entry that `Ack`, `Nack` and `DeadLetter` look for
differs from the one in the list. The comments say that they remove it; the code does not. The
machine therefore has two forms. `AsCoded` removes what the code asks for, and it is proved that this
never matches and that the processing list is the complete log of deliveries. `AsMeant` removes the
delivered entry, and the list is proved to be exactly the open deliveries. Everything else is proved
of both forms.

**Rate limiter** (`RateLimit`, `RateLimitFailures`, `RateLimitOverlap`, `RateLimitReach`,
`RateLimitLatency`). The sorted set with its pruning and expiry, first for requests that follow each
other, with all four headers, then for pipelines that break off, and then for pipelines whose four
commands interleave: a bound for all runs, runs that reach it, and how slow pipelines may be before it
breaks.

**Demultiplexer** (`Demux`). `stripDockerLogHeaders` as the loop it is, against an encoder for the
stream format of the Docker Engine API ("Stream format" under "Attach to a container"): round trip,
concatenation, truncation, and what any input at all means.

**Function rows and code on disk** (`FunctionStore`, `FunctionService`). `FunctionStore` interleaves
any number of create, update and delete requests access by access; `FunctionService` is the service,
`LocalStorage` and the functions table as classes, whose accesses are steps of that machine.

**Repositories and runtimes** (`Timeouts`, `Metadata`, `StoredRuns`, `ListQuery`, `Runtimes`). Timeouts
through two roundings of doubles and an integer column, the columns of an invocation with their NULLs,
their times in microseconds and the texts they refuse or cut, the list queries with their placeholders
and pages, and the two `Execute` methods with every call they make, their results down to the metrics,
their environments and their deferred clean-up. The
queue's machine works on whole records; `StoredRuns` proves that over these columns it has the same
runs, and the same rows but for what columns keep. `Sets` holds a few facts about finite sets.

### Assumptions

- UUIDs are fresh. Marshalling a message does not fail, unmarshalling gives it back, and different messages have
  different bytes; entries of lists are records here.
- A Redis command is applied at most once and, if its error is reported, not after that: the client
  does not retry. The same holds for an UPDATE of an invocation. Either may fail after it was applied.
- There is one clock and it does not run backwards.
- SHA-256 has no collisions; base64, JSON and regular expressions do what their specifications say.
  `Json(text)` stands for a JSON value, whatever spelling JSONB gives it.
- Scores of the sorted set are exact integers. A float64 has 53 bits, nanoseconds since 1970 need 61.
- Go's `int` has 64 bits, so that a length of four bytes never overflows.
- Requests are JSON, so their texts are Unicode; the database is UTF-8 and texts are shorter than what
  it can hold. What its encoding or the numbers of JSONB refuse beyond that is a parameter, `Server`, as
  is the way it rounds a tie between two microseconds.
- A container sees the last of several values for one variable.

### What the proofs say about the code

- Nothing ever leaves the processing list, and nothing is ever redelivered from it
  (`ProcessingIsDeliveryLog`, `SettleRemovesNothing`).
- Nobody finishes a dead-lettered invocation: it stays pending or running (`DeadNeverTerminal`).
- The branch for an invalid payload cannot be taken (`NeverRejected`).
- Requests that share a nanosecond count as one (`SameInstantUndercounts`).
- With k overlapping pipelines a window lets at most N + 2(k - 1) requests through, as long as no
  pipeline takes longer than the key outlives the window (`WindowBoundUnderOverlap`), and for every N from
  one on and every k as many in some run, given a window of so many instants and pipelines that may wait
  long enough (`BoundIsReached`).
- N itself is kept exactly when nothing passes, the window has no more than N instants, no time passes
  under a pipeline, or pipelines come one at a time and are done in time (`LimitKept`).
- `X-RateLimit-Reset` is cut to a full second and is too early exactly when the fraction cut off still
  holds as many requests as the limit (`HeaderTooEarly`, `HeaderExact`).
- A row loses its code exactly when an INSERT that was applied is reported as failed and cleaned up
  after (`ConsistentExactly`, `FailedInsert`).
- Checksums match as long as updates of one function do not overlap and none ends between its code and
  its row (`ChecksumsMatch`); each way to end there breaks them (`CarelessStep`), and overlapping
  updates can (`RacingUpdates`).
- Retry-After can be too early in the same way (`RetryExact`); a second more is enough.
- Validation lets through what the table refuses, a timeout under a second and a NUL in a text among it
  (`WhatValidationMisses`).
- From 2^24 seconds on a timeout can come back longer than it was (`FirstToGrow`).
- Pipelines so slow that the key is gone break the bounds: those that take N + 2(k - 1) nanoseconds more
  than the key outlives the window in any window with the instants (`BoundBreaks`), and from half a minute
  on, with overlap, all that take any longer (`LatencyExactly`). As shipped, with 100 requests a
  minute, a single pipeline may take a minute and 99 nanoseconds, and overlapping ones a minute
  (`AsShipped`).
- A pipeline that stores its request and then fails can make the key expire too early, exactly as
  `MeaningWithFailures` says; it lets more requests through, never fewer.
- In a container, a variable of the function's own can hide the payload (`ContainerServed`); a process
  of the simple runtime always gets it (`SimpleRuntime.BuildEnv`).
- A nil from `GetContainerStats` ends the worker, after the clean-up (`ContainerRuntime.Execute`).
- Pages lose or repeat rows exactly when rows of one creation time are on different pages (`PagesTile`,
  `TiesMayRepeat`).

## Model

| member | source | states |
|---|---|---|
| ProtocolTheorems.SingleLiveCopy | internal/messaging/redis.go:28-114 | In every state of every run, each message that was pushed and not acked or abandoned is in exactly one place: once in the waiting list, or with one worker, or once in dead letter. Any other id is in none. |
| ProtocolTheorems.OneOwner | internal/worker/worker.go:86-159 | A worker that holds a message is the only holder of its invocation: no list and no other worker has one for it, and its caller is through. |
| ProtocolInvariant.InvStep | internal/worker/worker.go:86-219 | Every single command, call, failure or crash of any process keeps the system's invariant. |
| ProtocolInvariant.TableStep | internal/core/invocation/service.go:133-172 | A write of a worker equals the indivisible, guarded update of the row as it is now, however long ago the worker read it; every other step leaves the table alone or inserts or cascades. |
| ProtocolTheorems.RunRefinesTable | internal/core/invocation/service.go:133-172 | The rows after any run are those of the guarded table after the same updates, each made in one step. |
| ProtocolTheorems.NoLostUpdate | internal/core/invocation/service.go:133-172 | From the empty queue on, the unlocked get-then-update pairs refine indivisible updates, and each invocation gets at most one result. |
| ProtocolTheorems.TerminalIsFinal | internal/core/invocation/service.go:133-172 | A completed, failed or timed-out row never changes in any way; it can only go with its function. |
| ProtocolTheorems.RowsEvolve | internal/storage/metadata/postgres.go:309-357 | Over any run a row keeps its function and creation time, its start time once set, never turns pending again, and disappears only by a cascade, for good. |
| ProtocolTheorems.RowShapes | internal/core/invocation/service.go:133-172 | Always: completed-at is set iff the status is terminal, started-at iff it is not pending, in order of time; a terminal row is completed iff it has no error. |
| Lifecycle.OneResult | pkg/types/execution.go:16-24 | In the guarded table an invocation is finished at most once, and never after it is terminal or gone. |
| Lifecycle.ShapedAfter | internal/core/invocation/service.go:133-172 | The two updates, the insertion and the cascade keep the shape of every row. |
| ProtocolTheorems.MessagesNameInvocations | internal/core/invocation/service.go:65-96 | Every waiting, held or dead message names an invocation whose row was inserted before, and two of them the same invocation only if they are the same message. |
| ProtocolTheorems.UnsentIsPending | internal/core/invocation/service.go:65-96 | A row for which no message was pushed is pending, and its caller is still at it or failed. |
| ProtocolTheorems.DeadNeverTerminal | internal/worker/worker.go:105-133 | The row of a dead-lettered message is never terminal, then or later. |
| Deliveries.NeverRejected | internal/worker/worker.go:103-113 | In no reachable state does a worker hold a payload that fails to decode. |
| Deliveries.BoundedRetry | internal/worker/worker.go:116-133 | At most three deliveries a message; waiting entries carry 0 to 2 attempts, held ones 1 to 3, always the number of deliveries so far, and a dead letter exactly 3. |
| Deliveries.ResultNeverRetried | internal/worker/worker.go:136-150 | After a run that gave a result, of whatever status, the message is never delivered, waiting or dead-lettered again. |
| Deliveries.PopsFollowPushes | internal/messaging/redis.go:28-68 | The deliveries are, in order, the oldest pushes, and the rest is still waiting: the list is a FIFO queue for any number of workers. |
| Deliveries.FirstDeliveriesInOrder | internal/messaging/redis.go:28-92 | First deliveries happen in the order of the Enqueue calls, whatever is retried in between. |
| Deliveries.NackedGoesLast | internal/messaging/redis.go:79-92 | A nacked message comes back only after everything that was waiting when it was pushed. |
| ProcessingList.ProcessingIsDeliveryLog | internal/messaging/redis.go:53-68 | As coded, the processing list holds for each message one entry for each past delivery, with attempts 0 to d - 1, and nothing else; its length is the number of deliveries. |
| ProcessingList.SettleRemovesNothing | internal/messaging/redis.go:71-114 | As coded, the LREM of Ack, Nack and DeadLetter leaves the list as it was, in every reachable state. |
| ProcessingList.ProcessingIsOpenDeliveries | internal/messaging/redis.go:53-114 | As meant, the list is, as a multiset, the deliveries in flight and those given up without removal. |
| ProcessingList.SettleRemovesItsOwn | internal/messaging/redis.go:71-114 | As meant, a settle call that is applied removes one entry, that of its own delivery. |
| Draining.WorkIsBounded | internal/worker/worker.go:86-159 | However the workers interleave, fail and crash, they take at most 24 steps for each message enqueued, and without new messages a measure of the remaining work only goes down. |
| Draining.SomeoneCanMove | internal/worker/worker.go:59-78 | While a message waits or is held, some worker can take a step in which every call succeeds, whatever executions come to: no deadlock. |
| Draining.EveryMessageEnds | internal/worker/worker.go:115-150 | In a quiet queue every message was acked, dead-lettered after three deliveries, or abandoned; the last not without a crash, a lost reply or a failed settle call. |
| Draining.QueueCanDrain | internal/worker/worker.go:86-159 | For every choice of what executions come to, from every reachable state the workers alone empty the queue with every read, write and settle call succeeding, within the bound. |
| Results.ResultReachesRow | internal/core/invocation/service.go:154-172 | From the end of a run on: once the update with its result is applied, the row has its status, error and metrics, its output if that is JSON and none otherwise, and the time of the update, for good, until its function is deleted. |
| Results.RowsTellResults | internal/worker/worker.go:136-147 | Conversely, whatever a terminal row says in any reachable state is what a run of that invocation gave. |
| Results.StartReachesRow | internal/core/invocation/service.go:133-151 | An applied status update makes the row running, with its time as start time if there was none and nothing else changed, and the row stays started. |
| Results.RowsTellCalls | internal/core/invocation/service.go:65-79 | A row keeps the function and the time it was inserted with. |
| Results.MessagesAreSent | internal/messaging/redis.go:28-114 | Every message that is waiting, held, in the processing list or delivered in the past, however often retried, is one InvokeAsync pushed, but for the attempts. |
| Results.LettersTellErrors | internal/worker/worker.go:116-133 | Every dead letter is a pushed message with the attempts of its last delivery and two headers more: the error of its last run, and when. |
| SharedStores.OthersUndisturbing | internal/worker/worker.go:86-159 | Whatever steps other processes take after a reachable state: a worker's own place, and the ids only one caller knows, are as they were, and the clock is not earlier. |
| SharedStores.Cluster.BRPopLPush | internal/messaging/redis.go:53-60 | Moves the oldest entry to the head of the processing list, or reports an empty queue or an error, the last perhaps after the move. |
| Services.RedisQueue.Enqueue | internal/messaging/redis.go:28-45 | Pushes one new message with this payload and no attempts, or none if the push is not applied; an error iff the push is reported as failed. |
| Services.RedisQueue.Dequeue | internal/messaging/redis.go:48-68 | The delivered entry with one attempt more, exactly one delivery step, or nothing for this worker: unavailable iff the pop is reported as failed, and otherwise empty only if the list was. |
| Services.RedisQueue.Ack | internal/messaging/redis.go:71-76 | One removal step; the message ends acked if it was applied and abandoned if not; an error iff it is reported as failed. |
| Services.RedisQueue.Nack | internal/messaging/redis.go:79-92 | One removal and one push, with others in between; the message is at the tail of the queue if the push was applied and abandoned if not; an error iff one of them is reported as failed. |
| Services.RedisQueue.DeadLetter | internal/messaging/redis.go:95-114 | One removal and one push to the dead letters of the message with two headers more, the reason and the time, and all else as it was. |
| Services.InvocationService.Mark | internal/core/invocation/service.go:139-148 | For every status: the status is set, a set started-at or completed-at stays, started-at is set exactly by running and completed-at exactly by a terminal status, where they are missing and to now; all else stays. |
| Services.InvocationService.UpdateInvocationStatus | internal/core/invocation/service.go:133-151 | One read and, if it found a row, one write of that row marked as running, whatever others do in between; an error iff a call is reported as failed or the row is gone. |
| Services.InvocationService.UpdateInvocationResult | internal/core/invocation/service.go:154-172 | One read and, if it found a row, one write of that row with the result; an error iff a call is reported as failed or the row is gone. What the row says then is in Results.ResultReachesRow. |
| Services.InvocationService.InvokeAsync | internal/core/invocation/service.go:47-110 | A handle, with the id, function, status and time of the row, iff the function exists and neither call is reported as failed; then exactly the row and its message were added, with the request's timeout or else the function's; and what is left behind otherwise, call by call. |
| Services.Worker.ExecuteFunction | internal/worker/worker.go:162-219 | The status update, successful or not, then the lookups and the run: a Go error if the function or its code is missing, else what the runtime says with the request's timeout, or else the function's; the worker settles by that. |
| Services.Worker.ProcessNextMessage | internal/worker/worker.go:86-159 | An error iff the pop is reported as failed; without one a turn, unless nothing was waiting. A turn is exactly delivery, status, run, then result and ack, or nack below three attempts, or dead letter, each as its call goes; an update is missed only by a failed read or a row that is gone; the worker is idle again on every path. |
| Services.Worker.Start | internal/worker/worker.go:59-78 | Every round up to the first signal is one turn, or none because the pop failed or nothing was waiting; the rounds make up all that the worker does; none once it is stopped. |
| RateLimit.RateLimiter.CheckRateLimit | internal/api/middleware/ratelimit.go:102-143 | The new set, count and decision of the request; other keys untouched; after a failure no decision, and the set that the commands which ran leave. What the decision means is in the rows from MeaningByInstants on. |
| RateLimit.RateLimiter.Middleware | internal/api/middleware/ratelimit.go:47-84 | Serves iff the limiter allows it or failed; limit, remaining count and reset second as headers unless it failed, and Retry-After exactly on a refusal. |
| RateLimit.MeaningByInstants | internal/api/middleware/ratelimit.go:102-133 | Pruning and expiry change no answer: a request is allowed iff fewer than N distinct instants of earlier requests, allowed or denied, lie in the window before it. |
| RateLimit.MeaningByRequests | internal/api/middleware/ratelimit.go:102-133 | It is the requests themselves that count exactly when no two of those in the window share an instant; never more than those. |
| RateLimit.SameInstantUndercounts | internal/api/middleware/ratelimit.go:112-118 | Three requests in one nanosecond all pass a limit of two. |
| RateLimit.InstantBound | internal/api/middleware/ratelimit.go:102-133 | The allowed requests in any half-open interval as long as the window have at most N instants. |
| RateLimit.WindowBound | internal/api/middleware/ratelimit.go:102-133 | Where no two of them share an instant, there are at most N of them. |
| RateLimit.RemainingIsKept | internal/api/middleware/ratelimit.go:133-137 | After a reported remaining of r the next r requests are allowed, whenever they come. |
| RateLimit.RemainingIsMost | internal/api/middleware/ratelimit.go:133-137 | And no more could be promised: after r + 1 further requests with instants of their own, while all that was counted is still in the window, the last of them is refused. |
| RateLimit.NothingRemains | internal/api/middleware/ratelimit.go:133-137 | After a refusal the reported remaining is zero, and it is never negative. |
| RateLimit.ResetIsKept | internal/api/middleware/ratelimit.go:139-142 | With N at least one, a request at or after the reset time with none in between is allowed. |
| RateLimit.ResetIsFirst | internal/api/middleware/ratelimit.go:139-142 | With a limit of one the reset time is the first such time: before it the next request is refused. |
| RateLimit.HeaderTooEarly | internal/api/middleware/ratelimit.go:63 | A request at the second the header names is refused. |
| RateLimit.HeaderExact | internal/api/middleware/ratelimit.go:63 | For any limit and window, the next request at the named second is allowed iff fewer than N distinct instants lie in the fraction that was cut off, before and at the request. |
| RateLimit.HeaderPlusOneSecond | internal/api/middleware/ratelimit.go:63 | One second after the named second the request is always allowed. |
| RateLimit.RetryExact | internal/api/middleware/ratelimit.go:74 | For windows below 2^24 seconds: the next request after exactly the seconds of Retry-After is allowed iff fewer than N distinct instants lie in the fraction that was cut off. |
| RateLimit.RetryPlusOneSecond | internal/api/middleware/ratelimit.go:74 | One second later it is always allowed. |
| RateLimitFailures.MeaningWithFailures | internal/api/middleware/ratelimit.go:102-131 | Whichever pipelines fail, after whichever command: each finds as many requests as were stored in its window exactly when no expiry still in force takes a request away that was stored after it was set and is still in a later one's window; never more. |
| RateLimitOverlap.DroppedAreOld | internal/api/middleware/ratelimit.go:121 | In no run, however the pipelines interleave, does the key expire with a member that any request, begun or to come, could still have to count. |
| RateLimitOverlap.WindowBoundUnderOverlap | internal/api/middleware/ratelimit.go:102-143 | With at most k pipelines at a time and distinct instants, any interval as long as the window holds at most N + 2(k - 1) allowed requests. |
| RateLimitReach.BoundIsReached | internal/api/middleware/ratelimit.go:102-143 | For every N from one on and every k, given a window of N + 2(k - 1) instants and pipelines that may take N + 2k - 3: a run in which N + 2(k - 1) requests pass in one window. |
| RateLimitLatency.LimitKept | internal/api/middleware/ratelimit.go:102-143 | For every configuration: all runs keep the configured N exactly when nothing passes, or the window has no more than N instants, or no time passes under a pipeline, or pipelines come one at a time and none takes longer than the key outlives the window, or less than N nanoseconds longer if the key's life and those make two windows. |
| RateLimitLatency.BoundBreaks | internal/api/middleware/ratelimit.go:121 | For every N and k from one on, in a window with the instants: pipelines that take N + 2(k - 1) nanoseconds longer than the key outlives the window let more than N + 2(k - 1) requests through. |
| RateLimitLatency.LatencyExactly | internal/api/middleware/ratelimit.go:121 | With two or more pipelines and N at least two, in windows from half a minute on that are long beside N and k: all runs keep N + 2(k - 1) exactly as long as no pipeline takes longer than the key outlives the window. |
| RateLimitLatency.AsShipped | internal/config/config.go:130-131 | The default configuration, for one pipeline at a time and for more. |
| Demux.StripDockerLogHeaders | internal/worker/runtime/docker/client.go:188-226 | The loop stays in bounds, ends, and computes Strip, which the following rows are about. |
| Demux.RoundTrip | internal/worker/runtime/docker/client.go:188-226 | Stripping any encoded list of frames gives their payloads, eight bytes a frame shorter. |
| Demux.Concatenation | internal/worker/runtime/docker/client.go:188-226 | strip(a + b) = strip(a) + strip(b) for a well-formed and b arbitrary. |
| Demux.CutInHeader | internal/worker/runtime/docker/client.go:202-206 | A stream cut in a header gives the complete payloads and exactly the header bytes that arrived. |
| Demux.CutInPayload | internal/worker/runtime/docker/client.go:214-221 | A stream cut in a payload gives what arrived of the payloads, a prefix of the whole. |
| Demux.AnyInput | internal/worker/runtime/docker/client.go:188-226 | Any bytes are complete frames and an incomplete end, and stripping gives the payloads and the end less its header. |
| Demux.OneWayOnly | internal/worker/runtime/docker/client.go:188-226 | That division is the only one. |
| Demux.NeverLonger | internal/worker/runtime/docker/client.go:196-226 | The output is never longer than the input, and as long iff the input has no whole header. |
| FunctionStore.InvStep | internal/core/function/service.go:36-217 | Every store access of every request, applied or not, reported as failed or not, keeps the invariant of the two stores. |
| FunctionStore.ConsistentStep | internal/core/function/service.go:85-89 | An access keeps every row's code stored iff it is not the clean-up, after a failed INSERT, of a function that has a row. |
| FunctionStore.ConsistentExactly | internal/core/function/service.go:36-217 | Over every run: all rows point at stored code all the time iff no such clean-up happened. |
| FunctionStore.AlwaysConsistent | internal/core/function/service.go:36-217 | In particular in every reachable state, requests interleaved and cut off anywhere, as long as no INSERT is applied that is reported as failed. |
| FunctionStore.FailedInsert | internal/core/function/service.go:85-89 | After a failed INSERT and the clean-up the stores are consistent iff the INSERT was not applied. |
| FunctionStore.OnlyItsOwn | internal/storage/function/local.go:28-71 | No access of a request changes the row or the files of another function. |
| FunctionStore.ChecksumsMatch | internal/core/function/service.go:122-187 | Over every interleaved run in which updates of one function do not overlap and none ends with its code stored and its row not, every row nobody is editing has the checksum and size of the stored code. |
| FunctionStore.CarelessStep | internal/core/function/service.go:155-179 | Each single way to end so leaves a row that does not match, at once. |
| FunctionStore.RacingUpdates | internal/core/function/service.go:155-179 | Whenever two updates have read one row, they can leave it with a checksum that does not match the code, though no access fails. |
| FunctionService.Service.CreateFunction | internal/core/function/service.go:36-99 | Succeeds iff the request is valid, the code stored and the row accepted; then answer and row have every field as requested, as its column keeps it, and checksum and size of the code; otherwise the error says why, no row, no other file touched and the code cleaned up unless that failed; checksums keep matching. |
| FunctionService.Service.UpdateFunction | internal/core/function/service.go:122-187 | A refused update changes neither store and says why; a successful one gives back and stores each field that is present, handler cut and timeout in whole seconds, and leaves each that is absent, and keeps checksums matching; after a failure they match iff it brought no code, wrote nothing, or wrote what was there. |
| FunctionService.Service.Edit | internal/core/function/service.go:129-159 | Field by field, what is present is taken and what is absent stays, or the first fault is the answer. |
| FunctionService.Service.DeleteFunction | internal/core/function/service.go:190-217 | The row goes first; the code's fate does not change the answer; on failure nothing is changed, and not found is the answer iff there is no row and loading did not fail. |
| FunctionService.WhatValidationMisses | internal/core/function/service.go:230-264 | A valid request fits the table iff its timeout is from one second up to 120 nanoseconds short of 2^31 seconds, its numbers fit their columns, version and handler go beyond theirs by blanks at most, and no text, environment or metadata holds a NUL. |
| FunctionService.FirstFaultExactly | internal/core/function/service.go:230-264 | A request is refused iff one of the eight checks fails, and for the first that does. |
| FunctionService.FirstUpdateFaultExactly | internal/core/function/service.go:129-159 | An update is refused before it touches a store iff a number in it is not positive or its code is not base64. |
| FunctionService.LocalStorage.Store | internal/storage/function/local.go:28-43 | Puts the bytes at the function's own location; a failed write may leave a torn file there. |
| FunctionService.LocalStorage.Retrieve | internal/storage/function/local.go:46-58 | The bytes at a location iff there are any and reading them does not fail. |
| FunctionService.LocalStorage.Delete | internal/storage/function/local.go:61-71 | Removes the whole directory of the location and nothing else. |
| FunctionService.FunctionTable.Create | internal/storage/metadata/postgres.go:27-53 | Inserts what the columns keep of each field iff the call succeeds and every constraint holds; a conflict exactly for what only the unique index refuses. |
| FunctionService.FunctionTable.Update | internal/storage/metadata/postgres.go:122-150 | Replaces the row but for its name, version and runtime, iff it exists, what is written fits the columns and the call succeeds. |
| Timeouts.StoredIsRounded | internal/storage/metadata/postgres.go:41 | For every timeout an int64 can hold and all doubles the two roundings allow: the column gets the whole seconds, and one more iff the rest of the second is at most half a step between doubles. |
| Timeouts.RoundTrip | internal/storage/metadata/postgres.go:41-81 | Storing and reloading changes a timeout by less than a second, makes it longer iff it carries, and changes nothing the second time. |
| Timeouts.FirstToGrow | internal/storage/metadata/postgres.go:41 | Below 2^25 seconds a timeout grows iff it is at least 2^24 seconds and one nanosecond short of a full second. |
| Timeouts.FitsColumn | migrations/001_initial_schema.up.sql:15-24 | The column takes a timeout iff it is from one second up to 120 nanoseconds short of 2^31 seconds. |
| Metadata.InvocationTable.CreateInvocation | internal/storage/metadata/postgres.go:233-251 | A new row reads as the record with its creation to the microsecond and neither result nor other times; a known id, an unknown function and a failed call are errors, the last perhaps after the row is there. |
| Metadata.InvocationTable.GetInvocationByID | internal/storage/metadata/postgres.go:254-306 | The record of the row, NULLs as missing parts, iff there is one and the call does not fail. |
| Metadata.InvocationTable.UpdateInvocation | internal/storage/metadata/postgres.go:309-357 | What is read back is the record written as its columns keep it: times to the microsecond, no output that is not JSON, no blanks of an error's kind beyond its column; a text a column refuses, a missing row and a failed call are errors; other rows and columns stay. |
| Metadata.ColumnsReadBack | internal/storage/metadata/postgres.go:254-357 | Written to its columns and scanned again, every field of a record comes back as itself: each metric, each part of the error, each time. |
| Metadata.MicroIsNearest | migrations/001_initial_schema.up.sql:45-47 | However ties go: a stored time is at most half a microsecond off, storing it again changes nothing, and the order of times stays. |
| StoredRuns.ShapeIsKept | migrations/001_initial_schema.up.sql:45-47 | A row keeps its shape in the columns: which times are set, and their order. |
| StoredRuns.RunIsKept | internal/storage/metadata/postgres.go:233-357 | Over the columns the queue's machine can take the same steps, and any run ends with the rows and copies of the machine over whole records, as columns keep them. |
| ListQuery.BuildFunctionQuery | internal/storage/metadata/postgres.go:170-198 | For every filter and table, the database's answers to the built query and arguments are exactly the wanted rows, newest first, less the offset, up to the limit. |
| ListQuery.BuildInvocationQuery | internal/storage/metadata/postgres.go:360-395 | The same with both filters, in all combinations: each placeholder is bound to its own value, and each value is used. |
| ListQuery.FunctionsListed | internal/storage/metadata/postgres.go:170-198 | Said of the rows themselves: listed functions are of the runtime that is asked for, and without limit and offset those are all of them. |
| ListQuery.InvocationsListed | internal/storage/metadata/postgres.go:360-395 | The same for both filters of invocations. |
| ListQuery.AnswerExists | internal/storage/metadata/postgres.go:170-198 | Every query of this kind has an answer. |
| ListQuery.PagesTile | internal/storage/metadata/postgres.go:187-198 | Whatever order the database picks for each page, the pages up to the first short one list every wanted row once, newest first, iff no two rows of one creation time are on different pages. |
| ListQuery.TiesMayRepeat | internal/storage/metadata/postgres.go:187 | Of two rows with one creation time, both pages of size one may show the same. |
| Runtimes.Host.WaitContainer | internal/worker/runtime/docker/client.go:107-124 | Zero iff the container exited with zero, an error iff no status came, and a kill only when the context ended the wait. |
| Runtimes.Host.RunDeferred | internal/worker/runtime/container.go:85-119 | The deferred calls run in reverse order, each once, whether or not they succeed. |
| Runtimes.UnwoundTidies | internal/worker/runtime/container.go:85-119 | What was made is removed, and the directory last of all. |
| Runtimes.ContainerRuntime.Execute | internal/worker/runtime/container.go:48-202 | Results are terminal and well formed, timeouts iff the deadline had passed, completed iff the exit code was zero in time; every error has the kind and message of its cause, that of a failed run names the exit code and has the log; metrics are those of the container iff the run ended in time, else the time alone. A Go error iff the container could not be started; a panic iff the run ended in time and there were no statistics. The calls are exactly those up to where it failed, a kill iff the context ended the wait, and the clean-up, container before directory. |
| Runtimes.DecimalNames | internal/worker/runtime/container.go:188-192 | The exit code can be read back from the message of a failed run. |
| Runtimes.ContainerRuntime.BuildEnv | internal/worker/runtime/docker/client.go:43-48 | Handler and payload, then the function's own variables, each once, in some order. |
| Runtimes.ContainerServed | internal/worker/runtime/docker/client.go:43-48 | Whatever that order, payload and handler get through exactly when no variable of the function's own gives their names another value. |
| Runtimes.CompletedOutput | internal/worker/runtime/docker/client.go:127-149 | The output of a completed run is what the container printed, for any frames it arrived in. |
| Runtimes.SimpleRuntime.BuildEnv | internal/worker/runtime/simple.go:86-94 | Whatever variables the function sets, the process sees the payload and the handler; every other variable is the function's, or else inherited. |
| Runtimes.SimpleRuntime.Execute | internal/worker/runtime/simple.go:33-134 | Results are terminal and well formed and say how the run ended, with kind, message and output of its cause and the time measured; the calls are the directory, one process with its environment and the clean-up; the directory is gone afterwards, even if it was there before. |

## Left out

- Services.InvocationService.UpdateInvocationStatus: proved for the status running, the only one it is called with.
- Services.Worker.Start: any finite number of rounds; an endless loop has no end to state anything about.
- SharedStores.Cluster.Others: an empty body under a contract of interference; what it may do is any run of other processes.
- RateLimit.MeaningByInstants: pipelines whose commands all ran; RateLimitFailures.MeaningWithFailures is about the others.
- RateLimitOverlap.WindowBoundUnderOverlap: pipelines slower than that; RateLimitLatency.LatencyExactly and BoundBreaks show that they break it.
- RateLimitLatency.LatencyExactly: for N = 1 and for windows that are short or small beside N and k it is open what holds between its latency and that of BoundBreaks, less than N + 2(k - 1) nanoseconds more.
- Runtimes.SimpleRuntime.Execute: one run at a time; overlapping runs of one function share a directory, and the first to end removes it from under the others.
- Runtimes.ContainerRuntime.Execute: execution directories are new by the nanosecond in their names; the directory of the function above them stays and is not modelled, nor are image pulls, mounts and resource limits.
- The order in which the database lists rows of one creation time is any; scanning the listed rows into records repeats GetInvocationByID and GetByID.
- SQL as text: a query is a list of clauses with numbered placeholders.
- Doubles are modelled by their steps and nearest values, not bit by bit.
- The order in which duplicate escapes, blanks and keys come back from JSONB, and what else JSONB normalises.
- Metadata.InvocationTable.UpdateInvocation: which numbers in JSON are out of range and which texts are not UTF-8 is left to the parameter Server.
- The times of function rows, which nothing reads but the order of lists, and payloads and headers of invocations.
- Runtimes.ContainerRuntime.Execute: the text of an error of Docker's in the message of an ImageError.
- GetStats, GetResult, GetFunction and GetByName: reads without branching of their own.
- HTTP routing, handlers, the key of the rate limiter, JSON bodies, JWT, CORS, permissions, configuration, logging and both main functions.
- The ownership check of the update handler refers to a field that the function type does not have.
- pkg/message/redis_queue.go and pkg/storage/storage.go, which nothing modelled here uses.
