# java-c2dm dispatch core, modelled in Dafny

A model of the decidable core of java-c2dm, a Java client for Google's
Cloud to Device Messaging (C2DM) push service:

- **Response classification and delegate dispatch** (`Utilities.dfy`):
  `logicalResponseFor` maps an HTTP status and the decoded response pairs
  to a `C2DMResponse`. `fireDelegate` turns that outcome into callbacks,
  recorded as an appended event trace on a `RecordingDelegate`.
- **Outcomes** (`Response.dfy`): the six server reason codes, plus the four
  outcomes the classifier refers to. Also the reason-code lookup.
- **Request shaping** (`Utilities.dfy`, `AbstractService.dfy`):
  `requestBodyOf` gives the ordered form fields. `postMessage` gives the
  request record (URI, body, headers). `push(registrationId, message)` gives
  the entry handed to a strategy.
- **Queued dispatcher** (`QueuedService.dfy`): a class with the `started` and
  `shouldContinue` flags and the FIFO queue. It wraps a `Strategy` object
  that stands for the wrapped service and records the calls it receives.
  A wrapped push can throw, and that ends the worker (`workerAlive`).
  Ghost `accepted` and `forwarded` traces carry the FIFO invariant. The
  worker loop is modelled one iteration at a time (`WorkerStep`), and
  `Drain` runs it until it would block or its worker dies.
- **Notification builder** (`Notification.dfy`): a class with the mutable
  fields. `data` appends `data.`-prefixed entries, and `build` validates once.
- **Service builder** (`ServiceBuilder.dfy`): a class whose setters fill in a
  configuration. `build` is the pure function `Plan`. It validates the
  configuration, picks the client, picks the synchronous or pooled service,
  optionally wraps it in a queued service, and starts the outermost service.
  The result is a plan datatype, not live objects.

Modelling assumptions:

- **C2DMResponse and getKey.** The enum as shown declares only the six
  server reasons. The classifier uses `SUCCESSFUL`, `SERVER_UNAVAILABLE`,
  `INVALID_AUTHENTICATION`, `UNKNOWN_ERROR` and `getKey()`, so the two
  revisions disagree. The datatype adds those four outcomes. `Key(r)` is
  the constant's own name for the six reasons and `None` for the four added
  ones. So no server code ever classifies as one of the four (this is an
  assumption). `values()` is taken to list the six reasons first. The lookup
  does not depend on that order, because keys are pairwise distinct
  (`KeyInjective`).
- **Status 200 with no pairs.** The code calls `pairs.get(0)` after an
  assert. The model makes "at least one pair" a precondition of the
  classifier, and of `fireDelegate` when a delegate is present.
- **The Update-Client-Auth header.** The response is modelled by its status,
  its decoded body pairs and an `Option` holding the value of the first
  `Update-Client-Auth` header.
- **fireDelegate arguments.** The model follows the three-argument
  declaration at Utilities.java:90. The callers at C2DMServiceImpl.java:60
  and C2DMPooledService.java:63 pass four arguments.
- **The "id" test.** The model follows the case-sensitive test at
  Utilities.java:132, not the case-insensitive assert at line 107.
- **Built notifications are snapshots.** `build` hands over the builder's
  own list, and the notification class is not part of this model. The
  model treats the built notification as a value snapshot, so later `data`
  calls do not reach a notification already built.
- **Java null.** A nullable argument or field is an `Option`
  (`collapseKey`, `authToken`, `httpClient`, `executor`, the delegate). A
  thrown exception is a `Result`/`Outcome` error value.

Behaviour of the code that a reader might not expect, which the model
follows:

- The queued service has no terminal Stopped state. `stop` clears
  `started`, so a later `start` passes its guard again (`RestartAfterStop`).
- `stop` does not discard queued entries. They stay in the queue, and a
  restarted worker hands them to a wrapped service that was already
  stopped, whose push then throws.
- The worker catches only an interrupt. A wrapped push that throws ends
  the worker with the head already taken, while `started` stays true, so
  `push` keeps accepting entries that are never forwarded
  (`WorkerDiesOnFailedPush`).
- With a null delegate, `fireDelegate` returns before classifying anything.
- The classifier reads only the first response pair. A first name other
  than `id` is looked up by its value, whatever that name is.
- An empty collapse key is accepted. Only a null one fails `build`.
- Payload names do carry a `data.` prefix, added by the notification builder.

## Model

| member | source | states |
|---|---|---|
| Response.Key | src/main/java/com/notnoop/c2dm/C2DMResponse.java:36-71 | a constant has a server key exactly when it is one of the six declared reasons; each key is the constant's own name |
| Response.KeyInjective | src/main/java/com/notnoop/c2dm/C2DMResponse.java:40-70 | two constants with the same key are the same constant, so a reason-code lookup is unambiguous |
| Response.LogicalResponsesComplete | src/main/java/com/notnoop/c2dm/internal/Utilities.java:122 | `values()` lists every constant, each exactly once |
| Response.ReasonNamedMatchesKey | src/main/java/com/notnoop/c2dm/C2DMResponse.java:40-70 | the reason table maps a code to a constant if and only if that constant's key is the code; a code no key equals maps to nothing |
| Response.ReasonNamedRoundTrip | src/main/java/com/notnoop/c2dm/C2DMResponse.java:59 | looking up a reason's own name, e.g. `NotRegistered`, yields that reason |
| Response.ReasonNamed | src/main/java/com/notnoop/c2dm/internal/Utilities.java:139-145 | a code that looks up to a constant names one of the six server reasons, and that constant's key is the code |
| Notification.DataEntry | src/main/java/com/notnoop/c2dm/C2DMNotificationBuilder.java:90 | the entry's name is `data.` followed by the given name, and its value is the given value |
| Notification.C2DMNotificationBuilder.constructor | src/main/java/com/notnoop/c2dm/C2DMNotificationBuilder.java:46-50 | a new builder has no collapse key, `delayWhileIdle` false and an empty payload |
| Notification.C2DMNotificationBuilder.CollapseKey | src/main/java/com/notnoop/c2dm/C2DMNotificationBuilder.java:61-64 | the key is overwritten (last call wins); the flag and the payload are unchanged |
| Notification.C2DMNotificationBuilder.DelayWhileIdle | src/main/java/com/notnoop/c2dm/C2DMNotificationBuilder.java:75-78 | the flag is overwritten; the key and the payload are unchanged |
| Notification.C2DMNotificationBuilder.Data | src/main/java/com/notnoop/c2dm/C2DMNotificationBuilder.java:89-92 | exactly one entry `("data." + name, value)` is appended at the end; earlier entries and other fields are unchanged |
| Notification.C2DMNotificationBuilder.Build | src/main/java/com/notnoop/c2dm/C2DMNotificationBuilder.java:94-106 | fails if and only if the collapse key is null (an empty key is accepted); otherwise passes the key, the flag and the payload on unchanged |
| Notification.BuildWith | src/main/java/com/notnoop/c2dm/C2DMNotificationBuilder.java:48-105 | after a key, a flag and a series of `data` calls, the built payload follows call order, keeps duplicates, and prefixes every name |
| Notification.BuildWithoutKey | src/main/java/com/notnoop/c2dm/C2DMNotificationBuilder.java:94-104 | a builder whose collapse key was never set fails `build` with the missing-key error, whatever else was set |
| Utilities.RequestBodyOf | src/main/java/com/notnoop/c2dm/internal/Utilities.java:71-86 | the append-and-loop construction yields exactly the specified field list |
| Utilities.RequestBody | src/main/java/com/notnoop/c2dm/internal/Utilities.java:71-86 | the fields are `registration_id`, then `collapse_key`, then `delay_while_idle=1` third when the flag is set, then every payload pair verbatim and in order; length is 2 + (1 if the flag is set) + the payload length |
| Utilities.PrefixedNameIsNotDelayField | src/main/java/com/notnoop/c2dm/C2DMNotificationBuilder.java:90 | a `data.`-prefixed payload name can never be `delay_while_idle` |
| Utilities.DelayFieldIffFlag | src/main/java/com/notnoop/c2dm/internal/Utilities.java:77-79 | for a notification from the builder, a `delay_while_idle` field appears anywhere in the body if and only if the flag is set |
| Utilities.LogicalResponseFor | src/main/java/com/notnoop/c2dm/internal/Utilities.java:123-149 | the switch and the early-return scan over `values()` compute the decision table `Classify` |
| Utilities.ClassifyIgnoresPairsOffStatus200 | src/main/java/com/notnoop/c2dm/internal/Utilities.java:125-147 | 503 gives SERVER_UNAVAILABLE, 401 gives INVALID_AUTHENTICATION, any other non-200 status gives UNKNOWN_ERROR, and none of them depends on the pairs |
| Utilities.Classify | src/main/java/com/notnoop/c2dm/internal/Utilities.java:123-149 | SUCCESSFUL if and only if the status is 200 and the first pair's name is exactly `id`; SERVER_UNAVAILABLE exactly for 503 and INVALID_AUTHENTICATION exactly for 401; a server reason only on the 200 lookup path, with the first pair's value as its key |
| Utilities.ClassifyReasonCode | src/main/java/com/notnoop/c2dm/internal/Utilities.java:136-145 | for a 200 whose first name is not `id`, the outcome is the constant whose key is the pair's value, or UNKNOWN_ERROR when no key matches |
| Utilities.ClassifyErrorBody | src/main/java/com/notnoop/c2dm/internal/Utilities.java:136-142 | a 200 with the single pair `Error=R` classifies as R, for each of the six reason codes |
| Utilities.FireDelegate | src/main/java/com/notnoop/c2dm/internal/Utilities.java:90-120 | with a null delegate nothing happens and the response is not classified; otherwise exactly the protocol's callbacks are appended to the delegate's trace |
| Utilities.FiredEvents | src/main/java/com/notnoop/c2dm/internal/Utilities.java:104-119 | the first callback is `messageSent(message, SUCCESSFUL, first value)` exactly when the outcome is SUCCESSFUL, and `messageFailed(message, outcome)` otherwise; a second and last callback `authTokenUpdated(header value)` fires if and only if the header is present |
| Utilities.FiredEventsOnId | src/main/java/com/notnoop/c2dm/internal/Utilities.java:106-109 | a 200 with `id=X` and no header yields exactly one callback, `messageSent` with id X |
| Utilities.FiredEventsOnErrorWithToken | src/main/java/com/notnoop/c2dm/internal/Utilities.java:110-119 | a 200 with `Error=R` and a rotated token yields `messageFailed(R)` then `authTokenUpdated(token)`, each exactly once |
| AbstractService.AuthorizationToken | src/main/java/com/notnoop/c2dm/internal/AbstractC2DMService.java:61 | a token it reads back comes from an `Authorization` header whose value is the scheme followed by that token |
| AbstractService.PostMessage | src/main/java/com/notnoop/c2dm/internal/AbstractC2DMService.java:51-64 | the request goes to the configured URI, its body is exactly `requestBodyOf`, and it carries exactly one `Authorization` header, from which the configured token reads back unchanged |
| AbstractService.Forwarded | src/main/java/com/notnoop/c2dm/internal/AbstractC2DMService.java:73-76 | `push(registrationId, message)` hands on the same message, with a request to the configured URI that carries the configured token and that notification's body |
| AbstractService.PushPayload | src/main/java/com/notnoop/c2dm/internal/AbstractC2DMService.java:68-71 | the string-payload push always fails with "not implemented" and forwards nothing |
| QueuedService.C2DMQueuedService.constructor | src/main/java/com/notnoop/c2dm/internal/C2DMQueuedService.java:44-52 | a new queued service is not started, has no worker and an empty queue, and keeps the given wrapped service, URI and token |
| QueuedService.C2DMQueuedService.Push | src/main/java/com/notnoop/c2dm/internal/C2DMQueuedService.java:54-61 | while not started it fails and leaves the queue unchanged; while started it appends the entry at the tail, with earlier entries untouched |
| QueuedService.C2DMQueuedService.PushMessage | src/main/java/com/notnoop/c2dm/internal/AbstractC2DMService.java:73-76 | the public push queues exactly the entry `postMessage` builds for that message, under the same lifecycle guard |
| QueuedService.C2DMQueuedService.Start | src/main/java/com/notnoop/c2dm/internal/C2DMQueuedService.java:66-85 | the first start sets `started` and `shouldContinue`, starts the wrapped service once and launches a running worker; a start while started changes nothing, and does not revive a dead worker |
| QueuedService.C2DMQueuedService.Stop | src/main/java/com/notnoop/c2dm/internal/C2DMQueuedService.java:88-94 | clears both flags, ends the worker and stops the wrapped service; before any start it fails without stopping the wrapped service; the queue is left as it is |
| QueuedService.C2DMQueuedService.WorkerStep | src/main/java/com/notnoop/c2dm/internal/C2DMQueuedService.java:76-81 | with no running worker nothing happens; otherwise it waits on an empty queue, or removes the head and forwards exactly it; the worker dies exactly when that push throws, the head being taken all the same; the invariant "forwarded ++ queue == accepted" (FIFO) is kept |
| QueuedService.C2DMQueuedService.Drain | src/main/java/com/notnoop/c2dm/internal/C2DMQueuedService.java:76-81 | the worker hands on a prefix of the queue in queue order; if no push on the way throws it empties the queue and survives, and a worker that survives has emptied it and had the push of every entry accepted (no entry failing, and the wrapped service not stopped); a worker that dies stops right after the first entry whose push throws, the push of every earlier entry having been accepted; after a stop and restart it therefore dies on the first entry; without a running worker nothing is forwarded |
| QueuedService.PushThenDrain | src/main/java/com/notnoop/c2dm/internal/C2DMQueuedService.java:55-81 | when no wrapped push throws: after start, N pushes and the worker running, the wrapped service has received exactly the pushed entries in push order, for any N, and the worker still runs |
| QueuedService.WorkerDiesOnFailedPush | src/main/java/com/notnoop/c2dm/internal/C2DMQueuedService.java:55-81 | a wrapped push that throws ends the worker: the failing entry was taken, `push` still accepts later entries, and they and the rest of the queue are never forwarded |
| QueuedService.PushOutsideLifecycle | src/main/java/com/notnoop/c2dm/internal/C2DMQueuedService.java:55-94 | a push before start and a push after stop are both rejected; after stop the worker forwards nothing, and the pending entry stays queued |
| QueuedService.RestartAfterStop | src/main/java/com/notnoop/c2dm/internal/C2DMQueuedService.java:66-94 | start after stop passes the guard again: the wrapped service is started a second time, the entry left queued is handed to the stopped wrapped service, and its throwing push ends the new worker |
| QueuedService.StopBeforeStart | src/main/java/com/notnoop/c2dm/internal/C2DMQueuedService.java:88-93 | stop before any start fails (no worker thread), and the wrapped service is not stopped |
| ServiceBuilder.CheckInitialization | src/main/java/com/notnoop/c2dm/C2DMServiceBuilder.java:239-246 | fails if and only if the auth token is missing, or `pooledMax != 1` with no executor; the missing token is reported first |
| ServiceBuilder.Plan | src/main/java/com/notnoop/c2dm/C2DMServiceBuilder.java:200-246 | fails exactly as `checkInitialization` does, with its error; on success the strategy is wrapped in exactly one queued layer with the same URI and token when `asQueued` was called, the innermost service uses the configured client, and start is called exactly once, on the outermost service |
| ServiceBuilder.PlanStrategy | src/main/java/com/notnoop/c2dm/C2DMServiceBuilder.java:224-229 | `pooledMax == 1` selects the synchronous service even when an executor was given; otherwise the pooled service gets the given executor; both get the URI, token, delegate and configured client |
| ServiceBuilder.ClientFor | src/main/java/com/notnoop/c2dm/C2DMServiceBuilder.java:204-221 | a supplied client always wins; otherwise `pooledMax == 1` gives a plain client and any other value a pooled manager of that size; the proxy is passed on; the timeout is applied to both connect and socket timeouts only when positive |
| ServiceBuilder.DefaultPlan | src/main/java/com/notnoop/c2dm/C2DMServiceBuilder.java:62-72 | the defaults alone do not build; with only a token they give an unqueued synchronous service on a plain client at the default URI, with no proxy, timeout or delegate |
| ServiceBuilder.C2DMServiceBuilder.constructor | src/main/java/com/notnoop/c2dm/C2DMServiceBuilder.java:62-79 | a new builder holds the default configuration |
| ServiceBuilder.C2DMServiceBuilder.WithHttpProxy | src/main/java/com/notnoop/c2dm/C2DMServiceBuilder.java:93-96 | sets the proxy to the given host and port; nothing else changes |
| ServiceBuilder.C2DMServiceBuilder.WithServiceUri | src/main/java/com/notnoop/c2dm/C2DMServiceBuilder.java:106-109 | sets the service URI; nothing else changes |
| ServiceBuilder.C2DMServiceBuilder.WithAuthToken | src/main/java/com/notnoop/c2dm/C2DMServiceBuilder.java:111-114 | sets (or, with null, clears) the auth token; nothing else changes |
| ServiceBuilder.C2DMServiceBuilder.WithHttpClient | src/main/java/com/notnoop/c2dm/C2DMServiceBuilder.java:142-145 | sets the HTTP client; nothing else changes |
| ServiceBuilder.C2DMServiceBuilder.AsPool | src/main/java/com/notnoop/c2dm/C2DMServiceBuilder.java:151-153 | a size below 1 throws, because a fixed thread pool cannot be created, and changes nothing; otherwise sets `pooledMax` and the new pool as executor |
| ServiceBuilder.C2DMServiceBuilder.AsPoolWith | src/main/java/com/notnoop/c2dm/C2DMServiceBuilder.java:161-165 | sets both `pooledMax` and `executor`; nothing else changes |
| ServiceBuilder.C2DMServiceBuilder.AsQueued | src/main/java/com/notnoop/c2dm/C2DMServiceBuilder.java:173-176 | sets `isQueued`; nothing else changes |
| ServiceBuilder.C2DMServiceBuilder.Timeout | src/main/java/com/notnoop/c2dm/C2DMServiceBuilder.java:184-187 | sets the timeout; nothing else changes |
| ServiceBuilder.C2DMServiceBuilder.Delegate | src/main/java/com/notnoop/c2dm/C2DMServiceBuilder.java:189-192 | sets the delegate; nothing else changes |
| ServiceBuilder.C2DMServiceBuilder.Build | src/main/java/com/notnoop/c2dm/C2DMServiceBuilder.java:200-246 | build on the current fields yields exactly the plan `Plan` decides, and leaves the builder unchanged |
| ServiceBuilder.BuildQueuedPool | src/main/java/com/notnoop/c2dm/C2DMServiceBuilder.java:151-236 | token, `asPool(4)` and `asQueued` build one queued layer over a pooled service with that pool, on a pooled connection manager of size 4 |

## Left out

- `Utilities.parseResponse` and `Utilities.poolManager` call into Apache HttpCore. The model takes the decoded response pairs and the first `Update-Client-Auth` header value as inputs, and records the pooled manager only as its size.
- C2DMPooledService is not part of this model. It is a thread-pool executor with `shutdown`, `awaitTermination` and `shutdownNow` timing.
- C2DMServiceImpl is not part of this model. It is the HTTP call, the entity consumption and the exception re-wrapping. The classify-after-send step it performs is `FireDelegate` applied to a response.
- `Strategy` stands in for the wrapped service (an implementation or a pooled service). It records its `start`, `stop` and `push` calls. Its push throws after a `stop` and for the entries in a `failing` set given at construction; which requests fail on the network is a parameter, not modelled.
- FireDelegate: callbacks are assumed to return normally. In the code a `messageSent` or `messageFailed` that throws skips `authTokenUpdated`, so the token update is lost, and the exception propagates.
- Real threading in the queued service is not modelled: thread creation, `interrupt`, the `volatile`/`AtomicBoolean` memory semantics, the blocking `take` and the swallowed `InterruptedException`. The worker runs sequentially, as `WorkerStep` and `Drain`. Interleavings of `push`, `start` and `stop` with a running worker are not covered.
- The default `start`/`stop` of the abstract base class have no state to change. `serviceUri` and `authToken` are `const` fields (`ServiceBase`, `C2DMQueuedService.base`), so nothing can change them after construction.
- HTTP client objects (`HttpHost`, `DefaultHttpClient`, `HttpConnectionParams`, the proxy route parameter) appear only as fields of `ClientPlan`. Executors, clients and delegates are opaque references.
- The fluent `return this` of every setter is not modelled, since the setters are methods on the builder object itself.
- UTF-8 form encoding and the `AssertionError` for a missing UTF-8 charset are library behaviour and are not modelled.
- Java `assert` statements are taken to be disabled, as they are by default in the JVM. With assertions enabled, a 200 response with more than one pair fails at Utilities.java:129, a first pair named neither `id` nor `Error` fails at Utilities.java:136, and the repeated size test for a success at Utilities.java:107 would fail in the same case as line 129. Each failure is an `AssertionError`, which the model does not produce.
- A null `name` or `value` passed to `data`, a null registration id, and a null response pair value are not modelled. A 200 whose first pair has no `=` gets a null value from the parser, and the reason lookup at Utilities.java:140 then dereferences null and throws. Strings are never null in the model, except for the fields listed as `Option`.
