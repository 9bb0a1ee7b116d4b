# easy-web-worker message routing, in Dafny

easy-web-worker runs many logical calls over one Web Worker channel, or over
a pool of channels. The part modelled here is that routing protocol:

- **Controllers.** `EasyWebWorker` talks to one worker and `EasyWebWorkerParallel`
  to a pool. Each keeps an insertion-ordered table of pending calls
  (`messagesQueue`). Replies are demultiplexed onto that table by message id.
  On top of the table sit `send`, `sendToMethod`, a call's `cancel`, `cancelAll`,
  `override`, `overrideAfterCurrent` and `dispose`. The pool version adds
  rotation, lazy and warm-up growth, and idle teardown.
- **Worker runtime.** This is `createEasyWebWorker` in its readable form and
  `cw$` in its minified form. It holds a handler table keyed by method name,
  with a throwing default under `''`, and a table of live messages. Each
  message can resolve, reject, be cancelled or report progress, and keeps a
  set of `onCancel` subscribers. `close` rejects every live message.
- **Helpers.** The older single-callback worker (`StaticEasyWebWorker` and
  `WorkerMessage`), and the `uniqueId` counter.

## How the model is built

- **Wire format.** `Wire` is the wire format. It has one reply datatype with
  every tag the repository's files use. `resolved`, `rejected`,
  `worker_canceled` and `progress` are read by the controllers.
  `canceled` is posted by the readable runtime and `worker_canceled` by the
  minified one. `worker_cancelation` is in the type declarations. A worker is
  an opaque id. A channel is an append-only log of posted messages.
- **Promises.** A promise returned to a caller is abstracted as a `Handle`
  (`Handles`). A handle has a status (pending, fulfilled with arguments, or
  rejected with a reason) and the log of progress reports delivered to it.
  Like a promise, a handle settles at most once.
- **Pending table and demultiplexer.** `PendingCalls` holds the pending table
  as a duplicate-free sequence of ids in insertion order. `Map.set` and
  `Map.delete` become `Insert` and `Remove`. Both controllers share the
  demultiplexer specification `Demux`. They differ only in what "the workers
  are gone" means: a null `worker`, or an empty pool.
- **Classes and `await`.** Each controller and the runtime is a class whose
  methods update its fields in place. An `async` method that awaits is split
  into a step before the `await` and a step after it. The step after requires
  that every awaited promise has settled, which is what `Promise.all` waits
  for.
- **Pool.** `Pool` holds the pure side of the parallel controller: rotation
  (`shift` then `push`), growth, the per-worker logs, and what a `cancelAll`
  run posts. A pool slot is `Option<WorkerId>`, so an array element that is
  `undefined` stays visible.
- **Two runtime dialects.** `WorkerRuntime.Runtime` is parameterised by its
  dialect. The readable and minified runtimes differ only in two places: the
  tag of the cancellation reply, and the origin used when neither the
  configured nor the event's origin is set (`'*'`, or `undefined`).
- **Scenarios.** `Scenarios` pairs a single-worker controller with a minified
  runtime and delivers every message by hand in one chosen order. In that order
  it replays the override and overrideAfterCurrent examples of
  `@tests/EasyWebWorker.test.ts`. It also replays the pool examples of the
  defects below.

Three kinds of input are passed in as parameters:

- **Ids.** A message id comes from outside (the fresh-id oracle). The call
  requires that the id is not already in use.
- **Spawned workers.** The constructor is given the workers that warm-up
  spawns, as ids, and the object URL of a generated worker as a string.
- **The clock.** `uniqueId` is given the clock reading.

## Behaviour of the code as written

The model keeps these behaviours, and the contracts state them.

- **The pool from a `Worker[]` source holds `undefined`s.** The constructor
  runs `getWorkerInstance` over the source, and that method returns nothing in
  its append branch. So the `workers` array holds one `undefined` per source
  worker. The constructor's contract says so, and
  `Scenarios.WorkerArraySendThrows` shows the first send then throwing.
- **A lazy pool throws on the first send.** `sendToWorker` takes a worker with
  `getWorkerFromPool`, not `getWorkerInstance`, so a pool without warm-up
  never grows. The first send hands out `undefined` and leaves the pool as
  `[undefined]`. Under the evident meaning of `addMessageToQueue` (see
  "## Left out") it then queues the call and throws a TypeError when posting.
  `Scenarios.LazyPoolSendThrows` shows this.
- **As written, every pool send throws at `addMessageToQueue`.** The method
  borrowed for it from `EasyWebWorker` does not exist there, so the call
  throws a TypeError before anything is queued or posted. The model gives the
  method its evident meaning, inserting the id into the table, so that the
  rest of the pool can be described at all.
- **A script source has no base URL.** With a string source and no `url`
  option, the constructor asks the borrowed `getWorkerUrl` for one. On the
  pool, `isExternalWorkerFile` holds for a string source, so that method
  returns `workerBody`, a field the pool does not have: the base URL is
  `undefined`. For a function source the same method builds a worker from
  `undefined` rather than from the source. The constructor's contract states
  the first; the second is the opaque `generatedUrl` parameter.
- **Teardown throws on an `undefined` slot.** `workers.forEach(w => w.terminate())`
  throws a TypeError at the first `undefined` slot. The idle teardown and
  `dispose` then leave the pool as it was. So `dispose` empties the pool only
  when every slot holds a worker.
- **A `cancelAll` over the pool can stop early.** It stops at the first call
  bound to `undefined`, because that call's `cancel` throws while posting.
  `Pool.CancelRunCompletes` states exactly when the run completes.
- **`overrideAfterCurrent` can leave a call pending forever.** It takes the
  oldest call out of the queue while it awaits the cancellations. A reply for
  that call arriving in that window is dropped, because its id is not queued.
  The call is put back afterwards, and its promise never settles.
  `Scenarios.OverrideAfterCurrentRace` shows this interleaving. When the reply
  comes later, the test's expectation holds: see
  `Scenarios.OverrideAfterCurrentScenario`.
- **The readable runtime's cancel reply loses the call.** The readable runtime
  answers a cancellation with `canceled`, a key the controllers do not look
  for. The controller still removes the call from its table, then finds no
  `resolved` object and throws a TypeError reading its `payload`. The call's
  promise is never settled, and no later reply can reach it:
  `PendingCalls.UnreadReplyLosesCall` and `PendingCalls.DroppedCallNeverSettles`.
  The minified runtime answers with `worker_canceled`, which the controllers read.
- **Two clock readings can give the same id.** `uniqueId` does not separate
  the clock digits from the counter digits, so `"1" + "10"` and `"11" + "0"`
  coincide. `UniqueIds.ClockAndCounterCanCollide` shows this. The injectivity
  that does hold is for one prefix and one clock reading:
  `UniqueIds.ComposeInjective`.
- **The `keepAlive` option is first set, then overwritten.** `keepAlive` is
  first set to `warmUp || keepAlive`, then overwritten by the array check. Only
  the second assignment survives, and the constructor's contract states that
  final value.

## Model

| member | source | states |
|---|---|---|
| PendingCalls.Remove | src/EasyWebWorker.ts:291-293 | deleting a key: exactly that key leaves, the table stays duplicate-free and one shorter, and an absent key changes nothing |
| PendingCalls.RemoveKeepsOrder | src/EasyWebWorker.ts:291-293 | deleting a key that occurs once leaves every other key in its order |
| PendingCalls.RemoveFirst | src/EasyWebWorker.ts:503-507 | deleting the oldest key leaves the other keys in their order |
| PendingCalls.Demux | src/EasyWebWorker.ts:298-360 | a reply for an unqueued id changes nothing; with the workers gone the entry is dropped unsettled; progress keeps the entry and status and appends the report; any other reply removes exactly that entry, then rejects (`worker_canceled`, `rejected`) with the reason or resolves with `payload ?? []`, and a reply under a key the controller does not read (`canceled`, `worker_cancelation`) settles nothing; every other handle stays as it was |
| PendingCalls.DemuxOutcome | src/EasyWebWorker.ts:351-352 | the demultiplexer throws a TypeError exactly for a queued call of a live controller answered under a key it does not read, and otherwise returns normally |
| PendingCalls.DroppedCallNeverSettles | src/EasyWebWorker.ts:299-301 | once a pending call's entry has left the queue, no later sequence of replies changes its handle |
| PendingCalls.UnreadReplyLosesCall | src/EasyWebWorker.ts:328-352 | a `canceled` reply for a pending call removes it and throws, and the call stays pending whatever replies follow |
| PendingCalls.ProgressIsNonTerminal | src/EasyWebWorker.ts:315-326 | any number of progress replies keep the call queued and its status unchanged, and append the reports in order |
| PendingCalls.ProgressThenResolved | src/EasyWebWorker.ts:315-359 | progress replies followed by one resolved reply remove the call once and fulfil it with the payload, its progress log holding every report |
| SingleWorker.EasyWebWorker.constructor | src/EasyWebWorker.ts:268-289 | a new controller has a live worker and an empty table |
| SingleWorker.EasyWebWorker.RemoveMessageFromQueue | src/EasyWebWorker.ts:291-293 | the table loses exactly that id |
| SingleWorker.EasyWebWorker.ExecuteMessageCallback | src/EasyWebWorker.ts:298-360 | the new table and handles are `Demux` of the old ones, with the workers gone once `worker` is null, and it throws exactly as `DemuxOutcome` says |
| SingleWorker.EasyWebWorker.Send | src/EasyWebWorker.ts:432-469 | one new pending handle under the fresh id, the id appended to the table, the execution request posted unless the worker is null; nothing else changes |
| SingleWorker.EasyWebWorker.Cancel | src/EasyWebWorker.ts:440-456 | posts the cancelation request for the id and leaves the table and the handles alone |
| SingleWorker.EasyWebWorker.CancelAll | src/EasyWebWorker.ts:402-425 | awaits exactly the queued calls and posts one cancelation request per queued id, in queue order |
| SingleWorker.EasyWebWorker.OverrideResume | src/EasyWebWorker.ts:480-487 | once the cancellations settled, sends exactly one new call |
| SingleWorker.EasyWebWorker.OverrideAfterCurrentStart | src/EasyWebWorker.ts:498-509 | on a non-empty queue the oldest id is held out of the table and every other queued call is cancelled in order; on an empty queue nothing happens |
| SingleWorker.EasyWebWorker.OverrideAfterCurrentResume | src/EasyWebWorker.ts:509-514 | the held id goes back to the end of the table, then exactly one new call is sent |
| SingleWorker.EasyWebWorker.DisposeResume | src/EasyWebWorker.ts:522-528 | after the cancellations settled the worker is null |
| SingleWorker.JoinContents | src/EasyWebWorker.ts:189 | in `scripts.join(separator)` script `k` sits at `Offset(k)`, the total length of the earlier scripts and their separators, and the last script ends the result |
| SingleWorker.JoinSeparators | src/EasyWebWorker.ts:189 | exactly one separator lies between consecutive scripts; with `Join`'s length clause this fixes every character of the joined string |
| SingleWorker.ImportedScriptsQuoted | src/EasyWebWorker.ts:186-190 | each script appears verbatim inside the `importScripts([...])` array literal, right after the prefix and its offset in the list, with a `"` on each side |
| SingleWorker.ImportedScriptsSeparated | src/EasyWebWorker.ts:186-190 | consecutive imported scripts are separated by exactly `","` |
| SingleWorker.ImportOneScript | src/EasyWebWorker.ts:186-190 | one script is imported by its quoted name |
| Pool.Rotate | src/EasyWebWorkerParallel.ts:324-330 | a non-empty pool hands out its front worker and moves it to the back, keeping its length and multiset; an empty pool hands out `undefined` and becomes `[undefined]` |
| Pool.Grow | src/EasyWebWorkerParallel.ts:353-366 | with at least `maxWorkers` queued it rotates; otherwise it appends exactly one slot, the given worker or a new one, and returns `undefined` |
| Pool.LivePrefix | src/EasyWebWorkerParallel.ts:415-416 | the workers `forEach(terminate)` reaches: every slot before the first `undefined`, all of them exactly when every slot is live |
| Pool.PostTo | src/EasyWebWorkerParallel.ts:403 | a post appends to that worker's log and leaves every other log alone |
| Pool.CancelRunCompletes | src/EasyWebWorkerParallel.ts:382-406 | a `cancelAll` run over a non-empty pool completes exactly when every queued call is bound to a worker |
| Pool.CancelRunDelivers | src/EasyWebWorkerParallel.ts:382-406 | when it completes, each worker's log gains the cancelation requests of its own calls, in queue order, and nothing else |
| Pool.RejectAll | src/EasyWebWorkerParallel.ts:396-401 | over an empty pool every listed pending call is rejected with the reason, and every other handle is unchanged |
| ParallelWorker.EasyWebWorkerParallel.constructor | src/EasyWebWorkerParallel.ts:109-128 | the pool size, the final `keepAlive`, the initial pool (undefineds for a `Worker[]` source, then the warm-up workers) and the base URL: none for workers, else the `url` option, else the borrowed `getWorkerUrl`, which is `undefined` for a script source |
| ParallelWorker.EasyWebWorkerParallel.InitializeFromWorkers | src/EasyWebWorkerParallel.ts:244-245 | mapping the source through `getWorkerInstance` leaves one `undefined` per source worker |
| ParallelWorker.EasyWebWorkerParallel.WarmUp | src/EasyWebWorkerParallel.ts:130-136 | with an empty queue the pool grows by exactly `maxWorkers` new workers, in order |
| ParallelWorker.EasyWebWorkerParallel.GetWorkerFromPool | src/EasyWebWorkerParallel.ts:324-330 | the handed-out worker and the new pool are `Rotate` of the old pool |
| ParallelWorker.EasyWebWorkerParallel.GetWorkerInstance | src/EasyWebWorkerParallel.ts:353-366 | the result and the new pool are `Grow` of the old pool |
| ParallelWorker.EasyWebWorkerParallel.SendToWorker | src/EasyWebWorkerParallel.ts:368-433 | the call is bound to the rotated-out worker and method, queued with a pending handle, and its execution request goes to that worker; an `undefined` worker throws after queueing and posts nothing |
| ParallelWorker.EasyWebWorkerParallel.AddMessageToQueue | src/EasyWebWorkerParallel.ts:281-289 | the id is added to the table, keeping it duplicate-free |
| ParallelWorker.EasyWebWorkerParallel.Send | src/EasyWebWorkerParallel.ts:311-319 | `sendToWorker` with no method |
| ParallelWorker.EasyWebWorkerParallel.SendToMethod | src/EasyWebWorkerParallel.ts:299-304 | `sendToWorker` whose request, and later cancelation, carries the method name |
| ParallelWorker.EasyWebWorkerParallel.Cancel | src/EasyWebWorkerParallel.ts:382-406 | empty pool: rejected locally, nothing posted; otherwise the cancelation request goes to the bound worker with the bound method, or throws when that worker is `undefined`; the table is left alone |
| ParallelWorker.EasyWebWorkerParallel.CancelAll | src/EasyWebWorkerParallel.ts:273-279 | awaits the queued calls; an empty pool rejects them all locally; otherwise the logs and outcome are those of `CancelRun` |
| ParallelWorker.EasyWebWorkerParallel.OverrideResume | src/EasyWebWorkerParallel.ts:441-461 | once the cancellations settled, exactly one call is sent through the pool |
| ParallelWorker.EasyWebWorkerParallel.OverrideAfterCurrentStart | src/EasyWebWorkerParallel.ts:469-489 | the oldest call is held out of the table and the others are cancelled as `CancelAll` does |
| ParallelWorker.EasyWebWorkerParallel.OverrideAfterCurrentResume | src/EasyWebWorkerParallel.ts:469-489 | the held call is re-inserted, then exactly one call is sent through the pool |
| ParallelWorker.EasyWebWorkerParallel.RemoveMessageFromQueue | src/EasyWebWorkerParallel.ts:138-146 | deleting twice removes the id once: the same as one delete |
| ParallelWorker.EasyWebWorkerParallel.ExecuteMessageCallback | src/EasyWebWorkerParallel.ts:151-208 | the new table and handles are `Demux` of the old ones, with the workers gone once the pool is empty, and it throws exactly as `DemuxOutcome` says |
| ParallelWorker.EasyWebWorkerParallel.TerminateAll | src/EasyWebWorkerParallel.ts:415-416 | every worker up to the first `undefined` is terminated; the pool is emptied when all are live, and otherwise the call throws and the pool stays |
| ParallelWorker.EasyWebWorkerParallel.IdleCheck | src/EasyWebWorkerParallel.ts:408-418 | with `keepAlive` or a non-empty queue nothing changes; otherwise `TerminateAll` |
| ParallelWorker.EasyWebWorkerParallel.DisposeResume | src/EasyWebWorkerParallel.ts:494-501 | after the cancellations settled: `TerminateAll`, so the pool ends empty when every slot is live |
| WorkerRuntime.CancelReply | @tests/WorkerTemplate.js:38-44 | the readable runtime answers a cancellation with `canceled`, which no controller reads; the minified runtime (@tests/workerTemplate.ts:168-171) answers with `worker_canceled`, which the controllers read |
| WorkerRuntime.PostOrigin | @tests/WorkerTemplate.js:114-118 | the configured origin if non-empty, else the event's origin if non-empty, else `'*'`; never the empty string; a non-empty event origin wins over `'*'` when no origin is configured; the minified runtime (@tests/workerTemplate.ts:215) gives `undefined` in place of `'*'` |
| WorkerRuntime.Runtime.Snapshot | @tests/WorkerTemplate.js:90 | the live message objects in the table's insertion order |
| WorkerRuntime.Runtime.constructor | @tests/WorkerTemplate.js:2-14 | no live messages and only the throwing default handler |
| WorkerRuntime.Runtime.PostMessage | @tests/WorkerTemplate.js:19-28 | any reply but progress deletes the message's id from the table; the reply is always posted with the id, to the message's origin; the minified counterpart is at @tests/workerTemplate.ts:158-161 |
| WorkerRuntime.Runtime.Resolve | @tests/WorkerTemplate.js:30-32 | posts `resolved` whose payload is the argument list and deletes the id |
| WorkerRuntime.Runtime.Reject | @tests/WorkerTemplate.js:34-36 | posts `rejected` with the reason and deletes the id |
| WorkerRuntime.Runtime.ReportProgress | @tests/WorkerTemplate.js:46-48 | posts `progress` and leaves the message live |
| WorkerRuntime.Runtime.Cancel | @tests/WorkerTemplate.js:38-44 | calls each subscriber of the snapshot once with the reason, in insertion order, then posts the dialect's cancel reply and deletes the id; the minified counterpart is at @tests/workerTemplate.ts:168-171 |
| WorkerRuntime.Runtime.OnCancel | @tests/WorkerTemplate.js:51-55 | adds the callback to that message's subscriber set only, and returns its unsubscriber; the minified counterpart is at @tests/workerTemplate.ts:175 |
| WorkerRuntime.Runtime.Unsubscribe | @tests/WorkerTemplate.js:54 | removes exactly that callback from exactly that message |
| WorkerRuntime.Runtime.OnMessage | @tests/WorkerTemplate.js:71-86 | sets or replaces only the registration's key; the minified counterpart is at @tests/workerTemplate.ts:188-199 |
| WorkerRuntime.Runtime.ImportScripts | @tests/WorkerTemplate.js:67-69 | forwards the scripts to the host |
| WorkerRuntime.Runtime.Close | @tests/WorkerTemplate.js:88-95 | rejects every live message with `Error('worker closed')` in table order, leaves the table empty, then closes; the minified counterpart is at @tests/workerTemplate.ts:200-203 |
| WorkerRuntime.Runtime.Store | @tests/WorkerTemplate.js:114-120 | the new message object is stored under its id, at the end of the table unless the id is already there |
| WorkerRuntime.Runtime.OnMessageEvent | @tests/WorkerTemplate.js:97-125 | a cancelation calls `cancel` on the stored message and throws when there is none; an execution stores the message first, then calls the handler for `method \|\| ''`, throwing when there is none and throwing the descriptive string from the default; the minified counterpart is at @tests/workerTemplate.ts:204-220 |
| WorkerRuntime.Bootstrap | @tests/workerTemplate.ts:143-231 | empty primitive parameters and `['fake.js']` imported before the runtime is built with an empty origin; the body sets its global property and registers its handler under `''`, replacing the throwing default |
| StaticWorker.WorkerMessage.constructor | src/StaticEasyWebWorker.ts:7 | keeps the payload and id; the origin defaults to `'*'` |
| StaticWorker.WorkerMessage.Resolve | src/StaticEasyWebWorker.ts:9-11 | posts `{ messageId, payload: result }` to the message's origin |
| StaticWorker.WorkerMessage.Reject | src/StaticEasyWebWorker.ts:13-15 | posts the payload `[{ error }]` |
| StaticWorker.WorkerMessage.ReportProgress | src/StaticEasyWebWorker.ts:17-19 | posts `{ messageId, progressPercentage }` with no payload |
| StaticWorker.StaticEasyWebWorker.constructor | src/StaticEasyWebWorker.ts:25-30 | keeps the callback and installs `onmessage` with the origin, `'*'` by default |
| StaticWorker.StaticEasyWebWorker.DefineOnMessage | src/StaticEasyWebWorker.ts:32-41 | later events use the given origin |
| StaticWorker.StaticEasyWebWorker.OnMessage | src/StaticEasyWebWorker.ts:43-48 | later events go to the new callback |
| StaticWorker.StaticEasyWebWorker.Dispatch | src/StaticEasyWebWorker.ts:33-40 | each event gets a fresh message with its id and payload and the installed origin, handed to the current callback |
| UniqueIds.Base36 | src/uniqueId.ts:7 | `toString(36)` of a non-negative integer: base-36 digits denoting the number, with no leading zero |
| UniqueIds.Base36Injective | src/uniqueId.ts:7 | distinct numbers have distinct base-36 forms |
| UniqueIds.ComposeStartsWithPrefix | src/uniqueId.ts:4-7 | every id starts with its prefix and is longer than it |
| UniqueIds.ComposeInjective | src/uniqueId.ts:7 | one prefix and one clock reading with distinct counters give distinct ids |
| UniqueIds.ClockAndCounterCanCollide | src/uniqueId.ts:7 | without a common clock reading two ids can coincide |
| UniqueIds.UniqueId.constructor | src/uniqueId.ts:2 | the counter starts at 0 |
| UniqueIds.UniqueId.Used | src/uniqueId.ts:5 | the counter value a call uses: exactly 0 at `MAX_SAFE_INTEGER`, otherwise the counter itself |
| UniqueIds.UniqueId.Next | src/uniqueId.ts:4-8 | the id is prefix (default `''`), clock and used counter in base 36, and the counter advances by one past the used value |
| UniqueIds.CallsBetweenResetsDiffer | src/uniqueId.ts:5-7 | any two calls of a run of `Next` calls under one prefix and clock reading differ, when no reset falls between them |
| UniqueIds.SuccessiveCallsDiffer | src/uniqueId.ts:5-7 | two successive calls under one prefix and clock reading differ, across a reset too |
| Scenarios.OverrideScenario | @tests/EasyWebWorker.test.ts:286-292 | two sends, then `override`: both earlier calls end rejected with the reason and only the new one is fulfilled |
| Scenarios.OverrideAfterCurrentScenario | @tests/EasyWebWorker.test.ts:322-328 | two sends, then `overrideAfterCurrent`: the oldest and the new call are fulfilled, the middle one rejected, and the table ends empty |
| Scenarios.OverrideAfterCurrentRace | src/EasyWebWorker.ts:503-511 | if the oldest call answers during the await, its reply is dropped and it stays queued and pending for ever |
| Scenarios.BoundWorkerScenario | src/EasyWebWorkerParallel.ts:380-430 | over a warmed pool of two, each call's execution and cancelation requests, carrying its method, go to the worker it was bound to |
| Scenarios.LazyPoolSendThrows | src/EasyWebWorkerParallel.ts:375-430 | without warm-up the first send queues the call, leaves the pool `[undefined]` and throws |
| Scenarios.WorkerArraySendThrows | src/EasyWebWorkerParallel.ts:244-245 | a pool over two given workers is sized 2 and kept alive, but a send throws |

## Left out

- Worker spawning and source generation are host calls: `new Worker`, `Blob`, object URLs and their revocation, `Function.toString`, and `getWorkerUrl`/`initializeWorker`/`createBlobWorker`. A worker is an opaque id, and the generated URL is a string parameter.
- The promise library is not part of this model. A handle is a status plus a progress log. The `cancel` swap on the decoupled promise is modelled only by its effect, which is posting the cancelation request.
- `generatedId` (clock and `Math.random`) becomes a fresh id supplied by the caller, and `Date.now()` in `uniqueId` the clock reading given to `UniqueIds.UniqueId.Next`.
- `setTimeout` and `async`/`await` become explicit steps (`IdleCheck`; the `...Start`/`...Resume` pairs). Real parallelism between workers is not modelled.
- SingleWorker.EasyWebWorker.CancelAll: leaves out the `.catch` handler. On each rejected cancellation it reports `100 / total` progress, which is floating-point arithmetic on the promise library's side.
- ParallelWorker.EasyWebWorkerParallel.CancelAll: leaves out the same `.catch` handler of the `cancelAll` it delegates to. Over an empty pool every cancellation is rejected at once, so that progress report would reach every queued handle, and `Pool.RejectAll` leaves the progress logs unchanged.
- ParallelWorker.EasyWebWorkerParallel.constructor: `name`, `scripts` and `onWorkerError` are not modelled, and a negative `maxWorkers` cannot be expressed because the field is a natural number.
- ParallelWorker.EasyWebWorkerParallel.CancelAll: the `force` option has no effect in the code it delegates to, and is not a parameter.
- `override` and `overrideAfterCurrent` of the pool borrow methods of `EasyWebWorker`, and they are modelled by their evident meaning: `cancelAll`, then send through the pool.
- ParallelWorker.EasyWebWorkerParallel.AddMessageToQueue: borrows a method `EasyWebWorker` does not define, so as written it throws a TypeError. The model gives it its evident meaning, inserting the id into the table, and every pool send builds on that.
- WorkerRuntime.Runtime.OnMessageEvent: comes back once the handler is called. What a user callback does (a resolve, an `onCancel`, ...) is a separate step the caller may take later. A callback that throws, and the `event` argument passed to handlers, are not modelled.
- WorkerRuntime.Runtime.Cancel: assumes the cancel subscribers return normally. A subscriber that throws would stop the loop before the reply is posted. Calls to subscribers are recorded, not run, so a post a subscriber makes itself (a `resolve` inside an `onCancel` callback) cannot be ordered before the cancel reply as it is in the code.
- `onerror` handlers, transferables and structured cloning are left out. Origins are passed-through strings.
- `self.close()` is recorded only as a flag. The controller never learns that the worker closed.
- The compiled `lib/` files, the declaration-only type files and the thin factory functions are not part of this model.
