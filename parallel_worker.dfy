/**
 * EasyWebWorkerParallel: a controller that spreads calls over a pool of
 * workers.  Each call is bound to one worker when it is sent; its execution
 * request and any later cancelation request go to that worker.  Workers are
 * opaque ids and `logs` holds what was posted to each of them; `terminated`
 * records the `terminate()` calls.
 */
module ParallelWorker {
  import opened Wire
  import opened Handles
  import opened PendingCalls
  import opened Pool

  /** The forms of `source` the constructor tells apart: a worker body (a
      function or an array of functions), a script URL, one worker, or an
      array of workers. */
  datatype Source = Body | Url(url: string) | Instance(worker: WorkerId) | Instances(workers: seq<WorkerId>)

  datatype Options = Options(
    url: Option<string>,
    maxWorkers: nat,
    keepAlive: bool,
    terminationDelay: int,
    warmUp: bool)

  /** The defaults of the constructor's options object. */
  const DefaultOptions: Options := Options(None, 4, false, 1000, false)

  /** `isArrayOfWebWorkers`: a non-empty array whose first element is a Worker. */
  predicate IsWorkerArray(source: Source) {
    source.Instances? && |source.workers| > 0
  }

  /** The pool size the constructor settles on. */
  function PoolSize(source: Source, options: Options): nat {
    if IsWorkerArray(source) then |source.workers| else options.maxWorkers
  }

  function Undefineds(n: nat): (r: seq<Slot>)
    ensures |r| == n && forall k :: 0 <= k < n ==> r[k] == None
  {
    seq(n, k => None)
  }

  function Lives(ws: seq<WorkerId>): (r: seq<Slot>)
    ensures |r| == |ws| && forall k :: 0 <= k < |ws| ==> r[k] == Some(ws[k])
  {
    seq(|ws|, k requires 0 <= k < |ws| => Some(ws[k]))
  }

  /**
   * `getWorkerUrl()`, borrowed from EasyWebWorker and called on the pool.  The
   * borrowed body reads `isExternalWorkerFile`, which on the pool means "the
   * source is a string", and then `workerBody`, a field the pool does not
   * have.  So a script source yields `undefined`, and any other source yields
   * the object URL of a worker built from `undefined` (`generatedUrl`).
   */
  function BorrowedWorkerUrl(source: Source, generatedUrl: string): (r: Option<string>)
    ensures source.Url? ==> r == None
    ensures !source.Url? ==> r == Some(generatedUrl)
  {
    if source.Url? then None else Some(generatedUrl)
  }

  class EasyWebWorkerParallel {
    var baseUrl: Option<string>
    var maxWorkers: nat
    var keepAlive: bool
    var terminationDelay: int
    var workers: seq<Slot>
    var queue: seq<Id>                   // keys of messagesQueue, in insertion order
    var handles: map<Id, Handle>         // the promise of each message ever sent
    var bindings: map<Id, Binding>       // the worker and method each call's cancel closure captured
    var logs: map<WorkerId, seq<Request>>
    var terminated: seq<WorkerId>

    ghost predicate Valid()
      reads this
    {
      Calls(queue, handles).Valid() && handles.Keys == bindings.Keys
    }

    /**
     * The constructor.  `generatedUrl` stands for the object URL the host
     * builds for a generated worker, and `created` for the workers warm-up
     * spawns, in order.
     */
    constructor (source: Source, options: Options, generatedUrl: string, created: seq<WorkerId>)
      requires options.warmUp ==> |created| >= PoolSize(source, options)
      ensures Valid()
      ensures maxWorkers == PoolSize(source, options)
      ensures keepAlive == (IsWorkerArray(source) || options.keepAlive)
      ensures terminationDelay == options.terminationDelay
      ensures baseUrl ==
        (if IsWorkerArray(source) || source.Instance? then None
         else if options.url.Some? then options.url
         else if source.Url? then None
         else Some(generatedUrl))
      ensures workers ==
        (if IsWorkerArray(source) then Undefineds(|source.workers|) else [])
        + (if options.warmUp then Lives(created[..PoolSize(source, options)]) else [])
      ensures queue == [] && handles == map[] && bindings == map[] && logs == map[] && terminated == []
    {
      baseUrl := options.url;
      maxWorkers := options.maxWorkers;
      keepAlive := options.warmUp || options.keepAlive;
      terminationDelay := options.terminationDelay;
      workers := [];
      queue := [];
      handles := map[];
      bindings := map[];
      logs := map[];
      terminated := [];
      new;
      // initializeWorkerBaseSource
      var isArrayOfWebWorkers := IsWorkerArray(source);
      if isArrayOfWebWorkers {
        InitializeFromWorkers(source.workers);
        baseUrl := None;
      } else if source.Instance? {
        baseUrl := None;
      } else if baseUrl.None? {
        baseUrl := BorrowedWorkerUrl(source, generatedUrl);
      }
      maxWorkers := if isArrayOfWebWorkers then |source.workers| else options.maxWorkers;
      keepAlive := if isArrayOfWebWorkers then true else options.keepAlive;
      if options.warmUp {
        WarmUp(created);
      }
    }

    /**
     * `this.workers = source.map(this.getWorkerInstance)`: each call pushes
     * (or rotates) and returns nothing, so the array assigned at the end
     * holds one `undefined` per source worker.
     */
    method InitializeFromWorkers(source: seq<WorkerId>)
      requires Valid() && queue == [] && workers == []
      modifies this`workers
      ensures Valid()
      ensures workers == Undefineds(|source|)
    {
      var results: seq<Slot> := [];
      var i := 0;
      while i < |source|
        invariant 0 <= i <= |source|
        invariant Valid() && queue == []
        invariant |results| == i && forall k :: 0 <= k < i ==> results[k] == None
        invariant maxWorkers == 0 ==> forall k :: 0 <= k < |workers| ==> workers[k] == None
      {
        var r := GetWorkerInstance(Some(source[i]), 0);
        results := results + [r];
        i := i + 1;
      }
      workers := results;
    }

    /** `warmUp`: `getWorkerInstance(null)` once per slot of the pool size. */
    method WarmUp(created: seq<WorkerId>)
      requires Valid() && queue == [] && |created| >= maxWorkers
      modifies this`workers
      ensures Valid()
      ensures workers == old(workers) + Lives(created[..maxWorkers])
    {
      var i := 0;
      while i < maxWorkers
        invariant 0 <= i <= maxWorkers
        invariant Valid() && queue == []
        invariant workers == old(workers) + Lives(created[..i])
      {
        var _ := GetWorkerInstance(None, created[i]);
        assert Lives(created[..i + 1]) == Lives(created[..i]) + [Some(created[i])];
        i := i + 1;
      }
    }

    /** `getWorkerFromPool` */
    method GetWorkerFromPool() returns (w: Slot)
      modifies this`workers
      ensures Pick(w, workers) == Rotate(old(workers))
    {
      if |workers| == 0 {
        w := None;            // shift() of an empty array
        workers := [w];
      } else {
        w := workers[0];
        workers := workers[1..];
        workers := workers + [w];
      }
    }

    /** `getWorkerInstance(given)`; `created` is the worker spawned when `given` is null. */
    method GetWorkerInstance(given: Slot, created: WorkerId) returns (r: Slot)
      modifies this`workers
      ensures Pick(r, workers) == Grow(old(workers), |queue|, maxWorkers, given, created)
    {
      if |queue| >= maxWorkers {
        r := GetWorkerFromPool();
        return;
      }
      var worker := if given.Some? then given else Some(created);
      workers := workers + [worker];
      r := None;
    }

    /**
     * `sendToWorker({ payload, method })`: a fresh message is bound to the
     * worker taken from the pool, queued, and its execution request posted to
     * that worker.  Posting to an `undefined` slot throws after the message is
     * queued.
     */
    method SendToWorker(id: Id, payload: Value, methodName: Option<string>) returns (outcome: Outcome)
      requires Valid() && id !in handles
      modifies this`workers, this`handles, this`bindings, this`queue, this`logs
      ensures Valid()
      ensures
        var pick := Rotate(old(workers));
        && workers == pick.pool
        && handles == old(handles)[id := NewHandle]
        && bindings == old(bindings)[id := Binding(pick.worker, methodName)]
        && queue == old(queue) + [id]
        && (pick.worker.None? ==> outcome == Threw(TypeError) && logs == old(logs))
        && (pick.worker.Some? ==>
              outcome == Done &&
              logs == PostTo(old(logs), pick.worker.value, Request(id, methodName, Execution(payload))))
    {
      handles := handles[id := NewHandle];
      var worker := GetWorkerFromPool();
      bindings := bindings[id := Binding(worker, methodName)];
      AddMessageToQueue(id);
      if worker.None? {
        outcome := Threw(TypeError);
        return;
      }
      logs := PostTo(logs, worker.value, Request(id, methodName, Execution(payload)));
      outcome := Done;
    }

    /** `addMessageToQueue(message)`: `messagesQueue.set(message.messageId, message)`. */
    method AddMessageToQueue(id: Id)
      requires Calls(queue, handles).Valid() && id in handles
      modifies this`queue
      ensures Calls(queue, handles).Valid()
      ensures queue == Insert(old(queue), id)
    {
      queue := Insert(queue, id);
      assert Distinct(queue) by {
        if id !in old(queue) {
          assert forall k :: 0 <= k < |old(queue)| ==> queue[k] == old(queue)[k];
        }
      }
    }

    /** `send(payload)` */
    method Send(id: Id, payload: Value) returns (outcome: Outcome)
      requires Valid() && id !in handles
      modifies this`workers, this`handles, this`bindings, this`queue, this`logs
      ensures Valid()
      ensures
        var pick := Rotate(old(workers));
        && workers == pick.pool
        && handles == old(handles)[id := NewHandle]
        && bindings == old(bindings)[id := Binding(pick.worker, None)]
        && queue == old(queue) + [id]
        && (pick.worker.None? ==> outcome == Threw(TypeError) && logs == old(logs))
        && (pick.worker.Some? ==>
              outcome == Done &&
              logs == PostTo(old(logs), pick.worker.value, Request(id, None, Execution(payload))))
    {
      outcome := SendToWorker(id, payload, None);
    }

    /** `sendToMethod(method, payload)`: the request carries the method name. */
    method SendToMethod(methodName: string, id: Id, payload: Value) returns (outcome: Outcome)
      requires Valid() && id !in handles
      modifies this`workers, this`handles, this`bindings, this`queue, this`logs
      ensures Valid()
      ensures
        var pick := Rotate(old(workers));
        && workers == pick.pool
        && handles == old(handles)[id := NewHandle]
        && bindings == old(bindings)[id := Binding(pick.worker, Some(methodName))]
        && queue == old(queue) + [id]
        && (pick.worker.None? ==> outcome == Threw(TypeError) && logs == old(logs))
        && (pick.worker.Some? ==>
              outcome == Done &&
              logs == PostTo(old(logs), pick.worker.value, Request(id, Some(methodName), Execution(payload))))
    {
      outcome := SendToWorker(id, payload, Some(methodName));
    }

    /**
     * The `cancel(reason)` that `sendToWorker` installs on the promise.  With
     * an empty pool the promise is rejected at once and nothing is posted;
     * otherwise the cancelation request goes to the worker the call was bound
     * to, and the entry waits in the queue for the worker's answer.
     */
    method Cancel(id: Id, reason: Value) returns (outcome: Outcome)
      requires Valid() && id in handles
      modifies this`handles, this`logs
      ensures Valid()
      ensures |workers| == 0 ==>
        outcome == Done && logs == old(logs) && handles == old(handles)[id := Reject(old(handles)[id], reason)]
      ensures |workers| > 0 ==> handles == old(handles)
      ensures |workers| > 0 && bindings[id].worker.None? ==> outcome == Threw(TypeError) && logs == old(logs)
      ensures |workers| > 0 && bindings[id].worker.Some? ==>
        outcome == Done &&
        logs == PostTo(old(logs), bindings[id].worker.value, Request(id, bindings[id].methodName, Cancelation(reason)))
    {
      var b := bindings[id];
      if |workers| == 0 {
        handles := handles[id := Reject(handles[id], reason)];
        outcome := Done;
        return;
      }
      if b.worker.None? {
        outcome := Threw(TypeError);
        return;
      }
      logs := PostTo(logs, b.worker.value, Request(id, b.methodName, Cancelation(reason)));
      outcome := Done;
    }

    /**
     * Where `cancelAll` stands after `cancel` on the first `i` of `awaited`,
     * starting from `logs0` and `handles0`: what is left to do takes the
     * state to where the whole run takes the starting state.
     */
    ghost predicate Cancelling(awaited: seq<Id>, i: nat, reason: Value, logs0: map<WorkerId, seq<Request>>,
                               handles0: map<Id, Handle>)
      reads this
    {
      && i <= |awaited| && awaited == queue && Valid() && handles.Keys == handles0.Keys
      && (|workers| == 0 ==>
            logs == logs0 && RejectAll(handles0, awaited, reason) == RejectAll(handles, awaited[i..], reason))
      && (|workers| > 0 ==>
            handles == handles0 && CancelRun(logs0, bindings, awaited, reason) == CancelRun(logs, bindings, awaited[i..], reason))
    }

    /** Before the first `cancel`, nothing is done yet. */
    lemma CancellingStarts(reason: Value)
      requires Valid()
      ensures Cancelling(queue, 0, reason, logs, handles)
    {
      assert queue[0..] == queue;
    }

    /** After the last `cancel`, the state is where the whole run takes the starting state. */
    lemma CancellingEnds(awaited: seq<Id>, reason: Value, logs0: map<WorkerId, seq<Request>>, handles0: map<Id, Handle>)
      requires Cancelling(awaited, |awaited|, reason, logs0, handles0)
      ensures Valid() && awaited == queue
      ensures |workers| == 0 ==> logs == logs0 && handles == RejectAll(handles0, queue, reason)
      ensures |workers| > 0 ==> handles == handles0 && Delivery(logs, Done) == CancelRun(logs0, bindings, queue, reason)
    {
      assert awaited[|awaited|..] == [];
    }

    /** One step of `cancelAll`: `cancel` on the next queued message. */
    method CancelStep(awaited: seq<Id>, i: nat, reason: Value, ghost logs0: map<WorkerId, seq<Request>>,
                      ghost handles0: map<Id, Handle>) returns (outcome: Outcome)
      requires Cancelling(awaited, i, reason, logs0, handles0) && i < |awaited|
      modifies this`handles, this`logs
      ensures outcome.Done? ==> Cancelling(awaited, i + 1, reason, logs0, handles0)
      ensures outcome.Threw? ==>
        Valid() && |workers| > 0 && handles == handles0 && Delivery(logs, outcome) == CancelRun(logs0, bindings, awaited, reason)
    {
      assert awaited[i..][1..] == awaited[i + 1..];
      outcome := Cancel(awaited[i], reason);
    }

    /**
     * `cancelAll(reason, { force })`, run by EasyWebWorker's `cancelAll`:
     * `cancel` on a snapshot of the queued messages, stopping at the first
     * that throws.  `force` has no effect there and is not a parameter here.
     */
    method CancelAll(reason: Value) returns (awaited: seq<Id>, outcome: Outcome)
      requires Valid()
      modifies this`handles, this`logs
      ensures Valid()
      ensures awaited == queue
      ensures |workers| == 0 ==>
        outcome == Done && logs == old(logs) && handles == RejectAll(old(handles), queue, reason)
      ensures |workers| > 0 ==>
        handles == old(handles) && Delivery(logs, outcome) == CancelRun(old(logs), bindings, queue, reason)
    {
      awaited := queue;
      outcome := Done;
      ghost var logs0, handles0 := logs, handles;
      var i := 0;
      CancellingStarts(reason);
      while i < |awaited|
        invariant outcome == Done && Cancelling(awaited, i, reason, logs0, handles0)
      {
        outcome := CancelStep(awaited, i, reason, logs0, handles0);
        if outcome.Threw? {
          return;
        }
        i := i + 1;
      }
      CancellingEnds(awaited, reason, logs0, handles0);
    }

    /** `override` after its `await this.cancelAll(reason)`: `send(payload)`. */
    method OverrideResume(awaited: seq<Id>, id: Id, payload: Value) returns (outcome: Outcome)
      requires Valid() && Settled(handles, awaited) && id !in handles
      modifies this`workers, this`handles, this`bindings, this`queue, this`logs
      ensures Valid()
      ensures
        var pick := Rotate(old(workers));
        && workers == pick.pool
        && handles == old(handles)[id := NewHandle]
        && bindings == old(bindings)[id := Binding(pick.worker, None)]
        && queue == old(queue) + [id]
        && (pick.worker.None? ==> outcome == Threw(TypeError) && logs == old(logs))
        && (pick.worker.Some? ==>
              outcome == Done &&
              logs == PostTo(old(logs), pick.worker.value, Request(id, None, Execution(payload))))
    {
      outcome := Send(id, payload);
    }

    /**
     * `overrideAfterCurrent` up to its `await`: the oldest message is taken
     * out of the queue and every other one is cancelled.
     */
    method OverrideAfterCurrentStart(reason: Value) returns (held: Option<Id>, awaited: seq<Id>, outcome: Outcome)
      requires Valid()
      modifies this`queue, this`handles, this`logs
      ensures Valid()
      ensures old(queue) == [] ==>
        held == None && awaited == [] && outcome == Done &&
        queue == [] && handles == old(handles) && logs == old(logs)
      ensures old(queue) != [] ==>
        && held == Some(old(queue)[0])
        && queue == old(queue)[1..]
        && awaited == queue
        && (|workers| == 0 ==>
              outcome == Done && logs == old(logs) && handles == RejectAll(old(handles), queue, reason))
        && (|workers| > 0 ==>
              handles == old(handles) && Delivery(logs, outcome) == CancelRun(old(logs), bindings, queue, reason))
    {
      if |queue| > 0 {
        var current := queue[0];
        held := Some(current);
        RemoveFirst(queue);
        queue := Remove(queue, current);
        awaited, outcome := CancelAll(reason);
      } else {
        held, awaited, outcome := None, [], Done;
      }
    }

    /** `overrideAfterCurrent` after its `await`: re-insert the held message, then `send(payload)`. */
    method OverrideAfterCurrentResume(held: Option<Id>, awaited: seq<Id>, id: Id, payload: Value) returns (outcome: Outcome)
      requires Valid() && Settled(handles, awaited) && id !in handles
      requires held.Some? ==> held.value in handles
      modifies this`workers, this`handles, this`bindings, this`queue, this`logs
      ensures Valid()
      ensures
        var pick := Rotate(old(workers));
        && workers == pick.pool
        && handles == old(handles)[id := NewHandle]
        && bindings == old(bindings)[id := Binding(pick.worker, None)]
        && queue == (if held.Some? then Insert(old(queue), held.value) else old(queue)) + [id]
        && (pick.worker.None? ==> outcome == Threw(TypeError) && logs == old(logs))
        && (pick.worker.Some? ==>
              outcome == Done &&
              logs == PostTo(old(logs), pick.worker.value, Request(id, None, Execution(payload))))
    {
      if held.Some? {
        AddMessageToQueue(held.value);
      }
      outcome := Send(id, payload);
    }

    /** `RemoveMessageFromQueue`: deletes here and again through EasyWebWorker's method. */
    method RemoveMessageFromQueue(id: Id)
      requires Valid()
      modifies this`queue
      ensures Valid()
      ensures queue == Remove(old(queue), id)
    {
      queue := Remove(queue, id);
      queue := Remove(queue, id);
    }

    /** A worker's `onmessage`: demultiplex one reply by its message id. */
    method ExecuteMessageCallback(reply: Reply) returns (outcome: Outcome)
      requires Valid()
      modifies this`queue, this`handles
      ensures Valid()
      ensures Calls(queue, handles) == Demux(Calls(old(queue), old(handles)), |workers| > 0, reply)
      ensures outcome == DemuxOutcome(Calls(old(queue), old(handles)), |workers| > 0, reply)
    {
      outcome := Done;
      var id := reply.messageId;
      if id !in queue {
        return;
      }
      if |workers| == 0 {
        RemoveMessageFromQueue(id);
        return;
      }
      var h := handles[id];
      if reply.body.Progress? {
        handles := handles[id := Report(h, reply.body.percentage, reply.body.data)];
        return;
      }
      RemoveMessageFromQueue(id);
      match reply.body {
        case WorkerCanceled(reason) =>
          handles := handles[id := Reject(h, reason)];
        case Rejected(reason) =>
          handles := handles[id := Reject(h, reason)];
        case Resolved(payload) =>
          handles := handles[id := Resolve(h, payload.GetOr([]))];
        case _ =>
          // `resolved` is undefined: reading its `payload` throws
          outcome := Threw(TypeError);
      }
    }

    /**
     * `workers.forEach(w => w.terminate()); workers = []`.  The loop throws at
     * the first `undefined` slot, and then the pool is left as it was.
     */
    method TerminateAll() returns (outcome: Outcome)
      modifies this`workers, this`terminated
      ensures terminated == old(terminated) + LivePrefix(old(workers))
      ensures AllLive(old(workers)) ==> outcome == Done && workers == []
      ensures !AllLive(old(workers)) ==> outcome == Threw(TypeError) && workers == old(workers)
    {
      var i := 0;
      while i < |workers|
        invariant 0 <= i <= |workers|
        invariant forall k :: 0 <= k < i ==> workers[k].Some?
        invariant i <= |LivePrefix(workers)|
        invariant terminated == old(terminated) + LivePrefix(workers)[..i]
        modifies this`terminated
      {
        LivePrefixStep(workers, i);
        if workers[i].None? {
          return Threw(TypeError);
        }
        terminated := terminated + [workers[i].value];
        i := i + 1;
      }
      assert LivePrefix(workers)[..i] == LivePrefix(workers);
      workers := [];
      outcome := Done;
    }

    /**
     * The idle check that settling a call schedules (after
     * `terminationDelay`) when `keepAlive` is false: with an empty queue every
     * worker is terminated and the pool emptied; otherwise nothing happens.
     */
    method IdleCheck() returns (outcome: Outcome)
      modifies this`workers, this`terminated
      ensures keepAlive || |queue| > 0 ==>
        outcome == Done && workers == old(workers) && terminated == old(terminated)
      ensures !keepAlive && |queue| == 0 ==>
        && terminated == old(terminated) + LivePrefix(old(workers))
        && (AllLive(old(workers)) ==> outcome == Done && workers == [])
        && (!AllLive(old(workers)) ==> outcome == Threw(TypeError) && workers == old(workers))
    {
      if keepAlive || |queue| > 0 {
        return Done;
      }
      outcome := TerminateAll();
    }

    /** `dispose` after its `await this.cancelAll(null)`: terminate and drop every worker. */
    method DisposeResume(awaited: seq<Id>) returns (outcome: Outcome)
      requires Valid() && Settled(handles, awaited)
      modifies this`workers, this`terminated
      ensures terminated == old(terminated) + LivePrefix(old(workers))
      ensures AllLive(old(workers)) ==> outcome == Done && workers == []
      ensures !AllLive(old(workers)) ==> outcome == Threw(TypeError) && workers == old(workers)
    {
      outcome := TerminateAll();
    }
  }
}
