/**
 * The runtime that runs inside a worker: `createEasyWebWorker(targetOrigin)`
 * in its readable form and `cw$(a)` in its minified form.  The two differ only
 * in the tag a cancellation reply carries and in the origin used when neither
 * the configured nor the event's origin is set, so one class models both,
 * parameterised by its dialect.
 *
 * Message objects are kept by identity in `objects`: the closures of a
 * message (resolve, reject, cancel, ...) stay usable after the message left
 * the live-message table.  User callbacks are opaque ids; calling one is
 * recorded in `invocations`, and what the callback does in turn is a separate
 * step of the caller's choosing.
 */
module WorkerRuntime {
  import opened Wire
  import opened PendingCalls

  datatype Dialect = Readable | Minified

  /** The string the default `''` handler throws. */
  const MissingCallbackMessage: string :=
    "you didn't defined a message-callback, please assign a callback by calling IEasyWorkerInstance.onMessage"

  /** The error `close` rejects every live message with. */
  const ClosedError: Value := ErrorObject("worker closed")

  /** The reply `cancel(reason)` posts: `canceled` in the readable form,
      `worker_canceled` in the minified one. */
  function CancelReply(d: Dialect, reason: Value): (b: ReplyBody)
    ensures !b.Progress?
    ensures ControllerTag(b) <==> d.Minified?
    ensures b.Canceled? || b.WorkerCanceled?
  {
    match d
    case Readable => Canceled(reason)
    case Minified => WorkerCanceled(reason)
  }

  /**
   * The origin a message posts to: the configured target, else the event's
   * origin (both with JavaScript's `||`, so an empty string counts as unset),
   * else `'*'` (readable) or `undefined` (minified).
   */
  function PostOrigin(d: Dialect, target: string, eventOrigin: string): (r: Option<string>)
    ensures r != Some("")
    ensures r.None? <==> d.Minified? && target == "" && eventOrigin == ""
    ensures target != "" ==> r == Some(target)
    ensures target == "" && eventOrigin != "" ==> r == Some(eventOrigin)
    ensures r.Some? && r.value != target ==> target == "" && (r.value == eventOrigin || r.value == "*")
  {
    if target != "" then Some(target)
    else if eventOrigin != "" then Some(eventOrigin)
    else if d.Readable? then Some("*")
    else None
  }

  /** The handler-table key an execution request is dispatched on: `method || ''`. */
  function HandlerKey(methodName: Option<string>): (k: string)
    ensures methodName.None? ==> k == ""
    ensures methodName.Some? ==> k == methodName.value
  {
    methodName.GetOr("")
  }

  /** A handler-table entry: the default that throws, or a user callback. */
  datatype Handler = Thrower | User(cb: CallbackId)

  /** The arguments of `onMessage`: a string key and a callback, or just a callback. */
  datatype Registration = Named(name: string, cb: CallbackId) | Unnamed(cb: CallbackId)

  /** The key `onMessage` sets. */
  function RegistrationKey(r: Registration): (k: string)
    ensures r.Unnamed? ==> k == ""
    ensures r.Named? ==> k == r.name
  {
    match r
    case Named(name, _) => name
    case Unnamed(_) => ""
  }

  /** A message object made by `createMessage`: what its closures captured
      and its own set of cancel subscribers (in insertion order). */
  datatype MessageObject = MessageObject(messageId: Id, payload: Value, origin: Option<string>, cancelCallbacks: seq<CallbackId>)

  /** `self.postMessage({ messageId, ...data }, origin)` */
  datatype Post = Post(reply: Reply, origin: Option<string>)

  /** A call of a user callback: a cancel subscriber with the reason, or a
      handler with the message object it received. */
  datatype Invocation = CancelCall(cb: CallbackId, reason: Value) | HandlerCall(cb: CallbackId, message: nat)

  /** What `onCancel` returns: deletes `callback` from the subscribers of message object `message`. */
  datatype Unsubscriber = Unsubscriber(message: nat, callback: CallbackId)

  /** The calls `callbacks.forEach(callback => callback(reason))` makes, in order. */
  function CancelCalls(cbs: seq<CallbackId>, reason: Value): (r: seq<Invocation>)
    ensures |r| == |cbs|
    ensures forall k :: 0 <= k < |cbs| ==> r[k] == CancelCall(cbs[k], reason)
  {
    seq(|cbs|, k requires 0 <= k < |cbs| => CancelCall(cbs[k], reason))
  }

  /** The rejections `close` posts for the listed message objects, in order. */
  function ClosePosts(objects: seq<MessageObject>, snapshot: seq<nat>): (r: seq<Post>)
    requires forall k :: 0 <= k < |snapshot| ==> snapshot[k] < |objects|
    ensures |r| == |snapshot|
    ensures forall k :: 0 <= k < |snapshot| ==>
      r[k] == Post(Reply(objects[snapshot[k]].messageId, Rejected(ClosedError)), objects[snapshot[k]].origin)
  {
    seq(|snapshot|, k requires 0 <= k < |snapshot| =>
      Post(Reply(objects[snapshot[k]].messageId, Rejected(ClosedError)), objects[snapshot[k]].origin))
  }

  lemma ClosePostsSnoc(objects: seq<MessageObject>, snapshot: seq<nat>, i: nat)
    requires i < |snapshot| && forall k :: 0 <= k < |snapshot| ==> snapshot[k] < |objects|
    ensures ClosePosts(objects, snapshot[..i + 1]) ==
      ClosePosts(objects, snapshot[..i]) + [Post(Reply(objects[snapshot[i]].messageId, Rejected(ClosedError)), objects[snapshot[i]].origin)]
  {
    assert snapshot[..i + 1][..i] == snapshot[..i];
  }

  class Runtime {
    const dialect: Dialect
    const targetOrigin: string
    var callbacks: map<string, Handler>   // workerCallbacks / c
    var objects: seq<MessageObject>       // every message object created, by identity
    var table: map<Id, nat>               // workerMessages / b: id to message object
    var order: seq<Id>                    // the keys of workerMessages, in insertion order
    var posted: seq<Post>
    var invocations: seq<Invocation>
    var imports: seq<seq<string>>
    var closed: bool

    ghost predicate Valid()
      reads this
    {
      && Distinct(order)
      && (forall id :: id in order <==> id in table)
      && (forall id :: id in table ==> table[id] < |objects| && objects[table[id]].messageId == id)
    }

    /** The live message objects in the table's iteration order: `[...workerMessages.values()]`. */
    function Snapshot(): (s: seq<nat>)
      reads this
      requires Valid()
      ensures |s| == |order|
      ensures forall k :: 0 <= k < |s| ==> s[k] == table[order[k]] && s[k] < |objects|
    {
      var ids, live := order, table;
      seq(|ids|, k requires 0 <= k < |ids| && ids[k] in live => live[ids[k]])
    }

    /** `createEasyWebWorker(targetOrigin)` / `cw$(a)`: an empty live-message
        table and a handler table holding only the throwing default. */
    constructor (d: Dialect, target: string)
      ensures Valid()
      ensures dialect == d && targetOrigin == target
      ensures callbacks == map["" := Thrower]
      ensures objects == [] && table == map[] && order == []
      ensures posted == [] && invocations == [] && imports == [] && !closed
    {
      dialect := d;
      targetOrigin := target;
      callbacks := map["" := Thrower];
      objects := [];
      table := map[];
      order := [];
      posted := [];
      invocations := [];
      imports := [];
      closed := false;
    }

    /**
     * A message's `postMessage(data)` (`i` in the minified form): any reply
     * but a progress report first deletes the message's id from the table;
     * the reply is always posted, to the message's origin.
     */
    method PostMessage(m: nat, body: ReplyBody)
      requires Valid() && m < |objects|
      modifies this`table, this`order, this`posted
      ensures Valid()
      ensures var id := objects[m].messageId;
        && (body.Progress? ==> table == old(table) && order == old(order))
        && (!body.Progress? ==> table == old(table) - {id} && order == Remove(old(order), id))
      ensures posted == old(posted) + [Post(Reply(objects[m].messageId, body), objects[m].origin)]
    {
      var obj := objects[m];
      if !body.Progress? {
        table := table - {obj.messageId};
        order := Remove(order, obj.messageId);
      }
      posted := posted + [Post(Reply(obj.messageId, body), obj.origin)];
    }

    /** `resolve(...result)`: `resolved.payload` is the argument list itself. */
    method Resolve(m: nat, args: seq<Value>)
      requires Valid() && m < |objects|
      modifies this`table, this`order, this`posted
      ensures Valid()
      ensures table == old(table) - {objects[m].messageId} && order == Remove(old(order), objects[m].messageId)
      ensures posted == old(posted) + [Post(Reply(objects[m].messageId, Resolved(Some(args))), objects[m].origin)]
    {
      PostMessage(m, Resolved(Some(args)));
    }

    /** `reject(reason)` */
    method Reject(m: nat, reason: Value)
      requires Valid() && m < |objects|
      modifies this`table, this`order, this`posted
      ensures Valid()
      ensures table == old(table) - {objects[m].messageId} && order == Remove(old(order), objects[m].messageId)
      ensures posted == old(posted) + [Post(Reply(objects[m].messageId, Rejected(reason)), objects[m].origin)]
    {
      PostMessage(m, Rejected(reason));
    }

    /** `reportProgress(percentage, payload)`: the message stays live. */
    method ReportProgress(m: nat, percentage: Value, payload: Value)
      requires Valid() && m < |objects|
      modifies this`table, this`order, this`posted
      ensures Valid()
      ensures table == old(table) && order == old(order)
      ensures posted == old(posted) + [Post(Reply(objects[m].messageId, Progress(percentage, payload)), objects[m].origin)]
    {
      PostMessage(m, Progress(percentage, payload));
    }

    /**
     * `cancel(reason)`: every subscriber in a snapshot of the message's
     * `onCancel` set is called once with the reason, in insertion order; then
     * the cancellation reply of the dialect is posted.
     */
    method Cancel(m: nat, reason: Value)
      requires Valid() && m < |objects|
      modifies this`table, this`order, this`posted, this`invocations
      ensures Valid()
      ensures invocations == old(invocations) + CancelCalls(objects[m].cancelCallbacks, reason)
      ensures table == old(table) - {objects[m].messageId} && order == Remove(old(order), objects[m].messageId)
      ensures posted == old(posted) + [Post(Reply(objects[m].messageId, CancelReply(dialect, reason)), objects[m].origin)]
    {
      var subscribers := objects[m].cancelCallbacks;
      var i := 0;
      while i < |subscribers|
        invariant 0 <= i <= |subscribers|
        invariant table == old(table) && order == old(order) && posted == old(posted)
        invariant invocations == old(invocations) + CancelCalls(subscribers[..i], reason)
      {
        invocations := invocations + [CancelCall(subscribers[i], reason)];
        assert CancelCalls(subscribers[..i + 1], reason) == CancelCalls(subscribers[..i], reason) + [CancelCall(subscribers[i], reason)];
        i := i + 1;
      }
      assert subscribers[..i] == subscribers;
      PostMessage(m, CancelReply(dialect, reason));
    }

    /** `onCancel(callback)`: adds to the message's set and returns the unsubscriber. */
    method OnCancel(m: nat, cb: CallbackId) returns (u: Unsubscriber)
      requires Valid() && m < |objects|
      modifies this`objects
      ensures Valid()
      ensures u == Unsubscriber(m, cb)
      ensures |objects| == |old(objects)|
      ensures objects[m] == old(objects)[m].(cancelCallbacks := Insert(old(objects)[m].cancelCallbacks, cb))
      ensures forall k :: 0 <= k < |objects| && k != m ==> objects[k] == old(objects)[k]
    {
      objects := objects[m := objects[m].(cancelCallbacks := Insert(objects[m].cancelCallbacks, cb))];
      u := Unsubscriber(m, cb);
    }

    /** Calling the unsubscriber: `cancelCallbacks.delete(callback)`. */
    method Unsubscribe(u: Unsubscriber)
      requires Valid() && u.message < |objects|
      modifies this`objects
      ensures Valid()
      ensures |objects| == |old(objects)|
      ensures objects[u.message] ==
        old(objects)[u.message].(cancelCallbacks := Remove(old(objects)[u.message].cancelCallbacks, u.callback))
      ensures forall k :: 0 <= k < |objects| && k != u.message ==> objects[k] == old(objects)[k]
    {
      var obj := objects[u.message];
      objects := objects[u.message := obj.(cancelCallbacks := Remove(obj.cancelCallbacks, u.callback))];
    }

    /** `onMessage(name, callback)` sets key `name`; `onMessage(callback)` sets key `''`. */
    method OnMessage(r: Registration)
      modifies this`callbacks
      ensures callbacks == old(callbacks)[RegistrationKey(r) := User(r.cb)]
    {
      callbacks := callbacks[RegistrationKey(r) := User(r.cb)];
    }

    /** `importScripts(...scripts)`, forwarded to the host. */
    method ImportScripts(scripts: seq<string>)
      modifies this`imports
      ensures imports == old(imports) + [scripts]
    {
      imports := imports + [scripts];
    }

    /** Where `close` stands after rejecting the first `i` messages of `snapshot`, whose ids are `ids`. */
    ghost predicate Closing(snapshot: seq<nat>, ids: seq<Id>, i: nat, start: seq<Post>)
      reads this
    {
      && i <= |snapshot| == |ids|
      && Valid() && order == ids[i..]
      && (forall k :: 0 <= k < |snapshot| ==> snapshot[k] < |objects| && objects[snapshot[k]].messageId == ids[k])
      && posted == start + ClosePosts(objects, snapshot[..i])
    }

    /** One step of `close`: `reject` on the oldest live message, which leaves the front of the table. */
    method CloseStep(snapshot: seq<nat>, ghost ids: seq<Id>, i: nat, ghost start: seq<Post>)
      requires Closing(snapshot, ids, i, start) && i < |snapshot|
      modifies this`table, this`order, this`posted
      ensures Closing(snapshot, ids, i + 1, start)
    {
      RemoveFirst(order);
      Reject(snapshot[i], ClosedError);
      assert ids[i..][1..] == ids[i + 1..];
      ClosePostsSnoc(objects, snapshot, i);
    }

    /**
     * `close()`: every live message, taken from a snapshot of the table, is
     * rejected with `Error('worker closed')`, which empties the table; then
     * the worker closes itself.
     */
    method Close()
      requires Valid()
      modifies this`table, this`order, this`posted, this`closed
      ensures Valid()
      ensures table == map[] && order == [] && closed
      ensures posted == old(posted) + ClosePosts(objects, old(Snapshot()))
    {
      var snapshot := Snapshot();
      ghost var ids, start := order, posted;
      var i := 0;
      while i < |snapshot|
        invariant Closing(snapshot, ids, i, start)
      {
        CloseStep(snapshot, ids, i, start);
        i := i + 1;
      }
      assert snapshot[..i] == snapshot;
      assert table == map[] by {
        assert forall id :: id !in table;
      }
      closed := true;
    }

    /** `workerMessages.set(messageId, message)`: a new message object, stored under its id. */
    method Store(message: MessageObject) returns (m: nat)
      requires Valid()
      modifies this`objects, this`table, this`order
      ensures Valid()
      ensures m == |old(objects)| && objects == old(objects) + [message]
      ensures table == old(table)[message.messageId := m] && order == Insert(old(order), message.messageId)
    {
      var id := message.messageId;
      m := |objects|;
      objects := objects + [message];
      table := table[id := m];
      order := Insert(order, id);
      assert Distinct(order) by {
        if id !in old(order) {
          assert forall k :: 0 <= k < |old(order)| ==> order[k] == old(order)[k];
        }
      }
    }

    /**
     * `self.onmessage`.  A cancelation request calls `cancel` on the live
     * message of its id, and throws when there is none.  An execution request
     * stores a new message object under its id before the handler
     * `method || ''` is looked up and called; a key with no handler throws,
     * and so does the default handler, with its descriptive string.
     */
    method OnMessageEvent(request: Request, eventOrigin: string) returns (outcome: Outcome)
      requires Valid()
      modifies this`objects, this`table, this`order, this`posted, this`invocations
      ensures Valid()
      ensures request.body.Cancelation? && request.messageId !in old(table) ==>
        outcome == Threw(TypeError) && unchanged(this)
      ensures request.body.Cancelation? && request.messageId in old(table) ==>
        var m := old(table)[request.messageId];
        && outcome == Done && objects == old(objects)
        && table == old(table) - {request.messageId} && order == Remove(old(order), request.messageId)
        && invocations == old(invocations) + CancelCalls(objects[m].cancelCallbacks, request.body.reason)
        && posted == old(posted) + [Post(Reply(request.messageId, CancelReply(dialect, request.body.reason)), objects[m].origin)]
      ensures request.body.Execution? ==>
        var m := |old(objects)|;
        var key := HandlerKey(request.methodName);
        && objects == old(objects) + [MessageObject(request.messageId, request.body.payload,
                                                    PostOrigin(dialect, targetOrigin, eventOrigin), [])]
        && table == old(table)[request.messageId := m]
        && order == Insert(old(order), request.messageId)
        && posted == old(posted)
        && (key !in callbacks ==> outcome == Threw(TypeError) && invocations == old(invocations))
        && (key in callbacks && callbacks[key].Thrower? ==>
              outcome == Threw(Thrown(Str(MissingCallbackMessage))) && invocations == old(invocations))
        && (key in callbacks && callbacks[key].User? ==>
              outcome == Done && invocations == old(invocations) + [HandlerCall(callbacks[key].cb, m)])
    {
      var id := request.messageId;
      if request.body.Cancelation? {
        if id !in table {
          return Threw(TypeError);   // `message.cancel` on undefined
        }
        Cancel(table[id], request.body.reason);
        return Done;
      }
      var m := Store(MessageObject(id, request.body.payload, PostOrigin(dialect, targetOrigin, eventOrigin), []));
      var key := HandlerKey(request.methodName);
      if key !in callbacks {
        return Threw(TypeError);     // calling undefined
      }
      match callbacks[key]
      case Thrower =>
        outcome := Threw(Thrown(Str(MissingCallbackMessage)));
      case User(cb) =>
        invocations := invocations + [HandlerCall(cb, m)];
        outcome := Done;
    }
  }

  /** The worker's global scope as the generated bootstrap leaves it. */
  class WorkerScope {
    var primitiveParameters: seq<Value>
    var imports: seq<seq<string>>
    var globalPropertyTest: Option<string>

    constructor ()
      ensures primitiveParameters == [] && imports == [] && globalPropertyTest == None
    {
      primitiveParameters := [];
      imports := [];
      globalPropertyTest := None;
    }
  }

  /**
   * The bootstrap of the generated minified worker: the primitive parameters
   * are parsed from `[]`, `fake.js` is imported, the runtime `ew$` is built
   * with an empty target origin, and the worker body sets a global property
   * and registers a default handler, the callback `handler`, that resolves
   * each message with no arguments.
   */
  method Bootstrap(handler: CallbackId) returns (scope: WorkerScope, ew: Runtime)
    ensures fresh(scope) && fresh(ew)
    ensures scope.primitiveParameters == [] && scope.imports == [["fake.js"]]
    ensures scope.globalPropertyTest == Some("globalPropertyTest")
    ensures ew.Valid() && ew.dialect == Minified && ew.targetOrigin == ""
    ensures ew.callbacks == map["" := User(handler)]
    ensures ew.objects == [] && ew.table == map[] && ew.order == [] && ew.posted == [] && ew.invocations == []
  {
    scope := new WorkerScope();
    scope.primitiveParameters := [];
    scope.imports := scope.imports + [["fake.js"]];
    ew := new Runtime(Minified, "");
    scope.globalPropertyTest := Some("globalPropertyTest");
    ew.OnMessage(Unnamed(handler));
  }
}
