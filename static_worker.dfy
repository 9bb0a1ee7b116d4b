/**
 * The older single-callback worker runtime: `WorkerMessage`, which encodes
 * results and progress as posted objects, and `StaticEasyWebWorker`, which
 * installs the worker's `onmessage` and dispatches every event to one
 * replaceable callback.  The worker's channel is the `Outbox`.
 */
module StaticWorker {
  import opened Wire

  /** The two objects a `WorkerMessage` posts: `{ messageId, payload }` and
      `{ messageId, progressPercentage }` (no `payload` key). */
  datatype StaticData =
    | PayloadData(messageId: Id, payload: seq<Value>)
    | ProgressData(messageId: Id, progressPercentage: Value)

  /** `self.postMessage(data, targetOrigin)` */
  datatype StaticPost = StaticPost(data: StaticData, targetOrigin: string)

  /** The origin a JavaScript default parameter `= '*'` yields: `undefined` becomes `'*'`. */
  function OriginOrStar(origin: Option<string>): (r: string)
    ensures origin.None? ==> r == "*"
    ensures origin.Some? ==> r == origin.value
  {
    origin.GetOr("*")
  }

  /** The worker's outgoing channel. */
  class Outbox {
    var posted: seq<StaticPost>

    constructor ()
      ensures posted == []
    {
      posted := [];
    }
  }

  class WorkerMessage {
    const payload: Value
    const messageId: Id
    const messageTargetOrigin: string

    /** `new WorkerMessage(payload, messageId, messageTargetOrigin = '*')` */
    constructor (payload: Value, messageId: Id, origin: Option<string>)
      ensures this.payload == payload && this.messageId == messageId
      ensures messageTargetOrigin == OriginOrStar(origin)
    {
      this.payload := payload;
      this.messageId := messageId;
      messageTargetOrigin := OriginOrStar(origin);
    }

    /** `resolve(...result)`: the posted payload is the argument list. */
    method Resolve(out: Outbox, result: seq<Value>)
      modifies out
      ensures out.posted == old(out.posted) + [StaticPost(PayloadData(messageId, result), messageTargetOrigin)]
    {
      out.posted := out.posted + [StaticPost(PayloadData(messageId, result), messageTargetOrigin)];
    }

    /** `reject(e)` is `resolve({ error: e })`. */
    method Reject(out: Outbox, e: Value)
      modifies out
      ensures out.posted == old(out.posted) + [StaticPost(PayloadData(messageId, [ErrorRecord(e)]), messageTargetOrigin)]
    {
      Resolve(out, [ErrorRecord(e)]);
    }

    /** `reportProgress(progressPercentage)` */
    method ReportProgress(out: Outbox, progressPercentage: Value)
      modifies out
      ensures out.posted == old(out.posted) + [StaticPost(ProgressData(messageId, progressPercentage), messageTargetOrigin)]
    {
      out.posted := out.posted + [StaticPost(ProgressData(messageId, progressPercentage), messageTargetOrigin)];
    }
  }

  /** One call of the user callback, with the message object it received. */
  datatype Dispatched = Dispatched(callback: CallbackId, message: WorkerMessage)

  class StaticEasyWebWorker {
    var onMessageCallback: CallbackId
    var installedOrigin: Option<string>   // the origin the installed `self.onmessage` captured
    var dispatched: seq<Dispatched>

    /** `new StaticEasyWebWorker(onMessageCallback, messageTargetOrigin = '*')`:
        installs `self.onmessage` at once. */
    constructor (callback: CallbackId, origin: Option<string>)
      ensures onMessageCallback == callback
      ensures installedOrigin == Some(OriginOrStar(origin))
      ensures dispatched == []
    {
      onMessageCallback := callback;
      dispatched := [];
      new;
      DefineOnMessage(Some(OriginOrStar(origin)));
    }

    /** `defineOnMessage(messageTargetOrigin)`: (re)installs `self.onmessage`. */
    method DefineOnMessage(origin: Option<string>)
      modifies this`installedOrigin
      ensures installedOrigin == origin
    {
      installedOrigin := origin;
    }

    /** `onMessage(callback)`: later events go to the new callback. */
    method OnMessage(callback: CallbackId)
      modifies this`onMessageCallback
      ensures onMessageCallback == callback
    {
      onMessageCallback := callback;
    }

    /**
     * The installed `self.onmessage`: each event gets a fresh `WorkerMessage`
     * with the event's id and payload and the installed origin, handed to the
     * current callback.
     */
    method Dispatch(messageId: Id, payload: Value) returns (message: WorkerMessage)
      modifies this`dispatched
      ensures fresh(message)
      ensures message.messageId == messageId && message.payload == payload
      ensures message.messageTargetOrigin == OriginOrStar(installedOrigin)
      ensures dispatched == old(dispatched) + [Dispatched(onMessageCallback, message)]
    {
      message := new WorkerMessage(payload, messageId, installedOrigin);
      dispatched := dispatched + [Dispatched(onMessageCallback, message)];
    }
  }
}
