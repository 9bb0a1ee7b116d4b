/**
 * The structured messages exchanged between a controller (EasyWebWorker,
 * EasyWebWorkerParallel) and the runtime inside a worker.  One datatype
 * carries every reply tag seen across the versions of the protocol, so each
 * component can be modelled with its own tags.
 */
module Wire {

  datatype Option<+T> = None | Some(value: T) {
    /** `x ?? default` */
    function GetOr(default: T): T {
      match this
      case Some(v) => v
      case None => default
    }
  }

  /** Message ids (strings built by `generatedId`). */
  type Id = string

  /** Opaque identity of a worker (an isolated context with its own channel). */
  type WorkerId = nat

  /** Opaque identity of a user callback (a handler, an `onCancel` subscriber). */
  type CallbackId = nat

  /** The structured-clone values that travel as payloads, reasons and percentages. */
  datatype Value =
    | Undefined
    | Null
    | Num(n: int)
    | Str(s: string)
    | List(items: seq<Value>)
    | ErrorObject(message: string)  // new Error(message)
    | ErrorRecord(error: Value)     // the object literal { error }

  /** Controller to worker: `{ messageId, method?, execution: { payload } }`
      or `{ messageId, method?, cancelation: { reason } }`. */
  datatype RequestBody = Execution(payload: Value) | Cancelation(reason: Value)

  datatype Request = Request(messageId: Id, methodName: Option<string>, body: RequestBody)

  /** Worker to controller: exactly one variant key per message. */
  datatype ReplyBody =
    | Resolved(payload: Option<seq<Value>>)  // resolved: { payload }; None when payload is null or missing
    | Rejected(reason: Value)
    | Canceled(reason: Value)            // tag posted by the readable worker template
    | WorkerCanceled(reason: Value)      // tag read by EasyWebWorker.ts and posted by the minified template
    | WorkerCancelation(reason: Value)   // tag declared by the shared type definitions
    | Progress(percentage: Value, data: Value)  // progress: { percentage, payload }

  datatype Reply = Reply(messageId: Id, body: ReplyBody)

  /** The variant keys the controllers' demultiplexer knows how to read. */
  predicate ControllerTag(b: ReplyBody) {
    b.Resolved? || b.Rejected? || b.WorkerCanceled? || b.Progress?
  }

  /** What a JavaScript call can throw in the modelled code paths. */
  datatype JsError =
    | TypeError        // a property read or call on undefined
    | Thrown(v: Value) // a value thrown by `throw` (the missing-handler string)

  /** Whether a call returned normally or threw. */
  datatype Outcome = Done | Threw(error: JsError)
}
