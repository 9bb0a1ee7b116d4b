/**
 * The cancelable promise a caller receives from `send`.  The promise library
 * itself is not part of this model; a handle is observed through its status
 * and the log of progress reports delivered to it.  Like any promise it
 * settles at most once: a later resolve or reject leaves it as it is.
 */
module Handles {
  import opened Wire

  datatype Status = Pending | Fulfilled(args: seq<Value>) | RejectedWith(reason: Value)

  datatype ProgressReport = ProgressReport(percentage: Value, payload: Value)

  datatype Handle = Handle(status: Status, progress: seq<ProgressReport>)

  const NewHandle: Handle := Handle(Pending, [])

  /** `decoupledPromise.resolve(...args)` */
  function Resolve(h: Handle, args: seq<Value>): Handle {
    if h.status.Pending? then h.(status := Fulfilled(args)) else h
  }

  /** `decoupledPromise.reject(reason)` and the library's own `cancel(reason)` */
  function Reject(h: Handle, reason: Value): Handle {
    if h.status.Pending? then h.(status := RejectedWith(reason)) else h
  }

  /** `decoupledPromise.reportProgress(percentage, payload)` */
  function Report(h: Handle, percentage: Value, payload: Value): Handle {
    h.(progress := h.progress + [ProgressReport(percentage, payload)])
  }

  /** Every handle named in `ids` exists and has settled: what `await Promise.all(...)`
      over the cancellation promises waits for. */
  ghost predicate Settled(handles: map<Id, Handle>, ids: seq<Id>) {
    forall id :: id in ids ==> id in handles && !handles[id].status.Pending?
  }
}
