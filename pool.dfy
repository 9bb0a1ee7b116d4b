/**
 * The worker pool of EasyWebWorkerParallel as values: the `workers` array
 * (a slot is None where the array holds `undefined`), its rotation and
 * growth, and the per-worker logs of posted requests.
 */
module Pool {
  import opened Wire
  import opened PendingCalls

  type Slot = Option<WorkerId>

  /** A worker taken from the pool, together with the pool afterwards. */
  datatype Pick = Pick(worker: Slot, pool: seq<Slot>)

  /**
   * `getWorkerFromPool`: `shift` then `push`.  A non-empty pool hands out
   * its front worker and moves it to the back; an empty pool hands out
   * `undefined` and ends up holding one `undefined` slot.
   */
  function Rotate(pool: seq<Slot>): (p: Pick)
    ensures pool != [] ==>
      && p.worker == pool[0]
      && |p.pool| == |pool|
      && multiset(p.pool) == multiset(pool)
      && p.pool[|pool| - 1] == pool[0]
      && forall k :: 0 <= k < |pool| - 1 ==> p.pool[k] == pool[k + 1]
    ensures pool == [] ==> p.worker == None && p.pool == [None]
  {
    if pool == [] then Pick(None, [None])
    else
      assert pool == [pool[0]] + pool[1..];
      Pick(pool[0], pool[1..] + [pool[0]])
  }

  /**
   * `getWorkerInstance(given)`: with at least `maxWorkers` queued messages
   * it rotates as `getWorkerFromPool`; otherwise it appends `given ?? a new
   * worker` and, as written, returns nothing.
   */
  function Grow(pool: seq<Slot>, queued: nat, maxWorkers: nat, given: Slot, created: WorkerId): (p: Pick)
    ensures queued >= maxWorkers ==> p == Rotate(pool)
    ensures queued < maxWorkers ==>
      && p.worker == None
      && |p.pool| == |pool| + 1
      && p.pool[..|pool|] == pool
      && p.pool[|pool|] == (if given.Some? then given else Some(created))
  {
    if queued >= maxWorkers then Rotate(pool)
    else Pick(None, pool + [Some(given.GetOr(created))])
  }

  /** Every slot holds a worker. */
  predicate AllLive(pool: seq<Slot>) {
    forall k :: 0 <= k < |pool| ==> pool[k].Some?
  }

  /**
   * The workers `workers.forEach(w => w.terminate())` reaches: every slot up
   * to the first `undefined`, where the call throws.
   */
  function LivePrefix(pool: seq<Slot>): (r: seq<WorkerId>)
    ensures |r| <= |pool|
    ensures forall k :: 0 <= k < |r| ==> pool[k] == Some(r[k])
    ensures AllLive(pool) <==> |r| == |pool|
    ensures !AllLive(pool) ==> pool[|r|] == None
  {
    if pool == [] then []
    else if pool[0].None? then []
    else [pool[0].value] + LivePrefix(pool[1..])
  }

  /** Walking the pool: with the first `i` slots live, slot `i` either ends the live prefix or extends it. */
  lemma LivePrefixStep(pool: seq<Slot>, i: nat)
    requires i < |pool| && forall k :: 0 <= k < i ==> pool[k].Some?
    ensures pool[i].None? ==> LivePrefix(pool)[..i] == LivePrefix(pool)
    ensures pool[i].Some? ==> i < |LivePrefix(pool)| && LivePrefix(pool)[..i + 1] == LivePrefix(pool)[..i] + [pool[i].value]
  {
  }

  /** The requests posted to one worker. */
  function LogOf(logs: map<WorkerId, seq<Request>>, w: WorkerId): seq<Request> {
    if w in logs then logs[w] else []
  }

  /** `worker.postMessage(data)` on a live worker. */
  function PostTo(logs: map<WorkerId, seq<Request>>, w: WorkerId, r: Request): (l: map<WorkerId, seq<Request>>)
    ensures LogOf(l, w) == LogOf(logs, w) + [r]
    ensures forall v :: v != w ==> LogOf(l, v) == LogOf(logs, v)
  {
    logs[w := LogOf(logs, w) + [r]]
  }

  /** The worker a call was bound to at send time and the method it named. */
  datatype Binding = Binding(worker: Slot, methodName: Option<string>)

  datatype Delivery = Delivery(logs: map<WorkerId, seq<Request>>, outcome: Outcome)

  /** The cancelation requests for `ids` that are bound to worker `w`, in order. */
  function CancelsFor(w: WorkerId, bindings: map<Id, Binding>, ids: seq<Id>, reason: Value): seq<Request>
    requires forall id :: id in ids ==> id in bindings
  {
    if ids == [] then []
    else
      var b := bindings[ids[0]];
      (if b.worker == Some(w) then [Request(ids[0], b.methodName, Cancelation(reason))] else [])
        + CancelsFor(w, bindings, ids[1..], reason)
  }

  /** All of `ids` are bound to a worker (none to `undefined`). */
  predicate AllBound(bindings: map<Id, Binding>, ids: seq<Id>)
    requires forall id :: id in ids ==> id in bindings
  {
    forall k :: 0 <= k < |ids| ==> bindings[ids[k]].worker.Some?
  }

  /**
   * `cancelAll` over a non-empty pool: each call's `cancel` posts the
   * cancelation request to the worker the call was bound to; the first call
   * bound to `undefined` throws and stops the loop.
   */
  function CancelRun(logs: map<WorkerId, seq<Request>>, bindings: map<Id, Binding>, ids: seq<Id>, reason: Value): (d: Delivery)
    requires forall id :: id in ids ==> id in bindings
    ensures d.outcome == Done || d.outcome == Threw(TypeError)
    decreases |ids|
  {
    if ids == [] then Delivery(logs, Done)
    else
      var b := bindings[ids[0]];
      if b.worker.None? then Delivery(logs, Threw(TypeError))
      else CancelRun(PostTo(logs, b.worker.value, Request(ids[0], b.methodName, Cancelation(reason))),
                     bindings, ids[1..], reason)
  }

  /** The run completes exactly when every call is bound to a worker. */
  lemma {:induction false} CancelRunCompletes(logs: map<WorkerId, seq<Request>>, bindings: map<Id, Binding>, ids: seq<Id>, reason: Value)
    requires forall id :: id in ids ==> id in bindings
    ensures CancelRun(logs, bindings, ids, reason).outcome == Done <==> AllBound(bindings, ids)
    decreases |ids|
  {
    if ids != [] {
      var b := bindings[ids[0]];
      assert AllBound(bindings, ids) <==> b.worker.Some? && AllBound(bindings, ids[1..]) by {
        assert forall k :: 1 <= k < |ids| ==> ids[k] == ids[1..][k - 1];
      }
      if b.worker.Some? {
        CancelRunCompletes(PostTo(logs, b.worker.value, Request(ids[0], b.methodName, Cancelation(reason))), bindings, ids[1..], reason);
      }
    }
  }

  /** When the run completes, worker `w`'s log gains the cancelation requests of its own calls, in queue order. */
  lemma {:induction false} CancelRunDeliversTo(logs: map<WorkerId, seq<Request>>, bindings: map<Id, Binding>, ids: seq<Id>,
                                               reason: Value, w: WorkerId)
    requires forall id :: id in ids ==> id in bindings
    ensures CancelRun(logs, bindings, ids, reason).outcome == Done ==>
      LogOf(CancelRun(logs, bindings, ids, reason).logs, w) == LogOf(logs, w) + CancelsFor(w, bindings, ids, reason)
    decreases |ids|
  {
    if ids != [] && bindings[ids[0]].worker.Some? {
      var b := bindings[ids[0]];
      var r := Request(ids[0], b.methodName, Cancelation(reason));
      var l := PostTo(logs, b.worker.value, r);
      CancelRunDeliversTo(l, bindings, ids[1..], reason, w);
      if b.worker.value == w {
        assert LogOf(l, w) + CancelsFor(w, bindings, ids[1..], reason) == LogOf(logs, w) + ([r] + CancelsFor(w, bindings, ids[1..], reason));
      }
    }
  }

  /**
   * When the run completes, each worker's log gains the cancelation requests
   * of its own calls, in queue order, and nothing else.
   */
  lemma CancelRunDelivers(logs: map<WorkerId, seq<Request>>, bindings: map<Id, Binding>, ids: seq<Id>, reason: Value)
    requires forall id :: id in ids ==> id in bindings
    ensures CancelRun(logs, bindings, ids, reason).outcome == Done ==>
      forall w :: LogOf(CancelRun(logs, bindings, ids, reason).logs, w) ==
                  LogOf(logs, w) + CancelsFor(w, bindings, ids, reason)
  {
    forall w {
      CancelRunDeliversTo(logs, bindings, ids, reason, w);
    }
  }

  /** A call's promise rejected locally with `reason`, for each of `ids`. */
  function RejectAll(handles: map<Id, Handles.Handle>, ids: seq<Id>, reason: Value): (h: map<Id, Handles.Handle>)
    requires forall id :: id in ids ==> id in handles
    ensures h.Keys == handles.Keys
    ensures forall id :: id in handles && id !in ids ==> h[id] == handles[id]
    ensures forall id :: id in ids && handles[id].status.Pending? ==>
      h[id] == Handles.Handle(Handles.RejectedWith(reason), handles[id].progress)
    ensures forall id :: id in ids && !handles[id].status.Pending? ==> h[id] == handles[id]
    decreases |ids|
  {
    if ids == [] then handles
    else RejectAll(handles[ids[0] := Handles.Reject(handles[ids[0]], reason)], ids[1..], reason)
  }
}
