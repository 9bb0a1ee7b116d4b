/**
 * End-to-end runs of a controller against a worker runtime, with every
 * posted message delivered by hand in one chosen interleaving.  The
 * single-worker controller reads the `worker_canceled` tag, which is the one
 * the minified runtime posts, so the two are paired here.
 */
module Scenarios {
  import opened Wire
  import opened Handles
  import opened PendingCalls
  import opened Pool
  import SingleWorker
  import ParallelWorker
  import opened WorkerRuntime

  /** The handler the worker body registers: it resolves each message later, with no arguments. */
  const CountTo100: CallbackId := 1

  /** Three calls with pairwise distinct ids. */
  predicate Distinct3(x: Id, y: Id, z: Id) {
    x != y && y != z && x != z
  }

  /** What `send()` posts, and the message object the worker makes of it. */
  function Exec(id: Id): Request {
    Request(id, None, Execution(Undefined))
  }

  function Obj(id: Id): MessageObject {
    MessageObject(id, Undefined, None, [])
  }

  function CancelOf(id: Id, reason: Value): Request {
    Request(id, None, Cancelation(reason))
  }

  /** What the minified runtime posts for a cancelled and for a resolved message (origin `undefined`). */
  function CanceledPost(id: Id, reason: Value): Post {
    Post(Reply(id, WorkerCanceled(reason)), None)
  }

  function ResolvedPost(id: Id): Post {
    Post(Reply(id, Resolved(Some([]))), None)
  }

  const Fresh: Handle := NewHandle

  function Rejection(reason: Value): Handle {
    Handle(RejectedWith(reason), [])
  }

  const Fulfillment: Handle := Handle(Fulfilled([]), [])

  /** The controller, over worker 0, in the given state. */
  ghost predicate ControllerAt(c: SingleWorker.EasyWebWorker, queue: seq<Id>, handles: map<Id, Handle>, posted: seq<Request>)
    reads c
  {
    c.Valid() && c.worker == Some(0) && c.queue == queue && c.handles == handles && c.posted == posted
  }

  /** The minified runtime, whose default handler is `CountTo100`, in the given state. */
  ghost predicate WorkerAt(rt: Runtime, objects: seq<MessageObject>, table: map<Id, nat>, order: seq<Id>, posted: seq<Post>)
    reads rt
  {
    && rt.Valid() && rt.dialect == Minified && rt.targetOrigin == ""
    && rt.callbacks == map["" := User(CountTo100)]
    && rt.objects == objects && rt.table == table && rt.order == order && rt.posted == posted
  }

  /*
   * One operation each.  Every helper takes the state after the operation
   * as ghost arguments too (`queue'`, `order'`, ...), tied to the state
   * before by a precondition, so that one step's postcondition is literally
   * the next step's precondition.  For the same reason every map is written
   * as the chain of updates that produced it.
   */

  method Connect() returns (c: SingleWorker.EasyWebWorker, rt: Runtime)
    ensures fresh(c) && fresh(rt)
    ensures ControllerAt(c, [], map[], [])
    ensures WorkerAt(rt, [], map[], [], [])
  {
    c := new SingleWorker.EasyWebWorker(0);
    rt := new Runtime(Minified, "");
    rt.OnMessage(Unnamed(CountTo100));
  }

  /** `send()` on the controller. */
  method ControllerSends(c: SingleWorker.EasyWebWorker, id: Id, ghost queue: seq<Id>, ghost handles: map<Id, Handle>,
                         ghost sent: seq<Request>, ghost queue': seq<Id>, ghost sent': seq<Request>)
    requires ControllerAt(c, queue, handles, sent) && id !in handles
    requires queue' == queue + [id] && sent' == sent + [Exec(id)]
    modifies c
    ensures ControllerAt(c, queue', handles[id := Fresh], sent')
  {
    c.Send(id, Undefined);
  }

  /** The worker receives an execution request and starts the handler on a new message object. */
  method WorkerStarts(rt: Runtime, id: Id, ghost objects: seq<MessageObject>, ghost table: map<Id, nat>, ghost order: seq<Id>,
                      ghost answered: seq<Post>, ghost slot: nat, ghost objects': seq<MessageObject>, ghost order': seq<Id>)
    requires WorkerAt(rt, objects, table, order, answered) && id !in table
    requires slot == |objects| && objects' == objects + [Obj(id)] && order' == order + [id]
    modifies rt
    ensures WorkerAt(rt, objects', table[id := slot], order', answered)
  {
    var _ := rt.OnMessageEvent(Exec(id), "");
  }

  /** The worker receives a cancelation request for a live message with no subscribers. */
  method WorkerCancels(rt: Runtime, id: Id, reason: Value, ghost objects: seq<MessageObject>, ghost table: map<Id, nat>,
                       ghost order: seq<Id>, ghost pre: seq<Id>, ghost post: seq<Id>, ghost answered: seq<Post>,
                       ghost order': seq<Id>, ghost answered': seq<Post>)
    requires WorkerAt(rt, objects, table, order, answered)
    requires order == pre + [id] + post && id !in pre && id !in post
    requires objects[table[id]].origin == None && objects[table[id]].cancelCallbacks == []
    requires order' == pre + post && answered' == answered + [CanceledPost(id, reason)]
    modifies rt
    ensures WorkerAt(rt, objects, table - {id}, order', answered')
  {
    RemoveKeepsOrder(pre, id, post);
    var _ := rt.OnMessageEvent(CancelOf(id, reason), "");
  }

  /** The handler resolves message object `m`, whose id is `id`, with no arguments. */
  method WorkerResolves(rt: Runtime, m: nat, id: Id, ghost objects: seq<MessageObject>, ghost table: map<Id, nat>,
                        ghost order: seq<Id>, ghost pre: seq<Id>, ghost post: seq<Id>, ghost answered: seq<Post>,
                        ghost order': seq<Id>, ghost answered': seq<Post>)
    requires m < |objects| && objects[m].origin == None && objects[m].messageId == id
    requires WorkerAt(rt, objects, table, order, answered)
    requires order == pre + [id] + post && id !in pre && id !in post
    requires order' == pre + post && answered' == answered + [ResolvedPost(id)]
    modifies rt
    ensures WorkerAt(rt, objects, table - {id}, order', answered')
  {
    RemoveKeepsOrder(pre, id, post);
    rt.Resolve(m, []);
  }

  /** A terminal reply for a queued call reaches the controller. */
  method ControllerSettles(c: SingleWorker.EasyWebWorker, id: Id, body: ReplyBody, ghost after: Handle,
                           ghost queue: seq<Id>, ghost pre: seq<Id>, ghost post: seq<Id>,
                           ghost handles: map<Id, Handle>, ghost sent: seq<Request>, ghost queue': seq<Id>)
    requires ControllerAt(c, queue, handles, sent)
    requires queue == pre + [id] + post && id !in pre && id !in post
    requires ControllerTag(body) && !body.Progress? && after == Settle(handles[id], body) && queue' == pre + post
    modifies c
    ensures ControllerAt(c, queue', handles[id := after], sent)
  {
    RemoveKeepsOrder(pre, id, post);
    var outcome := c.ExecuteMessageCallback(Reply(id, body));
  }

  /** A reply for a call that is not queued reaches the controller. */
  method ControllerDrops(c: SingleWorker.EasyWebWorker, id: Id, body: ReplyBody,
                         ghost queue: seq<Id>, ghost handles: map<Id, Handle>, ghost sent: seq<Request>)
    requires ControllerAt(c, queue, handles, sent) && id !in queue && ControllerTag(body)
    modifies c
    ensures ControllerAt(c, queue, handles, sent)
  {
    var outcome := c.ExecuteMessageCallback(Reply(id, body));
  }

  /** `cancelAll()` on the controller with calls `a` and `b` queued: a cancelation request for each. */
  method ControllerCancelsBoth(c: SingleWorker.EasyWebWorker, reason: Value, ghost a: Id, ghost b: Id,
                               ghost handles: map<Id, Handle>, ghost sent: seq<Request>, ghost sent': seq<Request>)
    returns (awaited: seq<Id>)
    requires ControllerAt(c, [a, b], handles, sent) && sent' == sent + [CancelOf(a, reason), CancelOf(b, reason)]
    modifies c
    ensures awaited == [a, b]
    ensures ControllerAt(c, [a, b], handles, sent')
  {
    assert CancelRequests([a, b], None, reason) == [CancelOf(a, reason), CancelOf(b, reason)];
    awaited := c.CancelAll(reason);
  }

  /** `overrideAfterCurrent()` up to its `await`, with calls `current` and `other` queued. */
  method ControllerHoldsCurrent(c: SingleWorker.EasyWebWorker, reason: Value, ghost current: Id, ghost other: Id,
                                ghost handles: map<Id, Handle>, ghost sent: seq<Request>, ghost sent': seq<Request>)
    returns (held: Option<Id>, awaited: seq<Id>)
    requires ControllerAt(c, [current, other], handles, sent) && sent' == sent + [CancelOf(other, reason)]
    modifies c
    ensures held == Some(current) && awaited == [other]
    ensures ControllerAt(c, [other], handles, sent')
  {
    assert [current, other][1..] == [other];
    assert CancelRequests([other], None, reason) == [CancelOf(other, reason)];
    held, awaited := c.OverrideAfterCurrentStart(reason);
  }

  /** `override()` after its `await`: the new call is sent. */
  method ControllerOverrides(c: SingleWorker.EasyWebWorker, awaited: seq<Id>, id: Id, ghost queue: seq<Id>,
                             ghost handles: map<Id, Handle>, ghost sent: seq<Request>,
                             ghost queue': seq<Id>, ghost sent': seq<Request>)
    requires ControllerAt(c, queue, handles, sent) && Settled(handles, awaited) && id !in handles
    requires queue' == queue + [id] && sent' == sent + [Exec(id)]
    modifies c
    ensures ControllerAt(c, queue', handles[id := Fresh], sent')
  {
    c.OverrideResume(awaited, id, Undefined);
  }

  /** `overrideAfterCurrent()` after its `await`: the held call is queued again, then the new call is sent. */
  method ControllerRequeues(c: SingleWorker.EasyWebWorker, held: Option<Id>, awaited: seq<Id>, id: Id,
                            ghost queue: seq<Id>, ghost handles: map<Id, Handle>, ghost sent: seq<Request>,
                            ghost queue': seq<Id>, ghost sent': seq<Request>)
    requires ControllerAt(c, queue, handles, sent) && Settled(handles, awaited) && id !in handles
    requires held.Some? && held.value in handles && held.value !in queue
    requires queue' == queue + [held.value, id] && sent' == sent + [Exec(id)]
    modifies c
    ensures ControllerAt(c, queue', handles[id := Fresh], sent')
  {
    c.OverrideAfterCurrentResume(held, awaited, id, Undefined);
    assert Insert(queue, held.value) + [id] == queue';
  }

  /** A call sent by the controller starts running in the worker. */
  method SendAndStart(c: SingleWorker.EasyWebWorker, rt: Runtime, id: Id,
                      ghost queue: seq<Id>, ghost handles: map<Id, Handle>, ghost sent: seq<Request>,
                      ghost queue': seq<Id>, ghost sent': seq<Request>,
                      ghost objects: seq<MessageObject>, ghost table: map<Id, nat>, ghost order: seq<Id>, ghost answered: seq<Post>,
                      ghost slot: nat, ghost objects': seq<MessageObject>, ghost order': seq<Id>)
    requires ControllerAt(c, queue, handles, sent) && id !in handles
    requires queue' == queue + [id] && sent' == sent + [Exec(id)]
    requires WorkerAt(rt, objects, table, order, answered) && id !in table
    requires slot == |objects| && objects' == objects + [Obj(id)] && order' == order + [id]
    modifies c, rt
    ensures ControllerAt(c, queue', handles[id := Fresh], sent')
    ensures WorkerAt(rt, objects', table[id := slot], order', answered)
  {
    ControllerSends(c, id, queue, handles, sent, queue', sent');
    WorkerStarts(rt, id, objects, table, order, answered, slot, objects', order');
  }

  /** A cancelation request reaches the worker and its answer reaches the controller. */
  method CancelRoundTrip(c: SingleWorker.EasyWebWorker, rt: Runtime, id: Id, reason: Value, ghost after: Handle,
                         ghost queue: seq<Id>, ghost queuePre: seq<Id>, ghost queuePost: seq<Id>,
                         ghost handles: map<Id, Handle>, ghost sent: seq<Request>, ghost queue': seq<Id>,
                         ghost objects: seq<MessageObject>, ghost table: map<Id, nat>, ghost order: seq<Id>,
                         ghost orderPre: seq<Id>, ghost orderPost: seq<Id>, ghost answered: seq<Post>,
                         ghost order': seq<Id>, ghost answered': seq<Post>)
    requires ControllerAt(c, queue, handles, sent)
    requires queue == queuePre + [id] + queuePost && id !in queuePre && id !in queuePost && queue' == queuePre + queuePost
    requires after == Settle(handles[id], WorkerCanceled(reason))
    requires WorkerAt(rt, objects, table, order, answered)
    requires order == orderPre + [id] + orderPost && id !in orderPre && id !in orderPost && order' == orderPre + orderPost
    requires objects[table[id]].origin == None && objects[table[id]].cancelCallbacks == []
    requires answered' == answered + [CanceledPost(id, reason)]
    modifies c, rt
    ensures ControllerAt(c, queue', handles[id := after], sent)
    ensures WorkerAt(rt, objects, table - {id}, order', answered')
  {
    WorkerCancels(rt, id, reason, objects, table, order, orderPre, orderPost, answered, order', answered');
    ControllerSettles(c, id, WorkerCanceled(reason), after, queue, queuePre, queuePost, handles, sent, queue');
  }

  /** The handler resolves a message and the answer reaches the controller. */
  method ResolveRoundTrip(c: SingleWorker.EasyWebWorker, rt: Runtime, m: nat, id: Id, ghost after: Handle,
                          ghost queue: seq<Id>, ghost queuePre: seq<Id>, ghost queuePost: seq<Id>,
                          ghost handles: map<Id, Handle>, ghost sent: seq<Request>, ghost queue': seq<Id>,
                          ghost objects: seq<MessageObject>, ghost table: map<Id, nat>, ghost order: seq<Id>,
                          ghost orderPre: seq<Id>, ghost orderPost: seq<Id>, ghost answered: seq<Post>,
                          ghost order': seq<Id>, ghost answered': seq<Post>)
    requires m < |objects| && objects[m].origin == None && objects[m].messageId == id
    requires ControllerAt(c, queue, handles, sent)
    requires queue == queuePre + [id] + queuePost && id !in queuePre && id !in queuePost && queue' == queuePre + queuePost
    requires after == Settle(handles[id], Resolved(Some([])))
    requires WorkerAt(rt, objects, table, order, answered)
    requires order == orderPre + [id] + orderPost && id !in orderPre && id !in orderPost && order' == orderPre + orderPost
    requires answered' == answered + [ResolvedPost(id)]
    modifies c, rt
    ensures ControllerAt(c, queue', handles[id := after], sent)
    ensures WorkerAt(rt, objects, table - {id}, order', answered')
  {
    WorkerResolves(rt, m, id, objects, table, order, orderPre, orderPost, answered, order', answered');
    ControllerSettles(c, id, Resolved(Some([])), after, queue, queuePre, queuePost, handles, sent, queue');
  }

  /** One call sent and running in the worker. */
  method StartOne(x: Id) returns (c: SingleWorker.EasyWebWorker, rt: Runtime)
    ensures fresh(c) && fresh(rt)
    ensures ControllerAt(c, [x], map[x := Fresh], [Exec(x)])
    ensures WorkerAt(rt, [Obj(x)], map[x := 0], [x], [])
  {
    c, rt := Connect();
    SendAndStart(c, rt, x, [], map[], [], [x], [Exec(x)], [], map[], [], [], 0, [Obj(x)], [x]);
  }

  /** Two calls sent, and both running in the worker. */
  method StartTwo(x: Id, y: Id) returns (c: SingleWorker.EasyWebWorker, rt: Runtime)
    requires x != y
    ensures fresh(c) && fresh(rt)
    ensures ControllerAt(c, [x, y], map[x := Fresh, y := Fresh], [Exec(x), Exec(y)])
    ensures WorkerAt(rt, [Obj(x), Obj(y)], map[x := 0, y := 1], [x, y], [])
  {
    c, rt := StartOne(x);
    SendAndStart(c, rt, y, [x], map[x := Fresh], [Exec(x)], [x, y], [Exec(x), Exec(y)],
                 [Obj(x)], map[x := 0], [x], [], 1, [Obj(x), Obj(y)], [x, y]);
  }

  /** `override()` up to its `await`: both calls are cancelled, and the first cancellation completes. */
  method OverrideCancelsFirst(c: SingleWorker.EasyWebWorker, rt: Runtime, x: Id, y: Id, reason: Value) returns (awaited: seq<Id>)
    requires x != y
    requires ControllerAt(c, [x, y], map[x := Fresh, y := Fresh], [Exec(x), Exec(y)])
    requires WorkerAt(rt, [Obj(x), Obj(y)], map[x := 0, y := 1], [x, y], [])
    modifies c, rt
    ensures awaited == [x, y]
    ensures ControllerAt(c, [y], map[x := Fresh, y := Fresh][x := Rejection(reason)],
                         [Exec(x), Exec(y), CancelOf(x, reason), CancelOf(y, reason)])
    ensures WorkerAt(rt, [Obj(x), Obj(y)], map[x := 0, y := 1] - {x}, [y], [CanceledPost(x, reason)])
  {
    ghost var sent := [Exec(x), Exec(y), CancelOf(x, reason), CancelOf(y, reason)];
    awaited := ControllerCancelsBoth(c, reason, x, y, map[x := Fresh, y := Fresh], [Exec(x), Exec(y)], sent);
    CancelRoundTrip(c, rt, x, reason, Rejection(reason), [x, y], [], [y], map[x := Fresh, y := Fresh], sent, [y],
                    [Obj(x), Obj(y)], map[x := 0, y := 1], [x, y], [], [y], [], [y], [CanceledPost(x, reason)]);
  }

  /** `override()` up to its `await`: both calls cancelled on both sides. */
  method OverrideCancels(c: SingleWorker.EasyWebWorker, rt: Runtime, x: Id, y: Id, reason: Value) returns (awaited: seq<Id>)
    requires x != y
    requires ControllerAt(c, [x, y], map[x := Fresh, y := Fresh], [Exec(x), Exec(y)])
    requires WorkerAt(rt, [Obj(x), Obj(y)], map[x := 0, y := 1], [x, y], [])
    modifies c, rt
    ensures awaited == [x, y]
    ensures ControllerAt(c, [], map[x := Fresh, y := Fresh][x := Rejection(reason)][y := Rejection(reason)],
                         [Exec(x), Exec(y), CancelOf(x, reason), CancelOf(y, reason)])
    ensures WorkerAt(rt, [Obj(x), Obj(y)], map[x := 0, y := 1] - {x} - {y}, [], [CanceledPost(x, reason), CanceledPost(y, reason)])
  {
    awaited := OverrideCancelsFirst(c, rt, x, y, reason);
    CancelRoundTrip(c, rt, y, reason, Rejection(reason), [y], [], [], map[x := Fresh, y := Fresh][x := Rejection(reason)],
                    [Exec(x), Exec(y), CancelOf(x, reason), CancelOf(y, reason)], [],
                    [Obj(x), Obj(y)], map[x := 0, y := 1] - {x}, [y], [], [], [CanceledPost(x, reason)],
                    [], [CanceledPost(x, reason), CanceledPost(y, reason)]);
  }

  /** `override()` after its `await`: the new call is sent and starts in the worker. */
  method OverrideSendsThird(c: SingleWorker.EasyWebWorker, rt: Runtime, x: Id, y: Id, z: Id, reason: Value, awaited: seq<Id>)
    requires Distinct3(x, y, z) && awaited == [x, y]
    requires ControllerAt(c, [], map[x := Fresh, y := Fresh][x := Rejection(reason)][y := Rejection(reason)],
                          [Exec(x), Exec(y), CancelOf(x, reason), CancelOf(y, reason)])
    requires WorkerAt(rt, [Obj(x), Obj(y)], map[x := 0, y := 1] - {x} - {y}, [], [CanceledPost(x, reason), CanceledPost(y, reason)])
    modifies c, rt
    ensures ControllerAt(c, [z], map[x := Fresh, y := Fresh][x := Rejection(reason)][y := Rejection(reason)][z := Fresh],
                         [Exec(x), Exec(y), CancelOf(x, reason), CancelOf(y, reason), Exec(z)])
    ensures WorkerAt(rt, [Obj(x), Obj(y), Obj(z)], (map[x := 0, y := 1] - {x} - {y})[z := 2], [z],
                     [CanceledPost(x, reason), CanceledPost(y, reason)])
  {
    ghost var sent := [Exec(x), Exec(y), CancelOf(x, reason), CancelOf(y, reason)];
    ControllerOverrides(c, awaited, z, [], map[x := Fresh, y := Fresh][x := Rejection(reason)][y := Rejection(reason)],
                        sent, [z], [Exec(x), Exec(y), CancelOf(x, reason), CancelOf(y, reason), Exec(z)]);
    WorkerStarts(rt, z, [Obj(x), Obj(y)], map[x := 0, y := 1] - {x} - {y}, [], [CanceledPost(x, reason), CanceledPost(y, reason)],
                 2, [Obj(x), Obj(y), Obj(z)], [z]);
  }

  /** `override()` after its `await`: the new call is sent, runs and is answered. */
  method OverrideCompletes(c: SingleWorker.EasyWebWorker, rt: Runtime, x: Id, y: Id, z: Id, reason: Value, awaited: seq<Id>)
    requires Distinct3(x, y, z) && awaited == [x, y]
    requires ControllerAt(c, [], map[x := Fresh, y := Fresh][x := Rejection(reason)][y := Rejection(reason)],
                          [Exec(x), Exec(y), CancelOf(x, reason), CancelOf(y, reason)])
    requires WorkerAt(rt, [Obj(x), Obj(y)], map[x := 0, y := 1] - {x} - {y}, [], [CanceledPost(x, reason), CanceledPost(y, reason)])
    modifies c, rt
    ensures ControllerAt(c, [], map[x := Fresh, y := Fresh][x := Rejection(reason)][y := Rejection(reason)][z := Fresh][z := Fulfillment],
                         [Exec(x), Exec(y), CancelOf(x, reason), CancelOf(y, reason), Exec(z)])
  {
    OverrideSendsThird(c, rt, x, y, z, reason, awaited);
    ResolveRoundTrip(c, rt, 2, z, Fulfillment, [z], [], [],
                     map[x := Fresh, y := Fresh][x := Rejection(reason)][y := Rejection(reason)][z := Fresh],
                     [Exec(x), Exec(y), CancelOf(x, reason), CancelOf(y, reason), Exec(z)], [],
                     [Obj(x), Obj(y), Obj(z)], (map[x := 0, y := 1] - {x} - {y})[z := 2], [z], [], [],
                     [CanceledPost(x, reason), CanceledPost(y, reason)],
                     [], [CanceledPost(x, reason), CanceledPost(y, reason), ResolvedPost(z)]);
  }

  /**
   * `send().then(callback1); send().then(callback2); await override()`:
   * both earlier calls end rejected with the reason and only the new call is
   * fulfilled, as the override test expects.
   */
  method OverrideScenario(x: Id, y: Id, z: Id, reason: Value) returns (first: Status, second: Status, third: Status)
    requires Distinct3(x, y, z)
    ensures first == RejectedWith(reason) && second == RejectedWith(reason)
    ensures third == Fulfilled([])
  {
    var c, rt := StartTwo(x, y);
    var awaited := OverrideCancels(c, rt, x, y, reason);
    OverrideCompletes(c, rt, x, y, z, reason, awaited);
    first, second, third := c.handles[x].status, c.handles[y].status, c.handles[z].status;
  }

  /** `overrideAfterCurrent()` up to its `await`: the oldest call is held, the other cancelled on both sides. */
  method AfterCurrentCancels(c: SingleWorker.EasyWebWorker, rt: Runtime, x: Id, y: Id, reason: Value) returns (held: Option<Id>, awaited: seq<Id>)
    requires x != y
    requires ControllerAt(c, [x, y], map[x := Fresh, y := Fresh], [Exec(x), Exec(y)])
    requires WorkerAt(rt, [Obj(x), Obj(y)], map[x := 0, y := 1], [x, y], [])
    modifies c, rt
    ensures held == Some(x) && awaited == [y]
    ensures ControllerAt(c, [], map[x := Fresh, y := Fresh][y := Rejection(reason)], [Exec(x), Exec(y), CancelOf(y, reason)])
    ensures WorkerAt(rt, [Obj(x), Obj(y)], map[x := 0, y := 1] - {y}, [x], [CanceledPost(y, reason)])
  {
    ghost var sent := [Exec(x), Exec(y), CancelOf(y, reason)];
    held, awaited := ControllerHoldsCurrent(c, reason, x, y, map[x := Fresh, y := Fresh], [Exec(x), Exec(y)], sent);
    CancelRoundTrip(c, rt, y, reason, Rejection(reason), [y], [], [], map[x := Fresh, y := Fresh], sent, [],
                    [Obj(x), Obj(y)], map[x := 0, y := 1], [x, y], [x], [], [], [x], [CanceledPost(y, reason)]);
  }

  /**
   * `overrideAfterCurrent()` after its `await`: the held call is queued
   * again and the new call sent.  `handles` is the controller's table at
   * that point, with the held call still pending.
   */
  method AfterCurrentSendsThird(c: SingleWorker.EasyWebWorker, rt: Runtime, x: Id, y: Id, z: Id, reason: Value,
                                held: Option<Id>, awaited: seq<Id>, ghost handles: map<Id, Handle>,
                                ghost objects: seq<MessageObject>, ghost table: map<Id, nat>, ghost order: seq<Id>,
                                ghost answered: seq<Post>, ghost slot: nat, ghost objects': seq<MessageObject>, ghost order': seq<Id>)
    requires Distinct3(x, y, z) && held == Some(x) && awaited == [y]
    requires x in handles && y in handles && handles[y] == Rejection(reason) && z !in handles
    requires ControllerAt(c, [], handles, [Exec(x), Exec(y), CancelOf(y, reason)])
    requires WorkerAt(rt, objects, table, order, answered) && z !in table
    requires slot == |objects| && objects' == objects + [Obj(z)] && order' == order + [z]
    modifies c, rt
    ensures ControllerAt(c, [x, z], handles[z := Fresh], [Exec(x), Exec(y), CancelOf(y, reason), Exec(z)])
    ensures WorkerAt(rt, objects', table[z := slot], order', answered)
  {
    ControllerRequeues(c, held, awaited, z, [], handles, [Exec(x), Exec(y), CancelOf(y, reason)],
                       [x, z], [Exec(x), Exec(y), CancelOf(y, reason), Exec(z)]);
    WorkerStarts(rt, z, objects, table, order, answered, slot, objects', order');
  }

  /** The held call completes after the override, then the new one. */
  method HeldThenThirdComplete(c: SingleWorker.EasyWebWorker, rt: Runtime, x: Id, y: Id, z: Id, reason: Value,
                               ghost handles: map<Id, Handle>, ghost table: map<Id, nat>)
    requires Distinct3(x, y, z)
    requires x in handles && z in handles && handles[x] == Fresh && handles[z] == Fresh
    requires x in table && z in table && table[x] == 0 && table[z] == 2
    requires ControllerAt(c, [x, z], handles, [Exec(x), Exec(y), CancelOf(y, reason), Exec(z)])
    requires WorkerAt(rt, [Obj(x), Obj(y), Obj(z)], table, [x, z], [CanceledPost(y, reason)])
    modifies c, rt
    ensures ControllerAt(c, [], handles[x := Fulfillment][z := Fulfillment], [Exec(x), Exec(y), CancelOf(y, reason), Exec(z)])
  {
    ghost var objects := [Obj(x), Obj(y), Obj(z)];
    ghost var sent := [Exec(x), Exec(y), CancelOf(y, reason), Exec(z)];
    ResolveRoundTrip(c, rt, 0, x, Fulfillment, [x, z], [], [z], handles, sent, [z],
                     objects, table, [x, z], [], [z], [CanceledPost(y, reason)], [z], [CanceledPost(y, reason), ResolvedPost(x)]);
    ResolveRoundTrip(c, rt, 2, z, Fulfillment, [z], [], [], handles[x := Fulfillment], sent, [],
                     objects, table - {x}, [z], [], [], [CanceledPost(y, reason), ResolvedPost(x)],
                     [], [CanceledPost(y, reason), ResolvedPost(x), ResolvedPost(z)]);
  }

  /**
   * `send().then(callback1); send().then(callback2); await
   * overrideAfterCurrent()`, with the oldest call answering after the
   * override completed: the oldest and the new call are fulfilled, the
   * middle one rejected, as the overrideAfterCurrent test expects.
   */
  method OverrideAfterCurrentScenario(x: Id, y: Id, z: Id, reason: Value) returns (first: Status, second: Status, third: Status, queue: seq<Id>)
    requires Distinct3(x, y, z)
    ensures first == Fulfilled([]) && second == RejectedWith(reason) && third == Fulfilled([])
    ensures queue == []
  {
    var c, rt := StartTwo(x, y);
    var held, awaited := AfterCurrentCancels(c, rt, x, y, reason);
    ghost var handles := map[x := Fresh, y := Fresh][y := Rejection(reason)];
    ghost var table := map[x := 0, y := 1] - {y};
    AfterCurrentSendsThird(c, rt, x, y, z, reason, held, awaited, handles, [Obj(x), Obj(y)], table, [x], [CanceledPost(y, reason)],
                           2, [Obj(x), Obj(y), Obj(z)], [x, z]);
    HeldThenThirdComplete(c, rt, x, y, z, reason, handles[z := Fresh], table[z := 2]);
    first, second, third := c.handles[x].status, c.handles[y].status, c.handles[z].status;
    queue := c.queue;
  }

  /** The oldest call is held and answers while it is out of the queue, so the controller drops the reply. */
  method HeldAnswersEarlyFirst(c: SingleWorker.EasyWebWorker, rt: Runtime, x: Id, y: Id, reason: Value) returns (held: Option<Id>, awaited: seq<Id>)
    requires x != y
    requires ControllerAt(c, [x, y], map[x := Fresh, y := Fresh], [Exec(x), Exec(y)])
    requires WorkerAt(rt, [Obj(x), Obj(y)], map[x := 0, y := 1], [x, y], [])
    modifies c, rt
    ensures held == Some(x) && awaited == [y]
    ensures ControllerAt(c, [y], map[x := Fresh, y := Fresh], [Exec(x), Exec(y), CancelOf(y, reason)])
    ensures WorkerAt(rt, [Obj(x), Obj(y)], map[x := 0, y := 1] - {x}, [y], [ResolvedPost(x)])
  {
    ghost var sent := [Exec(x), Exec(y), CancelOf(y, reason)];
    held, awaited := ControllerHoldsCurrent(c, reason, x, y, map[x := Fresh, y := Fresh], [Exec(x), Exec(y)], sent);
    WorkerResolves(rt, 0, x, [Obj(x), Obj(y)], map[x := 0, y := 1], [x, y], [], [y], [], [y], [ResolvedPost(x)]);
    ControllerDrops(c, x, Resolved(Some([])), [y], map[x := Fresh, y := Fresh], sent);
  }

  /** The held call's reply is dropped; then the other call is cancelled on both sides. */
  method HeldAnswersEarly(c: SingleWorker.EasyWebWorker, rt: Runtime, x: Id, y: Id, reason: Value) returns (held: Option<Id>, awaited: seq<Id>)
    requires x != y
    requires ControllerAt(c, [x, y], map[x := Fresh, y := Fresh], [Exec(x), Exec(y)])
    requires WorkerAt(rt, [Obj(x), Obj(y)], map[x := 0, y := 1], [x, y], [])
    modifies c, rt
    ensures held == Some(x) && awaited == [y]
    ensures ControllerAt(c, [], map[x := Fresh, y := Fresh][y := Rejection(reason)], [Exec(x), Exec(y), CancelOf(y, reason)])
    ensures WorkerAt(rt, [Obj(x), Obj(y)], map[x := 0, y := 1] - {x} - {y}, [], [ResolvedPost(x), CanceledPost(y, reason)])
  {
    held, awaited := HeldAnswersEarlyFirst(c, rt, x, y, reason);
    CancelRoundTrip(c, rt, y, reason, Rejection(reason), [y], [], [], map[x := Fresh, y := Fresh],
                    [Exec(x), Exec(y), CancelOf(y, reason)], [],
                    [Obj(x), Obj(y)], map[x := 0, y := 1] - {x}, [y], [], [], [ResolvedPost(x)],
                    [], [ResolvedPost(x), CanceledPost(y, reason)]);
  }

  /** After the race: the held call is queued again, and the new call is sent and answered. */
  method RaceCompletes(c: SingleWorker.EasyWebWorker, rt: Runtime, x: Id, y: Id, z: Id, reason: Value,
                       ghost handles: map<Id, Handle>, ghost table: map<Id, nat>)
    requires Distinct3(x, y, z)
    requires z in handles && handles[z] == Fresh
    requires z in table && table[z] == 2
    requires ControllerAt(c, [x, z], handles, [Exec(x), Exec(y), CancelOf(y, reason), Exec(z)])
    requires WorkerAt(rt, [Obj(x), Obj(y), Obj(z)], table, [z], [ResolvedPost(x), CanceledPost(y, reason)])
    modifies c, rt
    ensures ControllerAt(c, [x], handles[z := Fulfillment], [Exec(x), Exec(y), CancelOf(y, reason), Exec(z)])
  {
    ResolveRoundTrip(c, rt, 2, z, Fulfillment, [x, z], [x], [], handles,
                     [Exec(x), Exec(y), CancelOf(y, reason), Exec(z)], [x],
                     [Obj(x), Obj(y), Obj(z)], table, [z], [], [], [ResolvedPost(x), CanceledPost(y, reason)],
                     [], [ResolvedPost(x), CanceledPost(y, reason), ResolvedPost(z)]);
  }

  /**
   * The same calls, but the oldest call answers while `overrideAfterCurrent`
   * awaits the cancellations.  Its entry is out of the queue at that moment,
   * so the reply is dropped; the entry is put back afterwards and its promise
   * never settles.
   */
  method OverrideAfterCurrentRace(x: Id, y: Id, z: Id, reason: Value) returns (first: Status, second: Status, third: Status, queue: seq<Id>)
    requires Distinct3(x, y, z)
    ensures first == Pending && second == RejectedWith(reason) && third == Fulfilled([])
    ensures queue == [x]
  {
    var c, rt := StartTwo(x, y);
    var held, awaited := HeldAnswersEarly(c, rt, x, y, reason);
    ghost var handles := map[x := Fresh, y := Fresh][y := Rejection(reason)];
    ghost var table := map[x := 0, y := 1] - {x} - {y};
    ghost var answered := [ResolvedPost(x), CanceledPost(y, reason)];
    AfterCurrentSendsThird(c, rt, x, y, z, reason, held, awaited, handles, [Obj(x), Obj(y)], table, [], answered,
                           2, [Obj(x), Obj(y), Obj(z)], [z]);
    RaceCompletes(c, rt, x, y, z, reason, handles[z := Fresh], table[z := 2]);
    first, second, third := c.handles[x].status, c.handles[y].status, c.handles[z].status;
    queue := c.queue;
  }

  /** A warmed-up pool of workers 10 and 11 over a worker body. */
  method WarmPool() returns (p: ParallelWorker.EasyWebWorkerParallel)
    ensures fresh(p) && p.Valid()
    ensures p.workers == [Some(10), Some(11)]
    ensures p.queue == [] && p.handles == map[] && p.bindings == map[] && p.logs == map[]
  {
    var options := ParallelWorker.DefaultOptions.(maxWorkers := 2, warmUp := true);
    p := new ParallelWorker.EasyWebWorkerParallel(ParallelWorker.Body, options, "blob:worker", [10, 11]);
    assert [10, 11][..2] == [10, 11];
  }

  /** `sendToMethod('sum', 1)` and then `send(2)`: each call takes the next worker of the pool. */
  method SendTwoToPool(p: ParallelWorker.EasyWebWorkerParallel) returns (o1: Outcome, o2: Outcome)
    requires p.Valid() && p.workers == [Some(10), Some(11)]
    requires p.queue == [] && p.handles == map[] && p.bindings == map[] && p.logs == map[]
    modifies p
    ensures p.Valid() && o1 == Done && o2 == Done
    ensures p.workers == [Some(10), Some(11)] && p.queue == ["x", "y"]
    ensures p.handles == map["x" := Fresh, "y" := Fresh]
    ensures p.bindings == map["x" := Binding(Some(10), Some("sum")), "y" := Binding(Some(11), None)]
    ensures p.logs == PostTo(PostTo(map[], 10, Request("x", Some("sum"), Execution(Num(1)))), 11, Request("y", None, Execution(Num(2))))
  {
    o1 := p.SendToMethod("sum", "x", Num(1));
    assert p.workers == [Some(11), Some(10)];
    o2 := p.Send("y", Num(2));
  }

  /**
   * A warmed-up pool of two workers: each call is bound to the worker it was
   * sent to, and its cancelation request, which names the same method, goes
   * to that worker too.
   */
  method BoundWorkerScenario(reason: Value) returns (log0: seq<Request>, log1: seq<Request>, o1: Outcome, o2: Outcome, o3: Outcome)
    ensures o1 == Done && o2 == Done && o3 == Done
    ensures log0 == [Request("x", Some("sum"), Execution(Num(1))), Request("x", Some("sum"), Cancelation(reason))]
    ensures log1 == [Request("y", None, Execution(Num(2)))]
  {
    var p := WarmPool();
    o1, o2 := SendTwoToPool(p);
    o3 := p.Cancel("x", reason);
    log0, log1 := LogOf(p.logs, 10), LogOf(p.logs, 11);
  }

  /**
   * Without warm-up the pool starts empty and `sendToWorker` takes a worker
   * from it directly: the first send hands out `undefined`, queues the call
   * and throws when posting to it.
   */
  method LazyPoolSendThrows() returns (outcome: Outcome, queue: seq<Id>, workers: seq<Slot>)
    ensures outcome == Threw(TypeError)
    ensures queue == ["x"] && workers == [None]
  {
    var p := new ParallelWorker.EasyWebWorkerParallel(ParallelWorker.Body, ParallelWorker.DefaultOptions, "blob:worker", []);
    outcome := p.Send("x", Undefined);
    queue, workers := p.queue, p.workers;
  }

  /**
   * A pool built from two existing workers keeps them alive and sizes itself
   * to them, but its `workers` array ends up holding two `undefined`s, so a
   * send throws.
   */
  method WorkerArraySendThrows() returns (outcome: Outcome, maxWorkers: nat, keepAlive: bool)
    ensures outcome == Threw(TypeError)
    ensures maxWorkers == 2 && keepAlive
  {
    var p := new ParallelWorker.EasyWebWorkerParallel(ParallelWorker.Instances([7, 8]), ParallelWorker.DefaultOptions, "", []);
    outcome := p.Send("x", Undefined);
    maxWorkers, keepAlive := p.maxWorkers, p.keepAlive;
  }
}
