/**
 * The controllers' table of calls that were sent but have not been answered
 * (`messagesQueue`, an insertion-ordered Map from message id to message) and
 * the demultiplexing of worker replies onto it (`executeMessageCallback`).
 * Both EasyWebWorker and EasyWebWorkerParallel run the same demultiplexer;
 * they differ only in how they decide that their workers are gone.
 */
module PendingCalls {
  import opened Wire
  import opened Handles

  predicate Distinct<T(==,!new)>(s: seq<T>) {
    forall i, j :: 0 <= i < j < |s| ==> s[i] != s[j]
  }

  /** `Map.prototype.delete` / `Set.prototype.delete` on the keys in insertion order. */
  function Remove<T(==,!new)>(s: seq<T>, x: T): (r: seq<T>)
    ensures forall y :: y in r <==> y in s && y != x
    ensures Distinct(s) ==> Distinct(r)
    ensures x in s && Distinct(s) ==> |r| == |s| - 1
    ensures x !in s ==> r == s
  {
    if s == [] then []
    else if s[0] == x then Remove(s[1..], x)
    else
      DistinctTail(s);
      [s[0]] + Remove(s[1..], x)
  }

  /** Deleting a key that occurs once leaves the other keys in their order. */
  lemma {:induction false} RemoveKeepsOrder<T(!new)>(pre: seq<T>, x: T, post: seq<T>)
    requires x !in pre && x !in post
    ensures Remove(pre + [x] + post, x) == pre + post
  {
    if pre == [] {
      assert (pre + [x] + post)[1..] == post;
    } else {
      assert (pre + [x] + post)[1..] == pre[1..] + [x] + post;
      RemoveKeepsOrder(pre[1..], x, post);
      assert pre + post == [pre[0]] + (pre[1..] + post);
    }
  }

  lemma DistinctTail<T(!new)>(s: seq<T>)
    requires s != []
    ensures Distinct(s) ==> Distinct(s[1..]) && s[0] !in s[1..]
  {
    if Distinct(s) {
      forall k | 0 <= k < |s| - 1 ensures s[1..][k] != s[0] {
        assert s[1..][k] == s[k + 1];
      }
    }
  }

  /** Deleting the oldest key of a duplicate-free key list leaves the others in order. */
  lemma RemoveFirst<T(!new)>(s: seq<T>)
    requires s != [] && Distinct(s)
    ensures Remove(s, s[0]) == s[1..]
  {
    DistinctTail(s);
  }

  /** `Map.prototype.set` (or `Set.prototype.add`): a new key goes to the end,
      an existing key keeps its place. */
  function Insert<T(==)>(s: seq<T>, x: T): seq<T> {
    if x in s then s else s + [x]
  }

  /** The pending table together with every handle ever returned to a caller
      (handles stay observable after their entry leaves the queue). */
  datatype Calls = Calls(queue: seq<Id>, handles: map<Id, Handle>) {
    predicate Valid() {
      Distinct(queue) && forall id :: id in queue ==> id in handles
    }
  }

  /** How a terminal reply settles a handle: `worker_canceled` and `rejected`
      reject with the reason, `resolved` resolves with `payload ?? []`.  A
      reply under a key the controller does not read leaves the handle as it
      was: reading `resolved.payload` throws before anything is settled. */
  function Settle(h: Handle, body: ReplyBody): Handle
    requires !body.Progress?
  {
    match body
    case Resolved(payload) => Resolve(h, payload.GetOr([]))
    case Rejected(reason) => Reject(h, reason)
    case WorkerCanceled(reason) => Reject(h, reason)
    case _ => h
  }

  /**
   * `executeMessageCallback`.  `live` is false once the controller's workers
   * are gone (`worker` is null, or the pool is empty).
   */
  function Demux(c: Calls, live: bool, reply: Reply): (d: Calls)
    requires c.Valid()
    ensures d.Valid() && d.handles.Keys == c.handles.Keys
    // a reply for an id that is not queued changes nothing
    ensures reply.messageId !in c.queue ==> d == c
    // after disposal the entry is dropped and its handle is not settled
    ensures reply.messageId in c.queue && !live ==>
      d.handles == c.handles && d.queue == Remove(c.queue, reply.messageId)
    // progress is forwarded and the entry stays
    ensures reply.messageId in c.queue && live && reply.body.Progress? ==>
      var id := reply.messageId;
      && d.queue == c.queue
      && d.handles[id].status == c.handles[id].status
      && d.handles[id].progress ==
           c.handles[id].progress + [ProgressReport(reply.body.percentage, reply.body.data)]
      && forall x :: x in c.handles && x != id ==> d.handles[x] == c.handles[x]
    // any other reply removes exactly this entry and then settles its handle
    ensures reply.messageId in c.queue && live && !reply.body.Progress? ==>
      var id := reply.messageId;
      && id !in d.queue
      && |d.queue| == |c.queue| - 1
      && (forall x :: x in d.queue <==> x in c.queue && x != id)
      && d.handles[id].progress == c.handles[id].progress
      && (forall x :: x in c.handles && x != id ==> d.handles[x] == c.handles[x])
      && (c.handles[id].status.Pending? && ControllerTag(reply.body) ==>
            d.handles[id].status ==
              match reply.body
              case Resolved(payload) => Fulfilled(payload.GetOr([]))
              case Rejected(reason) => RejectedWith(reason)
              case WorkerCanceled(reason) => RejectedWith(reason))
      && (!c.handles[id].status.Pending? || !ControllerTag(reply.body) ==> d.handles[id] == c.handles[id])
  {
    var id := reply.messageId;
    if id !in c.queue then c
    else if !live then c.(queue := Remove(c.queue, id))
    else
      var h := c.handles[id];
      if reply.body.Progress? then
        c.(handles := c.handles[id := Report(h, reply.body.percentage, reply.body.data)])
      else
        Calls(Remove(c.queue, id), c.handles[id := Settle(h, reply.body)])
  }

  /**
   * Whether `executeMessageCallback` returns normally: it throws a TypeError,
   * after removing the entry, exactly for a queued call of a live controller
   * answered under a key it does not read (`canceled`, `worker_cancelation`).
   */
  function DemuxOutcome(c: Calls, live: bool, reply: Reply): (o: Outcome)
    ensures o == Done || o == Threw(TypeError)
    ensures o.Threw? <==> reply.messageId in c.queue && live && !ControllerTag(reply.body)
  {
    if reply.messageId in c.queue && live && !ControllerTag(reply.body) then Threw(TypeError) else Done
  }

  /** The replies a handle receives in order, delivered one after the other. */
  function DemuxAll(c: Calls, live: bool, replies: seq<Reply>): (d: Calls)
    requires c.Valid()
    ensures d.Valid() && d.handles.Keys == c.handles.Keys
    decreases |replies|
  {
    if replies == [] then c
    else DemuxAll(Demux(c, live, replies[0]), live, replies[1..])
  }

  function ProgressReplies(id: Id, reports: seq<ProgressReport>): (r: seq<Reply>)
    ensures |r| == |reports|
    ensures forall k :: 0 <= k < |r| ==>
      r[k] == Reply(id, Progress(reports[k].percentage, reports[k].payload))
  {
    seq(|reports|, k requires 0 <= k < |reports| =>
      Reply(id, Progress(reports[k].percentage, reports[k].payload)))
  }

  /**
   * Any number of progress replies for a queued call keep it queued, keep its
   * status and append the reports to its handle in the order they arrived.
   */
  lemma {:induction false} ProgressIsNonTerminal(c: Calls, id: Id, reports: seq<ProgressReport>)
    requires c.Valid() && id in c.queue
    ensures
      var d := DemuxAll(c, true, ProgressReplies(id, reports));
      && d.queue == c.queue
      && d.handles.Keys == c.handles.Keys
      && d.handles[id].status == c.handles[id].status
      && d.handles[id].progress == c.handles[id].progress + reports
      && forall x :: x in c.handles && x != id ==> d.handles[x] == c.handles[x]
    decreases |reports|
  {
    var rs := ProgressReplies(id, reports);
    if reports != [] {
      var c' := Demux(c, true, rs[0]);
      assert rs[1..] == ProgressReplies(id, reports[1..]);
      ProgressIsNonTerminal(c', id, reports[1..]);
      assert c'.handles[id].progress + reports[1..] == c.handles[id].progress + reports;
    }
  }

  /**
   * A pending call that receives progress replies and then one resolved reply
   * leaves the queue exactly once and is fulfilled with the carried payload,
   * its progress log holding every report in order.
   */
  lemma ProgressThenResolved(c: Calls, id: Id, reports: seq<ProgressReport>, payload: seq<Value>)
    requires c.Valid() && id in c.queue && c.handles[id].status.Pending?
    ensures
      var replies := ProgressReplies(id, reports) + [Reply(id, Resolved(Some(payload)))];
      var d := DemuxAll(c, true, replies);
      && id !in d.queue
      && (forall x :: x in d.queue <==> x in c.queue && x != id)
      && d.handles[id] == Handle(Fulfilled(payload), c.handles[id].progress + reports)
  {
    var ps := ProgressReplies(id, reports);
    var replies := ps + [Reply(id, Resolved(Some(payload)))];
    ProgressIsNonTerminal(c, id, reports);
    var m := DemuxAll(c, true, ps);
    DemuxAllAppend(c, true, ps, Reply(id, Resolved(Some(payload))));
    assert DemuxAll(c, true, replies) == Demux(m, true, Reply(id, Resolved(Some(payload))));
  }

  lemma {:induction false} DemuxAllAppend(c: Calls, live: bool, rs: seq<Reply>, r: Reply)
    requires c.Valid()
    ensures DemuxAll(c, live, rs + [r]) == Demux(DemuxAll(c, live, rs), live, r)
    decreases |rs|
  {
    if rs != [] {
      assert (rs + [r])[1..] == rs[1..] + [r];
      DemuxAllAppend(Demux(c, live, rs[0]), live, rs[1..], r);
    }
  }

  /**
   * A call whose entry has left the queue while its handle is still pending
   * never settles: no later reply, whatever its key, reaches its handle.  This
   * is the fate of a call answered with the readable runtime's `canceled`.
   */
  lemma {:induction false} DroppedCallNeverSettles(c: Calls, live: bool, replies: seq<Reply>, id: Id)
    requires c.Valid() && id in c.handles && id !in c.queue
    ensures DemuxAll(c, live, replies).handles[id] == c.handles[id]
    decreases |replies|
  {
    if replies != [] {
      var c' := Demux(c, live, replies[0]);
      assert id !in c'.queue && c'.handles[id] == c.handles[id];
      DroppedCallNeverSettles(c', live, replies[1..], id);
    }
  }

  /** A reply under a key the controller does not read removes the call,
      throws, and leaves the handle pending for ever after. */
  lemma UnreadReplyLosesCall(c: Calls, reason: Value, later: seq<Reply>, id: Id)
    requires c.Valid() && id in c.queue && c.handles[id].status.Pending?
    ensures DemuxOutcome(c, true, Reply(id, Canceled(reason))) == Threw(TypeError)
    ensures
      var d := Demux(c, true, Reply(id, Canceled(reason)));
      && id !in d.queue
      && DemuxAll(d, true, later).handles[id].status.Pending?
  {
    var d := Demux(c, true, Reply(id, Canceled(reason)));
    DroppedCallNeverSettles(d, true, later, id);
  }

  /** The cancelation requests `cancelAll` posts, one per queued id, in queue order. */
  function CancelRequests(ids: seq<Id>, methodName: Option<string>, reason: Value): (r: seq<Request>)
    ensures |r| == |ids|
    ensures forall k :: 0 <= k < |ids| ==> r[k] == Request(ids[k], methodName, Cancelation(reason))
  {
    seq(|ids|, k requires 0 <= k < |ids| => Request(ids[k], methodName, Cancelation(reason)))
  }
}
