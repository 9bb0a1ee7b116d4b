/**
 * EasyWebWorker: a controller that runs many logical calls over one worker.
 * The worker is an opaque id; what the controller posts to it is the log
 * `posted`.  After `dispose` the `worker` field is null (None) and posts are
 * skipped, as `this.worker?.postMessage` does.
 */
module SingleWorker {
  import opened Wire
  import opened Handles
  import opened PendingCalls

  /** What `this.worker?.postMessage(data)` appends to the worker's channel. */
  function PostIfLive(worker: Option<WorkerId>, r: Request): seq<Request> {
    if worker.Some? then [r] else []
  }

  class EasyWebWorker {
    var worker: Option<WorkerId>
    var queue: seq<Id>               // keys of messagesQueue, in insertion order
    var handles: map<Id, Handle>     // the promise of each message ever sent
    var posted: seq<Request>         // everything posted to the worker

    ghost predicate Valid()
      reads this
    {
      Calls(queue, handles).Valid()
    }

    /** The worker itself is created by the host (initializeWorker). */
    constructor (w: WorkerId)
      ensures Valid()
      ensures worker == Some(w) && queue == [] && handles == map[] && posted == []
    {
      worker := Some(w);
      queue := [];
      handles := map[];
      posted := [];
    }

    method RemoveMessageFromQueue(id: Id)
      requires Valid()
      modifies this`queue
      ensures Valid()
      ensures queue == Remove(old(queue), id)
    {
      queue := Remove(queue, id);
    }

    /** The worker's `onmessage`: demultiplex one reply by its message id. */
    method ExecuteMessageCallback(reply: Reply) returns (outcome: Outcome)
      requires Valid()
      modifies this`queue, this`handles
      ensures Valid()
      ensures Calls(queue, handles) == Demux(Calls(old(queue), old(handles)), worker.Some?, reply)
      ensures outcome == DemuxOutcome(Calls(old(queue), old(handles)), worker.Some?, reply)
    {
      outcome := Done;
      var id := reply.messageId;
      if id !in queue {
        return;
      }
      if worker.None? {
        RemoveMessageFromQueue(id);
        return;
      }
      var h := handles[id];
      if reply.body.Progress? {
        handles := handles[id := Report(h, reply.body.percentage, reply.body.data)];
        return;
      }
      RemoveMessageFromQueue(id);
      match reply.body {
        case WorkerCanceled(reason) =>
          handles := handles[id := Reject(h, reason)];
        case Rejected(reason) =>
          handles := handles[id := Reject(h, reason)];
        case Resolved(payload) =>
          handles := handles[id := Resolve(h, payload.GetOr([]))];
        case _ =>
          // `resolved` is undefined: reading its `payload` throws
          outcome := Threw(TypeError);
      }
    }

    /**
     * `send(payload)`: a new message under a fresh id (`generatedId` is an
     * oracle here) is queued and its execution request is posted.
     */
    method Send(id: Id, payload: Value)
      requires Valid() && id !in handles
      modifies this`queue, this`handles, this`posted
      ensures Valid()
      ensures queue == old(queue) + [id]
      ensures handles == old(handles)[id := NewHandle]
      ensures posted == old(posted) + PostIfLive(worker, Request(id, None, Execution(payload)))
    {
      handles := handles[id := NewHandle];
      queue := Insert(queue, id);
      posted := posted + PostIfLive(worker, Request(id, None, Execution(payload)));
    }

    /**
     * The `cancel(reason)` that `send` installs on the returned promise: it
     * asks the worker to cancel and leaves the entry queued until the worker
     * answers.
     */
    method Cancel(id: Id, reason: Value)
      requires Valid() && id in handles
      modifies this`posted
      ensures posted == old(posted) + PostIfLive(worker, Request(id, None, Cancelation(reason)))
    {
      posted := posted + PostIfLive(worker, Request(id, None, Cancelation(reason)));
    }

    /**
     * `cancelAll(reason)`: calls `cancel` on a snapshot of the queued
     * messages; `awaited` is the list whose promises `Promise.all` waits for.
     */
    method CancelAll(reason: Value) returns (awaited: seq<Id>)
      requires Valid()
      modifies this`posted
      ensures awaited == queue
      ensures posted == old(posted) +
        (if worker.Some? then CancelRequests(queue, None, reason) else [])
    {
      awaited := queue;
      var i := 0;
      while i < |awaited|
        invariant 0 <= i <= |awaited|
        invariant posted == old(posted) +
          (if worker.Some? then CancelRequests(awaited[..i], None, reason) else [])
      {
        Cancel(awaited[i], reason);
        assert CancelRequests(awaited[..i + 1], None, reason) ==
          CancelRequests(awaited[..i], None, reason) + [Request(awaited[i], None, Cancelation(reason))];
        i := i + 1;
      }
      assert awaited[..i] == awaited;
    }

    /** `override` after its `await this.cancelAll(reason)`: send the new message. */
    method OverrideResume(awaited: seq<Id>, id: Id, payload: Value)
      requires Valid() && Settled(handles, awaited) && id !in handles
      modifies this`queue, this`handles, this`posted
      ensures Valid()
      ensures queue == old(queue) + [id]
      ensures handles == old(handles)[id := NewHandle]
      ensures posted == old(posted) + PostIfLive(worker, Request(id, None, Execution(payload)))
    {
      Send(id, payload);
    }

    /**
     * `overrideAfterCurrent` up to its `await`: on a non-empty queue the
     * oldest message is taken out of the queue and every other one is
     * cancelled; on an empty queue nothing happens before the send.
     */
    method OverrideAfterCurrentStart(reason: Value) returns (held: Option<Id>, awaited: seq<Id>)
      requires Valid()
      modifies this`queue, this`posted
      ensures Valid()
      ensures old(queue) == [] ==> held == None && awaited == [] && queue == [] && posted == old(posted)
      ensures old(queue) != [] ==>
        && held == Some(old(queue)[0])
        && queue == old(queue)[1..]
        && awaited == queue
        && posted == old(posted) +
             (if worker.Some? then CancelRequests(old(queue)[1..], None, reason) else [])
    {
      if |queue| > 0 {
        var current := queue[0];
        held := Some(current);
        RemoveFirst(queue);
        queue := Remove(queue, current);
        awaited := CancelAll(reason);
      } else {
        held := None;
        awaited := [];
      }
    }

    /**
     * `overrideAfterCurrent` after its `await`: the held message is put back
     * into the queue (at its end, as `Map.set` of a deleted key does) and the
     * new message is sent.
     */
    method OverrideAfterCurrentResume(held: Option<Id>, awaited: seq<Id>, id: Id, payload: Value)
      requires Valid() && Settled(handles, awaited) && id !in handles
      requires held.Some? ==> held.value in handles
      modifies this`queue, this`handles, this`posted
      ensures Valid()
      ensures queue == (if held.Some? then Insert(old(queue), held.value) else old(queue)) + [id]
      ensures handles == old(handles)[id := NewHandle]
      ensures posted == old(posted) + PostIfLive(worker, Request(id, None, Execution(payload)))
    {
      if held.Some? {
        queue := Insert(queue, held.value);
        assert Distinct(queue) by {
          if held.value !in old(queue) {
            assert forall k :: 0 <= k < |old(queue)| ==> queue[k] == old(queue)[k];
          }
        }
      }
      Send(id, payload);
    }

    /** `dispose` after its `await this.cancelAll()`: the worker field becomes null. */
    method DisposeResume(awaited: seq<Id>)
      requires Valid() && Settled(handles, awaited)
      modifies this`worker
      ensures Valid() && worker == None
    {
      worker := None;
    }
  }

  /** `scripts.join(separator)` */
  function Join(scripts: seq<string>, separator: string): (r: string)
    ensures scripts == [] ==> r == ""
    ensures |scripts| == 1 ==> r == scripts[0]
    ensures |r| == TotalLength(scripts) + (if scripts == [] then 0 else (|scripts| - 1) * |separator|)
  {
    if scripts == [] then ""
    else if |scripts| == 1 then scripts[0]
    else scripts[0] + separator + Join(scripts[1..], separator)
  }

  function TotalLength(scripts: seq<string>): nat {
    if scripts == [] then 0 else |scripts[0]| + TotalLength(scripts[1..])
  }

  /** Where script `k` starts in `scripts.join(separator)`: after every earlier
      script and its separator. */
  function Offset(scripts: seq<string>, separator: string, k: nat): nat
    requires k <= |scripts|
  {
    if k == 0 then 0 else |scripts[0]| + |separator| + Offset(scripts[1..], separator, k - 1)
  }

  /** A slice of `a + b` that lies inside `b`. */
  lemma SliceOfAppend(a: string, b: string, i: nat, j: nat)
    requires i <= j <= |b|
    ensures (a + b)[|a| + i..|a| + j] == b[i..j]
  {
    assert (a + b)[|a|..] == b;
  }

  /**
   * The contents of `scripts.join(separator)`, first half: script `k` sits at
   * `Offset(scripts, separator, k)`, and the last script ends the result.
   */
  lemma {:induction false} JoinContents(scripts: seq<string>, separator: string, k: nat)
    requires k < |scripts|
    ensures Offset(scripts, separator, k) + |scripts[k]| <= |Join(scripts, separator)|
    ensures Join(scripts, separator)[Offset(scripts, separator, k)..Offset(scripts, separator, k) + |scripts[k]|]
      == scripts[k]
    ensures k + 1 == |scripts| ==> Offset(scripts, separator, k) + |scripts[k]| == |Join(scripts, separator)|
  {
    if |scripts| > 1 {
      var head := scripts[0] + separator;
      var rest := Join(scripts[1..], separator);
      assert Join(scripts, separator) == head + rest;
      if k == 0 {
        assert (head + rest)[..|scripts[0]|] == scripts[0];
      } else {
        JoinContents(scripts[1..], separator, k - 1);
        var o := Offset(scripts[1..], separator, k - 1);
        assert scripts[1..][k - 1] == scripts[k];
        SliceOfAppend(head, rest, o, o + |scripts[k]|);
      }
    }
  }

  /**
   * The contents of `scripts.join(separator)`, second half: exactly one
   * separator lies between script `k` and the next.  With the length in
   * `Join`'s contract, the two halves fix every character of the result.
   */
  lemma {:induction false} JoinSeparators(scripts: seq<string>, separator: string, k: nat)
    requires k + 1 < |scripts|
    ensures Offset(scripts, separator, k + 1) == Offset(scripts, separator, k) + |scripts[k]| + |separator|
    ensures Offset(scripts, separator, k + 1) <= |Join(scripts, separator)|
    ensures Join(scripts, separator)[Offset(scripts, separator, k) + |scripts[k]|..Offset(scripts, separator, k + 1)]
      == separator
  {
    var head := scripts[0] + separator;
    var rest := Join(scripts[1..], separator);
    assert Join(scripts, separator) == head + rest;
    if k == 0 {
      assert (head + rest)[|scripts[0]|..|head|] == separator;
    } else {
      JoinSeparators(scripts[1..], separator, k - 1);
      var o := Offset(scripts[1..], separator, k - 1);
      assert scripts[1..][k - 1] == scripts[k];
      SliceOfAppend(head, rest, o + |scripts[k]|, Offset(scripts[1..], separator, k));
    }
  }

  const ImportPrefix: string := "self.importScripts([\""
  const ImportSuffix: string := "\"]);"

  /** `getImportScriptsTemplate(scripts)`: the import line placed at the top of a generated worker. */
  function ImportScriptsTemplate(scripts: seq<string>): (r: string)
    ensures scripts == [] <==> r == ""
    ensures scripts != [] ==>
      && |r| >= |ImportPrefix| + |ImportSuffix|
      && r[..|ImportPrefix|] == ImportPrefix
      && r[|r| - |ImportSuffix|..] == ImportSuffix
      && r[|ImportPrefix|..|r| - |ImportSuffix|] == Join(scripts, "\",\"")
  {
    if |scripts| == 0 then ""
    else ImportPrefix + Join(scripts, "\",\"") + ImportSuffix
  }

  /**
   * Every script is imported as one quoted string of the array literal: script
   * `k` sits between two `"` characters, at the prefix plus its offset in
   * the list.
   */
  lemma ImportedScriptsQuoted(scripts: seq<string>, k: nat)
    requires k < |scripts|
    ensures
      var r := ImportScriptsTemplate(scripts);
      var o := |ImportPrefix| + Offset(scripts, "\",\"", k);
      && 0 < o && o + |scripts[k]| < |r|
      && r[o - 1] == '"' && r[o..o + |scripts[k]|] == scripts[k] && r[o + |scripts[k]|] == '"'
  {
    var sep := "\",\"";
    assert ImportScriptsTemplate(scripts) == ImportPrefix + Join(scripts, sep) + ImportSuffix;
    JoinQuoted(scripts, k);
    QuotedInside(ImportPrefix, Join(scripts, sep), ImportSuffix, Offset(scripts, sep, k), |scripts[k]|);
  }

  /** Inside the joined list, a script has a `"` on each side unless it is at an end. */
  lemma JoinQuoted(scripts: seq<string>, k: nat)
    requires k < |scripts|
    ensures
      var j := Join(scripts, "\",\"");
      var o := Offset(scripts, "\",\"", k);
      && o + |scripts[k]| <= |j|
      && j[o..o + |scripts[k]|] == scripts[k]
      && (o > 0 ==> j[o - 1] == '"')
      && (o + |scripts[k]| < |j| ==> j[o + |scripts[k]|] == '"')
  {
    var sep := "\",\"";
    JoinContents(scripts, sep, k);
    if Offset(scripts, sep, k) > 0 {
      JoinSeparatorBefore(scripts, sep, k);
    }
    if Offset(scripts, sep, k) + |scripts[k]| < |Join(scripts, sep)| {
      JoinSeparatorAfter(scripts, sep, k);
    }
  }

  /** Consecutive imported scripts are separated by exactly `","`. */
  lemma ImportedScriptsSeparated(scripts: seq<string>, k: nat)
    requires k + 1 < |scripts|
    ensures
      var r := ImportScriptsTemplate(scripts);
      var e := |ImportPrefix| + Offset(scripts, "\",\"", k) + |scripts[k]|;
      && e <= |ImportPrefix| + Offset(scripts, "\",\"", k + 1) <= |r|
      && r[e..|ImportPrefix| + Offset(scripts, "\",\"", k + 1)] == "\",\""
  {
    var sep := "\",\"";
    JoinSeparators(scripts, sep, k);
    SliceOfMiddle(ImportPrefix, Join(scripts, sep), ImportSuffix,
                  Offset(scripts, sep, k) + |scripts[k]|, Offset(scripts, sep, k + 1));
  }

  /** A slice of `a + b + c` that lies inside `b`. */
  lemma SliceOfMiddle(a: string, b: string, c: string, i: nat, j: nat)
    requires i <= j <= |b|
    ensures (a + b + c)[|a| + i..|a| + j] == b[i..j]
  {
    assert (a + b + c)[|a|..|a| + |b|] == b;
  }

  /** A stretch of `b` with a `"` on each side, the sides possibly the ends of `a` and `c`. */
  lemma QuotedInside(a: string, b: string, c: string, o: nat, n: nat)
    requires o + n <= |b| && a != [] && c != []
    requires if o == 0 then a[|a| - 1] == '"' else b[o - 1] == '"'
    requires if o + n == |b| then c[0] == '"' else b[o + n] == '"'
    ensures |a| + o + n < |a + b + c|
    ensures (a + b + c)[|a| + o - 1] == '"' && (a + b + c)[|a| + o + n] == '"'
    ensures (a + b + c)[|a| + o..|a| + o + n] == b[o..o + n]
  {
    SliceOfMiddle(a, b, c, o, o + n);
  }

  /** A script that is not the first is preceded by the separator's last character. */
  lemma JoinSeparatorBefore(scripts: seq<string>, separator: string, k: nat)
    requires 0 < k < |scripts| && separator != []
    ensures 0 < Offset(scripts, separator, k) <= |Join(scripts, separator)|
    ensures Join(scripts, separator)[Offset(scripts, separator, k) - 1] == separator[|separator| - 1]
  {
    JoinSeparators(scripts, separator, k - 1);
    var j := Join(scripts, separator);
    var o := Offset(scripts, separator, k);
    var a := Offset(scripts, separator, k - 1) + |scripts[k - 1]|;
    assert j[a..o][|separator| - 1] == j[o - 1];
  }

  /** A script that is not the last is followed by the separator's first character. */
  lemma JoinSeparatorAfter(scripts: seq<string>, separator: string, k: nat)
    requires k + 1 < |scripts| && separator != []
    ensures Offset(scripts, separator, k) + |scripts[k]| < |Join(scripts, separator)|
    ensures Join(scripts, separator)[Offset(scripts, separator, k) + |scripts[k]|] == separator[0]
  {
    JoinSeparators(scripts, separator, k);
    var j := Join(scripts, separator);
    var a := Offset(scripts, separator, k) + |scripts[k]|;
    assert j[a..Offset(scripts, separator, k + 1)][0] == j[a];
  }

  /** A single script is imported by name, quoted: `self.importScripts(["fake.js"]);` */
  lemma ImportOneScript(script: string)
    ensures ImportScriptsTemplate([script]) == ImportPrefix + script + ImportSuffix
  {
  }
}
