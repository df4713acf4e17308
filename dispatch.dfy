/** The send engine: setNodeCount, the per-bucket retry loop of send, and send itself with its
    re-send after a topology change. Each is a function from the state before to the state
    after (and how it ended); the Client class runs the same steps imperatively. */
module Dispatch {
  import opened Wrappers
  import opened Errors
  import opened Messages
  import opened Routing
  import opened Transport
  import opened State

  /** Upload attempts per bucket. */
  const Attempts: nat := 10
  /** Cluster-info queries per setNodeCount, and the pause between two of them. */
  const NodeCountAttempts: nat := 10
  const NodeCountPauseMs: nat := 200

  // ---------------------------------------------------------------- setNodeCount

  /** setNodeCount, entered when `start` cluster-info queries had been made in all, so that
      the attempt number is the number of queries made since: pause before every attempt but
      the first, query, and take the first answer; after ten failed queries the node count
      stays as it was. */
  function RefreshFrom(env: Env, w: Engine, start: nat): (r: Engine)
    requires start <= w.queries <= start + NodeCountAttempts
    ensures r.requests == w.requests && r.notices == w.notices && r.waits == w.waits && r.ranges == w.ranges
    decreases start + NodeCountAttempts - w.queries
  {
    if w.queries == start + NodeCountAttempts then w
    else
      var w1 := if w.queries != start then w.(pauses := w.pauses + [Sleep(NodeCountPauseMs)]) else w;
      var answer := env.clusterInfo(w1.queries);
      var w2 := w1.(queries := w1.queries + 1);
      if answer.Some? then w2.(totalNodes := answer.value) else RefreshFrom(env, w2, start)
  }

  function Refresh(env: Env, w: Engine): Engine {
    RefreshFrom(env, w, w.queries)
  }

  /** `count` pauses of NodeCountPauseMs. */
  function Sleeps(count: nat): (r: seq<Pause>)
    ensures |r| == count && forall i :: 0 <= i < count ==> r[i] == Sleep(NodeCountPauseMs)
  {
    if count == 0 then [] else Sleeps(count - 1) + [Sleep(NodeCountPauseMs)]
  }

  // ---------------------------------------------------------------- one bucket

  /** How one bucket's retry loop ended. */
  datatype BucketExit =
    | Delivered                  // an upload succeeded; Success was notified
    | Unmarshalable              // the sub-batch could not be serialized; Failure was notified
    | Exhausted(err: Error)      // all ten uploads failed; Failure was notified once
    | Skipped                    // the node count was zero at every attempt: nothing happened
    | TopologyChange             // a 451: the rest of the payload was re-sent
    | QuitDuringWait(err: Error) // the client was closed during a retry wait

  /** The outcome of one attempt that was not skipped. */
  datatype Step = Stop(exit: BucketExit) | Retry(err: Error)

  /** One attempt to upload bucket `b` with key `k` when there are nodes: give up when it
      cannot be serialized; on success notify; on a topology signal back off, refresh the node
      count and stop; otherwise report the error for a retry. */
  function Attempt(env: Env, w: Engine, k: int, b: seq<Packed>, ra: nat): (r: (Engine, Step))
    requires w.totalNodes != 0
  {
    if !env.marshals(b) then (NotifyFailure(env, w, b, MarshalFailed), Stop(Unmarshalable))
    else
      var w1 := w.(requests := w.requests + [Request(k % w.totalNodes, w.totalNodes, b)]);
      var result := UploadResult(env.respond(|w.requests|));
      if result.None? then (NotifySuccess(env, w1, b), Stop(Delivered))
      else if IsTopologySignal(result.value) then
        var d := TopologyBackoffMs(ra);
        var w2 := if d > 0 then w1.(pauses := w1.pauses + [Sleep(d)]) else w1;
        (Refresh(env, w2), Stop(TopologyChange))
      else (w1, Retry(result.value))
  }

  /** After failed attempt `i`: on the last attempt notify the failure, then wait for the
      retry timer or the quit channel (`closed` is whether quit is already closed); when quit
      wins, notify the failure (again) and report that the send ends. */
  function AfterFailure(env: Env, closed: bool, w: Engine, b: seq<Packed>, err: Error, i: nat): (r: (Engine, bool))
  {
    var w1 := if i == Attempts - 1 then NotifyFailure(env, w, b, err) else w;
    var quit := closed || env.quitWins(w1.waits);
    var w2 := w1.(waits := w1.waits + 1, pauses := w1.pauses + [RetryWait(env.retryAfter(i), quit)]);
    if quit then (NotifyFailure(env, w2, b, err), true) else (w2, false)
  }

  /** The retry loop for one bucket, entered when `start` uploads had been made in all: every
      attempt that is not skipped uploads once, so the attempt number is the number of
      uploads made since. The node count does not change between two attempts, so a zero node
      count skips every remaining attempt. `last` is the error of the latest failed attempt. */
  function BucketLoop(env: Env, closed: bool, w: Engine, k: int, b: seq<Packed>, ra: nat, start: nat, last: Option<Error>): (r: (Engine, BucketExit))
    requires start <= |w.requests| <= start + Attempts
    decreases start + Attempts - |w.requests|, 0
  {
    var i := |w.requests| - start;
    if i == Attempts || w.totalNodes == 0 then (w, if last.Some? then Exhausted(last.value) else Skipped)
    else
      var (w1, step) := Attempt(env, w, k, b, ra);
      match step
      case Stop(exit) => (w1, exit)
      case Retry(err) =>
        var (w2, quit) := AfterFailure(env, closed, w1, b, err, i);
        if quit then (w2, QuitDuringWait(err)) else Retried(env, closed, w2, k, b, ra, start, Some(err))
  }

  /** The retry loop going on after a failed attempt. It is BucketLoop again, kept apart
      only so that the solver unfolds one attempt at a time. */
  function Retried(env: Env, closed: bool, w: Engine, k: int, b: seq<Packed>, ra: nat, start: nat, last: Option<Error>): (r: (Engine, BucketExit))
    requires start <= |w.requests| <= start + Attempts
    decreases start + Attempts - |w.requests|, 1
  {
    BucketLoop(env, closed, w, k, b, ra, start, last)
  }

  // ---------------------------------------------------------------- send

  /** How one call of send ended. */
  datatype SendExit =
    | Completed   // every bucket was handled
    | Aborted     // getNodePayload faulted (no nodes); the panic is recovered by sendAsync's task
    | Quitted     // the client was closed during a retry wait
    | OutOfFuel   // the chain of topology-change re-sends reached its budget

  /** The stamping loop of send: a message whose sent-at time cannot be set is reported as a
      failure on its own, and is still routed. */
  function Stamp(env: Env, w: Engine, msgs: seq<Packed>): (r: Engine)
    ensures r == w.(notices := r.notices) && w.notices <= r.notices
  {
    if msgs == [] then w
    else
      var r0 := Stamp(env, w, msgs[..|msgs| - 1]);
      var q := msgs[|msgs| - 1];
      if q.json.stampError.Some? then NotifyFailure(env, r0, [q], StampFailed(q.json.stampError.value)) else r0
  }

  /** The stamp failures of a batch, as the callback is told them: the reference definition. */
  function StampFailures(msgs: seq<Packed>): seq<Notice> {
    if msgs == [] then []
    else
      var q := msgs[|msgs| - 1];
      StampFailures(msgs[..|msgs| - 1])
        + (if q.json.stampError.Some? then [Failed(q.msg, StampFailed(q.json.stampError.value))] else [])
  }

  /** The order in which a range over a payload visits its keys: the environment's choice when
      it is an enumeration of the keys, the order of first appearance otherwise. */
  function IterationOrder(env: Env, j: nat, keys: seq<int>): (r: seq<int>)
    ensures multiset(r) == multiset(keys)
    ensures forall k :: k in r <==> k in keys
  {
    var o := env.order(j, keys);
    if multiset(o) == multiset(keys) then
      assert forall k :: k in o <==> k in multiset(o);
      o
    else keys
  }

  predicate WellFormed(p: Payload) {
    forall k :: k in p.keys ==> k in p.buckets
  }

  /** A call send(msgs, ra), as sendAsync's task and a re-send make it. It is SendSpec again,
      kept apart only so that the solver unfolds one send at a time. */
  function Send(env: Env, closed: bool, w: Engine, msgs: seq<Packed>, ra: nat, fuel: nat): (r: (Engine, SendExit))
    decreases fuel, 1, 1
  {
    SendSpec(env, closed, w, msgs, ra, fuel)
  }

  /** The body of send(msgs, ra), with `fuel` bounding how many topology-change re-sends may
      follow. */
  function SendSpec(env: Env, closed: bool, w: Engine, msgs: seq<Packed>, ra: nat, fuel: nat): (r: (Engine, SendExit))
    decreases fuel, 1, 0
  {
    var w1 := Stamp(env, w, msgs);
    var routed := Route(msgs, w1.totalNodes, env.hash);
    if routed.None? then (w1, Aborted)
    else
      var p := routed.value;
      assert WellFormed(p) by {
        if w1.totalNodes != 0 { RouteShape(msgs, w1.totalNodes, env.hash); }
      }
      BucketsSpec(env, closed, w1.(ranges := w1.ranges + 1), p, IterationOrder(env, w1.ranges, p.keys), ra, fuel)
  }

  /** The range over the node payload `p`, with the keys `rest` still to visit. */
  function BucketsSpec(env: Env, closed: bool, w: Engine, p: Payload, rest: seq<int>, ra: nat, fuel: nat): (r: (Engine, SendExit))
    requires WellFormed(p)
    requires forall k :: k in rest ==> k in p.buckets
    decreases fuel, 0, |rest|
  {
    if rest == [] then (w, Completed)
    else
      var k := rest[0];
      var (w1, exit) := BucketLoop(env, closed, w, k, p.buckets[k], ra, |w.requests|, None);
      match exit
      case TopologyChange => if fuel == 0 then (w1, OutOfFuel) else Resend(env, closed, w1, p, k, ra + 1, fuel - 1)
      case QuitDuringWait(_) => (w1, Quitted)
      case _ => BucketsSpec(env, closed, w1, p, rest[1..], ra, fuel)
  }

  /** The re-send after bucket `k` reported a topology change: getRevisedMsgs over a fresh
      range of the payload, then send with the next retry attempt `ra`. */
  function Resend(env: Env, closed: bool, w: Engine, p: Payload, k: int, ra: nat, fuel: nat): (r: (Engine, SendExit))
    requires WellFormed(p)
    decreases fuel, 2, 0
  {
    var revised := IterationOrder(env, w.ranges, p.keys);
    Send(env, closed, w.(ranges := w.ranges + 1), Collect(p.buckets, revised, k), ra, fuel)
  }
}
