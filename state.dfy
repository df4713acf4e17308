/** The state the client's engine works on, the environment it consults, and the callback
    notifications (notifySuccess, notifyFailure). */
module State {
  import opened Wrappers
  import opened Errors
  import opened Messages
  import opened Routing
  import opened Transport

  /** One callback invocation: Success(msg) or Failure(msg, err). */
  datatype Notice = Succeeded(msg: Event) | Failed(msg: Event, err: Error)

  /** One POST of a sub-batch: the RS-targetNode and RS-nodeCount headers and the batch. */
  datatype Request = Request(targetNode: int, nodeCount: int, batch: seq<Packed>)

  /** A wait of the engine: a plain sleep, or the select between the retry timer and the quit
      channel, with which of the two fired. */
  datatype Pause = Sleep(ms: nat) | RetryWait(ms: nat, quit: bool)

  /** Everything outside the client's own logic, as functions. Each answer is looked up by a
      cursor of the client's state, so that successive calls may answer differently:
      - `respond(j)`: the outcome of the j-th upload (j counts all uploads so far);
      - `clusterInfo(j)`: the j-th cluster-info query, None when it fails;
      - `quitWins(j)`: whether the j-th retry wait is ended by the quit channel (a Close that
        happens during the wait) rather than by the timer;
      - `retryAfter(i)`: Config.RetryAfter for attempt i, in milliseconds;
      - `order(j, keys)`: the order in which the j-th range over a node payload visits its keys;
      - `accepts(j)`: whether the executor has a free slot for the j-th submitted batch;
      - `makeMessage`: serialization and size check of one message (MaxMessageBytes);
      - `cut(pending, q)`: how many messages messageQueue.push hands back as a full batch
        when `q` joins the pending ones (0: none);
      - `validate`: the known kinds' Validate;
      - `marshals(b)`: whether json.Marshal of a sub-batch succeeds;
      - `hash`: crc32.ChecksumIEEE of the shard string;
      - `passBudget`: how many topology-change re-sends one send may chain. */
  datatype Env = Env(
    callback: bool,
    hash: string -> nat,
    marshals: seq<Packed> -> bool,
    respond: nat -> Response,
    clusterInfo: nat -> Option<int>,
    quitWins: nat -> bool,
    retryAfter: nat -> nat,
    order: (nat, seq<int>) -> seq<int>,
    accepts: nat -> bool,
    makeMessage: Event -> Result<Json, Error>,
    cut: (seq<Packed>, Packed) -> nat,
    validate: Event -> Option<Error>,
    passBudget: nat)

  /** The part of the client the send engine reads and writes: the node count, the effects
      so far (callback notices, uploads, waits) and the cursors into `Env` it advances. */
  datatype Engine = Engine(
    totalNodes: int,
    notices: seq<Notice>,
    requests: seq<Request>,
    pauses: seq<Pause>,
    queries: nat,
    waits: nat,
    ranges: nat)

  /** The whole client: `quitClosed` and `msgsClosed` are the quit and msgs channels being
      closed; `channel` is what the msgs channel holds; `pending` is what the message queue
      holds; `batches` lists every batch handed to sendAsync; `submissions` counts the batches
      offered to the executor. */
  datatype World = World(
    quitClosed: bool,
    msgsClosed: bool,
    channel: seq<Event>,
    pending: seq<Packed>,
    batches: seq<seq<Packed>>,
    submissions: nat,
    engine: Engine)

  /** A freshly constructed client: open channels, nothing queued, one node. */
  function Initial(): (w: World)
    ensures !w.quitClosed && !w.msgsClosed && w.channel == [] && w.pending == [] && w.batches == []
    ensures w.engine.totalNodes == 1 && w.engine.notices == [] && w.engine.requests == []
  {
    World(false, false, [], [], [], 0, Engine(1, [], [], [], 0, 0, 0))
  }

  /** The callback's Success invocations for a batch, one per message, in order. */
  function SuccessNotices(msgs: seq<Packed>): (r: seq<Notice>)
    ensures |r| == |msgs|
    ensures forall i :: 0 <= i < |msgs| ==> r[i] == Succeeded(msgs[i].msg)
  {
    if msgs == [] then [] else SuccessNotices(msgs[..|msgs| - 1]) + [Succeeded(msgs[|msgs| - 1].msg)]
  }

  /** The callback's Failure invocations for a batch, one per message, in order, all with `err`. */
  function FailureNotices(msgs: seq<Packed>, err: Error): (r: seq<Notice>)
    ensures |r| == |msgs|
    ensures forall i :: 0 <= i < |msgs| ==> r[i] == Failed(msgs[i].msg, err)
  {
    if msgs == [] then [] else FailureNotices(msgs[..|msgs| - 1], err) + [Failed(msgs[|msgs| - 1].msg, err)]
  }

  /** What the callback hears: the notices when a callback is configured, nothing otherwise. */
  function Heard(env: Env, ns: seq<Notice>): seq<Notice> {
    if env.callback then ns else []
  }

  /** notifySuccess. */
  function NotifySuccess(env: Env, w: Engine, msgs: seq<Packed>): (r: Engine)
    ensures r == w.(notices := w.notices + Heard(env, SuccessNotices(msgs)))
  {
    if env.callback then w.(notices := w.notices + SuccessNotices(msgs)) else w
  }

  /** notifyFailure. */
  function NotifyFailure(env: Env, w: Engine, msgs: seq<Packed>, err: Error): (r: Engine)
    ensures r == w.(notices := w.notices + Heard(env, FailureNotices(msgs, err)))
  {
    if env.callback then w.(notices := w.notices + FailureNotices(msgs, err)) else w
  }

  /** The messages of a batch, as the callback sees them. */
  function EventsOf(msgs: seq<Packed>): set<Event> {
    set q | q in msgs :: q.msg
  }

  /** Notices of a batch concern exactly the batch's messages. */
  lemma {:induction false} NoticesConcern(msgs: seq<Packed>, err: Error)
    ensures forall n :: n in SuccessNotices(msgs) <==> n.Succeeded? && n.msg in EventsOf(msgs)
    ensures forall n :: n in FailureNotices(msgs, err) <==> n == Failed(n.msg, err) && n.msg in EventsOf(msgs)
  {
    var s := SuccessNotices(msgs);
    var f := FailureNotices(msgs, err);
    forall n ensures n in s <==> n.Succeeded? && n.msg in EventsOf(msgs) {
      if n.Succeeded? && n.msg in EventsOf(msgs) {
        var q :| q in msgs && q.msg == n.msg;
        var i :| 0 <= i < |msgs| && msgs[i] == q;
        assert s[i] == n;
      }
    }
    forall n ensures n in f <==> n == Failed(n.msg, err) && n.msg in EventsOf(msgs) {
      if n == Failed(n.msg, err) && n.msg in EventsOf(msgs) {
        var q :| q in msgs && q.msg == n.msg;
        var i :| 0 <= i < |msgs| && msgs[i] == q;
        assert f[i] == n;
      }
    }
  }

  /** Notices of consecutive batches are the concatenation of their notices. */
  lemma {:induction false} NoticesConcat(a: seq<Packed>, b: seq<Packed>, err: Error)
    ensures SuccessNotices(a + b) == SuccessNotices(a) + SuccessNotices(b)
    ensures FailureNotices(a + b, err) == FailureNotices(a, err) + FailureNotices(b, err)
  {
  }
}
