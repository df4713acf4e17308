/** The coordinator: Enqueue's hand-off onto the msgs channel, the loop's three events (a
    message arrives, the ticker fires, quit is closed), push, flush, sendAsync and Close. The
    loop runs sequentially: a batch handed to sendAsync is sent to completion before the loop
    goes on. */
module Coordinator {
  import opened Wrappers
  import opened Errors
  import opened Messages
  import opened Routing
  import opened State
  import opened Dispatch
  import opened DispatchProofs

  /** What Enqueue returns: nil, an error, or a panic that reaches the caller (a nil pointer
      to a known kind makes the nil message's Validate panic). */
  datatype EnqueueResult = Accepted | Refused(err: Error) | Panicked

  /** The serialized form push reports a message with when makeMessage refused it (nil). */
  const NoJson: Json := Json(None, 0, None)

  /** Every batch of `bs` in turn, as one sequence. */
  function Flatten(bs: seq<seq<Packed>>): seq<Packed> {
    if bs == [] then [] else Flatten(bs[..|bs| - 1]) + bs[|bs| - 1]
  }

  lemma FlattenSnoc(bs: seq<seq<Packed>>, b: seq<Packed>)
    ensures Flatten(bs + [b]) == Flatten(bs) + b
  {
    assert (bs + [b])[..|bs|] == bs;
  }

  // ---------------------------------------------------------------- the message queue

  /** messageQueue.push (defined outside this model): `q` joins the pending messages, and the
      first `cut` of them, if any, come back as a full batch. The environment chooses the cut
      (it depends on the batch size and byte limits); it is clamped to what is there. */
  function QueuePush(env: Env, pending: seq<Packed>, q: Packed): (r: (seq<Packed>, Option<seq<Packed>>))
    ensures r.1.Some? ==> r.1.value != [] && r.1.value + r.0 == pending + [q]
    ensures r.1.None? ==> r.0 == pending + [q]
  {
    var all := pending + [q];
    var n := if env.cut(pending, q) > |all| then |all| else env.cut(pending, q);
    if n == 0 then (all, None) else (all[n..], Some(all[..n]))
  }

  // ---------------------------------------------------------------- sendAsync, push, flush

  /** sendAsync: offer the batch to the executor. Accepted, the task runs send(msgs, 0) (a
      recovered panic, Aborted, ends it like any other exit); refused, every message of the
      batch fails with ErrTooManyRequests. */
  function SendAsyncSpec(env: Env, w: World, msgs: seq<Packed>): (r: World)
    ensures r.channel == w.channel && r.pending == w.pending
    ensures r.quitClosed == w.quitClosed && r.msgsClosed == w.msgsClosed
    ensures r.batches == w.batches + [msgs] && r.submissions == w.submissions + 1
  {
    var w1 := w.(batches := w.batches + [msgs], submissions := w.submissions + 1);
    if env.accepts(w.submissions) then
      w1.(engine := Send(env, w.quitClosed, w.engine, msgs, 0, env.passBudget).0)
    else
      w1.(engine := NotifyFailure(env, w.engine, msgs, TooManyRequests))
  }

  /** push: serialize the message (a refusal is reported to the callback with the message
      alone) and queue it, handing a batch that comes back to sendAsync. */
  function PushSpec(env: Env, w: World, m: Event): (r: World)
    ensures r.channel == w.channel
    ensures r.quitClosed == w.quitClosed && r.msgsClosed == w.msgsClosed
  {
    match env.makeMessage(m)
    case Err(e) => w.(engine := NotifyFailure(env, w.engine, [Packed(m, NoJson)], e))
    case Ok(json) =>
      var (pending, out) := QueuePush(env, w.pending, Packed(m, json));
      var w1 := w.(pending := pending);
      if out.Some? then SendAsyncSpec(env, w1, out.value) else w1
  }

  /** flush: whatever is pending, if anything, goes to sendAsync as one batch. */
  function FlushSpec(env: Env, w: World): (r: World)
    ensures r.pending == [] && r.channel == w.channel
    ensures r.quitClosed == w.quitClosed && r.msgsClosed == w.msgsClosed
  {
    if w.pending == [] then w else SendAsyncSpec(env, w.(pending := []), w.pending)
  }

  // ---------------------------------------------------------------- the loop's events

  /** A message arrives on the msgs channel: the oldest one is pushed. */
  function ReceiveSpec(env: Env, w: World): (r: World)
    requires w.channel != []
    ensures r.channel == w.channel[1..]
    ensures r.quitClosed == w.quitClosed && r.msgsClosed == w.msgsClosed
  {
    PushSpec(env, w.(channel := w.channel[1..]), w.channel[0])
  }

  /** The ticker fires: flush. */
  function TickSpec(env: Env, w: World): (r: World)
    ensures r.pending == [] && r.channel == w.channel
    ensures r.quitClosed == w.quitClosed && r.msgsClosed == w.msgsClosed
  {
    FlushSpec(env, w)
  }

  /** The drain after msgs is closed: every message still in the channel is pushed, in order. */
  function DrainSpec(env: Env, w: World): (r: World)
    ensures r.channel == [] && r.quitClosed == w.quitClosed && r.msgsClosed == w.msgsClosed
    decreases |w.channel|
  {
    if w.channel == [] then w else DrainSpec(env, ReceiveSpec(env, w))
  }

  /** quit is closed: close msgs, drain it, flush one last time. The loop then waits for the
      outstanding tasks, which have all run already here, and closes shutdown. */
  function ShutdownSpec(env: Env, w: World): (r: World)
    ensures r.channel == [] && r.pending == [] && r.msgsClosed
    ensures r.quitClosed == w.quitClosed
  {
    FlushSpec(env, DrainSpec(env, w.(msgsClosed := true)))
  }

  /** Close: closing quit a second time panics and is reported as ErrClosed; the first time
      the call returns nil once the loop has shut down. */
  function CloseSpec(env: Env, w: World): (r: (World, Option<Error>))
  {
    if w.quitClosed then (w, Some(Closed))
    else (ShutdownSpec(env, w.(quitClosed := true)), None)
  }

  /** Enqueue, once makeContext has given the admitted message the context `ctx`: the
      admission checks, then the hand-off, which panics on a closed channel and is reported
      as ErrClosed. `drawn` is what c.uid() and c.now() produced. */
  function EnqueueSpec(env: Env, w: World, msg: Message, drawn: Fresh, ctx: Context): (r: (World, EnqueueResult))
  {
    match Admit(msg, env.validate, drawn)
    case NilPanic => (w, Panicked)
    case Rejected(e) => (w, Refused(e))
    case Admitted(e) =>
      if w.msgsClosed then (w, Refused(Closed))
      else (w.(channel := w.channel + [e.(context := ctx)]), Accepted)
  }

  // ---------------------------------------------------------------- properties

  /** The channel states the coordinator can be in: quit and msgs are closed together (Close
      runs the whole shutdown), and a closed channel is empty. */
  predicate Consistent(w: World) {
    w.quitClosed == w.msgsClosed && (w.msgsClosed ==> w.channel == [])
  }

  lemma InitialConsistent()
    ensures Consistent(Initial())
  {
  }

  lemma ConsistentKept(env: Env, w: World, msg: Message, drawn: Fresh, ctx: Context)
    requires Consistent(w)
    ensures Consistent(EnqueueSpec(env, w, msg, drawn, ctx).0)
    ensures w.channel != [] ==> Consistent(ReceiveSpec(env, w))
    ensures Consistent(TickSpec(env, w))
    ensures Consistent(CloseSpec(env, w).0)
  {
  }

  /** A refused batch: the callback hears one ErrTooManyRequests failure per message, in
      order, and nothing is uploaded. */
  lemma SendAsyncRefused(env: Env, w: World, msgs: seq<Packed>)
    requires !env.accepts(w.submissions)
    ensures var r := SendAsyncSpec(env, w, msgs);
            && r.engine.requests == w.engine.requests
            && (env.callback ==> r.engine.notices == w.engine.notices + FailureNotices(msgs, TooManyRequests))
            && (!env.callback ==> r.engine.notices == w.engine.notices)
            && |r.engine.notices| == |w.engine.notices| + (if env.callback then |msgs| else 0)
  {
  }

  /** An accepted batch is sent with the next retry attempt 0 and, when the client is still
      open, with quit not yet closed. */
  lemma SendAsyncAccepted(env: Env, w: World, msgs: seq<Packed>)
    requires env.accepts(w.submissions)
    ensures SendAsyncSpec(env, w, msgs).engine == SendSpec(env, w.quitClosed, w.engine, msgs, 0, env.passBudget).0
  {
  }

  /** Whichever way the executor decides, what the callback hears about a batch handed to
      sendAsync concerns that batch's messages only. */
  lemma SendAsyncConcerns(env: Env, w: World, msgs: seq<Packed>)
    ensures NoticesWithin(w.engine, SendAsyncSpec(env, w, msgs).engine, Concerning(EventsOf(msgs)))
  {
    if env.accepts(w.submissions) {
      SendConcernsInput(env, w.quitClosed, w.engine, msgs, 0, env.passBudget, EventsOf(msgs));
      assert Send(env, w.quitClosed, w.engine, msgs, 0, env.passBudget) == SendSpec(env, w.quitClosed, w.engine, msgs, 0, env.passBudget);
    } else {
      NoticesConcern(msgs, TooManyRequests);
      var r := SendAsyncSpec(env, w, msgs);
      assert r.engine.notices[|w.engine.notices|..] == Heard(env, FailureNotices(msgs, TooManyRequests));
    }
  }

  /** A message makeMessage refuses is reported failed with the refusal, and queues nothing. */
  lemma PushRefused(env: Env, w: World, m: Event)
    requires env.makeMessage(m).Err?
    ensures var r := PushSpec(env, w, m);
            && r.pending == w.pending && r.batches == w.batches && r.engine.requests == w.engine.requests
            && r.engine.notices == w.engine.notices + Heard(env, [Failed(m, env.makeMessage(m).error)])
  {
    assert FailureNotices([Packed(m, NoJson)], env.makeMessage(m).error) == [Failed(m, env.makeMessage(m).error)];
  }

  /** The serialized messages of `events`, those makeMessage accepts, in order. */
  function Packs(env: Env, events: seq<Event>): seq<Packed> {
    if events == [] then []
    else
      var m := events[|events| - 1];
      Packs(env, events[..|events| - 1]) + (if env.makeMessage(m).Ok? then [Packed(m, env.makeMessage(m).value)] else [])
  }

  lemma PacksOne(env: Env, m: Event)
    ensures Packs(env, [m]) == if env.makeMessage(m).Ok? then [Packed(m, env.makeMessage(m).value)] else []
  {
    assert [m][..0] == [];
  }

  /** What push does to the submitted batches and the pending messages, in two cases. */
  lemma PushShape(env: Env, w: World, m: Event) returns (out: Option<seq<Packed>>)
    ensures var r := PushSpec(env, w, m);
            && (out.None? ==> r.batches == w.batches && r.pending == w.pending + Packs(env, [m]))
            && (out.Some? ==> r.batches == w.batches + [out.value] && out.value + r.pending == w.pending + Packs(env, [m]))
  {
    PacksOne(env, m);
    out := None;
    if env.makeMessage(m).Ok? {
      out := QueuePush(env, w.pending, Packed(m, env.makeMessage(m).value)).1;
    }
  }

  /** Sequence associativity, in the shape PushConserves needs; a proof helper only. */
  lemma Regroup(before: seq<Packed>, pending: seq<Packed>, added: seq<Packed>, v: seq<Packed>, rest: seq<Packed>)
    requires v + rest == pending + added
    ensures (before + v) + rest == (before + pending) + added
  {
    assert (before + v) + rest == before + (v + rest);
  }

  /** Nothing is lost or duplicated by push: what has gone to sendAsync followed by what is
      pending grows by exactly the serialized message. */
  lemma PushConserves(env: Env, w: World, m: Event)
    ensures var r := PushSpec(env, w, m);
            Flatten(r.batches) + r.pending == Flatten(w.batches) + w.pending + Packs(env, [m])
  {
    var r := PushSpec(env, w, m);
    var out := PushShape(env, w, m);
    if out.Some? {
      FlattenSnoc(w.batches, out.value);
      Regroup(Flatten(w.batches), w.pending, Packs(env, [m]), out.value, r.pending);
    } else {
      Regroup(Flatten(w.batches), w.pending, Packs(env, [m]), [], r.pending);
    }
  }

  /** Nor by flush: pending messages move, in order, to the end of what has gone to sendAsync. */
  lemma FlushConserves(env: Env, w: World)
    ensures var r := FlushSpec(env, w);
            Flatten(r.batches) == Flatten(w.batches) + w.pending
  {
    if w.pending != [] {
      FlattenSnoc(w.batches, w.pending);
    }
  }

  lemma PacksConcat(env: Env, a: seq<Event>, b: seq<Event>)
    ensures Packs(env, a + b) == Packs(env, a) + Packs(env, b)
    decreases |b|
  {
    if b == [] {
      assert a + b == a;
    } else {
      assert (a + b)[..|a + b| - 1] == a + b[..|b| - 1];
      PacksConcat(env, a, b[..|b| - 1]);
    }
  }

  /** What push has accepted so far: the batches handed to sendAsync, then the pending ones. */
  function Queued(w: World): seq<Packed> {
    Flatten(w.batches) + w.pending
  }

  lemma PacksCons(env: Env, events: seq<Event>)
    requires events != []
    ensures Packs(env, events) == Packs(env, [events[0]]) + Packs(env, events[1..])
  {
    PacksConcat(env, [events[0]], events[1..]);
    assert [events[0]] + events[1..] == events;
  }

  /** What push has accepted so far followed by what the channel still holds. */
  function Backlog(env: Env, w: World): seq<Packed> {
    Queued(w) + Packs(env, w.channel)
  }

  /** One message of the drain: the backlog does not change. */
  lemma DrainStep(env: Env, w: World) returns (w1: World)
    requires w.channel != []
    ensures |w1.channel| < |w.channel|
    ensures DrainSpec(env, w) == DrainSpec(env, w1)
    ensures Backlog(env, w1) == Backlog(env, w)
  {
    w1 := ReceiveSpec(env, w);
    PushConserves(env, w.(channel := w.channel[1..]), w.channel[0]);
    PacksCons(env, w.channel);
    var a, b, c := Queued(w), Packs(env, [w.channel[0]]), Packs(env, w1.channel);
    assert (a + b) + c == a + (b + c);
  }

  /** The drain pushes every message that was in the channel, in order. */
  lemma {:induction false} DrainConserves(env: Env, w: World)
    ensures Queued(DrainSpec(env, w)) == Backlog(env, w)
    decreases |w.channel|
  {
    if w.channel != [] {
      var w1 := DrainStep(env, w);
      DrainConserves(env, w1);
    } else {
      assert Queued(w) + [] == Queued(w);
    }
  }

  /** The first Close returns nil after the shutdown: both channels closed, nothing left in
      the channel or the queue, and every message that was queued or in the channel handed to
      sendAsync, in order. */
  lemma {:induction false} CloseDrains(env: Env, w: World)
    requires !w.quitClosed
    ensures var (r, err) := CloseSpec(env, w);
            && err.None? && r.quitClosed && r.msgsClosed && r.channel == [] && r.pending == []
            && Flatten(r.batches) == Flatten(w.batches) + w.pending + Packs(env, w.channel)
  {
    var w1 := w.(quitClosed := true, msgsClosed := true);
    DrainConserves(env, w1);
    FlushConserves(env, DrainSpec(env, w1));
    assert Queued(DrainSpec(env, w1)) == Flatten(DrainSpec(env, w1).batches) + DrainSpec(env, w1).pending;
  }

  /** A second Close reports ErrClosed and changes nothing. */
  lemma CloseTwice(env: Env, w: World)
    ensures var w1 := CloseSpec(env, w).0;
            CloseSpec(env, w1) == (w1, Some(Closed))
  {
  }

  /** After Close, a message that passes admission is refused with ErrClosed and changes
      nothing; admission errors still come first. */
  lemma EnqueueAfterClose(env: Env, w: World, msg: Message, drawn: Fresh, ctx: Context)
    requires Consistent(w) && w.quitClosed
    ensures Admit(msg, env.validate, drawn).Admitted? ==> EnqueueSpec(env, w, msg, drawn, ctx) == (w, Refused(Closed))
    ensures Admit(msg, env.validate, drawn).Rejected? ==>
              EnqueueSpec(env, w, msg, drawn, ctx) == (w, Refused(Admit(msg, env.validate, drawn).error))
  {
  }

  /** An open client takes an admitted message onto the end of the channel, normalized and
      with its context set, and nothing else changes. */
  lemma EnqueueOpen(env: Env, w: World, e: Event, drawn: Fresh, ctx: Context)
    requires !w.msgsClosed && env.validate(e).None?
    ensures var (r, res) := EnqueueSpec(env, w, Value(e), drawn, ctx);
            && res == Accepted
            && r == w.(channel := w.channel + [Normalize(e, drawn).(context := ctx)])
            && r.channel[|w.channel|].typ == KindName(e.kind)
            && r.channel[|w.channel|].sentAt == r.channel[|w.channel|].originalTimestamp
  {
  }
}
