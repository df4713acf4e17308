/** The client object: its fields are the coordinator's and the send engine's state, and each
    method performs one operation step by step, proved to leave the state its specification
    function describes. */
module Analytics {
  import opened Wrappers
  import opened Errors
  import opened Messages
  import opened Routing
  import opened Transport
  import opened State
  import opened Dispatch
  import opened DispatchProofs
  import opened Coordinator

  /** The context objects Enqueue may update: the one the caller's message holds, if any. */
  function ContextOf(msg: Message): set<object> {
    if Target(msg).Some? && Target(msg).value.context != null then {Target(msg).value.context} else {}
  }

  class Client {
    const env: Env

    var quitClosed: bool
    var msgsClosed: bool
    var channel: seq<Event>
    var pending: seq<Packed>
    var batches: seq<seq<Packed>>
    var submissions: nat

    var totalNodes: int
    var notices: seq<Notice>
    var requests: seq<Request>
    var pauses: seq<Pause>
    var queries: nat
    var waits: nat
    var ranges: nat

    /** The send engine's part of the fields. */
    ghost function EngineModel(): Engine
      reads this
    {
      Engine(totalNodes, notices, requests, pauses, queries, waits, ranges)
    }

    /** All the fields. */
    ghost function Model(): World
      reads this
    {
      World(quitClosed, msgsClosed, channel, pending, batches, submissions, EngineModel())
    }

    /** NewWithConfig, once the configuration is valid: open channels, one node. */
    constructor (env: Env)
      ensures this.env == env && Model() == Initial()
    {
      this.env := env;
      quitClosed, msgsClosed := false, false;
      channel, pending, batches, submissions := [], [], [], 0;
      totalNodes := 1;
      notices, requests, pauses := [], [], [];
      queries, waits, ranges := 0, 0, 0;
    }

    // ------------------------------------------------------------ callback

    method NotifySuccess(msgs: seq<Packed>)
      modifies this
      ensures Model() == old(Model()).(engine := State.NotifySuccess(env, old(EngineModel()), msgs))
    {
      if env.callback {
        var i := 0;
        while i < |msgs|
          invariant 0 <= i <= |msgs|
          invariant Model() == old(Model()).(engine := old(EngineModel()).(notices := old(notices) + SuccessNotices(msgs[..i])))
        {
          assert msgs[..i + 1][..i] == msgs[..i];
          notices := notices + [Succeeded(msgs[i].msg)];
          i := i + 1;
        }
        assert msgs[..i] == msgs;
      }
    }

    method NotifyFailure(msgs: seq<Packed>, err: Error)
      modifies this
      ensures Model() == old(Model()).(engine := State.NotifyFailure(env, old(EngineModel()), msgs, err))
    {
      if env.callback {
        var i := 0;
        while i < |msgs|
          invariant 0 <= i <= |msgs|
          invariant Model() == old(Model()).(engine := old(EngineModel()).(notices := old(notices) + FailureNotices(msgs[..i], err)))
        {
          assert msgs[..i + 1][..i] == msgs[..i];
          notices := notices + [Failed(msgs[i].msg, err)];
          i := i + 1;
        }
        assert msgs[..i] == msgs;
      }
    }

    // ------------------------------------------------------------ send engine

    /** Query `i` of setNodeCount, `start` being the number of queries made before it: pause
        unless it is the first, ask for the cluster info, and take the node count it gives.
        `found` tells whether it gave one. */
    method QueryNodeCount(i: nat, ghost start: nat) returns (found: bool)
      requires i < NodeCountAttempts && queries == start + i
      modifies this
      ensures queries == start + i + 1
      ensures found ==> EngineModel() == RefreshFrom(env, old(EngineModel()), start)
      ensures !found ==> RefreshFrom(env, EngineModel(), start) == RefreshFrom(env, old(EngineModel()), start)
      ensures Model() == old(Model()).(engine := EngineModel())
    {
      RefreshFromStep(env, EngineModel(), start);
      if i != 0 {
        pauses := pauses + [Sleep(NodeCountPauseMs)];
      }
      var answer := env.clusterInfo(queries);
      queries := queries + 1;
      found := answer.Some?;
      if found {
        totalNodes := answer.value;
      }
    }

    /** setNodeCount. */
    method SetNodeCount()
      modifies this
      ensures Model() == old(Model()).(engine := Refresh(env, old(EngineModel())))
    {
      ghost var start := queries;
      ghost var e0 := EngineModel();
      var i := 0;
      while i < NodeCountAttempts
        invariant 0 <= i <= NodeCountAttempts && queries == start + i
        invariant Model() == old(Model()).(engine := EngineModel())
        invariant RefreshFrom(env, EngineModel(), start) == RefreshFrom(env, e0, start)
      {
        var found := QueryNodeCount(i, start);
        if found {
          return;
        }
        i := i + 1;
      }
      assert RefreshFrom(env, EngineModel(), start) == EngineModel();
    }

    /** One attempt of the retry loop when there are nodes: serialize, upload, and on success
        notify; on a topology signal back off and refresh the node count. */
    method AttemptUpload(k: int, b: seq<Packed>, ra: nat) returns (step: Step)
      requires totalNodes != 0
      modifies this
      ensures (EngineModel(), step) == Attempt(env, old(EngineModel()), k, b, ra)
      ensures Model() == old(Model()).(engine := EngineModel())
    {
      if !env.marshals(b) {
        NotifyFailure(b, MarshalFailed);
        return Stop(Unmarshalable);
      }
      requests := requests + [Request(k % totalNodes, totalNodes, b)];
      var err := UploadResult(env.respond(|requests| - 1));
      if err.None? {
        NotifySuccess(b);
        return Stop(Delivered);
      }
      if IsTopologySignal(err.value) {
        var d := TopologyBackoffMs(ra);
        if d > 0 {
          pauses := pauses + [Sleep(d)];
        }
        SetNodeCount();
        return Stop(TopologyChange);
      }
      step := Retry(err.value);
    }

    /** After failed attempt `i`: the notice on the last attempt, then the wait for the retry
        timer or quit; `quit` tells whether quit ended it. */
    method WaitToRetry(b: seq<Packed>, err: Error, i: nat) returns (quit: bool)
      modifies this
      ensures (EngineModel(), quit) == AfterFailure(env, quitClosed, old(EngineModel()), b, err, i)
      ensures Model() == old(Model()).(engine := EngineModel())
    {
      if i == Attempts - 1 {
        NotifyFailure(b, err);
      }
      quit := Wait(i);
      if quit {
        NotifyFailure(b, err);
      }
    }

    /** The select between the retry timer of attempt `i` and quit. */
    method Wait(i: nat) returns (quit: bool)
      modifies this
      ensures quit == (quitClosed || env.quitWins(old(waits)))
      ensures EngineModel() == old(EngineModel()).(waits := old(waits) + 1, pauses := old(pauses) + [RetryWait(env.retryAfter(i), quit)])
      ensures Model() == old(Model()).(engine := EngineModel())
    {
      quit := quitClosed || env.quitWins(waits);
      waits := waits + 1;
      pauses := pauses + [RetryWait(env.retryAfter(i), quit)];
    }

    /** Attempt `i` of the retry loop when there are nodes, `start` being the number of uploads
        made before the loop: the attempt and, after a failure, the wait. `ended` is how the loop
        ended, None when it goes on after the failure `err`. */
    method AttemptOnce(k: int, b: seq<Packed>, ra: nat, i: nat, ghost start: nat, ghost last: Option<Error>)
        returns (ended: Option<BucketExit>, err: Error)
      requires totalNodes != 0 && |requests| == start + i && i < Attempts
      modifies this
      ensures ended.Some? ==> (EngineModel(), ended.value) == BucketLoop(env, quitClosed, old(EngineModel()), k, b, ra, start, last)
      ensures ended.None? ==> |requests| == old(|requests|) + 1 && totalNodes == old(totalNodes)
      ensures ended.None? ==> BucketLoop(env, quitClosed, old(EngineModel()), k, b, ra, start, last)
                              == BucketLoop(env, quitClosed, EngineModel(), k, b, ra, start, Some(err))
      ensures Model() == old(Model()).(engine := EngineModel())
    {
      ghost var e := EngineModel();
      var step := AttemptUpload(k, b, ra);
      if step.Stop? {
        LoopStops(env, quitClosed, e, k, b, ra, start, last, EngineModel(), step.exit);
        return Some(step.exit), MarshalFailed;
      }
      ghost var e1 := EngineModel();
      err := step.err;
      var quit := WaitToRetry(b, err, i);
      if quit {
        LoopQuits(env, quitClosed, e, k, b, ra, start, last, e1, err, EngineModel());
        return Some(QuitDuringWait(err)), err;
      }
      LoopRetries(env, quitClosed, e, k, b, ra, start, last, e1, err, EngineModel());
      ended := None;
    }

    /** The retry loop of send for the bucket `b` with key `k`. */
    method TryBucket(k: int, b: seq<Packed>, ra: nat) returns (exit: BucketExit)
      modifies this
      ensures (EngineModel(), exit) == BucketLoop(env, quitClosed, old(EngineModel()), k, b, ra, old(|requests|), None)
      ensures Model() == old(Model()).(engine := EngineModel())
    {
      ghost var start := |requests|;
      ghost var e0 := EngineModel();
      var last: Option<Error> := None;
      var i := 0;
      while i != Attempts
        invariant 0 <= i <= Attempts
        invariant Model() == old(Model()).(engine := EngineModel())
        invariant totalNodes == e0.totalNodes
        invariant totalNodes != 0 ==> |requests| == start + i
        invariant totalNodes == 0 ==> EngineModel() == e0 && last.None?
        invariant BucketLoop(env, quitClosed, EngineModel(), k, b, ra, start, last)
               == BucketLoop(env, quitClosed, e0, k, b, ra, start, None)
      {
        if totalNodes == 0 {
          i := i + 1;
          continue;
        }
        var ended, err := AttemptOnce(k, b, ra, i, start, last);
        if ended.Some? {
          return ended.value;
        }
        last := Some(err);
        i := i + 1;
      }
      exit := if last.Some? then Exhausted(last.value) else Skipped;
    }

    /** The stamping loop of send. */
    method StampAll(msgs: seq<Packed>)
      modifies this
      ensures Model() == old(Model()).(engine := Stamp(env, old(EngineModel()), msgs))
    {
      var j := 0;
      while j < |msgs|
        invariant 0 <= j <= |msgs|
        invariant Model() == old(Model()).(engine := Stamp(env, old(EngineModel()), msgs[..j]))
      {
        assert msgs[..j + 1][..j] == msgs[..j];
        var stampError := msgs[j].json.stampError;
        if stampError.Some? {
          NotifyFailure([msgs[j]], StampFailed(stampError.value));
        }
        j := j + 1;
      }
      assert msgs[..j] == msgs;
    }

    /** send(msgs, ra), with `fuel` re-sends left: stamp, route, and range over the payload. */
    method Send(msgs: seq<Packed>, ra: nat, fuel: nat) returns (exit: SendExit)
      modifies this
      ensures (EngineModel(), exit) == SendSpec(env, quitClosed, old(EngineModel()), msgs, ra, fuel)
      ensures Model() == old(Model()).(engine := EngineModel())
      decreases fuel, 1, 0
    {
      ghost var e0 := EngineModel();
      StampAll(msgs);
      ghost var e1 := EngineModel();
      var routed := GetNodePayload(msgs, totalNodes, env.hash);
      if routed.None? {
        SendStepAborted(env, quitClosed, e0, msgs, ra, fuel);
        return Aborted;
      }
      var p := routed.value;
      SendStepRouted(env, quitClosed, e0, msgs, ra, fuel, e1, p);
      var order := IterationOrder(env, ranges, p.keys);
      ranges := ranges + 1;
      exit := RangeOver(p, order, ra, fuel);
    }

    /** The range over the node payload `p`, visiting its keys in `order`: each bucket's retry
        loop in turn, until a close during a wait or a topology change ends it. */
    method RangeOver(p: Payload, order: seq<int>, ra: nat, fuel: nat) returns (exit: SendExit)
      requires WellFormed(p)
      requires forall key :: key in order ==> key in p.buckets
      modifies this
      ensures (EngineModel(), exit) == BucketsSpec(env, quitClosed, old(EngineModel()), p, order, ra, fuel)
      ensures Model() == old(Model()).(engine := EngineModel())
      decreases fuel, 0, 1
    {
      ghost var e0 := EngineModel();
      var rest := order;
      while rest != []
        invariant forall key :: key in rest ==> key in p.buckets
        invariant Model() == old(Model()).(engine := EngineModel())
        invariant BucketsSpec(env, quitClosed, e0, p, order, ra, fuel) == BucketsSpec(env, quitClosed, EngineModel(), p, rest, ra, fuel)
        decreases |rest|
      {
        var ended := VisitBucket(p, rest, ra, fuel);
        if ended.Some? {
          return ended.value;
        }
        rest := rest[1..];
      }
      exit := Completed;
    }

    /** The first bucket of `rest`: its retry loop, and the re-send when it reports a topology
        change. `ended` is how the range ended, None when it goes on with the next key. */
    method VisitBucket(p: Payload, rest: seq<int>, ra: nat, fuel: nat) returns (ended: Option<SendExit>)
      requires WellFormed(p) && rest != []
      requires forall key :: key in rest ==> key in p.buckets
      modifies this
      ensures ended.Some? ==> (EngineModel(), ended.value) == BucketsSpec(env, quitClosed, old(EngineModel()), p, rest, ra, fuel)
      ensures ended.None? ==> BucketsSpec(env, quitClosed, old(EngineModel()), p, rest, ra, fuel)
                              == BucketsSpec(env, quitClosed, EngineModel(), p, rest[1..], ra, fuel)
      ensures forall key :: key in rest[1..] ==> key in p.buckets
      ensures Model() == old(Model()).(engine := EngineModel())
      decreases fuel, 0, 0
    {
      assert rest[0] in rest;
      var k := rest[0];
      ghost var e := EngineModel();
      var bucketExit := TryBucket(k, p.buckets[k], ra);
      if bucketExit == TopologyChange && fuel != 0 {
        BucketsStepResend(env, quitClosed, e, p, rest, ra, fuel, EngineModel());
        var exit := ResendAfter(p, k, ra + 1, fuel - 1);
        return Some(exit);
      }
      if bucketExit == TopologyChange || bucketExit.QuitDuringWait? {
        BucketsStepEnd(env, quitClosed, e, p, rest, ra, fuel, EngineModel(), bucketExit);
        return Some(if bucketExit.QuitDuringWait? then Quitted else OutOfFuel);
      }
      BucketsStepNext(env, quitClosed, e, p, rest, ra, fuel, EngineModel(), bucketExit);
      ended := None;
    }

    /** The re-send after the bucket with key `k` reported a topology change: getRevisedMsgs
        over a fresh range of the payload, then send with retry attempt `ra`. */
    method ResendAfter(p: Payload, k: int, ra: nat, fuel: nat) returns (exit: SendExit)
      requires WellFormed(p)
      modifies this
      ensures (EngineModel(), exit) == Resend(env, quitClosed, old(EngineModel()), p, k, ra, fuel)
      ensures Model() == old(Model()).(engine := EngineModel())
      decreases fuel, 2, 0
    {
      var revised := GetRevisedMsgs(p.buckets, IterationOrder(env, ranges, p.keys), k);
      ranges := ranges + 1;
      ghost var e := EngineModel();
      exit := Send(revised, ra, fuel);
      assert Dispatch.Send(env, quitClosed, e, revised, ra, fuel) == SendSpec(env, quitClosed, e, revised, ra, fuel);
    }

    // ------------------------------------------------------------ coordinator

    /** sendAsync. */
    method SendAsync(msgs: seq<Packed>)
      modifies this
      ensures Model() == SendAsyncSpec(env, old(Model()), msgs)
    {
      var slot := submissions;
      batches := batches + [msgs];
      submissions := submissions + 1;
      if env.accepts(slot) {
        var exit := Send(msgs, 0, env.passBudget);
      } else {
        NotifyFailure(msgs, TooManyRequests);
      }
    }

    /** push. */
    method Push(m: Event)
      modifies this
      ensures Model() == PushSpec(env, old(Model()), m)
    {
      var made := env.makeMessage(m);
      if made.Err? {
        NotifyFailure([Packed(m, NoJson)], made.error);
        return;
      }
      var (rest, full) := QueuePush(env, pending, Packed(m, made.value));
      pending := rest;
      if full.Some? {
        SendAsync(full.value);
      }
    }

    /** flush. */
    method Flush()
      modifies this
      ensures Model() == FlushSpec(env, old(Model()))
    {
      if pending != [] {
        var msgs := pending;
        pending := [];
        SendAsync(msgs);
      }
    }

    /** The loop takes a message off the msgs channel. */
    method Receive()
      requires channel != []
      modifies this
      ensures Model() == ReceiveSpec(env, old(Model()))
    {
      var m := channel[0];
      channel := channel[1..];
      Push(m);
    }

    /** The loop sees the ticker fire. */
    method Tick()
      modifies this
      ensures Model() == TickSpec(env, old(Model()))
    {
      Flush();
    }

    /** Close: close quit; the loop then closes msgs, drains it and flushes. */
    method Close() returns (err: Option<Error>)
      modifies this
      ensures (Model(), err) == CloseSpec(env, old(Model()))
    {
      if quitClosed {
        return Some(Closed);
      }
      quitClosed := true;
      msgsClosed := true;
      ghost var drained := Model();
      while channel != []
        invariant DrainSpec(env, Model()) == DrainSpec(env, drained)
        decreases |channel|
      {
        Receive();
      }
      Flush();
      err := None;
    }

    /** Enqueue: admission, makeContext on the admitted message's context (in place), then the
        hand-off. `drawn` is what c.uid() and c.now() return; `ctx` is the context the message
        is handed off with. */
    method Enqueue(msg: Message, drawn: Fresh) returns (res: EnqueueResult, ghost ctx: Context?)
      modifies this, ContextOf(msg)
      ensures Admit(msg, env.validate, drawn).Admitted? ==>
                && ctx != null && ctx.library == LibraryInfo(LibraryName, Version)
                && (Target(msg).value.context != null ==> ctx == Target(msg).value.context)
                && (Model(), res) == EnqueueSpec(env, old(Model()), msg, drawn, ctx)
      ensures Admit(msg, env.validate, drawn).NilPanic? ==> Model() == old(Model()) && res == Panicked
      ensures Admit(msg, env.validate, drawn).Rejected? ==>
                Model() == old(Model()) && res == Refused(Admit(msg, env.validate, drawn).error)
    {
      ctx := null;
      match Admit(msg, env.validate, drawn)
      case NilPanic =>
        res := Panicked;
      case Rejected(e) =>
        res := Refused(e);
      case Admitted(e) =>
        var context := MakeContext(e.context);
        ctx := context;
        if msgsClosed {
          return Refused(Closed), ctx;
        }
        channel := channel + [e.(context := context)];
        res := Accepted;
    }
  }
}
