/** What the send engine guarantees: the outcome of setNodeCount, the effects of each way a
    bucket's retry loop can end, and what a whole send can tell the callback. */
module DispatchProofs {
  import opened Wrappers
  import opened Errors
  import opened Messages
  import opened Routing
  import opened Transport
  import opened State
  import opened Dispatch

  /** Which notices a stretch of the callback's history may hold: only notices about the given
      messages, or only stamp failures. */
  datatype Filter = Concerning(events: set<Event>) | StampFailuresOnly

  predicate Admits(f: Filter, n: Notice) {
    match f
    case Concerning(s) => n.msg in s
    case StampFailuresOnly => n.Failed? && n.err.StampFailed?
  }

  /** `r` extends `w`'s notices, and every notice appended passes `f`. */
  predicate NoticesWithin(w: Engine, r: Engine, f: Filter) {
    w.notices <= r.notices && forall n :: n in r.notices[|w.notices|..] ==> Admits(f, n)
  }

  lemma NoticesWithinChain(a: Engine, b: Engine, c: Engine, f: Filter)
    requires NoticesWithin(a, b, f) && NoticesWithin(b, c, f)
    ensures NoticesWithin(a, c, f)
  {
    assert c.notices[|a.notices|..] == b.notices[|a.notices|..] + c.notices[|b.notices|..];
  }

  lemma NoticesWithinWiden(w: Engine, r: Engine, a: set<Event>, b: set<Event>)
    requires NoticesWithin(w, r, Concerning(a)) && a <= b
    ensures NoticesWithin(w, r, Concerning(b))
  {
  }

  // ---------------------------------------------------------------- setNodeCount

  /** One query of setNodeCount, unfolded. */
  lemma RefreshFromStep(env: Env, w: Engine, start: nat)
    requires start <= w.queries < start + NodeCountAttempts
    ensures var w1 := if w.queries != start then w.(pauses := w.pauses + [Sleep(NodeCountPauseMs)]) else w;
      var w2 := w1.(queries := w1.queries + 1);
      && (env.clusterInfo(w.queries).Some? ==> RefreshFrom(env, w, start) == w2.(totalNodes := env.clusterInfo(w.queries).value))
      && (env.clusterInfo(w.queries).None? ==> RefreshFrom(env, w, start) == RefreshFrom(env, w2, start))
  {
  }

  lemma SleepsGrow(count: nat)
    ensures [Sleep(NodeCountPauseMs)] + Sleeps(count) == Sleeps(count + 1)
  {
    assert forall i :: 0 <= i < count + 1 ==> ([Sleep(NodeCountPauseMs)] + Sleeps(count))[i] == Sleep(NodeCountPauseMs);
  }

  /** setNodeCount past its first attempt: every further attempt pauses first. */
  lemma {:induction false} RefreshFromOutcome(env: Env, w: Engine, start: nat)
    requires start < w.queries <= start + NodeCountAttempts
    ensures var r := RefreshFrom(env, w, start);
      var used := r.queries - w.queries;
      && r.queries <= start + NodeCountAttempts
      && (w.queries < start + NodeCountAttempts ==> 1 <= used)
      && (forall j :: w.queries <= j < r.queries - 1 ==> env.clusterInfo(j).None?)
      && (used >= 1 && env.clusterInfo(r.queries - 1).Some? ==> r.totalNodes == env.clusterInfo(r.queries - 1).value)
      && (used == 0 || env.clusterInfo(r.queries - 1).None? ==>
            r.queries == start + NodeCountAttempts && r.totalNodes == w.totalNodes)
      && r == w.(totalNodes := r.totalNodes, queries := r.queries, pauses := w.pauses + Sleeps(used))
    decreases start + NodeCountAttempts - w.queries
  {
    if w.queries < start + NodeCountAttempts {
      var w1 := w.(pauses := w.pauses + [Sleep(NodeCountPauseMs)]);
      var w2 := w1.(queries := w1.queries + 1);
      if env.clusterInfo(w.queries).None? {
        assert RefreshFrom(env, w, start) == RefreshFrom(env, w2, start);
        RefreshFromOutcome(env, w2, start);
        var r := RefreshFrom(env, w2, start);
        SleepsGrow(r.queries - w2.queries);
        assert w.pauses + Sleeps(r.queries - w.queries) == w2.pauses + Sleeps(r.queries - w2.queries);
      } else {
        assert RefreshFrom(env, w, start) == w2.(totalNodes := env.clusterInfo(w.queries).value);
        assert Sleeps(1) == [Sleep(NodeCountPauseMs)];
      }
    } else {
      assert RefreshFrom(env, w, start) == w;
    }
  }

  /** setNodeCount queries the cluster up to ten times, up to and including the first answer,
      pausing 200 ms between queries; the node count becomes that answer, or stays as it was
      when all ten queries fail. Nothing else changes. */
  lemma RefreshOutcome(env: Env, w: Engine)
    ensures var r := Refresh(env, w);
      var used := r.queries - w.queries;
      && 1 <= used <= NodeCountAttempts
      && (forall j :: w.queries <= j < r.queries - 1 ==> env.clusterInfo(j).None?)
      && (env.clusterInfo(r.queries - 1).Some? ==> r.totalNodes == env.clusterInfo(r.queries - 1).value)
      && (env.clusterInfo(r.queries - 1).None? ==> used == NodeCountAttempts && r.totalNodes == w.totalNodes)
      && r == w.(totalNodes := r.totalNodes, queries := r.queries, pauses := w.pauses + Sleeps(used - 1))
  {
    var w2 := w.(queries := w.queries + 1);
    if env.clusterInfo(w.queries).None? {
      RefreshFromOutcome(env, w2, w.queries);
    }
  }

  // ---------------------------------------------------------------- one bucket

  /** What the callback hears from a bucket's retry loop, by how it ended; `full` is whether
      all ten attempts were made. */
  function BucketNotices(env: Env, b: seq<Packed>, exit: BucketExit, full: bool): seq<Notice> {
    match exit
    case Delivered => Heard(env, SuccessNotices(b))
    case Unmarshalable => Heard(env, FailureNotices(b, MarshalFailed))
    case Exhausted(e) => Heard(env, FailureNotices(b, e))
    case QuitDuringWait(e) =>
      if full then Heard(env, FailureNotices(b, e)) + Heard(env, FailureNotices(b, e))
      else Heard(env, FailureNotices(b, e))
    case Skipped => []
    case TopologyChange => []
  }

  /** What a topology change does before the re-send: sleep min(ra * 5 s, 300 s), not at all
      on the first attempt, then run setNodeCount, whose queries, pauses and resulting node
      count are those RefreshOutcome gives. */
  predicate BackedOffAndRefreshed(env: Env, w: Engine, ra: nat, r: Engine) {
    var used := r.queries - w.queries;
    && 1 <= used <= NodeCountAttempts
    && r.pauses == w.pauses + (if ra == 0 then [] else [Sleep(TopologyBackoffMs(ra))]) + Sleeps(used - 1)
    && (forall j :: w.queries <= j < r.queries - 1 ==> env.clusterInfo(j).None?)
    && (env.clusterInfo(r.queries - 1).Some? ==> r.totalNodes == env.clusterInfo(r.queries - 1).value)
    && (env.clusterInfo(r.queries - 1).None? ==> used == NodeCountAttempts && r.totalNodes == w.totalNodes)
  }

  /** One upload attempt, when there are nodes: how it ends, what it uploads and what the
      callback hears. */
  lemma AttemptOutcome(env: Env, w: Engine, k: int, b: seq<Packed>, ra: nat)
    requires w.totalNodes != 0
    ensures var (w1, step) := Attempt(env, w, k, b, ra);
      var sent := w.requests + [Request(k % w.totalNodes, w.totalNodes, b)];
      var result := UploadResult(env.respond(|w.requests|));
      && (step.Retry? ==> w1 == w.(requests := sent) && result == Some(step.err) && !IsTopologySignal(step.err))
      && (step.Stop? ==> step.exit == Unmarshalable || step.exit == Delivered || step.exit == TopologyChange)
      && (step == Stop(Unmarshalable) <==> !env.marshals(b))
      && (step == Stop(Unmarshalable) ==>
            w1.requests == w.requests && w1.notices == w.notices + Heard(env, FailureNotices(b, MarshalFailed)))
      && (step == Stop(Delivered) ==>
            w1.requests == sent && w1.notices == w.notices + Heard(env, SuccessNotices(b)) && result.None?)
      && (step == Stop(TopologyChange) ==>
            && w1.requests == sent && w1.notices == w.notices && result.Some? && IsTopologySignal(result.value)
            && BackedOffAndRefreshed(env, w, ra, w1))
  {
    if env.marshals(b) {
      var w1 := w.(requests := w.requests + [Request(k % w.totalNodes, w.totalNodes, b)]);
      var result := UploadResult(env.respond(|w.requests|));
      if result.Some? && IsTopologySignal(result.value) {
        var d := TopologyBackoffMs(ra);
        var w2 := if d > 0 then w1.(pauses := w1.pauses + [Sleep(d)]) else w1;
        assert w2.pauses == w.pauses + (if ra == 0 then [] else [Sleep(d)]);
        RefreshOutcome(env, w2);
      }
    }
  }

  /** The wait after failed attempt `i`: it uploads nothing, and the callback hears the failure
      on the tenth attempt and once more when quit ends the wait. */
  lemma AfterFailureOutcome(env: Env, closed: bool, w: Engine, b: seq<Packed>, err: Error, i: nat)
    ensures var (w2, quit) := AfterFailure(env, closed, w, b, err, i);
      var failed := Heard(env, FailureNotices(b, err));
      var tenth := if i == Attempts - 1 then failed else [];
      && w2.requests == w.requests && w2.totalNodes == w.totalNodes
      && (!quit ==> w2.notices == w.notices + tenth)
      && (quit ==> w2.notices == w.notices + tenth + failed)
  {
  }

  /** One attempt of a bucket's retry loop, unfolded. Either the loop goes on from `w2` after
      the failure `err`, or it ends here, and then what it uploaded and told the callback
      depends on how it ended. */
  lemma AttemptStep(env: Env, closed: bool, w: Engine, k: int, b: seq<Packed>, ra: nat, start: nat, last: Option<Error>)
      returns (goesOn: bool, w2: Engine, err: Error)
    requires start <= |w.requests| < start + Attempts && w.totalNodes != 0
    ensures var r := BucketLoop(env, closed, w, k, b, ra, start, last).0;
      var exit := BucketLoop(env, closed, w, k, b, ra, start, last).1;
      var sent := w.requests + [Request(k % w.totalNodes, w.totalNodes, b)];
      var result := UploadResult(env.respond(|w.requests|));
      var failed := Heard(env, FailureNotices(b, err));
      var tenth := |w.requests| - start == Attempts - 1;
      && (goesOn ==>
            && w2.requests == sent && w2.totalNodes == w.totalNodes
            && BucketLoop(env, closed, w, k, b, ra, start, last) == BucketLoop(env, closed, w2, k, b, ra, start, Some(err))
            && result == Some(err) && !IsTopologySignal(err)
            && w2.notices == w.notices + (if tenth then failed else []))
      && (!goesOn ==>
            && (exit == Unmarshalable || exit == Delivered || exit == TopologyChange || exit.QuitDuringWait?)
            && (exit == Unmarshalable <==> !env.marshals(b))
            && (exit == Unmarshalable ==>
                  r.requests == w.requests && r.notices == w.notices + Heard(env, FailureNotices(b, MarshalFailed)))
            && (exit == Delivered ==>
                  r.requests == sent && r.notices == w.notices + Heard(env, SuccessNotices(b)) && result.None?)
            && (exit == TopologyChange ==>
                  && r.requests == sent && r.notices == w.notices && result.Some? && IsTopologySignal(result.value)
                  && BackedOffAndRefreshed(env, w, ra, r))
            && (exit.QuitDuringWait? ==>
                  && r.requests == sent && result == Some(exit.err) && !IsTopologySignal(exit.err)
                  && r.notices == w.notices + BucketNotices(env, b, exit, tenth)))
  {
    var r := Attempt(env, w, k, b, ra);
    var w1, step := r.0, r.1;
    AttemptOutcome(env, w, k, b, ra);
    if step.Retry? {
      var r2 := AfterFailure(env, closed, w1, b, step.err, |w.requests| - start);
      var quit;
      w2, quit := r2.0, r2.1;
      AfterFailureOutcome(env, closed, w1, b, step.err, |w.requests| - start);
      err := step.err;
      if quit {
        goesOn := false;
        LoopQuits(env, closed, w, k, b, ra, start, last, w1, err, w2);
      } else {
        goesOn := true;
        LoopRetries(env, closed, w, k, b, ra, start, last, w1, err, w2);
      }
    } else {
      goesOn, w2, err := false, w1, MarshalFailed;
      LoopStops(env, closed, w, k, b, ra, start, last, w1, step.exit);
    }
  }

  /** One attempt of a bucket's retry loop that ends it. */
  lemma LoopStops(env: Env, closed: bool, w: Engine, k: int, b: seq<Packed>, ra: nat, start: nat, last: Option<Error>, w1: Engine, exit: BucketExit)
    requires start <= |w.requests| < start + Attempts && w.totalNodes != 0
    requires (w1, Stop(exit)) == Attempt(env, w, k, b, ra)
    ensures BucketLoop(env, closed, w, k, b, ra, start, last) == (w1, exit)
  {
  }

  /** One failed attempt of a bucket's retry loop, followed by a wait that quit ends. */
  lemma LoopQuits(env: Env, closed: bool, w: Engine, k: int, b: seq<Packed>, ra: nat, start: nat, last: Option<Error>, w1: Engine, err: Error, w2: Engine)
    requires start <= |w.requests| < start + Attempts && w.totalNodes != 0
    requires (w1, Retry(err)) == Attempt(env, w, k, b, ra)
    requires (w2, true) == AfterFailure(env, closed, w1, b, err, |w.requests| - start)
    ensures BucketLoop(env, closed, w, k, b, ra, start, last) == (w2, QuitDuringWait(err))
  {
  }

  /** One failed attempt of a bucket's retry loop, followed by a wait the timer ends. */
  lemma LoopRetries(env: Env, closed: bool, w: Engine, k: int, b: seq<Packed>, ra: nat, start: nat, last: Option<Error>, w1: Engine, err: Error, w2: Engine)
    requires start <= |w.requests| < start + Attempts && w.totalNodes != 0
    requires (w1, Retry(err)) == Attempt(env, w, k, b, ra)
    requires (w2, false) == AfterFailure(env, closed, w1, b, err, |w.requests| - start)
    ensures |w2.requests| == |w.requests| + 1 && w2.totalNodes == w.totalNodes
    ensures BucketLoop(env, closed, w, k, b, ra, start, last) == BucketLoop(env, closed, w2, k, b, ra, start, Some(err))
  {
    assert Retried(env, closed, w2, k, b, ra, start, Some(err)) == BucketLoop(env, closed, w2, k, b, ra, start, Some(err));
  }

  /** One attempt, as far as its upload is concerned: the loop goes on after a failure that is
      not a topology signal, or ends, and then the exit matches the upload's outcome. */
  lemma UploadStep(env: Env, closed: bool, w: Engine, k: int, b: seq<Packed>, ra: nat, start: nat, last: Option<Error>)
      returns (goesOn: bool, w2: Engine, err: Error)
    requires start <= |w.requests| < start + Attempts && w.totalNodes != 0
    ensures var result := UploadResult(env.respond(|w.requests|));
      goesOn ==> (
        && |w2.requests| == |w.requests| + 1 && w2.totalNodes == w.totalNodes
        && result == Some(err) && !IsTopologySignal(err)
        && BucketLoop(env, closed, w, k, b, ra, start, last) == BucketLoop(env, closed, w2, k, b, ra, start, Some(err)))
    ensures var result := UploadResult(env.respond(|w.requests|));
      var r := BucketLoop(env, closed, w, k, b, ra, start, last).0;
      var exit := BucketLoop(env, closed, w, k, b, ra, start, last).1;
      !goesOn ==> (
        && !exit.Exhausted?
        && (exit != Unmarshalable ==> |r.requests| == |w.requests| + 1)
        && (exit == Delivered ==> result.None?)
        && (exit == TopologyChange ==> result.Some? && IsTopologySignal(result.value))
        && (exit.QuitDuringWait? ==> result == Some(exit.err) && !IsTopologySignal(exit.err)))
  {
    goesOn, w2, err := AttemptStep(env, closed, w, k, b, ra, start, last);
  }

  /** Every upload of a bucket goes to node `k mod n` with node count n, carrying the bucket;
      there are at most ten; with no nodes nothing happens at all. */
  lemma {:induction false} BucketRequests(env: Env, closed: bool, w: Engine, k: int, b: seq<Packed>, ra: nat, start: nat, last: Option<Error>)
    requires start <= |w.requests| <= start + Attempts
    ensures var r := BucketLoop(env, closed, w, k, b, ra, start, last).0; var exit := BucketLoop(env, closed, w, k, b, ra, start, last).1;
      && w.requests <= r.requests && |r.requests| <= start + Attempts
      && (w.totalNodes != 0 ==>
            forall j :: |w.requests| <= j < |r.requests| ==> r.requests[j] == Request(k % w.totalNodes, w.totalNodes, b))
      && (w.totalNodes == 0 ==> r == w && exit == (if last.Some? then Exhausted(last.value) else Skipped))
    decreases start + Attempts - |w.requests|
  {
    if |w.requests| < start + Attempts && w.totalNodes != 0 {
      var goesOn, w2, err := AttemptStep(env, closed, w, k, b, ra, start, last);
      if goesOn {
        BucketRequests(env, closed, w2, k, b, ra, start, Some(err));
      }
    }
  }

  /** A delivered bucket is reported as delivered, once per message and nothing else; its
      last upload succeeded. */
  lemma {:induction false} BucketDelivered(env: Env, closed: bool, w: Engine, k: int, b: seq<Packed>, ra: nat, start: nat, last: Option<Error>)
    requires start <= |w.requests| <= start + Attempts
    ensures var r := BucketLoop(env, closed, w, k, b, ra, start, last).0; var exit := BucketLoop(env, closed, w, k, b, ra, start, last).1;
      exit == Delivered ==>
        && |w.requests| < |r.requests|
        && UploadResult(env.respond(|r.requests| - 1)).None?
    decreases start + Attempts - |w.requests|
  {
    if |w.requests| < start + Attempts && w.totalNodes != 0 {
      var goesOn, w2, err := UploadStep(env, closed, w, k, b, ra, start, last);
      if goesOn {
        BucketDelivered(env, closed, w2, k, b, ra, start, Some(err));
        var res := BucketLoop(env, closed, w2, k, b, ra, start, Some(err));
        assert BucketLoop(env, closed, w, k, b, ra, start, last) == res;
      }
    }
  }

  /** A bucket whose every remaining attempt failed without a topology signal is reported as
      failed exactly once, with the last error, after all ten uploads. */
  lemma {:induction false} BucketExhausted(env: Env, closed: bool, w: Engine, k: int, b: seq<Packed>, ra: nat, start: nat, last: Option<Error>)
    requires start <= |w.requests| < start + Attempts && w.totalNodes != 0
    ensures var r := BucketLoop(env, closed, w, k, b, ra, start, last).0; var exit := BucketLoop(env, closed, w, k, b, ra, start, last).1;
      exit.Exhausted? ==>
        && |r.requests| == start + Attempts
        && UploadResult(env.respond(|r.requests| - 1)) == Some(exit.err)
        && !IsTopologySignal(exit.err)
    decreases start + Attempts - |w.requests|
  {
    if |w.requests| < start + Attempts && w.totalNodes != 0 {
      var goesOn, w2, err := UploadStep(env, closed, w, k, b, ra, start, last);
      if goesOn && |w2.requests| < start + Attempts {
        BucketExhausted(env, closed, w2, k, b, ra, start, Some(err));
        var res := BucketLoop(env, closed, w2, k, b, ra, start, Some(err));
        assert BucketLoop(env, closed, w, k, b, ra, start, last) == res;
      } else if goesOn {
        assert BucketLoop(env, closed, w2, k, b, ra, start, Some(err)) == (w2, Exhausted(err));
      }
    }
  }

  /** A close during a retry wait reports the bucket as failed, and twice over when the wait
      followed the tenth attempt, which had already reported it. */
  lemma {:induction false} BucketQuit(env: Env, closed: bool, w: Engine, k: int, b: seq<Packed>, ra: nat, start: nat, last: Option<Error>)
    requires start <= |w.requests| <= start + Attempts
    ensures var r := BucketLoop(env, closed, w, k, b, ra, start, last).0; var exit := BucketLoop(env, closed, w, k, b, ra, start, last).1;
      exit.QuitDuringWait? ==>
        && |w.requests| < |r.requests| <= start + Attempts
        && UploadResult(env.respond(|r.requests| - 1)) == Some(exit.err)
        && !IsTopologySignal(exit.err)
    decreases start + Attempts - |w.requests|
  {
    if |w.requests| < start + Attempts && w.totalNodes != 0 {
      var goesOn, w2, err := UploadStep(env, closed, w, k, b, ra, start, last);
      if goesOn {
        BucketQuit(env, closed, w2, k, b, ra, start, Some(err));
        var res := BucketLoop(env, closed, w2, k, b, ra, start, Some(err));
        assert BucketLoop(env, closed, w, k, b, ra, start, last) == res;
      }
    }
  }

  /** A bucket is abandoned as unserializable exactly when there are nodes and json.Marshal
      fails on it; then nothing is uploaded and every message is reported as failed. */
  lemma {:induction false} BucketUnmarshalable(env: Env, closed: bool, w: Engine, k: int, b: seq<Packed>, ra: nat, start: nat, last: Option<Error>)
    requires start <= |w.requests| < start + Attempts
    ensures var r := BucketLoop(env, closed, w, k, b, ra, start, last).0; var exit := BucketLoop(env, closed, w, k, b, ra, start, last).1;
      && (exit == Unmarshalable <==> w.totalNodes != 0 && !env.marshals(b))
      && (exit == Unmarshalable ==> r.requests == w.requests)
    decreases start + Attempts - |w.requests|
  {
    if |w.requests| < start + Attempts && w.totalNodes != 0 {
      var goesOn, w2, err := AttemptStep(env, closed, w, k, b, ra, start, last);
      if goesOn && |w2.requests| < start + Attempts {
        BucketUnmarshalable(env, closed, w2, k, b, ra, start, Some(err));
      } else if goesOn {
        assert BucketLoop(env, closed, w2, k, b, ra, start, Some(err)) == (w2, Exhausted(err));
      }
    }
  }

  /** A topology change ends the bucket's loop without telling the callback anything; the
      upload that caused it answered with a topology signal. */
  lemma {:induction false} BucketTopology(env: Env, closed: bool, w: Engine, k: int, b: seq<Packed>, ra: nat, start: nat, last: Option<Error>)
    requires start <= |w.requests| <= start + Attempts
    ensures var r := BucketLoop(env, closed, w, k, b, ra, start, last).0; var exit := BucketLoop(env, closed, w, k, b, ra, start, last).1;
      exit == TopologyChange ==>
        && |w.requests| < |r.requests|
        && UploadResult(env.respond(|r.requests| - 1)).Some?
        && IsTopologySignal(UploadResult(env.respond(|r.requests| - 1)).value)
    decreases start + Attempts - |w.requests|
  {
    if |w.requests| < start + Attempts && w.totalNodes != 0 {
      var goesOn, w2, err := UploadStep(env, closed, w, k, b, ra, start, last);
      if goesOn {
        BucketTopology(env, closed, w2, k, b, ra, start, Some(err));
        var res := BucketLoop(env, closed, w2, k, b, ra, start, Some(err));
        assert BucketLoop(env, closed, w, k, b, ra, start, last) == res;
      }
    }
  }

  /** A bucket's retry loop, entered before its last attempt with nodes, tells the callback
      exactly what its exit calls for; with no nodes it does nothing. */
  lemma {:induction false} BucketNoticesShape(env: Env, closed: bool, w: Engine, k: int, b: seq<Packed>, ra: nat, start: nat, last: Option<Error>)
    requires start <= |w.requests| < start + Attempts
    ensures var r := BucketLoop(env, closed, w, k, b, ra, start, last).0; var exit := BucketLoop(env, closed, w, k, b, ra, start, last).1;
      && (w.totalNodes != 0 ==> r.notices == w.notices + BucketNotices(env, b, exit, |r.requests| == start + Attempts))
      && (w.totalNodes == 0 ==> r == w)
    decreases start + Attempts - |w.requests|
  {
    if w.totalNodes != 0 {
      var goesOn, w2, err := AttemptStep(env, closed, w, k, b, ra, start, last);
      if goesOn && |w2.requests| < start + Attempts {
        BucketNoticesShape(env, closed, w2, k, b, ra, start, Some(err));
        assert w2.notices == w.notices;
      } else if goesOn {
        assert BucketLoop(env, closed, w2, k, b, ra, start, Some(err)) == (w2, Exhausted(err));
      }
    }
  }

  /** Every notice a bucket's exit calls for is about one of the bucket's messages. */
  lemma BucketNoticesConcern(env: Env, b: seq<Packed>, exit: BucketExit, full: bool)
    ensures forall n :: n in BucketNotices(env, b, exit, full) ==> n.msg in EventsOf(b)
  {
    NoticesConcern(b, MarshalFailed);
    if exit.Exhausted? || exit.QuitDuringWait? {
      NoticesConcern(b, exit.err);
    }
  }

  /** Whatever happens to a bucket, the callback only hears about the bucket's own messages. */
  lemma BucketNoticesConcernBatch(env: Env, closed: bool, w: Engine, k: int, b: seq<Packed>, ra: nat)
    ensures NoticesWithin(w, BucketLoop(env, closed, w, k, b, ra, |w.requests|, None).0, Concerning(EventsOf(b)))
  {
    var start := |w.requests|;
    var res := BucketLoop(env, closed, w, k, b, ra, start, None);
    var r, exit := res.0, res.1;
    BucketNoticesShape(env, closed, w, k, b, ra, start, None);
    var full := |r.requests| == start + Attempts;
    var added := if w.totalNodes != 0 then BucketNotices(env, b, exit, full) else [];
    assert r.notices == w.notices + added;
    assert r.notices[|w.notices|..] == added;
    BucketNoticesConcern(env, b, exit, full);
  }

  // ---------------------------------------------------------------- stamping

  lemma HeardConcat(env: Env, a: seq<Notice>, b: seq<Notice>)
    ensures Heard(env, a + b) == Heard(env, a) + Heard(env, b)
  {
  }

  /** The stamping loop tells the callback exactly the stamp failures, in order. */
  lemma {:induction false} StampNotices(env: Env, w: Engine, msgs: seq<Packed>)
    ensures Stamp(env, w, msgs) == w.(notices := w.notices + Heard(env, StampFailures(msgs)))
  {
    if msgs != [] {
      var prefix := msgs[..|msgs| - 1];
      var q := msgs[|msgs| - 1];
      StampNotices(env, w, prefix);
      if q.json.stampError.Some? {
        var e := StampFailed(q.json.stampError.value);
        assert FailureNotices([q], e) == [Failed(q.msg, e)];
        HeardConcat(env, StampFailures(prefix), [Failed(q.msg, e)]);
      } else {
        assert StampFailures(msgs) == StampFailures(prefix) + [];
      }
    }
  }

  /** A stamp failure is reported for a message exactly when its sent-at time cannot be set. */
  lemma {:induction false} StampFailuresExact(msgs: seq<Packed>, n: Notice)
    ensures n in StampFailures(msgs) <==>
      exists i :: 0 <= i < |msgs| && msgs[i].json.stampError.Some?
                  && n == Failed(msgs[i].msg, StampFailed(msgs[i].json.stampError.value))
  {
    if msgs != [] {
      var prefix := msgs[..|msgs| - 1];
      var q := msgs[|msgs| - 1];
      StampFailuresExact(prefix, n);
      if n in StampFailures(prefix) {
        var i :| 0 <= i < |prefix| && prefix[i].json.stampError.Some?
                  && n == Failed(prefix[i].msg, StampFailed(prefix[i].json.stampError.value));
        assert msgs[i] == prefix[i];
      }
      if exists i :: 0 <= i < |msgs| && msgs[i].json.stampError.Some?
                  && n == Failed(msgs[i].msg, StampFailed(msgs[i].json.stampError.value)) {
        var i :| 0 <= i < |msgs| && msgs[i].json.stampError.Some?
                  && n == Failed(msgs[i].msg, StampFailed(msgs[i].json.stampError.value));
        if i < |prefix| {
          assert prefix[i] == msgs[i];
        }
      }
    }
  }

  lemma StampWithin(env: Env, w: Engine, msgs: seq<Packed>)
    ensures var r := Stamp(env, w, msgs);
      && w.notices <= r.notices
      && forall n :: n in r.notices[|w.notices|..] ==> n.Failed? && n.err.StampFailed? && n.msg in EventsOf(msgs)
  {
    StampNotices(env, w, msgs);
    var r := Stamp(env, w, msgs);
    assert r.notices[|w.notices|..] == Heard(env, StampFailures(msgs));
    forall n | n in Heard(env, StampFailures(msgs))
      ensures n.Failed? && n.err.StampFailed? && n.msg in EventsOf(msgs)
    {
      StampFailuresExact(msgs, n);
    }
  }

  // ---------------------------------------------------------------- send

  /** The buckets of a payload hold messages of the routed batch only. */
  lemma RouteWithin(msgs: seq<Packed>, n: int, hash: string -> nat)
    requires Route(msgs, n, hash).Some?
    ensures forall k :: k in Route(msgs, n, hash).value.buckets ==>
      EventsOf(Route(msgs, n, hash).value.buckets[k]) <= EventsOf(msgs)
  {
    if n != 0 {
      RouteShape(msgs, n, hash);
      forall k, x | k in BucketMap(msgs, n, hash) && x in BucketMap(msgs, n, hash)[k] ensures x in msgs {
        BucketMembership(msgs, n, hash, k, x);
      }
    }
  }

  /** The revised batch holds messages of the payload's buckets only. */
  lemma {:induction false} CollectWithin(buckets: map<int, seq<Packed>>, order: seq<int>, startFrom: int, s: set<Event>)
    requires forall k :: k in order ==> k in buckets
    requires forall k :: k in buckets ==> EventsOf(buckets[k]) <= s
    ensures EventsOf(Collect(buckets, order, startFrom)) <= s
  {
    if order != [] {
      var last := order[|order| - 1];
      CollectWithin(buckets, order[..|order| - 1], startFrom, s);
      var prev := Collect(buckets, order[..|order| - 1], startFrom);
      var tail := if last >= startFrom then buckets[last] else [];
      assert EventsOf(prev + tail) == EventsOf(prev) + EventsOf(tail);
    }
  }

  /** One step of send, unfolded, when getNodePayload faults. */
  lemma SendStepAborted(env: Env, closed: bool, w: Engine, msgs: seq<Packed>, ra: nat, fuel: nat)
    requires Route(msgs, Stamp(env, w, msgs).totalNodes, env.hash).None?
    ensures SendSpec(env, closed, w, msgs, ra, fuel) == (Stamp(env, w, msgs), Aborted)
  {
  }

  /** A payload getNodePayload builds has a bucket for each of its keys. */
  lemma RoutedWellFormed(msgs: seq<Packed>, n: int, hash: string -> nat, p: Payload)
    requires Route(msgs, n, hash) == Some(p)
    ensures WellFormed(p)
  {
    if n != 0 { RouteShape(msgs, n, hash); }
  }

  /** One step of send, unfolded: stamp, route, and range over the payload. */
  lemma SendStepRouted(env: Env, closed: bool, w: Engine, msgs: seq<Packed>, ra: nat, fuel: nat, w1: Engine, p: Payload)
    requires w1 == Stamp(env, w, msgs)
    requires Route(msgs, w1.totalNodes, env.hash) == Some(p)
    ensures WellFormed(p)
    ensures forall k :: k in IterationOrder(env, w1.ranges, p.keys) ==> k in p.buckets
    ensures SendSpec(env, closed, w, msgs, ra, fuel)
         == BucketsSpec(env, closed, w1.(ranges := w1.ranges + 1), p, IterationOrder(env, w1.ranges, p.keys), ra, fuel)
  {
    RoutedWellFormed(msgs, w1.totalNodes, env.hash, p);
  }

  /** One bucket of the range over a payload, unfolded, when the range ends with it: a close
      during a retry wait, or a topology change with no re-send left. */
  lemma BucketsStepEnd(env: Env, closed: bool, w: Engine, p: Payload, rest: seq<int>, ra: nat, fuel: nat, w1: Engine, exit: BucketExit)
    requires WellFormed(p) && rest != []
    requires forall k :: k in rest ==> k in p.buckets
    requires (w1, exit) == BucketLoop(env, closed, w, rest[0], p.buckets[rest[0]], ra, |w.requests|, None)
    requires exit.QuitDuringWait? || (exit == TopologyChange && fuel == 0)
    ensures BucketsSpec(env, closed, w, p, rest, ra, fuel) == (w1, if exit.QuitDuringWait? then Quitted else OutOfFuel)
  {
  }

  /** One bucket of the range over a payload, unfolded, when it ends in a re-send. */
  lemma BucketsStepResend(env: Env, closed: bool, w: Engine, p: Payload, rest: seq<int>, ra: nat, fuel: nat, w1: Engine)
    requires WellFormed(p) && rest != [] && fuel != 0
    requires forall k :: k in rest ==> k in p.buckets
    requires (w1, TopologyChange) == BucketLoop(env, closed, w, rest[0], p.buckets[rest[0]], ra, |w.requests|, None)
    ensures BucketsSpec(env, closed, w, p, rest, ra, fuel) == Resend(env, closed, w1, p, rest[0], ra + 1, fuel - 1)
  {
  }

  /** One bucket of the range over a payload, unfolded, when the range goes on. */
  lemma BucketsStepNext(env: Env, closed: bool, w: Engine, p: Payload, rest: seq<int>, ra: nat, fuel: nat, w1: Engine, exit: BucketExit)
    requires WellFormed(p) && rest != []
    requires forall k :: k in rest ==> k in p.buckets
    requires (w1, exit) == BucketLoop(env, closed, w, rest[0], p.buckets[rest[0]], ra, |w.requests|, None)
    requires exit != TopologyChange && !exit.QuitDuringWait?
    ensures forall k :: k in rest[1..] ==> k in p.buckets
    ensures BucketsSpec(env, closed, w, p, rest, ra, fuel) == BucketsSpec(env, closed, w1, p, rest[1..], ra, fuel)
  {
  }

  /** A send, with all the re-sends it chains, only ever tells the callback about messages of
      the batch it was given. */
  lemma {:induction false} SendConcernsInput(env: Env, closed: bool, w: Engine, msgs: seq<Packed>, ra: nat, fuel: nat, s: set<Event>)
    requires EventsOf(msgs) <= s
    ensures NoticesWithin(w, SendSpec(env, closed, w, msgs, ra, fuel).0, Concerning(s))
    decreases fuel, 1, 0, 0
  {
    var w1 := Stamp(env, w, msgs);
    StampWithin(env, w, msgs);
    assert NoticesWithin(w, w1, Concerning(s));
    var routed := Route(msgs, w1.totalNodes, env.hash);
    if routed.None? {
      SendStepAborted(env, closed, w, msgs, ra, fuel);
    } else {
      var p := routed.value;
      SendStepRouted(env, closed, w, msgs, ra, fuel, w1, p);
      RouteWithin(msgs, w1.totalNodes, env.hash);
      var w2 := w1.(ranges := w1.ranges + 1);
      var order := IterationOrder(env, w1.ranges, p.keys);
      BucketsConcernInput(env, closed, w2, p, order, ra, fuel, s);
      NoticesWithinChain(w, w2, BucketsSpec(env, closed, w2, p, order, ra, fuel).0, Concerning(s));
    }
  }

  lemma {:induction false} ResendConcernsInput(env: Env, closed: bool, w: Engine, p: Payload, k: int, ra: nat, fuel: nat, s: set<Event>)
    requires WellFormed(p)
    requires forall k :: k in p.buckets ==> EventsOf(p.buckets[k]) <= s
    ensures NoticesWithin(w, Resend(env, closed, w, p, k, ra, fuel).0, Concerning(s))
    decreases fuel, 2, 0, 0
  {
    var revised := IterationOrder(env, w.ranges, p.keys);
    CollectWithin(p.buckets, revised, k, s);
    SendConcernsInput(env, closed, w.(ranges := w.ranges + 1), Collect(p.buckets, revised, k), ra, fuel, s);
  }

  lemma {:induction false} BucketsConcernInput(env: Env, closed: bool, w: Engine, p: Payload, rest: seq<int>, ra: nat, fuel: nat, s: set<Event>)
    requires WellFormed(p)
    requires forall k :: k in rest ==> k in p.buckets
    requires forall k :: k in p.buckets ==> EventsOf(p.buckets[k]) <= s
    ensures NoticesWithin(w, BucketsSpec(env, closed, w, p, rest, ra, fuel).0, Concerning(s))
    decreases fuel, 0, |rest|, 1
  {
    if rest == [] {
      assert w.notices[|w.notices|..] == [];
    } else {
      var (w1, exit) := BucketLoop(env, closed, w, rest[0], p.buckets[rest[0]], ra, |w.requests|, None);
      if exit == TopologyChange && fuel != 0 {
        ConcernAfterResend(env, closed, w, p, rest, ra, fuel, s, w1);
      } else {
        ConcernAfterBucket(env, closed, w, p, rest, ra, fuel, s, w1, exit);
      }
    }
  }

  /** The range over a payload, past a bucket that ended in a re-send. */
  lemma {:induction false} ConcernAfterResend(env: Env, closed: bool, w: Engine, p: Payload, rest: seq<int>, ra: nat, fuel: nat, s: set<Event>, w1: Engine)
    requires WellFormed(p) && rest != [] && fuel != 0
    requires forall k :: k in rest ==> k in p.buckets
    requires forall k :: k in p.buckets ==> EventsOf(p.buckets[k]) <= s
    requires (w1, TopologyChange) == BucketLoop(env, closed, w, rest[0], p.buckets[rest[0]], ra, |w.requests|, None)
    ensures NoticesWithin(w, BucketsSpec(env, closed, w, p, rest, ra, fuel).0, Concerning(s))
    decreases fuel, 0, |rest|, 0
  {
    BucketNoticesConcernBatch(env, closed, w, rest[0], p.buckets[rest[0]], ra);
    NoticesWithinWiden(w, w1, EventsOf(p.buckets[rest[0]]), s);
    ResendConcernsInput(env, closed, w1, p, rest[0], ra + 1, fuel - 1, s);
    BucketsStepResend(env, closed, w, p, rest, ra, fuel, w1);
    NoticesWithinChain(w, w1, Resend(env, closed, w1, p, rest[0], ra + 1, fuel - 1).0, Concerning(s));
  }

  /** The range over a payload, past a bucket that did not end in a re-send. */
  lemma {:induction false} ConcernAfterBucket(env: Env, closed: bool, w: Engine, p: Payload, rest: seq<int>, ra: nat, fuel: nat, s: set<Event>, w1: Engine, exit: BucketExit)
    requires WellFormed(p) && rest != []
    requires forall k :: k in rest ==> k in p.buckets
    requires forall k :: k in p.buckets ==> EventsOf(p.buckets[k]) <= s
    requires (w1, exit) == BucketLoop(env, closed, w, rest[0], p.buckets[rest[0]], ra, |w.requests|, None)
    requires exit != TopologyChange || fuel == 0
    ensures NoticesWithin(w, BucketsSpec(env, closed, w, p, rest, ra, fuel).0, Concerning(s))
    decreases fuel, 0, |rest|, 0
  {
    BucketNoticesConcernBatch(env, closed, w, rest[0], p.buckets[rest[0]], ra);
    NoticesWithinWiden(w, w1, EventsOf(p.buckets[rest[0]]), s);
    if exit.QuitDuringWait? || exit == TopologyChange {
      BucketsStepEnd(env, closed, w, p, rest, ra, fuel, w1, exit);
    } else {
      BucketsStepNext(env, closed, w, p, rest, ra, fuel, w1, exit);
      BucketsConcernInput(env, closed, w1, p, rest[1..], ra, fuel, s);
      NoticesWithinChain(w, w1, BucketsSpec(env, closed, w1, p, rest[1..], ra, fuel).0, Concerning(s));
    }
  }

  /** With no nodes, a batch in which some message decodes makes getNodePayload fault: nothing
      is uploaded and the callback hears only the stamp failures. */
  lemma SendAbortsWithoutNodes(env: Env, closed: bool, w: Engine, msgs: seq<Packed>, ra: nat, fuel: nat)
    requires w.totalNodes == 0 && AnyParses(msgs)
    ensures SendSpec(env, closed, w, msgs, ra, fuel)
         == (w.(notices := w.notices + Heard(env, StampFailures(msgs))), Aborted)
  {
    StampNotices(env, w, msgs);
  }

  /** A server that answers every upload with 451. */
  ghost predicate Always451(env: Env) {
    forall j :: Answers451(env, j)
  }

  predicate Answers451(env: Env, j: nat) {
    env.respond(j).Answer? && env.respond(j).status == 451
  }

  /** Whether sub-batch `c` serializes. */
  predicate Serializes(env: Env, c: seq<Packed>) {
    env.marshals(c)
  }

  /** Under a server that always answers 451, a bucket is never delivered nor reported. */
  lemma BucketUnder451(env: Env, closed: bool, w: Engine, k: int, b: seq<Packed>, ra: nat)
    requires Always451(env) && env.marshals(b)
    ensures var r := BucketLoop(env, closed, w, k, b, ra, |w.requests|, None).0; var exit := BucketLoop(env, closed, w, k, b, ra, |w.requests|, None).1;
      r.notices == w.notices && (exit == TopologyChange || exit == Skipped)
  {
    assert Answers451(env, |w.requests|);
    assert UploadResult(env.respond(|w.requests|)) == Some(TopologyChanged);
  }

  /** What a send under an always-451 server leaves behind: only stamp failures were told,
      and it did not end by the client closing. */
  predicate Under451(w: Engine, r: (Engine, SendExit)) {
    NoticesWithin(w, r.0, StampFailuresOnly) && r.1 != Quitted
  }

  lemma Under451Chain(w: Engine, w1: Engine, r: (Engine, SendExit))
    requires NoticesWithin(w, w1, StampFailuresOnly) && Under451(w1, r)
    ensures Under451(w, r)
  {
    NoticesWithinChain(w, w1, r.0, StampFailuresOnly);
  }

  /** A server that answers every upload with 451 makes send re-send until its budget runs out
      or the node count drops to zero, and never tells the callback that a message was
      delivered or dropped: the only notices are stamp failures. */
  lemma {:induction false} SendUnder451(env: Env, closed: bool, w: Engine, msgs: seq<Packed>, ra: nat, fuel: nat)
    requires Always451(env) && forall c :: Serializes(env, c)
    ensures Under451(w, SendSpec(env, closed, w, msgs, ra, fuel))
    decreases fuel, 1, 0, 0
  {
    var w1 := Stamp(env, w, msgs);
    StampWithin(env, w, msgs);
    assert NoticesWithin(w, w1, StampFailuresOnly);
    var routed := Route(msgs, w1.totalNodes, env.hash);
    if routed.None? {
      SendStepAborted(env, closed, w, msgs, ra, fuel);
    } else {
      var p := routed.value;
      SendStepRouted(env, closed, w, msgs, ra, fuel, w1, p);
      var w2 := w1.(ranges := w1.ranges + 1);
      var order := IterationOrder(env, w1.ranges, p.keys);
      BucketsUnder451(env, closed, w2, p, order, ra, fuel);
      Under451Chain(w, w2, BucketsSpec(env, closed, w2, p, order, ra, fuel));
    }
  }

  lemma {:induction false} ResendUnder451(env: Env, closed: bool, w: Engine, p: Payload, k: int, ra: nat, fuel: nat)
    requires Always451(env) && forall c :: Serializes(env, c)
    requires WellFormed(p)
    ensures Under451(w, Resend(env, closed, w, p, k, ra, fuel))
    decreases fuel, 2, 0, 0
  {
    var revised := IterationOrder(env, w.ranges, p.keys);
    SendUnder451(env, closed, w.(ranges := w.ranges + 1), Collect(p.buckets, revised, k), ra, fuel);
  }

  lemma {:induction false} BucketsUnder451(env: Env, closed: bool, w: Engine, p: Payload, rest: seq<int>, ra: nat, fuel: nat)
    requires Always451(env) && forall c :: Serializes(env, c)
    requires WellFormed(p)
    requires forall k :: k in rest ==> k in p.buckets
    ensures Under451(w, BucketsSpec(env, closed, w, p, rest, ra, fuel))
    decreases fuel, 0, |rest|, 1
  {
    if rest == [] {
      assert w.notices[|w.notices|..] == [];
    } else {
      var (w1, exit) := BucketLoop(env, closed, w, rest[0], p.buckets[rest[0]], ra, |w.requests|, None);
      assert Serializes(env, p.buckets[rest[0]]);
      BucketUnder451(env, closed, w, rest[0], p.buckets[rest[0]], ra);
      if exit == TopologyChange && fuel != 0 {
        Under451AfterResend(env, closed, w, p, rest, ra, fuel, w1);
      } else {
        Under451AfterBucket(env, closed, w, p, rest, ra, fuel, w1, exit);
      }
    }
  }

  lemma {:induction false} Under451AfterResend(env: Env, closed: bool, w: Engine, p: Payload, rest: seq<int>, ra: nat, fuel: nat, w1: Engine)
    requires Always451(env) && forall c :: Serializes(env, c)
    requires WellFormed(p) && rest != [] && fuel != 0
    requires forall k :: k in rest ==> k in p.buckets
    requires (w1, TopologyChange) == BucketLoop(env, closed, w, rest[0], p.buckets[rest[0]], ra, |w.requests|, None)
    requires w1.notices == w.notices
    ensures Under451(w, BucketsSpec(env, closed, w, p, rest, ra, fuel))
    decreases fuel, 0, |rest|, 0
  {
    assert w1.notices[|w.notices|..] == [];
    ResendUnder451(env, closed, w1, p, rest[0], ra + 1, fuel - 1);
    BucketsStepResend(env, closed, w, p, rest, ra, fuel, w1);
    Under451Chain(w, w1, Resend(env, closed, w1, p, rest[0], ra + 1, fuel - 1));
  }

  lemma {:induction false} Under451AfterBucket(env: Env, closed: bool, w: Engine, p: Payload, rest: seq<int>, ra: nat, fuel: nat, w1: Engine, exit: BucketExit)
    requires Always451(env) && forall c :: Serializes(env, c)
    requires WellFormed(p) && rest != []
    requires forall k :: k in rest ==> k in p.buckets
    requires (w1, exit) == BucketLoop(env, closed, w, rest[0], p.buckets[rest[0]], ra, |w.requests|, None)
    requires w1.notices == w.notices && (exit == Skipped || (exit == TopologyChange && fuel == 0))
    ensures Under451(w, BucketsSpec(env, closed, w, p, rest, ra, fuel))
    decreases fuel, 0, |rest|, 0
  {
    assert w1.notices[|w.notices|..] == [];
    if exit == TopologyChange {
      BucketsStepEnd(env, closed, w, p, rest, ra, fuel, w1, exit);
    } else {
      BucketsStepNext(env, closed, w, p, rest, ra, fuel, w1, exit);
      BucketsUnder451(env, closed, w1, p, rest[1..], ra, fuel);
      Under451Chain(w, w1, BucketsSpec(env, closed, w1, p, rest[1..], ra, fuel));
    }
  }
}
