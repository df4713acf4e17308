/** Classification of upload responses and the client's fixed arithmetic: the topology-change
    backoff and the batch byte budget. */
module Transport {
  import opened Wrappers
  import opened Errors
  import opened Routing

  /** Whether reading a response body succeeded. */
  datatype Body = Readable | Unreadable(text: string)

  /** What one upload produced: no response at all (gzip, request construction or the HTTP
      round trip failed, with the error's text), or a status code and a body. */
  datatype Response = NoResponse(text: string) | Answer(status: int, body: Body)

  /** report: below 300 is success; 451 is the topology-change error, returned without
      reading the body; any other status yields the body-read error when the body cannot be
      read, and otherwise an error naming the status. */
  function Report(status: int, body: Body): (r: Option<Error>)
    ensures r.None? <==> status < 300
    ensures status == 451 ==> r == Some(TopologyChanged)
    ensures status >= 300 && status != 451 && body.Unreadable? ==> r == Some(BodyRead(body.text))
    ensures status >= 300 && status != 451 && body.Readable? ==> r == Some(Status(status))
  {
    if status < 300 then None
    else if status == 451 then Some(TopologyChanged)
    else match body
      case Unreadable(t) => Some(BodyRead(t))
      case Readable => Some(Status(status))
  }

  /** upload: the error it returns for a response. */
  function UploadResult(resp: Response): (r: Option<Error>)
    ensures resp.NoResponse? ==> r == Some(Transport(resp.text))
    ensures resp.Answer? ==> r == Report(resp.status, resp.body)
  {
    match resp
    case NoResponse(t) => Some(Transport(t))
    case Answer(s, b) => Report(s, b)
  }

  /** What `send` reads as a topology change: status 451, and also any failed upload whose
      error text happens to be "451" (a body-read or transport error). */
  lemma TopologySignalIff(resp: Response)
    ensures (UploadResult(resp).Some? && IsTopologySignal(UploadResult(resp).value))
        <==> (|| (resp.Answer? && resp.status == 451)
              || (resp.Answer? && resp.status >= 300 && resp.body == Unreadable("451"))
              || resp == NoResponse("451"))
  {
  }

  const MaxTopologyBackoffMs: nat := 300000

  /** The sleep before re-sending after a topology change: retryAttempt * 5 s, capped at 300 s. */
  function TopologyBackoffMs(retryAttempt: nat): (r: nat)
    ensures r <= MaxTopologyBackoffMs
    ensures r == 0 <==> retryAttempt == 0
    ensures retryAttempt <= 60 ==> r == retryAttempt * 5000
    ensures retryAttempt > 60 ==> r == MaxTopologyBackoffMs
  {
    if retryAttempt * 5000 > MaxTopologyBackoffMs then MaxTopologyBackoffMs else retryAttempt * 5000
  }

  /** Longer retry chains never wait less. */
  lemma TopologyBackoffMonotone(a: nat, b: nat)
    requires a <= b
    ensures TopologyBackoffMs(a) <= TopologyBackoffMs(b)
  {
  }

  /** maxBatchBytes: the configured budget less the size of an empty batch envelope. */
  function MaxBatchBytes(configured: int, emptyEnvelope: nat): int {
    configured - emptyEnvelope
  }

  /** The bytes the serialized messages of a batch take up, summed from the front. */
  function BatchBytes(msgs: seq<Packed>): nat {
    if msgs == [] then 0 else BatchBytes(msgs[..|msgs| - 1]) + msgs[|msgs| - 1].json.size
  }

  /** A batch never takes fewer bytes than any of its prefixes. */
  lemma {:induction false} BatchBytesPrefix(msgs: seq<Packed>, i: nat)
    requires i <= |msgs|
    ensures BatchBytes(msgs[..i]) <= BatchBytes(msgs)
    decreases |msgs|
  {
    if i < |msgs| {
      var init := msgs[..|msgs| - 1];
      assert init[..i] == msgs[..i];
      BatchBytesPrefix(init, i);
    } else {
      assert msgs[..i] == msgs;
    }
  }

  /** A batch whose messages fit in maxBatchBytes serializes, envelope included, within the
      configured budget, and so does every batch cut from its front while it was filling. */
  lemma MaxBatchBytesFits(configured: int, emptyEnvelope: nat, msgs: seq<Packed>, i: nat)
    requires BatchBytes(msgs) <= MaxBatchBytes(configured, emptyEnvelope)
    requires i <= |msgs|
    ensures emptyEnvelope + BatchBytes(msgs[..i]) <= configured
  {
    BatchBytesPrefix(msgs, i);
  }
}
