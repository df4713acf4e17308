# analytics-go client core, in Dafny

This project models the dispatch engine of the analytics-go client (`analytics.go`):

- how `Enqueue` admits a message (dereference, validation, defaults, context) and hands it
  to the batch loop;
- how the loop queues messages, cuts batches and drains on `Close`;
- how `sendAsync` submits a batch to the executor;
- how `send` stamps `sentAt`, splits a batch into per-node buckets by the CRC-32 of
  `userId:anonymousId` modulo the node count, and uploads each bucket with up to ten attempts;
- how `send` reacts to a 451 answer, the proxy's signal that the number of nodes changed:
  it backs off, re-reads the node count (`setNodeCount`), regroups the buckets not yet sent
  (`getRevisedMsgs`) and sends again;
- what the success and failure callbacks hear in every case.

Everything outside the client's own logic is a function in the `State.Env` datatype:
HTTP answers, cluster-info answers, quit-versus-timer outcomes, `RetryAfter`, map iteration
order, executor admission, `makeMessage`, the message queue's cut, `Validate`, JSON
marshalling and `crc32`. Each answer is looked up by a counter kept in the client's state,
so successive calls can answer differently.

Modules:

- `Errors`, `Wrappers`: error values and `Option`/`Result`.
- `Messages`: the message kinds, `dereferenceMessage`, the defaults `Enqueue` fills in, and
  `makeContext`.
- `Routing`: `getNodePayload` and `getRevisedMsgs`.
- `Transport`: `report`, `upload`'s outcome, the 451 backoff and `maxBatchBytes`.
- `State`: the environment, the engine and client states, and the callback notices.
- `Dispatch`: `setNodeCount` and `send` as functions.
- `DispatchProofs`: what `send` does, proved about those functions.
- `Coordinator`: `sendAsync`, `push`, `flush`, the loop's cases, `Close` and `Enqueue` as
  functions over the whole client state, and their properties.
- `Analytics`: the `Client` class. Its methods perform these operations in place with loops
  and recursion. Each method is proved to leave exactly the state its specification
  function describes.

Where the documented intent and the code differ, the model follows the code. A server that
answers 451 to every upload makes `send` re-send again and again. The callback never hears
about those messages: nothing but stamp failures is ever reported (`DispatchProofs.SendUnder451`).

## Model

| member | source | states |
|---|---|---|
| Messages.Dereference | analytics.go:143-184 | A nil pointer is the only message with no value. A non-nil pointer becomes the value it points to. Every other message passes through unchanged. |
| Messages.MakeAnonymousId | analytics.go:135-141 | A set anonymousId is kept; an empty one is replaced by the generated id. |
| Messages.Normalize | analytics.go:195-252 | Kind, userId, details and context are kept. The type string is the kind's name. messageId and originalTimestamp are kept when set and otherwise generated. sentAt equals originalTimestamp. The channel is "server". The anonymousId is defaulted only for Group, Page, Screen and Track. |
| Messages.Admit | analytics.go:186-257 | A nil pointer, and only a nil pointer, panics. A custom type is refused with its own validation error, if it has one, or with the custom-type error. An admitted message is the normalized event the message holds. |
| Messages.MakeContext | analytics.go:122-133 | A given context is reused and a missing one is freshly allocated. Either way its library is set to analytics-go and the version. |
| Messages.AdmitPointerAsValue | analytics.go:143-184 | Enqueueing a pointer to an event is the same as enqueueing the event. |
| Messages.AdmitKnownKind | analytics.go:186-252 | A known kind whose Validate fails is refused with that error. Otherwise it is admitted, normalized. |
| Messages.NormalizeIdempotent | analytics.go:195-252 | Filling in defaults a second time changes nothing. |
| Routing.KeyOf | analytics.go:310-324 | A message gets a bucket key exactly when its JSON parses. The key lies in [0, abs(n)). |
| Routing.Route | analytics.go:310-324 | Routing fails (the division-by-zero panic) exactly when the node count is 0 and some message parses. |
| Routing.GetNodePayload | analytics.go:310-324 | The loop builds exactly the payload `Route` describes. |
| Routing.BucketMembership | analytics.go:316-321 | A message is in bucket k exactly when it is in the batch and its key is k. |
| Routing.BucketConcat | analytics.go:316-321 | The bucket of a concatenation is the concatenation of the buckets, so order within a bucket is batch order. |
| Routing.RouteShape | analytics.go:310-324 | With a non-zero node count, the keys are distinct and are exactly the map's keys. Every bucket is non-empty and keyed in [0, abs(n)). |
| Routing.RouteExactlyOnce | analytics.go:310-324 | Every parsing message lands in the bucket of its own key, and nothing else lands anywhere. |
| Routing.GetRevisedMsgs | analytics.go:331-339 | The loop returns the concatenation, in iteration order, of the buckets whose key is at least startFrom. |
| Routing.RevisedExact | analytics.go:331-339 | The re-sent batch is, as a multiset, exactly the parsing messages whose key is at least startFrom. |
| Routing.RevisedIgnoresProgress | analytics.go:331-339 | A message is re-sent exactly when its bucket's key is at least the failing bucket's key. Whether its bucket was already delivered in this pass does not matter. |
| Transport.Report | analytics.go:525-543 | Below 300 is success. 451 is the topology error. Otherwise the error is the body-read error when the body cannot be read, and the status error when it can. |
| Transport.UploadResult | analytics.go:466-522 | A transport failure is returned as is. An answer is judged by `report`. |
| Transport.TopologySignalIff | analytics.go:429 | `send` sees a topology change exactly on a 451, a body-read error reading "451", or a transport error reading "451". |
| Transport.TopologyBackoffMs | analytics.go:434-438 | The backoff is retryAttempt times 5 s up to 60 attempts and 300 s beyond. It is 0 only on the first attempt. |
| Transport.TopologyBackoffMonotone | analytics.go:433-438 | The backoff never shrinks as the retry attempt grows. |
| Transport.MaxBatchBytesFits | analytics.go:627-630 | maxBatchBytes is the configured limit less the size of an empty batch envelope. A batch whose message sizes sum to at most maxBatchBytes, and every batch cut from its front, fits the configured limit once the envelope is added. |
| State.Initial | analytics.go:91-110 | A new client has both channels open, nothing queued, no requests, no notices and one node. |
| State.SuccessNotices | analytics.go:632-638 | One success notice per message, in order. |
| State.FailureNotices | analytics.go:640-646 | One failure notice per message, with the given error, in order. |
| State.NotifySuccess | analytics.go:632-638 | Only the notices change: they gain one success per message when a callback is set. |
| State.NotifyFailure | analytics.go:640-646 | Only the notices change: they gain one failure per message when a callback is set. |
| State.NoticesConcern | analytics.go:632-646 | A notice is in a batch's notices exactly when it names one of the batch's messages with the right outcome. |
| Dispatch.RefreshFrom | analytics.go:341-355 | Refreshing the node count touches only the node count, the query counter and the pauses. |
| Dispatch.Stamp | analytics.go:396-404 | Stamping changes only the notices, and only by appending. |
| Dispatch.IterationOrder | analytics.go:407 | Ranging over the payload visits each key exactly once. |
| Dispatch.Refresh | analytics.go:341-355 | setNodeCount from the current query counter. Its outcome is `DispatchProofs.RefreshOutcome`. |
| Dispatch.Attempt | analytics.go:418-448 | One marshal-and-upload attempt of a bucket, including the 451 backoff and setNodeCount. Its outcome is `DispatchProofs.AttemptOutcome`. |
| Dispatch.AfterFailure | analytics.go:449-460 | The tenth-attempt notice and the select between the retry timer and quit. Its outcome is `DispatchProofs.AfterFailureOutcome`. |
| Dispatch.BucketLoop | analytics.go:408-461 | The ten-attempt loop for one bucket, including the zero-node skip. Its properties are `DispatchProofs.AttemptStep`, `BucketRequests`, `BucketDelivered`, `BucketExhausted`, `BucketQuit`, `BucketUnmarshalable`, `BucketTopology`, `BucketNoticesShape` and `BucketUnder451`. |
| Dispatch.SendSpec | analytics.go:394-407 | The body of send: stamp, getNodePayload (the zero-node panic is `Aborted`), then the range. Its properties are `DispatchProofs.SendConcernsInput`, `SendAbortsWithoutNodes` and `SendUnder451`. |
| Dispatch.BucketsSpec | analytics.go:407-462 | The range over the node payload, one bucket loop per key in iteration order. A topology change ends the range with a re-send, and a quit ends send. Its properties are `DispatchProofs.SendConcernsInput` and `SendUnder451`. |
| Dispatch.Resend | analytics.go:444-447 | getRevisedMsgs over a fresh range of the payload, then send with the next retry attempt. The regrouped batch is characterised by `Routing.RevisedExact`. |
| DispatchProofs.RefreshFromOutcome | analytics.go:341-355 | From any attempt number: every query before the last one failed. A successful last query sets the node count. If all fail, the count is unchanged after the last attempt. One 200 ms sleep comes before each query but the first. |
| DispatchProofs.RefreshOutcome | analytics.go:341-355 | setNodeCount makes 1 to 10 queries. The first answer sets the node count. If all ten fail, the count is unchanged. It sleeps one time fewer than it queries. |
| DispatchProofs.AttemptOutcome | analytics.go:418-448 | A single attempt either ends the loop, with an exit matching the marshal and upload outcome, or reports a plain failure. A plain failure is a failed upload whose error is not a topology signal. On a topology signal the attempt sleeps min(ra·5 s, 300 s), not at all when ra is 0, then runs setNodeCount: 1 to 10 queries with 200 ms between them, the node count set to the first answer or kept when all fail. |
| DispatchProofs.AfterFailureOutcome | analytics.go:449-460 | The wait after a failed attempt uploads nothing. The callback hears the failure on the tenth attempt, and once more when quit ends the wait. |
| DispatchProofs.AttemptStep | analytics.go:408-461 | One attempt of a bucket, unfolded. The loop either goes on after a plain failure, with a failure notice on the tenth attempt, or ends. It ends on a marshal failure (nothing uploaded), a delivery (success notices), a topology change (no notice; the backoff sleep and setNodeCount's queries, pauses and node count as in `AttemptOutcome`), or a quit (the batch reported failed, twice on the tenth attempt). |
| DispatchProofs.BucketRequests | analytics.go:408-428 | A bucket's uploads all go to node k mod totalNodes, carrying the bucket, and never more than ten. With no nodes nothing happens. |
| DispatchProofs.BucketDelivered | analytics.go:424-428 | A delivered bucket's last upload succeeded. |
| DispatchProofs.BucketExhausted | analytics.go:449-452 | An exhausted bucket made all ten uploads, and the last one failed with a non-topology error. |
| DispatchProofs.BucketQuit | analytics.go:453-460 | A bucket abandoned on quit was uploaded at least once, and its last upload failed with a non-topology error. |
| DispatchProofs.BucketUnmarshalable | analytics.go:419-423 | A bucket stops as unmarshalable exactly when it fails to marshal with a non-zero node count. It then uploads nothing. |
| DispatchProofs.BucketTopology | analytics.go:429-447 | A bucket stops for a topology change exactly after an upload whose error `send` reads as 451. |
| DispatchProofs.BucketNoticesShape | analytics.go:408-461 | What the callback hears about a bucket depends only on how the bucket ended. On a quit after the tenth attempt it hears the failure twice. |
| DispatchProofs.StampNotices | analytics.go:396-404 | Stamping reports exactly the messages whose sentAt could not be set, each with its own error. |
| DispatchProofs.StampFailuresExact | analytics.go:396-404 | A stamp-failure notice exists exactly for each message whose stamping failed. |
| DispatchProofs.StampWithin | analytics.go:396-404 | Stamping only adds stamp-failure notices about the batch's own messages. |
| DispatchProofs.SendConcernsInput | analytics.go:394-463 | Across every bucket, every re-send and every exit, send only ever appends notices, and they are all about messages of its input batch. |
| DispatchProofs.SendAbortsWithoutNodes | analytics.go:310-324 | With zero nodes and a parsing message, send reports only the stamp failures and then panics before any upload. |
| DispatchProofs.BucketUnder451 | analytics.go:429-447 | Against a server that always answers 451, a bucket is never reported. |
| DispatchProofs.SendUnder451 | analytics.go:394-463 | Against a server that always answers 451, send reports nothing but stamp failures and never ends by a quit. |
| Coordinator.QueuePush | analytics.go:599-602 | The full batch handed back, followed by what stays pending, is exactly the old pending messages plus the new one. |
| Coordinator.SendAsyncSpec | analytics.go:288-307 | Every batch is recorded as submitted. Channel, queue and closed flags are unchanged. |
| Coordinator.SendAsyncRefused | analytics.go:291-306 | A batch the executor refuses is reported failed with ErrTooManyRequests, one notice per message in order, and nothing is uploaded. |
| Coordinator.SendAsyncAccepted | analytics.go:291-302 | An accepted batch runs send with retry attempt 0. |
| Coordinator.SendAsyncConcerns | analytics.go:288-307 | Either way, what the callback hears about a submitted batch concerns only that batch's messages. |
| Coordinator.PushSpec | analytics.go:588-604 | push leaves the channel and both closed flags unchanged. What it queues and submits is `Coordinator.PushConserves` and `PushRefused`. |
| Coordinator.PushRefused | analytics.go:592-596 | A message makeMessage refuses is reported failed with that error and queues nothing. |
| Coordinator.PushConserves | analytics.go:588-604 | push neither loses nor duplicates: submitted batches followed by pending messages grow by exactly the serialized message. |
| Coordinator.FlushConserves | analytics.go:606-611 | flush moves the pending messages, in order, to the end of what was submitted. |
| Coordinator.FlushSpec | analytics.go:606-611 | After a flush nothing is pending, and the channel and flags are unchanged. |
| Coordinator.ReceiveSpec | analytics.go:565-566 | Receiving takes the first message off the channel. |
| Coordinator.TickSpec | analytics.go:568-569 | A tick leaves nothing pending. |
| Coordinator.DrainSpec | analytics.go:576-579 | Draining empties the channel. |
| Coordinator.DrainConserves | analytics.go:576-579 | The drain pushes every message left in the channel, in order. |
| Coordinator.ShutdownSpec | analytics.go:571-583 | The shutdown closes msgs and leaves both the channel and the queue empty. |
| Coordinator.CloseSpec | analytics.go:274-285 | Close: a second call is ErrClosed; the first closes quit and runs the loop's shutdown. Its properties are `Coordinator.CloseDrains` and `CloseTwice`. |
| Coordinator.CloseDrains | analytics.go:274-285 | The first Close returns nil with both channels closed and nothing left in the channel or the queue. Everything queued or in the channel was handed to sendAsync, in order. |
| Coordinator.CloseTwice | analytics.go:274-285 | A second Close returns ErrClosed and changes nothing. |
| Coordinator.ConsistentKept | analytics.go:259-285 | Every loop step, Enqueue and Close keep quit and msgs closed together, and keep a closed channel empty. |
| Coordinator.InitialConsistent | analytics.go:91-110 | A new client satisfies that invariant. |
| Coordinator.EnqueueSpec | analytics.go:186-271 | Enqueue after makeContext: admission first, then the hand-off, which a closed channel refuses with ErrClosed. Its properties are `Coordinator.EnqueueAfterClose` and `EnqueueOpen`. |
| Coordinator.EnqueueAfterClose | analytics.go:259-269 | After Close, an admissible message is refused with ErrClosed and nothing changes; admission errors still come first. |
| Coordinator.EnqueueOpen | analytics.go:186-271 | An open client appends an admitted message to the channel, normalized and with its context set. Nothing else changes. |
| Analytics.Client.constructor | analytics.go:91-110 | A new client is in the initial state. |
| Analytics.Client.NotifySuccess | analytics.go:632-638 | The callback loop appends exactly the success notices. |
| Analytics.Client.NotifyFailure | analytics.go:640-646 | The callback loop appends exactly the failure notices. |
| Analytics.Client.QueryNodeCount | analytics.go:343-353 | One cluster-info query of setNodeCount: either it sets the node count as `RefreshFrom` does, or the rest of the refresh is unchanged. |
| Analytics.Client.SetNodeCount | analytics.go:341-355 | The query loop leaves exactly the state `Refresh` describes. |
| Analytics.Client.AttemptUpload | analytics.go:418-448 | One marshal-and-upload attempt. |
| Analytics.Client.WaitToRetry | analytics.go:449-460 | The tenth-attempt notice and the wait between attempts. |
| Analytics.Client.Wait | analytics.go:453-460 | The select between the retry timer and quit. Quit wins when it is already closed or the environment says so. The wait is recorded. |
| Analytics.Client.AttemptOnce | analytics.go:409-461 | One pass of the retry loop body. |
| Analytics.Client.TryBucket | analytics.go:408-461 | The ten-attempt loop for one bucket leaves exactly the state and exit `BucketLoop` describes. |
| Analytics.Client.StampAll | analytics.go:396-404 | The stamping loop appends exactly the stamp failures. |
| Analytics.Client.Send | analytics.go:394-463 | send, with its re-sends, leaves exactly the state `SendSpec` describes. |
| Analytics.Client.RangeOver | analytics.go:407-462 | The range over the node payload, bucket by bucket. |
| Analytics.Client.VisitBucket | analytics.go:407-447 | One bucket of the range, and the re-send when it signals 451. |
| Analytics.Client.ResendAfter | analytics.go:443-446 | Refresh the node count, regroup the remaining buckets, and send again. |
| Analytics.Client.SendAsync | analytics.go:288-307 | sendAsync, as `SendAsyncSpec`. |
| Analytics.Client.Push | analytics.go:588-604 | push, as `PushSpec`. |
| Analytics.Client.Flush | analytics.go:606-611 | flush, as `FlushSpec`. |
| Analytics.Client.Receive | analytics.go:565-566 | One message received by the loop. |
| Analytics.Client.Tick | analytics.go:568-569 | One tick of the loop. |
| Analytics.Client.Close | analytics.go:274-285 | Close with the loop's shutdown (drain, then flush), as `CloseSpec`. |
| Analytics.Client.Enqueue | analytics.go:186-271 | Enqueue as `EnqueueSpec`. A nil pointer panics and a refused message changes nothing. An admitted message gets the context `makeContext` returns, the caller's own when it set one. |

## Left out

- HTTP, gzip, request headers, basic auth and the cluster-info endpoint are not modelled. Their outcomes are the `respond` and `clusterInfo` functions of `Env`.
- JSON marshalling, unmarshalling and `setSentAt` are not modelled. Their outcomes are the `marshals` function and the fields of `Json` (parsed identity, size, stamp error).
- `crc32.ChecksumIEEE` is the `hash` parameter.
- Routing.KeyOf: the model assumes a 64-bit Go `int`, so `int(hashInt)` is never negative and node keys lie in [0, abs(n)). On a 32-bit target a checksum of 2^31 or more converts to a negative `int`; Go's truncating `%` then gives a key in (-abs(n), 0], the target node `k % totalNodes` can be negative, and the `k >= startFrom` test of getRevisedMsgs sorts those buckets differently. That case is not modelled.
- Goroutines are not modelled. A batch accepted by the executor runs to completion at the point where `sendAsync` submits it. Interleavings of concurrent sends are not modelled, and neither is their unsynchronised sharing of `totalNodes`. The retry loop's skip branch for `totalNodes == 0` is modelled; it is reachable only under such interleavings.
- The msgs channel's capacity of 100 and the blocking of `Enqueue` on a full channel are not modelled: the channel is unbounded.
- `Config.validate`, `makeConfig`, `makeHttpClient` and `NewWithConfig`'s error return are not modelled. The constructor starts from a valid configuration.
- `messageQueue` and `makeMessage` are not part of this model. The queue's batch cut is the `cut` function, and `makeMessage` is a function of `Env`. Conservation is proved for any cut.
- `makeMessageId`, `makeTimestamp` and `uid` are not part of this model. Ids and timestamps come in as `Fresh` values; a set value is kept and an empty one replaced.
- The executor is the `accepts` function.
- Timers and `Config.RetryAfter` are not modelled beyond the durations recorded in `pauses`. Whether a wait is ended by the timer or by quit is the `quitWins` function. A wait that starts after quit is closed always ends by quit.
- Logging (`errorf`, `debugf`, `logf`) is not modelled.
- Dispatch.SendSpec: the chain of 451 re-sends is bounded by `passBudget`; when it runs out, send stops with `OutOfFuel` and reports nothing. The Go code recurses without bound.
- Analytics.Client.Send: bounded by the same `passBudget` as `Dispatch.SendSpec`.
- Transport.TopologyBackoffMs: the `time.Duration` overflow of `retryAttempt*5` seconds for huge attempt numbers is not modelled. The cap applies to the mathematical product.
- Panics other than the zero-node division in `getNodePayload` and a nil message pointer in `Enqueue` are not modelled.
- Map iteration order is the `order` function of `Env`. A non-permutation answer falls back to the keys' first-appearance order.
