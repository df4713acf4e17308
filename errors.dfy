/** The error values the client produces or passes on to its callback. */
module Errors {

  datatype Error =
    | Validation(text: string)       // returned by a message's Validate, passed on unchanged
    | CustomType(typeName: string)   // "messages with custom types cannot be enqueued: %T"
    | Closed                         // ErrClosed
    | TooManyRequests                // ErrTooManyRequests: the executor refused a batch
    | MessageRejected(text: string)  // makeMessage refused the message (e.g. too large)
    | StampFailed(text: string)      // setSentAt could not rewrite the serialized message
    | MarshalFailed                  // json.Marshal of a sub-batch failed
    | Transport(text: string)        // gzip, request construction or http.Client.Do failed
    | BodyRead(text: string)         // reading a non-2xx response body failed
    | Status(code: int)              // "%d %s" for a non-2xx, non-451 response
    | TopologyChanged                // errors.New("451")

  /** `send` recognises a topology change by comparing the error's text with "451".
      The text of `Status` always holds a space, so it never matches; errors that carry
      foreign text match exactly when that text is "451". */
  predicate IsTopologySignal(e: Error) {
    match e
    case TopologyChanged => true
    case Transport(t) => t == "451"
    case BodyRead(t) => t == "451"
    case _ => false
  }
}
