/** Optional values, results and the exceptions the channel wrappers can raise. */
module Outcomes {

  /** Python's `None` or a present value. */
  datatype Option<+T> = None | Some(value: T)

  /** A computation that either produces a value or raises. */
  datatype Result<+T, +E> = Ok(value: T) | Err(error: E)

  /** The exceptions that escape the wrappers' callbacks (none of them is caught by the wrappers). */
  datatype Failure =
    | NotAnEnvelope     // `msg.get('action')` on a decoded message that is not a JSON object
    | MissingData       // `msg['data']` on an init response without a `data` key
    | ZeroHandle        // `assert handle != 0` in the plain-handle branch of `_get_buddy`
    | ChannelGone       // subscripting `_text_chan` after it was set to None
    | MalformedPayload  // Base64 or JSON decoding of a delivered text failed
    | NoSharedActivity  // `_setup_text_channel` reached with no shared activity

  /** How a callback ended: it returned, or an exception escaped it. */
  datatype Outcome = Returned | Raised(error: Failure)
}
