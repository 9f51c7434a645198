/** Failure-carrying wrappers shared by the model: an optional value and a
    computation that either yields a value or raises a JavaScript error. */
module Wrappers {

  datatype Option<+T> = None | Some(value: T)

  /** The errors the modelled code can raise. */
  datatype Fault =
    | TypeError           // property read on `null` or `undefined`
    | HeadersAlreadySent  // a second reply to a request that was already answered

  datatype Result<+T> = Ok(value: T) | Err(fault: Fault)
}
