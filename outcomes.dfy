/** Small wrapper types shared by the other modules. */
module Outcomes {

  /** A value that may be missing, such as the result of a date parse that can fail. */
  datatype Option<+T> = None | Some(value: T)

  /** The outcome of one fetch from the search API: the decoded value, or a failure.
      Request construction, transport and decoding failures all surface as the one
      `Err`; the error text is only logged, so it is not carried. */
  datatype Fetch<+T> = Ok(value: T) | Err
}
