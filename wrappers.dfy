/** Small result types shared by the shop services. */
module Wrappers {

  /** A value that may be missing: stands for a Java reference that may be null. */
  datatype Option<+T> = None | Some(value: T)

  /** The response envelope handed to the web layer: `Result.ok(data)` or `Result.fail(message)`. */
  datatype Reply<+T> = Ok(data: T) | Fail(errorMsg: string)

  /** The outcome of a call that retries while another caller holds a lock: its answer,
      or the retry budget ran out before one was reached. */
  datatype Attempt<+T> = Done(value: T) | GaveUp
}
