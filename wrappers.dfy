/** Optional values (an absent open position, an exit that did not trigger, an empty
    analysis) and results that may carry the error that aborted a run. */
module Wrappers {
  datatype Option<+T> = None | Some(value: T)

  datatype Result<+T, +E> = Ok(value: T) | Err(error: E)
}
