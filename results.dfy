/** Optional values and success-or-error results, used for the Python code's
    `None` returns and raised exceptions. */
module Results {

  datatype Option<+T> = None | Some(value: T)

  datatype Result<+T, +E> = Ok(value: T) | Err(error: E)

  /** How a call whose value is not used ends: it returns, or it raises an
      exception with the given text. */
  datatype Ack = Done | Raises(detail: string)
}
