/** Optional values and settled promises. */
module Results {

  /** A value that may be absent (`null`, `undefined`). */
  datatype Option<+T> = None | Some(value: T)

  /** How a promise settles: resolved with a value, or rejected with an
      `Error` carrying a message. */
  datatype Result<+T> = Ok(value: T) | Err(message: string)
}
