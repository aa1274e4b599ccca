/** Optional values and results, used for the adapter's optional process
    handle, for decoding and for the outcome of `JSON.parse`. */
module Results {

  datatype Option<+T> = None | Some(value: T)

  /** `Err` carries the text of the exception the operation throws. */
  datatype Result<+T> = Ok(value: T) | Err(error: string)
}
