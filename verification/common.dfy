/** Small datatypes shared by the storage, the HTTP handlers and the queue consumer. */
module Common {

  /** Python's `None` or a value. */
  datatype Option<+T> = None | Some(value: T)

  /** What an HTTP handler produces: a value, or the status code of the `HTTPException` it raised
      (an uncaught exception surfaces as 500). */
  datatype Response<+T> = Ok(value: T) | HttpError(status: int)
}
