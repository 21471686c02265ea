/** Optional values and results with an error, used where the source returns
    a Swift optional or reports a failure through an alert. */
module Options {

  datatype Option<+T> = None | Some(value: T)

  datatype Result<+T, +E> = Success(value: T) | Failure(error: E)
}
