/** The outcome of an operation that can be rejected: a value, or the reason it was rejected. */
module Results {

  datatype Result<+T, +E> = Success(value: T) | Failure(error: E)
}
