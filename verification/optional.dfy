/** Failure-carrying results: `None` stands for C#'s `null`, `Failure` for a thrown exception. */
module Optional {

  datatype Option<+T> = None | Some(value: T)

  datatype Result<+T, +E> = Success(value: T) | Failure(error: E)
}
