/** Optional values and error-carrying results shared by every module of the
    user-profile model.  Java's `null` becomes `None`, and every exception the
    service can throw becomes a `Failure` carrying an `Error`. */
module Results {

  datatype Option<T> = None | Some(value: T)

  datatype Result<T> = Success(value: T) | Failure(error: Error)

  /** The exceptions the modelled code raises, named after their Java classes. */
  datatype Error =
    | NotFound          // EntityNotFoundException
    | IllegalArgument   // IllegalArgumentException
    | ClassCast         // ClassCastException
    | NullPointer       // NullPointerException
}
