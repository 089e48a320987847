/** Option and Result values for the places where the dashboard script would
    raise a KeyError (a missing dictionary key) instead of producing a table. */
module Results {

  datatype Option<+T> = None | Some(value: T)

  datatype Result<+T, +E> = Success(value: T) | Failure(error: E)
}
