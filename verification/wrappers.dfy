/** Optional values and fallible results, as Rust's `Option` and `Result`. */
module Wrappers {

  datatype Option<+T> = None | Some(value: T)

  datatype Result<+T, +E> = Success(value: T) | Failure(error: E)

  /** `Option::map`. */
  function MapOption<T, U>(o: Option<T>, f: T -> U): Option<U> {
    match o
    case None => None
    case Some(v) => Some(f(v))
  }

  /** `Option::and_then`. */
  function AndThen<T, U>(o: Option<T>, f: T -> Option<U>): Option<U> {
    match o
    case None => None
    case Some(v) => f(v)
  }

  /** `Option::ok_or`: a missing value becomes the given error. */
  function OkOr<T, E>(o: Option<T>, error: E): (r: Result<T, E>)
    ensures r.Success? <==> o.Some?
    ensures r.Success? ==> r.value == o.value
    ensures r.Failure? ==> r.error == error
  {
    match o
    case None => Failure(error)
    case Some(v) => Success(v)
  }
}
