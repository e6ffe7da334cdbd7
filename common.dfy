/** Option and Result: the optional arguments of the SDK and the outcome of
    operations that raise in the original (a raise becomes a Failure). */
module Common {

  datatype Option<+T> = None | Some(value: T)

  datatype Result<+R, +E> = Success(value: R) | Failure(error: E)

  /** Python truthiness of an `Optional[str]` argument: both `None` and `""` are falsy. */
  predicate Truthy(arg: Option<string>)
  {
    arg.Some? && arg.value != ""
  }
}
