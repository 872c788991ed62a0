/**
 * Option and Result: the values a .NET call gives back when it may return null or
 * throw instead of returning.
 */
module Wrappers {

  datatype Option<+T> = None | Some(value: T)

  datatype Result<+R, +E> = Returned(value: R) | Threw(error: E)
}
