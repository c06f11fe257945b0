/** Failure-compatible wrappers shared by the model: an optional value and a
    value-or-error result, standing in for Objective-C's `nil` returns and
    `NSError **` out-parameters. */
module Wrappers {

  datatype Option<+T> = None | Some(value: T)

  datatype Result<+R, +E> = Success(value: R) | Failure(error: E)
}
