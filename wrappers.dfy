/**
 * Option and Result values shared by every module of the model. A Java
 * reference that may be null is an Option; a Java exception that escapes
 * an operation is the Failure of a Result.
 */
module Wrappers {
  datatype Option<T> = None | Some(value: T)

  datatype Result<T, E> = Success(value: T) | Failure(error: E)

  /** The unchecked exceptions the modelled code can let escape. */
  datatype JavaException = NullPointerException | ClassCastException | IllegalArgumentException
}
