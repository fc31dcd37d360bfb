/** Failure-carrying values shared by the whole model: Java's null becomes Option.None
    and a thrown exception becomes Result.Err. */
module Wrappers {

  datatype Option<T> = None | Some(value: T)

  datatype Result<T, E> = Ok(value: T) | Err(error: E)

  /** A Java exception, reduced to its message. */
  datatype Exception = Exception(message: string)
}
