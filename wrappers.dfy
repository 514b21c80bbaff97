/** Failure-carrying values shared by the three tools. */
module Wrappers {

  /** A value that may be absent, as Rust's `Option`. */
  datatype Option<T> = None | Some(value: T)

  /** A value or an error message, as the tools' `MyResult` whose boxed error is
      shown by its message. */
  datatype Result<T> = Ok(value: T) | Err(error: string)

  function Min(a: nat, b: nat): nat
  {
    if a <= b then a else b
  }
}
