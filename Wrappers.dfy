/** The optional value and the success-or-error value used by the other
    modules: a nullable pointer or a lookup that may fail becomes an Option, an
    ezStatus a Result. */
module Wrappers {

  datatype Option<+T> = None | Some(value: T)

  datatype Result<+T, +E> = Ok(value: T) | Err(error: E)
}
