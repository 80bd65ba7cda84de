/** Option type used for absent JSON fields and for the executor's "no query" case. */
module Wrappers {

  datatype Option<+T> = None | Some(value: T)
}
