/** The optional value used throughout the model for Python's None, Kotlin's
    nullable parameters and JavaScript's missing properties. */
module Wrappers {

  datatype Option<+T> = None | Some(value: T)
}
