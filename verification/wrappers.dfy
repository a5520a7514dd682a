/** Option: the null-or-value shape the ad components return instead of
    Kotlin nulls. */
module Wrappers {

  datatype Option<+T> = None | Some(value: T)
}
