/** An optional value: a missing document, an absent cookie, an unset `activeTask`. */
module Wrappers {

  datatype Option<T> = None | Some(value: T)
}
