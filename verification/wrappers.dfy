/** An optional value: a property lookup that may come back `undefined`,
    a callback that may or may not fire. */
module Wrappers {

  datatype Option<+T> = None | Some(value: T)
}
