/** The optional value used for configuration lookups: `None` plays the role
    of a C# `null` string. */
module Wrappers {

  datatype Option<+T> = None | Some(value: T)
}
