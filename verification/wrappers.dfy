/** Java references that may be null are modelled as Option values. */
module Wrappers {

  datatype Option<+T> = None | Some(value: T)
}
