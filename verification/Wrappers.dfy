/** Results shared by all components: optional values, and success-or-error outcomes. */
module Wrappers {

  datatype Option<+T> = None | Some(value: T)

  datatype Result<+T, +E> = Success(value: T) | Failure(error: E)

  /** UUIDs are compared by the source through their 36-character text. That text has a fixed
      width and lower-case digits, so its order is the order of the 128-bit number. */
  type Uuid = nat
}
