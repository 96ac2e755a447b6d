/** The conventional optional value, used for JavaScript values that may be
    missing (`null`, `undefined`) or not a number (`NaN`). */
module Wrappers {

  datatype Option<+T> = None | Some(value: T)
}
