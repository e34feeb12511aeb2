/** An optional value: the model's counterpart of a JavaScript property that may be missing. */
module Wrappers {

  datatype Option<+T> = None | Some(value: T)
}
