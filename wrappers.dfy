/** An optional value: the model's stand-in for a TypeScript field or argument that may be
    `undefined` or `null`. */
module Wrappers {
  datatype Option<+T> = None | Some(value: T)
}
