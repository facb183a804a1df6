/** An optional value: stands for TypeScript's `T | null` and for a key a
    Python dict or a JSON object may lack. */
module Wrappers {
  datatype Option<+T> = None | Some(value: T)
}
