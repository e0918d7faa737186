/** What every part of the model shares. */
module Basics {
  datatype Option<+T> = None | Some(value: T)

  function Max(a: nat, b: nat): nat {
    if a <= b then b else a
  }
}
