/** What every component shares. */
module Wrappers {
  datatype Option<+T> = None | Some(value: T)

  function SaturatingSub(a: nat, b: nat): nat {
    if a < b then 0 else a - b
  }
}
