/** Limits. */
module Bounds {

  function Smaller(a: nat, b: nat): nat {
    if a < b then a else b
  }
}
