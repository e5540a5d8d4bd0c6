/** Small arithmetic shared by the modules that count things. */
module Counting {

  function One(b: bool): nat {
    if b then 1 else 0
  }

  function Min(a: nat, b: nat): nat {
    if a < b then a else b
  }
}
