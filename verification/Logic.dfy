// Two-valued std_logic and the operators the circuits use on it.
module Logic {
  datatype Bit = L | H

  function Not(a: Bit): Bit {
    if a == L then H else L
  }

  function And(a: Bit, b: Bit): Bit {
    if a == H then b else L
  }

  function Or(a: Bit, b: Bit): Bit {
    if a == H then H else b
  }

  function ToBit(b: bool): Bit {
    if b then H else L
  }

  // Unsigned four bit counters: `Dec` wraps, `Expired` reads the top bit.
  type U4 = n: nat | n < 16

  function Dec(n: U4): U4 {
    if n == 0 then 15 else n - 1
  }

  predicate Expired(n: U4) {
    n >= 8
  }
}
