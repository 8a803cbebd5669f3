/** Single-bit views of an 8-bit AVR I/O register. */
module Bits {

  /** A bit position inside an 8-bit register; 0 is the least significant bit. */
  type BitIndex = k: int | 0 <= k < 8

  /** The value `1 << k` that C code uses to name bit k. */
  function Mask(k: BitIndex): bv8 {
    match k
    case 0 => 0x01
    case 1 => 0x02
    case 2 => 0x04
    case 3 => 0x08
    case 4 => 0x10
    case 5 => 0x20
    case 6 => 0x40
    case _ => 0x80
  }

  /** True when bit k of register value r is 1. */
  predicate Bit(r: bv8, k: BitIndex) {
    r & Mask(k) != 0
  }

  /** `r |= 1 << k`: bit k becomes 1, every other bit keeps its value. */
  function SetBit(r: bv8, k: BitIndex): (r': bv8)
    ensures Bit(r', k)
    ensures forall j: BitIndex :: j != k ==> Bit(r', j) == Bit(r, j)
  {
    r | Mask(k)
  }

  /** `r &= ~(1 << k)`: bit k becomes 0, every other bit keeps its value. */
  function ClearBit(r: bv8, k: BitIndex): (r': bv8)
    ensures !Bit(r', k)
    ensures forall j: BitIndex :: j != k ==> Bit(r', j) == Bit(r, j)
  {
    r & !Mask(k)
  }

  /** A register value is determined by its eight bits. */
  lemma BitsDetermineValue(a: bv8, b: bv8)
    requires forall j: BitIndex :: Bit(a, j) == Bit(b, j)
    ensures a == b
  {
    assert Bit(a, 0) == Bit(b, 0) && Bit(a, 1) == Bit(b, 1);
    assert Bit(a, 2) == Bit(b, 2) && Bit(a, 3) == Bit(b, 3);
    assert Bit(a, 4) == Bit(b, 4) && Bit(a, 5) == Bit(b, 5);
    assert Bit(a, 6) == Bit(b, 6) && Bit(a, 7) == Bit(b, 7);
  }
}
