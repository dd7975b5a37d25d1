/** Bit-field helpers over 32-bit register words, and the Option wrapper.
    `Extr` and `Insrt` are the extract / replace-field helpers the oracles
    use throughout: `Extr(x, off, w)` reads bits [off, off+w) of x and
    `Insrt(x, off, w, v)` replaces them with the low w bits of v. Offsets
    and widths are words too, so that shifting needs no conversion. */
module Bits {

  datatype Option<T> = None | Some(value: T)

  /** The mask with the low w bits set. */
  function LowMask(w: bv32): (m: bv32)
    requires w <= 32
  {
    if w == 32 then 0xffff_ffff else ((1 as bv32) << w) - 1
  }

  /** Bits [off, off+w) of x, moved down to bit 0. */
  function Extr(x: bv32, off: bv32, w: bv32): (r: bv32)
    requires off <= 32 && w <= 32 - off
  {
    (x >> off) & LowMask(w)
  }

  /** x with bits [off, off+w) replaced by the low w bits of v. */
  function Insrt(x: bv32, off: bv32, w: bv32, v: bv32): (r: bv32)
    requires off <= 32 && w <= 32 - off
  {
    (x & !(LowMask(w) << off)) | ((v & LowMask(w)) << off)
  }

  /** x with the bits of m set: the oracles' `x |= m`. */
  function SetBits(x: bv32, m: bv32): bv32 {
    x | m
  }

  /** x with the bits of m cleared: the oracles' `x &= ~m`. */
  function ClearBits(x: bv32, m: bv32): bv32 {
    x & !m
  }

  /** a and b agree on every bit of m. */
  predicate Agree(a: bv32, b: bv32, m: bv32) {
    a & m == b & m
  }

  lemma SetBitsFacts(x: bv32, m: bv32)
    ensures SetBits(x, m) & m == m
    ensures SetBits(x, m) & !m == x & !m
  {
  }

  lemma ClearBitsFacts(x: bv32, m: bv32)
    ensures ClearBits(x, m) & m == 0
    ensures ClearBits(x, m) & !m == x & !m
  {
  }

  lemma SetBitsTwice(x: bv32, m: bv32)
    ensures SetBits(SetBits(x, m), m) == SetBits(x, m)
  {
  }

  lemma ClearBitsTwice(x: bv32, m: bv32)
    ensures ClearBits(ClearBits(x, m), m) == ClearBits(x, m)
  {
  }
}
