/** The single bits of a byte. */
module Bytes {
  /** 1 << k. */
  function Mask(k: nat): bv8
    requires k < 8
  {
    match k
    case 0 => 1
    case 1 => 2
    case 2 => 4
    case 3 => 8
    case 4 => 16
    case 5 => 32
    case 6 => 64
    case _ => 128
  }

  predicate Has(d: bv8, mask: bv8) {
    d & mask != 0
  }
}
