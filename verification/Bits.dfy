/** The bits of a 32-bit word. */
module Bits {

  type Index = i: bv8 | i < 32 witness 0

  function Mask(i: Index): bv32 { 1 << i }

  predicate Bit(bits: bv32, i: Index) { bits & Mask(i) != 0 }

  function Set(bits: bv32, i: Index): bv32 { bits | Mask(i) }

  function Clear(bits: bv32, i: Index): bv32 { bits & !Mask(i) }

  lemma OrThis(bits: bv32, i: Index)
    ensures Bit(bits | Mask(i), i)
  {
  }

  lemma OrOther(bits: bv32, i: Index, j: Index)
    requires i != j
    ensures Bit(bits | Mask(i), j) <==> Bit(bits, j)
  {
  }

  lemma AndThis(bits: bv32, i: Index)
    ensures !Bit(bits & !Mask(i), i)
  {
  }

  lemma AndOther(bits: bv32, i: Index, j: Index)
    requires i != j
    ensures Bit(bits & !Mask(i), j) <==> Bit(bits, j)
  {
  }

  /** Setting a bit sets that one only. */
  lemma SetBit(bits: bv32, i: Index, j: Index)
    ensures Bit(Set(bits, i), j) <==> i == j || Bit(bits, j)
  {
    hide Bit, Mask;
    if i == j { OrThis(bits, i); } else { OrOther(bits, i, j); }
  }

  /** Clearing a bit clears that one only. */
  lemma ClearBit(bits: bv32, i: Index, j: Index)
    ensures Bit(Clear(bits, i), j) <==> i != j && Bit(bits, j)
  {
    hide Bit, Mask;
    if i == j { AndThis(bits, i); } else { AndOther(bits, i, j); }
  }
}
