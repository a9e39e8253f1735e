/** 32-bit words bit by bit. */
module Words {

  /** The words with one of the low 24 bits set. */
  const SINGLE: seq<bv32> := [
    0x1, 0x2, 0x4, 0x8, 0x10, 0x20, 0x40, 0x80, 0x100, 0x200, 0x400, 0x800, 0x1000, 0x2000, 0x4000, 0x8000,
    0x1_0000, 0x2_0000, 0x4_0000, 0x8_0000, 0x10_0000, 0x20_0000, 0x40_0000, 0x80_0000
  ]

  predicate Meets(v: bv32, k: bv32) {
    v & k != 0
  }

  /** Bit i of a word, by a table of one-bit words. */
  predicate Has(v: bv32, i: nat, single: seq<bv32>)
    requires i < |single|
  {
    Meets(v, single[i])
  }

  /** A one-bit word masks another to all of itself or to nothing. */
  predicate Masks(k: bv32, v: bv32) {
    k != 0 && (v & k == 0 || v & k == k)
  }

  lemma AndOfBit(a: bv32, b: bv32, k: bv32)
    requires (a & k == 0 || a & k == k) && (b & k == 0 || b & k == k) && k != 0
    ensures (a & b) & k != 0 <==> a & k != 0 && b & k != 0
  {
  }

  lemma OrOfBit(a: bv32, b: bv32, k: bv32)
    ensures (a | b) & k != 0 <==> a & k != 0 || b & k != 0
  {
  }

  lemma WithoutNone(a: bv32, b: bv32, k: bv32)
    requires a & k == 0
    ensures (a & !b) & k == 0
  {
  }

  lemma WithoutTaken(a: bv32, b: bv32, k: bv32)
    requires b & k == k
    ensures (a & !b) & k == 0
  {
  }

  lemma WithoutKept(a: bv32, b: bv32, k: bv32)
    requires a & k == k && b & k == 0
    ensures (a & !b) & k == k
  {
  }

  lemma AndMeets(a: bv32, b: bv32, k: bv32)
    requires Masks(k, a) && Masks(k, b)
    ensures Meets(a & b, k) <==> Meets(a, k) && Meets(b, k)
  {
    AndOfBit(a, b, k);
  }

  lemma OrMeets(a: bv32, b: bv32, k: bv32)
    ensures Meets(a | b, k) <==> Meets(a, k) || Meets(b, k)
  {
    OrOfBit(a, b, k);
  }

  lemma WithoutMeets(a: bv32, b: bv32, k: bv32)
    requires Masks(k, a) && Masks(k, b)
    ensures Meets(a & !b, k) <==> Meets(a, k) && !Meets(b, k)
  {
    if a & k == 0 {
      WithoutNone(a, b, k);
    } else if b & k == 0 {
      WithoutKept(a, b, k);
    } else {
      WithoutTaken(a, b, k);
    }
  }

  lemma MasksFrom(i: nat, v: bv32)
    requires i < 8
    ensures Masks(SINGLE[i], v)
  {
  }

  lemma MasksFrom8(i: nat, v: bv32)
    requires 8 <= i < 16
    ensures Masks(SINGLE[i], v)
  {
  }

  lemma MasksFrom16(i: nat, v: bv32)
    requires 16 <= i < 24
    ensures Masks(SINGLE[i], v)
  {
  }

  lemma SingleMasks(v: bv32)
    ensures forall i: nat :: i < 24 ==> Masks(SINGLE[i], v)
  {
    forall i: nat | i < 24 ensures Masks(SINGLE[i], v) {
      if i < 8 { MasksFrom(i, v); } else if i < 16 { MasksFrom8(i, v); } else { MasksFrom16(i, v); }
    }
  }

  lemma AndHas(a: bv32, b: bv32, i: nat, single: seq<bv32>)
    requires i < |single| && Masks(single[i], a) && Masks(single[i], b)
    ensures Has(a & b, i, single) <==> Has(a, i, single) && Has(b, i, single)
  {
    AndMeets(a, b, single[i]);
  }

  lemma OrHas(a: bv32, b: bv32, i: nat, single: seq<bv32>)
    requires i < |single|
    ensures Has(a | b, i, single) <==> Has(a, i, single) || Has(b, i, single)
  {
    OrMeets(a, b, single[i]);
  }

  lemma WithoutHas(a: bv32, b: bv32, i: nat, single: seq<bv32>)
    requires i < |single| && Masks(single[i], a) && Masks(single[i], b)
    ensures Has(a & !b, i, single) <==> Has(a, i, single) && !Has(b, i, single)
  {
    WithoutMeets(a, b, single[i]);
  }

  lemma NoBits(v: bv32)
    requires v & 0xff00_0000 == 0
    requires v & 0x1 == 0 && v & 0x2 == 0 && v & 0x4 == 0 && v & 0x8 == 0 && v & 0x10 == 0 && v & 0x20 == 0
    requires v & 0x40 == 0 && v & 0x80 == 0 && v & 0x100 == 0 && v & 0x200 == 0 && v & 0x400 == 0 && v & 0x800 == 0
    requires v & 0x1000 == 0 && v & 0x2000 == 0 && v & 0x4000 == 0 && v & 0x8000 == 0
    requires v & 0x1_0000 == 0 && v & 0x2_0000 == 0 && v & 0x4_0000 == 0 && v & 0x8_0000 == 0
    requires v & 0x10_0000 == 0 && v & 0x20_0000 == 0 && v & 0x40_0000 == 0 && v & 0x80_0000 == 0
    ensures v == 0
  {
  }

  /** A word with nothing in the top byte and none of the other bits is zero. */
  lemma NoBitsIsZero(v: bv32)
    requires v & 0xff00_0000 == 0 && forall i: nat :: i < 24 ==> !Has(v, i, SINGLE)
    ensures v == 0
  {
    assert !Has(v, 0, SINGLE) && !Has(v, 1, SINGLE) && !Has(v, 2, SINGLE) && !Has(v, 3, SINGLE);
    assert !Has(v, 4, SINGLE) && !Has(v, 5, SINGLE) && !Has(v, 6, SINGLE) && !Has(v, 7, SINGLE);
    assert !Has(v, 8, SINGLE) && !Has(v, 9, SINGLE) && !Has(v, 10, SINGLE) && !Has(v, 11, SINGLE);
    assert !Has(v, 12, SINGLE) && !Has(v, 13, SINGLE) && !Has(v, 14, SINGLE) && !Has(v, 15, SINGLE);
    assert !Has(v, 16, SINGLE) && !Has(v, 17, SINGLE) && !Has(v, 18, SINGLE) && !Has(v, 19, SINGLE);
    assert !Has(v, 20, SINGLE) && !Has(v, 21, SINGLE) && !Has(v, 22, SINGLE) && !Has(v, 23, SINGLE);
    NoBits(v);
  }

  lemma ZeroHasNone(i: nat)
    requires i < 24
    ensures !Has(0, i, SINGLE)
  {
    ZeroMeets(SINGLE[i]);
  }

  lemma ZeroMeets(k: bv32)
    ensures !Meets(0, k)
  {
  }

  lemma MissingIsNone(a: bv32, b: bv32)
    requires b & a == a
    ensures a & !b == 0
  {
  }

  lemma NoneIsMissing(a: bv32, b: bv32)
    requires a & !b == 0
    ensures b & a == a
  {
  }

  lemma AllIsNoneMissing(a: bv32, b: bv32)
    ensures b & a == a <==> a & !b == 0
  {
    if b & a == a { MissingIsNone(a, b); }
    if a & !b == 0 { NoneIsMissing(a, b); }
  }

  lemma SameWord(a: bv32, b: bv32)
    requires a & !b == 0 && b & !a == 0
    ensures a == b
  {
  }
}
