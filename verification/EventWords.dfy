/** Event bits as the kernel stores them, in the low 24 bits of a word, and the sets of bits
    module EventGroups works with: the word operations of event_groups.c decode to the set
    operations, and both tests of a wait condition to the one on sets. */
module EventWords {
  import opened Words
  import W = EventItems
  import G = EventGroups

  /** The event bits set in a word. */
  function Decode(v: bv32): set<G.Bit> {
    set i: nat | i < 24 && Has(v, i, SINGLE)
  }

  /** The word operations are the set operations: setting bits is a union ... */
  lemma OrDecodes(a: bv32, b: bv32)
    ensures Decode(a | b) == Decode(a) + Decode(b)
  {
    forall i: nat | i < 24 ensures Has(a | b, i, SINGLE) <==> Has(a, i, SINGLE) || Has(b, i, SINGLE) {
      OrHas(a, b, i, SINGLE);
    }
  }

  /** ... clearing them a difference ... */
  lemma WithoutDecodes(a: bv32, b: bv32)
    ensures Decode(a & !b) == Decode(a) - Decode(b)
  {
    SingleMasks(a);
    SingleMasks(b);
    forall i: nat | i < 24 ensures Has(a & !b, i, SINGLE) <==> Has(a, i, SINGLE) && !Has(b, i, SINGLE) {
      WithoutHas(a, b, i, SINGLE);
    }
  }

  /** ... and masking an intersection. */
  lemma AndDecodes(a: bv32, b: bv32)
    ensures Decode(a & b) == Decode(a) * Decode(b)
  {
    SingleMasks(a);
    SingleMasks(b);
    forall i: nat | i < 24 ensures Has(a & b, i, SINGLE) <==> Has(a, i, SINGLE) && Has(b, i, SINGLE) {
      AndHas(a, b, i, SINGLE);
    }
  }

  lemma PlainAnd(a: bv32, b: bv32)
    requires W.Plain(a)
    ensures W.Plain(a & b)
  {
  }

  lemma DecodeEmpty(v: bv32)
    requires W.Plain(v)
    ensures Decode(v) == {} <==> v == 0
  {
    if Decode(v) == {} {
      forall i: nat | i < 24 ensures !Has(v, i, SINGLE) { assert i !in Decode(v); }
      NoBitsIsZero(v);
    }
    if v == 0 {
      forall i: nat | i < 24 ensures !Has(v, i, SINGLE) { ZeroHasNone(i); }
    }
  }

  lemma NothingMissing(a: bv32, b: bv32)
    requires W.Plain(a)
    ensures a & !b == 0 <==> Decode(a) <= Decode(b)
  {
    PlainAnd(a, !b);
    DecodeEmpty(a & !b);
    WithoutDecodes(a, b);
    assert Decode(a) <= Decode(b) <==> Decode(a) - Decode(b) == {};
  }

  lemma NothingShared(a: bv32, b: bv32)
    requires W.Plain(b)
    ensures a & b == 0 <==> Decode(b) * Decode(a) == {}
  {
    W.AndCommutes(a, b);
    PlainAnd(b, a);
    DecodeEmpty(b & a);
    AndDecodes(b, a);
  }

  /** Decoding loses nothing. */
  lemma DecodeInjective(a: bv32, b: bv32)
    requires W.Plain(a) && W.Plain(b) && Decode(a) == Decode(b)
    ensures a == b
  {
    NothingMissing(a, b);
    NothingMissing(b, a);
    SameWord(a, b);
  }

  /** The test of a wait condition on words is the one on sets ... */
  lemma ConditionAgrees(bits: bv32, mask: bv32, clear: bool, all: bool)
    requires W.Plain(mask)
    ensures W.Satisfied(bits, mask, all) <==> G.Satisfied(Decode(bits), G.Wait(Decode(mask), clear, all))
  {
    if all {
      AllIsNoneMissing(mask, bits);
      NothingMissing(mask, bits);
    } else {
      NothingShared(bits, mask);
    }
  }

  /** ... and so is the test the walk over the waiting tasks makes on their item values. */
  lemma WalkAgrees(bits: bv32, mask: bv32, clear: bool, all: bool)
    requires W.Plain(mask)
    ensures W.Matches(bits, W.Encode(mask, clear, all)) <==>
              G.Matches(Decode(bits), G.Waiting(G.Wait(Decode(mask), clear, all)))
  {
    W.WalkTestsCondition(bits, mask, clear, all);
    ConditionAgrees(bits, mask, clear, all);
  }
}
