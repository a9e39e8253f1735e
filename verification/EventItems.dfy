/** The event list item value of a task waiting on an event group (event_groups.c, 32-bit
    ticks): the low bits say which event bits, the top byte holds the options of the wait,
    and later says how the wait ended.  The encoding loses nothing, so module EventGroups
    works with the decoded form. */
module EventItems {

  const CLEAR_ON_EXIT: bv32 := 0x0100_0000       // eventCLEAR_EVENTS_ON_EXIT_BIT
  const UNBLOCKED_BY_SET: bv32 := 0x0200_0000    // eventUNBLOCKED_DUE_TO_BIT_SET
  const WAIT_FOR_ALL: bv32 := 0x0400_0000        // eventWAIT_FOR_ALL_BITS
  const CONTROL: bv32 := 0xff00_0000             // eventEVENT_BITS_CONTROL_BYTES
  const IN_USE: bv32 := 0x8000_0000              // taskEVENT_LIST_ITEM_VALUE_IN_USE

  /** Event bits and masks never use the control byte. */
  predicate Plain(bits: bv32) {
    bits & CONTROL == 0
  }

  /** `prvTestWaitCondition`. */
  predicate Satisfied(bits: bv32, mask: bv32, all: bool) {
    if all then bits & mask == mask else bits & mask != 0
  }

  /** The item value a waiting task stores. */
  function Encode(mask: bv32, clear: bool, all: bool): bv32 {
    mask | (if clear then CLEAR_ON_EXIT else 0) | (if all then WAIT_FOR_ALL else 0) | IN_USE
  }

  /** The item value a released task finds. */
  function Handed(bits: bv32): bv32 {
    bits | UNBLOCKED_BY_SET | IN_USE
  }

  function Bits(v: bv32): bv32 {
    v & !CONTROL
  }

  predicate ClearsOnExit(v: bv32) {
    v & CONTROL & CLEAR_ON_EXIT != 0
  }

  predicate WaitsForAll(v: bv32) {
    v & CONTROL & WAIT_FOR_ALL != 0
  }

  predicate WasReleased(v: bv32) {
    v & UNBLOCKED_BY_SET != 0
  }

  /** The test the walk of `xEventGroupSetBits` makes on an item value. */
  predicate Matches(bits: bv32, v: bv32) {
    if !WaitsForAll(v) then Bits(v) & bits != 0 else Bits(v) & bits == Bits(v)
  }

  /** From the item value the walk recovers the mask ... */
  lemma MaskRoundTrips(mask: bv32, clear: bool, all: bool)
    requires Plain(mask)
    ensures Bits(Encode(mask, clear, all)) == mask
  {
  }

  /** ... and both options. */
  lemma ClearRoundTrips(mask: bv32, clear: bool, all: bool)
    requires Plain(mask)
    ensures ClearsOnExit(Encode(mask, clear, all)) <==> clear
  {
  }

  lemma AllRoundTrips(mask: bv32, clear: bool, all: bool)
    requires Plain(mask)
    ensures WaitsForAll(Encode(mask, clear, all)) <==> all
  {
  }

  lemma AndCommutes(a: bv32, b: bv32)
    ensures a & b == b & a
  {
  }

  /** The walk tests the very condition the task waits for. */
  lemma WalkTestsCondition(bits: bv32, mask: bv32, clear: bool, all: bool)
    requires Plain(mask)
    ensures Matches(bits, Encode(mask, clear, all)) <==> Satisfied(bits, mask, all)
  {
    MaskRoundTrips(mask, clear, all);
    AllRoundTrips(mask, clear, all);
    AndCommutes(mask, bits);
  }

  /** A released task gets the bits without the control byte ... */
  lemma HandedBitsRoundTrip(bits: bv32)
    requires Plain(bits)
    ensures WasReleased(Handed(bits)) && Bits(Handed(bits)) == bits
  {
  }

  /** ... and a task that timed out can tell that it was not released. */
  lemma TimeoutIsRecognised(mask: bv32, clear: bool, all: bool)
    requires Plain(mask)
    ensures !WasReleased(Encode(mask, clear, all))
  {
  }
}
