/** Task ids: a slot of the resource pool packed with the 32-bit version its task had
    when it was scheduled (idea/timer_thread.cpp, idea/timer_thread.h). */
module TaskIds {
  import opened Bits

  const UINT32 := 0x1_0000_0000
  const UINT64 := 0x1_0000_0000_0000_0000

  /** How often a slot can be reused before a version comes back: 2^32 / 4. */
  const REUSE_WINDOW := 0x4000_0000

  function MakeTaskId(slot: nat, version: nat): nat {
    Or(Shl(version, 32), slot)
  }

  function SlotOf(id: nat): nat {
    And(id, 0xFFFF_FFFF)
  }

  function VersionOf(id: nat): nat {
    Shr(id, 32) % 0x1_0000_0000
  }

  lemma PackedSum(slot: nat, version: nat)
    requires slot < UINT64 && version < UINT32
    ensures var high := Or(version, slot / 0x1_0000_0000);
            MakeTaskId(slot, version) == 0x1_0000_0000 * high + slot % 0x1_0000_0000 && high < UINT32
  {
    Pow2Values();
    OrShifted(version, slot, 32);
    ShrIsQuotient(slot, 32);
    ShlIsProduct(Or(version, Shr(slot, 32)), 32);
    OrBound(version, slot / 0x1_0000_0000, 32);
  }

  /** A slot number above 32 bits leaks into the version half. */
  lemma PackedHalves(slot: nat, version: nat)
    requires slot < UINT64 && version < UINT32
    ensures SlotOf(MakeTaskId(slot, version)) == slot % 0x1_0000_0000
    ensures VersionOf(MakeTaskId(slot, version)) == Or(version, slot / 0x1_0000_0000)
    ensures MakeTaskId(slot, version) < UINT64
  {
    PackedSum(slot, version);
    var id := MakeTaskId(slot, version);
    hide MakeTaskId, Or, And, Shr, Shl;
    Pow2Values();
    ShrIsQuotient(id, 32);
    AndMask(id, 32);
    DivModUnique(id, 0x1_0000_0000, Or(version, slot / 0x1_0000_0000), slot % 0x1_0000_0000);
  }

  /** Unpacking gives back what was packed exactly when the slot number fits in 32 bits. */
  lemma RoundTrip(slot: nat, version: nat)
    requires slot < UINT64 && version < UINT32
    ensures SlotOf(MakeTaskId(slot, version)) == slot && VersionOf(MakeTaskId(slot, version)) == version
            <==> slot < UINT32
  {
    PackedHalves(slot, version);
    if slot < UINT32 { OrZero(version); }
  }

  /** The life of one task in a slot, read off the low two bits of its version. */
  datatype Phase = Pending | Running | Removed {
    function Code(): nat {
      match this case Pending => 0 case Running => 1 case Removed => 2
    }
  }

  /** The version word of a slot scheduled "gen" times: it starts at 2 and every use of the
      slot adds 4 to it, modulo 2^32. */
  function VersionAt(gen: nat, phase: Phase): nat {
    (4 * gen + phase.Code()) % 0x1_0000_0000
  }

  lemma VersionIs(gen: nat, phase: Phase)
    ensures VersionAt(gen, phase) == 4 * (gen % 0x4000_0000) + phase.Code()
  {
    DivModUnique(4 * gen + phase.Code(), 0x1_0000_0000, gen / 0x4000_0000, 4 * (gen % 0x4000_0000) + phase.Code());
  }

  lemma NextGen(gen: nat)
    ensures (gen + 1) % 0x4000_0000 == if gen % 0x4000_0000 == 0x3FFF_FFFF then 0 else gen % 0x4000_0000 + 1
  {}

  /** The additions the code performs on the version word, in 32-bit arithmetic. */
  lemma VersionSteps(gen: nat)
    ensures VersionAt(0, Removed) == 2
    ensures (VersionAt(gen, Removed) + 2) % 0x1_0000_0000 == VersionAt(gen + 1, Pending)
    ensures (VersionAt(gen, Pending) + 1) % 0x1_0000_0000 == VersionAt(gen, Running)
    ensures (VersionAt(gen, Pending) + 2) % 0x1_0000_0000 == VersionAt(gen, Removed)
  {
    VersionIs(0, Removed);
    VersionIs(gen, Removed);
    VersionIs(gen, Pending);
    VersionIs(gen, Running);
    VersionIs(gen + 1, Pending);
    NextGen(gen);
  }

  lemma VersionShape(gen: nat, phase: Phase)
    ensures VersionAt(gen, phase) < UINT32 && VersionAt(gen, phase) % 4 == phase.Code()
  {
    VersionIs(gen, phase);
  }

  lemma SameRemainder(a: nat, b: nat)
    requires a <= b
    ensures a % 0x4000_0000 == b % 0x4000_0000 <==> (b - a) % 0x4000_0000 == 0
  {}

  /** The id of use "g0" matches the slot's version at use "g" exactly when the task is pending
      and g0 is congruent to g modulo 2^30; within the window that means the same use. */
  lemma StaleIds(g0: nat, g: nat, phase: Phase)
    requires g0 <= g
    ensures VersionAt(g, phase) == VersionAt(g0, Pending) <==> phase == Pending && (g - g0) % 0x4000_0000 == 0
    ensures VersionAt(g, phase) == VersionAt(g0, Running) <==> phase == Running && (g - g0) % 0x4000_0000 == 0
    ensures g - g0 < REUSE_WINDOW ==> ((g - g0) % 0x4000_0000 == 0 <==> g == g0)
  {
    VersionIs(g, phase);
    VersionIs(g0, Pending);
    VersionIs(g0, Running);
    SameRemainder(g0, g);
  }
}
