/** A pointer and a 16-bit tag in one 64-bit word (idea/lockfree/stack-atomic-version.hpp,
    lines 6-48). */
module TagPtrs {
  import opened Bits

  const PTR_LIMIT := 0x1_0000_0000_0000

  /** PackPtr: the tag overwrites the top 16 bits of the pointer; a version wider than 16 bits is
      cut off. */
  function Pack(ptr: nat, version: int): nat {
    ptr % 0x1_0000_0000_0000 + 0x1_0000_0000_0000 * (version % 65536)
  }

  /** GetPtr. */
  function PtrOf(word: nat): nat {
    And(word, 0xFFFF_FFFF_FFFF)
  }

  /** GetTag. */
  function TagOf(word: nat): nat {
    Shr(word, 48) % 65536
  }

  /** GetNextTag. */
  function NextTag(word: nat): nat {
    And(TagOf(word) + 1, 65535)
  }

  lemma Halves(ptr: nat, version: int)
    ensures Pack(ptr, version) / 0x1_0000_0000_0000 == version % 65536
    ensures Pack(ptr, version) % 0x1_0000_0000_0000 == ptr % 0x1_0000_0000_0000
  {
    DivModUnique(Pack(ptr, version), 0x1_0000_0000_0000, version % 65536, ptr % 0x1_0000_0000_0000);
  }

  lemma ReadTag(word: nat)
    ensures TagOf(word) == word / 0x1_0000_0000_0000 % 65536
    ensures NextTag(word) == (TagOf(word) + 1) % 65536
  {
    hide And, Shr;
    Pow2Values();
    ShrIsQuotient(word, 48);
    AndMask(TagOf(word) + 1, 16);
  }

  lemma ReadPtr(word: nat)
    ensures PtrOf(word) == word % 0x1_0000_0000_0000
  {
    hide And;
    Pow2Values();
    AndMask(word, 48);
  }

  /** Unpacking gives back the tag modulo 2^16, and the pointer exactly if it fits in 48 bits. */
  lemma Unpack(ptr: nat, version: int)
    ensures TagOf(Pack(ptr, version)) == version % 65536
    ensures PtrOf(Pack(ptr, version)) == ptr <==> ptr < PTR_LIMIT
    ensures NextTag(Pack(ptr, version)) == (version + 1) % 65536
  {
    hide TagOf, PtrOf, NextTag, Pack;
    Halves(ptr, version);
    ReadTag(Pack(ptr, version));
    ReadPtr(Pack(ptr, version));
  }

  /** A pointer is cut off to 48 bits, and a version to 16, once. */
  lemma Repack(ptr: nat, version: int)
    ensures PtrOf(Pack(ptr, version % 65536)) == ptr % 0x1_0000_0000_0000 < PTR_LIMIT
    ensures Pack(ptr % 0x1_0000_0000_0000, version) == Pack(ptr, version % 65536)
  {
    hide PtrOf;
    ReadPtr(Pack(ptr, version % 65536));
    Halves(ptr, version % 65536);
    Remainder(ptr);
  }

  lemma Remainder(ptr: nat)
    ensures ptr % 0x1_0000_0000_0000 % 0x1_0000_0000_0000 == ptr % 0x1_0000_0000_0000 < PTR_LIMIT
  {}
}
