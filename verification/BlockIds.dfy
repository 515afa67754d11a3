/** What a resource id means: item "offset" of block "block" of group "group"
    (idea/resource_pool_inl.h, the address functions at lines 278-308). */
module BlockIds {
  import opened Bits

  const BLOCK_NITEM := 128
  const GROUP_NBLOCK := 65536
  const MAX_NGROUP := 65536

  datatype Item = Item(group: nat, block: nat, offset: nat) {
    predicate InRange() {
      group < MAX_NGROUP && block < GROUP_NBLOCK && offset < BLOCK_NITEM
    }
  }

  /** fetch_block numbers the blocks of all groups (line 152), and get the items of all blocks
      (lines 237 and 246). */
  function IdOf(i: Item): nat {
    (i.group * 65536 + i.block) * 128 + i.offset
  }

  /** unsafe_address_resource, with its division, shift and mask. */
  function ItemOf(id: nat): Item {
    var blockIndex := id / 128;
    Item(Shr(blockIndex, 16), And(blockIndex, 65535), id - blockIndex * 128)
  }

  /** Decoding undoes encoding, for every item there can be. */
  lemma DecodeEncode(i: Item)
    requires i.InRange()
    ensures ItemOf(IdOf(i)) == i && IdOf(i) < 0x80_0000_0000
  {
    var blockIndex := i.group * 65536 + i.block;
    DivModUnique(IdOf(i), 128, blockIndex, i.offset);
    DivModUnique(blockIndex, 65536, i.group, i.block);
    MaskAndShift(blockIndex);
  }

  /** Encoding undoes decoding, for every id there can be. */
  lemma EncodeDecode(id: nat)
    requires id < 0x80_0000_0000
    ensures ItemOf(id).InRange() && IdOf(ItemOf(id)) == id
  {
    MaskAndShift(id / 128);
  }

  lemma MaskAndShift(x: nat)
    ensures Shr(x, 16) == x / 65536 && And(x, 65535) == x % 65536
  {
    Pow2Values();
    ShrIsQuotient(x, 16);
    AndMask(x, 16);
  }

  /** Different items have different ids. */
  lemma IdsAreInjective(i: Item, j: Item)
    requires i.InRange() && j.InRange() && IdOf(i) == IdOf(j)
    ensures i == j
  {
    DecodeEncode(i);
    DecodeEncode(j);
  }
}
