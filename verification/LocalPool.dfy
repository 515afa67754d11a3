/** The free-id half of a thread's local pool as the code has it: a fixed array with a fill
    count, copied to and from the global list of chunks (idea/resource_pool_inl.h, lines
    99-134, 221-233 and 254-268).  Its methods do in one go what the steps GetLocal, GetChunk,
    Miss and Put of ResourcePool do to the same free ids and chunks. */
module LocalPools {
  import opened Prelude
  import opened BlockIds
  import PoolSpec

  type Id = PoolSpec.Id

  /** _free_chunks; each element is a chunk of exactly nfree ids. */
  class FreeChunks {
    var chunks: seq<seq<Id>>

    constructor ()
      ensures chunks == []
    {
      chunks := [];
    }
  }

  class LocalPool {
    const pool: FreeChunks
    const ids: array<Id>
    var nfree: nat

    ghost predicate Valid()
      reads this, pool, ids
    {
      && ids.Length == BLOCK_NITEM && nfree <= BLOCK_NITEM
      && forall c :: 0 <= c < |pool.chunks| ==> 1 <= |pool.chunks[c]| <= BLOCK_NITEM
    }

    ghost function Free(): seq<Id>
      reads this, ids
      requires nfree <= ids.Length
    {
      ids[..nfree]
    }

    constructor (pool: FreeChunks)
      requires forall c :: 0 <= c < |pool.chunks| ==> 1 <= |pool.chunks[c]| <= BLOCK_NITEM
      ensures Valid() && fresh(ids) && this.pool == pool && Free() == []
    {
      this.pool := pool;
      ids := new Id[BLOCK_NITEM](_ => 0);
      nfree := 0;
    }

    /** pop_free_chunk: the memcpy of line 115 fills the array from the last chunk. */
    method PopFreeChunk() returns (ok: bool)
      requires Valid() && nfree == 0
      modifies this`nfree, ids, pool
      ensures Valid()
      ensures ok <==> old(pool.chunks) != []
      ensures ok ==> Free() == Last(old(pool.chunks)) && pool.chunks == ButLast(old(pool.chunks))
      ensures !ok ==> Free() == [] && pool.chunks == old(pool.chunks)
    {
      if pool.chunks == [] {
        return false;
      }
      var p := Last(pool.chunks);
      pool.chunks := ButLast(pool.chunks);
      nfree := |p|;
      for i := 0 to |p|
        modifies ids
        invariant ids[..i] == p[..i]
      {
        ids[i] := p[i];
      }
      return true;
    }

    /** push_free_chunk; "ok" is the outcome of malloc. */
    method PushFreeChunk(ok: bool)
      requires Valid() && nfree > 0
      modifies pool
      ensures Valid()
      ensures pool.chunks == if ok then old(pool.chunks) + [Free()] else old(pool.chunks)
    {
      if ok {
        pool.chunks := pool.chunks + [ids[..nfree]];
      }
    }

    /** The part of get that finds a free id. */
    method GetFree() returns (id: Option<Id>)
      requires Valid()
      modifies this`nfree, ids, pool
      ensures Valid()
      ensures old(Free()) != [] ==>
                id == Some(Last(old(Free()))) && Free() == ButLast(old(Free())) && pool.chunks == old(pool.chunks)
      ensures old(Free()) == [] && old(pool.chunks) != [] ==>
                && id == Some(Last(Last(old(pool.chunks)))) && Free() == ButLast(Last(old(pool.chunks)))
                && pool.chunks == ButLast(old(pool.chunks))
      ensures old(Free()) == [] && old(pool.chunks) == [] ==>
                id == None && Free() == [] && pool.chunks == old(pool.chunks)
    {
      if nfree > 0 {
        nfree := nfree - 1;
        return Some(ids[nfree]);
      }
      var popped := PopFreeChunk();
      if popped {
        assert |Free()| == nfree;
        nfree := nfree - 1;
        return Some(ids[nfree]);
      }
      return None;
    }

    /** return_resource: 0 if the id was kept, -1 if it was lost. */
    method ReturnResource(id: Id, ok: bool) returns (status: int)
      requires Valid()
      modifies this`nfree, ids, pool
      ensures Valid()
      ensures |old(Free())| < BLOCK_NITEM ==>
                status == 0 && Free() == old(Free()) + [id] && pool.chunks == old(pool.chunks)
      ensures |old(Free())| == BLOCK_NITEM && ok ==>
                status == 0 && Free() == [id] && pool.chunks == old(pool.chunks) + [old(Free())]
      ensures |old(Free())| == BLOCK_NITEM && !ok ==>
                status == -1 && Free() == old(Free()) && pool.chunks == old(pool.chunks)
    {
      if nfree < BLOCK_NITEM {
        ids[nfree] := id;
        nfree := nfree + 1;
        return 0;
      }
      PushFreeChunk(ok);
      if ok {
        nfree := 1;
        ids[0] := id;
        return 0;
      }
      return -1;
    }
  }
}
