/** What the resource pool promises, for every run. */
module PoolTheorems {
  import opened Prelude
  import opened Bits
  import opened BlockIds
  import PoolSpec
  import opened ResourcePool
  import opened PoolSafety

  type Id = PoolSpec.Id
  type Tid = PoolSpec.Tid

  // ---------------------------------------------------------------- blocks

  /** Callers of fetch_block never end up with the same index, and never with one past the group
      or one where a block is already stored. */
  lemma NoBlockTwice(run: seq<(Tid, Action)>, s: State, t: Tid, u: Tid)
    requires Reaches(run, s) && t in s.pcs && s.pcs[t].Storing?
    ensures s.pcs[t].g < |s.groups| && s.pcs[t].index < GROUP_NBLOCK
    ensures s.pcs[t].index !in s.groups[s.pcs[t].g].blocks
    ensures u in s.pcs && u != t ==> s.pcs[u] != s.pcs[t]
  {
    RunKeeps(run, s);
    hide LocalsOk, ChunksOk, CarvedOk, UsersOk, NumbersOk, BlocksOk;
    assert GroupOk(s.pcs[t].g, s.groups[s.pcs[t].g], s.claimed[s.pcs[t].g], s.pcs);
    assert IsClaimed(s.pcs, s.pcs[t].g, s.pcs[t].index);
  }

  function ClaimedIndices(pcs: map<Tid, Pc>, g: nat): set<nat> {
    set t | t in pcs && pcs[t].Storing? && pcs[t].g == g :: pcs[t].index
  }

  /** A group's counter always equals the indices stored or claimed plus the callers that have
      overshot and not yet taken their addition back. */
  lemma CounterMeaning(run: seq<(Tid, Action)>, s: State, g: nat)
    requires Reaches(run, s) && g < |s.groups|
    ensures s.groups[g].blocks !! ClaimedIndices(s.pcs, g)
    ensures s.groups[g].nblock == |s.groups[g].blocks + ClaimedIndices(s.pcs, g)| + |Overshooters(s.pcs, g)|
    ensures |s.groups[g].blocks + ClaimedIndices(s.pcs, g)| <= GROUP_NBLOCK
    ensures Overshooters(s.pcs, g) != {} ==> |s.groups[g].blocks + ClaimedIndices(s.pcs, g)| == GROUP_NBLOCK
  {
    RunKeeps(run, s);
    hide LocalsOk, ChunksOk, CarvedOk, UsersOk, NumbersOk, BlocksOk;
    assert GroupOk(g, s.groups[g], s.claimed[g], s.pcs);
    GroupCount(g, s.groups[g], s.claimed[g], s.pcs);
  }

  lemma GroupCount(g: nat, group: Group, claimed: nat, pcs: map<Tid, Pc>)
    requires GroupOk(g, group, claimed, pcs)
    ensures group.blocks !! ClaimedIndices(pcs, g)
    ensures |group.blocks + ClaimedIndices(pcs, g)| == claimed
  {
    forall i: nat ensures IsClaimed(pcs, g, i) <==> i in ClaimedIndices(pcs, g) {}
    assert group.blocks + ClaimedIndices(pcs, g) == UpTo(claimed);
  }

  function UpTo(n: nat): (s: set<nat>)
    ensures forall i: nat :: i in s <==> i < n
    ensures |s| == n
  {
    if n == 0 then {} else UpTo(n - 1) + {n - 1}
  }

  // ---------------------------------------------------------------- ids

  lemma DistinctCount(ids: seq<Id>, where: map<Id, Place>, p: Place, id: Id)
    requires Holds(ids, where, p)
    ensures multiset(ids)[id] == if id in where && where[id] == p then 1 else 0
  {
    if id in ids {
      var k :| 0 <= k < |ids| && ids[k] == id;
      assert ids == ids[..k] + [id] + ids[k + 1..];
      assert id !in ids[..k] && id !in ids[k + 1..];
    }
  }

  /** Every id ever handed out is in exactly one place: with one user, in one thread's local chunk
      once, in one global chunk once, or lost with a push that failed.  Other ids are nowhere. */
  lemma EveryIdInOnePlace(run: seq<(Tid, Action)>, s: State, id: Id)
    requires Reaches(run, s)
    ensures id in s.where <==> IsCarved(id, s.nitem)
    ensures id in s.used <==> id in s.where && s.where[id] == Used
    ensures id in s.lost <==> id in s.where && s.where[id] == Lost
    ensures forall t :: t in s.locals ==>
              multiset(s.locals[t].free)[id] == if id in s.where && s.where[id] == InLocal(t) then 1 else 0
    ensures forall c :: 0 <= c < |s.chunks| ==>
              multiset(s.chunks[c])[id] == if id in s.where && s.where[id] == InChunk(c) then 1 else 0
    ensures id in s.where && s.where[id].InLocal? ==> s.where[id].t in s.locals
    ensures id in s.where && s.where[id].InChunk? ==> s.where[id].c < |s.chunks|
  {
    RunKeeps(run, s);
    hide GroupsOk, NumbersOk, BlocksOk;
    forall t | t in s.locals
      ensures multiset(s.locals[t].free)[id] == if id in s.where && s.where[id] == InLocal(t) then 1 else 0
    {
      DistinctCount(s.locals[t].free, s.where, InLocal(t), id);
    }
    forall c | 0 <= c < |s.chunks|
      ensures multiset(s.chunks[c])[id] == if id in s.where && s.where[id] == InChunk(c) then 1 else 0
    {
      DistinctCount(s.chunks[c], s.where, InChunk(c), id);
    }
  }

  /** Global chunks hold 1 to 128 ids, so taking the last id of a popped chunk never underflows,
      and local chunks fit their array. */
  lemma ChunkSizes(run: seq<(Tid, Action)>, s: State)
    requires Reaches(run, s)
    ensures forall c :: 0 <= c < |s.chunks| ==> 1 <= |s.chunks[c]| <= BLOCK_NITEM
    ensures forall t :: t in s.locals ==> |s.locals[t].free| <= BLOCK_NITEM
  {
    RunKeeps(run, s);
  }

  // ---------------------------------------------------------------- addresses

  /** address_resource (lines 288-307). */
  function Address(s: State, id: Id): Option<Item> {
    var blockIndex := id / 128;
    var groupIndex := Shr(blockIndex, 16);
    if groupIndex < MAX_NGROUP && groupIndex < |s.groups|
       && And(blockIndex, 65535) in s.groups[groupIndex].blocks && blockIndex in s.nitem
       && id - blockIndex * 128 < s.nitem[blockIndex]
    then Some(Item(groupIndex, And(blockIndex, 65535), id - blockIndex * 128))
    else None
  }

  /** address_resource finds an item exactly for the ids that were ever handed out, the item the id
      encodes, and a different one for every id. */
  lemma AddressFindsTheItem(run: seq<(Tid, Action)>, s: State, id: Id)
    requires Reaches(run, s)
    ensures Address(s, id).Some? <==> id in s.where
    ensures Address(s, id).Some? ==> Address(s, id).value.InRange() && IdOf(Address(s, id).value) == id
  {
    RunKeeps(run, s);
    hide LocalsOk, ChunksOk, UsersOk, BlocksOk, Shr, And;
    AddressParts(s, id);
  }

  lemma AddressParts(s: State, id: Id)
    requires CarvedOk(s.where, s.nitem) && NumbersOk(s.groups, s.nitem) && |s.groups| <= MAX_NGROUP
    ensures Address(s, id).Some? <==> id in s.where
    ensures Address(s, id).Some? ==> Address(s, id).value.InRange() && IdOf(Address(s, id).value) == id
  {
    hide Shr, And;
    MaskAndShift(id / 128);
    assert id in s.where <==> IsCarved(id, s.nitem);
  }

  lemma AddressesDiffer(run: seq<(Tid, Action)>, s: State, id: Id, id': Id)
    requires Reaches(run, s) && id in s.where && id' in s.where && id != id'
    ensures Address(s, id) != Address(s, id')
  {
    AddressFindsTheItem(run, s, id);
    AddressFindsTheItem(run, s, id');
  }

  // ---------------------------------------------------------------- the pool as its users see it

  function IdSet(ids: seq<Id>): set<Id> {
    set x | x in ids
  }

  function Abs(s: State): PoolSpec.Pool {
    PoolSpec.Pool(s.used,
                  map t | t in s.locals :: IdSet(s.locals[t].free),
                  set c, x | 0 <= c < |s.chunks| && x in s.chunks[c] :: x,
                  s.lost)
  }

  /** What a step is to the users of the pool. */
  ghost predicate UserStep(s: State, t: Tid, a: Action, s': State)
    requires Here(s, t)
  {
    match a
    case AGetLocal => s.locals[t].free != [] && IsGet(s, t, Last(s.locals[t].free), PoolSpec.FromLocal, s')
    case AGetChunk =>
      s.chunks != [] && Last(s.chunks) != []
      && IsGet(s, t, Last(Last(s.chunks)), PoolSpec.FromChunk(IdSet(Last(s.chunks))), s')
    case ACarve => CanCarve(s, t) && IsGet(s, t, CarvedId(s, t), PoolSpec.Fresh, s')
    case APut(id, ok) => Abs(s') == PoolSpec.Return(Abs(s), t, id, PutSink(s, t, ok))
    case ALeave(ok) => Abs(s') == PoolSpec.Leave(Abs(s), t, ok)
    case _ => Abs(s') == Abs(s)
  }

  ghost predicate IsGet(s: State, t: Tid, id: Id, src: PoolSpec.Source, s': State) {
    PoolSpec.CanGet(Abs(s), t, id, src) && Abs(s') == PoolSpec.Get(Abs(s), t, id, src)
  }

  /** Every step of the pool is a step of PoolSpec, or invisible to its users: ids come out of the
      caller's own chunk, of a global chunk when that is empty, or of fresh memory; a returned id
      stays in the caller's own chunk unless it is lost. */
  lemma PoolRefinesSpec(run: seq<(Tid, Action)>, s: State, t: Tid, a: Action)
    requires Reaches(run, s) && Enabled(s, t, a)
    ensures Abs(s).Valid()
    ensures UserStep(s, t, a, Do(s, t, a))
  {
    hide PoolSpec.Pool.Valid, PoolSpec.CanGet, PoolSpec.Get, PoolSpec.Return, PoolSpec.Leave;
    RunKeeps(run, s);
    AbsIsValid(s);
    match a
    case AGetLocal => GetLocalRefines(s, t);
    case AGetChunk => GetChunkRefines(s, t);
    case ACarve => CarveRefines(s, t);
    case APut(id, ok) => PutRefines(s, t, id, ok);
    case ALeave(ok) => LeaveRefines(s, t, ok);
    case _ => OthersAreInvisible(s, t, a);
  }

  lemma AbsIsValid(s: State)
    requires Inv(s)
    ensures Abs(s).Valid()
  {
    hide GroupsOk, NumbersOk, BlocksOk, CarvedOk;
    var p := Abs(s);
    forall x ensures x in p.global <==> x in s.where && s.where[x].InChunk? {
      if x in s.where && s.where[x].InChunk? {
        var c := s.where[x].c;
        assert Holds(s.chunks[c], s.where, InChunk(c));
        assert x in s.chunks[c];
      }
    }
  }

  lemma OthersAreInvisible(s: State, t: Tid, a: Action)
    requires Enabled(s, t, a)
    requires !a.AGetLocal? && !a.AGetChunk? && !a.ACarve? && !a.APut? && !a.ALeave?
    ensures Abs(Do(s, t, a)) == Abs(s)
  {
    var s' := Do(s, t, a);
    assert s'.locals.Keys == s.locals.Keys && s'.chunks == s.chunks;
    assert forall u :: u in s.locals ==> s'.locals[u].free == s.locals[u].free;
  }

  lemma GetLocalRefines(s: State, t: Tid)
    requires Inv(s) && CanGetLocal(s, t)
    ensures IsGet(s, t, Last(s.locals[t].free), PoolSpec.FromLocal, GetLocal(s, t))
  {
    hide GroupsOk, NumbersOk, BlocksOk, CarvedOk, ChunksOk, UsersOk;
    var s', free := GetLocal(s, t), s.locals[t].free;
    assert Holds(free, s.where, InLocal(t));
    ButLastSet(free);
    assert Abs(s').local == Abs(s).local[t := IdSet(free) - {Last(free)}];
  }

  lemma ButLastSet(ids: seq<Id>)
    requires Distinct(ids) && ids != []
    ensures IdSet(ButLast(ids)) == IdSet(ids) - {Last(ids)} && Last(ids) in IdSet(ids)
  {
    forall x ensures x in ButLast(ids) <==> x in ids && x != Last(ids) {
      if x in ids && x != Last(ids) {
        var k :| 0 <= k < |ids| && ids[k] == x;
        assert ButLast(ids)[k] == x;
      }
    }
  }

  lemma GetChunkRefines(s: State, t: Tid)
    requires Inv(s) && CanGetChunk(s, t)
    ensures IsGet(s, t, Last(Last(s.chunks)), PoolSpec.FromChunk(IdSet(Last(s.chunks))), GetChunk(s, t))
  {
    hide GroupsOk, NumbersOk, BlocksOk, CarvedOk, LocalsOk, UsersOk;
    var s', chunk, n := GetChunk(s, t), Last(s.chunks), |s.chunks| - 1;
    assert Holds(s.chunks[n], s.where, InChunk(n));
    ButLastSet(chunk);
    assert Abs(s').local == Abs(s).local[t := IdSet(chunk) - {Last(chunk)}];
    GlobalWithoutLast(s);
  }

  lemma GlobalWithoutLast(s: State)
    requires ChunksOk(s.chunks, s.where) && s.chunks != []
    ensures IdSet(Last(s.chunks)) <= Abs(s).global
    ensures Abs(s.(chunks := ButLast(s.chunks))).global == Abs(s).global - IdSet(Last(s.chunks))
  {
    var n := |s.chunks| - 1;
    assert Holds(s.chunks[n], s.where, InChunk(n));
    forall c, x | 0 <= c < n && x in s.chunks[c] ensures x !in Last(s.chunks) {
      assert Holds(s.chunks[c], s.where, InChunk(c));
    }
    forall x | x in Last(s.chunks) ensures x in Abs(s).global { assert x in s.chunks[n]; }
    var cs := ButLast(s.chunks);
    forall x ensures x in Abs(s.(chunks := cs)).global <==> x in Abs(s).global && x !in Last(s.chunks) {
      if x in Abs(s).global && x !in Last(s.chunks) {
        var c :| 0 <= c < |s.chunks| && x in s.chunks[c];
        assert x in cs[c];
      }
    }
  }

  lemma CarveRefines(s: State, t: Tid)
    requires Inv(s) && CanCarve(s, t)
    ensures IsGet(s, t, CarvedId(s, t), PoolSpec.Fresh, Carve(s, t))
  {
    hide GroupsOk, NumbersOk, CarvedOk, ChunksOk, UsersOk;
    CarveIds(s.where, s.nitem, s.locals[t].block.value);
    NotIssued(s, CarvedId(s, t));
    assert Abs(Carve(s, t)).local == Abs(s).local;
    CarvingHasNoneFree(s, t);
  }

  lemma NotIssued(s: State, id: Id)
    requires Inv(s) && id !in s.where
    ensures !Abs(s).Issued(id)
  {
    hide GroupsOk, NumbersOk, CarvedOk, BlocksOk;
    var p := Abs(s);
    forall t | t in p.local ensures id !in p.local[t] { assert Holds(s.locals[t].free, s.where, InLocal(t)); }
    forall c | 0 <= c < |s.chunks| ensures id !in s.chunks[c] { assert Holds(s.chunks[c], s.where, InChunk(c)); }
  }

  lemma CarvingHasNoneFree(s: State, t: Tid)
    requires BlocksOk(s.locals, s.pcs, s.nitem) && CanCarve(s, t)
    ensures Abs(s).LocalOf(t) == {}
  {}

  lemma PutRefines(s: State, t: Tid, id: Id, ok: bool)
    requires Inv(s) && CanPut(s, t, id)
    ensures Abs(Put(s, t, id, ok)) == PoolSpec.Return(Abs(s), t, id, PutSink(s, t, ok))
  {
    hide Inv;
    var s', free := Put(s, t, id, ok), s.locals[t].free;
    match PutSink(s, t, ok)
    case Kept =>
      assert IdSet(free + [id]) == IdSet(free) + {id};
      assert Abs(s').local == Abs(s).local[t := IdSet(free) + {id}];
    case Spilled =>
      assert IdSet([id]) == {id};
      assert Abs(s').local == Abs(s).local[t := {id}];
      GlobalWithMore(s, free);
    case Dropped =>
      assert Abs(s').local == Abs(s).local;
  }

  lemma GlobalWithMore(s: State, ids: seq<Id>)
    ensures Abs(s.(chunks := s.chunks + [ids])).global == Abs(s).global + IdSet(ids)
  {
    var cs := s.chunks + [ids];
    forall x ensures x in Abs(s.(chunks := cs)).global <==> x in Abs(s).global || x in ids {
      if x in Abs(s).global {
        var c :| 0 <= c < |s.chunks| && x in s.chunks[c];
        assert x in cs[c];
      }
      if x in ids { assert x in cs[|s.chunks|]; }
    }
  }

  lemma LeaveRefines(s: State, t: Tid, ok: bool)
    requires Inv(s) && CanLeave(s, t)
    ensures Abs(ResourcePool.Leave(s, t, ok)) == PoolSpec.Leave(Abs(s), t, ok)
  {
    hide Inv;
    var s', free := ResourcePool.Leave(s, t, ok), s.locals[t].free;
    assert IdSet([]) == {};
    assert Abs(s').local == Abs(s).local[t := {}];
    if free != [] && ok { GlobalWithMore(s, free); }
  }

  // ---------------------------------------------------------------- progress

  /** A thread in the middle of get always has a next step. */
  lemma GetIsNeverStuck(run: seq<(Tid, Action)>, s: State, t: Tid)
    requires Reaches(run, s) && Here(s, t) && s.pcs[t] != Ready
    ensures exists a :: Enabled(s, t, a)
  {
    hide LocalsOk, ChunksOk, UsersOk, CarvedOk, GroupsOk, NumbersOk;
    RunKeeps(run, s);
    PcBounds(s, t);
    assert Enabled(s, t, match s.pcs[t]
                         case Missed => if CanCarve(s, t) then ACarve else AStartFetch
                         case Looping => ALoad
                         case Loaded(_) => AAdd
                         case Storing(_, _) => AStore
                         case Overshot(_) => ASub
                         case Creating(_) => if CanCreate(s, t) then ACreate else AGiveUp
                         case _ => ACarve);
  }

  lemma PcBounds(s: State, t: Tid)
    requires GroupsOk(s.groups, s.claimed, s.pcs) && t in s.pcs
    ensures PcOk(s.pcs[t], |s.groups|) && |s.claimed| == |s.groups|
    ensures s.pcs[t].Overshot? ==> s.groups[s.pcs[t].g].nblock > 0
  {
    if s.pcs[t].Overshot? {
      assert GroupOk(s.pcs[t].g, s.groups[s.pcs[t].g], s.claimed[s.pcs[t].g], s.pcs);
      assert t in Overshooters(s.pcs, s.pcs[t].g);
    }
  }
}
