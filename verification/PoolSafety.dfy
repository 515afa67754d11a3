/** The resource pool hands out every id to one user at a time, whatever the interleaving, and
    behaves as PoolSpec says. */
module PoolSafety {
  import opened Prelude
  import opened BlockIds
  import opened PoolSpec
  import opened ResourcePool

  // ---------------------------------------------------------------- the invariant

  /** "ids" lists exactly the ids whose place is p, each once. */
  ghost predicate Holds(ids: seq<Id>, where: map<Id, Place>, p: Place) {
    Distinct(ids) && forall x :: x in ids <==> x in where && where[x] == p
  }

  ghost predicate LocalsOk(locals: map<Tid, LocalPool>, where: map<Id, Place>) {
    && (forall t :: t in locals ==> |locals[t].free| <= BLOCK_NITEM && Holds(locals[t].free, where, InLocal(t)))
    && (forall x :: x in where && where[x].InLocal? ==> where[x].t in locals)
  }

  ghost predicate ChunksOk(chunks: seq<seq<Id>>, where: map<Id, Place>) {
    && (forall c :: 0 <= c < |chunks| ==> 1 <= |chunks[c]| <= BLOCK_NITEM && Holds(chunks[c], where, InChunk(c)))
    && (forall x :: x in where && where[x].InChunk? ==> where[x].c < |chunks|)
  }

  ghost predicate UsersOk(used: set<Id>, lost: set<Id>, where: map<Id, Place>) {
    && (forall x :: x in used <==> x in where && where[x] == Used)
    && (forall x :: x in lost <==> x in where && where[x] == Lost)
  }

  /** The item has been handed out at least once. */
  predicate IsCarved(id: Id, nitem: map<nat, nat>) {
    id / 128 in nitem && id % 128 < nitem[id / 128]
  }

  ghost predicate CarvedOk(where: map<Id, Place>, nitem: map<nat, nat>) {
    && (forall id: Id :: id in where <==> IsCarved(id, nitem))
    && (forall k :: k in nitem ==> nitem[k] <= BLOCK_NITEM)
  }

  /** Every stored block is the current block of at most one thread, and a thread that is
      getting an id from a block has no free one. */
  ghost predicate BlocksOk(locals: map<Tid, LocalPool>, pcs: map<Tid, Pc>, nitem: map<nat, nat>) {
    && locals.Keys == pcs.Keys
    && (forall t :: t in locals && locals[t].block.Some? ==> locals[t].block.value in nitem)
    && (forall t, u :: t in locals && u in locals && t != u && locals[t].block.Some? ==>
          locals[u].block != locals[t].block)
    && (forall t :: t in pcs && t in locals && pcs[t] == Carving ==>
          locals[t].block.Some? && locals[t].block.value in nitem && nitem[locals[t].block.value] == 0)
    && (forall t :: t in pcs && t in locals && pcs[t] != Ready ==> locals[t].free == [])
  }

  predicate PcOk(pc: Pc, n: nat) {
    match pc
    case Loaded(ngroup) => 1 <= ngroup <= n
    case Storing(g, _) => g < n
    case Overshot(g) => g < n
    case Creating(ngroup) => ngroup <= n
    case _ => true
  }

  /** The callers that have overshot group g and not yet taken their addition back. */
  function Overshooters(pcs: map<Tid, Pc>, g: nat): set<Tid> {
    set t | t in pcs && pcs[t] == Overshot(g)
  }

  /** Some caller has claimed this index of group g and not yet stored its block. */
  ghost predicate IsClaimed(pcs: map<Tid, Pc>, g: nat, i: nat) {
    exists t :: t in pcs && pcs[t] == Storing(g, i)
  }

  ghost predicate GroupOk(g: nat, group: Group, claimed: nat, pcs: map<Tid, Pc>) {
    && claimed <= GROUP_NBLOCK
    && group.nblock == claimed + |Overshooters(pcs, g)|
    && (Overshooters(pcs, g) != {} ==> claimed == GROUP_NBLOCK)
    && (forall i: nat :: i < claimed <==> i in group.blocks || IsClaimed(pcs, g, i))
    && (forall i: nat :: i in group.blocks ==> !IsClaimed(pcs, g, i))
  }

  ghost predicate GroupsOk(groups: seq<Group>, claimed: seq<nat>, pcs: map<Tid, Pc>) {
    && |claimed| == |groups| <= MAX_NGROUP
    && (forall g :: 0 <= g < |groups| ==> GroupOk(g, groups[g], claimed[g], pcs))
    && (forall t :: t in pcs ==> PcOk(pcs[t], |groups|))
    && (forall t, u :: t in pcs && u in pcs && t != u && pcs[t].Storing? ==> pcs[u] != pcs[t])
  }

  ghost predicate NumbersOk(groups: seq<Group>, nitem: map<nat, nat>) {
    forall k: nat :: k in nitem <==> k / 65536 < |groups| && k % 65536 in groups[k / 65536].blocks
  }

  ghost predicate Inv(s: State) {
    && LocalsOk(s.locals, s.where)
    && ChunksOk(s.chunks, s.where)
    && UsersOk(s.used, s.lost, s.where)
    && CarvedOk(s.where, s.nitem)
    && BlocksOk(s.locals, s.pcs, s.nitem)
    && GroupsOk(s.groups, s.claimed, s.pcs)
    && NumbersOk(s.groups, s.nitem)
  }

  lemma InitInv(s: State)
    requires IsInit(s)
    ensures Inv(s)
  {}

  // ---------------------------------------------------------------- taking a free id

  lemma HoldsButLast(ids: seq<Id>, where: map<Id, Place>, p: Place, q: Place)
    requires Holds(ids, where, p) && ids != [] && p != q
    ensures Last(ids) in where
    ensures Holds(ButLast(ids), where[Last(ids) := q], p)
  {
    assert Last(ids) in ids;
    forall x ensures x in ButLast(ids) <==> x in ids && x != Last(ids) {
      if x in ids && x != Last(ids) {
        var k :| 0 <= k < |ids| && ids[k] == x;
        assert ButLast(ids)[k] == x;
      }
    }
  }

  lemma HoldsAdd(ids: seq<Id>, where: map<Id, Place>, p: Place, id: Id)
    requires Holds(ids, where, p) && id in where && where[id] != p
    ensures Holds(ids + [id], where[id := p], p)
  {}

  lemma HoldsOther(ids: seq<Id>, where: map<Id, Place>, p: Place, id: Id, q: Place)
    requires Holds(ids, where, p) && (id in where ==> where[id] != p) && q != p
    ensures Holds(ids, where[id := q], p)
  {}

  /** An id that is in no free list changes its place to none of them. */
  lemma OutsideLocals(locals: map<Tid, LocalPool>, where: map<Id, Place>, id: Id, q: Place)
    requires LocalsOk(locals, where) && (id in where ==> !where[id].InLocal?) && !q.InLocal?
    ensures LocalsOk(locals, where[id := q])
  {
    forall t | t in locals ensures Holds(locals[t].free, where[id := q], InLocal(t)) {
      HoldsOther(locals[t].free, where, InLocal(t), id, q);
    }
  }

  lemma OutsideChunks(chunks: seq<seq<Id>>, where: map<Id, Place>, id: Id, q: Place)
    requires ChunksOk(chunks, where) && (id in where ==> !where[id].InChunk?) && !q.InChunk?
    ensures ChunksOk(chunks, where[id := q])
  {
    forall c | 0 <= c < |chunks| ensures Holds(chunks[c], where[id := q], InChunk(c)) {
      HoldsOther(chunks[c], where, InChunk(c), id, q);
    }
  }

  /** Thread t's free list becomes "free", and the places of the other threads' ids do not change. */
  lemma OneLocal(locals: map<Tid, LocalPool>, where: map<Id, Place>, where': map<Id, Place>, t: Tid, l: LocalPool)
    requires LocalsOk(locals, where) && t in locals
    requires |l.free| <= BLOCK_NITEM && Holds(l.free, where', InLocal(t))
    requires forall x :: x in where && where[x].InLocal? && where[x].t != t ==> x in where' && where'[x] == where[x]
    requires forall x :: x in where' && where'[x].InLocal? && where'[x].t != t ==> x in where && where[x] == where'[x]
    ensures LocalsOk(locals[t := l], where')
  {
    var locals' := locals[t := l];
    forall u | u in locals' ensures |locals'[u].free| <= BLOCK_NITEM && Holds(locals'[u].free, where', InLocal(u)) {
      if u != t { assert Holds(locals[u].free, where, InLocal(u)); }
    }
  }

  lemma GetLocalKeeps(s: State, t: Tid)
    requires Inv(s) && CanGetLocal(s, t)
    ensures Inv(GetLocal(s, t))
  {
    hide GroupsOk, NumbersOk, LocalsOk, ChunksOk;
    var l := s.locals[t];
    var id := Last(l.free);
    var where' := s.where[id := Used];
    assert Holds(l.free, s.where, InLocal(t)) by { LocalFact(s, t); }
    HoldsButLast(l.free, s.where, InLocal(t), Used);
    assert id in l.free;
    OneLocal(s.locals, s.where, where', t, l.(free := ButLast(l.free))) by { LocalFact(s, t); }
    OutsideChunks(s.chunks, s.where, id, Used);
  }

  lemma LocalFact(s: State, t: Tid)
    requires LocalsOk(s.locals, s.where) && t in s.locals
    ensures |s.locals[t].free| <= BLOCK_NITEM && Holds(s.locals[t].free, s.where, InLocal(t))
  {}

  // ---------------------------------------------------------------- moving whole chunks

  lemma HoldsRelabeled(ids: seq<Id>, where: map<Id, Place>, p: Place, q: Place)
    requires Holds(ids, where, p) && p != q
    requires forall x :: x in where ==> where[x] != q
    ensures Holds(ids, Relabel(where, p, q), q)
  {}

  lemma HoldsUntouched(ids: seq<Id>, where: map<Id, Place>, r: Place, p: Place, q: Place)
    requires Holds(ids, where, r) && r != p && r != q
    ensures Holds(ids, Relabel(where, p, q), r)
  {}

  /** A thread with no free id of its own takes over the last chunk. */
  lemma GetChunkKeeps(s: State, t: Tid)
    requires Inv(s) && CanGetChunk(s, t)
    ensures Inv(GetChunk(s, t))
  {
    hide GroupsOk, NumbersOk, LocalsOk, ChunksOk, CarvedOk, BlocksOk, UsersOk;
    var n := |s.chunks| - 1;
    var chunk := Last(s.chunks);
    var id := Last(chunk);
    var w1 := Relabel(s.where, InChunk(n), InLocal(t));
    var w2 := w1[id := Used];
    ChunkFact(s, n);
    NoneIsLocal(s, t);
    HoldsRelabeled(chunk, s.where, InChunk(n), InLocal(t));
    HoldsButLast(chunk, w1, InLocal(t), Used);
    OneLocal(s.locals, s.where, w2, t, s.locals[t].(free := ButLast(chunk)));
    PoppedChunks(s.chunks, s.where, t);
    assert id in chunk;
    OutsideChunks(ButLast(s.chunks), w1, id, Used);
    SameKeys(s.where, w2, s.nitem);
    ChunkUsers(s, w1, id);
    SameBlocks(s, t, s.locals[t].(free := ButLast(chunk)));
  }

  lemma ChunkFact(s: State, c: nat)
    requires ChunksOk(s.chunks, s.where) && c < |s.chunks|
    ensures 1 <= |s.chunks[c]| <= BLOCK_NITEM && Holds(s.chunks[c], s.where, InChunk(c))
  {}

  lemma NoneIsLocal(s: State, t: Tid)
    requires LocalsOk(s.locals, s.where) && t in s.locals && s.locals[t].free == []
    ensures forall x :: x in s.where ==> s.where[x] != InLocal(t)
  {
    assert Holds(s.locals[t].free, s.where, InLocal(t));
  }

  lemma PoppedChunks(chunks: seq<seq<Id>>, where: map<Id, Place>, t: Tid)
    requires ChunksOk(chunks, where) && chunks != []
    ensures ChunksOk(ButLast(chunks), Relabel(where, InChunk(|chunks| - 1), InLocal(t)))
  {
    var n := |chunks| - 1;
    forall c | 0 <= c < n ensures Holds(chunks[c], Relabel(where, InChunk(n), InLocal(t)), InChunk(c)) {
      HoldsUntouched(chunks[c], where, InChunk(c), InChunk(n), InLocal(t));
    }
  }

  lemma SameKeys(where: map<Id, Place>, where': map<Id, Place>, nitem: map<nat, nat>)
    requires CarvedOk(where, nitem) && where'.Keys == where.Keys
    ensures CarvedOk(where', nitem)
  {}

  lemma ChunkUsers(s: State, w1: map<Id, Place>, id: Id)
    requires UsersOk(s.used, s.lost, s.where) && id in w1 && w1[id].InLocal? && w1.Keys == s.where.Keys
    requires forall x :: x in w1 ==> (w1[x] == Used <==> s.where[x] == Used) && (w1[x] == Lost <==> s.where[x] == Lost)
    ensures UsersOk(s.used + {id}, s.lost, w1[id := Used])
  {}

  lemma SameBlocks(s: State, t: Tid, l: LocalPool)
    requires BlocksOk(s.locals, s.pcs, s.nitem) && Here(s, t) && l.block == s.locals[t].block && s.pcs[t] == Ready
    ensures BlocksOk(s.locals[t := l], s.pcs, s.nitem)
  {}

  // ---------------------------------------------------------------- returning an id

  lemma PutKeeps(s: State, t: Tid, id: Id, ok: bool)
    requires Inv(s) && CanPut(s, t, id)
    ensures Inv(Put(s, t, id, ok))
  {
    match PutSink(s, t, ok)
    case Kept => PutKept(s, t, id, ok);
    case Spilled => PutSpilled(s, t, id, ok);
    case Dropped => PutDropped(s, t, id, ok);
  }

  lemma UserFact(s: State, id: Id)
    requires UsersOk(s.used, s.lost, s.where) && id in s.used
    ensures id in s.where && s.where[id] == Used
    ensures forall q: Place :: q.InLocal? ==> UsersOk(s.used - {id}, s.lost, s.where[id := q])
    ensures UsersOk(s.used - {id}, s.lost + {id}, s.where[id := Lost])
  {}

  lemma PutKept(s: State, t: Tid, id: Id, ok: bool)
    requires Inv(s) && CanPut(s, t, id) && PutSink(s, t, ok) == Kept
    ensures Inv(Put(s, t, id, ok))
  {
    hide GroupsOk, NumbersOk, LocalsOk, ChunksOk, CarvedOk, BlocksOk, UsersOk;
    var l := s.locals[t];
    LocalFact(s, t);
    UserFact(s, id);
    HoldsAdd(l.free, s.where, InLocal(t), id);
    OneLocal(s.locals, s.where, s.where[id := InLocal(t)], t, l.(free := l.free + [id]));
    OutsideChunks(s.chunks, s.where, id, InLocal(t));
    SameKeys(s.where, s.where[id := InLocal(t)], s.nitem);
    SameBlocks(s, t, l.(free := l.free + [id]));
  }

  lemma PushedChunks(chunks: seq<seq<Id>>, where: map<Id, Place>, t: Tid, ids: seq<Id>)
    requires ChunksOk(chunks, where) && Holds(ids, where, InLocal(t)) && 1 <= |ids| <= BLOCK_NITEM
    ensures ChunksOk(chunks + [ids], Relabel(where, InLocal(t), InChunk(|chunks|)))
  {
    var n := |chunks|;
    var where' := Relabel(where, InLocal(t), InChunk(n));
    forall c | 0 <= c <= n ensures Holds((chunks + [ids])[c], where', InChunk(c)) {
      if c < n {
        HoldsUntouched(chunks[c], where, InChunk(c), InLocal(t), InChunk(n));
      } else {
        HoldsRelabeled(ids, where, InLocal(t), InChunk(n));
      }
    }
  }

  lemma PutSpilled(s: State, t: Tid, id: Id, ok: bool)
    requires Inv(s) && CanPut(s, t, id) && PutSink(s, t, ok) == Spilled
    ensures Inv(Put(s, t, id, ok))
  {
    hide GroupsOk, NumbersOk, LocalsOk, ChunksOk, CarvedOk, BlocksOk, UsersOk;
    var l, n := s.locals[t], |s.chunks|;
    LocalFact(s, t);
    UserFact(s, id);
    var w1 := Relabel(s.where, InLocal(t), InChunk(n));
    var w2 := w1[id := InLocal(t)];
    PushedChunks(s.chunks, s.where, t, l.free);
    OutsideChunks(s.chunks + [l.free], w1, id, InLocal(t));
    OneLocal(s.locals, s.where, w2, t, l.(free := [id]));
    SameKeys(s.where, w2, s.nitem);
    SameBlocks(s, t, l.(free := [id]));
    RelabeledUsers(s, w1);
    assert UsersOk(s.used, s.lost, w1);
    UserFact(s.(where := w1), id);
  }

  lemma RelabeledUsers(s: State, w1: map<Id, Place>)
    requires UsersOk(s.used, s.lost, s.where) && w1.Keys == s.where.Keys
    requires forall x :: x in w1 ==> (w1[x] == Used <==> s.where[x] == Used) && (w1[x] == Lost <==> s.where[x] == Lost)
    ensures UsersOk(s.used, s.lost, w1)
  {}

  lemma PutDropped(s: State, t: Tid, id: Id, ok: bool)
    requires Inv(s) && CanPut(s, t, id) && PutSink(s, t, ok) == Dropped
    ensures Inv(Put(s, t, id, ok))
  {
    hide GroupsOk, NumbersOk, LocalsOk, ChunksOk, CarvedOk, BlocksOk, UsersOk;
    UserFact(s, id);
    OutsideLocals(s.locals, s.where, id, Lost);
    OutsideChunks(s.chunks, s.where, id, Lost);
    SameKeys(s.where, s.where[id := Lost], s.nitem);
  }

  lemma LeaveKeeps(s: State, t: Tid, ok: bool)
    requires Inv(s) && CanLeave(s, t)
    ensures Inv(ResourcePool.Leave(s, t, ok))
  {
    hide GroupsOk, NumbersOk, ChunksOk, CarvedOk, LocalsOk, UsersOk, BlocksOk;
    var l, n := s.locals[t], |s.chunks|;
    LocalFact(s, t);
    LeaveBlocks(s, t);
    if l.free == [] {
      OneLocal(s.locals, s.where, s.where, t, LocalPool([], None));
    } else if ok {
      var w := Relabel(s.where, InLocal(t), InChunk(n));
      PushedChunks(s.chunks, s.where, t, l.free);
      OneLocal(s.locals, s.where, w, t, LocalPool([], None));
      SameKeys(s.where, w, s.nitem);
      RelabeledUsers(s, w);
    } else {
      var w := Relabel(s.where, InLocal(t), Lost);
      LostChunks(s.chunks, s.where, t);
      OneLocal(s.locals, s.where, w, t, LocalPool([], None));
      SameKeys(s.where, w, s.nitem);
      LostUsers(s, t);
    }
  }

  lemma LeaveBlocks(s: State, t: Tid)
    requires BlocksOk(s.locals, s.pcs, s.nitem) && t in s.locals && t in s.pcs && s.pcs[t] == Ready
    ensures BlocksOk(s.locals[t := LocalPool([], None)], s.pcs, s.nitem)
  {}

  lemma LostChunks(chunks: seq<seq<Id>>, where: map<Id, Place>, t: Tid)
    requires ChunksOk(chunks, where)
    ensures ChunksOk(chunks, Relabel(where, InLocal(t), Lost))
  {
    forall c | 0 <= c < |chunks| ensures Holds(chunks[c], Relabel(where, InLocal(t), Lost), InChunk(c)) {
      HoldsUntouched(chunks[c], where, InChunk(c), InLocal(t), Lost);
    }
  }

  lemma LostUsers(s: State, t: Tid)
    requires UsersOk(s.used, s.lost, s.where) && t in s.locals && Holds(s.locals[t].free, s.where, InLocal(t))
    ensures UsersOk(s.used, s.lost + (set x | x in s.locals[t].free), Relabel(s.where, InLocal(t), Lost))
  {}

  // ---------------------------------------------------------------- carving an item from a block

  lemma CarveIds(where: map<Id, Place>, nitem: map<nat, nat>, k: nat)
    requires CarvedOk(where, nitem) && k in nitem && nitem[k] < BLOCK_NITEM
    ensures k * 128 + nitem[k] !in where
    ensures CarvedOk(where[k * 128 + nitem[k] := Used], nitem[k := nitem[k] + 1])
  {
    var id := k * 128 + nitem[k];
    var nitem' := nitem[k := nitem[k] + 1];
    forall x: Id ensures IsCarved(x, nitem') <==> IsCarved(x, nitem) || x == id {
      assert x / 128 == k && x % 128 == nitem[k] <==> x == id;
    }
  }

  /** A step from and to program points outside fetch_block's claims. */
  lemma PlainMove(groups: seq<Group>, claimed: seq<nat>, pcs: map<Tid, Pc>, t: Tid, pc': Pc)
    requires GroupsOk(groups, claimed, pcs) && t in pcs
    requires !pcs[t].Storing? && !pcs[t].Overshot? && !pc'.Storing? && !pc'.Overshot? && PcOk(pc', |groups|)
    ensures GroupsOk(groups, claimed, pcs[t := pc'])
  {
    forall g | 0 <= g < |groups| ensures GroupOk(g, groups[g], claimed[g], pcs[t := pc']) {
      assert GroupOk(g, groups[g], claimed[g], pcs);
      OtherGroup(g, groups[g], claimed[g], pcs, t, pc');
    }
  }

  /** A step of thread t that neither makes nor settles a claim on group g. */
  lemma OtherGroup(g: nat, group: Group, claimed: nat, pcs: map<Tid, Pc>, t: Tid, pc': Pc)
    requires GroupOk(g, group, claimed, pcs) && t in pcs
    requires pcs[t] != Overshot(g) && pc' != Overshot(g)
    requires (pcs[t].Storing? ==> pcs[t].g != g) && (pc'.Storing? ==> pc'.g != g)
    ensures GroupOk(g, group, claimed, pcs[t := pc'])
  {
    var pcs' := pcs[t := pc'];
    assert Overshooters(pcs', g) == Overshooters(pcs, g);
    forall i: nat ensures IsClaimed(pcs', g, i) <==> IsClaimed(pcs, g, i) {
      ClaimMoves(pcs, t, pc', g, i);
    }
  }

  lemma ClaimMoves(pcs: map<Tid, Pc>, t: Tid, pc': Pc, g: nat, i: nat)
    requires t in pcs && pcs[t] != Storing(g, i)
    ensures IsClaimed(pcs[t := pc'], g, i) <==> IsClaimed(pcs, g, i) || pc' == Storing(g, i)
  {
    var pcs' := pcs[t := pc'];
    if IsClaimed(pcs, g, i) {
      var u :| u in pcs && pcs[u] == Storing(g, i);
      assert pcs'[u] == Storing(g, i);
    }
    if pc' == Storing(g, i) { assert pcs'[t] == Storing(g, i); }
  }

  lemma MoveBlocks(locals: map<Tid, LocalPool>, pcs: map<Tid, Pc>, nitem: map<nat, nat>, t: Tid, pc': Pc)
    requires BlocksOk(locals, pcs, nitem) && t in pcs && t in locals && pc' != Carving
    requires pcs[t] != Ready || locals[t].free == []
    ensures BlocksOk(locals, pcs[t := pc'], nitem)
  {}

  lemma CarveKeeps(s: State, t: Tid)
    requires Inv(s) && CanCarve(s, t)
    ensures Inv(Carve(s, t))
  {
    hide GroupsOk, NumbersOk, LocalsOk, ChunksOk, CarvedOk, BlocksOk, UsersOk;
    var k := s.locals[t].block.value;
    var id := CarvedId(s, t);
    CarveIds(s.where, s.nitem, k);
    OutsideLocals(s.locals, s.where, id, Used);
    OutsideChunks(s.chunks, s.where, id, Used);
    NewUser(s, id);
    PlainMove(s.groups, s.claimed, s.pcs, t, Ready);
    CarveBlocks(s, t);
    SameNumbers(s.groups, s.nitem, s.nitem[k := s.nitem[k] + 1]);
  }

  lemma NewUser(s: State, id: Id)
    requires UsersOk(s.used, s.lost, s.where) && id !in s.where
    ensures UsersOk(s.used + {id}, s.lost, s.where[id := Used])
  {}

  lemma CarveBlocks(s: State, t: Tid)
    requires BlocksOk(s.locals, s.pcs, s.nitem) && CanCarve(s, t)
    ensures var k := s.locals[t].block.value;
            BlocksOk(s.locals, s.pcs[t := Ready], s.nitem[k := s.nitem[k] + 1])
  {}

  lemma SameNumbers(groups: seq<Group>, nitem: map<nat, nat>, nitem': map<nat, nat>)
    requires NumbersOk(groups, nitem) && nitem'.Keys == nitem.Keys
    ensures NumbersOk(groups, nitem')
  {}

  lemma GiveUpKeeps(s: State, t: Tid)
    requires Inv(s) && CanGiveUp(s, t)
    ensures Inv(GiveUp(s, t))
  {
    hide GroupsOk, NumbersOk, LocalsOk, ChunksOk, CarvedOk, BlocksOk, UsersOk;
    var l := s.locals[t].(block := None);
    LocalFact(s, t);
    OneLocal(s.locals, s.where, s.where, t, l);
    PlainMove(s.groups, s.claimed, s.pcs, t, Ready);
    GiveUpBlocks(s, t);
  }

  lemma GiveUpBlocks(s: State, t: Tid)
    requires BlocksOk(s.locals, s.pcs, s.nitem) && t in s.locals
    ensures BlocksOk(s.locals[t := s.locals[t].(block := None)], s.pcs[t := Ready], s.nitem)
  {}

  lemma MoveKeeps(s: State, t: Tid, pc': Pc)
    requires Inv(s) && Here(s, t)
    requires !s.pcs[t].Storing? && !s.pcs[t].Overshot? && !pc'.Storing? && !pc'.Overshot? && pc' != Carving
    requires PcOk(pc', |s.groups|)
    requires s.pcs[t] != Ready || s.locals[t].free == []
    ensures Inv(s.(pcs := s.pcs[t := pc']))
  {
    hide GroupsOk, NumbersOk, LocalsOk, ChunksOk, CarvedOk, BlocksOk, UsersOk;
    PlainMove(s.groups, s.claimed, s.pcs, t, pc');
    MoveBlocks(s.locals, s.pcs, s.nitem, t, pc');
  }

  // ---------------------------------------------------------------- claiming a block

  lemma AddKeeps(s: State, t: Tid)
    requires Inv(s) && CanAdd(s, t)
    ensures Inv(Add(s, t))
  {
    hide NumbersOk, LocalsOk, ChunksOk, CarvedOk, BlocksOk, UsersOk, GroupsOk, NumbersOk;
    var g := s.pcs[t].ngroup - 1;
    if s.groups[g].nblock < GROUP_NBLOCK { ClaimKeeps(s, t); } else { OvershootKeeps(s, t); }
    MoveBlocks(s.locals, s.pcs, s.nitem, t, Add(s, t).pcs[t]);
    CounterNumbers(s.groups, s.nitem, g, s.groups[g].nblock + 1);
  }

  lemma CounterNumbers(groups: seq<Group>, nitem: map<nat, nat>, g: nat, nblock: nat)
    requires NumbersOk(groups, nitem) && g < |groups|
    ensures NumbersOk(groups[g := groups[g].(nblock := nblock)], nitem)
  {}

  /** An addition below the limit finds nobody overshooting, and claims the next index. */
  lemma ClaimKeeps(s: State, t: Tid)
    requires GroupsOk(s.groups, s.claimed, s.pcs) && CanAdd(s, t)
    requires s.groups[s.pcs[t].ngroup - 1].nblock < GROUP_NBLOCK
    ensures GroupsOk(Add(s, t).groups, Add(s, t).claimed, Add(s, t).pcs)
  {
    var g, s' := s.pcs[t].ngroup - 1, Add(s, t);
    var index := s.groups[g].nblock;
    assert GroupOk(g, s.groups[g], s.claimed[g], s.pcs);
    assert index == s.claimed[g];
    forall h | 0 <= h < |s.groups| ensures GroupOk(h, s'.groups[h], s'.claimed[h], s'.pcs) {
      assert GroupOk(h, s.groups[h], s.claimed[h], s.pcs);
      if h != g {
        OtherGroup(h, s.groups[h], s.claimed[h], s.pcs, t, Storing(g, index));
      } else {
        ClaimedGroup(g, s.groups[g], s.claimed[g], s.pcs, t);
      }
    }
    assert !IsClaimed(s.pcs, g, index);
  }

  lemma ClaimedGroup(g: nat, group: Group, claimed: nat, pcs: map<Tid, Pc>, t: Tid)
    requires GroupOk(g, group, claimed, pcs) && t in pcs && pcs[t].Loaded? && group.nblock == claimed < GROUP_NBLOCK
    ensures GroupOk(g, group.(nblock := claimed + 1), claimed + 1, pcs[t := Storing(g, claimed)])
  {
    var pcs' := pcs[t := Storing(g, claimed)];
    assert Overshooters(pcs', g) == Overshooters(pcs, g);
    forall i: nat ensures IsClaimed(pcs', g, i) <==> IsClaimed(pcs, g, i) || i == claimed {
      ClaimMoves(pcs, t, Storing(g, claimed), g, i);
    }
  }

  lemma OvershootKeeps(s: State, t: Tid)
    requires GroupsOk(s.groups, s.claimed, s.pcs) && CanAdd(s, t)
    requires s.groups[s.pcs[t].ngroup - 1].nblock >= GROUP_NBLOCK
    ensures GroupsOk(Add(s, t).groups, Add(s, t).claimed, Add(s, t).pcs)
  {
    var g, s' := s.pcs[t].ngroup - 1, Add(s, t);
    forall h | 0 <= h < |s.groups| ensures GroupOk(h, s'.groups[h], s'.claimed[h], s'.pcs) {
      assert GroupOk(h, s.groups[h], s.claimed[h], s.pcs);
      if h != g {
        OtherGroup(h, s.groups[h], s.claimed[h], s.pcs, t, Overshot(g));
      } else {
        OvershotGroup(g, s.groups[g], s.claimed[g], s.pcs, t);
      }
    }
  }

  lemma OvershotGroup(g: nat, group: Group, claimed: nat, pcs: map<Tid, Pc>, t: Tid)
    requires GroupOk(g, group, claimed, pcs) && t in pcs && pcs[t].Loaded? && group.nblock >= GROUP_NBLOCK
    ensures GroupOk(g, group.(nblock := group.nblock + 1), claimed, pcs[t := Overshot(g)])
  {
    var pcs' := pcs[t := Overshot(g)];
    assert Overshooters(pcs', g) == Overshooters(pcs, g) + {t};
    forall i: nat ensures IsClaimed(pcs', g, i) <==> IsClaimed(pcs, g, i) {
      ClaimMoves(pcs, t, Overshot(g), g, i);
    }
  }

  lemma SubKeeps(s: State, t: Tid)
    requires Inv(s) && CanSub(s, t)
    ensures Inv(Sub(s, t))
  {
    hide NumbersOk, LocalsOk, ChunksOk, CarvedOk, BlocksOk, UsersOk;
    var g, s' := s.pcs[t].g, Sub(s, t);
    forall h | 0 <= h < |s.groups| ensures GroupOk(h, s'.groups[h], s'.claimed[h], s'.pcs) {
      assert GroupOk(h, s.groups[h], s.claimed[h], s.pcs);
      if h != g {
        OtherGroup(h, s.groups[h], s.claimed[h], s.pcs, t, Creating(g + 1));
      } else {
        TakenBack(g, s.groups[g], s.claimed[g], s.pcs, t);
      }
    }
    MoveBlocks(s.locals, s.pcs, s.nitem, t, Creating(g + 1));
    CounterNumbers(s.groups, s.nitem, g, s.groups[g].nblock - 1);
  }

  lemma TakenBack(g: nat, group: Group, claimed: nat, pcs: map<Tid, Pc>, t: Tid)
    requires GroupOk(g, group, claimed, pcs) && t in pcs && pcs[t] == Overshot(g)
    ensures group.nblock > 0
    ensures GroupOk(g, group.(nblock := group.nblock - 1), claimed, pcs[t := Creating(g + 1)])
  {
    var pcs' := pcs[t := Creating(g + 1)];
    assert t in Overshooters(pcs, g);
    assert Overshooters(pcs', g) == Overshooters(pcs, g) - {t};
    forall i: nat ensures IsClaimed(pcs', g, i) <==> IsClaimed(pcs, g, i) {
      ClaimMoves(pcs, t, Creating(g + 1), g, i);
    }
  }

  lemma CreateKeeps(s: State, t: Tid)
    requires Inv(s) && CanCreate(s, t)
    ensures Inv(Create(s, t))
  {
    if |s.groups| != s.pcs[t].ngroup { MoveKeeps(s, t, Looping); } else { NewGroup(s, t); }
  }

  lemma NewGroup(s: State, t: Tid)
    requires Inv(s) && CanCreate(s, t) && |s.groups| == s.pcs[t].ngroup
    ensures Inv(Create(s, t))
  {
    hide NumbersOk, LocalsOk, ChunksOk, CarvedOk, BlocksOk, UsersOk;
    var s', n := Create(s, t), |s.groups|;
    PlainMove(s.groups, s.claimed, s.pcs, t, Looping);
    MoveBlocks(s.locals, s.pcs, s.nitem, t, Looping);
    assert Overshooters(s'.pcs, n) == {};
    forall i: nat ensures !IsClaimed(s'.pcs, n, i) {}
    assert GroupOk(n, Group(0, {}), 0, s'.pcs);
    NewNumbers(s.groups, s.nitem);
  }

  lemma NewNumbers(groups: seq<Group>, nitem: map<nat, nat>)
    requires NumbersOk(groups, nitem)
    ensures NumbersOk(groups + [Group(0, {})], nitem)
  {}

  // ---------------------------------------------------------------- storing a block

  /** A claimed index is below the limit and has no block yet. */
  lemma StoreFacts(s: State, t: Tid)
    requires GroupsOk(s.groups, s.claimed, s.pcs) && NumbersOk(s.groups, s.nitem) && CanStore(s, t)
    ensures s.pcs[t].index < GROUP_NBLOCK
    ensures s.pcs[t].index !in s.groups[s.pcs[t].g].blocks
    ensures s.pcs[t].g * 65536 + s.pcs[t].index !in s.nitem
  {
    var g, i := s.pcs[t].g, s.pcs[t].index;
    assert GroupOk(g, s.groups[g], s.claimed[g], s.pcs);
    assert IsClaimed(s.pcs, g, i);
    assert (g * 65536 + i) / 65536 == g && (g * 65536 + i) % 65536 == i;
  }

  lemma StoreKeeps(s: State, t: Tid)
    requires Inv(s) && CanStore(s, t)
    ensures Inv(Store(s, t))
  {
    hide GroupsOk, NumbersOk, LocalsOk, ChunksOk, CarvedOk, BlocksOk, UsersOk;
    var k := s.pcs[t].g * 65536 + s.pcs[t].index;
    StoreFacts(s, t);
    StoreGroups(s, t);
    StoreNumbers(s.groups, s.nitem, s.pcs[t].g, s.pcs[t].index);
    LocalFact(s, t);
    OneLocal(s.locals, s.where, s.where, t, s.locals[t].(block := Some(k)));
    StoreBlocks(s, t, k);
    StoreCarved(s.where, s.nitem, k);
  }

  lemma StoreGroups(s: State, t: Tid)
    requires GroupsOk(s.groups, s.claimed, s.pcs) && CanStore(s, t)
    ensures GroupsOk(Store(s, t).groups, Store(s, t).claimed, Store(s, t).pcs)
  {
    var g, i, s' := s.pcs[t].g, s.pcs[t].index, Store(s, t);
    forall h | 0 <= h < |s.groups| ensures GroupOk(h, s'.groups[h], s'.claimed[h], s'.pcs) {
      assert GroupOk(h, s.groups[h], s.claimed[h], s.pcs);
      if h != g {
        OtherGroup(h, s.groups[h], s.claimed[h], s.pcs, t, Carving);
      } else {
        StoredGroup(g, s.groups[g], s.claimed[g], s.pcs, t, i);
      }
    }
  }

  lemma StoredGroup(g: nat, group: Group, claimed: nat, pcs: map<Tid, Pc>, t: Tid, i: nat)
    requires GroupOk(g, group, claimed, pcs) && t in pcs && pcs[t] == Storing(g, i)
    requires forall u :: u in pcs && u != t ==> pcs[u] != Storing(g, i)
    ensures GroupOk(g, group.(blocks := group.blocks + {i}), claimed, pcs[t := Carving])
  {
    var pcs' := pcs[t := Carving];
    assert Overshooters(pcs', g) == Overshooters(pcs, g);
    assert IsClaimed(pcs, g, i) && !IsClaimed(pcs', g, i);
    forall j: nat | j != i ensures IsClaimed(pcs', g, j) <==> IsClaimed(pcs, g, j) {
      ClaimMoves(pcs, t, Carving, g, j);
    }
  }

  lemma StoreNumbers(groups: seq<Group>, nitem: map<nat, nat>, g: nat, i: nat)
    requires NumbersOk(groups, nitem) && g < |groups| && i < GROUP_NBLOCK
    ensures NumbersOk(groups[g := groups[g].(blocks := groups[g].blocks + {i})], nitem[g * 65536 + i := 0])
  {
    forall k: nat ensures k == g * 65536 + i <==> k / 65536 == g && k % 65536 == i {}
  }

  lemma StoreBlocks(s: State, t: Tid, k: nat)
    requires BlocksOk(s.locals, s.pcs, s.nitem) && Here(s, t) && k !in s.nitem && s.pcs[t].Storing?
    ensures BlocksOk(s.locals[t := s.locals[t].(block := Some(k))], s.pcs[t := Carving], s.nitem[k := 0])
  {}

  lemma StoreCarved(where: map<Id, Place>, nitem: map<nat, nat>, k: nat)
    requires CarvedOk(where, nitem) && k !in nitem
    ensures CarvedOk(where, nitem[k := 0])
  {
    forall id: Id ensures IsCarved(id, nitem[k := 0]) <==> IsCarved(id, nitem) {}
  }

  // ---------------------------------------------------------------- every run

  lemma StepKeeps(s: State, t: Tid, a: Action)
    requires Inv(s) && Enabled(s, t, a)
    ensures Inv(Do(s, t, a))
  {
    hide Inv;
    match a
    case AGetLocal => GetLocalKeeps(s, t);
    case AGetChunk => GetChunkKeeps(s, t);
    case AMiss => MoveKeeps(s, t, Missed);
    case ACarve => CarveKeeps(s, t);
    case AStartFetch => MoveKeeps(s, t, Looping);
    case AGiveUp => GiveUpKeeps(s, t);
    case ALoad => MoveKeeps(s, t, if |s.groups| >= 1 then Loaded(|s.groups|) else Creating(0));
    case AAdd => AddKeeps(s, t);
    case AStore => StoreKeeps(s, t);
    case ASub => SubKeeps(s, t);
    case ACreate => CreateKeeps(s, t);
    case APut(id, ok) => PutKeeps(s, t, id, ok);
    case ALeave(ok) => LeaveKeeps(s, t, ok);
  }

  lemma {:induction false} PathKeeps(states: seq<State>, run: seq<(Tid, Action)>, i: nat)
    requires Follows(states, run) && i <= |run|
    ensures Inv(states[i])
  {
    hide Inv;
    if i == 0 {
      InitInv(states[0]);
    } else {
      PathKeeps(states, run, i - 1);
      assert Step(states[i - 1], run[i - 1], states[i]);
      StepKeeps(states[i - 1], run[i - 1].0, run[i - 1].1);
    }
  }

  lemma RunKeeps(run: seq<(Tid, Action)>, s: State)
    requires Reaches(run, s)
    ensures Inv(s)
  {
    var states :| Follows(states, run) && Last(states) == s;
    PathKeeps(states, run, |run|);
  }
}
