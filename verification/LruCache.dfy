/** The LRU cache of idea/lru_cache.cpp: two circular lists threaded through the handles, a hash index
    and reference counts. Every operation is proved to do what the cache of LruSpec does. */
module LruCaches {
  import opened Prelude
  import Spec = LruSpec

  class LRUHandle {
    var next: LRUHandle?
    var prev: LRUHandle?
    const value: int
    const key: int
    var ref: int
    var valid: bool

    constructor (key: int, value: int)
      ensures this.key == key && this.value == value
    {
      this.key, this.value := key, value;
    }
  }

  function Find(index: map<int, LRUHandle>, key: int): LRUHandle? {
    if key in index then index[key] else null
  }

  class LRUCacheIndex {
    var index_: map<int, LRUHandle>

    constructor ()
      ensures index_ == map[]
    {
      index_ := map[];
    }

    method Lookup(key: int) returns (h: LRUHandle?)
      ensures h == Find(index_, key)
    {
      h := null;
      if key in index_ { h := index_[key]; }
    }

    method Insert(key: int, handle: LRUHandle) returns (was: LRUHandle?)
      modifies this
      ensures was == Find(old(index_), key)
      ensures index_ == old(index_)[key := handle]
    {
      was := Lookup(key);
      if was != null { index_ := index_ - {key}; }
      index_ := index_[key := handle];
    }

    method Erase(key: int) returns (was: LRUHandle?)
      modifies this
      ensures was == Find(old(index_), key)
      ensures index_ == old(index_) - {key}
    {
      was := Lookup(key);
      index_ := index_ - {key};
    }
  }

  /** The i-th node of the circle of s followed by list; s closes it. */
  function Node(s: LRUHandle, list: seq<LRUHandle>, i: nat): LRUHandle {
    if 1 <= i <= |list| then list[i - 1] else s
  }

  ghost predicate Link(s: LRUHandle, list: seq<LRUHandle>, i: nat)
    reads s`next, s`prev, list`next, list`prev
  {
    Node(s, list, i).next == Node(s, list, i + 1) && Node(s, list, i + 1).prev == Node(s, list, i)
  }

  /** Following next from s visits list in order and comes back to s; following prev goes the other way. */
  ghost predicate Ring(s: LRUHandle, list: seq<LRUHandle>)
    reads s`next, s`prev, list`next, list`prev
  {
    && s !in list && Distinct(list)
    && forall i: nat :: i <= |list| ==> Link(s, list, i)
  }

  method LinkRemove(e: LRUHandle, ghost s: LRUHandle, ghost list: seq<LRUHandle>)
    requires Ring(s, list) && e in list
    requires e.next != null && e.prev != null
    modifies e.next`prev, e.prev`next
    ensures Ring(s, Spec.Without(list, e))
    ensures old(e.next) in [s] + list && old(e.prev) in [s] + list
    ensures forall h :: h in Spec.Without(list, e) <==> h in list && h != e
  {
    ghost var p :| 0 <= p < |list| && list[p] == e;
    assert Link(s, list, p) && Link(s, list, p + 1);
    e.next.prev := e.prev;
    e.prev.next := e.next;
    ghost var rest := list[..p] + list[p + 1..];
    forall i: nat | i <= |rest| ensures Link(s, rest, i) {
      assert old(Link(s, list, i));
      assert old(Link(s, list, i + 1));
    }
    Spec.WithoutAt(list, p);
    Spec.WithoutIs(list, e);
  }

  method LinkAppend(list: LRUHandle, e: LRUHandle, ghost nodes: seq<LRUHandle>)
    requires Ring(list, nodes) && e !in nodes && e != list
    requires list.prev != null
    modifies e`next, e`prev, list`prev, list.prev`next
    ensures Ring(list, nodes + [e])
    ensures old(list.prev) in [list] + nodes
  {
    assert Link(list, nodes, |nodes|);
    e.next := list;
    e.prev := list.prev;
    e.prev.next := e;
    e.next.prev := e;
    forall i: nat | i <= |nodes| + 1 ensures Link(list, nodes + [e], i) {
      assert i <= |nodes| ==> old(Link(list, nodes, i));
    }
  }

  /** The neighbours of a node are nodes of its ring. */
  lemma Neighbours(s: LRUHandle, list: seq<LRUHandle>, e: LRUHandle)
    requires Ring(s, list) && e in [s] + list
    ensures e.next in [s] + list && e.prev in [s] + list
  {
    var p :| 0 <= p <= |list| && ([s] + list)[p] == e;
    assert Link(s, list, p) && Link(s, list, if p == 0 then |list| else p - 1);
  }

  /** A handle moves from one ring to the end of the other. */
  method Relink(from: LRUHandle, to: LRUHandle, e: LRUHandle, ghost list: seq<LRUHandle>, ghost nodes: seq<LRUHandle>)
    requires Ring(from, list) && Ring(to, nodes) && e in list
    requires from != to && from !in nodes && to !in list
    requires forall h :: h in list ==> h !in nodes
    modifies from, to, list, nodes
    ensures forall h :: h in list || h in nodes ==> h.ref == old(h.ref) && h.valid == old(h.valid)
    ensures Ring(from, Spec.Without(list, e)) && Ring(to, nodes + [e])
    ensures forall h :: h in Spec.Without(list, e) <==> h in list && h != e
  {
    Neighbours(from, list, e);
    LinkRemove(e, from, list);
    assert Ring(to, nodes);
    Neighbours(to, nodes, to);
    Spec.WithoutIs(list, e);
    assert from != to.prev && to.prev !in Spec.Without(list, e);
    label L:
    LinkAppend(to, e, nodes);
    ghost var rest := Spec.Without(list, e);
    forall i: nat | i <= |rest| ensures Link(from, rest, i) {
      assert old@L(Link(from, rest, i));
    }
  }

  /** The two lists are disjoint and hold no deleted handle and no list head. */
  ghost predicate Apart(a: LRUHandle, b: LRUHandle, idle: seq<LRUHandle>, busy: seq<LRUHandle>, held: set<LRUHandle>) {
    && a != b && a !in held && b !in held
    && (forall h :: h in idle ==> h in held && h !in busy)
    && (forall h :: h in busy ==> h in held)
  }

  function Keys(held: map<LRUHandle, nat>): (key: map<LRUHandle, int>)
    ensures key.Keys == held.Keys
  {
    map h | h in held :: h.key
  }

  lemma KeysWithout(held: map<LRUHandle, nat>, e: LRUHandle)
    ensures Keys(held - {e}) == Keys(held) - {e}
  {}

  lemma KeysUpdate(held: map<LRUHandle, nat>, e: LRUHandle, n: nat)
    ensures Keys(held[e := n]) == Keys(held)[e := e.key]
    ensures e in held ==> Keys(held[e := n]) == Keys(held)
  {}

  /** A handle's count is one for each use and one for the index. */
  ghost predicate CountsOk(held: map<LRUHandle, nat>, except: set<LRUHandle?>)
    reads held.Keys`ref, held.Keys`valid
  {
    forall h :: h in held && h !in except ==> h.ref == held[h] + if h.valid then 1 else 0
  }

  predicate Has(index: map<int, LRUHandle>, h: LRUHandle) {
    h.key in index && index[h.key] == h
  }

  /** A handle is marked valid while the index has it. */
  ghost predicate MarksOk(live: set<LRUHandle>, index: map<int, LRUHandle>, except: set<LRUHandle?>)
    reads live`valid
  {
    forall h :: h in live && h !in except ==> h.valid == Has(index, h)
  }

  lemma CountsForget(held: map<LRUHandle, nat>, except: set<LRUHandle?>, e: LRUHandle)
    requires CountsOk(held, except + {e})
    ensures CountsOk(held - {e}, except)
  {}

  lemma CountsLess(held: map<LRUHandle, nat>, e: LRUHandle)
    requires CountsOk(held, {null}) && e in held && held[e] > 0
    ensures CountsOk(held[e := held[e] - 1], {null, e})
  {}

  /** The two lists and the uses. */
  datatype Uses = Uses(idle: seq<LRUHandle>, busy: seq<LRUHandle>, held: map<LRUHandle, nat>)

  /** After e has lost a count, not the index's if it is valid. */
  ghost function Dropped(u: Uses, e: LRUHandle, valid: bool): (u': Uses)
    requires e in u.held
    ensures u'.held.Keys <= u.held.Keys
  {
    if u.held[e] > 0 then u
    else if valid then u.(idle := u.idle + [e], busy := Spec.Without(u.busy, e))
    else u.(held := u.held - {e})
  }

  /** After the index's handle e, if it had one, has left it. */
  ghost function Removed(u: Uses, e: LRUHandle?): (u': Uses)
    requires e != null ==> e in u.held
    ensures u'.held.Keys <= u.held.Keys
  {
    if e == null then u
    else var h: LRUHandle := e; Dropped(u.(idle := Spec.Without(u.idle, h), busy := Spec.Without(u.busy, h)), h, false)
  }

  ghost function AbsOf(capacity: nat, index: map<int, LRUHandle>, u: Uses): Spec.Cache<LRUHandle> {
    Spec.Cache(capacity, index, u.idle, u.busy, u.held, Keys(u.held))
  }

  /** Losing a use is what the specification calls releasing. */
  lemma DroppedIsRelease(c: Spec.Cache<LRUHandle>, h: LRUHandle)
    requires h in c.held && c.held[h] > 0 && c.key == Keys(c.held)
    ensures var u := Dropped(Uses(c.idle, c.busy, c.held[h := c.held[h] - 1]), h, Spec.Indexed(c, h));
            Spec.Release(c, h) == AbsOf(c.capacity, c.index, u)
  {
    KeysUpdate(c.held, h, c.held[h] - 1);
    KeysWithout(c.held, h);
    assert c.held[h := c.held[h] - 1] - {h} == c.held - {h};
  }

  /** Losing the index's handle is what the specification calls erasing. */
  lemma RemovedIsErase(c: Spec.Cache<LRUHandle>, k: int, e: LRUHandle?)
    requires e == Find(c.index, k) && c.key == Keys(c.held)
    requires e != null ==> e in c.held
    ensures var u := Removed(Uses(c.idle, c.busy, c.held), e);
            Spec.Erase(c, k) == AbsOf(c.capacity, c.index - {k}, u)
  {
    if e == null {
      assert c.index - {k} == c.index;
    } else {
      KeysWithout(c.held, e);
    }
  }

  /** Appending the new handle before the replaced one goes comes to what the specification does. */
  lemma AddedIsAdd(c: Spec.Cache<LRUHandle>, k: int, e: LRUHandle)
    requires c.key == Keys(c.held) && e !in c.held && e !in c.idle && e !in c.busy && e.key == k
    requires k in c.index ==> c.index[k] in c.held
    ensures Spec.Add(c, k, e)
            == AbsOf(c.capacity, c.index[k := e], Removed(Uses(c.idle + [e], c.busy, c.held[e := 0]), Find(c.index, k)))
  {
    var was := Find(c.index, k);
    var c' := Spec.Erase(c, k);
    RemovedIsErase(c, k, was);
    KeysUpdate(c'.held, e, 0);
    assert (c.index - {k})[k := e] == c.index[k := e];
    if was != null {
      var h: LRUHandle := was;
      Spec.WithoutAppend(c.idle, h, e);
      assert c.held[e := 0] - {h} == (c.held - {h})[e := 0];
    } else {
      assert c.index - {k} == c.index;
    }
  }

  class LRUCache {
    var usage_: nat
    const capacity_: nat
    const lru_: LRUHandle
    const inUse_: LRUHandle
    const cacheIndex_: LRUCacheIndex
    // The handles of the two lists in order, and the callers' uses of each handle not yet deleted.
    ghost var idle: seq<LRUHandle>
    ghost var busy: seq<LRUHandle>
    ghost var held: map<LRUHandle, nat>

    /** The cache of the specification that this one represents. */
    ghost function Abs(): Spec.Cache<LRUHandle>
      reads this, cacheIndex_
    {
      AbsOf(capacity_, cacheIndex_.index_, Now())
    }

    ghost function Now(): Uses
      reads this`idle, this`busy, this`held
    {
      Uses(idle, busy, held)
    }

    /** The two lists are disjoint rings of handles that have not been deleted. */
    ghost predicate Linked(live: set<LRUHandle>)
      reads this`idle, this`busy, lru_`next, lru_`prev, inUse_`next, inUse_`prev, live`next, live`prev
    {
      && Apart(lru_, inUse_, idle, busy, live)
      && Ring(lru_, idle) && Ring(inUse_, busy)
    }

    /** The counts are right, but for a handle that is being added. */
    ghost predicate Counted(building: LRUHandle?)
      reads this`usage_, this`held, held.Keys`ref, held.Keys`valid
    {
      usage_ == |held| && CountsOk(held, {building})
    }

    ghost predicate Valid()
      reads this, cacheIndex_, lru_, inUse_, held.Keys
    {
      && Linked(held.Keys) && Counted(null)
      && MarksOk(held.Keys, cacheIndex_.index_, {null}) && Spec.Valid(Abs())
    }

    constructor (capacity: nat)
      ensures Valid() && Abs() == Spec.Empty(capacity)
      ensures fresh(lru_) && fresh(inUse_) && fresh(cacheIndex_)
    {
      usage_, capacity_ := 0, capacity;
      lru_ := new LRUHandle(0, 0);
      inUse_ := new LRUHandle(0, 0);
      cacheIndex_ := new LRUCacheIndex();
      idle, busy, held := [], [], map[];
      new;
      lru_.next := lru_;
      lru_.prev := lru_;
      inUse_.next := inUse_;
      inUse_.prev := inUse_;
      assert Link(lru_, [], 0) && Link(inUse_, [], 0);
    }

    method MoveToInUse(e: LRUHandle)
      requires Linked(held.Keys) && e in idle
      modifies this`idle, this`busy, lru_, inUse_, held.Keys
      ensures Linked(held.Keys) && forall h :: h in held ==> h.ref == old(h.ref) && h.valid == old(h.valid)
      ensures idle == Spec.Without(old(idle), e) && busy == old(busy) + [e]
    {
      hide Ring, Spec.Without;
      Relink(lru_, inUse_, e, idle, busy);
      idle, busy := Spec.Without(idle, e), busy + [e];
    }

    method MoveToLru(e: LRUHandle)
      requires Linked(held.Keys) && e in busy
      modifies this`idle, this`busy, lru_, inUse_, held.Keys
      ensures Linked(held.Keys) && forall h :: h in held ==> h.ref == old(h.ref) && h.valid == old(h.valid)
      ensures busy == Spec.Without(old(busy), e) && idle == old(idle) + [e]
    {
      hide Ring, Spec.Without;
      Relink(inUse_, lru_, e, busy, idle);
      idle, busy := idle + [e], Spec.Without(busy, e);
    }

    /** A use more: the first one takes the handle from the unused ones. */
    method Ref(e: LRUHandle)
      requires Linked(held.Keys) && Counted(null) && e in held && (e.valid && e.ref == 1 ==> e in idle)
      modifies this`idle, this`busy, this`held, lru_, inUse_, held.Keys
      ensures Linked(held.Keys) && Counted(null)
      ensures held == old(held)[e := old(held)[e] + 1]
      ensures forall h :: h in held ==> h.valid == old(h.valid)
      ensures if old(e.valid && e.ref == 1) then
                idle == Spec.Without(old(idle), e) && busy == old(busy) + [e]
              else idle == old(idle) && busy == old(busy)
    {
      hide Linked, Spec.Without;
      if e.ref == 1 && e.valid { MoveToInUse(e); }
      AddUse(e);
    }

    method AddUse(e: LRUHandle)
      requires Linked(held.Keys) && Counted(null) && e in held
      modifies this`held, e`ref
      ensures Linked(held.Keys) && Counted(null) && held == old(held)[e := old(held)[e] + 1]
    {
      hide Linked;
      Spec.SameSize(held, e, held[e] + 1);
      assert held[e := held[e] + 1].Keys == held.Keys;
      e.ref := e.ref + 1;
      held := held[e := held[e] + 1];
    }

    /** The counts are right, but e's is one too many. */
    ghost predicate Overcounted(e: LRUHandle, building: LRUHandle?)
      reads this`usage_, this`held, e`ref, e`valid, held.Keys`ref, held.Keys`valid
    {
      && usage_ == |held| && CountsOk(held, {building, e})
      && e in held && e != building && e.ref == held[e] + (if e.valid then 1 else 0) + 1
    }

    lemma Forget(live: set<LRUHandle>, e: LRUHandle)
      requires Linked(live) && e !in idle && e !in busy
      ensures Linked(live - {e})
    {}

    method Delete(e: LRUHandle, ghost building: LRUHandle?)
      requires Linked(held.Keys) && e in held && e !in idle && e !in busy
      requires usage_ == |held| && CountsOk(held, {building, e})
      modifies this`usage_, this`held
      ensures Linked(held.Keys) && Counted(building) && held == old(held) - {e}
    {
      Forget(held.Keys, e);
      CountsForget(held, {building}, e);
      Spec.SmallerMap(held, e);
      usage_ := usage_ - 1;
      held := held - {e};
      assert held.Keys == old(held).Keys - {e};
    }

    /** A count less: at none the handle is deleted, at the index's own it is put to the unused ones. */
    method Unref(e: LRUHandle, ghost building: LRUHandle?)
      requires Linked(held.Keys) && Overcounted(e, building)
      requires if e.valid then e in busy else e !in idle && e !in busy
      requires MarksOk(held.Keys, cacheIndex_.index_, {building})
      modifies this`usage_, this`idle, this`busy, this`held, lru_, inUse_, held.Keys
      ensures Linked(held.Keys) && Counted(building)
      ensures MarksOk(held.Keys, cacheIndex_.index_, {building})
      ensures Now() == Dropped(old(Now()), e, old(e.valid))
    {
      hide Linked, Spec.Without;
      e.ref := e.ref - 1;
      if e.ref == 0 {
        Delete(e, building);
      } else if e.valid && e.ref == 1 {
        MoveToLru(e);
      }
    }

    /** Everything is right, but e is still listed, counted and marked although the index has it no more. */
    ghost predicate Removable(index: map<int, LRUHandle>, e: LRUHandle?, building: LRUHandle?)
      reads this, lru_, inUse_, held.Keys
    {
      && Linked(held.Keys) && Counted(building) && MarksOk(held.Keys, index, {building, e})
      && (e != null ==> e in held && e != building && e.valid && (e in idle || e in busy) && !Has(index, e))
    }

    lemma MakeRemovable(e: LRUHandle?, building: LRUHandle?)
      requires Linked(held.Keys) && Counted(building) && MarksOk(held.Keys, cacheIndex_.index_, {building, e})
      requires e != null ==> e in held && e != building && e.valid
      requires e != null ==> (e in idle || e in busy) && !Has(cacheIndex_.index_, e)
      ensures Removable(cacheIndex_.index_, e, building)
    {}

    /** The handle leaves its list and loses the index's count. */
    method RemoveFromLRU(e: LRUHandle?, ghost building: LRUHandle?) returns (b: bool)
      requires Removable(cacheIndex_.index_, e, building)
      modifies this`usage_, this`idle, this`busy, this`held, lru_, inUse_, held.Keys
      ensures Linked(held.Keys) && Counted(building) && b == (e != null)
      ensures Now() == Removed(old(Now()), e)
      ensures MarksOk(held.Keys, cacheIndex_.index_, {building})
    {
      hide Linked, Spec.Without;
      if e != null {
        Unlink(e);
        e.valid := false;
        Unref(e, building);
      }
      b := e != null;
    }

    method Unlink(e: LRUHandle)
      requires Linked(held.Keys) && (e in idle || e in busy)
      modifies this`idle, this`busy, lru_, inUse_, held.Keys
      ensures Linked(held.Keys) && e !in idle && e !in busy
      ensures forall h :: h in held ==> h.ref == old(h.ref) && h.valid == old(h.valid)
      ensures idle == Spec.Without(old(idle), e) && busy == Spec.Without(old(busy), e)
    {
      ghost var (s, list, s', list') := if e in idle then (lru_, idle, inUse_, busy) else (inUse_, busy, lru_, idle);
      hide Ring, Spec.Without;
      Neighbours(s, list, e);
      Spec.WithoutAbsent(list', e);
      LinkRemove(e, s, list);
      assert Ring(s', list');
      idle, busy := Spec.Without(idle, e), Spec.Without(busy, e);
    }

    /** The key's handle, which gains a use, or null. */
    method Lookup(key: int) returns (e: LRUHandle?)
      requires Valid()
      modifies this`idle, this`busy, this`held, lru_, inUse_, held.Keys
      ensures Valid() && Abs() == Spec.Lookup(old(Abs()), key)
      ensures e == Find(cacheIndex_.index_, key)
    {
      e := cacheIndex_.Lookup(key);
      Spec.LookupKeeps(Abs(), key);
      if e != null {
        IndexedHandle(key);
        hide Linked, Spec.Valid, CountsOk, Spec.Without;
        Ref(e);
        assert Keys(held) == Keys(old(held));
        assert Abs() == Spec.Lookup(old(Abs()), key);
      }
    }

    /** What the lists and counts say about an indexed handle. */
    lemma IndexedHandle(key: int)
      requires Valid() && key in cacheIndex_.index_
      ensures var e := cacheIndex_.index_[key];
              && e in held && e.valid && e.ref == held[e] + 1 && e.key == key
              && e in (if held[e] == 0 then idle else busy)
    {
      Spec.IndexedFacts(Abs(), key);
    }

    /** What they say about a handle in use. */
    lemma UsedHandle(e: LRUHandle)
      requires Valid() && e in held && held[e] > 0
      ensures e.ref == held[e] + if e.valid then 1 else 0
      ensures if e.valid then e in busy else e !in idle && e !in busy
      ensures e.valid == Spec.Indexed(Abs(), e)
    {}

    /** The parts make the whole. */
    lemma Conclude(c: Spec.Cache<LRUHandle>)
      requires Linked(held.Keys) && Counted(null) && MarksOk(held.Keys, cacheIndex_.index_, {null})
      requires Spec.Valid(c) && c == AbsOf(capacity_, cacheIndex_.index_, Now())
      ensures Valid() && Abs() == c
    {
      hide Linked, Counted, MarksOk, Spec.Valid, Keys;
    }

    /** What a release finds, and what it should leave. */
    lemma BeforeRelease(h: LRUHandle) returns (c: Spec.Cache<LRUHandle>)
      requires Valid() && h in held && held[h] > 0
      ensures c == Spec.Release(Abs(), h) && Spec.Valid(c)
      ensures c == AbsOf(capacity_, cacheIndex_.index_, Dropped(Uses(idle, busy, held[h := held[h] - 1]), h, h.valid))
    {
      UsedHandle(h);
      Spec.ReleaseKeeps(Abs(), h);
      DroppedIsRelease(Abs(), h);
      c := Spec.Release(Abs(), h);
    }

    lemma BeforeGiveBack(h: LRUHandle)
      requires Valid() && h in held && held[h] > 0
      ensures var held' := held[h := held[h] - 1];
              && held'.Keys == held.Keys && |held'| == usage_ && CountsOk(held', {null, h})
              && h.ref == held'[h] + (if h.valid then 1 else 0) + 1
      ensures if h.valid then h in busy else h !in idle && h !in busy
      ensures Linked(held.Keys) && MarksOk(held.Keys, cacheIndex_.index_, {null})
    {
      UsedHandle(h);
      CountsLess(held, h);
      Spec.SameSize(held, h, held[h] - 1);
    }

    ghost method GiveBack(h: LRUHandle)
      requires Valid() && h in held && held[h] > 0
      modifies this`held
      ensures Linked(held.Keys) && Overcounted(h, null) && MarksOk(held.Keys, cacheIndex_.index_, {null})
      ensures if h.valid then h in busy else h !in idle && h !in busy
      ensures held.Keys == old(held.Keys) && Now() == Uses(idle, busy, old(held)[h := old(held)[h] - 1])
    {
      hide Valid, Linked, CountsOk, MarksOk;
      BeforeGiveBack(h);
      held := held[h := held[h] - 1];
    }

    /** A use less. */
    method Release(h: LRUHandle)
      requires Valid() && h in held && held[h] > 0
      modifies this`usage_, this`idle, this`busy, this`held, lru_, inUse_, held.Keys
      ensures Valid() && Abs() == Spec.Release(old(Abs()), h)
    {
      hide *;
      ghost var c := BeforeRelease(h);
      GiveBack(h);
      Unref(h, null);
      Conclude(c);
    }

    /** What an erasure should leave. */
    lemma BeforeErase(key: int) returns (c: Spec.Cache<LRUHandle>)
      requires Valid()
      ensures c == Spec.Erase(Abs(), key) && Spec.Valid(c)
      ensures var e := Find(cacheIndex_.index_, key);
              && (e != null ==> e in held)
              && c == AbsOf(capacity_, cacheIndex_.index_ - {key}, Removed(Now(), e))
    {
      if key in cacheIndex_.index_ {
        IndexedHandle(key);
        Spec.RetireKeeps(Abs(), key);
        RemovedIsErase(Abs(), key, cacheIndex_.index_[key]);
      } else {
        RemovedIsErase(Abs(), key, null);
      }
      c := Spec.Erase(Abs(), key);
    }

    /** The key's handle can be looked up no more; it is deleted unless it is in use. */
    method Erase(key: int)
      requires Valid()
      modifies this`usage_, this`idle, this`busy, this`held, cacheIndex_, lru_, inUse_, held.Keys
      ensures Valid() && Abs() == Spec.Erase(old(Abs()), key)
    {
      hide *;
      ghost var c := BeforeErase(key);
      Unindexed(key);
      var h := cacheIndex_.Erase(key);
      var _ := RemoveFromLRU(h, null);
      Conclude(c);
    }

    /** What removing a key from the index leaves to do. */
    lemma Unindexed(key: int)
      requires Valid()
      ensures Removable(cacheIndex_.index_ - {key}, Find(cacheIndex_.index_, key), null)
    {
      if key in cacheIndex_.index_ { IndexedHandle(key); }
    }

    /** The head's successor is the longest unused handle. */
    lemma Oldest()
      requires Valid()
      ensures lru_.next == if idle == [] then lru_ else idle[0]
      ensures idle != [] ==> idle[0].key in cacheIndex_.index_ && cacheIndex_.index_[idle[0].key] == idle[0]
                             && idle[0] in held && held[idle[0]] == 0
    {
      assert Link(lru_, idle, 0);
      if idle != [] { Spec.OldestFacts(Abs()); }
    }

    /** Erasing the longest unused handle is what the specification calls evicting. */
    lemma ErasedIsEvicted() returns (c: Spec.Cache<LRUHandle>)
      requires Valid() && usage_ >= capacity_ && idle != []
      ensures c == Spec.Evict(Abs()) && c == Spec.Erase(Abs(), idle[0].key)
      ensures |c.held| == usage_ - 1 && c.held.Keys <= held.Keys
    {
      Oldest();
      Spec.EvictKeeps(Abs());
      Spec.RetireKeeps(Abs(), idle[0].key);
      c := Spec.Evict(Abs());
    }

    /** The loop of Insert that deletes unused handles while the cache is full. */
    method MakeRoom()
      requires Valid()
      modifies this`usage_, this`idle, this`busy, this`held, cacheIndex_, lru_, inUse_, held.Keys
      ensures Valid() && Abs() == Spec.Evict(old(Abs())) && held.Keys <= old(held.Keys)
    {
      Spec.EvictKeeps(Abs());
      ghost var was, room := Abs(), Spec.Evict(Abs());
      Oldest();
      while usage_ >= capacity_ && lru_.next != lru_
        invariant Valid() && held.Keys <= old(held.Keys)
        invariant Abs() == (if usage_ < old(usage_) then room else was) && usage_ <= old(usage_)
        invariant usage_ < old(usage_) ==> usage_ < capacity_
        invariant lru_.next == if idle == [] then lru_ else idle[0]
        decreases usage_
      {
        var oldest := lru_.next;
        ghost var c := ErasedIsEvicted();
        Oldest();
        Erase(oldest.key);
        Oldest();
      }
    }

    method AppendLink(e: LRUHandle)
      requires Linked(held.Keys) && e !in held && e != lru_ && e != inUse_
      modifies this`idle, e`next, e`prev, lru_`next, lru_`prev, held.Keys`next
      ensures Linked(held.Keys + {e}) && idle == old(idle) + [e]
    {
      Neighbours(lru_, idle, lru_);
      hide Ring;
      LinkAppend(lru_, e, idle);
      idle := idle + [e];
    }

    lemma BeforeAppend(e: LRUHandle)
      requires Valid() && e !in held
      ensures Linked(held.Keys) && |held[e := 0]| == usage_ + 1 && held[e := 0].Keys == held.Keys + {e}
      ensures CountsOk(held[e := 0], {e}) && e !in idle && e !in busy
    {
      Spec.LargerMap(held, e);
    }

    /** The new handle joins the unused ones; its count and mark are not set yet. */
    method Append(e: LRUHandle)
      requires Valid() && e !in held && e != lru_ && e != inUse_
      modifies this`usage_, this`idle, this`held, lru_`next, lru_`prev, held.Keys`next, e`next, e`prev
      ensures held.Keys == old(held.Keys) + {e} && Linked(held.Keys) && Counted(e)
      ensures idle == old(idle) + [e] && Now() == Uses(idle, busy, old(held)[e := 0])
    {
      hide Valid, Abs, Keys, Linked, CountsOk, Spec.Valid;
      BeforeAppend(e);
      usage_ := usage_ + 1;
      AppendLink(e);
      held := held[e := 0];
      assert held.Keys == old(held.Keys) + {e};
    }

    /** What adding e under key should leave. */
    lemma BeforeAdd(key: int, e: LRUHandle) returns (c: Spec.Cache<LRUHandle>)
      requires Valid() && usage_ < capacity_ && e !in held && e.key == key
      ensures c == Spec.Add(Abs(), key, e) && Spec.Valid(c)
      ensures var index, was := cacheIndex_.index_, Find(cacheIndex_.index_, key);
              && (was != null ==> was in held && was != e)
              && (var u := Removed(Uses(idle + [e], busy, held[e := 0]), was);
                  e in u.held && u.held[e] == 0 && c == AbsOf(capacity_, index[key := e], u))
    {
      Spec.AddKeeps(Abs(), key, e);
      c := Spec.Add(Abs(), key, e);
      assert e !in idle && e !in busy;
      if key in cacheIndex_.index_ { IndexedHandle(key); }
      hide Valid, Spec.Valid, Spec.Add;
      AddedIsAdd(Abs(), key, e);
    }

    /** The handle that e replaces has to go. */
    lemma Replaced(key: int, e: LRUHandle)
      requires Valid() && e !in held && e.key == key
      ensures var index, was := cacheIndex_.index_, Find(cacheIndex_.index_, key);
              && MarksOk(held.Keys + {e}, index[key := e], {e, was}) && Has(index[key := e], e)
              && (was != null ==> was.valid && (was in idle + [e] || was in busy) && !Has(index[key := e], was))
    {
      if key in cacheIndex_.index_ { IndexedHandle(key); }
    }

    /** The new handle becomes an ordinary one. */
    method Enable(e: LRUHandle)
      requires Linked(held.Keys) && Counted(e) && MarksOk(held.Keys, cacheIndex_.index_, {e})
      requires e in Now().held && Now().held[e] == 0 && Has(cacheIndex_.index_, e)
      modifies e`valid, e`ref
      ensures Linked(held.Keys) && Counted(null) && MarksOk(held.Keys, cacheIndex_.index_, {null})
    {
      hide Linked, Has;
      e.valid := true;
      e.ref := 1;
    }

    method Add(key: int, e: LRUHandle)
      requires Valid() && usage_ < capacity_
      requires e !in held && e != lru_ && e != inUse_ && e.key == key
      modifies this`usage_, this`idle, this`busy, this`held, cacheIndex_, lru_, inUse_, held.Keys, e
      ensures Valid() && Abs() == Spec.Add(old(Abs()), key, e)
    {
      hide *;
      ghost var c := BeforeAdd(key, e);
      Replaced(key, e);
      Append(e);
      var was := cacheIndex_.Insert(key, e);
      MakeRemovable(was, e);
      var _ := RemoveFromLRU(was, e);
      Enable(e);
      Conclude(c);
    }

    /** The key gets a new handle, as the most recently unused one; false says that there is no room
        because every handle is in use. */
    method Insert(key: int, value: int) returns (b: bool, ghost e: LRUHandle)
      requires Valid()
      modifies this`usage_, this`idle, this`busy, this`held, cacheIndex_, lru_, inUse_, held.Keys
      ensures fresh(e) && e.key == key && e.value == value && e !in old(held)
      ensures Valid() && Abs() == Spec.Insert(old(Abs()), key, e)
      ensures b == (old(usage_ < capacity_ || idle != []))
    {
      var handle := new LRUHandle(key, value);
      e := handle;
      Spec.EvictKeeps(Abs());
      MakeRoom();
      b := usage_ < capacity_;
      if b { Add(key, handle); }
    }

    /** The lists, the index and the counts say the same: a handle is in lru_ exactly while it is valid
        with count 1, in in_use_ exactly while it is valid with a higher one, and indexed under its key
        exactly while it is valid. */
    lemma Representation()
      requires Valid()
      ensures forall h :: h in held ==> (h in idle <==> h.valid && h.ref == 1) && (h in busy <==> h.valid && h.ref >= 2)
      ensures forall h :: h in held ==> (h.valid <==> h.key in cacheIndex_.index_ && cacheIndex_.index_[h.key] == h)
      ensures forall k :: k in cacheIndex_.index_ ==> cacheIndex_.index_[k] in held && cacheIndex_.index_[k].key == k
      ensures forall h :: h in held ==> h.ref == held[h] + (if h.valid then 1 else 0) && h.ref > 0
      ensures usage_ == |held| <= capacity_
    {
      forall h | h in held
        ensures (h in idle <==> h.valid && h.ref == 1) && (h in busy <==> h.valid && h.ref >= 2) && h.ref > 0
      {
        assert h.valid <==> Spec.IsIndexed(cacheIndex_.index_, Keys(held), h);
        hide Linked;
      }
      hide Linked, Spec.ListOk;
    }
  }
}
