/** The LRU cache as it should be, without pointers: an index from keys to handles, the handles
    nobody uses in order of disuse, and how many users each live handle has. */
module LruSpec {
  import opened Prelude

  /** "index" is what can be looked up; "idle" the indexed handles without users, the longest unused
      first; "busy" the indexed handles with users; "held" counts the users of every handle that has
      not been freed; "key" is the key each of them was inserted under. */
  datatype Cache<!H(==)> = Cache(
    capacity: nat, index: map<int, H>, idle: seq<H>, busy: seq<H>, held: map<H, nat>, key: map<H, int>)

  function Without<H(==)>(s: seq<H>, h: H): seq<H> {
    if s == [] then []
    else if s[0] == h then s[1..]
    else [s[0]] + Without(s[1..], h)
  }

  predicate Indexed<H(==)>(c: Cache<H>, h: H) {
    IsIndexed(c.index, c.key, h)
  }

  predicate IsIndexed<H(==)>(index: map<int, H>, key: map<H, int>, h: H) {
    h in key && key[h] in index && index[key[h]] == h
  }

  /** The index and the keys agree, and a handle without users is indexed. */
  ghost predicate KeysOk<H>(index: map<int, H>, key: map<H, int>, held: map<H, nat>) {
    && held.Keys == key.Keys
    && (forall k :: k in index ==> index[k] in key && key[index[k]] == k)
    && (forall h :: h in held && held[h] == 0 ==> IsIndexed(index, key, h))
  }

  /** "list" holds, once each, the indexed handles with users, or the indexed ones without. */
  ghost predicate ListOk<H>(list: seq<H>, used: bool, index: map<int, H>, key: map<H, int>, held: map<H, nat>) {
    && Distinct(list)
    && (forall h :: h in list ==> h in held)
    && (forall h :: h in held ==> (h in list <==> IsIndexed(index, key, h) && (held[h] > 0 <==> used)))
  }

  ghost predicate Valid<H>(c: Cache<H>) {
    && KeysOk(c.index, c.key, c.held)
    && ListOk(c.idle, false, c.index, c.key, c.held)
    && ListOk(c.busy, true, c.index, c.key, c.held)
    && |c.held| <= c.capacity
  }

  function Empty<H(==)>(capacity: nat): Cache<H> {
    Cache(capacity, map[], [], [], map[], map[])
  }

  /** The key's handle leaves the index and its list; it is freed unless it has users. */
  function Retire<H(==)>(c: Cache<H>, k: int): Cache<H>
    requires k in c.index && c.index[k] in c.held
  {
    var h := c.index[k];
    var c' := c.(index := c.index - {k}, idle := Without(c.idle, h), busy := Without(c.busy, h));
    if c.held[h] == 0 then c'.(held := c.held - {h}, key := c.key - {h}) else c'
  }

  function Erase<H(==)>(c: Cache<H>, k: int): Cache<H>
    requires k in c.index ==> c.index[k] in c.held
  {
    if k in c.index then Retire(c, k) else c
  }

  /** A found handle gains a user. */
  function Lookup<H(==)>(c: Cache<H>, k: int): Cache<H>
    requires k in c.index ==> c.index[k] in c.held
  {
    if k !in c.index then c
    else
      var h := c.index[k];
      var c' := c.(held := c.held[h := c.held[h] + 1]);
      if c.held[h] == 0 then c'.(idle := Without(c.idle, h), busy := c.busy + [h]) else c'
  }

  /** A user is done with h: the last one makes it the most recently unused, or frees it if it is no
      longer indexed. */
  function Release<H(==)>(c: Cache<H>, h: H): Cache<H>
    requires h in c.held && c.held[h] > 0
  {
    if c.held[h] > 1 then c.(held := c.held[h := c.held[h] - 1])
    else if Indexed(c, h) then c.(held := c.held[h := 0], idle := c.idle + [h], busy := Without(c.busy, h))
    else c.(held := c.held - {h}, key := c.key - {h})
  }

  /** Room is made by dropping the longest unused handle. */
  function Evict<H(==)>(c: Cache<H>): Cache<H>
    requires c.idle != [] ==> c.idle[0] in c.key && c.key[c.idle[0]] in c.index && c.index[c.key[c.idle[0]]] in c.held
  {
    if |c.held| >= c.capacity && c.idle != [] then Retire(c, c.key[c.idle[0]]) else c
  }

  /** The new handle h is indexed as the most recently unused; a handle of the same key is retired. */
  function Add<H(==)>(c: Cache<H>, k: int, h: H): Cache<H>
    requires k in c.index ==> c.index[k] in c.held
  {
    var c' := Erase(c, k);
    c'.(index := c'.index[k := h], idle := c'.idle + [h], held := c'.held[h := 0], key := c'.key[h := k])
  }

  /** Room is made first, even if a handle of the same key would make room by being replaced. */
  function Insert<H(==)>(c: Cache<H>, k: int, h: H): Cache<H>
    requires Valid(c) && h !in c.held
  {
    EvictKeeps(c);
    var c1 := Evict(c);
    if |c1.held| < c.capacity then AddKeeps(c1, k, h); Add(c1, k, h) else c1
  }

  // ---------------------------------------------------------------- sequences without an element

  lemma {:induction false} WithoutIs<H>(s: seq<H>, h: H)
    requires Distinct(s)
    ensures Distinct(Without(s, h))
    ensures forall x :: x in Without(s, h) ==> x in s && x != h
    ensures forall x :: x in s && x != h ==> x in Without(s, h)
  {
    if s != [] {
      var rest := Without(s[1..], h);
      WithoutIs(s[1..], h);
      assert s == [s[0]] + s[1..];
      if s[0] != h {
        assert Without(s, h) == [s[0]] + rest;
        assert s[0] !in rest;
      }
    }
  }

  lemma {:induction false} WithoutAt<H>(s: seq<H>, i: nat)
    requires Distinct(s) && i < |s|
    ensures Without(s, s[i]) == s[..i] + s[i + 1..]
  {
    if i > 0 {
      WithoutAt(s[1..], i - 1);
      assert s[1..][..i - 1] == s[1..i] && s[1..][i..] == s[i + 1..];
      assert [s[0]] + s[1..i] == s[..i];
    }
  }

  lemma {:induction false} WithoutAbsent<H>(s: seq<H>, h: H)
    requires h !in s
    ensures Without(s, h) == s
  {
    if s != [] { WithoutAbsent(s[1..], h); }
  }

  lemma {:induction false} WithoutAppend<H>(s: seq<H>, h: H, x: H)
    requires x != h
    ensures Without(s + [x], h) == Without(s, h) + [x]
  {
    if s == [] {
      assert Without([x][1..], h) == [];
    } else {
      assert (s + [x])[1..] == s[1..] + [x];
      WithoutAppend(s[1..], h, x);
    }
  }

  // ---------------------------------------------------------------- every operation keeps the cache valid

  /** An element leaves one list, and nothing else that the list depends on changes. */
  lemma Leaves<H>(
      list: seq<H>, used: bool, index: map<int, H>, key: map<H, int>, held: map<H, nat>,
      index': map<int, H>, key': map<H, int>, held': map<H, nat>, h: H)
    requires ListOk(list, used, index, key, held)
    requires forall x :: x in held' ==> x in held
    requires forall x :: x in held && x != h ==> x in held' && (held'[x] > 0 <==> held[x] > 0)
    requires forall x :: x in held && x != h ==> (IsIndexed(index', key', x) <==> IsIndexed(index, key, x))
    requires h in held' ==> !(IsIndexed(index', key', h) && (held'[h] > 0 <==> used))
    ensures ListOk(Without(list, h), used, index', key', held')
  {
    WithoutIs(list, h);
  }

  /** An element joins the list at its end. */
  lemma Joins<H>(
      list: seq<H>, used: bool, index: map<int, H>, key: map<H, int>, held: map<H, nat>,
      index': map<int, H>, key': map<H, int>, held': map<H, nat>, h: H)
    requires ListOk(list, used, index, key, held) && h !in list
    requires forall x :: x in held' ==> x in held || x == h
    requires forall x :: x in held && x != h ==> x in held' && (held'[x] > 0 <==> held[x] > 0)
    requires forall x :: x in held && x != h ==> (IsIndexed(index', key', x) <==> IsIndexed(index, key, x))
    requires h in held' && IsIndexed(index', key', h) && (held'[h] > 0 <==> used)
    ensures ListOk(list + [h], used, index', key', held')
  {}

  /** Nothing that the list depends on changes. */
  lemma Stays<H>(
      list: seq<H>, used: bool, index: map<int, H>, key: map<H, int>, held: map<H, nat>,
      index': map<int, H>, key': map<H, int>, held': map<H, nat>)
    requires ListOk(list, used, index, key, held)
    requires forall x :: x in held' ==> x in held || !(IsIndexed(index', key', x) && (held'[x] > 0 <==> used))
    requires forall x :: x in held && x !in held' ==> x !in list
    requires forall x :: x in held && x in held' ==> (held'[x] > 0 <==> held[x] > 0)
    requires forall x :: x in held && x in held' ==> (IsIndexed(index', key', x) <==> IsIndexed(index, key, x))
    ensures ListOk(list, used, index', key', held')
  {}

  lemma RetireKeeps<H>(c: Cache<H>, k: int)
    requires Valid(c) && k in c.index
    ensures c.index[k] in c.held && Valid(Retire(c, k))
    ensures |Retire(c, k).held| == |c.held| - if c.held[c.index[k]] == 0 then 1 else 0
  {
    var h, c' := c.index[k], Retire(c, k);
    RetireIndex(c, k);
    hide KeysOk, ListOk, IsIndexed;
    Leaves(c.idle, false, c.index, c.key, c.held, c'.index, c'.key, c'.held, h);
    Leaves(c.busy, true, c.index, c.key, c.held, c'.index, c'.key, c'.held, h);
    if c.held[h] == 0 { SmallerMap(c.held, h); }
  }

  lemma RetireIndex<H>(c: Cache<H>, k: int)
    requires KeysOk(c.index, c.key, c.held) && k in c.index
    ensures c.index[k] in c.held
    ensures var c' := Retire(c, k);
            && KeysOk(c'.index, c'.key, c'.held)
            && !IsIndexed(c'.index, c'.key, c.index[k])
            && (forall x :: x in c.held && x != c.index[k] ==>
                  (IsIndexed(c'.index, c'.key, x) <==> IsIndexed(c.index, c.key, x)))
  {
    hide Without;
  }

  lemma SmallerMap<H>(m: map<H, nat>, h: H)
    requires h in m
    ensures |m - {h}| == |m| - 1
  {
    assert (m - {h}).Keys == m.Keys - {h};
    assert |m| == |m.Keys| && |m - {h}| == |(m - {h}).Keys|;
  }

  lemma LookupKeeps<H>(c: Cache<H>, k: int)
    requires Valid(c)
    ensures k in c.index ==> c.index[k] in c.held
    ensures Valid(Lookup(c, k))
  {
    if k in c.index {
      if c.held[c.index[k]] == 0 { FirstUser(c, k); } else { AnotherUser(c, k); }
    }
  }

  lemma IndexedFacts<H>(c: Cache<H>, k: int)
    requires Valid(c) && k in c.index
    ensures c.index[k] in c.held && IsIndexed(c.index, c.key, c.index[k])
    ensures c.held[c.index[k]] == 0 ==> c.index[k] !in c.busy
    ensures c.held[c.index[k]] > 0 ==> c.index[k] !in c.idle
  {}

  lemma FirstUser<H>(c: Cache<H>, k: int)
    requires Valid(c) && k in c.index && c.index[k] in c.held && c.held[c.index[k]] == 0
    ensures Valid(Lookup(c, k))
  {
    hide KeysOk, ListOk, IsIndexed;
    var h := c.index[k];
    IndexedFacts(c, k);
    var held' := c.held[h := 1];
    SameSize(c.held, h, 1);
    CountKeeps(c.index, c.key, c.held, h, 1);
    Leaves(c.idle, false, c.index, c.key, c.held, c.index, c.key, held', h);
    Joins(c.busy, true, c.index, c.key, c.held, c.index, c.key, held', h);
  }

  lemma AnotherUser<H>(c: Cache<H>, k: int)
    requires Valid(c) && k in c.index && c.index[k] in c.held && c.held[c.index[k]] > 0
    ensures Valid(Lookup(c, k))
  {
    var h := c.index[k];
    var held' := c.held[h := c.held[h] + 1];
    SameSize(c.held, h, c.held[h] + 1);
    CountKeeps(c.index, c.key, c.held, h, c.held[h] + 1);
    hide KeysOk, ListOk, IsIndexed;
    Stays(c.idle, false, c.index, c.key, c.held, c.index, c.key, held');
    Stays(c.busy, true, c.index, c.key, c.held, c.index, c.key, held');
  }

  lemma CountKeeps<H>(index: map<int, H>, key: map<H, int>, held: map<H, nat>, h: H, n: nat)
    requires KeysOk(index, key, held) && h in held && (n == 0 ==> IsIndexed(index, key, h))
    ensures KeysOk(index, key, held[h := n])
  {}

  lemma SameSize<H>(m: map<H, nat>, h: H, n: nat)
    requires h in m
    ensures |m[h := n]| == |m|
  {
    assert m[h := n].Keys == m.Keys;
    assert |m[h := n]| == |m[h := n].Keys| && |m| == |m.Keys|;
  }

  lemma ReleaseKeeps<H>(c: Cache<H>, h: H)
    requires Valid(c) && h in c.held && c.held[h] > 0
    ensures Valid(Release(c, h))
  {
    if c.held[h] > 1 {
      SameSize(c.held, h, c.held[h] - 1);
      CountKeeps(c.index, c.key, c.held, h, c.held[h] - 1);
      var held' := c.held[h := c.held[h] - 1];
      hide KeysOk, ListOk;
      Stays(c.idle, false, c.index, c.key, c.held, c.index, c.key, held');
      Stays(c.busy, true, c.index, c.key, c.held, c.index, c.key, held');
    } else if Indexed(c, h) {
      LastUserLeaves(c, h);
    } else {
      FreeUnindexed(c, h);
    }
  }

  lemma LastUserLeaves<H>(c: Cache<H>, h: H)
    requires Valid(c) && h in c.held && c.held[h] == 1 && Indexed(c, h)
    ensures Valid(Release(c, h))
  {
    var held' := c.held[h := 0];
    SameSize(c.held, h, 0);
    CountKeeps(c.index, c.key, c.held, h, 0);
    assert h !in c.idle;
    hide KeysOk, ListOk;
    Leaves(c.busy, true, c.index, c.key, c.held, c.index, c.key, held', h);
    Joins(c.idle, false, c.index, c.key, c.held, c.index, c.key, held', h);
  }

  lemma FreeUnindexed<H>(c: Cache<H>, h: H)
    requires Valid(c) && h in c.held && c.held[h] == 1 && !Indexed(c, h)
    ensures Valid(Release(c, h))
  {
    var c' := Release(c, h);
    SmallerMap(c.held, h);
    assert KeysOk(c'.index, c'.key, c'.held);
    assert h !in c.idle && h !in c.busy;
    hide KeysOk, ListOk;
    Stays(c.idle, false, c.index, c.key, c.held, c'.index, c'.key, c'.held);
    Stays(c.busy, true, c.index, c.key, c.held, c'.index, c'.key, c'.held);
  }

  lemma OldestFacts<H>(c: Cache<H>)
    requires Valid(c) && c.idle != []
    ensures var h := c.idle[0];
            && h in c.key && h in c.held && c.held[h] == 0 && c.key[h] in c.index && c.index[c.key[h]] == h
  {
    assert c.idle[0] in c.idle;
  }

  lemma EvictKeeps<H>(c: Cache<H>)
    requires Valid(c)
    ensures c.idle != [] ==> c.idle[0] in c.key && c.key[c.idle[0]] in c.index
                             && c.index[c.key[c.idle[0]]] == c.idle[0] && c.idle[0] in c.held
    ensures Valid(Evict(c))
    ensures |Evict(c).held| < c.capacity <==> |c.held| < c.capacity || c.idle != []
  {
    if c.idle != [] {
      OldestFacts(c);
      if |c.held| >= c.capacity { RetireKeeps(c, c.key[c.idle[0]]); }
    }
  }

  lemma AddKeeps<H>(c: Cache<H>, k: int, h: H)
    requires Valid(c) && h !in c.held && |c.held| < c.capacity
    ensures k in c.index ==> c.index[k] in c.held
    ensures Valid(Add(c, k, h))
  {
    if k in c.index { RetireKeeps(c, k); }
    var c' := Erase(c, k);
    LargerMap(c'.held, h);
    hide Valid;
    InsertNew(c', k, h);
  }

  lemma LargerMap<H>(m: map<H, nat>, h: H)
    requires h !in m
    ensures |m[h := 0]| == |m| + 1
  {
    assert m[h := 0].Keys == m.Keys + {h};
    assert |m[h := 0]| == |m[h := 0].Keys| && |m| == |m.Keys|;
  }

  lemma InsertNew<H>(c: Cache<H>, k: int, h: H)
    requires Valid(c) && h !in c.held && k !in c.index && |c.held[h := 0]| <= c.capacity
    ensures Valid(c.(index := c.index[k := h], idle := c.idle + [h], held := c.held[h := 0], key := c.key[h := k]))
  {
    var index', key', held' := c.index[k := h], c.key[h := k], c.held[h := 0];
    InsertIndex(c, k, h);
    assert h !in c.idle;
    hide KeysOk, ListOk, IsIndexed;
    Joins(c.idle, false, c.index, c.key, c.held, index', key', held', h);
    Stays(c.busy, true, c.index, c.key, c.held, index', key', held');
  }

  lemma InsertIndex<H>(c: Cache<H>, k: int, h: H)
    requires KeysOk(c.index, c.key, c.held) && h !in c.held && k !in c.index
    ensures KeysOk(c.index[k := h], c.key[h := k], c.held[h := 0])
    ensures IsIndexed(c.index[k := h], c.key[h := k], h)
    ensures forall x :: x in c.held ==> (IsIndexed(c.index[k := h], c.key[h := k], x) <==> IsIndexed(c.index, c.key, x))
  {}

  // ---------------------------------------------------------------- whole runs

  datatype Op<!H(==)> = OpInsert(k: int, h: H) | OpErase(k: int) | OpLookup(k: int) | OpRelease(h: H)

  /** A new handle is new, and only users release. */
  ghost predicate Allowed<H>(c: Cache<H>, op: Op<H>) {
    match op
    case OpInsert(_, h) => h !in c.held
    case OpRelease(h) => h in c.held && c.held[h] > 0
    case _ => true
  }

  ghost function Apply<H>(c: Cache<H>, op: Op<H>): Cache<H>
    requires Valid(c) && Allowed(c, op)
  {
    match op
    case OpInsert(k, h) => Insert(c, k, h)
    case OpErase(k) => Erase(c, k)
    case OpLookup(k) => LookupKeeps(c, k); Lookup(c, k)
    case OpRelease(h) => Release(c, h)
  }

  lemma ApplyKeeps<H>(c: Cache<H>, op: Op<H>)
    requires Valid(c) && Allowed(c, op)
    ensures Valid(Apply(c, op))
  {
    match op
    case OpInsert(k, h) =>
      EvictKeeps(c);
      if |Evict(c).held| < c.capacity { AddKeeps(Evict(c), k, h); }
    case OpErase(k) => if k in c.index { RetireKeeps(c, k); }
    case OpLookup(k) => LookupKeeps(c, k);
    case OpRelease(h) => ReleaseKeeps(c, h);
  }

  /** A handle is freed exactly when its last user releases it and it is no longer indexed, or when it
      leaves the index while it has no users: by an erase or an insertion of its key, or as the
      longest unused when room is needed. */
  lemma FreedExactly<H>(c: Cache<H>, op: Op<H>, h: H)
    requires Valid(c) && Allowed(c, op) && h in c.held
    ensures h !in Apply(c, op).held <==>
              match op
              case OpRelease(x) => x == h && c.held[h] == 1 && !Indexed(c, h)
              case OpErase(k) => c.held[h] == 0 && k in c.index && c.index[k] == h
              case OpInsert(k, _) =>
                c.held[h] == 0
                && ((|c.held| >= c.capacity && c.idle != [] && c.idle[0] == h)
                    || (k in c.index && c.index[k] == h && (|c.held| < c.capacity || c.idle != [])))
              case OpLookup(_) => false
  {
    match op
    case OpInsert(k, x) => InsertFrees(c, k, x, h);
    case OpErase(k) =>
    case OpLookup(k) => LookupKeeps(c, k);
    case OpRelease(x) =>
  }

  lemma InsertFrees<H>(c: Cache<H>, k: int, x: H, h: H)
    requires Valid(c) && x !in c.held && h in c.held
    ensures h !in Insert(c, k, x).held <==>
              c.held[h] == 0
              && ((|c.held| >= c.capacity && c.idle != [] && c.idle[0] == h)
                  || (k in c.index && c.index[k] == h && (|c.held| < c.capacity || c.idle != [])))
  {
    EvictKeeps(c);
    var c1 := Evict(c);
    if c.idle != [] { OldestFacts(c); }
    hide ListOk, Without;
    if |c1.held| < c.capacity { AddKeeps(c1, k, x); }
  }

  /** A handle with users outlives everything but its users' own releases. */
  lemma UsedIsNotFreed<H>(c: Cache<H>, op: Op<H>, h: H)
    requires Valid(c) && Allowed(c, op) && h in c.held && c.held[h] > 0 && op != OpRelease(h)
    ensures h in Apply(c, op).held && Apply(c, op).held[h] >= c.held[h]
  {
    hide ListOk, Without;
    FreedExactly(c, op, h);
    match op
    case OpInsert(k, x) =>
      EvictKeeps(c);
      if |Evict(c).held| < c.capacity { AddKeeps(Evict(c), k, x); }
    case OpErase(k) =>
    case OpLookup(k) => LookupKeeps(c, k);
    case OpRelease(x) =>
  }

  /** What can be looked up after an insertion: the new handle under its key, and all the others but
      the evicted one. */
  lemma InsertIndexes<H>(c: Cache<H>, k: int, h: H)
    requires Valid(c) && h !in c.held
    ensures |c.held| < c.capacity ==> Insert(c, k, h).index == c.index[k := h]
    ensures |c.held| >= c.capacity && c.idle != [] ==>
              c.idle[0] in c.key && Insert(c, k, h).index == (c.index - {c.key[c.idle[0]]})[k := h]
    ensures |c.held| >= c.capacity && c.idle == [] ==> Insert(c, k, h) == c
  {
    hide KeysOk, ListOk, Without;
    EvictKeeps(c);
    if |Evict(c).held| < c.capacity { AddKeeps(Evict(c), k, h); }
  }

  /** A cache with the time at which each handle was last put to the end of the idle list. */
  datatype Timed<!H(==)> = Timed(c: Cache<H>, since: map<H, nat>, now: nat)

  ghost function Tick<H>(t: Timed<H>, op: Op<H>): Timed<H>
    requires Valid(t.c) && Allowed(t.c, op)
  {
    var c' := Apply(t.c, op);
    var since' := match op
                  case OpInsert(_, h) => t.since[h := t.now]
                  case OpRelease(h) => t.since[h := t.now]
                  case _ => t.since;
    Timed(c', since', t.now + 1)
  }

  ghost predicate InOrder<H>(idle: seq<H>, since: map<H, nat>, now: nat) {
    && (forall h :: h in idle ==> h in since && since[h] < now)
    && (forall i, j :: 0 <= i < j < |idle| ==> since[idle[i]] < since[idle[j]])
  }

  lemma TailOrder<H>(s: seq<H>, since: map<H, nat>, now: nat)
    requires InOrder(s, since, now) && s != []
    ensures InOrder(s[1..], since, now) && s[0] in since && since[s[0]] < now
    ensures forall x :: x in s[1..] ==> x in s && since[s[0]] < since[x]
  {
    assert s[0] in s;
    forall x | x in s[1..] ensures x in s && since[s[0]] < since[x] {
      var j :| 0 <= j < |s[1..]| && s[1..][j] == x;
      assert s[j + 1] == x;
    }
  }

  lemma ConsOrder<H>(x: H, rest: seq<H>, since: map<H, nat>, now: nat)
    requires InOrder(rest, since, now) && x in since && since[x] < now
    requires forall y :: y in rest ==> since[x] < since[y]
    ensures InOrder([x] + rest, since, now)
  {}

  lemma {:induction false} WithoutKeepsOrder<H>(s: seq<H>, h: H, since: map<H, nat>, now: nat)
    requires InOrder(s, since, now)
    ensures InOrder(Without(s, h), since, now)
    ensures forall x :: x in Without(s, h) ==> x in s
  {
    hide InOrder;
    if s != [] {
      TailOrder(s, since, now);
      WithoutKeepsOrder(s[1..], h, since, now);
      if s[0] != h { ConsOrder(s[0], Without(s[1..], h), since, now); }
    }
  }

  lemma LaterKeepsOrder<H>(s: seq<H>, since: map<H, nat>, now: nat, h: H)
    requires InOrder(s, since, now) && h !in s
    ensures InOrder(s, since[h := now], now + 1) && InOrder(s + [h], since[h := now], now + 1)
  {}

  lemma TimePasses<H>(s: seq<H>, since: map<H, nat>, now: nat)
    requires InOrder(s, since, now)
    ensures InOrder(s, since, now + 1)
  {}

  /** The idle list is always ordered by time of disuse. */
  lemma TickKeepsOrder<H>(t: Timed<H>, op: Op<H>)
    requires Valid(t.c) && Allowed(t.c, op) && InOrder(t.c.idle, t.since, t.now)
    ensures InOrder(Tick(t, op).c.idle, Tick(t, op).since, Tick(t, op).now)
  {
    var c := t.c;
    hide KeysOk, ListOk, Without, InOrder;
    match op
    case OpInsert(k, h) => InsertKeepsOrder(t, k, h);
    case OpErase(k) =>
      if k in c.index { RetireKeeps(c, k); WithoutKeepsOrder(c.idle, c.index[k], t.since, t.now); }
      TimePasses(Erase(c, k).idle, t.since, t.now);
    case OpLookup(k) =>
      LookupKeeps(c, k);
      if k in c.index { WithoutKeepsOrder(c.idle, c.index[k], t.since, t.now); }
      TimePasses(Lookup(c, k).idle, t.since, t.now);
    case OpRelease(h) => ReleaseKeepsOrder(t, h);
  }

  lemma ReleaseKeepsOrder<H>(t: Timed<H>, h: H)
    requires Valid(t.c) && h in t.c.held && t.c.held[h] > 0 && InOrder(t.c.idle, t.since, t.now)
    ensures InOrder(Release(t.c, h).idle, t.since[h := t.now], t.now + 1)
  {
    assert h !in t.c.idle;
    hide Valid, InOrder, Without;
    LaterKeepsOrder(t.c.idle, t.since, t.now, h);
  }

  lemma InsertKeepsOrder<H>(t: Timed<H>, k: int, h: H)
    requires Valid(t.c) && h !in t.c.held && InOrder(t.c.idle, t.since, t.now)
    ensures InOrder(Insert(t.c, k, h).idle, t.since[h := t.now], t.now + 1)
  {
    EvictKeeps(t.c);
    EvictKeepsOrder(t.c, h, t.since, t.now);
    var c1 := Evict(t.c);
    hide Valid, InOrder, Evict, Without;
    if |c1.held| < t.c.capacity {
      AddKeepsOrder(c1, k, h, t.since, t.now);
    } else {
      LaterKeepsOrder(c1.idle, t.since, t.now, h);
    }
  }

  lemma EvictKeepsOrder<H>(c: Cache<H>, h: H, since: map<H, nat>, now: nat)
    requires Valid(c) && h !in c.held && InOrder(c.idle, since, now)
    ensures c.idle != [] ==> c.idle[0] in c.key && c.key[c.idle[0]] in c.index && c.index[c.key[c.idle[0]]] in c.held
    ensures InOrder(Evict(c).idle, since, now) && h !in Evict(c).idle && h !in Evict(c).held
    ensures Evict(c).capacity == c.capacity
  {
    EvictKeeps(c);
    IdleIsHeld(c, h);
    hide Valid, InOrder;
    if c.idle != [] { WithoutKeepsOrder(c.idle, c.idle[0], since, now); }
  }

  lemma AddKeepsOrder<H>(c: Cache<H>, k: int, h: H, since: map<H, nat>, now: nat)
    requires Valid(c) && h !in c.held && |c.held| < c.capacity && InOrder(c.idle, since, now)
    ensures k in c.index ==> c.index[k] in c.held
    ensures InOrder(Add(c, k, h).idle, since[h := now], now + 1)
  {
    AddKeeps(c, k, h);
    IdleIsHeld(c, h);
    hide Valid, InOrder;
    if k in c.index { WithoutKeepsOrder(c.idle, c.index[k], since, now); }
    LaterKeepsOrder(Erase(c, k).idle, since, now, h);
  }

  lemma IdleIsHeld<H>(c: Cache<H>, h: H)
    requires Valid(c) && h !in c.held
    ensures h !in c.idle
  {}

  /** The operations can be applied one after the other. */
  ghost predicate CanRun<H>(c: Cache<H>, ops: seq<Op<H>>)
    requires Valid(c)
    decreases |ops|
  {
    ops == [] || (Allowed(c, ops[0]) && (ApplyKeeps(c, ops[0]); CanRun(Apply(c, ops[0]), ops[1..])))
  }

  ghost function Run<H>(t: Timed<H>, ops: seq<Op<H>>): Timed<H>
    requires Valid(t.c) && CanRun(t.c, ops)
    decreases |ops|
  {
    if ops == [] then t else ApplyKeeps(t.c, ops[0]); Run(Tick(t, ops[0]), ops[1..])
  }

  lemma {:induction false} RunKeeps<H>(t: Timed<H>, ops: seq<Op<H>>)
    requires Valid(t.c) && InOrder(t.c.idle, t.since, t.now) && CanRun(t.c, ops)
    ensures Valid(Run(t, ops).c) && Run(t, ops).c.capacity == t.c.capacity
    ensures InOrder(Run(t, ops).c.idle, Run(t, ops).since, Run(t, ops).now)
    decreases |ops|
  {
    if ops != [] {
      ApplyKeeps(t.c, ops[0]);
      TickKeepsOrder(t, ops[0]);
      SameCapacity(t.c, ops[0]);
      hide Valid, InOrder, Apply;
      RunKeeps(Tick(t, ops[0]), ops[1..]);
    }
  }

  lemma SameCapacity<H>(c: Cache<H>, op: Op<H>)
    requires Valid(c) && Allowed(c, op)
    ensures Apply(c, op).capacity == c.capacity
  {
    hide KeysOk, ListOk, Without;
    match op
    case OpInsert(k, h) =>
      EvictKeeps(c);
      if |Evict(c).held| < c.capacity { AddKeeps(Evict(c), k, h); }
    case _ =>
  }

  /** After any run from an empty cache, no more handles are live than the capacity allows, and what
      an insertion into a full cache evicts has been unused the longest. */
  lemma EvictionTakesTheLongestUnused<H>(capacity: nat, ops: seq<Op<H>>, k: int, h: H)
    requires Valid(Empty<H>(capacity)) && CanRun(Empty<H>(capacity), ops)
    ensures var t := Run(Timed(Empty(capacity), map[], 0), ops);
            && |t.c.held| <= capacity
            && (h !in t.c.held && |t.c.held| == capacity && t.c.idle != [] ==>
                  && Valid(t.c) && t.c.idle[0] !in Insert(t.c, k, h).index.Values
                  && t.c.idle[0] in t.since
                  && forall x :: x in t.c.idle ==> x in t.since && t.since[t.c.idle[0]] <= t.since[x])
  {
    var t0 := Timed(Empty<H>(capacity), map[], 0);
    RunKeeps(t0, ops);
    var t := Run(t0, ops);
    if h !in t.c.held && |t.c.held| == capacity && t.c.idle != [] {
      OldestFacts(t.c);
      InsertIndexes(t.c, k, h);
      EvictedIsUnindexed(t.c, k, h);
    }
  }

  lemma EvictedIsUnindexed<H>(c: Cache<H>, k: int, h: H)
    requires Valid(c) && h !in c.held && c.idle != [] && c.idle[0] in c.key && c.idle[0] in c.held
    requires Insert(c, k, h).index == (c.index - {c.key[c.idle[0]]})[k := h]
    ensures c.idle[0] !in Insert(c, k, h).index.Values
  {
    hide Insert;
    var index' := Insert(c, k, h).index;
    forall x | x in index' ensures index'[x] != c.idle[0] {}
  }

  // ---------------------------------------------------------------- users are counted

  /** The users of a handle; one that is not live has none. */
  function Users<H(==)>(c: Cache<H>, h: H): nat {
    if h in c.held then c.held[h] else 0
  }

  /** The operation finds h for a new user. */
  predicate Finds<H(==)>(c: Cache<H>, op: Op<H>, h: H) {
    op.OpLookup? && op.k in c.index && c.index[op.k] == h
  }

  /** A lookup that finds h gives it one user more, a release one less, and nothing else changes its
      users, not even that h is dropped from the index, freed, or inserted anew. */
  lemma UsersChange<H>(c: Cache<H>, op: Op<H>, h: H)
    requires Valid(c) && Allowed(c, op)
    ensures Users(Apply(c, op), h)
            == Users(c, h) + (if Finds(c, op, h) then 1 else 0) - if op == OpRelease(h) then 1 else 0
  {
    hide ListOk, Without;
    match op
    case OpInsert(k, x) => InsertKeepsUsers(c, k, x, h);
    case OpErase(k) =>
    case OpLookup(k) => LookupKeeps(c, k);
    case OpRelease(x) =>
  }

  lemma InsertKeepsUsers<H>(c: Cache<H>, k: int, x: H, h: H)
    requires Valid(c) && x !in c.held
    ensures Users(Insert(c, k, x), h) == Users(c, h)
  {
    EvictKeeps(c);
    if c.idle != [] { OldestFacts(c); }
    hide ListOk, Without;
    if |Evict(c).held| < c.capacity { AddKeeps(Evict(c), k, x); }
  }

  /** What an operation does to the index, and a lookup or a release to everything else. */
  lemma IndexChanges<H>(c: Cache<H>, op: Op<H>)
    requires Valid(c) && Allowed(c, op)
    ensures op.OpLookup? || op.OpRelease? ==> Apply(c, op).index == c.index
    ensures op.OpErase? ==> Apply(c, op).index == c.index - {op.k}
    ensures op.OpLookup? ==> Apply(c, op).key == c.key && Apply(c, op).held.Keys == c.held.Keys
  {
    hide ListOk, Without;
    match op
    case OpErase(k) => assert k !in c.index ==> c.index - {k} == c.index;
    case OpLookup(k) => LookupKeeps(c, k);
    case _ =>
  }

  /** How often h is found while the operations are applied. */
  ghost function Found<H>(c: Cache<H>, ops: seq<Op<H>>, h: H): nat
    requires Valid(c) && CanRun(c, ops)
    decreases |ops|
  {
    if ops == [] then 0
    else
      ApplyKeeps(c, ops[0]);
      (if Finds(c, ops[0], h) then 1 else 0) + Found(Apply(c, ops[0]), ops[1..], h)
  }

  function Released<H(==)>(ops: seq<Op<H>>, h: H): nat {
    if ops == [] then 0 else (if ops[0] == OpRelease(h) then 1 else 0) + Released(ops[1..], h)
  }

  lemma {:induction false} RunCountsUsers<H>(t: Timed<H>, ops: seq<Op<H>>, h: H)
    requires Valid(t.c) && InOrder(t.c.idle, t.since, t.now) && CanRun(t.c, ops)
    ensures Users(Run(t, ops).c, h) == Users(t.c, h) + Found(t.c, ops, h) - Released(ops, h)
    decreases |ops|
  {
    if ops != [] {
      ApplyKeeps(t.c, ops[0]);
      TickKeepsOrder(t, ops[0]);
      UsersChange(t.c, ops[0], h);
      hide Valid, InOrder, Apply, Finds, Users;
      RunCountsUsers(Tick(t, ops[0]), ops[1..], h);
    }
  }

  /** After any run from an empty cache, the users of a handle are the lookups that found it less its
      releases; a handle that was found more often than released has not been freed. */
  lemma UsersAreLookupsLessReleases<H>(capacity: nat, ops: seq<Op<H>>, h: H)
    requires Valid(Empty<H>(capacity)) && CanRun(Empty<H>(capacity), ops)
    ensures var c := Run(Timed(Empty(capacity), map[], 0), ops).c;
            && Found(Empty<H>(capacity), ops, h) - Released(ops, h) == Users(c, h)
            && (Found(Empty<H>(capacity), ops, h) > Released(ops, h) ==> h in c.held)
  {
    RunCountsUsers(Timed(Empty<H>(capacity), map[], 0), ops, h);
  }
}
