/** The resource pool (idea/resource_pool_inl.h) as a step machine over any number of threads,
    each with its local pool.  A step is one atomic access or one critical section, together
    with the accesses to the thread's own local pool around it.  "where" and "claimed" are
    history. */
module ResourcePool {
  import opened Prelude
  import opened BlockIds
  import opened PoolSpec

  /** A block group: the counter that callers claim indices with, and the indices at which a
      block has been stored. */
  datatype Group = Group(nblock: nat, blocks: set<nat>)

  /** A thread's local pool: _cur_free.ids[0.._cur_free.nfree), and _cur_block by its number. */
  datatype LocalPool = LocalPool(free: seq<Id>, block: Option<nat>)

  /** Where a thread is in get (lines 219-252) and fetch_block (lines 136-166). */
  datatype Pc =
    | Ready
    | Missed
    | Looping
    | Loaded(ngroup: nat)
    | Storing(g: nat, index: nat)
    | Overshot(g: nat)
    | Creating(ngroup: nat)
    | Carving

  datatype Place = Used | Lost | InLocal(t: Tid) | InChunk(c: nat)

  datatype State = State(
    groups: seq<Group>,
    nitem: map<nat, nat>,
    chunks: seq<seq<Id>>,
    locals: map<Tid, LocalPool>,
    pcs: map<Tid, Pc>,
    used: set<Id>,
    lost: set<Id>,
    where: map<Id, Place>,
    claimed: seq<nat>)

  ghost predicate IsInit(s: State) {
    && s.groups == [] && s.nitem == map[] && s.chunks == [] && s.used == {} && s.lost == {}
    && s.where == map[] && s.claimed == [] && s.pcs.Keys == s.locals.Keys
    && forall t :: t in s.locals ==> s.locals[t] == LocalPool([], None) && s.pcs[t] == Ready
  }

  predicate Here(s: State, t: Tid) {
    t in s.locals && t in s.pcs
  }

  // ---------------------------------------------------------------- get, from free ids

  /** Lines 221-225. */
  predicate CanGetLocal(s: State, t: Tid) {
    Here(s, t) && s.pcs[t] == Ready && s.locals[t].free != [] && Last(s.locals[t].free) in s.where
  }

  function GetLocal(s: State, t: Tid): State
    requires CanGetLocal(s, t)
  {
    var l := s.locals[t];
    var id := Last(l.free);
    s.(locals := s.locals[t := l.(free := ButLast(l.free))],
       used := s.used + {id},
       where := s.where[id := Used])
  }

  /** Lines 228-233 when pop_free_chunk finds a chunk (lines 104-117). */
  predicate CanGetChunk(s: State, t: Tid) {
    Here(s, t) && s.pcs[t] == Ready && s.locals[t].free == [] && s.chunks != [] && Last(s.chunks) != []
  }

  function GetChunk(s: State, t: Tid): State
    requires CanGetChunk(s, t)
  {
    var l, chunk := s.locals[t], Last(s.chunks);
    var id := Last(chunk);
    s.(chunks := ButLast(s.chunks),
       locals := s.locals[t := l.(free := ButLast(chunk))],
       used := s.used + {id},
       where := Relabel(s.where, InChunk(|s.chunks| - 1), InLocal(t))[id := Used])
  }

  function Relabel(where: map<Id, Place>, p: Place, q: Place): map<Id, Place> {
    map x | x in where :: if where[x] == p then q else where[x]
  }

  /** Line 228 when there is no chunk. */
  predicate CanMiss(s: State, t: Tid) {
    Here(s, t) && s.pcs[t] == Ready && s.locals[t].free == [] && s.chunks == []
  }

  function Miss(s: State, t: Tid): State {
    s.(pcs := s.pcs[t := Missed])
  }

  // ---------------------------------------------------------------- get, from a block

  /** Lines 236-240 and 245-249: the next item of the current block. */
  predicate CanCarve(s: State, t: Tid) {
    && Here(s, t) && (s.pcs[t] == Missed || s.pcs[t] == Carving)
    && s.locals[t].block.Some? && s.locals[t].block.value in s.nitem && s.nitem[s.locals[t].block.value] < BLOCK_NITEM
  }

  function CarvedId(s: State, t: Tid): Id
    requires CanCarve(s, t)
  {
    var k := s.locals[t].block.value;
    k * 128 + s.nitem[k]
  }

  function Carve(s: State, t: Tid): State
    requires CanCarve(s, t)
  {
    var k := s.locals[t].block.value;
    var id := CarvedId(s, t);
    s.(nitem := s.nitem[k := s.nitem[k] + 1],
       pcs := s.pcs[t := Ready],
       used := s.used + {id},
       where := s.where[id := Used])
  }

  /** Line 244 entering fetch_block (line 137) when there is no block or it is used up. */
  predicate CanStartFetch(s: State, t: Tid) {
    && Here(s, t) && s.pcs[t] == Missed
    && (s.locals[t].block.Some? ==>
          s.locals[t].block.value in s.nitem && s.nitem[s.locals[t].block.value] >= BLOCK_NITEM)
  }

  function StartFetch(s: State, t: Tid): State {
    s.(pcs := s.pcs[t := Looping])
  }

  /** Out of memory or out of groups (lines 137-140 and 159-165): get returns NULL (line 251). */
  predicate CanGiveUp(s: State, t: Tid) {
    CanStartFetch(s, t) || (Here(s, t) && s.pcs[t].Creating? && s.pcs[t].ngroup == |s.groups|)
  }

  function GiveUp(s: State, t: Tid): State
    requires CanGiveUp(s, t)
  {
    s.(pcs := s.pcs[t := Ready], locals := s.locals[t := s.locals[t].(block := None)])
  }

  // ---------------------------------------------------------------- fetch_block

  /** Lines 143-144. */
  predicate CanLoad(s: State, t: Tid) {
    Here(s, t) && s.pcs[t] == Looping
  }

  function Load(s: State, t: Tid): State {
    s.(pcs := s.pcs[t := if |s.groups| >= 1 then Loaded(|s.groups|) else Creating(0)])
  }

  /** Lines 148-149. */
  predicate CanAdd(s: State, t: Tid) {
    Here(s, t) && s.pcs[t].Loaded? && 1 <= s.pcs[t].ngroup <= |s.groups| && |s.claimed| == |s.groups|
  }

  function Add(s: State, t: Tid): State
    requires CanAdd(s, t)
  {
    var g := s.pcs[t].ngroup - 1;
    var index := s.groups[g].nblock;
    var s' := s.(groups := s.groups[g := s.groups[g].(nblock := index + 1)]);
    if index < GROUP_NBLOCK then
      s'.(pcs := s.pcs[t := Storing(g, index)], claimed := s.claimed[g := s.claimed[g] + 1])
    else
      s'.(pcs := s.pcs[t := Overshot(g)])
  }

  /** Lines 150-153, and _cur_block and _cur_block_index of line 244. */
  predicate CanStore(s: State, t: Tid) {
    Here(s, t) && s.pcs[t].Storing? && s.pcs[t].g < |s.groups|
  }

  function Store(s: State, t: Tid): State
    requires CanStore(s, t)
  {
    var g, index := s.pcs[t].g, s.pcs[t].index;
    var k := g * 65536 + index;
    s.(groups := s.groups[g := s.groups[g].(blocks := s.groups[g].blocks + {index})],
       nitem := s.nitem[k := 0],
       pcs := s.pcs[t := Carving],
       locals := s.locals[t := s.locals[t].(block := Some(k))])
  }

  /** Line 156. */
  predicate CanSub(s: State, t: Tid) {
    Here(s, t) && s.pcs[t].Overshot? && s.pcs[t].g < |s.groups| && s.groups[s.pcs[t].g].nblock > 0
  }

  function Sub(s: State, t: Tid): State
    requires CanSub(s, t)
  {
    var g := s.pcs[t].g;
    s.(groups := s.groups[g := s.groups[g].(nblock := s.groups[g].nblock - 1)],
       pcs := s.pcs[t := Creating(g + 1)])
  }

  /** create_block_group (lines 168-186) when it succeeds, under the block group mutex. */
  predicate CanCreate(s: State, t: Tid) {
    Here(s, t) && s.pcs[t].Creating? && (|s.groups| != s.pcs[t].ngroup || |s.groups| < MAX_NGROUP)
  }

  function Create(s: State, t: Tid): State
    requires CanCreate(s, t)
  {
    if |s.groups| != s.pcs[t].ngroup then s.(pcs := s.pcs[t := Looping])
    else s.(pcs := s.pcs[t := Looping], groups := s.groups + [Group(0, {})], claimed := s.claimed + [0])
  }

  // ---------------------------------------------------------------- return_resource

  /** Lines 254-268; "ok" is the outcome of malloc in push_free_chunk. */
  predicate CanPut(s: State, t: Tid, id: Id) {
    Here(s, t) && s.pcs[t] == Ready && id in s.used && id in s.where
  }

  function PutSink(s: State, t: Tid, ok: bool): Sink
    requires Here(s, t)
  {
    if |s.locals[t].free| < BLOCK_NITEM then Kept else if ok then Spilled else Dropped
  }

  function Put(s: State, t: Tid, id: Id, ok: bool): State
    requires CanPut(s, t, id)
  {
    var l := s.locals[t];
    var s' := s.(used := s.used - {id});
    match PutSink(s, t, ok)
    case Kept =>
      s'.(locals := s.locals[t := l.(free := l.free + [id])], where := s.where[id := InLocal(t)])
    case Spilled =>
      s'.(locals := s.locals[t := l.(free := [id])],
          chunks := s.chunks + [l.free],
          where := Relabel(s.where, InLocal(t), InChunk(|s.chunks|))[id := InLocal(t)])
    case Dropped =>
      s'.(lost := s.lost + {id}, where := s.where[id := Lost])
  }

  /** The destructor of a thread's local pool (lines 211-215). */
  predicate CanLeave(s: State, t: Tid) {
    Here(s, t) && s.pcs[t] == Ready
  }

  function Leave(s: State, t: Tid, ok: bool): State
    requires CanLeave(s, t)
  {
    var l := s.locals[t];
    var s' := s.(locals := s.locals[t := LocalPool([], None)]);
    if l.free == [] then s'
    else if ok then
      s'.(chunks := s.chunks + [l.free], where := Relabel(s.where, InLocal(t), InChunk(|s.chunks|)))
    else
      s'.(lost := s.lost + (set x | x in l.free), where := Relabel(s.where, InLocal(t), Lost))
  }

  datatype Action =
    | AGetLocal | AGetChunk | AMiss | ACarve | AStartFetch | AGiveUp | ALoad | AAdd | AStore | ASub | ACreate
    | APut(id: Id, ok: bool) | ALeave(ok: bool)

  predicate Enabled(s: State, t: Tid, a: Action) {
    match a
    case AGetLocal => CanGetLocal(s, t)
    case AGetChunk => CanGetChunk(s, t)
    case AMiss => CanMiss(s, t)
    case ACarve => CanCarve(s, t)
    case AStartFetch => CanStartFetch(s, t)
    case AGiveUp => CanGiveUp(s, t)
    case ALoad => CanLoad(s, t)
    case AAdd => CanAdd(s, t)
    case AStore => CanStore(s, t)
    case ASub => CanSub(s, t)
    case ACreate => CanCreate(s, t)
    case APut(id, _) => CanPut(s, t, id)
    case ALeave(_) => CanLeave(s, t)
  }

  function Do(s: State, t: Tid, a: Action): State
    requires Enabled(s, t, a)
  {
    match a
    case AGetLocal => GetLocal(s, t)
    case AGetChunk => GetChunk(s, t)
    case AMiss => Miss(s, t)
    case ACarve => Carve(s, t)
    case AStartFetch => StartFetch(s, t)
    case AGiveUp => GiveUp(s, t)
    case ALoad => Load(s, t)
    case AAdd => Add(s, t)
    case AStore => Store(s, t)
    case ASub => Sub(s, t)
    case ACreate => Create(s, t)
    case APut(id, ok) => Put(s, t, id, ok)
    case ALeave(ok) => Leave(s, t, ok)
  }

  ghost predicate Step(r: State, a: (Tid, Action), s: State) {
    Enabled(r, a.0, a.1) && s == Do(r, a.0, a.1)
  }

  /** The states that a run passes through, from any state. */
  ghost predicate Path(states: seq<State>, run: seq<(Tid, Action)>) {
    && |states| == |run| + 1
    && forall i :: 0 <= i < |run| ==> Step(states[i], run[i], states[i + 1])
  }

  ghost predicate Follows(states: seq<State>, run: seq<(Tid, Action)>) {
    Path(states, run) && IsInit(states[0])
  }

  /** The run leads to s. */
  ghost predicate Reaches(run: seq<(Tid, Action)>, s: State) {
    exists states :: Follows(states, run) && Last(states) == s
  }
}
