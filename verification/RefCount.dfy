/** Shared and weak counts (idea/smart_pointer/shared_count.hpp over sp_counted_impl.hpp) as a step
    machine: any number of threads, handles and control blocks.  A step is one atomic operation on a
    count, one call of dispose or destroy, or what an operation does to handles that no other
    thread may touch at the time.  "owners" and the fields after it are history. */
module RefCounts {
  import opened Prelude

  type Bid = nat
  type Tid = nat

  datatype Kind = Strong | Weak

  /** A shared_count or a weak_count object. */
  datatype Ref = Ref(kind: Kind, id: nat)

  /** use_count_ or weak_count_ of a block. */
  datatype Key = Key(kind: Kind, b: Bid)

  /** What is left of an operation once the old block is let go: nothing, or to set pi_. */
  datatype Rest = End | Set(to: Ref, tmp: Option<Bid>)

  /** Where a thread is: about to count a new reference; about to uncount one; in release after the last
      use; in weak_release after the last count; about to set pi_; in atomic_conditional_increment. */
  datatype Pc =
    | Idle
    | Acquiring(from: Ref, b: Bid, was: Option<Bid>, to: Ref)
    | Dropping(key: Key, rest: Rest)
    | Disposing(b: Bid, rest: Rest)
    | Destroying(b: Bid, rest: Rest)
    | Setting(rest: Rest)
    | Loading(from: Ref, b: Bid, to: Ref)
    | Swapping(from: Ref, b: Bid, to: Ref, r: int)

  /** Who counts: a handle, a thread between two steps of an operation, or, for the weak count, the
      strong owners together. */
  datatype Owner = ByHandle(h: Ref) | ByThread(t: Tid) | ByTheStrong

  datatype Stage = Live | ToDispose(t: Tid) | Disposed | ToDestroy(t: Tid) | Gone

  datatype State = State(
    counts: map<Key, int>, handles: map<Ref, Option<Bid>>, pcs: map<Tid, Pc>,
    used: set<Ref>, owners: map<Key, set<Owner>>, stages: map<Bid, Stage>, disposals: map<Bid, nat>,
    destructions: map<Bid, nat>)

  ghost predicate IsInit(s: State) {
    && s.counts == map[] && s.handles == map[] && s.used == {} && s.owners == map[] && s.stages == map[]
    && s.disposals == map[] && s.destructions == map[] && forall t :: t in s.pcs ==> s.pcs[t] == Idle
  }

  datatype Action =
    | New(to: Ref, b: Bid) | Null(to: Ref) | Copy(to: Ref, from: Ref) | Move(to: Ref, from: Ref)
    | Destruct(h: Ref) | Assign(to: Ref, from: Ref) | LockWeak(to: Ref, from: Ref)
    | Add | Sub | Dispose | Destroy | SetPi | LoadUse | Swap(spurious: bool)

  function Borrows(pc: Pc): Option<Ref> {
    if pc.Acquiring? || pc.Loading? || pc.Swapping? then Some(pc.from) else None
  }

  /** No operation is reading the handle: it may be changed. */
  ghost predicate Unshared(s: State, h: Ref) {
    h in s.handles && forall t :: t in s.pcs ==> Borrows(s.pcs[t]) != Some(h)
  }

  /** What callers owe, and where a thread has to be.  A weak_count is made from a handle of either kind,
      a shared_count from another one or, by locking, from a weak_count. */
  ghost predicate Enabled(s: State, t: Tid, a: Action) {
    t in s.pcs &&
    match a
    case New(to, b) => s.pcs[t] == Idle && to !in s.used && to.kind == Strong && b !in s.stages
    case Null(to) => s.pcs[t] == Idle && to !in s.used
    case Copy(to, from) =>
      s.pcs[t] == Idle && to !in s.used && from in s.handles && (from.kind == Strong || to.kind == Weak)
    case Move(to, from) => s.pcs[t] == Idle && to !in s.used && Unshared(s, from) && from.kind == to.kind
    case Destruct(h) => s.pcs[t] == Idle && Unshared(s, h)
    case Assign(to, from) =>
      s.pcs[t] == Idle && Unshared(s, to) && from in s.handles && (from.kind == Strong || to.kind == Weak)
    case LockWeak(to, from) =>
      s.pcs[t] == Idle && to !in s.used && from in s.handles && from.kind == Weak && to.kind == Strong
    case Add => s.pcs[t].Acquiring?
    case Sub => s.pcs[t].Dropping?
    case Dispose => s.pcs[t].Disposing?
    case Destroy => s.pcs[t].Destroying?
    case SetPi => s.pcs[t].Setting? && s.pcs[t].rest.Set?
    case LoadUse => s.pcs[t].Loading?
    case Swap(_) => s.pcs[t].Swapping?
  }

  function Count(s: State, key: Key): int {
    if key in s.counts then s.counts[key] else 0
  }

  function Owners(s: State, key: Key): set<Owner> {
    if key in s.owners then s.owners[key] else {}
  }

  function Counted(s: State, key: Key, n: int, o: set<Owner>): State {
    s.(counts := s.counts[key := n], owners := s.owners[key := o])
  }

  /** A reference changes hands. */
  function Pass(s: State, kind: Kind, v: Option<Bid>, from: Owner, to: Owner): State {
    if v == None then s
    else
      var key := Key(kind, v.value);
      s.(owners := s.owners[key := Owners(s, key) - {from} + {to}])
  }

  function At(s: State, t: Tid, pc: Pc): State {
    s.(pcs := s.pcs[t := pc])
  }

  function After(rest: Rest): Pc {
    if rest.End? then Idle else Setting(rest)
  }

  function DoNew(s: State, to: Ref, b: Bid): State {
    State(
      s.counts[Key(Strong, b) := 1][Key(Weak, b) := 1], s.handles[to := Some(b)], s.pcs, s.used + {to},
      s.owners[Key(Strong, b) := {ByHandle(to)}][Key(Weak, b) := {ByTheStrong}],
      s.stages[b := Live], s.disposals[b := 0], s.destructions[b := 0])
  }

  /** A constructor from another handle; a locking one looks at the use count first. */
  function DoCopy(s: State, t: Tid, to: Ref, from: Ref, lock: bool): (r: State)
    requires from in s.handles
    ensures r.counts == s.counts
  {
    var s' := s.(used := s.used + {to});
    match s.handles[from]
    case None => s'.(handles := s.handles[to := None])
    case Some(b) => At(s', t, if lock then Loading(from, b, to) else Acquiring(from, b, None, to))
  }

  function DoMove(s: State, to: Ref, from: Ref): (r: State)
    requires from in s.handles
    ensures r.counts == s.counts
  {
    var v := s.handles[from];
    Pass(s.(handles := s.handles[from := None][to := v], used := s.used + {to}),
         to.kind, v, ByHandle(from), ByHandle(to))
  }

  function DoDestruct(s: State, t: Tid, h: Ref): (r: State)
    requires h in s.handles
    ensures r.counts == s.counts
  {
    var v := s.handles[h];
    var s' := Pass(s.(handles := s.handles - {h}), h.kind, v, ByHandle(h), ByThread(t));
    if v == None then s' else At(s', t, Dropping(Key(h.kind, v.value), End))
  }

  function DoAssign(s: State, t: Tid, to: Ref, from: Ref): (r: State)
    requires to in s.handles && from in s.handles
    ensures r.counts == s.counts
  {
    var was, tmp := s.handles[to], s.handles[from];
    if tmp == was then s
    else
      var s' := Pass(s.(handles := s.handles - {to}), to.kind, was, ByHandle(to), ByThread(t));
      At(s', t, if tmp == None then Dropping(Key(to.kind, was.value), Set(to, None))
               else Acquiring(from, tmp.value, was, to))
  }

  function DoAdd(s: State, t: Tid): State
    requires t in s.pcs && s.pcs[t].Acquiring?
  {
    var pc := s.pcs[t];
    var key := Key(pc.to.kind, pc.b);
    var rest := Set(pc.to, Some(pc.b));
    At(Counted(s, key, Count(s, key) + 1, Owners(s, key) + {ByThread(t)}), t,
       if pc.was == None then Setting(rest) else Dropping(Key(pc.to.kind, pc.was.value), rest))
  }

  /** The atomic decrement, and the branch on the value it found. */
  function DoSub(s: State, t: Tid): State
    requires t in s.pcs && s.pcs[t].Dropping?
  {
    var pc := s.pcs[t];
    var b := pc.key.b;
    var s' := Counted(s, pc.key, Count(s, pc.key) - 1, Owners(s, pc.key) - {ByThread(t)});
    if Count(s, pc.key) != 1 then At(s', t, After(pc.rest))
    else if pc.key.kind == Strong then
      At(Pass(s', Weak, Some(b), ByTheStrong, ByThread(t)), t, Disposing(b, pc.rest))
      .(stages := s.stages[b := ToDispose(t)])
    else At(s', t, Destroying(b, pc.rest)).(stages := s.stages[b := ToDestroy(t)])
  }

  function Times(m: map<Bid, nat>, b: Bid): nat {
    if b in m then m[b] else 0
  }

  function DoSwapped(s: State, t: Tid): State
    requires t in s.pcs && s.pcs[t].Swapping?
  {
    var pc := s.pcs[t];
    var key := Key(Strong, pc.b);
    At(Counted(s, key, pc.r + 1, Owners(s, key) + {ByThread(t)}), t, Setting(Set(pc.to, Some(pc.b))))
  }

  /** One round of atomic_conditional_increment; a failed exchange loads the count again. */
  function DoSwap(s: State, t: Tid, spurious: bool): State
    requires t in s.pcs && s.pcs[t].Swapping?
  {
    var pc := s.pcs[t];
    if pc.r == 0 then At(s, t, Setting(Set(pc.to, None)))
    else if !spurious && Count(s, Key(Strong, pc.b)) == pc.r then DoSwapped(s, t)
    else At(s, t, pc.(r := Count(s, Key(Strong, pc.b))))
  }

  function DoDispose(s: State, t: Tid): (r: State)
    requires t in s.pcs && s.pcs[t].Disposing?
    ensures r.counts == s.counts
  {
    var b := s.pcs[t].b;
    At(s, t, Dropping(Key(Weak, b), s.pcs[t].rest)).(
      stages := s.stages[b := Disposed], disposals := s.disposals[b := Times(s.disposals, b) + 1])
  }

  function DoDestroy(s: State, t: Tid): (r: State)
    requires t in s.pcs && s.pcs[t].Destroying?
    ensures r.counts == s.counts
  {
    var b := s.pcs[t].b;
    At(s, t, After(s.pcs[t].rest)).(
      stages := s.stages[b := Gone], destructions := s.destructions[b := Times(s.destructions, b) + 1])
  }

  function DoSet(s: State, t: Tid): (r: State)
    requires t in s.pcs && s.pcs[t].Setting? && s.pcs[t].rest.Set?
    ensures r.counts == s.counts
  {
    var to, tmp := s.pcs[t].rest.to, s.pcs[t].rest.tmp;
    Pass(At(s, t, Idle).(handles := s.handles[to := tmp]), to.kind, tmp, ByThread(t), ByHandle(to))
  }

  ghost function Do(s: State, t: Tid, a: Action): State
    requires Enabled(s, t, a)
  {
    var pc := s.pcs[t];
    match a
    case New(to, b) => DoNew(s, to, b)
    case Null(to) => s.(handles := s.handles[to := None], used := s.used + {to})
    case Copy(to, from) => DoCopy(s, t, to, from, false)
    case Move(to, from) => DoMove(s, to, from)
    case Destruct(h) => DoDestruct(s, t, h)
    case Assign(to, from) => DoAssign(s, t, to, from)
    case LockWeak(to, from) => DoCopy(s, t, to, from, true)
    case Add => DoAdd(s, t)
    case Sub => DoSub(s, t)
    case Dispose => DoDispose(s, t)
    case Destroy => DoDestroy(s, t)
    case SetPi => DoSet(s, t)
    case LoadUse => At(s, t, Swapping(pc.from, pc.b, pc.to, Count(s, Key(Strong, pc.b))))
    case Swap(spurious) => DoSwap(s, t, spurious)
  }

  ghost predicate Step(r: State, t: Tid, a: Action, s: State) {
    Enabled(r, t, a) && s == Do(r, t, a)
  }

  /** The states that a run passes through, from any state. */
  ghost predicate Path(states: seq<State>, run: seq<(Tid, Action)>) {
    && |states| == |run| + 1
    && forall i :: 0 <= i < |run| ==> Step(states[i], run[i].0, run[i].1, states[i + 1])
  }

  ghost predicate Follows(states: seq<State>, run: seq<(Tid, Action)>) {
    Path(states, run) && IsInit(states[0])
  }

  /** The run leads to s. */
  ghost predicate Reaches(run: seq<(Tid, Action)>, s: State) {
    exists states :: Follows(states, run) && Last(states) == s
  }

  // ---------------------------------------------------------------- the invariant

  /** A reference that an operation will store in a handle. */
  predicate RestOwns(rest: Rest, key: Key) {
    rest.Set? && rest.tmp == Some(key.b) && rest.to.kind == key.kind
  }

  /** A reference that a thread has counted and not yet stored, or that it is about to uncount. */
  predicate ThreadOwns(pc: Pc, key: Key) {
    match pc
    case Acquiring(_, _, was, to) => was == Some(key.b) && to.kind == key.kind
    case Dropping(k, rest) => k == key || RestOwns(rest, key)
    case Disposing(b, rest) => key == Key(Weak, b) || RestOwns(rest, key)
    case Destroying(_, rest) => RestOwns(rest, key)
    case Setting(rest) => RestOwns(rest, key)
    case _ => false
  }

  predicate Owns(o: Owner, key: Key, handles: map<Ref, Option<Bid>>, pcs: map<Tid, Pc>, stages: map<Bid, Stage>) {
    match o
    case ByHandle(h) => h in handles && h.kind == key.kind && handles[h] == Some(key.b)
    case ByThread(t) => t in pcs && ThreadOwns(pcs[t], key)
    case ByTheStrong => key.kind == Weak && key.b in stages && stages[key.b] == Live
  }

  predicate OwnerOk(
      owners: map<Key, set<Owner>>, handles: map<Ref, Option<Bid>>, pcs: map<Tid, Pc>,
      stages: map<Bid, Stage>, key: Key,
      o: Owner)
  {
    key in owners ==> (o in owners[key] <==> Owns(o, key, handles, pcs, stages))
  }

  /** The owners of a count are exactly those who count. */
  ghost predicate OwnersOk(
      owners: map<Key, set<Owner>>, handles: map<Ref, Option<Bid>>, pcs: map<Tid, Pc>, stages: map<Bid, Stage>)
  {
    forall key, o :: OwnerOk(owners, handles, pcs, stages, key, o)
  }

  /** A count is the number of its owners. */
  ghost predicate CountsOk(counts: map<Key, int>, owners: map<Key, set<Owner>>) {
    forall key :: key in owners ==> key in counts && counts[key] == |owners[key]|
  }

  /** There are counts for the blocks that have been created, and handles point to those. */
  ghost predicate Known(owners: map<Key, set<Owner>>, handles: map<Ref, Option<Bid>>, stages: map<Bid, Stage>) {
    && (forall key: Key :: key in owners <==> key.b in stages)
    && (forall h :: h in handles && handles[h].Some? ==> handles[h].value in stages)
  }

  function Target(pc: Pc): Option<Ref> {
    match pc
    case Idle => None
    case Acquiring(_, _, _, to) => Some(to)
    case Loading(_, _, to) => Some(to)
    case Swapping(_, _, to, _) => Some(to)
    case Dropping(_, rest) => if rest.Set? then Some(rest.to) else None
    case Disposing(_, rest) => if rest.Set? then Some(rest.to) else None
    case Destroying(_, rest) => if rest.Set? then Some(rest.to) else None
    case Setting(rest) => if rest.Set? then Some(rest.to) else None
  }

  /** A handle that an operation is to set is out of the other threads' reach. */
  ghost predicate TargetsOk(handles: map<Ref, Option<Bid>>, pcs: map<Tid, Pc>, used: set<Ref>) {
    && handles.Keys <= used
    && (forall t :: t in pcs && Target(pcs[t]).Some? ==>
          Target(pcs[t]).value in used && Target(pcs[t]).value !in handles)
    && (forall t, u :: t in pcs && u in pcs && t != u && Target(pcs[t]).Some? ==> Target(pcs[t]) != Target(pcs[u]))
  }

  predicate StrongRest(rest: Rest) {
    rest.Set? ==> rest.to.kind == Strong
  }

  predicate RestKnown(rest: Rest, stages: map<Bid, Stage>) {
    rest.Set? && rest.tmp.Some? ==> rest.tmp.value in stages
  }

  predicate PcOk(pc: Pc, t: Tid, handles: map<Ref, Option<Bid>>, stages: map<Bid, Stage>) {
    match pc
    case Idle => true
    case Acquiring(from, b, was, to) =>
      && from in handles && handles[from] == Some(b) && (from.kind == Strong || to.kind == Weak) && was != Some(b)
      && b in stages && (was.Some? ==> was.value in stages)
    case Dropping(key, rest) =>
      !RestOwns(rest, key) && (key.kind == Strong ==> StrongRest(rest)) && key.b in stages && RestKnown(rest, stages)
    case Disposing(b, rest) => StrongRest(rest) && b in stages && stages[b] == ToDispose(t) && RestKnown(rest, stages)
    case Destroying(b, rest) => b in stages && stages[b] == ToDestroy(t) && RestKnown(rest, stages)
    case Setting(rest) => rest.Set? && RestKnown(rest, stages)
    case Loading(from, b, to) =>
      from in handles && handles[from] == Some(b) && from.kind == Weak && to.kind == Strong && b in stages
    case Swapping(from, b, to, r) =>
      && from in handles && handles[from] == Some(b) && from.kind == Weak && to.kind == Strong
      && b in stages && r >= 0 && (r == 0 ==> stages[b] != Live)
  }

  ghost predicate PcsOk(pcs: map<Tid, Pc>, handles: map<Ref, Option<Bid>>, stages: map<Bid, Stage>) {
    forall t :: t in pcs ==> PcOk(pcs[t], t, handles, stages)
  }

  predicate StageOk(
      b: Bid, stage: Stage, strong: set<Owner>, weak: set<Owner>, pcs: map<Tid, Pc>, disposals: nat, destructions: nat)
  {
    && (stage == Live <==> strong != {})
    && (stage.ToDestroy? || stage == Gone <==> weak == {})
    && disposals == (if stage == Live || stage.ToDispose? then 0 else 1)
    && destructions == (if stage == Gone then 1 else 0)
    && (stage.ToDispose? ==> stage.t in pcs && pcs[stage.t].Disposing? && pcs[stage.t].b == b)
    && (stage.ToDestroy? ==> stage.t in pcs && pcs[stage.t].Destroying? && pcs[stage.t].b == b)
  }

  /** The life of a block follows its owners: it is disposed of once, after the last strong owner, and
      destroyed once, after the last weak one. */
  ghost predicate StagesOk(
      stages: map<Bid, Stage>, owners: map<Key, set<Owner>>, pcs: map<Tid, Pc>, disposals: map<Bid, nat>,
      destructions: map<Bid, nat>)
  {
    forall b :: b in stages ==> BlockOk(b, stages, owners, pcs, disposals, destructions)
  }

  predicate BlockOk(
      b: Bid, stages: map<Bid, Stage>, owners: map<Key, set<Owner>>, pcs: map<Tid, Pc>, disposals: map<Bid, nat>,
      destructions: map<Bid, nat>)
    requires b in stages
  {
    && Key(Strong, b) in owners && Key(Weak, b) in owners && b in disposals && b in destructions
    && StageOk(b, stages[b], owners[Key(Strong, b)], owners[Key(Weak, b)], pcs, disposals[b], destructions[b])
  }

  ghost predicate Inv(s: State) {
    && OwnersOk(s.owners, s.handles, s.pcs, s.stages)
    && CountsOk(s.counts, s.owners)
    && Known(s.owners, s.handles, s.stages)
    && TargetsOk(s.handles, s.pcs, s.used)
    && PcsOk(s.pcs, s.handles, s.stages)
    && StagesOk(s.stages, s.owners, s.pcs, s.disposals, s.destructions)
  }

  lemma InitInv(s: State)
    requires IsInit(s)
    ensures Inv(s)
  {}

  // ---------------------------------------------------------------- owners

  /** The invariant at one count and one owner. */
  predicate OwnerIn(s: State, key: Key, o: Owner) {
    OwnerOk(s.owners, s.handles, s.pcs, s.stages, key, o)
  }

  /** It, and that everything involved is known. */
  predicate Before(s: State, t: Tid, key: Key, o: Owner) {
    && OwnerIn(s, key, o) && t in s.pcs && PcOk(s.pcs[t], t, s.handles, s.stages)
    && (Owns(o, key, s.handles, s.pcs, s.stages) ==> key.b in s.stages)
    && (key in s.owners <==> key.b in s.stages)
    && (ThreadOwns(s.pcs[t], key) ==> key.b in s.stages)
  }

  lemma NewOwner(s: State, t: Tid, to: Ref, b: Bid, key: Key, o: Owner)
    requires Before(s, t, key, o) && to !in s.handles && to.kind == Strong && b !in s.stages
    ensures OwnerIn(DoNew(s, to, b), key, o)
  {}

  lemma CopyOwner(s: State, t: Tid, to: Ref, from: Ref, lock: bool, key: Key, o: Owner)
    requires Before(s, t, key, o) && s.pcs[t] == Idle && to !in s.handles && from in s.handles
    ensures OwnerIn(DoCopy(s, t, to, from, lock), key, o)
  {}

  lemma MoveOwner(s: State, t: Tid, to: Ref, from: Ref, key: Key, o: Owner)
    requires Before(s, t, key, o) && to !in s.handles && from in s.handles && from.kind == to.kind
    ensures OwnerIn(DoMove(s, to, from), key, o)
  {}

  lemma DestructOwner(s: State, t: Tid, h: Ref, key: Key, o: Owner)
    requires Before(s, t, key, o) && s.pcs[t] == Idle && h in s.handles
    ensures OwnerIn(DoDestruct(s, t, h), key, o)
  {}

  lemma AssignOwner(s: State, t: Tid, to: Ref, from: Ref, key: Key, o: Owner)
    requires Before(s, t, key, o) && s.pcs[t] == Idle && to in s.handles && from in s.handles
    ensures OwnerIn(DoAssign(s, t, to, from), key, o)
  {}

  lemma AddOwner(s: State, t: Tid, key: Key, o: Owner)
    requires Before(s, t, key, o) && s.pcs[t].Acquiring?
    ensures OwnerIn(DoAdd(s, t), key, o)
  {}

  lemma SubOwner(s: State, t: Tid, key: Key, o: Owner)
    requires Before(s, t, key, o) && s.pcs[t].Dropping? && Count(s, s.pcs[t].key) != 1
    ensures OwnerIn(DoSub(s, t), key, o)
  {}

  lemma SubLastStrongOwner(s: State, t: Tid, key: Key, o: Owner)
    requires Before(s, t, key, o) && s.pcs[t].Dropping? && Count(s, s.pcs[t].key) == 1 && s.pcs[t].key.kind == Strong
    ensures OwnerIn(DoSub(s, t), key, o)
  {}

  lemma SubLastWeakOwner(s: State, t: Tid, key: Key, o: Owner)
    requires Before(s, t, key, o) && s.pcs[t].Dropping? && Count(s, s.pcs[t].key) == 1 && s.pcs[t].key.kind == Weak
    requires s.pcs[t].key.b in s.stages && s.stages[s.pcs[t].key.b] != Live
    ensures OwnerIn(DoSub(s, t), key, o)
  {}

  lemma EndOwner(s: State, t: Tid, key: Key, o: Owner)
    requires Before(s, t, key, o) && (s.pcs[t].Disposing? || s.pcs[t].Destroying?)
    ensures OwnerIn(if s.pcs[t].Disposing? then DoDispose(s, t) else DoDestroy(s, t), key, o)
  {}

  lemma SetOwner(s: State, t: Tid, key: Key, o: Owner)
    requires Before(s, t, key, o) && s.pcs[t].Setting? && s.pcs[t].rest.Set? && s.pcs[t].rest.to !in s.handles
    ensures OwnerIn(DoSet(s, t), key, o)
  {}

  lemma SwapOwner(s: State, t: Tid, key: Key, o: Owner)
    requires Before(s, t, key, o) && s.pcs[t].Swapping?
    ensures OwnerIn(DoSwapped(s, t), key, o)
  {}

  // ---------------------------------------------------------------- the other parts of the invariant, under a step

  lemma CountsPass(counts: map<Key, int>, owners: map<Key, set<Owner>>, key: Key, from: Owner, to: Owner)
    requires CountsOk(counts, owners) && key in owners && from in owners[key] && to !in owners[key]
    ensures CountsOk(counts, owners[key := owners[key] - {from} + {to}])
  {}

  lemma CountsGive(counts: map<Key, int>, owners: map<Key, set<Owner>>, key: Key, o: Owner)
    requires CountsOk(counts, owners) && key in owners && o !in owners[key] && key in counts
    ensures CountsOk(counts[key := counts[key] + 1], owners[key := owners[key] + {o}])
  {}

  lemma CountsTake(counts: map<Key, int>, owners: map<Key, set<Owner>>, key: Key, o: Owner)
    requires CountsOk(counts, owners) && key in owners && o in owners[key] && key in counts
    ensures CountsOk(counts[key := counts[key] - 1], owners[key := owners[key] - {o}])
    ensures counts[key] == 1 <==> owners[key] - {o} == {}
  {
    if owners[key] - {o} == {} { assert owners[key] == {o}; }
  }

  lemma PcsMove(pcs: map<Tid, Pc>, handles: map<Ref, Option<Bid>>, stages: map<Bid, Stage>, t: Tid, pc': Pc)
    requires PcsOk(pcs, handles, stages) && PcOk(pc', t, handles, stages)
    ensures PcsOk(pcs[t := pc'], handles, stages)
  {}

  lemma PcsAdd(pcs: map<Tid, Pc>, handles: map<Ref, Option<Bid>>, stages: map<Bid, Stage>, h: Ref, v: Option<Bid>)
    requires PcsOk(pcs, handles, stages) && h !in handles
    ensures PcsOk(pcs, handles[h := v], stages)
  {}

  lemma PcsTake(pcs: map<Tid, Pc>, handles: map<Ref, Option<Bid>>, stages: map<Bid, Stage>, h: Ref)
    requires PcsOk(pcs, handles, stages) && forall u :: u in pcs ==> Borrows(pcs[u]) != Some(h)
    ensures PcsOk(pcs, handles - {h}, stages) && PcsOk(pcs, handles[h := None], stages)
  {
    forall u | u in pcs ensures PcOk(pcs[u], u, handles - {h}, stages) && PcOk(pcs[u], u, handles[h := None], stages) {
      assert PcOk(pcs[u], u, handles, stages) && Borrows(pcs[u]) != Some(h);
    }
  }

  /** A stage that no other thread is to end changes. */
  lemma PcsStage(
      pcs: map<Tid, Pc>, handles: map<Ref, Option<Bid>>, stages: map<Bid, Stage>, t: Tid, pc': Pc, b: Bid, stage: Stage)
    requires PcsOk(pcs, handles, stages) && PcOk(pc', t, handles, stages[b := stage])
    requires b in stages && (stages[b].ToDispose? || stages[b].ToDestroy?) ==> stages[b].t == t
    requires b in stages ==> stage != Live
    ensures PcsOk(pcs[t := pc'], handles, stages[b := stage])
  {
    forall u | u in pcs && u != t ensures PcOk(pcs[u], u, handles, stages[b := stage]) {
      assert PcOk(pcs[u], u, handles, stages);
    }
  }

  lemma TargetsMove(handles: map<Ref, Option<Bid>>, pcs: map<Tid, Pc>, used: set<Ref>, t: Tid, pc': Pc)
    requires TargetsOk(handles, pcs, used) && t in pcs && (Target(pc') == None || Target(pc') == Target(pcs[t]))
    ensures TargetsOk(handles, pcs[t := pc'], used)
  {}

  lemma TargetsNew(handles: map<Ref, Option<Bid>>, pcs: map<Tid, Pc>, used: set<Ref>, t: Tid, pc': Pc, h: Ref)
    requires TargetsOk(handles, pcs, used) && t in pcs && h !in used && Target(pc') == Some(h)
    ensures TargetsOk(handles, pcs[t := pc'], used + {h})
  {}

  lemma TargetsAdd(handles: map<Ref, Option<Bid>>, pcs: map<Tid, Pc>, used: set<Ref>, h: Ref, v: Option<Bid>)
    requires TargetsOk(handles, pcs, used) && h !in used
    ensures TargetsOk(handles[h := v], pcs, used + {h})
  {}

  lemma TargetsChange(handles: map<Ref, Option<Bid>>, pcs: map<Tid, Pc>, used: set<Ref>, h: Ref, v: Option<Bid>)
    requires TargetsOk(handles, pcs, used) && h in handles
    ensures TargetsOk(handles[h := v], pcs, used)
  {}

  lemma TargetsTake(handles: map<Ref, Option<Bid>>, pcs: map<Tid, Pc>, used: set<Ref>, t: Tid, pc': Pc, h: Ref)
    requires TargetsOk(handles, pcs, used)
    requires t in pcs && h in handles && (Target(pc') == None || Target(pc') == Some(h))
    ensures TargetsOk(handles - {h}, pcs[t := pc'], used)
  {}

  lemma TargetsSet(handles: map<Ref, Option<Bid>>, pcs: map<Tid, Pc>, used: set<Ref>, t: Tid, h: Ref, v: Option<Bid>)
    requires TargetsOk(handles, pcs, used) && t in pcs && Target(pcs[t]) == Some(h)
    ensures TargetsOk(handles[h := v], pcs[t := Idle], used)
  {}

  lemma KnownHandle(
      owners: map<Key, set<Owner>>, handles: map<Ref, Option<Bid>>, stages: map<Bid, Stage>, h: Ref, v: Option<Bid>)
    requires Known(owners, handles, stages) && (v.Some? ==> v.value in stages)
    ensures Known(owners, handles[h := v], stages) && Known(owners, handles - {h}, stages)
  {}

  lemma KnownOwners(
      owners: map<Key, set<Owner>>, handles: map<Ref, Option<Bid>>, stages: map<Bid, Stage>, key: Key, o: set<Owner>,
      b: Bid, stage: Stage)
    requires Known(owners, handles, stages) && key in owners
    ensures Known(owners[key := o], handles, stages)
    ensures b in stages ==> Known(owners, handles, stages[b := stage])
  {}

  lemma StagesMove(
      stages: map<Bid, Stage>, owners: map<Key, set<Owner>>, pcs: map<Tid, Pc>, disposals: map<Bid, nat>,
      destructions: map<Bid, nat>, t: Tid, pc': Pc)
    requires StagesOk(stages, owners, pcs, disposals, destructions)
    requires t in pcs && !pcs[t].Disposing? && !pcs[t].Destroying?
    ensures StagesOk(stages, owners, pcs[t := pc'], disposals, destructions)
  {
    forall b | b in stages ensures BlockOk(b, stages, owners, pcs[t := pc'], disposals, destructions) {
      assert BlockOk(b, stages, owners, pcs, disposals, destructions);
    }
  }

  lemma StagesOwners(
      stages: map<Bid, Stage>, owners: map<Key, set<Owner>>, pcs: map<Tid, Pc>, disposals: map<Bid, nat>,
      destructions: map<Bid, nat>, key: Key, o: set<Owner>)
    requires StagesOk(stages, owners, pcs, disposals, destructions)
    requires key in owners && owners[key] != {} && o != {}
    ensures StagesOk(stages, owners[key := o], pcs, disposals, destructions)
  {
    forall b | b in stages ensures BlockOk(b, stages, owners[key := o], pcs, disposals, destructions) {
      assert BlockOk(b, stages, owners, pcs, disposals, destructions);
    }
  }

  /** Only block b goes on, moved by t. */
  lemma StagesBlock(s: State, s': State, t: Tid, b: Bid)
    requires StagesOk(s.stages, s.owners, s.pcs, s.disposals, s.destructions) && t in s.pcs
    requires s'.pcs == s.pcs[t := if t in s'.pcs then s'.pcs[t] else Idle]
    requires s.pcs[t].Disposing? || s.pcs[t].Destroying? ==> s.pcs[t].b == b
    requires s'.stages == s.stages[b := if b in s'.stages then s'.stages[b] else Live]
    requires s'.disposals == s.disposals[b := Times(s'.disposals, b)] || s'.disposals == s.disposals
    requires s'.destructions == s.destructions[b := Times(s'.destructions, b)] || s'.destructions == s.destructions
    requires forall key :: key in s.owners && key.b != b ==> key in s'.owners && s'.owners[key] == s.owners[key]
    requires BlockOk(b, s'.stages, s'.owners, s'.pcs, s'.disposals, s'.destructions)
    ensures StagesOk(s'.stages, s'.owners, s'.pcs, s'.disposals, s'.destructions)
  {
    forall c | c in s'.stages ensures BlockOk(c, s'.stages, s'.owners, s'.pcs, s'.disposals, s'.destructions) {
      if c != b { assert BlockOk(c, s.stages, s.owners, s.pcs, s.disposals, s.destructions); }
    }
  }

  // ---------------------------------------------------------------- every step keeps the invariant

  lemma BeforeFrom(s: State, t: Tid, key: Key, o: Owner)
    requires Inv(s) && t in s.pcs
    ensures Before(s, t, key, o)
  {
    hide CountsOk, TargetsOk, StagesOk;
    assert OwnerOk(s.owners, s.handles, s.pcs, s.stages, key, o);
  }

  lemma NullOwner(s: State, t: Tid, to: Ref, key: Key, o: Owner)
    requires Before(s, t, key, o) && to !in s.handles
    ensures OwnerIn(s.(handles := s.handles[to := None], used := s.used + {to}), key, o)
  {}

  lemma NewOwners(s: State, t: Tid, to: Ref, b: Bid)
    requires Inv(s) && t in s.pcs && to !in s.handles && to.kind == Strong && b !in s.stages
    ensures var s' := DoNew(s, to, b); OwnersOk(s'.owners, s'.handles, s'.pcs, s'.stages)
  {
    hide CountsOk, Known, TargetsOk, PcsOk, StagesOk, OwnerOk, Before;
    var s' := DoNew(s, to, b);
    forall key, o ensures OwnerOk(s'.owners, s'.handles, s'.pcs, s'.stages, key, o) {
      BeforeFrom(s, t, key, o);
      NewOwner(s, t, to, b, key, o);
    }
  }

  lemma NullOwners(s: State, t: Tid, to: Ref)
    requires Inv(s) && t in s.pcs && to !in s.handles
    ensures var s' := s.(handles := s.handles[to := None], used := s.used + {to});
            OwnersOk(s'.owners, s'.handles, s'.pcs, s'.stages)
  {
    hide CountsOk, Known, TargetsOk, PcsOk, StagesOk, OwnerOk, Before;
    var s' := s.(handles := s.handles[to := None], used := s.used + {to});
    forall key, o ensures OwnerOk(s'.owners, s'.handles, s'.pcs, s'.stages, key, o) {
      BeforeFrom(s, t, key, o);
      NullOwner(s, t, to, key, o);
    }
  }

  lemma CopyOwners(s: State, t: Tid, to: Ref, from: Ref, lock: bool)
    requires Inv(s) && t in s.pcs && s.pcs[t] == Idle && to !in s.handles && from in s.handles
    ensures var s' := DoCopy(s, t, to, from, lock); OwnersOk(s'.owners, s'.handles, s'.pcs, s'.stages)
  {
    hide CountsOk, Known, TargetsOk, PcsOk, StagesOk, OwnerOk, Before;
    var s' := DoCopy(s, t, to, from, lock);
    forall key, o ensures OwnerOk(s'.owners, s'.handles, s'.pcs, s'.stages, key, o) {
      BeforeFrom(s, t, key, o);
      CopyOwner(s, t, to, from, lock, key, o);
    }
  }

  lemma MoveOwners(s: State, t: Tid, to: Ref, from: Ref)
    requires Inv(s) && t in s.pcs && to !in s.handles && from in s.handles && from.kind == to.kind
    ensures var s' := DoMove(s, to, from); OwnersOk(s'.owners, s'.handles, s'.pcs, s'.stages)
  {
    hide CountsOk, Known, TargetsOk, PcsOk, StagesOk, OwnerOk, Before;
    var s' := DoMove(s, to, from);
    forall key, o ensures OwnerOk(s'.owners, s'.handles, s'.pcs, s'.stages, key, o) {
      BeforeFrom(s, t, key, o);
      MoveOwner(s, t, to, from, key, o);
    }
  }

  lemma DestructOwners(s: State, t: Tid, h: Ref)
    requires Inv(s) && t in s.pcs && s.pcs[t] == Idle && h in s.handles
    ensures var s' := DoDestruct(s, t, h); OwnersOk(s'.owners, s'.handles, s'.pcs, s'.stages)
  {
    hide CountsOk, Known, TargetsOk, PcsOk, StagesOk, OwnerOk, Before;
    var s' := DoDestruct(s, t, h);
    forall key, o ensures OwnerOk(s'.owners, s'.handles, s'.pcs, s'.stages, key, o) {
      BeforeFrom(s, t, key, o);
      DestructOwner(s, t, h, key, o);
    }
  }

  lemma AssignOwners(s: State, t: Tid, to: Ref, from: Ref)
    requires Inv(s) && t in s.pcs && s.pcs[t] == Idle && to in s.handles && from in s.handles
    ensures var s' := DoAssign(s, t, to, from); OwnersOk(s'.owners, s'.handles, s'.pcs, s'.stages)
  {
    hide CountsOk, Known, TargetsOk, PcsOk, StagesOk, OwnerOk, Before;
    var s' := DoAssign(s, t, to, from);
    forall key, o ensures OwnerOk(s'.owners, s'.handles, s'.pcs, s'.stages, key, o) {
      BeforeFrom(s, t, key, o);
      AssignOwner(s, t, to, from, key, o);
    }
  }

  lemma AddOwners(s: State, t: Tid)
    requires Inv(s) && t in s.pcs && s.pcs[t].Acquiring?
    ensures var s' := DoAdd(s, t); OwnersOk(s'.owners, s'.handles, s'.pcs, s'.stages)
  {
    hide CountsOk, Known, TargetsOk, PcsOk, StagesOk, OwnerOk, Before;
    var s' := DoAdd(s, t);
    forall key, o ensures OwnerOk(s'.owners, s'.handles, s'.pcs, s'.stages, key, o) {
      BeforeFrom(s, t, key, o);
      AddOwner(s, t, key, o);
    }
  }

  lemma SetOwners(s: State, t: Tid)
    requires Inv(s) && t in s.pcs && s.pcs[t].Setting? && s.pcs[t].rest.Set? && s.pcs[t].rest.to !in s.handles
    ensures var s' := DoSet(s, t); OwnersOk(s'.owners, s'.handles, s'.pcs, s'.stages)
  {
    hide CountsOk, Known, TargetsOk, PcsOk, StagesOk, OwnerOk, Before;
    var s' := DoSet(s, t);
    forall key, o ensures OwnerOk(s'.owners, s'.handles, s'.pcs, s'.stages, key, o) {
      BeforeFrom(s, t, key, o);
      SetOwner(s, t, key, o);
    }
  }

  lemma SwapOwners(s: State, t: Tid)
    requires Inv(s) && t in s.pcs && s.pcs[t].Swapping?
    ensures var s' := DoSwapped(s, t); OwnersOk(s'.owners, s'.handles, s'.pcs, s'.stages)
  {
    hide CountsOk, Known, TargetsOk, PcsOk, StagesOk, OwnerOk, Before;
    var s' := DoSwapped(s, t);
    forall key, o ensures OwnerOk(s'.owners, s'.handles, s'.pcs, s'.stages, key, o) {
      BeforeFrom(s, t, key, o);
      SwapOwner(s, t, key, o);
    }
  }

  /** The owners of the last count of a block are the thread that is uncounting it. */
  lemma LastOwner(s: State, t: Tid)
    requires Inv(s) && t in s.pcs && s.pcs[t].Dropping? && Count(s, s.pcs[t].key) == 1
    ensures var key := s.pcs[t].key;
            key in s.owners && s.owners[key] == {ByThread(t)} && key.b in s.stages
            && (key.kind == Weak ==> s.stages[key.b] != Live)
  {
    var key := s.pcs[t].key;
    assert OwnerOk(s.owners, s.handles, s.pcs, s.stages, key, ByThread(t));
    assert OwnerOk(s.owners, s.handles, s.pcs, s.stages, key, ByTheStrong);
    assert ThreadOwns(s.pcs[t], key);
    hide TargetsOk, PcsOk, StagesOk;
    OneElement(s.owners[key], ByThread(t));
  }

  lemma OneElement(s: set<Owner>, x: Owner)
    requires x in s && |s| == 1
    ensures s == {x}
  {
    assert |s - {x}| == 0;
  }

  lemma SubOwners(s: State, t: Tid)
    requires Inv(s) && t in s.pcs && s.pcs[t].Dropping?
    ensures var s' := DoSub(s, t); OwnersOk(s'.owners, s'.handles, s'.pcs, s'.stages)
  {
    var n, kind := Count(s, s.pcs[t].key), s.pcs[t].key.kind;
    if n == 1 { LastOwner(s, t); }
    hide CountsOk, Known, TargetsOk, PcsOk, StagesOk, OwnerOk, Before;
    var s' := DoSub(s, t);
    forall key, o ensures OwnerOk(s'.owners, s'.handles, s'.pcs, s'.stages, key, o) {
      BeforeFrom(s, t, key, o);
      if n != 1 { SubOwner(s, t, key, o); }
      else if kind == Strong { SubLastStrongOwner(s, t, key, o); }
      else { SubLastWeakOwner(s, t, key, o); }
    }
  }

  lemma EndOwners(s: State, t: Tid)
    requires Inv(s) && t in s.pcs && (s.pcs[t].Disposing? || s.pcs[t].Destroying?)
    ensures var s' := if s.pcs[t].Disposing? then DoDispose(s, t) else DoDestroy(s, t);
            OwnersOk(s'.owners, s'.handles, s'.pcs, s'.stages)
  {
    hide CountsOk, Known, TargetsOk, PcsOk, StagesOk, OwnerOk, Before;
    var s' := if s.pcs[t].Disposing? then DoDispose(s, t) else DoDestroy(s, t);
    forall key, o ensures OwnerOk(s'.owners, s'.handles, s'.pcs, s'.stages, key, o) {
      BeforeFrom(s, t, key, o);
      EndOwner(s, t, key, o);
    }
  }

  // ---------------------------------------------------------------- every step keeps the invariant

  lemma NewKeeps(s: State, t: Tid, to: Ref, b: Bid)
    requires Inv(s) && t in s.pcs && s.pcs[t] == Idle && to !in s.used && to.kind == Strong && b !in s.stages
    ensures Inv(DoNew(s, to, b))
  {
    var s' := DoNew(s, to, b);
    assert to !in s.handles;
    NewCounts(s, to, b);
    hide OwnersOk, CountsOk, Known, TargetsOk, PcsOk, StagesOk;
    NewOwners(s, t, to, b);
    NewPcs(s, t, to, b);
    TargetsAdd(s.handles, s.pcs, s.used, to, Some(b));
    NewStages(s, t, to, b);
  }

  lemma NewPcs(s: State, t: Tid, to: Ref, b: Bid)
    requires PcsOk(s.pcs, s.handles, s.stages) && to !in s.handles && b !in s.stages && t in s.pcs && s.pcs[t] == Idle
    ensures PcsOk(s.pcs, s.handles[to := Some(b)], s.stages[b := Live])
  {
    hide PcsOk;
    PcsAdd(s.pcs, s.handles, s.stages, to, Some(b));
    PcsStage(s.pcs, s.handles[to := Some(b)], s.stages, t, Idle, b, Live);
    assert s.pcs == s.pcs[t := Idle];
  }

  lemma NewStages(s: State, t: Tid, to: Ref, b: Bid)
    requires StagesOk(s.stages, s.owners, s.pcs, s.disposals, s.destructions)
    requires t in s.pcs && s.pcs[t] == Idle && b !in s.stages
    ensures var s' := DoNew(s, to, b); StagesOk(s'.stages, s'.owners, s'.pcs, s'.disposals, s'.destructions)
  {
    var s' := DoNew(s, to, b);
    hide StagesOk;
    assert s.pcs == s.pcs[t := Idle];
    assert s'.disposals == s.disposals[b := 0] && s'.destructions == s.destructions[b := 0];
    StagesBlock(s, s', t, b);
  }

  lemma NewCounts(s: State, to: Ref, b: Bid)
    requires CountsOk(s.counts, s.owners) && Known(s.owners, s.handles, s.stages) && b !in s.stages
    ensures var s' := DoNew(s, to, b); CountsOk(s'.counts, s'.owners) && Known(s'.owners, s'.handles, s'.stages)
  {
    var s' := DoNew(s, to, b);
    forall key: Key ensures key in s'.owners <==> key.b in s'.stages {
      match key.kind
      case Strong => assert key == Key(Strong, key.b);
      case Weak => assert key == Key(Weak, key.b);
    }
  }

  lemma NullKeeps(s: State, t: Tid, to: Ref)
    requires Inv(s) && t in s.pcs && to !in s.used
    ensures Inv(s.(handles := s.handles[to := None], used := s.used + {to}))
  {
    assert to !in s.handles;
    hide OwnersOk, CountsOk, Known, TargetsOk, PcsOk, StagesOk;
    NullOwners(s, t, to);
    PcsAdd(s.pcs, s.handles, s.stages, to, None);
    TargetsAdd(s.handles, s.pcs, s.used, to, None);
    KnownHandle(s.owners, s.handles, s.stages, to, None);
  }

  lemma CopyKeeps(s: State, t: Tid, to: Ref, from: Ref, lock: bool)
    requires Inv(s) && t in s.pcs && s.pcs[t] == Idle && to !in s.used && from in s.handles
    requires if lock then from.kind == Weak && to.kind == Strong else from.kind == Strong || to.kind == Weak
    ensures Inv(DoCopy(s, t, to, from, lock))
  {
    var s' := DoCopy(s, t, to, from, lock);
    assert to !in s.handles && (s.handles[from].Some? ==> s.handles[from].value in s.stages);
    hide OwnersOk, CountsOk, Known, TargetsOk, PcsOk, StagesOk;
    CopyOwners(s, t, to, from, lock);
    if s.handles[from] == None {
      NullKeeps(s, t, to);
    } else {
      PcsMove(s.pcs, s.handles, s.stages, t, s'.pcs[t]);
      TargetsNew(s.handles, s.pcs, s.used, t, s'.pcs[t], to);
      StagesMove(s.stages, s.owners, s.pcs, s.disposals, s.destructions, t, s'.pcs[t]);
    }
  }

  /** Who owns and who does not, before a reference changes hands. */
  lemma Member(s: State, key: Key, o: Owner)
    requires Inv(s) && key.b in s.stages
    ensures key in s.owners && key in s.counts && (o in s.owners[key] <==> Owns(o, key, s.handles, s.pcs, s.stages))
  {
    assert OwnerOk(s.owners, s.handles, s.pcs, s.stages, key, o);
  }

  /** A reference that changes hands leaves the counts and the blocks as they are. */
  lemma PassKeeps(s: State, kind: Kind, b: Bid, from: Owner, to: Owner)
    requires Inv(s) && b in s.stages && from != to
    requires Owns(from, Key(kind, b), s.handles, s.pcs, s.stages) && !Owns(to, Key(kind, b), s.handles, s.pcs, s.stages)
    ensures var o := Pass(s, kind, Some(b), from, to).owners;
            CountsOk(s.counts, o) && Known(o, s.handles, s.stages)
            && StagesOk(s.stages, o, s.pcs, s.disposals, s.destructions)
  {
    var key := Key(kind, b);
    Member(s, key, from);
    Member(s, key, to);
    hide OwnersOk, CountsOk, Known, TargetsOk, PcsOk, StagesOk;
    CountsPass(s.counts, s.owners, key, from, to);
    var o := s.owners[key] - {from} + {to};
    assert to in o;
    KnownOwners(s.owners, s.handles, s.stages, key, o, b, Live);
    StagesOwners(s.stages, s.owners, s.pcs, s.disposals, s.destructions, key, o);
  }

  lemma MoveKeeps(s: State, t: Tid, to: Ref, from: Ref)
    requires Inv(s) && t in s.pcs && to !in s.used && Unshared(s, from) && from.kind == to.kind
    ensures Inv(DoMove(s, to, from))
  {
    var s', v := DoMove(s, to, from), s.handles[from];
    assert to !in s.handles && (v.Some? ==> v.value in s.stages);
    PcsTake(s.pcs, s.handles, s.stages, from);
    hide OwnersOk, CountsOk, Known, TargetsOk, PcsOk, StagesOk;
    MoveOwners(s, t, to, from);
    if v.Some? { PassKeeps(s, to.kind, v.value, ByHandle(from), ByHandle(to)); }
    PcsAdd(s.pcs, s.handles[from := None], s.stages, to, v);
    TargetsChange(s.handles, s.pcs, s.used, from, None);
    TargetsAdd(s.handles[from := None], s.pcs, s.used, to, v);
    KnownHandle(s'.owners, s.handles, s.stages, from, None);
    KnownHandle(s'.owners, s.handles[from := None], s.stages, to, v);
  }

  lemma DestructKeeps(s: State, t: Tid, h: Ref)
    requires Inv(s) && t in s.pcs && s.pcs[t] == Idle && Unshared(s, h)
    ensures Inv(DoDestruct(s, t, h))
  {
    var s', v := DoDestruct(s, t, h), s.handles[h];
    assert v.Some? ==> v.value in s.stages;
    PcsTake(s.pcs, s.handles, s.stages, h);
    hide OwnersOk, CountsOk, Known, TargetsOk, PcsOk, StagesOk;
    DestructOwners(s, t, h);
    if v.Some? { PassKeeps(s, h.kind, v.value, ByHandle(h), ByThread(t)); }
    var pc' := if v.Some? then Dropping(Key(h.kind, v.value), End) else Idle;
    assert s'.pcs == s.pcs[t := pc'];
    PcsMove(s.pcs, s.handles - {h}, s.stages, t, pc');
    TargetsTake(s.handles, s.pcs, s.used, t, pc', h);
    KnownHandle(s'.owners, s.handles, s.stages, h, None);
    StagesMove(s.stages, s'.owners, s.pcs, s.disposals, s.destructions, t, pc');
  }

  lemma AssignKeeps(s: State, t: Tid, to: Ref, from: Ref)
    requires Inv(s) && t in s.pcs && s.pcs[t] == Idle && Unshared(s, to) && from in s.handles
    requires from.kind == Strong || to.kind == Weak
    ensures Inv(DoAssign(s, t, to, from))
  {
    var s', was, tmp := DoAssign(s, t, to, from), s.handles[to], s.handles[from];
    if tmp != was {
      assert (was.Some? ==> was.value in s.stages) && (tmp.Some? ==> tmp.value in s.stages);
      PcsTake(s.pcs, s.handles, s.stages, to);
      hide OwnersOk, CountsOk, Known, TargetsOk, PcsOk, StagesOk;
      AssignOwners(s, t, to, from);
      if was.Some? { PassKeeps(s, to.kind, was.value, ByHandle(to), ByThread(t)); }
      var pc' := s'.pcs[t];
      PcsMove(s.pcs, s.handles - {to}, s.stages, t, pc');
      TargetsTake(s.handles, s.pcs, s.used, t, pc', to);
      KnownHandle(s'.owners, s.handles, s.stages, to, None);
      StagesMove(s.stages, s'.owners, s.pcs, s.disposals, s.destructions, t, pc');
    }
  }

  /** A count has owners while a handle counts, and the weak count while the strong one has. */
  lemma Counting(s: State, from: Ref, kind: Kind, b: Bid)
    requires Inv(s) && from in s.handles && s.handles[from] == Some(b) && (from.kind == kind || from.kind == Strong)
    ensures b in s.stages && Key(kind, b) in s.owners && s.owners[Key(kind, b)] != {}
  {
    Member(s, Key(from.kind, b), ByHandle(from));
    if from.kind != kind {
      assert BlockOk(b, s.stages, s.owners, s.pcs, s.disposals, s.destructions);
      Member(s, Key(kind, b), ByTheStrong);
    }
  }

  /** A thread counts a reference of a count that has owners. */
  lemma GiveKeeps(s: State, t: Tid, key: Key)
    requires Inv(s) && key.b in s.stages && Owners(s, key) != {} && t in s.pcs && !ThreadOwns(s.pcs[t], key)
    ensures var s' := Counted(s, key, Count(s, key) + 1, Owners(s, key) + {ByThread(t)});
            && CountsOk(s'.counts, s'.owners) && Known(s'.owners, s.handles, s.stages)
            && StagesOk(s.stages, s'.owners, s.pcs, s.disposals, s.destructions)
  {
    Member(s, key, ByThread(t));
    hide OwnersOk, CountsOk, Known, TargetsOk, PcsOk, StagesOk;
    var o := s.owners[key] + {ByThread(t)};
    assert ByThread(t) in o;
    CountsGive(s.counts, s.owners, key, ByThread(t));
    KnownOwners(s.owners, s.handles, s.stages, key, o, key.b, Live);
    StagesOwners(s.stages, s.owners, s.pcs, s.disposals, s.destructions, key, o);
  }

  lemma AddKeeps(s: State, t: Tid)
    requires Inv(s) && t in s.pcs && s.pcs[t].Acquiring?
    ensures Inv(DoAdd(s, t))
  {
    var s', pc := DoAdd(s, t), s.pcs[t];
    var key := Key(pc.to.kind, pc.b);
    assert PcOk(pc, t, s.handles, s.stages);
    Counting(s, pc.from, pc.to.kind, pc.b);
    hide OwnersOk, CountsOk, Known, TargetsOk, PcsOk, StagesOk;
    AddOwners(s, t);
    GiveKeeps(s, t, key);
    PcsMove(s.pcs, s.handles, s.stages, t, s'.pcs[t]);
    TargetsMove(s.handles, s.pcs, s.used, t, s'.pcs[t]);
    StagesMove(s.stages, s'.owners, s.pcs, s.disposals, s.destructions, t, s'.pcs[t]);
  }

  lemma LoadKeeps(s: State, t: Tid)
    requires Inv(s) && t in s.pcs && (s.pcs[t].Loading? || s.pcs[t].Swapping?)
    ensures var pc := s.pcs[t]; Inv(At(s, t, Swapping(pc.from, pc.b, pc.to, Count(s, Key(Strong, pc.b)))))
  {
    var pc := s.pcs[t];
    assert PcOk(pc, t, s.handles, s.stages);
    Member(s, Key(Strong, pc.b), ByTheStrong);
    var pc' := Swapping(pc.from, pc.b, pc.to, Count(s, Key(Strong, pc.b)));
    assert BlockOk(pc.b, s.stages, s.owners, s.pcs, s.disposals, s.destructions);
    assert Count(s, Key(Strong, pc.b)) >= 0;
    MoveOnly(s, t, pc');
  }

  /** A step that only moves the thread. */
  lemma MoveOnly(s: State, t: Tid, pc': Pc)
    requires Inv(s) && t in s.pcs && PcOk(pc', t, s.handles, s.stages) && !s.pcs[t].Disposing? && !s.pcs[t].Destroying?
    requires Target(pc') == None || Target(pc') == Target(s.pcs[t])
    requires forall key :: ThreadOwns(pc', key) <==> ThreadOwns(s.pcs[t], key)
    ensures Inv(At(s, t, pc'))
  {
    var s' := At(s, t, pc');
    forall key, o ensures OwnerOk(s.owners, s.handles, s'.pcs, s.stages, key, o) {
      assert OwnerOk(s.owners, s.handles, s.pcs, s.stages, key, o);
    }
    hide CountsOk, Known, TargetsOk, PcsOk, StagesOk, OwnerOk;
    PcsMove(s.pcs, s.handles, s.stages, t, pc');
    TargetsMove(s.handles, s.pcs, s.used, t, pc');
    StagesMove(s.stages, s.owners, s.pcs, s.disposals, s.destructions, t, pc');
  }

  lemma SwappedKeeps(s: State, t: Tid)
    requires Inv(s) && t in s.pcs && s.pcs[t].Swapping? && Count(s, Key(Strong, s.pcs[t].b)) == s.pcs[t].r != 0
    ensures Inv(DoSwapped(s, t))
  {
    var s', pc := DoSwapped(s, t), s.pcs[t];
    var key := Key(Strong, pc.b);
    assert PcOk(pc, t, s.handles, s.stages);
    Member(s, key, ByTheStrong);
    assert Owners(s, key) != {};
    hide OwnersOk, CountsOk, Known, TargetsOk, PcsOk, StagesOk;
    SwapOwners(s, t);
    GiveKeeps(s, t, key);
    PcsMove(s.pcs, s.handles, s.stages, t, s'.pcs[t]);
    TargetsMove(s.handles, s.pcs, s.used, t, s'.pcs[t]);
    StagesMove(s.stages, s'.owners, s.pcs, s.disposals, s.destructions, t, s'.pcs[t]);
  }

  lemma SwapKeeps(s: State, t: Tid, spurious: bool)
    requires Inv(s) && t in s.pcs && s.pcs[t].Swapping?
    ensures Inv(DoSwap(s, t, spurious))
  {
    var pc := s.pcs[t];
    hide Inv, DoSwapped;
    if pc.r == 0 {
      MoveOnly(s, t, Setting(Set(pc.to, None)));
    } else if !spurious && Count(s, Key(Strong, pc.b)) == pc.r {
      SwappedKeeps(s, t);
    } else {
      LoadKeeps(s, t);
    }
  }

  lemma SetKeeps(s: State, t: Tid)
    requires Inv(s) && t in s.pcs && s.pcs[t].Setting? && s.pcs[t].rest.Set?
    ensures Inv(DoSet(s, t))
  {
    var s', to, tmp := DoSet(s, t), s.pcs[t].rest.to, s.pcs[t].rest.tmp;
    assert PcOk(s.pcs[t], t, s.handles, s.stages);
    assert Target(s.pcs[t]) == Some(to) && to !in s.handles;
    hide OwnersOk, CountsOk, Known, TargetsOk, PcsOk, StagesOk;
    SetOwners(s, t);
    if tmp.Some? { PassKeeps(s, to.kind, tmp.value, ByThread(t), ByHandle(to)); }
    PcsAdd(s.pcs, s.handles, s.stages, to, tmp);
    PcsMove(s.pcs, s'.handles, s.stages, t, Idle);
    TargetsSet(s.handles, s.pcs, s.used, t, to, tmp);
    KnownHandle(s'.owners, s.handles, s.stages, to, tmp);
    StagesMove(s.stages, s'.owners, s.pcs, s.disposals, s.destructions, t, Idle);
  }

  lemma SubKeeps(s: State, t: Tid)
    requires Inv(s) && t in s.pcs && s.pcs[t].Dropping?
    ensures Inv(DoSub(s, t))
  {
    if Count(s, s.pcs[t].key) != 1 { NotLastKeeps(s, t); }
    else if s.pcs[t].key.kind == Strong { LastStrongKeeps(s, t); }
    else { LastWeakKeeps(s, t); }
  }

  lemma NotLastKeeps(s: State, t: Tid)
    requires Inv(s) && t in s.pcs && s.pcs[t].Dropping? && Count(s, s.pcs[t].key) != 1
    ensures Inv(DoSub(s, t))
  {
    var s', pc := DoSub(s, t), s.pcs[t];
    var key := pc.key;
    assert PcOk(pc, t, s.handles, s.stages);
    Member(s, key, ByThread(t));
    hide OwnersOk, CountsOk, Known, TargetsOk, PcsOk, StagesOk;
    SubOwners(s, t);
    CountsTake(s.counts, s.owners, key, ByThread(t));
    KnownOwners(s.owners, s.handles, s.stages, key, s.owners[key] - {ByThread(t)}, key.b, Live);
    StagesOwners(s.stages, s.owners, s.pcs, s.disposals, s.destructions, key, s.owners[key] - {ByThread(t)});
    PcsMove(s.pcs, s.handles, s.stages, t, s'.pcs[t]);
    TargetsMove(s.handles, s.pcs, s.used, t, s'.pcs[t]);
    StagesMove(s.stages, s'.owners, s.pcs, s.disposals, s.destructions, t, s'.pcs[t]);
  }

  /** The stage of a block whose last strong owner goes, or whose last weak one. */
  lemma StageAtLast(s: State, t: Tid)
    requires Inv(s) && t in s.pcs && s.pcs[t].Dropping? && Count(s, s.pcs[t].key) == 1
    ensures var key := s.pcs[t].key;
            && key.b in s.stages && key in s.owners && s.owners[key] == {ByThread(t)}
            && s.stages[key.b] == (if key.kind == Strong then Live else Disposed)
  {
    var key := s.pcs[t].key;
    LastOwner(s, t);
    assert PcOk(s.pcs[t], t, s.handles, s.stages);
    assert BlockOk(key.b, s.stages, s.owners, s.pcs, s.disposals, s.destructions);
    if key.kind == Weak && s.stages[key.b].ToDispose? { Member(s, key, ByThread(s.stages[key.b].t)); }
    hide OwnersOk, CountsOk, Known, TargetsOk, PcsOk, StagesOk;
  }

  lemma LastStrongStages(s: State, t: Tid)
    requires Inv(s) && t in s.pcs && s.pcs[t].Dropping? && Count(s, s.pcs[t].key) == 1 && s.pcs[t].key.kind == Strong
    ensures var s' := DoSub(s, t); StagesOk(s'.stages, s'.owners, s'.pcs, s'.disposals, s'.destructions)
  {
    var s', b := DoSub(s, t), s.pcs[t].key.b;
    StageAtLast(s, t);
    assert s.pcs[t].key == Key(Strong, b);
    assert BlockOk(b, s.stages, s.owners, s.pcs, s.disposals, s.destructions);
    hide OwnersOk, CountsOk, Known, TargetsOk, PcsOk, StagesOk;
    assert s'.owners[Key(Strong, b)] == {} && ByThread(t) in s'.owners[Key(Weak, b)];
    StagesBlock(s, s', t, b);
  }

  lemma LastStrongCounts(s: State, t: Tid)
    requires Inv(s) && t in s.pcs && s.pcs[t].Dropping? && Count(s, s.pcs[t].key) == 1 && s.pcs[t].key.kind == Strong
    ensures var s' := DoSub(s, t); CountsOk(s'.counts, s'.owners) && Known(s'.owners, s'.handles, s'.stages)
  {
    var s', b := DoSub(s, t), s.pcs[t].key.b;
    var key, weak := Key(Strong, b), Key(Weak, b);
    StageAtLast(s, t);
    assert s.pcs[t].key == key && PcOk(s.pcs[t], t, s.handles, s.stages);
    Member(s, key, ByThread(t));
    Member(s, weak, ByTheStrong);
    Member(s, weak, ByThread(t));
    hide OwnersOk, CountsOk, Known, TargetsOk, PcsOk, StagesOk;
    CountsTake(s.counts, s.owners, key, ByThread(t));
    var o := s.owners[key := s.owners[key] - {ByThread(t)}];
    CountsPass(s'.counts, o, weak, ByTheStrong, ByThread(t));
    KnownOwners(s.owners, s.handles, s.stages, key, o[key], b, Live);
    KnownOwners(o, s.handles, s.stages, weak, s'.owners[weak], b, Live);
    KnownOwners(s'.owners, s.handles, s.stages, weak, {}, b, s'.stages[b]);
  }

  lemma LastStrongKeeps(s: State, t: Tid)
    requires Inv(s) && t in s.pcs && s.pcs[t].Dropping? && Count(s, s.pcs[t].key) == 1 && s.pcs[t].key.kind == Strong
    ensures Inv(DoSub(s, t))
  {
    var s', b := DoSub(s, t), s.pcs[t].key.b;
    StageAtLast(s, t);
    assert PcOk(s.pcs[t], t, s.handles, s.stages);
    hide OwnersOk, CountsOk, Known, TargetsOk, PcsOk, StagesOk;
    SubOwners(s, t);
    LastStrongCounts(s, t);
    LastStrongStages(s, t);
    PcsStage(s.pcs, s.handles, s.stages, t, s'.pcs[t], b, s'.stages[b]);
    TargetsMove(s.handles, s.pcs, s.used, t, s'.pcs[t]);
  }

  lemma LastWeakStages(s: State, t: Tid)
    requires Inv(s) && t in s.pcs && s.pcs[t].Dropping? && Count(s, s.pcs[t].key) == 1 && s.pcs[t].key.kind == Weak
    ensures var s' := DoSub(s, t); StagesOk(s'.stages, s'.owners, s'.pcs, s'.disposals, s'.destructions)
  {
    var s', b := DoSub(s, t), s.pcs[t].key.b;
    StageAtLast(s, t);
    assert s.pcs[t].key == Key(Weak, b);
    assert BlockOk(b, s.stages, s.owners, s.pcs, s.disposals, s.destructions);
    hide OwnersOk, CountsOk, Known, TargetsOk, PcsOk, StagesOk;
    assert s'.owners[Key(Weak, b)] == {};
    StagesBlock(s, s', t, b);
  }

  lemma LastWeakKeeps(s: State, t: Tid)
    requires Inv(s) && t in s.pcs && s.pcs[t].Dropping? && Count(s, s.pcs[t].key) == 1 && s.pcs[t].key.kind == Weak
    ensures Inv(DoSub(s, t))
  {
    var s', b := DoSub(s, t), s.pcs[t].key.b;
    var key := Key(Weak, b);
    StageAtLast(s, t);
    LastWeakStages(s, t);
    assert s.pcs[t].key == key && PcOk(s.pcs[t], t, s.handles, s.stages);
    Member(s, key, ByThread(t));
    hide OwnersOk, CountsOk, Known, TargetsOk, PcsOk, StagesOk;
    SubOwners(s, t);
    CountsTake(s.counts, s.owners, key, ByThread(t));
    KnownOwners(s.owners, s.handles, s.stages, key, s'.owners[key], b, Live);
    KnownOwners(s'.owners, s.handles, s.stages, key, {}, b, s'.stages[b]);
    PcsStage(s.pcs, s.handles, s.stages, t, s'.pcs[t], b, s'.stages[b]);
    TargetsMove(s.handles, s.pcs, s.used, t, s'.pcs[t]);
  }

  lemma DisposeStages(s: State, t: Tid)
    requires Inv(s) && t in s.pcs && s.pcs[t].Disposing?
    ensures var s' := DoDispose(s, t); StagesOk(s'.stages, s'.owners, s'.pcs, s'.disposals, s'.destructions)
  {
    var s', b := DoDispose(s, t), s.pcs[t].b;
    assert PcOk(s.pcs[t], t, s.handles, s.stages);
    assert BlockOk(b, s.stages, s.owners, s.pcs, s.disposals, s.destructions);
    hide OwnersOk, CountsOk, Known, TargetsOk, PcsOk, StagesOk;
    StagesBlock(s, s', t, b);
  }

  lemma DisposeKeeps(s: State, t: Tid)
    requires Inv(s) && t in s.pcs && s.pcs[t].Disposing?
    ensures Inv(DoDispose(s, t))
  {
    var s', b := DoDispose(s, t), s.pcs[t].b;
    DisposeStages(s, t);
    assert PcOk(s.pcs[t], t, s.handles, s.stages);
    Member(s, Key(Weak, b), ByThread(t));
    hide OwnersOk, CountsOk, Known, TargetsOk, PcsOk, StagesOk;
    EndOwners(s, t);
    KnownOwners(s.owners, s.handles, s.stages, Key(Weak, b), {}, b, Disposed);
    PcsStage(s.pcs, s.handles, s.stages, t, s'.pcs[t], b, Disposed);
    TargetsMove(s.handles, s.pcs, s.used, t, s'.pcs[t]);
  }

  lemma DestroyStages(s: State, t: Tid)
    requires Inv(s) && t in s.pcs && s.pcs[t].Destroying?
    ensures var s' := DoDestroy(s, t); StagesOk(s'.stages, s'.owners, s'.pcs, s'.disposals, s'.destructions)
  {
    var s', b := DoDestroy(s, t), s.pcs[t].b;
    assert PcOk(s.pcs[t], t, s.handles, s.stages);
    assert BlockOk(b, s.stages, s.owners, s.pcs, s.disposals, s.destructions);
    hide OwnersOk, CountsOk, Known, TargetsOk, PcsOk, StagesOk;
    StagesBlock(s, s', t, b);
  }

  lemma DestroyKeeps(s: State, t: Tid)
    requires Inv(s) && t in s.pcs && s.pcs[t].Destroying?
    ensures Inv(DoDestroy(s, t))
  {
    var s', b := DoDestroy(s, t), s.pcs[t].b;
    DestroyStages(s, t);
    assert PcOk(s.pcs[t], t, s.handles, s.stages);
    Member(s, Key(Weak, b), ByThread(t));
    hide OwnersOk, CountsOk, Known, TargetsOk, PcsOk, StagesOk;
    EndOwners(s, t);
    KnownOwners(s.owners, s.handles, s.stages, Key(Weak, b), {}, b, Gone);
    PcsStage(s.pcs, s.handles, s.stages, t, s'.pcs[t], b, Gone);
    TargetsMove(s.handles, s.pcs, s.used, t, s'.pcs[t]);
  }

  lemma StepKeeps(s: State, t: Tid, a: Action)
    requires Inv(s) && Enabled(s, t, a)
    ensures Inv(Do(s, t, a))
  {
    hide Inv, DoNew, DoCopy, DoMove, DoDestruct, DoAssign, DoAdd, DoSub, DoDispose, DoDestroy, DoSet, DoSwap;
    match a
    case New(to, b) => NewKeeps(s, t, to, b);
    case Null(to) => NullKeeps(s, t, to);
    case Copy(to, from) => CopyKeeps(s, t, to, from, false);
    case Move(to, from) => MoveKeeps(s, t, to, from);
    case Destruct(h) => DestructKeeps(s, t, h);
    case Assign(to, from) => AssignKeeps(s, t, to, from);
    case LockWeak(to, from) => CopyKeeps(s, t, to, from, true);
    case Add => AddKeeps(s, t);
    case Sub => SubKeeps(s, t);
    case Dispose => DisposeKeeps(s, t);
    case Destroy => DestroyKeeps(s, t);
    case SetPi => SetKeeps(s, t);
    case LoadUse => LoadKeeps(s, t);
    case Swap(spurious) => SwapKeeps(s, t, spurious);
  }

  lemma {:induction false} PathKeeps(states: seq<State>, run: seq<(Tid, Action)>, i: nat)
    requires Follows(states, run) && i <= |run|
    ensures Inv(states[i])
  {
    hide Inv, Enabled, Do;
    if i == 0 {
      InitInv(states[0]);
    } else {
      PathKeeps(states, run, i - 1);
      assert Step(states[i - 1], run[i - 1].0, run[i - 1].1, states[i]);
      StepKeeps(states[i - 1], run[i - 1].0, run[i - 1].1);
    }
  }

  lemma RunKeeps(run: seq<(Tid, Action)>, s: State)
    requires Reaches(run, s)
    ensures Inv(s)
  {
    var states :| Follows(states, run) && Last(states) == s;
    PathKeeps(states, run, |run|);
  }

  // ---------------------------------------------------------------- what the counts promise

  /** The use count is the number of strong owners: the shared_count objects that point to the block and
      the threads that are about to make one or to let one go. */
  lemma UseCountIsStrongOwners(run: seq<(Tid, Action)>, s: State, b: Bid, o: Owner)
    requires Reaches(run, s) && b in s.stages
    ensures var key := Key(Strong, b);
            && key in s.counts && key in s.owners && s.counts[key] == |s.owners[key]|
            && (o in s.owners[key] <==>
                  match o
                  case ByHandle(h) => h in s.handles && h.kind == Strong && s.handles[h] == Some(b)
                  case ByThread(t) => t in s.pcs && ThreadOwns(s.pcs[t], key)
                  case ByTheStrong => false)
  {
    RunKeeps(run, s);
    Member(s, Key(Strong, b), o);
  }

  /** The weak count is the number of weak owners, and one more until the last strong owner starts to
      dispose of the object; then that one is a thread's, until it has let it go. */
  lemma WeakCountIsWeakOwners(run: seq<(Tid, Action)>, s: State, b: Bid, o: Owner)
    requires Reaches(run, s) && b in s.stages
    ensures var key := Key(Weak, b);
            && Key(Strong, b) in s.counts && key in s.counts && key in s.owners
            && s.counts[key] == |s.owners[key] - {ByTheStrong}| + (if s.counts[Key(Strong, b)] > 0 then 1 else 0)
            && (o in s.owners[key] - {ByTheStrong} <==>
                  match o
                  case ByHandle(h) => h in s.handles && h.kind == Weak && s.handles[h] == Some(b)
                  case ByThread(t) => t in s.pcs && ThreadOwns(s.pcs[t], key)
                  case ByTheStrong => false)
  {
    RunKeeps(run, s);
    Member(s, Key(Weak, b), o);
    Member(s, Key(Weak, b), ByTheStrong);
    Member(s, Key(Strong, b), o);
    assert BlockOk(b, s.stages, s.owners, s.pcs, s.disposals, s.destructions);
    assert s.counts[Key(Strong, b)] > 0 <==> s.stages[b] == Live;
  }

  /** The count that a thread's next step reads or changes. */
  function Touched(pc: Pc): Option<Key> {
    match pc
    case Acquiring(_, b, _, to) => Some(Key(to.kind, b))
    case Dropping(key, _) => Some(key)
    case Disposing(b, _) => Some(Key(Weak, b))
    case Destroying(b, _) => Some(Key(Weak, b))
    case Loading(_, b, _) => Some(Key(Strong, b))
    case Swapping(_, b, _, _) => Some(Key(Strong, b))
    case _ => None
  }

  /** A thread that counts or uncounts finds the count above zero. */
  lemma TouchedIsCounted(s: State, t: Tid)
    requires Inv(s) && t in s.pcs && (s.pcs[t].Acquiring? || s.pcs[t].Dropping?)
    ensures var key := Touched(s.pcs[t]).value;
            key.b in s.stages && key in s.owners && key in s.counts && s.owners[key] != {} && s.counts[key] > 0
  {
    var pc, key := s.pcs[t], Touched(s.pcs[t]).value;
    assert PcOk(pc, t, s.handles, s.stages);
    Member(s, key, ByThread(t));
    if pc.Acquiring? { Counting(s, pc.from, pc.to.kind, pc.b); }
  }

  /** A step changes no count but the one it touches. */
  lemma OtherCountsStay(s: State, t: Tid, a: Action, key: Key)
    requires Enabled(s, t, a) && key.b in s.stages
    requires (a.Add? || a.Sub? || a.Swap?) ==> Touched(s.pcs[t]) != Some(key)
    ensures Count(Do(s, t, a), key) == Count(s, key)
  {
    hide Unshared, Owners, DoCopy, DoMove, DoDestruct, DoAssign, DoDispose, DoDestroy, DoSet;
  }

  /** A count that is zero stays zero: no reference comes back. */
  lemma CountsStayZero(run: seq<(Tid, Action)>, s: State, t: Tid, a: Action, key: Key)
    requires Reaches(run, s) && Enabled(s, t, a) && key.b in s.stages && Count(s, key) == 0
    ensures Count(Do(s, t, a), key) == 0
  {
    if !((a.Add? || a.Sub? || a.Swap?) && Touched(s.pcs[t]) == Some(key)) {
      hide Do, Reaches, Enabled, Count, Touched;
      OtherCountsStay(s, t, a, key);
    } else if a.Swap? {
      hide Reaches, Owners, Unshared, DoNew, DoCopy, DoMove, DoDestruct, DoAssign, DoDispose, DoDestroy, DoSet, DoAdd,
           DoSub;
    } else {
      RunKeeps(run, s);
      hide Inv, Reaches, Owners, Unshared, Do;
      TouchedIsCounted(s, t);
    }
  }

  /** Nothing but destroy itself touches a block once it is to be destroyed, and nothing at all after. */
  lemma TouchedBlocksExist(run: seq<(Tid, Action)>, s: State, t: Tid)
    requires Reaches(run, s) && t in s.pcs && Touched(s.pcs[t]).Some?
    ensures var b := Touched(s.pcs[t]).value.b;
            && b in s.stages && b in s.destructions && s.destructions[b] == 0
            && (s.stages[b].ToDestroy? <==> s.pcs[t].Destroying?)
  {
    RunKeeps(run, s);
    hide Reaches;
    var pc, key := s.pcs[t], Touched(s.pcs[t]).value;
    assert PcOk(pc, t, s.handles, s.stages);
    assert BlockOk(key.b, s.stages, s.owners, s.pcs, s.disposals, s.destructions);
    if !pc.Destroying? { TouchedIsOwned(s, t); }
    hide OwnersOk, CountsOk, Known, TargetsOk, PcsOk, StagesOk;
  }

  lemma TouchedIsOwned(s: State, t: Tid)
    requires Inv(s) && t in s.pcs && Touched(s.pcs[t]).Some? && !s.pcs[t].Destroying?
    ensures var b := Touched(s.pcs[t]).value.b;
            b in s.stages && Key(Weak, b) in s.owners && s.owners[Key(Weak, b)] != {}
  {
    var pc, key := s.pcs[t], Touched(s.pcs[t]).value;
    assert PcOk(pc, t, s.handles, s.stages);
    assert BlockOk(key.b, s.stages, s.owners, s.pcs, s.disposals, s.destructions);
    hide OwnersOk, CountsOk, Known, TargetsOk, PcsOk, StagesOk;
    if pc.Acquiring? || pc.Dropping? {
      TouchedIsCounted(s, t);
      match key.kind
      case Strong => assert key == Key(Strong, key.b); Member(s, Key(Weak, key.b), ByTheStrong);
      case Weak => assert key == Key(Weak, key.b);
    } else if pc.Disposing? {
      Member(s, Key(Weak, key.b), ByThread(t));
    } else {
      Member(s, Key(Weak, key.b), ByHandle(pc.from));
    }
  }

  /** dispose runs once, after the last strong owner; destroy runs once, after that and after the last
      weak owner. */
  lemma EndsOnceAndInOrder(run: seq<(Tid, Action)>, s: State, b: Bid)
    requires Reaches(run, s) && b in s.stages
    ensures b in s.disposals && b in s.destructions && s.destructions[b] <= s.disposals[b] <= 1
    ensures s.disposals[b] == 1 ==> Count(s, Key(Strong, b)) == 0
    ensures s.destructions[b] == 1 ==> Count(s, Key(Weak, b)) == 0
    ensures Count(s, Key(Strong, b)) == 0 && s.disposals[b] == 0 ==>
              exists t :: t in s.pcs && s.pcs[t].Disposing? && s.pcs[t].b == b
    ensures Count(s, Key(Weak, b)) == 0 && s.destructions[b] == 0 ==>
              exists t :: t in s.pcs && s.pcs[t].Destroying? && s.pcs[t].b == b
  {
    RunKeeps(run, s);
    assert BlockOk(b, s.stages, s.owners, s.pcs, s.disposals, s.destructions);
    Member(s, Key(Strong, b), ByTheStrong);
    Member(s, Key(Weak, b), ByTheStrong);
    assert Count(s, Key(Strong, b)) == |s.owners[Key(Strong, b)]| && Count(s, Key(Weak, b)) == |s.owners[Key(Weak, b)]|;
    hide OwnersOk, CountsOk, Known, TargetsOk, PcsOk, StagesOk;
  }

  /** While no operation runs, the object exists exactly while a shared_count points to its block, and the
      block exactly while any handle does: nothing is freed early, and nothing leaks. */
  lemma NothingLeaks(run: seq<(Tid, Action)>, s: State, b: Bid)
    requires Reaches(run, s) && b in s.stages && forall t :: t in s.pcs ==> s.pcs[t] == Idle
    ensures b in s.disposals && b in s.destructions
    ensures s.disposals[b] == 0 <==> exists h :: h in s.handles && h.kind == Strong && s.handles[h] == Some(b)
    ensures s.destructions[b] == 0 <==> exists h :: h in s.handles && s.handles[h] == Some(b)
  {
    RunKeeps(run, s);
    assert BlockOk(b, s.stages, s.owners, s.pcs, s.disposals, s.destructions);
    Held(s, Key(Strong, b));
    Held(s, Key(Weak, b));
    Member(s, Key(Weak, b), ByTheStrong);
    hide OwnersOk, CountsOk, Known, TargetsOk, PcsOk, StagesOk;
    if h :| h in s.handles && s.handles[h] == Some(b) && h.kind == Strong {
      assert Owns(ByHandle(h), Key(Strong, b), s.handles, s.pcs, s.stages);
    }
  }

  lemma Held(s: State, key: Key)
    requires Inv(s) && key.b in s.stages && forall t :: t in s.pcs ==> s.pcs[t] == Idle
    ensures key in s.owners
    ensures s.owners[key] - {ByTheStrong} != {} <==>
              exists h :: h in s.handles && h.kind == key.kind && s.handles[h] == Some(key.b)
    ensures key.kind == Strong ==> ByTheStrong !in s.owners[key]
  {
    Member(s, key, ByTheStrong);
    if o :| o in s.owners[key] && o != ByTheStrong { Member(s, key, o); }
    if h :| h in s.handles && h.kind == key.kind && s.handles[h] == Some(key.b) { Member(s, key, ByHandle(h)); }
  }

  /** Locking a weak_count succeeds only while the object exists, and fails only when it is to be disposed
      of or has been, for good. */
  lemma LockIsTruthful(run: seq<(Tid, Action)>, s: State, t: Tid, spurious: bool)
    requires Reaches(run, s) && t in s.pcs && s.pcs[t].Swapping?
    ensures var pc, s' := s.pcs[t], DoSwap(s, t, spurious);
            && pc.b in s.stages && pc.b in s.disposals
            && (s'.pcs[t] == Setting(Set(pc.to, Some(pc.b))) ==>
                  s.disposals[pc.b] == 0 && Count(s', Key(Strong, pc.b)) == Count(s, Key(Strong, pc.b)) + 1)
            && (s'.pcs[t] == Setting(Set(pc.to, None)) ==> Count(s, Key(Strong, pc.b)) == 0)
  {
    RunKeeps(run, s);
    var pc := s.pcs[t];
    assert PcOk(pc, t, s.handles, s.stages);
    assert BlockOk(pc.b, s.stages, s.owners, s.pcs, s.disposals, s.destructions);
    Member(s, Key(Strong, pc.b), ByTheStrong);
    assert Count(s, Key(Strong, pc.b)) == |s.owners[Key(Strong, pc.b)]|;
    hide OwnersOk, CountsOk, Known, TargetsOk, PcsOk, StagesOk;
  }
}
