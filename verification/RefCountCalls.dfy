/** What a whole operation on handles leaves behind, whatever the other threads do meanwhile. */
module RefCountCalls {
  import opened Prelude
  import opened RefCounts

  /** What an operation is to do: to make a handle point where another one points, to try to lock a
      block, or to let a handle go. */
  datatype Aim = Put(to: Ref, v: Option<Bid>) | Lock(to: Ref, b: Bid) | Drop(h: Ref)

  function AimOf(s: State, a: Action): Option<Aim> {
    match a
    case New(to, b) => Some(Put(to, Some(b)))
    case Null(to) => Some(Put(to, None))
    case Copy(to, from) => if from in s.handles then Some(Put(to, s.handles[from])) else None
    case Move(to, from) => if from in s.handles then Some(Put(to, s.handles[from])) else None
    case Assign(to, from) => if from in s.handles then Some(Put(to, s.handles[from])) else None
    case Destruct(h) => Some(Drop(h))
    case LockWeak(to, from) =>
      if from !in s.handles then None
      else if s.handles[from] == None then Some(Put(to, None))
      else Some(Lock(to, s.handles[from].value))
    case _ => None
  }

  /** The use count of the block has been r since the operation began. */
  ghost predicate WasCounted(states: seq<State>, b: Bid, r: int) {
    exists k :: 0 <= k < |states| && Count(states[k], Key(Strong, b)) == r
  }

  /** A thread that is here is on its way to its aim; an idle one has reached it. */
  ghost predicate OnTheWay(states: seq<State>, t: Tid, aim: Aim)
    requires states != []
  {
    var s := Last(states);
    && t in s.pcs
    && match aim
       case Put(to, v) => Puts(s, s.pcs[t], to, v)
       case Lock(to, b) =>
         (match s.pcs[t]
          case Idle =>
            && to in s.handles
            && (s.handles[to] == Some(b) || (s.handles[to] == None && WasCounted(states, b, 0)))
          case Loading(_, b', to') => b' == b && to' == to
          case Swapping(_, b', to', r) => b' == b && to' == to && WasCounted(states, b, r)
          case Setting(rest) =>
            rest == Set(to, Some(b)) || (rest == Set(to, None) && WasCounted(states, b, 0))
          case _ => false)
       case Drop(h) =>
         && h in s.used && h !in s.handles && (forall u :: u in s.pcs ==> Target(s.pcs[u]) != Some(h))
         && (s.pcs[t].Idle? || RestOf(s.pcs[t]) == Some(End))
  }

  function RestOf(pc: Pc): Option<Rest> {
    match pc
    case Dropping(_, rest) => Some(rest)
    case Disposing(_, rest) => Some(rest)
    case Destroying(_, rest) => Some(rest)
    case Setting(rest) => Some(rest)
    case _ => None
  }

  predicate Puts(s: State, pc: Pc, to: Ref, v: Option<Bid>) {
    match pc
    case Idle => to in s.handles && s.handles[to] == v
    case Acquiring(_, b, _, to') => to' == to && v == Some(b)
    case _ => RestOf(pc) == Some(Set(to, v))
  }

  // ---------------------------------------------------------------- every step goes towards the aim

  lemma Starts(s: State, t: Tid, a: Action)
    requires Inv(s) && Enabled(s, t, a) && AimOf(s, a).Some?
    ensures OnTheWay([s, Do(s, t, a)], t, AimOf(s, a).value)
  {
    hide WasCounted;
    match a
    case New(_, _) =>
    case Null(_) =>
    case Move(to, from) => MoveEnds(s, t, to, from);
    case Copy(to, from) => CopyStarts(s, t, to, from, false);
    case Assign(to, from) => AssignStarts(s, t, to, from);
    case LockWeak(to, from) => CopyStarts(s, t, to, from, true);
    case Destruct(h) => DestructStarts(s, t, h);
  }

  lemma CopyStarts(s: State, t: Tid, to: Ref, from: Ref, lock: bool)
    requires t in s.pcs && s.pcs[t] == Idle && from in s.handles
    ensures var v, r := s.handles[from], DoCopy(s, t, to, from, lock);
            OnTheWay([s, r], t, if lock && v.Some? then Lock(to, v.value) else Put(to, v))
  {
    hide WasCounted;
  }

  lemma AssignStarts(s: State, t: Tid, to: Ref, from: Ref)
    requires t in s.pcs && s.pcs[t] == Idle && to in s.handles && from in s.handles
    ensures OnTheWay([s, DoAssign(s, t, to, from)], t, Put(to, s.handles[from]))
  {
    hide WasCounted, Owners;
  }

  lemma DestructStarts(s: State, t: Tid, h: Ref)
    requires TargetsOk(s.handles, s.pcs, s.used) && t in s.pcs && s.pcs[t] == Idle && h in s.handles
    ensures OnTheWay([s, DoDestruct(s, t, h)], t, Drop(h))
  {
    hide WasCounted, Owners;
  }

  /** Moving takes one step, and leaves the source null. */
  lemma MoveEnds(s: State, t: Tid, to: Ref, from: Ref)
    requires Inv(s) && Enabled(s, t, Move(to, from))
    ensures Do(s, t, Move(to, from)).handles == s.handles[from := None][to := s.handles[from]] && to != from
    ensures Do(s, t, Move(to, from)).pcs == s.pcs && Do(s, t, Move(to, from)).counts == s.counts
  {
    hide OwnersOk, CountsOk, Known, PcsOk, StagesOk;
  }

  /** A later moment has seen what an earlier one has. */
  lemma SeenStays(states: seq<State>, s: State, b: Bid, r: int)
    ensures WasCounted(states, b, r) ==> WasCounted(states + [s], b, r)
    ensures states != [] ==> WasCounted(states + [s], b, Count(Last(states), Key(Strong, b)))
  {
    if WasCounted(states, b, r) {
      var k :| 0 <= k < |states| && Count(states[k], Key(Strong, b)) == r;
      assert (states + [s])[k] == states[k];
    }
    if states != [] { assert (states + [s])[|states| - 1] == Last(states); }
  }

  /** Steps of other threads do not turn it off its way. */
  lemma OthersDoNotMatter(states: seq<State>, t: Tid, u: Tid, a: Action, aim: Aim)
    requires states != [] && OnTheWay(states, t, aim) && Inv(Last(states)) && Last(states).pcs[t] != Idle
    requires Enabled(Last(states), u, a) && u != t
    ensures OnTheWay(states + [Do(Last(states), u, a)], t, aim)
  {
    hide OwnersOk, CountsOk, Known, PcsOk, StagesOk, WasCounted;
    var s := Last(states);
    var s' := Do(s, u, a);
    StepFrame(s, u, a);
    match aim
    case Put(to, v) =>
    case Lock(to, b) =>
      SeenStays(states, s', b, 0);
      if s.pcs[t].Swapping? { SeenStays(states, s', b, s.pcs[t].r); }
    case Drop(h) => GoneStays(s, s', u, h);
  }

  /** What a step of thread u leaves alone: the places of the others, and handles that have been used and
      that it does not set. */
  ghost predicate Frame(s: State, s': State, u: Tid) {
    && u in s.pcs && s'.pcs.Keys == s.pcs.Keys && s.used <= s'.used
    && (forall t :: t in s.pcs && t != u ==> s'.pcs[t] == s.pcs[t])
    && (forall h :: h in s'.handles ==> h in s.handles || h !in s.used || Target(s.pcs[u]) == Some(h))
    && (Target(s'.pcs[u]) == None || Target(s'.pcs[u]) == Target(s.pcs[u])
        || Target(s'.pcs[u]).value !in s.used || Target(s'.pcs[u]).value in s.handles)
  }

  lemma StepFrame(s: State, u: Tid, a: Action)
    requires Enabled(s, u, a)
    ensures Frame(s, Do(s, u, a), u)
  {
    hide Frame, DoNew, DoCopy, DoMove, DoDestruct, DoAssign, DoAdd, DoSub, DoDispose, DoDestroy, DoSet, DoSwap;
    match a
    case New(to, b) => NewFrame(s, u, to, b);
    case Null(to) => NullFrame(s, u, to);
    case Copy(to, from) => CopyFrame(s, u, to, from, false);
    case Move(to, from) => MoveFrame(s, u, to, from);
    case Destruct(h) => DestructFrame(s, u, h);
    case Assign(to, from) => AssignFrame(s, u, to, from);
    case LockWeak(to, from) => CopyFrame(s, u, to, from, true);
    case Add => AddFrame(s, u);
    case Sub => SubFrame(s, u);
    case Dispose => DisposeFrame(s, u);
    case Destroy => DestroyFrame(s, u);
    case SetPi => SetFrame(s, u);
    case LoadUse => LoadFrame(s, u);
    case Swap(spurious) => SwapFrame(s, u, spurious);
  }

  lemma NewFrame(s: State, u: Tid, to: Ref, b: Bid)
    requires u in s.pcs && s.pcs[u] == Idle && to !in s.used
    ensures Frame(s, DoNew(s, to, b), u)
  {}

  lemma NullFrame(s: State, u: Tid, to: Ref)
    requires u in s.pcs && s.pcs[u] == Idle && to !in s.used
    ensures Frame(s, s.(handles := s.handles[to := None], used := s.used + {to}), u)
  {}

  lemma CopyFrame(s: State, u: Tid, to: Ref, from: Ref, lock: bool)
    requires u in s.pcs && s.pcs[u] == Idle && to !in s.used && from in s.handles
    ensures Frame(s, DoCopy(s, u, to, from, lock), u)
  {}

  lemma MoveFrame(s: State, u: Tid, to: Ref, from: Ref)
    requires u in s.pcs && s.pcs[u] == Idle && to !in s.used && from in s.handles
    ensures Frame(s, DoMove(s, to, from), u)
  {}

  lemma DestructFrame(s: State, u: Tid, h: Ref)
    requires u in s.pcs && s.pcs[u] == Idle && h in s.handles
    ensures Frame(s, DoDestruct(s, u, h), u)
  {
    hide Owners;
  }

  lemma AssignFrame(s: State, u: Tid, to: Ref, from: Ref)
    requires u in s.pcs && s.pcs[u] == Idle && to in s.handles && from in s.handles
    ensures Frame(s, DoAssign(s, u, to, from), u)
  {
    hide Owners;
  }

  lemma AddFrame(s: State, u: Tid)
    requires u in s.pcs && s.pcs[u].Acquiring?
    ensures Frame(s, DoAdd(s, u), u)
  {
    hide Count, Owners;
  }

  lemma SubFrame(s: State, u: Tid)
    requires u in s.pcs && s.pcs[u].Dropping?
    ensures Frame(s, DoSub(s, u), u)
  {
    hide Count, Owners, Frame;
    PlaceFrame(s, DoSub(s, u), u);
  }

  lemma DisposeFrame(s: State, u: Tid)
    requires u in s.pcs && s.pcs[u].Disposing?
    ensures Frame(s, DoDispose(s, u), u)
  {}

  lemma DestroyFrame(s: State, u: Tid)
    requires u in s.pcs && s.pcs[u].Destroying?
    ensures Frame(s, DoDestroy(s, u), u)
  {}

  lemma SetFrame(s: State, u: Tid)
    requires u in s.pcs && s.pcs[u].Setting? && s.pcs[u].rest.Set?
    ensures Frame(s, DoSet(s, u), u)
  {
    hide Owners;
  }

  lemma LoadFrame(s: State, u: Tid)
    requires u in s.pcs && s.pcs[u].Loading?
    ensures var pc := s.pcs[u];
            Frame(s, At(s, u, Swapping(pc.from, pc.b, pc.to, Count(s, Key(Strong, pc.b)))), u)
  {
    hide Count;
  }

  lemma SwapFrame(s: State, u: Tid, spurious: bool)
    requires u in s.pcs && s.pcs[u].Swapping?
    ensures Frame(s, DoSwap(s, u, spurious), u)
  {
    hide Count, Owners, Frame, Target;
    TargetOfSwap(s.pcs[u]);
    PlaceFrame(s, DoSwap(s, u, spurious), u);
  }

  lemma TargetOfSwap(pc: Pc)
    requires pc.Swapping?
    ensures forall r: int :: Target(pc.(r := r)) == Target(pc)
    ensures forall v: Option<Bid> :: Target(Setting(Set(pc.to, v))) == Target(pc)
  {}

  /** A step that only moves u on. */
  lemma PlaceFrame(s: State, s': State, u: Tid)
    requires u in s.pcs && u in s'.pcs && s'.pcs == s.pcs[u := s'.pcs[u]]
    requires s'.handles == s.handles && s'.used == s.used
    requires Target(s'.pcs[u]) == None || Target(s'.pcs[u]) == Target(s.pcs[u])
    ensures Frame(s, s', u)
  {}

  /** A handle that was let go does not come back. */
  lemma GoneStays(s: State, s': State, u: Tid, h: Ref)
    requires Frame(s, s', u) && h in s.used && h !in s.handles
    requires forall v :: v in s.pcs ==> Target(s.pcs[v]) != Some(h)
    ensures h in s'.used && h !in s'.handles && forall v :: v in s'.pcs ==> Target(s'.pcs[v]) != Some(h)
  {}

  /** The thread's own steps bring it there. */
  lemma OwnStepGoesOn(states: seq<State>, t: Tid, a: Action, aim: Aim)
    requires states != [] && OnTheWay(states, t, aim) && Inv(Last(states)) && Last(states).pcs[t] != Idle
    requires Enabled(Last(states), t, a)
    ensures OnTheWay(states + [Do(Last(states), t, a)], t, aim)
  {
    hide Inv, OnTheWay, Enabled, Do, Puts, RestOf;
    match aim
    case Put(to, v) => PutGoesOn(states, t, a, to, v);
    case Lock(to, b) => LockGoesOn(states, t, a, to, b);
    case Drop(h) => DropGoesOn(states, t, a, h);
  }

  lemma PutGoesOn(states: seq<State>, t: Tid, a: Action, to: Ref, v: Option<Bid>)
    requires states != [] && OnTheWay(states, t, Put(to, v)) && Last(states).pcs[t] != Idle
    requires Enabled(Last(states), t, a)
    ensures OnTheWay(states + [Do(Last(states), t, a)], t, Put(to, v))
  {
    hide Unshared, Count, Owners;
  }

  lemma DropGoesOn(states: seq<State>, t: Tid, a: Action, h: Ref)
    requires states != [] && OnTheWay(states, t, Drop(h)) && Last(states).pcs[t] != Idle
    requires Enabled(Last(states), t, a)
    ensures OnTheWay(states + [Do(Last(states), t, a)], t, Drop(h))
  {
    StepFrame(Last(states), t, a);
    GoneStays(Last(states), Do(Last(states), t, a), t, h);
    DropPlace(Last(states), t, a);
    hide Do, Enabled, RestOf;
  }

  lemma DropPlace(s: State, t: Tid, a: Action)
    requires Enabled(s, t, a) && RestOf(s.pcs[t]) == Some(End)
    ensures var s' := Do(s, t, a);
            t in s'.pcs && (s'.pcs[t].Idle? || RestOf(s'.pcs[t]) == Some(End))
  {
    hide Unshared, Count, Owners;
  }

  lemma LockGoesOn(states: seq<State>, t: Tid, a: Action, to: Ref, b: Bid)
    requires states != [] && OnTheWay(states, t, Lock(to, b)) && Last(states).pcs[t] != Idle
    requires Enabled(Last(states), t, a)
    ensures OnTheWay(states + [Do(Last(states), t, a)], t, Lock(to, b))
  {
    hide WasCounted, Count, DoSwap, DoSet;
    var s := Last(states);
    SeenStays(states, Do(s, t, a), b, 0);
    if s.pcs[t].Swapping? {
      SwapGoesOn(states, t, a.spurious, to, b);
    } else if s.pcs[t].Setting? {
      SetGoesOn(states, t, to, b);
    }
  }

  lemma SwapGoesOn(states: seq<State>, t: Tid, spurious: bool, to: Ref, b: Bid)
    requires states != [] && OnTheWay(states, t, Lock(to, b)) && Last(states).pcs[t].Swapping?
    ensures OnTheWay(states + [DoSwap(Last(states), t, spurious)], t, Lock(to, b))
  {
    hide Owners, WasCounted, Count;
    SeenStays(states, DoSwap(Last(states), t, spurious), b, 0);
  }

  lemma SetGoesOn(states: seq<State>, t: Tid, to: Ref, b: Bid)
    requires states != [] && OnTheWay(states, t, Lock(to, b)) && Last(states).pcs[t].Setting?
    requires Last(states).pcs[t].rest.Set?
    ensures OnTheWay(states + [DoSet(Last(states), t)], t, Lock(to, b))
  {
    hide Owners, WasCounted;
    SeenStays(states, DoSet(Last(states), t), b, 0);
  }

  // ---------------------------------------------------------------- whole operations

  /** What an operation leaves behind when its thread is idle again: a copied, moved or assigned handle
      points where the source pointed, and a moved one is null; a locked handle points to the block, or
      it is null and the use count has been zero meanwhile; a destructed handle is gone.  Whatever the
      other threads do. */
  lemma OperationEnds(
      run0: seq<(Tid, Action)>, s: State, t: Tid, a: Action, states: seq<State>, run: seq<(Tid, Action)>)
    requires Reaches(run0, s) && Enabled(s, t, a) && Path(states, run) && states[0] == s
    requires run != [] && run[0] == (t, a)
    requires forall i :: 0 < i < |run| ==> t in states[i].pcs && states[i].pcs[t] != Idle
    requires t in Last(states).pcs && Last(states).pcs[t] == Idle
    ensures var r := Last(states);
            match a
            case New(to, b) => to in r.handles && r.handles[to] == Some(b)
            case Null(to) => to in r.handles && r.handles[to] == None
            case Copy(to, from) => to in r.handles && r.handles[to] == s.handles[from]
            case Move(to, from) =>
              && to in r.handles && r.handles[to] == s.handles[from]
              && from in r.handles && r.handles[from] == None
            case Assign(to, from) => to in r.handles && r.handles[to] == s.handles[from]
            case LockWeak(to, from) =>
              && to in r.handles
              && (r.handles[to] == s.handles[from]
                  || (r.handles[to] == None && WasCounted(states, s.handles[from].value, 0)))
            case Destruct(h) => h !in r.handles
            case _ => true
  {
    hide Inv, Do, Enabled, OnTheWay;
    RunKeeps(run0, s);
    assert Step(states[0], run[0].0, run[0].1, states[1]);
    SourceIsThere(s, t, a);
    if a.Move? {
      MoveEnds(s, t, a.to, a.from);
      assert |run| == 1;
    }
    if AimOf(s, a).Some? {
      StaysOnTheWay(states, run, |run|, t, a);
      assert states[..|run| + 1] == states;
      AimIsReached(states, t, AimOf(s, a).value);
    }
  }

  lemma AimIsReached(states: seq<State>, t: Tid, aim: Aim)
    requires states != [] && OnTheWay(states, t, aim) && Last(states).pcs[t] == Idle
    ensures var r := Last(states);
            match aim
            case Put(to, v) => to in r.handles && r.handles[to] == v
            case Lock(to, b) =>
              to in r.handles && (r.handles[to] == Some(b) || (r.handles[to] == None && WasCounted(states, b, 0)))
            case Drop(h) => h !in r.handles
  {}

  lemma SourceIsThere(s: State, t: Tid, a: Action)
    requires Enabled(s, t, a)
    ensures a.Copy? || a.Assign? || a.LockWeak? || a.Move? ==> a.from in s.handles
    ensures t in s.pcs && (AimOf(s, a).Some? ==> s.pcs[t] == Idle)
  {}

  lemma {:induction false} StaysOnTheWay(
      states: seq<State>, run: seq<(Tid, Action)>, n: nat, t: Tid, a: Action)
    requires Path(states, run) && 0 < n <= |run| && run[0] == (t, a) && Inv(states[0])
    requires AimOf(states[0], a).Some?
    requires forall i :: 0 < i < |run| ==> t in states[i].pcs && states[i].pcs[t] != Idle
    ensures Inv(states[n]) && OnTheWay(states[..n + 1], t, AimOf(states[0], a).value)
  {
    hide Inv, Do, Enabled, OnTheWay, AimOf;
    var r, u, b, r' := states[n - 1], run[n - 1].0, run[n - 1].1, states[n];
    assert Step(r, u, b, r');
    assert states[..n + 1] == states[..n] + [r'];
    if n == 1 {
      StepKeeps(r, u, b);
      Starts(r, t, a);
      assert states[..2] == [r, r'];
    } else {
      StaysOnTheWay(states, run, n - 1, t, a);
      StepKeeps(r, u, b);
      if u == t {
        OwnStepGoesOn(states[..n], t, b, AimOf(states[0], a).value);
      } else {
        OthersDoNotMatter(states[..n], t, u, b, AimOf(states[0], a).value);
      }
    }
  }

  // ---------------------------------------------------------------- operations that run alone

  /** A continuation of s to s' by at most n steps, all of thread t. */
  ghost predicate AloneReaches(s: State, t: Tid, n: nat, s': State) {
    exists states, run :: Alone(s, t, states, run, s') && |run| <= n
  }

  ghost predicate Alone(s: State, t: Tid, states: seq<State>, run: seq<(Tid, Action)>, s': State) {
    && Path(states, run) && states[0] == s && Last(states) == s'
    && forall i :: 0 <= i < |run| ==> run[i].0 == t
  }

  lemma AlreadyThere(s: State, t: Tid, n: nat)
    ensures AloneReaches(s, t, n, s)
  {
    var run: seq<(Tid, Action)> := [];
    assert Alone(s, t, [s], run, s) && |run| <= n;
  }

  lemma StepsFirst(s: State, t: Tid, a: Action, n: nat, s': State)
    requires Enabled(s, t, a) && AloneReaches(Do(s, t, a), t, n, s')
    ensures AloneReaches(s, t, n + 1, s')
  {
    hide Do, Enabled;
    var r := Do(s, t, a);
    var states, run: seq<(Tid, Action)> :| Alone(r, t, states, run, s') && |run| <= n;
    var states', run' := [s] + states, [(t, a)] + run;
    assert Step(s, t, a, r);
    forall i | 0 <= i < |run'| ensures Step(states'[i], run'[i].0, run'[i].1, states'[i + 1]) {
      assert i > 0 ==> Step(states[i - 1], run[i - 1].0, run[i - 1].1, states[i]);
    }
    assert Alone(s, t, states', run', s') && |run'| <= n + 1;
  }

  function StepsLeft(s: State, pc: Pc): nat {
    match pc
    case Idle => 0
    case Setting(_) => 1
    case Destroying(_, _) => 2
    case Dropping(key, _) => if key.kind == Weak then 3 else 5
    case Disposing(_, _) => 4
    case Acquiring(_, _, _, _) => 6
    case Swapping(_, b, _, r) => if r == 0 || r == Count(s, Key(Strong, b)) then 2 else 3
    case Loading(_, _, _) => 3
  }

  function NextOf(pc: Pc): Action
    requires pc != Idle
  {
    match pc
    case Acquiring(_, _, _, _) => Add
    case Dropping(_, _) => Sub
    case Disposing(_, _) => Dispose
    case Destroying(_, _) => Destroy
    case Setting(_) => SetPi
    case Loading(_, _, _) => LoadUse
    case Swapping(_, _, _, _) => Swap(false)
  }

  lemma NextComesNearer(s: State, t: Tid)
    requires t in s.pcs && s.pcs[t] != Idle && (s.pcs[t].Setting? ==> s.pcs[t].rest.Set?)
    ensures Enabled(s, t, NextOf(s.pcs[t]))
    ensures var s' := Do(s, t, NextOf(s.pcs[t]));
            t in s'.pcs && StepsLeft(s', s'.pcs[t]) < StepsLeft(s, s.pcs[t])
  {
    hide Owners, Unshared;
  }

  lemma SettingHasATarget(s: State, t: Tid)
    requires PcsOk(s.pcs, s.handles, s.stages) && t in s.pcs
    ensures s.pcs[t].Setting? ==> s.pcs[t].rest.Set?
  {}

  /** A thread that runs alone is done with its operation after at most six steps more, from wherever it
      is when the others stop. */
  lemma OperationsEndAlone(run: seq<(Tid, Action)>, s: State, t: Tid)
    requires Reaches(run, s) && t in s.pcs
    ensures exists s' :: AloneReaches(s, t, 6, s') && t in s'.pcs && s'.pcs[t] == Idle
  {
    hide Inv, AloneReaches, Count;
    RunKeeps(run, s);
    var s' := GoesToIdle(s, t, 6);
  }

  lemma {:induction false} GoesToIdle(s: State, t: Tid, n: nat) returns (s': State)
    requires Inv(s) && t in s.pcs && StepsLeft(s, s.pcs[t]) <= n
    ensures AloneReaches(s, t, n, s') && t in s'.pcs && s'.pcs[t] == Idle
    decreases n
  {
    hide OwnersOk, CountsOk, Known, TargetsOk, PcsOk, StagesOk, AloneReaches, StepsLeft, NextOf, Do, Enabled;
    if s.pcs[t] == Idle {
      AlreadyThere(s, t, n);
      s' := s;
    } else {
      var a := NextOf(s.pcs[t]);
      SettingHasATarget(s, t);
      NextComesNearer(s, t);
      StepKeeps(s, t, a);
      s' := GoesToIdle(Do(s, t, a), t, n - 1);
      StepsFirst(s, t, a, n - 1, s');
    }
  }

  /** Locking alone succeeds if the object is alive: the handle points to it, and it has one use more. */
  lemma LockAlone(run: seq<(Tid, Action)>, s: State, t: Tid, to: Ref, from: Ref)
    requires Reaches(run, s) && Enabled(s, t, LockWeak(to, from)) && s.handles[from].Some?
    requires Count(s, Key(Strong, s.handles[from].value)) > 0
    ensures var b := s.handles[from].value;
            exists s' :: AloneReaches(s, t, 4, s') && t in s'.pcs && s'.pcs[t] == Idle
                         && to in s'.handles && s'.handles[to] == Some(b)
                         && Count(s', Key(Strong, b)) == Count(s, Key(Strong, b)) + 1
  {
    hide AloneReaches, Reaches;
    var b := s.handles[from].value;
    var s1 := Do(s, t, LockWeak(to, from));
    var s2 := Do(s1, t, LoadUse);
    assert s2.pcs[t] == Swapping(from, b, to, Count(s, Key(Strong, b)));
    var s3 := Do(s2, t, Swap(false));
    assert s3.pcs[t] == Setting(Set(to, Some(b)));
    SetEnds(s3, t);
    var s4 := Do(s3, t, SetPi);
    hide Do, Enabled, Count;
    AlreadyThere(s4, t, 0);
    StepsFirst(s3, t, SetPi, 0, s4);
    StepsFirst(s2, t, Swap(false), 1, s4);
    StepsFirst(s1, t, LoadUse, 2, s4);
    StepsFirst(s, t, LockWeak(to, from), 3, s4);
  }

  lemma SetEnds(s: State, t: Tid)
    requires t in s.pcs && s.pcs[t].Setting? && s.pcs[t].rest.Set?
    ensures Enabled(s, t, SetPi)
    ensures var r := Do(s, t, SetPi);
            && t in r.pcs && r.pcs[t] == Idle && r.counts == s.counts
            && s.pcs[t].rest.to in r.handles && r.handles[s.pcs[t].rest.to] == s.pcs[t].rest.tmp
  {
    hide Owners;
  }
}
