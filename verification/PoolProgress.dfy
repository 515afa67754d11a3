/** What a whole call of get and of return_resource does. */
module PoolProgress {
  import opened Prelude
  import opened BlockIds
  import PoolSpec
  import opened ResourcePool
  import opened PoolSafety

  type Id = PoolSpec.Id
  type Tid = PoolSpec.Tid

  // ---------------------------------------------------------------- return_resource

  /** The ids that a step loses. */
  function LostBy(s: State, t: Tid, a: Action): set<Id>
    requires Here(s, t)
  {
    match a
    case APut(id, ok) => if |s.locals[t].free| == BLOCK_NITEM && !ok then {id} else {}
    case ALeave(ok) => if ok then {} else set x | x in s.locals[t].free
    case _ => {}
  }

  /** An id is lost exactly if it is returned to a full chunk, or is in the chunk of a thread that exits,
      and the push to the global list fails for want of memory.  Otherwise a returned id is the next
      one that the thread gets back. */
  lemma LostExactly(run: seq<(Tid, Action)>, s: State, t: Tid, a: Action)
    requires Reaches(run, s) && Enabled(s, t, a)
    ensures Here(s, t) && Do(s, t, a).lost == s.lost + LostBy(s, t, a) && s.lost !! LostBy(s, t, a)
    ensures a.APut? && LostBy(s, t, a) == {} ==>
              t in Do(s, t, a).locals && Do(s, t, a).locals[t].free != [] && Last(Do(s, t, a).locals[t].free) == a.id
  {
    hide GroupsOk, NumbersOk, BlocksOk, CarvedOk, ChunksOk;
    RunKeeps(run, s);
    match a
    case APut(id, ok) =>
    case ALeave(ok) => assert Holds(s.locals[t].free, s.where, InLocal(t));
    case _ =>
  }

  // ---------------------------------------------------------------- get

  /** A step that belongs to get when memory does not run out. */
  predicate OfGet(a: Action) {
    !a.AGiveUp? && !a.APut? && !a.ALeave?
  }

  /** A continuation of s to s' by steps of t in get. */
  ghost predicate Alone(s: State, t: Tid, states: seq<State>, run: seq<(Tid, Action)>, s': State) {
    && Path(states, run) && states[0] == s && Last(states) == s'
    && forall i :: 0 <= i < |run| ==> run[i].0 == t && OfGet(run[i].1)
  }

  /** In at most n steps. */
  ghost predicate GetReaches(s: State, t: Tid, n: nat, s': State) {
    exists states, run :: Alone(s, t, states, run, s') && |run| <= n
  }

  lemma AlreadyThere(s: State, t: Tid, n: nat)
    ensures GetReaches(s, t, n, s)
  {
    var run: seq<(Tid, Action)> := [];
    assert Alone(s, t, [s], run, s) && |run| <= n;
  }

  lemma StepsFirst(s: State, t: Tid, a: Action, n: nat, s': State)
    requires Enabled(s, t, a) && OfGet(a) && (Do(s, t, a) == s' || GetReaches(Do(s, t, a), t, n, s'))
    ensures GetReaches(s, t, n + 1, s')
  {
    hide Do, Enabled;
    var r := Do(s, t, a);
    if r == s' { AlreadyThere(r, t, n); }
    var states, run :| Alone(r, t, states, run, s') && |run| <= n;
    var states', run' := [s] + states, [(t, a)] + run;
    assert Step(s, (t, a), r);
    forall i | 0 <= i < |run'| ensures Step(states'[i], run'[i], states'[i + 1]) {
      assert i > 0 ==> Step(states[i - 1], run[i - 1], states[i]);
    }
    assert Alone(s, t, states', run', s');
  }

  /** The last group has an index left. */
  predicate HasRoom(s: State) {
    s.groups != [] && Last(s.groups).nblock < GROUP_NBLOCK
  }

  /** How many steps a thread in get is from its id, if it runs alone. */
  function StepsLeft(s: State, t: Tid): nat
    requires t in s.pcs
  {
    match s.pcs[t]
    case Ready => 12
    case Missed => 11
    case Looping => if HasRoom(s) then 4 else 8
    case Loaded(n) => if n != |s.groups| then 11 else if HasRoom(s) then 3 else 7
    case Overshot(g) => if g + 1 != |s.groups| then 10 else 6
    case Creating(n) => if n != |s.groups| then 9 else 5
    case Storing(_, _) => 2
    case Carving => 1
  }

  /** There is a group to be had, or t is past needing one. */
  predicate Provided(s: State, t: Tid)
    requires t in s.pcs
  {
    || |s.groups| < MAX_NGROUP
    || (HasRoom(s) && (s.pcs[t] == Looping || s.pcs[t] == Loaded(|s.groups|)))
    || s.pcs[t].Storing? || s.pcs[t].Carving?
  }

  /** The step after which t has its id. */
  predicate Hands(a: Action) {
    a.AGetLocal? || a.AGetChunk? || a.ACarve?
  }

  /** The next step of get. */
  function NextOfGet(s: State, t: Tid): Action
    requires Here(s, t)
  {
    match s.pcs[t]
    case Ready => if s.locals[t].free != [] then AGetLocal else if s.chunks != [] then AGetChunk else AMiss
    case Missed => if CanCarve(s, t) then ACarve else AStartFetch
    case Looping => ALoad
    case Loaded(_) => AAdd
    case Storing(_, _) => AStore
    case Overshot(_) => ASub
    case Creating(_) => ACreate
    case Carving => ACarve
  }

  lemma NextIsEnabled(s: State, t: Tid)
    requires Inv(s) && Here(s, t) && Provided(s, t)
    ensures Enabled(s, t, NextOfGet(s, t)) && OfGet(NextOfGet(s, t))
  {
    hide UsersOk, NumbersOk;
    if s.pcs[t].Overshot? { OvershotCounts(s, t); }
    if s.pcs[t] == Ready && s.locals[t].free != [] {
      assert Holds(s.locals[t].free, s.where, InLocal(t));
      assert Last(s.locals[t].free) in s.locals[t].free;
    }
    hide LocalsOk, CarvedOk;
  }

  lemma OvershotCounts(s: State, t: Tid)
    requires GroupsOk(s.groups, s.claimed, s.pcs) && t in s.pcs && s.pcs[t].Overshot?
    ensures s.pcs[t].g < |s.groups| && s.groups[s.pcs[t].g].nblock > 0
  {
    assert PcOk(s.pcs[t], |s.groups|);
    assert GroupOk(s.pcs[t].g, s.groups[s.pcs[t].g], s.claimed[s.pcs[t].g], s.pcs);
    assert t in Overshooters(s.pcs, s.pcs[t].g);
  }

  lemma NextComesNearer(s: State, t: Tid)
    requires Here(s, t) && Provided(s, t) && Enabled(s, t, NextOfGet(s, t)) && !Hands(NextOfGet(s, t))
    requires PcOk(s.pcs[t], |s.groups|)
    ensures var s' := Do(s, t, NextOfGet(s, t));
            && Here(s', t) && Provided(s', t) && StepsLeft(s', t) < StepsLeft(s, t) && s'.used == s.used
  {}

  lemma HandsOneOut(s: State, t: Tid, a: Action)
    requires Inv(s) && Enabled(s, t, a) && Hands(a)
    ensures t in Do(s, t, a).pcs && Do(s, t, a).pcs[t] == Ready
    ensures exists id :: Do(s, t, a).used == s.used + {id} && id !in s.used
  {
    var s' := Do(s, t, a);
    match a
    case AGetLocal =>
      IsUnused(s, s.locals[t].free, InLocal(t));
      assert s'.used == s.used + {Last(s.locals[t].free)};
    case AGetChunk =>
      IsUnused(s, Last(s.chunks), InChunk(|s.chunks| - 1));
      assert s'.used == s.used + {Last(Last(s.chunks))};
    case ACarve =>
      CarvedIsUnused(s, t);
      assert s'.used == s.used + {CarvedId(s, t)};
  }

  lemma IsUnused(s: State, free: seq<Id>, p: Place)
    requires UsersOk(s.used, s.lost, s.where) && Holds(free, s.where, p) && p != Used && free != []
    ensures Last(free) !in s.used
  {
    assert Last(free) in free;
  }

  lemma CarvedIsUnused(s: State, t: Tid)
    requires Inv(s) && CanCarve(s, t)
    ensures CarvedId(s, t) !in s.used
  {
    hide GroupsOk, NumbersOk, BlocksOk, ChunksOk, LocalsOk;
    CarveIds(s.where, s.nitem, s.locals[t].block.value);
  }

  /** A get that runs alone and does not run out of memory hands out one id, which nobody uses, within
      twelve steps, from wherever it is when the others stop. */
  lemma GetHandsOneOut(run: seq<(Tid, Action)>, s: State, t: Tid)
    requires Reaches(run, s) && Here(s, t) && |s.groups| < MAX_NGROUP
    ensures exists s', id :: GetReaches(s, t, 12, s') && t in s'.pcs && s'.pcs[t] == Ready
                             && s'.used == s.used + {id} && id !in s.used
  {
    hide Inv, GetReaches;
    RunKeeps(run, s);
    var s' := GoesToId(s, t, StepsLeft(s, t));
    LongerReaches(s, t, StepsLeft(s, t), 12, s');
  }

  lemma LongerReaches(s: State, t: Tid, n: nat, m: nat, s': State)
    requires GetReaches(s, t, n, s') && n <= m
    ensures GetReaches(s, t, m, s')
  {
    var states, run :| Alone(s, t, states, run, s') && |run| <= n;
    assert Alone(s, t, states, run, s') && |run| <= m;
  }

  lemma {:induction false} GoesToId(s: State, t: Tid, n: nat) returns (s': State)
    requires Inv(s) && Here(s, t) && Provided(s, t) && StepsLeft(s, t) <= n && n > 0
    ensures GetReaches(s, t, n, s') && t in s'.pcs && s'.pcs[t] == Ready
    ensures exists id :: s'.used == s.used + {id} && id !in s.used
    decreases n
  {
    hide Inv, GetReaches, Do, Enabled, NextOfGet, Provided, StepsLeft;
    var a := NextOfGet(s, t);
    NextIsEnabled(s, t);
    StepKeeps(s, t, a);
    if Hands(a) {
      s' := Do(s, t, a);
      HandsOneOut(s, t, a);
    } else {
      PcIsOk(s, t);
      NextComesNearer(s, t);
      SomeLeft(Do(s, t, a), t);
      s' := GoesToId(Do(s, t, a), t, n - 1);
    }
    StepsFirst(s, t, a, n - 1, s');
  }

  lemma PcIsOk(s: State, t: Tid)
    requires Inv(s) && t in s.pcs
    ensures PcOk(s.pcs[t], |s.groups|)
  {}

  lemma SomeLeft(s: State, t: Tid)
    requires t in s.pcs
    ensures StepsLeft(s, t) > 0
  {}
}
