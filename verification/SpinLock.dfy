/** The flag spin lock of atomic/cpu_order.cpp over processors with store buffers: a store goes to the
    end of its thread's FIFO buffer, reaches memory later, and is found by the thread's own loads at
    once.  A sequentially consistent store (line 13) empties the buffer before the thread goes on; the
    release store (line 12) does not.  Without buffers stores reach memory at once. */
module SpinLock {
  import opened Prelude

  const MAX_LOCKS := 5

  datatype Ordering = SeqCst | Release | NoBuffers

  datatype Write = Flag(v: nat) | Count(n: int)

  type Tid = t: nat | t < MAX_LOCKS

  /** Where a thread is in Accumulate: outside; waiting for its store to reach memory; about to load the
      i-th flag; about to undo; holding the lock with counter not yet loaded, loaded, or stored. */
  datatype Pc = Out | Fence | Scan(i: nat) | Undo | In | Loaded(n: int) | Done

  /** "completed" counts the increments; it is history. */
  datatype State = State(
    ordering: Ordering, flags: map<Tid, nat>, counter: int, buffers: map<Tid, seq<Write>>, pcs: map<Tid, Pc>,
    completed: nat)

  ghost predicate AllThreads(s: State) {
    forall t: Tid :: t in s.flags && t in s.buffers && t in s.pcs
  }

  ghost predicate IsInit(s: State) {
    && AllThreads(s) && s.counter == 0 && s.completed == 0
    && forall t: Tid :: s.flags[t] == 0 && s.buffers[t] == [] && s.pcs[t] == Out
  }

  datatype Action = StoreOne | Fenced | LoadFlag | StoreUndo | LoadCounter | StoreCounter | Unlock | Flush

  ghost predicate Enabled(s: State, t: Tid, a: Action) {
    && AllThreads(s)
    && match a
       case StoreOne => s.pcs[t].Out?
       case Fenced => s.pcs[t].Fence? && s.buffers[t] == []
       case LoadFlag => s.pcs[t].Scan? && s.pcs[t].i < MAX_LOCKS
       case StoreUndo => s.pcs[t].Undo?
       case LoadCounter => s.pcs[t].In?
       case StoreCounter => s.pcs[t].Loaded?
       case Unlock => s.pcs[t].Done?
       case Flush => s.buffers[t] != []
  }

  function NewestFlag(b: seq<Write>, v: nat): nat {
    if b == [] then v else if Last(b).Flag? then Last(b).v else NewestFlag(ButLast(b), v)
  }

  function NewestCount(b: seq<Write>, n: int): int {
    if b == [] then n else if Last(b).Count? then Last(b).n else NewestCount(ButLast(b), n)
  }

  function Apply(s: State, t: Tid, w: Write): State {
    if w.Flag? then s.(flags := s.flags[t := w.v]) else s.(counter := w.n)
  }

  function Put(s: State, t: Tid, w: Write): State
    requires t in s.buffers
  {
    if s.ordering.NoBuffers? then Apply(s, t, w) else s.(buffers := s.buffers[t := s.buffers[t] + [w]])
  }

  ghost function Do(s: State, t: Tid, a: Action): State
    requires Enabled(s, t, a)
  {
    match a
    case StoreOne => Put(s, t, Flag(1)).(pcs := s.pcs[t := if s.ordering.SeqCst? then Fence else Scan(0)])
    case Fenced => s.(pcs := s.pcs[t := Scan(0)])
    case LoadFlag =>
      var i := s.pcs[t].i;
      var v := if i == t then NewestFlag(s.buffers[t], s.flags[t]) else s.flags[i];
      s.(pcs := s.pcs[t := if v > 0 && i != t then Undo else if i + 1 < MAX_LOCKS then Scan(i + 1) else In])
    case StoreUndo => Put(s, t, Flag(0)).(pcs := s.pcs[t := Out])
    case LoadCounter => s.(pcs := s.pcs[t := Loaded(NewestCount(s.buffers[t], s.counter))])
    case StoreCounter =>
      Put(s, t, Count(s.pcs[t].n + 1)).(pcs := s.pcs[t := Done], completed := s.completed + 1)
    case Unlock => Put(s, t, Flag(0)).(pcs := s.pcs[t := Out])
    case Flush => Apply(s, t, s.buffers[t][0]).(buffers := s.buffers[t := s.buffers[t][1..]])
  }

  ghost predicate Step(r: State, t: Tid, a: Action, s: State) {
    Enabled(r, t, a) && s == Do(r, t, a)
  }

  /** The states that a run passes through. */
  ghost predicate Follows(states: seq<State>, run: seq<(Tid, Action)>) {
    && |states| == |run| + 1 && IsInit(states[0])
    && forall i :: 0 <= i < |run| ==> Step(states[i], run[i].0, run[i].1, states[i + 1])
  }

  /** The run leads to s. */
  ghost predicate Reaches(run: seq<(Tid, Action)>, s: State) {
    exists states :: Follows(states, run) && Last(states) == s
  }

  // ---------------------------------------------------------------- the invariant

  /** An increment that has not reached memory. */
  predicate Pending(b: seq<Write>) {
    b != [] && b[0].Count?
  }

  predicate Holds(pc: Pc) {
    pc.In? || pc.Loaded? || pc.Done?
  }

  /** What a thread's buffer can hold at each point, and whether its flag is set in memory. */
  predicate ThreadOk(pc: Pc, b: seq<Write>, flag: nat) {
    match pc
    case Out =>
      if b == [] then flag == 0
      else flag == 1 && (b == [Flag(0)] || (|b| == 2 && b[0].Count? && b[1] == Flag(0)))
    case Fence =>
      if b == [] then flag == 1
      else if b == [Flag(1)] then flag == 0
      else flag == 1 && (b == [Flag(0), Flag(1)] || (|b| == 3 && b[0].Count? && b[1..] == [Flag(0), Flag(1)]))
    case Done => flag == 1 && (b == [] || (|b| == 1 && b[0].Count?))
    case Scan(i) => flag == 1 && b == [] && i < MAX_LOCKS
    case _ => flag == 1 && b == []
  }

  /** t has found u's flag unset and still acts on it, or its increment is still on the way. */
  predicate Ahead(pc: Pc, b: seq<Write>, t: Tid, u: Tid) {
    t != u && ((pc.Scan? && u < pc.i) || Holds(pc) || Pending(b))
  }

  ghost predicate ThreadsOk(pcs: map<Tid, Pc>, buffers: map<Tid, seq<Write>>, flags: map<Tid, nat>) {
    forall t: Tid :: t in pcs && t in buffers && t in flags && ThreadOk(pcs[t], buffers[t], flags[t])
  }

  ghost predicate NotBothAhead(pcs: map<Tid, Pc>, buffers: map<Tid, seq<Write>>) {
    forall t: Tid, u: Tid ::
      t in pcs && t in buffers && u in pcs && u in buffers && Ahead(pcs[t], buffers[t], t, u)
      ==> !Ahead(pcs[u], buffers[u], u, t)
  }

  ghost predicate LoadedOk(pcs: map<Tid, Pc>, completed: nat) {
    forall t: Tid :: t in pcs && pcs[t].Loaded? ==> pcs[t].n == completed
  }

  ghost predicate PendingOk(buffers: map<Tid, seq<Write>>, completed: nat) {
    forall t: Tid :: t in buffers && Pending(buffers[t]) ==> buffers[t][0].n == completed
  }

  ghost predicate Settled(buffers: map<Tid, seq<Write>>) {
    forall t: Tid :: t in buffers ==> !Pending(buffers[t])
  }

  /** The counter, with what is on its way to it. */
  ghost predicate CounterOk(pcs: map<Tid, Pc>, buffers: map<Tid, seq<Write>>, counter: int, completed: nat) {
    LoadedOk(pcs, completed) && PendingOk(buffers, completed) && (Settled(buffers) ==> counter == completed)
  }

  ghost predicate BuffersOk(ordering: Ordering, buffers: map<Tid, seq<Write>>) {
    ordering.NoBuffers? ==> forall t: Tid :: t in buffers ==> buffers[t] == []
  }

  ghost predicate Inv(s: State) {
    && ThreadsOk(s.pcs, s.buffers, s.flags)
    && NotBothAhead(s.pcs, s.buffers)
    && CounterOk(s.pcs, s.buffers, s.counter, s.completed)
    && BuffersOk(s.ordering, s.buffers)
  }

  /** A step touches no other thread's place, buffer and flag. */
  lemma OthersStay(s: State, t: Tid, a: Action, u: Tid)
    requires Enabled(s, t, a) && u != t
    ensures var s' := Do(s, t, a);
            AllThreads(s') && s'.pcs[u] == s.pcs[u] && s'.buffers[u] == s.buffers[u] && s'.flags[u] == s.flags[u]
    ensures AllThreads(Do(s, t, a)) && Do(s, t, a).ordering == s.ordering
  {}

  /** The thread itself stays in one of the expected states. */
  lemma OwnStep(s: State, t: Tid, a: Action)
    requires Enabled(s, t, a) && !s.ordering.Release? && AllThreads(Do(s, t, a))
    requires ThreadOk(s.pcs[t], s.buffers[t], s.flags[t]) && (s.ordering.NoBuffers? ==> s.buffers[t] == [])
    ensures var s' := Do(s, t, a); ThreadOk(s'.pcs[t], s'.buffers[t], s'.flags[t])
    ensures s.ordering.NoBuffers? ==> Do(s, t, a).buffers[t] == []
  {}

  lemma StepKeepsThreads(s: State, t: Tid, a: Action)
    requires ThreadsOk(s.pcs, s.buffers, s.flags) && BuffersOk(s.ordering, s.buffers)
    requires Enabled(s, t, a) && !s.ordering.Release?
    ensures var s' := Do(s, t, a);
            ThreadsOk(s'.pcs, s'.buffers, s'.flags) && BuffersOk(s'.ordering, s'.buffers) && AllThreads(s')
  {
    hide ThreadOk, Do;
    var s' := Do(s, t, a);
    OthersStay(s, t, a, if t == 0 then 1 else 0);
    OwnStep(s, t, a);
    forall u: Tid
      ensures ThreadOk(s'.pcs[u], s'.buffers[u], s'.flags[u]) && (s'.ordering.NoBuffers? ==> s'.buffers[u] == [])
    {
      if u != t { OthersStay(s, t, a, u); }
    }
  }

  /** A thread whose flag is unset in memory is ahead of no one. */
  lemma UnsetIsNotAhead(pc: Pc, b: seq<Write>, flag: nat, t: Tid, u: Tid)
    requires ThreadOk(pc, b, flag) && flag == 0
    ensures !Ahead(pc, b, t, u)
  {}

  /** A thread gets ahead of another only by loading its flag as unset. */
  lemma OwnAhead(s: State, t: Tid, a: Action, u: Tid)
    requires Enabled(s, t, a) && !s.ordering.Release? && AllThreads(Do(s, t, a))
    requires ThreadOk(s.pcs[t], s.buffers[t], s.flags[t]) && (s.ordering.NoBuffers? ==> s.buffers[t] == [])
    ensures var s' := Do(s, t, a);
            Ahead(s'.pcs[t], s'.buffers[t], t, u) ==> Ahead(s.pcs[t], s.buffers[t], t, u) || s.flags[u] == 0
  {}

  lemma StepKeepsOrder(s: State, t: Tid, a: Action)
    requires Inv(s) && Enabled(s, t, a) && !s.ordering.Release?
    ensures var s' := Do(s, t, a); NotBothAhead(s'.pcs, s'.buffers)
  {
    hide ThreadOk, Do, Ahead, CounterOk;
    var s' := Do(s, t, a);
    OthersStay(s, t, a, if t == 0 then 1 else 0);
    forall u: Tid, v: Tid | Ahead(s'.pcs[u], s'.buffers[u], u, v)
      ensures !Ahead(s'.pcs[v], s'.buffers[v], v, u)
    {
      StepPair(s, t, a, u, v);
    }
  }

  lemma StepPair(s: State, t: Tid, a: Action, u: Tid, v: Tid)
    requires Inv(s) && Enabled(s, t, a) && !s.ordering.Release? && AllThreads(Do(s, t, a))
    requires Ahead(Do(s, t, a).pcs[u], Do(s, t, a).buffers[u], u, v)
    ensures !Ahead(Do(s, t, a).pcs[v], Do(s, t, a).buffers[v], v, u)
  {
    hide ThreadOk, Do, CounterOk;
    if u == v {
    } else if u == t {
      OthersStay(s, t, a, v);
      OwnAhead(s, t, a, v);
      if s.flags[v] == 0 { UnsetIsNotAhead(s.pcs[v], s.buffers[v], s.flags[v], v, u); }
    } else if v == t {
      OthersStay(s, t, a, u);
      OwnAhead(s, t, a, u);
      if s.flags[u] == 0 { UnsetIsNotAhead(s.pcs[u], s.buffers[u], s.flags[u], u, v); }
    } else {
      OthersStay(s, t, a, u);
      OthersStay(s, t, a, v);
    }
  }

  /** Whether a thread's increment is not in memory yet, before it is stored or after. */
  predicate Owns(pc: Pc, b: seq<Write>) {
    Holds(pc) || Pending(b)
  }

  lemma OwnerIsAhead(pc: Pc, b: seq<Write>, t: Tid, u: Tid)
    ensures Owns(pc, b) && t != u ==> Ahead(pc, b, t, u)
  {}

  /** Two owners would be ahead of each other. */
  lemma OneOwner(s: State, t: Tid, u: Tid)
    requires NotBothAhead(s.pcs, s.buffers) && AllThreads(s)
    requires Owns(s.pcs[t], s.buffers[t]) && Owns(s.pcs[u], s.buffers[u])
    ensures t == u
  {
    OwnerIsAhead(s.pcs[t], s.buffers[t], t, u);
    OwnerIsAhead(s.pcs[u], s.buffers[u], u, t);
    hide Ahead, Owns;
  }

  /** While t owns the lock or its increment is on the way, no other thread does. */
  lemma OnlyOwner(s: State, t: Tid)
    requires NotBothAhead(s.pcs, s.buffers) && AllThreads(s) && Owns(s.pcs[t], s.buffers[t])
    ensures forall u: Tid :: u != t ==> !Owns(s.pcs[u], s.buffers[u])
  {
    forall u: Tid | u != t ensures !Owns(s.pcs[u], s.buffers[u]) {
      if Owns(s.pcs[u], s.buffers[u]) { OneOwner(s, t, u); }
    }
  }

  lemma OthersAll(s: State, t: Tid, a: Action)
    requires Enabled(s, t, a)
    ensures var s' := Do(s, t, a);
            && AllThreads(s') && s'.ordering == s.ordering
            && forall u: Tid :: u != t ==> s'.pcs[u] == s.pcs[u] && s'.buffers[u] == s.buffers[u]
  {
    hide Do;
    OthersStay(s, t, a, if t == 0 then 1 else 0);
    forall u: Tid | u != t ensures Do(s, t, a).pcs[u] == s.pcs[u] && Do(s, t, a).buffers[u] == s.buffers[u] {
      OthersStay(s, t, a, u);
    }
  }

  /** Steps that do not touch the counter. */
  lemma PlainStep(s: State, t: Tid, a: Action)
    requires Enabled(s, t, a) && ThreadOk(s.pcs[t], s.buffers[t], s.flags[t]) && AllThreads(Do(s, t, a))
    requires a.StoreOne? || a.Fenced? || a.LoadFlag? || a.StoreUndo? || a.Unlock?
    ensures var s' := Do(s, t, a);
            && !s'.pcs[t].Loaded? && s'.counter == s.counter && s'.completed == s.completed
            && (Pending(s'.buffers[t]) <==> Pending(s.buffers[t]))
            && (Pending(s.buffers[t]) ==> s'.buffers[t][0] == s.buffers[t][0])
  {}

  /** Only the front of a buffer matters to the counter. */
  lemma SameFronts(b: map<Tid, seq<Write>>, b': map<Tid, seq<Write>>, t: Tid, completed: nat)
    requires t in b && t in b' && forall u: Tid :: u != t ==> u in b && u in b' && b'[u] == b[u]
    requires Pending(b'[t]) <==> Pending(b[t])
    requires Pending(b[t]) ==> b'[t][0] == b[t][0]
    ensures PendingOk(b, completed) ==> PendingOk(b', completed)
    ensures Settled(b') ==> Settled(b)
  {
    if Settled(b') {
      forall u: Tid ensures !Pending(b[u]) { assert !Pending(b'[u]); }
    }
  }

  lemma CounterStays(s: State, t: Tid, a: Action)
    requires Inv(s) && Enabled(s, t, a) && AllThreads(Do(s, t, a))
    requires a.StoreOne? || a.Fenced? || a.LoadFlag? || a.StoreUndo? || a.Unlock?
    ensures var s' := Do(s, t, a); CounterOk(s'.pcs, s'.buffers, s'.counter, s'.completed)
  {
    PlainStep(s, t, a);
    OthersAll(s, t, a);
    hide Do, Enabled, ThreadOk, NotBothAhead, Pending, PendingOk, Settled;
    SameFronts(s.buffers, Do(s, t, a).buffers, t, s.completed);
  }

  lemma CounterLoaded(s: State, t: Tid)
    requires Inv(s) && Enabled(s, t, LoadCounter)
    ensures var s' := Do(s, t, LoadCounter); CounterOk(s'.pcs, s'.buffers, s'.counter, s'.completed)
  {
    OnlyOwner(s, t);
    OthersAll(s, t, LoadCounter);
    assert s.buffers[t] == [];
    hide ThreadOk, NotBothAhead;
  }

  lemma StoreStep(s: State, t: Tid)
    requires Enabled(s, t, StoreCounter) && ThreadOk(s.pcs[t], s.buffers[t], s.flags[t])
    requires AllThreads(Do(s, t, StoreCounter))
    requires s.pcs[t].n == s.completed
    ensures var s' := Do(s, t, StoreCounter);
            && s'.pcs[t].Done? && s'.completed == s.completed + 1
            && (if s.ordering.NoBuffers? then s'.counter == s'.completed && s'.buffers[t] == []
                else s'.buffers[t] == [Count(s'.completed)])
  {}

  lemma CounterStored(s: State, t: Tid)
    requires Inv(s) && Enabled(s, t, StoreCounter) && AllThreads(Do(s, t, StoreCounter))
    ensures var s' := Do(s, t, StoreCounter); CounterOk(s'.pcs, s'.buffers, s'.counter, s'.completed)
  {
    OnlyOwner(s, t);
    OthersAll(s, t, StoreCounter);
    StoreStep(s, t);
    hide ThreadOk, NotBothAhead, Do;
  }

  lemma CounterFlushed(s: State, t: Tid)
    requires Inv(s) && Enabled(s, t, Flush) && AllThreads(Do(s, t, Flush))
    ensures var s' := Do(s, t, Flush); CounterOk(s'.pcs, s'.buffers, s'.counter, s'.completed)
  {
    if Pending(s.buffers[t]) { IncrementArrives(s, t); } else { NothingArrives(s, t); }
  }

  lemma IncrementArrives(s: State, t: Tid)
    requires Inv(s) && Enabled(s, t, Flush) && AllThreads(Do(s, t, Flush)) && Pending(s.buffers[t])
    ensures var s' := Do(s, t, Flush); CounterOk(s'.pcs, s'.buffers, s'.counter, s'.completed)
  {
    OnlyOwner(s, t);
    OthersAll(s, t, Flush);
    FlushStep(s, t);
    hide ThreadOk, NotBothAhead, Do;
  }

  lemma NothingArrives(s: State, t: Tid)
    requires Inv(s) && Enabled(s, t, Flush) && AllThreads(Do(s, t, Flush)) && !Pending(s.buffers[t])
    ensures var s' := Do(s, t, Flush); CounterOk(s'.pcs, s'.buffers, s'.counter, s'.completed)
  {
    OthersAll(s, t, Flush);
    FlushStep(s, t);
    hide ThreadOk, NotBothAhead, Do, Pending, PendingOk, Settled;
    SameFronts(s.buffers, Do(s, t, Flush).buffers, t, s.completed);
  }

  lemma FlushStep(s: State, t: Tid)
    requires Enabled(s, t, Flush) && ThreadOk(s.pcs[t], s.buffers[t], s.flags[t]) && AllThreads(Do(s, t, Flush))
    ensures var s' := Do(s, t, Flush);
            && !Pending(s'.buffers[t]) && s'.completed == s.completed && s'.pcs == s.pcs
            && s'.counter == (if Pending(s.buffers[t]) then s.buffers[t][0].n else s.counter)
            && (Pending(s.buffers[t]) ==> !s.pcs[t].Loaded?)
  {}

  lemma StepKeeps(s: State, t: Tid, a: Action)
    requires Inv(s) && Enabled(s, t, a) && !s.ordering.Release?
    ensures Inv(Do(s, t, a)) && Do(s, t, a).ordering == s.ordering && AllThreads(Do(s, t, a))
  {
    OthersAll(s, t, a);
    StepKeepsThreads(s, t, a);
    StepKeepsOrder(s, t, a);
    hide ThreadsOk, NotBothAhead, CounterOk, Do, BuffersOk;
    match a
    case LoadCounter => CounterLoaded(s, t);
    case StoreCounter => CounterStored(s, t);
    case Flush => CounterFlushed(s, t);
    case _ => CounterStays(s, t, a);
  }

  lemma {:induction false} PathKeeps(states: seq<State>, run: seq<(Tid, Action)>, i: nat)
    requires Follows(states, run) && i <= |run| && !states[i].ordering.Release?
    ensures Inv(states[i]) && AllThreads(states[i])
  {
    if i == 0 {
    } else {
      PathKeeps(states, run, i - 1);
      assert Step(states[i - 1], run[i - 1].0, run[i - 1].1, states[i]);
      OthersAll(states[i - 1], run[i - 1].0, run[i - 1].1);
      StepKeeps(states[i - 1], run[i - 1].0, run[i - 1].1);
    }
  }

  lemma RunKeeps(run: seq<(Tid, Action)>, s: State)
    requires Reaches(run, s) && !s.ordering.Release?
    ensures Inv(s) && AllThreads(s)
  {
    var states :| Follows(states, run) && Last(states) == s;
    PathKeeps(states, run, |run|);
  }

  // ---------------------------------------------------------------- what the lock promises

  /** Between a successful Lock and the end of its Unlock there is one thread at a time. */
  lemma MutualExclusion(run: seq<(Tid, Action)>, s: State, t: Tid, u: Tid)
    requires Reaches(run, s) && !s.ordering.Release? && AllThreads(s) && Holds(s.pcs[t]) && Holds(s.pcs[u])
    ensures t == u
  {
    RunKeeps(run, s);
    OneOwner(s, t, u);
  }

  /** Once the buffers are empty, the counter has all the increments. */
  lemma NoIncrementIsLost(run: seq<(Tid, Action)>, s: State)
    requires Reaches(run, s) && !s.ordering.Release? && AllThreads(s) && forall t: Tid :: s.buffers[t] == []
    ensures s.counter == s.completed
  {
    RunKeeps(run, s);
  }

  /** What a thread finds in the counter is the number of increments before its own, and until its
      increment is in memory its flag keeps the others out. */
  lemma IncrementsAreSerial(run: seq<(Tid, Action)>, s: State, t: Tid)
    requires Reaches(run, s) && !s.ordering.Release? && AllThreads(s)
    ensures s.pcs[t].Loaded? ==> s.pcs[t].n == s.completed
    ensures Pending(s.buffers[t]) ==> s.buffers[t][0] == Count(s.completed) && s.flags[t] == 1
    ensures Pending(s.buffers[t]) ==> forall u: Tid :: Holds(s.pcs[u]) ==> u == t
  {
    RunKeeps(run, s);
    if Pending(s.buffers[t]) { OnlyOwner(s, t); }
  }

  // ---------------------------------------------------------------- the release store is not enough

  lemma Extend(run: seq<(Tid, Action)>, r: State, t: Tid, a: Action)
    requires Reaches(run, r) && Enabled(r, t, a)
    ensures Reaches(run + [(t, a)], Do(r, t, a))
  {
    hide Do, Enabled;
    var s := Do(r, t, a);
    var states :| Follows(states, run) && Last(states) == r;
    var run', states' := run + [(t, a)], states + [s];
    assert Step(r, t, a, s);
    forall i | 0 <= i < |run'| ensures Step(states'[i], run'[i].0, run'[i].1, states'[i + 1]) {
      assert i < |run| ==> Step(states[i], run[i].0, run[i].1, states[i + 1]);
    }
    assert Follows(states', run') && Last(states') == s;
  }

  lemma Overwrite<V>(m: map<Tid, V>, t: Tid, a: V, b: V)
    ensures m[t := a][t := b] == m[t := b]
  {}

  /** A thread that finds no flag set gets through the loop of Lock. */
  lemma {:induction false} ScanThrough(run: seq<(Tid, Action)>, s: State, t: Tid, i: nat)
      returns (run': seq<(Tid, Action)>, s': State)
    requires Reaches(run, s) && AllThreads(s) && i < MAX_LOCKS && s.pcs[t] == Scan(i)
    requires forall u: Tid :: u != t ==> s.flags[u] == 0
    ensures Reaches(run', s') && s' == s.(pcs := s.pcs[t := In])
    decreases MAX_LOCKS - i
  {
    hide Reaches, NewestFlag;
    Extend(run, s, t, LoadFlag);
    run', s' := run + [(t, LoadFlag)], Do(s, t, LoadFlag);
    if i + 1 < MAX_LOCKS {
      assert s'.pcs[t := In] == s.pcs[t := In];
      run', s' := ScanThrough(run', s', t, i + 1);
    }
  }

  /** One round of Lock after another's store that has not reached memory. */
  lemma LockPastBuffers(run: seq<(Tid, Action)>, s: State, t: Tid) returns (run': seq<(Tid, Action)>, s': State)
    requires Reaches(run, s) && AllThreads(s) && s.ordering.Release? && s.pcs[t].Out? && s.buffers[t] == []
    requires forall u: Tid :: s.flags[u] == 0
    ensures Reaches(run', s') && s' == s.(pcs := s.pcs[t := In], buffers := s.buffers[t := [Flag(1)]])
  {
    hide Reaches;
    Extend(run, s, t, StoreOne);
    var r := Do(s, t, StoreOne);
    run', s' := ScanThrough(run + [(t, StoreOne)], r, t, 0);
    Overwrite(s.pcs, t, Scan(0), In);
    assert s.buffers[t] + [Flag(1)] == [Flag(1)];
  }

  /** t stores the counter and unlocks; everything stays in its buffer. */
  lemma Buffers(run: seq<(Tid, Action)>, s: State, t: Tid) returns (run': seq<(Tid, Action)>, s': State)
    requires Reaches(run, s) && AllThreads(s) && s.ordering.Release?
    requires s.pcs[t] == Loaded(0) && s.buffers[t] == [Flag(1)]
    ensures Reaches(run', s')
    ensures s' == s.(pcs := s.pcs[t := Out], buffers := s.buffers[t := [Flag(1), Count(1), Flag(0)]],
                     completed := s.completed + 1)
  {
    hide Reaches;
    Extend(run, s, t, StoreCounter);
    var s1, r1 := Do(s, t, StoreCounter), run + [(t, StoreCounter)];
    assert s1.buffers[t] == [Flag(1), Count(1)];
    Extend(r1, s1, t, Unlock);
    s', run' := Do(s1, t, Unlock), r1 + [(t, Unlock)];
    assert s'.buffers[t] == [Flag(1), Count(1), Flag(0)];
    Overwrite(s.pcs, t, Done, Out);
    Overwrite(s.buffers, t, [Flag(1), Count(1)], [Flag(1), Count(1), Flag(0)]);
  }

  /** t's buffer reaches memory. */
  lemma Drains(run: seq<(Tid, Action)>, s: State, t: Tid) returns (run': seq<(Tid, Action)>, s': State)
    requires Reaches(run, s) && AllThreads(s) && s.buffers[t] == [Flag(1), Count(1), Flag(0)]
    ensures Reaches(run', s')
    ensures s' == s.(buffers := s.buffers[t := []], flags := s.flags[t := 0], counter := 1)
  {
    hide Reaches;
    Extend(run, s, t, Flush);
    var s1, r1 := Do(s, t, Flush), run + [(t, Flush)];
    assert s1.buffers[t] == [Count(1), Flag(0)];
    Extend(r1, s1, t, Flush);
    var s2, r2 := Do(s1, t, Flush), r1 + [(t, Flush)];
    assert s2.buffers[t] == [Flag(0)];
    Extend(r2, s2, t, Flush);
    s', run' := Do(s2, t, Flush), r2 + [(t, Flush)];
    assert s'.buffers[t] == [];
    Overwrite(s.flags, t, 1, 0);
    Overwrite(s.buffers, t, [Count(1), Flag(0)], [Flag(0)]);
    Overwrite(s.buffers, t, [Flag(0)], []);
  }

  lemma Loads(run: seq<(Tid, Action)>, s: State, t: Tid) returns (run': seq<(Tid, Action)>, s': State)
    requires Reaches(run, s) && AllThreads(s) && s.pcs[t].In? && s.buffers[t] == [Flag(1)] && s.counter == 0
    ensures Reaches(run', s') && s' == s.(pcs := s.pcs[t := Loaded(0)])
  {
    hide Reaches;
    assert NewestCount([Flag(1)], 0) == NewestCount(ButLast([Flag(1)]), 0);
    Extend(run, s, t, LoadCounter);
    run', s' := run + [(t, LoadCounter)], Do(s, t, LoadCounter);
  }

  /** With the release store two threads hold the lock at once, and one of two increments is lost. */
  lemma ReleaseStoreIsNotEnough(s0: State)
      returns (run1: seq<(Tid, Action)>, s1: State, run2: seq<(Tid, Action)>, s2: State)
    requires IsInit(s0) && s0.ordering.Release?
    ensures Reaches(run1, s1) && AllThreads(s1) && Holds(s1.pcs[0]) && Holds(s1.pcs[1])
    ensures Reaches(run2, s2) && AllThreads(s2) && (forall t: Tid :: s2.buffers[t] == [])
    ensures s2.completed == 2 && s2.counter == 1
  {
    hide Reaches;
    run1, s1 := BothEnter(s0);
    run2, s2 := OneIsLost(run1, s1);
  }

  /** Both threads in the lock, their flags still in the buffers. */
  ghost predicate BothIn(s: State) {
    && AllThreads(s) && s.ordering.Release? && s.counter == 0 && s.completed == 0
    && s.pcs[0] == In && s.pcs[1] == In && s.buffers[0] == [Flag(1)] && s.buffers[1] == [Flag(1)]
    && (forall t: Tid :: t >= 2 ==> s.buffers[t] == [])
  }

  lemma BothEnter(s0: State) returns (run: seq<(Tid, Action)>, s: State)
    requires IsInit(s0) && s0.ordering.Release?
    ensures Reaches(run, s) && BothIn(s)
  {
    assert Follows([s0], []) && Last([s0]) == s0;
    hide Reaches;
    var ra, sa := LockPastBuffers([], s0, 0);
    assert AllThreads(sa) && (forall u: Tid :: sa.flags[u] == 0) && sa.pcs[1].Out? && sa.buffers[1] == [];
    run, s := LockPastBuffers(ra, sa, 1);
  }

  lemma OneIsLost(run: seq<(Tid, Action)>, s: State) returns (run': seq<(Tid, Action)>, s': State)
    requires Reaches(run, s) && BothIn(s)
    ensures Reaches(run', s') && AllThreads(s') && (forall t: Tid :: s'.buffers[t] == [])
    ensures s'.completed == 2 && s'.counter == 1
  {
    hide Reaches;
    var rb, sb := Loads(run, s, 0);
    var rc, sc := Loads(rb, sb, 1);
    var rd, sd := Buffers(rc, sc, 0);
    assert AllThreads(sd) && sd.pcs[1] == Loaded(0) && sd.buffers[1] == [Flag(1)];
    var re, se := Buffers(rd, sd, 1);
    run', s' := BothDrain(re, se);
  }

  lemma BothDrain(run: seq<(Tid, Action)>, s: State) returns (run': seq<(Tid, Action)>, s': State)
    requires Reaches(run, s) && AllThreads(s) && (forall t: Tid :: t >= 2 ==> s.buffers[t] == [])
    requires s.buffers[0] == [Flag(1), Count(1), Flag(0)] && s.buffers[1] == [Flag(1), Count(1), Flag(0)]
    ensures Reaches(run', s') && AllThreads(s') && (forall t: Tid :: s'.buffers[t] == [])
    ensures s'.completed == s.completed && s'.counter == 1
  {
    hide Reaches;
    var r1, s1 := Drains(run, s, 0);
    run', s' := Drains(r1, s1, 1);
  }

  // ---------------------------------------------------------------- alone

  /** With the sequentially consistent store a thread that is alone gets the lock. */
  lemma LockAlone(run: seq<(Tid, Action)>, s: State, t: Tid) returns (run': seq<(Tid, Action)>, s': State)
    requires Reaches(run, s) && s.ordering.SeqCst? && AllThreads(s)
    requires s.pcs[t].Out? && forall u: Tid :: s.flags[u] == 0 && s.buffers[u] == []
    ensures Reaches(run', s') && AllThreads(s') && Holds(s'.pcs[t])
    ensures s' == s.(pcs := s.pcs[t := In], flags := s.flags[t := 1])
  {
    hide Reaches;
    Extend(run, s, t, StoreOne);
    var s1, r1 := Do(s, t, StoreOne), run + [(t, StoreOne)];
    assert s1.buffers[t] == [Flag(1)];
    Extend(r1, s1, t, Flush);
    var s2, r2 := Do(s1, t, Flush), r1 + [(t, Flush)];
    assert s2.buffers == s.buffers;
    Extend(r2, s2, t, Fenced);
    run', s' := ScanThrough(r2 + [(t, Fenced)], Do(s2, t, Fenced), t, 0);
    Overwrite(s.pcs, t, Fence, Scan(0));
    Overwrite(s.pcs, t, Scan(0), In);
  }

  /** And it counts, unlocks, and leaves everything as it was: one round of a lone thread makes the counter
      one greater, and nothing is left in a buffer. */
  lemma RoundAlone(run: seq<(Tid, Action)>, s: State, t: Tid) returns (run': seq<(Tid, Action)>, s': State)
    requires Reaches(run, s) && s.ordering.SeqCst? && AllThreads(s)
    requires s.pcs[t].Out? && forall u: Tid :: s.flags[u] == 0 && s.buffers[u] == []
    ensures Reaches(run', s') && s' == s.(counter := s.counter + 1, completed := s.completed + 1)
  {
    hide Reaches;
    var r1, s1 := LockAlone(run, s, t);
    Extend(r1, s1, t, LoadCounter);
    var s2, r2 := Do(s1, t, LoadCounter), r1 + [(t, LoadCounter)];
    assert s2.pcs[t] == Loaded(s.counter);
    var r3, s3 := StoresAndUnlocks(r2, s2, t);
    run', s' := Empties(r3, s3, t);
    Overwrite(s.pcs, t, In, Loaded(s.counter));
    Overwrite(s.pcs, t, Loaded(s.counter), Out);
    assert s'.pcs == s.pcs && s'.buffers == s.buffers && s'.flags == s.flags;
  }

  lemma StoresAndUnlocks(run: seq<(Tid, Action)>, s: State, t: Tid) returns (run': seq<(Tid, Action)>, s': State)
    requires Reaches(run, s) && AllThreads(s) && s.ordering.SeqCst? && s.pcs[t].Loaded? && s.buffers[t] == []
    ensures Reaches(run', s')
    ensures s' == s.(pcs := s.pcs[t := Out], buffers := s.buffers[t := [Count(s.pcs[t].n + 1), Flag(0)]],
                     completed := s.completed + 1)
  {
    hide Reaches;
    var w := Count(s.pcs[t].n + 1);
    Extend(run, s, t, StoreCounter);
    var s1, r1 := Do(s, t, StoreCounter), run + [(t, StoreCounter)];
    assert s1.buffers[t] == [w];
    Extend(r1, s1, t, Unlock);
    s', run' := Do(s1, t, Unlock), r1 + [(t, Unlock)];
    assert s'.buffers[t] == [w, Flag(0)];
    Overwrite(s.pcs, t, Done, Out);
    Overwrite(s.buffers, t, [w], [w, Flag(0)]);
  }

  lemma Empties(run: seq<(Tid, Action)>, s: State, t: Tid) returns (run': seq<(Tid, Action)>, s': State)
    requires Reaches(run, s) && AllThreads(s) && |s.buffers[t]| == 2
    requires s.buffers[t][0].Count? && s.buffers[t][1] == Flag(0)
    ensures Reaches(run', s')
    ensures s' == s.(buffers := s.buffers[t := []], flags := s.flags[t := 0], counter := s.buffers[t][0].n)
  {
    hide Reaches;
    Extend(run, s, t, Flush);
    var s1, r1 := Do(s, t, Flush), run + [(t, Flush)];
    assert s1.buffers[t] == [Flag(0)];
    Extend(r1, s1, t, Flush);
    s', run' := Do(s1, t, Flush), r1 + [(t, Flush)];
    assert s'.buffers[t] == [];
    Overwrite(s.buffers, t, [Flag(0)], []);
  }
}
