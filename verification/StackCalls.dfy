/** What a whole call of Push or Pop answers, whatever the other threads do meanwhile. */
module StackCalls {
  import opened Prelude
  import opened TagPtrs
  import opened TaggedStack

  /** The states that a run passes through, from any state. */
  ghost predicate Path(states: seq<State>, run: seq<(Tid, Action)>) {
    && |states| == |run| + 1
    && forall i :: 0 <= i < |run| ==> Next(states[i], run[i], states[i + 1])
  }

  ghost predicate Next(s: State, a: (Tid, Action), s': State) {
    Enabled(s, a.0, a.1) && s' == Do(s, a.0, a.1)
  }

  /** The events of thread t among the first n steps. */
  ghost function Answers(states: seq<State>, run: seq<(Tid, Action)>, t: Tid, n: nat): seq<Event>
    requires Path(states, run) && n <= |run|
  {
    if n == 0 then []
    else
      assert Next(states[n - 1], run[n - 1], states[n]);
      var e := EventOf(states[n - 1], run[n - 1].0, run[n - 1].1);
      Answers(states, run, t, n - 1) + if run[n - 1].0 == t && e != Tau then [e] else []
  }

  /** The call of t that begins with step a returns with the last step. */
  ghost predicate IsCall(states: seq<State>, run: seq<(Tid, Action)>, t: Tid, a: Action) {
    && Path(states, run) && run != [] && run[0] == (t, a)
    && (forall i :: 0 < i < |run| ==> t in states[i].pcs && states[i].pcs[t] != Idle)
    && t in Last(states).pcs && Last(states).pcs[t] == Idle
  }

  lemma OthersStay(s: State, t: Tid, u: Tid, a: Action)
    requires Enabled(s, u, a) && t != u && t in s.pcs
    ensures t in Do(s, u, a).pcs && Do(s, u, a).pcs[t] == s.pcs[t]
  {
    hide PtrOf, TagOf, Pack, NextTag;
  }

  // ---------------------------------------------------------------- push

  predicate IsPushing(pc: Pc, node: Addr) {
    (pc.Pushing? || pc.Linked?) && pc.node == node
  }

  lemma PushStep(s: State, t: Tid, a: Action, node: Addr)
    requires Enabled(s, t, a) && IsPushing(s.pcs[t], node)
    ensures var s' := Do(s, t, a);
            && t in s'.pcs
            && if s'.pcs[t] == Idle then EventOf(s, t, a) == Pushed(node)
               else IsPushing(s'.pcs[t], node) && EventOf(s, t, a) == Tau
  {
    hide PtrOf, TagOf, Pack, NextTag;
  }

  lemma {:induction false} PushGoesOn(states: seq<State>, run: seq<(Tid, Action)>, t: Tid, node: Addr, n: nat)
    requires IsCall(states, run, t, PushLoad(node)) && 0 < n <= |run|
    ensures t in states[n].pcs
    ensures if states[n].pcs[t] == Idle then Answers(states, run, t, n) == [Pushed(node)]
            else IsPushing(states[n].pcs[t], node) && Answers(states, run, t, n) == []
  {
    var r, u, a := states[n - 1], run[n - 1].0, run[n - 1].1;
    assert Next(r, run[n - 1], states[n]);
    if n == 1 {
      assert Answers(states, run, t, 0) == [];
      hide PtrOf, Pack, Path;
    } else {
      PushGoesOn(states, run, t, node, n - 1);
      if u == t { PushStep(r, t, a, node); } else { OthersStay(r, t, u, a); }
      hide Do, Enabled, EventOf, Path;
    }
  }

  /** A call of Push pushes its node, once. */
  lemma PushPushes(states: seq<State>, run: seq<(Tid, Action)>, t: Tid, node: Addr)
    requires IsCall(states, run, t, PushLoad(node))
    ensures Answers(states, run, t, |run|) == [Pushed(node)]
  {
    hide Next;
    PushGoesOn(states, run, t, node, |run|);
  }

  // ---------------------------------------------------------------- pop

  predicate IsPopping(pc: Pc) {
    pc.Popping? || pc.Unlinking?
  }

  /** What a pop has answered so far: "empty" once it has loaded a null head, nothing before. */
  function SoFar(pc: Pc): seq<Event> {
    if pc.Popping? && PtrOf(pc.loaded) == NULL then [FoundEmpty] else []
  }

  lemma PopStep(s: State, t: Tid, a: Action)
    requires Enabled(s, t, a) && IsPopping(s.pcs[t]) && (s.pcs[t].Unlinking? ==> PtrOf(s.pcs[t].loaded) != NULL)
    ensures var s', e := Do(s, t, a), EventOf(s, t, a);
            var all := SoFar(s.pcs[t]) + if e == Tau then [] else [e];
            && t in s'.pcs
            && if s'.pcs[t] == Idle then
                 all == [FoundEmpty] || (e.Popped? && all == [e] && e.node in s'.owner && s'.owner[e.node] == t)
               else
                 && IsPopping(s'.pcs[t]) && all == SoFar(s'.pcs[t])
                 && (s'.pcs[t].Unlinking? ==> PtrOf(s'.pcs[t].loaded) != NULL)
  {
    hide PtrOf, TagOf, Pack, NextTag;
  }

  lemma {:induction false} PopGoesOn(states: seq<State>, run: seq<(Tid, Action)>, t: Tid, n: nat)
    requires IsCall(states, run, t, PopLoad) && 0 < n <= |run|
    ensures var s, all := states[n], Answers(states, run, t, n);
            && t in s.pcs
            && if s.pcs[t] == Idle then
                 || all == [FoundEmpty]
                 || (|all| == 1 && all[0].Popped? && all[0].node in s.owner && s.owner[all[0].node] == t)
               else
                 && IsPopping(s.pcs[t]) && all == SoFar(s.pcs[t])
                 && (s.pcs[t].Unlinking? ==> PtrOf(s.pcs[t].loaded) != NULL)
  {
    hide PtrOf, TagOf, Pack, NextTag;
    var r, u, a := states[n - 1], run[n - 1].0, run[n - 1].1;
    assert Next(r, run[n - 1], states[n]);
    if n == 1 {
      assert Answers(states, run, t, 0) == [];
      hide Path;
    } else {
      PopGoesOn(states, run, t, n - 1);
      if u == t { PopStep(r, t, a); } else { OthersStay(r, t, u, a); }
      hide Do, Enabled, EventOf, Path, SoFar;
    }
  }

  /** A call of Pop either answers "empty", or takes out one node, which is then the caller's. */
  lemma PopPops(states: seq<State>, run: seq<(Tid, Action)>, t: Tid)
    requires IsCall(states, run, t, PopLoad)
    ensures var s, all := Last(states), Answers(states, run, t, |run|);
            && |all| == 1
            && (all[0] == FoundEmpty || (all[0].Popped? && all[0].node in s.owner && s.owner[all[0].node] == t))
  {
    hide Next;
    PopGoesOn(states, run, t, |run|);
  }

  // ---------------------------------------------------------------- alone

  /** A continuation of s to s' by at most n steps, all of thread t. */
  ghost predicate AloneReaches(s: State, t: Tid, n: nat, s': State) {
    exists states, run :: Alone(s, t, states, run, s') && |run| <= n
  }

  ghost predicate Alone(s: State, t: Tid, states: seq<State>, run: seq<(Tid, Action)>, s': State) {
    && Path(states, run) && states[0] == s && Last(states) == s'
    && forall i :: 0 <= i < |run| ==> run[i].0 == t
  }

  lemma AlreadyThere(s: State, t: Tid, n: nat)
    ensures AloneReaches(s, t, n, s)
  {
    var run: seq<(Tid, Action)> := [];
    assert Alone(s, t, [s], run, s) && |run| <= n;
  }

  lemma StepsFirst(s: State, t: Tid, a: Action, n: nat, s': State)
    requires Enabled(s, t, a) && AloneReaches(Do(s, t, a), t, n, s')
    ensures AloneReaches(s, t, n + 1, s')
  {
    hide Do, Enabled;
    var r := Do(s, t, a);
    var states, run: seq<(Tid, Action)> :| Alone(r, t, states, run, s') && |run| <= n;
    var states', run' := [s] + states, [(t, a)] + run;
    assert Next(s, (t, a), r);
    forall i | 0 <= i < |run'| ensures Next(states'[i], run'[i], states'[i + 1]) {
      assert i > 0 ==> Next(states[i - 1], run[i - 1], states[i]);
    }
    assert Alone(s, t, states', run', s') && |run'| <= n + 1;
  }

  function StepsLeft(s: State, pc: Pc): nat {
    match pc
    case Idle => 0
    case Linked(_, loaded) => if loaded == s.head then 1 else 3
    case Pushing(_, loaded) => if loaded == s.head then 2 else 4
    case Unlinking(loaded, _, _) => if loaded == s.head then 1 else 3
    case Popping(loaded, _) => if PtrOf(loaded) == NULL then 1 else if loaded == s.head then 2 else 4
  }

  /** The next step of a thread whose compare-and-swaps do not fail spuriously. */
  function NextOf(s: State, pc: Pc): Action
    requires pc != Idle
  {
    match pc
    case Pushing(_, _) => PushLink
    case Linked(_, loaded) => if loaded == s.head then PushCas else PushFail
    case Popping(loaded, _) => if PtrOf(loaded) == NULL then PopNull else PopRead
    case Unlinking(loaded, _, _) => if loaded == s.head then PopCas else PopFail
  }

  lemma NextComesNearer(s: State, stack: seq<Addr>, t: Tid)
    requires Inv(s, stack) && t in s.pcs && s.pcs[t] != Idle
    ensures Enabled(s, t, NextOf(s, s.pcs[t]))
    ensures var s' := Do(s, t, NextOf(s, s.pcs[t]));
            t in s'.pcs && StepsLeft(s', s'.pcs[t]) < StepsLeft(s, s.pcs[t])
  {
    assert PcOk(t, s.pcs[t], s, stack);
    hide PtrOf, TagOf, Pack, NextTag, Inv;
  }

  /** A call that runs alone returns after at most four steps more, from wherever it is when the others
      stop. */
  lemma CallsEndAlone(s: State, stack: seq<Addr>, t: Tid)
    requires Inv(s, stack) && t in s.pcs
    ensures exists s' :: AloneReaches(s, t, 4, s') && t in s'.pcs && s'.pcs[t] == Idle
  {
    hide Inv, AloneReaches, PtrOf;
    var s' := GoesToIdle(s, stack, t, 4);
  }

  lemma {:induction false} GoesToIdle(s: State, stack: seq<Addr>, t: Tid, n: nat) returns (s': State)
    requires Inv(s, stack) && t in s.pcs && StepsLeft(s, s.pcs[t]) <= n
    ensures AloneReaches(s, t, n, s') && t in s'.pcs && s'.pcs[t] == Idle
    decreases n
  {
    hide Inv, AloneReaches, StepsLeft, NextOf, Do, Enabled;
    if s.pcs[t] == Idle {
      AlreadyThere(s, t, n);
      s' := s;
    } else {
      var a := NextOf(s, s.pcs[t]);
      NextComesNearer(s, stack, t);
      if Do(s, t, a).pcs[t] == Idle {
        s' := Do(s, t, a);
        AlreadyThere(s', t, n - 1);
      } else {
        StaysInWindow(s, t, a);
        StepRefines(s, t, a, stack);
        s' := GoesToIdle(Do(s, t, a), StackAfter(s, t, a, stack), t, n - 1);
      }
      StepsFirst(s, t, a, n - 1, s');
    }
  }

  lemma StaysInWindow(s: State, t: Tid, a: Action)
    requires Enabled(s, t, a) && t in Do(s, t, a).pcs && Do(s, t, a).pcs[t] != Idle
    ensures InWindow(s, t, a)
  {
    hide PtrOf, TagOf, Pack, NextTag;
  }
}
