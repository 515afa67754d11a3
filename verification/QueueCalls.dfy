/** What a whole call of push or pop does to the queue, whatever the other threads do meanwhile. */
module QueueCalls {
  import opened Prelude
  import opened LockFreeQueue

  /** The swaps of thread t that change the queue, and its empty answers, among the first n steps. */
  function Answers(run: seq<(Tid, Action)>, t: Tid, n: nat): seq<Action>
    requires n <= |run|
  {
    if n == 0 then []
    else
      var a := run[n - 1].1;
      Answers(run, t, n - 1)
      + if run[n - 1].0 == t && (a.LinkCas? || a.SwingHead? || a.ReturnEmpty?) then [a] else []
  }

  /** The call of t that begins with step a returns with the last step. */
  ghost predicate IsCall(states: seq<State>, run: seq<(Tid, Action)>, t: Tid, a: Action) {
    && Path(states, run) && run != [] && run[0] == (t, a)
    && (forall i :: 0 < i < |run| ==> t in states[i].pcs && states[i].pcs[t] != Idle)
    && t in Last(states).pcs && Last(states).pcs[t] == Idle
  }

  // ---------------------------------------------------------------- push

  /** Where a push of node is, and what it has done to the queue. */
  predicate Pushes(pc: Pc, node: Addr, done: seq<Action>) {
    match pc
    case Idle => done == [LinkCas]
    case PushFinish(n, _, _) => n == node && done == [LinkCas]
    case _ => PcNode(pc) == Some(node) && done == []
  }

  /** The node holds the value, and is linked if that is done. */
  predicate Holds(s: State, node: Addr, value: Data, done: seq<Action>) {
    node in s.next && node in s.data && s.data[node] == value && (done != [] ==> node in s.chain)
  }

  lemma OthersStay(s: State, t: Tid, u: Tid, a: Action, node: Addr, value: Data, done: seq<Action>)
    requires Enabled(s, u, a) && t != u && t in s.pcs && Holds(s, node, value, done)
    ensures t in Do(s, u, a).pcs && Do(s, u, a).pcs[t] == s.pcs[t] && Holds(Do(s, u, a), node, value, done)
  {
    hide AfterCompare, Contents;
  }

  lemma PushStep(s: State, t: Tid, a: Action, node: Addr, value: Data, done: seq<Action>)
    requires Enabled(s, t, a) && s.pcs[t] != Idle && Pushes(s.pcs[t], node, done) && Holds(s, node, value, done)
    ensures var s', done' := Do(s, t, a), done + if a == LinkCas then [LinkCas] else [];
            && t in s'.pcs && Pushes(s'.pcs[t], node, done') && Holds(s', node, value, done')
            && !a.SwingHead? && !a.ReturnEmpty?
  {
    hide AfterCompare, Contents;
  }

  lemma PushStarts(s: State, t: Tid, node: Addr, value: Data)
    requires Enabled(s, t, StartPush(node, value))
    ensures var s' := Do(s, t, StartPush(node, value));
            t in s'.pcs && Pushes(s'.pcs[t], node, []) && Holds(s', node, value, [])
  {}

  lemma {:induction false} PushGoesOn(
      states: seq<State>, run: seq<(Tid, Action)>, t: Tid, node: Addr, value: Data, n: nat)
    requires IsCall(states, run, t, StartPush(node, value)) && 0 < n <= |run|
    ensures t in states[n].pcs && Pushes(states[n].pcs[t], node, Answers(run, t, n))
    ensures Holds(states[n], node, value, Answers(run, t, n))
  {
    hide Do, Enabled, Pushes, Holds;
    var r, u, a := states[n - 1], run[n - 1].0, run[n - 1].1;
    assert Step(r, u, a, states[n]);
    if n == 1 {
      assert Answers(run, t, 0) == [] && Answers(run, t, 1) == [];
      PushStarts(r, t, node, value);
    } else {
      PushGoesOn(states, run, t, node, value, n - 1);
      var done := Answers(run, t, n - 1);
      assert done + [] == done;
      if u == t { PushStep(r, t, a, node, value, done); } else { OthersStay(r, t, u, a, node, value, done); }
    }
  }

  /** A call of push links its node once, holding its value. */
  lemma PushLinksOnce(states: seq<State>, run: seq<(Tid, Action)>, t: Tid, node: Addr, value: Data)
    requires IsCall(states, run, t, StartPush(node, value))
    ensures Answers(run, t, |run|) == [LinkCas]
    ensures var s := Last(states); node in s.chain && node in s.data && s.data[node] == value
  {
    hide Step;
    PushGoesOn(states, run, t, node, value, |run|);
  }

  // ---------------------------------------------------------------- pop

  predicate IsPopping(pc: Pc) {
    pc.PopTop? || pc.PopGotHead? || pc.PopGotNext? || pc.PopHelp? || pc.PopSwing? || pc.PopEmpty?
  }

  lemma PopStep(s: State, t: Tid, a: Action)
    requires Enabled(s, t, a) && IsPopping(s.pcs[t])
    ensures var s' := Do(s, t, a);
            t in s'.pcs && if a.SwingHead? || a.ReturnEmpty? then s'.pcs[t] == Idle
                           else IsPopping(s'.pcs[t]) && !a.LinkCas?
  {
    hide Contents;
  }

  lemma PlacesStay(s: State, t: Tid, u: Tid, a: Action)
    requires Enabled(s, u, a) && t != u && t in s.pcs
    ensures t in Do(s, u, a).pcs && Do(s, u, a).pcs[t] == s.pcs[t]
  {
    hide AfterCompare, Contents;
  }

  lemma {:induction false} PopGoesOn(states: seq<State>, run: seq<(Tid, Action)>, t: Tid, n: nat)
    requires IsCall(states, run, t, StartPop) && 0 < n <= |run|
    ensures t in states[n].pcs
    ensures if states[n].pcs[t] == Idle then Answers(run, t, n) == [SwingHead] || Answers(run, t, n) == [ReturnEmpty]
            else IsPopping(states[n].pcs[t]) && Answers(run, t, n) == []
  {
    hide Do, Enabled, IsPopping;
    var r, u, a := states[n - 1], run[n - 1].0, run[n - 1].1;
    assert Step(r, u, a, states[n]);
    if n == 1 {
      assert Answers(run, t, 0) == [] && Answers(run, t, 1) == [];
      PopStarts(r, t);
    } else {
      PopGoesOn(states, run, t, n - 1);
      if u == t { PopStep(r, t, a); } else { PlacesStay(r, t, u, a); }
      PoppingIsNotIdle(states[n].pcs[t]);
    }
  }

  lemma PoppingIsNotIdle(pc: Pc)
    ensures IsPopping(pc) ==> pc != Idle
  {}

  lemma PopStarts(s: State, t: Tid)
    requires Enabled(s, t, StartPop)
    ensures var s' := Do(s, t, StartPop);
            t in s'.pcs && IsPopping(s'.pcs[t]) && s'.pcs[t] != Idle
  {}

  /** A call of pop takes one node out or answers "empty", once. */
  lemma PopAnswersOnce(states: seq<State>, run: seq<(Tid, Action)>, t: Tid)
    requires IsCall(states, run, t, StartPop)
    ensures Answers(run, t, |run|) == [SwingHead] || Answers(run, t, |run|) == [ReturnEmpty]
  {
    hide Step;
    PopGoesOn(states, run, t, |run|);
  }

  // ---------------------------------------------------------------- alone

  /** A continuation of s to s' by at most n steps, all of thread t. */
  ghost predicate AloneReaches(s: State, t: Tid, n: nat, s': State) {
    exists states, run :: Alone(s, t, states, run, s') && |run| <= n
  }

  ghost predicate Alone(s: State, t: Tid, states: seq<State>, run: seq<(Tid, Action)>, s': State) {
    && Path(states, run) && states[0] == s && Last(states) == s'
    && forall i :: 0 <= i < |run| ==> run[i].0 == t
  }

  lemma AlreadyThere(s: State, t: Tid, n: nat)
    ensures AloneReaches(s, t, n, s)
  {
    var run: seq<(Tid, Action)> := [];
    assert Alone(s, t, [s], run, s) && |run| <= n;
  }

  lemma StepsFirst(s: State, t: Tid, a: Action, n: nat, s': State)
    requires Enabled(s, t, a) && AloneReaches(Do(s, t, a), t, n, s')
    ensures AloneReaches(s, t, n + 1, s')
  {
    hide Do, Enabled;
    var r := Do(s, t, a);
    var states, run: seq<(Tid, Action)> :| Alone(r, t, states, run, s') && |run| <= n;
    var states', run' := [s] + states, [(t, a)] + run;
    assert Step(s, t, a, r);
    forall i | 0 <= i < |run'| ensures Step(states'[i], run'[i].0, run'[i].1, states'[i + 1]) {
      assert i > 0 ==> Step(states[i - 1], run[i - 1].0, run[i - 1].1, states[i]);
    }
    assert Alone(s, t, states', run', s') && |run'| <= n + 1;
  }

  /** How many steps a thread is from its return, if it runs alone, when the head, the tail and the last
      node are these numbers in the chain. */
  function StepsLeft(pc: Pc, hi: nat, ti: nat, last: int): nat {
    match pc
    case Idle => 0
    case PushTop(_) => if ti == last then 4 else 7
    case PushGotTail(_, _, i) => if i == last then 3 else if i == ti then 6 else 9
    case PushSwing(_, _, _, i) => if i == ti then 5 else 8
    case PushLink(_, _, i) => if i == last then 2 else 8
    case PushFinish(_, _, _) => 1
    case PopTop => if hi == last || hi < ti then 4 else 8
    case PopGotHead(_, i) => if i < hi then 11 else if hi == last || hi < ti then 3 else 7
    case PopGotNext(_, next, i, _) =>
      if i < hi then 10
      else if next == NULL then if ti == hi then 2 else 5
      else if ti == hi then 6 else 2
    case PopHelp(_, _, i) => if i == ti then 5 else 9
    case PopSwing(_, _, i) => if i == hi then 1 else 9
    case PopEmpty(_) => 1
  }

  /** The next step of a thread whose compare-and-swaps do not fail spuriously. */
  function NextOf(s: State, pc: Pc): Action
    requires pc != Idle
  {
    match pc
    case PushTop(_) => LoadTail
    case PushGotTail(_, _, _) => LoadTailNext
    case PushSwing(_, _, _, _) => SwingTail
    case PushLink(_, _, i) => if i == |s.chain| - 1 then LinkCas else LinkFail
    case PushFinish(_, _, _) => FinishPush
    case PopTop => LoadHead
    case PopGotHead(_, _) => LoadHeadNext
    case PopGotNext(_, _, _, _) => CompareTail
    case PopHelp(_, _, _) => HelpTail
    case PopSwing(_, _, i) => if i == s.hi then SwingHead else SwingFail
    case PopEmpty(_) => ReturnEmpty
  }

  /** Where the next step leads. */
  predicate Leads(pc: Pc, hi: nat, ti: nat, last: int, pc': Pc, ti': nat) {
    match pc
    case Idle => false
    case PushTop(_) => pc'.PushGotTail? && pc'.i == ti && ti' == ti
    case PushGotTail(_, _, i) =>
      ti' == ti && if i == last then pc'.PushLink? && pc'.i == i else pc'.PushSwing? && pc'.i == i < last
    case PushSwing(_, _, _, i) => pc'.PushTop? && i < last && ti' == if i == ti then i + 1 else ti
    case PushLink(_, _, i) => if i == last then pc'.PushFinish? else pc'.PushTop? && ti' == ti
    case PushFinish(_, _, _) => pc'.Idle?
    case PopTop => pc'.PopGotHead? && pc'.i == hi && ti' == ti
    case PopGotHead(_, i) =>
      pc'.PopGotNext? && pc'.i == i && ti' == ti && i <= hi && (pc'.next == NULL <==> i == last)
    case PopGotNext(_, next, i, _) =>
      && ti' == ti && i <= hi
      && if i == ti then if next == NULL then pc'.PopEmpty? else pc'.PopHelp? && pc'.i == i
         else (pc'.PopSwing? && pc'.i == i) || (pc'.PopTop? && next == NULL)
    case PopHelp(_, _, i) => pc'.PopTop? && i <= hi && ti' == if i == ti then i + 1 else ti
    case PopSwing(_, _, i) => if i == hi then pc'.Idle? else pc'.PopTop? && ti' == ti
    case PopEmpty(_) => pc'.Idle?
  }

  lemma LeadsNearer(pc: Pc, hi: nat, ti: nat, last: int, pc': Pc, ti': nat)
    requires hi <= ti <= last <= ti + 1 && Leads(pc, hi, ti, last, pc', ti')
    ensures pc'.PushFinish? || pc'.Idle? || StepsLeft(pc', hi, ti', last) < StepsLeft(pc, hi, ti, last)
  {}

  lemma NextLeads(s: State, t: Tid)
    requires Inv(s) && t in s.pcs && s.pcs[t] != Idle
    ensures Enabled(s, t, NextOf(s, s.pcs[t]))
    ensures var s' := Do(s, t, NextOf(s, s.pcs[t]));
            && t in s'.pcs && Leads(s.pcs[t], s.hi, s.ti, |s.chain| - 1, s'.pcs[t], s'.ti)
            && (!s'.pcs[t].PushFinish? && !s'.pcs[t].Idle? ==> s'.chain == s.chain && s'.hi == s.hi)
            && (s'.pcs[t].PushFinish? ==> s.pcs[t].PushLink? && s.pcs[t].i == |s.chain| - 1)
  {
    assert PcOk(s.pcs[t], s);
    hide PcsOk, PoppedOk;
    match s.pcs[t]
    case PushGotTail(_, _, i) => LoadTailNextLeads(s, t);
    case PushSwing(_, _, _, i) => SwingTailLeads(s, t);
    case PushLink(_, _, i) => LinkLeads(s, t);
    case PopGotHead(_, i) => LoadHeadNextLeads(s, t);
    case PopGotNext(_, _, i, _) => CompareLeads(s, t);
    case PopHelp(_, _, i) => HelpLeads(s, t);
    case PopSwing(_, _, i) => SwingLeads(s, t);
    case _ => hide ChainOk, NewOk, Contents, AfterCompare;
  }

  lemma LoadTailNextLeads(s: State, t: Tid)
    requires ChainOk(s.chain, s.next, s.data) && EndsOk(s) && t in s.pcs && PcOk(s.pcs[t], s) && s.pcs[t].PushGotTail?
    ensures Enabled(s, t, LoadTailNext) && t in Do(s, t, LoadTailNext).pcs
    ensures Leads(s.pcs[t], s.hi, s.ti, |s.chain| - 1, Do(s, t, LoadTailNext).pcs[t], Do(s, t, LoadTailNext).ti)
  {
    LinkFacts(s.chain, s.next, s.data, s.pcs[t].i);
    hide ChainOk, NewOk;
  }

  lemma SwingTailLeads(s: State, t: Tid)
    requires ChainOk(s.chain, s.next, s.data) && EndsOk(s) && t in s.pcs && PcOk(s.pcs[t], s) && s.pcs[t].PushSwing?
    ensures Enabled(s, t, SwingTail) && t in Do(s, t, SwingTail).pcs
    ensures Leads(s.pcs[t], s.hi, s.ti, |s.chain| - 1, Do(s, t, SwingTail).pcs[t], Do(s, t, SwingTail).ti)
  {
    TailIsNot(s, s.pcs[t].i);
    hide ChainOk, NewOk, EndsOk;
  }

  lemma LinkLeads(s: State, t: Tid)
    requires ChainOk(s.chain, s.next, s.data) && EndsOk(s) && t in s.pcs && PcOk(s.pcs[t], s) && s.pcs[t].PushLink?
    ensures var a := NextOf(s, s.pcs[t]);
            && Enabled(s, t, a) && t in Do(s, t, a).pcs
            && Leads(s.pcs[t], s.hi, s.ti, |s.chain| - 1, Do(s, t, a).pcs[t], Do(s, t, a).ti)
  {
    LinkFacts(s.chain, s.next, s.data, s.pcs[t].i);
    hide ChainOk, NewOk;
  }

  lemma LoadHeadNextLeads(s: State, t: Tid)
    requires ChainOk(s.chain, s.next, s.data) && EndsOk(s) && t in s.pcs && PcOk(s.pcs[t], s) && s.pcs[t].PopGotHead?
    ensures Enabled(s, t, LoadHeadNext) && t in Do(s, t, LoadHeadNext).pcs
    ensures Leads(s.pcs[t], s.hi, s.ti, |s.chain| - 1, Do(s, t, LoadHeadNext).pcs[t], Do(s, t, LoadHeadNext).ti)
  {
    LinkFacts(s.chain, s.next, s.data, s.pcs[t].i);
    hide ChainOk, NewOk, Contents;
  }

  lemma CompareLeads(s: State, t: Tid)
    requires ChainOk(s.chain, s.next, s.data) && EndsOk(s) && t in s.pcs && PcOk(s.pcs[t], s) && s.pcs[t].PopGotNext?
    ensures Enabled(s, t, CompareTail) && t in Do(s, t, CompareTail).pcs
    ensures Leads(s.pcs[t], s.hi, s.ti, |s.chain| - 1, Do(s, t, CompareTail).pcs[t], Do(s, t, CompareTail).ti)
  {
    TailIsNot(s, s.pcs[t].i);
    hide ChainOk, NewOk, EndsOk;
  }

  lemma HelpLeads(s: State, t: Tid)
    requires ChainOk(s.chain, s.next, s.data) && EndsOk(s) && t in s.pcs && PcOk(s.pcs[t], s) && s.pcs[t].PopHelp?
    ensures Enabled(s, t, HelpTail) && t in Do(s, t, HelpTail).pcs
    ensures Leads(s.pcs[t], s.hi, s.ti, |s.chain| - 1, Do(s, t, HelpTail).pcs[t], Do(s, t, HelpTail).ti)
  {
    TailIsNot(s, s.pcs[t].i);
    hide ChainOk, NewOk, EndsOk;
  }

  lemma SwingLeads(s: State, t: Tid)
    requires ChainOk(s.chain, s.next, s.data) && EndsOk(s) && t in s.pcs && PcOk(s.pcs[t], s) && s.pcs[t].PopSwing?
    ensures var a := NextOf(s, s.pcs[t]);
            && Enabled(s, t, a) && t in Do(s, t, a).pcs
            && Leads(s.pcs[t], s.hi, s.ti, |s.chain| - 1, Do(s, t, a).pcs[t], Do(s, t, a).ti)
  {
    TailIsNot(s, s.pcs[t].i);
    hide ChainOk, NewOk, EndsOk;
  }

  function LeftOf(s: State, t: Tid): nat
    requires t in s.pcs
  {
    StepsLeft(s.pcs[t], s.hi, s.ti, |s.chain| - 1)
  }

  lemma NextComesNearer(s: State, t: Tid)
    requires Inv(s) && t in s.pcs && s.pcs[t] != Idle
    ensures Enabled(s, t, NextOf(s, s.pcs[t]))
    ensures var s' := Do(s, t, NextOf(s, s.pcs[t])); t in s'.pcs && LeftOf(s', t) < LeftOf(s, t)
  {
    NextLeads(s, t);
    var s' := Do(s, t, NextOf(s, s.pcs[t]));
    hide ChainOk, PcsOk, PoppedOk, Do, Enabled, NextOf, Leads;
    LeadsNearer(s.pcs[t], s.hi, s.ti, |s.chain| - 1, s'.pcs[t], s'.ti);
    LeftIsPositive(s.pcs[t], s.hi, s.ti, |s.chain| - 1);
  }

  lemma LeftIsPositive(pc: Pc, hi: nat, ti: nat, last: int)
    ensures pc != Idle ==> StepsLeft(pc, hi, ti, last) > 0
    ensures pc.PushLink? && pc.i == last ==> StepsLeft(pc, hi, ti, last) == 2
  {}

  /** The tail is node ti and no other, the head node hi. */
  lemma TailIsNot(s: State, i: nat)
    requires ChainOk(s.chain, s.next, s.data) && EndsOk(s) && i < |s.chain|
    ensures s.tail == s.chain[i] <==> i == s.ti
    ensures s.head == s.chain[i] <==> i == s.hi
    ensures s.head in s.data
  {}

  /** A call that runs alone returns after at most eleven steps more, from wherever it is when the others
      stop. */
  lemma CallsEndAlone(run: seq<(Tid, Action)>, s: State, t: Tid)
    requires Reaches(run, s) && s.head != NULL && t in s.pcs
    ensures exists s' :: AloneReaches(s, t, 11, s') && t in s'.pcs && s'.pcs[t] == Idle
  {
    hide Inv, AloneReaches;
    RunKeeps(run, s);
    var s' := GoesToIdle(s, t, 11);
  }

  lemma {:induction false} GoesToIdle(s: State, t: Tid, n: nat) returns (s': State)
    requires Inv(s) && t in s.pcs && LeftOf(s, t) <= n
    ensures AloneReaches(s, t, n, s') && t in s'.pcs && s'.pcs[t] == Idle
    decreases n
  {
    hide Inv, AloneReaches, LeftOf, NextOf, Do, Enabled, NullSwing;
    if s.pcs[t] == Idle {
      AlreadyThere(s, t, n);
      s' := s;
    } else {
      var a := NextOf(s, s.pcs[t]);
      NextComesNearer(s, t);
      if NullSwing(s, t, a) {
        NullSwingReturns(s, t, a);
        s' := Do(s, t, a);
        AlreadyThere(s', t, n - 1);
      } else {
        StepKeeps(s, t, a);
        s' := GoesToIdle(Do(s, t, a), t, n - 1);
      }
      StepsFirst(s, t, a, n - 1, s');
    }
  }

  lemma NullSwingReturns(s: State, t: Tid, a: Action)
    requires Enabled(s, t, a) && NullSwing(s, t, a)
    ensures t in Do(s, t, a).pcs && Do(s, t, a).pcs[t] == Idle
  {}
}
