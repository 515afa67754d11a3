/** The stack with a version tag (idea/lockfree/stack-atomic-version.hpp, lines 50-89) as a step
    machine: any number of threads push and pop, and reuse the nodes they popped as they
    like.  A step is one atomic access to the head, or one access to a node. */
module TaggedStack {
  import opened Prelude
  import opened TagPtrs

  type Addr = nat
  type Tid = nat

  const NULL: Addr := 0

  /** Where a thread is in Push (lines 60-69) or Pop (lines 72-84); "loaded" is old_head.  "seen" is
      history: how many pops had succeeded when loaded was loaded. */
  datatype Pc =
    | Idle
    | Pushing(node: Addr, loaded: nat)
    | Linked(node: Addr, loaded: nat)
    | Popping(loaded: nat, seen: nat)
    | Unlinking(loaded: nat, next: Addr, seen: nat)

  /** "head" is the packed word head_; "next" the memory of all nodes; "owner" says which thread may
      use a node that is not in the stack; "pops" counts the successful pops. */
  datatype State = State(head: nat, next: map<Addr, Addr>, pcs: map<Tid, Pc>, owner: map<Addr, Tid>, pops: nat)

  ghost predicate IsInit(s: State) {
    s.head == Pack(NULL, 0) && s.next == map[] && s.owner == map[] && s.pops == 0
    && forall t :: t in s.pcs ==> s.pcs[t] == Idle
  }

  /** What the callers of the stack see. */
  datatype Event = Tau | Pushed(node: Addr) | Popped(node: Addr) | FoundEmpty

  datatype Action =
    | NewNode(node: Addr) | WriteNode(node: Addr, value: Addr) | GiveNode(node: Addr, to: Tid)
    | PushLoad(node: Addr) | PushLink | PushCas | PushFail
    | PopLoad | PopRead | PopNull | PopCas | PopFail

  predicate Owns(s: State, t: Tid, node: Addr) {
    node in s.owner && s.owner[node] == t && node in s.next
  }

  predicate Enabled(s: State, t: Tid, a: Action) {
    t in s.pcs &&
    match a
    case NewNode(node) => s.pcs[t] == Idle && node !in s.next && 0 < node < PTR_LIMIT
    case WriteNode(node, _) => s.pcs[t] == Idle && Owns(s, t, node)
    case GiveNode(node, to) => s.pcs[t] == Idle && Owns(s, t, node)
    case PushLoad(node) => s.pcs[t] == Idle && Owns(s, t, node)
    case PushLink => s.pcs[t].Pushing?
    case PushCas => s.pcs[t].Linked? && s.head == s.pcs[t].loaded
    case PushFail => s.pcs[t].Linked?
    case PopLoad => s.pcs[t] == Idle
    case PopNull => s.pcs[t].Popping? && PtrOf(s.pcs[t].loaded) == NULL
    case PopRead => s.pcs[t].Popping? && PtrOf(s.pcs[t].loaded) != NULL && PtrOf(s.pcs[t].loaded) in s.next
    case PopCas => s.pcs[t].Unlinking? && s.head == s.pcs[t].loaded
    case PopFail => s.pcs[t].Unlinking?
  }

  /** A failed compare-and-swap, spurious or not, loads the head again. */
  function Do(s: State, t: Tid, a: Action): State
    requires Enabled(s, t, a)
  {
    match a
    case NewNode(node) => s.(next := s.next[node := NULL], owner := s.owner[node := t])
    case WriteNode(node, value) => s.(next := s.next[node := value])
    case GiveNode(node, to) => s.(owner := s.owner[node := to])
    case PushLoad(node) => s.(pcs := s.pcs[t := Pushing(node, s.head)])
    case PushLink =>
      var Pushing(node, loaded) := s.pcs[t];
      s.(next := s.next[node := PtrOf(loaded)], pcs := s.pcs[t := Linked(node, loaded)])
    case PushCas =>
      var Linked(node, loaded) := s.pcs[t];
      s.(head := Pack(node, TagOf(loaded)), owner := s.owner - {node}, pcs := s.pcs[t := Idle])
    case PushFail => s.(pcs := s.pcs[t := Pushing(s.pcs[t].node, s.head)])
    case PopLoad => s.(pcs := s.pcs[t := Popping(s.head, s.pops)])
    case PopNull => s.(pcs := s.pcs[t := Idle])
    case PopRead =>
      var Popping(loaded, seen) := s.pcs[t];
      s.(pcs := s.pcs[t := Unlinking(loaded, s.next[PtrOf(loaded)], seen)])
    case PopCas =>
      var Unlinking(loaded, next, _) := s.pcs[t];
      s.(head := Pack(next, NextTag(loaded)), owner := s.owner[PtrOf(loaded) := t], pops := s.pops + 1,
         pcs := s.pcs[t := Idle])
    case PopFail => s.(pcs := s.pcs[t := Popping(s.head, s.pops)])
  }

  /** The linearization points: the successful compare-and-swaps, and the load that saw a null head. */
  function EventOf(s: State, t: Tid, a: Action): Event
    requires Enabled(s, t, a)
  {
    match a
    case PushCas => Pushed(s.pcs[t].node)
    case PopCas => Popped(PtrOf(s.pcs[t].loaded))
    case PopLoad => if PtrOf(s.head) == NULL then FoundEmpty else Tau
    case PopFail => if PtrOf(s.head) == NULL then FoundEmpty else Tau
    case _ => Tau
  }

  /** Fewer than 65536 pops succeeded between this pop's load of the head and its swap. */
  predicate InWindow(s: State, t: Tid, a: Action) {
    a == PopCas && t in s.pcs && s.pcs[t].Unlinking? ==> s.pops - s.pcs[t].seen < 65536
  }

  ghost predicate Step(r: State, t: Tid, a: Action, s: State, e: Event, bounded: bool) {
    Enabled(r, t, a) && s == Do(r, t, a) && e == EventOf(r, t, a) && (bounded ==> InWindow(r, t, a))
  }

  /** A run with these events leads to s; "bounded" runs keep every pop within its window. */
  ghost predicate Reaches(events: seq<Event>, s: State, bounded: bool)
    decreases |events|
  {
    if events == [] then IsInit(s)
    else exists r, t, a :: Step(r, t, a, s, Last(events), bounded) && Reaches(ButLast(events), r, bounded)
  }

  // ---------------------------------------------------------------- the stack it should be

  /** The locked stack (idea/lockfree/stack-normal.hpp): "after" is the stack that e turns
      "before" into, if e can happen. */
  predicate StackStep(before: seq<Addr>, e: Event, after: seq<Addr>) {
    match e
    case Tau => after == before
    case Pushed(node) => after == [node] + before
    case Popped(node) => before == [node] + after
    case FoundEmpty => before == [] && after == []
  }

  /** These events are what a stack can do, starting empty and ending as "stack". */
  ghost predicate IsStackHistory(events: seq<Event>, stack: seq<Addr>)
    decreases |events|
  {
    if events == [] then stack == []
    else exists before :: StackStep(before, Last(events), stack) && IsStackHistory(ButLast(events), before)
  }

  // ---------------------------------------------------------------- invariant

  ghost predicate IsChain(next: map<Addr, Addr>, head: Addr, list: seq<Addr>)
    decreases |list|
  {
    if list == [] then head == NULL
    else head == list[0] && head != NULL && head in next && IsChain(next, next[head], list[1..])
  }

  lemma {:induction false} ChainFrame(next: map<Addr, Addr>, next': map<Addr, Addr>, head: Addr, list: seq<Addr>)
    requires IsChain(next, head, list)
    requires forall x :: x in list && x in next ==> x in next' && next'[x] == next[x]
    ensures IsChain(next', head, list)
    decreases |list|
  {
    if list != [] {
      assert list[0] in list;
      forall x | x in list[1..] ensures x in list {}
      ChainFrame(next, next', next[head], list[1..]);
    }
  }

  /** "stack" is what the head and the links spell out, and none of it belongs to a thread. */
  ghost predicate Holds(s: State, stack: seq<Addr>) {
    && IsChain(s.next, PtrOf(s.head), stack)
    && Distinct(stack)
    && (forall x :: x in stack ==> x in s.next && x !in s.owner)
  }

  predicate HeadOk(head: nat, pops: nat) {
    PtrOf(head) < PTR_LIMIT && head == Pack(PtrOf(head), pops)
  }

  /** While no pop has succeeded since loaded was loaded, its node is still in the stack and the link
      read from it is still its link. */
  ghost predicate PcOk(t: Tid, pc: Pc, s: State, stack: seq<Addr>) {
    match pc
    case Idle => true
    case Pushing(node, loaded) => Owns(s, t, node)
    case Linked(node, loaded) => Owns(s, t, node) && s.next[node] == PtrOf(loaded)
    case Popping(loaded, seen) =>
      seen <= s.pops && HeadOk(loaded, seen) && (PtrOf(loaded) != NULL ==> PtrOf(loaded) in s.next)
      && (seen == s.pops && PtrOf(loaded) != NULL ==> PtrOf(loaded) in stack)
    case Unlinking(loaded, next, seen) =>
      seen <= s.pops && HeadOk(loaded, seen) && PtrOf(loaded) != NULL && PtrOf(loaded) in s.next
      && (seen == s.pops ==> PtrOf(loaded) in stack && s.next[PtrOf(loaded)] == next)
  }

  ghost predicate Inv(s: State, stack: seq<Addr>) {
    && Holds(s, stack)
    && HeadOk(s.head, s.pops)
    && (forall x :: x in s.next ==> 0 < x < PTR_LIMIT)
    && (forall t :: t in s.pcs ==> PcOk(t, s.pcs[t], s, stack))
  }

  lemma InitInv(s: State)
    requires IsInit(s)
    ensures Inv(s, [])
  {
    hide PtrOf, Pack;
    Unpack(NULL, 0);
  }

  /** The stack after a step: the tail for a pop, one more for a push. */
  function StackAfter(s: State, t: Tid, a: Action, stack: seq<Addr>): seq<Addr>
    requires Enabled(s, t, a)
  {
    match a
    case PushCas => [s.pcs[t].node] + stack
    case PopCas => if stack == [] then [] else stack[1..]
    case _ => stack
  }

  /** Threads other than t keep what they know when t does not pop, does not touch nodes in the
      stack, and does not touch their nodes. */
  lemma OthersKeep(s: State, s': State, t: Tid, stack: seq<Addr>, stack': seq<Addr>)
    requires forall u :: u in s.pcs ==> PcOk(u, s.pcs[u], s, stack)
    requires t in s.pcs && t in s'.pcs && s'.pcs == s.pcs[t := s'.pcs[t]]
    requires PcOk(t, s'.pcs[t], s', stack')
    requires s'.pops == s.pops || s'.pops == s.pops + 1
    requires forall x :: x in s.next ==> x in s'.next
    requires forall x, u :: u != t && Owns(s, u, x) ==> Owns(s', u, x) && s'.next[x] == s.next[x]
    requires s'.pops == s.pops ==>
               forall x :: x in stack && x in s.next ==> x in stack' && x in s'.next && s'.next[x] == s.next[x]
    ensures forall u :: u in s'.pcs ==> PcOk(u, s'.pcs[u], s', stack')
  {
    forall u | u in s'.pcs ensures PcOk(u, s'.pcs[u], s', stack') {
      if u != t { assert PcOk(u, s.pcs[u], s, stack); }
    }
  }

  lemma PushCasKeeps(s: State, t: Tid, stack: seq<Addr>)
    requires Inv(s, stack) && Enabled(s, t, PushCas)
    ensures Inv(Do(s, t, PushCas), StackAfter(s, t, PushCas, stack))
  {
    hide PtrOf, TagOf, Pack;
    var s', node := Do(s, t, PushCas), s.pcs[t].node;
    assert PcOk(t, s.pcs[t], s, stack);
    assert node !in stack;
    Unpack(PtrOf(s.head), s.pops);
    Unpack(node, TagOf(s.head));
    SamePack(node, s.pops);
    assert ([node] + stack)[1..] == stack;
    OthersKeep(s, s', t, stack, [node] + stack);
  }

  lemma SamePack(node: Addr, version: int)
    ensures Pack(node, version % 65536) == Pack(node, version)
  {}

  /** A swap finds the head's word as it was loaded, so that it takes out the top of the stack. */
  lemma SwapFindsTheTop(s: State, t: Tid, stack: seq<Addr>)
    requires Inv(s, stack) && Enabled(s, t, PopCas)
    ensures stack != [] && PtrOf(s.head) == PtrOf(s.pcs[t].loaded) == stack[0] && stack[0] in s.next
  {
    hide PtrOf, TagOf, Pack, NextTag;
    assert PcOk(t, s.pcs[t], s, stack);
  }

  /** Within the window an unchanged head means that no pop has succeeded since the load, so the
      link read then is the link now. */
  lemma WindowKeepsTheLink(s: State, t: Tid, stack: seq<Addr>)
    requires Inv(s, stack) && Enabled(s, t, PopCas) && InWindow(s, t, PopCas)
    ensures PtrOf(s.head) in s.next && s.pcs[t].next == s.next[PtrOf(s.head)]
  {
    hide PtrOf, TagOf, Pack, NextTag;
    var loaded, seen := s.pcs[t].loaded, s.pcs[t].seen;
    assert PcOk(t, s.pcs[t], s, stack);
    Unpack(PtrOf(s.head), s.pops);
    Unpack(PtrOf(loaded), seen);
    SameTag(s.pops, seen);
    assert seen == s.pops;
  }

  lemma PopCasKeeps(s: State, t: Tid, stack: seq<Addr>)
    requires Inv(s, stack) && Enabled(s, t, PopCas)
    requires PtrOf(s.head) in s.next && PtrOf(Do(s, t, PopCas).head) == s.next[PtrOf(s.head)]
    ensures Inv(Do(s, t, PopCas), StackAfter(s, t, PopCas, stack))
  {
    hide PtrOf, TagOf, Pack, NextTag;
    var s', loaded, next, link := Do(s, t, PopCas), s.pcs[t].loaded, s.pcs[t].next, s.next[PtrOf(s.head)];
    SwapFindsTheTop(s, t, stack);
    Unpack(PtrOf(s.head), s.pops);
    assert IsChain(s.next, link, stack[1..]);
    assert link == NULL || link in s.next;
    NewHead(next, s.pops, loaded);
    forall x | x in stack[1..] ensures x in stack && x != stack[0] {}
    OthersKeep(s, s', t, stack, stack[1..]);
  }

  /** The word that a pop installs carries the number of pops, whatever pointer it was given. */
  lemma NewHead(next: Addr, pops: nat, loaded: nat)
    requires loaded == Pack(PtrOf(loaded), pops)
    ensures HeadOk(Pack(next, NextTag(loaded)), pops + 1)
  {
    hide PtrOf, TagOf, NextTag, Pack;
    Unpack(PtrOf(loaded), pops);
    Repack(next, pops + 1);
  }

  lemma SameTag(pops: nat, seen: nat)
    requires seen <= pops && pops - seen < 65536 && pops % 65536 == seen % 65536
    ensures pops == seen
  {}

  /** In the window or not, a pop's swap takes the top off the stack exactly if the head's link now is
      the one it installs, which is the one it has read, if that fits in a pointer. */
  lemma PopIsRightExactly(s: State, t: Tid, stack: seq<Addr>)
    requires Inv(s, stack) && Enabled(s, t, PopCas)
    ensures stack != [] && PtrOf(s.head) in s.next
    ensures Inv(Do(s, t, PopCas), stack[1..]) <==> PtrOf(Do(s, t, PopCas).head) == s.next[PtrOf(s.head)]
    ensures s.pcs[t].next < PTR_LIMIT ==>
              (Inv(Do(s, t, PopCas), stack[1..]) <==> s.pcs[t].next == s.next[PtrOf(s.head)])
  {
    hide PtrOf, TagOf, Pack, NextTag, PcOk, HeadOk;
    SwapFindsTheTop(s, t, stack);
    var s', next := Do(s, t, PopCas), s.pcs[t].next;
    Unpack(next, NextTag(s.pcs[t].loaded));
    if PtrOf(s'.head) == s.next[PtrOf(s.head)] {
      PopCasKeeps(s, t, stack);
    } else if Inv(s', stack[1..]) {
      HeadOfChain(s.next, PtrOf(s'.head), s.next[PtrOf(s.head)], stack[1..]);
    }
  }

  lemma HeadOfChain(next: map<Addr, Addr>, head: Addr, head': Addr, list: seq<Addr>)
    requires IsChain(next, head, list) && IsChain(next, head', list)
    ensures head == head'
  {}

  lemma NodeStepKeeps(s: State, t: Tid, a: Action, stack: seq<Addr>)
    requires Inv(s, stack) && Enabled(s, t, a)
    requires a.NewNode? || a.WriteNode? || a.GiveNode? || a.PushLink?
    ensures Inv(Do(s, t, a), stack)
  {
    hide PtrOf, TagOf, Pack, HeadOk;
    var s' := Do(s, t, a);
    assert PcOk(t, s.pcs[t], s, stack);
    ChainFrame(s.next, s'.next, PtrOf(s.head), stack);
    if a.GiveNode? {
      GiveKeeps(s, s', t, a.node, stack);
    } else {
      OthersKeep(s, s', t, stack, stack);
    }
  }

  lemma GiveKeeps(s: State, s': State, t: Tid, node: Addr, stack: seq<Addr>)
    requires forall u :: u in s.pcs ==> PcOk(u, s.pcs[u], s, stack)
    requires t in s.pcs && s.pcs[t] == Idle && Owns(s, t, node)
    requires s' == s.(owner := s'.owner) && s'.owner.Keys == s.owner.Keys
    requires forall x :: x in s.owner && x != node ==> s'.owner[x] == s.owner[x]
    ensures forall u :: u in s'.pcs ==> PcOk(u, s'.pcs[u], s', stack)
  {
    forall u | u in s'.pcs ensures PcOk(u, s'.pcs[u], s', stack) { assert PcOk(u, s.pcs[u], s, stack); }
  }

  lemma LocalStepKeeps(s: State, t: Tid, a: Action, stack: seq<Addr>)
    requires Inv(s, stack) && Enabled(s, t, a)
    requires !a.NewNode? && !a.WriteNode? && !a.GiveNode? && !a.PushLink? && !a.PushCas? && !a.PopCas?
    ensures Inv(Do(s, t, a), stack)
    ensures EventOf(s, t, a) == FoundEmpty ==> stack == []
  {
    hide PtrOf, TagOf, Pack, HeadOk;
    var s' := Do(s, t, a);
    assert PcOk(t, s.pcs[t], s, stack);
    OthersKeep(s, s', t, stack, stack);
  }

  lemma PopIsRight(s: State, t: Tid, stack: seq<Addr>)
    requires Inv(s, stack) && Enabled(s, t, PopCas)
    requires PtrOf(s.head) in s.next && s.pcs[t].next == s.next[PtrOf(s.head)]
    ensures stack != [] && PtrOf(s.pcs[t].loaded) == stack[0]
    ensures Inv(Do(s, t, PopCas), StackAfter(s, t, PopCas, stack))
  {
    hide PtrOf, TagOf, Pack, NextTag, PcOk, HeadOk;
    SwapFindsTheTop(s, t, stack);
    var next := s.pcs[t].next;
    assert IsChain(s.next, next, stack[1..]);
    assert next == NULL || next in s.next;
    Unpack(next, NextTag(s.pcs[t].loaded));
    PopCasKeeps(s, t, stack);
  }

  /** Each step is a step of the stack. */
  lemma StepRefines(s: State, t: Tid, a: Action, stack: seq<Addr>)
    requires Inv(s, stack) && Enabled(s, t, a) && InWindow(s, t, a)
    ensures Inv(Do(s, t, a), StackAfter(s, t, a, stack))
    ensures StackStep(stack, EventOf(s, t, a), StackAfter(s, t, a, stack))
  {
    hide Inv, PtrOf, TagOf, Pack, NextTag;
    match a
    case PushCas => PushCasKeeps(s, t, stack);
    case PopCas =>
      WindowKeepsTheLink(s, t, stack);
      PopIsRight(s, t, stack);
    case NewNode(_) => NodeStepKeeps(s, t, a, stack);
    case WriteNode(_, _) => NodeStepKeeps(s, t, a, stack);
    case GiveNode(_, _) => NodeStepKeeps(s, t, a, stack);
    case PushLink => NodeStepKeeps(s, t, a, stack);
    case _ => LocalStepKeeps(s, t, a, stack);
  }

  /** Every bounded run does what a stack can do, and the memory spells out that stack. */
  lemma {:induction false} RunRefinesStack(events: seq<Event>, s: State) returns (stack: seq<Addr>)
    requires Reaches(events, s, true)
    ensures IsStackHistory(events, stack) && Inv(s, stack)
    decreases |events|
  {
    if events == [] {
      InitInv(s);
      stack := [];
    } else {
      var r, t, a :| Step(r, t, a, s, Last(events), true) && Reaches(ButLast(events), r, true);
      var before := RunRefinesStack(ButLast(events), r);
      StepRefines(r, t, a, before);
      stack := StackAfter(r, t, a, before);
    }
  }

  /** A thread in the middle of a call always has a next step. */
  lemma CallsAreNeverStuck(s: State, stack: seq<Addr>, t: Tid)
    requires Inv(s, stack) && t in s.pcs && s.pcs[t] != Idle
    ensures exists a :: Enabled(s, t, a)
  {
    hide PtrOf, Holds, HeadOk;
    assert PcOk(t, s.pcs[t], s, stack);
    assert Enabled(s, t, match s.pcs[t]
                         case Pushing(_, _) => PushLink
                         case Linked(_, _) => PushFail
                         case Popping(loaded, _) => if PtrOf(loaded) == NULL then PopNull else PopRead
                         case _ => PopFail);
  }

  // ---------------------------------------------------------------- the window is tight

  /** s can be reached by an unbounded run whose events turn the empty stack into "stack". */
  ghost predicate At(s: State, stack: seq<Addr>) {
    exists events :: Reaches(events, s, false) && IsStackHistory(events, stack)
  }

  lemma Advance(s: State, stack: seq<Addr>, t: Tid, a: Action, stack': seq<Addr>)
    requires At(s, stack) && Enabled(s, t, a) && StackStep(stack, EventOf(s, t, a), stack')
    ensures At(Do(s, t, a), stack')
  {
    hide Do, EventOf, Enabled, StackStep;
    var events :| Reaches(events, s, false) && IsStackHistory(events, stack);
    var e := EventOf(s, t, a);
    var events' := events + [e];
    assert ButLast(events') == events && Last(events') == e;
    assert Step(s, t, a, Do(s, t, a), e, false);
    assert Reaches(events', Do(s, t, a), false);
    assert IsStackHistory(events', stack');
  }

  /** Thread 1 has read the link of node 1 and sleeps, while thread 2 owns node 2 and "pops" pops
      have succeeded. */
  function Sleeping(pops: nat): State {
    State(Pack(1, pops), map[1 := 0, 2 := 0], map[1 := Unlinking(Pack(1, 0), 2, 0), 2 := Idle], map[2 := 2], pops)
  }

  /** Thread 2 pops node 1 and pushes it again. */
  lemma Round(pops: nat)
    requires At(Sleeping(pops), [1])
    ensures At(Sleeping(pops + 1), [1])
  {
    hide At, Pack, PtrOf, TagOf, NextTag;
    var s0 := Sleeping(pops);
    Unpack(1, pops);
    Advance(s0, [1], 2, PopLoad, [1]);
    var s1 := Do(s0, 2, PopLoad);
    Advance(s1, [1], 2, PopRead, [1]);
    var s2 := Do(s1, 2, PopRead);
    Advance(s2, [1], 2, PopCas, []);
    var s3 := Do(s2, 2, PopCas);
    Unpack(0, (pops + 1) % 65536);
    SamePack(0, pops + 1);
    SamePack(1, pops + 1);
    PushRound(s3, pops + 1);
  }

  lemma PushRound(s3: State, pops: nat)
    requires At(s3, []) && s3.head == Pack(0, pops) && s3.pops == pops
    requires s3.next == map[1 := 0, 2 := 0] && s3.owner == map[1 := 2, 2 := 2]
    requires s3.pcs == map[1 := Unlinking(Pack(1, 0), 2, 0), 2 := Idle]
    ensures At(Sleeping(pops), [1])
  {
    hide At, Pack, PtrOf, TagOf, NextTag;
    Unpack(0, pops);
    SamePack(1, pops);
    Advance(s3, [], 2, PushLoad(1), []);
    var s4 := Do(s3, 2, PushLoad(1));
    Advance(s4, [], 2, PushLink, []);
    var s5 := Do(s4, 2, PushLink);
    Advance(s5, [], 2, PushCas, [1]);
    var s6 := Do(s5, 2, PushCas);
    assert s6.owner == map[2 := 2] && s6.pcs == Sleeping(pops).pcs && s6.next == Sleeping(pops).next;
    assert s6 == Sleeping(pops);
  }

  lemma {:induction false} Rounds(pops: nat)
    requires pops >= 2 && At(Sleeping(2), [1])
    ensures At(Sleeping(pops), [1])
  {
    if pops > 2 {
      Rounds(pops - 1);
      Round(pops - 1);
    }
  }

  lemma SleepingIsReached(s0: State)
    requires IsInit(s0) && s0.pcs == map[1 := Idle, 2 := Idle]
    ensures At(Sleeping(2), [1])
  {
    hide At, Pack, PtrOf, TagOf, NextTag;
    Start(s0);
    Unpack(0, 0);
    Unpack(1, 0);
    Unpack(2, 0);
    Unpack(2, 1);
    var s1 := Do(s0, 2, NewNode(1));
    Advance(s0, [], 2, NewNode(1), []);
    var s2 := Do(s1, 2, NewNode(2));
    Advance(s1, [], 2, NewNode(2), []);
    var s3 := Do(s2, 2, PushLoad(2));
    Advance(s2, [], 2, PushLoad(2), []);
    var s4 := Do(s3, 2, PushLink);
    Advance(s3, [], 2, PushLink, []);
    var s5 := Do(s4, 2, PushCas);
    Advance(s4, [], 2, PushCas, [2]);
    assert s5.head == Pack(2, 0) && s5.next == map[1 := 0, 2 := 0] && s5.owner == map[1 := 2];
    SecondPush(s5);
  }

  lemma Start(s0: State)
    requires IsInit(s0)
    ensures At(s0, [])
  {
    assert Reaches([], s0, false) && IsStackHistory([], []);
  }

  lemma SecondPush(s5: State)
    requires At(s5, [2]) && s5.head == Pack(2, 0) && s5.next == map[1 := 0, 2 := 0] && s5.owner == map[1 := 2]
    requires s5.pcs == map[1 := Idle, 2 := Idle] && s5.pops == 0
    ensures At(Sleeping(2), [1])
  {
    hide At, Pack, PtrOf, TagOf, NextTag;
    Unpack(2, 0);
    Unpack(1, 0);
    var s6 := Do(s5, 2, PushLoad(1));
    Advance(s5, [2], 2, PushLoad(1), [2]);
    var s7 := Do(s6, 2, PushLink);
    Advance(s6, [2], 2, PushLink, [2]);
    var s8 := Do(s7, 2, PushCas);
    Advance(s7, [2], 2, PushCas, [1, 2]);
    var s9 := Do(s8, 1, PopLoad);
    Advance(s8, [1, 2], 1, PopLoad, [1, 2]);
    var s10 := Do(s9, 1, PopRead);
    Advance(s9, [1, 2], 1, PopRead, [1, 2]);
    assert s10.owner == map[];
    TwoPops(s10);
  }

  lemma TwoPops(s: State)
    requires At(s, [1, 2]) && s.head == Pack(1, 0) && s.next == map[1 := 2, 2 := 0] && s.owner == map[] && s.pops == 0
    requires s.pcs == map[1 := Unlinking(Pack(1, 0), 2, 0), 2 := Idle]
    ensures At(Sleeping(2), [1])
  {
    hide At, Pack, PtrOf, TagOf, NextTag;
    Unpack(1, 0);
    Unpack(2, 1);
    var s1 := Do(s, 2, PopLoad);
    Advance(s, [1, 2], 2, PopLoad, [1, 2]);
    var s2 := Do(s1, 2, PopRead);
    Advance(s1, [1, 2], 2, PopRead, [1, 2]);
    var s3 := Do(s2, 2, PopCas);
    Advance(s2, [1, 2], 2, PopCas, [2]);
    var s4 := Do(s3, 2, PopLoad);
    Advance(s3, [2], 2, PopLoad, [2]);
    var s5 := Do(s4, 2, PopRead);
    Advance(s4, [2], 2, PopRead, [2]);
    var s6 := Do(s5, 2, PopCas);
    Advance(s5, [2], 2, PopCas, []);
    var s7 := Do(s6, 2, WriteNode(1, 0));
    Advance(s6, [], 2, WriteNode(1, 0), []);
    assert s7.next == map[1 := 0, 2 := 0] && s7.owner == map[1 := 2, 2 := 2];
    PushRound(s7, 2);
  }

  /** With 65536 pops between a pop's load and its swap the tag has come round: the stack that was
      pushed and popped is empty, but the head points to a node that a thread owns. */
  lemma WindowIsTight(s0: State) returns (s: State)
    requires IsInit(s0) && s0.pcs == map[1 := Idle, 2 := Idle]
    ensures At(s, []) && PtrOf(s.head) == 2 && Owns(s, 2, 2)
  {
    hide At, Pack, PtrOf, TagOf, NextTag;
    SleepingIsReached(s0);
    Rounds(65536);
    var s1 := Sleeping(65536);
    SamePack(1, 65536);
    Unpack(1, 0);
    Unpack(2, 1);
    Advance(s1, [1], 1, PopCas, []);
    s := Do(s1, 1, PopCas);
  }
}
