/** The linked queue with helping (idea/lockfree/queue-lockfree-has-aba.hpp) as a step machine.
    A step is one atomic access.  Removed nodes stay readable and are not used again.

    pop reads "next" before the tail, so it can find a tail that has moved on together with a null
    next, and then install a null head (lines 52-54).  A machine with "guarded" set retries in that
    case, as the code should.  The theorems are about both machines: QueueIsLostExactly says which
    runs of the text as written lose the queue, and the others hold in every state whose head is
    not null.

    "chain", the indices, and the fields from "popped" on are history. */
module LockFreeQueue {
  import opened Prelude

  type Addr = nat
  type Tid = nat
  type Data = int

  const NULL: Addr := 0

  /** Where a thread is in push (lines 23-37) or pop (lines 39-62).  "i" is the index in the chain of
      the node loaded last; "seen" the nodes in the queue when next was read. */
  datatype Pc =
    | Idle
    | PushTop(node: Addr)
    | PushGotTail(node: Addr, tail: Addr, i: nat)
    | PushSwing(node: Addr, tail: Addr, next: Addr, i: nat)
    | PushLink(node: Addr, tail: Addr, i: nat)
    | PushFinish(node: Addr, tail: Addr, i: nat)
    | PopTop
    | PopGotHead(head: Addr, i: nat)
    | PopGotNext(head: Addr, next: Addr, i: nat, seen: seq<Addr>)
    | PopHelp(head: Addr, next: Addr, i: nat)
    | PopSwing(head: Addr, next: Addr, i: nat)
    | PopEmpty(seen: seq<Addr>)

  datatype State = State(
    head: Addr, tail: Addr, next: map<Addr, Addr>, data: map<Addr, Data>, pcs: map<Tid, Pc>,
    guarded: bool, chain: seq<Addr>, hi: nat, ti: nat, popped: seq<Data>)

  ghost predicate IsInit(s: State) {
    && s.chain == [s.head] && s.head != NULL && s.tail == s.head && s.hi == 0 && s.ti == 0 && s.popped == []
    && s.next == map[s.head := NULL] && s.data.Keys == {s.head}
    && forall t :: t in s.pcs ==> s.pcs[t] == Idle
  }

  datatype Action =
    | StartPush(node: Addr, value: Data) | LoadTail | LoadTailNext | SwingTail | LinkCas | LinkFail | FinishPush
    | StartPop | LoadHead | LoadHeadNext | CompareTail | HelpTail | SwingHead | SwingFail | ReturnEmpty

  predicate Enabled(s: State, t: Tid, a: Action) {
    t in s.pcs &&
    match a
    case StartPush(node, _) => s.pcs[t] == Idle && node != NULL && node !in s.next
    case LoadTail => s.pcs[t].PushTop?
    case LoadTailNext => s.pcs[t].PushGotTail? && s.pcs[t].tail in s.next
    case SwingTail => s.pcs[t].PushSwing?
    case LinkCas => s.pcs[t].PushLink? && s.pcs[t].tail in s.next && s.next[s.pcs[t].tail] == NULL
    case LinkFail => s.pcs[t].PushLink?
    case FinishPush => s.pcs[t].PushFinish?
    case StartPop => s.pcs[t] == Idle
    case LoadHead => s.pcs[t].PopTop?
    case LoadHeadNext => s.pcs[t].PopGotHead? && s.pcs[t].head in s.next
    case CompareTail => s.pcs[t].PopGotNext?
    case HelpTail => s.pcs[t].PopHelp?
    case SwingHead => s.pcs[t].PopSwing? && s.head == s.pcs[t].head && s.head in s.data
    case SwingFail => s.pcs[t].PopSwing?
    case ReturnEmpty => s.pcs[t].PopEmpty?
  }

  /** Lines 46-54: which way pop goes once it has loaded the tail. */
  function AfterCompare(s: State, head: Addr, next: Addr, i: nat, seen: seq<Addr>): Pc {
    if s.tail == head then
      if next == NULL then PopEmpty(seen) else PopHelp(head, next, i)
    else if s.guarded && next == NULL then PopTop
    else PopSwing(head, next, i)
  }

  /** The nodes in the queue, oldest first: those behind the dummy. */
  function Contents(s: State): seq<Addr> {
    if s.hi < |s.chain| then s.chain[s.hi + 1..] else []
  }

  function Do(s: State, t: Tid, a: Action): (r: State)
    requires Enabled(s, t, a)
    ensures r.guarded == s.guarded
    ensures (a != LinkCas ==> r.chain == s.chain) && (a != SwingHead ==> r.hi == s.hi) && r.pcs.Keys == s.pcs.Keys
  {
    match a
    case StartPush(node, value) =>
      s.(next := s.next[node := NULL], data := s.data[node := value], pcs := s.pcs[t := PushTop(node)])
    case LoadTail => s.(pcs := s.pcs[t := PushGotTail(s.pcs[t].node, s.tail, s.ti)])
    case LoadTailNext =>
      var PushGotTail(node, tail, i) := s.pcs[t];
      s.(pcs := s.pcs[t := if s.next[tail] == NULL then PushLink(node, tail, i)
                           else PushSwing(node, tail, s.next[tail], i)])
    case SwingTail =>
      var PushSwing(node, tail, next, i) := s.pcs[t];
      MoveTail(s, tail, next, i).(pcs := s.pcs[t := PushTop(node)])
    case LinkCas =>
      var PushLink(node, tail, i) := s.pcs[t];
      s.(next := s.next[tail := node], chain := s.chain + [node], pcs := s.pcs[t := PushFinish(node, tail, i)])
    case LinkFail => s.(pcs := s.pcs[t := PushTop(s.pcs[t].node)])
    case FinishPush =>
      var PushFinish(node, tail, i) := s.pcs[t];
      MoveTail(s, tail, node, i).(pcs := s.pcs[t := Idle])
    case StartPop => s.(pcs := s.pcs[t := PopTop])
    case LoadHead => s.(pcs := s.pcs[t := PopGotHead(s.head, s.hi)])
    case LoadHeadNext =>
      var PopGotHead(head, i) := s.pcs[t];
      s.(pcs := s.pcs[t := PopGotNext(head, s.next[head], i, Contents(s))])
    case CompareTail =>
      var PopGotNext(head, next, i, seen) := s.pcs[t];
      s.(pcs := s.pcs[t := AfterCompare(s, head, next, i, seen)])
    case HelpTail =>
      var PopHelp(head, next, i) := s.pcs[t];
      MoveTail(s, head, next, i).(pcs := s.pcs[t := PopTop])
    case SwingHead =>
      s.(head := s.pcs[t].next, hi := s.pcs[t].i + 1, popped := s.popped + [s.data[s.head]], pcs := s.pcs[t := Idle])
    case SwingFail => s.(pcs := s.pcs[t := PopTop])
    case ReturnEmpty => s.(pcs := s.pcs[t := Idle])
  }

  /** tail_.compare_exchange_strong(tail, next), where tail is node number i. */
  function MoveTail(s: State, tail: Addr, next: Addr, i: nat): (r: State)
    ensures r.chain == s.chain && r.hi == s.hi && r.pcs == s.pcs && r.guarded == s.guarded
  {
    if s.tail == tail then s.(tail := next, ti := i + 1) else s
  }

  ghost predicate Step(r: State, t: Tid, a: Action, s: State) {
    Enabled(r, t, a) && s == Do(r, t, a)
  }

  /** The states that a run passes through, from any state. */
  ghost predicate Path(states: seq<State>, run: seq<(Tid, Action)>) {
    && |states| == |run| + 1
    && forall i :: 0 <= i < |run| ==> Step(states[i], run[i].0, run[i].1, states[i + 1])
  }

  ghost predicate Follows(states: seq<State>, run: seq<(Tid, Action)>) {
    Path(states, run) && IsInit(states[0])
  }

  /** The run leads to s. */
  ghost predicate Reaches(run: seq<(Tid, Action)>, s: State) {
    exists states :: Follows(states, run) && Last(states) == s
  }

  // ---------------------------------------------------------------- invariant

  function LinkAt(chain: seq<Addr>, i: nat): Addr {
    if i + 1 < |chain| then chain[i + 1] else NULL
  }

  /** The list from the first dummy on: every node that was ever linked, in the order of linking. */
  ghost predicate ChainOk(chain: seq<Addr>, next: map<Addr, Addr>, data: map<Addr, Data>) {
    && chain != [] && Distinct(chain)
    && (forall i {:trigger chain[i]} :: 0 <= i < |chain| ==>
          chain[i] != NULL && chain[i] in next && chain[i] in data && next[chain[i]] == LinkAt(chain, i))
  }

  predicate EndsOk(s: State) {
    && s.hi <= s.ti < |s.chain| <= s.ti + 2
    && s.head == s.chain[s.hi] && s.tail == s.chain[s.ti]
  }

  predicate At(chain: seq<Addr>, i: nat, x: Addr) {
    i < |chain| && chain[i] == x
  }

  /** A node that is being pushed and is not linked yet. */
  predicate NewOk(s: State, node: Addr) {
    node != NULL && node in s.next && node in s.data && s.next[node] == NULL && node !in s.chain
  }

  function PcNode(pc: Pc): Option<Addr> {
    match pc
    case PushTop(node) => Some(node)
    case PushGotTail(node, _, _) => Some(node)
    case PushSwing(node, _, _, _) => Some(node)
    case PushLink(node, _, _) => Some(node)
    case _ => None
  }

  predicate PcOk(pc: Pc, s: State) {
    && (PcNode(pc).Some? ==> NewOk(s, PcNode(pc).value))
    && match pc
       case PushGotTail(_, tail, i) => At(s.chain, i, tail) && i <= s.ti
       case PushSwing(_, tail, next, i) => At(s.chain, i, tail) && At(s.chain, i + 1, next) && i <= s.ti
       case PushLink(_, tail, i) => At(s.chain, i, tail) && i <= s.ti
       case PushFinish(node, tail, i) => At(s.chain, i, tail) && At(s.chain, i + 1, node) && i <= s.ti
       case PopGotHead(head, i) => At(s.chain, i, head) && i <= s.hi
       case PopGotNext(head, next, i, seen) =>
         At(s.chain, i, head) && i <= s.hi && (if next == NULL then seen == [] else At(s.chain, i + 1, next))
       case PopHelp(head, next, i) => At(s.chain, i, head) && At(s.chain, i + 1, next) && i <= s.hi
       case PopSwing(head, next, i) =>
         At(s.chain, i, head) && i <= s.hi && i < s.ti
         && (if next == NULL then !s.guarded else At(s.chain, i + 1, next))
       case PopEmpty(seen) => seen == []
       case _ => true
  }

  ghost predicate PcsOk(s: State) {
    && (forall t :: t in s.pcs ==> PcOk(s.pcs[t], s))
    && (forall t, u :: t in s.pcs && u in s.pcs && t != u && PcNode(s.pcs[t]).Some? ==>
          PcNode(s.pcs[u]) != PcNode(s.pcs[t]))
  }

  /** The values popped so far are those of the nodes the head has left behind. */
  ghost predicate PoppedOk(s: State) {
    && |s.popped| == s.hi <= |s.chain|
    && forall k :: 0 <= k < s.hi && s.chain[k] in s.data ==> s.popped[k] == s.data[s.chain[k]]
  }

  ghost predicate Inv(s: State) {
    ChainOk(s.chain, s.next, s.data) && EndsOk(s) && PcsOk(s) && PoppedOk(s) && NULL !in s.data
  }

  /** The head is about to be swung to the null that this pop read before a push. */
  predicate NullSwing(s: State, t: Tid, a: Action) {
    a.SwingHead? && t in s.pcs && s.pcs[t].PopSwing? && s.pcs[t].next == NULL
  }

  lemma InitInv(s: State)
    requires IsInit(s)
    ensures Inv(s)
  {}

  /** s' is s after a step of thread t that keeps the chain's nodes and only moves forward. */
  lemma PcsMove(s: State, s': State, t: Tid)
    requires PcsOk(s) && t in s.pcs && t in s'.pcs && s'.pcs == s.pcs[t := s'.pcs[t]]
    requires s.chain <= s'.chain && s.hi <= s'.hi && s.ti <= s'.ti && s'.guarded == s.guarded
    requires PcOk(s'.pcs[t], s')
    requires PcNode(s'.pcs[t]) == None || PcNode(s'.pcs[t]) == PcNode(s.pcs[t])
             || (s'.pcs[t].PushTop? && s'.pcs[t].node !in s.next)
    requires forall x: Addr :: NewOk(s, x) && PcNode(s.pcs[t]) != Some(x) ==> NewOk(s', x)
    ensures PcsOk(s')
  {
    forall u | u in s'.pcs ensures PcOk(s'.pcs[u], s') {
      if u != t { assert PcOk(s.pcs[u], s); }
    }
  }

  /** A step that only loads and decides. */
  lemma LocalMove(s: State, t: Tid, pc': Pc)
    requires Inv(s) && t in s.pcs && PcOk(pc', s)
    requires PcNode(pc') == None || PcNode(pc') == PcNode(s.pcs[t])
    ensures Inv(s.(pcs := s.pcs[t := pc']))
  {
    var s' := s.(pcs := s.pcs[t := pc']);
    hide ChainOk;
    assert forall x: Addr :: NewOk(s', x) <==> NewOk(s, x);
    assert PcOk(pc', s');
    PcsMove(s, s', t);
  }

  /** What a load or a decision leads to is right. */
  lemma ReadFinds(s: State, t: Tid, a: Action)
    requires ChainOk(s.chain, s.next, s.data) && EndsOk(s) && t in s.pcs && PcOk(s.pcs[t], s) && Enabled(s, t, a)
    requires a.LoadTail? || a.LoadTailNext? || a.LinkFail? || a.StartPop? || a.LoadHead? || a.LoadHeadNext?
             || a.CompareTail? || a.SwingFail? || a.ReturnEmpty?
    ensures PcOk(Do(s, t, a).pcs[t], s)
    ensures PcNode(Do(s, t, a).pcs[t]) == None || PcNode(Do(s, t, a).pcs[t]) == PcNode(s.pcs[t])
  {
    hide ChainOk, NewOk;
    if a.LoadTailNext? {
      LoadTailNextFinds(s, t);
    } else if a.LoadHeadNext? {
      LoadHeadNextFinds(s, t);
    }
  }

  lemma LinkFacts(chain: seq<Addr>, next: map<Addr, Addr>, data: map<Addr, Data>, i: nat)
    requires ChainOk(chain, next, data) && i < |chain|
    ensures chain[i] in next && next[chain[i]] == LinkAt(chain, i)
    ensures LinkAt(chain, i) == NULL <==> i + 1 == |chain|
  {}

  lemma LoadTailNextFinds(s: State, t: Tid)
    requires ChainOk(s.chain, s.next, s.data) && EndsOk(s) && t in s.pcs && PcOk(s.pcs[t], s)
    requires Enabled(s, t, LoadTailNext)
    ensures PcOk(Do(s, t, LoadTailNext).pcs[t], s)
    ensures PcNode(Do(s, t, LoadTailNext).pcs[t]) == PcNode(s.pcs[t])
  {
    hide ChainOk, NewOk;
    LinkFacts(s.chain, s.next, s.data, s.pcs[t].i);
  }

  /** A null next means that the queue is empty: the node is the last, and the head is at it. */
  lemma LoadHeadNextFinds(s: State, t: Tid)
    requires ChainOk(s.chain, s.next, s.data) && EndsOk(s) && t in s.pcs && PcOk(s.pcs[t], s)
    requires Enabled(s, t, LoadHeadNext)
    ensures PcOk(Do(s, t, LoadHeadNext).pcs[t], s)
    ensures PcNode(Do(s, t, LoadHeadNext).pcs[t]) == None
  {
    hide ChainOk, NewOk;
    LinkFacts(s.chain, s.next, s.data, s.pcs[t].i);
  }

  lemma ReadKeeps(s: State, t: Tid, a: Action)
    requires Inv(s) && Enabled(s, t, a)
    requires a.LoadTail? || a.LoadTailNext? || a.LinkFail? || a.StartPop? || a.LoadHead? || a.LoadHeadNext?
             || a.CompareTail? || a.SwingFail? || a.ReturnEmpty?
    ensures Inv(Do(s, t, a))
  {
    hide ChainOk, EndsOk, PoppedOk, PcOk;
    ReadFinds(s, t, a);
    LocalMove(s, t, Do(s, t, a).pcs[t]);
  }

  lemma StartPushKeeps(s: State, t: Tid, node: Addr, value: Data)
    requires Inv(s) && Enabled(s, t, StartPush(node, value))
    ensures Inv(Do(s, t, StartPush(node, value)))
  {
    var s' := Do(s, t, StartPush(node, value));
    assert node !in s.chain;
    PcsMove(s, s', t);
  }

  /** Moving the tail on from node i to node i + 1 keeps it between the head and the end. */
  lemma MoveTailKeeps(s: State, tail: Addr, next: Addr, i: nat)
    requires Inv(s) && At(s.chain, i, tail) && At(s.chain, i + 1, next) && i <= s.ti
    ensures Inv(MoveTail(s, tail, next, i))
  {
    var s' := MoveTail(s, tail, next, i);
    if s.tail == tail {
      assert i == s.ti;
      forall u | u in s'.pcs ensures PcOk(s'.pcs[u], s') { assert PcOk(s.pcs[u], s); }
    }
  }

  lemma SwingTailKeeps(s: State, t: Tid)
    requires Inv(s) && Enabled(s, t, SwingTail)
    ensures Inv(Do(s, t, SwingTail))
  {
    assert PcOk(s.pcs[t], s);
    hide Inv, PcOk, At;
    var PushSwing(node, tail, next, i) := s.pcs[t];
    MoveTailThen(s, t, tail, next, i, PushTop(node));
  }

  lemma FinishPushKeeps(s: State, t: Tid)
    requires Inv(s) && Enabled(s, t, FinishPush)
    ensures Inv(Do(s, t, FinishPush))
  {
    assert PcOk(s.pcs[t], s);
    hide Inv, PcOk, At;
    var PushFinish(node, tail, i) := s.pcs[t];
    MoveTailThen(s, t, tail, node, i, Idle);
  }

  lemma HelpTailKeeps(s: State, t: Tid)
    requires Inv(s) && Enabled(s, t, HelpTail)
    ensures Inv(Do(s, t, HelpTail))
  {
    assert PcOk(s.pcs[t], s);
    hide Inv, PcOk, At;
    var PopHelp(head, next, i) := s.pcs[t];
    MoveTailThen(s, t, head, next, i, PopTop);
  }

  lemma MoveTailThen(s: State, t: Tid, tail: Addr, next: Addr, i: nat, pc': Pc)
    requires Inv(s) && t in s.pcs && At(s.chain, i, tail) && At(s.chain, i + 1, next) && i <= s.ti
    requires pc' == Idle || pc' == PopTop || (pc'.PushTop? && PcNode(s.pcs[t]) == Some(pc'.node))
    ensures Inv(MoveTail(s, tail, next, i).(pcs := s.pcs[t := pc']))
  {
    hide ChainOk, PoppedOk, EndsOk, At;
    MoveTailKeeps(s, tail, next, i);
    assert PcOk(s.pcs[t], s);
    assert PcOk(pc', MoveTail(s, tail, next, i));
    LocalMove(MoveTail(s, tail, next, i), t, pc');
  }

  /** A node is linked only behind the last one, which the tail has reached. */
  lemma LinkKeeps(s: State, t: Tid)
    requires Inv(s) && Enabled(s, t, LinkCas)
    ensures s.ti + 1 == |s.chain|
    ensures Inv(Do(s, t, LinkCas))
  {
    LinkIsAtTheEnd(s, t);
    LinkPcs(s, t);
    hide PcsOk, PcOk;
    LinkedChain(s.chain, s.next, s.data, s.pcs[t].node);
  }

  lemma LinkIsAtTheEnd(s: State, t: Tid)
    requires Inv(s) && Enabled(s, t, LinkCas)
    ensures s.pcs[t].i + 1 == |s.chain| == s.ti + 1 && s.pcs[t].tail == Last(s.chain) && NewOk(s, s.pcs[t].node)
  {
    assert PcOk(s.pcs[t], s);
    assert LinkAt(s.chain, s.pcs[t].i) == NULL;
  }

  lemma LinkedChain(chain: seq<Addr>, next: map<Addr, Addr>, data: map<Addr, Data>, node: Addr)
    requires ChainOk(chain, next, data) && node != NULL && node in next && node in data && next[node] == NULL
    requires node !in chain
    ensures ChainOk(chain + [node], next[Last(chain) := node], data)
  {}

  lemma LinkPcs(s: State, t: Tid)
    requires ChainOk(s.chain, s.next, s.data) && EndsOk(s) && PcsOk(s) && Enabled(s, t, LinkCas)
    requires s.pcs[t].i + 1 == |s.chain|
    ensures PcsOk(Do(s, t, LinkCas))
  {
    var s', node := Do(s, t, LinkCas), s.pcs[t].node;
    assert PcOk(s.pcs[t], s);
    forall x: Addr | NewOk(s, x) && PcNode(s.pcs[t]) != Some(x) ensures NewOk(s', x) {}
    PcsMove(s, s', t);
  }

  /** The head moves to the next node, which is not past the tail. */
  lemma SwingHeadKeeps(s: State, t: Tid)
    requires Inv(s) && Enabled(s, t, SwingHead) && s.pcs[t].next != NULL
    ensures s.pcs[t].i == s.hi && s.hi < s.ti
    ensures Inv(Do(s, t, SwingHead))
  {
    SwingHeadEnds(s, t);
    SwingHeadPcs(s, t);
  }

  /** The compare-and-swap of the head succeeds only on the first node of the list. */
  lemma SwingIndex(s: State, t: Tid)
    requires ChainOk(s.chain, s.next, s.data) && EndsOk(s) && PcsOk(s) && Enabled(s, t, SwingHead)
    requires s.pcs[t].next != NULL
    ensures var pc := s.pcs[t];
            pc.PopSwing? && pc.i == s.hi && s.hi < s.ti && s.chain[s.hi + 1] == pc.next && s.head in s.data
  {
    assert PcOk(s.pcs[t], s);
    hide PcsOk, NewOk, PcOk;
    SameIndex(s.chain, s.pcs[t].i, s.hi);
  }

  lemma SameIndex<T>(s: seq<T>, i: nat, j: nat)
    requires Distinct(s) && i < |s| && j < |s| && s[i] == s[j]
    ensures i == j
  {}

  lemma SwingHeadEnds(s: State, t: Tid)
    requires Inv(s) && Enabled(s, t, SwingHead) && s.pcs[t].next != NULL
    ensures s.pcs[t].i == s.hi && s.hi < s.ti
    ensures var s' := Do(s, t, SwingHead);
            ChainOk(s'.chain, s'.next, s'.data) && EndsOk(s') && PoppedOk(s')
  {
    SwingIndex(s, t);
    hide PcsOk, PcOk, NewOk, Enabled, ChainOk;
    SwingPopped(s);
  }

  lemma SwingPopped(s: State)
    requires PoppedOk(s) && EndsOk(s) && s.head in s.data
    ensures forall k :: 0 <= k <= s.hi && s.chain[k] in s.data ==>
              (s.popped + [s.data[s.head]])[k] == s.data[s.chain[k]]
  {}

  lemma SwingHeadPcs(s: State, t: Tid)
    requires PcsOk(s) && Enabled(s, t, SwingHead) && s.pcs[t].i == s.hi
    ensures PcsOk(Do(s, t, SwingHead))
  {
    var s' := Do(s, t, SwingHead);
    assert forall x: Addr :: NewOk(s', x) <==> NewOk(s, x);
    PcsMove(s, s', t);
  }

  lemma StepKeeps(s: State, t: Tid, a: Action)
    requires Inv(s) && Enabled(s, t, a) && !NullSwing(s, t, a)
    ensures Inv(Do(s, t, a))
  {
    hide Inv;
    match a
    case StartPush(node, value) => StartPushKeeps(s, t, node, value);
    case SwingTail => SwingTailKeeps(s, t);
    case FinishPush => FinishPushKeeps(s, t);
    case HelpTail => HelpTailKeeps(s, t);
    case LinkCas => LinkKeeps(s, t);
    case SwingHead => SwingHeadKeeps(s, t);
    case _ => ReadKeeps(s, t, a);
  }

  /** The head is lost once it is null: a pop that loads it cannot go on, so no swap succeeds. */
  lemma NullHeadStays(s: State, t: Tid, a: Action)
    requires Enabled(s, t, a) && s.head == NULL && NULL !in s.data
    ensures Do(s, t, a).head == NULL && NULL !in Do(s, t, a).data
  {}

  lemma NullSwingLoses(s: State, t: Tid, a: Action)
    requires Inv(s) && Enabled(s, t, a)
    ensures Do(s, t, a).head == NULL <==> NullSwing(s, t, a)
    ensures NULL !in Do(s, t, a).data
    ensures s.guarded ==> !NullSwing(s, t, a)
  {
    hide ChainOk, PoppedOk, NewOk;
    assert PcOk(s.pcs[t], s);
    HeadIsANode(s);
  }

  lemma HeadIsANode(s: State)
    requires ChainOk(s.chain, s.next, s.data) && EndsOk(s)
    ensures s.head != NULL
  {}

  /** No pop of the run swings the head to null. */
  ghost predicate NoNullSwing(states: seq<State>, run: seq<(Tid, Action)>)
    requires |states| == |run| + 1
  {
    forall i :: 0 <= i < |run| ==> !NullSwing(states[i], run[i].0, run[i].1)
  }

  lemma {:induction false} PathKeeps(states: seq<State>, run: seq<(Tid, Action)>, n: nat)
    requires Follows(states, run) && n <= |run|
    ensures NULL !in states[n].data
    ensures Inv(states[n]) <==> states[n].head != NULL
    ensures Inv(states[n]) <==> forall i :: 0 <= i < n ==> !NullSwing(states[i], run[i].0, run[i].1)
    ensures states[n].guarded == states[0].guarded && (states[n].guarded ==> Inv(states[n]))
  {
    hide Inv, NullSwing, Enabled, Do;
    if n == 0 {
      InitInv(states[0]);
      InvParts(states[0]);
    } else {
      var r, t, a := states[n - 1], run[n - 1].0, run[n - 1].1;
      PathKeeps(states, run, n - 1);
      assert Step(r, t, a, states[n]);
      if Inv(r) {
        NullSwingLoses(r, t, a);
        if !NullSwing(r, t, a) { StepKeeps(r, t, a); }
      } else {
        NullHeadStays(r, t, a);
      }
      if Inv(states[n]) { InvParts(states[n]); }
    }
  }

  lemma InvParts(s: State)
    requires Inv(s)
    ensures s.hi < |s.chain| && s.head != NULL && NULL !in s.data
  {
    HeadIsANode(s);
  }

  /** The invariant holds in every reachable state with a head. */
  lemma RunKeeps(run: seq<(Tid, Action)>, s: State)
    requires Reaches(run, s)
    ensures Inv(s) <==> s.head != NULL
    ensures s.guarded ==> Inv(s)
  {
    hide Inv;
    var states :| Follows(states, run) && Last(states) == s;
    PathKeeps(states, run, |run|);
  }

  // ---------------------------------------------------------------- what the queue promises

  /** What a step does to a first-in first-out queue of nodes that no node ever leaves. */
  ghost predicate QueueStep(s: State, t: Tid, a: Action, s': State) {
    && s.chain <= s'.chain
    && match a
       case LinkCas => t in s.pcs && s.pcs[t].PushLink? && Contents(s') == Contents(s) + [s.pcs[t].node]
       case SwingHead => Contents(s) != [] && s'.head == Contents(s)[0] && Contents(s') == Contents(s)[1..]
       case _ => Contents(s') == Contents(s)
  }

  /** The links from the head spell out a queue; linking a node appends it, moving the head takes
      the oldest out, and nothing else changes it, except for a pop that swings the head to null. */
  lemma StepRefinesQueue(run: seq<(Tid, Action)>, s: State, t: Tid, a: Action)
    requires Reaches(run, s) && s.head != NULL && Enabled(s, t, a)
    ensures QueueStep(s, t, a, Do(s, t, a)) <==> !NullSwing(s, t, a)
    ensures QueueStep(s, t, a, Do(s, t, a)) <==> Do(s, t, a).head != NULL
    ensures s.guarded ==> QueueStep(s, t, a, Do(s, t, a))
  {
    hide Inv, Do, NullSwing, Enabled, QueueStep, Reaches;
    RunKeeps(run, s);
    NullSwingLoses(s, t, a);
    InvParts(s);
    if NullSwing(s, t, a) {
      NullIsNotQueued(s, t, a);
    } else {
      StepKeeps(s, t, a);
      InvParts(Do(s, t, a));
      IsQueueStep(s, t, a);
    }
  }

  lemma NullIsNotQueued(s: State, t: Tid, a: Action)
    requires Inv(s) && Enabled(s, t, a) && NullSwing(s, t, a)
    ensures !QueueStep(s, t, a, Do(s, t, a))
  {
    hide PcsOk, PoppedOk;
  }

  lemma IsQueueStep(s: State, t: Tid, a: Action)
    requires Inv(s) && Enabled(s, t, a) && !NullSwing(s, t, a) && s.hi < |s.chain|
    ensures QueueStep(s, t, a, Do(s, t, a))
  {
    hide Inv;
    if a.SwingHead? {
      SwingHeadKeeps(s, t);
      SwingTakesOldest(s, t);
    } else if a.LinkCas? {
      LinkAppends(s, t);
    } else {
      OthersKeepTheChain(s, t, a);
    }
  }

  lemma OthersKeepTheChain(s: State, t: Tid, a: Action)
    requires Enabled(s, t, a) && !a.SwingHead? && !a.LinkCas?
    ensures Do(s, t, a).chain == s.chain && Contents(Do(s, t, a)) == Contents(s)
  {
    hide Do;
  }

  /** As written, the queue works through a whole run exactly if no pop in it swings the head to a
      null it read before a push: exactly then every step is a step of the queue, the invariant
      holds at the end, and the head is not null.  A lost head is never found again. */
  lemma QueueIsLostExactly(states: seq<State>, run: seq<(Tid, Action)>)
    requires Follows(states, run)
    ensures NoNullSwing(states, run) <==> Inv(Last(states))
    ensures NoNullSwing(states, run) <==> Last(states).head != NULL
    ensures NoNullSwing(states, run) <==>
              forall i :: 0 <= i < |run| ==> QueueStep(states[i], run[i].0, run[i].1, states[i + 1])
    ensures states[0].guarded ==> NoNullSwing(states, run)
  {
    hide Inv, NullSwing, QueueStep, Enabled, Do;
    PathKeeps(states, run, |run|);
    if NoNullSwing(states, run) {
      forall i | 0 <= i < |run| ensures QueueStep(states[i], run[i].0, run[i].1, states[i + 1]) {
        StepOfRun(states, run, i);
      }
    } else {
      var i := FirstNullSwing(states, run, |run|);
      StepOfRun(states, run, i);
    }
  }

  /** Up to the first null swing, the steps of a run are judged one by one. */
  lemma StepOfRun(states: seq<State>, run: seq<(Tid, Action)>, i: nat)
    requires Follows(states, run) && i < |run|
    requires forall j :: 0 <= j < i ==> !NullSwing(states[j], run[j].0, run[j].1)
    ensures QueueStep(states[i], run[i].0, run[i].1, states[i + 1]) <==> !NullSwing(states[i], run[i].0, run[i].1)
  {
    hide Inv, NullSwing, QueueStep, Enabled, Do;
    PathKeeps(states, run, i);
    PrefixReaches(states, run, i);
    assert Step(states[i], run[i].0, run[i].1, states[i + 1]);
    StepRefinesQueue(run[..i], states[i], run[i].0, run[i].1);
  }

  lemma PrefixReaches(states: seq<State>, run: seq<(Tid, Action)>, i: nat)
    requires Follows(states, run) && i <= |run|
    ensures Reaches(run[..i], states[i])
  {
    hide Step;
    assert Follows(states[..i + 1], run[..i]) && Last(states[..i + 1]) == states[i];
  }

  lemma {:induction false} FirstNullSwing(states: seq<State>, run: seq<(Tid, Action)>, n: nat) returns (i: nat)
    requires n <= |run| < |states| && exists j :: 0 <= j < n && NullSwing(states[j], run[j].0, run[j].1)
    ensures i < n && NullSwing(states[i], run[i].0, run[i].1)
    ensures forall j :: 0 <= j < i ==> !NullSwing(states[j], run[j].0, run[j].1)
  {
    hide NullSwing;
    if exists j :: 0 <= j < n - 1 && NullSwing(states[j], run[j].0, run[j].1) {
      i := FirstNullSwing(states, run, n - 1);
    } else {
      i := n - 1;
    }
  }

  lemma LinkAppends(s: State, t: Tid)
    requires Enabled(s, t, LinkCas) && s.hi < |s.chain|
    ensures s.pcs[t].PushLink? && s.chain <= Do(s, t, LinkCas).chain
    ensures Contents(Do(s, t, LinkCas)) == Contents(s) + [s.pcs[t].node]
  {}

  lemma SwingTakesOldest(s: State, t: Tid)
    requires Inv(s) && Enabled(s, t, SwingHead) && s.pcs[t].i == s.hi < s.ti && s.pcs[t].next != NULL
    ensures var s' := Do(s, t, SwingHead);
            Contents(s) != [] && s'.head == Contents(s)[0] && s'.hi < |s'.chain| && Contents(s') == Contents(s)[1..]
  {
    assert PcOk(s.pcs[t], s);
  }

  /** The links spell out the queue: from the head through every node in it to null. */
  lemma ListIsWellFormed(run: seq<(Tid, Action)>, s: State)
    requires Reaches(run, s) && s.head != NULL
    ensures s.hi < |s.chain| && s.head == s.chain[s.hi]
    ensures Spells(s.next, s.head, Contents(s))
    ensures TailIsNearTheEnd(s)
  {
    hide PcsOk, Spells;
    RunKeeps(run, s);
    SpellsFrom(s.chain, s.next, s.data, s.hi);
    hide ChainOk;
    TailPlace(s);
  }

  /** The tail is the last node of the list from the head, or the one before. */
  predicate TailIsNearTheEnd(s: State)
    requires s.hi < |s.chain|
  {
    var list := [s.head] + Contents(s);
    s.tail == Last(list) || (|list| > 1 && s.tail == Last(ButLast(list)))
  }

  lemma TailPlace(s: State)
    requires EndsOk(s)
    ensures TailIsNearTheEnd(s)
  {
    var list := [s.head] + Contents(s);
    assert forall k :: 0 <= k < |list| ==> list[k] == s.chain[s.hi + k];
    assert list[s.ti - s.hi] == s.tail;
  }

  ghost predicate Spells(next: map<Addr, Addr>, head: Addr, list: seq<Addr>)
    decreases |list|
  {
    && head != NULL && head in next
    && if list == [] then next[head] == NULL else next[head] == list[0] && Spells(next, list[0], list[1..])
  }

  lemma {:induction false} SpellsFrom(chain: seq<Addr>, next: map<Addr, Addr>, data: map<Addr, Data>, h: nat)
    requires ChainOk(chain, next, data) && h < |chain|
    ensures Spells(next, chain[h], chain[h + 1..])
    decreases |chain| - h
  {
    assert next[chain[h]] == LinkAt(chain, h);
    if h + 1 < |chain| {
      SpellsFrom(chain, next, data, h + 1);
      assert chain[h + 1..][1..] == chain[h + 2..];
    }
  }

  /** A pop that answers "empty" has seen the queue empty at the moment it read next, when LoadHeadNext
      recorded the nodes in it. */
  lemma EmptyWasTrue(run: seq<(Tid, Action)>, s: State, t: Tid)
    requires Reaches(run, s) && s.head != NULL && t in s.pcs && s.pcs[t].PopEmpty?
    ensures s.pcs[t].seen == []
  {
    RunKeeps(run, s);
    assert PcOk(s.pcs[t], s);
  }

  function Values(nodes: seq<Addr>, data: map<Addr, Data>): (r: seq<Data>)
    requires forall x :: x in nodes ==> x in data
    ensures |r| == |nodes| && forall k :: 0 <= k < |r| ==> r[k] == data[nodes[k]]
  {
    seq(|nodes|, k requires 0 <= k < |nodes| => data[nodes[k]])
  }

  /** pop returns the value of the dummy it removes (line 55), so the values popped lag one behind:
      first whatever the initial dummy holds, then the values pushed, in order. */
  lemma ValuesLagByOne(run: seq<(Tid, Action)>, s: State)
    requires Reaches(run, s) && s.head != NULL
    ensures s.chain != [] && forall x :: x in s.chain ==> x in s.data
    ensures s.popped <= [s.data[s.chain[0]]] + Values(s.chain[1..], s.data)
    ensures |s.popped| == s.hi
  {
    hide PcsOk;
    RunKeeps(run, s);
    var all := [s.data[s.chain[0]]] + Values(s.chain[1..], s.data);
    assert forall k :: 0 <= k < |all| ==> all[k] == s.data[s.chain[k]];
  }

  /** So the queue returns values first in, first out exactly as far as they agree with themselves
      shifted by one: all values popped so far, and the first of them, equal the dummy's. */
  lemma FifoOnlyIfConstant(run: seq<(Tid, Action)>, s: State)
    requires Reaches(run, s) && s.head != NULL
    ensures s.chain != [] && forall x :: x in s.chain ==> x in s.data
    ensures s.hi < |s.chain| && (s.popped <= Values(s.chain[1..], s.data)
              <==> forall k :: 0 <= k <= s.hi ==> s.data[s.chain[k]] == s.data[s.chain[0]])
  {
    hide PcsOk;
    RunKeeps(run, s);
    var pushed := Values(s.chain[1..], s.data);
    assert forall k :: 0 <= k < |pushed| ==> pushed[k] == s.data[s.chain[k + 1]];
    if s.popped <= pushed { AllSame(s, s.hi); }
  }

  lemma {:induction false} AllSame(s: State, n: nat)
    requires n <= s.hi < |s.chain| && s.hi == |s.popped| && forall x :: x in s.chain ==> x in s.data
    requires forall k :: 0 <= k < s.hi ==> s.popped[k] == s.data[s.chain[k]] == s.data[s.chain[k + 1]]
    ensures forall k :: 0 <= k <= n ==> s.data[s.chain[k]] == s.data[s.chain[0]]
  {
    if n > 0 { AllSame(s, n - 1); assert s.popped[n - 1] == s.data[s.chain[n]]; }
  }

  // ---------------------------------------------------------------- progress

  /** The next step of a push that runs alone and whose swaps do not fail spuriously. */
  function SoloStep(s: State, t: Tid): (r: State)
    requires t in s.pcs
    ensures t in r.pcs
  {
    var a := match s.pcs[t]
             case PushTop(_) => LoadTail
             case PushGotTail(_, _, _) => LoadTailNext
             case PushSwing(_, _, _, _) => SwingTail
             case PushLink(_, tail, _) => if tail in s.next && s.next[tail] == NULL then LinkCas else LinkFail
             case _ => FinishPush;
    if Enabled(s, t, a) then Do(s, t, a) else s
  }

  function Solo(s: State, t: Tid, n: nat): State
    requires t in s.pcs
    decreases n
  {
    if n == 0 then s else Solo(SoloStep(s, t), t, n - 1)
  }

  /** A push at the top of its loop that runs alone links its node and returns within two rounds:
      four steps if the tail is at the end, seven if it first has to help the tail on. */
  lemma SoloPushFinishes(run: seq<(Tid, Action)>, s: State, t: Tid)
    requires Reaches(run, s) && s.head != NULL && t in s.pcs && s.pcs[t].PushTop?
    ensures var s' := Solo(s, t, if s.ti + 1 == |s.chain| then 4 else 7);
            t in s'.pcs && s'.pcs[t] == Idle && s'.chain == s.chain + [s.pcs[t].node] && s'.tail == s.pcs[t].node
  {
    hide SoloStep, Inv;
    RunKeeps(run, s);
    if s.ti + 1 == |s.chain| {
      SoloAtTheEnd(s, t);
    } else {
      SoloHelps(s, t);
      var s3 := SoloStep(SoloStep(SoloStep(s, t), t), t);
      SoloAtTheEnd(s3, t);
      SoloThree(s, t, 4);
    }
  }

  lemma SoloThree(s: State, t: Tid, n: nat)
    requires t in s.pcs
    ensures Solo(s, t, n + 3) == Solo(SoloStep(SoloStep(SoloStep(s, t), t), t), t, n)
  {
    hide SoloStep;
    var s1 := SoloStep(s, t);
    var s2 := SoloStep(s1, t);
    assert Solo(s, t, n + 3) == Solo(s1, t, n + 2);
    assert Solo(s1, t, n + 2) == Solo(s2, t, n + 1);
  }

  lemma SoloAtTheEnd(s: State, t: Tid)
    requires Inv(s) && t in s.pcs && s.pcs[t].PushTop? && s.ti + 1 == |s.chain|
    ensures var s' := Solo(s, t, 4);
            t in s'.pcs && s'.pcs[t] == Idle && s'.chain == s.chain + [s.pcs[t].node] && s'.tail == s.pcs[t].node
  {
    var node := s.pcs[t].node;
    var s2 := s.(pcs := s.pcs[t := PushLink(node, s.tail, s.ti)]);
    SoloLoads(s, t);
    SoloLinks(s2, t);
    hide SoloStep, Inv;
    SoloThree(s, t, 1);
    var s3 := SoloStep(SoloStep(SoloStep(s, t), t), t);
    assert Solo(s3, t, 1) == Solo(SoloStep(s3, t), t, 0);
  }

  /** At the end of the list the first two steps find a null next. */
  lemma SoloLoads(s: State, t: Tid)
    requires Inv(s) && t in s.pcs && s.pcs[t].PushTop? && s.ti + 1 == |s.chain|
    ensures SoloStep(SoloStep(s, t), t) == s.(pcs := s.pcs[t := PushLink(s.pcs[t].node, s.tail, s.ti)])
    ensures s.tail in s.next && s.next[s.tail] == NULL
  {
    hide PcsOk, PoppedOk;
    assert s.next[s.chain[s.ti]] == LinkAt(s.chain, s.ti);
    var s1 := s.(pcs := s.pcs[t := PushGotTail(s.pcs[t].node, s.tail, s.ti)]);
    assert SoloStep(s, t) == s1;
    assert s1.pcs[t := PushLink(s.pcs[t].node, s.tail, s.ti)] == s.pcs[t := PushLink(s.pcs[t].node, s.tail, s.ti)];
  }

  lemma SoloLinks(s: State, t: Tid)
    requires t in s.pcs && s.pcs[t].PushLink? && s.pcs[t].tail == s.tail && s.tail in s.next && s.next[s.tail] == NULL
    requires s.pcs[t].node in s.next
    ensures var s' := SoloStep(SoloStep(s, t), t);
            s'.pcs[t] == Idle && s'.chain == s.chain + [s.pcs[t].node] && s'.tail == s.pcs[t].node
  {
    var s1 := SoloStep(s, t);
    assert s1 == Do(s, t, LinkCas);
    assert SoloStep(s1, t) == Do(s1, t, FinishPush);
  }

  /** Otherwise the first three steps move the tail to the end, and nothing else. */
  lemma SoloHelps(s: State, t: Tid)
    requires Inv(s) && t in s.pcs && s.pcs[t].PushTop? && s.ti + 1 != |s.chain|
    ensures var s' := SoloStep(SoloStep(SoloStep(s, t), t), t);
            && Inv(s') && s'.ti + 1 == |s'.chain| && s'.chain == s.chain && s'.pcs[t] == s.pcs[t]
  {
    hide PcsOk, PoppedOk;
    assert s.next[s.chain[s.ti]] == LinkAt(s.chain, s.ti);
    var s1 := Do(s, t, LoadTail);
    StepKeeps(s, t, LoadTail);
    assert SoloStep(s, t) == s1;
    var s2 := Do(s1, t, LoadTailNext);
    StepKeeps(s1, t, LoadTailNext);
    assert SoloStep(s1, t) == s2;
    StepKeeps(s2, t, SwingTail);
    assert SoloStep(s2, t) == Do(s2, t, SwingTail);
  }

  // ---------------------------------------------------------------- two runs

  lemma Extend(run: seq<(Tid, Action)>, r: State, t: Tid, a: Action)
    requires Reaches(run, r) && Enabled(r, t, a)
    ensures Reaches(run + [(t, a)], Do(r, t, a))
  {
    hide Do, Enabled;
    var s := Do(r, t, a);
    var states :| Follows(states, run) && Last(states) == r;
    var run', states' := run + [(t, a)], states + [s];
    assert Step(r, t, a, s);
    forall i | 0 <= i < |run'| ensures Step(states'[i], run'[i].0, run'[i].1, states'[i + 1]) {
      assert i < |run| ==> Step(states[i], run[i].0, run[i].1, states[i + 1]);
    }
    assert Follows(states', run') && Last(states') == s;
  }

  lemma InitReaches(s: State)
    requires IsInit(s)
    ensures Reaches([], s)
  {
    assert Follows([s], []) && Last([s]) == s;
  }

  /** A push that runs alone while the queue is empty: steps 1 to 5. */
  lemma PushOne(run: seq<(Tid, Action)>, s: State, t: Tid, node: Addr, value: Data)
    returns (run': seq<(Tid, Action)>, s': State)
    requires Reaches(run, s) && t in s.pcs && s.pcs[t] == Idle && node != NULL && node !in s.next
    requires s.tail in s.next && s.next[s.tail] == NULL
    ensures Reaches(run', s')
    ensures s' == s.(next := s.next[node := NULL][s.tail := node], data := s.data[node := value], tail := node,
                     chain := s.chain + [node], ti := s.ti + 1)
  {
    hide Reaches;
    var s1 := Do(s, t, StartPush(node, value));
    Extend(run, s, t, StartPush(node, value));
    var r1 := run + [(t, StartPush(node, value))];
    var s2 := Do(s1, t, LoadTail);
    Extend(r1, s1, t, LoadTail);
    var r2 := r1 + [(t, LoadTail)];
    var s3 := Do(s2, t, LoadTailNext);
    Extend(r2, s2, t, LoadTailNext);
    var r3 := r2 + [(t, LoadTailNext)];
    var s4 := Do(s3, t, LinkCas);
    Extend(r3, s3, t, LinkCas);
    var r4 := r3 + [(t, LinkCas)];
    s' := Do(s4, t, FinishPush);
    Extend(r4, s4, t, FinishPush);
    run' := r4 + [(t, FinishPush)];
    assert s'.pcs == s.pcs;
  }

  /** The loads of the head and of its next, by a pop that nothing disturbs. */
  lemma PopReads(run: seq<(Tid, Action)>, s: State, t: Tid) returns (run': seq<(Tid, Action)>, s': State)
    requires Reaches(run, s) && t in s.pcs && s.pcs[t] == Idle && s.head in s.next
    ensures Reaches(run', s')
    ensures s' == s.(pcs := s.pcs[t := PopGotNext(s.head, s.next[s.head], s.hi, Contents(s))])
  {
    hide Reaches, Contents;
    var s1 := Do(s, t, StartPop);
    Extend(run, s, t, StartPop);
    var r1 := run + [(t, StartPop)];
    var s2 := Do(s1, t, LoadHead);
    Extend(r1, s1, t, LoadHead);
    var r2 := r1 + [(t, LoadHead)];
    s' := Do(s2, t, LoadHeadNext);
    Extend(r2, s2, t, LoadHeadNext);
    run' := r2 + [(t, LoadHeadNext)];
    assert s'.pcs == s.pcs[t := s'.pcs[t]];
    SameContents(s, s2);
  }

  lemma SameContents(s: State, s': State)
    requires s'.chain == s.chain && s'.hi == s.hi
    ensures Contents(s') == Contents(s)
  {}

  /** The test of the tail and the swap of the head. */
  lemma PopSwings(run: seq<(Tid, Action)>, s: State, t: Tid) returns (run': seq<(Tid, Action)>, s': State)
    requires Reaches(run, s) && t in s.pcs && s.pcs[t].PopGotNext? && s.pcs[t].head == s.head != s.tail
    requires (s.guarded ==> s.pcs[t].next != NULL) && s.head in s.data
    ensures Reaches(run', s')
    ensures s' == s.(head := s.pcs[t].next, hi := s.pcs[t].i + 1, popped := s.popped + [s.data[s.head]],
                     pcs := s.pcs[t := Idle])
  {
    hide Reaches;
    var s1 := Do(s, t, CompareTail);
    Extend(run, s, t, CompareTail);
    var r1 := run + [(t, CompareTail)];
    s' := Do(s1, t, SwingHead);
    Extend(r1, s1, t, SwingHead);
    run' := r1 + [(t, SwingHead)];
    assert s'.pcs == s.pcs[t := Idle];
  }

  /** As written, a pop that read next before the first push and the tail after it loses the queue,
      whichever threads, node and value these are. */
  lemma UnguardedPopLosesTheQueue(s0: State, t: Tid, u: Tid, node: Addr, value: Data)
    requires IsInit(s0) && !s0.guarded && {t, u} <= s0.pcs.Keys && t != u && node != NULL && node != s0.head
    ensures exists run, s :: Reaches(run, s) && s.head == NULL && s.chain == [s0.head, node]
  {
    hide Reaches, Contents;
    InitReaches(s0);
    var r1, s1 := PopReads([], s0, t);
    var r2, s2 := PushOne(r1, s1, u, node, value);
    var r3, s3 := PopSwings(r2, s2, t);
    assert Reaches(r3, s3);
  }

  /** The values do come out wrong: the first one pushed is answered with the dummy's. */
  lemma FirstPopReturnsTheDummysValue(s0: State, t: Tid, node: Addr, value: Data)
    requires IsInit(s0) && t in s0.pcs && node != NULL && node != s0.head
    ensures exists run, s :: Reaches(run, s) && s.chain == [s0.head, node] && s.data == s0.data[node := value]
                             && s.popped == [s0.data[s0.head]] && Contents(s) == []
  {
    hide Reaches;
    InitReaches(s0);
    var r1, s1 := PushOne([], s0, t, node, value);
    var r2, s2 := PopReads(r1, s1, t);
    var r3, s3 := PopSwings(r2, s2, t);
    assert Reaches(r3, s3);
  }
}
