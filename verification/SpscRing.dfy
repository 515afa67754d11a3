/** The ring of idea/circular_queue.h between one producer and one consumer, as a step machine.  A
    step is one access to shared memory.  The indices are atomics with release stores and acquire
    loads: a thread finds its own last store, and of the other thread's stores any that is not older
    than one it has found before.

    "pushed" and "popped" are history. */
module SpscRing {
  import opened Bits
  import opened Prelude

  type Item = int

  /** The producer in Push (lines 31-42): idle; before loading the head; before writing the slot; before
      storing the tail. */
  datatype Producer =
    | Resting
    | Checking(item: Item, tail: nat, next: nat)
    | Writing(item: Item, tail: nat, next: nat)
    | Publishing(item: Item, tail: nat, next: nat)

  /** The consumer in Pop (lines 46-55). */
  datatype Consumer = Waiting | Looking(head: nat) | Reading(head: nat) | Freeing(head: nat, item: Item)

  /** "heads" and "tails" are the modification orders of the two indices; "seenHead" and "seenTail" say
      which store of the other's index each thread has found last. */
  datatype State = State(
    capacity: nat, slots: seq<Item>, heads: seq<nat>, tails: seq<nat>, seenHead: nat, seenTail: nat,
    producer: Producer, consumer: Consumer, pushed: seq<Item>, popped: seq<Item>)

  ghost predicate IsInit(s: State) {
    && IsPow2(s.capacity) && |s.slots| == s.capacity
    && s.heads == [0] && s.tails == [0] && s.seenHead == 0 && s.seenTail == 0
    && s.producer == Resting && s.consumer == Waiting && s.pushed == [] && s.popped == []
  }

  datatype Action =
    | StartPush(item: Item) | LoadHead(h: nat) | WriteSlot | StoreTail
    | StartPop | LoadTail(t: nat) | ReadSlot | StoreHead

  predicate Enabled(s: State, a: Action) {
    && s.capacity > 0 && s.heads != [] && s.tails != []
    && match a
       case StartPush(_) => s.producer.Resting?
       case LoadHead(h) => s.producer.Checking? && s.seenHead <= h < |s.heads|
       case WriteSlot => s.producer.Writing? && s.producer.tail < |s.slots|
       case StoreTail => s.producer.Publishing?
       case StartPop => s.consumer.Waiting?
       case LoadTail(t) => s.consumer.Looking? && s.seenTail <= t < |s.tails|
       case ReadSlot => s.consumer.Reading? && s.consumer.head < |s.slots|
       case StoreHead => s.consumer.Freeing?
  }

  function Do(s: State, a: Action): State
    requires Enabled(s, a)
  {
    var mask, p, c := s.capacity - 1, s.producer, s.consumer;
    match a
    case StartPush(item) => s.(producer := Checking(item, Last(s.tails), And(Last(s.tails) + 1, mask)))
    case LoadHead(h) =>
      s.(seenHead := h, producer := if p.next != s.heads[h] then Writing(p.item, p.tail, p.next) else Resting)
    case WriteSlot => s.(slots := s.slots[p.tail := p.item], producer := Publishing(p.item, p.tail, p.next))
    case StoreTail => s.(tails := s.tails + [p.next], pushed := s.pushed + [p.item], producer := Resting)
    case StartPop => s.(consumer := Looking(Last(s.heads)))
    case LoadTail(t) => s.(seenTail := t, consumer := if c.head == s.tails[t] then Waiting else Reading(c.head))
    case ReadSlot => s.(consumer := Freeing(c.head, s.slots[c.head]))
    case StoreHead => s.(heads := s.heads + [And(c.head + 1, mask)], popped := s.popped + [c.item], consumer := Waiting)
  }

  ghost predicate Step(r: State, a: Action, s: State) {
    Enabled(r, a) && s == Do(r, a)
  }

  /** The states that a run passes through, from any state. */
  ghost predicate Path(states: seq<State>, run: seq<Action>) {
    && |states| == |run| + 1
    && forall i :: 0 <= i < |run| ==> Step(states[i], run[i], states[i + 1])
  }

  ghost predicate Follows(states: seq<State>, run: seq<Action>) {
    Path(states, run) && IsInit(states[0])
  }

  /** The run leads to s. */
  ghost predicate Reaches(run: seq<Action>, s: State) {
    exists states :: Follows(states, run) && Last(states) == s
  }

  // ---------------------------------------------------------------- indices and positions

  /** The slot of the k-th item. */
  function Slot(k: nat, n: nat): (r: nat)
    requires n > 0
    ensures r < n
  {
    k % n
  }

  /** Positions less than a whole turn apart have different slots. */
  lemma SlotsDiffer(a: nat, b: nat, n: nat)
    requires n > 0 && a < b < a + n
    ensures Slot(a, n) != Slot(b, n)
  {
    var q, r := a / n, a % n;
    assert a == n * q + r;
    if r + (b - a) < n { DivModUnique(b, n, q, r + (b - a)); }
    else { DivModUnique(b, n, q + 1, r + (b - a) - n); }
  }

  lemma SameSlot(a: nat, n: nat)
    requires n > 0
    ensures Slot(a + n, n) == Slot(a, n)
  {
    assert a == n * (a / n) + a % n;
    DivModUnique(a + n, n, a / n + 1, a % n);
  }

  lemma NextMod(k: nat, n: nat)
    requires n > 0
    ensures (Slot(k, n) + 1) % n == Slot(k + 1, n)
  {
    var q, r := k / n, k % n;
    assert k == n * q + r;
    if r + 1 < n {
      DivModUnique(k + 1, n, q, r + 1);
      DivModUnique(r + 1, n, 0, r + 1);
    } else {
      DivModUnique(k + 1, n, q + 1, 0);
      DivModUnique(r + 1, n, 1, 0);
    }
  }

  /** The mask finds the next slot. */
  lemma NextSlot(k: nat, n: nat)
    requires n > 0 && IsPow2(n)
    ensures And(Slot(k, n) + 1, n - 1) == Slot(k + 1, n)
  {
    NextMod(k, n);
    hide Slot;
    var e: nat :| n == Pow2(e);
    AndMask(Slot(k, n) + 1, e);
  }

  /** An index tells full from not full if at most n - 1 items can be outstanding. */
  lemma FullTest(h: nat, t: nat, n: nat)
    requires n > 0 && h <= t < h + n
    ensures Slot(t + 1, n) == Slot(h, n) <==> t == h + n - 1
    ensures Slot(t, n) == Slot(h, n) <==> t == h
  {
    if h < t { SlotsDiffer(h, t, n); }
    if t == h + n - 1 { SameSlot(h, n); } else { SlotsDiffer(h, t + 1, n); }
  }

  // ---------------------------------------------------------------- the invariant

  ghost predicate IndicesOk(stores: seq<nat>, n: nat)
    requires n > 0
  {
    stores != [] && forall k :: 0 <= k < |stores| ==> stores[k] == Slot(k, n)
  }

  /** The items in the slots are the pushed ones that have not been popped. */
  ghost predicate SlotsOk(slots: seq<Item>, n: nat, h: nat, t: nat, pushed: seq<Item>, popped: seq<Item>)
    requires n > 0
  {
    && |slots| == n && |pushed| == t && h <= t && popped == pushed[..h]
    && forall k :: h <= k < t ==> slots[Slot(k, n)] == pushed[k]
  }

  /** The views lag behind, but not so far that an index could be mistaken. */
  predicate ViewsOk(n: nat, h: nat, t: nat, seenHead: nat, seenTail: nat) {
    seenHead <= h <= seenTail <= t < seenHead + n
  }

  /** A producer past its check has room for one item more. */
  predicate ProducerOk(p: Producer, slots: seq<Item>, n: nat, t: nat, seenHead: nat)
    requires n > 0
  {
    match p
    case Resting => true
    case Checking(_, tail, next) => tail == Slot(t, n) && next == Slot(t + 1, n)
    case Writing(_, tail, next) => tail == Slot(t, n) && next == Slot(t + 1, n) && t + 1 < seenHead + n
    case Publishing(item, tail, next) =>
      && tail == Slot(t, n) && next == Slot(t + 1, n) && t + 1 < seenHead + n
      && |slots| == n && slots[tail] == item
  }

  /** A consumer past its check knows of an item that has been published. */
  predicate ConsumerOk(c: Consumer, n: nat, h: nat, seenTail: nat, pushed: seq<Item>)
    requires n > 0
  {
    match c
    case Waiting => true
    case Looking(head) => head == Slot(h, n)
    case Reading(head) => head == Slot(h, n) && h < seenTail
    case Freeing(head, item) => head == Slot(h, n) && h < seenTail && h < |pushed| && item == pushed[h]
  }

  ghost predicate Inv(s: State) {
    && s.capacity > 0 && IsPow2(s.capacity)
    && IndicesOk(s.heads, s.capacity) && IndicesOk(s.tails, s.capacity)
    && var h, t := |s.heads| - 1, |s.tails| - 1;
       && SlotsOk(s.slots, s.capacity, h, t, s.pushed, s.popped)
       && ViewsOk(s.capacity, h, t, s.seenHead, s.seenTail)
       && ProducerOk(s.producer, s.slots, s.capacity, t, s.seenHead)
       && ConsumerOk(s.consumer, s.capacity, h, s.seenTail, s.pushed)
  }

  lemma InitInv(s: State)
    requires IsInit(s)
    ensures Inv(s)
  {
    var e: nat :| s.capacity == Pow2(e);
    DivModUnique(0, s.capacity, 0, 0);
  }

  lemma StartKeeps(s: State, a: Action)
    requires Inv(s) && Enabled(s, a) && (a.StartPush? || a.StartPop?)
    ensures Inv(Do(s, a))
  {
    NextSlot(|s.tails| - 1, s.capacity);
    hide And, Slot, SlotsOk;
  }

  lemma LoadHeadKeeps(s: State, h: nat)
    requires Inv(s) && Enabled(s, LoadHead(h))
    ensures Inv(Do(s, LoadHead(h)))
  {
    FullTest(h, |s.tails| - 1, s.capacity);
    hide And, Slot, SlotsOk;
  }

  lemma LoadTailKeeps(s: State, t: nat)
    requires Inv(s) && Enabled(s, LoadTail(t))
    ensures Inv(Do(s, LoadTail(t)))
  {
    FullTest(|s.heads| - 1, t, s.capacity);
    hide And, Slot, SlotsOk;
  }

  lemma WriteKeeps(s: State)
    requires Inv(s) && Enabled(s, WriteSlot)
    ensures Inv(Do(s, WriteSlot))
  {
    var h, t, n := |s.heads| - 1, |s.tails| - 1, s.capacity;
    forall k | h <= k < t ensures Slot(k, n) != Slot(t, n) { SlotsDiffer(k, t, n); }
    hide And, Slot;
  }

  lemma PublishKeeps(s: State)
    requires Inv(s) && Enabled(s, StoreTail)
    ensures Inv(Do(s, StoreTail))
  {
    hide And, Slot;
  }

  lemma ReadKeeps(s: State)
    requires Inv(s) && Enabled(s, ReadSlot)
    ensures Inv(Do(s, ReadSlot))
  {
    hide And, Slot;
  }

  lemma FreeKeeps(s: State)
    requires Inv(s) && Enabled(s, StoreHead)
    ensures Inv(Do(s, StoreHead))
  {
    NextSlot(|s.heads| - 1, s.capacity);
    hide And, Slot;
    var h := |s.heads| - 1;
    assert s.pushed[..h] + [s.pushed[h]] == s.pushed[..h + 1];
  }

  lemma StepKeeps(s: State, a: Action)
    requires Inv(s) && Enabled(s, a)
    ensures Inv(Do(s, a))
  {
    hide Inv, Enabled, Do;
    match a
    case StartPush(_) => StartKeeps(s, a);
    case LoadHead(h) => LoadHeadKeeps(s, h);
    case WriteSlot => WriteKeeps(s);
    case StoreTail => PublishKeeps(s);
    case StartPop => StartKeeps(s, a);
    case LoadTail(t) => LoadTailKeeps(s, t);
    case ReadSlot => ReadKeeps(s);
    case StoreHead => FreeKeeps(s);
  }

  lemma {:induction false} PathKeeps(states: seq<State>, run: seq<Action>, i: nat)
    requires Follows(states, run) && i <= |run|
    ensures Inv(states[i])
  {
    hide Inv, Enabled, Do;
    if i == 0 {
      InitInv(states[0]);
    } else {
      PathKeeps(states, run, i - 1);
      assert Step(states[i - 1], run[i - 1], states[i]);
      StepKeeps(states[i - 1], run[i - 1]);
    }
  }

  lemma RunKeeps(run: seq<Action>, s: State)
    requires Reaches(run, s)
    ensures Inv(s)
  {
    var states :| Follows(states, run) && Last(states) == s;
    PathKeeps(states, run, |run|);
  }

  // ---------------------------------------------------------------- what the ring promises

  /** First in, first out: what has been popped is a prefix of what has been pushed, and the rest is at
      most one item less than the capacity. */
  lemma PoppedIsAPrefix(run: seq<Action>, s: State)
    requires Reaches(run, s)
    ensures s.popped <= s.pushed && |s.pushed| - |s.popped| < s.capacity
  {
    RunKeeps(run, s);
    hide And, Slot;
  }

  /** The items that Push was called with in the first n steps and has not refused. */
  function Asked(states: seq<State>, run: seq<Action>, n: nat): seq<Item>
    requires n <= |run| < |states|
  {
    if n == 0 then []
    else
      var before := Asked(states, run, n - 1);
      match run[n - 1]
      case StartPush(item) => before + [item]
      case LoadHead(_) => if states[n].producer.Resting? && before != [] then ButLast(before) else before
      case _ => before
  }

  /** What has been pushed is what Push was called with and has not refused, in that order, up to the
      call that is under way. */
  lemma {:induction false} PushedIsAsked(states: seq<State>, run: seq<Action>, n: nat)
    requires Follows(states, run) && n <= |run|
    ensures var s := states[n];
            Asked(states, run, n) == s.pushed + if s.producer.Resting? then [] else [s.producer.item]
  {
    hide And;
    if n > 0 {
      PushedIsAsked(states, run, n - 1);
      assert Step(states[n - 1], run[n - 1], states[n]);
    }
  }

  /** How many calls of Pop in the first n steps have not been refused. */
  function Granted(states: seq<State>, run: seq<Action>, n: nat): int
    requires n <= |run| < |states|
  {
    if n == 0 then 0
    else
      Granted(states, run, n - 1) + match run[n - 1]
                                    case StartPop => 1
                                    case LoadTail(_) => if states[n].consumer.Waiting? then -1 else 0
                                    case _ => 0
  }

  /** Each call of Pop that is not refused takes out one item. */
  lemma {:induction false} PoppedIsGranted(states: seq<State>, run: seq<Action>, n: nat)
    requires Follows(states, run) && n <= |run|
    ensures Granted(states, run, n) == |states[n].popped| + if states[n].consumer.Waiting? then 0 else 1
  {
    hide And;
    if n > 0 {
      PoppedIsGranted(states, run, n - 1);
      assert Step(states[n - 1], run[n - 1], states[n]);
    }
  }

  function PushLeft(p: Producer): nat {
    match p
    case Resting => 0
    case Checking(_, _, _) => 3
    case Writing(_, _, _) => 2
    case Publishing(_, _, _) => 1
  }

  function PopLeft(c: Consumer): nat {
    match c
    case Waiting => 0
    case Looking(_) => 3
    case Reading(_) => 2
    case Freeing(_, _) => 1
  }

  predicate ByProducer(a: Action) {
    a.StartPush? || a.LoadHead? || a.WriteSlot? || a.StoreTail?
  }

  /** The steps of one thread in a run. */
  function StepsOf(producer: bool, run: seq<Action>): nat {
    if run == [] then 0 else StepsOf(producer, ButLast(run)) + if ByProducer(Last(run)) == producer then 1 else 0
  }

  lemma StepsCount(s: State, a: Action)
    requires Enabled(s, a)
    ensures var s' := Do(s, a);
            && (!a.StartPush? ==>
                  PushLeft(s'.producer) + (if ByProducer(a) then 1 else 0) <= PushLeft(s.producer) <= 3)
            && (!a.StartPop? ==>
                  PopLeft(s'.consumer) + (if ByProducer(a) then 0 else 1) <= PopLeft(s.consumer) <= 3)
  {
    hide And;
  }

  lemma PathPrefix(states: seq<State>, run: seq<Action>)
    requires Path(states, run) && run != []
    ensures Path(ButLast(states), ButLast(run))
  {
    hide Step;
    forall i | 0 <= i < |run| - 1 ensures Step(ButLast(states)[i], ButLast(run)[i], ButLast(states)[i + 1]) {
      assert Step(states[i], run[i], states[i + 1]);
    }
  }

  /** Push and Pop return within four steps of their own, whatever the other thread does: after the
      first, a thread takes no more than three steps without starting another call. */
  lemma {:induction false} CallsAreWaitFree(states: seq<State>, run: seq<Action>)
    requires Path(states, run)
    ensures (forall i :: 0 <= i < |run| ==> !run[i].StartPush?) ==>
              StepsOf(true, run) + PushLeft(Last(states).producer) <= PushLeft(states[0].producer)
    ensures (forall i :: 0 <= i < |run| ==> !run[i].StartPop?) ==>
              StepsOf(false, run) + PopLeft(Last(states).consumer) <= PopLeft(states[0].consumer)
    decreases |run|
  {
    hide PushLeft, PopLeft, Do, Enabled, ByProducer;
    if run != [] {
      PathPrefix(states, run);
      CallsAreWaitFree(ButLast(states), ButLast(run));
      assert Step(states[|run| - 1], run[|run| - 1], states[|run|]);
      StepsCount(states[|run| - 1], run[|run| - 1]);
    }
  }

  /** A slot is not written while it is read. */
  lemma NoSlotIsWrittenWhileRead(run: seq<Action>, s: State)
    requires Reaches(run, s) && s.producer.Writing? && s.consumer.Reading?
    ensures s.producer.tail != s.consumer.head
  {
    RunKeeps(run, s);
    SlotsDiffer(|s.heads| - 1, |s.tails| - 1, s.capacity);
  }

  /** Neither thread needs to see the other's slot accesses in memory order: the store of the tail that a
      reader has found is later than the write of what it reads, and the store of the head that a writer
      has found is later than the read of what it overwrites. */
  lemma AccessesAreOrdered(run: seq<Action>, s: State)
    requires Reaches(run, s)
    ensures s.consumer.Reading? ==> |s.popped| < s.seenTail <= |s.pushed|
    ensures s.producer.Writing? ==> |s.pushed| + 1 - s.capacity < s.seenHead + 1 <= |s.popped| + 1
  {
    RunKeeps(run, s);
    hide And, Slot;
  }

  /** Push refuses exactly if, at the store of the head that it has found, no more room was left. */
  lemma PushRefusesWhenFull(run: seq<Action>, s: State, h: nat)
    requires Reaches(run, s) && Enabled(s, LoadHead(h))
    ensures h <= |s.popped|
    ensures Do(s, LoadHead(h)).producer.Resting? <==> |s.pushed| - h == s.capacity - 1
  {
    RunKeeps(run, s);
    FullTest(h, |s.tails| - 1, s.capacity);
    hide And, Slot, ConsumerOk, Reaches;
  }

  /** Pop refuses exactly if all that it has found pushed has been popped. */
  lemma PopRefusesWhenEmpty(run: seq<Action>, s: State, t: nat)
    requires Reaches(run, s) && Enabled(s, LoadTail(t))
    ensures t <= |s.pushed|
    ensures Do(s, LoadTail(t)).consumer.Waiting? <==> t == |s.popped|
  {
    RunKeeps(run, s);
    FullTest(|s.heads| - 1, t, s.capacity);
    hide And, Slot, ProducerOk, Reaches;
  }

  /** Neither thread ever waits for the other. */
  lemma NoThreadIsStuck(run: seq<Action>, s: State) returns (p: Action, c: Action)
    requires Reaches(run, s)
    ensures Enabled(s, p) && (p.StartPush? || p.LoadHead? || p.WriteSlot? || p.StoreTail?)
    ensures Enabled(s, c) && (c.StartPop? || c.LoadTail? || c.ReadSlot? || c.StoreHead?)
  {
    RunKeeps(run, s);
    hide And, Slot;
    p := match s.producer
      case Resting => StartPush(0)
      case Checking(_, _, _) => LoadHead(|s.heads| - 1)
      case Writing(_, _, _) => WriteSlot
      case Publishing(_, _, _) => StoreTail;
    c := match s.consumer
      case Waiting => StartPop
      case Looking(_) => LoadTail(|s.tails| - 1)
      case Reading(_) => ReadSlot
      case Freeing(_, _) => StoreHead;
  }
}
