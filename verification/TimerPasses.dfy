/** How the worker of the timer thread (idea/timer_thread.cpp, lines 204-264) gets through its passes over
    the buckets and the heap: every pass ends, whatever the other threads schedule meanwhile. */
module TimerPasses {
  import opened Prelude
  import opened TaskIds
  import opened PoolSpec
  import opened TimerThread
  import opened TimerInvariant
  import opened TimerSafety
  import opened TimerTheorems

  datatype Distance = Distance(scan: nat, walk: nat, heap: nat, rank: nat)

  predicate Less(d: Distance, e: Distance) {
    || d.scan < e.scan
    || (d.scan == e.scan && d.walk < e.walk)
    || (d.scan == e.scan && d.walk == e.walk && d.heap < e.heap)
    || (d.scan == e.scan && d.walk == e.walk && d.heap == e.heap && d.rank < e.rank)
  }

  /** The buckets still to be scanned, out of n. */
  function ScanLeft(w: WorkerPc, n: nat): nat {
    match w
    case Scanning(i) => if i <= n then 3 * (n - i) + 4 else 4
    case Locking(i) => if i <= n then 3 * (n - i) + 3 else 3
    case Visiting(i, _) => if i <= n then 3 * (n - i) + 2 else 2
    case Dropping(i, _) => if i <= n then 3 * (n - i) + 2 else 2
    case Advancing(i, _) => if i <= n then 3 * (n - i) + 2 else 2
    case _ => 0
  }

  function Rank(w: WorkerPc): nat {
    match w
    case Claiming(_, _) => 9
    case InFn(_) => 8
    case Recycling(_) => 7
    case HeapTop => 6
    case Discarding(_) => 5
    case Timing(_) => 5
    case Settling(_) => 4
    case Asleep(_) => 3
    case Advancing(_, _) => 3
    case Visiting(_, _) => 2
    case Dropping(_, _) => 1
    case Top => 1
    case _ => 0
  }

  function ToEnd(s: State): Distance {
    Distance(ScanLeft(s.worker, |s.buckets|), |s.walk|, |s.heap|, Rank(s.worker))
  }

  /** What a step of thread t leaves alone: the other threads and the worker. */
  ghost predicate Aside(s: State, t: Tid, s': State) {
    && (forall u :: u in s.clients && u != t ==> u in s'.clients && s'.clients[u] == s.clients[u])
    && s'.worker == s.worker && s'.walk == s.walk && s'.heap == s.heap && |s'.buckets| == |s.buckets|
    && (s.stop ==> s'.stop) && (s.notified ==> s'.notified)
  }

  lemma ClientStepsAside(s: State, t: Tid, c: ClientAction)
    requires ClientEnabled(s, t, c)
    ensures Aside(s, t, ClientDo(s, t, c))
  {
    hide MakeTaskId, VersionOf, SlotOf, Get, CanGet, Leave, Aside, Call, GetSlot, Fill, Bump, Stamp, Link, Check, Wake,
         Unschedule, SetStop, Notify, LeavePool;
    match c
    case AGetSlot(slot, src) => GetSlotAside(s, t, slot, src);
    case AFill => FillAside(s, t);
    case ABump => BumpAside(s, t);
    case AStamp => StampAside(s, t);
    case ALink => LinkAside(s, t);
    case ACheck => CheckAside(s, t);
    case AUnschedule(k) => UnscheduleAside(s, t, k);
    case _ => RestAside(s, t, c);
  }

  lemma GetSlotAside(s: State, t: Tid, slot: Slot, src: Source)
    requires CanGetSlot(s, t, slot, src)
    ensures Aside(s, t, GetSlot(s, t, slot, src))
  {
    hide Get, CanGet;
  }

  lemma StampAside(s: State, t: Tid)
    requires CanStamp(s, t)
    ensures Aside(s, t, Stamp(s, t))
  {
    hide MakeTaskId;
  }

  lemma LinkAside(s: State, t: Tid)
    requires CanLink(s, t)
    ensures Aside(s, t, Link(s, t))
  {}

  lemma UnscheduleAside(s: State, t: Tid, k: Ticket)
    requires CanUnschedule(s, t, k)
    ensures Aside(s, t, Unschedule(s, t, k))
  {
    hide VersionOf, SlotOf;
  }

  lemma CheckAside(s: State, t: Tid)
    requires CanCheck(s, t)
    ensures Aside(s, t, Check(s, t))
  {
    hide Aside;
    var pc := s.clients[t];
    if pc.rt < s.nearest {
      TimesAside(s, t, pc.rt, Waking(pc.ticket), s.issued);
    } else {
      TimesAside(s, t, s.nearest, Idle, s.issued + {pc.ticket});
    }
  }

  lemma TimesAside(s: State, t: Tid, nearest: Time, pc: ClientPc, issued: set<Ticket>)
    ensures Aside(s, t, s.(nearest := nearest, clients := s.clients[t := pc], issued := issued))
  {}

  lemma FillAside(s: State, t: Tid)
    requires CanFill(s, t)
    ensures Aside(s, t, Fill(s, t))
  {}

  lemma BumpAside(s: State, t: Tid)
    requires CanBump(s, t)
    ensures Aside(s, t, Bump(s, t))
  {}

  lemma RestAside(s: State, t: Tid, c: ClientAction)
    requires ClientEnabled(s, t, c) && (c.ACall? || c.AWake? || c.ASetStop? || c.ANotify? || c.ALeave?)
    ensures Aside(s, t, ClientDo(s, t, c))
  {
    hide Leave, GetSlot, Fill, Bump, Stamp, Link, Check, Unschedule, CanGetSlot, CanStamp, CanLink, CanUnschedule;
  }

  /** The worker is in its pass over the buckets and the heap. */
  predicate InPass(w: WorkerPc) {
    || w.Scanning? || w.Locking? || w.Visiting? || w.Dropping? || w.Advancing? || w.HeapTop? || w.Discarding?
    || w.Timing? || w.Claiming? || w.InFn? || w.Recycling?
  }

  /** A pass ends with an empty heap or with a task that is not due. */
  predicate PassEnds(w: WorkerPc, w': WorkerPc) {
    InPass(w) && !InPass(w') ==> (w.HeapTop? && w' == Settling(MAX_TIME)) || (w.Timing? && w'.Settling?)
  }

  /** What a step of the worker does, but for the reset: it brings the worker nearer to the end of its
      pass over the buckets and the heap, where the stop flag decides between the exit and the reset
      that begins the next pass. */
  ghost predicate Nearer(s: State, s': State) {
    && s'.stop == s.stop && (s.notified ==> s'.notified) && s'.clients == s.clients
    && (s'.worker.CheckFailed? || s'.worker.Impossible?
        || (Less(ToEnd(s'), ToEnd(s)) && PassEnds(s.worker, s'.worker)
            && (s'.worker.Resetting? ==> s.worker.Top? && !s.stop) && (s'.worker.Exited? ==> s.worker.Top? && s.stop)
            && (InPass(s.worker) ==> s'.nearest == s.nearest)))
  }

  lemma WorkerStepsNearer(s: State, w: WorkerAction)
    requires !s.worker.Resetting? && WorkerEnabled(s, w)
    requires WalkerOk(s.worker, s.next, s.walk, s.hist, s.pool, |s.buckets|)
    requires HeapOk(s.heap, s.hist) && RunnerOk(s.worker, s.hist, s.info, s.heap)
    ensures Nearer(s, WorkerDo(s, w))
  {
    hide WalkerOk, HeapOk, RunnerOk, Nearer, ReadStop, Peek, Consume, Visit, Drop, Advance, Look, FinishHeap, Discard,
         CheckTime, Claim, FnReturn, Recycle, Settle, Awake;
    match w
    case APeek => PeekNearer(s);
    case AConsume => ConsumeNearer(s);
    case AVisit => VisitNearer(s);
    case ADrop(sink) => DropNearer(s, sink);
    case AAdvance => AdvanceNearer(s);
    case ALook(x) => LookNearer(s, x);
    case ADiscard(sink) => DiscardNearer(s, sink);
    case ACheckTime(now) => CheckTimeNearer(s, now);
    case AClaim => ClaimNearer(s);
    case AFnReturn => FnReturnNearer(s);
    case ARecycle(sink) => RecycleNearer(s, sink);
    case AReadStop => ReadStopNearer(s);
    case AFinishHeap => FinishHeapNearer(s);
    case ASettle => SettleNearer(s);
    case AAwake => AwakeNearer(s);
  }

  /** A step that does no work has to move on. */
  lemma MovesOn(s: State, w: WorkerPc, nearest: Time, signal: bool)
    requires !w.Resetting? && !w.Exited? && Rank(w) < Rank(s.worker)
    requires PassEnds(s.worker, w) && (InPass(s.worker) ==> nearest == s.nearest)
    requires ScanLeft(w, |s.buckets|) <= ScanLeft(s.worker, |s.buckets|)
    ensures Nearer(s, s.(worker := w, nearest := nearest, signal := signal))
  {
    hide ScanLeft, Rank, PassEnds, InPass;
  }

  lemma PeekNearer(s: State)
    requires CanPeek(s)
    ensures Nearer(s, Peek(s))
  {}

  lemma ConsumeNearer(s: State)
    requires CanConsume(s)
    ensures Nearer(s, Consume(s))
  {
    hide Unlink, TakeList, Nearer;
    if s.buckets[s.worker.i].head == None {
      AfterBucketNearer(s, s.worker.i);
    } else {
      TakeListNearer(s);
    }
  }

  lemma AfterBucketNearer(s: State, i: nat)
    requires (s.worker.Locking? || s.worker.Advancing?) && i == s.worker.i < |s.buckets|
    ensures Nearer(s, s.(worker := Scanning(i + 1)))
  {}

  lemma TakeListNearer(s: State)
    requires CanConsume(s) && s.buckets[s.worker.i].head != None
    ensures Nearer(s, TakeList(s))
  {
    hide Unlink;
  }

  lemma VisitNearer(s: State)
    requires CanVisit(s)
    ensures Nearer(s, Visit(s))
  {
    hide VersionOf, Nearer;
    var i, p := s.worker.i, s.worker.p;
    if s.version[p] != VersionOf(s.info[p].taskId) {
      MovesOn(s, Dropping(i, p), s.nearest, s.signal);
    } else {
      WalksPast(s, Visit(s), i, p);
    }
  }

  lemma DropNearer(s: State, sink: Sink)
    requires CanDrop(s)
    ensures Nearer(s, Drop(s, sink))
  {
    hide VersionOf, SlotOf, Return, Nearer;
    if s.version[s.worker.p] != (VersionOf(s.info[s.worker.p].taskId) + 2) % 0x1_0000_0000 {
      FailsCheck(s);
    } else {
      WalksPast(s, Drop(s, sink), s.worker.i, s.worker.p);
    }
  }

  /** The walk leaves a task behind. */
  lemma WalksPast(s: State, s': State, i: nat, p: Slot)
    requires (s.worker.Visiting? || s.worker.Dropping?) && s.worker.i == i && s.walk != []
    requires s' == s.(worker := Advancing(i, p), heap := s'.heap, hist := s'.hist, pool := s'.pool,
                      visited := s'.visited, walk := s.walk[1..])
    ensures Nearer(s, s')
  {}

  lemma AdvanceNearer(s: State)
    requires CanAdvance(s)
    requires WalkerOk(s.worker, s.next, s.walk, s.hist, s.pool, |s.buckets|)
    ensures Nearer(s, Advance(s))
  {
    hide Chain, Nearer;
    if s.next[s.worker.p] == None {
      AfterBucketNearer(s, s.worker.i);
    } else {
      AfterNodeNearer(s);
    }
  }

  lemma AfterNodeNearer(s: State)
    requires CanAdvance(s) && s.next[s.worker.p] != None
    ensures Nearer(s, Advance(s))
  {}

  lemma LookNearer(s: State, x: Slot)
    requires CanLook(s, x)
    ensures Nearer(s, Look(s, x))
  {
    hide VersionOf, IsTop;
  }

  lemma DiscardNearer(s: State, sink: Sink)
    requires CanDiscard(s) && HeapOk(s.heap, s.hist) && RunnerOk(s.worker, s.hist, s.info, s.heap)
    ensures Nearer(s, Discard(s, sink))
  {
    hide VersionOf, SlotOf, Return, Nearer;
    var x := s.worker.x;
    var y := SlotOf(s.info[x].taskId);
    assert x in s.heap;
    if s.version[x] == (VersionOf(s.info[x].taskId) + 2) % 0x1_0000_0000 {
      TakesOff(s, HeapTop, x, s.hist[y := s.hist[y].(where := InPool)], Return(s.pool, WORKER, y, sink), s.clock);
    } else {
      FailsCheck(s);
    }
  }

  lemma FailsCheck(s: State)
    ensures Nearer(s, s.(worker := CheckFailed))
  {}

  lemma CheckTimeNearer(s: State, now: int)
    requires CanTime(s) && RunnerOk(s.worker, s.hist, s.info, s.heap)
    ensures Nearer(s, CheckTime(s, now))
  {
    hide Nearer;
    var x := s.worker.x;
    if now < s.info[x].runTime {
      GivesUp(s, s.info[x].runTime, now);
    } else {
      TakesOff(s, Claiming(x, now), x, s.hist[x := s.hist[x].(where := Claimed)], s.pool, now);
    }
  }

  lemma GivesUp(s: State, until: Time, now: int)
    requires s.worker.Timing?
    ensures Nearer(s, s.(worker := Settling(until), clock := now))
  {}

  lemma TakesOff(s: State, w: WorkerPc, x: Slot, hist: map<Slot, Hist>, pool: Pool, now: int)
    requires x in s.heap && (s.worker.Discarding? || s.worker.Timing?) && (w.HeapTop? || w.Claiming?)
    ensures Nearer(s, s.(worker := w, heap := s.heap - multiset{x}, hist := hist, pool := pool, clock := now))
  {
    HeapShrinks(s.heap, x);
  }

  lemma HeapShrinks(heap: multiset<Slot>, x: Slot)
    requires x in heap
    ensures |heap - multiset{x}| < |heap|
  {}

  lemma ClaimNearer(s: State)
    requires CanClaim(s)
    ensures Nearer(s, Claim(s))
  {
    hide VersionOf, Nearer;
    RunsTask(s, Claim(s));
  }

  /** The steps from the claim of a task to the return of its slot. */
  lemma RunsTask(s: State, s': State)
    requires s' == s.(worker := s'.worker, version := s'.version, hist := s'.hist, jobs := s'.jobs)
    requires s.worker.Claiming?
    requires s'.worker.InFn? || s'.worker.Recycling? || s'.worker.Impossible?
    ensures Nearer(s, s')
  {}

  lemma FnReturnNearer(s: State)
    requires CanFnReturn(s)
    ensures Nearer(s, FnReturn(s))
  {
    hide VersionOf;
  }

  lemma RecycleNearer(s: State, sink: Sink)
    requires CanRecycle(s)
    ensures Nearer(s, Recycle(s, sink))
  {
    hide SlotOf, Return;
  }

  lemma ReadStopNearer(s: State)
    requires CanReadStop(s)
    ensures Nearer(s, ReadStop(s))
  {}

  lemma FinishHeapNearer(s: State)
    requires CanFinishHeap(s)
    ensures Nearer(s, FinishHeap(s))
  {}

  lemma SettleNearer(s: State)
    requires CanSettle(s)
    ensures Nearer(s, Settle(s))
  {
    hide Nearer;
    if s.worker.until > s.nearest {
      MovesOn(s, Top, s.nearest, s.signal);
    } else {
      MovesOn(s, Asleep(s.worker.until), s.worker.until, false);
    }
  }

  lemma AwakeNearer(s: State)
    requires CanAwake(s)
    ensures Nearer(s, Awake(s))
  {}

  /** In a reachable state nothing else can happen. */
  lemma WorkerGoesOn(s: State, w: WorkerAction)
    requires Inv(s) && !s.worker.Resetting? && WorkerEnabled(s, w)
    ensures var s' := WorkerDo(s, w);
            && Inv(s') && s'.stop == s.stop && s'.clients == s.clients && (s.notified ==> s'.notified)
            && Less(ToEnd(s'), ToEnd(s)) && PassEnds(s.worker, s'.worker)
            && (s'.worker.Resetting? ==> s.worker.Top? && !s.stop) && (s'.worker.Exited? ==> s.worker.Top? && s.stop)
            && (InPass(s.worker) ==> s'.nearest == s.nearest)
  {
    hide PoolOk, KeysOk, SlotsOk, JobsOk, ListsOk, WalkOk, IssuedOk, ClientsOk, SelfOk, DueOk, NearestOk, CoveredOk,
         SleepOk, StopOk, HeapOk, RunnerOk, WalkerOk, ToEnd, Less, PassEnds, InPass, WorkerDo, WorkerEnabled;
    WorkerStepsNearer(s, w);
    WorkerStepKeeps(s, w);
    RecyclingSlot(WorkerDo(s, w));
  }

  // ---------------------------------------------------------------- histories without end

  /** A history that never ends: each moment has a step or nothing happens. */
  ghost predicate Lasts(sigma: nat -> State, acts: nat -> Option<Action>) {
    forall i: nat :: match acts(i)
                     case None => sigma(i + 1) == sigma(i)
                     case Some(a) => Step(sigma(i), a, sigma(i + 1))
  }

  /** The worker takes a step at time i or later, unless it has exited. */
  ghost predicate MovesAfter(sigma: nat -> State, acts: nat -> Option<Action>, i: nat) {
    exists j: nat :: i <= j && (sigma(j).worker.Exited? || (acts(j).Some? && acts(j).value.ByWorker?))
  }

  // ---------------------------------------------------------------- the worker alone

  /** A continuation of s to s' in which only the worker takes steps. */
  ghost predicate Alone(s: State, states: seq<State>, acts: seq<Action>, s': State) {
    Path(states, acts) && states[0] == s && Last(states) == s' && forall a :: a in acts ==> a.ByWorker?
  }

  ghost predicate WorkerReaches(s: State, s': State) {
    exists states, acts :: Alone(s, states, acts, s')
  }

  lemma StaysThere(s: State)
    ensures WorkerReaches(s, s)
  {
    assert Alone(s, [s], [], s);
  }

  lemma StepsFirst(s: State, w: WorkerAction, s': State)
    requires WorkerEnabled(s, w) && WorkerReaches(WorkerDo(s, w), s')
    ensures WorkerReaches(s, s')
  {
    hide WorkerDo, WorkerEnabled;
    var states, acts :| Alone(WorkerDo(s, w), states, acts, s');
    var states', acts' := [s] + states, [ByWorker(w)] + acts;
    assert Step(s, ByWorker(w), WorkerDo(s, w));
    forall i | 0 <= i < |acts'| ensures Step(states'[i], acts'[i], states'[i + 1]) {
      assert i > 0 ==> Step(states[i - 1], acts[i - 1], states[i]);
    }
    assert Alone(s, states', acts', s');
  }

  lemma IdleOutsideFn(s: State)
    requires Inv(s) && !s.worker.InFn?
    ensures WORKER in s.clients && s.clients[WORKER] == Idle
  {
    hide PoolOk, SlotsOk, JobsOk, ListsOk, WalkOk, HeapOk, IssuedOk, ClientsOk, WalkerOk, RunnerOk, NearestOk,
         CoveredOk, SleepOk, KeysOk, StopOk;
  }

  /** The worker has reset the global nearest time, nobody has lowered it, and the worker's clock says c. */
  predicate Unhurried(s: State, c: int) {
    && s.nearest == MAX_TIME && WORKER in s.clients && s.clients[WORKER] == Idle
    && (InPass(s.worker) || (s.worker.Settling? && (s.heap == multiset{} || s.clock == c)))
  }

  /** Left alone after a reset, the worker comes to rest: it ends its pass and waits until the earliest
      task that is not due. */
  lemma {:induction false} ComesToRest(s: State, c: int) returns (s': State)
    requires Inv(s) && Unhurried(s, c)
    ensures Inv(s') && WorkerReaches(s, s') && s'.worker.Asleep? && !s'.signal
    ensures s'.stop == s.stop && s'.clients == s.clients
    ensures s'.heap == multiset{} || s'.clock == c
    decreases ToEnd(s).scan, ToEnd(s).walk, ToEnd(s).heap, ToEnd(s).rank
  {
    hide Inv, WorkerReaches, WorkerDo, WorkerEnabled, ToEnd;
    if s.worker.Settling? {
      WorkerStepKeeps(s, ASettle) by { SettleIsEnabled(s); }
      s' := SettlesDown(s);
    } else {
      var w := StepAt(s, c);
      WorkerGoesOn(s, w);
      s' := ComesToRest(WorkerDo(s, w), c);
      StepsFirst(s, w, s');
    }
  }

  lemma SettleIsEnabled(s: State)
    requires s.worker.Settling?
    ensures WorkerEnabled(s, ASettle) && WorkerDo(s, ASettle) == Settle(s)
  {}

  lemma SettlesDown(s: State) returns (s': State)
    requires Inv(s) && s.nearest == MAX_TIME && s.worker.Settling?
    ensures Inv(s') && WorkerReaches(s, s') && s'.worker.Asleep? && !s'.signal
    ensures s'.stop == s.stop && s'.clients == s.clients && s'.heap == s.heap && s'.clock == s.clock
  {
    hide Inv, WorkerReaches;
    s' := Settle(s);
    SettleIsEnabled(s);
    WorkerStepKeeps(s, ASettle);
    StaysThere(s');
    StepsFirst(s, ASettle, s');
  }

  /** The worker's next step, with the clock at c. */
  lemma StepAt(s: State, c: int) returns (w: WorkerAction)
    requires Inv(s) && Unhurried(s, c) && InPass(s.worker)
    ensures WorkerEnabled(s, w)
    ensures InPass(WorkerDo(s, w).worker)
            || (WorkerDo(s, w).worker.Settling? && (WorkerDo(s, w).heap == multiset{} || WorkerDo(s, w).clock == c))
  {
    hide Inv, WorkerDo, WorkerEnabled;
    w := WorkerHasAStep(s);
    if s.worker.Timing? {
      w := ACheckTime(c);
      TimingEnds(s, c);
    } else {
      WorkerGoesOn(s, w);
      if s.worker.HeapTop? { HeapTopEnds(s, w); }
    }
  }

  lemma TimingEnds(s: State, c: int)
    requires Inv(s) && s.worker.Timing?
    ensures WorkerEnabled(s, ACheckTime(c)) && WorkerDo(s, ACheckTime(c)).clock == c
    ensures InPass(WorkerDo(s, ACheckTime(c)).worker) || WorkerDo(s, ACheckTime(c)).worker.Settling?
  {
    hide PoolOk, SlotsOk, JobsOk, ListsOk, WalkOk, HeapOk, IssuedOk, ClientsOk, WalkerOk, SelfOk, DueOk, NearestOk,
         CoveredOk, SleepOk, StopOk, TakeTop;
    TakeTopReads(s, c);
  }

  lemma TakeTopReads(s: State, c: int)
    requires RunnerOk(s.worker, s.hist, s.info, s.heap) && s.worker.Timing?
    ensures CanTime(s) && TakeTop(s, c).clock == c && TakeTop(s, c).worker.Claiming?
  {}

  lemma HeapTopEnds(s: State, w: WorkerAction)
    requires WorkerEnabled(s, w) && s.worker.HeapTop?
    ensures WorkerDo(s, w).worker.Settling? ==> WorkerDo(s, w).heap == multiset{}
  {
    hide IsTop, VersionOf;
    assert w.ALook? || w.AFinishHeap?;
  }

  lemma ResetsAndRests(s: State, c: int) returns (s': State)
    requires Inv(s) && s.worker.Resetting?
    ensures Inv(s') && WorkerReaches(s, s') && s'.worker.Asleep? && !s'.signal
    ensures s'.stop == s.stop && s'.clients == s.clients
    ensures s'.heap == multiset{} || s'.clock == c
  {
    hide Inv, WorkerReaches;
    WorkerStepKeeps(s, AReset);
    IdleOutsideFn(Reset(s));
    s' := ComesToRest(Reset(s), c);
    StepsFirst(s, AReset, s');
  }
}
