/** How the steps of the timer thread move a task slot. */
module TimerSlots {
  import opened Prelude
  import opened TaskIds
  import opened PoolSpec
  import opened TimerThread
  import opened TimerInvariant
  import opened TimerSafety
  import opened TimerTheorems

  /** The way of a task from the thread that schedules it to the worker's fn. */
  function Stage(w: Where): nat {
    match w
    case Held(_) => 5
    case Linked(_) => 4
    case Walking => 3
    case Heaped => 2
    case Claimed => 1
    case InPool => 0
  }

  /** Thread t gives the slot its next use. */
  predicate Bumps(s: State, a: Action, x: Slot) {
    a.ByThread? && a.c == ABump && a.t in s.clients && s.clients[a.t].Bumping? && s.clients[a.t].slot == x
  }

  /** A slot's use only ends by the next one; a slot leaves the hands of a thread only by being linked; and
      a pending task only moves on. */
  ghost predicate Moves(hist: map<Slot, Hist>, hist': map<Slot, Hist>, x: Slot, bumped: bool, linker: Option<Tid>)
    requires x in hist
  {
    && x in hist'
    && var h, h' := hist[x], hist'[x];
       && (h'.gen == h.gen || bumped)
       && (h.where.Held? && h'.where != h.where ==> linker == Some(h.where.t))
       && (h.phase == Pending && h'.phase == Pending && h'.gen == h.gen ==>
             h'.where == h.where || Stage(h'.where) < Stage(h.where))
  }

  function Linker(a: Action): Option<Tid> {
    if a.ByThread? && a.c == ALink then Some(a.t) else None
  }

  ghost predicate SlotMoves(s: State, a: Action, s': State, x: Slot)
    requires x in s.hist
  {
    Moves(s.hist, s'.hist, x, Bumps(s, a, x), Linker(a))
  }

  lemma StepMoves(s: State, a: Action, x: Slot)
    requires Inv(s) && Enabled(s, a) && x in s.hist
    ensures SlotMoves(s, a, Do(s, a), x)
  {
    hide Inv, SlotMoves, Bumps;
    match a
    case ByThread(t, c) => ClientMoves(s, t, c, x);
    case ByWorker(w) => WorkerMoves(s, w, x);
  }

  lemma Unmoved(s: State, a: Action, s': State, x: Slot)
    requires x in s.hist && s'.hist == s.hist
    ensures SlotMoves(s, a, s', x)
  {
    hide Bumps;
  }

  lemma ClientMoves(s: State, t: Tid, c: ClientAction, x: Slot)
    requires Inv(s) && ClientEnabled(s, t, c) && x in s.hist
    ensures SlotMoves(s, ByThread(t, c), ClientDo(s, t, c), x)
  {
    hide Inv, SlotMoves, Bumps, Call, GetSlot, Fill, Bump, Stamp, Link, Check, Wake, Unschedule, SetStop, Notify,
         LeavePool;
    match c
    case AGetSlot(slot, src) => GetSlotMoves(s, t, slot, src, x);
    case ABump => BumpMoves(s, t, x);
    case ALink => LinkMoves(s, t, x);
    case AUnschedule(k) => UnscheduleMoves(s, t, k, x);
    case _ => Unmoved(s, ByThread(t, c), ClientDo(s, t, c), x);
  }

  lemma GetSlotMoves(s: State, t: Tid, slot: Slot, src: Source, x: Slot)
    requires Inv(s) && CanGetSlot(s, t, slot, src) && x in s.hist
    ensures SlotMoves(s, ByThread(t, AGetSlot(slot, src)), GetSlot(s, t, slot, src), x)
  {
    hide Inv, Get, CanGet, Pool.Valid, Pool.Issued;
    GotSlot(s, t, slot, src);
  }

  lemma GotSlot(s: State, t: Tid, slot: Slot, src: Source)
    requires Inv(s) && CanGetSlot(s, t, slot, src)
    ensures slot in s.hist ==> s.hist[slot].where == InPool && s.hist[slot].phase == Removed
    ensures src == Fresh ==> slot !in s.hist
  {
    GetSlotFacts(s, t, slot, src);
    hide KeysOk, SlotsOk, JobsOk, ListsOk, WalkOk, HeapOk, IssuedOk, ClientsOk, WalkerOk, RunnerOk, SelfOk, DueOk,
         NearestOk, CoveredOk, SleepOk, StopOk, Get, CanGet, Pool.Valid, Pool.Issued;
    GetKeepsPool(s.pool, s.hist, Hist(0, Removed, Held(t)), t, slot, src);
  }

  lemma BumpMoves(s: State, t: Tid, x: Slot)
    requires Inv(s) && CanBump(s, t) && x in s.hist
    ensures SlotMoves(s, ByThread(t, ABump), Bump(s, t), x)
  {
    hide Inv;
  }

  lemma LinkMoves(s: State, t: Tid, x: Slot)
    requires Inv(s) && CanLink(s, t) && x in s.hist
    ensures SlotMoves(s, ByThread(t, ALink), Link(s, t), x)
  {
    hide Inv, SlotOk, JobOk, ClientOk;
    HolderFacts(s, t, s.clients[t].slot);
  }

  lemma UnscheduleMoves(s: State, t: Tid, k: Ticket, x: Slot)
    requires CanUnschedule(s, t, k) && x in s.hist
    ensures SlotMoves(s, ByThread(t, AUnschedule(k)), Unschedule(s, t, k), x)
  {
    hide SlotOf, VersionOf;
  }

  lemma WorkerMoves(s: State, w: WorkerAction, x: Slot)
    requires Inv(s) && WorkerEnabled(s, w) && x in s.hist
    ensures SlotMoves(s, ByWorker(w), WorkerDo(s, w), x)
  {
    hide Inv, SlotMoves, ReadStop, Reset, Peek, Consume, Visit, Drop, Advance, Look, FinishHeap, Discard, CheckTime,
         Claim, FnReturn, Recycle, Settle, Awake;
    match w
    case AConsume => ConsumeMoves(s, x);
    case AVisit => VisitMoves(s, x);
    case ADrop(sink) => DropMoves(s, sink, x);
    case ADiscard(sink) => DiscardMoves(s, sink, x);
    case ACheckTime(now) => CheckTimeMoves(s, now, x);
    case AClaim => ClaimMoves(s, x);
    case AFnReturn => FnReturnMoves(s, x);
    case ARecycle(sink) => RecycleMoves(s, sink, x);
    case _ => Unmoved(s, ByWorker(w), WorkerDo(s, w), x);
  }

  lemma ConsumeMoves(s: State, x: Slot)
    requires CanConsume(s) && x in s.hist
    ensures SlotMoves(s, ByWorker(AConsume), Consume(s), x)
  {
    hide SlotMoves;
    if s.buckets[s.worker.i].head == None {
      Unmoved(s, ByWorker(AConsume), Consume(s), x);
    } else {
      UnlinkMoves(s.hist, s.worker.i, x);
      HistMoves(s, ByWorker(AConsume), TakeList(s), Unlink(s.hist, s.worker.i), x);
    }
  }

  lemma UnlinkMoves(hist: map<Slot, Hist>, i: nat, x: Slot)
    requires x in hist
    ensures Moves(hist, Unlink(hist, i), x, false, None)
  {}

  lemma HistMoves(s: State, a: Action, s': State, hist': map<Slot, Hist>, x: Slot)
    requires x in s.hist && s'.hist == hist' && Moves(s.hist, hist', x, false, None)
    ensures SlotMoves(s, a, s', x)
  {
    hide Bumps, Linker;
  }

  /** One slot changes, and not from the hands of a thread. */
  lemma OneMoves(s: State, a: Action, s': State, y: Slot, h: Hist, x: Slot)
    requires x in s.hist && y in s.hist && s'.hist == s.hist[y := h] && h.gen == s.hist[y].gen
    requires !s.hist[y].where.Held?
    requires s.hist[y].phase == Pending && h.phase == Pending ==> Stage(h.where) < Stage(s.hist[y].where)
    ensures SlotMoves(s, a, s', x)
  {
    hide Bumps, Linker;
  }

  lemma VisitMoves(s: State, x: Slot)
    requires Inv(s) && CanVisit(s) && x in s.hist
    ensures SlotMoves(s, ByWorker(AVisit), Visit(s), x)
  {
    hide Inv, SlotMoves, VersionOf;
    WalkFacts(s);
    var p := s.worker.p;
    if s.version[p] != VersionOf(s.info[p].taskId) {
      Unmoved(s, ByWorker(AVisit), Visit(s), x);
    } else {
      OneMoves(s, ByWorker(AVisit), Visit(s), p, s.hist[p].(where := Heaped), x);
    }
  }

  lemma DropMoves(s: State, sink: Sink, x: Slot)
    requires Inv(s) && CanDrop(s) && x in s.hist
    ensures SlotMoves(s, ByWorker(ADrop(sink)), Drop(s, sink), x)
  {
    hide Inv, SlotMoves;
    DropIs(s, sink);
    var p := s.worker.p;
    OneMoves(s, ByWorker(ADrop(sink)), Drop(s, sink), p, s.hist[p].(where := InPool), x);
  }

  lemma DiscardMoves(s: State, sink: Sink, x: Slot)
    requires Inv(s) && CanDiscard(s) && x in s.hist
    ensures SlotMoves(s, ByWorker(ADiscard(sink)), Discard(s, sink), x)
  {
    hide Inv, SlotMoves;
    DiscardIs(s, sink);
    var y := s.worker.x;
    OneMoves(s, ByWorker(ADiscard(sink)), Discard(s, sink), y, s.hist[y].(where := InPool), x);
  }

  lemma TimingFacts(s: State)
    requires Inv(s) && s.worker.Timing?
    ensures s.worker.x in s.hist && s.hist[s.worker.x].where == Heaped
  {
    hide PoolOk, KeysOk, SlotsOk, JobsOk, ListsOk, WalkOk, IssuedOk, ClientsOk, WalkerOk, SelfOk, DueOk, NearestOk,
         CoveredOk, SleepOk, StopOk;
  }

  lemma CheckTimeMoves(s: State, now: int, x: Slot)
    requires Inv(s) && CanTime(s) && x in s.hist
    ensures SlotMoves(s, ByWorker(ACheckTime(now)), CheckTime(s, now), x)
  {
    hide Inv, SlotMoves, TakeTop;
    TimingFacts(s);
    if now < s.info[s.worker.x].runTime {
      Unmoved(s, ByWorker(ACheckTime(now)), CheckTime(s, now), x);
    } else {
      TakeTopMoves(s, now, x);
    }
  }

  lemma TakeTopMoves(s: State, now: int, x: Slot)
    requires CanTime(s) && x in s.hist && s.hist[s.worker.x].where == Heaped
    ensures SlotMoves(s, ByWorker(ACheckTime(now)), TakeTop(s, now), x)
  {
    hide SlotMoves;
    var y := s.worker.x;
    OneMoves(s, ByWorker(ACheckTime(now)), TakeTop(s, now), y, s.hist[y].(where := Claimed), x);
  }

  lemma RunnerSlot(s: State)
    requires Inv(s) && (s.worker.Claiming? || s.worker.InFn? || s.worker.Recycling?)
    ensures s.worker.x in s.hist && s.hist[s.worker.x].where == Claimed
    ensures s.worker.Recycling? ==> s.hist[s.worker.x].phase == Removed
  {
    hide PoolOk, KeysOk, SlotsOk, JobsOk, ListsOk, WalkOk, IssuedOk, ClientsOk, WalkerOk, SelfOk, DueOk, NearestOk,
         CoveredOk, SleepOk, StopOk;
  }

  lemma ClaimMoves(s: State, x: Slot)
    requires Inv(s) && CanClaim(s) && x in s.hist
    ensures SlotMoves(s, ByWorker(AClaim), Claim(s), x)
  {
    hide Inv, SlotMoves, VersionOf, StartFn;
    RunnerSlot(s);
    if s.version[s.worker.x] == VersionOf(s.info[s.worker.x].taskId) {
      StartFnMoves(s, x);
    } else {
      Unmoved(s, ByWorker(AClaim), Claim(s), x);
    }
  }

  lemma StartFnMoves(s: State, x: Slot)
    requires CanClaim(s) && x in s.hist && s.hist[s.worker.x].where == Claimed
    ensures SlotMoves(s, ByWorker(AClaim), StartFn(s), x)
  {
    hide SlotMoves, VersionOf;
    var y := s.worker.x;
    OneMoves(s, ByWorker(AClaim), StartFn(s), y, s.hist[y].(phase := Running), x);
  }

  lemma FnReturnMoves(s: State, x: Slot)
    requires Inv(s) && CanFnReturn(s) && x in s.hist
    ensures SlotMoves(s, ByWorker(AFnReturn), FnReturn(s), x)
  {
    hide Inv, SlotMoves, VersionOf;
    RunnerSlot(s);
    var y := s.worker.x;
    OneMoves(s, ByWorker(AFnReturn), FnReturn(s), y, s.hist[y].(phase := Removed), x);
  }

  lemma RecycleMoves(s: State, sink: Sink, x: Slot)
    requires Inv(s) && CanRecycle(s) && x in s.hist
    ensures SlotMoves(s, ByWorker(ARecycle(sink)), Recycle(s, sink), x)
  {
    hide Inv, SlotMoves, SlotOf, Return, SlotOk, JobOk;
    RunnerSlot(s);
    TimerSlotFacts(s, s.worker.x);
    var y := s.worker.x;
    OneMoves(s, ByWorker(ARecycle(sink)), Recycle(s, sink), y, s.hist[y].(where := InPool), x);
  }
}
