/** Every task that is due is run: what the timer thread achieves in the long run. */
module TimerLiveness {
  import opened Prelude
  import opened TaskIds
  import opened PoolSpec
  import opened TimerThread
  import opened TimerInvariant
  import opened TimerSafety
  import opened TimerSlots
  import opened TimerPasses
  import opened TimerTheorems

  /** A pass over the buckets and the heap ends only with an empty heap, or with a clock reading before
      the time of every task in the heap; and what the worker settles down for is the earliest of those
      times. */
  lemma PassEndsInTime(run: seq<Action>, s: State)
    requires Reaches(run, s) && (s.worker.Settling? || s.worker.Asleep?)
    ensures forall x :: x in s.heap && x in s.info ==> s.clock < s.worker.until <= s.info[x].runTime
    ensures if s.heap == multiset{} then s.worker.until == MAX_TIME
            else exists x :: x in s.heap && x in s.info && s.info[x].runTime == s.worker.until
  {
    hide PoolOk, KeysOk, SlotsOk, JobsOk, ListsOk, WalkOk, HeapOk, IssuedOk, ClientsOk, WalkerOk, SelfOk, NearestOk,
         CoveredOk, SleepOk, StopOk, Reaches;
    RunKeeps(run, s);
  }

  /** Left alone with its clock at c and no stop, the worker comes to rest, from wherever it is, unless the
      task it is running is in the middle of a call: it waits until the earliest task that is not due. */
  lemma WorkerComesToRest(run: seq<Action>, s: State, c: int)
    requires Reaches(run, s) && !s.stop && !s.worker.Exited?
    requires s.worker.InFn? ==> WORKER in s.clients && s.clients[WORKER] == Idle
    ensures exists s' :: WorkerReaches(s, s') && s'.worker.Asleep? && !s'.signal
                         && forall x :: x in s'.heap && x in s'.info ==> c < s'.worker.until <= s'.info[x].runTime
  {
    hide Inv, Reaches, WorkerReaches;
    RunKeeps(run, s);
    var s' := GoesToRest(s, c);
    RestFacts(s', c);
  }

  lemma RestFacts(s: State, c: int)
    requires Inv(s) && s.worker.Asleep? && (s.heap == multiset{} || s.clock == c)
    ensures forall x :: x in s.heap && x in s.info ==> c < s.worker.until <= s.info[x].runTime
  {
    hide PoolOk, KeysOk, SlotsOk, JobsOk, ListsOk, WalkOk, HeapOk, IssuedOk, ClientsOk, WalkerOk, SelfOk, NearestOk,
         CoveredOk, SleepOk, StopOk;
  }

  lemma {:induction false} GoesToRest(s: State, c: int) returns (s': State)
    requires Inv(s) && !s.stop && !s.worker.Exited?
    requires s.worker.InFn? ==> WORKER in s.clients && s.clients[WORKER] == Idle
    ensures Inv(s') && WorkerReaches(s, s') && s'.worker.Asleep? && !s'.signal
    ensures s'.heap == multiset{} || s'.clock == c
    decreases ToEnd(s).scan, ToEnd(s).walk, ToEnd(s).heap, ToEnd(s).rank
  {
    hide Inv, WorkerReaches, WorkerDo, WorkerEnabled, ToEnd;
    if s.worker.Resetting? {
      s' := ResetsAndRests(s, c);
    } else {
      var w := WorkerHasAStep(s);
      WorkerGoesOn(s, w);
      if !s.worker.InFn? { IdleOutsideFn(s); }
      s' := GoesToRest(WorkerDo(s, w), c);
      StepsFirst(s, w, s');
    }
  }

  /** The job is scheduled, and neither started nor revoked. */
  predicate Waits(s: State, x: Slot, g: nat) {
    (x, g) in s.jobs && s.jobs[(x, g)].runs == [] && !s.jobs[(x, g)].revoked
  }

  /** How far a waiting task is from its start: where it is on its way, whether the worker has to begin
      another pass for it, and how much is left of the worker's pass. */
  datatype Way = Way(stage: nat, passes: nat, left: Distance)

  function WayOf(w: Where, worker: WorkerPc, left: Distance): Way {
    match w
    case Held(_) => Way(5, 0, Distance(0, 0, 0, 0))
    case Linked(b) => Way(4, if ToScan(worker, b) then 0 else 1, left)
    case Walking => Way(3, 0, left)
    case Heaped => Way(2, if InPass(worker) then 0 else 1, left)
    case Claimed => Way(1, 0, left)
    case InPool => Way(0, 0, Distance(0, 0, 0, 0))
  }

  predicate Shorter(v: Way, w: Way) {
    || v.stage < w.stage
    || (v.stage == w.stage && v.passes < w.passes)
    || (v.stage == w.stage && v.passes == w.passes && Less(v.left, w.left))
  }

  function WayLeft(s: State, x: Slot): Way
    requires x in s.hist
  {
    WayOf(s.hist[x].where, s.worker, ToEnd(s))
  }

  lemma WaitingFacts(s: State, x: Slot, g: nat)
    requires Inv(s) && Waits(s, x, g)
    ensures x in s.hist && s.hist[x].gen == g && s.hist[x].phase == Pending && s.hist[x].where != InPool
  {
    hide Inv;
    PendingFacts(s, x, g);
  }

  /** A step leaves a waiting task where it is, or brings it on. */
  lemma WaitingMoves(s: State, a: Action, x: Slot, g: nat)
    requires Inv(s) && Enabled(s, a) && Waits(s, x, g)
    ensures Inv(Do(s, a)) && x in s.hist
    ensures Waits(Do(s, a), x, g) ==>
              && x in Do(s, a).hist
              && (Do(s, a).hist[x].where == s.hist[x].where
                  || Stage(Do(s, a).hist[x].where) < Stage(s.hist[x].where))
  {
    hide Inv, Enabled, Do, Stage, Bumps;
    StepKeeps(s, a);
    WaitingFacts(s, x, g);
    StepMoves(s, a, x);
    if Waits(Do(s, a), x, g) { WaitingFacts(Do(s, a), x, g); }
  }

  // ---------------------------------------------------------------- steps of other threads

  lemma ClientServes(s: State, t: Tid, c: ClientAction, x: Slot, g: nat)
    requires Inv(s) && ClientEnabled(s, t, c) && Waits(s, x, g)
    ensures var s' := ClientDo(s, t, c);
            && x in s.hist
            && (Waits(s', x, g) ==>
                  && x in s'.hist
                  && (WayLeft(s', x) == WayLeft(s, x) || Shorter(WayLeft(s', x), WayLeft(s, x))))
  {
    hide Inv, ClientDo, ClientEnabled, ToScan, InPass, ScanLeft, Rank;
    ThreadMoves(s, t, c, x, g);
    ClientStepsAside(s, t, c);
  }

  lemma ThreadMoves(s: State, t: Tid, c: ClientAction, x: Slot, g: nat)
    requires Inv(s) && ClientEnabled(s, t, c) && Waits(s, x, g)
    ensures var s' := ClientDo(s, t, c);
            && x in s.hist
            && (Waits(s', x, g) ==>
                  && x in s'.hist
                  && (s'.hist[x].where == s.hist[x].where || Stage(s'.hist[x].where) < Stage(s.hist[x].where)))
  {
    hide Inv, ClientDo, ClientEnabled, Stage;
    WaitingMoves(s, ByThread(t, c), x, g);
  }

  // ---------------------------------------------------------------- steps of the worker

  /** The worker's clock has reached the job's time. */
  predicate Ripe(w: WorkerAction, rt: Time) {
    w.ACheckTime? ==> w.now >= rt
  }

  /** Every step of the worker brings a waiting task that is out of its scheduler's hands nearer to its
      start, once the clock has reached its time. */
  lemma WorkerServes(s: State, w: WorkerAction, x: Slot, g: nat)
    requires Inv(s) && WorkerEnabled(s, w) && Waits(s, x, g) && Ripe(w, s.jobs[(x, g)].runTime)
    ensures var s' := WorkerDo(s, w);
            && x in s.hist
            && (Waits(s', x, g) && !s'.worker.Exited? ==>
                  && x in s'.hist
                  && if s.hist[x].where.Held? then s'.hist[x].where == s.hist[x].where
                     else Shorter(WayLeft(s', x), WayLeft(s, x)))
  {
    hide Inv, WorkerDo, WorkerEnabled, ToScan, InPass, ToEnd, Less, Ripe;
    var s' := WorkerDo(s, w);
    WorkerBringsOn(s, w, x, g);
    if Waits(s', x, g) && !s'.worker.Exited? && !s.hist[x].where.Held? && s'.hist[x].where == s.hist[x].where {
      WaitingFacts(s, x, g);
      if s.worker.Resetting? {
        NextPass(s, w, x);
      } else {
        WorkerGoesOn(s, w);
        if s.hist[x].where.Linked? { StillToScan(s, w, x); }
        if s.hist[x].where == Heaped { StaysInPass(s, w, x, g); }
      }
    }
  }

  lemma WorkerBringsOn(s: State, w: WorkerAction, x: Slot, g: nat)
    requires Inv(s) && WorkerEnabled(s, w) && Waits(s, x, g)
    ensures var s' := WorkerDo(s, w);
            && x in s.hist
            && (Waits(s', x, g) ==>
                  && x in s'.hist
                  && (s'.hist[x].where == s.hist[x].where || Stage(s'.hist[x].where) < Stage(s.hist[x].where))
                  && (s.hist[x].where.Held? ==> s'.hist[x].where == s.hist[x].where))
  {
    hide Inv, WorkerDo, WorkerEnabled, Bumps;
    WaitingMoves(s, ByWorker(w), x, g);
    StepMoves(s, ByWorker(w), x);
  }

  /** The reset begins the pass that takes the task up; on the walk or at its start there is no reset. */
  lemma NextPass(s: State, w: WorkerAction, x: Slot)
    requires Inv(s) && WorkerEnabled(s, w) && s.worker.Resetting? && x in s.hist && s.hist[x].phase == Pending
    requires s.hist[x].where != InPool && !s.hist[x].where.Held?
    ensures x in WorkerDo(s, w).hist && Shorter(WayLeft(WorkerDo(s, w), x), WayLeft(s, x))
  {
    hide PoolOk, KeysOk, SlotsOk, JobsOk, ListsOk, HeapOk, IssuedOk, ClientsOk, SelfOk, DueOk, NearestOk, CoveredOk,
         SleepOk, StopOk, ToEnd, Less;
    assert WorkerDo(s, w) == Reset(s);
  }

  lemma BucketFacts(s: State, x: Slot)
    requires Inv(s) && x in s.hist && s.hist[x].where.Linked?
    ensures var b := s.hist[x].where.b;
            b < |s.buckets| == |s.lists| && x in s.lists[b] && s.buckets[b].head != None
  {
    hide PoolOk, KeysOk, SlotsOk, JobsOk, WalkOk, HeapOk, IssuedOk, ClientsOk, WalkerOk, RunnerOk, SelfOk, DueOk,
         NearestOk, CoveredOk, SleepOk, StopOk;
    var b := s.hist[x].where.b;
    assert ListOk(b, s.next, s.buckets[b].head, s.lists[b], s.hist);
  }

  /** A pass does not miss the bucket of a linked task. */
  lemma StillToScan(s: State, w: WorkerAction, x: Slot)
    requires Inv(s) && WorkerEnabled(s, w) && x in s.hist && s.hist[x].where.Linked?
    requires x in WorkerDo(s, w).hist && WorkerDo(s, w).hist[x].where == s.hist[x].where
    ensures ToScan(s.worker, s.hist[x].where.b) ==> ToScan(WorkerDo(s, w).worker, s.hist[x].where.b)
  {
    hide Inv, Visit, Drop, Advance, Look, FinishHeap, Discard, CheckTime, Claim, FnReturn, Recycle, Settle, Awake,
         Peek, Consume;
    BucketFacts(s, x);
    WorkerStepKeeps(s, w);
    RecyclingSlot(WorkerDo(s, w));
    match w
    case APeek => PeekPasses(s, s.hist[x].where.b);
    case AConsume => ConsumePasses(s, x);
    case AVisit => VisitPasses(s);
    case ADrop(sink) => DropPasses(s, sink);
    case AAdvance => AdvancePasses(s);
    case _ =>
  }

  lemma PeekPasses(s: State, b: nat)
    requires CanPeek(s) && b < |s.buckets| && s.buckets[b].head != None
    ensures ToScan(s.worker, b) ==> ToScan(Peek(s).worker, b)
  {}

  lemma ConsumePasses(s: State, x: Slot)
    requires CanConsume(s) && x in s.hist && s.hist[x].where.Linked?
    requires s.hist[x].where.b < |s.buckets| && s.buckets[s.hist[x].where.b].head != None
    requires x in Consume(s).hist && Consume(s).hist[x].where == s.hist[x].where
    ensures ToScan(s.worker, s.hist[x].where.b) ==> ToScan(Consume(s).worker, s.hist[x].where.b)
  {
    hide TakeList;
    if s.buckets[s.worker.i].head != None {
      TakeListPasses(s);
      UnlinkLeaves(s.hist, s.worker.i, x);
    }
  }

  lemma TakeListPasses(s: State)
    requires CanConsume(s) && s.buckets[s.worker.i].head != None
    ensures TakeList(s).worker.Visiting? && TakeList(s).worker.i == s.worker.i
    ensures TakeList(s).hist == Unlink(s.hist, s.worker.i)
  {
    hide Unlink;
  }

  lemma UnlinkLeaves(hist: map<Slot, Hist>, i: nat, x: Slot)
    requires x in hist
    ensures x in Unlink(hist, i) && Unlink(hist, i)[x].where != Linked(i)
  {}

  lemma VisitPasses(s: State)
    requires CanVisit(s)
    ensures (Visit(s).worker.Dropping? || Visit(s).worker.Advancing?) && Visit(s).worker.i == s.worker.i
  {
    hide VersionOf;
  }

  lemma DropPasses(s: State, sink: Sink)
    requires CanDrop(s)
    ensures Drop(s, sink).worker == CheckFailed || Drop(s, sink).worker == Advancing(s.worker.i, s.worker.p)
  {
    hide VersionOf, SlotOf, Return;
  }

  lemma AdvancePasses(s: State)
    requires CanAdvance(s)
    ensures Advance(s).worker == Scanning(s.worker.i + 1)
            || (Advance(s).worker.Visiting? && Advance(s).worker.i == s.worker.i)
  {}

  lemma HeapedFacts(s: State, x: Slot, g: nat)
    requires Inv(s) && Waits(s, x, g) && x in s.hist && s.hist[x].where == Heaped
    ensures x in s.heap && (s.worker.Timing? ==>
              s.worker.x in s.info && s.info[s.worker.x].runTime <= s.jobs[(x, g)].runTime)
  {
    hide PoolOk, KeysOk, SlotsOk, JobsOk, ListsOk, WalkOk, IssuedOk, ClientsOk, WalkerOk, SelfOk, DueOk, NearestOk,
         CoveredOk, SleepOk, StopOk;
    PendingFacts(s, x, g);
  }

  /** A pass does not end while a task in the heap is due. */
  lemma StaysInPass(s: State, w: WorkerAction, x: Slot, g: nat)
    requires Inv(s) && WorkerEnabled(s, w) && x in s.hist && s.hist[x].where == Heaped
    requires Waits(s, x, g) && Ripe(w, s.jobs[(x, g)].runTime) && PassEnds(s.worker, WorkerDo(s, w).worker)
    ensures InPass(s.worker) ==> InPass(WorkerDo(s, w).worker)
  {
    hide Inv, WorkerDo, WorkerEnabled;
    HeapedFacts(s, x, g);
    if s.worker.HeapTop? {
      HeapTopPasses(s, w);
    } else if s.worker.Timing? {
      TimingPasses(s, w);
    }
  }

  lemma HeapTopPasses(s: State, w: WorkerAction)
    requires WorkerEnabled(s, w) && s.worker.HeapTop? && s.heap != multiset{}
    ensures WorkerDo(s, w).worker.Discarding? || WorkerDo(s, w).worker.Timing?
  {
    hide IsTop, VersionOf;
    assert w.ALook?;
  }

  lemma TimingPasses(s: State, w: WorkerAction)
    requires WorkerEnabled(s, w) && s.worker.Timing? && s.worker.x in s.info && Ripe(w, s.info[s.worker.x].runTime)
    ensures WorkerDo(s, w).worker.Claiming?
  {
    assert w.ACheckTime?;
  }

  // ---------------------------------------------------------------- histories without end

  /** Thread t is not in the middle of one call for ever. */
  ghost predicate CallEndsAfter(sigma: nat -> State, t: Tid, i: nat) {
    exists j: nat :: i <= j && (t in sigma(j).clients ==> sigma(j).clients[t] == Idle)
  }

  /** From time m on the worker reads times from rt on from its clock. */
  ghost predicate HasCome(acts: nat -> Option<Action>, m: nat, rt: Time) {
    forall i: nat :: m <= i && acts(i).Some? && acts(i).value.ByWorker? ==> Ripe(acts(i).value.w, rt)
  }

  /** The job has been started or revoked, or the worker is gone. */
  predicate Served(s: State, x: Slot, g: nat) {
    s.worker.Exited? || ((x, g) in s.jobs && (s.jobs[(x, g)].runs != [] || s.jobs[(x, g)].revoked))
  }

  /** Nothing has gone back. */
  ghost predicate NotFarther(s: State, s': State, x: Slot) {
    && x in s.hist && x in s'.hist
    && (WayLeft(s', x) == WayLeft(s, x) || Shorter(WayLeft(s', x), WayLeft(s, x)))
    && (s'.hist[x].where == s.hist[x].where || Stage(s'.hist[x].where) < Stage(s.hist[x].where))
  }

  lemma StepServes(s: State, a: Action, x: Slot, g: nat)
    requires Inv(s) && Enabled(s, a) && Waits(s, x, g)
    requires a.ByWorker? ==> Ripe(a.w, s.jobs[(x, g)].runTime)
    ensures var s' := Do(s, a);
            && Inv(s') && x in s.hist
            && (Served(s', x, g)
                || (Waits(s', x, g) && !s'.worker.Exited? && NotFarther(s, s', x)
                    && s'.jobs[(x, g)].runTime == s.jobs[(x, g)].runTime
                    && (a.ByWorker? && !s.hist[x].where.Held? ==> Shorter(WayLeft(s', x), WayLeft(s, x)))))
  {
    hide Inv, ClientDo, ClientEnabled, WorkerDo, WorkerEnabled, Ripe, WayLeft, Shorter, Stage;
    WaitingMoves(s, a, x, g);
    HistoryOnlyGrows(s, a);
    match a
    case ByThread(t, c) => ClientServes(s, t, c, x, g);
    case ByWorker(w) =>
      WorkerServes(s, w, x, g);
      if s.hist[x].where.Held? { HeldWay(s, Do(s, a), x); }
  }

  lemma HeldWay(s: State, s': State, x: Slot)
    requires x in s.hist && s.hist[x].where.Held?
    ensures x in s'.hist && s'.hist[x].where == s.hist[x].where ==> WayLeft(s', x) == WayLeft(s, x)
  {}

  lemma NotFartherStill(s: State, s': State, s'': State, x: Slot)
    requires NotFarther(s, s', x) && NotFarther(s', s'', x)
    ensures NotFarther(s, s'', x)
  {
    hide WayLeft, Stage;
  }

  lemma NotFartherAtAll(s: State, x: Slot)
    requires x in s.hist
    ensures NotFarther(s, s, x)
  {}

  /** From time i to time j a waiting task is served, or does not go back. */
  lemma {:induction false} TimePasses(
      sigma: nat -> State, acts: nat -> Option<Action>, i: nat, j: nat, x: Slot, g: nat)
      returns (served: bool, k: nat)
    requires Lasts(sigma, acts) && i <= j && Inv(sigma(i)) && Waits(sigma(i), x, g) && !sigma(i).worker.Exited?
    requires HasCome(acts, i, sigma(i).jobs[(x, g)].runTime)
    ensures served ==> i <= k && Served(sigma(k), x, g)
    ensures !served ==>
              && Inv(sigma(j)) && Waits(sigma(j), x, g) && !sigma(j).worker.Exited?
              && sigma(j).jobs[(x, g)].runTime == sigma(i).jobs[(x, g)].runTime && NotFarther(sigma(i), sigma(j), x)
    decreases j - i
  {
    hide Inv, Do, Enabled, NotFarther, Waits, Served, Ripe;
    if i == j {
      served, k := false, 0;
      WaitingIsKnown(sigma(i), x, g);
      NotFartherAtAll(sigma(i), x);
    } else {
      served, k := TimePasses(sigma, acts, i, j - 1, x, g);
      if !served {
        var a := acts(j - 1);
        if a.None? {
          assert sigma(j) == sigma(j - 1);
        } else {
          assert Step(sigma(j - 1), a.value, sigma(j));
          OneStep(sigma(j - 1), a.value, sigma(j), x, g);
          if Served(sigma(j), x, g) {
            served, k := true, j;
          } else {
            NotFartherStill(sigma(i), sigma(j - 1), sigma(j), x);
          }
        }
      }
    }
  }

  lemma WaitingIsKnown(s: State, x: Slot, g: nat)
    requires Inv(s) && Waits(s, x, g)
    ensures x in s.hist
  {
    hide Inv;
    WaitingFacts(s, x, g);
  }

  lemma OneStep(s: State, a: Action, s': State, x: Slot, g: nat)
    requires Inv(s) && Step(s, a, s') && Waits(s, x, g)
    requires a.ByWorker? ==> Ripe(a.w, s.jobs[(x, g)].runTime)
    ensures Inv(s') && x in s.hist
    ensures Served(s', x, g)
            || (Waits(s', x, g) && !s'.worker.Exited? && NotFarther(s, s', x)
                && s'.jobs[(x, g)].runTime == s.jobs[(x, g)].runTime
                && (a.ByWorker? && !s.hist[x].where.Held? ==>
                      x in s'.hist && Shorter(WayLeft(s', x), WayLeft(s, x))))
  {
    hide Inv, Do, Enabled, Waits, Served, Ripe, WayLeft, Shorter, Stage;
    StepServes(s, a, x, g);
  }

  // ---------------------------------------------------------------- every due task is served

  function WayFrom(s: State, x: Slot): Way {
    if x in s.hist then WayLeft(s, x) else Way(0, 0, Distance(0, 0, 0, 0))
  }

  lemma HolderIsBusy(s: State, x: Slot)
    requires Inv(s) && x in s.hist && s.hist[x].where.Held?
    ensures s.hist[x].where.t in s.clients && s.clients[s.hist[x].where.t] != Idle
  {
    hide PoolOk, KeysOk, SlotsOk, JobsOk, ListsOk, WalkOk, HeapOk, IssuedOk, WalkerOk, RunnerOk, SelfOk, DueOk,
         NearestOk, CoveredOk, SleepOk, StopOk;
  }

  lemma {:induction false} ComesToStart(
      sigma: nat -> State, acts: nat -> Option<Action>, i: nat, x: Slot, g: nat)
      returns (k: nat)
    requires Lasts(sigma, acts) && Inv(sigma(i)) && Waits(sigma(i), x, g) && !sigma(i).worker.Exited?
    requires HasCome(acts, i, sigma(i).jobs[(x, g)].runTime)
    requires forall i: nat :: MovesAfter(sigma, acts, i)
    requires forall t, i: nat :: CallEndsAfter(sigma, t, i)
    ensures i <= k && Served(sigma(k), x, g)
    decreases WayFrom(sigma(i), x).stage, WayFrom(sigma(i), x).passes, WayFrom(sigma(i), x).left.scan,
              WayFrom(sigma(i), x).left.walk, WayFrom(sigma(i), x).left.heap, WayFrom(sigma(i), x).left.rank
  {
    hide Inv, Do, Enabled, Served, Ripe, WayLeft, Stage;
    WaitingIsKnown(sigma(i), x, g);
    if sigma(i).hist[x].where.Held? {
      k := LeavesItsHolder(sigma, acts, i, x, g);
    } else {
      assert MovesAfter(sigma, acts, i);
      var j: nat :| i <= j && (sigma(j).worker.Exited? || (acts(j).Some? && acts(j).value.ByWorker?));
      k := WorkerTakesIt(sigma, acts, i, j, x, g);
    }
    if !Served(sigma(k), x, g) {
      HasComeLater(acts, i, k, sigma(i).jobs[(x, g)].runTime);
      k := ComesToStart(sigma, acts, k, x, g);
    }
  }

  lemma HasComeLater(acts: nat -> Option<Action>, m: nat, n: nat, rt: Time)
    requires HasCome(acts, m, rt) && m <= n
    ensures HasCome(acts, n, rt)
  {}

  /** When the call that schedules it is over, the task has left the hands of its thread. */
  lemma LeavesItsHolder(sigma: nat -> State, acts: nat -> Option<Action>, i: nat, x: Slot, g: nat) returns (k: nat)
    requires Lasts(sigma, acts) && Inv(sigma(i)) && Waits(sigma(i), x, g) && !sigma(i).worker.Exited?
    requires HasCome(acts, i, sigma(i).jobs[(x, g)].runTime) && forall t, i: nat :: CallEndsAfter(sigma, t, i)
    requires x in sigma(i).hist && sigma(i).hist[x].where.Held?
    ensures i <= k && (Served(sigma(k), x, g) || ComesNearer(sigma(i), sigma(k), x, g))
  {
    hide Inv, Do, Enabled, Waits, Served, Ripe, Shorter;
    var t := sigma(i).hist[x].where.t;
    assert CallEndsAfter(sigma, t, i);
    var j: nat :| i <= j && (t in sigma(j).clients ==> sigma(j).clients[t] == Idle);
    var served, l := TimePasses(sigma, acts, i, j, x, g);
    if served {
      k := l;
    } else {
      k := j;
      if sigma(j).hist[x].where.Held? { HolderIsBusy(sigma(j), x); }
      StageIsLess(sigma(i), sigma(j), x);
    }
  }

  /** It still waits, and is nearer to its start. */
  ghost predicate ComesNearer(s: State, s': State, x: Slot, g: nat) {
    && Inv(s') && Waits(s', x, g) && !s'.worker.Exited? && Waits(s, x, g)
    && s'.jobs[(x, g)].runTime == s.jobs[(x, g)].runTime
    && x in s.hist && x in s'.hist && Shorter(WayLeft(s', x), WayLeft(s, x))
  }

  lemma StageIsLess(s: State, s': State, x: Slot)
    requires x in s.hist && x in s'.hist && Stage(s'.hist[x].where) < Stage(s.hist[x].where)
    ensures Shorter(WayLeft(s', x), WayLeft(s, x))
  {}

  /** The worker's next step brings the task nearer to its start. */
  lemma WorkerTakesIt(sigma: nat -> State, acts: nat -> Option<Action>, i: nat, j: nat, x: Slot, g: nat)
      returns (k: nat)
    requires Lasts(sigma, acts) && Inv(sigma(i)) && Waits(sigma(i), x, g) && !sigma(i).worker.Exited?
    requires HasCome(acts, i, sigma(i).jobs[(x, g)].runTime)
    requires x in sigma(i).hist && !sigma(i).hist[x].where.Held?
    requires i <= j && (sigma(j).worker.Exited? || (acts(j).Some? && acts(j).value.ByWorker?))
    ensures i <= k && (Served(sigma(k), x, g) || ComesNearer(sigma(i), sigma(k), x, g))
  {
    hide Inv, Do, Enabled, Waits, Served, Ripe, WayLeft;
    var served, l := TimePasses(sigma, acts, i, j, x, g);
    if served {
      k := l;
    } else {
      k := j + 1;
      assert Step(sigma(j), acts(j).value, sigma(k));
      OneStep(sigma(j), acts(j).value, sigma(k), x, g);
      NotHeldAgain(sigma(i), sigma(j), x);
    }
  }

  lemma NotHeldAgain(s: State, s': State, x: Slot)
    requires NotFarther(s, s', x) && !s.hist[x].where.Held?
    ensures !s'.hist[x].where.Held?
  {}

  /** In every history without end in which the worker keeps taking steps (its waits end, and the tasks it
      runs return), the calls of all threads end, and the clock comes to the time of a job for good:
      the job is started or revoked, or the worker has exited. */
  lemma DueTasksAreServed(
      run: seq<Action>, sigma: nat -> State, acts: nat -> Option<Action>, m: nat, x: Slot, g: nat)
    requires Reaches(run, sigma(m)) && Lasts(sigma, acts) && (x, g) in sigma(m).jobs
    requires forall i: nat :: MovesAfter(sigma, acts, i)
    requires forall t, i: nat :: CallEndsAfter(sigma, t, i)
    requires HasCome(acts, m, sigma(m).jobs[(x, g)].runTime)
    ensures exists j: nat :: m <= j && Served(sigma(j), x, g)
  {
    hide Inv, Reaches, Lasts, MovesAfter, CallEndsAfter, HasCome;
    RunKeeps(run, sigma(m));
    if !Served(sigma(m), x, g) {
      var j := ComesToStart(sigma, acts, m, x, g);
    }
  }
}
