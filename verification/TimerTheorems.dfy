/** What the timer thread promises, for every run. */
module TimerTheorems {
  import opened Prelude
  import opened TaskIds
  import opened PoolSpec
  import opened TimerThread
  import opened TimerInvariant
  import opened TimerSafety

  // ---------------------------------------------------------------- no lost wake-up

  /** The task in slot x can be reached from the head of bucket b. */
  ghost predicate InBucket(s: State, b: nat, x: Slot) {
    b < |s.buckets| && exists list :: Chain(s.next, s.buckets[b].head, list) && x in list
  }

  lemma InBucketIsListed(s: State, b: nat, x: Slot)
    requires ListsOk(s.next, s.buckets, s.lists, s.hist) && b < |s.buckets|
    ensures InBucket(s, b, x) <==> x in s.lists[b]
    ensures InBucket(s, b, x) <==> x in s.hist && s.hist[x].where == Linked(b)
  {
    assert ListOk(b, s.next, s.buckets[b].head, s.lists[b], s.hist);
    if InBucket(s, b, x) {
      var list :| Chain(s.next, s.buckets[b].head, list) && x in list;
      ChainUnique(s.next, s.buckets[b].head, list, s.lists[b]);
    }
  }

  /** While the worker sleeps until "d", every task in a bucket or in the heap is due at "d" or
      later; or the worker has been or is about to be woken; or a schedule call that linked an
      equally early task is still on its way to the check that wakes the worker.  Only a worker
      that was told to stop may overlook tasks, and it does not sleep past time zero. */
  lemma NoLostWakeup(run: seq<Action>, s: State, d: Time)
    requires Reaches(run, s) && s.worker == Asleep(d)
    ensures || s.signal
            || WakeDue(s.clients)
            || (s.notified && d <= 0)
            || ((forall b, x :: InBucket(s, b, x) && x in s.info ==>
                   d <= s.info[x].runTime || CheckDue(s.clients, s.info[x].runTime))
                && (forall x :: x in s.heap && x in s.info ==> d <= s.info[x].runTime))
  {
    hide PoolOk, SlotsOk, JobsOk, ListsOk, WalkOk, HeapOk, IssuedOk, ClientsOk, WalkerOk, KeysOk, SelfOk, InBucket,
         NearestOk, CoveredOk;
    RunKeeps(run, s);
    if !s.signal && !WakeDue(s.clients) && !s.notified {
      forall b, x | InBucket(s, b, x) && x in s.info
        ensures d <= s.info[x].runTime || CheckDue(s.clients, s.info[x].runTime)
      {
        BucketTaskIsCovered(s, b, x);
      }
    }
  }

  lemma BucketTaskIsCovered(s: State, b: nat, x: Slot)
    requires ListsOk(s.next, s.buckets, s.lists, s.hist) && NearestOk(s.buckets, s.lists, s.info)
    requires CoveredOk(s.worker, s.nearest, s.notified, s.buckets, s.clients) && !s.notified && s.worker.Asleep?
    requires InBucket(s, b, x) && x in s.info
    ensures s.nearest <= s.info[x].runTime || CheckDue(s.clients, s.info[x].runTime)
  {
    InBucketIsListed(s, b, x);
    assert Covers(s.worker, s.nearest, b, s.buckets[b].nearest) || CheckDue(s.clients, s.buckets[b].nearest);
  }

  /** When nobody is in the middle of a call, a sleeping worker sleeps no longer than until the
      earliest task that was scheduled and has neither started nor been revoked. */
  lemma QuietSleepIsShort(run: seq<Action>, s: State, d: Time, x: Slot, g: nat)
    requires Reaches(run, s) && s.worker == Asleep(d) && !s.signal && !s.notified
    requires forall t :: t in s.clients ==> s.clients[t] == Idle
    requires (x, g) in s.jobs && s.jobs[(x, g)].runs == [] && !s.jobs[(x, g)].revoked
    ensures d <= s.jobs[(x, g)].runTime
  {
    NoLostWakeup(run, s, d);
    PendingIsHeld(run, s, x, g);
    RunKeeps(run, s);
    QuietPlaces(s, x);
    if s.hist[x].where.Linked? { InBucketIsListed(s, s.hist[x].where.b, x); }
  }

  lemma QuietPlaces(s: State, x: Slot)
    requires Inv(s) && s.worker.Asleep? && x in s.hist && s.hist[x].where != InPool
    requires forall t :: t in s.clients ==> s.clients[t] == Idle
    ensures s.hist[x].where.Linked? || (s.hist[x].where == Heaped && x in s.heap)
    ensures s.hist[x].where.Linked? ==> s.hist[x].where.b < |s.buckets|
    ensures x in s.info
  {
    hide PoolOk, SlotsOk, JobsOk, IssuedOk, NearestOk, CoveredOk, SleepOk, StopOk, SelfOk;
  }

  // ---------------------------------------------------------------- each task once

  /** A scheduled task starts at most once, runs the function it was scheduled with and not
      before its time; a task whose unschedule returned 0 never starts. */
  lemma RunsAtMostOnce(run: seq<Action>, s: State, x: Slot, g: nat)
    requires Reaches(run, s) && (x, g) in s.jobs
    ensures var j := s.jobs[(x, g)];
            && (j.runs == [] || exists now :: now >= j.runTime && j.runs == [(j.fn, now)])
            && (j.revoked ==> j.runs == [] && !j.finished)
            && (j.finished ==> j.runs != [])
  {
    hide PoolOk, SlotsOk, ListsOk, WalkOk, HeapOk, IssuedOk, ClientsOk, WalkerOk, RunnerOk, NearestOk, CoveredOk,
         SleepOk, KeysOk, StopOk, SelfOk;
    RunKeeps(run, s);
    var j := s.jobs[(x, g)];
    assert JobOk(x, g, j, s.hist);
    if j.runs != [] { assert j.runs == [(j.fn, j.runs[0].1)]; }
  }

  /** What never happens to a job: to be forgotten, to ask for something else, to have a start, a
      return or a revocation taken back. */
  ghost predicate JobsGrow(jobs: map<(Slot, nat), Job>, jobs': map<(Slot, nat), Job>) {
    forall k :: k in jobs ==>
      && k in jobs' && jobs'[k].fn == jobs[k].fn && jobs'[k].runTime == jobs[k].runTime
      && jobs[k].runs <= jobs'[k].runs
      && (jobs[k].revoked ==> jobs'[k].revoked) && (jobs[k].finished ==> jobs'[k].finished)
  }

  lemma HistoryOnlyGrows(s: State, a: Action)
    requires Inv(s) && Enabled(s, a)
    ensures JobsGrow(s.jobs, Do(s, a).jobs)
  {
    hide PoolOk, SlotsOk, ListsOk, WalkOk, HeapOk, IssuedOk, ClientsOk, WalkerOk, RunnerOk, NearestOk, CoveredOk,
         SleepOk, KeysOk, StopOk, SelfOk;
    match a
    case ByThread(t, c) => ClientsOnlyGrow(s, t, c);
    case ByWorker(w) => WorkerOnlyGrows(s, w);
  }

  lemma ClientsOnlyGrow(s: State, t: Tid, c: ClientAction)
    requires JobsOk(s.hist, s.jobs) && ClientEnabled(s, t, c)
    ensures JobsGrow(s.jobs, ClientDo(s, t, c).jobs)
  {
    hide JobsOk, JobsGrow, Call, GetSlot, Fill, Bump, Stamp, Link, Check, Wake, Unschedule, SetStop, Notify, LeavePool;
    SameGrow(s.jobs);
    match c
    case ABump => BumpGrows(s, t);
    case AUnschedule(k) => UnscheduleGrows(s, t, k);
    case _ =>
  }

  lemma WorkerOnlyGrows(s: State, w: WorkerAction)
    requires WorkerEnabled(s, w)
    ensures JobsGrow(s.jobs, WorkerDo(s, w).jobs)
  {
    hide JobsGrow, ReadStop, Reset, Peek, Consume, Visit, Drop, Advance, Look, FinishHeap, Discard, CheckTime, Claim,
         FnReturn, Recycle, Settle, Awake;
    SameGrow(s.jobs);
    match w
    case AClaim => ClaimGrows(s);
    case AFnReturn => FnReturnGrows(s);
    case _ =>
  }

  lemma SameGrow(jobs: map<(Slot, nat), Job>)
    ensures JobsGrow(jobs, jobs)
  {}

  lemma BumpGrows(s: State, t: Tid)
    requires JobsOk(s.hist, s.jobs) && CanBump(s, t)
    ensures JobsGrow(s.jobs, Bump(s, t).jobs)
  {
    assert (s.clients[t].slot, s.hist[s.clients[t].slot].gen + 1) !in s.jobs;
  }

  lemma UnscheduleGrows(s: State, t: Tid, k: Ticket)
    requires CanUnschedule(s, t, k)
    ensures JobsGrow(s.jobs, Unschedule(s, t, k).jobs)
  {
    hide SlotOf, VersionOf;
  }

  lemma JobPut(jobs: map<(Slot, nat), Job>, k: (Slot, nat), j: Job)
    requires k in jobs && j.fn == jobs[k].fn && j.runTime == jobs[k].runTime && jobs[k].runs <= j.runs
    requires (jobs[k].revoked ==> j.revoked) && (jobs[k].finished ==> j.finished)
    ensures JobsGrow(jobs, jobs[k := j])
  {}

  lemma ClaimGrows(s: State)
    requires CanClaim(s)
    ensures JobsGrow(s.jobs, Claim(s).jobs)
  {
    hide VersionOf, JobsGrow;
    var k := (s.worker.x, s.hist[s.worker.x].gen);
    JobPut(s.jobs, k, s.jobs[k].(runs := s.jobs[k].runs + [(s.info[s.worker.x].fn, s.worker.now)]));
    SameGrow(s.jobs);
  }

  lemma FnReturnGrows(s: State)
    requires CanFnReturn(s)
    ensures JobsGrow(s.jobs, FnReturn(s).jobs)
  {
    hide VersionOf, JobsGrow;
    var k := (s.worker.x, s.hist[s.worker.x].gen);
    JobPut(s.jobs, k, s.jobs[k].(finished := true));
  }

  /** unschedule returns 0, 1 or -1 exactly when the task its id was issued for has not started,
      is running, or is over; and 0 revokes that task. */
  lemma UnscheduleIsTruthful(run: seq<Action>, s: State, t: Tid, k: Ticket)
    requires Reaches(run, s) && CanUnschedule(s, t, k)
    ensures var j, r := s.jobs[(k.slot, k.gen)], UnscheduleResult(s, k);
            && (r == 0 <==> j.runs == [] && !j.revoked)
            && (r == 1 <==> j.runs != [] && !j.finished)
            && (r == -1 <==> j.revoked || j.finished)
            && (r == 0 ==> Unschedule(s, t, k).jobs == s.jobs[(k.slot, k.gen) := j.(revoked := true)])
            && (r != 0 ==> Unschedule(s, t, k) == s)
  {
    hide PoolOk, SlotsOk, ListsOk, WalkOk, HeapOk, IssuedOk, ClientsOk, WalkerOk, RunnerOk, NearestOk, CoveredOk,
         SleepOk, KeysOk, StopOk, SelfOk;
    RunKeeps(run, s);
    VerdictMeaning(s, k);
    assert JobOk(k.slot, k.gen, s.jobs[(k.slot, k.gen)], s.hist);
  }

  /** Outside the window the promise fails, exactly at the multiples of 2^30 uses: then an old id
      revokes whatever task is pending in its slot. */
  lemma StaleIdRevokesAnother(run: seq<Action>, s: State, k: Ticket)
    requires Reaches(run, s) && k in s.issued && SlotOf(k.id) in s.version && k.slot in s.hist
    requires s.hist[k.slot].phase == Pending
    ensures k.gen <= s.hist[k.slot].gen
    ensures UnscheduleResult(s, k) == 0 <==> (s.hist[k.slot].gen - k.gen) % 0x4000_0000 == 0
  {
    hide PoolOk, SlotsOk, JobsOk, ListsOk, WalkOk, HeapOk, IssuedOk, ClientsOk, WalkerOk, RunnerOk, NearestOk,
         CoveredOk, SleepOk, KeysOk, StopOk, SelfOk, Reaches, UnscheduleResult;
    RunKeeps(run, s);
    StaleVerdict(s, k);
  }

  lemma StaleVerdict(s: State, k: Ticket)
    requires IssuedOk(s.issued, s.hist, s.jobs) && k in s.issued && SlotOf(k.id) in s.version && k.slot in s.hist
    requires SlotsOk(s.hist, s.version, s.info, s.jobs) && KeysOk(s.next, s.info, s.version, s.hist)
    requires s.hist[k.slot].phase == Pending
    ensures k.gen <= s.hist[k.slot].gen
    ensures UnscheduleResult(s, k) == 0 <==> (s.hist[k.slot].gen - k.gen) % 0x4000_0000 == 0
  {
    hide SlotsOk, IssuedOk, KeysOk, SlotOf, VersionOf, VersionAt;
    TicketFacts(s, k);
    VersionFact(s, k.slot);
    StaleIds(k.gen, s.hist[k.slot].gen, Pending);
  }

  // ---------------------------------------------------------------- every task is somewhere, once

  /** A task that was scheduled and has neither started nor been revoked is in the hands of the
      thread scheduling it, in a bucket, on the walk, in the heap, or about to be run. */
  lemma PendingIsHeld(run: seq<Action>, s: State, x: Slot, g: nat)
    requires Reaches(run, s) && (x, g) in s.jobs && s.jobs[(x, g)].runs == [] && !s.jobs[(x, g)].revoked
    ensures x in s.hist && s.hist[x].gen == g && s.hist[x].phase == Pending && s.hist[x].where != InPool
    ensures x in s.info && (InTimer(s.hist[x].where) ==> s.info[x].runTime == s.jobs[(x, g)].runTime)
  {
    hide Inv;
    RunKeeps(run, s);
    PendingFacts(s, x, g);
  }

  lemma PendingFacts(s: State, x: Slot, g: nat)
    requires Inv(s) && (x, g) in s.jobs && s.jobs[(x, g)].runs == [] && !s.jobs[(x, g)].revoked
    ensures x in s.hist && s.hist[x].gen == g && s.hist[x].phase == Pending && s.hist[x].where != InPool
    ensures x in s.info && (InTimer(s.hist[x].where) ==> s.info[x].runTime == s.jobs[(x, g)].runTime)
  {
    hide PoolOk, ListsOk, WalkOk, HeapOk, IssuedOk, ClientsOk, WalkerOk, RunnerOk, NearestOk, CoveredOk, SleepOk,
         StopOk, SelfOk, DueOk;
    assert JobOk(x, g, s.jobs[(x, g)], s.hist);
    assert SlotOk(x, s.hist[x], s.version[x], s.info[x], s.jobs);
  }

  /** The places a slot can be: with the pool, a scheduling thread, a bucket, the walk, the heap, or
      the worker.  It is in exactly one, on the heap at most once. */
  lemma SlotIsInOnePlace(run: seq<Action>, s: State, x: Slot)
    requires Reaches(run, s) && s.pool.Issued(x)
    ensures x in s.hist
    ensures (x in s.pool.used <==> s.hist[x].where != InPool) && s.pool.Valid()
    ensures forall b: nat :: InBucket(s, b, x) <==> s.hist[x].where == Linked(b)
    ensures x in s.walk <==> s.hist[x].where == Walking
    ensures s.heap[x] == if s.hist[x].where == Heaped then 1 else 0
    ensures forall t :: t in s.clients ==> (PcSlot(s.clients[t]) == Some(x) <==> s.hist[x].where == Held(t))
    ensures s.hist[x].where == Claimed <==>
              s.worker == InFn(x) || s.worker == Recycling(x) || (s.worker.Claiming? && s.worker.x == x)
  {
    hide SlotsOk, JobsOk, IssuedOk, WalkerOk, NearestOk, CoveredOk, SleepOk, StopOk, SelfOk, KeysOk, Pool.Valid,
         Pool.Issued, InBucket;
    RunKeeps(run, s);
    PlaceFacts(s, x);
    forall b: nat ensures InBucket(s, b, x) <==> s.hist[x].where == Linked(b) {
      if b < |s.buckets| { InBucketIsListed(s, b, x); } else { NoSuchBucket(s, b, x); }
    }
  }

  lemma NoSuchBucket(s: State, b: nat, x: Slot)
    requires ListsOk(s.next, s.buckets, s.lists, s.hist) && b >= |s.buckets| && x in s.hist
    ensures !InBucket(s, b, x) && s.hist[x].where != Linked(b)
  {}

  lemma PlaceFacts(s: State, x: Slot)
    requires WalkOk(s.walk, s.hist) && HeapOk(s.heap, s.hist) && RunnerOk(s.worker, s.hist, s.info, s.heap)
    requires ClientsOk(s.clients, s.hist, s.info, s.jobs, |s.buckets|) && x in s.hist
    ensures x in s.walk <==> s.hist[x].where == Walking
    ensures s.heap[x] == if s.hist[x].where == Heaped then 1 else 0
    ensures forall t :: t in s.clients ==> (PcSlot(s.clients[t]) == Some(x) <==> s.hist[x].where == Held(t))
    ensures s.hist[x].where == Claimed <==>
              s.worker == InFn(x) || s.worker == Recycling(x) || (s.worker.Claiming? && s.worker.x == x)
  {
    forall t | t in s.clients ensures PcSlot(s.clients[t]) == Some(x) <==> s.hist[x].where == Held(t) {
      assert ClientOk(t, s.clients[t], s.hist, s.info, s.jobs, |s.buckets|);
    }
  }

  /** Returning the resource that the task in slot x names returns x, which is in use, and the
      task has reached its final version. */
  ghost predicate ReturnsOwnSlot(s: State, x: Slot) {
    && x in s.version && x in s.info && SlotOf(s.info[x].taskId) == x && x in s.pool.used
    && s.version[x] == (VersionOf(s.info[x].taskId) + 2) % 0x1_0000_0000
  }

  /** The CHECK_EQ of try_delete never fails and the "Impossible" branch is never taken; a slot
      being recycled is in use, so it is returned once per use, and the id it is returned under
      is its own. */
  lemma ChecksHold(run: seq<Action>, s: State)
    requires Reaches(run, s)
    ensures s.worker != CheckFailed && s.worker != Impossible
    ensures s.worker.Dropping? ==> ReturnsOwnSlot(s, s.worker.p)
    ensures s.worker.Discarding? || s.worker.Recycling? ==> ReturnsOwnSlot(s, s.worker.x)
  {
    hide Inv, SlotOf, VersionOf, Recyclable, ReturnsOwnSlot;
    RunKeeps(run, s);
    RecyclingSlot(s);
    if s.worker.Dropping? {
      RemovedVersion(s, s.worker.p);
    } else if s.worker.Discarding? || s.worker.Recycling? {
      RemovedVersion(s, s.worker.x);
    }
  }

  lemma RemovedVersion(s: State, x: Slot)
    requires Inv(s) && Recyclable(s, x)
    ensures ReturnsOwnSlot(s, x)
  {
    hide Inv, SlotOf, VersionOf, SlotOk, JobOk;
    TimerSlotFacts(s, x);
    VersionSteps(s.hist[x].gen);
  }

  ghost predicate Recyclable(s: State, x: Slot) {
    x in s.hist && InTimer(s.hist[x].where) && s.hist[x].phase == Removed && x in s.pool.used
  }

  lemma RecyclingSlot(s: State)
    requires Inv(s)
    ensures s.worker != CheckFailed && s.worker != Impossible
    ensures s.worker.Dropping? ==> Recyclable(s, s.worker.p)
    ensures s.worker.Discarding? || s.worker.Recycling? ==> Recyclable(s, s.worker.x)
  {
    hide SlotsOk, JobsOk, ListsOk, WalkOk, HeapOk, IssuedOk, ClientsOk, NearestOk, CoveredOk, SleepOk, StopOk, SelfOk,
         KeysOk, WalkerOk, Pool.Valid, Pool.Issued;
    if s.worker.Dropping? { WalkFacts(s); }
  }

  /** The walk over a consumed bucket reads p->next after p may have been recycled, and still
      visits exactly the consumed list, in order, whatever the other threads allocate. */
  lemma WalkVisitsTheList(run: seq<Action>, s: State)
    requires Reaches(run, s) && s.worker.Advancing?
    ensures s.worker.p in s.next && s.visited <= s.consumed
    ensures match s.next[s.worker.p]
            case None => s.visited == s.consumed
            case Some(q) => |s.visited| < |s.consumed| && q == s.consumed[|s.visited|]
  {
    hide PoolOk, SlotsOk, JobsOk, ListsOk, HeapOk, IssuedOk, ClientsOk, RunnerOk, NearestOk, CoveredOk, SleepOk, StopOk,
         SelfOk, KeysOk;
    RunKeeps(run, s);
  }

  /** The version word shows the phase of the slot's task in its low two bits. */
  lemma VersionTellsPhase(run: seq<Action>, s: State, x: Slot)
    requires Reaches(run, s) && x in s.hist
    ensures x in s.version && s.version[x] % 4 == s.hist[x].phase.Code() && s.version[x] < UINT32
  {
    RunKeeps(run, s);
    VersionFact(s, x) by { hide PoolOk, JobsOk, ListsOk, WalkOk, HeapOk, IssuedOk, ClientsOk, WalkerOk, RunnerOk; }
    VersionShape(s.hist[x].gen, s.hist[x].phase);
  }

  // ---------------------------------------------------------------- progress

  lemma {:induction false} LeastExists(heap: multiset<Slot>, info: map<Slot, Info>) returns (x: Slot)
    requires heap != multiset{} && forall y :: y in heap ==> y in info
    ensures x in heap && forall y | y in heap && y in info :: info[x].runTime <= info[y].runTime
    decreases |heap|
  {
    var top :| top in heap;
    var rest := heap[top := 0];
    x := top;
    if rest != multiset{} {
      var z := LeastExists(rest, info);
      if info[z].runTime < info[top].runTime { x := z; }
    }
    forall y | y in heap ensures y == top || y in rest {}
  }

  /** The slot the worker is looking at. */
  function WorkerSlot(w: WorkerPc): Option<Slot> {
    match w
    case Visiting(_, p) => Some(p)
    case Dropping(_, p) => Some(p)
    case Advancing(_, p) => Some(p)
    case Discarding(x) => Some(x)
    case Timing(x) => Some(x)
    case Claiming(x, _) => Some(x)
    case InFn(x) => Some(x)
    case Recycling(x) => Some(x)
    case _ => None
  }

  lemma WorkerSlotFacts(s: State, x: Slot)
    requires Inv(s) && WorkerSlot(s.worker) == Some(x)
    ensures x in s.hist && x in s.next && x in s.version && x in s.info
    ensures !s.worker.Advancing? ==> InTimer(s.hist[x].where)
    ensures s.worker.Visiting? || s.worker.Dropping? ==> s.walk != []
  {
    hide PoolOk, SlotsOk, JobsOk, ListsOk, IssuedOk, ClientsOk, NearestOk, CoveredOk, SleepOk, StopOk, SelfOk, WalkOk;
    if s.worker.Visiting? || s.worker.Dropping? { WalkFacts(s); }
  }

  lemma HeapIsKnown(s: State, y: Slot)
    requires HeapOk(s.heap, s.hist) && KeysOk(s.next, s.info, s.version, s.hist) && y in s.heap
    ensures y in s.info && y in s.version
  {}

  lemma WorkerBounds(s: State)
    requires WalkerOk(s.worker, s.next, s.walk, s.hist, s.pool, |s.buckets|)
    requires ListsOk(s.next, s.buckets, s.lists, s.hist)
    ensures s.worker.Locking? ==> s.worker.i < |s.buckets|
    ensures |s.lists| == |s.buckets|
  {}

  /** The worker always has a next step, until it has exited or while a call made by the running
      task is under way. */
  lemma WorkerIsNeverStuck(run: seq<Action>, s: State)
    requires Reaches(run, s) && !s.worker.Exited?
    requires s.worker.InFn? ==> WORKER in s.clients && s.clients[WORKER] == Idle
    ensures exists w :: WorkerEnabled(s, w)
  {
    hide Inv, Reaches;
    RunKeeps(run, s);
    var w := WorkerHasAStep(s);
  }

  lemma WorkerHasAStep(s: State) returns (w: WorkerAction)
    requires Inv(s) && !s.worker.Exited?
    requires s.worker.InFn? ==> WORKER in s.clients && s.clients[WORKER] == Idle
    ensures WorkerEnabled(s, w)
  {
    hide PoolOk, SlotsOk, JobsOk, ListsOk, WalkOk, HeapOk, IssuedOk, ClientsOk, WalkerOk, RunnerOk, NearestOk,
         CoveredOk, SleepOk, KeysOk, StopOk, SelfOk;
    RecyclingSlot(s);
    WorkerBounds(s);
    if x: Slot :| WorkerSlot(s.worker) == Some(x) {
      WorkerSlotFacts(s, x);
      w := SlotStep(s, x);
    } else if s.worker.HeapTop? && s.heap != multiset{} {
      forall y | y in s.heap ensures y in s.info && y in s.version { HeapIsKnown(s, y); }
      var x := LeastExists(s.heap, s.info);
      w := ALook(x);
    } else {
      w := match s.worker
           case Top => AReadStop
           case Resetting => AReset
           case Scanning(_) => APeek
           case Locking(_) => AConsume
           case HeapTop => AFinishHeap
           case Settling(_) => ASettle
           case _ => AAwake;
    }
  }

  lemma SlotStep(s: State, x: Slot) returns (w: WorkerAction)
    requires Inv(s) && WorkerSlot(s.worker) == Some(x)
    requires s.worker.InFn? ==> WORKER in s.clients && s.clients[WORKER] == Idle
    ensures WorkerEnabled(s, w)
  {
    hide PoolOk, SlotsOk, JobsOk, ListsOk, WalkOk, HeapOk, IssuedOk, ClientsOk, WalkerOk, RunnerOk, NearestOk,
         CoveredOk, SleepOk, KeysOk, StopOk, SelfOk, SlotOf, VersionOf, SlotOk, JobOk;
    WorkerSlotFacts(s, x);
    if !s.worker.Advancing? { TimerSlotFacts(s, x); }
    w := match s.worker
         case Visiting(_, _) => AVisit
         case Dropping(_, _) => ADrop(Kept)
         case Advancing(_, _) => AAdvance
         case Discarding(_) => ADiscard(Kept)
         case Timing(_) => ACheckTime(0)
         case Claiming(_, _) => AClaim
         case InFn(_) => AFnReturn
         case _ => ARecycle(Kept);
  }

  /** A thread in the middle of schedule can always go on, once it has a slot. */
  lemma ThreadsAreNeverStuck(run: seq<Action>, s: State, t: Tid)
    requires Reaches(run, s) && CanStep(s, t) && !s.clients[t].Getting?
    ensures exists c :: ClientEnabled(s, t, c)
  {
    hide PoolOk, SlotsOk, JobsOk, ListsOk, WalkOk, HeapOk, IssuedOk, ClientsOk, WalkerOk, RunnerOk, NearestOk,
         CoveredOk, SleepOk, KeysOk, StopOk, SelfOk, Reaches, SlotOk, JobOk;
    RunKeeps(run, s);
    WorkerBounds(s);
    PcFacts(s, t);
    if x: Slot :| PcSlot(s.clients[t]) == Some(x) { HolderFacts(s, t, x); }
    assert ClientEnabled(s, t, match s.clients[t]
                               case Idle => ASetStop
                               case Filling(_, _, _, _) => AFill
                               case Bumping(_, _, _, _) => ABump
                               case Stamping(_, _, _) => AStamp
                               case Linking(_, _, _) => ALink
                               case Checking(_, _, _) => ACheck
                               case Waking(_) => AWake
                               case _ => ANotify);
  }
}
