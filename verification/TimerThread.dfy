/** The timer thread (idea/timer_thread.cpp) as a step machine: one worker, any number of
    threads calling schedule, unschedule and stop, and task slots recycled through the
    resource pool.  Every step is one atomic access, one critical section, or accesses to
    memory nobody else can reach; the steps of different threads interleave freely.

    "Task" is laid out as one map per field.  The fields from "hist" on are history: no
    step's program state depends on them; "notified" says that a stop has told the worker since
    it last reset the global nearest time; "clock" is what the worker last read from the clock. */
module TimerThread {
  import opened Prelude
  import opened TaskIds
  import opened PoolSpec

  type Slot = Id

  const MAX_TIME := 0x7FFF_FFFF_FFFF_FFFF

  /** int64_t microseconds. */
  type Time = t: int | -0x8000_0000_0000_0000 <= t <= 0x7FFF_FFFF_FFFF_FFFF witness 0

  /** The thread that executes TimerThread::run. */
  const WORKER: Tid := 0

  /** The plain fields of a task; "fn" stands for the pair of fn and arg. */
  datatype Info = Info(fn: nat, runTime: Time, taskId: nat)

  datatype Bucket = Bucket(head: Option<Slot>, nearest: Time)

  /** What schedule returned, with the slot and the use of the slot it was made for. */
  datatype Ticket = Ticket(id: nat, slot: Slot, gen: nat)

  /** Where a thread is in schedule (lines 99-149) or stop_and_join (lines 267-273). */
  datatype ClientPc =
    | Idle
    | Getting(fn: nat, rt: Time, b: nat)
    | Filling(fn: nat, rt: Time, b: nat, slot: Slot)
    | Bumping(fn: nat, rt: Time, b: nat, slot: Slot)
    | Stamping(rt: Time, b: nat, slot: Slot)
    | Linking(rt: Time, b: nat, slot: Slot)
    | Checking(rt: Time, b: nat, ticket: Ticket)
    | Waking(ticket: Ticket)
    | Stopping

  /** Where the worker is in run (lines 208-262). */
  datatype WorkerPc =
    | Top
    | Resetting
    | Scanning(i: nat)
    | Locking(i: nat)
    | Visiting(i: nat, p: Slot)
    | Dropping(i: nat, p: Slot)
    | Advancing(i: nat, p: Slot)
    | HeapTop
    | Discarding(x: Slot)
    | Timing(x: Slot)
    | Claiming(x: Slot, now: int)
    | InFn(x: Slot)
    | Recycling(x: Slot)
    | Settling(until: Time)
    | Asleep(until: Time)
    | Exited
    | CheckFailed
    | Impossible

  /** Which part of the program a slot belongs to. */
  datatype Where = InPool | Held(t: Tid) | Linked(b: nat) | Walking | Heaped | Claimed

  datatype Hist = Hist(gen: nat, phase: Phase, where: Where)

  /** One call of schedule: what was asked for, and what happened to it. */
  datatype Job = Job(fn: nat, runTime: Time, runs: seq<(nat, int)>, finished: bool, revoked: bool)

  datatype State = State(
    next: map<Slot, Option<Slot>>,
    info: map<Slot, Info>,
    version: map<Slot, nat>,
    buckets: seq<Bucket>,
    nearest: Time,
    stop: bool,
    pool: Pool,
    heap: multiset<Slot>,
    worker: WorkerPc,
    signal: bool,
    clients: map<Tid, ClientPc>,
    issued: set<Ticket>,
    hist: map<Slot, Hist>,
    jobs: map<(Slot, nat), Job>,
    lists: seq<seq<Slot>>,
    consumed: seq<Slot>,
    visited: seq<Slot>,
    walk: seq<Slot>,
    notified: bool,
    clock: int)

  predicate IsInit(s: State) {
    && s.next == map[] && s.info == map[] && s.version == map[] && s.hist == map[] && s.jobs == map[]
    && (forall b | 0 <= b < |s.buckets| :: s.buckets[b] == Bucket(None, MAX_TIME))
    && s.nearest == MAX_TIME
    && !s.stop && !s.notified && !s.signal
    && s.pool == Pool({}, map[], {}, {})
    && s.heap == multiset{}
    && s.worker == Top
    && WORKER in s.clients
    && (forall t | t in s.clients :: s.clients[t] == Idle)
    && s.issued == {}
    && |s.lists| == |s.buckets|
    && (forall b | 0 <= b < |s.lists| :: s.lists[b] == [])
    && s.consumed == [] && s.visited == [] && s.walk == []
  }

  // ---------------------------------------------------------------- schedule

  /** A thread can take a step of its own; the worker only does so from inside a task's fn. */
  predicate CanStep(s: State, t: Tid) {
    t in s.clients && (t == WORKER ==> s.worker.InFn?)
  }

  predicate CanCall(s: State, t: Tid, b: nat) {
    CanStep(s, t) && s.clients[t].Idle? && b < |s.buckets|
  }

  function Call(s: State, t: Tid, fn: nat, rt: Time, b: nat): (r: State)
    ensures r.jobs == s.jobs && r.hist == s.hist && (s.notified ==> r.notified)
  {
    s.(clients := s.clients[t := Getting(fn, rt, b)])
  }

  /** Line 99.  The slot number has to fit in the 32 bits a task id has for it. */
  predicate CanGetSlot(s: State, t: Tid, slot: Slot, src: Source) {
    CanStep(s, t) && s.clients[t].Getting? && slot < UINT32 && CanGet(s.pool, t, slot, src)
    && (src != Fresh ==> slot in s.hist)
  }

  function GetSlot(s: State, t: Tid, slot: Slot, src: Source): (r: State)
    requires CanGetSlot(s, t, slot, src)
    ensures r.jobs == s.jobs && (s.notified ==> r.notified)
  {
    if src == Fresh then Construct(s, t, slot) else Reuse(s, t, slot, src)
  }

  /** A recycled slot keeps the version and the fields its last task left in it. */
  function Reuse(s: State, t: Tid, slot: Slot, src: Source): (r: State)
    requires CanGetSlot(s, t, slot, src) && src != Fresh
    ensures r.jobs == s.jobs && (s.notified ==> r.notified)
  {
    var pc := s.clients[t];
    s.(pool := Get(s.pool, t, slot, src),
       clients := s.clients[t := Filling(pc.fn, pc.rt, pc.b, slot)],
       hist := s.hist[slot := s.hist[slot].(where := Held(t))])
  }

  /** A new slot is constructed with version 2 (line 14). */
  function Construct(s: State, t: Tid, slot: Slot): (r: State)
    requires CanGetSlot(s, t, slot, Fresh)
    ensures r.jobs == s.jobs && (s.notified ==> r.notified)
  {
    var pc := s.clients[t];
    s.(pool := Get(s.pool, t, slot, Fresh),
       clients := s.clients[t := Filling(pc.fn, pc.rt, pc.b, slot)],
       next := s.next[slot := None],
       info := s.info[slot := Info(0, 0, 0)],
       version := s.version[slot := 2],
       hist := s.hist[slot := Hist(0, Removed, Held(t))])
  }

  /** Lines 101-104. */
  predicate CanFill(s: State, t: Tid) {
    CanStep(s, t) && s.clients[t].Filling? && s.clients[t].slot in s.info
  }

  function Fill(s: State, t: Tid): (r: State)
    requires CanFill(s, t)
    ensures r.jobs == s.jobs && r.hist == s.hist && (s.notified ==> r.notified)
  {
    var pc := s.clients[t];
    s.(next := s.next[pc.slot := None],
       info := s.info[pc.slot := s.info[pc.slot].(fn := pc.fn, runTime := pc.rt)],
       clients := s.clients[t := Bumping(pc.fn, pc.rt, pc.b, pc.slot)])
  }

  /** Line 106.  The job is recorded with what the caller passed to schedule. */
  predicate CanBump(s: State, t: Tid) {
    CanStep(s, t) && s.clients[t].Bumping? && s.clients[t].slot in s.version && s.clients[t].slot in s.hist
  }

  function Bump(s: State, t: Tid): (r: State)
    requires CanBump(s, t)
    ensures s.notified ==> r.notified
  {
    var pc := s.clients[t];
    var x := pc.slot;
    var gen := s.hist[x].gen + 1;
    s.(version := s.version[x := (s.version[x] + 2) % 0x1_0000_0000],
       hist := s.hist[x := s.hist[x].(gen := gen, phase := Pending)],
       jobs := s.jobs[(x, gen) := Job(pc.fn, pc.rt, [], false, false)],
       clients := s.clients[t := Stamping(pc.rt, pc.b, x)])
  }

  /** Lines 107-109. */
  predicate CanStamp(s: State, t: Tid) {
    CanStep(s, t) && s.clients[t].Stamping? && s.clients[t].slot in s.version && s.clients[t].slot in s.info
  }

  function Stamp(s: State, t: Tid): (r: State)
    requires CanStamp(s, t)
    ensures r.jobs == s.jobs && r.hist == s.hist && (s.notified ==> r.notified)
  {
    var pc := s.clients[t];
    var id := MakeTaskId(pc.slot, s.version[pc.slot]);
    s.(info := s.info[pc.slot := s.info[pc.slot].(taskId := id)],
       clients := s.clients[t := Linking(pc.rt, pc.b, pc.slot)])
  }

  /** Lines 111-123 under the bucket's mutex, and the test of line 132. */
  predicate CanLink(s: State, t: Tid) {
    CanStep(s, t) && s.clients[t].Linking? && s.clients[t].slot in s.info && s.clients[t].slot in s.hist
    && s.clients[t].b < |s.buckets| && |s.lists| == |s.buckets|
  }

  function Link(s: State, t: Tid): (r: State)
    requires CanLink(s, t)
    ensures r.jobs == s.jobs && (s.notified ==> r.notified)
  {
    var pc := s.clients[t];
    var x, b := pc.slot, pc.b;
    var rt := s.info[x].runTime;
    var earlier := rt < s.buckets[b].nearest;
    var ticket := Ticket(s.info[x].taskId, x, s.hist[x].gen);
    s.(next := s.next[x := s.buckets[b].head],
       buckets := s.buckets[b := Bucket(Some(x), if earlier then rt else s.buckets[b].nearest)],
       clients := s.clients[t := if earlier then Checking(pc.rt, b, ticket) else Idle],
       issued := if earlier then s.issued else s.issued + {ticket},
       hist := s.hist[x := s.hist[x].(where := Linked(b))],
       lists := s.lists[b := [x] + s.lists[b]])
  }

  /** Lines 137-144 under the timer's mutex. */
  predicate CanCheck(s: State, t: Tid) {
    CanStep(s, t) && s.clients[t].Checking?
  }

  function Check(s: State, t: Tid): (r: State)
    requires CanCheck(s, t)
    ensures r.jobs == s.jobs && r.hist == s.hist && (s.notified ==> r.notified)
  {
    var pc := s.clients[t];
    if pc.rt < s.nearest then
      s.(nearest := pc.rt, clients := s.clients[t := Waking(pc.ticket)])
    else
      s.(clients := s.clients[t := Idle], issued := s.issued + {pc.ticket})
  }

  /** Line 146: a signal only reaches a worker that is waiting. */
  predicate CanWake(s: State, t: Tid) {
    CanStep(s, t) && s.clients[t].Waking?
  }

  function Wake(s: State, t: Tid): (r: State)
    requires CanWake(s, t)
    ensures r.jobs == s.jobs && r.hist == s.hist && (s.notified ==> r.notified)
  {
    s.(signal := s.signal || s.worker.Asleep?,
       clients := s.clients[t := Idle],
       issued := s.issued + {s.clients[t].ticket})
  }

  // ---------------------------------------------------------------- unschedule

  /** Lines 152-166.  An id has to be one that schedule returned, and not older than 2^30
      uses of its slot. */
  predicate CanUnschedule(s: State, t: Tid, k: Ticket) {
    && CanStep(s, t) && s.clients[t].Idle? && k in s.issued
    && SlotOf(k.id) in s.version && SlotOf(k.id) in s.hist && k.slot in s.hist && (k.slot, k.gen) in s.jobs
    && s.hist[k.slot].gen - k.gen < REUSE_WINDOW
  }

  /** The return value of unschedule. */
  function UnscheduleResult(s: State, k: Ticket): int
    requires SlotOf(k.id) in s.version
  {
    var v := s.version[SlotOf(k.id)];
    if v == VersionOf(k.id) then 0
    else if v == (VersionOf(k.id) + 1) % 0x1_0000_0000 then 1
    else -1
  }

  function Unschedule(s: State, t: Tid, k: Ticket): (r: State)
    requires CanUnschedule(s, t, k)
    ensures s.notified ==> r.notified
  {
    var x := SlotOf(k.id);
    if UnscheduleResult(s, k) == 0 then
      s.(version := s.version[x := (VersionOf(k.id) + 2) % 0x1_0000_0000],
         hist := s.hist[x := s.hist[x].(phase := Removed)],
         jobs := s.jobs[(k.slot, k.gen) := s.jobs[(k.slot, k.gen)].(revoked := true)])
    else s
  }

  // ---------------------------------------------------------------- stop_and_join

  predicate CanSetStop(s: State, t: Tid) {
    CanStep(s, t) && s.clients[t].Idle?
  }

  function SetStop(s: State, t: Tid): (r: State)
    ensures r.jobs == s.jobs && r.hist == s.hist && (s.notified ==> r.notified)
  {
    s.(stop := true, clients := s.clients[t := Stopping])
  }

  /** Lines 269-273 under the timer's mutex. */
  predicate CanNotify(s: State, t: Tid) {
    CanStep(s, t) && s.clients[t].Stopping?
  }

  function Notify(s: State, t: Tid): (r: State)
    ensures r.jobs == s.jobs && r.hist == s.hist && (s.notified ==> r.notified)
  {
    s.(nearest := 0, signal := s.signal || s.worker.Asleep?, notified := true, clients := s.clients[t := Idle])
  }

  /** A thread exits and its local pool is destroyed (idea/resource_pool_inl.h, lines 211-215). */
  predicate CanLeave(s: State, t: Tid) {
    CanStep(s, t) && t != WORKER && s.clients[t].Idle?
  }

  function LeavePool(s: State, t: Tid, ok: bool): (r: State)
    ensures r.jobs == s.jobs && r.hist == s.hist && (s.notified ==> r.notified)
  {
    s.(pool := Leave(s.pool, t, ok))
  }

  // ---------------------------------------------------------------- run

  /** Line 208. */
  predicate CanReadStop(s: State) { s.worker.Top? }

  function ReadStop(s: State): (r: State)
    ensures r.jobs == s.jobs && r.hist == s.hist && (s.notified ==> r.notified)
  {
    s.(worker := if s.stop then Exited else Resetting)
  }

  /** Lines 210-213. */
  predicate CanReset(s: State) { s.worker.Resetting? }

  function Reset(s: State): (r: State)
    ensures r.jobs == s.jobs && r.hist == s.hist
  {
    s.(nearest := MAX_TIME, worker := Scanning(0), notified := false)
  }

  /** Line 215, and the test of line 84 outside the lock. */
  predicate CanPeek(s: State) { s.worker.Scanning? }

  function AfterPeek(i: nat, buckets: seq<Bucket>): WorkerPc {
    if i >= |buckets| then HeapTop
    else if buckets[i].head == None then Scanning(i + 1)
    else Locking(i)
  }

  function Peek(s: State): (r: State)
    requires CanPeek(s)
    ensures r.jobs == s.jobs && r.hist == s.hist && (s.notified ==> r.notified)
  {
    s.(worker := AfterPeek(s.worker.i, s.buckets))
  }

  /** Lines 85-90 under the bucket's mutex. */
  predicate CanConsume(s: State) {
    s.worker.Locking? && s.worker.i < |s.buckets| && |s.lists| == |s.buckets|
  }

  function Consume(s: State): (r: State)
    requires CanConsume(s)
    ensures r.jobs == s.jobs && (s.notified ==> r.notified)
  {
    if s.buckets[s.worker.i].head == None then s.(worker := Scanning(s.worker.i + 1)) else TakeList(s)
  }

  function TakeList(s: State): (r: State)
    requires CanConsume(s) && s.buckets[s.worker.i].head != None
    ensures r.jobs == s.jobs && (s.notified ==> r.notified)
  {
    var i := s.worker.i;
    s.(worker := Visiting(i, s.buckets[i].head.value),
       buckets := s.buckets[i := Bucket(None, MAX_TIME)],
       lists := s.lists[i := []],
       consumed := s.lists[i], visited := [], walk := s.lists[i],
       hist := Unlink(s.hist, i))
  }

  /** The tasks of bucket i are now being walked. */
  function Unlink(hist: map<Slot, Hist>, i: nat): map<Slot, Hist> {
    map x | x in hist :: if hist[x].where == Linked(i) then hist[x].(where := Walking) else hist[x]
  }

  /** Line 218: the first load of try_delete (line 196), and push_heap if it returns false. */
  predicate CanVisit(s: State) {
    s.worker.Visiting? && s.worker.p in s.version && s.worker.p in s.info && s.worker.p in s.hist && s.walk != []
  }

  function Visit(s: State): (r: State)
    requires CanVisit(s)
    ensures r.jobs == s.jobs && (s.notified ==> r.notified)
  {
    var i, p := s.worker.i, s.worker.p;
    if s.version[p] != VersionOf(s.info[p].taskId) then
      s.(worker := Dropping(i, p))
    else
      s.(worker := Advancing(i, p),
         heap := s.heap + multiset{p},
         hist := s.hist[p := s.hist[p].(where := Heaped)],
         visited := s.visited + [p], walk := s.walk[1..])
  }

  /** Lines 197-199: the CHECK_EQ and return_resource on the scanning path. */
  predicate CanDrop(s: State) {
    s.worker.Dropping? && s.worker.p in s.version && s.worker.p in s.info && s.worker.p in s.hist && s.walk != []
    && SlotOf(s.info[s.worker.p].taskId) in s.hist
  }

  function Drop(s: State, sink: Sink): (r: State)
    requires CanDrop(s)
    ensures r.jobs == s.jobs && (s.notified ==> r.notified)
  {
    var i, p := s.worker.i, s.worker.p;
    var x := SlotOf(s.info[p].taskId);
    if s.version[p] != (VersionOf(s.info[p].taskId) + 2) % 0x1_0000_0000 then
      s.(worker := CheckFailed)
    else
      s.(worker := Advancing(i, p),
         pool := Return(s.pool, WORKER, x, sink),
         hist := s.hist[x := s.hist[x].(where := InPool)],
         visited := s.visited + [p], walk := s.walk[1..])
  }

  /** p = p->next of line 217, read after p may have been recycled. */
  predicate CanAdvance(s: State) {
    s.worker.Advancing? && s.worker.p in s.next
  }

  function AfterTask(i: nat, next: Option<Slot>): WorkerPc {
    match next
    case None => Scanning(i + 1)
    case Some(q) => Visiting(i, q)
  }

  function Advance(s: State): (r: State)
    requires CanAdvance(s)
    ensures r.jobs == s.jobs && r.hist == s.hist && (s.notified ==> r.notified)
  {
    s.(worker := AfterTask(s.worker.i, s.next[s.worker.p]))
  }

  /** "x" can be tasks[0] of the heap: no task in it is due earlier. */
  predicate IsTop(s: State, x: Slot) {
    x in s.heap && x in s.info && forall y | y in s.heap && y in s.info :: s.info[x].runTime <= s.info[y].runTime
  }

  /** Lines 225-227: the emptiness test, or the first load of try_delete on tasks[0]. */
  predicate CanLook(s: State, x: Slot) {
    s.worker.HeapTop? && s.heap != multiset{} && IsTop(s, x) && x in s.version
  }

  function Look(s: State, x: Slot): (r: State)
    requires CanLook(s, x)
    ensures r.jobs == s.jobs && r.hist == s.hist && (s.notified ==> r.notified)
  {
    s.(worker := if s.version[x] != VersionOf(s.info[x].taskId) then Discarding(x) else Timing(x))
  }

  predicate CanFinishHeap(s: State) {
    s.worker.HeapTop? && s.heap == multiset{}
  }

  /** Line 245. */
  function FinishHeap(s: State): (r: State)
    ensures r.jobs == s.jobs && r.hist == s.hist && (s.notified ==> r.notified)
  {
    s.(worker := Settling(MAX_TIME))
  }

  /** Lines 197-199 and 228-230. */
  predicate CanDiscard(s: State) {
    s.worker.Discarding? && s.worker.x in s.version && s.worker.x in s.info
    && SlotOf(s.info[s.worker.x].taskId) in s.hist
  }

  function Discard(s: State, sink: Sink): (r: State)
    requires CanDiscard(s)
    ensures r.jobs == s.jobs && (s.notified ==> r.notified)
  {
    var x := s.worker.x;
    var y := SlotOf(s.info[x].taskId);
    if s.version[x] != (VersionOf(s.info[x].taskId) + 2) % 0x1_0000_0000 then
      s.(worker := CheckFailed)
    else
      s.(worker := HeapTop,
         heap := s.heap - multiset{x},
         pool := Return(s.pool, WORKER, y, sink),
         hist := s.hist[y := s.hist[y].(where := InPool)])
  }

  /** Lines 233-238 and 247 with the clock reading "now". */
  predicate CanTime(s: State) {
    s.worker.Timing? && s.worker.x in s.info && s.worker.x in s.hist
  }

  function CheckTime(s: State, now: int): (r: State)
    requires CanTime(s)
    ensures r.jobs == s.jobs && (s.notified ==> r.notified)
  {
    if now < s.info[s.worker.x].runTime then s.(worker := Settling(s.info[s.worker.x].runTime), clock := now)
    else TakeTop(s, now)
  }

  /** The task on top of the heap is due, and is going to be run. */
  function TakeTop(s: State, now: int): (r: State)
    requires CanTime(s)
    ensures r.jobs == s.jobs && (s.notified ==> r.notified)
  {
    var x := s.worker.x;
    s.(worker := Claiming(x, now), clock := now,
       heap := s.heap - multiset{x},
       hist := s.hist[x := s.hist[x].(where := Claimed)])
  }

  /** Lines 169-174 and 179-185: the compare-and-swap of run_and_delete. */
  predicate CanClaim(s: State) {
    s.worker.Claiming? && s.worker.x in s.version && s.worker.x in s.info && s.worker.x in s.hist
    && (s.worker.x, s.hist[s.worker.x].gen) in s.jobs
  }

  function Claim(s: State): (r: State)
    requires CanClaim(s)
    ensures s.notified ==> r.notified
  {
    var x := s.worker.x;
    var v := VersionOf(s.info[x].taskId);
    if s.version[x] == v then StartFn(s)
    else if s.version[x] == (v + 2) % 0x1_0000_0000 then s.(worker := Recycling(x))
    else s.(worker := Impossible)
  }

  /** The swap has succeeded, and fn is called. */
  function StartFn(s: State): (r: State)
    requires CanClaim(s)
    ensures s.notified ==> r.notified
  {
    var x := s.worker.x;
    var v := VersionOf(s.info[x].taskId);
    var j := (x, s.hist[x].gen);
    s.(worker := InFn(x),
       version := s.version[x := (v + 1) % 0x1_0000_0000],
       hist := s.hist[x := s.hist[x].(phase := Running)],
       jobs := s.jobs[j := s.jobs[j].(runs := s.jobs[j].runs + [(s.info[x].fn, s.worker.now)])])
  }

  /** Line 176, once fn has returned. */
  predicate CanFnReturn(s: State) {
    s.worker.InFn? && WORKER in s.clients && s.clients[WORKER].Idle?
    && s.worker.x in s.info && s.worker.x in s.hist && s.worker.x in s.version
    && (s.worker.x, s.hist[s.worker.x].gen) in s.jobs
  }

  function FnReturn(s: State): (r: State)
    requires CanFnReturn(s)
    ensures s.notified ==> r.notified
  {
    var x := s.worker.x;
    var j := (x, s.hist[x].gen);
    s.(worker := Recycling(x),
       version := s.version[x := (VersionOf(s.info[x].taskId) + 2) % 0x1_0000_0000],
       hist := s.hist[x := s.hist[x].(phase := Removed)],
       jobs := s.jobs[j := s.jobs[j].(finished := true)])
  }

  /** Lines 177 and 181. */
  predicate CanRecycle(s: State) {
    s.worker.Recycling? && s.worker.x in s.info && SlotOf(s.info[s.worker.x].taskId) in s.hist
  }

  function Recycle(s: State, sink: Sink): (r: State)
    requires CanRecycle(s)
    ensures r.jobs == s.jobs && (s.notified ==> r.notified)
  {
    var y := SlotOf(s.info[s.worker.x].taskId);
    s.(worker := HeapTop,
       pool := Return(s.pool, WORKER, y, sink),
       hist := s.hist[y := s.hist[y].(where := InPool)])
  }

  /** Lines 250-262: the decision under the timer's mutex, which the wait releases. */
  predicate CanSettle(s: State) { s.worker.Settling? }

  function Settle(s: State): (r: State)
    requires CanSettle(s)
    ensures r.jobs == s.jobs && r.hist == s.hist && (s.notified ==> r.notified)
  {
    if s.worker.until > s.nearest then s.(worker := Top)
    else s.(worker := Asleep(s.worker.until), nearest := s.worker.until, signal := false)
  }

  /** The wait ends: by a signal, by the timeout, or spuriously. */
  predicate CanAwake(s: State) { s.worker.Asleep? }

  function Awake(s: State): (r: State)
    ensures r.jobs == s.jobs && r.hist == s.hist && (s.notified ==> r.notified)
  {
    s.(worker := Top, signal := false)
  }

  // ---------------------------------------------------------------- runs

  datatype ClientAction =
    | ACall(fn: nat, rt: Time, b: nat)
    | AGetSlot(slot: Slot, src: Source)
    | AFill
    | ABump
    | AStamp
    | ALink
    | ACheck
    | AWake
    | AUnschedule(k: Ticket)
    | ASetStop
    | ANotify
    | ALeave(ok: bool)

  datatype WorkerAction =
    | AReadStop
    | AReset
    | APeek
    | AConsume
    | AVisit
    | ADrop(sink: Sink)
    | AAdvance
    | ALook(x: Slot)
    | AFinishHeap
    | ADiscard(sink: Sink)
    | ACheckTime(now: int)
    | AClaim
    | AFnReturn
    | ARecycle(sink: Sink)
    | ASettle
    | AAwake

  datatype Action = ByThread(t: Tid, c: ClientAction) | ByWorker(w: WorkerAction)

  predicate ClientEnabled(s: State, t: Tid, a: ClientAction) {
    match a
    case ACall(fn, rt, b) => CanCall(s, t, b)
    case AGetSlot(slot, src) => CanGetSlot(s, t, slot, src)
    case AFill => CanFill(s, t)
    case ABump => CanBump(s, t)
    case AStamp => CanStamp(s, t)
    case ALink => CanLink(s, t)
    case ACheck => CanCheck(s, t)
    case AWake => CanWake(s, t)
    case AUnschedule(k) => CanUnschedule(s, t, k)
    case ASetStop => CanSetStop(s, t)
    case ANotify => CanNotify(s, t)
    case ALeave(ok) => CanLeave(s, t)
  }

  predicate WorkerEnabled(s: State, a: WorkerAction) {
    match a
    case AReadStop => CanReadStop(s)
    case AReset => CanReset(s)
    case APeek => CanPeek(s)
    case AConsume => CanConsume(s)
    case AVisit => CanVisit(s)
    case ADrop(sink) => CanDrop(s)
    case AAdvance => CanAdvance(s)
    case ALook(x) => CanLook(s, x)
    case AFinishHeap => CanFinishHeap(s)
    case ADiscard(sink) => CanDiscard(s)
    case ACheckTime(now) => CanTime(s)
    case AClaim => CanClaim(s)
    case AFnReturn => CanFnReturn(s)
    case ARecycle(sink) => CanRecycle(s)
    case ASettle => CanSettle(s)
    case AAwake => CanAwake(s)
  }

  function ClientDo(s: State, t: Tid, a: ClientAction): State
    requires ClientEnabled(s, t, a)
  {
    match a
    case ACall(fn, rt, b) => Call(s, t, fn, rt, b)
    case AGetSlot(slot, src) => GetSlot(s, t, slot, src)
    case AFill => Fill(s, t)
    case ABump => Bump(s, t)
    case AStamp => Stamp(s, t)
    case ALink => Link(s, t)
    case ACheck => Check(s, t)
    case AWake => Wake(s, t)
    case AUnschedule(k) => Unschedule(s, t, k)
    case ASetStop => SetStop(s, t)
    case ANotify => Notify(s, t)
    case ALeave(ok) => LeavePool(s, t, ok)
  }

  function WorkerDo(s: State, a: WorkerAction): State
    requires WorkerEnabled(s, a)
  {
    match a
    case AReadStop => ReadStop(s)
    case AReset => Reset(s)
    case APeek => Peek(s)
    case AConsume => Consume(s)
    case AVisit => Visit(s)
    case ADrop(sink) => Drop(s, sink)
    case AAdvance => Advance(s)
    case ALook(x) => Look(s, x)
    case AFinishHeap => FinishHeap(s)
    case ADiscard(sink) => Discard(s, sink)
    case ACheckTime(now) => CheckTime(s, now)
    case AClaim => Claim(s)
    case AFnReturn => FnReturn(s)
    case ARecycle(sink) => Recycle(s, sink)
    case ASettle => Settle(s)
    case AAwake => Awake(s)
  }

  predicate Enabled(s: State, a: Action) {
    match a
    case ByThread(t, c) => ClientEnabled(s, t, c)
    case ByWorker(w) => WorkerEnabled(s, w)
  }

  function Do(s: State, a: Action): State
    requires Enabled(s, a)
  {
    match a
    case ByThread(t, c) => ClientDo(s, t, c)
    case ByWorker(w) => WorkerDo(s, w)
  }

  ghost predicate Step(r: State, a: Action, s: State) {
    Enabled(r, a) && s == Do(r, a)
  }

  /** The states that a run passes through, from any state. */
  ghost predicate Path(states: seq<State>, run: seq<Action>) {
    && |states| == |run| + 1
    && forall i :: 0 <= i < |run| ==> Step(states[i], run[i], states[i + 1])
  }

  ghost predicate Follows(states: seq<State>, run: seq<Action>) {
    Path(states, run) && IsInit(states[0])
  }

  /** The run leads to s. */
  ghost predicate Reaches(run: seq<Action>, s: State) {
    exists states :: Follows(states, run) && Last(states) == s
  }
}
