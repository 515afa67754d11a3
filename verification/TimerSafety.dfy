/** Every step of the timer thread keeps the invariant. */
module TimerSafety {
  import opened Prelude
  import opened TaskIds
  import opened PoolSpec
  import opened TimerThread
  import opened TimerInvariant
  import opened TimerFrames

  lemma KeysAgree(s: State)
    requires KeysOk(s.next, s.info, s.version, s.hist)
    ensures s.info.Keys == s.hist.Keys
  {}

  // ---------------------------------------------------------------- steps of the scheduling threads

  /** Thread t works on the slot x that it holds afterwards. */
  lemma HolderStep(s: State, s': State, x: Slot, t: Tid, pc': ClientPc)
    requires Inv(s) && CanStep(s, t)
    requires s' == s.(next := s'.next, info := s'.info, version := s'.version, pool := s'.pool, hist := s'.hist,
                      jobs := s'.jobs, clients := s.clients[t := pc'])
    requires Except(s.next, s'.next, x) && Except(s.info, s'.info, x) && Except(s.version, s'.version, x)
    requires Except(s.hist, s'.hist, x) && JobsExcept(s.jobs, s'.jobs, x) && Grows(s.hist, s'.hist, s.jobs, s'.jobs)
    requires PoolOk(s'.pool, s'.hist) && x < UINT32
    requires s.worker.Advancing? ==>
               s.worker.p != x && s'.pool.LocalOf(WORKER) == s.pool.LocalOf(WORKER) && s'.pool.lost == s.pool.lost
    requires x in s.hist ==> s.hist[x].where == InPool || s.hist[x].where == Held(t)
    requires s'.hist[x].where == Held(t) && s'.hist[x].phase != Running
    requires SlotOk(x, s'.hist[x], s'.version[x], s'.info[x], s'.jobs)
    requires forall g :: (x, g) in s'.jobs ==> JobOk(x, g, s'.jobs[(x, g)], s'.hist)
    requires s.clients[t].Getting? || s.clients[t].Filling? || s.clients[t].Bumping? || s.clients[t].Stamping?
    requires PcSlot(s.clients[t]) == if x in s.hist && s.hist[x].where == Held(t) then Some(x) else None
    requires PcSlot(pc') == Some(x)
    requires ClientOk(t, pc', s'.hist, s'.info, s'.jobs, |s.buckets|)
    ensures Inv(s')
  {
    hide PoolOk, SlotsOk, JobsOk, ListsOk, WalkOk, HeapOk, IssuedOk, ClientsOk, WalkerOk, RunnerOk, NearestOk,
         CoveredOk, SleepOk, ClientOk, SlotOk, JobOk, Grows, JobsExcept, KeysOk, Except, StopOk, SelfOk;
    KeysFrame(x, s.next, s'.next, s.info, s'.info, s.version, s'.version, s.hist, s'.hist);
    SlotsFrame(x, s.hist, s'.hist, s.version, s'.version, s.info, s'.info, s.jobs, s'.jobs);
    JobsFrame(x, s.hist, s'.hist, s.jobs, s'.jobs);
    ListsFrame(x, s.next, s'.next, s.buckets, s.lists, s.hist, s'.hist);
    WalkFrame(x, s.walk, s.hist, s'.hist);
    HeapFrame(x, s.heap, s.hist, s'.hist);
    IssuedFrame(s.issued, s.hist, s'.hist, s.jobs, s'.jobs);
    HolderMoves(x, t, pc', s.clients, s.hist, s'.hist, s.info, s'.info, s.jobs, s'.jobs, |s.buckets|);
    WalkerFrame(x, s.worker, s.next, s'.next, s.walk, s.hist, s'.hist, s.pool, s'.pool, |s.buckets|);
    RunnerFrame(x, s.worker, s.hist, s'.hist, s.info, s'.info, s.heap);
    KeysAgree(s);
    NearestFrame(x, s.next, s.buckets, s.lists, s.hist, s.info, s'.info);
    CoveredMoves(s.worker, s.nearest, s.nearest, s.notified, s.buckets, s.clients, t, pc');
    SleepMoves(s.worker, s.nearest, s.signal, s.clients, t, pc');
    StopMoves(s.worker, s.nearest, s.nearest, s.signal, s.signal, s.stop, s.notified, s.clients, t, pc');
    SelfMoves(s.worker, s.clients, t, pc');
  }

  /** What the invariant says about the slot in the hands of thread t. */
  lemma HolderFacts(s: State, t: Tid, x: Slot)
    requires Inv(s) && CanStep(s, t) && PcSlot(s.clients[t]) == Some(x)
    ensures x in s.hist && x in s.next && x in s.info && x in s.version && x < UINT32
    ensures s.hist[x].where == Held(t)
    ensures SlotOk(x, s.hist[x], s.version[x], s.info[x], s.jobs)
    ensures ClientOk(t, s.clients[t], s.hist, s.info, s.jobs, |s.buckets|)
    ensures forall g :: (x, g) in s.jobs ==> JobOk(x, g, s.jobs[(x, g)], s.hist)
    ensures s.worker.Advancing? ==> s.worker.p != x
  {
    hide ListsOk, WalkOk, HeapOk, IssuedOk, RunnerOk, NearestOk, CoveredOk, SleepOk, StopOk;
    if s.worker.Advancing? { AdvancingSlot(s.worker, s.next, s.walk, s.hist, s.pool, |s.buckets|); }
  }

  /** A change of gen, phase or holder of a slot in use does not concern the pool. */
  lemma PoolFrame(pool: Pool, hist: map<Slot, Hist>, hist': map<Slot, Hist>, x: Slot)
    requires PoolOk(pool, hist) && Except(hist, hist', x) && x in hist
    requires hist[x].where != InPool && hist'[x].where != InPool
    ensures PoolOk(pool, hist')
  {
    hide Pool.Valid, Pool.Issued;
  }

  lemma GetSlotKeeps(s: State, t: Tid, slot: Slot, src: Source)
    requires Inv(s) && CanGetSlot(s, t, slot, src)
    ensures Inv(GetSlot(s, t, slot, src))
  {
    if src == Fresh { ConstructKeeps(s, t, slot); } else { ReuseKeeps(s, t, slot, src); }
  }

  /** What a recycled slot brings along. */
  lemma ReuseFacts(s: State, t: Tid, slot: Slot, src: Source)
    requires Inv(s) && CanGetSlot(s, t, slot, src) && src != Fresh
    ensures var s' := Reuse(s, t, slot, src);
            && slot in s'.version && slot in s'.info && s'.hist[slot].phase == Removed && PcSlot(s.clients[t]) == None
            && SlotOk(slot, s'.hist[slot], s'.version[slot], s'.info[slot], s'.jobs)
            && (forall g :: (slot, g) in s'.jobs ==> JobOk(slot, g, s'.jobs[(slot, g)], s'.hist))
            && ClientOk(t, s'.clients[t], s'.hist, s'.info, s'.jobs, |s.buckets|)
            && Grows(s.hist, s'.hist, s.jobs, s'.jobs) && JobsExcept(s.jobs, s'.jobs, slot)
  {
    hide PoolOk, SlotsOk, JobsOk, ListsOk, WalkOk, HeapOk, IssuedOk, ClientsOk, WalkerOk, RunnerOk, NearestOk,
         CoveredOk, SleepOk, StopOk, SelfOk, Pool.Valid, Pool.Issued, Get, CanGet;
    GetKeepsPool(s.pool, s.hist, Reuse(s, t, slot, src).hist[slot], t, slot, src);
    GetSlotFacts(s, t, slot, src);
  }

  lemma ReuseKeeps(s: State, t: Tid, slot: Slot, src: Source)
    requires Inv(s) && CanGetSlot(s, t, slot, src) && src != Fresh
    ensures Inv(Reuse(s, t, slot, src))
  {
    hide PoolOk, SlotsOk, JobsOk, ListsOk, WalkOk, HeapOk, IssuedOk, ClientsOk, WalkerOk, RunnerOk, NearestOk,
         CoveredOk, SleepOk, StopOk, SelfOk, Pool.Valid, Pool.Issued, Get, CanGet, Except, SlotOk, JobOk, ClientOk,
         Grows, JobsExcept;
    var s' := Reuse(s, t, slot, src);
    GetKeepsPool(s.pool, s.hist, s'.hist[slot], t, slot, src);
    GetSlotFacts(s, t, slot, src);
    ReuseFacts(s, t, slot, src);
    Updates(s.hist, slot, s'.hist[slot]);
    Updates(s.next, slot, None);
    Updates(s.info, slot, s.info[slot]);
    Updates(s.version, slot, 0);
    HolderStep(s, s', slot, t, s'.clients[t]);
  }

  lemma ConstructKeeps(s: State, t: Tid, slot: Slot)
    requires Inv(s) && CanGetSlot(s, t, slot, Fresh)
    ensures Inv(Construct(s, t, slot))
  {
    hide PoolOk, SlotsOk, JobsOk, ListsOk, WalkOk, HeapOk, IssuedOk, ClientsOk, WalkerOk, RunnerOk, NearestOk,
         CoveredOk, SleepOk, StopOk, SelfOk, Pool.Valid, Pool.Issued, Get, CanGet, Except;
    var s' := Construct(s, t, slot);
    GetKeepsPool(s.pool, s.hist, s'.hist[slot], t, slot, Fresh);
    GetSlotFacts(s, t, slot, Fresh);
    Updates(s.hist, slot, s'.hist[slot]);
    Updates(s.next, slot, s'.next[slot]);
    Updates(s.info, slot, s'.info[slot]);
    Updates(s.version, slot, 2);
    VersionSteps(0);
    HolderStep(s, s', slot, t, s'.clients[t]);
  }

  lemma GetSlotFacts(s: State, t: Tid, slot: Slot, src: Source)
    requires Inv(s) && CanGetSlot(s, t, slot, src)
    ensures slot in s.hist ==> SlotOk(slot, s.hist[slot], s.version[slot], s.info[slot], s.jobs)
    ensures ClientOk(t, s.clients[t], s.hist, s.info, s.jobs, |s.buckets|)
    ensures forall g :: (slot, g) in s.jobs ==> JobOk(slot, g, s.jobs[(slot, g)], s.hist)
    ensures s.worker.Advancing? ==> s.worker.p != slot
  {
    hide ListsOk, WalkOk, HeapOk, IssuedOk, RunnerOk, NearestOk, CoveredOk, SleepOk, StopOk;
    if s.worker.Advancing? { AdvancingSlot(s.worker, s.next, s.walk, s.hist, s.pool, |s.buckets|); }
  }

  lemma GetKeepsPool(pool: Pool, hist: map<Slot, Hist>, h: Hist, t: Tid, slot: Slot, src: Source)
    requires PoolOk(pool, hist) && CanGet(pool, t, slot, src) && h.where != InPool
    ensures slot in hist ==> hist[slot].where == InPool
    ensures src == Fresh <==> slot !in hist
    ensures PoolOk(Get(pool, t, slot, src), hist[slot := h])
    ensures t != WORKER ==> Get(pool, t, slot, src).LocalOf(WORKER) == pool.LocalOf(WORKER)
    ensures Get(pool, t, slot, src).lost == pool.lost
  {
    hide Pool.Valid, Pool.Issued;
    GetKeepsValid(pool, t, slot, src);
    GetIsFresh(pool, t, slot, src);
  }

  lemma GetIsFresh(pool: Pool, t: Tid, slot: Slot, src: Source)
    requires pool.Valid() && CanGet(pool, t, slot, src)
    ensures src == Fresh <==> !pool.Issued(slot)
    ensures slot !in pool.used
  {
    if src.FromLocal? { assert pool.IsFree(slot); }
  }

  lemma FillKeeps(s: State, t: Tid)
    requires Inv(s) && CanFill(s, t)
    ensures Inv(Fill(s, t))
  {
    hide PoolOk, SlotsOk, JobsOk, ListsOk, WalkOk, HeapOk, IssuedOk, ClientsOk, WalkerOk, RunnerOk, NearestOk,
         CoveredOk, SleepOk, StopOk, KeysOk, SelfOk;
    var s' := Fill(s, t);
    HolderFacts(s, t, s.clients[t].slot);
    HolderStep(s, s', s.clients[t].slot, t, s'.clients[t]);
  }

  lemma BumpKeeps(s: State, t: Tid)
    requires Inv(s) && CanBump(s, t)
    ensures Inv(Bump(s, t))
  {
    hide PoolOk, SlotsOk, JobsOk, ListsOk, WalkOk, HeapOk, IssuedOk, ClientsOk, WalkerOk, RunnerOk, NearestOk,
         CoveredOk, SleepOk, StopOk, KeysOk, SelfOk;
    var s' := Bump(s, t);
    var x := s.clients[t].slot;
    HolderFacts(s, t, x);
    PoolFrame(s.pool, s.hist, s'.hist, x);
    BumpJobs(s, t);
    hide JobOk, SlotOk, ClientOk, Grows, JobsExcept;
    HolderStep(s, s', x, t, s'.clients[t]);
  }

  lemma BumpJobs(s: State, t: Tid)
    requires Inv(s) && CanBump(s, t)
    ensures var s', x := Bump(s, t), s.clients[t].slot;
            && SlotOk(x, s'.hist[x], s'.version[x], s'.info[x], s'.jobs)
            && (forall g :: (x, g) in s'.jobs ==> JobOk(x, g, s'.jobs[(x, g)], s'.hist))
            && ClientOk(t, s'.clients[t], s'.hist, s'.info, s'.jobs, |s'.buckets|)
            && Grows(s.hist, s'.hist, s.jobs, s'.jobs)
            && JobsExcept(s.jobs, s'.jobs, x)
  {
    hide PoolOk, SlotsOk, JobsOk, ListsOk, WalkOk, HeapOk, IssuedOk, ClientsOk, WalkerOk, RunnerOk, NearestOk,
         CoveredOk, SleepOk, StopOk, KeysOk, SelfOk;
    var x := s.clients[t].slot;
    HolderFacts(s, t, x);
    VersionSteps(s.hist[x].gen);
  }

  lemma StampKeeps(s: State, t: Tid)
    requires Inv(s) && CanStamp(s, t)
    ensures Inv(Stamp(s, t))
  {
    hide PoolOk, SlotsOk, JobsOk, ListsOk, WalkOk, HeapOk, IssuedOk, ClientsOk, WalkerOk, RunnerOk, NearestOk,
         CoveredOk, SleepOk, StopOk, KeysOk, SelfOk;
    var s' := Stamp(s, t);
    HolderFacts(s, t, s.clients[t].slot);
    HolderStep(s, s', s.clients[t].slot, t, s'.clients[t]);
  }

  // ---------------------------------------------------------------- steps that touch no slot

  /** Thread t moves on, perhaps with a ticket, and the times and the signal change as given. */
  lemma ClientStep(s: State, s': State, t: Tid, pc': ClientPc, k: Ticket)
    requires Inv(s) && CanStep(s, t)
    requires s' == s.(clients := s.clients[t := pc'], nearest := s'.nearest, signal := s'.signal, issued := s'.issued)
    requires s'.nearest <= s.nearest && (s.signal ==> s'.signal)
    requires s'.issued == s.issued || (s'.issued == s.issued + {k} && TicketOk(k, s.hist, s.jobs))
    requires PcSlot(s.clients[t]) == None && PcSlot(pc') == None
    requires ClientOk(t, pc', s.hist, s.info, s.jobs, |s.buckets|)
    requires s.clients[t].Checking? ==> s'.nearest <= s.clients[t].rt
    requires s.clients[t].Waking? && s.worker.Asleep? ==> s'.signal
    requires s'.nearest == s.nearest || pc'.Waking? || (s.worker.Asleep? ==> s'.signal)
    requires !pc'.Stopping?
    ensures Inv(s')
  {
    hide PoolOk, SlotsOk, JobsOk, ListsOk, WalkOk, HeapOk, ClientsOk, WalkerOk, RunnerOk, NearestOk, CoveredOk,
         KeysOk, StopOk, SelfOk, ClientOk, TicketOk;
    ClientMoves(t, pc', s.clients, s.hist, s.info, s.jobs, |s.buckets|);
    CoveredMoves(s.worker, s.nearest, s'.nearest, s.notified, s.buckets, s.clients, t, pc');
    StopMoves(s.worker, s.nearest, s'.nearest, s.signal, s'.signal, s.stop, s.notified, s.clients, t, pc');
    SelfMoves(s.worker, s.clients, t, pc');
    if pc'.Waking? {
      assert t in s'.clients && s'.clients[t].Waking?;
    } else if s'.nearest == s.nearest && !s'.signal {
      SleepMoves(s.worker, s.nearest, s.signal, s.clients, t, pc');
    }
  }

  lemma PcFacts(s: State, t: Tid)
    requires Inv(s) && t in s.clients
    ensures ClientOk(t, s.clients[t], s.hist, s.info, s.jobs, |s.buckets|)
  {
    hide PoolOk, SlotsOk, JobsOk, ListsOk, WalkOk, HeapOk, IssuedOk, WalkerOk, RunnerOk, NearestOk,
         CoveredOk, SleepOk, KeysOk, StopOk, SelfOk;
  }

  lemma CallKeeps(s: State, t: Tid, fn: nat, rt: Time, b: nat)
    requires Inv(s) && CanCall(s, t, b)
    ensures Inv(Call(s, t, fn, rt, b))
  {
    hide PoolOk, SlotsOk, JobsOk, ListsOk, WalkOk, HeapOk, IssuedOk, ClientsOk, WalkerOk, RunnerOk, NearestOk,
         CoveredOk, SleepOk, KeysOk, StopOk, SelfOk;
    ClientStep(s, Call(s, t, fn, rt, b), t, Getting(fn, rt, b), Ticket(0, 0, 0));
  }

  lemma CheckKeeps(s: State, t: Tid)
    requires Inv(s) && CanCheck(s, t)
    ensures Inv(Check(s, t))
  {
    hide PoolOk, SlotsOk, JobsOk, ListsOk, WalkOk, HeapOk, IssuedOk, ClientsOk, WalkerOk, RunnerOk, NearestOk,
         CoveredOk, SleepOk, KeysOk, StopOk, SelfOk;
    PcFacts(s, t);
    var s' := Check(s, t);
    ClientStep(s, s', t, s'.clients[t], s.clients[t].ticket);
  }

  lemma WakeKeeps(s: State, t: Tid)
    requires Inv(s) && CanWake(s, t)
    ensures Inv(Wake(s, t))
  {
    hide PoolOk, SlotsOk, JobsOk, ListsOk, WalkOk, HeapOk, IssuedOk, ClientsOk, WalkerOk, RunnerOk, NearestOk,
         CoveredOk, SleepOk, KeysOk, StopOk, SelfOk;
    PcFacts(s, t);
    ClientStep(s, Wake(s, t), t, Idle, s.clients[t].ticket);
  }

  lemma SetStopKeeps(s: State, t: Tid)
    requires Inv(s) && CanSetStop(s, t)
    ensures Inv(SetStop(s, t))
  {
    hide PoolOk, SlotsOk, JobsOk, ListsOk, WalkOk, HeapOk, IssuedOk, ClientsOk, WalkerOk, RunnerOk, NearestOk,
         CoveredOk, SleepOk, KeysOk;
    ClientMoves(t, Stopping, s.clients, s.hist, s.info, s.jobs, |s.buckets|);
    CoveredMoves(s.worker, s.nearest, s.nearest, s.notified, s.buckets, s.clients, t, Stopping);
    SleepMoves(s.worker, s.nearest, s.signal, s.clients, t, Stopping);
  }

  lemma NotifyKeeps(s: State, t: Tid)
    requires Inv(s) && CanNotify(s, t)
    ensures Inv(Notify(s, t))
  {
    hide PoolOk, SlotsOk, JobsOk, ListsOk, WalkOk, HeapOk, IssuedOk, ClientsOk, WalkerOk, RunnerOk, NearestOk,
         KeysOk;
    ClientMoves(t, Idle, s.clients, s.hist, s.info, s.jobs, |s.buckets|);
  }

  lemma LeaveKeeps(s: State, t: Tid, ok: bool)
    requires Inv(s) && CanLeave(s, t)
    ensures Inv(LeavePool(s, t, ok))
  {
    hide SlotsOk, JobsOk, ListsOk, WalkOk, HeapOk, IssuedOk, ClientsOk, RunnerOk, NearestOk, CoveredOk, SleepOk, KeysOk,
         StopOk, SelfOk, Pool.Valid, Pool.Issued;
    LeaveKeepsValid(s.pool, t, ok);
  }

  // ---------------------------------------------------------------- linking a task into a bucket

  lemma LinkLists(
      x: Slot, b: nat, next: map<Slot, Option<Slot>>, buckets: seq<Bucket>, lists: seq<seq<Slot>>,
      hist: map<Slot, Hist>, nearest: Time)
    requires ListsOk(next, buckets, lists, hist) && b < |lists|
    requires x in hist && x in next && !hist[x].where.Linked?
    ensures ListsOk(next[x := buckets[b].head], buckets[b := Bucket(Some(x), nearest)], lists[b := [x] + lists[b]],
                    hist[x := hist[x].(where := Linked(b))])
  {
    var next' := next[x := buckets[b].head];
    var buckets' := buckets[b := Bucket(Some(x), nearest)];
    var lists' := lists[b := [x] + lists[b]];
    var hist' := hist[x := hist[x].(where := Linked(b))];
    forall c | 0 <= c < |lists'| ensures ListOk(c, next', buckets'[c].head, lists'[c], hist') {
      assert ListOk(c, next, buckets[c].head, lists[c], hist);
      assert x !in lists[c];
      ChainFrame(next, next', buckets[c].head, lists[c]);
      assert ([x] + lists[b])[1..] == lists[b];
    }
  }

  lemma LinkNearest(
      x: Slot, b: nat, buckets: seq<Bucket>, lists: seq<seq<Slot>>, info: map<Slot, Info>,
      nearest: Time, head: Option<Slot>)
    requires NearestOk(buckets, lists, info) && b < |lists| == |buckets| && x in info
    requires nearest == if info[x].runTime < buckets[b].nearest then info[x].runTime else buckets[b].nearest
    ensures NearestOk(buckets[b := Bucket(head, nearest)], lists[b := [x] + lists[b]], info)
  {}

  lemma LinkCovered(
      w: WorkerPc, nearest: Time, notified: bool, buckets: seq<Bucket>, clients: map<Tid, ClientPc>, t: Tid,
      pc': ClientPc, b: nat, bucket: Bucket)
    requires CoveredOk(w, nearest, notified, buckets, clients) && t in clients && !clients[t].Checking?
    requires b < |buckets|
    requires bucket.nearest == buckets[b].nearest || (pc'.Checking? && pc'.rt == bucket.nearest)
    ensures CoveredOk(w, nearest, notified, buckets[b := bucket], clients[t := pc'])
  {
    CoveredMoves(w, nearest, nearest, notified, buckets, clients, t, pc');
    if bucket.nearest != buckets[b].nearest {
      assert clients[t := pc'][t].Checking?;
      assert CheckDue(clients[t := pc'], bucket.nearest);
    }
  }

  /** The facts about the linked slot, before and after. */
  lemma LinkLeaves(s: State, t: Tid)
    requires Inv(s) && CanLink(s, t)
    ensures var s', x := Link(s, t), s.clients[t].slot;
            && x in s'.info && x in s'.version
            && SlotOk(x, s'.hist[x], s'.version[x], s'.info[x], s'.jobs)
            && (forall g :: (x, g) in s'.jobs ==> JobOk(x, g, s'.jobs[(x, g)], s'.hist))
            && ClientOk(t, s'.clients[t], s'.hist, s'.info, s'.jobs, |s.buckets|)
            && TicketOk(Ticket(s.info[x].taskId, x, s.hist[x].gen), s'.hist, s'.jobs)
            && Grows(s.hist, s'.hist, s.jobs, s'.jobs) && JobsExcept(s.jobs, s'.jobs, x)
            && Except(s.hist, s'.hist, x) && Except(s.next, s'.next, x)
            && Except(s.info, s.info, x) && Except(s.version, s.version, x)
            && s.hist[x].where == Held(t) && s.clients[t].rt == s.info[x].runTime
            && (s.worker.Advancing? ==> s.worker.p != x) && x < UINT32
            && x in s.next && s.hist[x].phase == Pending
  {
    hide PoolOk, SlotsOk, JobsOk, ListsOk, WalkOk, HeapOk, IssuedOk, ClientsOk, WalkerOk, RunnerOk, NearestOk,
         CoveredOk, SleepOk, KeysOk, StopOk, SelfOk;
    var x := s.clients[t].slot;
    HolderFacts(s, t, x);
  }

  lemma LinkKeeps(s: State, t: Tid)
    requires Inv(s) && CanLink(s, t)
    ensures Inv(Link(s, t))
  {
    hide PoolOk, SlotsOk, JobsOk, ListsOk, WalkOk, HeapOk, IssuedOk, ClientsOk, WalkerOk, RunnerOk, NearestOk,
         CoveredOk, SleepOk, KeysOk, StopOk, SelfOk, ClientOk, SlotOk, JobOk, Grows, JobsExcept, Except, TicketOk;
    var s', x := Link(s, t), s.clients[t].slot;
    var pc', b := s'.clients[t], s.clients[t].b;
    LinkLeaves(s, t);
    PoolFrame(s.pool, s.hist, s'.hist, x);
    KeysFrame(x, s.next, s'.next, s.info, s'.info, s.version, s'.version, s.hist, s'.hist);
    SlotsFrame(x, s.hist, s'.hist, s.version, s'.version, s.info, s'.info, s.jobs, s'.jobs);
    JobsFrame(x, s.hist, s'.hist, s.jobs, s'.jobs);
    LinkLists(x, b, s.next, s.buckets, s.lists, s.hist, s'.buckets[b].nearest);
    WalkFrame(x, s.walk, s.hist, s'.hist);
    HeapFrame(x, s.heap, s.hist, s'.hist);
    IssuedFrame(s.issued, s.hist, s'.hist, s.jobs, s'.jobs);
    IssuedAdd(s.issued, Ticket(s.info[x].taskId, x, s.hist[x].gen), s'.hist, s'.jobs);
    HolderMoves(x, t, pc', s.clients, s.hist, s'.hist, s.info, s'.info, s.jobs, s'.jobs, |s.buckets|);
    WalkerFrame(x, s.worker, s.next, s'.next, s.walk, s.hist, s'.hist, s.pool, s'.pool, |s.buckets|);
    RunnerFrame(x, s.worker, s.hist, s'.hist, s.info, s'.info, s.heap);
    LinkNearest(x, b, s.buckets, s.lists, s.info, s'.buckets[b].nearest, Some(x));
    LinkCovered(s.worker, s.nearest, s.notified, s.buckets, s.clients, t, pc', b, s'.buckets[b]);
    SleepMoves(s.worker, s.nearest, s.signal, s.clients, t, pc');
    StopMoves(s.worker, s.nearest, s.nearest, s.signal, s.signal, s.stop, s.notified, s.clients, t, pc');
    SelfMoves(s.worker, s.clients, t, pc');
  }

  lemma IssuedAdd(issued: set<Ticket>, k: Ticket, hist: map<Slot, Hist>, jobs: map<(Slot, nat), Job>)
    requires IssuedOk(issued, hist, jobs) && TicketOk(k, hist, jobs)
    ensures IssuedOk(issued + {k}, hist, jobs)
  {}

  // ---------------------------------------------------------------- steps of the worker

  /** A step that moves the slot x between the worker's places, or changes its phase. */
  lemma TimerSlotStep(s: State, s': State, x: Slot)
    requires Inv(s) && x in s.hist
    requires s' == s.(version := s'.version, hist := s'.hist, jobs := s'.jobs, pool := s'.pool, heap := s'.heap,
                      walk := s'.walk, visited := s'.visited, worker := s'.worker, clock := s'.clock)
    requires Except(s.version, s'.version, x) && Except(s.hist, s'.hist, x) && JobsExcept(s.jobs, s'.jobs, x)
    requires Grows(s.hist, s'.hist, s.jobs, s'.jobs)
    requires !s.hist[x].where.Held? && !s'.hist[x].where.Held?
    requires s.hist[x].where.Linked? || s'.hist[x].where.Linked? ==> s'.hist[x].where == s.hist[x].where
    requires x in s.info && SlotOk(x, s'.hist[x], s'.version[x], s.info[x], s'.jobs)
    requires forall g :: (x, g) in s'.jobs ==> JobOk(x, g, s'.jobs[(x, g)], s'.hist)
    requires PoolOk(s'.pool, s'.hist)
    requires WalkOk(s'.walk, s'.hist) && s'.consumed == s'.visited + s'.walk
    requires HeapOk(s'.heap, s'.hist)
    requires WalkerOk(s'.worker, s'.next, s'.walk, s'.hist, s'.pool, |s.buckets|)
    requires RunnerOk(s'.worker, s'.hist, s'.info, s'.heap) && DueOk(s'.worker, s'.heap, s'.clock)
    requires s'.worker == s.worker || WorkerMoves(s.worker, s'.worker, |s.buckets|)
    requires s'.worker.InFn? || s.clients[WORKER] == Idle
    ensures Inv(s')
  {
    hide PoolOk, SlotsOk, JobsOk, ListsOk, WalkOk, HeapOk, IssuedOk, ClientsOk, WalkerOk, RunnerOk, NearestOk,
         CoveredOk, SleepOk, KeysOk, StopOk, SelfOk, SlotOk, JobOk, Grows, JobsExcept, Except;
    KeysAgree(s);
    KeysSame(s, s', x);
    SlotsFrame(x, s.hist, s'.hist, s.version, s'.version, s.info, s'.info, s.jobs, s'.jobs);
    JobsFrame(x, s.hist, s'.hist, s.jobs, s'.jobs);
    if s.hist[x].where.Linked? {
      RelabelLists(x, s.next, s.buckets, s.lists, s.hist, s'.hist);
    } else {
      ListsFrame(x, s.next, s.next, s.buckets, s.lists, s.hist, s'.hist);
    }
    IssuedFrame(s.issued, s.hist, s'.hist, s.jobs, s'.jobs);
    ClientsFrame(x, s.clients, s.hist, s'.hist, s.info, s.jobs, s'.jobs, |s.buckets|);
    SelfHere(s, s');
    if s'.worker != s.worker {
      MovesCovered(s.worker, s'.worker, s.nearest, s.notified, s.buckets, s.clients);
      MovesStop(s.worker, s'.worker, s.nearest, s.signal, s.stop, s.notified, s.clients, |s.buckets|);
      MovesSleep(s.worker, s'.worker, s.nearest, s.signal, s.clients, |s.buckets|);
    }
  }

  lemma KeysSame(s: State, s': State, x: Slot)
    requires KeysOk(s.next, s.info, s.version, s.hist) && x in s.hist
    requires s'.next == s.next && s'.info == s.info
    requires Except(s.version, s'.version, x) && Except(s.hist, s'.hist, x)
    ensures KeysOk(s'.next, s'.info, s'.version, s'.hist)
    ensures Except(s.next, s'.next, x) && Except(s.info, s'.info, x)
  {}

  lemma SelfHere(s: State, s': State)
    requires SelfOk(s.worker, s.clients) && s'.clients == s.clients
    requires s'.worker.InFn? || s.clients[WORKER] == Idle
    ensures SelfOk(s'.worker, s'.clients)
  {}

  lemma RelabelLists(
      x: Slot, next: map<Slot, Option<Slot>>, buckets: seq<Bucket>, lists: seq<seq<Slot>>,
      hist: map<Slot, Hist>, hist': map<Slot, Hist>)
    requires ListsOk(next, buckets, lists, hist) && Except(hist, hist', x) && x in hist
    requires hist'[x].where == hist[x].where
    ensures ListsOk(next, buckets, lists, hist')
  {
    forall b | 0 <= b < |lists| ensures ListOk(b, next, buckets[b].head, lists[b], hist') {
      assert ListOk(b, next, buckets[b].head, lists[b], hist);
    }
  }

  /** The worker goes on without skipping a bucket, going to sleep, or being asleep. */
  ghost predicate WorkerMoves(w: WorkerPc, w': WorkerPc, n: nat) {
    && (forall b: nat :: b < n && ToScan(w, b) ==> ToScan(w', b))
    && !w.Asleep? && !w'.Asleep? && !w.Top? && !w.Exited?
  }

  lemma MovesCovered(
      w: WorkerPc, w': WorkerPc, nearest: Time, notified: bool, buckets: seq<Bucket>, clients: map<Tid, ClientPc>)
    requires CoveredOk(w, nearest, notified, buckets, clients) && WorkerMoves(w, w', |buckets|)
    ensures CoveredOk(w', nearest, notified, buckets, clients)
  {
    forall b | !notified && 0 <= b < |buckets|
      ensures Covers(w', nearest, b, buckets[b].nearest) || CheckDue(clients, buckets[b].nearest)
    {
      assert Covers(w, nearest, b, buckets[b].nearest) || CheckDue(clients, buckets[b].nearest);
    }
  }

  lemma MovesStop(
      w: WorkerPc, w': WorkerPc, nearest: Time, signal: bool, stop: bool, notified: bool,
      clients: map<Tid, ClientPc>, n: nat)
    requires StopOk(w, nearest, signal, stop, notified, clients) && WorkerMoves(w, w', n)
    ensures StopOk(w', nearest, signal, stop, notified, clients)
  {}

  lemma MovesSleep(w: WorkerPc, w': WorkerPc, nearest: Time, signal: bool, clients: map<Tid, ClientPc>, n: nat)
    requires WorkerMoves(w, w', n)
    ensures SleepOk(w', nearest, signal, clients)
  {}

  /** What the invariant says about a slot that is with the timer. */
  lemma TimerSlotFacts(s: State, x: Slot)
    requires Inv(s) && x in s.hist && InTimer(s.hist[x].where)
    ensures x in s.next && x in s.info && x in s.version && x < UINT32 && (x, s.hist[x].gen) in s.jobs
    ensures SlotOf(s.info[x].taskId) == x
    ensures VersionOf(s.info[x].taskId) == VersionAt(s.hist[x].gen, Pending)
    ensures s.version[x] == VersionAt(s.hist[x].gen, s.hist[x].phase)
    ensures SlotOk(x, s.hist[x], s.version[x], s.info[x], s.jobs)
    ensures forall g :: (x, g) in s.jobs ==> JobOk(x, g, s.jobs[(x, g)], s.hist)
    ensures s.hist[x].phase == Running ==> s.worker == InFn(x)
  {
    hide PoolOk, ListsOk, WalkOk, HeapOk, IssuedOk, ClientsOk, WalkerOk, NearestOk, CoveredOk, SleepOk, StopOk, SelfOk;
    assert SlotOk(x, s.hist[x], s.version[x], s.info[x], s.jobs);
    VersionShape(s.hist[x].gen, Pending);
    RoundTrip(x, VersionAt(s.hist[x].gen, Pending));
  }

  /** The three phases of one use have three different versions. */
  lemma PhaseVersions(gen: nat)
    ensures VersionAt(gen, Running) != VersionAt(gen, Pending)
    ensures VersionAt(gen, Removed) != VersionAt(gen, Pending)
    ensures (VersionAt(gen, Pending) + 1) % 0x1_0000_0000 == VersionAt(gen, Running)
    ensures (VersionAt(gen, Pending) + 2) % 0x1_0000_0000 == VersionAt(gen, Removed)
    ensures VersionAt(gen, Running) != VersionAt(gen, Removed)
  {
    VersionIs(gen, Pending);
    VersionIs(gen, Running);
    VersionIs(gen, Removed);
    VersionSteps(gen);
  }

  /** The worker reads, decides and goes on. */
  lemma WorkerStep(s: State, s': State)
    requires Inv(s)
    requires s' == s.(worker := s'.worker, clock := s'.clock)
    requires WalkerOk(s'.worker, s'.next, s'.walk, s'.hist, s'.pool, |s.buckets|)
    requires RunnerOk(s'.worker, s'.hist, s'.info, s'.heap) && DueOk(s'.worker, s'.heap, s'.clock)
    requires WorkerMoves(s.worker, s'.worker, |s.buckets|)
    requires !s.worker.InFn?
    ensures Inv(s')
  {
    hide PoolOk, SlotsOk, JobsOk, ListsOk, WalkOk, HeapOk, IssuedOk, ClientsOk, WalkerOk, RunnerOk, NearestOk,
         CoveredOk, SleepOk, KeysOk, StopOk, SelfOk, SlotOk, JobOk, Grows, JobsExcept, Except;
    SelfHere(s, s') by { NotInFn(s); }
    MovesCovered(s.worker, s'.worker, s.nearest, s.notified, s.buckets, s.clients);
    MovesStop(s.worker, s'.worker, s.nearest, s.signal, s.stop, s.notified, s.clients, |s.buckets|);
    MovesSleep(s.worker, s'.worker, s.nearest, s.signal, s.clients, |s.buckets|);
  }

  lemma NotInFn(s: State)
    requires SelfOk(s.worker, s.clients) && !s.worker.InFn?
    ensures WORKER in s.clients && s.clients[WORKER] == Idle
  {}

  lemma ReadStopKeeps(s: State)
    requires Inv(s) && CanReadStop(s)
    ensures Inv(ReadStop(s))
  {
    hide PoolOk, SlotsOk, JobsOk, ListsOk, WalkOk, HeapOk, IssuedOk, ClientsOk, NearestOk, KeysOk, SlotOk, JobOk,
         Grows, JobsExcept, Except;
  }

  lemma ResetKeeps(s: State)
    requires Inv(s) && CanReset(s)
    ensures Inv(Reset(s))
  {
    hide PoolOk, SlotsOk, JobsOk, ListsOk, WalkOk, HeapOk, IssuedOk, ClientsOk, NearestOk, KeysOk, SlotOk, JobOk,
         Grows, JobsExcept, Except;
  }

  /** A bucket with a null head is empty, and can be passed over. */
  lemma EmptyBucket(s: State, i: nat)
    requires ListsOk(s.next, s.buckets, s.lists, s.hist) && NearestOk(s.buckets, s.lists, s.info)
    requires i < |s.buckets|
    ensures s.buckets[i].head == None <==> s.lists[i] == []
    ensures s.lists[i] == [] ==> s.buckets[i].nearest == MAX_TIME
    ensures s.lists[i] != [] ==> s.buckets[i].head == Some(s.lists[i][0])
  {
    assert ListOk(i, s.next, s.buckets[i].head, s.lists[i], s.hist);
  }

  lemma PassBucket(
      i: nat, nearest: Time, notified: bool, buckets: seq<Bucket>, clients: map<Tid, ClientPc>,
      w: WorkerPc, w': WorkerPc)
    requires CoveredOk(w, nearest, notified, buckets, clients) && i < |buckets| && buckets[i].nearest == MAX_TIME
    requires forall b: nat :: b != i && ToScan(w, b) ==> ToScan(w', b)
    ensures CoveredOk(w', nearest, notified, buckets, clients)
  {
    forall b | !notified && 0 <= b < |buckets|
      ensures Covers(w', nearest, b, buckets[b].nearest) || CheckDue(clients, buckets[b].nearest)
    {
      assert Covers(w, nearest, b, buckets[b].nearest) || CheckDue(clients, buckets[b].nearest);
    }
  }

  lemma PeekKeeps(s: State)
    requires Inv(s) && CanPeek(s)
    ensures Inv(Peek(s))
  {
    hide PoolOk, SlotsOk, JobsOk, ListsOk, WalkOk, HeapOk, IssuedOk, ClientsOk, WalkerOk, RunnerOk, NearestOk,
         CoveredOk, SleepOk, KeysOk, StopOk, SelfOk;
    var i := s.worker.i;
    if i < |s.buckets| && s.buckets[i].head == None { PassKeeps(s, i); } else { PeekFindsKeeps(s, i); }
  }

  /** Going on to the next bucket when the head of this one is null. */
  lemma PassKeeps(s: State, i: nat)
    requires Inv(s) && (s.worker == Scanning(i) || s.worker == Locking(i))
    requires i < |s.buckets| && s.buckets[i].head == None
    ensures Inv(s.(worker := Scanning(i + 1)))
  {
    hide PoolOk, SlotsOk, JobsOk, ListsOk, WalkOk, HeapOk, IssuedOk, ClientsOk, NearestOk, CoveredOk, KeysOk,
         SlotOk, JobOk, Grows, JobsExcept, Except;
    EmptyBucket(s, i);
    PassBucket(i, s.nearest, s.notified, s.buckets, s.clients, s.worker, Scanning(i + 1));
  }

  lemma PeekFindsKeeps(s: State, i: nat)
    requires Inv(s) && s.worker == Scanning(i) && (i < |s.buckets| ==> s.buckets[i].head != None)
    ensures Inv(Peek(s))
  {
    hide PoolOk, SlotsOk, JobsOk, ListsOk, WalkOk, HeapOk, IssuedOk, ClientsOk, NearestOk, CoveredOk, SleepOk, KeysOk,
         StopOk, SelfOk;
    WorkerStep(s, Peek(s));
  }

  lemma AdvanceKeeps(s: State)
    requires Inv(s) && CanAdvance(s)
    ensures Inv(Advance(s))
  {
    hide PoolOk, SlotsOk, JobsOk, ListsOk, WalkOk, HeapOk, IssuedOk, ClientsOk, NearestOk, CoveredOk, SleepOk,
         KeysOk, StopOk, SelfOk, SlotOk, JobOk, Grows, JobsExcept, Except, WalkerOk, RunnerOk, WorkerMoves;
    AdvanceWalker(s.worker, s.next, s.walk, s.hist, s.pool, |s.buckets|);
    WalksOn(s.worker, Advance(s).worker, s.hist, s.info, s.heap);
    WorkerStep(s, Advance(s));
  }

  /** A worker that walks runs nothing. */
  predicate Walks(w: WorkerPc) {
    w.Scanning? || w.Locking? || w.Visiting? || w.Dropping? || w.Advancing?
  }

  lemma WalksOn(w: WorkerPc, w': WorkerPc, hist: map<Slot, Hist>, info: map<Slot, Info>, heap: multiset<Slot>)
    requires RunnerOk(w, hist, info, heap) && Walks(w) && Walks(w')
    ensures RunnerOk(w', hist, info, heap)
  {}

  lemma AdvanceWalker(
      w: WorkerPc, next: map<Slot, Option<Slot>>, walk: seq<Slot>, hist: map<Slot, Hist>, pool: Pool, n: nat)
    requires WalkerOk(w, next, walk, hist, pool, n) && w.Advancing? && w.p in next
    ensures var w' := match next[w.p] case None => Scanning(w.i + 1) case Some(q) => Visiting(w.i, q);
            WalkerOk(w', next, walk, hist, pool, n) && WorkerMoves(w, w', n)
  {
    ChainEnds(next, next[w.p], walk);
  }

  lemma ChainEnds(next: map<Slot, Option<Slot>>, head: Option<Slot>, list: seq<Slot>)
    requires Chain(next, head, list)
    ensures head == None <==> list == []
  {}

  lemma FinishHeapKeeps(s: State)
    requires Inv(s) && CanFinishHeap(s)
    ensures Inv(FinishHeap(s))
  {
    hide PoolOk, SlotsOk, JobsOk, ListsOk, WalkOk, HeapOk, IssuedOk, ClientsOk, NearestOk, CoveredOk, SleepOk,
         KeysOk, StopOk, SelfOk, SlotOk, JobOk, Grows, JobsExcept, Except;
    WorkerStep(s, FinishHeap(s));
  }

  lemma LookKeeps(s: State, x: Slot)
    requires Inv(s) && CanLook(s, x)
    ensures Inv(Look(s, x))
  {
    hide PoolOk, SlotsOk, JobsOk, ListsOk, WalkOk, HeapOk, IssuedOk, ClientsOk, NearestOk, CoveredOk, SleepOk,
         KeysOk, StopOk, SelfOk, SlotOk, JobOk, Grows, JobsExcept, Except;
    HeapFacts(s, x);
    TimerSlotFacts(s, x);
    PhaseVersions(s.hist[x].gen);
    WorkerStep(s, Look(s, x));
  }

  lemma HeapFacts(s: State, x: Slot)
    requires HeapOk(s.heap, s.hist) && x in s.heap
    ensures x in s.hist && s.hist[x].where == Heaped && s.heap[x] == 1
  {}

  lemma SettleKeeps(s: State)
    requires Inv(s) && CanSettle(s)
    ensures Inv(Settle(s))
  {
    if s.worker.until > s.nearest { RescanKeeps(s); } else { SleepKeeps(s); }
  }

  lemma RescanKeeps(s: State)
    requires Inv(s) && CanSettle(s)
    ensures Inv(s.(worker := Top))
  {
    hide PoolOk, SlotsOk, JobsOk, ListsOk, WalkOk, HeapOk, IssuedOk, ClientsOk, NearestOk, CoveredOk, SleepOk, KeysOk,
         StopOk, SelfOk;
    WorkerStep(s, s.(worker := Top));
  }

  lemma SleepKeeps(s: State)
    requires Inv(s) && CanSettle(s) && s.worker.until <= s.nearest
    ensures Inv(Settle(s))
  {
    hide PoolOk, SlotsOk, JobsOk, ListsOk, WalkOk, HeapOk, IssuedOk, ClientsOk, NearestOk, CoveredOk, KeysOk;
    LowerCovered(s.worker, Asleep(s.worker.until), s.nearest, s.worker.until, s.notified, s.buckets, s.clients);
  }

  lemma LowerCovered(
      w: WorkerPc, w': WorkerPc, nearest: Time, nearest': Time, notified: bool, buckets: seq<Bucket>,
      clients: map<Tid, ClientPc>)
    requires CoveredOk(w, nearest, notified, buckets, clients) && nearest' <= nearest
    requires forall b: nat :: !ToScan(w, b)
    ensures CoveredOk(w', nearest', notified, buckets, clients)
  {
    forall b | !notified && 0 <= b < |buckets|
      ensures Covers(w', nearest', b, buckets[b].nearest) || CheckDue(clients, buckets[b].nearest)
    {
      assert Covers(w, nearest, b, buckets[b].nearest) || CheckDue(clients, buckets[b].nearest);
    }
  }

  lemma AwakeKeeps(s: State)
    requires Inv(s) && CanAwake(s)
    ensures Inv(Awake(s))
  {
    hide PoolOk, SlotsOk, JobsOk, ListsOk, WalkOk, HeapOk, IssuedOk, ClientsOk, NearestOk, CoveredOk, KeysOk,
         SlotOk, JobOk, Grows, JobsExcept, Except;
    LowerCovered(s.worker, Top, s.nearest, s.nearest, s.notified, s.buckets, s.clients);
  }

  // ---------------------------------------------------------------- consuming a bucket

  lemma ConsumeLists(
      i: nat, next: map<Slot, Option<Slot>>, buckets: seq<Bucket>, lists: seq<seq<Slot>>, hist: map<Slot, Hist>,
      hist': map<Slot, Hist>)
    requires ListsOk(next, buckets, lists, hist) && i < |lists| && WalkOk([], hist)
    requires hist'.Keys == hist.Keys
    requires forall x :: x in hist ==>
               hist'[x] == if hist[x].where == Linked(i) then hist[x].(where := Walking) else hist[x]
    ensures ListsOk(next, buckets[i := Bucket(None, MAX_TIME)], lists[i := []], hist')
    ensures WalkOk(lists[i], hist')
    ensures Chain(next, buckets[i].head, lists[i])
  {
    var buckets', lists' := buckets[i := Bucket(None, MAX_TIME)], lists[i := []];
    assert ListOk(i, next, buckets[i].head, lists[i], hist);
    forall b | 0 <= b < |lists'| ensures ListOk(b, next, buckets'[b].head, lists'[b], hist') {
      assert ListOk(b, next, buckets[b].head, lists[b], hist);
    }
  }

  /** Some linked slots are now being walked, and nothing else is different. */
  ghost predicate Consumed(hist: map<Slot, Hist>, hist': map<Slot, Hist>) {
    && hist'.Keys == hist.Keys
    && forall x :: x in hist ==>
         (hist'[x] == hist[x] || (hist[x].where.Linked? && hist'[x] == hist[x].(where := Walking)))
  }

  /** Moving every task of a bucket to the walk changes nobody else's view of any slot. */
  lemma RelabelPool(pool: Pool, hist: map<Slot, Hist>, hist': map<Slot, Hist>)
    requires PoolOk(pool, hist) && Consumed(hist, hist')
    ensures PoolOk(pool, hist')
  {
    hide Pool.Valid, Pool.Issued;
  }

  lemma RelabelSlots(
      hist: map<Slot, Hist>, hist': map<Slot, Hist>, version: map<Slot, nat>, info: map<Slot, Info>,
      jobs: map<(Slot, nat), Job>)
    requires SlotsOk(hist, version, info, jobs) && Consumed(hist, hist')
    ensures SlotsOk(hist', version, info, jobs)
  {
    forall x | x in hist' && x in version && x in info ensures SlotOk(x, hist'[x], version[x], info[x], jobs) {
      assert SlotOk(x, hist[x], version[x], info[x], jobs);
    }
  }

  lemma RelabelRest(s: State, hist': map<Slot, Hist>)
    requires Consumed(s.hist, hist')
    requires KeysOk(s.next, s.info, s.version, s.hist) && JobsOk(s.hist, s.jobs)
    requires HeapOk(s.heap, s.hist) && IssuedOk(s.issued, s.hist, s.jobs)
    ensures KeysOk(s.next, s.info, s.version, hist') && JobsOk(hist', s.jobs)
    ensures HeapOk(s.heap, hist') && IssuedOk(s.issued, hist', s.jobs)
  {
    forall x, g | (x, g) in s.jobs ensures JobOk(x, g, s.jobs[(x, g)], hist') {
      assert JobOk(x, g, s.jobs[(x, g)], s.hist);
    }
  }

  lemma RelabelClients(s: State, hist': map<Slot, Hist>)
    requires ClientsOk(s.clients, s.hist, s.info, s.jobs, |s.buckets|)
    requires Consumed(s.hist, hist')
    ensures ClientsOk(s.clients, hist', s.info, s.jobs, |s.buckets|)
  {
    forall t | t in s.clients ensures ClientOk(t, s.clients[t], hist', s.info, s.jobs, |s.buckets|) {
      assert ClientOk(t, s.clients[t], s.hist, s.info, s.jobs, |s.buckets|);
    }
  }

  lemma ConsumeNearest(s: State, i: nat)
    requires NearestOk(s.buckets, s.lists, s.info) && i < |s.buckets| == |s.lists|
    ensures NearestOk(s.buckets[i := Bucket(None, MAX_TIME)], s.lists[i := []], s.info)
  {}

  lemma ConsumeCovered(
      i: nat, p: Slot, nearest: Time, notified: bool, buckets: seq<Bucket>, clients: map<Tid, ClientPc>)
    requires CoveredOk(Locking(i), nearest, notified, buckets, clients) && i < |buckets|
    ensures CoveredOk(Visiting(i, p), nearest, notified, buckets[i := Bucket(None, MAX_TIME)], clients)
  {
    var buckets' := buckets[i := Bucket(None, MAX_TIME)];
    forall b | !notified && 0 <= b < |buckets'|
      ensures Covers(Visiting(i, p), nearest, b, buckets'[b].nearest) || CheckDue(clients, buckets'[b].nearest)
    {
      assert Covers(Locking(i), nearest, b, buckets[b].nearest) || CheckDue(clients, buckets[b].nearest);
    }
  }

  lemma ConsumeKeeps(s: State)
    requires Inv(s) && CanConsume(s)
    ensures Inv(Consume(s))
  {
    hide Inv, TakeList;
    var i := s.worker.i;
    if s.buckets[i].head == None { PassKeeps(s, i); } else { TakeListKeeps(s); }
  }

  lemma TakeListKeeps(s: State)
    requires Inv(s) && CanConsume(s) && s.buckets[s.worker.i].head != None
    ensures Inv(TakeList(s))
  {
    hide PoolOk, SlotsOk, JobsOk, ListsOk, WalkOk, HeapOk, IssuedOk, ClientsOk, WalkerOk, RunnerOk, NearestOk,
         CoveredOk, SleepOk, KeysOk, StopOk, SelfOk;
    hide Consumed;
    var i, s' := s.worker.i, TakeList(s);
    LockingFacts(s);
    ConsumeHist(s);
    EmptyBucket(s, i);
    RelabelPool(s.pool, s.hist, s'.hist);
    RelabelSlots(s.hist, s'.hist, s.version, s.info, s.jobs);
    RelabelRest(s, s'.hist);
    RelabelClients(s, s'.hist);
    ConsumeNearest(s, i);
    ConsumeCovered(i, s'.worker.p, s.nearest, s.notified, s.buckets, s.clients);
    ConsumeWorker(s, s');
    ConsumeRunner(s, s'.hist, s'.worker);
    NotInFn(s);
    SelfHere(s, s');
  }

  lemma ConsumeHist(s: State)
    requires ListsOk(s.next, s.buckets, s.lists, s.hist) && WalkOk(s.walk, s.hist) && s.walk == []
    requires CanConsume(s) && s.buckets[s.worker.i].head != None
    ensures var i, s' := s.worker.i, TakeList(s);
            && Consumed(s.hist, s'.hist)
            && ListsOk(s'.next, s'.buckets, s'.lists, s'.hist)
            && WalkOk(s'.walk, s'.hist)
            && Chain(s.next, s.buckets[i].head, s.lists[i])
  {
    ConsumeLists(s.worker.i, s.next, s.buckets, s.lists, s.hist, TakeList(s).hist);
  }

  lemma LockingFacts(s: State)
    requires WalkerOk(s.worker, s.next, s.walk, s.hist, s.pool, |s.buckets|) && s.worker.Locking?
    ensures s.walk == [] && s.worker.i < |s.buckets|
  {}

  lemma ConsumeWorker(s: State, s': State)
    requires s.worker.Locking? && s.worker.i < |s.buckets| && s.lists != [] && s.worker.i < |s.lists|
    requires s'.worker.Visiting? && s'.worker.i == s.worker.i && s'.walk == s.lists[s.worker.i] && s'.walk != []
    requires Chain(s'.next, Some(s'.worker.p), s'.walk)
    requires s'.nearest == s.nearest && s'.signal == s.signal && s'.stop == s.stop && s'.notified == s.notified
    requires s'.clients == s.clients
    requires StopOk(s.worker, s.nearest, s.signal, s.stop, s.notified, s.clients)
    ensures WalkerOk(s'.worker, s'.next, s'.walk, s'.hist, s'.pool, |s.buckets|)
    ensures StopOk(s'.worker, s'.nearest, s'.signal, s'.stop, s'.notified, s'.clients)
    ensures SleepOk(s'.worker, s'.nearest, s'.signal, s'.clients)
  {}

  lemma ConsumeRunner(s: State, hist': map<Slot, Hist>, w': WorkerPc)
    requires RunnerOk(s.worker, s.hist, s.info, s.heap) && s.worker.Locking? && w'.Visiting?
    requires Consumed(s.hist, hist')
    ensures RunnerOk(w', hist', s.info, s.heap)
  {}

  // ---------------------------------------------------------------- the walk over the consumed list

  /** What the invariant says about the slot the walk looks at. */
  lemma WalkFacts(s: State)
    requires Inv(s) && (s.worker.Visiting? || s.worker.Dropping?)
    ensures s.walk != [] && s.walk[0] == s.worker.p && s.worker.p in s.hist && s.hist[s.worker.p].where == Walking
    ensures s.worker.p in s.next && Chain(s.next, s.next[s.worker.p], s.walk[1..])
    ensures s.worker.Dropping? ==> s.hist[s.worker.p].phase == Removed
    ensures WalkOk(s.walk[1..], s.hist[s.worker.p := Hist(0, Removed, InPool)])
    ensures forall h: Hist :: h.where != Walking ==> WalkOk(s.walk[1..], s.hist[s.worker.p := h])
  {
    hide PoolOk, SlotsOk, JobsOk, ListsOk, HeapOk, IssuedOk, ClientsOk, RunnerOk, NearestOk, CoveredOk, SleepOk,
         StopOk, SelfOk;
    assert s.walk[0] in s.walk;
    forall h: Hist | h.where != Walking ensures WalkOk(s.walk[1..], s.hist[s.worker.p := h]) {
      WalkTail(s.walk, s.hist, h);
    }
  }

  lemma WalkTail(walk: seq<Slot>, hist: map<Slot, Hist>, h: Hist)
    requires WalkOk(walk, hist) && walk != [] && h.where != Walking
    ensures WalkOk(walk[1..], hist[walk[0] := h])
  {
    forall x ensures x in walk[1..] <==> x in walk && x != walk[0] {
      if x in walk && x != walk[0] {
        var k :| 0 <= k < |walk| && walk[k] == x;
        assert walk[1..][k - 1] == x;
      }
    }
  }

  lemma VisitKeeps(s: State)
    requires Inv(s) && CanVisit(s)
    ensures Inv(Visit(s))
  {
    WalkFacts(s);
    if s.version[s.worker.p] != VersionOf(s.info[s.worker.p].taskId) { VisitRemoved(s); } else { VisitPending(s); }
  }

  lemma VisitRemoved(s: State)
    requires Inv(s) && CanVisit(s) && s.version[s.worker.p] != VersionOf(s.info[s.worker.p].taskId)
    ensures Inv(Visit(s))
  {
    hide PoolOk, SlotsOk, JobsOk, ListsOk, WalkOk, HeapOk, IssuedOk, ClientsOk, NearestOk, CoveredOk, SleepOk,
         KeysOk, StopOk, SelfOk, SlotOk, JobOk, Grows, JobsExcept, Except;
    WalkFacts(s);
    TimerSlotFacts(s, s.worker.p);
    PhaseVersions(s.hist[s.worker.p].gen);
    WorkerStep(s, Visit(s));
  }

  /** Moving a slot of the timer to another of the timer's places, or, once its task is over,
      to the pool. */
  lemma Moved(s: State, x: Slot, w: Where)
    requires Inv(s) && x in s.hist && InTimer(s.hist[x].where)
    requires InTimer(w) || (w == InPool && s.hist[x].phase == Removed)
    ensures var h := s.hist[x].(where := w);
            var hist' := s.hist[x := h];
            && Except(s.hist, hist', x) && x in s.version && Except(s.version, s.version, x)
            && JobsExcept(s.jobs, s.jobs, x) && Grows(s.hist, hist', s.jobs, s.jobs)
            && x in s.info && SlotOk(x, h, s.version[x], s.info[x], s.jobs)
            && (forall g :: (x, g) in s.jobs ==> JobOk(x, g, s.jobs[(x, g)], hist'))
  {
    hide PoolOk, SlotsOk, JobsOk, ListsOk, WalkOk, HeapOk, IssuedOk, ClientsOk, WalkerOk, RunnerOk, NearestOk,
         CoveredOk, SleepOk, KeysOk, StopOk, SelfOk;
    TimerSlotFacts(s, x);
  }

  lemma VisitPending(s: State)
    requires Inv(s) && CanVisit(s) && s.version[s.worker.p] == VersionOf(s.info[s.worker.p].taskId)
    ensures Inv(Visit(s))
  {
    hide PoolOk, SlotsOk, JobsOk, ListsOk, WalkOk, HeapOk, IssuedOk, ClientsOk, NearestOk, CoveredOk, SleepOk, KeysOk,
         StopOk, SelfOk, SlotOk, JobOk, Grows, JobsExcept, Except;
    var p, s' := s.worker.p, Visit(s);
    WalkFacts(s);
    Moved(s, p, Heaped);
    PoolFrame(s.pool, s.hist, s'.hist, p);
    HeapPush(s.heap, s.hist, p, s'.hist[p]);
    PushRunner(s, p);
    NotInFn(s);
    TimerSlotStep(s, s', p);
  }

  lemma PushRunner(s: State, p: Slot)
    requires RunnerOk(s.worker, s.hist, s.info, s.heap) && s.worker.Visiting?
    requires p in s.hist && s.hist[p].where == Walking
    ensures RunnerOk(Advancing(s.worker.i, p), s.hist[p := s.hist[p].(where := Heaped)], s.info, s.heap + multiset{p})
  {}

  lemma HeapPush(heap: multiset<Slot>, hist: map<Slot, Hist>, x: Slot, h: Hist)
    requires HeapOk(heap, hist) && x in hist && hist[x].where != Heaped && h.where == Heaped
    ensures HeapOk(heap + multiset{x}, hist[x := h])
  {}

  lemma HeapPop(heap: multiset<Slot>, hist: map<Slot, Hist>, x: Slot, h: Hist)
    requires HeapOk(heap, hist) && x in hist && hist[x].where == Heaped && h.where != Heaped
    ensures HeapOk(heap - multiset{x}, hist[x := h])
  {}

  /** A slot of the timer goes back to the pool; the just-returned id stays with the worker or is lost. */
  lemma ReturnKeepsPool(pool: Pool, hist: map<Slot, Hist>, x: Slot, h: Hist, sink: Sink)
    requires PoolOk(pool, hist) && x in hist && hist[x].where != InPool && h.where == InPool
    ensures PoolOk(Return(pool, WORKER, x, sink), hist[x := h])
    ensures x in Return(pool, WORKER, x, sink).LocalOf(WORKER) || x in Return(pool, WORKER, x, sink).lost
  {
    hide Pool.Valid, Pool.Issued;
    ReturnKeepsValid(pool, WORKER, x, sink);
  }

  /** The check of line 198 holds, and what is returned is the slot being dropped. */
  lemma DropIs(s: State, sink: Sink)
    requires Inv(s) && CanDrop(s)
    ensures var p := s.worker.p;
            && s.hist[p].where == Walking && s.hist[p].phase == Removed
            && Drop(s, sink) == s.(worker := Advancing(s.worker.i, p), pool := Return(s.pool, WORKER, p, sink),
                                   hist := s.hist[p := s.hist[p].(where := InPool)],
                                   visited := s.visited + [p], walk := s.walk[1..])
  {
    hide PoolOk, SlotsOk, JobsOk, ListsOk, WalkOk, HeapOk, IssuedOk, ClientsOk, NearestOk, CoveredOk, SleepOk, KeysOk,
         StopOk, SelfOk, SlotOk, JobOk, Grows, JobsExcept, Except;
    WalkFacts(s);
    TimerSlotFacts(s, s.worker.p);
    PhaseVersions(s.hist[s.worker.p].gen);
    hide WalkerOk, RunnerOk;
  }

  lemma DropWalker(
      w: WorkerPc, next: map<Slot, Option<Slot>>, walk: seq<Slot>, hist: map<Slot, Hist>,
      pool: Pool, pool': Pool, n: nat)
    requires WalkerOk(w, next, walk, hist, pool, n) && w.Dropping? && w.p in next && walk != []
    requires Chain(next, next[w.p], walk[1..]) && (w.p in pool'.LocalOf(WORKER) || w.p in pool'.lost)
    ensures WalkerOk(Advancing(w.i, w.p), next, walk[1..], hist[w.p := hist[w.p].(where := InPool)], pool', n)
    ensures WorkerMoves(w, Advancing(w.i, w.p), n)
  {}

  lemma DropRunner(w: WorkerPc, hist: map<Slot, Hist>, info: map<Slot, Info>, heap: multiset<Slot>)
    requires RunnerOk(w, hist, info, heap) && w.Dropping? && w.p in hist
    ensures RunnerOk(Advancing(w.i, w.p), hist[w.p := hist[w.p].(where := InPool)], info, heap)
  {}

  lemma DropKeeps(s: State, sink: Sink)
    requires Inv(s) && CanDrop(s)
    ensures Inv(Drop(s, sink))
  {
    hide PoolOk, SlotsOk, JobsOk, ListsOk, WalkOk, HeapOk, IssuedOk, ClientsOk, NearestOk, CoveredOk, SleepOk, KeysOk,
         StopOk, SelfOk, SlotOk, JobOk, Grows, JobsExcept, Except, WalkerOk, RunnerOk, WorkerMoves;
    var p, s' := s.worker.p, Drop(s, sink);
    DropIs(s, sink);
    hide Drop;
    WalkFacts(s);
    Moved(s, p, InPool);
    ReturnKeepsPool(s.pool, s.hist, p, s'.hist[p], sink);
    DropWalker(s.worker, s.next, s.walk, s.hist, s.pool, s'.pool, |s.buckets|);
    DropRunner(s.worker, s.hist, s.info, s.heap);
    HeapFrame(p, s.heap, s.hist, s'.hist);
    NotInFn(s);
    TimerSlotStep(s, s', p);
  }

  // ---------------------------------------------------------------- the heap

  lemma DiscardIs(s: State, sink: Sink)
    requires Inv(s) && CanDiscard(s)
    ensures var x := s.worker.x;
            && x in s.hist && s.hist[x].where == Heaped && s.hist[x].phase == Removed
            && Discard(s, sink) == s.(worker := HeapTop, heap := s.heap - multiset{x},
                                      pool := Return(s.pool, WORKER, x, sink),
                                      hist := s.hist[x := s.hist[x].(where := InPool)])
  {
    hide PoolOk, SlotsOk, JobsOk, ListsOk, WalkOk, HeapOk, IssuedOk, ClientsOk, NearestOk, CoveredOk, SleepOk, KeysOk,
         StopOk, SelfOk, SlotOk, JobOk, Grows, JobsExcept, Except, WalkerOk;
    TimerSlotFacts(s, s.worker.x);
    PhaseVersions(s.hist[s.worker.x].gen);
    hide RunnerOk;
  }

  lemma DiscardWorker(
      w: WorkerPc, next: map<Slot, Option<Slot>>, walk: seq<Slot>, hist: map<Slot, Hist>, info: map<Slot, Info>,
      heap: multiset<Slot>, pool: Pool, pool': Pool, n: nat)
    requires WalkerOk(w, next, walk, hist, pool, n) && RunnerOk(w, hist, info, heap) && w.Discarding?
    ensures var hist' := hist[w.x := hist[w.x].(where := InPool)];
            WalkerOk(HeapTop, next, walk, hist', pool', n) && RunnerOk(HeapTop, hist', info, heap - multiset{w.x})
    ensures WorkerMoves(w, HeapTop, n)
  {}

  lemma DiscardKeeps(s: State, sink: Sink)
    requires Inv(s) && CanDiscard(s)
    ensures Inv(Discard(s, sink))
  {
    hide PoolOk, SlotsOk, JobsOk, ListsOk, WalkOk, HeapOk, IssuedOk, ClientsOk, NearestOk, CoveredOk, SleepOk, KeysOk,
         StopOk, SelfOk, SlotOk, JobOk, Grows, JobsExcept, Except, WalkerOk, RunnerOk, WorkerMoves;
    var x, s' := s.worker.x, Discard(s, sink);
    DiscardIs(s, sink);
    hide Discard;
    Moved(s, x, InPool);
    ReturnKeepsPool(s.pool, s.hist, x, s'.hist[x], sink);
    DiscardWorker(s.worker, s.next, s.walk, s.hist, s.info, s.heap, s.pool, s'.pool, |s.buckets|);
    HeapPop(s.heap, s.hist, x, s'.hist[x]);
    WalkFrame(x, s.walk, s.hist, s'.hist);
    NotInFn(s);
    TimerSlotStep(s, s', x);
  }

  lemma CheckTimeKeeps(s: State, now: int)
    requires Inv(s) && CanTime(s)
    ensures Inv(CheckTime(s, now))
  {
    if now < s.info[s.worker.x].runTime { NotDueKeeps(s, now); } else { DueKeeps(s, now); }
  }

  lemma NotDueKeeps(s: State, now: int)
    requires Inv(s) && CanTime(s) && now < s.info[s.worker.x].runTime
    ensures Inv(CheckTime(s, now))
  {
    hide PoolOk, SlotsOk, JobsOk, ListsOk, WalkOk, HeapOk, IssuedOk, ClientsOk, NearestOk, CoveredOk, SleepOk, KeysOk,
         StopOk, SelfOk;
    WorkerStep(s, CheckTime(s, now));
  }

  lemma DueKeeps(s: State, now: int)
    requires Inv(s) && CanTime(s) && now >= s.info[s.worker.x].runTime
    ensures Inv(CheckTime(s, now))
  {
    hide PoolOk, SlotsOk, JobsOk, ListsOk, WalkOk, HeapOk, IssuedOk, ClientsOk, NearestOk, CoveredOk, SleepOk, KeysOk,
         StopOk, SelfOk, SlotOk, JobOk, Grows, JobsExcept, Except;
    var x, s' := s.worker.x, CheckTime(s, now);
    HeapFacts(s, x);
    Moved(s, x, Claimed);
    TimerSlotFacts(s, x);
    PoolFrame(s.pool, s.hist, s'.hist, x);
    HeapPop(s.heap, s.hist, x, s'.hist[x]);
    WalkFrame(x, s.walk, s.hist, s'.hist);
    NotInFn(s);
    TimerSlotStep(s, s', x);
  }

  lemma RecycleKeeps(s: State, sink: Sink)
    requires Inv(s) && CanRecycle(s)
    ensures Inv(Recycle(s, sink))
  {
    hide PoolOk, SlotsOk, JobsOk, ListsOk, WalkOk, HeapOk, IssuedOk, ClientsOk, NearestOk, CoveredOk, SleepOk, KeysOk,
         StopOk, SelfOk, SlotOk, JobOk, Grows, JobsExcept, Except;
    var x, s' := s.worker.x, Recycle(s, sink);
    TimerSlotFacts(s, x);
    Moved(s, x, InPool);
    ReturnKeepsPool(s.pool, s.hist, x, s'.hist[x], sink);
    HeapFrame(x, s.heap, s.hist, s'.hist);
    WalkFrame(x, s.walk, s.hist, s'.hist);
    NotInFn(s);
    TimerSlotStep(s, s', x);
  }

  // ---------------------------------------------------------------- running and revoking a task

  /** The task in slot x enters "phase", its version and its job with it. */
  lemma PhaseStep(s: State, x: Slot, phase: Phase, v: nat, j: Job)
    requires Inv(s) && x in s.hist && InTimer(s.hist[x].where)
    requires (x, s.hist[x].gen) in s.jobs
    requires v == VersionAt(s.hist[x].gen, phase)
    requires JobFits(j, phase) && RanRight(j)
    requires j.fn == s.jobs[(x, s.hist[x].gen)].fn && j.runTime == s.jobs[(x, s.hist[x].gen)].runTime
    ensures var h := s.hist[x].(phase := phase);
            var hist' := s.hist[x := h];
            var jobs' := s.jobs[(x, s.hist[x].gen) := j];
            var version' := s.version[x := v];
            && Except(s.hist, hist', x) && x in s.version && Except(s.version, version', x)
            && JobsExcept(s.jobs, jobs', x) && Grows(s.hist, hist', s.jobs, jobs')
            && x in s.info && SlotOk(x, h, v, s.info[x], jobs')
            && (forall g :: (x, g) in jobs' ==> JobOk(x, g, jobs'[(x, g)], hist'))
            && PoolOk(s.pool, hist')
  {
    hide PoolOk, SlotsOk, JobsOk, ListsOk, WalkOk, HeapOk, IssuedOk, ClientsOk, WalkerOk, RunnerOk, NearestOk,
         CoveredOk, SleepOk, KeysOk, StopOk, SelfOk;
    TimerSlotFacts(s, x);
    PoolFrame(s.pool, s.hist, s.hist[x := s.hist[x].(phase := phase)], x);
  }

  lemma ClaimKeeps(s: State)
    requires Inv(s) && CanClaim(s)
    ensures Inv(Claim(s))
  {
    if s.version[s.worker.x] == VersionOf(s.info[s.worker.x].taskId) { ClaimWins(s); } else { ClaimLoses(s); }
  }

  lemma ClaimWins(s: State)
    requires Inv(s) && CanClaim(s) && s.version[s.worker.x] == VersionOf(s.info[s.worker.x].taskId)
    ensures Inv(Claim(s))
  {
    hide PoolOk, SlotsOk, JobsOk, ListsOk, WalkOk, HeapOk, IssuedOk, ClientsOk, NearestOk, CoveredOk, SleepOk, KeysOk,
         StopOk, SelfOk, SlotOk, JobOk, Grows, JobsExcept, Except;
    var x, s' := s.worker.x, Claim(s);
    TimerSlotFacts(s, x);
    PhaseVersions(s.hist[x].gen);
    ClaimJob(s);
    PhaseStep(s, x, Running, s'.version[x], s'.jobs[(x, s.hist[x].gen)]);
    HeapFrame(x, s.heap, s.hist, s'.hist);
    WalkFrame(x, s.walk, s.hist, s'.hist);
    ClaimRunner(s, x);
    TimerSlotStep(s, s', x);
  }

  lemma ClaimJob(s: State)
    requires Inv(s) && CanClaim(s) && s.version[s.worker.x] == VersionOf(s.info[s.worker.x].taskId)
    ensures var j := s.jobs[(s.worker.x, s.hist[s.worker.x].gen)];
            var j' := j.(runs := j.runs + [(s.info[s.worker.x].fn, s.worker.now)]);
            s.hist[s.worker.x].phase == Pending && JobFits(j', Running) && RanRight(j')
  {
    hide PoolOk, SlotsOk, JobsOk, ListsOk, WalkOk, HeapOk, IssuedOk, ClientsOk, WalkerOk, NearestOk, CoveredOk,
         SleepOk, KeysOk, StopOk, SelfOk;
    var x := s.worker.x;
    TimerSlotFacts(s, x);
    PhaseVersions(s.hist[x].gen);
    assert JobOk(x, s.hist[x].gen, s.jobs[(x, s.hist[x].gen)], s.hist);
  }

  lemma ClaimRunner(s: State, x: Slot)
    requires RunnerOk(s.worker, s.hist, s.info, s.heap) && s.worker.Claiming? && s.worker.x == x
    ensures x in s.hist && RunnerOk(InFn(x), s.hist[x := s.hist[x].(phase := Running)], s.info, s.heap)
  {}

  lemma ClaimLoses(s: State)
    requires Inv(s) && CanClaim(s) && s.version[s.worker.x] != VersionOf(s.info[s.worker.x].taskId)
    ensures Inv(Claim(s))
  {
    hide PoolOk, SlotsOk, JobsOk, ListsOk, WalkOk, HeapOk, IssuedOk, ClientsOk, NearestOk, CoveredOk, SleepOk, KeysOk,
         StopOk, SelfOk;
    var x := s.worker.x;
    TimerSlotFacts(s, x);
    PhaseVersions(s.hist[x].gen);
    WorkerStep(s, Claim(s));
  }

  lemma FnReturnKeeps(s: State)
    requires Inv(s) && CanFnReturn(s)
    ensures Inv(FnReturn(s))
  {
    hide PoolOk, SlotsOk, JobsOk, ListsOk, WalkOk, HeapOk, IssuedOk, ClientsOk, NearestOk, CoveredOk, SleepOk, KeysOk,
         StopOk, SelfOk, SlotOk, JobOk, Grows, JobsExcept, Except;
    var x, s' := s.worker.x, FnReturn(s);
    TimerSlotFacts(s, x);
    PhaseVersions(s.hist[x].gen);
    FnReturnJob(s);
    PhaseStep(s, x, Removed, s'.version[x], s'.jobs[(x, s.hist[x].gen)]);
    HeapFrame(x, s.heap, s.hist, s'.hist);
    WalkFrame(x, s.walk, s.hist, s'.hist);
    FnReturnRunner(s, x);
    TimerSlotStep(s, s', x);
  }

  lemma FnReturnJob(s: State)
    requires Inv(s) && CanFnReturn(s)
    ensures var j := s.jobs[(s.worker.x, s.hist[s.worker.x].gen)];
            JobFits(j.(finished := true), Removed) && RanRight(j.(finished := true))
  {
    hide PoolOk, SlotsOk, JobsOk, ListsOk, WalkOk, HeapOk, IssuedOk, ClientsOk, WalkerOk, NearestOk, CoveredOk,
         SleepOk, KeysOk, StopOk, SelfOk;
    var x := s.worker.x;
    TimerSlotFacts(s, x);
    assert JobOk(x, s.hist[x].gen, s.jobs[(x, s.hist[x].gen)], s.hist);
  }

  lemma FnReturnRunner(s: State, x: Slot)
    requires RunnerOk(s.worker, s.hist, s.info, s.heap) && s.worker.InFn? && s.worker.x == x
    ensures x in s.hist && RunnerOk(Recycling(x), s.hist[x := s.hist[x].(phase := Removed)], s.info, s.heap)
  {}

  /** What an issued id still says: its slot, its version, and, within the window, whether it
      is the slot's present use. */
  lemma TicketFacts(s: State, k: Ticket)
    requires IssuedOk(s.issued, s.hist, s.jobs) && k in s.issued
    ensures k.slot in s.hist && SlotOf(k.id) == k.slot && VersionOf(k.id) == VersionAt(k.gen, Pending)
    ensures (k.slot, k.gen) in s.jobs && 1 <= k.gen <= s.hist[k.slot].gen
    ensures s.hist[k.slot].where.Held? && s.hist[k.slot].phase == Pending ==> k.gen < s.hist[k.slot].gen
  {
    VersionShape(k.gen, Pending);
    RoundTrip(k.slot, VersionAt(k.gen, Pending));
  }

  lemma VersionFact(s: State, x: Slot)
    requires SlotsOk(s.hist, s.version, s.info, s.jobs) && KeysOk(s.next, s.info, s.version, s.hist) && x in s.hist
    ensures x in s.version && s.version[x] == VersionAt(s.hist[x].gen, s.hist[x].phase)
    ensures s.hist[x].where.InPool? ==> s.hist[x].phase == Removed
  {
    assert SlotOk(x, s.hist[x], s.version[x], s.info[x], s.jobs);
  }

  /** The verdict of unschedule is about the task the id was issued for. */
  lemma VerdictMeaning(s: State, k: Ticket)
    requires Inv(s) && k in s.issued && k.slot in s.hist && s.hist[k.slot].gen - k.gen < REUSE_WINDOW
    ensures SlotOf(k.id) in s.version && SlotOf(k.id) == k.slot
    ensures var r, h := UnscheduleResult(s, k), s.hist[k.slot];
            && (r == 0 <==> h.gen == k.gen && h.phase == Pending)
            && (r == 1 <==> h.gen == k.gen && h.phase == Running)
            && (r == 0 || r == 1 || r == -1)
  {
    hide PoolOk, SlotsOk, JobsOk, ListsOk, WalkOk, HeapOk, IssuedOk, ClientsOk, WalkerOk, RunnerOk, NearestOk,
         CoveredOk, SleepOk, KeysOk, StopOk, SelfOk;
    TicketFacts(s, k);
    VersionFact(s, k.slot);
    StaleIds(k.gen, s.hist[k.slot].gen, s.hist[k.slot].phase);
    VersionSteps(k.gen);
    PhaseVersions(k.gen);
  }

  lemma UnscheduleKeeps(s: State, t: Tid, k: Ticket)
    requires Inv(s) && CanUnschedule(s, t, k)
    ensures Inv(Unschedule(s, t, k))
  {
    VerdictMeaning(s, k);
    if UnscheduleResult(s, k) == 0 { RevokeKeeps(s, t, k); }
  }

  lemma RevokeKeeps(s: State, t: Tid, k: Ticket)
    requires Inv(s) && CanUnschedule(s, t, k) && UnscheduleResult(s, k) == 0
    ensures Inv(Unschedule(s, t, k))
  {
    hide PoolOk, SlotsOk, JobsOk, ListsOk, WalkOk, HeapOk, IssuedOk, ClientsOk, WalkerOk, RunnerOk, NearestOk,
         CoveredOk, SleepOk, KeysOk, StopOk, SelfOk, SlotOk, JobOk, Grows, JobsExcept, Except, TicketOk;
    var x, s' := k.slot, Unschedule(s, t, k);
    VerdictMeaning(s, k);
    TicketFacts(s, k);
    VersionFact(s, x);
    VersionSteps(k.gen);
    RevokeJob(s, k);
    PhaseStep(s, x, Removed, s'.version[x], s'.jobs[(x, k.gen)]);
    RevokeFrames(s, s'.hist, x);
    SelfAlready(s);
    TimerSlotStep(s, s', x);
  }

  lemma RevokeJob(s: State, k: Ticket)
    requires JobsOk(s.hist, s.jobs) && (k.slot, k.gen) in s.jobs && k.slot in s.hist
    requires s.hist[k.slot].gen == k.gen && s.hist[k.slot].phase == Pending
    ensures var j := s.jobs[(k.slot, k.gen)].(revoked := true); JobFits(j, Removed) && RanRight(j)
  {
    assert JobOk(k.slot, k.gen, s.jobs[(k.slot, k.gen)], s.hist);
  }

  lemma RevokeFrames(s: State, hist': map<Slot, Hist>, x: Slot)
    requires x in s.hist && s.hist[x].phase == Pending && hist' == s.hist[x := s.hist[x].(phase := Removed)]
    requires WalkOk(s.walk, s.hist) && HeapOk(s.heap, s.hist) && RunnerOk(s.worker, s.hist, s.info, s.heap)
    requires WalkerOk(s.worker, s.next, s.walk, s.hist, s.pool, |s.buckets|)
    ensures WalkOk(s.walk, hist') && HeapOk(s.heap, hist') && RunnerOk(s.worker, hist', s.info, s.heap)
    ensures WalkerOk(s.worker, s.next, s.walk, hist', s.pool, |s.buckets|)
  {}

  lemma SelfAlready(s: State)
    requires SelfOk(s.worker, s.clients)
    ensures WORKER in s.clients && (s.worker.InFn? || s.clients[WORKER] == Idle)
  {}

  // ---------------------------------------------------------------- every run

  lemma ClientStepKeeps(s: State, t: Tid, a: ClientAction)
    requires Inv(s) && ClientEnabled(s, t, a)
    ensures Inv(ClientDo(s, t, a))
  {
    hide Inv;
    match a
    case ACall(fn, rt, b) => CallKeeps(s, t, fn, rt, b);
    case AGetSlot(slot, src) => GetSlotKeeps(s, t, slot, src);
    case AFill => FillKeeps(s, t);
    case ABump => BumpKeeps(s, t);
    case AStamp => StampKeeps(s, t);
    case ALink => LinkKeeps(s, t);
    case ACheck => CheckKeeps(s, t);
    case AWake => WakeKeeps(s, t);
    case AUnschedule(k) => UnscheduleKeeps(s, t, k);
    case ASetStop => SetStopKeeps(s, t);
    case ANotify => NotifyKeeps(s, t);
    case ALeave(ok) => LeaveKeeps(s, t, ok);
  }

  lemma WorkerStepKeeps(s: State, a: WorkerAction)
    requires Inv(s) && WorkerEnabled(s, a)
    ensures Inv(WorkerDo(s, a))
  {
    hide Inv;
    match a
    case AReadStop => ReadStopKeeps(s);
    case AReset => ResetKeeps(s);
    case APeek => PeekKeeps(s);
    case AConsume => ConsumeKeeps(s);
    case AVisit => VisitKeeps(s);
    case ADrop(sink) => DropKeeps(s, sink);
    case AAdvance => AdvanceKeeps(s);
    case ALook(x) => LookKeeps(s, x);
    case AFinishHeap => FinishHeapKeeps(s);
    case ADiscard(sink) => DiscardKeeps(s, sink);
    case ACheckTime(now) => CheckTimeKeeps(s, now);
    case AClaim => ClaimKeeps(s);
    case AFnReturn => FnReturnKeeps(s);
    case ARecycle(sink) => RecycleKeeps(s, sink);
    case ASettle => SettleKeeps(s);
    case AAwake => AwakeKeeps(s);
  }

  lemma StepKeeps(s: State, a: Action)
    requires Inv(s) && Enabled(s, a)
    ensures Inv(Do(s, a))
  {
    hide Inv;
    match a
    case ByThread(t, c) => ClientStepKeeps(s, t, c);
    case ByWorker(w) => WorkerStepKeeps(s, w);
  }

  lemma {:induction false} PathKeeps(states: seq<State>, run: seq<Action>, i: nat)
    requires Follows(states, run) && i <= |run|
    ensures Inv(states[i])
  {
    hide Inv;
    if i == 0 {
      InitInv(states[0]);
    } else {
      PathKeeps(states, run, i - 1);
      assert Step(states[i - 1], run[i - 1], states[i]);
      StepKeeps(states[i - 1], run[i - 1]);
    }
  }

  /** The invariant holds in every reachable state. */
  lemma RunKeeps(run: seq<Action>, s: State)
    requires Reaches(run, s)
    ensures Inv(s)
  {
    var states :| Follows(states, run) && Last(states) == s;
    PathKeeps(states, run, |run|);
  }
}
