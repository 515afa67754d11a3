/** What holds in every reachable state of the timer thread, one predicate per concern.  Each
    predicate takes just the parts of the state it speaks of, so that a step that leaves those
    parts alone keeps it for free. */
module TimerInvariant {
  import opened Prelude
  import opened TaskIds
  import opened PoolSpec
  import opened TimerThread

  function IdOf(x: Slot, gen: nat): nat {
    MakeTaskId(x, VersionAt(gen, Pending))
  }

  /** Every issued slot has its memory, and exactly the slots not in the pool are in use. */
  ghost predicate PoolOk(pool: Pool, hist: map<Slot, Hist>) {
    && pool.Valid()
    && (forall x :: x in hist <==> pool.Issued(x))
    && (forall x :: x in hist ==> (x in pool.used <==> hist[x].where != InPool))
  }

  ghost predicate KeysOk(
      next: map<Slot, Option<Slot>>, info: map<Slot, Info>, version: map<Slot, nat>, hist: map<Slot, Hist>) {
    && next.Keys == hist.Keys && info.Keys == hist.Keys && version.Keys == hist.Keys
    && forall x :: x in hist ==> x < UINT32
  }

  /** The slot has left the hands of the thread that scheduled it and is not yet recycled. */
  predicate InTimer(w: Where) {
    !w.InPool? && !w.Held?
  }

  predicate SlotOk(x: Slot, h: Hist, version: nat, info: Info, jobs: map<(Slot, nat), Job>) {
    && version == VersionAt(h.gen, h.phase)
    && (h.where.InPool? ==> h.phase == Removed)
    && (h.gen > 0 ==> (x, h.gen) in jobs)
    && (InTimer(h.where) ==>
          && h.gen > 0
          && info.taskId == IdOf(x, h.gen)
          && info.fn == jobs[(x, h.gen)].fn && info.runTime == jobs[(x, h.gen)].runTime)
  }

  ghost predicate SlotsOk(
      hist: map<Slot, Hist>, version: map<Slot, nat>, info: map<Slot, Info>, jobs: map<(Slot, nat), Job>) {
    forall x :: x in hist && x in version && x in info ==> SlotOk(x, hist[x], version[x], info[x], jobs)
  }

  /** A job that is over ran once and was not revoked, or was revoked and never ran. */
  predicate Over(j: Job) {
    || (|j.runs| == 1 && j.finished && !j.revoked)
    || (j.runs == [] && !j.finished && j.revoked)
  }

  predicate JobFits(j: Job, phase: Phase) {
    match phase
    case Pending => j.runs == [] && !j.finished && !j.revoked
    case Running => |j.runs| == 1 && !j.finished && !j.revoked
    case Removed => Over(j)
  }

  /** Whatever ran was the function asked for, no earlier than asked for. */
  predicate RanRight(j: Job) {
    |j.runs| <= 1 && (|j.runs| == 1 ==> j.runs[0].0 == j.fn && j.runs[0].1 >= j.runTime)
  }

  predicate JobOk(x: Slot, g: nat, j: Job, hist: map<Slot, Hist>) {
    && x in hist && 1 <= g <= hist[x].gen
    && RanRight(j)
    && JobFits(j, if g == hist[x].gen then hist[x].phase else Removed)
  }

  ghost predicate JobsOk(hist: map<Slot, Hist>, jobs: map<(Slot, nat), Job>) {
    forall x, g :: (x, g) in jobs ==> JobOk(x, g, jobs[(x, g)], hist)
  }

  ghost predicate ListOk(
      b: nat, next: map<Slot, Option<Slot>>, head: Option<Slot>, list: seq<Slot>, hist: map<Slot, Hist>) {
    && Chain(next, head, list)
    && Distinct(list)
    && (forall x :: x in list <==> x in hist && hist[x].where == Linked(b))
  }

  ghost predicate ListsOk(
      next: map<Slot, Option<Slot>>, buckets: seq<Bucket>, lists: seq<seq<Slot>>, hist: map<Slot, Hist>) {
    && |lists| == |buckets|
    && (forall b :: 0 <= b < |lists| ==> ListOk(b, next, buckets[b].head, lists[b], hist))
    && (forall x :: x in hist && hist[x].where.Linked? ==> hist[x].where.b < |lists|)
  }

  ghost predicate WalkOk(walk: seq<Slot>, hist: map<Slot, Hist>) {
    && Distinct(walk)
    && (forall x :: x in walk <==> x in hist && hist[x].where == Walking)
  }

  /** The heap vector holds each of its tasks once. */
  ghost predicate HeapOk(heap: multiset<Slot>, hist: map<Slot, Hist>) {
    forall x :: heap[x] == if x in hist && hist[x].where == Heaped then 1 else 0
  }

  /** A ticket's task has left the thread that made it, or the slot has moved on to a later use. */
  predicate TicketOk(k: Ticket, hist: map<Slot, Hist>, jobs: map<(Slot, nat), Job>) {
    k.slot in hist && 1 <= k.gen <= hist[k.slot].gen && k.id == IdOf(k.slot, k.gen) && (k.slot, k.gen) in jobs
    && k.slot < UINT32
    && (hist[k.slot].where.Held? && hist[k.slot].phase == Pending ==> k.gen < hist[k.slot].gen)
  }

  ghost predicate IssuedOk(issued: set<Ticket>, hist: map<Slot, Hist>, jobs: map<(Slot, nat), Job>) {
    forall k :: k in issued ==> TicketOk(k, hist, jobs)
  }

  function PcSlot(pc: ClientPc): Option<Slot> {
    match pc
    case Filling(_, _, _, x) => Some(x)
    case Bumping(_, _, _, x) => Some(x)
    case Stamping(_, _, x) => Some(x)
    case Linking(_, _, x) => Some(x)
    case _ => None
  }

  predicate ClientOk(
      t: Tid, pc: ClientPc, hist: map<Slot, Hist>, info: map<Slot, Info>, jobs: map<(Slot, nat), Job>, n: nat) {
    match pc
    case Idle => true
    case Stopping => true
    case Getting(_, _, b) => b < n
    case Filling(_, _, b, x) => b < n && x in hist && hist[x].where == Held(t) && hist[x].phase == Removed
    case Bumping(fn, rt, b, x) =>
      && b < n && x in hist && x in info && hist[x].where == Held(t) && hist[x].phase == Removed
      && info[x].fn == fn && info[x].runTime == rt
    case Stamping(rt, b, x) =>
      && b < n && x in hist && x in info && hist[x].where == Held(t) && hist[x].phase == Pending
      && hist[x].gen > 0 && (x, hist[x].gen) in jobs
      && info[x].runTime == rt == jobs[(x, hist[x].gen)].runTime && info[x].fn == jobs[(x, hist[x].gen)].fn
    case Linking(rt, b, x) =>
      && b < n && x in hist && x in info && hist[x].where == Held(t) && hist[x].phase == Pending
      && hist[x].gen > 0 && (x, hist[x].gen) in jobs
      && info[x].runTime == rt == jobs[(x, hist[x].gen)].runTime && info[x].fn == jobs[(x, hist[x].gen)].fn
      && info[x].taskId == IdOf(x, hist[x].gen)
    case Checking(rt, b, k) => b < n && TicketOk(k, hist, jobs) && jobs[(k.slot, k.gen)].runTime == rt
    case Waking(k) => TicketOk(k, hist, jobs)
  }

  ghost predicate ClientsOk(
      clients: map<Tid, ClientPc>, hist: map<Slot, Hist>, info: map<Slot, Info>, jobs: map<(Slot, nat), Job>, n: nat) {
    && (forall t :: t in clients ==> ClientOk(t, clients[t], hist, info, jobs, n))
    && (forall x :: x in hist && hist[x].where.Held? ==>
          hist[x].where.t in clients && PcSlot(clients[hist[x].where.t]) == Some(x))
  }

  /** Where the pointer p of the consuming walk stands. */
  ghost predicate WalkerOk(
      w: WorkerPc, next: map<Slot, Option<Slot>>, walk: seq<Slot>, hist: map<Slot, Hist>, pool: Pool, n: nat) {
    match w
    case Locking(i) => i < n && walk == []
    case Visiting(i, p) => i < n && walk != [] && Chain(next, Some(p), walk)
    case Dropping(i, p) => i < n && walk != [] && Chain(next, Some(p), walk) && p in hist && hist[p].phase == Removed
    case Advancing(i, p) =>
      && i < n && p in next && p in hist && Chain(next, next[p], walk)
      && (hist[p].where == Heaped || p in pool.LocalOf(WORKER) || p in pool.lost)
    case _ => walk == []
  }

  ghost predicate RunnerOk(w: WorkerPc, hist: map<Slot, Hist>, info: map<Slot, Info>, heap: multiset<Slot>) {
    && (match w
        case Discarding(x) => x in hist && x in info && hist[x].where == Heaped && hist[x].phase == Removed
        case Timing(x) => x in hist && Earliest(info, heap, x)
        case Claiming(x, now) => x in hist && x in info && hist[x].where == Claimed && hist[x].phase != Running
                                 && now >= info[x].runTime
        case InFn(x) => x in hist && hist[x].where == Claimed && hist[x].phase == Running
        case Recycling(x) => x in hist && hist[x].where == Claimed && hist[x].phase == Removed
        case Settling(u) => IsEarliest(info, heap, u)
        case Asleep(u) => IsEarliest(info, heap, u)
        case CheckFailed => false
        case Impossible => false
        case _ => true)
    && (forall x :: x in hist && hist[x].where == Claimed ==>
          w == InFn(x) || w == Recycling(x) || (w.Claiming? && w.x == x))
    && (forall x :: x in hist && hist[x].phase == Running ==> w == InFn(x))
  }

  predicate NotBefore(info: map<Slot, Info>, heap: multiset<Slot>, u: Time) {
    forall y | y in heap && y in info :: u <= info[y].runTime
  }

  /** The time of the earliest task in the heap, or the greatest time if there is none. */
  ghost predicate IsEarliest(info: map<Slot, Info>, heap: multiset<Slot>, u: Time) {
    && NotBefore(info, heap, u)
    && if heap == multiset{} then u == MAX_TIME else exists y :: y in heap && y in info && info[y].runTime == u
  }

  predicate Earliest(info: map<Slot, Info>, heap: multiset<Slot>, x: Slot) {
    x in heap && x in info && NotBefore(info, heap, info[x].runTime)
  }

  /** The worker's own calls happen inside fn only. */
  predicate SelfOk(w: WorkerPc, clients: map<Tid, ClientPc>) {
    WORKER in clients && (w.InFn? || clients[WORKER] == Idle)
  }

  /** A bucket's nearest time is a lower bound of its tasks, and the greatest time if there are none. */
  ghost predicate NearestOk(buckets: seq<Bucket>, lists: seq<seq<Slot>>, info: map<Slot, Info>) {
    forall b :: 0 <= b < |buckets| && b < |lists| ==>
      && (forall x :: x in lists[b] && x in info ==> buckets[b].nearest <= info[x].runTime)
      && (lists[b] == [] ==> buckets[b].nearest == MAX_TIME)
  }

  /** The worker has reset the global nearest time and has yet to consume bucket b. */
  predicate ToScan(w: WorkerPc, b: nat) {
    match w
    case Scanning(i) => b >= i
    case Locking(i) => b >= i
    case Visiting(i, _) => b > i
    case Dropping(i, _) => b > i
    case Advancing(i, _) => b > i
    case _ => false
  }

  /** Some schedule call has linked a task due at "time" or earlier and is about to check it
      against the global nearest time. */
  ghost predicate CheckDue(clients: map<Tid, ClientPc>, time: Time) {
    exists t :: t in clients && clients[t].Checking? && clients[t].rt <= time
  }

  ghost predicate WakeDue(clients: map<Tid, ClientPc>) {
    exists t :: t in clients && clients[t].Waking?
  }

  predicate Covers(w: WorkerPc, nearest: Time, b: nat, time: Time) {
    ToScan(w, b) || nearest <= time
  }

  /** Unless the worker has been told to stop, it will hear of every bucket's nearest time: by
      scanning the bucket, by the global nearest time, or by a check that is still to come. */
  ghost predicate CoveredOk(
      w: WorkerPc, nearest: Time, notified: bool, buckets: seq<Bucket>, clients: map<Tid, ClientPc>) {
    !notified ==> forall b :: 0 <= b < |buckets| ==>
      Covers(w, nearest, b, buckets[b].nearest) || CheckDue(clients, buckets[b].nearest)
  }

  ghost predicate SleepOk(w: WorkerPc, nearest: Time, signal: bool, clients: map<Tid, ClientPc>) {
    w.Asleep? ==> signal || nearest == w.until || WakeDue(clients)
  }

  /** A worker that has been told to stop, and has not reset the global nearest time since,
      does not settle down to wait for a positive time. */
  predicate StopOk(w: WorkerPc, nearest: Time, signal: bool, stop: bool, notified: bool, clients: map<Tid, ClientPc>) {
    && (forall t :: t in clients && clients[t].Stopping? ==> stop)
    && (notified ==> stop)
    && (notified ==>
          || w.Top? || w.Exited? || (w.Asleep? && signal)
          || (nearest <= 0 && (w.Asleep? ==> w.until <= 0)))
  }

  /** The worker settles down for the time of a task only if that has not come yet. */
  predicate DueOk(w: WorkerPc, heap: multiset<Slot>, clock: int) {
    match w
    case Settling(u) => clock < u || (u == MAX_TIME && heap == multiset{})
    case Asleep(u) => clock < u || (u == MAX_TIME && heap == multiset{})
    case _ => true
  }

  ghost predicate Inv(s: State) {
    && PoolOk(s.pool, s.hist)
    && KeysOk(s.next, s.info, s.version, s.hist)
    && SlotsOk(s.hist, s.version, s.info, s.jobs)
    && JobsOk(s.hist, s.jobs)
    && ListsOk(s.next, s.buckets, s.lists, s.hist)
    && WalkOk(s.walk, s.hist)
    && s.consumed == s.visited + s.walk
    && HeapOk(s.heap, s.hist)
    && IssuedOk(s.issued, s.hist, s.jobs)
    && ClientsOk(s.clients, s.hist, s.info, s.jobs, |s.buckets|)
    && WalkerOk(s.worker, s.next, s.walk, s.hist, s.pool, |s.buckets|)
    && RunnerOk(s.worker, s.hist, s.info, s.heap)
    && SelfOk(s.worker, s.clients)
    && DueOk(s.worker, s.heap, s.clock)
    && NearestOk(s.buckets, s.lists, s.info)
    && CoveredOk(s.worker, s.nearest, s.notified, s.buckets, s.clients)
    && SleepOk(s.worker, s.nearest, s.signal, s.clients)
    && StopOk(s.worker, s.nearest, s.signal, s.stop, s.notified, s.clients)
  }

  lemma InitInv(s: State)
    requires IsInit(s)
    ensures Inv(s)
  {}
}
