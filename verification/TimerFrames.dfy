/** What each part of the timer's invariant needs of a step that touches a single slot or a
    single thread. */
module TimerFrames {
  import opened Prelude
  import opened TaskIds
  import opened PoolSpec
  import opened TimerThread
  import opened TimerInvariant

  /** The two maps differ at most at x, which the second one has. */
  ghost predicate Except<T>(m: map<Slot, T>, m': map<Slot, T>, x: Slot) {
    && m'.Keys == m.Keys + {x}
    && forall y :: y in m && y != x ==> m'[y] == m[y]
  }

  /** The jobs of slots other than x are the same. */
  ghost predicate JobsExcept(jobs: map<(Slot, nat), Job>, jobs': map<(Slot, nat), Job>, x: Slot) {
    && (forall y, g :: (y, g) in jobs ==> (y, g) in jobs')
    && (forall y, g :: (y, g) in jobs' && y != x ==> (y, g) in jobs && jobs'[(y, g)] == jobs[(y, g)])
  }

  /** Jobs are never forgotten, what they asked for never changes, and uses are counted upwards. */
  ghost predicate Grows(
      hist: map<Slot, Hist>, hist': map<Slot, Hist>, jobs: map<(Slot, nat), Job>, jobs': map<(Slot, nat), Job>) {
    && (forall y :: y in hist ==> y in hist' && hist[y].gen <= hist'[y].gen)
    && (forall y :: y in hist && y in hist' && hist'[y].where.Held? && hist'[y].phase == Pending ==>
          hist[y].gen < hist'[y].gen || (hist[y].where.Held? && hist[y].phase == Pending))
    && (forall y, g :: (y, g) in jobs ==> (y, g) in jobs' && jobs'[(y, g)].runTime == jobs[(y, g)].runTime)
  }

  lemma Updates<T>(m: map<Slot, T>, x: Slot, v: T)
    ensures Except(m, m[x := v], x)
    ensures x in m ==> Except(m, m, x)
  {}

  lemma SlotsFrame(
      x: Slot, hist: map<Slot, Hist>, hist': map<Slot, Hist>, version: map<Slot, nat>, version': map<Slot, nat>,
      info: map<Slot, Info>, info': map<Slot, Info>, jobs: map<(Slot, nat), Job>, jobs': map<(Slot, nat), Job>)
    requires SlotsOk(hist, version, info, jobs)
    requires Except(hist, hist', x) && Except(version, version', x) && Except(info, info', x)
    requires JobsExcept(jobs, jobs', x)
    requires SlotOk(x, hist'[x], version'[x], info'[x], jobs')
    ensures SlotsOk(hist', version', info', jobs')
  {
    forall y | y in hist' && y in version' && y in info' ensures SlotOk(y, hist'[y], version'[y], info'[y], jobs') {
      if y != x { assert SlotOk(y, hist[y], version[y], info[y], jobs); }
    }
  }

  lemma JobsFrame(
      x: Slot, hist: map<Slot, Hist>, hist': map<Slot, Hist>, jobs: map<(Slot, nat), Job>, jobs': map<(Slot, nat), Job>)
    requires JobsOk(hist, jobs)
    requires Except(hist, hist', x) && JobsExcept(jobs, jobs', x)
    requires forall g :: (x, g) in jobs' ==> JobOk(x, g, jobs'[(x, g)], hist')
    ensures JobsOk(hist', jobs')
  {
    forall y, g | (y, g) in jobs' ensures JobOk(y, g, jobs'[(y, g)], hist') {
      if y != x { assert JobOk(y, g, jobs[(y, g)], hist); }
    }
  }

  lemma ListsFrame(
      x: Slot, next: map<Slot, Option<Slot>>, next': map<Slot, Option<Slot>>,
      buckets: seq<Bucket>, lists: seq<seq<Slot>>, hist: map<Slot, Hist>, hist': map<Slot, Hist>)
    requires ListsOk(next, buckets, lists, hist)
    requires Except(next, next', x) && Except(hist, hist', x)
    requires x in hist ==> !hist[x].where.Linked?
    requires !hist'[x].where.Linked?
    ensures ListsOk(next', buckets, lists, hist')
  {
    forall b | 0 <= b < |lists| ensures ListOk(b, next', buckets[b].head, lists[b], hist') {
      assert ListOk(b, next, buckets[b].head, lists[b], hist);
      assert x !in lists[b];
      ChainFrame(next, next', buckets[b].head, lists[b]);
    }
  }

  lemma WalkFrame(x: Slot, walk: seq<Slot>, hist: map<Slot, Hist>, hist': map<Slot, Hist>)
    requires WalkOk(walk, hist) && Except(hist, hist', x)
    requires x in hist ==> hist[x].where != Walking
    requires hist'[x].where != Walking
    ensures WalkOk(walk, hist')
  {}

  lemma HeapFrame(x: Slot, heap: multiset<Slot>, hist: map<Slot, Hist>, hist': map<Slot, Hist>)
    requires HeapOk(heap, hist) && Except(hist, hist', x)
    requires x in hist ==> hist[x].where != Heaped
    requires hist'[x].where != Heaped
    ensures HeapOk(heap, hist')
  {}

  lemma IssuedFrame(
      issued: set<Ticket>, hist: map<Slot, Hist>, hist': map<Slot, Hist>,
      jobs: map<(Slot, nat), Job>, jobs': map<(Slot, nat), Job>)
    requires IssuedOk(issued, hist, jobs) && Grows(hist, hist', jobs, jobs')
    ensures IssuedOk(issued, hist', jobs')
  {}

  /** A step on a slot that no thread holds, before or after. */
  lemma ClientsFrame(
      x: Slot, clients: map<Tid, ClientPc>, hist: map<Slot, Hist>, hist': map<Slot, Hist>, info: map<Slot, Info>,
      jobs: map<(Slot, nat), Job>, jobs': map<(Slot, nat), Job>, n: nat)
    requires ClientsOk(clients, hist, info, jobs, n)
    requires Except(hist, hist', x) && JobsExcept(jobs, jobs', x) && Grows(hist, hist', jobs, jobs')
    requires x in hist && !hist[x].where.Held? && !hist'[x].where.Held?
    ensures ClientsOk(clients, hist', info, jobs', n)
  {
    forall u | u in clients ensures ClientOk(u, clients[u], hist', info, jobs', n) {
      assert ClientOk(u, clients[u], hist, info, jobs, n);
    }
  }

  /** A step of thread t on the slot x that it holds before or after the step. */
  lemma HolderMoves(
      x: Slot, t: Tid, pc': ClientPc, clients: map<Tid, ClientPc>,
      hist: map<Slot, Hist>, hist': map<Slot, Hist>, info: map<Slot, Info>, info': map<Slot, Info>,
      jobs: map<(Slot, nat), Job>, jobs': map<(Slot, nat), Job>, n: nat)
    requires ClientsOk(clients, hist, info, jobs, n)
    requires t in clients
    requires Except(hist, hist', x) && Except(info, info', x) && JobsExcept(jobs, jobs', x)
    requires Grows(hist, hist', jobs, jobs')
    requires x in hist && hist[x].where.Held? ==> hist[x].where == Held(t)
    requires PcSlot(clients[t]) == if x in hist && hist[x].where == Held(t) then Some(x) else None
    requires hist'[x].where.Held? ==> hist'[x].where == Held(t)
    requires PcSlot(pc') == if hist'[x].where == Held(t) then Some(x) else None
    requires ClientOk(t, pc', hist', info', jobs', n)
    ensures ClientsOk(clients[t := pc'], hist', info', jobs', n)
  {
    var clients' := clients[t := pc'];
    forall u | u in clients' ensures ClientOk(u, clients'[u], hist', info', jobs', n) {
      if u != t { assert ClientOk(u, clients[u], hist, info, jobs, n); }
    }
    forall y | y in hist' && hist'[y].where.Held?
      ensures hist'[y].where.t in clients' && PcSlot(clients'[hist'[y].where.t]) == Some(y)
    {
      if y != x { assert hist[y].where.Held?; }
    }
  }

  /** A step of thread t that touches no slot. */
  lemma ClientMoves(
      t: Tid, pc': ClientPc, clients: map<Tid, ClientPc>, hist: map<Slot, Hist>, info: map<Slot, Info>,
      jobs: map<(Slot, nat), Job>, n: nat)
    requires ClientsOk(clients, hist, info, jobs, n)
    requires t in clients && PcSlot(pc') == PcSlot(clients[t])
    requires ClientOk(t, pc', hist, info, jobs, n)
    ensures ClientsOk(clients[t := pc'], hist, info, jobs, n)
  {}

  /** A step on a slot outside the walk leaves the walking worker where it stands. */
  lemma WalkerFrame(
      x: Slot, w: WorkerPc, next: map<Slot, Option<Slot>>, next': map<Slot, Option<Slot>>, walk: seq<Slot>,
      hist: map<Slot, Hist>, hist': map<Slot, Hist>, pool: Pool, pool': Pool, n: nat)
    requires WalkerOk(w, next, walk, hist, pool, n) && WalkOk(walk, hist)
    requires Except(next, next', x) && Except(hist, hist', x)
    requires x in hist ==> hist[x].where != Walking
    requires w.Advancing? ==>
               w.p != x && pool'.LocalOf(WORKER) == pool.LocalOf(WORKER) && pool'.lost == pool.lost
    ensures WalkerOk(w, next', walk, hist', pool', n)
  {
    if w.Visiting? || w.Dropping? {
      assert w.p == walk[0];
      ChainFrame(next, next', Some(w.p), walk);
    } else if w.Advancing? {
      ChainFrame(next, next', next[w.p], walk);
    }
  }

  /** The slot the walk has just processed is not one a thread can hold or be given. */
  lemma AdvancingSlot(
      w: WorkerPc, next: map<Slot, Option<Slot>>, walk: seq<Slot>, hist: map<Slot, Hist>, pool: Pool, n: nat)
    requires WalkerOk(w, next, walk, hist, pool, n) && w.Advancing? && PoolOk(pool, hist)
    ensures !hist[w.p].where.Held?
    ensures forall t, src :: t != WORKER ==> !CanGet(pool, t, w.p, src)
  {
    assert w.p in pool.LocalOf(WORKER) ==> pool.IsFree(w.p);
  }

  /** A step on a slot that is with a thread before and after. */
  lemma RunnerFrame(
      x: Slot, w: WorkerPc, hist: map<Slot, Hist>, hist': map<Slot, Hist>,
      info: map<Slot, Info>, info': map<Slot, Info>, heap: multiset<Slot>)
    requires RunnerOk(w, hist, info, heap) && HeapOk(heap, hist)
    requires Except(hist, hist', x) && Except(info, info', x)
    requires x in hist ==> hist[x].where != Heaped && hist[x].where != Claimed
    requires hist'[x].where != Claimed && hist'[x].phase != Running
    ensures RunnerOk(w, hist', info', heap)
  {
    assert x !in heap;
  }

  lemma NearestFrame(
      x: Slot, next: map<Slot, Option<Slot>>, buckets: seq<Bucket>, lists: seq<seq<Slot>>, hist: map<Slot, Hist>,
      info: map<Slot, Info>, info': map<Slot, Info>)
    requires NearestOk(buckets, lists, info) && ListsOk(next, buckets, lists, hist)
    requires Except(info, info', x) && (x in hist ==> !hist[x].where.Linked?)
    requires info.Keys <= hist.Keys
    ensures NearestOk(buckets, lists, info')
  {
    forall b, y | 0 <= b < |lists| && y in lists[b] ensures y in hist && y != x {
      assert ListOk(b, next, buckets[b].head, lists[b], hist);
    }
  }

  /** A thread may stop being the one that will check only after its check. */
  lemma CoveredMoves(
      w: WorkerPc, nearest: Time, nearest': Time, notified: bool, buckets: seq<Bucket>, clients: map<Tid, ClientPc>,
      t: Tid, pc': ClientPc)
    requires CoveredOk(w, nearest, notified, buckets, clients) && t in clients
    requires nearest' <= nearest
    requires clients[t].Checking? ==> nearest' <= clients[t].rt
    ensures CoveredOk(w, nearest', notified, buckets, clients[t := pc'])
  {
    forall b | !notified && 0 <= b < |buckets|
      ensures Covers(w, nearest', b, buckets[b].nearest) || CheckDue(clients[t := pc'], buckets[b].nearest)
    {
      if CheckDue(clients, buckets[b].nearest) {
        var u :| u in clients && clients[u].Checking? && clients[u].rt <= buckets[b].nearest;
        if u != t { assert clients[t := pc'][u].Checking?; }
      }
    }
  }

  lemma SleepMoves(w: WorkerPc, nearest: Time, signal: bool, clients: map<Tid, ClientPc>, t: Tid, pc': ClientPc)
    requires SleepOk(w, nearest, signal, clients) && t in clients
    requires clients[t].Waking? && w.Asleep? ==> signal
    ensures SleepOk(w, nearest, signal, clients[t := pc'])
  {
    if WakeDue(clients) {
      var u :| u in clients && clients[u].Waking?;
      if u != t { assert clients[t := pc'][u].Waking?; }
    }
  }

  lemma StopMoves(
      w: WorkerPc, nearest: Time, nearest': Time, signal: bool, signal': bool, stop: bool, notified: bool,
      clients: map<Tid, ClientPc>, t: Tid, pc': ClientPc)
    requires StopOk(w, nearest, signal, stop, notified, clients) && t in clients
    requires nearest' <= nearest && (signal ==> signal') && !pc'.Stopping?
    ensures StopOk(w, nearest', signal', stop, notified, clients[t := pc'])
  {}

  lemma SelfMoves(w: WorkerPc, clients: map<Tid, ClientPc>, t: Tid, pc': ClientPc)
    requires SelfOk(w, clients) && t in clients && (t == WORKER ==> w.InFn?)
    ensures SelfOk(w, clients[t := pc'])
  {}

  lemma KeysFrame(
      x: Slot, next: map<Slot, Option<Slot>>, next': map<Slot, Option<Slot>>, info: map<Slot, Info>,
      info': map<Slot, Info>, version: map<Slot, nat>, version': map<Slot, nat>, hist: map<Slot, Hist>,
      hist': map<Slot, Hist>)
    requires KeysOk(next, info, version, hist) && x < UINT32
    requires Except(next, next', x) && Except(info, info', x) && Except(version, version', x) && Except(hist, hist', x)
    ensures KeysOk(next', info', version', hist')
  {}
}
