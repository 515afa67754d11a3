/** What a whole call of schedule does (idea/timer_thread.cpp, lines 95-149), whatever the other threads and
    the worker do meanwhile. */
module TimerCalls {
  import opened Prelude
  import opened TaskIds
  import opened PoolSpec
  import opened TimerThread
  import opened TimerInvariant
  import opened TimerSafety
  import opened TimerSlots
  import opened TimerPasses
  import opened TimerTheorems

  /** What the caller has passed, and what had been asked for before. */
  datatype Request = Request(fn: nat, rt: Time, b: nat, before: map<(Slot, nat), Job>)

  /** The job is a new one, for what was passed. */
  predicate Asks(q: Request, jobs: map<(Slot, nat), Job>, x: Slot, g: nat) {
    (x, g) in jobs && (x, g) !in q.before && jobs[(x, g)].fn == q.fn && jobs[(x, g)].runTime == q.rt
  }

  /** A step has recorded one new job, for what was passed. */
  ghost predicate Records(q: Request, jobs: map<(Slot, nat), Job>, jobs': map<(Slot, nat), Job>) {
    exists x: Slot, g: nat :: (x, g) !in jobs && jobs' == jobs[(x, g) := Job(q.fn, q.rt, [], false, false)]
  }

  /** The slot of the new job can be reached from the head of the bucket that was passed. */
  ghost predicate Links(q: Request, s: State) {
    exists x :: x in s.hist && Asks(q, s.jobs, x, s.hist[x].gen) && InBucket(s, q.b, x)
  }

  /** There is a new ticket for the new job, under its id. */
  ghost predicate Issues(q: Request, s0: State, s: State) {
    exists k :: k in s.issued && k !in s0.issued && Asks(q, s.jobs, k.slot, k.gen) && k.id == IdOf(k.slot, k.gen)
  }

  /** The call is under way with what was passed, and with the job for it once there is one; when it is
      over there is a ticket for that job. */
  ghost predicate InCall(s: State, t: Tid, q: Request) {
    && t in s.clients && q.before.Keys <= s.jobs.Keys
    && match s.clients[t]
       case Idle => exists k :: k in s.issued && Asks(q, s.jobs, k.slot, k.gen)
       case Getting(fn, rt, b) => fn == q.fn && rt == q.rt && b == q.b
       case Filling(fn, rt, b, _) => fn == q.fn && rt == q.rt && b == q.b
       case Bumping(fn, rt, b, _) => fn == q.fn && rt == q.rt && b == q.b
       case Stamping(rt, b, x) => rt == q.rt && b == q.b && x in s.hist && Asks(q, s.jobs, x, s.hist[x].gen)
       case Linking(rt, b, x) => rt == q.rt && b == q.b && x in s.hist && Asks(q, s.jobs, x, s.hist[x].gen)
       case Checking(rt, b, k) => rt == q.rt && b == q.b && Asks(q, s.jobs, k.slot, k.gen)
       case Waking(k) => Asks(q, s.jobs, k.slot, k.gen)
       case Stopping => false
  }

  /** How many steps of its own a call is from its return. */
  function CallLeft(pc: ClientPc): nat {
    match pc
    case Idle => 0
    case Getting(_, _, _) => 7
    case Filling(_, _, _, _) => 6
    case Bumping(_, _, _, _) => 5
    case Stamping(_, _, _) => 4
    case Linking(_, _, _) => 3
    case Checking(_, _, _) => 2
    case Waking(_) => 1
    case Stopping => 1
  }

  // ---------------------------------------------------------------- the others

  lemma AsksStays(q: Request, jobs: map<(Slot, nat), Job>, jobs': map<(Slot, nat), Job>, x: Slot, g: nat)
    requires Asks(q, jobs, x, g) && JobsGrow(jobs, jobs')
    ensures Asks(q, jobs', x, g)
  {}

  /** A step that is not t's leaves its call as it is. */
  lemma OthersKeepCall(s: State, a: Action, t: Tid, q: Request)
    requires Inv(s) && Enabled(s, a) && InCall(s, t, q) && s.clients[t] != Idle
    requires a.ByThread? ==> a.t != t
    ensures InCall(Do(s, a), t, q) && t in Do(s, a).clients && Do(s, a).clients[t] == s.clients[t]
  {
    hide Inv, Do, Enabled, Asks, JobsGrow, SlotMoves;
    HistoryOnlyGrows(s, a);
    SamePlace(s, a, t);
    KeysGrow(s.jobs, Do(s, a).jobs);
    var s' := Do(s, a);
    match s.clients[t]
    case Stamping(_, _, x) => UseStays(s, a, t, x); AsksStays(q, s.jobs, s'.jobs, x, s.hist[x].gen);
    case Linking(_, _, x) => UseStays(s, a, t, x); AsksStays(q, s.jobs, s'.jobs, x, s.hist[x].gen);
    case Checking(_, _, k) => AsksStays(q, s.jobs, s'.jobs, k.slot, k.gen);
    case Waking(k) => AsksStays(q, s.jobs, s'.jobs, k.slot, k.gen);
    case _ =>
  }

  lemma KeysGrow(jobs: map<(Slot, nat), Job>, jobs': map<(Slot, nat), Job>)
    requires JobsGrow(jobs, jobs')
    ensures jobs.Keys <= jobs'.Keys
  {}

  lemma SamePlace(s: State, a: Action, t: Tid)
    requires Inv(s) && Enabled(s, a) && t in s.clients && (a.ByThread? ==> a.t != t)
    ensures t in Do(s, a).clients && Do(s, a).clients[t] == s.clients[t]
  {
    hide Inv, ClientDo, ClientEnabled, WorkerDo, WorkerEnabled, Less, PassEnds, InPass, ToEnd;
    match a
    case ByThread(u, c) => ClientStepsAside(s, u, c);
    case ByWorker(w) => if s.worker.Resetting? { ResetOnly(s, w); } else { WorkerGoesOn(s, w); }
  }

  lemma ResetOnly(s: State, w: WorkerAction)
    requires WorkerEnabled(s, w) && s.worker.Resetting?
    ensures w == AReset && WorkerDo(s, w) == Reset(s) && Reset(s).clients == s.clients
  {}

  /** The slot that t holds keeps its use. */
  lemma UseStays(s: State, a: Action, t: Tid, x: Slot)
    requires Inv(s) && Enabled(s, a) && t in s.clients && PcSlot(s.clients[t]) == Some(x)
    requires a.ByThread? ==> a.t != t
    ensures x in s.hist && x in Do(s, a).hist && Do(s, a).hist[x].gen == s.hist[x].gen
  {
    hide Do, Enabled;
    Holds(s, t, x);
    StepMoves(s, a, x);
    if Bumps(s, a, x) { Holds(s, a.t, x); }
    hide Inv;
  }

  lemma Holds(s: State, t: Tid, x: Slot)
    requires Inv(s) && t in s.clients && PcSlot(s.clients[t]) == Some(x)
    ensures x in s.hist && s.hist[x].where == Held(t)
  {
    PcFacts(s, t);
    hide Inv;
  }

  // ---------------------------------------------------------------- its own steps

  lemma OwnStepGoesOn(s: State, t: Tid, c: ClientAction, q: Request)
    requires Inv(s) && ClientEnabled(s, t, c) && InCall(s, t, q) && s.clients[t] != Idle
    ensures InCall(ClientDo(s, t, c), t, q)
    ensures t in ClientDo(s, t, c).clients && CallLeft(ClientDo(s, t, c).clients[t]) < CallLeft(s.clients[t])
  {
    hide Inv, InCall, Asks, CallLeft, Call, GetSlot, Fill, Bump, Stamp, Link, Check, Wake, Unschedule, SetStop, Notify,
         LeavePool;
    NotStopping(s, t, q);
    match c
    case AGetSlot(slot, src) => GetSlotGoesOn(s, t, slot, src, q);
    case AFill => FillGoesOn(s, t, q);
    case ABump => BumpGoesOn(s, t, q);
    case AStamp => StampGoesOn(s, t, q);
    case ALink => LinkGoesOn(s, t, q);
    case ACheck => CheckGoesOn(s, t, q);
    case AWake => WakeGoesOn(s, t, q);
  }

  lemma NotStopping(s: State, t: Tid, q: Request)
    requires InCall(s, t, q)
    ensures s.clients[t] != Stopping
  {}

  lemma GetSlotGoesOn(s: State, t: Tid, slot: Slot, src: Source, q: Request)
    requires CanGetSlot(s, t, slot, src) && InCall(s, t, q)
    ensures InCall(GetSlot(s, t, slot, src), t, q)
    ensures t in GetSlot(s, t, slot, src).clients
    ensures CallLeft(GetSlot(s, t, slot, src).clients[t]) < CallLeft(s.clients[t])
  {
    hide Get, CanGet;
  }

  lemma FillGoesOn(s: State, t: Tid, q: Request)
    requires CanFill(s, t) && InCall(s, t, q)
    ensures InCall(Fill(s, t), t, q)
    ensures t in Fill(s, t).clients && CallLeft(Fill(s, t).clients[t]) < CallLeft(s.clients[t])
  {}

  /** The job is for what was passed. */
  lemma BumpGoesOn(s: State, t: Tid, q: Request)
    requires Inv(s) && CanBump(s, t) && InCall(s, t, q)
    ensures InCall(Bump(s, t), t, q)
    ensures t in Bump(s, t).clients && CallLeft(Bump(s, t).clients[t]) < CallLeft(s.clients[t])
    ensures Records(q, s.jobs, Bump(s, t).jobs)
  {
    hide Inv;
    var x := s.clients[t].slot;
    NewUse(s, x);
    assert Bump(s, t).jobs == s.jobs[(x, s.hist[x].gen + 1) := Job(q.fn, q.rt, [], false, false)];
  }

  lemma NewUse(s: State, x: Slot)
    requires Inv(s) && x in s.hist
    ensures (x, s.hist[x].gen + 1) !in s.jobs
  {
    hide PoolOk, KeysOk, SlotsOk, ListsOk, WalkOk, HeapOk, IssuedOk, ClientsOk, WalkerOk, RunnerOk, SelfOk, DueOk,
         NearestOk, CoveredOk, SleepOk, StopOk;
  }

  lemma StampGoesOn(s: State, t: Tid, q: Request)
    requires CanStamp(s, t) && InCall(s, t, q)
    ensures InCall(Stamp(s, t), t, q)
    ensures t in Stamp(s, t).clients && CallLeft(Stamp(s, t).clients[t]) < CallLeft(s.clients[t])
  {
    hide MakeTaskId, Asks;
  }

  /** The slot is linked in the bucket that was passed. */
  lemma LinkGoesOn(s: State, t: Tid, q: Request)
    requires Inv(s) && CanLink(s, t) && InCall(s, t, q)
    ensures InCall(Link(s, t), t, q)
    ensures t in Link(s, t).clients && CallLeft(Link(s, t).clients[t]) < CallLeft(s.clients[t])
    ensures Links(q, Link(s, t))
  {
    hide Inv, Asks, InBucket;
    var x := s.clients[t].slot;
    LinkTicket(s, t, q);
    StepKeeps(s, ByThread(t, ALink));
    LinkedThere(s, t);
    BucketOfSlot(Link(s, t), q.b, x);
    assert Asks(q, Link(s, t).jobs, x, Link(s, t).hist[x].gen);
  }

  lemma LinkedThere(s: State, t: Tid)
    requires CanLink(s, t)
    ensures var x := s.clients[t].slot;
            && x in Link(s, t).hist && Link(s, t).hist[x].where == Linked(s.clients[t].b)
            && Link(s, t).hist[x].gen == s.hist[x].gen && s.clients[t].b < |Link(s, t).buckets|
  {}

  lemma BucketOfSlot(s: State, b: nat, x: Slot)
    requires Inv(s) && x in s.hist && s.hist[x].where == Linked(b) && b < |s.buckets|
    ensures InBucket(s, b, x)
  {
    hide PoolOk, KeysOk, SlotsOk, JobsOk, WalkOk, HeapOk, IssuedOk, ClientsOk, WalkerOk, RunnerOk, SelfOk, DueOk,
         NearestOk, CoveredOk, SleepOk, StopOk;
    InBucketIsListed(s, b, x);
  }

  lemma LinkTicket(s: State, t: Tid, q: Request)
    requires CanLink(s, t) && InCall(s, t, q)
    ensures InCall(Link(s, t), t, q) && Asks(q, s.jobs, s.clients[t].slot, s.hist[s.clients[t].slot].gen)
    ensures t in Link(s, t).clients && CallLeft(Link(s, t).clients[t]) < CallLeft(s.clients[t])
    ensures s.clients[t].b == q.b
  {
    hide Asks;
    var x := s.clients[t].slot;
    var k := Ticket(s.info[x].taskId, x, s.hist[x].gen);
    assert Link(s, t).clients[t].Idle? ==> k in Link(s, t).issued;
  }

  lemma CheckGoesOn(s: State, t: Tid, q: Request)
    requires CanCheck(s, t) && InCall(s, t, q)
    ensures InCall(Check(s, t), t, q)
    ensures t in Check(s, t).clients && CallLeft(Check(s, t).clients[t]) < CallLeft(s.clients[t])
  {
    hide Asks;
    var pc := s.clients[t];
    if pc.rt < s.nearest {
      ChecksWith(s, t, pc.rt, Waking(pc.ticket), s.issued, q);
    } else {
      ChecksWith(s, t, s.nearest, Idle, s.issued + {pc.ticket}, q);
    }
  }

  lemma ChecksWith(s: State, t: Tid, nearest: Time, pc': ClientPc, issued: set<Ticket>, q: Request)
    requires CanCheck(s, t) && InCall(s, t, q)
    requires pc' == Waking(s.clients[t].ticket) || (pc' == Idle && s.clients[t].ticket in issued)
    ensures InCall(s.(nearest := nearest, clients := s.clients[t := pc'], issued := issued), t, q)
    ensures CallLeft(pc') < CallLeft(s.clients[t])
  {
    hide Asks;
  }

  lemma WakeGoesOn(s: State, t: Tid, q: Request)
    requires CanWake(s, t) && InCall(s, t, q)
    ensures InCall(Wake(s, t), t, q)
    ensures t in Wake(s, t).clients && CallLeft(Wake(s, t).clients[t]) < CallLeft(s.clients[t])
  {
    hide Asks;
    assert s.clients[t].ticket in Wake(s, t).issued;
  }

  // ---------------------------------------------------------------- the whole call

  /** The steps so far are those of one call of t, with the others' steps in between. */
  ghost predicate IsCall(states: seq<State>, acts: seq<Action>, t: Tid, fn: nat, rt: Time, b: nat) {
    && Path(states, acts) && acts != [] && acts[0] == ByThread(t, ACall(fn, rt, b))
    && forall i :: 0 < i < |acts| ==> t in states[i].clients && states[i].clients[t] != Idle
  }

  /** The steps of thread t among the first n. */
  function OwnSteps(acts: seq<Action>, t: Tid, n: nat): nat
    requires n <= |acts|
  {
    if n == 0 then 0 else OwnSteps(acts, t, n - 1) + if acts[n - 1].ByThread? && acts[n - 1].t == t then 1 else 0
  }

  /** Whatever the other threads and the worker do during a call of schedule: the job that it records is a
      new one for exactly the function and the time that the caller passed; the slot of that job is
      linked in the bucket that the caller chose; and when the call returns, it has issued a new ticket,
      which names that job, after at most eight steps of its own. */
  lemma ScheduleDoes(
      run: seq<Action>, t: Tid, fn: nat, rt: Time, b: nat, states: seq<State>, acts: seq<Action>)
    requires IsCall(states, acts, t, fn, rt, b) && Reaches(run, states[0])
    ensures var q := Request(fn, rt, b, states[0].jobs);
            var r, s := states[|acts| - 1], Last(states);
            && (Last(acts) == ByThread(t, ABump) ==> Records(q, r.jobs, s.jobs))
            && (Last(acts) == ByThread(t, ALink) ==> Links(q, s))
            && OwnSteps(acts, t, |acts|) <= 8
            && t in s.clients && (s.clients[t] == Idle ==> Issues(q, states[0], s))
  {
    hide Inv, InCall, Enabled, Do, Reaches, Records, Links, Issues;
    RunKeeps(run, states[0]);
    var q, n := Request(fn, rt, b, states[0].jobs), |acts|;
    CallGoesOn(states, acts, t, q, n);
    assert Step(states[n - 1], acts[n - 1], states[n]);
    if n > 1 {
      CallGoesOn(states, acts, t, q, n - 1);
      if acts[n - 1] == ByThread(t, ABump) { BumpDoes(states[n - 1], t, q); }
      if acts[n - 1] == ByThread(t, ALink) { LinkDoes(states[n - 1], t, q); }
    }
    InItsPlace(states[n], t, q);
    if states[n].clients[t] == Idle { TicketIsNew(states[0], states[n], t, q); }
  }

  lemma BumpDoes(s: State, t: Tid, q: Request)
    requires Inv(s) && InCall(s, t, q) && Enabled(s, ByThread(t, ABump))
    ensures Records(q, s.jobs, Do(s, ByThread(t, ABump)).jobs)
  {
    hide Inv, InCall, Bump, Records;
    BumpGoesOn(s, t, q);
  }

  lemma LinkDoes(s: State, t: Tid, q: Request)
    requires Inv(s) && InCall(s, t, q) && Enabled(s, ByThread(t, ALink))
    ensures Links(q, Do(s, ByThread(t, ALink)))
  {
    hide Inv, InCall, Link, Links;
    LinkGoesOn(s, t, q);
  }

  lemma InItsPlace(s: State, t: Tid, q: Request)
    requires InCall(s, t, q)
    ensures t in s.clients
  {}

  lemma TicketIsNew(s0: State, s: State, t: Tid, q: Request)
    requires Inv(s0) && Inv(s) && InCall(s, t, q) && q.before == s0.jobs && s.clients[t] == Idle
    ensures Issues(q, s0, s)
  {
    hide PoolOk, KeysOk, SlotsOk, JobsOk, ListsOk, WalkOk, HeapOk, ClientsOk, WalkerOk, RunnerOk, SelfOk, DueOk,
         NearestOk, CoveredOk, SleepOk, StopOk, IdOf;
    var k :| k in s.issued && Asks(q, s.jobs, k.slot, k.gen);
    assert TicketOk(k, s.hist, s.jobs);
    assert k in s0.issued ==> TicketOk(k, s0.hist, s0.jobs);
  }

  lemma {:induction false} CallGoesOn(states: seq<State>, acts: seq<Action>, t: Tid, q: Request, n: nat)
    requires IsCall(states, acts, t, q.fn, q.rt, q.b) && Inv(states[0]) && q.before == states[0].jobs
    requires 0 < n <= |acts|
    ensures Inv(states[n]) && InCall(states[n], t, q)
    ensures t in states[n].clients && OwnSteps(acts, t, n) + CallLeft(states[n].clients[t]) <= 8
  {
    hide Inv, InCall, Do, Enabled, CallLeft;
    var r, a := states[n - 1], acts[n - 1];
    assert Step(r, a, states[n]);
    if n == 1 {
      StepKeeps(r, a);
      CallStarts(r, t, q);
      assert OwnSteps(acts, t, 0) == 0;
    } else {
      CallGoesOn(states, acts, t, q, n - 1);
      StepKeeps(r, a);
      if a.ByThread? && a.t == t { OwnStep(r, t, a.c, q); } else { OthersKeepCall(r, a, t, q); }
    }
  }

  lemma OwnStep(s: State, t: Tid, c: ClientAction, q: Request)
    requires Inv(s) && Enabled(s, ByThread(t, c)) && InCall(s, t, q) && t in s.clients && s.clients[t] != Idle
    ensures InCall(Do(s, ByThread(t, c)), t, q)
    ensures t in Do(s, ByThread(t, c)).clients
    ensures CallLeft(Do(s, ByThread(t, c)).clients[t]) < CallLeft(s.clients[t])
  {
    hide Inv, InCall, CallLeft, ClientDo, ClientEnabled;
    OwnStepGoesOn(s, t, c, q);
  }

  lemma CallStarts(s: State, t: Tid, q: Request)
    requires Enabled(s, ByThread(t, ACall(q.fn, q.rt, q.b))) && q.before == s.jobs
    ensures var s' := Do(s, ByThread(t, ACall(q.fn, q.rt, q.b)));
            InCall(s', t, q) && t in s'.clients && CallLeft(s'.clients[t]) == 7
  {}
}
