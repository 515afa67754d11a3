/** What becomes of a call of stop_and_join (idea/timer_thread.cpp, lines 267-273): the notification
    takes the worker to its exit, unless it arrives between the worker's test of the stop flag and
    its reset of the global nearest time (lines 208-212), which undoes it. */
module TimerStop {
  import opened Prelude
  import opened TaskIds
  import opened PoolSpec
  import opened TimerThread
  import opened TimerInvariant
  import opened TimerSafety
  import opened TimerPasses
  import opened TimerTheorems

  /** The worker was told to stop, and is not about to forget it. */
  predicate Heard(s: State) {
    s.stop && s.notified && !s.worker.Resetting?
  }

  // ---------------------------------------------------------------- every step, every run

  lemma StepStaysHeard(s: State, a: Action)
    requires Inv(s) && Heard(s) && Enabled(s, a)
    ensures Inv(Do(s, a)) && Heard(Do(s, a))
    ensures a.ByThread? ==> ToEnd(Do(s, a)) == ToEnd(s)
    ensures a.ByWorker? ==> Less(ToEnd(Do(s, a)), ToEnd(s))
  {
    hide Inv, Less, ScanLeft, Rank, PassEnds, InPass, ClientDo, ClientEnabled, WorkerDo, WorkerEnabled;
    StepKeeps(s, a);
    match a
    case ByThread(t, c) => ClientStepsAside(s, t, c);
    case ByWorker(w) => WorkerGoesOn(s, w);
  }

  /** A stop notification is heard: as long as the worker has not reset the global nearest time
      since, it exits at its next test of the stop flag, and when it waits it has been signalled
      or waits for a time that is not positive. */
  lemma StopIsHeard(run: seq<Action>, s: State)
    requires Reaches(run, s) && s.notified
    ensures s.worker.Top? ==> ReadStop(s).worker.Exited?
    ensures s.worker.Asleep? ==> s.signal || s.worker.until <= 0
  {
    hide Inv;
    RunKeeps(run, s);
    HeardInSleep(s);
  }

  lemma HeardInSleep(s: State)
    requires Inv(s) && s.notified
    ensures s.stop && (s.worker.Asleep? ==> s.signal || s.worker.until <= 0)
  {
    hide PoolOk, SlotsOk, JobsOk, ListsOk, WalkOk, HeapOk, IssuedOk, ClientsOk, WalkerOk, RunnerOk, NearestOk,
         CoveredOk, SleepOk, KeysOk, SelfOk;
  }

  /** Told to stop anywhere but before the reset, the worker never forgets it: whatever any thread
      does afterwards, it exits at its next test of the flag and does not settle down to wait. */
  lemma StopStaysHeard(run: seq<Action>, s: State, t: Tid, states: seq<State>, acts: seq<Action>)
    requires Reaches(run, s) && CanNotify(s, t) && !s.worker.Resetting?
    requires Path(states, acts) && states[0] == Notify(s, t)
    ensures var r := Last(states);
            && Heard(r)
            && (r.worker.Top? ==> ReadStop(r).worker.Exited?)
            && (r.worker.Asleep? ==> r.signal || r.worker.until <= 0)
  {
    hide Inv, Notify;
    NotifyIsHeard(run, s, t);
    PathStaysHeard(states, acts, |acts|);
    HeardInSleep(Last(states));
  }

  lemma NotifyIsHeard(run: seq<Action>, s: State, t: Tid)
    requires Reaches(run, s) && CanNotify(s, t)
    ensures Inv(Notify(s, t)) && Notify(s, t).stop && Notify(s, t).worker == s.worker
    ensures Notify(s, t).notified && WORKER in Notify(s, t).clients
  {
    hide PoolOk, SlotsOk, JobsOk, ListsOk, WalkOk, HeapOk, IssuedOk, ClientsOk, WalkerOk, RunnerOk, NearestOk,
         CoveredOk, SleepOk, KeysOk, Reaches;
    RunKeeps(run, s);
    StepKeeps(s, ByThread(t, ANotify));
  }

  lemma {:induction false} PathStaysHeard(states: seq<State>, acts: seq<Action>, i: nat)
    requires Path(states, acts) && Inv(states[0]) && Heard(states[0]) && i <= |acts|
    ensures Inv(states[i]) && Heard(states[i])
  {
    hide Inv, Heard, Do, Enabled;
    if i > 0 {
      PathStaysHeard(states, acts, i - 1);
      assert Step(states[i - 1], acts[i - 1], states[i]);
      StepStaysHeard(states[i - 1], acts[i - 1]);
    }
  }

  // ---------------------------------------------------------------- to the exit

  /** A worker that was told to stop anywhere but before the reset exits, whatever the other threads
      do, if it keeps taking steps: if its waits end and the task it is running returns. */
  lemma StopEndsTheWorker(run: seq<Action>, s: State, t: Tid, sigma: nat -> State, acts: nat -> Option<Action>)
    requires Reaches(run, s) && CanNotify(s, t) && !s.worker.Resetting?
    requires sigma(0) == Notify(s, t) && Lasts(sigma, acts) && forall i: nat :: MovesAfter(sigma, acts, i)
    ensures exists j: nat :: sigma(j).worker.Exited?
  {
    hide Inv, Notify, Lasts, MovesAfter, Reaches;
    NotifyIsHeard(run, s, t);
    var j := ExitsAfter(sigma, acts, 0);
  }

  lemma {:induction false} ExitsAfter(sigma: nat -> State, acts: nat -> Option<Action>, i: nat) returns (j: nat)
    requires Lasts(sigma, acts) && forall i: nat :: MovesAfter(sigma, acts, i)
    requires Inv(sigma(i)) && Heard(sigma(i))
    ensures sigma(j).worker.Exited?
    decreases ToEnd(sigma(i)).scan, ToEnd(sigma(i)).walk, ToEnd(sigma(i)).heap, ToEnd(sigma(i)).rank
  {
    hide Inv, Heard, Do, Enabled, ToEnd;
    assert MovesAfter(sigma, acts, i);
    j :| i <= j && (sigma(j).worker.Exited? || (acts(j).Some? && acts(j).value.ByWorker?));
    if !sigma(j).worker.Exited? {
      TimeStaysHeard(sigma, acts, i, j);
      assert Step(sigma(j), acts(j).value, sigma(j + 1));
      StepStaysHeard(sigma(j), acts(j).value);
      j := ExitsAfter(sigma, acts, j + 1);
    }
  }

  lemma {:induction false} TimeStaysHeard(sigma: nat -> State, acts: nat -> Option<Action>, i: nat, j: nat)
    requires Lasts(sigma, acts) && i <= j && Inv(sigma(i)) && Heard(sigma(i))
    ensures Inv(sigma(j)) && Heard(sigma(j))
    ensures ToEnd(sigma(j)) == ToEnd(sigma(i)) || Less(ToEnd(sigma(j)), ToEnd(sigma(i)))
    decreases j - i
  {
    hide Inv, Heard, Do, Enabled, ToEnd;
    if i < j {
      TimeStaysHeard(sigma, acts, i, j - 1);
      if acts(j - 1).Some? {
        assert Step(sigma(j - 1), acts(j - 1).value, sigma(j));
        StepStaysHeard(sigma(j - 1), acts(j - 1).value);
      } else {
        assert sigma(j) == sigma(j - 1);
      }
    }
  }

  /** It gets there by its own steps, from wherever it is, unless the task it is running is in the
      middle of a call. */
  lemma WorkerCanExit(run: seq<Action>, s: State, t: Tid)
    requires Reaches(run, s) && CanNotify(s, t) && !s.worker.Resetting?
    requires s.worker.InFn? ==> t == WORKER || (WORKER in s.clients && s.clients[WORKER] == Idle)
    ensures exists s' :: WorkerReaches(Notify(s, t), s') && s'.worker.Exited?
  {
    hide Inv, Reaches, WorkerReaches;
    NotifyIsHeard(run, s, t);
    if !s.worker.InFn? { IdleOutsideFn(Notify(s, t)); }
    var s' := GoesToExit(Notify(s, t));
  }

  lemma {:induction false} GoesToExit(s: State) returns (s': State)
    requires Inv(s) && s.stop && !s.worker.Resetting? && WORKER in s.clients && s.clients[WORKER] == Idle
    ensures WorkerReaches(s, s') && s'.worker.Exited?
    decreases ToEnd(s).scan, ToEnd(s).walk, ToEnd(s).heap, ToEnd(s).rank
  {
    hide Inv, WorkerReaches, WorkerDo, WorkerEnabled, ToEnd;
    if s.worker.Exited? {
      StaysThere(s);
      s' := s;
    } else {
      var w := WorkerHasAStep(s);
      WorkerGoesOn(s, w);
      s' := GoesToExit(WorkerDo(s, w));
      StepsFirst(s, w, s');
    }
  }

  // ---------------------------------------------------------------- the stop that is lost

  /** The worker waits without end, with the stop flag set and unsignalled. */
  predicate MissesStop(s: State) {
    s.stop && s.worker == Asleep(MAX_TIME) && !s.signal
  }

  ghost predicate CanMissStop(s: State) {
    exists states, acts :: Path(states, acts) && states[0] == s && MissesStop(Last(states))
  }

  /** A stop can be lost exactly if it notifies the worker between its test of the flag and its
      reset of the global nearest time. */
  lemma StopIsLostExactlyBeforeTheReset(run: seq<Action>, s: State, t: Tid)
    requires Reaches(run, s) && CanNotify(s, t)
    ensures CanMissStop(Notify(s, t)) <==> s.worker.Resetting?
  {
    hide Inv, Notify, Reaches, WorkerReaches;
    NotifyIsHeard(run, s, t);
    if s.worker.Resetting? {
      var s' := ResetMissesStop(run, s, t);
      AloneCanMiss(Notify(s, t), s');
    } else if CanMissStop(Notify(s, t)) {
      var states, acts :| Path(states, acts) && states[0] == Notify(s, t) && MissesStop(Last(states));
      StopStaysHeard(run, s, t, states, acts);
    }
  }

  lemma AloneCanMiss(s: State, s': State)
    requires WorkerReaches(s, s') && MissesStop(s')
    ensures CanMissStop(s)
  {
    var states, acts :| Alone(s, states, acts, s');
    assert Path(states, acts) && states[0] == s && MissesStop(Last(states));
  }

  /** The worker alone gets there: it resets, goes through the buckets, runs all the tasks, since the clock
      says that they are due, and waits without end for the next. */
  lemma ResetMissesStop(run: seq<Action>, s: State, t: Tid) returns (s': State)
    requires Reaches(run, s) && CanNotify(s, t) && s.worker.Resetting?
    ensures WorkerReaches(Notify(s, t), s') && MissesStop(s') && s'.clients == Notify(s, t).clients
  {
    hide Inv, Notify, Reaches, WorkerReaches;
    NotifyIsHeard(run, s, t);
    s' := ResetsAndRests(Notify(s, t), MAX_TIME);
    NothingIsLeft(s');
  }

  lemma NothingIsLeft(s: State)
    requires Inv(s) && s.worker.Asleep? && (s.heap == multiset{} || s.clock == MAX_TIME)
    ensures s.worker.until == MAX_TIME
  {
    hide PoolOk, KeysOk, SlotsOk, JobsOk, ListsOk, WalkOk, HeapOk, IssuedOk, ClientsOk, WalkerOk, SelfOk, NearestOk,
         CoveredOk, SleepOk, StopOk;
  }

  // ---------------------------------------------------------------- the lost stop happens

  /** From every initial state, whatever the number of buckets, a stop can be lost: all calls are
      over, and the worker waits for ever. */
  lemma StopCanBeLost(s0: State, t: Tid)
    requires IsInit(s0) && t in s0.clients && t != WORKER
    ensures exists run, s, s' :: Reaches(run, s) && CanNotify(s, t) && WorkerReaches(Notify(s, t), s')
                                 && MissesStop(s') && forall u :: u in s'.clients ==> s'.clients[u] == Idle
  {
    hide Reaches, WorkerReaches;
    assert Reaches([], s0) by { InitReaches(s0); }
    var s1 := ReadStop(s0);
    Extend([], s0, ByWorker(AReadStop));
    var s2 := SetStop(s1, t);
    Extend([] + [ByWorker(AReadStop)], s1, ByThread(t, ASetStop));
    var run := [] + [ByWorker(AReadStop)] + [ByThread(t, ASetStop)];
    var s' := ResetMissesStop(run, s2, t);
    assert Reaches(run, s2) && CanNotify(s2, t);
  }

  lemma Extend(run: seq<Action>, r: State, a: Action)
    requires Reaches(run, r) && Enabled(r, a)
    ensures Reaches(run + [a], Do(r, a))
  {
    var states :| Follows(states, run) && Last(states) == r;
    var run', states' := run + [a], states + [Do(r, a)];
    hide Do, Enabled;
    assert Step(r, a, Do(r, a));
    forall i | 0 <= i < |run'| ensures Step(states'[i], run'[i], states'[i + 1]) {
      assert i < |run| ==> Step(states[i], run[i], states[i + 1]);
    }
    assert Follows(states', run') && Last(states') == Do(r, a);
  }

  lemma InitReaches(s: State)
    requires IsInit(s)
    ensures Reaches([], s)
  {
    assert Follows([s], []) && Last([s]) == s;
  }
}
