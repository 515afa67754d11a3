/** Doubly buffered data (idea/doubly_buffered_data.h) as a step machine: one writer, any number of
    readers that join at any time.  A step is one access to shared memory or to a mutex.

    The memory model is that of release and acquire: a load of index_ may find any store of its
    modification order that is not older than one the reader has found before, or than the last one
    it has learnt of through a mutex.  While fn runs, the buffer it works on may hold anything.

    "log" and "fns" are history: the data the successful Modify calls made current, and their
    functions. */
module DoublyBuffered {
  import opened Prelude

  type Value(!new)
  type Fn = Value -> Option<Value>
  type Rid = nat

  /** A reader with a wrapper: between reads, with its mutex locked, or with a pointer to the buffer
      that the m-th store of index_ named. */
  datatype Reader = Resting | Locked(floor: nat) | Holding(m: nat, buffer: nat)

  /** Where Modify is (lines 98-122): not called; running fn on the background; about to store index_;
      about to lock the list of wrappers; waiting for the i-th of them; running fn on the old buffer. */
  datatype Writer =
    | Out
    | First(f: Fn, b: nat, was: Value)
    | Ready(f: Fn, b: nat)
    | Flipped(f: Fn, b: nat)
    | Scan(f: Fn, b: nat, i: nat)
    | Second(f: Fn, b: nat, was: Value)

  /** "stores" is the modification order of index_; "sync" the newest store each wrapper's mutex tells of,
      "listSync" the one that the list's mutex tells of, "seen" the newest each reader has found. */
  datatype State = State(
    data: seq<Value>, stores: seq<nat>, wrappers: seq<Rid>, readers: map<Rid, Reader>,
    sync: map<Rid, nat>, seen: map<Rid, nat>, listSync: nat, writer: Writer, returned: Option<bool>,
    log: seq<Value>, fns: seq<Fn>)

  ghost predicate IsInit(s: State) {
    && |s.data| == 2 && s.data[0] == s.data[1] && s.stores == [0] && s.wrappers == [] && s.readers == map[]
    && s.sync == map[] && s.seen == map[] && s.listSync == 0 && s.writer == Out
    && s.log == [s.data[0]] && s.fns == []
  }

  datatype Action =
    | Join(r: Rid) | Lock(r: Rid) | Load(r: Rid, m: nat) | Unlock(r: Rid)
    | Modify(f: Fn) | Scribble(v: Value) | Finish | Store | LockList | Wait | UnlockList

  function Max(a: nat, b: nat): nat {
    if a >= b then a else b
  }

  ghost predicate Enabled(s: State, a: Action) {
    match a
    case Join(r) => r !in s.readers && !s.writer.Scan?
    case Lock(r) => r in s.readers && s.readers[r].Resting? && r in s.sync && r in s.seen
    case Load(r, m) => r in s.readers && s.readers[r].Locked? && s.readers[r].floor <= m < |s.stores|
    case Unlock(r) => r in s.readers && s.readers[r].Holding?
    case Modify(_) => s.writer.Out? && s.stores != [] && |s.data| == 2 && Last(s.stores) < 2
    case Scribble(_) => (s.writer.First? || s.writer.Second?) && s.writer.b < |s.data|
    case Finish => (s.writer.First? || s.writer.Second?) && s.writer.b < |s.data|
    case Store => s.writer.Ready? && s.writer.b < |s.data| && s.writer.b < 2
    case LockList => s.writer.Flipped?
    case Wait =>
      && s.writer.Scan? && s.writer.i < |s.wrappers| && s.stores != []
      && s.wrappers[s.writer.i] in s.readers && s.readers[s.wrappers[s.writer.i]].Resting?
    case UnlockList => s.writer.Scan? && s.writer.i == |s.wrappers| && s.writer.b < |s.data| && s.stores != []
  }

  /** fn has returned: if it failed, it has changed nothing. */
  ghost function DoFinish(s: State): State
    requires Enabled(s, Finish)
  {
    var w := s.writer;
    match w.f(w.was)
    case None => s.(data := s.data[w.b := w.was], writer := Out, returned := Some(false))
    case Some(v) =>
      if w.First? then s.(data := s.data[w.b := v], writer := Ready(w.f, w.b))
      else s.(data := s.data[w.b := v], writer := Out, returned := Some(true))
  }

  ghost function Do(s: State, a: Action): State
    requires Enabled(s, a)
  {
    var w := s.writer;
    match a
    case Join(r) =>
      s.(wrappers := s.wrappers + [r], readers := s.readers[r := Resting], sync := s.sync[r := s.listSync],
         seen := s.seen[r := 0])
    case Lock(r) => s.(readers := s.readers[r := Locked(Max(s.seen[r], s.sync[r]))])
    case Load(r, m) => s.(readers := s.readers[r := Holding(m, s.stores[m])], seen := s.seen[r := m])
    case Unlock(r) => s.(readers := s.readers[r := Resting])
    case Modify(f) => var b := 1 - Last(s.stores); s.(writer := First(f, b, s.data[b]), returned := None)
    case Scribble(v) => s.(data := s.data[w.b := v])
    case Finish => DoFinish(s)
    case Store =>
      s.(stores := s.stores + [w.b], writer := Flipped(w.f, 1 - w.b),
         log := s.log + [s.data[w.b]], fns := s.fns + [w.f])
    case LockList => s.(writer := Scan(w.f, w.b, 0))
    case Wait => s.(sync := s.sync[s.wrappers[w.i] := |s.stores| - 1], writer := Scan(w.f, w.b, w.i + 1))
    case UnlockList => s.(listSync := |s.stores| - 1, writer := Second(w.f, w.b, s.data[w.b]))
  }

  ghost predicate Step(r: State, a: Action, s: State) {
    Enabled(r, a) && s == Do(r, a)
  }

  /** The states that a run passes through, from any state. */
  ghost predicate Path(states: seq<State>, run: seq<Action>) {
    && |states| == |run| + 1
    && forall i :: 0 <= i < |run| ==> Step(states[i], run[i], states[i + 1])
  }

  ghost predicate Follows(states: seq<State>, run: seq<Action>) {
    Path(states, run) && IsInit(states[0])
  }

  /** The run leads to s. */
  ghost predicate Reaches(run: seq<Action>, s: State) {
    exists states :: Follows(states, run) && Last(states) == s
  }

  // ---------------------------------------------------------------- the invariant

  /** The history of index_ and of the data: the stores alternate, and each version is what the next
      successful fn made of the one before. */
  ghost predicate HistoryOk(stores: seq<nat>, log: seq<Value>, fns: seq<Fn>) {
    && |log| == |stores| == |fns| + 1
    && (forall m :: 0 <= m < |stores| ==> stores[m] == m % 2)
    && (forall n :: 0 <= n < |fns| ==> fns[n](log[n]) == Some(log[n + 1]))
  }

  /** The current buffer holds the current version; the other one what the writer's progress says. */
  ghost predicate DataOk(data: seq<Value>, log: seq<Value>, w: Writer) {
    && |data| == 2 && |log| >= 1 && data[(|log| - 1) % 2] == Last(log)
    && (!w.Out? ==> w.b == |log| % 2)
    && match w
       case Out => data[0] == data[1]
       case First(f, b, was) => was == Last(log)
       case Ready(f, b) => f(Last(log)) == Some(data[b])
       case Flipped(f, b) => |log| >= 2 && data[b] == log[|log| - 2] && f(data[b]) == Some(Last(log))
       case Scan(f, b, i) => |log| >= 2 && data[b] == log[|log| - 2] && f(data[b]) == Some(Last(log))
       case Second(f, b, was) => |log| >= 2 && was == log[|log| - 2] && f(was) == Some(Last(log))
  }

  /** A wrapper that the writer has waited for since the last store, if that needs waiting for. */
  ghost predicate Passed(wrappers: seq<Rid>, w: Writer, r: Rid) {
    match w
    case Flipped(_, _) => false
    case Scan(_, _, i) => i <= |wrappers| && r in wrappers[..i]
    case _ => true
  }

  /** Mutexes tell of the last store, or, before the writer has passed them, of the one before. */
  ghost predicate SyncOk(n: nat, wrappers: seq<Rid>, sync: map<Rid, nat>, listSync: nat, w: Writer) {
    && (forall r :: r in wrappers ==> r in sync && n <= sync[r] + 2 && sync[r] < n)
    && (forall r :: r in wrappers && Passed(wrappers, w, r) ==> r in sync && sync[r] + 1 == n)
    && n <= listSync + 2 && listSync < n
    && (!w.Flipped? && !w.Scan? ==> listSync + 1 == n)
    && (w.Scan? ==> w.i <= |wrappers|)
  }

  ghost predicate ReadersOk(stores: seq<nat>, readers: map<Rid, Reader>, sync: map<Rid, nat>, seen: map<Rid, nat>) {
    forall r :: r in readers ==>
      && r in sync && r in seen && seen[r] < |stores|
      && match readers[r]
         case Resting => true
         case Locked(floor) => sync[r] <= floor && seen[r] <= floor < |stores|
         case Holding(m, b) => sync[r] <= m < |stores| && b == stores[m] && seen[r] == m
  }

  ghost predicate WrappersOk(wrappers: seq<Rid>, readers: map<Rid, Reader>) {
    Distinct(wrappers) && forall r :: r in wrappers <==> r in readers
  }

  ghost predicate Inv(s: State) {
    && HistoryOk(s.stores, s.log, s.fns)
    && DataOk(s.data, s.log, s.writer)
    && SyncOk(|s.stores|, s.wrappers, s.sync, s.listSync, s.writer)
    && ReadersOk(s.stores, s.readers, s.sync, s.seen)
    && WrappersOk(s.wrappers, s.readers)
  }

  lemma InitInv(s: State)
    requires IsInit(s)
    ensures Inv(s)
  {}

  lemma ReaderKeeps(s: State, a: Action)
    requires Inv(s) && Enabled(s, a) && (a.Lock? || a.Load? || a.Unlock?)
    ensures Inv(Do(s, a))
  {
    hide HistoryOk, DataOk, Passed, Distinct;
  }

  lemma JoinKeeps(s: State, r: Rid)
    requires Inv(s) && Enabled(s, Join(r))
    ensures Inv(Do(s, Join(r)))
  {
    var s' := Do(s, Join(r));
    assert SyncOk(|s.stores|, s'.wrappers, s'.sync, s.listSync, s.writer) by { hide HistoryOk, DataOk, ReadersOk; }
    hide HistoryOk, DataOk, Passed;
  }

  lemma ModifyKeeps(s: State, f: Fn)
    requires Inv(s) && Enabled(s, Modify(f))
    ensures Inv(Do(s, Modify(f)))
  {
    hide ReadersOk, WrappersOk;
  }

  lemma ScribbleKeeps(s: State, v: Value)
    requires Inv(s) && Enabled(s, Scribble(v))
    ensures Inv(Do(s, Scribble(v)))
  {
    hide HistoryOk, ReadersOk, WrappersOk, SyncOk;
  }

  lemma FinishKeeps(s: State)
    requires Inv(s) && Enabled(s, Finish)
    ensures Inv(DoFinish(s))
  {
    FinishData(s);
    FinishSync(s);
    hide HistoryOk, DataOk, SyncOk, ReadersOk, WrappersOk;
  }

  lemma FinishData(s: State)
    requires DataOk(s.data, s.log, s.writer) && Enabled(s, Finish)
    ensures DataOk(DoFinish(s).data, s.log, DoFinish(s).writer)
  {}

  lemma FinishSync(s: State)
    requires SyncOk(|s.stores|, s.wrappers, s.sync, s.listSync, s.writer) && Enabled(s, Finish)
    ensures SyncOk(|s.stores|, s.wrappers, s.sync, s.listSync, DoFinish(s).writer)
  {}

  lemma StoreKeeps(s: State)
    requires Inv(s) && Enabled(s, Store)
    ensures Inv(Do(s, Store))
  {
    var s' := Do(s, Store);
    assert HistoryOk(s'.stores, s'.log, s'.fns) by { hide SyncOk, ReadersOk, WrappersOk; }
    assert DataOk(s'.data, s'.log, s'.writer) by { hide SyncOk, ReadersOk, WrappersOk; }
    hide HistoryOk, DataOk, WrappersOk;
  }

  lemma ListLockKeeps(s: State, a: Action)
    requires Inv(s) && Enabled(s, a) && (a.LockList? || a.UnlockList?)
    ensures Inv(Do(s, a))
  {
    hide HistoryOk, ReadersOk, WrappersOk;
    assert s.wrappers[..|s.wrappers|] == s.wrappers;
  }

  lemma WaitKeeps(s: State)
    requires Inv(s) && Enabled(s, Wait)
    ensures Inv(Do(s, Wait))
  {
    var i := s.writer.i;
    assert s.wrappers[..i + 1] == s.wrappers[..i] + [s.wrappers[i]];
    hide HistoryOk, DataOk, Distinct;
  }

  lemma FinishStep(s: State)
    requires Inv(s) && Enabled(s, Finish)
    ensures Inv(Do(s, Finish))
  {
    FinishKeeps(s);
    hide Inv, DoFinish;
  }

  lemma StepKeeps(s: State, a: Action)
    requires Inv(s) && Enabled(s, a)
    ensures Inv(Do(s, a))
  {
    hide Inv, Enabled, Do;
    match a
    case Join(r) => JoinKeeps(s, r);
    case Lock(_) => ReaderKeeps(s, a);
    case Load(_, _) => ReaderKeeps(s, a);
    case Unlock(_) => ReaderKeeps(s, a);
    case Modify(f) => ModifyKeeps(s, f);
    case Scribble(v) => ScribbleKeeps(s, v);
    case Finish => FinishStep(s);
    case Store => StoreKeeps(s);
    case LockList => ListLockKeeps(s, a);
    case Wait => WaitKeeps(s);
    case UnlockList => ListLockKeeps(s, a);
  }

  lemma {:induction false} PathKeeps(states: seq<State>, run: seq<Action>, i: nat)
    requires Follows(states, run) && i <= |run|
    ensures Inv(states[i])
  {
    hide Inv, Enabled, Do;
    if i == 0 {
      InitInv(states[0]);
    } else {
      PathKeeps(states, run, i - 1);
      assert Step(states[i - 1], run[i - 1], states[i]);
      StepKeeps(states[i - 1], run[i - 1]);
    }
  }

  lemma RunKeeps(run: seq<Action>, s: State)
    requires Reaches(run, s)
    ensures Inv(s)
  {
    var states :| Follows(states, run) && Last(states) == s;
    PathKeeps(states, run, |run|);
  }

  // ---------------------------------------------------------------- what readers and the writer can rely on

  /** What a reader holds is the result of a prefix of the successful Modify calls, in the buffer it
      points to, at most one version behind; and fn is not running on that buffer. */
  lemma HeldSnapshotsAreStable(run: seq<Action>, s: State, r: Rid)
    requires Reaches(run, s) && r in s.readers && s.readers[r].Holding?
    ensures var m, b := s.readers[r].m, s.readers[r].buffer;
            && m < |s.log| <= m + 2 && b < |s.data| && s.data[b] == s.log[m]
            && (s.writer.First? || s.writer.Second? ==> s.writer.b != b)
  {
    RunKeeps(run, s);
    assert r in s.wrappers;
    HeldVersion(s, r);
    hide SyncOk, ReadersOk, WrappersOk, Passed;
    HeldData(s.data, s.log, s.writer, s.readers[r].m);
  }

  lemma HeldVersion(s: State, r: Rid)
    requires Inv(s) && r in s.readers && s.readers[r].Holding? && r in s.wrappers
    ensures var m := s.readers[r].m;
            && m < |s.log| <= m + 2 && s.readers[r].buffer == m % 2
            && (m + 1 < |s.log| ==> s.writer.Flipped? || s.writer.Scan?)
  {
    hide DataOk, WrappersOk;
  }

  lemma HeldData(data: seq<Value>, log: seq<Value>, w: Writer, m: nat)
    requires DataOk(data, log, w) && m < |log| <= m + 2 && (m + 1 < |log| ==> w.Flipped? || w.Scan?)
    ensures |data| == 2 && data[m % 2] == log[m]
    ensures w.First? || w.Second? ==> w.b != m % 2
  {}

  /** The versions are what the functions of the successful Modify calls make, one after the other. */
  ghost function Replay(v: Value, fns: seq<Fn>): Option<Value> {
    if fns == [] then Some(v)
    else
      match Replay(v, ButLast(fns))
      case None => None
      case Some(u) => Last(fns)(u)
  }

  lemma {:induction false} VersionsReplay(run: seq<Action>, s: State, n: nat)
    requires Reaches(run, s) && n <= |s.fns|
    ensures n < |s.log| && Replay(s.log[0], s.fns[..n]) == Some(s.log[n])
  {
    RunKeeps(run, s);
    if n > 0 {
      VersionsReplay(run, s, n - 1);
      assert ButLast(s.fns[..n]) == s.fns[..n - 1];
    }
  }

  /** History only grows. */
  lemma VersionsStay(run: seq<Action>, s: State, a: Action)
    requires Reaches(run, s) && Enabled(s, a)
    ensures s.log <= Do(s, a).log && s.fns <= Do(s, a).fns
  {
    RunKeeps(run, s);
    hide HistoryOk, DataOk, SyncOk, ReadersOk, WrappersOk;
  }

  /** A reader never goes back: each load finds what it has seen before or something newer.  This is the
      coherence of index_, which Lock takes over from the C++ memory model, carried to what is held. */
  lemma ReadersNeverGoBack(run: seq<Action>, s: State, a: Action, r: Rid)
    requires Reaches(run, s) && Enabled(s, a) && r in s.readers
    ensures r in s.seen && r in Do(s, a).seen && s.seen[r] <= Do(s, a).seen[r]
    ensures r in Do(s, a).readers && (Do(s, a).readers[r].Holding? ==> Do(s, a).readers[r].m == Do(s, a).seen[r])
  {
    RunKeeps(run, s);
    hide HistoryOk, DataOk, SyncOk;
  }

  /** A read that begins while no Modify is between its store and the end of its waiting finds the last
      version there is at that time, or a newer one: what a finished Modify did is seen. */
  lemma ReadsAreFresh(run: seq<Action>, s: State, r: Rid)
    requires Reaches(run, s) && Enabled(s, Lock(r)) && !s.writer.Flipped? && !s.writer.Scan?
    ensures Do(s, Lock(r)).readers[r].Locked? && Do(s, Lock(r)).readers[r].floor == |s.log| - 1
  {
    RunKeeps(run, s);
    assert r in s.wrappers;
    hide DataOk;
  }

  /** Between calls of Modify both buffers hold the last version, and fn succeeds the second time if it
      did the first time. */
  lemma BuffersAgree(run: seq<Action>, s: State)
    requires Reaches(run, s)
    ensures |s.data| == 2 && s.log != []
    ensures s.writer.Out? ==> s.data[0] == s.data[1] == Last(s.log)
    ensures s.writer.Second? ==>
              Enabled(s, Finish) && DoFinish(s).returned == Some(true) && DoFinish(s).data == [Last(s.log), Last(s.log)]
    ensures s.writer.First? && s.writer.f(s.writer.was) == None ==>
              Enabled(s, Finish) && DoFinish(s).returned == Some(false)
              && DoFinish(s).data == [Last(s.log), Last(s.log)]
  {
    RunKeeps(run, s);
    IdleAgrees(s.data, s.log, s.writer);
    hide *;
    if s.writer.Second? { SecondAgrees(s); }
    if s.writer.First? && s.writer.f(s.writer.was) == None { FailureAgrees(s); }
  }

  lemma IdleAgrees(data: seq<Value>, log: seq<Value>, w: Writer)
    requires DataOk(data, log, w)
    ensures |data| == 2 && log != [] && (w.Out? ==> data[0] == data[1] == Last(log))
  {}

  lemma SecondAgrees(s: State)
    requires DataOk(s.data, s.log, s.writer) && s.writer.Second?
    ensures Enabled(s, Finish) && DoFinish(s).returned == Some(true) && DoFinish(s).data == [Last(s.log), Last(s.log)]
  {}

  lemma FailureAgrees(s: State)
    requires DataOk(s.data, s.log, s.writer) && s.writer.First? && s.writer.f(s.writer.was) == None
    ensures Enabled(s, Finish) && DoFinish(s).returned == Some(false) && DoFinish(s).data == [Last(s.log), Last(s.log)]
  {}

  /** A Modify call can always go on, or waits for a reader that can. */
  lemma ModifyIsNeverStuck(run: seq<Action>, s: State) returns (a: Action)
    requires Reaches(run, s) && !s.writer.Out?
    ensures Enabled(s, a) && !a.Join? && !a.Lock? && !a.Scribble? && !a.Modify?
    ensures a.Load? || a.Unlock? ==> s.writer.Scan? && s.writer.i < |s.wrappers|
                                     && a.r == s.wrappers[s.writer.i]
  {
    hide Inv;
    RunKeeps(run, s);
    a := NextOfCall(s);
  }

  // ---------------------------------------------------------------- a whole call of Modify

  /** What a call of Modify(f) has done so far, when log and fns were the history before it. */
  ghost predicate During(s: State, f: Fn, log: seq<Value>, fns: seq<Fn>)
    requires log != []
  {
    match f(Last(log))
    case None =>
      && s.log == log && s.fns == fns
      && if s.writer.Out? then s.returned == Some(false) else s.writer.First? && s.writer.f == f
    case Some(v) =>
      match s.writer
      case Out => s.log == log + [v] && s.fns == fns + [f] && s.returned == Some(true)
      case First(g, _, _) => g == f && s.log == log && s.fns == fns
      case Ready(g, _) => g == f && s.log == log && s.fns == fns
      case Flipped(g, _) => g == f && s.log == log + [v] && s.fns == fns + [f]
      case Scan(g, _, _) => g == f && s.log == log + [v] && s.fns == fns + [f]
      case Second(g, _, _) => g == f && s.log == log + [v] && s.fns == fns + [f]
  }

  lemma DuringGoesOn(s: State, a: Action, f: Fn, log: seq<Value>, fns: seq<Fn>)
    requires Inv(s) && Enabled(s, a) && !s.writer.Out? && log != [] && During(s, f, log, fns)
    ensures During(Do(s, a), f, log, fns)
  {
    hide HistoryOk, SyncOk, ReadersOk, WrappersOk;
  }

  /** A call of Modify, from its first step to its return, whatever the readers do meanwhile: if fn
      succeeds on the current version, its result becomes the one new version, in both buffers, and
      the answer is true; if it fails, nothing has changed and the answer is false. */
  lemma ModifyDoes(run0: seq<Action>, s: State, f: Fn, states: seq<State>, run: seq<Action>)
    requires Reaches(run0, s) && Path(states, run) && states[0] == s && run != [] && run[0] == Modify(f)
    requires (forall i :: 0 < i < |run| ==> !states[i].writer.Out?) && Last(states).writer.Out?
    ensures s.log != [] && Last(states).log != []
    ensures var r := Last(states);
            && r.data == [Last(r.log), Last(r.log)]
            && match f(Last(s.log))
               case None => r.returned == Some(false) && r.log == s.log && r.fns == s.fns
               case Some(v) => r.returned == Some(true) && r.log == s.log + [v] && r.fns == s.fns + [f]
  {
    hide Inv, Do, Enabled, During;
    RunKeeps(run0, s);
    LogIsNotEmpty(s);
    CallStays(states, run, f, |run|);
    CallEnds(Last(states), f, s.log, s.fns);
  }

  lemma LogIsNotEmpty(s: State)
    requires Inv(s)
    ensures s.log != []
  {}

  lemma {:induction false} CallStays(states: seq<State>, run: seq<Action>, f: Fn, n: nat)
    requires Path(states, run) && 0 < n <= |run| && run[0] == Modify(f)
    requires Inv(states[0]) && states[0].log != [] && forall i :: 0 < i < |run| ==> !states[i].writer.Out?
    ensures Inv(states[n]) && During(states[n], f, states[0].log, states[0].fns)
  {
    hide Inv, Do, Enabled, During;
    assert Step(states[n - 1], run[n - 1], states[n]);
    if n == 1 {
      StepKeeps(states[0], run[0]);
      CallStarts(states[0], f);
    } else {
      CallStays(states, run, f, n - 1);
      StepKeeps(states[n - 1], run[n - 1]);
      DuringGoesOn(states[n - 1], run[n - 1], f, states[0].log, states[0].fns);
    }
  }

  lemma CallStarts(s: State, f: Fn)
    requires Enabled(s, Modify(f)) && s.log != []
    ensures During(Do(s, Modify(f)), f, s.log, s.fns)
  {}

  lemma CallEnds(s: State, f: Fn, log: seq<Value>, fns: seq<Fn>)
    requires Inv(s) && log != [] && During(s, f, log, fns) && s.writer.Out?
    ensures s.log != [] && s.data == [Last(s.log), Last(s.log)]
    ensures match f(Last(log))
            case None => s.returned == Some(false) && s.log == log && s.fns == fns
            case Some(v) => s.returned == Some(true) && s.log == log + [v] && s.fns == fns + [f]
  {
    IdleAgrees(s.data, s.log, s.writer);
  }

  /** How much is left of a call: the writer's steps, and those of the reader that it waits for. */
  datatype Left = Left(writer: nat, wrappers: nat, reader: nat)

  predicate Less(d: Left, e: Left) {
    || d.writer < e.writer
    || (d.writer == e.writer && d.wrappers < e.wrappers)
    || (d.writer == e.writer && d.wrappers == e.wrappers && d.reader < e.reader)
  }

  function ReaderLeft(r: Reader): nat {
    match r
    case Resting => 0
    case Holding(_, _) => 1
    case Locked(_) => 2
  }

  function LeftOf(s: State): Left {
    match s.writer
    case Out => Left(0, 0, 0)
    case First(_, _, _) => Left(5, 0, 0)
    case Ready(_, _) => Left(4, 0, 0)
    case Flipped(_, _) => Left(3, 0, 0)
    case Scan(_, _, i) =>
      if i < |s.wrappers| && s.wrappers[i] in s.readers then
        Left(2, |s.wrappers| - i, ReaderLeft(s.readers[s.wrappers[i]]))
      else Left(2, 0, 0)
    case Second(_, _, _) => Left(1, 0, 0)
  }

  lemma NextOfCall(s: State) returns (a: Action)
    requires Inv(s) && !s.writer.Out?
    ensures Enabled(s, a) && !a.Join? && !a.Lock? && !a.Scribble? && !a.Modify?
    ensures a.Load? || a.Unlock? ==> s.writer.Scan? && s.writer.i < |s.wrappers|
                                     && a.r == s.wrappers[s.writer.i]
    ensures Less(LeftOf(Do(s, a)), LeftOf(s))
  {
    hide HistoryOk, Passed;
    match s.writer
    case First(_, _, _) => a := Finish;
    case Ready(_, _) => a := Store;
    case Flipped(_, _) => a := LockList;
    case Scan(_, _, i) => a := NextOfScan(s);
    case Second(_, _, _) => a := Finish;
  }

  lemma NextOfScan(s: State) returns (a: Action)
    requires Inv(s) && s.writer.Scan?
    ensures Enabled(s, a) && (a.Load? || a.Unlock? || a.Wait? || a.UnlockList?)
    ensures a.Load? || a.Unlock? ==> s.writer.i < |s.wrappers| && a.r == s.wrappers[s.writer.i]
    ensures Less(LeftOf(Do(s, a)), LeftOf(s))
  {
    hide HistoryOk, Passed;
    var i := s.writer.i;
    if i == |s.wrappers| {
      a := UnlockList;
    } else {
      var r := s.wrappers[i];
      match s.readers[r]
      case Resting => a := Wait;
      case Locked(floor) => a := Load(r, floor);
      case Holding(_, _) => a := Unlock(r);
    }
  }

  /** A continuation of s to s' in which no call begins, no reader joins, and no reader begins a read. */
  ghost predicate Quiet(s: State, states: seq<State>, run: seq<Action>, s': State) {
    && Path(states, run) && states[0] == s && Last(states) == s'
    && forall i :: 0 <= i < |run| ==> !run[i].Modify? && !run[i].Join? && !run[i].Lock? && !run[i].Scribble?
  }

  ghost predicate QuietlyReaches(s: State, s': State) {
    exists states, run :: Quiet(s, states, run, s')
  }

  lemma StepsFirst(s: State, a: Action, s': State)
    requires Enabled(s, a) && !a.Modify? && !a.Join? && !a.Lock? && !a.Scribble? && QuietlyReaches(Do(s, a), s')
    ensures QuietlyReaches(s, s')
  {
    hide Do, Enabled;
    var states, run :| Quiet(Do(s, a), states, run, s');
    var states', run' := [s] + states, [a] + run;
    assert Step(s, a, Do(s, a));
    forall i | 0 <= i < |run'| ensures Step(states'[i], run'[i], states'[i + 1]) {
      assert i > 0 ==> Step(states[i - 1], run[i - 1], states[i]);
    }
    assert Quiet(s, states', run', s');
  }

  /** A call of Modify returns, once the reads that hold it up end. */
  lemma ModifyReturns(run: seq<Action>, s: State)
    requires Reaches(run, s)
    ensures exists s' :: QuietlyReaches(s, s') && s'.writer.Out?
  {
    hide Inv, QuietlyReaches;
    RunKeeps(run, s);
    var s' := GoesToReturn(s);
  }

  lemma {:induction false} GoesToReturn(s: State) returns (s': State)
    requires Inv(s)
    ensures QuietlyReaches(s, s') && s'.writer.Out?
    decreases LeftOf(s).writer, LeftOf(s).wrappers, LeftOf(s).reader
  {
    hide Inv, QuietlyReaches, LeftOf, Do, Enabled;
    if s.writer.Out? {
      StaysThere(s);
      s' := s;
    } else {
      var a := NextOfCall(s);
      StepKeeps(s, a);
      s' := GoesToReturn(Do(s, a));
      StepsFirst(s, a, s');
    }
  }

  lemma StaysThere(s: State)
    ensures QuietlyReaches(s, s)
  {
    assert Quiet(s, [s], [], s);
  }
}
