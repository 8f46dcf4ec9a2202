/**
  Tasks on one executor sharing one `AsyncMutex`: the event, the mutex and the
  scheduler together. A task awaits at most one lock at a time; whoever the mutex
  wakes is woken through its task's waker, by a thread that takes the steps of
  `schedule` among those of all other threads. Tasks can be canceled at any time,
  and guards may be dropped by anyone.
 */
module LockSystem {
  import opened Options
  import opened NatSets
  import opened Registries
  import opened Waiters
  import M = Mutexes
  import P = Protocol

  /**
    Lock futures and guards go by the name of the task that made them. `awaited`
    says whether the task being polled has polled its lock future in this poll.
   */
  datatype System = System(ex: P.State, mx: M.Mutex, awaited: bool)

  function Init(): System {
    System(P.Init(), M.NewMutex(), false)
  }

  datatype Act =
    | Sched(l: P.Label)             // any step of the executor or of a waker thread
    | StartLock(kind: M.Kind)       // the running task makes a lock future
    | PollLock(w: nat)              // the running task polls its lock future
    | ForgetLock(task: nat, w: nat) // a lock future is dropped, by its task or with its task
    | Unlock(g: nat, w: nat)        // a guard is dropped

  predicate Running(s: System, t: nat) {
    s.ex.runner == P.Polling(t)
  }

  predicate IsWaiting(m: M.Mutex, t: nat) {
    t in m.futs && m.futs[t].Waiting?
  }

  /** A task that returns pending while it waits for the lock has polled its lock future. */
  predicate Awaits(s: System) {
    (s.ex.runner.Polling? && Live(s.ex, s.ex.runner.task) && IsWaiting(s.mx, s.ex.runner.task)) ==> s.awaited
  }

  predicate Enabled(s: System, a: Act) {
    match a
    case Sched(l) => P.Enabled(s.ex, l) && (l.PollPending? ==> Awaits(s))
    case StartLock(kind) => s.ex.runner.Polling? && M.Can(s.mx, M.NewLock(s.ex.runner.task, kind))
    case PollLock(w) =>
      s.ex.runner.Polling? && M.Can(s.mx, M.PollLock(s.ex.runner.task, s.ex.runner.task)) && w !in s.ex.wakers
    case ForgetLock(t, w) =>
      M.Can(s.mx, M.DropLock(t)) && w !in s.ex.wakers && (Running(s, t) || t in s.ex.log.dropped)
    case Unlock(g, w) => M.Can(s.mx, M.DropGuard(g)) && w !in s.ex.wakers
  }

  /** The wakers woken between two states of the mutex's event. */
  function WokenBetween(m: M.Mutex, m': M.Mutex): seq<Waker> {
    var before, after := m.ev.ledger.woken, m'.ev.ledger.woken;
    if |before| <= |after| then after[|before|..] else []
  }

  /** Thread `w` starts calling the waker just woken, if there is one. */
  function StartWake(ex: P.State, w: nat, woken: seq<Waker>): P.State {
    if woken == [] then ex else ex.(wakers := ex.wakers[w := P.Called(woken[0].task)])
  }

  ghost function OnMutex(s: System, op: M.Op, w: nat): System
    requires M.Can(s.mx, op)
  {
    var m := M.Do(s.mx, op);
    s.(mx := m, ex := StartWake(s.ex, w, WokenBetween(s.mx, m)))
  }

  ghost function Apply(s: System, a: Act): System
    requires Enabled(s, a)
  {
    match a
    case Sched(l) => s.(ex := P.Step(s.ex, l), awaited := if l.TakeFuture? then false else s.awaited)
    case StartLock(kind) => OnMutex(s, M.NewLock(s.ex.runner.task, kind), 0)
    case PollLock(w) => OnMutex(s, M.PollLock(s.ex.runner.task, s.ex.runner.task), w).(awaited := true)
    case ForgetLock(t, w) => OnMutex(s, M.DropLock(t), w)
    case Unlock(g, w) => OnMutex(s, M.DropGuard(g), w)
  }

  // ---- The invariant ----

  /** Some thread is calling the waker of `t` and has not yet set QUEUED. */
  ghost predicate BeingWoken(ex: P.State, t: nat) {
    exists w :: w in ex.wakers && ex.wakers[w].task == t
      && (ex.wakers[w].Called? || ex.wakers[w].NotFinished? || ex.wakers[w].NotClosed?)
  }

  /** Task `t` will poll its lock future again without any further wake. */
  ghost predicate Attended(s: System, t: nat) {
    || BeingWoken(s.ex, t)
    || (t in s.ex.flags && s.ex.flags[t].queued)
    || (Running(s, t) && !s.awaited)
  }

  predicate Live(ex: P.State, t: nat) {
    t in ex.flags && !P.Finished(ex.flags[t])
  }

  predicate HasNotification(m: M.Mutex, t: nat) {
    t in m.futs && m.futs[t].Waiting? && m.futs[t].id in m.ev.listeners && m.ev.listeners[m.futs[t].id].value.Some?
  }

  /** A live task whose lock future has been notified is on its way to being polled. */
  ghost predicate NotifiedAreAttended(s: System) {
    !s.ex.closed ==> forall t :: HasNotification(s.mx, t) && Live(s.ex, t) ==> Attended(s, t)
  }

  /** Lock futures are parked with the waker of their own task. */
  predicate OwnWakers(s: System) {
    && (forall t :: t in s.mx.futs ==> t in s.ex.flags)
    && (forall t :: t in s.mx.futs && s.mx.futs[t].Waiting? ==>
          s.mx.futs[t].id in s.mx.ev.ledger.parked && s.mx.ev.ledger.parked[s.mx.futs[t].id].task == t)
  }

  ghost predicate Inv(s: System) {
    P.Inv(s.ex) && M.Inv(s.mx) && OwnWakers(s) && NotifiedAreAttended(s)
  }

  // ---- What one mutex operation wakes ----

  lemma {:induction false} WakersAtMost<T>(ls: map<nat, Entry<T>>, g: set<nat>)
    requires g <= ls.Keys
    ensures |WakersOf(ls, g)| <= |g|
    decreases |g|
  {
    if g != {} {
      WakersAtMost(ls, g - {Max(g)});
    }
  }

  ghost predicate IsParked<T>(r: Registry<T>, w: Waker) {
    exists id :: id in r.ledger.parked && r.ledger.parked[id] == w
  }

  /** Between `r` and `s` nothing was woken, or one waker that was parked in `r`. */
  ghost predicate WakesAtMostOne<T>(r: Registry<T>, s: Registry<T>) {
    || s.ledger.woken == r.ledger.woken
    || (exists w :: s.ledger.woken == r.ledger.woken + [w] && IsParked(r, w))
  }

  /** Listeners in both keep the waker of their last pending poll. */
  ghost predicate SameParked<T>(r: Registry<T>, s: Registry<T>) {
    forall id :: id in s.ledger.parked ==> id in r.ledger.parked && s.ledger.parked[id] == r.ledger.parked[id]
  }

  lemma AwardOneWakes<T>(r: Registry<T>, k: nat, v: T)
    requires k <= 1 && StoredFresh(r)
    ensures WakesAtMostOne(r, Award(r, k, v)) && Award(r, k, v).ledger.parked == r.ledger.parked
  {
    var g := Earliest(Unnotified(r.listeners), k);
    var added := WakersOf(r.listeners, g);
    WakersAtMost(r.listeners, g);
    if added != [] {
      assert added == [added[0]];
      WakersOfMembers(r.listeners, g, added[0]);
      assert IsParked(r, added[0]);
    }
  }

  lemma RemoveKeepsStored<T>(r: Registry<T>, id: nat)
    requires StoredFresh(r) && id in r.listeners
    ensures StoredFresh(Remove(r, id))
  {
  }

  lemma DropWakes<T>(r: Registry<T>, id: nat)
    requires StoredFresh(r)
    ensures WakesAtMostOne(r, Drop(r, id)) && SameParked(r, Drop(r, id))
  {
    if id in r.listeners && r.listeners[id].value.Some? && r.notified > 0 {
      RemoveKeepsStored(r, id);
      var q := Remove(r, id).(notified := r.notified - 1);
      AwardOneWakes(q, 1, r.listeners[id].value.value);
      WakesFrom(r, q, Drop(r, id));
    }
  }

  /** A first stage that only unparks does not change who can be woken. */
  lemma WakesFrom<T>(r: Registry<T>, q: Registry<T>, s: Registry<T>)
    requires SameParked(r, q) && q.ledger.woken == r.ledger.woken && WakesAtMostOne(q, s)
    ensures WakesAtMostOne(r, s)
  {
    if s.ledger.woken != r.ledger.woken {
      var w :| s.ledger.woken == q.ledger.woken + [w] && IsParked(q, w);
      var id :| id in q.ledger.parked && q.ledger.parked[id] == w;
      assert r.ledger.parked[id] == w;
      assert IsParked(r, w);
    }
  }

  /** A parked listener that got notified had its waker woken just then. */
  lemma NotifiedWasWoken<T>(r: Registry<T>, s: Registry<T>, id: nat)
    requires Sound(r) && Sound(s) && !r.closed && !s.closed && WakesAtMostOne(r, s)
    requires id in r.ledger.parked && id in s.ledger.parked && r.ledger.parked[id] == s.ledger.parked[id]
    requires id in r.listeners && r.listeners[id].value.None? && id in s.listeners && s.listeners[id].value.Some?
    ensures |s.ledger.woken| == |r.ledger.woken| + 1 && s.ledger.woken[|r.ledger.woken|] == r.ledger.parked[id]
  {
    var w := r.ledger.parked[id];
    assert r.listeners[id].waker == Some(w);
    assert Unspent(r.ledger.woken, w);
    assert w in s.ledger.woken && w !in r.ledger.woken;
  }

  lemma NotifyOneWakes(r: Registry<()>)
    requires StoredFresh(r)
    ensures WakesAtMostOne(r, Notify(r, UpTo(1), ())) && Notify(r, UpTo(1), ()).ledger.parked == r.ledger.parked
  {
    AwardOneWakes(r, Missing(r, UpTo(1)), ());
  }

  lemma FinishWakes<T>(r: Registry<T>, id: nat)
    requires Sound(r) && id in r.listeners && r.listeners[id].value.Some?
    ensures StoredFresh(Finish(r, id)) && SameParked(r, Finish(r, id)) && Finish(r, id).ledger.woken == r.ledger.woken
  {
  }

  /** `s` treats every future but `f` as `r` does. */
  ghost predicate OthersParked(r: Registry<()>, s: Registry<()>, own: WaitState) {
    forall id :: id in s.ledger.parked && own != Waiting(id) ==>
      id in r.ledger.parked && s.ledger.parked[id] == r.ledger.parked[id]
  }

  lemma PollWakes(locked: bool, r: Registry<()>, st: WaitState, task: nat)
    requires Valid(r) && (st.Waiting? ==> st.id in r.listeners)
    ensures var o := M.LockOutcome(locked, r, st, task).1;
      && WakesAtMostOne(r, o.ev)
      && OthersParked(r, o.ev, o.state)
      && (o.state.Waiting? ==>
            && o.state.id in o.ev.ledger.parked && o.ev.ledger.parked[o.state.id].task == task
            && o.state.id in o.ev.listeners && o.ev.listeners[o.state.id].value.None?)
  {
    PollCases(r, st, task, !locked);
    var o := PollWaiter(r, st, task, !locked);
    if o.ready {
      if st.Waiting? {
        FinishWakes(r, st.id);
      }
      NotifyOneWakes(o.ev);
      hide Notify, Sound;
      WakesFrom(r, o.ev, Notify(o.ev, UpTo(1), ()));
    }
  }

  lemma NothingWoken<T>(r: Registry<T>)
    ensures WakesAtMostOne(r, r)
  {
  }

  /** An operation wakes at most one parked waker. */
  lemma DoWakes(m: M.Mutex, op: M.Op)
    requires M.Inv(m) && M.Can(m, op)
    ensures WakesAtMostOne(m.ev, M.Do(m, op).ev)
    ensures !op.PollLock? ==> SameParked(m.ev, M.Do(m, op).ev)
  {
    assert StoredFresh(m.ev) && Valid(m.ev);
    assert forall f :: f in m.futs && m.futs[f].Waiting? ==> m.futs[f].id in m.ev.listeners;
    hide M.Inv, Notify, Drop, Linked, Valid, WakesAtMostOne, M.LockOutcome;
    match op
    case NewLock(f, kind) => NothingWoken(m.ev);
    case PollLock(f, task) => PollWakes(m.locked, m.ev, m.futs[f], task);
    case DropLock(f) =>
      if m.futs[f].Waiting? {
        DropWakes(m.ev, m.futs[f].id);
      } else {
        NothingWoken(m.ev);
      }
    case DropGuard(g) => NotifyOneWakes(m.ev);
  }

  /** Futures that are not polled keep their state. */
  lemma OthersStay(m: M.Mutex, op: M.Op, f: nat)
    requires M.Can(m, op) && f in M.Do(m, op).futs && !(op.PollLock? && op.f == f) && M.Do(m, op).futs[f].Waiting?
    ensures f in m.futs && m.futs[f] == M.Do(m, op).futs[f]
  {
    hide M.LockOutcome, Notify, Drop;
  }

  // ---- Every act keeps the invariant ----

  lemma StartWakeIsAStep(ex: P.State, w: nat, woken: seq<Waker>)
    requires P.Inv(ex) && w !in ex.wakers && (woken != [] ==> woken[0].task in ex.flags)
    ensures P.Inv(StartWake(ex, w, woken))
  {
    if woken != [] {
      P.StepKeepsInv(ex, P.CallWake(w, woken[0].task));
    }
  }

  /** Wakers of the shared event belong to tasks of this executor. */
  lemma WokenAreKnown(s: System, m: M.Mutex)
    requires OwnWakers(s) && Linked(s.mx.ev, s.mx.futs) && WakesAtMostOne(s.mx.ev, m.ev)
    ensures WokenBetween(s.mx, m) != [] ==> WokenBetween(s.mx, m)[0].task in s.ex.flags
  {
    var r := s.mx.ev;
    if m.ev.ledger.woken != r.ledger.woken {
      var w :| m.ev.ledger.woken == r.ledger.woken + [w] && IsParked(r, w);
      var id :| id in r.ledger.parked && r.ledger.parked[id] == w;
      assert Holds(s.mx.futs, id);
    }
  }

  /** A waiting future that an operation does not poll keeps its parked waker. */
  lemma ParkedStays(m: M.Mutex, op: M.Op, t: nat)
    requires M.Inv(m) && M.Can(m, op) && !(op.PollLock? && op.f == t)
    requires t in M.Do(m, op).futs && M.Do(m, op).futs[t].Waiting?
    ensures t in m.futs && m.futs[t] == M.Do(m, op).futs[t]
    ensures var id := M.Do(m, op).futs[t].id;
      && id in m.ev.ledger.parked && id in M.Do(m, op).ev.ledger.parked
      && M.Do(m, op).ev.ledger.parked[id] == m.ev.ledger.parked[id]
  {
    M.DoKeepsInv(m, op);
    OthersStay(m, op, t);
    DoWakes(m, op);
    assert Tied(m.ev, m.futs) && Tied(M.Do(m, op).ev, M.Do(m, op).futs);
    if op.PollLock? {
      assert Valid(m.ev);
      hide M.Inv, Linked, Valid, M.LockOutcome;
      PollWakes(m.locked, m.ev, m.futs[op.f], op.task);
    }
  }

  lemma PolledParks(m: M.Mutex, f: nat, task: nat)
    requires M.Inv(m) && M.Can(m, M.PollLock(f, task))
    ensures var m' := M.Do(m, M.PollLock(f, task));
      m'.futs[f].Waiting? ==>
        && m'.futs[f].id in m'.ev.ledger.parked && m'.ev.ledger.parked[m'.futs[f].id].task == task
        && !HasNotification(m', f)
  {
    assert Valid(m.ev);
    hide M.Inv, Linked, Valid, M.LockOutcome;
    PollWakes(m.locked, m.ev, m.futs[f], task);
  }

  /** The acts on the mutex come from tasks of the executor. */
  predicate ByTask(s: System, op: M.Op) {
    match op
    case NewLock(f, _) => f in s.ex.flags
    case PollLock(f, task) => f == task && Running(s, f)
    case _ => true
  }

  lemma FuturesOfTasks(s: System, op: M.Op)
    requires OwnWakers(s) && M.Can(s.mx, op) && ByTask(s, op)
    ensures forall t :: t in M.Do(s.mx, op).futs ==> t in s.ex.flags
  {
  }

  lemma OwnWakerOf(s: System, op: M.Op, t: nat)
    requires OwnWakers(s) && M.Inv(s.mx) && M.Can(s.mx, op) && ByTask(s, op)
    requires t in M.Do(s.mx, op).futs && M.Do(s.mx, op).futs[t].Waiting?
    ensures var m' := M.Do(s.mx, op);
      m'.futs[t].id in m'.ev.ledger.parked && m'.ev.ledger.parked[m'.futs[t].id].task == t
  {
    hide M.Do, M.Inv;
    if op.PollLock? && op.f == t {
      PolledParks(s.mx, t, t);
    } else {
      ParkedStays(s.mx, op, t);
    }
  }

  lemma MutexKeepsOwnWakers(s: System, op: M.Op, w: nat)
    requires OwnWakers(s) && M.Inv(s.mx) && M.Can(s.mx, op) && ByTask(s, op)
    ensures OwnWakers(OnMutex(s, op, w))
  {
    hide M.Do, M.Inv;
    FuturesOfTasks(s, op);
    forall t | t in M.Do(s.mx, op).futs && M.Do(s.mx, op).futs[t].Waiting?
      ensures var m' := M.Do(s.mx, op);
        m'.futs[t].id in m'.ev.ledger.parked && m'.ev.ledger.parked[m'.futs[t].id].task == t
    {
      OwnWakerOf(s, op, t);
    }
  }

  /** Whoever an operation notifies is being woken afterwards. */
  lemma NewlyNotified(s: System, op: M.Op, w: nat, t: nat)
    requires Inv(s) && M.Can(s.mx, op) && ByTask(s, op)
    requires HasNotification(M.Do(s.mx, op), t) && !HasNotification(s.mx, t)
    ensures BeingWoken(StartWake(s.ex, w, WokenBetween(s.mx, M.Do(s.mx, op))), t)
  {
    var m, m' := s.mx, M.Do(s.mx, op);
    M.DoKeepsInv(m, op);
    DoWakes(m, op);
    if op.PollLock? && op.f == t {
      PolledParks(m, t, t);
    } else {
      ParkedStays(m, op, t);
      assert Sound(m.ev) && Sound(m'.ev) && Tied(m.ev, m.futs);
      hide M.Do, M.Inv, Linked, Valid, Sound, P.Inv;
      NotifiedWasWoken(m.ev, m'.ev, m'.futs[t].id);
      assert WokenBetween(m, m')[0].task == t;
      assert StartWake(s.ex, w, WokenBetween(m, m')).wakers[w] == P.Called(t);
    }
  }

  lemma StillAttended(s: System, w: nat, woken: seq<Waker>, t: nat)
    requires Attended(s, t) && (woken != [] ==> w !in s.ex.wakers)
    ensures Attended(s.(ex := StartWake(s.ex, w, woken)), t)
  {
    if BeingWoken(s.ex, t) {
      var v :| v in s.ex.wakers && s.ex.wakers[v].task == t
        && (s.ex.wakers[v].Called? || s.ex.wakers[v].NotFinished? || s.ex.wakers[v].NotClosed?);
      assert StartWake(s.ex, w, woken).wakers[v] == s.ex.wakers[v];
    }
  }

  lemma MutexKeepsAttended(s: System, op: M.Op, w: nat)
    requires Inv(s) && M.Can(s.mx, op) && ByTask(s, op)
    requires WokenBetween(s.mx, M.Do(s.mx, op)) != [] ==> w !in s.ex.wakers
    ensures NotifiedAreAttended(OnMutex(s, op, w).(awaited := s.awaited || op.PollLock?))
  {
    var m, m' := s.mx, M.Do(s.mx, op);
    var woken := WokenBetween(m, m');
    var s' := OnMutex(s, op, w).(awaited := s.awaited || op.PollLock?);
    if !s'.ex.closed {
      forall t | HasNotification(m', t) && Live(s'.ex, t) ensures Attended(s', t) {
        if op.PollLock? && op.f == t {
          PolledParks(m, t, t);
        } else if HasNotification(m, t) {
          assert Attended(s, t);
          StillAttended(s, w, woken, t);
        } else {
          NewlyNotified(s, op, w, t);
        }
      }
    }
  }

  lemma WakeStarts(s: System, op: M.Op, w: nat)
    requires Inv(s) && M.Can(s.mx, op) && (w !in s.ex.wakers || op.NewLock?)
    ensures P.Inv(StartWake(s.ex, w, WokenBetween(s.mx, M.Do(s.mx, op))))
    ensures op.NewLock? ==> WokenBetween(s.mx, M.Do(s.mx, op)) == []
  {
    DoWakes(s.mx, op);
    WokenAreKnown(s, M.Do(s.mx, op));
    hide M.Inv, P.Inv;
    if op.NewLock? {
      assert M.Do(s.mx, op).ev == s.mx.ev;
    } else {
      hide M.Do, WokenBetween;
      StartWakeIsAStep(s.ex, w, WokenBetween(s.mx, M.Do(s.mx, op)));
    }
  }

  lemma MutexKeepsInv(s: System, op: M.Op, w: nat)
    requires Inv(s) && M.Can(s.mx, op) && ByTask(s, op) && (w !in s.ex.wakers || op.NewLock?)
    ensures Inv(OnMutex(s, op, w).(awaited := s.awaited || op.PollLock?))
  {
    hide M.Do, M.Inv, P.Inv, OwnWakers, NotifiedAreAttended, StartWake, WokenBetween;
    M.DoKeepsInv(s.mx, op);
    WakeStarts(s, op, w);
    MutexKeepsOwnWakers(s, op, w);
    MutexKeepsAttended(s, op, w);
    OwnWakersIgnoreAwaited(OnMutex(s, op, w), s.awaited || op.PollLock?);
  }

  lemma OwnWakersIgnoreAwaited(s: System, awaited: bool)
    requires OwnWakers(s)
    ensures OwnWakers(s.(awaited := awaited))
  {
  }

  // ---- Executor steps ----

  lemma SchedKeepsOwnWakers(s: System, l: P.Label)
    requires P.Known(s.ex) && OwnWakers(s) && Enabled(s, Sched(l))
    ensures OwnWakers(Apply(s, Sched(l)))
  {
    forall t | t in s.mx.futs ensures t in P.Step(s.ex, l).flags {
      assert t in s.ex.flags;
    }
  }

  /** A thread on its way to set QUEUED for an unfinished task of an open executor gets there. */
  lemma WokenStays(ex: P.State, l: P.Label, t: nat)
    requires P.Known(ex) && P.Enabled(ex, l) && BeingWoken(ex, t)
    requires Live(ex, t) && !ex.closed
    ensures BeingWoken(P.Step(ex, l), t) || P.Step(ex, l).flags[t].queued
  {
    var w :| w in ex.wakers && ex.wakers[w].task == t
      && (ex.wakers[w].Called? || ex.wakers[w].NotFinished? || ex.wakers[w].NotClosed?);
    var ex' := P.Step(ex, l);
    if P.OfWaker(l) && l.w == w {
      assert l.SetQueued? || ex'.wakers[w].task == t;
    } else {
      assert ex'.wakers[w] == ex.wakers[w];
    }
  }

  lemma SchedKeepsAttended(s: System, l: P.Label, t: nat)
    requires P.Known(s.ex) && P.SlotsFit(s.ex) && Enabled(s, Sched(l))
    requires Attended(s, t) && Live(s.ex, t) && !s.ex.closed
    requires HasNotification(s.mx, t) && Live(P.Step(s.ex, l), t)
    ensures Attended(Apply(s, Sched(l)), t)
  {
    hide P.Known, P.SlotsFit, P.Step;
    if BeingWoken(s.ex, t) {
      WokenStays(s.ex, l, t);
    } else if s.ex.flags[t].queued {
      P.QueuedUntilTaken(s.ex, l, t);
    } else {
      StillRunning(s.ex, l, t);
    }
  }

  /** A poll of an unfinished task ends only by returning pending. */
  lemma StillRunning(ex: P.State, l: P.Label, t: nat)
    requires P.Enabled(ex, l) && ex.runner == P.Polling(t) && t in ex.flags && Live(P.Step(ex, l), t)
    ensures P.Step(ex, l).runner == ex.runner || l.PollPending?
    ensures !l.TakeFuture?
  {
  }

  lemma SchedKeepsInv(s: System, l: P.Label)
    requires Inv(s) && Enabled(s, Sched(l))
    ensures Inv(Apply(s, Sched(l)))
  {
    hide M.Inv;
    P.StepKeepsInv(s.ex, l);
    SchedKeepsOwnWakers(s, l);
    assert P.Known(s.ex) && P.SlotsFit(s.ex);
    hide P.Inv, P.Step, P.Known, P.SlotsFit, OwnWakers;
    var s' := Apply(s, Sched(l));
    if !s'.ex.closed {
      forall t | HasNotification(s'.mx, t) && Live(s'.ex, t) ensures Attended(s', t) {
        WasLive(s, l, t);
        SchedKeepsAttended(s, l, t);
      }
    }
  }

  lemma WasLive(s: System, l: P.Label, t: nat)
    requires P.Inv(s.ex) && OwnWakers(s) && Enabled(s, Sched(l)) && t in s.mx.futs
    requires Live(P.Step(s.ex, l), t) && !P.Step(s.ex, l).closed
    ensures Live(s.ex, t) && !s.ex.closed
  {
    assert t in s.ex.flags && t < s.ex.nextId;
    hide P.Inv, OwnWakers, P.Step, P.Enabled;
    P.StepFlagsStay(s.ex, l, t);
    P.StaysClosed(s.ex, l);
  }

  lemma ApplyKeepsInv(s: System, a: Act)
    requires Inv(s) && Enabled(s, a)
    ensures Inv(Apply(s, a))
  {
    hide M.Do, M.Inv, P.Step, NotifiedAreAttended, StartWake, WokenBetween;
    match a
    case Sched(l) => SchedKeepsInv(s, l);
    case StartLock(kind) => MutexKeepsInv(s, M.NewLock(s.ex.runner.task, kind), 0);
    case PollLock(w) => MutexKeepsInv(s, M.PollLock(s.ex.runner.task, s.ex.runner.task), w);
    case ForgetLock(t, w) => MutexKeepsInv(s, M.DropLock(t), w);
    case Unlock(g, w) => MutexKeepsInv(s, M.DropGuard(g), w);
  }

  // ---- Runs ----

  ghost predicate Legal(s: System, acts: seq<Act>)
    decreases |acts|
  {
    acts == [] || (Enabled(s, acts[0]) && Legal(Apply(s, acts[0]), acts[1..]))
  }

  ghost function Run(s: System, acts: seq<Act>): System
    requires Legal(s, acts)
    decreases |acts|
  {
    if acts == [] then s else Run(Apply(s, acts[0]), acts[1..])
  }

  lemma {:induction false} RunKeepsInv(s: System, acts: seq<Act>)
    requires Inv(s) && Legal(s, acts)
    ensures Inv(Run(s, acts))
    decreases |acts|
  {
    hide Inv, Apply, Enabled;
    if acts != [] {
      ApplyKeepsInv(s, acts[0]);
      RunKeepsInv(Apply(s, acts[0]), acts[1..]);
    }
  }

  /** Nothing is queued, in a batch, in flight, being polled, or in the middle of being dropped. */
  predicate Settled(s: System) {
    && s.ex.runner.Between? && s.ex.batch == [] && s.ex.inbox == [] && s.ex.wakers == map[]
    && (forall t :: t in s.mx.futs ==> Live(s.ex, t))
  }

  lemma FreeMeansNotified(m: M.Mutex, t: nat) returns (f: nat)
    requires M.Inv(m) && !m.locked && t in m.futs && m.futs[t].Waiting?
    ensures HasNotification(m, f)
  {
    assert m.futs[t].id in m.ev.listeners;
    f := SomeoneWasWoken(m.ev, m.futs);
  }

  lemma SettledAttendsNobody(s: System, t: nat)
    requires P.Inv(s.ex) && Settled(s) && !s.ex.closed && t in s.mx.futs
    ensures !Attended(s, t)
  {
  }

  lemma SettledHasNoWaiter(s: System)
    requires Inv(s) && Settled(s) && !s.ex.closed && !s.mx.locked
    ensures forall t :: t in s.mx.futs ==> s.mx.futs[t].Idle?
  {
    hide P.Inv, M.Inv, Attended;
    forall t | t in s.mx.futs ensures s.mx.futs[t].Idle? {
      if s.mx.futs[t].Waiting? {
        var f := FreeMeansNotified(s.mx, t);
        SettledAttendsNobody(s, f);
      }
    }
  }

  /**
    The whole system: however the tasks, the cancellations, the guard drops and
    the waker threads are interleaved, when everything has settled on an open
    executor and the mutex is free, no task is parked in a lock future.
   */
  lemma NobodyStranded(acts: seq<Act>)
    requires Legal(Init(), acts)
    ensures var s := Run(Init(), acts);
      Settled(s) && !s.ex.closed && !s.mx.locked ==>
        forall t :: Live(s.ex, t) ==> t !in s.mx.futs || s.mx.futs[t].Idle?
  {
    InitInv();
    RunKeepsInv(Init(), acts);
    var s := Run(Init(), acts);
    hide Inv, Run, Legal;
    if Settled(s) && !s.ex.closed && !s.mx.locked {
      SettledHasNoWaiter(s);
    }
  }

  lemma InitInv()
    ensures Inv(Init())
  {
    hide P.Inv, M.Inv;
    P.InitInv();
    M.NewInv();
  }
}
