/**
  What each act on the composed system comes to, and that an unlock leads to the
  next acquisition: through the event, the waker, the scheduler and the poll.
 */
module LockSystemRuns {
  import opened Options
  import opened Registries
  import opened Waiters
  import M = Mutexes
  import MR = MutexRuns
  import P = Protocol
  import opened LockSystem

  // ---- What every act comes to ----

  /** Every live task that has been notified will poll its lock future. */
  ghost predicate AllAttended(s: System) {
    forall t :: HasNotification(s.mx, t) && Live(s.ex, t) ==> Attended(s, t)
  }

  /** The guard is gone, the mutex is free, and if anybody waits, somebody is notified and attended to. */
  lemma UnlockComesTo(s: System, g: nat, w: nat)
    requires Inv(s) && Enabled(s, Unlock(g, w))
    ensures var s' := Apply(s, Unlock(g, w));
      && !s'.mx.locked && g !in s'.mx.guards && s'.mx.futs == s.mx.futs && Stirred(s'.mx.ev)
      && (!s.ex.closed ==> AllAttended(s'))
  {
    hide M.Do, M.Inv, P.Inv, Attended, Stirred, HasNotification, OwnWakers;
    MR.UnlockServes(s.mx, g);
    ApplyKeepsInv(s, Unlock(g, w));
    ClosedStays(s, M.DropGuard(g), w);
    hide OnMutex;
  }

  lemma ClosedStays(s: System, op: M.Op, w: nat)
    requires M.Can(s.mx, op)
    ensures OnMutex(s, op, w).ex.closed == s.ex.closed && OnMutex(s, op, w).mx == M.Do(s.mx, op)
    ensures OnMutex(s, op, w).ex.runner == s.ex.runner && OnMutex(s, op, w).ex.flags == s.ex.flags
  {
    hide M.Do;
  }

  /**
    The running task acquires exactly if the mutex is free and it is not parked
    unnotified; else it parks, with its own waker.
   */
  lemma PollComesTo(s: System, w: nat)
    requires Inv(s) && Enabled(s, PollLock(w))
    ensures var s', t := Apply(s, PollLock(w)), s.ex.runner.task;
      && s'.awaited
      && (if !s.mx.locked && (s.mx.futs[t].Waiting? ==> HasNotification(s.mx, t))
          then s'.mx.locked && t in s'.mx.guards && s'.mx.futs == s.mx.futs[t := Idle] && Stirred(s'.mx.ev)
          else && s'.mx.locked == s.mx.locked && s'.mx.guards == s.mx.guards
               && IsWaiting(s'.mx, t) && s'.mx.futs == s.mx.futs[t := s'.mx.futs[t]]
               && s'.mx.futs[t].id in s'.mx.ev.ledger.parked && s'.mx.ev.ledger.parked[s'.mx.futs[t].id].task == t)
      && (!s.ex.closed ==> AllAttended(s'))
  {
    var t := s.ex.runner.task;
    MR.AcquiresWhen(s.mx, t, t);
    MR.PollComesTo(s.mx, t, t);
    ApplyKeepsInv(s, PollLock(w));
    ClosedStays(s, M.PollLock(t, t), w);
    hide M.Do, M.Inv, P.Inv, Attended, Stirred, OwnWakers;
  }

  /** Making a lock future, and dropping one. */
  lemma FuturesComeAndGo(s: System, a: Act)
    requires Inv(s) && Enabled(s, a)
    ensures var s' := Apply(s, a);
      match a
      case StartLock(kind) =>
        var t := s.ex.runner.task;
        s'.mx == s.mx.(futs := s.mx.futs[t := Idle], kinds := s.mx.kinds[t := kind]) && s'.ex == s.ex
      case ForgetLock(t, _) =>
        && s'.mx.futs == s.mx.futs - {t} && s'.mx.guards == s.mx.guards && s'.mx.locked == s.mx.locked
        && (!s.ex.closed ==> AllAttended(s'))
      case Sched(l) => s'.mx == s.mx && s'.ex == P.Step(s.ex, l)
      case _ => true
  {
    match a
    case StartLock(kind) =>
      MR.FuturesComeAndGo(s.mx, s.ex.runner.task, kind);
      WakeStarts(s, M.NewLock(s.ex.runner.task, kind), 0);
    case ForgetLock(t, w) =>
      MR.FuturesComeAndGo(s.mx, t, M.Borrowed);
      ApplyKeepsInv(s, a);
      ClosedStays(s, M.DropLock(t), w);
      hide M.Do, M.Inv, P.Inv, Attended, OwnWakers;
    case _ =>
  }

  /** Over every run, what a task could do it may do. */
  lemma NothingIsRefused(acts: seq<Act>, t: nat, w: nat, kind: M.Kind)
    requires Legal(Init(), acts) && w !in Run(Init(), acts).ex.wakers
    ensures var s := Run(Init(), acts);
      && (Running(s, t) && t in s.mx.futs ==> Enabled(s, PollLock(w)))
      && (Running(s, t) && t !in s.mx.futs ==> Enabled(s, StartLock(kind)))
      && (t in s.mx.futs && (Running(s, t) || t in s.ex.log.dropped) ==> Enabled(s, ForgetLock(t, w)))
      && (t in s.mx.guards ==> Enabled(s, Unlock(t, w)))
  {
    InitInv();
    RunKeepsInv(Init(), acts);
    hide Run, Legal, Inv, Enabled;
    var s := Run(Init(), acts);
    if t in s.mx.futs {
      FutureCanBeUsed(s, t, w);
    }
    UnlockOrStart(s, t, w, kind);
  }

  lemma FutureCanBeUsed(s: System, t: nat, w: nat)
    requires Inv(s) && t in s.mx.futs && w !in s.ex.wakers
    ensures Running(s, t) ==> Enabled(s, PollLock(w))
    ensures Running(s, t) || t in s.ex.log.dropped ==> Enabled(s, ForgetLock(t, w))
  {
    hide P.Inv, NotifiedAreAttended, OwnWakers, Stirred;
  }

  lemma UnlockOrStart(s: System, t: nat, w: nat, kind: M.Kind)
    requires w !in s.ex.wakers
    ensures Running(s, t) && t !in s.mx.futs ==> Enabled(s, StartLock(kind))
    ensures t in s.mx.guards ==> Enabled(s, Unlock(t, w))
  {
  }

  // ---- Runs, step by step ----

  ghost predicate Reaches(s: System, s': System) {
    exists acts :: Legal(s, acts) && Run(s, acts) == s'
  }

  lemma {:induction false} RunSnoc(s: System, acts: seq<Act>, a: Act)
    requires Legal(s, acts) && Enabled(Run(s, acts), a)
    ensures Legal(s, acts + [a]) && Run(s, acts + [a]) == Apply(Run(s, acts), a)
    decreases |acts|
  {
    hide Apply, Enabled;
    if acts == [] {
      assert (acts + [a])[0] == a && (acts + [a])[1..] == [];
    } else {
      RunSnoc(Apply(s, acts[0]), acts[1..], a);
      assert (acts + [a])[1..] == acts[1..] + [a];
    }
  }

  lemma Begin(s: System)
    ensures Reaches(s, s)
  {
    assert Legal(s, []) && Run(s, []) == s;
  }

  lemma Go(s0: System, s: System, a: Act)
    requires Reaches(s0, s) && Enabled(s, a)
    ensures Reaches(s0, Apply(s, a))
  {
    hide Apply, Enabled;
    var acts :| Legal(s0, acts) && Run(s0, acts) == s;
    RunSnoc(s0, acts, a);
  }

  lemma ReachedInv(s0: System, s: System)
    requires Inv(s0) && Reaches(s0, s)
    ensures Inv(s)
  {
    hide Inv;
    var acts :| Legal(s0, acts) && Run(s0, acts) == s;
    RunKeepsInv(s0, acts);
  }

  // ---- A wake leads to a poll ----

  /** The executor is open and between tasks. */
  predicate Ready(ex: P.State, t: nat) {
    !ex.closed && ex.runner.Between? && t in ex.flags && !P.Finished(ex.flags[t])
  }

  /** Thread `w`, alone inside `schedule`, queues task `t`. */
  lemma WakeQueues(s0: System, s: System, w: nat, t: nat) returns (s': System)
    requires Reaches(s0, s) && Ready(s.ex, t) && s.ex.wakers == map[w := P.Called(t)] && !s.ex.flags[t].queued
    ensures Reaches(s0, s') && s'.mx == s.mx && s'.awaited == s.awaited
    ensures s'.ex == s.ex.(wakers := map[], inbox := s.ex.inbox + [t],
                           flags := s.ex.flags[t := s.ex.flags[t].(queued := true)], log := s'.ex.log)
  {
    hide Reaches;
    s' := PassChecks(s0, s, w, t);
    Go(s0, s', Sched(P.SetQueued(w)));
    s' := Apply(s', Sched(P.SetQueued(w)));
    assert s'.ex.wakers == map[w := P.Claimed(t)];
    Go(s0, s', Sched(P.Push(w)));
    s' := Apply(s', Sched(P.Push(w)));
    assert s'.ex.wakers == map[w := P.Pushed(t)];
    Go(s0, s', Sched(P.NotifyLoop(w)));
    s' := Apply(s', Sched(P.NotifyLoop(w)));
    assert s'.ex.wakers == map[];
  }

  lemma PassChecks(s0: System, s: System, w: nat, t: nat) returns (s': System)
    requires Reaches(s0, s) && Ready(s.ex, t) && s.ex.wakers == map[w := P.Called(t)]
    ensures Reaches(s0, s') && s' == s.(ex := s.ex.(wakers := map[w := P.NotClosed(t)]))
  {
    hide Reaches;
    Go(s0, s, Sched(P.LoadFinished(w)));
    s' := Apply(s, Sched(P.LoadFinished(w)));
    assert s'.ex.wakers == map[w := P.NotFinished(t)];
    Go(s0, s', Sched(P.LoadClosed(w)));
    s' := Apply(s', Sched(P.LoadClosed(w)));
    assert s'.ex.wakers == map[w := P.NotClosed(t)];
  }

  /** The runner takes up the next entry of its batch. */
  lemma TakeUp(s0: System, s: System, t: nat) returns (s': System)
    requires Reaches(s0, s) && Ready(s.ex, t) && s.ex.batch != [] && s.ex.batch[0] == t
    requires t in s.ex.slots && s.ex.slots[t]
    ensures Reaches(s0, s') && s'.mx == s.mx && !s'.awaited
    ensures s'.ex == s.ex.(runner := P.Polling(t), batch := s.ex.batch[1..], slots := s.ex.slots[t := false],
                           flags := s.ex.flags[t := s.ex.flags[t].(queued := false)], log := s'.ex.log)
  {
    hide Reaches;
    Go(s0, s, Sched(P.CheckNext));
    s' := Apply(s, Sched(P.CheckNext));
    Go(s0, s', Sched(P.TakeFuture));
    s' := Apply(s', Sched(P.TakeFuture));
  }

  lemma DrainAll(s0: System, s: System) returns (s': System)
    requires Reaches(s0, s) && s.ex.runner.Between? && s.ex.batch == []
    ensures Reaches(s0, s') && s' == s.(ex := s.ex.(batch := s.ex.inbox, inbox := []))
  {
    hide Reaches;
    Go(s0, s, Sched(P.Drain(|s.ex.inbox|)));
    s' := Apply(s, Sched(P.Drain(|s.ex.inbox|)));
    assert s.ex.inbox[..|s.ex.inbox|] == s.ex.inbox;
  }

  // ---- An unlock leads to the next acquisition ----

  /** In a settled system nobody is notified. */
  lemma NobodyNotified(s: System, t: nat)
    requires Inv(s) && Settled(s) && !s.ex.closed
    ensures !HasNotification(s.mx, t)
  {
    hide P.Inv, M.Inv, Attended;
    if HasNotification(s.mx, t) {
      SettledAttendsNobody(s, t);
    }
  }

  lemma SettledIsReady(s: System, t: nat)
    requires P.Inv(s.ex) && Settled(s) && !s.ex.closed && t in s.mx.futs
    ensures Ready(s.ex, t) && !s.ex.flags[t].queued
  {
    SettledAttendsNobody(s, t);
  }

  lemma OneIsWoken(s: System, g: nat, w: nat, f: nat)
    requires Inv(s) && s.ex.wakers == map[] && Enabled(s, Unlock(g, w))
    requires !HasNotification(s.mx, f) && HasNotification(M.Do(s.mx, M.DropGuard(g)), f)
    ensures Apply(s, Unlock(g, w)) == s.(ex := s.ex.(wakers := map[w := P.Called(f)]), mx := M.Do(s.mx, M.DropGuard(g)))
  {
    hide Inv, M.Do, M.Inv, P.Inv, WokenBetween, HasNotification, StartWake, BeingWoken;
    NewlyNotified(s, M.DropGuard(g), w, f);
    OnlyWake(s.ex, w, WokenBetween(s.mx, M.Do(s.mx, M.DropGuard(g))), f);
  }

  lemma OnlyWake(ex: P.State, w: nat, woken: seq<Waker>, f: nat)
    requires ex.wakers == map[] && BeingWoken(StartWake(ex, w, woken), f)
    ensures StartWake(ex, w, woken) == ex.(wakers := map[w := P.Called(f)])
  {
  }

  /** So whoever an unlock notifies is woken by it. */
  lemma UnlockWakes(s: System, g: nat, w: nat, t: nat) returns (f: nat)
    requires Inv(s) && Settled(s) && !s.ex.closed && Enabled(s, Unlock(g, w)) && IsWaiting(s.mx, t)
    ensures var s' := Apply(s, Unlock(g, w));
      && HasNotification(s'.mx, f) && IsWaiting(s.mx, f) && Ready(s'.ex, f) && !s'.ex.flags[f].queued
      && s'.ex == s.ex.(wakers := map[w := P.Called(f)])
  {
    hide M.Inv, P.Inv, M.Do, HasNotification, Apply, OwnWakers, NotifiedAreAttended;
    MR.UnlockServes(s.mx, g);
    M.DoKeepsInv(s.mx, M.DropGuard(g));
    f := FreeMeansNotified(M.Do(s.mx, M.DropGuard(g)), t);
    NobodyNotified(s, f);
    OneIsWoken(s, g, w, f);
    NotifiedWaits(M.Do(s.mx, M.DropGuard(g)), f);
    SettledIsReady(s, f);
  }

  lemma NotifiedWaits(m: M.Mutex, f: nat)
    requires HasNotification(m, f)
    ensures IsWaiting(m, f)
  {
  }

  /**
    From any settled state of an open executor in which the mutex is held and
    somebody waits, dropping the guard can be followed through to the acquisition:
    the waiter it notifies is woken, queued, polled, and gets the lock.
   */
  lemma UnlockLeadsToAcquire(s: System, g: nat, w: nat, t: nat) returns (s': System, f: nat)
    requires Inv(s) && Settled(s) && !s.ex.closed && Enabled(s, Unlock(g, w)) && IsWaiting(s.mx, t)
    ensures Reaches(Apply(s, Unlock(g, w)), s')
    ensures IsWaiting(s.mx, f) && f in s'.mx.guards && s'.mx.locked && f in s'.mx.futs && s'.mx.futs[f].Idle?
  {
    hide Reaches, Settled, Stirred, Apply, Inv, HasNotification, AllAttended;
    f := UnlockWakes(s, g, w, t);
    UnlockComesTo(s, g, w);
    var s1 := Apply(s, Unlock(g, w));
    ApplyKeepsInv(s, Unlock(g, w));
    SettledIsIdle(s);
    Begin(s1);
    s' := WakeIsPolled(s1, s1, w, f);
    s' := NotifiedAcquires(s1, s', f);
  }

  lemma WakeIsPolled(s0: System, s: System, w: nat, t: nat) returns (s': System)
    requires Inv(s0) && Reaches(s0, s) && Ready(s.ex, t) && !s.ex.flags[t].queued
    requires s.ex.wakers == map[w := P.Called(t)] && s.ex.batch == [] && s.ex.inbox == []
    ensures Reaches(s0, s') && s'.mx == s.mx && s'.ex.runner == P.Polling(t) && s'.ex.wakers == map[]
  {
    hide Reaches, Inv;
    ReachedInv(s0, s);
    InSlot(s, t);
    s' := WakeQueues(s0, s, w, t);
    s' := DrainAll(s0, s');
    s' := TakeUp(s0, s', t);
  }

  lemma NotifiedAcquires(s0: System, s: System, t: nat) returns (s': System)
    requires Inv(s0) && Reaches(s0, s) && s.ex.runner == P.Polling(t) && s.ex.wakers == map[]
    requires !s.mx.locked && HasNotification(s.mx, t)
    ensures Reaches(s0, s') && t in s'.mx.guards && s'.mx.locked && t in s'.mx.futs && s'.mx.futs[t].Idle?
  {
    hide Reaches, Inv, Apply, Stirred, AllAttended, Enabled;
    ReachedInv(s0, s);
    CanPoll(s, t);
    PollComesTo(s, 0);
    Go(s0, s, PollLock(0));
    s' := Apply(s, PollLock(0));
  }

  lemma InSlot(s: System, t: nat)
    requires Inv(s) && Ready(s.ex, t)
    ensures t in s.ex.slots && s.ex.slots[t]
  {
    hide M.Inv;
  }

  lemma SettledIsIdle(s: System)
    requires Settled(s)
    ensures s.ex.batch == [] && s.ex.inbox == [] && s.ex.wakers == map[] && s.ex.runner.Between?
  {
  }

  lemma CanPoll(s: System, t: nat)
    requires Inv(s) && s.ex.runner == P.Polling(t) && HasNotification(s.mx, t) && s.ex.wakers == map[]
    ensures Enabled(s, PollLock(0))
  {
    hide P.Inv, Linked;
  }

  // ---- A run in which all of it happens ----

  /** The runner is between tasks of an open executor with `n` tasks so far, and nothing is in flight. */
  ghost predicate Calm(s: System, n: nat, inbox: seq<nat>, batch: seq<nat>) {
    && Reaches(Init(), s) && s.ex.runner.Between? && !s.ex.closed && s.ex.wakers == map[]
    && s.ex.nextId == n && s.ex.inbox == inbox && s.ex.batch == batch
    && (forall t: nat :: t < n <==> t in s.ex.flags)
    && (forall t: nat :: t < n ==> !P.Finished(s.ex.flags[t]) && t in s.ex.slots && s.ex.slots[t])
  }

  /** A new task is spawned and queued. */
  lemma SpawnOne(s: System, n: nat, inbox: seq<nat>) returns (s': System)
    requires Calm(s, n, inbox, [])
    ensures Calm(s', n + 1, inbox + [n], []) && s'.mx == s.mx
  {
    hide Reaches;
    Go(Init(), s, Sched(P.Spawn(0)));
    s' := Apply(s, Sched(P.Spawn(0)));
    assert s'.ex.wakers == map[0 := P.Called(n)];
    s' := WakeQueues(Init(), s', 0, n);
  }

  /** The next task of the batch makes a lock future, polls it, and returns pending. */
  lemma LockOnce(s: System, n: nat, inbox: seq<nat>, batch: seq<nat>, t: nat) returns (s': System)
    requires Calm(s, n, inbox, [t] + batch) && t < n && t !in s.mx.futs
    requires s.mx.ev.listeners == map[]
    ensures Calm(s', n, inbox, batch)
    ensures if s.mx.locked
            then && s'.mx.locked && s'.mx.guards == s.mx.guards
                 && IsWaiting(s'.mx, t) && s'.mx.futs == s.mx.futs[t := s'.mx.futs[t]]
            else && s'.mx.locked && t in s'.mx.guards
                 && s'.mx.futs == s.mx.futs[t := Idle] && s'.mx.ev.listeners == map[]
  {
    hide Reaches;
    s' := TakeUp(Init(), s, t);
    assert ([t] + batch)[1..] == batch;
    s' := LockAndPoll(s', t);
    Go(Init(), s', Sched(P.PollPending));
    s' := Apply(s', Sched(P.PollPending));
  }

  lemma LockAndPoll(s: System, t: nat) returns (s': System)
    requires Reaches(Init(), s) && s.ex.runner == P.Polling(t) && s.ex.wakers == map[] && t !in s.mx.futs
    requires s.mx.ev.listeners == map[]
    ensures Reaches(Init(), s') && s'.ex == s.ex && s'.awaited
    ensures if s.mx.locked
            then && s'.mx.locked && s'.mx.guards == s.mx.guards
                 && IsWaiting(s'.mx, t) && s'.mx.futs == s.mx.futs[t := s'.mx.futs[t]]
            else && s'.mx.locked && t in s'.mx.guards
                 && s'.mx.futs == s.mx.futs[t := Idle] && s'.mx.ev.listeners == map[]
  {
    hide Reaches, Inv, M.Inv;
    InitInv();
    ReachedInv(Init(), s);
    FuturesComeAndGo(s, StartLock(M.Borrowed));
    Go(Init(), s, StartLock(M.Borrowed));
    s' := Apply(s, StartLock(M.Borrowed));
    hide Apply, M.Do;
    ReachedInv(Init(), s');
    PollComesTo(s', 0);
    NobodyElseWoken(s', 0);
    Go(Init(), s', PollLock(0));
    s' := Apply(s', PollLock(0));
  }

  /** With nobody registered, a poll of a new lock future wakes nobody. */
  lemma NobodyElseWoken(s: System, w: nat)
    requires Enabled(s, PollLock(w)) && s.mx.futs[s.ex.runner.task].Idle? && s.mx.ev.listeners == map[]
    ensures var s' := Apply(s, PollLock(w)); s'.ex == s.ex && (!s.mx.locked ==> s'.mx.ev.listeners == map[])
  {
    var t := s.ex.runner.task;
    PollCases(s.mx.ev, Idle, t, !s.mx.locked);
    NotifyOneIdle(s.mx.ev, ());
    hide Notify, PollWaiter;
    var m := M.Do(s.mx, M.PollLock(t, t));
    assert m.ev.ledger.woken == s.mx.ev.ledger.woken;
    hide M.Do;
    assert WokenBetween(s.mx, m) == [];
  }

  /** Two tasks: the first holds the lock, the second is parked in its lock future, and all is settled. */
  lemma OneHoldsOneWaits() returns (s: System)
    ensures Reaches(Init(), s) && Settled(s) && !s.ex.closed && s.mx.locked
    ensures 0 in s.mx.guards && s.mx.futs.Keys == {0, 1} && s.mx.futs[0].Idle? && IsWaiting(s.mx, 1)
  {
    Begin(Init());
    s := Init();
    assert Calm(s, 0, [], []);
    hide Calm, Reaches, Settled;
    s := SpawnOne(s, 0, []);
    s := SpawnOne(s, 1, [0]);
    s := DrainCalm(s, 2, [] + [0] + [1]);
    assert [] + [0] + [1] == [0] + [1] && [1] == [1] + [];
    s := LockOnce(s, 2, [], [1], 0);
    s := LockOnce(s, 2, [], [], 1);
    CalmIsSettled(s, 2);
  }

  lemma DrainCalm(s: System, n: nat, inbox: seq<nat>) returns (s': System)
    requires Calm(s, n, inbox, [])
    ensures Calm(s', n, [], inbox) && s'.mx == s.mx
  {
    hide Reaches;
    s' := DrainAll(Init(), s);
  }

  lemma CalmIsSettled(s: System, n: nat)
    requires Calm(s, n, [], []) && forall t :: t in s.mx.futs ==> t < n
    ensures Settled(s) && Reaches(Init(), s) && !s.ex.closed
  {
    hide Reaches;
  }

  /** A reachable system in which the holder unlocks, the parked task is woken and polled, and it acquires. */
  lemma LockIsHandedOver() returns (s: System, s': System)
    ensures Reaches(Init(), s) && 0 in s.mx.guards && IsWaiting(s.mx, 1) && Enabled(s, Unlock(0, 0))
    ensures Reaches(Apply(s, Unlock(0, 0)), s') && 1 in s'.mx.guards
  {
    hide Reaches, Inv, Settled, Apply;
    s := OneHoldsOneWaits();
    InitInv();
    ReachedInv(Init(), s);
    SettledIsIdle(s);
    var f;
    s', f := UnlockLeadsToAcquire(s, 0, 0, 1);
    assert f == 1;
  }
}
