/**
  `AsyncMutex`: any number of lock futures and guards of both kinds, over every
  order of polls and drops.
 */
module Mutexes {
  import opened Options
  import opened Registries
  import opened Waiters

  /** `lock()` borrows the mutex, `lock_rc()` owns a reference to it; they lock alike. */
  datatype Kind = Borrowed | Owned

  /** The mutex, the live lock futures and the live guards. A guard goes by the name of the future that got it. */
  datatype Mutex = Mutex(
    locked: bool, ev: Registry<()>,
    futs: map<nat, WaitState>, kinds: map<nat, Kind>, guards: map<nat, Kind>)

  datatype Op =
    | NewLock(f: nat, kind: Kind)
    | PollLock(f: nat, task: nat)
    | DropLock(f: nat)
    | DropGuard(g: nat)

  function NewMutex(): Mutex {
    Mutex(false, NewRegistry(), map[], map[], map[])
  }

  predicate Can(m: Mutex, op: Op) {
    match op
    case NewLock(f, _) => f !in m.futs
    case PollLock(f, _) => f in m.futs && f in m.kinds && (m.futs[f].Waiting? ==> m.futs[f].id in m.ev.listeners)
    case DropLock(f) => f in m.futs
    case DropGuard(g) => g in m.guards
  }

  /** A poll of a lock future: the mutex's part of the outcome. */
  ghost function LockOutcome(locked: bool, ev: Registry<()>, st: WaitState, task: nat): (bool, Outcome<()>)
    requires st.Waiting? ==> st.id in ev.listeners
  {
    var o := PollWaiter(ev, st, task, !locked);
    if o.ready then (true, o.(ev := Notify(o.ev, UpTo(1), ()))) else (locked, o)
  }

  ghost function Do(m: Mutex, op: Op): Mutex
    requires Can(m, op)
  {
    match op
    case NewLock(f, kind) => m.(futs := m.futs[f := Idle], kinds := m.kinds[f := kind])
    case PollLock(f, task) =>
      var (locked, o) := LockOutcome(m.locked, m.ev, m.futs[f], task);
      m.(locked := locked, ev := o.ev, futs := m.futs[f := o.state],
         guards := if o.ready then m.guards[f := m.kinds[f]] else m.guards)
    case DropLock(f) => m.(ev := DropWaiter(m.ev, m.futs[f]), futs := m.futs - {f}, kinds := m.kinds - {f})
    case DropGuard(g) => m.(locked := false, ev := Notify(m.ev, UpTo(1), ()), guards := m.guards - {g})
  }

  /** A free mutex with waiters has notified one of them. */
  ghost predicate Inv(m: Mutex) {
    && Linked(m.ev, m.futs)
    && !m.ev.closed
    && m.kinds.Keys == m.futs.Keys
    && |m.guards| == (if m.locked then 1 else 0)
    && (m.locked || Stirred(m.ev))
  }

  lemma GuardGone(guards: map<nat, Kind>, g: nat)
    requires g in guards
    ensures |guards - {g}| == |guards| - 1
  {
    assert (guards - {g}).Keys == guards.Keys - {g};
  }

  lemma PollKeepsInv(m: Mutex, f: nat, task: nat)
    requires Inv(m) && Can(m, PollLock(f, task))
    ensures Inv(Do(m, PollLock(f, task)))
  {
    hide Linked;
    var o := PollWaiter(m.ev, m.futs[f], task, !m.locked);
    PollKeepsLinked(m.ev, m.futs, f, task, !m.locked);
    if o.ready {
      assert m.guards == map[];
      GrantKeepsLinked(o.ev, m.futs[f := o.state], Missing(o.ev, UpTo(1)), ());
    } else if !m.locked {
      PendingKeepsStirred(m.ev, m.futs[f], task, true);
    }
  }

  lemma DropGuardKeepsInv(m: Mutex, g: nat)
    requires Inv(m) && g in m.guards
    ensures Inv(Do(m, DropGuard(g)))
  {
    hide Linked, Stirred, Notify;
    GuardGone(m.guards, g);
    NotifyOneStirs(m.ev, m.futs, ());
  }

  lemma DropLockKeepsInv(m: Mutex, f: nat)
    requires Inv(m) && f in m.futs
    ensures Inv(Do(m, DropLock(f)))
  {
    hide Linked, Stirred, DropWaiter;
    DropKeepsLinked(m.ev, m.futs, f);
    DropKeepsClosed(m.ev, m.futs[f]);
    if !m.locked {
      DropWaiterKeepsStirred(m.ev, m.futs, m.futs[f]);
    }
  }

  lemma DoKeepsInv(m: Mutex, op: Op)
    requires Inv(m) && Can(m, op)
    ensures Inv(Do(m, op))
  {
    match op
    case NewLock(f, _) => NewKeepsTied(m.ev, m.futs, f);
    case PollLock(f, task) => PollKeepsInv(m, f, task);
    case DropLock(f) => DropLockKeepsInv(m, f);
    case DropGuard(g) => DropGuardKeepsInv(m, g);
  }

  ghost predicate CanRun(m: Mutex, ops: seq<Op>)
    decreases |ops|
  {
    ops == [] || (Can(m, ops[0]) && CanRun(Do(m, ops[0]), ops[1..]))
  }

  ghost function Run(m: Mutex, ops: seq<Op>): Mutex
    requires CanRun(m, ops)
    decreases |ops|
  {
    if ops == [] then m else Run(Do(m, ops[0]), ops[1..])
  }

  lemma {:induction false} RunKeepsInv(m: Mutex, ops: seq<Op>)
    requires Inv(m) && CanRun(m, ops)
    ensures Inv(Run(m, ops))
    decreases |ops|
  {
    if ops != [] {
      DoKeepsInv(m, ops[0]);
      RunKeepsInv(Do(m, ops[0]), ops[1..]);
    }
  }

  lemma NewInv()
    ensures Inv(NewMutex())
  {
    hide Linked;
    NewIsLinked<()>();
  }

  lemma EveryRunKeepsInv(ops: seq<Op>)
    requires CanRun(NewMutex(), ops)
    ensures Inv(Run(NewMutex(), ops))
  {
    hide Inv;
    NewInv();
    RunKeepsInv(NewMutex(), ops);
  }

  /** Mutual exclusion: `locked` says exactly whether the one possible guard is alive. */
  lemma OneGuardAtMost(ops: seq<Op>)
    requires CanRun(NewMutex(), ops)
    ensures |Run(NewMutex(), ops).guards| == (if Run(NewMutex(), ops).locked then 1 else 0)
  {
    EveryRunKeepsInv(ops);
  }

  /**
    Nobody is stranded: when the mutex is free and somebody waits, some waiter
    has been notified and woken since it parked, and whichever task polls it
    next gets the lock.
   */
  lemma FreeMutexWakesSomeone(ops: seq<Op>) returns (f: nat)
    requires CanRun(NewMutex(), ops)
    requires !Run(NewMutex(), ops).locked
    requires exists g :: g in Run(NewMutex(), ops).futs && Run(NewMutex(), ops).futs[g].Waiting?
    ensures var m := Run(NewMutex(), ops);
      && f in m.futs && m.futs[f].Waiting? && m.futs[f].id in m.ev.listeners
      && m.ev.listeners[m.futs[f].id].value.Some?
      && m.futs[f].id in m.ev.ledger.parked
      && m.ev.ledger.parked[m.futs[f].id] in m.ev.ledger.woken
      && (forall task :: Can(m, PollLock(f, task)) && f in Do(m, PollLock(f, task)).guards)
  {
    EveryRunKeepsInv(ops);
    var m := Run(NewMutex(), ops);
    f := SomeoneWasWoken(m.ev, m.futs);
    forall task ensures Can(m, PollLock(f, task)) && f in Do(m, PollLock(f, task)).guards {
      ReadyWhen(m.ev, m.futs[f], task, true);
    }
  }

  /** Who gets the lock: a poll of an idle or notified future while it is free, and nobody else. */
  lemma PollAcquires(m: Mutex, f: nat, task: nat)
    requires Inv(m) && Can(m, PollLock(f, task))
    ensures f in Do(m, PollLock(f, task)).guards && f !in m.guards
       <==> !m.locked && (m.futs[f].Waiting? ==> m.ev.listeners[m.futs[f].id].value.Some?)
  {
    ReadyWhen(m.ev, m.futs[f], task, !m.locked);
    assert !m.locked ==> m.guards == map[];
  }
}
