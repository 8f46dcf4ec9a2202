/** How far the promise to waiters goes: it does not hold while readers have the lock. */
module RwLockRuns {
  import opened Options
  import opened NatSets
  import opened Registries
  import opened Waiters
  import opened RwLocks

  // ---- What every operation comes to ----

  ghost predicate Acquires(m: RwLock, f: nat, g: nat, task: nat)
    requires Can(m, PollFuture(f, g, task))
  {
    g in Do(m, PollFuture(f, g, task)).guards
  }

  /**
    A poll acquires exactly if what it wants is free and it is not parked
    unnotified. It then holds what it wanted, and has passed the notification on:
    if anybody waits, somebody is notified.
   */
  lemma AcquiresExactly(m: RwLock, f: nat, g: nat, task: nat)
    requires Inv(m) && Can(m, PollFuture(f, g, task))
    ensures Acquires(m, f, g, task)
       <==> && Free(m.readers, m.locked, m.wants[f])
            && (m.futs[f].Waiting? ==> m.ev.listeners[m.futs[f].id].value.Some?)
    ensures var m' := Do(m, PollFuture(f, g, task));
      if Acquires(m, f, g, task)
      then && m'.guards == m.guards[g := m.wants[f]] && m'.futs == m.futs[f := Idle] && Stirred(m'.ev)
      else m'.guards == m.guards && m'.readers == m.readers && m'.locked == m.locked && m'.futs[f].Waiting?
  {
    hide Stirred, Linked, LockOutcome;
    OutcomeExactly(m, f, task);
  }

  lemma OutcomeExactly(m: RwLock, f: nat, task: nat)
    requires Linked(m.ev, m.futs) && f in m.futs && f in m.wants
    requires m.futs[f].Waiting? ==> m.futs[f].id in m.ev.listeners
    ensures var res := LockOutcome(m.readers, m.locked, m.ev, m.futs[f], m.wants[f], task);
      && (res.outcome.ready <==> && Free(m.readers, m.locked, m.wants[f])
                                 && (m.futs[f].Waiting? ==> m.ev.listeners[m.futs[f].id].value.Some?))
      && (res.outcome.ready <==> res.outcome.state.Idle?)
      && (if res.outcome.ready then Stirred(res.outcome.ev) else res.readers == m.readers && res.locked == m.locked)
  {
    hide Stirred, Linked, PollWaiter, Notify;
    var free := Free(m.readers, m.locked, m.wants[f]);
    var o := PollWaiter(m.ev, m.futs[f], task, free);
    ReadyWhen(m.ev, m.futs[f], task, free);
    PollKeepsLinked(m.ev, m.futs, f, task, free);
    NotifyOneStirs(o.ev, m.futs[f := o.state], ());
  }

  /** A dropped guard is gone, and if anybody waits, somebody is notified. */
  lemma GuardDropServes(m: RwLock, g: nat)
    requires Inv(m) && Can(m, DropGuard(g))
    ensures var m' := Do(m, DropGuard(g));
      && m'.guards == m.guards - {g} && m'.futs == m.futs && Stirred(m'.ev)
      && m'.readers == m.readers - (if m.guards[g].Read? then 1 else 0)
      && m'.locked == (m.locked && m.guards[g].Read?)
  {
    hide Stirred, Linked, Notify;
    NotifyOneStirs(m.ev, m.futs, ());
  }

  /** Over every run whatever is there can be used: futures polled and dropped, guards dropped. */
  lemma NothingIsRefused(ops: seq<Op>, f: nat, g: nat, task: nat, want: Want)
    requires CanRun(NewRwLock(), ops)
    ensures var m := Run(NewRwLock(), ops);
      && (if f in m.futs then (g !in m.guards ==> Can(m, PollFuture(f, g, task))) && Can(m, DropFuture(f))
          else Can(m, NewFuture(f, want)))
      && (g in m.guards ==> Can(m, DropGuard(g)))
  {
    EveryRunKeepsInv(ops);
    if g in Run(NewRwLock(), ops).guards {
      DropNeverPanics(ops, g);
    }
    hide Run, CanRun, Exclusive;
  }

  lemma FuturesComeAndGo(m: RwLock, f: nat, want: Want)
    ensures Can(m, NewFuture(f, want)) ==>
              var m' := Do(m, NewFuture(f, want)); m'.futs == m.futs[f := Idle] && m'.wants == m.wants[f := want]
    ensures Can(m, DropFuture(f)) ==> Do(m, DropFuture(f)).futs == m.futs - {f}
  {
  }

  // ---- Readers are served one after the other ----

  /** Only readers wait, and if any does, one is notified. */
  ghost predicate ReadersWait(m: RwLock) {
    && Inv(m) && !m.locked && Stirred(m.ev)
    && forall f :: f in m.futs && m.futs[f].Waiting? ==> f in m.wants && m.wants[f].Read?
  }

  /** A name no guard has. */
  lemma FreshGuard(m: RwLock) returns (g: nat)
    ensures g !in m.guards
  {
    if m.guards.Keys == {} {
      g := 0;
    } else {
      g := Max(m.guards.Keys) + 1;
    }
  }

  /** The notified reader acquires, and the next one is notified. */
  lemma NextReader(m: RwLock) returns (f: nat, g: nat)
    requires ReadersWait(m) && m.ev.listeners != map[]
    ensures Can(m, PollFuture(f, g, 0)) && m.futs[f].Waiting? && Acquires(m, f, g, 0)
    ensures var m' := Do(m, PollFuture(f, g, 0));
      ReadersWait(m') && m'.readers == m.readers + 1 && |m'.ev.listeners| == |m.ev.listeners| - 1
  {
    hide Inv, Stirred, Do;
    f := NotifiedFuture(m);
    g := FreshGuard(m);
    AcquiresExactly(m, f, g, 0);
    PollKeepsInv(m, f, g, 0);
    ListenerGone(m, f, g);
    WantsStay(m, PollFuture(f, g, 0));
  }

  lemma WantsStay(m: RwLock, op: Op)
    requires Can(m, op) && op.PollFuture?
    ensures Do(m, op).wants == m.wants
  {
    hide LockOutcome;
  }

  lemma NotifiedFuture(m: RwLock) returns (f: nat)
    requires Inv(m) && Stirred(m.ev) && m.ev.listeners != map[]
    ensures f in m.futs && f in m.wants && m.futs[f].Waiting? && m.futs[f].id in m.ev.listeners
    ensures m.ev.listeners[m.futs[f].id].value.Some?
  {
    hide Exclusive;
    f := SomeoneWasWoken(m.ev, m.futs);
  }

  lemma ListenerGone(m: RwLock, f: nat, g: nat)
    requires Can(m, PollFuture(f, g, 0)) && m.futs[f].Waiting? && m.ev.listeners[m.futs[f].id].value.Some?
    requires !m.locked && m.wants[f].Read?
    ensures var m' := Do(m, PollFuture(f, g, 0));
      m'.readers == m.readers + 1 && !m'.locked && |m'.ev.listeners| == |m.ev.listeners| - 1
  {
    PollCases(m.ev, m.futs[f], 0, true);
    var q := Finish(m.ev, m.futs[f].id);
    assert q.listeners.Keys == m.ev.listeners.Keys - {m.futs[f].id};
    assert Notify(q, UpTo(1), ()).listeners.Keys == q.listeners.Keys;
    hide Notify, PollWaiter;
    KeysCount(m.ev.listeners);
    KeysCount(Do(m, PollFuture(f, g, 0)).ev.listeners);
  }

  lemma KeysCount(ls: map<nat, Entry<()>>)
    ensures |ls| == |ls.Keys|
  {
  }

  /**
    With the lock free of writers and only readers waiting, polling whoever is
    notified, once for every waiter, lets all of them in.
   */
  lemma {:induction false} AllReadersGetIn(m: RwLock) returns (ops: seq<Op>)
    requires ReadersWait(m)
    ensures CanRun(m, ops) && |ops| == |m.ev.listeners| && (forall op :: op in ops ==> op.PollFuture?)
    ensures var m' := Run(m, ops);
      ReadersWait(m') && m'.ev.listeners == map[] && m'.readers == m.readers + |m.ev.listeners|
    decreases |m.ev.listeners|
  {
    if m.ev.listeners == map[] {
      ops := [];
    } else {
      var f, g := NextReader(m);
      hide ReadersWait, Do, Can, Acquires;
      var rest := AllReadersGetIn(Do(m, PollFuture(f, g, 0)));
      ops := [PollFuture(f, g, 0)] + rest;
      assert ops[0] == PollFuture(f, g, 0) && ops[1..] == rest;
    }
  }

  ghost predicate Reachable(m: RwLock) {
    exists ops :: CanRun(NewRwLock(), ops) && Run(NewRwLock(), ops) == m
  }

  lemma {:induction false} RunSnoc(m: RwLock, ops: seq<Op>, op: Op)
    requires CanRun(m, ops) && Can(Run(m, ops), op)
    ensures CanRun(m, ops + [op]) && Run(m, ops + [op]) == Do(Run(m, ops), op)
    decreases |ops|
  {
    hide Do, Can;
    if ops == [] {
      assert (ops + [op])[0] == op && (ops + [op])[1..] == [];
    } else {
      RunSnoc(Do(m, ops[0]), ops[1..], op);
      assert (ops + [op])[1..] == ops[1..] + [op];
    }
  }

  lemma StepReachable(m: RwLock, op: Op)
    requires Reachable(m) && Can(m, op)
    ensures Reachable(Do(m, op))
  {
    hide Do, Can;
    var ops :| CanRun(NewRwLock(), ops) && Run(NewRwLock(), ops) == m;
    RunSnoc(NewRwLock(), ops, op);
  }

  /** A new future `f` that is polled at once. */
  lemma Arrive(m: RwLock, f: nat, want: Want) returns (s: RwLock)
    requires Reachable(m) && f !in m.futs && f !in m.guards
    requires m.ev.notified > 0 || m.ev.listeners == map[] || !Free(m.readers, m.locked, want)
    ensures Reachable(s) && s.wants == m.wants[f := want]
    ensures if Free(m.readers, m.locked, want)
            then && s.ev == m.ev && s.futs == m.futs[f := Idle] && s.guards == m.guards[f := want]
                 && s.locked == want.Write? && s.readers == m.readers + (if want.Read? then 1 else 0)
            else && s.ev == Enter(m.ev, 0) && s.futs == m.futs[f := Waiting(m.ev.nextId)]
                 && s.guards == m.guards && s.locked == m.locked && s.readers == m.readers
  {
    hide Reachable, Notify;
    StepReachable(m, NewFuture(f, want));
    var q := Do(m, NewFuture(f, want));
    PollCases(q.ev, Idle, 0, Free(m.readers, m.locked, want));
    if Free(m.readers, m.locked, want) {
      NotifyOneIdle(m.ev, ());
    }
    StepReachable(q, PollFuture(f, f, 0));
    s := Do(q, PollFuture(f, f, 0));
    assert q.futs[f := s.futs[f]] == m.futs[f := s.futs[f]];
  }

  /** The writer 1 and the reader 2 wait, in this order, for the writer 0 to leave. */
  ghost predicate TwoWait(m: RwLock) {
    && m.locked && m.readers == 0 && m.guards == map[0 := Write]
    && m.futs == map[0 := Idle, 1 := Waiting(0), 2 := Waiting(1)]
    && m.wants == map[0 := Write, 1 := Write, 2 := Read]
    && m.ev.listeners.Keys == {0, 1} && m.ev.nextId == 2 && m.ev.notified == 0
    && m.ev.listeners[0].value.None? && m.ev.listeners[1].value.None?
  }

  lemma LetTwoWait() returns (m: RwLock)
    ensures Reachable(m) && TwoWait(m)
  {
    assert CanRun(NewRwLock(), []) && Run(NewRwLock(), []) == NewRwLock();
    hide Reachable, CanRun, Run;
    m := Arrive(NewRwLock(), 0, Write);
    m := Arrive(m, 1, Write);
    m := Arrive(m, 2, Read);
  }

  /** The writer was notified, but `n` readers have overtaken both. */
  ghost predicate Overtaken(m: RwLock, n: nat) {
    && !m.locked && m.readers == n && m.ev.notified > 0
    && (forall x :: x >= n + 3 ==> x !in m.futs && x !in m.guards)
    && 1 in m.futs && m.futs[1] == Waiting(0) && 2 in m.futs && m.futs[2] == Waiting(1)
    && 1 in m.wants && m.wants[1] == Write && 2 in m.wants && m.wants[2] == Read
    && m.ev.listeners.Keys == {0, 1} && m.ev.nextId == 2
    && m.ev.listeners[0].value.Some? && m.ev.listeners[1].value.None?
  }

  lemma {:induction false} Overtake(m: RwLock, n: nat) returns (s: RwLock)
    requires Reachable(m) && TwoWait(m)
    ensures Reachable(s) && Overtaken(s, n)
  {
    hide Reachable, Notify;
    if n == 0 {
      assert Notified(m.ev.listeners) == {};
      NotifyOnePicks(m.ev, (), 0);
      StepReachable(m, DropGuard(0));
      s := Do(m, DropGuard(0));
    } else {
      s := Overtake(m, n - 1);
      s := Arrive(s, n + 2, Read);
    }
  }

  /**
    A reader can stay parked, with nobody notified, while only readers hold the
    lock: the notification went to a writer, which found them there and
    registered again.
   */
  lemma ReaderLeftParked(n: nat) returns (m: RwLock, f: nat)
    requires n > 0
    ensures Reachable(m)
    ensures f in m.futs && m.futs[f].Waiting? && m.futs[f].id in m.ev.listeners && f in m.wants && m.wants[f].Read?
    ensures Free(m.readers, m.locked, Read) && m.readers == n
    ensures Notified(m.ev.listeners) == {}
  {
    hide Reachable;
    m := LetTwoWait();
    m := Overtake(m, n);
    StepReachable(m, PollFuture(1, n + 3, 0));
    PollCases(m.ev, Waiting(0), 0, false);
    m := Do(m, PollFuture(1, n + 3, 0));
    f := 2;
  }

  /**
    With no writer and `n` readers holding the lock, somebody waiting means that
    somebody was notified, in every reachable state, exactly if `n` is zero.
   */
  lemma WaitersServedExactly(n: nat)
    ensures (forall m :: Reachable(m) && !m.locked && m.readers == n ==> Stirred(m.ev)) <==> n == 0
  {
    hide Reachable;
    if n == 0 {
      forall m | Reachable(m) && !m.locked && m.readers == 0 ensures Stirred(m.ev) {
        ServedWithoutReaders(m);
      }
    } else {
      var m, f := ReaderLeftParked(n);
      assert !Stirred(m.ev);
    }
  }

  lemma ServedWithoutReaders(m: RwLock)
    requires Reachable(m) && !m.locked && m.readers == 0
    ensures Stirred(m.ev)
  {
    hide Stirred, Linked;
    var ops :| CanRun(NewRwLock(), ops) && Run(NewRwLock(), ops) == m;
    EveryRunKeepsInv(ops);
  }
}
