/**
  `RwLock`: any mix of read and write futures, borrowed or owning, and their
  guards, over every order of polls and drops.
 */
module RwLocks {
  import opened Options
  import opened Registries
  import opened Waiters

  datatype Want = Read | Write

  /**
    The lock, what its live futures want, and its live guards under names of
    their own. Borrowed and owning futures run the same code, so they are not
    told apart.
   */
  datatype RwLock = RwLock(
    readers: nat, locked: bool, ev: Registry<()>,
    futs: map<nat, WaitState>, wants: map<nat, Want>, guards: map<nat, Want>)

  datatype Op =
    | NewFuture(f: nat, want: Want)
    | PollFuture(f: nat, g: nat, task: nat)  // a guard, if obtained, is called `g`
    | DropFuture(f: nat)
    | DropGuard(g: nat)

  function NewRwLock(): RwLock {
    RwLock(0, false, NewRegistry(), map[], map[], map[])
  }

  predicate Can(m: RwLock, op: Op) {
    match op
    case NewFuture(f, _) => f !in m.futs
    case PollFuture(f, g, _) =>
      f in m.futs && f in m.wants && g !in m.guards && (m.futs[f].Waiting? ==> m.futs[f].id in m.ev.listeners)
    case DropFuture(f) => f in m.futs
    case DropGuard(g) => g in m.guards && (m.guards[g].Read? ==> m.readers > 0)
  }

  predicate Free(readers: nat, locked: bool, want: Want) {
    !locked && (want.Write? ==> readers == 0)
  }

  /** What the lock itself looks like after a poll, and how the poll ended. */
  datatype Result = Result(readers: nat, locked: bool, outcome: Outcome<()>)

  ghost function LockOutcome(readers: nat, locked: bool, ev: Registry<()>, st: WaitState, want: Want, task: nat): Result
    requires st.Waiting? ==> st.id in ev.listeners
  {
    var o := PollWaiter(ev, st, task, Free(readers, locked, want));
    if !o.ready then Result(readers, locked, o)
    else
      var after := o.(ev := Notify(o.ev, UpTo(1), ()));
      if want.Read? then Result(readers + 1, locked, after) else Result(readers, true, after)
  }

  ghost function Do(m: RwLock, op: Op): RwLock
    requires Can(m, op)
  {
    match op
    case NewFuture(f, want) => m.(futs := m.futs[f := Idle], wants := m.wants[f := want])
    case PollFuture(f, g, task) =>
      var res := LockOutcome(m.readers, m.locked, m.ev, m.futs[f], m.wants[f], task);
      m.(readers := res.readers, locked := res.locked, ev := res.outcome.ev, futs := m.futs[f := res.outcome.state],
         guards := if res.outcome.ready then m.guards[g := m.wants[f]] else m.guards)
    case DropFuture(f) => m.(ev := DropWaiter(m.ev, m.futs[f]), futs := m.futs - {f}, wants := m.wants - {f})
    case DropGuard(g) =>
      var after := m.(ev := Notify(m.ev, UpTo(1), ()), guards := m.guards - {g});
      if m.guards[g].Read? then after.(readers := m.readers - 1) else after.(locked := false)
  }

  function Holding(guards: map<nat, Want>, want: Want): set<nat> {
    set g | g in guards && guards[g] == want
  }

  /** The fields count the guards: any number of readers or one writer, never both. */
  ghost predicate Exclusive(m: RwLock) {
    && m.readers == |Holding(m.guards, Read)|
    && |Holding(m.guards, Write)| == (if m.locked then 1 else 0)
    && (m.locked ==> m.readers == 0)
  }

  ghost predicate Inv(m: RwLock) {
    && Linked(m.ev, m.futs) && !m.ev.closed
    && m.wants.Keys == m.futs.Keys
    && Exclusive(m)
    && (m.locked || m.readers > 0 || Stirred(m.ev))
  }

  lemma GuardTaken(guards: map<nat, Want>, g: nat, want: Want, w: Want)
    requires g !in guards
    ensures |Holding(guards[g := want], w)| == |Holding(guards, w)| + (if w == want then 1 else 0)
  {
    assert Holding(guards[g := want], w) == Holding(guards, w) + (if w == want then {g} else {});
  }

  lemma GuardGone(guards: map<nat, Want>, g: nat, w: Want)
    requires g in guards
    ensures |Holding(guards, w)| == |Holding(guards - {g}, w)| + (if w == guards[g] then 1 else 0)
  {
    assert Holding(guards, w) == Holding(guards - {g}, w) + (if w == guards[g] then {g} else {});
  }

  lemma PollKeepsInv(m: RwLock, f: nat, g: nat, task: nat)
    requires Inv(m) && Can(m, PollFuture(f, g, task))
    ensures Inv(Do(m, PollFuture(f, g, task)))
  {
    hide Linked, Stirred, Holding, Notify;
    var free := Free(m.readers, m.locked, m.wants[f]);
    var o := PollWaiter(m.ev, m.futs[f], task, free);
    PollKeepsLinked(m.ev, m.futs, f, task, free);
    PollKeepsClosed(m.ev, m.futs[f], task, free);
    hide PollWaiter;
    if o.ready {
      NotifyKeepsLinked(o.ev, m.futs[f := o.state], UpTo(1), ());
      GuardTaken(m.guards, g, m.wants[f], Read);
      GuardTaken(m.guards, g, m.wants[f], Write);
      ReadyWhen(m.ev, m.futs[f], task, free);
    } else if free && Stirred(m.ev) {
      PendingKeepsStirred(m.ev, m.futs[f], task, true);
    }
  }

  lemma DropGuardKeepsInv(m: RwLock, g: nat)
    requires Inv(m) && Can(m, DropGuard(g))
    ensures Inv(Do(m, DropGuard(g)))
  {
    hide Linked, Stirred, Holding, Notify;
    GuardGone(m.guards, g, Read);
    GuardGone(m.guards, g, Write);
    NotifyOneStirs(m.ev, m.futs, ());
  }

  lemma DropFutureKeepsInv(m: RwLock, f: nat)
    requires Inv(m) && f in m.futs
    ensures Inv(Do(m, DropFuture(f)))
  {
    hide Linked, Stirred, Holding, DropWaiter;
    DropKeepsLinked(m.ev, m.futs, f);
    DropKeepsClosed(m.ev, m.futs[f]);
    if Stirred(m.ev) {
      DropWaiterKeepsStirred(m.ev, m.futs, m.futs[f]);
    }
  }

  lemma NewFutureKeepsInv(m: RwLock, f: nat, want: Want)
    requires Inv(m) && f !in m.futs
    ensures Inv(Do(m, NewFuture(f, want)))
  {
    hide Stirred, Holding;
    NewKeepsTied(m.ev, m.futs, f);
    hide Valid, OldestFirst, Tied;
  }

  lemma DoKeepsInv(m: RwLock, op: Op)
    requires Inv(m) && Can(m, op)
    ensures Inv(Do(m, op))
  {
    hide Inv, Do;
    match op
    case NewFuture(f, want) => NewFutureKeepsInv(m, f, want);
    case PollFuture(f, g, task) => PollKeepsInv(m, f, g, task);
    case DropFuture(f) => DropFutureKeepsInv(m, f);
    case DropGuard(g) => DropGuardKeepsInv(m, g);
  }

  ghost predicate CanRun(m: RwLock, ops: seq<Op>)
    decreases |ops|
  {
    ops == [] || (Can(m, ops[0]) && CanRun(Do(m, ops[0]), ops[1..]))
  }

  ghost function Run(m: RwLock, ops: seq<Op>): RwLock
    requires CanRun(m, ops)
    decreases |ops|
  {
    if ops == [] then m else Run(Do(m, ops[0]), ops[1..])
  }

  lemma {:induction false} RunKeepsInv(m: RwLock, ops: seq<Op>)
    requires Inv(m) && CanRun(m, ops)
    ensures Inv(Run(m, ops))
    decreases |ops|
  {
    hide Inv, Do, Can;
    if ops != [] {
      DoKeepsInv(m, ops[0]);
      RunKeepsInv(Do(m, ops[0]), ops[1..]);
    }
  }

  lemma EveryRunKeepsInv(ops: seq<Op>)
    requires CanRun(NewRwLock(), ops)
    ensures Inv(Run(NewRwLock(), ops))
  {
    hide Linked, CanRun, Run;
    NewIsLinked<()>();
    assert forall w :: Holding(map[], w) == {};
    RunKeepsInv(NewRwLock(), ops);
  }

  /** Any number of readers or one writer, never both; the fields say which. */
  lemma ReadersOrWriter(ops: seq<Op>)
    requires CanRun(NewRwLock(), ops)
    ensures var m := Run(NewRwLock(), ops);
      && m.readers == |Holding(m.guards, Read)|
      && |Holding(m.guards, Write)| == (if m.locked then 1 else 0)
      && (Holding(m.guards, Read) == {} || Holding(m.guards, Write) == {})
  {
    EveryRunKeepsInv(ops);
  }

  /** The assertion in `decrement_readers` cannot fire: every live guard can be dropped. */
  lemma DropNeverPanics(ops: seq<Op>, g: nat)
    requires CanRun(NewRwLock(), ops) && g in Run(NewRwLock(), ops).guards
    ensures Can(Run(NewRwLock(), ops), DropGuard(g))
  {
    EveryRunKeepsInv(ops);
    hide Run, CanRun, Linked;
    var m := Run(NewRwLock(), ops);
    assert m.guards[g].Read? ==> g in Holding(m.guards, Read);
  }

  /**
    Nobody is stranded: with no reader, no writer and somebody waiting, some
    waiter has been notified and woken since it parked, and polling it gets what
    it wants, whichever kind it is.
   */
  lemma FreeLockWakesSomeone(ops: seq<Op>) returns (f: nat)
    requires CanRun(NewRwLock(), ops)
    requires var m := Run(NewRwLock(), ops);
      !m.locked && m.readers == 0 && exists h :: h in m.futs && m.futs[h].Waiting?
    ensures var m := Run(NewRwLock(), ops);
      && f in m.futs && m.futs[f].Waiting? && m.futs[f].id in m.ev.listeners
      && m.ev.listeners[m.futs[f].id].value.Some?
      && m.futs[f].id in m.ev.ledger.parked
      && m.ev.ledger.parked[m.futs[f].id] in m.ev.ledger.woken
      && (forall g, task :: g !in m.guards ==>
            Can(m, PollFuture(f, g, task)) && g in Do(m, PollFuture(f, g, task)).guards)
  {
    EveryRunKeepsInv(ops);
    hide Run, CanRun;
    var m := Run(NewRwLock(), ops);
    f := SomeoneWasWoken(m.ev, m.futs);
    forall g, task | g !in m.guards
      ensures Can(m, PollFuture(f, g, task)) && g in Do(m, PollFuture(f, g, task)).guards
    {
      ReadyWhen(m.ev, m.futs[f], task, true);
    }
  }
}
