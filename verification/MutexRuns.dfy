/** In which order the mutex is acquired: exactly who can pass whom, and runs in which it happens. */
module MutexRuns {
  import opened Options
  import opened NatSets
  import opened Registries
  import opened Waiters
  import opened Mutexes

  // ---- At most one notification is outstanding ----

  lemma NotifyOneBounds(r: Registry<()>)
    requires r.notified <= 1
    ensures Notify(r, UpTo(1), ()).notified <= 1
  {
  }

  lemma DropBounds(r: Registry<()>, id: nat)
    requires r.notified <= 1
    ensures Drop(r, id).notified <= 1
  {
  }

  lemma PollBounds(locked: bool, ev: Registry<()>, st: WaitState, task: nat)
    requires ev.notified <= 1 && (st.Waiting? ==> st.id in ev.listeners)
    ensures LockOutcome(locked, ev, st, task).1.ev.notified <= 1
  {
    PollCases(ev, st, task, !locked);
    hide Notify;
    NotifyOneBounds(PollWaiter(ev, st, task, !locked).ev);
  }

  lemma DoKeepsBound(m: Mutex, op: Op)
    requires m.ev.notified <= 1 && Can(m, op)
    ensures Do(m, op).ev.notified <= 1
  {
    hide LockOutcome, Notify, Drop;
    match op
    case NewLock(_, _) =>
    case PollLock(f, task) => PollBounds(m.locked, m.ev, m.futs[f], task);
    case DropLock(f) =>
      if m.futs[f].Waiting? {
        DropBounds(m.ev, m.futs[f].id);
      }
    case DropGuard(_) => NotifyOneBounds(m.ev);
  }

  lemma {:induction false} RunKeepsBound(m: Mutex, ops: seq<Op>)
    requires m.ev.notified <= 1 && CanRun(m, ops)
    ensures Run(m, ops).ev.notified <= 1
    decreases |ops|
  {
    hide Do, Can;
    if ops != [] {
      DoKeepsBound(m, ops[0]);
      RunKeepsBound(Do(m, ops[0]), ops[1..]);
    }
  }

  // ---- Who passes whom ----

  ghost predicate Acquires(m: Mutex, f: nat, task: nat)
    requires Can(m, PollLock(f, task))
  {
    f in Do(m, PollLock(f, task)).guards && f !in m.guards
  }

  predicate Waits(m: Mutex, g: nat) {
    g in m.futs && m.futs[g].Waiting?
  }

  /** `g` waits, and has done so since before `f` began to, if `f` waits at all. */
  predicate WaitsBefore(m: Mutex, g: nat, f: nat)
    requires f in m.futs
  {
    Waits(m, g) && (m.futs[f].Waiting? ==> m.futs[g].id < m.futs[f].id)
  }

  lemma OneNotified(r: Registry<()>, a: nat, b: nat)
    requires Counted(r) && r.notified <= 1
    requires a in r.listeners && r.listeners[a].value.Some? && b in r.listeners && r.listeners[b].value.Some?
    ensures a == b
  {
    if a != b {
      SubsetSize({a, b}, Notified(r.listeners));
    }
  }

  /** A notified waiter waits on the oldest listener there is. */
  lemma NotifiedIsOldest(m: Mutex, f: nat, g: nat)
    requires Inv(m) && m.ev.notified <= 1 && Waits(m, f) && Waits(m, g) && g != f
    requires m.futs[f].id in m.ev.listeners && m.ev.listeners[m.futs[f].id].value.Some?
    ensures m.futs[f].id < m.futs[g].id
  {
    if m.ev.listeners[m.futs[g].id].value.Some? {
      OneNotified(m.ev, m.futs[f].id, m.futs[g].id);
    }
  }

  /**
    A poll that acquires passes somebody exactly if the lock is free, somebody
    waits, and the polled future does not: newcomers pass every waiter. A waiter
    that acquires is the one registered before all others.
   */
  lemma PassesExactly(ops: seq<Op>, f: nat, task: nat)
    requires CanRun(NewMutex(), ops) && Can(Run(NewMutex(), ops), PollLock(f, task))
    ensures var m := Run(NewMutex(), ops);
      && ((Acquires(m, f, task) && exists g :: g != f && WaitsBefore(m, g, f))
          <==> (!m.locked && m.futs[f].Idle? && exists g :: Waits(m, g)))
      && (Acquires(m, f, task) && m.futs[f].Waiting? ==>
            forall g :: g != f && Waits(m, g) ==> m.futs[f].id < m.futs[g].id)
  {
    EveryRunKeepsInv(ops);
    RunKeepsBound(NewMutex(), ops);
    hide Run, CanRun, Inv, Do;
    var m := Run(NewMutex(), ops);
    AcquiresWhen(m, f, task);
    if Acquires(m, f, task) && m.futs[f].Waiting? {
      forall g | g != f && Waits(m, g) ensures m.futs[f].id < m.futs[g].id {
        NotifiedIsOldest(m, f, g);
      }
    }
    if m.futs[f].Idle? && exists g :: Waits(m, g) {
      var g :| Waits(m, g);
      assert g != f && WaitsBefore(m, g, f);
    }
  }

  lemma AcquiresWhen(m: Mutex, f: nat, task: nat)
    requires Inv(m) && Can(m, PollLock(f, task))
    ensures Acquires(m, f, task)
       <==> !m.locked && (m.futs[f].Waiting? ==> m.ev.listeners[m.futs[f].id].value.Some?)
  {
    hide Inv, Do;
    PollAcquires(m, f, task);
  }

  // ---- What every operation comes to ----

  /**
    A poll that acquires locks the mutex and, by the notification that `lock` sends,
    leaves somebody notified if anybody waits; any other poll ends parked with a
    waker of its task.
   */
  lemma PollComesTo(m: Mutex, f: nat, task: nat)
    requires Inv(m) && Can(m, PollLock(f, task))
    ensures var m' := Do(m, PollLock(f, task));
      if Acquires(m, f, task)
      then && m'.locked && m'.guards == m.guards[f := m.kinds[f]] && m'.futs == m.futs[f := Idle] && Stirred(m'.ev)
      else && m'.locked == m.locked && m'.guards == m.guards
           && m'.futs == m.futs[f := m'.futs[f]] && m'.futs[f].Waiting?
           && m'.futs[f].id in m'.ev.ledger.parked && m'.ev.ledger.parked[m'.futs[f].id].task == task
  {
    AcquiresWhen(m, f, task);
    OutcomeExactly(m, f, task);
    hide Stirred, Linked, LockOutcome;
    assert !m.locked ==> m.guards == map[];
  }

  lemma OutcomeExactly(m: Mutex, f: nat, task: nat)
    requires Linked(m.ev, m.futs) && f in m.futs
    requires m.futs[f].Waiting? ==> m.futs[f].id in m.ev.listeners
    ensures var (locked, o) := LockOutcome(m.locked, m.ev, m.futs[f], task);
      && (o.ready <==> !m.locked && (m.futs[f].Waiting? ==> m.ev.listeners[m.futs[f].id].value.Some?))
      && (o.ready <==> o.state.Idle?)
      && (if o.ready then locked && Stirred(o.ev)
          else && locked == m.locked && o.state.id in o.ev.ledger.parked && o.ev.ledger.parked[o.state.id].task == task)
  {
    hide Stirred, Linked, Notify;
    var o := PollWaiter(m.ev, m.futs[f], task, !m.locked);
    ReadyWhen(m.ev, m.futs[f], task, !m.locked);
    PollCases(m.ev, m.futs[f], task, !m.locked);
    PollKeepsLinked(m.ev, m.futs, f, task, !m.locked);
    NotifyOneStirs(o.ev, m.futs[f := o.state], ());
  }

  /** A dropped guard leaves the mutex free, and if anybody waits, somebody is notified. */
  lemma UnlockServes(m: Mutex, g: nat)
    requires Inv(m) && g in m.guards
    ensures var m' := Do(m, DropGuard(g));
      && !m'.locked && m'.guards == map[] && m'.futs == m.futs && m'.kinds == m.kinds && Stirred(m'.ev)
  {
    assert m.guards.Keys - {g} == {} by {
      SubsetSize({g}, m.guards.Keys);
      assert |m.guards| == |m.guards.Keys|;
      if h :| h in m.guards.Keys - {g} {
        SubsetSize({g, h}, m.guards.Keys);
      }
    }
    hide Stirred, Linked, Notify;
    NotifyOneStirs(m.ev, m.futs, ());
  }

  /** Over every run whatever is there can be used: futures polled and dropped, guards dropped. */
  lemma NothingIsRefused(ops: seq<Op>, f: nat, task: nat, kind: Kind)
    requires CanRun(NewMutex(), ops)
    ensures var m := Run(NewMutex(), ops);
      && (if f in m.futs then Can(m, PollLock(f, task)) && Can(m, DropLock(f)) else Can(m, NewLock(f, kind)))
      && (f in m.guards ==> Can(m, DropGuard(f)))
  {
    EveryRunKeepsInv(ops);
    hide Run, CanRun;
  }

  lemma FuturesComeAndGo(m: Mutex, f: nat, kind: Kind)
    ensures Can(m, NewLock(f, kind)) ==>
              Do(m, NewLock(f, kind)) == m.(futs := m.futs[f := Idle], kinds := m.kinds[f := kind])
    ensures Can(m, DropLock(f)) ==>
              var m' := Do(m, DropLock(f)); m'.futs == m.futs - {f} && m'.guards == m.guards && m'.locked == m.locked
  {
  }

  // ---- Runs in which it happens ----

  ghost predicate Reachable(m: Mutex) {
    exists ops :: CanRun(NewMutex(), ops) && Run(NewMutex(), ops) == m
  }

  lemma {:induction false} RunSnoc(m: Mutex, ops: seq<Op>, op: Op)
    requires CanRun(m, ops) && Can(Run(m, ops), op)
    ensures CanRun(m, ops + [op]) && Run(m, ops + [op]) == Do(Run(m, ops), op)
    decreases |ops|
  {
    hide Do, Can;
    if ops == [] {
      assert (ops + [op])[0] == op && (ops + [op])[1..] == [];
    } else {
      RunSnoc(Do(m, ops[0]), ops[1..], op);
      assert (ops + [op])[1..] == ops[1..] + [op];
    }
  }

  lemma StepReachable(m: Mutex, op: Op)
    requires Reachable(m) && Can(m, op)
    ensures Reachable(Do(m, op))
  {
    hide Do, Can;
    var ops :| CanRun(NewMutex(), ops) && Run(NewMutex(), ops) == m;
    RunSnoc(NewMutex(), ops, op);
  }

  /** The listeners are those from `first` below `next`; nobody is notified, or only the first one is. */
  ghost predicate InLine(r: Registry<()>, first: nat, next: nat, notified: bool) {
    && r.nextId == next && r.notified == (if notified then 1 else 0)
    && (forall id :: id in r.listeners <==> first <= id < next)
    && (forall id :: first <= id < next ==> (r.listeners[id].value.Some? <==> notified && id == first))
  }

  lemma NotifyLine(r: Registry<()>, first: nat, next: nat)
    requires InLine(r, first, next, false) && first < next
    ensures InLine(Notify(r, UpTo(1), ()), first, next, true)
  {
    assert Notified(r.listeners) == {};
    NotifyOnePicks(r, (), first);
    hide Notify;
  }

  lemma FinishLine(r: Registry<()>, first: nat, next: nat)
    requires InLine(r, first, next, true) && first < next
    ensures InLine(Finish(r, first), first + 1, next, false)
  {
  }

  lemma EnterLine(r: Registry<()>, first: nat, next: nat, task: nat)
    requires InLine(r, first, next, false) && first <= next
    ensures InLine(Enter(r, task), first, next + 1, false)
  {
  }

  /** The mutex with what these runs need to know of it. */
  ghost predicate Looks(m: Mutex, locked: bool, futs: map<nat, WaitState>, guards: set<nat>) {
    Reachable(m) && m.locked == locked && m.futs == futs && m.kinds.Keys == futs.Keys && m.guards.Keys == guards
  }

  /** A new future `f` finds the lock taken and gets in line. */
  lemma Join(m: Mutex, f: nat, futs: map<nat, WaitState>, guards: set<nat>, first: nat, next: nat) returns (s: Mutex)
    requires Looks(m, true, futs, guards) && InLine(m.ev, first, next, false) && first <= next && f !in futs
    ensures Looks(s, true, futs[f := Waiting(next)], guards) && InLine(s.ev, first, next + 1, false)
  {
    hide Reachable;
    StepReachable(m, NewLock(f, Borrowed));
    var q := Do(m, NewLock(f, Borrowed));
    PollCases(q.ev, Idle, 0, false);
    StepReachable(q, PollLock(f, 0));
    s := Do(q, PollLock(f, 0));
    EnterLine(m.ev, first, next, 0);
    assert q.futs[f := Waiting(next)] == futs[f := Waiting(next)];
    hide InLine, Enter;
  }

  /** A new future `f` finds the lock free and takes it, whoever waits. */
  lemma Barge(m: Mutex, f: nat, futs: map<nat, WaitState>, first: nat, next: nat) returns (s: Mutex)
    requires Looks(m, false, futs, {}) && f !in futs
    requires InLine(m.ev, first, next, true) || (InLine(m.ev, first, next, false) && first == next)
    ensures Looks(s, true, futs[f := Idle], {f}) && s.ev == m.ev
  {
    hide Reachable;
    StepReachable(m, NewLock(f, Borrowed));
    var q := Do(m, NewLock(f, Borrowed));
    PollCases(q.ev, Idle, 0, true);
    assert m.ev.notified == 0 ==> m.ev.listeners.Keys == {};
    NotifyOneIdle(m.ev, ());
    hide InLine, Notify;
    StepReachable(q, PollLock(f, 0));
    s := Do(q, PollLock(f, 0));
    assert q.futs[f := Idle] == futs[f := Idle];
  }

  lemma Leave(m: Mutex, g: nat, futs: map<nat, WaitState>, first: nat, next: nat) returns (s: Mutex)
    requires Looks(m, true, futs, {g}) && InLine(m.ev, first, next, false) && first < next
    ensures Looks(s, false, futs, {}) && InLine(s.ev, first, next, true)
    ensures Can(m, DropGuard(g)) && s == Do(m, DropGuard(g))
  {
    hide Reachable, Notify;
    StepReachable(m, DropGuard(g));
    s := Do(m, DropGuard(g));
    NotifyLine(m.ev, first, next);
    hide InLine;
  }

  /** The first in line takes the free lock, which notifies the next one. */
  lemma Advance(m: Mutex, f: nat, futs: map<nat, WaitState>, first: nat, next: nat) returns (s: Mutex)
    requires Looks(m, false, futs, {}) && InLine(m.ev, first, next, true) && first + 1 < next
    requires f in futs && futs[f] == Waiting(first)
    ensures Looks(s, true, futs[f := Idle], {f}) && InLine(s.ev, first + 1, next, true)
    ensures Can(m, PollLock(f, 0)) && s == Do(m, PollLock(f, 0))
  {
    hide Reachable, Notify;
    assert first in m.ev.listeners && m.ev.listeners[first].value.Some?;
    FinishLine(m.ev, first, next);
    NotifyLine(Finish(m.ev, first), first + 1, next);
    PollCases(m.ev, Waiting(first), 0, true);
    hide InLine, Finish;
    StepReachable(m, PollLock(f, 0));
    s := Do(m, PollLock(f, 0));
  }

  /** The first in line finds the lock taken and goes to the end. */
  lemma Requeue(m: Mutex, f: nat, futs: map<nat, WaitState>, guards: set<nat>, first: nat, next: nat) returns (s: Mutex)
    requires Looks(m, true, futs, guards) && InLine(m.ev, first, next, true) && first < next
    requires f in futs && futs[f] == Waiting(first)
    ensures Looks(s, true, futs[f := Waiting(next)], guards) && InLine(s.ev, first + 1, next + 1, false)
    ensures Can(m, PollLock(f, 0)) && s == Do(m, PollLock(f, 0))
  {
    hide Reachable, Notify;
    assert first in m.ev.listeners && m.ev.listeners[first].value.Some? && m.ev.nextId == next;
    FinishLine(m.ev, first, next);
    EnterLine(Finish(m.ev, first), first + 1, next, 0);
    PollCases(m.ev, Waiting(first), 0, false);
    hide InLine;
    StepReachable(m, PollLock(f, 0));
    s := Do(m, PollLock(f, 0));
  }

  /** The futures 1 to `n` wait in this order. */
  function Line(n: nat): map<nat, WaitState> {
    if n == 0 then map[0 := Idle] else Line(n - 1)[n := Waiting(n - 1)]
  }

  lemma {:induction false} LineAt(n: nat, f: nat)
    ensures f in Line(n) <==> f <= n
    ensures 1 <= f <= n ==> Line(n)[f] == Waiting(f - 1)
  {
    if n > 0 {
      LineAt(n - 1, f);
    }
  }

  lemma {:induction false} LineUp(n: nat) returns (m: Mutex)
    ensures Looks(m, true, Line(n), {0}) && InLine(m.ev, 0, n, false)
  {
    if n == 0 {
      assert CanRun(NewMutex(), []) && Run(NewMutex(), []) == NewMutex();
      m := Barge(NewMutex(), 0, map[], 0, 0);
    } else {
      m := LineUp(n - 1);
      hide Looks, InLine;
      LineAt(n - 1, n);
      m := Join(m, n, Line(n - 1), {0}, 0, n - 1);
    }
  }

  /** Any number of waiters can be passed by a future that has just been made. */
  lemma NewcomerPasses(n: nat) returns (m: Mutex, f: nat)
    requires n > 0
    ensures Looks(m, false, Line(n), {}) && f !in m.futs
    ensures var q := Do(m, NewLock(f, Borrowed));
      Can(q, PollLock(f, 0)) && Acquires(q, f, 0) && forall g :: 1 <= g <= n ==> WaitsBefore(q, g, f)
  {
    hide InLine;
    m := LineUp(n);
    m := Leave(m, 0, Line(n), 0, n);
    f := n + 1;
    LineAt(n, f);
    hide Looks, Acquires;
    NewcomerAcquires(m, n, f);
  }

  lemma NewcomerAcquires(m: Mutex, n: nat, f: nat)
    requires Looks(m, false, Line(n), {}) && f !in m.futs
    ensures var q := Do(m, NewLock(f, Borrowed));
      Can(q, PollLock(f, 0)) && Acquires(q, f, 0) && forall g :: 1 <= g <= n ==> WaitsBefore(q, g, f)
  {
    hide Notify, PollWaiter, Reachable, Line;
    ReadyWhen(m.ev, Idle, 0, true);
    forall g | 1 <= g <= n ensures WaitsBefore(Do(m, NewLock(f, Borrowed)), g, f) {
      LineAt(n, g);
    }
  }

  /** `ops` lead from `m` to `s`, and nobody new arrives. */
  ghost predicate Leads(m: Mutex, ops: seq<Op>, s: Mutex) {
    CanRun(m, ops) && Run(m, ops) == s && forall op :: op in ops ==> !op.NewLock?
  }

  lemma LeadsOn(m: Mutex, ops: seq<Op>, s: Mutex, op: Op)
    requires Leads(m, ops, s) && Can(s, op) && !op.NewLock?
    ensures Leads(m, ops + [op], Do(s, op))
  {
    hide Do, Can;
    RunSnoc(m, ops, op);
  }

  lemma LeadsNowhere(m: Mutex)
    ensures Leads(m, [], m)
  {
  }

  /** The first in line acquires, and the second goes to the end. */
  lemma SecondRequeues(m: Mutex, n: nat, futs: map<nat, WaitState>) returns (s: Mutex, ops: seq<Op>)
    requires n >= 3 && Looks(m, true, futs, {0}) && InLine(m.ev, 0, n, false)
    requires 1 in futs && futs[1] == Waiting(0) && 2 in futs && futs[2] == Waiting(1)
    ensures Leads(m, ops, s)
    ensures Looks(s, true, futs[1 := Idle][2 := Waiting(n)], {1}) && InLine(s.ev, 2, n + 1, false)
  {
    hide InLine, Looks, Leads, Do, Can;
    LeadsNowhere(m);
    s := Leave(m, 0, futs, 0, n);
    LeadsOn(m, [], m, DropGuard(0));
    ops := [] + [DropGuard(0)];
    var t := Advance(s, 1, futs, 0, n);
    LeadsOn(m, ops, s, PollLock(1, 0));
    ops := ops + [PollLock(1, 0)];
    s := Requeue(t, 2, futs[1 := Idle], {1}, 1, n);
    LeadsOn(m, ops, t, PollLock(2, 0));
    ops := ops + [PollLock(2, 0)];
  }

  /** The lock is given on, to the third. */
  lemma ThirdAcquires(m: Mutex, ops: seq<Op>, t: Mutex, n: nat, futs: map<nat, WaitState>)
    returns (s: Mutex, more: seq<Op>)
    requires n >= 3 && Leads(m, ops, t) && Looks(t, true, futs, {1}) && InLine(t.ev, 2, n + 1, false)
    requires 3 in futs && futs[3] == Waiting(2)
    ensures Leads(m, more, s) && Looks(s, true, futs[3 := Idle], {3})
  {
    hide InLine, Looks, Leads, Do, Can;
    var q := Leave(t, 1, futs, 2, n + 1);
    LeadsOn(m, ops, t, DropGuard(1));
    more := ops + [DropGuard(1)];
    s := Advance(q, 3, futs, 2, n + 1);
    LeadsOn(m, more, q, PollLock(3, 0));
    more := more + [PollLock(3, 0)];
  }

  /**
    Of any three or more futures parked in a line, with nobody new arriving, the
    third can acquire while the second still waits: the first, by acquiring,
    notifies the second, which finds the lock taken and goes to the end.
   */
  lemma ThirdPassesSecond(n: nat) returns (m: Mutex, ops: seq<Op>)
    requires n >= 3
    ensures Looks(m, true, Line(n), {0}) && CanRun(m, ops) && (forall op :: op in ops ==> !op.NewLock?)
    ensures 3 in Run(m, ops).guards && Waits(Run(m, ops), 2)
  {
    m := LineUp(n);
    LineAt(n, 1);
    LineAt(n, 2);
    LineAt(n, 3);
    hide InLine, Line, Reachable;
    var t, s;
    t, ops := SecondRequeues(m, n, Line(n));
    s, ops := ThirdAcquires(m, ops, t, n, Line(n)[1 := Idle][2 := Waiting(n)]);
    assert s.guards.Keys == {3} && s.futs[2] == Waiting(n);
  }
}
