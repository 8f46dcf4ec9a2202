/**
  Futures that wait on an event one listener at a time: the shape shared by the
  lock futures, channel sends and channel receives. A future is idle or waits on
  a listener; it drops that listener as soon as its notification is consumed.
 */
module Waiters {
  import opened Options
  import opened NatSets
  import opened Registries

  datatype WaitState = Idle | Waiting(id: nat)

  datatype Outcome<T> = Outcome(ev: Registry<T>, state: WaitState, ready: bool)

  /**
    One poll with a waker of `task`. `free` says whether what the future waits
    for can be had now. An unnotified waiter parks again without looking; anyone
    else takes it, or registers a new listener and parks there.
   */
  ghost function PollWaiter<T>(r: Registry<T>, st: WaitState, task: nat, free: bool): Outcome<T>
    requires st.Waiting? ==> st.id in r.listeners
  {
    if st.Waiting? && r.listeners[st.id].value.None? then
      Outcome(Park(r, st.id, task), st, false)
    else
      var q := if st.Waiting? then Drop(Consume(r, st.id), st.id) else r;
      if free then Outcome(q, Idle, true)
      else Outcome(Enter(q, task), Waiting(q.nextId), false)
  }

  ghost function DropWaiter<T>(r: Registry<T>, st: WaitState): Registry<T> {
    if st.Waiting? then Drop(r, st.id) else r
  }

  // ---- Groups of waiting futures on one event ----

  ghost predicate Holds(futs: map<nat, WaitState>, id: nat) {
    exists f :: f in futs && futs[f] == Waiting(id)
  }

  /** The notified listeners are the oldest ones. */
  ghost predicate OldestFirst<T>(r: Registry<T>) {
    forall a, b ::
      a in r.listeners && b in r.listeners && r.listeners[a].value.Some? && r.listeners[b].value.None? ==> a < b
  }

  /** The listeners are exactly those of the waiting futures, each polled and left pending. */
  ghost predicate Tied<T>(r: Registry<T>, futs: map<nat, WaitState>) {
    && (forall f :: f in futs && futs[f].Waiting? ==> futs[f].id in r.listeners && futs[f].id in r.ledger.parked)
    && (forall f, g :: f in futs && g in futs && futs[f].Waiting? && futs[f] == futs[g] ==> f == g)
    && (forall id :: id in r.listeners ==> Holds(futs, id))
  }

  ghost predicate Linked<T>(r: Registry<T>, futs: map<nat, WaitState>) {
    Valid(r) && OldestFirst(r) && Tied(r, futs)
  }

  /** If anyone waits, someone has been notified. */
  ghost predicate Stirred<T>(r: Registry<T>) {
    r.listeners == map[] || Notified(r.listeners) != {}
  }

  lemma CountedWhenLinked<T>(r: Registry<T>, futs: map<nat, WaitState>)
    requires Linked(r, futs)
    ensures Counted(r)
  {
  }

  lemma HoldsBy(futs: map<nat, WaitState>, f: nat, id: nat)
    requires f in futs && futs[f] == Waiting(id)
    ensures Holds(futs, id)
  {
  }

  /** A future other than `f` keeps its listener when `f` changes. */
  lemma OthersHold(futs: map<nat, WaitState>, f: nat, st: WaitState, id: nat)
    requires Holds(futs, id) && (f in futs ==> futs[f] != Waiting(id))
    ensures Holds(futs[f := st], id) && Holds(futs - {f}, id)
  {
    var g :| g in futs && futs[g] == Waiting(id);
    HoldsBy(futs[f := st], g, id);
    HoldsBy(futs - {f}, g, id);
  }

  lemma GrantKeepsOrder<T>(r: Registry<T>, k: nat, v: T)
    requires OldestFirst(r)
    ensures OldestFirst(Grant(r, k, v))
    ensures Grant(r, k, v).listeners.Keys == r.listeners.Keys
  {
    var g := Earliest(Unnotified(r.listeners), k);
    forall a, b | a in g && b in r.listeners && b !in g && r.listeners[b].value.None? ensures a < b {
      assert b in Unnotified(r.listeners);
    }
  }

  lemma GrantKeepsTied<T>(r: Registry<T>, futs: map<nat, WaitState>, k: nat, v: T)
    requires Tied(r, futs)
    ensures Tied(Grant(r, k, v), futs)
  {
  }

  lemma GrantKeepsLinked<T>(r: Registry<T>, futs: map<nat, WaitState>, k: nat, v: T)
    requires Linked(r, futs)
    ensures Linked(Grant(r, k, v), futs)
  {
    GrantKeepsValid(r, k, v);
    GrantKeepsOrder(r, k, v);
    GrantKeepsTied(r, futs, k, v);
  }

  lemma NotifyKeepsLinked<T>(r: Registry<T>, futs: map<nat, WaitState>, n: Count, v: T)
    requires Linked(r, futs)
    ensures Linked(Notify(r, n, v), futs)
    ensures Notify(r, n, v).closed == r.closed
  {
    hide Linked;
    GrantKeepsLinked(r, futs, Missing(r, n), v);
  }

  lemma NotifyStirs<T>(r: Registry<T>, n: Count, v: T)
    requires Counted(r) && (n.All? || n.n > 0)
    ensures Stirred(Notify(r, n, v))
  {
    var g := Earliest(Unnotified(r.listeners), Missing(r, n));
    AwardMarks(r, Missing(r, n), v);
    if Notified(r.listeners) == {} && r.listeners != map[] {
      assert Unnotified(r.listeners) == r.listeners.Keys;
      assert |r.listeners| == |r.listeners.Keys| > 0;
      assert |g| > 0;
    }
  }

  lemma NotifyOneStirs<T>(r: Registry<T>, futs: map<nat, WaitState>, v: T)
    requires Linked(r, futs)
    ensures Linked(Notify(r, UpTo(1), v), futs) && Stirred(Notify(r, UpTo(1), v))
    ensures Notify(r, UpTo(1), v).closed == r.closed
  {
    CountedWhenLinked(r, futs);
    hide Linked, Stirred, Counted, Notify;
    NotifyKeepsLinked(r, futs, UpTo(1), v);
    NotifyStirs(r, UpTo(1), v);
  }

  lemma DropKeepsOrder<T>(r: Registry<T>, id: nat)
    requires OldestFirst(r)
    ensures OldestFirst(Drop(r, id))
    ensures Drop(r, id).listeners.Keys == r.listeners.Keys - {id}
  {
    if id in r.listeners && r.listeners[id].value.Some? && r.notified > 0 {
      GrantKeepsOrder(Remove(r, id).(notified := r.notified - 1), 1, r.listeners[id].value.value);
    }
  }

  lemma DropKeepsStirred<T>(r: Registry<T>, id: nat)
    requires Stirred(r) && Counted(r)
    ensures Stirred(Drop(r, id))
  {
    if id in r.listeners {
      if r.listeners[id].value.None? {
        assert Notified(Remove(r, id).listeners) == Notified(r.listeners);
      } else {
        RemoveCounts(r.listeners, id);
        var q := Remove(r, id).(notified := r.notified - 1);
        AwardMarks(q, 1, r.listeners[id].value.value);
        if Unnotified(q.listeners) == {} {
          assert Notified(q.listeners) == q.listeners.Keys;
        }
      }
    }
  }

  lemma DropWaiterKeepsStirred<T>(r: Registry<T>, futs: map<nat, WaitState>, st: WaitState)
    requires Linked(r, futs) && Stirred(r)
    ensures Stirred(DropWaiter(r, st))
  {
    CountedWhenLinked(r, futs);
    hide Linked, Stirred, Counted, Drop;
    if st.Waiting? {
      DropKeepsStirred(r, st.id);
    }
  }

  lemma DropKeepsTied<T>(r: Registry<T>, futs: map<nat, WaitState>, f: nat)
    requires Tied(r, futs) && OldestFirst(r) && f in futs
    ensures Tied(DropWaiter(r, futs[f]), futs - {f})
  {
    var s := DropWaiter(r, futs[f]);
    if futs[f].Waiting? {
      DropKeepsOrder(r, futs[f].id);
    }
    forall id | id in s.listeners ensures Holds(futs - {f}, id) {
      OthersHold(futs, f, Idle, id);
    }
  }

  lemma DropKeepsLinked<T>(r: Registry<T>, futs: map<nat, WaitState>, f: nat)
    requires Linked(r, futs) && f in futs
    ensures Linked(DropWaiter(r, futs[f]), futs - {f})
  {
    DropKeepsTied(r, futs, f);
    if futs[f].Waiting? {
      DropKeepsValid(r, futs[f].id);
      DropKeepsOrder(r, futs[f].id);
    }
  }

  lemma NewKeepsTied<T>(r: Registry<T>, futs: map<nat, WaitState>, f: nat)
    requires Tied(r, futs) && f !in futs
    ensures Tied(r, futs[f := Idle])
  {
    forall id | id in r.listeners ensures Holds(futs[f := Idle], id) {
      OthersHold(futs, f, Idle, id);
    }
  }

  /** Consuming a notification and dropping the listener, as every poll here does. */
  function Finish<T>(r: Registry<T>, id: nat): Registry<T>
    requires id in r.listeners
  {
    r.(listeners := r.listeners - {id}, notified := SaturatingSub(r.notified, 1),
       ledger := r.ledger.(parked := r.ledger.parked - {id}, consumed := r.ledger.consumed + 1))
  }

  lemma ConsumedDrop<T>(r: Registry<T>, id: nat)
    requires id in r.listeners && r.listeners[id].value.Some?
    ensures Drop(Consume(r, id), id) == Finish(r, id)
  {
    assert Drop(Consume(r, id), id).listeners == Finish(r, id).listeners;
    assert Drop(Consume(r, id), id).ledger.parked == Finish(r, id).ledger.parked;
  }

  lemma FinishKeepsTied<T>(r: Registry<T>, futs: map<nat, WaitState>, f: nat)
    requires Tied(r, futs) && f in futs && futs[f].Waiting?
    ensures Tied(Finish(r, futs[f].id), futs[f := Idle])
  {
    var s := Finish(r, futs[f].id);
    forall x | x in s.listeners ensures Holds(futs[f := Idle], x) {
      OthersHold(futs, f, Idle, x);
    }
  }

  lemma FinishKeepsLinked<T>(r: Registry<T>, futs: map<nat, WaitState>, f: nat)
    requires Linked(r, futs) && f in futs && futs[f].Waiting? && r.listeners[futs[f].id].value.Some?
    ensures Linked(Finish(r, futs[f].id), futs[f := Idle])
  {
    FinishKeepsTied(r, futs, f);
    ConsumedDrop(r, futs[f].id);
    ConsumeKeepsValid(r, futs[f].id);
    DropKeepsValid(Consume(r, futs[f].id), futs[f].id);
    assert OldestFirst(Finish(r, futs[f].id));
  }

  lemma ParkKeepsLinked<T>(r: Registry<T>, futs: map<nat, WaitState>, f: nat, task: nat)
    requires Linked(r, futs) && f in futs && futs[f].Waiting? && r.listeners[futs[f].id].value.None?
    ensures Linked(Park(r, futs[f].id, task), futs)
  {
    ParkKeepsValid(r, futs[f].id, task);
    assert Tied(Park(r, futs[f].id, task), futs);
  }

  /** Registering a new listener and parking there. */
  function Enter<T>(r: Registry<T>, task: nat): Registry<T> {
    Park(Listen(r), r.nextId, task)
  }

  lemma EnterKeepsHeld<T>(r: Registry<T>, futs: map<nat, WaitState>, f: nat, x: nat)
    requires Tied(r, futs[f := Idle]) && (x in r.listeners || x == r.nextId)
    ensures Holds(futs[f := Waiting(r.nextId)], x)
  {
    var was, now := futs[f := Idle], futs[f := Waiting(r.nextId)];
    if x == r.nextId {
      HoldsBy(now, f, x);
    } else {
      OthersHold(was, f, Waiting(r.nextId), x);
      assert was[f := Waiting(r.nextId)] == now;
    }
  }

  lemma EnterKeepsTied<T>(r: Registry<T>, futs: map<nat, WaitState>, f: nat, task: nat)
    requires Tied(r, futs[f := Idle])
    requires forall id :: id in r.listeners ==> id < r.nextId
    ensures Tied(Enter(r, task), futs[f := Waiting(r.nextId)])
  {
    var was, now := futs[f := Idle], futs[f := Waiting(r.nextId)];
    assert forall g :: g in now && g != f ==> g in was && was[g] == now[g];
    forall x | x in Enter(r, task).listeners ensures Holds(now, x) {
      EnterKeepsHeld(r, futs, f, x);
    }
    hide Holds;
  }

  lemma EnterKeepsLinked<T>(r: Registry<T>, futs: map<nat, WaitState>, f: nat, task: nat)
    requires Linked(r, futs[f := Idle])
    ensures Linked(Enter(r, task), futs[f := Waiting(r.nextId)])
  {
    ListenKeepsValid(r);
    ParkKeepsValid(Listen(r), r.nextId, task);
    EnterKeepsTied(r, futs, f, task);
    assert OldestFirst(Enter(r, task));
  }

  /** The three ways a poll can go. */
  lemma PollCases<T>(r: Registry<T>, st: WaitState, task: nat, free: bool)
    requires st.Waiting? ==> st.id in r.listeners
    ensures var o := PollWaiter(r, st, task, free);
      if st.Waiting? && r.listeners[st.id].value.None? then o == Outcome(Park(r, st.id, task), st, false)
      else
        var q := if st.Waiting? then Finish(r, st.id) else r;
        o == if free then Outcome(q, Idle, true) else Outcome(Enter(q, task), Waiting(q.nextId), false)
  {
    if st.Waiting? && r.listeners[st.id].value.Some? {
      ConsumedDrop(r, st.id);
    }
  }

  lemma PollKeepsLinked<T>(r: Registry<T>, futs: map<nat, WaitState>, f: nat, task: nat, free: bool)
    requires Linked(r, futs) && f in futs
    ensures var o := PollWaiter(r, futs[f], task, free);
      Linked(o.ev, futs[f := o.state])
  {
    var st := futs[f];
    PollCases(r, st, task, free);
    if st.Waiting? && r.listeners[st.id].value.None? {
      ParkKeepsLinked(r, futs, f, task);
      assert futs[f := st] == futs;
    } else {
      var q := if st.Waiting? then Finish(r, st.id) else r;
      assert Linked(q, futs[f := Idle]) by {
        if st.Waiting? {
          FinishKeepsLinked(r, futs, f);
        } else {
          assert futs[f := Idle] == futs;
        }
      }
      EnterKeepsLinked(q, futs, f, task);
    }
  }

  lemma PollKeepsClosed<T>(r: Registry<T>, st: WaitState, task: nat, free: bool)
    requires st.Waiting? ==> st.id in r.listeners
    ensures PollWaiter(r, st, task, free).ev.closed == r.closed
  {
  }

  lemma DropKeepsClosed<T>(r: Registry<T>, st: WaitState)
    ensures DropWaiter(r, st).closed == r.closed
  {
  }

  // ---- What a poll promises ----

  /** A poll is ready exactly if the wanted thing is free and the future is not parked unnotified. */
  lemma ReadyWhen<T>(r: Registry<T>, st: WaitState, task: nat, free: bool)
    requires st.Waiting? ==> st.id in r.listeners
    ensures PollWaiter(r, st, task, free).ready
       <==> free && (st.Waiting? ==> r.listeners[st.id].value.Some?)
    ensures PollWaiter(r, st, task, free).ready <==> PollWaiter(r, st, task, free).state.Idle?
  {
  }

  /** A pending poll while the thing is free leaves everyone else's notification alone. */
  lemma PendingKeepsStirred<T>(r: Registry<T>, st: WaitState, task: nat, free: bool)
    requires st.Waiting? ==> st.id in r.listeners
    requires Stirred(r) && free && !PollWaiter(r, st, task, free).ready
    ensures Stirred(PollWaiter(r, st, task, free).ev)
  {
    assert Notified(Park(r, st.id, task).listeners) == Notified(r.listeners);
  }

  /**
    If someone waits on a stirred event, some waiter is notified, and the waker
    its latest poll left has been woken since.
   */
  lemma SomeoneWasWoken<T>(r: Registry<T>, futs: map<nat, WaitState>) returns (f: nat)
    requires Linked(r, futs) && Stirred(r) && r.listeners != map[]
    ensures f in futs && futs[f].Waiting? && r.listeners[futs[f].id].value.Some?
    ensures futs[f].id in r.ledger.parked && r.ledger.parked[futs[f].id] in r.ledger.woken
  {
    var id :| id in Notified(r.listeners);
    assert Holds(futs, id);
    f :| f in futs && futs[f] == Waiting(id);
  }

  // ---- notify(1) ----

  /** With somebody notified already, or nobody there, `notify(1)` does nothing. */
  lemma NotifyOneIdle<T>(r: Registry<T>, v: T)
    requires r.notified > 0 || r.listeners == map[]
    ensures Notify(r, UpTo(1), v) == r
  {
    var g := Earliest(Unnotified(r.listeners), Missing(r, UpTo(1)));
    assert g == {} by {
      if r.listeners == map[] {
        assert Unnotified(r.listeners) == {};
      }
    }
    assert Mark(r.listeners, {}, v) == r.listeners;
  }

  /** With nobody notified, `notify(1)` gives the oldest listener a value. */
  lemma NotifyOnePicks<T>(r: Registry<T>, v: T, id: nat)
    requires Counted(r) && r.notified == 0
    requires id in r.listeners && forall x :: x in r.listeners ==> id <= x
    ensures Notify(r, UpTo(1), v).listeners == r.listeners[id := Entry(None, Some(v))]
    ensures Notify(r, UpTo(1), v).notified == 1 && Notify(r, UpTo(1), v).nextId == r.nextId
  {
    assert forall x :: x in r.listeners ==> x !in Notified(r.listeners);
    assert Unnotified(r.listeners) == r.listeners.Keys;
    assert Min(Unnotified(r.listeners)) == id;
    EarliestOne(Unnotified(r.listeners));
    assert Mark(r.listeners, {id}, v) == r.listeners[id := Entry(None, Some(v))];
  }

  // ---- An event with a single waiter ----

  lemma OneWaiterLeaves<T>(r: Registry<T>, st: WaitState)
    requires Linked(r, map[0 := st])
    ensures Linked(DropWaiter(r, st), map[0 := Idle])
  {
    hide Linked;
    DropKeepsLinked(r, map[0 := st], 0);
    assert map[0 := st] - {0} == map[];
    OneWaiterJoins(DropWaiter(r, st));
  }

  lemma OneWaiterJoins<T>(r: Registry<T>)
    requires Linked(r, map[])
    ensures Linked(r, map[0 := Idle])
  {
    NewKeepsTied(r, map[], 0);
    assert map[][0 := Idle] == map[0 := Idle];
  }

  /** A stirred event with one waiter has notified that one. */
  lemma OneWaiter<T>(r: Registry<T>, st: WaitState)
    requires Linked(r, map[0 := st]) && Stirred(r) && st.Waiting?
    ensures st.id in r.listeners && r.listeners[st.id].value.Some?
  {
    assert map[0 := st][0] == st;
    var id :| id in Notified(r.listeners);
    assert Holds(map[0 := st], id);
  }

  // ---- notify(usize::MAX) ----

  /** Every listener without an unread value gets `v`. */
  lemma NotifyAllReaches<T>(r: Registry<T>, v: T)
    ensures var ls := Notify(r, All, v).listeners;
      && ls.Keys == r.listeners.Keys
      && (forall id :: id in ls ==>
            ls[id].value == if r.listeners[id].value.Some? then r.listeners[id].value else Some(v))
  {
    var u := Unnotified(r.listeners);
    SubsetSize(u, r.listeners.Keys);
    EarliestAll(u, |r.listeners|);
  }

  // ---- New and closed events ----

  lemma CloseKeepsLinked<T>(r: Registry<T>, futs: map<nat, WaitState>)
    requires Linked(r, futs)
    ensures Linked(Close(r), futs)
  {
    CloseKeepsValid(r);
    assert OldestFirst(Close(r));
    assert Tied(Close(r), futs);
  }

  lemma NewIsLinked<T>()
    ensures Linked(NewRegistry<T>(), map[])
  {
    hide Valid;
    NewIsValid<T>();
  }
}
