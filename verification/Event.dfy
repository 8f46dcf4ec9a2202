/**
  The event as the program keeps it: one mutable registry shared by the event and
  its listeners, walked in id order. Every method is proved to do what the
  function of the same name in `Registries` says.
 */
module Events {
  import opened Options
  import opened NatSets
  import opened Registries

  class Event<T> {
    var listeners: map<nat, Entry<T>>
    var nextId: nat
    var notified: nat
    var closed: bool
    var ledger: Ledger  // the history of this event, which the program does not keep

    ghost function State(): Registry<T>
      reads this
    {
      Registry(listeners, nextId, notified, closed, ledger)
    }

    constructor ()
      ensures State() == NewRegistry()
    {
      listeners, nextId, notified, closed := map[], 0, 0, false;
      ledger := Ledger([], map[], 0, 0, 0, 0);
    }

    /** Gives an entry `value` (if any) and wakes its stored waker, which the entry gives up. */
    method WakeEntry(id: nat, value: Option<T>)
      requires id in listeners
      modifies this
      ensures var r := old(State());
        State() == r.(listeners := r.listeners[id := Entry(None, value)],
                      ledger := r.ledger.(woken := r.ledger.woken + StoredWaker(r.listeners[id])))
    {
      ledger := ledger.(woken := ledger.woken + StoredWaker(listeners[id]));
      listeners := listeners[id := Entry(None, value)];
    }

    /** The walk shared by both notify flavours: the first `count` unnotified entries get `v`. */
    method Walk(count: nat, v: T)
      requires forall id :: id in listeners ==> id < nextId
      modifies this
      ensures State() == Grant(old(State()), count, v)
    {
      ghost var r := State();
      ghost var u := Unnotified(listeners);
      var marked := 0;
      var id := 0;
      StartWalk(r, v);
      while id < nextId && marked < count
        invariant id <= nextId
        invariant marked == |Below(u, id)| <= count
        invariant State() == Deliver(r, Below(u, id), v)
      {
        if id in listeners && listeners[id].value.None? {
          WalkPicks(r, id, v);
          WakeEntry(id, Some(v));
          marked := marked + 1;
        } else {
          WalkSkips(r, id, v);
        }
        id := id + 1;
      }
      WalkEnds(r, id, count);
      notified := notified + marked;
      ledger := ledger.(granted := ledger.granted + marked);
    }

    method NotifyInner(n: Count, v: T)
      requires Valid(State())
      modifies this
      ensures State() == Notify(old(State()), n, v)
      ensures Valid(State())
    {
      var count := match n
        case All => |listeners|
        case UpTo(k) => SaturatingSub(k, notified);
      GrantKeepsValid(State(), count, v);
      Walk(count, v);
    }

    method NotifyAdditional(n: Count, v: T)
      requires Valid(State())
      modifies this
      ensures State() == Registries.NotifyAdditional(old(State()), n, v)
      ensures Valid(State())
    {
      var count := match n
        case All => |listeners|
        case UpTo(k) => if k < |listeners| then k else |listeners|;
      GrantKeepsValid(State(), count, v);
      Walk(count, v);
    }

    method Listen() returns (id: nat)
      requires Valid(State())
      modifies this
      ensures id == old(nextId)
      ensures State() == Registries.Listen(old(State()))
      ensures Valid(State())
    {
      ListenKeepsValid(State());
      id := nextId;
      nextId := nextId + 1;
      listeners := listeners[id := Entry(None, None)];
    }

    /** `EventListener::poll` for the listener `id`, with a waker of `task`. */
    method PollListener(id: nat, task: nat) returns (value: Option<T>)
      requires Valid(State()) && id in listeners
      modifies this
      ensures value == old(listeners)[id].value
      ensures State() == Poll(old(State()), id, task)
      ensures Valid(State())
    {
      PollKeepsValid(State(), id, task);
      value := listeners[id].value;
      if value.Some? {
        listeners := listeners[id := listeners[id].(value := None)];
        notified := SaturatingSub(notified, 1);
        ledger := ledger.(parked := ledger.parked - {id}, consumed := ledger.consumed + 1);
      } else {
        var w := Waker(task, ledger.tickets);
        listeners := listeners[id := listeners[id].(waker := Some(w))];
        ledger := ledger.(parked := ledger.parked[id := w], tickets := ledger.tickets + 1);
      }
    }

    /** `EventListener::drop` for the listener `id`. */
    method DropListener(id: nat)
      requires Valid(State())
      modifies this
      ensures State() == Drop(old(State()), id)
      ensures Valid(State())
    {
      DropKeepsValid(State(), id);
      Unregister(id);
    }

    method Unregister(id: nat)
      requires forall x :: x in listeners ==> x < nextId
      modifies this
      ensures State() == Drop(old(State()), id)
    {
      if id !in listeners {
        return;
      }
      var entry := listeners[id];
      listeners := listeners - {id};
      ledger := ledger.(parked := ledger.parked - {id});
      if entry.value.None? || notified == 0 {
        return;
      }
      notified := notified - 1;
      HandOff(entry.value.value);
    }

    /** Gives the value of a dropped listener to the first unnotified one. */
    method HandOff(v: T)
      requires forall id :: id in listeners ==> id < nextId
      modifies this
      ensures var a := Award(old(State()), 1, v);
        State() == a.(ledger := a.ledger.(discarded := old(ledger).discarded + (old(notified) + 1 - a.notified)))
    {
      ghost var r := State();
      var next := 0;
      while next < nextId && !(next in listeners && listeners[next].value.None?)
        invariant next <= nextId
        invariant Below(Unnotified(listeners), next) == {}
      {
        next := next + 1;
      }
      if next == nextId {
        NobodyWaits(r, v);
        ledger := ledger.(discarded := ledger.discarded + 1);
      } else {
        FirstWaits(r, next, v);
        WakeEntry(next, Some(v));
        notified := notified + 1;
      }
    }

    /** `Event::drop`. */
    method Close()
      requires Valid(State())
      modifies this
      ensures State() == Registries.Close(old(State()))
      ensures Valid(State())
    {
      ghost var r := State();
      CloseKeepsValid(r);
      closed := true;
      WakeAll();
    }

    method WakeAll()
      requires forall id :: id in listeners ==> id < nextId
      modifies this
      ensures State() == Registries.Close(old(State())).(closed := old(closed))
    {
      ghost var r := State();
      var id := 0;
      UnparkEnds(r);
      while id < nextId
        invariant id <= nextId
        invariant State() == UnparkBelow(r, id)
      {
        if id in listeners {
          UnparkPicks(r, id);
          WakeEntry(id, listeners[id].value);
        } else {
          UnparkSkips(r, id);
        }
        id := id + 1;
      }
    }
  }

  // ---- The walks, one id at a time ----

  function Below(u: set<nat>, id: nat): set<nat> {
    set x | x in u && x < id
  }

  lemma WakersOfSnoc<T>(ls: map<nat, Entry<T>>, g: set<nat>, id: nat)
    requires g <= ls.Keys && id in ls && forall x :: x in g ==> x < id
    ensures WakersOf(ls, g + {id}) == WakersOf(ls, g) + StoredWaker(ls[id])
  {
    assert Max(g + {id}) == id;
    assert g + {id} - {id} == g;
  }

  lemma StartWalk<T>(r: Registry<T>, v: T)
    ensures Below(Unnotified(r.listeners), 0) == {}
    ensures r == Deliver(r, {}, v)
  {
    assert Mark(r.listeners, {}, v) == r.listeners;
  }

  lemma WalkPicks<T>(r: Registry<T>, id: nat, v: T)
    requires id in Unnotified(r.listeners)
    ensures var u := Unnotified(r.listeners); var s := Deliver(r, Below(u, id), v);
      && |Below(u, id + 1)| == |Below(u, id)| + 1
      && s.listeners[id] == r.listeners[id]
      && Deliver(r, Below(u, id + 1), v) ==
           s.(listeners := s.listeners[id := Entry(None, Some(v))],
              ledger := s.ledger.(woken := s.ledger.woken + StoredWaker(r.listeners[id])))
  {
    var u := Unnotified(r.listeners);
    var g := Below(u, id);
    assert Below(u, id + 1) == g + {id};
    WakersOfSnoc(r.listeners, g, id);
    assert Mark(r.listeners, g + {id}, v) == Mark(r.listeners, g, v)[id := Entry(None, Some(v))];
  }

  lemma WalkSkips<T>(r: Registry<T>, id: nat, v: T)
    requires id !in Unnotified(Deliver(r, Below(Unnotified(r.listeners), id), v).listeners)
    ensures Below(Unnotified(r.listeners), id + 1) == Below(Unnotified(r.listeners), id)
  {
    var u := Unnotified(r.listeners);
    var g := Below(u, id);
    assert Unnotified(Mark(r.listeners, g, v)) == u - g;
  }

  lemma WalkEnds<T>(r: Registry<T>, id: nat, count: nat)
    requires forall x :: x in r.listeners ==> x < r.nextId
    requires id <= r.nextId && |Below(Unnotified(r.listeners), id)| <= count
    requires id == r.nextId || |Below(Unnotified(r.listeners), id)| == count
    ensures Below(Unnotified(r.listeners), id) == Earliest(Unnotified(r.listeners), count)
  {
    var u := Unnotified(r.listeners);
    var g := Below(u, id);
    assert id == r.nextId ==> g == u;
    SubsetSize(g, u);
    EarliestIsUnique(g, Earliest(u, count), u, count);
  }

  lemma NobodyWaits<T>(r: Registry<T>, v: T)
    requires Below(Unnotified(r.listeners), r.nextId) == {} && forall x :: x in r.listeners ==> x < r.nextId
    ensures Award(r, 1, v) == r
  {
    assert Unnotified(r.listeners) == Below(Unnotified(r.listeners), r.nextId);
    EarliestAll({}, 1);
    StartWalk(r, v);
  }

  lemma FirstWaits<T>(r: Registry<T>, next: nat, v: T)
    requires next in Unnotified(r.listeners) && Below(Unnotified(r.listeners), next) == {}
    ensures Award(r, 1, v) ==
              r.(listeners := r.listeners[next := Entry(None, Some(v))],
                 notified := r.notified + 1,
                 ledger := r.ledger.(woken := r.ledger.woken + StoredWaker(r.listeners[next])))
  {
    var u := Unnotified(r.listeners);
    assert Min(u) == next by {
      assert Min(u) !in Below(u, next);
    }
    EarliestOne(u);
    WakersOfSnoc(r.listeners, {}, next);
    assert {} + {next} == {next};
    assert Mark(r.listeners, {next}, v) == r.listeners[next := Entry(None, Some(v))];
  }

  /** The event while its listeners up to `id` have been woken. */
  ghost function UnparkBelow<T>(r: Registry<T>, id: nat): Registry<T> {
    var g := Below(r.listeners.Keys, id);
    r.(listeners := Unpark(r.listeners, g),
       ledger := r.ledger.(woken := r.ledger.woken + WakersOf(r.listeners, g)))
  }

  lemma UnparkEnds<T>(r: Registry<T>)
    ensures UnparkBelow(r, 0) == r
    ensures (forall x :: x in r.listeners ==> x < r.nextId) ==>
              UnparkBelow(r, r.nextId) == Registries.Close(r).(closed := r.closed)
  {
    assert UnparkBelow(r, 0).listeners == r.listeners;
    if forall x :: x in r.listeners ==> x < r.nextId {
      assert Below(r.listeners.Keys, r.nextId) == r.listeners.Keys;
    }
  }

  lemma UnparkSkips<T>(r: Registry<T>, id: nat)
    requires id !in r.listeners
    ensures UnparkBelow(r, id + 1) == UnparkBelow(r, id)
  {
    assert Below(r.listeners.Keys, id + 1) == Below(r.listeners.Keys, id);
  }

  lemma UnparkPicks<T>(r: Registry<T>, id: nat)
    requires id in r.listeners
    ensures var s := UnparkBelow(r, id);
      && s.listeners[id] == r.listeners[id]
      && UnparkBelow(r, id + 1) ==
           s.(listeners := s.listeners[id := Entry(None, r.listeners[id].value)],
              ledger := s.ledger.(woken := s.ledger.woken + StoredWaker(r.listeners[id])))
  {
    var g := Below(r.listeners.Keys, id);
    assert Below(r.listeners.Keys, id + 1) == g + {id};
    WakersOfSnoc(r.listeners, g, id);
    assert Unpark(r.listeners, g + {id}) == Unpark(r.listeners, g)[id := Entry(None, r.listeners[id].value)];
  }
}
