/**
  The listener registry behind an `Event`, as values: one function for every
  operation, the invariants the registry keeps, and what runs of operations
  guarantee. The notify functions are stated by *which* listeners they pick
  (the earliest unnotified ones), not by how the loop finds them.
 */
module Registries {
  import opened Options
  import opened NatSets

  /** A clone of a task's waker. The ticket tells one stored clone from another. */
  datatype Waker = Waker(task: nat, ticket: nat)

  datatype Entry<T> = Entry(waker: Option<Waker>, value: Option<T>)

  /** How many listeners to notify; `All` is `usize::MAX`. */
  datatype Count = All | UpTo(n: nat)

  /**
    What happened so far: the wakers woken (in order), for every listener whose
    latest poll was pending the waker that poll left, the tickets used up, and
    the fate of every notification.
   */
  datatype Ledger = Ledger(
    woken: seq<Waker>, parked: map<nat, Waker>, tickets: nat,
    granted: nat, consumed: nat, discarded: nat)

  datatype Registry<T> = Registry(
    listeners: map<nat, Entry<T>>, nextId: nat, notified: nat, closed: bool, ledger: Ledger)

  function NewRegistry<T>(): Registry<T> {
    Registry(map[], 0, 0, false, Ledger([], map[], 0, 0, 0, 0))
  }

  function Unnotified<T>(ls: map<nat, Entry<T>>): set<nat> {
    set id | id in ls && ls[id].value.None?
  }

  function Notified<T>(ls: map<nat, Entry<T>>): set<nat> {
    set id | id in ls && ls[id].value.Some?
  }

  function Mark<T>(ls: map<nat, Entry<T>>, g: set<nat>, v: T): map<nat, Entry<T>> {
    map id | id in ls :: if id in g then Entry(None, Some(v)) else ls[id]
  }

  function StoredWaker<T>(e: Entry<T>): seq<Waker> {
    if e.waker.Some? then [e.waker.value] else []
  }

  /** The wakers stored for the listeners `g`, in ascending order of their ids. */
  ghost function WakersOf<T>(ls: map<nat, Entry<T>>, g: set<nat>): seq<Waker>
    requires g <= ls.Keys
  {
    if g == {} then [] else
      var m := Max(g);
      WakersOf(ls, g - {m}) + StoredWaker(ls[m])
  }

  function SaturatingSub(a: nat, b: nat): nat {
    if a > b then a - b else 0
  }

  // ---- Operations ----

  /** Hands `v` to the listeners `g`, waking them, with the counter not yet raised. */
  ghost function Deliver<T>(r: Registry<T>, g: set<nat>, v: T): Registry<T>
    requires g <= r.listeners.Keys
  {
    r.(listeners := Mark(r.listeners, g, v),
       ledger := r.ledger.(woken := r.ledger.woken + WakersOf(r.listeners, g)))
  }

  /** Hands `v` to the `k` earliest unnotified listeners. */
  ghost function Award<T>(r: Registry<T>, k: nat, v: T): Registry<T> {
    var g := Earliest(Unnotified(r.listeners), k);
    Deliver(r, g, v).(notified := r.notified + |g|)
  }

  ghost function Grant<T>(r: Registry<T>, k: nat, v: T): Registry<T> {
    var a := Award(r, k, v);
    a.(ledger := a.ledger.(granted := r.ledger.granted + (a.notified - r.notified)))
  }

  function Missing<T>(r: Registry<T>, n: Count): nat {
    match n
    case All => |r.listeners|
    case UpTo(k) => SaturatingSub(k, r.notified)
  }

  function Extra<T>(r: Registry<T>, n: Count): nat {
    match n
    case All => |r.listeners|
    case UpTo(k) => AtMost(k, |r.listeners|)
  }

  ghost function Notify<T>(r: Registry<T>, n: Count, v: T): Registry<T> {
    Grant(r, Missing(r, n), v)
  }

  ghost function NotifyAdditional<T>(r: Registry<T>, n: Count, v: T): Registry<T> {
    Grant(r, Extra(r, n), v)
  }

  /** Registers a listener; its id is the old `nextId`. */
  function Listen<T>(r: Registry<T>): Registry<T> {
    r.(listeners := r.listeners[r.nextId := Entry(None, None)], nextId := r.nextId + 1)
  }

  /** A poll that finds a value takes it. */
  function Consume<T>(r: Registry<T>, id: nat): Registry<T>
    requires id in r.listeners
  {
    r.(listeners := r.listeners[id := r.listeners[id].(value := None)],
       notified := SaturatingSub(r.notified, 1),
       ledger := r.ledger.(parked := r.ledger.parked - {id}, consumed := r.ledger.consumed + 1))
  }

  /** A poll that finds none stores a fresh clone of the task's waker. */
  function Park<T>(r: Registry<T>, id: nat, task: nat): Registry<T>
    requires id in r.listeners
  {
    var w := Waker(task, r.ledger.tickets);
    r.(listeners := r.listeners[id := r.listeners[id].(waker := Some(w))],
       ledger := r.ledger.(parked := r.ledger.parked[id := w], tickets := r.ledger.tickets + 1))
  }

  /** Polls listener `id` with a waker of `task`; ready exactly if a value was there. */
  function Poll<T>(r: Registry<T>, id: nat, task: nat): Registry<T>
    requires id in r.listeners
  {
    if r.listeners[id].value.Some? then Consume(r, id) else Park(r, id, task)
  }

  function Remove<T>(r: Registry<T>, id: nat): Registry<T> {
    r.(listeners := r.listeners - {id}, ledger := r.ledger.(parked := r.ledger.parked - {id}))
  }

  /** Drops listener `id`; an unread value goes to the next unnotified listener, if any. */
  ghost function Drop<T>(r: Registry<T>, id: nat): Registry<T> {
    if id !in r.listeners then r
    else if r.listeners[id].value.None? || r.notified == 0 then Remove(r, id)
    else
      var a := Award(Remove(r, id).(notified := r.notified - 1), 1, r.listeners[id].value.value);
      a.(ledger := a.ledger.(discarded := r.ledger.discarded + (r.notified - a.notified)))
  }

  function Unpark<T>(ls: map<nat, Entry<T>>, g: set<nat>): map<nat, Entry<T>> {
    map id | id in ls :: if id in g then Entry(None, ls[id].value) else ls[id]
  }

  /** Drops the event: every stored waker is woken. */
  ghost function Close<T>(r: Registry<T>): Registry<T> {
    r.(closed := true,
       listeners := Unpark(r.listeners, r.listeners.Keys),
       ledger := r.ledger.(woken := r.ledger.woken + WakersOf(r.listeners, r.listeners.Keys)))
  }

  // ---- Invariants ----

  /** The cached counter is the number of entries holding a value. */
  ghost predicate Counted<T>(r: Registry<T>) {
    r.notified == |Notified(r.listeners)|
  }

  ghost predicate DistinctTickets(s: seq<Waker>) {
    forall i, j :: 0 <= i < j < |s| ==> s[i].ticket != s[j].ticket
  }

  /** A pending poll's waker is stored, or it was woken because of a value or the close. */
  ghost predicate ParkedKept<T>(r: Registry<T>) {
    forall id :: id in r.ledger.parked ==>
      && id in r.listeners
      && (|| r.listeners[id].waker == Some(r.ledger.parked[id])
          || (&& r.listeners[id].waker.None?
              && r.ledger.parked[id] in r.ledger.woken
              && (r.listeners[id].value.Some? || r.closed)))
  }

  ghost predicate Unspent(woken: seq<Waker>, w: Waker) {
    forall u :: u in woken ==> u.ticket != w.ticket
  }

  /** Stored wakers are those of the latest pending polls, and none of them was woken. */
  ghost predicate StoredFresh<T>(r: Registry<T>) {
    && (forall id :: id in r.listeners && r.listeners[id].waker.Some? ==>
          id in r.ledger.parked && r.ledger.parked[id] == r.listeners[id].waker.value)
    && (forall id :: id in r.listeners && r.listeners[id].waker.Some? ==>
          Unspent(r.ledger.woken, r.listeners[id].waker.value))
  }

  ghost predicate TicketsUsed(l: Ledger) {
    && (forall id :: id in l.parked ==> l.parked[id].ticket < l.tickets)
    && (forall a, b :: a in l.parked && b in l.parked && a != b ==> l.parked[a].ticket != l.parked[b].ticket)
    && (forall w :: w in l.woken ==> w.ticket < l.tickets)
    && DistinctTickets(l.woken)
  }

  ghost predicate Sound<T>(r: Registry<T>) {
    && (forall id :: id in r.listeners ==> id < r.nextId)
    && (forall id :: id in r.listeners && r.listeners[id].value.Some? ==> r.listeners[id].waker.None?)
    && Counted(r)
    && ParkedKept(r)
    && StoredFresh(r)
    && TicketsUsed(r.ledger)
  }

  /** Every notification granted was consumed, was discarded, or is still unread. */
  ghost predicate Balanced<T>(r: Registry<T>) {
    r.ledger.granted == r.ledger.consumed + r.ledger.discarded + r.notified
  }

  ghost predicate Valid<T>(r: Registry<T>) {
    Sound(r) && Balanced(r)
  }

  // ---- Every operation keeps the invariants ----

  lemma {:induction false} WakersOfMembers<T>(ls: map<nat, Entry<T>>, g: set<nat>, w: Waker)
    requires g <= ls.Keys
    ensures w in WakersOf(ls, g) <==> exists id :: id in g && ls[id].waker == Some(w)
    decreases |g|
  {
    if g != {} {
      var m := Max(g);
      WakersOfMembers(ls, g - {m}, w);
      assert g == (g - {m}) + {m};
    }
  }

  lemma {:induction false} WakersOfDistinct<T>(ls: map<nat, Entry<T>>, g: set<nat>)
    requires g <= ls.Keys
    requires forall a, b :: a in ls && b in ls && a != b && ls[a].waker.Some? && ls[b].waker.Some? ==>
               ls[a].waker.value.ticket != ls[b].waker.value.ticket
    ensures DistinctTickets(WakersOf(ls, g))
    decreases |g|
  {
    if g != {} {
      var m := Max(g);
      WakersOfDistinct(ls, g - {m});
      var rest := WakersOf(ls, g - {m});
      forall i | 0 <= i < |rest| && ls[m].waker.Some?
        ensures rest[i].ticket != ls[m].waker.value.ticket
      {
        WakersOfMembers(ls, g - {m}, rest[i]);
      }
    }
  }

  /** Waking stored wakers at once keeps the log free of repeats. */
  lemma LogStaysDistinct<T>(r: Registry<T>, g: set<nat>)
    requires g <= r.listeners.Keys && StoredFresh(r) && TicketsUsed(r.ledger)
    ensures DistinctTickets(r.ledger.woken + WakersOf(r.listeners, g))
    ensures forall w :: w in r.ledger.woken + WakersOf(r.listeners, g) ==> w.ticket < r.ledger.tickets
    ensures forall id :: id in g && r.listeners[id].waker.Some? ==>
              r.listeners[id].waker.value in WakersOf(r.listeners, g)
    ensures forall id :: id in r.listeners && id !in g && r.listeners[id].waker.Some? ==>
              Unspent(r.ledger.woken + WakersOf(r.listeners, g), r.listeners[id].waker.value)
  {
    WakersOfDistinct(r.listeners, g);
    forall w ensures w in WakersOf(r.listeners, g) <==> exists id :: id in g && r.listeners[id].waker == Some(w) {
      WakersOfMembers(r.listeners, g, w);
    }
    var log, added := r.ledger.woken, WakersOf(r.listeners, g);
    forall i, j | 0 <= i < |log| && 0 <= j < |added| ensures log[i].ticket != added[j].ticket {
      assert log[i] in log && added[j] in added;
    }
  }

  lemma NewIsValid<T>()
    ensures Valid(NewRegistry<T>())
  {
    assert Notified(NewRegistry<T>().listeners) == {};
  }

  lemma AwardMarks<T>(r: Registry<T>, k: nat, v: T)
    ensures var g := Earliest(Unnotified(r.listeners), k);
      && Notified(Award(r, k, v).listeners) == Notified(r.listeners) + g
      && Unnotified(Award(r, k, v).listeners) == Unnotified(r.listeners) - g
      && Notified(r.listeners) !! g
      && |Notified(Award(r, k, v).listeners)| == |Notified(r.listeners)| + |g|
  {
    var g := Earliest(Unnotified(r.listeners), k);
    assert Notified(Award(r, k, v).listeners) == Notified(r.listeners) + g;
    assert Unnotified(Award(r, k, v).listeners) == Unnotified(r.listeners) - g;
  }

  lemma AwardKeepsParked<T>(r: Registry<T>, k: nat, v: T)
    requires Sound(r)
    ensures ParkedKept(Award(r, k, v))
  {
    LogStaysDistinct(r, Earliest(Unnotified(r.listeners), k));
  }

  lemma AwardKeepsTickets<T>(r: Registry<T>, k: nat, v: T)
    requires Sound(r)
    ensures StoredFresh(Award(r, k, v)) && TicketsUsed(Award(r, k, v).ledger)
  {
    LogStaysDistinct(r, Earliest(Unnotified(r.listeners), k));
  }

  lemma AwardKeepsSound<T>(r: Registry<T>, k: nat, v: T)
    requires Sound(r)
    ensures Sound(Award(r, k, v))
  {
    AwardMarks(r, k, v);
    AwardKeepsParked(r, k, v);
    AwardKeepsTickets(r, k, v);
  }

  lemma GrantKeepsValid<T>(r: Registry<T>, k: nat, v: T)
    requires Valid(r)
    ensures Valid(Grant(r, k, v))
  {
    AwardKeepsSound(r, k, v);
  }

  lemma RemoveKeepsParked<T>(r: Registry<T>, id: nat)
    requires ParkedKept(r) && StoredFresh(r) && TicketsUsed(r.ledger) && id in r.listeners
    ensures ParkedKept(Remove(r, id)) && StoredFresh(Remove(r, id)) && TicketsUsed(Remove(r, id).ledger)
  {
  }

  lemma RemoveCounts<T>(ls: map<nat, Entry<T>>, id: nat)
    requires id in ls
    ensures |Notified(ls)| == |Notified(ls - {id})| + (if ls[id].value.Some? then 1 else 0)
  {
    assert Notified(ls - {id}) == Notified(ls) - {id};
    assert ls[id].value.Some? ==> id in Notified(ls);
  }

  lemma RemoveKeepsSound<T>(r: Registry<T>, id: nat)
    requires Sound(r) && id in r.listeners
    ensures r.listeners[id].value.None? ==> Sound(Remove(r, id))
    ensures r.listeners[id].value.Some? ==> r.notified > 0 && Sound(Remove(r, id).(notified := r.notified - 1))
  {
    RemoveCounts(r.listeners, id);
    RemoveKeepsParked(r, id);
  }

  lemma DropKeepsValid<T>(r: Registry<T>, id: nat)
    requires Valid(r)
    ensures Valid(Drop(r, id))
  {
    if id in r.listeners {
      RemoveKeepsSound(r, id);
      if r.listeners[id].value.Some? {
        AwardKeepsSound(Remove(r, id).(notified := r.notified - 1), 1, r.listeners[id].value.value);
      }
    }
  }

  lemma ConsumeKeepsValid<T>(r: Registry<T>, id: nat)
    requires Valid(r) && id in r.listeners && r.listeners[id].value.Some?
    ensures Valid(Consume(r, id))
  {
    assert Notified(Consume(r, id).listeners) == Notified(r.listeners) - {id};
    assert id in Notified(r.listeners);
  }

  lemma ParkKeepsValid<T>(r: Registry<T>, id: nat, task: nat)
    requires Valid(r) && id in r.listeners && r.listeners[id].value.None?
    ensures Valid(Park(r, id, task))
  {
    var s := Park(r, id, task);
    assert Notified(s.listeners) == Notified(r.listeners);
    assert ParkedKept(s);
    assert StoredFresh(s);
    assert TicketsUsed(s.ledger);
  }

  lemma PollKeepsValid<T>(r: Registry<T>, id: nat, task: nat)
    requires Valid(r) && id in r.listeners
    ensures Valid(Poll(r, id, task))
  {
    if r.listeners[id].value.Some? {
      ConsumeKeepsValid(r, id);
    } else {
      ParkKeepsValid(r, id, task);
    }
  }

  lemma ListenKeepsValid<T>(r: Registry<T>)
    requires Valid(r)
    ensures Valid(Listen(r))
  {
    assert Notified(Listen(r).listeners) == Notified(r.listeners);
  }

  lemma CloseKeepsValid<T>(r: Registry<T>)
    requires Valid(r)
    ensures Valid(Close(r))
  {
    assert Notified(Close(r).listeners) == Notified(r.listeners);
    LogStaysDistinct(r, r.listeners.Keys);
  }
}
