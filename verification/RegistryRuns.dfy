/** What the listener registry guarantees over every run of operations. */
module RegistryRuns {
  import opened Options
  import opened NatSets
  import opened Registries

  datatype Op<T> =
    | OpListen
    | OpNotify(n: Count, v: T, additional: bool)
    | OpPoll(id: nat, task: nat)
    | OpDrop(id: nat)
    | OpClose

  /** Only a live `Event` notifies or closes; only a registered listener is polled. */
  ghost predicate Legal<T>(r: Registry<T>, op: Op<T>) {
    match op
    case OpListen => true
    case OpNotify(_, _, _) => !r.closed
    case OpPoll(id, _) => id in r.listeners
    case OpDrop(_) => true
    case OpClose => !r.closed
  }

  ghost function Step<T>(r: Registry<T>, op: Op<T>): Registry<T>
    requires Legal(r, op)
  {
    match op
    case OpListen => Listen(r)
    case OpNotify(n, v, additional) => if additional then NotifyAdditional(r, n, v) else Notify(r, n, v)
    case OpPoll(id, task) => Poll(r, id, task)
    case OpDrop(id) => Drop(r, id)
    case OpClose => Close(r)
  }

  ghost predicate LegalRun<T>(r: Registry<T>, ops: seq<Op<T>>)
    decreases |ops|
  {
    ops == [] || (Legal(r, ops[0]) && LegalRun(Step(r, ops[0]), ops[1..]))
  }

  ghost function Run<T>(r: Registry<T>, ops: seq<Op<T>>): Registry<T>
    requires LegalRun(r, ops)
    decreases |ops|
  {
    if ops == [] then r else Run(Step(r, ops[0]), ops[1..])
  }

  lemma StepKeepsValid<T>(r: Registry<T>, op: Op<T>)
    requires Valid(r) && Legal(r, op)
    ensures Valid(Step(r, op))
  {
    match op
    case OpListen => ListenKeepsValid(r);
    case OpNotify(n, v, additional) => GrantKeepsValid(r, if additional then Extra(r, n) else Missing(r, n), v);
    case OpPoll(id, task) => PollKeepsValid(r, id, task);
    case OpDrop(id) => DropKeepsValid(r, id);
    case OpClose => CloseKeepsValid(r);
  }

  lemma {:induction false} RunKeepsValid<T>(r: Registry<T>, ops: seq<Op<T>>)
    requires Valid(r) && LegalRun(r, ops)
    ensures Valid(Run(r, ops))
    decreases |ops|
  {
    if ops != [] {
      StepKeepsValid(r, ops[0]);
      RunKeepsValid(Step(r, ops[0]), ops[1..]);
    }
  }

  /**
    From a new event, however it is used: the counter counts, notifications are
    conserved, an entry holding a value holds no waker, and no stored waker is
    ever woken twice.
   */
  lemma EveryRun<T>(ops: seq<Op<T>>)
    requires LegalRun(NewRegistry(), ops)
    ensures var s := Run(NewRegistry<T>(), ops);
      && s.notified == |Notified(s.listeners)|
      && s.ledger.granted == s.ledger.consumed + s.ledger.discarded + |Notified(s.listeners)|
      && (forall id :: id in s.listeners && s.listeners[id].value.Some? ==> s.listeners[id].waker.None?)
      && (forall i, j :: 0 <= i < j < |s.ledger.woken| ==> s.ledger.woken[i].ticket != s.ledger.woken[j].ticket)
      && (forall id :: id in s.listeners && s.listeners[id].waker.Some? ==>
            s.listeners[id].waker.value !in s.ledger.woken)
  {
    hide Run, LegalRun, NewRegistry;
    NewIsValid<T>();
    RunKeepsValid(NewRegistry(), ops);
  }

  /** Neither the saturating decrement in a poll nor the zero test in a drop ever matters. */
  lemma CounterGuardsNeverFire<T>(ops: seq<Op<T>>, id: nat)
    requires LegalRun(NewRegistry(), ops)
    requires id in Run(NewRegistry<T>(), ops).listeners
    requires Run(NewRegistry<T>(), ops).listeners[id].value.Some?
    ensures Run(NewRegistry<T>(), ops).notified > 0
  {
    EveryRun(ops);
    assert id in Notified(Run(NewRegistry<T>(), ops).listeners);
  }

  // ---- The notify algebra ----

  function Larger(a: nat, b: nat): nat {
    if a < b then b else a
  }

  function Wanted<T>(r: Registry<T>, n: Count): nat {
    match n
    case All => |r.listeners|
    case UpTo(k) => k
  }

  lemma MarkedSplit<T>(r: Registry<T>)
    ensures |r.listeners| == |Notified(r.listeners)| + |Unnotified(r.listeners)|
  {
    assert r.listeners.Keys == Notified(r.listeners) + Unnotified(r.listeners);
    assert |r.listeners.Keys| == |Notified(r.listeners)| + |Unnotified(r.listeners)|;
  }

  /** What an award of `k` looks like from outside. */
  ghost predicate Picks<T>(r: Registry<T>, s: Registry<T>, v: T) {
    && s.listeners.Keys == r.listeners.Keys
    && Notified(r.listeners) <= Notified(s.listeners)
    && (forall id :: id in Notified(r.listeners) ==> s.listeners[id] == r.listeners[id])
    && (forall id :: id in Unnotified(s.listeners) ==> s.listeners[id] == r.listeners[id])
    && (forall id :: id in Notified(s.listeners) - Notified(r.listeners) ==> s.listeners[id] == Entry(None, Some(v)))
    && (forall a, b :: a in Notified(s.listeners) - Notified(r.listeners) && b in Unnotified(s.listeners) ==> a < b)
    && s.ledger.woken == r.ledger.woken + WakersOf(r.listeners, Notified(s.listeners) - Notified(r.listeners))
  }

  /** `notify(n)`: afterwards at least `n` (or all) are notified, the earliest first, no value overwritten. */
  lemma NotifyLeaves<T>(r: Registry<T>, n: Count, v: T)
    requires Counted(r)
    ensures var s := Notify(r, n, v);
      && Picks(r, s, v)
      && |Notified(s.listeners)| == Larger(|Notified(r.listeners)|, AtMost(Wanted(r, n), |r.listeners|))
  {
    MarkedSplit(r);
    AwardMarks(r, Missing(r, n), v);
    NewlyMarked(r, Missing(r, n), v);
  }

  /** Additional notify: exactly `n` more, as far as there are listeners to notify. */
  lemma AdditionalLeaves<T>(r: Registry<T>, n: Count, v: T)
    requires Counted(r)
    ensures var s := NotifyAdditional(r, n, v);
      && Picks(r, s, v)
      && |Notified(s.listeners)| == |Notified(r.listeners)| + AtMost(Wanted(r, n), |Unnotified(r.listeners)|)
  {
    MarkedSplit(r);
    AwardMarks(r, Extra(r, n), v);
    NewlyMarked(r, Extra(r, n), v);
  }

  lemma NewlyMarked<T>(r: Registry<T>, k: nat, v: T)
    ensures Notified(Award(r, k, v).listeners) - Notified(r.listeners) == Earliest(Unnotified(r.listeners), k)
  {
    AwardMarks(r, k, v);
  }

  /**
    Dropping the event wakes exactly the stored wakers, in ascending order of their
    listeners, and takes no value away.
   */
  lemma CloseWakesAll<T>(r: Registry<T>)
    ensures var s := Close(r);
      && s.closed && s.listeners.Keys == r.listeners.Keys
      && s.ledger.woken == r.ledger.woken + WakersOf(r.listeners, r.listeners.Keys)
      && (forall id :: id in r.listeners && r.listeners[id].waker.Some? ==>
            r.listeners[id].waker.value in s.ledger.woken)
      && (forall id :: id in r.listeners ==> s.listeners[id] == Entry(None, r.listeners[id].value))
  {
    forall id | id in r.listeners && r.listeners[id].waker.Some?
      ensures r.listeners[id].waker.value in WakersOf(r.listeners, r.listeners.Keys)
    {
      WakersOfMembers(r.listeners, r.listeners.Keys, r.listeners[id].waker.value);
    }
  }

  function CountMax(a: Count, b: Count): Count {
    if a.All? || b.All? then All else UpTo(Larger(a.n, b.n))
  }

  function CountSum(a: Count, b: Count): Count {
    if a.All? || b.All? then All else UpTo(a.n + b.n)
  }

  lemma GrantCounts<T>(r: Registry<T>, k: nat, v: T)
    requires Counted(r)
    ensures Counted(Grant(r, k, v))
    ensures Grant(r, k, v).notified == r.notified + AtMost(k, |Unnotified(r.listeners)|)
    ensures |Grant(r, k, v).listeners| == |r.listeners| == r.notified + |Unnotified(r.listeners)|
  {
    MarkedSplit(r);
    AwardMarks(r, k, v);
    assert Grant(r, k, v).listeners.Keys == r.listeners.Keys;
    assert |Grant(r, k, v).listeners| == |Grant(r, k, v).listeners.Keys| == |r.listeners.Keys|;
  }

  lemma GrantMarks<T>(r: Registry<T>, k: nat, v: T)
    ensures Notified(Grant(r, k, v).listeners) == Notified(r.listeners) + Earliest(Unnotified(r.listeners), k)
    ensures Unnotified(Grant(r, k, v).listeners) == Unnotified(r.listeners) - Earliest(Unnotified(r.listeners), k)
  {
    AwardMarks(r, k, v);
  }

  lemma GrantTwice<T>(r: Registry<T>, j: nat, v: T, k: nat, w: T, l: nat)
    requires j + k == l || (|Unnotified(r.listeners)| <= j + k && |Unnotified(r.listeners)| <= l)
    ensures Notified(Grant(Grant(r, j, v), k, w).listeners) == Notified(Grant(r, l, v).listeners)
  {
    GrantMarks(r, j, v);
    GrantMarks(Grant(r, j, v), k, w);
    GrantMarks(r, l, v);
    EarliestSplit(Unnotified(r.listeners), j, k, l);
  }

  /** Two notifies mark what the larger one alone would have marked. */
  lemma NotifyTwice<T>(r: Registry<T>, a: Count, v: T, b: Count, w: T)
    requires Counted(r)
    ensures Notified(Notify(Notify(r, a, v), b, w).listeners) == Notified(Notify(r, CountMax(a, b), v).listeners)
  {
    var j := Missing(r, a);
    GrantCounts(r, j, v);
    GrantTwice(r, j, v, Missing(Grant(r, j, v), b), w, Missing(r, CountMax(a, b)));
  }

  /** Two additional notifies mark what one for the sum would have marked. */
  lemma AdditionalTwice<T>(r: Registry<T>, a: Count, v: T, b: Count, w: T)
    requires Counted(r)
    ensures Notified(NotifyAdditional(NotifyAdditional(r, a, v), b, w).listeners)
         == Notified(NotifyAdditional(r, CountSum(a, b), v).listeners)
  {
    var j := Extra(r, a);
    GrantCounts(r, j, v);
    GrantTwice(r, j, v, Extra(Grant(r, j, v), b), w, Extra(r, CountSum(a, b)));
  }

  // ---- The life of one listener ----

  predicate Touches<T>(op: Op<T>, id: nat) {
    (op.OpPoll? || op.OpDrop?) && op.id == id
  }

  ghost predicate Untouched<T>(ops: seq<Op<T>>, id: nat) {
    forall op :: op in ops ==> !Touches(op, id)
  }

  lemma StepKeepsUnread<T>(r: Registry<T>, op: Op<T>, id: nat)
    requires Valid(r) && Legal(r, op) && !Touches(op, id)
    requires id in r.listeners && r.listeners[id].value.Some?
    ensures id in Step(r, op).listeners && Step(r, op).listeners[id].value == r.listeners[id].value
  {
  }

  /** Nothing but its own poll or drop changes an unread value. */
  lemma {:induction false} UnreadKept<T>(r: Registry<T>, ops: seq<Op<T>>, id: nat)
    requires Valid(r) && LegalRun(r, ops) && Untouched(ops, id)
    requires id in r.listeners && r.listeners[id].value.Some?
    ensures id in Run(r, ops).listeners && Run(r, ops).listeners[id].value == r.listeners[id].value
    decreases |ops|
  {
    if ops != [] {
      StepKeepsValid(r, ops[0]);
      assert ops[0] in ops;
      StepKeepsUnread(r, ops[0], id);
      UnreadKept(Step(r, ops[0]), ops[1..], id);
    }
  }

  /** The pending poll of `id` left `w`: it is still stored, or it was woken, for a value or the close. */
  ghost predicate Awaits<T>(r: Registry<T>, id: nat, w: Waker) {
    && id in r.ledger.parked && r.ledger.parked[id] == w
    && id in r.listeners
    && (|| r.listeners[id] == Entry(Some(w), None)
        || (&& r.listeners[id].waker.None?
            && w in r.ledger.woken
            && (r.listeners[id].value.Some? || r.closed)))
  }

  lemma StepKeepsParked<T>(r: Registry<T>, op: Op<T>, id: nat)
    requires Valid(r) && Legal(r, op) && !Touches(op, id) && id in r.ledger.parked
    ensures id in Step(r, op).ledger.parked && Step(r, op).ledger.parked[id] == r.ledger.parked[id]
  {
  }

  lemma {:induction false} RunKeepsParked<T>(r: Registry<T>, ops: seq<Op<T>>, id: nat)
    requires Valid(r) && LegalRun(r, ops) && Untouched(ops, id) && id in r.ledger.parked
    ensures id in Run(r, ops).ledger.parked && Run(r, ops).ledger.parked[id] == r.ledger.parked[id]
    decreases |ops|
  {
    if ops != [] {
      StepKeepsValid(r, ops[0]);
      assert ops[0] in ops;
      StepKeepsParked(r, ops[0], id);
      RunKeepsParked(Step(r, ops[0]), ops[1..], id);
    }
  }

  /** A pending poll is never forgotten: until it is polled again or dropped, its waker waits or has been woken. */
  lemma PendingPollIsKept<T>(r: Registry<T>, id: nat, task: nat, ops: seq<Op<T>>)
    requires Valid(r) && id in r.listeners && r.listeners[id].value.None?
    requires LegalRun(Poll(r, id, task), ops) && Untouched(ops, id)
    ensures Awaits(Run(Poll(r, id, task), ops), id, Waker(task, r.ledger.tickets))
  {
    var s := Poll(r, id, task);
    PollKeepsValid(r, id, task);
    RunKeepsValid(s, ops);
    RunKeepsParked(s, ops, id);
    var t := Run(s, ops);
    assert ParkedKept(t) && StoredFresh(t);
  }

  /** A notification is thrown away only when nobody is left to take it. */
  lemma DiscardMeansNobodyWaits<T>(r: Registry<T>, op: Op<T>)
    requires Valid(r) && Legal(r, op)
    ensures Step(r, op).ledger.discarded != r.ledger.discarded ==>
              && op.OpDrop?
              && Step(r, op).ledger.discarded == r.ledger.discarded + 1
              && Unnotified(Step(r, op).listeners) == {}
  {
    if op.OpDrop? && op.id in r.listeners && r.listeners[op.id].value.Some? {
      assert op.id in Notified(r.listeners);
      var q := Remove(r, op.id).(notified := r.notified - 1);
      AwardMarks(q, 1, r.listeners[op.id].value.value);
    }
  }
}
