/**
  An event whose users drop a listener as soon as they have consumed its
  notification, over every run; and why the event's clients all do so.
 */
module WaiterRuns {
  import opened Options
  import opened Registries
  import R = RegistryRuns
  import opened Waiters
  import opened Streams

  /** Any operation on the registry, except that a value is taken together with its listener. */
  datatype Tidy<T> =
    | Plain(op: R.Op<T>)
    | Take(id: nat)

  ghost predicate Legal<T>(r: Registry<T>, t: Tidy<T>) {
    match t
    case Plain(op) => R.Legal(r, op) && (op.OpPoll? ==> r.listeners[op.id].value.None?)
    case Take(id) => id in r.listeners && r.listeners[id].value.Some?
  }

  ghost function Step<T>(r: Registry<T>, t: Tidy<T>): Registry<T>
    requires Legal(r, t)
  {
    match t
    case Plain(op) => R.Step(r, op)
    case Take(id) => Drop(Consume(r, id), id)
  }

  ghost predicate LegalRun<T>(r: Registry<T>, ts: seq<Tidy<T>>)
    decreases |ts|
  {
    ts == [] || (Legal(r, ts[0]) && LegalRun(Step(r, ts[0]), ts[1..]))
  }

  ghost function Run<T>(r: Registry<T>, ts: seq<Tidy<T>>): Registry<T>
    requires LegalRun(r, ts)
    decreases |ts|
  {
    if ts == [] then r else Run(Step(r, ts[0]), ts[1..])
  }

  lemma StepKeepsOrder<T>(r: Registry<T>, t: Tidy<T>)
    requires Valid(r) && OldestFirst(r) && Legal(r, t)
    ensures Valid(Step(r, t)) && OldestFirst(Step(r, t))
  {
    match t
    case Take(id) =>
      ConsumeKeepsValid(r, id);
      DropKeepsValid(Consume(r, id), id);
      ConsumedDrop(r, id);
    case Plain(op) =>
      R.StepKeepsValid(r, op);
      match op
      case OpNotify(n, v, additional) => GrantKeepsOrder(r, if additional then Extra(r, n) else Missing(r, n), v);
      case OpDrop(id) => DropKeepsOrder(r, id);
      case _ =>
  }

  lemma {:induction false} RunKeepsOrder<T>(r: Registry<T>, ts: seq<Tidy<T>>)
    requires Valid(r) && OldestFirst(r) && LegalRun(r, ts)
    ensures Valid(Run(r, ts)) && OldestFirst(Run(r, ts))
    decreases |ts|
  {
    hide Valid, OldestFirst, Step, Legal;
    if ts != [] {
      StepKeepsOrder(r, ts[0]);
      RunKeepsOrder(Step(r, ts[0]), ts[1..]);
    }
  }

  /**
    Wherever every consumed listener is dropped at once, the notified listeners
    are always the oldest: across both notifies, hand-offs, polls, drops, the
    close, and listeners registered long before their first poll, or never polled.
   */
  lemma NotifiedAreOldest<T>(ts: seq<Tidy<T>>)
    requires LegalRun(NewRegistry<T>(), ts)
    ensures var ls := Run(NewRegistry<T>(), ts).listeners;
      forall a, b :: a in Notified(ls) && b in ls && b <= a ==> b in Notified(ls)
  {
    NewIsValid<T>();
    RunKeepsOrder(NewRegistry<T>(), ts);
  }

  // ---- The clients are tidy ----

  lemma {:induction false} RunJoins<T>(r: Registry<T>, ts: seq<Tidy<T>>, us: seq<Tidy<T>>)
    requires LegalRun(r, ts) && LegalRun(Run(r, ts), us)
    ensures LegalRun(r, ts + us) && Run(r, ts + us) == Run(Run(r, ts), us)
    decreases |ts|
  {
    hide Step, Legal;
    if ts == [] {
      assert ts + us == us;
    } else {
      RunJoins(Step(r, ts[0]), ts[1..], us);
      assert (ts + us)[0] == ts[0] && (ts + us)[1..] == ts[1..] + us;
    }
  }

  lemma RunOne<T>(r: Registry<T>, t: Tidy<T>)
    requires Legal(r, t)
    ensures LegalRun(r, [t]) && Run(r, [t]) == Step(r, t)
  {
    assert LegalRun(Step(r, t), []) && Run(Step(r, t), []) == Step(r, t);
    assert [t][1..] == [];
  }

  lemma RunTwo<T>(r: Registry<T>, t: Tidy<T>, u: Tidy<T>)
    requires Legal(r, t) && Legal(Step(r, t), u)
    ensures LegalRun(r, [t, u]) && Run(r, [t, u]) == Step(Step(r, t), u)
  {
    hide Legal, Step;
    RunOne(r, t);
    RunOne(Step(r, t), u);
    RunJoins(r, [t], [u]);
    assert [t] + [u] == [t, u];
  }

  /** Registering and parking, in a run. */
  lemma EnterIsTidy<T>(r: Registry<T>, task: nat) returns (ts: seq<Tidy<T>>)
    ensures LegalRun(r, ts) && Run(r, ts) == Enter(r, task)
  {
    RunTwo(r, Plain(R.OpListen), Plain(R.OpPoll(r.nextId, task)));
    ts := [Plain(R.OpListen), Plain(R.OpPoll(r.nextId, task))];
  }

  /** Lock futures, sends and receives: every poll is a run of tidy operations. */
  lemma PollWaiterIsTidy<T>(r: Registry<T>, st: WaitState, task: nat, free: bool) returns (ts: seq<Tidy<T>>)
    requires st.Waiting? ==> st.id in r.listeners
    ensures LegalRun(r, ts) && Run(r, ts) == PollWaiter(r, st, task, free).ev
  {
    if st.Waiting? && r.listeners[st.id].value.None? {
      ts := [Plain(R.OpPoll(st.id, task))];
      RunOne(r, ts[0]);
    } else {
      var first := if st.Waiting? then [Take(st.id)] else [];
      if st.Waiting? {
        RunOne(r, Take(st.id));
      }
      var q := Run(r, first);
      if free {
        ts := first;
      } else {
        var rest := EnterIsTidy(q, task);
        RunJoins(r, first, rest);
        ts := first + rest;
      }
    }
  }

  /** Event streams, emitter streams and wait futures: so is every poll of theirs. */
  lemma PollStreamIsTidy<T>(r: Registry<T>, st: StreamState, task: nat, upgrades: bool) returns (ts: seq<Tidy<T>>)
    requires st.Listening? ==> st.id in r.listeners
    ensures LegalRun(r, ts) && Run(r, ts) == PollStream(r, st, task, upgrades).ev
  {
    if st.Done? || (st.Next? && !upgrades) {
      ts := [];
    } else if st.Listening? && r.listeners[st.id].value.Some? {
      ts := [Take(st.id)];
      RunOne(r, ts[0]);
    } else {
      var id := if st.Next? then r.nextId else st.id;
      if st.Next? {
        ts := EnterIsTidy(r, task);
      } else {
        ts := [Plain(R.OpPoll(id, task))];
        RunOne(r, ts[0]);
      }
      if r.closed {
        RunOne(Run(r, ts), Plain(R.OpDrop(id)));
        RunJoins(r, ts, [Plain(R.OpDrop(id))]);
        ts := ts + [Plain(R.OpDrop(id))];
      }
    }
  }

  // ---- Where listeners are kept ----

  lemma FourSteps<T>(r: Registry<T>, a: R.Op<T>, b: R.Op<T>, c: R.Op<T>, d: R.Op<T>)
    requires R.Legal(r, a) && R.Legal(R.Step(r, a), b) && R.Legal(R.Step(R.Step(r, a), b), c)
    requires R.Legal(R.Step(R.Step(R.Step(r, a), b), c), d)
    ensures R.LegalRun(r, [a, b, c, d])
    ensures R.Run(r, [a, b, c, d]) == R.Step(R.Step(R.Step(R.Step(r, a), b), c), d)
  {
    hide R.Step, R.Legal;
    var r1, r2, r3 := R.Step(r, a), R.Step(R.Step(r, a), b), R.Step(R.Step(R.Step(r, a), b), c);
    assert R.LegalRun(R.Step(r3, d), []) && R.Run(R.Step(r3, d), []) == R.Step(r3, d);
    assert R.LegalRun(r3, [d]) && R.Run(r3, [d]) == R.Step(r3, d);
    assert [c, d][1..] == [d];
    assert R.LegalRun(r2, [c, d]) && R.Run(r2, [c, d]) == R.Step(r3, d);
    assert [b, c, d][1..] == [c, d];
    assert R.LegalRun(r1, [b, c, d]) && R.Run(r1, [b, c, d]) == R.Step(r3, d);
    assert [a, b, c, d][1..] == [b, c, d];
  }

  /** With a consumed listener kept, an older one can lack a value that a newer one has. */
  lemma KeptListenerBreaksOrder<T>(v: T) returns (ops: seq<R.Op<T>>)
    ensures R.LegalRun(NewRegistry<T>(), ops)
    ensures var ls := R.Run(NewRegistry<T>(), ops).listeners; ls.Keys == {0, 1} && Notified(ls) == {1}
  {
    var two := Listen(Listen(NewRegistry<T>()));
    NotifyAllReaches(two, v);
    hide Notify;
    FourSteps(NewRegistry<T>(), R.OpListen, R.OpListen, R.OpNotify(All, v, false), R.OpPoll(0, 0));
    ops := [R.OpListen, R.OpListen, R.OpNotify(All, v, false), R.OpPoll(0, 0)];
    hide R.Run, R.LegalRun;
    assert R.Run(NewRegistry<T>(), ops) == Consume(Notify(two, All, v), 0);
  }
}
