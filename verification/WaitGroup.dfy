/** `WaitGroup`: waiting until every ticket has been dropped. */
module WaitGroups {
  import opened Options
  import opened Registries
  import opened Waiters
  import opened Streams

  /**
    The one `wait` future there can be: it borrows the group. It starts with its
    first poll, and between polls it is suspended in its event stream.
   */
  datatype WaitFuture = Absent | Fresh | Streaming(stream: StreamState)

  datatype WaitResult = WaitResult(ev: Registry<()>, future: WaitFuture, ready: bool)

  /** The group, the tickets that are alive, and the wait future. */
  datatype System = System(tickets: nat, ev: Registry<()>, live: set<nat>, future: WaitFuture)

  datatype Op =
    | Add(t: nat)
    | DropTicket(t: nat)
    | Wait
    | PollWait(task: nat)
    | DropWait

  function NewSystem(): System {
    System(0, NewRegistry(), {}, Absent)
  }

  predicate Registered(ev: Registry<()>, w: WaitFuture) {
    w.Streaming? && w.stream.Listening? ==> w.stream.id in ev.listeners
  }

  /** While the future borrows the group, no ticket can be added; a finished future is gone. */
  predicate Can(g: System, op: Op) {
    match op
    case Add(t) => g.future.Absent? && t !in g.live
    case DropTicket(t) => t in g.live && g.tickets > 0
    case Wait => g.future.Absent?
    case PollWait(_) => !g.future.Absent? && Registered(g.ev, g.future)
    case DropWait => !g.future.Absent?
  }

  /** Waits for the next event, until one arrives when no ticket is left. The group keeps the event alive. */
  ghost function NextEvents(tickets: nat, ev: Registry<()>, st: StreamState, task: nat): WaitResult
    requires st.Listening? ==> st.id in ev.listeners
    decreases st.Listening?
  {
    var res := PollStream(ev, st, task, true);
    if res.reply.Parked? then WaitResult(res.ev, Streaming(res.state), false)
    else if res.reply.Finished? || tickets == 0 then WaitResult(DropStream(res.ev, res.state), Absent, true)
    else NextEvents(tickets, res.ev, res.state, task)
  }

  ghost function PollResult(tickets: nat, ev: Registry<()>, w: WaitFuture, task: nat): WaitResult
    requires !w.Absent? && Registered(ev, w)
  {
    if w.Streaming? then NextEvents(tickets, ev, w.stream, task)
    else if tickets == 0 then WaitResult(ev, Absent, true)
    else NextEvents(tickets, Listen(ev), Listening(ev.nextId), task)
  }

  ghost function DropFuture(ev: Registry<()>, w: WaitFuture): Registry<()> {
    if w.Streaming? then DropStream(ev, w.stream) else ev
  }

  ghost function Do(g: System, op: Op): System
    requires Can(g, op)
  {
    match op
    case Add(t) => g.(tickets := g.tickets + 1, live := g.live + {t})
    case DropTicket(t) => g.(tickets := g.tickets - 1, ev := Notify(g.ev, UpTo(1), ()), live := g.live - {t})
    case Wait => g.(future := Fresh)
    case PollWait(task) =>
      var res := PollResult(g.tickets, g.ev, g.future, task);
      g.(ev := res.ev, future := res.future)
    case DropWait => g.(ev := DropFuture(g.ev, g.future), future := Absent)
  }

  // ---- A wait future is one more waiter: it wants no ticket to be left ----

  function AsWaiter(w: WaitFuture): WaitState {
    if w.Streaming? && w.stream.Listening? then Waiting(w.stream.id) else Idle
  }

  predicate Suspended(w: WaitFuture) {
    w.Streaming? ==> w.stream.Listening?
  }

  lemma StreamIsWaiter(tickets: nat, ev: Registry<()>, id: nat, task: nat)
    requires !ev.closed && id in ev.listeners
    ensures var res, o := NextEvents(tickets, ev, Listening(id), task), PollWaiter(ev, Waiting(id), task, tickets == 0);
      && res.ev == o.ev && res.ready == o.ready
      && (res.ready ==> res.future.Absent?)
      && (!res.ready ==> o.state.Waiting? && res.future == Streaming(Listening(o.state.id)))
  {
    if ev.listeners[id].value.Some? {
      ConsumedDrop(ev, id);
    }
  }

  lemma FreshEnters(tickets: nat, ev: Registry<()>, task: nat)
    requires !ev.closed && tickets > 0
    ensures PollResult(tickets, ev, Fresh, task) == WaitResult(Enter(ev, task), Streaming(Listening(ev.nextId)), false)
  {
    StreamIsWaiter(tickets, Listen(ev), ev.nextId, task);
  }

  /** Its polls do what `PollWaiter` does, although it goes through a stream. */
  lemma PollIsWaiter(tickets: nat, ev: Registry<()>, w: WaitFuture, task: nat)
    requires !ev.closed && !w.Absent? && Suspended(w) && Registered(ev, w)
    ensures var res, o := PollResult(tickets, ev, w, task), PollWaiter(ev, AsWaiter(w), task, tickets == 0);
      && res.ev == o.ev && res.ready == o.ready && AsWaiter(res.future) == o.state && Suspended(res.future)
      && (res.ready <==> res.future.Absent?)
      && (!res.ready ==> res.future.Streaming?)
  {
    if w.Streaming? {
      StreamIsWaiter(tickets, ev, w.stream.id, task);
    } else if tickets > 0 {
      FreshEnters(tickets, ev, task);
    }
    PollCases(ev, AsWaiter(w), task, tickets == 0);
  }

  // ---- Invariants ----

  /** A parked wait that was not notified still has tickets to wait for. */
  ghost predicate Served(g: System) {
    g.tickets > 0 || Stirred(g.ev)
  }

  ghost predicate Inv(g: System) {
    && Linked(g.ev, map[0 := AsWaiter(g.future)]) && !g.ev.closed
    && Suspended(g.future)
    && g.tickets == |g.live|
    && Served(g)
  }

  lemma PollKeepsInv(g: System, task: nat)
    requires Inv(g) && Can(g, PollWait(task))
    ensures Inv(Do(g, PollWait(task)))
  {
    var st, free := AsWaiter(g.future), g.tickets == 0;
    hide Linked, Stirred, PollWaiter, PollResult;
    PollIsWaiter(g.tickets, g.ev, g.future, task);
    PollKeepsLinked(g.ev, map[0 := st], 0, task, free);
    PollKeepsClosed(g.ev, st, task, free);
    var o := PollWaiter(g.ev, st, task, free);
    assert map[0 := st][0 := o.state] == map[0 := o.state];
    if free {
      if o.ready {
        NoWaiterLeft(o.ev, o.state);
      } else {
        PendingKeepsStirred(g.ev, st, task, free);
      }
    }
  }

  lemma NoWaiterLeft(r: Registry<()>, st: WaitState)
    requires Linked(r, map[0 := st]) && st.Idle?
    ensures Stirred(r)
  {
    assert forall id: nat :: !Holds(map[0 := st], id);
    assert r.listeners.Keys == {};
  }

  lemma DropTicketKeepsInv(g: System, t: nat)
    requires Inv(g) && Can(g, DropTicket(t))
    ensures Inv(Do(g, DropTicket(t)))
  {
    hide Linked, Stirred, Notify;
    NotifyOneStirs(g.ev, map[0 := AsWaiter(g.future)], ());
  }

  lemma DropWaitKeepsInv(g: System)
    requires Inv(g) && Can(g, DropWait)
    ensures Inv(Do(g, DropWait))
  {
    var st := AsWaiter(g.future);
    assert DropFuture(g.ev, g.future) == DropWaiter(g.ev, st);
    hide Linked, Stirred, DropFuture, DropWaiter;
    OneWaiterLeaves(g.ev, st);
    DropKeepsClosed(g.ev, st);
    NoWaiterLeft(DropWaiter(g.ev, st), Idle);
  }

  lemma DoKeepsInv(g: System, op: Op)
    requires Inv(g) && Can(g, op)
    ensures Inv(Do(g, op))
  {
    hide Linked, Stirred, PollResult, DropFuture, Notify;
    match op
    case Add(t) =>
    case DropTicket(t) => DropTicketKeepsInv(g, t);
    case Wait =>
    case PollWait(task) => PollKeepsInv(g, task);
    case DropWait => DropWaitKeepsInv(g);
  }

  lemma NewInv()
    ensures Inv(NewSystem())
  {
    hide Linked;
    NewIsLinked<()>();
    OneWaiterJoins(NewRegistry<()>());
  }

  // ---- Runs ----

  ghost predicate CanRun(g: System, ops: seq<Op>)
    decreases |ops|
  {
    ops == [] || (Can(g, ops[0]) && CanRun(Do(g, ops[0]), ops[1..]))
  }

  ghost function Run(g: System, ops: seq<Op>): System
    requires CanRun(g, ops)
    decreases |ops|
  {
    if ops == [] then g else Run(Do(g, ops[0]), ops[1..])
  }

  lemma {:induction false} RunKeepsInv(g: System, ops: seq<Op>)
    requires Inv(g) && CanRun(g, ops)
    ensures Inv(Run(g, ops))
    decreases |ops|
  {
    hide Inv, Do, Can;
    if ops != [] {
      DoKeepsInv(g, ops[0]);
      RunKeepsInv(Do(g, ops[0]), ops[1..]);
    }
  }

  lemma EveryRunKeepsInv(ops: seq<Op>)
    requires CanRun(NewSystem(), ops)
    ensures Inv(Run(NewSystem(), ops))
  {
    hide Inv;
    NewInv();
    RunKeepsInv(NewSystem(), ops);
  }

  /** `tickets` counts the live tickets, so any of them can be dropped without an underflow. */
  lemma TicketsAreLive(ops: seq<Op>, t: nat)
    requires CanRun(NewSystem(), ops)
    ensures var g := Run(NewSystem(), ops);
      && g.tickets == |g.live| && (Can(g, DropTicket(t)) <==> t in g.live)
      && (g.future.Absent? ==> (t !in g.live ==> Can(g, Add(t))) && Can(g, Wait))
      && (!g.future.Absent? ==> Can(g, DropWait))
  {
    EveryRunKeepsInv(ops);
    hide Run, CanRun, Linked, Stirred;
    var g := Run(NewSystem(), ops);
    if t in g.live {
      assert g.live != {};
    }
  }

  /**
    What every operation comes to. A wait future that finishes or is dropped leaves
    no listener; one that goes on waiting has left a waker of the polling task.
   */
  lemma TicketsAndWaits(g: System, op: Op)
    requires Inv(g) && Can(g, op)
    ensures var g' := Do(g, op);
      match op
      case Add(t) => g' == g.(tickets := |g.live| + 1, live := g.live + {t})
      case DropTicket(t) => g'.live == g.live - {t} && g'.tickets == |g.live| - 1 && g'.future == g.future
      case Wait => g' == g.(future := Fresh)
      case PollWait(task) =>
        && g'.live == g.live
        && (if g.live == {} then g'.future.Absent? && g'.ev.listeners == map[]
            else && g'.future.Streaming? && g'.future.stream.Listening?
                 && g'.future.stream.id in g'.ev.ledger.parked
                 && g'.ev.ledger.parked[g'.future.stream.id].task == task)
      case DropWait => g'.future.Absent? && g'.live == g.live && g'.ev.listeners == map[]
  {
    DoKeepsInv(g, op);
    match op
    case PollWait(task) =>
      ParkedIsRegistered(g);
      PollIsWaiter(g.tickets, g.ev, g.future, task);
      PollWaiterIsReady(g, task);
      hide PollResult, Stirred;
      PollCases(g.ev, AsWaiter(g.future), task, g.tickets == 0);
      if g.live == {} {
        NobodyRegistered(Do(g, op));
      }
    case DropWait =>
      hide DropFuture, Stirred;
      NobodyRegistered(Do(g, op));
    case _ => hide Notify, Linked;
  }

  lemma NobodyRegistered(g: System)
    requires Inv(g) && g.future.Absent?
    ensures g.ev.listeners == map[]
  {
    assert forall id: nat :: !Holds(map[0 := AsWaiter(g.future)], id);
    assert g.ev.listeners.Keys == {};
  }

  /** Over every run a poll of the wait future completes exactly when no ticket is left. */
  lemma ReadyExactlyWithoutTickets(ops: seq<Op>, task: nat)
    requires CanRun(NewSystem(), ops) && !Run(NewSystem(), ops).future.Absent?
    ensures var g := Run(NewSystem(), ops);
      && Can(g, PollWait(task))
      && (PollResult(g.tickets, g.ev, g.future, task).ready <==> g.live == {})
  {
    EveryRunKeepsInv(ops);
    hide Run, CanRun, Linked, Stirred, PollResult, PollWaiter;
    var g := Run(NewSystem(), ops);
    ParkedIsRegistered(g);
    PollIsWaiter(g.tickets, g.ev, g.future, task);
    PollWaiterIsReady(g, task);
  }

  lemma PollWaiterIsReady(g: System, task: nat)
    requires Inv(g) && Registered(g.ev, g.future)
    ensures PollWaiter(g.ev, AsWaiter(g.future), task, g.tickets == 0).ready <==> g.tickets == 0
  {
    hide Linked, Stirred, PollWaiter;
    ReadyWhen(g.ev, AsWaiter(g.future), task, g.tickets == 0);
    if g.tickets == 0 && AsWaiter(g.future).Waiting? {
      OneWaiter(g.ev, AsWaiter(g.future));
    }
  }

  lemma ParkedIsRegistered(g: System)
    requires Inv(g)
    ensures Registered(g.ev, g.future)
    ensures g.future.Streaming? ==> g.future.stream.id in g.ev.ledger.parked
  {
    var st := AsWaiter(g.future);
    assert map[0 := st][0] == st;
  }

  /** A run in which a wait parks, the last ticket is dropped, and the next poll completes it. */
  lemma WaitCompletes(task: nat) returns (parked: System, g: System)
    ensures CanRun(NewSystem(), [Add(0), Wait, PollWait(task)])
    ensures parked == Run(NewSystem(), [Add(0), Wait, PollWait(task)]) && parked.future.Streaming?
    ensures CanRun(parked, [DropTicket(0), PollWait(task)])
    ensures g == Run(parked, [DropTicket(0), PollWait(task)]) && g.future.Absent? && g.live == {}
  {
    var g0 := NewSystem();
    NewInv();
    hide Inv;
    TicketsAndWaits(g0, Add(0));
    DoKeepsInv(g0, Add(0));
    var g1 := Do(g0, Add(0));
    TicketsAndWaits(g1, Wait);
    DoKeepsInv(g1, Wait);
    var g2 := Do(g1, Wait);
    TicketsAndWaits(g2, PollWait(task));
    DoKeepsInv(g2, PollWait(task));
    parked := Do(g2, PollWait(task));
    TicketStays(g2, task);
    TicketsAndWaits(parked, DropTicket(0));
    DoKeepsInv(parked, DropTicket(0));
    var g3 := Do(parked, DropTicket(0));
    ParkedIsRegistered(g3);
    TicketsAndWaits(g3, PollWait(task));
    g := Do(g3, PollWait(task));
    hide Do;
    RunPair(parked, DropTicket(0), PollWait(task));
    RunPair(g1, Wait, PollWait(task));
    assert [Add(0), Wait, PollWait(task)][1..] == [Wait, PollWait(task)];
  }

  lemma TicketStays(g: System, task: nat)
    requires Can(g, PollWait(task))
    ensures Do(g, PollWait(task)).tickets == g.tickets
  {
    hide PollResult;
  }

  lemma RunPair(g: System, a: Op, b: Op)
    requires Can(g, a) && Can(Do(g, a), b)
    ensures CanRun(g, [a, b]) && Run(g, [a, b]) == Do(Do(g, a), b)
  {
    hide Do, Can;
    var q := Do(g, a);
    assert CanRun(Do(q, b), []) && Run(Do(q, b), []) == Do(q, b);
    assert CanRun(q, [b]) && Run(q, [b]) == Do(q, b);
    assert [a, b][1..] == [b];
  }

  /**
    A suspended wait future that has not been notified waits for a live ticket;
    a notified one has had the waker of its latest poll woken.
   */
  lemma NotForgotten(ops: seq<Op>)
    requires CanRun(NewSystem(), ops) && Run(NewSystem(), ops).future.Streaming?
    ensures var g := Run(NewSystem(), ops);
      && g.future.stream.Listening? && g.future.stream.id in g.ev.listeners && g.future.stream.id in g.ev.ledger.parked
      && (if g.ev.listeners[g.future.stream.id].value.None? then g.live != {}
          else g.ev.ledger.parked[g.future.stream.id] in g.ev.ledger.woken)
  {
    EveryRunKeepsInv(ops);
    hide Run, CanRun;
    var g := Run(NewSystem(), ops);
    ParkedIsRegistered(g);
    if g.tickets == 0 {
      OneWaiter(g.ev, AsWaiter(g.future));
    }
  }

  /** Every ticket dropped while the future is suspended leaves it notified. */
  lemma EveryDropNotifies(g: System, t: nat)
    requires Inv(g) && Can(g, DropTicket(t)) && g.future.Streaming?
    ensures var ls := Do(g, DropTicket(t)).ev.listeners;
      g.future.stream.id in ls && ls[g.future.stream.id].value.Some?
  {
    hide Linked, Stirred, Notify;
    NotifyOneStirs(g.ev, map[0 := AsWaiter(g.future)], ());
    OneWaiter(Notify(g.ev, UpTo(1), ()), AsWaiter(g.future));
  }
}
