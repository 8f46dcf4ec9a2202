/** What the bounded channel guarantees over every run, and for which capacities senders are never left behind. */
module MpscRuns {
  import opened Options
  import opened Registries
  import opened Waiters
  import opened Mpsc

  ghost predicate CanRun<T>(s: Channel<T>, ops: seq<Op<T>>)
    decreases |ops|
  {
    ops == [] || (Can(s, ops[0]) && CanRun(Do(s, ops[0]), ops[1..]))
  }

  ghost function Run<T>(s: Channel<T>, ops: seq<Op<T>>): Channel<T>
    requires CanRun(s, ops)
    decreases |ops|
  {
    if ops == [] then s else Run(Do(s, ops[0]), ops[1..])
  }

  lemma {:induction false} RunKeepsInv<T>(s: Channel<T>, ops: seq<Op<T>>)
    requires Inv(s) && CanRun(s, ops)
    ensures Inv(Run(s, ops)) && Run(s, ops).core.cap == s.core.cap
    decreases |ops|
  {
    hide Inv, Do, Can;
    if ops != [] {
      DoKeepsInv(s, ops[0]);
      CapStays(s, ops[0]);
      RunKeepsInv(Do(s, ops[0]), ops[1..]);
    }
  }

  lemma {:induction false} RunSnoc<T>(s: Channel<T>, ops: seq<Op<T>>, op: Op<T>)
    requires CanRun(s, ops) && Can(Run(s, ops), op)
    ensures CanRun(s, ops + [op]) && Run(s, ops + [op]) == Do(Run(s, ops), op)
    decreases |ops|
  {
    hide Do, Can;
    if ops == [] {
      assert (ops + [op])[0] == op && (ops + [op])[1..] == [];
    } else {
      RunSnoc(Do(s, ops[0]), ops[1..], op);
      assert (ops + [op])[1..] == ops[1..] + [op];
    }
  }

  lemma NewIsConserved<T>(cap: nat)
    ensures var s := NewChannel<T>(cap);
      Conserved(s) && FuturesFit(s) && SentOnce(s) && ReceiverServed(s) && SendsReleased(s)
  {
    assert |{0}| == 1;
  }

  lemma NewServesSenders<T>(cap: nat)
    ensures SendersServed(NewChannel<T>(cap))
  {
  }

  lemma NewIsWired<T>(cap: nat)
    ensures EventsLinked(NewChannel<T>(cap))
  {
    hide Linked;
    NewIsLinked<()>();
    OneWaiterJoins(NewRegistry<()>());
  }

  lemma NewInv<T>(cap: nat)
    ensures Inv(NewChannel<T>(cap))
  {
    hide EventsLinked, Conserved, FuturesFit, SentOnce, ReceiverServed, SendsReleased, SendersServed, NewChannel;
    NewIsWired<T>(cap);
    NewIsConserved<T>(cap);
    NewServesSenders<T>(cap);
  }

  lemma EveryRunKeepsInv<T>(cap: nat, ops: seq<Op<T>>)
    requires CanRun(NewChannel(cap), ops)
    ensures Inv(Run(NewChannel(cap), ops)) && Run(NewChannel(cap), ops).core.cap == cap
  {
    hide Inv;
    NewInv<T>(cap);
    RunKeepsInv(NewChannel(cap), ops);
  }

  /**
    Conservation: while the receiver lives, the accepted values are, in order,
    those received and then those queued; the queue keeps its bound; `senders`
    counts the live handles; and each send future's value was accepted once if
    the future returned `Ok`, else never.
   */
  lemma NothingLostOrDuplicated<T>(cap: nat, ops: seq<Op<T>>)
    requires CanRun(NewChannel(cap), ops)
    ensures var s := Run(NewChannel(cap), ops);
      && (s.core.alive ==> s.accepted == s.received + s.core.queue && |s.core.queue| <= cap
                           && s.core.senders == |s.handles|)
      && |s.sources| == |s.accepted|
      && (forall f :: multiset(s.sources)[Future(f)] == if f in s.done then 1 else 0)
      && (forall i :: 0 <= i < |s.sources| && s.sources[i].Future? ==>
            s.sources[i].f in s.made && s.accepted[i] == s.made[s.sources[i].f])
  {
    EveryRunKeepsInv(cap, ops);
    hide Run, CanRun, EventsLinked;
  }

  /** A receiver parked without a notification waits for an empty queue with a live sender. */
  lemma ReceiverNotStranded<T>(cap: nat, ops: seq<Op<T>>)
    requires CanRun(NewChannel(cap), ops)
    ensures var s := Run(NewChannel(cap), ops);
      s.core.alive && s.recv.Waiting? ==>
        && s.recv.id in s.core.recvEv.listeners
        && (s.core.recvEv.listeners[s.recv.id].value.None? ==> s.core.queue == [] && s.core.senders > 0)
  {
    EveryRunKeepsInv(cap, ops);
    hide Run, CanRun;
    var s := Run(NewChannel(cap), ops);
    assert map[0 := s.recv][0] == s.recv;
  }

  /** Once the receiver is gone, every unfinished send resolves to an error at its next poll. */
  lemma SendsFailWithoutReceiver<T>(cap: nat, ops: seq<Op<T>>, f: nat, task: nat)
    requires CanRun(NewChannel(cap), ops) && !Run(NewChannel(cap), ops).core.alive
    requires f in Run(NewChannel(cap), ops).values && Run(NewChannel(cap), ops).values[f].Some?
    ensures var s := Run(NewChannel(cap), ops);
      && Can(s, OpPollSend(f, task))
      && PollSend(s.core, s.states[f], s.values[f].value, task).reply.Closed?
  {
    EveryRunKeepsInv(cap, ops);
    hide Run, CanRun, Inv, PollSend, Can;
    ReleasedSendFails(Run(NewChannel(cap), ops), f, task);
  }

  lemma SendIsRegistered<T>(s: Channel<T>, f: nat)
    requires Inv(s) && f in s.values
    ensures f in s.states && (s.states[f].Waiting? ==> s.states[f].id in s.core.sendEv.listeners)
  {
    hide Conserved, SentOnce, ReceiverServed, SendersServed, SendsReleased, Valid, OldestFirst;
  }

  lemma ReleasedSendFails<T>(s: Channel<T>, f: nat, task: nat)
    requires Inv(s) && !s.core.alive && f in s.values && s.values[f].Some?
    ensures f in s.states && Can(s, OpPollSend(f, task))
    ensures PollSend(s.core, s.states[f], s.values[f].value, task).reply.Closed?
  {
    SendIsRegistered(s, f);
    assert SendsReleased(s);
    hide Inv, PollWaiter;
    ReleasedPoll(s.core.sendEv, s.states[f], task);
  }

  // ---- What every operation comes to ----

  /** The next poll of the receiver: a queued item first, then the end once no handle is left, else it parks. */
  lemma ReceiverRepliesExactly<T>(cap: nat, ops: seq<Op<T>>, task: nat)
    requires CanRun(NewChannel(cap), ops) && Run(NewChannel(cap), ops).core.alive
    ensures var s := Run(NewChannel(cap), ops);
      && Can(s, OpPollRecv(task))
      && PollRecv(s.core, s.recv, task).reply
         == if s.core.queue != [] then Item(s.core.queue[0]) else if s.handles == {} then End else RecvParked
  {
    EveryRunKeepsInv(cap, ops);
    hide Run, CanRun, Inv, PollRecv, Can;
    ReceiverReply(Run(NewChannel(cap), ops), task);
  }

  lemma ReceiverIsRegistered<T>(s: Channel<T>)
    requires Inv(s)
    ensures s.recv.Waiting? ==> s.recv.id in s.core.recvEv.listeners
    ensures s.recv.Waiting? ==> s.recv.id in s.core.recvEv.ledger.parked
  {
    hide Conserved, FuturesFit, SentOnce, ReceiverServed, SendersServed, SendsReleased, Valid, OldestFirst;
    assert map[0 := s.recv][0] == s.recv;
  }

  lemma HandlesAreSenders<T>(s: Channel<T>)
    requires Inv(s) && s.core.alive
    ensures s.handles == {} <==> s.core.senders == 0
    ensures ReceiverServed(s)
  {
    hide EventsLinked, FuturesFit, SentOnce, ReceiverServed, SendersServed, SendsReleased;
  }

  lemma ReceiverReply<T>(s: Channel<T>, task: nat)
    requires Inv(s) && s.core.alive
    ensures Can(s, OpPollRecv(task))
    ensures PollRecv(s.core, s.recv, task).reply
         == if s.core.queue != [] then Item(s.core.queue[0]) else if s.handles == {} then End else RecvParked
  {
    hide Inv, PollWaiter, Pop, Push;
    ReceiverIsRegistered(s);
    HandlesAreSenders(s);
    ReadyWhen(s.core.recvEv, s.recv, task, s.core.queue != [] || s.core.senders == 0);
  }

  /** Send `f` is parked and has not been notified. */
  predicate ParkedUnnotified<T>(s: Channel<T>, f: nat)
    requires f in s.states
  {
    && s.states[f].Waiting? && s.states[f].id in s.core.sendEv.listeners
    && s.core.sendEv.listeners[s.states[f].id].value.None?
  }

  /**
    The next poll of an unfinished send: an error without a receiver; sent if
    there is room and it need not stay parked.
   */
  lemma SendRepliesExactly<T>(cap: nat, ops: seq<Op<T>>, f: nat, task: nat)
    requires CanRun(NewChannel(cap), ops)
    requires f in Run(NewChannel(cap), ops).values && Run(NewChannel(cap), ops).values[f].Some?
    ensures var s := Run(NewChannel(cap), ops);
      && Can(s, OpPollSend(f, task))
      && PollSend(s.core, s.states[f], s.values[f].value, task).reply
         == if !s.core.alive then Closed else if HasRoom(s.core) && !ParkedUnnotified(s, f) then Sent else SendParked
  {
    EveryRunKeepsInv(cap, ops);
    hide Run, CanRun, Inv, PollSend, Can, ParkedUnnotified;
    SendReply(Run(NewChannel(cap), ops), f, task);
  }

  lemma SendReply<T>(s: Channel<T>, f: nat, task: nat)
    requires Inv(s) && f in s.values && s.values[f].Some?
    ensures f in s.states && Can(s, OpPollSend(f, task))
    ensures PollSend(s.core, s.states[f], s.values[f].value, task).reply
         == if !s.core.alive then Closed else if HasRoom(s.core) && !ParkedUnnotified(s, f) then Sent else SendParked
  {
    hide Inv, PollWaiter, Push;
    SendIsRegistered(s, f);
    if !s.core.alive {
      ReleasedSendFails(s, f, task);
    }
    ReadyWhen(s.core.sendEv, s.states[f], task, !s.core.alive || HasRoom(s.core));
  }

  /** Over every run every live handle, unfinished send and receiver can be used. */
  lemma NothingIsRefused<T>(cap: nat, ops: seq<Op<T>>, h: nat, f: nat, v: T, task: nat)
    requires CanRun(NewChannel(cap), ops)
    ensures var s := Run(NewChannel(cap), ops);
      && (h in s.handles ==>
            && Can(s, OpTrySend(h, v)) && Can(s, OpDropSender(h))
            && (f !in s.made ==> Can(s, OpSend(h, f, v))) && (f !in s.handles ==> Can(s, OpClone(h, f))))
      && (f in s.states ==> Can(s, OpDropSend(f)) && (f in s.done || Can(s, OpPollSend(f, task))))
      && (s.core.alive ==> Can(s, OpPollRecv(task)) && Can(s, OpDropReceiver))
  {
    EveryRunKeepsInv(cap, ops);
    hide Run, CanRun, Inv, Can;
    var s := Run(NewChannel(cap), ops);
    if h in s.handles {
      HandleCanBeUsed(s, h, f, v);
    }
    if f in s.states {
      SendCanBeUsed(s, f, task);
    }
    if s.core.alive {
      ReceiverReply(s, task);
      ReceiverCanBeDropped(s);
    }
  }

  lemma HandleCanBeUsed<T>(s: Channel<T>, h: nat, f: nat, v: T)
    requires Inv(s) && h in s.handles
    ensures Can(s, OpTrySend(h, v)) && Can(s, OpDropSender(h))
    ensures (f !in s.made ==> Can(s, OpSend(h, f, v))) && (f !in s.handles ==> Can(s, OpClone(h, f)))
  {
    if s.core.alive {
      HandlesAreSenders(s);
    }
    hide Inv;
  }

  lemma SendCanBeUsed<T>(s: Channel<T>, f: nat, task: nat)
    requires Inv(s) && f in s.states
    ensures Can(s, OpDropSend(f)) && (f in s.done || Can(s, OpPollSend(f, task)))
  {
    assert f in s.values && (s.values[f].None? <==> f in s.done);
    SendIsRegistered(s, f);
    hide Inv;
  }

  lemma ReceiverCanBeDropped<T>(s: Channel<T>)
    requires s.core.alive
    ensures Can(s, OpDropReceiver)
  {
  }

  /** What every operation comes to. Only a send into an empty queue and the last handle concern the receiver. */
  lemma HandlesAndSends<T>(s: Channel<T>, op: Op<T>)
    requires Can(s, op)
    ensures var s' := Do(s, op);
      match op
      case OpTrySend(_, v) =>
        if s.core.alive && HasRoom(s.core)
        then && s'.accepted == s.accepted + [v] && s'.core.queue == s.core.queue + [v]
             && (s.core.queue != [] ==> s'.core.recvEv == s.core.recvEv)
        else s' == s
      case OpSend(_, f, v) => f in s'.states && s'.states[f].Idle? && f in s'.values && s'.values[f] == Some(v)
      case OpPollSend(f, task) =>
        PollSend(s.core, s.states[f], s.values[f].value, task).reply.Sent? ==>
          && f in s'.done && f in s'.values && s'.values[f].None?
          && s'.accepted == s.accepted + [s.values[f].value] && s'.core.queue == s.core.queue + [s.values[f].value]
          && (s.core.queue != [] ==> s'.core.recvEv == s.core.recvEv)
      case OpDropSend(f) => f !in s'.states && f !in s'.values
      case OpClone(_, to) => s'.handles == s.handles + {to}
      case OpDropSender(h) =>
        s'.handles == s.handles - {h} && (s.core.senders != 1 ==> s'.core.recvEv == s.core.recvEv)
      case OpPollRecv(task) =>
        var reply := PollRecv(s.core, s.recv, task).reply;
        && s'.received == (if reply.Item? then s.received + [reply.value] else s.received)
        && s'.core.queue == (if reply.Item? then s.core.queue[1..] else s.core.queue)
      case OpDropReceiver => !s'.core.alive && s'.core.sendEv.closed && s'.core.recvEv.closed
  {
    hide PollWaiter, Notify, DropWaiter;
    match op
    case OpPollSend(f, task) => PollSendEffect(s.core, s.states[f], s.values[f].value, task);
    case OpPollRecv(task) => PollRecvEffect(s.core, s.recv, task);
    case OpDropReceiver => DropKeepsClosed(Close(s.core.recvEv), s.recv);
    case _ =>
  }

  /** Listener `id` is notified, and the waker its latest poll left has been woken. */
  predicate WasWoken(r: Registry<()>, id: nat) {
    && id in r.listeners && r.listeners[id].value.Some?
    && id in r.ledger.parked && r.ledger.parked[id] in r.ledger.woken
  }

  /** Dropping the receiver notifies every parked send, and wakes the waker it left. */
  lemma ReceiverDropReleases<T>(s: Channel<T>, f: nat)
    requires Inv(s) && s.core.alive && f in s.states && s.states[f].Waiting?
    ensures WasWoken(Do(s, OpDropReceiver).core.sendEv, s.states[f].id)
  {
    hide Inv, DropReceiver;
    DoKeepsInv(s, OpDropReceiver);
    ReceiverGone(s.core, s.recv);
    ReleasedIsWoken(Do(s, OpDropReceiver), f);
  }

  lemma ReleasedIsWoken<T>(s: Channel<T>, f: nat)
    requires Inv(s) && !s.core.alive && f in s.states && s.states[f].Waiting?
    ensures WasWoken(s.core.sendEv, s.states[f].id)
  {
    hide Conserved, SentOnce, ReceiverServed, SendersServed, FuturesFit, OldestFirst;
    assert s.states[f].id !in Unnotified(s.core.sendEv.listeners);
  }

  /** Dropping the last handle notifies a parked receiver, and wakes the waker it left. */
  lemma LastHandleReleases<T>(s: Channel<T>, h: nat)
    requires Inv(s) && s.core.alive && s.handles == {h} && s.recv.Waiting?
    ensures Can(s, OpDropSender(h))
    ensures WasWoken(Do(s, OpDropSender(h)).core.recvEv, s.recv.id)
  {
    hide Inv, Notify;
    OneHandleOneSender(s, h);
    DoKeepsInv(s, OpDropSender(h));
    ServedIsWoken(Do(s, OpDropSender(h)));
  }

  lemma OneHandleOneSender<T>(s: Channel<T>, h: nat)
    requires Inv(s) && s.core.alive && s.handles == {h}
    ensures s.core.senders == 1
  {
    hide EventsLinked, FuturesFit, SentOnce, ReceiverServed, SendersServed, SendsReleased;
    assert |s.handles| == 1;
  }

  lemma ServedIsWoken<T>(s: Channel<T>)
    requires Inv(s) && s.core.alive && s.core.senders == 0 && s.recv.Waiting?
    ensures WasWoken(s.core.recvEv, s.recv.id)
  {
    ReceiverIsRegistered(s);
    hide Conserved, SentOnce, SendersServed, FuturesFit, OldestFirst, Tied;
  }

  /**
    A channel of capacity one strands no sender: with room in the queue and
    somebody waiting to send, some parked send has been notified and woken since
    it parked, and whichever task polls it next sends its value.
   */
  lemma RoomWakesSomeSend<T>(ops: seq<Op<T>>) returns (f: nat)
    requires CanRun(NewChannel(1), ops)
    requires Run(NewChannel(1), ops).core.alive && HasRoom(Run(NewChannel(1), ops).core)
    requires exists g :: g in Run(NewChannel(1), ops).states && Run(NewChannel(1), ops).states[g].Waiting?
    ensures var s := Run(NewChannel(1), ops);
      && f in s.states && s.states[f].Waiting? && s.states[f].id in s.core.sendEv.listeners
      && s.core.sendEv.listeners[s.states[f].id].value.Some?
      && s.states[f].id in s.core.sendEv.ledger.parked
      && s.core.sendEv.ledger.parked[s.states[f].id] in s.core.sendEv.ledger.woken
      && (forall task :: Can(s, OpPollSend(f, task))
                      && PollSend(s.core, s.states[f], s.values[f].value, task).reply.Sent?)
  {
    EveryRunKeepsInv(1, ops);
    hide Run, CanRun, Inv, PollSend, Can;
    var s := Run(NewChannel(1), ops);
    f := SomeSendWasWoken(s);
    forall task
      ensures Can(s, OpPollSend(f, task))
      ensures PollSend(s.core, s.states[f], s.values[f].value, task).reply.Sent?
    {
      NotifiedSendSucceeds(s, f, task);
    }
  }

  lemma SomeSendWasWoken<T>(s: Channel<T>) returns (f: nat)
    requires Inv(s) && s.core.cap <= 1 && s.core.alive && HasRoom(s.core)
    requires exists g :: g in s.states && s.states[g].Waiting?
    ensures f in s.states && f in s.values && s.values[f].Some?
    ensures s.states[f].Waiting? && s.states[f].id in s.core.sendEv.listeners
    ensures s.core.sendEv.listeners[s.states[f].id].value.Some?
    ensures s.states[f].id in s.core.sendEv.ledger.parked
    ensures s.core.sendEv.ledger.parked[s.states[f].id] in s.core.sendEv.ledger.woken
  {
    hide Conserved, SentOnce, ReceiverServed, SendsReleased;
    f := SomeoneWasWoken(s.core.sendEv, s.states);
  }

  lemma NotifiedSendSucceeds<T>(s: Channel<T>, f: nat, task: nat)
    requires s.core.alive && HasRoom(s.core)
    requires f in s.states && f in s.values && s.values[f].Some?
    requires s.states[f].Waiting? && s.states[f].id in s.core.sendEv.listeners
    requires s.core.sendEv.listeners[s.states[f].id].value.Some?
    ensures Can(s, OpPollSend(f, task)) && PollSend(s.core, s.states[f], s.values[f].value, task).reply.Sent?
  {
    ReadyWhen(s.core.sendEv, s.states[f], task, true);
    hide PollWaiter, Push;
  }

  // ---- When senders are served ----

  ghost predicate Reachable<T(!new)>(cap: nat, s: Channel<T>) {
    exists ops :: CanRun(NewChannel(cap), ops) && Run(NewChannel(cap), ops) == s
  }

  lemma StepReachable<T(!new)>(cap: nat, s: Channel<T>, op: Op<T>)
    requires Reachable(cap, s) && Can(s, op)
    ensures Reachable(cap, Do(s, op))
  {
    hide Do, Can;
    var ops :| CanRun(NewChannel(cap), ops) && Run(NewChannel(cap), ops) == s;
    RunSnoc(NewChannel(cap), ops, op);
  }

  lemma NewReachable<T(!new)>(cap: nat)
    ensures Reachable(cap, NewChannel<T>(cap))
  {
    assert CanRun(NewChannel<T>(cap), []) && Run(NewChannel<T>(cap), []) == NewChannel<T>(cap);
  }

  /** The receiver idle, `k` values queued, nothing known of the sends. */
  ghost predicate Queued<T>(s: Channel<T>, cap: nat, k: nat) {
    s.core.alive && s.core.cap == cap && |s.core.queue| == k && s.recv.Idle? && 0 in s.handles
  }

  /** Filling the queue by `try_send`. */
  lemma {:induction false} Fill<T(!new)>(cap: nat, v: T, k: nat) returns (s: Channel<T>)
    requires k <= cap
    ensures Reachable(cap, s) && Queued(s, cap, k)
    ensures s.states == map[] && s.values == map[] && s.made == map[] && s.core.sendEv == NewRegistry()
  {
    hide Reachable, Notify;
    if k == 0 {
      s := NewChannel(cap);
      NewReachable<T>(cap);
    } else {
      var r := Fill(cap, v, k - 1);
      StepReachable(cap, r, OpTrySend(0, v));
      s := Do(r, OpTrySend(0, v));
    }
  }

  /** `n` sends, made and polled in order, are parked on listeners `0..n`, none of them notified. */
  ghost predicate Parked<T>(s: Channel<T>, n: nat) {
    && (forall f :: f in s.states <==> 0 <= f < n)
    && (forall f :: f in s.made <==> 0 <= f < n)
    && (forall f :: 0 <= f < n ==> f in s.values && s.values[f].Some? && s.states[f] == Waiting(f))
    && (forall id :: id in s.core.sendEv.listeners <==> 0 <= id < n)
    && (forall id :: 0 <= id < n ==> s.core.sendEv.listeners[id].value.None?)
    && s.core.sendEv.nextId == n && s.core.sendEv.notified == 0
  }

  lemma ParkOne<T(!new)>(cap: nat, v: T, r: Channel<T>, n: nat) returns (s: Channel<T>)
    requires Reachable(cap, r) && Queued(r, cap, cap) && Parked(r, n)
    ensures Reachable(cap, s) && Queued(s, cap, cap) && Parked(s, n + 1)
  {
    hide Reachable;
    StepReachable(cap, r, OpSend(0, n, v));
    var q := Do(r, OpSend(0, n, v));
    assert q.core == r.core && q.states[n] == Idle && q.values[n] == Some(v);
    PollCases(q.core.sendEv, Idle, 0, false);
    StepReachable(cap, q, OpPollSend(n, 0));
    s := Do(q, OpPollSend(n, 0));
    assert s.core.sendEv == Enter(q.core.sendEv, 0);
    assert s.states == q.states[n := Waiting(n)];
  }

  /** Two sends parked; the first has been notified, the second has not. */
  ghost predicate FirstNotified<T>(s: Channel<T>) {
    && 0 in s.states && s.states[0] == Waiting(0) && 0 in s.values && s.values[0].Some?
    && 1 in s.states && s.states[1] == Waiting(1)
    && s.core.sendEv.listeners.Keys == {0, 1}
    && s.core.sendEv.listeners[0].value.Some? && s.core.sendEv.listeners[1].value.None?
  }

  /** The first receive frees a slot and notifies the oldest send. */
  lemma PopFull<T(!new)>(cap: nat, r: Channel<T>) returns (s: Channel<T>)
    requires cap > 0 && Reachable(cap, r) && Queued(r, cap, cap) && Parked(r, 2)
    ensures Reachable(cap, s) && Queued(s, cap, cap - 1) && FirstNotified(s)
  {
    StepReachable(cap, r, OpPollRecv(0));
    PollCases(r.core.recvEv, Idle, 0, true);
    hide Reachable, PollWaiter;
    s := Do(r, OpPollRecv(0));
    assert Notified(r.core.sendEv.listeners) == {};
    NotifyOnePicks(r.core.sendEv, (), 0);
    hide Notify;
    assert s.core.sendEv == Notify(r.core.sendEv, UpTo(1), ());
  }

  /** Further receives notify nobody: the queue was not full. */
  lemma {:induction false} PopRest<T(!new)>(cap: nat, r: Channel<T>, k: nat) returns (s: Channel<T>)
    requires k < cap && Reachable(cap, r) && Queued(r, cap, k) && FirstNotified(r)
    ensures Reachable(cap, s) && Queued(s, cap, 0) && FirstNotified(s)
    decreases k
  {
    hide Reachable;
    if k == 0 {
      s := r;
    } else {
      StepReachable(cap, r, OpPollRecv(0));
      s := PopRest(cap, Do(r, OpPollRecv(0)), k - 1);
    }
  }

  /** Send `f` is parked and, like every other, not notified. */
  ghost predicate LeftWaiting<T>(s: Channel<T>, f: nat) {
    && s.core.alive && f in s.states && s.states[f].Waiting? && s.states[f].id in s.core.sendEv.listeners
    && Notified(s.core.sendEv.listeners) == {}
  }

  /** The notified send fills one slot of several; the other stays parked, and nobody is notified. */
  lemma LeftBehind<T(!new)>(cap: nat, r: Channel<T>) returns (s: Channel<T>)
    requires cap >= 2 && Reachable(cap, r) && Queued(r, cap, 0) && FirstNotified(r)
    ensures Reachable(cap, s) && !SendersServed(s)
    ensures LeftWaiting(s, 1) && |s.core.queue| == 1 < cap == s.core.cap
  {
    StepReachable(cap, r, OpPollSend(0, 0));
    hide Reachable;
    PollCases(r.core.sendEv, Waiting(0), 0, true);
    s := Do(r, OpPollSend(0, 0));
    var ls := s.core.sendEv.listeners;
    assert ls == r.core.sendEv.listeners - {0};
    assert Notified(ls) == {};
    assert 1 in ls;
  }

  /**
    With room in the queue some parked send has always been notified exactly for
    capacities up to one. For every larger capacity a send can stay parked and
    unnotified beside a free slot, because receives notify only out of a full queue.
   */
  lemma SendersServedExactly<T(!new)>(cap: nat, v: T)
    ensures (forall s: Channel<T> :: Reachable(cap, s) ==> SendersServed(s)) <==> cap <= 1
  {
    hide Inv, SendersServed, Reachable;
    if cap <= 1 {
      forall s: Channel<T> | Reachable(cap, s) ensures SendersServed(s) {
        ServedWhenSmall(cap, s);
      }
    } else {
      var s, f := Stranded(cap, v);
    }
  }

  lemma ServedWhenSmall<T(!new)>(cap: nat, s: Channel<T>)
    requires cap <= 1 && Reachable(cap, s)
    ensures SendersServed(s)
  {
    hide SendersServed;
    var ops :| CanRun(NewChannel(cap), ops) && Run(NewChannel(cap), ops) == s;
    EveryRunKeepsInv(cap, ops);
  }

  /** Fill the queue, park two sends, receive everything, poll the first: the second is left waiting. */
  lemma Stranded<T(!new)>(cap: nat, v: T) returns (s: Channel<T>, f: nat)
    requires cap >= 2
    ensures Reachable(cap, s) && !SendersServed(s)
    ensures LeftWaiting(s, f) && |s.core.queue| == 1 < cap == s.core.cap
  {
    hide SendersServed, Reachable;
    s := Fill(cap, v, cap);
    s := ParkOne(cap, v, s, 0);
    s := ParkOne(cap, v, s, 1);
    s := PopFull(cap, s);
    s := PopRest(cap, s, cap - 1);
    s := LeftBehind(cap, s);
    f := 1;
  }
}
