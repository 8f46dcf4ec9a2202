/**
  The bounded channel: any number of sender handles and send futures, one
  receiver, over every order of sends, polls, receives and drops.
 */
module Mpsc {
  import opened Options
  import opened NatSets
  import opened Registries
  import opened Waiters

  /** The shared state. `alive` says whether the receiver still owns it. */
  datatype Core<T> = Core(
    queue: seq<T>, cap: nat, senders: nat, alive: bool, recvEv: Registry<()>, sendEv: Registry<()>)

  datatype SendReply = Sent | Closed | SendParked
  datatype RecvReply<T> = Item(value: T) | End | RecvParked

  datatype SendResult<T> = SendResult(core: Core<T>, state: WaitState, reply: SendReply)
  datatype RecvResult<T> = RecvResult(core: Core<T>, state: WaitState, reply: RecvReply<T>)

  function NewCore<T>(cap: nat): Core<T> {
    Core([], cap, 1, true, NewRegistry(), NewRegistry())
  }

  /** Appends a value; the receiver is notified when the queue was empty. */
  ghost function Push<T>(c: Core<T>, v: T): Core<T> {
    c.(queue := c.queue + [v],
       recvEv := if c.queue == [] then Notify(c.recvEv, UpTo(1), ()) else c.recvEv)
  }

  predicate HasRoom<T>(c: Core<T>) {
    |c.queue| < c.cap
  }

  ghost function TrySend<T>(c: Core<T>, v: T): Core<T> {
    if c.alive && HasRoom(c) then Push(c, v) else c
  }

  /** One poll of a send future that still has its value. */
  ghost function PollSend<T>(c: Core<T>, st: WaitState, v: T, task: nat): SendResult<T>
    requires st.Waiting? ==> st.id in c.sendEv.listeners
  {
    var o := PollWaiter(c.sendEv, st, task, !c.alive || HasRoom(c));
    var c1 := c.(sendEv := o.ev);
    if !o.ready then SendResult(c1, o.state, SendParked)
    else if !c.alive then SendResult(c1, o.state, Closed)
    else SendResult(Push(c1, v), o.state, Sent)
  }

  /** One poll of the receiver; senders are notified when the queue was full. */
  ghost function PollRecv<T>(c: Core<T>, st: WaitState, task: nat): RecvResult<T>
    requires st.Waiting? ==> st.id in c.recvEv.listeners
  {
    var o := PollWaiter(c.recvEv, st, task, c.queue != [] || c.senders == 0);
    var c1 := c.(recvEv := o.ev);
    if !o.ready then RecvResult(c1, o.state, RecvParked)
    else if c.queue == [] then RecvResult(c1, o.state, End)
    else RecvResult(Pop(c1), o.state, Item(c.queue[0]))
  }

  ghost function Pop<T>(c: Core<T>): Core<T>
    requires c.queue != []
  {
    c.(queue := c.queue[1..],
       sendEv := if |c.queue| == c.cap then Notify(c.sendEv, UpTo(1), ()) else c.sendEv)
  }

  function CloneSender<T>(c: Core<T>): Core<T> {
    if c.alive then c.(senders := c.senders + 1) else c
  }

  ghost function DropSender<T>(c: Core<T>): Core<T>
    requires c.alive ==> c.senders > 0
  {
    if !c.alive then c
    else if c.senders == 1 then c.(senders := 0, recvEv := Notify(c.recvEv, All, ()))
    else c.(senders := c.senders - 1)
  }

  /** The receiver goes: all sends are notified, then the shared state with both events is dropped. */
  ghost function DropReceiver<T>(c: Core<T>, st: WaitState): Core<T> {
    c.(alive := false, queue := [],
       sendEv := Close(Notify(c.sendEv, All, ())),
       recvEv := DropWaiter(Close(c.recvEv), st))
  }

  // ---- The channel with everything that uses it ----

  /** Who sent a value: a send future, or `try_send`. */
  datatype Source = Future(f: nat) | Direct

  /**
    Live handles, live send futures (their state and the value they still hold),
    the receiver, and the history: every send future made with its value, those
    that returned `Ok`, the accepted values with their sources, and what was
    received.
   */
  datatype Channel<T> = Channel(
    core: Core<T>, recv: WaitState, handles: set<nat>,
    states: map<nat, WaitState>, values: map<nat, Option<T>>,
    made: map<nat, T>, done: set<nat>, accepted: seq<T>, sources: seq<Source>, received: seq<T>)

  datatype Op<T> =
    | OpTrySend(h: nat, v: T)
    | OpSend(h: nat, f: nat, v: T)
    | OpPollSend(f: nat, task: nat)
    | OpDropSend(f: nat)
    | OpClone(h: nat, to: nat)
    | OpDropSender(h: nat)
    | OpPollRecv(task: nat)
    | OpDropReceiver

  function NewChannel<T>(cap: nat): Channel<T> {
    Channel(NewCore(cap), Idle, {0}, map[], map[], map[], {}, [], [], [])
  }

  /** A send future is not polled again once it has returned `Ok`. */
  predicate Can<T>(s: Channel<T>, op: Op<T>) {
    match op
    case OpTrySend(h, _) => h in s.handles
    case OpSend(h, f, _) => h in s.handles && f !in s.made
    case OpPollSend(f, _) =>
      && f in s.states && f in s.values && s.values[f].Some?
      && (s.states[f].Waiting? ==> s.states[f].id in s.core.sendEv.listeners)
    case OpDropSend(f) => f in s.states
    case OpClone(h, to) => h in s.handles && to !in s.handles
    case OpDropSender(h) => h in s.handles && (s.core.alive ==> s.core.senders > 0)
    case OpPollRecv(_) => s.core.alive && (s.recv.Waiting? ==> s.recv.id in s.core.recvEv.listeners)
    case OpDropReceiver => s.core.alive
  }

  ghost function Do<T>(s: Channel<T>, op: Op<T>): Channel<T>
    requires Can(s, op)
  {
    match op
    case OpTrySend(h, v) =>
      var s' := s.(core := TrySend(s.core, v));
      if s.core.alive && HasRoom(s.core) then
        s'.(accepted := s.accepted + [v], sources := s.sources + [Direct])
      else s'
    case OpSend(h, f, v) =>
      s.(states := s.states[f := Idle], values := s.values[f := Some(v)], made := s.made[f := v])
    case OpPollSend(f, task) =>
      var v := s.values[f].value;
      var res := PollSend(s.core, s.states[f], v, task);
      var s' := s.(core := res.core, states := s.states[f := res.state]);
      if res.reply.Sent? then
        s'.(values := s.values[f := None], done := s.done + {f},
            accepted := s.accepted + [v], sources := s.sources + [Future(f)])
      else s'
    case OpDropSend(f) =>
      s.(core := s.core.(sendEv := DropWaiter(s.core.sendEv, s.states[f])),
         states := s.states - {f}, values := s.values - {f})
    case OpClone(h, to) => s.(core := CloneSender(s.core), handles := s.handles + {to})
    case OpDropSender(h) => s.(core := DropSender(s.core), handles := s.handles - {h})
    case OpPollRecv(task) =>
      var res := PollRecv(s.core, s.recv, task);
      s.(core := res.core, recv := res.state,
         received := if res.reply.Item? then s.received + [res.reply.value] else s.received)
    case OpDropReceiver => s.(core := DropReceiver(s.core, s.recv), recv := Idle)
  }

  // ---- Invariants ----

  ghost predicate EventsLinked<T>(s: Channel<T>) {
    && Linked(s.core.recvEv, map[0 := s.recv])
    && Linked(s.core.sendEv, s.states)
    && (s.core.alive ==> !s.core.recvEv.closed && !s.core.sendEv.closed)
  }

  /** While the receiver lives: what was accepted was received or is queued, in order; the bounds hold. */
  ghost predicate Conserved<T>(s: Channel<T>) {
    s.core.alive ==>
      && s.accepted == s.received + s.core.queue
      && |s.core.queue| <= s.core.cap
      && s.core.senders == |s.handles|
  }

  /** A live send future still holds its own value, unless it returned `Ok`; then it waits no more. */
  ghost predicate FuturesFit<T>(s: Channel<T>) {
    && s.values.Keys == s.states.Keys <= s.made.Keys && s.done <= s.made.Keys
    && (forall f :: f in s.values ==> (s.values[f].None? <==> f in s.done))
    && (forall f :: f in s.states && f in s.done ==> s.states[f].Idle?)
    && (forall f :: f in s.values && s.values[f].Some? ==> s.values[f].value == s.made[f])
  }

  /** Every accepted value has a source; a future's value is accepted once if it returned `Ok`, else never. */
  ghost predicate SentOnce<T>(s: Channel<T>) {
    && |s.sources| == |s.accepted|
    && (forall f :: multiset(s.sources)[Future(f)] == if f in s.done then 1 else 0)
    && (forall i :: 0 <= i < |s.sources| && s.sources[i].Future? ==>
          s.sources[i].f in s.made && s.accepted[i] == s.made[s.sources[i].f])
  }

  /** A receiver parked without a notification has nothing to receive and someone to wait for. */
  ghost predicate ReceiverServed<T>(s: Channel<T>) {
    s.core.alive && s.recv.Waiting? && s.recv.id in s.core.recvEv.listeners
    && s.core.recvEv.listeners[s.recv.id].value.None?
    ==> s.core.queue == [] && s.core.senders > 0
  }

  /** With room in the queue, some parked send has been notified. */
  ghost predicate SendersServed<T>(s: Channel<T>) {
    s.core.alive && HasRoom(s.core) ==> Stirred(s.core.sendEv)
  }

  /** Without a receiver, every parked send has been notified. */
  ghost predicate SendsReleased<T>(s: Channel<T>) {
    !s.core.alive ==> Unnotified(s.core.sendEv.listeners) == {}
  }

  ghost predicate Inv<T>(s: Channel<T>) {
    && EventsLinked(s) && Conserved(s) && FuturesFit(s) && SentOnce(s) && ReceiverServed(s) && SendsReleased(s)
    && (s.core.cap <= 1 ==> SendersServed(s))
  }

  // ---- Every operation keeps them: the events ----

  lemma NewFitsLinked<T>(s: Channel<T>, f: nat)
    requires EventsLinked(s) && f !in s.states
    ensures Linked(s.core.sendEv, s.states[f := Idle])
  {
    NewKeepsTied(s.core.sendEv, s.states, f);
  }

  lemma PushKeepsEvents<T>(s: Channel<T>, v: T)
    requires EventsLinked(s)
    ensures EventsLinked(s.(core := Push(s.core, v)))
  {
    hide Linked, Notify;
    NotifyKeepsLinked(s.core.recvEv, map[0 := s.recv], UpTo(1), ());
  }

  lemma PollSendKeepsEvents<T>(s: Channel<T>, f: nat, v: T, task: nat)
    requires EventsLinked(s) && f in s.states && (s.states[f].Waiting? ==> s.states[f].id in s.core.sendEv.listeners)
    ensures var res := PollSend(s.core, s.states[f], v, task);
      EventsLinked(s.(core := res.core, states := s.states[f := res.state]))
  {
    hide Linked, Notify, PollWaiter;
    var free := !s.core.alive || HasRoom(s.core);
    PollKeepsLinked(s.core.sendEv, s.states, f, task, free);
    PollKeepsClosed(s.core.sendEv, s.states[f], task, free);
    var o := PollWaiter(s.core.sendEv, s.states[f], task, free);
    PushKeepsEvents(s.(core := s.core.(sendEv := o.ev), states := s.states[f := o.state]), v);
  }

  lemma PollRecvKeepsEvents<T>(s: Channel<T>, task: nat)
    requires EventsLinked(s) && (s.recv.Waiting? ==> s.recv.id in s.core.recvEv.listeners)
    ensures var res := PollRecv(s.core, s.recv, task);
      EventsLinked(s.(core := res.core, recv := res.state))
  {
    hide Linked, Notify, PollWaiter;
    var free := s.core.queue != [] || s.core.senders == 0;
    PollKeepsLinked(s.core.recvEv, map[0 := s.recv], 0, task, free);
    PollKeepsClosed(s.core.recvEv, s.recv, task, free);
    var o := PollWaiter(s.core.recvEv, s.recv, task, free);
    assert map[0 := s.recv][0 := o.state] == map[0 := o.state];
    NotifyKeepsLinked(s.core.sendEv, s.states, UpTo(1), ());
  }

  lemma DropSendKeepsEvents<T>(s: Channel<T>, f: nat)
    requires EventsLinked(s) && f in s.states
    ensures var ev := DropWaiter(s.core.sendEv, s.states[f]);
      EventsLinked(s.(core := s.core.(sendEv := ev), states := s.states - {f}))
  {
    hide Linked;
    DropKeepsLinked(s.core.sendEv, s.states, f);
  }

  lemma DropSenderKeepsEvents<T>(s: Channel<T>)
    requires EventsLinked(s) && (s.core.alive ==> s.core.senders > 0)
    ensures EventsLinked(s.(core := DropSender(s.core)))
  {
    hide Linked, Notify;
    NotifyKeepsLinked(s.core.recvEv, map[0 := s.recv], All, ());
  }

  lemma DropReceiverKeepsEvents<T>(s: Channel<T>)
    requires EventsLinked(s)
    ensures EventsLinked(s.(core := DropReceiver(s.core, s.recv), recv := Idle))
    ensures Unnotified(DropReceiver(s.core, s.recv).sendEv.listeners) == {}
  {
    AllAreNotified(s.core.sendEv);
    hide Linked, Notify, Close, DropWaiter;
    NotifyKeepsLinked(s.core.sendEv, s.states, All, ());
    CloseKeepsLinked(Notify(s.core.sendEv, All, ()), s.states);
    CloseKeepsLinked(s.core.recvEv, map[0 := s.recv]);
    OneWaiterLeaves(Close(s.core.recvEv), s.recv);
  }

  lemma AllAreNotified(r: Registry<()>)
    ensures Unnotified(Close(Notify(r, All, ())).listeners) == {}
  {
    var u := Unnotified(r.listeners);
    SubsetSize(u, r.listeners.Keys);
    EarliestAll(u, |r.listeners|);
    AwardMarks(r, |r.listeners|, ());
    var n := Notify(r, All, ());
    assert Unnotified(n.listeners) == {};
    assert Unnotified(Close(n).listeners) == Unnotified(n.listeners);
  }

  lemma DoKeepsEvents<T>(s: Channel<T>, op: Op<T>)
    requires EventsLinked(s) && Can(s, op) && (forall f :: f in s.states ==> f in s.made)
    ensures EventsLinked(Do(s, op))
  {
    hide Linked, Push, PollSend, PollRecv, DropSender, DropReceiver;
    match op
    case OpTrySend(h, v) => PushKeepsEvents(s, v);
    case OpSend(h, f, v) => NewFitsLinked(s, f);
    case OpPollSend(f, task) => PollSendKeepsEvents(s, f, s.values[f].value, task);
    case OpDropSend(f) => DropSendKeepsEvents(s, f);
    case OpClone(h, to) =>
    case OpDropSender(h) => DropSenderKeepsEvents(s);
    case OpPollRecv(task) => PollRecvKeepsEvents(s, task);
    case OpDropReceiver => DropReceiverKeepsEvents(s);
  }

  // ---- ... the history ----

  ghost predicate SameBounds<T>(c: Core<T>, c': Core<T>) {
    c'.cap == c.cap && c'.senders == c.senders && c'.alive == c.alive
  }

  lemma PollSendEffect<T>(c: Core<T>, st: WaitState, v: T, task: nat)
    requires st.Waiting? ==> st.id in c.sendEv.listeners
    ensures var res := PollSend(c, st, v, task);
      && SameBounds(c, res.core)
      && (res.reply.Sent? ==> c.alive && HasRoom(c) && res.core.queue == c.queue + [v] && res.state.Idle?)
      && (!res.reply.Sent? ==> res.core.queue == c.queue)
  {
    hide PollWaiter, Notify;
    ReadyWhen(c.sendEv, st, task, !c.alive || HasRoom(c));
  }

  lemma PollRecvEffect<T>(c: Core<T>, st: WaitState, task: nat)
    requires st.Waiting? ==> st.id in c.recvEv.listeners
    ensures var res := PollRecv(c, st, task);
      && SameBounds(c, res.core)
      && (res.reply.Item? ==> c.queue == [res.reply.value] + res.core.queue)
      && (!res.reply.Item? ==> res.core.queue == c.queue)
  {
    hide PollWaiter, Notify;
  }

  /** Handles come and go; the queue is not touched. */
  lemma HandlesKeepConserved<T>(s: Channel<T>, op: Op<T>)
    requires Conserved(s) && Can(s, op) && (op.OpClone? || op.OpDropSender?)
    ensures Conserved(Do(s, op))
  {
    hide Notify;
  }

  lemma DoKeepsConserved<T>(s: Channel<T>, op: Op<T>)
    requires Conserved(s) && Can(s, op)
    ensures Conserved(Do(s, op))
  {
    hide Conserved, Do, Can;
    if op.OpClone? || op.OpDropSender? {
      HandlesKeepConserved(s, op);
    } else {
      QueueKeepsConserved(s, op);
    }
  }

  lemma QueueKeepsConserved<T>(s: Channel<T>, op: Op<T>)
    requires Conserved(s) && Can(s, op) && !op.OpClone? && !op.OpDropSender?
    ensures Conserved(Do(s, op))
  {
    hide PollSend, PollRecv, PollWaiter, Notify, DropWaiter, DropReceiver, DropSender, CloneSender;
    match op
    case OpTrySend(_, v) => assert s.received + s.core.queue + [v] == s.received + (s.core.queue + [v]);
    case OpPollSend(f, task) =>
      var v := s.values[f].value;
      PollSendEffect(s.core, s.states[f], v, task);
      assert s.received + s.core.queue + [v] == s.received + (s.core.queue + [v]);
    case OpPollRecv(task) =>
      PollRecvEffect(s.core, s.recv, task);
      var res := PollRecv(s.core, s.recv, task);
      assert res.reply.Item? ==>
          s.received + ([res.reply.value] + res.core.queue) == s.received + [res.reply.value] + res.core.queue;
    case OpDropReceiver => ReceiverGone(s.core, s.recv);
    case _ =>
  }

  lemma ReceiverGone<T>(c: Core<T>, st: WaitState)
    ensures !DropReceiver(c, st).alive
  {
  }

  lemma DoKeepsFutures<T>(s: Channel<T>, op: Op<T>)
    requires FuturesFit(s) && Can(s, op)
    ensures FuturesFit(Do(s, op))
  {
    if op.OpPollSend? {
      PollSendEffect(s.core, s.states[op.f], s.values[op.f].value, op.task);
    }
    hide PollWaiter, PollSend, Push, TrySend, PollRecv, DropSender, CloneSender, DropReceiver, DropWaiter;
  }

  lemma DoKeepsSentOnce<T>(s: Channel<T>, op: Op<T>)
    requires FuturesFit(s) && SentOnce(s) && Can(s, op)
    ensures SentOnce(Do(s, op))
  {
    hide PollWaiter, PollSend, Push, TrySend, PollRecv, DropSender, CloneSender, DropReceiver, DropWaiter, SentOnce;
    match op
    case OpTrySend(_, v) => SourceAdded(s, Do(s, op), Direct, v);
    case OpPollSend(f, _) => SourceAdded(s, Do(s, op), Future(f), s.values[f].value);
    case _ => SourcesStay(s, op); StillSentOnce(s, Do(s, op));
  }

  lemma StillSentOnce<T>(s: Channel<T>, s': Channel<T>)
    requires SentOnce(s) && s'.sources == s.sources && s'.accepted == s.accepted && s'.done == s.done
    requires forall f :: f in s.made ==> f in s'.made && s'.made[f] == s.made[f]
    ensures SentOnce(s')
  {
  }

  lemma SourceAdded<T>(s: Channel<T>, s': Channel<T>, src: Source, v: T)
    requires SentOnce(s) && s'.made == s.made
    requires src.Future? ==> src.f in s.made && s.made[src.f] == v && src.f !in s.done
    ensures (&& s'.sources == s.sources + [src] && s'.accepted == s.accepted + [v]
             && s'.done == (if src.Future? then s.done + {src.f} else s.done)) ==> SentOnce(s')
    ensures s'.sources == s.sources && s'.accepted == s.accepted && s'.done == s.done ==> SentOnce(s')
  {
    assert multiset(s.sources + [src]) == multiset(s.sources) + multiset{src};
  }

  lemma SourcesStay<T>(s: Channel<T>, op: Op<T>)
    requires Can(s, op) && !op.OpTrySend? && !op.OpPollSend?
    ensures var s' := Do(s, op);
      && s'.sources == s.sources && s'.accepted == s.accepted && s'.done == s.done
      && (forall f :: f in s.made ==> f in s'.made && s'.made[f] == s.made[f])
  {
    hide PollWaiter, PollSend, Push, TrySend, PollRecv, DropSender, CloneSender, DropReceiver, DropWaiter;
  }

  // ---- ... and nobody is forgotten ----

  lemma PushServesReceiver<T>(s: Channel<T>, v: T)
    requires EventsLinked(s) && ReceiverServed(s)
    ensures ReceiverServed(s.(core := Push(s.core, v)))
  {
    assert Counted(s.core.recvEv);
    hide Linked, Notify, Stirred;
    if s.core.queue == [] && s.recv.Waiting? {
      NotifyStirs(s.core.recvEv, UpTo(1), ());
      NotifyKeepsLinked(s.core.recvEv, map[0 := s.recv], UpTo(1), ());
      OneWaiter(Notify(s.core.recvEv, UpTo(1), ()), s.recv);
    }
  }

  lemma DropSenderServesReceiver<T>(s: Channel<T>)
    requires EventsLinked(s) && ReceiverServed(s) && (s.core.alive ==> s.core.senders > 0)
    ensures ReceiverServed(s.(core := DropSender(s.core)))
  {
    assert Counted(s.core.recvEv);
    hide Linked, Notify, Stirred;
    if s.core.senders == 1 && s.recv.Waiting? {
      NotifyStirs(s.core.recvEv, All, ());
      NotifyKeepsLinked(s.core.recvEv, map[0 := s.recv], All, ());
      OneWaiter(Notify(s.core.recvEv, All, ()), s.recv);
    }
  }

  /** A waiter left parked by a poll found nothing free, or was parked unnotified before. */
  lemma ParkedBecause<T>(r: Registry<T>, st: WaitState, task: nat, free: bool)
    requires st.Waiting? ==> st.id in r.listeners
    ensures var o := PollWaiter(r, st, task, free);
      && (o.ready ==> o.state.Idle?)
      && (!o.ready ==> !free || (st.Waiting? && r.listeners[st.id].value.None?))
  {
  }

  lemma PollRecvServesReceiver<T>(s: Channel<T>, task: nat)
    requires ReceiverServed(s) && s.core.alive && (s.recv.Waiting? ==> s.recv.id in s.core.recvEv.listeners)
    ensures var res := PollRecv(s.core, s.recv, task);
      ReceiverServed(s.(core := res.core, recv := res.state))
  {
    hide PollWaiter, Notify;
    ParkedBecause(s.core.recvEv, s.recv, task, s.core.queue != [] || s.core.senders == 0);
  }

  lemma DoServesReceiver<T>(s: Channel<T>, op: Op<T>)
    requires EventsLinked(s) && ReceiverServed(s) && Can(s, op)
    ensures ReceiverServed(Do(s, op))
  {
    hide Linked, Push, PollRecv, DropSender, PollWaiter, Drop, Close, Notify;
    match op
    case OpTrySend(h, v) => PushServesReceiver(s, v);
    case OpPollSend(f, task) =>
      var v := s.values[f].value;
      var o := PollWaiter(s.core.sendEv, s.states[f], task, !s.core.alive || HasRoom(s.core));
      PollSendKeepsEvents(s, f, v, task);
      PollWaiterLinks(s, f, task);
      PushServesReceiver(s.(core := s.core.(sendEv := o.ev), states := s.states[f := o.state]), v);
    case OpDropSender(h) => DropSenderServesReceiver(s);
    case OpPollRecv(task) => PollRecvServesReceiver(s, task);
    case _ =>
  }

  lemma PollWaiterLinks<T>(s: Channel<T>, f: nat, task: nat)
    requires EventsLinked(s) && f in s.states && (s.states[f].Waiting? ==> s.states[f].id in s.core.sendEv.listeners)
    ensures var o := PollWaiter(s.core.sendEv, s.states[f], task, !s.core.alive || HasRoom(s.core));
      EventsLinked(s.(core := s.core.(sendEv := o.ev), states := s.states[f := o.state]))
  {
    hide Linked, PollWaiter;
    PollKeepsLinked(s.core.sendEv, s.states, f, task, !s.core.alive || HasRoom(s.core));
    PollKeepsClosed(s.core.sendEv, s.states[f], task, !s.core.alive || HasRoom(s.core));
  }

  lemma DoServesSenders<T>(s: Channel<T>, op: Op<T>)
    requires EventsLinked(s) && Conserved(s) && SendersServed(s) && s.core.cap <= 1 && Can(s, op)
    ensures SendersServed(Do(s, op))
  {
    assert Counted(s.core.sendEv);
    hide Linked, Stirred, DropSender, PollWaiter, Drop, Close, Notify;
    match op
    case OpPollSend(f, task) =>
      if s.core.alive && HasRoom(s.core) {
        var o := PollWaiter(s.core.sendEv, s.states[f], task, true);
        if !o.ready {
          PendingKeepsStirred(s.core.sendEv, s.states[f], task, true);
        }
      }
    case OpDropSend(f) =>
      if s.core.alive && HasRoom(s.core) && s.states[f].Waiting? {
        DropKeepsStirred(s.core.sendEv, s.states[f].id);
      }
    case OpDropSender(h) => DropSenderKeepsSends(s.core);
    case OpPollRecv(task) =>
      PollRecvPops(s.core, s.recv, task);
      if s.core.queue != [] {
        NotifyStirs(s.core.sendEv, UpTo(1), ());
      }
    case _ =>
  }

  lemma DropSenderKeepsSends<T>(c: Core<T>)
    requires c.alive ==> c.senders > 0
    ensures DropSender(c).sendEv == c.sendEv && DropSender(c).queue == c.queue && DropSender(c).cap == c.cap
  {
  }

  lemma PollRecvPops<T>(c: Core<T>, st: WaitState, task: nat)
    requires st.Waiting? ==> st.id in c.recvEv.listeners
    ensures var c' := PollRecv(c, st, task).core;
      || (c'.sendEv == c.sendEv && c'.queue == c.queue)
      || (&& c.queue != [] && c'.queue == c.queue[1..]
          && (|c.queue| == c.cap ==> c'.sendEv == Notify(c.sendEv, UpTo(1), ())))
  {
    hide PollWaiter, Notify;
  }

  lemma DoKeepsReleased<T>(s: Channel<T>, op: Op<T>)
    requires EventsLinked(s) && SendsReleased(s) && Can(s, op)
    ensures SendsReleased(Do(s, op))
  {
    hide Linked, Notify, Close, PollWaiter, Drop;
    if op.OpDropReceiver? {
      DropReceiverKeepsEvents(s);
    } else if !s.core.alive {
      match op
      case OpPollSend(f, task) => ReleasedPoll(s.core.sendEv, s.states[f], task);
      case OpDropSend(f) => ReleasedDrop(s.core.sendEv, s.states[f]);
      case _ =>
    }
  }

  lemma ReleasedPoll(r: Registry<()>, st: WaitState, task: nat)
    requires Unnotified(r.listeners) == {} && (st.Waiting? ==> st.id in r.listeners)
    ensures var o := PollWaiter(r, st, task, true);
      o.ready && Unnotified(o.ev.listeners) == {}
  {
    PollCases(r, st, task, true);
    if st.Waiting? {
      assert st.id !in Unnotified(r.listeners);
      assert forall x :: x in r.listeners - {st.id} ==> x !in Unnotified(r.listeners);
    }
  }

  lemma ReleasedDrop(r: Registry<()>, st: WaitState)
    requires Unnotified(r.listeners) == {}
    ensures Unnotified(DropWaiter(r, st).listeners) == {}
  {
    if st.Waiting? && st.id in r.listeners {
      assert forall x :: x in r.listeners - {st.id} ==> x !in Unnotified(r.listeners);
      var q := Remove(r, st.id);
      assert Unnotified(q.listeners) == {};
      if r.notified > 0 && r.listeners[st.id].value.Some? {
        AwardMarks(q.(notified := r.notified - 1), 1, ());
      }
    }
  }

  lemma DoKeepsInv<T>(s: Channel<T>, op: Op<T>)
    requires Inv(s) && Can(s, op)
    ensures Inv(Do(s, op))
  {
    assert forall f :: f in s.states ==> f in s.made;
    hide EventsLinked, Conserved, FuturesFit, SentOnce, ReceiverServed, SendersServed, SendsReleased, Can, Do;
    DoKeepsEvents(s, op);
    DoKeepsConserved(s, op);
    DoKeepsFutures(s, op);
    DoKeepsSentOnce(s, op);
    DoServesReceiver(s, op);
    DoKeepsReleased(s, op);
    CapStays(s, op);
    if s.core.cap <= 1 {
      DoServesSenders(s, op);
    }
  }

  lemma CapStays<T>(s: Channel<T>, op: Op<T>)
    requires Can(s, op)
    ensures Do(s, op).core.cap == s.core.cap
  {
    hide PollWaiter, Notify, Drop, Close;
  }
}
