/** `Emitter`: broadcasting values to any number of streams. */
module Emitters {
  import opened Options
  import opened NatSets
  import opened Registries
  import opened Waiters
  import opened Streams

  /**
    A stream with its history: for each time it registered, how many values had
    been emitted before, and the values it yielded.
   */
  datatype Subscriber<T> = Subscriber(state: StreamState, registered: seq<nat>, outs: seq<T>)

  /** The emitter (gone once its event is closed), everything it emitted, and the live streams. */
  datatype System<T> = System(ev: Registry<T>, emits: seq<T>, subs: map<nat, Subscriber<T>>)

  datatype Op<T> =
    | Subscribe(s: nat)
    | Emit(v: T)
    | PollNext(s: nat, task: nat)
    | DropSub(s: nat)
    | DropEmitter

  function NewSystem<T>(): System<T> {
    System(NewRegistry(), [], map[])
  }

  predicate Can<T>(e: System<T>, op: Op<T>) {
    match op
    case Subscribe(s) => !e.ev.closed && s !in e.subs
    case Emit(_) => !e.ev.closed
    case PollNext(s, _) => s in e.subs && (e.subs[s].state.Listening? ==> e.subs[s].state.id in e.ev.listeners)
    case DropSub(s) => s in e.subs
    case DropEmitter => !e.ev.closed
  }

  /** The stream's weak reference can be upgraded exactly while the emitter lives. */
  ghost function PollSub<T>(e: System<T>, s: nat, task: nat): StreamResult<T>
    requires Can(e, PollNext(s, task))
  {
    PollStream(e.ev, e.subs[s].state, task, !e.ev.closed)
  }

  /** The subscriber after its stream was polled; it registered anew if it had been about to. */
  ghost function Polled<T>(e: System<T>, s: nat, task: nat): Subscriber<T>
    requires Can(e, PollNext(s, task))
  {
    var sub, res := e.subs[s], PollSub(e, s, task);
    Subscriber(res.state,
      if sub.state.Next? && res.state.Listening? then sub.registered + [|e.emits|] else sub.registered,
      if res.reply.Yield? then sub.outs + [res.reply.value] else sub.outs)
  }

  ghost function Do<T>(e: System<T>, op: Op<T>): System<T>
    requires Can(e, op)
  {
    match op
    case Subscribe(s) =>
      e.(ev := Listen(e.ev), subs := e.subs[s := Subscriber(Listening(e.ev.nextId), [|e.emits|], [])])
    case Emit(v) => e.(ev := Notify(e.ev, All, v), emits := e.emits + [v])
    case PollNext(s, task) => e.(ev := PollSub(e, s, task).ev, subs := e.subs[s := Polled(e, s, task)])
    case DropSub(s) => e.(ev := DropStream(e.ev, e.subs[s].state), subs := e.subs - {s})
    case DropEmitter => e.(ev := Close(e.ev))
  }

  // ---- Invariants ----

  ghost predicate HeldBy<T>(subs: map<nat, Subscriber<T>>, id: nat) {
    exists s :: s in subs && subs[s].state == Listening(id)
  }

  ghost predicate Unshared<T>(subs: map<nat, Subscriber<T>>) {
    forall s, t :: s in subs && t in subs && subs[s].state.Listening? && subs[s].state == subs[t].state ==> s == t
  }

  /** Each listening stream has a listener of its own, and every listener belongs to a stream. */
  ghost predicate Attached<T>(e: System<T>) {
    && (forall s :: s in e.subs && e.subs[s].state.Listening? ==> e.subs[s].state.id in e.ev.listeners)
    && Unshared(e.subs)
    && (forall id :: id in e.ev.listeners ==> HeldBy(e.subs, id))
  }

  /**
    The stream yielded, for each of its registrations but possibly the last, the
    first value emitted after it; the registrations are further and further on.
   */
  ghost predicate YieldsFirsts<T>(emits: seq<T>, sub: Subscriber<T>) {
    && |sub.outs| <= |sub.registered| <= |sub.outs| + 1
    && (forall i :: 0 <= i < |sub.registered| ==> sub.registered[i] <= |emits|)
    && (forall i :: 0 <= i < |sub.outs| ==> sub.registered[i] < |emits| && sub.outs[i] == emits[sub.registered[i]])
    && (forall i, j :: 0 <= i < j < |sub.registered| ==> sub.registered[i] < sub.registered[j])
  }

  /** A listening stream has one registration open; it holds the first value emitted since, if there is one. */
  ghost predicate HoldsFirst<T>(e: System<T>, sub: Subscriber<T>) {
    sub.state.Listening? && sub.state.id in e.ev.listeners ==>
      && |sub.registered| == |sub.outs| + 1
      && (var at, entry := sub.registered[|sub.outs|], e.ev.listeners[sub.state.id];
          if entry.value.None? then at == |e.emits| else at < |e.emits| && entry.value.value == e.emits[at])
  }

  ghost predicate Caught<T>(sub: Subscriber<T>) {
    !sub.state.Listening? ==> |sub.registered| == |sub.outs| || sub.state.Done?
  }

  ghost predicate Faithful<T>(e: System<T>) {
    forall s :: s in e.subs ==> YieldsFirsts(e.emits, e.subs[s]) && HoldsFirst(e, e.subs[s]) && Caught(e.subs[s])
  }

  ghost predicate Inv<T>(e: System<T>) {
    Valid(e.ev) && Attached(e) && Faithful(e)
  }

  /** Dropping a stream that holds an unread value while another has none would pass the old value on. */
  ghost predicate Harmless<T>(e: System<T>, s: nat)
    requires s in e.subs
  {
    var st := e.subs[s].state;
    st.Listening? && st.id in e.ev.listeners && e.ev.listeners[st.id].value.Some? ==> Unnotified(e.ev.listeners) == {}
  }

  // ---- What the operations do to the listeners ----

  lemma PlainDrop<T>(r: Registry<T>, id: nat)
    requires id in r.listeners && (r.listeners[id].value.Some? ==> Unnotified(r.listeners) == {})
    ensures Drop(r, id).listeners == r.listeners - {id}
  {
    if r.listeners[id].value.Some? && r.notified > 0 {
      var q := Remove(r, id).(notified := r.notified - 1);
      assert forall x :: x in q.listeners ==> x !in Unnotified(r.listeners);
      assert Unnotified(q.listeners) == {};
      EarliestAll({}, 1);
      assert Mark(q.listeners, {}, r.listeners[id].value.value) == q.listeners;
    }
  }

  /** Otherwise the oldest listener without a value gets the old one, and nothing else changes. */
  lemma HandedOn<T>(r: Registry<T>, id: nat) returns (next: nat)
    requires Counted(r) && id in r.listeners && r.listeners[id].value.Some? && Unnotified(r.listeners) != {}
    ensures next != id && next in Unnotified(r.listeners)
    ensures forall x :: x in Unnotified(r.listeners) ==> next <= x
    ensures Drop(r, id).listeners == (r.listeners - {id})[next := Entry(None, r.listeners[id].value)]
  {
    RemoveCounts(r.listeners, id);
    var q := Remove(r, id).(notified := r.notified - 1);
    assert Unnotified(q.listeners) == Unnotified(r.listeners);
    EarliestOne(Unnotified(q.listeners));
    next := Min(Unnotified(q.listeners));
    var v := r.listeners[id].value.value;
    assert Drop(r, id).listeners == Award(q, 1, v).listeners;
    assert Mark(q.listeners, {next}, v) == q.listeners[next := Entry(None, Some(v))];
  }

  // ---- Every operation keeps the streams apart ----

  lemma HeldStays<T>(subs: map<nat, Subscriber<T>>, s: nat, sub: Subscriber<T>, id: nat)
    requires HeldBy(subs, id) && (s in subs ==> subs[s].state != Listening(id))
    ensures HeldBy(subs[s := sub], id) && HeldBy(subs - {s}, id)
  {
    var t :| t in subs && subs[t].state == Listening(id);
    assert subs[s := sub][t] == subs[t] && (subs - {s})[t] == subs[t];
  }

  lemma HeldAt<T>(subs: map<nat, Subscriber<T>>, s: nat, id: nat)
    requires s in subs && subs[s].state == Listening(id)
    ensures HeldBy(subs, id)
  {
  }

  lemma SubscribeKeepsAttached<T>(e: System<T>, s: nat)
    requires Valid(e.ev) && Attached(e) && Can(e, Subscribe(s))
    ensures Attached(Do(e, Subscribe(s)))
  {
    var e' := Do(e, Subscribe(s));
    forall id | id in e'.ev.listeners ensures HeldBy(e'.subs, id) {
      if id == e.ev.nextId {
        assert e'.subs[s].state == Listening(id);
      } else {
        HeldStays(e.subs, s, e'.subs[s], id);
      }
    }
  }

  lemma DropSubKeepsAttached<T>(e: System<T>, s: nat)
    requires Valid(e.ev) && Attached(e) && s in e.subs
    ensures Attached(Do(e, DropSub(s)))
  {
    var e', st := Do(e, DropSub(s)), e.subs[s].state;
    DroppedKeys(e.ev, st);
    hide DropStream, Valid;
    forall id | id in e'.ev.listeners ensures HeldBy(e'.subs, id) {
      HeldStays(e.subs, s, e.subs[s], id);
    }
  }

  lemma DroppedKeys<T>(r: Registry<T>, st: StreamState)
    ensures DropStream(r, st).listeners.Keys == (if st.Listening? then r.listeners.Keys - {st.id} else r.listeners.Keys)
  {
  }

  /** What a poll does to the listeners: it takes one away, adds one, or only parks. */
  lemma PolledListeners<T>(r: Registry<T>, st: StreamState, task: nat, upgrades: bool)
    requires (st.Listening? ==> st.id in r.listeners) && (upgrades <==> !r.closed)
    ensures var res := PollStream(r, st, task, upgrades);
      && (forall id :: id in res.ev.listeners && res.state != Listening(id) ==>
            id in r.listeners && st != Listening(id) && res.ev.listeners[id] == r.listeners[id])
      && (forall id :: id in r.listeners && st != Listening(id) ==> id in res.ev.listeners || id == r.nextId)
      && (res.state.Listening? ==>
            && res.state.id in res.ev.listeners && res.ev.listeners[res.state.id].value.None?
            && (res.state == st || (st.Next? && res.state.id == r.nextId)))
      && (res.reply.Yield? <==> st.Listening? && r.listeners[st.id].value.Some?)
      && (res.reply.Yield? ==> res.state.Next? && res.reply.value == r.listeners[st.id].value.value)
      && (res.state.Listening? ==> st.Next? || st == res.state)
      && (res.state.Next? ==> res.reply.Yield?)
      && (st.Listening? && res.state == st ==> r.listeners[st.id].value.None?)
  {
    if st.Listening? {
      PlainDropOfRead(r, st.id, task);
    }
  }

  lemma PlainDropOfRead<T>(r: Registry<T>, id: nat, task: nat)
    requires id in r.listeners
    ensures Drop(Consume(r, id), id).listeners == r.listeners - {id}
    ensures r.listeners[id].value.None? ==> Drop(Park(r, id, task), id).listeners == r.listeners - {id}
  {
    assert (r.listeners[id := r.listeners[id].(value := None)]) - {id} == r.listeners - {id};
    PlainDrop(Consume(r, id), id);
    if r.listeners[id].value.None? {
      PlainDrop(Park(r, id, task), id);
      assert Park(r, id, task).listeners - {id} == r.listeners - {id};
    }
  }

  lemma PolledState<T>(e: System<T>, s: nat, task: nat)
    requires Can(e, PollNext(s, task))
    ensures Polled(e, s, task).state == PollSub(e, s, task).state
  {
  }

  lemma PollKeepsHeld<T>(e: System<T>, s: nat, task: nat, id: nat)
    requires Attached(e) && Can(e, PollNext(s, task))
    requires id in Do(e, PollNext(s, task)).ev.listeners
    ensures HeldBy(Do(e, PollNext(s, task)).subs, id)
  {
    PolledListeners(e.ev, e.subs[s].state, task, !e.ev.closed);
    PolledState(e, s, task);
    hide PollStream, Polled, HeldBy;
    var sub := Polled(e, s, task);
    if sub.state == Listening(id) {
      HeldAt(e.subs[s := sub], s, id);
    } else {
      HeldStays(e.subs, s, sub, id);
    }
  }

  lemma PollKeepsUnshared<T>(e: System<T>, s: nat, task: nat)
    requires Valid(e.ev) && Attached(e) && Can(e, PollNext(s, task))
    ensures Unshared(e.subs[s := Polled(e, s, task)])
  {
    assert forall id :: id in e.ev.listeners ==> id < e.ev.nextId;
    PolledListeners(e.ev, e.subs[s].state, task, !e.ev.closed);
    PolledState(e, s, task);
    hide PollStream, Valid, Polled, HeldBy;
  }

  lemma PollKeepsAttached<T>(e: System<T>, s: nat, task: nat)
    requires Valid(e.ev) && Attached(e) && Can(e, PollNext(s, task))
    ensures Attached(Do(e, PollNext(s, task)))
  {
    assert forall t :: t in e.subs && t != s && e.subs[t].state.Listening? ==>
        e.subs[t].state != e.subs[s].state && e.subs[t].state.id < e.ev.nextId;
    PollKeepsUnshared(e, s, task);
    PolledListeners(e.ev, e.subs[s].state, task, !e.ev.closed);
    PolledState(e, s, task);
    hide PollStream, Valid, Polled, HeldBy, Unshared;
    forall id | id in Do(e, PollNext(s, task)).ev.listeners ensures HeldBy(Do(e, PollNext(s, task)).subs, id) {
      PollKeepsHeld(e, s, task, id);
    }
  }

  lemma DoKeepsAttached<T>(e: System<T>, op: Op<T>)
    requires Valid(e.ev) && Attached(e) && Can(e, op)
    ensures Attached(Do(e, op))
  {
    hide Valid, PollStream, DropStream;
    match op
    case Subscribe(s) => SubscribeKeepsAttached(e, s);
    case Emit(v) => NotifyAllReaches(e.ev, v); hide Notify; assert Do(e, op).subs == e.subs;
    case PollNext(s, task) => PollKeepsAttached(e, s, task);
    case DropSub(s) => DropSubKeepsAttached(e, s);
    case DropEmitter => assert Close(e.ev).listeners.Keys == e.ev.listeners.Keys;
  }

  // ---- ... and their histories true ----

  lemma EmitKeepsFaithful<T>(e: System<T>, v: T)
    requires Faithful(e) && Can(e, Emit(v))
    ensures Faithful(Do(e, Emit(v)))
  {
    NotifyAllReaches(e.ev, v);
    hide Notify;
  }

  lemma FreshIsFaithful<T>(e: System<T>, s: nat)
    requires Can(e, Subscribe(s))
    ensures var e' := Do(e, Subscribe(s));
      YieldsFirsts(e'.emits, e'.subs[s]) && HoldsFirst(e', e'.subs[s]) && Caught(e'.subs[s])
  {
  }

  lemma SubscribeSparesOthers<T>(e: System<T>, s: nat, t: nat)
    requires Valid(e.ev) && Attached(e) && Can(e, Subscribe(s)) && t in e.subs && HoldsFirst(e, e.subs[t])
    ensures HoldsFirst(Do(e, Subscribe(s)), e.subs[t])
  {
    assert forall id :: id in e.ev.listeners ==> id < e.ev.nextId;
    hide Valid, Unshared, HeldBy;
  }

  lemma SubscribeKeepsFaithful<T>(e: System<T>, s: nat)
    requires Valid(e.ev) && Attached(e) && Faithful(e) && Can(e, Subscribe(s))
    ensures Faithful(Do(e, Subscribe(s)))
  {
    FreshIsFaithful(e, s);
    hide Valid, Attached, YieldsFirsts, HoldsFirst, Caught;
    var e' := Do(e, Subscribe(s));
    forall t | t in e.subs ensures YieldsFirsts(e'.emits, e.subs[t]) && HoldsFirst(e', e.subs[t]) && Caught(e.subs[t]) {
      SubscribeSparesOthers(e, s, t);
    }
  }

  lemma CloseKeepsFaithful<T>(e: System<T>)
    requires Faithful(e)
    ensures Faithful(e.(ev := Close(e.ev)))
  {
  }

  /** Yielding the value held for the open registration. */
  lemma YieldExtends<T>(emits: seq<T>, sub: Subscriber<T>, st: StreamState, v: T)
    requires YieldsFirsts(emits, sub) && |sub.registered| == |sub.outs| + 1
    requires sub.registered[|sub.outs|] < |emits| && v == emits[sub.registered[|sub.outs|]]
    ensures YieldsFirsts(emits, Subscriber(st, sub.registered, sub.outs + [v]))
  {
  }

  /** Registering anew once every registration has yielded. */
  lemma RegistrationExtends<T>(emits: seq<T>, sub: Subscriber<T>, st: StreamState)
    requires YieldsFirsts(emits, sub) && |sub.registered| == |sub.outs|
    ensures YieldsFirsts(emits, Subscriber(st, sub.registered + [|emits|], sub.outs))
  {
  }

  lemma PolledYieldsFirsts<T>(e: System<T>, s: nat, task: nat)
    requires Faithful(e) && Can(e, PollNext(s, task))
    ensures YieldsFirsts(e.emits, Polled(e, s, task))
  {
    var sub, res := e.subs[s], PollSub(e, s, task);
    PolledListeners(e.ev, sub.state, task, !e.ev.closed);
    assert YieldsFirsts(e.emits, sub) && HoldsFirst(e, sub) && Caught(sub);
    hide PollStream, Faithful;
    if res.reply.Yield? {
      YieldExtends(e.emits, sub, res.state, res.reply.value);
    } else if sub.state.Next? && res.state.Listening? {
      RegistrationExtends(e.emits, sub, res.state);
    }
  }

  lemma PolledHoldsFirst<T>(e: System<T>, s: nat, task: nat)
    requires Faithful(e) && Can(e, PollNext(s, task))
    ensures HoldsFirst(Do(e, PollNext(s, task)), Polled(e, s, task)) && Caught(Polled(e, s, task))
  {
    var sub := e.subs[s];
    PolledListeners(e.ev, sub.state, task, !e.ev.closed);
    assert YieldsFirsts(e.emits, sub) && HoldsFirst(e, sub) && Caught(sub);
    hide PollStream, Faithful;
  }

  /** A poll of one stream leaves what another one holds as it was. */
  lemma PollSparesOthers<T>(e: System<T>, s: nat, task: nat, t: nat)
    requires Valid(e.ev) && Attached(e) && Faithful(e) && Can(e, PollNext(s, task)) && t in e.subs && t != s
    ensures HoldsFirst(Do(e, PollNext(s, task)), e.subs[t])
  {
    assert e.subs[t].state.Listening? ==> e.subs[t].state.id < e.ev.nextId && e.subs[t].state != e.subs[s].state;
    assert HoldsFirst(e, e.subs[t]);
    hide PollStream, Valid, Attached, Polled, Faithful;
    PolledListeners(e.ev, e.subs[s].state, task, !e.ev.closed);
  }

  lemma PollKeepsFaithful<T>(e: System<T>, s: nat, task: nat)
    requires Valid(e.ev) && Attached(e) && Faithful(e) && Can(e, PollNext(s, task))
    ensures Faithful(Do(e, PollNext(s, task)))
  {
    hide PollStream, PollSub, Valid, Attached, YieldsFirsts, HoldsFirst, Caught, Polled;
    PolledYieldsFirsts(e, s, task);
    PolledHoldsFirst(e, s, task);
    var e' := Do(e, PollNext(s, task));
    forall t | t in e'.subs && t != s
      ensures YieldsFirsts(e'.emits, e'.subs[t]) && HoldsFirst(e', e'.subs[t]) && Caught(e'.subs[t])
    {
      PollSparesOthers(e, s, task, t);
    }
  }

  /** Dropping a stream keeps every history true exactly if it passes no old value on. */
  lemma DropKeepsFaithfulExactly<T>(e: System<T>, s: nat)
    requires Inv(e) && s in e.subs
    ensures Faithful(Do(e, DropSub(s))) <==> Harmless(e, s)
  {
    if Harmless(e, s) {
      HarmlessDrop(e, s);
    } else {
      HarmfulDrop(e, s);
    }
  }

  lemma HarmlessDrop<T>(e: System<T>, s: nat)
    requires Inv(e) && s in e.subs && Harmless(e, s)
    ensures Faithful(Do(e, DropSub(s)))
  {
    var st := e.subs[s].state;
    if st.Listening? {
      PlainDrop(e.ev, st.id);
    }
    hide Drop, Valid;
    var e' := Do(e, DropSub(s));
    forall t | t in e'.subs
      ensures YieldsFirsts(e'.emits, e'.subs[t]) && HoldsFirst(e', e'.subs[t]) && Caught(e'.subs[t])
    {
      assert e'.subs[t] == e.subs[t];
    }
  }

  lemma HarmfulDrop<T>(e: System<T>, s: nat)
    requires Inv(e) && s in e.subs && !Harmless(e, s)
    ensures !Faithful(Do(e, DropSub(s)))
  {
    InvCounts(e);
    hide Inv, Faithful, Harmless, Do, HoldsFirst;
    var next := PassedOn(e, s);
    var t := Owner(e, next);
    OldValueShows(e, s, t);
  }

  lemma InvCounts<T>(e: System<T>)
    requires Inv(e)
    ensures Counted(e.ev)
  {
    hide Attached, Faithful, Counted;
  }

  lemma PassedOn<T>(e: System<T>, s: nat) returns (next: nat)
    requires Counted(e.ev) && s in e.subs && !Harmless(e, s)
    ensures e.subs[s].state != Listening(next) && next in e.ev.listeners && e.ev.listeners[next].value.None?
    ensures var ls := Do(e, DropSub(s)).ev.listeners; next in ls && ls[next].value.Some?
  {
    hide Counted, Drop;
    next := HandedOn(e.ev, e.subs[s].state.id);
    hide Unnotified;
  }

  lemma Owner<T>(e: System<T>, id: nat) returns (t: nat)
    requires Inv(e) && id in e.ev.listeners
    ensures t in e.subs && e.subs[t].state == Listening(id) && HoldsFirst(e, e.subs[t])
  {
    hide Valid, HoldsFirst, YieldsFirsts, Caught;
    assert HeldBy(e.subs, id);
    t :| t in e.subs && e.subs[t].state == Listening(id);
  }

  /** An old value in a listener that had none contradicts its stream's history. */
  lemma OldValueShows<T>(e: System<T>, s: nat, t: nat)
    requires s in e.subs && t in e.subs && s != t && HoldsFirst(e, e.subs[t])
    requires e.subs[t].state.Listening? && e.subs[t].state.id in e.ev.listeners
    requires e.ev.listeners[e.subs[t].state.id].value.None?
    requires var ls := Do(e, DropSub(s)).ev.listeners; e.subs[t].state.id in ls && ls[e.subs[t].state.id].value.Some?
    ensures !Faithful(Do(e, DropSub(s)))
  {
    hide DropStream, YieldsFirsts, Caught;
    var e' := Do(e, DropSub(s));
    assert t in e'.subs && e'.subs[t] == e.subs[t];
    assert !HoldsFirst(e', e.subs[t]);
  }

  // ---- Runs ----

  /** A step that passes no old value on. */
  ghost predicate Gentle<T>(e: System<T>, op: Op<T>) {
    Can(e, op) && (op.DropSub? ==> Harmless(e, op.s))
  }

  lemma DoKeepsValid<T>(e: System<T>, op: Op<T>)
    requires Valid(e.ev) && Can(e, op)
    ensures Valid(Do(e, op).ev)
  {
    hide Valid, PollStream, Drop, Grant;
    match op
    case Subscribe(s) => ListenKeepsValid(e.ev);
    case Emit(v) => GrantKeepsValid(e.ev, Missing(e.ev, All), v);
    case PollNext(s, task) => PollStreamKeepsValid(e.ev, e.subs[s].state, task, !e.ev.closed);
    case DropSub(s) =>
      if e.subs[s].state.Listening? {
        DropKeepsValid(e.ev, e.subs[s].state.id);
      }
    case DropEmitter => CloseKeepsValid(e.ev);
  }

  lemma DoKeepsInv<T>(e: System<T>, op: Op<T>)
    requires Inv(e) && Gentle(e, op)
    ensures Inv(Do(e, op))
  {
    DoKeepsValid(e, op);
    DoKeepsAttached(e, op);
    hide Valid, Attached, Faithful, Harmless;
    match op
    case Subscribe(s) => SubscribeKeepsFaithful(e, s);
    case Emit(v) => EmitKeepsFaithful(e, v);
    case PollNext(s, task) => PollKeepsFaithful(e, s, task);
    case DropSub(s) => HarmlessDrop(e, s);
    case DropEmitter => CloseKeepsFaithful(e);
  }

  ghost predicate CanRun<T>(e: System<T>, ops: seq<Op<T>>)
    decreases |ops|
  {
    ops == [] || (Can(e, ops[0]) && CanRun(Do(e, ops[0]), ops[1..]))
  }

  ghost function Run<T>(e: System<T>, ops: seq<Op<T>>): System<T>
    requires CanRun(e, ops)
    decreases |ops|
  {
    if ops == [] then e else Run(Do(e, ops[0]), ops[1..])
  }

  /** A run in which no step passes an old value on. */
  ghost predicate GentleRun<T>(e: System<T>, ops: seq<Op<T>>)
    decreases |ops|
  {
    CanRun(e, ops) && (ops == [] || (Gentle(e, ops[0]) && GentleRun(Do(e, ops[0]), ops[1..])))
  }

  lemma {:induction false} RunKeepsInv<T>(e: System<T>, ops: seq<Op<T>>)
    requires Inv(e) && GentleRun(e, ops)
    ensures Inv(Run(e, ops))
    decreases |ops|
  {
    hide Inv, Do, Harmless;
    if ops != [] {
      DoKeepsInv(e, ops[0]);
      RunKeepsInv(Do(e, ops[0]), ops[1..]);
    }
  }

  lemma NewInv<T>()
    ensures Inv(NewSystem<T>())
  {
    hide Valid;
    NewIsValid<T>();
  }

  /**
    As long as no dropped stream passes an old value on, every stream yields, for
    each of its registrations, the first value emitted after it: an ordered
    subsequence of what was emitted, without repeats. And it does yield it: the
    next poll of a listening stream yields the first value emitted since it
    registered if there is one, and nothing otherwise.
   */
  lemma StreamsYieldFirsts<T>(ops: seq<Op<T>>, s: nat, task: nat)
    requires GentleRun(NewSystem(), ops) && s in Run(NewSystem(), ops).subs
    ensures var e := Run(NewSystem<T>(), ops); var sub := e.subs[s];
      && |sub.outs| <= |sub.registered| <= |sub.outs| + 1
      && (forall i :: 0 <= i < |sub.outs| ==>
            sub.registered[i] < |e.emits| && sub.outs[i] == e.emits[sub.registered[i]])
      && (forall i, j :: 0 <= i < j < |sub.registered| ==> sub.registered[i] < sub.registered[j])
      && Can(e, PollNext(s, task))
      && (sub.state.Listening? ==>
            && |sub.registered| == |sub.outs| + 1
            && (var at, reply := sub.registered[|sub.outs|], PollSub(e, s, task).reply;
                if at < |e.emits| then reply == Yield(e.emits[at]) else !reply.Yield?))
  {
    hide Run, CanRun, Valid, Attached, HoldsFirst, Caught, Can, PollSub;
    NewInv<T>();
    RunKeepsInv(NewSystem<T>(), ops);
    assert YieldsFirsts(Run(NewSystem<T>(), ops).emits, Run(NewSystem<T>(), ops).subs[s]);
    PollDelivers(Run(NewSystem<T>(), ops), s, task);
  }

  /** What the next poll of a stream yields. */
  lemma PollDelivers<T>(e: System<T>, s: nat, task: nat)
    requires Inv(e) && s in e.subs
    ensures Can(e, PollNext(s, task))
    ensures var sub := e.subs[s]; sub.state.Listening? ==>
      && |sub.registered| == |sub.outs| + 1
      && (var at, reply := sub.registered[|sub.outs|], PollSub(e, s, task).reply;
          if at < |e.emits| then reply == Yield(e.emits[at]) else !reply.Yield?)
  {
    hide Valid, YieldsFirsts, Caught, PollStream;
    assert HoldsFirst(e, e.subs[s]);
    PolledListeners(e.ev, e.subs[s].state, task, !e.ev.closed);
  }
}
