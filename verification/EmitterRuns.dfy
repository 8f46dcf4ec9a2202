/** What the emitter guarantees over every run, harmful drops included, and a run that shows the harm. */
module EmitterRuns {
  import opened Options
  import opened Registries
  import opened Waiters
  import opened Streams
  import opened Emitters

  // ---- What every operation comes to ----

  ghost predicate Wired<T>(e: System<T>) {
    Valid(e.ev) && Attached(e)
  }

  lemma {:induction false} RunKeepsWired<T>(e: System<T>, ops: seq<Op<T>>)
    requires Wired(e) && CanRun(e, ops)
    ensures Wired(Run(e, ops))
    decreases |ops|
  {
    hide Valid, Attached, Do, Can;
    if ops != [] {
      DoKeepsValid(e, ops[0]);
      DoKeepsAttached(e, ops[0]);
      RunKeepsWired(Do(e, ops[0]), ops[1..]);
    }
  }

  lemma EveryRunIsWired<T>(ops: seq<Op<T>>)
    requires CanRun(NewSystem<T>(), ops)
    ensures Wired(Run(NewSystem<T>(), ops))
  {
    hide Valid;
    NewIsValid<T>();
    RunKeepsWired(NewSystem<T>(), ops);
  }

  /** What a stream does at its next poll: the value it holds, the end once the emitter is gone, or it parks. */
  ghost function Expected<T>(e: System<T>, st: StreamState): Reply<T> {
    if st.Listening? && st.id in e.ev.listeners && e.ev.listeners[st.id].value.Some?
    then Yield(e.ev.listeners[st.id].value.value)
    else if st.Done? || e.ev.closed then Finished
    else Parked
  }

  /** Over every run; and a stream that parks has left a waker of the polling task. */
  lemma StreamRepliesExactly<T>(ops: seq<Op<T>>, s: nat, task: nat)
    requires CanRun(NewSystem<T>(), ops) && s in Run(NewSystem<T>(), ops).subs
    ensures var e := Run(NewSystem<T>(), ops);
      && Can(e, PollNext(s, task))
      && PollSub(e, s, task).reply == Expected(e, e.subs[s].state)
      && (var res := PollSub(e, s, task); res.reply.Parked? ==> LeftWaker(res.ev, res.state, task))
  {
    EveryRunIsWired(ops);
    hide Run, CanRun, Valid, Expected, PollSub, Can, LeftWaker;
    StreamReply(Run(NewSystem<T>(), ops), s, task);
  }

  ghost predicate LeftWaker<T>(r: Registry<T>, st: StreamState, task: nat) {
    st.Listening? && st.id in r.ledger.parked && r.ledger.parked[st.id].task == task
  }

  lemma StreamReply<T>(e: System<T>, s: nat, task: nat)
    requires Wired(e) && s in e.subs
    ensures Can(e, PollNext(s, task))
    ensures PollSub(e, s, task).reply == Expected(e, e.subs[s].state)
    ensures var res := PollSub(e, s, task); res.reply.Parked? ==> LeftWaker(res.ev, res.state, task)
  {
    hide Valid, Drop;
  }

  /** Over every run every stream can be polled and dropped, and an emitter that lives can be used. */
  lemma NothingIsRefused<T>(ops: seq<Op<T>>, s: nat, v: T, task: nat)
    requires CanRun(NewSystem<T>(), ops)
    ensures var e := Run(NewSystem<T>(), ops);
      && (s in e.subs ==> Can(e, PollNext(s, task)) && Can(e, DropSub(s)))
      && (!e.ev.closed ==> Can(e, Emit(v)) && Can(e, DropEmitter) && (s !in e.subs ==> Can(e, Subscribe(s))))
  {
    EveryRunIsWired(ops);
    hide Run, CanRun, Valid;
  }

  /**
    Subscribing, emitting, dropping a stream, and dropping the emitter: a listening
    stream without a value gets the emitted one, and is woken by both.
   */
  lemma SubscriptionsComeAndGo<T>(e: System<T>, op: Op<T>)
    requires Wired(e) && Can(e, op)
    ensures var e' := Do(e, op);
      match op
      case Subscribe(s) =>
        && s in e'.subs && e'.subs[s].state.Listening? && e'.subs[s].registered == [|e.emits|] && e'.subs[s].outs == []
        && e'.ev.listeners[e'.subs[s].state.id].value.None?
      case Emit(v) =>
        && e'.emits == e.emits + [v] && e'.subs == e.subs
        && (forall s :: s in e.subs && Unserved(e, e.subs[s].state) ==> Served(e', e.subs[s].state, Some(v)))
      case PollNext(s, _) => e'.subs.Keys == e.subs.Keys && e'.emits == e.emits
      case DropSub(s) => e'.subs == e.subs - {s} && e'.emits == e.emits
      case DropEmitter =>
        && e'.ev.closed && e'.subs == e.subs && e'.emits == e.emits
        && (forall s :: s in e.subs && Unserved(e, e.subs[s].state) ==> Served(e', e.subs[s].state, None))
  {
    DoKeepsValid(e, op);
    DoKeepsAttached(e, op);
    match op
    case Emit(v) => EmitServes(e, v);
    case DropEmitter => CloseServes(e);
    case PollNext(_, _) => hide PollStream;
    case _ => hide Valid;
  }

  /** The stream listens and holds nothing. */
  ghost predicate Unserved<T>(e: System<T>, st: StreamState) {
    st.Listening? && st.id in e.ev.listeners && e.ev.listeners[st.id].value.None?
  }

  /** The stream's listener has `value`, and the waker its latest poll left, if it was polled, has been woken. */
  ghost predicate Served<T>(e: System<T>, st: StreamState, value: Option<T>) {
    && st.Listening? && st.id in e.ev.listeners && e.ev.listeners[st.id].value == value
    && (st.id in e.ev.ledger.parked ==> e.ev.ledger.parked[st.id] in e.ev.ledger.woken)
  }

  lemma EmitServes<T>(e: System<T>, v: T)
    requires Wired(e) && Can(e, Emit(v)) && Valid(Do(e, Emit(v)).ev)
    ensures var e' := Do(e, Emit(v));
      && e'.emits == e.emits + [v] && e'.subs == e.subs
      && (forall s :: s in e.subs && Unserved(e, e.subs[s].state) ==> Served(e', e.subs[s].state, Some(v)))
  {
    NotifyAllReaches(e.ev, v);
    assert ParkedKept(Do(e, Emit(v)).ev);
    assert Sound(Do(e, Emit(v)).ev);
    hide Notify, Valid;
  }

  lemma CloseServes<T>(e: System<T>)
    requires Wired(e) && Can(e, DropEmitter) && Valid(Do(e, DropEmitter).ev)
    ensures var e' := Do(e, DropEmitter);
      && e'.ev.closed && e'.subs == e.subs && e'.emits == e.emits
      && (forall s :: s in e.subs && Unserved(e, e.subs[s].state) ==> Served(e', e.subs[s].state, None))
  {
    assert ParkedKept(Do(e, DropEmitter).ev);
    hide Valid;
  }

  // ---- A drop that does harm ----

  lemma {:induction false} RunSnoc<T>(e: System<T>, ops: seq<Op<T>>, op: Op<T>)
    requires CanRun(e, ops) && Can(Run(e, ops), op)
    ensures CanRun(e, ops + [op]) && Run(e, ops + [op]) == Do(Run(e, ops), op)
    decreases |ops|
  {
    hide Do, Can;
    if ops == [] {
      assert (ops + [op])[0] == op && (ops + [op])[1..] == [];
    } else {
      RunSnoc(Do(e, ops[0]), ops[1..], op);
      assert (ops + [op])[1..] == ops[1..] + [op];
    }
  }

  ghost predicate Leads<T>(ops: seq<Op<T>>, e: System<T>) {
    CanRun(NewSystem<T>(), ops) && Run(NewSystem<T>(), ops) == e
  }

  lemma LeadsOn<T>(ops: seq<Op<T>>, e: System<T>, op: Op<T>)
    requires Leads(ops, e) && Can(e, op)
    ensures Leads(ops + [op], Do(e, op))
  {
    hide Do, Can;
    RunSnoc(NewSystem<T>(), ops, op);
  }

  /** Stream 0 holds `v`; stream 1 registered after `v` was emitted, and holds nothing. */
  ghost predicate HoldsOld<T>(e: System<T>, v: T) {
    && e.subs == map[0 := Subscriber(Listening(0), [0], []), 1 := Subscriber(Listening(1), [1], [])]
    && e.emits == [v] && !e.ev.closed && e.ev.listeners.Keys == {0, 1}
    && e.ev.listeners[0].value == Some(v) && e.ev.listeners[1].value.None?
  }

  /** Stream 0 alone listens, and holds `value`. */
  ghost predicate Alone<T>(e: System<T>, emits: seq<T>, value: Option<T>) {
    && e.subs == map[0 := Subscriber(Listening(0), [0], [])] && e.emits == emits && !e.ev.closed
    && e.ev.nextId == 1 && e.ev.listeners.Keys == {0} && e.ev.listeners[0].value == value
  }

  lemma SubscribeFirst<T>()
    ensures Leads([], NewSystem<T>())
    ensures Can(NewSystem<T>(), Op.Subscribe(0)) && Alone(Do(NewSystem<T>(), Op.Subscribe(0)), [], None)
  {
  }

  lemma EmitToOne<T>(e: System<T>, v: T)
    requires Alone(e, [], None)
    ensures Can(e, Op.Emit(v)) && Alone(Do(e, Op.Emit(v)), [v], Some(v))
  {
    NotifyAllReaches(e.ev, v);
    assert Notify(e.ev, All, v).nextId == e.ev.nextId && Notify(e.ev, All, v).closed == e.ev.closed;
    hide Notify;
  }

  lemma SubscribeSecond<T>(e: System<T>, v: T)
    requires Alone(e, [v], Some(v))
    ensures Can(e, Op.Subscribe(1)) && HoldsOld(Do(e, Op.Subscribe(1)), v)
  {
  }

  lemma GoOn<T>(ops: seq<Op<T>>, e: System<T>, op: Op<T>)
    requires Leads(ops, e) && Inv(e) && Can(e, op) && !op.DropSub?
    ensures Leads(ops + [op], Do(e, op)) && Inv(Do(e, op))
  {
    hide Inv, Do, Can, Leads;
    LeadsOn(ops, e, op);
    DoKeepsInv(e, op);
  }

  lemma HoldOld<T>(v: T) returns (e: System<T>, ops: seq<Op<T>>)
    ensures Leads(ops, e) && ops == [Op.Subscribe(0), Op.Emit(v), Op.Subscribe(1)]
    ensures Inv(e) && HoldsOld(e, v)
  {
    hide Leads, Inv, Alone, HoldsOld, Do, Can, NewSystem;
    e, ops := NewSystem<T>(), [];
    SubscribeFirst<T>();
    NewInv<T>();
    GoOn(ops, e, Op.Subscribe(0));
    e, ops := Do(e, Op.Subscribe(0)), ops + [Op.Subscribe(0)];
    EmitToOne(e, v);
    GoOn(ops, e, Op.Emit(v));
    e, ops := Do(e, Op.Emit(v)), ops + [Op.Emit(v)];
    SubscribeSecond(e, v);
    GoOn(ops, e, Op.Subscribe(1));
    e, ops := Do(e, Op.Subscribe(1)), ops + [Op.Subscribe(1)];
  }

  /** The same after the drop: stream 1 holds the old value. */
  lemma DropPasses<T>(e: System<T>, v: T)
    requires Counted(e.ev) && HoldsOld(e, v)
    ensures 0 in e.subs && !Harmless(e, 0) && Can(e, DropSub(0))
    ensures var d := Do(e, DropSub(0));
      && d.emits == [v] && d.subs == map[1 := Subscriber(Listening(1), [1], [])]
      && 1 in d.ev.listeners && d.ev.listeners[1].value == Some(v)
  {
    assert 1 in Unnotified(e.ev.listeners);
    hide Counted, Drop;
    var next := HandedOn(e.ev, 0);
    assert next == 1;
    hide Unnotified;
    assert e.subs - {0} == map[1 := Subscriber(Listening(1), [1], [])];
  }

  lemma PollYieldsOld<T>(d: System<T>, v: T, task: nat)
    requires d.emits == [v] && d.subs == map[1 := Subscriber(Listening(1), [1], [])]
    requires 1 in d.ev.listeners && d.ev.listeners[1].value == Some(v)
    ensures Can(d, PollNext(1, task))
    ensures var e := Do(d, PollNext(1, task));
      e.emits == [v] && 1 in e.subs && e.subs[1].registered == [1] && e.subs[1].outs == [v]
  {
    hide Drop, Consume, Enter, Park;
  }

  /**
    A run in which a dropped stream makes another one yield a value from before it
    registered: the second stream registers after the only emit, and yields it.
   */
  lemma OldValueYielded<T>(v: T, task: nat) returns (e: System<T>, ops: seq<Op<T>>)
    ensures ops == [Op.Subscribe(0), Op.Emit(v), Op.Subscribe(1), DropSub(0), PollNext(1, task)]
    ensures CanRun(NewSystem<T>(), ops) && Run(NewSystem<T>(), ops) == e
    ensures CanRun(NewSystem<T>(), ops[..3])
    ensures var d := Run(NewSystem<T>(), ops[..3]); Inv(d) && 0 in d.subs && !Harmless(d, 0)
    ensures e.emits == [v] && 1 in e.subs && e.subs[1].registered == [1] && e.subs[1].outs == [v]
  {
    hide Inv, Do, Can, Harmless, CanRun, Run, HoldsOld, Counted;
    var d, first := HoldOld(v);
    InvCounts(d);
    DropPasses(d, v);
    PollYieldsOld(Do(d, DropSub(0)), v, task);
    LeadsOn(first, d, DropSub(0));
    LeadsOn(first + [DropSub(0)], Do(d, DropSub(0)), PollNext(1, task));
    e := Do(Do(d, DropSub(0)), PollNext(1, task));
    ops := first + [DropSub(0)] + [PollNext(1, task)];
    assert ops[..3] == first;
  }

  // ---- After the emitter is gone ----

  /** How many values a stream can still yield then. */
  function Left(st: StreamState): nat {
    if st.Listening? then 1 else 0
  }

  lemma ClosedStep<T>(e: System<T>, op: Op<T>, s: nat)
    requires Can(e, op) && e.ev.closed && s in e.subs && !(op.DropSub? && op.s == s)
    ensures var e' := Do(e, op);
      && e'.ev.closed && s in e'.subs
      && |e'.subs[s].outs| + Left(e'.subs[s].state) <= |e.subs[s].outs| + Left(e.subs[s].state)
      && (e.subs[s].state.Done? ==> e'.subs[s].state.Done?)
  {
    if op.PollNext? {
      ClosedStreamEnds(e.ev, e.subs[op.s].state, op.task, false);
    }
  }

  /** From a closed emitter on, a stream yields at most one more value, and once it has ended it stays ended. */
  lemma {:induction false} ClosedRun<T>(e: System<T>, ops: seq<Op<T>>, s: nat)
    requires CanRun(e, ops) && e.ev.closed && s in e.subs && forall op :: op in ops && op.DropSub? ==> op.s != s
    ensures var e' := Run(e, ops);
      && s in e'.subs
      && |e'.subs[s].outs| + Left(e'.subs[s].state) <= |e.subs[s].outs| + Left(e.subs[s].state)
      && (e.subs[s].state.Done? ==> e'.subs[s].state.Done?)
    decreases |ops|
  {
    hide Do, Can;
    if ops != [] {
      assert ops[0] in ops;
      ClosedStep(e, ops[0], s);
      ClosedRun(Do(e, ops[0]), ops[1..], s);
    }
  }

  lemma {:induction false} RunSplits<T>(e: System<T>, before: seq<Op<T>>, after: seq<Op<T>>)
    requires CanRun(e, before + after)
    ensures CanRun(e, before) && CanRun(Run(e, before), after) && Run(e, before + after) == Run(Run(e, before), after)
    decreases |before|
  {
    hide Do, Can;
    if before == [] {
      assert before + after == after;
    } else {
      assert (before + after)[0] == before[0] && (before + after)[1..] == before[1..] + after;
      RunSplits(Do(e, before[0]), before[1..], after);
    }
  }

  /**
    In every run in which the emitter is dropped, a stream that lives on yields at
    most one value after that, and only if it was listening; one that had ended
    stays ended.
   */
  lemma AtMostOneMore<T>(before: seq<Op<T>>, after: seq<Op<T>>, s: nat)
    requires CanRun(NewSystem<T>(), before + ([DropEmitter] + after))
    requires forall op :: op in after && op.DropSub? ==> op.s != s
    ensures CanRun(NewSystem<T>(), before)
    ensures s in Run(NewSystem<T>(), before).subs ==>
      var e, e' := Run(NewSystem<T>(), before), Run(NewSystem<T>(), before + ([DropEmitter] + after));
      && s in e'.subs
      && |e'.subs[s].outs| + Left(e'.subs[s].state) <= |e.subs[s].outs| + Left(e.subs[s].state)
      && (e.subs[s].state.Done? ==> e'.subs[s].state.Done?)
  {
    RunSplits(NewSystem<T>(), before, [DropEmitter] + after);
    var e := Run(NewSystem<T>(), before);
    assert ([DropEmitter] + after)[0] == DropEmitter && ([DropEmitter] + after)[1..] == after;
    if s in e.subs {
      EveryRunIsWired(before);
      SubscriptionsComeAndGo(e, DropEmitter);
      hide Do, Can, Wired;
      ClosedRun(Do(e, DropEmitter), after, s);
    }
  }
}
