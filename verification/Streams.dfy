/** Event streams: a listener that is registered anew after every value it yields. */
module Streams {
  import opened Options
  import opened Registries
  import opened Waiters

  datatype StreamState = Listening(id: nat) | Next | Done

  datatype Reply<T> = Yield(value: T) | Finished | Parked

  datatype StreamResult<T> = StreamResult(ev: Registry<T>, state: StreamState, reply: Reply<T>)

  /**
    One `poll_next`. A value at hand is yielded. Otherwise a stream that listens
    parks, unless the event is closed; one that has just yielded first registers
    again, if `upgrades` says that its weak reference still leads to the event.
   */
  ghost function PollStream<T>(r: Registry<T>, st: StreamState, task: nat, upgrades: bool): StreamResult<T>
    requires st.Listening? ==> st.id in r.listeners
  {
    if st.Done? || (st.Next? && !upgrades) then StreamResult(r, Done, Finished)
    else if st.Listening? && r.listeners[st.id].value.Some? then
      StreamResult(Drop(Consume(r, st.id), st.id), Next, Yield(r.listeners[st.id].value.value))
    else
      var id := if st.Next? then r.nextId else st.id;
      var q := if st.Next? then Enter(r, task) else Park(r, id, task);
      if r.closed then StreamResult(Drop(q, id), Done, Finished)
      else StreamResult(q, Listening(id), Parked)
  }

  ghost function DropStream<T>(r: Registry<T>, st: StreamState): Registry<T> {
    if st.Listening? then Drop(r, st.id) else r
  }

  lemma PollStreamKeepsValid<T>(r: Registry<T>, st: StreamState, task: nat, upgrades: bool)
    requires Valid(r) && (st.Listening? ==> st.id in r.listeners)
    ensures Valid(PollStream(r, st, task, upgrades).ev)
  {
    hide Valid, Drop;
    match st
    case Listening(id) =>
      PollKeepsValid(r, id, task);
      DropKeepsValid(Poll(r, id, task), id);
    case Next =>
      ListenKeepsValid(r);
      PollKeepsValid(Listen(r), r.nextId, task);
      DropKeepsValid(Enter(r, task), r.nextId);
    case Done =>
  }

  /**
    The three ways a `poll_next` can go. A stream that ends has given up its
    listener; one that parks has left a waker of the polling task there.
   */
  lemma StreamRepliesExactly<T>(r: Registry<T>, st: StreamState, task: nat, upgrades: bool)
    requires st.Listening? ==> st.id in r.listeners
    ensures var res := PollStream(r, st, task, upgrades);
      if st.Listening? && r.listeners[st.id].value.Some?
      then res.reply == Yield(r.listeners[st.id].value.value) && res.state.Next? && st.id !in res.ev.listeners
      else if st.Done? || (st.Next? && !upgrades) || r.closed
      then res.reply.Finished? && res.state.Done? && (st.Listening? ==> st.id !in res.ev.listeners)
      else && res.reply.Parked? && res.state.Listening? && res.state.id in res.ev.listeners
           && (st.Listening? ==> res.state == st)
           && res.state.id in res.ev.ledger.parked && res.ev.ledger.parked[res.state.id].task == task
  {
    if st.Listening? {
      ListenerGoes(Consume(r, st.id), st.id);
      ListenerGoes(Park(r, st.id, task), st.id);
    }
    hide Drop;
  }

  lemma ListenerGoes<T>(r: Registry<T>, id: nat)
    ensures id !in Drop(r, id).listeners
  {
  }

  /** A stream whose event is gone yields what it holds, if anything, and then ends. */
  lemma ClosedStreamEnds<T>(r: Registry<T>, st: StreamState, task: nat, upgrades: bool)
    requires r.closed && (st.Listening? ==> st.id in r.listeners)
    ensures var res := PollStream(r, st, task, upgrades);
      && (res.reply.Yield? <==> st.Listening? && r.listeners[st.id].value.Some?)
      && (res.reply.Yield? ==> res.state.Next?)
      && (!res.reply.Yield? ==> res.reply.Finished? && res.state.Done?)
  {
  }
}
