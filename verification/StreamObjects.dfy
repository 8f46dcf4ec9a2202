/** `EventStream` and `EmitterStream` as the program keeps them: a state rewritten by the poll loop. */
module StreamObjects {
  import opened Options
  import opened Registries
  import opened Events
  import opened Streams

  /** The two stream types differ only in when their weak reference can be upgraded, which the caller says. */
  class Stream<T> {
    const event: Events.Event<T>
    var state: StreamState

    ghost predicate Valid()
      reads this, event
    {
      Registries.Valid(event.State()) && (state.Listening? ==> state.id in event.listeners)
    }

    /** `Event::stream` and `Emitter::subscribe`. */
    constructor (event: Events.Event<T>)
      requires Registries.Valid(event.State())
      modifies event
      ensures Valid() && this.event == event
      ensures state == Listening(old(event.nextId)) && event.State() == Registries.Listen(old(event.State()))
    {
      this.event := event;
      state := Done;
      new;
      var id := event.Listen();
      state := Listening(id);
    }

    method PollNext(task: nat, upgrades: bool) returns (reply: Reply<T>)
      requires Valid() && (!event.closed ==> upgrades)
      modifies this, event
      ensures Valid()
      ensures StreamResult(event.State(), state, reply) == PollStream(old(event.State()), old(state), task, upgrades)
    {
      hide Registries.Valid, Registries.Drop;
      while true
        invariant Valid()
        invariant PollStream(event.State(), state, task, upgrades)
               == PollStream(old(event.State()), old(state), task, upgrades)
        decreases if state.Next? then 2 else if state.Listening? then 1 else 0
      {
        match state
        case Listening(id) =>
          var value := event.PollListener(id, task);
          if value.Some? {
            event.DropListener(id);
            state := Next;
            return Yield(value.value);
          }
          if !event.closed {
            return Parked;
          }
          event.DropListener(id);
          state := Done;
        case Next =>
          if upgrades {
            var id := event.Listen();
            state := Listening(id);
          } else {
            state := Done;
          }
        case Done =>
          return Finished;
      }
    }

    method Drop()
      requires Valid()
      modifies event
      ensures Registries.Valid(event.State()) && event.State() == DropStream(old(event.State()), state)
    {
      if state.Listening? {
        event.DropListener(state.id);
      }
    }
  }
}
