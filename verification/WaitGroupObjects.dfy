/** `WaitGroup`, its tickets and its wait future as the program keeps them. */
module WaitGroupObjects {
  import opened Registries
  import opened Events
  import opened Streams
  import opened StreamObjects
  import opened WaitGroups

  class WaitGroup {
    const event: Events.Event<()>
    var tickets: nat

    ghost predicate Valid()
      reads this, event
    {
      Registries.Valid(event.State())
    }

    constructor ()
      ensures Valid() && fresh(event) && event.State() == NewRegistry() && tickets == 0
    {
      hide Registries.Valid;
      event := new Events.Event();
      tickets := 0;
      new;
      NewIsValid<()>();
    }

    method Add() returns (ticket: Ticket)
      requires Valid()
      modifies this`tickets
      ensures tickets == old(tickets) + 1
      ensures fresh(ticket) && ticket.group == this
    {
      tickets := tickets + 1;
      ticket := new Ticket(this);
    }
  }

  class Ticket {
    const group: WaitGroup

    constructor (group: WaitGroup)
      ensures this.group == group
    {
      this.group := group;
    }

    method Drop()
      requires group.Valid() && group.tickets > 0
      modifies group`tickets, group.event
      ensures group.Valid()
      ensures group.tickets == old(group.tickets) - 1
      ensures group.event.State() == Notify(old(group.event.State()), UpTo(1), ())
    {
      group.tickets := group.tickets - 1;
      group.event.NotifyInner(UpTo(1), ());
    }
  }

  /** The future of `wait`: the locals of the async function that live across its await. */
  class Wait {
    const group: WaitGroup
    var started: bool
    var events: Stream?<()>

    ghost function Future(): WaitFuture
      reads this, events
    {
      if !started then Fresh else if events == null then Absent else Streaming(events.state)
    }

    ghost predicate Valid()
      reads this, group, group.event, events
    {
      && group.Valid()
      && (!started ==> events == null)
      && (events != null ==> events.event == group.event && events.Valid())
    }

    constructor (group: WaitGroup)
      requires group.Valid()
      ensures Valid() && this.group == group && Future() == Fresh && fresh(this)
    {
      this.group := group;
      started := false;
      events := null;
    }

    method Poll(task: nat) returns (ready: bool)
      requires Valid() && !Future().Absent?
      modifies this, events, group.event
      ensures Valid() && (events == null || events == old(events) || fresh(events))
      ensures WaitResult(group.event.State(), Future(), ready)
           == PollResult(group.tickets, old(group.event.State()), old(Future()), task)
    {
      hide Registries.Valid, PollStream, DropStream;
      if !started {
        started := true;
        if group.tickets == 0 {
          return true;
        }
        events := new Stream(group.event);
      }
      ready := AwaitEvents(task);
    }

    /** The loop over the events; it ends because a stream yields at most once without parking. */
    method AwaitEvents(task: nat) returns (ready: bool)
      requires Valid() && events != null && started
      modifies this`events, events, group.event
      ensures Valid() && (events == null || events == old(events))
      ensures WaitResult(group.event.State(), Future(), ready)
           == NextEvents(group.tickets, old(group.event.State()), old(events.state), task)
    {
      hide Registries.Valid, DropStream;
      while true
        invariant Valid() && events == old(events) && started
        invariant NextEvents(group.tickets, group.event.State(), events.state, task)
               == NextEvents(group.tickets, old(group.event.State()), old(events.state), task)
        decreases events.state.Listening?
      {
        var reply := events.PollNext(task, true);
        if reply.Parked? {
          return false;
        }
        if reply.Finished? || group.tickets == 0 {
          events.Drop();
          events := null;
          return true;
        }
      }
    }

    method Drop()
      requires Valid()
      modifies this`events, group.event
      ensures group.Valid()
      ensures group.event.State() == DropFuture(old(group.event.State()), old(Future()))
    {
      if events != null {
        events.Drop();
        events := null;
      }
    }
  }
}
