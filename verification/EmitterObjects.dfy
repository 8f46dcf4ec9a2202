/** `Emitter` as the program keeps it: an event whose streams subscribe to it. */
module EmitterObjects {
  import opened Registries
  import opened Events
  import opened Streams
  import opened StreamObjects
  import opened Emitters

  class Emitter<T> {
    const event: Events.Event<T>
    ghost var emits: seq<T>

    ghost predicate Valid()
      reads this, event
    {
      Registries.Valid(event.State())
    }

    /** The system state with the given subscribers. */
    ghost function Model(subs: map<nat, Subscriber<T>>): System<T>
      reads this, event
    {
      System(event.State(), emits, subs)
    }

    constructor ()
      ensures Valid() && fresh(event) && Model(map[]) == NewSystem()
    {
      hide Registries.Valid;
      event := new Events.Event();
      emits := [];
      new;
      NewIsValid<T>();
    }

    /** Every listener without an unread value gets `v`. */
    method Emit(v: T, ghost subs: map<nat, Subscriber<T>>)
      requires Valid() && !event.closed
      modifies this, event
      ensures Valid() && Model(subs) == Do(old(Model(subs)), Op.Emit(v))
    {
      event.NotifyInner(All, v);
      emits := emits + [v];
    }

    method Subscribe(ghost s: nat, ghost subs: map<nat, Subscriber<T>>) returns (stream: Stream<T>)
      requires Valid() && !event.closed && s !in subs
      modifies event
      ensures Valid() && fresh(stream) && stream.event == event && stream.Valid()
      ensures stream.state == Listening(old(event.nextId))
      ensures Model(subs[s := Subscriber(stream.state, [|emits|], [])])
           == Do(old(Model(subs)), Op.Subscribe(s))
    {
      stream := new Stream(event);
    }

    /** Polls stream `s` of this emitter. */
    method PollNext(stream: Stream<T>, ghost s: nat, task: nat, ghost subs: map<nat, Subscriber<T>>)
      returns (reply: Reply<T>)
      requires Valid() && stream.event == event && stream.Valid()
      requires s in subs && subs[s].state == stream.state
      modifies stream, event
      ensures Valid() && stream.Valid()
      ensures var e := old(Model(subs)); var op := Op.PollNext(s, task);
        && Can(e, op) && Model(Do(e, op).subs) == Do(e, op) && stream.state == Do(e, op).subs[s].state
        && reply == PollSub(e, s, task).reply
    {
      reply := stream.PollNext(task, !event.closed);
    }

    method Drop(ghost subs: map<nat, Subscriber<T>>)
      requires Valid() && !event.closed
      modifies event
      ensures Valid() && Model(subs) == Do(old(Model(subs)), DropEmitter)
    {
      event.Close();
    }
  }
}
