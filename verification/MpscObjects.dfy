/**
  The channel as the program keeps it: shared state changed in place by sender
  handles, send futures and the receiver, each with its poll loop. Every method
  is proved to have the outcome that `Mpsc` states for it.
 */
module MpscObjects {
  import opened Options
  import opened Registries
  import opened Events
  import opened Waiters
  import C = Mpsc

  /** The shared state. The receiver owns it; handles and sends find it only while `alive`. */
  class Shared<T> {
    const recvEv: Events.Event<()>
    const sendEv: Events.Event<()>
    const cap: nat
    var queue: seq<T>
    var senders: nat
    var alive: bool

    ghost predicate Valid()
      reads this, recvEv, sendEv
    {
      recvEv != sendEv && Registries.Valid(recvEv.State()) && Registries.Valid(sendEv.State())
    }

    ghost function View(): C.Core<T>
      reads this, recvEv, sendEv
    {
      C.Core(queue, cap, senders, alive, recvEv.State(), sendEv.State())
    }

    constructor (cap: nat)
      ensures Valid() && View() == C.NewCore(cap) && fresh(recvEv) && fresh(sendEv)
    {
      hide Registries.Valid;
      recvEv := new Events.Event();
      sendEv := new Events.Event();
      this.cap := cap;
      queue, senders, alive := [], 1, true;
      new;
      NewIsValid<()>();
    }

    method Push(v: T)
      requires Valid()
      modifies this, recvEv
      ensures Valid() && View() == C.Push(old(View()), v)
    {
      var wasEmpty := queue == [];
      queue := queue + [v];
      if wasEmpty {
        recvEv.NotifyInner(UpTo(1), ());
      }
    }

    method TrySend(v: T) returns (ok: bool)
      requires Valid()
      modifies this, recvEv
      ensures Valid() && View() == C.TrySend(old(View()), v)
      ensures ok <==> old(alive) && |old(queue)| < cap
    {
      if !alive || |queue| >= cap {
        return false;
      }
      Push(v);
      ok := true;
    }

    method CloneSender()
      requires Valid()
      modifies this
      ensures Valid() && View() == C.CloneSender(old(View()))
    {
      if alive {
        senders := senders + 1;
      }
    }

    method DropSender()
      requires Valid() && (alive ==> senders > 0)
      modifies this, recvEv
      ensures Valid() && View() == C.DropSender(old(View()))
    {
      if alive {
        senders := senders - 1;
        if senders == 0 {
          recvEv.NotifyInner(All, ());
        }
      }
    }
  }

  class Send<T> {
    const shared: Shared<T>
    var state: WaitState
    var value: Option<T>

    ghost predicate Valid()
      reads this, shared, shared.recvEv, shared.sendEv
    {
      shared.Valid() && (state.Waiting? ==> state.id in shared.sendEv.listeners)
    }

    constructor (shared: Shared<T>, v: T)
      ensures this.shared == shared && state.Idle? && value == Some(v)
    {
      this.shared := shared;
      state, value := Idle, Some(v);
    }

    method Poll(task: nat) returns (reply: C.SendReply)
      requires Valid() && value.Some?
      modifies this, shared, shared.recvEv, shared.sendEv
      ensures Valid()
      ensures C.SendResult(shared.View(), state, reply)
           == C.PollSend(old(shared.View()), old(state), old(value).value, task)
      ensures value == if reply.Sent? then None else old(value)
    {
      hide Registries.Valid, Registries.Grant;
      while true
        invariant Valid() && value == old(value)
        invariant C.PollSend(shared.View(), state, value.value, task)
               == C.PollSend(old(shared.View()), old(state), old(value).value, task)
        decreases if state.Idle? then 1 else if shared.sendEv.listeners[state.id].value.Some? then 2 else 0
      {
        if state.Waiting? {
          var notified := shared.sendEv.PollListener(state.id, task);
          if notified.None? {
            return C.SendParked;
          }
          shared.sendEv.DropListener(state.id);
          state := Idle;
        } else if !shared.alive {
          return C.Closed;
        } else if |shared.queue| < shared.cap {
          shared.Push(value.value);
          value := None;
          return C.Sent;
        } else {
          var id := shared.sendEv.Listen();
          state := Waiting(id);
        }
      }
    }

    method Drop()
      requires Valid()
      modifies shared.sendEv
      ensures shared.Valid()
      ensures shared.View() == old(shared.View()).(sendEv := DropWaiter(old(shared.sendEv.State()), state))
    {
      if state.Waiting? {
        shared.sendEv.DropListener(state.id);
      }
    }
  }

  class Receiver<T> {
    const shared: Shared<T>
    var state: WaitState

    ghost predicate Valid()
      reads this, shared, shared.recvEv, shared.sendEv
    {
      shared.Valid() && (state.Waiting? ==> state.id in shared.recvEv.listeners)
    }

    constructor (shared: Shared<T>)
      ensures this.shared == shared && state.Idle?
    {
      this.shared := shared;
      state := Idle;
    }

    method PollNext(task: nat) returns (reply: C.RecvReply<T>)
      requires Valid()
      modifies this, shared, shared.recvEv, shared.sendEv
      ensures Valid()
      ensures C.RecvResult(shared.View(), state, reply) == C.PollRecv(old(shared.View()), old(state), task)
    {
      hide Registries.Valid, Registries.Grant;
      while true
        invariant Valid()
        invariant C.PollRecv(shared.View(), state, task) == C.PollRecv(old(shared.View()), old(state), task)
        decreases if state.Idle? then 1 else if shared.recvEv.listeners[state.id].value.Some? then 2 else 0
      {
        if state.Waiting? {
          var notified := shared.recvEv.PollListener(state.id, task);
          if notified.None? {
            return C.RecvParked;
          }
          shared.recvEv.DropListener(state.id);
          state := Idle;
        } else {
          var wasFull := |shared.queue| == shared.cap;
          if shared.queue != [] {
            var v := shared.queue[0];
            shared.queue := shared.queue[1..];
            if wasFull {
              shared.sendEv.NotifyInner(UpTo(1), ());
            }
            return C.Item(v);
          }
          if shared.senders == 0 {
            return C.End;
          }
          var id := shared.recvEv.Listen();
          state := Waiting(id);
        }
      }
    }

    /** Notifies every send, then drops the shared state with its events, then the receiver's own listener. */
    method Drop()
      requires Valid()
      modifies shared, shared.recvEv, shared.sendEv
      ensures shared.Valid() && shared.View() == C.DropReceiver(old(shared.View()), state)
    {
      hide Registries.Valid, Registries.Grant;
      shared.sendEv.NotifyInner(All, ());
      shared.alive, shared.queue := false, [];
      shared.recvEv.Close();
      shared.sendEv.Close();
      if state.Waiting? {
        shared.recvEv.DropListener(state.id);
      }
    }
  }
}
