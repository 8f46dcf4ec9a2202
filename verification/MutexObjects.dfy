/**
  `AsyncMutex` as the program keeps it: a flag and an event, with futures that
  rewrite their own state in a poll loop. Each method is proved to have the
  outcome that `Mutexes` states for it.
 */
module MutexObjects {
  import opened Options
  import opened Registries
  import opened Events
  import opened Waiters
  import opened Mutexes

  class AsyncMutex {
    const event: Events.Event<()>
    var locked: bool

    ghost predicate Valid()
      reads this, event
    {
      Registries.Valid(event.State())
    }

    constructor ()
      ensures Valid() && !locked && event.State() == NewRegistry() && fresh(event)
    {
      hide Registries.Valid;
      event := new Events.Event();
      locked := false;
      new;
      NewIsValid<()>();
    }

    method Lock()
      requires Valid()
      modifies this, event
      ensures Valid() && locked
      ensures event.State() == Notify(old(event.State()), UpTo(1), ())
    {
      locked := true;
      event.NotifyInner(UpTo(1), ());
    }

    method Unlock()
      requires Valid()
      modifies this, event
      ensures Valid() && !locked
      ensures event.State() == Notify(old(event.State()), UpTo(1), ())
    {
      locked := false;
      event.NotifyInner(UpTo(1), ());
    }
  }

  /** `LockGuard` and `RcLockGuard`. */
  class Guard {
    const lock: AsyncMutex

    constructor (lock: AsyncMutex)
      ensures this.lock == lock
    {
      this.lock := lock;
    }

    method Drop()
      requires lock.Valid()
      modifies lock, lock.event
      ensures lock.Valid() && !lock.locked
      ensures lock.event.State() == Notify(old(lock.event.State()), UpTo(1), ())
    {
      lock.Unlock();
    }
  }

  /** `LockFuture` and `RcLockFuture`; their polls are the same loop. */
  class LockFuture {
    const lock: AsyncMutex
    var state: WaitState

    ghost predicate Valid()
      reads this, lock, lock.event
    {
      lock.Valid() && (state.Waiting? ==> state.id in lock.event.listeners)
    }

    constructor (lock: AsyncMutex)
      ensures this.lock == lock && state.Idle?
    {
      this.lock := lock;
      state := Idle;
    }

    /** The loop ends because a listener registered here is not yet notified. */
    method Poll(task: nat) returns (guard: Guard?)
      requires Valid()
      modifies this, lock, lock.event
      ensures Valid()
      ensures (lock.locked, Outcome(lock.event.State(), state, guard != null))
           == LockOutcome(old(lock.locked), old(lock.event.State()), old(state), task)
      ensures guard != null ==> fresh(guard) && guard.lock == lock
    {
      hide Registries.Valid, Registries.Grant;
      while true
        invariant Valid()
        invariant LockOutcome(lock.locked, lock.event.State(), state, task)
               == LockOutcome(old(lock.locked), old(lock.event.State()), old(state), task)
        decreases if state.Idle? then 1 else if lock.event.listeners[state.id].value.Some? then 2 else 0
      {
        if state.Waiting? {
          var value := lock.event.PollListener(state.id, task);
          if value.None? {
            return null;
          }
          lock.event.DropListener(state.id);
          state := Idle;
        } else if !lock.locked {
          lock.Lock();
          guard := new Guard(lock);
          return;
        } else {
          var id := lock.event.Listen();
          state := Waiting(id);
        }
      }
    }

    method Drop()
      requires Valid()
      modifies lock.event
      ensures lock.Valid()
      ensures lock.event.State() == DropWaiter(old(lock.event.State()), state)
    {
      if state.Waiting? {
        lock.event.DropListener(state.id);
      }
    }
  }
}
