/**
  `RwLock` as the program keeps it: a reader count, a flag and an event, changed
  in place by the poll loops of the futures and by the guards' drops. Each method
  is proved to have the outcome that `RwLocks` states for it.
 */
module RwLockObjects {
  import opened Options
  import opened Registries
  import opened Events
  import opened Waiters
  import L = RwLocks

  class RwLock {
    const event: Events.Event<()>
    var readers: nat
    var locked: bool

    ghost predicate Valid()
      reads this, event
    {
      Registries.Valid(event.State())
    }

    constructor ()
      ensures Valid() && readers == 0 && !locked && event.State() == NewRegistry() && fresh(event)
    {
      hide Registries.Valid;
      event := new Events.Event();
      readers, locked := 0, false;
      new;
      NewIsValid<()>();
    }

    predicate CanRead()
      reads this
    {
      !locked
    }

    predicate CanWrite()
      reads this
    {
      !locked && readers == 0
    }

    method IncrementReaders()
      requires Valid()
      modifies this, event
      ensures Valid() && readers == old(readers) + 1 && locked == old(locked)
      ensures event.State() == Notify(old(event.State()), UpTo(1), ())
    {
      readers := readers + 1;
      event.NotifyInner(UpTo(1), ());
    }

    /** The source panics without a reader; `RwLocks.DropNeverPanics` shows that this never happens. */
    method DecrementReaders()
      requires Valid() && readers > 0
      modifies this, event
      ensures Valid() && readers == old(readers) - 1 && locked == old(locked)
      ensures event.State() == Notify(old(event.State()), UpTo(1), ())
    {
      readers := readers - 1;
      event.NotifyInner(UpTo(1), ());
    }

    method Lock()
      requires Valid()
      modifies this, event
      ensures Valid() && readers == old(readers) && locked
      ensures event.State() == Notify(old(event.State()), UpTo(1), ())
    {
      locked := true;
      event.NotifyInner(UpTo(1), ());
    }

    method Unlock()
      requires Valid()
      modifies this, event
      ensures Valid() && readers == old(readers) && !locked
      ensures event.State() == Notify(old(event.State()), UpTo(1), ())
    {
      locked := false;
      event.NotifyInner(UpTo(1), ());
    }
  }

  /** The four guard types: readers give back a count, writers the flag. */
  class Guard {
    const lock: RwLock
    const want: L.Want

    constructor (lock: RwLock, want: L.Want)
      ensures this.lock == lock && this.want == want
    {
      this.lock, this.want := lock, want;
    }

    method Drop()
      requires lock.Valid() && (want.Read? ==> lock.readers > 0)
      modifies lock, lock.event
      ensures lock.Valid()
      ensures lock.event.State() == Notify(old(lock.event.State()), UpTo(1), ())
      ensures want.Read? ==> lock.readers == old(lock.readers) - 1 && lock.locked == old(lock.locked)
      ensures want.Write? ==> lock.readers == old(lock.readers) && !lock.locked
    {
      if want.Read? {
        lock.DecrementReaders();
      } else {
        lock.Unlock();
      }
    }
  }

  /** The four future types: they differ in what they test and set. */
  class LockFuture {
    const lock: RwLock
    const want: L.Want
    var state: WaitState

    ghost predicate Valid()
      reads this, lock, lock.event
    {
      lock.Valid() && (state.Waiting? ==> state.id in lock.event.listeners)
    }

    constructor (lock: RwLock, want: L.Want)
      ensures this.lock == lock && this.want == want && state.Idle?
    {
      this.lock, this.want := lock, want;
      state := Idle;
    }

    method Poll(task: nat) returns (guard: Guard?)
      requires Valid()
      modifies this, lock, lock.event
      ensures Valid()
      ensures L.Result(lock.readers, lock.locked, Outcome(lock.event.State(), state, guard != null))
           == L.LockOutcome(old(lock.readers), old(lock.locked), old(lock.event.State()), old(state), want, task)
      ensures guard != null ==> fresh(guard) && guard.lock == lock && guard.want == want
    {
      hide Registries.Valid, Registries.Grant;
      while true
        invariant Valid()
        invariant L.LockOutcome(lock.readers, lock.locked, lock.event.State(), state, want, task)
               == L.LockOutcome(old(lock.readers), old(lock.locked), old(lock.event.State()), old(state), want, task)
        decreases if state.Idle? then 1 else if lock.event.listeners[state.id].value.Some? then 2 else 0
      {
        if state.Waiting? {
          var value := lock.event.PollListener(state.id, task);
          if value.None? {
            return null;
          }
          lock.event.DropListener(state.id);
          state := Idle;
        } else if want.Read? && lock.CanRead() {
          lock.IncrementReaders();
          guard := new Guard(lock, want);
          return;
        } else if want.Write? && lock.CanWrite() {
          lock.Lock();
          guard := new Guard(lock, want);
          return;
        } else {
          var id := lock.event.Listen();
          state := Waiting(id);
        }
      }
    }

    method Drop()
      requires Valid()
      modifies lock.event
      ensures lock.Valid()
      ensures lock.event.State() == DropWaiter(old(lock.event.State()), state)
    {
      if state.Waiting? {
        lock.event.DropListener(state.id);
      }
    }
  }
}
