/**
  The executor as the program keeps it: its fields, changed in place, with
  spawned futures given as finite trees of what they do. Beside them runs a ghost
  state of `Protocol`: every access to shared memory takes the step of the same
  name there, so every execution of this class is a run of the protocol. Only the
  executor's own thread acts here.
 */
module Executors {
  import opened Options
  import opened NatSets
  import opened Futures
  import P = Protocol
  import R = ProtocolRuns
  import L = ProtocolLimits

  lemma BatchKnown(g: P.State)
    requires P.Inv(g) && g.batch != [] && g.runner.Between?
    ensures g.batch[0] in g.flags
  {
    assert P.Line(g)[0] == g.batch[0];
  }

  lemma PolledKnown(g: P.State)
    requires P.Inv(g) && g.runner.Polling?
    ensures g.runner.task in g.flags && g.runner.task < g.nextId
    ensures g.runner.task in g.slots ==> !g.slots[g.runner.task]
    ensures g.runner.task in g.slots <==> !P.Finished(g.flags[g.runner.task])
    ensures !g.flags[g.runner.task].completed
  {
  }

  /** What a step leaves alone. */
  ghost predicate SameElse(g: P.State, g': P.State) {
    && g'.inbox == g.inbox && g'.closed == g.closed && g'.batch == g.batch
    && g'.log.processed == g.log.processed && g'.log.notified == g.log.notified
  }

  lemma SpawnStep(g: P.State)
    requires P.Enabled(g, P.Spawn(0)) && g.wakers == map[]
    ensures var g' := P.Step(g, P.Spawn(0));
      && g'.flags == g.flags[g.nextId := P.Flags(false, false, false)] && g'.slots == g.slots[g.nextId := true]
      && g'.nextId == g.nextId + 1 && g'.wakers == map[0 := P.Called(g.nextId)] && g'.runner == g.runner
      && SameElse(g, g')
  {
  }

  lemma CancelStep(g: P.State, t: nat)
    requires P.UserCode(g) && t in g.flags
    ensures var g' := P.Step(g, P.Cancel(t));
      && g'.flags == g.flags[t := g.flags[t].(canceled := true)]
      && g'.slots == (if P.Finished(g.flags[t]) then g.slots else g.slots - {t})
      && g'.nextId == g.nextId && g'.wakers == g.wakers && g'.runner == g.runner && SameElse(g, g')
  {
  }

  lemma ReadyStep(g: P.State)
    requires P.Enabled(g, P.PollReady)
    ensures var g', t := P.Step(g, P.PollReady), g.runner.task;
      && g'.flags == g.flags[t := g.flags[t].(completed := true)] && g'.slots == g.slots - {t}
      && g'.nextId == g.nextId && g'.wakers == g.wakers && g'.runner == P.Between && SameElse(g, g')
  {
  }

  lemma SlotPresent(g: P.State)
    requires P.Inv(g) && g.runner.Checked?
    ensures g.runner.task in P.Present(g.slots) && g.runner.task in g.flags && g.runner.task < g.nextId
    ensures !P.Finished(g.flags[g.runner.task])
  {
  }

  lemma UnfinishedHasSlot(g: P.State, t: nat)
    requires P.Inv(g) && P.UserCode(g) && t in g.flags
    ensures t in g.slots <==> !P.Finished(g.flags[t])
    ensures t < g.nextId && !g.closed
  {
  }

  lemma FreshId(g: P.State)
    requires P.Inv(g)
    ensures g.nextId !in g.flags && g.nextId !in g.slots
  {
  }

  class Executor {
    // The headers' state bytes, and the slots: a slot is `None` while its future is being polled.
    var flags: map<nat, P.Flags>
    var slots: map<nat, Option<Future>>
    var nextId: nat
    var inbox: seq<nat>
    var closed: bool
    var loopWakes: nat
    // Handles that are still held. Dropping one cancels its task.
    var handles: set<nat>
    // The task driven by `BlockOn`, and the cell its value goes to.
    var root: Option<nat>
    var output: Option<int>

    ghost var g: P.State
    ghost var history: seq<P.Label>
    ghost var expected: int
    ghost var driven: bool  // the task of `BlockOn` wakes itself in every pending poll
    ghost var performed: seq<Action>  // by code of tasks and of their drops

    ghost predicate Reached()
      reads `g, `history
    {
      R.Legal(P.Init(), history) && g == R.Run(P.Init(), history) && P.Inv(g)
    }

    ghost predicate Synced()
      reads this
    {
      && flags == g.flags && nextId == g.nextId && inbox == g.inbox && closed == g.closed
      && loopWakes == g.log.notified
      && slots.Keys == g.slots.Keys
      && (forall t :: t in slots ==> (slots[t].Some? <==> g.slots[t]))
      && handles <= flags.Keys
    }

    /** The task of `BlockOn` keeps leading to the value of its future, and puts it in the cell when it completes. */
    ghost predicate RootFits()
      reads `flags, `slots, `handles, `root, `output, `expected, `driven
    {
      root.Some? ==>
        && root.value in flags && root.value !in handles && !flags[root.value].canceled
        && (flags[root.value].completed ==> output == Some(expected))
        && (!flags[root.value].completed ==> output.None? && root.value in slots)
        && (!flags[root.value].completed && slots[root.value].Some? ==> FinalValue(slots[root.value].value) == expected)
        && (driven && !flags[root.value].completed && slots[root.value].Some? ==>
              KeepsWaking(slots[root.value].value, root.value) && flags[root.value].queued)
    }

    ghost predicate Valid()
      reads this
    {
      Reached() && Synced() && RootFits() && g.wakers == map[]
    }

    /** Setting QUEUED does not disturb `BlockOn`. */
    twostate lemma RootStays()
      requires old(RootFits()) && root == old(root) && output == old(output)
      requires expected == old(expected) && driven == old(driven)
      requires slots == old(slots) && handles == old(handles)
      requires forall t :: t in old(flags) ==>
                 && t in flags && flags[t].canceled == old(flags)[t].canceled
                 && flags[t].completed == old(flags)[t].completed
                 && (old(flags)[t].queued ==> flags[t].queued)
      ensures RootFits()
    {
    }

    /** Nor does canceling a task whose handle is held: nobody holds one to the task of `BlockOn`. */
    twostate lemma RootSurvivesCancel(t: nat)
      requires old(RootFits()) && root == old(root) && output == old(output)
      requires expected == old(expected) && driven == old(driven)
      requires t in old(handles) && handles == old(handles) - {t}
      requires t in old(flags) && flags == old(flags)[t := old(flags)[t].(canceled := true)]
      requires slots == old(slots) - {t}
      ensures RootFits()
    {
    }

    /** Nor does taking a future out to poll it. */
    twostate lemma RootTaken(t: nat)
      requires old(RootFits()) && root == old(root) && output == old(output)
      requires expected == old(expected) && driven == old(driven)
      requires handles == old(handles) && t in old(slots) && slots == old(slots)[t := None]
      requires t in old(flags) && flags == old(flags)[t := old(flags)[t].(queued := false)]
      requires !P.Finished(old(flags)[t]) && old(slots)[t].Some?
      ensures RootFits()
      ensures root == Some(t) ==> FinalValue(old(slots)[t].value) == expected
      ensures root == Some(t) && driven ==> KeepsWaking(old(slots)[t].value, t)
    {
      hide FinalValue, KeepsWaking;
    }

    /** Nor does a new task. */
    twostate lemma RootSurvivesSpawn(id: nat)
      requires old(RootFits()) && root == old(root) && output == old(output)
      requires expected == old(expected) && driven == old(driven)
      requires handles == old(handles) && id !in old(flags)
      requires forall t :: t in old(flags) ==> t in flags && flags[t] == old(flags)[t]
      requires forall t :: t in old(slots) && t != id ==> t in slots && slots[t] == old(slots)[t]
      ensures RootFits()
    {
      hide FinalValue, KeepsWaking;
    }

    /** When the task of `BlockOn` completes, its value is in the cell. */
    twostate lemma RootCompletes(t: nat)
      requires old(RootFits()) && root == old(root) && handles == old(handles)
      requires expected == old(expected) && driven == old(driven)
      requires t in old(flags) && flags == old(flags)[t := old(flags)[t].(completed := true)]
      requires slots == old(slots) - {t}
      requires output == if root == Some(t) then Some(expected) else old(output)
      ensures RootFits()
    {
    }

    /** How much the futures in their slots may still do. */
    ghost function Work(): nat
      reads `slots, `nextId
    {
      SlotsSize(slots, nextId)
    }

    /** What code of a task leaves alone, whatever it does. */
    twostate predicate Kept()
      reads this
    {
      && g.runner == old(g.runner) && g.batch == old(g.batch) && g.log.processed == old(g.log.processed)
      && closed == old(closed) && root == old(root) && output == old(output)
      && expected == old(expected) && driven == old(driven)
      && old(nextId) <= nextId && old(performed) <= performed
      && (forall t :: t in old(flags) ==> t in flags && flags[t].completed == old(flags[t].completed))
      && (forall t :: t in old(flags) && P.Finished(old(flags)[t]) ==> t in flags && P.Finished(flags[t]))
      && (forall t :: t in old(flags) && old(flags)[t].queued ==> t in flags && flags[t].queued)
      && (forall t :: t in slots && t < old(nextId) ==> t in old(slots) && slots[t] == old(slots[t]))
      && (forall t :: t in handles && t < old(nextId) ==> t in old(handles))
      && (forall t :: t in old(handles) && t !in handles ==> t in flags && P.Finished(flags[t]))
    }

    twostate predicate SameRun()
      reads this
    {
      && g.runner == old(g.runner) && g.batch == old(g.batch) && g.log.processed == old(g.log.processed)
      && closed == old(closed) && root == old(root) && output == old(output)
      && expected == old(expected) && driven == old(driven) && performed == old(performed)
    }

    twostate lemma CancelKeeps(t: nat)
      requires SameRun() && nextId == old(nextId)
      requires t in old(flags) && flags == old(flags)[t := old(flags)[t].(canceled := true)]
      requires handles == old(handles) - {t} && slots == old(slots) - {t}
      ensures Kept()
    {
    }

    twostate lemma SpawnKeeps(id: nat)
      requires SameRun() && id == old(nextId) && id !in old(flags) && nextId == id + 1
      requires flags == old(flags)[id := P.Flags(true, false, false)]
      requires handles == old(handles) + {id} && slots.Keys == old(slots).Keys + {id}
      requires forall t :: t in old(slots) && t != id ==> slots[t] == old(slots)[t]
      ensures Kept()
    {
    }

    twostate lemma QueueKeeps(t: nat)
      requires SameRun() && nextId == old(nextId) && handles == old(handles) && slots == old(slots)
      requires t in old(flags) && flags == old(flags)[t := old(flags)[t].(queued := true)]
      ensures Kept()
    {
    }

    constructor ()
      ensures Valid() && g == P.Init() && history == [] && performed == [] && root.None?
    {
      flags, slots, nextId, inbox, closed, loopWakes := map[], map[], 0, [], false, 0;
      handles, root, output := {}, None, None;
      g, history, expected, driven, performed := P.Init(), [], 0, false, [];
      new;
      P.InitInv();
    }

    /** Takes one step of the protocol. */
    ghost method Take(l: P.Label)
      requires Reached() && P.Enabled(g, l)
      modifies `g, `history
      ensures Reached() && g == P.Step(old(g), l) && history == old(history) + [l]
    {
      hide P.Inv, P.Step;
      P.StepKeepsInv(g, l);
      R.RunSnoc(P.Init(), history, l);
      g, history := P.Step(g, l), history + [l];
    }

    /** `schedule`, once it has been called: finished tasks and closed executors ignore it. */
    method Schedule(t: nat)
      requires Reached() && Synced() && RootFits() && g.wakers == map[0 := P.Called(t)] && t in flags
      modifies `flags, `inbox, `loopWakes, `g, `history
      ensures Valid() && Kept()
      ensures P.Finished(old(flags)[t]) || closed || old(flags)[t].queued ==>
                flags == old(flags) && inbox == old(inbox) && loopWakes == old(loopWakes)
      ensures !(P.Finished(old(flags)[t]) || closed || old(flags)[t].queued) ==>
                && flags == old(flags)[t := old(flags)[t].(queued := true)]
                && inbox == old(inbox) + [t] && loopWakes == old(loopWakes) + 1
      ensures SameRun()
      ensures P.Finished(old(flags)[t]) ==> g == old(g).(wakers := map[])
    {
      hide P.Inv, P.Step, R.Legal, R.Run, FinalValue, KeepsWaking, Reached, RootFits;
      TakeLoadFinished(t);
      if P.Finished(flags[t]) {
        return;
      }
      TakeLoadClosed(t);
      if closed {
        return;
      }
      Enqueue(t);
    }

    /** The protocol's two steps for the checks of `Schedule`. */
    ghost method TakeLoadFinished(t: nat)
      requires Reached() && g.wakers == map[0 := P.Called(t)] && t in g.flags
      modifies `g, `history
      ensures Reached()
      ensures g == old(g).(wakers := if P.Finished(old(g).flags[t]) then map[] else map[0 := P.NotFinished(t)])
    {
      hide P.Inv, R.Legal, R.Run, Reached;
      Take(P.LoadFinished(0));
      assert P.Finished(old(g).flags[t]) ==> g.wakers == map[];
    }

    ghost method TakeLoadClosed(t: nat)
      requires Reached() && g.wakers == map[0 := P.NotFinished(t)]
      modifies `g, `history
      ensures Reached()
      ensures g == old(g).(wakers := if old(g).closed then map[] else map[0 := P.NotClosed(t)])
    {
      hide P.Inv, R.Legal, R.Run, Reached;
      Take(P.LoadClosed(0));
      assert old(g).closed ==> g.wakers == map[];
    }

    /** Sets QUEUED; if it was clear, pushes the task and wakes the event loop. */
    method Enqueue(t: nat)
      requires Reached() && Synced() && RootFits() && g.wakers == map[0 := P.NotClosed(t)] && t in flags
      modifies `flags, `inbox, `loopWakes, `g, `history
      ensures Valid() && Kept()
      ensures flags == old(flags)[t := old(flags)[t].(queued := true)]
      ensures inbox == (if old(flags)[t].queued then old(inbox) else old(inbox) + [t])
      ensures loopWakes == (if old(flags)[t].queued then old(loopWakes) else old(loopWakes) + 1)
    {
      hide P.Inv, R.Legal, R.Run, P.Step, P.Init, FinalValue, KeepsWaking, Reached, RootFits, Kept;
      TakeEnqueue(t);
      var queued := flags[t].queued;
      flags := flags[t := flags[t].(queued := true)];
      if !queued {
        inbox := inbox + [t];
        loopWakes := loopWakes + 1;
      }
      RootStays();
      QueueKeeps(t);
    }

    /** The protocol's steps for `Enqueue`. */
    ghost method TakeEnqueue(t: nat)
      requires Reached() && g.wakers == map[0 := P.NotClosed(t)] && t in g.flags
      modifies `g, `history
      ensures Reached()
      ensures g.flags == old(g).flags[t := old(g).flags[t].(queued := true)] && g.wakers == map[]
      ensures g.inbox == if old(g).flags[t].queued then old(g).inbox else old(g).inbox + [t]
      ensures g.log.notified == old(g).log.notified + (if old(g).flags[t].queued then 0 else 1)
      ensures g.slots == old(g).slots && g.nextId == old(g).nextId && g.closed == old(g).closed
      ensures g.runner == old(g).runner && g.batch == old(g).batch && g.log.processed == old(g).log.processed
    {
      hide P.Inv, R.Legal, R.Run, FinalValue, KeepsWaking;
      Take(P.SetQueued(0));
      assert old(g).flags[t].queued ==> g.flags == old(g).flags;
      assert old(g).flags[t].queued ==> g.wakers == map[];
      if !old(g).flags[t].queued {
        Take(P.Push(0));
        Take(P.NotifyLoop(0));
        assert g.wakers == map[];
      }
    }

    method WakeTask(t: nat)
      requires Valid() && t in flags
      modifies `flags, `inbox, `loopWakes, `g, `history
      ensures Valid() && Kept()
      ensures P.Finished(old(flags)[t]) ==>
                flags == old(flags) && inbox == old(inbox) && loopWakes == old(loopWakes) && g == old(g)
      ensures !P.Finished(old(flags)[t]) && !closed ==>
                && t in flags && flags[t].queued
                && (!old(flags)[t].queued ==> inbox == old(inbox) + [t] && loopWakes == old(loopWakes) + 1)
    {
      hide P.Inv, R.Legal, R.Run, FinalValue, KeepsWaking;
      Take(P.CallWake(0, t));
      Schedule(t);
    }

    /** A new task with a slot for its future, about to be scheduled. */
    method AddTask(future: Future) returns (id: nat)
      requires Valid() && P.UserCode(g)
      modifies `flags, `slots, `nextId, `g, `history
      ensures Reached() && Synced() && RootFits() && g.wakers == map[0 := P.Called(id)] && Kept()
      ensures id == old(nextId) && nextId == id + 1 && id !in old(flags)
      ensures flags == old(flags)[id := P.Flags(false, false, false)]
      ensures slots == old(slots)[id := Some(future)]
      ensures SameRun()
      ensures Work() == old(Work()) + Size(future)
    {
      hide P.Inv, P.Step, R.Legal, R.Run, FinalValue, KeepsWaking, SlotsSize, Reached, RootFits;
      id := nextId;
      TakeSpawn();
      NewSlot(slots, id, future);
      nextId := nextId + 1;
      flags := flags[id := P.Flags(false, false, false)];
      slots := slots[id := Some(future)];
      RootSurvivesSpawn(id);
    }

    /** The protocol's step for `AddTask`. */
    ghost method TakeSpawn()
      requires Reached() && P.UserCode(g) && g.wakers == map[]
      modifies `g, `history
      ensures var id := old(g).nextId;
        && Reached() && id !in old(g).flags && id !in old(g).slots
        && g.flags == old(g).flags[id := P.Flags(false, false, false)] && g.slots == old(g).slots[id := true]
        && g.nextId == id + 1 && g.wakers == map[0 := P.Called(id)] && g.runner == old(g).runner
      ensures SameElse(old(g), g)
    {
      hide P.Inv, P.Step, R.Legal, R.Run, FinalValue, KeepsWaking;
      FreshId(g);
      SpawnStep(g);
      Take(P.Spawn(0));
    }

    /** `spawn`: the task is queued, and its handle is held until dropped or detached. */
    method SpawnTask(future: Future) returns (id: nat)
      requires Valid() && P.UserCode(g)
      modifies this
      ensures Valid() && Kept()
      ensures id == old(nextId) && nextId == id + 1 && id !in old(flags)
      ensures flags.Keys == old(flags).Keys + {id} && flags[id] == P.Flags(true, false, false)
      ensures inbox == old(inbox) + [id] && loopWakes == old(loopWakes) + 1
      ensures slots == old(slots)[id := Some(future)] && handles == old(handles) + {id}
      ensures Work() == old(Work()) + Size(future)
    {
      hide P.Inv, P.Step, R.Legal, R.Run, FinalValue, KeepsWaking, SlotsSize, Reached, RootFits, Kept;
      RootIsKnown();
      StillOpen();
      id := AddTask(future);
      Schedule(id);
      HoldHandle(id);
      SpawnKeeps(id);
    }

    lemma StillOpen()
      requires Reached() && P.UserCode(g)
      ensures !g.closed
    {
    }

    lemma RootIsKnown()
      requires RootFits()
      ensures root.Some? ==> root.value in flags
    {
    }

    method HoldHandle(id: nat)
      requires Valid() && id in flags && root != Some(id)
      modifies `handles
      ensures Valid() && handles == old(handles) + {id}
    {
      hide Reached, FinalValue, KeepsWaking;
      handles := handles + {id};
    }

    lemma HasSlot(t: nat)
      requires Reached() && P.UserCode(g) && t in g.flags
      ensures t in g.slots <==> !P.Finished(g.flags[t])
      ensures t < g.nextId && !g.closed
    {
      hide P.Inv, R.Legal, R.Run;
      UnfinishedHasSlot(g, t);
    }

    /** Takes the slot away from a task whose handle was dropped. */
    method CancelTask(t: nat) returns (left: Option<Future>)
      requires Valid() && P.UserCode(g) && t in handles
      modifies `flags, `slots, `handles, `g, `history
      ensures Valid() && Kept()
      ensures t in old(flags) && flags == old(flags)[t := old(flags)[t].(canceled := true)]
      ensures handles == old(handles) - {t} && slots == old(slots) - {t} && t < nextId
      ensures P.Finished(old(flags)[t]) <==> t !in old(slots)
      ensures left == if P.Finished(old(flags)[t]) then None else old(slots)[t]
      ensures Work() + (if left.Some? then Size(left.value) else 0) <= old(Work())
    {
      hide P.Inv, P.Step, R.Legal, R.Run, FinalValue, KeepsWaking, SlotsSize, Reached, RootFits, Kept;
      HasSlot(t);
      handles := handles - {t};
      var was := flags[t];
      TakeCancel(t);
      flags := flags[t := was.(canceled := true)];
      left := None;
      if !P.Finished(was) {
        left := slots[t];
        SlotGone(slots, t, nextId);
        slots := slots - {t};
      }
      RootSurvivesCancel(t);
      CancelKeeps(t);
    }

    /** The protocol's step for `CancelTask`. */
    ghost method TakeCancel(t: nat)
      requires Reached() && P.UserCode(g) && t in g.flags
      modifies `g, `history
      ensures Reached()
      ensures g.flags == old(g).flags[t := old(g).flags[t].(canceled := true)]
      ensures g.slots == if P.Finished(old(g).flags[t]) then old(g).slots else old(g).slots - {t}
      ensures g.nextId == old(g).nextId && g.wakers == old(g).wakers && g.runner == old(g).runner
      ensures SameElse(old(g), g)
    {
      hide P.Inv, P.Step, R.Legal, R.Run, FinalValue, KeepsWaking, Reached;
      CancelStep(g, t);
      Take(P.Cancel(t));
    }

    /** Dropping a handle cancels its task: the future, if it is in its slot, is dropped. */
    method DropHandle(t: nat)
      requires Valid() && P.UserCode(g) && t in handles
      modifies this
      ensures Valid() && Kept()
      ensures t !in handles && t in old(flags) && t in flags && P.Finished(flags[t]) && t !in slots
      ensures !P.Finished(old(flags)[t]) && t in old(slots) && old(slots)[t].Some? ==>
                Did(old(slots)[t].value.onDrop, old(performed), performed)
      ensures Work() <= old(Work())
      decreases Work()
    {
      hide P.Inv, P.Step, R.Legal, R.Run, FinalValue, KeepsWaking, SlotsSize, Reached, Synced, RootFits, Did;
      DidNothing(performed, performed);
      var left := CancelTask(t);
      if left.Some? {
        Perform(left.value.onDrop);
      }
    }

    lemma StillSynced()
      requires Reached() && Synced() && P.UserCode(g)
      ensures !closed && handles <= flags.Keys && nextId !in handles && nextId !in flags
      ensures forall t :: t in flags ==> t < nextId
    {
      hide R.Legal, R.Run;
      StillOpen();
    }

    ghost method Record(action: Action)
      requires Valid()
      modifies `performed
      ensures Valid() && performed == old(performed) + [action]
    {
      hide Reached, FinalValue, KeepsWaking;
      performed := performed + [action];
    }

    /** What an action comes to. */
    twostate predicate Happened(action: Action)
      reads this
    {
      match action
      case Wake(t) => t in old(flags) ==> t in flags && (flags[t].queued || P.Finished(flags[t]))
      case Cancel(t) => t !in handles && (t in old(handles) ==> t in flags && P.Finished(flags[t]) && t !in slots)
      case Spawn(child, detach) =>
        && nextId > old(nextId) && old(nextId) !in old(flags)
        && old(nextId) in flags && flags[old(nextId)].queued
        && old(nextId) in slots && slots[old(nextId)] == Some(child)
        && (old(nextId) in handles <==> !detach)
    }

    method PerformOne(action: Action)
      requires Valid() && P.UserCode(g)
      modifies this
      ensures Valid() && Kept()
      ensures old(performed) + [action] <= performed
      ensures Happened(action)
      ensures Work() + 1 <= old(Work()) + ActionSize(action)
      decreases Work() + ActionSize(action), 1
    {
      hide P.Inv, P.Step, R.Legal, R.Run, FinalValue, KeepsWaking, SlotsSize, Reached, Synced, RootFits;
      Record(action);
      Act(action);
    }

    method Act(action: Action)
      requires Valid() && P.UserCode(g)
      modifies this
      ensures Valid() && Kept() && Happened(action)
      ensures Work() + 1 <= old(Work()) + ActionSize(action)
      decreases Work() + ActionSize(action), 0
    {
      hide P.Inv, P.Step, R.Legal, R.Run, FinalValue, KeepsWaking, SlotsSize, Reached, Synced, RootFits;
      StillSynced();
      match action
      case Wake(t) =>
        if t in flags {
          WakeTask(t);
        }
      case Cancel(t) =>
        if t in handles {
          DropHandle(t);
        }
      case Spawn(child, detach) =>
        var id := SpawnTask(child);
        if detach {
          Detach(id);
        }
    }

    /** A detached task keeps running without a handle. */
    method Detach(id: nat)
      requires Valid()
      modifies `handles
      ensures Valid() && handles == old(handles) - {id}
    {
      hide Reached, FinalValue, KeepsWaking;
      handles := handles - {id};
    }

    /** Runs code of a task, or of its drop. */
    method Perform(actions: seq<Action>)
      requires Valid() && P.UserCode(g)
      modifies this
      ensures Valid() && Kept() && Did(actions, old(performed), performed)
      ensures forall t :: Wake(t) in actions && t in old(flags) ==>
                t in flags && (flags[t].queued || P.Finished(flags[t]))
      ensures forall t :: Cancel(t) in actions && t in old(handles) ==>
                t in flags && P.Finished(flags[t]) && t !in handles
      ensures nextId >= old(nextId) + Spawns(actions)
      ensures Work() <= old(Work()) + ActionsSize(actions)
      decreases Work() + ActionsSize(actions), 2
    {
      hide P.Inv, P.Step, R.Legal, R.Run, FinalValue, KeepsWaking, SlotsSize, Reached, Synced, RootFits, Did;
      if actions == [] {
        DidNothing(performed, performed);
      } else {
        StillSynced();
        PerformOne(actions[0]);
        DidOne(actions[0], old(performed), performed);
        ghost var first := performed;
        Perform(actions[1..]);
        DidBoth([actions[0]], actions[1..], old(performed), first, performed);
        assert [actions[0]] + actions[1..] == actions;
      }
    }

    /** `run` for the next entry `t` of the batch: nothing for a finished task, else one poll of its future. */
    method RunTask(t: nat)
      requires Valid() && g.runner.Between? && g.batch != [] && g.batch[0] == t
      modifies this
      ensures Valid() && g.runner.Between? && g.batch == old(g.batch)[1..]
      ensures g.log.processed == old(g.log.processed) + [t]
      ensures closed == old(closed) && root == old(root) && expected == old(expected) && driven == old(driven)
      ensures t in old(flags) && t in flags
      ensures P.Finished(old(flags)[t]) ==> performed == old(performed)
      ensures !P.Finished(old(flags)[t]) ==>
                && t in old(slots) && old(slots)[t].Some?
                && Did(old(slots)[t].value.poll, old(performed), performed)
                && Did(PollCode(old(slots)[t].value, P.Finished(flags[t])), old(performed), performed)
      ensures Work() < old(Work()) || (Work() == old(Work()) && inbox == old(inbox))
    {
      hide P.Inv, P.Step, R.Legal, R.Run, FinalValue, KeepsWaking, SlotsSize, Reached, RootFits, Did;
      var finished := CheckTask(t);
      if finished {
        return;
      }
      var future := TakeTask(t);
      FinalStep(future);
      BeingPolled();
      Perform(future.poll);
      ghost var polled := performed;
      EndPoll(t, future.outcome);
      ghost var end := EndCode(future.outcome, P.Finished(flags[t]));
      DidBoth(future.poll, end, old(performed), polled, performed);
      DidMore(future.poll, end, old(performed), polled, performed);
    }

    /** `run` after the poll: a future that is not put back is dropped. */
    method EndPoll(t: nat, outcome: Outcome)
      requires Valid() && g.runner == P.Polling(t)
      requires root == Some(t) ==> OutcomeValue(outcome) == expected
      requires root == Some(t) && driven && outcome.Pending? && t in flags && !P.Finished(flags[t]) ==>
                 KeepsWaking(outcome.next, t) && flags[t].queued
      modifies this
      ensures Valid() && g.runner.Between?
      ensures g.batch == old(g.batch) && g.log.processed == old(g.log.processed)
      ensures closed == old(closed) && root == old(root) && expected == old(expected) && driven == old(driven)
      ensures t in flags && Did(EndCode(outcome, P.Finished(flags[t])), old(performed), performed)
      ensures outcome.Ready? ==> Did(outcome.onDrop, old(performed), performed)
      ensures outcome.Pending? && P.Finished(flags[t]) ==> Did(outcome.next.onDrop, old(performed), performed)
      ensures Work() <= old(Work()) + OutcomeSize(outcome)
    {
      hide P.Inv, P.Step, R.Legal, R.Run, FinalValue, KeepsWaking, SlotsSize, Reached, Synced, RootFits, Did;
      match outcome
      case Ready(value, onDrop) =>
        Complete(t, value);
        Perform(onDrop);
      case Pending(next) =>
        var left := PutBack(t, next);
        if left.Some? {
          Perform(left.value.onDrop);
        } else {
          DidNothing(performed, performed);
        }
    }

    method CheckTask(t: nat) returns (finished: bool)
      requires Valid() && g.runner.Between? && g.batch != [] && g.batch[0] == t
      modifies `g, `history
      ensures Reached() && Synced() && RootFits() && g.wakers == map[]
      ensures t in flags && finished == P.Finished(flags[t])
      ensures g.runner == if finished then P.Between else P.Checked(t)
      ensures g.batch == old(g.batch)[1..] && g.log.processed == old(g.log.processed) + [t]
    {
      hide P.Inv, R.Legal, R.Run, FinalValue, KeepsWaking, SlotsSize;
      BatchKnown(g);
      finished := P.Finished(flags[t]);
      Take(P.CheckNext);
    }

    /** Clears QUEUED and takes the future out of its slot. */
    method TakeTask(t: nat) returns (future: Future)
      requires Reached() && Synced() && RootFits() && g.wakers == map[] && g.runner == P.Checked(t)
      modifies `flags, `slots, `g, `history
      ensures Valid() && g.runner == P.Polling(t)
      ensures g.batch == old(g.batch) && g.log.processed == old(g.log.processed)
      ensures t in old(flags) && flags == old(flags)[t := old(flags)[t].(queued := false)]
      ensures t in old(slots) && old(slots)[t] == Some(future) && slots == old(slots)[t := None]
      ensures root == Some(t) ==> FinalValue(future) == expected && (driven ==> KeepsWaking(future, t))
      ensures Work() + Size(future) == old(Work())
    {
      hide P.Inv, P.Step, R.Legal, R.Run, FinalValue, KeepsWaking, SlotsSize, Reached, RootFits;
      TakeSlot();
      flags := flags[t := flags[t].(queued := false)];
      future := slots[t].value;
      SlotTaken(slots, t, nextId);
      slots := slots[t := None];
      RootTaken(t);
    }

    /** The protocol's step for `TakeTask`. */
    ghost method TakeSlot()
      requires Reached() && g.runner.Checked?
      modifies `g, `history
      ensures var t := old(g).runner.task;
        && Reached() && g.runner == P.Polling(t) && t < g.nextId
        && t in old(g).flags && !P.Finished(old(g).flags[t]) && t in old(g).slots && old(g).slots[t]
        && g.flags == old(g).flags[t := old(g).flags[t].(queued := false)] && g.slots == old(g).slots[t := false]
      ensures g.nextId == old(g).nextId && g.wakers == old(g).wakers && SameElse(old(g), g)
    {
      hide P.Inv, R.Legal, R.Run, FinalValue, KeepsWaking;
      SlotPresent(g);
      Take(P.TakeFuture);
    }

    lemma BeingPolled()
      requires Reached() && g.runner.Polling?
      ensures g.runner.task in g.flags && g.runner.task < g.nextId
      ensures g.runner.task in g.slots ==> !g.slots[g.runner.task]
      ensures g.runner.task in g.slots <==> !P.Finished(g.flags[g.runner.task])
      ensures !g.flags[g.runner.task].completed
    {
      hide P.Inv, R.Legal, R.Run;
      PolledKnown(g);
    }

    /** The future is ready: its task has completed. */
    method Complete(t: nat, value: int)
      requires Valid() && g.runner == P.Polling(t) && (root == Some(t) ==> value == expected)
      modifies `flags, `slots, `output, `g, `history
      ensures Valid() && g.runner.Between?
      ensures g.batch == old(g.batch) && g.log.processed == old(g.log.processed)
      ensures t in old(flags) && flags == old(flags)[t := old(flags)[t].(completed := true)]
      ensures slots == old(slots) - {t}
      ensures output == if root == Some(t) then Some(value) else old(output)
      ensures Work() <= old(Work())
    {
      hide P.Inv, P.Step, R.Legal, R.Run, FinalValue, KeepsWaking, SlotsSize, Reached, RootFits;
      BeingPolled();
      if root == Some(t) {
        output := Some(value);
      }
      flags := flags[t := flags[t].(completed := true)];
      TakeReady();
      SlotGone(slots, t, nextId);
      slots := slots - {t};
      RootCompletes(t);
    }

    /** The protocol's step for `Complete`. */
    ghost method TakeReady()
      requires Reached() && g.runner.Polling? && g.runner.task in g.flags
      modifies `g, `history
      ensures Reached() && g.runner.Between?
      ensures var t := old(g).runner.task;
        && g.flags == old(g).flags[t := old(g).flags[t].(completed := true)] && g.slots == old(g).slots - {t}
      ensures g.nextId == old(g).nextId && g.wakers == old(g).wakers && SameElse(old(g), g)
    {
      hide P.Inv, P.Step, R.Legal, R.Run, FinalValue, KeepsWaking, Reached;
      ReadyStep(g);
      Take(P.PollReady);
    }

    /** The future is pending: it goes back to its slot, unless the task was canceled meanwhile. */
    method PutBack(t: nat, next: Future) returns (left: Option<Future>)
      requires Valid() && g.runner == P.Polling(t) && (root == Some(t) ==> FinalValue(next) == expected)
      requires root == Some(t) && driven && t in flags && !P.Finished(flags[t]) ==>
                 KeepsWaking(next, t) && flags[t].queued
      modifies `slots, `g, `history
      ensures Valid() && g.runner.Between?
      ensures g.batch == old(g.batch) && g.log.processed == old(g.log.processed)
      ensures t in flags && (t in old(slots) <==> !P.Finished(flags[t]))
      ensures if t in old(slots) && !P.Finished(flags[t])
              then left.None? && slots == old(slots)[t := Some(next)]
              else left == Some(next) && slots == old(slots)
      ensures Work() + (if left.Some? then Size(next) else 0) <= old(Work()) + Size(next)
    {
      hide P.Inv, R.Legal, R.Run, FinalValue, KeepsWaking, SlotsSize;
      PolledKnown(g);
      Take(P.PollPending);
      if t in slots && !P.Finished(flags[t]) {
        SlotFilled(slots, t, next, nextId);
        slots := slots[t := Some(next)];
        return None;
      }
      left := Some(next);
    }

    /**
      An entry means that some task is queued. No entry, between two calls on an
      open executor, means that an unfinished task is queued only if some thread
      is about to push it.
     */
    method HasTasks() returns (has: bool)
      requires Reached() && Synced()
      ensures has <==> inbox != []
      ensures has ==> exists t :: t in flags && flags[t].queued
      ensures !has && g.runner.Between? && g.batch == [] && !closed ==>
                forall t :: t in flags && !P.Finished(flags[t]) ==> (flags[t].queued <==> P.BeingPushed(g, t))
    {
      has := inbox != [];
      if has {
        EntryIsQueued();
      } else if g.runner.Between? && g.batch == [] && !closed {
        IdleMeansPushed();
      }
    }

    lemma EntryIsQueued()
      requires Reached() && Synced() && inbox != []
      ensures inbox[0] in flags && flags[inbox[0]].queued
    {
      assert inbox[0] in P.Line(g);
    }

    lemma IdleMeansPushed()
      requires Reached() && Synced() && g.runner.Between? && g.batch == [] && inbox == [] && !closed
      ensures forall t :: t in flags && !P.Finished(flags[t]) ==> (flags[t].queued <==> P.BeingPushed(g, t))
    {
      hide P.Inv, R.Legal, R.Run, P.BeingPushed;
      forall t | t in flags && !P.Finished(flags[t]) ensures flags[t].queued <==> P.BeingPushed(g, t) {
        L.EmptyInboxMeans(g, t);
      }
    }

    /** Runs the first `count` tasks of the inbox, in order. */
    method ProcessTasks(count: nat)
      requires Valid() && g.runner.Between? && g.batch == []
      modifies this
      ensures Valid() && g.runner.Between? && g.batch == []
      ensures g.log.processed == old(g.log.processed) + old(inbox)[..AtMost(count, |old(inbox)|)]
      ensures closed == old(closed) && root == old(root) && expected == old(expected) && driven == old(driven)
      ensures Work() < old(Work())
           || (Work() == old(Work()) && inbox == old(inbox)[AtMost(count, |old(inbox)|)..])
    {
      hide P.Inv, P.Step, R.Legal, R.Run, FinalValue, KeepsWaking, SlotsSize, Reached;
      var n := if count < |inbox| then count else |inbox|;
      var tasks := inbox[..n];
      DrainInbox(n, count);
      var i := 0;
      while i < |tasks|
        invariant 0 <= i <= |tasks|
        invariant Valid() && g.runner.Between? && g.batch == tasks[i..]
        invariant g.log.processed == old(g.log.processed) + tasks[..i]
        invariant closed == old(closed) && root == old(root) && expected == old(expected) && driven == old(driven)
        invariant Work() < old(Work()) || (Work() == old(Work()) && inbox == old(inbox)[n..])
      {
        RunTask(tasks[i]);
        i := i + 1;
      }
    }

    method DrainInbox(n: nat, count: nat)
      requires Valid() && g.runner.Between? && g.batch == [] && n == AtMost(count, |inbox|)
      modifies `inbox, `g, `history
      ensures Valid() && g.runner.Between? && g.batch == old(inbox)[..n] && inbox == old(inbox)[n..]
      ensures g.log.processed == old(g.log.processed)
    {
      hide P.Inv, R.Legal, R.Run, FinalValue, KeepsWaking, SlotsSize;
      Take(P.Drain(count));
      inbox := inbox[n..];
    }

    /**
      Drives the executor until the queue is empty and returns the value of
      `future`, or `None` where the program panics. It terminates because every
      poll uses up part of some future, and a call without a poll empties the
      inbox. The value is there exactly if the task completed, and it is the one
      the future leads to; otherwise the task has no wake outstanding. A future that
      wakes its task in every pending poll always gets to its value.
     */
    method BlockOn(future: Future) returns (value: Option<int>)
      requires Valid() && g.runner.Between? && g.batch == [] && !closed && root.None?
      modifies this
      ensures Valid() && g.runner.Between? && g.batch == [] && !closed && root.None?
      ensures inbox == [] && old(nextId) in flags
      ensures KeepsWaking(future, old(nextId)) ==> value == Some(FinalValue(future))
      ensures value.Some? <==> flags[old(nextId)].completed
      ensures value.Some? ==> value.value == FinalValue(future)
      ensures value.None? ==> !P.Finished(flags[old(nextId)]) && !flags[old(nextId)].queued
    {
      hide P.Inv, P.Step, R.Legal, R.Run, FinalValue, KeepsWaking, SlotsSize, Reached;
      var id := SpawnRoot(future);
      var more := HasTasks();
      while more
        invariant Valid() && g.runner.Between? && g.batch == [] && !closed
        invariant root == Some(id) && expected == FinalValue(future) && driven == KeepsWaking(future, id)
        invariant more <==> inbox != []
        invariant !more ==>
                    forall t :: t in flags && !P.Finished(flags[t]) ==> (flags[t].queued <==> P.BeingPushed(g, t))
        decreases Work(), |inbox|
      {
        ProcessTasks(|inbox|);
        more := HasTasks();
      }
      assert !P.BeingPushed(g, id);
      AtRest();
      value := output;
      root, output := None, None;
    }

    method SpawnRoot(future: Future) returns (id: nat)
      requires Valid() && P.UserCode(g) && !closed
      modifies this
      ensures Valid() && id == old(nextId)
      ensures g.runner == old(g.runner) && g.batch == old(g.batch) && closed == old(closed)
      ensures root == Some(id) && expected == FinalValue(future) && driven == KeepsWaking(future, id)
    {
      hide P.Inv, P.Step, R.Legal, R.Run, FinalValue, KeepsWaking, SlotsSize, Reached, Synced, RootFits;
      id := SpawnTask(future);
      Detach(id);
      SetRoot(id, future);
    }

    method SetRoot(id: nat, future: Future)
      requires Valid() && id in flags && flags[id] == P.Flags(true, false, false) && id !in handles
      requires id in slots && slots[id] == Some(future)
      modifies `root, `output, `expected, `driven
      ensures Valid()
      ensures root == Some(id) && expected == FinalValue(future) && driven == KeepsWaking(future, id)
    {
      hide Reached, FinalValue, KeepsWaking;
      root, output, expected, driven := Some(id), None, FinalValue(future), KeepsWaking(future, id);
    }

    lemma AtRest()
      requires Reached() && Synced() && g.runner.Between?
      ensures forall t :: t in slots ==> slots[t].Some?
    {
    }

    /**
      The executor is dropped: every task that was left is canceled and its future
      dropped. The drop code still runs, and nothing comes of it.
     */
    method Close()
      requires Valid() && g.runner.Between? && g.batch == [] && root.None?
      modifies this
      ensures Valid() && g.runner.Gone? && closed && inbox == [] && slots == map[]
      ensures flags.Keys == old(flags.Keys) && forall t :: t in flags ==> P.Finished(flags[t])
      ensures g.log.polls == old(g.log.polls) && loopWakes == old(loopWakes)
      ensures performed == old(performed) + DropAllCode(old(slots), old(nextId))
      ensures forall t :: t in old(slots) && old(slots)[t].Some? ==>
                Did(old(slots)[t].value.onDrop, old(performed), performed)
    {
      hide P.Inv, P.Step, R.Legal, R.Run, FinalValue, KeepsWaking, SlotsSize, Reached;
      StartClose();
      CancelAll();
      var left, n := slots, nextId;
      DropAll();
      DropFutures(left, n);
      forall t | t in old(slots) && old(slots)[t].Some?
        ensures Did(old(slots)[t].value.onDrop, old(performed), performed)
      {
        DropAllHas(old(slots), old(nextId), t);
        assert performed[|old(performed)|..] == DropAllCode(old(slots), old(nextId));
      }
    }

    /** What holds once the executor is gone. */
    ghost predicate Over()
      reads this
    {
      && Valid() && g.runner.Gone? && closed && inbox == [] && slots == map[] && root.None?
      && forall t :: t in flags ==> P.Finished(flags[t])
    }

    method DropFutures(left: map<nat, Option<Future>>, n: nat)
      requires Over()
      modifies this
      ensures Over() && flags.Keys == old(flags.Keys)
      ensures g.log.polls == old(g.log.polls) && loopWakes == old(loopWakes)
      ensures performed == old(performed) + DropAllCode(left, n)
    {
      hide Over;
      var id := 0;
      while id < n
        invariant 0 <= id <= n && Over() && flags.Keys == old(flags.Keys)
        invariant g.log.polls == old(g.log.polls) && loopWakes == old(loopWakes)
        invariant performed == old(performed) + DropAllCode(left, id)
      {
        if id in left && left[id].Some? {
          PerformLate(left[id].value.onDrop);
        }
        id := id + 1;
      }
    }

    /** Drop code after the close: wakes and cancels do nothing, and there is no executor left to spawn on. */
    method PerformLate(actions: seq<Action>)
      requires Over()
      modifies this
      ensures Over() && flags.Keys == old(flags.Keys)
      ensures g.log.polls == old(g.log.polls) && loopWakes == old(loopWakes)
      ensures performed == old(performed) + actions
    {
      hide P.Inv, P.Step, R.Legal, R.Run, FinalValue, KeepsWaking, SlotsSize, Reached;
      var i := 0;
      while i < |actions|
        invariant 0 <= i <= |actions| && Over() && flags.Keys == old(flags.Keys)
        invariant g.log.polls == old(g.log.polls) && loopWakes == old(loopWakes)
        invariant performed == old(performed) + actions[..i]
      {
        performed := performed + [actions[i]];
        match actions[i] {
          case Wake(t) =>
            if t in flags {
              WakeTask(t);
            }
          case Cancel(t) =>
            if t in handles {
              DropLateHandle(t);
            }
          case Spawn(_, _) =>
        }
        i := i + 1;
      }
    }

    method DropLateHandle(t: nat)
      requires Over() && t in handles
      modifies `flags, `handles, `g, `history
      ensures Over() && flags.Keys == old(flags.Keys) && g.log == old(g.log)
      ensures handles == old(handles) - {t}
    {
      hide P.Inv, R.Legal, R.Run, FinalValue, KeepsWaking, SlotsSize;
      handles := handles - {t};
      flags := flags[t := flags[t].(canceled := true)];
      Take(P.Cancel(t));
    }

    method CancelAll()
      requires Valid() && g.runner.Canceling? && closed && inbox == [] && root.None?
      requires forall t :: t in slots ==> t in flags && t < nextId && !flags[t].canceled
      modifies `flags, `g, `history
      ensures Valid() && g.runner.Canceling?
      ensures flags.Keys == old(flags.Keys) && g.log.polls == old(g.log.polls)
      ensures forall t :: t in slots ==> t in flags && flags[t].canceled
    {
      hide P.Inv, P.Step, R.Legal, R.Run, FinalValue, KeepsWaking, SlotsSize, Reached;
      var id := 0;
      while id < nextId
        invariant Valid() && g.runner.Canceling?
        invariant flags.Keys == old(flags.Keys) && g.log.polls == old(g.log.polls)
        invariant forall t :: t in slots ==> t in flags && t < nextId && (t < id <==> flags[t].canceled)
      {
        if id in slots {
          CancelLeft(id);
        }
        id := id + 1;
      }
    }

    method DropAll()
      requires Valid() && g.runner.Canceling? && root.None?
      requires forall t :: t in slots ==> t in flags && flags[t].canceled
      modifies `slots, `g, `history
      ensures Valid() && g.runner.Gone? && slots == map[]
      ensures g.log.polls == old(g.log.polls) && forall t :: t in flags ==> P.Finished(flags[t])
    {
      hide P.Inv, R.Legal, R.Run, FinalValue, KeepsWaking, SlotsSize;
      Take(P.DropSlots);
      slots := map[];
      GoneIsFinished(g);
    }

    method StartClose()
      requires Valid() && g.runner.Between? && g.batch == [] && root.None?
      modifies `closed, `inbox, `g, `history
      ensures Valid() && g.runner.Canceling? && closed && inbox == []
      ensures g.log.polls == old(g.log.polls)
      ensures forall t :: t in slots ==> t in flags && t < nextId && !flags[t].canceled
    {
      hide P.Inv, R.Legal, R.Run, FinalValue, KeepsWaking, SlotsSize;
      SlotsAreUnfinished(g);
      closed := true;
      Take(P.CloseStore);
      inbox := [];
      Take(P.CloseDrain);
    }

    method CancelLeft(t: nat)
      requires Valid() && g.runner.Canceling? && root.None? && t in slots && t in flags && !flags[t].canceled
      modifies `flags, `g, `history
      ensures Valid() && g.runner.Canceling?
      ensures g.log.polls == old(g.log.polls)
      ensures flags == old(flags)[t := old(flags)[t].(canceled := true)]
    {
      hide P.Inv, R.Legal, R.Run, FinalValue, KeepsWaking, SlotsSize;
      flags := flags[t := flags[t].(canceled := true)];
      Take(P.CancelSlot(t));
    }
  }

  lemma SlotsAreUnfinished(g: P.State)
    requires P.Inv(g) && g.runner.Between?
    ensures forall t :: t in g.slots ==> t in g.flags && t < g.nextId && !g.flags[t].canceled
  {
  }

  lemma GoneIsFinished(g: P.State)
    requires P.Inv(g) && g.runner.Gone?
    ensures forall t :: t in g.flags ==> P.Finished(g.flags[t])
  {
  }

  /** A future that wakes its own task gets polled again, although nothing else happens. */
  method PolledTwice() returns (value: Option<int>)
    ensures value == Some(7)
  {
    var ready := Future([], [], Ready(7, []));
    var executor := new Executor();
    value := executor.BlockOn(Future([], [Wake(0)], Pending(ready)));
    assert OutcomeValue(Pending(ready)) == FinalValue(ready) == OutcomeValue(Ready(7, [])) == 7;
  }
}
