/**
  The executor as a step relation: any number of threads calling wakers and one
  runner thread. A step is at most one access to memory the threads share (an
  atomic on a task's state or on `closed`, or one inbox critical section),
  together with the thread-local work that follows it. Waker calls made by the
  runner itself are given a thread of their own, which only adds interleavings.
 */
module Protocol {
  import opened NatSets

  /** The state byte of a task's header. */
  datatype Flags = Flags(queued: bool, canceled: bool, completed: bool)

  predicate Finished(f: Flags) {
    f.canceled || f.completed
  }

  /** Where a thread stands inside `schedule`. */
  datatype WakerPc =
    | Called(task: nat)       // about to load the state
    | NotFinished(task: nat)  // about to load `closed`
    | NotClosed(task: nat)    // about to set QUEUED
    | Claimed(task: nat)      // set QUEUED, about to push
    | Pushed(task: nat)       // about to wake the event loop

  /** Where the runner stands. */
  datatype RunnerPc =
    | Between                 // not in a task: outside, between two tasks of a batch, or in drop code
    | Checked(task: nat)      // found the task unfinished, about to clear QUEUED
    | Polling(task: nat)
    | Closing                 // stored `closed`, about to drain the inbox
    | Canceling               // canceling the remaining slots one by one
    | Gone                    // the executor has been dropped

  /** The history of a run. A multiset counts how often each future was dropped. */
  datatype Log = Log(
    pushed: seq<nat>, processed: seq<nat>, polls: seq<nat>, dropped: multiset<nat>, notified: nat)

  /** `slots[t]` says whether the future is there or taken out for polling. */
  datatype State = State(
    flags: map<nat, Flags>, slots: map<nat, bool>, nextId: nat,
    inbox: seq<nat>, closed: bool,
    wakers: map<nat, WakerPc>, runner: RunnerPc, batch: seq<nat>, log: Log)

  function Init(): State {
    State(map[], map[], 0, [], false, map[], Between, [], Log([], [], [], multiset{}, 0))
  }

  datatype Label =
    | CallWake(w: nat, task: nat)
    | LoadFinished(w: nat)
    | LoadClosed(w: nat)
    | SetQueued(w: nat)
    | Push(w: nat)
    | NotifyLoop(w: nat)
    | Spawn(w: nat)
    | Cancel(task: nat)
    | Drain(count: nat)
    | CheckNext
    | TakeFuture
    | PollReady
    | PollPending
    | CloseStore
    | CloseDrain
    | CancelSlot(task: nat)
    | DropSlots

  /** Code of a task or of its drop may run, and so may code outside of `process_tasks`. */
  predicate UserCode(s: State) {
    s.runner.Between? || s.runner.Polling?
  }

  predicate Enabled(s: State, l: Label) {
    match l
    case CallWake(w, t) => w !in s.wakers && t in s.flags
    case LoadFinished(w) => w in s.wakers && s.wakers[w].Called? && s.wakers[w].task in s.flags
    case LoadClosed(w) => w in s.wakers && s.wakers[w].NotFinished?
    case SetQueued(w) => w in s.wakers && s.wakers[w].NotClosed? && s.wakers[w].task in s.flags
    case Push(w) => w in s.wakers && s.wakers[w].Claimed?
    case NotifyLoop(w) => w in s.wakers && s.wakers[w].Pushed?
    case Spawn(w) => UserCode(s) && w !in s.wakers
    case Cancel(t) => (UserCode(s) || s.runner.Gone?) && t in s.flags
    case Drain(_) => s.runner.Between? && s.batch == []
    case CheckNext => s.runner.Between? && s.batch != [] && s.batch[0] in s.flags
    case TakeFuture => s.runner.Checked? && s.runner.task in s.flags
    case PollReady => s.runner.Polling? && s.runner.task in s.flags
    case PollPending => s.runner.Polling? && s.runner.task in s.flags
    case CloseStore => s.runner.Between? && s.batch == []
    case CloseDrain => s.runner.Closing?
    case CancelSlot(t) => s.runner.Canceling? && t in s.slots && t in s.flags && !s.flags[t].canceled
    case DropSlots => s.runner.Canceling? && forall t :: t in s.slots ==> t in s.flags && s.flags[t].canceled
  }

  function Present(slots: map<nat, bool>): set<nat> {
    set t | t in slots && slots[t]
  }

  function Step(s: State, l: Label): State
    requires Enabled(s, l)
  {
    match l
    case CallWake(w, t) => s.(wakers := s.wakers[w := Called(t)])
    case LoadFinished(w) =>
      var t := s.wakers[w].task;
      s.(wakers := if Finished(s.flags[t]) then s.wakers - {w} else s.wakers[w := NotFinished(t)])
    case LoadClosed(w) =>
      s.(wakers := if s.closed then s.wakers - {w} else s.wakers[w := NotClosed(s.wakers[w].task)])
    case SetQueued(w) =>
      var t := s.wakers[w].task;
      s.(flags := s.flags[t := s.flags[t].(queued := true)],
         wakers := if s.flags[t].queued then s.wakers - {w} else s.wakers[w := Claimed(t)])
    case Push(w) =>
      var t := s.wakers[w].task;
      s.(inbox := s.inbox + [t], wakers := s.wakers[w := Pushed(t)],
         log := s.log.(pushed := s.log.pushed + [t]))
    case NotifyLoop(w) =>
      s.(wakers := s.wakers - {w}, log := s.log.(notified := s.log.notified + 1))
    case Spawn(w) =>
      s.(flags := s.flags[s.nextId := Flags(false, false, false)],
         slots := s.slots[s.nextId := true], nextId := s.nextId + 1,
         wakers := s.wakers[w := Called(s.nextId)])
    case Cancel(t) =>
      var s' := s.(flags := s.flags[t := s.flags[t].(canceled := true)]);
      if Finished(s.flags[t]) || s.runner.Gone? then s'
      else
        s'.(slots := s.slots - {t},
            log := if t in Present(s.slots) then s.log.(dropped := s.log.dropped + multiset{t}) else s.log)
    case Drain(count) =>
      var n := AtMost(count, |s.inbox|);
      s.(batch := s.inbox[..n], inbox := s.inbox[n..])
    case CheckNext =>
      var t := s.batch[0];
      s.(batch := s.batch[1..], log := s.log.(processed := s.log.processed + [t]),
         runner := if Finished(s.flags[t]) then Between else Checked(t))
    case TakeFuture =>
      var t := s.runner.task;
      var s' := s.(flags := s.flags[t := s.flags[t].(queued := false)]);
      if t in Present(s.slots) then
        s'.(slots := s.slots[t := false], runner := Polling(t), log := s.log.(polls := s.log.polls + [t]))
      else s'.(runner := Between)
    case PollReady =>
      var t := s.runner.task;
      s.(flags := s.flags[t := s.flags[t].(completed := true)], slots := s.slots - {t},
         runner := Between, log := s.log.(dropped := s.log.dropped + multiset{t}))
    case PollPending =>
      var t := s.runner.task;
      if t in s.slots && !Finished(s.flags[t]) then s.(slots := s.slots[t := true], runner := Between)
      else s.(runner := Between, log := s.log.(dropped := s.log.dropped + multiset{t}))
    case CloseStore => s.(closed := true, runner := Closing)
    case CloseDrain => s.(inbox := [], runner := Canceling)
    case CancelSlot(t) => s.(flags := s.flags[t := s.flags[t].(canceled := true)])
    case DropSlots =>
      s.(slots := map[], runner := Gone, log := s.log.(dropped := s.log.dropped + multiset(Present(s.slots))))
  }

  // ---- Invariants ----

  /** The task just taken from the batch, the rest of the batch, then the inbox. */
  function Line(s: State): seq<nat> {
    Current(s) + s.batch + s.inbox
  }

  function Current(s: State): seq<nat> {
    if s.runner.Checked? then [s.runner.task] else []
  }

  predicate NoRepeats(xs: seq<nat>) {
    forall i, j :: 0 <= i < j < |xs| ==> xs[i] != xs[j]
  }

  /** Some thread has set QUEUED for `t` and is about to push it. */
  ghost predicate BeingPushed(s: State, t: nat) {
    exists w :: w in s.wakers && s.wakers[w] == Claimed(t)
  }

  ghost predicate Known(s: State) {
    && (forall t: nat :: t in s.flags <==> t < s.nextId)
    && (forall t :: t in s.slots ==> t in s.flags)
    && (forall w :: w in s.wakers ==> s.wakers[w].task in s.flags)
    && (forall t :: t in Line(s) ==> t in s.flags)
  }

  /** A task is queued at most once, counting the thread about to push it. */
  ghost predicate QueuedOnce(s: State) {
    && NoRepeats(Line(s))
    && (forall t :: t in Line(s) && t in s.flags ==> s.flags[t].queued)
    && (forall w :: w in s.wakers && s.wakers[w].Claimed? ==>
          s.wakers[w].task !in Line(s) && s.wakers[w].task in s.flags && s.flags[s.wakers[w].task].queued)
    && (forall v, w :: v in s.wakers && w in s.wakers && s.wakers[v].Claimed? && s.wakers[v] == s.wakers[w] ==> v == w)
  }

  /** While open, an unfinished task marked QUEUED really is on its way to a poll. */
  ghost predicate QueuedMeansEntry(s: State) {
    !s.closed ==>
      forall t :: t in s.flags && s.flags[t].queued && !Finished(s.flags[t]) ==> t in Line(s) || BeingPushed(s, t)
  }

  predicate Open(s: State) {
    s.runner.Between? || s.runner.Checked? || s.runner.Polling?
  }

  ghost predicate SlotsFit(s: State) {
    && (s.closed <==> !Open(s))
    && (Open(s) || s.runner.Closing? ==> forall t :: t in s.flags ==> (t in s.slots <==> !Finished(s.flags[t])))
    && (s.runner.Canceling? ==> forall t :: t in s.flags && !Finished(s.flags[t]) ==> t in s.slots)
    && (s.runner.Gone? ==> s.slots == map[] && forall t :: t in s.flags ==> Finished(s.flags[t]))
    && (forall t :: t in s.slots && !s.slots[t] ==> s.runner == Polling(t))
    && (s.runner.Polling? && s.runner.task in s.slots ==> !s.slots[s.runner.task])
    && (s.runner.Checked? ==> s.runner.task in s.flags && !Finished(s.flags[s.runner.task]))
    && (s.runner.Polling? ==> s.runner.task in s.flags && !s.flags[s.runner.task].completed)
    && (s.closed ==> s.batch == [])
  }

  /** Every future is in its slot, being polled, or dropped: in exactly one of these, and dropped once. */
  ghost predicate OnePlace(s: State) {
    forall t :: t in s.flags ==> Places(s, t) == 1
  }

  function Places(s: State, t: nat): nat {
    (if t in s.slots && s.slots[t] then 1 else 0) + (if s.runner == Polling(t) then 1 else 0) + s.log.dropped[t]
  }

  ghost predicate NothingForeign(s: State) {
    forall t :: t in s.log.dropped ==> t in s.flags
  }

  function AboutToNotify(s: State): set<nat> {
    set w | w in s.wakers && s.wakers[w].Pushed?
  }

  /** In order, what was pushed is what was processed, then the batch, then the inbox; one loop wake per push. */
  ghost predicate Accounted(s: State) {
    && (!s.closed ==> s.log.pushed == s.log.processed + s.batch + s.inbox)
    && |s.log.pushed| == s.log.notified + |AboutToNotify(s)|
  }

  ghost predicate Inv(s: State) {
    Known(s) && QueuedOnce(s) && QueuedMeansEntry(s) && SlotsFit(s) && OnePlace(s) && NothingForeign(s) && Accounted(s)
  }

  // ---- Every step keeps them ----

  /** Steps of threads inside `schedule`, and of nobody else. */
  predicate OfWaker(l: Label) {
    l.CallWake? || l.LoadFinished? || l.LoadClosed? || l.SetQueued? || l.Push? || l.NotifyLoop?
  }

  lemma WakerKeepsLine(s: State, l: Label)
    requires Enabled(s, l) && OfWaker(l) && !l.Push?
    ensures Line(Step(s, l)) == Line(s)
  {
    var s' := Step(s, l);
    assert s'.runner == s.runner && s'.batch == s.batch && s'.inbox == s.inbox;
    hide Step, Enabled;
  }

  lemma RunnerKeepsLine(s: State, l: Label)
    requires Enabled(s, l) && !OfWaker(l) && !l.CheckNext? && !l.TakeFuture? && !l.CloseDrain?
    ensures Line(Step(s, l)) == Line(s)
  {
    var s' := Step(s, l);
    assert Current(s') == Current(s);
    if l.Drain? {
      assert s.inbox == s'.batch + s'.inbox;
      assert s.batch == [];
    } else {
      assert s'.batch == s.batch && s'.inbox == s.inbox;
    }
  }

  /** What a step does to the line. */
  ghost predicate LineMoved(s: State, l: Label, a: seq<nat>, b: seq<nat>)
    requires Enabled(s, l)
  {
    match l
    case Push(w) => b == a + [s.wakers[w].task]
    case CheckNext => a != [] && a[0] == s.batch[0] && b == (if Finished(s.flags[a[0]]) then a[1..] else a)
    case TakeFuture => a != [] && a[0] == s.runner.task && b == a[1..]
    case CloseDrain => |s.batch| <= |a| && b == a[..|s.batch|]
    case _ => b == a
  }

  lemma CheckMovesLine(s: State)
    requires Enabled(s, CheckNext)
    ensures LineMoved(s, CheckNext, Line(s), Line(Step(s, CheckNext)))
  {
    var a := Line(s);
    assert a == s.batch + s.inbox;
    assert s.batch == [s.batch[0]] + s.batch[1..];
    assert a[1..] == s.batch[1..] + s.inbox;
  }

  lemma TakeMovesLine(s: State)
    requires Enabled(s, TakeFuture)
    ensures LineMoved(s, TakeFuture, Line(s), Line(Step(s, TakeFuture)))
  {
    assert Line(s)[1..] == s.batch + s.inbox;
  }

  lemma CloseMovesLine(s: State)
    requires Enabled(s, CloseDrain)
    ensures LineMoved(s, CloseDrain, Line(s), Line(Step(s, CloseDrain)))
  {
    assert Line(Step(s, CloseDrain)) == Line(s)[..|s.batch|];
  }

  lemma PushMovesLine(s: State, w: nat)
    requires Enabled(s, Push(w))
    ensures LineMoved(s, Push(w), Line(s), Line(Step(s, Push(w))))
  {
    assert Line(Step(s, Push(w))) == Line(s) + [s.wakers[w].task];
  }

  lemma LineMoves(s: State, l: Label)
    requires Enabled(s, l)
    ensures LineMoved(s, l, Line(s), Line(Step(s, l)))
  {
    hide Line, Step, Enabled;
    match l
    case Push(w) => PushMovesLine(s, w);
    case CheckNext => CheckMovesLine(s);
    case TakeFuture => TakeMovesLine(s);
    case CloseDrain => CloseMovesLine(s);
    case _ =>
      if OfWaker(l) {
        WakerKeepsLine(s, l);
      } else {
        RunnerKeepsLine(s, l);
      }
  }

  lemma WakerKeepsKnown(s: State, l: Label)
    requires Known(s) && Enabled(s, l) && OfWaker(l)
    ensures Known(Step(s, l))
  {
    hide Line;
    LineMoves(s, l);
    var s' := Step(s, l);
    assert s'.flags.Keys == s.flags.Keys && s'.nextId == s.nextId && s'.slots == s.slots;
  }

  lemma RunnerKeepsKnown(s: State, l: Label)
    requires Known(s) && Enabled(s, l) && !OfWaker(l)
    ensures Known(Step(s, l))
  {
    hide Line;
    LineMoves(s, l);
  }

  lemma StepKeepsKnown(s: State, l: Label)
    requires Known(s) && Enabled(s, l)
    ensures Known(Step(s, l))
  {
    hide Known, Step, Enabled;
    if OfWaker(l) {
      WakerKeepsKnown(s, l);
    } else {
      RunnerKeepsKnown(s, l);
    }
  }

  lemma WakerKeepsQueuedOnce(s: State, l: Label)
    requires Known(s) && QueuedOnce(s) && Enabled(s, l) && OfWaker(l)
    ensures QueuedOnce(Step(s, l))
  {
    hide Line;
    LineMoves(s, l);
  }

  lemma RunnerKeepsQueuedOnce(s: State, l: Label)
    requires Known(s) && QueuedOnce(s) && SlotsFit(s) && Enabled(s, l) && !OfWaker(l)
    ensures QueuedOnce(Step(s, l))
  {
    hide Line;
    LineMoves(s, l);
  }

  lemma WakerKeepsQueuedMeansEntry(s: State, l: Label)
    requires Known(s) && QueuedMeansEntry(s) && Enabled(s, l) && OfWaker(l)
    ensures QueuedMeansEntry(Step(s, l))
  {
    LineMoves(s, l);
    hide Line;
    var s' := Step(s, l);
    if !s'.closed {
      forall t | t in s'.flags && s'.flags[t].queued && !Finished(s'.flags[t])
        ensures t in Line(s') || BeingPushed(s', t)
      {
        if s.flags[t].queued && t !in Line(s') {
          var w :| w in s.wakers && s.wakers[w] == Claimed(t);
          assert s'.wakers[w] == Claimed(t);
        } else if t !in Line(s') {
          assert s'.wakers[l.w] == Claimed(t);
        }
      }
    }
  }

  /** The runner queues nobody. */
  lemma RunnerQueuesNobody(s: State, l: Label, t: nat)
    requires Known(s) && SlotsFit(s) && Enabled(s, l) && !OfWaker(l)
    requires var s' := Step(s, l); !s'.closed && t in s'.flags && s'.flags[t].queued && !Finished(s'.flags[t])
    ensures !s.closed && t in s.flags && s.flags[t].queued && !Finished(s.flags[t])
    ensures !l.CloseDrain? && (l.TakeFuture? ==> s.runner.task != t)
  {
    hide Line;
  }

  /** Whom it takes from the line is no longer queued, or is finished. */
  lemma RunnerKeepsEntry(s: State, l: Label, t: nat)
    requires Enabled(s, l) && !OfWaker(l) && !l.CloseDrain? && (l.TakeFuture? ==> s.runner.task != t)
    requires t in Line(s) && (t in s.flags ==> !Finished(s.flags[t]))
    ensures t in Line(Step(s, l))
  {
    LineMoves(s, l);
    hide Line, Step;
    assert Line(s) == [Line(s)[0]] + Line(s)[1..];
  }

  lemma RunnerKeepsPushers(s: State, l: Label, t: nat)
    requires Enabled(s, l) && !OfWaker(l) && BeingPushed(s, t)
    ensures l.Spawn? || Step(s, l).wakers == s.wakers
    ensures BeingPushed(Step(s, l), t)
  {
    var w :| w in s.wakers && s.wakers[w] == Claimed(t);
    assert Step(s, l).wakers[w] == Claimed(t);
  }

  lemma RunnerKeepsQueuedMeansEntry(s: State, l: Label)
    requires Known(s) && QueuedMeansEntry(s) && SlotsFit(s) && Enabled(s, l) && !OfWaker(l)
    ensures QueuedMeansEntry(Step(s, l))
  {
    hide Known, SlotsFit, Step, Line, BeingPushed, Enabled;
    var s' := Step(s, l);
    if !s'.closed {
      forall t | t in s'.flags && s'.flags[t].queued && !Finished(s'.flags[t])
        ensures t in Line(s') || BeingPushed(s', t)
      {
        RunnerQueuesNobody(s, l, t);
        if t in Line(s) {
          RunnerKeepsEntry(s, l, t);
        } else {
          RunnerKeepsPushers(s, l, t);
        }
      }
    }
  }

  lemma StepKeepsQueuedMeansEntry(s: State, l: Label)
    requires Known(s) && QueuedMeansEntry(s) && SlotsFit(s) && Enabled(s, l)
    ensures QueuedMeansEntry(Step(s, l))
  {
    hide Known, QueuedMeansEntry, SlotsFit, Step, Enabled;
    if OfWaker(l) {
      WakerKeepsQueuedMeansEntry(s, l);
    } else {
      RunnerKeepsQueuedMeansEntry(s, l);
    }
  }

  lemma WakerKeepsSlotsFit(s: State, l: Label)
    requires Known(s) && SlotsFit(s) && Enabled(s, l) && OfWaker(l)
    ensures SlotsFit(Step(s, l))
  {
    var s' := Step(s, l);
    assert s'.flags.Keys == s.flags.Keys;
    assert forall t :: t in s.flags ==> Finished(s'.flags[t]) == Finished(s.flags[t]);
  }

  lemma RunnerKeepsSlotsFit(s: State, l: Label)
    requires Known(s) && SlotsFit(s) && Enabled(s, l) && !OfWaker(l)
    ensures SlotsFit(Step(s, l))
  {
  }

  /** A future keeps having one place. */
  lemma PlaceKept(s: State, l: Label, t: nat)
    requires Known(s) && SlotsFit(s) && Enabled(s, l)
    requires if t in s.flags then Places(s, t) == 1 else t !in s.log.dropped
    ensures if t in Step(s, l).flags then Places(Step(s, l), t) == 1 else t !in Step(s, l).log.dropped
  {
    if OfWaker(l) {
      WakerMovesNothing(s, l);
      hide Known, SlotsFit, Step, Enabled;
    } else {
      RunnerKeepsPlace(s, l, t);
      hide Known, SlotsFit, Step, Enabled;
    }
  }

  lemma DropSlotsKeepsPlace(s: State, t: nat)
    requires Known(s) && SlotsFit(s) && Enabled(s, DropSlots)
    requires if t in s.flags then Places(s, t) == 1 else t !in s.log.dropped
    ensures var s' := Step(s, DropSlots); if t in s'.flags then Places(s', t) == 1 else t !in s'.log.dropped
  {
    hide Line;
    var s' := Step(s, DropSlots);
    assert s'.log.dropped[t] == s.log.dropped[t] + (if t in Present(s.slots) then 1 else 0);
  }

  lemma WakerMovesNothing(s: State, l: Label)
    requires Enabled(s, l) && OfWaker(l)
    ensures Step(s, l).slots == s.slots && Step(s, l).runner == s.runner && Step(s, l).log.dropped == s.log.dropped
    ensures Step(s, l).flags.Keys == s.flags.Keys
  {
  }

  lemma RunnerKeepsPlace(s: State, l: Label, t: nat)
    requires Known(s) && SlotsFit(s) && Enabled(s, l) && !OfWaker(l)
    requires if t in s.flags then Places(s, t) == 1 else t !in s.log.dropped
    ensures if t in Step(s, l).flags then Places(Step(s, l), t) == 1 else t !in Step(s, l).log.dropped
  {
    hide Line;
    if l.DropSlots? {
      DropSlotsKeepsPlace(s, t);
    } else if l.Cancel? && l.task != t {
      assert Step(s, l).log.dropped[t] == s.log.dropped[t] && Step(s, l).runner == s.runner;
    }
  }

  lemma StepKeepsOnePlace(s: State, l: Label)
    requires Known(s) && SlotsFit(s) && OnePlace(s) && NothingForeign(s) && Enabled(s, l)
    ensures OnePlace(Step(s, l)) && NothingForeign(Step(s, l))
  {
    var s' := Step(s, l);
    hide Step;
    forall t ensures if t in s'.flags then Places(s', t) == 1 else t !in s'.log.dropped {
      PlaceKept(s, l, t);
    }
  }

  lemma NotifiersMove(s: State, l: Label)
    requires Enabled(s, l)
    ensures var a, b := AboutToNotify(s), AboutToNotify(Step(s, l));
      match l
      case Push(w) => w !in a && b == a + {w}
      case NotifyLoop(w) => w in a && b == a - {w}
      case _ => b == a
  {
  }

  lemma StepKeepsAccounted(s: State, l: Label)
    requires SlotsFit(s) && Accounted(s) && Enabled(s, l)
    ensures Accounted(Step(s, l))
  {
    NotifiersMove(s, l);
    match l
    case Drain(count) =>
      var n := AtMost(count, |s.inbox|);
      assert s.inbox == s.inbox[..n] + s.inbox[n..];
    case CheckNext => assert s.batch == [s.batch[0]] + s.batch[1..];
    case _ =>
  }

  lemma StepKeepsInv(s: State, l: Label)
    requires Inv(s) && Enabled(s, l)
    ensures Inv(Step(s, l))
  {
    StepKeepsKnown(s, l);
    if OfWaker(l) {
      WakerKeepsQueuedOnce(s, l);
      WakerKeepsSlotsFit(s, l);
    } else {
      RunnerKeepsQueuedOnce(s, l);
      RunnerKeepsSlotsFit(s, l);
    }
    StepKeepsQueuedMeansEntry(s, l);
    StepKeepsOnePlace(s, l);
    StepKeepsAccounted(s, l);
  }

  lemma WakerKeepsQueued(s: State, l: Label, t: nat)
    requires Enabled(s, l) && OfWaker(l) && t in s.flags && s.flags[t].queued
    ensures t in Step(s, l).flags && Step(s, l).flags[t].queued
  {
  }

  lemma RunnerKeepsQueued(s: State, l: Label, t: nat)
    requires Known(s) && SlotsFit(s) && Enabled(s, l) && !OfWaker(l) && t in s.flags && s.flags[t].queued
    ensures t in Step(s, l).flags
    ensures Step(s, l).flags[t].queued
         || (l.TakeFuture? && Step(s, l).runner == Polling(t) && Step(s, l).log.polls == s.log.polls + [t])
  {
    hide Line;
  }

  /** QUEUED is cleared only by starting the poll. */
  lemma QueuedUntilTaken(s: State, l: Label, t: nat)
    requires Known(s) && SlotsFit(s) && Enabled(s, l) && t in s.flags && s.flags[t].queued
    ensures t in Step(s, l).flags
    ensures Step(s, l).flags[t].queued
         || (l.TakeFuture? && Step(s, l).runner == Polling(t) && Step(s, l).log.polls == s.log.polls + [t])
  {
    hide Known, SlotsFit, Step, Enabled;
    if OfWaker(l) {
      WakerKeepsQueued(s, l, t);
    } else {
      RunnerKeepsQueued(s, l, t);
    }
  }

  /** A task stays known, and once finished it stays so. */
  lemma StepFlagsStay(s: State, l: Label, t: nat)
    requires Enabled(s, l) && t in s.flags && t < s.nextId
    ensures t in Step(s, l).flags && t < Step(s, l).nextId
    ensures Finished(s.flags[t]) ==> Finished(Step(s, l).flags[t])
  {
    hide Present;
    if OfWaker(l) {
      assert Step(s, l).nextId == s.nextId;
    }
  }

  lemma StaysClosed(s: State, l: Label)
    requires Enabled(s, l)
    ensures s.closed ==> Step(s, l).closed
  {
  }

  lemma InitInv()
    ensures Inv(Init())
  {
    assert AboutToNotify(Init()) == {};
  }
}
