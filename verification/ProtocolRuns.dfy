/** What the executor guarantees over every interleaving of its runner with any number of waker threads. */
module ProtocolRuns {
  import opened NatSets
  import opened Protocol

  ghost predicate Legal(s: State, ls: seq<Label>)
    decreases |ls|
  {
    ls == [] || (Enabled(s, ls[0]) && Legal(Step(s, ls[0]), ls[1..]))
  }

  ghost function Run(s: State, ls: seq<Label>): State
    requires Legal(s, ls)
    decreases |ls|
  {
    if ls == [] then s else Run(Step(s, ls[0]), ls[1..])
  }

  lemma {:induction false} RunKeepsInv(s: State, ls: seq<Label>)
    requires Inv(s) && Legal(s, ls)
    ensures Inv(Run(s, ls))
    decreases |ls|
  {
    hide Inv, Step;
    if ls != [] {
      StepKeepsInv(s, ls[0]);
      RunKeepsInv(Step(s, ls[0]), ls[1..]);
    }
  }

  /** One more step at the end of a run. */
  lemma {:induction false} RunSnoc(s: State, ls: seq<Label>, l: Label)
    requires Legal(s, ls) && Enabled(Run(s, ls), l)
    ensures Legal(s, ls + [l]) && Run(s, ls + [l]) == Step(Run(s, ls), l)
    decreases |ls|
  {
    hide Step, Enabled;
    if ls == [] {
      assert (ls + [l])[0] == l && (ls + [l])[1..] == [];
    } else {
      RunSnoc(Step(s, ls[0]), ls[1..], l);
      assert (ls + [l])[1..] == ls[1..] + [l];
    }
  }

  /**
    A run from a new executor: every future in one place, everything pushed
    accounted for, and nothing queued twice. A task has one entry or one thread
    about to push one, not both; either implies QUEUED; and QUEUED on an
    unfinished task of an open executor implies one of them.
   */
  lemma EveryRun(ls: seq<Label>)
    requires Legal(Init(), ls)
    ensures var s := Run(Init(), ls);
      && NoRepeats(Line(s))
      && (forall w :: w in s.wakers && s.wakers[w].Claimed? ==> s.wakers[w].task !in Line(s))
      && (forall v, w :: v in s.wakers && w in s.wakers && v != w && s.wakers[v].Claimed? && s.wakers[w].Claimed? ==>
            s.wakers[v].task != s.wakers[w].task)
      && (forall t :: t in s.flags && (t in Line(s) || BeingPushed(s, t)) ==> s.flags[t].queued)
      && (!s.closed ==> forall t :: t in s.flags && s.flags[t].queued && !Finished(s.flags[t]) ==>
            t in Line(s) || BeingPushed(s, t))
      && (forall t :: t in s.flags ==> Places(s, t) == 1 && s.log.dropped[t] <= 1)
      && (s.runner.Between? && !s.closed ==> forall t :: t in s.flags ==> (t in s.slots <==> !Finished(s.flags[t])))
      && (!s.closed ==> s.log.pushed == s.log.processed + s.batch + s.inbox)
      && |s.log.pushed| == s.log.notified + |AboutToNotify(s)|
      && s.nextId !in s.flags && s.nextId !in s.slots
  {
    hide Run, Legal, Line, NoRepeats, Init;
    InitInv();
    RunKeepsInv(Init(), ls);
  }

  // ---- Nobody is ever stuck ----

  function NextStep(w: nat, pc: WakerPc): Label {
    match pc
    case Called(_) => LoadFinished(w)
    case NotFinished(_) => LoadClosed(w)
    case NotClosed(_) => SetQueued(w)
    case Claimed(_) => Push(w)
    case Pushed(_) => NotifyLoop(w)
  }

  ghost predicate RunnerCanGoOn(s: State, c: nat, w: nat) {
    match s.runner
    case Between =>
      && (if s.batch == [] then Enabled(s, Drain(c)) && Enabled(s, CloseStore) else Enabled(s, CheckNext))
      && Enabled(s, Spawn(w))
    case Checked(_) => Enabled(s, TakeFuture)
    case Polling(_) => Enabled(s, PollReady) && Enabled(s, PollPending) && Enabled(s, Spawn(w))
    case Closing => Enabled(s, CloseDrain)
    case Canceling => Enabled(s, DropSlots) || exists t :: Enabled(s, CancelSlot(t))
    case Gone => true
  }

  /**
    Over every interleaving every thread can take its next step, whatever the
    others do: threads inside `schedule`, new wakes of any task, handle drops by
    code of tasks, and the runner until the executor is gone.
   */
  lemma NobodyIsStuck(ls: seq<Label>, w: nat, t: nat, c: nat)
    requires Legal(Init(), ls)
    ensures var s := Run(Init(), ls);
      && (w in s.wakers ==> Enabled(s, NextStep(w, s.wakers[w])))
      && (w !in s.wakers ==> RunnerCanGoOn(s, c, w) && (t in s.flags ==> Enabled(s, CallWake(w, t))))
      && (t in s.flags && (UserCode(s) || s.runner.Gone?) ==> Enabled(s, Cancel(t)))
  {
    hide Run, Legal, Inv, Enabled, RunnerCanGoOn;
    InitInv();
    RunKeepsInv(Init(), ls);
    var s := Run(Init(), ls);
    if w in s.wakers {
      WakerCanGoOn(s, w);
    } else {
      RunnerGoesOn(s, c, w);
    }
    CallsCanBeMade(s, w, t);
  }

  lemma WakerCanGoOn(s: State, w: nat)
    requires Inv(s) && w in s.wakers
    ensures Enabled(s, NextStep(w, s.wakers[w]))
  {
    hide QueuedOnce, QueuedMeansEntry, SlotsFit, OnePlace, NothingForeign, Accounted;
  }

  lemma CallsCanBeMade(s: State, w: nat, t: nat)
    ensures w !in s.wakers && t in s.flags ==> Enabled(s, CallWake(w, t))
    ensures t in s.flags && (UserCode(s) || s.runner.Gone?) ==> Enabled(s, Cancel(t))
  {
  }

  lemma RunnerGoesOn(s: State, c: nat, w: nat)
    requires Inv(s) && w !in s.wakers
    ensures RunnerCanGoOn(s, c, w)
  {
    hide QueuedOnce, QueuedMeansEntry, OnePlace, NothingForeign, Accounted;
    if s.runner.Between? && s.batch != [] {
      assert Line(s)[0] == s.batch[0];
    } else if s.runner.Canceling? && !Enabled(s, DropSlots) {
      var u :| u in s.slots && !(u in s.flags && s.flags[u].canceled);
      assert Enabled(s, CancelSlot(u));
    }
  }

  // ---- No lost wake ----

  /** `t` was polled between `s` and a later state `s'`. */
  ghost predicate PolledSince(s: State, s': State, t: nat) {
    exists i :: |s.log.polls| <= i < |s'.log.polls| && s'.log.polls[i] == t
  }

  ghost predicate OnItsWay(s: State, t: nat) {
    t in Line(s) || BeingPushed(s, t)
  }

  lemma PollsGrow(s: State, l: Label)
    requires Enabled(s, l)
    ensures s.log.polls <= Step(s, l).log.polls
  {
  }

  lemma {:induction false} RunPollsGrow(s: State, ls: seq<Label>)
    requires Legal(s, ls)
    ensures s.log.polls <= Run(s, ls).log.polls
    decreases |ls|
  {
    hide Step, Enabled;
    if ls != [] {
      PollsGrow(s, ls[0]);
      RunPollsGrow(Step(s, ls[0]), ls[1..]);
    }
  }

  lemma {:induction false} QueuedUntilPolled(s: State, ls: seq<Label>, t: nat)
    requires Inv(s) && Legal(s, ls) && t in s.flags && s.flags[t].queued
    ensures t in Run(s, ls).flags
    ensures Run(s, ls).flags[t].queued || PolledSince(s, Run(s, ls), t)
    decreases |ls|
  {
    hide Step, Enabled;
    if ls != [] {
      var s1 := Step(s, ls[0]);
      StepKeepsInv(s, ls[0]);
      QueuedUntilTaken(s, ls[0], t);
      PollsGrow(s, ls[0]);
      RunPollsGrow(s1, ls[1..]);
      if s1.flags[t].queued {
        QueuedUntilPolled(s1, ls[1..], t);
      } else {
        assert s1.log.polls[|s.log.polls|] == t;
        assert Run(s, ls).log.polls[|s.log.polls|] == t;
        FlagsStay(s1, ls[1..], t);
      }
    }
  }

  lemma {:induction false} FlagsStay(s: State, ls: seq<Label>, t: nat)
    requires Legal(s, ls) && t in s.flags && t < s.nextId
    ensures t in Run(s, ls).flags
    ensures Finished(s.flags[t]) ==> Finished(Run(s, ls).flags[t])
    decreases |ls|
  {
    hide Step, Enabled;
    if ls != [] {
      StepFlagsStay(s, ls[0], t);
      FlagsStay(Step(s, ls[0]), ls[1..], t);
    }
  }

  /**
    No lost wake. Once thread `w` has set QUEUED for its task (or found it set),
    then however the threads go on, as long as the executor is open and the task
    unfinished, the task has been polled since, or it is in the inbox, in the
    batch, or held by a thread about to push it.
   */
  lemma NoLostWake(s: State, w: nat, ls: seq<Label>)
    requires Inv(s) && Enabled(s, SetQueued(w)) && Legal(Step(s, SetQueued(w)), ls)
    ensures var t, s' := s.wakers[w].task, Run(Step(s, SetQueued(w)), ls);
      t in s'.flags && (!s'.closed && !Finished(s'.flags[t]) ==> PolledSince(s, s', t) || OnItsWay(s', t))
  {
    var s1 := Step(s, SetQueued(w));
    StepKeepsInv(s, SetQueued(w));
    QueuedUntilPolled(s1, ls, s.wakers[w].task);
    RunKeepsInv(s1, ls);
    assert s1.log.polls == s.log.polls;
  }

  /** Nothing is queued, running, or on its way. */
  predicate Quiet(s: State) {
    s.runner.Between? && s.batch == [] && s.inbox == [] && s.wakers == map[]
  }

  /** When everything has settled, every wake has been answered by a poll. */
  lemma QuietMeansAnswered(s: State, w: nat, ls: seq<Label>)
    requires Inv(s) && Enabled(s, SetQueued(w)) && Legal(Step(s, SetQueued(w)), ls)
    requires Quiet(Run(Step(s, SetQueued(w)), ls))
    ensures var t, s' := s.wakers[w].task, Run(Step(s, SetQueued(w)), ls);
      t in s'.flags && (PolledSince(s, s', t) || Finished(s'.flags[t]))
  {
    NoLostWake(s, w, ls);
    StepKeepsInv(s, SetQueued(w));
    RunKeepsInv(Step(s, SetQueued(w)), ls);
  }

  // ---- Never polled again ----

  lemma StepDoesNotPoll(s: State, l: Label, t: nat)
    requires SlotsFit(s) && Enabled(s, l)
    ensures s.closed ==> Step(s, l).closed && Step(s, l).log.polls == s.log.polls
    ensures t in s.flags && Finished(s.flags[t]) ==>
              Step(s, l).log.polls == s.log.polls || (exists u :: u != t && Step(s, l).log.polls == s.log.polls + [u])
  {
    if l.TakeFuture? && s.runner.task in Present(s.slots) {
      assert Step(s, l).log.polls == s.log.polls + [s.runner.task];
    }
  }

  /** Once a task has completed or was canceled, it is never polled again. */
  lemma {:induction false} FinishedIsNeverPolled(s: State, ls: seq<Label>, t: nat)
    requires Inv(s) && Legal(s, ls) && t in s.flags && Finished(s.flags[t])
    ensures !PolledSince(s, Run(s, ls), t)
    decreases |ls|
  {
    hide Step, Enabled;
    if ls != [] {
      var s1 := Step(s, ls[0]);
      StepKeepsInv(s, ls[0]);
      StepFlagsStay(s, ls[0], t);
      StepDoesNotPoll(s, ls[0], t);
      FinishedIsNeverPolled(s1, ls[1..], t);
      RunPollsGrow(s1, ls[1..]);
    }
  }

  /** Once the executor is closed, nothing is ever polled again. */
  lemma {:induction false} ClosedNeverPolls(s: State, ls: seq<Label>)
    requires Inv(s) && Legal(s, ls) && s.closed
    ensures Run(s, ls).closed && Run(s, ls).log.polls == s.log.polls
    decreases |ls|
  {
    hide Step, Enabled;
    if ls != [] {
      StepKeepsInv(s, ls[0]);
      StepDoesNotPoll(s, ls[0], 0);
      ClosedNeverPolls(Step(s, ls[0]), ls[1..]);
    }
  }

  /** A dropped future stays dropped, and is dropped only once. */
  lemma {:induction false} DroppedOnce(s: State, ls: seq<Label>, t: nat)
    requires Inv(s) && Legal(s, ls) && t in s.log.dropped
    ensures Run(s, ls).log.dropped[t] == 1
    decreases |ls|
  {
    assert Places(s, t) == 1;
    if ls != [] {
      StepKeepsInv(s, ls[0]);
      assert t in Step(s, ls[0]).log.dropped;
      DroppedOnce(Step(s, ls[0]), ls[1..], t);
    }
  }

  // ---- Bounded wait ----

  lemma WasOpen(s: State, ls: seq<Label>)
    requires Inv(s) && Legal(s, ls) && !Run(s, ls).closed
    ensures !s.closed
  {
    hide *;
    if s.closed {
      ClosedNeverPolls(s, ls);
    }
  }

  ghost function Drains(ls: seq<Label>): nat {
    if ls == [] then 0 else (if ls[0].Drain? then 1 else 0) + Drains(ls[1..])
  }

  /** Every `process_tasks` call in the run asks for `c` tasks. */
  ghost predicate CallsOf(ls: seq<Label>, c: nat) {
    forall l :: l in ls && l.Drain? ==> l.count == c
  }

  /** How many entries have left the inbox. */
  function Taken(s: State): nat {
    |s.log.processed| + |s.batch|
  }

  lemma StepTakes(s: State, l: Label)
    requires Enabled(s, l) && !Step(s, l).closed
    ensures s.log.pushed <= Step(s, l).log.pushed
    ensures Taken(Step(s, l)) == Taken(s) + (if l.Drain? then AtMost(l.count, |s.inbox|) else 0)
    ensures !s.closed
  {
  }

  function Times(d: nat, c: nat): nat {
    d * c
  }

  /** After `d` calls of `c`, at most `d * c` entries have left, and that many if there were so many. */
  lemma {:induction false} CallsTake(s: State, ls: seq<Label>, c: nat, min: nat)
    requires Inv(s) && Legal(s, ls) && CallsOf(ls, c) && !Run(s, ls).closed
    requires min <= |s.log.pushed| - Taken(s)
    ensures !s.closed && s.log.pushed <= Run(s, ls).log.pushed
    ensures Taken(Run(s, ls)) <= Taken(s) + Times(Drains(ls), c)
    ensures Taken(Run(s, ls)) >= Taken(s) + AtMost(Times(Drains(ls), c), min)
    decreases |ls|
  {
    hide Step, Enabled, Inv, Taken, CallsOf, Times, Drains;
    if ls == [] {
      NoCalls(c);
    } else {
      var s1, rest := Step(s, ls[0]), ls[1..];
      StepKeepsInv(s, ls[0]);
      WasOpen(s1, rest);
      StepTakes(s, ls[0]);
      InboxSize(s);
      NextCalls(ls, c);
      var took := Taken(s1) - Taken(s);
      CallsTake(s1, rest, c, if took < min then min - took else 0);
    }
  }

  lemma InboxSize(s: State)
    requires Inv(s) && !s.closed
    ensures |s.inbox| == |s.log.pushed| - Taken(s)
  {
  }

  lemma NoCalls(c: nat)
    ensures Times(Drains([]), c) == 0
  {
  }

  lemma NextCalls(ls: seq<Label>, c: nat)
    requires ls != [] && CallsOf(ls, c)
    ensures CallsOf(ls[1..], c)
    ensures ls[0].Drain? ==> ls[0].count == c
    ensures Times(Drains(ls), c) == (if ls[0].Drain? then c else 0) + Times(Drains(ls[1..]), c)
  {
    assert ls[0] in ls && forall l :: l in ls[1..] ==> l in ls;
    assert (1 + Drains(ls[1..])) * c == c + Drains(ls[1..]) * c;
  }

  lemma CallNumber(took: int, n: nat, k: nat, c: nat, d: nat)
    requires c >= 1 && k < n && AtMost(Times(d, c), n) <= took <= Times(d, c)
    ensures took > k <==> d >= k / c + 1
  {
    BetweenMultiples(k, c);
    if d >= k / c + 1 {
      TimesGrows(k / c + 1, d, c);
    } else {
      TimesGrows(d, k / c, c);
    }
    hide Times;
  }

  lemma BetweenMultiples(k: nat, c: nat)
    requires c >= 1
    ensures Times(k / c, c) <= k < Times(k / c + 1, c)
  {
    var q := k / c;
    assert k == q * c + k % c;
    assert (q + 1) * c == q * c + c;
  }

  lemma TimesGrows(a: nat, b: nat, c: nat)
    requires a <= b
    ensures Times(a, c) <= Times(b, c)
  {
    assert b * c == a * c + (b - a) * c;
  }

  lemma LeavesInCall(s: State, ls: seq<Label>, c: nat, k: nat)
    requires Inv(s) && Legal(s, ls) && CallsOf(ls, c) && c >= 1
    requires k < |s.log.pushed| - Taken(s) && !Run(s, ls).closed
    ensures Taken(Run(s, ls)) > Taken(s) + k <==> Drains(ls) >= k / c + 1
    ensures !s.closed && s.log.pushed <= Run(s, ls).log.pushed
  {
    hide *;
    var n := |s.log.pushed| - Taken(s);
    CallsTake(s, ls, c, n);
    CallNumber(Taken(Run(s, ls)) - Taken(s), n, k, c, Drains(ls));
  }

  lemma PushedAt(s: State)
    requires Accounted(s) && !s.closed
    ensures |s.inbox| == |s.log.pushed| - Taken(s)
    ensures forall k :: 0 <= k < |s.inbox| ==> s.log.pushed[Taken(s) + k] == s.inbox[k]
    ensures forall k :: 0 <= k < |s.log.processed| ==> s.log.pushed[k] == s.log.processed[k]
  {
  }

  /**
    Bounded wait: with calls of `c`, the entry at index `k` of the inbox leaves it
    in call number `k / c + 1`, whatever is pushed meanwhile; and once the runner
    is between calls, that entry has been processed, in its turn.
   */
  lemma BoundedWait(s: State, ls: seq<Label>, c: nat, k: nat)
    requires Inv(s) && Legal(s, ls) && CallsOf(ls, c) && c >= 1
    requires k < |s.inbox| && !Run(s, ls).closed
    ensures var s' := Run(s, ls);
      && (Taken(s') > Taken(s) + k <==> Drains(ls) >= k / c + 1)
      && (s'.batch == [] ==> (|s'.log.processed| > Taken(s) + k <==> Drains(ls) >= k / c + 1))
      && (|s'.log.processed| > Taken(s) + k ==> s'.log.processed[Taken(s) + k] == s.inbox[k])
  {
    var s' := Run(s, ls);
    RunKeepsInv(s, ls);
    hide Step, Enabled, Legal, Run, Line, Known, QueuedOnce, QueuedMeansEntry, SlotsFit, OnePlace, NothingForeign;
    WasOpen(s, ls);
    PushedAt(s);
    LeavesInCall(s, ls, c, k);
    PushedAt(s');
    hide Accounted, Inv;
  }

  /** One call of `process_tasks(c)` processes exactly the first `min(c, len)` entries, in order. */
  lemma OneCall(s: State, c: nat, ls: seq<Label>)
    requires Inv(s) && Enabled(s, Drain(c)) && Legal(Step(s, Drain(c)), ls)
    requires Drains(ls) == 0 && CallsOf(ls, c)
    requires var s' := Run(Step(s, Drain(c)), ls); !s'.closed && s'.batch == []
    ensures Run(Step(s, Drain(c)), ls).log.processed == s.log.processed + s.inbox[..AtMost(c, |s.inbox|)]
  {
    var s1 := Step(s, Drain(c));
    var s' := Run(s1, ls);
    StepKeepsInv(s, Drain(c));
    RunKeepsInv(s1, ls);
    CallsTake(s1, ls, c, 0);
    assert s1.batch == s.inbox[..AtMost(c, |s.inbox|)] && s1.log.processed == s.log.processed;
    ProcessedAll(s1, s');
  }

  /** When no more entries leave the inbox, finishing the batch processes it in order. */
  lemma ProcessedAll(s: State, s': State)
    requires Accounted(s) && Accounted(s') && !s.closed && !s'.closed
    requires s.log.pushed <= s'.log.pushed && Taken(s') == Taken(s) && s'.batch == []
    ensures s'.log.processed == s.log.processed + s.batch
  {
    assert s'.log.processed == s'.log.pushed[..Taken(s')];
    assert s'.log.pushed[..Taken(s)] == s.log.pushed[..Taken(s)];
  }

  // ---- Processing an entry answers it ----

  /** Every entry processed since `s` has been polled since, or is finished, or is about to be polled. */
  ghost predicate Answered(s: State, s': State) {
    forall i :: |s.log.processed| <= i < |s'.log.processed| ==> AnsweredFor(s, s', s'.log.processed[i])
  }

  ghost predicate AnsweredFor(s: State, s': State, t: nat) {
    t in s'.flags && t < s'.nextId && (PolledSince(s, s', t) || Finished(s'.flags[t]) || s'.runner == Checked(t))
  }

  lemma PolledBefore(s: State, s1: State, s2: State, t: nat)
    requires PolledSince(s, s1, t) && s1.log.polls <= s2.log.polls
    ensures PolledSince(s, s2, t)
  {
    var i :| |s.log.polls| <= i < |s1.log.polls| && s1.log.polls[i] == t;
    assert s2.log.polls[i] == t;
  }

  lemma CheckedIsPolled(s: State, l: Label, t: nat)
    requires Inv(s) && Enabled(s, l) && s.runner == Checked(t)
    ensures Step(s, l).runner == Checked(t) || Step(s, l).log.polls == s.log.polls + [t]
  {
  }

  lemma StepKeepsAnswer(s: State, s1: State, l: Label, t: nat)
    requires Inv(s1) && Enabled(s1, l) && AnsweredFor(s, s1, t) && s.log.polls <= s1.log.polls
    ensures AnsweredFor(s, Step(s1, l), t)
  {
    StepFlagsStay(s1, l, t);
    PollsGrow(s1, l);
    hide Step, Enabled, Inv, PolledSince, Finished;
    var s2 := Step(s1, l);
    if PolledSince(s, s1, t) {
      PolledBefore(s, s1, s2, t);
    } else if s1.runner == Checked(t) {
      CheckedIsPolled(s1, l, t);
      if s2.runner != Checked(t) {
        assert s2.log.polls[|s1.log.polls|] == t;
        JustPolled(s, s2, t, |s1.log.polls|);
      }
    }
  }

  lemma JustPolled(s: State, s': State, t: nat, i: nat)
    requires |s.log.polls| <= i < |s'.log.polls| && s'.log.polls[i] == t
    ensures PolledSince(s, s', t)
  {
  }

  /** Only finding the next entry of the batch counts as processing it. */
  lemma StepProcesses(s: State, l: Label)
    requires Known(s) && Enabled(s, l)
    ensures var s' := Step(s, l);
      || s'.log.processed == s.log.processed
      || (exists t :: && s'.log.processed == s.log.processed + [t] && t in s'.flags && t < s'.nextId
                      && (Finished(s'.flags[t]) || s'.runner == Checked(t)))
  {
    if l.CheckNext? {
      assert s.batch[0] in s.flags;
    }
  }

  lemma StepKeepsAnswered(s: State, s1: State, l: Label)
    requires Inv(s1) && Enabled(s1, l) && Answered(s, s1)
    requires s.log.polls <= s1.log.polls && |s.log.processed| <= |s1.log.processed|
    ensures Answered(s, Step(s1, l)) && |s1.log.processed| <= |Step(s1, l).log.processed|
  {
    StepProcesses(s1, l);
    hide Step, Enabled, Inv, PolledSince, Finished;
    var s2 := Step(s1, l);
    forall i | |s.log.processed| <= i < |s2.log.processed| ensures AnsweredFor(s, s2, s2.log.processed[i]) {
      if i < |s1.log.processed| {
        StepKeepsAnswer(s, s1, l, s1.log.processed[i]);
      }
    }
  }

  lemma {:induction false} RunKeepsAnswered(s: State, s1: State, ls: seq<Label>)
    requires Inv(s1) && Legal(s1, ls) && Answered(s, s1)
    requires s.log.polls <= s1.log.polls && |s.log.processed| <= |s1.log.processed|
    ensures Answered(s, Run(s1, ls))
    decreases |ls|
  {
    hide Step, Enabled, Inv, Answered;
    if ls != [] {
      StepKeepsAnswered(s, s1, ls[0]);
      StepKeepsInv(s1, ls[0]);
      PollsGrow(s1, ls[0]);
      RunKeepsAnswered(s, Step(s1, ls[0]), ls[1..]);
    }
  }

  lemma NothingYet(s: State)
    ensures Answered(s, s)
  {
  }

  /**
    A queued task is served within a bounded number of calls: with calls of `c`,
    once `k / c + 1` of them are over, the task at index `k` of the inbox has been
    polled since, or it is finished.
   */
  lemma ServedInTime(s: State, ls: seq<Label>, c: nat, k: nat)
    requires Inv(s) && Legal(s, ls) && CallsOf(ls, c) && c >= 1
    requires k < |s.inbox| && Drains(ls) >= k / c + 1
    requires var s' := Run(s, ls); !s'.closed && s'.batch == [] && s'.runner.Between?
    ensures var t, s' := s.inbox[k], Run(s, ls);
      t in s'.flags && (PolledSince(s, s', t) || Finished(s'.flags[t]))
  {
    hide Inv, Step, Enabled, Legal, Run, Drains, CallsOf, PolledSince, Finished;
    BoundedWait(s, ls, c, k);
    NothingYet(s);
    RunKeepsAnswered(s, s, ls);
    var s' := Run(s, ls);
    assert AnsweredFor(s, s', s'.log.processed[Taken(s) + k]);
  }

  // ---- After the close ----

  /** A thread past its check of `closed` that will still push. */
  ghost predicate PastTheCheck(s: State) {
    exists w :: w in s.wakers && StillPushes(s, s.wakers[w])
  }

  predicate StillPushes(s: State, pc: WakerPc) {
    pc.task in s.flags && (pc.Claimed? || (pc.NotClosed? && !s.flags[pc.task].queued))
  }

  lemma StepStaysShut(s: State, l: Label)
    requires Inv(s) && s.runner.Gone? && Enabled(s, l) && !PastTheCheck(s)
    ensures var s' := Step(s, l); s'.runner.Gone? && s'.inbox == s.inbox && !PastTheCheck(s')
  {
  }

  lemma {:induction false} RunStaysShut(s: State, ls: seq<Label>)
    requires Inv(s) && s.runner.Gone? && Legal(s, ls) && !PastTheCheck(s)
    ensures Run(s, ls).inbox == s.inbox
    decreases |ls|
  {
    if ls != [] {
      StepStaysShut(s, ls[0]);
      StepKeepsInv(s, ls[0]);
      RunStaysShut(Step(s, ls[0]), ls[1..]);
    }
  }

  ghost predicate InboxCanChange(s: State) {
    exists ls :: Legal(s, ls) && Run(s, ls).inbox != s.inbox
  }

  lemma CanStillPush(s: State, w: nat)
    requires w in s.wakers && StillPushes(s, s.wakers[w])
    ensures InboxCanChange(s)
  {
    hide Finished;
    var ls: seq<Label> := [];
    assert Legal(s, ls) && Run(s, ls) == s;
    if s.wakers[w].NotClosed? {
      RunSnoc(s, [], SetQueued(w));
      ls := [] + [SetQueued(w)];
    }
    RunSnoc(s, ls, Push(w));
    assert |Run(s, ls + [Push(w)]).inbox| == |s.inbox| + 1;
  }

  /** After the executor is gone its inbox can still grow exactly if some thread is past the check of `closed`. */
  lemma LatePush(s: State)
    requires Inv(s) && s.runner.Gone?
    ensures InboxCanChange(s) <==> PastTheCheck(s)
  {
    hide Inv, StillPushes, Step, Enabled;
    if PastTheCheck(s) {
      var w :| w in s.wakers && StillPushes(s, s.wakers[w]);
      CanStillPush(s, w);
    } else if InboxCanChange(s) {
      var ls :| Legal(s, ls) && Run(s, ls).inbox != s.inbox;
      RunStaysShut(s, ls);
    }
  }
}
