/**
  What the executor does not guarantee while threads are inside `schedule`: the
  exact conditions, and runs that meet them.
 */
module ProtocolLimits {
  import opened Protocol
  import opened ProtocolRuns

  /**
    Between two calls on an open executor with an empty inbox, an unfinished task
    can still be queued: exactly if a thread is about to push it. So a driver that
    stops there stops with a wake outstanding exactly in that case.
   */
  lemma EmptyInboxMeans(s: State, t: nat)
    requires Inv(s) && s.runner.Between? && s.batch == [] && s.inbox == [] && !s.closed
    requires t in s.flags && !Finished(s.flags[t])
    ensures s.flags[t].queued <==> BeingPushed(s, t)
  {
    assert Line(s) == [];
    if BeingPushed(s, t) {
      var w :| w in s.wakers && s.wakers[w] == Claimed(t);
      assert s.wakers[w].Claimed?;
    }
  }

  ghost predicate Reachable(s: State) {
    exists ls :: Legal(Init(), ls) && Run(Init(), ls) == s
  }

  lemma StepReachable(s: State, l: Label)
    requires Reachable(s) && Enabled(s, l)
    ensures Reachable(Step(s, l))
  {
    hide Step, Enabled;
    var ls :| Legal(Init(), ls) && Run(Init(), ls) == s;
    RunSnoc(Init(), ls, l);
  }

  /** An open executor between two calls whose one task is unfinished and in its slot. */
  function Resting(queued: bool, inbox: seq<nat>, wakers: map<nat, WakerPc>, log: Log): State {
    State(map[0 := Flags(queued, false, false)], map[0 := true], 1, inbox, false, wakers, Between, [], log)
  }

  lemma SpawnedIsQueued()
    ensures Reachable(Resting(true, [0], map[], Log([0], [], [], multiset{}, 1)))
  {
    assert Legal(Init(), []) && Run(Init(), []) == Init();
    hide Reachable;
    var none := Log([], [], [], multiset{}, 0);
    StepReachable(Init(), Spawn(0));
    var s := Step(Init(), Spawn(0));
    assert s == Resting(false, [], map[0 := Called(0)], none);
    s := Scheduled(s, 0, none);
    assert s.wakers == map[];
  }

  /** A thread goes through `schedule` for the one task. */
  lemma Scheduled(s: State, w: nat, log: Log) returns (s': State)
    requires Reachable(s) && s == Resting(false, [], map[w := Called(0)], log)
    ensures Reachable(s')
    ensures s' == Resting(true, [0], map[], log.(pushed := log.pushed + [0], notified := log.notified + 1))
  {
    hide Reachable;
    s' := PastChecks(s, w, log);
    StepReachable(s', SetQueued(w));
    s' := Step(s', SetQueued(w));
    assert s' == Resting(true, [], map[w := Claimed(0)], log);
    StepReachable(s', Push(w));
    s' := Step(s', Push(w));
    assert s' == Resting(true, [0], map[w := Pushed(0)], log.(pushed := log.pushed + [0]));
    StepReachable(s', NotifyLoop(w));
    s' := Step(s', NotifyLoop(w));
    assert s'.wakers == map[];
  }

  lemma PastChecks(s: State, w: nat, log: Log) returns (s': State)
    requires Reachable(s) && s == Resting(false, [], map[w := Called(0)], log)
    ensures Reachable(s') && s' == Resting(false, [], map[w := NotClosed(0)], log)
  {
    hide Reachable;
    StepReachable(s, LoadFinished(w));
    s' := Step(s, LoadFinished(w));
    assert s' == Resting(false, [], map[w := NotFinished(0)], log);
    StepReachable(s', LoadClosed(w));
    s' := Step(s', LoadClosed(w));
    assert s'.wakers == map[w := NotClosed(0)];
  }

  /** The runner is about to poll the task for the first time. */
  lemma CheckedOnce() returns (s: State)
    ensures Reachable(s)
    ensures s == Resting(true, [], map[], Log([0], [0], [], multiset{}, 1)).(runner := Checked(0))
  {
    SpawnedIsQueued();
    hide Reachable;
    s := Resting(true, [0], map[], Log([0], [], [], multiset{}, 1));
    StepReachable(s, Drain(1));
    s := Step(s, Drain(1));
    assert s.batch == [0] && s.inbox == [];
    StepReachable(s, CheckNext);
    s := Step(s, CheckNext);
  }

  /** The task has been polled once. */
  lemma PolledOnce() returns (s: State)
    ensures Quiet(s)
    ensures Reachable(s) && s == Resting(false, [], map[], Log([0], [0], [0], multiset{}, 1))
  {
    hide Reachable;
    s := CheckedOnce();
    StepReachable(s, TakeFuture);
    s := Step(s, TakeFuture);
    assert s.runner == Polling(0) && s.slots == map[0 := false] && s.flags == map[0 := Flags(false, false, false)];
    StepReachable(s, PollPending);
    s := Step(s, PollPending);
    assert s.slots == map[0 := true];
  }

  /** And thread 1 is past its checks in a call of the task's waker. */
  lemma WokenFromOutside() returns (s: State)
    ensures Reachable(s) && s == Resting(false, [], map[1 := NotClosed(0)], Log([0], [0], [0], multiset{}, 1))
  {
    hide Reachable;
    s := PolledOnce();
    StepReachable(s, CallWake(1, 0));
    s := Step(s, CallWake(1, 0));
    assert s.wakers == map[1 := Called(0)];
    s := PastChecks(s, 1, s.log);
  }

  /**
    A run after which a driver finds the inbox empty between two calls, although
    the open executor's unfinished task has been woken and never polled since: a
    thread has set QUEUED and not pushed yet.
   */
  lemma WakeBehindEmptyInbox() returns (s: State, t: nat)
    ensures Reachable(s) && s.runner.Between? && s.batch == [] && s.inbox == [] && !s.closed
    ensures t in s.flags && !Finished(s.flags[t]) && s.flags[t].queued && BeingPushed(s, t)
  {
    hide Reachable;
    s := WokenFromOutside();
    t := 0;
    StepReachable(s, SetQueued(1));
    s := Step(s, SetQueued(1));
    assert s.wakers[1] == Claimed(0);
  }

  /** A run after which the executor is gone, its inbox is empty, and the inbox can still grow. */
  lemma InboxGrowsAfterClose() returns (s: State)
    ensures Reachable(s) && s.runner.Gone? && s.closed && s.inbox == []
    ensures PastTheCheck(s) && InboxCanChange(s)
  {
    s := WokenFromOutside();
    hide Reachable;
    StepReachable(s, CloseStore);
    s := Step(s, CloseStore);
    StepReachable(s, CloseDrain);
    s := Step(s, CloseDrain);
    StepReachable(s, CancelSlot(0));
    s := Step(s, CancelSlot(0));
    assert s.flags == map[0 := Flags(false, true, false)] && s.slots == map[0 := true];
    StepReachable(s, DropSlots);
    s := Step(s, DropSlots);
    assert StillPushes(s, s.wakers[1]);
    ReachableInv(s);
    hide InboxCanChange;
    LatePush(s);
  }

  lemma ReachableInv(s: State)
    requires Reachable(s)
    ensures Inv(s)
  {
    hide Inv;
    var ls :| Legal(Init(), ls) && Run(Init(), ls) == s;
    InitInv();
    RunKeepsInv(Init(), ls);
  }
}
