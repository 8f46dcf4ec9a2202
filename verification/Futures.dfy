/**
  What the tasks of the executor do: futures as finite trees of actions, how much
  a future may still do, and when actions have been performed.
 */
module Futures {
  import opened Options

  /** What code of a task can do to the executor. */
  datatype Action =
    | Wake(task: nat)
    | Cancel(task: nat)  // drops the handle of `task`, if there still is one
    | Spawn(child: Future, detach: bool)

  /** A future: what its next poll does, how that ends, and what dropping it before then does. */
  datatype Future = Future(onDrop: seq<Action>, poll: seq<Action>, outcome: Outcome)

  datatype Outcome =
    | Ready(value: int, onDrop: seq<Action>)
    | Pending(next: Future)

  function Size(f: Future): nat {
    1 + ActionsSize(f.onDrop) + ActionsSize(f.poll) + OutcomeSize(f.outcome)
  }

  function OutcomeSize(o: Outcome): nat {
    match o
    case Ready(_, onDrop) => ActionsSize(onDrop)
    case Pending(next) => Size(next)
  }

  function ActionSize(a: Action): nat {
    match a
    case Spawn(child, _) => 1 + Size(child)
    case _ => 1
  }

  function ActionsSize(actions: seq<Action>): nat {
    if actions == [] then 0 else ActionSize(actions[0]) + ActionsSize(actions[1..])
  }

  /** The value a future yields when it is polled to the end. */
  function FinalValue(f: Future): int {
    OutcomeValue(f.outcome)
  }

  function OutcomeValue(o: Outcome): int {
    match o
    case Ready(value, _) => value
    case Pending(next) => FinalValue(next)
  }

  /** What the futures in the first `n` slots may still do. */
  function SlotsSize(slots: map<nat, Option<Future>>, n: nat): nat {
    if n == 0 then 0
    else SlotsSize(slots, n - 1) + SizeAt(slots, n - 1)
  }

  function SizeAt(slots: map<nat, Option<Future>>, t: nat): nat {
    if t in slots && slots[t].Some? then Size(slots[t].value) else 0
  }

  /** Changing one slot changes the total by that slot. */
  lemma {:induction false} SlotsSizeChanges(a: map<nat, Option<Future>>, b: map<nat, Option<Future>>, t: nat, n: nat)
    requires forall u :: u != t ==> SizeAt(a, u) == SizeAt(b, u)
    ensures SlotsSize(b, n) + (if t < n then SizeAt(a, t) else 0)
         == SlotsSize(a, n) + (if t < n then SizeAt(b, t) else 0)
  {
    if n > 0 {
      SlotsSizeChanges(a, b, t, n - 1);
    }
  }

  lemma NewSlot(slots: map<nat, Option<Future>>, id: nat, future: Future)
    requires id !in slots
    ensures SlotsSize(slots[id := Some(future)], id + 1) == SlotsSize(slots, id) + Size(future)
  {
    SlotsSizeChanges(slots, slots[id := Some(future)], id, id);
  }

  lemma SlotGone(slots: map<nat, Option<Future>>, t: nat, n: nat)
    requires t < n
    ensures SlotsSize(slots - {t}, n) == SlotsSize(slots, n) - SizeAt(slots, t)
  {
    SlotsSizeChanges(slots, slots - {t}, t, n);
  }

  lemma SlotTaken(slots: map<nat, Option<Future>>, t: nat, n: nat)
    requires t < n && t in slots && slots[t].Some?
    ensures SlotsSize(slots[t := None], n) + Size(slots[t].value) == SlotsSize(slots, n)
  {
    SlotsSizeChanges(slots, slots[t := None], t, n);
  }

  lemma SlotFilled(slots: map<nat, Option<Future>>, t: nat, future: Future, n: nat)
    requires t < n && t in slots && slots[t].None?
    ensures SlotsSize(slots[t := Some(future)], n) == SlotsSize(slots, n) + Size(future)
  {
    SlotsSizeChanges(slots, slots[t := Some(future)], t, n);
  }

  /** Every pending poll of `f` wakes task `t`. */
  predicate KeepsWaking(f: Future, t: nat) {
    f.outcome.Pending? ==> Wake(t) in f.poll && KeepsWaking(f.outcome.next, t)
  }

  lemma FinalStep(f: Future)
    ensures FinalValue(f) == OutcomeValue(f.outcome)
    ensures forall t :: KeepsWaking(f, t) && f.outcome.Pending? ==> Wake(t) in f.poll && KeepsWaking(f.outcome.next, t)
  {
  }

  function Spawns(actions: seq<Action>): nat {
    if actions == [] then 0 else (if actions[0].Spawn? then 1 else 0) + Spawns(actions[1..])
  }

  // ---- What was performed ----

  /** What one poll of `f` performs; a pending future whose task has finished meanwhile is dropped. */
  function PollCode(f: Future, finished: bool): seq<Action> {
    f.poll + EndCode(f.outcome, finished)
  }

  function EndCode(o: Outcome, finished: bool): seq<Action> {
    match o
    case Ready(_, onDrop) => onDrop
    case Pending(next) => if finished then next.onDrop else []
  }

  /** What dropping the future in a slot performs. */
  function DropCode(slots: map<nat, Option<Future>>, t: nat): seq<Action> {
    if t in slots && slots[t].Some? then slots[t].value.onDrop else []
  }

  /** What dropping all futures in the first `n` slots performs. */
  function DropAllCode(slots: map<nat, Option<Future>>, n: nat): seq<Action> {
    if n == 0 then [] else DropAllCode(slots, n - 1) + DropCode(slots, n - 1)
  }

  /** The actions `xs` occur in `ys`, in this order. */
  predicate Within(xs: seq<Action>, ys: seq<Action>)
    decreases |ys|
  {
    xs == [] || (ys != [] && ((xs[0] == ys[0] && Within(xs[1..], ys[1..])) || Within(xs, ys[1..])))
  }

  /** Between two moments, the second of which has the longer record, `xs` were performed. */
  predicate Did(xs: seq<Action>, before: seq<Action>, after: seq<Action>) {
    before <= after && Within(xs, after[|before|..])
  }

  lemma {:induction false} WithinLater(xs: seq<Action>, more: seq<Action>, ys: seq<Action>)
    requires Within(xs, ys)
    ensures Within(xs, more + ys)
    decreases |more|
  {
    if more == [] {
      assert more + ys == ys;
    } else {
      WithinLater(xs, more[1..], ys);
      assert (more + ys)[1..] == more[1..] + ys;
    }
  }

  lemma {:induction false} WithinJoins(xs: seq<Action>, us: seq<Action>, ys: seq<Action>, vs: seq<Action>)
    requires Within(xs, us) && Within(ys, vs)
    ensures Within(xs + ys, us + vs)
    decreases |us|
  {
    if xs == [] {
      assert xs + ys == ys;
      WithinLater(ys, us, vs);
    } else {
      assert (us + vs)[1..] == us[1..] + vs && (xs + ys)[1..] == xs[1..] + ys;
      if xs[0] == us[0] && Within(xs[1..], us[1..]) {
        WithinJoins(xs[1..], us[1..], ys, vs);
      } else {
        WithinJoins(xs, us[1..], ys, vs);
      }
    }
  }

  /** What was done before and what was done after, together. */
  lemma DidBoth(xs: seq<Action>, ys: seq<Action>, a: seq<Action>, b: seq<Action>, c: seq<Action>)
    requires Did(xs, a, b) && Did(ys, b, c)
    ensures Did(xs + ys, a, c)
  {
    WithinJoins(xs, b[|a|..], ys, c[|b|..]);
    assert c[|a|..] == b[|a|..] + c[|b|..];
  }

  lemma DidMore(xs: seq<Action>, ys: seq<Action>, a: seq<Action>, b: seq<Action>, c: seq<Action>)
    requires Did(xs, a, b) && Did(ys, b, c)
    ensures Did(xs, a, c)
  {
    DidNothing(b, c);
    DidBoth(xs, [], a, b, c);
    assert xs + [] == xs;
  }

  lemma DidNothing(a: seq<Action>, b: seq<Action>)
    requires a <= b
    ensures Did([], a, b)
  {
  }

  lemma DidOne(x: Action, a: seq<Action>, b: seq<Action>)
    requires a + [x] <= b
    ensures Did([x], a, b)
  {
    assert b[|a|..][0] == x;
  }

  /** What being performed in order means: every action has a place of its own in the record, further and further on. */
  lemma {:induction false} WithinPlaces(xs: seq<Action>, ys: seq<Action>) returns (at: seq<nat>)
    requires Within(xs, ys)
    ensures |at| == |xs| && (forall i :: 0 <= i < |xs| ==> at[i] < |ys| && ys[at[i]] == xs[i])
    ensures forall i, j :: 0 <= i < j < |xs| ==> at[i] < at[j]
    decreases |ys|
  {
    if xs == [] {
      at := [];
    } else if xs[0] == ys[0] && Within(xs[1..], ys[1..]) {
      var rest := WithinPlaces(xs[1..], ys[1..]);
      at := [0] + seq(|rest|, i requires 0 <= i < |rest| => rest[i] + 1);
    } else {
      var rest := WithinPlaces(xs, ys[1..]);
      at := seq(|rest|, i requires 0 <= i < |rest| => rest[i] + 1);
    }
  }

  lemma WithinItself(xs: seq<Action>)
    ensures Within(xs, xs)
  {
    if xs != [] {
      WithinItself(xs[1..]);
    }
  }

  /** Dropping all futures drops each of them. */
  lemma {:induction false} DropAllHas(slots: map<nat, Option<Future>>, n: nat, t: nat)
    requires t < n && t in slots && slots[t].Some?
    ensures Within(slots[t].value.onDrop, DropAllCode(slots, n))
  {
    var before, last := DropAllCode(slots, n - 1), DropCode(slots, n - 1);
    if t == n - 1 {
      WithinItself(last);
      WithinLater(last, before, last);
    } else {
      DropAllHas(slots, n - 1, t);
      WithinJoins(slots[t].value.onDrop, before, [], last);
      assert slots[t].value.onDrop + [] == slots[t].value.onDrop;
    }
  }
}
