/** base-worker.js: polls that claim up to the free slots, items that run and finish, and drain
    waiters. One step is one stretch of code without an await. */
module WorkerSlots {
  import opened Basics
  import A = AdaptiveController

  type PollId = nat
  type ItemId = nat
  type WaiterId = nat

  /** A poll that awaits its claim: the concurrency it read and the number of items it asked for. */
  datatype Poll = Poll(concurrency: int, limit: nat)

  /** `resolved` lists the drain waiters in the order they were resolved, with the slots in use then. */
  datatype State = State(
    active: int,
    executing: set<ItemId>,
    polls: map<PollId, Poll>,
    lastRead: int,
    waiting: seq<WaiterId>,
    resolved: seq<(WaiterId, int)>)

  datatype Step =
    | BeginPoll(p: PollId, passed: bool, concurrency: int, batch: nat)  // passed: not draining, breaker, limiter
    | EndPoll(p: PollId, items: seq<ItemId>)                            // the claim answered
    | FailPoll(p: PollId)
    | Finish(item: ItemId)
    | Drain(w: WaiterId)

  const IDLE := State(0, {}, map[], 0, [], [])

  predicate Distinct<T(==)>(s: seq<T>) { forall i, j :: 0 <= i < j < |s| ==> s[i] != s[j] }

  function SetOf(items: seq<ItemId>): set<ItemId> { set i | i in items }

  function Resolve(waiting: seq<WaiterId>, active: int): (r: seq<(WaiterId, int)>)
    ensures |r| == |waiting| && forall i :: 0 <= i < |r| ==> r[i] == (waiting[i], active)
  {
    seq(|waiting|, i requires 0 <= i < |waiting| => (waiting[i], active))
  }

  predicate KnownWaiter(s: State, w: WaiterId) {
    w in s.waiting || exists i :: 0 <= i < |s.resolved| && s.resolved[i].0 == w
  }

  /** The claim hands out at most what the poll asked for. An item is a claim, that is a row with its
      lease version, so no item is handed out twice (LeaseRuns.NoVersionHandedOutTwice). */
  predicate GoodClaim(s: State, p: PollId, items: seq<ItemId>) {
    && p in s.polls && |items| <= s.polls[p].limit
    && Distinct(items) && SetOf(items) !! s.executing
  }

  function Apply(s: State, step: Step): State {
    match step
    case BeginPoll(p, passed, concurrency, batch) =>
      if !passed || p in s.polls || concurrency - s.active <= 0 then s
      else s.(polls := s.polls[p := Poll(concurrency, Min(concurrency - s.active, batch))])
    case EndPoll(p, items) =>
      if !GoodClaim(s, p, items) then s
      else s.(active := s.active + |items|, executing := s.executing + SetOf(items), polls := s.polls - {p},
              lastRead := if items == [] then s.lastRead else s.polls[p].concurrency)
    case FailPoll(p) => s.(polls := s.polls - {p})
    case Finish(item) =>
      if item !in s.executing then s
      else
        var s1 := s.(active := s.active - 1, executing := s.executing - {item});
        if s1.active == 0 then s1.(waiting := [], resolved := s1.resolved + Resolve(s1.waiting, s1.active)) else s1
    case Drain(w) =>
      if KnownWaiter(s, w) then s
      else if s.active == 0 then s.(resolved := s.resolved + [(w, s.active)])
      else s.(waiting := s.waiting + [w])
  }

  function Exec(s: State, steps: seq<Step>): State
    decreases |steps|
  {
    if steps == [] then s else Exec(Apply(s, steps[0]), steps[1..])
  }

  // ----- the worker object -----

  class Worker {
    var activeSlots: int
    var drainResolvers: seq<WaiterId>
    ghost var executing: set<ItemId>
    ghost var resolved: seq<(WaiterId, int)>
    ghost var polls: map<PollId, Poll>
    ghost var lastRead: int

    ghost function View(): State
      reads this
    {
      State(activeSlots, executing, polls, lastRead, drainResolvers, resolved)
    }

    constructor ()
      ensures View() == IDLE
    {
      activeSlots, drainResolvers := 0, [];
      executing, resolved, polls, lastRead := {}, [], map[], 0;
    }

    /** _poll up to the claim: how many items to claim, or None when the poll is put off. */
    method BeginPoll(p: PollId, passed: bool, concurrency: int, batch: nat) returns (limit: Option<nat>)
      requires p !in polls
      modifies this`polls
      ensures View() == Apply(old(View()), Step.BeginPoll(p, passed, concurrency, batch))
      ensures limit == if passed && activeSlots < concurrency then Some(Min(concurrency - activeSlots, batch)) else None
      ensures polls == if limit.Some? then old(polls)[p := Poll(concurrency, limit.value)] else old(polls)
    {
      limit := None;
      if !passed {
        return;
      }
      var available := concurrency - activeSlots;
      if available <= 0 {
        return;
      }
      limit := Some(Min(available, batch));
      polls := polls[p := Poll(concurrency, limit.value)];
    }

    /** _poll from the claim on: start every claimed item. */
    method EndPoll(p: PollId, items: seq<ItemId>)
      requires GoodClaim(View(), p, items)
      modifies this
      ensures View() == Apply(old(View()), Step.EndPoll(p, items))
      ensures activeSlots == old(activeSlots) + |items| && executing == old(executing) + set i | i in items
      ensures unchanged(`drainResolvers) && unchanged(`resolved) && polls == old(polls) - {p}
      ensures lastRead == if items == [] then old(lastRead) else old(polls)[p].concurrency
    {
      var i := 0;
      while i < |items|
        invariant 0 <= i <= |items|
        invariant activeSlots == old(activeSlots) + i
        invariant executing == old(executing) + SetOf(items[..i])
        invariant unchanged(`polls) && unchanged(`lastRead) && unchanged(`drainResolvers) && unchanged(`resolved)
      {
        activeSlots := activeSlots + 1;
        executing := executing + {items[i]};
        assert items[..i + 1] == items[..i] + [items[i]];
        i := i + 1;
      }
      assert items[..i] == items;
      lastRead := if items == [] then lastRead else polls[p].concurrency;
      polls := polls - {p};
    }

    method NotifyDrainIfIdle()
      modifies this`drainResolvers, this`resolved
      ensures var was := old(View());
              View() == if activeSlots == 0
                        then was.(waiting := [], resolved := was.resolved + Resolve(was.waiting, activeSlots))
                        else was
    {
      if activeSlots == 0 && |drainResolvers| > 0 {
        resolved := resolved + Resolve(drainResolvers, activeSlots);
        drainResolvers := [];
      }
    }

    /** What runs when _executeItem has settled. */
    method FinishItem(item: ItemId)
      requires item in executing
      modifies this
      ensures View() == Apply(old(View()), Finish(item))
      ensures activeSlots == old(activeSlots) - 1 && executing == old(executing) - {item}
      ensures if activeSlots == 0 then
                && drainResolvers == [] && |resolved| == |old(resolved)| + |old(drainResolvers)|
                && (forall i :: 0 <= i < |old(drainResolvers)| ==>
                      resolved[|old(resolved)| + i] == (old(drainResolvers)[i], 0))
              else unchanged(`drainResolvers) && unchanged(`resolved)
    {
      activeSlots := activeSlots - 1;
      executing := executing - {item};
      NotifyDrainIfIdle();
    }

    method DrainWait(w: WaiterId)
      requires !KnownWaiter(View(), w)
      modifies this
      ensures View() == Apply(old(View()), Drain(w))
      ensures if activeSlots == 0 then resolved == old(resolved) + [(w, 0)] && unchanged(`drainResolvers)
              else drainResolvers == old(drainResolvers) + [w] && unchanged(`resolved)
    {
      if activeSlots == 0 {
        resolved := resolved + [(w, activeSlots)];
      } else {
        drainResolvers := drainResolvers + [w];
      }
    }
  }

  // ----- slots -----

  predicate Invariant(s: State) {
    && s.active == |s.executing|
    && (s.active == 0 ==> s.waiting == [])
    && Distinct(s.waiting)
    && (forall i, j :: 0 <= i < j < |s.resolved| ==> s.resolved[i].0 != s.resolved[j].0)
    && (forall i :: 0 <= i < |s.resolved| ==> s.resolved[i].1 == 0 && s.resolved[i].0 !in s.waiting)
  }

  lemma {:induction false} DistinctSize(items: seq<ItemId>)
    requires Distinct(items)
    ensures |SetOf(items)| == |items|
  {
    if items == [] {
      assert SetOf(items) == {};
    } else {
      var front := items[..|items| - 1];
      DistinctSize(front);
      assert SetOf(items) == SetOf(front) + {items[|items| - 1]};
    }
  }

  lemma StepKeepsInvariant(s: State, step: Step)
    requires Invariant(s)
    ensures Invariant(Apply(s, step))
  {
    if step.EndPoll? && GoodClaim(s, step.p, step.items) {
      DistinctSize(step.items);
      assert |s.executing + SetOf(step.items)| == |s.executing| + |SetOf(step.items)|;
      assert step.items != [] ==> Apply(s, step).active > 0;
    }
  }

  lemma {:induction false} RunKeepsInvariant(s: State, steps: seq<Step>)
    requires Invariant(s)
    ensures Invariant(Exec(s, steps))
    decreases |steps|
  {
    if steps == [] {
    } else {
      StepKeepsInvariant(s, steps[0]);
      RunKeepsInvariant(Apply(s, steps[0]), steps[1..]);
    }
  }

  /** Over every run of a worker, also with overlapping polls: _activeSlots is the number of running
      items; every drain waiter that was resolved was resolved once, and at zero slots; a waiter still
      waiting has not been resolved; and nobody is left waiting at zero slots. */
  lemma SlotsAndWaiters(steps: seq<Step>, i: nat, j: nat)
    ensures var s := Exec(IDLE, steps);
            && s.active == |s.executing|
            && (i < |s.resolved| ==> s.resolved[i].1 == 0 && s.resolved[i].0 !in s.waiting)
            && (i < j < |s.resolved| ==> s.resolved[i].0 != s.resolved[j].0)
            && (s.waiting != [] ==> s.active > 0)
  {
    RunKeepsInvariant(IDLE, steps);
  }

  /** The waiter is in the queue, or has been resolved. */
  predicate IsWaiting(s: State, w: WaiterId) { w in s.waiting }

  predicate IsResolved(s: State, w: WaiterId) { exists i :: 0 <= i < |s.resolved| && s.resolved[i].0 == w }

  lemma StepKnowsWaiters(s: State, step: Step, w: WaiterId)
    requires Invariant(s)
    ensures KnownWaiter(Apply(s, step), w) <==> KnownWaiter(s, w) || step == Drain(w)
  {
    var s' := Apply(s, step);
    if IsResolved(s, w) {
      var i :| 0 <= i < |s.resolved| && s.resolved[i].0 == w;
      assert s'.resolved[i].0 == w;
    }
    if w in s.waiting && w !in s'.waiting {
      var i :| 0 <= i < |s.waiting| && s.waiting[i] == w;
      assert s'.resolved[|s.resolved| + i] == (w, 0);
    }
    if step == Drain(w) && !KnownWaiter(s, w) && w !in s'.waiting {
      assert s'.resolved[|s.resolved|] == (w, 0);
    }
  }

  lemma {:induction false} RunKnowsWaiters(s: State, steps: seq<Step>, w: WaiterId)
    requires Invariant(s)
    ensures KnownWaiter(Exec(s, steps), w) <==> KnownWaiter(s, w) || Drain(w) in steps
    decreases |steps|
  {
    if steps == [] {
    } else {
      StepKeepsInvariant(s, steps[0]);
      StepKnowsWaiters(s, steps[0], w);
      RunKnowsWaiters(Apply(s, steps[0]), steps[1..], w);
    }
  }

  /** No drain waiter is lost: over every run, whoever called _drain, and nobody else, is either still
      waiting or has been resolved, and never both; who waits has a running item to wait for. */
  lemma EveryWaiterIsKept(steps: seq<Step>, w: WaiterId)
    ensures var s := Exec(IDLE, steps);
            && (Drain(w) in steps <==> IsWaiting(s, w) || IsResolved(s, w))
            && !(IsWaiting(s, w) && IsResolved(s, w))
            && (IsWaiting(s, w) ==> s.executing != {})
  {
    RunKeepsInvariant(IDLE, steps);
    RunKnowsWaiters(IDLE, steps, w);
  }

  /** The item that ends last resolves everybody who waits, in the order they came; any other end
      resolves nobody. */
  lemma LastItemResolvesAll(s: State, item: ItemId, i: nat)
    requires Invariant(s) && item in s.executing
    ensures var s' := Apply(s, Finish(item));
            if s.executing == {item} then
              && s'.active == 0 && s'.waiting == [] && |s'.resolved| == |s.resolved| + |s.waiting|
              && (i < |s.waiting| ==> s'.resolved[|s.resolved| + i] == (s.waiting[i], 0))
            else s'.waiting == s.waiting && s'.resolved == s.resolved
  {
    assert s.executing - {item} == {} <==> s.executing == {item};
    assert |s.executing - {item}| == s.active - 1;
  }

  // ----- the slot bound -----

  /** No poll begins while another awaits its claim, and no poll reads more than `max`. */
  predicate NoOverlap(s: State, steps: seq<Step>, max: int)
    decreases |steps|
  {
    steps != [] ==>
      && (steps[0].BeginPoll? ==> s.polls == map[] && steps[0].concurrency <= max)
      && NoOverlap(Apply(s, steps[0]), steps[1..], max)
  }

  predicate Bounded(s: State, max: int) {
    && s.active <= s.lastRead <= max
    && (forall p :: p in s.polls ==> s.active + s.polls[p].limit <= s.polls[p].concurrency <= max)
    && (forall p, q :: p in s.polls && q in s.polls ==> p == q)
  }

  /** If polls do not overlap, the slots in use never exceed the concurrency read by the last poll that
      claimed something, hence never the configured maximum. */
  lemma {:induction false} SlotsAreBounded(s: State, steps: seq<Step>, max: int)
    requires Invariant(s) && Bounded(s, max) && NoOverlap(s, steps, max)
    ensures Bounded(Exec(s, steps), max)
    decreases |steps|
  {
    if steps == [] {
    } else {
      StepKeepsInvariant(s, steps[0]);
      SlotsAreBounded(Apply(s, steps[0]), steps[1..], max);
    }
  }

  /** An immediate poll may start while another awaits its claim. Two polls that both read concurrency
      c with all slots free each claim c items: twice the bound is in use. */
  lemma OverlappingPollsExceedTheBound(c: nat, xs: seq<ItemId>, ys: seq<ItemId>)
    requires c > 0 && |xs| == |ys| == c && Distinct(xs) && Distinct(ys) && SetOf(xs) !! SetOf(ys)
    ensures var s1 := Apply(Apply(IDLE, BeginPoll(1, true, c, c)), BeginPoll(2, true, c, c));
            Apply(Apply(s1, EndPoll(1, xs)), EndPoll(2, ys)).active == 2 * c
  {
  }

  // ----- the exact bound -----

  function Limits(s: State): map<PollId, nat> { map p | p in s.polls :: s.polls[p].limit }

  /** The slots in use and those the polls under way may still take. */
  ghost function Potential(s: State): int { s.active + Sum(Limits(s)) }

  predicate NoNewPoll(steps: seq<Step>) { forall x :: x in steps ==> !x.BeginPoll? }

  lemma WithoutPoll(s: State, p: PollId)
    requires p in s.polls
    ensures Sum(Limits(s)) == s.polls[p].limit + Sum(Limits(s.(polls := s.polls - {p})))
  {
    SumSplit(Limits(s), p);
    assert Limits(s) - {p} == Limits(s.(polls := s.polls - {p}));
  }

  /** Only a new poll raises the potential. */
  lemma StepKeepsPotential(s: State, step: Step)
    requires !step.BeginPoll?
    ensures Potential(Apply(s, step)) <= Potential(s)
  {
    var s' := Apply(s, step);
    if (step.EndPoll? || step.FailPoll?) && step.p in s.polls && s' != s {
      WithoutPoll(s, step.p);
      assert Limits(s') == Limits(s.(polls := s.polls - {step.p}));
    } else if step.FailPoll? {
      assert s.polls - {step.p} == s.polls;
    } else {
      assert Limits(s') == Limits(s);
    }
  }

  lemma {:induction false} PotentialBounds(s: State, steps: seq<Step>)
    requires NoNewPoll(steps)
    ensures Exec(s, steps).active <= Potential(s)
    decreases |steps|
  {
    if steps == [] {
    } else {
      assert steps[0] in steps;
      StepKeepsPotential(s, steps[0]);
      PotentialBounds(Apply(s, steps[0]), steps[1..]);
    }
  }

  /** n items that are not running. */
  lemma {:induction false} NewItems(running: set<ItemId>, n: nat) returns (items: seq<ItemId>)
    ensures |items| == n && Distinct(items) && SetOf(items) !! running
    decreases n
  {
    if n == 0 {
      items := [];
    } else {
      var rest := NewItems(running, n - 1);
      var item := NotIn(running + SetOf(rest));
      assert item !in running + SetOf(rest);
      items := rest + [item];
    }
  }

  /** If every poll under way claims what it asked for, the whole potential is used. */
  lemma {:induction false} PotentialIsReached(s: State) returns (steps: seq<Step>)
    ensures NoNewPoll(steps) && Exec(s, steps).active == Potential(s)
    decreases |s.polls|
  {
    if s.polls == map[] {
      steps := [];
      assert Limits(s) == map[];
    } else {
      var p :| p in s.polls;
      var items := NewItems(s.executing, s.polls[p].limit);
      var s1 := Apply(s, EndPoll(p, items));
      WithoutPoll(s, p);
      assert Limits(s1) == Limits(s.(polls := s.polls - {p}));
      var rest := PotentialIsReached(s1);
      steps := [EndPoll(p, items)] + rest;
      assert steps[1..] == rest;
    }
  }

  /** The polls under way keep the slots within a bound, whatever they claim and however they
      interleave, exactly if the slots in use and all their limits together do. */
  lemma BoundHoldsExactlyWhen(s: State, bound: int)
    ensures (forall steps :: NoNewPoll(steps) ==> Exec(s, steps).active <= bound) <==> Potential(s) <= bound
  {
    if Potential(s) <= bound {
      forall steps | NoNewPoll(steps) ensures Exec(s, steps).active <= bound {
        PotentialBounds(s, steps);
      }
    } else {
      var steps := PotentialIsReached(s);
      assert NoNewPoll(steps) && Exec(s, steps).active > bound;
    }
  }

  // ----- worker and controller together -----

  datatype Joint = Joint(controller: A.State, worker: State)

  /** An event of the controller, or a step of the worker. A poll reads the controller's concurrency. */
  datatype JointStep = Control(e: A.Event) | Work(step: Step)

  function AsRead(a: A.State, step: Step): Step {
    if step.BeginPoll? then step.(concurrency := a.concurrency) else step
  }

  function JointApply(c: A.Config, s: Joint, x: JointStep): Joint {
    match x
    case Control(e) => s.(controller := A.Apply(c, s.controller, e))
    case Work(step) => s.(worker := Apply(s.worker, AsRead(s.controller, step)))
  }

  function JointExec(c: A.Config, s: Joint, steps: seq<JointStep>): Joint
    decreases |steps|
  {
    if steps == [] then s else JointExec(c, JointApply(c, s, steps[0]), steps[1..])
  }

  predicate OnePollAtATime(c: A.Config, s: Joint, steps: seq<JointStep>)
    decreases |steps|
  {
    steps != [] ==>
      && (steps[0].Work? && steps[0].step.BeginPoll? ==> s.worker.polls == map[])
      && OnePollAtATime(c, JointApply(c, s, steps[0]), steps[1..])
  }

  /** The controller's own limits are what bounds the slots: in every run of a worker with its
      controller, whatever the controller does while polls wait and items run, the slots in use never
      exceed the configured maximum, if polls do not overlap. */
  lemma {:induction false} ControllerBoundsSlots(c: A.Config, s: Joint, steps: seq<JointStep>)
    requires A.ValidConfig(c) && A.Invariant(c, s.controller)
    requires Invariant(s.worker) && Bounded(s.worker, c.max) && OnePollAtATime(c, s, steps)
    ensures var s' := JointExec(c, s, steps); s'.worker.active == |s'.worker.executing| <= c.max
    decreases |steps|
  {
    if steps == [] {
    } else {
      match steps[0] {
        case Control(e) => A.StepKeepsInvariant(c, s.controller, e);
        case Work(step) =>
          var x := AsRead(s.controller, step);
          StepKeepsInvariant(s.worker, x);
          assert NoOverlap(Apply(s.worker, x), [], c.max);
          assert [x][1..] == [] && Exec(s.worker, [x]) == Exec(Apply(s.worker, x), []);
          SlotsAreBounded(s.worker, [x], c.max);
      }
      ControllerBoundsSlots(c, JointApply(c, s, steps[0]), steps[1..]);
    }
  }

  /** From the start of both. */
  lemma SlotsStayWithinMaximum(c: A.Config, steps: seq<JointStep>)
    requires A.ValidConfig(c) && OnePollAtATime(c, Joint(A.Fresh(c), IDLE), steps)
    ensures var s := JointExec(c, Joint(A.Fresh(c), IDLE), steps).worker; s.active == |s.executing| <= c.max
  {
    ControllerBoundsSlots(c, Joint(A.Fresh(c), IDLE), steps);
  }
}
