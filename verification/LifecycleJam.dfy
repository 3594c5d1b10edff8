/** When the pool of worker threads jams the admission system for good, and what
    keeps it from that. */
module LifecycleJam {
  import opened Common
  import opened GovernorState
  import opened GovernorInvariant
  import opened GovernorProgress
  import opened Lifecycle
  import opened LifecyclePool
  import opened LifecycleDrain

  // ---- A jam takes every slot ------------------------------------------------

  /** Of one runtime, what runs was submitted before what is queued. */
  lemma RunningIsOlder(g: State, r: string, q: string)
    requires Inv(g) && r in RunningIds(g) && q in QueuedIds(g)
    requires r in g.born && q in g.born && g.born[r].key == g.born[q].key
    ensures Before(g.born, r, q)
  {
    assert r in g.running && History(g) && Fifo(g);
    KeepOnlyMembers(g.admitted, RunningIds(g));
    var i :| 0 <= i < |g.admitted| && g.admitted[i] == r;
    assert Earlier(g.born, g.admitted[i], q);
  }

  lemma {:induction false} KeepOnlyMembers(ids: seq<string>, keep: set<string>)
    ensures forall id :: id in KeepOnly(ids, keep) ==> id in ids
  {
    if ids != [] {
      KeepOnlyMembers(ids[..|ids| - 1], keep);
    }
  }

  /** A queued waiter whose runtime has nothing running can only lack a slot. */
  lemma BlockedBySlots(g: State, q: string)
    requires Inv(g) && Saturated(g) && q in QueuedIds(g)
    requires forall r :: r in RunningIds(g) && r in g.born ==> g.born[r].key != g.waiters[q].key
    ensures g.inflight == g.maxRunning
  {
    var k := g.waiters[q].key;
    assert QueuedInOwnQueue(g, q);
    var ids := OfRuntime(g.running, g.born, k);
    OfRuntimeMembers(g.running, g.born, k);
    assert Count(g.runtimeInflight, k) == |ids|;
    if |ids| > 0 {
      assert ids[0] in ids && ids[0] in RunningIds(g);
    }
    assert g.inflight != g.maxRunning ==> Blocked(g, k);
  }

  /** In a jam every slot is taken: a runtime that has something queued at a worker
      has nothing running, since that would have been submitted, and its wait begun,
      before. */
  lemma JamIsFull(y: System)
    requires PoolInv(y) && Jammed(y)
    ensures y.gov.inflight == y.gov.maxRunning
  {
    hide Inv, Saturated, Numbered, WaiterOwned, RequestOk, ThreadOk, LeftoverOk, InTicketOrder;
    var q :| q in AtWork(y);
    RegisteredBorn(y.gov);
    forall r | r in RunningIds(y.gov) && r in y.gov.born ensures y.gov.born[r].key != y.gov.waiters[q].key {
      assert Before(y.gov.born, q, r);
      if y.gov.born[r].key == y.gov.born[q].key {
        RunningIsOlder(y.gov, r, q);
      }
    }
    BlockedBySlots(y.gov, q);
  }

  lemma RegisteredBorn(g: State)
    requires Inv(g)
    ensures forall id :: id in g.waiters ==> id in g.born && g.born[id].key == g.waiters[id].key
  {
  }

  // ---- A jam without deadlines stays ---------------------------------------------

  /** From `g` to `g'` nobody was admitted and no slot was returned; queued waiters
      without a deadline are as they were. */
  ghost predicate Held(g: State, g': State) {
    && g'.inflight == g.inflight && g'.maxRunning == g.maxRunning
    && g'.admitted == g.admitted && RunningIds(g') == RunningIds(g)
    && forall id | id in QueuedIds(g) && g.waiters[id].deadline.None? ::
         id in g'.waiters && g'.waiters[id] == g.waiters[id]
  }

  lemma FullRefresh(g: State, now: int)
    requires g.inflight == g.maxRunning
    ensures Refresh(g, now) == Expire(g, now) && Held(g, Refresh(g, now))
  {
  }

  lemma FullSubmitHeld(g: State, key: string, id: string, bound: int, timeout: Option<int>, now: int)
    requires g.inflight == g.maxRunning && id !in g.waiters
    ensures Held(g, Submit(g, key, id, bound, timeout, now).0)
  {
    if !Blank(key) && !Blank(id) && bound >= 1 && (timeout.Some? ==> timeout.value > 0) {
      SubmitUnroll(g, key, id, bound, timeout, now);
      FullRefresh(g, now);
      FullEnqueue(g, key, id, NewRecord(key, bound, timeout, now), now);
    } else {
      SubmitRefused(g, key, id, bound, timeout, now);
    }
    hide Submit, Blank, Refresh, Enqueue, NewRecord, AdmitAll;
  }

  lemma FullEnqueue(g: State, key: string, id: string, w: Record, now: int)
    requires g.inflight == g.maxRunning && id !in g.waiters && w.phase == Queued
    ensures Held(g, AdmitAll(Enqueue(Refresh(g, now), key, id, w), now))
  {
    FullRefresh(g, now);
    hide Refresh;
  }

  /** The waiter of no worker has a deadline. */
  predicate NoDeadlines(y: System) {
    forall id :: id in AtWork(y) && id in y.gov.waiters ==> y.gov.waiters[id].deadline.None?
  }

  /** From `y` to `y'` no wait has ended and nobody was admitted. */
  ghost predicate Unserved(y: System, y': System) {
    && AtWork(y') == AtWork(y) && y'.results == y.results
    && y'.gov.admitted == y.gov.admitted && RunningIds(y'.gov) == RunningIds(y.gov)
  }

  lemma JamKept(y: System, y': System)
    requires Jammed(y) && NoDeadlines(y) && Held(y.gov, y'.gov)
    requires AtWork(y') == AtWork(y) && y'.workers == y.workers && forall id :: id in y.jobs ==> id in y'.jobs
    ensures Jammed(y') && NoDeadlines(y')
  {
  }

  lemma NobodyHolds(y: System, base: string)
    requires PoolInv(y) && Jammed(y) && base in y.pcs
    ensures !Holding(y.pcs[base])
  {
    hide Inv, Saturated, GlobalId, InTicketOrder, Before;
    assert RequestOk(y, base);
    if Holding(y.pcs[base]) || y.pcs[base].Waiting? {
      assert ThreadOk(y, GlobalId(base, y.pcs[base].attempt));
    }
  }

  /** From `y` to `y'` the governor held back, and no worker became free or busy. */
  ghost predicate PoolHeld(y: System, y': System) {
    && Held(y.gov, y'.gov) && AtWork(y') == AtWork(y) && y'.workers == y.workers && y'.results == y.results
    && forall id :: id in y.jobs ==> id in y'.jobs
  }

  lemma JamSubmit(y: System, base: string, remaining: Option<int>, now: int)
    requires PoolInv(y) && Jammed(y) && base in y.pcs && y.pcs[base].Submitting?
    ensures PoolHeld(y, Next(y, SubmitGlobal(base, remaining, now)))
  {
    hide GlobalId, SysInv, PoolOk, Jammed, AtWork, PoolHeld;
    PoolIsSys(y);
    UnknownAttempt(y, base);
    UnknownToPool(y, GlobalId(base, y.pcs[base].attempt));
    JamIsFull(y);
    SubmitHolds(y, base, remaining, now);
  }

  lemma SubmitHolds(y: System, base: string, remaining: Option<int>, now: int)
    requires base in y.pcs && y.pcs[base].Submitting? && y.gov.inflight == y.gov.maxRunning
    requires var id := GlobalId(base, y.pcs[base].attempt); id !in y.started && id !in y.gov.waiters
    ensures PoolHeld(y, Next(y, SubmitGlobal(base, remaining, now)))
  {
    hide GlobalId, Submit, Bound, Held;
    NothingHeld(y.gov);
    FullSubmitHeld(y.gov, y.pcs[base].target.key, GlobalId(base, y.pcs[base].attempt), Bound(y.pcs[base].target),
                   remaining, now);
  }

  lemma NothingHeld(g: State)
    ensures Held(g, g)
  {
  }

  lemma JamPass(y: System, id: string, now: int)
    requires PoolInv(y) && Jammed(y) && id in y.polling && id in y.started
    ensures PoolHeld(y, Next(y, ThreadPass(id, now)))
  {
    hide SysInv, PoolOk;
    assert id in AtWork(y);
    JamIsFull(y);
    hide Jammed, Held;
    FullRefresh(y.gov, now);
    PassQueued(y.gov, id, now);
    ObserveRefreshes(y.gov, now);
    hide Refresh, Apply;
  }

  lemma JamObserve(y: System, now: int)
    requires PoolInv(y) && Jammed(y)
    ensures PoolHeld(y, Next(y, Observe(now)))
  {
    hide PoolInv, Jammed, Held, Refresh, Apply;
    JamIsFull(y);
    FullRefresh(y.gov, now);
    ObserveRefreshes(y.gov, now);
  }

  lemma JamMoves(y: System, step: Step)
    requires PoolInv(y) && Jammed(y) && !step.CancelWait?
    ensures PoolHeld(y, Next(y, step))
  {
    NothingHeld(y.gov);
    hide PoolInv, Held, SubmitStep, PassStep, Freed, GlobalId, Apply;
    match step
    case SubmitGlobal(base, remaining, now) =>
      if base in y.pcs && y.pcs[base].Submitting? {
        JamSubmit(y, base, remaining, now);
      }
    case ThreadPass(id, now) =>
      if id in y.polling && id in y.started {
        JamPass(y, id, now);
      }
    case Observe(now) => JamObserve(y, now);
    case Recheck(base, _, _) =>
      if base in y.pcs {
        NobodyHolds(y, base);
      }
    case Route(base, _, _) =>
      if base in y.pcs {
        NobodyHolds(y, base);
      }
    case StreamOver(base, _) =>
      if base in y.pcs {
        NobodyHolds(y, base);
      }
    case _ =>
  }

  /** One step of any kind but a cancellation. */
  lemma JamStays(y: System, step: Step)
    requires PoolInv(y) && Jammed(y) && NoDeadlines(y) && !step.CancelWait?
    ensures var y' := Next(y, step); Jammed(y') && NoDeadlines(y') && Unserved(y, y')
  {
    hide PoolInv, Held, NoDeadlines, Next, Jammed;
    JamMoves(y, step);
    JamKept(y, Next(y, step));
    HeldUnserved(y, Next(y, step));
  }

  lemma HeldUnserved(y: System, y': System)
    requires Held(y.gov, y'.gov) && AtWork(y') == AtWork(y) && y'.results == y.results
    ensures Unserved(y, y')
  {
  }

  lemma ObserveRefreshes(g: State, now: int)
    ensures Apply(g, OpSnapshot(now)) == Refresh(g, now)
  {
  }

  /** Once the pool is jammed and none of the workers' waiters has a deadline, no
      wait ever ends again and nobody is ever admitted again, whatever else happens,
      unless a waiting request is cancelled. */
  lemma {:induction false} JamIsForEver(y: System, steps: seq<Step>)
    requires PoolInv(y) && Jammed(y) && NoDeadlines(y)
    requires forall step :: step in steps ==> !step.CancelWait?
    ensures var y' := Run(y, steps); Jammed(y') && NoDeadlines(y') && Unserved(y, y')
    decreases |steps|
  {
    hide PoolInv, Jammed, NoDeadlines, Next;
    if steps != [] {
      assert steps[0] in steps;
      JamStays(y, steps[0]);
      PoolKeeps(y, steps[0]);
      JamIsForEver(Next(y, steps[0]), steps[1..]);
    }
  }

  // ---- Exactly when the system can never go on -------------------------------------

  predicate Undisturbing(steps: seq<Step>) {
    forall step :: step in steps ==> !step.CancelWait? && !step.Arrive?
  }

  /** A stuck state without deadlines stays stuck. */
  lemma StuckStays(y: System, step: Step)
    requires PoolInv(y) && Stuck(y) && NoDeadlines(y) && !step.CancelWait? && !step.Arrive?
    ensures !Forward(y, step) && Stuck(Next(y, step)) && NoDeadlines(Next(y, step))
  {
    hide PoolInv, Jammed, NoDeadlines, Next, Forward;
    StuckStops(y, step);
    JamStays(y, step);
    IdleNext(y, step);
  }

  lemma {:induction false} StuckForGood(y: System, steps: seq<Step>)
    requires PoolInv(y) && Stuck(y) && NoDeadlines(y) && Undisturbing(steps)
    ensures Progress(y, steps) == 0
    decreases |steps|
  {
    hide PoolInv, Stuck, NoDeadlines, Next, Forward;
    if steps != [] {
      assert steps[0] in steps;
      StuckStays(y, steps[0]);
      PoolKeeps(y, steps[0]);
      StuckForGood(Next(y, steps[0]), steps[1..]);
    }
  }

  /** A deadline at a worker frees it when it passes. */
  lemma DeadlineFrees(y: System, id: string)
    requires PoolInv(y) && Jammed(y) && id in AtWork(y) && id in y.gov.waiters && y.gov.waiters[id].deadline.Some?
    ensures var d := y.gov.waiters[id].deadline.value; Progress(y, [Observe(d), ThreadPass(id, d)]) >= 1
  {
    hide PoolInv, Progress, Next;
    var d := y.gov.waiters[id].deadline.value;
    JamIsFull(y);
    ExpiresAt(y, id, d);
    TwoSteps(y, Observe(d), ThreadPass(id, d));
  }

  lemma ExpiresAt(y: System, id: string, now: int)
    requires y.gov.inflight == y.gov.maxRunning && id in AtWork(y)
    requires id in y.gov.waiters && y.gov.waiters[id].phase == Queued && y.gov.waiters[id].ExpiredAt(now)
    ensures Forward(Next(y, Observe(now)), ThreadPass(id, now))
  {
    FullRefresh(y.gov, now);
    ObserveRefreshes(y.gov, now);
    hide Refresh, Apply, Held;
  }

  lemma TwoSteps(y: System, a: Step, b: Step)
    ensures Progress(y, [a, b]) >= if Forward(Next(y, a), b) then 1 else 0
  {
    hide Next, Forward;
    assert [a, b][1..] == [b] && [b][1..] == [];
  }

  lemma OneStep(y: System, a: Step)
    requires Forward(y, a)
    ensures Progress(y, [a]) >= 1
  {
    hide Next, Forward;
  }

  /** The system is not at rest and no run without cancellations and arrivals makes a
      single step forward: exactly if it is stuck and no worker's waiter has a
      deadline. */
  lemma DeadlockExactly(y: System)
    requires PoolInv(y) && y.workers >= 1
    ensures Stuck(y) && NoDeadlines(y)
      <==> !AtRest(y) && forall steps :: Undisturbing(steps) ==> Progress(y, steps) == 0
  {
    hide PoolInv, Stuck, AtRest, Progress, Forward;
    StuckExactly(y);
    if Stuck(y) && NoDeadlines(y) {
      forall steps | Undisturbing(steps) ensures Progress(y, steps) == 0 {
        StuckForGood(y, steps);
      }
    } else if Stuck(y) {
      StuckIsJammed(y);
      var id :| id in AtWork(y) && id in y.gov.waiters && y.gov.waiters[id].deadline.Some?;
      DeadlineFrees(y, id);
    } else if !AtRest(y) {
      var step := StepForward(y, Target("", 1), 0);
      OneStep(y, step);
      assert Undisturbing([step]);
    }
  }

  lemma StuckIsJammed(y: System)
    requires Stuck(y)
    ensures Jammed(y)
  {
    hide Jammed;
  }
}
