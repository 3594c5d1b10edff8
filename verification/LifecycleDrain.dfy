/** How far the admission system is from rest: a measure that every step forward
    lowers and no other step raises, and exactly when a step forward is possible. */
module LifecycleDrain {
  import opened Common
  import opened GovernorState
  import opened GovernorInvariant
  import opened GovernorProgress
  import opened Lifecycle
  import opened LifecyclePool

  // ---- The measure -----------------------------------------------------------

  /** How far a request is from its end; a first attempt may be followed by a
      second one. */
  function Distance(pc: Pc): nat {
    match pc
    case Resolving(a) => 9 + Retry(a)
    case Checking(a, _) => 8 + Retry(a)
    case Submitting(a, _) => 7 + Retry(a)
    case Waiting(a, _) => 4 + Retry(a)
    case Rechecking(a, _) => 3 + Retry(a)
    case Executing(a, _) => 2 + Retry(a)
    case Streaming(a, _) => 1 + Retry(a)
    case Unadmitted => 1
    case Done(_) => 0
  }

  function Retry(attempt: nat): nat {
    if attempt == 0 then 9 else 0
  }

  ghost function Distances(pcs: map<string, Pc>): nat
    decreases |pcs.Keys|
  {
    if pcs.Keys == {} then 0
    else
      var b :| b in pcs;
      assert (pcs - {b}).Keys == pcs.Keys - {b};
      Distance(pcs[b]) + Distances(pcs - {b})
  }

  /** Any request can be counted first. */
  lemma {:induction false} DistancesOf(pcs: map<string, Pc>, b: string)
    requires b in pcs
    ensures Distances(pcs) == Distance(pcs[b]) + Distances(pcs - {b})
    decreases |pcs.Keys|
  {
    hide Distance;
    var c :| c in pcs && Distances(pcs) == Distance(pcs[c]) + Distances(pcs - {c});
    if b != c {
      assert (pcs - {b}).Keys == pcs.Keys - {b} && (pcs - {c}).Keys == pcs.Keys - {c};
      DistancesOf(pcs - {c}, b);
      DistancesOf(pcs - {b}, c);
      assert pcs - {b} - {c} == pcs - {c} - {b};
    }
  }

  lemma DistancesMove(pcs: map<string, Pc>, b: string, pc: Pc)
    requires b in pcs
    ensures Distances(pcs[b := pc]) == Distances(pcs) - Distance(pcs[b]) + Distance(pc)
  {
    DistancesOf(pcs, b);
    DistancesOf(pcs[b := pc], b);
    assert pcs[b := pc] - {b} == pcs - {b};
  }

  /** A thread that has not begun has two steps left, one that has begun one. */
  ghost function Measure(y: System): nat {
    Distances(y.pcs) + |y.polling| + |y.polling - y.started|
  }

  // ---- Steps forward --------------------------------------------------------------

  /** The steps that bring a request or a thread closer to its end. Arrivals,
      snapshots and passes of threads whose waiter is queued do not. */
  predicate Forward(y: System, step: Step) {
    match step
    case Arrive(_) => false
    case Resolve(base, _) => base in y.pcs && y.pcs[base].Resolving?
    case Check(base, _) => base in y.pcs && y.pcs[base].Checking?
    case SubmitGlobal(base, _, _) => base in y.pcs && y.pcs[base].Submitting?
    case ThreadStart => CanStart(y)
    case ThreadPass(id, _) =>
      id in y.polling && id in y.started && (id in y.gov.waiters ==> y.gov.waiters[id].phase != Queued)
    case Deliver(base) => base in y.pcs && y.pcs[base].Waiting? && GlobalId(base, y.pcs[base].attempt) in y.results
    case CancelWait(base, _) => base in y.pcs && y.pcs[base].Waiting?
    case Recheck(base, _, _) => base in y.pcs && y.pcs[base].Rechecking?
    case Route(base, _, _) => base in y.pcs && y.pcs[base].Executing?
    case StreamOver(base, _) => base in y.pcs && y.pcs[base].Streaming?
    case RouteUnadmitted(base) => base in y.pcs && y.pcs[base].Unadmitted?
    case Observe(_) => false
  }

  lemma SmallerSet<T>(a: set<T>, x: T)
    requires x in a
    ensures |a - {x}| == |a| - 1
  {
  }

  /** A step of one request that leaves the threads alone. */
  lemma MoveShrinks(y: System, y': System, base: string)
    requires base in y.pcs && base in y'.pcs && y'.pcs == y.pcs[base := y'.pcs[base]]
    requires y'.polling == y.polling && y'.started == y.started
    requires Distance(y'.pcs[base]) < Distance(y.pcs[base])
    ensures Measure(y') < Measure(y)
  {
    DistancesMove(y.pcs, base, y'.pcs[base]);
  }

  lemma SubmitShrinks(y: System, base: string, remaining: Option<int>, now: int)
    requires base in y.pcs && y.pcs[base].Submitting?
    ensures Measure(Next(y, SubmitGlobal(base, remaining, now))) < Measure(y)
  {
    hide Next, SubmitStep, GlobalId, Distances;
    SubmitMoves(y, base, remaining, now);
    var y' := Next(y, SubmitGlobal(base, remaining, now));
    DistancesMove(y.pcs, base, y'.pcs[base]);
    AddedThread(y.polling, y.started, GlobalId(base, y.pcs[base].attempt));
  }

  lemma SubmitMoves(y: System, base: string, remaining: Option<int>, now: int)
    requires base in y.pcs && y.pcs[base].Submitting?
    ensures var y' := Next(y, SubmitGlobal(base, remaining, now));
      && base in y'.pcs && y'.pcs == y.pcs[base := y'.pcs[base]] && y'.started == y.started
      && ((y'.pcs[base].Done? && y'.polling == y.polling)
          || (y'.pcs[base] == Waiting(y.pcs[base].attempt, y.pcs[base].target)
              && y'.polling == y.polling + {GlobalId(base, y.pcs[base].attempt)}))
  {
    hide Next, Submit, Apply, GlobalId, Bound;
    StepsUnfold(y);
  }

  lemma AddedThread(polling: set<string>, started: set<string>, id: string)
    ensures |polling + {id}| <= |polling| + 1
    ensures |(polling + {id}) - started| <= |polling - started| + 1
  {
    assert (polling + {id}) - started <= (polling - started) + {id};
    SubsetSize((polling + {id}) - started, (polling - started) + {id});
  }

  lemma CancelShrinks(y: System, base: string, now: int)
    requires base in y.pcs && y.pcs[base].Waiting?
    ensures Measure(Next(y, CancelWait(base, now))) < Measure(y)
  {
    hide Next, CancelStep, GlobalId, Distances;
    CancelMoves(y, base, now);
    var y' := Next(y, CancelWait(base, now));
    DistancesMove(y.pcs, base, y'.pcs[base]);
    SubsetSize(y'.polling, y.polling);
    SubsetSize(y'.polling - y'.started, y.polling - y.started);
  }

  lemma CancelMoves(y: System, base: string, now: int)
    requires base in y.pcs && y.pcs[base].Waiting?
    ensures var y' := Next(y, CancelWait(base, now));
      && y'.pcs == y.pcs[base := Done(CancelledWaiting)] && y'.started == y.started
      && y'.polling <= y.polling
  {
    hide Apply, GlobalId, Abandon;
  }

  lemma StartShrinks(y: System)
    requires PoolOk(y) && CanStart(y)
    ensures Measure(Next(y, ThreadStart)) < Measure(y)
  {
    var y', id := Next(y, ThreadStart), y.jobs[0];
    assert id in y.jobs;
    assert y'.polling - y'.started == (y.polling - y.started) - {id};
    SmallerSet(y.polling - y.started, id);
  }

  /** A pass over a waiter that is not queued ends its thread. */
  lemma PassShrinks(y: System, id: string, now: int)
    requires SysInv(y) && Forward(y, ThreadPass(id, now))
    ensures Measure(Next(y, ThreadPass(id, now))) < Measure(y)
  {
    hide Next, Apply, Inv, Distances, GlobalId;
    PassMoves(y, id, now);
    var y' := Next(y, ThreadPass(id, now));
    SmallerSet(y.polling, id);
    assert y'.polling - y'.started == y.polling - y.started;
  }

  lemma PassMoves(y: System, id: string, now: int)
    requires SysInv(y) && Forward(y, ThreadPass(id, now))
    ensures var y' := Next(y, ThreadPass(id, now));
      y'.pcs == y.pcs && y'.polling == y.polling - {id} && y'.started == y.started
  {
    hide Next, Apply, Inv, GlobalId;
    StepsUnfold(y);
    assert ThreadOk(y, id);
    if id in y.gov.waiters {
      RegisteredPhase(y.gov, id);
      if y.gov.waiters[id].phase == Running {
        RunningStarted(y.gov, id);
      }
    }
    hide SysInv, ThreadOk;
  }

  /** Every step forward lowers the measure, whatever the environment answers. */
  lemma ForwardShrinks(y: System, step: Step)
    requires PoolInv(y) && Forward(y, step)
    ensures Measure(Next(y, step)) < Measure(y)
  {
    match step
    case SubmitGlobal(base, remaining, now) => SubmitShrinks(y, base, remaining, now);
    case CancelWait(base, now) => CancelShrinks(y, base, now);
    case ThreadStart => StartShrinks(y);
    case ThreadPass(id, now) => PassShrinks(y, id, now);
    case _ =>
      PlainShrinks(y, step);
  }

  lemma PlainShrinks(y: System, step: Step)
    requires SysInv(y) && Forward(y, step)
    requires !step.SubmitGlobal? && !step.CancelWait? && !step.ThreadStart? && !step.ThreadPass?
    ensures Measure(Next(y, step)) < Measure(y)
  {
    hide Next, SysInv, ReleaseAdmission, GlobalId, Measure;
    var base := step.base;
    RequestAttempt(y, base);
    PlainNext(y, step);
    MoveShrinks(y, Next(y, step), base);
  }

  lemma RequestAttempt(y: System, base: string)
    requires SysInv(y) && base in y.pcs
    ensures var pc := y.pcs[base]; pc.Resolving? || pc.Checking? || pc.Waiting? || Holding(pc) ==> pc.attempt < 2
  {
    assert RequestOk(y, base);
    hide Inv, Saturated;
  }

  /** Where a plain step takes its request. */
  lemma PlainNext(y: System, step: Step)
    requires Forward(y, step)
    requires !step.SubmitGlobal? && !step.CancelWait? && !step.ThreadStart? && !step.ThreadPass?
    ensures var y' := Next(y, step);
      var pc := y.pcs[step.base];
      && step.base in y'.pcs && y'.pcs == y.pcs[step.base := y'.pcs[step.base]]
      && y'.polling == y.polling && y'.started == y.started
      && match step
         case Resolve(_, found) =>
           y'.pcs[step.base] == if found.None? then Unadmitted else Checking(pc.attempt, found.value)
         case Check(_, current) =>
           y'.pcs[step.base] == if current then Submitting(pc.attempt, pc.target) else AfterChange(pc.attempt)
         case Recheck(_, current, _) =>
           y'.pcs[step.base] == if current then Executing(pc.attempt, pc.target) else AfterChange(pc.attempt)
         case Deliver(_) => y'.pcs[step.base] in {Rechecking(pc.attempt, pc.target), Done(WaitFailed)}
         case Route(_, _, _) => y'.pcs[step.base] == Streaming(pc.attempt, pc.target) || y'.pcs[step.base].Done?
         case _ => y'.pcs[step.base].Done?
  {
    hide ReleaseAdmission, GlobalId;
  }

  /** The other steps do not raise it, arrivals aside. */
  lemma OtherStepsKeep(y: System, step: Step)
    requires SysInv(y) && !Forward(y, step) && !step.Arrive?
    ensures Measure(Next(y, step)) == Measure(y)
  {
    hide Next, Forward, SysInv, Measure;
    IdleNext(y, step);
    SameMeasure(y, Next(y, step));
  }

  lemma IdleNext(y: System, step: Step)
    requires !Forward(y, step) && !step.Arrive?
    ensures var y' := Next(y, step); y'.pcs == y.pcs && y'.polling == y.polling && y'.started == y.started
  {
    hide Apply, GlobalId, ReleaseAdmission, SubmitStep, CancelStep;
  }

  lemma SameMeasure(y: System, y': System)
    requires y'.pcs == y.pcs && y'.polling == y.polling && y'.started == y.started
    ensures Measure(y') == Measure(y)
  {
  }

  // ---- Nothing gets stuck ------------------------------------------------------------

  /** Every request is over and every thread has returned. */
  predicate AtRest(y: System) {
    y.polling == {} && forall base :: base in y.pcs ==> y.pcs[base].Done?
  }

  /** All workers wait for permits that are queued behind running waiters whose own
      wait no worker can begin. */
  predicate Jammed(y: System) {
    && y.workers >= 1 && |AtWork(y)| == y.workers
    && AtWork(y) <= QueuedIds(y.gov)
    && (forall id :: id in RunningIds(y.gov) ==> id in y.jobs)
  }

  /** Every request that is not over waits for a wait that is not over. */
  predicate AllAwait(y: System) {
    forall base | base in y.pcs && !y.pcs[base].Done? ::
      y.pcs[base].Waiting? && GlobalId(base, y.pcs[base].attempt) in y.polling
  }

  predicate Stuck(y: System) {
    Jammed(y) && AllAwait(y)
  }

  /** A step forward other than a cancellation, whatever the runtimes are. */
  lemma RequestStep(y: System, base: string, target: Target, now: int) returns (step: Step)
    requires base in y.pcs && !y.pcs[base].Done? && !y.pcs[base].Waiting?
    ensures Forward(y, step) && !step.CancelWait? && !step.Arrive?
    ensures step.Resolve? ==> step.found == Some(target)
  {
    match y.pcs[base]
    case Resolving(_) => step := Resolve(base, Some(target));
    case Checking(_, _) => step := Check(base, true);
    case Submitting(_, _) => step := SubmitGlobal(base, None, now);
    case Rechecking(_, _) => step := Recheck(base, true, now);
    case Executing(_, _) => step := Route(base, Response, now);
    case Streaming(_, _) => step := StreamOver(base, now);
    case Unadmitted => step := RouteUnadmitted(base);
  }

  /** A wait that is over can be delivered. */
  lemma Deliverable(y: System, base: string)
    requires SysInv(y) && base in y.pcs && y.pcs[base].Waiting?
    requires GlobalId(base, y.pcs[base].attempt) !in y.polling
    ensures Forward(y, Deliver(base))
  {
    hide Inv, Saturated, GlobalId;
    assert RequestOk(y, base);
  }

  /** Who runs and has not got its permit yet is still being waited for. */
  lemma RunningAwaited(y: System, id: string)
    requires SysInv(y) && AllAwait(y) && id in RunningIds(y.gov)
    ensures id in y.polling
  {
    hide Inv, Saturated;
    assert WaiterOwned(y, id);
    assert id == GlobalId(y.owner[id].base, y.owner[id].attempt);
    hide GlobalId;
  }

  /** If every thread at work waits for a queued permit and nobody else can move
      on, then all workers are at work and what runs has not begun its wait. */
  lemma OtherwiseJammed(y: System)
    requires PoolInv(y) && y.workers >= 1 && AllAwait(y) && AtWork(y) <= QueuedIds(y.gov)
    requires !CanStart(y) && !AtRest(y)
    ensures Jammed(y)
  {
    hide Inv, Saturated, GlobalId, AllAwait, InTicketOrder, Before, Numbered, WaiterOwned, RequestOk, ThreadOk;
    forall id | id in RunningIds(y.gov) ensures id in y.jobs {
      RunningAwaited(y, id);
      assert id !in QueuedIds(y.gov);
    }
    SomebodyAwaited(y);
    var id :| id in y.polling;
    if id !in y.jobs {
      var other := RunningAhead(y, id);
      RunningAwaited(y, other);
    }
  }

  lemma SomebodyAwaited(y: System)
    requires AllAwait(y) && !AtRest(y)
    ensures y.polling != {}
  {
    if base :| base in y.pcs && !y.pcs[base].Done? {
      assert GlobalId(base, y.pcs[base].attempt) in y.polling;
    }
  }

  lemma RunningAhead(y: System, id: string) returns (other: string)
    requires SysInv(y) && id in QueuedIds(y.gov)
    ensures other in RunningIds(y.gov)
  {
    hide Inv, Saturated;
    if RunningIds(y.gov) == {} {
      QueuedImpliesRunning(y.gov);
    }
    other :| other in RunningIds(y.gov);
  }

  /** In every state that is neither at rest nor stuck some step forward is possible,
      without any cancellation. */
  lemma StepForward(y: System, target: Target, now: int) returns (step: Step)
    requires PoolInv(y) && y.workers >= 1 && !AtRest(y) && !Stuck(y)
    ensures Forward(y, step) && !step.CancelWait? && !step.Arrive?
    ensures step.Resolve? ==> step.found == Some(target)
  {
    hide PoolInv, SysInv, PoolOk, Jammed, AtRest, GlobalId;
    if CanStart(y) {
      step := ThreadStart;
    } else if id :| id in AtWork(y) && id !in QueuedIds(y.gov) {
      step := ThreadPass(id, now);
    } else if base :| base in y.pcs && !y.pcs[base].Done? && !y.pcs[base].Waiting? {
      step := RequestStep(y, base, target, now);
    } else if base :| base in y.pcs && y.pcs[base].Waiting? && GlobalId(base, y.pcs[base].attempt) !in y.polling {
      PoolIsSys(y);
      Deliverable(y, base);
      step := Deliver(base);
    } else {
      OtherwiseJammed(y);
      step := ThreadStart;
    }
  }

  lemma PoolIsSys(y: System)
    requires PoolInv(y)
    ensures SysInv(y) && PoolOk(y)
  {
    hide SysInv, PoolOk;
  }

  /** In a stuck state nothing but a cancellation or an arrival is a step ahead. */
  lemma StuckStops(y: System, step: Step)
    requires PoolInv(y) && Stuck(y) && !step.CancelWait?
    ensures !Forward(y, step)
  {
    hide Inv, Saturated, GlobalId, InTicketOrder, Before, Numbered, WaiterOwned, LeftoverOk;
    match step
    case ThreadPass(id, _) => assert id in AtWork(y) ==> id in QueuedIds(y.gov);
    case Deliver(base) => assert base in y.pcs && y.pcs[base].Waiting? ==>
      ThreadOk(y, GlobalId(base, y.pcs[base].attempt));
    case _ =>
  }

  /** Exactly when a system that is not at rest has no step forward but
      cancellations. */
  lemma StuckExactly(y: System)
    requires PoolInv(y) && y.workers >= 1
    ensures Stuck(y) <==> !AtRest(y) && forall step :: Forward(y, step) ==> step.CancelWait?
  {
    hide PoolInv, Forward, AllAwait;
    if Stuck(y) {
      forall step: Step | !step.CancelWait? ensures !Forward(y, step) {
        StuckStops(y, step);
      }
      assert AtWork(y) != {};
    } else if !AtRest(y) {
      var step := StepForward(y, Target("", 1), 0);
    }
  }

  // ---- Runs -----------------------------------------------------------------------

  /** How many steps of a run go forward. */
  function Progress(y: System, steps: seq<Step>): nat
    decreases |steps|
  {
    if steps == [] then 0
    else (if Forward(y, steps[0]) then 1 else 0) + Progress(Next(y, steps[0]), steps[1..])
  }

  /** Without arrivals, every run makes at most as many steps forward as the measure
      says, whatever is chosen, answered or cancelled. */
  lemma {:induction false} ProgressIsBounded(y: System, steps: seq<Step>)
    requires PoolInv(y) && forall step :: step in steps ==> !step.Arrive?
    ensures Progress(y, steps) + Measure(Run(y, steps)) <= Measure(y)
    decreases |steps|
  {
    hide SysInv, PoolOk, Forward, Next, Measure;
    if steps != [] {
      PoolKeeps(y, steps[0]);
      assert steps[0] in steps;
      if Forward(y, steps[0]) {
        ForwardShrinks(y, steps[0]);
      } else {
        OtherStepsKeep(y, steps[0]);
      }
      ProgressIsBounded(Next(y, steps[0]), steps[1..]);
    }
  }
}
