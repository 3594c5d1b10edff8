/** What keeps the pool of worker threads from jamming, and that the admission
    system then comes to rest from every state. */
module LifecycleRoom {
  import opened Common
  import opened GovernorState
  import opened GovernorInvariant
  import opened GovernorProgress
  import opened Lifecycle
  import opened LifecyclePool
  import opened LifecycleDrain
  import opened LifecycleJam

  // ---- More workers than requests ----------------------------------------------

  function Unfinished(y: System): set<string> {
    set base | base in y.pcs && !y.pcs[base].Done?
  }

  lemma {:induction false} OwnersSize(y: System, ids: set<string>, bases: set<string>)
    requires bases == set id | id in ids && id in y.owner :: y.owner[id].base
    requires forall id :: id in ids ==> id in y.owner
    requires forall a, b :: a in ids && b in ids && y.owner[a].base == y.owner[b].base ==> a == b
    ensures |bases| == |ids|
    decreases ids
  {
    if ids != {} {
      var id :| id in ids;
      var rest := set a | a in ids - {id} && a in y.owner :: y.owner[a].base;
      OwnersSize(y, ids - {id}, rest);
      assert bases == rest + {y.owner[id].base};
    }
  }

  /** Whose wait is queued or running and not over is an unfinished request of its
      own. */
  lemma AwaitedRequest(y: System, id: string)
    requires SysInv(y) && id in y.polling && id in QueuedIds(y.gov) + RunningIds(y.gov)
    ensures id in y.owner && y.owner[id].base in Unfinished(y)
    ensures y.pcs[y.owner[id].base].Waiting?
    ensures id == GlobalId(y.owner[id].base, y.pcs[y.owner[id].base].attempt)
  {
    hide Inv, Saturated, GlobalId;
    assert WaiterOwned(y, id) && ThreadOk(y, id);
  }

  /** A jam takes more unfinished requests than there are workers. */
  lemma JamTakesMany(y: System)
    requires PoolInv(y) && Jammed(y)
    ensures |Unfinished(y)| > y.workers
  {
    hide SysInv, InTicketOrder, Before, GlobalId, RunningIds, QueuedIds;
    var q :| q in AtWork(y);
    var r := RunningAhead(y, q);
    var ids := AtWork(y) + {r};
    assert r !in AtWork(y) && |ids| == y.workers + 1;
    forall id | id in ids
      ensures id in y.owner && y.owner[id].base in Unfinished(y) && y.pcs[y.owner[id].base].Waiting?
      ensures id == GlobalId(y.owner[id].base, y.pcs[y.owner[id].base].attempt)
    {
      AwaitedRequest(y, id);
    }
    var bases := set id | id in ids && id in y.owner :: y.owner[id].base;
    OwnersSize(y, ids, bases);
    SubsetSize(bases, Unfinished(y));
  }

  /** Only arrivals add unfinished requests. */
  lemma UnfinishedShrinks(y: System, step: Step)
    requires !step.Arrive?
    ensures |Unfinished(Next(y, step))| <= |Unfinished(y)|
  {
    hide Apply, Submit, Abandon, ReleaseAdmission, GlobalId;
    assert Unfinished(Next(y, step)) <= Unfinished(y);
    SubsetSize(Unfinished(Next(y, step)), Unfinished(y));
  }

  // ---- A full queue that is never overtaken ------------------------------------

  /** The queue is full and everything that runs was submitted after everything in
      it. */
  ghost predicate Overtaken(g: State) {
    && |QueuedIds(g)| >= g.queueCapacity
    && forall q, r :: q in QueuedIds(g) && r in RunningIds(g) ==> Before(g.born, q, r)
  }

  lemma EqualSets<T>(a: set<T>, b: set<T>)
    requires a <= b && |a| >= |b|
    ensures a == b
  {
    assert b == a + (b - a);
  }

  /** Whatever is kept back by its runtime's bound is behind something older. */
  lemma BlockedIsBehind(g: State, q: string) returns (r: string)
    requires Inv(g) && Saturated(g) && g.inflight < g.maxRunning && q in QueuedIds(g)
    ensures r in RunningIds(g) && Before(g.born, r, q)
  {
    RegisteredBorn(g);
    hide Inv, Saturated;
    if forall r :: r in RunningIds(g) && r in g.born ==> g.born[r].key != g.waiters[q].key {
      BlockedBySlots(g, q);
      r := q;
    } else {
      r :| r in RunningIds(g) && r in g.born && g.born[r].key == g.waiters[q].key;
      RunningIsOlder(g, r, q);
    }
  }

  lemma NotBoth(born: map<string, Birth>, a: string, b: string)
    requires Before(born, a, b)
    ensures !Before(born, b, a)
  {
  }

  /** With a free slot a full queue is not overtaken. */
  lemma FreeIsNotOvertaken(g: State)
    requires Inv(g) && Saturated(g) && g.inflight < g.maxRunning
    ensures !Overtaken(g)
  {
    InvCapacity(g);
    hide Inv, Saturated, Before;
    if |QueuedIds(g)| >= g.queueCapacity {
      var q :| q in QueuedIds(g);
      var r := BlockedIsBehind(g, q);
      NotBoth(g.born, r, q);
    }
  }

  lemma InvCapacity(g: State)
    requires Inv(g)
    ensures g.queueCapacity >= 1 && g.maxRunning >= 1 && g.inflight <= g.maxRunning
  {
  }

  /** Nobody was admitted from a queue that is as it was. */
  ghost predicate OnlyOnward(g: State, g': State) {
    && g'.queueCapacity == g.queueCapacity && g'.maxRunning == g.maxRunning && g'.born == g.born
    && forall x :: x in g'.waiters ==> x in g.waiters && Advanced(g.waiters[x], g'.waiters[x])
  }

  lemma OnwardSets(g: State, g': State)
    requires OnlyOnward(g, g')
    ensures QueuedIds(g') <= QueuedIds(g)
    ensures QueuedIds(g') == QueuedIds(g) ==> RunningIds(g') <= RunningIds(g)
  {
    forall x | x in RunningIds(g') ensures QueuedIds(g') == QueuedIds(g) ==> x in RunningIds(g) {
      assert x !in QueuedIds(g');
    }
  }

  /** A step of waiters that removes nothing that runs. */
  lemma RefreshNotOvertaken(g: State, g': State)
    requires OnlyOnward(g, g') && |QueuedIds(g)| <= g.queueCapacity && !Overtaken(g)
    requires RunningIds(g) <= RunningIds(g')
    ensures !Overtaken(g')
  {
    OnwardSets(g, g');
    hide Advanced, Before;
    if |QueuedIds(g')| >= g'.queueCapacity {
      EqualSets(QueuedIds(g'), QueuedIds(g));
    }
  }

  /** A step that takes a running or a queued waiter away. */
  lemma RemovalNotOvertaken(g: State, g': State, x: string)
    requires Inv(g) && Inv(g') && Saturated(g') && OnlyOnward(g, g') && |QueuedIds(g)| <= g.queueCapacity
    requires x in QueuedIds(g) + RunningIds(g) && x !in g'.waiters
    ensures !Overtaken(g')
  {
    OnwardSets(g, g');
    CountersAgree(g);
    CountersAgree(g');
    hide Inv, Saturated, Advanced, Before;
    if |QueuedIds(g')| >= g'.queueCapacity {
      EqualSets(QueuedIds(g'), QueuedIds(g));
      assert RunningIds(g') <= RunningIds(g) - {x};
      SubsetSize(RunningIds(g'), RunningIds(g) - {x});
      FreeIsNotOvertaken(g');
    }
  }

  lemma OpOnward(g: State, op: Op)
    requires Inv(g) && Saturated(g) && !op.OpSubmit?
    ensures var g' := Apply(g, op); Inv(g') && Saturated(g') && OnlyOnward(g, g')
  {
    var id := if op.OpSnapshot? then "" else op.id;
    OpUndisturbed(g, op, id);
    OtherOpsForward(g, op);
    OpCapacity(g, op);
    hide Inv, Saturated, Apply;
  }

  lemma OpCapacity(g: State, op: Op)
    requires !op.OpSubmit?
    ensures Apply(g, op).maxRunning == g.maxRunning
  {
  }

  lemma OtherNotOvertaken(g: State, op: Op)
    requires Inv(g) && Saturated(g) && !op.OpSubmit? && |QueuedIds(g)| <= g.queueCapacity && !Overtaken(g)
    ensures !Overtaken(Apply(g, op))
  {
    OpOnward(g, op);
    hide Inv, Saturated, Overtaken, OnlyOnward, QueuedIds, RunningIds;
    if op.OpSnapshot? || op.OpWait? {
      PassKeepsRunning(g, op);
      hide Apply;
      RefreshNotOvertaken(g, Apply(g, op));
    } else if Removes(g, op) {
      RemovedIsGone(g, op);
      hide Apply;
      RemovalNotOvertaken(g, Apply(g, op), op.id);
    } else {
      NothingRemoved(g, op);
      hide Apply;
    }
  }

  /** A release of a running waiter, or an abandonment of a queued or running one. */
  predicate Removes(g: State, op: Op) {
    || (op.OpRelease? && op.id in RunningIds(g))
    || (op.OpAbandon? && op.id in QueuedIds(g) + RunningIds(g))
  }

  lemma PassKeepsRunning(g: State, op: Op)
    requires op.OpSnapshot? || op.OpWait?
    ensures RunningIds(g) <= RunningIds(Apply(g, op))
  {
    RefreshAdvances(g, op.now);
    hide Refresh;
    forall x | x in RunningIds(g) ensures x in RunningIds(Apply(g, op)) {
      assert Advanced(g.waiters[x], Refresh(g, op.now).waiters[x]);
    }
  }

  lemma RemovedIsGone(g: State, op: Op)
    requires Removes(g, op)
    ensures op.id !in Apply(g, op).waiters && op.id in QueuedIds(g) + RunningIds(g)
  {
  }

  lemma NothingRemoved(g: State, op: Op)
    requires (op.OpRelease? || op.OpAbandon?) && !Removes(g, op)
    ensures Apply(g, op) == g
  {
  }

  lemma SubmitNotOvertaken(g: State, key: string, id: string, bound: int, timeout: Option<int>, now: int)
    requires Inv(g) && Saturated(g) && |QueuedIds(g)| <= g.queueCapacity && !Overtaken(g)
    requires id !in g.born && id !in g.waiters
    ensures !Overtaken(Submit(g, key, id, bound, timeout, now).0)
  {
    hide Inv, Saturated, Overtaken, Submit, Refresh, AdmitAll, Enqueue, Blank, QueuedIds, RunningIds;
    if !Blank(key) && !Blank(id) && bound >= 1 && (timeout.Some? ==> timeout.value > 0) {
      OtherNotOvertaken(g, OpSnapshot(now));
      OpOnward(g, OpSnapshot(now));
      ObserveRefreshes(g, now);
      SubmitUnroll(g, key, id, bound, timeout, now);
      if Submit(g, key, id, bound, timeout, now).1 == Submitted {
        AcceptedNotOvertaken(g, key, id, bound, timeout, now);
      }
    } else {
      SubmitRefused(g, key, id, bound, timeout, now);
    }
  }

  lemma AcceptedNotOvertaken(g: State, key: string, id: string, bound: int, timeout: Option<int>, now: int)
    requires Inv(g) && Saturated(g) && |QueuedIds(g)| <= g.queueCapacity && id !in g.born && id !in g.waiters
    requires Submit(g, key, id, bound, timeout, now).1 == Submitted
    ensures !Overtaken(Submit(g, key, id, bound, timeout, now).0)
  {
    hide Inv, Saturated, SaturatedAt, Refresh, Submit, Enqueue, NewRecord, AllAdvanced, Blank, Overtaken, QueuedIds,
         RunningIds, Before;
    var g1, g' := Refresh(g, now), Submit(g, key, id, bound, timeout, now).0;
    SubmitKeeps(g, key, id, bound, timeout, now);
    SubmitSaturates(g, key, id, bound, timeout, now);
    SubmitBorn(g, key, id, bound, timeout, now);
    RefreshBorn(g, now);
    RefreshAdvances(g, now);
    AdvancedQueues(g, g1);
    SubmittedRunning(g, key, id, bound, timeout, now);
    if id in QueuedIds(g') {
      NewestTicket(g, g', key, id);
      NewestIsQueued(g', id);
    } else if |QueuedIds(g')| >= g'.queueCapacity {
      SubsetSize(QueuedIds(g'), QueuedIds(g1));
      LetPast(g, key, id, bound, timeout, now);
      RefreshKeeps(g, now);
      RefreshSaturates(g, now);
      SaturatedAnyTime(g1, now);
      EqualSets(QueuedIds(g'), QueuedIds(g1));
      LetPastNotOvertaken(g1, g', id);
    } else {
      NotFull(g');
    }
  }

  lemma NotFull(g: State)
    requires |QueuedIds(g)| < g.queueCapacity
    ensures !Overtaken(g)
  {
  }

  lemma NewestTicket(g: State, g': State, key: string, id: string)
    requires Inv(g) && g'.born == g.born[id := Birth(key, |g.born.Keys|)]
    ensures id in g'.born && forall x :: x in g'.born && x != id ==> g'.born[x].ticket < g'.born[id].ticket
  {
  }

  /** Who is let past a full queue leaves it behind something older. */
  lemma LetPastNotOvertaken(g1: State, g': State, id: string)
    requires Inv(g1) && Saturated(g1) && g1.inflight < g1.maxRunning && |QueuedIds(g1)| >= g1.queueCapacity
    requires QueuedIds(g') == QueuedIds(g1) && RunningIds(g1) <= RunningIds(g')
    requires id !in g1.born && forall x :: x in g1.born ==> x in g'.born && g'.born[x] == g1.born[x]
    ensures !Overtaken(g')
  {
    hide Inv, Saturated, QueuedIds, RunningIds;
    InvCapacity(g1);
    var q :| q in QueuedIds(g1);
    var r := BlockedIsBehind(g1, q);
    NotBoth(g'.born, r, q);
  }

  /** What ran before a submission runs after it, and nobody else is queued. */
  lemma SubmittedRunning(g: State, key: string, id: string, bound: int, timeout: Option<int>, now: int)
    requires Submit(g, key, id, bound, timeout, now).1 == Submitted && id !in g.waiters
    ensures var g1, g' := Refresh(g, now), Submit(g, key, id, bound, timeout, now).0;
      RunningIds(g1) <= RunningIds(g') && QueuedIds(g') <= QueuedIds(g1) + {id} && g'.queueCapacity == g.queueCapacity
  {
    SubmittedQueued(g, key, id, bound, timeout, now);
    RefreshBorn(g, now);
    hide Refresh, Submit, NewRecord;
    var g1, g' := Refresh(g, now), Submit(g, key, id, bound, timeout, now).0;
    var e := Enqueue(g1, key, id, NewRecord(key, bound, timeout, now));
    assert e.waiters == g1.waiters[id := NewRecord(key, bound, timeout, now)];
    hide Enqueue;
    forall x | x in RunningIds(g1) ensures x in RunningIds(g') {
      assert Advanced(e.waiters[x], g'.waiters[x]);
    }
  }

  lemma LetPast(g: State, key: string, id: string, bound: int, timeout: Option<int>, now: int)
    requires Submit(g, key, id, bound, timeout, now).1 == Submitted && |QueuedIds(Refresh(g, now))| >= g.queueCapacity
    ensures Refresh(g, now).inflight < Refresh(g, now).maxRunning
  {
    RefreshBorn(g, now);
    hide Refresh, Enqueue, AdmitAll, QueuedIds;
  }

  /** The newest waiter is queued: whatever runs is older. */
  lemma NewestIsQueued(g: State, id: string)
    requires Inv(g) && Saturated(g) && id in QueuedIds(g) && id in g.born
    requires forall x :: x in g.born && x != id ==> g.born[x].ticket < g.born[id].ticket
    ensures !Overtaken(g)
  {
    RegisteredBorn(g);
    hide Inv, Saturated;
    if RunningIds(g) == {} {
      QueuedImpliesRunning(g);
    }
    var r :| r in RunningIds(g);
    assert r != id && Before(g.born, r, id);
    NotBoth(g.born, r, id);
  }

  // ---- At least as many workers as queue places ------------------------------------

  predicate HasTarget(pc: Pc) {
    pc.Checking? || pc.Submitting? || pc.Waiting? || Holding(pc)
  }

  /** All submissions of a runtime carry the same bound; the queue keeps its capacity
      and is not overtaken when it is full. */
  ghost predicate QueueWithin(y: System, bounds: string -> int) {
    && Uniform(y.gov, bounds) && |QueuedIds(y.gov)| <= y.gov.queueCapacity && !Overtaken(y.gov)
    && forall base :: base in y.pcs && HasTarget(y.pcs[base]) ==>
      Bound(y.pcs[base].target) == bounds(y.pcs[base].target.key)
  }

  /** A runtime that is resolved has the one bound of its key. */
  ghost predicate Fitting(step: Step, bounds: string -> int) {
    step.Resolve? && step.found.Some? ==> Bound(step.found.value) == bounds(step.found.value.key)
  }

  ghost predicate GovWithin(g: State, g': State, bounds: string -> int) {
    && Uniform(g', bounds) && |QueuedIds(g')| <= g'.queueCapacity && !Overtaken(g')
    && g'.queueCapacity == g.queueCapacity
  }

  lemma SubmitWithin(
      g: State, key: string, id: string, bound: int, timeout: Option<int>, now: int, bounds: string -> int)
    requires Inv(g) && Saturated(g) && Uniform(g, bounds) && |QueuedIds(g)| <= g.queueCapacity && !Overtaken(g)
    requires bound == bounds(key) && id !in g.born && id !in g.waiters
    ensures GovWithin(g, Submit(g, key, id, bound, timeout, now).0, bounds)
  {
    hide Inv, Saturated, Uniform, Submit, Overtaken, QueuedIds;
    SubmitNotOvertaken(g, key, id, bound, timeout, now);
    SubmitQueueBound(g, key, id, bound, timeout, now, bounds);
    SubmitUniform(g, key, id, bound, timeout, now, bounds);
    SubmitCapacity(g, key, id, bound, timeout, now);
  }

  lemma SubmitCapacity(g: State, key: string, id: string, bound: int, timeout: Option<int>, now: int)
    requires id !in g.waiters
    ensures Submit(g, key, id, bound, timeout, now).0.queueCapacity == g.queueCapacity
  {
    if !Blank(key) && !Blank(id) && bound >= 1 && (timeout.Some? ==> timeout.value > 0) {
      SubmitUnroll(g, key, id, bound, timeout, now);
      RefreshBorn(g, now);
    } else {
      SubmitRefused(g, key, id, bound, timeout, now);
    }
    hide Submit, Refresh, Blank;
  }

  lemma OtherWithin(g: State, op: Op, bounds: string -> int)
    requires Inv(g) && Saturated(g) && !op.OpSubmit?
    requires Uniform(g, bounds) && |QueuedIds(g)| <= g.queueCapacity && !Overtaken(g)
    ensures GovWithin(g, Apply(g, op), bounds)
  {
    hide Apply, Uniform, QueuedIds, Inv, Saturated, Overtaken;
    OtherNotOvertaken(g, op);
    OtherQueueBound(g, op, bounds);
    OtherOpsForward(g, op);
  }

  lemma FreedWithin(y: System, base: string, pc: Pc, now: int, bounds: string -> int)
    requires SysInv(y) && QueueWithin(y, bounds) && base in y.pcs && Holding(y.pcs[base])
    ensures GovWithin(y.gov, Freed(y, base, y.pcs[base].attempt, pc, now).gov, bounds)
  {
    var id := GlobalId(base, y.pcs[base].attempt);
    hide ReleaseAdmission, Apply, GlobalId, Inv, Saturated, Overtaken;
    assert RequestOk(y, base);
    ReleasesCleanly(y.gov, id, now);
    OtherWithin(y.gov, OpRelease(id, now), bounds);
  }

  lemma SubmitStepWithin(y: System, base: string, remaining: Option<int>, now: int, bounds: string -> int)
    requires SysInv(y) && QueueWithin(y, bounds) && base in y.pcs && y.pcs[base].Submitting?
    ensures GovWithin(y.gov, Next(y, SubmitGlobal(base, remaining, now)).gov, bounds)
  {
    hide Submit, GlobalId, SysInv, Bound, Next, Inv, Saturated, Overtaken, Uniform;
    var pc := y.pcs[base];
    StepsUnfold(y);
    UnknownAttempt(y, base);
    SysGov(y);
    SubmitWithin(y.gov, pc.target.key, GlobalId(base, pc.attempt), Bound(pc.target), remaining, now, bounds);
  }

  lemma SysGov(y: System)
    requires SysInv(y)
    ensures Inv(y.gov) && Saturated(y.gov)
  {
    hide Inv, Saturated;
  }

  lemma PassWithin(y: System, id: string, now: int, bounds: string -> int)
    requires Inv(y.gov) && Saturated(y.gov) && QueueWithin(y, bounds)
    ensures GovWithin(y.gov, PassStep(y, id, now).gov, bounds)
  {
    hide Apply, Inv, Saturated, Overtaken;
    OtherWithin(y.gov, OpWait(id, now), bounds);
    OtherWithin(y.gov, OpSnapshot(now), bounds);
  }

  lemma GovStays(y: System, step: Step, bounds: string -> int)
    requires SysInv(y) && QueueWithin(y, bounds)
    ensures GovWithin(y.gov, Next(y, step).gov, bounds)
  {
    hide SysInv, SubmitStep, PassStep, Freed, GlobalId, Apply, Inv, Saturated, Overtaken, Uniform;
    SysGov(y);
    match step
    case SubmitGlobal(base, remaining, now) =>
      if base in y.pcs && y.pcs[base].Submitting? {
        SubmitStepWithin(y, base, remaining, now, bounds);
      }
    case ThreadPass(id, now) => PassWithin(y, id, now, bounds);
    case CancelWait(base, now) =>
      if base in y.pcs && y.pcs[base].Waiting? {
        OtherWithin(y.gov, OpAbandon(GlobalId(base, y.pcs[base].attempt), now), bounds);
      }
    case Observe(now) => OtherWithin(y.gov, OpSnapshot(now), bounds);
    case Recheck(base, _, now) =>
      if base in y.pcs && y.pcs[base].Rechecking? {
        FreedWithin(y, base, AfterChange(y.pcs[base].attempt), now, bounds);
      }
    case Route(base, _, now) =>
      if base in y.pcs && y.pcs[base].Executing? {
        FreedWithin(y, base, Done(Answered), now, bounds);
        FreedWithin(y, base, Done(RouteRaised), now, bounds);
        FreedWithin(y, base, Done(RouteCancelled), now, bounds);
      }
    case StreamOver(base, now) =>
      if base in y.pcs && y.pcs[base].Streaming? {
        FreedWithin(y, base, Done(StreamEnded), now, bounds);
      }
    case _ =>
  }

  /** Where a step takes a request with a runtime, it keeps the runtime; only
      resolving finds a new one. */
  lemma TargetsMove(y: System, step: Step, base: string)
    requires var y' := Next(y, step); base in y'.pcs && HasTarget(y'.pcs[base])
    ensures var y' := Next(y, step);
      || (base in y.pcs && HasTarget(y.pcs[base]) && y'.pcs[base].target == y.pcs[base].target)
      || (step.Resolve? && step.found.Some? && y'.pcs[base].target == step.found.value)
  {
    hide Next, Forward, GlobalId;
    if !Forward(y, step) {
      if step.Arrive? {
        ArriveMoves(y, step.base);
      } else {
        IdleNext(y, step);
      }
    } else {
      match step
      case SubmitGlobal(b, remaining, now) =>
        ForwardUnfolds(y, step);
        SubmitMoves(y, b, remaining, now);
      case CancelWait(b, now) =>
        ForwardUnfolds(y, step);
        CancelMoves(y, b, now);
      case ThreadStart => ThreadsKeepPcs(y, step);
      case ThreadPass(_, _) => ThreadsKeepPcs(y, step);
      case _ => PlainTargets(y, step);
    }
  }

  lemma ForwardUnfolds(y: System, step: Step)
    requires Forward(y, step)
    ensures step.SubmitGlobal? ==> step.base in y.pcs && y.pcs[step.base].Submitting?
    ensures step.CancelWait? ==> step.base in y.pcs && y.pcs[step.base].Waiting?
  {
  }

  lemma ArriveMoves(y: System, base: string)
    ensures Next(y, Arrive(base)).pcs == if base in y.pcs then y.pcs else y.pcs[base := Resolving(0)]
  {
  }

  lemma ThreadsKeepPcs(y: System, step: Step)
    requires step.ThreadStart? || step.ThreadPass?
    ensures Next(y, step).pcs == y.pcs
  {
    hide Apply;
  }

  lemma PlainTargets(y: System, step: Step)
    requires Forward(y, step)
    requires !step.SubmitGlobal? && !step.CancelWait? && !step.ThreadStart? && !step.ThreadPass?
    ensures var y' := Next(y, step);
      && step.base in y.pcs && step.base in y'.pcs && y'.pcs == y.pcs[step.base := y'.pcs[step.base]]
      && var pc, pc' := y.pcs[step.base], y'.pcs[step.base];
        HasTarget(pc') ==>
          || (HasTarget(pc) && pc'.target == pc.target)
          || (step.Resolve? && step.found.Some? && pc'.target == step.found.value)
  {
    hide Next;
    PlainNext(y, step);
  }

  lemma TargetsStay(y: System, step: Step, bounds: string -> int)
    requires QueueWithin(y, bounds) && Fitting(step, bounds)
    ensures var y' := Next(y, step);
      forall base :: base in y'.pcs && HasTarget(y'.pcs[base]) ==>
        Bound(y'.pcs[base].target) == bounds(y'.pcs[base].target.key)
  {
    hide Next, Bound, Uniform, QueuedIds;
    var y' := Next(y, step);
    forall base | base in y'.pcs && HasTarget(y'.pcs[base])
      ensures Bound(y'.pcs[base].target) == bounds(y'.pcs[base].target.key)
    {
      TargetsMove(y, step, base);
    }
  }

  /** With one bound per runtime the queue keeps within its capacity, over every
      step, arrivals and cancellations included. */
  lemma QueueStays(y: System, step: Step, bounds: string -> int)
    requires SysInv(y) && QueueWithin(y, bounds) && Fitting(step, bounds)
    ensures var y' := Next(y, step);
      QueueWithin(y', bounds) && y'.workers == y.workers && y'.gov.queueCapacity == y.gov.queueCapacity
  {
    GovStays(y, step, bounds);
    TargetsStay(y, step, bounds);
    hide SysInv, Uniform, QueuedIds, Bound, Overtaken;
    SameWorkers(y, step);
    hide Next;
  }

  lemma SameWorkers(y: System, step: Step)
    ensures Next(y, step).workers == y.workers
  {
    hide Apply, Submit, Abandon, ReleaseAdmission, GlobalId;
  }

  /** With at least as many workers as queue places a jam would be a full queue that
      everything running has overtaken. */
  lemma WideEnough(y: System, bounds: string -> int)
    requires PoolInv(y) && QueueWithin(y, bounds) && y.gov.queueCapacity <= y.workers
    ensures !Jammed(y)
  {
    hide SysInv, InTicketOrder, Before, Uniform, QueuedIds, RunningIds;
    if AtWork(y) <= QueuedIds(y.gov) && |AtWork(y)| == y.workers {
      SubsetSize(AtWork(y), QueuedIds(y.gov));
      EqualSets(AtWork(y), QueuedIds(y.gov));
    }
  }

  /** With one bound per runtime and at least as many workers as queue places, no run
      ever jams the pool, arrivals and cancellations included. */
  lemma {:induction false} NeverJams(y: System, steps: seq<Step>, bounds: string -> int)
    requires PoolInv(y) && QueueWithin(y, bounds) && y.gov.queueCapacity <= y.workers
    requires forall step :: step in steps ==> Fitting(step, bounds)
    ensures !Jammed(Run(y, steps))
    decreases |steps|
  {
    hide SysInv, PoolOk, QueueWithin, Next, Jammed;
    if steps == [] {
      WideEnough(y, bounds);
    } else {
      assert steps[0] in steps;
      PoolKeeps(y, steps[0]);
      QueueStays(y, steps[0], bounds);
      NeverJams(Next(y, steps[0]), steps[1..], bounds);
    }
  }

  lemma StartWithin(maxRunning: int, queueCapacity: int, workers: nat, bounds: string -> int)
    requires maxRunning >= 1 && queueCapacity >= 1
    ensures QueueWithin(Start(maxRunning, queueCapacity, workers), bounds)
  {
    assert QueuedIds(Init(maxRunning, queueCapacity)) == {};
  }

  lemma EveryRunHasRoom(maxRunning: int, queueCapacity: int, workers: nat, steps: seq<Step>, bounds: string -> int)
    requires maxRunning >= 1 && 1 <= queueCapacity <= workers
    requires forall step :: step in steps ==> Fitting(step, bounds)
    ensures !Jammed(Run(Start(maxRunning, queueCapacity, workers), steps))
  {
    hide Jammed, QueueWithin, PoolInv;
    StartWithin(maxRunning, queueCapacity, workers, bounds);
    EveryRunIsOrderly(maxRunning, queueCapacity, workers, []);
    NeverJams(Start(maxRunning, queueCapacity, workers), steps, bounds);
  }

  // ---- The drain ---------------------------------------------------------------------

  /** No more unfinished requests than workers; or one bound per runtime and at least as
      many workers as queue places. */
  ghost predicate Room(y: System, bounds: string -> int) {
    && y.workers >= 1
    && (|Unfinished(y)| <= y.workers || (QueueWithin(y, bounds) && y.gov.queueCapacity <= y.workers))
  }

  lemma RoomIsFree(y: System, bounds: string -> int)
    requires PoolInv(y) && Room(y, bounds)
    ensures !Stuck(y)
  {
    hide PoolInv, QueueWithin, Jammed, AllAwait;
    if |Unfinished(y)| > y.workers {
      WideEnough(y, bounds);
    } else if Jammed(y) {
      JamTakesMany(y);
    }
  }

  lemma RoomStays(y: System, step: Step, bounds: string -> int)
    requires PoolInv(y) && Room(y, bounds) && Fitting(step, bounds) && !step.Arrive?
    ensures Room(Next(y, step), bounds)
  {
    hide SysInv, PoolOk, QueueWithin, Next, Unfinished;
    SameWorkers(y, step);
    UnfinishedShrinks(y, step);
    if |Unfinished(y)| > y.workers {
      QueueStays(y, step, bounds);
    }
  }

  /** From every reachable state with room in the pool the system comes to rest without a
      single cancellation; then no slot is taken, nothing is queued, and the only
      records left are those whose wait never began. */
  lemma {:induction false} SystemDrains(y: System, target: Target, now: int, bounds: string -> int)
    returns (steps: seq<Step>)
    requires PoolInv(y) && Room(y, bounds) && Bound(target) == bounds(target.key)
    ensures Undisturbing(steps) && |steps| <= Measure(y)
    ensures var end := Run(y, steps);
      && PoolInv(end) && AtRest(end)
      && end.gov.inflight == 0 && end.gov.queues == map[] && end.gov.runtimeInflight == map[]
      && end.gov.waiters.Keys == end.leftover
    decreases Measure(y)
  {
    hide PoolInv, Forward, Next, Measure, Room, Stuck, Bound;
    if AtRest(y) {
      PoolIsSys(y);
      QuiescenceIsEmpty(y);
      return [];
    }
    RoomIsFree(y, bounds);
    RoomHasWorkers(y, bounds);
    var step := StepForward(y, target, now);
    PoolKeeps(y, step);
    ForwardShrinks(y, step);
    RoomStays(y, step, bounds);
    var rest := SystemDrains(Next(y, step), target, now, bounds);
    steps := [step] + rest;
    assert steps[1..] == rest;
  }

  lemma RoomHasWorkers(y: System, bounds: string -> int)
    requires Room(y, bounds)
    ensures y.workers >= 1
  {
  }
}
