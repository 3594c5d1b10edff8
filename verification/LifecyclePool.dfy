/** The pool of worker threads that wait for permits. It has a fixed number of
    workers and begins the waits in the order of their submission. */
module LifecyclePool {
  import opened Common
  import opened GovernorState
  import opened GovernorInvariant
  import opened GovernorProgress
  import opened Lifecycle

  ghost predicate Before(born: map<string, Birth>, a: string, b: string) {
    a in born && b in born && born[a].ticket < born[b].ticket
  }

  ghost predicate InTicketOrder(jobs: seq<string>, born: map<string, Birth>) {
    forall i, j :: 0 <= i < j < |jobs| ==> Before(born, jobs[i], jobs[j])
  }

  /** The waits that have not begun are waiting in submission order, behind those
      that have, and no more of those are going on than there are workers. */
  ghost predicate PoolOk(y: System) {
    && (forall id :: id in y.jobs <==> id in y.polling && id !in y.started)
    && InTicketOrder(y.jobs, y.gov.born)
    && (forall a, b :: a in y.started && b in y.jobs ==> Before(y.gov.born, a, b))
    && |AtWork(y)| <= y.workers
  }

  ghost predicate PoolInv(y: System) {
    SysInv(y) && PoolOk(y)
  }

  // ---- The order of jobs -----------------------------------------------------

  lemma InTicketOrderFront(jobs: seq<string>, born: map<string, Birth>, n: nat)
    requires InTicketOrder(jobs, born) && n <= |jobs|
    ensures InTicketOrder(jobs[..n], born)
  {
  }

  lemma {:induction false} InTicketOrderWithout(jobs: seq<string>, born: map<string, Birth>, x: string)
    requires InTicketOrder(jobs, born)
    ensures InTicketOrder(Without(jobs, x), born)
  {
    hide Before;
    if jobs != [] {
      var front, last := jobs[..|jobs| - 1], jobs[|jobs| - 1];
      InTicketOrderFront(jobs, born, |front|);
      InTicketOrderWithout(front, born, x);
      WithoutMembers(front, x);
      forall id | id in Without(front, x) ensures Before(born, id, last) {
        var i :| 0 <= i < |front| && front[i] == id;
        assert jobs[i] == id;
      }
    }
  }

  // ---- Steps and the pool ----------------------------------------------------

  /** A step that leaves the pool alone. */
  ghost predicate SamePool(y: System, y': System) {
    y'.workers == y.workers && y'.jobs == y.jobs && y'.polling == y.polling && y'.started == y.started
    && y'.gov.born == y.gov.born
  }

  /** A new wait joins the end of the queue. */
  ghost predicate JobAdded(y: System, y': System, id: string) {
    && y'.workers == y.workers && y'.jobs == y.jobs + [id] && y'.polling == y.polling + {id}
    && y'.started == y.started
    && id !in y.gov.born && id in y'.gov.born && y'.gov.born == y.gov.born[id := y'.gov.born[id]]
    && y'.gov.born[id].ticket == |y.gov.born.Keys|
  }

  lemma SamePoolOk(y: System, y': System)
    requires PoolOk(y) && SamePool(y, y')
    ensures PoolOk(y')
  {
  }

  /** What has never been submitted is unknown to the pool. */
  lemma UnknownToPool(y: System, id: string)
    requires SysInv(y) && id !in y.gov.born
    ensures id !in y.polling && id !in y.started && id !in y.jobs
    ensures forall a :: a in y.started || a in y.jobs ==>
      a in y.gov.born && y.gov.born[a].ticket < |y.gov.born.Keys|
  {
    assert ThreadOk(y, id) && Tickets(y.gov);
    hide Inv, Saturated;
  }

  lemma JobAddedOk(y: System, y': System, id: string)
    requires PoolInv(y) && JobAdded(y, y', id)
    ensures PoolOk(y')
  {
    hide SysInv, InTicketOrder, Before;
    UnknownToPool(y, id);
    JobAddedOrder(y, y', id);
    assert AtWork(y') == AtWork(y);
    forall a, b | a in y'.started && b in y'.jobs ensures Before(y'.gov.born, a, b) {
      JobAddedBehind(y, y', id, a, b);
    }
  }

  lemma JobAddedOrder(y: System, y': System, id: string)
    requires InTicketOrder(y.jobs, y.gov.born) && JobAdded(y, y', id)
    requires forall a :: a in y.jobs ==> a in y.gov.born && y.gov.born[a].ticket < |y.gov.born.Keys|
    ensures InTicketOrder(y'.jobs, y'.gov.born)
  {
    forall i, j | 0 <= i < j < |y'.jobs| ensures Before(y'.gov.born, y'.jobs[i], y'.jobs[j]) {
      assert y.jobs[i] in y.jobs;
      if j < |y.jobs| {
        assert Before(y.gov.born, y.jobs[i], y.jobs[j]);
      }
    }
  }

  lemma JobAddedBehind(y: System, y': System, id: string, a: string, b: string)
    requires JobAdded(y, y', id) && a in y.gov.born && y.gov.born[a].ticket < |y.gov.born.Keys|
    requires b in y'.jobs && (b in y.jobs ==> Before(y.gov.born, a, b))
    ensures Before(y'.gov.born, a, b)
  {
  }

  /** Taking the oldest job off the queue. */
  lemma TailJobs(jobs: seq<string>, born: map<string, Birth>)
    requires jobs != [] && InTicketOrder(jobs, born)
    ensures InTicketOrder(jobs[1..], born)
    ensures forall x :: x in jobs[1..] <==> x in jobs && x != jobs[0]
    ensures forall b :: b in jobs[1..] ==> Before(born, jobs[0], b)
  {
    forall x ensures x in jobs[1..] ==> x in jobs && Before(born, jobs[0], x) && x != jobs[0] {
      if j :| 0 <= j < |jobs[1..]| && jobs[1..][j] == x {
        assert jobs[j + 1] == x;
      }
    }
    forall x | x in jobs && x != jobs[0] ensures x in jobs[1..] {
      var i :| 0 <= i < |jobs| && jobs[i] == x;
      assert jobs[1..][i - 1] == x;
    }
  }

  lemma StartOk(y: System)
    requires PoolOk(y)
    ensures PoolOk(Next(y, ThreadStart))
  {
    if !CanStart(y) {
      return;
    }
    hide InTicketOrder, Before, Next;
    StartNext(y);
    TailJobs(y.jobs, y.gov.born);
    assert y.jobs[0] in y.jobs;
    MoreAtWork(y, y.jobs[0]);
  }

  lemma StartNext(y: System)
    requires CanStart(y)
    ensures Next(y, ThreadStart) == y.(jobs := y.jobs[1..], started := y.started + {y.jobs[0]})
  {
  }

  lemma MoreAtWork(y: System, id: string)
    requires y.jobs != []
    ensures |AtWork(y.(jobs := y.jobs[1..], started := y.started + {id}))| <= |AtWork(y)| + 1
  {
    var y' := y.(jobs := y.jobs[1..], started := y.started + {id});
    assert AtWork(y') <= AtWork(y) + {id};
    SubsetSize(AtWork(y'), AtWork(y) + {id});
  }

  /** Waits that are over or called off leave the pool. */
  lemma LeftOk(y: System, y': System, id: string)
    requires PoolOk(y)
    requires y'.workers == y.workers && y'.started == y.started && y'.gov.born == y.gov.born
    requires y'.jobs == Without(y.jobs, id) && y'.polling == y.polling - {id}
    ensures PoolOk(y')
  {
    hide Without, InTicketOrder, Before;
    WithoutMembers(y.jobs, id);
    InTicketOrderWithout(y.jobs, y.gov.born, id);
    LessAtWork(y, y');
  }

  lemma LessAtWork(y: System, y': System)
    requires y'.polling <= y.polling && y'.started == y.started
    ensures |AtWork(y')| <= |AtWork(y)|
  {
    SubsetSize(AtWork(y'), AtWork(y));
  }

  lemma NotQueuedJob(y: System, id: string)
    requires PoolOk(y) && id in y.started
    ensures Without(y.jobs, id) == y.jobs
  {
    WithoutAbsent(y.jobs, id);
  }

  lemma SubmitPool(y: System, base: string, remaining: Option<int>, now: int)
    requires PoolInv(y)
    ensures PoolOk(Next(y, SubmitGlobal(base, remaining, now)))
  {
    if base !in y.pcs || !y.pcs[base].Submitting? {
      return;
    }
    var pc := y.pcs[base];
    var id := GlobalId(base, pc.attempt);
    var y' := Next(y, SubmitGlobal(base, remaining, now));
    UnknownAttempt(y, base);
    hide GlobalId, PoolOk, SysInv;
    SubmitMovesPool(y, base, remaining, now);
    if SamePool(y, y') {
      SamePoolOk(y, y');
    } else {
      JobAddedOk(y, y', id);
    }
  }

  lemma UnknownAttempt(y: System, base: string)
    requires SysInv(y) && base in y.pcs && y.pcs[base].Submitting?
    ensures var id := GlobalId(base, y.pcs[base].attempt); id !in y.gov.born && id !in y.gov.waiters
  {
    hide GlobalId, Inv, Saturated;
    assert RequestOk(y, base) && WaiterOwned(y, GlobalId(base, y.pcs[base].attempt));
    FreshAttempt(y, base);
  }

  lemma SubmitMovesPool(y: System, base: string, remaining: Option<int>, now: int)
    requires base in y.pcs && y.pcs[base].Submitting?
    requires var id := GlobalId(base, y.pcs[base].attempt); id !in y.gov.born && id !in y.gov.waiters
    ensures var y' := Next(y, SubmitGlobal(base, remaining, now));
      SamePool(y, y') || JobAdded(y, y', GlobalId(base, y.pcs[base].attempt))
  {
    hide GlobalId, Submit, Bound, Next;
    StepsUnfold(y);
    var pc := y.pcs[base];
    SubmitBorn(y.gov, pc.target.key, GlobalId(base, pc.attempt), Bound(pc.target), remaining, now);
  }

  lemma SubmitBorn(g: State, key: string, id: string, bound: int, timeout: Option<int>, now: int)
    requires id !in g.born && id !in g.waiters
    ensures var (g', r) := Submit(g, key, id, bound, timeout, now);
      g'.born == if r == Submitted then g.born[id := Birth(key, |g.born.Keys|)] else g.born
  {
    if !Blank(key) && !Blank(id) && bound >= 1 && (timeout.Some? ==> timeout.value > 0) {
      SubmitUnroll(g, key, id, bound, timeout, now);
      RefreshBorn(g, now);
    } else {
      SubmitRefused(g, key, id, bound, timeout, now);
    }
    hide Submit, Refresh, Blank;
  }

  lemma CancelPool(y: System, base: string, now: int)
    requires PoolInv(y)
    ensures PoolOk(Next(y, CancelWait(base, now)))
  {
    if base !in y.pcs || !y.pcs[base].Waiting? {
      return;
    }
    hide GlobalId, Apply, Abandon, Inv, Saturated, PoolOk;
    var id := GlobalId(base, y.pcs[base].attempt);
    var y' := Next(y, CancelWait(base, now));
    EffectUndisturbed(y.gov, OpAbandon(id, now), id);
    if id in y.started {
      NotQueuedJob(y, id);
      SamePoolOk(y, y');
    } else {
      LeftOk(y, y', id);
    }
  }

  lemma PassPool(y: System, id: string, now: int)
    requires PoolInv(y)
    ensures PoolOk(Next(y, ThreadPass(id, now)))
  {
    if id !in y.polling || id !in y.started {
      return;
    }
    hide SysInv, PoolOk, PassStep, Next;
    StepsUnfold(y);
    var y' := PassStep(y, id, now);
    PassMovesPool(y, id, now);
    NotQueuedJob(y, id);
    if y'.polling == y.polling {
      SamePoolOk(y, y');
    } else {
      LeftOk(y, y', id);
    }
  }

  lemma PassMovesPool(y: System, id: string, now: int)
    ensures var y' := PassStep(y, id, now);
      && y'.workers == y.workers && y'.jobs == y.jobs && y'.started == y.started && y'.gov.born == y.gov.born
      && (y'.polling == y.polling || y'.polling == y.polling - {id})
  {
    hide Apply, HandlePhase;
    BornKept(y.gov, OpWait(id, now));
    BornKept(y.gov, OpSnapshot(now));
  }

  lemma BornKept(g: State, op: Op)
    requires !op.OpSubmit?
    ensures Apply(g, op).born == g.born
  {
    EffectUndisturbed(g, op, if op.OpSnapshot? then "" else op.id);
    hide Apply;
  }

  lemma FreedPool(y: System, base: string, pc: Pc, now: int)
    requires PoolInv(y) && base in y.pcs && Holding(y.pcs[base])
    ensures SamePool(y, Freed(y, base, y.pcs[base].attempt, pc, now))
  {
    var id := GlobalId(base, y.pcs[base].attempt);
    hide ReleaseAdmission, Apply, GlobalId, Inv, Saturated;
    assert RequestOk(y, base);
    ReleasesCleanly(y.gov, id, now);
    EffectUndisturbed(y.gov, OpRelease(id, now), id);
  }

  /** The other steps leave the pool alone. */
  lemma OtherPool(y: System, step: Step)
    requires PoolInv(y)
    requires !step.SubmitGlobal? && !step.CancelWait? && !step.ThreadStart? && !step.ThreadPass?
    ensures SamePool(y, Next(y, step))
  {
    hide Freed, GlobalId, Apply, SysInv, PoolOk;
    match step
    case Recheck(base, _, now) =>
      if base in y.pcs && y.pcs[base].Rechecking? {
        FreedPool(y, base, AfterChange(y.pcs[base].attempt), now);
      }
    case Route(base, _, now) =>
      if base in y.pcs && y.pcs[base].Executing? {
        FreedPool(y, base, Done(Answered), now);
        FreedPool(y, base, Done(RouteRaised), now);
        FreedPool(y, base, Done(RouteCancelled), now);
      }
    case StreamOver(base, now) =>
      if base in y.pcs && y.pcs[base].Streaming? {
        FreedPool(y, base, Done(StreamEnded), now);
      }
    case Observe(now) => EffectUndisturbed(y.gov, OpSnapshot(now), "");
    case _ =>
  }

  /** Every step keeps the pool in order. */
  lemma PoolKeeps(y: System, step: Step)
    requires PoolInv(y)
    ensures PoolInv(Next(y, step))
  {
    NextKeeps(y, step);
    hide SysInv, PoolOk, Next;
    match step
    case SubmitGlobal(base, remaining, now) => SubmitPool(y, base, remaining, now);
    case CancelWait(base, now) => CancelPool(y, base, now);
    case ThreadStart => StartOk(y);
    case ThreadPass(id, now) => PassPool(y, id, now);
    case _ =>
      OtherPool(y, step);
      SamePoolOk(y, Next(y, step));
  }

  lemma {:induction false} RunKeepsPool(y: System, steps: seq<Step>)
    requires PoolInv(y)
    ensures PoolInv(Run(y, steps))
    decreases |steps|
  {
    hide PoolInv, Next;
    if steps != [] {
      PoolKeeps(y, steps[0]);
      RunKeepsPool(Next(y, steps[0]), steps[1..]);
    }
  }

  /** From a start with valid limits, every run keeps requests, governor and pool
      in order. */
  lemma EveryRunIsOrderly(maxRunning: int, queueCapacity: int, workers: nat, steps: seq<Step>)
    requires maxRunning >= 1 && queueCapacity >= 1
    ensures PoolInv(Run(Start(maxRunning, queueCapacity, workers), steps))
  {
    EveryRunIsSafe(maxRunning, queueCapacity, workers, []);
    RunKeepsPool(Start(maxRunning, queueCapacity, workers), steps);
  }
}
