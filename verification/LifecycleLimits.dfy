/** A run that leaves a record behind: a request queued behind a full governor is
    cancelled after its deadline and before a worker thread has begun its wait. */
module LifecycleLimits {
  import opened Common
  import opened GovernorState
  import opened GovernorInvariant
  import opened GovernorProgress
  import opened Lifecycle
  import GovernorLimits

  lemma {:induction false} RunAppend(y: System, a: seq<Step>, b: seq<Step>)
    ensures Run(y, a + b) == Run(Run(y, a), b)
    decreases |a|
  {
    hide Next;
    if a == [] {
      assert a + b == b;
    } else {
      assert (a + b)[1..] == a[1..] + b;
      RunAppend(Next(y, a[0]), a[1..], b);
    }
  }

  lemma RunOne(y: System, step: Step)
    ensures Run(y, [step]) == Next(y, step)
  {
    hide Next;
    assert [step][1..] == [];
  }

  /** A text with a character that is not a space is not blank. */
  lemma NotBlank(s: string, i: nat)
    requires i < |s| && !IsSpace(s[i])
    ensures !Blank(s)
  {
    hide TrimLeft, TrimRight, IsSpace;
    SurvivesLeft(s, i);
    SurvivesRight(TrimLeft(s), i - (|s| - |TrimLeft(s)|));
  }

  lemma SurvivesLeft(s: string, i: nat)
    requires i < |s| && !IsSpace(s[i])
    ensures var k := |s| - |TrimLeft(s)|; k <= i && TrimLeft(s)[i - k] == s[i]
  {
    hide TrimLeft, IsSpace;
    var k := |s| - |TrimLeft(s)|;
    assert forall j | 0 <= j < k :: s[..k][j] == s[j] && s[..k][j] in s[..k];
  }

  lemma SurvivesRight(s: string, i: nat)
    requires i < |s| && !IsSpace(s[i])
    ensures i < |TrimRight(s)|
  {
    hide TrimRight, IsSpace;
    var n := |TrimRight(s)|;
    assert forall j | 0 <= j < |s| - n :: s[n..][j] == s[n + j] && s[n..][j] in s[n..];
  }

  lemma IdNotBlank(base: string, attempt: nat)
    ensures !Blank(GlobalId(base, attempt))
  {
    var id := GlobalId(base, attempt);
    assert id[|base|] == '-';
    NotBlank(id, |base|);
  }

  // ---- Behind a full governor ---------------------------------------------------

  ghost predicate Full(g: State) {
    g.inflight == g.maxRunning && QueuedIds(g) == {}
  }

  lemma FullIsQuiet(g: State, now: int)
    requires Full(g)
    ensures Refresh(g, now) == g
  {
    forall id | id in g.waiters ensures g.waiters[id].phase != Queued {
      assert id !in QueuedIds(g);
    }
    assert Expire(g, now).waiters == g.waiters;
  }

  /** A submission to a full governor waits in the queue. */
  lemma FullSubmit(g: State, key: string, id: string, bound: int, timeout: int, now: int)
    requires Full(g) && g.queueCapacity >= 1 && !Blank(key) && !Blank(id) && bound >= 1 && timeout > 0
    requires id !in g.waiters
    ensures Submit(g, key, id, bound, Some(timeout), now)
         == (Enqueue(g, key, id, NewRecord(key, bound, Some(timeout), now)), Submitted)
  {
    FullIsQuiet(g, now);
    hide Blank, Refresh, Enqueue, NewRecord;
    SubmitUnroll(g, key, id, bound, Some(timeout), now);
  }

  lemma QueuedBehind(g: State, key: string, id: string, bound: int, timeout: int, now: int)
    requires Full(g) && g.queueCapacity >= 1 && !Blank(key) && !Blank(id) && bound >= 1 && timeout > 0
    requires id !in g.waiters
    ensures var (g', r) := Submit(g, key, id, bound, Some(timeout), now);
      && r == Submitted && g'.inflight == g'.maxRunning && id in g'.waiters
      && g'.waiters[id].phase == Queued && g'.waiters[id].ExpiredAt(now + timeout)
  {
    FullSubmit(g, key, id, bound, timeout, now);
    hide Submit, Enqueue, Blank;
    EnqueueFields(g, key, id, NewRecord(key, bound, Some(timeout), now));
  }

  lemma FullObserve(g: State, id: string, now: int)
    requires g.inflight == g.maxRunning && id in g.waiters
    requires g.waiters[id].phase == Queued && g.waiters[id].ExpiredAt(now)
    ensures id in Refresh(g, now).waiters && Refresh(g, now).waiters[id].phase == Expired
  {
  }

  /** The request `base` resolves its runtime, submits with `timeout` left, and is
      cancelled when that time is over. */
  function Steps(base: string, target: Target, timeout: int, now: int): seq<Step> {
    [Arrive(base), Resolve(base, Some(target)), Check(base, true), SubmitGlobal(base, Some(timeout), now),
     Observe(now + timeout), CancelWait(base, now + timeout)]
  }

  lemma StepsSplit(base: string, target: Target, timeout: int, now: int)
    ensures Steps(base, target, timeout, now)
         == Entering(base, target) + ([SubmitGlobal(base, Some(timeout), now)]
            + ([Observe(now + timeout)] + [CancelWait(base, now + timeout)]))
  {
  }

  function Entering(base: string, target: Target): seq<Step> {
    [Arrive(base)] + ([Resolve(base, Some(target))] + [Check(base, true)])
  }

  lemma Enters(y: System, base: string, target: Target)
    requires base !in y.pcs
    ensures Run(y, Entering(base, target)) == Goto(y, base, Submitting(0, target))
  {
    var y1 := Next(y, Arrive(base));
    var y2 := Next(y1, Resolve(base, Some(target)));
    var y3 := Next(y2, Check(base, true));
    assert y3.pcs == y.pcs[base := Submitting(0, target)];
    hide Next, Run;
    RunAppend(y, [Arrive(base)], [Resolve(base, Some(target))] + [Check(base, true)]);
    RunAppend(y1, [Resolve(base, Some(target))], [Check(base, true)]);
    RunOne(y, Arrive(base));
    RunOne(y1, Resolve(base, Some(target)));
    RunOne(y2, Check(base, true));
  }

  /** Whenever the governor is full and nobody is queued, a new request can end up
      leaving its record behind for ever. */
  lemma FullLeavesARecord(y: System, base: string, target: Target, timeout: int, now: int)
    requires SysInv(y) && base !in y.pcs && Full(y.gov) && !Blank(target.key) && timeout > 0
    ensures GlobalId(base, 0) in Run(y, Steps(base, target, timeout, now)).leftover
  {
    hide Run, Next, SysInv, Blank;
    var y1 := Goto(y, base, Submitting(0, target));
    Enters(y, base, target);
    var id := GlobalId(base, 0);
    SubmitsBehind(y, base, target, timeout, now);
    var y2 := Next(y1, SubmitGlobal(base, Some(timeout), now));
    var y3 := Next(y2, Observe(now + timeout));
    var y4 := Next(y3, CancelWait(base, now + timeout));
    StepsSplit(base, target, timeout, now);
    var last := [Observe(now + timeout)] + [CancelWait(base, now + timeout)];
    RunAppend(y, Entering(base, target), [SubmitGlobal(base, Some(timeout), now)] + last);
    RunAppend(y1, [SubmitGlobal(base, Some(timeout), now)], last);
    RunAppend(y2, [Observe(now + timeout)], [CancelWait(base, now + timeout)]);
    RunOne(y1, SubmitGlobal(base, Some(timeout), now));
    RunOne(y2, Observe(now + timeout));
    RunOne(y3, CancelWait(base, now + timeout));
    ExpiresUnnoticed(y2, base, now + timeout);
  }

  lemma SubmitsBehind(y: System, base: string, target: Target, timeout: int, now: int)
    requires SysInv(y) && base !in y.pcs && Full(y.gov) && !Blank(target.key) && timeout > 0
    ensures var id := GlobalId(base, 0);
      var y2 := Next(Goto(y, base, Submitting(0, target)), SubmitGlobal(base, Some(timeout), now));
      && base in y2.pcs && y2.pcs[base] == Waiting(0, target) && id !in y2.started
      && y2.gov.inflight == y2.gov.maxRunning && id in y2.gov.waiters
      && y2.gov.waiters[id].phase == Queued && y2.gov.waiters[id].ExpiredAt(now + timeout)
  {
    var id := GlobalId(base, 0);
    var y1 := Goto(y, base, Submitting(0, target));
    assert id !in y.owner by {
      if id in y.owner {
        GlobalIdInjective(base, 0, y.owner[id].base, y.owner[id].attempt);
      }
    }
    assert WaiterOwned(y, id) && Inv(y.gov);
    assert y.gov.queueCapacity >= 1 && id !in y.gov.waiters && id !in y.started;
    IdNotBlank(base, 0);
    hide SysInv, GlobalId, Blank, Inv, Full, Next, Submit;
    QueuedBehind(y.gov, target.key, id, Bound(target), timeout, now);
    hide Bound;
    Accepted(y1, base, target, Some(timeout), now);
  }

  /** An accepted submission takes the request to its wait. */
  lemma Accepted(y: System, base: string, target: Target, remaining: Option<int>, now: int)
    requires base in y.pcs && y.pcs[base] == Submitting(0, target) && (remaining.Some? ==> remaining.value > 0)
    requires Submit(y.gov, target.key, GlobalId(base, 0), Bound(target), remaining, now).1 == Submitted
    ensures var y' := Next(y, SubmitGlobal(base, remaining, now));
      && y'.gov == Submit(y.gov, target.key, GlobalId(base, 0), Bound(target), remaining, now).0
      && y'.pcs == y.pcs[base := Waiting(0, target)] && y'.started == y.started
  {
    hide Submit, GlobalId, Bound;
  }

  lemma ExpiresUnnoticed(y: System, base: string, now: int)
    requires base in y.pcs && y.pcs[base].Waiting?
    requires var id := GlobalId(base, y.pcs[base].attempt);
      && id !in y.started && y.gov.inflight == y.gov.maxRunning && id in y.gov.waiters
      && y.gov.waiters[id].phase == Queued && y.gov.waiters[id].ExpiredAt(now)
    ensures GlobalId(base, y.pcs[base].attempt)
         in Next(Next(y, Observe(now)), CancelWait(base, now)).leftover
  {
    FullObserve(y.gov, GlobalId(base, y.pcs[base].attempt), now);
    hide Refresh, Abandon, GlobalId;
  }

  /** And a full governor is reached by any first request, so the record left behind
      is reached from the start. */
  lemma LeftoverIsReachable(workers: nat, first: string, second: string, target: Target, timeout: int)
    requires first != second && !Blank(target.key) && timeout > 0
    ensures var steps := Entering(first, target) + [SubmitGlobal(first, None, 0)] + Steps(second, target, timeout, 0);
      GlobalId(second, 0) in Run(Start(1, 1, workers), steps).leftover
  {
    hide Run, Next, Blank;
    var y := Start(1, 1, workers);
    var y1 := Goto(y, first, Submitting(0, target));
    var y2 := Next(y1, SubmitGlobal(first, None, 0));
    var begin := Entering(first, target) + [SubmitGlobal(first, None, 0)];
    Enters(y, first, target);
    RunAppend(y, Entering(first, target), [SubmitGlobal(first, None, 0)]);
    RunOne(y1, SubmitGlobal(first, None, 0));
    FirstFills(workers, first, target);
    RunAppend(y, begin, Steps(second, target, timeout, 0));
    EveryRunIsSafe(1, 1, workers, begin);
    FullLeavesARecord(y2, second, target, timeout, 0);
  }

  lemma FirstFills(workers: nat, first: string, target: Target)
    requires !Blank(target.key)
    ensures var y2 := Next(Goto(Start(1, 1, workers), first, Submitting(0, target)), SubmitGlobal(first, None, 0));
      Full(y2.gov) && y2.pcs.Keys == {first}
  {
    var y := Goto(Start(1, 1, workers), first, Submitting(0, target));
    assert y.gov == Init(1, 1) && y.pcs.Keys == {first} && y.pcs[first] == Submitting(0, target);
    assert Bound(target) >= 1;
    IdNotBlank(first, 0);
    hide *;
    FirstAccepted(target.key, GlobalId(first, 0), Bound(target));
    Accepted(y, first, target, None, 0);
  }

  lemma FirstAccepted(key: string, id: string, bound: int)
    requires !Blank(key) && !Blank(id) && bound >= 1
    ensures var (g, r) := Submit(Init(1, 1), key, id, bound, None, 0); r == Submitted && Full(g)
  {
    hide Blank, Submit, Refresh, AdmitAll, Enqueue;
    GovernorLimits.FirstRuns(1, 1, key, id, bound);
    SubmitUnroll(Init(1, 1), key, id, bound, None, 0);
    RefreshEmpty();
    var g := GovernorLimits.Busy(1, 1, key, id, bound);
    assert QueuedIds(g) == {};
    assert id in g.waiters;
  }

  lemma RefreshEmpty()
    ensures Refresh(Init(1, 1), 0).waiters.Keys == {}
  {
  }
}
