/** HTTP admission over the governor, in the configuration without per-runtime
    queues: every request is a small process that tries at most twice to get a
    slot, and the interleaving of requests, of the threads that wait for their
    permits and of cancellations is arbitrary. */
module Lifecycle {
  import opened Common
  import opened GovernorState
  import opened GovernorInvariant
  import opened GovernorProgress

  /** A resolved runtime: its key and its configured concurrency. */
  datatype Target = Target(key: string, configured: int)

  function Bound(t: Target): int {
    if t.configured < 1 then 1 else t.configured
  }

  datatype Ending =
    | Bypassed | TimedOut | Refused(reason: SubmitResult) | WaitFailed | CancelledWaiting
    | ResidencyChanged | Answered | RouteRaised | RouteCancelled | StreamEnded

  /** Where a request is. `attempt` is 0 or 1. */
  datatype Pc =
    | Resolving(attempt: nat)
    | Checking(attempt: nat, target: Target)
    | Submitting(attempt: nat, target: Target)
    | Waiting(attempt: nat, target: Target)
    | Rechecking(attempt: nat, target: Target)
    | Executing(attempt: nat, target: Target)
    | Streaming(attempt: nat, target: Target)
    | Unadmitted
    | Done(ending: Ending)

  /** The id of one attempt of the request with uuid `base`. */
  function GlobalId(base: string, attempt: nat): string {
    base + "-global-" + (if attempt == 0 then "0" else "1")
  }

  datatype Owner = Owner(base: string, attempt: nat)

  /** `polling` are the ids whose wait has been handed to the pool of worker threads
      and is not over. A pool has a fixed number of `workers`; `jobs` are the waits
      that no worker has begun yet, oldest first, `started` those that one has
      begun. `results` is what finished waits returned, `detached` the last phase of
      waiters taken out of the registry by their request. `leftover` is history: the
      ids whose wait was called off before it began when their waiter had already
      expired. */
  datatype System = System(
    gov: State,
    pcs: map<string, Pc>,
    workers: nat,
    jobs: seq<string>,
    polling: set<string>,
    started: set<string>,
    results: map<string, WaitResult>,
    detached: map<string, Phase>,
    owner: map<string, Owner>,
    leftover: set<string>)

  function Start(maxRunning: int, queueCapacity: int, workers: nat): System {
    System(Init(maxRunning, queueCapacity), map[], workers, [], {}, {}, map[], map[], map[], {})
  }

  /** The waits that occupy a worker. */
  function AtWork(y: System): set<string> {
    y.polling * y.started
  }

  datatype RouteResult = Response | StreamResponse | Raise | CancelRoute

  datatype Step =
    | Arrive(base: string)
    | Resolve(base: string, found: Option<Target>)
    | Check(base: string, current: bool)
    | SubmitGlobal(base: string, remaining: Option<int>, now: int)
    | ThreadStart
    | ThreadPass(id: string, now: int)
    | Deliver(base: string)
    | CancelWait(base: string, now: int)
    | Recheck(base: string, current: bool, now: int)
    | Route(base: string, result: RouteResult, now: int)
    | StreamOver(base: string, now: int)
    | RouteUnadmitted(base: string)
    | Observe(now: int)

  function Goto(y: System, base: string, pc: Pc): System {
    y.(pcs := y.pcs[base := pc])
  }

  /** Retry once after a residency change, then give up. */
  function AfterChange(attempt: nat): Pc {
    if attempt == 0 then Resolving(1) else Done(ResidencyChanged)
  }

  /** `release`, and `abandon` if that is refused. */
  function ReleaseAdmission(g: State, id: string, now: int): State {
    if Release(g, id, now).1 == Released then Apply(g, OpRelease(id, now))
    else Apply(Apply(g, OpRelease(id, now)), OpAbandon(id, now))
  }

  function Freed(y: System, base: string, attempt: nat, pc: Pc, now: int): System {
    var id := GlobalId(base, attempt);
    Goto(y, base, pc).(gov := ReleaseAdmission(y.gov, id, now), detached := y.detached[id := Completed])
  }

  function SubmitStep(y: System, base: string, attempt: nat, target: Target, remaining: Option<int>, now: int): System {
    var id := GlobalId(base, attempt);
    if remaining.Some? && remaining.value <= 0 then Goto(y, base, Done(TimedOut))
    else
      var r := Submit(y.gov, target.key, id, Bound(target), remaining, now).1;
      var g := Apply(y.gov, OpSubmit(target.key, id, Bound(target), remaining, now));
      if r == Submitted then
        Goto(y, base, Waiting(attempt, target)).(
          gov := g, jobs := y.jobs + [id], polling := y.polling + {id},
          owner := y.owner[id := Owner(base, attempt)])
      else Goto(y, base, Done(Refused(r))).(gov := g)
  }

  function HandlePhase(y: System, id: string): Option<Phase> {
    if id in y.gov.waiters then Some(y.gov.waiters[id].phase)
    else if id in y.detached then Some(y.detached[id])
    else None
  }

  /** The waiter of `id` is registered and has expired. */
  predicate WaiterExpired(y: System, id: string) {
    id in y.gov.waiters && y.gov.waiters[id].phase == Expired
  }

  /** A waiting request is cancelled. A wait that has not begun is called off with
      it; one that has begun goes on. */
  function CancelStep(y: System, base: string, attempt: nat, now: int): System {
    var id := GlobalId(base, attempt);
    Goto(y, base, Done(CancelledWaiting)).(
      gov := Apply(y.gov, OpAbandon(id, now)),
      jobs := Without(y.jobs, id),
      polling := if id in y.started then y.polling else y.polling - {id},
      detached := if Abandon(y.gov, id, now).1 then y.detached[id := Cancelled] else y.detached,
      leftover := if id !in y.started && WaiterExpired(y, id) then y.leftover + {id} else y.leftover)
  }

  /** A pass of the waiting thread over its own waiter. A thread whose waiter was
      cancelled ends with an error that nobody awaits any more. */
  function PassStep(y: System, id: string, now: int): System {
    match HandlePhase(y, id)
    case Some(Running) =>
      if id in y.gov.waiters && y.gov.waiters[id].startedAt.Some? then
        y.(polling := y.polling - {id}, results := y.results[id := Permit(y.gov.waiters[id].startedAt.value)])
      else y
    case Some(Expired) =>
      y.(gov := Apply(y.gov, OpWait(id, now)), polling := y.polling - {id}, results := y.results[id := WaitTimeout])
    case Some(Cancelled) => y.(polling := y.polling - {id}, results := y.results[id := WaitCancelled])
    case Some(Queued) => y.(gov := Apply(y.gov, OpWait(id, now)))
    case Some(Completed) => y.(gov := Apply(y.gov, OpSnapshot(now)))
    case None => y
  }

  /** A worker is free and a wait has not begun: the oldest is next. */
  predicate CanStart(y: System) {
    y.jobs != [] && |AtWork(y)| < y.workers
  }

  /** One step of the system; a step that is not possible changes nothing. */
  function Next(y: System, step: Step): System {
    match step
    case Arrive(base) => if base in y.pcs then y else Goto(y, base, Resolving(0))
    case Resolve(base, found) =>
      if base in y.pcs && y.pcs[base].Resolving? then
        Goto(y, base, if found.None? then Unadmitted else Checking(y.pcs[base].attempt, found.value))
      else y
    case Check(base, current) =>
      if base in y.pcs && y.pcs[base].Checking? then
        Goto(y, base, if current then Submitting(y.pcs[base].attempt, y.pcs[base].target)
                      else AfterChange(y.pcs[base].attempt))
      else y
    case SubmitGlobal(base, remaining, now) =>
      if base in y.pcs && y.pcs[base].Submitting? then
        SubmitStep(y, base, y.pcs[base].attempt, y.pcs[base].target, remaining, now)
      else y
    case ThreadStart => if CanStart(y) then y.(jobs := y.jobs[1..], started := y.started + {y.jobs[0]}) else y
    case ThreadPass(id, now) => if id in y.polling && id in y.started then PassStep(y, id, now) else y
    case Deliver(base) =>
      if base in y.pcs && y.pcs[base].Waiting? && GlobalId(base, y.pcs[base].attempt) in y.results then
        Goto(y, base, if y.results[GlobalId(base, y.pcs[base].attempt)].Permit?
                      then Rechecking(y.pcs[base].attempt, y.pcs[base].target) else Done(WaitFailed))
      else y
    case CancelWait(base, now) =>
      if base in y.pcs && y.pcs[base].Waiting? then CancelStep(y, base, y.pcs[base].attempt, now) else y
    case Recheck(base, current, now) =>
      if base in y.pcs && y.pcs[base].Rechecking? then
        if current then Goto(y, base, Executing(y.pcs[base].attempt, y.pcs[base].target))
        else Freed(y, base, y.pcs[base].attempt, AfterChange(y.pcs[base].attempt), now)
      else y
    case Route(base, result, now) =>
      if base in y.pcs && y.pcs[base].Executing? then
        match result
        case StreamResponse => Goto(y, base, Streaming(y.pcs[base].attempt, y.pcs[base].target))
        case Response => Freed(y, base, y.pcs[base].attempt, Done(Answered), now)
        case Raise => Freed(y, base, y.pcs[base].attempt, Done(RouteRaised), now)
        case CancelRoute => Freed(y, base, y.pcs[base].attempt, Done(RouteCancelled), now)
      else y
    case StreamOver(base, now) =>
      if base in y.pcs && y.pcs[base].Streaming? then Freed(y, base, y.pcs[base].attempt, Done(StreamEnded), now)
      else y
    case RouteUnadmitted(base) =>
      if base in y.pcs && y.pcs[base].Unadmitted? then Goto(y, base, Done(Bypassed)) else y
    case Observe(now) => y.(gov := Apply(y.gov, OpSnapshot(now)))
  }

  function Run(y: System, steps: seq<Step>): System
    decreases |steps|
  {
    if steps == [] then y else Run(Next(y, steps[0]), steps[1..])
  }

  lemma StepsUnfold(y: System)
    ensures forall base, remaining, now :: base in y.pcs && y.pcs[base].Submitting? ==>
      Next(y, SubmitGlobal(base, remaining, now))
      == SubmitStep(y, base, y.pcs[base].attempt, y.pcs[base].target, remaining, now)
    ensures forall id, now :: id in y.polling && id in y.started ==>
      Next(y, ThreadPass(id, now)) == PassStep(y, id, now)
  {
    hide SubmitStep, PassStep;
  }

  // ---- The invariant -----------------------------------------------------

  predicate Holding(pc: Pc) {
    pc.Rechecking? || pc.Executing? || pc.Streaming?
  }

  /** The first attempt of a request that has not been submitted yet. */
  function NextAttempt(pc: Pc): nat {
    if pc.Resolving? || pc.Checking? || pc.Submitting? then pc.attempt
    else if pc.Waiting? || Holding(pc) then pc.attempt + 1
    else 2
  }

  /** A registered waiter belongs to a request that knows about it, or its
      thread is still there to clear it away. */
  ghost predicate WaiterOwned(y: System, id: string) {
    id in y.gov.waiters ==>
      var w := y.gov.waiters[id];
      && id in y.owner && y.owner[id].base in y.pcs
      && var o := y.owner[id];
        var pc := y.pcs[o.base];
        && (w.phase == Queued ==> pc.Waiting? && pc.attempt == o.attempt && id in y.polling)
        && (w.phase == Running ==> (pc.Waiting? || Holding(pc)) && pc.attempt == o.attempt)
        && (w.phase == Expired ==> id in y.polling || id in y.leftover)
  }

  /** The wait of `id` is over and returned a permit for a running waiter, or
      a timeout. */
  ghost predicate WaitReturned(y: System, id: string) {
    && id in y.results
    && (y.results[id].Permit? || y.results[id].WaitTimeout?)
    && (y.results[id].Permit? ==> id in y.gov.waiters && y.gov.waiters[id].phase == Running)
    && (y.results[id].WaitTimeout? ==> id !in y.gov.waiters)
  }

  /** What a request may rely on where it is. */
  ghost predicate RequestOk(y: System, base: string) {
    base in y.pcs ==>
      var pc := y.pcs[base];
      && (pc.Resolving? || pc.Checking? || pc.Submitting? || pc.Waiting? || Holding(pc) ==> pc.attempt < 2)
      && (pc.Waiting? || Holding(pc) ==>
        var id := GlobalId(base, pc.attempt);
        && id in y.owner && y.owner[id] == Owner(base, pc.attempt)
        && (Holding(pc) ==> id in y.gov.waiters && y.gov.waiters[id].phase == Running)
        && (pc.Waiting? && id in y.polling ==> id in y.gov.waiters)
        && (pc.Waiting? && id !in y.polling ==> WaitReturned(y, id)))
  }

  /** A waiting thread has a waiter that will end the wait: registered, or
      cancelled by its request; and its request waits for it or has gone. */
  ghost predicate ThreadOk(y: System, id: string) {
    id in y.polling ==>
      && id in y.owner && id !in y.results
      && (id in y.gov.waiters || (id in y.detached && y.detached[id] == Cancelled))
      && y.owner[id].base in y.pcs
      && var pc := y.pcs[y.owner[id].base];
        pc.Done? || (pc.Waiting? && pc.attempt == y.owner[id].attempt)
  }

  /** A leftover record is expired, nobody waits for it and its request is over. */
  ghost predicate LeftoverOk(y: System, id: string) {
    id in y.leftover ==>
      && WaiterExpired(y, id) && id !in y.polling
      && id in y.owner && y.owner[id].base in y.pcs && y.pcs[y.owner[id].base].Done?
  }

  /** Which ids have been submitted. */
  ghost predicate Numbered(y: System) {
    && y.gov.born.Keys == y.owner.Keys
    && (forall id :: id in y.owner ==>
      && id == GlobalId(y.owner[id].base, y.owner[id].attempt)
      && y.owner[id].attempt < 2
      && y.owner[id].base in y.pcs
      && y.owner[id].attempt < NextAttempt(y.pcs[y.owner[id].base]))
    && y.results.Keys <= y.owner.Keys && y.started <= y.owner.Keys
    && (forall id :: id in y.jobs ==> id in y.owner)
  }

  ghost predicate SysInv(y: System) {
    && Inv(y.gov) && Saturated(y.gov)
    && Numbered(y)
    && (forall id :: WaiterOwned(y, id))
    && (forall base :: RequestOk(y, base))
    && (forall id :: ThreadOk(y, id))
    && (forall id :: LeftoverOk(y, id))
  }

  // ---- Ids ---------------------------------------------------------------

  lemma GlobalIdInjective(base: string, attempt: nat, base': string, attempt': nat)
    requires attempt < 2 && attempt' < 2
    ensures GlobalId(base, attempt) == GlobalId(base', attempt') <==> base == base' && attempt == attempt'
  {
    var a, b := GlobalId(base, attempt), GlobalId(base', attempt');
    assert a[|a| - 1] == (if attempt == 0 then '0' else '1');
    assert b[|b| - 1] == (if attempt' == 0 then '0' else '1');
    assert a[..|a| - 9] == base && b[..|b| - 9] == base';
  }

  // ---- What governor operations do to other requests' waiters -------------

  /** From `g` to `g'` nothing was born; all waiters but `id` are kept and only
      move forward. */
  ghost predicate Undisturbed(g: State, g': State, id: string) {
    && g'.born == g.born
    && (forall x :: x in g.waiters && x != id ==> x in g'.waiters)
    && (forall x :: x in g'.waiters ==> x in g.waiters && Advanced(g.waiters[x], g'.waiters[x]))
  }

  lemma AdmitUndisturbed(g: State, g1: State, id: string, now: int)
    requires g1.born == g.born && g.waiters - {id} == g1.waiters - {id} && g1.waiters.Keys <= g.waiters.Keys
    requires id in g1.waiters ==> g1.waiters[id] == g.waiters[id]
    ensures Undisturbed(g, AdmitAll(g1, now), id)
  {
    AdmitAllAdvances(g1, now);
    var g' := AdmitAll(g1, now);
    forall x | x in g.waiters && x != id ensures x in g1.waiters && g1.waiters[x] == g.waiters[x] {
      assert x in g.waiters - {id};
      assert (g.waiters - {id})[x] == (g1.waiters - {id})[x];
    }
  }

  lemma RefreshUndisturbed(g: State, id: string, now: int)
    ensures Undisturbed(g, Refresh(g, now), id)
  {
    RefreshAdvances(g, now);
    RefreshBorn(g, now);
    hide Refresh;
  }

  /** The operations other than `submit`, seen from the other requests. */
  lemma OpUndisturbed(g: State, op: Op, id: string)
    requires Inv(g) && Saturated(g) && !op.OpSubmit? && (!op.OpSnapshot? ==> op.id == id)
    ensures Undisturbed(g, Apply(g, op), id) && Inv(Apply(g, op)) && Saturated(Apply(g, op))
  {
    ApplyKeeps(g, op);
    ApplySaturates(g, op);
    EffectUndisturbed(g, op, id);
    hide Inv, Saturated, Apply, Undisturbed;
  }

  lemma EffectUndisturbed(g: State, op: Op, id: string)
    requires !op.OpSubmit? && (!op.OpSnapshot? ==> op.id == id)
    ensures Undisturbed(g, Apply(g, op), id)
  {
    hide AdmitAll, Refresh;
    match op
    case OpSnapshot(now) => RefreshUndisturbed(g, id, now);
    case OpWait(_, now) =>
      RefreshUndisturbed(g, id, now);
    case OpAbandon(_, now) =>
      if id in g.waiters {
        AdmitUndisturbed(g, Discard(g, id), id, now);
        AdmitUndisturbed(g, Unrun(g, id, g.waiters[id].key), id, now);
        hide Undisturbed, Unrun, Discard;
      }
    case OpRelease(_, now) =>
      if id in g.waiters {
        AdmitUndisturbed(g, Unrun(g, id, g.waiters[id].key), id, now);
        hide Undisturbed, Unrun;
      }
  }

  lemma SubmitRefused(g: State, key: string, id: string, bound: int, timeout: Option<int>, now: int)
    requires Blank(key) || Blank(id) || bound < 1 || (timeout.Some? && timeout.value <= 0) || id in g.waiters
    ensures Submit(g, key, id, bound, timeout, now).0 == g && Submit(g, key, id, bound, timeout, now).1 != Submitted
  {
    hide Refresh, AdmitAll, Blank;
  }

  /** From `g` to `g'` only `id` may be new; the others are kept. */
  ghost predicate OnlyNew(g: State, g': State, id: string) {
    && (forall x :: x in g.waiters ==> x in g'.waiters && Advanced(g.waiters[x], g'.waiters[x]))
    && (forall x :: x in g'.waiters && x != id ==> x in g.waiters)
  }

  /** A submission, seen from the other requests. */
  lemma SubmitUndisturbed(g: State, key: string, id: string, bound: int, timeout: Option<int>, now: int)
    requires id !in g.born && id !in g.waiters
    ensures var (g', r) := Submit(g, key, id, bound, timeout, now);
      && OnlyNew(g, g', id)
      && g'.born.Keys == g.born.Keys + (if r == Submitted then {id} else {})
      && (id in g'.waiters <==> r == Submitted)
  {
    if !Blank(key) && !Blank(id) && bound >= 1 && (timeout.Some? ==> timeout.value > 0) {
      SubmitUnroll(g, key, id, bound, timeout, now);
      AcceptedOnlyNew(g, key, id, NewRecord(key, bound, timeout, now), now);
      RefreshOnlyNew(g, id, now);
      RefreshBorn(g, now);
    } else {
      SubmitRefused(g, key, id, bound, timeout, now);
    }
    hide Submit, Blank, AdmitAll, Refresh, Enqueue, NewRecord;
  }

  lemma RefreshOnlyNew(g: State, id: string, now: int)
    ensures OnlyNew(g, Refresh(g, now), id)
  {
    RefreshAdvances(g, now);
    hide Refresh;
  }

  lemma AcceptedOnlyNew(g: State, key: string, id: string, w: Record, now: int)
    requires id !in g.waiters
    ensures var g' := AdmitAll(Enqueue(Refresh(g, now), key, id, w), now);
      && OnlyNew(g, g', id)
      && g'.born.Keys == g.born.Keys + {id} && id in g'.waiters
  {
    RefreshAdvances(g, now);
    RefreshBorn(g, now);
    EnqueueUndisturbed(Refresh(g, now), key, id, w, now);
    hide AdmitAll, Refresh, Enqueue, Advanced;
    OnlyNewChain(g, Refresh(g, now), AdmitAll(Enqueue(Refresh(g, now), key, id, w), now), id);
  }

  lemma OnlyNewChain(g: State, s1: State, g': State, id: string)
    requires AllAdvanced(g, s1)
    requires g'.waiters.Keys == s1.waiters.Keys + {id}
    requires forall x :: x in s1.waiters ==> Advanced(s1.waiters[x], g'.waiters[x])
    ensures OnlyNew(g, g', id)
  {
    forall x | x in g.waiters ensures x in g'.waiters && Advanced(g.waiters[x], g'.waiters[x]) {
      AdvancedChain(g.waiters[x], s1.waiters[x], g'.waiters[x]);
    }
  }

  lemma EnqueueUndisturbed(s1: State, key: string, id: string, w: Record, now: int)
    requires id !in s1.waiters
    ensures var g' := AdmitAll(Enqueue(s1, key, id, w), now);
      && g'.waiters.Keys == s1.waiters.Keys + {id}
      && (forall x :: x in s1.waiters ==> Advanced(s1.waiters[x], g'.waiters[x]))
      && g'.born.Keys == s1.born.Keys + {id}
  {
    AdmitAllAdvances(Enqueue(s1, key, id, w), now);
    hide AdmitAll;
  }

  lemma AdvancedChain(a: Record, b: Record, c: Record)
    requires Advanced(a, b) && Advanced(b, c)
    ensures Advanced(a, c)
  {
  }

  // ---- A step concerns one request and one id ----------------------------

  ghost predicate Owned(y: System) {
    && Numbered(y)
    && (forall id :: WaiterOwned(y, id))
    && (forall base :: RequestOk(y, base))
    && (forall id :: ThreadOk(y, id))
    && (forall id :: LeftoverOk(y, id))
  }

  /** From `y` to `y'` only request `base` moves, and threads, results and the
      record of detached waiters change at most at its current id. */
  ghost predicate Concerns(y: System, y': System, base: string, id: string) {
    && base in y.pcs && base in y'.pcs && y'.pcs == y.pcs[base := y'.pcs[base]]
    && y'.owner == y.owner
    && (id in y.owner ==> y.owner[id].base == base)
    && (y.pcs[base].Waiting? || Holding(y.pcs[base]) ==> id == GlobalId(base, y.pcs[base].attempt))
    && NextAttempt(y.pcs[base]) <= NextAttempt(y'.pcs[base])
    && (forall x :: x != id ==> (x in y.polling <==> x in y'.polling))
    && (forall x :: x != id ==> (x in y.leftover <==> x in y'.leftover))
    && y'.started <= y.owner.Keys && (forall x :: x in y'.jobs ==> x in y.owner)
    && (forall x :: x != id ==> (x in y.results <==> x in y'.results))
    && (forall x :: x != id && x in y.results ==> y'.results[x] == y.results[x])
    && (forall x :: x != id && x in y.detached ==> x in y'.detached && y'.detached[x] == y.detached[x])
    && y'.results.Keys <= y.owner.Keys
  }

  lemma OtherWaiters(y: System, y': System, base: string, id: string, x: string)
    requires Owned(y) && Concerns(y, y', base, id) && Undisturbed(y.gov, y'.gov, id) && x != id
    ensures WaiterOwned(y', x)
  {
    assert WaiterOwned(y, x);
    if x in y'.gov.waiters {
      assert Advanced(y.gov.waiters[x], y'.gov.waiters[x]);
      assert x == GlobalId(y.owner[x].base, y.owner[x].attempt);
    }
  }

  lemma OtherLeftovers(y: System, y': System, base: string, id: string, x: string)
    requires Owned(y) && Concerns(y, y', base, id) && Undisturbed(y.gov, y'.gov, id) && x != id
    requires y.pcs[base].Done? ==> y'.pcs[base].Done?
    ensures LeftoverOk(y', x)
  {
    assert LeftoverOk(y, x);
    if x in y'.leftover {
      assert Advanced(y.gov.waiters[x], y'.gov.waiters[x]);
    }
  }

  lemma OtherThreads(y: System, y': System, base: string, id: string, x: string)
    requires Owned(y) && Concerns(y, y', base, id) && Undisturbed(y.gov, y'.gov, id) && x != id
    requires y.pcs[base].Done? ==> y'.pcs[base].Done?
    ensures ThreadOk(y', x)
  {
    assert ThreadOk(y, x);
    if x in y'.polling {
      assert x == GlobalId(y.owner[x].base, y.owner[x].attempt);
    }
  }

  lemma OtherRequests(y: System, y': System, base: string, id: string, b: string)
    requires Owned(y) && Concerns(y, y', base, id) && Undisturbed(y.gov, y'.gov, id) && b != base
    ensures RequestOk(y', b)
  {
    assert RequestOk(y, b);
    if b in y'.pcs && (y.pcs[b].Waiting? || Holding(y.pcs[b])) {
      var x := GlobalId(b, y.pcs[b].attempt);
      assert x != id;
      if x in y.gov.waiters {
        assert x in y'.gov.waiters && Advanced(y.gov.waiters[x], y'.gov.waiters[x]);
      }
    }
  }

  lemma StillNumbered(y: System, y': System, base: string, id: string)
    requires Numbered(y) && Concerns(y, y', base, id) && y'.gov.born == y.gov.born
    ensures Numbered(y')
  {
  }

  /** It suffices to look at the request and the id a step concerns. */
  lemma LocalStep(y: System, y': System, base: string, id: string)
    requires Owned(y) && Concerns(y, y', base, id) && Undisturbed(y.gov, y'.gov, id)
    requires y.pcs[base].Done? ==> y'.pcs[base].Done?
    requires WaiterOwned(y', id) && ThreadOk(y', id) && LeftoverOk(y', id) && RequestOk(y', base)
    ensures Owned(y')
  {
    StillNumbered(y, y', base, id);
    forall x ensures WaiterOwned(y', x) && ThreadOk(y', x) && LeftoverOk(y', x) {
      if x != id {
        OtherWaiters(y, y', base, id, x);
        OtherThreads(y, y', base, id, x);
        OtherLeftovers(y, y', base, id, x);
      }
    }
    forall b ensures RequestOk(y', b) {
      if b != base {
        OtherRequests(y, y', base, id, b);
      }
    }
  }

  lemma NothingHappens(g: State, id: string)
    ensures Undisturbed(g, g, id)
  {
  }

  /** A request that holds no id moves on without touching the governor. */
  lemma MoveKeeps(y: System, base: string, pc: Pc)
    requires Owned(y) && base in y.pcs
    requires y.pcs[base].Resolving? || y.pcs[base].Checking? || y.pcs[base].Submitting?
    requires pc.Done? || pc.Unadmitted?
      || ((pc.Resolving? || pc.Checking? || pc.Submitting?) && y.pcs[base].attempt <= pc.attempt < 2)
    ensures Owned(Goto(y, base, pc))
  {
    var id := GlobalId(base, y.pcs[base].attempt);
    var y' := Goto(y, base, pc);
    assert RequestOk(y, base) && ThreadOk(y, id) && WaiterOwned(y, id) && LeftoverOk(y, id);
    assert id !in y.owner by {
      if id in y.owner {
        GlobalIdInjective(base, y.pcs[base].attempt, y.owner[id].base, y.owner[id].attempt);
      }
    }
    NothingHappens(y.gov, id);
    LocalStep(y, y', base, id);
  }

  lemma UnadmittedKeeps(y: System, base: string)
    requires Owned(y) && base in y.pcs && y.pcs[base].Unadmitted?
    ensures Owned(Goto(y, base, Done(Bypassed)))
  {
    var y' := Goto(y, base, Done(Bypassed));
    forall id ensures WaiterOwned(y', id) && ThreadOk(y', id) && LeftoverOk(y', id) {
      assert WaiterOwned(y, id) && ThreadOk(y, id) && LeftoverOk(y, id);
    }
    forall b ensures RequestOk(y', b) {
      assert RequestOk(y, b);
    }
  }

  lemma ArriveKeeps(y: System, base: string)
    requires Owned(y) && base !in y.pcs
    ensures Owned(Goto(y, base, Resolving(0)))
  {
    var y' := Goto(y, base, Resolving(0));
    forall id ensures WaiterOwned(y', id) && ThreadOk(y', id) && LeftoverOk(y', id) {
      assert WaiterOwned(y, id) && ThreadOk(y, id) && LeftoverOk(y, id);
    }
    forall b ensures RequestOk(y', b) {
      assert RequestOk(y, b);
    }
  }

  /** A request in possession of its running waiter gives the slot back. */
  lemma FreedKeeps(y: System, base: string, pc: Pc, now: int)
    requires Inv(y.gov) && Saturated(y.gov) && Owned(y)
    requires base in y.pcs && Holding(y.pcs[base])
    requires pc.Done? || (pc == Resolving(1) && y.pcs[base].attempt == 0)
    ensures var y' := Freed(y, base, y.pcs[base].attempt, pc, now);
      Inv(y'.gov) && Saturated(y'.gov) && Owned(y')
  {
    var id := GlobalId(base, y.pcs[base].attempt);
    assert RequestOk(y, base);
    ReleasesCleanly(y.gov, id, now);
    OpUndisturbed(y.gov, OpRelease(id, now), id);
    hide Inv, Saturated, Undisturbed, Release, Apply, Owned, RequestOk;
    FreedLocal(y, Apply(y.gov, OpRelease(id, now)), base, pc);
  }

  lemma FreedLocal(y: System, g: State, base: string, pc: Pc)
    requires Owned(y) && base in y.pcs && Holding(y.pcs[base])
    requires pc.Done? || (pc == Resolving(1) && y.pcs[base].attempt == 0)
    requires var id := GlobalId(base, y.pcs[base].attempt); Undisturbed(y.gov, g, id) && id !in g.waiters
    ensures var id := GlobalId(base, y.pcs[base].attempt);
      Owned(Goto(y, base, pc).(gov := g, detached := y.detached[id := Completed]))
  {
    var id := GlobalId(base, y.pcs[base].attempt);
    var y' := Goto(y, base, pc).(gov := g, detached := y.detached[id := Completed]);
    assert RequestOk(y, base) && ThreadOk(y, id) && LeftoverOk(y, id);
    assert id !in y.polling;
    assert Concerns(y, y', base, id);
    hide Undisturbed, Owned;
    LocalStep(y, y', base, id);
  }

  lemma ReleasesCleanly(g: State, id: string, now: int)
    requires id in g.waiters && g.waiters[id].phase == Running
    ensures Release(g, id, now).1 == Released
    ensures ReleaseAdmission(g, id, now) == Apply(g, OpRelease(id, now))
    ensures id !in Apply(g, OpRelease(id, now)).waiters
  {
  }

  lemma SubmitStepKeeps(y: System, base: string, remaining: Option<int>, now: int)
    requires Inv(y.gov) && Saturated(y.gov) && Owned(y)
    requires base in y.pcs && y.pcs[base].Submitting?
    ensures var y' := SubmitStep(y, base, y.pcs[base].attempt, y.pcs[base].target, remaining, now);
      Inv(y'.gov) && Saturated(y'.gov) && Owned(y')
  {
    hide Inv, Saturated, Submit, OnlyNew, GlobalId;
    var id := GlobalId(base, y.pcs[base].attempt);
    assert RequestOk(y, base) && WaiterOwned(y, id);
    FreshAttempt(y, base);
    if remaining.Some? && remaining.value <= 0 {
      MoveKeeps(y, base, Done(TimedOut));
    } else {
      SubmitGov(y.gov, y.pcs[base].target.key, id, Bound(y.pcs[base].target), remaining, now);
      hide Owned;
      SubmittedOwned(y, SubmitStep(y, base, y.pcs[base].attempt, y.pcs[base].target, remaining, now), base, id);
    }
  }

  lemma SubmitGov(g: State, key: string, id: string, bound: int, remaining: Option<int>, now: int)
    requires Inv(g) && Saturated(g) && id !in g.born && id !in g.waiters
    ensures var g', r := Submit(g, key, id, bound, remaining, now).0, Submit(g, key, id, bound, remaining, now).1;
      && Inv(g') && Saturated(g') && OnlyNew(g, g', id)
      && g'.born.Keys == g.born.Keys + (if r == Submitted then {id} else {})
      && (id in g'.waiters <==> r == Submitted)
      && (id in g'.waiters ==> g'.waiters[id].phase in {Queued, Running, Expired})
  {
    SubmitKeeps(g, key, id, bound, remaining, now);
    SubmitSaturates(g, key, id, bound, remaining, now);
    SubmitUndisturbed(g, key, id, bound, remaining, now);
    if id in Submit(g, key, id, bound, remaining, now).0.waiters {
      RegisteredPhase(Submit(g, key, id, bound, remaining, now).0, id);
    }
    hide Inv, Saturated, Submit, OnlyNew;
  }

  lemma FreshAttempt(y: System, base: string)
    requires Numbered(y) && base in y.pcs && y.pcs[base].Submitting? && y.pcs[base].attempt < 2
    ensures GlobalId(base, y.pcs[base].attempt) !in y.owner
  {
    var id := GlobalId(base, y.pcs[base].attempt);
    if id in y.owner {
      GlobalIdInjective(base, y.pcs[base].attempt, y.owner[id].base, y.owner[id].attempt);
    }
  }

  /** After a submission every waiter is still accounted for. */
  lemma SubmittedOwned(y: System, y': System, base: string, id: string)
    requires Owned(y) && AfterSubmit(y, y', base, id)
    ensures Owned(y')
  {
    SubmittedNumbered(y, y', base, id);
    forall x ensures WaiterOwned(y', x) {
      SubmittedWaiter(y, y', base, id, x);
    }
    forall x ensures ThreadOk(y', x) && LeftoverOk(y', x) {
      SubmittedThread(y, y', base, id, x);
    }
    forall b ensures RequestOk(y', b) {
      SubmittedRequest(y, y', base, id, b);
    }
  }

  ghost predicate AfterSubmit(y: System, y': System, base: string, id: string) {
    && base in y.pcs && y.pcs[base].Submitting? && y.pcs[base].attempt < 2
    && id == GlobalId(base, y.pcs[base].attempt) && id !in y.owner
    && OnlyNew(y.gov, y'.gov, id)
    && y'.results == y.results && y'.detached == y.detached
    && y'.started == y.started && y'.leftover == y.leftover
    && (|| (&& y'.pcs == y.pcs[base := Waiting(y.pcs[base].attempt, y.pcs[base].target)]
            && y'.polling == y.polling + {id} && (forall x :: x in y'.jobs ==> x in y.jobs || x == id)
            && y'.owner == y.owner[id := Owner(base, y.pcs[base].attempt)]
            && id in y'.gov.waiters && y'.gov.born.Keys == y.gov.born.Keys + {id})
        || (&& base in y'.pcs && y'.pcs == y.pcs[base := y'.pcs[base]] && y'.pcs[base].Done? && y'.polling == y.polling
            && y'.owner == y.owner && y'.jobs == y.jobs
            && id !in y'.gov.waiters && y'.gov.born.Keys == y.gov.born.Keys))
    && (id in y'.gov.waiters ==> y'.gov.waiters[id].phase in {Queued, Running, Expired})
  }

  lemma SubmittedNumbered(y: System, y': System, base: string, id: string)
    requires Numbered(y) && AfterSubmit(y, y', base, id)
    ensures Numbered(y')
  {
    hide OnlyNew, GlobalId;
  }

  lemma SubmittedWaiter(y: System, y': System, base: string, id: string, x: string)
    requires Owned(y) && AfterSubmit(y, y', base, id)
    ensures WaiterOwned(y', x)
  {
    assert WaiterOwned(y, x);
  }

  lemma SubmittedThread(y: System, y': System, base: string, id: string, x: string)
    requires Owned(y) && AfterSubmit(y, y', base, id)
    ensures ThreadOk(y', x) && LeftoverOk(y', x)
  {
    assert ThreadOk(y, x) && LeftoverOk(y, x);
  }

  lemma SubmittedRequest(y: System, y': System, base: string, id: string, b: string)
    requires Owned(y) && AfterSubmit(y, y', base, id)
    ensures RequestOk(y', b)
  {
    assert RequestOk(y, b);
    if b != base && b in y.pcs && (y.pcs[b].Waiting? || Holding(y.pcs[b])) {
      assert GlobalId(b, y.pcs[b].attempt) in y.owner;
    }
  }

  /** A permit is delivered, or an executing request goes on to stream. */
  lemma AdvanceKeeps(y: System, base: string, pc: Pc)
    requires Owned(y) && base in y.pcs
    requires Holding(y.pcs[base])
      || (y.pcs[base].Waiting?
          && var id := GlobalId(base, y.pcs[base].attempt); id in y.results && y.results[id].Permit?)
    requires Holding(pc) && pc.attempt == y.pcs[base].attempt
    ensures Owned(Goto(y, base, pc))
  {
    var id := GlobalId(base, y.pcs[base].attempt);
    assert RequestOk(y, base) && ThreadOk(y, id) && WaiterOwned(y, id) && LeftoverOk(y, id);
    assert id !in y.polling;
    NothingHappens(y.gov, id);
    hide Owned, Undisturbed;
    LocalStep(y, Goto(y, base, pc), base, id);
  }

  /** The wait failed: nothing of the request is left in the registry. */
  lemma FailKeeps(y: System, base: string)
    requires Owned(y) && base in y.pcs && y.pcs[base].Waiting?
    requires var id := GlobalId(base, y.pcs[base].attempt); id in y.results && !y.results[id].Permit?
    ensures Owned(Goto(y, base, Done(WaitFailed)))
  {
    var id := GlobalId(base, y.pcs[base].attempt);
    assert RequestOk(y, base) && ThreadOk(y, id) && WaiterOwned(y, id) && LeftoverOk(y, id);
    NothingHappens(y.gov, id);
    hide Owned, Undisturbed;
    LocalStep(y, Goto(y, base, Done(WaitFailed)), base, id);
  }

  lemma CancelEffect(g: State, id: string, now: int)
    requires id in g.waiters ==> g.waiters[id].phase in {Queued, Running, Expired}
    ensures Abandon(g, id, now).1 ==>
      id !in Apply(g, OpAbandon(id, now)).waiters && id in g.waiters && g.waiters[id].phase != Expired
    ensures !Abandon(g, id, now).1 ==>
      Apply(g, OpAbandon(id, now)) == g && (id in g.waiters ==> g.waiters[id].phase == Expired)
  {
    hide AdmitAll;
  }

  /** A waiting request is cancelled; its thread may go on for a while. */
  lemma CancelKeeps(y: System, base: string, now: int)
    requires Inv(y.gov) && Saturated(y.gov) && Owned(y)
    requires base in y.pcs && y.pcs[base].Waiting?
    ensures var y' := Next(y, CancelWait(base, now));
      Inv(y'.gov) && Saturated(y'.gov) && Owned(y')
  {
    hide Inv, Saturated, Undisturbed, Abandon, Apply, Owned, Without, GlobalId;
    var id := GlobalId(base, y.pcs[base].attempt);
    OpUndisturbed(y.gov, OpAbandon(id, now), id);
    if id in y.gov.waiters {
      RegisteredPhase(y.gov, id);
    }
    CancelEffect(y.gov, id, now);
    WithoutMembers(y.jobs, id);
    CancelLocal(y, Next(y, CancelWait(base, now)), Apply(y.gov, OpAbandon(id, now)), base, Abandon(y.gov, id, now).1);
  }

  lemma CancelLocal(y: System, y': System, g: State, base: string, gone: bool)
    requires Owned(y) && base in y.pcs && y.pcs[base].Waiting?
    requires var id := GlobalId(base, y.pcs[base].attempt);
      && Undisturbed(y.gov, g, id)
      && (gone ==> id !in g.waiters)
      && (gone ==> !WaiterExpired(y, id))
      && (!gone ==> g == y.gov && (id in g.waiters ==> g.waiters[id].phase == Expired))
    requires y' == Goto(y, base, Done(CancelledWaiting)).(gov := g, jobs := y'.jobs, polling := y'.polling,
                     detached := y'.detached, leftover := y'.leftover)
    requires var id := GlobalId(base, y.pcs[base].attempt);
      && y'.polling == (if id in y.started then y.polling else y.polling - {id})
      && (forall x :: x in y'.jobs ==> x in y.jobs)
      && y'.detached == (if gone then y.detached[id := Cancelled] else y.detached)
      && y'.leftover == (if id !in y.started && WaiterExpired(y, id) then y.leftover + {id} else y.leftover)
    ensures Owned(y')
  {
    var id := GlobalId(base, y.pcs[base].attempt);
    assert RequestOk(y, base) && ThreadOk(y, id) && WaiterOwned(y, id) && LeftoverOk(y, id);
    assert Concerns(y, y', base, id);
    assert ThreadOk(y', id) && WaiterOwned(y', id) && LeftoverOk(y', id) && RequestOk(y', base);
    hide Owned, Undisturbed;
    LocalStep(y, y', base, id);
  }

  lemma SnapshotKeeps(y: System, now: int)
    requires Inv(y.gov) && Saturated(y.gov) && Owned(y)
    ensures var g := Apply(y.gov, OpSnapshot(now)); Inv(g) && Saturated(g) && Owned(y.(gov := g))
  {
    OpUndisturbed(y.gov, OpSnapshot(now), "");
    RefreshBorn(y.gov, now);
    SnapshotAdvances(y.gov, now);
    hide Inv, Saturated, Apply, Owned;
    AdvancedOwned(y, Apply(y.gov, OpSnapshot(now)));
  }

  lemma AdvancedOwned(y: System, g: State)
    requires Owned(y) && AllAdvanced(y.gov, g) && g.born == y.gov.born
    ensures Owned(y.(gov := g))
  {
    var y' := y.(gov := g);
    forall x ensures WaiterOwned(y', x) && ThreadOk(y', x) && LeftoverOk(y', x) {
      assert WaiterOwned(y, x) && ThreadOk(y, x) && LeftoverOk(y, x);
      if x in g.waiters {
        assert Advanced(y.gov.waiters[x], g.waiters[x]);
      }
    }
    forall b ensures RequestOk(y', b) {
      assert RequestOk(y, b);
    }
  }

  lemma SnapshotAdvances(g: State, now: int)
    ensures AllAdvanced(g, Apply(g, OpSnapshot(now)))
  {
    RefreshAdvances(g, now);
  }

  /** A pass by a thread whose waiter is queued is a snapshot. */
  lemma PassQueued(g: State, id: string, now: int)
    requires id in g.waiters && g.waiters[id].phase == Queued
    ensures Apply(g, OpWait(id, now)) == Apply(g, OpSnapshot(now))
  {
    hide Refresh;
  }

  lemma PassExpired(g: State, id: string, now: int)
    requires id in g.waiters && g.waiters[id].phase == Expired
    ensures id !in Apply(g, OpWait(id, now)).waiters
  {
  }

  /** What a pass does depends only on the phase of the waiter; a thread never
      finds a completed waiter, for which its loop would not end. */
  lemma PassKeeps(y: System, id: string, now: int)
    requires Inv(y.gov) && Saturated(y.gov) && Owned(y) && id in y.polling
    ensures var y' := PassStep(y, id, now); Inv(y'.gov) && Saturated(y'.gov) && Owned(y')
    ensures HandlePhase(y, id).Some? && HandlePhase(y, id).value != Completed
  {
    hide Inv, Saturated, Apply;
    assert ThreadOk(y, id);
    if id in y.gov.waiters {
      RegisteredPhase(y.gov, id);
    }
    hide Owned, ThreadOk;
    if id !in y.gov.waiters {
      PassLocal(y, y.gov, id, WaitCancelled);
    } else if y.gov.waiters[id].phase == Queued {
      PassQueuedKeeps(y, id, now);
    } else if y.gov.waiters[id].phase == Running {
      PassRunningKeeps(y, id, now);
    } else {
      PassExpiredKeeps(y, id, now);
    }
  }

  lemma PassQueuedKeeps(y: System, id: string, now: int)
    requires Inv(y.gov) && Saturated(y.gov) && Owned(y) && id in y.polling
    requires id in y.gov.waiters && y.gov.waiters[id].phase == Queued
    ensures var y' := PassStep(y, id, now); Inv(y'.gov) && Saturated(y'.gov) && Owned(y')
  {
    PassQueued(y.gov, id, now);
    hide Inv, Saturated, Owned, Apply;
    SnapshotKeeps(y, now);
  }

  lemma PassRunningKeeps(y: System, id: string, now: int)
    requires Inv(y.gov) && Owned(y) && id in y.polling
    requires id in y.gov.waiters && y.gov.waiters[id].phase == Running
    ensures var y' := PassStep(y, id, now); y'.gov == y.gov && Owned(y')
  {
    RunningStarted(y.gov, id);
    hide Inv, Owned;
    PassLocal(y, y.gov, id, Permit(y.gov.waiters[id].startedAt.value));
  }

  lemma PassExpiredKeeps(y: System, id: string, now: int)
    requires Inv(y.gov) && Saturated(y.gov) && Owned(y) && id in y.polling
    requires id in y.gov.waiters && y.gov.waiters[id].phase == Expired
    ensures var y' := PassStep(y, id, now); Inv(y'.gov) && Saturated(y'.gov) && Owned(y')
  {
    OpUndisturbed(y.gov, OpWait(id, now), id);
    PassExpired(y.gov, id, now);
    hide Inv, Saturated, Owned, Apply, Undisturbed;
    PassLocal(y, Apply(y.gov, OpWait(id, now)), id, WaitTimeout);
  }

  lemma RunningStarted(g: State, id: string)
    requires Inv(g) && id in g.waiters && g.waiters[id].phase == Running
    ensures g.waiters[id].startedAt.Some?
  {
  }

  lemma PassLocal(y: System, g: State, id: string, r: WaitResult)
    requires Owned(y) && id in y.polling
    requires (g == y.gov && id in g.waiters && g.waiters[id].phase == Running && r.Permit?)
      || (Undisturbed(y.gov, g, id) && id in y.gov.waiters && id !in g.waiters && r == WaitTimeout)
      || (g == y.gov && id !in g.waiters && r == WaitCancelled)
    ensures Owned(y.(gov := g, polling := y.polling - {id}, results := y.results[id := r]))
  {
    hide GlobalId;
    var y' := y.(gov := g, polling := y.polling - {id}, results := y.results[id := r]);
    assert ThreadOk(y, id) && WaiterOwned(y, id) && LeftoverOk(y, id);
    var base := y.owner[id].base;
    assert RequestOk(y, base);
    NothingHappens(y.gov, id);
    assert y'.pcs == y.pcs[base := y'.pcs[base]];
    assert Concerns(y, y', base, id);
    assert ThreadOk(y', id) && WaiterOwned(y', id) && LeftoverOk(y', id) && RequestOk(y', base);
    hide Owned, Undisturbed;
    LocalStep(y, y', base, id);
  }

  lemma NextJobOwned(y: System)
    requires Owned(y) && y.jobs != []
    ensures y.jobs[0] in y.owner && forall x :: x in y.jobs[1..] ==> x in y.jobs
  {
  }

  /** A worker thread begins its wait. */
  lemma BeginKeeps(y: System, jobs: seq<string>, id: string)
    requires Owned(y) && id in y.owner && forall x :: x in jobs ==> x in y.jobs
    ensures Owned(y.(jobs := jobs, started := y.started + {id}))
  {
    var y' := y.(jobs := jobs, started := y.started + {id});
    forall x ensures WaiterOwned(y', x) && ThreadOk(y', x) && LeftoverOk(y', x) {
      assert WaiterOwned(y, x) && ThreadOk(y, x) && LeftoverOk(y, x);
    }
    forall b ensures RequestOk(y', b) {
      assert RequestOk(y, b);
    }
  }

  // ---- Every step, every run ---------------------------------------------

  lemma DeliverKeeps(y: System, base: string)
    requires Inv(y.gov) && Owned(y) && base in y.pcs && y.pcs[base].Waiting?
    requires GlobalId(base, y.pcs[base].attempt) in y.results
    ensures Owned(Next(y, Deliver(base)))
  {
    hide Inv, GlobalId;
    var id := GlobalId(base, y.pcs[base].attempt);
    assert RequestOk(y, base) && ThreadOk(y, id) && WaiterOwned(y, id);
    if y.results[id].Permit? {
      AdvanceKeeps(y, base, Rechecking(y.pcs[base].attempt, y.pcs[base].target));
    } else {
      FailKeeps(y, base);
    }
  }

  lemma RouteKeeps(y: System, base: string, result: RouteResult, now: int)
    requires Inv(y.gov) && Saturated(y.gov) && Owned(y) && base in y.pcs && y.pcs[base].Executing?
    ensures var y' := Next(y, Route(base, result, now)); Inv(y'.gov) && Saturated(y'.gov) && Owned(y')
  {
    hide Inv, Saturated, Owned, Freed;
    match result
    case StreamResponse => AdvanceKeeps(y, base, Streaming(y.pcs[base].attempt, y.pcs[base].target));
    case Response => FreedKeeps(y, base, Done(Answered), now);
    case Raise => FreedKeeps(y, base, Done(RouteRaised), now);
    case CancelRoute => FreedKeeps(y, base, Done(RouteCancelled), now);
  }

  lemma RecheckKeeps(y: System, base: string, current: bool, now: int)
    requires Inv(y.gov) && Saturated(y.gov) && Owned(y) && base in y.pcs && y.pcs[base].Rechecking?
    ensures var y' := Next(y, Recheck(base, current, now)); Inv(y'.gov) && Saturated(y'.gov) && Owned(y')
  {
    hide Inv, Saturated, Owned, Freed;
    if current {
      AdvanceKeeps(y, base, Executing(y.pcs[base].attempt, y.pcs[base].target));
    } else {
      FreedKeeps(y, base, AfterChange(y.pcs[base].attempt), now);
    }
  }

  lemma AttemptBelowTwo(y: System, base: string)
    requires Owned(y) && base in y.pcs
    requires y.pcs[base].Resolving? || y.pcs[base].Checking? || y.pcs[base].Submitting?
    ensures y.pcs[base].attempt < 2
  {
    assert RequestOk(y, base);
  }

  /** Before it has submitted anything in this attempt, a request may resolve,
      check, retry or leave. */
  lemma EarlyKeeps(y: System, step: Step)
    requires Owned(y) && (step.Arrive? || step.Resolve? || step.Check? || step.RouteUnadmitted?)
    ensures Owned(Next(y, step)) && Next(y, step).gov == y.gov
  {
    hide Owned;
    if step.base !in y.pcs {
      if step.Arrive? {
        ArriveKeeps(y, step.base);
      }
    } else if step.Resolve? && y.pcs[step.base].Resolving? {
      AttemptBelowTwo(y, step.base);
      MoveKeeps(y, step.base, Next(y, step).pcs[step.base]);
    } else if step.Check? && y.pcs[step.base].Checking? {
      AttemptBelowTwo(y, step.base);
      MoveKeeps(y, step.base, Next(y, step).pcs[step.base]);
    } else if step.RouteUnadmitted? && y.pcs[step.base].Unadmitted? {
      UnadmittedKeeps(y, step.base);
    }
  }

  /** Every step of every request keeps the system invariant. */
  lemma NextKeeps(y: System, step: Step)
    requires SysInv(y)
    ensures SysInv(Next(y, step))
  {
    assert Owned(y);
    StepKeeps(y, step);
    hide Next, Inv, Saturated;
  }

  lemma StepKeeps(y: System, step: Step)
    requires Inv(y.gov) && Saturated(y.gov) && Owned(y)
    ensures var y' := Next(y, step); Inv(y'.gov) && Saturated(y'.gov) && Owned(y')
  {
    hide Inv, Saturated, Owned, PassStep, SubmitStep, Freed, CancelStep;
    match step
    case Arrive(_) => EarlyKeeps(y, step);
    case Resolve(_, _) => EarlyKeeps(y, step);
    case Check(_, _) => EarlyKeeps(y, step);
    case RouteUnadmitted(_) => EarlyKeeps(y, step);
    case SubmitGlobal(base, remaining, now) =>
      if base in y.pcs && y.pcs[base].Submitting? {
        SubmitStepKeeps(y, base, remaining, now);
      }
    case ThreadStart =>
      if CanStart(y) {
        NextJobOwned(y);
        BeginKeeps(y, y.jobs[1..], y.jobs[0]);
      }
    case ThreadPass(id, now) =>
      if id in y.polling && id in y.started {
        PassKeeps(y, id, now);
      }
    case Deliver(base) =>
      if base in y.pcs && y.pcs[base].Waiting? && GlobalId(base, y.pcs[base].attempt) in y.results {
        DeliverKeeps(y, base);
      }
    case CancelWait(base, now) =>
      if base in y.pcs && y.pcs[base].Waiting? {
        CancelKeeps(y, base, now);
      }
    case Recheck(base, current, now) =>
      if base in y.pcs && y.pcs[base].Rechecking? {
        RecheckKeeps(y, base, current, now);
      }
    case Route(base, result, now) =>
      if base in y.pcs && y.pcs[base].Executing? {
        RouteKeeps(y, base, result, now);
      }
    case StreamOver(base, now) =>
      if base in y.pcs && y.pcs[base].Streaming? {
        FreedKeeps(y, base, Done(StreamEnded), now);
      }
    case Observe(now) => SnapshotKeeps(y, now);
  }

  /** Safety of HTTP admission: every interleaving keeps the invariant. */
  lemma {:induction false} RunKeepsSystem(y: System, steps: seq<Step>)
    requires SysInv(y)
    ensures SysInv(Run(y, steps))
    decreases |steps|
  {
    hide SysInv, Next;
    if steps != [] {
      NextKeeps(y, steps[0]);
      RunKeepsSystem(Next(y, steps[0]), steps[1..]);
    }
  }

  // ---- What the invariant means ------------------------------------------

  /** The requests in possession of a permit. */
  function Holders(y: System): set<string> {
    set base | base in y.pcs && Holding(y.pcs[base])
  }

  /** A request owns at most one running waiter: that of its current attempt. */
  lemma OneRunningWaiterEach(y: System, base: string, attempt: nat, attempt': nat)
    requires SysInv(y) && attempt < 2 && attempt' < 2
    requires GlobalId(base, attempt) in RunningIds(y.gov) && GlobalId(base, attempt') in RunningIds(y.gov)
    ensures attempt == attempt'
  {
    var a, b := GlobalId(base, attempt), GlobalId(base, attempt');
    assert WaiterOwned(y, a) && WaiterOwned(y, b);
    GlobalIdInjective(base, attempt, y.owner[a].base, y.owner[a].attempt);
    GlobalIdInjective(base, attempt', y.owner[b].base, y.owner[b].attempt);
  }

  /** Holders map one to one to running waiters. */
  lemma {:induction false} HoldersRun(y: System, holders: set<string>, ids: set<string>)
    requires Owned(y) && holders <= Holders(y)
    requires ids == set base | base in holders :: GlobalId(base, y.pcs[base].attempt)
    ensures |holders| == |ids| && ids <= RunningIds(y.gov)
    decreases holders
  {
    if holders != {} {
      var base :| base in holders;
      var id := GlobalId(base, y.pcs[base].attempt);
      assert RequestOk(y, base);
      var rest := set b | b in holders - {base} :: GlobalId(b, y.pcs[b].attempt);
      HoldersRun(y, holders - {base}, rest);
      forall b | b in holders - {base} ensures GlobalId(b, y.pcs[b].attempt) != id {
        assert RequestOk(y, b);
        GlobalIdInjective(b, y.pcs[b].attempt, base, y.pcs[base].attempt);
      }
      assert ids == rest + {id};
    }
  }

  /** Requests that execute or stream never exceed the global bound, and each of
      them can return its slot: `release` is accepted. */
  lemma SlotsBounded(y: System)
    requires SysInv(y)
    ensures |Holders(y)| <= y.gov.inflight <= y.gov.maxRunning
    ensures forall base, now :: base in Holders(y) ==>
      Release(y.gov, GlobalId(base, y.pcs[base].attempt), now).1 == Released
  {
    CountersAgree(y.gov);
    HoldersRun(y, Holders(y), set base | base in Holders(y) :: GlobalId(base, y.pcs[base].attempt));
    SubsetSize(set base | base in Holders(y) :: GlobalId(base, y.pcs[base].attempt), RunningIds(y.gov));
    forall base, now | base in Holders(y)
      ensures Release(y.gov, GlobalId(base, y.pcs[base].attempt), now).1 == Released
    {
      assert RequestOk(y, base);
    }
  }

  /** Every request has got its answer or needs no slot. */
  predicate AllFinished(y: System) {
    forall base :: base in y.pcs ==> y.pcs[base].Done? || y.pcs[base].Unadmitted?
  }

  /** No slot leaks: once every request has finished, whatever its thread does, no
      slot is taken and nothing is queued. The records that may still be there are
      expired ones: until their thread clears them away, or for good if it never
      began. */
  lemma QuiescenceIsEmpty(y: System)
    requires SysInv(y) && AllFinished(y)
    ensures QueuedIds(y.gov) == {} && RunningIds(y.gov) == {}
    ensures y.gov.queues == map[] && y.gov.order == []
    ensures y.gov.inflight == 0 && y.gov.runtimeInflight == map[]
    ensures y.leftover <= y.gov.waiters.Keys <= y.leftover + y.polling
    ensures forall id :: id in y.gov.waiters ==> y.gov.waiters[id].phase == Expired
  {
    RecordsOfFinished(y);
    CountersAgree(y.gov);
    hide Inv, Saturated, SysInv, AllFinished;
    assert RunningIds(y.gov) == {} && QueuedIds(y.gov) == {};
    QueuedImpliesRunning(y.gov);
    NoCounters(y.gov);
  }

  lemma RecordsOfFinished(y: System)
    requires SysInv(y) && AllFinished(y)
    ensures y.leftover <= y.gov.waiters.Keys <= y.leftover + y.polling
    ensures forall id :: id in y.gov.waiters ==> y.gov.waiters[id].phase == Expired
  {
    forall id | id in y.gov.waiters
      ensures y.gov.waiters[id].phase == Expired && id in y.leftover + y.polling
    {
      assert WaiterOwned(y, id);
      FinishedRecord(y, id);
    }
    forall id | id in y.leftover ensures id in y.gov.waiters {
      assert LeftoverOk(y, id);
    }
  }

  lemma FinishedRecord(y: System, id: string)
    requires Inv(y.gov) && WaiterOwned(y, id) && AllFinished(y) && id in y.gov.waiters
    ensures y.gov.waiters[id].phase == Expired && (id in y.leftover || id in y.polling)
  {
    RegisteredPhase(y.gov, id);
    hide Inv;
  }

  lemma NoCounters(g: State)
    requires Inv(g) && RunningIds(g) == {}
    ensures g.runtimeInflight == map[]
  {
    CountersAgree(g);
    assert g.running == [];
    forall k ensures k !in g.runtimeInflight {
      assert Count(g.runtimeInflight, k) == |OfRuntime([], g.born, k)|;
    }
  }

  // ---- Records that are never cleared away ---------------------------------------

  /** Exactly when a cancellation leaves a record that no thread will clear away:
      the waiter had already expired and its wait had not begun. */
  lemma RecordLeftExactly(y: System, base: string, now: int)
    requires SysInv(y) && base in y.pcs && y.pcs[base].Waiting?
    ensures var id := GlobalId(base, y.pcs[base].attempt);
      var y' := Next(y, CancelWait(base, now));
      && (id in y'.gov.waiters && id !in y'.polling <==> WaiterExpired(y, id) && id !in y.started)
      && (id in y'.leftover <==> WaiterExpired(y, id) && id !in y.started)
  {
    hide Inv, Saturated, Abandon, Apply, GlobalId;
    var id := GlobalId(base, y.pcs[base].attempt);
    assert WaiterOwned(y, id) && LeftoverOk(y, id) && RequestOk(y, base);
    if id in y.gov.waiters {
      RegisteredPhase(y.gov, id);
    }
    CancelEffect(y.gov, id, now);
  }

  /** Such a record stays for ever. */
  lemma {:induction false} LeftoverStays(y: System, steps: seq<Step>, id: string)
    requires SysInv(y) && id in y.leftover
    ensures id in Run(y, steps).leftover && WaiterExpired(Run(y, steps), id)
    decreases |steps|
  {
    if steps == [] {
      assert LeftoverOk(y, id);
    } else {
      hide SysInv;
      NextKeeps(y, steps[0]);
      LeftoverGrows(y, steps[0]);
      LeftoverStays(Next(y, steps[0]), steps[1..], id);
    }
  }

  lemma LeftoverGrows(y: System, step: Step)
    ensures y.leftover <= Next(y, step).leftover
  {
    hide Apply, Submit, Abandon, ReleaseAdmission;
  }

  /** And there is no other way: a record of a finished request for which no thread
      is there was left by a cancellation before the wait began. */
  lemma OnlyLeftoversStay(y: System, id: string)
    requires SysInv(y) && id in y.gov.waiters && id !in y.polling
    ensures id in y.owner && y.owner[id].base in y.pcs
    ensures y.pcs[y.owner[id].base].Done? ==> id in y.leftover
  {
    assert WaiterOwned(y, id);
    RegisteredPhase(y.gov, id);
  }

  /** The waiter of the current attempt of `base` is running. */
  ghost predicate OwnsSlot(y: System, base: string) {
    && base in y.pcs && (Holding(y.pcs[base]) || y.pcs[base].Waiting?)
    && GlobalId(base, y.pcs[base].attempt) in RunningIds(y.gov)
  }

  /** While a waiter is queued, the waiter of another request is running. */
  lemma AnotherHoldsASlot(y: System, id: string)
    requires SysInv(y) && id in QueuedIds(y.gov)
    ensures id in y.owner && exists base :: base != y.owner[id].base && OwnsSlot(y, base)
  {
    assert WaiterOwned(y, id);
    if RunningIds(y.gov) == {} {
      QueuedImpliesRunning(y.gov);
    }
    var x :| x in RunningIds(y.gov);
    assert WaiterOwned(y, x);
    var base := y.owner[x].base;
    assert OwnsSlot(y, base);
  }

  /** From a start with valid limits, every run satisfies the invariant. */
  lemma EveryRunIsSafe(maxRunning: int, queueCapacity: int, workers: nat, steps: seq<Step>)
    requires maxRunning >= 1 && queueCapacity >= 1
    ensures SysInv(Run(Start(maxRunning, queueCapacity, workers), steps))
  {
    InitInv(maxRunning, queueCapacity);
    InitSaturated(maxRunning, queueCapacity);
    RunKeepsSystem(Start(maxRunning, queueCapacity, workers), steps);
  }
}
