/** Work conservation, the drain, and the bound on queued work. */
module GovernorProgress {
  import opened Common
  import opened GovernorState
  import opened GovernorInvariant

  /** The head of the queue of `key` is a queued waiter that its own bound keeps
      out. */
  ghost predicate Blocked(s: State, key: string) {
    && key in s.queues && s.queues[key] != []
    && var id := s.queues[key][0];
      && id in s.waiters && s.waiters[id].phase == Queued
      && Count(s.runtimeInflight, key) >= s.waiters[id].bound
  }

  ghost predicate BlockedAt(s: State, key: string, now: int) {
    Blocked(s, key) && !s.waiters[s.queues[key][0]].ExpiredAt(now)
  }

  /** Either every slot is taken or each runtime with queued work is held back
      by its own bound. */
  ghost predicate Saturated(s: State) {
    s.inflight == s.maxRunning || forall k :: k in s.order ==> Blocked(s, k)
  }

  ghost predicate SaturatedAt(s: State, now: int) {
    s.inflight == s.maxRunning || forall k :: k in s.order ==> BlockedAt(s, k, now)
  }

  // ---- Admission leaves no usable slot -----------------------------------

  lemma BlockedStable(s: State, s': State, key: string, now: int)
    requires BlockedAt(s, key, now)
    requires Aged(s.waiters, s'.waiters, now)
    requires key in s'.queues && s'.queues[key] == s.queues[key]
    requires Count(s'.runtimeInflight, key) == Count(s.runtimeInflight, key)
    ensures BlockedAt(s', key, now)
  {
  }

  /** A turn that admits nothing drops the front runtime or finds it blocked. */
  lemma UnadmittedTurn(s: State, now: int)
    requires Inv(s) && s.order != [] && !Visit(s, now).admitted
    ensures var s' := Visit(s, now).state;
      && Aged(s.waiters, s'.waiters, now)
      && s'.runtimeInflight == s.runtimeInflight
      && (forall k :: k in s.order[1..] ==> k in s'.queues && s'.queues[k] == s.queues[k])
      && (s'.order == s.order[1..]
          || (s'.order == s.order[1..] + [s.order[0]] && BlockedAt(s', s.order[0], now)))
  {
    var key := s.order[0];
    TrimFacts(s.waiters, s.queues[key], now);
    assert forall k :: k in s.order[1..] ==> k in s.order && k != key;
  }

  lemma {:induction false} ScanSaturates(s: State, now: int, n: nat)
    requires Inv(s) && s.inflight < s.maxRunning && n <= |s.order|
    requires forall i :: n <= i < |s.order| ==> BlockedAt(s, s.order[i], now)
    requires !Scan(s, now, n).admitted
    ensures forall k :: k in Scan(s, now, n).state.order ==> BlockedAt(Scan(s, now, n).state, k, now)
    decreases n
  {
    if n > 0 {
      hide Inv, BlockedAt;
      VisitKeeps(s, now);
      TurnKeepsBlocked(s, now, n);
      ScanSaturates(Visit(s, now).state, now, n - 1);
    }
  }

  lemma TurnKeepsBlocked(s: State, now: int, n: nat)
    requires Inv(s) && 0 < n <= |s.order| && !Visit(s, now).admitted
    requires forall i :: n <= i < |s.order| ==> BlockedAt(s, s.order[i], now)
    ensures var s' := Visit(s, now).state;
      forall i :: n - 1 <= i < |s'.order| ==> BlockedAt(s', s'.order[i], now)
  {
    UnadmittedTurn(s, now);
    hide Inv, BlockedAt, Visit;
    var s' := Visit(s, now).state;
    forall i | n - 1 <= i < |s'.order| ensures BlockedAt(s', s'.order[i], now) {
      if i < |s.order| - 1 {
        assert s'.order[i] == s.order[1..][i] == s.order[i + 1];
        BlockedStable(s, s', s.order[i + 1], now);
      }
    }
  }

  /** Admission is work conserving. */
  lemma {:induction false} AdmitAllSaturates(s: State, now: int)
    requires Inv(s)
    ensures SaturatedAt(AdmitAll(s, now), now)
    decreases s.maxRunning - s.inflight
  {
    if s.inflight < s.maxRunning && s.order != [] {
      var v := Scan(s, now, |s.order|);
      if v.admitted {
        ScanKeeps(s, now, |s.order|);
        AdmitAllSaturates(v.state, now);
      } else {
        ScanSaturates(s, now, |s.order|);
      }
    }
  }

  lemma RefreshSaturates(s: State, now: int)
    requires Inv(s)
    ensures SaturatedAt(Refresh(s, now), now)
  {
    ExpireKeeps(s, now);
    AdmitAllSaturates(Expire(s, now), now);
  }

  lemma InitSaturated(maxRunning: int, queueCapacity: int)
    ensures Saturated(Init(maxRunning, queueCapacity))
  {
  }

  lemma DiscardExpiredSaturated(s: State, id: string)
    requires Saturated(s)
    requires id in s.waiters ==> s.waiters[id].phase != Queued
    ensures Saturated(Discard(s, id))
  {
    var s' := Discard(s, id);
    forall k | k in s'.order && s.inflight != s.maxRunning ensures Blocked(s', k) {
      assert Blocked(s, k);
    }
  }

  lemma SubmitSaturates(s: State, key: string, id: string, bound: int, timeout: Option<int>, now: int)
    requires Inv(s) && Saturated(s) && (id in s.born ==> id in s.waiters)
    ensures Saturated(Submit(s, key, id, bound, timeout, now).0)
    ensures Submit(s, key, id, bound, timeout, now).1 in {Submitted, QueueFull} ==>
      SaturatedAt(Submit(s, key, id, bound, timeout, now).0, now)
  {
    hide Inv;
    var r := Submit(s, key, id, bound, timeout, now).1;
    if r in {Submitted, QueueFull} {
      var s1 := Refresh(s, now);
      RefreshKeeps(s, now);
      RefreshSaturates(s, now);
      if r == Submitted {
        var w := NewRecord(key, bound, timeout, now);
        EnqueueKeeps(s1, key, id, w);
        AdmitAllSaturates(Enqueue(s1, key, id, w), now);
      }
    }
  }

  lemma ReleaseSaturates(s: State, id: string, now: int)
    requires Inv(s) && Saturated(s)
    ensures Saturated(Release(s, id, now).0)
    ensures Release(s, id, now).1 == Released ==> SaturatedAt(Release(s, id, now).0, now)
  {
    if id in s.waiters && s.waiters[id].phase == Running {
      UnrunKeeps(s, id);
      AdmitAllSaturates(Unrun(s, id, s.waiters[id].key), now);
    }
  }

  lemma AbandonSaturates(s: State, id: string, now: int)
    requires Inv(s) && Saturated(s)
    ensures Saturated(Abandon(s, id, now).0)
    ensures Abandon(s, id, now).1 ==> SaturatedAt(Abandon(s, id, now).0, now)
  {
    if id in s.waiters && s.waiters[id].phase == Queued {
      DiscardKeeps(s, id);
      AdmitAllSaturates(Discard(s, id), now);
    } else if id in s.waiters && s.waiters[id].phase == Running {
      UnrunKeeps(s, id);
      AdmitAllSaturates(Unrun(s, id, s.waiters[id].key), now);
    }
  }

  lemma SaturatedAnyTime(s: State, now: int)
    requires SaturatedAt(s, now)
    ensures Saturated(s)
  {
  }

  lemma RegisteredPhase(s: State, id: string)
    requires Inv(s) && id in s.waiters
    ensures s.waiters[id].phase == Queued || s.waiters[id].phase == Running || s.waiters[id].phase == Expired
  {
  }

  lemma WaitSaturates(s: State, id: string, now: int)
    requires Inv(s) && Saturated(s)
    ensures Saturated(Apply(s, OpWait(id, now)))
  {
    if id in s.waiters {
      RegisteredPhase(s, id);
    }
    hide Inv, Saturated, SaturatedAt, AdmitAll, Refresh, Discard;
    if id in s.waiters && s.waiters[id].phase == Queued {
      RefreshSaturates(s, now);
      SaturatedAnyTime(Refresh(s, now), now);
    } else if id in s.waiters && s.waiters[id].phase == Expired {
      DiscardExpiredSaturated(s, id);
    }
  }

  /** Work conservation: no operation leaves a slot idle that queued work could
      use. */
  lemma ApplySaturates(s: State, op: Op)
    requires Inv(s) && Saturated(s) && FreshSubmission(s, op)
    ensures Saturated(Apply(s, op))
  {
    match op
    case OpSubmit(key, id, bound, timeout, now) => SubmitSaturates(s, key, id, bound, timeout, now);
    case OpWait(id, now) => WaitSaturates(s, id, now);
    case OpAbandon(id, now) => AbandonSaturates(s, id, now);
    case OpRelease(id, now) => ReleaseSaturates(s, id, now);
    case OpSnapshot(now) => RefreshSaturates(s, now);
  }

  lemma {:induction false} RunSaturates(s: State, ops: seq<Op>)
    requires Inv(s) && Saturated(s) && FreshRun(s, ops)
    ensures Saturated(Exec(s, ops))
    decreases |ops|
  {
    if ops != [] {
      ApplyKeeps(s, ops[0]);
      ApplySaturates(s, ops[0]);
      RunSaturates(Apply(s, ops[0]), ops[1..]);
    }
  }

  /** From an empty governor with valid limits, every run with fresh ids keeps the
      invariant and work conservation. */
  lemma EveryRunIsGood(maxRunning: int, queueCapacity: int, ops: seq<Op>)
    requires maxRunning >= 1 && queueCapacity >= 1 && FreshRun(Init(maxRunning, queueCapacity), ops)
    ensures var s := Exec(Init(maxRunning, queueCapacity), ops); Inv(s) && Saturated(s)
  {
    InitInv(maxRunning, queueCapacity);
    InitSaturated(maxRunning, queueCapacity);
    RunKeeps(Init(maxRunning, queueCapacity), ops);
    RunSaturates(Init(maxRunning, queueCapacity), ops);
  }

  lemma BlockedHasRunning(s: State, key: string)
    requires Inv(s) && Blocked(s, key)
    ensures RunningIds(s) != {}
  {
    var ids := OfRuntime(s.running, s.born, key);
    assert Count(s.runtimeInflight, key) == |ids|;
    OfRuntimeMembers(s.running, s.born, key);
    assert ids[0] in ids;
    assert ids[0] in RunningIds(s);
  }

  /** Queued work implies running work: the governor cannot stall. */
  lemma QueuedImpliesRunning(s: State)
    requires Inv(s) && Saturated(s) && RunningIds(s) == {}
    ensures QueuedIds(s) == {} && s.order == [] && s.queues == map[]
  {
    CountersAgree(s);
    if s.order != [] {
      BlockedHasRunning(s, s.order[0]);
    }
    forall id | id in s.waiters ensures s.waiters[id].phase != Queued {
      assert QueuedInOwnQueue(s, id);
    }
  }

  // ---- The drain ---------------------------------------------------------

  ghost function Live(s: State): set<string> {
    QueuedIds(s) + RunningIds(s)
  }

  /** Records only move forward: queued to running or expired, nothing else. */
  ghost predicate Advanced(w: Record, w': Record) {
    w' == w || (w.phase == Queued && w' == w.(phase := w'.phase, startedAt := w'.startedAt, finishedAt := w'.finishedAt)
                && w'.phase in {Running, Expired})
  }

  ghost predicate AllAdvanced(s: State, s': State) {
    && s'.waiters.Keys == s.waiters.Keys
    && forall id :: id in s.waiters ==> Advanced(s.waiters[id], s'.waiters[id])
  }

  lemma VisitAdvances(s: State, now: int)
    requires s.order != []
    ensures AllAdvanced(s, Visit(s, now).state)
  {
    var key := s.order[0];
    if key in s.queues {
      TrimFacts(s.waiters, s.queues[key], now);
    }
  }

  lemma {:induction false} ScanAdvances(s: State, now: int, n: nat)
    requires n <= |s.order|
    ensures AllAdvanced(s, Scan(s, now, n).state)
    decreases n
  {
    if n > 0 {
      VisitAdvances(s, now);
      if !Visit(s, now).admitted {
        ScanAdvances(Visit(s, now).state, now, n - 1);
      }
    }
  }

  lemma {:induction false} AdmitAllAdvances(s: State, now: int)
    ensures AllAdvanced(s, AdmitAll(s, now))
    decreases s.maxRunning - s.inflight
  {
    if s.inflight < s.maxRunning && s.order != [] {
      var v := Scan(s, now, |s.order|);
      ScanAdvances(s, now, |s.order|);
      if v.admitted {
        AdmitAllAdvances(v.state, now);
      }
    }
  }

  lemma RefreshAdvances(s: State, now: int)
    ensures AllAdvanced(s, Refresh(s, now))
  {
    AdmitAllAdvances(Expire(s, now), now);
  }

  /** Releasing a running request takes one live request away and adds none. */
  lemma ReleaseShrinks(s: State, id: string, now: int)
    requires id in RunningIds(s)
    ensures Live(Release(s, id, now).0) <= Live(s) - {id}
    ensures |Live(Release(s, id, now).0)| < |Live(s)|
  {
    var s1 := Unrun(s, id, s.waiters[id].key);
    AdmitAllAdvances(s1, now);
    var live := Live(Release(s, id, now).0);
    assert live <= Live(s) - {id};
    assert Live(s) == Live(s) - {id} + {id};
    SubsetSize(live, Live(s) - {id});
  }

  lemma {:induction false} SubsetSize<T>(a: set<T>, b: set<T>)
    requires a <= b
    ensures |a| <= |b|
  {
    if a != {} {
      var x :| x in a;
      SubsetSize(a - {x}, b - {x});
    }
  }

  ghost predicate ReleasesRunning(s: State, ops: seq<Op>)
    decreases |ops|
  {
    ops == [] || (ops[0].OpRelease? && ops[0].id in RunningIds(s) && ReleasesRunning(Apply(s, ops[0]), ops[1..]))
  }

  /** Whoever keeps releasing running requests, in any order and at any clock
      readings, releases at most as many as were live, and can only be out of
      requests to release when nothing is queued any more. */
  lemma {:induction false} DrainEnds(s: State, ops: seq<Op>)
    requires Inv(s) && Saturated(s) && ReleasesRunning(s, ops)
    ensures |ops| + |Live(Exec(s, ops))| <= |Live(s)|
    ensures RunningIds(Exec(s, ops)) == {} ==> Live(Exec(s, ops)) == {} && Exec(s, ops).queues == map[]
    decreases |ops|
  {
    if ops == [] {
      if RunningIds(s) == {} {
        QueuedImpliesRunning(s);
      }
    } else {
      ReleaseShrinks(s, ops[0].id, ops[0].now);
      ReleaseKeeps(s, ops[0].id, ops[0].now);
      ReleaseSaturates(s, ops[0].id, ops[0].now);
      DrainEnds(Apply(s, ops[0]), ops[1..]);
    }
  }

  /** A drain exists from every reachable state. */
  lemma {:induction false} DrainExists(s: State, now: int) returns (ops: seq<Op>)
    requires Inv(s) && Saturated(s)
    ensures ReleasesRunning(s, ops) && |ops| <= |Live(s)|
    ensures Live(Exec(s, ops)) == {} && Exec(s, ops).queues == map[] && Exec(s, ops).order == []
    decreases |Live(s)|
  {
    hide Inv, Saturated, AdmitAll, Unrun, QueuedIds;
    if RunningIds(s) == {} {
      QueuedImpliesRunning(s);
      assert Live(s) == {};
      ops := [];
    } else {
      var id :| id in RunningIds(s);
      var s' := Apply(s, OpRelease(id, now));
      ReleaseShrinks(s, id, now);
      ReleaseKeeps(s, id, now);
      ReleaseSaturates(s, id, now);
      var rest := DrainExists(s', now);
      ops := [OpRelease(id, now)] + rest;
      assert ops[1..] == rest;
    }
  }

  // ---- A pass of the wait loop -------------------------------------------

  lemma RefreshNoneOverdue(s: State, now: int)
    ensures forall id | id in Refresh(s, now).waiters && Refresh(s, now).waiters[id].phase == Queued ::
      !Refresh(s, now).waiters[id].ExpiredAt(now)
  {
    AdmitAllAdvances(Expire(s, now), now);
  }

  /** A pass by a queued waiter either settles it or puts it to sleep for a
      positive time: `wait` never spins on a queued waiter. */
  lemma WaitSettlesOrSleeps(s: State, id: string, now: int)
    requires id in s.waiters && s.waiters[id].phase == Queued
    ensures var (s', r) := WaitPass(s, id, Queued, None, true, now);
      && id in s'.waiters
      && (r == Again <==> s'.waiters[id].phase in {Running, Expired})
      && (r != Again <==> r.Sleep? && s'.waiters[id].phase == Queued)
      && (r.Sleep? && r.remaining.Some? ==> r.remaining.value > 0)
  {
    RefreshNoneOverdue(s, now);
    RefreshAdvances(s, now);
    hide Refresh;
  }

  ghost predicate Overdue(s: State, id: string, now: int) {
    id in s.waiters && s.waiters[id].phase == Queued && s.waiters[id].ExpiredAt(now)
  }

  lemma NothingExpires(s: State, now: int)
    requires forall id :: !Overdue(s, id, now)
    ensures Expire(s, now) == s
  {
    forall id | id in s.waiters ensures ExpireRecord(s.waiters[id], now) == s.waiters[id] {
      assert !Overdue(s, id, now);
    }
    assert Expire(s, now).waiters == s.waiters;
  }

  lemma StillSaturated(s: State, now: int)
    requires Inv(s) && Saturated(s) && forall id :: !Overdue(s, id, now)
    ensures SaturatedAt(s, now)
  {
    hide Inv;
    forall k | k in s.order && s.inflight != s.maxRunning ensures BlockedAt(s, k, now) {
      assert Blocked(s, k) && !Overdue(s, s.queues[k][0], now);
    }
  }

  /** No wakeup is lost: a pass, a snapshot or a refused submission settles somebody
      exactly if it finds an overdue waiter, and then it notifies every thread. */
  lemma SettlesOnlyWithNotice(s: State, now: int)
    requires Inv(s) && Saturated(s)
    ensures Refresh(s, now).waiters != s.waiters <==> exists id :: Overdue(s, id, now)
  {
    hide Inv, Saturated, SaturatedAt, AdmitAll;
    if id :| Overdue(s, id, now) {
      RefreshNoneOverdue(s, now);
      RefreshBorn(s, now);
      assert !Overdue(Refresh(s, now), id, now);
    } else {
      NothingExpires(s, now);
      StillSaturated(s, now);
      SaturatedSettled(s, now);
    }
  }

  lemma SaturatedSettled(s: State, now: int)
    requires Inv(s) && SaturatedAt(s, now)
    ensures AdmitAll(s, now).waiters == s.waiters
  {
    hide Inv, BlockedAt;
    if s.inflight != s.maxRunning {
      AllBlocked(s, now);
    }
  }

  // ---- Submissions past a full queue and the queue bound ------------------

  /** A blocked front runtime goes to the back and nothing else changes. */
  lemma BlockedTurn(s: State, now: int)
    requires Structure(s) && s.order != [] && BlockedAt(s, s.order[0], now)
    ensures Visit(s, now) == Visited(s.(order := s.order[1..] + [s.order[0]]), false)
  {
    var key := s.order[0];
    var s2 := TrimQueue(PopFront(s), key, now);
    assert s2.queues == s.queues && s2.waiters == s.waiters;
    assert s.inOrder - {key} + {key} == s.inOrder;
  }

  function Rotate(order: seq<string>, p: nat): seq<string>
    requires p <= |order|
  {
    order[p..] + order[..p]
  }

  lemma BlockedAnyOrder(s: State, order: seq<string>, key: string, now: int)
    requires BlockedAt(s, key, now)
    ensures BlockedAt(s.(order := order), key, now)
  {
  }

  lemma RotateNone(order: seq<string>)
    ensures Rotate(order, 0) == order
  {
  }

  lemma RotateAll(order: seq<string>, key: string)
    ensures Rotate(order + [key], |order|) == [key] + order
  {
  }

  lemma RotateStep(order: seq<string>, p: nat)
    requires 0 < p <= |order|
    ensures Rotate(order[1..] + [order[0]], p - 1) == Rotate(order, p)
    ensures forall i :: 0 <= i < p - 1 ==> (order[1..] + [order[0]])[i] == order[i + 1]
  {
  }

  /** A scan passes over blocked runtimes at the front. */
  lemma {:induction false} ScanPassesBlocked(s: State, now: int, n: nat, p: nat)
    requires Structure(s) && p <= n <= |s.order|
    requires forall i :: 0 <= i < p ==> BlockedAt(s, s.order[i], now)
    ensures var s' := s.(order := Rotate(s.order, p));
      Structure(s') && Scan(s, now, n) == Scan(s', now, n - p)
    decreases p
  {
    hide Structure, Visit, Rotate, BlockedAt;
    if p == 0 {
      RotateNone(s.order);
      assert s.(order := Rotate(s.order, p)) == s;
    } else {
      BlockedTurn(s, now);
      RotatedStructure(s);
      RotateStep(s.order, p);
      var s1 := s.(order := s.order[1..] + [s.order[0]]);
      forall i | 0 <= i < p - 1 ensures BlockedAt(s1, s1.order[i], now) {
        BlockedAnyOrder(s, s1.order, s.order[i + 1], now);
      }
      ScanPassesBlocked(s1, now, n - 1, p - 1);
    }
  }

  lemma RotatedStructure(s: State)
    requires Structure(s) && s.order != []
    ensures Structure(s.(order := s.order[1..] + [s.order[0]]))
  {
    var order' := s.order[1..] + [s.order[0]];
    assert s.order == [s.order[0]] + s.order[1..];
    assert forall k :: k in order' <==> k in s.order;
  }

  /** If every runtime on the rotation is blocked, nothing is admitted. */
  lemma AllBlocked(s: State, now: int)
    requires Inv(s) && (forall k :: k in s.order ==> BlockedAt(s, k, now))
    ensures AdmitAll(s, now).waiters == s.waiters
  {
    if s.inflight < s.maxRunning && s.order != [] {
      ScanPassesBlocked(s, now, |s.order|, |s.order|);
    }
  }

  lemma RunningStays(s: State, id: string, now: int)
    requires id in s.waiters && s.waiters[id].phase == Running
    ensures AdmitAll(s, now).waiters[id] == s.waiters[id]
  {
    AdmitAllAdvances(s, now);
  }

  /** A new runtime behind blocked ones gets the free slot at once. */
  lemma NewRuntimeRuns(s1: State, key: string, id: string, w: Record, now: int)
    requires Inv(s1) && SaturatedAt(s1, now) && id !in s1.born && key !in s1.queues
    requires w.phase == Queued && w.key == key && w.bound >= 1 && !w.ExpiredAt(now)
    requires CanRunNow(s1, key, w.bound)
    ensures AdmitAll(Enqueue(s1, key, id, w), now).waiters[id].phase == Running
  {
    EnqueueStructure(s1, key, id, w);
    NewRuntimeLast(s1, key, id, w, now);
    hide Inv, Structure, BlockedAt, Enqueue, Scan, SaturatedAt;
    LastTurnRuns(Enqueue(s1, key, id, w), s1.order, key, id, now);
    FirstScan(Enqueue(s1, key, id, w), id, now);
  }

  /** With every other runtime blocked, the scan reaches the last one. */
  lemma LastTurnRuns(s2: State, others: seq<string>, key: string, id: string, now: int)
    requires Structure(s2) && s2.order == others + [key] && key in s2.queues && s2.queues[key] == [id]
    requires forall i :: 0 <= i < |others| ==> BlockedAt(s2, s2.order[i], now)
    requires id in s2.waiters && s2.waiters[id].phase == Queued && !s2.waiters[id].ExpiredAt(now)
    requires Count(s2.runtimeInflight, key) < s2.waiters[id].bound
    ensures var v := Scan(s2, now, |s2.order|);
      v.admitted && id in v.state.waiters && v.state.waiters[id].phase == Running
  {
    RotateAll(others, key);
    hide Structure, BlockedAt, Visit, Scan, Rotate;
    ScanPassesBlocked(s2, now, |s2.order|, |others|);
    HeadRuns(s2.(order := [key] + others), key, id, now);
  }

  /** What the first scan admits is running in the end. */
  lemma FirstScan(s: State, id: string, now: int)
    requires s.inflight < s.maxRunning && s.order != []
    requires var v := Scan(s, now, |s.order|);
      v.admitted && id in v.state.waiters && v.state.waiters[id].phase == Running
    ensures AdmitAll(s, now).waiters[id].phase == Running
  {
    RunningStays(Scan(s, now, |s.order|).state, id, now);
  }

  lemma NewRuntimeLast(s1: State, key: string, id: string, w: Record, now: int)
    requires Inv(s1) && SaturatedAt(s1, now) && s1.inflight < s1.maxRunning
    requires id !in s1.waiters && key !in s1.queues
    ensures var s2 := Enqueue(s1, key, id, w);
      && s2.order == s1.order + [key] && key in s2.queues && s2.queues[key] == [id]
      && s2 == s1.(order := s2.order, inOrder := s2.inOrder, waiters := s1.waiters[id := w],
                   queues := s2.queues, born := s2.born)
      && forall i :: 0 <= i < |s1.order| ==> BlockedAt(s2, s2.order[i], now)
  {
    var s2 := Enqueue(s1, key, id, w);
    forall i | 0 <= i < |s1.order| ensures BlockedAt(s2, s2.order[i], now) {
      assert s1.order[i] in s1.order;
      assert BlockedAt(s1, s1.order[i], now);
    }
  }

  lemma HeadRuns(s3: State, key: string, id: string, now: int)
    requires s3.order != [] && s3.order[0] == key && key in s3.queues && s3.queues[key] == [id]
    requires id in s3.waiters && s3.waiters[id].phase == Queued && !s3.waiters[id].ExpiredAt(now)
    requires Count(s3.runtimeInflight, key) < s3.waiters[id].bound
    ensures Scan(s3, now, 1).admitted && Scan(s3, now, 1).state.waiters[id].phase == Running
  {
    assert Visit(s3, now).admitted;
  }

  /** A runtime that already has a blocked head stays blocked. */
  lemma BehindBlockedHeadWaits(s1: State, key: string, id: string, w: Record, now: int)
    requires Inv(s1) && SaturatedAt(s1, now) && id !in s1.born && key in s1.queues
    requires w.phase == Queued && w.key == key && w.bound >= 1
    requires s1.inflight < s1.maxRunning
    ensures AdmitAll(Enqueue(s1, key, id, w), now).waiters[id] == w
  {
    EnqueueKeeps(s1, key, id, w);
    StillBlocked(s1, key, id, w, now);
    hide Inv;
    AllBlocked(Enqueue(s1, key, id, w), now);
  }

  lemma StillBlocked(s1: State, key: string, id: string, w: Record, now: int)
    requires Inv(s1) && SaturatedAt(s1, now) && id !in s1.waiters && key in s1.queues
    requires s1.inflight < s1.maxRunning
    ensures var s2 := Enqueue(s1, key, id, w);
      forall k :: k in s2.order ==> BlockedAt(s2, k, now)
  {
    var s2 := Enqueue(s1, key, id, w);
    forall k | k in s2.order ensures BlockedAt(s2, k, now) {
      assert BlockedAt(s1, k, now);
      assert s2.queues[k][0] == s1.queues[k][0];
    }
  }

  lemma RefreshBorn(s: State, now: int)
    ensures var s1 := Refresh(s, now);
      s1.born == s.born && s1.waiters.Keys == s.waiters.Keys && s1.queueCapacity == s.queueCapacity
      && s1.maxRunning == s.maxRunning && s.admitted <= s1.admitted
  {
  }

  /** When `can_run_now` lets a submission past, it is running when `submit`
      returns exactly if its runtime has nothing queued ahead of it; otherwise it
      is queued. */
  lemma PastFullQueue(s: State, key: string, id: string, bound: int, timeout: Option<int>, now: int)
    requires Inv(s) && id !in s.born
    requires Submit(s, key, id, bound, timeout, now).1 == Submitted
    requires CanRunNow(Refresh(s, now), key, bound)
    ensures var s' := Submit(s, key, id, bound, timeout, now).0;
      && id in s'.waiters
      && s'.waiters[id].phase == (if key !in Refresh(s, now).queues then Running else Queued)
  {
    hide Inv, AdmitAll, Refresh, SaturatedAt;
    RefreshKeeps(s, now);
    RefreshSaturates(s, now);
    RefreshBorn(s, now);
    SubmitUnroll(s, key, id, bound, timeout, now);
    NewRecordFields(key, bound, timeout, now);
    hide Submit, NewRecord;
    var s1 := Refresh(s, now);
    var w := NewRecord(key, bound, timeout, now);
    if key !in s1.queues {
      NewRuntimeRuns(s1, key, id, w, now);
    } else {
      BehindBlockedHeadWaits(s1, key, id, w, now);
    }
  }

  /** All waiters of a runtime were submitted with the same bound. */
  ghost predicate Uniform(s: State, bounds: string -> int) {
    forall id :: id in s.waiters ==> s.waiters[id].bound == bounds(s.waiters[id].key)
  }

  lemma AdvancedQueues(s: State, s': State)
    requires AllAdvanced(s, s')
    ensures QueuedIds(s') <= QueuedIds(s) && |QueuedIds(s')| <= |QueuedIds(s)|
  {
    SubsetSize(QueuedIds(s'), QueuedIds(s));
  }

  lemma NewRecordFields(key: string, bound: int, timeout: Option<int>, now: int)
    ensures var w := NewRecord(key, bound, timeout, now);
      && w.phase == Queued && w.key == key && w.bound == bound
      && ((timeout.Some? ==> timeout.value > 0) ==> !w.ExpiredAt(now))
  {
  }

  lemma SubmitUnroll(s: State, key: string, id: string, bound: int, timeout: Option<int>, now: int)
    requires !Blank(key) && !Blank(id) && bound >= 1 && (timeout.Some? ==> timeout.value > 0) && id !in s.waiters
    ensures var (s', r) := Submit(s, key, id, bound, timeout, now);
      && (r == QueueFull || r == Submitted)
      && s' == if r == QueueFull then Refresh(s, now)
               else AdmitAll(Enqueue(Refresh(s, now), key, id, NewRecord(key, bound, timeout, now)), now)
  {
  }

  lemma SubmitUniform(
      s: State, key: string, id: string, bound: int, timeout: Option<int>, now: int, bounds: string -> int)
    requires Uniform(s, bounds) && bound == bounds(key)
    ensures Uniform(Submit(s, key, id, bound, timeout, now).0, bounds)
  {
    if !Blank(key) && !Blank(id) && bound >= 1 && (timeout.Some? ==> timeout.value > 0) && id !in s.waiters {
      SubmitUnroll(s, key, id, bound, timeout, now);
      RefreshUniform(s, now, bounds);
      EnqueueAdmitUniform(Refresh(s, now), key, id, NewRecord(key, bound, timeout, now), now, bounds);
      hide Submit, Refresh, AdmitAll, Enqueue, Uniform, NewRecord;
    }
  }

  lemma EnqueueAdmitUniform(s1: State, key: string, id: string, w: Record, now: int, bounds: string -> int)
    requires Uniform(s1, bounds) && w.key == key && w.bound == bounds(key)
    ensures Uniform(AdmitAll(Enqueue(s1, key, id, w), now), bounds)
  {
    EnqueueUniform(s1, key, id, w, bounds);
    AdmitAllAdvances(Enqueue(s1, key, id, w), now);
    hide AdmitAll, Enqueue, Uniform;
    AdvancedUniform(Enqueue(s1, key, id, w), AdmitAll(Enqueue(s1, key, id, w), now), bounds);
  }

  lemma EnqueueUniform(s: State, key: string, id: string, w: Record, bounds: string -> int)
    requires Uniform(s, bounds) && w.key == key && w.bound == bounds(key)
    ensures Uniform(Enqueue(s, key, id, w), bounds)
  {
  }

  lemma AdvancedUniform(s: State, s': State, bounds: string -> int)
    requires Uniform(s, bounds) && AllAdvanced(s, s')
    ensures Uniform(s', bounds)
  {
  }

  lemma RefreshUniform(s: State, now: int, bounds: string -> int)
    requires Uniform(s, bounds)
    ensures Uniform(Refresh(s, now), bounds)
  {
    RefreshAdvances(s, now);
    hide AdmitAll, Refresh;
    AdvancedUniform(s, Refresh(s, now), bounds);
  }

  lemma SubmitQueueBound(
      s: State, key: string, id: string, bound: int, timeout: Option<int>, now: int, bounds: string -> int)
    requires Inv(s) && Uniform(s, bounds) && bound == bounds(key) && (id in s.born ==> id in s.waiters)
    requires |QueuedIds(s)| <= s.queueCapacity
    ensures var s' := Submit(s, key, id, bound, timeout, now).0;
      |QueuedIds(s')| <= s'.queueCapacity
  {
    hide Inv, Uniform, Refresh;
    RefreshAdvances(s, now);
    AdvancedQueues(s, Refresh(s, now));
    RefreshBorn(s, now);
    if Submit(s, key, id, bound, timeout, now).1 == Submitted {
      SubmittedQueued(s, key, id, bound, timeout, now);
      if |QueuedIds(Refresh(s, now))| == s.queueCapacity {
        FullQueueRuns(s, key, id, bound, timeout, now, bounds);
      }
    }
  }

  lemma FullQueueRuns(
      s: State, key: string, id: string, bound: int, timeout: Option<int>, now: int, bounds: string -> int)
    requires Inv(s) && Uniform(s, bounds) && bound == bounds(key) && id !in s.born
    requires Submit(s, key, id, bound, timeout, now).1 == Submitted
    requires |QueuedIds(Refresh(s, now))| >= s.queueCapacity
    ensures id !in QueuedIds(Submit(s, key, id, bound, timeout, now).0)
  {
    RefreshKeeps(s, now);
    RefreshSaturates(s, now);
    RefreshUniform(s, now, bounds);
    RefreshBorn(s, now);
    hide Inv, AdmitAll, Refresh, SaturatedAt, Uniform;
    UniformUnblocked(Refresh(s, now), key, bound, bounds, now);
    PastFullQueue(s, key, id, bound, timeout, now);
  }

  lemma QueuedHeadBound(s1: State, key: string, bounds: string -> int, now: int)
    requires Inv(s1) && SaturatedAt(s1, now) && Uniform(s1, bounds)
    requires s1.inflight < s1.maxRunning && key in s1.queues
    ensures Count(s1.runtimeInflight, key) >= bounds(key)
  {
    assert BlockedAt(s1, key, now);
    assert InSubmissionOrder(s1.queues[key], s1.born, key);
  }

  /** A runtime with room under its one bound has nothing queued. */
  lemma UniformUnblocked(s1: State, key: string, bound: int, bounds: string -> int, now: int)
    requires Inv(s1) && SaturatedAt(s1, now) && Uniform(s1, bounds)
    requires CanRunNow(s1, key, bound) && bound == bounds(key)
    ensures key !in s1.queues
  {
    if key in s1.queues {
      QueuedHeadBound(s1, key, bounds, now);
    }
  }

  /** A submission adds at most itself to the queued waiters. */
  lemma SubmittedQueued(s: State, key: string, id: string, bound: int, timeout: Option<int>, now: int)
    requires Submit(s, key, id, bound, timeout, now).1 == Submitted
    ensures var s1, s' := Refresh(s, now), Submit(s, key, id, bound, timeout, now).0;
      && s'.queueCapacity == s1.queueCapacity
      && AllAdvanced(Enqueue(s1, key, id, NewRecord(key, bound, timeout, now)), s')
      && |QueuedIds(s')| <= |QueuedIds(s1)| + 1
      && (id !in QueuedIds(s') ==> |QueuedIds(s')| <= |QueuedIds(s1)|)
  {
    hide AdmitAll, Refresh;
    var s1, s' := Refresh(s, now), Submit(s, key, id, bound, timeout, now).0;
    var s2 := Enqueue(s1, key, id, NewRecord(key, bound, timeout, now));
    AdmitAllAdvances(s2, now);
    assert QueuedIds(s') <= QueuedIds(s1) + {id};
    SubsetSize(QueuedIds(s'), QueuedIds(s1) + {id});
    if id !in QueuedIds(s') {
      assert QueuedIds(s') <= QueuedIds(s1);
      SubsetSize(QueuedIds(s'), QueuedIds(s1));
    }
  }

  lemma OtherQueueBound(s: State, op: Op, bounds: string -> int)
    requires !op.OpSubmit? && Uniform(s, bounds)
    requires |QueuedIds(s)| <= s.queueCapacity
    ensures var s' := Apply(s, op); Uniform(s', bounds) && |QueuedIds(s')| <= s'.queueCapacity
  {
    OtherOpsForward(s, op);
    SubsetSize(QueuedIds(Apply(s, op)), QueuedIds(s));
  }

  /** `s'` has no new waiter and its waiters have only moved forward. */
  ghost predicate OnlyForward(s: State, s': State) {
    && s'.queueCapacity == s.queueCapacity
    && forall id :: id in s'.waiters ==> id in s.waiters && Advanced(s.waiters[id], s'.waiters[id])
  }

  lemma ForwardAdmit(s: State, s1: State, now: int)
    requires s1.queueCapacity == s.queueCapacity
    requires forall id :: id in s1.waiters ==> id in s.waiters && s1.waiters[id] == s.waiters[id]
    ensures OnlyForward(s, AdmitAll(s1, now))
  {
    AdmitAllAdvances(s1, now);
  }

  lemma RefreshForward(s: State, now: int)
    ensures OnlyForward(s, Refresh(s, now))
  {
    RefreshAdvances(s, now);
  }

  /** No operation but `submit` adds a waiter or moves one otherwise than forward. */
  lemma OtherOpsForward(s: State, op: Op)
    requires !op.OpSubmit?
    ensures OnlyForward(s, Apply(s, op)) && QueuedIds(Apply(s, op)) <= QueuedIds(s)
  {
    hide AdmitAll, Refresh;
    match op
    case OpSnapshot(now) => RefreshForward(s, now);
    case OpWait(id, now) => RefreshForward(s, now);
    case OpAbandon(id, now) =>
      if id in s.waiters {
        ForwardAdmit(s, Discard(s, id), now);
        ForwardAdmit(s, Unrun(s, id, s.waiters[id].key), now);
      }
    case OpRelease(id, now) =>
      if id in s.waiters {
        ForwardAdmit(s, Unrun(s, id, s.waiters[id].key), now);
      }
  }

  /** If each runtime's submissions carry one bound, the number of queued waiters
      never exceeds the capacity. */
  lemma {:induction false} QueueBound(s: State, ops: seq<Op>, bounds: string -> int)
    requires Inv(s) && FreshRun(s, ops) && Uniform(s, bounds)
    requires |QueuedIds(s)| <= s.queueCapacity
    requires forall op :: op in ops && op.OpSubmit? ==> op.bound == bounds(op.key)
    ensures |QueuedIds(Exec(s, ops))| <= Exec(s, ops).queueCapacity
    decreases |ops|
  {
    if ops != [] {
      var op := ops[0];
      ApplyKeeps(s, op);
      if op.OpSubmit? {
        SubmitQueueBound(s, op.key, op.id, op.bound, op.timeout, op.now, bounds);
        SubmitUniform(s, op.key, op.id, op.bound, op.timeout, op.now, bounds);
      } else {
        OtherQueueBound(s, op, bounds);
      }
      QueueBound(Apply(s, op), ops[1..], bounds);
    }
  }
}
