/** Ids that are used again: as long as the id stands in no queue, the governor behaves
    as if it had never been used; and exactly then. */
module GovernorReuse {
  import opened Common
  import opened GovernorState
  import opened GovernorInvariant
  import opened GovernorProgress

  /** The same governor with other history. */
  ghost predicate SameCore(s: State, t: State) {
    t == s.(born := t.born, admitted := t.admitted, running := t.running)
  }

  /** The governor is in order for some history. */
  ghost predicate Legal(s: State) {
    exists t :: SameCore(s, t) && Inv(t)
  }

  // ---- History does not influence the governor --------------------------------------

  lemma VisitCore(s: State, t: State, now: int)
    requires SameCore(s, t) && s.order != []
    ensures var v, u := Visit(s, now), Visit(t, now); SameCore(v.state, u.state) && u.admitted == v.admitted
  {
    VisitIsTurn(s, now);
    VisitIsTurn(t, now);
    hide Visit, Turn;
    if s.order[0] in s.queues {
      TurnCore(PopFront(s), PopFront(t), s.order[0], now);
    }
  }

  lemma TurnCore(s: State, t: State, key: string, now: int)
    requires SameCore(s, t) && key in s.queues
    ensures var v, u := Turn(s, key, now), Turn(t, key, now); SameCore(v.state, u.state) && u.admitted == v.admitted
  {
    hide Trim, Schedule, Advance;
    var s2, t2 := TrimQueue(s, key, now), TrimQueue(t, key, now);
    assert SameCore(s2, t2);
    hide TrimQueue;
    ScheduleCore(s2, t2, key);
    if s2.queues[key] != [] {
      AdvanceCore(s2, t2, key);
      AdvanceWaiters(s2, key);
      AdvanceWaiters(t2, key);
    }
  }

  lemma AdvanceWaiters(s: State, key: string)
    requires key in s.queues && s.queues[key] != []
    ensures Advance(s, key).waiters == s.waiters
  {
  }

  lemma AdvanceCore(s: State, t: State, key: string)
    requires SameCore(s, t) && key in s.queues && s.queues[key] != []
    ensures SameCore(Advance(s, key), Advance(t, key))
  {
    hide Schedule;
    var queues := s.queues[key := s.queues[key][1..]];
    ScheduleCore(s.(queues := queues), t.(queues := queues), key);
  }

  lemma ScheduleCore(s: State, t: State, key: string)
    requires SameCore(s, t)
    ensures SameCore(Schedule(s, key), Schedule(t, key))
  {
  }

  lemma {:induction false} ScanCore(s: State, t: State, now: int, n: nat)
    requires SameCore(s, t) && n <= |s.order|
    ensures var v, u := Scan(s, now, n), Scan(t, now, n); SameCore(v.state, u.state) && u.admitted == v.admitted
    decreases n
  {
    hide Visit;
    if n > 0 {
      VisitCore(s, t, now);
      if !Visit(s, now).admitted {
        ScanCore(Visit(s, now).state, Visit(t, now).state, now, n - 1);
      }
    }
  }

  lemma {:induction false} AdmitAllCore(s: State, t: State, now: int)
    requires SameCore(s, t)
    ensures SameCore(AdmitAll(s, now), AdmitAll(t, now))
    decreases s.maxRunning - s.inflight
  {
    hide Scan;
    if s.inflight < s.maxRunning && s.order != [] {
      ScanCore(s, t, now, |s.order|);
      if Scan(s, now, |s.order|).admitted {
        AdmitAllCore(Scan(s, now, |s.order|).state, Scan(t, now, |t.order|).state, now);
      }
    }
  }

  lemma RefreshCore(s: State, t: State, now: int)
    requires SameCore(s, t)
    ensures SameCore(Refresh(s, now), Refresh(t, now))
  {
    AdmitAllCore(Expire(s, now), Expire(t, now), now);
  }

  lemma EnqueueCore(s: State, t: State, key: string, id: string, w: Record)
    requires SameCore(s, t)
    ensures SameCore(Enqueue(s, key, id, w), Enqueue(t, key, id, w))
  {
  }

  /** The other operations do not look at history either. */
  lemma OtherCore(s: State, t: State, op: Op)
    requires SameCore(s, t) && !op.OpSubmit?
    ensures SameCore(Apply(s, op), Apply(t, op))
  {
    hide AdmitAll, Refresh;
    match op
    case OpSnapshot(now) => RefreshCore(s, t, now);
    case OpWait(id, now) => RefreshCore(s, t, now);
    case OpAbandon(id, now) =>
      if id in s.waiters {
        AdmitAllCore(Discard(s, id), Discard(t, id), now);
        AdmitAllCore(Unrun(s, id, s.waiters[id].key), Unrun(t, id, t.waiters[id].key), now);
      }
    case OpRelease(id, now) =>
      if id in s.waiters {
        AdmitAllCore(Unrun(s, id, s.waiters[id].key), Unrun(t, id, t.waiters[id].key), now);
      }
  }

  // ---- Forgetting an id ----------------------------------------------------------------

  predicate InNoQueue(s: State, id: string) {
    forall k :: k in s.queues ==> id !in s.queues[k]
  }

  function Earlier1(b: Birth, t: nat): Birth {
    if b.ticket > t then b.(ticket := b.ticket - 1) else b
  }

  /** The births without that of `id`, numbered without a gap. */
  function Renumbered(born: map<string, Birth>, id: string): map<string, Birth>
    requires id in born
  {
    map x | x in born && x != id :: Earlier1(born[x], born[id].ticket)
  }

  function Forget(s: State, id: string): State
    requires id in s.born
  {
    s.(born := Renumbered(s.born, id), admitted := Without(s.admitted, id))
  }

  lemma RenumberedTickets(s: State, id: string)
    requires Tickets(s) && id in s.born
    ensures Tickets(Forget(s, id))
  {
    var born, t := Renumbered(s.born, id), s.born[id].ticket;
    assert born.Keys == s.born.Keys - {id};
    assert |born.Keys| == |s.born.Keys| - 1;
    forall x | x in born ensures born[x].ticket < |born.Keys| {
      assert s.born[x].ticket != t;
    }
    forall a, b | a in born && b in born && a != b ensures born[a].ticket != born[b].ticket {
      assert s.born[a].ticket != t && s.born[b].ticket != t && s.born[a].ticket != s.born[b].ticket;
    }
    hide Renumbered;
  }

  lemma RenumberedOrder(born: map<string, Birth>, id: string, a: string, b: string)
    requires id in born && a in born && b in born && a != id && b != id
    requires born[a].ticket != born[id].ticket && born[b].ticket != born[id].ticket
    ensures var born' := Renumbered(born, id);
      && a in born' && b in born' && born'[a].key == born[a].key && born'[b].key == born[b].key
      && (born'[a].ticket < born'[b].ticket <==> born[a].ticket < born[b].ticket)
  {
  }

  lemma ForgetQueues(s: State, id: string)
    requires Queues(s) && Tickets(s) && id in s.born && id !in s.waiters && InNoQueue(s, id)
    ensures Queues(Forget(s, id))
  {
    var s' := Forget(s, id);
    forall k | k in s'.queues ensures InSubmissionOrder(s'.queues[k], s'.born, k) {
      assert InSubmissionOrder(s.queues[k], s.born, k);
    }
    forall x ensures QueuedInOwnQueue(s', x) {
      assert QueuedInOwnQueue(s, x);
    }
  }

  lemma ForgetCounters(s: State, id: string)
    requires Counters(s) && Bounds(s) && Registry(s) && id in s.born && id !in s.waiters
    ensures Counters(Forget(s, id)) && Bounds(Forget(s, id))
  {
    var s' := Forget(s, id);
    hide Registry, Bounds, BoundsHold, OfRuntime;
    forall k
      ensures OfRuntime(s'.running, s'.born, k) == OfRuntime(s.running, s.born, k)
    {
      OfRuntimeFrame(s.running, s.born, s'.born, k);
    }
    SameBounds(s, s');
  }

  lemma SameBounds(s: State, s': State)
    requires Bounds(s) && s'.waiters == s.waiters
    requires forall k :: OfRuntime(s'.running, s'.born, k) == OfRuntime(s.running, s.born, k)
    ensures Bounds(s')
  {
  }

  ghost predicate AllEarlier(ids: seq<string>, born: map<string, Birth>) {
    forall i, j :: 0 <= i < j < |ids| ==> Earlier(born, ids[i], ids[j])
  }

  lemma {:induction false} AllEarlierWithout(ids: seq<string>, born: map<string, Birth>, x: string)
    requires AllEarlier(ids, born)
    ensures AllEarlier(Without(ids, x), born)
  {
    hide Earlier;
    if ids != [] {
      var front, last := ids[..|ids| - 1], ids[|ids| - 1];
      AllEarlierWithout(front, born, x);
      WithoutMembers(front, x);
      forall id | id in Without(front, x) ensures Earlier(born, id, last) {
        var i :| 0 <= i < |front| && front[i] == id;
        assert ids[i] == id;
      }
    }
  }

  lemma ForgetFifo(s: State, id: string)
    requires Fifo(s) && Tickets(s) && Registry(s) && id in s.born && id !in s.waiters
    ensures Fifo(Forget(s, id))
  {
    var s', left := Forget(s, id), Without(s.admitted, id);
    hide Registry;
    WithoutMembers(s.admitted, id);
    AllEarlierWithout(s.admitted, s.born, id);
    forall i | 0 <= i < |left| ensures left[i] in s.admitted && left[i] != id && left[i] in s'.born {
      assert left[i] in left;
      var j :| 0 <= j < |s.admitted| && s.admitted[j] == left[i];
    }
    forall i, j | 0 <= i < j < |left| ensures Earlier(s'.born, left[i], left[j]) {
      assert Earlier(s.born, left[i], left[j]);
      RenumberedOrder(s.born, id, left[i], left[j]);
    }
    forall i, x | 0 <= i < |left| && x in s'.waiters && s'.waiters[x].phase == Queued
      ensures Earlier(s'.born, left[i], x)
    {
      var j :| 0 <= j < |s.admitted| && s.admitted[j] == left[i];
      assert Earlier(s.born, s.admitted[j], x);
      RenumberedOrder(s.born, id, left[i], x);
    }
  }

  lemma {:induction false} KeepOnlyWithout(ids: seq<string>, keep: set<string>, x: string)
    requires x !in keep
    ensures KeepOnly(Without(ids, x), keep) == KeepOnly(ids, keep)
  {
    if ids != [] {
      var front, last := ids[..|ids| - 1], ids[|ids| - 1];
      KeepOnlyWithout(front, keep, x);
      KeepOnlySnoc(Without(front, x), last, keep);
      assert Without(front, x) + [] == Without(front, x) && KeepOnly(front, keep) + [] == KeepOnly(front, keep);
    }
  }

  lemma KeepOnlySnoc(ids: seq<string>, last: string, keep: set<string>)
    ensures KeepOnly(ids + [last], keep) == KeepOnly(ids, keep) + if last in keep then [last] else []
  {
    assert (ids + [last])[..|ids|] == ids;
  }

  /** An id that is neither registered nor queued can be forgotten. */
  lemma ForgetKeeps(s: State, id: string)
    requires Inv(s) && id in s.born && id !in s.waiters && InNoQueue(s, id)
    ensures Inv(Forget(s, id)) && SameCore(s, Forget(s, id)) && id !in Forget(s, id).born
  {
    ForgetQueues(s, id);
    RenumberedTickets(s, id);
    ForgetCounters(s, id);
    ForgetFifo(s, id);
    KeepOnlyWithout(s.admitted, RunningIds(s), id);
    ForgetRest(s, id);
    hide Structure, Queues, Registry, Tickets, Counters, Bounds, Fifo, KeepOnly, Renumbered, Without;
  }

  lemma ForgetRest(s: State, id: string)
    requires Structure(s) && Registry(s) && id in s.born && id !in s.waiters
    ensures Structure(Forget(s, id)) && Registry(Forget(s, id)) && RunningIds(Forget(s, id)) == RunningIds(s)
    ensures id !in Forget(s, id).born
  {
    hide Without;
  }

  // ---- Using an id again ---------------------------------------------------------------

  /** Whether an operation is harmless: if it submits an id that is not registered,
      that id stands in no queue once overdue work is gone. */
  ghost predicate ReusesSafely(s: State, op: Op) {
    op.OpSubmit? && op.id !in s.waiters ==> InNoQueue(Refresh(s, op.now), op.id)
  }

  /** A history in which `id` is new. */
  lemma Renewed(t: State, id: string) returns (u: State)
    requires Inv(t) && id !in t.waiters && InNoQueue(t, id)
    ensures Inv(u) && SameCore(t, u) && id !in u.born
  {
    hide Inv, InNoQueue;
    if id in t.born {
      ForgetKeeps(t, id);
      u := Forget(t, id);
    } else {
      u := t;
    }
  }

  lemma SubmitLegal(s: State, t: State, op: Op)
    requires op.OpSubmit? && SameCore(s, t) && Inv(t) && ReusesSafely(s, op)
    ensures Legal(Apply(s, op))
  {
    hide Inv, Refresh, AdmitAll, Enqueue, NewRecord, Blank, QueuedIds;
    var s1, t1 := Refresh(s, op.now), Refresh(t, op.now);
    RefreshCore(s, t, op.now);
    RefreshKeeps(t, op.now);
    RefreshBorn(s, op.now);
    RefreshBorn(t, op.now);
    var w := NewRecord(op.key, op.bound, op.timeout, op.now);
    if Submit(s, op.key, op.id, op.bound, op.timeout, op.now).1 == Submitted {
      NewRecordFields(op.key, op.bound, op.timeout, op.now);
      var u := Renewed(t1, op.id);
      EnqueueKeeps(u, op.key, op.id, w);
      AdmitAllKeeps(Enqueue(u, op.key, op.id, w), op.now);
      EnqueueCore(s1, u, op.key, op.id, w);
      AdmitAllCore(Enqueue(s1, op.key, op.id, w), Enqueue(u, op.key, op.id, w), op.now);
    }
  }

  /** Safety without the assumption that ids are new: an id may be used again as soon as
      it stands in no queue. */
  lemma ReuseKeeps(s: State, op: Op)
    requires Legal(s) && ReusesSafely(s, op)
    ensures Legal(Apply(s, op))
  {
    hide Inv, Apply, ReusesSafely;
    var t :| SameCore(s, t) && Inv(t);
    if op.OpSubmit? {
      SubmitLegal(s, t, op);
    } else {
      OtherFresh(t, op);
      ApplyKeeps(t, op);
      OtherCore(s, t, op);
    }
  }

  lemma OtherFresh(s: State, op: Op)
    requires !op.OpSubmit?
    ensures FreshSubmission(s, op)
  {
  }

  ghost predicate SafeRun(s: State, ops: seq<Op>)
    decreases |ops|
  {
    ops == [] || (ReusesSafely(s, ops[0]) && SafeRun(Apply(s, ops[0]), ops[1..]))
  }

  lemma {:induction false} SafeRunsKeep(s: State, ops: seq<Op>)
    requires Legal(s) && SafeRun(s, ops)
    ensures Legal(Exec(s, ops))
    decreases |ops|
  {
    hide Legal, ReusesSafely, Apply;
    if ops != [] {
      ReuseKeeps(s, ops[0]);
      SafeRunsKeep(Apply(s, ops[0]), ops[1..]);
    }
  }

  /** What that means for the counters: they are the true numbers. */
  lemma LegalCounters(s: State)
    requires Legal(s)
    ensures s.inflight == |RunningIds(s)| <= s.maxRunning
    ensures forall k :: Count(s.runtimeInflight, k) == |RunningOf(s, k)|
  {
    hide Inv;
    var t :| SameCore(s, t) && Inv(t);
    CountersAgree(t);
    assert RunningIds(t) == RunningIds(s);
    forall k ensures RunningOf(t, k) == RunningOf(s, k) {
    }
  }

  // ---- And exactly then ------------------------------------------------------------------

  /** The head of the queue of `k` is in no other queue. */
  ghost predicate HeadApart(s: State, k: string) {
    && k in s.queues && s.queues[k] != []
    && forall k2 :: k2 in s.queues && k2 != k ==> s.queues[k][0] !in s.queues[k2]
  }

  ghost predicate HeldBack(s: State, k: string, now: int) {
    BlockedAt(s, k, now) && HeadApart(s, k)
  }

  lemma VisitHoldsBack(s: State, k: string, now: int)
    requires s.order != [] && HeldBack(s, k, now)
    ensures var s' := Visit(s, now).state; HeldBack(s', k, now) && s'.queues[k] == s.queues[k]
  {
    if s.order[0] == k {
      OwnTurn(s, k, now);
    } else {
      OtherTurn(s, k, now);
      HeldBackStays(s, Visit(s, now).state, k, now);
    }
    hide Visit;
  }

  lemma OwnTurn(s: State, k: string, now: int)
    requires s.order != [] && s.order[0] == k && HeldBack(s, k, now)
    ensures var s' := Visit(s, now).state;
      s'.waiters == s.waiters && s'.queues == s.queues && s'.runtimeInflight == s.runtimeInflight
  {
    TrimUnfolds(s.waiters, s.queues[k], now);
    hide Trim;
    assert s.queues[k := s.queues[k]] == s.queues;
  }

  /** The turn of another runtime keeps the queue and the counter of `k` and what it
      does not have in its own queue; queues only lose. */
  lemma OtherTurn(s: State, k: string, now: int)
    requires s.order != [] && s.order[0] != k && HeldBack(s, k, now)
    ensures var s' := Visit(s, now).state;
      && k in s'.queues && s'.queues[k] == s.queues[k]
      && Count(s'.runtimeInflight, k) == Count(s.runtimeInflight, k)
      && s'.waiters[s.queues[k][0]] == s.waiters[s.queues[k][0]]
      && forall k2, x :: k2 in s'.queues && x in s'.queues[k2] ==> k2 in s.queues && x in s.queues[k2]
  {
    hide Trim, HeldBack;
    var key := s.order[0];
    HeldHead(s, k, now);
    if key in s.queues {
      TrimLeaves(s.waiters, s.queues[key], s.queues[k][0], now);
    }
  }

  lemma TrimLeaves(waiters: map<string, Record>, queue: seq<string>, h: string, now: int)
    requires h in waiters && h !in queue
    ensures var t := Trim(waiters, queue, now);
      && t.waiters[h] == waiters[h]
      && (forall x :: x in t.queue ==> x in queue)
      && (t.queue != [] ==> t.queue[0] in queue && forall x :: x in t.queue[1..] ==> x in queue)
  {
    TrimFacts(waiters, queue, now);
    hide Trim, Aged;
  }

  lemma HeldHead(s: State, k: string, now: int)
    requires HeldBack(s, k, now)
    ensures k in s.queues && s.queues[k] != [] && s.queues[k][0] in s.waiters
    ensures forall k2 :: k2 in s.queues && k2 != k ==> s.queues[k][0] !in s.queues[k2]
  {
  }

  lemma HeldBackStays(s: State, s': State, k: string, now: int)
    requires HeldBack(s, k, now)
    requires k in s'.queues && s'.queues[k] == s.queues[k]
    requires Count(s'.runtimeInflight, k) == Count(s.runtimeInflight, k)
    requires var h := s.queues[k][0]; h in s'.waiters && s'.waiters[h] == s.waiters[h]
    requires forall k2, x :: k2 in s'.queues && x in s'.queues[k2] ==> k2 in s.queues && x in s.queues[k2]
    ensures HeldBack(s', k, now)
  {
  }

  lemma {:induction false} ScanHoldsBack(s: State, k: string, now: int, n: nat)
    requires n <= |s.order| && HeldBack(s, k, now)
    ensures var s' := Scan(s, now, n).state; HeldBack(s', k, now) && s'.queues[k] == s.queues[k]
    decreases n
  {
    hide Visit, BlockedAt;
    if n > 0 {
      VisitHoldsBack(s, k, now);
      if !Visit(s, now).admitted {
        ScanHoldsBack(Visit(s, now).state, k, now, n - 1);
      }
    }
  }

  lemma {:induction false} AdmitAllHoldsBack(s: State, k: string, now: int)
    requires HeldBack(s, k, now)
    ensures var s' := AdmitAll(s, now); k in s'.queues && s'.queues[k] == s.queues[k]
    decreases s.maxRunning - s.inflight
  {
    hide Scan, BlockedAt;
    if s.inflight < s.maxRunning && s.order != [] {
      ScanHoldsBack(s, k, now, |s.order|);
      if Scan(s, now, |s.order|).admitted {
        AdmitAllHoldsBack(Scan(s, now, |s.order|).state, k, now);
      }
    }
  }

  lemma StaleHeldBack(t: State, key: string, id: string, w: Record, now: int, k: string)
    requires Inv(t) && SaturatedAt(t, now) && t.inflight < t.maxRunning
    requires k in t.queues && id !in t.waiters && w.phase == Queued
    ensures HeldBack(Enqueue(t, key, id, w), k, now)
  {
    EnqueueFields(t, key, id, w);
    hide Enqueue, Queues, Counters, Bounds, Fifo, History, Tickets, Registry;
    assert k in t.order && BlockedAt(t, k, now);
    StaleApart(t, Enqueue(t, key, id, w), key, id, k);
  }

  lemma StaleApart(t: State, e: State, key: string, id: string, k: string)
    requires Queues(t) && k in t.queues && t.queues[k] != [] && t.queues[k][0] != id
    requires e.queues == t.queues[key := (if key in t.queues then t.queues[key] else []) + [id]]
    ensures HeadApart(e, k)
  {
    hide QueuedInOwnQueue;
    var h := t.queues[k][0];
    assert InSubmissionOrder(t.queues[k], t.born, k);
    forall k2 | k2 in e.queues && k2 != k ensures h !in e.queues[k2] {
      if k2 in t.queues {
        assert InSubmissionOrder(t.queues[k2], t.born, k2);
        assert h !in t.queues[k2];
      }
    }
  }

  /** The stale place is still there after the submission. */
  lemma StalePlaceStays(t: State, key: string, id: string, w: Record, now: int, k: string)
    requires Inv(t) && SaturatedAt(t, now) && k in t.queues && id in t.queues[k] && id !in t.waiters
    requires w.phase == Queued && w.key == key
    ensures var r := AdmitAll(Enqueue(t, key, id, w), now);
      && k in r.queues && r.queues[k] == (if k == key then t.queues[k] + [id] else t.queues[k])
      && id in r.waiters && r.waiters[id].key == key
  {
    EnqueueFields(t, key, id, w);
    AdmitAllAdvances(Enqueue(t, key, id, w), now);
    hide Enqueue, AdmitAll, Inv;
    if t.inflight < t.maxRunning {
      StaleHeldBack(t, key, id, w, now, k);
      AdmitAllHoldsBack(Enqueue(t, key, id, w), k, now);
    } else {
      FullAdmitsNothing(Enqueue(t, key, id, w), now);
    }
  }

  lemma FullAdmitsNothing(s: State, now: int)
    requires s.inflight >= s.maxRunning
    ensures AdmitAll(s, now) == s
  {
  }

  /** Then no history fits: the id is in a queue that is not its own, or twice in its
      own. */
  lemma StaleIsIllegal(r: State, key: string, id: string, k: string, was: seq<string>)
    requires k in r.queues && id in was && r.queues[k] == (if k == key then was + [id] else was)
    requires id in r.waiters && r.waiters[id].key == key
    ensures !Legal(r)
  {
    hide Structure, Tickets, Counters, Bounds, Fifo, History;
    forall u | SameCore(r, u) ensures !Inv(u) {
      var i :| 0 <= i < |was| && was[i] == id;
      assert u.queues[k][i] == id;
      assert k == key ==> u.queues[k][|was|] == id;
    }
  }

  /** An accepted submission leaves the governor in order if and only if its id stood
      in no queue when it was enqueued. */
  lemma ReuseExactly(s: State, key: string, id: string, bound: int, timeout: Option<int>, now: int)
    requires Legal(s) && Submit(s, key, id, bound, timeout, now).1 == Submitted
    ensures Legal(Submit(s, key, id, bound, timeout, now).0) <==> InNoQueue(Refresh(s, now), id)
  {
    hide Inv, Refresh, AdmitAll, Enqueue, NewRecord, Blank, QueuedIds, SaturatedAt;
    var t :| SameCore(s, t) && Inv(t);
    if InNoQueue(Refresh(s, now), id) {
      SubmitLegal(s, t, OpSubmit(key, id, bound, timeout, now));
    } else {
      var k :| k in Refresh(s, now).queues && id in Refresh(s, now).queues[k];
      var s1, t1, w := Refresh(s, now), Refresh(t, now), NewRecord(key, bound, timeout, now);
      RefreshCore(s, t, now);
      RefreshKeeps(t, now);
      RefreshSaturates(t, now);
      RefreshBorn(t, now);
      NewRecordFields(key, bound, timeout, now);
      StalePlaceStays(t1, key, id, w, now, k);
      EnqueueCore(s1, t1, key, id, w);
      AdmitAllCore(Enqueue(s1, key, id, w), Enqueue(t1, key, id, w), now);
      StaleIsIllegal(Submit(s, key, id, bound, timeout, now).0, key, id, k, t1.queues[k]);
    }
  }
}
