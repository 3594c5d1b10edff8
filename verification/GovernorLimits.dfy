/** Two things the governor does not promise, each with a run that shows it. */
module GovernorLimits {
  import opened Common
  import opened GovernorState
  import opened GovernorInvariant
  import opened GovernorProgress

  function Waiting(key: string, bound: int, at: int): Record {
    Record(key, bound, at, None, Queued, None, None)
  }

  function Started(key: string, bound: int, at: int, start: int): Record {
    Record(key, bound, at, None, Running, Some(start), None)
  }

  lemma NothingOverdue(s: State, now: int)
    requires forall id :: id in s.waiters ==> s.waiters[id].deadline.None?
    ensures Expire(s, now) == s
  {
    assert Expire(s, now).waiters == s.waiters;
  }

  /** A submission without deadline to a governor that has nothing to admit. */
  lemma SubmitSteps(s: State, key: string, id: string, bound: int, now: int)
    requires !Blank(key) && !Blank(id) && bound >= 1 && id !in s.waiters && Refresh(s, now) == s
    requires |QueuedIds(s)| < s.queueCapacity || CanRunNow(s, key, bound)
    ensures Submit(s, key, id, bound, None, now) ==
      (AdmitAll(Enqueue(s, key, id, Waiting(key, bound, now)), now), Submitted)
  {
    hide Refresh, AdmitAll, Enqueue, QueuedIds, Blank, CanRunNow;
  }

  lemma NoneQueued(s: State)
    requires forall id :: id in s.waiters ==> s.waiters[id].phase != Queued
    ensures |QueuedIds(s)| == 0
  {
    assert QueuedIds(s) == {};
  }

  lemma OneQueued(s: State, x: string)
    requires forall id :: id in s.waiters && s.waiters[id].phase == Queued <==> id == x
    ensures |QueuedIds(s)| == 1
  {
    assert QueuedIds(s) == {x};
  }

  function Alone(max: int, cap: int, key: string, id: string, bound: int): State {
    State(max, cap, map[id := Waiting(key, bound, 0)], map[key := [id]], [key], {key}, map[], 0,
          map[id := Birth(key, 0)], [], [])
  }

  function Busy(max: int, cap: int, key: string, id: string, bound: int): State {
    State(max, cap, map[id := Started(key, bound, 0, 0)], map[], [], {}, map[key := 1], 1,
          map[id := Birth(key, 0)], [id], [id])
  }

  lemma AloneIsAdmitted(max: int, cap: int, key: string, id: string, bound: int)
    requires max >= 1 && cap >= 1 && bound >= 1
    ensures AdmitAll(Alone(max, cap, key, id, bound), 0) == Busy(max, cap, key, id, bound)
  {
    var s := Alone(max, cap, key, id, bound);
    var t := TrimQueue(PopFront(s), key, 0);
    assert t.queues == s.queues && t.waiters == s.waiters;
    var v := Visit(s, 0);
    assert v.admitted && v.state.queues == map[] && v.state.waiters == Busy(max, cap, key, id, bound).waiters;
    assert v.state == Busy(max, cap, key, id, bound);
  }

  /** The first submission to an idle governor runs at once. */
  lemma FirstRuns(max: int, cap: int, key: string, id: string, bound: int)
    requires max >= 1 && cap >= 1 && bound >= 1 && !Blank(key) && !Blank(id)
    ensures Apply(Init(max, cap), OpSubmit(key, id, bound, None, 0)) == Busy(max, cap, key, id, bound)
  {
    var s := Init(max, cap);
    NothingOverdue(s, 0);
    NoneQueued(s);
    SubmitSteps(s, key, id, bound, 0);
    EnqueueFirst(max, cap, key, id, bound);
    AloneIsAdmitted(max, cap, key, id, bound);
    hide Submit, AdmitAll, Enqueue;
  }

  lemma EnqueueFirst(max: int, cap: int, key: string, id: string, bound: int)
    ensures Enqueue(Init(max, cap), key, id, Waiting(key, bound, 0)) == Alone(max, cap, key, id, bound)
  {
    var s, e := Init(max, cap), Enqueue(Init(max, cap), key, id, Waiting(key, bound, 0));
    assert e.waiters == Alone(max, cap, key, id, bound).waiters;
    var none: seq<string> := [];
    assert none + [id] == [id];
    assert e.queues == map[key := [id]];
    assert e.order == [key] && e.inOrder == {key};
    assert e.born == map[id := Birth(key, 0)];
  }

  /** A submission is what lifts the number of queued waiters over the capacity
      exactly if the queue was full and its own runtime had queued work. */
  lemma OverfillExactly(s: State, key: string, id: string, bound: int, timeout: Option<int>, now: int)
    requires Inv(s) && id !in s.born && |QueuedIds(s)| <= s.queueCapacity
    requires Submit(s, key, id, bound, timeout, now).1 == Submitted
    ensures var s1, s' := Refresh(s, now), Submit(s, key, id, bound, timeout, now).0;
      |QueuedIds(s')| > s.queueCapacity <==> |QueuedIds(s1)| == s.queueCapacity && key in s1.queues
  {
    RefreshAdvances(s, now);
    AdvancedQueues(s, Refresh(s, now));
    RefreshBorn(s, now);
    SubmittedQueued(s, key, id, bound, timeout, now);
    hide Inv, Refresh, AdmitAll, Enqueue;
    if |QueuedIds(Refresh(s, now))| == s.queueCapacity {
      PastFullQueue(s, key, id, bound, timeout, now);
      if key in Refresh(s, now).queues {
        BehindOthers(s, key, id, bound, timeout, now);
      }
    }
  }

  lemma BehindOthers(s: State, key: string, id: string, bound: int, timeout: Option<int>, now: int)
    requires Inv(s) && id !in s.born && key in Refresh(s, now).queues
    requires CanRunNow(Refresh(s, now), key, bound)
    requires Submit(s, key, id, bound, timeout, now).1 == Submitted
    ensures |QueuedIds(Submit(s, key, id, bound, timeout, now).0)| == |QueuedIds(Refresh(s, now))| + 1
  {
    var s1, w := Refresh(s, now), NewRecord(key, bound, timeout, now);
    RefreshKeeps(s, now);
    RefreshSaturates(s, now);
    RefreshBorn(s, now);
    NewRecordFields(key, bound, timeout, now);
    SubmitUnroll(s, key, id, bound, timeout, now);
    StillBlocked(s1, key, id, w, now);
    EnqueueKeeps(s1, key, id, w);
    AllBlocked(Enqueue(s1, key, id, w), now);
    hide Inv, Refresh, AdmitAll, NewRecord, SaturatedAt, Submit, QueuedIds, BlockedAt;
    AddedQueued(s1, Submit(s, key, id, bound, timeout, now).0, id, w);
  }

  lemma AddedQueued(s: State, s': State, id: string, w: Record)
    requires id !in s.waiters && s'.waiters == s.waiters[id := w] && w.phase == Queued
    ensures |QueuedIds(s')| == |QueuedIds(s)| + 1
  {
    assert QueuedIds(s') == QueuedIds(s) + {id};
  }

  // ---- A reachable overfull queue ----------------------------------------

  /** `x` runs and `y` is queued behind it, both with bound one. */
  function Crowded(max: int, key: string, x: string, y: string): State {
    State(max, 1, map[x := Started(key, 1, 0, 0), y := Waiting(key, 1, 0)], map[key := [y]], [key], {key},
          map[key := 1], 1, map[x := Birth(key, 0), y := Birth(key, 1)], [x], [x])
  }

  lemma SecondWaits(max: int, key: string, x: string, y: string)
    requires max >= 1 && !Blank(key) && !Blank(y) && x != y
    ensures Apply(Busy(max, 1, key, x, 1), OpSubmit(key, y, 1, None, 0)) == Crowded(max, key, x, y)
  {
    var s, e := Busy(max, 1, key, x, 1), Crowded(max, key, x, y);
    NothingOverdue(s, 0);
    NoneQueued(s);
    SubmitSteps(s, key, y, 1, 0);
    EnqueueSecond(max, key, x, y);
    BlockedFixed(e, key, 0);
    hide Submit, AdmitAll, Enqueue;
  }

  lemma EnqueueSecond(max: int, key: string, x: string, y: string)
    requires x != y
    ensures Enqueue(Busy(max, 1, key, x, 1), key, y, Waiting(key, 1, 0)) == Crowded(max, key, x, y)
  {
    var s := Busy(max, 1, key, x, 1);
    var e := Enqueue(s, key, y, Waiting(key, 1, 0));
    assert s.born.Keys == {x};
    var none: seq<string> := [];
    assert none + [y] == [y];
    assert e.queues == map[key := [y]];
    assert e.order == [key];
  }

  lemma ThirdIsLetPast(key: string, x: string, y: string, z: string)
    requires !Blank(key) && !Blank(z) && x != y && z != x && z != y
    ensures var s := Crowded(2, key, x, y);
      && Submit(s, key, z, 2, None, 0).1 == Submitted
      && Refresh(s, 0) == s && |QueuedIds(s)| == 1
  {
    hide Refresh, Submit, QueuedIds, CanRunNow, Blank, AdmitAll, Enqueue;
    var s := Crowded(2, key, x, y);
    CrowdedQuiet(key, x, y);
    assert z !in s.waiters;
    hide Crowded;
    SubmitSteps(s, key, z, 2, 0);
  }

  lemma CrowdedQuiet(key: string, x: string, y: string)
    requires x != y
    ensures var s := Crowded(2, key, x, y);
      Refresh(s, 0) == s && |QueuedIds(s)| == 1 && CanRunNow(s, key, 2)
  {
    var s := Crowded(2, key, x, y);
    NothingOverdue(s, 0);
    BlockedFixed(s, key, 0);
    OneQueued(s, y);
    hide AdmitAll, QueuedIds;
  }

  /** With bounds that differ within a runtime the capacity does not hold: the
      last submission is let past the full queue and then waits behind a
      narrower one. */
  lemma MixedBoundsOverfill(key: string, x: string, y: string, z: string)
    requires !Blank(key) && !Blank(x) && !Blank(y) && !Blank(z) && x != y && z != x && z != y
    ensures var ops := [OpSubmit(key, x, 1, None, 0), OpSubmit(key, y, 1, None, 0), OpSubmit(key, z, 2, None, 0)];
      && FreshRun(Init(2, 1), ops)
      && |QueuedIds(Exec(Init(2, 1), ops))| > Init(2, 1).queueCapacity
  {
    hide Apply, QueuedIds, FreshRun, Exec;
    FirstRuns(2, 1, key, x, 1);
    SecondWaits(2, key, x, y);
    ThirdOverfills(key, x, y, z);
    ThreeSteps(Init(2, 1), OpSubmit(key, x, 1, None, 0), OpSubmit(key, y, 1, None, 0), OpSubmit(key, z, 2, None, 0));
  }

  lemma ThirdOverfills(key: string, x: string, y: string, z: string)
    requires !Blank(key) && !Blank(x) && !Blank(y) && !Blank(z) && x != y && z != x && z != y
    ensures |QueuedIds(Apply(Crowded(2, key, x, y), OpSubmit(key, z, 2, None, 0)))| > 1
  {
    ThirdIsLetPast(key, x, y, z);
    CrowdedInv(key, x, y);
    ApplySubmit(Crowded(2, key, x, y), OpSubmit(key, z, 2, None, 0));
    CrowdedFields(key, x, y, z);
    hide Apply, Inv, Submit, QueuedIds, Refresh, Crowded, Blank;
    OverfillExactly(Crowded(2, key, x, y), key, z, 2, None, 0);
  }

  lemma CrowdedFields(key: string, x: string, y: string, z: string)
    requires z != x && z != y
    ensures var s := Crowded(2, key, x, y); z !in s.born && s.queueCapacity == 1 && key in s.queues
  {
  }

  lemma CrowdedInv(key: string, x: string, y: string)
    requires !Blank(key) && !Blank(x) && !Blank(y) && x != y
    ensures Inv(Crowded(2, key, x, y))
  {
    FirstRuns(2, 1, key, x, 1);
    SecondWaits(2, key, x, y);
    InitInv(2, 1);
    hide Apply, Inv;
    ApplyKeeps(Init(2, 1), OpSubmit(key, x, 1, None, 0));
    ApplyKeeps(Busy(2, 1, key, x, 1), OpSubmit(key, y, 1, None, 0));
  }

  lemma ThreeSteps(s: State, x: Op, y: Op, z: Op)
    ensures Exec(s, [x, y, z]) == Apply(Apply(Apply(s, x), y), z)
    ensures FreshSubmission(s, x) && FreshSubmission(Apply(s, x), y) && FreshSubmission(Apply(Apply(s, x), y), z) ==>
      FreshRun(s, [x, y, z])
  {
    hide Apply, FreshSubmission;
    assert [x, y, z][1..] == [y, z] && [y, z][1..] == [z] && [z][1..] == [];
    assert Exec(Apply(s, x), [y, z]) == Exec(Apply(Apply(s, x), y), [z]);
    assert FreshRun(Apply(s, x), [y, z]) <==> FreshSubmission(Apply(s, x), y) && FreshRun(Apply(Apply(s, x), y), [z]);
  }

  lemma ApplySubmit(s: State, op: Op)
    requires op.OpSubmit?
    ensures Apply(s, op) == Submit(s, op.key, op.id, op.bound, op.timeout, op.now).0
  {
  }

  /** A lone blocked runtime: an admission round changes nothing. */
  lemma BlockedFixed(s: State, key: string, now: int)
    requires Structure(s) && s.order == [key] && BlockedAt(s, key, now)
    ensures AdmitAll(s, now) == s
  {
    if s.inflight < s.maxRunning {
      BlockedTurn(s, now);
      assert s.order[1..] + [s.order[0]] == s.order;
      assert Scan(s, now, 1) == Visited(s, false);
    }
  }

  // ---- A reused id charges the wrong runtime ------------------------------

  /** After `x` was abandoned while every slot was taken: its id is still in the
      queue of runtime `a`. */
  function Stale(a: string, r: string, x: string): State {
    State(1, 1, map[r := Started(a, 1, 0, 0)], map[a := [x]], [a], {a},
          map[a := 1], 1, map[r := Birth(a, 0), x := Birth(a, 1)], [r], [r])
  }

  /** The id is used again, for runtime `b`. */
  function Reused(a: string, b: string, r: string, x: string): State {
    State(1, 1, map[r := Started(a, 1, 0, 0), x := Waiting(b, 1, 0)], map[a := [x], b := [x]], [a, b], {a, b},
          map[a := 1], 1, map[r := Birth(a, 0), x := Birth(b, 2)], [r], [r])
  }

  /** `x` runs for `b` on a slot charged to `a`. */
  function Mischarged(a: string, b: string, r: string, x: string): State {
    State(1, 1, map[x := Started(b, 1, 0, 0)], map[b := [x]], [b], {b},
          map[a := 1], 1, map[r := Birth(a, 0), x := Birth(b, 2)], [r, x], [x])
  }

  function Leaked(a: string, b: string, r: string, x: string): State {
    State(1, 1, map[], map[], [], {}, map[a := 1], 0, map[r := Birth(a, 0), x := Birth(b, 2)], [r, x], [])
  }

  lemma AbandonLeavesStaleId(a: string, r: string, x: string)
    requires r != x
    ensures Apply(Crowded(1, a, r, x), OpAbandon(x, 0)) == Stale(a, r, x)
  {
    var s := Crowded(1, a, r, x);
    assert Discard(s, x).waiters == map[r := Started(a, 1, 0, 0)];
    assert Discard(s, x) == Stale(a, r, x);
  }

  lemma ReuseIsAccepted(a: string, b: string, r: string, x: string)
    requires !Blank(b) && !Blank(x) && r != x && a != b
    ensures Apply(Stale(a, r, x), OpSubmit(b, x, 1, None, 0)) == Reused(a, b, r, x)
  {
    var s := Stale(a, r, x);
    NothingOverdue(s, 0);
    NoneQueued(s);
    SubmitSteps(s, b, x, 1, 0);
    EnqueueReused(a, b, r, x);
    hide Submit, Enqueue;
  }

  lemma EnqueueReused(a: string, b: string, r: string, x: string)
    requires r != x && a != b
    ensures Enqueue(Stale(a, r, x), b, x, Waiting(b, 1, 0)) == Reused(a, b, r, x)
  {
    var s := Stale(a, r, x);
    var e := Enqueue(s, b, x, Waiting(b, 1, 0));
    assert s.born.Keys == {r, x} && |{r, x}| == 2;
    assert e.born == map[r := Birth(a, 0), x := Birth(b, 2)];
    var none: seq<string> := [];
    assert none + [x] == [x];
    assert e.queues == map[a := [x], b := [x]];
    assert e.order == [a, b];
  }

  lemma ReleaseMischarges(a: string, b: string, r: string, x: string)
    requires r != x && a != b
    ensures Apply(Reused(a, b, r, x), OpRelease(r, 0)) == Mischarged(a, b, r, x)
  {
    ReusedFreed(a, b, r, x);
    FreedMischarges(a, b, r, x);
    hide AdmitAll, Unrun;
  }

  /** `r` has given its slot back. */
  function ReusedIdle(a: string, b: string, r: string, x: string): State {
    State(1, 1, map[x := Waiting(b, 1, 0)], map[a := [x], b := [x]], [a, b], {a, b},
          map[], 0, map[r := Birth(a, 0), x := Birth(b, 2)], [r], [])
  }

  lemma ReusedFreed(a: string, b: string, r: string, x: string)
    requires r != x && a != b
    ensures Unrun(Reused(a, b, r, x), r, a) == ReusedIdle(a, b, r, x)
  {
    WithoutMembers([r], r);
    assert Without([r], r) == [];
    var u := Unrun(Reused(a, b, r, x), r, a);
    assert u.waiters == map[x := Waiting(b, 1, 0)] && u.runtimeInflight == map[];
  }

  lemma FreedMischarges(a: string, b: string, r: string, x: string)
    requires r != x && a != b
    ensures AdmitAll(ReusedIdle(a, b, r, x), 0) == Mischarged(a, b, r, x)
  {
    var u := ReusedIdle(a, b, r, x);
    var v := Visit(u, 0);
    var s2 := TrimQueue(PopFront(u), a, 0);
    assert s2.queues == u.queues && s2.waiters == u.waiters;
    assert v.admitted && v.state.order == [b];
    assert v.state.queues == map[b := [x]];
    assert v.state == Mischarged(a, b, r, x);
  }

  lemma SecondReleaseLeaks(a: string, b: string, r: string, x: string)
    requires r != x && a != b
    ensures Apply(Mischarged(a, b, r, x), OpRelease(x, 0)) == Leaked(a, b, r, x)
  {
    var s := Mischarged(a, b, r, x);
    var u := Unrun(s, x, b);
    WithoutMembers([x], x);
    assert Without([x], x) == [];
    assert u == s.(waiters := map[], inflight := 0, running := []);
    var v := Visit(u, 0);
    assert Trim(u.waiters, [x], 0).queue == [];
    assert v == Visited(Leaked(a, b, r, x), false);
    assert Scan(u, 0, 1) == v;
  }

  /** Why ids must be new: if an abandoned request's id is submitted again for
      another runtime, the rotation charges its slot to the first runtime, and
      when every request has been released that runtime still counts one. */
  lemma ReusedIdLeaks(a: string, b: string, r: string, x: string)
    requires !Blank(a) && !Blank(b) && !Blank(r) && !Blank(x) && r != x && a != b
    ensures var ops := [OpSubmit(a, r, 1, None, 0), OpSubmit(a, x, 1, None, 0), OpAbandon(x, 0),
                        OpSubmit(b, x, 1, None, 0), OpRelease(r, 0), OpRelease(x, 0)];
      var s := Exec(Init(1, 1), ops);
      s.waiters == map[] && s.inflight == 0 && Count(s.runtimeInflight, a) == 1
  {
    FirstHalf(a, r, x);
    SecondHalf(a, b, r, x);
    hide Apply, Exec;
    SixSteps(Init(1, 1), OpSubmit(a, r, 1, None, 0), OpSubmit(a, x, 1, None, 0), OpAbandon(x, 0),
             OpSubmit(b, x, 1, None, 0), OpRelease(r, 0), OpRelease(x, 0));
  }

  lemma SixSteps(s: State, p: Op, q: Op, r: Op, u: Op, v: Op, w: Op)
    ensures Exec(s, [p, q, r, u, v, w]) == Exec(Exec(s, [p, q, r]), [u, v, w])
  {
    ExecAppend(s, [p, q, r], [u, v, w]);
    assert [p, q, r] + [u, v, w] == [p, q, r, u, v, w];
  }

  lemma FirstHalf(a: string, r: string, x: string)
    requires !Blank(a) && !Blank(r) && !Blank(x) && r != x
    ensures Exec(Init(1, 1), [OpSubmit(a, r, 1, None, 0), OpSubmit(a, x, 1, None, 0), OpAbandon(x, 0)])
         == Stale(a, r, x)
  {
    FirstRuns(1, 1, a, r, 1);
    SecondWaits(1, a, r, x);
    AbandonLeavesStaleId(a, r, x);
    hide Apply, Exec;
    ThreeSteps(Init(1, 1), OpSubmit(a, r, 1, None, 0), OpSubmit(a, x, 1, None, 0), OpAbandon(x, 0));
  }

  lemma SecondHalf(a: string, b: string, r: string, x: string)
    requires !Blank(b) && !Blank(x) && r != x && a != b
    ensures Exec(Stale(a, r, x), [OpSubmit(b, x, 1, None, 0), OpRelease(r, 0), OpRelease(x, 0)]) == Leaked(a, b, r, x)
  {
    ReuseIsAccepted(a, b, r, x);
    ReleaseMischarges(a, b, r, x);
    SecondReleaseLeaks(a, b, r, x);
    hide Apply, Exec;
    ThreeSteps(Stale(a, r, x), OpSubmit(b, x, 1, None, 0), OpRelease(r, 0), OpRelease(x, 0));
  }

  lemma {:induction false} ExecAppend(s: State, p: seq<Op>, q: seq<Op>)
    ensures Exec(s, p + q) == Exec(Exec(s, p), q)
    decreases |p|
  {
    hide Apply;
    if p == [] {
      assert p + q == q;
    } else {
      assert (p + q)[1..] == p[1..] + q;
      ExecAppend(Apply(s, p[0]), p[1..], q);
    }
  }
}
