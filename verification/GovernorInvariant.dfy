/** What every reachable governor state satisfies, and that every operation
    keeps it. */
module GovernorInvariant {
  import opened Common
  import opened GovernorState

  /** The rotation, its mirror set and the queue table name the same runtimes. */
  ghost predicate Structure(s: State) {
    && NoDup(s.order)
    && (forall k :: k in s.order <==> k in s.queues)
    && s.inOrder == s.queues.Keys
    && (forall k :: k in s.queues ==> s.queues[k] != [])
  }

  /** `queue` holds ids submitted for `key`, in submission order. */
  ghost predicate InSubmissionOrder(queue: seq<string>, born: map<string, Birth>, key: string) {
    && (forall i :: 0 <= i < |queue| ==> queue[i] in born && born[queue[i]].key == key)
    && (forall i, j :: 0 <= i < j < |queue| ==> born[queue[i]].ticket < born[queue[j]].ticket)
  }

  ghost predicate QueuedInOwnQueue(s: State, id: string) {
    id in s.waiters && s.waiters[id].phase == Queued ==>
      s.waiters[id].key in s.queues && id in s.queues[s.waiters[id].key]
  }

  /** Queues hold ids of their own runtime in submission order, and every queued
      waiter is in its runtime's queue. */
  ghost predicate Queues(s: State) {
    && (forall k :: k in s.queues ==> InSubmissionOrder(s.queues[k], s.born, k))
    && (forall id :: QueuedInOwnQueue(s, id))
  }

  ghost predicate Registry(s: State) {
    && (forall id :: id in s.waiters ==> id in s.born && s.born[id].key == s.waiters[id].key)
    && (forall id :: id in s.waiters ==> s.waiters[id].bound >= 1)
    && (forall id :: id in s.waiters ==> s.waiters[id].phase in {Queued, Running, Expired})
    && (forall id :: id in s.waiters && s.waiters[id].phase == Running ==>
      && s.waiters[id].startedAt.Some?
      && !s.waiters[id].ExpiredAt(s.waiters[id].startedAt.value))
  }

  ghost predicate Tickets(s: State) {
    && (forall id :: id in s.born ==> s.born[id].ticket < |s.born.Keys|)
    && (forall a, b :: a in s.born && b in s.born && a != b ==> s.born[a].ticket != s.born[b].ticket)
  }

  ghost predicate Counters(s: State) {
    && NoDup(s.running)
    && (forall id :: id in s.running <==> id in s.waiters && s.waiters[id].phase == Running)
    && s.inflight == |s.running| <= s.maxRunning
    && (forall k :: Count(s.runtimeInflight, k) == |OfRuntime(s.running, s.born, k)|)
    && (forall k :: k in s.runtimeInflight ==> s.runtimeInflight[k] >= 1)
  }

  ghost predicate BoundsHold(ids: seq<string>, waiters: map<string, Record>) {
    forall i :: 0 <= i < |ids| ==> ids[i] in waiters && waiters[ids[i]].bound >= i + 1
  }

  /** The i-th oldest running admission of a runtime has a bound of at least i. */
  ghost predicate Bounds(s: State) {
    forall k :: BoundsHold(OfRuntime(s.running, s.born, k), s.waiters)
  }

  /** Unless they belong to different runtimes, `a` was submitted before `b`. */
  ghost predicate Earlier(born: map<string, Birth>, a: string, b: string) {
    a in born && b in born && (born[a].key == born[b].key ==> born[a].ticket < born[b].ticket)
  }

  /** Per runtime, admissions happen in submission order and before everything
      that is still queued. */
  ghost predicate Fifo(s: State) {
    && (forall i :: 0 <= i < |s.admitted| ==> s.admitted[i] in s.born)
    && (forall i, j :: 0 <= i < j < |s.admitted| ==> Earlier(s.born, s.admitted[i], s.admitted[j]))
    && (forall i, id | 0 <= i < |s.admitted| && id in s.waiters && s.waiters[id].phase == Queued ::
      Earlier(s.born, s.admitted[i], id))
  }

  /** `running` lists the running waiters in the order of their admission. */
  ghost predicate History(s: State) {
    s.running == KeepOnly(s.admitted, RunningIds(s))
  }

  ghost predicate Inv(s: State) {
    && s.maxRunning >= 1 && s.queueCapacity >= 1
    && Structure(s) && Queues(s) && Registry(s) && Tickets(s) && Counters(s) && Bounds(s) && Fifo(s) && History(s)
  }

  // ---- Filtering by runtime ----------------------------------------------

  lemma {:induction false} OfRuntimeMembers(ids: seq<string>, born: map<string, Birth>, key: string)
    ensures forall id :: id in OfRuntime(ids, born, key) <==> id in ids && Runtime(born, id) == key
  {
    if ids != [] {
      OfRuntimeMembers(ids[..|ids| - 1], born, key);
      assert ids == ids[..|ids| - 1] + [ids[|ids| - 1]];
    }
  }

  lemma {:induction false} OfRuntimeNoDup(ids: seq<string>, born: map<string, Birth>, key: string)
    requires NoDup(ids)
    ensures NoDup(OfRuntime(ids, born, key))
  {
    if ids != [] {
      var front := ids[..|ids| - 1];
      OfRuntimeNoDup(front, born, key);
      OfRuntimeMembers(front, born, key);
      assert ids[|ids| - 1] !in front;
    }
  }

  lemma {:induction false} OfRuntimeWithout(ids: seq<string>, born: map<string, Birth>, key: string, x: string)
    ensures OfRuntime(Without(ids, x), born, key) == Without(OfRuntime(ids, born, key), x)
  {
    if ids != [] {
      var front, last := ids[..|ids| - 1], ids[|ids| - 1];
      OfRuntimeWithout(front, born, key, x);
      OfRuntimeAppend(Without(front, x), born, key, last);
      WithoutAppend(OfRuntime(front, born, key), last, x);
      assert OfRuntime(front, born, key) + [] == OfRuntime(front, born, key);
      assert Without(front, x) + [] == Without(front, x);
      assert Without(OfRuntime(front, born, key), x) + [] == Without(OfRuntime(front, born, key), x);
    }
  }

  lemma {:induction false} OfRuntimeFrame(
      ids: seq<string>, born: map<string, Birth>, born': map<string, Birth>, key: string)
    requires forall id :: id in ids ==> Runtime(born, id) == Runtime(born', id)
    ensures OfRuntime(ids, born, key) == OfRuntime(ids, born', key)
  {
    if ids != [] {
      OfRuntimeFrame(ids[..|ids| - 1], born, born', key);
    }
  }

  lemma OfRuntimeAppend(ids: seq<string>, born: map<string, Birth>, key: string, id: string)
    ensures OfRuntime(ids + [id], born, key)
         == OfRuntime(ids, born, key) + (if Runtime(born, id) == key then [id] else [])
  {
    assert (ids + [id])[..|ids + [id]| - 1] == ids;
  }

  lemma {:induction false} KeepOnlyMore(ids: seq<string>, keep: set<string>, x: string)
    requires x !in ids
    ensures KeepOnly(ids, keep + {x}) == KeepOnly(ids, keep)
  {
    if ids != [] {
      KeepOnlyMore(ids[..|ids| - 1], keep, x);
    }
  }

  lemma {:induction false} KeepOnlyLess(ids: seq<string>, keep: set<string>, x: string)
    ensures KeepOnly(ids, keep - {x}) == Without(KeepOnly(ids, keep), x)
  {
    if ids != [] {
      var front, last := ids[..|ids| - 1], ids[|ids| - 1];
      KeepOnlyLess(front, keep, x);
      WithoutAppend(KeepOnly(front, keep), last, x);
      assert KeepOnly(front, keep) + [] == KeepOnly(front, keep);
      assert Without(KeepOnly(front, keep), x) + [] == Without(KeepOnly(front, keep), x);
    }
  }

  // ---- Ageing: waiters that only expire ----------------------------------

  /** `w'` is `w` with some overdue queued waiters marked expired. */
  ghost predicate Aged(w: map<string, Record>, w': map<string, Record>, now: int) {
    && w'.Keys == w.Keys
    && forall id :: id in w ==> w'[id] == w[id] || w'[id] == ExpireRecord(w[id], now)
  }

  lemma TrimUnfolds(waiters: map<string, Record>, queue: seq<string>, now: int)
    ensures Trim(waiters, queue, now) ==
      if queue == [] then Trimmed(waiters, queue)
      else if queue[0] !in waiters || waiters[queue[0]].phase != Queued then Trim(waiters, queue[1..], now)
      else if waiters[queue[0]].ExpiredAt(now) then
        Trim(waiters[queue[0] := waiters[queue[0]].(phase := Expired, finishedAt := Some(now))], queue[1..], now)
      else Trimmed(waiters, queue)
  {
  }

  /** What trimming leaves: a suffix of the queue, with every id before it stale
      and every waiter not in the queue untouched. */
  ghost predicate TrimmedFrom(waiters: map<string, Record>, queue: seq<string>, t: Trimmed, now: int) {
    && Aged(waiters, t.waiters, now)
    && |t.queue| <= |queue|
    && t.queue == queue[|queue| - |t.queue|..]
    && (forall i :: 0 <= i < |queue| - |t.queue| ==>
      queue[i] !in t.waiters || t.waiters[queue[i]].phase != Queued)
    && (forall id :: id in waiters && id !in queue ==> t.waiters[id] == waiters[id])
  }

  lemma {:induction false} TrimFacts(waiters: map<string, Record>, queue: seq<string>, now: int)
    ensures TrimmedFrom(waiters, queue, Trim(waiters, queue, now), now)
  {
    TrimUnfolds(waiters, queue, now);
    hide Trim, Aged, TrimmedFrom;
    if queue == [] {
      TrimNothing(waiters, queue, now);
    } else {
      var id := queue[0];
      if id !in waiters || waiters[id].phase != Queued {
        TrimFacts(waiters, queue[1..], now);
        AgedSelf(waiters, now);
        TrimSteps(waiters, waiters, queue, Trim(waiters, queue[1..], now), now);
      } else if waiters[id].ExpiredAt(now) {
        var w' := waiters[id := waiters[id].(phase := Expired, finishedAt := Some(now))];
        AgedOne(waiters, id, now);
        TrimFacts(w', queue[1..], now);
        TrimSteps(waiters, w', queue, Trim(w', queue[1..], now), now);
      } else {
        TrimNothing(waiters, queue, now);
      }
    }
  }

  lemma TrimNothing(waiters: map<string, Record>, queue: seq<string>, now: int)
    ensures TrimmedFrom(waiters, queue, Trimmed(waiters, queue), now)
  {
  }

  lemma AgedSelf(w: map<string, Record>, now: int)
    ensures Aged(w, w, now)
  {
  }

  lemma AgedOne(w: map<string, Record>, id: string, now: int)
    requires id in w && w[id].phase == Queued && w[id].ExpiredAt(now)
    ensures Aged(w, w[id := w[id].(phase := Expired, finishedAt := Some(now))], now)
  {
  }

  lemma TrimSteps(waiters: map<string, Record>, w': map<string, Record>, queue: seq<string>, t: Trimmed, now: int)
    requires queue != [] && TrimmedFrom(w', queue[1..], t, now)
    requires Aged(waiters, w', now)
    requires forall id :: id in waiters && id != queue[0] ==> w'[id] == waiters[id]
    requires queue[0] !in w' || w'[queue[0]].phase != Queued
    ensures TrimmedFrom(waiters, queue, t, now)
  {
    forall i | 0 <= i < |queue| - |t.queue|
      ensures queue[i] !in t.waiters || t.waiters[queue[i]].phase != Queued
    {
      if i > 0 {
        assert queue[i] == queue[1..][i - 1];
      }
    }
  }

  /** Everything that does not mention the queues survives ageing. */
  lemma AgedKeeps(s: State, s': State, now: int)
    requires Registry(s) && Tickets(s) && Counters(s) && Bounds(s) && Fifo(s) && History(s)
    requires Aged(s.waiters, s'.waiters, now)
    requires s' == s.(waiters := s'.waiters, queues := s'.queues, order := s'.order, inOrder := s'.inOrder)
    ensures Registry(s') && Tickets(s') && Counters(s') && Bounds(s') && Fifo(s') && History(s')
  {
    AgedRegistry(s, s', now);
    AgedRunning(s, s', now);
    hide Registry, Tickets, Counters, Fifo, RunningIds;
    forall k ensures BoundsHold(OfRuntime(s'.running, s'.born, k), s'.waiters) {
      assert BoundsHold(OfRuntime(s.running, s.born, k), s.waiters);
    }
  }

  lemma AgedRunning(s: State, s': State, now: int)
    requires Aged(s.waiters, s'.waiters, now)
    ensures RunningIds(s') == RunningIds(s)
  {
  }

  lemma AgedRegistry(s: State, s': State, now: int)
    requires Registry(s) && Tickets(s) && Counters(s) && Fifo(s)
    requires Aged(s.waiters, s'.waiters, now)
    requires s' == s.(waiters := s'.waiters, queues := s'.queues, order := s'.order, inOrder := s'.inOrder)
    ensures Registry(s') && Tickets(s') && Counters(s') && Fifo(s')
  {
    hide Fifo, Registry, Counters;
    AgedFifo(s, s', now);
    AgedRecords(s, s', now);
    AgedCounters(s, s', now);
  }

  lemma AgedRecords(s: State, s': State, now: int)
    requires Registry(s) && Aged(s.waiters, s'.waiters, now) && s'.born == s.born
    ensures Registry(s')
  {
  }

  lemma AgedCounters(s: State, s': State, now: int)
    requires Counters(s) && Aged(s.waiters, s'.waiters, now)
    requires s' == s.(waiters := s'.waiters, queues := s'.queues, order := s'.order, inOrder := s'.inOrder)
    ensures Counters(s')
  {
    hide OfRuntime;
  }

  lemma AgedFifo(s: State, s': State, now: int)
    requires Fifo(s) && Aged(s.waiters, s'.waiters, now)
    requires s'.admitted == s.admitted && s'.born == s.born
    ensures Fifo(s')
  {
    hide Earlier;
  }

  lemma ExpireKeeps(s: State, now: int)
    requires Inv(s)
    ensures Inv(Expire(s, now))
  {
    var s' := Expire(s, now);
    AgedKeeps(s, s', now);
    forall id ensures QueuedInOwnQueue(s', id) {
      assert QueuedInOwnQueue(s, id);
    }
  }

  // ---- One turn of the rotation ------------------------------------------

  /** `s` with the queue of `key` trimmed and `key` off the rotation. */
  ghost predicate Opened(s: State, s2: State, key: string, now: int) {
    && s.order != [] && key == s.order[0] && key in s.queues
    && s2 == TrimQueue(PopFront(s), key, now)
  }

  lemma OpenedFacts(s: State, s2: State, key: string, now: int)
    requires Inv(s) && Opened(s, s2, key, now)
    ensures Queues(s2) && Registry(s2) && Tickets(s2) && Counters(s2) && Bounds(s2) && Fifo(s2) && History(s2)
    ensures OffRotation(s2, key)
  {
    TrimFacts(s.waiters, s.queues[key], now);
    AgedKeeps(s, s2, now);
    OpenedRotation(s, s2, key, now);
    OpenedQueues(s, s2, key, now);
  }

  /** `key` has a queue but is off the rotation; all other runtimes are on it. */
  ghost predicate OffRotation(s: State, key: string) {
    && s.maxRunning >= 1 && s.queueCapacity >= 1
    && NoDup(s.order)
    && key in s.queues
    && (forall k :: k in s.order <==> k in s.queues && k != key)
    && s.inOrder == s.queues.Keys - {key}
    && (forall k :: k in s.queues && k != key ==> s.queues[k] != [])
  }

  lemma OpenedRotation(s: State, s2: State, key: string, now: int)
    requires s.maxRunning >= 1 && s.queueCapacity >= 1
    requires Structure(s) && Opened(s, s2, key, now)
    ensures OffRotation(s2, key)
  {
    assert forall i :: 0 <= i < |s2.order| ==> s2.order[i] == s.order[i + 1];
    forall k ensures k in s2.order <==> k in s2.queues && k != key {
      assert k in s.order <==> k == key || k in s2.order by {
        assert s.order == [key] + s2.order;
      }
      assert key !in s2.order;
    }
  }

  lemma SuffixInSubmissionOrder(queue: seq<string>, born: map<string, Birth>, key: string, d: nat)
    requires InSubmissionOrder(queue, born, key) && d <= |queue|
    ensures InSubmissionOrder(queue[d..], born, key)
  {
  }

  /** Trimming keeps the ids that are still queued. */
  lemma LiveIsKept(waiters: map<string, Record>, queue: seq<string>, t: Trimmed, now: int, id: string)
    requires TrimmedFrom(waiters, queue, t, now)
    requires id in queue && id in t.waiters && t.waiters[id].phase == Queued
    ensures id in t.queue
  {
    var i :| 0 <= i < |queue| && queue[i] == id;
    assert t.queue[i - (|queue| - |t.queue|)] == id;
  }

  lemma OpenedQueues(s: State, s2: State, key: string, now: int)
    requires Queues(s) && Opened(s, s2, key, now)
    ensures Queues(s2)
  {
    hide Trim;
    var was, queue := s.queues[key], s2.queues[key];
    TrimFacts(s.waiters, was, now);
    SuffixInSubmissionOrder(was, s.born, key, |was| - |queue|);
    forall id ensures QueuedInOwnQueue(s2, id) {
      if id in s2.waiters && s2.waiters[id].phase == Queued {
        assert s2.waiters[id] == s.waiters[id] && QueuedInOwnQueue(s, id);
        if s.waiters[id].key == key {
          LiveIsKept(s.waiters, was, Trim(s.waiters, was, now), now, id);
        }
      }
    }
  }

  /** Dropping an exhausted runtime. */
  lemma DroppedKeeps(s2: State, key: string)
    requires Queues(s2) && Registry(s2) && Tickets(s2) && Counters(s2) && Bounds(s2) && Fifo(s2) && History(s2)
    requires OffRotation(s2, key) && s2.queues[key] == []
    ensures Inv(DropQueue(s2, key))
  {
    var s' := DropQueue(s2, key);
    AgedKeeps(s2, s', 0);
    forall id ensures QueuedInOwnQueue(s', id) {
      assert QueuedInOwnQueue(s2, id);
    }
  }

  /** Sending a runtime to the back of the rotation. */
  lemma ScheduledKeeps(s2: State, key: string)
    requires Queues(s2) && Registry(s2) && Tickets(s2) && Counters(s2) && Bounds(s2) && Fifo(s2) && History(s2)
    requires OffRotation(s2, key) && s2.queues[key] != []
    ensures Inv(Schedule(s2, key))
  {
    var s' := Schedule(s2, key);
    AgedKeeps(s2, s', 0);
    forall id ensures QueuedInOwnQueue(s', id) {
      assert QueuedInOwnQueue(s2, id);
    }
  }

  /** The queue of `key` without its head `id`, and the rotation put right. */
  function Advance(s2: State, key: string): State
    requires key in s2.queues && s2.queues[key] != []
  {
    var s3 := s2.(queues := s2.queues[key := s2.queues[key][1..]]);
    if s3.queues[key] != [] then Schedule(s3, key) else DropQueue(s3, key)
  }

  /** What a turn does for a runtime that has a queue. */
  ghost function Turn(s1: State, key: string, now: int): Visited
    requires key in s1.queues
  {
    var s2 := TrimQueue(s1, key, now);
    if s2.queues[key] == [] then Visited(DropQueue(s2, key), false)
    else
      var id := s2.queues[key][0];
      if Count(s2.runtimeInflight, key) >= s2.waiters[id].bound then Visited(Schedule(s2, key), false)
      else Visited(Admit(Advance(s2, key), key, id, now), true)
  }

  lemma VisitIsTurn(s: State, now: int)
    requires s.order != []
    ensures var key, s1 := s.order[0], PopFront(s);
      Visit(s, now) == if key !in s1.queues then Visited(s1, false) else Turn(s1, key, now)
  {
  }

  lemma AdmitCounters(s: State, key: string, id: string, now: int)
    requires Counters(s) && Registry(s)
    requires id in s.waiters && s.waiters[id].phase == Queued && s.waiters[id].key == key
    requires s.inflight < s.maxRunning
    ensures Counters(Admit(s, key, id, now))
  {
    var s' := Admit(s, key, id, now);
    forall k
      ensures Count(s'.runtimeInflight, k) == |OfRuntime(s'.running, s'.born, k)|
    {
      OfRuntimeAppend(s.running, s.born, k, id);
      assert Count(s.runtimeInflight, k) == |OfRuntime(s.running, s.born, k)|;
    }
    assert id !in s.running;
  }

  lemma AdmitBounds(s: State, key: string, id: string, now: int)
    requires Counters(s) && Bounds(s) && Registry(s)
    requires id in s.waiters && s.waiters[id].phase == Queued && s.waiters[id].key == key
    requires Count(s.runtimeInflight, key) < s.waiters[id].bound
    ensures Bounds(Admit(s, key, id, now))
  {
    hide BoundsHold;
    var s' := Admit(s, key, id, now);
    forall k ensures BoundsHold(OfRuntime(s'.running, s'.born, k), s'.waiters) {
      assert BoundsHold(OfRuntime(s.running, s.born, k), s.waiters);
      assert Count(s.runtimeInflight, k) == |OfRuntime(s.running, s.born, k)|;
      OfRuntimeAppend(s.running, s.born, k, id);
      BoundsGrow(OfRuntime(s.running, s.born, k), s.waiters, s'.waiters, id);
      NoneAdded(OfRuntime(s.running, s.born, k));
    }
  }

  lemma NoneAdded(ids: seq<string>)
    ensures ids + [] == ids
  {
  }

  /** The bounds of a runtime survive, and one more admission within its bound. */
  lemma BoundsGrow(ids: seq<string>, w: map<string, Record>, w': map<string, Record>, id: string)
    requires BoundsHold(ids, w) && forall x :: x in w ==> x in w' && w'[x].bound == w[x].bound
    ensures BoundsHold(ids, w')
    ensures id in w' && |ids| < w'[id].bound ==> BoundsHold(ids + [id], w')
  {
  }

  lemma AdmitHistory(s: State, key: string, id: string, now: int)
    requires Fifo(s) && History(s)
    requires id in s.waiters && s.waiters[id].phase == Queued
    ensures History(Admit(s, key, id, now))
  {
    var s' := Admit(s, key, id, now);
    forall i | 0 <= i < |s.admitted| ensures s.admitted[i] != id {
      assert Earlier(s.born, s.admitted[i], id);
    }
    assert RunningIds(s') == RunningIds(s) + {id};
    KeepOnlyMore(s.admitted, RunningIds(s), id);
    assert s'.admitted[..|s'.admitted| - 1] == s.admitted;
  }

  lemma AdmitRegistry(s: State, key: string, id: string, now: int)
    requires Registry(s) && Tickets(s)
    requires id in s.waiters && !s.waiters[id].ExpiredAt(now)
    ensures Registry(Admit(s, key, id, now)) && Tickets(Admit(s, key, id, now))
  {
  }

  lemma AdmitFifo(s2: State, key: string, id: string, now: int)
    requires Queues(s2) && Registry(s2) && Tickets(s2) && Fifo(s2)
    requires key in s2.queues && s2.queues[key] != [] && id == s2.queues[key][0]
    requires id in s2.waiters && s2.waiters[id].phase == Queued
    ensures Fifo(Admit(Advance(s2, key), key, id, now))
  {
    AdmitFifoPast(s2, key, id, now);
    AdmitFifoQueued(s2, key, id, now);
    hide Earlier;
  }

  lemma AdmitFifoPast(s2: State, key: string, id: string, now: int)
    requires Fifo(s2) && Registry(s2) && id in s2.waiters && s2.waiters[id].phase == Queued
    requires key in s2.queues && s2.queues[key] != []
    ensures var s' := Admit(Advance(s2, key), key, id, now);
      && (forall i :: 0 <= i < |s'.admitted| ==> s'.admitted[i] in s'.born)
      && (forall i, j :: 0 <= i < j < |s'.admitted| ==> Earlier(s'.born, s'.admitted[i], s'.admitted[j]))
  {
    hide Earlier;
  }

  lemma AdmitFifoQueued(s2: State, key: string, id: string, now: int)
    requires Queues(s2) && Registry(s2) && Tickets(s2) && Fifo(s2)
    requires key in s2.queues && s2.queues[key] != [] && id == s2.queues[key][0]
    requires id in s2.waiters && s2.waiters[id].phase == Queued
    ensures var s' := Admit(Advance(s2, key), key, id, now);
      forall i, x | 0 <= i < |s'.admitted| && x in s'.waiters && s'.waiters[x].phase == Queued ::
        Earlier(s'.born, s'.admitted[i], x)
  {
    var s' := Admit(Advance(s2, key), key, id, now);
    forall i, x | 0 <= i < |s'.admitted| && x in s'.waiters && s'.waiters[x].phase == Queued
      ensures Earlier(s'.born, s'.admitted[i], x)
    {
      if i < |s2.admitted| {
        assert Earlier(s2.born, s2.admitted[i], x);
      } else if s2.born[x].key == key {
        assert QueuedInOwnQueue(s2, x);
        assert InSubmissionOrder(s2.queues[key], s2.born, key);
        var j :| 0 <= j < |s2.queues[key]| && s2.queues[key][j] == x;
        assert j > 0;
      }
    }
  }

  lemma AdmitQueues(s2: State, key: string, id: string, now: int)
    requires Queues(s2) && Registry(s2) && OffRotation(s2, key)
    requires s2.queues[key] != [] && id == s2.queues[key][0]
    requires id in s2.waiters && s2.waiters[id].phase == Queued
    ensures Queues(Admit(Advance(s2, key), key, id, now))
  {
    var s' := Admit(Advance(s2, key), key, id, now);
    SuffixInSubmissionOrder(s2.queues[key], s2.born, key, 1);
    forall x ensures QueuedInOwnQueue(s', x) {
      if x in s'.waiters && s'.waiters[x].phase == Queued {
        assert QueuedInOwnQueue(s2, x);
        if s2.waiters[x].key == key {
          var j :| 0 <= j < |s2.queues[key]| && s2.queues[key][j] == x;
          assert s2.queues[key][1..][j - 1] == x;
        }
      }
    }
  }

  lemma AdvanceStructure(s2: State, key: string)
    requires OffRotation(s2, key) && s2.queues[key] != []
    ensures Structure(Advance(s2, key))
  {
  }

  /** A slot for the head of an opened queue that its runtime's bound allows. */
  lemma AdmittedKeeps(s2: State, key: string, id: string, now: int)
    requires Queues(s2) && Registry(s2) && Tickets(s2) && Counters(s2) && Bounds(s2) && Fifo(s2) && History(s2)
    requires OffRotation(s2, key) && s2.queues[key] != [] && id == s2.queues[key][0]
    requires id in s2.waiters && s2.waiters[id].phase == Queued && !s2.waiters[id].ExpiredAt(now)
    requires s2.inflight < s2.maxRunning && Count(s2.runtimeInflight, key) < s2.waiters[id].bound
    ensures Inv(Admit(Advance(s2, key), key, id, now))
  {
    var s4 := Advance(s2, key);
    assert InSubmissionOrder(s2.queues[key], s2.born, key);
    assert s2.born[id].key == key;
    AgedKeeps(s2, s4, now);
    AdvanceStructure(s2, key);
    AdmitQueues(s2, key, id, now);
    AdmitFifo(s2, key, id, now);
    AdmitCounters(s4, key, id, now);
    AdmitBounds(s4, key, id, now);
    AdmitHistory(s4, key, id, now);
    AdmitRegistry(s4, key, id, now);
  }

  lemma VisitKeeps(s: State, now: int)
    requires Inv(s) && s.order != [] && s.inflight < s.maxRunning
    ensures Inv(Visit(s, now).state)
  {
    var key := s.order[0];
    var s2 := TrimQueue(PopFront(s), key, now);
    OpenedFacts(s, s2, key, now);
    if s2.queues[key] == [] {
      DroppedKeeps(s2, key);
    } else {
      var id := s2.queues[key][0];
      if Count(s2.runtimeInflight, key) >= s2.waiters[id].bound {
        ScheduledKeeps(s2, key);
      } else {
        AdmittedKeeps(s2, key, id, now);
      }
    }
  }

  lemma {:induction false} ScanKeeps(s: State, now: int, n: nat)
    requires Inv(s) && n <= |s.order| && s.inflight < s.maxRunning
    ensures Inv(Scan(s, now, n).state)
    decreases n
  {
    if n > 0 {
      VisitKeeps(s, now);
      if !Visit(s, now).admitted {
        ScanKeeps(Visit(s, now).state, now, n - 1);
      }
    }
  }

  lemma {:induction false} AdmitAllKeeps(s: State, now: int)
    requires Inv(s)
    ensures Inv(AdmitAll(s, now))
    decreases s.maxRunning - s.inflight
  {
    if s.inflight < s.maxRunning && s.order != [] {
      ScanKeeps(s, now, |s.order|);
      var v := Scan(s, now, |s.order|);
      if v.admitted {
        AdmitAllKeeps(v.state, now);
      }
    }
  }

  // ---- The remaining steps -----------------------------------------------

  lemma RefreshKeeps(s: State, now: int)
    requires Inv(s)
    ensures Inv(Refresh(s, now))
  {
    ExpireKeeps(s, now);
    AdmitAllKeeps(Expire(s, now), now);
  }

  lemma DiscardKeeps(s: State, id: string)
    requires Inv(s)
    requires id in s.waiters ==> s.waiters[id].phase != Running
    ensures Inv(Discard(s, id))
  {
    RemovedKeeps(s, Discard(s, id), id);
    DiscardCounters(s, id);
    DiscardHistory(s, id);
  }

  lemma DiscardHistory(s: State, id: string)
    requires History(s)
    requires id in s.waiters ==> s.waiters[id].phase != Running
    ensures History(Discard(s, id))
  {
    assert RunningIds(Discard(s, id)) == RunningIds(s);
  }

  lemma DiscardCounters(s: State, id: string)
    requires Counters(s) && Bounds(s)
    requires id in s.waiters ==> s.waiters[id].phase != Running
    ensures Counters(Discard(s, id)) && Bounds(Discard(s, id))
  {
    var s' := Discard(s, id);
    forall k ensures BoundsHold(OfRuntime(s'.running, s'.born, k), s'.waiters) {
      var ids := OfRuntime(s.running, s.born, k);
      assert BoundsHold(ids, s.waiters);
      OfRuntimeMembers(s.running, s.born, k);
      assert forall i :: 0 <= i < |ids| ==> ids[i] in ids;
    }
  }

  /** What does not concern running waiters survives taking one out. */
  lemma RemovedKeeps(s: State, s': State, id: string)
    requires Structure(s) && Queues(s) && Registry(s) && Tickets(s) && Fifo(s)
    requires s'.waiters == s.waiters - {id} && s'.queues == s.queues && s'.order == s.order
    requires s'.inOrder == s.inOrder && s'.born == s.born && s'.admitted == s.admitted
    ensures Structure(s') && Queues(s') && Registry(s') && Tickets(s') && Fifo(s')
  {
    forall x ensures QueuedInOwnQueue(s', x) {
      assert QueuedInOwnQueue(s, x);
    }
  }

  lemma UnrunKeeps(s: State, id: string)
    requires Inv(s) && id in s.waiters && s.waiters[id].phase == Running
    ensures Inv(Unrun(s, id, s.waiters[id].key))
  {
    RemovedKeeps(s, Unrun(s, id, s.waiters[id].key), id);
    UnrunCounters(s, id);
    UnrunBounds(s, id);
    UnrunHistory(s, id);
    hide Structure, Queues, Registry, Tickets, Counters, Bounds, Fifo, History;
  }

  lemma UnrunHistory(s: State, id: string)
    requires History(s) && id in s.waiters
    ensures History(Unrun(s, id, s.waiters[id].key))
  {
    hide KeepOnly, Without;
    assert RunningIds(Unrun(s, id, s.waiters[id].key)) == RunningIds(s) - {id};
    KeepOnlyLess(s.admitted, RunningIds(s), id);
  }

  /** The clamps at zero never bind: a running waiter holds a slot of its
      runtime and a global one. */
  lemma ClampsNeverBind(s: State, id: string)
    requires Registry(s) && Counters(s) && id in s.waiters && s.waiters[id].phase == Running
    ensures s.inflight >= 1 && Count(s.runtimeInflight, s.waiters[id].key) >= 1
  {
    var key := s.waiters[id].key;
    OfRuntimeMembers(s.running, s.born, key);
    assert id in OfRuntime(s.running, s.born, key);
  }

  lemma UnrunCounters(s: State, id: string)
    requires Registry(s) && Counters(s) && id in s.waiters && s.waiters[id].phase == Running
    ensures Counters(Unrun(s, id, s.waiters[id].key))
  {
    var s' := Unrun(s, id, s.waiters[id].key);
    ClampsNeverBind(s, id);
    WithoutNoDup(s.running, id);
    WithoutMembers(s.running, id);
    WithoutLength(s.running, id);
    forall k
      ensures Count(s'.runtimeInflight, k) == |OfRuntime(s'.running, s'.born, k)|
    {
      UnrunRuntime(s, id, k);
    }
  }

  lemma UnrunBounds(s: State, id: string)
    requires Registry(s) && Counters(s) && Bounds(s) && id in s.waiters && s.waiters[id].phase == Running
    ensures Bounds(Unrun(s, id, s.waiters[id].key))
  {
    var s' := Unrun(s, id, s.waiters[id].key);
    forall k ensures BoundsHold(OfRuntime(s'.running, s'.born, k), s'.waiters) {
      var was, ids := OfRuntime(s.running, s.born, k), OfRuntime(s'.running, s'.born, k);
      assert BoundsHold(was, s.waiters);
      UnrunRuntime(s, id, k);
      OfRuntimeNoDup(s.running, s.born, k);
      WithoutMembers(was, id);
      forall i | 0 <= i < |ids| ensures ids[i] in s'.waiters && s'.waiters[ids[i]].bound >= i + 1 {
        WithoutShift(was, id, i);
        assert ids[i] in ids;
      }
    }
  }

  lemma UnrunRuntime(s: State, id: string, k: string)
    requires Registry(s) && Counters(s) && id in s.waiters && s.waiters[id].phase == Running
    ensures OfRuntime(Without(s.running, id), s.born, k) == Without(OfRuntime(s.running, s.born, k), id)
    ensures |OfRuntime(Without(s.running, id), s.born, k)|
      == |OfRuntime(s.running, s.born, k)| - (if k == s.waiters[id].key then 1 else 0)
  {
    OfRuntimeWithout(s.running, s.born, k, id);
    OfRuntimeNoDup(s.running, s.born, k);
    OfRuntimeMembers(s.running, s.born, k);
    WithoutLength(OfRuntime(s.running, s.born, k), id);
  }

  lemma EnqueueKeeps(s: State, key: string, id: string, w: Record)
    requires Inv(s) && id !in s.born
    requires w.phase == Queued && w.key == key && w.bound >= 1
    ensures Inv(Enqueue(s, key, id, w))
  {
    EnqueueRegistry(s, key, id, w);
    EnqueueTickets(s, key, id, w);
    EnqueueFifo(s, key, id, w);
    EnqueueQueues(s, key, id, w);
    EnqueueStructure(s, key, id, w);
    EnqueueCounters(s, key, id, w);
    EnqueueHistory(s, key, id, w);
  }

  lemma EnqueueRegistry(s: State, key: string, id: string, w: Record)
    requires Registry(s) && id !in s.born
    requires w.phase == Queued && w.key == key && w.bound >= 1
    ensures Registry(Enqueue(s, key, id, w))
  {
  }

  lemma EnqueueHistory(s: State, key: string, id: string, w: Record)
    requires History(s) && id !in s.waiters && w.phase == Queued
    ensures History(Enqueue(s, key, id, w))
  {
    assert RunningIds(Enqueue(s, key, id, w)) == RunningIds(s);
  }

  lemma EnqueueTickets(s: State, key: string, id: string, w: Record)
    requires Tickets(s) && id !in s.born
    ensures Tickets(Enqueue(s, key, id, w))
  {
    var born' := Enqueue(s, key, id, w).born;
    assert born'.Keys == s.born.Keys + {id};
    forall a | a in born' ensures born'[a].ticket < |born'.Keys| {
      assert a != id ==> born'[a] == s.born[a];
    }
  }

  lemma EnqueueFifo(s: State, key: string, id: string, w: Record)
    requires Registry(s) && Tickets(s) && Fifo(s) && id !in s.born
    ensures Fifo(Enqueue(s, key, id, w))
  {
    var s' := Enqueue(s, key, id, w);
    forall i, j | 0 <= i < j < |s'.admitted| ensures Earlier(s'.born, s'.admitted[i], s'.admitted[j]) {
      assert Earlier(s.born, s.admitted[i], s.admitted[j]);
    }
    forall i, x | 0 <= i < |s'.admitted| && x in s'.waiters && s'.waiters[x].phase == Queued
      ensures Earlier(s'.born, s'.admitted[i], x)
    {
      assert x != id ==> Earlier(s.born, s.admitted[i], x);
    }
  }

  lemma EnqueueCounters(s: State, key: string, id: string, w: Record)
    requires Counters(s) && Bounds(s) && Registry(s) && id !in s.born && w.phase == Queued
    ensures var s' := Enqueue(s, key, id, w); Counters(s') && Bounds(s')
  {
    hide Enqueue, BoundsHold, OfRuntime;
    EnqueueFields(s, key, id, w);
    var s' := Enqueue(s, key, id, w);
    forall k
      ensures OfRuntime(s'.running, s'.born, k) == OfRuntime(s.running, s.born, k)
      ensures BoundsHold(OfRuntime(s'.running, s'.born, k), s'.waiters)
    {
      OfRuntimeFrame(s.running, s.born, s'.born, k);
      assert BoundsHold(OfRuntime(s.running, s.born, k), s.waiters);
      BoundsGrow(OfRuntime(s.running, s.born, k), s.waiters, s'.waiters, id);
    }
  }

  lemma EnqueueStructure(s: State, key: string, id: string, w: Record)
    requires Structure(s)
    ensures Structure(Enqueue(s, key, id, w))
  {
    hide *;
    EnqueueFields(s, key, id, w);
    StructureGrows(s, Enqueue(s, key, id, w), key);
  }

  lemma StructureGrows(s: State, s': State, key: string)
    requires Structure(s) && s'.order == (if key in s.inOrder then s.order else s.order + [key])
    requires s'.inOrder == s.inOrder + {key}
    requires key in s'.queues && s'.queues[key] != [] && s'.queues == s.queues[key := s'.queues[key]]
    ensures Structure(s')
  {
    hide NoDup;
    if key !in s.inOrder {
      NoDupSnoc(s.order, key);
    }
  }

  lemma EnqueueFields(s: State, key: string, id: string, w: Record)
    ensures var s' := Enqueue(s, key, id, w);
      && s'.queues == s.queues[key := (if key in s.queues then s.queues[key] else []) + [id]]
      && s'.order == (if key in s.inOrder then s.order else s.order + [key])
      && s'.inOrder == s.inOrder + {key}
      && s'.waiters == s.waiters[id := w] && s'.born == s.born[id := Birth(key, |s.born.Keys|)]
      && s'.inflight == s.inflight && s'.maxRunning == s.maxRunning
      && s'.runtimeInflight == s.runtimeInflight && s'.running == s.running
  {
  }

  lemma NothingSubmitted(born: map<string, Birth>, key: string)
    ensures InSubmissionOrder([], born, key)
  {
  }

  lemma EnqueueSubmissionOrder(
      was: seq<string>, born: map<string, Birth>, born': map<string, Birth>, key: string, id: string)
    requires InSubmissionOrder(was, born, key) && id !in born
    requires forall x :: x in born ==> born[x].ticket < |born.Keys|
    requires born' == born[id := Birth(key, |born.Keys|)]
    ensures InSubmissionOrder(was + [id], born', key)
  {
  }

  lemma StillSubmitted(queue: seq<string>, born: map<string, Birth>, born': map<string, Birth>, key: string)
    requires InSubmissionOrder(queue, born, key)
    requires forall x :: x in born ==> x in born' && born'[x] == born[x]
    ensures InSubmissionOrder(queue, born', key)
  {
  }

  lemma EnqueueQueues(s: State, key: string, id: string, w: Record)
    requires Queues(s) && Registry(s) && Tickets(s) && id !in s.born
    requires w.phase == Queued && w.key == key
    ensures Queues(Enqueue(s, key, id, w))
  {
    hide Enqueue, InSubmissionOrder;
    var s' := Enqueue(s, key, id, w);
    EnqueueFields(s, key, id, w);
    var was := if key in s.queues then s.queues[key] else [];
    assert InSubmissionOrder([], s.born, key) by { NothingSubmitted(s.born, key); }
    assert InSubmissionOrder(was, s.born, key);
    EnqueueSubmissionOrder(was, s.born, s'.born, key, id);
    forall k | k in s'.queues ensures InSubmissionOrder(s'.queues[k], s'.born, k) {
      if k != key {
        StillSubmitted(s.queues[k], s.born, s'.born, k);
      }
    }
    assert id in s'.queues[key] && forall x :: x in was ==> x in s'.queues[key];
    forall x ensures QueuedInOwnQueue(s', x) {
      assert QueuedInOwnQueue(s, x);
    }
  }

  // ---- Operations and runs -----------------------------------------------

  lemma SubmitKeeps(s: State, key: string, id: string, bound: int, timeout: Option<int>, now: int)
    requires Inv(s) && (id in s.born ==> id in s.waiters)
    ensures Inv(Submit(s, key, id, bound, timeout, now).0)
  {
    hide Structure, Queues, Tickets, Counters, Bounds, Fifo, History, Blank, AdmitAll, Enqueue, QueuedIds;
    if Submit(s, key, id, bound, timeout, now).1 in {Submitted, QueueFull} {
      var s1 := Refresh(s, now);
      RefreshKeeps(s, now);
      if !(|QueuedIds(s1)| >= s1.queueCapacity && !CanRunNow(s1, key, bound)) {
        var s2 := Enqueue(s1, key, id, NewRecord(key, bound, timeout, now));
        EnqueueKeeps(s1, key, id, NewRecord(key, bound, timeout, now));
        AdmitAllKeeps(s2, now);
      }
    }
  }

  lemma AbandonKeeps(s: State, id: string, now: int)
    requires Inv(s)
    ensures Inv(Abandon(s, id, now).0)
  {
    if id in s.waiters && s.waiters[id].phase == Queued {
      DiscardKeeps(s, id);
      AdmitAllKeeps(Discard(s, id), now);
    } else if id in s.waiters && s.waiters[id].phase == Running {
      UnrunKeeps(s, id);
      AdmitAllKeeps(Unrun(s, id, s.waiters[id].key), now);
    }
  }

  lemma ReleaseKeeps(s: State, id: string, now: int)
    requires Inv(s)
    ensures Inv(Release(s, id, now).0)
  {
    if id in s.waiters && s.waiters[id].phase == Running {
      UnrunKeeps(s, id);
      AdmitAllKeeps(Unrun(s, id, s.waiters[id].key), now);
    }
  }

  lemma WaitKeeps(s: State, id: string, now: int)
    requires Inv(s)
    ensures Inv(Apply(s, OpWait(id, now)))
  {
    hide Structure, Queues, Tickets, Counters, Bounds, Fifo, History, Refresh, Discard;
    if id in s.waiters && s.waiters[id].phase == Queued {
      RefreshKeeps(s, now);
    } else if id in s.waiters && s.waiters[id].phase == Expired {
      DiscardKeeps(s, id);
    }
  }

  /** Every operation keeps the invariant; ids of new submissions must be new. */
  lemma ApplyKeeps(s: State, op: Op)
    requires Inv(s) && FreshSubmission(s, op)
    ensures Inv(Apply(s, op))
  {
    match op
    case OpSubmit(key, id, bound, timeout, now) => SubmitKeeps(s, key, id, bound, timeout, now);
    case OpWait(id, now) => WaitKeeps(s, id, now);
    case OpAbandon(id, now) => AbandonKeeps(s, id, now);
    case OpRelease(id, now) => ReleaseKeeps(s, id, now);
    case OpSnapshot(now) => RefreshKeeps(s, now);
  }

  lemma InitInv(maxRunning: int, queueCapacity: int)
    requires maxRunning >= 1 && queueCapacity >= 1
    ensures Inv(Init(maxRunning, queueCapacity))
  {
  }

  /** Safety over whole runs: whatever the interleaving of operations and
      whatever the clock readings, every reached state satisfies the invariant. */
  lemma {:induction false} RunKeeps(s: State, ops: seq<Op>)
    requires Inv(s) && FreshRun(s, ops)
    ensures Inv(Exec(s, ops))
    decreases |ops|
  {
    if ops != [] {
      ApplyKeeps(s, ops[0]);
      RunKeeps(Apply(s, ops[0]), ops[1..]);
    }
  }

  // ---- What the invariant says about the counters ------------------------

  /** The sum of a counter over a set of runtimes. */
  ghost function Total(m: map<string, int>, keys: set<string>): int
    decreases |keys|
  {
    if keys == {} then 0
    else
      var k :| k in keys;
      Count(m, k) + Total(m, keys - {k})
  }

  lemma {:induction false} TotalSplit(m: map<string, int>, keys: set<string>, k: string)
    requires k in keys
    ensures Total(m, keys) == Count(m, k) + Total(m, keys - {k})
    decreases |keys|
  {
    var c :| c in keys && Total(m, keys) == Count(m, c) + Total(m, keys - {c});
    if c != k {
      TotalSplit(m, keys - {c}, k);
      TotalSplit(m, keys - {k}, c);
      assert keys - {c} - {k} == keys - {k} - {c};
    }
  }

  lemma {:induction false} TotalZero(m: map<string, int>, keys: set<string>)
    requires forall k :: k in keys ==> Count(m, k) == 0
    ensures Total(m, keys) == 0
    decreases |keys|
  {
    if keys != {} {
      var k :| k in keys;
      TotalSplit(m, keys, k);
      TotalZero(m, keys - {k});
    }
  }

  lemma {:induction false} TotalUpdate(m: map<string, int>, m': map<string, int>, keys: set<string>, k: string)
    requires k in keys && Count(m', k) == Count(m, k) + 1
    requires forall x :: x != k ==> Count(m', x) == Count(m, x)
    ensures Total(m', keys) == Total(m, keys) + 1
  {
    TotalSplit(m, keys, k);
    TotalSplit(m', keys, k);
    TotalSame(m, m', keys - {k});
  }

  lemma {:induction false} TotalSame(m: map<string, int>, m': map<string, int>, keys: set<string>)
    requires forall x :: x in keys ==> Count(m', x) == Count(m, x)
    ensures Total(m', keys) == Total(m, keys)
    decreases |keys|
  {
    if keys != {} {
      var k :| k in keys;
      TotalSplit(m, keys, k);
      TotalSplit(m', keys, k);
      TotalSame(m, m', keys - {k});
    }
  }

  ghost function Tally(ids: seq<string>, born: map<string, Birth>, keys: set<string>): map<string, int> {
    map k | k in keys :: |OfRuntime(ids, born, k)|
  }

  lemma {:induction false} TallyTotal(ids: seq<string>, born: map<string, Birth>, keys: set<string>)
    requires forall id :: id in ids ==> Runtime(born, id) in keys
    ensures Total(Tally(ids, born, keys), keys) == |ids|
  {
    if ids == [] {
      TotalZero(Tally(ids, born, keys), keys);
    } else {
      var front, last := ids[..|ids| - 1], ids[|ids| - 1];
      TallyTotal(front, born, keys);
      TotalUpdate(Tally(front, born, keys), Tally(ids, born, keys), keys, Runtime(born, last));
    }
  }

  /** The running waiters of a runtime. */
  function RunningOf(s: State, key: string): set<string> {
    set id | id in s.waiters && s.waiters[id].phase == Running && s.waiters[id].key == key
  }

  /** The counters agree with the waiters: the global counter is the number of
      running waiters and the sum of the runtime counters, each runtime counter
      is the number of that runtime's running waiters, and slots are bounded. */
  lemma CountersAgree(s: State)
    requires Inv(s)
    ensures s.inflight == |RunningIds(s)| <= s.maxRunning
    ensures forall k :: Count(s.runtimeInflight, k) == |RunningOf(s, k)|
    ensures Total(s.runtimeInflight, s.runtimeInflight.Keys) == s.inflight
  {
    NoDupLength(s.running);
    assert (set id | id in s.running) == RunningIds(s);
    forall k
      ensures Count(s.runtimeInflight, k) == |RunningOf(s, k)|
    {
      var ids := OfRuntime(s.running, s.born, k);
      OfRuntimeNoDup(s.running, s.born, k);
      OfRuntimeMembers(s.running, s.born, k);
      NoDupLength(ids);
      assert (set id | id in ids) == RunningOf(s, k);
    }
    var keys := s.runtimeInflight.Keys;
    forall id | id in s.running ensures Runtime(s.born, id) in keys {
      ClampsNeverBind(s, id);
    }
    TallyTotal(s.running, s.born, keys);
    TotalSame(s.runtimeInflight, Tally(s.running, s.born, keys), keys);
  }

  /** In admission order the i-th oldest running waiter of a runtime has a bound of
      at least i and started before its deadline; hence a runtime never runs more
      than the bound of its latest running admission. */
  lemma LatestBoundHolds(s: State, key: string)
    requires Inv(s)
    ensures var ids := OfRuntime(s.running, s.born, key);
      && (forall i :: 0 <= i < |ids| ==>
        && ids[i] in s.waiters && s.waiters[ids[i]].bound >= i + 1
        && s.waiters[ids[i]].startedAt.Some? && !s.waiters[ids[i]].ExpiredAt(s.waiters[ids[i]].startedAt.value))
      && (ids != [] ==> Count(s.runtimeInflight, key) <= s.waiters[ids[|ids| - 1]].bound)
  {
    var ids := OfRuntime(s.running, s.born, key);
    assert BoundsHold(ids, s.waiters);
    OfRuntimeMembers(s.running, s.born, key);
    assert forall i :: 0 <= i < |ids| ==> ids[i] in s.running;
  }

  ghost predicate QueuedAt(s: State, id: string, key: string, i: int) {
    key in s.queues && 0 <= i < |s.queues[key]| && s.queues[key][i] == id
  }

  /** A queued waiter occurs exactly once, in the queue of its own runtime. */
  lemma QueuedExactlyOnce(s: State, id: string)
    requires Inv(s) && id in s.waiters && s.waiters[id].phase == Queued
    ensures exists i :: QueuedAt(s, id, s.waiters[id].key, i)
    ensures forall k, i, j | QueuedAt(s, id, k, i) && QueuedAt(s, id, s.waiters[id].key, j) ::
      k == s.waiters[id].key && i == j
  {
    assert QueuedInOwnQueue(s, id);
    var key := s.waiters[id].key;
    var i :| 0 <= i < |s.queues[key]| && s.queues[key][i] == id;
    assert QueuedAt(s, id, key, i);
    forall k, i, j | QueuedAt(s, id, k, i) && QueuedAt(s, id, key, j) ensures k == key && i == j {
      assert InSubmissionOrder(s.queues[k], s.born, k) && InSubmissionOrder(s.queues[key], s.born, key);
    }
  }

  /** No request is admitted while an earlier one of its runtime is queued. */
  lemma AdmittedInSubmissionOrder(s: State, a: string, b: string)
    requires Inv(s) && a in s.admitted && b in s.waiters
    requires s.waiters[b].phase == Queued && s.born[a].key == s.waiters[b].key
    ensures s.born[a].ticket < s.born[b].ticket
  {
    var i :| 0 <= i < |s.admitted| && s.admitted[i] == a;
    assert Earlier(s.born, s.admitted[i], b);
  }
}
