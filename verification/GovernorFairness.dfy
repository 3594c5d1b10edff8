/** Bounded bypass: while a runtime stays eligible, every other runtime is
    admitted at most once before it, and only if it stood ahead in the rotation. */
module GovernorFairness {
  import opened Common
  import opened GovernorState
  import opened GovernorInvariant
  import opened GovernorProgress

  /** A turn given to runtime `j` at time `now` would admit its first live
      waiter: that waiter is within the runtime's bound. */
  ghost predicate Eligible(s: State, j: string, now: int) {
    && j in s.queues
    && var t := Trim(s.waiters, s.queues[j], now);
      t.queue != [] && Count(s.runtimeInflight, j) < t.waiters[t.queue[0]].bound
  }

  /** The runtimes of `ids` are pairwise different and all among `ahead`. */
  ghost predicate OncePerRuntime(ids: seq<string>, born: map<string, Birth>, ahead: seq<string>) {
    && (forall p :: 0 <= p < |ids| ==> ids[p] in born && born[ids[p]].key in ahead)
    && (forall p, q :: 0 <= p < q < |ids| && ids[p] in born && ids[q] in born ==> born[ids[p]].key != born[ids[q]].key)
  }

  /** From `s` to `s'` runtime `j` moved from place `i` to place `i'`, the
      runtimes it left behind are the only ones admitted, each at most once. */
  ghost predicate MovedUp(s: State, s': State, j: string, i: nat, i': nat) {
    && i' <= i < |s.order| && i' < |s'.order| && s.order[i] == j == s'.order[i']
    && s'.order[..i'] == s.order[i - i'..i]
    && s.admitted <= s'.admitted
    && OncePerRuntime(s'.admitted[|s.admitted|..], s'.born, s.order[..i - i'])
  }

  /** Between `s` and `s'` runtime `j` was admitted, and before that only
      runtimes ahead of it, each at most once. */
  ghost predicate Served(s: State, s': State, j: string, i: nat, p: nat) {
    && i < |s.order| && s.order[i] == j
    && s.admitted <= s'.admitted && |s.admitted| <= p < |s'.admitted|
    && s'.admitted[p] in s'.born && s'.born[s'.admitted[p]].key == j
    && OncePerRuntime(s'.admitted[|s.admitted|..p], s'.born, s.order[..i])
  }

  /** Either `j` was served by the `p`-th admission or it moved up to `i'`. */
  ghost predicate Fair(s: State, s': State, j: string, i: nat, served: bool, i': nat, p: nat) {
    if served then Served(s, s', j, i, p) else MovedUp(s, s', j, i, i')
  }

  // ---- Composition -------------------------------------------------------

  lemma OnceCompose(
      a: seq<string>, b: seq<string>, born: map<string, Birth>, born': map<string, Birth>,
      u: seq<string>, v: seq<string>)
    requires OncePerRuntime(a, born, u) && OncePerRuntime(b, born', v)
    requires forall id :: id in born ==> id in born' && born'[id] == born[id]
    requires NoDup(u + v)
    ensures OncePerRuntime(a + b, born', u + v)
  {
    forall x, y | x in u && y in v ensures x != y {
      var k :| 0 <= k < |u| && u[k] == x;
      var l :| 0 <= l < |v| && v[l] == y;
      assert (u + v)[k] == x && (u + v)[|u| + l] == y;
    }
    forall p | 0 <= p < |a + b| ensures (a + b)[p] in born' && born'[(a + b)[p]].key in u + v {
      if p < |a| {
        assert a[p] in born;
      } else {
        assert b[p - |a|] in born';
      }
    }
  }

  ghost predicate Extends(s: State, s': State) {
    && s.admitted <= s'.admitted
    && forall id :: id in s.born ==> id in s'.born && s'.born[id] == s.born[id]
  }

  lemma SameBornExtends(s: State, s': State)
    requires s'.born == s.born && s.admitted <= s'.admitted
    ensures Extends(s, s')
  {
  }

  lemma ExtendsTransitive(s: State, s1: State, s2: State)
    requires Extends(s, s1) && Extends(s1, s2)
    ensures Extends(s, s2)
  {
  }

  lemma SplitLog(a: seq<string>, b: seq<string>, c: seq<string>)
    requires a <= b <= c
    ensures c[|a|..] == b[|a|..] + c[|b|..]
  {
  }

  lemma MovedCompose(s: State, s1: State, s2: State, j: string, i: nat, i1: nat, i2: nat)
    requires NoDup(s.order) && Extends(s, s1) && Extends(s1, s2)
    requires MovedUp(s, s1, j, i, i1) && MovedUp(s1, s2, j, i1, i2)
    ensures MovedUp(s, s2, j, i, i2)
  {
    var u, v := s.order[..i - i1], s1.order[..i1 - i2];
    assert s1.order[..i1][..i1 - i2] == v;
    assert s.order[i - i1..i][..i1 - i2] == s.order[i - i1..i - i2];
    assert u + v == s.order[..i - i2];
    SplitLog(s.admitted, s1.admitted, s2.admitted);
    OnceCompose(s1.admitted[|s.admitted|..], s2.admitted[|s1.admitted|..], s1.born, s2.born, u, v);
    assert s2.order[..i2] == s.order[i - i2..i] by {
      assert s1.order[i1 - i2..i1] == s1.order[..i1][i1 - i2..];
      assert s.order[i - i1..i][i1 - i2..] == s.order[i - i2..i];
    }
  }

  lemma ServedCompose(s: State, s1: State, s2: State, j: string, i: nat, i1: nat, p: nat)
    requires NoDup(s.order) && Extends(s, s1) && Extends(s1, s2)
    requires MovedUp(s, s1, j, i, i1) && Served(s1, s2, j, i1, p)
    ensures Served(s, s2, j, i, p)
  {
    var u, v := s.order[..i - i1], s1.order[..i1];
    assert u + v == s.order[..i];
    assert s2.admitted[|s.admitted|..p] == s1.admitted[|s.admitted|..] + s2.admitted[|s1.admitted|..p];
    OnceCompose(s1.admitted[|s.admitted|..], s2.admitted[|s1.admitted|..p], s1.born, s2.born, u, v);
  }

  lemma ServedExtends(s: State, s1: State, s2: State, j: string, i: nat, p: nat)
    requires Served(s, s1, j, i, p) && Extends(s1, s2)
    ensures Served(s, s2, j, i, p)
  {
    assert s2.admitted[|s.admitted|..p] == s1.admitted[|s.admitted|..p];
  }

  // ---- One turn, one scan, one admission round ---------------------------

  /** A turn given to another runtime brings `j` exactly one place forward and
      leaves it eligible. */
  lemma TurnMovesUp(s: State, j: string, i: nat, now: int)
    requires Inv(s) && 0 < i < |s.order| && s.order[i] == j && Eligible(s, j, now)
    ensures var s' := Visit(s, now).state;
      && MovedUp(s, s', j, i, i - 1)
      && Eligible(s', j, now)
  {
    TurnOrder(s, i, now);
    TurnAdmission(s, now);
    TurnLeavesOthers(s, j, now);
    hide Inv, Visit, Eligible;
    MovedOne(s, Visit(s, now).state, j, i);
  }

  lemma MovedOne(s: State, s': State, j: string, i: nat)
    requires 0 < i < |s.order| && s.order[i] == j
    requires i - 1 < |s'.order| && s'.order[..i - 1] == s.order[1..i] && s'.order[i - 1] == j
    requires s'.born == s.born
    requires s'.admitted == s.admitted
      || (|s'.admitted| == |s.admitted| + 1 && s.admitted <= s'.admitted
          && s'.admitted[|s.admitted|] in s.born && s.born[s'.admitted[|s.admitted|]].key == s.order[0])
    ensures MovedUp(s, s', j, i, i - 1)
  {
    assert s.order[..1] == [s.order[0]];
  }

  lemma TurnOrder(s: State, i: nat, now: int)
    requires Structure(s) && 0 < i < |s.order|
    ensures var s' := Visit(s, now).state;
      i - 1 < |s'.order| && s'.order[..i - 1] == s.order[1..i] && s'.order[i - 1] == s.order[i]
  {
    var s' := Visit(s, now).state;
    assert s.order[1..] <= s'.order;
    assert s'.order[i - 1] == s.order[1..][i - 1];
    assert s'.order[..i - 1] == s.order[1..][..i - 1] == s.order[1..i];
  }

  lemma TurnAdmission(s: State, now: int)
    requires Structure(s) && Queues(s) && Registry(s) && s.order != []
    ensures var v := Visit(s, now);
      && s.admitted <= v.state.admitted
      && |v.state.admitted| == |s.admitted| + (if v.admitted then 1 else 0)
      && (v.admitted ==>
        && v.state.admitted[|s.admitted|] in s.born
        && s.born[v.state.admitted[|s.admitted|]].key == s.order[0])
  {
    var key := s.order[0];
    assert key in s.queues;
    TrimFacts(s.waiters, s.queues[key], now);
    assert InSubmissionOrder(s.queues[key], s.born, key);
    var t := Trim(s.waiters, s.queues[key], now);
    if t.queue != [] {
      assert t.queue[0] == s.queues[key][|s.queues[key]| - |t.queue|];
    }
  }

  lemma TurnLeavesOthers(s: State, j: string, now: int)
    requires Structure(s) && Queues(s) && s.order != [] && j in s.queues && j != s.order[0]
    requires Eligible(s, j, now)
    ensures Eligible(Visit(s, now).state, j, now)
  {
    assert s.order[0] in s.order;
    DisjointQueues(s, s.order[0], j);
    TurnLocal(s, j, now);
    hide Visit, Structure, Queues;
    TrimLocal(s.waiters, Visit(s, now).state.waiters, s.queues[j], now);
  }

  lemma DisjointQueues(s: State, a: string, b: string)
    requires Queues(s) && a in s.queues && b in s.queues && a != b
    ensures forall id :: id in s.queues[a] ==> id !in s.queues[b]
  {
    assert InSubmissionOrder(s.queues[a], s.born, a) && InSubmissionOrder(s.queues[b], s.born, b);
  }

  /** A turn touches only the queue, the waiters and the counter of the front
      runtime. */
  lemma TurnLocal(s: State, j: string, now: int)
    requires s.order != [] && s.order[0] in s.queues && j in s.queues && j != s.order[0]
    requires forall id :: id in s.queues[s.order[0]] ==> id !in s.queues[j]
    ensures var s' := Visit(s, now).state;
      && j in s'.queues && s'.queues[j] == s.queues[j]
      && Count(s'.runtimeInflight, j) == Count(s.runtimeInflight, j)
      && forall id :: id in s.queues[j] && id in s.waiters ==> s'.waiters[id] == s.waiters[id]
  {
    var queue := s.queues[s.order[0]];
    TrimFacts(s.waiters, queue, now);
    var t := Trim(s.waiters, queue, now);
    assert t.queue != [] ==> t.queue[0] in queue;
  }

  /** Trimming a queue only looks at the waiters in it. */
  lemma {:induction false} TrimLocal(w: map<string, Record>, w': map<string, Record>, queue: seq<string>, now: int)
    requires w.Keys == w'.Keys && forall id :: id in queue && id in w ==> w'[id] == w[id]
    ensures Trim(w, queue, now).queue == Trim(w', queue, now).queue
    ensures var q := Trim(w, queue, now).queue;
      q != [] ==> Trim(w, queue, now).waiters[q[0]] == Trim(w', queue, now).waiters[q[0]]
  {
    if queue != [] {
      var id := queue[0];
      if id !in w || w[id].phase != Queued {
        TrimLocal(w, w', queue[1..], now);
      } else if w[id].ExpiredAt(now) {
        var r := w[id].(phase := Expired, finishedAt := Some(now));
        TrimLocal(w[id := r], w'[id := r], queue[1..], now);
      }
    }
  }

  /** A turn given to an eligible runtime admits it. */
  lemma EligibleTurnServes(s: State, j: string, now: int)
    requires Inv(s) && s.order != [] && s.order[0] == j && Eligible(s, j, now)
    ensures Visit(s, now).admitted && Served(s, Visit(s, now).state, j, 0, |s.admitted|)
  {
    assert Visit(s, now).admitted;
    TurnAdmission(s, now);
  }

  lemma {:induction false} ScanFair(s: State, j: string, i: nat, now: int, n: nat)
    returns (served: bool, i': nat, p: nat)
    requires Inv(s) && s.inflight < s.maxRunning && i < |s.order| && s.order[i] == j
    requires Eligible(s, j, now) && n <= |s.order|
    ensures var v := Scan(s, now, n);
      && Fair(s, v.state, j, i, served, i', p)
      && (i < n ==> v.admitted)
      && (!served ==> Eligible(v.state, j, now))
    decreases n, 1
  {
    ScanUnroll(s, now, n);
    hide Inv, Eligible, Visit, Scan, MovedUp, Served, NoDup;
    if n == 0 {
      served, i', p := false, i, 0;
      StandsStill(s, s, j, i);
    } else if i == 0 {
      served, i', p := true, 0, |s.admitted|;
      EligibleTurnServes(s, j, now);
    } else {
      served, i', p := false, i - 1, 0;
      var v := Visit(s, now);
      TurnStep(s, j, i, now);
      if !v.admitted {
        served, i', p := ScanFairRest(s, v.state, j, i, now, n);
      }
    }
  }

  lemma ScanFairRest(s: State, s1: State, j: string, i: nat, now: int, n: nat) returns (served: bool, i': nat, p: nat)
    requires Inv(s1) && s1.inflight < s1.maxRunning && 0 < i && i - 1 < |s1.order| && s1.order[i - 1] == j
    requires Eligible(s1, j, now) && 0 < n && n - 1 <= |s1.order|
    requires NoDup(s.order) && s1.born == s.born && s.admitted <= s1.admitted && MovedUp(s, s1, j, i, i - 1)
    ensures var v := Scan(s1, now, n - 1);
      && Fair(s, v.state, j, i, served, i', p)
      && (i < n ==> v.admitted)
      && (!served ==> Eligible(v.state, j, now))
    decreases n, 0
  {
    hide Inv, Eligible, Visit, Scan, MovedUp, NoDup, Fair;
    served, i', p := ScanFair(s1, j, i - 1, now, n - 1);
    ScanGrows(s1, now, n - 1);
    ComposeSameBorn(s, s1, Scan(s1, now, n - 1).state, j, i, i - 1, served, i', p);
  }

  lemma ScanGrows(s: State, now: int, n: nat)
    requires n <= |s.order|
    ensures Scan(s, now, n).state.born == s.born && s.admitted <= Scan(s, now, n).state.admitted
  {
  }

  lemma TurnStep(s: State, j: string, i: nat, now: int)
    requires Inv(s) && s.inflight < s.maxRunning && 0 < i < |s.order| && s.order[i] == j && Eligible(s, j, now)
    ensures var s' := Visit(s, now).state;
      && NoDup(s.order) && Inv(s') && Eligible(s', j, now)
      && MovedUp(s, s', j, i, i - 1) && i - 1 < |s'.order| && s'.order[i - 1] == j
  {
    TurnMovesUp(s, j, i, now);
    VisitKeeps(s, now);
  }

  lemma ComposeSameBorn(s: State, s1: State, s2: State, j: string, i: nat, i1: nat, served: bool, i2: nat, p: nat)
    requires NoDup(s.order) && s1.born == s.born && s2.born == s.born
    requires s.admitted <= s1.admitted <= s2.admitted
    requires MovedUp(s, s1, j, i, i1)
    requires Fair(s1, s2, j, i1, served, i2, p)
    ensures Fair(s, s2, j, i, served, i2, p)
  {
    SameBornExtends(s, s1);
    SameBornExtends(s1, s2);
    Compose(s, s1, s2, j, i, i1, served, i2, p);
  }

  lemma ScanUnroll(s: State, now: int, n: nat)
    requires n <= |s.order|
    ensures Scan(s, now, n) ==
      if n == 0 then Visited(s, false)
      else if Visit(s, now).admitted then Visit(s, now) else Scan(Visit(s, now).state, now, n - 1)
  {
  }

  lemma Compose(s: State, s1: State, s2: State, j: string, i: nat, i1: nat, served: bool, i2: nat, p: nat)
    requires NoDup(s.order) && Extends(s, s1) && Extends(s1, s2)
    requires MovedUp(s, s1, j, i, i1)
    requires Fair(s1, s2, j, i1, served, i2, p)
    ensures Fair(s, s2, j, i, served, i2, p)
  {
    if served {
      ServedCompose(s, s1, s2, j, i, i1, p);
    } else {
      MovedCompose(s, s1, s2, j, i, i1, i2);
    }
  }

  lemma StandsStill(s: State, s': State, j: string, i: nat)
    requires i < |s.order| && s.order[i] == j && s.order <= s'.order && s'.admitted == s.admitted
    ensures MovedUp(s, s', j, i, i)
  {
  }

  lemma MovedAt(s: State, s': State, j: string, i: nat, i': nat)
    requires MovedUp(s, s', j, i, i')
    ensures i' <= i < |s.order| && i' < |s'.order| && s'.order[i'] == j
  {
  }

  lemma InvNoDup(s: State)
    requires Inv(s)
    ensures NoDup(s.order)
  {
  }

  /** An admission round that starts with `j` eligible serves it, or fills every
      slot with runtimes that were ahead of it, each once. */
  lemma {:induction false} AdmitAllFair(s: State, j: string, i: nat, now: int) returns (served: bool, i': nat, p: nat)
    requires Inv(s) && i < |s.order| && s.order[i] == j && Eligible(s, j, now)
    ensures var r := AdmitAll(s, now);
      && Fair(s, r, j, i, served, i', p)
      && (!served ==> Eligible(r, j, now) && r.inflight == r.maxRunning)
    decreases s.maxRunning - s.inflight
  {
    hide Inv, Eligible, Scan, MovedUp, Served, NoDup;
    if s.inflight < s.maxRunning {
      served, i', p := ScanStep(s, j, i, now);
      var v := Scan(s, now, |s.order|);
      if served {
        SameBornExtends(v.state, AdmitAll(s, now));
        ServedExtends(s, v.state, AdmitAll(s, now), j, i, p);
      } else {
        var i1 := i';
        served, i', p := AdmitAllFair(v.state, j, i1, now);
        ComposeSameBorn(s, v.state, AdmitAll(s, now), j, i, i1, served, i', p);
      }
    } else {
      served, i', p := false, i, 0;
      InvSlots(s);
      StandsStill(s, s, j, i);
    }
  }

  lemma ScanStep(s: State, j: string, i: nat, now: int) returns (served: bool, i': nat, p: nat)
    requires Inv(s) && s.inflight < s.maxRunning && i < |s.order| && s.order[i] == j && Eligible(s, j, now)
    ensures var v := Scan(s, now, |s.order|);
      && NoDup(s.order) && v.admitted && Inv(v.state)
      && Fair(s, v.state, j, i, served, i', p)
      && (!served ==> Eligible(v.state, j, now) && i' < |v.state.order| && v.state.order[i'] == j)
  {
    served, i', p := ScanFair(s, j, i, now, |s.order|);
    ScanKeeps(s, now, |s.order|);
  }

  lemma InvSlots(s: State)
    requires Inv(s)
    ensures s.inflight <= s.maxRunning
  {
  }

  // ---- Operations and runs -----------------------------------------------

  /** The state in which an operation starts to admit, if it admits at all. */
  function AdmissionStart(s: State, op: Op): Option<State> {
    match op
    case OpSubmit(key, id, bound, timeout, now) =>
      if Blank(key) || Blank(id) || bound < 1 || (timeout.Some? && timeout.value <= 0) || id in s.waiters then None
      else Some(Expire(s, now))
    case OpWait(id, now) =>
      if id in s.waiters && s.waiters[id].phase == Queued then Some(Expire(s, now)) else None
    case OpAbandon(id, now) =>
      if id !in s.waiters then None
      else if s.waiters[id].phase == Queued then Some(Discard(s, id))
      else if s.waiters[id].phase == Running then Some(Unrun(s, id, s.waiters[id].key))
      else None
    case OpRelease(id, now) =>
      if id in s.waiters && s.waiters[id].phase == Running then Some(Unrun(s, id, s.waiters[id].key)) else None
    case OpSnapshot(now) => Some(Expire(s, now))
  }

  ghost predicate EligibleDuring(s: State, op: Op, j: string) {
    AdmissionStart(s, op).Some? ==> Eligible(AdmissionStart(s, op).value, j, op.now)
  }

  lemma StartKeeps(s: State, op: Op)
    requires Inv(s) && AdmissionStart(s, op).Some?
    ensures var s1 := AdmissionStart(s, op).value;
      Inv(s1) && s1.order == s.order && s1.admitted == s.admitted && s1.born == s.born
  {
    hide Inv;
    match op
    case OpSubmit(key, id, bound, timeout, now) => ExpireKeeps(s, now);
    case OpWait(id, now) => ExpireKeeps(s, now);
    case OpAbandon(id, now) =>
      if s.waiters[id].phase == Queued {
        DiscardKeeps(s, id);
      } else {
        UnrunKeeps(s, id);
      }
    case OpRelease(id, now) => UnrunKeeps(s, id);
    case OpSnapshot(now) => ExpireKeeps(s, now);
  }

  /** An operation that does not admit leaves rotation and history alone. */
  lemma NoStart(s: State, op: Op)
    requires Inv(s) && AdmissionStart(s, op).None?
    ensures var s' := Apply(s, op); s'.order == s.order && s'.admitted == s.admitted && s'.born == s.born
  {
    if op.OpWait? && op.id in s.waiters {
      RegisteredPhase(s, op.id);
    }
    hide Inv, AdmitAll, Refresh, Expire;
    match op
    case OpSubmit(key, id, bound, timeout, now) => RefusedSubmit(s, key, id, bound, timeout, now);
    case OpWait(id, now) =>
    case OpAbandon(id, now) =>
    case OpRelease(id, now) =>
    case OpSnapshot(now) => assert false;
  }

  lemma RefusedSubmit(s: State, key: string, id: string, bound: int, timeout: Option<int>, now: int)
    requires AdmissionStart(s, OpSubmit(key, id, bound, timeout, now)).None?
    ensures Submit(s, key, id, bound, timeout, now).0 == s
  {
    hide AdmitAll, Refresh, Expire, Enqueue, Blank;
  }

  lemma SingleRound(s: State, op: Op)
    requires Inv(s) && AdmissionStart(s, op).Some? && !op.OpSubmit?
    ensures Apply(s, op) == AdmitAll(AdmissionStart(s, op).value, op.now)
  {
    hide Inv;
  }

  /** A submission appends at most its own runtime to the rotation and does not
      change who is eligible. */
  lemma EnqueueFair(s: State, key: string, id: string, w: Record, j: string, now: int)
    requires Inv(s) && id !in s.born && Eligible(s, j, now)
    ensures var s' := Enqueue(s, key, id, w);
      s.order <= s'.order && s'.admitted == s.admitted && Extends(s, s') && Eligible(s', j, now)
  {
    EnqueueLocal(s, key, id, w, j);
    hide Inv, Enqueue;
    TrimNewWaiter(s.waiters, id, w, s.queues[j], now);
    if key == j {
      TrimAppend(s.waiters[id := w], s.queues[j], id, now);
    }
  }

  lemma EnqueueLocal(s: State, key: string, id: string, w: Record, j: string)
    requires Inv(s) && id !in s.born && j in s.queues
    ensures var s' := Enqueue(s, key, id, w);
      && s.order <= s'.order && s'.admitted == s.admitted && Extends(s, s')
      && s'.runtimeInflight == s.runtimeInflight && s'.waiters == s.waiters[id := w]
      && id !in s.queues[j]
      && j in s'.queues && s'.queues[j] == (if key == j then s.queues[j] + [id] else s.queues[j])
  {
    assert InSubmissionOrder(s.queues[j], s.born, j);
  }

  lemma {:induction false} TrimNewWaiter(
      waiters: map<string, Record>, id: string, w: Record, queue: seq<string>, now: int)
    requires id !in queue
    ensures Trim(waiters[id := w], queue, now).queue == Trim(waiters, queue, now).queue
    ensures Trim(waiters[id := w], queue, now).waiters == Trim(waiters, queue, now).waiters[id := w]
  {
    if queue != [] {
      var x := queue[0];
      if x !in waiters || waiters[x].phase != Queued {
        TrimNewWaiter(waiters, id, w, queue[1..], now);
      } else if waiters[x].ExpiredAt(now) {
        var r := waiters[x].(phase := Expired, finishedAt := Some(now));
        TrimNewWaiter(waiters[x := r], id, w, queue[1..], now);
        assert waiters[id := w][x := r] == waiters[x := r][id := w];
      }
    }
  }

  lemma {:induction false} TrimAppend(waiters: map<string, Record>, queue: seq<string>, id: string, now: int)
    requires Trim(waiters, queue, now).queue != []
    ensures Trim(waiters, queue + [id], now).queue == Trim(waiters, queue, now).queue + [id]
    ensures Trim(waiters, queue + [id], now).waiters == Trim(waiters, queue, now).waiters
  {
    var x := queue[0];
    assert (queue + [id])[1..] == queue[1..] + [id];
    if x !in waiters || waiters[x].phase != Queued {
      TrimAppend(waiters, queue[1..], id, now);
    } else if waiters[x].ExpiredAt(now) {
      TrimAppend(waiters[x := waiters[x].(phase := Expired, finishedAt := Some(now))], queue[1..], id, now);
    }
  }

  lemma SubmitFair(s: State, key: string, id: string, bound: int, timeout: Option<int>, now: int, j: string, i: nat)
    returns (served: bool, i': nat, p: nat)
    requires Inv(s) && i < |s.order| && s.order[i] == j && id !in s.born
    requires !Blank(key) && !Blank(id) && bound >= 1 && (timeout.Some? ==> timeout.value > 0) && id !in s.waiters
    requires Eligible(Expire(s, now), j, now)
    ensures var s' := Submit(s, key, id, bound, timeout, now).0;
      Fair(s, s', j, i, served, i', p)
  {
    ExpireKeeps(s, now);
    RefreshKeeps(s, now);
    RefreshBorn(s, now);
    InvNoDup(s);
    SubmitUnroll(s, key, id, bound, timeout, now);
    hide Inv, Eligible, MovedUp, Served, AdmitAll, Enqueue, NewRecord, NoDup, Extends, Submit;
    SameBornExtends(s, Refresh(s, now));
    var s1, s' := Refresh(s, now), Submit(s, key, id, bound, timeout, now).0;
    served, i', p := AdmitAllFair(Expire(s, now), j, i, now);
    FromExpire(s, s1, j, i, i', p, now);
    if Submit(s, key, id, bound, timeout, now).1 == Submitted {
      var w := NewRecord(key, bound, timeout, now);
      EnqueueExtends(s1, key, id, w, now);
      ExtendsTransitive(s, s1, s');
      if served {
        ServedExtends(s, s1, s', j, i, p);
      } else {
        NewRecordFields(key, bound, timeout, now);
        MovedAt(s, s1, j, i, i');
        var i1 := i';
        served, i', p := EnqueueAndAdmitFair(s1, key, id, w, now, j, i1);
        Compose(s, s1, s', j, i, i1, served, i', p);
      }
    }
  }

  lemma EnqueueAndAdmitFair(s1: State, key: string, id: string, w: Record, now: int, j: string, i: nat)
    returns (served: bool, i': nat, p: nat)
    requires Inv(s1) && i < |s1.order| && s1.order[i] == j && id !in s1.born && Eligible(s1, j, now)
    requires w.phase == Queued && w.key == key && w.bound >= 1
    ensures var s' := AdmitAll(Enqueue(s1, key, id, w), now);
      Fair(s1, s', j, i, served, i', p)
  {
    EnqueueFair(s1, key, id, w, j, now);
    EnqueueKeeps(s1, key, id, w);
    InvNoDup(s1);
    hide Inv, Eligible, MovedUp, Served, AdmitAll, Enqueue, NoDup, Extends;
    SameBornExtends(Enqueue(s1, key, id, w), AdmitAll(Enqueue(s1, key, id, w), now));
    var s2 := Enqueue(s1, key, id, w);
    StandsStill(s1, s2, j, i);
    served, i', p := AdmitAllFair(s2, j, i, now);
    Compose(s1, s2, AdmitAll(s2, now), j, i, i, served, i', p);
  }

  lemma EnqueueExtends(s1: State, key: string, id: string, w: Record, now: int)
    requires id !in s1.born
    ensures Extends(s1, AdmitAll(Enqueue(s1, key, id, w), now))
  {
  }

  /** Expiring first does not matter to what `MovedUp` and `Served` say. */
  lemma FromExpire(s: State, r: State, j: string, i: nat, i': nat, p: nat, now: int)
    ensures MovedUp(Expire(s, now), r, j, i, i') ==> MovedUp(s, r, j, i, i')
    ensures Served(Expire(s, now), r, j, i, p) ==> Served(s, r, j, i, p)
    ensures Extends(Expire(s, now), r) ==> Extends(s, r)
  {
  }

  lemma FromStart(s: State, s1: State, r: State, j: string, i: nat, i': nat, p: nat)
    requires s1.order == s.order && s1.admitted == s.admitted && s1.born == s.born
    ensures MovedUp(s1, r, j, i, i') ==> MovedUp(s, r, j, i, i')
    ensures Served(s1, r, j, i, p) ==> Served(s, r, j, i, p)
    ensures Extends(s1, r) ==> Extends(s, r)
  {
  }

  /** One operation during which `j` is eligible serves `j` or moves it up. */
  lemma ApplyFair(s: State, op: Op, j: string, i: nat) returns (served: bool, i': nat, p: nat)
    requires Inv(s) && FreshSubmission(s, op) && i < |s.order| && s.order[i] == j && EligibleDuring(s, op, j)
    ensures Extends(s, Apply(s, op))
    ensures Fair(s, Apply(s, op), j, i, served, i', p)
  {
    ApplyExtends(s, op);
    hide Extends;
    var start := AdmissionStart(s, op);
    if start.None? {
      NoStart(s, op);
      hide Apply, AdmissionStart, Inv;
      served, i', p := false, i, 0;
      StandsStill(s, Apply(s, op), j, i);
    } else if op.OpSubmit? {
      hide Inv, Submit, Served, MovedUp, Eligible;
      served, i', p := SubmitFair(s, op.key, op.id, op.bound, op.timeout, op.now, j, i);
    } else {
      SingleRound(s, op);
      StartKeeps(s, op);
      hide Apply, AdmissionStart, Inv, Served, MovedUp, AdmitAll, Eligible;
      served, i', p := AdmitAllFair(start.value, j, i, op.now);
      FromStart(s, start.value, Apply(s, op), j, i, i', p);
    }
  }

  ghost predicate EligibleThroughout(s: State, ops: seq<Op>, j: string)
    decreases |ops|
  {
    ops == [] || (EligibleDuring(s, ops[0], j) && EligibleThroughout(Apply(s, ops[0]), ops[1..], j))
  }

  /** Bounded bypass over whole runs: if `j` stands at place `i` and stays
      eligible, then up to its own admission (or to the end of the run, if it is
      not admitted) other runtimes are admitted at most once each, and only those
      that stood ahead of `j`. */
  lemma {:induction false} BoundedBypass(s: State, ops: seq<Op>, j: string, i: nat)
    returns (served: bool, i': nat, p: nat)
    requires Inv(s) && FreshRun(s, ops) && i < |s.order| && s.order[i] == j && EligibleThroughout(s, ops, j)
    ensures Extends(s, Exec(s, ops))
    ensures Fair(s, Exec(s, ops), j, i, served, i', p)
    decreases |ops|
  {
    hide Inv, Apply, Served, MovedUp, EligibleDuring;
    if ops == [] {
      served, i', p := false, i, 0;
      StandsStill(s, s, j, i);
    } else {
      var s1 := Apply(s, ops[0]);
      ApplyKeeps(s, ops[0]);
      served, i', p := ApplyFair(s, ops[0], j, i);
      if served {
        RunExtends(s1, ops[1..]);
        ServedExtends(s, s1, Exec(s, ops), j, i, p);
      } else {
        MovedAt(s, s1, j, i, i');
        var i1 := i';
        served, i', p := BoundedBypass(s1, ops[1..], j, i1);
        InvNoDup(s);
        Compose(s, s1, Exec(s, ops), j, i, i1, served, i', p);
      }
    }
  }

  lemma ApplyExtends(s: State, op: Op)
    requires FreshSubmission(s, op)
    ensures Extends(s, Apply(s, op))
  {
    if op.OpSubmit? {
      SubmitExtends(s, op.key, op.id, op.bound, op.timeout, op.now);
    } else {
      OthersExtend(s, op);
    }
  }

  lemma OthersExtend(s: State, op: Op)
    requires !op.OpSubmit?
    ensures Extends(s, Apply(s, op))
  {
    hide AdmitAll, Extends;
    SameBornExtends(s, Apply(s, op));
  }

  lemma SubmitExtends(s: State, key: string, id: string, bound: int, timeout: Option<int>, now: int)
    requires id in s.born ==> id in s.waiters
    ensures Extends(s, Submit(s, key, id, bound, timeout, now).0)
  {
    RefreshBorn(s, now);
    hide AdmitAll, Refresh, Enqueue, Extends;
    SameBornExtends(s, s);
    SameBornExtends(s, Refresh(s, now));
    if Submit(s, key, id, bound, timeout, now).1 == Submitted {
      EnqueueExtends(Refresh(s, now), key, id, NewRecord(key, bound, timeout, now), now);
      ExtendsTransitive(s, Refresh(s, now), Submit(s, key, id, bound, timeout, now).0);
    }
  }

  lemma {:induction false} RunExtends(s: State, ops: seq<Op>)
    requires FreshRun(s, ops)
    ensures Extends(s, Exec(s, ops))
    decreases |ops|
  {
    hide Apply;
    if ops != [] {
      ApplyExtends(s, ops[0]);
      RunExtends(Apply(s, ops[0]), ops[1..]);
    }
  }

  /** In numbers: before `j` at place `i` is served, at most `i` other admissions
      happen. */
  lemma BypassCount(s: State, s': State, j: string, i: nat, i': nat, p: nat)
    requires NoDup(s.order)
    ensures Served(s, s', j, i, p) ==> p - |s.admitted| <= i
    ensures MovedUp(s, s', j, i, i') ==> |s'.admitted| - |s.admitted| <= i - i'
  {
    if Served(s, s', j, i, p) {
      OnceCount(s'.admitted[|s.admitted|..p], s'.born, s.order[..i]);
    }
    if MovedUp(s, s', j, i, i') {
      OnceCount(s'.admitted[|s.admitted|..], s'.born, s.order[..i - i']);
    }
  }

  lemma OnceCount(ids: seq<string>, born: map<string, Birth>, ahead: seq<string>)
    requires OncePerRuntime(ids, born, ahead) && NoDup(ahead)
    ensures |ids| <= |ahead|
  {
    var keys := seq(|ids|, p requires 0 <= p < |ids| => born[ids[p]].key);
    NoDupLength(keys);
    NoDupLength(ahead);
    assert (set k | k in keys) <= (set k | k in ahead);
    SubsetSize(set k | k in keys, set k | k in ahead);
  }
}
