/** The governor as the object it is: a registry of waiter objects changed in
    place, queues, rotation and counters. Each lock-held section is one method,
    proved equal to its function on the governor's value. */
module Governor {
  import opened Common
  import opened GovernorState
  import opened GovernorInvariant
  import opened GovernorProgress
  import Ordering

  class Waiter {
    const requestId: string
    const runtimeKey: string
    const runtimeMaxRunning: int
    const submittedAt: int
    const deadlineAt: Option<int>
    var phase: Phase
    var startedAt: Option<int>
    var finishedAt: Option<int>

    ghost function View(): Record
      reads this
    {
      Record(runtimeKey, runtimeMaxRunning, submittedAt, deadlineAt, phase, startedAt, finishedAt)
    }

    constructor (requestId: string, runtimeKey: string, runtimeMaxRunning: int, submittedAt: int, timeout: Option<int>)
      ensures this.requestId == requestId && this.runtimeKey == runtimeKey
      ensures View() == NewRecord(runtimeKey, runtimeMaxRunning, timeout, submittedAt)
    {
      this.requestId, this.runtimeKey, this.runtimeMaxRunning := requestId, runtimeKey, runtimeMaxRunning;
      this.submittedAt := submittedAt;
      this.deadlineAt := if timeout.Some? then Some(submittedAt + timeout.value) else None;
      phase, startedAt, finishedAt := Queued, None, None;
    }

    predicate IsExpired(now: int) {
      deadlineAt.Some? && now >= deadlineAt.value
    }
  }

  // ---- The functions on the governor's value, one branch at a time --------

  lemma TrimStale(waiters: map<string, Record>, queue: seq<string>, now: int)
    requires queue != [] && (queue[0] !in waiters || waiters[queue[0]].phase != Queued)
    ensures Trim(waiters, queue, now) == Trim(waiters, queue[1..], now)
  {
  }

  lemma TrimOverdue(waiters: map<string, Record>, queue: seq<string>, now: int)
    requires queue != [] && queue[0] in waiters
    requires waiters[queue[0]].phase == Queued && waiters[queue[0]].ExpiredAt(now)
    ensures Trim(waiters, queue, now) ==
      Trim(waiters[queue[0] := waiters[queue[0]].(phase := Expired, finishedAt := Some(now))], queue[1..], now)
  {
  }

  lemma TrimLive(waiters: map<string, Record>, queue: seq<string>, now: int)
    requires queue != [] ==>
      queue[0] in waiters && waiters[queue[0]].phase == Queued && !waiters[queue[0]].ExpiredAt(now)
    ensures Trim(waiters, queue, now) == Trimmed(waiters, queue)
  {
  }

  /** What `submit` does once the arguments are accepted and stale work is gone. */
  ghost function Enlist(s1: State, key: string, id: string, bound: int, timeout: Option<int>, now: int)
    : (State, SubmitResult)
  {
    if |QueuedIds(s1)| >= s1.queueCapacity && !CanRunNow(s1, key, bound) then (s1, QueueFull)
    else (AdmitAll(Enqueue(s1, key, id, NewRecord(key, bound, timeout, now)), now), Submitted)
  }

  lemma SubmitEnlists(s: State, key: string, id: string, bound: int, timeout: Option<int>, now: int)
    requires !Blank(key) && !Blank(id) && bound >= 1 && (timeout.Some? ==> timeout.value > 0) && id !in s.waiters
    ensures GovernorState.Submit(s, key, id, bound, timeout, now) ==
      Enlist(AdmitAll(Expire(s, now), now), key, id, bound, timeout, now)
  {
  }

  datatype RuntimeCounts = RuntimeCounts(key: string, queued: int, running: int)
  datatype Snapshot = Snapshot(
    maxRunning: int, queueCapacity: int, inflight: int, queued: int, runtimes: seq<RuntimeCounts>)

  /** The invariant and work conservation, which hold in every reachable state. */
  ghost predicate Sound(s: State) {
    Inv(s) && Saturated(s)
  }

  lemma OpIsSound(s: State, op: Op)
    ensures Sound(s) && FreshSubmission(s, op) ==> Sound(Apply(s, op))
  {
    hide Apply, Inv, Saturated, FreshSubmission;
    if Sound(s) && FreshSubmission(s, op) {
      ApplyKeeps(s, op);
      ApplySaturates(s, op);
    }
  }

  /** A pass over a handle is a pass over its registered waiter or a snapshot. */
  lemma PassIsSound(s: State, id: string, phase: Phase, startedAt: Option<int>, registered: bool, now: int)
    requires phase == Running ==> startedAt.Some?
    requires registered ==> id in s.waiters && s.waiters[id].phase == phase
    ensures Sound(s) ==> Sound(GovernorState.WaitPass(s, id, phase, startedAt, registered, now).0)
  {
    OpIsSound(s, OpWait(id, now));
    OpIsSound(s, OpSnapshot(now));
    hide Sound, Refresh, Discard;
  }

  /** The keys of a set in order. */
  method SortedKeys(keys: set<string>) returns (sorted: seq<string>)
    ensures NoDup(sorted) && Ordering.Sorted(Ordering.AtMost, sorted)
    ensures forall k :: k in sorted <==> k in keys
  {
    var todo := keys;
    var all: seq<string> := [];
    while todo != {}
      invariant todo <= keys && NoDup(all) && forall k :: k in all <==> k in keys && k !in todo
      decreases |todo|
    {
      var k :| k in todo;
      all := all + [k];
      todo := todo - {k};
    }
    AtMostIsTotal();
    Ordering.SortKeeps(Ordering.AtMost, all);
    sorted := Ordering.Sort(Ordering.AtMost, all);
    assert Distinct(Itself, all);
    DistinctPermuted(Itself, all, sorted);
    hide Ordering.Sort, Ordering.AtMost;
    assert forall k :: k in sorted <==> k in multiset(all);
    forall i, j | 0 <= i < j < |sorted| ensures sorted[i] != sorted[j] {
      assert Itself(sorted[i]) != Itself(sorted[j]);
    }
  }

  function CountsIn(queued: map<string, int>, running: map<string, int>, key: string): RuntimeCounts {
    RuntimeCounts(key, Count(queued, key), Count(running, key))
  }

  predicate Busy(c: RuntimeCounts) {
    c.queued != 0 || c.running != 0
  }

  ghost predicate InKeyOrder(runtimes: seq<RuntimeCounts>) {
    forall i, j :: 0 <= i < j < |runtimes| ==>
      runtimes[i].key != runtimes[j].key && Ordering.AtMost(runtimes[i].key, runtimes[j].key)
  }

  /** The runtimes with queued or running waiters, each once, by key. */
  method ListRuntimes(queued: map<string, int>, running: map<string, int>) returns (runtimes: seq<RuntimeCounts>)
    ensures InKeyOrder(runtimes)
    ensures forall k :: Busy(CountsIn(queued, running, k)) <==> CountsIn(queued, running, k) in runtimes
    ensures forall c :: c in runtimes ==> c == CountsIn(queued, running, c.key)
  {
    hide Ordering.AtMost;
    var keys := SortedKeys(queued.Keys + running.Keys);
    runtimes := [];
    for n := 0 to |keys|
      invariant InKeyOrder(runtimes)
      invariant forall c :: c in runtimes ==> c.key in keys[..n] && Busy(c) && c == CountsIn(queued, running, c.key)
      invariant forall k :: k in keys[..n] && Busy(CountsIn(queued, running, k)) ==>
        CountsIn(queued, running, k) in runtimes
    {
      var counts := CountsIn(queued, running, keys[n]);
      assert keys[..n + 1] == keys[..n] + [keys[n]];
      if Busy(counts) {
        InKeyOrderSnoc(keys, n, runtimes, counts);
        runtimes := runtimes + [counts];
      }
    }
    assert keys[..|keys|] == keys;
  }

  lemma InKeyOrderSnoc(keys: seq<string>, n: nat, runtimes: seq<RuntimeCounts>, counts: RuntimeCounts)
    requires n < |keys| && NoDup(keys) && Ordering.Sorted(Ordering.AtMost, keys) && counts.key == keys[n]
    requires InKeyOrder(runtimes) && forall c :: c in runtimes ==> c.key in keys[..n]
    ensures InKeyOrder(runtimes + [counts])
  {
    hide Ordering.AtMost;
    forall i | 0 <= i < |runtimes|
      ensures runtimes[i].key != counts.key && Ordering.AtMost(runtimes[i].key, counts.key)
    {
      assert runtimes[i] in runtimes;
      var m :| 0 <= m < n && keys[..n][m] == runtimes[i].key;
      assert keys[m] == runtimes[i].key;
    }
  }

  function Itself(k: string): string {
    k
  }

  lemma AtMostIsTotal()
    ensures Ordering.Total(Ordering.AtMost)
  {
    forall a, b ensures Ordering.AtMost(a, b) || Ordering.AtMost(b, a) {
      Ordering.AtMostTotal(a, b);
    }
    forall a, b, c | Ordering.AtMost(a, b) && Ordering.AtMost(b, c) ensures Ordering.AtMost(a, c) {
      Ordering.AtMostTransitive(a, b, c);
    }
  }

  class GlobalExecutionGovernor {
    const maxRunning: int
    const queueCapacity: int
    var waiters: map<string, Waiter>
    var queues: map<string, seq<string>>
    var order: seq<string>
    var inOrder: set<string>
    var runtimeInflight: map<string, int>
    var inflight: int
    ghost var born: map<string, Birth>
    ghost var admitted: seq<string>
    ghost var running: seq<string>

    ghost function Records(): map<string, Record>
      reads this`waiters, waiters.Values
    {
      map id | id in waiters :: waiters[id].View()
    }

    ghost function View(): State
      reads this, waiters.Values
    {
      State(maxRunning, queueCapacity, Records(), queues, order, inOrder, runtimeInflight, inflight,
            born, admitted, running)
    }

    /** Each waiter is registered under its own id, so no two ids share one. */
    ghost predicate Valid()
      reads this`waiters
    {
      forall id :: id in waiters ==> waiters[id].requestId == id
    }

    constructor (maxRunning: int, queueCapacity: int)
      requires maxRunning >= 1 && queueCapacity >= 1
      ensures Valid() && View() == Init(maxRunning, queueCapacity)
      ensures waiters == map[]
    {
      this.maxRunning, this.queueCapacity := maxRunning, queueCapacity;
      waiters, queues, order, inOrder := map[], map[], [], {};
      runtimeInflight, inflight := map[], 0;
      born, admitted, running := map[], [], [];
    }

    lemma OnlyUnder(w: Waiter)
      requires Valid()
      ensures forall id :: id in waiters && waiters[id] == w ==> id == w.requestId
    {
    }

    method ScheduleRuntime(key: string)
      requires Valid()
      modifies this`order, this`inOrder
      ensures Valid() && View() == Schedule(old(View()), key)
    {
      if key in inOrder {
        return;
      }
      if key !in queues || queues[key] == [] {
        return;
      }
      order := order + [key];
      inOrder := inOrder + {key};
    }

    /** Close a registered waiter. */
    method Finish(w: Waiter, phase: Phase, now: int)
      requires Valid() && w.requestId in waiters && waiters[w.requestId] == w
      modifies w
      ensures Records() == old(Records())[w.requestId := old(w.View()).(phase := phase, finishedAt := Some(now))]
      ensures w.phase == phase
    {
      OnlyUnder(w);
      w.phase, w.finishedAt := phase, Some(now);
    }

    method NextQueued(key: string, now: int) returns (selected: Waiter?)
      requires Valid() && key in queues
      modifies this`queues, waiters.Values
      ensures Valid() && View() == TrimQueue(old(View()), key, now)
      ensures selected == null <==> queues[key] == []
      ensures selected != null ==> queues[key][0] in waiters && selected == waiters[queues[key][0]]
    {
      hide Trim;
      var again := true;
      selected := null;
      while again
        invariant Valid() && key in queues
        invariant queues == old(queues)[key := queues[key]]
        invariant Trim(Records(), queues[key], now) == Trim(old(Records()), old(queues[key]), now)
        invariant !again ==> Trim(Records(), queues[key], now) == Trimmed(Records(), queues[key])
        invariant !again ==> (selected == null <==> queues[key] == [])
        invariant !again && selected != null ==> queues[key][0] in waiters && selected == waiters[queues[key][0]]
        decreases |queues[key]|, again
      {
        selected, again := InspectHead(key, now);
      }
    }

    /** One pass of the loop over the head of a queue: drop it if it is stale or
        overdue, otherwise select it. */
    method InspectHead(key: string, now: int) returns (selected: Waiter?, again: bool)
      requires Valid() && key in queues
      modifies this`queues, waiters.Values
      ensures Valid() && key in queues && queues == old(queues)[key := queues[key]]
      ensures again ==> |queues[key]| < |old(queues[key])|
      ensures !again ==> queues == old(queues)
      ensures Trim(Records(), queues[key], now) == Trim(old(Records()), old(queues[key]), now)
      ensures !again ==> Trim(Records(), queues[key], now) == Trimmed(Records(), queues[key])
      ensures !again ==> (selected == null <==> queues[key] == [])
      ensures !again && selected != null ==> queues[key][0] in waiters && selected == waiters[queues[key][0]]
    {
      hide Trim;
      if queues[key] == [] {
        TrimLive(Records(), queues[key], now);
        return null, false;
      }
      var id := queues[key][0];
      if id !in waiters || waiters[id].phase != Queued {
        TrimStale(Records(), queues[key], now);
        queues := queues[key := queues[key][1..]];
        return null, true;
      }
      var w := waiters[id];
      if w.IsExpired(now) {
        TrimOverdue(Records(), queues[key], now);
        Finish(w, Expired, now);
        queues := queues[key := queues[key][1..]];
        return null, true;
      }
      TrimLive(Records(), queues[key], now);
      return w, false;
    }

    method ExpireQueued(now: int)
      requires Valid()
      modifies waiters.Values
      ensures Valid() && View() == Expire(old(View()), now)
    {
      var todo := waiters.Keys;
      while todo != {}
        invariant todo <= waiters.Keys
        invariant forall id | id in waiters ::
          Records()[id] == if id in todo then old(Records())[id] else ExpireRecord(old(Records())[id], now)
        decreases |todo|
      {
        var id :| id in todo;
        var w := waiters[id];
        assert w.View() == Records()[id];
        if w.phase == Queued && w.IsExpired(now) {
          Finish(w, Expired, now);
        }
        todo := todo - {id};
      }
      assert Records() == Expire(old(View()), now).waiters;
    }

    method MarkRunning(w: Waiter, now: int)
      requires Valid() && w.requestId in waiters && waiters[w.requestId] == w
      modifies w
      ensures Records() == old(Records())[w.requestId := old(w.View()).(phase := Running, startedAt := Some(now))]
    {
      OnlyUnder(w);
      w.phase, w.startedAt := Running, Some(now);
    }

    /** Give a slot to `w`, charged to runtime `key`. */
    method Grant(w: Waiter, key: string, now: int)
      requires Valid() && w.requestId in waiters && waiters[w.requestId] == w
      modifies this`inflight, this`runtimeInflight, this`admitted, this`running, w
      ensures View() == Admit(old(View()), key, w.requestId, now)
    {
      MarkRunning(w, now);
      ghost var marked := Records();
      inflight := inflight + 1;
      runtimeInflight := runtimeInflight[key := Count(runtimeInflight, key) + 1];
      admitted, running := admitted + [w.requestId], running + [w.requestId];
      assert Records() == marked;
    }

    /** One turn of the inner loop. */
    method VisitFront(now: int) returns (granted: bool)
      requires Valid() && order != []
      modifies this, waiters.Values
      ensures Valid() && waiters == old(waiters)
      ensures Visited(View(), granted) == Visit(old(View()), now)
    {
      VisitIsTurn(View(), now);
      hide Visit, Turn;
      var key := order[0];
      order, inOrder := order[1..], inOrder - {key};
      assert View() == PopFront(old(View()));
      if key !in queues {
        return false;
      }
      granted := TakeTurn(key, now);
    }

    method TakeTurn(key: string, now: int) returns (granted: bool)
      requires Valid() && key in queues
      modifies this, waiters.Values
      ensures Valid() && waiters == old(waiters)
      ensures Visited(View(), granted) == Turn(old(View()), key, now)
    {
      hide Trim, Schedule;
      var selected := NextQueued(key, now);
      ghost var s2 := View();
      if selected == null {
        queues := queues - {key};
        assert View() == DropQueue(s2, key);
        return false;
      }
      assert selected.View() == s2.waiters[s2.queues[key][0]];
      if Count(runtimeInflight, key) >= selected.runtimeMaxRunning {
        ScheduleRuntime(key);
        return false;
      }
      AdvanceFront(key);
      Grant(selected, key, now);
      return true;
    }

    /** Take the head off the queue of `key`; put the runtime back on the
        rotation if more is queued. */
    method AdvanceFront(key: string)
      requires Valid() && key in queues && queues[key] != []
      modifies this`queues, this`order, this`inOrder
      ensures Valid() && View() == Advance(old(View()), key)
    {
      hide Schedule;
      ghost var s2 := View();
      queues := queues[key := queues[key][1..]];
      assert View() == s2.(queues := s2.queues[key := s2.queues[key][1..]]);
      if queues[key] != [] {
        ScheduleRuntime(key);
      } else {
        queues := queues - {key};
      }
    }

    method AdmitAvailable(now: int)
      requires Valid()
      modifies this, waiters.Values
      ensures Valid() && waiters == old(waiters)
      ensures View() == AdmitAll(old(View()), now)
    {
      ghost var s0 := View();
      while inflight < maxRunning && order != []
        invariant Valid() && waiters == old(waiters)
        invariant AdmitAll(View(), now) == AdmitAll(s0, now)
        decreases maxRunning - inflight
      {
        ghost var s1 := View();
        var candidates := |order|;
        var done := false;
        var i := 0;
        while i < candidates && !done
          invariant 0 <= i <= candidates == |s1.order|
          invariant Valid() && waiters == old(waiters)
          invariant inflight == s1.inflight + (if done then 1 else 0)
          invariant done ==> Scan(s1, now, candidates) == Visited(View(), true)
          invariant !done ==>
            candidates - i <= |order| && Scan(s1, now, candidates) == Scan(View(), now, candidates - i)
        {
          done := VisitFront(now);
          i := i + 1;
        }
        if !done {
          break;
        }
      }
    }

    method QueuedCount() returns (n: int)
      requires Valid()
      ensures n == |QueuedIds(View())|
    {
      n := 0;
      var todo := waiters.Keys;
      ghost var counted: set<string> := {};
      while todo != {}
        invariant todo <= waiters.Keys && n == |counted|
        invariant counted == set id | id in waiters && id !in todo && waiters[id].phase == Queued
        decreases |todo|
      {
        var id :| id in todo;
        if waiters[id].phase == Queued {
          n := n + 1;
          counted := counted + {id};
        }
        todo := todo - {id};
      }
      assert counted == QueuedIds(View());
    }

    method Submit(key: string, id: string, bound: int, timeout: Option<int>, now: int) returns (r: SubmitResult)
      requires Valid()
      modifies this, waiters.Values
      ensures Valid() && (View(), r) == GovernorState.Submit(old(View()), key, id, bound, timeout, now)
      ensures if r == Submitted then id in waiters && fresh(waiters[id]) && waiters == old(waiters)[id := waiters[id]]
              else waiters == old(waiters)
      ensures Sound(old(View())) && (id in old(born) ==> id in old(waiters)) ==> Sound(View())
    {
      OpIsSound(View(), OpSubmit(key, id, bound, timeout, now));
      hide Sound, Blank, AdmitAll, Expire, Enqueue, QueuedIds;
      if Blank(key) || Blank(id) || bound < 1 {
        return InvalidArgument;
      }
      if timeout.Some? && timeout.value <= 0 {
        return DeadlinePassed;
      }
      if id in waiters {
        return DuplicateId;
      }
      SubmitEnlists(View(), key, id, bound, timeout, now);
      hide GovernorState.Submit, Enlist;
      ExpireQueued(now);
      AdmitAvailable(now);
      r := EnlistWaiter(key, id, bound, timeout, now);
    }

    method EnlistWaiter(key: string, id: string, bound: int, timeout: Option<int>, now: int) returns (r: SubmitResult)
      requires Valid() && id !in waiters
      modifies this, waiters.Values
      ensures Valid() && (View(), r) == Enlist(old(View()), key, id, bound, timeout, now)
      ensures if r == Submitted then id in waiters && fresh(waiters[id]) && waiters == old(waiters)[id := waiters[id]]
              else waiters == old(waiters)
    {
      hide AdmitAll, Enqueue, QueuedIds, Blank, NewRecord;
      var queued := QueuedCount();
      var canRunNow := inflight < maxRunning && Count(runtimeInflight, key) < bound;
      if queued >= queueCapacity && !canRunNow {
        return QueueFull;
      }
      Enroll(key, id, bound, timeout, now);
      AdmitAvailable(now);
      return Submitted;
    }

    /** Create a waiter and put it in its runtime's queue. */
    method Enroll(key: string, id: string, bound: int, timeout: Option<int>, now: int)
      requires Valid() && id !in waiters
      modifies this
      ensures Valid() && View() == Enqueue(old(View()), key, id, NewRecord(key, bound, timeout, now))
      ensures id in waiters && fresh(waiters[id]) && waiters == old(waiters)[id := waiters[id]]
    {
      hide Enqueue, NewRecord;
      var w := new Waiter(id, key, bound, now, timeout);
      Register(w);
    }

    method Register(w: Waiter)
      requires Valid() && w.requestId !in waiters
      modifies this
      ensures Valid() && waiters == old(waiters)[w.requestId := w]
      ensures View() == Enqueue(old(View()), w.runtimeKey, w.requestId, w.View())
    {
      hide Schedule;
      AddWaiter(w);
      ghost var records := Records();
      var key, id := w.runtimeKey, w.requestId;
      queues := queues[key := (if key in queues then queues[key] else []) + [id]];
      born := born[id := Birth(key, |born.Keys|)];
      assert Records() == records;
      ScheduleRuntime(key);
    }

    method AddWaiter(w: Waiter)
      requires Valid() && w.requestId !in waiters
      modifies this`waiters
      ensures Valid() && waiters == old(waiters)[w.requestId := w]
      ensures Records() == old(Records())[w.requestId := w.View()]
    {
      waiters := waiters[w.requestId := w];
    }

    method DiscardWaiter(w: Waiter)
      requires Valid()
      modifies this`waiters
      ensures Valid()
      ensures waiters == if w.requestId in old(waiters) && old(waiters)[w.requestId] == w
                         then old(waiters) - {w.requestId} else old(waiters)
      ensures View() == if w.requestId in old(waiters) && old(waiters)[w.requestId] == w
                        then Discard(old(View()), w.requestId) else old(View())
    {
      if w.requestId in waiters && waiters[w.requestId] == w {
        waiters := waiters - {w.requestId};
      }
    }

    /** One pass of the loop in `wait`. A waiter leaves the registry only after
        its phase has changed, so a queued one is always registered. */
    method WaitPass(w: Waiter, now: int) returns (r: WaitResult)
      requires Valid()
      requires w.phase == Running ==> w.startedAt.Some?
      requires w.phase == Queued ==> w.requestId in waiters && waiters[w.requestId] == w
      modifies this, waiters.Values
      ensures Valid()
      ensures (View(), r) == GovernorState.WaitPass(old(View()), w.requestId, old(w.phase), old(w.startedAt),
                               w.requestId in old(waiters) && old(waiters)[w.requestId] == w, now)
      ensures Sound(old(View())) ==> Sound(View())
    {
      PassIsSound(View(), w.requestId, w.phase, w.startedAt,
                  w.requestId in waiters && waiters[w.requestId] == w, now);
      hide Sound;
      if w.phase == Running {
        return Permit(w.startedAt.value);
      }
      if w.phase == Expired {
        DiscardWaiter(w);
        return WaitTimeout;
      }
      if w.phase == Cancelled {
        DiscardWaiter(w);
        return WaitCancelled;
      }
      ghost var registered := w.requestId in waiters && waiters[w.requestId] == w;
      ExpireQueued(now);
      AdmitAvailable(now);
      assert registered ==> Records()[w.requestId] == w.View();
      if w.phase != Queued {
        return Again;
      }
      if w.deadlineAt.None? {
        return Sleep(None);
      }
      var remaining := w.deadlineAt.value - now;
      if remaining <= 0 {
        return Again;
      }
      return Sleep(Some(remaining));
    }

    method ReleaseRunning(key: string)
      modifies this`inflight, this`runtimeInflight
      ensures inflight == if old(inflight) - 1 < 0 then 0 else old(inflight) - 1
      ensures runtimeInflight == var current := Count(old(runtimeInflight), key);
        if current <= 1 then old(runtimeInflight) - {key} else old(runtimeInflight)[key := current - 1]
    {
      inflight := if inflight - 1 < 0 then 0 else inflight - 1;
      var current := Count(runtimeInflight, key);
      if current <= 1 {
        runtimeInflight := runtimeInflight - {key};
      } else {
        runtimeInflight := runtimeInflight[key := current - 1];
      }
    }

    /** Close a running waiter, return its slot and take it out of the registry. */
    method FreeSlot(w: Waiter, phase: Phase, now: int)
      requires Valid() && w.requestId in waiters && waiters[w.requestId] == w
      modifies this`inflight, this`runtimeInflight, this`running, this`waiters, w
      ensures Valid() && View() == Unrun(old(View()), w.requestId, w.runtimeKey)
      ensures waiters == old(waiters) - {w.requestId} && w.phase == phase
    {
      OnlyUnder(w);
      Finish(w, phase, now);
      ReleaseRunning(w.runtimeKey);
      running := Without(running, w.requestId);
      waiters := waiters - {w.requestId};
      assert Records() == old(Records()) - {w.requestId};
    }

    lemma Detached(w: Waiter)
      requires Valid() && w.requestId !in waiters
      ensures w !in waiters.Values
    {
    }

    method Abandon(id: string, now: int) returns (cancelled: bool)
      requires Valid()
      modifies this, waiters.Values
      ensures Valid() && (View(), cancelled) == GovernorState.Abandon(old(View()), id, now)
      ensures cancelled ==> old(waiters)[id].phase == Cancelled
      ensures Sound(old(View())) ==> Sound(View())
    {
      OpIsSound(View(), OpAbandon(id, now));
      hide Sound, AdmitAll, Unrun;
      if id !in waiters {
        return false;
      }
      var w := waiters[id];
      assert w.View() == Records()[id];
      if w.phase == Queued {
        Finish(w, Cancelled, now);
        DiscardWaiter(w);
        assert View() == Discard(old(View()), id);
      } else if w.phase == Running {
        FreeSlot(w, Cancelled, now);
      } else {
        return false;
      }
      Detached(w);
      assert waiters.Values <= old(waiters.Values);
      AdmitAvailable(now);
      return true;
    }

    method Release(id: string, now: int) returns (r: ReleaseResult)
      requires Valid()
      modifies this, waiters.Values
      ensures Valid() && (View(), r) == GovernorState.Release(old(View()), id, now)
      ensures r == Released ==> old(waiters)[id].phase == Completed
      ensures Sound(old(View())) ==> Sound(View())
    {
      OpIsSound(View(), OpRelease(id, now));
      hide Sound, AdmitAll, Unrun;
      if id !in waiters {
        return UnknownId;
      }
      var w := waiters[id];
      assert w.View() == Records()[id];
      if w.phase != Running {
        return NotRunning;
      }
      FreeSlot(w, Completed, now);
      Detached(w);
      assert waiters.Values <= old(waiters.Values);
      AdmitAvailable(now);
      return Released;
    }

    /** Queued waiters, counted by runtime and in all. */
    method QueuedByRuntime() returns (queued: int, byRuntime: map<string, int>)
      requires Valid()
      ensures queued == |QueuedIds(View())|
      ensures forall k :: Count(byRuntime, k) == |QueuedOf(QueuedIds(View()), k)|
    {
      byRuntime, queued := map[], 0;
      var todo := waiters.Keys;
      ghost var counted: set<string> := {};
      while todo != {}
        invariant todo <= waiters.Keys
        invariant counted == set id | id in waiters && id !in todo && waiters[id].phase == Queued
        invariant queued == |counted|
        invariant forall k :: Count(byRuntime, k) == |QueuedOf(counted, k)|
        decreases |todo|
      {
        var id :| id in todo;
        if waiters[id].phase == Queued {
          var key := waiters[id].runtimeKey;
          QueuedOfAdd(counted, id);
          byRuntime := byRuntime[key := Count(byRuntime, key) + 1];
          queued := queued + 1;
          counted := counted + {id};
        }
        todo := todo - {id};
      }
      assert counted == QueuedIds(View());
    }

    lemma QueuedOfAdd(ids: set<string>, id: string)
      requires id in waiters && id !in ids
      ensures forall k ::
        |QueuedOf(ids + {id}, k)| == |QueuedOf(ids, k)| + (if k == waiters[id].runtimeKey then 1 else 0)
    {
      var key := waiters[id].runtimeKey;
      forall k ensures |QueuedOf(ids + {id}, k)| == |QueuedOf(ids, k)| + (if k == key then 1 else 0) {
        assert QueuedOf(ids + {id}, k) == if k == key then QueuedOf(ids, k) + {id} else QueuedOf(ids, k);
      }
    }

    ghost function QueuedOf(ids: set<string>, key: string): set<string>
      reads this`waiters
    {
      set id | id in ids && id in waiters && waiters[id].runtimeKey == key
    }

    ghost function CountsOf(key: string): RuntimeCounts
      reads this, waiters.Values
    {
      RuntimeCounts(key, |QueuedOf(QueuedIds(View()), key)|, Count(runtimeInflight, key))
    }

    method TakeSnapshot(now: int) returns (r: Snapshot)
      requires Valid()
      modifies this, waiters.Values
      ensures Valid() && View() == Refresh(old(View()), now)
      ensures r.maxRunning == maxRunning && r.queueCapacity == queueCapacity && r.inflight == inflight
      ensures r.queued == |QueuedIds(View())| && InKeyOrder(r.runtimes)
      ensures forall k :: Busy(CountsOf(k)) <==> CountsOf(k) in r.runtimes
      ensures forall c :: c in r.runtimes ==> c == CountsOf(c.key)
      ensures Sound(old(View())) ==> Sound(View())
      ensures Sound(old(View())) ==> r.inflight == |RunningIds(View())|
      ensures Sound(old(View())) ==> forall c :: c in r.runtimes ==> c.running == |RunningOf(View(), c.key)|
    {
      OpIsSound(View(), OpSnapshot(now));
      hide Sound, AdmitAll, Expire;
      ExpireQueued(now);
      AdmitAvailable(now);
      SoundCounts(View());
      var queued, byRuntime := QueuedByRuntime();
      var runtimes := ListRuntimes(byRuntime, runtimeInflight);
      assert forall k :: CountsIn(byRuntime, runtimeInflight, k) == CountsOf(k);
      return Snapshot(maxRunning, queueCapacity, inflight, queued, runtimes);
    }
  }

  lemma SoundCounts(s: State)
    ensures Sound(s) ==> s.inflight == |RunningIds(s)|
    ensures Sound(s) ==> forall k :: Count(s.runtimeInflight, k) == |RunningOf(s, k)|
  {
    hide Inv, Saturated;
    if Sound(s) {
      CountersAgree(s);
    }
  }
}
