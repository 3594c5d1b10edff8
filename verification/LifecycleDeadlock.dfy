/** The deadlock is real: with one slot, any number of workers and enough queue
    places, a run without a single cancellation or deadline ends in it. */
module LifecycleDeadlock {
  import opened Common
  import opened GovernorState
  import opened GovernorInvariant
  import opened GovernorProgress
  import opened Lifecycle
  import opened LifecyclePool
  import opened LifecycleDrain
  import opened LifecycleJam
  import opened LifecycleRoom
  import opened LifecycleLimits
  import GovernorLimits

  // ---- The governor ------------------------------------------------------------

  function Members(s: seq<string>): set<string> {
    set x | x in s
  }

  /** The second of two runtimes. Its queue begins with `stale` ids, of requests that
      are `gone`. */
  datatype Second = Second(key: string, stale: seq<string>, gone: set<string>)

  /** The queues of two runtimes. */
  function TwoQueues(a: string, qa: seq<string>, b: Second, qb: seq<string>): map<string, seq<string>> {
    (if qa == [] then map[] else map[a := qa]) + (if b.stale + qb == [] then map[] else map[b.key := b.stale + qb])
  }

  /** One slot, taken by `run`; `qa` and `qb` are queued without deadlines. */
  ghost predicate OneRuns(
      g: State, cap: int, run: string, a: string, qa: seq<string>, b: Second, qb: seq<string>, order: seq<string>)
  {
    && g.maxRunning == 1 && g.inflight == 1 && g.queueCapacity == cap
    && g.waiters.Keys == {run} + Members(qa) + Members(qb)
    && g.waiters[run].phase == Running && g.waiters[run].deadline.None?
    && (forall id :: id in qa ==> id in g.waiters && g.waiters[id] == GovernorLimits.Waiting(a, 1, 0))
    && (forall id :: id in qb ==> id in g.waiters && g.waiters[id] == GovernorLimits.Waiting(b.key, 1, 0))
    && (forall id :: id in b.stale ==> id !in g.waiters)
    && g.queues == TwoQueues(a, qa, b, qb) && g.order == order
  }

  lemma {:induction false} MembersSize(s: seq<string>)
    ensures |Members(s)| <= |s|
    ensures NoDup(s) ==> |Members(s)| == |s|
  {
    if s != [] {
      var front, last := s[..|s| - 1], s[|s| - 1];
      MembersSize(front);
      assert Members(s) == Members(front) + {last};
      assert NoDup(s) ==> last !in Members(front);
    }
  }

  /** A submission to a governor without a free slot joins the end of its queue. */
  lemma FullEnqueues(g: State, key: string, id: string)
    requires g.inflight == g.maxRunning && |QueuedIds(g)| < g.queueCapacity
    requires !Blank(key) && !Blank(id) && id !in g.waiters
    requires forall x :: x in g.waiters ==> g.waiters[x].deadline.None?
    ensures Submit(g, key, id, 1, None, 0) == (Enqueue(g, key, id, GovernorLimits.Waiting(key, 1, 0)), Submitted)
  {
    GovernorLimits.NothingOverdue(g, 0);
    GovernorLimits.SubmitSteps(g, key, id, 1, 0);
    hide Submit, Enqueue, Blank;
  }

  lemma OneRunsQueued(
      g: State, cap: int, run: string, a: string, qa: seq<string>, b: Second, qb: seq<string>, order: seq<string>)
    requires OneRuns(g, cap, run, a, qa, b, qb, order)
    ensures |QueuedIds(g)| <= |qa| + |qb| && RunningIds(g) <= {run}
    ensures forall x :: x in g.waiters ==> g.waiters[x].deadline.None?
  {
    hide TwoQueues;
    forall x | x in g.waiters ensures x == run || x in qa || x in qb {
      assert x in {run} + Members(qa) + Members(qb);
    }
    assert QueuedIds(g) <= Members(qa) + Members(qb);
    SubsetSize(QueuedIds(g), Members(qa) + Members(qb));
    MembersSize(qa);
    MembersSize(qb);
  }

  lemma EnqueueOne(g: State, key: string, id: string, w: Record)
    requires Structure(g)
    ensures var g' := Enqueue(g, key, id, w);
      && g'.maxRunning == g.maxRunning && g'.inflight == g.inflight && g'.queueCapacity == g.queueCapacity
      && g'.waiters == g.waiters[id := w]
      && g'.queues == g.queues[key := (if key in g.queues then g.queues[key] else []) + [id]]
      && g'.order == (if key in g.queues then g.order else g.order + [key])
  {
  }

  /** Another submission for `a` while nothing is queued for `b`. */
  lemma JoinsA(
      g: State, cap: int, run: string, a: string, qa: seq<string>, b: Second, order: seq<string>, id: string)
    requires OneRuns(g, cap, run, a, qa, b, [], order) && Structure(g)
    requires |qa| < cap && !Blank(a) && !Blank(id) && id !in g.waiters && id !in b.stale && a != b.key
    ensures var (g', r) := Submit(g, a, id, 1, None, 0);
      r == Submitted && OneRuns(g', cap, run, a, qa + [id], b, [], if qa == [] then order + [a] else order)
  {
    hide Submit, Structure, Enqueue, Blank, QueuedIds, RunningIds, TwoQueues, Members;
    OneRunsQueued(g, cap, run, a, qa, b, [], order);
    FullEnqueues(g, a, id);
    EnqueueOne(g, a, id, GovernorLimits.Waiting(a, 1, 0));
    MembersSnoc(qa, id);
    TwoQueuesJoin(a, qa, b, id);
  }

  lemma TwoQueuesJoin(a: string, qa: seq<string>, b: Second, id: string)
    requires a != b.key
    ensures var m := TwoQueues(a, qa, b, []);
      && m[a := (if a in m then m[a] else []) + [id]] == TwoQueues(a, qa + [id], b, [])
      && m[b.key := (if b.key in m then m[b.key] else []) + [id]] == TwoQueues(a, qa, b, [id])
      && (a in m <==> qa != []) && (b.key in m <==> b.stale != [])
  {
    assert qa == [] ==> [] + [id] == qa + [id];
    assert b.stale + [] == b.stale;
    assert b.stale == [] ==> [] + [id] == b.stale + [id];
  }

  lemma MembersSnoc(s: seq<string>, x: string)
    ensures Members(s + [x]) == Members(s) + {x}
    ensures s == [] ==> s + [x] == [x]
  {
  }

  lemma JoinsB(
      g: State, cap: int, run: string, a: string, qa: seq<string>, b: Second, order: seq<string>, id: string)
    requires OneRuns(g, cap, run, a, qa, b, [], order) && Structure(g)
    requires |qa| < cap && !Blank(b.key) && !Blank(id) && id !in g.waiters && id !in b.stale && a != b.key
    ensures var (g', r) := Submit(g, b.key, id, 1, None, 0);
      r == Submitted && OneRuns(g', cap, run, a, qa, b, [id], if b.stale == [] then order + [b.key] else order)
  {
    hide Submit, Structure, Enqueue, Blank, QueuedIds, RunningIds, TwoQueues, Members;
    OneRunsQueued(g, cap, run, a, qa, b, [], order);
    FullEnqueues(g, b.key, id);
    EnqueueOne(g, b.key, id, GovernorLimits.Waiting(b.key, 1, 0));
    TwoQueuesJoin(a, qa, b, id);
    var none: seq<string> := [];
    MembersSnoc(none, id);
    assert Members(none) == Members([]);
  }

  /** With the one slot free, the runtime at the front is served; stale ids in front
      of its queue are dropped. */
  lemma FrontIsServed(
      s: State, key: string, stale: seq<string>, id: string, rest: seq<string>, tail: seq<string>)
    requires s.maxRunning == 1 && s.inflight == 0 && s.order == [key] + tail && Structure(s)
    requires key in s.queues && s.queues[key] == stale + ([id] + rest) && Count(s.runtimeInflight, key) == 0
    requires id in s.waiters && s.waiters[id] == GovernorLimits.Waiting(key, 1, 0)
    requires forall x :: x in stale ==> x !in s.waiters
    ensures var g := AdmitAll(s, 0);
      && g.maxRunning == 1 && g.inflight == 1 && g.queueCapacity == s.queueCapacity
      && g.waiters == s.waiters[id := s.waiters[id].(phase := Running, startedAt := Some(0))]
      && g.queues == (if rest == [] then s.queues - {key} else s.queues[key := rest])
      && g.order == tail + (if rest == [] then [] else [key])
  {
    FrontTurn(s, key, stale, id, rest, tail);
    hide Visit, Structure;
    var v := Visit(s, 0);
    assert Scan(s, 0, |s.order|) == v;
  }

  lemma {:induction false} StaleTrimmed(
      waiters: map<string, Record>, stale: seq<string>, queue: seq<string>, now: int)
    requires queue != [] && queue[0] in waiters && waiters[queue[0]].phase == Queued
    requires !waiters[queue[0]].ExpiredAt(now) && forall x :: x in stale ==> x !in waiters
    ensures Trim(waiters, stale + queue, now) == Trimmed(waiters, queue)
    decreases |stale|
  {
    if stale == [] {
      assert stale + queue == queue;
    } else {
      assert (stale + queue)[0] == stale[0] && (stale + queue)[1..] == stale[1..] + queue;
      StaleTrimmed(waiters, stale[1..], queue, now);
    }
  }

  lemma FrontTurn(s: State, key: string, stale: seq<string>, id: string, rest: seq<string>, tail: seq<string>)
    requires s.order == [key] + tail && Structure(s)
    requires key in s.queues && s.queues[key] == stale + ([id] + rest) && Count(s.runtimeInflight, key) == 0
    requires id in s.waiters && s.waiters[id] == GovernorLimits.Waiting(key, 1, 0)
    requires forall x :: x in stale ==> x !in s.waiters
    ensures var v := Visit(s, 0);
      && v.admitted
      && v.state.waiters == s.waiters[id := s.waiters[id].(phase := Running, startedAt := Some(0))]
      && v.state.queues == (if rest == [] then s.queues - {key} else s.queues[key := rest])
      && v.state.order == tail + (if rest == [] then [] else [key])
  {
    StaleTrimmed(s.waiters, stale, [id] + rest, 0);
    hide Trim;
    var s2 := TrimQueue(PopFront(s), key, 0);
    assert s2.queues == s.queues[key := [id] + rest] && s2.waiters == s.waiters && s2.order == tail;
    assert s2.queues[key][1..] == rest;
    assert s2.queues[key := rest] == s.queues[key := rest];
    assert s2.queues[key := rest] - {key} == s.queues - {key};
    assert key !in tail && key !in s2.inOrder;
  }

  /** The running waiter returns the one slot. */
  lemma FreedCounters(g: State, run: string)
    requires Inv(g) && g.inflight == 1 && run in RunningIds(g)
    ensures var s := Unrun(g, run, g.waiters[run].key);
      && Inv(s) && s.inflight == 0 && s.waiters == g.waiters - {run} && s.queues == g.queues && s.order == g.order
      && s.maxRunning == g.maxRunning && s.queueCapacity == g.queueCapacity
      && forall k :: Count(s.runtimeInflight, k) == 0
  {
    UnrunKeeps(g, run);
    var s := Unrun(g, run, g.waiters[run].key);
    assert Counters(s) && s.running == [];
  }

  /** `run` returns its slot: the runtime at the front gets it. */
  lemma ReleaseServes(
      g: State, run: string, key: string, stale: seq<string>, id: string, rest: seq<string>, tail: seq<string>)
    requires Inv(g) && g.maxRunning == 1 && g.inflight == 1 && run in RunningIds(g) && id != run
    requires g.order == [key] + tail && key in g.queues && g.queues[key] == stale + ([id] + rest)
    requires id in g.waiters && g.waiters[id] == GovernorLimits.Waiting(key, 1, 0)
    requires forall x :: x in stale ==> x !in g.waiters
    ensures var g' := Apply(g, OpRelease(run, 0));
      && g'.maxRunning == 1 && g'.inflight == 1 && g'.queueCapacity == g.queueCapacity
      && g'.waiters == (g.waiters - {run})[id := g.waiters[id].(phase := Running, startedAt := Some(0))]
      && g'.queues == (if rest == [] then g.queues - {key} else g.queues[key := rest])
      && g'.order == tail + (if rest == [] then [] else [key])
  {
    hide Inv, Unrun, AdmitAll, Structure;
    FreedCounters(g, run);
    var s := Unrun(g, run, g.waiters[run].key);
    InvStructure(s);
    FrontIsServed(s, key, stale, id, rest, tail);
  }

  lemma InvStructure(g: State)
    requires Inv(g)
    ensures Structure(g)
  {
  }

  // ---- Requests that join ---------------------------------------------------------

  function Id(base: string): string {
    GlobalId(base, 0)
  }

  function Ids(bases: seq<string>): seq<string> {
    seq(|bases|, i requires 0 <= i < |bases| => Id(bases[i]))
  }

  function Narrow(key: string): Target {
    Target(key, 1)
  }

  ghost predicate Roles(pcs: map<string, Pc>, x: string, a: string, xs: seq<string>, b: Second, ys: seq<string>) {
    && pcs.Keys == {x} + Members(xs) + Members(ys) + b.gone
    && (forall c :: c in b.gone ==> c in pcs && pcs[c].Done?)
    && pcs[x] == Executing(0, Narrow(a))
    && (forall c :: c in xs ==> c in pcs && pcs[c] == Waiting(0, Narrow(a)))
    && (forall c :: c in ys ==> c in pcs && pcs[c] == Waiting(0, Narrow(b.key)))
  }

  lemma RolesJoin(pcs: map<string, Pc>, x: string, a: string, xs: seq<string>, b: Second, c: string)
    requires Roles(pcs, x, a, xs, b, []) && c !in pcs
    ensures Roles(pcs[c := Waiting(0, Narrow(a))], x, a, xs + [c], b, [])
    ensures Roles(pcs[c := Waiting(0, Narrow(b.key))], x, a, xs, b, [c])
  {
    hide Narrow;
    assert Members(xs + [c]) == Members(xs) + {c} && Members([c]) == {c};
  }

  /** `x` executes for `a`; `xs` wait for `a` and then `ys` for `b`, and no worker has
      begun any of their waits. */
  ghost predicate Scene(
      y: System, cap: int, x: string, a: string, xs: seq<string>, b: Second, ys: seq<string>, order: seq<string>)
  {
    && PoolInv(y) && AtWork(y) == {}
    && Roles(y.pcs, x, a, xs, b, ys)
    && y.jobs == Ids(xs) + Ids(ys)
    && OneRuns(y.gov, cap, Id(x), a, Ids(xs), b, Ids(ys), order)
  }

  predicate Calm(steps: seq<Step>) {
    forall step :: step in steps ==> !step.CancelWait?
  }

  function Joining(base: string, key: string): seq<Step> {
    Entering(base, Narrow(key)) + [SubmitGlobal(base, None, 0)]
  }

  /** What an accepted submission of a new request does to the system. */
  lemma JoinEffect(y: System, base: string, key: string)
    requires PoolInv(y) && base !in y.pcs
    requires Submit(y.gov, key, Id(base), 1, None, 0).1 == Submitted
    ensures var y' := Run(y, Joining(base, key));
      && PoolInv(y') && AtWork(y') == AtWork(y)
      && y'.pcs == y.pcs[base := Waiting(0, Narrow(key))] && y'.jobs == y.jobs + [Id(base)]
      && y'.gov == Submit(y.gov, key, Id(base), 1, None, 0).0 && y'.workers == y.workers
  {
    hide SysInv, PoolOk, Next, Run, Submit;
    var y1 := Goto(y, base, Submitting(0, Narrow(key)));
    Enters(y, base, Narrow(key));
    RunAppend(y, Entering(base, Narrow(key)), [SubmitGlobal(base, None, 0)]);
    RunOne(y1, SubmitGlobal(base, None, 0));
    RunKeepsPool(y, Entering(base, Narrow(key)));
    RunKeepsPool(y, Joining(base, key));
    PoolIsSys(y1);
    UnknownAttempt(y1, base);
    UnknownToPool(y1, Id(base));
    JoinNext(y1, base, key);
  }

  lemma JoinNext(y: System, base: string, key: string)
    requires base in y.pcs && y.pcs[base] == Submitting(0, Narrow(key))
    requires Submit(y.gov, key, Id(base), 1, None, 0).1 == Submitted
    ensures Next(y, SubmitGlobal(base, None, 0))
         == Goto(y, base, Waiting(0, Narrow(key))).(
              gov := Submit(y.gov, key, Id(base), 1, None, 0).0, jobs := y.jobs + [Id(base)],
              polling := y.polling + {Id(base)}, owner := y.owner[Id(base) := Owner(base, 0)])
  {
    hide Submit, GlobalId;
  }

  lemma IdIsNew(y: System, base: string)
    requires SysInv(y) && base !in y.pcs
    ensures Id(base) !in y.gov.waiters
  {
    hide Inv, Saturated, GlobalId;
    assert WaiterOwned(y, Id(base));
    if Id(base) in y.owner {
      GlobalIdInjective(base, 0, y.owner[Id(base)].base, y.owner[Id(base)].attempt);
    }
  }

  lemma IdsSnoc(bases: seq<string>, c: string)
    ensures Ids(bases + [c]) == Ids(bases) + [Id(c)] && Members(bases + [c]) == Members(bases) + {c}
    ensures |Ids(bases)| == |bases| && Ids([]) == [] && Ids([c]) == [Id(c)] && Members([]) == {}
  {
    hide GlobalId;
  }

  /** The stale ids are not those of new requests. */
  lemma IdNotStale(
      y: System, cap: int, run: string, a: string, qa: seq<string>, b: Second, order: seq<string>, base: string)
    requires SysInv(y) && OneRuns(y.gov, cap, run, a, qa, b, [], order) && base !in y.pcs && a != b.key
    ensures Id(base) !in b.stale
  {
    hide Saturated, GlobalId, Members, Inv;
    if Id(base) in y.owner {
      GlobalIdInjective(base, 0, y.owner[Id(base)].base, y.owner[Id(base)].attempt);
    }
    assert Id(base) !in y.gov.born;
    assert b.stale + [] == b.stale;
    if b.stale != [] {
      QueueIsBorn(y.gov, b.key);
    }
  }

  lemma QueueIsBorn(g: State, k: string)
    requires Inv(g) && k in g.queues
    ensures forall id :: id in g.queues[k] ==> id in g.born
  {
    assert InSubmissionOrder(g.queues[k], g.born, k);
  }

  /** One more request for `a`. */
  lemma SceneA(y: System, cap: int, x: string, a: string, xs: seq<string>, b: Second, order: seq<string>, c: string)
    requires Scene(y, cap, x, a, xs, b, [], order) && c !in y.pcs && |xs| < cap && !Blank(a) && a != b.key
    ensures Scene(Run(y, Joining(c, a)), cap, x, a, xs + [c], b, [], if xs == [] then order + [a] else order)
  {
    hide PoolInv, Run, Submit, Structure, AtWork, OneRuns, Joining, Blank, Id, Ids, Roles, Members;
    PoolIsSys(y);
    SysStructure(y);
    IdIsNew(y, c);
    IdsSnoc(xs, c);
    IdsSnoc([], c);
    IdNotStale(y, cap, Id(x), a, Ids(xs), b, order, c);
    IdBlank(c);
    JoinsA(y.gov, cap, Id(x), a, Ids(xs), b, order, Id(c));
    JoinEffect(y, c, a);
    RolesJoin(y.pcs, x, a, xs, b, c);
  }

  lemma SysStructure(y: System)
    requires SysInv(y)
    ensures Structure(y.gov)
  {
    InvStructure(y.gov);
  }

  lemma IdBlank(base: string)
    ensures !Blank(Id(base))
  {
    IdNotBlank(base, 0);
    hide Blank;
  }

  /** And one for `b`. */
  lemma SceneB(y: System, cap: int, x: string, a: string, xs: seq<string>, b: Second, order: seq<string>, c: string)
    requires Scene(y, cap, x, a, xs, b, [], order) && c !in y.pcs && |xs| < cap && !Blank(b.key) && a != b.key
    ensures Scene(Run(y, Joining(c, b.key)), cap, x, a, xs, b, [c],
                  if b.stale == [] then order + [b.key] else order)
  {
    hide PoolInv, Run, Submit, Structure, AtWork, OneRuns, Joining, Blank, Id, Ids, Roles, Members;
    PoolIsSys(y);
    SysStructure(y);
    IdIsNew(y, c);
    IdsSnoc(xs, c);
    IdsSnoc([], c);
    IdNotStale(y, cap, Id(x), a, Ids(xs), b, order, c);
    IdBlank(c);
    JoinsB(y.gov, cap, Id(x), a, Ids(xs), b, order, Id(c));
    JoinEffect(y, c, b.key);
    RolesJoin(y.pcs, x, a, xs, b, c);
  }

  function JoiningAll(bases: seq<string>, key: string): seq<Step> {
    if bases == [] then []
    else JoiningAll(bases[..|bases| - 1], key) + Joining(bases[|bases| - 1], key)
  }

  lemma {:induction false} SceneAll(
      y: System, cap: int, x: string, a: string, xs: seq<string>, b: Second, order: seq<string>)
    requires Scene(y, cap, x, a, [], b, [], order) && NoDup(xs) && (forall c :: c in xs ==> c !in y.pcs)
    requires |xs| <= cap && !Blank(a) && a != b.key
    ensures Scene(Run(y, JoiningAll(xs, a)), cap, x, a, xs, b, [], if xs == [] then order else order + [a])
  {
    hide Scene, Run, Blank, Joining;
    if xs == [] {
      RunNothing(y);
    } else {
      var front, c := xs[..|xs| - 1], xs[|xs| - 1];
      assert front + [c] == xs;
      SceneAll(y, cap, x, a, front, b, order);
      RunAppend(y, JoiningAll(front, a), Joining(c, a));
      var y1 := Run(y, JoiningAll(front, a));
      SceneNames(y, cap, x, a, [], b, [], order);
      SceneNames(y1, cap, x, a, front, b, [], if front == [] then order else order + [a]);
      assert c !in front && c !in y.pcs && c !in y1.pcs.Keys;
      SceneA(y1, cap, x, a, front, b, if front == [] then order else order + [a], c);
    }
  }

  lemma RunNothing(y: System)
    ensures Run(y, []) == y
  {
  }

  lemma SceneNames(
      y: System, cap: int, x: string, a: string, xs: seq<string>, b: Second, ys: seq<string>, order: seq<string>)
    requires Scene(y, cap, x, a, xs, b, ys, order)
    ensures y.pcs.Keys == {x} + Members(xs) + Members(ys) + b.gone
  {
    hide PoolInv, OneRuns;
  }

  // ---- Workers that begin, permits that are served -----------------------------------

  function Starts(n: nat): seq<Step> {
    if n == 0 then [] else Starts(n - 1) + [ThreadStart]
  }

  /** As long as there are free workers and jobs, the oldest jobs begin. */
  lemma {:induction false} Begins(y: System, n: nat)
    requires PoolInv(y) && |AtWork(y)| + n <= y.workers && n <= |y.jobs|
    ensures var y' := Run(y, Starts(n));
      && PoolInv(y') && y' == y.(jobs := y.jobs[n..], started := y'.started)
      && AtWork(y') == AtWork(y) + Members(y.jobs[..n])
    decreases n
  {
    hide PoolInv, Run, AtWork, Next;
    if n == 0 {
      RunNothing(y);
    } else {
      Begins(y, n - 1);
      var y1 := Run(y, Starts(n - 1));
      RunAppend(y, Starts(n - 1), [ThreadStart]);
      RunOne(y1, ThreadStart);
      MembersSize(y.jobs[..n - 1]);
      UnionSize(AtWork(y), Members(y.jobs[..n - 1]));
      BeginsOne(y1);
      PoolKeeps(y1, ThreadStart);
      assert y.jobs[..n] == y.jobs[..n - 1] + [y.jobs[n - 1]];
    }
  }

  lemma UnionSize(a: set<string>, b: set<string>)
    ensures |a + b| <= |a| + |b|
  {
    assert a + b == a + (b - a);
    SubsetSize(b - a, b);
  }

  lemma BeginsOne(y: System)
    requires PoolInv(y) && |AtWork(y)| < y.workers && y.jobs != []
    ensures var y' := Next(y, ThreadStart);
      && y' == y.(jobs := y.jobs[1..], started := y'.started)
      && AtWork(y') == AtWork(y) + {y.jobs[0]}
  {
    hide SysInv, InTicketOrder, Before;
    assert y.jobs[0] in y.jobs;
  }

  /** A running waiter's thread returns, the permit is delivered and found current. */
  function Permitting(base: string): seq<Step> {
    [ThreadPass(Id(base), 0)] + ([Deliver(base)] + [Recheck(base, true, 0)])
  }

  lemma Permitted(y: System, base: string, target: Target)
    requires PoolInv(y) && base in y.pcs && y.pcs[base] == Waiting(0, target)
    requires Id(base) in AtWork(y) && Id(base) in RunningIds(y.gov)
    ensures var y' := Run(y, Permitting(base));
      && PoolInv(y') && y'.pcs == y.pcs[base := Executing(0, target)] && y'.gov == y.gov
      && y'.jobs == y.jobs && y'.workers == y.workers && AtWork(y') == AtWork(y) - {Id(base)}
      && y'.polling == y.polling - {Id(base)}
  {
    RunKeepsPool(y, Permitting(base));
    PoolIsSys(y);
    SysStarted(y, Id(base));
    hide PoolInv, Run, Next, SysInv, PoolOk;
    var y1 := Next(y, ThreadPass(Id(base), 0));
    var y2 := Next(y1, Deliver(base));
    RunAppend(y, [ThreadPass(Id(base), 0)], [Deliver(base)] + [Recheck(base, true, 0)]);
    RunAppend(y1, [Deliver(base)], [Recheck(base, true, 0)]);
    RunOne(y, ThreadPass(Id(base), 0));
    RunOne(y1, Deliver(base));
    RunOne(y2, Recheck(base, true, 0));
    PassPermits(y, Id(base));
    DeliverPermits(y1, base, target);
  }

  lemma SysStarted(y: System, id: string)
    requires SysInv(y) && id in RunningIds(y.gov)
    ensures y.gov.waiters[id].startedAt.Some?
  {
    RunningStarted(y.gov, id);
  }

  lemma PassPermits(y: System, id: string)
    requires id in AtWork(y) && id in RunningIds(y.gov) && y.gov.waiters[id].startedAt.Some?
    ensures var y' := Next(y, ThreadPass(id, 0));
      && y' == y.(polling := y.polling - {id}, results := y'.results)
      && id in y'.results && y'.results[id].Permit?
  {
  }

  lemma DeliverPermits(y: System, base: string, target: Target)
    requires base in y.pcs && y.pcs[base] == Waiting(0, target)
    requires Id(base) in y.results && y.results[Id(base)].Permit?
    ensures Next(Next(y, Deliver(base)), Recheck(base, true, 0)) == Goto(y, base, Executing(0, target))
  {
    var y1 := Next(y, Deliver(base));
    hide GlobalId;
    assert y1 == Goto(y, base, Rechecking(0, target));
    var y2 := Next(y1, Recheck(base, true, 0));
    assert y2.pcs == y.pcs[base := Executing(0, target)];
  }

  /** The route answers: the slot goes back. */
  lemma Answers(y: System, base: string, target: Target)
    requires PoolInv(y) && base in y.pcs && y.pcs[base] == Executing(0, target) && Id(base) in RunningIds(y.gov)
    ensures var y' := Run(y, [Route(base, Response, 0)]);
      && PoolInv(y')
      && y' == y.(pcs := y.pcs[base := Done(Answered)], gov := Apply(y.gov, OpRelease(Id(base), 0)),
                  detached := y'.detached)
  {
    hide PoolInv, Run, Next, Apply;
    RunOne(y, Route(base, Response, 0));
    PoolKeeps(y, Route(base, Response, 0));
    AnswersNext(y, base, target);
  }

  lemma AnswersNext(y: System, base: string, target: Target)
    requires base in y.pcs && y.pcs[base] == Executing(0, target) && Id(base) in RunningIds(y.gov)
    ensures var y' := Next(y, Route(base, Response, 0));
      y' == y.(pcs := y.pcs[base := Done(Answered)], gov := Apply(y.gov, OpRelease(Id(base), 0)),
               detached := y'.detached)
  {
    hide Apply, Release, ReleaseAdmission, GlobalId;
    ReleasesCleanly(y.gov, Id(base), 0);
  }

  // ---- Two releases -------------------------------------------------------------------

  lemma FrontOf(q: seq<string>)
    requires q != []
    ensures q == [q[0]] + q[1..] && Members(q) == {q[0]} + Members(q[1..])
    ensures NoDup(q) ==> q[0] !in q[1..]
  {
    forall x | x in q ensures x == q[0] || x in q[1..] {
      var i :| 0 <= i < |q| && q[i] == x;
      if i > 0 {
        assert q[1..][i - 1] == x;
      }
    }
  }

  /** `x` returns its slot and the oldest of `a` gets it; `b` is next. */
  lemma ServesA(g: State, cap: int, x: string, a: string, qa: seq<string>, b: Second, q: string)
    requires Inv(g) && OneRuns(g, cap, x, a, qa, b, [q], [a, b.key]) && NoDup(qa) && |qa| >= 2 && a != b.key
    requires b.stale == []
    ensures OneRuns(Apply(g, OpRelease(x, 0)), cap, qa[0], a, qa[1..], b, [q], [b.key, a])
  {
    hide Inv, Apply, Members, TwoQueues;
    FrontOf(qa);
    QueuesServed(a, qa, b, q);
    assert qa[0] in qa && [a, b.key] == [a] + [b.key];
    assert [] + ([qa[0]] + qa[1..]) == [qa[0]] + qa[1..];
    ReleaseServes(g, x, a, [], qa[0], qa[1..], [b.key]);
    var g' := Apply(g, OpRelease(x, 0));
    assert [b.key] + [a] == [b.key, a];
    hide NoDup;
    ServedWaiters(g, g', cap, x, a, qa, b, q);
  }

  lemma QueuesServed(a: string, qa: seq<string>, b: Second, q: string)
    requires a != b.key && |qa| >= 2
    ensures var m := TwoQueues(a, qa, b, [q]);
      && a in m && m[a] == qa && m[a := qa[1..]] == TwoQueues(a, qa[1..], b, [q])
  {
  }

  lemma ServedWaiters(
      g: State, g': State, cap: int, x: string, a: string, qa: seq<string>, b: Second, q: string)
    requires OneRuns(g, cap, x, a, qa, b, [q], [a, b.key]) && qa != [] && qa[0] !in qa[1..] && a != b.key
    requires qa[0] in g.waiters
    requires g'.waiters == (g.waiters - {x})[qa[0] := g.waiters[qa[0]].(phase := Running, startedAt := Some(0))]
    ensures g'.waiters.Keys == {qa[0]} + Members(qa[1..]) + Members([q])
    ensures g'.waiters[qa[0]].phase == Running && g'.waiters[qa[0]].deadline.None?
    ensures forall id :: id in qa[1..] ==> id in g'.waiters && g'.waiters[id] == GovernorLimits.Waiting(a, 1, 0)
    ensures q in g'.waiters && g'.waiters[q] == GovernorLimits.Waiting(b.key, 1, 0)
  {
    hide TwoQueues;
    FrontOf(qa);
    assert qa[0] in qa && q in [q];
    forall id | id in qa[1..] ensures id in qa && id != x && id != qa[0] {
    }
    assert x !in qa && x != q && qa[0] != q;
    assert Members(qa) - {x} == Members(qa) && Members([q]) == {q};
  }

  /** Then `b` is served before the rest of `a`. */
  lemma ServesB(g: State, cap: int, x: string, a: string, qa: seq<string>, b: Second, q: string)
    requires Inv(g) && OneRuns(g, cap, x, a, qa, b, [q], [b.key, a]) && qa != [] && a != b.key
    ensures OneRuns(Apply(g, OpRelease(x, 0)), cap, q, a, qa, b.(stale := []), [], [a])
  {
    hide Inv, Apply, Members;
    assert q in [q] && [b.key, a] == [b.key] + [a] && b.stale + [q] == b.stale + ([q] + []);
    ReleaseServes(g, x, b.key, b.stale, q, [], [a]);
    var g' := Apply(g, OpRelease(x, 0));
    LastWaiters(g, g', cap, x, a, qa, b, q);
    assert g'.queues == TwoQueues(a, qa, b.(stale := []), []);
  }

  lemma LastWaiters(
      g: State, g': State, cap: int, x: string, a: string, qa: seq<string>, b: Second, q: string)
    requires OneRuns(g, cap, x, a, qa, b, [q], [b.key, a]) && a != b.key && q in g.waiters
    requires g'.waiters == (g.waiters - {x})[q := g.waiters[q].(phase := Running, startedAt := Some(0))]
    ensures g'.waiters.Keys == {q} + Members(qa) + Members([])
    ensures g'.waiters[q].phase == Running && g'.waiters[q].deadline.None?
    ensures forall id :: id in qa ==> id in g'.waiters && g'.waiters[id] == GovernorLimits.Waiting(a, 1, 0)
  {
    hide TwoQueues;
    assert q in [q];
    assert x !in qa && x != q;
    assert Members(qa) - {x} == Members(qa) && Members([q]) == {q} && Members([]) == {};
  }

  // ---- The run -----------------------------------------------------------------------

  function Opening(x: string, a: string): seq<Step> {
    Joining(x, a) + (Starts(1) + Permitting(x))
  }

  /** The first request gets the one slot. */
  lemma Opens(workers: nat, cap: int, x: string, a: string, b: Second)
    requires workers >= 1 && cap >= 1 && !Blank(a) && b.stale == [] && b.gone == {}
    ensures Scene(Run(Start(1, cap, workers), Opening(x, a)), cap, x, a, [], b, [], [])
  {
    hide PoolInv, Run, Blank, Submit, Joining, Permitting, Starts, Id, Members, AtWork;
    var y := Start(1, cap, workers);
    EveryRunIsOrderly(1, cap, workers, []);
    RunNothing(y);
    IdBlank(x);
    FirstIsServed(cap, a, Id(x));
    JoinEffect(y, x, a);
    var y1 := Run(y, Joining(x, a));
    RunAppend(y, Joining(x, a), Starts(1) + Permitting(x));
    NobodyWorks(y);
    Begins(y1, 1);
    var y2 := Run(y1, Starts(1));
    RunAppend(y1, Starts(1), Permitting(x));
    assert y1.jobs == [Id(x)] && y1.jobs[..1] == [Id(x)];
    OneMember(Id(x));
    Permitted(y2, x, Narrow(a));
    FirstScene(cap, x, a, b);
    assert AtWork(Run(y2, Permitting(x))) == {};
    assert Run(y2, Permitting(x)).pcs == map[x := Executing(0, Narrow(a))];
    assert Run(y2, Permitting(x)).jobs == Ids([]) + Ids([]);
  }

  lemma NobodyWorks(y: System)
    requires y.polling == {}
    ensures AtWork(y) == {}
  {
  }

  lemma OneMember(x: string)
    ensures Members([x]) == {x} && Members([]) == {}
  {
  }

  lemma FirstIsServed(cap: int, key: string, id: string)
    requires cap >= 1 && !Blank(key) && !Blank(id)
    ensures Submit(Init(1, cap), key, id, 1, None, 0) == (GovernorLimits.Busy(1, cap, key, id, 1), Submitted)
  {
    GovernorLimits.FirstRuns(1, cap, key, id, 1);
    GovernorLimits.NothingOverdue(Init(1, cap), 0);
    GovernorLimits.NoneQueued(Init(1, cap));
    GovernorLimits.SubmitSteps(Init(1, cap), key, id, 1, 0);
    hide Submit, Blank, Enqueue;
  }

  lemma FirstScene(cap: int, x: string, a: string, b: Second)
    requires b.stale == [] && b.gone == {}
    ensures var g := GovernorLimits.Busy(1, cap, a, Id(x), 1);
      OneRuns(g, cap, Id(x), a, Ids([]), b, Ids([]), []) && Id(x) in RunningIds(g)
    ensures Roles(map[x := Executing(0, Narrow(a))], x, a, [], b, [])
  {
    hide Id;
    assert Ids([]) == [];
    assert Members([]) == {};
  }

  /** The oldest jobs are at work, the first of them is over and the last begins. */
  lemma WorkMovesOn(ids: seq<string>, n: nat)
    requires NoDup(ids) && |ids| == n + 1 && n >= 1
    ensures Members(ids[..n]) - {ids[0]} + {ids[n]} == Members(ids[1..]) && ids[0] in Members(ids[..n])
    ensures |Members(ids[1..])| == n && |Members(ids[..n]) - {ids[0]}| == n - 1
  {
    var middle := ids[1..n];
    assert ids[..n] == [ids[0]] + middle && ids[1..] == middle + [ids[n]];
    Slices(ids, n);
    hide NoDup;
    FrontOf(ids[..n]);
    assert ids[..n][1..] == middle;
    MembersSnoc(middle, ids[n]);
    MembersSize(ids[1..]);
    MembersSize(middle);
    NotAMember(middle, ids[0]);
    hide Members;
  }

  lemma Slices(ids: seq<string>, n: nat)
    requires NoDup(ids) && |ids| == n + 1 && n >= 1
    ensures NoDup(ids[..n]) && NoDup(ids[1..]) && NoDup(ids[1..n])
  {
  }

  lemma NotAMember(s: seq<string>, x: string)
    requires x !in s
    ensures {x} + Members(s) - {x} == Members(s)
  {
  }

  lemma IdsNoDup(bases: seq<string>)
    requires NoDup(bases)
    ensures NoDup(Ids(bases)) && |Ids(bases)| == |bases|
  {
    forall i, j | 0 <= i < j < |bases| ensures Ids(bases)[i] != Ids(bases)[j] {
      GlobalIdInjective(bases[i], 0, bases[j], 0);
    }
  }

  /** From the scene with every worker's fill of `a` and one `b` behind, the first
      release serves `a`, the second `b`, and the workers are all on `a`. */
  function Closing(workers: nat, x: string, first: string): seq<Step> {
    Starts(workers) + ([Route(x, Response, 0)]
      + (Permitting(first) + ([Route(first, Response, 0)] + [ThreadStart])))
  }

  lemma Closes(y: System, cap: int, x: string, a: string, xs: seq<string>, b: Second, c: string)
    requires Scene(y, cap, x, a, xs, b, [c], [a, b.key]) && a != b.key && NoDup([x] + xs + [c])
    requires y.workers >= 1 && |xs| == y.workers + 1 && b.stale == []
    ensures var y' := Run(y, Closing(y.workers, x, xs[0]));
      && PoolInv(y') && y'.workers == y.workers
      && AtWork(y') == Members(Ids(xs)[1..]) && y'.jobs == [Id(c)]
      && OneRuns(y'.gov, cap, Id(c), a, Ids(xs)[1..], b, [], [a])
      && y'.pcs == y.pcs[x := Done(Answered)][xs[0] := Done(Answered)]
  {
    hide PoolInv, Run, Next, Starts, Permitting, Members, AtWork, OneRuns, Id, Ids, NoDup, Roles, Scene;
    FirstRelease(y, cap, x, a, xs, b, c);
    RunSplit(y, y.workers, x, xs[0]);
    var y3 := Run(Run(y, Starts(y.workers)), [Route(x, Response, 0)]);
    NamesApart(x, xs, c);
    SecondRelease(y3, cap, a, xs, b, c);
  }

  ghost predicate AfterFirst(y: System, cap: int, a: string, xs: seq<string>, b: Second, c: string)
    requires |xs| == y.workers + 1
  {
    && PoolInv(y) && xs[0] in y.pcs && y.pcs[xs[0]] == Waiting(0, Narrow(a))
    && |Ids(xs)| == |xs| && AtWork(y) == Members(Ids(xs)[..y.workers]) && y.jobs == [Ids(xs)[y.workers]] + [Id(c)]
    && OneRuns(y.gov, cap, Id(xs[0]), a, Ids(xs)[1..], b, [Id(c)], [b.key, a])
  }

  lemma FirstRelease(y: System, cap: int, x: string, a: string, xs: seq<string>, b: Second, c: string)
    requires Scene(y, cap, x, a, xs, b, [c], [a, b.key]) && a != b.key && NoDup([x] + xs + [c])
    requires y.workers >= 1 && |xs| == y.workers + 1 && b.stale == []
    ensures var y' := Run(Run(y, Starts(y.workers)), [Route(x, Response, 0)]);
      && y'.workers == y.workers && y'.pcs == y.pcs[x := Done(Answered)]
      && AfterFirst(y', cap, a, xs, b, c)
  {
    hide PoolInv, Run, Next, Starts, Members, AtWork, OneRuns, Id, Ids, NoDup;
    var p, ids := y.workers, Ids(xs);
    NamesApart(x, xs, c);
    IdsNoDup(xs);
    IdsSnoc([], c);
    FirstId(xs);
    assert (ids + [Id(c)])[..p] == ids[..p] && (ids + [Id(c)])[p..] == [ids[p]] + [Id(c)];
    SceneBegins(y, p);
    Begins(y, p);
    var y2 := Run(y, Starts(p));
    SceneRuns(y.gov, cap, Id(x), a, ids, b, [Id(c)], [a, b.key]);
    Answers(y2, x, Narrow(a));
    PoolGov(y2);
    ServesA(y2.gov, cap, Id(x), a, ids, b, Id(c));
    SameWork(y2, Run(y2, [Route(x, Response, 0)]));
  }

  lemma SceneBegins(y: System, n: nat)
    requires AtWork(y) == {} && n <= y.workers
    ensures |AtWork(y)| + n <= y.workers && {} + Members(y.jobs[..0]) == AtWork(y)
  {
  }

  lemma SecondRelease(y: System, cap: int, a: string, xs: seq<string>, b: Second, c: string)
    requires y.workers >= 1 && |xs| == y.workers + 1 && NoDup(xs) && a != b.key && b.stale == []
    requires AfterFirst(y, cap, a, xs, b, c)
    ensures var y' := Run(Run(Run(y, Permitting(xs[0])), [Route(xs[0], Response, 0)]), [ThreadStart]);
      && PoolInv(y') && y'.workers == y.workers
      && AtWork(y') == Members(Ids(xs)[1..]) && y'.jobs == [Id(c)]
      && OneRuns(y'.gov, cap, Id(c), a, Ids(xs)[1..], b, [], [a])
      && y'.pcs == y.pcs[xs[0] := Done(Answered)]
  {
    hide PoolInv, Run, Next, Permitting, Members, AtWork, OneRuns, Id, Ids, NoDup;
    var p, ids := y.workers, Ids(xs);
    IdsNoDup(xs);
    WorkMovesOn(ids, p);
    FirstId(xs);
    SceneRuns(y.gov, cap, ids[0], a, ids[1..], b, [Id(c)], [b.key, a]);
    Permitted(y, xs[0], Narrow(a));
    var y4 := Run(y, Permitting(xs[0]));
    Answers(y4, xs[0], Narrow(a));
    var y5 := Run(y4, [Route(xs[0], Response, 0)]);
    PoolGov(y4);
    ServesB(y4.gov, cap, ids[0], a, ids[1..], b, Id(c));
    SameWork(y4, y5);
    RunOne(y5, ThreadStart);
    PoolKeeps(y5, ThreadStart);
    BeginsOne(y5);
    assert ([ids[p]] + [Id(c)])[1..] == [Id(c)];
  }

  lemma SameWork(y: System, y': System)
    requires y'.polling == y.polling && y'.started == y.started
    ensures AtWork(y') == AtWork(y)
  {
  }

  lemma FirstId(xs: seq<string>)
    requires xs != []
    ensures |Ids(xs)| == |xs| && Ids(xs)[0] == Id(xs[0]) && xs[0] in xs
  {
  }

  lemma PoolGov(y: System)
    requires PoolInv(y)
    ensures Inv(y.gov)
  {
    hide Inv;
  }

  lemma SceneRuns(
      g: State, cap: int, run: string, a: string, qa: seq<string>, b: Second, qb: seq<string>, order: seq<string>)
    requires OneRuns(g, cap, run, a, qa, b, qb, order)
    ensures run in RunningIds(g)
  {
    hide TwoQueues, Members;
    assert run in g.waiters.Keys;
  }

  lemma NamesApart(x: string, xs: seq<string>, c: string)
    requires NoDup([x] + xs + [c])
    ensures NoDup(xs) && x !in xs && c !in xs && x != c
  {
    var all := [x] + xs + [c];
    assert all[0] == x && all[|xs| + 1] == c && forall i :: 0 <= i < |xs| ==> all[i + 1] == xs[i];
  }

  lemma RunSplit(y: System, workers: nat, x: string, first: string)
    ensures var y2 := Run(y, Starts(workers));
      var y3 := Run(y2, [Route(x, Response, 0)]);
      var y4 := Run(y3, Permitting(first));
      var y5 := Run(y4, [Route(first, Response, 0)]);
      Run(y, Closing(workers, x, first)) == Run(y5, [ThreadStart])
  {
    hide Run, Starts, Permitting;
    var y2 := Run(y, Starts(workers));
    var y3 := Run(y2, [Route(x, Response, 0)]);
    var y4 := Run(y3, Permitting(first));
    var last := [Route(first, Response, 0)] + [ThreadStart];
    RunAppend(y, Starts(workers), [Route(x, Response, 0)] + (Permitting(first) + last));
    RunAppend(y2, [Route(x, Response, 0)], Permitting(first) + last);
    RunAppend(y3, Permitting(first), last);
    RunAppend(y4, [Route(first, Response, 0)], [ThreadStart]);
  }

  // ---- The deadlock --------------------------------------------------------------------

  /** What the runs end in is a deadlock: `ws` are at work, `c` has the slot. */
  lemma EndIsStuck(y: System, cap: int, a: string, ws: seq<string>, b: Second, c: string)
    requires PoolInv(y) && y.workers >= 1 && |ws| == y.workers && NoDup(ws)
    requires AtWork(y) == Members(Ids(ws)) && y.jobs == [Id(c)]
    requires OneRuns(y.gov, cap, Id(c), a, Ids(ws), b, [], [a])
    requires Ended(y.pcs, ws, c)
    ensures Stuck(y) && NoDeadlines(y)
  {
    hide PoolInv, Id, Ids, NoDup, OneRuns, AtWork, Members, QueuedIds, RunningIds, AllAwait;
    IdsNoDup(ws);
    MembersSize(Ids(ws));
    EndQueued(y.gov, cap, Id(c), a, Ids(ws), b);
    EndAwaits(y, ws, c);
  }

  /** Everybody is done but those at work and the one with the slot. */
  ghost predicate Ended(pcs: map<string, Pc>, ws: seq<string>, c: string) {
    forall d :: d in pcs ==>
      pcs[d].Done? || ((d == c || d in ws) && pcs[d].Waiting? && pcs[d].attempt == 0)
  }

  lemma EndAwaits(y: System, ws: seq<string>, c: string)
    requires PoolInv(y) && AtWork(y) == Members(Ids(ws)) && y.jobs == [Id(c)] && Ended(y.pcs, ws, c)
    ensures AllAwait(y)
  {
    hide PoolInv, Id, Ids;
    PoolJobs(y);
    forall d | d in y.pcs && !y.pcs[d].Done?
      ensures y.pcs[d].Waiting? && y.pcs[d].attempt == 0 && Id(d) in y.polling
    {
      if d == c {
        assert Id(c) in y.jobs;
      } else {
        IdsMember(ws, d);
        assert Id(d) in AtWork(y);
      }
    }
    AwaitAll(y);
  }

  lemma AwaitAll(y: System)
    requires forall d :: d in y.pcs && !y.pcs[d].Done? ==> y.pcs[d].Waiting? && y.pcs[d].attempt == 0
    requires forall d :: d in y.pcs && !y.pcs[d].Done? ==> Id(d) in y.polling
    ensures AllAwait(y)
  {
    hide GlobalId;
  }

  lemma PoolJobs(y: System)
    requires PoolInv(y)
    ensures forall id :: id in y.jobs ==> id in y.polling
  {
    hide SysInv, InTicketOrder, Before;
  }

  lemma IdsMember(xs: seq<string>, d: string)
    requires d in xs
    ensures Id(d) in Members(Ids(xs))
  {
    hide Id;
    var i :| 0 <= i < |xs| && xs[i] == d;
    assert Ids(xs)[i] == Id(d);
  }

  lemma EndQueued(g: State, cap: int, run: string, a: string, qa: seq<string>, b: Second)
    requires OneRuns(g, cap, run, a, qa, b, [], [a])
    ensures Members(qa) <= QueuedIds(g) && RunningIds(g) <= {run}
    ensures forall id :: id in g.waiters ==> g.waiters[id].deadline.None?
  {
    OneRunsQueued(g, cap, run, a, qa, b, [], [a]);
    hide TwoQueues, RunningIds;
  }

  function DeadlockRun(workers: nat, x: string, a: string, first: string, xs: seq<string>, b: string, c: string)
    : seq<Step>
  {
    Opening(x, a) + (Gathering([first] + xs, a, c, b) + Closing(workers, x, first))
  }

  /** However many workers there are: with one slot, two more queue places than
      workers and two runtimes, a run without cancellations and deadlines ends with
      every worker on a queued wait and the only slot held by a request whose wait no
      worker will ever begin. */
  lemma PoolDeadlocks(
      workers: nat, cap: int, x: string, a: string, first: string, xs: seq<string>, b: string, c: string)
    requires workers >= 1 && cap >= workers + 2 && |xs| == workers && NoDup([x] + ([first] + xs) + [c])
    requires a != b && !Blank(a) && !Blank(b)
    ensures Calm(DeadlockRun(workers, x, a, first, xs, b, c))
    ensures var y := Run(Start(1, cap, workers), DeadlockRun(workers, x, a, first, xs, b, c));
      PoolInv(y) && Stuck(y) && NoDeadlines(y)
  {
    hide PoolInv, Run, Opening, Gathering, Closing, Blank, NoDup, Calm, Stuck, NoDeadlines, Scene;
    RunIsCalm(workers, x, a, first, xs, b, c);
    var y, second, all := Start(1, cap, workers), Second(b, [], {}), [first] + xs;
    var y1 := Run(y, Opening(x, a));
    var y3 := Run(y1, Gathering(all, a, c, b));
    NamesApart(x, all, c);
    Opens(workers, cap, x, a, second);
    SceneNames(y1, cap, x, a, [], second, [], []);
    assert y1.pcs.Keys == {x};
    Gathers(y1, cap, x, a, all, second, [], c);
    assert [] + [a] == [a] && [a] + [b] == [a, b];
    RunAppend(y, Opening(x, a), Gathering(all, a, c, b) + Closing(workers, x, first));
    RunAppend(y1, Gathering(all, a, c, b), Closing(workers, x, first));
    WorkersStay(y, Opening(x, a));
    WorkersStay(y1, Gathering(all, a, c, b));
    ClosesStuck(y3, cap, x, a, all, second, c);
  }

  lemma ClosesStuck(y: System, cap: int, x: string, a: string, xs: seq<string>, b: Second, c: string)
    requires Scene(y, cap, x, a, xs, b, [c], [a, b.key]) && a != b.key && NoDup([x] + xs + [c])
    requires y.workers >= 1 && |xs| == y.workers + 1 && b.stale == []
    ensures var y' := Run(y, Closing(y.workers, x, xs[0])); PoolInv(y') && Stuck(y') && NoDeadlines(y')
  {
    hide PoolInv, Run, Closing, NoDup, Stuck, NoDeadlines, Scene, Roles, OneRuns, AtWork, Members, Id, Ids, Ended;
    var y' := Run(y, Closing(y.workers, x, xs[0]));
    NamesApart(x, xs, c);
    Closes(y, cap, x, a, xs, b, c);
    SceneRoles(y, cap, x, a, xs, b, [c], [a, b.key]);
    EndRoles(y, y', x, a, xs, b, c);
    TailNames(xs);
    EndIsStuck(y', cap, a, xs[1..], b, c);
  }

  lemma SceneRoles(
      y: System, cap: int, x: string, a: string, xs: seq<string>, b: Second, ys: seq<string>, order: seq<string>)
    requires Scene(y, cap, x, a, xs, b, ys, order)
    ensures Roles(y.pcs, x, a, xs, b, ys)
  {
    hide PoolInv, OneRuns, Roles;
  }

  /** All of `xs` join `a`, then `c` joins `b`. */
  function Gathering(xs: seq<string>, a: string, c: string, b: string): seq<Step> {
    JoiningAll(xs, a) + Joining(c, b)
  }

  lemma Gathers(
      y: System, cap: int, x: string, a: string, xs: seq<string>, b: Second, order: seq<string>, c: string)
    requires Scene(y, cap, x, a, [], b, [], order) && NoDup(xs) && (forall d :: d in xs ==> d !in y.pcs)
    requires c !in y.pcs && c !in xs && xs != [] && |xs| < cap && !Blank(a) && !Blank(b.key) && a != b.key
    ensures Scene(Run(y, Gathering(xs, a, c, b.key)), cap, x, a, xs, b, [c],
                  if b.stale == [] then order + [a] + [b.key] else order + [a])
  {
    hide Run, JoiningAll, Joining, Blank, NoDup, Scene;
    var y1 := Run(y, JoiningAll(xs, a));
    SceneAll(y, cap, x, a, xs, b, order);
    SceneNames(y, cap, x, a, [], b, [], order);
    SceneNames(y1, cap, x, a, xs, b, [], order + [a]);
    assert c !in y.pcs.Keys && c !in y1.pcs.Keys;
    SceneB(y1, cap, x, a, xs, b, order + [a], c);
    RunAppend(y, JoiningAll(xs, a), Joining(c, b.key));
  }

  lemma TailNames(xs: seq<string>)
    requires NoDup(xs) && xs != []
    ensures NoDup(xs[1..]) && Ids(xs[1..]) == Ids(xs)[1..]
  {
    hide Id;
  }

  lemma EndRoles(y: System, y': System, x: string, a: string, xs: seq<string>, b: Second, c: string)
    requires Roles(y.pcs, x, a, xs, b, [c]) && xs != []
    requires y'.pcs == y.pcs[x := Done(Answered)][xs[0] := Done(Answered)]
    ensures Ended(y'.pcs, xs[1..], c)
  {
    FrontOf(xs);
    forall d | d in y'.pcs
      ensures y'.pcs[d].Done? || ((d == c || d in xs[1..]) && y'.pcs[d].Waiting? && y'.pcs[d].attempt == 0)
    {
      if d != x && d != xs[0] {
        assert d in y.pcs.Keys;
      }
    }
  }

  // ---- One request given up -------------------------------------------------------------

  /** A request for `b` is submitted and cancelled: its id stays in front of the queue. */
  function GivingUp(base: string, key: string): seq<Step> {
    Joining(base, key) + [CancelWait(base, 0)]
  }

  lemma GivesUp(y: System, cap: int, x: string, a: string, b: string, c: string)
    requires Scene(y, cap, x, a, [], Second(b, [], {}), [], []) && c !in y.pcs && cap >= 1 && !Blank(b) && a != b
    ensures Scene(Run(y, GivingUp(c, b)), cap, x, a, [], Second(b, [Id(c)], {c}), [], [b])
  {
    hide PoolInv, Run, Next, Blank, Scene, Joining, Id;
    var y1 := Run(y, Joining(c, b));
    var y2 := Next(y1, CancelWait(c, 0));
    SceneNames(y, cap, x, a, [], Second(b, [], {}), [], []);
    assert x in y.pcs.Keys;
    SceneB(y, cap, x, a, [], Second(b, [], {}), [], c);
    assert [] + [b] == [b];
    RunAppend(y, Joining(c, b), [CancelWait(c, 0)]);
    RunOne(y1, CancelWait(c, 0));
    CancelsScene(y1, cap, x, a, b, c);
  }

  lemma CancelsScene(y: System, cap: int, x: string, a: string, b: string, c: string)
    requires Scene(y, cap, x, a, [], Second(b, [], {}), [c], [b]) && a != b && c != x
    ensures Scene(Next(y, CancelWait(c, 0)), cap, x, a, [], Second(b, [Id(c)], {c}), [], [b])
  {
    hide PoolInv, OneRuns, Id, Next, Roles, Members, AtWork;
    var y' := Next(y, CancelWait(c, 0));
    PoolKeeps(y, CancelWait(c, 0));
    IdsSnoc([], c);
    assert [] + [Id(c)] == [Id(c)] && [] + Ids([]) == Ids([]) && Ids([]) + Ids([]) == Ids([]);
    RolesOf(y.pcs, x, a, b, c);
    CancelFullNext(y, c);
    DropJob(Id(c));
    CancelGov(y.gov, cap, Id(x), a, b, Id(c));
    RolesGone(y.pcs, x, a, b, c);
  }

  lemma RolesOf(pcs: map<string, Pc>, x: string, a: string, b: string, c: string)
    requires Roles(pcs, x, a, [], Second(b, [], {}), [c])
    ensures c in pcs && pcs[c] == Waiting(0, Narrow(b))
  {
    assert c in [c];
  }

  lemma DropJob(id: string)
    ensures Without([id], id) == []
  {
    assert [id][..0] == [];
  }

  lemma RolesGone(pcs: map<string, Pc>, x: string, a: string, b: string, c: string)
    requires Roles(pcs, x, a, [], Second(b, [], {}), [c]) && c != x
    ensures Roles(pcs[c := Done(CancelledWaiting)], x, a, [], Second(b, [Id(c)], {c}), [])
  {
    hide Id;
    assert Members([c]) == {c} && Members([]) == {};
  }

  /** A cancellation while the wait has not begun. */
  lemma CancelFullNext(y: System, c: string)
    requires c in y.pcs && y.pcs[c].Waiting? && y.pcs[c].attempt == 0 && AtWork(y) == {}
    ensures var y' := Next(y, CancelWait(c, 0));
      && y'.pcs == y.pcs[c := Done(CancelledWaiting)] && y'.jobs == Without(y.jobs, Id(c))
      && y'.gov == Abandon(y.gov, Id(c), 0).0 && AtWork(y') == {}
  {
    hide Abandon, GlobalId, Without;
  }

  lemma CancelGov(g: State, cap: int, run: string, a: string, b: string, id: string)
    requires OneRuns(g, cap, run, a, [], Second(b, [], {}), [id], [b])
    ensures OneRuns(Abandon(g, id, 0).0, cap, run, a, [], Second(b, [id], {}), [], [b])
    ensures forall gone :: OneRuns(Abandon(g, id, 0).0, cap, run, a, [], Second(b, [id], gone), [], [b])
  {
    assert id in [id] && Members([id]) == {id} && Members([]) == {};
    assert [] + [id] == [id] && [id] + [] == [id];
    assert id != run;
    assert Abandon(g, id, 0).0 == Discard(g, id);
    assert g.waiters.Keys - {id} == {run};
  }

  /** Then every worker takes a wait for `a`, and the release serves `b`. */
  function Serving(workers: nat, x: string): seq<Step> {
    Starts(workers) + [Route(x, Response, 0)]
  }

  lemma ServesStuck(y: System, cap: int, x: string, a: string, xs: seq<string>, b: Second, c: string)
    requires Scene(y, cap, x, a, xs, b, [c], [b.key, a]) && a != b.key && NoDup([x] + xs + [c])
    requires y.workers >= 1 && |xs| == y.workers
    ensures var y' := Run(y, Serving(y.workers, x)); PoolInv(y') && Stuck(y') && NoDeadlines(y')
  {
    hide PoolInv, Run, Starts, Members, AtWork, OneRuns, Id, Ids, NoDup, Roles, Stuck, NoDeadlines, Ended;
    var p, ids := y.workers, Ids(xs);
    NamesApart(x, xs, c);
    IdsNoDup(xs);
    IdsSnoc([], c);
    assert (ids + [Id(c)])[..p] == ids && (ids + [Id(c)])[p..] == [Id(c)];
    SceneBegins(y, p);
    Begins(y, p);
    RunAppend(y, Starts(p), [Route(x, Response, 0)]);
    var y2 := Run(y, Starts(p));
    SceneRuns(y.gov, cap, Id(x), a, ids, b, [Id(c)], [b.key, a]);
    RolesExecuting(y.pcs, x, a, xs, b, [c]);
    Answers(y2, x, Narrow(a));
    PoolGov(y2);
    NonEmptyIds(xs);
    ServesB(y2.gov, cap, Id(x), a, ids, b, Id(c));
    var y' := Run(y2, [Route(x, Response, 0)]);
    SameWork(y2, y');
    ServedRoles(y, y', x, a, xs, b, c);
    EndIsStuck(y', cap, a, xs, b.(stale := []), c);
  }

  lemma RolesExecuting(pcs: map<string, Pc>, x: string, a: string, xs: seq<string>, b: Second, ys: seq<string>)
    requires Roles(pcs, x, a, xs, b, ys)
    ensures x in pcs && pcs[x] == Executing(0, Narrow(a))
  {
    hide Members;
    assert x in pcs.Keys;
  }

  lemma NonEmptyIds(bases: seq<string>)
    requires bases != []
    ensures Ids(bases) != []
  {
    assert |Ids(bases)| == |bases|;
  }

  lemma ServedRoles(y: System, y': System, x: string, a: string, xs: seq<string>, b: Second, c: string)
    requires Roles(y.pcs, x, a, xs, b, [c]) && y'.pcs == y.pcs[x := Done(Answered)]
    ensures Ended(y'.pcs, xs, c)
  {
    forall d | d in y'.pcs
      ensures y'.pcs[d].Done? || ((d == c || d in xs) && y'.pcs[d].Waiting? && y'.pcs[d].attempt == 0)
    {
      if d != x {
        assert d in y.pcs.Keys;
      }
    }
  }

  function ShorterRun(workers: nat, x: string, a: string, xs: seq<string>, b: string, c: string, d: string)
    : seq<Step>
  {
    Opening(x, a) + (GivingUp(d, b) + (Gathering(xs, a, c, b) + Serving(workers, x)))
  }

  /** One more queue place than workers is enough, if one request was given up before:
      its id keeps the place of its runtime in the rotation. */
  lemma PoolDeadlocksEarlier(
      workers: nat, cap: int, x: string, a: string, xs: seq<string>, b: string, c: string, d: string)
    requires workers >= 1 && cap >= workers + 1 && |xs| == workers && NoDup([x] + xs + [c]) && d !in [x] + xs + [c]
    requires a != b && !Blank(a) && !Blank(b)
    ensures var y := Run(Start(1, cap, workers), ShorterRun(workers, x, a, xs, b, c, d));
      PoolInv(y) && Stuck(y) && NoDeadlines(y)
  {
    hide PoolInv, Run, Opening, GivingUp, Gathering, Serving, Blank, NoDup, Stuck, NoDeadlines, Scene;
    var y, second := Start(1, cap, workers), Second(b, [Id(d)], {d});
    var y1 := Run(y, Opening(x, a));
    var y2 := Run(y1, GivingUp(d, b));
    var y3 := Run(y2, Gathering(xs, a, c, b));
    NamesApart(x, xs, c);
    Apart(x, xs, c, d);
    Opens(workers, cap, x, a, Second(b, [], {}));
    SceneNames(y1, cap, x, a, [], Second(b, [], {}), [], []);
    assert y1.pcs.Keys == {x};
    GivesUp(y1, cap, x, a, b, d);
    SceneNames(y2, cap, x, a, [], second, [], [b]);
    assert y2.pcs.Keys == {x, d};
    Gathers(y2, cap, x, a, xs, second, [b], c);
    assert [b] + [a] == [b, a];
    RunAppend(y, Opening(x, a), GivingUp(d, b) + (Gathering(xs, a, c, b) + Serving(workers, x)));
    RunAppend(y1, GivingUp(d, b), Gathering(xs, a, c, b) + Serving(workers, x));
    RunAppend(y2, Gathering(xs, a, c, b), Serving(workers, x));
    WorkersStay(y, Opening(x, a));
    WorkersStay(y1, GivingUp(d, b));
    WorkersStay(y2, Gathering(xs, a, c, b));
    ServesStuck(y3, cap, x, a, xs, second, c);
  }

  lemma Apart(x: string, xs: seq<string>, c: string, d: string)
    requires d !in [x] + xs + [c]
    ensures d != x && d !in xs && d != c
  {
    var all := [x] + xs + [c];
    assert all[0] == x && all[|xs| + 1] == c && forall i :: 0 <= i < |xs| ==> all[i + 1] == xs[i];
  }

  lemma {:induction false} WorkersStay(y: System, steps: seq<Step>)
    ensures Run(y, steps).workers == y.workers
    decreases |steps|
  {
    hide Next;
    if steps != [] {
      SameWorkers(y, steps[0]);
      WorkersStay(Next(y, steps[0]), steps[1..]);
    }
  }

  lemma {:induction false} StartsCalm(n: nat)
    ensures Calm(Starts(n))
  {
    if n > 0 {
      StartsCalm(n - 1);
    }
  }

  lemma {:induction false} JoiningCalm(bases: seq<string>, key: string)
    ensures Calm(JoiningAll(bases, key))
  {
    if bases != [] {
      JoiningCalm(bases[..|bases| - 1], key);
    }
  }

  lemma RunIsCalm(workers: nat, x: string, a: string, first: string, xs: seq<string>, b: string, c: string)
    ensures Calm(DeadlockRun(workers, x, a, first, xs, b, c))
  {
    StartsCalm(1);
    StartsCalm(workers);
    JoiningCalm([first] + xs, a);
    assert Calm(Joining(x, a)) && Calm(Joining(c, b)) && Calm(Permitting(x)) && Calm(Permitting(first));
    hide Starts, JoiningAll, Joining, Permitting;
    assert Calm(Opening(x, a)) && Calm(Gathering([first] + xs, a, c, b)) && Calm(Closing(workers, x, first));
  }

  // ---- How many workers are enough ------------------------------------------------------

  ghost predicate AllFit(steps: seq<Step>, bounds: string -> int) {
    forall step :: step in steps ==> Fitting(step, bounds)
  }

  lemma {:induction false} JoiningFits(bases: seq<string>, key: string, bounds: string -> int)
    requires bounds(key) == 1
    ensures AllFit(JoiningAll(bases, key), bounds)
  {
    if bases != [] {
      JoiningFits(bases[..|bases| - 1], key, bounds);
      assert Bound(Narrow(key)) == 1;
    }
  }

  lemma {:induction false} StartsFit(n: nat, bounds: string -> int)
    ensures AllFit(Starts(n), bounds)
  {
    if n > 0 {
      StartsFit(n - 1, bounds);
    }
  }

  lemma ShorterRunFits(
      workers: nat, x: string, a: string, xs: seq<string>, b: string, c: string, d: string, bounds: string -> int)
    requires bounds(a) == 1 && bounds(b) == 1
    ensures AllFit(ShorterRun(workers, x, a, xs, b, c, d), bounds)
  {
    StartsFit(1, bounds);
    StartsFit(workers, bounds);
    JoiningFits(xs, a, bounds);
    assert Bound(Narrow(a)) == 1 && Bound(Narrow(b)) == 1;
    assert AllFit(Joining(x, a), bounds) && AllFit(Joining(c, b), bounds) && AllFit(Joining(d, b), bounds);
    assert AllFit(Permitting(x), bounds);
    hide Starts, JoiningAll, Joining, Permitting, Fitting;
    assert AllFit(Opening(x, a), bounds) && AllFit(GivingUp(d, b), bounds);
    assert AllFit(Gathering(xs, a, c, b), bounds) && AllFit(Serving(workers, x), bounds);
  }

  /** As many names as one likes. */
  function Name(n: nat): string {
    seq(n, _ => 'n')
  }

  lemma SomeNames(n: nat) returns (x: string, xs: seq<string>, c: string, d: string)
    ensures |xs| == n && NoDup([x] + xs + [c]) && d !in [x] + xs + [c]
  {
    x, xs, c, d := Name(0), seq(n, i requires 0 <= i < n => Name(i + 1)), Name(n + 1), Name(n + 2);
    var all := [x] + xs + [c];
    forall i | 0 <= i < |all| ensures |all[i]| == i {
    }
  }

  /** With one slot, one bound per runtime and two runtimes of bound one: no run jams
      the pool if and only if there are at least as many workers as queue places. */
  lemma EnoughWorkersExactly(workers: nat, cap: int, a: string, b: string, bounds: string -> int)
    requires workers >= 1 && cap >= 1 && a != b && !Blank(a) && !Blank(b) && bounds(a) == 1 && bounds(b) == 1
    ensures (forall steps :: AllFit(steps, bounds) ==> !Jammed(Run(Start(1, cap, workers), steps))) <==> cap <= workers
  {
    hide Run, Blank, Jammed, NoDup;
    if cap <= workers {
      forall steps | AllFit(steps, bounds) ensures !Jammed(Run(Start(1, cap, workers), steps)) {
        EveryRunHasRoom(1, cap, workers, steps, bounds);
      }
    } else {
      var x, xs, c, d := SomeNames(workers);
      hide PoolInv, AllAwait, ShorterRun, NoDeadlines;
      PoolDeadlocksEarlier(workers, cap, x, a, xs, b, c, d);
      ShorterRunFits(workers, x, a, xs, b, c, d, bounds);
    }
  }
}
