/** The execution governor as a value: its registry of waiters, its per-runtime
    queues (which may hold stale ids), the rotation with its mirror set and the
    two running counters, together with the history needed to state what the
    governor promises. Every lock-held section is a function on this value. */
module GovernorState {
  import opened Common

  datatype Phase = Queued | Running | Completed | Cancelled | Expired

  datatype Record = Record(
    key: string, bound: int, submittedAt: int, deadline: Option<int>,
    phase: Phase, startedAt: Option<int>, finishedAt: Option<int>)
  {
    predicate ExpiredAt(now: int) {
      deadline.Some? && now >= deadline.value
    }
  }

  /** Which runtime an id was submitted for, and as how many-th submission. */
  datatype Birth = Birth(key: string, ticket: nat)

  datatype State = State(
    maxRunning: int,
    queueCapacity: int,
    waiters: map<string, Record>,
    queues: map<string, seq<string>>,
    order: seq<string>,
    inOrder: set<string>,
    runtimeInflight: map<string, int>,
    inflight: int,
    // History: every submission, every admission in admission order, and those
    // admissions that still run.
    born: map<string, Birth>,
    admitted: seq<string>,
    running: seq<string>)

  function Init(maxRunning: int, queueCapacity: int): State {
    State(maxRunning, queueCapacity, map[], map[], [], {}, map[], 0, map[], [], [])
  }

  /** A missing counter entry reads as zero. */
  function Count(m: map<string, int>, key: string): int {
    if key in m then m[key] else 0
  }

  function Runtime(born: map<string, Birth>, id: string): string {
    if id in born then born[id].key else ""
  }

  /** The members of `ids` that were submitted for runtime `key`, in order. */
  function OfRuntime(ids: seq<string>, born: map<string, Birth>, key: string): seq<string> {
    if ids == [] then []
    else
      var last := ids[|ids| - 1];
      OfRuntime(ids[..|ids| - 1], born, key) + (if Runtime(born, last) == key then [last] else [])
  }

  /** The members of `ids` that are in `keep`, in order. */
  function KeepOnly(ids: seq<string>, keep: set<string>): seq<string> {
    if ids == [] then []
    else
      var last := ids[|ids| - 1];
      KeepOnly(ids[..|ids| - 1], keep) + (if last in keep then [last] else [])
  }

  function QueuedIds(s: State): set<string> {
    set id | id in s.waiters && s.waiters[id].phase == Queued
  }

  function RunningIds(s: State): set<string> {
    set id | id in s.waiters && s.waiters[id].phase == Running
  }

  // ---- Steps taken with the lock held -----------------------------------

  function ExpireRecord(w: Record, now: int): Record {
    if w.phase == Queued && w.ExpiredAt(now) then w.(phase := Expired, finishedAt := Some(now)) else w
  }

  function Expire(s: State, now: int): State {
    s.(waiters := map id | id in s.waiters :: ExpireRecord(s.waiters[id], now))
  }

  datatype Trimmed = Trimmed(waiters: map<string, Record>, queue: seq<string>)

  /** Drop stale ids and expire overdue waiters at the head of a queue. */
  function Trim(waiters: map<string, Record>, queue: seq<string>, now: int): (t: Trimmed)
    ensures t.waiters.Keys == waiters.Keys
    ensures t.queue != [] ==>
      && t.queue[0] in t.waiters
      && t.waiters[t.queue[0]].phase == Queued
      && !t.waiters[t.queue[0]].ExpiredAt(now)
  {
    if queue == [] then Trimmed(waiters, queue)
    else
      var id := queue[0];
      if id !in waiters || waiters[id].phase != Queued then Trim(waiters, queue[1..], now)
      else if waiters[id].ExpiredAt(now) then
        Trim(waiters[id := waiters[id].(phase := Expired, finishedAt := Some(now))], queue[1..], now)
      else Trimmed(waiters, queue)
  }

  function Schedule(s: State, key: string): State {
    if key in s.inOrder || key !in s.queues || s.queues[key] == [] then s
    else s.(order := s.order + [key], inOrder := s.inOrder + {key})
  }

  function DropQueue(s: State, key: string): State {
    s.(queues := s.queues - {key})
  }

  /** Give a global slot to `id`, the head of the queue of `key`. */
  function Admit(s: State, key: string, id: string, now: int): State
    requires id in s.waiters
  {
    s.(waiters := s.waiters[id := s.waiters[id].(phase := Running, startedAt := Some(now))],
       inflight := s.inflight + 1,
       runtimeInflight := s.runtimeInflight[key := Count(s.runtimeInflight, key) + 1],
       admitted := s.admitted + [id],
       running := s.running + [id])
  }

  function TrimQueue(s: State, key: string, now: int): State
    requires key in s.queues
  {
    var t := Trim(s.waiters, s.queues[key], now);
    s.(waiters := t.waiters, queues := s.queues[key := t.queue])
  }

  /** Take the runtime at the front of the rotation off it. */
  function PopFront(s: State): State
    requires s.order != []
  {
    s.(order := s.order[1..], inOrder := s.inOrder - {s.order[0]})
  }

  datatype Visited = Visited(state: State, admitted: bool)

  /** One turn of the rotation: the front runtime is dropped, sent to the back
      because its own bound blocks it, or given a slot. */
  function Visit(s: State, now: int): (v: Visited)
    requires s.order != []
    ensures |v.state.order| >= |s.order| - 1
    ensures v.state.maxRunning == s.maxRunning
    ensures v.state.inflight == s.inflight + (if v.admitted then 1 else 0)
    ensures v.state.born == s.born && v.state.queueCapacity == s.queueCapacity
    ensures v.state.waiters.Keys == s.waiters.Keys && s.admitted <= v.state.admitted
  {
    var key := s.order[0];
    var s1 := PopFront(s);
    if key !in s1.queues then Visited(s1, false)
    else
      var s2 := TrimQueue(s1, key, now);
      if s2.queues[key] == [] then Visited(DropQueue(s2, key), false)
      else
        var id := s2.queues[key][0];
        if Count(s2.runtimeInflight, key) >= s2.waiters[id].bound then Visited(Schedule(s2, key), false)
        else
          var s3 := s2.(queues := s2.queues[key := s2.queues[key][1..]]);
          var s4 := if s3.queues[key] != [] then Schedule(s3, key) else DropQueue(s3, key);
          Visited(Admit(s4, key, id, now), true)
  }

  /** At most `n` turns, stopping at the first admission. */
  function Scan(s: State, now: int, n: nat): (v: Visited)
    requires n <= |s.order|
    ensures v.state.maxRunning == s.maxRunning
    ensures v.state.inflight == s.inflight + (if v.admitted then 1 else 0)
    ensures v.state.born == s.born && v.state.queueCapacity == s.queueCapacity
    ensures v.state.waiters.Keys == s.waiters.Keys && s.admitted <= v.state.admitted
    decreases n
  {
    if n == 0 then Visited(s, false)
    else
      var v := Visit(s, now);
      if v.admitted then v else Scan(v.state, now, n - 1)
  }

  /** Admit until no slot is left or a whole rotation admits nothing. */
  function AdmitAll(s: State, now: int): (r: State)
    ensures r.maxRunning == s.maxRunning
    ensures r.born == s.born && r.queueCapacity == s.queueCapacity
    ensures r.waiters.Keys == s.waiters.Keys && s.admitted <= r.admitted
    decreases s.maxRunning - s.inflight
  {
    if s.inflight < s.maxRunning && s.order != [] then
      var v := Scan(s, now, |s.order|);
      if v.admitted then AdmitAll(v.state, now) else v.state
    else s
  }

  function Refresh(s: State, now: int): State {
    AdmitAll(Expire(s, now), now)
  }

  function Discard(s: State, id: string): State {
    s.(waiters := s.waiters - {id})
  }

  /** Return the slot of a running waiter of runtime `key`, with the source's
      clamps at zero, and take the waiter out of the registry. */
  function Unrun(s: State, id: string, key: string): State {
    var current := Count(s.runtimeInflight, key);
    s.(waiters := s.waiters - {id},
       inflight := if s.inflight - 1 < 0 then 0 else s.inflight - 1,
       runtimeInflight := if current <= 1 then s.runtimeInflight - {key} else s.runtimeInflight[key := current - 1],
       running := Without(s.running, id))
  }

  function NewRecord(key: string, bound: int, timeout: Option<int>, now: int): Record {
    Record(key, bound, now, if timeout.Some? then Some(now + timeout.value) else None, Queued, None, None)
  }

  /** Register a waiter, append it to its runtime's queue, put the runtime on
      the rotation. */
  function Enqueue(s: State, key: string, id: string, w: Record): State {
    var queue := (if key in s.queues then s.queues[key] else []) + [id];
    Schedule(s.(waiters := s.waiters[id := w],
                queues := s.queues[key := queue],
                born := s.born[id := Birth(key, |s.born.Keys|)]), key)
  }

  // ---- Public operations -------------------------------------------------

  datatype SubmitResult = Submitted | InvalidArgument | DeadlinePassed | DuplicateId | QueueFull
  datatype WaitResult = Permit(startedAt: int) | WaitTimeout | WaitCancelled | Again | Sleep(remaining: Option<int>)
  datatype ReleaseResult = Released | UnknownId | NotRunning

  predicate CanRunNow(s: State, key: string, bound: int) {
    s.inflight < s.maxRunning && Count(s.runtimeInflight, key) < bound
  }

  function Submit(s: State, key: string, id: string, bound: int, timeout: Option<int>, now: int)
    : (State, SubmitResult)
  {
    if Blank(key) || Blank(id) || bound < 1 then (s, InvalidArgument)
    else if timeout.Some? && timeout.value <= 0 then (s, DeadlinePassed)
    else if id in s.waiters then (s, DuplicateId)
    else
      var s1 := Refresh(s, now);
      if |QueuedIds(s1)| >= s1.queueCapacity && !CanRunNow(s1, key, bound) then (s1, QueueFull)
      else (AdmitAll(Enqueue(s1, key, id, NewRecord(key, bound, timeout, now)), now), Submitted)
  }

  /** One pass of the loop in `wait` by a caller that holds the waiter of `id`,
      now in phase `phase` and started at `startedAt`. `registered` tells whether
      the registry still maps `id` to that waiter; one that was taken out keeps
      its last phase. */
  function WaitPass(s: State, id: string, phase: Phase, startedAt: Option<int>, registered: bool, now: int)
    : (State, WaitResult)
    requires phase == Running ==> startedAt.Some?
  {
    match phase
    case Running => (s, Permit(startedAt.value))
    case Expired => (if registered then Discard(s, id) else s, WaitTimeout)
    case Cancelled => (if registered then Discard(s, id) else s, WaitCancelled)
    case _ =>
      var s1 := Refresh(s, now);
      if !registered || id !in s1.waiters || s1.waiters[id].phase != Queued then (s1, Again)
      else if s1.waiters[id].deadline.None? then (s1, Sleep(None))
      else if s1.waiters[id].deadline.value - now <= 0 then (s1, Again)
      else (s1, Sleep(Some(s1.waiters[id].deadline.value - now)))
  }

  function Abandon(s: State, id: string, now: int): (State, bool) {
    if id !in s.waiters then (s, false)
    else if s.waiters[id].phase == Queued then (AdmitAll(Discard(s, id), now), true)
    else if s.waiters[id].phase == Running then (AdmitAll(Unrun(s, id, s.waiters[id].key), now), true)
    else (s, false)
  }

  function Release(s: State, id: string, now: int): (State, ReleaseResult) {
    if id !in s.waiters then (s, UnknownId)
    else if s.waiters[id].phase != Running then (s, NotRunning)
    else (AdmitAll(Unrun(s, id, s.waiters[id].key), now), Released)
  }

  datatype Op =
    | OpSubmit(key: string, id: string, bound: int, timeout: Option<int>, now: int)
    | OpWait(id: string, now: int)
    | OpAbandon(id: string, now: int)
    | OpRelease(id: string, now: int)
    | OpSnapshot(now: int)

  /** The state after one operation; `OpWait` is a pass for a registered waiter. */
  function Apply(s: State, op: Op): State {
    match op
    case OpSubmit(key, id, bound, timeout, now) => Submit(s, key, id, bound, timeout, now).0
    case OpWait(id, now) =>
      if id !in s.waiters then s
      else if s.waiters[id].phase == Running then s
      else WaitPass(s, id, s.waiters[id].phase, None, true, now).0
    case OpAbandon(id, now) => Abandon(s, id, now).0
    case OpRelease(id, now) => Release(s, id, now).0
    case OpSnapshot(now) => Refresh(s, now)
  }

  function Exec(s: State, ops: seq<Op>): State
    decreases |ops|
  {
    if ops == [] then s else Exec(Apply(s, ops[0]), ops[1..])
  }

  /** Callers mint a new id for every submission that is not refused as a
      duplicate. */
  predicate FreshSubmission(s: State, op: Op) {
    op.OpSubmit? && op.id in s.born ==> op.id in s.waiters
  }

  predicate FreshRun(s: State, ops: seq<Op>)
    decreases |ops|
  {
    ops == [] || (FreshSubmission(s, ops[0]) && FreshRun(Apply(s, ops[0]), ops[1..]))
  }
}
