# Local LLM server: verified models

A Dafny model of the parts of the local LLM server whose correctness rests on state kept
over time: who may execute, what of a model's output reaches the client, and the smaller
policies, ledgers and verdicts around them.

* **Execution governor** (`GovernorState`, `GovernorInvariant`, `GovernorProgress`,
  `GovernorFairness`, `GovernorLimits`, `GovernorReuse`, `Governor`). A lock-protected
  scheduler with global slots, per-runtime bounds, deadlines, cancellation and round-robin
  selection. Each lock-held section is one atomic step: `submit`, one pass of the `wait`
  loop, `release`, `abandon`, `snapshot`. The steps are functions on a `State` value; `Governor` holds the
  object itself, waiters changed in place, and proves each method equal to its function.
  The clock is a parameter of every step and need not be monotone, because the source reads
  it before it takes the lock. `born`, `admitted` and `running` are history only. The main
  results assume that no request id is submitted twice (`FreshRun`), as callers mint UUIDs;
  `GovernorReuse` shows that an id may be used again exactly if it stands in no queue.
* **HTTP admission** (`Lifecycle`, `LifecyclePool`, `LifecycleDrain`, `LifecycleJam`,
  `LifecycleRoom`, `LifecycleDeadlock`, `LifecycleLimits`). Requests as small processes over
  the governor: two attempts, residency changes, timeouts, cancellation before or after the
  waiting thread begins, route failures and streams, in any interleaving. The waits run on a
  pool with a fixed number of worker threads that begins them in the order of submission, as
  the event loop's default executor does. The pool can deadlock; when, and what prevents it,
  is proved exactly, and with room in the pool every reachable state drains.
* **Reasoning boundary** (`ReasoningText`, `ReasoningParser`, `ReasoningSplice`, `SseFilter`,
  `SseRedactor`, `SseClient`). A reference parse of whole texts, the incremental parser with
  its delimiter carry, the event filter, the redactor that cuts a stream into events, and
  what a client reads of its output. Any chunking of the text and any division into deltas
  yields the reference parse.
* **Policies and records** (`PressurePolicy`, `Eviction`, `Ledger`, `TestSets`,
  `EvidenceReview`, `ValidationProfile`). Hysteresis, candidate ranking, the shared memory
  ledger, parsing and printing of test sets with their identity, the verdict on repeated
  device reports, and the choice of validation gates.

`Common`, `Ordering` and `JsonValue` hold the shared vocabulary.

Where the code and a natural reading of its documentation differ, the model follows the code:

* A full queue does not always stop a submission. `can_run_now` looks at the slots and at
  the runtime's running count, not at the runtime's queue. The submission let past a full
  queue runs at once exactly if its runtime had no queued work (`PastFullQueue`), and the
  capacity is exceeded exactly otherwise (`OverfillExactly`). With one bound per runtime
  this cannot happen (`QueueBound`); with mixed bounds it does (`MixedBoundsOverfill`).
* A finished request can leave its record in the governor for ever: exactly if its waiter
  had expired before the cancellation and its wait had not begun (`RecordLeftExactly`), and
  whenever the governor is full and nobody is queued that can come about
  (`FullLeavesARecord`). Slots, queues and counters are empty at rest all the same
  (`QuiescenceIsEmpty`).
* The worker pool can deadlock. Each queued request occupies a worker that waits for its
  permit, so all workers can wait behind a running request whose own wait none of them can
  begin. The system can never go on exactly in the states of `DeadlockExactly`; such a state
  is reached without any cancellation or deadline (`PoolDeadlocks`). With one bound per
  runtime it cannot be reached if there are at least as many workers as queue places, and
  with one slot only then (`EnoughWorkersExactly`).
* Exposed text can spell a delimiter when taking one out joins the parts of another, and in
  no other way (`ExposedTagExactly`); a text in which no delimiter stands directly behind
  the beginning of one exposes none (`CleanTextExposesNoTag`).
* Events the redactor cannot decode are passed on as they are, and of decoded events
  everything but string `delta.content`: a `text` beside the delta, content that is a list,
  other delta fields. A client that reads such things besides the words reads the exposed
  answer and nothing else exactly if no event offers it any (`ChunksReadExactly`). An event
  with a name in front of its data is not decoded (`NamedEventsPassUnredacted`).
* Of evictable runtimes that tie in key and age, the ones listed first are chosen
  (`ListedFirstWinsTies`); the selection ignores listing order exactly if every eligible
  candidate that ties with a selected one equals it (`OrderIrrelevantExactly`).
* Three reasons of the evidence review compare totals that are always equal and so are
  never given (`MismatchNeverReported`).
* A reservation's answer reports the accounts before it is recorded, a commit's those after
  (`AnswersAddUp`).

## Model

| member | source | states |
|---|---|---|
| GovernorInvariant.ApplyKeeps | src/local_llm_server/global_execution_governor.py:105-259 | every operation keeps the whole invariant: rotation, mirror set and queue table agree without duplicates or empty queues, queues are in submission order and hold every queued waiter, counters match, bounds and FIFO hold |
| GovernorInvariant.RunKeeps | src/local_llm_server/global_execution_governor.py:80-375 | the invariant holds after every interleaving of operations with fresh ids, at any clock readings |
| GovernorInvariant.InitInv | src/local_llm_server/global_execution_governor.py:83-103 | a new governor satisfies the invariant |
| GovernorInvariant.VisitKeeps | src/local_llm_server/global_execution_governor.py:308-334 | one turn of the rotation, in each of its five outcomes, keeps the invariant |
| GovernorInvariant.AdmitAllKeeps | src/local_llm_server/global_execution_governor.py:304-336 | the whole admission loop keeps the invariant |
| GovernorInvariant.CountersAgree | src/local_llm_server/global_execution_governor.py:324-333 | `_inflight` is the number of running waiters and at most `max_running`; each runtime's counter is the number of its running waiters; the counters sum to `_inflight` |
| GovernorInvariant.ClampsNeverBind | src/local_llm_server/global_execution_governor.py:353-359 | when a running waiter's slot is freed, both counters are at least one, so the clamps at zero are dead code |
| GovernorInvariant.UnrunKeeps | src/local_llm_server/global_execution_governor.py:353-359 | freeing the slot of a running waiter keeps the invariant |
| GovernorInvariant.LatestBoundHolds | src/local_llm_server/global_execution_governor.py:315-333 | in admission order the i-th oldest running waiter of a runtime has bound at least i and started before its deadline, so the running count is within the bound of the latest running admission |
| GovernorInvariant.QueuedExactlyOnce | src/local_llm_server/global_execution_governor.py:147-155 | a queued waiter occurs in exactly one place of exactly one queue, that of its own runtime |
| GovernorInvariant.AdmittedInSubmissionOrder | src/local_llm_server/global_execution_governor.py:324-333 | no request was ever admitted while an earlier one of its runtime is still queued |
| GovernorProgress.AdmitAllSaturates | src/local_llm_server/global_execution_governor.py:304-336 | admission stops only when all slots are taken or every runtime with live queued work is blocked by the bound of its own head |
| GovernorProgress.ApplySaturates | src/local_llm_server/global_execution_governor.py:105-259 | every operation leaves the governor work-conserving |
| GovernorProgress.RunSaturates | src/local_llm_server/global_execution_governor.py:80-375 | work conservation holds after every run |
| GovernorProgress.EveryRunIsGood | src/local_llm_server/global_execution_governor.py:80-375 | from a new governor with limits of at least one, every run with fresh ids ends in a state that satisfies the invariant and is work-conserving |
| GovernorProgress.QueuedImpliesRunning | src/local_llm_server/global_execution_governor.py:304-336 | with nothing running nothing is queued and the rotation is empty: the governor cannot stall |
| GovernorProgress.ReleaseShrinks | src/local_llm_server/global_execution_governor.py:244-259 | a release strictly shrinks the set of queued and running requests |
| GovernorProgress.DrainEnds | src/local_llm_server/global_execution_governor.py:244-259 | releasing running requests in any order takes at most as many steps as there are live requests, and when nothing runs any more nothing is queued |
| GovernorProgress.DrainExists | src/local_llm_server/global_execution_governor.py:244-259 | from every reachable state such a drain reaches the empty governor |
| GovernorProgress.WaitSettlesOrSleeps | src/local_llm_server/global_execution_governor.py:192-204 | a pass of a queued waiter either settles it (running or expired, and the loop looks again) or puts it to sleep for a positive time: no busy loop |
| GovernorProgress.SettlesOnlyWithNotice | src/local_llm_server/global_execution_governor.py:192-204 | no wakeup is lost: a wait pass, a snapshot or a refused submission changes a waiter exactly if it finds an overdue one, and then it notifies all threads |
| GovernorProgress.PastFullQueue | src/local_llm_server/global_execution_governor.py:132-157 | an accepted submission for which `can_run_now` held is running on return exactly if its runtime had no queue, else queued |
| GovernorProgress.QueueBound | src/local_llm_server/global_execution_governor.py:132-157 | if all submissions of a runtime carry the same bound, the number of queued waiters never exceeds the capacity, over every run |
| GovernorLimits.OverfillExactly | src/local_llm_server/global_execution_governor.py:132-157 | a submission lifts the number of queued waiters over the capacity if and only if the queue was full and its runtime had queued work |
| GovernorLimits.MixedBoundsOverfill | src/local_llm_server/global_execution_governor.py:132-157 | a three-step run with mixed bounds that exceeds the queue capacity |
| GovernorLimits.ReusedIdLeaks | src/local_llm_server/global_execution_governor.py:304-333 | with a reused id a stale queue entry charges the slot to the wrong runtime, whose counter never returns to zero |
| GovernorReuse.ReuseKeeps | src/local_llm_server/global_execution_governor.py:105-259 | whatever ids are used again, an operation keeps the governor in order (the invariant holds for some history) as long as a submitted id stands in no queue after overdue work is gone |
| GovernorReuse.SafeRunsKeep | src/local_llm_server/global_execution_governor.py:80-375 | the same over whole runs |
| GovernorReuse.ReuseExactly | src/local_llm_server/global_execution_governor.py:147-157 | an accepted submission leaves the governor in order if and only if its id stood in no queue |
| GovernorReuse.LegalCounters | src/local_llm_server/global_execution_governor.py:324-333 | a governor in order has true counters and keeps its bound, whatever its history |
| GovernorFairness.AdmitAllFair | src/local_llm_server/global_execution_governor.py:304-336 | in one admission loop an eligible runtime is served, or moves up past exactly the runtimes admitted, each once |
| GovernorFairness.ApplyFair | src/local_llm_server/global_execution_governor.py:105-259 | no operation moves an eligible runtime back in the rotation |
| GovernorFairness.BoundedBypass | src/local_llm_server/global_execution_governor.py:295-336 | over a whole run in which a runtime stays eligible, others are admitted at most once each before it and only if they stood ahead of it |
| GovernorFairness.BypassCount | src/local_llm_server/global_execution_governor.py:295-336 | so the number of admissions before its own is at most its place in the rotation, and each admission of another strictly lowers that place |
| Governor.GlobalExecutionGovernor.constructor | src/local_llm_server/global_execution_governor.py:83-103 | a new object has the empty state |
| Governor.GlobalExecutionGovernor.Submit | src/local_llm_server/global_execution_governor.py:105-157 | the object's new state and the result or error are those of the specification, only the new waiter, a fresh object, is registered, and a sound state (invariant and work conservation) stays sound |
| Governor.GlobalExecutionGovernor.WaitPass | src/local_llm_server/global_execution_governor.py:165-204 | one pass of the loop over a waiter handle, including a handle no longer registered; a sound state stays sound |
| Governor.GlobalExecutionGovernor.Abandon | src/local_llm_server/global_execution_governor.py:223-242 | cancels queued and running waiters only, frees a running one's slot and admits others; a sound state stays sound |
| Governor.GlobalExecutionGovernor.Release | src/local_llm_server/global_execution_governor.py:244-259 | completes a running waiter, frees its slot and admits others; refuses any other; a sound state stays sound |
| Governor.GlobalExecutionGovernor.TakeSnapshot | src/local_llm_server/global_execution_governor.py:261-286 | refreshes the governor and lists exactly the runtimes with queued or counted work, each once and in key order; from a sound state the running figures are the true numbers of running waiters, and the state stays sound |
| Governor.GlobalExecutionGovernor.QueuedCount | src/local_llm_server/global_execution_governor.py:288-293 | counts the queued waiters |
| Governor.GlobalExecutionGovernor.ScheduleRuntime | src/local_llm_server/global_execution_governor.py:295-302 | a runtime with a queue joins the rotation once |
| Governor.GlobalExecutionGovernor.AdmitAvailable | src/local_llm_server/global_execution_governor.py:304-336 | the nested loops over the rotation equal the recursive specification |
| Governor.GlobalExecutionGovernor.NextQueued | src/local_llm_server/global_execution_governor.py:338-351 | drops stale ids, expires overdue waiters in place and returns the first live one |
| Governor.GlobalExecutionGovernor.ReleaseRunning | src/local_llm_server/global_execution_governor.py:353-359 | both counters with their clamps |
| Governor.GlobalExecutionGovernor.ExpireQueued | src/local_llm_server/global_execution_governor.py:361-369 | expires exactly the queued waiters past their deadline |
| Governor.GlobalExecutionGovernor.DiscardWaiter | src/local_llm_server/global_execution_governor.py:371-375 | removes the waiter only if it is the one registered under its id |
| Lifecycle.NextKeeps | src/local_llm_server/request_scheduler.py:146-299 | every step of any request, waiting thread, cancellation (before or after the thread begins) or snapshot keeps the ownership invariant |
| Lifecycle.RunKeepsSystem | src/local_llm_server/request_scheduler.py:146-299 | the ownership invariant holds over every interleaving |
| Lifecycle.EveryRunIsSafe | src/local_llm_server/request_scheduler.py:146-299 | so from a start with limits of at least one, every run satisfies it |
| Lifecycle.PassKeeps | src/local_llm_server/global_execution_governor.py:159-204 | a waiting thread always finds its waiter and never one that is completed, so its loop cannot spin for ever |
| Lifecycle.OneRunningWaiterEach | src/local_llm_server/request_scheduler.py:146-240 | a request never has running waiters for both of its attempts |
| Lifecycle.SlotsBounded | src/local_llm_server/request_scheduler.py:250-299 | executing and streaming requests never exceed `max_running`, and the release of each is accepted |
| Lifecycle.QuiescenceIsEmpty | src/local_llm_server/request_scheduler.py:342-384 | once all requests are finished, whatever their threads still do, no slot is taken, nothing is queued and all counters are gone; the only records left are expired ones, whose thread has not returned or never began |
| Lifecycle.RecordLeftExactly | src/local_llm_server/request_scheduler.py:209-220 | a cancellation leaves a record that no thread will clear away if and only if the waiter had already expired and its wait had not begun |
| Lifecycle.LeftoverStays | src/local_llm_server/global_execution_governor.py:223-242 | such a record stays through every further run |
| Lifecycle.OnlyLeftoversStay | src/local_llm_server/global_execution_governor.py:165-204 | a finished request's record for which no thread is there was left in that way |
| LifecycleLimits.FullLeavesARecord | src/local_llm_server/request_scheduler.py:146-240 | from every state with all slots taken and nobody queued, a new request can leave its record behind for ever |
| LifecycleLimits.LeftoverIsReachable | src/local_llm_server/request_scheduler.py:146-240 | and so a start with one slot and two requests can |
| Lifecycle.AnotherHoldsASlot | src/local_llm_server/request_scheduler.py:199-228 | as long as a waiter is queued, another request owns a slot |
| LifecycleDrain.ForwardShrinks | src/local_llm_server/request_scheduler.py:146-299 | every step forward of a request or of its waiting thread, whatever the environment answers, lowers one measure |
| LifecycleDrain.OtherStepsKeep | src/local_llm_server/request_scheduler.py:146-299 | no other step but an arrival raises it |
| LifecycleDrain.StuckExactly | src/local_llm_server/request_scheduler.py:199-228 | the system is not at rest and has no step forward but cancellations if and only if every worker waits for a queued permit, no wait of a running waiter has begun, and every unfinished request awaits such a wait |
| LifecycleDrain.StepForward | src/local_llm_server/request_scheduler.py:199-299 | in every other state a step forward is possible without any cancellation, whatever runtime is found |
| LifecycleDrain.ProgressIsBounded | src/local_llm_server/request_scheduler.py:146-299 | without arrivals every run makes at most as many steps forward as the measure says: no livelock |
| LifecyclePool.PoolKeeps | src/local_llm_server/request_scheduler.py:209 | every step keeps the pool in order: waits not begun are queued in submission order behind those begun, and no more are at work than there are workers |
| LifecyclePool.EveryRunIsOrderly | src/local_llm_server/request_scheduler.py:146-299 | so over every run from a start |
| LifecycleJam.JamIsFull | src/local_llm_server/request_scheduler.py:199-228 | when all workers wait for queued permits and no wait of a running waiter has begun, every slot is taken |
| LifecycleJam.JamIsForEver | src/local_llm_server/request_scheduler.py:199-228 | then, if no waiter at a worker has a deadline, no wait ever ends and nobody is ever admitted again, whatever arrives and happens, unless a waiting request is cancelled |
| LifecycleJam.DeadlockExactly | src/local_llm_server/request_scheduler.py:199-228 | the system is not at rest and no run without cancellations and arrivals makes a single step forward, if and only if it is stuck and no waiter at a worker has a deadline |
| LifecycleRoom.OtherNotOvertaken | src/local_llm_server/global_execution_governor.py:223-336 | no operation but `submit` makes a full queue one that everything running was submitted after |
| LifecycleRoom.SubmitNotOvertaken | src/local_llm_server/global_execution_governor.py:105-157 | nor does a submission: who is let past a full queue leaves it behind something older |
| LifecycleRoom.NeverJams | src/local_llm_server/request_scheduler.py:146-299 | with one bound per runtime and at least as many workers as queue places, no run jams the pool, arrivals and cancellations included |
| LifecycleRoom.JamTakesMany | src/local_llm_server/request_scheduler.py:146-299 | a jam takes more unfinished requests than workers |
| LifecycleRoom.SystemDrains | src/local_llm_server/request_scheduler.py:146-299 | from every reachable state with no more unfinished requests than workers, or with one bound per runtime and as many workers as queue places, the system comes to rest without a single cancellation, with no slot, queue or counter left and no record but those left behind before |
| LifecycleDeadlock.PoolDeadlocks | src/local_llm_server/request_scheduler.py:199-228 | for every number of workers, with one slot and at least two more queue places than workers, a run without cancellations and deadlines ends in a deadlock |
| LifecycleDeadlock.PoolDeadlocksEarlier | src/local_llm_server/request_scheduler.py:199-228 | at least one more queue place than workers is enough after one cancelled request, whose stale id keeps its runtime in front |
| LifecycleDeadlock.EnoughWorkersExactly | src/local_llm_server/request_scheduler.py:199-228 | with one slot and one bound per runtime, no run jams the pool if and only if there are at least as many workers as queue places |
| Lifecycle.GlobalIdInjective | src/local_llm_server/request_scheduler.py:145-154 | attempt ids of different requests or attempts differ |
| ReasoningText.ScanAppend | src/local_llm_server/reasoning_boundary.py:68-99 | scanning is a monoid action: text a, then b from the mode and carry a left, is text a + b |
| ReasoningText.FeedsAreOneScan | src/local_llm_server/reasoning_boundary.py:68-99 | any sequence of feeds gives the output, mode and carry of one scan of the concatenation |
| ReasoningText.ScanConserves | src/local_llm_server/reasoning_boundary.py:68-99 | the input is the text and delimiters recognised so far, in order, followed by the carry |
| ReasoningText.ScanModes | src/local_llm_server/reasoning_boundary.py:80-97 | every character is hidden or exposed as the delimiters before it say |
| ReasoningText.ScanCarry | src/local_llm_server/reasoning_boundary.py:12-15 | the carry is a proper prefix of a delimiter, at most seven characters |
| ReasoningText.ScanIsParse | src/local_llm_server/reasoning_boundary.py:68-110 | scanning and flushing the carry as text of the current mode is the reference parse |
| ReasoningText.ChunkInvariance | src/local_llm_server/reasoning_boundary.py:68-110 | for every chunking, feeds and `finish` yield the whole-string reference parse |
| ReasoningText.TagsAreOccurrences | src/local_llm_server/reasoning_boundary.py:125-131 | the parse recognises a delimiter if and only if it occurs in the text |
| ReasoningText.HiddenUntilClose | src/local_llm_server/reasoning_boundary.py:36-55 | with reasoning expected and no closing tag anywhere nothing is exposed, under any chunking |
| ReasoningText.ExposedMaySpellATag | src/local_llm_server/reasoning_boundary.py:68-99 | a family of texts whose exposed part spells an opening tag: any text with one cut by a closing tag |
| ReasoningSplice.ExposedTagExactly | src/local_llm_server/reasoning_boundary.py:68-110 | for every text, starting mode and delimiter, the exposed text contains the delimiter if and only if removing some recognised tag joins its two parts, the first standing directly in front of that tag |
| ReasoningSplice.NoTagBehindPartial | src/local_llm_server/reasoning_boundary.py:68-110 | if no tag is recognised directly behind exposed text that begins a delimiter, none is exposed |
| ReasoningSplice.CleanTextExposesNoTag | src/local_llm_server/reasoning_boundary.py:68-110 | a text in which no tag occurs directly behind the beginning of one exposes no delimiter, in either mode |
| ReasoningSplice.ParseRenders | src/local_llm_server/reasoning_boundary.py:68-110 | the pieces of the parse, rendered in order, are the text |
| ReasoningParser.Find | src/local_llm_server/reasoning_boundary.py:126-130 | the first occurrence of a delimiter, or that there is none |
| ReasoningParser.NextDelimiter | src/local_llm_server/reasoning_boundary.py:125-131 | the leftmost delimiter of either kind, or that there is none |
| ReasoningParser.SafePrefixLength | src/local_llm_server/reasoning_boundary.py:134-142 | what is kept back is the longest suffix that could still become a delimiter |
| ReasoningParser.ReasoningStreamParser.Feed | src/local_llm_server/reasoning_boundary.py:68-99 | one feed exposes, records, carries and switches mode exactly as one scan of carry and chunk |
| ReasoningParser.ReasoningStreamParser.Finish | src/local_llm_server/reasoning_boundary.py:101-110 | the carry becomes text of the current mode |
| ReasoningParser.ReasoningStreamParser.ConsumeOrdinary | src/local_llm_server/reasoning_boundary.py:112-118 | text goes to the output or to the recorded reasoning, never both |
| ReasoningParser.FeedAll | src/local_llm_server/reasoning_boundary.py:68-110 | the parser object fed any chunks and finished exposes and records what the reference parse does |
| ReasoningParser.SplitReasoningContent | src/local_llm_server/reasoning_boundary.py:18-33 | the one-shot split is the reference parse, hidden from the start if reasoning is expected or only closing tags occur, both parts stripped |
| SseFilter.FramesAppend | src/local_llm_server/reasoning_http.py:231-239 | cutting a text into events is cutting its first part and going on from what that left |
| SseFilter.FeedAppend | src/local_llm_server/reasoning_http.py:226-239 | two feeds of the redactor are one feed of both texts |
| SseFilter.FeedsAreOneFeed | src/local_llm_server/reasoning_http.py:226-239 | so are any number of them |
| SseFilter.ChoicesKept | src/local_llm_server/reasoning_http.py:268-297 | filtering keeps every choice and all of it but hidden words, content that is not a string included; in structured mode the last finish reason is held back |
| SseFilter.SideChannelsSurvive | src/local_llm_server/reasoning_http.py:299-306 | events with usage or timings are always emitted, with their fields and all choices |
| SseFilter.WordsAreSignals | src/local_llm_server/reasoning_http.py:474-493 | an event that shows words is never suppressed as empty transport |
| SseFilter.EventTracks | src/local_llm_server/reasoning_http.py:253-306 | each event advances the scan of the model's words by its own words; structured events emit neither words nor verdicts |
| SseFilter.FinishDelivers | src/local_llm_server/reasoning_http.py:308-330 | the end completes the answer, or in structured mode emits exactly one verdict: the validated final text or a failure |
| SseFilter.StreamIsParsed | src/local_llm_server/reasoning_http.py:226-330 | for a stream whose end marker, if any, is followed only by undecoded text, the decoded events show exactly the exposed part of the reference parse of the concatenated deltas; in structured mode exactly one verdict on it and no other words |
| SseFilter.ChunksAreOneStream | src/local_llm_server/reasoning_http.py:226-251 | however the text of a stream is cut into chunks, the output is that of the whole stream |
| SseFilter.ChunksAreParsed | src/local_llm_server/reasoning_http.py:226-330 | the same for every division of the stream's text into chunks |
| SseClient.StreamReadExactly | src/local_llm_server/reasoning_http.py:253-330 | for any way a client may read undecoded text and what decoded events hold besides words, it reads exactly the exposed answer and nothing else if and only if it reads nothing from undecoded events and nothing beside the words of the decoded events passed on |
| SseClient.ChunksReadExactly | src/local_llm_server/reasoning_http.py:226-330 | for a client that besides words reads only what makes an event worth sending (texts, other delta contents, usage, timings), and every division into chunks: if and only if no event of the input offers it any |
| SseClient.StreamSides | src/local_llm_server/reasoning_http.py:253-267 | what a client reads from the output besides the words of decoded events is what it reads beside them in the input, in order |
| SseClient.SignalsPass | src/local_llm_server/reasoning_http.py:268-306 | an event with something else worth sending is always passed on, complete but for its words and finish reasons |
| SseClient.NothingBesideIsSafe | src/local_llm_server/reasoning_http.py:253-330 | any client that reads no words from an empty event reads exactly the answer if no event offers it anything beside the words |
| SseClient.NoDataNoWords | src/local_llm_server/reasoning_http.py:253-256 | a client of the event-stream format reads nothing from text without data lines, so comments and other fields are harmless |
| SseClient.NamedEventsPassUnredacted | src/local_llm_server/reasoning_http.py:253-256 | such a client reads all the words of an event that carries a name in front of its data, hidden or not |
| SseRedactor.SSEReasoningRedactor.Feed | src/local_llm_server/reasoning_http.py:226-239 | the object's feed equals the specification's |
| SseRedactor.SSEReasoningRedactor.Finish | src/local_llm_server/reasoning_http.py:241-251 | the rest of the buffer is one last event, and the answer is completed unless the end marker was seen |
| SseRedactor.SSEReasoningRedactor.FilterEvent | src/local_llm_server/reasoning_http.py:253-306 | pass-through, end marker and decoded events |
| SseRedactor.SSEReasoningRedactor.FilterChoices | src/local_llm_server/reasoning_http.py:268-297 | the loop over choices with the shared parser |
| SseRedactor.SSEReasoningRedactor.FinishApplicationContent | src/local_llm_server/reasoning_http.py:308-330 | the end of the answer in both modes |
| SseRedactor.SSEReasoningRedactor.RememberMetadata | src/local_llm_server/reasoning_http.py:332-335 | later values of the four metadata fields replace earlier ones |
| SseRedactor.RedactStream | src/local_llm_server/reasoning_http.py:107-121 | feeding a redactor any chunks and finishing it shows the reference parse in the decoded events; a client that besides words reads only signals reads that and nothing else if and only if no event offers it anything else |
| PressurePolicy.StreaksAreSuffixes | src/local_llm_server/residency_pressure.py:114-156 | the streak counters are the lengths of the qualifying suffix of the whole sample history and stay under their thresholds |
| PressurePolicy.WatchingExactly | src/local_llm_server/residency_pressure.py:114-156 | an armed policy is watching exactly if the latest known sample was high: an unknown sample breaks the streak but not the watch |
| PressurePolicy.TransitionExactly | src/local_llm_server/residency_pressure.py:114-156 | a sample triggers if and only if the policy is armed and completes N high samples in a row, and clears if and only if it is triggered and completes M low ones |
| PressurePolicy.TransitionsAlternate | src/local_llm_server/residency_pressure.py:87-156 | triggered and cleared strictly alternate, starting with triggered |
| PressurePolicy.TransitionWindow | src/local_llm_server/residency_pressure.py:124-151 | each transition rests on its full number of consecutive qualifying samples, none of which made a transition before |
| PressurePolicy.TriggerBound | src/local_llm_server/residency_pressure.py:87-156 | L samples trigger at most (L + M) / (N + M) times |
| PressurePolicy.TriggerBoundIsTight | src/local_llm_server/residency_pressure.py:87-156 | for every k a history triggers k times with the fewest samples that bound allows |
| PressurePolicy.PressureEvictionPolicy.Observe | src/local_llm_server/residency_pressure.py:108-171 | one sample of the object is one step of the history, and candidates are selected exactly when it triggers |
| Eviction.SelectEvictionCandidates | src/local_llm_server/residency_eviction.py:53-99 | filtering, sorting and cutting give the specified selection |
| Eviction.SelectedAreFirst | src/local_llm_server/residency_eviction.py:98-99 | the result is ranked by age and key, as long as the limit and the eligible runtimes allow, and everything left out ranks after it |
| Eviction.ListingOrderIrrelevant | src/local_llm_server/residency_eviction.py:68-99 | two listings of the same runtimes select the same if ties in age and key are between equal candidates, so in particular with distinct keys |
| Eviction.ListedFirstWinsTies | src/local_llm_server/residency_eviction.py:98-99 | of all eligible runtimes that tie, in any listing and for any limit, the one listed first takes their first place |
| Eviction.OrderIrrelevantExactly | src/local_llm_server/residency_eviction.py:68-99 | the selection is the same for every order of the listing if and only if every eligible candidate that ties in age and key with a selected one equals it |
| Eviction.LargerLimitExtends | src/local_llm_server/residency_eviction.py:99 | a larger limit extends the selection |
| Eviction.TtlIsPrefixOfLru | src/local_llm_server/residency_eviction.py:84-99 | the time-to-live selection is a prefix of the least-recently-used one, up to the reason tag |
| Ledger.Usable | src/local_llm_server/resources.py:82-86 | a usable budget exists exactly with a limit; it and the headroom make up the limit, and it is zero if the headroom alone exceeds the limit |
| Ledger.RunIsSafe | src/local_llm_server/resource_manager.py:75-141 | over every run of reserve, commit, release and rollback the accounted bytes stay within the usable budget, and without a limit the ledger is empty |
| Ledger.SumParts | src/local_llm_server/resource_manager.py:164-188 | accounted bytes are committed plus reserved bytes |
| Ledger.AnswersAddUp | src/local_llm_server/resource_manager.py:143-188 | what an answer reports adds up to all accounts, before a reservation is recorded and after a commit is |
| Ledger.RefusalChangesNothing | src/local_llm_server/resource_manager.py:75-141 | rejected and failing operations leave the ledger as it was |
| Ledger.OthersUntouched | src/local_llm_server/resource_manager.py:75-141 | an operation touches only its own reservation; a commit keeps the requested bytes and the kind |
| Ledger.NoLimitNothingRecorded | src/local_llm_server/resource_manager.py:101-134 | without a limit a reservation is answered with unknown, and a commit always fails, so its own unknown answer is unreachable |
| Ledger.RollbackUndoesReserve | src/local_llm_server/resource_manager.py:136-141 | rolling back an answered reservation restores the ledger exactly |
| Ledger.ReleaseMakesRoom | src/local_llm_server/resource_manager.py:136-162 | after a release a reservation is admitted exactly if it fits into what is then left |
| Ledger.ResourceManager.Reserve | src/local_llm_server/resource_manager.py:75-99 | outcome and new ledger of a reservation, with its three errors |
| Ledger.ResourceManager.Commit | src/local_llm_server/resource_manager.py:101-134 | outcome and new ledger of a commit, measured against the other reservations only |
| Ledger.ResourceManager.Release | src/local_llm_server/resource_manager.py:136-141 | removes the reservation and tells whether there was one |
| Ledger.ResourceManager.Accounted | src/local_llm_server/resource_manager.py:107-111 | the sum over the ledger in any order, leaving one reservation out if asked |
| TestSets.ParsedSetIsValid | src/local_llm_server/evaluation_testsets.py:102-202 | what the parser accepts: identifiers, 10 to 10000 samples with unique ids, non-empty objective checks, non-blank input and tags, fixed provenance |
| TestSets.PrintedSampleParses | src/local_llm_server/evaluation_testsets.py:149-202 | a printed valid sample parses to itself |
| TestSets.PrintedSetParses | src/local_llm_server/evaluation_testsets.py:141-158 | a printed valid set parses to itself with its samples sorted |
| TestSets.RoundTrip | src/local_llm_server/evaluation_testsets.py:102-158 | for every parsed set, printing and parsing succeeds, keeps the identity and the samples, and printing again gives the same text |
| TestSets.IdentityIgnoresOrder | src/local_llm_server/evaluation.py:55-76 | the canonical identity does not depend on the order of the samples |
| TestSets.IdentityDetermines | src/local_llm_server/evaluation.py:55-76 | equal canonical contents mean equal id, version, provenance and samples; the identity is modelled as that content, so its JSON encoding and digest are taken as injective |
| TestSets.FileKeyInjective | src/local_llm_server/evaluation_testsets.py:83-89 | different valid pairs of id and version are kept in different files |
| TestSets.CustomTestSetStore.Save | src/local_llm_server/evaluation_testsets.py:37-54 | the four outcomes of a save and the one file it writes; files stay named after what they hold |
| TestSets.CustomTestSetStore.ListTestSets | src/local_llm_server/evaluation_testsets.py:56-67 | for any files already in the directory: the readable sets in some listing order, stably sorted by id and version; each pair once if files are named after what they hold |
| TestSets.CustomTestSetStore.Resolve | src/local_llm_server/evaluation_testsets.py:69-81 | none exactly if no file matches; an error exactly if two files match and no version was given; otherwise a matching set, the only one unless two files match |
| TestSets.KeyedIsUnambiguous | src/local_llm_server/evaluation_testsets.py:69-89 | if files are named after what they hold, no two match an id and a version |
| TestSets.SaveThenResolve | src/local_llm_server/evaluation_testsets.py:37-81 | what was saved is resolved with the same identity, unless another file holds the same id and version |
| EvidenceReview.ParseReport | src/local_llm_server/multi_model_evidence_review.py:142-260 | the loop over cycles, which gives up at the first unreadable cycle or changed fingerprint |
| EvidenceReview.ReadingIsHonest | src/local_llm_server/multi_model_evidence_review.py:171-216 | a cycle recomputed as complete was verified, overlapped and clean, and showed no eviction |
| EvidenceReview.ParsedFacts | src/local_llm_server/multi_model_evidence_review.py:218-260 | a complete report has only complete cycles, as many as declared, and a complete shutdown |
| EvidenceReview.ComputeTotals | src/local_llm_server/multi_model_evidence_review.py:428-448 | the nested accumulation equals the recursive totals |
| EvidenceReview.ReviewMultiModelEvidence | src/local_llm_server/multi_model_evidence_review.py:79-139 | the review with its state, counts, deltas and reasons in order |
| EvidenceReview.MismatchNeverReported | src/local_llm_server/multi_model_evidence_review.py:116-121 | the identity, overlap and accounting mismatch reasons are never given |
| EvidenceReview.SufficientExactly | src/local_llm_server/multi_model_evidence_review.py:79-139 | sufficient if and only if every report parses, all share one key, each is recomputed complete and declares no eviction, and the count and count times declared cycles meet the minima |
| EvidenceReview.OrderIrrelevant | src/local_llm_server/multi_model_evidence_review.py:79-139 | permuting the reports keeps state and reasons, and unless they are incompatible also all counts and the observed deltas as multisets |
| ValidationProfile.RisksFor | scripts/select_validation_profile.py:118-138 | the growing set of risks is the union of what each path carries |
| ValidationProfile.GatesFor | scripts/select_validation_profile.py:141-160 | when each gate is required |
| ValidationProfile.Select | scripts/select_validation_profile.py:184-197 | the selection, refused if the requested profile is weaker than the automatic one |
| ValidationProfile.ProfileGrows | scripts/select_validation_profile.py:85-115 | adding changed paths never weakens the automatic profile |
| ValidationProfile.ClassifyRisks | scripts/select_validation_profile.py:85-115 | classification adds no risk but the unknown executable, and a full profile always carries an executable risk |
| ValidationProfile.GatesAreMonotone | scripts/select_validation_profile.py:85-197 | for a fixed stage adding changed paths removes no required gate, with the automatic profile or any explicit one still accepted |
| ValidationProfile.ReleaseIncludesIntegration | scripts/select_validation_profile.py:141-160 | the release gates of a change include its integration gates |
| ValidationProfile.OnlyTheSetMatters | scripts/select_validation_profile.py:85-86 | order and repetition of the paths do not matter |
| Ordering.SortKeeps | src/local_llm_server/residency_eviction.py:98 | the sort yields a sorted permutation |
| Ordering.SortStable | src/local_llm_server/residency_eviction.py:98 | and keeps elements that tie in their order |
| Ordering.SortedUnique | src/local_llm_server/residency_eviction.py:98 | and the only one if ties are between equals |

## Left out

- Governor.GlobalExecutionGovernor.constructor: the source refuses limits below one with an error; the model states them as a precondition.
- Governor.GlobalExecutionGovernor.WaitPass: the loop and the sleep between passes are not modelled, one pass is; a pass over a completed handle asks for another pass, which `PassKeeps` shows never to arise from HTTP requests.
- GovernorInvariant.RunKeeps: assumes that no id is submitted twice, as callers mint UUIDs; `ReusedIdLeaks` shows why, and `GovernorReuse` says exactly which ids may be used again.
- PressurePolicy.PressureEvictionPolicy.constructor: the source refuses inconsistent settings with an error; the model states them as a precondition.
- Lifecycle.NextKeeps: a request is a process on values with a program counter instead of a coroutine with a retry loop, because its interleavings with others are the point.
- Eviction.SelectEvictionCandidates: the library's in-place sort is a stable sort on values.
- SseFilter.ChunksAreParsed: says nothing about streams with further decoded events after an end marker.
- SseClient.NamedEventsPassUnredacted: a client of the event-stream format is modelled with line feeds and carriage returns ending lines and the words of one decoder; reconnection, event ids and retry times are not.
- TestSets.SaveThenResolve: assumes that the id is not reserved, that the file is new or may be replaced and that no other file holds the same pair; the other outcomes are in the contracts of `Save` and `Resolve`.
- Threads, condition variables and event loops: atomic lock-held steps, nondeterministic cancellation, and a pool of worker threads that is used by these waits alone; a thread that was notified passes at some time; `acquire` is `submit` followed by `wait`.
- The per-runtime FIFO gate of `async_scheduler.py`: the admission model is the configuration without it (`registry is None`). `manager.resolve` may find the runtime current, changed or missing at any time, and a streaming body ends or is aborted.
- Clock readings, byte counts and ages: integers or reals without rounding, NaN and infinities.
- JSON text, UTF-8 decoding and SHA-256: the redactor takes the decoding of event data as a function, output events are values instead of text, identities are the canonical content instead of its digest, and finite-number checks hold by type.
- Structured-output validation: a predicate on the final text.
- `should_attempt_eviction` of the pressure policy: a read-only test of an evaluation.
- The HTTP middleware around the redactor: request rewriting, non-streamed responses and the choice of when to redact.
- `ResourceManager.snapshot`, public dictionaries and human-readable reason texts.
- Files of the test-set store: a map from names to decoded contents; temporary files and unreadable encodings are not modelled.
- `select_validation_profile.py`: git, environment variables, the gate digest and the self-test.
- Lower-casing and upper-case digests: ASCII letters only, which is all the compared names contain.
- `hardware_evidence_review.py`, memory envelopes, metrics, configuration precedence, engines, downloads, routes, UI and campaigns.
