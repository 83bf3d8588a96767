# vpntunnel: verified models of its protocols

vpntunnel proxies traffic through WireGuard tunnels. Four parts of it are
protocols whose correctness is not visible in any one function. This project
models them in Dafny and proves what every run of them keeps.

* **On-demand scheduler** (`SchedulerSpec`, `Scheduler`, `SchedulerTheorems`,
  `SchedulerLaws`).
  One goroutine owns at most one device, queues requests per zone, and moves
  between zones through a settle delay, a grace window and an idle TTL.
  `SchedulerSpec` is the loop as a state machine with a log of what an observer
  sees. `Scheduler.OnDemandScheduler` is the loop as the code keeps it (a map of
  queues beside a FIFO of zone ids compacted in place, a job counter, three
  optional timers), and each arm of its select is proved to be one step of the
  state machine. `SchedulerTheorems` proves the run-level results, and
  `SchedulerLaws` what exactly each event does and when each timer is due.
* **Streaming supervisor and proxy sessions** (`SupervisorSpec`, `Supervisor`, `SupervisorLaws`,
  `RotationGate`, `TunnelDrain`). The supervisor's loop has the same two-level
  form. `RotationGate` interleaves any number of proxy sessions with the loop's
  locked and unlocked steps. `TunnelDrain` interleaves tunnel goroutines with
  `WaitTunnels` callers.
* **Async jobs** (`JobRecord`, `JobStore`, `JobGc`, `JobLifecycle`,
  `JobTheorems`, `JobOwnership`, `JobOutcomes`, `JobRaces`). The store's batch loops are proved
  to be pointwise updates. Submissions, workers and GC batches are then
  interleaved over one store, with timestamps truncated to seconds at every
  write.
* **wg-quick text** (`WgText`, `WgConf`, `WgMeaning`, `WgReading`, `KeyInjection`,
  `KeyTheorems`, `ConfPrinter`). The parser as a class updated line by line, the
  private-key injector and reader, and the printer, and how they agree.

Device builds, random picks, clocks, channel deliveries and transaction commits
are parameters of the events, so a theorem about every feasible sequence of
events covers every outcome of them. A log is a list with the newest entry
outermost: a property of each entry and everything before it is a structural
recursion (`EntryOk`, `LogOk`).

## Assumptions

* Scheduler: tunnel ids are non-empty, the eligible set does not change, and a
  request carries the path its id looks up to, as `Route` ensures. Only
  `NoTeardownUnderGrant` needs that releases never outnumber grants; a caller
  that abandons a grant already sent never releases it, which that result allows.
  Requests still buffered when the loop exits are not dequeued, so nothing is
  claimed of them.
* Time does not go back: successive clock readings of one loop, and of one job
  process, are non-decreasing. Timers fire at or after their due time.
* Async jobs: a bbolt transaction is atomic and is rolled back on error. Results that
  need submissions of the same tag not to overlap between their lookup and their
  write say so (`Serialised`). The code does not enforce it, and
  `JobTheorems.LifecycleExactly` and `JobOutcomes.AnswersExactly` say exactly which
  step breaks the order otherwise. Results on what a store may hold at the start
  hold of every store, undecodable entries included, unless they say
  `AllWellShaped`.
* Network text (`ConfPrinter.Lawful`): `netip.ParsePrefix` accepts no zone, and
  `netip.ParseAddr` keeps a zone as written and accepts neither comma nor '#'
  outside one.

## Where the code differs from its comments

* `gc.go:76-80` says a freshly timed-out record stays in failed_timeout until the
  next pass. The stored stamp is truncated, so the next batch of the same pass
  already sees it up to a second old. `JobGc.OneStageExactly` gives the exact
  condition and `JobGc.ShorterTTLSkips` the failing inputs.
* `record.go:91` says the response is set for failed_timeout records too. The GC
  stores none (`gc.go:93-97`). `JobOutcomes.AnswersAreStable` shows such a job
  answers with the empty response.
* The loop comment of the supervisor (`supervisor.go:371`) says a successful
  reconnect resets the backoff. Only a healthy poll does, and the model follows
  the code.
* The DNS prompt (`main.go:397-402`) validates its answer as one address, but the parser
  splits it at commas and cuts it at '#'. An IPv6 zone may hold both: with
  `fe80::1%a,b` every prompt is satisfied and the printed file does not parse.
  `ConfPrinter.RoundTrip` gives the exact condition and
  `ConfPrinter.CommaInDnsRefused` the failing family.
* The injector takes an `[Interface]` header in any case (`main.go:911`), the parser only
  as spelled. `KeyTheorems.FoldedHeaderRefused` shows that injection then succeeds
  and its result never parses.
* `CompareAndSwapStatus` guards a status, not a submission. A worker slower than the
  whole life of its record can complete a later submission's record under the same
  tag, with the shipped TTLs from 25 hours and 5 minutes on.
  `JobRaces.LateSwapExactly` gives the exact moment.
* The idle fallback of the grace arm (`scheduler.go:489-495`) is unreachable:
  `Scheduler.OnDemandScheduler.LeaveZone` proves the queue is never empty there.

## Model

| member | source | states |
|---|---|---|
| SchedulerSpec.StepShape | internal/application/tunnelpool/scheduler.go:410-508 | every arm keeps: queues non-empty and duplicate-free, never for the live or settling zone; nothing waits when down or under an armed idle timer; something waits under an armed grace timer; a serving device has a job |
| SchedulerTheorems.StepInv | internal/application/tunnelpool/scheduler.go:410-508 | every arm keeps the log's promises, the open-device set and the distance of each armed timer from what it must keep away from |
| SchedulerTheorems.BreakBeforeMake | internal/application/tunnelpool/scheduler.go:345-408 | in every run each build starts with no open device and at least settleDelay after every earlier close and attempt; a switch closes no sooner than grace after the last use and an idle teardown no sooner than idleTTL after the last demand; a grant carries the one open device, built from the path of the request's own zone; a stopped run has closed everything |
| SchedulerTheorems.AnsweredOnceInOrder | internal/application/tunnelpool/scheduler.go:255-277 | per zone, the requests answered are a prefix of those dequeued, in order, and all of them once the loop has stopped |
| SchedulerTheorems.NoLostWakeup | internal/application/tunnelpool/scheduler.go:410-508 | whenever some dequeued request is unanswered, a switch is settling, the grace timer is armed or a job is active |
| SchedulerTheorems.NoTeardownUnderGrant | internal/application/tunnelpool/scheduler.go:468-506 | when releases never outnumber grants, every close except on shutdown happens with grants equal to releases, and the job counter is their difference |
| SchedulerTheorems.ZonesInTurn | internal/application/tunnelpool/scheduler.go:300-370 | from any state, the switches of any continuation start the waiting zones in their order: the zone at index k is exactly the (k+1)-th |
| SchedulerTheorems.BoundedWaiting | internal/application/tunnelpool/scheduler.go:363-408 | a request behind k zones is answered by the time k+1 further bring-up attempts have ended, one more if a switch was in flight |
| SchedulerLaws.EventsObserved | internal/application/tunnelpool/scheduler.go:410-508 | in every run each event adds exactly its answers, switches, builds and closes, with their times: a same-zone arrival at a live device is granted it, any other is held last of its zone; a build that succeeds grants the whole batch the new device of the zone's own path and counts it as jobs, one that fails refuses the whole batch and moves on; grace closes and switches to the oldest zone, the idle TTL closes, shutdown closes and cancels all that is held |
| SchedulerLaws.BroughtUp | internal/application/tunnelpool/scheduler.go:375-408 | a settled build that succeeds: one open device of the zone's path, the zone current, as many jobs as the batch, and exactly the batch granted in order |
| SchedulerLaws.GivenUp | internal/application/tunnelpool/scheduler.go:386-395 | a settled build that fails: no open device, exactly the batch refused in order, the oldest waiting zone next |
| SchedulerLaws.TimersExact | internal/application/tunnelpool/scheduler.go:447-484 | in every run an armed timer is due exactly settleDelay after the switch began, grace after another zone first waited for the idle device, or idleTTL after the last release; the unanswered requests are those held |
| SchedulerLaws.CanServe | internal/application/tunnelpool/scheduler.go:410-508 | from any state of the loop some continuation grants a request it holds |
| SchedulerLaws.EveryArrivalServable | internal/application/tunnelpool/scheduler.go:425-463 | in every run not stopped, an eligible request arriving at any time can be followed by events that end with its grant |
| Scheduler.OnDemandScheduler.constructor | internal/application/tunnelpool/scheduler.go:220-246 | the loop's variables start as the initial state |
| Scheduler.OnDemandScheduler.GrantAll | internal/application/tunnelpool/scheduler.go:255-264 | one grant and one more job per request, in order |
| Scheduler.OnDemandScheduler.FailAll | internal/application/tunnelpool/scheduler.go:266-270 | one failing reply per request, in order |
| Scheduler.OnDemandScheduler.EnqueuePending | internal/application/tunnelpool/scheduler.go:272-277 | map and FIFO together become the queue list with the request appended to its zone, new zones last |
| Scheduler.OnDemandScheduler.Teardown | internal/application/tunnelpool/scheduler.go:279-298 | closes the device if there is one, once, and clears the zone |
| Scheduler.OnDemandScheduler.CompactFIFO | internal/application/tunnelpool/scheduler.go:303-312 | the in-place two-pointer pass keeps exactly the undrained zones in order |
| Scheduler.OnDemandScheduler.FindNextZone | internal/application/tunnelpool/scheduler.go:318-328 | the first queued zone other than the excluded one, or the end of the FIFO |
| Scheduler.OnDemandScheduler.PickNextZone | internal/application/tunnelpool/scheduler.go:318-329 | removes the oldest zone other than the excluded one from both structures and returns its requests; finds none only if every queued zone is excluded |
| Scheduler.OnDemandScheduler.TakeOldest | internal/application/tunnelpool/scheduler.go:318-329 | when the excluded zone is not queued, exactly the head of the queues is taken |
| Scheduler.OnDemandScheduler.HasCrossZonePending | internal/application/tunnelpool/scheduler.go:331-338 | true exactly when another zone has a waiting request |
| Scheduler.OnDemandScheduler.BeginSwitch | internal/application/tunnelpool/scheduler.go:345-358 | closes before it settles, and arms only the settle timer |
| Scheduler.OnDemandScheduler.RemoveFIFO | internal/application/tunnelpool/scheduler.go:601-608 | removes the first occurrence and nothing else |
| Scheduler.OnDemandScheduler.WakeupArmed | internal/application/tunnelpool/scheduler.go:410-508 | on the loop's own variables: an unanswered request has a wake-up, an idle device exactly one timer, an armed grace or idle timer or no device means no active job, and nothing is pending under an armed idle timer, when down, or for the live or settling zone |
| Scheduler.OnDemandScheduler.StartNextIfPending | internal/application/tunnelpool/scheduler.go:363-370 | switches to the head of the FIFO if there is one |
| Scheduler.OnDemandScheduler.OnRequest | internal/application/tunnelpool/scheduler.go:425-463 | refines the arrival step in all four situations of the loop |
| Scheduler.OnDemandScheduler.OnSettleTimer | internal/application/tunnelpool/scheduler.go:375-408 | refines the settle step; on the loop's own variables: on success the zone, its device and as many jobs as the batch, on failure no device, settling again exactly if something was pending |
| Scheduler.OnDemandScheduler.OnReleased | internal/application/tunnelpool/scheduler.go:468-484 | refines the release step |
| Scheduler.OnDemandScheduler.OnGraceTimer | internal/application/tunnelpool/scheduler.go:486-497 | refines close-then-switch to the oldest zone |
| Scheduler.OnDemandScheduler.LeaveZone | internal/application/tunnelpool/scheduler.go:486-497 | the oldest queued zone is found, so the idle fallback is dead code |
| Scheduler.OnDemandScheduler.OnIdleTimer | internal/application/tunnelpool/scheduler.go:499-506 | refines the idle teardown |
| Scheduler.OnDemandScheduler.OnCancelled | internal/application/tunnelpool/scheduler.go:412-423 | refines shutdown for every order in which the map may be ranged over |
| Scheduler.OnDemandScheduler.Run | internal/application/tunnelpool/scheduler.go:410-508 | the loop over any feasible script ends in the state machine's final state |
| SupervisorSpec.GrowBackoffIsMin | internal/application/tunnelpool/supervisor.go:663-672 | for every positive 64-bit duration the guarded wrapping doubling is the mathematical min(2d, max) |
| SupervisorSpec.BackoffGrows | internal/application/tunnelpool/supervisor.go:425 | one growth takes the closed form from k to k+1 and stays within the configured bounds |
| SupervisorSpec.RotateOk | internal/application/tunnelpool/supervisor.go:478-541 | a rotation keeps the invariant on every path: skipped, unavailable, interrupted, rebuilt or not |
| SupervisorSpec.StepOk | internal/application/tunnelpool/supervisor.go:372-457 | every iteration keeps the invariant |
| SupervisorSpec.SupervisorRuns | internal/application/tunnelpool/supervisor.go:343-457 | in every run each build starts with no open device; a rotation build comes at least rotateSettle after every earlier close and attempt, a reconnect at least min(reconnectMin * 2^k, reconnectMax) after them for k failed reconnects since the last healthy poll; each device is closed at most once and none is open after the loop; every rotate request gets exactly one reply, skipped iff not forced and one of its two readings was busy; a rotation closes only unskipped; a poll closes exactly a device whose reading failed, shows no handshake, or one older than handshakeMaxAge; the backoff has the closed form |
| SupervisorLaws.IterationsObserved | internal/application/tunnelpool/supervisor.go:372-541 | in every run each iteration adds exactly its builds, closes and replies, with their times and causes, and changes device and backoff exactly so: an unforced rotation that reads busy leaves the device alone, any other rotation of a live device closes it and, unless interrupted, builds the next |
| SupervisorLaws.CanConnect | internal/application/tunnelpool/supervisor.go:372-457 | a running loop can always be brought to a live device of a given tunnel, by the backoff or by an unforced rotation that finds it idle |
| Supervisor.StreamingSupervisor.BuildDevice | internal/application/tunnelpool/supervisor.go:545-564 | one attempt, a fresh device exactly on success |
| Supervisor.StreamingSupervisor.Teardown | internal/application/tunnelpool/supervisor.go:579-594 | closes the device if there is one and clears the fields |
| Supervisor.StreamingSupervisor.Start | internal/application/tunnelpool/supervisor.go:343-363 | starts the loop in the state machine's initial state whether or not the first build succeeds |
| Supervisor.StreamingSupervisor.HandleRotate | internal/application/tunnelpool/supervisor.go:478-541 | refines the rotation step on all of its paths, the two busy checks included |
| Supervisor.StreamingSupervisor.Iterate | internal/application/tunnelpool/supervisor.go:375-456 | one pass of the loop refines one step |
| Supervisor.StreamingSupervisor.Loop | internal/application/tunnelpool/supervisor.go:372-457 | the loop over any feasible script ends in the state machine's final state |
| RotationGate.SessionStep | internal/application/proxy.go:222-230 | a session's own step keeps it safe and moves the gauge by exactly what it owes |
| RotationGate.HoldersOwe | internal/application/tunnelpool/supervisor.go:484-489 | a gauge of zero means no session holds a device |
| RotationGate.StepInv | internal/application/tunnelpool/supervisor.go:478-502 | every atomic step of any session or of the loop keeps the gate's invariant |
| RotationGate.IdleRotationSparesSessions | internal/application/tunnelpool/supervisor.go:478-502 | in every interleaving, no device a session has read or uses was or is about to be closed by a non-forced rotation; no session reads a closed device; the gauge counts the sessions not yet counted off, each counted off exactly once |
| RotationGate.UnforcedProceedsExactly | internal/application/tunnelpool/supervisor.go:484-489 | in every run a rotation passes the check under its lock if and only if it is forced or no session is counted; otherwise nothing changes |
| RotationGate.SessionHolds | internal/application/proxy.go:222-230 | reading takes the live device, dialing and handing off keep it, closing lets go |
| RotationGate.RotationCloses | internal/application/tunnelpool/supervisor.go:478-532 | from any wait on a live device no one is reading, a rotation that is forced or finds no session counted closes it and can bring up the next |
| RotationGate.ForcedRotationDropsSessions | internal/application/tunnelpool/supervisor.go:479-489 | a run in which a forced rotation closes a device in use, so the result needs the gate |
| TunnelDrain.WakeupKept | internal/application/proxy.go:298-308 | a tunnel's step keeps a pending wake-up pending until it closes the channel |
| TunnelDrain.StepInv | internal/application/proxy.go:363-384 | every atomic step of tunnels and waiters keeps the drain invariant |
| TunnelDrain.NoLostWakeup | internal/application/proxy.go:363-384 | in every interleaving a waiter blocked on an unclosed channel holds the current one while a tunnel runs or a closer is under way; after draining every blocked waiter can wake; no channel is closed twice; the count is the running tunnels |
| TunnelDrain.NilSawZero | internal/application/proxy.go:363-384 | a nil return means the count was zero at a moment when that caller was checking it |
| TunnelDrain.ErrExactly | internal/application/proxy.go:378-382 | in every run a caller has returned an error if and only if its context expired |
| TunnelDrain.ErrSawExpiry | internal/application/proxy.go:378-382 | that happened while the caller was blocked |
| TunnelDrain.CloserSawZero | internal/application/proxy.go:300-307 | a goroutine that is to close the channel took the count to zero by its own exit |
| TunnelDrain.DrainedCallersReturn | internal/application/proxy.go:363-384 | once drained, without a new tunnel or an expiry, each own step brings a caller one nearer to nil, it has returned nil after exactly as many as were left (two from blocked), and its next step is open to it but for the mutex |
| JobRecord.StoredReadsTruncated | internal/application/asyncjob/record.go:54-117 | storing and reading back keeps every field up to whole-second truncation, which is idempotent; exactly the known statuses can be stored |
| JobStore.Collect | internal/application/asyncjob/store.go:177-192 | collects each matching key once, or stops if some record does not decode |
| JobStore.WriteBack | internal/application/asyncjob/store.go:194-216 | rewrites each collected entry once and no other, or fails exactly when one cannot be rewritten |
| JobStore.TransitionTx | internal/application/asyncjob/store.go:172-223 | succeeds exactly when all records decode and all matches can be stored, and is then the pointwise update with the match count |
| JobStore.DeleteTx | internal/application/asyncjob/store.go:229-264 | succeeds exactly when all records decode, and then removes exactly the matches and counts them |
| JobStore.BatchTouchesMatches | internal/application/asyncjob/store.go:172-264 | a batch maps matches through mutate and truncation and leaves every other entry alone |
| JobStore.GetSeesWrites | internal/application/asyncjob/store.go:94-129 | a Get after a write, a batch transition or a batch delete: written records read back truncated, deleted ones as absent, every other tag as before |
| JobStore.Store.Put | internal/application/asyncjob/store.go:121-129 | writes the one entry, or fails and changes nothing |
| JobStore.Store.CompareAndSwapStatus | internal/application/asyncjob/store.go:136-165 | replaces the record exactly when present with the expected status; not found, mismatch and undecodable are each reported exactly when so, and an error changes nothing |
| JobStore.Store.BatchTransition | internal/application/asyncjob/store.go:172-223 | the pointwise update, or an error and an unchanged store |
| JobStore.Store.BatchDelete | internal/application/asyncjob/store.go:229-264 | removes exactly the matches, or an error and an unchanged store |
| JobGc.PassOnce | internal/application/asyncjob/gc.go:85-127 | three batches in order at one time, each independently failing, with their counts |
| JobGc.RunRecovery | internal/application/asyncjob/recovery.go:22-39 | drops exactly the pending records and counts them, or fails and changes nothing |
| JobGc.DropsPending | internal/application/asyncjob/recovery.go:27-31 | what remains are the non-pending records unchanged, and the count is the difference |
| JobGc.OneStageExactly | internal/application/asyncjob/gc.go:76-120 | a pass applies at most one transition to a record if and only if the sub-second part of now does not exceed the TTL of the stage the record enters |
| JobGc.SecondTTLsAreOneStage | internal/application/asyncjob/gc.go:76-120 | with both TTLs at least a second (less a nanosecond) every pass is one-stage for every stored content |
| JobGc.ShorterTTLSkips | internal/application/asyncjob/gc.go:76-80 | for every configuration with a shorter TTL there is a record that skips a stage |
| JobLifecycle.StepSlots | internal/application/asyncjob/pool.go:95-131 | every step keeps occupied slots equal to the jobs past their claim and within the limit, and changes them by what its own job held and holds |
| JobLifecycle.StepRecords | internal/application/asyncjob/gc.go:88-120 | every step keeps each record with a history, and on a well-shaped store every record, well shaped and in agreement with its history |
| JobLifecycle.TimeoutEntry | internal/application/asyncjob/gc.go:88-98 | the timeout batch acts exactly on pending records older than the timeout and stores no response |
| JobLifecycle.TombstoneEntry | internal/application/asyncjob/gc.go:100-113 | the tombstone batch acts exactly on finished records older than the TTL, strips the response and sets the eviction time |
| JobLifecycle.DeleteEntry | internal/application/asyncjob/gc.go:115-120 | the delete batch acts exactly on tombstones older than the TTL |
| JobTheorems.LifecycleSafety | internal/application/asyncjob/pool.go:158-208 | with serialised submissions, on every store, records only move pending to completed, failed or failed_timeout, to tombstone, to absent; they leave pending once; a swap that comes late changes nothing; on a well-shaped store a response is stored iff completed or failed and an eviction time iff tombstone |
| JobTheorems.LifecycleExactly | internal/application/asyncjob/pool.go:88-118 | for every state, a step keeps the lifecycle order if and only if it is not a write over a readable record that is no longer pending |
| JobTheorems.SlotConservation | internal/application/asyncjob/pool.go:83-133 | in every run slots equal the jobs holding one and never exceed the limit; a step takes a slot only by claiming and returns one only by giving up or releasing, which ends the job; a full queue, a failed drain and a failed write leave store and history unchanged, the latter two keeping the slot and able to return it |
| JobTheorems.OneStagePerPass | internal/application/asyncjob/gc.go:85-120 | for every store content and every interleaving, overlapping submissions included: with TTLs of at least a second less a nanosecond, no batch acts on a record an earlier batch of the same pass acted on, whichever batches fail |
| JobTheorems.MovedExactly | internal/application/asyncjob/gc.go:85-120 | the tags a pass is said to have acted on are those whose status its batches changed |
| JobTheorems.HistoryTold | internal/application/asyncjob/pool.go:117-194 | every record this process wrote has a history until it is gone, and each step adds to it exactly what happened |
| JobTheorems.TagReuseBound | internal/application/asyncjob/gc.go:85-120 | for every store and every interleaving, a tag becomes absent only by a GC pass, more than completeTTL + tombstoneTTL - 2s after it left pending (- 1s for whole-second completeTTL) and more than pendingTimeout + completeTTL + tombstoneTTL - 3s after its stamp when timed out |
| JobTheorems.WholeSeconds | internal/application/asyncjob/record.go:107-116 | a whole-second TTL loses one fraction to truncation, not two |
| JobOwnership.SwapHitsOwnRecord | internal/application/asyncjob/pool.go:189-194 | if every earlier report and this one come before the earliest reuse of their tags, the worker still holds the record of its own submission |
| JobOwnership.WholeSecondReuse | internal/application/asyncjob/gc.go:85-120 | for whole-second TTLs the earliest reuse is their sum after the stored stamp |
| JobOwnership.ShippedReuse | internal/application/asyncjob/defaults.go:10-20 | for the shipped TTLs it is 25 hours and 5 minutes after the stored stamp |
| JobOwnership.RunSole | internal/application/asyncjob/pool.go:95-99 | with one slot, no other submission can put a record under the tag of a worker still running |
| JobOutcomes.AnswersAreStable | internal/application/asyncjob/pool.go:258-275 | with serialised submissions, on every store, a fetch moves from pending to a response that never changes, to gone; it answers what the record's history says: what the winner reported, the empty response if the GC timed it out |
| JobOutcomes.WinnerAnswers | internal/application/asyncjob/pool.go:158-194 | a winning swap stores completed with the reported response, or failed with 502 "upstream error", and the tag answers so |
| JobOutcomes.WinnerIsAnswered | internal/application/asyncjob/pool.go:158-208 | in every run with serialised submissions, once a worker has won its tag answers exactly what that worker reported until it answers gone |
| JobOutcomes.AnswersExactly | internal/application/asyncjob/pool.go:88-118 | for every state, a step takes no answer back if and only if it is not a write over a tag that answers other than pending |
| JobRaces.OverlapReopensRecord | internal/application/asyncjob/pool.go:88-118 | for every configuration with two slots, a run with overlapping submissions that takes a completed record back to pending |
| JobRaces.SubmissionGoesThrough | internal/application/asyncjob/pool.go:83-133 | from any state of any run, a submission that finds no record and a free slot can go through: its client is told what the worker reported, and the slot is free again |
| JobRaces.LateWorkerCompletesLaterRecord | internal/application/asyncjob/pool.go:189-194 | for every schedule of timeout, burial and deletion the TTLs allow, an orderly run in which the worker then completes a later submission's record |
| JobRaces.NotBeforeReuse | internal/application/asyncjob/pool.go:189-194 | a swap in an orderly run that completes a later submission's record implies two slots and a time no sooner than the earliest reuse, for every configuration |
| JobRaces.LateSwapExactly | internal/application/asyncjob/pool.go:189-194 | an orderly run in which a swap at a given time completes a later submission's record exists if and only if there are two slots and that time is no sooner than the earliest reuse of the tag |
| WgText.SplitJoin | cmd/generatevpnconfig/main.go:902-941 | splitting what was joined from newline-free lines gives the lines back |
| WgText.JoinSplit | cmd/generatevpnconfig/main.go:902-941 | joining what was split gives the text back |
| WgReading.SettingLine | internal/infrastructure/wireguard/wgconf/wgconf.go:132-156 | a printed setting is read under its lower-cased key with its value cut at '#' and trimmed, for every value |
| WgConf.ReadsWithoutCR | internal/infrastructure/wireguard/wgconf/wgconf.go:129-139 | the carriage return the scanner drops changes no reading |
| WgConf.SkippedHaveNoName | internal/infrastructure/wireguard/wgconf/wgconf.go:187-212 | a key skipped in any section is one no section knows |
| WgConf.AsciiTooLong | internal/infrastructure/wireguard/wgconf/wgconf.go:162-164 | a line of ASCII ends the scan with an error exactly from 65536 characters on |
| WgMeaning.NamesSpelled | internal/infrastructure/wireguard/wgconf/wgconf.go:214-275 | each known key is spelled in one way |
| WgMeaning.ListExactly | internal/infrastructure/wireguard/wgconf/wgconf.go:338-370 | a list parses exactly if all its parts that are not blank do, and then to them in order |
| WgMeaning.FaultsDecide | internal/infrastructure/wireguard/wgconf/wgconf.go:126-212 | over every sequence of lines the first refused line decides the error, and without one there is none |
| WgMeaning.LinesSay | internal/infrastructure/wireguard/wgconf/wgconf.go:126-275 | without an error the fields are those before, updated by what the lines say key by key |
| WgMeaning.SaidKeyByKey | internal/infrastructure/wireguard/wgconf/wgconf.go:187-275 | what lines say is, for a scalar key, the last value in its own section and, for a list key, all values in order |
| WgMeaning.ParseMeans | internal/infrastructure/wireguard/wgconf/wgconf.go:126-336 | for every body the parse is exactly its meaning: the last PrivateKey, MTU, PublicKey, Endpoint, PersistentKeepalive and PresharedKey of their sections, all Address, DNS and AllowedIPs lists in order, the defaults, the first refused line or the first missing key |
| WgConf.Parser.OnSection | internal/infrastructure/wireguard/wgconf/wgconf.go:169-185 | refines the section step, with its errors |
| WgConf.Parser.OnInterfaceKey | internal/infrastructure/wireguard/wgconf/wgconf.go:214-244 | refines the [Interface] step, with its errors |
| WgConf.Parser.OnPeerKey | internal/infrastructure/wireguard/wgconf/wgconf.go:246-275 | refines the [Peer] step, with its errors |
| WgConf.Parser.OnKey | internal/infrastructure/wireguard/wgconf/wgconf.go:187-212 | refines the dispatch by section |
| WgConf.Parser.OnLine | internal/infrastructure/wireguard/wgconf/wgconf.go:129-160 | refines the step of one line |
| WgConf.Parser.Finish | internal/infrastructure/wireguard/wgconf/wgconf.go:277-336 | required fields and defaults |
| WgConf.Parser.Run | internal/infrastructure/wireguard/wgconf/wgconf.go:126-167 | the scan loop computes the parse of the whole body |
| KeyInjection.ExtractInterfacePrivateKey | cmd/generatevpnconfig/main.go:835-855 | returns the value of the first PrivateKey line of an [Interface] section, or nothing |
| KeyInjection.InjectPrivateKey | cmd/generatevpnconfig/main.go:901-942 | rewrites the first such line or inserts one after the last [Interface] header |
| KeyInjection.ReplaceFirst | cmd/generatevpnconfig/main.go:901-930 | the scan rewrites the first target in place and finds the last header |
| KeyInjection.ScanLine | cmd/generatevpnconfig/main.go:908-929 | what one line does to the section flag and the last header, and whether it is a target |
| KeyTheorems.InjectsUnderInterface | cmd/generatevpnconfig/main.go:932-934 | injection fails exactly for bodies without an [Interface] header |
| KeyTheorems.RekeyedShape | cmd/generatevpnconfig/main.go:901-942 | every other line is kept, in order |
| KeyTheorems.WrittenWhere | cmd/generatevpnconfig/main.go:901-942 | the key is written over the first [Interface] PrivateKey line or, without one, right after the last [Interface] header |
| KeyTheorems.InjectedKeyReadsBack | cmd/generatevpnconfig/main.go:835-942 | extract(inject(b, k)) = k |
| KeyTheorems.LastInjectionWins | cmd/generatevpnconfig/main.go:901-942 | inject(inject(b, k1), k2) = inject(b, k2) |
| KeyTheorems.KeyFree | internal/infrastructure/wireguard/wgconf/wgconf.go:126-228 | the parser never reads the key it holds |
| KeyTheorems.InsideSeen | internal/infrastructure/wireguard/wgconf/wgconf.go:169-185 | where the injector is inside [Interface], a parser without an error is too |
| KeyTheorems.InjectionPreservesFields | internal/infrastructure/wireguard/wgconf/wgconf.go:126-228 | parsing the injected lines fails as before or ends in the same fields but for the key |
| KeyTheorems.InjectedKeyParses | internal/infrastructure/wireguard/wgconf/wgconf.go:126-336 | if the injected body parses, it yields k if and only if no later [Interface] PrivateKey line sets another key and, when none sets one, k has no '#' |
| KeyTheorems.PlainBodyParsesToKey | internal/infrastructure/wireguard/wgconf/wgconf.go:126-336 | with exactly spelled, comment-free headers, at most one [Interface] PrivateKey line and no '#' in k, a parse that succeeds yields k |
| KeyTheorems.InjectionKeepsConfig | internal/infrastructure/wireguard/wgconf/wgconf.go:277-336 | a body that parses still parses to the same configuration but for the key, unless the key is blank to the parser or the line too long |
| KeyTheorems.FoldedHeaderRefused | cmd/generatevpnconfig/main.go:908-912 | with an [Interface] header in another case, injection succeeds and its result never parses |
| KeyTheorems.LowerCaseHeader | cmd/generatevpnconfig/main.go:908-912 | a lower-case header is such a one |
| ConfPrinter.PrintedParses | cmd/generatevpnconfig/main.go:506-518 | for all newline-free answers the printed file parses to exactly what the parser sees in each, errors in order |
| ConfPrinter.PrintedText | cmd/generatevpnconfig/main.go:506-518 | the printed text is these nine lines, each ended by a newline |
| ConfPrinter.CutServerDiffers | internal/infrastructure/wireguard/wgconf/wgconf.go:355-370 | a DNS answer with '#' or a comma is never read back as the address it was accepted as |
| ConfPrinter.RoundTrip | cmd/generatevpnconfig/main.go:506-518 | answers the prompts accept come back exactly, with MTU 1420, keepalive 25 and no preshared key, if and only if no key, endpoint or DNS answer holds '#', the DNS answer holds no comma and every line can be scanned |
| ConfPrinter.CommaInDnsRefused | cmd/generatevpnconfig/main.go:397-402 | a DNS answer the prompt accepts whole, such as fe80::1%a,b, but whose part after the comma is no address makes the printed file unparseable |

## Left out

- WireGuard devices, netstack, UAPI and DNS: foreign libraries; a build is a success or a failure and a close is an event whose error is ignored.
- ProxyService: modelled as interleaved atomic steps on values rather than as a class, because the results are about interleavings; HTTP round trips are one dial inside the session's count.
- Pool: `SubmitOrFetch` and `runWorker` are likewise atomic steps of the interleaved machine, not methods of a class.
- Dials by the notifier's exit-IP probe: they are not counted on the gauge in the code and are not sessions here.
- Rotate outcomes carry the tunnel id; the country label derived from it is not modelled.
- Health snapshots (`LiveHealth`), notifications and log lines: they do not feed back into the loops.
- Pool shutdown and `ErrPoolClosed`: a closed pool only refuses work.
- `Counts`: a read-only tally.
- bbolt files and JSON: only the field mapping, the status check and the truncation of the wire record are kept.
- IP, CIDR and integer parsing: abstract partial functions (`Net`), so the results hold for any of them.
- Text is a sequence of Unicode characters; invalid UTF-8 is not modelled. Case mapping is modelled as far as a comparison with an ASCII word can tell.
- Single-host check of the address prompt and normalisation of bare addresses: `ConfPrinter.Accepted` admits more answers than the prompts do.
- HTTP handlers, token auth, TLS, configuration loading, the forwarder's transport cache, zip reading, prompts and file writes.
- JobRaces.LateSwapExactly: requires non-negative TTLs; with a negative one a GC pass that began before a submission can already act on its record, and only the direction that no earlier swap can hit a later record is proved (`JobRaces.NotBeforeReuse`).
