# taas: the job protocol, its counters and its schedulers, in Dafny

taas is an OCR gateway. Its jobs live in Redis, several workers move them, and counters kept
beside the sets must agree with them. This project models that core and proves what it promises
over every input, every call order and every run. `dafny verify dfyconfig.toml` checks it all.

How the files fit together:

- `RedisKeys.dfy` says, key by key, what each state function of `redis_jobs.py` does to the Redis
  keys, and `StateFunctions.dfy` writes the same out function by function. `RedisStore.dfy` is the same module as a class whose methods run the source's commands in
  order, each proved to have that effect. `PendingQueue.dfy`, `Rebuild.dfy` and `LoadRebuild.dfy`
  do this for the peek and the two rebuilds.
- `Counters.dfy` gives every counter a view, the set of jobs it counts, and proves that calls
  change both by the same amount. `Ledger.dfy` and `BatchLedger.dfy` let other clients in between a
  set operation and the counter updates it gates, and keep an account of what is owed.
- `Protocol.dfy` is the step relation: any number of submit workers, the poller, dispatches that
  raise, crashes and the orphan sweep. `ProtocolRuns.dfy` holds what every run guarantees,
  `SweepRaces.dfy` what a sweep at the wrong moment does, `LostJobs.dfy` what a death inside a
  state function does, `SplitRuns.dfy` what holds when the protocol's counter updates are split off
  and delayed or lost, and `BatchRetries.dfy` what holds when batches are retried.
- `Allocate.dfy` and `AllocateProperties.dfy` are the greedy allocation of jobs to backends, and
  `AllocateMeaning.dfy` states it in pages, speeds, domains and avoid lists alone. `Budget.dfy` is one
  submit worker's tick with everyone else acting between its steps, on top of the protocol,
  `QuietTick.dfy` shows that an undisturbed tick wastes nothing, and `TierPlan.dfy` joins allocation
  and budget.
- `BatchFinish.dfy`, `RateLimit.dfy`, `Schedule.dfy`, `Scheduler.dfy` and `PollDrain.dfy` are the
  batch finish lock, the rate limiter, the box's up-hours and the poller's window of checks.

What the proofs found out about the code, beyond what it promises:

- promote_due_retries takes a job off jobs:delayed and adds it to its queue in two commands, and
  release_and_requeue sets a job back to queued and adds it to a queue in two. An orphan sweep in
  between re-adds the job if its last claim is older than the grace period; the job is then
  dispatched twice, and after the second dispatch the slot counters of the two backends are off by
  one (`PromotionRaceDispatchesTwice`, `RequeueRaceDispatchesTwice`). Both starting points are reached
  from an empty Redis (`StaleAndDelayed`, `StaleInFlight`). The cleanup worker sweeps the jobs whose
  Postgres row is queued, so the second race also needs a row that was left queued while its job ran,
  which the submit worker's dispatch allows. The sweep's docstring names only jobs of dead workers.
  At the granularity of these events `SweepSafeIff` is the exact condition for a sweep to be safe,
  and the protocol's runs assume it.
- A dispatch, a promotion or a requeue that raises leaves its job in no queue although its process
  lives on (`RaisingOrphans`), so crashes are not the only source of orphans.
- A worker that dies between set_running's HSET and its SADD, or a poller that dies between
  release_and_requeue's SREM and its HSET, leaves a job that is in no set, queue or memory and that
  no later event or sweep ever touches (`DyingInSetRunningLosesTheJob`,
  `DyingInReleaseLosesTheJob`, `LostForGood`).
- _release_batch deletes a batch entry in a second command, after the HINCRBY that emptied it. A
  page dispatched in between loses its count (`LateDeleteLosesAPage`). A settled run leaves an entry
  exact if and only if what its HDELs deleted of the entry adds up to zero (`SettledBatchExactIff`).
- After rebuild_backend_counters and the updates still outstanding, a backend's slot counter is off
  by the net amount that was owed to it when the script ran (`RebuildHoldsIff`): an outstanding
  dispatch and an outstanding release on one backend cancel. Inside a release it leaves the counter
  one too low (`RebuildInsideRelease`), and a backend goes over its max_inflight by no more than its
  counter was too low when read (`NeverOverBudgetBy`). The script leaves the batch entries of a
  backend that has neither a slot counter nor an in-flight job (`RebuildRestoresBatchesIff`).
- rebuild_load_counters misses the jobs between queues. The docstring says a count "can be off by
  one"; it is off by the number of such jobs, and stays so until the next rebuild even after they
  finish (`RebuiltLoadStaysShort`).
- The box scheduler can stop an engine without a full drain: a failed docker start opens the gate but
  keeps the old drain deadline; at the next window end writing the flag file creates it and then
  raises, as on a full disk, so the gate is closed under the old deadline; the next tick stops the
  engine at once. Over all runs the promise holds if and only if the schedule never goes down, up and
  down again with the drain in between (`PromiseHoldsIff`). If a write that raises creates no file, it
  also holds whenever the tunnel is left running (`CleanPromiseHoldsIff`). And it holds of every run,
  on any schedule, in which docker start does not fail (`SafeWhenStartsSucceed`).
- Reading the storing depth before the in-flight depth would lose a job from the dispatch budget
  (`StoringFirstMissesAJob`); the order the source uses never does.

Assumptions, each the guard of an event: job ids are fresh and backend ids are at least 1; hashes
do not expire; a live worker settles a claim within the grace period; the poller acts on a job that
is in flight, queued for harvest or finished, with its current state. Each Lua script, MULTI block
and state function is one step; promote_due_retries and release_and_requeue are two steps per job. A
process may die between steps, and `LostJobs.dfy` has what is lost inside one. Times and scores are
integers or reals.

## Model

| member | source | states |
|---|---|---|
| Counters.InflightChange | app/services/redis_jobs.py:353-388 | any call changes the number of in-flight jobs of a load field by exactly the load:inflight update it owes |
| Counters.QueuedChange | app/services/redis_jobs.py:604-641 | a call that finds the job in an expected status changes the number of queued jobs of a field by exactly the load:queued update it owes |
| Counters.SlotChange | app/services/redis_jobs.py:461-496 | a call on the current run changes the number of in-flight jobs naming a backend by exactly the slot update it owes |
| Counters.BatchChange | app/services/redis_jobs.py:816-824 | a call keeps a backend's entry for a batch equal to its in-flight pages, present exactly when there are any |
| Counters.PagesChange | app/services/redis_jobs.py:405-417 | a call changes done + failed of a batch by exactly the change in the number of its finished pages |
| Counters.LoadInflightKept | app/services/redis_jobs.py:583-601 | load:inflight stays exact for every field across any call with the job's own load field |
| Counters.LoadQueuedKept | app/services/redis_jobs.py:627-640 | load:queued stays exact for every field across any call that finds the job in an expected status |
| Counters.SlotsKept | app/services/redis_jobs.py:375-387 | every backend's slot counter stays exact |
| Counters.BatchesKept | app/services/redis_jobs.py:816-824 | every batch map stays exactly the positive counts, with no zero or negative entry |
| Counters.PagesKept | app/services/redis_jobs.py:405-417 | done + failed of every batch stays the number of its finished pages |
| Counters.LoadInflightAnyOrder | app/services/redis_jobs.py:184-203 | load:inflight is exact after any sequence of state functions, in any order, with any repeats |
| Counters.FinishedPageIsInert | app/services/redis_jobs.py:583-590 | release_done, set_done or set_failed on a finished page changes no counter |
| Counters.ReplayChangesNoCounter | app/services/redis_jobs.py:553-641 | any further sequence of those calls on a finished page changes no counter |
| Counters.PageCountedOnce | app/services/redis_jobs.py:405-417 | in any mix of those calls on an unfinished page the first that finishes it decides: a set_done adds one to done of its batch and nothing to failed, a set_failed the other way; the rest of the mix and a replay of it change no counter |
| Protocol.EventKeepsInv | app/services/redis_jobs.py:250-324 | every event of the protocol, a dispatch that raises and a promotion from a stale list among them, keeps the placement invariant: where each job may be, and that at most one worker or the poller holds it |
| Protocol.ClaimPlaces | app/services/redis_jobs.py:248-273 | a winning claim moves the job from its queue to the worker's hand and stamps the time; a losing one changes no key and no hand |
| Protocol.DispatchPlaces | app/workers/submit/worker.py:263-302 | set_running moves a job from the worker's hand to the in-flight set, on the given backend |
| Protocol.BouncePlaces | app/workers/submit/worker.py:224-261 | a dispatch that cannot start moves the job from the hand back to its own level, at its submit time |
| Protocol.RetryPlaces | app/workers/submit/worker.py:367-409 | a retried dispatch moves the job from the hand to jobs:delayed, due at the given time, and adds the backend to those it avoids |
| Protocol.FailDispatchPlaces | app/workers/submit/worker.py:411-450 | a failed dispatch takes the job out of the hand and leaves it failed |
| Protocol.PromotePlaces | app/services/redis_jobs.py:159-163 | the ZREM of a promotion, whatever the score, moves the job from jobs:delayed to the promoting worker |
| Protocol.FinishPromotePlaces | app/services/redis_jobs.py:165-170 | the ZADD of a promotion moves the job from its worker to its own level at its submit time |
| Protocol.SweepPlaces | app/services/redis_jobs.py:286-301 | when returns in progress are recent, a job the sweep re-adds was orphaned, and it is then on its own level at its submit time; otherwise nothing changes |
| Protocol.PollerPlaces | app/workers/poller/worker.py:590-652 | release_done moves an in-flight job to the harvest queue, set_done and set_failed leave a finished job in neither, reschedule_harvest only changes the time |
| Protocol.PollReleasePlaces | app/services/redis_jobs.py:667-689 | the first part of release_and_requeue moves the job from the in-flight set to the poller |
| Protocol.PollReturnPlaces | app/services/redis_jobs.py:691-694 | its second part moves the job from the poller to jobs:delayed, due at the given time and avoiding the given backend as well, or to its own level at its submit time |
| ProtocolRuns.RunIsPlacedAndExact | app/services/redis_jobs.py:353-694 | in every reachable state every job is placed and all five kinds of counter are exact, as long as no batch is retried |
| BatchRetries.RetriedRunIsExact | app/services/redis_jobs.py:395-417 | in every run with any number of init_batch calls every job is placed, the job counters are exact, done of a batch is its pages whose first final status was done and failed those whose first was failed, each less what its last init_batch left out |
| BatchRetries.EventCountsPages | app/services/redis_jobs.py:405-417 | every event changes done of a batch by its change in pages that first finished done, and failed by its change in pages that first finished failed |
| ProtocolRuns.ExactlyOnePlace | app/services/redis_jobs.py:250-324 | in every run from empty keys an unfinished job is in exactly one of: a queue, jobs:delayed, a hand, a promotion, a requeue, orphaned, in flight, harvest; a finished one is in none |
| ProtocolRuns.JobsAreNeverForgotten | app/services/redis_jobs.py:227-230 | no run forgets a job, its priority, submit time, load field or batch |
| ProtocolRuns.SubmitQueues | app/services/redis_jobs.py:190-201 | a submitted job's hash is the job submitted, and it is on its own level at its submit time |
| ProtocolRuns.KnownAsSubmitted | app/services/redis_jobs.py:227-230 | after any run that follows a submit the job has the submitted priority, submit time, load field and batch, and any queue entry of it is at that level and score |
| LostJobs.DyingInSetRunningLosesTheJob | app/services/redis_jobs.py:362-375 | from every state in which a dispatch is possible: a worker that dies after set_running's HSET leaves the job running in no set, queue or memory |
| LostJobs.DyingInReleaseLosesTheJob | app/services/redis_jobs.py:669-679 | from every state with a job in flight: a poller that dies after release_and_requeue's SREM leaves it so too |
| LostJobs.LostForGood | app/services/redis_jobs.py:286-301 | no run of events, and no sweep at any moment, changes that |
| ProtocolRuns.OrphansComeFromLosses | app/services/redis_jobs.py:304-311 | a job that was not orphaned becomes orphaned only by a restart of a worker or the poller, or by a dispatch, promotion or requeue that raised |
| ProtocolRuns.RaisingOrphans | app/workers/submit/worker.py:596-610 | a dispatch, promotion or requeue that raises orphans its job while the process lives on |
| ProtocolRuns.SweepRecoversOrphan | app/services/redis_jobs.py:286-301 | a sweep puts an orphan whose claim is at least the grace period old, or that has none, on its own level at its submit time |
| ProtocolRuns.SweepWaitsForGrace | app/services/redis_jobs.py:286-301 | a sweep changes nothing for a job claimed less than the grace period ago |
| ProtocolRuns.SweepReAddsOnly | app/services/redis_jobs.py:286-301 | whenever it runs, the sweep script re-adds only orphans and jobs between the two commands of a promotion or of the poller's requeue |
| ProtocolRuns.SweepSafeIff | app/services/redis_jobs.py:286-301 | a sweep at any moment keeps the placement invariant if and only if the job is not on its way back to a queue with a claim older than the grace period |
| SweepRaces.PromotionRaceDispatchesTwice | app/services/redis_jobs.py:159-170 | from every state with a delayed job whose claim is stale: a sweep inside one worker's promotion, after which both workers dispatch the job and the slot counters of the two backends are one too high and one too low |
| SweepRaces.RequeueRaceDispatchesTwice | app/services/redis_jobs.py:679-694 | the same from every state with an in-flight job whose claim is stale, with a sweep inside the poller's requeue |
| SweepRaces.StaleInFlight | app/services/redis_jobs.py:248-273 | from empty keys, any new job has a run that leaves it in flight with a stale claim |
| SweepRaces.StaleAndDelayed | app/services/redis_jobs.py:117-143 | from empty keys, any new job has a run that leaves it delayed with a stale claim |
| ProtocolRuns.NeverDispatchedTwice | app/services/redis_jobs.py:248-273 | between two dispatches of a job, by any workers, the poller released it for requeue |
| StateFunctions.EnqueueDoes | app/services/redis_jobs.py:190-201 | enqueue_jobs on every key: the hash is the state given, the queue entry its priority and submit time |
| StateFunctions.ClaimDoes | app/services/redis_jobs.py:250-255 | a claim on every key: off its queue, and if it was there claimed_at is now |
| StateFunctions.SweepDoes | app/services/redis_jobs.py:289-301 | the sweep script on every key, with its five tests written out |
| StateFunctions.RetryDoes | app/services/redis_jobs.py:117-143 | schedule_retry on every key: score, the avoid list with one backend added, the due time |
| StateFunctions.TakeDelayedDoes | app/services/redis_jobs.py:159-163 | the ZREM of a promotion on every key |
| StateFunctions.AddPendingDoes | app/services/redis_jobs.py:106-114 | _add_pending on every key |
| StateFunctions.SetRunningDoes | app/services/redis_jobs.py:353-388 | set_running on every key, its counters gated on the SADD |
| StateFunctions.ReleaseDoneDoes | app/services/redis_jobs.py:441-459 | release_done's script on every key, gated on the SREM, by the caller's state |
| StateFunctions.SetDoneDoes | app/services/redis_jobs.py:553-601 | set_done on every key: done of an unfinished page's batch and not failed |
| StateFunctions.SetFailedDoes | app/services/redis_jobs.py:604-641 | set_failed on every key: failed of an unfinished page's batch and not done |
| StateFunctions.ReleaseDoes | app/services/redis_jobs.py:667-689 | the release half of release_and_requeue on every key |
| StateFunctions.RescheduleHarvestDoes | app/services/redis_jobs.py:529-534 | reschedule_harvest on every key |
| RedisStore.Redis.EnqueueJobs | app/services/redis_jobs.py:184-203 | has the effect of enqueueing each job in turn; each job's last listed state is then its hash, and the job is on that state's level at its submit time |
| RedisStore.Redis.RequeueJob | app/services/redis_jobs.py:644-646 | adds the job at its own level, or level 0 without a state |
| RedisStore.Redis.ClaimPending | app/services/redis_jobs.py:248-273 | claims exactly the readable jobs whose entries were still queued, and takes every listed entry off its queue |
| RedisStore.Redis.RequeueOrphans | app/services/redis_jobs.py:304-324 | has the effect of sweeping each job in turn, returns exactly the listed jobs that were to be swept, and leaves exactly the unlisted ones to sweep |
| RedisStore.Redis.ScheduleRetryOf | app/services/redis_jobs.py:117-143 | records score and avoided backend on the hash and puts the job on jobs:delayed |
| RedisStore.Redis.PromoteDueRetries | app/services/redis_jobs.py:146-171 | leaves on jobs:delayed exactly the jobs due later than now, adds exactly the readable ones among the others, each on its own level at its recorded score, registers exactly their levels and returns their number; it is the two calls of each promotion in turn |
| RedisStore.Redis.SetRunningOn | app/services/redis_jobs.py:353-388 | has exactly the specified effect on every key, gated on the SADD |
| RedisStore.Redis.ReleaseDoneOf | app/services/redis_jobs.py:441-496 | has exactly the specified effect on every key, and none at all when the job had left already |
| RedisStore.Redis.SetDoneOf | app/services/redis_jobs.py:553-601 | has exactly the specified effect on every key, re-reading the hash of a batch page, and counts an unfinished page once in done of the batch it returns |
| RedisStore.Redis.SetFailedOf | app/services/redis_jobs.py:604-641 | has exactly the specified effect on every key, for queued and for in-flight jobs, and counts an unfinished page once in failed of the batch it returns |
| RedisStore.Redis.ReleaseAndRequeueOf | app/services/redis_jobs.py:649-694 | is the specified release on every key followed by schedule_retry or _add_pending, with and without a delay |
| RedisStore.Redis.RescheduleHarvestOf | app/services/redis_jobs.py:529-534 | moves the job's next harvest to the given time |
| RedisStore.Redis.RebuildBackendCounters | app/services/redis_jobs.py:775-786 | rebuilds the slot counters and batch maps, and returns the number of backends that were off |
| RedisStore.Redis.RebuildLoad | app/services/redis_jobs.py:697-741 | replaces both load counters by the recount of the queues and the in-flight set |
| PendingQueue.ZRange | app/services/redis_jobs.py:236-240 | returns the first n entries of one level, oldest first |
| PendingQueue.PeekPending | app/services/redis_jobs.py:227-244 | returns the first n queued entries: higher priority before lower and older before younger, none left out that would come before one returned, and all of them if there are fewer than n; level 0 when no level is registered |
| PendingQueue.PeekSeesEveryPendingJob | app/services/redis_jobs.py:206-214 | in every placed state the visited levels hold every queued entry, ranked by the priority and submit time of its job however often it was retried or requeued |
| Rebuild.CountInflight | app/services/redis_jobs.py:747-758 | counts each backend's in-flight jobs and batch pages exactly |
| Rebuild.WriteCounts | app/services/redis_jobs.py:762-771 | writes every counted backend's slots and batch map, leaves the others, and counts those that were off |
| Rebuild.RebuildCounters | app/services/redis_jobs.py:747-772 | every visited backend's counter and batch map become the true counts, and the result is the number that were off |
| Rebuild.RebuildRestoresSlotsIff | app/services/redis_jobs.py:775-786 | from any drift the slot counters come out exact if and only if no unvisited backend has a non-zero counter |
| Rebuild.RebuildRestoresBatchesIff | app/services/redis_jobs.py:762-771 | from any drift the batch maps come out exact if and only if every backend with a batch entry is visited |
| Rebuild.RebuildOfExactIsIdle | app/services/redis_jobs.py:775-786 | exact counters are left as they were and none is reported |
| LoadRebuild.ListQueued | app/services/redis_jobs.py:706-713 | lists each job once per registered level that holds it, and once if delayed |
| LoadRebuild.Count | app/services/redis_jobs.py:716-727 | counts the listed jobs that have a readable state, per load field |
| LoadRebuild.RebuiltLoad | app/services/redis_jobs.py:697-741 | in a placed state load:inflight comes out exact and load:queued short by the queued jobs in no queue |
| LoadRebuild.LoadRebuildExactIff | app/services/redis_jobs.py:697-705 | load:queued comes out exact if and only if no queued job is between queues |
| LoadRebuild.RebuiltLoadStaysShort | app/services/redis_jobs.py:697-705 | along every further run load:queued stays short by exactly the jobs that were between queues at the rebuild |
| Ledger.BeginKeepsGaps | app/services/redis_jobs.py:375-387 | a set operation and the debt it leaves keep every gap between a slot or load counter and its view |
| Ledger.PaymentKeepsGaps | app/services/redis_jobs.py:583-601 | paying a slot, load or batch update, or deleting a batch entry, keeps the slot and load gaps |
| Ledger.PayingSettles | app/services/redis_jobs.py:583-601 | paying its slot and its load adds exactly what a call owed to the counters and settles that call's debt and no other |
| Ledger.PayingSettlesThePage | app/services/redis_jobs.py:816-824 | its HINCRBY adds the page, and exactly a release that left nothing goes on to an HDEL, after which nothing is owed |
| Ledger.StepDrift | app/services/redis_jobs.py:747-786 | every step changes a backend's gap by exactly its drift: a crash by the lost debt, a rebuild by what it could not see |
| Ledger.SettledRunIsExact | app/services/redis_jobs.py:353-694 | however calls and counter updates interleave, the slot and load counters are exact once every debt is paid |
| Ledger.RebuildHoldsIff | app/services/redis_jobs.py:744-786 | after a rebuild and the outstanding updates a slot counter is off by the net amount owed to it at the rebuild, so exact if and only if that is zero |
| Ledger.RebuildInsideDispatch | app/services/redis_jobs.py:375-387 | from any exact state, a rebuild between a dispatch's SADD and its INCR leaves the counter one too high |
| Ledger.RebuildInsideRelease | app/services/redis_jobs.py:627-639 | from any exact state, a rebuild between a release's SREM and its DECR leaves the counter one too low |
| Ledger.SettledRunIsShortByLost | app/services/redis_jobs.py:353-694 | with processes dying anywhere, once nothing is owed any more each slot and load counter is short by exactly the updates that were lost |
| BatchLedger.UnsplitBatches | app/services/redis_jobs.py:816-824 | the HINCRBY and the HDEL in one go are the specified batch update of every state function |
| BatchLedger.StepWidensByDropped | app/services/redis_jobs.py:816-824 | a call and its updates keep the gap between a batch entry and its in-flight pages, and an HDEL widens it by exactly what it deletes |
| BatchLedger.SettledBatchExactIff | app/services/redis_jobs.py:816-824 | once every debt is paid a batch entry is short by what the run's HDELs deleted of it, and exact, with no zero entry, if and only if that is zero |
| BatchLedger.CleanRunIsExact | app/services/redis_jobs.py:816-824 | when every HDEL finds its entry at zero, all batch maps are exact once settled |
| BatchLedger.LateDeleteLosesAPage | app/services/redis_jobs.py:822-824 | from any exact state with one page of a batch on a backend and another about to be dispatched there: HINCRBY -1, the other page's HINCRBY +1, HDEL leaves an in-flight page with no entry |
| BatchLedger.RebuiltBatchIsOffBy | app/services/redis_jobs.py:747-772 | after a rebuild of an entry and the outstanding updates it is off by what was owed at the rebuild less what HDELs deleted since |
| SplitRuns.SplitRunSettles | app/services/redis_jobs.py:353-694 | every protocol run from empty keys with its counter updates split, delayed or lost places every job, and once nothing is owed its slot and load counters are short by exactly what was lost |
| SplitRuns.SplitRunSettlesExact | app/services/redis_jobs.py:353-694 | with nothing lost they are exact |
| SplitRuns.SplitRunBatchExactIff | app/services/redis_jobs.py:816-824 | with nothing lost a batch entry of such a run is exact if and only if the HDELs deleted nothing of it on balance |
| Allocate.Pick | app/workers/submit/steps.py:83-102 | chooses a slot if and only if some candidate exists, by the rules: serving, free, avoided only if all serving are, affine within tolerance first, ties by rotation |
| Allocate.PoolOf | app/workers/submit/steps.py:91-99 | the pool is the fastest near-best slots running the job's batch, or the fastest candidates if there are none |
| Allocate.AllocateScored | app/workers/submit/steps.py:61-108 | each job's outcome is right when its turn comes, and the slots end as the placements leave them |
| AllocateProperties.SlotsAccountForPlacements | app/workers/submit/steps.py:103-106 | each slot's free capacity, assigned count and batch pages change by exactly the jobs it was given, and nothing else of it changes |
| AllocateProperties.PlacedInQueueOrder | app/workers/submit/steps.py:82-107 | jobs are placed at most once and in queue order |
| AllocateProperties.PlacedWhereServed | app/workers/submit/steps.py:83-89 | a job goes to a backend that serves it and has room, and to an avoided one only if every serving one is avoided |
| AllocateProperties.NeverOverfull | app/workers/submit/steps.py:103-103 | no slot is given more than its free capacity |
| AllocateMeaning.PlacedNearTheBest | app/workers/submit/steps.py:91-99 | a job goes to a backend that serves its domain and outputs, has room and is avoided only if all serving ones are; pages ahead times speed times megapixels over parallel slots is there within (1 + tolerance) of every other such backend, and more than on another only if it alone of the two runs the job's batch |
| AllocateMeaning.BatchBackendWins | app/workers/submit/steps.py:94-97 | a backend that runs the job's batch and is within the tolerance of every open one wins: the job goes to one that runs its batch, at least as fast |
| AllocateMeaning.TiesGoRound | app/workers/submit/steps.py:100-102 | of the open backends that tie on time and agree on the batch, the first one going round from the slot after the last placement gets the job |
| AllocateMeaning.LeftOutOnlyWhenNoneIsOpen | app/workers/submit/steps.py:84-90 | a job left out has no backend that serves it, has room and may be used, even when the whole burst is placed |
| AllocateProperties.LeftOutOnlyWhenFull | app/workers/submit/steps.py:84-90 | a job left out has no candidate even when the whole burst is placed |
| AllocateProperties.AllocationIsUnique | app/workers/submit/steps.py:61-108 | the rules decide the whole allocation: two allocations of one burst are equal |
| AllocateProperties.EqualBackendsTakeTurns | app/workers/submit/steps.py:101-102 | identical backends are dealt the burst strictly in turns, job k to slot k mod n |
| AllocateProperties.EqualBackendsShareEvenly | app/workers/submit/steps.py:53-58 | the numbers of jobs identical backends get differ by at most one |
| TierPlan.AllocationFits | app/workers/submit/worker.py:501-512 | an allocation of no more jobs than the budget fits the budget and every backend's free slots |
| TierPlan.PlanIsThePlacements | app/workers/submit/worker.py:583-590 | the plan sends exactly the placed jobs, each to the backend of its slot |
| TierPlan.TierStopsForAReason | app/workers/submit/worker.py:501-512 | a tier stops because the budget is used up, every slot of it is, every pending job is placed, or the jobs left have no backend of it open to them |
| Budget.UnstoredChange | app/workers/poller/worker.py:607-633 | only a dispatch adds to in-flight plus storing jobs; every other event keeps or lowers it |
| Budget.BackendChange | app/services/redis_jobs.py:353-388 | only a dispatch to a backend adds to its in-flight jobs |
| Budget.CreditChange | app/workers/submit/worker.py:569-611 | a dispatch uses up one credit of the tick and one of its backend; no event adds any |
| Budget.StepKeepsLimits | app/workers/submit/worker.py:487-512 | every step of the tick, every event between its steps and every change of the slot counters keeps jobs plus credits within the limits and the slack of the counters read |
| Budget.NeverOverBudgetBy | app/workers/submit/worker.py:487-611 | however the slot counters are rebuilt or drift, in every reachable state in-flight plus storing jobs are within unstored_job_max, and a backend is over its max_inflight by no more than its counter was too low when read |
| Budget.NeverOverBudget | app/workers/submit/worker.py:487-611 | when only the state functions change the counters, in every reachable state no backend is above its max_inflight and in-flight plus storing jobs are within unstored_job_max |
| QuietTick.QuietReads | app/workers/submit/worker.py:521-567 | an undisturbed tick reads exactly what is left of unstored_job_max and of each max_inflight, and rests only at the limit |
| QuietTick.TickWastesNothing | app/workers/submit/worker.py:487-512 | to the end of such a tick in flight plus storing plus its budget is exactly unstored_job_max, and each backend's jobs plus its free slots exactly max_inflight if every planned job was claimed, or what was above that already; a planned job found gone gives its dispatch back |
| QuietTick.OneMoreDispatch | app/workers/submit/worker.py:569-611 | while budget and a free slot remain a queued job can be dispatched, and takes one of each |
| Budget.InflightFirstMissesNothing | app/services/redis_jobs.py:520-526 | whatever happens between the two reads, in flight first then storing counts every unstored job |
| Budget.StoringFirstMissesAJob | app/services/redis_jobs.py:520-526 | in the other order, from any state with a job in flight, a job that finishes in between is in neither count |
| BatchFinish.EventKeepsInv | app/services/batch_store.py:92-115 | every step of every transaction keeps the batch finished exactly when no committed page is active, with one lock holder |
| BatchFinish.FinishedExactlyWhenDone | app/services/batch_store.py:105-115 | from a batch with active pages, for any number of transactions and any interleaving, with aborts and retries that reopen the batch, the committed batch is finished if and only if no committed page is active |
| BatchFinish.UntouchedPageStays | app/services/batch_store.py:92-115 | along every run a page that nobody makes terminal or reopens is active at the end exactly if it was at the start |
| BatchFinish.ReopenedPageStaysActive | app/routers/batches.py:548-567 | along every run a page a retry submits stays active until somebody makes it terminal |
| BatchFinish.PageByPage | app/services/batch_store.py:105-115 | a transaction for one page takes exactly that page off the active ones, and finishes the batch if and only if it was the last |
| BatchFinish.SomeoneCanMove | app/services/batch_store.py:92-92 | while transactions are live one of them can lock, check or commit |
| BatchFinish.WithoutLockTheBatchStalls | app/services/batch_store.py:105-112 | without the lock two transactions finishing the last two pages can leave the batch unfinished |
| BatchFinish.SafetyNetFinishes | app/services/batch_store.py:118-134 | finish_stalled makes such a batch consistent again |
| RateLimit.Limiter.Script | app/services/rate_limit.py:15-29 | allows by the TAT read from the key, moves it by one interval only when allowed, and then keeps the key one to two seconds longer than tau + T; a denial leaves the key |
| RateLimit.Limiter.Check | app/services/rate_limit.py:44-65 | a non-positive rate denies for 60 seconds without touching the key; otherwise a request is allowed if and only if the TAT is at most max(burst, 0) times 60 / per_minute seconds ahead |
| RateLimit.AllowedTakesAnInterval | app/services/rate_limit.py:55-56 | an allowed request moves the TAT, or now if that is later, by 60 / per_minute seconds |
| RateLimit.ExpiryIsInvisible | app/services/rate_limit.py:20-27 | on every request history, with the limit changing between requests, the expiring key decides exactly as one that never expires |
| RateLimit.WindowBound | app/services/rate_limit.py:15-29 | any window of W seconds of any non-decreasing history at one limit, from any TAT, allows at most max(burst, 0) + 1 + floor(W per_minute / 60) requests |
| RateLimit.LimiterWindowBound | app/services/rate_limit.py:15-29 | the same of the limiter whose key expires |
| RateLimit.InstantBurst | app/services/rate_limit.py:50-50 | from an unused key exactly max(burst, 0) + 1 requests at one instant are allowed |
| RateLimit.SpacedRequestsPass | app/services/rate_limit.py:50-50 | from an unused key a client that leaves 60 / per_minute seconds between its requests is never denied |
| RateLimit.RetryAfterIsExact | app/services/rate_limit.py:24-26 | after a denial, a retry with nothing allowed in between is allowed if and only if it comes at or after retry_after |
| RateLimit.DeniedUntilRetryAfter | app/services/rate_limit.py:24-26 | any number of retries before retry_after are denied and change no key, and a retry from then on is allowed |
| Schedule.IsUp | deploy/box/scheduler/schedule.py:166-181 | up exactly when the minute of the week lies, modulo 10080, in some listed day's interval, wrapping windows ending a day later |
| Schedule.DayRange | deploy/box/scheduler/schedule.py:129-131 | a range of days is the days met going from first to last, through Sunday if needed |
| Schedule.PlanTick | deploy/box/scheduler/schedule.py:219-249 | nothing is planned exactly when the box matches the schedule, start exactly when up and it does not; out of window a running engine with a drain is closed without a deadline, waits before it and is stopped from it on; close_stop exactly without a drain or with an open gate and no engine |
| Scheduler.Reconciler.Run | deploy/box/scheduler/schedule.py:377-398 | a tick, with any docker or file call failing and a failing write creating the flag or not, leaves the box and the deadline as specified, and records the planned action unless it could not look or found nothing to start |
| Scheduler.Reconciler.StartBox | deploy/box/scheduler/schedule.py:416-433 | opens the gate before docker start, and forgets the deadline only if that succeeds |
| Scheduler.Reconciler.WriteFlag | deploy/box/scheduler/schedule.py:264-266 | the gate is closed after a write that succeeds, and after one that raises if it created the flag |
| Scheduler.Reconciler.CloseGate | deploy/box/scheduler/schedule.py:435-441 | sets the drain deadline only if the write succeeds; the gate may be closed all the same |
| Scheduler.Reconciler.Stop | deploy/box/scheduler/schedule.py:443-452 | forgets the deadline only if every file and docker call succeeds |
| Scheduler.EventKeepsInv | deploy/box/scheduler/schedule.py:377-452 | every tick, restart and outside change keeps the account of since when the gate is closed and what the deadline dates from, with writes that leave the flag or without |
| Scheduler.StopSafeUnless | deploy/box/scheduler/schedule.py:443-452 | a running engine is stopped only out of window and a full drain after its gate closed, unless the gate can close under an old deadline and the schedule goes down, up and down |
| Scheduler.PromiseHoldsIff | deploy/box/scheduler/schedule.py:219-249 | that promise holds of every run, with restarts, any failing call and engines started or stopped by others, if and only if the schedule never goes down, up and down again with the drain in between |
| Scheduler.FlagLeftStopsEarly | deploy/box/scheduler/schedule.py:264-266 | on every such schedule: the run that breaks it, with a failed docker start and a write that raises after creating the flag |
| Scheduler.CleanPromiseHoldsIff | deploy/box/scheduler/schedule.py:443-452 | over the runs in which no write that raises creates the flag, it holds if and only if the tunnel is left running or the schedule never does that |
| Scheduler.SafeWhenStartsSucceed | deploy/box/scheduler/schedule.py:416-433 | on any schedule it holds of every run in which docker start does not fail, whatever else does |
| Scheduler.SettledStays | deploy/box/scheduler/schedule.py:228-236 | a box that matches the schedule is left alone, whatever would fail |
| Scheduler.StaysUpSettles | deploy/box/scheduler/schedule.py:416-433 | a schedule that stays up reaches gate open and engine running, and keeps it |
| Scheduler.StaysDownSettles | deploy/box/scheduler/schedule.py:435-452 | a schedule that stays down reaches gate closed and engine stopped within the drain, with the tunnel running or not, and keeps it |
| PollDrain.FillSlots | app/workers/poller/steps.py:214-219 | starts the next due jobs until the window is full, the list used up or the stop event set |
| PollDrain.CompletedChecks | app/workers/poller/steps.py:234-243 | reports each completed check that returned once, and no check that raised |
| PollDrain.DrainPollQueue | app/workers/poller/steps.py:192-231 | for every completion order: refuses a concurrency below 1, never has more active checks than that, keeps the window full until stopped, starts every due job when not stopped, hands each returned outcome over once, ends at the first cancelled wait or raising batch and at no other, leaves no check running, and terminates |

## Left out

- HTTP routers, authentication, the command line, telemetry, ClickHouse, MinIO, engine adapters and migrations: I/O and library plumbing.
- Key expiry: job hashes never expire, and a write to a missing hash does not create a partial one; drop_pending, which exists for expired hashes, is left out with it.
- Wakeup lists, pub/sub events and the contents of published events: they affect latency only.
- The reaper's timeout of queued jobs: set_failed does not take a queued job out of its queue, so as an event it would break placement; `Counters.LoadInflightAnyOrder` still covers the call. Its batch finish depends on ORM flush order.
- The Postgres copies of job state: Redis is the modelled truth.
- Several pollers acting on stale snapshots: release_done and release_and_requeue trust the caller's view of the run.
- Counters.LoadQueuedKept: needs each call to find the job in a status it expects, which holds along the protocol; the counter is not gated in set_failed on a queued job.
- Ledger.SettledRunIsExact: is about the slot and load counters; for the batch maps the same is false, and `BatchLedger.SettledBatchExactIff` has the exact condition. release_done pays everything in its one script; here it may be split like the others.
- SplitRuns.SplitRunBatchExactIff: is about runs that lose no update; a lost HDEL can leave an entry at zero.
- ProtocolRuns.SweepSafeIff: is exact for these events; the commands before release_and_requeue sets the hash to queued are one step with that. The sweep may run on any job here; the cleanup worker runs it on those whose Postgres row is queued.
- RedisStore.Redis.RescheduleHarvestOf: the harvest_attempts field of the same MULTI is not modelled; only backoff delays read it.
- RedisStore.Redis.PromoteDueRetries: other workers may run inside the loop; `Protocol` has the two commands as separate events for that.
- LoadRebuild.RebuiltLoad: the recount is one step here; a transition that lands inside it is not modelled.
- QuietTick.TickWastesNothing: the slot part is for ticks that claimed all they planned; the whole is for ticks in which nobody else acts and no dispatch fails; a failed dispatch leaves its credit unused until the next tick.
- TierPlan.TierStopsForAReason: a tier peeks no more jobs than its free slots and the budget, so jobs it does not serve at the head of the queue can keep it from seeing ones it does, as in the source.
- Budget.NeverOverBudget: is for one submit worker and fixed limits. Health checks and served domains only decide which backends are read; run_tick is a step machine rather than a method, because the poller acts between its steps.
- Allocate.AllocateScored: scores are reals, and spp is any function; how speeds are measured is left out.
- AllocateMeaning.PlacedNearTheBest: assumes loads, tolerance and time per page are not negative, as the configuration and the measurements guarantee.
- RateLimit.WindowBound: times are reals; rounding, including Lua's tostring, is left out.
- Scheduler.Reconciler.Run: last_logged and log lines are left out; what docker leaves running after a failed call is arbitrary. Nothing but the scheduler moves the flag file, and a tick happens at one moment.
- BatchRetries.RetriedRunIsExact: what init_batch is given is arbitrary; that it is the number of the batch's current pages per status is a Postgres query.
- LostJobs.LostForGood: the reaper's timeouts, which read Postgres, are not events; they are what ends such a job.
- Parsing of schedule text, apart from day ranges.
- plan_polls, classify_poll_result, retry policy, ETA, speed scores and load totals: sound, but easier than what is here.
