/**
 The Redis keys of the job state machine and what each state function does to them.

 `Keys` is one value holding every key the state functions touch, and an `Op` is one call of a
 state function. The specification goes key by key (`NextJobs`, `NextPending`, ...); the class
 in RedisStore.dfy goes function by function, command by command, and is proved to agree.
 `Apply` is a whole call in one step. `Primary` is the part that moves the job between the
 sets, queues and hashes, and `Owed` the counter update that the SADD/SREM result of that move
 gates: the concurrent models let other clients in between the two.

 Job hashes do not expire here, so `jobs` holds every readable hash. A state function called on
 an id without one follows the source's "state is None" branches.
 */
module RedisKeys {
  import opened Wrappers

  type JobId = nat
  type BatchId = nat
  /** load_field(domain, outputs) of a job: fixed when the job is submitted. */
  type Field = nat
  /** Unix time and queue scores, as scaled integers. */
  type Time = int
  /** Postgres serial ids start at 1, so "if backend_id" only asks whether there is one. */
  type BackendId = b: nat | 1 <= b witness 1

  datatype Status = Queued | Running | Storing | Done | Failed {
    predicate Terminal() { Done? || Failed? }
  }

  datatype Job = Job(
    status: Status,
    priority: int,
    submittedAt: Time,
    field: Field,
    batch: Option<BatchId>,
    backend: Option<BackendId>,
    claimedAt: Option<Time>,
    queueScore: Option<Time>,
    avoid: set<BackendId>)

  datatype Keys = Keys(
    jobs: map<JobId, Job>,                     // job:<id>
    pending: map<(int, JobId), Time>,          // jobs:pending:<priority>, member -> score
    levels: set<int>,                          // jobs:pending:levels
    delayed: map<JobId, Time>,                 // jobs:delayed
    inflight: set<JobId>,                      // jobs:inflight
    harvest: map<JobId, Time>,                 // jobs:pending_harvest
    loadQueued: map<Field, int>,               // load:queued
    loadInflight: map<Field, int>,             // load:inflight
    slots: map<BackendId, int>,                // backend:<id>:inflight
    batches: map<(BackendId, BatchId), int>,   // backend:<id>:batches, batch -> pages
    done: map<BatchId, int>,                   // batch:<id> done
    failed: map<BatchId, int>)                 // batch:<id> failed

  const NO_KEYS := Keys(map[], map[], {}, map[], {}, map[], map[], map[], map[], map[], map[], map[])

  /** A counter reads 0 when its key or field is missing. */
  function Get<K>(m: map<K, int>, key: K): int {
    if key in m then m[key] else 0
  }

  /** INCRBY/HINCRBY; an amount of 0 stands for "not called". */
  function Incr<K>(m: map<K, int>, key: K, amount: int): map<K, int> {
    if amount == 0 then m else m[key := Get(m, key) + amount]
  }

  /** get_job: the job's state, None without a readable hash. */
  function GetJob(k: Keys, id: JobId): Option<Job> {
    if id in k.jobs then Some(k.jobs[id]) else None
  }

  /** A queue entry as peek_pending returns it. */
  datatype Entry = Entry(id: JobId, score: Time, priority: int)

  datatype Op =
    | Enqueue(id: JobId, job: Job)
    | Claim(id: JobId, priority: int, now: Time)
    | RequeueOrphan(id: JobId, now: Time, grace: Time)
    | ScheduleRetry(id: JobId, score: Time, at: Time, avoid: Option<BackendId>)
    | TakeDelayed(id: JobId)                                // promote_due_retries: the ZREM
    | AddPending(id: JobId, priority: int, score: Time)     // _add_pending
    | SetRunning(id: JobId, backend: BackendId)
    | ReleaseDone(id: JobId, state: Job, now: Time)
    | SetDone(id: JobId, snapshot: Option<Job>)
    | SetFailed(id: JobId)
    | Release(id: JobId)                                    // release_and_requeue, up to its ZADD
    | RescheduleHarvest(id: JobId, at: Time)

  /** The calls that take a job out of the in-flight set. */
  predicate Leaves(op: Op) {
    op.ReleaseDone? || op.SetDone? || op.SetFailed? || op.Release?
  }

  predicate Finishes(op: Op) { op.SetDone? || op.SetFailed? }

  // ------------------------------------------------------------------ the job's hash

  predicate RecentlyClaimed(j: Job, now: Time, grace: Time) {
    j.claimedAt.Some? && now - j.claimedAt.value < grace
  }

  /** requeue_orphans' test on one job: queued, in no queue it belongs to, not claimed recently. */
  predicate Sweepable(k: Keys, id: JobId, now: Time, grace: Time) {
    && id in k.jobs
    && k.jobs[id].status.Queued?
    && id !in k.delayed
    && !RecentlyClaimed(k.jobs[id], now, grace)
    && (k.jobs[id].priority, id) !in k.pending
  }

  /** What schedule_retry records on the hash. */
  function Retried(j: Job, score: Time, avoid: Option<BackendId>): Job {
    j.(queueScore := Some(score), avoid := if avoid.Some? then j.avoid + {avoid.value} else j.avoid)
  }

  function NextJob(k: Keys, op: Op, j: Job): Job {
    match op
    case Claim(id, priority, now) => if (priority, id) in k.pending then j.(claimedAt := Some(now)) else j
    case ScheduleRetry(_, score, _, avoid) => Retried(j, score, avoid)
    case SetRunning(_, backend) => j.(status := Running, backend := Some(backend))
    case ReleaseDone(id, _, _) => if id in k.inflight then j.(status := Storing) else j
    case SetDone(_, _) => j.(status := Done)
    case SetFailed(_) => j.(status := Failed)
    case Release(_) => j.(status := Queued, backend := None)
    case _ => j
  }

  /** The calls that write the job's hash. */
  predicate WritesHash(op: Op) {
    op.Claim? || op.ScheduleRetry? || op.SetRunning? || Leaves(op)
  }

  function NextJobs(k: Keys, op: Op): map<JobId, Job> {
    if op.Enqueue? then k.jobs[op.id := op.job]
    else if WritesHash(op) && op.id in k.jobs then k.jobs[op.id := NextJob(k, op, k.jobs[op.id])]
    else k.jobs
  }

  // ------------------------------------------------------------------ the sets and queues

  /** The queue the call adds its job to, and the score: every such call also registers the level. */
  function AddedTo(k: Keys, op: Op): Option<(int, Time)> {
    match op
    case Enqueue(_, job) => Some((job.priority, job.submittedAt))
    case AddPending(_, priority, score) => Some((priority, score))
    case RequeueOrphan(id, now, grace) =>
      if Sweepable(k, id, now, grace) then Some((k.jobs[id].priority, k.jobs[id].submittedAt)) else None
    case _ => None
  }

  function NextPending(k: Keys, op: Op): map<(int, JobId), Time> {
    var added := AddedTo(k, op);
    if op.Claim? then k.pending - {(op.priority, op.id)}
    else if added.Some? then k.pending[(added.value.0, op.id) := added.value.1]
    else k.pending
  }

  function NextLevels(k: Keys, op: Op): set<int> {
    if AddedTo(k, op).Some? then k.levels + {AddedTo(k, op).value.0} else k.levels
  }

  function NextDelayed(k: Keys, op: Op): map<JobId, Time> {
    match op
    case ScheduleRetry(id, _, at, _) => k.delayed[id := at]
    case TakeDelayed(id) => k.delayed - {id}
    case _ => k.delayed
  }

  function NextInflight(k: Keys, op: Op): set<JobId> {
    if op.SetRunning? then k.inflight + {op.id}
    else if Leaves(op) then k.inflight - {op.id}
    else k.inflight
  }

  function NextHarvest(k: Keys, op: Op): map<JobId, Time> {
    match op
    case ReleaseDone(id, _, now) => if id in k.inflight then k.harvest[id := now] else k.harvest
    case SetDone(id, _) => k.harvest - {id}
    case SetFailed(id) => k.harvest - {id}
    case Release(id) => k.harvest - {id}
    case RescheduleHarvest(id, at) => k.harvest[id := at]
    case _ => k.harvest
  }

  // ------------------------------------------------------------------ the counters

  /** The state a leaving call releases the job by: release_done trusts its caller, set_done uses
      the caller's snapshot but re-reads a batch page, the others read the hash. */
  function LeaveState(k: Keys, op: Op): Option<Job> {
    match op
    case ReleaseDone(_, state, _) => Some(state)
    case SetDone(id, snapshot) =>
      if snapshot.None? || snapshot.value.batch.Some? then GetJob(k, id) else snapshot
    case _ => GetJob(k, op.id)
  }

  /** _release_batch: one page of the batch left the backend; the entry goes with the last. */
  function LeaveBatch(m: map<(BackendId, BatchId), int>, state: Option<Job>): map<(BackendId, BatchId), int> {
    if state.None? || state.value.batch.None? || state.value.backend.None? then m
    else
      var key := (state.value.backend.value, state.value.batch.value);
      var left := Get(m, key) - 1;
      if left <= 0 then m - {key} else m[key := left]
  }

  function NextBatches(k: Keys, op: Op): map<(BackendId, BatchId), int> {
    if op.SetRunning? && op.id !in k.inflight && op.id in k.jobs && k.jobs[op.id].batch.Some? then
      Incr(k.batches, (op.backend, k.jobs[op.id].batch.value), 1)
    else if Leaves(op) && op.id in k.inflight then LeaveBatch(k.batches, LeaveState(k, op))
    else k.batches
  }

  /** The batch _count_batch_page counts this call's page in: a batch page that had not finished. */
  function CountedIn(k: Keys, op: Op): Option<BatchId> {
    var state := LeaveState(k, op);
    if Finishes(op) && state.Some? && !state.value.status.Terminal() then state.value.batch else None
  }

  function NextDone(k: Keys, op: Op): map<BatchId, int> {
    var t := CountedIn(k, op);
    if op.SetDone? && t.Some? then Incr(k.done, t.value, 1) else k.done
  }

  function NextFailed(k: Keys, op: Op): map<BatchId, int> {
    var t := CountedIn(k, op);
    if op.SetFailed? && t.Some? then Incr(k.failed, t.value, 1) else k.failed
  }

  /** The update of the slot and load counters a call owes once its set operation succeeded: at
      most one backend's slots and one field of the two load counters. */
  datatype Delta = Delta(backend: BackendId, slot: int, field: Field, queued: int, inflight: int) {
    function SlotOf(b: BackendId): int { if b == backend then slot else 0 }
    function QueuedOf(f: Field): int { if f == field then queued else 0 }
    function InflightOf(f: Field): int { if f == field then inflight else 0 }
  }

  const NO_DELTA := Delta(1, 0, 0, 0, 0)

  function Owed(k: Keys, op: Op): Delta {
    if op.Enqueue? then Delta(1, 0, op.job.field, 1, 0)
    else if op.SetRunning? && op.id !in k.inflight then
      if op.id in k.jobs then Delta(op.backend, 1, k.jobs[op.id].field, -1, 1)
      else Delta(op.backend, 1, 0, 0, 0)
    else if Leaves(op) && op.id in k.inflight then
      LeaveDelta(LeaveState(k, op), if op.Release? then 1 else 0)
    else if op.SetFailed? && op.id in k.jobs && k.jobs[op.id].status.Queued? then
      Delta(1, 0, k.jobs[op.id].field, -1, 0)
    else NO_DELTA
  }

  /** A job leaving the in-flight set: its field's in-flight load, and its backend's slot. */
  function LeaveDelta(state: Option<Job>, queued: int): Delta {
    match state
    case None => NO_DELTA
    case Some(j) =>
      if j.backend.Some? then Delta(j.backend.value, -1, j.field, queued, -1)
      else Delta(1, 0, j.field, queued, -1)
  }

  function Pay(k: Keys, d: Delta): Keys {
    k.(slots := Incr(k.slots, d.backend, d.slot),
       loadQueued := Incr(k.loadQueued, d.field, d.queued),
       loadInflight := Incr(k.loadInflight, d.field, d.inflight))
  }

  // ------------------------------------------------------------------ the state functions

  /** The part of a state function that decides where the job is. */
  function Primary(k: Keys, op: Op): Keys {
    k.(jobs := NextJobs(k, op),
       pending := NextPending(k, op),
       levels := NextLevels(k, op),
       delayed := NextDelayed(k, op),
       inflight := NextInflight(k, op),
       harvest := NextHarvest(k, op),
       batches := NextBatches(k, op),
       done := NextDone(k, op),
       failed := NextFailed(k, op))
  }

  /** A whole state function in one step. */
  function Apply(k: Keys, op: Op): Keys {
    Pay(Primary(k, op), Owed(k, op))
  }
}
