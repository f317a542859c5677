/**
 What each state function does to every key, written out function by function. RedisKeys.dfy goes
 key by key, and every proof about runs rests on it; the lemmas here say that the two agree, in terms
 of the keys alone.
 */
module StateFunctions {
  import opened Wrappers
  import opened RedisKeys

  /** HINCRBY or INCRBY. */
  function Plus<K>(m: map<K, int>, key: K, amount: int): map<K, int> {
    m[key := (if key in m then m[key] else 0) + amount]
  }

  /** The keys a call leaves alone: all but the job's hash. */
  predicate SameCounters(k: Keys, k': Keys) {
    && k'.loadQueued == k.loadQueued && k'.loadInflight == k.loadInflight && k'.slots == k.slots
    && k'.batches == k.batches && k'.done == k.done && k'.failed == k.failed
  }

  predicate SameQueues(k: Keys, k': Keys) {
    k'.pending == k.pending && k'.levels == k.levels && k'.delayed == k.delayed
  }

  predicate SameRunning(k: Keys, k': Keys) {
    k'.inflight == k.inflight && k'.harvest == k.harvest
  }

  /** The job's hash becomes `job`; without a hash nothing is written. */
  predicate OnlyHash(k: Keys, k': Keys, id: JobId, job: Job) {
    k'.jobs == if id in k.jobs then k.jobs[id := job] else k.jobs
  }

  function Known(k: Keys, id: JobId): Option<Job> {
    if id in k.jobs then Some(k.jobs[id]) else None
  }

  /** Some job's hash, or any value for a job without one. */
  function HashOf(k: Keys, id: JobId): Job {
    if id in k.jobs then k.jobs[id] else Job(Queued, 0, 0, 0, None, None, None, None, {})
  }

  // ------------------------------------------------------------------ queues

  /** HSET the whole state, HINCRBY load:queued, ZADD at the submit time, SADD the level. */
  lemma EnqueueDoes(k: Keys, id: JobId, job: Job)
    ensures var k' := Apply(k, Enqueue(id, job));
      && k'.jobs == k.jobs[id := job]
      && k'.pending == k.pending[(job.priority, id) := job.submittedAt]
      && k'.levels == k.levels + {job.priority} && k'.delayed == k.delayed && SameRunning(k, k')
      && k'.loadQueued == Plus(k.loadQueued, job.field, 1)
      && k'.loadInflight == k.loadInflight && k'.slots == k.slots && k'.batches == k.batches
      && k'.done == k.done && k'.failed == k.failed
  {
  }

  /** ZREM, and if it removed the job, HSET claimed_at. */
  lemma ClaimDoes(k: Keys, id: JobId, priority: int, now: Time)
    ensures var k' := Apply(k, Claim(id, priority, now));
      && k'.pending == k.pending - {(priority, id)}
      && OnlyHash(k, k', id,
           if (priority, id) in k.pending then HashOf(k, id).(claimedAt := Some(now)) else HashOf(k, id))
      && k'.levels == k.levels && k'.delayed == k.delayed && SameRunning(k, k') && SameCounters(k, k')
  {
    assert id in k.jobs ==> k.jobs[id := k.jobs[id]] == k.jobs;
  }

  /** The tests of the sweep script, then ZADD at the submit time and SADD the level. */
  lemma SweepDoes(k: Keys, id: JobId, now: Time, grace: Time)
    ensures var k' := Apply(k, RequeueOrphan(id, now, grace)); var j := HashOf(k, id);
      var lost :=
        && id in k.jobs && j.status.Queued? && id !in k.delayed && (j.priority, id) !in k.pending
        && (j.claimedAt.None? || now - j.claimedAt.value >= grace);
      && k'.pending == (if lost then k.pending[(j.priority, id) := j.submittedAt] else k.pending)
      && k'.levels == (if lost then k.levels + {j.priority} else k.levels)
      && k'.jobs == k.jobs && k'.delayed == k.delayed && SameRunning(k, k') && SameCounters(k, k')
  {
  }

  /** HSET queue_score, the avoid list with the backend added, ZADD jobs:delayed. */
  lemma RetryDoes(k: Keys, id: JobId, score: Time, at: Time, avoid: Option<BackendId>)
    ensures var k' := Apply(k, ScheduleRetry(id, score, at, avoid)); var j := HashOf(k, id);
      && OnlyHash(k, k', id,
           j.(queueScore := Some(score), avoid := if avoid.Some? then j.avoid + {avoid.value} else j.avoid))
      && k'.delayed == k.delayed[id := at]
      && k'.pending == k.pending && k'.levels == k.levels && SameRunning(k, k') && SameCounters(k, k')
  {
  }

  lemma TakeDelayedDoes(k: Keys, id: JobId)
    ensures var k' := Apply(k, TakeDelayed(id));
      && k'.delayed == k.delayed - {id}
      && k'.jobs == k.jobs && k'.pending == k.pending && k'.levels == k.levels
      && SameRunning(k, k') && SameCounters(k, k')
  {
  }

  lemma AddPendingDoes(k: Keys, id: JobId, priority: int, score: Time)
    ensures var k' := Apply(k, AddPending(id, priority, score));
      && k'.pending == k.pending[(priority, id) := score] && k'.levels == k.levels + {priority}
      && k'.jobs == k.jobs && k'.delayed == k.delayed && SameRunning(k, k') && SameCounters(k, k')
  {
  }

  // ------------------------------------------------------------------ runs

  lemma RunningCounts(k: Keys, id: JobId, b: BackendId)
    ensures var k' := Apply(k, SetRunning(id, b)); var j := HashOf(k, id);
      var counts, known := id !in k.inflight, id in k.jobs;
      && k'.slots == (if counts then Plus(k.slots, b, 1) else k.slots)
      && k'.loadQueued == (if counts && known then Plus(k.loadQueued, j.field, -1) else k.loadQueued)
      && k'.loadInflight == (if counts && known then Plus(k.loadInflight, j.field, 1) else k.loadInflight)
  {
  }

  /** HSET running on the backend, SADD, and if that added the job its load, slot and batch page. */
  lemma SetRunningDoes(k: Keys, id: JobId, b: BackendId)
    ensures var k' := Apply(k, SetRunning(id, b)); var j := HashOf(k, id);
      var counts, known := id !in k.inflight, id in k.jobs;
      && OnlyHash(k, k', id, j.(status := Running, backend := Some(b)))
      && k'.inflight == k.inflight + {id} && k'.harvest == k.harvest && SameQueues(k, k')
      && k'.slots == (if counts then Plus(k.slots, b, 1) else k.slots)
      && k'.loadQueued == (if counts && known then Plus(k.loadQueued, j.field, -1) else k.loadQueued)
      && k'.loadInflight == (if counts && known then Plus(k.loadInflight, j.field, 1) else k.loadInflight)
      && k'.batches == (if counts && known && j.batch.Some? then Plus(k.batches, (b, j.batch.value), 1) else k.batches)
      && k'.done == k.done && k'.failed == k.failed
  {
    RunningCounts(k, id, b);
  }

  /** What a job that leaves the in-flight set takes off the counters, by the state it leaves with. */
  predicate Freed(k: Keys, k': Keys, leaves: bool, state: Option<Job>, requeued: bool) {
    var counts := leaves && state.Some?;
    var j := if state.Some? then state.value else HashOf(NO_KEYS, 0);
    && k'.loadInflight == (if counts then Plus(k.loadInflight, j.field, -1) else k.loadInflight)
    && k'.slots == (if counts && j.backend.Some? then Plus(k.slots, j.backend.value, -1) else k.slots)
    && (requeued ==> k'.loadQueued == if counts then Plus(k.loadQueued, j.field, 1) else k.loadQueued)
    && k'.batches ==
         if counts && j.backend.Some? && j.batch.Some? then
           var key := (j.backend.value, j.batch.value);
           var paid := Plus(k.batches, key, -1);
           if paid[key] <= 0 then paid - {key} else paid
         else k.batches
  }

  lemma FreedLoads(k: Keys, op: Op)
    requires Leaves(op)
    ensures var k', state := Apply(k, op), LeaveState(k, op);
      var counts := op.id in k.inflight && state.Some?;
      && k'.loadInflight == (if counts then Plus(k.loadInflight, state.value.field, -1) else k.loadInflight)
      && (op.Release? ==> k'.loadQueued == if counts then Plus(k.loadQueued, state.value.field, 1) else k.loadQueued)
      && (!op.Release? && op.id in k.inflight ==> k'.loadQueued == k.loadQueued)
  {
  }

  lemma FreedSlot(k: Keys, op: Op)
    requires Leaves(op)
    ensures var k', state := Apply(k, op), LeaveState(k, op);
      var counts := op.id in k.inflight && state.Some?;
      k'.slots ==
      if counts && state.value.backend.Some? then Plus(k.slots, state.value.backend.value, -1) else k.slots
  {
  }

  lemma PageOff(m: map<(BackendId, BatchId), int>, j: Job)
    ensures LeaveBatch(m, Some(j)) ==
      if j.backend.Some? && j.batch.Some? then
        var key := (j.backend.value, j.batch.value);
        var paid := Plus(m, key, -1);
        if paid[key] <= 0 then paid - {key} else paid
      else m
  {
    if j.backend.Some? && j.batch.Some? {
      var key := (j.backend.value, j.batch.value);
      assert Plus(m, key, -1) - {key} == m - {key};
    }
  }

  lemma FreedPage(k: Keys, op: Op)
    requires Leaves(op)
    ensures Apply(k, op).batches == if op.id in k.inflight then LeaveBatch(k.batches, LeaveState(k, op)) else k.batches
  {
  }

  lemma FreedBy(k: Keys, op: Op)
    requires Leaves(op)
    ensures Freed(k, Apply(k, op), op.id in k.inflight, LeaveState(k, op), op.Release?)
  {
    FreedLoads(k, op);
    FreedSlot(k, op);
    FreedPage(k, op);
    if LeaveState(k, op).Some? { PageOff(k.batches, LeaveState(k, op).value); }
  }

  /** SREM gates it all: ZADD jobs:pending_harvest now, HSET storing, the caller's state off the counters. */
  lemma ReleaseDoneDoes(k: Keys, id: JobId, state: Job, now: Time)
    ensures var k' := Apply(k, ReleaseDone(id, state, now)); var leaves := id in k.inflight;
      && OnlyHash(k, k', id, if leaves then HashOf(k, id).(status := Storing) else HashOf(k, id))
      && k'.inflight == k.inflight - {id}
      && k'.harvest == (if leaves then k.harvest[id := now] else k.harvest)
      && SameQueues(k, k') && Freed(k, k', leaves, Some(state), false)
      && k'.loadQueued == k.loadQueued && k'.done == k.done && k'.failed == k.failed
  {
    assert id in k.jobs ==> k.jobs[id := k.jobs[id]] == k.jobs;
    FreedBy(k, ReleaseDone(id, state, now));
  }

  /** HSET done, SREM, ZREM jobs:pending_harvest, one more done page of an unfinished page's batch. */
  lemma SetDoneDoes(k: Keys, id: JobId, snapshot: Option<Job>)
    ensures var k' := Apply(k, SetDone(id, snapshot));
      var state := if snapshot.None? || snapshot.value.batch.Some? then Known(k, id) else snapshot;
      var page := state.Some? && state.value.batch.Some? && !state.value.status.Done? && !state.value.status.Failed?;
      && OnlyHash(k, k', id, HashOf(k, id).(status := Done))
      && k'.inflight == k.inflight - {id} && k'.harvest == k.harvest - {id} && SameQueues(k, k')
      && k'.done == (if page then Plus(k.done, state.value.batch.value, 1) else k.done) && k'.failed == k.failed
      && Freed(k, k', id in k.inflight, state, false) && k'.loadQueued == k.loadQueued
  {
    FreedBy(k, SetDone(id, snapshot));
  }

  /** The same with failed; a job that was only queued leaves the queued load instead. */
  lemma SetFailedDoes(k: Keys, id: JobId)
    ensures var k' := Apply(k, SetFailed(id)); var state := Known(k, id);
      var page := state.Some? && state.value.batch.Some? && !state.value.status.Done? && !state.value.status.Failed?;
      && OnlyHash(k, k', id, HashOf(k, id).(status := Failed))
      && k'.inflight == k.inflight - {id} && k'.harvest == k.harvest - {id} && SameQueues(k, k')
      && k'.failed == (if page then Plus(k.failed, state.value.batch.value, 1) else k.failed) && k'.done == k.done
      && Freed(k, k', id in k.inflight, state, false)
      && k'.loadQueued ==
           if id !in k.inflight && state.Some? && state.value.status.Queued?
           then Plus(k.loadQueued, state.value.field, -1) else k.loadQueued
  {
    FreedBy(k, SetFailed(id));
  }

  /** SREM, its load back to queued, slot and batch page; HSET queued without a backend; off the harvest. */
  lemma ReleaseDoes(k: Keys, id: JobId)
    ensures var k' := Apply(k, Release(id));
      && OnlyHash(k, k', id, HashOf(k, id).(status := Queued, backend := None))
      && k'.inflight == k.inflight - {id} && k'.harvest == k.harvest - {id} && SameQueues(k, k')
      && Freed(k, k', id in k.inflight, Known(k, id), true) && k'.done == k.done && k'.failed == k.failed
  {
    FreedBy(k, Release(id));
  }

  lemma RescheduleHarvestDoes(k: Keys, id: JobId, at: Time)
    ensures var k' := Apply(k, RescheduleHarvest(id, at));
      && k'.harvest == k.harvest[id := at]
      && k'.jobs == k.jobs && k'.inflight == k.inflight && SameQueues(k, k') && SameCounters(k, k')
  {
  }
}
