/**
 redis_jobs.py, command by command: a class holding the Redis keys, whose methods run each state
 function's commands in the source's order. Every method is proved to have the effect that
 RedisKeys.dfy specifies key by key. Wakeup lists, TTLs and pub/sub events are left out.
 */
module RedisStore {
  import opened Wrappers
  import opened RedisKeys
  import opened Counters
  import opened Rebuild
  import opened LoadRebuild
  import StateFunctions

  class Redis {
    var keys: Keys

    constructor ()
      ensures keys == NO_KEYS
    {
      keys := NO_KEYS;
    }

    // ---------------------------------------------------------------- queues

    /** _add_pending: ZADD to the priority's queue, then register the level. */
    method AddToPending(priority: int, id: JobId, score: Time)
      modifies this
      ensures keys == Apply(old(keys), AddPending(id, priority, score))
    {
      keys := keys.(pending := keys.pending[(priority, id) := score]);
      keys := keys.(levels := keys.levels + {priority});
    }

    /** One job's commands in enqueue_jobs' transaction. */
    method EnqueueOne(id: JobId, state: Job)
      modifies this
      ensures keys == Apply(old(keys), Enqueue(id, state))
    {
      keys := keys.(jobs := keys.jobs[id := state]);
      keys := keys.(loadQueued := Incr(keys.loadQueued, state.field, 1));
      keys := keys.(pending := keys.pending[(state.priority, id) := state.submittedAt]);
      keys := keys.(levels := keys.levels + {state.priority});
    }

    method EnqueueJobs(states: seq<(JobId, Job)>)
      modifies this
      ensures keys == RunCalls(old(keys), EnqueueOps(states))
      ensures forall i :: 0 <= i < |states| && LastOf(states, i) ==> StoredAndQueued(keys, states[i].0, states[i].1)
    {
      ghost var ops := EnqueueOps(states);
      for i := 0 to |states|
        invariant keys == RunCalls(old(keys), ops[..i])
      {
        EnqueueOne(states[i].0, states[i].1);
        RunCallsNext(old(keys), ops, i);
      }
      assert ops[..|states|] == ops;
      forall i | 0 <= i < |states| && LastOf(states, i) ensures StoredAndQueued(keys, states[i].0, states[i].1) {
        LastIsStored(old(keys), states, i);
      }
    }

    method RequeueJob(id: JobId, score: Time)
      modifies this
      ensures var k := old(keys);
        keys == Apply(k, AddPending(id, if id in k.jobs then k.jobs[id].priority else 0, score))
    {
      var state := GetJob(keys, id);
      AddToPending(if state.Some? then state.value.priority else 0, id, score);
    }

    /** _CLAIM_LUA: exactly one worker wins the job. */
    method ClaimOne(id: JobId, priority: int, now: Time) returns (won: bool)
      modifies this
      ensures keys == Apply(old(keys), Claim(id, priority, now))
      ensures won <==> (priority, id) in old(keys).pending && id in old(keys).jobs
    {
      var removed := (priority, id) in keys.pending;
      keys := keys.(pending := keys.pending - {(priority, id)});
      if !removed { return false; }
      if id !in keys.jobs { return false; }
      keys := keys.(jobs := keys.jobs[id := keys.jobs[id].(claimedAt := Some(now))]);
      return true;
    }

    /** The ids this worker claimed: those its calls took off a queue. */
    method ClaimPending(entries: seq<Entry>, now: Time) returns (claimed: set<JobId>)
      modifies this
      ensures keys == RunCalls(old(keys), ClaimOps(entries, now))
      ensures keys.pending == old(keys).pending - KeysOf(entries)
      ensures claimed == Won(old(keys).pending, old(keys).jobs, KeysOf(entries))
    {
      ghost var k, ops := keys, ClaimOps(entries, now);
      claimed := {};
      assert KeysOf(entries[..0]) == {};
      for i := 0 to |entries|
        invariant keys == RunCalls(k, ops[..i])
        invariant keys.jobs.Keys == k.jobs.Keys
        invariant keys.pending == k.pending - KeysOf(entries[..i])
        invariant claimed == Won(k.pending, k.jobs, KeysOf(entries[..i]))
      {
        KeysOfNext(entries, i);
        WonNext(k.pending, k.jobs, KeysOf(entries[..i]), (entries[i].priority, entries[i].id));
        var won := ClaimOne(entries[i].id, entries[i].priority, now);
        if won { claimed := claimed + {entries[i].id}; }
        RunCallsNext(k, ops, i);
      }
      assert ops[..|entries|] == ops && entries[..|entries|] == entries;
    }

    /** _REQUEUE_ORPHAN_LUA: the check and the ZADD in one step. */
    method RequeueOrphanOne(id: JobId, now: Time, grace: Time) returns (added: bool)
      modifies this
      ensures keys == Apply(old(keys), RequeueOrphan(id, now, grace))
      ensures added <==> Sweepable(old(keys), id, now, grace)
    {
      if id !in keys.jobs || !keys.jobs[id].status.Queued? { return false; }
      if id in keys.delayed { return false; }
      if RecentlyClaimed(keys.jobs[id], now, grace) { return false; }
      var priority := keys.jobs[id].priority;
      if (priority, id) in keys.pending { return false; }
      keys := keys.(pending := keys.pending[(priority, id) := keys.jobs[id].submittedAt]);
      keys := keys.(levels := keys.levels + {priority});
      return true;
    }

    /** Re-adds exactly the listed jobs that are to be swept, and leaves none of them to sweep. */
    method RequeueOrphans(ids: seq<JobId>, now: Time, grace: Time) returns (requeued: set<JobId>)
      modifies this
      ensures keys == RunCalls(old(keys), SweepOps(ids, now, grace))
      ensures forall id :: id in requeued <==> id in ids && Sweepable(old(keys), id, now, grace)
      ensures forall id :: Sweepable(keys, id, now, grace) <==> Sweepable(old(keys), id, now, grace) && id !in ids
    {
      ghost var k, ops := keys, SweepOps(ids, now, grace);
      requeued := {};
      for i := 0 to |ids|
        invariant keys == RunCalls(k, ops[..i])
        invariant Swept(k, keys, ids[..i], now, grace)
        invariant forall id :: id in requeued <==> id in ids[..i] && Sweepable(k, id, now, grace)
      {
        SweepNext(k, keys, ids, i, now, grace);
        RunCallsNext(k, ops, i);
        var added := RequeueOrphanOne(ids[i], now, grace);
        if added { requeued := requeued + {ids[i]}; }
      }
      assert ops[..|ids|] == ops && ids[..|ids|] == ids;
    }

    // ---------------------------------------------------------------- delayed retries

    method ScheduleRetryOf(id: JobId, score: Time, at: Time, avoid: Option<BackendId>)
      modifies this
      ensures keys == Apply(old(keys), ScheduleRetry(id, score, at, avoid))
    {
      ghost var k := keys;
      if id in keys.jobs {
        keys := keys.(jobs := keys.jobs[id := keys.jobs[id].(queueScore := Some(score))]);
        if avoid.Some? {
          var others := keys.jobs[id].avoid - {avoid.value};
          keys := keys.(jobs := keys.jobs[id := keys.jobs[id].(avoid := others + {avoid.value})]);
        }
        assert keys.jobs[id] == Retried(k.jobs[id], score, avoid);
        assert keys.jobs == k.jobs[id := Retried(k.jobs[id], score, avoid)];
      }
      keys := keys.(delayed := keys.delayed[id := at]);
    }

    /** One member of promote_due_retries' loop: only the worker whose ZREM removed it goes on. */
    method PromoteOne(id: JobId, now: Time) returns (promoted: bool)
      modifies this
      ensures promoted <==> id in old(keys).delayed && id in old(keys).jobs
      ensures keys == if id in old(keys).delayed then Promotion(old(keys), id, now) else old(keys)
    {
      if id !in keys.delayed { return false; }
      keys := keys.(delayed := keys.delayed - {id});
      if id !in keys.jobs { return false; }
      AddToPending(keys.jobs[id].priority, id, RetryScore(keys.jobs[id], now));
      return true;
    }

    /** The next member, after those in `order`: it is still in the delayed set. */
    method PromoteNext(ghost k: Keys, ghost order: seq<JobId>, ghost moved: set<JobId>, id: JobId, now: Time,
                       count: nat)
      returns (count': nat)
      requires count == ReadableIn(k.jobs, order)
      requires keys == RunCalls(k, PromoteAll(k.jobs, order, now)) && EachOnce(order, moved)
      requires id in k.delayed && id !in moved
      modifies this
      ensures keys == RunCalls(k, PromoteAll(k.jobs, order + [id], now)) && EachOnce(order + [id], moved + {id})
      ensures count' == ReadableIn(k.jobs, order + [id])
    {
      PromotedByCalls(k, order, moved, now);
      PromoteAllNext(k, order, id, now);
      OnceMore(order, moved, id);
      assert (order + [id])[..|order|] == order;
      var promoted := PromoteOne(id, now);
      count' := if promoted then count + 1 else count;
    }

    /** The loop: the two commands of each promotion in turn. */
    method PromoteMembers(due: set<JobId>, now: Time) returns (count: nat, ghost order: seq<JobId>)
      requires due <= keys.delayed.Keys
      modifies this
      ensures keys == RunCalls(old(keys), PromoteAll(old(keys).jobs, order, now))
      ensures EachOnce(order, due) && count == ReadableIn(old(keys).jobs, order)
    {
      ghost var k, moved: set<JobId> := keys, {};
      order, count := [], 0;
      var members := due;
      while members != {}
        invariant moved !! members && moved + members == due
        invariant EachOnce(order, moved) && keys == RunCalls(k, PromoteAll(k.jobs, order, now))
        invariant count == ReadableIn(k.jobs, order)
        decreases |members|
      {
        var id :| id in members;
        members := members - {id};
        count := PromoteNext(k, order, moved, id, now, count);
        moved, order := moved + {id}, order + [id];
      }
      assert moved == due;
    }

    /** Every due retry leaves the delayed set for the queue of its own level, at the score its
        retry recorded; the rest of Redis stays as it was. With no one else acting, this is the two
        commands of each promotion in turn. It returns how many jobs it added. */
    method PromoteDueRetries(now: Time) returns (count: nat, ghost order: seq<JobId>)
      modifies this
      ensures PromotedAll(old(keys), keys, Due(old(keys).delayed, now), now)
      ensures forall id :: id in keys.delayed <==> id in old(keys).delayed && now < old(keys).delayed[id]
      ensures forall id :: id in old(keys).delayed && old(keys).delayed[id] <= now && id in old(keys).jobs ==>
        QueuedAgain(old(keys).jobs[id], id, now, keys)
      ensures count == |Readable(old(keys).jobs, Due(old(keys).delayed, now))|
      ensures EachOnce(order, Due(old(keys).delayed, now))
      ensures keys == RunCalls(old(keys), PromoteAll(old(keys).jobs, order, now))
    {
      ghost var k := keys;
      var due := Due(keys.delayed, now);
      count, order := PromoteMembers(due, now);
      PromotedByCalls(k, order, due, now);
      PromotedMeans(k, keys, now);
      ReadableInSize(k.jobs, order, due);
    }

    // ---------------------------------------------------------------- runs

    /** _release_batch: HINCRBY -1, and HDEL when that was the last page. */
    method ReleaseBatch(backend: BackendId, batch: Option<BatchId>)
      modifies this
      ensures keys == old(keys).(batches := if batch.None? then old(keys).batches else
        (var left := Get(old(keys).batches, (backend, batch.value)) - 1;
         if left <= 0 then old(keys).batches - {(backend, batch.value)}
           else old(keys).batches[(backend, batch.value) := left]))
    {
      if batch.None? { return; }
      ghost var before := keys.batches;
      var key := (backend, batch.value);
      var left := Get(keys.batches, key) - 1;
      keys := keys.(batches := keys.batches[key := left]);
      if left <= 0 { keys := keys.(batches := keys.batches - {key}); }
      assert before[key := left] - {key} == before - {key};
    }

    /** What every release of an in-flight job does after its SREM: the load counters, the
        backend's slot and its batch page. */
    method ReleaseSlot(state: Option<Job>, requeued: bool)
      modifies this
      ensures keys == Pay(old(keys).(batches := LeaveBatch(old(keys).batches, state)),
                          LeaveDelta(state, if requeued then 1 else 0))
    {
      if state.None? { return; }
      var j := state.value;
      keys := keys.(loadInflight := Incr(keys.loadInflight, j.field, -1));
      if requeued { keys := keys.(loadQueued := Incr(keys.loadQueued, j.field, 1)); }
      if j.backend.Some? {
        keys := keys.(slots := Incr(keys.slots, j.backend.value, -1));
        ReleaseBatch(j.backend.value, j.batch);
      }
    }

    method SetRunningOn(id: JobId, backend: BackendId)
      modifies this
      ensures keys == Apply(old(keys), SetRunning(id, backend))
    {
      DispatchInParts(keys, id, backend);
      if id in keys.jobs {
        keys := keys.(jobs := keys.jobs[id := keys.jobs[id].(status := Running, backend := Some(backend))]);
      }
      var added := id !in keys.inflight;
      keys := keys.(inflight := keys.inflight + {id});
      if added { CountDispatch(GetJob(keys, id), backend); }
    }

    /** The MULTI that a successful SADD gates. */
    method CountDispatch(state: Option<Job>, backend: BackendId)
      modifies this
      ensures keys == Dispatched(old(keys), state, backend)
    {
      keys := keys.(slots := Incr(keys.slots, backend, 1));
      if state.Some? {
        var field := state.value.field;
        keys := keys.(loadQueued := Incr(keys.loadQueued, field, -1));
        keys := keys.(loadInflight := Incr(keys.loadInflight, field, 1));
        if state.value.batch.Some? {
          keys := keys.(batches := Incr(keys.batches, (backend, state.value.batch.value), 1));
        }
      }
    }

    /** _RELEASE_DONE_LUA: the SREM gates the whole transition. */
    method ReleaseDoneOf(id: JobId, state: Job, now: Time) returns (released: bool)
      modifies this
      ensures keys == Apply(old(keys), ReleaseDone(id, state, now))
      ensures released <==> id in old(keys).inflight
      ensures !released ==> keys == old(keys)
    {
      if id !in keys.inflight {
        UnreleasedIsIdle(keys, id, state, now);
        return false;
      }
      keys := keys.(inflight := keys.inflight - {id});
      keys := keys.(harvest := keys.harvest[id := now]);
      if id in keys.jobs { keys := keys.(jobs := keys.jobs[id := keys.jobs[id].(status := Storing)]); }
      ReleaseSlot(Some(state), false);
      return true;
    }

    /** _count_batch_page: one finished page of a batch, unless the job had already finished. */
    method CountBatchPage(state: Option<Job>, status: Status) returns (batch: Option<BatchId>)
      requires status.Terminal()
      modifies this
      ensures batch == if state.Some? && !state.value.status.Terminal() then state.value.batch else None
      ensures keys == old(keys).(
        done := if batch.Some? && status.Done? then Incr(old(keys).done, batch.value, 1) else old(keys).done,
        failed := if batch.Some? && status.Failed? then Incr(old(keys).failed, batch.value, 1) else old(keys).failed)
    {
      if state.None? || state.value.batch.None? || state.value.status.Terminal() { return None; }
      batch := state.value.batch;
      if status.Done? {
        keys := keys.(done := Incr(keys.done, batch.value, 1));
      } else {
        keys := keys.(failed := Incr(keys.failed, batch.value, 1));
      }
    }

    /** The final status, and out of the in-flight set and the harvest queue. */
    method WriteFinal(id: JobId, status: Status) returns (removed: bool)
      modifies this
      ensures keys == old(keys).(
        jobs := if id in old(keys).jobs
          then old(keys).jobs[id := old(keys).jobs[id].(status := status)] else old(keys).jobs,
        inflight := old(keys).inflight - {id},
        harvest := old(keys).harvest - {id})
      ensures removed <==> id in old(keys).inflight
    {
      if id in keys.jobs { keys := keys.(jobs := keys.jobs[id := keys.jobs[id].(status := status)]); }
      keys := keys.(harvest := keys.harvest - {id});
      removed := id in keys.inflight;
      keys := keys.(inflight := keys.inflight - {id});
    }

    method SetDoneOf(id: JobId, snapshot: Option<Job>) returns (batch: Option<BatchId>)
      modifies this
      ensures keys == Apply(old(keys), SetDone(id, snapshot))
      ensures var k := old(keys);
        var state := if snapshot.None? || snapshot.value.batch.Some? then GetJob(k, id) else snapshot;
        batch == if state.Some? && !state.value.status.Terminal() then state.value.batch else None
      ensures CountedAs(old(keys), keys, batch, true)
    {
      var state := if snapshot.None? || snapshot.value.batch.Some? then GetJob(keys, id) else snapshot;
      batch := CountBatchPage(state, Done);
      var removed := WriteFinal(id, Done);
      if removed { ReleaseSlot(state, false); }
    }

    method SetFailedOf(id: JobId) returns (batch: Option<BatchId>)
      modifies this
      ensures keys == Apply(old(keys), SetFailed(id))
      ensures var state := GetJob(old(keys), id);
        batch == if state.Some? && !state.value.status.Terminal() then state.value.batch else None
      ensures CountedAs(old(keys), keys, batch, false)
    {
      var state := GetJob(keys, id);
      batch := CountBatchPage(state, Failed);
      var removed := WriteFinal(id, Failed);
      if removed {
        ReleaseSlot(state, false);
      } else if state.Some? && state.value.status.Queued? {
        keys := keys.(loadQueued := Incr(keys.loadQueued, state.value.field, -1));
      }
    }

    /** release_and_requeue after the release: the hash back to queued, off the harvest queue. */
    method ResetToQueued(id: JobId)
      modifies this
      ensures keys == old(keys).(
        jobs := if id in old(keys).jobs
                then old(keys).jobs[id := old(keys).jobs[id].(status := Queued, backend := None)] else old(keys).jobs,
        harvest := old(keys).harvest - {id})
    {
      if id in keys.jobs {
        keys := keys.(jobs := keys.jobs[id := keys.jobs[id].(status := Queued, backend := None)]);
      }
      keys := keys.(harvest := keys.harvest - {id});
    }

    /** release_and_requeue's SREM and what it gates. */
    method LeaveForRequeue(id: JobId) returns (state: Option<Job>)
      modifies this
      ensures keys == Left(old(keys), id) && state == GetJob(old(keys), id)
    {
      state := GetJob(keys, id);
      var removed := id in keys.inflight;
      keys := keys.(inflight := keys.inflight - {id});
      if removed { ReleaseSlot(state, true); }
    }

    /** release_and_requeue up to the point where the job goes back on a queue. */
    method ReleaseForRequeue(id: JobId) returns (state: Option<Job>)
      modifies this
      ensures keys == Apply(old(keys), Release(id)) && state == GetJob(old(keys), id)
    {
      state := LeaveForRequeue(id);
      ResetToQueued(id);
    }

    method ReleaseAndRequeueOf(id: JobId, score: Time, retryAt: Option<Time>, avoid: Option<BackendId>)
      modifies this
      ensures var priority := if id in old(keys).jobs then old(keys).jobs[id].priority else 0;
        keys == Apply(Apply(old(keys), Release(id)),
          if retryAt.Some? then ScheduleRetry(id, score, retryAt.value, avoid) else AddPending(id, priority, score))
    {
      var state := ReleaseForRequeue(id);
      if retryAt.Some? {
        ScheduleRetryOf(id, score, retryAt.value, avoid);
      } else {
        AddToPending(if state.Some? then state.value.priority else 0, id, score);
      }
    }

    method RescheduleHarvestOf(id: JobId, at: Time)
      modifies this
      ensures keys == Apply(old(keys), RescheduleHarvest(id, at))
    {
      keys := keys.(harvest := keys.harvest[id := at]);
    }

    // ---------------------------------------------------------------- repair

    /** One script: no dispatch or harvest lands between the count and the write. */
    method RebuildBackendCounters(known: set<BackendId>) returns (fixed: nat, ghost off: set<BackendId>)
      modifies this
      ensures Rebuilt(old(keys), known, keys)
      ensures fixed == |off| && forall b: BackendId :: b in off <==> WasOff(old(keys), known, b)
    {
      var slots, batches;
      slots, batches, fixed, off := RebuildCounters(keys, known);
      keys := keys.(slots := slots, batches := batches);
    }

    /** Recounts both load counters from the queues; nothing else runs meanwhile. */
    method RebuildLoad() returns (queued: seq<JobId>, inflight: seq<JobId>)
      modifies this
      ensures LoadRecounted(old(keys), queued, inflight, keys)
    {
      var k;
      k, queued, inflight := RebuildLoadCounters(keys);
      keys := k;
    }
  }

  /** The batch that is returned has one more done page, or one more failed page, and no other has. */
  ghost predicate CountedAs(k: Keys, k': Keys, batch: Option<BatchId>, isDone: bool) {
    forall t: BatchId :: var one := if batch == Some(t) then 1 else 0;
      && Get(k'.done, t) == Get(k.done, t) + (if isDone then one else 0)
      && Get(k'.failed, t) == Get(k.failed, t) + (if isDone then 0 else one)
  }

  /** What a successful SADD gates. */
  ghost function Dispatched(k: Keys, state: Option<Job>, backend: BackendId): Keys {
    Pay(k.(batches := if state.Some? && state.value.batch.Some?
                      then Incr(k.batches, (backend, state.value.batch.value), 1) else k.batches),
        if state.Some? then Delta(backend, 1, state.value.field, -1, 1) else Delta(backend, 1, 0, 0, 0))
  }

  /** The keys after set_running's HSET and SADD. */
  ghost function Entered(k: Keys, id: JobId, backend: BackendId): Keys {
    k.(jobs := if id in k.jobs then k.jobs[id := k.jobs[id].(status := Running, backend := Some(backend))] else k.jobs,
       inflight := k.inflight + {id})
  }

  lemma DispatchInParts(k: Keys, id: JobId, backend: BackendId)
    ensures var entered := Entered(k, id, backend);
      Apply(k, SetRunning(id, backend)) ==
      if id in k.inflight then entered else Dispatched(entered, GetJob(entered, id), backend)
  {
  }

  /** A release_done that finds the job gone changes nothing. */
  lemma UnreleasedIsIdle(k: Keys, id: JobId, state: Job, now: Time)
    requires id !in k.inflight
    ensures Apply(k, ReleaseDone(id, state, now)) == k
  {
  }

  ghost function Left(k: Keys, id: JobId): Keys {
    Pay(k.(inflight := k.inflight - {id},
           batches := if id in k.inflight then LeaveBatch(k.batches, GetJob(k, id)) else k.batches),
        if id in k.inflight then LeaveDelta(GetJob(k, id), 1) else NO_DELTA)
  }

  // ------------------------------------------------------------------ the calls a bulk method makes

  ghost function EnqueueOps(states: seq<(JobId, Job)>): seq<Op> {
    seq(|states|, i requires 0 <= i < |states| => Enqueue(states[i].0, states[i].1))
  }

  /** No later state is listed for the same job. */
  predicate LastOf(states: seq<(JobId, Job)>, i: nat)
    requires i < |states|
  {
    forall j :: i < j < |states| ==> states[j].0 != states[i].0
  }

  /** The state is the job's hash, and the job is on its level at its submit time. */
  predicate StoredAndQueued(k: Keys, id: JobId, state: Job) {
    && id in k.jobs && k.jobs[id] == state && state.priority in k.levels
    && (state.priority, id) in k.pending && k.pending[(state.priority, id)] == state.submittedAt
  }

  lemma {:induction false} StaysStored(k: Keys, ops: seq<Op>, id: JobId, state: Job)
    requires StoredAndQueued(k, id, state) && forall i :: 0 <= i < |ops| ==> ops[i].Enqueue? && ops[i].id != id
    ensures StoredAndQueued(RunCalls(k, ops), id, state)
    decreases |ops|
  {
    if ops != [] {
      StateFunctions.EnqueueDoes(k, ops[0].id, ops[0].job);
      StaysStored(Apply(k, ops[0]), ops[1..], id, state);
    }
  }

  lemma LastIsStored(k: Keys, states: seq<(JobId, Job)>, i: nat)
    requires i < |states| && LastOf(states, i)
    ensures StoredAndQueued(RunCalls(k, EnqueueOps(states)), states[i].0, states[i].1)
  {
    var ops := EnqueueOps(states);
    var before := RunCalls(k, ops[..i]);
    RunCallsNext(k, ops, i);
    StateFunctions.EnqueueDoes(before, states[i].0, states[i].1);
    StaysStored(Apply(before, ops[i]), ops[i + 1..], states[i].0, states[i].1);
    assert ops == ops[..i + 1] + ops[i + 1..];
    RunCallsConcat(k, ops[..i + 1], ops[i + 1..]);
  }

  ghost function ClaimOps(entries: seq<Entry>, now: Time): seq<Op> {
    seq(|entries|, i requires 0 <= i < |entries| => Claim(entries[i].id, entries[i].priority, now))
  }

  ghost function SweepOps(ids: seq<JobId>, now: Time, grace: Time): seq<Op> {
    seq(|ids|, i requires 0 <= i < |ids| => RequeueOrphan(ids[i], now, grace))
  }

  lemma {:induction false} RunCallsConcat(k: Keys, a: seq<Op>, b: seq<Op>)
    ensures RunCalls(k, a + b) == RunCalls(RunCalls(k, a), b)
    decreases |a|
  {
    if a == [] {
      assert a + b == b;
    } else {
      assert (a + b)[0] == a[0] && (a + b)[1..] == a[1..] + b;
      RunCallsConcat(Apply(k, a[0]), a[1..], b);
    }
  }

  lemma RunCallsNext(k: Keys, ops: seq<Op>, i: nat)
    requires i < |ops|
    ensures RunCalls(k, ops[..i + 1]) == Apply(RunCalls(k, ops[..i]), ops[i])
  {
    assert ops[..i + 1] == ops[..i] + [ops[i]] && [ops[i]][1..] == [];
    RunCallsConcat(k, ops[..i], [ops[i]]);
  }

  ghost function KeysOf(entries: seq<Entry>): set<(int, JobId)> {
    set e | e in entries :: (e.priority, e.id)
  }

  lemma KeysOfNext(entries: seq<Entry>, i: nat)
    requires i < |entries|
    ensures KeysOf(entries[..i + 1]) == KeysOf(entries[..i]) + {(entries[i].priority, entries[i].id)}
  {
  }

  /** The readable jobs whose queue entry is among `keys`. */
  ghost function Won(pending: map<(int, JobId), Time>, jobs: map<JobId, Job>, keys: set<(int, JobId)>): set<JobId> {
    set key | key in keys && key in pending && key.1 in jobs :: key.1
  }

  lemma WonNext(pending: map<(int, JobId), Time>, jobs: map<JobId, Job>, keys: set<(int, JobId)>, key: (int, JobId))
    ensures Won(pending, jobs, keys + {key}) ==
      Won(pending, jobs, keys) + (if key in pending && key.1 in jobs then {key.1} else {})
    ensures key in keys && key in pending && key.1 in jobs ==> key.1 in Won(pending, jobs, keys)
    ensures pending - (keys + {key}) == pending - keys - {key}
  {
  }

  // ------------------------------------------------------------------ what a sweep and a promotion keep

  /** Of the jobs to sweep, those not listed so far are left. */
  ghost predicate Swept(k: Keys, k': Keys, ids: seq<JobId>, now: Time, grace: Time) {
    forall id :: Sweepable(k', id, now, grace) <==> Sweepable(k, id, now, grace) && id !in ids
  }

  lemma SweepOne(k: Keys, id: JobId, now: Time, grace: Time, x: JobId)
    ensures Sweepable(Apply(k, RequeueOrphan(id, now, grace)), x, now, grace) <==>
      Sweepable(k, x, now, grace) && x != id
  {
    assert Apply(k, RequeueOrphan(id, now, grace)).jobs == k.jobs;
  }

  lemma SweepNext(k: Keys, before: Keys, ids: seq<JobId>, i: nat, now: Time, grace: Time)
    requires i < |ids| && Swept(k, before, ids[..i], now, grace)
    ensures Swept(k, Apply(before, RequeueOrphan(ids[i], now, grace)), ids[..i + 1], now, grace)
    ensures forall id :: id in ids[..i + 1] <==> id in ids[..i] || id == ids[i]
  {
    assert ids[..i + 1] == ids[..i] + [ids[i]];
    forall x ensures Sweepable(Apply(before, RequeueOrphan(ids[i], now, grace)), x, now, grace) <==>
                     Sweepable(before, x, now, grace) && x != ids[i] {
      SweepOne(before, ids[i], now, grace, x);
    }
  }

  function Due(delayed: map<JobId, Time>, now: Time): set<JobId> {
    set id | id in delayed && delayed[id] <= now
  }

  function RetryScore(j: Job, now: Time): Time {
    if j.queueScore.Some? then j.queueScore.value else now
  }

  predicate GoesTo(jobs: map<JobId, Job>, moved: set<JobId>, p: int, id: JobId) {
    id in moved && id in jobs && p == jobs[id].priority
  }

  /** The queues gained exactly the readable jobs among `moved`, each on its own level. */
  ghost predicate Requeued(jobs: map<JobId, Job>, before: map<(int, JobId), Time>, after: map<(int, JobId), Time>,
                           moved: set<JobId>, now: Time) {
    forall p, id: JobId ::
      && ((p, id) in after <==> (p, id) in before || GoesTo(jobs, moved, p, id))
      && ((p, id) in after ==>
        after[(p, id)] == if GoesTo(jobs, moved, p, id) then RetryScore(jobs[id], now) else before[(p, id)])
  }

  /** The levels gained are exactly theirs. */
  ghost predicate LevelsAdded(jobs: map<JobId, Job>, before: set<int>, after: set<int>, moved: set<JobId>) {
    after == before + set id | id in moved && id in jobs :: jobs[id].priority
  }

  lemma LevelsAddedNext(jobs: map<JobId, Job>, start: set<int>, before: set<int>, moved: set<JobId>, id: JobId)
    requires LevelsAdded(jobs, start, before, moved)
    ensures LevelsAdded(jobs, start, if id in jobs then before + {jobs[id].priority} else before, moved + {id})
  {
  }

  /** On the job's own level, at the score its retry recorded, or now if it has none. */
  predicate QueuedAgain(j: Job, id: JobId, now: Time, k: Keys) {
    && j.priority in k.levels && (j.priority, id) in k.pending
    && k.pending[(j.priority, id)] == match j.queueScore case Some(score) => score case None => now
  }

  lemma PromotedMeans(k: Keys, k': Keys, now: Time)
    requires PromotedAll(k, k', Due(k.delayed, now), now)
    ensures forall id :: id in k'.delayed <==> id in k.delayed && now < k.delayed[id]
    ensures forall id :: id in k.delayed && k.delayed[id] <= now && id in k.jobs ==>
      QueuedAgain(k.jobs[id], id, now, k')
  {
    forall id | id in k.delayed && k.delayed[id] <= now && id in k.jobs
      ensures QueuedAgain(k.jobs[id], id, now, k')
    {
      assert id in Due(k.delayed, now) && GoesTo(k.jobs, Due(k.delayed, now), k.jobs[id].priority, id);
    }
  }

  /** The two calls of a promotion; only the ZREM of a job whose state is gone. */
  ghost function PromoteOps(jobs: map<JobId, Job>, id: JobId, now: Time): seq<Op> {
    [TakeDelayed(id)] + if id in jobs then [AddPending(id, jobs[id].priority, RetryScore(jobs[id], now))] else []
  }

  ghost function PromoteAll(jobs: map<JobId, Job>, order: seq<JobId>, now: Time): seq<Op> {
    if order == [] then []
    else PromoteAll(jobs, order[..|order| - 1], now) + PromoteOps(jobs, order[|order| - 1], now)
  }

  ghost function Readable(jobs: map<JobId, Job>, ids: set<JobId>): set<JobId> {
    set id | id in ids && id in jobs
  }

  ghost function ReadableIn(jobs: map<JobId, Job>, order: seq<JobId>): nat {
    if order == [] then 0
    else ReadableIn(jobs, order[..|order| - 1]) + if order[|order| - 1] in jobs then 1 else 0
  }

  lemma {:induction false} ReadableInSize(jobs: map<JobId, Job>, order: seq<JobId>, ids: set<JobId>)
    requires EachOnce(order, ids)
    ensures ReadableIn(jobs, order) == |Readable(jobs, ids)|
    decreases |order|
  {
    if order == [] {
      assert Readable(jobs, ids) == {} by { assert forall id: JobId :: id in ids ==> id in multiset(ids); }
    } else {
      var before, id := order[..|order| - 1], order[|order| - 1];
      assert order == before + [id];
      OnceLess(before, ids, id);
      ReadableInSize(jobs, before, ids - {id});
      assert Readable(jobs, ids - {id}) == Readable(jobs, ids) - {id};
      Removed(Readable(jobs, ids), Readable(jobs, ids - {id}), id);
    }
  }

  ghost predicate EachOnce(order: seq<JobId>, ids: set<JobId>) {
    multiset(order) == multiset(ids)
  }

  lemma OnceMore(order: seq<JobId>, ids: set<JobId>, id: JobId)
    requires EachOnce(order, ids) && id !in ids
    ensures EachOnce(order + [id], ids + {id})
  {
  }

  lemma PromoteAllNext(k: Keys, order: seq<JobId>, id: JobId, now: Time)
    requires RunCalls(k, PromoteAll(k.jobs, order, now)).jobs == k.jobs
    ensures RunCalls(k, PromoteAll(k.jobs, order + [id], now)) ==
      Promotion(RunCalls(k, PromoteAll(k.jobs, order, now)), id, now)
  {
    assert (order + [id])[..|order|] == order;
    RunCallsConcat(k, PromoteAll(k.jobs, order, now), PromoteOps(k.jobs, id, now));
    PromotionIsItsCalls(RunCalls(k, PromoteAll(k.jobs, order, now)), id, now);
  }

  lemma PromotionIsItsCalls(k: Keys, id: JobId, now: Time)
    ensures RunCalls(k, PromoteOps(k.jobs, id, now)) == Promotion(k, id, now)
  {
    var k1 := Apply(k, TakeDelayed(id));
    if id in k.jobs {
      var add := AddPending(id, k.jobs[id].priority, RetryScore(k.jobs[id], now));
      assert PromoteOps(k.jobs, id, now) == [TakeDelayed(id), add];
      assert [TakeDelayed(id), add][1..] == [add] && [add][1..] == [];
      assert RunCalls(k1, [add]) == Apply(k1, add);
    } else {
      assert PromoteOps(k.jobs, id, now)[1..] == [];
    }
  }

  /** What promoting one delayed job does. */
  ghost function Promotion(k: Keys, id: JobId, now: Time): Keys {
    k.(delayed := k.delayed - {id},
       pending := AddedEntry(k.jobs, k.pending, now, id),
       levels := if id in k.jobs then k.levels + {k.jobs[id].priority} else k.levels)
  }

  ghost predicate PromotedAll(k: Keys, k': Keys, moved: set<JobId>, now: Time) {
    && k' == k.(delayed := k'.delayed, pending := k'.pending, levels := k'.levels)
    && DelayedLeft(k.delayed, k'.delayed, moved)
    && Requeued(k.jobs, k.pending, k'.pending, moved, now)
    && LevelsAdded(k.jobs, k.levels, k'.levels, moved)
  }

  lemma {:induction false} PromotedByCalls(k: Keys, order: seq<JobId>, moved: set<JobId>, now: Time)
    requires EachOnce(order, moved)
    ensures PromotedAll(k, RunCalls(k, PromoteAll(k.jobs, order, now)), moved, now)
    decreases |order|
  {
    if order == [] {
      NothingPromoted(k, moved, now);
    } else {
      var before, id := order[..|order| - 1], order[|order| - 1];
      assert order == before + [id];
      OnceLess(before, moved, id);
      PromotedByCalls(k, before, moved - {id}, now);
      PromotedThen(k, before, moved, now, id);
    }
  }

  lemma PromotedThen(k: Keys, order: seq<JobId>, moved: set<JobId>, now: Time, id: JobId)
    requires id in moved && PromotedAll(k, RunCalls(k, PromoteAll(k.jobs, order, now)), moved - {id}, now)
    ensures PromotedAll(k, RunCalls(k, PromoteAll(k.jobs, order + [id], now)), moved, now)
  {
    var before := RunCalls(k, PromoteAll(k.jobs, order, now));
    assert moved - {id} + {id} == moved;
    PromoteAllNext(k, order, id, now);
    PromotedNext(k, before, moved - {id}, now, id);
  }

  lemma NothingPromoted(k: Keys, moved: set<JobId>, now: Time)
    requires EachOnce([], moved)
    ensures PromotedAll(k, k, moved, now)
  {
    forall id: JobId ensures id !in moved { assert id !in multiset(moved); }
  }

  lemma OnceLess(order: seq<JobId>, ids: set<JobId>, id: JobId)
    requires EachOnce(order + [id], ids)
    ensures id in ids && EachOnce(order, ids - {id})
  {
    assert multiset(order + [id]) == multiset(order) + multiset{id};
    assert id in multiset(ids);
    assert multiset(ids - {id}) == multiset(ids) - multiset{id};
  }

  lemma PromotedNext(k: Keys, before: Keys, moved: set<JobId>, now: Time, id: JobId)
    requires PromotedAll(k, before, moved, now)
    ensures PromotedAll(k, Promotion(before, id, now), moved + {id}, now)
  {
    RequeuedNext(k.jobs, k.pending, before.pending, moved, now, id);
    LevelsAddedNext(k.jobs, k.levels, before.levels, moved, id);
  }

  function AddedEntry(jobs: map<JobId, Job>, before: map<(int, JobId), Time>, now: Time, id: JobId)
    : map<(int, JobId), Time>
  {
    if id in jobs then before[(jobs[id].priority, id) := RetryScore(jobs[id], now)] else before
  }

  lemma RequeuedNext(jobs: map<JobId, Job>, start: map<(int, JobId), Time>, before: map<(int, JobId), Time>,
                     moved: set<JobId>, now: Time, id: JobId)
    requires Requeued(jobs, start, before, moved, now)
    ensures Requeued(jobs, start, AddedEntry(jobs, before, now, id), moved + {id}, now)
  {
  }

  ghost predicate DelayedLeft(before: map<JobId, Time>, after: map<JobId, Time>, moved: set<JobId>) {
    && (forall id :: id in after <==> id in before && id !in moved)
    && (forall id :: id in after ==> after[id] == before[id])
  }
}
