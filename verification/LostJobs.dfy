/**
 A loss inside a state function. set_running writes status=running before it adds the job to the
 in-flight set, and release_and_requeue takes the job out of that set before it writes
 status=queued. A process that dies between the two leaves a job whose hash says running and that
 is in no set, queue or memory. No event of the protocol ever touches it again, and the sweep
 passes it by, since it only looks at queued jobs.
 */
module LostJobs {
  import opened Wrappers
  import opened RedisKeys
  import opened Protocol
  import opened ProtocolRuns

  ghost predicate Lost(s: State, id: JobId) {
    && id in s.keys.jobs && s.keys.jobs[id].status.Running?
    && id !in s.keys.inflight && id !in s.keys.harvest && id !in s.keys.delayed && id !in s.requeuing
    && (forall p :: (p, id) !in s.keys.pending)
    && (forall w :: !Holds(s, w, id))
  }

  /** The worker dies after set_running's HSET. */
  ghost function DiesInSetRunning(s: State, w: WorkerId, id: JobId, b: BackendId): State
    requires id in s.keys.jobs
  {
    s.(keys := s.keys.(jobs := s.keys.jobs[id := s.keys.jobs[id].(status := Running, backend := Some(b))]),
       workers := s.workers[w := IDLE_WORKER])
  }

  lemma DyingInSetRunningLosesTheJob(s: State, w: WorkerId, id: JobId, b: BackendId)
    requires Inv(s) && Enabled(s, Dispatch(w, id, b))
    ensures id in s.keys.jobs && Lost(DiesInSetRunning(s, w, id, b), id)
  {
    assert Holds(s, w, id) && HolderAlone(s, w, id) && JobPlaced(s, id);
    forall p ensures (p, id) !in s.keys.pending { assert EntryPlaced(s, p, id); }
    forall v ensures !Holds(DiesInSetRunning(s, w, id, b), v, id) { assert OneHolder(s, v, w, id); }
  }

  /** The poller dies after release_and_requeue's SREM. */
  ghost function DiesInRelease(s: State, id: JobId): State {
    s.(keys := s.keys.(inflight := s.keys.inflight - {id}), requeuing := {})
  }

  lemma DyingInReleaseLosesTheJob(s: State, id: JobId)
    requires Inv(s) && Enabled(s, PollRelease(id))
    ensures Lost(DiesInRelease(s, id), id)
  {
    assert JobPlaced(s, id);
    forall p ensures (p, id) !in s.keys.pending { assert EntryPlaced(s, p, id); }
    forall w ensures !Holds(DiesInRelease(s, id), w, id) { assert HolderAlone(s, w, id); }
  }

  /** An event about another job leaves a lost job lost. */
  lemma LostAmongOthers(s: State, e: Event, id: JobId)
    requires Lost(s, id) && Enabled(s, e) && Call(s, e).Some? && Call(s, e).value.id != id
    ensures Lost(Next(s, e), id)
  {
    OtherJobStays(s.keys, Call(s, e).value, id);
    OtherHeldStay(s, e, id);
    forall w ensures !Holds(Next(s, e), w, id) { assert !Holds(s, w, id); }
  }

  /** The few events that can still name it find nothing to do. */
  lemma LostWhenCalled(s: State, e: Event, id: JobId)
    requires Lost(s, id) && Enabled(s, e) && Call(s, e).Some? && Call(s, e).value.id == id
    ensures Lost(Next(s, e), id)
  {
    CallsForItsJob(s, e);
    if LeavesHand(e) || e.FinishPromote? { assert Holds(s, e.w, id); }
    assert e.ClaimEntry? || e.Sweep? || e.EngineDone?;
    forall w ensures !Holds(Next(s, e), w, id) { assert !Holds(s, w, id); }
  }

  lemma LostStays(s: State, e: Event, id: JobId)
    requires Lost(s, id) && Enabled(s, e)
    ensures Lost(Next(s, e), id)
  {
    if Call(s, e).None? {
      forall w ensures !Holds(Next(s, e), w, id) { assert !Holds(s, w, id); }
    } else if Call(s, e).value.id == id {
      LostWhenCalled(s, e, id);
    } else {
      LostAmongOthers(s, e, id);
    }
  }

  /** Whatever happens next, sweeps included, the job stays lost. */
  lemma {:induction false} LostForGood(s: State, es: seq<Event>, id: JobId)
    requires Lost(s, id) && Run(s, es)
    ensures Lost(After(s, es), id)
    ensures SweepAnyway(After(s, es), id) == After(s, es)
    decreases |es|
  {
    if es != [] {
      LostStays(s, es[0], id);
      LostForGood(Next(s, es[0]), es[1..], id);
    }
  }
}
