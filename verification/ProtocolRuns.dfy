/**
 What every run of the job protocol guarantees: each unfinished job is in exactly one place, no
 job is lost or dispatched twice, and every counter is exact. Also exactly when, at the protocol's
 granularity, an orphan sweep keeps this; SweepRaces.dfy shows what happens when it does not.
 */
module ProtocolRuns {
  import opened RedisKeys
  import opened Counters
  import opened Protocol
  import StateFunctions

  // ------------------------------------------------------------------ runs

  ghost predicate Run(s: State, es: seq<Event>)
    decreases |es|
  {
    es == [] || (Enabled(s, es[0]) && Run(Next(s, es[0]), es[1..]))
  }

  ghost function After(s: State, es: seq<Event>): State
    requires Run(s, es)
    decreases |es|
  {
    if es == [] then s else After(Next(s, es[0]), es[1..])
  }

  /** Empty keys and any number of idle workers. */
  ghost predicate Start(s: State) {
    s.keys == NO_KEYS && s.requeuing == {} && 0 < s.grace && forall w :: w in s.workers ==> s.workers[w] == IDLE_WORKER
  }

  lemma StartIsPlaced(s: State)
    requires Start(s)
    ensures Inv(s) && AllExact(s.keys)
  {
  }

  /** The counters that do not count pages. */
  ghost predicate JobCountersExact(k: Keys) {
    LoadInflightExact(k) && LoadQueuedExact(k) && SlotsExact(k) && BatchesExact(k)
  }

  ghost predicate AllExact(k: Keys) {
    JobCountersExact(k) && PagesExact(k)
  }

  /** Along the protocol every call meets what its counters need. */
  lemma CallsAreProper(s: State, e: Event)
    requires Inv(s) && Enabled(s, e) && Call(s, e).Some?
    ensures var op := Call(s, e).value;
      CurrentRun(s.keys, op) && ExpectedStatus(s.keys, op) && NoRevival(s.keys, op)
  {
    var id := Call(s, e).value.id;
    assert JobPlaced(s, id);
    if e.Dispatch? || e.FailDispatch? { assert HolderAlone(s, e.w, id); }
  }

  lemma EventKeepsJobCounters(s: State, e: Event)
    requires Inv(s) && Enabled(s, e) && JobCountersExact(s.keys)
    ensures JobCountersExact(Next(s, e).keys)
  {
    if Call(s, e).Some? {
      var op := Call(s, e).value;
      CallsAreProper(s, e);
      LoadInflightKept(s.keys, op);
      LoadQueuedKept(s.keys, op);
      SlotsKept(s.keys, op);
      BatchesKept(s.keys, op);
    }
  }

  lemma EventKeepsExact(s: State, e: Event)
    requires Inv(s) && Enabled(s, e) && AllExact(s.keys)
    ensures AllExact(Next(s, e).keys)
  {
    EventKeepsJobCounters(s, e);
    if Call(s, e).Some? {
      CallsAreProper(s, e);
      PagesKept(s.keys, Call(s, e).value);
    }
  }

  predicate SameButCounters(k: Keys, k': Keys) {
    && k'.jobs == k.jobs && k'.pending == k.pending && k'.levels == k.levels
    && k'.delayed == k.delayed && k'.inflight == k.inflight && k'.harvest == k.harvest
  }

  /** No counter is part of where a job is. */
  lemma CountersAreNotPlacement(s: State, s': State)
    requires Inv(s) && s' == s.(keys := s'.keys) && SameButCounters(s.keys, s'.keys)
    ensures Inv(s')
  {
    forall id ensures JobPlaced(s', id) { assert JobPlaced(s, id); }
    forall p, id ensures EntryPlaced(s', p, id) { assert EntryPlaced(s, p, id); }
    forall w, id ensures HolderAlone(s', w, id) { assert HolderAlone(s, w, id); }
    forall id ensures RequeuingAlone(s', id) { assert RequeuingAlone(s, id); }
    forall w, entry ensures PeekedKnown(s', w, entry) { assert PeekedKnown(s, w, entry); }
    forall v, w, id ensures OneHolder(s', v, w, id) { assert OneHolder(s, v, w, id); }
  }

  /** Every reachable state is placed, with every counter exact. */
  lemma {:induction false} RunIsPlacedAndExact(s: State, es: seq<Event>)
    requires Inv(s) && AllExact(s.keys) && Run(s, es)
    ensures Inv(After(s, es)) && AllExact(After(s, es).keys)
    decreases |es|
  {
    if es != [] {
      EventKeepsInv(s, es[0]);
      EventKeepsExact(s, es[0]);
      RunIsPlacedAndExact(Next(s, es[0]), es[1..]);
    }
  }

  // ------------------------------------------------------------------ exactly one place

  lemma AtMostOnePlace(s: State, id: JobId, a: Place, b: Place)
    requires Inv(s) && At(s, id, a) && At(s, id, b)
    ensures a == b
  {
    assert JobPlaced(s, id) && RequeuingAlone(s, id);
    if a.InQueue? { assert EntryPlaced(s, a.priority, id); }
    if b.InQueue? { assert EntryPlaced(s, b.priority, id); }
    if a.InHand? || a.InPromotion? { assert Holds(s, a.w, id) && HolderAlone(s, a.w, id); }
    if b.InHand? || b.InPromotion? { assert Holds(s, b.w, id) && HolderAlone(s, b.w, id); }
    if (a.InHand? || a.InPromotion?) && (b.InHand? || b.InPromotion?) { assert OneHolder(s, a.w, b.w, id); }
  }

  lemma SomePlace(s: State, id: JobId) returns (place: Place)
    requires Inv(s) && id in s.keys.jobs && !s.keys.jobs[id].status.Terminal()
    ensures At(s, id, place)
  {
    assert JobPlaced(s, id);
    if id in s.keys.inflight { return InFlight; }
    if id in s.keys.harvest { return InHarvest; }
    if id in s.keys.delayed { return InDelayed; }
    if id in s.requeuing { return InRequeue; }
    if p :| (p, id) in s.keys.pending { return InQueue(p); }
    if w :| Holds(s, w, id) {
      return if id in s.workers[w].hand then InHand(w) else InPromotion(w);
    }
    return Orphaned;
  }

  /** In every run from empty keys, every job still known is unfinished in exactly one place or
      finished in none. */
  lemma ExactlyOnePlace(s: State, es: seq<Event>, id: JobId)
    requires Start(s) && Run(s, es) && id in After(s, es).keys.jobs
    ensures var t := After(s, es);
      if t.keys.jobs[id].status.Terminal()
      then forall place :: !At(t, id, place)
      else exists place :: At(t, id, place) && forall other :: At(t, id, other) ==> other == place
  {
    StartIsPlaced(s);
    RunIsPlacedAndExact(s, es);
    var t := After(s, es);
    if t.keys.jobs[id].status.Terminal() {
      forall place ensures !At(t, id, place) {
        assert JobPlaced(t, id) && RequeuingAlone(t, id);
        if place.InQueue? { assert EntryPlaced(t, place.priority, id); }
        if place.InHand? || place.InPromotion? { assert HolderAlone(t, place.w, id); }
      }
    } else {
      var place := SomePlace(t, id);
      forall other | At(t, id, other) ensures other == place { AtMostOnePlace(t, id, other, place); }
    }
  }

  // ------------------------------------------------------------------ no job is lost

  lemma {:induction false} JobsAreNeverForgotten(s: State, es: seq<Event>, id: JobId)
    requires Run(s, es) && id in s.keys.jobs
    ensures id in After(s, es).keys.jobs
    ensures After(s, es).keys.jobs[id].submittedAt == s.keys.jobs[id].submittedAt
    ensures After(s, es).keys.jobs[id].priority == s.keys.jobs[id].priority
    ensures After(s, es).keys.jobs[id].field == s.keys.jobs[id].field
    ensures After(s, es).keys.jobs[id].batch == s.keys.jobs[id].batch
    decreases |es|
  {
    if es != [] {
      if Call(s, es[0]).Some? { IdentityKept(s.keys, Call(s, es[0]).value, id); }
      JobsAreNeverForgotten(Next(s, es[0]), es[1..], id);
    }
  }

  /** Whatever happens to it, a job stays what it was submitted as, and is only ever queued as that. */
  lemma KnownAsSubmitted(s: State, id: JobId, job: Job, es: seq<Event>)
    requires Inv(s) && AllExact(s.keys) && Enabled(s, Submit(id, job)) && Run(Next(s, Submit(id, job)), es)
    ensures var k := After(Next(s, Submit(id, job)), es).keys;
      && id in k.jobs && k.jobs[id].priority == job.priority && k.jobs[id].submittedAt == job.submittedAt
      && k.jobs[id].field == job.field && k.jobs[id].batch == job.batch
      && (forall p :: (p, id) in k.pending ==> p == job.priority && k.pending[(p, id)] == job.submittedAt)
  {
    var s1 := Next(s, Submit(id, job));
    StateFunctions.EnqueueDoes(s.keys, id, job);
    EventKeepsInv(s, Submit(id, job));
    EventKeepsExact(s, Submit(id, job));
    JobsAreNeverForgotten(s1, es, id);
    RunIsPlacedAndExact(s1, es);
    forall p | (p, id) in After(s1, es).keys.pending
      ensures p == job.priority && After(s1, es).keys.pending[(p, id)] == job.submittedAt
    {
      assert EntryPlaced(After(s1, es), p, id);
    }
  }

  /** A submitted job is stored as it is and queued on its level at its submit time. */
  lemma SubmitQueues(s: State, id: JobId, job: Job)
    requires Enabled(s, Submit(id, job))
    ensures var k := Next(s, Submit(id, job)).keys;
      && id in k.jobs && k.jobs[id] == job && job.priority in k.levels
      && (job.priority, id) in k.pending && k.pending[(job.priority, id)] == job.submittedAt
  {
    StateFunctions.EnqueueDoes(s.keys, id, job);
  }

  /** A restart of a worker or of the poller, or a dispatch, promotion or requeue that raised. */
  predicate Loses(e: Event) {
    e.Crash? || e.PollerRestart? || e.DispatchRaises? || e.PromoteRaises? || e.RequeueRaises?
  }

  /** Nothing else orphans a job. */
  lemma OrphansComeFromLosses(s: State, e: Event, id: JobId)
    requires Inv(s) && Enabled(s, e) && !Loses(e)
    requires At(Next(s, e), id, Orphaned)
    ensures At(s, id, Orphaned)
  {
    var s' := Next(s, e);
    if Call(s, e).Some? {
      var op := Call(s, e).value;
      if id != op.id {
        OtherJobStays(s.keys, op, id);
        OtherHeldStay(s, e, id);
        forall w ensures !Holds(s, w, id) { assert !Holds(s', w, id); }
        forall p ensures (p, id) !in s.keys.pending { assert (p, id) !in s'.keys.pending; }
      } else {
        CalledJobOrphaned(s, e, id);
      }
    } else {
      forall w ensures !Holds(s, w, id) { assert !Holds(s', w, id); }
      forall p ensures (p, id) !in s.keys.pending { assert (p, id) !in s'.keys.pending; }
    }
  }

  lemma CalledJobOrphaned(s: State, e: Event, id: JobId)
    requires Inv(s) && Enabled(s, e) && Call(s, e).Some? && Call(s, e).value.id == id
    ensures At(Next(s, e), id, Orphaned) ==> At(s, id, Orphaned)
  {
    var s' := Next(s, e);
    assert JobPlaced(s, id) && RequeuingAlone(s, id);
    var op := Call(s, e).value;
    assert AddedTo(s.keys, op).Some? ==> (AddedTo(s.keys, op).value.0, id) in s'.keys.pending;
    assert e.Promote? ==> Holds(s', e.w, id);
    assert e.ClaimEntry? ==> PeekedKnown(s, e.w, e.entry) && (!Holds(s', e.w, id) ==> !Holds(s, e.w, id));
    if At(s', id, Orphaned) {
      forall w ensures !Holds(s, w, id) { assert !Holds(s', w, id) && HolderAlone(s, w, id); }
      forall p ensures (p, id) !in s.keys.pending { assert (p, id) !in s'.keys.pending && EntryPlaced(s, p, id); }
    }
  }

  /** What raises orphans its job, with the process alive. */
  lemma RaisingOrphans(s: State, e: Event)
    requires Inv(s) && Enabled(s, e) && (e.DispatchRaises? || e.PromoteRaises? || e.RequeueRaises?)
    ensures At(Next(s, e), e.id, Orphaned)
  {
    var s', id := Next(s, e), e.id;
    assert RequeuingAlone(s, id);
    assert !e.RequeueRaises? ==> Holds(s, e.w, id) && HolderAlone(s, e.w, id);
    forall p ensures (p, id) !in s.keys.pending { assert EntryPlaced(s, p, id); }
    forall v ensures !Holds(s', v, id) {
      assert HolderAlone(s, v, id);
      if !e.RequeueRaises? { assert OneHolder(s, v, e.w, id); }
    }
  }

  /** The other way round: within the grace period of its claim a sweep leaves it alone. */
  lemma SweepWaitsForGrace(s: State, id: JobId)
    requires id in s.keys.jobs && s.keys.jobs[id].claimedAt.Some?
    requires s.now < s.keys.jobs[id].claimedAt.value + s.grace
    ensures SweepAnyway(s, id) == s
  {
    StateFunctions.SweepDoes(s.keys, id, s.now, s.grace);
  }

  /** Once the grace period is over, a sweep puts an orphan back on its own level, at the score it
      was submitted with. */
  lemma SweepRecoversOrphan(s: State, id: JobId)
    requires Inv(s) && At(s, id, Orphaned)
    requires var claimed := s.keys.jobs[id].claimedAt; claimed.None? || claimed.value + s.grace <= s.now
    ensures Enabled(s, Sweep(id)) && QueuedAsSubmitted(Next(s, Sweep(id)), id)
  {
    assert forall w :: w in s.workers && id in s.workers[w].promoting ==> Holds(s, w, id);
  }

  // ------------------------------------------------------------------ when a sweep is safe

  /** requeue_orphans' script on one job, at whatever moment it runs. */
  ghost function SweepAnyway(s: State, id: JobId): State {
    s.(keys := Apply(s.keys, RequeueOrphan(id, s.now, s.grace)))
  }

  ghost predicate ClaimIsStale(s: State, id: JobId) {
    id in s.keys.jobs && !RecentlyClaimed(s.keys.jobs[id], s.now, s.grace)
  }

  /** The script re-adds only orphans and jobs on their way back to a queue. */
  lemma SweepReAddsOnly(s: State, id: JobId)
    requires Inv(s) && SweepAnyway(s, id) != s
    ensures At(s, id, Orphaned) || OnItsWayBack(s, id)
  {
    assert Sweepable(s.keys, id, s.now, s.grace);
    if !OnItsWayBack(s, id) {
      forall p ensures (p, id) !in s.keys.pending { assert EntryPlaced(s, p, id); }
      forall w ensures !Holds(s, w, id) { assert HolderAlone(s, w, id); }
    }
  }

  /** The exact condition for the sweep to be safe: it must not run between the two commands that
      take a job claimed longer ago than the grace period back to a queue. */
  lemma SweepSafeIff(s: State, id: JobId)
    requires Inv(s)
    ensures Inv(SweepAnyway(s, id)) <==> !(OnItsWayBack(s, id) && ClaimIsStale(s, id))
  {
    var s' := SweepAnyway(s, id);
    if OnItsWayBack(s, id) && ClaimIsStale(s, id) {
      assert JobPlaced(s, id) && RequeuingAlone(s, id);
      if w :| w in s.workers && id in s.workers[w].promoting {
        assert Holds(s, w, id) && HolderAlone(s, w, id);
        assert Holds(s', w, id) && !HolderAlone(s', w, id);
      } else {
        assert !RequeuingAlone(s', id);
      }
    } else {
      assert OnItsWayBack(s, id) ==> id in s.keys.jobs by { OnItsWayBackIsKnown(s, id); }
      assert Enabled(s, Sweep(id));
      assert Next(s, Sweep(id)) == s';
      EventKeepsInv(s, Sweep(id));
    }
  }

  lemma OnItsWayBackIsKnown(s: State, id: JobId)
    requires Inv(s)
    ensures OnItsWayBack(s, id) ==> id in s.keys.jobs
  {
    assert RequeuingAlone(s, id);
    if w :| w in s.workers && id in s.workers[w].promoting {
      assert Holds(s, w, id) && HolderAlone(s, w, id);
    }
  }

  // ------------------------------------------------------------------ no job is dispatched twice

  /** Only release_and_requeue makes a dispatched job queued again. */
  lemma OnlyReleaseQueues(k: Keys, op: Op, id: JobId)
    requires id in k.jobs && !k.jobs[id].status.Queued?
    requires op.id == id ==> !op.Release? && !op.Enqueue?
    ensures id in NextJobs(k, op) && !NextJobs(k, op)[id].status.Queued?
  {
  }

  lemma StaysDispatched(s: State, e: Event, id: JobId)
    requires Inv(s) && Enabled(s, e)
    requires id in s.keys.jobs && !s.keys.jobs[id].status.Queued?
    requires !(e.PollRelease? && e.id == id)
    ensures id in Next(s, e).keys.jobs && !Next(s, e).keys.jobs[id].status.Queued?
  {
    if Call(s, e).Some? {
      OnlyReleaseQueues(s.keys, Call(s, e).value, id);
    }
  }

  lemma {:induction false} DispatchedUntilRequeued(s: State, es: seq<Event>, id: JobId)
    requires Inv(s) && Run(s, es)
    requires id in s.keys.jobs && !s.keys.jobs[id].status.Queued?
    requires forall i :: 0 <= i < |es| ==> !(es[i].PollRelease? && es[i].id == id)
    ensures Inv(After(s, es)) && id in After(s, es).keys.jobs && !After(s, es).keys.jobs[id].status.Queued?
    decreases |es|
  {
    if es != [] {
      StaysDispatched(s, es[0], id);
      EventKeepsInv(s, es[0]);
      DispatchedUntilRequeued(Next(s, es[0]), es[1..], id);
    }
  }

  /** After a dispatch, no worker can dispatch the job again until the poller has requeued it. */
  lemma NeverDispatchedTwice(s: State, w: WorkerId, id: JobId, b: BackendId, es: seq<Event>, v: WorkerId, c: BackendId)
    requires Inv(s) && Enabled(s, Dispatch(w, id, b)) && Run(Next(s, Dispatch(w, id, b)), es)
    requires Enabled(After(Next(s, Dispatch(w, id, b)), es), Dispatch(v, id, c))
    ensures exists i :: 0 <= i < |es| && es[i].PollRelease? && es[i].id == id
  {
    var s1 := Next(s, Dispatch(w, id, b));
    EventKeepsInv(s, Dispatch(w, id, b));
    assert HolderAlone(s, w, id) && Holds(s, w, id);
    assert id in s1.keys.jobs && s1.keys.jobs[id].status.Running?;
    if forall i :: 0 <= i < |es| ==> !(es[i].PollRelease? && es[i].id == id) {
      DispatchedUntilRequeued(s1, es, id);
      var t := After(s1, es);
      assert HolderAlone(t, v, id) && Holds(t, v, id);
      assert false;
    }
  }
}
