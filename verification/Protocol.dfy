/**
 The job protocol: any number of submit workers, the poller, crashes and the orphan sweep over
 one Redis. Each Lua script, MULTI block and state function is one event, except
 promote_due_retries, whose ZREM and ZADD are two, and release_and_requeue, whose release and
 ZADD are two.

 A run is a sequence of events, each enabled where it happens. Assumptions, as guards of the
 events: job ids are fresh; a live worker settles a claim within `grace`; the poller acts on a
 job that is in flight or queued for harvest, with its current state; and the sweep does not
 run on a job claimed longer ago than `grace` while the job is between those two commands, which
 ProtocolRuns.dfy shows to be exactly what it must avoid.
 */
module Protocol {
  import opened Wrappers
  import opened RedisKeys

  type WorkerId = nat

  /** What a submit worker has in memory: the queue entries it peeked, the jobs it claimed (with
      the score it will requeue them at) and the delayed jobs it took off jobs:delayed. */
  datatype Worker = Worker(peeked: set<Entry>, hand: map<JobId, Time>, promoting: set<JobId>)

  const IDLE_WORKER := Worker({}, map[], {})

  /** `requeuing` is the poller's memory: jobs it released and has not put back on a queue yet. */
  datatype State = State(keys: Keys, workers: map<WorkerId, Worker>, requeuing: set<JobId>, now: Time, grace: Time)

  datatype Event =
    | Submit(id: JobId, job: Job)                                   // enqueue_jobs
    | Peek(w: WorkerId, entries: set<Entry>)                        // peek_pending
    | ClaimEntry(w: WorkerId, entry: Entry)                         // claim_pending
    | Dispatch(w: WorkerId, id: JobId, backend: BackendId)          // set_running
    | Bounce(w: WorkerId, id: JobId)                                // requeue_job
    | RetryLater(w: WorkerId, id: JobId, at: Time, backend: BackendId) // schedule_retry
    | FailDispatch(w: WorkerId, id: JobId)                          // set_failed
    | DispatchRaises(w: WorkerId, id: JobId)                        // logged; the worker goes on without the job
    | Promote(w: WorkerId, id: JobId)                               // ZREM jobs:delayed
    | FinishPromote(w: WorkerId, id: JobId)                         // _add_pending
    | PromoteRaises(w: WorkerId, id: JobId)                         // between the two; logged
    | Crash(w: WorkerId)                                            // the worker restarts empty
    | Sweep(id: JobId)                                              // requeue_orphans
    | EngineDone(id: JobId, state: Job)                             // release_done
    | PollRelease(id: JobId)                                        // release_and_requeue, up to its ZADD
    | PollReturn(id: JobId, retryAt: Option<Time>, avoid: Option<BackendId>) // its _add_pending or schedule_retry
    | RequeueRaises(id: JobId)                                      // between the two; logged
    | PollerRestart                                                 // the poller restarts empty
    | MarkDone(id: JobId)                                           // set_done
    | MarkFailed(id: JobId)                                         // set_failed
    | HarvestLater(id: JobId, at: Time)                             // reschedule_harvest
    | Advance(now: Time)

  function Entries(k: Keys): set<Entry> {
    set key | key in k.pending :: Entry(key.1, k.pending[key], key.0)
  }

  /** A new job's hash: queued, and nothing recorded since. */
  predicate NewJob(j: Job) {
    j.status.Queued? && j.backend.None? && j.claimedAt.None? && j.queueScore.None? && j.avoid == {}
  }

  predicate Holds(s: State, w: WorkerId, id: JobId) {
    w in s.workers && (id in s.workers[w].hand || id in s.workers[w].promoting)
  }

  /** The job is with the engine, with the harvest, or finished. */
  predicate PastDispatch(k: Keys, id: JobId) {
    id in k.jobs && (id in k.inflight || id in k.harvest || k.jobs[id].status.Terminal())
  }

  ghost predicate Enabled(s: State, e: Event) {
    var k := s.keys;
    match e
    case Submit(id, job) => id !in k.jobs && NewJob(job)
    case Peek(w, entries) => w in s.workers && entries <= Entries(k)
    case ClaimEntry(w, entry) => w in s.workers && entry in s.workers[w].peeked
    case Dispatch(w, id, _) => w in s.workers && id in s.workers[w].hand
    case Bounce(w, id) => w in s.workers && id in s.workers[w].hand
    case RetryLater(w, id, _, _) => w in s.workers && id in s.workers[w].hand
    case FailDispatch(w, id) => w in s.workers && id in s.workers[w].hand
    case DispatchRaises(w, id) => w in s.workers && id in s.workers[w].hand
    // the due list may be stale: the ZREM takes whatever is there
    case Promote(w, id) => w in s.workers && id in k.delayed
    case FinishPromote(w, id) => w in s.workers && id in s.workers[w].promoting && id in k.jobs
    case PromoteRaises(w, id) => w in s.workers && id in s.workers[w].promoting
    case Crash(w) => w in s.workers
    case Sweep(id) => ReturnRecent(s, id)
    case EngineDone(id, state) => id in k.inflight ==> id in k.jobs && state == k.jobs[id]
    case PollRelease(id) => id in k.inflight && id in k.jobs
    case PollReturn(id, _, _) => id in s.requeuing && id in k.jobs
    case RequeueRaises(id) => id in s.requeuing
    case PollerRestart => true
    case MarkDone(id) => PastDispatch(k, id)
    case MarkFailed(id) => PastDispatch(k, id)
    case HarvestLater(id, _) => id in k.harvest
    case Advance(now) => s.now <= now && ClaimsFresh(s.(now := now))
  }

  /** Between the two commands of a promotion, or of the poller's requeue. */
  ghost predicate OnItsWayBack(s: State, id: JobId) {
    id in s.requeuing || exists w :: w in s.workers && id in s.workers[w].promoting
  }

  /** A job on its way back to a queue was claimed within the grace period. */
  ghost predicate ReturnRecent(s: State, id: JobId) {
    OnItsWayBack(s, id) ==> id in s.keys.jobs && RecentlyClaimed(s.keys.jobs[id], s.now, s.grace)
  }

  /** A live worker holds each claim for less than the grace period. */
  ghost predicate ClaimsFresh(s: State) {
    forall w, id :: w in s.workers && id in s.workers[w].hand ==>
      id in s.keys.jobs && RecentlyClaimed(s.keys.jobs[id], s.now, s.grace)
  }

  /** The state function the event calls; None when it is the worker's own memory that changes. */
  function Call(s: State, e: Event): Option<Op>
    requires Enabled(s, e)
  {
    match e
    case Submit(id, job) => Some(Enqueue(id, job))
    case ClaimEntry(_, entry) => Some(Claim(entry.id, entry.priority, s.now))
    case Dispatch(_, id, backend) => Some(SetRunning(id, backend))
    case Bounce(w, id) =>
      Some(AddPending(id, if id in s.keys.jobs then s.keys.jobs[id].priority else 0, s.workers[w].hand[id]))
    case RetryLater(w, id, at, backend) => Some(ScheduleRetry(id, s.workers[w].hand[id], at, Some(backend)))
    case FailDispatch(_, id) => Some(SetFailed(id))
    case Promote(_, id) => Some(TakeDelayed(id))
    case FinishPromote(_, id) => Some(Promoted(s.keys, id, s.now))
    case Sweep(id) => Some(RequeueOrphan(id, s.now, s.grace))
    case EngineDone(id, state) => Some(ReleaseDone(id, state, s.now))
    case PollRelease(id) => Some(Release(id))
    case PollReturn(id, retryAt, avoid) =>
      var j := s.keys.jobs[id];
      Some(if retryAt.Some? then ScheduleRetry(id, j.submittedAt, retryAt.value, avoid)
           else AddPending(id, j.priority, j.submittedAt))
    case MarkDone(id) => Some(SetDone(id, Some(s.keys.jobs[id])))
    case MarkFailed(id) => Some(SetFailed(id))
    case HarvestLater(id, at) => Some(RescheduleHarvest(id, at))
    case _ => None
  }

  /** promote_due_retries' ZADD: the job's own level, at the score its retry recorded. */
  function Promoted(k: Keys, id: JobId, now: Time): Op
    requires id in k.jobs
  {
    var j := k.jobs[id];
    AddPending(id, j.priority, if j.queueScore.Some? then j.queueScore.value else now)
  }

  /** The events by which a claimed job leaves its worker's hand. */
  predicate LeavesHand(e: Event) {
    e.Dispatch? || e.Bounce? || e.RetryLater? || e.FailDispatch? || e.DispatchRaises?
  }

  /** The submit worker that acts. */
  predicate HasActor(e: Event) {
    LeavesHand(e) || e.Peek? || e.ClaimEntry? || e.Promote? || e.FinishPromote? || e.PromoteRaises? || e.Crash?
  }

  /** What the event does to its worker's memory. */
  function WorkerAfter(k: Keys, e: Event, wk: Worker): Worker {
    if LeavesHand(e) then wk.(hand := wk.hand - {e.id})
    else match e
      case Peek(_, entries) => wk.(peeked := entries)
      case ClaimEntry(_, entry) =>
        var won := (entry.priority, entry.id) in k.pending && entry.id in k.jobs;
        wk.(peeked := wk.peeked - {entry}, hand := if won then wk.hand[entry.id := entry.score] else wk.hand)
      case Promote(_, id) => wk.(promoting := wk.promoting + {id})
      case FinishPromote(_, id) => wk.(promoting := wk.promoting - {id})
      case PromoteRaises(_, id) => wk.(promoting := wk.promoting - {id})
      case Crash(_) => IDLE_WORKER
      case _ => wk
  }

  function Memory(s: State, e: Event): map<WorkerId, Worker>
    requires Enabled(s, e)
  {
    if HasActor(e) then s.workers[e.w := WorkerAfter(s.keys, e, s.workers[e.w])] else s.workers
  }

  /** What the event does to the poller's memory. */
  function Requeuing(s: State, e: Event): set<JobId> {
    match e
    case PollRelease(id) => s.requeuing + {id}
    case PollReturn(id, _, _) => s.requeuing - {id}
    case RequeueRaises(id) => s.requeuing - {id}
    case PollerRestart => {}
    case _ => s.requeuing
  }

  function Next(s: State, e: Event): State
    requires Enabled(s, e)
  {
    var op := Call(s, e);
    State(if op.Some? then Apply(s.keys, op.value) else s.keys,
          Memory(s, e),
          Requeuing(s, e),
          if e.Advance? then e.now else s.now,
          s.grace)
  }

  // ------------------------------------------------------------------ the invariant

  /** Where one job is, from Redis and the workers' memory. */
  ghost predicate JobPlaced(s: State, id: JobId) {
    var k := s.keys;
    && (id in k.jobs ==>
      var j := k.jobs[id];
      && (id in k.inflight <==> j.status.Running?)
      && (id in k.harvest <==> j.status.Storing?)
      && (id in k.inflight ==> j.backend.Some?)
      && (id in k.delayed ==> j.status.Queued? && j.queueScore == Some(j.submittedAt)))
    && (id in k.inflight || id in k.harvest || id in k.delayed ==> id in k.jobs)
  }

  ghost predicate EntryPlaced(s: State, p: int, id: JobId) {
    var k := s.keys;
    (p, id) in k.pending ==>
      && id in k.jobs && k.jobs[id].status.Queued?
      && p == k.jobs[id].priority && k.pending[(p, id)] == k.jobs[id].submittedAt
      && p in k.levels
      && id !in k.delayed
  }

  /** A job a worker holds is queued, in no queue, and not also with the poller. */
  ghost predicate HolderAlone(s: State, w: WorkerId, id: JobId) {
    var k := s.keys;
    Holds(s, w, id) ==>
      && id in k.jobs && k.jobs[id].status.Queued?
      && id !in k.delayed && id !in s.requeuing
      && (k.jobs[id].priority, id) !in k.pending
      && (id in s.workers[w].hand ==>
        && id !in s.workers[w].promoting
        && s.workers[w].hand[id] == k.jobs[id].submittedAt
        && RecentlyClaimed(k.jobs[id], s.now, s.grace))
      && (id in s.workers[w].promoting ==> k.jobs[id].queueScore == Some(k.jobs[id].submittedAt))
  }

  /** So is a job the poller is requeuing. */
  ghost predicate RequeuingAlone(s: State, id: JobId) {
    var k := s.keys;
    id in s.requeuing ==>
      && id in k.jobs && k.jobs[id].status.Queued?
      && id !in k.delayed
      && (k.jobs[id].priority, id) !in k.pending
  }

  ghost predicate PeekedKnown(s: State, w: WorkerId, entry: Entry) {
    w in s.workers && entry in s.workers[w].peeked ==>
      entry.id in s.keys.jobs && entry.priority == s.keys.jobs[entry.id].priority
      && entry.score == s.keys.jobs[entry.id].submittedAt
  }

  ghost predicate OneHolder(s: State, v: WorkerId, w: WorkerId, id: JobId) {
    Holds(s, v, id) && Holds(s, w, id) ==> v == w
  }

  ghost predicate Inv(s: State) {
    && 0 < s.grace
    && (forall id :: JobPlaced(s, id))
    && (forall p, id :: EntryPlaced(s, p, id))
    && (forall w, id :: HolderAlone(s, w, id))
    && (forall id :: RequeuingAlone(s, id))
    && (forall w, entry :: PeekedKnown(s, w, entry))
    && (forall v, w, id :: OneHolder(s, v, w, id))
  }

  // ------------------------------------------------------------------ places

  datatype Place =
    | InQueue(priority: int)
    | InDelayed
    | InHand(w: WorkerId)
    | InPromotion(w: WorkerId)
    | InRequeue
    | Orphaned
    | InFlight
    | InHarvest

  ghost predicate At(s: State, id: JobId, place: Place) {
    match place
    case InQueue(p) => (p, id) in s.keys.pending
    case InDelayed => id in s.keys.delayed
    case InHand(w) => w in s.workers && id in s.workers[w].hand
    case InPromotion(w) => w in s.workers && id in s.workers[w].promoting
    case InRequeue => id in s.requeuing
    case Orphaned =>
      && id in s.keys.jobs && s.keys.jobs[id].status.Queued? && id !in s.keys.delayed && id !in s.requeuing
      && (forall p :: (p, id) !in s.keys.pending)
      && (forall w :: !Holds(s, w, id))
    case InFlight => id in s.keys.inflight
    case InHarvest => id in s.keys.harvest
  }

  /** The event takes its job from one place to another. */
  ghost predicate Moves(s: State, e: Event, id: JobId, from: Place, to: Place)
    requires Enabled(s, e)
  {
    At(s, id, from) && At(Next(s, e), id, to) && (from != to ==> !At(Next(s, e), id, from))
  }

  /** On its own level's queue, at the time it was submitted. */
  ghost predicate QueuedAsSubmitted(s: State, id: JobId) {
    && id in s.keys.jobs && (s.keys.jobs[id].priority, id) in s.keys.pending
    && s.keys.pending[(s.keys.jobs[id].priority, id)] == s.keys.jobs[id].submittedAt
  }

  // ------------------------------------------------------------------ frames

  /** Everything the invariant reads of one job in Redis. */
  ghost predicate SameInRedis(k: Keys, k': Keys, x: JobId) {
    && GetJob(k', x) == GetJob(k, x)
    && (x in k'.inflight <==> x in k.inflight)
    && (x in k'.harvest <==> x in k.harvest)
    && (x in k'.delayed <==> x in k.delayed)
    && (forall p :: (p, x) in k'.pending <==> (p, x) in k.pending)
    && (forall p :: (p, x) in k.pending ==> k'.pending[(p, x)] == k.pending[(p, x)])
  }

  lemma OtherEntriesStay(k: Keys, op: Op, x: JobId)
    requires x != op.id
    ensures var pending := NextPending(k, op);
      && (forall p :: (p, x) in pending <==> (p, x) in k.pending)
      && (forall p :: (p, x) in k.pending ==> pending[(p, x)] == k.pending[(p, x)])
  {
  }

  lemma OtherQueuesStay(k: Keys, op: Op, x: JobId)
    requires x != op.id
    ensures x in NextHarvest(k, op) <==> x in k.harvest
    ensures x in NextDelayed(k, op) <==> x in k.delayed
  {
  }

  lemma OtherJobStays(k: Keys, op: Op, x: JobId)
    requires x != op.id
    ensures SameInRedis(k, Apply(k, op), x)
    ensures k.levels <= Apply(k, op).levels
  {
    OtherEntriesStay(k, op, x);
    OtherQueuesStay(k, op, x);
  }

  /** All the invariant says of one job. */
  ghost predicate JobInv(s: State, x: JobId) {
    && JobPlaced(s, x)
    && (forall p :: EntryPlaced(s, p, x))
    && (forall w :: HolderAlone(s, w, x))
    && RequeuingAlone(s, x)
    && (forall v, w :: OneHolder(s, v, w, x))
  }

  ghost predicate SameInMemory(s: State, s': State, x: JobId) {
    (x in s'.requeuing <==> x in s.requeuing) && SameWorkers(s.workers, s'.workers, x)
  }

  ghost predicate SameWorkers(ws: map<WorkerId, Worker>, ws': map<WorkerId, Worker>, x: JobId) {
    && ws'.Keys == ws.Keys
    && forall w :: w in ws ==>
      && (x in ws'[w].promoting <==> x in ws[w].promoting)
      && (x in ws'[w].hand <==> x in ws[w].hand)
      && (x in ws[w].hand ==> ws'[w].hand[x] == ws[w].hand[x])
  }

  lemma UntouchedJob(s: State, s': State, x: JobId)
    requires JobInv(s, x)
    requires SameInRedis(s.keys, s'.keys, x) && SameInMemory(s, s', x)
    requires s.keys.levels <= s'.keys.levels && s'.now == s.now && s'.grace == s.grace
    ensures JobInv(s', x)
  {
    assert forall w :: Holds(s', w, x) <==> Holds(s, w, x);
    assert x in s.keys.jobs ==> s'.keys.jobs[x] == s.keys.jobs[x];
    forall w ensures HolderAlone(s', w, x) { assert HolderAlone(s, w, x); }
    forall p ensures EntryPlaced(s', p, x) { assert EntryPlaced(s, p, x); }
    forall v, w ensures OneHolder(s', v, w, x) { assert OneHolder(s, v, w, x); }
  }

  // ------------------------------------------------------------------ the called job

  ghost predicate StepFrom(s: State, e: Event) {
    0 < s.grace && Enabled(s, e) && Call(s, e).Some? && JobInv(s, Call(s, e).value.id)
  }

  lemma SubmitPlaces(s: State, e: Event)
    requires StepFrom(s, e) && e.Submit?
    ensures JobInv(Next(s, e), e.id)
    ensures QueuedAsSubmitted(Next(s, e), e.id)
  {
    var s', id := Next(s, e), e.id;
    assert RequeuingAlone(s, id);
    forall w ensures HolderAlone(s', w, id) { assert HolderAlone(s, w, id); }
    forall p ensures EntryPlaced(s', p, id) { assert EntryPlaced(s, p, id); }
    forall v, w ensures OneHolder(s', v, w, id) { assert OneHolder(s, v, w, id); }
  }

  /** The winner takes the job from its queue into its hand; for a loser nothing moves. */
  lemma ClaimPlaces(s: State, e: Event)
    requires StepFrom(s, e) && e.ClaimEntry? && PeekedKnown(s, e.w, e.entry)
    ensures JobInv(Next(s, e), e.entry.id)
    ensures if (e.entry.priority, e.entry.id) in s.keys.pending
      then Moves(s, e, e.entry.id, InQueue(e.entry.priority), InHand(e.w)) &&
        e.entry.id in s.keys.jobs && Next(s, e).keys.jobs[e.entry.id].claimedAt == Some(s.now)
      else Next(s, e).keys == s.keys && At(Next(s, e), e.entry.id, InHand(e.w)) == At(s, e.entry.id, InHand(e.w))
  {
    var s', id := Next(s, e), e.entry.id;
    assert RequeuingAlone(s, id);
    assert EntryPlaced(s, e.entry.priority, id);
    forall w ensures HolderAlone(s', w, id) { assert HolderAlone(s, w, id); }
    forall p ensures EntryPlaced(s', p, id) { assert EntryPlaced(s, p, id); }
    forall v, w ensures OneHolder(s', v, w, id) {
      assert OneHolder(s, v, w, id) && HolderAlone(s, v, id) && HolderAlone(s, w, id);
    }
  }

  lemma DispatchPlaces(s: State, e: Event)
    requires StepFrom(s, e) && e.Dispatch?
    ensures JobInv(Next(s, e), e.id)
    ensures Moves(s, e, e.id, InHand(e.w), InFlight)
    ensures e.id in s.keys.jobs && Next(s, e).keys.jobs[e.id].backend == Some(e.backend)
  {
    var s', id := Next(s, e), e.id;
    assert RequeuingAlone(s, id);
    assert Holds(s, e.w, id) && HolderAlone(s, e.w, id);
    forall w ensures HolderAlone(s', w, id) { assert HolderAlone(s, w, id) && OneHolder(s, e.w, w, id); }
    forall p ensures EntryPlaced(s', p, id) { assert EntryPlaced(s, p, id); }
    forall v, w ensures OneHolder(s', v, w, id) {
      assert OneHolder(s, v, w, id) && OneHolder(s, e.w, w, id) && OneHolder(s, e.w, v, id);
    }
  }

  lemma BouncePlaces(s: State, e: Event)
    requires StepFrom(s, e) && e.Bounce?
    ensures JobInv(Next(s, e), e.id)
    ensures e.id in s.keys.jobs && Moves(s, e, e.id, InHand(e.w), InQueue(s.keys.jobs[e.id].priority)) &&
      QueuedAsSubmitted(Next(s, e), e.id)
  {
    var s', id := Next(s, e), e.id;
    assert RequeuingAlone(s, id);
    assert Holds(s, e.w, id) && HolderAlone(s, e.w, id);
    forall w ensures HolderAlone(s', w, id) { assert HolderAlone(s, w, id) && OneHolder(s, e.w, w, id); }
    forall p ensures EntryPlaced(s', p, id) { assert EntryPlaced(s, p, id); }
    forall v, w ensures OneHolder(s', v, w, id) {
      assert OneHolder(s, v, w, id) && OneHolder(s, e.w, w, id) && OneHolder(s, e.w, v, id);
    }
  }

  lemma RetryPlaces(s: State, e: Event)
    requires StepFrom(s, e) && e.RetryLater?
    ensures JobInv(Next(s, e), e.id)
    ensures Moves(s, e, e.id, InHand(e.w), InDelayed) && Next(s, e).keys.delayed[e.id] == e.at
    ensures e.id in s.keys.jobs && Next(s, e).keys.jobs[e.id].avoid == s.keys.jobs[e.id].avoid + {e.backend}
  {
    var s', id := Next(s, e), e.id;
    assert RequeuingAlone(s, id);
    assert Holds(s, e.w, id) && HolderAlone(s, e.w, id);
    forall w ensures HolderAlone(s', w, id) { assert HolderAlone(s, w, id) && OneHolder(s, e.w, w, id); }
    forall p ensures EntryPlaced(s', p, id) { assert EntryPlaced(s, p, id); }
    forall v, w ensures OneHolder(s', v, w, id) {
      assert OneHolder(s, v, w, id) && OneHolder(s, e.w, w, id) && OneHolder(s, e.w, v, id);
    }
  }

  lemma FailDispatchPlaces(s: State, e: Event)
    requires StepFrom(s, e) && e.FailDispatch?
    ensures JobInv(Next(s, e), e.id)
    ensures At(s, e.id, InHand(e.w)) && !At(Next(s, e), e.id, InHand(e.w))
    ensures e.id in s.keys.jobs && Next(s, e).keys.jobs[e.id].status.Failed?
  {
    var s', id := Next(s, e), e.id;
    assert RequeuingAlone(s, id);
    assert Holds(s, e.w, id) && HolderAlone(s, e.w, id);
    forall w ensures HolderAlone(s', w, id) { assert HolderAlone(s, w, id) && OneHolder(s, e.w, w, id); }
    forall p ensures EntryPlaced(s', p, id) { assert EntryPlaced(s, p, id); }
    forall v, w ensures OneHolder(s', v, w, id) {
      assert OneHolder(s, v, w, id) && OneHolder(s, e.w, w, id) && OneHolder(s, e.w, v, id);
    }
  }

  lemma PromotePlaces(s: State, e: Event)
    requires StepFrom(s, e) && e.Promote?
    ensures JobInv(Next(s, e), e.id)
    ensures Moves(s, e, e.id, InDelayed, InPromotion(e.w))
  {
    var s', id := Next(s, e), e.id;
    assert RequeuingAlone(s, id);
    assert (s.keys.jobs[id].priority, id) !in s.keys.pending by { assert EntryPlaced(s, s.keys.jobs[id].priority, id); }
    forall w ensures HolderAlone(s', w, id) { assert HolderAlone(s, w, id); }
    forall p ensures EntryPlaced(s', p, id) { assert EntryPlaced(s, p, id); }
    forall v, w ensures OneHolder(s', v, w, id) {
      assert OneHolder(s, v, w, id) && HolderAlone(s, v, id) && HolderAlone(s, w, id);
    }
  }

  lemma FinishPromotePlaces(s: State, e: Event)
    requires StepFrom(s, e) && e.FinishPromote?
    ensures JobInv(Next(s, e), e.id)
    ensures Moves(s, e, e.id, InPromotion(e.w), InQueue(s.keys.jobs[e.id].priority)) &&
      QueuedAsSubmitted(Next(s, e), e.id)
  {
    var s', id := Next(s, e), e.id;
    assert RequeuingAlone(s, id);
    assert Holds(s, e.w, id) && HolderAlone(s, e.w, id);
    forall w ensures HolderAlone(s', w, id) { assert HolderAlone(s, w, id) && OneHolder(s, e.w, w, id); }
    forall p ensures EntryPlaced(s', p, id) { assert EntryPlaced(s, p, id); }
    forall v, w ensures OneHolder(s', v, w, id) { assert OneHolder(s, v, w, id); }
  }

  /** With returns recent, what the sweep re-adds was orphaned. */
  lemma SweepPlaces(s: State, e: Event)
    requires StepFrom(s, e) && e.Sweep?
    ensures JobInv(Next(s, e), e.id)
    ensures if Sweepable(s.keys, e.id, s.now, s.grace)
      then Moves(s, e, e.id, Orphaned, InQueue(s.keys.jobs[e.id].priority)) && QueuedAsSubmitted(Next(s, e), e.id)
      else Next(s, e) == s
  {
    var s', id := Next(s, e), e.id;
    assert RequeuingAlone(s, id);
    forall p ensures Sweepable(s.keys, id, s.now, s.grace) ==> (p, id) !in s.keys.pending {
      assert EntryPlaced(s, p, id);
    }
    forall w ensures Sweepable(s.keys, id, s.now, s.grace) ==> !Holds(s, w, id) { assert HolderAlone(s, w, id); }
    forall w ensures HolderAlone(s', w, id) { assert HolderAlone(s, w, id); }
    forall p ensures EntryPlaced(s', p, id) { assert EntryPlaced(s, p, id); }
    forall v, w ensures OneHolder(s', v, w, id) { assert OneHolder(s, v, w, id); }
  }

  lemma PollerPlaces(s: State, e: Event)
    requires StepFrom(s, e) && (e.EngineDone? || e.MarkDone? || e.MarkFailed? || e.HarvestLater?)
    ensures JobInv(Next(s, e), e.id)
    ensures e.EngineDone? ==>
      if e.id in s.keys.inflight then Moves(s, e, e.id, InFlight, InHarvest) && Next(s, e).keys.harvest[e.id] == s.now
      else Next(s, e).keys.inflight == s.keys.inflight && Next(s, e).keys.harvest == s.keys.harvest
    ensures e.MarkDone? || e.MarkFailed? ==>
      && Next(s, e).keys.jobs[e.id].status.Terminal()
      && !At(Next(s, e), e.id, InFlight) && !At(Next(s, e), e.id, InHarvest)
    ensures e.HarvestLater? ==> Moves(s, e, e.id, InHarvest, InHarvest) && Next(s, e).keys.harvest[e.id] == e.at
  {
    var s', id := Next(s, e), e.id;
    assert RequeuingAlone(s, id);
    forall w ensures HolderAlone(s', w, id) { assert HolderAlone(s, w, id); }
    forall p ensures EntryPlaced(s', p, id) { assert EntryPlaced(s, p, id); }
    forall v, w ensures OneHolder(s', v, w, id) { assert OneHolder(s, v, w, id); }
  }

  lemma PollReleasePlaces(s: State, e: Event)
    requires StepFrom(s, e) && e.PollRelease?
    ensures JobInv(Next(s, e), e.id)
    ensures Moves(s, e, e.id, InFlight, InRequeue)
  {
    var s', id := Next(s, e), e.id;
    assert RequeuingAlone(s, id);
    assert s.keys.jobs[id].status.Running?;
    assert EntryPlaced(s, s.keys.jobs[id].priority, id);
    forall w ensures HolderAlone(s', w, id) { assert HolderAlone(s, w, id); }
    forall p ensures EntryPlaced(s', p, id) { assert EntryPlaced(s, p, id); }
    forall v, w ensures OneHolder(s', v, w, id) { assert OneHolder(s, v, w, id); }
  }

  lemma PollReturnPlaces(s: State, e: Event)
    requires StepFrom(s, e) && e.PollReturn?
    ensures JobInv(Next(s, e), e.id)
    ensures if e.retryAt.Some?
      then Moves(s, e, e.id, InRequeue, InDelayed) && Next(s, e).keys.delayed[e.id] == e.retryAt.value &&
        forall b: BackendId :: b in Next(s, e).keys.jobs[e.id].avoid <==>
          b in s.keys.jobs[e.id].avoid || e.avoid == Some(b)
      else Moves(s, e, e.id, InRequeue, InQueue(s.keys.jobs[e.id].priority)) && QueuedAsSubmitted(Next(s, e), e.id)
  {
    var s', id := Next(s, e), e.id;
    assert RequeuingAlone(s, id);
    forall w ensures HolderAlone(s', w, id) { assert HolderAlone(s, w, id); }
    forall p ensures EntryPlaced(s', p, id) { assert EntryPlaced(s, p, id); }
    forall v, w ensures OneHolder(s', v, w, id) { assert OneHolder(s, v, w, id); }
  }

  // ------------------------------------------------------------------ every event keeps it

  lemma CalledJobPlaced(s: State, e: Event)
    requires Inv(s) && Enabled(s, e) && Call(s, e).Some?
    ensures JobInv(Next(s, e), Call(s, e).value.id)
  {
    assert JobInv(s, Call(s, e).value.id);
    assert e.ClaimEntry? ==> PeekedKnown(s, e.w, e.entry);
    CallPlaces(s, e);
  }

  lemma CallPlaces(s: State, e: Event)
    requires StepFrom(s, e) && (e.ClaimEntry? ==> PeekedKnown(s, e.w, e.entry))
    ensures JobInv(Next(s, e), Call(s, e).value.id)
  {
    match e
    case Submit(_, _) => SubmitPlaces(s, e);
    case ClaimEntry(_, _) => ClaimPlaces(s, e);
    case Dispatch(_, _, _) => DispatchPlaces(s, e);
    case Bounce(_, _) => BouncePlaces(s, e);
    case RetryLater(_, _, _, _) => RetryPlaces(s, e);
    case FailDispatch(_, _) => FailDispatchPlaces(s, e);
    case Promote(_, _) => PromotePlaces(s, e);
    case FinishPromote(_, _) => FinishPromotePlaces(s, e);
    case _ => OthersPlace(s, e);
  }

  /** The poller's and the cleanup worker's events. */
  lemma OthersPlace(s: State, e: Event)
    requires StepFrom(s, e) && !HasActor(e) && !e.Submit?
    ensures JobInv(Next(s, e), Call(s, e).value.id)
  {
    match e
    case Sweep(_) => SweepPlaces(s, e);
    case PollRelease(_) => PollReleasePlaces(s, e);
    case PollReturn(_, _, _) => PollReturnPlaces(s, e);
    case _ => PollerPlaces(s, e);
  }

  /** The job an event is about. */
  function JobOf(e: Event): Option<JobId> {
    match e
    case ClaimEntry(_, entry) => Some(entry.id)
    case Peek(_, _) => None
    case Crash(_) => None
    case PollerRestart => None
    case Advance(_) => None
    case _ => Some(e.id)
  }

  lemma CallsForItsJob(s: State, e: Event)
    requires Enabled(s, e) && Call(s, e).Some?
    ensures JobOf(e) == Some(Call(s, e).value.id)
  {
  }

  lemma OtherWorkersStay(s: State, e: Event, x: JobId)
    requires Enabled(s, e) && JobOf(e).Some? && JobOf(e).value != x
    ensures SameWorkers(s.workers, Memory(s, e), x)
    ensures x in Requeuing(s, e) <==> x in s.requeuing
  {
    if HasActor(e) {
      SameHeld(s.keys, e, s.workers[e.w], x);
    }
  }

  lemma OtherHeldStay(s: State, e: Event, x: JobId)
    requires Enabled(s, e) && Call(s, e).Some? && x != Call(s, e).value.id
    ensures SameInMemory(s, Next(s, e), x)
  {
    CallsForItsJob(s, e);
    OtherWorkersStay(s, e, x);
  }

  lemma SameHeld(k: Keys, e: Event, wk: Worker, x: JobId)
    requires JobOf(e).Some? && JobOf(e).value != x
    ensures var wk' := WorkerAfter(k, e, wk);
      && (x in wk'.promoting <==> x in wk.promoting)
      && (x in wk'.hand <==> x in wk.hand)
      && (x in wk.hand ==> wk'.hand[x] == wk.hand[x])
  {
  }

  lemma OtherJobPlaced(s: State, e: Event, x: JobId)
    requires Inv(s) && Enabled(s, e) && Call(s, e).Some? && x != Call(s, e).value.id
    ensures JobInv(Next(s, e), x)
  {
    var op := Call(s, e).value;
    OtherJobStays(s.keys, op, x);
    OtherHeldStay(s, e, x);
    assert JobInv(s, x);
    UntouchedJob(s, Next(s, e), x);
  }

  /** Peeking, waiting, crashing and raising change no key: they only drop what was held. */
  lemma MemoryEventPlaced(s: State, e: Event, x: JobId)
    requires Inv(s) && Enabled(s, e) && Call(s, e).None?
    ensures JobInv(Next(s, e), x)
  {
    var s' := Next(s, e);
    assert JobPlaced(s, x) && RequeuingAlone(s, x);
    assert forall w :: Holds(s', w, x) ==> Holds(s, w, x);
    forall w ensures HolderAlone(s', w, x) { assert HolderAlone(s, w, x); }
    forall p ensures EntryPlaced(s', p, x) { assert EntryPlaced(s, p, x); }
    forall v, w ensures OneHolder(s', v, w, x) { assert OneHolder(s, v, w, x); }
  }

  /** A job keeps what it was submitted with. */
  lemma IdentityKept(k: Keys, op: Op, x: JobId)
    requires x in k.jobs && (op.Enqueue? ==> op.id != x)
    ensures var k' := Apply(k, op);
      x in k'.jobs && k'.jobs[x] == k.jobs[x].(status := k'.jobs[x].status, backend := k'.jobs[x].backend,
        claimedAt := k'.jobs[x].claimedAt, queueScore := k'.jobs[x].queueScore, avoid := k'.jobs[x].avoid)
  {
  }

  lemma PeekedBefore(s: State, e: Event, w: WorkerId, entry: Entry)
    requires Enabled(s, e) && w in Next(s, e).workers && entry in Next(s, e).workers[w].peeked
    ensures w in s.workers && (entry in s.workers[w].peeked || (e.Peek? && entry in Entries(s.keys)))
  {
  }

  lemma PeekedKept(s: State, e: Event, w: WorkerId, entry: Entry)
    requires Inv(s) && Enabled(s, e)
    ensures PeekedKnown(Next(s, e), w, entry)
  {
    var s' := Next(s, e);
    if w in s'.workers && entry in s'.workers[w].peeked {
      PeekedBefore(s, e, w, entry);
      assert PeekedKnown(s, w, entry);
      assert EntryPlaced(s, entry.priority, entry.id);
      if Call(s, e).Some? {
        IdentityKept(s.keys, Call(s, e).value, entry.id);
      }
    }
  }

  lemma EventKeepsInv(s: State, e: Event)
    requires Inv(s) && Enabled(s, e)
    ensures Inv(Next(s, e))
  {
    var s' := Next(s, e);
    forall x ensures JobInv(s', x) {
      if Call(s, e).None? {
        MemoryEventPlaced(s, e, x);
      } else if x == Call(s, e).value.id {
        CalledJobPlaced(s, e);
      } else {
        OtherJobPlaced(s, e, x);
      }
    }
    forall w, entry ensures PeekedKnown(s', w, entry) { PeekedKept(s, e, w, entry); }
    forall p, id ensures EntryPlaced(s', p, id) { assert JobInv(s', id); }
    forall w, id ensures HolderAlone(s', w, id) { assert JobInv(s', id); }
    forall id ensures RequeuingAlone(s', id) { assert JobInv(s', id); }
    forall v, w, id ensures OneHolder(s', v, w, id) { assert JobInv(s', id); }
    forall id ensures JobPlaced(s', id) { assert JobInv(s', id); }
  }
}
