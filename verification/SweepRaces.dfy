/**
 What an orphan sweep does inside the two commands that take a job back to its queue, when the job
 was claimed longer ago than the grace period: the job is dispatched twice, and the slot counters
 of the two backends stay off by one. Both windows are reached from an empty Redis.
 */
module SweepRaces {
  import opened Wrappers
  import opened RedisKeys
  import opened Counters
  import opened Protocol
  import opened ProtocolRuns

  lemma {:induction false} RunConcat(s: State, a: seq<Event>, b: seq<Event>)
    requires Run(s, a) && Run(After(s, a), b)
    ensures Run(s, a + b) && After(s, a + b) == After(After(s, a), b)
    decreases |a|
  {
    if a == [] {
      assert a + b == b;
    } else {
      assert (a + b)[0] == a[0] && (a + b)[1..] == a[1..] + b;
      RunConcat(Next(s, a[0]), a[1..], b);
    }
  }

  lemma RunThen(s: State, a: seq<Event>, e: Event)
    requires Run(s, a) && Enabled(After(s, a), e)
    ensures Run(s, a + [e]) && After(s, a + [e]) == Next(After(s, a), e)
  {
    assert [e][1..] == [];
    RunConcat(s, a, [e]);
  }

  // ------------------------------------------------------------------ taking a job off its queue

  ghost function EntryOf(s: State, id: JobId): Entry
    requires id in s.keys.jobs
  {
    Entry(id, s.keys.jobs[id].submittedAt, s.keys.jobs[id].priority)
  }

  /** A worker peeks a job, claims it and dispatches it. */
  ghost function Taking(w: WorkerId, entry: Entry, b: BackendId): seq<Event> {
    [Peek(w, {entry})] + [ClaimEntry(w, entry)] + [Dispatch(w, entry.id, b)]
  }

  /** What a worker's taking a job leaves behind. */
  ghost predicate Taken(s: State, w: WorkerId, id: JobId, b: BackendId, t: State)
    requires id in s.keys.jobs
  {
    && t.keys == Apply(Apply(s.keys, Claim(id, s.keys.jobs[id].priority, s.now)), SetRunning(id, b))
    && t.workers.Keys == s.workers.Keys && t.requeuing == s.requeuing && t.now == s.now && t.grace == s.grace
    && (forall v :: v in s.workers && v != w ==> t.workers[v] == s.workers[v])
    && (w in s.workers ==>
      t.workers[w].promoting == s.workers[w].promoting && t.workers[w].hand == s.workers[w].hand - {id})
  }

  ghost function Claimed(s: State, w: WorkerId, entry: Entry): State
    requires w in s.workers
  {
    s.(keys := Apply(s.keys, Claim(entry.id, entry.priority, s.now)),
       workers := s.workers[w := Worker({}, s.workers[w].hand[entry.id := entry.score], s.workers[w].promoting)])
  }

  lemma PeekThenClaim(s: State, w: WorkerId, id: JobId)
    requires w in s.workers && QueuedAsSubmitted(s, id)
    ensures var entry := EntryOf(s, id);
      && Enabled(s, Peek(w, {entry}))
      && var s1 := Next(s, Peek(w, {entry}));
      && Enabled(s1, ClaimEntry(w, entry)) && Next(s1, ClaimEntry(w, entry)) == Claimed(s, w, entry)
  {
    var entry := EntryOf(s, id);
    assert entry in Entries(s.keys) by { assert (entry.priority, id) in s.keys.pending; }
    assert {entry} - {entry} == {};
    assert Next(Next(s, Peek(w, {entry})), ClaimEntry(w, entry)).workers == Claimed(s, w, entry).workers;
  }

  lemma ClaimThenDispatch(s: State, w: WorkerId, id: JobId, b: BackendId)
    requires w in s.workers && id in s.keys.jobs
    ensures var s2 := Claimed(s, w, EntryOf(s, id));
      Enabled(s2, Dispatch(w, id, b)) && Taken(s, w, id, b, Next(s2, Dispatch(w, id, b)))
  {
  }

  lemma TakeAndDispatch(s: State, w: WorkerId, id: JobId, b: BackendId) returns (t: State)
    requires w in s.workers && QueuedAsSubmitted(s, id)
    ensures Run(s, Taking(w, EntryOf(s, id), b)) && t == After(s, Taking(w, EntryOf(s, id), b))
    ensures Taken(s, w, id, b, t)
  {
    var entry := EntryOf(s, id);
    PeekThenClaim(s, w, id);
    ClaimThenDispatch(s, w, id, b);
    assert [] + [Peek(w, {entry})] == [Peek(w, {entry})];
    RunThen(s, [], Peek(w, {entry}));
    RunThen(s, [Peek(w, {entry})], ClaimEntry(w, entry));
    RunThen(s, [Peek(w, {entry})] + [ClaimEntry(w, entry)], Dispatch(w, id, b));
    t := After(s, Taking(w, entry, b));
  }

  // ------------------------------------------------------------------ the counters

  /** The slot is still counted on the first backend, and the job runs on the second. */
  ghost predicate CountedOnTheWrongBackend(k: Keys, b: BackendId, c: BackendId) {
    Get(k.slots, b) == |OnBackend(k, b)| + 1 && Get(k.slots, c) == |OnBackend(k, c)| - 1
  }

  lemma FirstTakeIsExact(k: Keys, id: JobId, p: int, now: Time, b: BackendId)
    requires SlotsExact(k) && id in k.jobs && id !in k.inflight
    ensures var k' := Apply(Apply(k, Claim(id, p, now)), SetRunning(id, b));
      SlotsExact(k') && id in k'.inflight && id in k'.jobs && k'.jobs[id].backend == Some(b)
  {
    SlotsKept(k, Claim(id, p, now));
    SlotsKept(Apply(k, Claim(id, p, now)), SetRunning(id, b));
  }

  lemma SecondDispatch(k: Keys, id: JobId, b: BackendId, c: BackendId)
    requires SlotsExact(k) && id in k.inflight && id in k.jobs && k.jobs[id].backend == Some(b) && b != c
    ensures CountedOnTheWrongBackend(Apply(k, SetRunning(id, c)), b, c)
  {
    var k' := Apply(k, SetRunning(id, c));
    assert k'.slots == k.slots;
    Removed(OnBackend(k, b), OnBackend(k', b), id);
    Added(OnBackend(k, c), OnBackend(k', c), id);
  }

  lemma SecondTakeMiscounts(k: Keys, id: JobId, p: int, now: Time, b: BackendId, c: BackendId)
    requires SlotsExact(k) && id in k.inflight && id in k.jobs && k.jobs[id].backend == Some(b) && b != c
    ensures CountedOnTheWrongBackend(Apply(Apply(k, Claim(id, p, now)), SetRunning(id, c)), b, c)
  {
    SlotsKept(k, Claim(id, p, now));
    SecondDispatch(Apply(k, Claim(id, p, now)), id, b, c);
  }

  // ------------------------------------------------------------------ the two windows

  /** The second command of the return that was under way. */
  ghost predicate Returns(s: State, e: Event, id: JobId, v: WorkerId) {
    || (e.FinishPromote? && e.id == id && e.w != v && e.w in s.workers && id in s.workers[e.w].promoting
        && id in s.keys.jobs && s.keys.jobs[id].queueScore == Some(s.keys.jobs[id].submittedAt))
    || (e.PollReturn? && e.id == id && e.retryAt.None? && id in s.requeuing)
  }

  lemma ReturnQueues(s: State, e: Event, id: JobId, v: WorkerId)
    requires Returns(s, e, id, v) && id in s.keys.jobs
    ensures Enabled(s, e) && QueuedAsSubmitted(Next(s, e), id)
    ensures var k, k' := s.keys, Next(s, e).keys;
      k'.jobs == k.jobs && k'.inflight == k.inflight && k'.slots == k.slots
    ensures Next(s, e).workers.Keys == s.workers.Keys
  {
  }

  /** The first taking and the return: the job is in flight, exactly counted, and queued as well. */
  lemma TakenAndReturned(s: State, id: JobId, v: WorkerId, b: BackendId, back: Event) returns (t: State)
    requires v in s.workers && QueuedAsSubmitted(s, id) && SlotsExact(s.keys) && id !in s.keys.inflight &&
      Returns(s, back, id, v)
    ensures var es := Taking(v, EntryOf(s, id), b) + [back]; Run(s, es) && t == After(s, es)
    ensures t.workers.Keys == s.workers.Keys && QueuedAsSubmitted(t, id) && EntryOf(t, id) == EntryOf(s, id)
    ensures SlotsExact(t.keys) && id in t.keys.inflight && t.keys.jobs[id].backend == Some(b)
  {
    var s1 := TakeAndDispatch(s, v, id, b);
    FirstTakeIsExact(s.keys, id, s.keys.jobs[id].priority, s.now, b);
    TakingKeepsReturn(s, v, id, b, s1, back);
    ReturnQueues(s1, back, id, v);
    t := Next(s1, back);
    SlotsSame(s1.keys, t.keys);
    RunThen(s, Taking(v, EntryOf(s, id), b), back);
  }

  lemma TakingKeepsReturn(s: State, v: WorkerId, id: JobId, b: BackendId, t: State, back: Event)
    requires id in s.keys.jobs && Taken(s, v, id, b, t) && Returns(s, back, id, v)
    ensures Returns(t, back, id, v) && id in t.keys.jobs && EntryOf(t, id) == EntryOf(s, id)
  {
  }

  /** After the sweep: v takes the job, the return puts it back, and w takes it too. */
  lemma TakenTwice(s: State, id: JobId, v: WorkerId, w: WorkerId, b: BackendId, c: BackendId, back: Event)
    returns (t: State)
    requires v in s.workers && w in s.workers && b != c
    requires QueuedAsSubmitted(s, id) && SlotsExact(s.keys) && id !in s.keys.inflight && Returns(s, back, id, v)
    ensures var entry := EntryOf(s, id); var es := Taking(v, entry, b) + [back] + Taking(w, entry, c);
      Run(s, es) && t == After(s, es)
    ensures CountedOnTheWrongBackend(t.keys, b, c)
  {
    var entry := EntryOf(s, id);
    var s2 := TakenAndReturned(s, id, v, b, back);
    t := TakeAndDispatch(s2, w, id, c);
    SecondTakeMiscounts(s2.keys, id, entry.priority, s2.now, b, c);
    RunConcat(s, Taking(v, entry, b) + [back], Taking(w, entry, c));
  }

  lemma SlotsSame(k: Keys, k': Keys)
    requires SlotsExact(k) && k'.jobs == k.jobs && k'.inflight == k.inflight && k'.slots == k.slots
    ensures SlotsExact(k')
  {
    forall b: BackendId ensures OnBackend(k', b) == OnBackend(k, b) {}
  }

  lemma SweepQueues(s: State, id: JobId)
    requires Inv(s) && OnItsWayBack(s, id) && ClaimIsStale(s, id) && SlotsExact(s.keys)
    ensures var t := SweepAnyway(s, id);
      && QueuedAsSubmitted(t, id) && SlotsExact(t.keys) && id !in t.keys.inflight && t.keys.jobs == s.keys.jobs
  {
    assert JobPlaced(s, id) && RequeuingAlone(s, id);
    if w :| w in s.workers && id in s.workers[w].promoting {
      assert Holds(s, w, id) && HolderAlone(s, w, id);
    }
    SlotsSame(s.keys, SweepAnyway(s, id).keys);
  }

  /** A sweep between the ZREM and the ZADD of w's promotion of a job with a stale claim: v and w
      both dispatch the job. */
  lemma PromotionRaceDispatchesTwice(s: State, id: JobId, v: WorkerId, w: WorkerId, b: BackendId, c: BackendId)
    returns (t: State)
    requires Inv(s) && SlotsExact(s.keys) && v in s.workers && w in s.workers && v != w && b != c
    requires id in s.keys.delayed && ClaimIsStale(s, id)
    ensures var entry := EntryOf(s, id); var es := Taking(v, entry, b) + [FinishPromote(w, id)] + Taking(w, entry, c);
      && Enabled(s, Promote(w, id))
      && var swept := SweepAnyway(Next(s, Promote(w, id)), id);
         Run(swept, es) && t == After(swept, es)
    ensures CountedOnTheWrongBackend(t.keys, b, c)
  {
    assert JobPlaced(s, id);
    var s1 := Next(s, Promote(w, id));
    EventKeepsInv(s, Promote(w, id));
    assert id in s1.workers[w].promoting;
    SlotsSame(s.keys, s1.keys);
    SweepQueues(s1, id);
    t := TakenTwice(SweepAnyway(s1, id), id, v, w, b, c, FinishPromote(w, id));
  }

  /** The same between the release and the ZADD of the poller's requeue, even with one worker. */
  lemma RequeueRaceDispatchesTwice(s: State, id: JobId, v: WorkerId, w: WorkerId, b: BackendId, c: BackendId)
    returns (t: State)
    requires Inv(s) && SlotsExact(s.keys) && v in s.workers && w in s.workers && b != c
    requires id in s.keys.inflight && ClaimIsStale(s, id)
    ensures var entry := EntryOf(s, id);
      var es := Taking(v, entry, b) + [PollReturn(id, None, None)] + Taking(w, entry, c);
      && Enabled(s, PollRelease(id))
      && var swept := SweepAnyway(Next(s, PollRelease(id)), id);
         Run(swept, es) && t == After(swept, es)
    ensures CountedOnTheWrongBackend(t.keys, b, c)
  {
    assert JobPlaced(s, id);
    var s1 := Next(s, PollRelease(id));
    EventKeepsInv(s, PollRelease(id));
    CallsAreProper(s, PollRelease(id));
    SlotsKept(s.keys, Release(id));
    SweepQueues(s1, id);
    t := TakenTwice(SweepAnyway(s1, id), id, v, w, b, c, PollReturn(id, None, None));
  }

  // ------------------------------------------------------------------ from an empty Redis

  lemma Submitted(s: State, id: JobId, job: Job)
    requires Start(s) && NewJob(job)
    ensures Enabled(s, Submit(id, job))
    ensures var t := Next(s, Submit(id, job));
      QueuedAsSubmitted(t, id) && t.workers == s.workers && t.now == s.now && t.grace == s.grace
  {
  }

  lemma TakenIsInFlight(k: Keys, id: JobId, now: Time, b: BackendId)
    requires id in k.jobs && (k.jobs[id].priority, id) in k.pending
    ensures var k' := Apply(Apply(k, Claim(id, k.jobs[id].priority, now)), SetRunning(id, b));
      && id in k'.inflight && id in k'.jobs && k'.jobs[id].claimedAt == Some(now)
      && k'.jobs[id].backend == Some(b)
  {
  }

  lemma SubmittedThenTaken(s: State, v: WorkerId, id: JobId, job: Job, b: BackendId) returns (es: seq<Event>)
    requires Start(s) && v in s.workers && NewJob(job)
    ensures Run(s, es)
    ensures var t := After(s, es);
      && t.workers.Keys == s.workers.Keys && (forall w :: w in t.workers ==> t.workers[w].hand == map[])
      && t.grace == s.grace && id in t.keys.inflight && id in t.keys.jobs && t.keys.jobs[id].claimedAt == Some(t.now)
  {
    assert [] + [Submit(id, job)] == [Submit(id, job)];
    Submitted(s, id, job);
    RunThen(s, [], Submit(id, job));
    var s1 := Next(s, Submit(id, job));
    var s2 := TakeAndDispatch(s1, v, id, b);
    TakenIsInFlight(s1.keys, id, s1.now, b);
    es := [Submit(id, job)] + Taking(v, EntryOf(s1, id), b);
    RunConcat(s, [Submit(id, job)], Taking(v, EntryOf(s1, id), b));
  }

  /** Any new job can be in flight with a stale claim: it is submitted, taken, and runs for longer
      than the grace period. */
  lemma StaleInFlight(s: State, v: WorkerId, id: JobId, job: Job, b: BackendId) returns (es: seq<Event>)
    requires Start(s) && v in s.workers && NewJob(job)
    ensures Run(s, es)
    ensures var t := After(s, es);
      && Inv(t) && AllExact(t.keys) && t.workers.Keys == s.workers.Keys
      && id in t.keys.inflight && id in t.keys.jobs && ClaimIsStale(t, id)
  {
    var first := SubmittedThenTaken(s, v, id, job, b);
    var s1 := After(s, first);
    var later := Advance(s1.now + s1.grace);
    RunThen(s, first, later);
    es := first + [later];
    StartIsPlaced(s);
    RunIsPlacedAndExact(s, es);
  }

  lemma ReleasedAndDelayed(s: State, id: JobId, b: BackendId, at: Time)
    requires id in s.keys.inflight && id in s.keys.jobs && ClaimIsStale(s, id)
    ensures Enabled(s, PollRelease(id))
    ensures var s1, back := Next(s, PollRelease(id)), PollReturn(id, Some(at), Some(b));
      && Enabled(s1, back)
      && var t := Next(s1, back); t.workers == s.workers && id in t.keys.delayed && ClaimIsStale(t, id)
  {
  }

  /** And it can be delayed with a stale claim: its engine then fails and the poller retries it later. */
  lemma StaleAndDelayed(s: State, v: WorkerId, id: JobId, job: Job, b: BackendId, at: Time) returns (es: seq<Event>)
    requires Start(s) && v in s.workers && NewJob(job)
    ensures Run(s, es)
    ensures var t := After(s, es);
      && Inv(t) && AllExact(t.keys) && t.workers.Keys == s.workers.Keys
      && id in t.keys.delayed && ClaimIsStale(t, id)
  {
    var first := StaleInFlight(s, v, id, job, b);
    var back := PollReturn(id, Some(at), Some(b));
    ReleasedAndDelayed(After(s, first), id, b, at);
    RunThen(s, first, PollRelease(id));
    RunThen(s, first + [PollRelease(id)], back);
    es := first + [PollRelease(id)] + [back];
    StartIsPlaced(s);
    RunIsPlacedAndExact(s, es);
  }
}
