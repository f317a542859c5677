/**
 The counters agree with the sets they summarise.

 Each counter has a view: the set of jobs it counts. The `*Change` lemmas say that every state
 function changes a view's size by exactly the amount it owes the counter, so a counter that
 was exact stays exact, whatever the order and however often calls are repeated.
 */
module Counters {
  import opened Wrappers
  import opened RedisKeys

  // ------------------------------------------------------------------ views

  ghost function InflightWith(k: Keys, f: Field): set<JobId> {
    set id | id in k.inflight && id in k.jobs && k.jobs[id].field == f
  }

  ghost function QueuedWith(k: Keys, f: Field): set<JobId> {
    set id | id in k.jobs && k.jobs[id].status.Queued? && k.jobs[id].field == f
  }

  ghost function OnBackend(k: Keys, b: BackendId): set<JobId> {
    set id | id in k.inflight && id in k.jobs && k.jobs[id].backend == Some(b)
  }

  ghost function BatchOnBackend(k: Keys, b: BackendId, t: BatchId): set<JobId> {
    set id | id in OnBackend(k, b) && k.jobs[id].batch == Some(t)
  }

  ghost function FinishedPages(k: Keys, t: BatchId): set<JobId> {
    set id | id in k.jobs && k.jobs[id].status.Terminal() && k.jobs[id].batch == Some(t)
  }

  // ------------------------------------------------------------------ exactness

  ghost predicate LoadInflightExact(k: Keys) {
    forall f :: Get(k.loadInflight, f) == |InflightWith(k, f)|
  }

  ghost predicate LoadQueuedExact(k: Keys) {
    forall f :: Get(k.loadQueued, f) == |QueuedWith(k, f)|
  }

  ghost predicate SlotsExact(k: Keys) {
    forall b: BackendId :: Get(k.slots, b) == |OnBackend(k, b)|
  }

  /** The batch maps hold exactly the positive counts: no zero or negative entry lingers. */
  ghost predicate BatchesExact(k: Keys) {
    forall b: BackendId, t: BatchId :: BatchEntryExact(k, b, t)
  }

  ghost predicate BatchEntryExact(k: Keys, b: BackendId, t: BatchId) {
    && ((b, t) in k.batches <==> BatchOnBackend(k, b, t) != {})
    && Get(k.batches, (b, t)) == |BatchOnBackend(k, b, t)|
  }

  /** done + failed of a batch is the number of its pages with a final status. */
  ghost predicate PagesExact(k: Keys) {
    forall t :: Get(k.done, t) + Get(k.failed, t) == |FinishedPages(k, t)|
  }

  // ------------------------------------------------------------------ what callers promise

  /** New job ids are fresh. */
  predicate FreshId(k: Keys, op: Op) {
    op.Enqueue? ==> op.id !in k.jobs && op.id !in k.inflight && op.job.status.Queued? && op.job.backend.None?
  }

  /** A caller's snapshot, where it is used to release the job, is of that job. */
  predicate SnapshotOf(k: Keys, id: JobId, state: Job) {
    id in k.jobs && state.field == k.jobs[id].field && state.batch == k.jobs[id].batch
  }

  /** All that load:inflight needs: the job's own load field on each release. */
  predicate AnyCall(k: Keys, op: Op) {
    && FreshId(k, op)
    && (op.ReleaseDone? && op.id in k.inflight ==> SnapshotOf(k, op.id, op.state))
    && (op.SetDone? && op.snapshot.Some? ==> SnapshotOf(k, op.id, op.snapshot.value))
  }

  /** The slot counters also need the run to be the current one: a release names the backend
      the job is on, and a job in flight is not given to another backend. */
  predicate CurrentRun(k: Keys, op: Op) {
    && AnyCall(k, op)
    && (op.ReleaseDone? && op.id in k.inflight ==> op.state.backend == k.jobs[op.id].backend)
    && (op.SetDone? && op.snapshot.Some? && op.id in k.inflight ==> op.snapshot.value.backend == k.jobs[op.id].backend)
    && (op.SetRunning? ==> op.id in k.jobs && (op.id in k.inflight ==> k.jobs[op.id].backend == Some(op.backend)))
  }

  /** load:queued also needs each call to find the job in a status it expects. */
  predicate ExpectedStatus(k: Keys, op: Op) {
    && FreshId(k, op)
    && (op.id in k.jobs ==>
      var queued := k.jobs[op.id].status.Queued?;
      match op
      case SetRunning(id, _) => id in k.inflight <==> !queued
      case ReleaseDone(id, _, _) => id in k.inflight ==> !queued
      case SetDone(_, _) => !queued
      case SetFailed(id) => id in k.inflight ==> !queued
      case Release(id) => id in k.inflight <==> !queued
      case _ => true)
  }

  /** The page counters need only that no call revives a finished job. */
  predicate NoRevival(k: Keys, op: Op) {
    && AnyCall(k, op)
    && (op.id in k.jobs && k.jobs[op.id].status.Terminal() ==>
      && !op.SetRunning? && !op.Release?
      && (op.ReleaseDone? ==> op.id !in k.inflight))
  }

  // ------------------------------------------------------------------ set sizes

  lemma Added(a: set<JobId>, b: set<JobId>, x: JobId)
    requires b == a + {x}
    ensures |b| == |a| + (if x in a then 0 else 1)
  {
    if x in a { assert b == a; }
  }

  lemma Removed(a: set<JobId>, b: set<JobId>, x: JobId)
    requires b == a - {x}
    ensures |b| == |a| - (if x in a then 1 else 0)
  {
    if x !in a { assert b == a; }
  }

  lemma {:induction false} SmallerSet<T>(a: set<T>, b: set<T>)
    requires a <= b
    ensures |a| <= |b|
    decreases |a|
  {
    if a != {} {
      var x :| x in a;
      SmallerSet(a - {x}, b - {x});
    }
  }

  /** Two views that agree on every job but one differ in size by that job alone. */
  lemma OneJob(a: set<JobId>, b: set<JobId>, x: JobId)
    requires a - {x} == b - {x}
    ensures |b| - |a| == Bit(x in b) - Bit(x in a)
  {
    Removed(a, a - {x}, x);
    Removed(b, b - {x}, x);
  }

  // ------------------------------------------------------------------ every call moves them together

  /** All a view reads of one job. */
  datatype Row = Row(job: Option<Job>, inflight: bool)

  function RowOf(k: Keys, id: JobId): Row {
    Row(GetJob(k, id), id in k.inflight)
  }

  /** A state function touches the job it is called for and no other. */
  lemma OtherRowsKept(k: Keys, op: Op)
    ensures forall x :: x != op.id ==> RowOf(Primary(k, op), x) == RowOf(k, x)
  {
  }

  lemma OtherJobsInViews(k: Keys, op: Op, f: Field, b: BackendId, t: BatchId)
    ensures var k' := Primary(k, op);
      && InflightWith(k, f) - {op.id} == InflightWith(k', f) - {op.id}
      && QueuedWith(k, f) - {op.id} == QueuedWith(k', f) - {op.id}
      && OnBackend(k, b) - {op.id} == OnBackend(k', b) - {op.id}
      && BatchOnBackend(k, b, t) - {op.id} == BatchOnBackend(k', b, t) - {op.id}
      && FinishedPages(k, t) - {op.id} == FinishedPages(k', t) - {op.id}
  {
    OtherRowsKept(k, op);
    var k' := Primary(k, op);
    forall x | x != op.id
      ensures x in InflightWith(k, f) <==> x in InflightWith(k', f)
      ensures x in QueuedWith(k, f) <==> x in QueuedWith(k', f)
      ensures x in OnBackend(k, b) <==> x in OnBackend(k', b)
      ensures x in BatchOnBackend(k, b, t) <==> x in BatchOnBackend(k', b, t)
      ensures x in FinishedPages(k, t) <==> x in FinishedPages(k', t)
    {
      assert RowOf(k', x) == RowOf(k, x);
    }
  }

  lemma InflightChange(k: Keys, op: Op, f: Field)
    requires AnyCall(k, op)
    ensures |InflightWith(Primary(k, op), f)| == |InflightWith(k, f)| + Owed(k, op).InflightOf(f)
  {
    OtherJobsInViews(k, op, f, 1, 0);
    OneJob(InflightWith(k, f), InflightWith(Primary(k, op), f), op.id);
  }

  lemma QueuedChange(k: Keys, op: Op, f: Field)
    requires ExpectedStatus(k, op)
    ensures |QueuedWith(Primary(k, op), f)| == |QueuedWith(k, f)| + Owed(k, op).QueuedOf(f)
  {
    OtherJobsInViews(k, op, f, 1, 0);
    OneJob(QueuedWith(k, f), QueuedWith(Primary(k, op), f), op.id);
  }

  lemma SlotChange(k: Keys, op: Op, b: BackendId)
    requires CurrentRun(k, op)
    ensures |OnBackend(Primary(k, op), b)| == |OnBackend(k, b)| + Owed(k, op).SlotOf(b)
  {
    OtherJobsInViews(k, op, 0, b, 0);
    OneJob(OnBackend(k, b), OnBackend(Primary(k, op), b), op.id);
  }

  /** What the call does to one batch entry, by whether its job was and is among the entry's pages. */
  lemma BatchOfCall(k: Keys, op: Op, b: BackendId, t: BatchId)
    requires CurrentRun(k, op)
    ensures var before, after := Get(k.batches, (b, t)), Get(NextBatches(k, op), (b, t));
      var change := Bit(op.id in BatchOnBackend(Primary(k, op), b, t)) - Bit(op.id in BatchOnBackend(k, b, t));
      && (change == 0 ==> after == before && ((b, t) in NextBatches(k, op) <==> (b, t) in k.batches))
      && (change == 1 ==> after == before + 1 && (b, t) in NextBatches(k, op))
      && (change == -1 && before >= 1 ==> after == before - 1 && ((b, t) in NextBatches(k, op) <==> after > 0))
  {
  }

  lemma BatchChange(k: Keys, op: Op, b: BackendId, t: BatchId)
    requires CurrentRun(k, op)
    requires BatchEntryExact(k, b, t)
    ensures BatchEntryExact(Primary(k, op), b, t)
  {
    BatchOfCall(k, op, b, t);
    OtherJobsInViews(k, op, 0, b, t);
    OneJob(BatchOnBackend(k, b, t), BatchOnBackend(Primary(k, op), b, t), op.id);
  }

  function Bit(b: bool): int { if b then 1 else 0 }

  lemma PageOfCall(k: Keys, op: Op, t: BatchId)
    requires NoRevival(k, op)
    ensures var k' := Primary(k, op);
      Bit(op.id in FinishedPages(k', t)) - Bit(op.id in FinishedPages(k, t)) ==
      Get(k'.done, t) + Get(k'.failed, t) - Get(k.done, t) - Get(k.failed, t)
  {
  }

  lemma PagesChange(k: Keys, op: Op, t: BatchId)
    requires NoRevival(k, op)
    ensures var k' := Primary(k, op);
      |FinishedPages(k', t)| - |FinishedPages(k, t)| ==
      Get(k'.done, t) + Get(k'.failed, t) - Get(k.done, t) - Get(k.failed, t)
  {
    PageOfCall(k, op, t);
    OtherJobsInViews(k, op, 0, 1, t);
    OneJob(FinishedPages(k, t), FinishedPages(Primary(k, op), t), op.id);
  }

  /** Paying what is owed touches the three plain counters and no view. */
  lemma PayKeepsViews(k: Keys, d: Delta)
    ensures var k' := Pay(k, d);
      && k' == k.(slots := k'.slots, loadQueued := k'.loadQueued, loadInflight := k'.loadInflight)
      && (forall f :: InflightWith(k', f) == InflightWith(k, f))
      && (forall f :: QueuedWith(k', f) == QueuedWith(k, f))
      && (forall b: BackendId :: OnBackend(k', b) == OnBackend(k, b))
      && (forall b: BackendId, t :: BatchOnBackend(k', b, t) == BatchOnBackend(k, b, t))
      && (forall t :: FinishedPages(k', t) == FinishedPages(k, t))
      && (forall b: BackendId :: Get(k'.slots, b) == Get(k.slots, b) + d.SlotOf(b))
      && (forall f :: Get(k'.loadQueued, f) == Get(k.loadQueued, f) + d.QueuedOf(f))
      && (forall f :: Get(k'.loadInflight, f) == Get(k.loadInflight, f) + d.InflightOf(f))
  {
  }

  /** Which plain counters a state function's Primary part leaves for its Owed part. */
  lemma PrimaryKeepsCounters(k: Keys, op: Op)
    ensures var k' := Primary(k, op);
      k'.slots == k.slots && k'.loadQueued == k.loadQueued && k'.loadInflight == k.loadInflight
  {
  }

  lemma LoadInflightKept(k: Keys, op: Op)
    requires LoadInflightExact(k) && AnyCall(k, op)
    ensures LoadInflightExact(Apply(k, op))
  {
    PrimaryKeepsCounters(k, op);
    PayKeepsViews(Primary(k, op), Owed(k, op));
    forall f ensures Get(Apply(k, op).loadInflight, f) == |InflightWith(Apply(k, op), f)| {
      InflightChange(k, op, f);
    }
  }

  lemma LoadQueuedKept(k: Keys, op: Op)
    requires LoadQueuedExact(k) && ExpectedStatus(k, op)
    ensures LoadQueuedExact(Apply(k, op))
  {
    PrimaryKeepsCounters(k, op);
    PayKeepsViews(Primary(k, op), Owed(k, op));
    forall f ensures Get(Apply(k, op).loadQueued, f) == |QueuedWith(Apply(k, op), f)| {
      QueuedChange(k, op, f);
    }
  }

  lemma SlotsKept(k: Keys, op: Op)
    requires SlotsExact(k) && CurrentRun(k, op)
    ensures SlotsExact(Apply(k, op))
  {
    PrimaryKeepsCounters(k, op);
    PayKeepsViews(Primary(k, op), Owed(k, op));
    forall b: BackendId ensures Get(Apply(k, op).slots, b) == |OnBackend(Apply(k, op), b)| {
      SlotChange(k, op, b);
    }
  }

  lemma BatchesKept(k: Keys, op: Op)
    requires BatchesExact(k) && CurrentRun(k, op)
    ensures BatchesExact(Apply(k, op))
  {
    PayKeepsViews(Primary(k, op), Owed(k, op));
    forall b: BackendId, t ensures BatchEntryExact(Apply(k, op), b, t) {
      BatchChange(k, op, b, t);
    }
  }

  lemma PagesKept(k: Keys, op: Op)
    requires PagesExact(k) && NoRevival(k, op)
    ensures PagesExact(Apply(k, op))
  {
    PayKeepsViews(Primary(k, op), Owed(k, op));
    forall t ensures Get(Apply(k, op).done, t) + Get(Apply(k, op).failed, t) == |FinishedPages(Apply(k, op), t)| {
      PagesChange(k, op, t);
    }
  }

  // ------------------------------------------------------------------ sequences of calls

  function RunCalls(k: Keys, ops: seq<Op>): Keys
    decreases |ops|
  {
    if ops == [] then k else RunCalls(Apply(k, ops[0]), ops[1..])
  }

  predicate AnyCalls(k: Keys, ops: seq<Op>)
    decreases |ops|
  {
    ops == [] || (AnyCall(k, ops[0]) && AnyCalls(Apply(k, ops[0]), ops[1..]))
  }

  /** load:inflight is exact after any state-function calls, in any order, with any repeats. */
  lemma {:induction false} LoadInflightAnyOrder(k: Keys, ops: seq<Op>)
    requires LoadInflightExact(k) && AnyCalls(k, ops)
    ensures LoadInflightExact(RunCalls(k, ops))
    decreases |ops|
  {
    if ops != [] {
      LoadInflightKept(k, ops[0]);
      LoadInflightAnyOrder(Apply(k, ops[0]), ops[1..]);
    }
  }

  // ------------------------------------------------------------------ a page is counted once

  /** The calls that take a job from the engine to a final status. */
  predicate PageCalls(ops: seq<Op>, id: JobId, page: Job) {
    forall i :: 0 <= i < |ops| ==>
      && ops[i].id == id
      && (ops[i].ReleaseDone? || Finishes(ops[i]))
      && (ops[i].SetDone? && ops[i].snapshot.Some? ==> ops[i].snapshot.value.batch == page.batch)
  }

  function PagesFinished(k: Keys, t: BatchId): int { Get(k.done, t) + Get(k.failed, t) }

  predicate SameCounters(k: Keys, k': Keys) {
    && k'.slots == k.slots && k'.batches == k.batches
    && k'.loadQueued == k.loadQueued && k'.loadInflight == k.loadInflight
    && k'.done == k.done && k'.failed == k.failed
  }

  lemma FinishedPageIsInert(k: Keys, op: Op)
    requires op.id in k.jobs && k.jobs[op.id].status.Terminal() && op.id !in k.inflight
    requires PageCalls([op], op.id, k.jobs[op.id])
    ensures var k' := Apply(k, op);
      && SameCounters(k, k') && k'.inflight == k.inflight
      && op.id in k'.jobs && k'.jobs[op.id].status.Terminal() && k'.jobs[op.id].batch == k.jobs[op.id].batch
  {
    assert [op][0] == op;
  }

  /** Replaying page calls on a finished page changes no counter. */
  lemma {:induction false} ReplayChangesNoCounter(k: Keys, ops: seq<Op>, id: JobId)
    requires id in k.jobs && k.jobs[id].status.Terminal() && id !in k.inflight
    requires PageCalls(ops, id, k.jobs[id])
    ensures var k' := RunCalls(k, ops);
      && SameCounters(k, k') && id !in k'.inflight
      && id in k'.jobs && k'.jobs[id].status.Terminal() && k'.jobs[id].batch == k.jobs[id].batch
    decreases |ops|
  {
    if ops != [] {
      assert ops[0].id == id;
      FinishedPageIsInert(k, ops[0]);
      ReplayChangesNoCounter(Apply(k, ops[0]), ops[1..], id);
    }
  }

  /** A set_done adds to done and a set_failed to failed, and to nothing else. */
  ghost predicate CountsApart(k: Keys, k': Keys, t: BatchId, isDone: bool) {
    && Get(k'.done, t) == Get(k.done, t) + (if isDone then 1 else 0)
    && Get(k'.failed, t) == Get(k.failed, t) + (if isDone then 0 else 1)
    && (forall u :: u != t ==> Get(k'.done, u) == Get(k.done, u) && Get(k'.failed, u) == Get(k.failed, u))
  }

  lemma PageCallOnActivePage(k: Keys, op: Op, t: BatchId)
    requires op.id in k.jobs && !k.jobs[op.id].status.Terminal() && k.jobs[op.id].batch == Some(t)
    requires PageCalls([op], op.id, k.jobs[op.id])
    ensures var k' := Apply(k, op);
      && op.id in k'.jobs && k'.jobs[op.id].batch == Some(t)
      && (k'.jobs[op.id].status.Terminal() <==> Finishes(op))
      && (Finishes(op) ==> op.id !in k'.inflight && CountsApart(k, k', t, op.SetDone?))
      && (op.SetDone? ==> k'.jobs[op.id].status.Done?) && (op.SetFailed? ==> k'.jobs[op.id].status.Failed?)
      && (op.ReleaseDone? ==> k'.done == k.done && k'.failed == k.failed)
  {
    assert [op][0] == op;
    match op
    case SetDone(_, _) =>
    case SetFailed(_) =>
    case _ =>
  }

  /** However release_done, set_done and set_failed are mixed and repeated, the first call that
      finishes a page decides which of done and failed counts it; the others, and a replay of them
      all, add nothing. */
  lemma {:induction false} PageCountedOnce(k: Keys, ops: seq<Op>, id: JobId, t: BatchId, first: nat)
    requires id in k.jobs && !k.jobs[id].status.Terminal() && k.jobs[id].batch == Some(t)
    requires PageCalls(ops, id, k.jobs[id])
    requires first < |ops| && (ops[first].SetDone? || ops[first].SetFailed?)
    requires forall i :: 0 <= i < first ==> !ops[i].SetDone? && !ops[i].SetFailed?
    ensures var k' := RunCalls(k, ops);
      && CountsApart(k, k', t, ops[first].SetDone?)
      && SameCounters(k', RunCalls(k', ops))
    decreases |ops|
  {
    PageCountedBy(k, ops, id, t, first);
    ReplayChangesNoCounter(RunCalls(k, ops), ops, id);
  }

  lemma {:induction false} PageCountedBy(k: Keys, ops: seq<Op>, id: JobId, t: BatchId, first: nat)
    requires id in k.jobs && !k.jobs[id].status.Terminal() && k.jobs[id].batch == Some(t)
    requires PageCalls(ops, id, k.jobs[id])
    requires first < |ops| && (ops[first].SetDone? || ops[first].SetFailed?)
    requires forall i :: 0 <= i < first ==> !ops[i].SetDone? && !ops[i].SetFailed?
    ensures var k' := RunCalls(k, ops);
      && CountsApart(k, k', t, ops[first].SetDone?)
      && id in k'.jobs && k'.jobs[id].status.Terminal() && id !in k'.inflight && k'.jobs[id].batch == Some(t)
    decreases |ops|
  {
    assert ops[0].id == id;
    PageCallOnActivePage(k, ops[0], t);
    var k1 := Apply(k, ops[0]);
    if first == 0 {
      ReplayChangesNoCounter(k1, ops[1..], id);
    } else {
      assert !ops[0].SetDone? && !ops[0].SetFailed?;
      assert ops[1..][first - 1] == ops[first];
      PageCountedBy(k1, ops[1..], id, t, first - 1);
    }
  }
}
