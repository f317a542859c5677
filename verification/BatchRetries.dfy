/**
 The page counters of batches along protocol runs, with batches started and retried. done of a batch
 counts its pages whose first final status was done, and failed those whose first was failed: a
 later set_done or set_failed of the same job moves neither. init_batch sets both counters to what
 the pages are then, while the hashes of jobs that finished before stay; from there on the counters
 count on from what they were set to.
 */
module BatchRetries {
  import opened Wrappers
  import opened RedisKeys
  import opened Counters
  import opened Protocol
  import opened ProtocolRuns

  /** `first` is each finished job's first final status. The bases are, for each batch, how many of
      those its counters leave out since the last init_batch. */
  datatype Counted = Counted(state: State, first: map<JobId, Status>,
                             doneBase: map<BatchId, int>, failedBase: map<BatchId, int>)

  datatype Step =
    | Do(event: Event)
    | InitBatch(batch: BatchId, done: nat, failed: nat)

  /** The batch's pages that first finished done, and failed. */
  ghost function FirstDone(k: Keys, first: map<JobId, Status>, t: BatchId): set<JobId> {
    set id | id in first && first[id].Done? && id in k.jobs && k.jobs[id].batch == Some(t)
  }

  ghost function FirstFailed(k: Keys, first: map<JobId, Status>, t: BatchId): set<JobId> {
    set id | id in first && first[id].Failed? && id in k.jobs && k.jobs[id].batch == Some(t)
  }

  predicate IsFinal(k: Keys, id: JobId) {
    id in k.jobs && (k.jobs[id].status.Done? || k.jobs[id].status.Failed?)
  }

  /** The job's status is recorded when it becomes final. */
  function Recorded(first: map<JobId, Status>, k: Keys, k': Keys, id: JobId): map<JobId, Status> {
    if !IsFinal(k, id) && IsFinal(k', id) then first[id := k'.jobs[id].status] else first
  }

  ghost predicate CanStep(c: Counted, step: Step) {
    step.Do? ==> Enabled(c.state, step.event)
  }

  ghost function Stepped(c: Counted, step: Step): Counted
    requires CanStep(c, step)
  {
    var k := c.state.keys;
    match step
    case Do(e) =>
      var next := Next(c.state, e);
      c.(state := next,
         first := if JobOf(e).Some? then Recorded(c.first, k, next.keys, JobOf(e).value) else c.first)
    case InitBatch(t, done, failed) =>
      c.(state := c.state.(keys := k.(done := k.done[t := done], failed := k.failed[t := failed])),
         doneBase := c.doneBase[t := |FirstDone(k, c.first, t)| - done],
         failedBase := c.failedBase[t := |FirstFailed(k, c.first, t)| - failed])
  }

  ghost predicate StepsOk(c: Counted, steps: seq<Step>)
    decreases |steps|
  {
    steps == [] || (CanStep(c, steps[0]) && StepsOk(Stepped(c, steps[0]), steps[1..]))
  }

  ghost function End(c: Counted, steps: seq<Step>): Counted
    requires StepsOk(c, steps)
    decreases |steps|
  {
    if steps == [] then c else End(Stepped(c, steps[0]), steps[1..])
  }

  /** What the counters read, and that every finished job has a first outcome. */
  ghost predicate PagesExactSince(c: Counted) {
    var k := c.state.keys;
    && (forall id :: id in c.first <==> IsFinal(k, id))
    && (forall t :: Get(k.done, t) == |FirstDone(k, c.first, t)| - Get(c.doneBase, t))
    && (forall t :: Get(k.failed, t) == |FirstFailed(k, c.first, t)| - Get(c.failedBase, t))
  }

  // ------------------------------------------------------------------ one step

  /** The call makes its job's status final for the first time. */
  predicate Newly(k: Keys, op: Op) {
    op.id in k.jobs && !IsFinal(k, op.id) && IsFinal(Apply(k, op), op.id)
  }

  lemma StatusAfter(k: Keys, op: Op)
    requires NoRevival(k, op)
    ensures var k' := Apply(k, op);
      && (Newly(k, op) ==>
            if op.SetDone? then k'.jobs[op.id].status.Done? else op.SetFailed? && k'.jobs[op.id].status.Failed?)
      && (op.id in k.jobs && (op.SetDone? || op.SetFailed?) ==> IsFinal(k', op.id))
      && (IsFinal(k, op.id) ==> IsFinal(k', op.id)) && (op.id !in k.jobs ==> !IsFinal(k', op.id))
  {
  }

  lemma CountsAfter(k: Keys, op: Op)
    requires NoRevival(k, op)
    ensures var k' := Apply(k, op);
      var page := op.id in k.jobs && !IsFinal(k, op.id) && k.jobs[op.id].batch.Some?;
      && k'.done == (if page && op.SetDone? then Incr(k.done, k.jobs[op.id].batch.value, 1) else k.done)
      && k'.failed == (if page && op.SetFailed? then Incr(k.failed, k.jobs[op.id].batch.value, 1) else k.failed)
  {
  }

  /** Jobs other than the event's keep their first outcome and their batch. */
  lemma OtherPagesStay(s: State, e: Event, x: JobId)
    requires Enabled(s, e) && (JobOf(e).Some? ==> x != JobOf(e).value)
    ensures var k, k' := s.keys, Next(s, e).keys;
      && (x in k'.jobs <==> x in k.jobs) && (x in k.jobs ==> k'.jobs[x] == k.jobs[x])
  {
    if Call(s, e).Some? {
      CallsForItsJob(s, e);
      OtherJobStays(s.keys, Call(s, e).value, x);
      assert GetJob(Next(s, e).keys, x) == GetJob(s.keys, x);
    }
  }

  lemma JobKeepsItsBatch(s: State, e: Event, x: JobId)
    requires Enabled(s, e) && x in s.keys.jobs
    ensures x in Next(s, e).keys.jobs && Next(s, e).keys.jobs[x].batch == s.keys.jobs[x].batch
  {
    if Call(s, e).Some? {
      IdentityKept(s.keys, Call(s, e).value, x);
    }
  }

  /** Only the called job can enter or leave the two views. */
  ghost predicate SameOtherPages(k: Keys, k': Keys, id: JobId) {
    forall x :: x != id ==> (x in k'.jobs <==> x in k.jobs) && (x in k.jobs ==> k'.jobs[x] == k.jobs[x])
  }

  lemma CallCountsPages(k: Keys, op: Op, first: map<JobId, Status>, t: BatchId)
    requires NoRevival(k, op) && SameOtherPages(k, Apply(k, op), op.id)
    requires forall id :: id in first <==> IsFinal(k, id)
    requires op.id in k.jobs ==> op.id in Apply(k, op).jobs && Apply(k, op).jobs[op.id].batch == k.jobs[op.id].batch
    ensures var k' := Apply(k, op); var first' := Recorded(first, k, k', op.id);
      && |FirstDone(k', first', t)| - |FirstDone(k, first, t)| == Get(k'.done, t) - Get(k.done, t)
      && |FirstFailed(k', first', t)| - |FirstFailed(k, first, t)| == Get(k'.failed, t) - Get(k.failed, t)
  {
    StatusAfter(k, op);
    CountsAfter(k, op);
    PageMoves(k, Apply(k, op), first, op.id, t, op.SetDone?, op.SetFailed?);
  }

  /** A page that becomes final is in the view of its new status, and is counted there. */
  lemma PageMoves(k: Keys, k': Keys, first: map<JobId, Status>, id: JobId, t: BatchId, done: bool, failed: bool)
    requires SameOtherPages(k, k', id) && forall x :: x in first <==> IsFinal(k, x)
    requires id in k.jobs ==> id in k'.jobs && k'.jobs[id].batch == k.jobs[id].batch
    requires id in k.jobs && !IsFinal(k, id) && IsFinal(k', id) ==>
      if done then k'.jobs[id].status.Done? else failed && k'.jobs[id].status.Failed?
    requires id in k.jobs && (done || failed) ==> IsFinal(k', id)
    requires (IsFinal(k, id) ==> IsFinal(k', id)) && (id !in k.jobs ==> !IsFinal(k', id)) && !(done && failed)
    requires var page := id in k.jobs && !IsFinal(k, id) && k.jobs[id].batch.Some?;
      && k'.done == (if page && done then Incr(k.done, k.jobs[id].batch.value, 1) else k.done)
      && k'.failed == (if page && failed then Incr(k.failed, k.jobs[id].batch.value, 1) else k.failed)
    ensures var first' := Recorded(first, k, k', id);
      && |FirstDone(k', first', t)| - |FirstDone(k, first, t)| == Get(k'.done, t) - Get(k.done, t)
      && |FirstFailed(k', first', t)| - |FirstFailed(k, first, t)| == Get(k'.failed, t) - Get(k.failed, t)
  {
    ViewsMove(k, k', first, Recorded(first, k, k', id), id, t);
  }

  /** Each view moves by whether the one job is in it. */
  lemma ViewsMove(k: Keys, k': Keys, first: map<JobId, Status>, first': map<JobId, Status>, id: JobId, t: BatchId)
    requires SameOtherPages(k, k', id) && first' - {id} == first - {id}
    ensures |FirstDone(k', first', t)| - |FirstDone(k, first, t)| ==
      Bit(id in FirstDone(k', first', t)) - Bit(id in FirstDone(k, first, t))
    ensures |FirstFailed(k', first', t)| - |FirstFailed(k, first, t)| ==
      Bit(id in FirstFailed(k', first', t)) - Bit(id in FirstFailed(k, first, t))
  {
    forall x | x != id
      ensures x in FirstDone(k', first', t) <==> x in FirstDone(k, first, t)
      ensures x in FirstFailed(k', first', t) <==> x in FirstFailed(k, first, t)
    {
      assert x in first' <==> x in first' - {id};
      assert x in first <==> x in first - {id};
      assert x in first ==> first'[x] == (first' - {id})[x] && first[x] == (first - {id})[x];
    }
    OneJob(FirstDone(k, first, t), FirstDone(k', first', t), id);
    OneJob(FirstFailed(k, first, t), FirstFailed(k', first', t), id);
  }

  /** A page that becomes done is one more in its batch's done, and a page that fails in failed. */
  lemma EventCountsPages(s: State, e: Event, first: map<JobId, Status>, t: BatchId)
    requires Inv(s) && Enabled(s, e) && forall id :: id in first <==> IsFinal(s.keys, id)
    ensures var k, k' := s.keys, Next(s, e).keys;
      var first' := if JobOf(e).Some? then Recorded(first, k, k', JobOf(e).value) else first;
      && |FirstDone(k', first', t)| - |FirstDone(k, first, t)| == Get(k'.done, t) - Get(k.done, t)
      && |FirstFailed(k', first', t)| - |FirstFailed(k, first, t)| == Get(k'.failed, t) - Get(k.failed, t)
  {
    if Call(s, e).Some? {
      var op := Call(s, e).value;
      CallsForItsJob(s, e);
      CallsAreProper(s, e);
      OtherPagesOfCall(s, e);
      if op.id in s.keys.jobs { JobKeepsItsBatch(s, e, op.id); }
      CallCountsPages(s.keys, op, first, t);
    }
  }

  lemma OtherPagesOfCall(s: State, e: Event)
    requires Enabled(s, e) && Call(s, e).Some?
    ensures SameOtherPages(s.keys, Next(s, e).keys, Call(s, e).value.id)
  {
    CallsForItsJob(s, e);
    forall x | x != Call(s, e).value.id
      ensures (x in Next(s, e).keys.jobs <==> x in s.keys.jobs)
      ensures x in s.keys.jobs ==> Next(s, e).keys.jobs[x] == s.keys.jobs[x]
    {
      OtherPagesStay(s, e, x);
    }
  }

  /** Every finished job has a first outcome. */
  lemma EventRecords(s: State, e: Event, first: map<JobId, Status>, id: JobId)
    requires Inv(s) && Enabled(s, e) && (id in first <==> IsFinal(s.keys, id))
    ensures var k, k' := s.keys, Next(s, e).keys;
      var first' := if JobOf(e).Some? then Recorded(first, k, k', JobOf(e).value) else first;
      id in first' <==> IsFinal(k', id)
  {
    if Call(s, e).Some? {
      CallsForItsJob(s, e);
      if id == JobOf(e).value {
        CallsAreProper(s, e);
        StatusAfter(s.keys, Call(s, e).value);
      } else {
        OtherPagesStay(s, e, id);
      }
    }
  }

  /** The page counters are apart from everything else. */
  lemma PageCountersApart(k: Keys, k': Keys)
    requires k' == k.(done := k'.done, failed := k'.failed) && JobCountersExact(k)
    ensures JobCountersExact(k')
  {
    forall f ensures InflightWith(k', f) == InflightWith(k, f) && QueuedWith(k', f) == QueuedWith(k, f) {}
    forall b: BackendId ensures OnBackend(k', b) == OnBackend(k, b) {}
    forall b: BackendId, t: BatchId ensures BatchEntryExact(k', b, t) {
      assert BatchEntryExact(k, b, t) && BatchOnBackend(k', b, t) == BatchOnBackend(k, b, t);
    }
  }

  lemma InitBatchCounts(c: Counted, step: Step)
    requires PagesExactSince(c) && step.InitBatch?
    ensures PagesExactSince(Stepped(c, step))
  {
    var c' := Stepped(c, step);
    var k, k' := c.state.keys, c'.state.keys;
    forall t
      ensures Get(k'.done, t) == |FirstDone(k', c.first, t)| - Get(c'.doneBase, t)
      ensures Get(k'.failed, t) == |FirstFailed(k', c.first, t)| - Get(c'.failedBase, t)
    {
      assert FirstDone(k', c.first, t) == FirstDone(k, c.first, t);
      assert FirstFailed(k', c.first, t) == FirstFailed(k, c.first, t);
    }
    assert forall id :: IsFinal(k', id) <==> IsFinal(k, id);
  }

  lemma InitBatchKeeps(c: Counted, step: Step)
    requires Inv(c.state) && JobCountersExact(c.state.keys) && PagesExactSince(c) && step.InitBatch?
    ensures var c' := Stepped(c, step); Inv(c'.state) && JobCountersExact(c'.state.keys) && PagesExactSince(c')
  {
    var c' := Stepped(c, step);
    CountersAreNotPlacement(c.state, c'.state);
    PageCountersApart(c.state.keys, c'.state.keys);
    InitBatchCounts(c, step);
  }

  lemma EventKeeps(c: Counted, step: Step)
    requires Inv(c.state) && PagesExactSince(c) && step.Do? && CanStep(c, step)
    ensures PagesExactSince(Stepped(c, step))
  {
    var c' := Stepped(c, step);
    forall t
      ensures Get(c'.state.keys.done, t) == |FirstDone(c'.state.keys, c'.first, t)| - Get(c.doneBase, t)
      ensures Get(c'.state.keys.failed, t) == |FirstFailed(c'.state.keys, c'.first, t)| - Get(c.failedBase, t)
    {
      EventCountsPages(c.state, step.event, c.first, t);
    }
    forall id ensures id in c'.first <==> IsFinal(c'.state.keys, id) {
      EventRecords(c.state, step.event, c.first, id);
    }
  }

  // ------------------------------------------------------------------ runs

  lemma {:induction false} RunCountsSince(c: Counted, steps: seq<Step>)
    requires Inv(c.state) && JobCountersExact(c.state.keys) && PagesExactSince(c) && StepsOk(c, steps)
    ensures var d := End(c, steps); Inv(d.state) && JobCountersExact(d.state.keys) && PagesExactSince(d)
    decreases |steps|
  {
    if steps != [] {
      var step := steps[0];
      if step.Do? {
        EventKeepsInv(c.state, step.event);
        EventKeepsJobCounters(c.state, step.event);
        EventKeeps(c, step);
      } else {
        InitBatchKeeps(c, step);
      }
      RunCountsSince(Stepped(c, step), steps[1..]);
    }
  }

  /** In every run from empty keys with any number of init_batch calls: jobs are placed, their counters
      exact, and done and failed of a batch are its pages that first finished so, less those its last
      init_batch left out. */
  lemma RetriedRunIsExact(s: State, steps: seq<Step>)
    requires Start(s) && StepsOk(Counted(s, map[], map[], map[]), steps)
    ensures var d := End(Counted(s, map[], map[], map[]), steps);
      Inv(d.state) && JobCountersExact(d.state.keys) && PagesExactSince(d)
  {
    var c := Counted(s, map[], map[], map[]);
    StartIsPlaced(s);
    forall t ensures FirstDone(s.keys, c.first, t) == {} && FirstFailed(s.keys, c.first, t) == {} {}
    RunCountsSince(c, steps);
  }
}
