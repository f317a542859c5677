/**
 The batch maps when other clients run between the commands of a call. _release_batch is an HINCRBY
 and then, if nothing was left, a separate HDEL: whatever other clients added to the entry in
 between is deleted with it. So a settled run leaves an entry exact if and only if what its HDELs
 deleted adds up to nothing.
 */
module BatchLedger {
  import opened Wrappers
  import opened RedisKeys
  import opened Counters
  import opened Rebuild
  import opened Ledger

  // ------------------------------------------------------------------ what is owed

  function TabAt(tab: Tab, key: (BackendId, BatchId)): int {
    if tab.Owes? && tab.key == key then tab.amount else 0
  }

  ghost function TabsOwed(tabs: seq<Tab>, key: (BackendId, BatchId)): int {
    if tabs == [] then 0 else TabsOwed(tabs[..|tabs| - 1], key) + TabAt(tabs[|tabs| - 1], key)
  }

  lemma {:induction false} TabsAfterChange(tabs: seq<Tab>, i: nat, tab: Tab, key: (BackendId, BatchId))
    requires i < |tabs|
    ensures TabsOwed(tabs[i := tab], key) == TabsOwed(tabs, key) - TabAt(tabs[i], key) + TabAt(tab, key)
  {
    var init := tabs[..|tabs| - 1];
    if i == |tabs| - 1 {
      assert tabs[i := tab][..|tabs| - 1] == init;
    } else {
      assert tabs[i := tab][..|tabs| - 1] == init[i := tab];
      TabsAfterChange(init, i, tab, key);
    }
  }

  lemma {:induction false} NoTabsOwed(tabs: seq<Tab>, key: (BackendId, BatchId))
    requires forall i :: 0 <= i < |tabs| ==> tabs[i].NoTab?
    ensures TabsOwed(tabs, key) == 0
  {
    if tabs != [] {
      NoTabsOwed(tabs[..|tabs| - 1], key);
    }
  }

  /** The pages an entry should count, less what it reads and what is still owed to it. */
  ghost function BatchGap(s: State, b: BackendId, t: BatchId): int {
    |BatchOnBackend(s.keys, b, t)| - Get(s.keys.batches, (b, t)) - TabsOwed(s.tabs, (b, t))
  }

  // ------------------------------------------------------------------ one step

  lemma PageOwed(k: Keys, op: Op, b: BackendId, t: BatchId)
    requires CurrentRun(k, op)
    ensures Bit(op.id in BatchOnBackend(Primary(k, op), b, t)) - Bit(op.id in BatchOnBackend(k, b, t)) ==
      TabAt(BatchOwed(k, op), (b, t))
  {
  }

  lemma PagesOwed(k: Keys, op: Op, b: BackendId, t: BatchId)
    requires CurrentRun(k, op)
    ensures |BatchOnBackend(Moved(k, op), b, t)| == |BatchOnBackend(k, b, t)| + TabAt(BatchOwed(k, op), (b, t))
  {
    PageOwed(k, op, b, t);
    OtherJobsInViews(k, op, 0, b, t);
    OneJob(BatchOnBackend(k, b, t), BatchOnBackend(Primary(k, op), b, t), op.id);
    assert BatchOnBackend(Moved(k, op), b, t) == BatchOnBackend(Primary(k, op), b, t);
  }

  /** In one go, the two commands are what the state functions specify. */
  lemma UnsplitBatches(k: Keys, op: Op)
    ensures var tab := BatchOwed(k, op);
      NextBatches(k, op) ==
      if tab.NoTab? then k.batches
      else var paid := Incr(k.batches, tab.key, tab.amount);
           if AfterPaying(tab, paid).Deletes? then paid - {tab.key} else paid
  {
    if BatchOwed(k, op).Owes? {
      var tab := BatchOwed(k, op);
      var left := Get(k.batches, tab.key) + tab.amount;
      assert k.batches[tab.key := left] - {tab.key} == k.batches - {tab.key};
    }
  }

  /** What an HDEL deletes of the entry. */
  ghost function Dropped(s: State, e: Step, b: BackendId, t: BatchId): int
    requires Enabled(s, e)
  {
    if e.DeleteEntry? && s.tabs[e.i].key == (b, t) then Get(s.keys.batches, (b, t)) else 0
  }

  /** A call and its payments keep the gap; only an HDEL widens it, by what it deletes. */
  lemma StepWidensByDropped(s: State, e: Step, b: BackendId, t: BatchId)
    requires Enabled(s, e) && !e.Crash? && !e.RebuildBackends?
    ensures BatchGap(Next(s, e), b, t) == BatchGap(s, b, t) + Dropped(s, e, b, t)
  {
    var s' := Next(s, e);
    if e.Begin? {
      PagesOwed(s.keys, e.op, b, t);
      assert s'.tabs[..|s.tabs|] == s.tabs;
    } else {
      SamePages(s.keys, s'.keys, b, t);
      if e.PayBatch? {
        TabsAfterChange(s.tabs, e.i, s'.tabs[e.i], (b, t));
      } else if e.DeleteEntry? {
        TabsAfterChange(s.tabs, e.i, NoTab, (b, t));
      }
    }
  }

  lemma SamePages(k: Keys, k': Keys, b: BackendId, t: BatchId)
    requires k'.jobs == k.jobs && k'.inflight == k.inflight
    ensures BatchOnBackend(k', b, t) == BatchOnBackend(k, b, t)
  {
  }

  /** An entry at zero or below is about to be deleted. */
  ghost predicate EmptyIsDeleted(s: State, b: BackendId, t: BatchId) {
    (b, t) in s.keys.batches && s.keys.batches[(b, t)] <= 0 ==>
      exists i :: 0 <= i < |s.tabs| && s.tabs[i] == Deletes((b, t))
  }

  lemma StepDeletesEmpty(s: State, e: Step, b: BackendId, t: BatchId)
    requires Enabled(s, e) && !e.Crash? && !e.RebuildBackends? && EmptyIsDeleted(s, b, t)
    ensures EmptyIsDeleted(Next(s, e), b, t)
  {
    var s' := Next(s, e);
    var key := (b, t);
    if key in s'.keys.batches && s'.keys.batches[key] <= 0 {
      if e.PayBatch? && s.tabs[e.i].key == key && s.tabs[e.i].amount < 0 {
        assert s'.tabs[e.i] == Deletes(key);
      } else {
        assert key in s.keys.batches && s.keys.batches[key] <= 0 by { PaidUpwards(s, e, key); }
        var i :| 0 <= i < |s.tabs| && s.tabs[i] == Deletes(key);
        assert s'.tabs[i] == Deletes(key);
      }
    }
  }

  /** A payment that is not a release does not bring an entry down to nothing. */
  lemma PaidUpwards(s: State, e: Step, key: (BackendId, BatchId))
    requires Enabled(s, e) && !e.Crash? && !e.RebuildBackends?
    requires key in Next(s, e).keys.batches && Next(s, e).keys.batches[key] <= 0
    requires !(e.PayBatch? && s.tabs[e.i].key == key && s.tabs[e.i].amount < 0)
    ensures key in s.keys.batches && s.keys.batches[key] <= 0
  {
  }

  // ------------------------------------------------------------------ runs

  ghost function DroppedAlong(s: State, es: seq<Step>, b: BackendId, t: BatchId): int
    requires Run(s, es)
    decreases |es|
  {
    if es == [] then 0 else Dropped(s, es[0], b, t) + DroppedAlong(Next(s, es[0]), es[1..], b, t)
  }

  lemma {:induction false} RunWidensByDropped(s: State, es: seq<Step>, b: BackendId, t: BatchId)
    requires Run(s, es) && Undisturbed(es) && EmptyIsDeleted(s, b, t)
    ensures BatchGap(After(s, es), b, t) == BatchGap(s, b, t) + DroppedAlong(s, es, b, t)
    ensures EmptyIsDeleted(After(s, es), b, t)
    decreases |es|
  {
    if es != [] {
      assert !es[0].Crash? && !es[0].RebuildBackends?;
      StepWidensByDropped(s, es[0], b, t);
      StepDeletesEmpty(s, es[0], b, t);
      RunWidensByDropped(Next(s, es[0]), es[1..], b, t);
    }
  }

  /** However calls and payments interleave, once every debt is paid an entry is short by what the
      HDELs deleted of it, and exact if and only if that is nothing. */
  lemma SettledBatchExactIff(s: State, es: seq<Step>, b: BackendId, t: BatchId)
    requires BatchEntryExact(s.keys, b, t) && s.tabs == []
    requires Run(s, es) && Undisturbed(es) && Settled(After(s, es))
    ensures var k := After(s, es).keys;
      && |BatchOnBackend(k, b, t)| - Get(k.batches, (b, t)) == DroppedAlong(s, es, b, t)
      && (BatchEntryExact(k, b, t) <==> DroppedAlong(s, es, b, t) == 0)
  {
    assert BatchOnBackend(s.keys, b, t) != {} ==> |BatchOnBackend(s.keys, b, t)| > 0;
    RunWidensByDropped(s, es, b, t);
    SettledEntry(After(s, es), b, t);
  }

  lemma SettledEntry(s: State, b: BackendId, t: BatchId)
    requires Settled(s) && EmptyIsDeleted(s, b, t)
    ensures TabsOwed(s.tabs, (b, t)) == 0
    ensures BatchEntryExact(s.keys, b, t) <==> Get(s.keys.batches, (b, t)) == |BatchOnBackend(s.keys, b, t)|
  {
    NoTabsOwed(s.tabs, (b, t));
    assert (b, t) in s.keys.batches ==> s.keys.batches[(b, t)] > 0;
    assert BatchOnBackend(s.keys, b, t) != {} <==> |BatchOnBackend(s.keys, b, t)| > 0;
  }

  /** Every HDEL finds the entry at zero: nobody touched it since the HINCRBY. */
  ghost predicate CleanDeletes(s: State, es: seq<Step>)
    requires Run(s, es)
    decreases |es|
  {
    es == [] || ((es[0].DeleteEntry? ==> Get(s.keys.batches, s.tabs[es[0].i].key) == 0) &&
      CleanDeletes(Next(s, es[0]), es[1..]))
  }

  lemma {:induction false} CleanDropsNothing(s: State, es: seq<Step>, b: BackendId, t: BatchId)
    requires Run(s, es) && CleanDeletes(s, es)
    ensures DroppedAlong(s, es, b, t) == 0
    decreases |es|
  {
    if es != [] {
      CleanDropsNothing(Next(s, es[0]), es[1..], b, t);
    }
  }

  /** So with clean deletes the batch maps are exact again too. */
  lemma CleanRunIsExact(s: State, es: seq<Step>)
    requires BatchesExact(s.keys) && s.tabs == []
    requires Run(s, es) && Undisturbed(es) && Settled(After(s, es)) && CleanDeletes(s, es)
    ensures BatchesExact(After(s, es).keys)
  {
    forall b: BackendId, t: BatchId ensures BatchEntryExact(After(s, es).keys, b, t) {
      assert BatchEntryExact(s.keys, b, t);
      CleanDropsNothing(s, es, b, t);
      SettledBatchExactIff(s, es, b, t);
    }
  }

  // ------------------------------------------------------------------ the interleaving that loses a page

  /** The backend runs one page of the batch; another page of it is about to be dispatched there. */
  ghost predicate LastAndNext(k: Keys, x: JobId, y: JobId, b: BackendId, t: BatchId) {
    && BatchEntryExact(k, b, t) && BatchOnBackend(k, b, t) == {x} && k.jobs[x].status.Running?
    && y in k.jobs && k.jobs[y].status.Queued? && k.jobs[y].batch == Some(t) && y !in k.inflight
  }

  /** The page that fails brings the entry down to zero, and its HDEL is still to come. */
  lemma LastPageLeaves(k: Keys, x: JobId, y: JobId, b: BackendId, t: BatchId) returns (s: State)
    requires LastAndNext(k, x, y, b, t)
    ensures Enabled(State(k, [], []), Begin(SetFailed(x)))
    ensures var s1 := Next(State(k, [], []), Begin(SetFailed(x)));
      Enabled(s1, PayBatch(0)) && s == Next(s1, PayBatch(0))
    ensures s.tabs == [Deletes((b, t))] && s.keys.batches == k.batches[(b, t) := 0]
    ensures y in s.keys.jobs && s.keys.jobs[y] == k.jobs[y] && y !in s.keys.inflight
  {
    assert x in BatchOnBackend(k, b, t) && Get(k.batches, (b, t)) == 1;
    var s1 := Next(State(k, [], []), Begin(SetFailed(x)));
    assert s1.tabs == [Owes((b, t), -1)];
    s := Next(s1, PayBatch(0));
  }

  /** The other page's dispatch counts itself, and the HDEL then deletes its count. */
  lemma LateDeleteLosesAPage(k: Keys, x: JobId, y: JobId, b: BackendId, t: BatchId) returns (s: State)
    requires LastAndNext(k, x, y, b, t)
    ensures var s2 := LastPageLeft(k, x);
      && Enabled(s2, Begin(SetRunning(y, b)))
      && var s3 := Next(s2, Begin(SetRunning(y, b)));
      && Enabled(s3, PayBatch(1))
      && var s4 := Next(s3, PayBatch(1));
      && Enabled(s4, DeleteEntry(0)) && s == Next(s4, DeleteEntry(0))
    ensures s.tabs == [NoTab, NoTab]
    ensures y in BatchOnBackend(s.keys, b, t) && (b, t) !in s.keys.batches && !BatchEntryExact(s.keys, b, t)
  {
    var s2 := LastPageLeaves(k, x, y, b, t);
    var s3 := NextPageArrives(s2, y, b, t);
    s := Next(Next(s3, PayBatch(1)), DeleteEntry(0));
    SamePages(s3.keys, s.keys, b, t);
  }

  lemma NextPageArrives(s: State, y: JobId, b: BackendId, t: BatchId) returns (s': State)
    requires y in s.keys.jobs && s.keys.jobs[y].status.Queued? && s.keys.jobs[y].batch == Some(t) &&
      y !in s.keys.inflight
    requires s.tabs == [Deletes((b, t))]
    ensures Enabled(s, Begin(SetRunning(y, b))) && s' == Next(s, Begin(SetRunning(y, b)))
    ensures s'.tabs == [Deletes((b, t)), Owes((b, t), 1)] && s'.keys.batches == s.keys.batches
    ensures y in BatchOnBackend(s'.keys, b, t)
  {
    s' := Next(s, Begin(SetRunning(y, b)));
    assert s'.tabs == [Deletes((b, t))] + [Owes((b, t), 1)];
  }

  ghost function LastPageLeft(k: Keys, x: JobId): State
    requires Enabled(State(k, [], []), Begin(SetFailed(x)))
    requires Enabled(Next(State(k, [], []), Begin(SetFailed(x))), PayBatch(0))
  {
    Next(Next(State(k, [], []), Begin(SetFailed(x))), PayBatch(0))
  }

  // ------------------------------------------------------------------ a rebuild in between

  /** After a rebuild of the entry and the outstanding updates, the entry is off by what was owed to
      it at the rebuild, less what HDELs deleted afterwards. */
  lemma RebuiltBatchIsOffBy(s: State, e: Step, es: seq<Step>, b: BackendId, t: BatchId)
    requires Enabled(s, e) && e.RebuildBackends? && Visited(s.keys, e.known, b)
    requires Run(Next(s, e), es) && Undisturbed(es) && Settled(After(Next(s, e), es))
    ensures var k := After(Next(s, e), es).keys;
      && Get(k.batches, (b, t)) - |BatchOnBackend(k, b, t)| ==
        TabsOwed(s.tabs, (b, t)) - DroppedAlong(Next(s, e), es, b, t)
      && (BatchEntryExact(k, b, t) <==> TabsOwed(s.tabs, (b, t)) == DroppedAlong(Next(s, e), es, b, t))
  {
    var s' := Next(s, e);
    assert BatchRecounted(s.keys, e.known, s'.keys.batches, b, t);
    RebuildKeepsViews(s.keys, e.known, s'.keys);
    assert BatchOnBackend(s.keys, b, t) != {} ==> |BatchOnBackend(s.keys, b, t)| > 0;
    RunWidensByDropped(s', es, b, t);
    SettledEntry(After(s', es), b, t);
  }
}
