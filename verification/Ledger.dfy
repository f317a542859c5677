/**
 The counters when other clients run between a state function's set operation and its counter
 update. A call moves its job and leaves a debt; its slot, load and batch updates are paid later,
 each by itself, and a batch entry that came down to zero is deleted later still. A crash in
 between loses the debt. The gap between what a counter should read and what it reads plus the
 outstanding debts is what runs conserve. BatchLedger.dfy does the batch maps.
 */
module Ledger {
  import opened RedisKeys
  import opened Counters
  import opened Rebuild

  /** What a call still has to do to a backend's batch map. */
  datatype Tab =
    | NoTab
    | Owes(key: (BackendId, BatchId), amount: int)   // HINCRBY
    | Deletes(key: (BackendId, BatchId))             // HDEL, after an HINCRBY that left nothing

  /** Call i owes debts[i] and tabs[i]. */
  datatype State = State(keys: Keys, debts: seq<Delta>, tabs: seq<Tab>)

  datatype Step =
    | Begin(op: Op)                       // the set operation; the counter updates are still owed
    | PaySlot(i: nat)                     // INCR/DECR backend:<id>:inflight
    | PayLoad(i: nat)                     // HINCRBY load:queued and load:inflight
    | PayBatch(i: nat)                    // HINCRBY backend:<id>:batches
    | DeleteEntry(i: nat)                 // HDEL backend:<id>:batches
    | Crash(i: nat)                       // the client dies owing debt i
    | RebuildBackends(known: set<BackendId>, slots: map<BackendId, int>, batches: map<(BackendId, BatchId), int>)

  ghost predicate Enabled(s: State, e: Step) {
    match e
    case Begin(op) => CurrentRun(s.keys, op) && ExpectedStatus(s.keys, op)
    case PaySlot(i) => i < |s.debts|
    case PayLoad(i) => i < |s.debts|
    case PayBatch(i) => i < |s.tabs| && s.tabs[i].Owes?
    case DeleteEntry(i) => i < |s.tabs| && s.tabs[i].Deletes?
    case Crash(i) => i < |s.debts| && i < |s.tabs|
    case RebuildBackends(known, slots, batches) =>
      s.keys.slots.Keys <= known && Rebuilt(s.keys, known, s.keys.(slots := slots, batches := batches))
  }

  ghost function Next(s: State, e: Step): State
    requires Enabled(s, e)
  {
    match e
    case Begin(op) => State(Moved(s.keys, op), s.debts + [Owed(s.keys, op)], s.tabs + [BatchOwed(s.keys, op)])
    case PaySlot(i) => s.(keys := Pay(s.keys, SlotPart(s.debts[i])), debts := s.debts[i := LoadPart(s.debts[i])])
    case PayLoad(i) => s.(keys := Pay(s.keys, LoadPart(s.debts[i])), debts := s.debts[i := SlotPart(s.debts[i])])
    case PayBatch(i) =>
      var batches := Incr(s.keys.batches, s.tabs[i].key, s.tabs[i].amount);
      s.(keys := s.keys.(batches := batches), tabs := s.tabs[i := AfterPaying(s.tabs[i], batches)])
    case DeleteEntry(i) => s.(keys := s.keys.(batches := s.keys.batches - {s.tabs[i].key}), tabs := s.tabs[i := NoTab])
    case Crash(i) => s.(debts := s.debts[i := NO_DELTA], tabs := s.tabs[i := NoTab])
    case RebuildBackends(_, slots, batches) => s.(keys := s.keys.(slots := slots, batches := batches))
  }

  /** The call's own move, with every counter as it was. */
  function Moved(k: Keys, op: Op): Keys {
    Primary(k, op).(batches := k.batches)
  }

  /** The page a dispatch adds to its backend's batch map, or a release takes off it. */
  function BatchOwed(k: Keys, op: Op): Tab {
    if op.SetRunning? && op.id !in k.inflight && op.id in k.jobs && k.jobs[op.id].batch.Some? then
      Owes((op.backend, k.jobs[op.id].batch.value), 1)
    else if Leaves(op) && op.id in k.inflight && LeaveState(k, op).Some? then
      var j := LeaveState(k, op).value;
      if j.batch.Some? && j.backend.Some? then Owes((j.backend.value, j.batch.value), -1) else NoTab
    else NoTab
  }

  /** _release_batch goes on to delete the entry if nothing is left. */
  function AfterPaying(tab: Tab, batches: map<(BackendId, BatchId), int>): Tab
    requires tab.Owes?
  {
    if tab.amount < 0 && Get(batches, tab.key) <= 0 then Deletes(tab.key) else NoTab
  }

  function SlotPart(d: Delta): Delta { d.(queued := 0, inflight := 0) }
  function LoadPart(d: Delta): Delta { d.(slot := 0) }

  // ------------------------------------------------------------------ what is owed

  ghost function SlotsOwed(debts: seq<Delta>, b: BackendId): int {
    if debts == [] then 0 else SlotsOwed(debts[..|debts| - 1], b) + debts[|debts| - 1].SlotOf(b)
  }

  ghost function QueuedOwed(debts: seq<Delta>, f: Field): int {
    if debts == [] then 0 else QueuedOwed(debts[..|debts| - 1], f) + debts[|debts| - 1].QueuedOf(f)
  }

  ghost function InflightOwed(debts: seq<Delta>, f: Field): int {
    if debts == [] then 0 else InflightOwed(debts[..|debts| - 1], f) + debts[|debts| - 1].InflightOf(f)
  }

  lemma {:induction false} OwedAfterChange(debts: seq<Delta>, i: nat, d: Delta, b: BackendId, f: Field)
    requires i < |debts|
    ensures SlotsOwed(debts[i := d], b) == SlotsOwed(debts, b) - debts[i].SlotOf(b) + d.SlotOf(b)
    ensures QueuedOwed(debts[i := d], f) == QueuedOwed(debts, f) - debts[i].QueuedOf(f) + d.QueuedOf(f)
    ensures InflightOwed(debts[i := d], f) == InflightOwed(debts, f) - debts[i].InflightOf(f) + d.InflightOf(f)
  {
    var init := debts[..|debts| - 1];
    if i == |debts| - 1 {
      assert debts[i := d][..|debts| - 1] == init;
    } else {
      assert debts[i := d][..|debts| - 1] == init[i := d];
      OwedAfterChange(init, i, d, b, f);
    }
  }

  lemma OwedAfterBegin(debts: seq<Delta>, d: Delta, b: BackendId, f: Field)
    ensures SlotsOwed(debts + [d], b) == SlotsOwed(debts, b) + d.SlotOf(b)
    ensures QueuedOwed(debts + [d], f) == QueuedOwed(debts, f) + d.QueuedOf(f)
    ensures InflightOwed(debts + [d], f) == InflightOwed(debts, f) + d.InflightOf(f)
  {
    assert (debts + [d])[..|debts + [d]| - 1] == debts;
  }

  // ------------------------------------------------------------------ the conserved gaps

  ghost function SlotGap(s: State, b: BackendId): int {
    |OnBackend(s.keys, b)| - Get(s.keys.slots, b) - SlotsOwed(s.debts, b)
  }

  ghost function QueuedGap(s: State, f: Field): int {
    |QueuedWith(s.keys, f)| - Get(s.keys.loadQueued, f) - QueuedOwed(s.debts, f)
  }

  ghost function InflightGap(s: State, f: Field): int {
    |InflightWith(s.keys, f)| - Get(s.keys.loadInflight, f) - InflightOwed(s.debts, f)
  }

  /** What a step adds to a backend's gap: a crash its lost debt, a rebuild whatever makes the
      counter exact while the debts are still to come. */
  ghost function SlotDrift(s: State, e: Step, b: BackendId): int
    requires Enabled(s, e)
  {
    match e
    case Crash(i) => s.debts[i].SlotOf(b)
    case RebuildBackends(_, _, _) => -SlotsOwed(s.debts, b) - SlotGap(s, b)
    case _ => 0
  }

  /** The views do not read the batch maps. */
  lemma MovedViews(k: Keys, op: Op, b: BackendId, f: Field)
    ensures OnBackend(Moved(k, op), b) == OnBackend(Primary(k, op), b)
    ensures QueuedWith(Moved(k, op), f) == QueuedWith(Primary(k, op), f)
    ensures InflightWith(Moved(k, op), f) == InflightWith(Primary(k, op), f)
  {
  }

  lemma BeginKeepsSlotGap(k: Keys, debts: seq<Delta>, tabs: seq<Tab>, tabs': seq<Tab>, op: Op, b: BackendId)
    requires CurrentRun(k, op)
    ensures SlotGap(State(Moved(k, op), debts + [Owed(k, op)], tabs'), b) == SlotGap(State(k, debts, tabs), b)
  {
    MovedViews(k, op, b, 0);
    SlotChange(k, op, b);
    OwedAfterBegin(debts, Owed(k, op), b, 0);
  }

  lemma BeginKeepsLoadGaps(k: Keys, debts: seq<Delta>, tabs: seq<Tab>, tabs': seq<Tab>, op: Op, f: Field)
    requires AnyCall(k, op) && ExpectedStatus(k, op)
    ensures var s, s' := State(k, debts, tabs), State(Moved(k, op), debts + [Owed(k, op)], tabs');
      QueuedGap(s', f) == QueuedGap(s, f) && InflightGap(s', f) == InflightGap(s, f)
  {
    MovedViews(k, op, 1, f);
    QueuedChange(k, op, f);
    InflightChange(k, op, f);
    OwedAfterBegin(debts, Owed(k, op), 1, f);
  }

  lemma BeginKeepsGaps(s: State, e: Step, b: BackendId, f: Field)
    requires Enabled(s, e) && e.Begin?
    ensures SlotGap(Next(s, e), b) == SlotGap(s, b)
    ensures QueuedGap(Next(s, e), f) == QueuedGap(s, f)
    ensures InflightGap(Next(s, e), f) == InflightGap(s, f)
  {
    BeginKeepsSlotGap(s.keys, s.debts, s.tabs, Next(s, e).tabs, e.op, b);
    BeginKeepsLoadGaps(s.keys, s.debts, s.tabs, Next(s, e).tabs, e.op, f);
  }

  /** The other steps of a call. */
  predicate Pays(e: Step) { e.PaySlot? || e.PayLoad? || e.PayBatch? || e.DeleteEntry? }

  lemma BatchMapIsNotAView(k: Keys, batches: map<(BackendId, BatchId), int>, b: BackendId, f: Field)
    ensures var k' := k.(batches := batches);
      OnBackend(k', b) == OnBackend(k, b) && QueuedWith(k', f) == QueuedWith(k, f) &&
        InflightWith(k', f) == InflightWith(k, f)
  {
  }

  lemma PaymentKeepsGaps(s: State, e: Step, b: BackendId, f: Field)
    requires Enabled(s, e) && Pays(e)
    ensures SlotGap(Next(s, e), b) == SlotGap(s, b)
    ensures QueuedGap(Next(s, e), f) == QueuedGap(s, f)
    ensures InflightGap(Next(s, e), f) == InflightGap(s, f)
  {
    if e.PaySlot? {
      PayKeepsViews(s.keys, SlotPart(s.debts[e.i]));
      OwedAfterChange(s.debts, e.i, LoadPart(s.debts[e.i]), b, f);
    } else if e.PayLoad? {
      PayKeepsViews(s.keys, LoadPart(s.debts[e.i]));
      OwedAfterChange(s.debts, e.i, SlotPart(s.debts[e.i]), b, f);
    } else {
      BatchMapIsNotAView(s.keys, Next(s, e).keys.batches, b, f);
    }
  }

  /** Every step moves the slot gap by exactly its drift. */
  lemma StepDrift(s: State, e: Step, b: BackendId)
    requires Enabled(s, e)
    ensures SlotGap(Next(s, e), b) == SlotGap(s, b) + SlotDrift(s, e, b)
  {
    match e
    case Begin(_) => BeginKeepsGaps(s, e, b, 0);
    case Crash(i) => OwedAfterChange(s.debts, i, NO_DELTA, b, 0);
    case RebuildBackends(known, _, _) =>
      RebuildKeepsViews(s.keys, known, Next(s, e).keys);
      RebuildRestoresSlotsIff(s.keys, known, Next(s, e).keys);
    case _ => PaymentKeepsGaps(s, e, b, 0);
  }

  // ------------------------------------------------------------------ runs

  ghost predicate Run(s: State, es: seq<Step>)
    decreases |es|
  {
    es == [] || (Enabled(s, es[0]) && Run(Next(s, es[0]), es[1..]))
  }

  ghost function After(s: State, es: seq<Step>): State
    requires Run(s, es)
    decreases |es|
  {
    if es == [] then s else After(Next(s, es[0]), es[1..])
  }

  predicate Undisturbed(es: seq<Step>) {
    forall i :: 0 <= i < |es| ==> !es[i].Crash? && !es[i].RebuildBackends?
  }

  /** Nothing owed is left to pay. */
  ghost predicate Settled(s: State) {
    && (forall i :: 0 <= i < |s.debts| ==> s.debts[i].slot == 0 && s.debts[i].queued == 0 && s.debts[i].inflight == 0)
    && (forall i :: 0 <= i < |s.tabs| ==> s.tabs[i].NoTab?)
  }

  lemma {:induction false} SettledOwesNothing(debts: seq<Delta>, b: BackendId, f: Field)
    requires forall i :: 0 <= i < |debts| ==> debts[i].slot == 0 && debts[i].queued == 0 && debts[i].inflight == 0
    ensures SlotsOwed(debts, b) == 0 && QueuedOwed(debts, f) == 0 && InflightOwed(debts, f) == 0
  {
    if debts != [] { SettledOwesNothing(debts[..|debts| - 1], b, f); }
  }

  predicate NoRebuild(es: seq<Step>) {
    forall i :: 0 <= i < |es| ==> !es[i].RebuildBackends?
  }

  /** What the crashes of a run lose of one counter's updates. */
  ghost function LostAlong(s: State, es: seq<Step>, part: Delta -> int): int
    requires Run(s, es)
    decreases |es|
  {
    if es == [] then 0
    else (if es[0].Crash? then part(s.debts[es[0].i]) else 0) + LostAlong(Next(s, es[0]), es[1..], part)
  }

  function SlotAt(b: BackendId): Delta -> int { (d: Delta) => d.SlotOf(b) }
  function QueuedAt(f: Field): Delta -> int { (d: Delta) => d.QueuedOf(f) }
  function InflightAt(f: Field): Delta -> int { (d: Delta) => d.InflightOf(f) }

  lemma CrashWidensGaps(s: State, i: nat, b: BackendId, f: Field)
    requires Enabled(s, Crash(i))
    ensures var s' := Next(s, Crash(i));
      && SlotGap(s', b) == SlotGap(s, b) + s.debts[i].SlotOf(b)
      && QueuedGap(s', f) == QueuedGap(s, f) + s.debts[i].QueuedOf(f)
      && InflightGap(s', f) == InflightGap(s, f) + s.debts[i].InflightOf(f)
  {
    OwedAfterChange(s.debts, i, NO_DELTA, b, f);
  }

  /** Calls and payments keep the gaps; each crash widens them by the debt it loses. */
  lemma {:induction false} RunWidensByLost(s: State, es: seq<Step>, b: BackendId, f: Field)
    requires Run(s, es) && NoRebuild(es)
    ensures var t := After(s, es);
      && SlotGap(t, b) == SlotGap(s, b) + LostAlong(s, es, SlotAt(b))
      && QueuedGap(t, f) == QueuedGap(s, f) + LostAlong(s, es, QueuedAt(f))
      && InflightGap(t, f) == InflightGap(s, f) + LostAlong(s, es, InflightAt(f))
    decreases |es|
  {
    if es != [] {
      assert !es[0].RebuildBackends?;
      if es[0].Begin? {
        BeginKeepsGaps(s, es[0], b, f);
      } else if es[0].Crash? {
        CrashWidensGaps(s, es[0].i, b, f);
      } else {
        PaymentKeepsGaps(s, es[0], b, f);
      }
      RunWidensByLost(Next(s, es[0]), es[1..], b, f);
    }
  }

  lemma {:induction false} NothingLost(s: State, es: seq<Step>, part: Delta -> int)
    requires Run(s, es) && Undisturbed(es)
    ensures LostAlong(s, es, part) == 0
    decreases |es|
  {
    if es != [] {
      assert !es[0].Crash?;
      NothingLost(Next(s, es[0]), es[1..], part);
    }
  }

  lemma UndisturbedRunKeepsGaps(s: State, es: seq<Step>, b: BackendId, f: Field)
    requires Run(s, es) && Undisturbed(es)
    ensures var t := After(s, es);
      SlotGap(t, b) == SlotGap(s, b) && QueuedGap(t, f) == QueuedGap(s, f) && InflightGap(t, f) == InflightGap(s, f)
  {
    RunWidensByLost(s, es, b, f);
    NothingLost(s, es, SlotAt(b));
    NothingLost(s, es, QueuedAt(f));
    NothingLost(s, es, InflightAt(f));
  }

  /** Paying its slot and its load settles a call's debt and no other. */
  lemma PayingSettles(s: State, i: nat)
    requires i < |s.debts|
    ensures Enabled(s, PaySlot(i)) && Enabled(Next(s, PaySlot(i)), PayLoad(i))
    ensures var s', d := Next(Next(s, PaySlot(i)), PayLoad(i)), s.debts[i];
      && |s'.debts| == |s.debts| && s'.debts[i].slot == 0 && s'.debts[i].queued == 0 && s'.debts[i].inflight == 0
      && (forall j :: 0 <= j < |s.debts| && j != i ==> s'.debts[j] == s.debts[j])
      && (forall b: BackendId :: Get(s'.keys.slots, b) == Get(s.keys.slots, b) + if b == d.backend then d.slot else 0)
      && (forall f: Field ::
            Get(s'.keys.loadQueued, f) == Get(s.keys.loadQueued, f) + if f == d.field then d.queued else 0)
      && (forall f: Field ::
            Get(s'.keys.loadInflight, f) == Get(s.keys.loadInflight, f) + if f == d.field then d.inflight else 0)
      && s'.tabs == s.tabs
  {
  }

  /** Its HINCRBY, and the HDEL if nothing was left, settle its batch page. */
  lemma PayingSettlesThePage(s: State, i: nat)
    requires i < |s.tabs| && s.tabs[i].Owes?
    ensures Enabled(s, PayBatch(i))
    ensures var s1, key := Next(s, PayBatch(i)), s.tabs[i].key;
      && Get(s1.keys.batches, key) == Get(s.keys.batches, key) + s.tabs[i].amount
      && (s1.tabs[i].NoTab? || (Enabled(s1, DeleteEntry(i)) && Next(s1, DeleteEntry(i)).tabs[i].NoTab? &&
                                key !in Next(s1, DeleteEntry(i)).keys.batches))
      && (s1.tabs[i].Deletes? <==> s.tabs[i].amount < 0 && Get(s1.keys.batches, key) <= 0)
  {
  }

  /** However calls, payments and crashes interleave, once nothing is owed any more each counter is
      short by exactly what the crashes lost of it. */
  lemma SettledRunIsShortByLost(s: State, es: seq<Step>, b: BackendId, f: Field)
    requires SlotsExact(s.keys) && LoadQueuedExact(s.keys) && LoadInflightExact(s.keys) && s.debts == []
    requires Run(s, es) && NoRebuild(es) && Settled(After(s, es))
    ensures var k := After(s, es).keys;
      && |OnBackend(k, b)| - Get(k.slots, b) == LostAlong(s, es, SlotAt(b))
      && |QueuedWith(k, f)| - Get(k.loadQueued, f) == LostAlong(s, es, QueuedAt(f))
      && |InflightWith(k, f)| - Get(k.loadInflight, f) == LostAlong(s, es, InflightAt(f))
  {
    RunWidensByLost(s, es, b, f);
    SettledOwesNothing(After(s, es).debts, b, f);
  }

  /** However calls and payments interleave, once every debt is paid the slot and load counters are
      exact again. */
  lemma SettledRunIsExact(s: State, es: seq<Step>)
    requires SlotsExact(s.keys) && LoadQueuedExact(s.keys) && LoadInflightExact(s.keys) && s.debts == []
    requires Run(s, es) && Undisturbed(es) && Settled(After(s, es))
    ensures var k := After(s, es).keys; SlotsExact(k) && LoadQueuedExact(k) && LoadInflightExact(k)
  {
    var k := After(s, es).keys;
    forall b: BackendId ensures Get(k.slots, b) == |OnBackend(k, b)| { SettledRunIsExactAt(s, es, b, 0); }
    forall f: Field ensures Get(k.loadQueued, f) == |QueuedWith(k, f)| { SettledRunIsExactAt(s, es, 1, f); }
    forall f: Field ensures Get(k.loadInflight, f) == |InflightWith(k, f)| { SettledRunIsExactAt(s, es, 1, f); }
  }

  lemma SettledRunIsExactAt(s: State, es: seq<Step>, b: BackendId, f: Field)
    requires SlotsExact(s.keys) && LoadQueuedExact(s.keys) && LoadInflightExact(s.keys) && s.debts == []
    requires Run(s, es) && Undisturbed(es) && Settled(After(s, es))
    ensures var k := After(s, es).keys;
      && Get(k.slots, b) == |OnBackend(k, b)|
      && Get(k.loadQueued, f) == |QueuedWith(k, f)| && Get(k.loadInflight, f) == |InflightWith(k, f)|
  {
    SettledRunIsShortByLost(s, es, b, f);
    NothingLost(s, es, SlotAt(b));
    NothingLost(s, es, QueuedAt(f));
    NothingLost(s, es, InflightAt(f));
  }

  /** A rebuild holds if and only if no slot update was outstanding when it ran: it already counts
      the jobs whose updates are still to come, and those then count them again. */
  lemma RebuildHoldsIff(s: State, e: Step, es: seq<Step>, b: BackendId)
    requires Enabled(s, e) && e.RebuildBackends?
    requires Run(Next(s, e), es) && Undisturbed(es) && Settled(After(Next(s, e), es))
    ensures var t := After(Next(s, e), es);
      && Get(t.keys.slots, b) - |OnBackend(t.keys, b)| == SlotsOwed(s.debts, b)
      && (Get(t.keys.slots, b) == |OnBackend(t.keys, b)| <==> SlotsOwed(s.debts, b) == 0)
  {
    var t := After(Next(s, e), es);
    StepDrift(s, e, b);
    UndisturbedRunKeepsGaps(Next(s, e), es, b, 0);
    SettledOwesNothing(t.debts, b, 0);
  }

  /** The rebuild's blind spot, from any exact state: a dispatch that has added its job to the
      in-flight set but not yet counted it, a rebuild, then the dispatch's own update. The
      backend's counter ends one too high. */
  lemma RebuildInsideDispatch(k: Keys, id: JobId, b: BackendId, known: set<BackendId>,
                              slots: map<BackendId, int>, batches: map<(BackendId, BatchId), int>)
    requires SlotsExact(k) && id in k.jobs && k.jobs[id].status.Queued? && id !in k.inflight
    requires Enabled(Next(State(k, [], []), Begin(SetRunning(id, b))), RebuildBackends(known, slots, batches))
    ensures var s1 := Next(State(k, [], []), Begin(SetRunning(id, b)));
      var s2 := Next(s1, RebuildBackends(known, slots, batches));
      var s3 := Next(s2, PaySlot(0));
      Get(s3.keys.slots, b) == |OnBackend(s3.keys, b)| + 1
  {
    var s0, begin := State(k, [], []), Begin(SetRunning(id, b));
    var s1 := Next(s0, begin);
    var rebuild := RebuildBackends(known, slots, batches);
    var s2 := Next(s1, rebuild);
    OwedAfterBegin([], Owed(k, begin.op), b, 0);
    StepDrift(s1, rebuild, b);
    PaymentKeepsGaps(s2, PaySlot(0), b, 0);
    OwedAfterChange(s2.debts, 0, LoadPart(s2.debts[0]), b, 0);
  }

  /** And inside a release: a job that left the in-flight set before the rebuild and counts itself off
      after it. The backend's counter ends one too low, and a tick that reads it dispatches one job
      too many. */
  lemma RebuildInsideRelease(k: Keys, id: JobId, b: BackendId, known: set<BackendId>,
                             slots: map<BackendId, int>, batches: map<(BackendId, BatchId), int>)
    requires SlotsExact(k) && id in OnBackend(k, b) && k.jobs[id].status.Running?
    requires Enabled(Next(State(k, [], []), Begin(SetFailed(id))), RebuildBackends(known, slots, batches))
    ensures var s1 := Next(State(k, [], []), Begin(SetFailed(id)));
      var s2 := Next(s1, RebuildBackends(known, slots, batches));
      var s3 := Next(s2, PaySlot(0));
      ShortBy(s3, b) == 1
  {
    var s0, begin := State(k, [], []), Begin(SetFailed(id));
    var s1 := Next(s0, begin);
    var rebuild := RebuildBackends(known, slots, batches);
    var s2 := Next(s1, rebuild);
    OwedAfterBegin([], Owed(k, begin.op), b, 0);
    StepDrift(s1, rebuild, b);
    PaymentKeepsGaps(s2, PaySlot(0), b, 0);
    OwedAfterChange(s2.debts, 0, LoadPart(s2.debts[0]), b, 0);
  }

  /** How much too low a backend's counter reads: its gap and what is still owed to it. */
  ghost function ShortBy(s: State, b: BackendId): (r: int)
    ensures r == SlotGap(s, b) + SlotsOwed(s.debts, b)
  {
    |OnBackend(s.keys, b)| - Get(s.keys.slots, b)
  }
}
