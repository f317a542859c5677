/**
 One submit worker's dispatch ticks, step by step, with the poller (and submitters, the sweep and
 crashes) acting between any two of its steps: app/workers/submit/worker.py, run_tick.

 The worker reads each backend's slot counter, then how many jobs are in flight, then how many
 wait for storage; what it read is old by the time it dispatches. In every reachable state no
 backend runs more than its max_inflight, and in-flight plus storing jobs stay within
 unstored_job_max: between the reads only the poller moves jobs, and it moves them from in
 flight to storing and out, so reading in that order can only count a job twice. Slot counters that
 are off, after a rebuild or a lost update, cost a backend exactly as much as they read too low, and
 do not touch the other limit.
 */
module Budget {
  import opened RedisKeys
  import opened Counters
  import opened Protocol
  import opened ProtocolRuns

  /** unstored_job_max, and each backend's max_inflight. */
  datatype Limits = Limits(unstored: int, capacity: map<BackendId, int>)

  function Max0(x: int): nat {
    if x < 0 then 0 else x
  }

  function CapacityOf(l: Limits, b: BackendId): nat {
    if b in l.capacity then Max0(l.capacity[b]) else 0
  }

  /** Where the worker is in its tick, with the locals it has. `plan` is what allocate_scored
      returned for the tier, and `claimed` the jobs of it that claim_pending won. */
  datatype Tick =
    | Resting
    | ReadingSlots(free: map<BackendId, nat>)
    | ReadInflight(free: map<BackendId, nat>, inflight: nat)
    | BetweenTiers(free: map<BackendId, nat>, remaining: int)
    | Dispatching(free: map<BackendId, nat>, remaining: int, plan: map<JobId, BackendId>, claimed: set<JobId>)

  datatype World = World(state: State, worker: WorkerId, tick: Tick)

  datatype Step =
    | Begin
    | ReadSlot(backend: BackendId)               // get_backends_state, one key of the pipeline
    | CountInflight                              // unstored_depth: SCARD jobs:inflight
    | CountHarvest                               // unstored_depth: ZCARD jobs:pending_harvest
    | Allocated(plan: map<JobId, BackendId>)     // peek_pending and allocate_scored
    | TierDone
    | TickDone
    | Recount(slots: map<BackendId, int>)        // the slot counters change by themselves
    | Act(event: Event)                          // one event of the protocol, by anyone

  function PlannedOn(plan: map<JobId, BackendId>, b: BackendId): set<JobId> {
    set id | id in plan && plan[id] == b
  }

  /** No more jobs than the budget, and on each backend no more than its free slots. */
  predicate FitsIn(plan: map<JobId, BackendId>, free: map<BackendId, nat>, remaining: int) {
    && |plan| <= remaining
    && (forall id :: id in plan ==> plan[id] in free)
    && (forall b :: b in free ==> |PlannedOn(plan, b)| <= free[b])
  }

  function Taken(free: map<BackendId, nat>, plan: map<JobId, BackendId>): map<BackendId, nat> {
    map b | b in free :: Max0(free[b] - |PlannedOn(plan, b)|)
  }

  predicate WonClaim(k: Keys, e: Event) {
    e.ClaimEntry? && (e.entry.priority, e.entry.id) in k.pending && e.entry.id in k.jobs
  }

  /** The worker claims only what it just allocated, once, and dispatches a job where it allocated it. */
  ghost predicate ByTheTick(w: World, e: Event) {
    && (e.ClaimEntry? ==> w.tick.Dispatching? && e.entry.id in w.tick.plan && e.entry.id !in w.tick.claimed)
    && (e.Dispatch? ==> w.tick.Dispatching? && e.id in w.tick.plan && w.tick.plan[e.id] == e.backend)
  }

  ghost predicate CanStep(l: Limits, w: World, step: Step) {
    match step
    case Begin => w.tick.Resting?
    case ReadSlot(b) => w.tick.ReadingSlots? && b in l.capacity
    case CountInflight => w.tick.ReadingSlots?
    case CountHarvest => w.tick.ReadInflight?
    case Allocated(plan) => w.tick.BetweenTiers? && FitsIn(plan, w.tick.free, w.tick.remaining)
    case TierDone => w.tick.Dispatching? && Hand(w) == {}
    case TickDone => w.tick.BetweenTiers?
    case Recount(_) => true
    case Act(e) => Enabled(w.state, e) && ByTheTick(w, e)
  }

  function Hand(w: World): set<JobId> {
    HandOf(w.state, w.worker)
  }

  function HandOf(s: State, w: WorkerId): set<JobId> {
    if w in s.workers then s.workers[w].hand.Keys else {}
  }

  function TickAfter(w: World, e: Event): Tick {
    if e.Crash? then Resting
    else if WonClaim(w.state.keys, e) && w.tick.Dispatching? then w.tick.(claimed := w.tick.claimed + {e.entry.id})
    else w.tick
  }

  function Stepped(l: Limits, w: World, step: Step): World
    requires CanStep(l, w, step)
  {
    var k := w.state.keys;
    match step
    case Begin => w.(tick := ReadingSlots(map[]))
    case ReadSlot(b) => w.(tick := ReadingSlots(w.tick.free[b := Max0(l.capacity[b] - Get(k.slots, b))]))
    case CountInflight => w.(tick := ReadInflight(w.tick.free, |k.inflight|))
    case CountHarvest =>
      var remaining := Max0(l.unstored - w.tick.inflight - |k.harvest|);
      w.(tick := if remaining == 0 then Resting else BetweenTiers(w.tick.free, remaining))
    case Allocated(plan) => w.(tick := Dispatching(Taken(w.tick.free, plan), w.tick.remaining, plan, {}))
    case TierDone => w.(tick := BetweenTiers(w.tick.free, w.tick.remaining - |w.tick.claimed|))
    case TickDone => w.(tick := Resting)
    case Recount(slots) => w.(state := w.state.(keys := k.(slots := slots)))
    case Act(e) => World(Next(w.state, e), w.worker, TickAfter(w, e))
  }

  // ------------------------------------------------------------------ the invariant

  function Unstored(k: Keys): nat {
    |k.inflight| + |k.harvest|
  }

  /** Jobs of the plan that may still be dispatched: not claimed yet, or in hand. */
  function Outstanding(w: World): set<JobId>
    requires w.tick.Dispatching?
  {
    set id | id in w.tick.plan && (id !in w.tick.claimed || id in Hand(w))
  }

  function OutstandingOn(w: World, b: BackendId): set<JobId>
    requires w.tick.Dispatching?
  {
    set id | id in Outstanding(w) && w.tick.plan[id] == b
  }

  /** Slots of the backend the tick may still fill. */
  function SlotCredit(w: World, b: BackendId): nat {
    var free := if !w.tick.Resting? && b in w.tick.free then w.tick.free[b] else 0;
    free + if w.tick.Dispatching? then |OutstandingOn(w, b)| else 0
  }

  /** Dispatches the tick may still make. */
  function DispatchCredit(w: World): int {
    match w.tick
    case BetweenTiers(_, remaining) => remaining
    case Dispatching(_, remaining, plan, _) => remaining - |plan| + |Outstanding(w)|
    case _ => 0
  }

  /** How much too low, at most, each slot counter reads. */
  type Slack = map<BackendId, nat>

  function SlackOf(slack: Slack, b: BackendId): nat {
    if b in slack then slack[b] else 0
  }

  ghost predicate SlotsKeptFree(l: Limits, slack: Slack, w: World, b: BackendId) {
    |OnBackend(w.state.keys, b)| + SlotCredit(w, b) <= CapacityOf(l, b) + SlackOf(slack, b)
  }

  /** A slot counter that is read is too low by no more than its slack. */
  ghost predicate ReadWithin(slack: Slack, w: World, step: Step) {
    step.ReadSlot? ==>
      |OnBackend(w.state.keys, step.backend)| - Get(w.state.keys.slots, step.backend) <= SlackOf(slack, step.backend)
  }

  ghost predicate HandIsClaimed(w: World) {
    && w.state.workers.Keys == {w.worker}
    && (if w.tick.Dispatching?
        then Hand(w) <= w.tick.claimed <= w.tick.plan.Keys && |w.tick.plan| <= w.tick.remaining
        else Hand(w) == {})
  }

  ghost predicate WithinLimits(l: Limits, slack: Slack, w: World) {
    && HandIsClaimed(w)
    && Unstored(w.state.keys) + DispatchCredit(w) <= Max0(l.unstored)
    && (w.tick.BetweenTiers? ==> w.tick.remaining >= 0)
    && (w.tick.ReadInflight? ==> |w.state.keys.inflight| <= w.tick.inflight)
    && (forall b: BackendId :: SlotsKeptFree(l, slack, w, b))
  }

  // ------------------------------------------------------------------ what events do to the counts

  /** Only a dispatch adds unstored work; the poller moves it on or out. */
  lemma UnstoredChange(s: State, e: Event)
    requires Inv(s) && Enabled(s, e)
    ensures var k, k' := s.keys, Next(s, e).keys;
      var more := if e.Dispatch? then 1 else 0;
      Unstored(k') <= Unstored(k) + more && |k'.inflight| <= |k.inflight| + more
  {
    if Call(s, e).Some? {
      DispatchesOnly(s, e);
      CallUnstored(s.keys, Call(s, e).value);
    }
  }

  lemma DispatchesOnly(s: State, e: Event)
    requires Enabled(s, e) && Call(s, e).Some?
    ensures Call(s, e).value.SetRunning? <==> e.Dispatch?
    ensures Call(s, e).value.RescheduleHarvest? ==> Call(s, e).value.id in s.keys.harvest
  {
  }

  lemma CallUnstored(k: Keys, op: Op)
    requires op.RescheduleHarvest? ==> op.id in k.harvest
    ensures var more := if op.SetRunning? then 1 else 0;
      Unstored(Apply(k, op)) <= Unstored(k) + more && |Apply(k, op).inflight| <= |k.inflight| + more
  {
    InflightSize(k, op);
    HarvestSize(k, op);
  }

  lemma InflightSize(k: Keys, op: Op)
    ensures |NextInflight(k, op)| <= |k.inflight| + (if op.SetRunning? then 1 else 0)
    ensures Leaves(op) && op.id in k.inflight ==> |NextInflight(k, op)| == |k.inflight| - 1
  {
  }

  lemma HarvestSize(k: Keys, op: Op)
    requires op.RescheduleHarvest? ==> op.id in k.harvest
    ensures |NextHarvest(k, op)| <= |k.harvest| + (if op.ReleaseDone? && op.id in k.inflight then 1 else 0)
  {
  }

  /** Only a dispatch adds a job to a backend. */
  lemma BackendChange(s: State, e: Event, b: BackendId)
    requires Inv(s) && Enabled(s, e)
    ensures |OnBackend(Next(s, e).keys, b)| <= |OnBackend(s.keys, b)| + (if e.Dispatch? && e.backend == b then 1 else 0)
  {
    if Call(s, e).Some? {
      var op := Call(s, e).value;
      CallsAreProper(s, e);
      SlotChange(s.keys, op, b);
      assert OnBackend(Next(s, e).keys, b) == OnBackend(Primary(s.keys, op), b);
    }
  }

  // ------------------------------------------------------------------ events of the protocol

  /** The plan stays, and what of it is outstanding only shrinks; a dispatch uses up its own job. */
  ghost predicate Shrunk(w: World, w': World, e: Event) {
    if w'.tick.Dispatching? then
      && w.tick.Dispatching? && w'.tick.plan == w.tick.plan && w'.tick.free == w.tick.free
      && w'.tick.remaining == w.tick.remaining
      && Outstanding(w') <= Outstanding(w)
      && (e.Dispatch? ==> e.id in Outstanding(w) && e.id !in Outstanding(w') && w.tick.plan[e.id] == e.backend)
    else !e.Dispatch? && (w'.tick.Resting? || w'.tick == w.tick)
  }

  /** A claim keeps the job outstanding; any way out of the hand ends that. */
  lemma OutstandingShrinks(l: Limits, w: World, e: Event)
    requires HandIsClaimed(w) && CanStep(l, w, Act(e))
    ensures var w' := Stepped(l, w, Act(e)); HandIsClaimed(w') && Shrunk(w, w', e)
  {
    HandChange(w.state, w.worker, e);
  }

  lemma HandChange(s: State, w: WorkerId, e: Event)
    requires Enabled(s, e) && s.workers.Keys == {w}
    ensures var hand, hand' := HandOf(s, w), HandOf(Next(s, e), w);
      && Next(s, e).workers.Keys == {w}
      && (WonClaim(s.keys, e) ==> hand' == hand + {e.entry.id})
      && (!WonClaim(s.keys, e) ==> hand' <= hand)
      && (e.Dispatch? ==> e.id in hand && e.id !in hand')
      && (e.Crash? ==> hand' == {})
  {
    ActsAsTheWorker(s, w, e);
    HandAfter(s.keys, e, s.workers[w]);
    assert Next(s, e).workers == Memory(s, e);
  }

  lemma ActsAsTheWorker(s: State, w: WorkerId, e: Event)
    requires Enabled(s, e) && s.workers.Keys == {w}
    ensures HasActor(e) ==> e.w == w
    ensures e.Dispatch? ==> e.id in s.workers[w].hand
  {
    assert w in s.workers;
  }

  lemma HandAfter(k: Keys, e: Event, wk: Worker)
    ensures var hand, hand' := wk.hand.Keys, WorkerAfter(k, e, wk).hand.Keys;
      && (WonClaim(k, e) ==> hand' == hand + {e.entry.id})
      && (!WonClaim(k, e) ==> hand' <= hand)
      && (e.Dispatch? ==> e.id !in hand')
      && (e.Crash? ==> hand' == {})
  {
  }

  lemma OneFewer(a: set<JobId>, b: set<JobId>, x: JobId)
    requires a <= b
    ensures |a| <= |b|
    ensures x in b && x !in a ==> |a| <= |b| - 1
  {
    SmallerSet(a, b);
    if x in b && x !in a {
      SmallerSet(a, b - {x});
      Removed(b, b - {x}, x);
    }
  }

  /** Fewer outstanding jobs, on each backend as well; a dispatch uses up one of its own backend. */
  lemma CreditChange(l: Limits, w: World, e: Event, b: BackendId)
    requires HandIsClaimed(w) && CanStep(l, w, Act(e))
    ensures var w' := Stepped(l, w, Act(e));
      && (w'.tick.Dispatching? ==>
            DispatchCredit(w') <= DispatchCredit(w) - (if e.Dispatch? then 1 else 0))
      && SlotCredit(w', b) <= SlotCredit(w, b) - (if e.Dispatch? && e.backend == b then 1 else 0)
  {
    OutstandingShrinks(l, w, e);
    ShrunkCredit(w, Stepped(l, w, Act(e)), e, b);
  }

  lemma ShrunkCredit(w: World, w': World, e: Event, b: BackendId)
    requires Shrunk(w, w', e)
    ensures w'.tick.Dispatching? ==> DispatchCredit(w') <= DispatchCredit(w) - (if e.Dispatch? then 1 else 0)
    ensures SlotCredit(w', b) <= SlotCredit(w, b) - (if e.Dispatch? && e.backend == b then 1 else 0)
  {
    if w'.tick.Dispatching? {
      var used := if e.Dispatch? then e.id else 0;
      OneFewer(Outstanding(w'), Outstanding(w), used);
      OneFewer(OutstandingOn(w', b), OutstandingOn(w, b), used);
    }
  }

  lemma ActKeepsLimits(l: Limits, slack: Slack, w: World, e: Event)
    requires Inv(w.state) && WithinLimits(l, slack, w) && CanStep(l, w, Act(e))
    ensures WithinLimits(l, slack, Stepped(l, w, Act(e)))
  {
    var w' := Stepped(l, w, Act(e));
    OutstandingShrinks(l, w, e);
    CreditChange(l, w, e, 1);
    UnstoredChange(w.state, e);
    forall b: BackendId
      ensures SlotsKeptFree(l, slack, w', b)
    {
      assert SlotsKeptFree(l, slack, w, b);
      CreditChange(l, w, e, b);
      BackendChange(w.state, e, b);
    }
  }

  // ------------------------------------------------------------------ the worker's own steps

  /** What the plan takes of a backend is what is gone from its free slots. */
  lemma TakenOrPlanned(plan: map<JobId, BackendId>, free: map<BackendId, nat>, remaining: int, b: BackendId)
    requires FitsIn(plan, free, remaining)
    ensures b in Taken(free, plan) <==> b in free
    ensures if b in free then Taken(free, plan)[b] + |PlannedOn(plan, b)| == free[b] else PlannedOn(plan, b) == {}
  {
  }

  lemma AllocatedSlots(l: Limits, w: World, plan: map<JobId, BackendId>, b: BackendId)
    requires CanStep(l, w, Allocated(plan))
    ensures SlotCredit(Stepped(l, w, Allocated(plan)), b) == SlotCredit(w, b)
  {
    var w' := Stepped(l, w, Allocated(plan));
    TakenOrPlanned(plan, w.tick.free, w.tick.remaining, b);
    assert OutstandingOn(w', b) == PlannedOn(plan, b);
  }

  lemma AllocatedKeepsLimits(l: Limits, slack: Slack, w: World, plan: map<JobId, BackendId>)
    requires WithinLimits(l, slack, w) && CanStep(l, w, Allocated(plan))
    ensures WithinLimits(l, slack, Stepped(l, w, Allocated(plan)))
  {
    var w' := Stepped(l, w, Allocated(plan));
    assert Outstanding(w') == plan.Keys;
    forall b: BackendId
      ensures SlotsKeptFree(l, slack, w', b)
    {
      assert SlotsKeptFree(l, slack, w, b);
      AllocatedSlots(l, w, plan, b);
    }
  }

  lemma TierDoneKeepsLimits(l: Limits, slack: Slack, w: World)
    requires WithinLimits(l, slack, w) && CanStep(l, w, TierDone)
    ensures WithinLimits(l, slack, Stepped(l, w, TierDone))
  {
    var w' := Stepped(l, w, TierDone);
    assert Outstanding(w) == w.tick.plan.Keys - w.tick.claimed;
    SmallerSet(w.tick.claimed, w.tick.plan.Keys);
    forall b: BackendId
      ensures SlotsKeptFree(l, slack, w', b)
    {
      assert SlotsKeptFree(l, slack, w, b);
    }
  }

  /** Beginning, reading and ending a tick. */
  lemma ReadKeepsLimits(l: Limits, slack: Slack, w: World, step: Step)
    requires WithinLimits(l, slack, w) && CanStep(l, w, step) && ReadWithin(slack, w, step)
    requires !step.Act? && !step.Allocated? && !step.TierDone? && !step.Recount?
    ensures WithinLimits(l, slack, Stepped(l, w, step))
  {
    var w' := Stepped(l, w, step);
    forall b: BackendId
      ensures SlotsKeptFree(l, slack, w', b)
    {
      assert SlotsKeptFree(l, slack, w, b);
    }
  }

  lemma RecountKeepsLimits(l: Limits, slack: Slack, w: World, step: Step)
    requires WithinLimits(l, slack, w) && step.Recount?
    ensures WithinLimits(l, slack, Stepped(l, w, step))
  {
    var w' := Stepped(l, w, step);
    if w.tick.Dispatching? {
      assert Outstanding(w') == Outstanding(w);
    }
    forall b: BackendId
      ensures SlotsKeptFree(l, slack, w', b)
    {
      assert SlotsKeptFree(l, slack, w, b);
      assert OnBackend(w'.state.keys, b) == OnBackend(w.state.keys, b);
      if w.tick.Dispatching? {
        assert OutstandingOn(w', b) == OutstandingOn(w, b);
      }
    }
  }

  lemma StepKeepsLimits(l: Limits, slack: Slack, w: World, step: Step)
    requires Inv(w.state) && WithinLimits(l, slack, w) && CanStep(l, w, step) && ReadWithin(slack, w, step)
    ensures WithinLimits(l, slack, Stepped(l, w, step))
  {
    match step
    case Act(e) => ActKeepsLimits(l, slack, w, e);
    case Allocated(plan) => AllocatedKeepsLimits(l, slack, w, plan);
    case TierDone => TierDoneKeepsLimits(l, slack, w);
    case Recount(_) => RecountKeepsLimits(l, slack, w, step);
    case _ => ReadKeepsLimits(l, slack, w, step);
  }

  // ------------------------------------------------------------------ runs

  ghost predicate Steps(l: Limits, w: World, steps: seq<Step>)
    decreases |steps|
  {
    steps == [] || (CanStep(l, w, steps[0]) && Steps(l, Stepped(l, w, steps[0]), steps[1..]))
  }

  ghost function End(l: Limits, w: World, steps: seq<Step>): World
    requires Steps(l, w, steps)
    decreases |steps|
  {
    if steps == [] then w else End(l, Stepped(l, w, steps[0]), steps[1..])
  }

  ghost predicate ReadsWithin(l: Limits, slack: Slack, w: World, steps: seq<Step>)
    requires Steps(l, w, steps)
    decreases |steps|
  {
    steps == [] || (ReadWithin(slack, w, steps[0]) && ReadsWithin(l, slack, Stepped(l, w, steps[0]), steps[1..]))
  }

  lemma StepKeepsPlaces(l: Limits, w: World, step: Step)
    requires Inv(w.state) && CanStep(l, w, step)
    ensures Inv(Stepped(l, w, step).state)
  {
    match step
    case Act(e) => EventKeepsInv(w.state, e);
    case Recount(_) => CountersAreNotPlacement(w.state, Stepped(l, w, step).state);
    case _ =>
  }

  lemma {:induction false} LimitsHold(l: Limits, slack: Slack, w: World, steps: seq<Step>)
    requires Inv(w.state) && WithinLimits(l, slack, w) && Steps(l, w, steps) && ReadsWithin(l, slack, w, steps)
    ensures WithinLimits(l, slack, End(l, w, steps))
    decreases |steps|
  {
    if steps != [] {
      StepKeepsPlaces(l, w, steps[0]);
      StepKeepsLimits(l, slack, w, steps[0]);
      LimitsHold(l, slack, Stepped(l, w, steps[0]), steps[1..]);
    }
  }

  /** A resting worker on an empty Redis. */
  ghost predicate Begins(w: World) {
    Start(w.state) && w.state.workers.Keys == {w.worker} && w.tick.Resting?
  }

  /** However the slot counters drift, in every reachable state in-flight plus storing jobs are within
      unstored_job_max, and a backend is over its max_inflight by no more than its counter was ever
      too low when it was read. */
  lemma NeverOverBudgetBy(l: Limits, slack: Slack, w: World, steps: seq<Step>, b: BackendId)
    requires Begins(w) && Steps(l, w, steps) && ReadsWithin(l, slack, w, steps)
    ensures var k := End(l, w, steps).state.keys;
      && |k.inflight| + |k.harvest| <= Max0(l.unstored)
      && |OnBackend(k, b)| <= CapacityOf(l, b) + SlackOf(slack, b)
  {
    StartIsPlaced(w.state);
    forall b: BackendId
      ensures SlotsKeptFree(l, slack, w, b)
    {
      assert OnBackend(w.state.keys, b) == {};
    }
    LimitsHold(l, slack, w, steps);
    assert SlotsKeptFree(l, slack, End(l, w, steps), b);
  }

  /** Counters that only the state functions change are exact whenever they are read. */
  lemma {:induction false} ReadsAreExact(l: Limits, w: World, steps: seq<Step>)
    requires Inv(w.state) && AllExact(w.state.keys) && Steps(l, w, steps)
    requires forall i :: 0 <= i < |steps| ==> !steps[i].Recount?
    ensures ReadsWithin(l, map[], w, steps)
    decreases |steps|
  {
    if steps != [] {
      assert !steps[0].Recount?;
      StepKeepsPlaces(l, w, steps[0]);
      if steps[0].Act? {
        EventKeepsExact(w.state, steps[0].event);
      }
      ReadsAreExact(l, Stepped(l, w, steps[0]), steps[1..]);
    }
  }

  /** Then no backend is ever above its max_inflight, and in-flight plus storing jobs are within
      unstored_job_max. */
  lemma NeverOverBudget(l: Limits, w: World, steps: seq<Step>, b: BackendId)
    requires Begins(w) && Steps(l, w, steps) && forall i :: 0 <= i < |steps| ==> !steps[i].Recount?
    ensures var k := End(l, w, steps).state.keys;
      && |k.inflight| + |k.harvest| <= Max0(l.unstored)
      && |OnBackend(k, b)| <= CapacityOf(l, b)
  {
    StartIsPlaced(w.state);
    ReadsAreExact(l, w, steps);
    NeverOverBudgetBy(l, map[], w, steps, b);
  }

  // ------------------------------------------------------------------ the order of the two reads

  /** In-flight read first, storing later: whatever the others did in between, every unstored job is
      in the sum. */
  lemma {:induction false} InflightFirstMissesNothing(s: State, es: seq<Event>)
    requires Inv(s) && Run(s, es) && forall i :: 0 <= i < |es| ==> !es[i].Dispatch?
    ensures |After(s, es).keys.inflight| <= |s.keys.inflight|
    ensures Unstored(After(s, es).keys) <= |s.keys.inflight| + |After(s, es).keys.harvest|
    decreases |es|
  {
    if es != [] {
      UnstoredChange(s, es[0]);
      EventKeepsInv(s, es[0]);
      InflightFirstMissesNothing(Next(s, es[0]), es[1..]);
    }
  }

  /** Read the other way round, a job that finishes in between is in neither number: at the limit
      there would be budget for one more dispatch. */
  lemma StoringFirstMissesAJob(s: State, id: JobId)
    requires Inv(s) && id in s.keys.inflight && id in s.keys.jobs
    ensures var e := EngineDone(id, s.keys.jobs[id]);
      && Enabled(s, e)
      && |s.keys.harvest| + |Next(s, e).keys.inflight| == Unstored(Next(s, e).keys) - 1
      && Unstored(Next(s, e).keys) == Unstored(s.keys)
  {
    assert JobPlaced(s, id);
    ReleaseMovesOn(s.keys, id, s.keys.jobs[id], s.now);
  }

  lemma ReleaseMovesOn(k: Keys, id: JobId, state: Job, now: Time)
    requires id in k.inflight && id !in k.harvest
    ensures var op := ReleaseDone(id, state, now);
      |NextInflight(k, op)| == |k.inflight| - 1 && |NextHarvest(k, op)| == |k.harvest| + 1
  {
  }
}
