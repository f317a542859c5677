/**
 A submit worker's tick that nobody disturbs wastes nothing: the budget it reads is exactly what is
 left of unstored_job_max, the free slots it reads are exactly what is left of each max_inflight, and
 every dispatch takes one of each and leaves the rest. So such a tick ends at a limit, or for want of
 jobs that an open backend serves (TierPlan.dfy).
 */
module QuietTick {
  import opened Wrappers
  import opened RedisKeys
  import opened Counters
  import opened Protocol
  import opened ProtocolRuns
  import opened Budget
  import SweepRaces

  // ------------------------------------------------------------------ the reads

  ghost function Reads(backends: seq<BackendId>): seq<Step> {
    seq(|backends|, i requires 0 <= i < |backends| => ReadSlot(backends[i]))
  }

  /** What is left of max_inflight on every backend that was read. */
  ghost predicate FreeAsRead(l: Limits, k: Keys, backends: seq<BackendId>, free: map<BackendId, nat>) {
    && (forall b: BackendId :: b in free <==> b in backends)
    && (forall b: BackendId :: b in free && b in l.capacity ==>
      free[b] == if |OnBackend(k, b)| < l.capacity[b] then l.capacity[b] - |OnBackend(k, b)| else 0)
  }

  lemma {:induction false} StepsConcat(l: Limits, w: World, a: seq<Step>, b: seq<Step>)
    requires Steps(l, w, a) && Steps(l, End(l, w, a), b)
    ensures Steps(l, w, a + b) && End(l, w, a + b) == End(l, End(l, w, a), b)
    decreases |a|
  {
    if a == [] {
      assert a + b == b;
    } else {
      assert (a + b)[0] == a[0] && (a + b)[1..] == a[1..] + b;
      StepsConcat(l, Stepped(l, w, a[0]), a[1..], b);
    }
  }

  lemma StepsThen(l: Limits, w: World, a: seq<Step>, step: Step)
    requires Steps(l, w, a) && CanStep(l, End(l, w, a), step)
    ensures Steps(l, w, a + [step]) && End(l, w, a + [step]) == Stepped(l, End(l, w, a), step)
  {
    var mid := End(l, w, a);
    var end := Stepped(l, mid, step);
    assert [step][1..] == [] && Steps(l, end, []) && End(l, end, []) == end;
    assert Steps(l, mid, [step]) && End(l, mid, [step]) == End(l, end, []);
    StepsConcat(l, w, a, [step]);
  }

  lemma {:induction false} ReadsFree(l: Limits, w: World, backends: seq<BackendId>)
    requires SlotsExact(w.state.keys) && w.tick.ReadingSlots? && w.tick.free == map[]
    requires forall b :: b in backends ==> b in l.capacity
    ensures Steps(l, w, Reads(backends))
    ensures var e := End(l, w, Reads(backends));
      && e.state == w.state && e.worker == w.worker && e.tick.ReadingSlots?
      && FreeAsRead(l, w.state.keys, backends, e.tick.free)
    decreases |backends|
  {
    if backends == [] {
      assert Reads(backends) == [];
    } else {
      var first, b := backends[..|backends| - 1], backends[|backends| - 1];
      assert backends == first + [b];
      ReadsFree(l, w, first);
      StepsThen(l, w, Reads(first), ReadSlot(b));
      assert Reads(backends) == Reads(first) + [ReadSlot(b)];
      OneRead(l, End(l, w, Reads(first)), first, b);
    }
  }

  lemma OneRead(l: Limits, w: World, first: seq<BackendId>, b: BackendId)
    requires SlotsExact(w.state.keys) && w.tick.ReadingSlots? && FreeAsRead(l, w.state.keys, first, w.tick.free)
    requires b in l.capacity
    ensures FreeAsRead(l, w.state.keys, first + [b], Stepped(l, w, ReadSlot(b)).tick.free)
  {
    assert Get(w.state.keys.slots, b) == |OnBackend(w.state.keys, b)|;
  }

  /** An undisturbed tick reads exactly what is left: it rests if in-flight plus storing jobs are at the
      limit, and otherwise may dispatch up to the limit, and on each backend up to its max_inflight. */
  lemma QuietReads(l: Limits, w: World, backends: seq<BackendId>)
    requires SlotsExact(w.state.keys) && w.tick.Resting?
    requires forall b :: b in backends ==> b in l.capacity
    ensures var steps := [Begin] + Reads(backends) + [CountInflight] + [CountHarvest];
      && Steps(l, w, steps)
      && var e := End(l, w, steps); var used := |w.state.keys.inflight| + |w.state.keys.harvest|;
      && e.state == w.state && e.worker == w.worker
      && (l.unstored <= used ==> e.tick.Resting?)
      && (used < l.unstored ==>
            && e.tick.BetweenTiers? && e.tick.remaining == l.unstored - used
            && FreeAsRead(l, w.state.keys, backends, e.tick.free))
  {
    assert [] + [Begin] == [Begin];
    StepsThen(l, w, [], Begin);
    ReadsFree(l, End(l, w, [Begin]), backends);
    StepsConcat(l, w, [Begin], Reads(backends));
    StepsThen(l, w, [Begin] + Reads(backends), CountInflight);
    StepsThen(l, w, [Begin] + Reads(backends) + [CountInflight], CountHarvest);
  }

  // ------------------------------------------------------------------ every dispatch takes one

  /** A step of an undisturbed tick in which no dispatch fails; a claim may find the job gone. */
  ghost predicate Quiet(w: World, step: Step) {
    || step.Allocated? || step.TierDone?
    || (step.Act? && (step.event.Peek? || step.event.ClaimEntry? || step.event.Dispatch?))
  }

  /** At the end of a tier every planned job was claimed. */
  ghost predicate ClaimsAll(w: World, step: Step) {
    step.TierDone? && w.tick.Dispatching? ==> w.tick.claimed == w.tick.plan.Keys
  }

  lemma DispatchTakesOne(s: State, e: Event)
    requires Inv(s) && Enabled(s, e) && e.Dispatch?
    ensures Unstored(Next(s, e).keys) == Unstored(s.keys) + 1
  {
    var k := s.keys;
    assert Holds(s, e.w, e.id) && HolderAlone(s, e.w, e.id) && JobPlaced(s, e.id);
    Added(k.inflight, NextInflight(k, SetRunning(e.id, e.backend)), e.id);
  }

  lemma DispatchTakesASlot(s: State, e: Event, b: BackendId)
    requires Inv(s) && Enabled(s, e) && e.Dispatch?
    ensures |OnBackend(Next(s, e).keys, b)| == |OnBackend(s.keys, b)| + if e.backend == b then 1 else 0
  {
    var op := SetRunning(e.id, e.backend);
    assert Holds(s, e.w, e.id) && HolderAlone(s, e.w, e.id) && JobPlaced(s, e.id);
    CallsAreProper(s, e);
    SlotChange(s.keys, op, b);
    assert OnBackend(Next(s, e).keys, b) == OnBackend(Primary(s.keys, op), b);
  }

  /** What a quiet event of the worker does to the jobs it may still dispatch. */
  lemma QuietOutstanding(l: Limits, w: World, e: Event)
    requires HandIsClaimed(w) && CanStep(l, w, Act(e)) && Quiet(w, Act(e)) && w.tick.Dispatching?
    ensures var w' := Stepped(l, w, Act(e));
      && w'.tick.Dispatching? && w'.tick.plan == w.tick.plan && w'.tick.free == w.tick.free
      && w'.tick.remaining == w.tick.remaining
      && Outstanding(w') == (if e.Dispatch? then Outstanding(w) - {e.id} else Outstanding(w))
      && (e.Dispatch? ==> e.id in Outstanding(w) && w.tick.plan[e.id] == e.backend)
  {
    HandChange(w.state, w.worker, e);
    HandIsAs(w.state, w.worker, e);
  }

  lemma HandIsAs(s: State, w: WorkerId, e: Event)
    requires Enabled(s, e) && s.workers.Keys == {w} && (e.Peek? || e.ClaimEntry? || e.Dispatch?)
    ensures var hand, hand' := HandOf(s, w), HandOf(Next(s, e), w);
      && (e.Peek? || (e.ClaimEntry? && !WonClaim(s.keys, e)) ==> hand' == hand)
      && (e.Dispatch? ==> hand' == hand - {e.id})
  {
    ActsAsTheWorker(s, w, e);
    assert Next(s, e).workers == Memory(s, e);
  }

  /** Jobs plus the credits for more: conserved. */
  lemma QuietStepConserves(l: Limits, w: World, step: Step, b: BackendId)
    requires Inv(w.state) && HandIsClaimed(w) && CanStep(l, w, step) && Quiet(w, step)
    requires w.tick.BetweenTiers? || w.tick.Dispatching?
    ensures var w' := Stepped(l, w, step);
      && Unstored(w'.state.keys) + DispatchCredit(w') == Unstored(w.state.keys) + DispatchCredit(w)
      && (ClaimsAll(w, step) ==>
            |OnBackend(w'.state.keys, b)| + SlotCredit(w', b) == |OnBackend(w.state.keys, b)| + SlotCredit(w, b))
  {
    match step
    case Allocated(plan) => QuietAllocated(l, w, plan, b);
    case TierDone => QuietTierDone(l, w, b);
    case Act(e) => QuietAct(l, w, e, b);
    case _ =>
  }

  lemma QuietAllocated(l: Limits, w: World, plan: map<JobId, BackendId>, b: BackendId)
    requires CanStep(l, w, Allocated(plan))
    ensures var w' := Stepped(l, w, Allocated(plan));
      DispatchCredit(w') == DispatchCredit(w) && SlotCredit(w', b) == SlotCredit(w, b) && w'.state == w.state
  {
    AllocatedSlots(l, w, plan, b);
    assert Outstanding(Stepped(l, w, Allocated(plan))) == plan.Keys;
  }

  lemma QuietTierDone(l: Limits, w: World, b: BackendId)
    requires HandIsClaimed(w) && CanStep(l, w, TierDone)
    ensures var w' := Stepped(l, w, TierDone);
      && DispatchCredit(w') == DispatchCredit(w) && w'.state == w.state
      && (w.tick.claimed == w.tick.plan.Keys ==> SlotCredit(w', b) == SlotCredit(w, b))
  {
    var planned, claimed := w.tick.plan.Keys, w.tick.claimed;
    assert Outstanding(w) == planned - claimed;
    assert planned == (planned - claimed) + claimed;
    if claimed == planned {
      assert OutstandingOn(w, b) == {};
    }
  }

  lemma QuietAct(l: Limits, w: World, e: Event, b: BackendId)
    requires Inv(w.state) && HandIsClaimed(w) && CanStep(l, w, Act(e)) && Quiet(w, Act(e))
    requires w.tick.BetweenTiers? || w.tick.Dispatching?
    ensures var w' := Stepped(l, w, Act(e));
      && Unstored(w'.state.keys) + DispatchCredit(w') == Unstored(w.state.keys) + DispatchCredit(w)
      && |OnBackend(w'.state.keys, b)| + SlotCredit(w', b) == |OnBackend(w.state.keys, b)| + SlotCredit(w, b)
  {
    if e.Dispatch? {
      DispatchTakesOne(w.state, e);
      DispatchTakesASlot(w.state, e, b);
      QuietOutstanding(l, w, e);
      CreditUsed(w, Stepped(l, w, Act(e)), e, b);
    } else {
      ClaimMovesNoJob(w.state, e, b);
      if w.tick.Dispatching? {
        QuietOutstanding(l, w, e);
        SameCredit(w, Stepped(l, w, Act(e)), b);
      }
    }
  }

  lemma ClaimMovesNoJob(s: State, e: Event, b: BackendId)
    requires Inv(s) && Enabled(s, e) && (e.Peek? || e.ClaimEntry?)
    ensures Unstored(Next(s, e).keys) == Unstored(s.keys)
    ensures |OnBackend(Next(s, e).keys, b)| == |OnBackend(s.keys, b)|
  {
    if e.ClaimEntry? {
      var op := Call(s, e).value;
      CallsAreProper(s, e);
      SlotChange(s.keys, op, b);
      assert OnBackend(Next(s, e).keys, b) == OnBackend(Primary(s.keys, op), b);
    }
  }

  lemma CreditUsed(w: World, w': World, e: Event, b: BackendId)
    requires w.tick.Dispatching? && w'.tick.Dispatching? && e.Dispatch?
    requires w'.tick.plan == w.tick.plan && w'.tick.free == w.tick.free && w'.tick.remaining == w.tick.remaining
    requires e.id in Outstanding(w) && Outstanding(w') == Outstanding(w) - {e.id} && w.tick.plan[e.id] == e.backend
    ensures DispatchCredit(w') == DispatchCredit(w) - 1
    ensures SlotCredit(w', b) == SlotCredit(w, b) - if e.backend == b then 1 else 0
  {
    Removed(Outstanding(w), Outstanding(w'), e.id);
    Removed(OutstandingOn(w, b), OutstandingOn(w, b) - {e.id}, e.id);
    assert OutstandingOn(w', b) == OutstandingOn(w, b) - {e.id};
  }

  lemma SameCredit(w: World, w': World, b: BackendId)
    requires w.tick.Dispatching? && w'.tick.Dispatching?
    requires w'.tick.plan == w.tick.plan && w'.tick.free == w.tick.free && w'.tick.remaining == w.tick.remaining
    requires Outstanding(w') == Outstanding(w)
    ensures DispatchCredit(w') == DispatchCredit(w) && SlotCredit(w', b) == SlotCredit(w, b)
  {
    assert OutstandingOn(w', b) == OutstandingOn(w, b);
  }

  // ------------------------------------------------------------------ the whole tick

  ghost predicate AllQuiet(l: Limits, w: World, steps: seq<Step>)
    requires Steps(l, w, steps)
    decreases |steps|
  {
    steps == [] || (Quiet(w, steps[0]) && AllQuiet(l, Stepped(l, w, steps[0]), steps[1..]))
  }

  ghost predicate AllClaimed(l: Limits, w: World, steps: seq<Step>)
    requires Steps(l, w, steps)
    decreases |steps|
  {
    steps == [] || (ClaimsAll(w, steps[0]) && AllClaimed(l, Stepped(l, w, steps[0]), steps[1..]))
  }

  lemma {:induction false} QuietRunConserves(l: Limits, w: World, steps: seq<Step>, b: BackendId)
    requires Inv(w.state) && HandIsClaimed(w) && Steps(l, w, steps) && AllQuiet(l, w, steps)
    requires w.tick.BetweenTiers? || w.tick.Dispatching?
    ensures var e := End(l, w, steps);
      && Unstored(e.state.keys) + DispatchCredit(e) == Unstored(w.state.keys) + DispatchCredit(w)
      && (AllClaimed(l, w, steps) ==>
            |OnBackend(e.state.keys, b)| + SlotCredit(e, b) == |OnBackend(w.state.keys, b)| + SlotCredit(w, b))
    decreases |steps|
  {
    if steps != [] {
      QuietStepConserves(l, w, steps[0], b);
      StepKeepsPlaces(l, w, steps[0]);
      QuietStepStays(l, w, steps[0]);
      QuietRunConserves(l, Stepped(l, w, steps[0]), steps[1..], b);
    }
  }

  lemma QuietStepStays(l: Limits, w: World, step: Step)
    requires HandIsClaimed(w) && CanStep(l, w, step) && Quiet(w, step)
    requires w.tick.BetweenTiers? || w.tick.Dispatching?
    ensures var w' := Stepped(l, w, step); HandIsClaimed(w') && (w'.tick.BetweenTiers? || w'.tick.Dispatching?)
  {
    match step
    case Act(e) => OutstandingShrinks(l, w, e);
    case TierDone =>
    case _ =>
  }

  /** From its reads to its last tier, an undisturbed tick leaves unused exactly what it still has: in
      flight plus storing plus its remaining budget is unstored_job_max, claims that found the job gone
      given back; and if it claimed all it planned, on every backend it read the jobs and the free slots
      make max_inflight, or what was already there above that. */
  lemma TickWastesNothing(l: Limits, w: World, backends: seq<BackendId>, steps: seq<Step>, b: BackendId)
    requires Inv(w.state) && SlotsExact(w.state.keys) && HandIsClaimed(w) && w.tick.Resting?
    requires (forall c :: c in backends ==> c in l.capacity) && b in backends
    requires |w.state.keys.inflight| + |w.state.keys.harvest| < l.unstored
    ensures var first := [Begin] + Reads(backends) + [CountInflight] + [CountHarvest];
      && Steps(l, w, first)
      && var mid := End(l, w, first);
      Steps(l, mid, steps) && AllQuiet(l, mid, steps) && End(l, mid, steps).tick.BetweenTiers? ==>
        var e := End(l, mid, steps); var before, after := |OnBackend(w.state.keys, b)|, |OnBackend(e.state.keys, b)|;
        && |e.state.keys.inflight| + |e.state.keys.harvest| + e.tick.remaining == l.unstored
        && (AllClaimed(l, mid, steps) ==>
              after + (if b in e.tick.free then e.tick.free[b] else 0) ==
              if before < l.capacity[b] then l.capacity[b] else before)
  {
    QuietReads(l, w, backends);
    var mid := End(l, w, [Begin] + Reads(backends) + [CountInflight] + [CountHarvest]);
    if Steps(l, mid, steps) && AllQuiet(l, mid, steps) {
      QuietRunConserves(l, mid, steps, b);
    }
  }

  // ------------------------------------------------------------------ a dispatch is possible

  lemma PlanOfOne(id: JobId, b: BackendId, c: BackendId)
    ensures |PlannedOn(map[id := b], c)| == if c == b then 1 else 0
  {
    assert PlannedOn(map[id := b], c) == if c == b then {id} else {};
  }

  /** The worker has planned one job, and later claimed it. */
  ghost function Planned(w: World, id: JobId, b: BackendId, state: State, claimed: set<JobId>): World
    requires w.tick.BetweenTiers?
  {
    World(state, w.worker, Dispatching(Taken(w.tick.free, map[id := b]), w.tick.remaining, map[id := b], claimed))
  }

  lemma PlansOne(l: Limits, w: World, id: JobId, b: BackendId)
    requires w.tick.BetweenTiers? && w.tick.remaining > 0 && b in w.tick.free && w.tick.free[b] > 0
    ensures CanStep(l, w, Allocated(map[id := b]))
    ensures Stepped(l, w, Allocated(map[id := b])) == Planned(w, id, b, w.state, {})
    ensures b in Taken(w.tick.free, map[id := b]) && Taken(w.tick.free, map[id := b])[b] == w.tick.free[b] - 1
  {
    OneFits(w.tick.free, w.tick.remaining, id, b);
  }

  lemma OneFits(free: map<BackendId, nat>, remaining: int, id: JobId, b: BackendId)
    requires remaining > 0 && b in free && free[b] > 0
    ensures FitsIn(map[id := b], free, remaining)
    ensures b in Taken(free, map[id := b]) && Taken(free, map[id := b])[b] == free[b] - 1
  {
    PlanOfOne(id, b, b);
    forall c | c in free ensures |PlannedOn(map[id := b], c)| <= free[c] { PlanOfOne(id, b, c); }
    assert |map[id := b]| == 1;
  }

  lemma PeeksAndClaimsOne(l: Limits, w: World, id: JobId, b: BackendId)
    requires w.tick.BetweenTiers? && w.worker in w.state.workers && QueuedAsSubmitted(w.state, id)
    ensures var v, entry := w.worker, SweepRaces.EntryOf(w.state, id);
      var w1 := Planned(w, id, b, w.state, {});
      && CanStep(l, w1, Act(Peek(v, {entry})))
      && var w2 := Stepped(l, w1, Act(Peek(v, {entry})));
      && CanStep(l, w2, Act(ClaimEntry(v, entry)))
      && Stepped(l, w2, Act(ClaimEntry(v, entry))) == Planned(w, id, b, SweepRaces.Claimed(w.state, v, entry), {id})
  {
    SweepRaces.PeekThenClaim(w.state, w.worker, id);
  }

  lemma DispatchesOne(l: Limits, w: World, id: JobId, b: BackendId) returns (w4: World)
    requires w.tick.BetweenTiers? && w.state.workers.Keys == {w.worker} && Hand(w) == {} &&
      QueuedAsSubmitted(w.state, id)
    ensures var v := w.worker;
      var w3 := Planned(w, id, b, SweepRaces.Claimed(w.state, v, SweepRaces.EntryOf(w.state, id)), {id});
      CanStep(l, w3, Act(Dispatch(v, id, b))) && w4 == Stepped(l, w3, Act(Dispatch(v, id, b)))
    ensures w4 == Planned(w, id, b, w4.state, {id}) && Hand(w4) == {}
    ensures var k := w4.state.keys; id in k.inflight && id in k.jobs && k.jobs[id].backend == Some(b)
  {
    var v := w.worker;
    assert v in w.state.workers;
    SweepRaces.ClaimThenDispatch(w.state, v, id, b);
    SweepRaces.TakenIsInFlight(w.state.keys, id, w.state.now, b);
    var w3 := Planned(w, id, b, SweepRaces.Claimed(w.state, v, SweepRaces.EntryOf(w.state, id)), {id});
    w4 := Stepped(l, w3, Act(Dispatch(v, id, b)));
  }

  /** While budget and a free slot remain, a queued job can be dispatched, and takes one of each. */
  lemma OneMoreDispatch(l: Limits, w: World, id: JobId, b: BackendId) returns (steps: seq<Step>)
    requires HandIsClaimed(w) && w.tick.BetweenTiers? && QueuedAsSubmitted(w.state, id)
    requires w.tick.remaining > 0 && b in w.tick.free && w.tick.free[b] > 0
    ensures Steps(l, w, steps)
    ensures var e := End(l, w, steps);
      && e.tick.BetweenTiers? && e.tick.remaining == w.tick.remaining - 1
      && b in e.tick.free && e.tick.free[b] == w.tick.free[b] - 1
      && id in e.state.keys.inflight && id in e.state.keys.jobs && e.state.keys.jobs[id].backend == Some(b)
  {
    var v, entry := w.worker, SweepRaces.EntryOf(w.state, id);
    var plan, peek := Allocated(map[id := b]), Act(Peek(v, {entry}));
    var claim, go := Act(ClaimEntry(v, entry)), Act(Dispatch(v, id, b));
    PlansOne(l, w, id, b);
    PeeksAndClaimsOne(l, w, id, b);
    var w4 := DispatchesOne(l, w, id, b);
    assert [] + [plan] == [plan];
    StepsThen(l, w, [], plan);
    StepsThen(l, w, [plan], peek);
    StepsThen(l, w, [plan] + [peek], claim);
    StepsThen(l, w, [plan] + [peek] + [claim], go);
    StepsThen(l, w, [plan] + [peek] + [claim] + [go], TierDone);
    steps := [plan] + [peek] + [claim] + [go] + [TierDone];
  }
}
