/** What allocate_scored returns for a tier is a plan that the dispatch budget allows, and that leaves
    budget, free slots and pending jobs over only for a reason. */
module TierPlan {
  import opened RedisKeys
  import opened Counters
  import opened Allocate
  import opened AllocateProperties
  import opened AllocateMeaning
  import Budget

  /** The placements as a map: the peeked jobs' ids, and the slots' backends. */
  function PlanOf(ids: seq<JobId>, slots: seq<Slot>, placed: seq<Placement>): map<JobId, BackendId>
    requires Within(|slots|, |ids|, placed)
    decreases |placed|
  {
    if placed == [] then map[]
    else
      var last := placed[|placed| - 1];
      PlanOf(ids, slots, placed[..|placed| - 1])[ids[last.job] := slots[last.slot].backend]
  }

  /** The tier's slots are different backends, with the free capacity the tick read. */
  predicate TierOf(slots: seq<Slot>, free: map<BackendId, nat>) {
    && (forall i :: 0 <= i < |slots| ==> slots[i].backend in free && free[slots[i].backend] == slots[i].free)
    && (forall i, k :: 0 <= i < k < |slots| ==> slots[i].backend != slots[k].backend)
  }

  lemma {:induction false} PlanSize(ids: seq<JobId>, slots: seq<Slot>, placed: seq<Placement>)
    requires Within(|slots|, |ids|, placed)
    ensures |PlanOf(ids, slots, placed)| <= |placed|
    decreases |placed|
  {
    if placed != [] {
      PlanSize(ids, slots, placed[..|placed| - 1]);
    }
  }

  lemma {:induction false} PlanBackends(ids: seq<JobId>, slots: seq<Slot>, placed: seq<Placement>, id: JobId)
    returns (i: nat)
    requires Within(|slots|, |ids|, placed) && id in PlanOf(ids, slots, placed)
    ensures i < |slots| && PlanOf(ids, slots, placed)[id] == slots[i].backend
    decreases |placed|
  {
    var last := placed[|placed| - 1];
    if id == ids[last.job] {
      i := last.slot;
    } else {
      i := PlanBackends(ids, slots, placed[..|placed| - 1], id);
    }
  }

  lemma {:induction false} PlannedUses(ids: seq<JobId>, slots: seq<Slot>, free: map<BackendId, nat>,
                                       placed: seq<Placement>, i: nat)
    requires Within(|slots|, |ids|, placed) && TierOf(slots, free) && i < |slots|
    ensures |Budget.PlannedOn(PlanOf(ids, slots, placed), slots[i].backend)| <= Uses(placed, i)
    decreases |placed|
  {
    var b := slots[i].backend;
    if placed == [] {
      assert Budget.PlannedOn(map[], b) == {};
    } else {
      var last := placed[|placed| - 1];
      var before := PlanOf(ids, slots, placed[..|placed| - 1]);
      PlannedUses(ids, slots, free, placed[..|placed| - 1], i);
      PlannedOneMore(before, ids[last.job], slots[last.slot].backend, b);
    }
  }

  lemma PlannedOneMore(plan: map<JobId, BackendId>, id: JobId, at: BackendId, b: BackendId)
    ensures |Budget.PlannedOn(plan[id := at], b)| <= |Budget.PlannedOn(plan, b)| + if at == b then 1 else 0
  {
    var now, was := Budget.PlannedOn(plan[id := at], b), Budget.PlannedOn(plan, b);
    SmallerSet(now, if at == b then was + {id} else was);
  }

  /** Peeking no more jobs than the budget, the allocation fits the budget and every backend. */
  lemma AllocationFits(b: Burst, ids: seq<JobId>, placed: seq<Placement>, free: map<BackendId, nat>, remaining: int)
    requires |ids| == |b.jobs| <= remaining && TierOf(b.slots, free) && b.Allocation(|b.jobs|, placed)
    ensures Budget.FitsIn(PlanOf(ids, b.slots, placed), free, remaining)
  {
    var plan := PlanOf(ids, b.slots, placed);
    NoMorePlacementsThanJobs(b.Rules(), |b.jobs|, placed);
    PlanSize(ids, b.slots, placed);
    forall id | id in plan
      ensures exists i :: 0 <= i < |b.slots| && plan[id] == b.slots[i].backend
    {
      var i := PlanBackends(ids, b.slots, placed, id);
    }
    forall c | c in free
      ensures |Budget.PlannedOn(plan, c)| <= free[c]
    {
      if i :| 0 <= i < |b.slots| && b.slots[i].backend == c {
        PlannedUses(ids, b.slots, free, placed, i);
        NeverOverfull(b, |b.jobs|, placed, i, |placed|);
        assert placed[..|placed|] == placed;
      } else {
        assert Budget.PlannedOn(plan, c) == {};
      }
    }
  }

  /** Different jobs, each placed once. */
  ghost predicate EachOnce(ids: seq<JobId>, placed: seq<Placement>) {
    && (forall i, j :: 0 <= i < j < |ids| ==> ids[i] != ids[j])
    && (forall k, l :: 0 <= k < l < |placed| ==> placed[k].job < placed[l].job)
  }

  lemma {:induction false} PlanHas(ids: seq<JobId>, slots: seq<Slot>, placed: seq<Placement>, k: nat)
    requires Within(|slots|, |ids|, placed) && EachOnce(ids, placed) && k < |placed|
    ensures var plan := PlanOf(ids, slots, placed);
      ids[placed[k].job] in plan && plan[ids[placed[k].job]] == slots[placed[k].slot].backend
    decreases |placed|
  {
    if k < |placed| - 1 {
      PlanHas(ids, slots, placed[..|placed| - 1], k);
      assert placed[k].job < placed[|placed| - 1].job;
    }
  }

  lemma {:induction false} PlanOnlyHas(ids: seq<JobId>, slots: seq<Slot>, placed: seq<Placement>, id: JobId)
    returns (k: nat)
    requires Within(|slots|, |ids|, placed) && id in PlanOf(ids, slots, placed)
    ensures k < |placed| && ids[placed[k].job] == id
    decreases |placed|
  {
    if ids[placed[|placed| - 1].job] == id {
      k := |placed| - 1;
    } else {
      k := PlanOnlyHas(ids, slots, placed[..|placed| - 1], id);
    }
  }

  lemma {:induction false} NotPlanned(ids: seq<JobId>, slots: seq<Slot>, placed: seq<Placement>, id: JobId)
    requires Within(|slots|, |ids|, placed) && forall k :: 0 <= k < |placed| ==> ids[placed[k].job] != id
    ensures id !in PlanOf(ids, slots, placed)
    decreases |placed|
  {
    if placed != [] { NotPlanned(ids, slots, placed[..|placed| - 1], id); }
  }

  lemma {:induction false} PlanHasNoMore(ids: seq<JobId>, slots: seq<Slot>, placed: seq<Placement>)
    requires Within(|slots|, |ids|, placed) && EachOnce(ids, placed)
    ensures |PlanOf(ids, slots, placed)| == |placed|
    decreases |placed|
  {
    if placed != [] {
      var before, last := placed[..|placed| - 1], placed[|placed| - 1];
      PlanHasNoMore(ids, slots, before);
      assert forall k :: 0 <= k < |before| ==> before[k] == placed[k] && ids[placed[k].job] != ids[last.job];
      NotPlanned(ids, slots, before, ids[last.job]);
    }
  }

  /** The plan sends exactly the placed jobs, each to the backend of its slot. */
  lemma PlanIsThePlacements(ids: seq<JobId>, slots: seq<Slot>, placed: seq<Placement>)
    requires Within(|slots|, |ids|, placed) && EachOnce(ids, placed)
    ensures var plan := PlanOf(ids, slots, placed);
      && (forall k :: 0 <= k < |placed| ==>
            ids[placed[k].job] in plan && plan[ids[placed[k].job]] == slots[placed[k].slot].backend)
      && (forall id :: id in plan ==> exists k :: 0 <= k < |placed| && ids[placed[k].job] == id)
      && |plan| == |placed|
  {
    var plan := PlanOf(ids, slots, placed);
    forall k | 0 <= k < |placed|
      ensures ids[placed[k].job] in plan && plan[ids[placed[k].job]] == slots[placed[k].slot].backend
    {
      PlanHas(ids, slots, placed, k);
    }
    forall id | id in plan ensures exists k :: 0 <= k < |placed| && ids[placed[k].job] == id {
      var k := PlanOnlyHas(ids, slots, placed, id);
    }
    PlanHasNoMore(ids, slots, placed);
  }

  // ------------------------------------------------------------------ why a tier stops

  /** The slots' free capacity, and what a burst used of it. */
  function SumFree(slots: seq<Slot>, n: nat): int
    requires n <= |slots|
  {
    if n == 0 then 0 else SumFree(slots, n - 1) + slots[n - 1].free
  }

  function SumUses(placed: seq<Placement>, n: nat): int {
    if n == 0 then 0 else SumUses(placed, n - 1) + Uses(placed, n - 1)
  }

  lemma {:induction false} OneMoreUse(placed: seq<Placement>, n: nat)
    requires placed != []
    ensures SumUses(placed, n) == SumUses(placed[..|placed| - 1], n) + if placed[|placed| - 1].slot < n then 1 else 0
    decreases n
  {
    if n > 0 { OneMoreUse(placed, n - 1); }
  }

  lemma {:induction false} UsesAddUp(slots: nat, jobs: nat, placed: seq<Placement>)
    requires Within(slots, jobs, placed)
    ensures SumUses(placed, slots) == |placed|
    decreases |placed|
  {
    if placed == [] {
      NoUses(slots);
    } else {
      OneMoreUse(placed, slots);
      UsesAddUp(slots, jobs, placed[..|placed| - 1]);
    }
  }

  lemma {:induction false} NoUses(n: nat)
    ensures SumUses([], n) == 0
  {
    if n > 0 { NoUses(n - 1); }
  }

  /** Sums of parts that are pairwise no larger are equal only if the parts are. */
  lemma {:induction false} EqualParts(slots: seq<Slot>, placed: seq<Placement>, n: nat, i: nat)
    requires i < n <= |slots| && forall j :: 0 <= j < n ==> Uses(placed, j) <= slots[j].free
    requires SumUses(placed, n) >= SumFree(slots, n)
    ensures Uses(placed, i) == slots[i].free
    decreases n
  {
    PartsBelow(slots, placed, n - 1);
    if i < n - 1 { EqualParts(slots, placed, n - 1, i); }
  }

  lemma {:induction false} PartsBelow(slots: seq<Slot>, placed: seq<Placement>, n: nat)
    requires n <= |slots| && forall j :: 0 <= j < n ==> Uses(placed, j) <= slots[j].free
    ensures SumUses(placed, n) <= SumFree(slots, n)
    decreases n
  {
    if n > 0 { PartsBelow(slots, placed, n - 1); }
  }

  lemma {:induction false} SomeLeftOut(rule: Rule, n: nat, placed: seq<Placement>) returns (j: nat)
    requires Follows(rule, n, placed) && |placed| < n
    ensures j < n && !IsPlaced(placed, j)
    decreases n
  {
    var before := Earlier(placed, n);
    if OutcomeOf(placed, n).None? {
      j := n - 1;
      forall k | 0 <= k < |placed| ensures placed[k].job != j { PlacedBelow(rule, n - 1, placed, k); }
    } else {
      j := SomeLeftOut(rule, n - 1, before);
      assert forall k :: 0 <= k < |before| ==> placed[k] == before[k];
    }
  }

  /** A tier peeks as many jobs as its free slots and the budget allow, or all there are. It then stops
      because the budget is used up, because every slot of it is, because every pending job is placed,
      or because some are left that none of its backends is open to. */
  lemma TierStopsForAReason(b: Burst, placed: seq<Placement>, remaining: int, pending: nat)
    requires b.Allocation(|b.jobs|, placed) && forall i :: 0 <= i < |b.slots| ==> b.slots[i].free >= 0
    requires |b.jobs| == remaining || |b.jobs| == SumFree(b.slots, |b.slots|) || |b.jobs| == pending
    ensures
      || |placed| == remaining
      || (forall i :: 0 <= i < |b.slots| ==> Uses(placed, i) == b.slots[i].free)
      || |placed| == pending
      || (exists j: nat :: j < |b.jobs| && !IsPlaced(placed, j))
    ensures forall j: nat, i: nat :: j < |b.jobs| && !IsPlaced(placed, j) ==> !Open(b, placed, j, i)
  {
    var n := |b.slots|;
    NoMorePlacementsThanJobs(b.Rules(), |b.jobs|, placed);
    if |placed| < |b.jobs| {
      var j := SomeLeftOut(b.Rules(), |b.jobs|, placed);
    } else if |placed| == SumFree(b.slots, n) {
      UsesAddUp(n, |b.jobs|, placed);
      forall i | 0 <= i < n ensures Uses(placed, i) <= b.slots[i].free {
        NeverOverfull(b, |b.jobs|, placed, i, |placed|);
        assert placed[..|placed|] == placed;
      }
      forall i | 0 <= i < n ensures Uses(placed, i) == b.slots[i].free { EqualParts(b.slots, placed, n, i); }
    }
    forall j: nat, i: nat | j < |b.jobs| && !IsPlaced(placed, j) ensures !Open(b, placed, j, i) {
      LeftOutOnlyWhenNoneIsOpen(b, |b.jobs|, placed, j, i);
    }
  }
}
