/** What an allocation promises, over every burst of jobs: order, avoid lists, distance from the
    best backend, no job left out while a backend could take it, slot accounting, and equal shares
    between equal backends. */
module AllocateProperties {
  import opened Wrappers
  import opened Allocate

  // ------------------------------------------------------------------ accounting

  /** How many jobs a slot was given. */
  function Uses(placed: seq<Placement>, i: nat): nat
    decreases |placed|
  {
    if placed == [] then 0
    else Uses(placed[..|placed| - 1], i) + if placed[|placed| - 1].slot == i then 1 else 0
  }

  /** How many pages of a batch a slot was given. */
  function PagesGiven(jobs: seq<Pending>, placed: seq<Placement>, i: nat, batch: string): nat
    requires forall k :: 0 <= k < |placed| ==> placed[k].job < |jobs|
    decreases |placed|
  {
    if placed == [] then 0
    else
      var last := placed[|placed| - 1];
      PagesGiven(jobs, placed[..|placed| - 1], i, batch) +
      if last.slot == i && jobs[last.job].batch == Some(batch) && batch != "" then 1 else 0
  }

  predicate SameBackend(s: Slot, t: Slot) {
    s.backend == t.backend && s.maxInflight == t.maxInflight && s.domains == t.domains && s.inflight == t.inflight
  }

  /** Each slot's free capacity went down, and its load and batches up, by exactly what it was given. */
  lemma {:induction false} SlotsAccountForPlacements(slots: seq<Slot>, jobs: seq<Pending>, placed: seq<Placement>,
                                                     i: nat, batch: string)
    requires Within(|slots|, |jobs|, placed) && i < |slots|
    ensures var s := After(slots, jobs, placed)[i];
      && SameBackend(s, slots[i])
      && s.free == slots[i].free - Uses(placed, i)
      && s.given == slots[i].given + Uses(placed, i)
      && Pages(s, batch) == Pages(slots[i], batch) + PagesGiven(jobs, placed, i, batch)
    decreases |placed|
  {
    if placed != [] {
      SlotsAccountForPlacements(slots, jobs, placed[..|placed| - 1], i, batch);
    }
  }

  // ------------------------------------------------------------------ every placement

  /** Each placement was right, given the ones before it. */
  lemma {:induction false} RightWhenPlaced(rule: Rule, n: nat, placed: seq<Placement>, k: nat)
    requires Follows(rule, n, placed) && k < |placed|
    ensures rule(placed[..k], placed[k].job, Some(placed[k].slot))
  {
    var before := Earlier(placed, n);
    if k < |before| {
      RightWhenPlaced(rule, n - 1, before, k);
      assert before[..k] == placed[..k];
    } else {
      assert before == placed[..k];
    }
  }

  ghost predicate IsPlaced(placed: seq<Placement>, j: nat) {
    exists k :: 0 <= k < |placed| && placed[k].job == j
  }

  /** A job not placed was rightly left out, after some of the placements. */
  lemma {:induction false} RightWhenLeftOut(rule: Rule, n: nat, placed: seq<Placement>, j: nat) returns (m: nat)
    requires Follows(rule, n, placed) && j < n && !IsPlaced(placed, j)
    ensures m <= |placed| && rule(placed[..m], j, None)
    decreases n
  {
    var before := Earlier(placed, n);
    if j == n - 1 {
      m := |placed|;
      assert OutcomeOf(placed, n).None? && placed[..m] == placed;
    } else {
      assert forall k :: 0 <= k < |before| ==> before[k] == placed[k];
      m := RightWhenLeftOut(rule, n - 1, before, j);
      assert before[..m] == placed[..m];
    }
  }

  lemma {:induction false} PlacedBelow(rule: Rule, n: nat, placed: seq<Placement>, k: nat)
    requires Follows(rule, n, placed) && k < |placed|
    ensures placed[k].job < n
  {
    if k < |Earlier(placed, n)| {
      PlacedBelow(rule, n - 1, Earlier(placed, n), k);
    }
  }

  /** Each job is placed at most once, in queue order. */
  lemma {:induction false} PlacedInQueueOrder(rule: Rule, n: nat, placed: seq<Placement>, k: nat, l: nat)
    requires Follows(rule, n, placed) && k < l < |placed|
    ensures placed[k].job < placed[l].job
    decreases n
  {
    var before := Earlier(placed, n);
    if l < |before| {
      PlacedInQueueOrder(rule, n - 1, before, k, l);
    } else {
      PlacedBelow(rule, n - 1, before, k);
    }
  }

  lemma {:induction false} NoMorePlacementsThanJobs(rule: Rule, n: nat, placed: seq<Placement>)
    requires Follows(rule, n, placed)
    ensures |placed| <= n
  {
    if n > 0 {
      NoMorePlacementsThanJobs(rule, n - 1, Earlier(placed, n));
    }
  }

  lemma PlacementIsPicked(b: Burst, n: nat, placed: seq<Placement>, k: nat)
    requires b.Allocation(n, placed) && k < |placed|
    ensures b.Facing(placed[..k], placed[k].job).Picked(StartAfter(placed[..k], |b.slots|), placed[k].slot)
  {
    RightWhenPlaced(b.Rules(), n, placed, k);
  }

  /** A job goes to a backend that serves it and has a free slot, and to one it avoids only when
      every backend serving it is avoided. */
  lemma PlacedWhereServed(b: Burst, n: nat, placed: seq<Placement>, k: nat)
    requires b.Allocation(n, placed) && k < |placed|
    ensures var i, job := placed[k].slot, b.jobs[placed[k].job];
      && CanServe(b.slots[i], job)
      && Uses(placed[..k], i) < b.slots[i].free
      && (Avoided(b.slots[i], job) ==> forall o: nat :: Serving(b.slots, job, o) ==> Avoided(b.slots[o], job))
  {
    PlacementIsPicked(b, n, placed, k);
    var i, job := placed[k].slot, b.jobs[placed[k].job];
    var now := After(b.slots, b.jobs, placed[..k]);
    assert Candidate(now, job, i);
    SlotsAccountForPlacements(b.slots, b.jobs, placed[..k], i, "");
    forall o: nat | Serving(b.slots, job, o) && Avoided(now[i], job)
      ensures Avoided(b.slots[o], job)
    {
      SlotsAccountForPlacements(b.slots, b.jobs, placed[..k], o, "");
      assert Serving(now, job, o);
    }
  }

  /** A slot is never given more than its free capacity. */
  lemma {:induction false} NeverOverfull(b: Burst, n: nat, placed: seq<Placement>, i: nat, k: nat)
    requires b.Allocation(n, placed) && i < |b.slots| && k <= |placed|
    ensures Uses(placed[..k], i) <= if b.slots[i].free > 0 then b.slots[i].free else 0
    decreases k
  {
    if k > 0 {
      NeverOverfull(b, n, placed, i, k - 1);
      PlacedWhereServed(b, n, placed, k - 1);
      assert placed[..k][..k - 1] == placed[..k - 1];
    }
  }

  lemma LimitAbove(best: real, other: real, tolerance: real)
    requires 0.0 <= best <= other && 0.0 <= tolerance
    ensures best <= Limit(best, tolerance) <= Limit(other, tolerance)
  {
  }

  /** The chosen backend finishes within the tolerance of every other candidate, and it is slower
      than one only if it runs the job's batch and the other does not. */
  ghost predicate NearEvery(c: Choice, i: nat)
    requires c.Valid() && c.Can(i)
  {
    forall other: nat :: c.Can(other) ==>
      && c.finish[i] <= Limit(c.finish[other], c.tolerance)
      && (c.finish[other] < c.finish[i] ==> c.affine[i] && !c.affine[other])
  }

  lemma PickedNearEvery(c: Choice, start: nat, i: nat)
    requires c.Valid() && c.Picked(start, i) && c.tolerance >= 0.0
    requires forall k: nat :: c.Can(k) ==> c.finish[k] >= 0.0
    ensures NearEvery(c, i)
  {
    var best := BestExists(c, i);
    var t := c.tolerance;
    if c.NearAffine(i) {
      forall o: nat | c.Can(o)
        ensures c.finish[i] <= Limit(c.finish[o], t) && (c.finish[o] < c.finish[i] ==> !c.affine[o])
      {
        LimitAbove(c.finish[best], c.finish[o], t);
        assert c.affine[o] && c.finish[o] < c.finish[i] ==> c.NearAffine(o);
      }
    } else {
      forall o: nat | c.Can(o)
        ensures c.finish[i] <= c.finish[o] <= Limit(c.finish[o], t)
      {
        LimitAbove(c.finish[o], c.finish[o], t);
      }
    }
  }

  predicate SpeedsAreSane(b: Burst) {
    && b.tolerance >= 0.0
    && (forall s :: s in b.slots ==> s.inflight >= 0 && s.given >= 0)
    && (forall s, j :: s in b.slots && j in b.jobs ==> SecondsPerPage(b.spp, s.backend, j) >= 0.0)
  }

  lemma PlacedNearEvery(b: Burst, n: nat, placed: seq<Placement>, k: nat)
    requires b.Allocation(n, placed) && k < |placed| && SpeedsAreSane(b)
    ensures var c := b.Facing(placed[..k], placed[k].job); c.Can(placed[k].slot) && NearEvery(c, placed[k].slot)
  {
    PlacementIsPicked(b, n, placed, k);
    var c := b.Facing(placed[..k], placed[k].job);
    forall i: nat | c.Can(i)
      ensures c.finish[i] >= 0.0
    {
      FinishIsNotNegative(b, placed[..k], placed[k].job, i);
    }
    PickedNearEvery(c, StartAfter(placed[..k], |b.slots|), placed[k].slot);
  }

  lemma FinishIsNotNegative(b: Burst, placed: seq<Placement>, j: nat, i: nat)
    requires Within(|b.slots|, |b.jobs|, placed) && j < |b.jobs| && i < |b.slots| && SpeedsAreSane(b)
    ensures b.Facing(placed, j).finish[i] >= 0.0
  {
    SlotsAccountForPlacements(b.slots, b.jobs, placed, i, "");
    var s, job := After(b.slots, b.jobs, placed)[i], b.jobs[j];
    assert b.slots[i] in b.slots && job in b.jobs;
    assert SecondsPerPage(b.spp, b.slots[i].backend, job) >= 0.0;
    FinishGrows(0, s.inflight + s.given + 1, SecondsPerPage(b.spp, s.backend, job), s.maxInflight);
  }

  lemma FinishGrows(queue: int, longer: int, perPage: real, parallel: int)
    requires queue <= longer && perPage >= 0.0
    ensures FinishOf(queue, perPage, parallel) <= FinishOf(longer, perPage, parallel)
    ensures FinishOf(0, perPage, parallel) == 0.0
  {
  }

  lemma BestExists(c: Choice, i: nat) returns (best: nat)
    requires c.Valid() && c.Can(i)
    ensures c.Best(best)
  {
    best := i;
    for k := 0 to |c.can|
      invariant c.Can(best) && forall j: nat :: j < k && c.Can(j) ==> c.finish[best] <= c.finish[j]
    {
      if c.Can(k) && c.finish[k] < c.finish[best] {
        best := k;
      }
    }
  }

  // ------------------------------------------------------------------ jobs left out

  /** Free capacity only goes down, so a slot that is a candidate later was one before. */
  lemma CandidateBefore(slots: seq<Slot>, at: nat, other: Pending, job: Pending, i: nat)
    requires at < |slots| && Candidate(slots[at := Given(slots[at], other)], job, i)
    ensures Candidate(slots, job, i)
  {
    var after := slots[at := Given(slots[at], other)];
    forall o: nat | o < |slots|
      ensures Serving(after, job, o) == Serving(slots, job, o) && Avoided(after[o], job) == Avoided(slots[o], job)
      ensures after[o].free <= slots[o].free
    {
      assert o == at || after[o] == slots[o];
    }
  }

  lemma {:induction false} CandidateAllAlong(slots: seq<Slot>, jobs: seq<Pending>, placed: seq<Placement>, m: nat,
                                             job: Pending, i: nat)
    requires Within(|slots|, |jobs|, placed) && m <= |placed|
    requires Candidate(After(slots, jobs, placed), job, i)
    ensures Candidate(After(slots, jobs, placed[..m]), job, i)
    decreases |placed|
  {
    if m == |placed| {
      assert placed[..m] == placed;
    } else {
      var before, last := placed[..|placed| - 1], placed[|placed| - 1];
      CandidateBefore(After(slots, jobs, before), last.slot, jobs[last.job], job, i);
      CandidateAllAlong(slots, jobs, before, m, job, i);
      assert before[..m] == placed[..m];
    }
  }

  lemma AnyCandidateAllAlong(slots: seq<Slot>, jobs: seq<Pending>, placed: seq<Placement>, m: nat, job: Pending)
    requires Within(|slots|, |jobs|, placed) && m <= |placed|
    ensures AnyCandidate(After(slots, jobs, placed), job) ==> AnyCandidate(After(slots, jobs, placed[..m]), job)
  {
    if i: nat :| Candidate(After(slots, jobs, placed), job, i) {
      CandidateAllAlong(slots, jobs, placed, m, job, i);
    }
  }

  /** A job left out has no backend that could take it, even once the whole burst is placed. */
  lemma LeftOutOnlyWhenFull(b: Burst, n: nat, placed: seq<Placement>, j: nat)
    requires b.Allocation(n, placed) && j < n && !IsPlaced(placed, j)
    ensures !AnyCandidate(After(b.slots, b.jobs, placed), b.jobs[j])
  {
    var m := RightWhenLeftOut(b.Rules(), n, placed, j);
    AnyCandidateAllAlong(b.slots, b.jobs, placed, m, b.jobs[j]);
    assert b.Right(placed[..m], j, None);
  }

  // ------------------------------------------------------------------ the rules decide everything

  lemma PickedIsUnique(c: Choice, start: nat, i: nat, k: nat)
    requires c.Valid() && c.Picked(start, i) && c.Picked(start, k)
    ensures i == k
  {
    assert Turn(start, i, |c.can|) == Turn(start, k, |c.can|);
    SameTurn(i, k, start, |c.can|);
  }

  lemma SameTurn(i: int, k: int, start: int, n: int)
    requires 0 <= i < n && 0 <= k < n && (i - start) % n == (k - start) % n
    ensures i == k
  {
    var q, r := (i - start) / n, (k - start) / n;
    var m := (i - start) % n;
    assert i - start == q * n + m && k - start == r * n + m;
    SmallMultiple(q - r, n);
    assert (q - r) * n == q * n - r * n;
  }

  lemma SmallMultiple(d: int, n: int)
    requires n > 0
    ensures -n < d * n < n ==> d == 0
  {
  }

  ghost predicate Decides(rule: Rule) {
    forall before, j, o, o' :: rule(before, j, o) && rule(before, j, o') ==> o == o'
  }

  lemma {:induction false} DecidedIsUnique(rule: Rule, n: nat, p: seq<Placement>, q: seq<Placement>)
    requires Decides(rule) && Follows(rule, n, p) && Follows(rule, n, q)
    ensures p == q
    decreases n
  {
    if n > 0 {
      var p', q' := Earlier(p, n), Earlier(q, n);
      DecidedIsUnique(rule, n - 1, p', q');
      assert OutcomeOf(p, n) == OutcomeOf(q, n);
      if OutcomeOf(p, n).Some? {
        assert p == p' + [p[|p| - 1]] && q == q' + [q[|q| - 1]];
      }
    }
  }

  lemma PlacedIfPossible(b: Burst, before: seq<Placement>, j: nat, o: Option<nat>)
    requires b.Right(before, j, o)
    ensures o.Some? <==> AnyCandidate(After(b.slots, b.jobs, before), b.jobs[j])
  {
    if o.Some? {
      assert Candidate(After(b.slots, b.jobs, before), b.jobs[j], o.value);
    }
  }

  lemma RightIsUnique(b: Burst, before: seq<Placement>, j: nat, o: Option<nat>, o': Option<nat>)
    requires b.Right(before, j, o) && b.Right(before, j, o')
    ensures o == o'
  {
    PlacedIfPossible(b, before, j, o);
    PlacedIfPossible(b, before, j, o');
    if o.Some? && o'.Some? {
      PickedIsUnique(b.Facing(before, j), StartAfter(before, |b.slots|), o.value, o'.value);
    }
  }

  /** Two allocations of the same burst are the same: slots, queue order, speeds and tolerance decide
      every placement. */
  lemma AllocationIsUnique(b: Burst, n: nat, p: seq<Placement>, q: seq<Placement>)
    requires b.Allocation(n, p) && b.Allocation(n, q)
    ensures p == q
  {
    forall before, j, o, o' | b.Right(before, j, o) && b.Right(before, j, o')
      ensures o == o'
    {
      RightIsUnique(b, before, j, o, o');
    }
    DecidedIsUnique(b.Rules(), n, p, q);
  }

  // ------------------------------------------------------------------ equal backends

  /** Backends with the same load, capacity, domains and speed, and jobs with no batch and no avoid list. */
  predicate Identical(b: Burst) {
    && (forall i, k :: 0 <= i < |b.slots| && 0 <= k < |b.slots| ==> Alike(b.slots[i], b.slots[k]))
    && (forall j :: 0 <= j < |b.jobs| ==> !InBatch(b.jobs[j]) && b.jobs[j].avoid == {})
    && (forall i, j :: 0 <= i < |b.slots| && 0 <= j < |b.jobs| ==> PerPage(b, i, j) == PerPage(b, 0, j) >= 0.0)
  }

  predicate Alike(s: Slot, t: Slot) {
    s.maxInflight == t.maxInflight && s.free == t.free && s.domains == t.domains && s.inflight == t.inflight &&
      s.given == t.given
  }

  function PerPage(b: Burst, i: nat, j: nat): real
    requires i < |b.slots| && j < |b.jobs|
  {
    SecondsPerPage(b.spp, b.slots[i].backend, b.jobs[j])
  }

  predicate InTurns(placed: seq<Placement>, n: nat)
    requires n > 0
  {
    forall k :: 0 <= k < |placed| ==> placed[k].slot == k % n
  }

  /** Slot i's share of k jobs dealt in turns to n slots. */
  function Share(k: nat, i: nat, n: nat): nat
    requires n > 0
  {
    k / n + if i < k % n then 1 else 0
  }

  lemma NextTurn(k: nat, n: nat)
    requires n > 0
    ensures (k % n + 1) % n == (k + 1) % n
    ensures (k + 1) / n == k / n + (if k % n == n - 1 then 1 else 0)
    ensures (k + 1) % n == if k % n == n - 1 then 0 else k % n + 1
  {
    var q, r := k / n, k % n;
    assert k + 1 == q * n + (r + 1);
    if r == n - 1 {
      assert k + 1 == (q + 1) * n + 0;
      DivModIs(k + 1, q + 1, 0, n);
    } else {
      DivModIs(k + 1, q, r + 1, n);
    }
  }

  lemma DivModIs(x: int, q: int, r: int, n: int)
    requires n > 0 && x == q * n + r && 0 <= r < n
    ensures x / n == q && x % n == r
  {
    var d := x / n - q;
    assert d * n == r - x % n;
    SmallMultiple(d, n);
  }

  lemma {:induction false} TurnsShare(placed: seq<Placement>, i: nat, n: nat)
    requires i < n && InTurns(placed, n)
    ensures Uses(placed, i) == Share(|placed|, i, n)
    decreases |placed|
  {
    if placed != [] {
      var k := |placed| - 1;
      TurnsShare(placed[..k], i, n);
      NextTurn(k, n);
    }
  }

  /** After k jobs in turns, slot k mod n is the least loaded and next in rotation, so it is next. */
  lemma NextInTurn(b: Burst, placed: seq<Placement>, j: nat, slot: nat)
    requires Identical(b) && Within(|b.slots|, |b.jobs|, placed) && j < |b.jobs| && |b.slots| > 0
    requires InTurns(placed, |b.slots|)
    requires b.Facing(placed, j).Picked(StartAfter(placed, |b.slots|), slot)
    ensures slot == |placed| % |b.slots|
  {
    var n, k := |b.slots|, |placed|;
    var turn := k % n;
    var c := b.Facing(placed, j);
    assert StartAfter(placed, n) == turn by { if k > 0 { NextTurn(k - 1, n); } }
    forall i: nat | i < n
      ensures c.finish[turn] <= c.finish[i] && (c.Can(i) ==> c.Can(turn)) && !c.affine[i]
    {
      LeastLoadedInTurn(b, placed, j, i);
    }
    assert c.Best(turn);
    assert c.InPool(turn);
    assert Turn(turn, slot, n) <= Turn(turn, turn, n);
    SameTurn(slot, turn, turn, n);
  }

  lemma LeastLoadedInTurn(b: Burst, placed: seq<Placement>, j: nat, i: nat)
    requires Identical(b) && Within(|b.slots|, |b.jobs|, placed) && j < |b.jobs| && i < |b.slots|
    requires InTurns(placed, |b.slots|)
    ensures var c, turn := b.Facing(placed, j), |placed| % |b.slots|;
      c.finish[turn] <= c.finish[i] && (c.Can(i) ==> c.Can(turn)) && !c.affine[i]
  {
    var n := |b.slots|;
    var turn := |placed| % n;
    var now, job := After(b.slots, b.jobs, placed), b.jobs[j];
    SlotsAccountForPlacements(b.slots, b.jobs, placed, i, "");
    SlotsAccountForPlacements(b.slots, b.jobs, placed, turn, "");
    TurnsShare(placed, i, n);
    TurnsShare(placed, turn, n);
    assert Alike(b.slots[turn], b.slots[i]);
    assert PerPage(b, turn, j) == PerPage(b, 0, j) == PerPage(b, i, j);
    FinishGrows(now[turn].inflight + now[turn].given + 1, now[i].inflight + now[i].given + 1, PerPage(b, i, j),
      now[i].maxInflight);
    if Candidate(now, job, i) {
      assert Serving(now, job, turn) && !Avoided(now[turn], job);
    }
  }

  lemma PlacedInTurn(b: Burst, n: nat, placed: seq<Placement>, k: nat)
    requires Identical(b) && |b.slots| > 0 && b.Allocation(n, placed) && k < |placed| && InTurns(placed[..k], |b.slots|)
    ensures placed[k].slot == k % |b.slots|
  {
    PlacementIsPicked(b, n, placed, k);
    NextInTurn(b, placed[..k], placed[k].job, placed[k].slot);
  }

  lemma {:induction false} TurnsSoFar(b: Burst, n: nat, placed: seq<Placement>, k: nat)
    requires Identical(b) && |b.slots| > 0 && b.Allocation(n, placed) && k <= |placed|
    ensures InTurns(placed[..k], |b.slots|)
    decreases k
  {
    if k > 0 {
      TurnsSoFar(b, n, placed, k - 1);
      PlacedInTurn(b, n, placed, k - 1);
      assert forall i :: 0 <= i < k - 1 ==> placed[..k][i] == placed[..k - 1][i];
    }
  }

  /** Equal backends are dealt a burst strictly in turns. */
  lemma EqualBackendsTakeTurns(b: Burst, n: nat, placed: seq<Placement>)
    requires Identical(b) && |b.slots| > 0 && b.Allocation(n, placed)
    ensures InTurns(placed, |b.slots|)
  {
    TurnsSoFar(b, n, placed, |placed|);
    assert placed[..|placed|] == placed;
  }

  /** So the numbers of jobs they get differ by at most one. */
  lemma EqualBackendsShareEvenly(b: Burst, n: nat, placed: seq<Placement>, i: nat, k: nat)
    requires Identical(b) && b.Allocation(n, placed) && i < |b.slots| && k < |b.slots|
    ensures -1 <= Uses(placed, i) - Uses(placed, k) <= 1
  {
    EqualBackendsTakeTurns(b, n, placed);
    TurnsShare(placed, i, |b.slots|);
    TurnsShare(placed, k, |b.slots|);
  }
}
