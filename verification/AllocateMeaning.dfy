/**
 The allocation in the numbers of the burst itself: pages in flight, parallel slots, measured speeds,
 served domains, avoid lists and batch pages. Nothing here names how the allocation scores a slot.
 */
module AllocateMeaning {
  import opened Wrappers
  import opened RedisKeys
  import opened Allocate
  import opened AllocateProperties

  // ------------------------------------------------------------------ the burst's own terms

  /** The pages ahead of the job on a slot, itself included, after the placements before it. */
  function Queue(b: Burst, before: seq<Placement>, i: nat): int
    requires i < |b.slots|
  {
    b.slots[i].inflight + b.slots[i].given + Uses(before, i) + 1
  }

  /** The backend's parallel slots. */
  function Parallel(s: Slot): (p: int)
    ensures p >= 1
  {
    if s.maxInflight <= 1 then 1 else s.maxInflight
  }

  /** When the backend would be done with the job: the pages up to it, at the measured speed for the
      job's size, spread over its parallel slots. */
  function DoneIn(b: Burst, before: seq<Placement>, j: nat, i: nat): real
    requires i < |b.slots| && j < |b.jobs|
  {
    Queue(b, before, i) as real * (b.spp(b.slots[i].backend, b.jobs[j].domain) * b.jobs[j].megapixels) /
    Parallel(b.slots[i]) as real
  }

  /** A time, longer by the tolerance. */
  function Stretched(time: real, tolerance: real): real {
    time * (1.0 + tolerance)
  }

  /** The backend serves the job's domain with all the outputs it wants. */
  predicate Serves(s: Slot, job: Pending) {
    job.domain in s.domains && forall output :: output in job.outputs ==> output in s.domains[job.domain]
  }

  /** It serves the job, has a slot left, and is not avoided, unless all that serve the job are. */
  ghost predicate Open(b: Burst, before: seq<Placement>, j: nat, i: nat)
    requires j < |b.jobs|
  {
    && i < |b.slots| && Serves(b.slots[i], b.jobs[j])
    && Uses(before, i) < b.slots[i].free
    && (b.slots[i].backend in b.jobs[j].avoid ==>
      forall o :: 0 <= o < |b.slots| && Serves(b.slots[o], b.jobs[j]) ==> b.slots[o].backend in b.jobs[j].avoid)
  }

  /** It runs pages of the job's batch, from before or from this burst. */
  predicate RunsBatch(b: Burst, before: seq<Placement>, j: nat, i: nat)
    requires i < |b.slots| && j < |b.jobs| && Within(|b.slots|, |b.jobs|, before)
  {
    match b.jobs[j].batch
    case None => false
    case Some(t) =>
      t != "" && PagesGiven(b.jobs, before, i, t) + (if t in b.slots[i].batches then b.slots[i].batches[t] else 0) > 0
  }

  predicate NothingNegative(b: Burst) {
    && b.tolerance >= 0.0
    && (forall i :: 0 <= i < |b.slots| ==> b.slots[i].inflight >= 0 && b.slots[i].given >= 0)
    && (forall j :: 0 <= j < |b.jobs| ==> b.jobs[j].megapixels >= 0.0)
    && (forall i, j :: 0 <= i < |b.slots| && 0 <= j < |b.jobs| ==> b.spp(b.slots[i].backend, b.jobs[j].domain) >= 0.0)
  }

  // ------------------------------------------------------------------ what the choice weighs is just that

  lemma ServesMeans(s: Slot, job: Pending)
    ensures CanServe(s, job) <==> Serves(s, job)
  {
  }

  lemma CanMeansOpen(b: Burst, before: seq<Placement>, j: nat, i: nat)
    requires Within(|b.slots|, |b.jobs|, before) && j < |b.jobs|
    ensures b.Facing(before, j).Can(i) <==> Open(b, before, j, i)
  {
    var now, job := After(b.slots, b.jobs, before), b.jobs[j];
    if i < |b.slots| {
      SlotsAccountForPlacements(b.slots, b.jobs, before, i, "");
      forall o | 0 <= o < |b.slots|
        ensures Serving(now, job, o) <==> Serves(b.slots[o], job)
        ensures now[o].backend == b.slots[o].backend
      {
        SlotsAccountForPlacements(b.slots, b.jobs, before, o, "");
        ServesMeans(b.slots[o], job);
      }
      AllowedMeans(now, b.slots, job);
    }
  }

  lemma AllowedMeans(now: seq<Slot>, slots: seq<Slot>, job: Pending)
    requires |now| == |slots| && forall o: nat :: o < |slots| ==>
      (Serving(now, job, o) <==> Serves(slots[o], job)) && now[o].backend == slots[o].backend
    ensures AllowAvoided(now, job) <==>
      forall o :: 0 <= o < |slots| && Serves(slots[o], job) ==> slots[o].backend in job.avoid
  {
  }

  lemma FinishMeans(b: Burst, before: seq<Placement>, j: nat, i: nat)
    requires Within(|b.slots|, |b.jobs|, before) && j < |b.jobs| && i < |b.slots|
    ensures b.Facing(before, j).finish[i] == DoneIn(b, before, j, i)
  {
    SlotsAccountForPlacements(b.slots, b.jobs, before, i, "");
    var s, job := After(b.slots, b.jobs, before)[i], b.jobs[j];
    ScoreMeans(s, job, b.spp);
    assert s.inflight + s.given + 1 == Queue(b, before, i);
    SameQuotient(s.inflight + s.given + 1, Queue(b, before, i), b.spp(s.backend, job.domain) * job.megapixels,
                 b.spp(b.slots[i].backend, job.domain) * job.megapixels, Parallel(s), Parallel(b.slots[i]));
  }

  lemma ScoreMeans(s: Slot, job: Pending, spp: Speeds)
    ensures ExpectedFinish(s, job, spp) ==
      (s.inflight + s.given + 1) as real * (spp(s.backend, job.domain) * job.megapixels) / Parallel(s) as real
  {
    SameQuotient(s.inflight + s.given + 1, s.inflight + s.given + 1, SecondsPerPage(spp, s.backend, job),
                 spp(s.backend, job.domain) * job.megapixels,
                 if s.maxInflight < 1 then 1 else s.maxInflight, Parallel(s));
  }

  lemma SameQuotient(q: int, r: int, x: real, y: real, p: int, o: int)
    requires q == r && x == y && p == o >= 1
    ensures q as real * x / p as real == r as real * y / o as real
  {
    assert q as real == r as real && p as real == o as real;
  }

  lemma AffineMeans(b: Burst, before: seq<Placement>, j: nat, i: nat)
    requires Within(|b.slots|, |b.jobs|, before) && j < |b.jobs| && i < |b.slots|
    ensures b.Facing(before, j).affine[i] <==> RunsBatch(b, before, j, i)
  {
    var job := b.jobs[j];
    SlotsAccountForPlacements(b.slots, b.jobs, before, i, if job.batch.Some? then job.batch.value else "");
  }

  lemma SaneMeans(b: Burst)
    requires NothingNegative(b)
    ensures SpeedsAreSane(b)
  {
    forall s, j | s in b.slots && j in b.jobs ensures SecondsPerPage(b.spp, s.backend, j) >= 0.0 {
      var x, y := b.spp(s.backend, j.domain), j.megapixels;
      assert x >= 0.0 && y >= 0.0;
      assert x * y >= 0.0;
    }
  }

  // ------------------------------------------------------------------ every placement

  /** What the pick says of one other candidate. */
  lemma PickedAgainst(b: Burst, n: nat, placed: seq<Placement>, k: nat, o: nat)
    requires b.Allocation(n, placed) && k < |placed| && NothingNegative(b)
    requires b.Facing(placed[..k], placed[k].job).Can(o)
    ensures var c, i := b.Facing(placed[..k], placed[k].job), placed[k].slot;
      && c.Can(i) && c.finish[i] <= Limit(c.finish[o], b.tolerance)
      && (c.finish[i] <= c.finish[o] || (c.affine[i] && !c.affine[o]))
  {
    SaneMeans(b);
    PlacedNearEvery(b, n, placed, k);
  }

  lemma PlacedInTheOpen(b: Burst, n: nat, placed: seq<Placement>, k: nat)
    requires b.Allocation(n, placed) && k < |placed|
    ensures Open(b, placed[..k], placed[k].job, placed[k].slot)
  {
    PlacementIsPicked(b, n, placed, k);
    CanMeansOpen(b, placed[..k], placed[k].job, placed[k].slot);
  }

  /** A job goes to an open backend, and to none that any other open one beats by more than the
      tolerance; it goes to a slower one only if that runs its batch and the other does not. */
  lemma PlacedNearTheBest(b: Burst, n: nat, placed: seq<Placement>, k: nat, o: nat)
    requires b.Allocation(n, placed) && k < |placed| && NothingNegative(b)
    requires Open(b, placed[..k], placed[k].job, o)
    ensures var i, j, before := placed[k].slot, placed[k].job, placed[..k];
      && Open(b, before, j, i)
      && DoneIn(b, before, j, i) <= Stretched(DoneIn(b, before, j, o), b.tolerance)
      && (DoneIn(b, before, j, o) < DoneIn(b, before, j, i) ==>
            RunsBatch(b, before, j, i) && !RunsBatch(b, before, j, o))
  {
    PlacedInTheOpen(b, n, placed, k);
    PlacedWithin(b, n, placed, k, o);
    PlacedSlower(b, n, placed, k, o);
  }

  lemma PlacedWithin(b: Burst, n: nat, placed: seq<Placement>, k: nat, o: nat)
    requires b.Allocation(n, placed) && k < |placed| && NothingNegative(b)
    requires Open(b, placed[..k], placed[k].job, o)
    ensures var i, j, before := placed[k].slot, placed[k].job, placed[..k];
      DoneIn(b, before, j, i) <= Stretched(DoneIn(b, before, j, o), b.tolerance)
  {
    var i, j, before := placed[k].slot, placed[k].job, placed[..k];
    var c := b.Facing(before, j);
    CanMeansOpen(b, before, j, o);
    PickedAgainst(b, n, placed, k, o);
    FinishMeans(b, before, j, i);
    FinishMeans(b, before, j, o);
    WithinLimit(c.finish[i], c.finish[o], DoneIn(b, before, j, i), DoneIn(b, before, j, o), b.tolerance);
  }

  lemma WithinLimit(x: real, y: real, u: real, v: real, tolerance: real)
    requires x == u && y == v && x <= Limit(y, tolerance)
    ensures u <= Stretched(v, tolerance)
  {
  }

  lemma PlacedSlower(b: Burst, n: nat, placed: seq<Placement>, k: nat, o: nat)
    requires b.Allocation(n, placed) && k < |placed| && NothingNegative(b)
    requires Open(b, placed[..k], placed[k].job, o)
    ensures var i, j, before := placed[k].slot, placed[k].job, placed[..k];
      DoneIn(b, before, j, o) < DoneIn(b, before, j, i) ==> RunsBatch(b, before, j, i) && !RunsBatch(b, before, j, o)
  {
    var i, j, before := placed[k].slot, placed[k].job, placed[..k];
    CanMeansOpen(b, before, j, o);
    PickedAgainst(b, n, placed, k, o);
    FinishMeans(b, before, j, i);
    FinishMeans(b, before, j, o);
    AffineMeans(b, before, j, i);
    AffineMeans(b, before, j, o);
  }

  /** Within the tolerance of every open backend. */
  ghost predicate NearAllOpen(b: Burst, before: seq<Placement>, j: nat, o: nat)
    requires j < |b.jobs| && o < |b.slots|
  {
    forall q: nat :: Open(b, before, j, q) ==>
      DoneIn(b, before, j, o) <= Stretched(DoneIn(b, before, j, q), b.tolerance)
  }

  lemma NearMeans(b: Burst, before: seq<Placement>, j: nat, o: nat, q: nat)
    requires Within(|b.slots|, |b.jobs|, before) && j < |b.jobs| && o < |b.slots| && NearAllOpen(b, before, j, o)
    requires b.Facing(before, j).Can(q)
    ensures b.Facing(before, j).finish[o] <= Limit(b.Facing(before, j).finish[q], b.tolerance)
  {
    CanMeansOpen(b, before, j, q);
    FinishMeans(b, before, j, o);
    FinishMeans(b, before, j, q);
  }

  lemma AffineWins(c: Choice, start: nat, i: nat, o: nat)
    requires c.Valid() && c.Picked(start, i) && c.Can(o) && c.affine[o]
    requires forall q: nat :: c.Can(q) ==> c.finish[o] <= Limit(c.finish[q], c.tolerance)
    ensures c.affine[i] && c.finish[i] <= c.finish[o]
  {
    assert c.NearAffine(o);
  }

  lemma PickedForItsBatch(b: Burst, n: nat, placed: seq<Placement>, k: nat, o: nat)
    requires b.Allocation(n, placed) && k < |placed| && o < |b.slots| && NearAllOpen(b, placed[..k], placed[k].job, o)
    requires var c := b.Facing(placed[..k], placed[k].job); c.Can(o) && c.affine[o]
    ensures var c, i := b.Facing(placed[..k], placed[k].job), placed[k].slot; c.affine[i] && c.finish[i] <= c.finish[o]
  {
    var c := b.Facing(placed[..k], placed[k].job);
    PlacementIsPicked(b, n, placed, k);
    forall q: nat | c.Can(q) ensures c.finish[o] <= Limit(c.finish[q], c.tolerance) {
      NearMeans(b, placed[..k], placed[k].job, o, q);
    }
    AffineWins(c, StartAfter(placed[..k], |b.slots|), placed[k].slot, o);
  }

  /** A backend that runs the job's batch and is within the tolerance of every open one wins: the job
      goes to a backend that runs its batch, at least as fast. */
  lemma BatchBackendWins(b: Burst, n: nat, placed: seq<Placement>, k: nat, o: nat)
    requires b.Allocation(n, placed) && k < |placed| && Open(b, placed[..k], placed[k].job, o)
    requires RunsBatch(b, placed[..k], placed[k].job, o) && NearAllOpen(b, placed[..k], placed[k].job, o)
    ensures var i, j, before := placed[k].slot, placed[k].job, placed[..k];
      RunsBatch(b, before, j, i) && DoneIn(b, before, j, i) <= DoneIn(b, before, j, o)
  {
    var i, j, before := placed[k].slot, placed[k].job, placed[..k];
    CanMeansOpen(b, before, j, o);
    AffineMeans(b, before, j, o);
    PickedForItsBatch(b, n, placed, k, o);
    AffineMeans(b, before, j, i);
    FinishMeans(b, before, j, i);
    FinishMeans(b, before, j, o);
  }

  // ------------------------------------------------------------------ exact ties

  /** Going round from the slot after the last one placed on, `i` comes no later than `o`. */
  predicate NoLater(placed: seq<Placement>, i: nat, o: nat) {
    if placed == [] then i <= o
    else
      var last := placed[|placed| - 1].slot;
      if (i > last) == (o > last) then i <= o else i > last
  }

  lemma TurnIs(start: nat, i: nat, n: nat)
    requires start < n && i < n
    ensures Turn(start, i, n) == if start <= i then i - start else i - start + n
  {
    if start <= i {
      DivModIs(i - start, 0, i - start, n);
    } else {
      DivModIs(i - start, -1, i - start + n, n);
    }
  }

  lemma StartIs(placed: seq<Placement>, n: nat)
    requires n > 0 && (placed != [] ==> placed[|placed| - 1].slot < n)
    ensures StartAfter(placed, n) ==
      if placed == [] || placed[|placed| - 1].slot == n - 1 then 0 else placed[|placed| - 1].slot + 1
  {
    if placed != [] {
      var next := placed[|placed| - 1].slot + 1;
      if next == n {
        DivModIs(next, 1, 0, n);
      } else {
        DivModIs(next, 0, next, n);
      }
    }
  }

  lemma TurnsGoRound(placed: seq<Placement>, n: nat, i: nat, o: nat)
    requires i < n && o < n && (placed != [] ==> placed[|placed| - 1].slot < n)
    requires Turn(StartAfter(placed, n), i, n) <= Turn(StartAfter(placed, n), o, n)
    ensures NoLater(placed, i, o)
  {
    StartIs(placed, n);
    var start := StartAfter(placed, n);
    TurnIs(start, i, n);
    TurnIs(start, o, n);
  }

  lemma TiedIsInPool(c: Choice, i: nat, o: nat)
    requires c.Valid() && c.InPool(i) && c.Can(o) && c.finish[o] == c.finish[i] && c.affine[o] == c.affine[i]
    ensures c.InPool(o)
  {
    if a: nat :| c.NearAffine(a) {
      assert c.NearAffine(o);
    } else {
      assert c.Best(o);
    }
  }

  /** Of the open backends that would be done at the same time and agree on the batch, the next one
      after the last placement gets the job, so that ties rotate. */
  lemma TiesGoRound(b: Burst, n: nat, placed: seq<Placement>, k: nat, o: nat)
    requires b.Allocation(n, placed) && k < |placed| && Open(b, placed[..k], placed[k].job, o)
    requires var i, j, before := placed[k].slot, placed[k].job, placed[..k];
      && DoneIn(b, before, j, o) == DoneIn(b, before, j, i)
      && RunsBatch(b, before, j, o) == RunsBatch(b, before, j, i)
    ensures NoLater(placed[..k], placed[k].slot, o)
  {
    var i, j, before := placed[k].slot, placed[k].job, placed[..k];
    PlacementIsPicked(b, n, placed, k);
    CanMeansOpen(b, before, j, o);
    AffineMeans(b, before, j, i);
    AffineMeans(b, before, j, o);
    FinishMeans(b, before, j, i);
    FinishMeans(b, before, j, o);
    TiedIsInPool(b.Facing(before, j), i, o);
    TurnsGoRound(before, |b.slots|, i, o);
  }

  /** A job is left out only if no backend is open to it, when its turn comes and after the burst. */
  lemma LeftOutOnlyWhenNoneIsOpen(b: Burst, n: nat, placed: seq<Placement>, j: nat, i: nat)
    requires b.Allocation(n, placed) && j < n && !IsPlaced(placed, j)
    ensures !Open(b, placed, j, i)
  {
    LeftOutOnlyWhenFull(b, n, placed, j);
    CanMeansOpen(b, placed, j, i);
  }
}
