/** Which backend each pending job goes to (app/workers/submit/steps.py): jobs in queue order, each
    to the backend that would finish it first, with avoid lists, batch affinity and rotation of
    exact ties. */
module Allocate {
  import opened Wrappers
  import opened RedisKeys

  datatype Slot = Slot(
    backend: BackendId,
    maxInflight: int,
    free: int,
    domains: map<string, set<string>>,
    inflight: int,
    batches: map<string, int>,
    given: int)

  datatype Pending = Pending(
    domain: string,
    outputs: set<string>,
    avoid: set<BackendId>,
    megapixels: real,
    batch: Option<string>)

  /** One line of the result: positions of the job and of its slot. */
  datatype Placement = Placement(job: nat, slot: nat)

  /** Measured seconds per megapixel of a backend for a domain. */
  type Speeds = (BackendId, string) -> real

  // ------------------------------------------------------------------ one job

  predicate CanServe(s: Slot, job: Pending) {
    job.domain in s.domains && job.outputs <= s.domains[job.domain]
  }

  predicate InBatch(job: Pending) {
    job.batch.Some? && job.batch.value != ""
  }

  function Pages(s: Slot, batch: string): int {
    if batch in s.batches then s.batches[batch] else 0
  }

  function FinishOf(queue: int, secondsPerPage: real, parallel: int): real {
    queue as real * secondsPerPage / (if parallel < 1 then 1 else parallel) as real
  }

  /** The backend's measured speed for the job's size. */
  function SecondsPerPage(spp: Speeds, backend: BackendId, job: Pending): real {
    spp(backend, job.domain) * job.megapixels
  }

  function ExpectedFinish(s: Slot, job: Pending, spp: Speeds): real {
    FinishOf(s.inflight + s.given + 1, SecondsPerPage(spp, s.backend, job), s.maxInflight)
  }

  predicate Avoided(s: Slot, job: Pending) {
    s.backend in job.avoid
  }

  predicate Serving(slots: seq<Slot>, job: Pending, i: nat) {
    i < |slots| && CanServe(slots[i], job)
  }

  predicate AllowAvoided(slots: seq<Slot>, job: Pending) {
    forall i: nat :: i < |slots| && Serving(slots, job, i) ==> Avoided(slots[i], job)
  }

  predicate Candidate(slots: seq<Slot>, job: Pending, i: nat) {
    Serving(slots, job, i) && slots[i].free > 0 && (Avoided(slots[i], job) ==> AllowAvoided(slots, job))
  }

  ghost predicate AnyCandidate(slots: seq<Slot>, job: Pending) {
    exists i: nat :: Candidate(slots, job, i)
  }

  predicate Affine(s: Slot, job: Pending) {
    InBatch(job) && Pages(s, job.batch.value) > 0
  }

  /** What one choice weighs, slot by slot: which are candidates, when each would finish the job,
      and which already run pages of its batch. */
  datatype Choice = Choice(can: seq<bool>, finish: seq<real>, affine: seq<bool>, tolerance: real) {
    predicate Valid() { |can| == |finish| == |affine| }

    predicate Can(i: nat) { i < |can| && can[i] }

    ghost predicate Best(i: nat)
      requires Valid()
    {
      Can(i) && forall k: nat :: Can(k) ==> finish[i] <= finish[k]
    }

    /** A candidate of the job's batch within the tolerance of the best. */
    ghost predicate NearAffine(i: nat)
      requires Valid()
    {
      Can(i) && affine[i] && forall b: nat :: Best(b) ==> finish[i] <= Limit(finish[b], tolerance)
    }

    ghost predicate InPool(i: nat)
      requires Valid()
    {
      if exists a: nat :: NearAffine(a)
      then NearAffine(i) && forall a: nat :: NearAffine(a) ==> finish[i] <= finish[a]
      else Best(i)
    }

    /** The backend the job goes to: of its pool, the first in rotation order. */
    ghost predicate Picked(start: nat, i: nat)
      requires Valid()
    {
      InPool(i) && forall k: nat :: InPool(k) ==> Turn(start, i, |can|) <= Turn(start, k, |can|)
    }
  }

  function Limit(best: real, tolerance: real): real {
    best * (1.0 + tolerance)
  }

  function ChoiceOf(slots: seq<Slot>, job: Pending, spp: Speeds, tolerance: real): (c: Choice)
    ensures c.Valid() && |c.can| == |slots|
    ensures forall i: nat :: c.Can(i) <==> Candidate(slots, job, i)
  {
    Choice(
      seq(|slots|, i requires 0 <= i < |slots| => Candidate(slots, job, i)),
      seq(|slots|, i requires 0 <= i < |slots| => ExpectedFinish(slots[i], job, spp)),
      seq(|slots|, i requires 0 <= i < |slots| => Affine(slots[i], job)),
      tolerance)
  }

  /** How far a slot is from the rotation's start. */
  function Turn(start: nat, i: nat, n: nat): int {
    if n == 0 then 0 else (i - start) % n
  }

  /** The slot after it is given the job. */
  function Given(s: Slot, job: Pending): Slot {
    s.(free := s.free - 1,
       given := s.given + 1,
       batches := if InBatch(job) then s.batches[job.batch.value := Pages(s, job.batch.value) + 1] else s.batches)
  }

  // ------------------------------------------------------------------ the whole burst

  predicate Within(slots: nat, jobs: nat, placed: seq<Placement>) {
    forall k :: 0 <= k < |placed| ==> placed[k].job < jobs && placed[k].slot < slots
  }

  /** The slots after the placements. */
  function After(slots: seq<Slot>, jobs: seq<Pending>, placed: seq<Placement>): (r: seq<Slot>)
    requires Within(|slots|, |jobs|, placed)
    ensures |r| == |slots|
    decreases |placed|
  {
    if placed == [] then slots
    else
      var last := placed[|placed| - 1];
      var before := After(slots, jobs, placed[..|placed| - 1]);
      before[last.slot := Given(before[last.slot], jobs[last.job])]
  }

  /** Where rotation starts: after the last backend chosen. */
  function StartAfter(placed: seq<Placement>, n: nat): nat {
    if placed == [] || n == 0 then 0 else (placed[|placed| - 1].slot + 1) % n
  }

  /** Whether, after some placements, the outcome of the j-th job (a slot, or left out) is right. */
  type Rule = (seq<Placement>, nat, Option<nat>) -> bool

  /** The placements of the jobs before the n-th, and what became of the n-th. */
  function Earlier(placed: seq<Placement>, n: nat): seq<Placement> {
    if OutcomeOf(placed, n).Some? then placed[..|placed| - 1] else placed
  }

  function OutcomeOf(placed: seq<Placement>, n: nat): (r: Option<nat>)
    ensures r.Some? ==> placed != []
  {
    if placed != [] && placed[|placed| - 1].job == n - 1 then Some(placed[|placed| - 1].slot) else None
  }

  /** The placements of the first n jobs, in queue order, each outcome right when its turn came. */
  ghost predicate Follows(rule: Rule, n: nat, placed: seq<Placement>) {
    if n == 0 then placed == []
    else Follows(rule, n - 1, Earlier(placed, n)) && rule(Earlier(placed, n), n - 1, OutcomeOf(placed, n))
  }

  lemma FollowsOn(rule: Rule, n: nat, placed: seq<Placement>, outcome: Option<nat>)
    requires Follows(rule, n, placed) && rule(placed, n, outcome)
    requires forall k :: 0 <= k < |placed| ==> placed[k].job < n
    ensures Follows(rule, n + 1, if outcome.Some? then placed + [Placement(n, outcome.value)] else placed)
  {
    if outcome.Some? {
      assert (placed + [Placement(n, outcome.value)])[..|placed|] == placed;
    }
  }

  datatype Burst = Burst(slots: seq<Slot>, jobs: seq<Pending>, spp: Speeds, tolerance: real) {
    function Facing(placed: seq<Placement>, j: nat): (c: Choice)
      requires Within(|slots|, |jobs|, placed) && j < |jobs|
      ensures c.Valid() && |c.can| == |slots|
    {
      ChoiceOf(After(slots, jobs, placed), jobs[j], spp, tolerance)
    }

    /** A job with a candidate goes to the backend picked, and a job without one is left out. */
    ghost predicate Right(before: seq<Placement>, j: nat, outcome: Option<nat>) {
      && Within(|slots|, |jobs|, before) && j < |jobs|
      && match outcome
         case Some(i) => Facing(before, j).Picked(StartAfter(before, |slots|), i)
         case None => !AnyCandidate(After(slots, jobs, before), jobs[j])
    }

    ghost function Rules(): Rule {
      (before: seq<Placement>, j: nat, outcome: Option<nat>) => Right(before, j, outcome)
    }

    ghost predicate Allocation(n: nat, placed: seq<Placement>) {
      n <= |jobs| && Within(|slots|, n, placed) && Follows(Rules(), n, placed)
    }
  }

  // ------------------------------------------------------------------ the loop

  /** The positions that satisfy a test, in order. */
  function Where(n: nat, test: nat -> bool): (r: seq<nat>)
    ensures forall i: nat :: i in r <==> i < n && test(i)
  {
    if n == 0 then [] else Where(n - 1, test) + (if test(n - 1) then [n - 1] else [])
  }

  /** The first of the positions with the least key. */
  function LeastBy(xs: seq<nat>, key: nat -> real): (r: nat)
    requires xs != []
    ensures r in xs && forall x :: x in xs ==> key(r) <= key(x)
  {
    if |xs| == 1 then xs[0]
    else
      var rest := LeastBy(xs[1..], key);
      if key(xs[0]) <= key(rest) then xs[0] else rest
  }

  /** One job's choice, as the loop makes it. */
  method Pick(slots: seq<Slot>, job: Pending, spp: Speeds, tolerance: real, start: nat) returns (slot: Option<nat>)
    ensures slot.Some? <==> AnyCandidate(slots, job)
    ensures slot.Some? ==> ChoiceOf(slots, job, spp, tolerance).Picked(start, slot.value)
  {
    var n := |slots|;
    var serving := Where(n, (i: nat) => Serving(slots, job, i));
    var allowAvoided := forall i :: i in serving ==> i < n && Avoided(slots[i], job);
    var candidates := Where(n, (i: nat) =>
      Serving(slots, job, i) && slots[i].free > 0 && (allowAvoided || !Avoided(slots[i], job)));
    assert allowAvoided <==> AllowAvoided(slots, job);
    assert forall i: nat :: i in candidates <==> Candidate(slots, job, i);
    if candidates == [] {
      return None;
    }
    assert Candidate(slots, job, candidates[0]);
    var chosen := PickFrom(ChoiceOf(slots, job, spp, tolerance), candidates, start);
    return Some(chosen);
  }

  method PickFrom(c: Choice, candidates: seq<nat>, start: nat) returns (chosen: nat)
    requires c.Valid() && candidates != []
    requires forall i: nat :: i in candidates <==> c.Can(i)
    ensures c.Picked(start, chosen)
  {
    var finish := (i: nat) => if i < |c.can| then c.finish[i] else 0.0;
    var best := LeastBy(candidates, finish);
    assert forall k: nat :: c.Can(k) ==> finish(best) <= finish(k);
    var pool := PoolOf(c, best);
    chosen := LeastBy(pool, (i: nat) => Turn(start, i, |c.can|) as real);
  }

  method PoolOf(c: Choice, best: nat) returns (pool: seq<nat>)
    requires c.Valid() && c.Best(best)
    ensures pool != [] && forall i: nat :: i in pool <==> c.InPool(i)
  {
    var n := |c.can|;
    var limit := Limit(c.finish[best], c.tolerance);
    var affine := Where(n, (i: nat) => c.Can(i) && c.finish[i] <= limit && c.affine[i]);
    NearIsNearOne(c, best);
    assert forall i: nat :: i in affine <==> c.NearAffine(i);
    if affine != [] {
      pool := LeastOf(affine, c.finish);
      assert c.NearAffine(affine[0]);
    } else {
      pool := Where(n, (i: nat) => c.Can(i) && c.finish[i] == c.finish[best]);
      assert best in pool;
    }
  }

  /** Every position with the least key. */
  method LeastOf(xs: seq<nat>, key: seq<real>) returns (least: seq<nat>)
    requires xs != [] && forall x :: x in xs ==> x < |key|
    ensures least != []
    ensures forall i: nat :: i in least <==> i in xs && forall x :: x in xs ==> key[i] <= key[x]
  {
    var first := LeastBy(xs, (i: nat) => if i < |key| then key[i] else 0.0);
    var minimum := key[first];
    least := Where(|key|, (i: nat) => i in xs && i < |key| && key[i] == minimum);
    assert first in least;
  }

  lemma NearIsNearOne(c: Choice, best: nat)
    requires c.Valid() && c.Best(best)
    ensures forall i: nat :: c.NearAffine(i) <==>
      c.Can(i) && c.affine[i] && c.finish[i] <= Limit(c.finish[best], c.tolerance)
  {
    assert forall b: nat :: c.Best(b) ==> c.finish[b] == c.finish[best];
  }

  /** The rule accepts whatever the burst's own rules call right. */
  ghost predicate Accepts(rule: Rule, burst: Burst) {
    forall before, j, outcome {:trigger burst.Right(before, j, outcome)} ::
      burst.Right(before, j, outcome) ==> rule(before, j, outcome)
  }

  /** The next job's slot: what it is, the rule accepts. */
  method PickNext(ghost rule: Rule, ghost burst: Burst, now: seq<Slot>, job: Pending, spp: Speeds, tolerance: real,
                  start: nat, ghost j: nat, ghost placed: seq<Placement>)
    returns (slot: Option<nat>)
    requires Accepts(rule, burst) && j < |burst.jobs| && Within(|burst.slots|, j, placed)
    requires now == After(burst.slots, burst.jobs, placed) && start == StartAfter(placed, |now|)
    requires job == burst.jobs[j] && spp == burst.spp && tolerance == burst.tolerance
    ensures rule(placed, j, slot) && (slot.Some? ==> slot.value < |now|)
  {
    slot := Pick(now, job, spp, tolerance, start);
    assert burst.Right(placed, j, slot);
  }

  /** The slots and the rotation after one more placement. */
  lemma OneMorePlaced(slots: seq<Slot>, jobs: seq<Pending>, placed: seq<Placement>, p: Placement)
    requires Within(|slots|, p.job, placed) && p.job < |jobs| && p.slot < |slots|
    ensures Within(|slots|, p.job + 1, placed + [p])
    ensures var now := After(slots, jobs, placed);
      After(slots, jobs, placed + [p]) == now[p.slot := Given(now[p.slot], jobs[p.job])]
    ensures StartAfter(placed + [p], |slots|) == (p.slot + 1) % |slots|
  {
    assert (placed + [p])[..|placed|] == placed;
  }

  /** The next job's slot, and what choosing it means for the burst so far. */
  method PlaceNext(ghost rule: Rule, ghost burst: Burst, now: seq<Slot>, job: Pending, spp: Speeds, tolerance: real,
                   start: nat, ghost j: nat, ghost placed: seq<Placement>)
    returns (slot: Option<nat>, start': nat)
    requires Accepts(rule, burst) && j < |burst.jobs| && Within(|burst.slots|, j, placed) && Follows(rule, j, placed)
    requires now == After(burst.slots, burst.jobs, placed) && start == StartAfter(placed, |now|)
    requires job == burst.jobs[j] && spp == burst.spp && tolerance == burst.tolerance
    ensures slot.None? ==> Follows(rule, j + 1, placed) && start' == start
    ensures slot.Some? ==>
      && slot.value < |now|
      && var next := placed + [Placement(j, slot.value)];
      && Within(|burst.slots|, j + 1, next) && Follows(rule, j + 1, next)
      && After(burst.slots, burst.jobs, next) == now[slot.value := Given(now[slot.value], job)]
      && start' == StartAfter(next, |now|)
  {
    slot := PickNext(rule, burst, now, job, spp, tolerance, start, j, placed);
    FollowsOn(rule, j, placed, slot);
    start' := start;
    if slot.Some? {
      OneMorePlaced(burst.slots, burst.jobs, placed, Placement(j, slot.value));
      start' := (slot.value + 1) % |now|;
    }
  }

  /** The loop, for any rule that accepts what is right. */
  method PlaceAll(ghost rule: Rule, ghost burst: Burst, slots: array<Slot>, jobs: seq<Pending>, spp: Speeds,
                  tolerance: real)
    returns (placed: seq<Placement>)
    requires Accepts(rule, burst) && burst == Burst(slots[..], jobs, spp, tolerance)
    modifies slots
    ensures Within(slots.Length, |jobs|, placed) && Follows(rule, |jobs|, placed)
    ensures slots[..] == After(burst.slots, jobs, placed)
  {
    placed := [];
    var start := 0;
    for j := 0 to |jobs|
      invariant Within(slots.Length, j, placed) && Follows(rule, j, placed)
      invariant slots[..] == After(burst.slots, jobs, placed)
      invariant start == StartAfter(placed, slots.Length)
    {
      var slot;
      slot, start := PlaceNext(rule, burst, slots[..], jobs[j], spp, tolerance, start, j, placed);
      if slot.Some? {
        slots[slot.value] := Given(slots[slot.value], jobs[j]);
        placed := placed + [Placement(j, slot.value)];
      }
    }
  }

  /** Places the jobs in queue order, updating the slots as it goes. */
  method AllocateScored(slots: array<Slot>, jobs: seq<Pending>, spp: Speeds, tolerance: real)
    returns (placed: seq<Placement>)
    modifies slots
    ensures Within(slots.Length, |jobs|, placed)
    ensures slots[..] == After(old(slots[..]), jobs, placed)
    ensures Burst(old(slots[..]), jobs, spp, tolerance).Allocation(|jobs|, placed)
  {
    ghost var burst := Burst(slots[..], jobs, spp, tolerance);
    placed := PlaceAll(burst.Rules(), burst, slots, jobs, spp, tolerance);
  }
}
