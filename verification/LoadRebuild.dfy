/**
 rebuild_load_counters: recount load:queued and load:inflight from the queues themselves. The
 in-flight load comes out exact. A queued job that is in no queue at that moment (in a worker's
 hand, on its way back to a queue, or orphaned) is not seen, so load:queued comes out low by
 exactly those jobs, and the state functions keep it that far off until the next rebuild.
 */
module LoadRebuild {
  import opened RedisKeys
  import opened Counters
  import opened Protocol
  import opened ProtocolRuns

  // ------------------------------------------------------------------ the recount

  ghost function LevelsOf(k: Keys, id: JobId): set<int> {
    set p | p in k.levels && (p, id) in k.pending
  }

  /** Each job is listed once for every registered level that holds it, and once if delayed. */
  ghost predicate Lists(k: Keys, ids: seq<JobId>) {
    forall id: JobId :: multiset(ids)[id] == |LevelsOf(k, id)| + if id in k.delayed then 1 else 0
  }

  function AtLevel(k: Keys, p: int): set<JobId> {
    set key | key in k.pending && key.0 == p :: key.1
  }

  method Members(s: set<JobId>) returns (ids: seq<JobId>)
    ensures multiset(ids) == multiset(s)
  {
    ids := [];
    var left := s;
    while left != {}
      invariant left <= s && multiset(ids) == multiset(s - left)
    {
      var id :| id in left;
      assert s - (left - {id}) == (s - left) + {id};
      left, ids := left - {id}, ids + [id];
    }
    assert s - left == s;
  }

  ghost function SeenLevels(k: Keys, seen: set<int>, id: JobId): set<int> {
    set p | p in seen && (p, id) in k.pending
  }

  lemma SeenOneMore(k: Keys, seen: set<int>, p: int, id: JobId)
    requires p !in seen
    ensures |SeenLevels(k, seen + {p}, id)| == |SeenLevels(k, seen, id)| + multiset(AtLevel(k, p))[id]
  {
    if (p, id) in k.pending {
      assert id in AtLevel(k, p);
      assert SeenLevels(k, seen + {p}, id) == SeenLevels(k, seen, id) + {p};
    } else {
      assert SeenLevels(k, seen + {p}, id) == SeenLevels(k, seen, id);
      assert id !in AtLevel(k, p);
    }
  }

  method ListQueued(k: Keys) returns (ids: seq<JobId>)
    ensures Lists(k, ids)
  {
    ids := [];
    var left := k.levels;
    ghost var seen: set<int> := {};
    while left != {}
      invariant seen !! left && seen + left == k.levels
      invariant forall id: JobId :: multiset(ids)[id] == |SeenLevels(k, seen, id)|
      decreases |left|
    {
      assert (forall p: int :: p !in left) ==> left == {};
      var p :| p in left;
      var level := Members(AtLevel(k, p));
      forall id: JobId ensures multiset(ids + level)[id] == |SeenLevels(k, seen + {p}, id)| {
        SeenOneMore(k, seen, p, id);
      }
      ids, left, seen := ids + level, left - {p}, seen + {p};
    }
    assert seen == k.levels;
    var delayed := Members(k.delayed.Keys);
    forall id: JobId ensures SeenLevels(k, seen, id) == LevelsOf(k, id) {}
    ids := ids + delayed;
  }

  /** How many of the listed jobs have a readable state with this field. */
  function Tally(k: Keys, ids: seq<JobId>, f: Field): nat {
    if ids == [] then 0
    else
      var last := ids[|ids| - 1];
      Tally(k, ids[..|ids| - 1], f) + if last in k.jobs && k.jobs[last].field == f then 1 else 0
  }

  method Count(k: Keys, ids: seq<JobId>) returns (counts: map<Field, int>)
    ensures forall f: Field :: Get(counts, f) == Tally(k, ids, f)
  {
    counts := map[];
    for i := 0 to |ids|
      invariant forall f: Field :: Get(counts, f) == Tally(k, ids[..i], f)
    {
      assert ids[..i + 1][..i] == ids[..i];
      if ids[i] in k.jobs {
        counts := Incr(counts, k.jobs[ids[i]].field, 1);
      }
    }
    assert ids[..|ids|] == ids;
  }

  /** Both counters replaced by what was counted. */
  ghost predicate LoadRecounted(k: Keys, queued: seq<JobId>, inflight: seq<JobId>, k': Keys) {
    && k' == k.(loadQueued := k'.loadQueued, loadInflight := k'.loadInflight)
    && Lists(k, queued) && multiset(inflight) == multiset(k.inflight)
    && (forall f: Field :: Get(k'.loadQueued, f) == Tally(k, queued, f))
    && (forall f: Field :: Get(k'.loadInflight, f) == Tally(k, inflight, f))
  }

  method RebuildLoadCounters(k: Keys) returns (k': Keys, queued: seq<JobId>, inflight: seq<JobId>)
    ensures LoadRecounted(k, queued, inflight, k')
  {
    queued := ListQueued(k);
    inflight := Members(k.inflight);
    var counted := Count(k, queued);
    var running := Count(k, inflight);
    k' := k.(loadQueued := counted, loadInflight := running);
  }

  // ------------------------------------------------------------------ what it restores

  ghost function Listed(k: Keys, ids: seq<JobId>, f: Field): set<JobId> {
    set id | id in ids && id in k.jobs && k.jobs[id].field == f
  }

  ghost predicate Distinct(ids: seq<JobId>) {
    forall id: JobId :: multiset(ids)[id] <= 1
  }

  lemma DistinctInit(init: seq<JobId>, last: JobId)
    requires Distinct(init + [last])
    ensures Distinct(init) && last !in init
  {
    forall id: JobId ensures multiset(init)[id] <= 1 {
      assert multiset(init + [last])[id] == multiset(init)[id] + multiset([last])[id];
    }
    assert multiset(init + [last])[last] == multiset(init)[last] + multiset([last])[last];
  }

  lemma {:induction false} TallyOfDistinct(k: Keys, ids: seq<JobId>, f: Field)
    requires Distinct(ids)
    ensures Tally(k, ids, f) == |Listed(k, ids, f)|
    decreases |ids|
  {
    if ids != [] {
      var init, last := ids[..|ids| - 1], ids[|ids| - 1];
      assert ids == init + [last];
      DistinctInit(init, last);
      TallyOfDistinct(k, init, f);
      if last in k.jobs && k.jobs[last].field == f {
        assert Listed(k, ids, f) == Listed(k, init, f) + {last};
      } else {
        assert Listed(k, ids, f) == Listed(k, init, f);
      }
    } else {
      assert Listed(k, ids, f) == {};
    }
  }

  /** Queued, but in no queue: in a worker's hand, on its way back, or orphaned. */
  ghost predicate BetweenQueues(k: Keys, id: JobId) {
    id in k.jobs && k.jobs[id].status.Queued? && (k.jobs[id].priority, id) !in k.pending && id !in k.delayed
  }

  ghost function BetweenQueuesWith(k: Keys, f: Field): set<JobId> {
    set id | id in QueuedWith(k, f) && BetweenQueues(k, id)
  }

  lemma ListedOnce(s: State, ids: seq<JobId>, id: JobId)
    requires Inv(s) && Lists(s.keys, ids)
    ensures multiset(ids)[id] <= 1
    ensures id in ids <==> id in s.keys.jobs && s.keys.jobs[id].status.Queued? && !BetweenQueues(s.keys, id)
  {
    var k := s.keys;
    assert JobPlaced(s, id);
    forall p ensures p in LevelsOf(k, id) ==> id in k.jobs && p == k.jobs[id].priority && id !in k.delayed {
      assert EntryPlaced(s, p, id);
    }
    if id in k.jobs {
      var p := k.jobs[id].priority;
      assert EntryPlaced(s, p, id);
      assert LevelsOf(k, id) == if (p, id) in k.pending then {p} else {};
    } else {
      assert LevelsOf(k, id) == {};
    }
    assert id in ids <==> multiset(ids)[id] > 0;
  }

  /** load:inflight comes out exact; load:queued low by the jobs between queues. */
  lemma RebuiltLoad(s: State, queued: seq<JobId>, inflight: seq<JobId>, k': Keys, f: Field)
    requires Inv(s) && LoadRecounted(s.keys, queued, inflight, k')
    ensures Get(k'.loadInflight, f) == |InflightWith(k', f)|
    ensures Get(k'.loadQueued, f) == |QueuedWith(k', f)| - |BetweenQueuesWith(k', f)|
  {
    var k := s.keys;
    InflightTally(k, inflight, f);
    QueuedTally(s, queued, f);
    assert InflightWith(k', f) == InflightWith(k, f);
    assert QueuedWith(k', f) == QueuedWith(k, f) && BetweenQueuesWith(k', f) == BetweenQueuesWith(k, f);
  }

  lemma QueuedTally(s: State, ids: seq<JobId>, f: Field)
    requires Inv(s) && Lists(s.keys, ids)
    ensures Tally(s.keys, ids, f) == |QueuedWith(s.keys, f)| - |BetweenQueuesWith(s.keys, f)|
  {
    var k := s.keys;
    forall id: JobId ensures multiset(ids)[id] <= 1 { ListedOnce(s, ids, id); }
    TallyOfDistinct(k, ids, f);
    var all, between := QueuedWith(k, f), BetweenQueuesWith(k, f);
    forall id ensures id in Listed(k, ids, f) <==> id in all - between { ListedOnce(s, ids, id); }
    assert Listed(k, ids, f) == all - between;
    Without(all, between);
  }

  lemma InflightTally(k: Keys, ids: seq<JobId>, f: Field)
    requires multiset(ids) == multiset(k.inflight)
    ensures Tally(k, ids, f) == |InflightWith(k, f)|
  {
    TallyOfDistinct(k, ids, f);
    forall id: JobId ensures id in ids <==> id in k.inflight { assert id in multiset(ids) <==> id in ids; }
    assert Listed(k, ids, f) == InflightWith(k, f);
  }

  lemma Without(a: set<JobId>, b: set<JobId>)
    requires b <= a
    ensures |a - b| == |a| - |b|
  {
  }

  lemma NoneBetween(k: Keys, k': Keys, f: Field)
    requires k'.jobs == k.jobs && k'.pending == k.pending && k'.delayed == k.delayed
    requires forall id :: !BetweenQueues(k, id)
    ensures BetweenQueuesWith(k', f) == {}
  {
    forall id: JobId ensures id !in BetweenQueuesWith(k', f) { assert !BetweenQueues(k, id); }
  }

  /** The rebuild makes load:queued exact if and only if no queued job is between queues. */
  lemma LoadRebuildExactIff(s: State, queued: seq<JobId>, inflight: seq<JobId>, k': Keys)
    requires Inv(s) && LoadRecounted(s.keys, queued, inflight, k')
    ensures LoadInflightExact(k')
    ensures LoadQueuedExact(k') <==> forall id :: !BetweenQueues(s.keys, id)
  {
    forall f ensures Get(k'.loadInflight, f) == |InflightWith(k', f)|
             ensures Get(k'.loadQueued, f) == |QueuedWith(k', f)| - |BetweenQueuesWith(k', f)| {
      RebuiltLoad(s, queued, inflight, k', f);
    }
    if id :| BetweenQueues(s.keys, id) {
      var f := s.keys.jobs[id].field;
      assert id in BetweenQueuesWith(k', f);
      assert Get(k'.loadQueued, f) != |QueuedWith(k', f)|;
    } else {
      forall f: Field ensures Get(k'.loadQueued, f) == |QueuedWith(k', f)| {
        NoneBetween(s.keys, k', f);
      }
    }
  }

  // ------------------------------------------------------------------ until the next rebuild

  ghost function Missing(k: Keys, f: Field): int {
    |QueuedWith(k, f)| - Get(k.loadQueued, f)
  }

  lemma EventKeepsMissing(s: State, e: Event, f: Field)
    requires Inv(s) && Enabled(s, e)
    ensures Missing(Next(s, e).keys, f) == Missing(s.keys, f)
  {
    if Call(s, e).Some? {
      var op := Call(s, e).value;
      CallsAreProper(s, e);
      QueuedChange(s.keys, op, f);
      assert QueuedWith(Next(s, e).keys, f) == QueuedWith(Primary(s.keys, op), f);
    }
  }

  lemma {:induction false} RunKeepsMissing(s: State, es: seq<Event>, f: Field)
    requires Inv(s) && Run(s, es)
    ensures Missing(After(s, es).keys, f) == Missing(s.keys, f)
    decreases |es|
  {
    if es != [] {
      EventKeepsInv(s, es[0]);
      EventKeepsMissing(s, es[0], f);
      RunKeepsMissing(Next(s, es[0]), es[1..], f);
    }
  }

  /** However the run goes on, even once those jobs are finished, load:queued stays short by the
      number of jobs that were between queues when it was rebuilt. */
  lemma RebuiltLoadStaysShort(s: State, queued: seq<JobId>, inflight: seq<JobId>, k': Keys, es: seq<Event>, f: Field)
    requires Inv(s) && LoadRecounted(s.keys, queued, inflight, k') && Run(s.(keys := k'), es)
    ensures Missing(After(s.(keys := k'), es).keys, f) == |BetweenQueuesWith(s.keys, f)|
  {
    var s' := s.(keys := k');
    RebuiltLoad(s, queued, inflight, k', f);
    CountersAreNotPlacement(s, s');
    RunKeepsMissing(s', es, f);
    assert BetweenQueuesWith(k', f) == BetweenQueuesWith(s.keys, f);
  }
}
