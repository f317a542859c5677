/**
 peek_pending: the first jobs of the pending queues, highest priority first and oldest first
 within one. The source walks the registered levels and asks Redis for the head of each queue.
 */
module PendingQueue {
  import opened RedisKeys
  import opened Counters
  import opened Protocol

  /** Dispatch order: priority descending, then score, then ZRANGE's tie order on the member. */
  predicate Before(a: Entry, b: Entry) {
    || a.priority > b.priority
    || (a.priority == b.priority && (a.score < b.score || (a.score == b.score && a.id < b.id)))
  }

  /** `r` is the first `n` of `all`, in dispatch order. */
  ghost predicate FirstOf(r: seq<Entry>, all: set<Entry>, n: nat) {
    && |r| == (if n < |all| then n else |all|)
    && (forall i :: 0 <= i < |r| ==> r[i] in all)
    && (forall i, j :: 0 <= i < j < |r| ==> Before(r[i], r[j]))
    && (forall i, e :: 0 <= i < |r| && e in all && e !in r ==> Before(r[i], e))
  }

  ghost function Members(r: seq<Entry>): set<Entry> {
    set e | e in r
  }

  /** Entries of the given levels' queues. */
  function EntriesIn(k: Keys, levels: set<int>): set<Entry> {
    set key | key in k.pending && key.0 in levels :: Entry(key.1, k.pending[key], key.0)
  }

  /** The levels peek_pending visits: the registered ones, or level 0 when there are none. */
  function VisitedLevels(k: Keys): set<int> {
    if k.levels == {} then {0} else k.levels
  }

  lemma {:induction false} LeastExists(s: set<Entry>) returns (m: Entry)
    requires s != {}
    requires forall a, b :: a in s && b in s && a != b ==> Before(a, b) || Before(b, a)
    ensures m in s && forall e :: e in s && e != m ==> Before(m, e)
    decreases |s|
  {
    var x :| x in s;
    if s == {x} {
      m := x;
    } else {
      var rest := s - {x};
      assert s == rest + {x};
      var y := LeastExists(rest);
      m := if Before(x, y) then x else y;
    }
  }

  lemma {:induction false} GreatestLevel(s: set<int>) returns (m: int)
    requires s != {}
    ensures m in s && forall p :: p in s ==> p <= m
    decreases |s|
  {
    assert (forall x: int :: x !in s) ==> s == {};
    var x :| x in s;
    if s == {x} {
      m := x;
    } else {
      assert s == (s - {x}) + {x};
      var y := GreatestLevel(s - {x});
      m := if x < y then y else x;
    }
  }

  /** ZRANGE jobs:pending:<p> 0 n-1 WITHSCORES. */
  method ZRange(k: Keys, p: int, n: nat) returns (r: seq<Entry>)
    ensures FirstOf(r, EntriesIn(k, {p}), n)
  {
    ghost var all := EntriesIn(k, {p});
    var rest := EntriesIn(k, {p});
    r := [];
    while |r| < n && rest != {}
      invariant |r| <= n && |r| + |rest| == |all| && rest <= all
      invariant forall e :: e in all <==> e in rest || e in r
      invariant forall i, j :: 0 <= i < j < |r| ==> Before(r[i], r[j])
      invariant forall i, e :: 0 <= i < |r| && e in rest ==> Before(r[i], e)
      decreases |rest|
    {
      ghost var least := LeastExists(rest);
      var m :| m in rest && forall e :: e in rest && e != m ==> Before(m, e);
      rest := rest - {m};
      r := r + [m];
    }
  }

  /** A level after all of `a`, taken once `a` is exhausted. */
  lemma NextLevel(r: seq<Entry>, a: set<Entry>, t: seq<Entry>, b: set<Entry>, n: nat)
    requires FirstOf(r, a, n) && |r| < n && FirstOf(t, b, n - |r|)
    requires forall x, y :: x in a && y in b ==> Before(x, y) && x != y
    ensures FirstOf(r + t, a + b, n)
  {
    assert a !! b;
    assert |a + b| == |a| + |b|;
    forall e | e in a ensures e in r { ExhaustedHoldsAll(r, a, n, e); }
    forall i, e | 0 <= i < |r + t| && e in a + b && e !in r + t ensures Before((r + t)[i], e) {
      assert e in b && e !in t;
    }
  }

  /** Shorter than asked for means nothing is left. */
  lemma ExhaustedHoldsAll(r: seq<Entry>, a: set<Entry>, n: nat, e: Entry)
    requires FirstOf(r, a, n) && |r| < n && e in a
    ensures e in r
  {
    if e !in r {
      DistinctMembers(r);
      assert Members(r) <= a - {e};
      SmallerSet(Members(r), a - {e});
    }
  }

  lemma {:induction false} DistinctMembers(r: seq<Entry>)
    requires forall i, j :: 0 <= i < j < |r| ==> Before(r[i], r[j])
    ensures |Members(r)| == |r|
  {
    if r != [] {
      var init, last := r[..|r| - 1], r[|r| - 1];
      assert r == init + [last];
      DistinctMembers(init);
      assert Members(r) == Members(init) + {last};
      assert last !in init;
    }
  }

  /** With `n` entries taken, levels after them add nothing. */
  lemma FullAlready(r: seq<Entry>, a: set<Entry>, b: set<Entry>, n: nat)
    requires FirstOf(r, a, n) && |r| == n
    requires forall x, y :: x in a && y in b ==> Before(x, y) && x != y
    ensures FirstOf(r, a + b, n)
  {
  }

  lemma LevelsApart(k: Keys, above: set<int>, below: set<int>)
    requires forall p, q :: p in above && q in below ==> p > q
    ensures forall x, y :: x in EntriesIn(k, above) && y in EntriesIn(k, below) ==> Before(x, y) && x != y
    ensures EntriesIn(k, above + below) == EntriesIn(k, above) + EntriesIn(k, below)
  {
  }

  /** The first entries of the levels so far, then the next level's. */
  lemma LevelTaken(k: Keys, seen: set<int>, p: int, r: seq<Entry>, t: seq<Entry>, n: nat)
    requires FirstOf(r, EntriesIn(k, seen), n) && |r| < n && FirstOf(t, EntriesIn(k, {p}), n - |r|)
    requires forall q :: q in seen ==> q > p
    ensures FirstOf(r + t, EntriesIn(k, seen + {p}), n)
  {
    LevelsApart(k, seen, {p});
    NextLevel(r, EntriesIn(k, seen), t, EntriesIn(k, {p}), n);
  }

  lemma LevelsNotNeeded(k: Keys, seen: set<int>, left: set<int>, r: seq<Entry>, n: nat)
    requires FirstOf(r, EntriesIn(k, seen), n) && |r| == n
    requires forall p, q :: p in seen && q in left ==> p > q
    ensures FirstOf(r, EntriesIn(k, seen + left), n)
  {
    LevelsApart(k, seen, left);
    FullAlready(r, EntriesIn(k, seen), EntriesIn(k, left), n);
  }

  /** The first `count` jobs of the visited levels, whatever is queued. */
  method PeekPending(k: Keys, count: int) returns (results: seq<Entry>)
    ensures FirstOf(results, EntriesIn(k, VisitedLevels(k)), if count < 0 then 0 else count)
    ensures InOrder(k, results)
    ensures |results| < count ==> SeesAll(k, results)
  {
    results := PeekLevels(k, count);
    FirstAreInOrder(k, results, if count < 0 then 0 else count);
  }

  /** The walk over the levels, highest first. */
  method PeekLevels(k: Keys, count: int) returns (results: seq<Entry>)
    ensures FirstOf(results, EntriesIn(k, VisitedLevels(k)), if count < 0 then 0 else count)
  {
    ghost var n: nat := if count < 0 then 0 else count;
    var left := VisitedLevels(k);
    ghost var seen: set<int> := {};
    results := [];
    assert EntriesIn(k, {}) == {};
    while left != {}
      invariant seen + left == VisitedLevels(k)
      invariant forall p, q :: p in seen && q in left ==> p > q
      invariant FirstOf(results, EntriesIn(k, seen), n)
      decreases |left|
    {
      var remaining := count - |results|;
      if remaining <= 0 { break; }
      ghost var greatest := GreatestLevel(left);
      var prio :| prio in left && forall q :: q in left ==> q <= prio;
      var batch := ZRange(k, prio, remaining);
      LevelTaken(k, seen, prio, results, batch, n);
      results := results + batch;
      seen, left := seen + {prio}, left - {prio};
    }
    if left == {} {
      assert seen == VisitedLevels(k);
    } else {
      LevelsNotNeeded(k, seen, left, results, n);
    }
  }

  /** Queued on a registered level, and not among `r`. */
  ghost predicate LeftOut(k: Keys, r: seq<Entry>, p: int, id: JobId) {
    p in k.levels && (p, id) in k.pending && Entry(id, k.pending[(p, id)], p) !in r
  }

  /** Of two jobs the one of higher priority comes first, and of one priority the older; and no queued
      job of a visited level that is left out is of higher priority, or older at the same. */
  ghost predicate InOrder(k: Keys, r: seq<Entry>) {
    && (forall i :: 0 <= i < |r| ==>
      (r[i].priority, r[i].id) in k.pending && k.pending[(r[i].priority, r[i].id)] == r[i].score)
    && (forall i, j :: 0 <= i < j < |r| ==>
      r[i].priority > r[j].priority || (r[i].priority == r[j].priority && r[i].score <= r[j].score))
    && (forall i, p, id :: 0 <= i < |r| && LeftOut(k, r, p, id) ==>
      r[i].priority > p || (r[i].priority == p && r[i].score <= k.pending[(p, id)]))
  }

  /** Nothing of a registered level is left out; without any, nothing of level 0. */
  ghost predicate SeesAll(k: Keys, r: seq<Entry>) {
    forall p, id :: (p in k.levels || (k.levels == {} && p == 0)) && (p, id) in k.pending ==>
      Entry(id, k.pending[(p, id)], p) in r
  }

  lemma FirstAreInOrder(k: Keys, r: seq<Entry>, n: nat)
    requires FirstOf(r, EntriesIn(k, VisitedLevels(k)), n)
    ensures InOrder(k, r) && (|r| < n ==> SeesAll(k, r))
  {
    var all := EntriesIn(k, VisitedLevels(k));
    forall i | 0 <= i < |r|
      ensures (r[i].priority, r[i].id) in k.pending && k.pending[(r[i].priority, r[i].id)] == r[i].score
    {
      assert r[i] in all;
    }
    forall p, id | (p in k.levels || (k.levels == {} && p == 0)) && (p, id) in k.pending
      ensures Entry(id, k.pending[(p, id)], p) in all
    {
      assert (p, id).0 in VisitedLevels(k);
    }
    if |r| < n {
      forall e | e in all ensures e in r { ExhaustedHoldsAll(r, all, n, e); }
    }
  }

  /** Along the protocol no queued entry is missed, and every entry is ranked by the priority and
      submit time its job was submitted with, however often it was retried or requeued. */
  lemma PeekSeesEveryPendingJob(s: State)
    requires Inv(s)
    ensures EntriesIn(s.keys, VisitedLevels(s.keys)) == Entries(s.keys)
    ensures forall e :: e in Entries(s.keys) ==>
      e.id in s.keys.jobs && e.score == s.keys.jobs[e.id].submittedAt && e.priority == s.keys.jobs[e.id].priority
    ensures forall p, id :: (p, id) in s.keys.pending ==> p in s.keys.levels
  {
    forall key | key in s.keys.pending ensures key.0 in s.keys.levels { assert EntryPlaced(s, key.0, key.1); }
    forall e | e in Entries(s.keys)
      ensures e.id in s.keys.jobs && e.score == s.keys.jobs[e.id].submittedAt &&
        e.priority == s.keys.jobs[e.id].priority
    {
      assert EntryPlaced(s, e.priority, e.id);
    }
  }
}
