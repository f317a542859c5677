/**
 rebuild_backend_counters: recount every backend's slots and batch pages from the in-flight set,
 in one script. It repairs any drift of the slot counters; the batch maps it repairs exactly
 when every backend that still has batch entries is visited.
 */
module Rebuild {
  import opened Wrappers
  import opened RedisKeys
  import opened Counters

  /** The backends the script writes: those in ARGV and those an in-flight job names. */
  ghost predicate Visited(k: Keys, known: set<BackendId>, b: BackendId) {
    b in known || OnBackend(k, b) != {}
  }

  ghost predicate SlotsRecounted(k: Keys, known: set<BackendId>, slots: map<BackendId, int>) {
    forall b: BackendId ::
      if Visited(k, known, b) then b in slots && slots[b] == |OnBackend(k, b)|
      else (b in slots <==> b in k.slots) && Get(slots, b) == Get(k.slots, b)
  }

  ghost predicate BatchesRecounted(k: Keys, known: set<BackendId>, batches: map<(BackendId, BatchId), int>) {
    forall b: BackendId, t: BatchId :: BatchRecounted(k, known, batches, b, t)
  }

  ghost predicate BatchRecounted(k: Keys, known: set<BackendId>, batches: map<(BackendId, BatchId), int>,
                                 b: BackendId, t: BatchId) {
    if Visited(k, known, b) then
      && ((b, t) in batches <==> BatchOnBackend(k, b, t) != {})
      && Get(batches, (b, t)) == |BatchOnBackend(k, b, t)|
    else ((b, t) in batches <==> (b, t) in k.batches) && Get(batches, (b, t)) == Get(k.batches, (b, t))
  }

  /** The backends whose counter was off. */
  ghost predicate WasOff(k: Keys, known: set<BackendId>, b: BackendId) {
    Visited(k, known, b) && Get(k.slots, b) != |OnBackend(k, b)|
  }

  // ------------------------------------------------------------------ the recount

  ghost function Among(k: Keys, seen: set<JobId>, b: BackendId): set<JobId> {
    set id | id in seen && id in k.jobs && k.jobs[id].backend == Some(b)
  }

  ghost function PagesAmong(k: Keys, seen: set<JobId>, b: BackendId, t: BatchId): set<JobId> {
    set id | id in seen && id in k.jobs && k.jobs[id].backend == Some(b) && k.jobs[id].batch == Some(t)
  }

  ghost predicate CountOf(k: Keys, seen: set<JobId>, counts: map<BackendId, int>, b: BackendId) {
    (b in counts <==> Among(k, seen, b) != {}) && Get(counts, b) == |Among(k, seen, b)|
  }

  ghost predicate PagesOf(k: Keys, seen: set<JobId>, pages: map<(BackendId, BatchId), int>, b: BackendId, t: BatchId) {
    ((b, t) in pages <==> PagesAmong(k, seen, b, t) != {}) && Get(pages, (b, t)) == |PagesAmong(k, seen, b, t)|
  }

  ghost predicate Counts(k: Keys, seen: set<JobId>, counts: map<BackendId, int>) {
    forall b: BackendId :: CountOf(k, seen, counts, b)
  }

  ghost predicate Pages(k: Keys, seen: set<JobId>, pages: map<(BackendId, BatchId), int>) {
    forall b: BackendId, t: BatchId :: PagesOf(k, seen, pages, b, t)
  }

  lemma CountNext(k: Keys, seen: set<JobId>, counts: map<BackendId, int>, id: JobId, b: BackendId)
    requires CountOf(k, seen, counts, b) && id !in seen
    ensures CountOf(k, seen + {id},
      if id in k.jobs && k.jobs[id].backend.Some? then Incr(counts, k.jobs[id].backend.value, 1) else counts, b)
  {
    if id in k.jobs && k.jobs[id].backend == Some(b) {
      Added(Among(k, seen, b), Among(k, seen + {id}, b), id);
    } else {
      assert Among(k, seen + {id}, b) == Among(k, seen, b);
    }
  }

  lemma PageNext(k: Keys, seen: set<JobId>, pages: map<(BackendId, BatchId), int>, id: JobId, b: BackendId, t: BatchId)
    requires PagesOf(k, seen, pages, b, t) && id !in seen
    ensures PagesOf(k, seen + {id},
      if id in k.jobs && k.jobs[id].backend.Some? && k.jobs[id].batch.Some?
      then Incr(pages, (k.jobs[id].backend.value, k.jobs[id].batch.value), 1) else pages, b, t)
  {
    if id in k.jobs && k.jobs[id].backend == Some(b) && k.jobs[id].batch == Some(t) {
      Added(PagesAmong(k, seen, b, t), PagesAmong(k, seen + {id}, b, t), id);
    } else {
      assert PagesAmong(k, seen + {id}, b, t) == PagesAmong(k, seen, b, t);
    }
  }

  /** The first loop of the script: SMEMBERS jobs:inflight, one HMGET each. */
  method CountInflight(k: Keys) returns (counts: map<BackendId, int>, pages: map<(BackendId, BatchId), int>)
    ensures Counts(k, k.inflight, counts) && Pages(k, k.inflight, pages)
  {
    counts, pages := map[], map[];
    var left := k.inflight;
    ghost var seen := {};
    while left != {}
      invariant seen !! left && seen + left == k.inflight
      invariant Counts(k, seen, counts)
      invariant Pages(k, seen, pages)
      decreases |left|
    {
      var id :| id in left;
      ghost var counted, paged := counts, pages;
      if id in k.jobs && k.jobs[id].backend.Some? {
        var b := k.jobs[id].backend.value;
        counts := Incr(counts, b, 1);
        if k.jobs[id].batch.Some? { pages := Incr(pages, (b, k.jobs[id].batch.value), 1); }
      }
      forall b: BackendId ensures CountOf(k, seen + {id}, counts, b) { CountNext(k, seen, counted, id, b); }
      forall b: BackendId, t: BatchId ensures PagesOf(k, seen + {id}, pages, b, t) {
        PageNext(k, seen, paged, id, b, t);
      }
      left, seen := left - {id}, seen + {id};
    }
    assert seen == k.inflight;
  }

  /** One backend's turn in the writing loop: DEL its batch map, HSET what was counted. */
  function WriteBatches(batches: map<(BackendId, BatchId), int>, pages: map<(BackendId, BatchId), int>, b: BackendId)
    : (r: map<(BackendId, BatchId), int>)
    ensures forall key :: key in r <==> if key.0 == b then key in pages else key in batches
    ensures forall key :: key in r ==> r[key] == if key.0 == b then pages[key] else batches[key]
  {
    (map key | key in batches && key.0 != b :: batches[key]) + (map key | key in pages && key.0 == b :: pages[key])
  }

  ghost predicate SlotsWritten(k: Keys, counts: map<BackendId, int>, seen: set<BackendId>, slots: map<BackendId, int>)
    requires seen <= counts.Keys
  {
    forall b: BackendId ::
      (b in slots <==> b in seen || b in k.slots) &&
        (b in slots ==> slots[b] == if b in seen then counts[b] else k.slots[b])
  }

  ghost predicate BatchesWritten(k: Keys, pages: map<(BackendId, BatchId), int>, seen: set<BackendId>,
                                 batches: map<(BackendId, BatchId), int>) {
    forall key: (BackendId, BatchId) ::
      && (key in batches <==> if key.0 in seen then key in pages else key in k.batches)
      && (key in batches ==> batches[key] == if key.0 in seen then pages[key] else k.batches[key])
  }

  lemma SlotsWrittenNext(k: Keys, counts: map<BackendId, int>, seen: set<BackendId>, slots: map<BackendId, int>,
                         b: BackendId)
    requires seen + {b} <= counts.Keys && b !in seen && SlotsWritten(k, counts, seen, slots)
    ensures SlotsWritten(k, counts, seen + {b}, slots[b := counts[b]])
    ensures Get(slots, b) == Get(k.slots, b)
  {
  }

  lemma BatchesWrittenNext(k: Keys, pages: map<(BackendId, BatchId), int>, seen: set<BackendId>,
                           batches: map<(BackendId, BatchId), int>, b: BackendId)
    requires BatchesWritten(k, pages, seen, batches)
    ensures BatchesWritten(k, pages, seen + {b}, WriteBatches(batches, pages, b))
  {
  }

  /** The backends seen so far whose counter differs from the count. */
  ghost predicate OffAmong(k: Keys, counts: map<BackendId, int>, seen: set<BackendId>, off: set<BackendId>)
    requires seen <= counts.Keys
  {
    forall b: BackendId :: b in off <==> b in seen && Get(k.slots, b) != counts[b]
  }

  lemma OffAmongNext(k: Keys, counts: map<BackendId, int>, seen: set<BackendId>, off: set<BackendId>, b: BackendId)
    requires seen + {b} <= counts.Keys && b !in seen && OffAmong(k, counts, seen, off)
    ensures OffAmong(k, counts, seen + {b}, if Get(k.slots, b) != counts[b] then off + {b} else off)
    ensures b !in off
  {
  }

  ghost predicate Written(k: Keys, counts: map<BackendId, int>, pages: map<(BackendId, BatchId), int>,
                          seen: set<BackendId>,
                          slots: map<BackendId, int>, batches: map<(BackendId, BatchId), int>, fixed: nat,
                          off: set<BackendId>) {
    && seen <= counts.Keys
    && SlotsWritten(k, counts, seen, slots) && BatchesWritten(k, pages, seen, batches)
    && fixed == |off| && OffAmong(k, counts, seen, off)
  }

  /** One backend's turn: compare, SET its slot counter, replace its batch map. */
  method WriteBackend(k: Keys, counts: map<BackendId, int>, pages: map<(BackendId, BatchId), int>, b: BackendId,
                      ghost seen: set<BackendId>,
                      slots: map<BackendId, int>, batches: map<(BackendId, BatchId), int>, fixed: nat,
                      ghost off: set<BackendId>)
    returns (slots': map<BackendId, int>, batches': map<(BackendId, BatchId), int>, fixed': nat,
      ghost off': set<BackendId>)
    requires Written(k, counts, pages, seen, slots, batches, fixed, off) && b in counts && b !in seen
    ensures SlotsWritten(k, counts, seen + {b}, slots') && BatchesWritten(k, pages, seen + {b}, batches')
    ensures fixed' == |off'| && OffAmong(k, counts, seen + {b}, off')
  {
    SlotsWrittenNext(k, counts, seen, slots, b);
    BatchesWrittenNext(k, pages, seen, batches, b);
    OffAmongNext(k, counts, seen, off, b);
    fixed', off' := fixed, off;
    if Get(slots, b) != counts[b] {
      fixed', off' := fixed + 1, off + {b};
    }
    slots' := slots[b := counts[b]];
    batches' := WriteBatches(batches, pages, b);
  }

  lemma NothingWritten(k: Keys, counts: map<BackendId, int>, pages: map<(BackendId, BatchId), int>)
    ensures Written(k, counts, pages, {}, k.slots, k.batches, 0, {})
  {
  }

  /** The writing loop: every counted backend's slot counter and batch map. */
  method WriteCounts(k: Keys, counts: map<BackendId, int>, pages: map<(BackendId, BatchId), int>)
    returns (slots: map<BackendId, int>, batches: map<(BackendId, BatchId), int>, fixed: nat, ghost off: set<BackendId>)
    ensures SlotsWritten(k, counts, counts.Keys, slots) && BatchesWritten(k, pages, counts.Keys, batches)
    ensures fixed == |off| && OffAmong(k, counts, counts.Keys, off)
  {
    slots, batches, fixed, off := k.slots, k.batches, 0, {};
    NothingWritten(k, counts, pages);
    var left := counts.Keys;
    assert counts.Keys - left == {};
    while left != {}
      invariant left <= counts.Keys && Written(k, counts, pages, counts.Keys - left, slots, batches, fixed, off)
      decreases |left|
    {
      var b :| b in left;
      ghost var seen := counts.Keys - left;
      slots, batches, fixed, off := WriteBackend(k, counts, pages, b, seen, slots, batches, fixed, off);
      left := left - {b};
      assert counts.Keys - left == seen + {b};
    }
    assert counts.Keys - left == counts.Keys;
  }

  /** The whole script. `off` names the backends it corrects; it returns their number. */
  method RebuildCounters(k: Keys, known: set<BackendId>)
    returns (slots: map<BackendId, int>, batches: map<(BackendId, BatchId), int>, fixed: nat, ghost off: set<BackendId>)
    ensures SlotsRecounted(k, known, slots)
    ensures BatchesRecounted(k, known, batches)
    ensures fixed == |off| && forall b: BackendId :: b in off <==> WasOff(k, known, b)
  {
    var counts, pages := CountInflight(k);
    ghost var counted := counts;
    var all := counts + (map b | b in known && b !in counts :: 0);
    forall b: BackendId ensures Among(k, k.inflight, b) == OnBackend(k, b) {}
    forall b: BackendId ensures b in all <==> Visited(k, known, b) ensures b in all ==> all[b] == |OnBackend(k, b)| {
      assert CountOf(k, k.inflight, counted, b);
    }
    slots, batches, fixed, off := WriteCounts(k, all, pages);
    forall b: BackendId, t: BatchId ensures BatchRecounted(k, known, batches, b, t) {
      assert PagesOf(k, k.inflight, pages, b, t);
      assert PagesAmong(k, k.inflight, b, t) == BatchOnBackend(k, b, t);
      var key := (b, t);
      assert key in batches <==> if key.0 in all.Keys then key in pages else key in k.batches;
    }
  }

  // ------------------------------------------------------------------ what a rebuild restores

  /** The keys after the script. */
  ghost predicate Rebuilt(k: Keys, known: set<BackendId>, k': Keys) {
    && k' == k.(slots := k'.slots, batches := k'.batches)
    && SlotsRecounted(k, known, k'.slots) && BatchesRecounted(k, known, k'.batches)
  }

  lemma RebuildKeepsViews(k: Keys, known: set<BackendId>, k': Keys)
    requires Rebuilt(k, known, k')
    ensures forall b: BackendId :: OnBackend(k', b) == OnBackend(k, b)
    ensures forall b: BackendId, t :: BatchOnBackend(k', b, t) == BatchOnBackend(k, b, t)
  {
  }

  /** From any drift: the slot counters come out exact if and only if no unvisited backend has a
      non-zero counter, so always when ARGV lists every counter key. */
  lemma RebuildRestoresSlotsIff(k: Keys, known: set<BackendId>, k': Keys)
    requires Rebuilt(k, known, k')
    ensures SlotsExact(k') <==> forall b: BackendId :: b in k.slots && !Visited(k, known, b) ==> k.slots[b] == 0
  {
  }

  /** The batch maps come out exact if and only if every backend that has a batch entry is visited:
      entries of a backend with neither a slot counter nor an in-flight job stay. */
  lemma RebuildRestoresBatchesIff(k: Keys, known: set<BackendId>, k': Keys)
    requires Rebuilt(k, known, k')
    ensures BatchesExact(k') <==> forall b: BackendId, t: BatchId :: (b, t) in k.batches ==> Visited(k, known, b)
  {
    RebuildKeepsViews(k, known, k');
    if forall b: BackendId, t: BatchId :: (b, t) in k.batches ==> Visited(k, known, b) {
      forall b: BackendId, t: BatchId ensures BatchEntryExact(k', b, t) {
        assert BatchRecounted(k, known, k'.batches, b, t);
        assert !Visited(k, known, b) ==> OnBackend(k, b) == {} && BatchOnBackend(k, b, t) == {};
      }
    } else {
      var b: BackendId, t: BatchId :| (b, t) in k.batches && !Visited(k, known, b);
      assert BatchRecounted(k, known, k'.batches, b, t);
      assert BatchOnBackend(k', b, t) == {} && (b, t) in k'.batches;
      assert !BatchEntryExact(k', b, t);
    }
  }

  /** Exact counters are left exactly as they were, and none is reported. */
  lemma RebuildOfExactIsIdle(k: Keys, known: set<BackendId>, k': Keys)
    requires SlotsExact(k) && BatchesExact(k) && known <= k.slots.Keys
    requires Rebuilt(k, known, k')
    ensures k' == k && forall b: BackendId :: !WasOff(k, known, b)
  {
    forall b: BackendId ensures b in k'.slots <==> b in k.slots ensures Get(k'.slots, b) == Get(k.slots, b) {
      assert OnBackend(k, b) != {} ==> Get(k.slots, b) != 0;
    }
    assert k'.slots == k.slots;
    forall b: BackendId, t: BatchId
      ensures (b, t) in k'.batches <==> (b, t) in k.batches ensures Get(k'.batches, (b, t)) == Get(k.batches, (b, t))
    {
      assert BatchEntryExact(k, b, t) && BatchRecounted(k, known, k'.batches, b, t);
    }
    forall key: (BackendId, BatchId)
      ensures key in k'.batches <==> key in k.batches
      ensures Get(k'.batches, key) == Get(k.batches, key)
    {
      assert key == (key.0, key.1);
    }
    assert k'.batches == k.batches;
  }
}
