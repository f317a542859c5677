/**
 finish_if_done under READ COMMITTED (section 13.2.1 of the PostgreSQL manual), with the batch's
 row lock (section 13.3.2). Any number of transactions each make pages of one batch terminal,
 lock the batch row, run the conditional UPDATE and commit, in any interleaving; any of them
 may abort.
 */
module BatchFinish {
  type TxnId = nat
  type PageId = nat

  datatype Phase = Open | Locked | Checked

  /** A transaction's uncommitted work: the pages it made terminal, and whether its UPDATE set the
      batch finished. */
  datatype Txn = Txn(phase: Phase, writes: set<PageId>, finishes: bool)

  /** Committed rows (the pages still queued, running or storing; the batch's status), the live
      transactions, and who holds the batch's row lock. */
  datatype Db = Db(active: set<PageId>, finished: bool, txns: map<TxnId, Txn>, lock: set<TxnId>)

  datatype Event =
    | Begin(t: TxnId)
    | MakeTerminal(t: TxnId, page: PageId)     // UPDATE jobs ... WHERE id = page
    | Lock(t: TxnId)                           // SELECT 1 FROM batches ... FOR UPDATE
    | Finish(t: TxnId)                         // UPDATE batches ... AND NOT EXISTS (active page)
    | Commit(t: TxnId)
    | Abort(t: TxnId)
    | Reopen(pages: set<PageId>)               // retry_batch's commit: new jobs, and the batch queued again
    | FinishStalled                            // the cleanup worker's safety net, autocommitted

  /** `locking` is whether finish_if_done takes the row lock before its UPDATE. */
  predicate Enabled(db: Db, e: Event, locking: bool) {
    match e
    case Begin(t) => t !in db.txns
    // a row another transaction has updated is locked until it ends
    case MakeTerminal(t, page) =>
      t in db.txns && db.txns[t].phase.Open? && forall u :: u in db.txns && u != t ==> page !in db.txns[u].writes
    case Lock(t) => locking && t in db.txns && db.txns[t].phase.Open? && db.lock == {}
    case Finish(t) => t in db.txns && (if locking then db.txns[t].phase.Locked? else db.txns[t].phase.Open?)
    case Commit(t) => t in db.txns && db.txns[t].phase.Checked?
    case Abort(t) => t in db.txns
    // its read of the batch may be old; its UPDATE waits for the row lock, and its job ids are new
    case Reopen(pages) => db.lock == {} && pages != {} && forall u :: u in db.txns ==> pages !! db.txns[u].writes
    case FinishStalled => db.lock == {}
  }

  /** The pages a statement of `t` sees active: a new snapshot of the committed rows, under its own
      updates. */
  function SeenActive(db: Db, t: TxnId): set<PageId>
    requires t in db.txns
  {
    db.active - db.txns[t].writes
  }

  function Next(db: Db, e: Event, locking: bool): Db
    requires Enabled(db, e, locking)
  {
    match e
    case Begin(t) => db.(txns := db.txns[t := Txn(Open, {}, false)])
    case MakeTerminal(t, page) =>
      var x := db.txns[t];
      db.(txns := db.txns[t := x.(writes := if page in db.active then x.writes + {page} else x.writes)])
    case Lock(t) => db.(txns := db.txns[t := db.txns[t].(phase := Locked)], lock := {t})
    case Finish(t) =>
      db.(txns := db.txns[t := db.txns[t].(phase := Checked, finishes := !db.finished && SeenActive(db, t) == {})])
    case Commit(t) =>
      var x := db.txns[t];
      Db(db.active - x.writes, db.finished || x.finishes, db.txns - {t}, db.lock - {t})
    case Abort(t) => db.(txns := db.txns - {t}, lock := db.lock - {t})
    case Reopen(pages) => db.(active := db.active + pages, finished := false)
    case FinishStalled => db.(finished := db.finished || db.active == {})
  }

  ghost predicate Run(db: Db, es: seq<Event>, locking: bool)
    decreases |es|
  {
    es == [] || (Enabled(db, es[0], locking) && Run(Next(db, es[0], locking), es[1..], locking))
  }

  ghost function After(db: Db, es: seq<Event>, locking: bool): Db
    requires Run(db, es, locking)
    decreases |es|
  {
    if es == [] then db else After(Next(db, es[0], locking), es[1..], locking)
  }

  /** A batch with pages to run and nothing under way. */
  predicate Start(db: Db) {
    db.active != {} && !db.finished && db.txns == map[] && db.lock == {}
  }

  ghost predicate Inv(db: Db) {
    && (db.finished <==> db.active == {})
    && (forall t :: t in db.lock ==> t in db.txns && !db.txns[t].phase.Open?)
    && (forall t :: t in db.txns && !db.txns[t].phase.Open? ==> db.lock == {t})
    && (forall t :: t in db.txns && db.txns[t].phase.Checked? ==>
      (db.txns[t].finishes <==> !db.finished && SeenActive(db, t) == {}))
  }

  lemma EventKeepsInv(db: Db, e: Event)
    requires Inv(db) && Enabled(db, e, true)
    ensures Inv(Next(db, e, true))
  {
  }

  lemma {:induction false} RunKeepsInv(db: Db, es: seq<Event>)
    requires Inv(db) && Run(db, es, true)
    ensures Inv(After(db, es, true))
    decreases |es|
  {
    if es != [] {
      EventKeepsInv(db, es[0]);
      RunKeepsInv(Next(db, es[0], true), es[1..]);
    }
  }

  /** In every interleaving, at every moment, the committed batch is finished if and only if no
      committed page is active: it never finishes early, and the last commit always finishes it. */
  lemma FinishedExactlyWhenDone(db: Db, es: seq<Event>)
    requires Start(db) && Run(db, es, true)
    ensures After(db, es, true).finished <==> After(db, es, true).active == {}
  {
    StartIsConsistent(db);
    RunKeepsInv(db, es);
  }

  lemma StartIsConsistent(db: Db)
    requires Start(db)
    ensures Inv(db)
  {
  }

  /** The event makes the page terminal, or active again. */
  predicate Touches(e: Event, page: PageId) {
    (e.MakeTerminal? && e.page == page) || (e.Reopen? && page in e.pages)
  }

  ghost predicate WrittenByNone(db: Db, page: PageId) {
    forall t :: t in db.txns ==> page !in db.txns[t].writes
  }

  /** Whatever else commits, aborts or reopens, a page nobody touches stays as it was. */
  lemma {:induction false} UntouchedPageStays(db: Db, es: seq<Event>, page: PageId)
    requires Run(db, es, true) && WrittenByNone(db, page)
    requires forall i :: 0 <= i < |es| ==> !Touches(es[i], page)
    ensures page in After(db, es, true).active <==> page in db.active
    decreases |es|
  {
    if es != [] {
      assert !Touches(es[0], page);
      UntouchedPageStays(Next(db, es[0], true), es[1..], page);
    }
  }

  /** A page a retry submits is active until somebody makes it terminal. */
  lemma ReopenedPageStaysActive(db: Db, pages: set<PageId>, es: seq<Event>, page: PageId)
    requires Enabled(db, Reopen(pages), true) && page in pages && Run(Next(db, Reopen(pages), true), es, true)
    requires forall i :: 0 <= i < |es| ==> !Touches(es[i], page)
    ensures page in After(Next(db, Reopen(pages), true), es, true).active
  {
    UntouchedPageStays(Next(db, Reopen(pages), true), es, page);
  }

  /** One transaction for one page, with nobody else: it takes exactly its page off the active ones, and
      finishes the batch if and only if that was the last. */
  lemma PageByPage(db: Db, t: TxnId, page: PageId)
    requires Inv(db) && db.txns == map[] && db.lock == {} && page in db.active
    ensures var es := [Begin(t), MakeTerminal(t, page), Lock(t), Finish(t), Commit(t)];
      && Run(db, es, true)
      && After(db, es, true) == Db(db.active - {page}, db.active == {page}, map[], {})
  {
    var d1 := Next(db, Begin(t), true);
    assert d1 == Db(db.active, false, map[t := Txn(Open, {}, false)], {});
    var d2 := Next(d1, MakeTerminal(t, page), true);
    assert {} + {page} == {page};
    assert d2 == Db(db.active, false, map[t := Txn(Open, {page}, false)], {});
    var d3 := Next(d2, Lock(t), true);
    assert d3 == Db(db.active, false, map[t := Txn(Locked, {page}, false)], {t});
    var d4 := Next(d3, Finish(t), true);
    assert SeenActive(d3, t) == db.active - {page};
    assert d4 == Db(db.active, false, map[t := Txn(Checked, {page}, db.active - {page} == {})], {t});
    var d5 := Next(d4, Commit(t), true);
    assert db.active - {page} == {} <==> db.active == {page};
    assert d5 == Db(db.active - {page}, db.active == {page}, map[], {});
    RunFive(db, Begin(t), MakeTerminal(t, page), Lock(t), Finish(t), Commit(t));
  }

  lemma RunFive(db: Db, a: Event, b: Event, c: Event, d: Event, e: Event)
    requires Enabled(db, a, true)
    requires Enabled(Next(db, a, true), b, true)
    requires Enabled(Next(Next(db, a, true), b, true), c, true)
    requires Enabled(Next(Next(Next(db, a, true), b, true), c, true), d, true)
    requires Enabled(Next(Next(Next(Next(db, a, true), b, true), c, true), d, true), e, true)
    ensures var d4 := Next(Next(Next(Next(db, a, true), b, true), c, true), d, true);
      Run(db, [a, b, c, d, e], true) && After(db, [a, b, c, d, e], true) == Next(d4, e, true)
  {
    var d1 := Next(db, a, true);
    var d2 := Next(d1, b, true);
    var d3 := Next(d2, c, true);
    var d4 := Next(d3, d, true);
    var d5 := Next(d4, e, true);
    assert [e][1..] == [] && [d, e][1..] == [e] && [c, d, e][1..] == [d, e];
    assert [b, c, d, e][1..] == [c, d, e] && [a, b, c, d, e][1..] == [b, c, d, e];
    assert Run(d5, [], true) && After(d5, [], true) == d5;
    assert Run(d4, [e], true) && After(d4, [e], true) == d5;
    assert Run(d3, [d, e], true) && After(d3, [d, e], true) == d5;
    assert Run(d2, [c, d, e], true) && After(d2, [c, d, e], true) == d5;
    assert Run(d1, [b, c, d, e], true) && After(d1, [b, c, d, e], true) == d5;
  }

  /** The lock never wedges: while transactions are live, one of them can take its next step. */
  lemma SomeoneCanMove(db: Db) returns (e: Event)
    requires Inv(db) && db.txns != map[]
    ensures Enabled(db, e, true) && (e.Lock? || e.Finish? || e.Commit?)
  {
    if t :| t in db.lock {
      e := if db.txns[t].phase.Locked? then Finish(t) else Commit(t);
    } else {
      assert exists t :: t in db.txns;
      var t :| t in db.txns;
      e := Lock(t);
    }
  }

  lemma {:induction false} RunConcat(db: Db, a: seq<Event>, b: seq<Event>, locking: bool)
    requires Run(db, a, locking) && Run(After(db, a, locking), b, locking)
    ensures Run(db, a + b, locking) && After(db, a + b, locking) == After(After(db, a, locking), b, locking)
    decreases |a|
  {
    if a == [] {
      assert a + b == b;
    } else {
      assert (a + b)[0] == a[0] && (a + b)[1..] == a[1..] + b;
      RunConcat(Next(db, a[0], locking), a[1..], b, locking);
    }
  }

  lemma RunTwo(db: Db, e: Event, f: Event)
    requires Enabled(db, e, false) && Enabled(Next(db, e, false), f, false)
    ensures Run(db, [e, f], false) && After(db, [e, f], false) == Next(Next(db, e, false), f, false)
  {
    var mid, end := Next(db, e, false), Next(Next(db, e, false), f, false);
    assert [f][1..] == [] && [e, f][1..] == [f];
    assert Run(end, [], false) && After(end, [], false) == end;
    assert Run(mid, [f], false) && After(mid, [f], false) == After(end, [], false);
  }

  /** Two open transactions and their pages. */
  function Pair(active: set<PageId>, t: TxnId, x: Txn, u: TxnId, y: Txn): Db {
    Db(active, false, map[t := x, u := y], {})
  }

  lemma BothBegin(db: Db, t: TxnId, u: TxnId)
    requires Start(db) && t != u
    ensures var es := [Begin(t), Begin(u)];
      Run(db, es, false) && After(db, es, false) == Pair(db.active, t, Txn(Open, {}, false), u, Txn(Open, {}, false))
  {
    RunTwo(db, Begin(t), Begin(u));
  }

  lemma BothUpdate(active: set<PageId>, p: PageId, q: PageId, t: TxnId, u: TxnId)
    requires t != u && p != q && p in active && q in active
    ensures var es := [MakeTerminal(t, p), MakeTerminal(u, q)];
      var db := Pair(active, t, Txn(Open, {}, false), u, Txn(Open, {}, false));
      Run(db, es, false) && After(db, es, false) == Pair(active, t, Txn(Open, {p}, false), u, Txn(Open, {q}, false))
  {
    var db := Pair(active, t, Txn(Open, {}, false), u, Txn(Open, {}, false));
    var mid := Next(db, MakeTerminal(t, p), false);
    assert {} + {p} == {p} && {} + {q} == {q};
    assert mid.txns == Pair(active, t, Txn(Open, {p}, false), u, Txn(Open, {}, false)).txns;
    assert mid == Pair(active, t, Txn(Open, {p}, false), u, Txn(Open, {}, false));
    RunTwo(db, MakeTerminal(t, p), MakeTerminal(u, q));
  }

  lemma BothCheck(active: set<PageId>, p: PageId, q: PageId, t: TxnId, u: TxnId)
    requires t != u && p != q && p in active && q in active
    ensures var es := [Finish(t), Finish(u)];
      var db := Pair(active, t, Txn(Open, {p}, false), u, Txn(Open, {q}, false));
      Run(db, es, false) && After(db, es, false) ==
        Pair(active, t, Txn(Checked, {p}, false), u, Txn(Checked, {q}, false))
  {
    var db := Pair(active, t, Txn(Open, {p}, false), u, Txn(Open, {q}, false));
    assert q in SeenActive(db, t);
    var mid := Next(db, Finish(t), false);
    assert p in SeenActive(mid, u);
    RunTwo(db, Finish(t), Finish(u));
  }

  lemma BothCommit(active: set<PageId>, p: PageId, q: PageId, t: TxnId, u: TxnId)
    requires t != u && active == {p, q}
    ensures var es := [Commit(t), Commit(u)];
      var db := Pair(active, t, Txn(Checked, {p}, false), u, Txn(Checked, {q}, false));
      Run(db, es, false) && After(db, es, false) == Db({}, false, map[], {})
  {
    var db := Pair(active, t, Txn(Checked, {p}, false), u, Txn(Checked, {q}, false));
    var mid := Next(db, Commit(t), false);
    assert mid.txns == map[u := Txn(Checked, {q}, false)];
    assert active - {p} - {q} == {};
    RunTwo(db, Commit(t), Commit(u));
  }

  /** Without the lock two transactions that finish the last two pages at once each still see the
      other's page active. Both commit, no page is left, and the batch is never finished. */
  lemma WithoutLockTheBatchStalls(db: Db, p: PageId, q: PageId, t: TxnId, u: TxnId) returns (es: seq<Event>)
    requires Start(db) && db.active == {p, q} && p != q && t != u
    ensures Run(db, es, false) && After(db, es, false) == Db({}, false, map[], {})
  {
    var begin, update := [Begin(t), Begin(u)], [MakeTerminal(t, p), MakeTerminal(u, q)];
    var check, commit := [Finish(t), Finish(u)], [Commit(t), Commit(u)];
    BothBegin(db, t, u);
    BothUpdate(db.active, p, q, t, u);
    BothCheck(db.active, p, q, t, u);
    BothCommit(db.active, p, q, t, u);
    RunConcat(db, begin, update, false);
    RunConcat(db, begin + update, check, false);
    RunConcat(db, begin + update + check, commit, false);
    es := begin + update + check + commit;
  }

  /** The safety net finishes exactly the batches left behind like that. */
  lemma SafetyNetFinishes(db: Db)
    requires db.txns == map[] && db.lock == {} && (db.finished ==> db.active == {})
    ensures Enabled(db, FinishStalled, true) && Inv(Next(db, FinishStalled, true))
  {
  }
}
