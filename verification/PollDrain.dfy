/** The poller's sliding window of status checks (app/workers/poller/steps.py, drain_poll_queue).

    A check is known by the position of its job in the due list. Which active checks complete at
    each wait and in what order their results are read is left open, so what is proved holds for
    every completion order. */
module PollDrain {
  import opened Wrappers
  import opened RedisKeys

  /** What a check returned, as handed to `process`. */
  datatype Report<T> = Report(check: nat, outcome: T)

  /** One wait: the checks active in it, those that completed, how many due jobs were not started
      yet, and whether the stop event had been seen. */
  datatype Wait = Wait(active: set<nat>, completed: set<nat>, unstarted: nat, stopped: bool)

  datatype End = BadConcurrency | Drained | Cancelled(wait: nat) | Raised(batch: nat)

  /** The first `started` checks, each either active or completed. */
  ghost predicate Window(started: nat, active: set<nat>, completed: set<nat>) {
    && active !! completed
    && (forall i: nat :: i in active || i in completed ==> i < started)
    && (forall i: nat :: i < started && i !in active ==> i in completed)
  }

  /** Everything handed over, with how often. */
  ghost function HandedOver<T>(batches: seq<seq<Report<T>>>): multiset<Report<T>> {
    if batches == [] then multiset{}
    else HandedOver(batches[..|batches| - 1]) + multiset(batches[|batches| - 1])
  }

  /** Never more than `concurrency` active; until stopped, the window is full or the list used up;
      and each wait ends with a completion. */
  predicate GoodWait(w: Wait, concurrency: int) {
    && w.completed != {} && w.completed <= w.active
    && |w.active| <= concurrency
    && (!w.stopped ==> |w.active| == concurrency || w.unstarted == 0)
  }

  /** The report of a check is there once if the check completed and returned, and not otherwise. */
  ghost predicate ReportedOnce<T(!new)>(reports: multiset<Report<T>>, completed: set<nat>, check: nat -> Option<T>) {
    forall r: Report<T> :: reports[r] == if r.check in completed && check(r.check) == Some(r.outcome) then 1 else 0
  }

  /** Every completion happened in exactly one of the waits: they partition the completed checks. */
  ghost predicate CompletedIn(waits: seq<Wait>, completed: set<nat>)
    decreases |waits|
  {
    if waits == [] then completed == {}
    else
      var last := waits[|waits| - 1];
      last.completed <= completed && CompletedIn(waits[..|waits| - 1], completed - last.completed)
  }

  lemma CompletedInOneMore(waits: seq<Wait>, completed: set<nat>, w: Wait)
    requires CompletedIn(waits, completed) && w.completed !! completed
    ensures CompletedIn(waits + [w], completed + w.completed)
  {
    assert (waits + [w])[..|waits|] == waits && completed + w.completed - w.completed == completed;
  }

  lemma WindowMoves(started: nat, active: set<nat>, completed: set<nat>, now: set<nat>)
    requires Window(started, active, completed) && now <= active
    ensures Window(started, active - now, completed + now)
  {
  }

  lemma ReportedOneMore<T(!new)>(batches: seq<seq<Report<T>>>, completed: set<nat>, statuses: seq<Report<T>>,
                                 now: set<nat>, check: nat -> Option<T>)
    requires ReportedOnce(HandedOver(batches), completed, check) && now !! completed
    requires ReportedOnce(multiset(statuses), now, check)
    ensures ReportedOnce(HandedOver(batches) + multiset(statuses), completed + now, check)
    ensures HandedOver(batches + [statuses]) == HandedOver(batches) + multiset(statuses)
  {
    assert (batches + [statuses])[..|batches|] == batches;
  }

  /** Starts checks until the window is full, the list is used up or the stop event is set. */
  method FillSlots(due: nat, concurrency: int, stopped: bool, active: set<nat>, started: nat, ghost completed: set<nat>)
    returns (active': set<nat>, started': nat)
    requires started <= due && Window(started, active, completed) && |active| <= concurrency
    ensures started <= started' <= due && Window(started', active', completed)
    ensures |active'| <= concurrency && |active'| - started' == |active| - started
    ensures if stopped then started' == started else |active'| == concurrency || started' == due
  {
    active', started' := active, started;
    while |active'| < concurrency && !stopped
      invariant started <= started' <= due && Window(started', active', completed)
      invariant |active'| <= concurrency && |active'| - started' == |active| - started
      invariant stopped ==> started' == started
      decreases due - started'
    {
      if started' == due {
        return;
      }
      assert started' !in active';
      active', started' := active' + {started'}, started' + 1;
    }
  }

  /** The outcomes of finished checks, in any order; a check that raised is left out. */
  method CompletedChecks<T(!new)>(completed: set<nat>, check: nat -> Option<T>) returns (statuses: seq<Report<T>>)
    ensures ReportedOnce(multiset(statuses), completed, check)
  {
    statuses := [];
    var left := completed;
    while left != {}
      invariant left <= completed
      invariant ReportedOnce(multiset(statuses), completed - left, check)
    {
      var i :| i in left;
      left := left - {i};
      if check(i).Some? {
        statuses := statuses + [Report(i, check(i).value)];
      }
    }
    assert completed - left == completed;
  }

  /** What a drain did so far: its waits, the batches it handed over and the checks that completed. */
  datatype Log<T> = Log(waits: seq<Wait>, batches: seq<seq<Report<T>>>, completed: set<nat>)

  /** Every wait is good, every completion happened in one wait, and its outcome is handed over once. */
  ghost predicate Consistent<T(!new)>(log: Log<T>, concurrency: int, check: nat -> Option<T>) {
    && WaitsGood(log.waits, concurrency) && CompletedIn(log.waits, log.completed)
    && ReportedOnce(HandedOver(log.batches), log.completed, check) && NoneEmpty(log.batches)
  }

  function Logged<T>(log: Log<T>, wait: Wait, statuses: seq<Report<T>>): Log<T> {
    Log(log.waits + [wait],
        if |statuses| == 0 then log.batches else log.batches + [statuses],
        log.completed + wait.completed)
  }

  ghost predicate WaitsGood(waits: seq<Wait>, concurrency: int) {
    forall k :: 0 <= k < |waits| ==> GoodWait(waits[k], concurrency)
  }

  ghost predicate NoneEmpty<T>(batches: seq<seq<Report<T>>>) {
    forall k :: 0 <= k < |batches| ==> |batches[k]| > 0
  }

  lemma BatchesLogged<T(!new)>(log: Log<T>, wait: Wait, statuses: seq<Report<T>>, check: nat -> Option<T>)
    requires ReportedOnce(HandedOver(log.batches), log.completed, check) && NoneEmpty(log.batches)
    requires wait.completed !! log.completed && ReportedOnce(multiset(statuses), wait.completed, check)
    ensures var log' := Logged(log, wait, statuses);
      ReportedOnce(HandedOver(log'.batches), log'.completed, check) && NoneEmpty(log'.batches)
  {
    ReportedOneMore(log.batches, log.completed, statuses, wait.completed, check);
    if |statuses| == 0 {
      assert HandedOver(log.batches) + multiset(statuses) == HandedOver(log.batches);
    }
  }

  lemma LoggedConsistent<T(!new)>(log: Log<T>, wait: Wait, statuses: seq<Report<T>>, concurrency: int,
                                  check: nat -> Option<T>)
    requires Consistent(log, concurrency, check) && GoodWait(wait, concurrency) && wait.completed !! log.completed
    requires ReportedOnce(multiset(statuses), wait.completed, check)
    ensures Consistent(Logged(log, wait, statuses), concurrency, check)
  {
    CompletedInOneMore(log.waits, log.completed, wait);
    BatchesLogged(log, wait, statuses, check);
  }

  /** One wait for the active checks: at least one completes, whichever they are. */
  method AwaitFirst<T(!new)>(active: set<nat>, ghost started: nat, unstarted: nat, stopped: bool, concurrency: int,
                             check: nat -> Option<T>, log: Log<T>)
    returns (active': set<nat>, log': Log<T>)
    requires Consistent(log, concurrency, check) && Window(started, active, log.completed) && active != {}
    requires |active| <= concurrency && (!stopped ==> |active| == concurrency || unstarted == 0)
    ensures Window(started, active', log'.completed) && Consistent(log', concurrency, check)
    ensures active' < active && |active'| < |active|
    ensures |log'.waits| == |log.waits| + 1
    ensures |log.batches| <= |log'.batches| <= |log.batches| + 1
  {
    var done: set<nat> :| done <= active && done != {};
    SomeLeft(active, done);
    WindowMoves(started, active, log.completed, done);
    active' := active - done;
    var wait := Wait(active, done, unstarted, stopped);
    var statuses := CompletedChecks(done, check);
    LoggedConsistent(log, wait, statuses, concurrency, check);
    log' := Logged(log, wait, statuses);
  }

  /** What goes on around a drain: whether the stop event is set at the n-th filling of the window,
      the caller is cancelled in the n-th wait, and handing over the n-th batch raises. */
  datatype World = World(stopSet: nat -> bool, cancels: nat -> bool, raises: nat -> bool) {
    /** The stop event is set at the n-th filling or was at an earlier one. */
    predicate StopSeen(n: nat) { stopSet(n) || (n > 0 && StopSeen(n - 1)) }
  }

  /** Where a drain stands: its window, the number of jobs started, whether it saw the stop event,
      and what it did so far. */
  datatype Drain<T> = Drain(active: set<nat>, started: nat, stopped: bool, log: Log<T>)

  ghost predicate Going<T(!new)>(d: Drain<T>, due: nat, concurrency: int, check: nat -> Option<T>, world: World) {
    && d.started <= due && Window(d.started, d.active, d.log.completed)
    && |d.active| <= concurrency && (!d.stopped ==> |d.active| == concurrency || d.started == due)
    && d.stopped == world.StopSeen(|d.log.waits|)
    && Consistent(d.log, concurrency, check)
  }

  /** The first filling of the window. */
  method FirstFill<T(!new)>(due: nat, concurrency: int, check: nat -> Option<T>, world: World) returns (d: Drain<T>)
    requires concurrency >= 1
    ensures Going(d, due, concurrency, check, world) && |d.log.waits| == |d.log.batches| == 0
  {
    var stopped := world.stopSet(0);
    var active, started := FillSlots(due, concurrency, stopped, {}, 0, {});
    d := Drain(active, started, stopped, Log([], [], {}));
  }

  /** One pass of the loop: wait, then fill the window again. */
  method Pass<T(!new)>(d: Drain<T>, due: nat, concurrency: int, check: nat -> Option<T>, world: World)
    returns (d': Drain<T>)
    requires Going(d, due, concurrency, check, world) && d.active != {}
    ensures Going(d', due, concurrency, check, world)
    ensures due - d'.started + |d'.active| < due - d.started + |d.active|
    ensures |d.log.batches| <= |d'.log.batches| <= |d.log.batches| + 1
    ensures |d'.log.waits| == |d.log.waits| + 1
  {
    var active, log := AwaitFirst(d.active, d.started, due - d.started, d.stopped, concurrency, check, d.log);
    var stopped := d.stopped || world.stopSet(|log.waits|);
    var started;
    active, started := FillSlots(due, concurrency, stopped, active, d.started, log.completed);
    d' := Drain(active, started, stopped, log);
  }

  /** So many waits and batches, and none of them was cancelled or raised. */
  ghost predicate NoneYet(world: World, waits: nat, batches: nat) {
    (forall n: nat :: n < waits ==> !world.cancels(n)) && (forall n: nat :: n < batches ==> !world.raises(n))
  }

  /** The first cancellation or raising batch, if any, ended the drain. */
  ghost predicate EndedBy(world: World, waits: nat, batches: nat, end: End) {
    match end
    case BadConcurrency => waits == batches == 0
    case Drained => NoneYet(world, waits, batches)
    case Cancelled(n) => n == waits && world.cancels(n) && NoneYet(world, waits, batches)
    case Raised(n) => n + 1 == batches && world.raises(n) && NoneYet(world, waits, n)
  }

  /** The loop's body, with what ends the loop. */
  method Turn<T(!new)>(d: Drain<T>, due: nat, concurrency: int, check: nat -> Option<T>, world: World)
    returns (d': Drain<T>, end: End)
    requires Going(d, due, concurrency, check, world) && d.active != {}
    requires EndedBy(world, |d.log.waits|, |d.log.batches|, Drained)
    ensures Going(d', due, concurrency, check, world)
    ensures EndedBy(world, |d'.log.waits|, |d'.log.batches|, end) && !end.BadConcurrency?
    ensures end.Drained? ==> due - d'.started + |d'.active| < due - d.started + |d.active|
  {
    if world.cancels(|d.log.waits|) {
      return d, Cancelled(|d.log.waits|);
    }
    var handed := |d.log.batches|;
    d' := Pass(d, due, concurrency, check, world);
    end := if |d'.log.batches| > handed && world.raises(handed) then Raised(handed) else Drained;
  }

  method DrainPollQueue<T(!new)>(due: seq<JobId>, concurrency: int, check: nat -> Option<T>, world: World)
    returns (end: End, started: nat, stopped: bool, log: Log<T>, cancelled: set<nat>)
    ensures end.BadConcurrency? <==> concurrency < 1
    ensures end.BadConcurrency? ==> started == 0
    // the started jobs are the first of the list, all of it unless stopped or interrupted
    ensures started <= |due|
    ensures end.Drained? && !stopped ==> started == |due|
    ensures !end.BadConcurrency? ==> stopped == world.StopSeen(|log.waits|)
    // the first wait that is cancelled or batch that raises ends it, and a drained call saw neither
    ensures EndedBy(world, |log.waits|, |log.batches|, end)
    // no check outlives the call: each completed in one wait or was cancelled
    ensures Window(started, cancelled, log.completed) && Consistent(log, concurrency, check)
    ensures end.BadConcurrency? || end.Drained? ==> cancelled == {}
  {
    if concurrency < 1 {
      return BadConcurrency, 0, false, Log([], [], {}), {};
    }
    var d := FirstFill(|due|, concurrency, check, world);
    end := Drained;
    while d.active != {} && end.Drained?
      invariant Going(d, |due|, concurrency, check, world) && !end.BadConcurrency?
      invariant EndedBy(world, |d.log.waits|, |d.log.batches|, end)
      decreases end.Drained?, |due| - d.started + |d.active|
    {
      d, end := Turn(d, |due|, concurrency, check, world);
    }
    started, stopped, log, cancelled := d.started, d.stopped, d.log, d.active;
  }

  lemma SomeLeft(active: set<nat>, now: set<nat>)
    requires now <= active && now != {}
    ensures |active - now| < |active|
  {
  }
}
