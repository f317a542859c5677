/**
 The Scheduler's ticks over the box it reconciles, with failing docker calls, scheduler restarts
 and engines started or stopped by someone else. The promise: a running engine is stopped only
 outside the windows, after its gate has been closed for the whole drain time.
 */
module Scheduler {
  import opened Wrappers
  import opened Schedule

  /** `up` is is_up over the configured windows. Only the scheduler moves the gate. */
  datatype Config = Config(drain: int, stopTunnel: bool, up: Time -> bool)

  /** What a tick meets: which docker or file call raises, and what it finds or leaves behind. */
  datatype Faults = Faults(
    psFails: bool,          // listing the engine's containers raises
    absent: bool,           // no box container exists
    gateFails: bool,        // writing or removing the flag file raises
    flagLeft: bool,         // a write that raises created the flag file first, as on a full disk
    tunnelRunning: bool,
    tunnelPsFails: bool,    // listing the tunnel's containers raises
    dockerFails: bool,      // docker start or docker stop raises
    engineAfter: bool)      // whether the engine runs after docker start, or after a failed call

  /** The box as a tick observes it, and the scheduler's own memory. */
  datatype Box = Box(closed: bool, engine: bool, deadline: Option<Time>, acted: Action)

  function PlanFor(cfg: Config, box: Box, now: Time): Plan {
    PlanTick(cfg.up(now), box.closed, box.engine, box.deadline, now, cfg.drain)
  }

  /** The tick runs docker stop, on the engine if it is running. */
  predicate ReachesStop(cfg: Config, box: Box, now: Time, f: Faults) {
    var action := PlanFor(cfg, box, now).action;
    && !f.psFails && (action.StopEngine? || action.CloseStop?) && !f.gateFails
    && !(cfg.stopTunnel && f.tunnelPsFails)
    && (box.engine || (cfg.stopTunnel && f.tunnelRunning))
  }

  function Tick(cfg: Config, box: Box, now: Time, f: Faults): Box {
    var p := PlanFor(cfg, box, now);
    if f.psFails then box.(acted := Nothing)
    else if p.action.Start? then
      if f.absent then box.(acted := Nothing)
      else if f.gateFails then box.(acted := Start)
      else Box(false, f.engineAfter, if f.dockerFails then box.deadline else None, Start)
    else if p.action.Close? then
      if f.gateFails then box.(closed := box.closed || f.flagLeft, acted := Close)
      else Box(true, box.engine, p.deadline, Close)
    else if p.action.StopEngine? || p.action.CloseStop? then
      if f.gateFails then box.(closed := box.closed || f.flagLeft, acted := p.action)
      else if cfg.stopTunnel && f.tunnelPsFails then box.(closed := true, acted := p.action)
      else if ReachesStop(cfg, box, now, f) && f.dockerFails then
        box.(closed := true, engine := box.engine && f.engineAfter, acted := p.action)
      else Box(true, false, None, p.action)
    else box.(acted := p.action)
  }

  /** Scheduler.tick and its _start, _close and _stop, call by call. */
  class Reconciler {
    const cfg: Config
    var closed: bool
    var engine: bool
    var deadline: Option<Time>
    var acted: Action

    ghost function AsBox(): Box
      reads this
    {
      Box(closed, engine, deadline, acted)
    }

    constructor (cfg: Config, closed: bool, engine: bool)
      ensures this.cfg == cfg && AsBox() == Box(closed, engine, None, Nothing)
    {
      this.cfg, this.closed, this.engine := cfg, closed, engine;
      deadline, acted := None, Nothing;
    }

    method Run(now: Time, f: Faults)
      modifies this
      ensures AsBox() == Tick(cfg, old(AsBox()), now, f)
      ensures var plan := PlanTick(cfg.up(now), old(closed), old(engine), old(deadline), now, cfg.drain);
        acted == if f.psFails || (plan.action.Start? && f.absent) then Nothing else plan.action
    {
      acted := Nothing;
      if f.psFails { return; }
      var decision := PlanTick(cfg.up(now), closed, engine, deadline, now, cfg.drain);
      acted := decision.action;
      match decision.action
      case Start => StartBox(f);
      case Close => CloseGate(decision, f);
      case StopEngine => Stop(f);
      case CloseStop => Stop(f);
      case Wait =>
      case Nothing =>
    }

    method StartBox(f: Faults)
      modifies this
      ensures acted == if f.absent then Nothing else old(acted)
      ensures if f.absent || f.gateFails
        then closed == old(closed) && engine == old(engine) && deadline == old(deadline)
        else !closed && engine == f.engineAfter && deadline == (if f.dockerFails then old(deadline) else None)
    {
      if f.absent { acted := Nothing; return; }
      if f.gateFails { return; }
      closed := false;
      engine := f.engineAfter;
      if f.dockerFails { return; }
      deadline := None;
    }

    /** Gate.close: opening the file creates it, and the write after that may raise. */
    method WriteFlag(f: Faults)
      modifies this`closed
      ensures closed == (old(closed) || !f.gateFails || f.flagLeft)
    {
      if !f.gateFails || f.flagLeft { closed := true; }
    }

    method CloseGate(decision: Plan, f: Faults)
      modifies this`closed, this`deadline
      ensures closed == (old(closed) || !f.gateFails || f.flagLeft)
      ensures deadline == if f.gateFails then old(deadline) else decision.deadline
    {
      WriteFlag(f);
      if f.gateFails { return; }
      deadline := decision.deadline;
    }

    method Stop(f: Faults)
      modifies this`closed, this`engine, this`deadline
      ensures f.gateFails ==>
        closed == (old(closed) || f.flagLeft) && engine == old(engine) && deadline == old(deadline)
      ensures !f.gateFails && cfg.stopTunnel && f.tunnelPsFails ==>
        closed && engine == old(engine) && deadline == old(deadline)
      ensures !f.gateFails && !(cfg.stopTunnel && f.tunnelPsFails) ==>
        var toStop := old(engine) || (cfg.stopTunnel && f.tunnelRunning);
        && closed
        && (if toStop && f.dockerFails then engine == (old(engine) && f.engineAfter) && deadline == old(deadline)
            else !engine && deadline == None)
    {
      WriteFlag(f);
      if f.gateFails { return; }
      var toStop := engine;
      if cfg.stopTunnel {
        if f.tunnelPsFails { return; }
        toStop := toStop || f.tunnelRunning;
      }
      if toStop {
        if f.dockerFails {
          engine := engine && f.engineAfter;
          return;
        }
        engine := false;
      }
      deadline := None;
    }
  }

  // ------------------------------------------------------------------ runs

  /** The box over time: when the last event was, and since when the gate has been closed. */
  datatype World = World(box: Box, clock: Time, closedSince: Time)

  datatype Event =
    | TickAt(now: Time, faults: Faults)
    | Restart                          // a new scheduler process: the deadline is forgotten
    | EngineIs(running: bool)          // someone starts the engine, or it stops by itself

  predicate Enabled(w: World, e: Event) {
    e.TickAt? ==> w.clock <= e.now
  }

  function Next(cfg: Config, w: World, e: Event): World {
    match e
    case TickAt(now, f) =>
      var box := Tick(cfg, w.box, now, f);
      World(box, now, if box.closed && !w.box.closed then now else w.closedSince)
    case Restart => w.(box := w.box.(deadline := None, acted := Nothing))
    case EngineIs(running) => w.(box := w.box.(engine := running))
  }

  /** A fresh scheduler on any box; a gate found closed counts as closed from then on. */
  predicate Fresh(w: World) {
    w.box.deadline.None? && w.closedSince <= w.clock
  }

  /** What the event promises if it stops a running engine. */
  predicate StopIsSafe(cfg: Config, w: World, e: Event) {
    e.TickAt? && w.box.engine && ReachesStop(cfg, w.box, e.now, e.faults) ==>
      !cfg.up(e.now) && w.box.closed && w.closedSince + cfg.drain <= e.now
  }

  ghost predicate Run(cfg: Config, w: World, es: seq<Event>)
    decreases |es|
  {
    es == [] || (Enabled(w, es[0]) && Run(cfg, Next(cfg, w, es[0]), es[1..]))
  }

  ghost predicate AllStopsSafe(cfg: Config, w: World, es: seq<Event>)
    decreases |es|
  {
    es == [] || (StopIsSafe(cfg, w, es[0]) && AllStopsSafe(cfg, Next(cfg, w, es[0]), es[1..]))
  }

  ghost predicate UpBetween(cfg: Config, from: Time, to: Time) {
    exists u :: from <= u <= to && cfg.up(u)
  }

  /** A down time, then an up time, then a down time at least the drain after the first. */
  ghost predicate DownUpDown(cfg: Config) {
    exists c, t :: !cfg.up(c) && !cfg.up(t) && c + cfg.drain <= t && UpBetween(cfg, c, t)
  }

  /** In this event no write that raised had created the flag. */
  predicate WritesClean(e: Event) {
    e.TickAt? && e.faults.gateFails ==> !e.faults.flagLeft
  }

  ghost predicate AllWritesClean(es: seq<Event>) {
    forall i :: 0 <= i < |es| ==> WritesClean(es[i])
  }

  /** Whether the gate can close without a new deadline while an old one is kept: a write that raises
      creates the flag, or a stop that closed the gate fails at the tunnel. */
  predicate KeepsOldDeadline(cfg: Config, clean: bool) {
    !clean || cfg.stopTunnel
  }

  /** A deadline was set at a down time c, the drain before it. If the gate was opened since then,
      there was an up time in between, and it closed again without a new deadline. */
  ghost predicate Inv(cfg: Config, clean: bool, w: World) {
    && w.closedSince <= w.clock
    && (w.box.deadline.Some? ==>
      var c := w.box.deadline.value - cfg.drain;
      && !cfg.up(c) && c <= w.clock
      && (if w.box.closed
          then w.closedSince <= c || (KeepsOldDeadline(cfg, clean) && UpBetween(cfg, c, w.closedSince))
          else UpBetween(cfg, c, w.clock)))
  }

  lemma EventKeepsInv(cfg: Config, clean: bool, w: World, e: Event)
    requires cfg.drain > 0 && Inv(cfg, clean, w) && Enabled(w, e) && (clean ==> WritesClean(e))
    ensures Inv(cfg, clean, Next(cfg, w, e))
  {
    var w' := Next(cfg, w, e);
    if e.TickAt? && w.box.deadline.Some? {
      var c := w.box.deadline.value - cfg.drain;
      assert UpBetween(cfg, c, w.clock) ==> UpBetween(cfg, c, e.now);
      assert cfg.up(e.now) ==> UpBetween(cfg, c, e.now);
    }
  }

  lemma StopSafeUnless(cfg: Config, clean: bool, w: World, e: Event)
    requires cfg.drain > 0 && Inv(cfg, clean, w) && Enabled(w, e)
    requires !(KeepsOldDeadline(cfg, clean) && DownUpDown(cfg))
    ensures StopIsSafe(cfg, w, e)
  {
    if e.TickAt? && w.box.engine && ReachesStop(cfg, w.box, e.now, e.faults) {
      var c := w.box.deadline.value - cfg.drain;
      assert UpBetween(cfg, c, w.closedSince) ==> UpBetween(cfg, c, e.now);
    }
  }

  lemma {:induction false} RunsAreSafe(cfg: Config, clean: bool, w: World, es: seq<Event>)
    requires cfg.drain > 0 && Inv(cfg, clean, w) && Run(cfg, w, es) && (clean ==> AllWritesClean(es))
    requires !(KeepsOldDeadline(cfg, clean) && DownUpDown(cfg))
    ensures AllStopsSafe(cfg, w, es)
    decreases |es|
  {
    if es != [] {
      StopSafeUnless(cfg, clean, w, es[0]);
      EventKeepsInv(cfg, clean, w, es[0]);
      RunsAreSafe(cfg, clean, Next(cfg, w, es[0]), es[1..]);
    }
  }

  // ------------------------------------------------------------------ exactly when the promise holds

  const NO_FAULTS := Faults(false, false, false, false, false, false, false, true)

  lemma Prefixed(cfg: Config, w: World, es: seq<Event>, i: nat)
    requires i < |es| && Enabled(w, es[i])
    ensures Run(cfg, w, es[i..]) <==> Run(cfg, Next(cfg, w, es[i]), es[i + 1..])
    ensures AllStopsSafe(cfg, w, es[i..]) <==>
      StopIsSafe(cfg, w, es[i]) && AllStopsSafe(cfg, Next(cfg, w, es[i]), es[i + 1..])
  {
  }

  /** The gate closes at c. In the window at u docker start fails, so the gate is open and the old
      deadline stays. At t writing the flag creates it and raises, so the gate is closed under the
      old deadline, and the next tick stops the engine at once. */
  function FlagLeftRun(c: Time, u: Time, t: Time): seq<Event> {
    [TickAt(c, NO_FAULTS), TickAt(u, NO_FAULTS.(dockerFails := true)),
     TickAt(t, NO_FAULTS.(gateFails := true, flagLeft := true)), TickAt(t, NO_FAULTS)]
  }

  lemma FlagLeftStopsEarly(cfg: Config, c: Time, u: Time, t: Time)
    requires cfg.drain > 0 && c <= u <= t && c + cfg.drain <= t
    requires !cfg.up(c) && cfg.up(u) && !cfg.up(t)
    ensures var w := World(Box(false, true, None, Nothing), c, c);
      Fresh(w) && Run(cfg, w, FlagLeftRun(c, u, t)) && !AllStopsSafe(cfg, w, FlagLeftRun(c, u, t))
  {
    var es := FlagLeftRun(c, u, t);
    var w0 := World(Box(false, true, None, Nothing), c, c);
    var w1 := Next(cfg, w0, es[0]);
    assert w1 == World(Box(true, true, Some(c + cfg.drain), Close), c, c);
    var w2 := Next(cfg, w1, es[1]);
    assert w2 == World(Box(false, true, Some(c + cfg.drain), Start), u, c);
    var w3 := Next(cfg, w2, es[2]);
    assert w3 == World(Box(true, true, Some(c + cfg.drain), Close), t, t);
    assert !StopIsSafe(cfg, w3, es[3]);
    Prefixed(cfg, w3, es, 3);
    Prefixed(cfg, w2, es, 2);
    Prefixed(cfg, w1, es, 1);
    Prefixed(cfg, w0, es, 0);
    assert es[0..] == es;
  }

  /** The same with clean writes, when the tunnel is stopped too: at the next window end the engine is
      off, and listing the tunnel fails after the gate closed, so the old deadline stays again; then
      someone starts the engine, and the next tick stops it at once. */
  function StaleDeadlineRun(c: Time, u: Time, t: Time): seq<Event> {
    [TickAt(c, NO_FAULTS), TickAt(u, NO_FAULTS.(dockerFails := true)), EngineIs(false),
     TickAt(t, NO_FAULTS.(tunnelPsFails := true)), EngineIs(true), TickAt(t, NO_FAULTS)]
  }

  lemma StaleDeadlineStopsEarly(cfg: Config, c: Time, u: Time, t: Time)
    requires cfg.drain > 0 && cfg.stopTunnel && c <= u <= t && c + cfg.drain <= t
    requires !cfg.up(c) && cfg.up(u) && !cfg.up(t)
    ensures var w := World(Box(false, true, None, Nothing), c, c);
      Fresh(w) && Run(cfg, w, StaleDeadlineRun(c, u, t)) && !AllStopsSafe(cfg, w, StaleDeadlineRun(c, u, t))
  {
    var es := StaleDeadlineRun(c, u, t);
    var w0 := World(Box(false, true, None, Nothing), c, c);
    var w1 := Next(cfg, w0, es[0]);
    assert w1 == World(Box(true, true, Some(c + cfg.drain), Close), c, c);
    var w2 := Next(cfg, w1, es[1]);
    assert w2 == World(Box(false, true, Some(c + cfg.drain), Start), u, c);
    var w3 := Next(cfg, w2, es[2]);
    var w4 := Next(cfg, w3, es[3]);
    assert w4 == World(Box(true, false, Some(c + cfg.drain), CloseStop), t, t);
    var w5 := Next(cfg, w4, es[4]);
    assert !StopIsSafe(cfg, w5, es[5]);
    Prefixed(cfg, w5, es, 5);
    Prefixed(cfg, w4, es, 4);
    Prefixed(cfg, w3, es, 3);
    Prefixed(cfg, w2, es, 2);
    Prefixed(cfg, w1, es, 1);
    Prefixed(cfg, w0, es, 0);
    assert es[0..] == es;
  }

  /** Over all runs, or over those in which no write that raises creates the flag. */
  ghost predicate PromiseHolds(cfg: Config, clean: bool) {
    forall w, es :: Fresh(w) && Run(cfg, w, es) && (clean ==> AllWritesClean(es)) ==> AllStopsSafe(cfg, w, es)
  }

  /** Over every run the promise holds if and only if the schedule never goes down, up and down again
      with the drain in between. */
  lemma PromiseHoldsIff(cfg: Config)
    requires cfg.drain > 0
    ensures PromiseHolds(cfg, false) <==> !DownUpDown(cfg)
  {
    if DownUpDown(cfg) {
      var c, t :| !cfg.up(c) && !cfg.up(t) && c + cfg.drain <= t && UpBetween(cfg, c, t);
      var u :| c <= u <= t && cfg.up(u);
      FlagLeftStopsEarly(cfg, c, u, t);
    } else {
      forall w, es | Fresh(w) && Run(cfg, w, es) ensures AllStopsSafe(cfg, w, es) {
        RunsAreSafe(cfg, false, w, es);
      }
    }
  }

  /** If a write that raises never creates the flag, leaving the tunnel running is enough as well. */
  lemma CleanPromiseHoldsIff(cfg: Config)
    requires cfg.drain > 0
    ensures PromiseHolds(cfg, true) <==> !(cfg.stopTunnel && DownUpDown(cfg))
  {
    if cfg.stopTunnel && DownUpDown(cfg) {
      var c, t :| !cfg.up(c) && !cfg.up(t) && c + cfg.drain <= t && UpBetween(cfg, c, t);
      var u :| c <= u <= t && cfg.up(u);
      StaleDeadlineStopsEarly(cfg, c, u, t);
      assert AllWritesClean(StaleDeadlineRun(c, u, t));
    } else {
      forall w, es | Fresh(w) && Run(cfg, w, es) && AllWritesClean(es) ensures AllStopsSafe(cfg, w, es) {
        RunsAreSafe(cfg, true, w, es);
      }
    }
  }

  /** docker start does not fail in this event. */
  predicate StartSucceeds(cfg: Config, e: Event) {
    e.TickAt? && cfg.up(e.now) ==> !e.faults.dockerFails
  }

  ghost predicate StartsSucceed(cfg: Config, es: seq<Event>) {
    forall i :: 0 <= i < |es| ==> StartSucceeds(cfg, es[i])
  }

  /** An open gate has no deadline, and a deadline comes the drain after the gate closed. */
  predicate DeadlineIsFresh(cfg: Config, w: World) {
    && w.closedSince <= w.clock
    && (w.box.deadline.Some? ==> w.box.closed && w.closedSince + cfg.drain <= w.box.deadline.value)
  }

  /** Whatever the schedule: a run is safe if docker start never fails in it, whatever else does. */
  lemma {:induction false} SafeWhenStartsSucceed(cfg: Config, w: World, es: seq<Event>)
    requires cfg.drain > 0 && DeadlineIsFresh(cfg, w) && Run(cfg, w, es) && StartsSucceed(cfg, es)
    ensures AllStopsSafe(cfg, w, es)
    decreases |es|
  {
    if es != [] {
      assert StartSucceeds(cfg, es[0]);
      SafeWhenStartsSucceed(cfg, Next(cfg, w, es[0]), es[1..]);
    }
  }

  // ------------------------------------------------------------------ fixed points

  /** Every call succeeds; the tunnel may be running or not. */
  predicate Succeeds(f: Faults) {
    !f.psFails && !f.absent && !f.gateFails && !f.tunnelPsFails && !f.dockerFails && f.engineAfter
  }

  /** A tick: when, and what it meets. */
  datatype Visit = Visit(now: Time, faults: Faults)

  function TickAll(cfg: Config, box: Box, visits: seq<Visit>): Box
    decreases |visits|
  {
    if visits == [] then box else TickAll(cfg, Tick(cfg, box, visits[0].now, visits[0].faults), visits[1..])
  }

  predicate AllSucceed(cfg: Config, visits: seq<Visit>, up: bool) {
    forall i :: 0 <= i < |visits| ==> cfg.up(visits[i].now) == up && Succeeds(visits[i].faults)
  }

  /** What the schedule asks for while it is down, and while it is up. */
  predicate Settled(box: Box, up: bool) { if up then box.engine && !box.closed else !box.engine && box.closed }

  lemma SettledStays(cfg: Config, box: Box, now: Time, f: Faults)
    requires Settled(box, cfg.up(now))
    ensures Tick(cfg, box, now, f) == box.(acted := Nothing)
  {
  }

  /** While the schedule stays up, one successful tick is enough and nothing changes after it. */
  lemma {:induction false} StaysUpSettles(cfg: Config, box: Box, visits: seq<Visit>)
    requires visits != [] && AllSucceed(cfg, visits, true)
    ensures Settled(TickAll(cfg, box, visits), true)
    decreases |visits|
  {
    var next := Tick(cfg, box, visits[0].now, visits[0].faults);
    if |visits| > 1 {
      StaysUpSettles(cfg, next, visits[1..]);
    } else {
      assert TickAll(cfg, box, visits) == next;
    }
  }

  /** While it stays down, the box is settled once a later tick comes the drain after the first. */
  lemma StaysDownSettles(cfg: Config, box: Box, visits: seq<Visit>, end: Time)
    requires cfg.drain > 0 && |visits| >= 2 && AllSucceed(cfg, visits, false)
    requires box.deadline.Some? ==> box.deadline.value <= end
    requires visits[0].now + cfg.drain <= end <= visits[|visits| - 1].now
    ensures Settled(TickAll(cfg, box, visits), false)
  {
    DrainsBy(cfg, Tick(cfg, box, visits[0].now, visits[0].faults), visits[1..], end);
  }

  lemma {:induction false} DrainsBy(cfg: Config, box: Box, visits: seq<Visit>, end: Time)
    requires cfg.drain > 0 && visits != [] && AllSucceed(cfg, visits, false)
    requires Settled(box, false) || (box.closed && box.engine && box.deadline.Some? && box.deadline.value <= end)
    requires end <= visits[|visits| - 1].now
    ensures Settled(TickAll(cfg, box, visits), false)
    decreases |visits|
  {
    var next := Tick(cfg, box, visits[0].now, visits[0].faults);
    if |visits| > 1 {
      DrainsBy(cfg, next, visits[1..], end);
    } else {
      assert TickAll(cfg, box, visits) == next;
    }
  }
}
