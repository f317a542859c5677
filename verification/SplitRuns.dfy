/**
 The job protocol with every counter update split off its call and delayed: each event moves its
 job at once, and its counter updates follow in any order, with anything in between, or never, if
 the process dies owing them. Every such run places every job, and once nothing is owed any more its
 slot and load counters are short by exactly what was lost. With nothing lost a batch entry is exact
 if and only if the HDELs of the run deleted nothing of it.
 */
module SplitRuns {
  import opened Wrappers
  import opened RedisKeys
  import opened Counters
  import opened Protocol
  import ProtocolRuns
  import Ledger
  import BatchLedger

  datatype Split = Split(state: State, debts: seq<Delta>, tabs: seq<Ledger.Tab>) {
    function AsLedger(): Ledger.State { Ledger.State(state.keys, debts, tabs) }
  }

  datatype Step =
    | Do(event: Event)
    | Pay(payment: Ledger.Step)        // or lose: the process of a call dies owing it

  ghost predicate CanStep(s: Split, step: Step) {
    match step
    case Do(e) => Enabled(s.state, e)
    case Pay(p) => (Ledger.Pays(p) || p.Crash?) && Ledger.Enabled(s.AsLedger(), p)
  }

  ghost function Stepped(s: Split, step: Step): Split
    requires CanStep(s, step)
  {
    match step
    case Do(e) =>
      var next := Next(s.state, e);
      if Call(s.state, e).None? then s.(state := next)
      else
        var op := Call(s.state, e).value;
        Split(next.(keys := Ledger.Moved(s.state.keys, op)),
              s.debts + [Owed(s.state.keys, op)],
              s.tabs + [Ledger.BatchOwed(s.state.keys, op)])
    case Pay(p) =>
      var l := Ledger.Next(s.AsLedger(), p);
      Split(s.state.(keys := l.keys), l.debts, l.tabs)
  }

  ghost predicate Run(s: Split, steps: seq<Step>)
    decreases |steps|
  {
    steps == [] || (CanStep(s, steps[0]) && Run(Stepped(s, steps[0]), steps[1..]))
  }

  ghost function After(s: Split, steps: seq<Step>): Split
    requires Run(s, steps)
    decreases |steps|
  {
    if steps == [] then s else After(Stepped(s, steps[0]), steps[1..])
  }

  // ------------------------------------------------------------------ one step

  /** A step as the ledger sees it: a call that begins, a payment, or nothing. */
  ghost function LedgerStep(s: Split, step: Step): Option<Ledger.Step>
    requires CanStep(s, step)
  {
    match step
    case Do(e) => if Call(s.state, e).Some? then Some(Ledger.Begin(Call(s.state, e).value)) else None
    case Pay(p) => Some(p)
  }

  lemma PaymentsOnlyCount(l: Ledger.State, p: Ledger.Step)
    requires Ledger.Enabled(l, p) && !p.Begin?
    ensures ProtocolRuns.SameButCounters(l.keys, Ledger.Next(l, p).keys)
  {
  }

  lemma StepKeepsPlaces(s: Split, step: Step)
    requires Inv(s.state) && CanStep(s, step)
    ensures Inv(Stepped(s, step).state)
  {
    if step.Do? {
      EventKeepsInv(s.state, step.event);
      if Call(s.state, step.event).Some? {
        ProtocolRuns.CountersAreNotPlacement(Next(s.state, step.event), Stepped(s, step).state);
      }
    } else {
      PaymentsOnlyCount(s.AsLedger(), step.payment);
      ProtocolRuns.CountersAreNotPlacement(s.state, Stepped(s, step).state);
    }
  }

  lemma StepInTheLedger(s: Split, step: Step)
    requires Inv(s.state) && CanStep(s, step)
    ensures var l := LedgerStep(s, step);
      if l.None? then Stepped(s, step).AsLedger() == s.AsLedger()
      else Ledger.Enabled(s.AsLedger(), l.value) && Ledger.Next(s.AsLedger(), l.value) == Stepped(s, step).AsLedger()
    ensures LedgerStep(s, step).Some? ==> !LedgerStep(s, step).value.RebuildBackends?
  {
    if step.Do? && Call(s.state, step.event).Some? {
      ProtocolRuns.CallsAreProper(s.state, step.event);
    }
  }

  // ------------------------------------------------------------------ runs

  /** The whole run as the ledger sees it. */
  ghost function LedgerSteps(s: Split, steps: seq<Step>): seq<Ledger.Step>
    requires Run(s, steps)
    decreases |steps|
  {
    if steps == [] then []
    else
      (if LedgerStep(s, steps[0]).Some? then [LedgerStep(s, steps[0]).value] else []) +
      LedgerSteps(Stepped(s, steps[0]), steps[1..])
  }

  lemma {:induction false} RunInTheLedger(s: Split, steps: seq<Step>)
    requires Inv(s.state) && Run(s, steps)
    ensures Inv(After(s, steps).state)
    ensures var es := LedgerSteps(s, steps);
      && Ledger.Run(s.AsLedger(), es) && Ledger.NoRebuild(es)
      && Ledger.After(s.AsLedger(), es) == After(s, steps).AsLedger()
    decreases |steps|
  {
    if steps != [] {
      StepKeepsPlaces(s, steps[0]);
      StepInTheLedger(s, steps[0]);
      var s' := Stepped(s, steps[0]);
      RunInTheLedger(s', steps[1..]);
      var rest := LedgerSteps(s', steps[1..]);
      if LedgerStep(s, steps[0]).Some? {
        var l := LedgerStep(s, steps[0]).value;
        assert ([l] + rest)[0] == l && ([l] + rest)[1..] == rest;
      } else {
        assert [] + rest == rest;
      }
    }
  }

  ghost predicate Begins(s: Split) {
    ProtocolRuns.Start(s.state) && s.debts == [] && s.tabs == []
  }

  /** Every run from empty keys is placed, and once nothing is owed any more its slot and load counters
      are short by exactly what processes that died lost of them. */
  lemma SplitRunSettles(s: Split, steps: seq<Step>, b: BackendId, f: Field)
    requires Begins(s) && Run(s, steps)
    ensures Inv(After(s, steps).state) && Ledger.Run(s.AsLedger(), LedgerSteps(s, steps))
    ensures Ledger.Settled(After(s, steps).AsLedger()) ==>
      var k, l, es := After(s, steps).state.keys, s.AsLedger(), LedgerSteps(s, steps);
      && |OnBackend(k, b)| - Get(k.slots, b) == Ledger.LostAlong(l, es, Ledger.SlotAt(b))
      && |QueuedWith(k, f)| - Get(k.loadQueued, f) == Ledger.LostAlong(l, es, Ledger.QueuedAt(f))
      && |InflightWith(k, f)| - Get(k.loadInflight, f) == Ledger.LostAlong(l, es, Ledger.InflightAt(f))
  {
    ProtocolRuns.StartIsPlaced(s.state);
    RunInTheLedger(s, steps);
    if Ledger.Settled(After(s, steps).AsLedger()) {
      Ledger.SettledRunIsShortByLost(s.AsLedger(), LedgerSteps(s, steps), b, f);
    }
  }

  /** No process dies owing anything. */
  predicate NoneLost(steps: seq<Step>) {
    forall i :: 0 <= i < |steps| ==> !(steps[i].Pay? && steps[i].payment.Crash?)
  }

  lemma {:induction false} NoneLostIsUndisturbed(s: Split, steps: seq<Step>)
    requires Inv(s.state) && Run(s, steps) && NoneLost(steps)
    ensures Ledger.Undisturbed(LedgerSteps(s, steps))
    decreases |steps|
  {
    if steps != [] {
      StepKeepsPlaces(s, steps[0]);
      StepInTheLedger(s, steps[0]);
      assert LedgerStep(s, steps[0]).Some? ==> !LedgerStep(s, steps[0]).value.Crash?;
      NoneLostIsUndisturbed(Stepped(s, steps[0]), steps[1..]);
    }
  }

  /** Then they are exact. */
  lemma SplitRunSettlesExact(s: Split, steps: seq<Step>)
    requires Begins(s) && Run(s, steps) && NoneLost(steps) && Ledger.Settled(After(s, steps).AsLedger())
    ensures var k := After(s, steps).state.keys; SlotsExact(k) && LoadQueuedExact(k) && LoadInflightExact(k)
  {
    ProtocolRuns.StartIsPlaced(s.state);
    RunInTheLedger(s, steps);
    NoneLostIsUndisturbed(s, steps);
    Ledger.SettledRunIsExact(s.AsLedger(), LedgerSteps(s, steps));
  }

  /** And a batch entry is exact if and only if the HDELs deleted nothing of it on balance. */
  lemma SplitRunBatchExactIff(s: Split, steps: seq<Step>, b: BackendId, t: BatchId)
    requires Begins(s) && Run(s, steps) && NoneLost(steps) && Ledger.Settled(After(s, steps).AsLedger())
    ensures Ledger.Run(s.AsLedger(), LedgerSteps(s, steps))
    ensures BatchEntryExact(After(s, steps).state.keys, b, t) <==>
      BatchLedger.DroppedAlong(s.AsLedger(), LedgerSteps(s, steps), b, t) == 0
  {
    ProtocolRuns.StartIsPlaced(s.state);
    RunInTheLedger(s, steps);
    NoneLostIsUndisturbed(s, steps);
    assert BatchEntryExact(s.state.keys, b, t);
    BatchLedger.SettledBatchExactIff(s.AsLedger(), LedgerSteps(s, steps), b, t);
  }
}
