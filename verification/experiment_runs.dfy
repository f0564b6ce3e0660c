/**
 Workflow runs over one durable ledger: each run reserves durably, spends
 through its own strict ledger and settles, unless it crashes in between. Runs
 of different processes interleave at every step.
 */
module ExperimentRuns {
  import opened Candidates
  import opened Wrappers
  import W = WorkflowBudget
  import S = ReservationStream
  import D = DurableLedger

  datatype Phase = Running | Settled | SettleRefused | Crashed

  datatype Run = Run(candidate: Candidate, workflow: S.Workflow, phase: Phase)

  datatype World = World(rows: seq<D.Row>, runs: map<string, Run>)

  datatype Step =
    | Start(id: string, candidate: Candidate)
    | Flow(id: string, step: S.Step)
    | Crash(id: string)
    | Settle(id: string)

  predicate IsFresh(w: World, id: string)
  {
    id !in w.runs && id !in D.Fold(w.rows).reservations
  }

  /** A run reaches settlement only after all its streams have ended. */
  predicate Active(w: World, id: string)
  {
    id in w.runs && w.runs[id].phase == Running
  }

  function Charge(run: Run): int
  {
    W.ActualCost(run.workflow.ledger)
  }

  function WithRun(w: World, id: string, run: Run): World
  {
    World(w.rows + [D.ReserveRow(id, run.candidate, D.Requested(run.candidate))], w.runs[id := run])
  }

  ghost function Started(w: World, id: string, c: Candidate): World
  {
    if D.ReserveRefusal(w.rows, c).Some? then w else WithRun(w, id, Run(c, S.NewWorkflow(c), Running))
  }

  function SettledRun(w: World, id: string): World
    requires id in w.runs
  {
    if D.SettleRefusal(w.rows, id, Charge(w.runs[id])).Some?
    then w.(runs := w.runs[id := w.runs[id].(phase := SettleRefused)])
    else World(w.rows + [D.SettleRow(id, Charge(w.runs[id]))], w.runs[id := w.runs[id].(phase := Settled)])
  }

  ghost function Apply(w: World, step: Step): World
  {
    match step
    case Start(id, c) => if IsFresh(w, id) then Started(w, id, c) else w
    case Flow(id, s) =>
      if Active(w, id) then w.(runs := w.runs[id := w.runs[id].(workflow := S.Apply(w.runs[id].workflow, s))]) else w
    case Crash(id) => if Active(w, id) then w.(runs := w.runs[id := w.runs[id].(phase := Crashed)]) else w
    case Settle(id) => if Active(w, id) && w.runs[id].workflow.open == map[] then SettledRun(w, id) else w
  }

  ghost function RunAll(w: World, steps: seq<Step>): World
    decreases |steps|
  {
    if steps == [] then w else RunAll(Apply(w, steps[0]), steps[1..])
  }

  // ---------------------------------------------------------------------------
  // What every step keeps
  // ---------------------------------------------------------------------------

  ghost predicate Sane(run: Run)
  {
    S.Consistent(run.workflow) && run.workflow.ledger.candidate == run.candidate
  }

  /** The run and the log agree about it. */
  ghost predicate Agrees(log: D.LogState, id: string, run: Run)
  {
    && id in log.reservations && log.reservations[id] == D.Requested(run.candidate)
    && (run.phase == Settled <==> id in log.settlements)
    && (run.phase == Settled ==> log.settlements[id] == Charge(run) && run.workflow.open == map[])
  }

  ghost predicate RunSound(w: World, id: string)
    requires id in w.runs
  {
    Sane(w.runs[id]) && Agrees(D.Fold(w.rows), id, w.runs[id])
  }

  /** Run ids that this experiment did not start are as they were in the first log. */
  ghost predicate OthersUntouched(before: D.LogState, w: World, id: string)
  {
    var log := D.Fold(w.rows);
    if id in w.runs then id !in before.reservations
    else
      && (id in log.reservations <==> id in before.reservations)
      && (id in log.settlements <==> id in before.settlements)
      && (id in log.reservations ==> log.reservations[id] == before.reservations[id])
      && (id in log.settlements ==> log.settlements[id] == before.settlements[id])
  }

  ghost predicate WorldSound(before: D.LogState, w: World)
  {
    && D.LogSound(w.rows)
    && (forall id :: id in w.runs ==> RunSound(w, id))
    && (forall id :: OthersUntouched(before, w, id))
  }

  lemma {:induction false} CandidateStays(w: S.Workflow, s: S.Step)
    ensures S.Apply(w, s).ledger.candidate == w.ledger.candidate
  {}

  lemma NewRunIsSound(w: World, id: string, run: Run)
    requires IsFresh(w, id) && id !in D.Fold(w.rows).settlements && Sane(run) && run.phase == Running
    ensures RunSound(WithRun(w, id, run), id)
  {}

  lemma NewRunKeepsOtherRuns(w: World, id: string, run: Run, k: string)
    requires k in w.runs && k != id && RunSound(w, k)
    ensures RunSound(WithRun(w, id, run), k)
  {}

  lemma NewRunKeepsOthersUntouched(before: D.LogState, w: World, id: string, run: Run, k: string)
    requires IsFresh(w, id) && OthersUntouched(before, w, k)
    ensures OthersUntouched(before, WithRun(w, id, run), k)
  {}

  lemma NewRunKeepsSound(before: D.LogState, w: World, id: string, run: Run)
    requires WorldSound(before, w) && IsFresh(w, id) && D.ReserveRefusal(w.rows, run.candidate).None?
    requires Sane(run) && run.phase == Running
    ensures WorldSound(before, WithRun(w, id, run))
  {
    var w' := WithRun(w, id, run);
    D.ReserveKeepsSound(w.rows, id, run.candidate);
    NewRunIsSound(w, id, run);
    forall k | k in w'.runs ensures RunSound(w', k) { if k != id { NewRunKeepsOtherRuns(w, id, run, k); } }
    forall k ensures OthersUntouched(before, w', k) { NewRunKeepsOthersUntouched(before, w, id, run, k); }
  }

  lemma NewHasCandidate(c: Candidate)
    ensures S.NewWorkflow(c).ledger.candidate == c
  {}

  lemma StartKeepsSound(before: D.LogState, w: World, id: string, c: Candidate)
    requires WorldSound(before, w) && IsFresh(w, id) && D.ReserveRefusal(w.rows, c).None?
    ensures WorldSound(before, Started(w, id, c))
  {
    hide S.NewWorkflow, S.Consistent;
    S.NewIsConsistent(c);
    var run := Run(c, S.NewWorkflow(c), Running);
    NewHasCandidate(c);
    NewRunKeepsSound(before, w, id, run);
  }

  lemma UpdateKeepsSound(before: D.LogState, w: World, id: string, run: Run)
    requires WorldSound(before, w) && id in w.runs && Sane(run)
    requires Agrees(D.Fold(w.rows), id, run)
    ensures WorldSound(before, w.(runs := w.runs[id := run]))
  {
    var w' := w.(runs := w.runs[id := run]);
    forall k | k in w'.runs ensures RunSound(w', k) { assert k in w.runs ==> RunSound(w, k); }
    forall k ensures OthersUntouched(before, w', k) { assert OthersUntouched(before, w, k); }
  }

  lemma SettleKeepsSound(before: D.LogState, w: World, id: string)
    requires WorldSound(before, w) && Active(w, id) && w.runs[id].workflow.open == map[]
    requires D.SettleRefusal(w.rows, id, Charge(w.runs[id])).None?
    ensures WorldSound(before, SettledRun(w, id))
  {
    var w' := SettledRun(w, id);
    D.SettleKeepsSound(w.rows, id, Charge(w.runs[id]));
    D.FoldAppend(w.rows, D.SettleRow(id, Charge(w.runs[id])));
    assert RunSound(w, id);
    forall k | k in w'.runs ensures RunSound(w', k) { assert k in w.runs ==> RunSound(w, k); }
    forall k ensures OthersUntouched(before, w', k) { assert OthersUntouched(before, w, k); }
  }

  lemma StepKeepsSound(before: D.LogState, w: World, step: Step)
    requires WorldSound(before, w)
    ensures WorldSound(before, Apply(w, step))
  {
    match step {
      case Start(id, c) =>
        if IsFresh(w, id) && D.ReserveRefusal(w.rows, c).None? { StartKeepsSound(before, w, id, c); }
      case Flow(id, s) =>
        if Active(w, id) {
          assert RunSound(w, id);
          S.StepKeepsConsistent(w.runs[id].workflow, s);
          CandidateStays(w.runs[id].workflow, s);
          UpdateKeepsSound(before, w, id, w.runs[id].(workflow := S.Apply(w.runs[id].workflow, s)));
        }
      case Crash(id) =>
        if Active(w, id) {
          assert RunSound(w, id);
          UpdateKeepsSound(before, w, id, w.runs[id].(phase := Crashed));
        }
      case Settle(id) =>
        if Active(w, id) && w.runs[id].workflow.open == map[] {
          assert RunSound(w, id);
          if D.SettleRefusal(w.rows, id, Charge(w.runs[id])).None? {
            SettleKeepsSound(before, w, id);
          } else {
            UpdateKeepsSound(before, w, id, w.runs[id].(phase := SettleRefused));
          }
        }
    }
  }

  lemma {:induction false} StepsKeepSound(before: D.LogState, w: World, steps: seq<Step>)
    requires WorldSound(before, w)
    ensures WorldSound(before, RunAll(w, steps))
    decreases |steps|
  {
    if steps != [] {
      StepKeepsSound(before, w, steps[0]);
      StepsKeepSound(before, Apply(w, steps[0]), steps[1..]);
    }
  }

  lemma InitialIsSound(rows: seq<D.Row>)
    requires D.LogSound(rows)
    ensures WorldSound(D.Fold(rows), World(rows, map[]))
  {}

  // ---------------------------------------------------------------------------
  // Settlement
  // ---------------------------------------------------------------------------

  // A rules run has no model stage, so it never reserves or spends.
  lemma RulesSpendNothing(l: W.Ledger)
    requires W.Balanced(l) && l.candidate == RulesCandidate
    ensures W.ActualCost(l) == 0 && W.ReservedCost(l) == 0
  {
    assert W.StageBalanced(l, W.Single) && W.StageBalanced(l, W.Receiving);
    assert W.StageBalanced(l, W.Fulfillment) && W.StageBalanced(l, W.Coordinator);
  }

  lemma SpendIsCovered(run: Run)
    requires Sane(run) && !run.workflow.ledger.underestimated
    ensures 0 <= Charge(run) && 0 <= W.ReservedCost(run.workflow.ledger)
    ensures Charge(run) + W.ReservedCost(run.workflow.ledger) <= D.Requested(run.candidate)
  {
    var l := run.workflow.ledger;
    W.StageCapsImplyWorkflowCaps(l);
    if run.candidate == RulesCandidate { RulesSpendNothing(l); }
    SpendIsNotNegative(l);
  }

  lemma SpendIsNotNegative(l: W.Ledger)
    requires W.Balanced(l)
    ensures 0 <= W.ActualCost(l) && 0 <= W.ReservedCost(l)
  {
    assert W.StageBalanced(l, W.Single) && W.StageBalanced(l, W.Receiving);
    assert W.StageBalanced(l, W.Fulfillment) && W.StageBalanced(l, W.Coordinator);
    forall id | id in l.reservations ensures l.reservations[id].bound.NonNegative() { assert W.OnBooks(l, id); }
    W.HeldAtLeast(l.reservations, l.nextId, None, false);
    W.HeldAtLeast(l.reservations, l.nextId, None, true);
  }

  /** A settlement is refused exactly when the run spent more than it reserved durably. */
  lemma SettlementRefusedOnlyForOverspend(before: D.LogState, w: World, id: string)
    requires WorldSound(before, w) && Active(w, id)
    ensures D.SettleRefusal(w.rows, id, Charge(w.runs[id])).None? <==>
            Charge(w.runs[id]) <= D.Requested(w.runs[id].candidate)
  {
    assert RunSound(w, id);
    SpendIsNotNegative(w.runs[id].workflow.ledger);
  }

  lemma SettlesInSoundWorld(before: D.LogState, w: World, id: string)
    requires WorldSound(before, w) && Active(w, id) && w.runs[id].workflow.open == map[]
    requires !w.runs[id].workflow.ledger.underestimated
    ensures Apply(w, Settle(id)) == World(w.rows + [D.SettleRow(id, Charge(w.runs[id]))],
                                          w.runs[id := w.runs[id].(phase := Settled)])
    ensures w.runs[id].workflow.ledger.reservations == map[]
    ensures W.ReservedCost(w.runs[id].workflow.ledger) == 0
  {
    assert RunSound(w, id);
    SettlementRefusedOnlyForOverspend(before, w, id);
    SpendIsCovered(w.runs[id]);
    S.NothingOpenNothingReserved(w.runs[id].workflow);
  }

  /**
   Every run that reaches settlement with no underestimated request settles its
   full actual cost, and it has no reservation outstanding.
   */
  lemma SettlementSucceeds(rows: seq<D.Row>, steps: seq<Step>, w: World, id: string)
    requires D.LogSound(rows) && w == RunAll(World(rows, map[]), steps)
    ensures Active(w, id) && w.runs[id].workflow.open == map[] && !w.runs[id].workflow.ledger.underestimated ==>
              && Apply(w, Settle(id)) == World(w.rows + [D.SettleRow(id, Charge(w.runs[id]))],
                                               w.runs[id := w.runs[id].(phase := Settled)])
              && w.runs[id].workflow.ledger.reservations == map[]
              && W.ReservedCost(w.runs[id].workflow.ledger) == 0
  {
    InitialIsSound(rows);
    StepsKeepSound(D.Fold(rows), World(rows, map[]), steps);
    if Active(w, id) && w.runs[id].workflow.open == map[] && !w.runs[id].workflow.ledger.underestimated {
      SettlesInSoundWorld(D.Fold(rows), w, id);
    }
  }

  // ---------------------------------------------------------------------------
  // Total spend
  // ---------------------------------------------------------------------------

  /** What each run has spent, plus what its open requests may still spend. */
  function Spending(runs: map<string, Run>): map<string, int>
  {
    map id | id in runs :: Charge(runs[id]) + W.ReservedCost(runs[id].workflow.ledger)
  }

  /** What the log commits for one set of run ids. */
  function Exposure(log: D.LogState, ids: set<string>): map<string, int>
    requires forall id :: id in ids ==> id in log.reservations
  {
    map id | id in ids :: if id in log.settlements then log.settlements[id] else log.reservations[id]
  }

  lemma CommittedIsExposure(rows: seq<D.Row>)
    requires D.LogSound(rows)
    ensures D.Committed(rows) == D.Total(Exposure(D.Fold(rows), D.Fold(rows).reservations.Keys))
  {
    var log := D.Fold(rows);
    D.TotalUnion(log.Live(), log.settlements);
    assert log.Live() + log.settlements == Exposure(log, log.reservations.Keys);
  }

  lemma ExposureSplits(before: D.LogState, w: World)
    requires WorldSound(before, w)
    ensures forall id :: id in before.reservations ==> id in D.Fold(w.rows).reservations && id !in w.runs
    ensures forall id :: id in w.runs ==> id in D.Fold(w.rows).reservations
    ensures forall id :: id in D.Fold(w.rows).reservations ==> id in w.runs || id in before.reservations
    ensures forall id :: id in before.reservations ==>
              Exposure(D.Fold(w.rows), before.reservations.Keys)[id] == Exposure(before, before.reservations.Keys)[id]
  {
    forall id | id in before.reservations ensures id in D.Fold(w.rows).reservations && id !in w.runs {
      assert OthersUntouched(before, w, id);
    }
    forall id | id in w.runs ensures id in D.Fold(w.rows).reservations { assert RunSound(w, id); }
    forall id | id in D.Fold(w.rows).reservations ensures id in w.runs || id in before.reservations {
      assert OthersUntouched(before, w, id);
    }
    forall id | id in before.reservations
      ensures Exposure(D.Fold(w.rows), before.reservations.Keys)[id] == Exposure(before, before.reservations.Keys)[id]
    {
      assert OthersUntouched(before, w, id);
    }
  }

  lemma SpendingIsExposed(before: D.LogState, w: World)
    requires WorldSound(before, w)
    requires forall id :: id in w.runs ==> !w.runs[id].workflow.ledger.underestimated
    requires forall id :: id in w.runs ==> id in D.Fold(w.rows).reservations
    ensures D.Total(Spending(w.runs)) <= D.Total(Exposure(D.Fold(w.rows), w.runs.Keys))
  {
    var a, b := Spending(w.runs), Exposure(D.Fold(w.rows), w.runs.Keys);
    forall id | id in a ensures id in b && 0 <= a[id] <= b[id] {
      assert RunSound(w, id);
      SpendIsCovered(w.runs[id]);
      if w.runs[id].phase == Settled { S.NothingOpenNothingReserved(w.runs[id].workflow); }
    }
    assert a.Keys == b.Keys;
    D.TotalMonotone(a, b);
  }

  lemma ExposureAdds(log: D.LogState, a: set<string>, b: set<string>)
    requires a !! b && a + b == log.reservations.Keys
    ensures D.Total(Exposure(log, log.reservations.Keys)) == D.Total(Exposure(log, a)) + D.Total(Exposure(log, b))
  {
    D.TotalUnion(Exposure(log, a), Exposure(log, b));
    assert Exposure(log, a) + Exposure(log, b) == Exposure(log, a + b);
  }

  lemma OthersCommitAsBefore(before: D.LogState, w: World)
    requires WorldSound(before, w)
    ensures before.reservations.Keys !! w.runs.Keys
    ensures w.runs.Keys + before.reservations.Keys == D.Fold(w.rows).reservations.Keys
    ensures Exposure(D.Fold(w.rows), before.reservations.Keys) == Exposure(before, before.reservations.Keys)
  {
    ExposureSplits(before, w);
  }

  lemma SoundWorldSpendsWithinCap(rows: seq<D.Row>, w: World)
    requires D.LogSound(rows) && WorldSound(D.Fold(rows), w)
    requires forall id :: id in w.runs ==> !w.runs[id].workflow.ledger.underestimated
    ensures D.Total(Spending(w.runs)) + D.Committed(rows) <= D.EXPERIMENT_COST_CAP
  {
    OthersCommitAsBefore(D.Fold(rows), w);
    ExposureAdds(D.Fold(w.rows), w.runs.Keys, D.Fold(rows).reservations.Keys);
    CommittedIsExposure(rows);
    CommittedIsExposure(w.rows);
    SpendingIsExposed(D.Fold(rows), w);
  }

  /**
   Over every interleaving of runs and crashes, if no request was underestimated
   then what all runs spent and may still spend, together with what the log had
   committed before them, stays within USD 3.00.
   */
  lemma TotalSpendWithinCap(rows: seq<D.Row>, steps: seq<Step>, w: World)
    requires D.LogSound(rows) && w == RunAll(World(rows, map[]), steps)
    requires forall id :: id in w.runs ==> !w.runs[id].workflow.ledger.underestimated
    ensures D.Total(Spending(w.runs)) + D.Committed(rows) <= D.EXPERIMENT_COST_CAP
  {
    InitialIsSound(rows);
    StepsKeepSound(D.Fold(rows), World(rows, map[]), steps);
    SoundWorldSpendsWithinCap(rows, w);
  }

  // ---------------------------------------------------------------------------
  // One run that nothing disturbs
  // ---------------------------------------------------------------------------

  function Flows(id: string, steps: seq<S.Step>): seq<Step>
  {
    if steps == [] then [] else [Flow(id, steps[0])] + Flows(id, steps[1..])
  }

  lemma {:induction false} RunSplit(w: World, a: seq<Step>, b: seq<Step>)
    ensures RunAll(w, a + b) == RunAll(RunAll(w, a), b)
    decreases |a|
  {
    if a == [] {
      assert a + b == b;
    } else {
      assert (a + b)[1..] == a[1..] + b;
      RunSplit(Apply(w, a[0]), a[1..], b);
    }
  }

  lemma RunOne(w: World, step: Step)
    ensures RunAll(w, [step]) == Apply(w, step)
  {
    assert RunAll(w, [step]) == RunAll(Apply(w, step), []);
  }

  lemma {:induction false} FlowsRun(w: World, id: string, steps: seq<S.Step>)
    requires Active(w, id)
    ensures RunAll(w, Flows(id, steps)) ==
            w.(runs := w.runs[id := w.runs[id].(workflow := S.Run(w.runs[id].workflow, steps))])
    decreases |steps|
  {
    if steps == [] {
      assert w.runs[id := w.runs[id]] == w.runs;
    } else {
      var v := Apply(w, Flow(id, steps[0]));
      assert Flows(id, steps)[1..] == Flows(id, steps[1..]);
      FlowsRun(v, id, steps[1..]);
    }
  }

  function Undisturbed(id: string, c: Candidate, steps: seq<S.Step>): seq<Step>
  {
    [Start(id, c)] + Flows(id, steps) + [Settle(id)]
  }

  lemma UndisturbedParts(rows: seq<D.Row>, id: string, c: Candidate, steps: seq<S.Step>)
    ensures var w := World(rows, map[]);
            RunAll(w, Undisturbed(id, c, steps)) ==
            Apply(RunAll(Apply(w, Start(id, c)), Flows(id, steps)), Settle(id))
  {
    var w := World(rows, map[]);
    RunSplit(w, [Start(id, c)] + Flows(id, steps), [Settle(id)]);
    RunSplit(w, [Start(id, c)], Flows(id, steps));
    RunOne(w, Start(id, c));
    RunOne(RunAll(w, [Start(id, c)] + Flows(id, steps)), Settle(id));
  }

  /**
   Started under a new id, flowed and settled with all its streams ended, a run leaves on the log what one execution
   leaves: nothing if it is not admitted, else its reservation, and its actual cost unless that is above it.
   */
  lemma UndisturbedRunIsExecution(rows: seq<D.Row>, id: string, c: Candidate, steps: seq<S.Step>)
    requires D.LogSound(rows) && id !in D.Fold(rows).reservations
    requires S.Run(S.NewWorkflow(c), steps).open == map[]
    ensures var w := RunAll(World(rows, map[]), Undisturbed(id, c, steps));
            var flow := S.Run(S.NewWorkflow(c), steps);
            var spent, reserved := W.ActualCost(flow.ledger), D.ReserveRow(id, c, D.Requested(c));
            if D.ReserveRefusal(rows, c).Some? then w == World(rows, map[])
            else if spent <= D.Requested(c) then
              w == World(rows + [reserved] + [D.SettleRow(id, spent)], map[id := Run(c, flow, Settled)])
            else w == World(rows + [reserved], map[id := Run(c, flow, SettleRefused)])
  {
    hide Apply, RunAll, Flows, S.Run, S.NewWorkflow, S.Consistent, D.Fold, D.LogSound, D.ReserveRefusal, W.ActualCost;
    UndisturbedParts(rows, id, c, steps);
    if D.ReserveRefusal(rows, c).Some? {
      RefusedRunFlows(rows, id, c, steps);
    } else {
      SettledIsReserved(rows, id);
      AdmittedRunFlows(rows, id, c, steps);
      S.NewIsConsistent(c);
      S.RunKeepsConsistent(S.NewWorkflow(c), steps);
      SettleAlone(rows, id, Run(c, S.Run(S.NewWorkflow(c), steps), Running));
    }
  }

  lemma RefusedRunFlows(rows: seq<D.Row>, id: string, c: Candidate, steps: seq<S.Step>)
    requires D.ReserveRefusal(rows, c).Some?
    ensures Apply(RunAll(Apply(World(rows, map[]), Start(id, c)), Flows(id, steps)), Settle(id)) == World(rows, map[])
  {
    NothingFlows(World(rows, map[]), id, steps);
  }

  lemma AdmittedRunFlows(rows: seq<D.Row>, id: string, c: Candidate, steps: seq<S.Step>)
    requires D.ReserveRefusal(rows, c).None? && id !in D.Fold(rows).reservations
    ensures RunAll(Apply(World(rows, map[]), Start(id, c)), Flows(id, steps)) ==
            World(rows + [D.ReserveRow(id, c, D.Requested(c))],
                  map[id := Run(c, S.Run(S.NewWorkflow(c), steps), Running)])
  {
    hide S.Run, S.NewWorkflow, D.Fold, D.ReserveRefusal;
    var start, flow := S.NewWorkflow(c), S.Run(S.NewWorkflow(c), steps);
    var started := Apply(World(rows, map[]), Start(id, c));
    var none: map<string, Run> := map[];
    assert none[id := Run(c, start, Running)] == map[id := Run(c, start, Running)];
    FlowsRun(started, id, steps);
    assert started.runs[id := Run(c, flow, Running)] == map[id := Run(c, flow, Running)];
  }

  lemma SettledIsReserved(rows: seq<D.Row>, id: string)
    requires D.LogSound(rows) && id !in D.Fold(rows).reservations
    ensures id !in D.Fold(rows).settlements
  {}

  lemma SettleAlone(rows: seq<D.Row>, id: string, run: Run)
    requires id !in D.Fold(rows).settlements && S.Consistent(run.workflow)
    requires run.phase == Running && run.workflow.open == map[]
    ensures var reserved := rows + [D.ReserveRow(id, run.candidate, D.Requested(run.candidate))];
            Apply(World(reserved, map[id := run]), Settle(id)) ==
            if Charge(run) <= D.Requested(run.candidate) then
              World(reserved + [D.SettleRow(id, Charge(run))], map[id := run.(phase := Settled)])
            else World(reserved, map[id := run.(phase := SettleRefused)])
  {
    SpendIsNotNegative(run.workflow.ledger);
    FreshRunSettles(rows, id, run.candidate, Charge(run));
    forall phase ensures map[id := run][id := run.(phase := phase)] == map[id := run.(phase := phase)] {}
  }

  lemma {:induction false} NothingFlows(w: World, id: string, steps: seq<S.Step>)
    requires id !in w.runs
    ensures RunAll(w, Flows(id, steps)) == w
    decreases |steps|
  {
    if steps != [] {
      assert Flows(id, steps)[1..] == Flows(id, steps[1..]);
      NothingFlows(w, id, steps[1..]);
    }
  }

  /** A run that crashed, or whose settlement was refused, does nothing more and can be neither settled nor started. */
  lemma {:induction false} EndedRunStays(w: World, steps: seq<Step>, id: string)
    requires id in w.runs && w.runs[id].phase != Running
    ensures id in RunAll(w, steps).runs && RunAll(w, steps).runs[id] == w.runs[id]
    decreases |steps|
  {
    if steps != [] { EndedRunStays(Apply(w, steps[0]), steps[1..], id); }
  }

  /** A run that crashes keeps its whole reservation on the log for good: it is never settled. */
  lemma CrashedRunKeepsItsReservation(before: D.LogState, w: World, id: string, steps: seq<Step>)
    requires WorldSound(before, w) && Active(w, id)
    ensures var log := D.Fold(RunAll(Apply(w, Crash(id)), steps).rows);
            && id !in log.settlements && id in log.reservations
            && log.reservations[id] == D.Requested(w.runs[id].candidate)
  {
    var v := Apply(w, Crash(id));
    StepKeepsSound(before, w, Crash(id));
    StepsKeepSound(before, v, steps);
    EndedRunStays(v, steps, id);
    assert RunSound(RunAll(v, steps), id);
  }

  // ---------------------------------------------------------------------------
  // One run, as a caller executes it
  // ---------------------------------------------------------------------------

  lemma FreshRunSettles(rows: seq<D.Row>, id: string, c: Candidate, charge: int)
    requires id !in D.Fold(rows).settlements && 0 <= charge
    ensures D.SettleRefusal(rows + [D.ReserveRow(id, c, D.Requested(c))], id, charge)
            == if charge <= D.Requested(c) then None else Some(D.ChargeAboveReservation)
  {}

  /**
   Reserve durably, run the workflow's stream steps, settle what was actually spent. The settlement is refused, and
   the reservation stays, exactly when more was spent than reserved; without underestimation that cannot be.
   */
  method ExecuteCandidate(durable: D.DurableExperimentLedger, id: string, c: Candidate, steps: seq<S.Step>)
    returns (r: Result<int, D.LogError>, flow: Option<S.Workflow>)
    requires id !in D.Fold(durable.rows).reservations && id !in D.Fold(durable.rows).settlements
    modifies durable
    ensures flow.None? <==> D.ReserveRefusal(old(durable.rows), c).Some?
    ensures flow.None? ==> r == Err(D.CapExhausted) && durable.rows == old(durable.rows)
    ensures flow.Some? ==> flow.value == S.Run(S.NewWorkflow(c), steps)
    ensures flow.Some? ==>
              var spent, reserved := W.ActualCost(flow.value.ledger), D.ReserveRow(id, c, D.Requested(c));
              && r == (if spent <= D.Requested(c) then Ok(spent) else Err(D.ChargeAboveReservation))
              && durable.rows ==
                   old(durable.rows) + [reserved] + if r.Ok? then [D.SettleRow(id, spent)] else []
    ensures flow.Some? && !flow.value.ledger.underestimated ==> r.Ok?
  {
    var refused := durable.ReserveWorkflow(id, c);
    if refused.Some? { return Err(refused.value), None; }
    var ran := RunWorkflow(c, steps);
    flow := Some(ran);
    var charged := W.ActualCost(ran.ledger);
    FreshRunSettles(old(durable.rows), id, c, charged);
    r := SettleSpent(durable, id, charged);
  }

  method SettleSpent(durable: D.DurableExperimentLedger, id: string, charged: int) returns (r: Result<int, D.LogError>)
    modifies durable
    ensures r.Ok? <==> D.SettleRefusal(old(durable.rows), id, charged).None?
    ensures r.Err? ==> Some(r.error) == D.SettleRefusal(old(durable.rows), id, charged)
    ensures r.Ok? ==> r.value == charged && durable.rows == old(durable.rows) + [D.SettleRow(id, charged)]
    ensures r.Err? ==> durable.rows == old(durable.rows)
  {
    var error := durable.SettleWorkflow(id, charged);
    r := if error.Some? then Err(error.value) else Ok(charged);
  }

  method RunWorkflow(c: Candidate, steps: seq<S.Step>) returns (flow: S.Workflow)
    ensures flow == S.Run(S.NewWorkflow(c), steps)
    ensures 0 <= W.ActualCost(flow.ledger)
    ensures !flow.ledger.underestimated ==> W.ActualCost(flow.ledger) <= D.Requested(c)
  {
    S.NewIsConsistent(c);
    flow := RunFlow(S.NewWorkflow(c), steps);
    SpendIsNotNegative(flow.ledger);
    if !flow.ledger.underestimated { SpendIsCovered(Run(c, flow, Running)); }
  }

  method RunFlow(start: S.Workflow, steps: seq<S.Step>) returns (flow: S.Workflow)
    requires S.Consistent(start)
    ensures flow == S.Run(start, steps)
    ensures S.Consistent(flow) && flow.ledger.candidate == start.ledger.candidate
  {
    flow := start;
    var i := 0;
    while i < |steps|
      invariant 0 <= i <= |steps|
      invariant S.Consistent(flow) && flow.ledger.candidate == start.ledger.candidate
      invariant S.Run(flow, steps[i..]) == S.Run(start, steps)
    {
      S.StepKeepsConsistent(flow, steps[i]);
      CandidateStays(flow, steps[i]);
      flow := S.Apply(flow, steps[i]);
      i := i + 1;
    }
  }
}
