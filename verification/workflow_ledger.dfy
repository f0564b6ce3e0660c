/**
 The strict per-workflow token and cost budget: reservations are admitted
 against stage caps and workflow caps, and reconciled to what the provider
 reported. Money is counted in units of 1e-7 USD.
 */
module WorkflowBudget {
  import opened Candidates
  import opened Wrappers

  const INPUT_PRICE := 55
  const OUTPUT_PRICE := 275
  const WORKFLOW_REQUESTS := 8
  const WORKFLOW_TOKENS := Tokens(32_000, 6_000)
  const WORKFLOW_COST_CAP := 3_500_000
  const MAX_REQUEST_OUTPUT := 1_024

  /** Input and output tokens, always counted together. */
  datatype Tokens = Tokens(input: int, output: int) {
    function Price(): int { Cost(input, output) }
    predicate NonNegative() { 0 <= input && 0 <= output }
    predicate FitsIn(t: Tokens) { input <= t.input && output <= t.output }
  }

  function Cost(input: int, output: int): int
  {
    INPUT_PRICE * input + OUTPUT_PRICE * output
  }

  datatype Stage = Single | Receiving | Fulfillment | Coordinator

  datatype StageCaps = StageCaps(requests: int, tokens: Tokens)

  function Caps(s: Stage): StageCaps
  {
    match s
    case Single => StageCaps(8, Tokens(32_000, 6_000))
    case Receiving => StageCaps(3, Tokens(12_000, 2_000))
    case Fulfillment => StageCaps(3, Tokens(12_000, 2_000))
    case Coordinator => StageCaps(2, Tokens(8_000, 2_000))
  }

  predicate HasStage(c: Candidate, s: Stage)
  {
    match c
    case RulesCandidate => false
    case SingleCandidate => s == Single
    case GraphCandidate => s != Single
  }

  datatype Reservation = Reservation(id: nat, stage: Stage, bound: Tokens, cost: int)

  datatype StageUsage = StageUsage(
    requests: int, actualInput: int, actualOutput: int, reservedInput: int, reservedOutput: int)
  {
    function Reserving(bound: Tokens): StageUsage
    {
      StageUsage(requests + 1, actualInput, actualOutput, reservedInput + bound.input, reservedOutput + bound.output)
    }

    function Settling(bound: Tokens, charge: Tokens): StageUsage
    {
      StageUsage(requests, actualInput + charge.input, actualOutput + charge.output,
                 reservedInput - bound.input, reservedOutput - bound.output)
    }
  }

  const UNUSED := StageUsage(0, 0, 0, 0, 0)

  /** The usage of each stage; a stage that the candidate does not have stays unused. */
  datatype Stages = Stages(
    single: StageUsage, receiving: StageUsage, fulfillment: StageUsage, coordinator: StageUsage)
  {
    function Get(s: Stage): StageUsage
    {
      match s
      case Single => single
      case Receiving => receiving
      case Fulfillment => fulfillment
      case Coordinator => coordinator
    }

    function Set(s: Stage, u: StageUsage): Stages
    {
      match s
      case Single => this.(single := u)
      case Receiving => this.(receiving := u)
      case Fulfillment => this.(fulfillment := u)
      case Coordinator => this.(coordinator := u)
    }

    function Requests(): int
    {
      single.requests + receiving.requests + fulfillment.requests + coordinator.requests
    }
  }

  datatype Note = UnknownUsage(stage: Stage, id: nat) | Exceeded(stage: Stage, id: nat)

  datatype BudgetError =
    | BadInputBound | BadOutputBound | AboveRequestCeiling | UnknownStage
    | StageRequestCap | WorkflowRequestCap | StageInputCap | WorkflowInputCap
    | OutputAllowance | WorkflowCostCap
    | MalformedUsage | UnknownReservation | Underestimated
    | NoAllowance | BadModelConfig | ClampRefused | UsageAbsent

  datatype Ledger = Ledger(
    candidate: Candidate,
    nextId: nat,
    reservations: map<nat, Reservation>,
    stages: Stages,
    actualInput: int,
    actualOutput: int,
    actualCache: int,
    reservedInput: int,
    reservedOutput: int,
    underestimated: bool,
    notes: seq<Note>)

  function Fresh(c: Candidate): Ledger
  {
    Ledger(c, 1, map[], Stages(UNUSED, UNUSED, UNUSED, UNUSED), 0, 0, 0, 0, 0, false, [])
  }

  function ActualCost(l: Ledger): int { Cost(l.actualInput, l.actualOutput) }

  function ReservedCost(l: Ledger): int { Cost(l.reservedInput, l.reservedOutput) }

  function Min(a: int, b: int): int { if a <= b then a else b }

  function RemainingStageOutput(l: Ledger, s: Stage): Result<int, BudgetError>
  {
    if !HasStage(l.candidate, s) then Err(UnknownStage)
    else Ok(Caps(s).tokens.output - l.stages.Get(s).actualOutput - l.stages.Get(s).reservedOutput)
  }

  /** The first admission check that a request fails, in the order the ledger makes them. */
  function Refusal(l: Ledger, s: Stage, bound: Tokens): Option<BudgetError>
  {
    if bound.input <= 0 then Some(BadInputBound)
    else if bound.output <= 0 then Some(BadOutputBound)
    else if bound.output > MAX_REQUEST_OUTPUT then Some(AboveRequestCeiling)
    else if !HasStage(l.candidate, s) then Some(UnknownStage)
    else
      var u, caps := l.stages.Get(s), Caps(s);
      if u.requests >= caps.requests then Some(StageRequestCap)
      else if l.stages.Requests() >= WORKFLOW_REQUESTS then Some(WorkflowRequestCap)
      else if u.actualInput + u.reservedInput + bound.input > caps.tokens.input then Some(StageInputCap)
      else if l.actualInput + l.reservedInput + bound.input > WORKFLOW_TOKENS.input then Some(WorkflowInputCap)
      else
        var remainingStage := caps.tokens.output - u.actualOutput - u.reservedOutput;
        var remainingWorkflow := WORKFLOW_TOKENS.output - l.actualOutput - l.reservedOutput;
        if Min(bound.output, Min(remainingStage, remainingWorkflow)) != bound.output then Some(OutputAllowance)
        else if ActualCost(l) + ReservedCost(l) + bound.Price() > WORKFLOW_COST_CAP then Some(WorkflowCostCap)
        else None
  }

  function NextReservation(l: Ledger, s: Stage, bound: Tokens): Reservation
  {
    Reservation(l.nextId, s, bound, bound.Price())
  }

  function Admitted(l: Ledger, s: Stage, bound: Tokens): Ledger
  {
    l.(nextId := l.nextId + 1,
       reservations := l.reservations[l.nextId := NextReservation(l, s, bound)],
       stages := l.stages.Set(s, l.stages.Get(s).Reserving(bound)),
       reservedInput := l.reservedInput + bound.input,
       reservedOutput := l.reservedOutput + bound.output)
  }

  /** What the provider reported for one request, if it reported anything. */
  datatype Report = Report(tokens: Tokens, cache: int, unknown: bool)

  function Charged(r: Reservation, report: Report): Tokens
  {
    if report.unknown then r.bound else report.tokens
  }

  /** The books after an outstanding reservation is replaced by its charge. */
  function Settled(l: Ledger, r: Reservation, report: Report): Ledger
  {
    var charge := Charged(r, report);
    l.(reservations := l.reservations - {r.id},
       stages := l.stages.Set(r.stage, l.stages.Get(r.stage).Settling(r.bound, charge)),
       actualInput := l.actualInput + charge.input,
       actualOutput := l.actualOutput + charge.output,
       actualCache := l.actualCache + report.cache,
       reservedInput := l.reservedInput - r.bound.input,
       reservedOutput := l.reservedOutput - r.bound.output,
       notes := if report.unknown then l.notes + [UnknownUsage(r.stage, r.id)] else l.notes)
  }

  predicate Exceeds(l: Ledger, r: Reservation, charge: Tokens)
  {
    || !charge.FitsIn(r.bound)
    || l.stages.Get(r.stage).actualInput > Caps(r.stage).tokens.input
    || l.stages.Get(r.stage).actualOutput > Caps(r.stage).tokens.output
    || l.actualInput > WORKFLOW_TOKENS.input
    || l.actualOutput > WORKFLOW_TOKENS.output
    || ActualCost(l) > WORKFLOW_COST_CAP
  }

  function Flagged(l: Ledger, r: Reservation): Ledger
  {
    l.(underestimated := true, notes := l.notes + [Exceeded(r.stage, r.id)])
  }

  /** The state after a reconciliation and the error it raises, if any. */
  function Reconciled(l: Ledger, r: Reservation, report: Report): (Ledger, Option<BudgetError>)
  {
    if !report.tokens.NonNegative() || report.cache < 0 then (l, Some(MalformedUsage))
    else if r.id !in l.reservations || l.reservations[r.id] != r then
      // The entry is removed before it is compared with the caller's reservation.
      (l.(reservations := l.reservations - {r.id}), Some(UnknownReservation))
    else if !HasStage(l.candidate, r.stage) then (l.(reservations := l.reservations - {r.id}), Some(UnknownStage))
    else if Exceeds(Settled(l, r, report), r, Charged(r, report)) then
      (Flagged(Settled(l, r, report), r), Some(Underestimated))
    else (Settled(l, r, report), None)
  }

  // ---------------------------------------------------------------------------
  // What every operation keeps
  // ---------------------------------------------------------------------------

  function Weight(m: map<nat, Reservation>, id: nat, s: Option<Stage>, output: bool): int
  {
    if id in m && (s.None? || m[id].stage == s.value)
    then if output then m[id].bound.output else m[id].bound.input
    else 0
  }

  /** Input or output tokens held by the outstanding reservations below `n`, of one stage or of all. */
  function Held(m: map<nat, Reservation>, n: nat, s: Option<Stage>, output: bool): int
  {
    if n == 0 then 0 else Held(m, n - 1, s, output) + Weight(m, n - 1, s, output)
  }

  ghost predicate OnBooks(l: Ledger, id: nat)
    requires id in l.reservations
  {
    var r := l.reservations[id];
    && r.id == id < l.nextId
    && HasStage(l.candidate, r.stage)
    && 0 < r.bound.input && 0 < r.bound.output <= MAX_REQUEST_OUTPUT
    && r.cost == r.bound.Price()
  }

  ghost predicate Booked(l: Ledger)
  {
    forall id :: id in l.reservations ==> OnBooks(l, id)
  }

  ghost predicate StageBalanced(l: Ledger, s: Stage)
  {
    var u := l.stages.Get(s);
    && u.reservedInput == Held(l.reservations, l.nextId, Some(s), false)
    && u.reservedOutput == Held(l.reservations, l.nextId, Some(s), true)
    && 0 <= u.actualInput && 0 <= u.actualOutput
    && 0 <= u.requests <= Caps(s).requests
    && (!HasStage(l.candidate, s) ==> u == UNUSED)
  }

  ghost predicate WorkflowBalanced(l: Ledger)
  {
    var t := l.stages;
    && l.reservedInput == Held(l.reservations, l.nextId, None, false)
    && l.reservedOutput == Held(l.reservations, l.nextId, None, true)
    && l.reservedInput ==
         t.single.reservedInput + t.receiving.reservedInput + t.fulfillment.reservedInput + t.coordinator.reservedInput
    && l.reservedOutput ==
         t.single.reservedOutput + t.receiving.reservedOutput
         + t.fulfillment.reservedOutput + t.coordinator.reservedOutput
    && l.actualInput ==
         t.single.actualInput + t.receiving.actualInput + t.fulfillment.actualInput + t.coordinator.actualInput
    && l.actualOutput ==
         t.single.actualOutput + t.receiving.actualOutput + t.fulfillment.actualOutput + t.coordinator.actualOutput
    && t.Requests() == l.nextId - 1
  }

  /** Every counter equals the sum it stands for. */
  ghost predicate Balanced(l: Ledger)
  {
    Booked(l) && (forall s :: StageBalanced(l, s)) && WorkflowBalanced(l)
  }

  predicate WithinStageCap(l: Ledger, s: Stage)
  {
    && l.stages.Get(s).actualInput + l.stages.Get(s).reservedInput <= Caps(s).tokens.input
    && l.stages.Get(s).actualOutput + l.stages.Get(s).reservedOutput <= Caps(s).tokens.output
  }

  ghost predicate WithinStageCaps(l: Ledger)
  {
    forall s :: WithinStageCap(l, s)
  }

  ghost predicate WithinWorkflowCaps(l: Ledger)
  {
    && l.actualInput + l.reservedInput <= WORKFLOW_TOKENS.input
    && l.actualOutput + l.reservedOutput <= WORKFLOW_TOKENS.output
    && ActualCost(l) + ReservedCost(l) <= WORKFLOW_COST_CAP
    && l.stages.Requests() <= WORKFLOW_REQUESTS
  }

  ghost predicate Sound(l: Ledger)
  {
    Balanced(l) && (!l.underestimated ==> WithinStageCaps(l))
  }

  lemma {:induction false} HeldFrame(
    m: map<nat, Reservation>, m': map<nat, Reservation>, n: nat, s: Option<Stage>, output: bool)
    requires forall k :: 0 <= k < n ==> Weight(m, k, s, output) == Weight(m', k, s, output)
    ensures Held(m, n, s, output) == Held(m', n, s, output)
  {
    if n != 0 { HeldFrame(m, m', n - 1, s, output); }
  }

  lemma {:induction false} HeldRemove(m: map<nat, Reservation>, n: nat, id: nat, s: Option<Stage>, output: bool)
    requires id in m && id < n
    ensures Held(m - {id}, n, s, output) == Held(m, n, s, output) - Weight(m, id, s, output)
  {
    if id == n - 1 {
      HeldFrame(m, m - {id}, n - 1, s, output);
    } else {
      HeldRemove(m, n - 1, id, s, output);
    }
  }

  lemma {:induction false} HeldAtLeast(m: map<nat, Reservation>, n: nat, s: Option<Stage>, output: bool)
    requires forall id :: id in m ==> m[id].bound.NonNegative()
    ensures 0 <= Held(m, n, s, output)
  {
    if n != 0 { HeldAtLeast(m, n - 1, s, output); }
  }

  lemma {:induction false} HeldNothing(n: nat, s: Option<Stage>, output: bool)
    ensures Held(map[], n, s, output) == 0
  {
    if n != 0 { HeldNothing(n - 1, s, output); }
  }

  lemma FreshStage(c: Candidate, s: Stage)
    ensures StageBalanced(Fresh(c), s) && WithinStageCap(Fresh(c), s)
  {}

  lemma FreshIsSound(c: Candidate)
    ensures Sound(Fresh(c))
  {
    HeldNothing(1, None, false);
    HeldNothing(1, None, true);
    forall s ensures StageBalanced(Fresh(c), s) && WithinStageCap(Fresh(c), s) { FreshStage(c, s); }
  }

  lemma AdmissionKeepsBalance(l: Ledger, s: Stage, bound: Tokens)
    requires Balanced(l) && HasStage(l.candidate, s) && l.stages.Get(s).requests < Caps(s).requests
    requires 0 < bound.input && 0 < bound.output <= MAX_REQUEST_OUTPUT
    ensures Balanced(Admitted(l, s, bound))
    ensures l.nextId !in l.reservations
  {
    var l' := Admitted(l, s, bound);
    assert l.nextId in l.reservations ==> OnBooks(l, l.nextId);
    forall id | id in l'.reservations ensures OnBooks(l', id) { assert id in l.reservations ==> OnBooks(l, id); }
    forall t: Option<Stage>, o: bool
      ensures Held(l'.reservations, l'.nextId, t, o) ==
              Held(l.reservations, l.nextId, t, o) + Weight(l'.reservations, l.nextId, t, o)
    {
      HeldFrame(l.reservations, l'.reservations, l.nextId, t, o);
    }
    forall t ensures StageBalanced(l', t) { assert StageBalanced(l, t); }
  }

  /** Admission keeps the books balanced and, while nothing was underestimated, inside the caps. */
  lemma AdmissionKeepsSound(l: Ledger, s: Stage, bound: Tokens)
    requires Sound(l) && Refusal(l, s, bound).None?
    ensures Sound(Admitted(l, s, bound))
    ensures l.nextId !in l.reservations
  {
    AdmissionKeepsBalance(l, s, bound);
    if !l.underestimated {
      forall t ensures WithinStageCap(Admitted(l, s, bound), t) { assert WithinStageCap(l, t); }
    }
  }

  /** `r` cannot be mistaken for another request: its id is outstanding as `r`, or not outstanding at all. */
  predicate Genuine(l: Ledger, r: Reservation)
  {
    r.id in l.reservations ==> l.reservations[r.id] == r
  }

  lemma SettlementReleases(l: Ledger, r: Reservation, report: Report, t: Option<Stage>, output: bool)
    requires Booked(l) && r.id in l.reservations && l.reservations[r.id] == r
    ensures Held(Settled(l, r, report).reservations, l.nextId, t, output)
            == Held(l.reservations, l.nextId, t, output) - Weight(l.reservations, r.id, t, output)
  {
    assert OnBooks(l, r.id);
    HeldRemove(l.reservations, l.nextId, r.id, t, output);
  }

  lemma SettlementKeepsStage(l: Ledger, r: Reservation, report: Report, t: Stage)
    requires Booked(l) && StageBalanced(l, t) && r.id in l.reservations && l.reservations[r.id] == r
    requires report.tokens.NonNegative()
    ensures StageBalanced(Settled(l, r, report), t)
  {
    assert OnBooks(l, r.id);
    SettlementReleases(l, r, report, Some(t), false);
    SettlementReleases(l, r, report, Some(t), true);
  }

  lemma SettlementKeepsBalance(l: Ledger, r: Reservation, report: Report)
    requires Balanced(l) && r.id in l.reservations && l.reservations[r.id] == r
    requires report.tokens.NonNegative()
    ensures Balanced(Settled(l, r, report))
  {
    var l' := Settled(l, r, report);
    assert OnBooks(l, r.id);
    forall id | id in l'.reservations ensures OnBooks(l', id) { assert OnBooks(l, id); }
    SettlementReleases(l, r, report, None, false);
    SettlementReleases(l, r, report, None, true);
    forall t ensures StageBalanced(l', t) { SettlementKeepsStage(l, r, report, t); }
  }

  lemma FlagKeepsBalance(l: Ledger, r: Reservation)
    requires Balanced(l)
    ensures Balanced(Flagged(l, r))
  {
    forall t ensures StageBalanced(Flagged(l, r), t) { assert StageBalanced(l, t); }
    forall id | id in l.reservations ensures OnBooks(Flagged(l, r), id) { assert OnBooks(l, id); }
  }

  lemma SettlementKeepsCaps(l: Ledger, r: Reservation, report: Report)
    requires WithinStageCaps(l) && Charged(r, report).FitsIn(r.bound)
    ensures WithinStageCaps(Settled(l, r, report))
  {
    forall t ensures WithinStageCap(Settled(l, r, report), t) { assert WithinStageCap(l, t); }
  }

  lemma ReconciliationKeepsSound(l: Ledger, r: Reservation, report: Report)
    requires Sound(l) && Genuine(l, r)
    ensures Sound(Reconciled(l, r, report).0)
  {
    if report.tokens.NonNegative() && 0 <= report.cache {
      if r.id in l.reservations {
        var l' := Settled(l, r, report);
        SettlementKeepsBalance(l, r, report);
        assert OnBooks(l, r.id);
        if Exceeds(l', r, Charged(r, report)) {
          FlagKeepsBalance(l', r);
        } else if !l.underestimated {
          SettlementKeepsCaps(l, r, report);
        }
      } else {
        assert l.reservations - {r.id} == l.reservations;
      }
    }
  }

  /**
   Because the entry is popped before it is compared, a forged reservation, one whose id is
   outstanding as another request, unbalances the books, and it is the only kind that does.
   */
  lemma BalanceNeedsGenuineReservation(l: Ledger, r: Reservation, report: Report)
    requires Sound(l)
    requires report.tokens.NonNegative() && 0 <= report.cache
    ensures Balanced(Reconciled(l, r, report).0) <==> Genuine(l, r)
  {
    if Genuine(l, r) {
      ReconciliationKeepsSound(l, r, report);
    } else {
      assert OnBooks(l, r.id);
      HeldRemove(l.reservations, l.nextId, r.id, None, false);
    }
  }

  lemma OneOutstanding(c: Candidate, s: Stage, bound: Tokens) returns (l: Ledger, r: Reservation)
    requires Refusal(Fresh(c), s, bound).None?
    ensures r.bound == bound && r.id in l.reservations && l.reservations[r.id] == r
    ensures Sound(l) && l == Admitted(Fresh(c), s, bound)
  {
    FreshIsSound(c);
    AdmissionKeepsSound(Fresh(c), s, bound);
    l := Admitted(Fresh(c), s, bound);
    r := NextReservation(Fresh(c), s, bound);
  }

  /** For one: a single outstanding request, whose caller hands back its id with another bound. */
  lemma ForgedReservationUnbalances(c: Candidate, s: Stage, bound: Tokens, forged: Tokens, report: Report)
    returns (l: Ledger, r: Reservation)
    requires Refusal(Fresh(c), s, bound).None? && forged != bound
    requires report.tokens.NonNegative() && 0 <= report.cache
    ensures l == Admitted(Fresh(c), s, bound) && Balanced(l)
    ensures Reconciled(l, r, report).1 == Some(UnknownReservation) && !Balanced(Reconciled(l, r, report).0)
  {
    var issued;
    l, issued := OneOutstanding(c, s, bound);
    r := issued.(bound := forged);
    BalanceNeedsGenuineReservation(l, r, report);
  }

  /**
   Reconciling an outstanding request moves tokens from reserved to actual: what is committed stays the same
   exactly when the whole bound is charged, as unknown usage always is, and grows only above the bound.
   Other stages and other requests are not touched.
   */
  lemma ReconciliationMovesTheBound(l: Ledger, r: Reservation, report: Report)
    requires Sound(l) && r.id in l.reservations && l.reservations[r.id] == r
    requires report.tokens.NonNegative() && 0 <= report.cache
    ensures var l', charge := Reconciled(l, r, report).0, Charged(r, report);
            && (l'.actualInput + l'.reservedInput == l.actualInput + l.reservedInput <==> charge.input == r.bound.input)
            && (l'.actualOutput + l'.reservedOutput == l.actualOutput + l.reservedOutput <==>
                charge.output == r.bound.output)
            && (charge.FitsIn(r.bound) ==> ActualCost(l') + ReservedCost(l') <= ActualCost(l) + ReservedCost(l))
            && (report.unknown ==> ActualCost(l') + ReservedCost(l') == ActualCost(l) + ReservedCost(l))
            && (forall s :: s != r.stage ==> l'.stages.Get(s) == l.stages.Get(s))
            && l'.stages.Requests() == l.stages.Requests() && l'.actualCache == l.actualCache + report.cache
            && (forall id :: id in l'.reservations <==> id in l.reservations && id != r.id)
  {
    assert OnBooks(l, r.id);
  }

  /** Usage is malformed exactly when a count is negative, and then nothing changes. */
  lemma MalformedIffNegative(l: Ledger, r: Reservation, report: Report)
    ensures Reconciled(l, r, report).1 == Some(MalformedUsage) <==>
            report.tokens.input < 0 || report.tokens.output < 0 || report.cache < 0
    ensures Reconciled(l, r, report).1 == Some(MalformedUsage) ==> Reconciled(l, r, report).0 == l
  {}

  /** A reservation that is not the outstanding one, or of a foreign stage, is refused, and its id is popped. */
  lemma ForeignReservationIsPopped(l: Ledger, r: Reservation, report: Report)
    requires report.tokens.NonNegative() && 0 <= report.cache
    ensures var (l', error) := Reconciled(l, r, report);
            var outstanding := r.id in l.reservations && l.reservations[r.id] == r;
            && (error == Some(UnknownReservation) <==> !outstanding)
            && (error == Some(UnknownStage) <==> outstanding && !HasStage(l.candidate, r.stage))
            && (error in {Some(UnknownReservation), Some(UnknownStage)} ==>
                  l' == l.(reservations := l.reservations - {r.id}))
  {}

  /** What a ledger has spent is inside every cap that a request of the stage is held to. */
  predicate SpentWithinCaps(l: Ledger, s: Stage)
  {
    && Tokens(l.stages.Get(s).actualInput, l.stages.Get(s).actualOutput).FitsIn(Caps(s).tokens)
    && Tokens(l.actualInput, l.actualOutput).FitsIn(WORKFLOW_TOKENS)
    && ActualCost(l) <= WORKFLOW_COST_CAP
  }

  /** On every ledger, underestimated ones included, overuse of a bound or a cap is raised, flagged and noted. */
  lemma OveruseIsRaised(l: Ledger, r: Reservation, report: Report)
    requires r.id in l.reservations && l.reservations[r.id] == r && HasStage(l.candidate, r.stage)
    requires report.tokens.NonNegative() && 0 <= report.cache
    ensures var (l', error) := Reconciled(l, r, report);
            && (error.None? <==> (report.unknown || report.tokens.FitsIn(r.bound)) && SpentWithinCaps(l', r.stage))
            && (error.Some? ==>
                  && error == Some(Underestimated) && l'.underestimated)
            && (error.None? ==> l'.underestimated == l.underestimated)
            && l'.notes == l.notes + (if report.unknown then [UnknownUsage(r.stage, r.id)] else [])
                           + (if error.Some? then [Exceeded(r.stage, r.id)] else [])
  {}

  // ---------------------------------------------------------------------------
  // Admission is room for the whole bound
  // ---------------------------------------------------------------------------

  /** Spent and reserved together are inside the caps of the stage and of the workflow. */
  predicate CommittedWithinCaps(l: Ledger, s: Stage)
  {
    var u := l.stages.Get(s);
    && u.requests <= Caps(s).requests && l.stages.Requests() <= WORKFLOW_REQUESTS
    && Tokens(u.actualInput + u.reservedInput, u.actualOutput + u.reservedOutput).FitsIn(Caps(s).tokens)
    && Tokens(l.actualInput + l.reservedInput, l.actualOutput + l.reservedOutput).FitsIn(WORKFLOW_TOKENS)
    && ActualCost(l) + ReservedCost(l) <= WORKFLOW_COST_CAP
  }

  /** On every ledger, a well-formed request is admitted if and only if every cap still holds with it on the books. */
  lemma AdmittedIffItFits(l: Ledger, s: Stage, bound: Tokens)
    ensures Refusal(l, s, bound).None? <==>
            && 0 < bound.input && 0 < bound.output <= 1_024 && HasStage(l.candidate, s)
            && CommittedWithinCaps(Admitted(l, s, bound), s)
    ensures Refusal(l, s, bound) != Some(WorkflowCostCap)
  {}

  /** A refusal names a cap that the request would break. */
  lemma RefusalNamesItsCap(l: Ledger, s: Stage, bound: Tokens)
    ensures var l', u := Admitted(l, s, bound), Admitted(l, s, bound).stages.Get(s);
            match Refusal(l, s, bound)
            case None => true
            case Some(BadInputBound) => bound.input <= 0
            case Some(BadOutputBound) => bound.output <= 0
            case Some(AboveRequestCeiling) => bound.output > 1_024
            case Some(UnknownStage) => !HasStage(l.candidate, s)
            case Some(StageRequestCap) => u.requests > Caps(s).requests
            case Some(WorkflowRequestCap) => l'.stages.Requests() > WORKFLOW_REQUESTS
            case Some(StageInputCap) => u.actualInput + u.reservedInput > Caps(s).tokens.input
            case Some(WorkflowInputCap) => l'.actualInput + l'.reservedInput > WORKFLOW_TOKENS.input
            case Some(OutputAllowance) =>
              || u.actualOutput + u.reservedOutput > Caps(s).tokens.output
              || l'.actualOutput + l'.reservedOutput > WORKFLOW_TOKENS.output
            case Some(WorkflowCostCap) => ActualCost(l') + ReservedCost(l') > WORKFLOW_COST_CAP
            case Some(_) => false
  {}

  // ---------------------------------------------------------------------------
  // Stage admission is enough
  // ---------------------------------------------------------------------------

  /** The stage's own share of the admission checks. */
  predicate StageAdmits(l: Ledger, s: Stage, bound: Tokens)
  {
    && 0 < bound.input && 0 < bound.output <= MAX_REQUEST_OUTPUT
    && HasStage(l.candidate, s)
    && l.stages.Get(s).requests < Caps(s).requests
    && l.stages.Get(s).actualInput + l.stages.Get(s).reservedInput + bound.input <= Caps(s).tokens.input
    && l.stages.Get(s).actualOutput + l.stages.Get(s).reservedOutput + bound.output <= Caps(s).tokens.output
  }

  /** The most a workflow within its stage caps can cost: 0.341 USD. */
  const WORST_CASE_COST := 3_410_000

  lemma StageCapsImplyWorkflowCaps(l: Ledger)
    requires Balanced(l) && WithinStageCaps(l)
    ensures WithinWorkflowCaps(l)
    ensures ActualCost(l) + ReservedCost(l) <= WORST_CASE_COST < WORKFLOW_COST_CAP
  {
    assert StageBalanced(l, Single) && WithinStageCap(l, Single);
    assert StageBalanced(l, Receiving) && WithinStageCap(l, Receiving);
    assert StageBalanced(l, Fulfillment) && WithinStageCap(l, Fulfillment);
    assert StageBalanced(l, Coordinator) && WithinStageCap(l, Coordinator);
  }

  // A stage with room left leaves the workflow as much room.
  lemma StageRoomIsWorkflowRoom(l: Ledger, s: Stage)
    requires Sound(l) && !l.underestimated && HasStage(l.candidate, s)
    ensures WORKFLOW_REQUESTS - l.stages.Requests() >= Caps(s).requests - l.stages.Get(s).requests
    ensures WORKFLOW_TOKENS.input - l.actualInput - l.reservedInput >=
            Caps(s).tokens.input - l.stages.Get(s).actualInput - l.stages.Get(s).reservedInput
    ensures WORKFLOW_TOKENS.output - l.actualOutput - l.reservedOutput >=
            Caps(s).tokens.output - l.stages.Get(s).actualOutput - l.stages.Get(s).reservedOutput
  {
    assert StageBalanced(l, Single) && WithinStageCap(l, Single);
    assert StageBalanced(l, Receiving) && WithinStageCap(l, Receiving);
    assert StageBalanced(l, Fulfillment) && WithinStageCap(l, Fulfillment);
    assert StageBalanced(l, Coordinator) && WithinStageCap(l, Coordinator);
  }

  /** While nothing was underestimated, the workflow-level checks refuse nothing on their own. */
  lemma StageAdmissionSuffices(l: Ledger, s: Stage, bound: Tokens)
    requires Sound(l) && !l.underestimated
    ensures Refusal(l, s, bound).None? <==> StageAdmits(l, s, bound)
    ensures Refusal(l, s, bound) !in {Some(WorkflowRequestCap), Some(WorkflowInputCap), Some(WorkflowCostCap)}
  {
    if HasStage(l.candidate, s) { StageRoomIsWorkflowRoom(l, s); }
  }

  /** Of the seven reasons to mark a ledger underestimated, only the request's own bound can be the first. */
  lemma FirstUnderestimateIsItsOwn(l: Ledger, r: Reservation, report: Report)
    requires Sound(l) && !l.underestimated
    requires r.id in l.reservations && l.reservations[r.id] == r
    requires report.tokens.NonNegative() && 0 <= report.cache
    ensures Reconciled(l, r, report).0.underestimated <==> !report.unknown && !report.tokens.FitsIn(r.bound)
    ensures Reconciled(l, r, report).1.Some? <==> Reconciled(l, r, report).0.underestimated
  {
    assert OnBooks(l, r.id);
    StageCapsImplyWorkflowCaps(l);
    var rest := l.reservations - {r.id};
    forall id | id in rest ensures rest[id].bound.NonNegative() { assert OnBooks(l, id); }
    forall t: Option<Stage>, o: bool
      ensures 0 <= Held(rest, l.nextId, t, o)
      ensures Held(rest, l.nextId, t, o) ==
              Held(l.reservations, l.nextId, t, o) - Weight(l.reservations, r.id, t, o)
    {
      HeldRemove(l.reservations, l.nextId, r.id, t, o);
      HeldAtLeast(rest, l.nextId, t, o);
    }
    assert StageBalanced(l, r.stage) && WithinStageCap(l, r.stage);
  }

  // ---------------------------------------------------------------------------
  // Whole runs
  // ---------------------------------------------------------------------------

  datatype Op =
    | Reserve(stage: Stage, bound: Tokens)
    | Reconcile(reservation: Reservation, report: Report)

  function ApplyOp(l: Ledger, op: Op): Ledger
  {
    match op
    case Reserve(s, bound) => if Refusal(l, s, bound).None? then Admitted(l, s, bound) else l
    case Reconcile(r, report) => Reconciled(l, r, report).0
  }

  function RunOps(l: Ledger, ops: seq<Op>): Ledger
    decreases |ops|
  {
    if ops == [] then l else RunOps(ApplyOp(l, ops[0]), ops[1..])
  }

  /** Callers hand back only reservations that this ledger gave them. */
  predicate Honest(l: Ledger, ops: seq<Op>)
    decreases |ops|
  {
    ops == [] ||
    (&& (ops[0].Reconcile? ==> Genuine(l, ops[0].reservation))
     && Honest(ApplyOp(l, ops[0]), ops[1..]))
  }

  lemma StepKeepsSound(l: Ledger, op: Op)
    requires Sound(l) && Honest(l, [op])
    ensures Sound(ApplyOp(l, op))
  {
    match op
    case Reserve(s, bound) => if Refusal(l, s, bound).None? { AdmissionKeepsSound(l, s, bound); }
    case Reconcile(r, report) => ReconciliationKeepsSound(l, r, report);
  }

  lemma {:induction false} RunKeepsSound(l: Ledger, ops: seq<Op>)
    requires Sound(l) && Honest(l, ops)
    ensures Sound(RunOps(l, ops))
    ensures !RunOps(l, ops).underestimated ==> WithinStageCaps(RunOps(l, ops)) && WithinWorkflowCaps(RunOps(l, ops))
    decreases |ops|
  {
    if ops == [] {
      if !l.underestimated { StageCapsImplyWorkflowCaps(l); }
    } else {
      StepKeepsSound(l, ops[0]);
      RunKeepsSound(ApplyOp(l, ops[0]), ops[1..]);
    }
  }

  /** From a fresh ledger, any honest run balances its books and stays within every cap. */
  lemma BudgetHoldsInEveryRun(c: Candidate, ops: seq<Op>)
    requires Honest(Fresh(c), ops)
    ensures Balanced(RunOps(Fresh(c), ops))
    ensures !RunOps(Fresh(c), ops).underestimated ==>
              WithinStageCaps(RunOps(Fresh(c), ops)) && WithinWorkflowCaps(RunOps(Fresh(c), ops))
  {
    FreshIsSound(c);
    RunKeepsSound(Fresh(c), ops);
  }

  predicate TouchesStage(op: Op, s: Stage)
  {
    match op
    case Reserve(t, _) => t == s
    case Reconcile(r, _) => r.stage == s
  }

  lemma {:induction false} OtherStagesLeaveStageAlone(l: Ledger, ops: seq<Op>, s: Stage)
    requires forall op :: op in ops ==> !TouchesStage(op, s)
    ensures RunOps(l, ops).candidate == l.candidate
    ensures RunOps(l, ops).stages.Get(s) == l.stages.Get(s)
    decreases |ops|
  {
    if ops != [] {
      assert !TouchesStage(ops[0], s);
      OtherStagesLeaveStageAlone(ApplyOp(l, ops[0]), ops[1..], s);
    }
  }

  // ---------------------------------------------------------------------------
  // Every admission counts
  // ---------------------------------------------------------------------------

  predicate Admits(l: Ledger, op: Op, s: Stage)
  {
    op.Reserve? && op.stage == s && Refusal(l, s, op.bound).None?
  }

  /** How many requests of stage `s` a run admits. */
  function Admissions(l: Ledger, ops: seq<Op>, s: Stage): nat
    decreases |ops|
  {
    if ops == [] then 0
    else
      (if Admits(l, ops[0], s) then 1 else 0) + Admissions(ApplyOp(l, ops[0]), ops[1..], s)
  }

  lemma AdmissionCounts(l: Ledger, op: Op, s: Stage)
    ensures ApplyOp(l, op).candidate == l.candidate
    ensures ApplyOp(l, op).stages.Get(s).requests == l.stages.Get(s).requests + if Admits(l, op, s) then 1 else 0
  {}

  lemma {:induction false} RequestsCountAdmissions(l: Ledger, ops: seq<Op>, s: Stage)
    ensures RunOps(l, ops).candidate == l.candidate
    ensures RunOps(l, ops).stages.Get(s).requests == l.stages.Get(s).requests + Admissions(l, ops, s)
    decreases |ops|
  {
    hide ApplyOp, Admits;
    if ops != [] {
      AdmissionCounts(l, ops[0], s);
      RequestsCountAdmissions(ApplyOp(l, ops[0]), ops[1..], s);
    }
  }

  lemma {:induction false} IdsCountAdmissions(l: Ledger, ops: seq<Op>)
    ensures RunOps(l, ops).nextId == l.nextId + Admissions(l, ops, Single) + Admissions(l, ops, Receiving)
                                     + Admissions(l, ops, Fulfillment) + Admissions(l, ops, Coordinator)
    decreases |ops|
  {
    if ops != [] { IdsCountAdmissions(ApplyOp(l, ops[0]), ops[1..]); }
  }

  lemma {:induction false} RequestsStayWithinCap(l: Ledger, ops: seq<Op>, s: Stage)
    requires l.stages.Get(s).requests <= Caps(s).requests
    ensures RunOps(l, ops).stages.Get(s).requests <= Caps(s).requests
    decreases |ops|
  {
    if ops != [] { RequestsStayWithinCap(ApplyOp(l, ops[0]), ops[1..], s); }
  }

  /** The most requests of one stage: eight alone, three for a specialist, two for the coordinator. */
  function MostRequests(s: Stage): nat
  {
    match s
    case Single => 8
    case Coordinator => 2
    case _ => 3
  }

  /**
   Over every run from a fresh ledger, forged reservations and underestimates included: a stage is admitted at most
   its number of requests, and once it has had them every further one is refused for that reason.
   */
  lemma AdmissionsStopAtTheCap(c: Candidate, ops: seq<Op>, s: Stage, bound: Tokens)
    ensures Admissions(Fresh(c), ops, s) <= MostRequests(s)
    ensures Admissions(Fresh(c), ops, s) == MostRequests(s) && HasStage(c, s)
            && 0 < bound.input && 0 < bound.output <= MAX_REQUEST_OUTPUT ==>
              Refusal(RunOps(Fresh(c), ops), s, bound) == Some(StageRequestCap)
    ensures RunOps(Fresh(c), ops).nextId == 1 + RunOps(Fresh(c), ops).stages.Requests()
  {
    hide Refusal, RunOps, Admissions;
    var l := RunOps(Fresh(c), ops);
    assert forall t :: Fresh(c).stages.Get(t) == UNUSED;
    RequestsCountAdmissions(Fresh(c), ops, s);
    RequestsStayWithinCap(Fresh(c), ops, s);
    if HasStage(c, s) && l.stages.Get(s).requests >= Caps(s).requests { SpentCapRefuses(l, s, bound); }
    RequestsCountAdmissions(Fresh(c), ops, Single);
    RequestsCountAdmissions(Fresh(c), ops, Receiving);
    RequestsCountAdmissions(Fresh(c), ops, Fulfillment);
    RequestsCountAdmissions(Fresh(c), ops, Coordinator);
    IdsCountAdmissions(Fresh(c), ops);
  }

  lemma SpentCapRefuses(l: Ledger, s: Stage, bound: Tokens)
    requires HasStage(l.candidate, s) && l.stages.Get(s).requests >= Caps(s).requests
    ensures 0 < bound.input && 0 < bound.output <= MAX_REQUEST_OUTPUT ==>
              Refusal(l, s, bound) == Some(StageRequestCap)
  {}

  /** `n` requests of one stage, each for one token in and one out, from a fresh ledger. */
  function Filled(c: Candidate, s: Stage, n: nat): Ledger
  {
    if n == 0 then Fresh(c) else ApplyOp(Filled(c, s, n - 1), Reserve(s, Tokens(1, 1)))
  }

  /** The usage is `n` requests of `s` and nothing else. */
  predicate OnlyThese(l: Ledger, c: Candidate, s: Stage, n: nat)
  {
    && l.candidate == c && l.nextId == n + 1 && !l.underestimated
    && l.stages == Stages(UNUSED, UNUSED, UNUSED, UNUSED).Set(s, StageUsage(n, 0, 0, n, n))
    && l.actualInput == 0 && l.actualOutput == 0 && l.reservedInput == n && l.reservedOutput == n
    && l.actualCache == 0 && l.notes == []
  }

  lemma SmallRequestFits(l: Ledger, c: Candidate, s: Stage, n: nat)
    requires HasStage(c, s) && n < MostRequests(s) && OnlyThese(l, c, s, n)
    ensures Refusal(l, s, Tokens(1, 1)).None?
  {}

  lemma NothingYet(c: Candidate, s: Stage)
    ensures OnlyThese(Fresh(c), c, s, 0)
  {}

  lemma SmallRequestAdds(l: Ledger, c: Candidate, s: Stage, n: nat)
    requires OnlyThese(l, c, s, n)
    ensures OnlyThese(Admitted(l, s, Tokens(1, 1)), c, s, n + 1)
  {}

  /** That many small requests are all admitted: no other cap refuses earlier. */
  lemma {:induction false} SmallRequestsReachTheCap(c: Candidate, s: Stage, n: nat)
    requires HasStage(c, s) && n <= MostRequests(s)
    ensures OnlyThese(Filled(c, s, n), c, s, n)
  {
    hide Refusal, Admitted, OnlyThese;
    if n == 0 {
      NothingYet(c, s);
    } else {
      SmallRequestsReachTheCap(c, s, n - 1);
      SmallRequestFits(Filled(c, s, n - 1), c, s, n - 1);
      SmallRequestAdds(Filled(c, s, n - 1), c, s, n - 1);
    }
  }

  /**
   The caps of the stages that a candidate has add up to the caps of its workflow, whose full use costs 0.341 USD;
   the rules have no stage.
   */
  lemma StageCapsAddUpToWorkflowCaps()
    ensures forall s :: HasStage(SingleCandidate, s) <==> s == Single
    ensures forall s :: HasStage(GraphCandidate, s) <==> s in {Receiving, Fulfillment, Coordinator}
    ensures forall s :: !HasStage(RulesCandidate, s)
    ensures Caps(Single) == StageCaps(WORKFLOW_REQUESTS, WORKFLOW_TOKENS) == StageCaps(8, Tokens(32_000, 6_000))
    ensures var r, f, k := Caps(Receiving), Caps(Fulfillment), Caps(Coordinator);
            && r == f == StageCaps(3, Tokens(12_000, 2_000)) && k == StageCaps(2, Tokens(8_000, 2_000))
            && r.requests + f.requests + k.requests == WORKFLOW_REQUESTS
            && r.tokens.input + f.tokens.input + k.tokens.input == WORKFLOW_TOKENS.input
            && r.tokens.output + f.tokens.output + k.tokens.output == WORKFLOW_TOKENS.output
    ensures WORKFLOW_TOKENS.Price() == WORST_CASE_COST == WORKFLOW_COST_CAP - 90_000
  {}

  /**
   A bound clamped to the stage's remaining output is never refused on output
   afterwards, whatever the other stages reserve and reconcile in between.
   */
  lemma ClampedBoundIsNotRefusedOnOutput(l: Ledger, s: Stage, ops: seq<Op>, bound: Tokens)
    requires Sound(l) && Honest(l, ops) && !RunOps(l, ops).underestimated
    requires forall op :: op in ops ==> !TouchesStage(op, s)
    requires RemainingStageOutput(l, s).Ok?
    requires 0 < bound.output <= Min(MAX_REQUEST_OUTPUT, RemainingStageOutput(l, s).value)
    ensures Refusal(RunOps(l, ops), s, bound) != Some(OutputAllowance)
  {
    RunKeepsSound(l, ops);
    OtherStagesLeaveStageAlone(l, ops, s);
    StageAdmissionSuffices(RunOps(l, ops), s, bound);
    StageRoomIsWorkflowRoom(RunOps(l, ops), s);
  }

  // ---------------------------------------------------------------------------
  // The ledger object
  // ---------------------------------------------------------------------------

  /** Each method below is one section under the ledger's lock. */
  class StrictWorkflowLedger {
    const candidate: Candidate
    var nextId: nat
    var reservations: map<nat, Reservation>
    var stages: Stages
    var actualInput: int
    var actualOutput: int
    var actualCache: int
    var reservedInput: int
    var reservedOutput: int
    var underestimated: bool
    var notes: seq<Note>

    ghost function State(): Ledger
      reads this
    {
      Ledger(candidate, nextId, reservations, stages, actualInput, actualOutput, actualCache,
             reservedInput, reservedOutput, underestimated, notes)
    }

    constructor (c: Candidate)
      ensures State() == Fresh(c)
    {
      candidate := c;
      nextId := 1;
      reservations := map[];
      stages := Stages(UNUSED, UNUSED, UNUSED, UNUSED);
      actualInput, actualOutput, actualCache := 0, 0, 0;
      reservedInput, reservedOutput := 0, 0;
      underestimated, notes := false, [];
    }

    /** The most that the stage can still be asked for: a request above it is refused. */
    method RemainingOutput(s: Stage) returns (remaining: Result<int, BudgetError>)
      ensures remaining == RemainingStageOutput(State(), s)
      ensures remaining.Err? <==> !HasStage(candidate, s)
      ensures remaining.Ok? ==>
                forall bound: Tokens :: bound.output > remaining.value ==> Refusal(State(), s, bound).Some?
    {
      if !HasStage(candidate, s) { return Err(UnknownStage); }
      var usage := stages.Get(s);
      remaining := Ok(Caps(s).tokens.output - usage.actualOutput - usage.reservedOutput);
    }

    /** A refused request changes nothing; an admitted one is recorded under a fresh id. */
    method Reserve(s: Stage, bound: Tokens) returns (r: Result<Reservation, BudgetError>)
      modifies this
      ensures r.Err? <==> Refusal(old(State()), s, bound).Some?
      ensures r.Err? ==> r.error == Refusal(old(State()), s, bound).value && unchanged(this)
      ensures r.Ok? ==> r.value == NextReservation(old(State()), s, bound)
      ensures r.Ok? ==> State() == Admitted(old(State()), s, bound)
      ensures State() == ApplyOp(old(State()), Op.Reserve(s, bound))
      ensures r.Ok? ==> stages.Get(s).requests == old(stages).Get(s).requests + 1
      ensures r.Ok? ==> forall t :: t != s ==> stages.Get(t) == old(stages).Get(t)
    {
      if bound.input <= 0 { return Err(BadInputBound); }
      if bound.output <= 0 { return Err(BadOutputBound); }
      if bound.output > MAX_REQUEST_OUTPUT { return Err(AboveRequestCeiling); }
      if !HasStage(candidate, s) { return Err(UnknownStage); }
      var usage, caps := stages.Get(s), Caps(s);
      if usage.requests >= caps.requests { return Err(StageRequestCap); }
      if stages.Requests() >= WORKFLOW_REQUESTS { return Err(WorkflowRequestCap); }
      if usage.actualInput + usage.reservedInput + bound.input > caps.tokens.input { return Err(StageInputCap); }
      if actualInput + reservedInput + bound.input > WORKFLOW_TOKENS.input { return Err(WorkflowInputCap); }
      var remainingStage := caps.tokens.output - usage.actualOutput - usage.reservedOutput;
      var remainingWorkflow := WORKFLOW_TOKENS.output - actualOutput - reservedOutput;
      if Min(bound.output, Min(remainingStage, remainingWorkflow)) != bound.output { return Err(OutputAllowance); }
      var estimated := bound.Price();
      if Cost(actualInput, actualOutput) + Cost(reservedInput, reservedOutput) + estimated > WORKFLOW_COST_CAP {
        return Err(WorkflowCostCap);
      }
      var reservation := Reservation(nextId, s, bound, estimated);
      Record(reservation);
      r := Ok(reservation);
    }

    method Record(r: Reservation)
      requires r == NextReservation(State(), r.stage, r.bound)
      modifies this
      ensures State() == Admitted(old(State()), r.stage, r.bound)
    {
      nextId := nextId + 1;
      reservations := reservations[r.id := r];
      stages := stages.Set(r.stage, stages.Get(r.stage).Reserving(r.bound));
      reservedInput := reservedInput + r.bound.input;
      reservedOutput := reservedOutput + r.bound.output;
    }

    /** No precondition on `r`: a foreign reservation is refused, but its id is popped first. */
    method Reconcile(r: Reservation, report: Report) returns (error: Option<BudgetError>)
      modifies this
      ensures (State(), error) == Reconciled(old(State()), r, report)
      ensures State() == ApplyOp(old(State()), Op.Reconcile(r, report))
      ensures error != Some(MalformedUsage) ==> r.id !in reservations
    {
      if report.tokens.input < 0 || report.tokens.output < 0 || report.cache < 0 { return Some(MalformedUsage); }
      var current := if r.id in reservations then Some(reservations[r.id]) else None;
      reservations := reservations - {r.id};
      if current != Some(r) { return Some(UnknownReservation); }
      if !HasStage(candidate, r.stage) { return Some(UnknownStage); }
      assert reservations - {r.id} == reservations;
      Settle(r, report);
      var exceeds := Exceeding(r, Charged(r, report));
      if exceeds {
        underestimated := true;
        notes := notes + [Exceeded(r.stage, r.id)];
        return Some(Underestimated);
      }
      error := None;
    }

    method Settle(r: Reservation, report: Report)
      requires r.id !in reservations
      modifies this
      ensures State() == Settled(old(State()), r, report)
    {
      assert reservations - {r.id} == reservations;
      var charge := Charged(r, report);
      stages := stages.Set(r.stage, stages.Get(r.stage).Settling(r.bound, charge));
      reservedInput := reservedInput - r.bound.input;
      reservedOutput := reservedOutput - r.bound.output;
      actualInput := actualInput + charge.input;
      actualOutput := actualOutput + charge.output;
      actualCache := actualCache + report.cache;
      if report.unknown { notes := notes + [UnknownUsage(r.stage, r.id)]; }
    }

    method Exceeding(r: Reservation, charge: Tokens) returns (b: bool)
      ensures b == Exceeds(State(), r, charge)
    {
      var usage := stages.Get(r.stage);
      b := || !charge.FitsIn(r.bound)
           || usage.actualInput > Caps(r.stage).tokens.input
           || usage.actualOutput > Caps(r.stage).tokens.output
           || actualInput > WORKFLOW_TOKENS.input
           || actualOutput > WORKFLOW_TOKENS.output
           || Cost(actualInput, actualOutput) > WORKFLOW_COST_CAP;
    }
  }
}
