/**
 The append-only ledger that all workflows of an experiment share. Its state is
 the fold of its rows; a workflow reserves before it runs and settles once.
 */
module DurableLedger {
  import opened Candidates
  import opened Wrappers
  import opened WorkflowBudget

  const EXPERIMENT_COST_CAP := 30_000_000

  datatype Row =
    | ReserveRow(runId: string, candidate: Candidate, amount: int)
    | SettleRow(runId: string, charge: int)

  datatype LogError = CapExhausted | NegativeCharge | NoUniqueReservation | ChargeAboveReservation

  function Requested(c: Candidate): int
  {
    if c == RulesCandidate then 0 else WORKFLOW_COST_CAP
  }

  /** The last reservation and the last settlement of each run id. */
  datatype LogState = LogState(reservations: map<string, int>, settlements: map<string, int>) {
    function Live(): map<string, int> { reservations - settlements.Keys }
  }

  function After(s: LogState, row: Row): LogState
  {
    match row
    case ReserveRow(id, _, amount) => s.(reservations := s.reservations[id := amount])
    case SettleRow(id, charge) => s.(settlements := s.settlements[id := charge])
  }

  function Fold(rows: seq<Row>): LogState
  {
    if rows == [] then LogState(map[], map[])
    else After(Fold(rows[..|rows| - 1]), rows[|rows| - 1])
  }

  ghost function Total(m: map<string, int>): int
    decreases |m|
  {
    if m == map[] then 0
    else
      var k :| k in m;
      m[k] + Total(m - {k})
  }

  ghost function Charged(s: LogState): int { Total(s.settlements) }

  ghost function UnsettledReserved(s: LogState): int { Total(s.Live()) }

  ghost function Committed(rows: seq<Row>): int
  {
    Charged(Fold(rows)) + UnsettledReserved(Fold(rows))
  }

  ghost function ReserveRefusal(rows: seq<Row>, c: Candidate): Option<LogError>
  {
    if Committed(rows) + Requested(c) > EXPERIMENT_COST_CAP then Some(CapExhausted) else None
  }

  function SettleRefusal(rows: seq<Row>, id: string, charge: int): Option<LogError>
  {
    var s := Fold(rows);
    if charge < 0 then Some(NegativeCharge)
    else if id !in s.reservations || id in s.settlements then Some(NoUniqueReservation)
    else if charge > s.reservations[id] then Some(ChargeAboveReservation)
    else None
  }

  datatype LogOp = ReserveRun(runId: string, candidate: Candidate) | SettleRun(runId: string, charge: int)

  ghost function Appended(rows: seq<Row>, op: LogOp): seq<Row>
  {
    match op
    case ReserveRun(id, c) =>
      if ReserveRefusal(rows, c).None? then rows + [ReserveRow(id, c, Requested(c))] else rows
    case SettleRun(id, charge) =>
      if SettleRefusal(rows, id, charge).None? then rows + [SettleRow(id, charge)] else rows
  }

  ghost function RunLog(rows: seq<Row>, ops: seq<LogOp>): seq<Row>
    decreases |ops|
  {
    if ops == [] then rows else RunLog(Appended(rows, ops[0]), ops[1..])
  }

  // ---------------------------------------------------------------------------
  // Totals of a dictionary
  // ---------------------------------------------------------------------------

  lemma {:induction false} TotalRemove(m: map<string, int>, k: string)
    requires k in m
    ensures Total(m) == m[k] + Total(m - {k})
    decreases |m|
  {
    var first :| first in m && Total(m) == m[first] + Total(m - {first});
    if first != k {
      TotalRemove(m - {first}, k);
      TotalRemove(m - {k}, first);
      assert m - {first} - {k} == m - {k} - {first};
    }
  }

  lemma TotalAdd(m: map<string, int>, k: string, v: int)
    ensures Total(m[k := v]) == v + Total(m - {k})
  {
    TotalRemove(m[k := v], k);
    assert m[k := v] - {k} == m - {k};
  }

  lemma {:induction false} TotalMonotone(a: map<string, int>, b: map<string, int>)
    requires forall k :: k in a ==> k in b && a[k] <= b[k]
    requires forall k :: k in b ==> 0 <= b[k]
    ensures Total(a) <= Total(b)
    decreases |b|
  {
    if b == map[] {
      assert a == map[];
    } else {
      var k :| k in b;
      TotalMonotone(a - {k}, b - {k});
      TotalRemove(b, k);
      if k in a { TotalRemove(a, k); } else { assert a - {k} == a; }
    }
  }

  lemma UnionRemove(a: map<string, int>, b: map<string, int>, k: string)
    requires a.Keys !! b.Keys && k in a
    ensures (a + b) - {k} == (a - {k}) + b && (a + b)[k] == a[k]
  {}

  lemma {:induction false} TotalUnion(a: map<string, int>, b: map<string, int>)
    requires a.Keys !! b.Keys
    ensures Total(a + b) == Total(a) + Total(b)
    decreases |a|
  {
    if a == map[] {
      assert a + b == b;
    } else {
      var k :| k in a;
      TotalUnion(a - {k}, b);
      TotalRemove(a, k);
      TotalRemove(a + b, k);
      UnionRemove(a, b, k);
    }
  }

  lemma {:induction false} TotalNonNegative(m: map<string, int>)
    requires forall k :: k in m ==> 0 <= m[k]
    ensures 0 <= Total(m)
    decreases |m|
  {
    if m != map[] {
      var k :| k in m;
      TotalNonNegative(m - {k});
      TotalRemove(m, k);
    }
  }

  lemma OneMore(unit: nat, n: nat)
    ensures unit * (n + 1) == unit * n + unit
  {}

  lemma {:induction false} TotalAtLeast(m: map<string, int>, ids: set<string>, unit: nat)
    requires forall k :: k in m ==> 0 <= m[k]
    requires forall k :: k in ids ==> k in m && unit <= m[k]
    ensures unit * |ids| <= Total(m)
    decreases |m|
  {
    if ids == {} {
      TotalNonNegative(m);
    } else {
      var k :| k in ids;
      TotalAtLeast(m - {k}, ids - {k}, unit);
      TotalRemove(m, k);
      OneMore(unit, |ids - {k}|);
    }
  }

  // ---------------------------------------------------------------------------
  // What every append keeps
  // ---------------------------------------------------------------------------

  ghost predicate Amounts(s: LogState)
  {
    && (forall id :: id in s.reservations ==> 0 <= s.reservations[id] <= WORKFLOW_COST_CAP)
    && (forall id :: id in s.settlements ==> id in s.reservations && 0 <= s.settlements[id])
  }

  ghost predicate LogSound(rows: seq<Row>)
  {
    Amounts(Fold(rows)) && Committed(rows) <= EXPERIMENT_COST_CAP
  }

  lemma FoldAppend(rows: seq<Row>, row: Row)
    ensures Fold(rows + [row]) == After(Fold(rows), row)
  {}

  lemma LiveAdds(m: map<string, int>, id: string, amount: int)
    ensures Total(m[id := amount]) == Total(m) + amount - if id in m then m[id] else 0
  {
    TotalAdd(m, id, amount);
    if id in m { TotalRemove(m, id); } else { assert m - {id} == m; }
  }

  lemma LiveAfterReservation(s: LogState, row: Row)
    requires row.ReserveRow?
    ensures After(s, row).Live() == if row.runId in s.settlements then s.Live() else s.Live()[row.runId := row.amount]
  {
    var s' := After(s, row);
    if row.runId in s.settlements {
      assert s'.Live() == s.Live();
    } else {
      assert s'.Live() == s.Live()[row.runId := row.amount];
    }
  }

  /** What a reservation adds to what the log commits: its amount, less what its id was holding already. */
  lemma ReservationAdds(rows: seq<Row>, id: string, c: Candidate)
    ensures Committed(rows + [ReserveRow(id, c, Requested(c))]) == Committed(rows) +
              if id in Fold(rows).settlements then 0
              else Requested(c) - if id in Fold(rows).reservations then Fold(rows).reservations[id] else 0
  {
    var row := ReserveRow(id, c, Requested(c));
    FoldAppend(rows, row);
    LiveAfterReservation(Fold(rows), row);
    LiveAdds(Fold(rows).Live(), id, Requested(c));
  }

  /** A repeated id replaces its earlier reservation, so the total grows by no more than was asked. */
  lemma ReserveKeepsSound(rows: seq<Row>, id: string, c: Candidate)
    requires LogSound(rows) && ReserveRefusal(rows, c).None?
    ensures LogSound(rows + [ReserveRow(id, c, Requested(c))])
  {
    FoldAppend(rows, ReserveRow(id, c, Requested(c)));
    ReservationAdds(rows, id, c);
  }

  lemma SettleKeepsSound(rows: seq<Row>, id: string, charge: int)
    requires LogSound(rows) && SettleRefusal(rows, id, charge).None?
    ensures LogSound(rows + [SettleRow(id, charge)])
    ensures Committed(rows + [SettleRow(id, charge)]) == Committed(rows) - Fold(rows).reservations[id] + charge
  {
    var s, s' := Fold(rows), After(Fold(rows), SettleRow(id, charge));
    FoldAppend(rows, SettleRow(id, charge));
    assert s'.Live() == s.Live() - {id};
    TotalRemove(s.Live(), id);
    TotalAdd(s.settlements, id, charge);
    assert s.settlements - {id} == s.settlements;
  }

  lemma {:induction false} RunKeepsSound(rows: seq<Row>, ops: seq<LogOp>)
    requires LogSound(rows)
    ensures LogSound(RunLog(rows, ops))
    decreases |ops|
  {
    if ops != [] {
      match ops[0] {
        case ReserveRun(id, c) => if ReserveRefusal(rows, c).None? { ReserveKeepsSound(rows, id, c); }
        case SettleRun(id, charge) => if SettleRefusal(rows, id, charge).None? { SettleKeepsSound(rows, id, charge); }
      }
      RunKeepsSound(Appended(rows, ops[0]), ops[1..]);
    }
  }

  /** Whatever run ids are used, repeated ones included, the log never commits more than USD 3.00. */
  lemma LogStaysWithinCap(ops: seq<LogOp>)
    ensures Committed(RunLog([], ops)) <= EXPERIMENT_COST_CAP
    ensures Amounts(Fold(RunLog([], ops)))
  {
    assert Fold([]).Live() == map[];
    RunKeepsSound([], ops);
  }

  // ---------------------------------------------------------------------------
  // Settlements
  // ---------------------------------------------------------------------------

  predicate SettlesRightly(rows: seq<Row>, i: nat)
    requires i < |rows|
  {
    rows[i].SettleRow? ==> SettleRefusal(rows[..i], rows[i].runId, rows[i].charge).None?
  }

  lemma {:induction false} EverySettlementWasAdmitted(rows: seq<Row>, ops: seq<LogOp>)
    requires forall i :: 0 <= i < |rows| ==> SettlesRightly(rows, i)
    ensures forall i :: 0 <= i < |RunLog(rows, ops)| ==> SettlesRightly(RunLog(rows, ops), i)
    decreases |ops|
  {
    if ops != [] {
      var rows' := Appended(rows, ops[0]);
      forall i | 0 <= i < |rows'| ensures SettlesRightly(rows', i) {
        assert rows'[..i] == rows[..i];
        assert i < |rows| ==> SettlesRightly(rows, i);
        assert rows[..|rows|] == rows;
      }
      EverySettlementWasAdmitted(rows', ops[1..]);
    }
  }

  lemma {:induction false} SettledInFold(rows: seq<Row>, id: string)
    ensures id in Fold(rows).settlements <==> exists i :: 0 <= i < |rows| && rows[i].SettleRow? && rows[i].runId == id
  {
    if rows != [] {
      var front := rows[..|rows| - 1];
      SettledInFold(front, id);
      if id in Fold(front).settlements {
        var i :| 0 <= i < |front| && front[i].SettleRow? && front[i].runId == id;
        assert rows[i] == front[i];
      }
      if i :| 0 <= i < |rows| && rows[i].SettleRow? && rows[i].runId == id {
        assert i < |front| ==> front[i] == rows[i];
      }
    }
  }

  lemma {:induction false} ReservedInFold(rows: seq<Row>, id: string)
    ensures id in Fold(rows).reservations <==> exists i :: 0 <= i < |rows| && rows[i].ReserveRow? && rows[i].runId == id
  {
    if rows != [] {
      var front := rows[..|rows| - 1];
      ReservedInFold(front, id);
      if id in Fold(front).reservations {
        var i :| 0 <= i < |front| && front[i].ReserveRow? && front[i].runId == id;
        assert rows[i] == front[i];
      }
      if i :| 0 <= i < |rows| && rows[i].ReserveRow? && rows[i].runId == id {
        assert i < |front| ==> front[i] == rows[i];
      }
    }
  }

  /** Each settlement follows a reservation of its id, is the only one of its id, and does not exceed it. */
  lemma SettlementsFollowReservations(ops: seq<LogOp>, i: nat)
    requires i < |RunLog([], ops)| && RunLog([], ops)[i].SettleRow?
    ensures var rows := RunLog([], ops);
            && (exists j :: 0 <= j < i && rows[j].ReserveRow? && rows[j].runId == rows[i].runId)
            && (forall j :: 0 <= j < i && rows[j].SettleRow? ==> rows[j].runId != rows[i].runId)
            && rows[i].runId in Fold(rows[..i]).reservations
            && 0 <= rows[i].charge <= Fold(rows[..i]).reservations[rows[i].runId]
  {
    var rows := RunLog([], ops);
    EverySettlementWasAdmitted([], ops);
    assert SettlesRightly(rows, i);
    ReservedInFold(rows[..i], rows[i].runId);
    SettledInFold(rows[..i], rows[i].runId);
    var j :| 0 <= j < |rows[..i]| && rows[..i][j].ReserveRow? && rows[..i][j].runId == rows[i].runId;
    assert rows[j] == rows[..i][j];
    forall k | 0 <= k < i && rows[k].SettleRow? ensures rows[k].runId != rows[i].runId {
      assert rows[..i][k] == rows[k];
    }
  }

  // ---------------------------------------------------------------------------
  // How many model runs can be unsettled at once
  // ---------------------------------------------------------------------------

  predicate IsModelRun(row: Row, settled: map<string, int>)
  {
    row.ReserveRow? && row.candidate != RulesCandidate && row.runId !in settled
  }

  /** How many rows reserve for a model run whose id is not among `settled`. */
  function ModelRuns(rows: seq<Row>, settled: map<string, int>): nat
  {
    if rows == [] then 0
    else ModelRuns(rows[..|rows| - 1], settled) + if IsModelRun(rows[|rows| - 1], settled) then 1 else 0
  }

  function UnsettledModelRuns(rows: seq<Row>): nat
  {
    ModelRuns(rows, Fold(rows).settlements)
  }

  predicate DistinctRunIds(rows: seq<Row>)
  {
    forall i, j :: 0 <= i < j < |rows| && rows[i].ReserveRow? && rows[j].ReserveRow? ==> rows[i].runId != rows[j].runId
  }

  predicate AmountsRequested(rows: seq<Row>)
  {
    forall i :: 0 <= i < |rows| && rows[i].ReserveRow? ==> rows[i].amount == Requested(rows[i].candidate)
  }

  lemma {:induction false} AmountsAreRequested(rows: seq<Row>, ops: seq<LogOp>)
    requires AmountsRequested(rows)
    ensures AmountsRequested(RunLog(rows, ops))
    decreases |ops|
  {
    if ops != [] {
      assert AmountsRequested(Appended(rows, ops[0]));
      AmountsAreRequested(Appended(rows, ops[0]), ops[1..]);
    }
  }

  lemma {:induction false} DistinctReservationInFold(rows: seq<Row>, i: nat)
    requires DistinctRunIds(rows) && i < |rows| && rows[i].ReserveRow?
    ensures rows[i].runId in Fold(rows).reservations && Fold(rows).reservations[rows[i].runId] == rows[i].amount
  {
    var front := rows[..|rows| - 1];
    if i < |front| { DistinctReservationInFold(front, i); }
  }

  function ModelIds(rows: seq<Row>, settled: map<string, int>): set<string>
  {
    if rows == [] then {}
    else ModelIds(rows[..|rows| - 1], settled)
         + if IsModelRun(rows[|rows| - 1], settled) then {rows[|rows| - 1].runId} else {}
  }

  lemma {:induction false} ModelIdHasRow(rows: seq<Row>, settled: map<string, int>, id: string)
    requires id in ModelIds(rows, settled)
    ensures exists i :: 0 <= i < |rows| && IsModelRun(rows[i], settled) && rows[i].runId == id
  {
    var front := rows[..|rows| - 1];
    if id in ModelIds(front, settled) {
      ModelIdHasRow(front, settled, id);
      var i :| 0 <= i < |front| && IsModelRun(front[i], settled) && front[i].runId == id;
      assert rows[i] == front[i];
    } else {
      assert IsModelRun(rows[|rows| - 1], settled);
    }
  }

  lemma {:induction false} EachRunHasItsId(rows: seq<Row>, settled: map<string, int>)
    requires DistinctRunIds(rows)
    ensures |ModelIds(rows, settled)| == ModelRuns(rows, settled)
  {
    if rows != [] {
      var front, last := rows[..|rows| - 1], rows[|rows| - 1];
      EachRunHasItsId(front, settled);
      if IsModelRun(last, settled) && last.runId in ModelIds(front, settled) {
        ModelIdHasRow(front, settled, last.runId);
      }
    }
  }

  /** With distinct run ids at most eight model runs are unsettled at once. */
  lemma AtMostEightModelRuns(ops: seq<LogOp>)
    requires DistinctRunIds(RunLog([], ops))
    ensures UnsettledModelRuns(RunLog([], ops)) <= 8
  {
    var rows := RunLog([], ops);
    var s := Fold(rows);
    var ids := ModelIds(rows, s.settlements);
    LogStaysWithinCap(ops);
    AmountsAreRequested([], ops);
    forall id | id in ids ensures id in s.Live() && WORKFLOW_COST_CAP <= s.Live()[id] {
      ModelIdHasRow(rows, s.settlements, id);
      var i :| 0 <= i < |rows| && IsModelRun(rows[i], s.settlements) && rows[i].runId == id;
      DistinctReservationInFold(rows, i);
    }
    TotalAtLeast(s.Live(), ids, WORKFLOW_COST_CAP);
    TotalNonNegative(s.settlements);
    EachRunHasItsId(rows, s.settlements);
  }

  /**
   In every reachable log, a model run that reserves is counted in full if and only if its id is not settled and
   holds no positive amount yet. Any other one escapes the cap, wholly or in part.
   */
  lemma CountedInFullIffFresh(ops: seq<LogOp>, id: string, c: Candidate)
    requires c != RulesCandidate
    ensures var rows := RunLog([], ops);
            var s := Fold(rows);
            Committed(rows + [ReserveRow(id, c, Requested(c))]) == Committed(rows) + Requested(c) <==>
              id !in s.settlements && (id in s.reservations ==> s.reservations[id] <= 0)
  {
    LogStaysWithinCap(ops);
    ReservationAdds(RunLog([], ops), id, c);
  }

  /**
   On every reachable log a rules run is admitted, and under a new id it commits nothing; a model run is admitted
   exactly while USD 0.35 of the 3.00 are left.
   */
  lemma WhoIsAdmitted(ops: seq<LogOp>, id: string, c: Candidate)
    ensures var rows := RunLog([], ops);
            && ReserveRefusal(rows, RulesCandidate).None?
            && (c != RulesCandidate ==> (ReserveRefusal(rows, c).None? <==> Committed(rows) <= 26_500_000))
            && (id !in Fold(rows).reservations ==>
                  Committed(rows + [ReserveRow(id, RulesCandidate, Requested(RulesCandidate))]) == Committed(rows))
  {
    LogStaysWithinCap(ops);
    ReservationAdds(RunLog([], ops), id, RulesCandidate);
  }

  function RepeatRows(n: nat, id: string): seq<Row>
  {
    if n == 0 then [] else RepeatRows(n - 1, id) + [ReserveRow(id, SingleCandidate, WORKFLOW_COST_CAP)]
  }

  function Repeat(n: nat, id: string): seq<LogOp>
  {
    if n == 0 then [] else Repeat(n - 1, id) + [ReserveRun(id, SingleCandidate)]
  }

  lemma {:induction false} RunLogAppend(rows: seq<Row>, ops: seq<LogOp>, op: LogOp)
    ensures RunLog(rows, ops + [op]) == Appended(RunLog(rows, ops), op)
    decreases |ops|
  {
    if ops == [] {
      assert RunLog(Appended(rows, op), []) == Appended(rows, op);
    } else {
      assert (ops + [op])[1..] == ops[1..] + [op];
      RunLogAppend(Appended(rows, ops[0]), ops[1..], op);
    }
  }

  lemma {:induction false} RepeatedIdFold(n: nat, id: string)
    ensures Fold(RepeatRows(n, id)) == LogState(if n == 0 then map[] else map[id := WORKFLOW_COST_CAP], map[])
    ensures ModelRuns(RepeatRows(n, id), map[]) == n
  {
    if n > 0 {
      RepeatedIdFold(n - 1, id);
      assert RepeatRows(n, id)[..|RepeatRows(n, id)| - 1] == RepeatRows(n - 1, id);
    }
  }

  lemma RepeatedIdCommitsOnce(n: nat, id: string)
    ensures Committed(RepeatRows(n, id)) <= WORKFLOW_COST_CAP
  {
    RepeatedIdFold(n, id);
    var s := Fold(RepeatRows(n, id));
    assert s.Live() == s.reservations;
    if n > 0 {
      var none: map<string, int> := map[];
      TotalAdd(none, id, WORKFLOW_COST_CAP);
      assert none - {id} == none;
    }
  }

  lemma RepeatIsAdmittedAgain(n: nat, id: string)
    ensures Appended(RepeatRows(n, id), ReserveRun(id, SingleCandidate)) == RepeatRows(n + 1, id)
  {
    RepeatedIdCommitsOnce(n, id);
    assert ReserveRefusal(RepeatRows(n, id), SingleCandidate).None?;
  }

  lemma RunLogThen(ops: seq<LogOp>, op: LogOp, rows: seq<Row>, after: seq<Row>)
    requires RunLog([], ops) == rows && Appended(rows, op) == after
    ensures RunLog([], ops + [op]) == after
  {
    RunLogAppend([], ops, op);
  }

  lemma {:induction false} RepeatedIdIsAdmitted(n: nat, id: string)
    ensures RunLog([], Repeat(n, id)) == RepeatRows(n, id)
  {
    if n > 0 {
      RepeatedIdIsAdmitted(n - 1, id);
      RepeatIsAdmittedAgain(n - 1, id);
      RunLogThen(Repeat(n - 1, id), ReserveRun(id, SingleCandidate), RepeatRows(n - 1, id), RepeatRows(n, id));
    }
  }

  /** With a repeated run id the log admits any number of model runs that never settle. */
  lemma RepeatedIdAdmitsAnyNumber(n: nat, id: string)
    ensures UnsettledModelRuns(RunLog([], Repeat(n, id))) == n
  {
    RepeatedIdIsAdmitted(n, id);
    RepeatedIdFold(n, id);
  }

  // ---------------------------------------------------------------------------
  // The ledger file
  // ---------------------------------------------------------------------------

  /** Each method is one section under the file lock. */
  class DurableExperimentLedger {
    var rows: seq<Row>

    constructor (rows: seq<Row>)
      ensures this.rows == rows
    {
      this.rows := rows;
    }

    method State() returns (s: LogState)
      ensures s == Fold(rows)
    {
      s := LogState(map[], map[]);
      for i := 0 to |rows|
        invariant s == Fold(rows[..i])
      {
        assert rows[..i + 1][..i] == rows[..i];
        s := After(s, rows[i]);
      }
      assert rows[..|rows|] == rows;
    }

    method Add(m: map<string, int>) returns (total: int)
      ensures total == Total(m)
    {
      total := 0;
      var left := m;
      while left != map[]
        invariant total + Total(left) == Total(m)
        decreases |left|
      {
        var k :| k in left;
        TotalRemove(left, k);
        total := total + left[k];
        left := left - {k};
      }
    }

    method ReserveWorkflow(runId: string, c: Candidate) returns (error: Option<LogError>)
      modifies this
      ensures error == ReserveRefusal(old(rows), c)
      ensures rows == Appended(old(rows), ReserveRun(runId, c))
      ensures rows == if error.None? then old(rows) + [ReserveRow(runId, c, Requested(c))] else old(rows)
    {
      var s := State();
      var charged := Add(s.settlements);
      var unsettled := Add(s.Live());
      var requested := Requested(c);
      if charged + unsettled + requested > EXPERIMENT_COST_CAP { return Some(CapExhausted); }
      rows := rows + [ReserveRow(runId, c, requested)];
      error := None;
    }

    method SettleWorkflow(runId: string, charge: int) returns (error: Option<LogError>)
      modifies this
      ensures error == SettleRefusal(old(rows), runId, charge)
      ensures rows == Appended(old(rows), SettleRun(runId, charge))
      ensures rows == if error.None? then old(rows) + [SettleRow(runId, charge)] else old(rows)
    {
      if charge < 0 { return Some(NegativeCharge); }
      var s := State();
      if runId !in s.reservations || runId in s.settlements { return Some(NoUniqueReservation); }
      if charge > s.reservations[runId] { return Some(ChargeAboveReservation); }
      rows := rows + [SettleRow(runId, charge)];
      error := None;
    }
  }
}
