/**
 An at-least-once workflow step that writes an effect to a separate durable
 store, with and without a unique intent key, under crashes and recoveries.
 */
module FakeErp {
  import opened Wrappers

  const PAYLOAD := "fake-purchase-invoice"

  datatype Variant = UniqueIntentKey | NoUniqueIntentKey

  datatype Effect = Effect(effectId: nat, intent: string, payload: string)

  /** `unique` is fixed when the table is created. */
  datatype Table = Table(unique: bool, rows: seq<Effect>)

  /** The two durable tables: attempts by intent, and effects. */
  datatype Erp = Erp(attempts: seq<string>, table: Option<Table>)

  datatype Record = Record(created: bool, effect: Effect)

  datatype ErpError = IntegrityError

  // ---------------------------------------------------------------------------
  // The three committed changes of one write
  // ---------------------------------------------------------------------------

  /** Tables that exist already are left as they are, whatever variant asks for them. */
  function Initialized(e: Erp, v: Variant): Erp
  {
    if e.table.Some? then e else e.(table := Some(Table(v.UniqueIntentKey?, [])))
  }

  function Attempt(e: Erp, intent: string): Erp
  {
    e.(attempts := e.attempts + [intent])
  }

  function Find(rows: seq<Effect>, intent: string): (r: Option<Effect>)
    ensures r.None? <==> forall x :: x in rows ==> x.intent != intent
    ensures r.Some? ==> r.value in rows && r.value.intent == intent
  {
    if rows == [] then None else if rows[0].intent == intent then Some(rows[0]) else Find(rows[1..], intent)
  }

  predicate Conflicts(t: Table, intent: string)
  {
    t.unique && Find(t.rows, intent).Some?
  }

  function Inserted(t: Table, intent: string): Effect { Effect(|t.rows| + 1, intent, PAYLOAD) }

  function AfterInsert(e: Erp, intent: string): Erp
    requires e.table.Some?
  {
    var t := e.table.value;
    if Conflicts(t, intent) then e else e.(table := Some(t.(rows := t.rows + [Inserted(t, intent)])))
  }

  /** A key conflict returns the original record, but only the unique variant expects one. */
  function InsertResult(e: Erp, intent: string, v: Variant): Result<Record, ErpError>
    requires e.table.Some?
  {
    var t := e.table.value;
    if !Conflicts(t, intent) then Ok(Record(true, Inserted(t, intent)))
    else if v.NoUniqueIntentKey? then Err(IntegrityError)
    else Ok(Record(false, Find(t.rows, intent).value))
  }

  // ---------------------------------------------------------------------------
  // Workflows, executions and crashes
  // ---------------------------------------------------------------------------

  datatype Status = Running | Crashed | Failed | Returned

  /** `attempted` once its attempt is committed, `result` once its effect is written or read, or replayed. */
  datatype Execution = Execution(
    workflow: string, intent: string, variant: Variant, attempted: bool, result: Option<Record>, status: Status)

  /** Inputs are stored with the workflow id; the checkpoint is the step's recorded return value. */
  datatype Workflow = Workflow(intent: string, variant: Variant, checkpoint: Option<Record>)

  datatype World = World(erp: Erp, workflows: map<string, Workflow>, runs: seq<Execution>)

  datatype Step =
    | Start(workflow: string, intent: string, variant: Variant)
    | Advance(run: nat)
    | Crash(run: nat)

  /** A workflow id that is known keeps its inputs; a checkpointed step is not run again. */
  function Started(w: World, id: string, intent: string, variant: Variant): World
  {
    var known := if id in w.workflows then w.workflows[id] else Workflow(intent, variant, None);
    var status := if known.checkpoint.Some? then Returned else Running;
    w.(workflows := w.workflows[id := known],
       runs := w.runs + [Execution(id, known.intent, known.variant, false, known.checkpoint, status)])
  }

  /** The next commit of a running execution: its attempt, its effect, then its checkpoint. */
  function Advanced(w: World, i: nat): World
    requires i < |w.runs|
  {
    var x := w.runs[i];
    if !x.status.Running? then w
    else if !x.attempted then
      w.(erp := Attempt(Initialized(w.erp, x.variant), x.intent), runs := w.runs[i := x.(attempted := true)])
    else if x.result.None? then
      if w.erp.table.None? then w else
      match InsertResult(w.erp, x.intent, x.variant)
      case Ok(r) => w.(erp := AfterInsert(w.erp, x.intent), runs := w.runs[i := x.(result := Some(r))])
      case Err(_) => w.(runs := w.runs[i := x.(status := Failed)])
    else if x.workflow !in w.workflows then w
    else
      var known := w.workflows[x.workflow];
      var kept := if known.checkpoint.Some? then known.checkpoint else x.result;
      w.(workflows := w.workflows[x.workflow := known.(checkpoint := kept)],
         runs := w.runs[i := x.(result := kept, status := Returned)])
  }

  function Next(w: World, s: Step): World
  {
    match s
    case Start(id, intent, variant) => Started(w, id, intent, variant)
    case Advance(i) => if i < |w.runs| then Advanced(w, i) else w
    case Crash(i) =>
      if i < |w.runs| && w.runs[i].status.Running? then w.(runs := w.runs[i := w.runs[i].(status := Crashed)]) else w
  }

  function Run(w: World, steps: seq<Step>): World
    decreases |steps|
  {
    if steps == [] then w else Run(Next(w, steps[0]), steps[1..])
  }

  const EMPTY := World(Erp([], None), map[], [])

  // ---------------------------------------------------------------------------
  // Counting
  // ---------------------------------------------------------------------------

  function Attempts(attempts: seq<string>, intent: string): nat
  {
    if attempts == [] then 0
    else Attempts(attempts[..|attempts| - 1], intent) + if attempts[|attempts| - 1] == intent then 1 else 0
  }

  function Effects(rows: seq<Effect>, intent: string): nat
  {
    if rows == [] then 0 else Effects(rows[..|rows| - 1], intent) + if rows[|rows| - 1].intent == intent then 1 else 0
  }

  function EffectsOf(e: Erp, intent: string): nat
  {
    if e.table.None? then 0 else Effects(e.table.value.rows, intent)
  }

  /** The execution has committed its attempt and not its effect. */
  predicate Between(x: Execution, intent: string)
  {
    x.intent == intent && x.attempted && x.result.None?
  }

  /** Executions that are, stopped or failed between the two commits. */
  function Stuck(runs: seq<Execution>, intent: string): nat
  {
    if runs == [] then 0 else Stuck(runs[..|runs| - 1], intent) + if Between(runs[|runs| - 1], intent) then 1 else 0
  }

  lemma {:induction false} StuckUpdate(runs: seq<Execution>, i: nat, x: Execution, intent: string)
    requires i < |runs|
    ensures Stuck(runs[i := x], intent) + (if Between(runs[i], intent) then 1 else 0)
            == Stuck(runs, intent) + if Between(x, intent) then 1 else 0
  {
    var n := |runs| - 1;
    if i == n {
      assert runs[i := x][..n] == runs[..n];
    } else {
      assert runs[i := x][..n] == runs[..n][i := x];
      StuckUpdate(runs[..n], i, x, intent);
    }
  }

  lemma StuckAppend(runs: seq<Execution>, x: Execution, intent: string)
    ensures Stuck(runs + [x], intent) == Stuck(runs, intent) + if Between(x, intent) then 1 else 0
  {}

  lemma EffectsAppend(rows: seq<Effect>, x: Effect, intent: string)
    ensures Effects(rows + [x], intent) == Effects(rows, intent) + if x.intent == intent then 1 else 0
  {}

  lemma AttemptsAppend(attempts: seq<string>, x: string, intent: string)
    ensures Attempts(attempts + [x], intent) == Attempts(attempts, intent) + if x == intent then 1 else 0
  {}

  lemma {:induction false} NoEffects(rows: seq<Effect>, intent: string)
    ensures Effects(rows, intent) == 0 <==> Find(rows, intent).None?
  {
    if rows != [] {
      var n := |rows| - 1;
      NoEffects(rows[..n], intent);
      assert rows == rows[..n] + [rows[n]];
    }
  }

  // ---------------------------------------------------------------------------
  // What every run keeps
  // ---------------------------------------------------------------------------

  /** The record is a committed row of that intent. */
  predicate Backed(e: Erp, r: Option<Record>, intent: string)
  {
    r.Some? ==> e.table.Some? && r.value.effect in e.table.value.rows && r.value.effect.intent == intent
  }

  ghost predicate Numbered(rows: seq<Effect>)
  {
    forall k :: 0 <= k < |rows| ==> rows[k].effectId == k + 1
  }

  ghost predicate OnePerIntent(rows: seq<Effect>)
  {
    forall j, k :: 0 <= j < k < |rows| ==> rows[j].intent != rows[k].intent
  }

  ghost predicate TableSound(t: Table)
  {
    Numbered(t.rows) && (t.unique ==> OnePerIntent(t.rows))
  }

  ghost predicate WorkflowsBacked(w: World)
  {
    forall id :: id in w.workflows ==> Backed(w.erp, w.workflows[id].checkpoint, w.workflows[id].intent)
  }

  predicate RunSound(w: World, x: Execution)
  {
    && x.workflow in w.workflows && w.workflows[x.workflow].intent == x.intent
    && Backed(w.erp, x.result, x.intent) && (x.attempted ==> w.erp.table.Some?)
    && (x.status.Returned? ==> x.result.Some? && x.result == w.workflows[x.workflow].checkpoint)
    && (x.result.Some? && !x.attempted ==> x.status.Returned?)
  }

  ghost predicate RunsSound(w: World)
  {
    forall i :: 0 <= i < |w.runs| ==> RunSound(w, w.runs[i])
  }

  /**
   Without the key every attempt that passed its second commit left its own effect; with the key they
   left one effect between them.
   */
  predicate Tallied(w: World, intent: string)
  {
    var attempts, stuck, effects := Attempts(w.erp.attempts, intent), Stuck(w.runs, intent), EffectsOf(w.erp, intent);
    && attempts >= stuck
    && (w.erp.table.None? ==> attempts == 0)
    && (w.erp.table.Some? && !w.erp.table.value.unique ==> effects == attempts - stuck)
    && (w.erp.table.Some? && w.erp.table.value.unique ==> effects == if attempts > stuck then 1 else 0)
  }

  ghost predicate Sound(w: World)
  {
    && (w.erp.table.Some? ==> TableSound(w.erp.table.value))
    && WorkflowsBacked(w) && RunsSound(w)
    && forall intent :: Tallied(w, intent)
  }

  // The workflow as stored before the start, or as the start stores it.
  lemma StartRegisters(w: World, id: string, intent: string, variant: Variant)
    requires Sound(w)
    ensures var v := Started(w, id, intent, variant);
            && WorkflowsBacked(v) && id in v.workflows
            && forall k :: k in w.workflows ==> k in v.workflows && v.workflows[k] == w.workflows[k]
  {}

  lemma StartKeepsSound(w: World, id: string, intent: string, variant: Variant)
    requires Sound(w)
    ensures Sound(Started(w, id, intent, variant))
  {
    var v, n := Started(w, id, intent, variant), |w.runs|;
    StartRegisters(w, id, intent, variant);
    forall i | 0 <= i < n + 1 ensures RunSound(v, v.runs[i]) {
      if i < n { assert v.runs[i] == w.runs[i] && RunSound(w, w.runs[i]); }
    }
    forall key ensures Tallied(v, key) {
      assert Tallied(w, key);
      StuckAppend(w.runs, v.runs[n], key);
    }
  }

  lemma AttemptKeepsSound(w: World, i: nat)
    requires Sound(w) && i < |w.runs| && w.runs[i].status.Running? && !w.runs[i].attempted
    ensures Sound(Advanced(w, i))
  {
    var x, v := w.runs[i], Advanced(w, i);
    assert RunSound(w, x);
    forall k | 0 <= k < |v.runs| ensures RunSound(v, v.runs[k]) { assert RunSound(w, w.runs[k]); }
    forall key ensures Tallied(v, key) {
      assert Tallied(w, key);
      StuckUpdate(w.runs, i, v.runs[i], key);
      AttemptsAppend(w.erp.attempts, x.intent, key);
    }
  }

  lemma InsertTally(w: World, i: nat, key: string)
    requires Sound(w) && i < |w.runs| && w.runs[i].status.Running? && Between(w.runs[i], w.runs[i].intent)
    ensures Tallied(Advanced(w, i), key)
  {
    var x, v := w.runs[i], Advanced(w, i);
    assert RunSound(w, x) && Tallied(w, key);
    var t := w.erp.table.value;
    StuckUpdate(w.runs, i, v.runs[i], key);
    StuckAtLeastOne(w.runs, i, x.intent);
    NoEffects(t.rows, x.intent);
    EffectsAppend(t.rows, Inserted(t, x.intent), key);
  }

  lemma {:induction false} StuckAtLeastOne(runs: seq<Execution>, i: nat, intent: string)
    requires i < |runs| && Between(runs[i], intent)
    ensures Stuck(runs, intent) >= 1
  {
    if i < |runs| - 1 { StuckAtLeastOne(runs[..|runs| - 1], i, intent); }
  }

  lemma InsertKeepsTable(e: Erp, intent: string)
    requires e.table.Some? && TableSound(e.table.value)
    ensures TableSound(AfterInsert(e, intent).table.value)
    ensures e.table.value.rows <= AfterInsert(e, intent).table.value.rows
    ensures AfterInsert(e, intent).table.value.unique == e.table.value.unique
    ensures forall r, key :: Backed(e, r, key) ==> Backed(AfterInsert(e, intent), r, key)
  {}

  lemma InsertKeepsSound(w: World, i: nat)
    requires Sound(w) && i < |w.runs| && w.runs[i].status.Running? && Between(w.runs[i], w.runs[i].intent)
    ensures Sound(Advanced(w, i))
  {
    var x, v := w.runs[i], Advanced(w, i);
    assert RunSound(w, x);
    InsertKeepsTable(w.erp, x.intent);
    forall k | 0 <= k < |v.runs| ensures RunSound(v, v.runs[k]) { assert RunSound(w, w.runs[k]); }
    forall key ensures Tallied(v, key) { InsertTally(w, i, key); }
  }

  lemma CheckpointKeepsSound(w: World, i: nat)
    requires Sound(w) && i < |w.runs| && w.runs[i].status.Running? && w.runs[i].attempted && w.runs[i].result.Some?
    ensures Sound(Advanced(w, i))
  {
    var x, v := w.runs[i], Advanced(w, i);
    assert RunSound(w, x);
    forall k | 0 <= k < |v.runs| ensures RunSound(v, v.runs[k]) { assert RunSound(w, w.runs[k]); }
    forall key ensures Tallied(v, key) {
      assert Tallied(w, key);
      StuckUpdate(w.runs, i, v.runs[i], key);
    }
  }

  lemma StepKeepsSound(w: World, s: Step)
    requires Sound(w)
    ensures Sound(Next(w, s))
  {
    match s
    case Start(id, intent, variant) => StartKeepsSound(w, id, intent, variant);
    case Advance(i) =>
      if i < |w.runs| && w.runs[i].status.Running? {
        assert RunSound(w, w.runs[i]);
        if !w.runs[i].attempted { AttemptKeepsSound(w, i); }
        else if w.runs[i].result.None? { InsertKeepsSound(w, i); }
        else { CheckpointKeepsSound(w, i); }
      }
    case Crash(i) =>
      var v := Next(w, s);
      if i < |w.runs| && w.runs[i].status.Running? {
        forall k | 0 <= k < |v.runs| ensures RunSound(v, v.runs[k]) { assert RunSound(w, w.runs[k]); }
        forall key ensures Tallied(v, key) {
          assert Tallied(w, key);
          StuckUpdate(w.runs, i, v.runs[i], key);
        }
      }
  }

  lemma {:induction false} StepsKeepSound(w: World, steps: seq<Step>)
    requires Sound(w)
    ensures Sound(Run(w, steps))
    decreases |steps|
  {
    if steps != [] {
      StepKeepsSound(w, steps[0]);
      StepsKeepSound(Next(w, steps[0]), steps[1..]);
    }
  }

  lemma OneEffect(rows: seq<Effect>, a: Effect, b: Effect)
    requires OnePerIntent(rows) && a in rows && b in rows && a.intent == b.intent
    ensures a == b
  {}

  /**
   With a unique key, under every schedule of starts, commits and crashes, an intent has at most one effect, and
   all executions and checkpoints that hold a result for it hold that one effect.
   */
  lemma UniqueKeyGivesOneEffect(steps: seq<Step>, intent: string)
    requires var w := Run(EMPTY, steps); w.erp.table.Some? && w.erp.table.value.unique
    ensures var w := Run(EMPTY, steps); EffectsOf(w.erp, intent) <= 1
    ensures var w := Run(EMPTY, steps);
            forall i, j | 0 <= i < |w.runs| && 0 <= j < |w.runs| && w.runs[i].intent == w.runs[j].intent
                          && w.runs[i].result.Some? && w.runs[j].result.Some? ::
              w.runs[i].result.value.effect == w.runs[j].result.value.effect
    ensures var w := Run(EMPTY, steps);
            forall i :: 0 <= i < |w.runs| && w.runs[i].result.Some? ==> EffectsOf(w.erp, w.runs[i].intent) == 1
  {
    StepsKeepSound(EMPTY, steps);
    var w := Run(EMPTY, steps);
    var rows := w.erp.table.value.rows;
    assert Tallied(w, intent);
    forall i, j | 0 <= i < |w.runs| && 0 <= j < |w.runs| && w.runs[i].intent == w.runs[j].intent
                  && w.runs[i].result.Some? && w.runs[j].result.Some?
      ensures w.runs[i].result.value.effect == w.runs[j].result.value.effect
    {
      assert RunSound(w, w.runs[i]) && RunSound(w, w.runs[j]);
      OneEffect(rows, w.runs[i].result.value.effect, w.runs[j].result.value.effect);
    }
    forall i | 0 <= i < |w.runs| && w.runs[i].result.Some? ensures EffectsOf(w.erp, w.runs[i].intent) == 1 {
      assert RunSound(w, w.runs[i]) && Tallied(w, w.runs[i].intent);
      NoEffects(rows, w.runs[i].intent);
    }
  }

  /** Without the key the effects of an intent are its attempts less the executions stuck between the two commits. */
  lemma NoKeyCountsEveryAttempt(steps: seq<Step>, intent: string)
    requires var w := Run(EMPTY, steps); w.erp.table.Some? && !w.erp.table.value.unique
    ensures var w := Run(EMPTY, steps);
            EffectsOf(w.erp, intent) == Attempts(w.erp.attempts, intent) - Stuck(w.runs, intent)
  {
    StepsKeepSound(EMPTY, steps);
    assert Tallied(Run(EMPTY, steps), intent);
  }

  /** Every execution of the workflow from number `n` on returned the checkpoint and attempted nothing. */
  ghost predicate Replayed(w: World, n: nat, id: string, checkpoint: Record)
  {
    && id in w.workflows && w.workflows[id].checkpoint == Some(checkpoint)
    && forall i :: n <= i < |w.runs| && w.runs[i].workflow == id ==>
         w.runs[i].status.Returned? && w.runs[i].result == Some(checkpoint) && !w.runs[i].attempted
  }

  lemma StepKeepsReplayed(w: World, s: Step, n: nat, id: string, checkpoint: Record)
    requires Replayed(w, n, id, checkpoint)
    ensures Replayed(Next(w, s), n, id, checkpoint)
  {}

  /**
   Once a workflow has its checkpoint, whatever happens, every later start of it returns that record and attempts
   nothing.
   */
  lemma {:induction false} ReplaysReturnCheckpoint(w: World, steps: seq<Step>, n: nat, id: string, checkpoint: Record)
    requires Replayed(w, n, id, checkpoint)
    ensures Replayed(Run(w, steps), n, id, checkpoint)
    decreases |steps|
  {
    if steps != [] {
      StepKeepsReplayed(w, steps[0], n, id, checkpoint);
      ReplaysReturnCheckpoint(Next(w, steps[0]), steps[1..], n, id, checkpoint);
    }
  }

  /** A checkpoint is never replaced, so every later result of the workflow is the same record. */
  lemma {:induction false} CheckpointIsFinal(w: World, steps: seq<Step>, id: string)
    requires id in w.workflows && w.workflows[id].checkpoint.Some?
    ensures id in Run(w, steps).workflows && Run(w, steps).workflows[id] == w.workflows[id]
    decreases |steps|
  {
    if steps != [] { CheckpointIsFinal(Next(w, steps[0]), steps[1..], id); }
  }

  /** A crash after the effect, a recovery, and the three commits of the recovered execution. */
  function Recovered(w: World, i: nat, intent: string, variant: Variant): World
    requires i < |w.runs|
  {
    var n := |w.runs|;
    var restarted := Next(Next(w, Crash(i)), Start(w.runs[i].workflow, intent, variant));
    Next(Next(Next(restarted, Advance(n)), Advance(n)), Advance(n))
  }

  /**
   A crash between the effect and its checkpoint: recovery attempts again. Without the key it leaves a second
   effect and returns that one; with the key it returns the first effect; and an execution that does not
   expect the key, run on a table that has it, fails instead.
   */
  lemma CrashBeforeCheckpoint(w: World, i: nat, intent: string, variant: Variant)
    requires Sound(w) && i < |w.runs| && w.runs[i].status.Running? && w.runs[i].attempted && w.runs[i].result.Some?
    requires w.workflows[w.runs[i].workflow].checkpoint.None?
    ensures var v, x, key := Recovered(w, i, intent, variant), w.runs[i], w.runs[i].intent;
            var last := v.runs[|w.runs|];
            && Attempts(v.erp.attempts, key) == Attempts(w.erp.attempts, key) + 1
            && EffectsOf(v.erp, key) == EffectsOf(w.erp, key) + (if w.erp.table.value.unique then 0 else 1)
            && v.runs[i] == x.(status := Crashed)
            && (last.status.Failed? <==> w.erp.table.value.unique && last.variant.NoUniqueIntentKey?)
            && (!last.status.Failed? ==>
                  && last.status.Returned? && v.workflows[x.workflow].checkpoint == last.result
                  && last.result.value.created == !w.erp.table.value.unique
                  && (last.result.value.effect == x.result.value.effect <==> w.erp.table.value.unique))
  {
    RecoveryWrites(w, w.runs[i]);
  }

  // The effect of the crashed execution makes the recovered one conflict exactly when the key is there.
  lemma RecoveryWrites(w: World, x: Execution)
    requires Sound(w) && x.result.Some? && Backed(w.erp, x.result, x.intent)
    ensures Conflicts(w.erp.table.value, x.intent) <==> w.erp.table.value.unique
    ensures w.erp.table.value.unique ==> Find(w.erp.table.value.rows, x.intent) == Some(x.result.value.effect)
    ensures Inserted(w.erp.table.value, x.intent) != x.result.value.effect
  {}

  /** A workflow of one variant that completes, and then the first two commits of a workflow of another. */
  function TwoWorkflows(first: string, second: string, intent: string, v: Variant, u: Variant): seq<Step>
  {
    [Start(first, intent, v), Advance(0), Advance(0), Advance(0), Start(second, intent, u), Advance(1), Advance(1)]
  }

  lemma RunHead(w: World, s: seq<Step>)
    requires s != []
    ensures Run(w, s) == Run(Next(w, s[0]), s[1..])
  {}

  lemma FirstOfTwo(first: string, second: string, intent: string, v: Variant, u: Variant)
    returns (w: World, rest: seq<Step>)
    ensures Run(EMPTY, TwoWorkflows(first, second, intent, v, u)) == Run(w, rest)
    ensures rest == [Start(second, intent, u), Advance(1), Advance(1)]
    ensures w.erp == Erp([intent], Some(Table(v.UniqueIntentKey?, [Effect(1, intent, PAYLOAD)])))
    ensures |w.runs| == 1 && w.workflows.Keys == {first}
  {
    var s := TwoWorkflows(first, second, intent, v, u);
    var w1 := Next(EMPTY, s[0]);
    var w2 := Next(w1, s[1]);
    var w3 := Next(w2, s[2]);
    assert w3.erp.table.value.rows == [Effect(1, intent, PAYLOAD)];
    w := Next(w3, s[3]);
    RunHead(EMPTY, s);
    RunHead(w1, s[1..]);
    RunHead(w2, s[1..][1..]);
    RunHead(w3, s[1..][1..][1..]);
    rest := s[1..][1..][1..][1..];
  }

  /**
   A witness for each way in which table and variant can disagree: a store created with the key fails the variant
   without it, and a store created without the key lets the variant with it leave a second effect.
   */
  lemma TableDecidesNotVariant(first: string, second: string, intent: string)
    requires first != second
    ensures var w := Run(EMPTY, TwoWorkflows(first, second, intent, UniqueIntentKey, NoUniqueIntentKey));
            |w.runs| == 2 && w.runs[1].status.Failed? && EffectsOf(w.erp, intent) == 1
    ensures var w := Run(EMPTY, TwoWorkflows(first, second, intent, NoUniqueIntentKey, UniqueIntentKey));
            && |w.runs| == 2 && w.runs[1].result == Some(Record(true, Effect(2, intent, PAYLOAD)))
            && EffectsOf(w.erp, intent) == 2
  {
    SecondOfTwo(first, second, intent, UniqueIntentKey, NoUniqueIntentKey);
    SecondOfTwo(first, second, intent, NoUniqueIntentKey, UniqueIntentKey);
  }

  lemma SecondOfTwo(first: string, second: string, intent: string, v: Variant, u: Variant)
    requires first != second && v != u
    ensures var w := Run(EMPTY, TwoWorkflows(first, second, intent, v, u));
            && |w.runs| == 2 && EffectsOf(w.erp, intent) == (if v.UniqueIntentKey? then 1 else 2)
            && (v.UniqueIntentKey? ==> w.runs[1].status.Failed?)
            && (u.UniqueIntentKey? ==> w.runs[1].result == Some(Record(true, Effect(2, intent, PAYLOAD))))
  {
    var w, rest := FirstOfTwo(first, second, intent, v, u);
    var one := Effect(1, intent, PAYLOAD);
    var w1 := Next(w, rest[0]);
    assert w1.runs[1] == Execution(second, intent, u, false, None, Running);
    var w2 := Next(w1, rest[1]);
    assert w2.runs[1] == Execution(second, intent, u, true, None, Running);
    var w3 := Next(w2, rest[2]);
    RunHead(w, rest);
    RunHead(w1, rest[1..]);
    RunHead(w2, rest[1..][1..]);
    assert rest[1..][1..][1..] == [];
    assert [one][..0] == [] && Effects([one], intent) == 1;
    EffectsAppend([one], Effect(2, intent, PAYLOAD), intent);
  }

  // ---------------------------------------------------------------------------
  // The store, the step and the paired comparison
  // ---------------------------------------------------------------------------

  class Database {
    var attempts: seq<string>
    var table: Option<Table>

    ghost function State(): Erp
      reads this
    {
      Erp(attempts, table)
    }

    ghost predicate Valid()
      reads this
    {
      table.Some? ==> TableSound(table.value) && |table.value.rows| <= |attempts|
    }

    method Initialize(v: Variant)
      requires Valid()
      modifies this
      ensures Valid() && State() == Initialized(old(State()), v)
    {
      if table.None? { table := Some(Table(v.UniqueIntentKey?, [])); }
    }

    method WriteFakeErpEffect(intent: string, v: Variant) returns (r: Result<Record, ErpError>)
      requires Valid()
      modifies this
      ensures Valid()
      ensures State() == AfterInsert(Attempt(Initialized(old(State()), v), intent), intent)
      ensures r == InsertResult(Initialized(old(State()), v), intent, v)
    {
      Initialize(v);
      attempts := attempts + [intent];
      var original := Find(table.value.rows, intent);
      if !table.value.unique || original.None? {
        var effect := Effect(|table.value.rows| + 1, intent, PAYLOAD);
        InsertKeepsTable(State(), intent);
        table := Some(Table(table.value.unique, table.value.rows + [effect]));
        return Ok(Record(true, effect));
      }
      if v.NoUniqueIntentKey? { return Err(IntegrityError); }
      return Ok(Record(false, original.value));
    }
  }

  /** How a process that runs the workflow ends. */
  datatype Exit = Died | Raised | Completed(record: Record)

  /** The workflow runner, holding the checkpoint of the one workflow id. */
  class Runner {
    var checkpoint: Option<Record>

    method BillingWorkflow(db: Database, intent: string, v: Variant, crashAfterEffect: bool) returns (exit: Exit)
      requires db.Valid()
      modifies this, db
      ensures db.Valid()
      ensures old(checkpoint).Some? ==>
                && exit == Completed(old(checkpoint).value) && checkpoint == old(checkpoint)
                && db.State() == old(db.State())
      ensures old(checkpoint).None? ==>
                var initialized := Initialized(old(db.State()), v);
                var result := InsertResult(initialized, intent, v);
                && db.State() == AfterInsert(Attempt(initialized, intent), intent)
                && exit == (if result.Err? then Raised else if crashAfterEffect then Died else Completed(result.value))
                && checkpoint == if exit.Completed? then Some(exit.record) else None
    {
      if checkpoint.Some? { return Completed(checkpoint.value); }
      var result := db.WriteFakeErpEffect(intent, v);
      if result.Err? { return Raised; }
      if crashAfterEffect { return Died; }
      checkpoint := Some(result.value);
      return Completed(result.value);
    }
  }

  datatype Snapshot = Snapshot(attempts: nat, effects: nat)

  datatype Comparison = Comparison(
    afterCrash: Snapshot, afterRecovery: Snapshot, recovered: Record, afterReplay: Snapshot, replayed: Record)

  datatype ComparisonError = DidNotExit | NotOneEffect | RecoveryFailed

  method SnapshotFakeErp(db: Database) returns (s: Snapshot)
    requires db.table.Some?
    ensures s == Snapshot(|db.attempts|, |db.table.value.rows|)
  {
    s := Snapshot(|db.attempts|, |db.table.value.rows|);
  }

  /** The first phase leaves one attempt and one effect, or the comparison stops. */
  method CrashPhase(db: Database, runner: Runner, intent: string, v: Variant)
    returns (r: Result<Snapshot, ComparisonError>)
    requires db.Valid() && db.table.Some?
    modifies db, runner
    ensures db.Valid()
    ensures r.Ok? <==> old(runner.checkpoint).None? && old(db.attempts) == []
    ensures r.Ok? ==>
              && r.value == Snapshot(1, 1) && runner.checkpoint.None?
              && db.State() == Erp([intent], Some(Table(old(db.table).value.unique, [Effect(1, intent, PAYLOAD)])))
  {
    var crash := runner.BillingWorkflow(db, intent, v, true);
    if crash != Died { return Err(DidNotExit); }
    var afterCrash := SnapshotFakeErp(db);
    if afterCrash.effects != 1 || afterCrash.attempts != 1 { return Err(NotOneEffect); }
    assert old(db.table).value.rows == [] && db.attempts == [intent];
    assert db.table.value.rows == [Effect(1, intent, PAYLOAD)];
    return Ok(afterCrash);
  }

  /**
   Crash after the effect, recover, replay. It succeeds exactly on an empty store, unless a table with a
   key meets the variant without; the key of the table, not the variant, then decides the outcome.
   */
  method RunComparison(db: Database, runner: Runner, intent: string, v: Variant)
    returns (r: Result<Comparison, ComparisonError>)
    requires db.Valid()
    modifies db, runner
    ensures r.Ok? <==> old(runner.checkpoint).None? && old(db.attempts) == []
                       && (v.UniqueIntentKey? || !Initialized(old(db.State()), v).table.value.unique)
    ensures r.Ok? ==>
              var unique := Initialized(old(db.State()), v).table.value.unique;
              && r.value.afterCrash == Snapshot(1, 1)
              && r.value.afterRecovery == Snapshot(2, if unique then 1 else 2)
              && r.value.recovered == Record(!unique, Effect(if unique then 1 else 2, intent, PAYLOAD))
              && r.value.afterReplay == r.value.afterRecovery && r.value.replayed == r.value.recovered
  {
    db.Initialize(v);
    var crash := CrashPhase(db, runner, intent, v);
    if crash.Err? { return Err(crash.error); }
    var recovery := runner.BillingWorkflow(db, intent, v, false);
    if !recovery.Completed? { return Err(RecoveryFailed); }
    var afterRecovery := SnapshotFakeErp(db);
    var replay := runner.BillingWorkflow(db, intent, v, false);
    var afterReplay := SnapshotFakeErp(db);
    return Ok(Comparison(crash.value, afterRecovery, recovery.record, afterReplay, replay.record));
  }
}
