/**
 Continuation of a native agent session, turn by turn: a turn starts only from
 the exact output, contract and snapshot that its predecessor left. Hashes are
 identified with what they hash.
 */
module NativeSession {
  import opened Wrappers

  datatype Variant = N1 | N2

  /** A session identity is determined by the case and the variant. */
  datatype Key = Key(caseId: string, variant: Variant)

  /** The contract file beside the session, and the stored message history. */
  datatype Session = Session(sidecar: Option<string>, snapshot: Option<seq<string>>)

  datatype Output =
    | StructuralComplete(key: Key, turn: int, contract: string, before: seq<string>, snapshot: Option<seq<string>>)
    | ExecutionFailed

  /** A started invocation: the history that it restored, and the history that it holds now. */
  datatype Active = Active(key: Key, turn: int, contract: string, base: seq<string>, memory: seq<string>)

  datatype World = World(sessions: map<Key, Session>, outputs: seq<Output>, active: seq<Active>)

  datatype Step =
    | Begin(key: Key, turn: int, predecessor: Option<nat>, contract: string)
    | Save(run: nat, message: string)
    | Complete(run: nat)
    | Fail(run: nat)
    | Kill(run: nat)

  function SessionOf(w: World, key: Key): Session
  {
    if key in w.sessions then w.sessions[key] else Session(None, None)
  }

  function History(snapshot: Option<seq<string>>): seq<string>
  {
    if snapshot.Some? then snapshot.value else []
  }

  /** What a later turn demands of the output that it names as its predecessor. */
  predicate Precedes(o: Output, s: Session, key: Key, turn: int)
  {
    && o.StructuralComplete? && o.turn == turn - 1 && o.key == key
    && s.sidecar == Some(o.contract) && s.snapshot.Some? && o.snapshot == s.snapshot
  }

  predicate Admitted(w: World, key: Key, turn: int, predecessor: Option<nat>, contract: string)
  {
    var s := SessionOf(w, key);
    if turn == 1 then predecessor.None? && s.snapshot.None? && s.sidecar.None?
    else
      && predecessor.Some? && predecessor.value < |w.outputs| && Precedes(w.outputs[predecessor.value], s, key, turn)
      && s.sidecar == Some(contract)
  }

  /**
   Admission rests on everything that it checks: with any other stored contract or history, with any other record of
   the predecessor, or under any other contract, a turn that was admitted is refused.
   */
  lemma TamperingIsRefused(w: World, key: Key, turn: int, predecessor: Option<nat>, contract: string,
                           other: Session, record: Output, rules: string)
    requires Admitted(w, key, turn, predecessor, contract)
    ensures other != SessionOf(w, key) ==>
              !Admitted(w.(sessions := w.sessions[key := other]), key, turn, predecessor, contract)
    ensures turn == 1 ==> SessionOf(w, key) == Session(None, None) && predecessor.None?
    ensures turn != 1 ==>
              && predecessor.Some? && predecessor.value < |w.outputs| && SessionOf(w, key).snapshot.Some?
              && (Admitted(w, key, turn, predecessor, rules) <==> rules == contract)
    ensures turn != 1 ==>
              var v := w.(outputs := w.outputs[predecessor.value := record]);
              (Admitted(v, key, turn, predecessor, contract) <==>
                record.StructuralComplete? && record.(before := w.outputs[predecessor.value].before)
                                              == w.outputs[predecessor.value])
  {}

  function Without(active: seq<Active>, i: nat): seq<Active>
    requires i < |active|
  {
    active[..i] + active[i + 1..]
  }

  /** A refused start writes a failed output; the first turn creates the contract file. */
  function Begun(w: World, key: Key, turn: int, predecessor: Option<nat>, contract: string): World
  {
    if !Admitted(w, key, turn, predecessor, contract) then w.(outputs := w.outputs + [ExecutionFailed])
    else
      var s := SessionOf(w, key);
      w.(sessions := w.sessions[key := s.(sidecar := Some(contract))],
         active := w.active + [Active(key, turn, contract, History(s.snapshot), History(s.snapshot))])
  }

  /** The agent appends a message and stores its whole history. */
  function Saved(w: World, i: nat, message: string): World
    requires i < |w.active|
  {
    var a := w.active[i];
    var next := a.(memory := a.memory + [message]);
    w.(sessions := w.sessions[a.key := SessionOf(w, a.key).(snapshot := Some(next.memory))],
       active := w.active[i := next])
  }

  /** An invocation that yields a result has stored at least the question. */
  function Completes(w: World, i: nat): World
    requires i < |w.active|
  {
    var a := w.active[i];
    if |a.memory| == |a.base| then w
    else
      w.(outputs := w.outputs + [StructuralComplete(a.key, a.turn, a.contract, a.base, SessionOf(w, a.key).snapshot)],
         active := Without(w.active, i))
  }

  function Next(w: World, s: Step): World
  {
    match s
    case Begin(key, turn, predecessor, contract) => Begun(w, key, turn, predecessor, contract)
    case Save(i, message) => if i < |w.active| then Saved(w, i, message) else w
    case Complete(i) => if i < |w.active| then Completes(w, i) else w
    case Fail(i) =>
      if i < |w.active| then w.(outputs := w.outputs + [ExecutionFailed], active := Without(w.active, i)) else w
    case Kill(i) => if i < |w.active| then w.(active := Without(w.active, i)) else w
  }

  function Run(w: World, steps: seq<Step>): World
    decreases |steps|
  {
    if steps == [] then w else Run(Next(w, steps[0]), steps[1..])
  }

  const EMPTY := World(map[], [], [])

  /** No later turn of a session is checked between another run's check and that run's first save. */
  predicate Spaced(w: World, s: Step)
  {
    s.Begin? && s.turn != 1 ==>
      forall i :: 0 <= i < |w.active| && w.active[i].key == s.key ==> w.active[i].memory != w.active[i].base
  }

  predicate AllSpaced(w: World, steps: seq<Step>)
    decreases |steps|
  {
    steps == [] || (Spaced(w, steps[0]) && AllSpaced(Next(w, steps[0]), steps[1..]))
  }

  // ---------------------------------------------------------------------------
  // The chain
  // ---------------------------------------------------------------------------

  /** The completed turns of a session, in the order in which they were written. */
  function Completed(outputs: seq<Output>, key: Key): seq<Output>
  {
    if outputs == [] then []
    else
      var o := outputs[|outputs| - 1];
      Completed(outputs[..|outputs| - 1], key) + if o.StructuralComplete? && o.key == key then [o] else []
  }

  function EndOf(c: seq<Output>): seq<string>
  {
    if c == [] || c[|c| - 1].ExecutionFailed? then [] else History(c[|c| - 1].snapshot)
  }

  /** Turn `j + 1`, under the session's contract, starting from the snapshot before it and extending it. */
  predicate Link(c: seq<Output>, contract: Option<string>, j: nat)
    requires j < |c|
  {
    && c[j].StructuralComplete? && c[j].turn == j + 1 && contract == Some(c[j].contract)
    && c[j].before == EndOf(c[..j])
    && c[j].snapshot.Some? && c[j].before < c[j].snapshot.value
  }

  ghost predicate Chain(c: seq<Output>, contract: Option<string>)
  {
    forall j :: 0 <= j < |c| ==> Link(c, contract, j)
  }

  ghost predicate KeySound(w: World, key: Key)
  {
    var c, s := Completed(w.outputs, key), SessionOf(w, key);
    && Chain(c, s.sidecar)
    && (s.sidecar.None? ==> s.snapshot.None?)
    && (c != [] ==> s.snapshot.Some? && EndOf(c) <= s.snapshot.value)
  }

  /** A run continues the chain from its end, and what it saved is what is stored. */
  predicate RunSound(w: World, a: Active)
  {
    var c, s := Completed(w.outputs, a.key), SessionOf(w, a.key);
    && s.sidecar == Some(a.contract) && a.turn == |c| + 1 && a.base == EndOf(c) && a.base <= a.memory
    && s.snapshot == if |a.memory| == |a.base| && c == [] then None else Some(a.memory)
  }

  ghost predicate DistinctKeys(active: seq<Active>)
  {
    forall i, j :: 0 <= i < j < |active| ==> active[i].key != active[j].key
  }

  ghost predicate Sound(w: World)
  {
    && (forall key :: KeySound(w, key))
    && (forall i :: 0 <= i < |w.active| ==> RunSound(w, w.active[i]))
    && DistinctKeys(w.active)
  }

  lemma CompletedAppend(outputs: seq<Output>, o: Output, key: Key)
    ensures Completed(outputs + [o], key)
            == if o.StructuralComplete? && o.key == key then Completed(outputs, key) + [o] else Completed(outputs, key)
  {}

  lemma {:induction false} CompletedContains(outputs: seq<Output>, p: nat, key: Key)
    requires p < |outputs| && outputs[p].StructuralComplete? && outputs[p].key == key
    ensures outputs[p] in Completed(outputs, key)
  {
    if p < |outputs| - 1 { CompletedContains(outputs[..|outputs| - 1], p, key); }
  }

  // Snapshots grow along a chain.
  lemma {:induction false} ChainGrows(c: seq<Output>, contract: Option<string>, j: nat)
    requires Chain(c, contract) && j < |c|
    ensures c[j].StructuralComplete? && c[j].snapshot.Some? && |History(c[j].snapshot)| <= |EndOf(c)|
    ensures j < |c| - 1 ==> |History(c[j].snapshot)| < |EndOf(c)|
  {
    assert Link(c, contract, j) && Link(c, contract, |c| - 1);
    if j < |c| - 1 {
      var start := c[..|c| - 1];
      forall k | 0 <= k < |start| ensures Link(start, contract, k) {
        assert Link(c, contract, k) && start[..k] == c[..k];
      }
      ChainGrows(start, contract, j);
    }
  }

  /** Only the end of the chain can be continued, and only while its snapshot is the stored one. */
  lemma OnlyTheEndContinues(w: World, key: Key, turn: int, predecessor: Option<nat>, contract: string)
    requires KeySound(w, key) && Admitted(w, key, turn, predecessor, contract)
    ensures turn == |Completed(w.outputs, key)| + 1
    ensures History(SessionOf(w, key).snapshot) == EndOf(Completed(w.outputs, key))
    ensures turn != 1 ==> SessionOf(w, key).snapshot == Some(EndOf(Completed(w.outputs, key)))
  {
    var c, s := Completed(w.outputs, key), SessionOf(w, key);
    assert c != [] ==> Link(c, s.sidecar, 0);
    if turn != 1 {
      var o := w.outputs[predecessor.value];
      CompletedContains(w.outputs, predecessor.value, key);
      var j :| 0 <= j < |c| && c[j] == o;
      assert Link(c, s.sidecar, j);
      ChainGrows(c, s.sidecar, j);
    }
  }

  lemma BeginKeepsSound(w: World, s: Step)
    requires Sound(w) && s.Begin? && Spaced(w, s) && Admitted(w, s.key, s.turn, s.predecessor, s.contract)
    ensures Sound(Next(w, s))
  {
    var v, n, c := Next(w, s), |w.active|, Completed(w.outputs, s.key);
    assert KeySound(w, s.key);
    OnlyTheEndContinues(w, s.key, s.turn, s.predecessor, s.contract);
    forall key ensures KeySound(v, key) { assert KeySound(w, key); }
    forall i | 0 <= i < n ensures w.active[i].key != s.key && RunSound(v, v.active[i]) {
      assert RunSound(w, w.active[i]);
    }
    assert RunSound(v, v.active[n]);
  }

  lemma SaveKeepsSound(w: World, i: nat, message: string)
    requires Sound(w) && i < |w.active|
    ensures Sound(Saved(w, i, message))
  {
    var v, a := Saved(w, i, message), w.active[i];
    assert RunSound(w, a) && KeySound(w, a.key);
    forall key ensures KeySound(v, key) { assert KeySound(w, key); }
    forall j | 0 <= j < |w.active| ensures RunSound(v, v.active[j]) {
      assert RunSound(w, w.active[j]);
      assert j != i ==> w.active[j].key != a.key;
    }
  }

  /** A completed run is the next link of its session's chain. */
  lemma CompleteExtendsChain(w: World, i: nat)
    requires Sound(w) && i < |w.active| && |w.active[i].memory| > |w.active[i].base|
    ensures var v, a := Completes(w, i), w.active[i];
            && Completed(v.outputs, a.key) == Completed(w.outputs, a.key)
                 + [StructuralComplete(a.key, a.turn, a.contract, a.base, Some(a.memory))]
            && KeySound(v, a.key)
  {
    var v, a := Completes(w, i), w.active[i];
    assert RunSound(w, a) && KeySound(w, a.key);
    var o := StructuralComplete(a.key, a.turn, a.contract, a.base, Some(a.memory));
    CompletedAppend(w.outputs, o, a.key);
    var c, d := Completed(w.outputs, a.key), Completed(v.outputs, a.key);
    forall j | 0 <= j < |d| ensures Link(d, Some(a.contract), j) {
      if j < |c| { assert Link(c, Some(a.contract), j) && d[..j] == c[..j]; } else { assert d[..j] == c; }
    }
  }

  lemma WithoutKeepsDistinct(active: seq<Active>, i: nat)
    requires DistinctKeys(active) && i < |active|
    ensures DistinctKeys(Without(active, i))
    ensures forall a :: a in Without(active, i) ==> a in active && a.key != active[i].key
  {}

  lemma WithoutKeepsSound(w: World, i: nat, outputs: seq<Output>)
    requires Sound(w) && i < |w.active|
    requires forall key :: KeySound(w.(outputs := outputs), key)
    requires forall key :: key != w.active[i].key ==> Completed(outputs, key) == Completed(w.outputs, key)
    ensures Sound(w.(outputs := outputs, active := Without(w.active, i)))
  {
    var v := w.(outputs := outputs, active := Without(w.active, i));
    WithoutKeepsDistinct(w.active, i);
    forall key ensures KeySound(v, key) { assert KeySound(w.(outputs := outputs), key); }
    forall j | 0 <= j < |v.active| ensures RunSound(v, v.active[j]) {
      var a := v.active[j];
      assert a in v.active && a in w.active;
      assert RunSound(w, a);
    }
  }

  lemma CompleteKeepsSound(w: World, i: nat)
    requires Sound(w) && i < |w.active| && |w.active[i].memory| > |w.active[i].base|
    ensures Sound(Completes(w, i))
  {
    var v := Completes(w, i);
    forall key ensures KeySound(w.(outputs := v.outputs), key)
                       && (key != w.active[i].key ==> Completed(v.outputs, key) == Completed(w.outputs, key))
    {
      assert KeySound(w, key);
      if key == w.active[i].key {
        CompleteExtendsChain(w, i);
        assert KeySound(v, key);
      } else {
        CompletedAppend(w.outputs, v.outputs[|w.outputs|], key);
      }
    }
    WithoutKeepsSound(w, i, v.outputs);
  }

  lemma EndKeepsSound(w: World, s: Step)
    requires Sound(w) && (s.Complete? || s.Fail? || s.Kill?) && s.run < |w.active|
    ensures Sound(Next(w, s))
  {
    var i := s.run;
    assert RunSound(w, w.active[i]);
    if s.Complete? {
      if |w.active[i].memory| > |w.active[i].base| { CompleteKeepsSound(w, i); }
    } else {
      var outputs := if s.Fail? then w.outputs + [ExecutionFailed] else w.outputs;
      forall key ensures KeySound(w.(outputs := outputs), key) && Completed(outputs, key) == Completed(w.outputs, key) {
        CompletedAppend(w.outputs, ExecutionFailed, key);
        assert KeySound(w, key);
      }
      WithoutKeepsSound(w, i, outputs);
    }
  }

  lemma RefusalKeepsSound(w: World)
    requires Sound(w)
    ensures Sound(w.(outputs := w.outputs + [ExecutionFailed]))
  {
    var v := w.(outputs := w.outputs + [ExecutionFailed]);
    forall key ensures KeySound(v, key) && Completed(v.outputs, key) == Completed(w.outputs, key) {
      assert KeySound(w, key);
      CompletedAppend(w.outputs, ExecutionFailed, key);
    }
    forall i | 0 <= i < |w.active| ensures RunSound(v, w.active[i]) { assert RunSound(w, w.active[i]); }
  }

  lemma StepKeepsSound(w: World, s: Step)
    requires Sound(w) && Spaced(w, s)
    ensures Sound(Next(w, s))
  {
    match s
    case Begin(key, turn, predecessor, contract) =>
      if Admitted(w, key, turn, predecessor, contract) { BeginKeepsSound(w, s); } else { RefusalKeepsSound(w); }
    case Save(i, message) => if i < |w.active| { SaveKeepsSound(w, i, message); }
    case _ => if s.run < |w.active| { EndKeepsSound(w, s); }
  }

  lemma {:induction false} StepsKeepSound(w: World, steps: seq<Step>)
    requires Sound(w) && AllSpaced(w, steps)
    ensures Sound(Run(w, steps))
    decreases |steps|
  {
    if steps != [] {
      StepKeepsSound(w, steps[0]);
      StepsKeepSound(Next(w, steps[0]), steps[1..]);
    }
  }

  /**
   Under every spaced schedule of runs, saves, failures and kills, the completed turns of a session are turns one
   to n, each once and in order, under one contract, each starting from its predecessor's snapshot.
   */
  lemma CompletedTurnsFormOneChain(steps: seq<Step>, key: Key)
    requires AllSpaced(EMPTY, steps)
    ensures var w := Run(EMPTY, steps); Chain(Completed(w.outputs, key), SessionOf(w, key).sidecar)
  {
    StepsKeepSound(EMPTY, steps);
    assert KeySound(Run(EMPTY, steps), key);
  }

  /** The session can go no further: its contract exists and its history is not the end of its chain. */
  predicate Spoiled(w: World, key: Key)
  {
    var c, s := Completed(w.outputs, key), SessionOf(w, key);
    && s.sidecar.Some? && (c == [] || s.snapshot != Some(EndOf(c)))
    && forall i :: 0 <= i < |w.active| ==> w.active[i].key != key
  }

  lemma NothingContinuesSpoiled(w: World, key: Key, turn: int, predecessor: Option<nat>, contract: string)
    requires KeySound(w, key) && Spoiled(w, key)
    ensures !Admitted(w, key, turn, predecessor, contract)
  {
    if Admitted(w, key, turn, predecessor, contract) {
      OnlyTheEndContinues(w, key, turn, predecessor, contract);
    }
  }

  // No step touches the session, and no step writes an output of it.
  lemma StepSparesSpoiled(w: World, s: Step, key: Key)
    requires KeySound(w, key) && Spoiled(w, key)
    ensures SessionOf(Next(w, s), key) == SessionOf(w, key)
    ensures forall i :: 0 <= i < |Next(w, s).active| ==> Next(w, s).active[i].key != key
    ensures Next(w, s).outputs == w.outputs
            || exists o :: Next(w, s).outputs == w.outputs + [o] && (o.StructuralComplete? ==> o.key != key)
  {
    if s.Begin? && s.key == key { NothingContinuesSpoiled(w, key, s.turn, s.predecessor, s.contract); }
  }

  lemma StepKeepsSpoiled(w: World, s: Step, key: Key)
    requires Sound(w) && Spoiled(w, key)
    ensures Spoiled(Next(w, s), key) && Completed(Next(w, s).outputs, key) == Completed(w.outputs, key)
  {
    assert KeySound(w, key);
    StepSparesSpoiled(w, s, key);
    if Next(w, s).outputs != w.outputs {
      var o :| Next(w, s).outputs == w.outputs + [o] && (o.StructuralComplete? ==> o.key != key);
      CompletedAppend(w.outputs, o, key);
    }
  }

  /**
   A turn that stored messages and did not complete ends its session: no later turn ever completes, not even by
   retrying.
   */
  lemma {:induction false} SpoiledSessionStays(w: World, steps: seq<Step>, key: Key)
    requires Sound(w) && AllSpaced(w, steps) && Spoiled(w, key)
    ensures Completed(Run(w, steps).outputs, key) == Completed(w.outputs, key)
    decreases |steps|
  {
    if steps != [] {
      StepKeepsSpoiled(w, steps[0], key);
      StepKeepsSound(w, steps[0]);
      SpoiledSessionStays(Next(w, steps[0]), steps[1..], key);
    }
  }

  /** Stopping a run leaves its session spoiled exactly when it is the first turn or has stored a message. */
  lemma StoppedRunSpoils(w: World, i: nat, s: Step)
    requires Sound(w) && i < |w.active| && (s == Fail(i) || s == Kill(i))
    ensures Spoiled(Next(w, s), w.active[i].key) <==> w.active[i].turn == 1 || w.active[i].memory != w.active[i].base
  {
    var a, v := w.active[i], Next(w, s);
    assert RunSound(w, a);
    CompletedAppend(w.outputs, ExecutionFailed, a.key);
    WithoutKeepsDistinct(w.active, i);
    forall j | 0 <= j < |v.active| ensures v.active[j].key != a.key { assert v.active[j] in v.active; }
  }

  // ---------------------------------------------------------------------------
  // Any schedule at all
  // ---------------------------------------------------------------------------

  /** First turns of a session that are running or complete. */
  function FirstTurns(outputs: seq<Output>, key: Key): nat
  {
    if outputs == [] then 0
    else
      var o := outputs[|outputs| - 1];
      FirstTurns(outputs[..|outputs| - 1], key) + if o.StructuralComplete? && o.key == key && o.turn == 1 then 1 else 0
  }

  function FirstRuns(active: seq<Active>, key: Key): nat
  {
    if active == [] then 0
    else FirstRuns(active[1..], key) + if active[0].key == key && active[0].turn == 1 then 1 else 0
  }

  lemma {:induction false} FirstRunsSplit(a: seq<Active>, b: seq<Active>, key: Key)
    ensures FirstRuns(a + b, key) == FirstRuns(a, key) + FirstRuns(b, key)
  {
    if a == [] {
      assert a + b == b;
    } else {
      assert (a + b)[1..] == a[1..] + b;
      FirstRunsSplit(a[1..], b, key);
    }
  }

  lemma FirstRunsWithout(active: seq<Active>, i: nat, key: Key)
    requires i < |active|
    ensures FirstRuns(active, key)
            == FirstRuns(Without(active, i), key) + if active[i].key == key && active[i].turn == 1 then 1 else 0
  {
    var tail := active[i..];
    assert active == active[..i] + tail && tail == [active[i]] + active[i + 1..];
    FirstRunsSplit(active[..i], tail, key);
    FirstRunsSplit(active[..i], active[i + 1..], key);
  }

  lemma FirstRunsReplace(active: seq<Active>, i: nat, a: Active, key: Key)
    requires i < |active| && a.key == active[i].key && a.turn == active[i].turn
    ensures FirstRuns(active[i := a], key) == FirstRuns(active, key)
  {
    FirstRunsWithout(active, i, key);
    FirstRunsWithout(active[i := a], i, key);
    assert Without(active[i := a], i) == Without(active, i);
  }

  ghost predicate OneContract(outputs: seq<Output>, key: Key, sidecar: Option<string>)
  {
    forall k :: 0 <= k < |outputs| && outputs[k].StructuralComplete? && outputs[k].key == key ==>
      Some(outputs[k].contract) == sidecar
  }

  /** The contract file admits one first turn, and everything of the session runs under it. */
  ghost predicate Guarded(w: World, key: Key)
  {
    var sidecar := SessionOf(w, key).sidecar;
    && FirstTurns(w.outputs, key) + FirstRuns(w.active, key) <= (if sidecar.Some? then 1 else 0)
    && OneContract(w.outputs, key, sidecar)
    && forall i :: 0 <= i < |w.active| && w.active[i].key == key ==> Some(w.active[i].contract) == sidecar
  }

  lemma AppendFirstTurns(outputs: seq<Output>, o: Output, key: Key)
    ensures FirstTurns(outputs + [o], key)
            == FirstTurns(outputs, key) + if o.StructuralComplete? && o.key == key && o.turn == 1 then 1 else 0
  {}

  lemma BeginKeepsGuarded(w: World, s: Step, key: Key)
    requires Guarded(w, key) && s.Begin? && Admitted(w, s.key, s.turn, s.predecessor, s.contract)
    ensures Guarded(Next(w, s), key)
  {
    var v, n := Next(w, s), |w.active|;
    FirstRunsSplit(w.active, [v.active[n]], key);
    assert s.key == key && s.turn != 1 ==> SessionOf(w, key).sidecar == Some(s.contract);
    assert forall i :: 0 <= i < n ==> v.active[i] == w.active[i];
  }

  lemma EndKeepsGuarded(w: World, i: nat, outputs: seq<Output>, key: Key)
    requires Guarded(w, key) && i < |w.active| && OneContract(outputs, key, SessionOf(w, key).sidecar)
    requires FirstTurns(outputs, key)
             <= FirstTurns(w.outputs, key) + if w.active[i].key == key && w.active[i].turn == 1 then 1 else 0
    ensures Guarded(w.(outputs := outputs, active := Without(w.active, i)), key)
  {
    var active := Without(w.active, i);
    FirstRunsWithout(w.active, i, key);
    forall j | 0 <= j < |active| && active[j].key == key ensures Some(active[j].contract) == SessionOf(w, key).sidecar {
      assert active[j] == w.active[if j < i then j else j + 1];
    }
  }

  lemma AppendKeepsOneContract(outputs: seq<Output>, o: Output, key: Key, sidecar: Option<string>)
    requires OneContract(outputs, key, sidecar)
    requires o.StructuralComplete? && o.key == key ==> Some(o.contract) == sidecar
    ensures OneContract(outputs + [o], key, sidecar)
  {}

  lemma CompleteKeepsGuarded(w: World, i: nat, key: Key)
    requires Guarded(w, key) && i < |w.active|
    ensures Guarded(Completes(w, i), key)
  {
    var a := w.active[i];
    if |a.memory| != |a.base| {
      var o := StructuralComplete(a.key, a.turn, a.contract, a.base, SessionOf(w, a.key).snapshot);
      AppendFirstTurns(w.outputs, o, key);
      AppendKeepsOneContract(w.outputs, o, key, SessionOf(w, key).sidecar);
      EndKeepsGuarded(w, i, w.outputs + [o], key);
    }
  }

  lemma FailureKeepsGuarded(w: World, key: Key)
    requires Guarded(w, key)
    ensures Guarded(w.(outputs := w.outputs + [ExecutionFailed]), key)
  {}

  lemma SaveKeepsGuarded(w: World, i: nat, message: string, key: Key)
    requires Guarded(w, key) && i < |w.active|
    ensures Guarded(Saved(w, i, message), key)
  {
    var v := Saved(w, i, message);
    FirstRunsReplace(w.active, i, v.active[i], key);
    assert forall j :: 0 <= j < |w.active| && j != i ==> v.active[j] == w.active[j];
  }

  lemma StepKeepsGuarded(w: World, s: Step, key: Key)
    requires Guarded(w, key)
    ensures Guarded(Next(w, s), key)
  {
    match s
    case Begin(_, _, _, _) =>
      if Admitted(w, s.key, s.turn, s.predecessor, s.contract) {
        BeginKeepsGuarded(w, s, key);
      } else {
        FailureKeepsGuarded(w, key);
      }
    case Save(i, message) => if i < |w.active| { SaveKeepsGuarded(w, i, message, key); }
    case Complete(i) => if i < |w.active| { CompleteKeepsGuarded(w, i, key); }
    case Fail(i) =>
      if i < |w.active| {
        FailureKeepsGuarded(w, key);
        EndKeepsGuarded(w.(outputs := w.outputs + [ExecutionFailed]), i, w.outputs + [ExecutionFailed], key);
      }
    case Kill(i) => if i < |w.active| { EndKeepsGuarded(w, i, w.outputs, key); }
  }

  lemma {:induction false} StepsKeepGuarded(w: World, steps: seq<Step>, key: Key)
    requires Guarded(w, key)
    ensures Guarded(Run(w, steps), key)
    decreases |steps|
  {
    if steps != [] {
      StepKeepsGuarded(w, steps[0], key);
      StepsKeepGuarded(Next(w, steps[0]), steps[1..], key);
    }
  }

  /**
   However runs overlap, the first turn of a session completes at most once and one contract governs all its
   turns.
   */
  lemma FirstTurnCompletesOnce(steps: seq<Step>, key: Key)
    ensures var w := Run(EMPTY, steps);
            FirstTurns(w.outputs, key) <= 1 && OneContract(w.outputs, key, SessionOf(w, key).sidecar)
  {
    StepsKeepGuarded(EMPTY, steps, key);
  }

  // ---------------------------------------------------------------------------
  // Overlapping later turns
  // ---------------------------------------------------------------------------

  /** A second start of a later turn that is running is admitted exactly while the running one has saved nothing. */
  lemma SecondStartAdmitted(w: World, i: nat, predecessor: nat)
    requires Sound(w) && i < |w.active| && w.active[i].turn != 1
    requires predecessor < |w.outputs| && w.outputs[predecessor].StructuralComplete?
    requires w.outputs[predecessor].key == w.active[i].key && w.outputs[predecessor].turn == w.active[i].turn - 1
    ensures Admitted(w, w.active[i].key, w.active[i].turn, Some(predecessor), w.active[i].contract) <==>
            w.active[i].memory == w.active[i].base
  {
    var a, o := w.active[i], w.outputs[predecessor];
    var c, s := Completed(w.outputs, a.key), SessionOf(w, a.key);
    assert RunSound(w, a) && KeySound(w, a.key);
    CompletedContains(w.outputs, predecessor, a.key);
    var j :| 0 <= j < |c| && c[j] == o;
    assert Link(c, s.sidecar, j) && j == |c| - 1;
  }

  /** Two runs of one later turn, the second started before the first has saved. */
  function Overlap(a: Active, i: nat, n: nat, predecessor: nat, m: string): seq<Step>
  {
    [Begin(a.key, a.turn, Some(predecessor), a.contract), Save(n, m), Save(i, m), Complete(n), Complete(i)]
  }

  /** They both complete: the chain forks. */
  lemma OverlapForks(w: World, i: nat, predecessor: nat, m: string)
    requires Sound(w) && i < |w.active| && w.active[i].turn != 1 && w.active[i].memory == w.active[i].base
    requires predecessor < |w.outputs| && w.outputs[predecessor].StructuralComplete?
    requires w.outputs[predecessor].key == w.active[i].key && w.outputs[predecessor].turn == w.active[i].turn - 1
    ensures var a, v := w.active[i], Run(w, Overlap(w.active[i], i, |w.active|, predecessor, m));
            var twice := StructuralComplete(a.key, a.turn, a.contract, a.base, Some(a.base + [m]));
            v.outputs == w.outputs + [twice, twice]
  {
    var a, n, o := w.active[i], |w.active|, w.outputs[predecessor];
    assert RunSound(w, a);
    SecondStartAdmitted(w, i, predecessor);
    var w1 := Next(w, Begin(a.key, a.turn, Some(predecessor), a.contract));
    assert w1.active[n] == a;
    var w2 := Next(w1, Save(n, m));
    var w3 := Next(w2, Save(i, m));
    assert w3.active[n].memory == a.base + [m] && w3.active[i].memory == a.base + [m];
    var w4 := Next(w3, Complete(n));
    assert w4.active[i] == w3.active[i];
    var w5 := Next(w4, Complete(i));
    RunOfFive(w, Overlap(a, i, n, predecessor, m));
  }

  /** A first turn that completes, and a second turn that starts. */
  function SecondTurnStarts(key: Key, contract: string, m: string): seq<Step>
  {
    [Begin(key, 1, None, contract), Save(0, m), Complete(0), Begin(key, 2, Some(0), contract)]
  }

  lemma SecondTurnIsRunning(key: Key, contract: string, m: string) returns (w: World)
    ensures w == Run(EMPTY, SecondTurnStarts(key, contract, m)) && Sound(w)
    ensures w.active == [Active(key, 2, contract, [m], [m])]
    ensures w.outputs == [StructuralComplete(key, 1, contract, [], Some([m]))]
  {
    var steps := SecondTurnStarts(key, contract, m);
    var w1 := Next(EMPTY, steps[0]);
    assert w1.active == [Active(key, 1, contract, [], [])];
    var w2 := Next(w1, steps[1]);
    assert [] + [m] == [m] && w2.active == [Active(key, 1, contract, [], [m])];
    var w3 := Next(w2, steps[2]);
    assert w3.active == [] && w3.outputs == [StructuralComplete(key, 1, contract, [], Some([m]))];
    w := Next(w3, steps[3]);
    RunOfFour(EMPTY, steps);
    StepKeepsSound(EMPTY, steps[0]);
    StepKeepsSound(w1, steps[1]);
    StepKeepsSound(w2, steps[2]);
    StepKeepsSound(w3, steps[3]);
  }

  /** A witness from the empty root: a first turn, and then two second turns that both complete. */
  lemma ForkFromEmpty(key: Key, contract: string, m: string)
    ensures var second := Active(key, 2, contract, [m], [m]);
            var w := Run(EMPTY, SecondTurnStarts(key, contract, m) + Overlap(second, 0, 1, 0, m));
            var twice := StructuralComplete(key, 2, contract, [m], Some([m, m]));
            w.outputs == [StructuralComplete(key, 1, contract, [], Some([m])), twice, twice]
  {
    var w := SecondTurnIsRunning(key, contract, m);
    OverlapForks(w, 0, 0, m);
    RunSplit(EMPTY, SecondTurnStarts(key, contract, m), Overlap(w.active[0], 0, 1, 0, m));
    assert [m] + [m] == [m, m];
  }

  lemma RunOfFour(w: World, s: seq<Step>)
    requires |s| == 4
    ensures Run(w, s) == Next(Next(Next(Next(w, s[0]), s[1]), s[2]), s[3])
  {
    RunHead(w, s);
    RunHead(Next(w, s[0]), s[1..]);
    RunHead(Next(Next(w, s[0]), s[1]), s[1..][1..]);
    RunHead(Next(Next(Next(w, s[0]), s[1]), s[2]), s[1..][1..][1..]);
  }

  lemma RunOfFive(w: World, s: seq<Step>)
    requires |s| == 5
    ensures Run(w, s) == Next(Next(Next(Next(Next(w, s[0]), s[1]), s[2]), s[3]), s[4])
  {
    RunHead(w, s);
    RunHead(Next(w, s[0]), s[1..]);
    RunHead(Next(Next(w, s[0]), s[1]), s[1..][1..]);
    RunHead(Next(Next(Next(w, s[0]), s[1]), s[2]), s[1..][1..][1..]);
    RunHead(Next(Next(Next(Next(w, s[0]), s[1]), s[2]), s[3]), s[1..][1..][1..][1..]);
  }

  lemma RunHead(w: World, s: seq<Step>)
    requires s != []
    ensures Run(w, s) == Run(Next(w, s[0]), s[1..])
  {}

  // ---------------------------------------------------------------------------
  // One run
  // ---------------------------------------------------------------------------

  function Saves(messages: seq<string>): seq<Step>
  {
    if messages == [] then [] else Saves(messages[..|messages| - 1]) + [Save(0, messages[|messages| - 1])]
  }

  /** The steps of one run that nothing overlaps. */
  function Turn(key: Key, turn: int, predecessor: Option<nat>, contract: string, messages: seq<string>, ok: bool)
    : seq<Step>
  {
    [Begin(key, turn, predecessor, contract)] + Saves(messages)
    + [if ok && messages != [] then Complete(0) else Fail(0)]
  }

  lemma {:induction false} RunSplit(w: World, a: seq<Step>, b: seq<Step>)
    ensures Run(w, a + b) == Run(Run(w, a), b)
    decreases |a|
  {
    if a == [] {
      assert a + b == b;
    } else {
      assert (a + b)[1..] == a[1..] + b;
      RunSplit(Next(w, a[0]), a[1..], b);
    }
  }

  lemma RunOne(w: World, s: Step)
    ensures Run(w, [s]) == Next(w, s)
  {}

  lemma {:induction false} SavesOfNobody(w: World, messages: seq<string>)
    requires w.active == []
    ensures Run(w, Saves(messages)) == w
  {
    if messages != [] {
      var start := messages[..|messages| - 1];
      SavesOfNobody(w, start);
      RunSplit(w, Saves(start), [Save(0, messages[|messages| - 1])]);
      RunOne(w, Save(0, messages[|messages| - 1]));
    }
  }

  lemma {:induction false} NoBeginIsSpaced(w: World, steps: seq<Step>)
    requires forall s :: s in steps ==> !s.Begin?
    ensures AllSpaced(w, steps)
    decreases |steps|
  {
    if steps != [] { NoBeginIsSpaced(Next(w, steps[0]), steps[1..]); }
  }

  lemma {:induction false} SavesBeginNothing(messages: seq<string>)
    ensures forall s :: s in Saves(messages) ==> s.Save?
  {
    if messages != [] { SavesBeginNothing(messages[..|messages| - 1]); }
  }

  /** One run after another is spaced: a run that starts while no other is under way leaves room for its whole turn. */
  lemma TurnIsSpaced(w: World, key: Key, turn: int, predecessor: Option<nat>, contract: string, messages: seq<string>,
                     ok: bool)
    requires w.active == []
    ensures AllSpaced(w, Turn(key, turn, predecessor, contract, messages, ok))
  {
    var steps := Turn(key, turn, predecessor, contract, messages, ok);
    SavesBeginNothing(messages);
    var end := if ok && messages != [] then Complete(0) else Fail(0);
    assert steps[1..] == Saves(messages) + [end];
    NoBeginIsSpaced(Next(w, steps[0]), steps[1..]);
  }

  lemma RunOfTurn(w: World, begin: Step, saves: seq<Step>, end: Step)
    ensures Run(w, [begin] + saves + [end]) == Next(Run(Next(w, begin), saves), end)
  {
    assert [begin] + saves + [end] == [begin] + (saves + [end]);
    RunSplit(w, [begin], saves + [end]);
    RunOne(w, begin);
    RunSplit(Next(w, begin), saves, [end]);
    RunOne(Run(Next(w, begin), saves), end);
  }

  class SessionRoot {
    var sessions: map<Key, Session>
    var outputs: seq<Output>

    ghost function State(): World
      reads this
    {
      World(sessions, outputs, [])
    }

    /** The checks before an agent is created; the first turn leaves its contract file behind. */
    method Admit(key: Key, turn: int, predecessor: Option<nat>, contract: string) returns (admitted: bool)
      modifies this`sessions
      ensures admitted == Admitted(old(State()), key, turn, predecessor, contract)
      ensures admitted ==> sessions == old(sessions)[key := SessionOf(old(State()), key).(sidecar := Some(contract))]
      ensures !admitted ==> sessions == old(sessions)
    {
      var s := if key in sessions then sessions[key] else Session(None, None);
      if turn == 1 {
        if predecessor.Some? || s.snapshot.Some? { return false; }
        if s.sidecar.Some? { return false; }
        sessions := sessions[key := s.(sidecar := Some(contract))];
        return true;
      }
      if predecessor.None? || s.snapshot.None? || predecessor.value >= |outputs| { return false; }
      var o := outputs[predecessor.value];
      if !o.StructuralComplete? || o.turn != turn - 1 || o.key != key { return false; }
      if s.sidecar != Some(o.contract) || o.snapshot != s.snapshot { return false; }
      if s.sidecar != Some(contract) { return false; }
      sessions := sessions[key := s];
      return true;
    }

    /** The conversation: each message extends the history, and the whole history is stored. */
    method Converse(key: Key, messages: seq<string>, ghost begun: World)
      requires |begun.active| == 1 && begun.active[0].key == key
      requires begun.sessions == sessions && begun.outputs == outputs
      requires begun.active[0].memory == History(SessionOf(State(), key).snapshot)
      modifies this`sessions
      ensures var v := Run(begun, Saves(messages));
              && v.sessions == sessions && v.outputs == outputs
              && v.active == [begun.active[0].(memory := begun.active[0].memory + messages)]
    {
      var memory := if key in sessions then History(sessions[key].snapshot) else [];
      ghost var base := memory;
      assert memory + messages[..0] == memory;
      for k := 0 to |messages|
        invariant memory == base + messages[..k]
        invariant Run(begun, Saves(messages[..k])) == World(sessions, outputs, [begun.active[0].(memory := memory)])
      {
        ghost var was := World(sessions, outputs, [begun.active[0].(memory := memory)]);
        memory := memory + [messages[k]];
        var s := if key in sessions then sessions[key] else Session(None, None);
        sessions := sessions[key := s.(snapshot := Some(memory))];
        RunOne(was, Save(0, messages[k]));
        RunSplit(begun, Saves(messages[..k]), [Save(0, messages[k])]);
        assert messages[..k + 1][..k] == messages[..k];
        assert base + messages[..k] + [messages[k]] == base + messages[..k + 1];
      }
      assert messages[..|messages|] == messages;
    }

    /** One run: `messages` are what the agent stored before it ended, and `ok` says that it yielded a result. */
    method RunTurn(key: Key, turn: int, predecessor: Option<nat>, contract: string, messages: seq<string>, ok: bool)
      returns (record: Output)
      modifies this
      ensures State() == Run(old(State()), Turn(key, turn, predecessor, contract, messages, ok))
      ensures outputs == old(outputs) + [record]
      ensures record.StructuralComplete? <==>
              Admitted(old(State()), key, turn, predecessor, contract) && ok && messages != []
    {
      ghost var was, begin := State(), Begin(key, turn, predecessor, contract);
      ghost var end := if ok && messages != [] then Complete(0) else Fail(0);
      ghost var begun := Next(was, begin);
      RunOfTurn(was, begin, Saves(messages), end);
      record := ExecutionFailed;
      var admitted := Admit(key, turn, predecessor, contract);
      if admitted {
        var before := if key in sessions then History(sessions[key].snapshot) else [];
        Converse(key, messages, begun);
        assert |before + messages| == |before| + |messages|;
        if ok && messages != [] {
          var stored := if key in sessions then sessions[key].snapshot else None;
          record := StructuralComplete(key, turn, contract, before, stored);
        }
      } else {
        SavesOfNobody(begun, messages);
      }
      outputs := outputs + [record];
    }
  }
}
