/**
 The bounded event history that a browser starts from: the recent tail of the
 incident ledger together with its lifecycle anchors.
 */
module EventWindow {
  import opened Wrappers

  const TAIL_LIMIT := 96
  const ANCHOR_KINDS := 13

  /** The thirteen anchor types, and every other event type. */
  datatype Kind =
    | SourceConditionInjected | IncidentDetected | InvestigationStarted | AgentStarted | AgentCompleted
    | EvaluationCompleted | RecoveryPrepared | ApprovalRequested | ApprovalRecorded | ExecutionStarted
    | ExecutionCompleted | VerificationStarted | VerificationCompleted | OtherKind(name: string)

  /** `sequence` is absent when the raw event carries no integer there. */
  datatype Event = Event(sequence: Option<int>, kind: Kind, body: string)

  predicate IsAnchor(k: Kind) { !k.OtherKind? }

  predicate IsDetection(k: Kind) { k.SourceConditionInjected? || k.IncidentDetected? }

  /** A number below `ANCHOR_KINDS` for each anchor type. */
  function Rank(k: Kind): int
  {
    match k
    case SourceConditionInjected => 0
    case IncidentDetected => 1
    case InvestigationStarted => 2
    case AgentStarted => 3
    case AgentCompleted => 4
    case EvaluationCompleted => 5
    case RecoveryPrepared => 6
    case ApprovalRequested => 7
    case ApprovalRecorded => 8
    case ExecutionStarted => 9
    case ExecutionCompleted => 10
    case VerificationStarted => 11
    case VerificationCompleted => 12
    case OtherKind(_) => 13
  }

  // ---------------------------------------------------------------------------
  // The window as a sub-list
  // ---------------------------------------------------------------------------

  predicate FirstDetectionAt(es: seq<Event>, i: int)
  {
    0 <= i < |es| && IsDetection(es[i].kind) && forall k :: 0 <= k < i ==> !IsDetection(es[k].kind)
  }

  predicate LatestAnchorAt(es: seq<Event>, i: int)
  {
    0 <= i < |es| && IsAnchor(es[i].kind) && forall k :: i < k < |es| ==> es[k].kind != es[i].kind
  }

  predicate Marked(es: seq<Event>, i: int)
  {
    FirstDetectionAt(es, i) || LatestAnchorAt(es, i)
  }

  function Cut(es: seq<Event>): nat
  {
    if |es| <= TAIL_LIMIT then 0 else |es| - TAIL_LIMIT
  }

  /** The marked events among the first `n`, in order. */
  function Head(es: seq<Event>, n: nat): seq<Event>
    requires n <= |es|
  {
    if n == 0 then [] else Head(es, n - 1) + if Marked(es, n - 1) then [es[n - 1]] else []
  }

  /** Marked events before the tail, then the tail. */
  function Window(es: seq<Event>): seq<Event>
  {
    Head(es, Cut(es)) + es[Cut(es)..]
  }

  ghost predicate Increasing(es: seq<Event>)
  {
    && (forall i :: 0 <= i < |es| ==> es[i].sequence.Some?)
    && forall i, j :: 0 <= i < j < |es| ==> es[i].sequence.value < es[j].sequence.value
  }

  function Marks(es: seq<Event>): seq<bool>
  {
    seq(|es|, i requires 0 <= i < |es| => Marked(es, i))
  }

  /** The elements among the first `n` whose mark is set, in order. */
  function Selected(es: seq<Event>, marks: seq<bool>, n: nat): seq<Event>
    requires n <= |es| == |marks|
  {
    if n == 0 then [] else Selected(es, marks, n - 1) + if marks[n - 1] then [es[n - 1]] else []
  }

  lemma {:induction false} HeadIsSelected(es: seq<Event>, n: nat)
    requires n <= |es|
    ensures Head(es, n) == Selected(es, Marks(es), n)
  {
    if n > 0 { HeadIsSelected(es, n - 1); }
  }

  lemma {:induction false} SelectedMembers(es: seq<Event>, marks: seq<bool>, n: nat, e: Event)
    requires n <= |es| == |marks|
    ensures e in Selected(es, marks, n) <==> exists i :: 0 <= i < n && marks[i] && es[i] == e
  {
    if n > 0 { SelectedMembers(es, marks, n - 1, e); }
  }

  lemma HeadMembers(es: seq<Event>, n: nat, e: Event)
    requires n <= |es|
    ensures e in Head(es, n) <==> exists i :: 0 <= i < n && Marked(es, i) && es[i] == e
  {
    var marks := Marks(es);
    HeadIsSelected(es, n);
    SelectedMembers(es, marks, n, e);
    if i :| 0 <= i < n && Marked(es, i) && es[i] == e { assert marks[i]; }
  }

  /** Position `i` is in the tail, or is marked. */
  predicate Kept(es: seq<Event>, i: int)
  {
    0 <= i < |es| && (i >= Cut(es) || Marked(es, i))
  }

  ghost predicate KeptEvent(es: seq<Event>, e: Event)
  {
    exists i :: Kept(es, i) && es[i] == e
  }

  /** The window keeps the tail, the first detection and the latest event of each anchor type, and nothing else. */
  lemma WindowMembers(es: seq<Event>, e: Event)
    ensures e in Window(es) <==> KeptEvent(es, e)
  {
    HeadMembers(es, Cut(es), e);
    if e in Head(es, Cut(es)) {
      var i :| 0 <= i < Cut(es) && Marked(es, i) && es[i] == e;
      assert Kept(es, i);
    }
    if e in es[Cut(es)..] {
      var i :| 0 <= i < |es[Cut(es)..]| && es[Cut(es)..][i] == e;
      assert Kept(es, Cut(es) + i);
    }
    if KeptEvent(es, e) {
      var i :| Kept(es, i) && es[i] == e;
      if i >= Cut(es) { assert es[Cut(es)..][i - Cut(es)] == e; }
    }
  }

  /** What a browser is promised: the last 96 events, the first detection, the latest event of each anchor type. */
  predicate Promised(es: seq<Event>, i: int)
  {
    && 0 <= i < |es|
    && (|| i >= |es| - 96
        || (es[i].kind in {SourceConditionInjected, IncidentDetected}
            && forall k :: 0 <= k < i ==> es[k].kind !in {SourceConditionInjected, IncidentDetected})
        || (!es[i].kind.OtherKind? && forall k :: i < k < |es| ==> es[k].kind != es[i].kind))
  }

  lemma WindowIsWhatWasPromised(es: seq<Event>, e: Event)
    ensures e in Window(es) <==> exists i :: Promised(es, i) && es[i] == e
  {
    WindowMembers(es, e);
    forall i ensures Promised(es, i) <==> Kept(es, i) {
      KeptIsPromised(es, i);
    }
  }

  lemma KeptIsPromised(es: seq<Event>, i: int)
    ensures Promised(es, i) <==> Kept(es, i)
  {}

  /** All of them lie at or before `last`. */
  ghost predicate UpToEvent(a: seq<Event>, last: int)
  {
    forall j :: 0 <= j < |a| ==> a[j].sequence.Some? && a[j].sequence.value <= last
  }

  lemma {:induction false} SelectedIncreasing(es: seq<Event>, marks: seq<bool>, n: nat)
    requires n <= |es| == |marks| && Increasing(es)
    ensures Increasing(Selected(es, marks, n))
    ensures if n == 0 then Selected(es, marks, n) == [] else UpToEvent(Selected(es, marks, n), es[n - 1].sequence.value)
  {
    if n > 0 { SelectedIncreasing(es, marks, n - 1); }
  }

  lemma JoinIncreasing(a: seq<Event>, b: seq<Event>)
    requires Increasing(a) && Increasing(b) && (b != [] ==> UpToEvent(a, b[0].sequence.value - 1))
    ensures Increasing(a + b)
  {
    var all := a + b;
    forall i, j | 0 <= i < j < |all| ensures all[i].sequence.value < all[j].sequence.value {
      if i < |a| <= j && j > |a| { assert b[0].sequence.value < b[j - |a|].sequence.value; }
    }
  }

  /** The window of a strictly increasing ledger is strictly increasing and ends where the ledger ends. */
  lemma WindowIncreasing(es: seq<Event>)
    requires Increasing(es)
    ensures Increasing(Window(es))
    ensures es != [] ==> Window(es) != [] && Window(es)[|Window(es)| - 1] == es[|es| - 1]
  {
    var n := Cut(es);
    var head, tail := Head(es, n), es[n..];
    HeadIsSelected(es, n);
    SelectedIncreasing(es, Marks(es), n);
    if n > 0 { assert es[n - 1].sequence.value < es[n].sequence.value && tail[0] == es[n]; }
    JoinIncreasing(head, tail);
    if es != [] { LastOfJoin(head, tail); assert tail[|tail| - 1] == es[|es| - 1]; }
  }

  lemma LastOfJoin(a: seq<Event>, b: seq<Event>)
    requires b != []
    ensures (a + b)[|a + b| - 1] == b[|b| - 1]
  {}

  // ---------------------------------------------------------------------------
  // At most 110 events
  // ---------------------------------------------------------------------------

  function LatestCount(es: seq<Event>, n: nat, rank: nat): nat
    requires n <= |es|
  {
    if n == 0 then 0
    else LatestCount(es, n - 1, rank) + if LatestAnchorAt(es, n - 1) && Rank(es[n - 1].kind) < rank then 1 else 0
  }

  function DetectionCount(es: seq<Event>, n: nat): nat
    requires n <= |es|
  {
    if n == 0 then 0 else DetectionCount(es, n - 1) + if FirstDetectionAt(es, n - 1) then 1 else 0
  }

  lemma SameRankSameKind(a: Kind, b: Kind)
    requires IsAnchor(a) && IsAnchor(b) && Rank(a) == Rank(b)
    ensures a == b
  {}

  lemma {:induction false} NextRankAddsOne(es: seq<Event>, n: nat, rank: nat)
    requires n <= |es|
    ensures LatestCount(es, n, rank + 1) <= LatestCount(es, n, rank) + 1
    ensures LatestCount(es, n, rank + 1) > LatestCount(es, n, rank) ==>
              exists i :: 0 <= i < n && LatestAnchorAt(es, i) && Rank(es[i].kind) == rank
  {
    if n > 0 {
      NextRankAddsOne(es, n - 1, rank);
      if LatestAnchorAt(es, n - 1) && Rank(es[n - 1].kind) == rank
         && LatestCount(es, n - 1, rank + 1) > LatestCount(es, n - 1, rank) {
        var i :| 0 <= i < n - 1 && LatestAnchorAt(es, i) && Rank(es[i].kind) == rank;
        SameRankSameKind(es[i].kind, es[n - 1].kind);
      }
    }
  }

  lemma {:induction false} LatestCountBound(es: seq<Event>, n: nat, rank: nat)
    requires n <= |es|
    ensures LatestCount(es, n, rank) <= rank
    decreases rank
  {
    if rank == 0 {
      NoneBelowZero(es, n);
    } else {
      LatestCountBound(es, n, rank - 1);
      NextRankAddsOne(es, n, rank - 1);
    }
  }

  lemma {:induction false} NoneBelowZero(es: seq<Event>, n: nat)
    requires n <= |es|
    ensures LatestCount(es, n, 0) == 0
  {
    if n > 0 { NoneBelowZero(es, n - 1); }
  }

  lemma {:induction false} OneFirstDetection(es: seq<Event>, n: nat)
    requires n <= |es|
    ensures DetectionCount(es, n) <= 1
    ensures DetectionCount(es, n) == 1 ==> exists i :: 0 <= i < n && FirstDetectionAt(es, i)
  {
    if n > 0 { OneFirstDetection(es, n - 1); }
  }

  lemma {:induction false} HeadLength(es: seq<Event>, n: nat)
    requires n <= |es|
    ensures |Head(es, n)| <= DetectionCount(es, n) + LatestCount(es, n, ANCHOR_KINDS)
  {
    if n > 0 { HeadLength(es, n - 1); }
  }

  lemma WindowBound(es: seq<Event>)
    ensures |Window(es)| <= TAIL_LIMIT + ANCHOR_KINDS + 1 == 110
  {
    HeadLength(es, Cut(es));
    OneFirstDetection(es, Cut(es));
    LatestCountBound(es, Cut(es), ANCHOR_KINDS);
  }

  // ---------------------------------------------------------------------------
  // Windowing again changes nothing
  // ---------------------------------------------------------------------------

  // Marked events stay marked when other marked events and later events are all that is left.
  lemma {:induction false} HeadStaysMarked(es: seq<Event>, n: nat, later: seq<Event>, j: int)
    requires n <= |es| && 0 <= j < |Head(es, n)|
    requires forall e :: e in later ==> exists k :: n <= k < |es| && es[k] == e
    ensures Marked(Head(es, n) + later, j)
    decreases n
  {
    var before := Head(es, n - 1);
    if !Marked(es, n - 1) {
      assert Head(es, n) == before;
      HeadStaysMarked(es, n - 1, later, j);
    } else if j < |before| {
      HeadStaysMarked(es, n - 1, [es[n - 1]] + later, j);
      assert before + ([es[n - 1]] + later) == Head(es, n) + later;
    } else {
      var all := Head(es, n) + later;
      assert all[j] == es[n - 1];
      forall k | 0 <= k < j ensures exists m :: 0 <= m < n - 1 && es[m] == all[k] {
        assert all[k] == before[k] && all[k] in before;
        HeadMembers(es, n - 1, all[k]);
      }
      forall k | j < k < |all| ensures exists m :: n <= m < |es| && es[m] == all[k] {
        assert all[k] == later[k - j - 1] && all[k] in later;
      }
    }
  }

  lemma {:induction false} AllMarkedHead(es: seq<Event>, n: nat)
    requires n <= |es| && forall j :: 0 <= j < n ==> Marked(es, j)
    ensures Head(es, n) == es[..n]
  {
    if n > 0 { AllMarkedHead(es, n - 1); }
  }

  /** Windowing a window returns the same events. */
  lemma WindowIdempotent(es: seq<Event>)
    ensures Window(Window(es)) == Window(es)
  {
    var w, head, tail := Window(es), Head(es, Cut(es)), es[Cut(es)..];
    if Cut(es) == 0 {
      assert w == es;
    } else {
      assert Cut(w) == |head|;
      forall j | 0 <= j < |head| ensures Marked(w, j) {
        forall e | e in tail ensures exists k :: Cut(es) <= k < |es| && es[k] == e {
          var m :| 0 <= m < |tail| && tail[m] == e;
          assert es[Cut(es) + m] == e;
        }
        HeadStaysMarked(es, Cut(es), tail, j);
      }
      AllMarkedHead(w, |head|);
    }
  }

  // ---------------------------------------------------------------------------
  // The snapshot: selection through two dictionaries, then a sort
  // ---------------------------------------------------------------------------

  /** Assignment of `e` under its type in a dictionary that keeps the place of each first insertion. */
  function Placed(anchors: seq<Event>, e: Event): seq<Event>
  {
    if anchors == [] then [e]
    else if anchors[0].kind == e.kind then [e] + anchors[1..]
    else [anchors[0]] + Placed(anchors[1..], e)
  }

  /** Assignment of `e` under its sequence in a dictionary listed by increasing key. */
  function Put(listed: seq<Event>, e: Event): seq<Event>
    requires e.sequence.Some? && forall x :: x in listed ==> x.sequence.Some?
  {
    if listed == [] || e.sequence.value < listed[0].sequence.value then [e] + listed
    else if e.sequence == listed[0].sequence then [e] + listed[1..]
    else [listed[0]] + Put(listed[1..], e)
  }

  ghost predicate DistinctKinds(es: seq<Event>)
  {
    forall i, j :: 0 <= i < j < |es| ==> es[i].kind != es[j].kind
  }

  lemma {:induction false} PlacedMembers(anchors: seq<Event>, e: Event)
    requires DistinctKinds(anchors)
    ensures DistinctKinds(Placed(anchors, e))
    ensures forall x :: x in Placed(anchors, e) <==> x == e || (x in anchors && x.kind != e.kind)
  {
    if anchors != [] && anchors[0].kind != e.kind {
      PlacedMembers(anchors[1..], e);
      assert anchors == [anchors[0]] + anchors[1..];
    } else if anchors != [] {
      assert anchors == [anchors[0]] + anchors[1..];
    }
  }

  lemma {:induction false} PutMembers(listed: seq<Event>, e: Event)
    requires e.sequence.Some? && Increasing(listed)
    ensures forall x :: x in Put(listed, e) <==> x == e || (x in listed && x.sequence != e.sequence)
  {
    if listed != [] {
      assert listed == [listed[0]] + listed[1..];
      if listed[0].sequence.value < e.sequence.value { PutMembers(listed[1..], e); }
    }
  }

  lemma {:induction false} PutKeepsIncreasing(listed: seq<Event>, e: Event)
    requires e.sequence.Some? && Increasing(listed)
    ensures Increasing(Put(listed, e))
  {
    if listed != [] && listed[0].sequence.value < e.sequence.value {
      var rest := Put(listed[1..], e);
      PutKeepsIncreasing(listed[1..], e);
      PutMembers(listed[1..], e);
      forall j | 0 <= j < |rest| ensures listed[0].sequence.value < rest[j].sequence.value {
        assert rest[j] in rest;
      }
      assert Put(listed, e) == [listed[0]] + rest;
    }
  }

  /** The latest event of its type among the first `n`. */
  predicate LatestBefore(es: seq<Event>, n: int, i: int)
  {
    0 <= i < n <= |es| && IsAnchor(es[i].kind) && forall k :: i < k < n ==> es[k].kind != es[i].kind
  }

  /** `e` is the latest event of its anchor type among the first `n`. */
  ghost predicate IsLatest(es: seq<Event>, n: int, e: Event)
  {
    exists i :: LatestBefore(es, n, i) && es[i] == e
  }

  ghost predicate HoldsLatest(es: seq<Event>, n: int, anchors: seq<Event>)
  {
    DistinctKinds(anchors) && forall e :: e in anchors <==> IsLatest(es, n, e)
  }

  lemma NextLatest(es: seq<Event>, n: nat, e: Event)
    requires n < |es|
    ensures IsLatest(es, n + 1, e) <==>
            if IsAnchor(es[n].kind) then e == es[n] || (IsLatest(es, n, e) && e.kind != es[n].kind)
            else IsLatest(es, n, e)
  {}

  lemma NextAnchor(es: seq<Event>, n: nat, anchors: seq<Event>)
    requires n < |es| && HoldsLatest(es, n, anchors)
    ensures HoldsLatest(es, n + 1, if IsAnchor(es[n].kind) then Placed(anchors, es[n]) else anchors)
  {
    if IsAnchor(es[n].kind) { PlacedMembers(anchors, es[n]); }
    forall e { NextLatest(es, n, e); }
  }

  /** The events of `xs` that a dictionary by sequence keeps, by increasing sequence. */
  function Collected(xs: seq<Event>): (listed: seq<Event>)
    ensures Increasing(listed)
    ensures forall e :: e in listed ==> e in xs
  {
    if xs == [] then []
    else
      var e, before := xs[|xs| - 1], Collected(xs[..|xs| - 1]);
      if e.sequence.None? then before else
      PutMembers(before, e);
      PutKeepsIncreasing(before, e);
      Put(before, e)
  }

  /** Position `i` holds the last event with its sequence. */
  predicate LastOfSequence(xs: seq<Event>, i: int)
  {
    0 <= i < |xs| && xs[i].sequence.Some? && forall k :: i < k < |xs| ==> xs[k].sequence != xs[i].sequence
  }

  /** `e` is the last event with its sequence. */
  ghost predicate Survives(xs: seq<Event>, e: Event)
  {
    exists i :: LastOfSequence(xs, i) && xs[i] == e
  }

  lemma SurvivesNext(xs: seq<Event>, last: Event, e: Event)
    ensures Survives(xs + [last], e) <==>
            (last.sequence.Some? && e == last) || (Survives(xs, e) && e.sequence != last.sequence)
  {
    var ys := xs + [last];
    if Survives(ys, e) {
      var i :| LastOfSequence(ys, i) && ys[i] == e;
      if i < |xs| {
        assert ys[|xs|] == last && forall k :: 0 <= k < |xs| ==> xs[k] == ys[k];
        assert LastOfSequence(xs, i);
      }
    }
    if Survives(xs, e) && e.sequence != last.sequence {
      var i :| LastOfSequence(xs, i) && xs[i] == e;
      assert LastOfSequence(ys, i);
    }
    if last.sequence.Some? && e == last { assert LastOfSequence(ys, |xs|); }
  }

  /** Of the events that share a sequence the last one wins; events without a sequence are dropped. */
  lemma {:induction false} CollectedMembers(xs: seq<Event>, e: Event)
    ensures e in Collected(xs) <==> Survives(xs, e)
  {
    if xs != [] {
      var last, start := xs[|xs| - 1], xs[..|xs| - 1];
      assert xs == start + [last];
      CollectedMembers(start, e);
      SurvivesNext(start, last, e);
      if last.sequence.Some? { PutMembers(Collected(start), last); }
    }
  }

  lemma {:induction false} SameSortedMembers(a: seq<Event>, b: seq<Event>)
    requires Increasing(a) && Increasing(b)
    requires forall e :: e in a <==> e in b
    ensures a == b
  {
    assert a != [] ==> a[0] in a && a[0] in b;
    assert b != [] ==> b[0] in b && b[0] in a;
    if a != [] && b != [] {
      assert a == [a[0]] + a[1..] && b == [b[0]] + b[1..];
      forall e ensures e in a[1..] <==> e in b[1..] {
        assert e in a[1..] <==> e in a && e != a[0];
        assert e in b[1..] <==> e in b && e != b[0];
      }
      SameSortedMembers(a[1..], b[1..]);
    }
  }

  lemma {:induction false} CollectedDistinct(xs: seq<Event>, e: Event)
    requires forall x :: x in xs ==> x.sequence.Some?
    requires forall x, y :: x in xs && y in xs && x.sequence == y.sequence ==> x == y
    ensures e in Collected(xs) <==> e in xs
  {
    if xs != [] {
      var last, start := xs[|xs| - 1], xs[..|xs| - 1];
      assert xs == start + [last];
      CollectedDistinct(start, e);
      PutMembers(Collected(start), last);
    }
  }

  lemma SelectionIsWindow(es: seq<Event>, chosen: seq<Event>)
    requires Increasing(es)
    requires forall e :: e in chosen <==> KeptEvent(es, e)
    ensures Collected(chosen) == Window(es)
  {
    WindowIncreasing(es);
    forall e ensures e in Collected(chosen) <==> e in Window(es) {
      WindowMembers(es, e);
      CollectedDistinct(chosen, e);
    }
    SameSortedMembers(Collected(chosen), Window(es));
  }

  /**
   The events shown to a browser, with the size of the ledger, the number of events returned, and whether
   any was left out. On a strictly increasing ledger they are exactly its window; on any ledger they are
   strictly increasing events of the ledger, and every sequence of the tail is shown by its last event.
   */
  method BrowserSnapshot(events: seq<Event>)
    returns (bounded: seq<Event>, total: nat, returned: nat, truncated: bool)
    ensures Increasing(bounded) && forall e :: e in bounded ==> e in events
    ensures Increasing(events) ==> bounded == Window(events)
    ensures forall i :: Cut(events) <= i && LastOfSequence(events, i) ==> events[i] in bounded
    ensures total == |events| && returned == |bounded| && (truncated <==> |bounded| < |events|)
  {
    var selected := events[Cut(events)..];
    var latestAnchors: seq<Event> := [];
    var firstDetection: Option<Event> := None;
    for n := 0 to |events|
      invariant HoldsLatest(events, n, latestAnchors)
      invariant Detected(events[..n], firstDetection)
    {
      NextAnchor(events, n, latestAnchors);
      NextDetection(events, n, firstDetection);
      if IsDetection(events[n].kind) && firstDetection.None? {
        firstDetection := Some(events[n]);
      }
      if IsAnchor(events[n].kind) {
        latestAnchors := Placed(latestAnchors, events[n]);
      }
    }
    assert events[..|events|] == events;
    var chosen := (if firstDetection.Some? then [firstDetection.value] else []) + latestAnchors + selected;
    bounded := Listed(chosen);
    SnapshotMeaning(events, firstDetection, latestAnchors);
    total, returned, truncated := |events|, |bounded|, |bounded| < |events|;
  }

  /** The dictionary by sequence, filled in order and listed by increasing sequence. */
  method Listed(chosen: seq<Event>) returns (bounded: seq<Event>)
    ensures bounded == Collected(chosen)
  {
    bounded := [];
    for k := 0 to |chosen|
      invariant bounded == Collected(chosen[..k])
    {
      assert chosen[..k + 1][..k] == chosen[..k];
      if chosen[k].sequence.Some? {
        PutMembers(bounded, chosen[k]);
        bounded := Put(bounded, chosen[k]);
      }
    }
    assert chosen[..|chosen|] == chosen;
  }

  lemma NextDetection(es: seq<Event>, n: nat, detection: Option<Event>)
    requires n < |es| && Detected(es[..n], detection)
    ensures Detected(es[..n + 1], if IsDetection(es[n].kind) && detection.None? then Some(es[n]) else detection)
  {
    if detection.Some? {
      var at :| FirstDetectionAt(es[..n], at) && es[..n][at] == detection.value;
      assert FirstDetectionAt(es[..n + 1], at) && es[..n + 1][at] == detection.value;
    } else if IsDetection(es[n].kind) {
      assert forall k :: 0 <= k < n ==> es[..n + 1][k] == es[..n][k];
      assert FirstDetectionAt(es[..n + 1], n);
    }
  }

  lemma SnapshotMeaning(es: seq<Event>, detection: Option<Event>, anchors: seq<Event>)
    requires HoldsLatest(es, |es|, anchors) && Detected(es, detection)
    ensures var bounded := Collected(Chosen(es, detection, anchors));
            && (forall e :: e in bounded ==> e in es)
            && (Increasing(es) ==> bounded == Window(es))
            && forall i :: Cut(es) <= i && LastOfSequence(es, i) ==> es[i] in bounded
  {
    var chosen := Chosen(es, detection, anchors);
    forall e ensures e in chosen <==> KeptEvent(es, e) { ChosenAreKept(es, detection, anchors, e); }
    if Increasing(es) { SelectionIsWindow(es, chosen); }
    forall i | Cut(es) <= i && LastOfSequence(es, i) ensures es[i] in Collected(chosen) {
      TailSurvives(es, (if detection.Some? then [detection.value] else []) + anchors, i);
    }
  }

  ghost predicate Detected(es: seq<Event>, detection: Option<Event>)
  {
    match detection
    case None => forall k :: 0 <= k < |es| ==> !IsDetection(es[k].kind)
    case Some(e) => exists at :: FirstDetectionAt(es, at) && es[at] == e
  }

  function Chosen(es: seq<Event>, detection: Option<Event>, anchors: seq<Event>): seq<Event>
  {
    (if detection.Some? then [detection.value] else []) + anchors + es[Cut(es)..]
  }

  lemma ChosenAreKept(es: seq<Event>, detection: Option<Event>, anchors: seq<Event>, e: Event)
    requires HoldsLatest(es, |es|, anchors) && Detected(es, detection)
    ensures e in Chosen(es, detection, anchors) <==> KeptEvent(es, e)
  {
    if KeptEvent(es, e) {
      var i :| Kept(es, i) && es[i] == e;
      KeptIsChosen(es, i, detection, anchors);
    }
  }

  lemma TailSurvives(es: seq<Event>, before: seq<Event>, i: nat)
    requires Cut(es) <= i && LastOfSequence(es, i)
    ensures es[i] in Collected(before + es[Cut(es)..])
  {
    var chosen, d := before + es[Cut(es)..], |before| - Cut(es);
    forall k | i < k + Cut(es) - |before| && |before| <= k < |chosen|
      ensures chosen[k].sequence != es[i].sequence
    {
      assert chosen[k] == es[k - d];
    }
    assert LastOfSequence(chosen, i + d);
    CollectedMembers(chosen, es[i]);
  }

  lemma KeptIsChosen(es: seq<Event>, i: int, detection: Option<Event>, anchors: seq<Event>)
    requires HoldsLatest(es, |es|, anchors) && Detected(es, detection) && Kept(es, i)
    ensures es[i] in Chosen(es, detection, anchors)
  {
    if FirstDetectionAt(es, i) {
      var at :| FirstDetectionAt(es, at) && es[at] == detection.value;
      assert i == at;
    } else if LatestAnchorAt(es, i) {
      assert LatestBefore(es, |es|, i) && IsLatest(es, |es|, es[i]);
    } else {
      assert es[Cut(es)..][i - Cut(es)] == es[i];
    }
  }
}
