/**
 Segmentation of retained observations for charts: lines join only adjacent
 usable observations of one cohort.
 */
module HistorySeries {
  import opened Wrappers

  /** A property of a parsed observation: absent, null, or a scalar. */
  datatype Field = Undefined | Null | Text(text: string) | Number(number: real) | Boolean(flag: bool)

  datatype Cohort = Cohort(
    caseId: Field, sourceId: Field, currency: Field, uom: Field,
    itemCode: Field, metricVersion: Field, provenance: Field, observationKind: Field)

  /** `time` is absent when the date does not parse; `metrics` holds the finite numbers. */
  datatype Point = Point(cohort: Cohort, time: Option<int>, metrics: map<string, real>)

  datatype Sample = Sample(time: int, value: real, point: Point)

  /** The serialised array shows an absent property as null. */
  function Shown(f: Field): Field { if f.Undefined? then Null else f }

  function Serialized(c: Cohort): Cohort
  {
    Cohort(Shown(c.caseId), Shown(c.sourceId), Shown(c.currency), Shown(c.uom),
           Shown(c.itemCode), Shown(c.metricVersion), Shown(c.provenance), Shown(c.observationKind))
  }

  /** Equal, or absent in one and null in the other. */
  predicate Alike(a: Field, b: Field)
  {
    a == b || (a == Undefined && b == Null) || (a == Null && b == Undefined)
  }

  /** All eight properties that a line may not mix. */
  predicate SameLine(a: Cohort, b: Cohort)
  {
    && Alike(a.caseId, b.caseId) && Alike(a.sourceId, b.sourceId) && Alike(a.currency, b.currency)
    && Alike(a.uom, b.uom) && Alike(a.itemCode, b.itemCode) && Alike(a.metricVersion, b.metricVersion)
    && Alike(a.provenance, b.provenance) && Alike(a.observationKind, b.observationKind)
  }

  lemma SerializedAlike(a: Cohort, b: Cohort)
    ensures Serialized(a) == Serialized(b) <==> SameLine(a, b)
  {}

  predicate NothingAbsent(c: Cohort)
  {
    Undefined !in {c.caseId, c.sourceId, c.currency, c.uom,
                   c.itemCode, c.metricVersion, c.provenance, c.observationKind}
  }

  predicate Usable(p: Point, key: string) { key in p.metrics && p.time.Some? }

  function SampleOf(p: Point, key: string): Sample
    requires Usable(p, key)
  {
    Sample(p.time.value, p.metrics[key], p)
  }

  // ---------------------------------------------------------------------------
  // Maximal runs
  // ---------------------------------------------------------------------------

  /** Observation `i` continues the one before it. */
  predicate Joined(points: seq<Point>, key: string, i: int)
  {
    && 0 < i < |points| && Usable(points[i - 1], key) && Usable(points[i], key)
    && Serialized(points[i - 1].cohort) == Serialized(points[i].cohort)
  }

  /** The end of the run that is under way at `i`. */
  function EndOfRun(points: seq<Point>, key: string, i: nat): (end: nat)
    requires i < |points|
    ensures i < end <= |points| && !Joined(points, key, end)
    ensures forall k :: i < k < end ==> Joined(points, key, k)
    decreases |points| - i
  {
    if Joined(points, key, i + 1) then EndOfRun(points, key, i + 1) else i + 1
  }

  ghost predicate AllUsable(points: seq<Point>, key: string, i: int, j: int)
  {
    0 <= i <= j <= |points| && forall k :: i <= k < j ==> Usable(points[k], key)
  }

  function Samples(points: seq<Point>, key: string, i: nat, j: nat): (s: seq<Sample>)
    requires AllUsable(points, key, i, j)
    ensures |s| == j - i && forall k :: 0 <= k < |s| ==> s[k] == SampleOf(points[i + k], key)
  {
    seq(j - i, k requires 0 <= k < j - i => SampleOf(points[i + k], key))
  }

  lemma RunIsUsable(points: seq<Point>, key: string, i: nat)
    requires i < |points| && Usable(points[i], key)
    ensures AllUsable(points, key, i, EndOfRun(points, key, i))
  {
    forall k | i < k < EndOfRun(points, key, i) ensures Usable(points[k], key) { assert Joined(points, key, k); }
  }

  /** The maximal runs from position `i` on. */
  function RunsFrom(points: seq<Point>, key: string, i: nat): seq<seq<Sample>>
    requires i <= |points|
    decreases |points| - i
  {
    if i == |points| then []
    else if !Usable(points[i], key) then RunsFrom(points, key, i + 1)
    else
      RunIsUsable(points, key, i);
      [Samples(points, key, i, EndOfRun(points, key, i))] + RunsFrom(points, key, EndOfRun(points, key, i))
  }

  /** Where each of those runs starts. */
  function StartsFrom(points: seq<Point>, key: string, i: nat): seq<nat>
    requires i <= |points|
    decreases |points| - i
  {
    if i == |points| then []
    else if !Usable(points[i], key) then StartsFrom(points, key, i + 1)
    else [i] + StartsFrom(points, key, EndOfRun(points, key, i))
  }

  function Segments(points: seq<Point>, key: string): seq<seq<Sample>> { RunsFrom(points, key, 0) }

  /** Segment `k` is the stretch of the points that starts at `start`, and cannot be extended on either side. */
  ghost predicate MaximalRun(points: seq<Point>, key: string, segment: seq<Sample>, start: nat)
  {
    && segment != [] && AllUsable(points, key, start, start + |segment|)
    && segment == Samples(points, key, start, start + |segment|)
    && !Joined(points, key, start) && !Joined(points, key, start + |segment|)
    && forall k :: start < k < start + |segment| ==> Joined(points, key, k)
  }

  lemma {:induction false} RunsAreMaximal(points: seq<Point>, key: string, i: nat, k: nat)
    requires i <= |points| && (i < |points| ==> !Joined(points, key, i)) && k < |RunsFrom(points, key, i)|
    ensures |StartsFrom(points, key, i)| == |RunsFrom(points, key, i)|
    ensures i <= StartsFrom(points, key, i)[k]
    ensures MaximalRun(points, key, RunsFrom(points, key, i)[k], StartsFrom(points, key, i)[k])
    decreases |points| - i
  {
    hide Serialized, SampleOf;
    if i < |points| && !Usable(points[i], key) {
      RunsAreMaximal(points, key, i + 1, k);
    } else if i < |points| {
      var end := EndOfRun(points, key, i);
      RunIsUsable(points, key, i);
      if k > 0 {
        RunsAreMaximal(points, key, end, k - 1);
      } else if RunsFrom(points, key, end) != [] {
        RunsAreMaximal(points, key, end, 0);
      } else {
        NoRunsNoStarts(points, key, end);
      }
    }
  }

  lemma {:induction false} NoRunsNoStarts(points: seq<Point>, key: string, i: nat)
    requires i <= |points| && RunsFrom(points, key, i) == []
    ensures StartsFrom(points, key, i) == []
    decreases |points| - i
  {
    if i < |points| { NoRunsNoStarts(points, key, i + 1); }
  }

  /** The usable observations from `i` on, in order. */
  function UsableFrom(points: seq<Point>, key: string, i: nat): seq<Sample>
    requires i <= |points|
    decreases |points| - i
  {
    if i == |points| then []
    else (if Usable(points[i], key) then [SampleOf(points[i], key)] else []) + UsableFrom(points, key, i + 1)
  }

  function Flatten(segments: seq<seq<Sample>>): seq<Sample>
  {
    if segments == [] then [] else segments[0] + Flatten(segments[1..])
  }

  lemma FirstSample(points: seq<Point>, key: string, i: nat, j: nat)
    requires AllUsable(points, key, i, j) && i < j
    ensures Samples(points, key, i, j) == [SampleOf(points[i], key)] + Samples(points, key, i + 1, j)
  {}

  lemma {:induction false} UsableStretch(points: seq<Point>, key: string, i: nat, j: nat)
    requires AllUsable(points, key, i, j)
    ensures UsableFrom(points, key, i) == Samples(points, key, i, j) + UsableFrom(points, key, j)
    decreases j - i
  {
    if i < j {
      UsableStretch(points, key, i + 1, j);
      FirstSample(points, key, i, j);
      var first, more, rest := [SampleOf(points[i], key)], Samples(points, key, i + 1, j), UsableFrom(points, key, j);
      assert first + (more + rest) == (first + more) + rest;
    }
  }

  lemma {:induction false} FlattenFrom(points: seq<Point>, key: string, i: nat)
    requires i <= |points|
    ensures Flatten(RunsFrom(points, key, i)) == UsableFrom(points, key, i)
    decreases |points| - i
  {
    if i < |points| && !Usable(points[i], key) {
      FlattenFrom(points, key, i + 1);
    } else if i < |points| {
      var end := EndOfRun(points, key, i);
      RunIsUsable(points, key, i);
      FlattenFrom(points, key, end);
      UsableStretch(points, key, i, end);
      assert RunsFrom(points, key, i)[1..] == RunsFrom(points, key, end);
    }
  }

  /** The segments laid end to end are the usable observations, in order: none lost, none repeated, none invented. */
  lemma SegmentsKeepUsablePoints(points: seq<Point>, key: string)
    ensures Flatten(Segments(points, key)) == UsableFrom(points, key, 0)
  {
    FlattenFrom(points, key, 0);
  }

  /** Observations `i - 1` and `i` lie in one segment. */
  ghost predicate Share(points: seq<Point>, key: string, from: nat, i: int)
    requires from <= |points|
  {
    var starts, runs := StartsFrom(points, key, from), RunsFrom(points, key, from);
    |starts| == |runs| && exists k :: 0 <= k < |runs| && starts[k] < i < starts[k] + |runs[k]|
  }

  lemma {:induction false} ShareFrom(points: seq<Point>, key: string, from: nat, i: int)
    requires from <= |points| && from < i < |points| && (from < |points| ==> !Joined(points, key, from))
    ensures Share(points, key, from, i) <==> Joined(points, key, i)
    decreases |points| - from
  {
    var starts, runs := StartsFrom(points, key, from), RunsFrom(points, key, from);
    if runs != [] { RunsAreMaximal(points, key, from, 0); } else { NoRunsNoStarts(points, key, from); }
    if Share(points, key, from, i) {
      var k :| 0 <= k < |runs| && starts[k] < i < starts[k] + |runs[k]|;
      RunsAreMaximal(points, key, from, k);
    }
    if Joined(points, key, i) {
      JoinedIsShared(points, key, from, i);
    }
  }

  lemma {:induction false} JoinedIsShared(points: seq<Point>, key: string, from: nat, i: int)
    requires from < i && !Joined(points, key, from) && Joined(points, key, i)
    ensures Share(points, key, from, i)
    decreases |points| - from
  {
    var starts, runs := StartsFrom(points, key, from), RunsFrom(points, key, from);
    if !Usable(points[from], key) {
      JoinedIsShared(points, key, from + 1, i);
    } else {
      var end := EndOfRun(points, key, from);
      RunIsUsable(points, key, from);
      RunsAreMaximal(points, key, from, 0);
      if i < end {
        assert starts[0] < i < starts[0] + |runs[0]|;
      } else {
        JoinedIsShared(points, key, end, i);
        var later, tails := StartsFrom(points, key, end), RunsFrom(points, key, end);
        var k :| 0 <= k < |tails| && later[k] < i < later[k] + |tails[k]|;
        assert starts[k + 1] == later[k] && runs[k + 1] == tails[k];
      }
    }
  }

  /**
   Two neighbouring observations share a segment if and only if both are usable and each of the eight properties of
   their cohorts is equal in both, or absent in one and null in the other.
   */
  lemma NeighboursShareIffJoined(points: seq<Point>, key: string, i: int)
    requires 0 < i < |points|
    ensures Share(points, key, 0, i) <==>
            && Usable(points[i - 1], key) && Usable(points[i], key)
            && SameLine(points[i - 1].cohort, points[i].cohort)
    ensures NothingAbsent(points[i - 1].cohort) && NothingAbsent(points[i].cohort) ==>
              (SameLine(points[i - 1].cohort, points[i].cohort) <==> points[i - 1].cohort == points[i].cohort)
  {
    ShareFrom(points, key, 0, i);
    SerializedAlike(points[i - 1].cohort, points[i].cohort);
  }

  // ---------------------------------------------------------------------------
  // The loop
  // ---------------------------------------------------------------------------

  /** Before observation `i`: `segment` is the run under way, and `segments` the runs before it. */
  ghost predicate Scanning(points: seq<Point>, key: string, i: nat, segment: seq<Sample>, segments: seq<seq<Sample>>)
  {
    && |segment| <= i <= |points| && AllUsable(points, key, i - |segment|, i)
    && segment == Samples(points, key, i - |segment|, i)
    && (i > 0 && segment == [] ==> !Usable(points[i - 1], key))
    && (forall k :: i - |segment| < k < i ==> Joined(points, key, k))
    && Segments(points, key) == segments + RunsFrom(points, key, i - |segment|)
  }

  function Flushed(segments: seq<seq<Sample>>, segment: seq<Sample>): seq<seq<Sample>>
  {
    if segment == [] then segments else segments + [segment]
  }

  lemma FlushKeepsScanning(points: seq<Point>, key: string, i: nat, segment: seq<Sample>, segments: seq<seq<Sample>>)
    requires Scanning(points, key, i, segment, segments) && !Joined(points, key, i)
    ensures Segments(points, key) == Flushed(segments, segment) + RunsFrom(points, key, i)
  {}

  lemma SamplesGrow(points: seq<Point>, key: string, i: nat, j: nat)
    requires AllUsable(points, key, i, j) && j < |points| && Usable(points[j], key)
    ensures AllUsable(points, key, i, j + 1)
    ensures Samples(points, key, i, j + 1) == Samples(points, key, i, j) + [SampleOf(points[j], key)]
  {}

  lemma ExtendKeepsScanning(points: seq<Point>, key: string, i: nat, segment: seq<Sample>, segments: seq<seq<Sample>>)
    requires Scanning(points, key, i, segment, segments) && i < |points| && Usable(points[i], key)
    requires segment == [] || Joined(points, key, i)
    ensures Scanning(points, key, i + 1, segment + [SampleOf(points[i], key)], segments)
  {
    SamplesGrow(points, key, i - |segment|, i);
    assert |segment + [SampleOf(points[i], key)]| == |segment| + 1;
  }

  lemma RestartKeepsScanning(points: seq<Point>, key: string, i: nat, segments: seq<seq<Sample>>)
    requires i < |points| && Segments(points, key) == segments + RunsFrom(points, key, i)
    ensures Scanning(points, key, i + 1, if Usable(points[i], key) then [SampleOf(points[i], key)] else [], segments)
  {
    if Usable(points[i], key) {
      SamplesGrow(points, key, i, i);
      assert Samples(points, key, i, i) == [] && [] + [SampleOf(points[i], key)] == [SampleOf(points[i], key)];
    } else {
      assert Samples(points, key, i + 1, i + 1) == [];
    }
  }

  lemma NothingScanned(points: seq<Point>, key: string)
    ensures Scanning(points, key, 0, [], [])
  {
    assert [] + RunsFrom(points, key, 0) == RunsFrom(points, key, 0);
  }

  lemma NoRunsAtEnd(points: seq<Point>, key: string)
    ensures RunsFrom(points, key, |points|) == []
  {}

  method Series(points: seq<Point>, key: string) returns (segments: seq<seq<Sample>>)
    ensures segments == Segments(points, key)
  {
    hide RunsFrom, EndOfRun;
    var cohort: Option<Cohort> := None;
    var segment: seq<Sample> := [];
    segments := [];
    NothingScanned(points, key);
    for i := 0 to |points|
      invariant cohort == if i == 0 then None else Some(Serialized(points[i - 1].cohort))
      invariant Scanning(points, key, i, segment, segments)
    {
      var next := Serialized(points[i].cohort);
      var usable := key in points[i].metrics && points[i].time.Some?;
      if cohort != Some(next) || !usable {
        FlushKeepsScanning(points, key, i, segment, segments);
        if segment != [] { segments := segments + [segment]; }
        segment := [];
        RestartKeepsScanning(points, key, i, segments);
      } else {
        ExtendKeepsScanning(points, key, i, segment, segments);
      }
      cohort := Some(next);
      if usable {
        segment := segment + [Sample(points[i].time.value, points[i].metrics[key], points[i])];
      }
    }
    FlushKeepsScanning(points, key, |points|, segment, segments);
    NoRunsAtEnd(points, key);
    if segment != [] { segments := segments + [segment]; }
  }

  // A run that is not continued at `j` ends there.
  lemma RunEnds(points: seq<Point>, key: string, i: nat, j: nat)
    requires i < j && AllUsable(points, key, i, j) && !Joined(points, key, j)
    requires forall k :: i < k < j ==> Joined(points, key, k)
    ensures RunsFrom(points, key, i) == [Samples(points, key, i, j)] + RunsFrom(points, key, j)
  {}
}
