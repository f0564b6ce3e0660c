/**
 The chart kept with an answer: the segments of the cohort that the latest
 observation with a named unit belongs to.
 */
module ConversationViews {
  import opened Wrappers
  import opened HistorySeries

  const MONEY_METRICS := ["invoice_hold_value", "net_billed_sales"]

  datatype Message = NoMessage | NoRetainedValues | UnitNotConfirmed

  datatype ChartState = ChartState(segments: seq<seq<Sample>>, unit: Option<Field>, emptyMessage: Message)

  function UnitOf(metric: string, c: Cohort): Field
  {
    if metric in MONEY_METRICS then c.currency else c.uom
  }

  /** White space and line terminators as string trimming removes them. */
  predicate IsSpace(c: char)
  {
    var n := c as int;
    || 9 <= n <= 13 || n in [0x20, 0xA0, 0x1680, 0x202F, 0x205F, 0x3000, 0xFEFF]
    || 0x2000 <= n <= 0x200A || 0x2028 <= n <= 0x2029
  }

  /** ECMAScript's white space and line terminators, one by one. */
  const SPACES: seq<int> := [
    0x9, 0xA, 0xB, 0xC, 0xD, 0x20, 0xA0, 0x1680, 0x2000, 0x2001, 0x2002, 0x2003, 0x2004, 0x2005, 0x2006, 0x2007,
    0x2008, 0x2009, 0x200A, 0x2028, 0x2029, 0x202F, 0x205F, 0x3000, 0xFEFF]

  lemma SpaceIsListed(c: char)
    ensures IsSpace(c) <==> c as int in SPACES
  {}

  /** A text with its leading spaces removed. */
  function TrimStart(s: string): string
  {
    if s != "" && IsSpace(s[0]) then TrimStart(s[1..]) else s
  }

  /** A name is a text of which trimming leaves something. */
  lemma {:induction false} NamedIffNotBlank(s: string)
    ensures Named(Text(s)) <==> TrimStart(s) != ""
    decreases |s|
  {
    if s != "" && IsSpace(s[0]) {
      NamedIffNotBlank(s[1..]);
      if Named(Text(s[1..])) {
        var i :| 0 <= i < |s[1..]| && !IsSpace(s[1..][i]);
        assert s[i + 1] == s[1..][i];
      }
      if i :| 0 <= i < |s| && !IsSpace(s[i]) { assert s[1..][i - 1] == s[i]; }
    }
  }

  predicate Named(f: Field)
  {
    f.Text? && exists i :: 0 <= i < |f.text| && !IsSpace(f.text[i])
  }

  predicate NamesUnit(p: Point, metric: string)
  {
    Usable(p, metric) && Named(UnitOf(metric, p.cohort))
  }

  /** The position of the last usable observation that names its unit. */
  function LatestOf(points: seq<Point>, metric: string): (at: Option<nat>)
    ensures at.Some? ==> at.value < |points| && NamesUnit(points[at.value], metric)
    ensures at.Some? ==> forall k :: at.value < k < |points| ==> !NamesUnit(points[k], metric)
    ensures at.None? ==> forall k :: 0 <= k < |points| ==> !NamesUnit(points[k], metric)
  {
    if points == [] then None
    else if NamesUnit(points[|points| - 1], metric) then Some(|points| - 1)
    else LatestOf(points[..|points| - 1], metric)
  }

  /** Segments whose first observation carries the cohort, each property strictly equal. */
  function OfCohort(segments: seq<seq<Sample>>, c: Cohort): seq<seq<Sample>>
  {
    if segments == [] then []
    else
      var own := if segments[0] != [] && segments[0][0].point.cohort == c then [segments[0]] else [];
      own + OfCohort(segments[1..], c)
  }

  function RetainedChartState(points: seq<Point>, metric: string): ChartState
  {
    var latest := LatestOf(points, metric);
    if latest.None? then
      ChartState([], None, if UsableFrom(points, metric, 0) == [] then NoRetainedValues else UnitNotConfirmed)
    else
      var c := points[latest.value].cohort;
      ChartState(OfCohort(Segments(points, metric), c), Some(UnitOf(metric, c)), NoMessage)
  }

  /** Position `i` holds the last usable observation whose `unit` property is a text that is not blank. */
  ghost predicate LastNaming(points: seq<Point>, metric: string, unit: Cohort -> Field, i: int)
  {
    && 0 <= i < |points| && Usable(points[i], metric) && Named(unit(points[i].cohort))
    && forall k :: i < k < |points| ==> !Usable(points[k], metric) || !Named(unit(points[k].cohort))
  }

  /**
   The chart's unit is the currency of a money metric and the unit of measure of any other, as the last usable
   observation with that property names it; without one there is no unit and no line.
   */
  lemma ChartUnit(points: seq<Point>, metric: string)
    ensures var unit := if metric == "invoice_hold_value" || metric == "net_billed_sales"
                        then (c: Cohort) => c.currency else (c: Cohort) => c.uom;
            var chart := RetainedChartState(points, metric);
            && (forall i :: LastNaming(points, metric, unit, i) ==> chart.unit == Some(unit(points[i].cohort)))
            && (chart.unit.None? ==> chart.segments == [])
            && (chart.unit.Some? <==> exists i :: LastNaming(points, metric, unit, i))
  {
    var unit := if metric == "invoice_hold_value" || metric == "net_billed_sales"
                then (c: Cohort) => c.currency else (c: Cohort) => c.uom;
    assert forall c :: unit(c) == UnitOf(metric, c);
    var latest := LatestOf(points, metric);
    if latest.Some? { assert LastNaming(points, metric, unit, latest.value); }
    forall i | LastNaming(points, metric, unit, i) ensures latest == Some(i) {
      assert NamesUnit(points[i], metric);
    }
  }

  lemma {:induction false} OfCohortMembers(segments: seq<seq<Sample>>, c: Cohort, s: seq<Sample>)
    ensures s in OfCohort(segments, c) <==> s in segments && s != [] && s[0].point.cohort == c
  {
    if segments != [] {
      OfCohortMembers(segments[1..], c, s);
      assert segments == [segments[0]] + segments[1..];
    }
  }

  /** Selecting segments keeps their order. */
  ghost predicate SubSequence(a: seq<seq<Sample>>, b: seq<seq<Sample>>)
  {
    a == [] || (b != [] && ((a[0] == b[0] && SubSequence(a[1..], b[1..])) || SubSequence(a, b[1..])))
  }

  lemma {:induction false} OfCohortInOrder(segments: seq<seq<Sample>>, c: Cohort)
    ensures SubSequence(OfCohort(segments, c), segments)
  {
    if segments != [] {
      OfCohortInOrder(segments[1..], c);
      var rest := OfCohort(segments[1..], c);
      if segments[0] != [] && segments[0][0].point.cohort == c {
        assert OfCohort(segments, c) == [segments[0]] + rest && ([segments[0]] + rest)[1..] == rest;
      } else {
        assert OfCohort(segments, c) == rest;
      }
    }
  }

  /** A stretch of the points is charted. */
  ghost predicate Charted(points: seq<Point>, metric: string, segment: seq<Sample>)
  {
    exists start :: MaximalRun(points, metric, segment, start)
  }

  lemma SegmentIsRun(points: seq<Point>, metric: string, k: nat)
    requires k < |Segments(points, metric)|
    ensures |StartsFrom(points, metric, 0)| == |Segments(points, metric)|
    ensures MaximalRun(points, metric, Segments(points, metric)[k], StartsFrom(points, metric, 0)[k])
  {
    RunsAreMaximal(points, metric, 0, k);
  }

  lemma {:induction false} AlikeAlongRun(points: seq<Point>, metric: string, segment: seq<Sample>, start: nat, j: nat)
    requires MaximalRun(points, metric, segment, start) && j < |segment|
    ensures segment[j].point == points[start + j]
    ensures Serialized(points[start + j].cohort) == Serialized(points[start].cohort)
  {
    if j > 0 {
      AlikeAlongRun(points, metric, segment, start, j - 1);
      assert Joined(points, metric, start + j);
    }
  }

  /**
   The chart selects whole segments in order, so it never joins observations that were not adjacent; all it shows
   serialises like the latest observation that names its unit.
   */
  lemma ChartNeverBridges(points: seq<Point>, metric: string)
    ensures var chart := RetainedChartState(points, metric);
            && SubSequence(chart.segments, Segments(points, metric))
            && forall s :: s in chart.segments ==> s in Segments(points, metric) && Charted(points, metric, s)
  {
    var chart, all := RetainedChartState(points, metric), Segments(points, metric);
    if chart.unit.Some? {
      var c := points[LatestOf(points, metric).value].cohort;
      OfCohortInOrder(all, c);
      forall s | s in chart.segments ensures s in all && Charted(points, metric, s) {
        OfCohortMembers(all, c, s);
        var k :| 0 <= k < |all| && all[k] == s;
        SegmentIsRun(points, metric, k);
      }
    }
  }

  lemma ChartShowsOneCohort(points: seq<Point>, metric: string, segment: seq<Sample>, j: nat)
    requires segment in RetainedChartState(points, metric).segments && j < |segment|
    ensures var latest := LatestOf(points, metric);
            latest.Some? && SameLine(segment[j].point.cohort, points[latest.value].cohort)
  {
    var all, c := Segments(points, metric), points[LatestOf(points, metric).value].cohort;
    OfCohortMembers(all, c, segment);
    var k :| 0 <= k < |all| && all[k] == segment;
    SegmentIsRun(points, metric, k);
    var start := StartsFrom(points, metric, 0)[k];
    AlikeAlongRun(points, metric, segment, start, j);
    AlikeAlongRun(points, metric, segment, start, 0);
    SerializedAlike(segment[j].point.cohort, c);
  }

  /** The segment that the usable observation at `i` lies in. */
  lemma {:induction false} LiesInRun(points: seq<Point>, metric: string, from: nat, i: nat) returns (k: nat)
    requires from <= i < |points| && Usable(points[i], metric) && !Joined(points, metric, from)
    ensures k < |RunsFrom(points, metric, from)| == |StartsFrom(points, metric, from)|
    ensures var start, run := StartsFrom(points, metric, from)[k], RunsFrom(points, metric, from)[k];
            start <= i < start + |run| && MaximalRun(points, metric, run, start)
    decreases |points| - from
  {
    if !Usable(points[from], metric) {
      k := LiesInRun(points, metric, from + 1, i);
    } else {
      var end := EndOfRun(points, metric, from);
      RunIsUsable(points, metric, from);
      RunsAreMaximal(points, metric, from, 0);
      if i < end {
        k := 0;
      } else {
        var m := LiesInRun(points, metric, end, i);
        k := m + 1;
        assert StartsFrom(points, metric, from)[k] == StartsFrom(points, metric, end)[m];
        assert RunsFrom(points, metric, from)[k] == RunsFrom(points, metric, end)[m];
      }
    }
  }

  /** The first observation of the run that `i` lies in. */
  function RunStart(points: seq<Point>, metric: string, i: nat): (start: nat)
    requires i < |points|
    ensures start <= i && !Joined(points, metric, start) && forall k :: start < k <= i ==> Joined(points, metric, k)
  {
    if Joined(points, metric, i) then RunStart(points, metric, i - 1) else i
  }

  /** A charted segment holds the observation at `i`. */
  ghost predicate Shows(points: seq<Point>, metric: string, i: nat)
  {
    exists s, start: nat ::
      && MaximalRun(points, metric, s, start) && start <= i < start + |s|
      && s in RetainedChartState(points, metric).segments
  }

  lemma RunStartIsUnique(points: seq<Point>, metric: string, segment: seq<Sample>, start: nat, i: nat)
    requires MaximalRun(points, metric, segment, start) && start <= i < start + |segment| <= |points|
    ensures RunStart(points, metric, i) == start && segment[0].point == points[start]
  {}

  /**
   The latest observation that names its unit is on the chart exactly when the first observation of its segment has
   the same cohort with absent and null properties told apart, although the segments do not tell them apart.
   */
  lemma LatestIsShownIffStrictlyAlike(points: seq<Point>, metric: string)
    requires LatestOf(points, metric).Some?
    ensures var i := LatestOf(points, metric).value;
            Shows(points, metric, i) <==> points[RunStart(points, metric, i)].cohort == points[i].cohort
  {
    var i := LatestOf(points, metric).value;
    var c, all := points[i].cohort, Segments(points, metric);
    if Shows(points, metric, i) {
      var s, start: nat :|
        && MaximalRun(points, metric, s, start) && start <= i < start + |s|
        && s in RetainedChartState(points, metric).segments;
      RunStartIsUnique(points, metric, s, start, i);
      OfCohortMembers(all, c, s);
    }
    if points[RunStart(points, metric, i)].cohort == c {
      var k := LiesInRun(points, metric, 0, i);
      var s, start := all[k], StartsFrom(points, metric, 0)[k];
      RunStartIsUnique(points, metric, s, start, i);
      OfCohortMembers(all, c, s);
    }
  }

  /** When no observation leaves a cohort property out, the latest one is always shown. */
  lemma ExplicitCohortsShowLatest(points: seq<Point>, metric: string)
    requires forall p :: p in points ==> NothingAbsent(p.cohort)
    requires LatestOf(points, metric).Some?
    ensures Shows(points, metric, LatestOf(points, metric).value)
  {
    var i := LatestOf(points, metric).value;
    var k := LiesInRun(points, metric, 0, i);
    var run, start := Segments(points, metric)[k], StartsFrom(points, metric, 0)[k];
    RunStartIsUnique(points, metric, run, start, i);
    AlikeAlongRun(points, metric, run, start, i - start);
    SerializedAlike(points[start].cohort, points[i].cohort);
    LatestIsShownIffStrictlyAlike(points, metric);
  }

  /** Then everything shown has exactly the cohort of the latest observation. */
  lemma ExplicitCohortsShowOneCohort(points: seq<Point>, metric: string, segment: seq<Sample>, j: nat)
    requires forall p :: p in points ==> NothingAbsent(p.cohort)
    requires segment in RetainedChartState(points, metric).segments && j < |segment|
    ensures LatestOf(points, metric).Some?
    ensures segment[j].point.cohort == points[LatestOf(points, metric).value].cohort
  {
    ChartShowsOneCohort(points, metric, segment, j);
    ChartedPoint(points, metric, segment, j);
  }

  lemma ChartedPoint(points: seq<Point>, metric: string, segment: seq<Sample>, j: nat)
    requires segment in RetainedChartState(points, metric).segments && j < |segment|
    ensures segment[j].point in points
  {
    ChartNeverBridges(points, metric);
    var start :| MaximalRun(points, metric, segment, start);
    AlikeAlongRun(points, metric, segment, start, j);
  }

  function AbsentThenNull(c: Cohort, metric: string, value: real): seq<Point>
  {
    [Point(c.(itemCode := Undefined), Some(0), map[metric := value]), Point(c, Some(1), map[metric := value])]
  }

  /** Two readings of one series, the first without the property that the second has as null: nothing is shown. */
  lemma AbsentThenNullShowsNothing(c: Cohort, metric: string, value: real)
    requires c.itemCode == Null && Named(UnitOf(metric, c))
    ensures var points := AbsentThenNull(c, metric, value);
            && LatestOf(points, metric) == Some(1) && Joined(points, metric, 1)
            && RetainedChartState(points, metric).segments == []
  {
    var points := AbsentThenNull(c, metric, value);
    var chart := RetainedChartState(points, metric).segments;
    assert LatestOf(points, metric) == Some(1);
    assert !Joined(points, metric, 2) && Joined(points, metric, 1);
    assert AllUsable(points, metric, 0, 2);
    RunEnds(points, metric, 0, 2);
    assert Segments(points, metric) == [Samples(points, metric, 0, 2)];
    if chart != [] {
      OfCohortMembers(Segments(points, metric), c, chart[0]);
    }
  }

  lemma {:induction false} NothingUsable(points: seq<Point>, metric: string, i: nat)
    requires i <= |points|
    ensures UsableFrom(points, metric, i) == [] <==> forall k :: i <= k < |points| ==> !Usable(points[k], metric)
    decreases |points| - i
  {
    if i < |points| { NothingUsable(points, metric, i + 1); }
  }

  /** The message says why nothing is compared: no usable value, or none with a named unit. */
  lemma MessageSaysWhy(points: seq<Point>, metric: string)
    ensures var m := RetainedChartState(points, metric).emptyMessage;
            && (m.NoRetainedValues? <==> forall p :: p in points ==> !Usable(p, metric))
            && (m.NoMessage? <==> exists p :: p in points && NamesUnit(p, metric))
  {
    NothingUsable(points, metric, 0);
    var latest := LatestOf(points, metric);
    if latest.Some? { assert points[latest.value] in points; }
  }
}
