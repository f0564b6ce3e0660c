/**
 Barcode scanning as interleaved asynchronous segments: every `start` runs as a
 session that re-checks the capture's generation each time it resumes.
 */
module BarcodeCaptures {
  import opened Wrappers

  const BATCH_LIMIT := 50

  datatype Format = Ean13 | UpcA | Code128 | QrCode | OtherFormat(name: string)

  datatype Reading = Reading(format: Format, raw: string)

  /** Where a session is suspended; `rest` are the readings of its frame still to be looked at. */
  datatype Phase =
    | AwaitDecoder | AwaitStream | AwaitPlay | AwaitTimer | AwaitDetect
    | AwaitReport(rest: seq<Reading>)
    | Over

  /** The locals of one `start`, and every frame that it has sampled. */
  datatype Session = Session(
    generation: nat, file: bool, phase: Phase, seen: seq<string>, previous: seq<Reading>, frames: seq<seq<Reading>>)

  /** A begun `onCode` call: the session, the capture's generation at that moment, and the frame it read. */
  datatype Report = Report(session: nat, generation: nat, reading: Reading, frame: nat)

  /** A resource that was acquired: released, or still held. */
  datatype Handle = Released | Held

  /** `timer` is the session whose tick is scheduled. */
  datatype World = World(
    generation: nat, stream: Option<nat>, streams: seq<Handle>, url: Option<nat>, urls: seq<Handle>,
    timer: Option<nat>, sessions: seq<Session>, reports: seq<Report>)

  datatype Source = Camera | Video(acceptable: bool)

  datatype Picture = Ended | NotReady | Ready | Unreadable

  datatype Step =
    | Stop
    | Start(source: Source)
    | DecoderReady(session: nat, ok: bool)
    | StreamReady(session: nat, ok: bool)
    | Playing(session: nat, ok: bool, picture: Picture)
    | TimerFires(session: nat, picture: Picture)
    | Detected(session: nat, codes: Option<seq<Reading>>)
    | Reported(session: nat, ok: bool)

  predicate Supported(r: Reading) { !r.format.OtherFormat? }

  function Readable(codes: seq<Reading>): (r: seq<Reading>)
    ensures forall x :: x in r <==> x in codes && Supported(x)
  {
    if codes == [] then []
    else
      assert codes == [codes[0]] + codes[1..];
      (if Supported(codes[0]) then [codes[0]] else []) + Readable(codes[1..])
  }

  function Release(handles: seq<Handle>, held: Option<nat>): seq<Handle>
  {
    if held.Some? && held.value < |handles| then handles[held.value := Released] else handles
  }

  /** `stop`: a new generation, with the timer cleared and everything that was held released. */
  function Stopped(w: World): World
  {
    w.(generation := w.generation + 1, streams := Release(w.streams, w.stream), stream := None,
       urls := Release(w.urls, w.url), url := None, timer := None)
  }

  function At(w: World, i: nat, phase: Phase): World
    requires i < |w.sessions|
  {
    w.(sessions := w.sessions[i := w.sessions[i].(phase := phase)])
  }

  /** The next tick of the session is scheduled. */
  function Scheduled(w: World, i: nat): World
    requires i < |w.sessions|
  {
    At(w, i, AwaitTimer).(timer := Some(i))
  }

  predicate Current(w: World, i: nat)
    requires i < |w.sessions|
  {
    w.sessions[i].generation == w.generation
  }

  /** An error stops the capture. */
  function Failed(w: World, i: nat): World
    requires i < |w.sessions|
  {
    Stopped(At(w, i, Over))
  }

  function WithSession(w: World, file: bool): World
  {
    w.(sessions := w.sessions + [Session(w.generation, file, AwaitDecoder, [], [], [])])
  }

  function Started(w: World, source: Source): World
  {
    var s := Stopped(w);
    var next := WithSession(s, source.Video?);
    if source.Video? && !source.acceptable then Failed(next, |w.sessions|) else next
  }

  function AfterDecoder(w: World, i: nat): World
    requires i < |w.sessions|
  {
    if w.sessions[i].file then At(w.(url := Some(|w.urls|), urls := w.urls + [Held]), i, AwaitPlay)
    else At(w, i, AwaitStream)
  }

  function AfterStream(w: World, i: nat): World
    requires i < |w.sessions|
  {
    At(w.(stream := Some(|w.streams|), streams := w.streams + [Held]), i, AwaitPlay)
  }

  /** The start of a tick by a current session. */
  function Ticked(w: World, i: nat, picture: Picture): World
    requires i < |w.sessions|
  {
    match picture
    case Ended => Failed(w, i)
    case Unreadable => Failed(w, i)
    case NotReady => Scheduled(w, i)
    case Ready => At(w, i, AwaitDetect)
  }

  /** Supported, read in the frame before as well, and not reported yet. */
  predicate Fresh(s: Session, r: Reading)
  {
    Supported(r) && r in s.previous && r.raw !in s.seen
  }

  /**
   The next fresh reading is reported, and the session suspends; past the last one the frame becomes the previous
   one.
   */
  function Scanned(w: World, i: nat, rest: seq<Reading>): World
    requires i < |w.sessions| && w.sessions[i].frames != []
    decreases |rest|
  {
    var s := w.sessions[i];
    var n := |s.frames| - 1;
    if rest == [] then Scheduled(w.(sessions := w.sessions[i := s.(previous := Readable(s.frames[n]))]), i)
    else if !Fresh(s, rest[0]) then Scanned(w, i, rest[1..])
    else if |s.seen| >= BATCH_LIMIT then Failed(w, i)
    else
      w.(sessions := w.sessions[i := s.(seen := s.seen + [rest[0].raw], phase := AwaitReport(rest[1..]))],
         reports := w.reports + [Report(i, w.generation, rest[0], n)])
  }

  function AfterDetect(w: World, i: nat, codes: seq<Reading>): World
    requires i < |w.sessions|
  {
    Scanned(w.(sessions := w.sessions[i := w.sessions[i].(frames := w.sessions[i].frames + [codes])]), i, codes)
  }

  /** A scheduled tick runs. */
  function Expired(w: World, i: nat, picture: Picture): World
    requires i < |w.sessions|
  {
    if !Current(w, i) then At(w, i, Over) else Ticked(w, i, picture)
  }

  /** A session that is no longer current does nothing more, except that it stops a stream that arrives late. */
  function Next(w: World, s: Step): World
  {
    match s
    case Stop => Stopped(w)
    case Start(source) => Started(w, source)
    case DecoderReady(i, ok) =>
      if i >= |w.sessions| || w.sessions[i].phase != AwaitDecoder then w
      else if !Current(w, i) then At(w, i, Over)
      else if ok then AfterDecoder(w, i) else Failed(w, i)
    case StreamReady(i, ok) =>
      if i >= |w.sessions| || w.sessions[i].phase != AwaitStream then w
      else if !Current(w, i) then At(if ok then w.(streams := w.streams + [Released]) else w, i, Over)
      else if ok then AfterStream(w, i) else Failed(w, i)
    case Playing(i, ok, picture) =>
      if i >= |w.sessions| || w.sessions[i].phase != AwaitPlay then w
      else if !Current(w, i) then At(w, i, Over)
      else if ok then Ticked(w, i, picture) else Failed(w, i)
    case TimerFires(i, picture) =>
      if i >= |w.sessions| || w.sessions[i].phase != AwaitTimer || w.timer != Some(i) then w
      else Expired(w.(timer := None), i, picture)
    case Detected(i, codes) =>
      if i >= |w.sessions| || w.sessions[i].phase != AwaitDetect then w
      else if !Current(w, i) then At(w, i, Over)
      else if codes.Some? then AfterDetect(w, i, codes.value) else Failed(w, i)
    case Reported(i, ok) =>
      if i >= |w.sessions| || !w.sessions[i].phase.AwaitReport? || w.sessions[i].frames == [] then w
      else if !Current(w, i) then At(w, i, Over)
      else if ok then Scanned(w, i, w.sessions[i].phase.rest) else Failed(w, i)
  }

  function Run(w: World, steps: seq<Step>): World
    decreases |steps|
  {
    if steps == [] then w else Run(Next(w, steps[0]), steps[1..])
  }

  const IDLE := World(0, None, [], None, [], None, [], [])

  // ---------------------------------------------------------------------------
  // What holds in every run
  // ---------------------------------------------------------------------------

  /** Every handle is released, except the one that the field holds. */
  ghost predicate HeldOrReleased(handles: seq<Handle>, held: Option<nat>)
  {
    && (held.Some? ==> held.value < |handles|)
    && forall k :: 0 <= k < |handles| ==> handles[k] == Released || held == Some(k)
  }

  ghost predicate Distinct(seen: seq<string>)
  {
    forall j, k :: 0 <= j < k < |seen| ==> seen[j] != seen[k]
  }

  /** The reading is supported and stands in frame `n` and in the frame before it. */
  predicate ReadTwice(frames: seq<seq<Reading>>, r: Reading, n: nat)
  {
    0 < n < |frames| && !r.format.OtherFormat? && r in frames[n] && r in frames[n - 1]
  }

  predicate Early(p: Phase) { p.AwaitDecoder? || p.AwaitStream? || p.AwaitPlay? }

  /** The frame that a new reading must already have been read in. */
  function Before(frames: seq<seq<Reading>>, n: int): seq<Reading>
  {
    if 0 < n <= |frames| then Readable(frames[n - 1]) else []
  }

  /** Everything read twice among the first `n` frames has been reported. */
  ghost predicate Covered(s: Session, n: int)
  {
    forall m, r :: 0 <= m < n && ReadTwice(s.frames, r, m) ==> r.raw in s.seen
  }

  ghost predicate SessionSound(s: Session)
  {
    var n := |s.frames| - 1;
    && Distinct(s.seen) && |s.seen| <= BATCH_LIMIT
    && (Early(s.phase) ==> s.frames == [] && s.previous == [])
    && (s.phase.AwaitTimer? || s.phase.AwaitDetect? || Early(s.phase) ==>
          s.previous == Before(s.frames, n + 1) && Covered(s, n + 1))
    && (s.phase.AwaitReport? ==>
          && s.frames != [] && s.previous == Before(s.frames, n) && Covered(s, n)
          && (forall r :: r in s.frames[n] ==>
                r in s.phase.rest || !Supported(r) || r !in s.previous || r.raw in s.seen)
          && forall r :: r in s.phase.rest ==> r in s.frames[n])
  }

  /** The raw values that session `i` has reported, in order. */
  function RawsOf(reports: seq<Report>, i: nat): seq<string>
  {
    if reports == [] then []
    else
      var last := reports[|reports| - 1];
      RawsOf(reports[..|reports| - 1], i) + if last.session == i then [last.reading.raw] else []
  }

  predicate ReportSound(w: World, r: Report)
  {
    && r.session < |w.sessions| && r.generation == w.sessions[r.session].generation
    && ReadTwice(w.sessions[r.session].frames, r.reading, r.frame)
  }

  ghost predicate ReportsSound(w: World)
  {
    && (forall k :: 0 <= k < |w.reports| ==> ReportSound(w, w.reports[k]))
    && forall i :: 0 <= i < |w.sessions| ==> RawsOf(w.reports, i) == w.sessions[i].seen
  }

  ghost predicate SessionsSound(w: World)
  {
    && (forall i :: 0 <= i < |w.sessions| ==> SessionSound(w.sessions[i]) && w.sessions[i].generation <= w.generation)
    && forall i, j :: 0 <= i < j < |w.sessions| ==> w.sessions[i].generation < w.sessions[j].generation
  }

  /** A current session that has not acquired anything yet finds the fields empty. */
  ghost predicate HandlesSound(w: World)
  {
    && HeldOrReleased(w.streams, w.stream) && HeldOrReleased(w.urls, w.url)
    && forall i ::
         && 0 <= i < |w.sessions| && Current(w, i)
         && (w.sessions[i].phase.AwaitDecoder? || w.sessions[i].phase.AwaitStream?) ==>
         w.stream.None? && w.url.None?
  }

  ghost predicate Sound(w: World)
  {
    SessionsSound(w) && ReportsSound(w) && HandlesSound(w)
  }

  lemma RawsAppend(reports: seq<Report>, r: Report, i: nat)
    ensures RawsOf(reports + [r], i) ==
            if r.session == i then RawsOf(reports, i) + [r.reading.raw] else RawsOf(reports, i)
  {}

  lemma StopKeepsSound(w: World)
    requires Sound(w)
    ensures Sound(Stopped(w)) && forall i :: 0 <= i < |w.sessions| ==> !Current(Stopped(w), i)
  {}

  // Replacing a session by one with the same reports and at least the same frames.
  lemma ReplaceKeepsSound(w: World, i: nat, s: Session)
    requires Sound(w) && i < |w.sessions| && SessionSound(s)
    requires s.generation == w.sessions[i].generation && s.seen == w.sessions[i].seen
    requires w.sessions[i].frames <= s.frames
    requires Current(w, i) && (s.phase.AwaitDecoder? || s.phase.AwaitStream?) ==> w.stream.None? && w.url.None?
    ensures Sound(w.(sessions := w.sessions[i := s]))
  {}

  lemma FailKeepsSound(w: World, i: nat)
    requires Sound(w) && i < |w.sessions|
    ensures Sound(At(w, i, Over)) && Sound(Failed(w, i))
  {
    ReplaceKeepsSound(w, i, w.sessions[i].(phase := Over));
    StopKeepsSound(At(w, i, Over));
  }

  lemma NewSessionKeepsReports(w: World, file: bool)
    requires ReportsSound(w)
    ensures ReportsSound(WithSession(w, file))
  {
    var v, n := WithSession(w, file), |w.sessions|;
    assert forall i :: 0 <= i < n ==> v.sessions[i] == w.sessions[i];
    forall k | 0 <= k < |v.reports| ensures ReportSound(v, v.reports[k]) && v.reports[k].session < n {
      assert ReportSound(w, v.reports[k]);
    }
    NoReportsYet(w.reports, n);
  }

  lemma NewSessionKeepsSound(w: World, file: bool)
    requires Sound(w) && w.stream.None? && w.url.None?
    requires forall i :: 0 <= i < |w.sessions| ==> !Current(w, i)
    ensures Sound(WithSession(w, file))
  {
    NewSessionKeepsReports(w, file);
    NewestGeneration(w);
    var v, n := WithSession(w, file), |w.sessions|;
    assert SessionSound(v.sessions[n]);
    assert forall i :: 0 <= i < n ==> v.sessions[i] == w.sessions[i];
  }

  lemma NewestGeneration(w: World)
    requires SessionsSound(w) && forall i :: 0 <= i < |w.sessions| ==> !Current(w, i)
    ensures forall i :: 0 <= i < |w.sessions| ==> w.sessions[i].generation < w.generation
  {
    forall i | 0 <= i < |w.sessions| ensures w.sessions[i].generation < w.generation {
      assert !Current(w, i) && SessionSound(w.sessions[i]);
    }
  }

  lemma StartKeepsSound(w: World, source: Source)
    requires Sound(w)
    ensures Sound(Started(w, source))
  {
    StopKeepsSound(w);
    var s := Stopped(w);
    NewSessionKeepsSound(s, source.Video?);
    FailKeepsSound(WithSession(s, source.Video?), |w.sessions|);
  }

  lemma {:induction false} NoReportsYet(reports: seq<Report>, n: nat)
    requires forall k :: 0 <= k < |reports| ==> reports[k].session < n
    ensures RawsOf(reports, n) == []
  {
    if reports != [] { NoReportsYet(reports[..|reports| - 1], n); }
  }

  lemma OnlyOneCurrent(w: World, i: nat, j: nat)
    requires SessionsSound(w) && i < |w.sessions| && j < |w.sessions| && Current(w, i) && Current(w, j)
    ensures i == j
  {}

  lemma AcquireKeepsSound(w: World, i: nat)
    requires Sound(w) && i < |w.sessions| && Current(w, i)
    requires w.sessions[i].phase.AwaitDecoder? || w.sessions[i].phase.AwaitStream?
    ensures Sound(AfterDecoder(w, i)) && Sound(AfterStream(w, i))
  {
    var play, wait := At(w, i, AwaitPlay), At(w, i, AwaitStream);
    ReplaceKeepsSound(w, i, w.sessions[i].(phase := AwaitPlay));
    ReplaceKeepsSound(w, i, w.sessions[i].(phase := AwaitStream));
    forall j | 0 <= j < |w.sessions| && j != i ensures !Current(play, j) {
      if Current(w, j) { OnlyOneCurrent(w, i, j); }
    }
    HandlesOnly(play, AfterStream(w, i));
    if w.sessions[i].file { HandlesOnly(play, AfterDecoder(w, i)); }
  }

  lemma HandlesOnly(w: World, v: World)
    requires Sound(w)
    requires v == w.(stream := v.stream, streams := v.streams, url := v.url, urls := v.urls, timer := v.timer)
    requires HandlesSound(v)
    ensures Sound(v)
  {}

  lemma LateStreamKeepsSound(w: World, i: nat)
    requires Sound(w) && i < |w.sessions|
    ensures Sound(At(w.(streams := w.streams + [Released]), i, Over))
  {
    FailKeepsSound(w, i);
    HandlesOnly(At(w, i, Over), At(w.(streams := w.streams + [Released]), i, Over));
  }

  /** A fresh reading was read in this frame and in the frame before it. */
  lemma FreshIsReadTwice(s: Session, rest: seq<Reading>)
    requires SessionSound(s.(phase := AwaitReport(rest))) && rest != [] && Fresh(s, rest[0])
    ensures ReadTwice(s.frames, rest[0], |s.frames| - 1)
  {}

  lemma ReportKeepsSession(s: Session, rest: seq<Reading>)
    requires SessionSound(s.(phase := AwaitReport(rest))) && rest != [] && Fresh(s, rest[0]) && |s.seen| < BATCH_LIMIT
    ensures SessionSound(s.(seen := s.seen + [rest[0].raw], phase := AwaitReport(rest[1..])))
  {}

  lemma SkipKeepsSession(s: Session, rest: seq<Reading>)
    requires SessionSound(s.(phase := AwaitReport(rest))) && rest != [] && !Fresh(s, rest[0])
    ensures SessionSound(s.(phase := AwaitReport(rest[1..])))
  {}

  lemma FrameEnds(s: Session)
    requires SessionSound(s.(phase := AwaitReport([])))
    ensures SessionSound(s.(previous := Readable(s.frames[|s.frames| - 1]), phase := AwaitTimer))
  {}

  lemma ReportKeepsReports(w: World, v: World, i: nat, r: Report)
    requires ReportsSound(w) && i < |w.sessions| && r.session == i && v.reports == w.reports + [r]
    requires |v.sessions| == |w.sessions|
    requires forall j :: 0 <= j < |w.sessions| && j != i ==> v.sessions[j] == w.sessions[j]
    requires v.sessions[i].generation == w.sessions[i].generation && v.sessions[i].frames == w.sessions[i].frames
    requires v.sessions[i].seen == w.sessions[i].seen + [r.reading.raw] && ReportSound(v, r)
    ensures ReportsSound(v)
  {
    forall k | 0 <= k < |v.reports| ensures ReportSound(v, v.reports[k]) {
      if k < |w.reports| { assert ReportSound(w, w.reports[k]); }
    }
    forall j | 0 <= j < |v.sessions| ensures RawsOf(v.reports, j) == v.sessions[j].seen {
      RawsAppend(w.reports, r, j);
      assert RawsOf(w.reports, j) == w.sessions[j].seen;
    }
  }

  lemma ReportKeepsSound(w: World, i: nat, rest: seq<Reading>)
    requires i < |w.sessions| && Current(w, i) && Sound(At(w, i, AwaitReport(rest))) && rest != []
    requires w.sessions[i].frames != [] && Fresh(w.sessions[i], rest[0]) && |w.sessions[i].seen| < BATCH_LIMIT
    ensures Sound(Scanned(w, i, rest))
  {
    var v, u, s := Scanned(w, i, rest), At(w, i, AwaitReport(rest)), w.sessions[i];
    assert SessionSound(u.sessions[i]);
    ReportKeepsSession(s, rest);
    FreshIsReadTwice(s, rest);
    assert forall j :: 0 <= j < |w.sessions| && j != i ==> v.sessions[j] == u.sessions[j];
    ReportKeepsReports(u, v, i, v.reports[|w.reports|]);
  }

  lemma FrameEndKeepsSound(w: World, i: nat)
    requires i < |w.sessions| && Sound(At(w, i, AwaitReport([]))) && w.sessions[i].frames != []
    ensures Sound(Scanned(w, i, []))
  {
    var u, v, s := At(w, i, AwaitReport([])), Scanned(w, i, []), w.sessions[i];
    assert SessionSound(u.sessions[i]);
    FrameEnds(s);
    var t := s.(previous := Readable(s.frames[|s.frames| - 1]), phase := AwaitTimer);
    ReplaceKeepsSound(u, i, t);
    assert u.sessions[i := t] == v.sessions;
    HandlesOnly(v.(timer := w.timer), v);
  }

  lemma ScanFailKeepsSound(w: World, i: nat, rest: seq<Reading>)
    requires i < |w.sessions| && Sound(At(w, i, AwaitReport(rest)))
    ensures Sound(Failed(w, i))
  {
    var u := At(w, i, AwaitReport(rest));
    FailKeepsSound(u, i);
    assert At(u, i, Over).sessions == At(w, i, Over).sessions;
  }

  lemma SkipKeepsSound(w: World, i: nat, rest: seq<Reading>)
    requires i < |w.sessions| && Sound(At(w, i, AwaitReport(rest))) && rest != [] && !Fresh(w.sessions[i], rest[0])
    ensures Sound(At(w, i, AwaitReport(rest[1..])))
  {
    var u, s := At(w, i, AwaitReport(rest)), w.sessions[i];
    assert SessionSound(u.sessions[i]);
    SkipKeepsSession(s, rest);
    ReplaceKeepsSound(u, i, s.(phase := AwaitReport(rest[1..])));
    assert u.sessions[i := s.(phase := AwaitReport(rest[1..]))] == At(w, i, AwaitReport(rest[1..])).sessions;
  }

  lemma {:induction false} ScanKeepsSound(w: World, i: nat, rest: seq<Reading>)
    requires i < |w.sessions| && Current(w, i) && Sound(At(w, i, AwaitReport(rest)))
    ensures w.sessions[i].frames != [] && Sound(Scanned(w, i, rest))
    decreases |rest|
  {
    var s := w.sessions[i];
    assert SessionSound(At(w, i, AwaitReport(rest)).sessions[i]);
    if rest == [] {
      FrameEndKeepsSound(w, i);
    } else if !Fresh(s, rest[0]) {
      SkipKeepsSound(w, i, rest);
      ScanKeepsSound(w, i, rest[1..]);
    } else if |s.seen| >= BATCH_LIMIT {
      ScanFailKeepsSound(w, i, rest);
    } else {
      ReportKeepsSound(w, i, rest);
    }
  }

  lemma DetectKeepsSound(w: World, i: nat, codes: seq<Reading>)
    requires Sound(w) && i < |w.sessions| && Current(w, i) && w.sessions[i].phase.AwaitDetect?
    ensures Sound(AfterDetect(w, i, codes))
  {
    var s := w.sessions[i];
    var t := s.(frames := s.frames + [codes]);
    var v := w.(sessions := w.sessions[i := t]);
    var scanning := t.(phase := AwaitReport(codes));
    assert SessionSound(s);
    NewFrame(s, codes);
    ReplaceKeepsSound(w, i, scanning);
    assert At(v, i, AwaitReport(codes)).sessions == w.sessions[i := scanning];
    ScanKeepsSound(v, i, codes);
  }

  lemma NewFrame(s: Session, codes: seq<Reading>)
    requires SessionSound(s) && s.phase.AwaitDetect?
    ensures SessionSound(s.(frames := s.frames + [codes], phase := AwaitReport(codes)))
  {
    var t := s.(frames := s.frames + [codes], phase := AwaitReport(codes));
    forall m, r | 0 <= m < |s.frames| && ReadTwice(t.frames, r, m) ensures r.raw in s.seen {
      assert ReadTwice(s.frames, r, m);
    }
  }

  lemma TickKeepsSound(w: World, i: nat, picture: Picture)
    requires Sound(w) && i < |w.sessions| && (w.sessions[i].phase.AwaitTimer? || w.sessions[i].phase.AwaitPlay?)
    ensures Sound(Ticked(w, i, picture))
  {
    FailKeepsSound(w, i);
    assert SessionSound(w.sessions[i]);
    if picture.NotReady? {
      ReplaceKeepsSound(w, i, w.sessions[i].(phase := AwaitTimer));
      HandlesOnly(At(w, i, AwaitTimer), Scheduled(w, i));
    } else if picture.Ready? {
      ReplaceKeepsSound(w, i, w.sessions[i].(phase := AwaitDetect));
    }
  }

  lemma OpeningKeepsSound(w: World, s: Step)
    requires Sound(w) && (s.DecoderReady? || s.StreamReady?)
    ensures Sound(Next(w, s))
  {
    var i := s.session;
    if i < |w.sessions| {
      FailKeepsSound(w, i);
      if Current(w, i) && (w.sessions[i].phase.AwaitDecoder? || w.sessions[i].phase.AwaitStream?) {
        AcquireKeepsSound(w, i);
      } else {
        LateStreamKeepsSound(w, i);
      }
    }
  }

  lemma ScanningKeepsSound(w: World, s: Step)
    requires Sound(w) && (s.Detected? || s.Reported?)
    ensures Sound(Next(w, s))
  {
    var i := s.session;
    if i < |w.sessions| {
      FailKeepsSound(w, i);
      if Current(w, i) && s.Detected? && s.codes.Some? && w.sessions[i].phase.AwaitDetect? {
        DetectKeepsSound(w, i, s.codes.value);
      } else if Current(w, i) && s.Reported? && s.ok && w.sessions[i].phase.AwaitReport? {
        assert At(w, i, w.sessions[i].phase).sessions == w.sessions;
        ScanKeepsSound(w, i, w.sessions[i].phase.rest);
      }
    }
  }

  lemma PlayingKeepsSound(w: World, s: Step)
    requires Sound(w) && s.Playing?
    ensures Sound(Next(w, s))
  {
    var i := s.session;
    if i < |w.sessions| {
      FailKeepsSound(w, i);
      if w.sessions[i].phase.AwaitPlay? { TickKeepsSound(w, i, s.picture); }
    }
  }

  lemma TimerKeepsSound(w: World, s: Step)
    requires Sound(w) && s.TimerFires?
    ensures Sound(Next(w, s))
  {
    var i, f := s.session, w.(timer := None);
    if i < |w.sessions| && w.sessions[i].phase.AwaitTimer? {
      HandlesOnly(w, f);
      FailKeepsSound(f, i);
      TickKeepsSound(f, i, s.picture);
    }
  }

  lemma StepKeepsSound(w: World, s: Step)
    requires Sound(w)
    ensures Sound(Next(w, s))
  {
    match s
    case Stop => StopKeepsSound(w);
    case Start(source) => StartKeepsSound(w, source);
    case Playing(_, _, _) => PlayingKeepsSound(w, s);
    case TimerFires(_, _) => TimerKeepsSound(w, s);
    case DecoderReady(_, _) => OpeningKeepsSound(w, s);
    case StreamReady(_, _) => OpeningKeepsSound(w, s);
    case Detected(_, _) => ScanningKeepsSound(w, s);
    case Reported(_, _) => ScanningKeepsSound(w, s);
  }

  lemma {:induction false} StepsKeepSound(w: World, steps: seq<Step>)
    requires Sound(w)
    ensures Sound(Run(w, steps))
    decreases |steps|
  {
    if steps != [] {
      StepKeepsSound(w, steps[0]);
      StepsKeepSound(Next(w, steps[0]), steps[1..]);
    }
  }

  // ---------------------------------------------------------------------------
  // The promises
  // ---------------------------------------------------------------------------

  lemma {:induction false} RawsCount(reports: seq<Report>, i: nat, j: nat, k: nat)
    requires j < k < |reports| && reports[j].session == i && reports[k].session == i && Distinct(RawsOf(reports, i))
    ensures reports[j].reading.raw != reports[k].reading.raw
  {
    var n := |reports| - 1;
    assert reports == reports[..n] + [reports[n]];
    RawsAppend(reports[..n], reports[n], i);
    var start := RawsOf(reports[..n], i);
    if k < n {
      assert forall m :: 0 <= m < |start| ==> RawsOf(reports, i)[m] == start[m];
      RawsCount(reports[..n], i, j, k);
    } else {
      RawIsListed(reports[..n], i, j);
      var m :| 0 <= m < |start| && start[m] == reports[j].reading.raw;
      assert RawsOf(reports, i)[m] == start[m] && RawsOf(reports, i)[|start|] == reports[k].reading.raw;
    }
  }

  lemma {:induction false} RawIsListed(reports: seq<Report>, i: nat, j: nat)
    requires j < |reports| && reports[j].session == i
    ensures reports[j].reading.raw in RawsOf(reports, i)
  {
    if j < |reports| - 1 { RawIsListed(reports[..|reports| - 1], i, j); }
  }

  /**
   In every interleaving: a code is reported only under the generation of its own start, only when it was read in
   two successive frames, at most once per start, and at most fifty times per start.
   */
  lemma ReportsAreCurrentConfirmedAndUnique(steps: seq<Step>)
    ensures var w := Run(IDLE, steps);
            && (forall k :: 0 <= k < |w.reports| ==> ReportSound(w, w.reports[k]))
            && (forall j, k :: 0 <= j < k < |w.reports| && w.reports[j].session == w.reports[k].session ==>
                  w.reports[j].reading.raw != w.reports[k].reading.raw)
            && forall i :: 0 <= i < |w.sessions| ==> |RawsOf(w.reports, i)| <= BATCH_LIMIT
  {
    StepsKeepSound(IDLE, steps);
    var w := Run(IDLE, steps);
    forall j, k | 0 <= j < k < |w.reports| && w.reports[j].session == w.reports[k].session
      ensures w.reports[j].reading.raw != w.reports[k].reading.raw
    {
      var i := w.reports[j].session;
      assert ReportSound(w, w.reports[j]) && SessionSound(w.sessions[i]);
      RawsCount(w.reports, i, j, k);
    }
    forall i | 0 <= i < |w.sessions| ensures |RawsOf(w.reports, i)| <= BATCH_LIMIT {
      assert SessionSound(w.sessions[i]);
    }
  }

  /**
   A session that waits for its next frame has reported every code that it read in two successive frames, and no
   other.
   */
  lemma WaitingSessionReportedAll(steps: seq<Step>, i: nat, raw: string)
    requires var w := Run(IDLE, steps); i < |w.sessions| && w.sessions[i].phase.AwaitTimer?
    ensures var w := Run(IDLE, steps);
            raw in RawsOf(w.reports, i) <==>
            exists r: Reading, n: nat :: r.raw == raw && ReadTwice(w.sessions[i].frames, r, n)
  {
    StepsKeepSound(IDLE, steps);
    var w := Run(IDLE, steps);
    var s := w.sessions[i];
    assert SessionSound(s);
    if raw in RawsOf(w.reports, i) {
      var k := ReportOf(w.reports, i, raw);
      assert ReportSound(w, w.reports[k]);
    }
    if r: Reading, n: nat :| r.raw == raw && ReadTwice(s.frames, r, n) {
      assert Covered(s, |s.frames|);
    }
  }

  function ReportOf(reports: seq<Report>, i: nat, raw: string): (k: nat)
    requires raw in RawsOf(reports, i)
    ensures k < |reports| && reports[k].session == i && reports[k].reading.raw == raw
  {
    var n := |reports| - 1;
    if reports[n].session == i && reports[n].reading.raw == raw then n else ReportOf(reports[..n], i, raw)
  }

  /** In every interleaving each stream and object URL that was acquired is the current one or has been released. */
  lemma NothingLeaks(steps: seq<Step>)
    ensures var w := Run(IDLE, steps); HeldOrReleased(w.streams, w.stream) && HeldOrReleased(w.urls, w.url)
  {
    StepsKeepSound(IDLE, steps);
  }

  /**
   The scheduled tick is that of the current session, and every session that waits for its tick and is current
   has it.
   */
  ghost predicate TimerSound(w: World)
  {
    && (w.timer.Some? ==>
          && w.timer.value < |w.sessions| && w.sessions[w.timer.value].phase.AwaitTimer?
          && Current(w, w.timer.value))
    && forall i :: 0 <= i < |w.sessions| && w.sessions[i].phase.AwaitTimer? && Current(w, i) ==> w.timer == Some(i)
  }

  lemma StopClearsTimer(w: World)
    requires SessionsSound(w)
    ensures TimerSound(Stopped(w))
  {
    forall i | 0 <= i < |w.sessions| ensures !Current(Stopped(w), i) { assert SessionSound(w.sessions[i]); }
  }

  lemma FailClearsTimer(w: World, i: nat)
    requires SessionsSound(w) && i < |w.sessions|
    ensures TimerSound(Failed(w, i))
  {
    forall j | 0 <= j < |w.sessions| ensures !Current(Failed(w, i), j) { assert SessionSound(w.sessions[j]); }
  }

  // The current session moves on to `phase`, and another waiting one cannot be current.
  lemma MoveKeepsTimer(w: World, i: nat, s: Session)
    requires SessionsSound(w) && TimerSound(w) && i < |w.sessions| && w.timer != Some(i)
    requires s.generation == w.sessions[i].generation
    ensures !s.phase.AwaitTimer? ==> TimerSound(w.(sessions := w.sessions[i := s]))
    ensures s.phase.AwaitTimer? && Current(w, i) ==> TimerSound(w.(sessions := w.sessions[i := s], timer := Some(i)))
  {
    if Current(w, i) {
      forall j | 0 <= j < |w.sessions| && Current(w, j) ensures j == i { OnlyOneCurrent(w, i, j); }
    }
  }

  lemma TickKeepsTimer(w: World, i: nat, picture: Picture)
    requires SessionsSound(w) && TimerSound(w) && i < |w.sessions| && w.timer != Some(i) && Current(w, i)
    ensures TimerSound(Ticked(w, i, picture))
  {
    FailClearsTimer(w, i);
    MoveKeepsTimer(w, i, w.sessions[i].(phase := AwaitTimer));
    MoveKeepsTimer(w, i, w.sessions[i].(phase := AwaitDetect));
  }

  lemma {:induction false} ScanKeepsTimer(w: World, i: nat, rest: seq<Reading>)
    requires SessionsSound(w) && TimerSound(w) && i < |w.sessions| && w.timer != Some(i) && Current(w, i)
    requires w.sessions[i].frames != []
    ensures TimerSound(Scanned(w, i, rest))
    decreases |rest|
  {
    var s := w.sessions[i];
    if rest == [] {
      var t := s.(previous := Readable(s.frames[|s.frames| - 1]), phase := AwaitTimer);
      MoveKeepsTimer(w, i, t);
      assert Scanned(w, i, rest).sessions == w.sessions[i := t];
    } else if !Fresh(s, rest[0]) {
      ScanKeepsTimer(w, i, rest[1..]);
    } else if |s.seen| >= BATCH_LIMIT {
      FailClearsTimer(w, i);
    } else {
      MoveKeepsTimer(w, i, s.(seen := s.seen + [rest[0].raw], phase := AwaitReport(rest[1..])));
    }
  }

  lemma StartKeepsTimer(w: World, source: Source)
    requires Sound(w)
    ensures TimerSound(Started(w, source))
  {
    var v := Stopped(w);
    StopKeepsSound(w);
    StopClearsTimer(w);
    NewSessionKeepsSound(v, source.Video?);
    var n := WithSession(v, source.Video?);
    assert forall i :: 0 <= i < |w.sessions| ==> n.sessions[i] == v.sessions[i];
    FailClearsTimer(n, |w.sessions|);
  }

  lemma OpeningKeepsTimer(w: World, s: Step)
    requires Sound(w) && TimerSound(w) && (s.DecoderReady? || s.StreamReady?)
    ensures TimerSound(Next(w, s))
  {
    hide ReportsSound, HandlesSound, SessionSound;
    var i := s.session;
    if i < |w.sessions| && Early(w.sessions[i].phase) {
      FailClearsTimer(w, i);
      MoveKeepsTimer(w, i, w.sessions[i].(phase := Over));
      MoveKeepsTimer(w, i, w.sessions[i].(phase := AwaitStream));
      MoveKeepsTimer(w, i, w.sessions[i].(phase := AwaitPlay));
    }
  }

  lemma PlayingKeepsTimer(w: World, s: Step)
    requires Sound(w) && TimerSound(w) && s.Playing?
    ensures TimerSound(Next(w, s))
  {
    var i := s.session;
    if i < |w.sessions| && w.sessions[i].phase.AwaitPlay? {
      FailClearsTimer(w, i);
      MoveKeepsTimer(w, i, w.sessions[i].(phase := Over));
      if Current(w, i) { TickKeepsTimer(w, i, s.picture); }
    }
  }

  lemma DetectKeepsTimer(w: World, i: nat, codes: seq<Reading>)
    requires Sound(w) && TimerSound(w) && i < |w.sessions| && w.sessions[i].phase.AwaitDetect? && Current(w, i)
    ensures TimerSound(AfterDetect(w, i, codes))
  {
    var s := w.sessions[i];
    assert SessionSound(s);
    NewFrame(s, codes);
    var framed := w.(sessions := w.sessions[i := s.(frames := s.frames + [codes], phase := AwaitReport(codes))]);
    ReplaceKeepsSound(w, i, framed.sessions[i]);
    MoveKeepsTimer(w, i, framed.sessions[i]);
    ScanKeepsTimer(framed, i, codes);
    ScanIgnoresPhase(w.(sessions := w.sessions[i := s.(frames := s.frames + [codes])]), i, codes, AwaitReport(codes));
    assert At(w.(sessions := w.sessions[i := s.(frames := s.frames + [codes])]), i, AwaitReport(codes)).sessions
        == framed.sessions;
  }

  lemma UpdateTwice(sessions: seq<Session>, i: nat, s: Session, t: Session)
    requires i < |sessions|
    ensures sessions[i := s][i := t] == sessions[i := t]
  {}

  lemma {:induction false} ScanIgnoresPhase(w: World, i: nat, rest: seq<Reading>, phase: Phase)
    requires i < |w.sessions| && w.sessions[i].frames != []
    ensures Scanned(At(w, i, phase), i, rest) == Scanned(w, i, rest)
    decreases |rest|
  {
    var s := w.sessions[i];
    var moved := s.(phase := phase);
    if rest == [] {
      UpdateTwice(w.sessions, i, moved, moved.(previous := Readable(s.frames[|s.frames| - 1])));
      var ready := moved.(previous := Readable(s.frames[|s.frames| - 1]));
      UpdateTwice(w.sessions, i, ready, Scanned(w, i, rest).sessions[i]);
      UpdateTwice(w.sessions, i, s.(previous := Readable(s.frames[|s.frames| - 1])), Scanned(w, i, rest).sessions[i]);
    } else if !Fresh(s, rest[0]) {
      ScanIgnoresPhase(w, i, rest[1..], phase);
    } else {
      UpdateTwice(w.sessions, i, moved, s.(phase := Over));
      UpdateTwice(w.sessions, i, moved, s.(seen := s.seen + [rest[0].raw], phase := AwaitReport(rest[1..])));
    }
  }

  lemma StepKeepsTimer(w: World, s: Step)
    requires Sound(w) && TimerSound(w)
    ensures TimerSound(Next(w, s))
  {
    match s
    case Stop => StopClearsTimer(w);
    case Start(source) => StartKeepsTimer(w, source);
    case TimerFires(i, picture) => TimerKeepsTimer(w, i, picture);
    case Detected(i, codes) =>
      if i < |w.sessions| && w.sessions[i].phase.AwaitDetect? {
        FailClearsTimer(w, i);
        MoveKeepsTimer(w, i, w.sessions[i].(phase := Over));
        if Current(w, i) && codes.Some? { DetectKeepsTimer(w, i, codes.value); }
      }
    case Reported(i, ok) =>
      if i < |w.sessions| && w.sessions[i].phase.AwaitReport? {
        FailClearsTimer(w, i);
        MoveKeepsTimer(w, i, w.sessions[i].(phase := Over));
        if Current(w, i) && ok && w.sessions[i].frames != [] { ScanKeepsTimer(w, i, w.sessions[i].phase.rest); }
      }
    case Playing(_, _, _) => PlayingKeepsTimer(w, s);
    case DecoderReady(_, _) => OpeningKeepsTimer(w, s);
    case StreamReady(_, _) => OpeningKeepsTimer(w, s);
  }

  lemma TimerKeepsTimer(w: World, i: nat, picture: Picture)
    requires Sound(w) && TimerSound(w)
    ensures TimerSound(Next(w, TimerFires(i, picture)))
  {
    if i < |w.sessions| && w.sessions[i].phase.AwaitTimer? && w.timer == Some(i) {
      forall j | 0 <= j < |w.sessions| && Current(w, j) ensures j == i { OnlyOneCurrent(w, i, j); }
      FailClearsTimer(w.(timer := None), i);
      assert TimerSound(Scheduled(w.(timer := None), i)) && TimerSound(At(w.(timer := None), i, AwaitDetect));
    }
  }

  lemma {:induction false} StepsKeepTimer(w: World, steps: seq<Step>)
    requires Sound(w) && TimerSound(w)
    ensures TimerSound(Run(w, steps))
    decreases |steps|
  {
    if steps != [] {
      StepKeepsSound(w, steps[0]);
      StepKeepsTimer(w, steps[0]);
      StepsKeepTimer(Next(w, steps[0]), steps[1..]);
    }
  }

  /** In every interleaving a scheduled tick belongs to the current start: a stopped one never ticks again. */
  lemma OnlyTheCurrentStartTicks(steps: seq<Step>)
    ensures TimerSound(Run(IDLE, steps))
  {
    StepsKeepTimer(IDLE, steps);
  }

  // ---------------------------------------------------------------------------
  // A capture goes on until something ends it
  // ---------------------------------------------------------------------------

  /** A fiftieth code has been reported, and the frame shows one more. */
  predicate Overflows(s: Session, rest: seq<Reading>)
  {
    |s.seen| >= 50 && exists k :: 0 <= k < |rest| && Fresh(s, rest[k])
  }

  predicate Resumes(w: World, i: nat, phase: Phase)
  {
    i < |w.sessions| && Current(w, i) && w.sessions[i].phase == phase
  }

  /** Step `s` ends the current session: an error, the end of the video, or one code too many. */
  predicate Breaks(w: World, s: Step)
  {
    match s
    case DecoderReady(i, ok) => Resumes(w, i, AwaitDecoder) && !ok
    case StreamReady(i, ok) => Resumes(w, i, AwaitStream) && !ok
    case Playing(i, ok, picture) => Resumes(w, i, AwaitPlay) && (!ok || picture in {Ended, Unreadable})
    case TimerFires(i, picture) =>
      Resumes(w, i, AwaitTimer) && w.timer == Some(i) && picture in {Ended, Unreadable}
    case Detected(i, codes) =>
      Resumes(w, i, AwaitDetect) && (codes.None? || Overflows(w.sessions[i], codes.value))
    case Reported(i, ok) =>
      i < |w.sessions| && w.sessions[i].phase.AwaitReport? && Resumes(w, i, w.sessions[i].phase)
      && w.sessions[i].frames != [] && (!ok || Overflows(w.sessions[i], w.sessions[i].phase.rest))
    case _ => false
  }

  lemma {:induction false} ScanEndsIffOverflow(w: World, i: nat, rest: seq<Reading>)
    requires i < |w.sessions| && w.sessions[i].frames != []
    ensures Scanned(w, i, rest).generation == w.generation + if Overflows(w.sessions[i], rest) then 1 else 0
    decreases |rest|
  {
    if rest != [] {
      ScanEndsIffOverflow(w, i, rest[1..]);
      assert rest == [rest[0]] + rest[1..];
      assert Overflows(w.sessions[i], rest) <==>
             (|w.sessions[i].seen| >= 50 && Fresh(w.sessions[i], rest[0])) || Overflows(w.sessions[i], rest[1..]);
    }
  }

  /** The generation moves with `stop`, with `start`, and with nothing else but what ends the current session. */
  lemma CaptureEndsOnlyFor(w: World, s: Step)
    ensures Next(w, s).generation == w.generation +
              match s
              case Stop => 1
              case Start(source) => if source == Video(false) then 2 else 1
              case _ => if Breaks(w, s) then 1 else 0
  {
    match s
    case Detected(i, codes) =>
      if Resumes(w, i, AwaitDetect) && codes.Some? {
        var t := w.sessions[i].(frames := w.sessions[i].frames + [codes.value]);
        ScanEndsIffOverflow(w.(sessions := w.sessions[i := t]), i, codes.value);
        assert forall r :: Fresh(t, r) <==> Fresh(w.sessions[i], r);
      }
    case Reported(i, ok) =>
      if i < |w.sessions| && w.sessions[i].phase.AwaitReport? && w.sessions[i].frames != [] {
        ScanEndsIffOverflow(w, i, w.sessions[i].phase.rest);
      }
    case _ =>
  }

  /** Past its opening a session plays from the file or from the camera. */
  predicate Playback(p: Phase)
  {
    p.AwaitPlay? || p.AwaitTimer? || p.AwaitDetect? || p.AwaitReport?
  }

  predicate Holding(handles: seq<Handle>, held: Option<nat>)
  {
    held.Some? && held.value < |handles| && handles[held.value] == Held
  }

  predicate HoldsSource(w: World, file: bool)
  {
    if file then Holding(w.urls, w.url) else Holding(w.streams, w.stream)
  }

  predicate Going(w: World, s: Session)
  {
    && s.phase != Over && (s.phase.AwaitStream? ==> !s.file)
    && (Playback(s.phase) ==> HoldsSource(w, s.file))
  }

  /** The current session is not over, and past its opening it holds the file or the camera that it was started for. */
  ghost predicate Alive(w: World)
  {
    forall i :: 0 <= i < |w.sessions| && Current(w, i) ==> Going(w, w.sessions[i])
  }

  lemma StoppedIsAlive(w: World)
    requires SessionsSound(w)
    ensures Alive(Stopped(w))
  {
    forall i | 0 <= i < |w.sessions| ensures !Current(Stopped(w), i) { assert SessionSound(w.sessions[i]); }
  }

  lemma FailedIsAlive(w: World, i: nat)
    requires SessionsSound(w) && i < |w.sessions|
    ensures Alive(Failed(w, i))
  {
    forall j | 0 <= j < |w.sessions| ensures !Current(Failed(w, i), j) { assert SessionSound(w.sessions[j]); }
  }

  lemma PastIsAlive(w: World, i: nat)
    requires Alive(w) && i < |w.sessions| && !Current(w, i)
    ensures Alive(At(w, i, Over))
  {}

  // The current session moves on, and no other one is current.
  lemma MoveKeepsAlive(w: World, v: World, i: nat, t: Session)
    requires SessionsSound(w) && Alive(w) && i < |w.sessions| && Current(w, i)
    requires v.generation == w.generation && v.sessions == w.sessions[i := t]
    requires t.generation == w.sessions[i].generation && Going(v, t)
    ensures Alive(v)
  {
    forall j | 0 <= j < |w.sessions| && Current(w, j) ensures j == i { OnlyOneCurrent(w, i, j); }
  }

  lemma {:induction false} ScanKeepsAlive(w: World, i: nat, rest: seq<Reading>)
    requires SessionsSound(w) && Alive(w) && i < |w.sessions| && Current(w, i) && w.sessions[i].frames != []
    requires HoldsSource(w, w.sessions[i].file)
    ensures Alive(Scanned(w, i, rest))
    decreases |rest|
  {
    var s := w.sessions[i];
    if rest == [] {
      var t := s.(previous := Readable(s.frames[|s.frames| - 1]), phase := AwaitTimer);
      MoveKeepsAlive(w, Scanned(w, i, rest), i, t);
    } else if !Fresh(s, rest[0]) {
      ScanKeepsAlive(w, i, rest[1..]);
    } else if |s.seen| >= BATCH_LIMIT {
      FailedIsAlive(w, i);
    } else {
      MoveKeepsAlive(w, Scanned(w, i, rest), i, s.(seen := s.seen + [rest[0].raw], phase := AwaitReport(rest[1..])));
    }
  }

  lemma TickKeepsAlive(w: World, i: nat, picture: Picture)
    requires SessionsSound(w) && Alive(w) && i < |w.sessions| && Current(w, i) && HoldsSource(w, w.sessions[i].file)
    ensures Alive(Ticked(w, i, picture))
  {
    FailedIsAlive(w, i);
    MoveKeepsAlive(w, Scheduled(w, i), i, w.sessions[i].(phase := AwaitTimer));
    MoveKeepsAlive(w, At(w, i, AwaitDetect), i, w.sessions[i].(phase := AwaitDetect));
  }

  lemma StartKeepsAlive(w: World, source: Source)
    requires Sound(w)
    ensures Alive(Started(w, source))
  {
    var v := Stopped(w);
    StopKeepsSound(w);
    NewSessionKeepsSound(v, source.Video?);
    var n := WithSession(v, source.Video?);
    FailedIsAlive(n, |w.sessions|);
    hide Sound, SessionsSound, Failed, Stopped;
    assert forall i :: 0 <= i < |w.sessions| ==> n.sessions[i] == v.sessions[i] && !Current(v, i);
  }

  lemma OpeningKeepsAlive(w: World, s: Step)
    requires Sound(w) && Alive(w) && (s.DecoderReady? || s.StreamReady?)
    ensures Alive(Next(w, s))
  {
    var i := s.session;
    if i < |w.sessions| {
      if !Current(w, i) {
        PastIsAlive(w, i);
      } else {
        FailedIsAlive(w, i);
        if s.DecoderReady? && w.sessions[i].phase.AwaitDecoder? {
          var phase := if w.sessions[i].file then AwaitPlay else AwaitStream;
          MoveKeepsAlive(w, AfterDecoder(w, i), i, w.sessions[i].(phase := phase));
        } else if s.StreamReady? && w.sessions[i].phase.AwaitStream? {
          MoveKeepsAlive(w, AfterStream(w, i), i, w.sessions[i].(phase := AwaitPlay));
        }
      }
    }
  }

  lemma PlaybackKeepsAlive(w: World, s: Step)
    requires Sound(w) && Alive(w) && (s.Playing? || s.TimerFires?)
    ensures Alive(Next(w, s))
  {
    var i, f := s.session, if s.TimerFires? then w.(timer := None) else w;
    if i < |w.sessions| {
      if !Current(w, i) {
        PastIsAlive(f, i);
      } else if Playback(w.sessions[i].phase) {
        FailedIsAlive(f, i);
        TickKeepsAlive(f, i, s.picture);
      }
    }
  }

  lemma DecodingKeepsAlive(w: World, s: Step)
    requires Sound(w) && Alive(w) && (s.Detected? || s.Reported?)
    ensures Alive(Next(w, s))
  {
    var i := s.session;
    if i < |w.sessions| {
      if !Current(w, i) {
        PastIsAlive(w, i);
      } else if Playback(w.sessions[i].phase) {
        FailedIsAlive(w, i);
        if s.Reported? && w.sessions[i].phase.AwaitReport? && w.sessions[i].frames != [] {
          ScanKeepsAlive(w, i, w.sessions[i].phase.rest);
        } else if s.Detected? && w.sessions[i].phase.AwaitDetect? && s.codes.Some? {
          DetectKeepsAlive(w, i, s.codes.value);
        }
      }
    }
  }

  lemma DetectKeepsAlive(w: World, i: nat, codes: seq<Reading>)
    requires Sound(w) && Alive(w) && i < |w.sessions| && Current(w, i) && w.sessions[i].phase.AwaitDetect?
    ensures Alive(AfterDetect(w, i, codes))
  {
    var t := w.sessions[i].(frames := w.sessions[i].frames + [codes]);
    var framed := w.(sessions := w.sessions[i := t]);
    var scanning := t.(phase := AwaitReport(codes));
    assert SessionSound(w.sessions[i]);
    NewFrame(w.sessions[i], codes);
    ReplaceKeepsSound(w, i, scanning);
    MoveKeepsAlive(w, w.(sessions := w.sessions[i := scanning]), i, scanning);
    ScanKeepsAlive(w.(sessions := w.sessions[i := scanning]), i, codes);
    ScanIgnoresPhase(framed, i, codes, AwaitReport(codes));
    assert At(framed, i, AwaitReport(codes)).sessions == w.sessions[i := scanning];
  }

  lemma StepKeepsAlive(w: World, s: Step)
    requires Sound(w) && Alive(w)
    ensures Alive(Next(w, s))
  {
    match s
    case Stop => StoppedIsAlive(w);
    case Start(source) => StartKeepsAlive(w, source);
    case DecoderReady(_, _) => OpeningKeepsAlive(w, s);
    case StreamReady(_, _) => OpeningKeepsAlive(w, s);
    case Playing(_, _, _) => PlaybackKeepsAlive(w, s);
    case TimerFires(_, _) => PlaybackKeepsAlive(w, s);
    case Detected(_, _) => DecodingKeepsAlive(w, s);
    case Reported(_, _) => DecodingKeepsAlive(w, s);
  }

  lemma {:induction false} StepsKeepAlive(w: World, steps: seq<Step>)
    requires Sound(w) && Alive(w)
    ensures Alive(Run(w, steps))
    decreases |steps|
  {
    if steps != [] {
      StepKeepsSound(w, steps[0]);
      StepKeepsAlive(w, steps[0]);
      StepsKeepAlive(Next(w, steps[0]), steps[1..]);
    }
  }

  /**
   In every interleaving the current session is waiting for something that will resume it, never over, and from its
   opening on it holds what it plays: the file's URL if it was started for a file, and else the camera.
   */
  lemma CurrentSessionGoesOn(steps: seq<Step>)
    ensures Alive(Run(IDLE, steps))
  {
    StepsKeepAlive(IDLE, steps);
  }

  /** Where a session waits after a step of its own that does not end it. */
  predicate Follows(s: Session, step: Step, next: Phase)
  {
    match step
    case DecoderReady(_, _) => next == if s.file then AwaitPlay else AwaitStream
    case StreamReady(_, _) => next == AwaitPlay
    case Playing(_, _, picture) => next == if picture == Ready then AwaitDetect else AwaitTimer
    case TimerFires(_, picture) => next == if picture == Ready then AwaitDetect else AwaitTimer
    case _ => next.AwaitTimer? || next.AwaitReport?
  }

  predicate Waits(w: World, i: nat, s: Step)
  {
    i < |w.sessions| && Current(w, i) &&
    match w.sessions[i].phase
    case AwaitDecoder => s.DecoderReady? && s.session == i
    case AwaitStream => s.StreamReady? && s.session == i
    case AwaitPlay => s.Playing? && s.session == i
    case AwaitTimer => s.TimerFires? && s.session == i && w.timer == Some(i)
    case AwaitDetect => s.Detected? && s.session == i
    case AwaitReport(_) => s.Reported? && s.session == i && w.sessions[i].frames != []
    case Over => false
  }

  lemma {:induction false} ScanWaits(w: World, i: nat, rest: seq<Reading>)
    requires i < |w.sessions| && w.sessions[i].frames != [] && !Overflows(w.sessions[i], rest)
    ensures var v := Scanned(w, i, rest);
            && |v.sessions| == |w.sessions| && (v.sessions[i].phase.AwaitTimer? || v.sessions[i].phase.AwaitReport?)
            && (v.sessions[i].phase.AwaitTimer? ==> v.timer == Some(i))
            && v.sessions[i].frames == w.sessions[i].frames
            && (v.sessions[i].phase.AwaitReport? ==> |v.reports| == |w.reports| + 1)
    decreases |rest|
  {
    if rest != [] && !Fresh(w.sessions[i], rest[0]) {
      assert forall k :: 0 <= k < |rest| - 1 ==> rest[1..][k] == rest[k + 1];
      ScanWaits(w, i, rest[1..]);
    }
  }

  /** The current session moves on with whatever it waited for, unless that ends it. */
  lemma SessionMovesOn(w: World, i: nat, s: Step)
    requires Waits(w, i, s) && !Breaks(w, s)
    ensures var v := Next(w, s);
            && |v.sessions| == |w.sessions| && Current(v, i) && Follows(w.sessions[i], s, v.sessions[i].phase)
            && (v.sessions[i].phase.AwaitTimer? ==> v.timer == Some(i))
            && (s.Detected? ==> v.sessions[i].frames == w.sessions[i].frames + [s.codes.value])
  {
    CaptureEndsOnlyFor(w, s);
    match s
    case Detected(_, codes) =>
      var t := w.sessions[i].(frames := w.sessions[i].frames + [codes.value]);
      assert forall r :: Fresh(t, r) <==> Fresh(w.sessions[i], r);
      ScanWaits(w.(sessions := w.sessions[i := t]), i, codes.value);
      ScanKeepsGeneration(w.(sessions := w.sessions[i := t]), i, codes.value);
    case Reported(_, _) =>
      ScanWaits(w, i, w.sessions[i].phase.rest);
      ScanKeepsGeneration(w, i, w.sessions[i].phase.rest);
    case _ =>
  }

  /** In every interleaving something can resume the current session. */
  lemma CurrentSessionCanMove(steps: seq<Step>, i: nat) returns (s: Step)
    requires var w := Run(IDLE, steps); i < |w.sessions| && Current(w, i)
    ensures Waits(Run(IDLE, steps), i, s)
  {
    var w := Run(IDLE, steps);
    StepsKeepSound(IDLE, steps);
    StepsKeepTimer(IDLE, steps);
    StepsKeepAlive(IDLE, steps);
    assert SessionSound(w.sessions[i]) && Going(w, w.sessions[i]);
    s := match w.sessions[i].phase
         case AwaitDecoder => DecoderReady(i, true)
         case AwaitStream => StreamReady(i, true)
         case AwaitPlay => Playing(i, true, Ready)
         case AwaitTimer => TimerFires(i, Ready)
         case AwaitDetect => Detected(i, None)
         case _ => Reported(i, true);
  }

  lemma {:induction false} ScanKeepsGeneration(w: World, i: nat, rest: seq<Reading>)
    requires i < |w.sessions| && w.sessions[i].frames != []
    ensures |Scanned(w, i, rest).sessions| == |w.sessions|
    ensures Scanned(w, i, rest).sessions[i].generation == w.sessions[i].generation
    decreases |rest|
  {
    if rest != [] && !Fresh(w.sessions[i], rest[0]) { ScanKeepsGeneration(w, i, rest[1..]); }
  }

  /** How many camera streams the steps of a run bring to a session that asked for one. */
  function StreamsBrought(w: World, steps: seq<Step>): nat
    decreases |steps|
  {
    if steps == [] then 0
    else
      var s := steps[0];
      var brought := s.StreamReady? && s.ok && s.session < |w.sessions| && w.sessions[s.session].phase == AwaitStream;
      (if brought then 1 else 0) + StreamsBrought(Next(w, s), steps[1..])
  }

  lemma {:induction false} ScanKeepsStreams(w: World, i: nat, rest: seq<Reading>)
    requires i < |w.sessions| && w.sessions[i].frames != []
    ensures |Scanned(w, i, rest).streams| == |w.streams|
    decreases |rest|
  {
    if rest != [] && !Fresh(w.sessions[i], rest[0]) { ScanKeepsStreams(w, i, rest[1..]); }
  }

  lemma StepCountsStreams(w: World, s: Step)
    ensures |Next(w, s).streams| == |w.streams| + StreamsBrought(w, [s])
  {
    match s
    case Detected(i, codes) =>
      if i < |w.sessions| && codes.Some? {
        var t := w.sessions[i].(frames := w.sessions[i].frames + [codes.value]);
        ScanKeepsStreams(w.(sessions := w.sessions[i := t]), i, codes.value);
      }
    case Reported(i, ok) =>
      if i < |w.sessions| && w.sessions[i].phase.AwaitReport? && w.sessions[i].frames != [] {
        ScanKeepsStreams(w, i, w.sessions[i].phase.rest);
      }
    case _ =>
  }

  /** Every camera stream that arrives is on the books, too late or not, so it is the current one or released. */
  lemma {:induction false} EveryStreamIsCounted(w: World, steps: seq<Step>)
    ensures |Run(w, steps).streams| == |w.streams| + StreamsBrought(w, steps)
    decreases |steps|
  {
    if steps != [] {
      StepCountsStreams(w, steps[0]);
      EveryStreamIsCounted(Next(w, steps[0]), steps[1..]);
      assert StreamsBrought(w, steps) == StreamsBrought(w, [steps[0]]) + StreamsBrought(Next(w, steps[0]), steps[1..]);
    }
  }

  /** A start leaves one new session of its source, current and waiting for its decoder; a bad file leaves none. */
  lemma StartOpensItsSource(w: World, source: Source)
    ensures var v, n := Started(w, source), |w.sessions|;
            && |v.sessions| == n + 1 && v.sessions[n].file == source.Video? && v.sessions[n].frames == []
            && (source != Video(false) ==> Resumes(v, n, AwaitDecoder))
            && (source == Video(false) ==> !Current(v, n) && v.sessions[n].phase == Over)
            && v.stream.None? && v.url.None? && v.timer.None?
  {}

  /** A picture is decoded if and only if it is ready; one that is not leaves a waiting capture exactly as it was. */
  lemma OnlyReadyPicturesAreDecoded(w: World, i: nat, picture: Picture)
    requires Resumes(w, i, AwaitTimer) && w.timer == Some(i)
    ensures Resumes(Next(w, TimerFires(i, picture)), i, AwaitDetect) <==> picture == Ready
    ensures picture == NotReady ==> Next(w, TimerFires(i, picture)) == w
  {
    if picture == NotReady { assert w.sessions[i := w.sessions[i].(phase := AwaitTimer)] == w.sessions; }
  }

  /** All sessions up to `n` are past and the reports since `m` are by later ones. */
  ghost predicate Silenced(w: World, n: nat, m: nat)
  {
    && n <= |w.sessions| && m <= |w.reports|
    && (forall i :: 0 <= i < n ==> w.sessions[i].generation < w.generation)
    && forall k :: m <= k < |w.reports| ==> w.reports[k].session >= n
  }

  lemma {:induction false} ScanStaysSilent(w: World, i: nat, rest: seq<Reading>, n: nat, m: nat)
    requires i < |w.sessions| && w.sessions[i].frames != [] && Current(w, i) && Silenced(w, n, m)
    ensures Silenced(Scanned(w, i, rest), n, m)
    decreases |rest|
  {
    if rest != [] && !Fresh(w.sessions[i], rest[0]) { ScanStaysSilent(w, i, rest[1..], n, m); }
  }

  lemma DetectStaysSilent(w: World, i: nat, codes: Option<seq<Reading>>, n: nat, m: nat)
    requires Silenced(w, n, m)
    ensures Silenced(Next(w, Detected(i, codes)), n, m)
  {
    if i < |w.sessions| && w.sessions[i].phase.AwaitDetect? && Current(w, i) && codes.Some? {
      var framed := w.(sessions := w.sessions[i := w.sessions[i].(frames := w.sessions[i].frames + [codes.value])]);
      ScanStaysSilent(framed, i, codes.value, n, m);
    }
  }

  lemma ReportStaysSilent(w: World, i: nat, ok: bool, n: nat, m: nat)
    requires Silenced(w, n, m)
    ensures Silenced(Next(w, Reported(i, ok)), n, m)
  {
    if i < |w.sessions| && w.sessions[i].phase.AwaitReport? && w.sessions[i].frames != [] && Current(w, i) && ok {
      ScanStaysSilent(w, i, w.sessions[i].phase.rest, n, m);
    }
  }

  lemma StartStaysSilent(w: World, s: Step, n: nat, m: nat)
    requires Silenced(w, n, m) && (s.Stop? || s.Start?)
    ensures Silenced(Next(w, s), n, m)
  {}

  lemma StepStaysSilent(w: World, s: Step, n: nat, m: nat)
    requires Silenced(w, n, m)
    ensures Silenced(Next(w, s), n, m)
  {
    match s
    case Detected(i, codes) => DetectStaysSilent(w, i, codes, n, m);
    case Reported(i, ok) => ReportStaysSilent(w, i, ok, n, m);
    case Stop => StartStaysSilent(w, s, n, m);
    case Start(_) => StartStaysSilent(w, s, n, m);
    case _ =>
  }

  lemma {:induction false} StepsStaySilent(w: World, steps: seq<Step>, n: nat, m: nat)
    requires Silenced(w, n, m)
    ensures Silenced(Run(w, steps), n, m)
    decreases |steps|
  {
    if steps != [] {
      StepStaysSilent(w, steps[0], n, m);
      StepsStaySilent(Next(w, steps[0]), steps[1..], n, m);
    }
  }

  /** After `stop`, or a new `start`, nothing that happens makes an earlier start report again. */
  lemma StopSilencesEarlierStarts(w: World, first: Step, steps: seq<Step>)
    requires Sound(w) && (first.Stop? || first.Start?)
    ensures var v := Run(Next(w, first), steps);
            && |w.reports| <= |v.reports|
            && forall k :: |w.reports| <= k < |v.reports| ==> v.reports[k].session >= |w.sessions|
  {
    StepsStaySilent(Next(w, first), steps, |w.sessions|, |w.reports|);
  }

  // ---------------------------------------------------------------------------
  // The capture object, one method for each segment between awaits
  // ---------------------------------------------------------------------------

  class BarcodeCapture {
    var generation: nat
    var stream: Option<nat>
    var streams: seq<Handle>
    var url: Option<nat>
    var urls: seq<Handle>
    var timer: Option<nat>
    var sessions: seq<Session>
    var reports: seq<Report>

    ghost function State(): World
      reads this
    {
      World(generation, stream, streams, url, urls, timer, sessions, reports)
    }

    constructor ()
      ensures State() == IDLE
    {
      generation, stream, streams, url, urls, timer, sessions, reports := 0, None, [], None, [], None, [], [];
    }

    method Stop()
      modifies this
      ensures State() == Stopped(old(State()))
    {
      generation := generation + 1;
      timer := None;
      if stream.Some? && stream.value < |streams| { streams := streams[stream.value := Released]; }
      stream := None;
      if url.Some? && url.value < |urls| { urls := urls[url.value := Released]; }
      url := None;
    }

    method Suspend(i: nat, phase: Phase)
      requires i < |sessions|
      modifies this`sessions
      ensures State() == At(old(State()), i, phase)
    {
      sessions := sessions[i := sessions[i].(phase := phase)];
    }

    method Fail(i: nat)
      requires i < |sessions|
      modifies this
      ensures State() == Failed(old(State()), i)
    {
      Suspend(i, Over);
      Stop();
    }

    method Start(source: Source)
      modifies this
      ensures State() == Started(old(State()), source)
    {
      Stop();
      sessions := sessions + [Session(generation, source.Video?, AwaitDecoder, [], [], [])];
      if source.Video? && !source.acceptable { Fail(|sessions| - 1); }
    }

    method DecoderResolves(i: nat, ok: bool)
      requires i < |sessions| && sessions[i].phase.AwaitDecoder?
      modifies this
      ensures State() == Next(old(State()), DecoderReady(i, ok))
    {
      if sessions[i].generation != generation { Suspend(i, Over); return; }
      if !ok { Fail(i); return; }
      if sessions[i].file {
        url, urls := Some(|urls|), urls + [Held];
        Suspend(i, AwaitPlay);
      } else {
        Suspend(i, AwaitStream);
      }
    }

    method StreamResolves(i: nat, ok: bool)
      requires i < |sessions| && sessions[i].phase.AwaitStream?
      modifies this
      ensures State() == Next(old(State()), StreamReady(i, ok))
    {
      if sessions[i].generation != generation {
        if ok { streams := streams + [Released]; }
        Suspend(i, Over);
        return;
      }
      if !ok { Fail(i); return; }
      stream, streams := Some(|streams|), streams + [Held];
      Suspend(i, AwaitPlay);
    }

    method Tick(i: nat, picture: Picture)
      requires i < |sessions| && sessions[i].generation == generation
      modifies this
      ensures State() == Ticked(old(State()), i, picture)
    {
      if picture == Ended || picture == Unreadable {
        Fail(i);
      } else if picture == Ready {
        Suspend(i, AwaitDetect);
      } else {
        Suspend(i, AwaitTimer);
        timer := Some(i);
      }
    }

    method PlayResolves(i: nat, ok: bool, picture: Picture)
      requires i < |sessions| && sessions[i].phase.AwaitPlay?
      modifies this
      ensures State() == Next(old(State()), Playing(i, ok, picture))
    {
      if sessions[i].generation != generation { Suspend(i, Over); return; }
      if ok { Tick(i, picture); } else { Fail(i); }
    }

    method TimerExpires(i: nat, picture: Picture)
      requires i < |sessions| && sessions[i].phase.AwaitTimer? && timer == Some(i)
      modifies this
      ensures State() == Next(old(State()), TimerFires(i, picture))
    {
      timer := None;
      if sessions[i].generation != generation { Suspend(i, Over); return; }
      Tick(i, picture);
    }

    /** The loop over the readings of a frame, from one `onCode` call to the next or to the end of the frame. */
    method Scan(i: nat, codes: seq<Reading>)
      requires i < |sessions| && sessions[i].frames != []
      modifies this
      ensures State() == Scanned(old(State()), i, codes)
    {
      var s := sessions[i];
      var k := 0;
      while k < |codes|
        invariant k <= |codes| && State() == old(State())
        invariant Scanned(old(State()), i, codes) == Scanned(old(State()), i, codes[k..])
      {
        var r := codes[k];
        assert codes[k..][1..] == codes[k + 1..];
        k := k + 1;
        if r.format.OtherFormat? || r.raw in s.seen { continue; }
        if r !in s.previous { continue; }
        if |s.seen| >= BATCH_LIMIT { Fail(i); return; }
        reports := reports + [Report(i, generation, r, |s.frames| - 1)];
        sessions := sessions[i := s.(seen := s.seen + [r.raw], phase := AwaitReport(codes[k..]))];
        return;
      }
      sessions := sessions[i := s.(previous := Readable(s.frames[|s.frames| - 1]))];
      Suspend(i, AwaitTimer);
      timer := Some(i);
    }

    method DetectResolves(i: nat, codes: Option<seq<Reading>>)
      requires i < |sessions| && sessions[i].phase.AwaitDetect?
      modifies this
      ensures State() == Next(old(State()), Detected(i, codes))
    {
      if sessions[i].generation != generation { Suspend(i, Over); return; }
      if codes.None? { Fail(i); return; }
      sessions := sessions[i := sessions[i].(frames := sessions[i].frames + [codes.value])];
      Scan(i, codes.value);
    }

    method ReportResolves(i: nat, ok: bool)
      requires i < |sessions| && sessions[i].phase.AwaitReport? && sessions[i].frames != []
      modifies this
      ensures State() == Next(old(State()), Reported(i, ok))
    {
      if sessions[i].generation != generation { Suspend(i, Over); return; }
      if ok { Scan(i, sessions[i].phase.rest); } else { Fail(i); }
    }
  }
}
