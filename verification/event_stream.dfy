/**
 The cursor stream of ledger events: cursor resolution, the connection protocol
 between the server and a reconnecting browser, and the server's send loop.
 */
module EventStream {
  import opened Wrappers
  import opened EventWindow

  const PAGE_LIMIT := 1000

  // ---------------------------------------------------------------------------
  // Cursor resolution
  // ---------------------------------------------------------------------------

  datatype RequestError = InvalidSequence | FutureCursor

  /** A query parameter that is missing or has no values counts as absent. */
  predicate Given(query: map<string, seq<string>>, name: string)
  {
    name in query && query[name] != []
  }

  /** The text that names the cursor: the query before the header, and "0" when neither says anything. */
  function CursorText(query: map<string, seq<string>>, header: Option<string>): string
  {
    if Given(query, "after") then query["after"][0]
    else if Given(query, "after_sequence") then query["after_sequence"][0]
    else if header.Some? && header.value != "" then header.value
    else "0"
  }

  /** `parse` reads an integer, or yields `None` where the text is not one. */
  function AfterSequence(parse: string -> Option<int>, query: map<string, seq<string>>, header: Option<string>)
    : (r: Result<nat, RequestError>)
    ensures r.Ok? <==> parse(CursorText(query, header)).Some? && parse(CursorText(query, header)).value >= 0
    ensures r.Ok? ==> parse(CursorText(query, header)).value == r.value
    ensures r.Err? ==> r.error == InvalidSequence
  {
    match parse(CursorText(query, header))
    case None => Err(InvalidSequence)
    case Some(n) => if n < 0 then Err(InvalidSequence) else Ok(n)
  }

  /** The first value of `after` decides, without one that of `after_sequence`, and only without both the header. */
  lemma CursorPrecedence(parse: string -> Option<int>, query: map<string, seq<string>>, header: Option<string>, n: nat)
    ensures "after" in query && query["after"] != [] ==>
              (AfterSequence(parse, query, header) == Ok(n) <==> parse(query["after"][0]) == Some(n))
    ensures "after_sequence" in query && query["after_sequence"] != []
            && ("after" in query ==> query["after"] == []) ==>
              (AfterSequence(parse, query, header) == Ok(n) <==> parse(query["after_sequence"][0]) == Some(n))
    ensures "after" !in query && "after_sequence" !in query && header.Some? && header.value != "" ==>
              (AfterSequence(parse, query, header) == Ok(n) <==> parse(header.value) == Some(n))
  {}

  /** A first connection, whose URL names no cursor and which has no last id, starts before the first event. */
  lemma FirstConnectionStartsAtZero(
    parse: string -> Option<int>, query: map<string, seq<string>>, header: Option<string>)
    requires !Given(query, "after") && !Given(query, "after_sequence") && header in {None, Some("")}
    requires parse("0") == Some(0)
    ensures AfterSequence(parse, query, header) == Ok(0)
  {}

  /**
   An automatic reconnection repeats its URL and adds the last id received as a header. It resumes there
   exactly when the URL names no cursor, or the one that it names is that id already.
   */
  lemma ReconnectionResumes(parse: string -> Option<int>, query: map<string, seq<string>>, lastId: string, last: nat)
    requires lastId != "" && parse(lastId) == Some(last)
    ensures AfterSequence(parse, query, Some(lastId)) == Ok(last) <==>
            || (!Given(query, "after") && !Given(query, "after_sequence"))
            || parse(if Given(query, "after") then query["after"][0] else query["after_sequence"][0]) == Some(last)
  {}

  // ---------------------------------------------------------------------------
  // The ledger
  // ---------------------------------------------------------------------------

  /** Sequences count the events of the ledger from one. */
  ghost predicate Dense(es: seq<Event>)
  {
    forall i :: 0 <= i < |es| ==> es[i].sequence == Some(i + 1)
  }

  /** The events after a cursor, at most a page of them. */
  function Page(ledger: seq<Event>, after: nat): (page: seq<Event>)
    ensures after < |ledger| ==> 0 < |page| <= PAGE_LIMIT && after + |page| <= |ledger|
    ensures after < |ledger| ==> page == ledger[after..after + |page|]
    ensures after < |ledger| && |page| < PAGE_LIMIT ==> after + |page| == |ledger|
    ensures after >= |ledger| ==> page == []
  {
    if after >= |ledger| then []
    else if |ledger| - after <= PAGE_LIMIT then ledger[after..]
    else ledger[after..after + PAGE_LIMIT]
  }

  // ---------------------------------------------------------------------------
  // Connections: every schedule of appends, drops and reconnections
  // ---------------------------------------------------------------------------

  /** `after` is the server's cursor, `pending` the rest of the page that it last read. */
  datatype Connection = Closed | Open(after: nat, pending: seq<Event>)

  /** `wire` holds frames written and not yet received; the browser subscribed from `start`. */
  datatype World = World(ledger: seq<Event>, start: nat, received: seq<Event>, conn: Connection, wire: seq<Event>)

  datatype Step =
    | Append(kind: Kind, body: string)
    | Connect(cursor: nat)
    | Poll
    | Write
    | Receive
    | Drop

  /** A step that is not enabled changes nothing; a cursor beyond the ledger is refused. */
  function Next(w: World, s: Step): World
  {
    match s
    case Append(kind, body) => w.(ledger := w.ledger + [Event(Some(|w.ledger| + 1), kind, body)])
    case Connect(cursor) => if w.conn.Closed? && cursor <= |w.ledger| then w.(conn := Open(cursor, [])) else w
    case Poll =>
      if w.conn.Open? && w.conn.pending == [] then w.(conn := Open(w.conn.after, Page(w.ledger, w.conn.after))) else w
    case Write =>
      if w.conn.Closed? || w.conn.pending == [] then w
      else
        var e := w.conn.pending[0];
        if e.sequence.None? || e.sequence.value < 0 then w
        else w.(conn := Open(e.sequence.value, w.conn.pending[1..]), wire := w.wire + [e])
    case Receive => if w.wire != [] then w.(received := w.received + [w.wire[0]], wire := w.wire[1..]) else w
    case Drop => w.(conn := Closed, wire := [])
  }

  function Run(w: World, steps: seq<Step>): World
    decreases |steps|
  {
    if steps == [] then w else Run(Next(w, steps[0]), steps[1..])
  }

  /** The id that the browser saw last. */
  function LastId(w: World): Option<int>
  {
    if w.received == [] then Some(w.start) else w.received[|w.received| - 1].sequence
  }

  /** Every reconnection of the run names the id last received. */
  predicate RejoinsAtLast(w: World, steps: seq<Step>)
    decreases |steps|
  {
    || steps == []
    || (&& (steps[0].Connect? ==> LastId(w) == Some(steps[0].cursor))
        && RejoinsAtLast(Next(w, steps[0]), steps[1..]))
  }

  /** What the browser has received is the ledger from `start` on, each event once and in order. */
  predicate Faithful(w: World)
  {
    w.start + |w.received| <= |w.ledger| && w.received == w.ledger[w.start..w.start + |w.received|]
  }

  /** Received, on the wire and pending events are consecutive stretches of the ledger. */
  ghost predicate Consistent(w: World)
  {
    && Dense(w.ledger) && Faithful(w)
    && match w.conn
       case Closed => w.wire == []
       case Open(after, pending) =>
         && after == w.start + |w.received| + |w.wire|
         && after + |pending| <= |w.ledger|
         && w.wire == w.ledger[w.start + |w.received|..after]
         && pending == w.ledger[after..after + |pending|]
  }

  lemma LastIdIsPosition(w: World)
    requires Dense(w.ledger) && Faithful(w)
    ensures LastId(w) == Some(w.start + |w.received|)
  {}

  lemma SliceGrows(es: seq<Event>, i: nat, j: nat)
    requires i <= j < |es|
    ensures es[i..j + 1] == es[i..j] + [es[j]]
  {}

  lemma AppendKeepsConsistent(w: World, s: Step)
    requires Consistent(w) && s.Append?
    ensures Consistent(Next(w, s))
  {}

  lemma WriteKeepsConsistent(w: World)
    requires Consistent(w) && w.conn.Open? && w.conn.pending != []
    ensures Consistent(Next(w, Write)) && Next(w, Write).conn == Open(w.conn.after + 1, w.conn.pending[1..])
    ensures Next(w, Write).wire == w.wire + [w.ledger[w.conn.after]]
  {}

  lemma ReceiveKeepsConsistent(w: World)
    requires Consistent(w) && w.wire != []
    ensures Consistent(Next(w, Receive))
  {}

  lemma StepKeepsConsistent(w: World, s: Step)
    requires Consistent(w) && (s.Connect? ==> LastId(w) == Some(s.cursor))
    ensures Consistent(Next(w, s)) && w.ledger <= Next(w, s).ledger && w.received <= Next(w, s).received
    ensures Next(w, s).start == w.start
  {
    match s
    case Append(_, _) => AppendKeepsConsistent(w, s);
    case Connect(_) => LastIdIsPosition(w);
    case Poll =>
    case Write => if w.conn.Open? && w.conn.pending != [] { WriteKeepsConsistent(w); }
    case Receive => if w.wire != [] { ReceiveKeepsConsistent(w); }
    case Drop =>
  }

  /** Over every schedule whose reconnections name the last id received, each later event arrives once and in order. */
  lemma {:induction false} ExactlyOnceInOrder(w: World, steps: seq<Step>)
    requires Consistent(w) && RejoinsAtLast(w, steps)
    ensures Consistent(Run(w, steps)) && Faithful(Run(w, steps))
    ensures w.received <= Run(w, steps).received && w.ledger <= Run(w, steps).ledger && Run(w, steps).start == w.start
    decreases |steps|
  {
    if steps != [] {
      StepKeepsConsistent(w, steps[0]);
      ExactlyOnceInOrder(Next(w, steps[0]), steps[1..]);
    }
  }

  lemma FirstAfterReconnect(w: World, cursor: nat)
    requires Consistent(w) && w.conn.Closed? && cursor < |w.ledger|
    ensures var v := Run(w, [Connect(cursor), Poll, Write, Receive]);
            v.received == w.received + [w.ledger[cursor]] && v.ledger == w.ledger && v.start == w.start
  {
    var c := Next(w, Connect(cursor));
    var p := Next(c, Poll);
    assert p.conn.pending[0] == w.ledger[cursor];
    var s := Next(p, Write);
    assert s.wire == [w.ledger[cursor]];
    FourSteps(w, Connect(cursor), Poll, Write, Receive);
  }

  /** Reconnecting, reading a page and receiving one event keeps the stream exact only from the last id received. */
  lemma CursorMustBeLastId(w: World, cursor: nat)
    requires Consistent(w) && w.conn.Closed? && cursor < |w.ledger|
    ensures Faithful(Run(w, [Connect(cursor), Poll, Write, Receive])) <==> LastId(w) == Some(cursor)
  {
    var v, n := Run(w, [Connect(cursor), Poll, Write, Receive]), w.start + |w.received|;
    FirstAfterReconnect(w, cursor);
    LastIdIsPosition(w);
    assert v.received[|w.received|] == w.ledger[cursor];
    if n < |w.ledger| {
      SliceGrows(w.ledger, w.start, n);
      assert w.ledger[w.start..n + 1][|w.received|] == w.ledger[n];
      assert w.ledger[cursor].sequence == Some(cursor + 1) && w.ledger[n].sequence == Some(n + 1);
    }
  }

  /**
   A witness: a browser that has received something and reconnects with the cursor of its URL gets its first
   event again.
   */
  lemma StaleUrlRepeatsEvents(w: World)
    requires Consistent(w) && w.conn.Closed? && w.received != []
    ensures var v := Run(w, [Connect(w.start), Poll, Write, Receive]);
            v.received == w.received + [w.received[0]] && !Faithful(v)
  {
    FirstAfterReconnect(w, w.start);
    CursorMustBeLastId(w, w.start);
    LastIdIsPosition(w);
  }

  lemma FourSteps(w: World, a: Step, b: Step, c: Step, d: Step)
    ensures Run(w, [a, b, c, d]) == Next(Next(Next(Next(w, a), b), c), d)
  {
    assert [a, b, c, d][1..] == [b, c, d] && [b, c, d][1..] == [c, d] && [c, d][1..] == [d] && [d][1..] == [];
    assert Run(Next(w, a), [b, c, d]) == Run(Next(Next(w, a), b), [c, d]);
    assert Run(Next(Next(w, a), b), [c, d]) == Run(Next(Next(Next(w, a), b), c), [d]);
    assert Run(Next(Next(Next(w, a), b), c), [d]) == Run(Next(Next(Next(Next(w, a), b), c), d), []);
  }

  /** Steps that the connection still owes before the browser has seen the whole ledger. */
  function Owed(w: World): int
  {
    match w.conn
    case Closed => 0
    case Open(after, pending) =>
      4 * (|w.ledger| - after - |pending|) + 3 * |pending| + |w.wire|
      + if pending == [] && after < |w.ledger| then 1 else 0
  }

  /** An open connection either has delivered the whole ledger or has a step that brings it closer. */
  lemma OpenConnectionCatchesUp(w: World)
    requires Consistent(w) && w.conn.Open?
    ensures Owed(w) >= 0
    ensures Owed(w) == 0 <==> w.received == w.ledger[w.start..]
    ensures Owed(w) > 0 ==> exists s :: s in [Poll, Write, Receive] && Owed(Next(w, s)) < Owed(w)
  {
    var n := w.start + |w.received|;
    if w.wire != [] {
      assert Receive in [Poll, Write, Receive] && Owed(Next(w, Receive)) < Owed(w);
    } else if w.conn.pending != [] {
      WriteKeepsConsistent(w);
      assert Write in [Poll, Write, Receive] && Owed(Next(w, Write)) < Owed(w);
    } else if w.conn.after < |w.ledger| {
      assert Poll in [Poll, Write, Receive] && Owed(Next(w, Poll)) < Owed(w);
    } else {
      assert w.ledger[w.start..n] == w.ledger[w.start..];
    }
    if w.received == w.ledger[w.start..] {
      assert |w.received| == |w.ledger| - w.start;
    }
  }

  /**
   A browser that subscribes from the last event of its window misses nothing that the window does not already
   show.
   */
  lemma WindowThenStream(es: seq<Event>, w: World, steps: seq<Step>)
    requires Dense(es) && es != []
    requires w == World(es, |es|, [], Closed, []) && RejoinsAtLast(w, steps)
    ensures Window(es) != [] && Window(es)[|Window(es)| - 1].sequence == Some(w.start)
    ensures var v := Run(w, steps); es <= v.ledger && v.received <= v.ledger[|es|..]
  {
    assert Increasing(es);
    WindowIncreasing(es);
    assert es[|es|..|es|] == [];
    ExactlyOnceInOrder(w, steps);
    var v := Run(w, steps);
    assert v.ledger[|es|..][..|v.received|] == v.ledger[|es|..|es| + |v.received|];
  }

  // ---------------------------------------------------------------------------
  // A response: what the send loop writes while others write the ledger
  // ---------------------------------------------------------------------------

  datatype Frame = EventFrame(event: Event) | Heartbeat | Reset(safeCursor: nat)

  /** How a response ends: the peer is gone, a replay is complete, or the ledger was rotated. */
  datatype End = Broken | Finished | WasReset

  datatype Entry = Entry(kind: Kind, body: string)

  /** What other writers do to the ledger between two reads of it. */
  datatype Change = Quiet | Appended(entries: seq<Entry>) | Rotated(entries: seq<Entry>)

  function Numbered(es: seq<Event>, entries: seq<Entry>): (r: seq<Event>)
    ensures es <= r && |r| == |es| + |entries| && (Dense(es) ==> Dense(r))
  {
    if entries == [] then es
    else
      var before := Numbered(es, entries[..|entries| - 1]);
      before + [Event(Some(|before| + 1), entries[|entries| - 1].kind, entries[|entries| - 1].body)]
  }

  function Changed(es: seq<Event>, change: Change): seq<Event>
  {
    match change
    case Quiet => es
    case Appended(entries) => Numbered(es, entries)
    case Rotated(entries) => Numbered([], entries)
  }

  lemma {:induction false} NumberedEntries(es: seq<Event>, entries: seq<Entry>, i: nat)
    requires i < |entries|
    ensures Numbered(es, entries)[|es| + i] == Event(Some(|es| + i + 1), entries[i].kind, entries[i].body)
  {
    if i < |entries| - 1 { NumberedEntries(es, entries[..|entries| - 1], i); }
  }

  /** Other writers add their entries under the next sequences, after a rotation from one on. */
  lemma WritersCountOn(es: seq<Event>, change: Change)
    ensures var base := if change.Rotated? then [] else es;
            var entries := if change.Quiet? then [] else change.entries;
            && |Changed(es, change)| == |base| + |entries| && base <= Changed(es, change)
            && forall i :: 0 <= i < |entries| ==>
                 Changed(es, change)[|base| + i] == Event(Some(|base| + i + 1), entries[i].kind, entries[i].body)
  {
    hide Numbered;
    if !change.Quiet? {
      var base := if change.Rotated? then [] else es;
      forall i | 0 <= i < |change.entries|
        ensures Numbered(base, change.entries)[|base| + i]
                == Event(Some(|base| + i + 1), change.entries[i].kind, change.entries[i].body)
      {
        NumberedEntries(base, change.entries, i);
      }
    }
  }

  /**
   The ledger with what others are going to do to it, the frames written with the
   number that the peer still takes, and the cursor.
   */
  datatype Response = Response(
    events: seq<Event>, rotated: bool, schedule: seq<Change>,
    frames: seq<Frame>, budget: nat, after: nat, end: Option<End>)

  function Opened(es: seq<Event>, schedule: seq<Change>, budget: nat, cursor: nat): Response
  {
    Response(es, false, schedule, [], budget, cursor, None)
  }

  /** Other writers take their next turn. */
  function Elapsed(r: Response): Response
  {
    if r.schedule == [] then r
    else
      r.(events := Changed(r.events, r.schedule[0]), rotated := r.rotated || r.schedule[0].Rotated?,
         schedule := r.schedule[1..])
  }

  function Put(r: Response, frame: Frame): Response
  {
    if r.budget > 0 then r.(frames := r.frames + [frame], budget := r.budget - 1) else r.(end := Some(Broken))
  }

  function Framed(es: seq<Event>): (frames: seq<Frame>)
    ensures |frames| == |es| && forall i :: 0 <= i < |es| ==> frames[i] == EventFrame(es[i])
  {
    if es == [] then [] else Framed(es[..|es| - 1]) + [EventFrame(es[|es| - 1])]
  }

  function Fitting(budget: nat, page: seq<Event>): nat
  {
    if budget < |page| then budget else |page|
  }

  function PutPage(r: Response, page: seq<Event>): Response
  {
    var n := Fitting(r.budget, page);
    r.(frames := r.frames + Framed(page[..n]), budget := r.budget - n, after := r.after + n,
       end := if n < |page| then Some(Broken) else r.end)
  }

  /** The events up to a target sequence. */
  function UpTo(es: seq<Event>, target: nat): seq<Event>
  {
    if es == [] then []
    else (if es[0].sequence.Some? && es[0].sequence.value <= target then [es[0]] else []) + UpTo(es[1..], target)
  }

  /** What is to be written next: a replay takes from a page only what does not pass its target. */
  function Due(ledger: seq<Event>, after: nat, target: Option<nat>): seq<Event>
  {
    var page := Page(ledger, after);
    if target.Some? then UpTo(page, target.value) else page
  }

  function Waited(r: Response): Response
  {
    var e := Elapsed(r);
    if Page(e.events, e.after) == [] then Put(e, Heartbeat) else e
  }

  function PageTurn(r: Response, target: Option<nat>): Response
  {
    var page := Due(r.events, r.after, target);
    if page != [] then
      var p := PutPage(r, page);
      if p.end.None? && target.Some? && p.after >= target.value then p.(end := Some(Finished)) else p
    else if target.Some? then r.(end := Some(Finished))
    else Waited(r)
  }

  /** One pass of the loop; `target` is where a replay ends. */
  function Turn(r: Response, target: Option<nat>): (t: Response)
    ensures r.end.None? && t.end.None? ==> t.budget + |t.schedule| < r.budget + |r.schedule|
  {
    var e := Elapsed(r);
    if e.after > |e.events| then
      var p := Put(e, Reset(|e.events|));
      if p.end.None? then p.(end := Some(WasReset)) else p
    else PageTurn(Elapsed(e), target)
  }

  function Respond(r: Response, target: Option<nat>): (f: Response)
    ensures f.end.Some?
    decreases r.end.None?, r.budget + |r.schedule|
  {
    if r.end.Some? then r else Respond(Turn(r, target), target)
  }

  /** After `n` passes, or fewer if it has ended. */
  function Turns(r: Response, target: Option<nat>, n: nat): Response
    decreases n
  {
    if n == 0 || r.end.Some? then r else Turns(Turn(r, target), target, n - 1)
  }

  function EventsIn(frames: seq<Frame>): seq<Event>
  {
    if frames == [] then []
    else EventsIn(frames[..|frames| - 1]) + match frames[|frames| - 1] case EventFrame(e) => [e] case _ => []
  }

  lemma EventsInPut(frames: seq<Frame>, frame: Frame)
    ensures EventsIn(frames + [frame]) == EventsIn(frames) + if frame.EventFrame? then [frame.event] else []
  {
    assert (frames + [frame])[..|frames|] == frames;
  }

  lemma {:induction false} EventsInFramed(frames: seq<Frame>, es: seq<Event>)
    ensures EventsIn(frames + Framed(es)) == EventsIn(frames) + es
    decreases |es|
  {
    if es == [] {
      assert frames + Framed(es) == frames;
    } else {
      var start, last := es[..|es| - 1], es[|es| - 1];
      EventsInFramed(frames, start);
      EventsInPut(frames + Framed(start), EventFrame(last));
      assert frames + Framed(es) == (frames + Framed(start)) + [EventFrame(last)];
      assert es == start + [last];
    }
  }

  lemma {:induction false} OnlyEvents(frames: seq<Frame>)
    requires forall i :: 0 <= i < |frames| ==> frames[i].EventFrame?
    ensures frames == Framed(EventsIn(frames))
    decreases |frames|
  {
    if frames != [] {
      var start, last := frames[..|frames| - 1], frames[|frames| - 1];
      OnlyEvents(start);
      var es := EventsIn(frames);
      assert es[..|es| - 1] == EventsIn(start);
      assert frames == start + [last];
    }
  }

  /** The events of consecutive sequences that follow a cursor. */
  ghost predicate Follows(es: seq<Event>, after: nat)
  {
    forall i :: 0 <= i < |es| ==> es[i].sequence == Some(after + i + 1)
  }

  lemma {:induction false} UpToIsPrefix(es: seq<Event>, after: nat, target: nat)
    requires Follows(es, after)
    ensures UpTo(es, target) ==
            es[..if target <= after then 0 else if target - after < |es| then target - after else |es|]
    decreases |es|
  {
    if es != [] { UpToIsPrefix(es[1..], after + 1, target); }
  }

  lemma DueIsNext(ledger: seq<Event>, after: nat, target: Option<nat>)
    requires Dense(ledger)
    ensures var d := Due(ledger, after, target);
            && Follows(d, after)
            && (d != [] ==> after + |d| <= |ledger| && d == ledger[after..after + |d|])
            && (target.Some? && after <= target.value ==> after + |d| <= target.value)
            && (d == [] <==> after >= |ledger| || (target.Some? && after >= target.value))
  {
    hide UpTo;
    var page := Page(ledger, after);
    if target.Some? { UpToIsPrefix(page, after, target.value); }
  }

  // ---------------------------------------------------------------------------
  // What every response keeps
  // ---------------------------------------------------------------------------

  /** Each heartbeat came after the events up to sequence `n`. */
  predicate CaughtUp(frames: seq<Frame>, cursor: nat, n: nat)
  {
    forall i :: 0 <= i < |frames| && frames[i].Heartbeat? ==> cursor + |EventsIn(frames[..i])| >= n
  }

  lemma CaughtUpOn(frames: seq<Frame>, more: seq<Frame>, cursor: nat, n: nat)
    requires CaughtUp(frames, cursor, n)
    requires forall i :: 0 <= i < |more| && more[i].Heartbeat? ==> cursor + |EventsIn(frames + more[..i])| >= n
    ensures CaughtUp(frames + more, cursor, n)
  {
    var all := frames + more;
    forall i | 0 <= i < |all| && all[i].Heartbeat? ensures cursor + |EventsIn(all[..i])| >= n {
      if i < |frames| {
        assert all[..i] == frames[..i];
      } else {
        assert all[i] == more[i - |frames|] && all[..i] == frames + more[..i - |frames|];
      }
    }
  }

  /** Without rotation the events written are the stretch of the ledger between the two cursors. */
  ghost predicate Streamed(atOpen: seq<Event>, cursor: nat, target: Option<nat>, r: Response)
  {
    && cursor <= r.after <= |r.events| && EventsIn(r.frames) == r.events[cursor..r.after] && atOpen <= r.events
    && CaughtUp(r.frames, cursor, |atOpen|) && r.end != Some(WasReset)
    && (forall i :: 0 <= i < |r.frames| ==> !r.frames[i].Reset?)
    && (target.Some? && r.end == Some(Finished) ==> r.after == target.value)
  }

  /** What holds before and after each pass. */
  ghost predicate Sending(atOpen: seq<Event>, cursor: nat, target: Option<nat>, r: Response)
  {
    && Dense(r.events) && Follows(EventsIn(r.frames), cursor) && r.after == cursor + |EventsIn(r.frames)|
    && (target.Some? ==>
          target.value == |atOpen| && r.after <= target.value
          && forall i :: 0 <= i < |r.frames| ==> !r.frames[i].Heartbeat?)
    && (!r.rotated ==> Streamed(atOpen, cursor, target, r))
    && (r.end == Some(Broken) ==> r.budget == 0 && (target.Some? && !r.rotated ==> r.after < target.value))
    && (r.end == Some(Finished) ==> target.Some?)
    && (r.end == Some(WasReset) ==>
          r.rotated && r.frames != [] && r.frames[|r.frames| - 1] == Reset(|r.events|) && r.after > |r.events|)
  }

  lemma ElapsedKeepsSending(atOpen: seq<Event>, cursor: nat, target: Option<nat>, r: Response)
    requires Sending(atOpen, cursor, target, r) && r.end.None?
    ensures Sending(atOpen, cursor, target, Elapsed(r))
  {}

  lemma HeartbeatKeepsSending(atOpen: seq<Event>, cursor: nat, target: Option<nat>, r: Response)
    requires Sending(atOpen, cursor, target, r) && r.end.None? && target.None? && r.after >= |r.events|
    ensures Sending(atOpen, cursor, target, Put(r, Heartbeat))
  {
    EventsInPut(r.frames, Heartbeat);
    if !r.rotated && r.budget > 0 {
      assert r.frames + [Heartbeat][..0] == r.frames;
      CaughtUpOn(r.frames, [Heartbeat], cursor, |atOpen|);
    }
  }

  lemma ResetKeepsSending(atOpen: seq<Event>, cursor: nat, target: Option<nat>, r: Response)
    requires Sending(atOpen, cursor, target, r) && r.end.None? && r.after > |r.events| && r.budget > 0
    ensures Sending(atOpen, cursor, target, Put(r, Reset(|r.events|)).(end := Some(WasReset)))
  {
    EventsInPut(r.frames, Reset(|r.events|));
  }

  lemma SlicesJoin(es: seq<Event>, i: nat, j: nat, k: nat)
    requires i <= j <= k <= |es|
    ensures es[i..j] + es[j..k] == es[i..k]
  {}

  lemma FollowsOn(es: seq<Event>, more: seq<Event>, cursor: nat)
    requires Follows(es, cursor) && Follows(more, cursor + |es|)
    ensures Follows(es + more, cursor)
  {}

  lemma PageKeepsStreamed(atOpen: seq<Event>, cursor: nat, target: Option<nat>, r: Response, page: seq<Event>)
    requires Streamed(atOpen, cursor, target, r) && r.end.None?
    requires r.after + |page| <= |r.events| && page == r.events[r.after..r.after + |page|]
    ensures Streamed(atOpen, cursor, target, PutPage(r, page))
  {
    hide EventsIn, Framed;
    var n := Fitting(r.budget, page);
    EventsInFramed(r.frames, page[..n]);
    assert page[..n] == r.events[r.after..r.after + n];
    SlicesJoin(r.events, cursor, r.after, r.after + n);
    CaughtUpOn(r.frames, Framed(page[..n]), cursor, |atOpen|);
  }

  lemma PageKeepsSending(atOpen: seq<Event>, cursor: nat, target: Option<nat>, r: Response, page: seq<Event>)
    requires Sending(atOpen, cursor, target, r) && r.end.None? && Follows(page, r.after)
    requires r.after + |page| <= |r.events| && page == r.events[r.after..r.after + |page|]
    requires target.Some? ==> r.after + |page| <= target.value
    ensures Sending(atOpen, cursor, target, PutPage(r, page))
  {
    var n := Fitting(r.budget, page);
    EventsInFramed(r.frames, page[..n]);
    FollowsOn(EventsIn(r.frames), page[..n], cursor);
    if !r.rotated { PageKeepsStreamed(atOpen, cursor, target, r, page); }
  }

  lemma PageTurnKeepsSending(atOpen: seq<Event>, cursor: nat, target: Option<nat>, r: Response)
    requires Sending(atOpen, cursor, target, r) && r.end.None?
    ensures Sending(atOpen, cursor, target, PageTurn(r, target))
  {
    var page := Due(r.events, r.after, target);
    DueIsNext(r.events, r.after, target);
    if page != [] {
      PageKeepsSending(atOpen, cursor, target, r, page);
    } else if target.None? {
      ElapsedKeepsSending(atOpen, cursor, target, r);
      var e := Elapsed(r);
      if e.after >= |e.events| { HeartbeatKeepsSending(atOpen, cursor, target, e); }
    }
  }

  lemma TurnKeepsSending(atOpen: seq<Event>, cursor: nat, target: Option<nat>, r: Response)
    requires Sending(atOpen, cursor, target, r) && r.end.None?
    ensures Sending(atOpen, cursor, target, Turn(r, target))
  {
    var e := Elapsed(r);
    ElapsedKeepsSending(atOpen, cursor, target, r);
    if e.after > |e.events| {
      if e.budget > 0 { ResetKeepsSending(atOpen, cursor, target, e); }
    } else {
      ElapsedKeepsSending(atOpen, cursor, target, e);
      PageTurnKeepsSending(atOpen, cursor, target, Elapsed(e));
    }
  }

  lemma {:induction false} RespondKeepsSending(atOpen: seq<Event>, cursor: nat, target: Option<nat>, r: Response)
    requires Sending(atOpen, cursor, target, r)
    ensures Sending(atOpen, cursor, target, Respond(r, target))
    decreases r.end.None?, r.budget + |r.schedule|
  {
    if r.end.None? {
      TurnKeepsSending(atOpen, cursor, target, r);
      RespondKeepsSending(atOpen, cursor, target, Turn(r, target));
    }
  }

  lemma OpenedIsSending(es: seq<Event>, schedule: seq<Change>, budget: nat, cursor: nat, target: Option<nat>)
    requires Dense(es) && cursor <= |es| && (target.Some? ==> target.value == |es|)
    ensures Sending(es, cursor, target, Opened(es, schedule, budget, cursor))
  {
    assert es[cursor..cursor] == [];
  }

  lemma PageTurnAddsFrames(r: Response, target: Option<nat>)
    ensures r.frames <= PageTurn(r, target).frames
    ensures |PageTurn(r, target).frames| + PageTurn(r, target).budget == |r.frames| + r.budget
  {
    var page := Due(r.events, r.after, target);
    if page != [] { assert r.frames <= PutPage(r, page).frames; }
  }

  /** Frames are only added, and each one is taken by the peer. */
  lemma TurnAddsFrames(r: Response, target: Option<nat>)
    requires r.end.None?
    ensures r.frames <= Turn(r, target).frames
    ensures |Turn(r, target).frames| + Turn(r, target).budget == |r.frames| + r.budget
  {
    var e := Elapsed(r);
    if e.after <= |e.events| { PageTurnAddsFrames(Elapsed(e), target); }
  }

  lemma {:induction false} RespondAddsFrames(r: Response, target: Option<nat>)
    ensures r.frames <= Respond(r, target).frames
    ensures |Respond(r, target).frames| + Respond(r, target).budget == |r.frames| + r.budget
    decreases r.end.None?, r.budget + |r.schedule|
  {
    if r.end.None? {
      TurnAddsFrames(r, target);
      RespondAddsFrames(Turn(r, target), target);
    }
  }

  // ---------------------------------------------------------------------------
  // What a whole response delivers
  // ---------------------------------------------------------------------------

  lemma SliceOfPrefix(es: seq<Event>, all: seq<Event>, i: nat, j: nat)
    requires es <= all && i <= j <= |es|
    ensures all[i..j] == es[i..j]
  {}

  lemma EndOfReplay(es: seq<Event>, cursor: nat, budget: nat, f: Response)
    requires Sending(es, cursor, Some(|es|), f) && !f.rotated && f.end.Some?
    requires |f.frames| + f.budget == budget
    ensures cursor <= f.after <= |es| && f.frames == Framed(es[cursor..f.after])
    ensures f.after == cursor + Fitting(budget, es[cursor..])
    ensures f.end == Some(if f.after < |es| then Broken else Finished)
  {
    hide EventsIn, Framed, CaughtUp, Follows;
    assert f.end.value != WasReset;
    OnlyEvents(f.frames);
    SliceOfPrefix(es, f.events, cursor, f.after);
  }

  /**
   Without rotation, whatever others append and however pages fall, a replay writes the events from its cursor
   to the latest at open, as many as the peer takes, and nothing else; and it is complete exactly when the peer
   takes them all.
   */
  lemma ReplayIsExact(es: seq<Event>, schedule: seq<Change>, budget: nat, cursor: nat)
    requires Dense(es) && cursor <= |es|
    requires !Respond(Opened(es, schedule, budget, cursor), Some(|es|)).rotated
    ensures var f, n := Respond(Opened(es, schedule, budget, cursor), Some(|es|)), Fitting(budget, es[cursor..]);
            && f.frames == Framed(es[cursor..cursor + n])
            && f.end == Some(if cursor + n < |es| then Broken else Finished)
  {
    hide Turn, Sending;
    var r, target := Opened(es, schedule, budget, cursor), Some(|es|);
    OpenedIsSending(es, schedule, budget, cursor, target);
    RespondKeepsSending(es, cursor, target, r);
    RespondAddsFrames(r, target);
    EndOfReplay(es, cursor, budget, Respond(r, target));
  }

  lemma EndOfLive(es: seq<Event>, cursor: nat, f: Response)
    requires Sending(es, cursor, None, f) && !f.rotated && f.end.Some?
    ensures f.end == Some(Broken) && f.budget == 0 && (f.after >= |es| || f.frames == Framed(EventsIn(f.frames)))
  {
    assert f.end.value.Broken?;
    if i :| 0 <= i < |f.frames| && f.frames[i].Heartbeat? {
      EventsInPrefix(f.frames, i);
    } else {
      OnlyEvents(f.frames);
    }
  }

  /**
   Without rotation a live response ends only with its peer. It has written the stretch of the ledger after its
   cursor, and no heartbeat kept an event that was there at open from a peer who took as many frames.
   */
  lemma LiveStreamDelivers(es: seq<Event>, schedule: seq<Change>, budget: nat, cursor: nat)
    requires Dense(es) && cursor <= |es|
    requires !Respond(Opened(es, schedule, budget, cursor), None).rotated
    ensures var f := Respond(Opened(es, schedule, budget, cursor), None);
            && f.end == Some(Broken) && |f.frames| == budget && es <= f.events
            && cursor <= f.after <= |f.events| && EventsIn(f.frames) == f.events[cursor..f.after]
            && (f.after >= |es| || f.after == cursor + budget)
  {
    var r := Opened(es, schedule, budget, cursor);
    OpenedIsSending(es, schedule, budget, cursor, None);
    RespondKeepsSending(es, cursor, None, r);
    RespondAddsFrames(r, None);
    EndOfLive(es, cursor, Respond(r, None));
  }

  lemma {:induction false} EventsInPrefix(frames: seq<Frame>, i: nat)
    requires i <= |frames|
    ensures |EventsIn(frames[..i])| <= |EventsIn(frames)|
    decreases |frames|
  {
    if i == |frames| {
      assert frames[..i] == frames;
    } else {
      EventsInPrefix(frames[..|frames| - 1], i);
      assert frames[..|frames| - 1][..i] == frames[..i];
    }
  }

  lemma {:induction false} RespondTurns(r: Response, target: Option<nat>, n: nat)
    ensures Respond(Turns(r, target, n), target) == Respond(r, target)
    decreases n
  {
    hide Turn;
    if n > 0 && r.end.None? { RespondTurns(Turn(r, target), target, n - 1); }
  }

  /** A pass that finds the ledger shorter than its cursor and a peer that still listens. */
  predicate Stranded(q: Response)
  {
    q.end.None? && q.budget > 0 && q.after > |Elapsed(q).events|
  }

  lemma PageTurnEnds(r: Response, target: Option<nat>)
    requires r.end.None?
    ensures PageTurn(r, target).end != Some(WasReset)
  {}

  lemma TurnResets(q: Response, target: Option<nat>)
    requires q.end.None?
    ensures Turn(q, target).end == Some(WasReset) <==> Stranded(q)
    ensures Stranded(q) ==>
              var t, n := Turn(q, target), |Elapsed(q).events|;
              |t.events| == n && t.frames == q.frames + [Reset(n)]
  {
    var e := Elapsed(q);
    if e.after <= |e.events| { PageTurnEnds(Elapsed(e), target); }
  }

  /** A response is reset if and only if some pass finds its cursor stranded: each such cursor is announced. */
  lemma ResetIffStranded(r: Response, target: Option<nat>)
    requires r.end.None?
    ensures Respond(r, target).end == Some(WasReset) <==> exists n: nat :: Stranded(Turns(r, target, n))
    ensures Respond(r, target).end == Some(WasReset) ==>
              var f := Respond(r, target); f.frames != [] && f.frames[|f.frames| - 1] == Reset(|f.events|)
  {
    if Respond(r, target).end == Some(WasReset) {
      var n := ResetTurn(r, target);
    }
    if n: nat :| Stranded(Turns(r, target, n)) {
      var q := Turns(r, target, n);
      RespondTurns(r, target, n);
      TurnResets(q, target);
    }
  }

  lemma {:induction false} ResetTurn(r: Response, target: Option<nat>) returns (n: nat)
    requires r.end.None? && Respond(r, target).end == Some(WasReset)
    ensures Stranded(Turns(r, target, n))
    decreases r.budget + |r.schedule|
  {
    hide Turn;
    var t := Turn(r, target);
    TurnResets(r, target);
    if t.end.Some? {
      n := 0;
    } else {
      n := ResetTurn(t, target);
      n := n + 1;
    }
  }

  /** A live pass that finds nothing after its cursor in any of its reads, while the peer still listens. */
  predicate Idle(q: Response, target: Option<nat>)
  {
    var e := Elapsed(q);
    var page := Elapsed(e);
    && q.end.None? && q.budget > 0 && target.None?
    && q.after <= |e.events| && q.after >= |page.events| && q.after >= |Elapsed(page).events|
  }

  lemma PageTurnWaits(r: Response, target: Option<nat>, i: nat)
    requires r.end.None? && i >= |r.frames|
    ensures var t := PageTurn(r, target);
            (i < |t.frames| && t.frames[i].Heartbeat?) <==>
            (&& i == |r.frames| && r.budget > 0 && target.None?
             && Due(r.events, r.after, target) == [] && r.after >= |Elapsed(r).events|)
  {
    hide Due, Changed, Framed;
    var page := Due(r.events, r.after, target);
    if page != [] {
      var n := Fitting(r.budget, page);
      if i < |PutPage(r, page).frames| { assert PutPage(r, page).frames[i] == Framed(page[..n])[i - |r.frames|]; }
    }
  }

  lemma TurnWaits(q: Response, target: Option<nat>, i: nat)
    requires q.end.None? && i >= |q.frames|
    ensures var t := Turn(q, target);
            (i < |t.frames| && t.frames[i].Heartbeat?) <==> (Idle(q, target) && i == |q.frames|)
  {
    var e := Elapsed(q);
    if e.after <= |e.events| { PageTurnWaits(Elapsed(e), target, i); }
  }

  /** A heartbeat is written exactly by the passes that find nothing to send: no event waits behind one. */
  lemma HeartbeatIffIdle(r: Response, target: Option<nat>, i: nat)
    requires i >= |r.frames|
    ensures var f := Respond(r, target);
            (i < |f.frames| && f.frames[i].Heartbeat?) <==>
            exists n: nat :: Idle(Turns(r, target, n), target) && |Turns(r, target, n).frames| == i
  {
    var f := Respond(r, target);
    if i < |f.frames| && f.frames[i].Heartbeat? {
      var n := HeartbeatTurn(r, target, i);
    }
    if n: nat :| Idle(Turns(r, target, n), target) && |Turns(r, target, n).frames| == i {
      var q := Turns(r, target, n);
      TurnWaits(q, target, i);
      RespondTurns(r, target, n);
      RespondAddsFrames(Turn(q, target), target);
    }
  }

  lemma {:induction false} HeartbeatTurn(r: Response, target: Option<nat>, i: nat) returns (n: nat)
    requires |r.frames| <= i < |Respond(r, target).frames| && Respond(r, target).frames[i].Heartbeat?
    ensures Idle(Turns(r, target, n), target) && |Turns(r, target, n).frames| == i
    decreases r.end.None?, r.budget + |r.schedule|
  {
    var t := Turn(r, target);
    assert r.end.None?;
    TurnWaits(r, target, i);
    RespondAddsFrames(t, target);
    if i < |t.frames| {
      n := 0;
    } else {
      n := HeartbeatTurn(t, target, i);
      n := n + 1;
    }
  }

  // ---------------------------------------------------------------------------
  // A response as steps of the connection
  // ---------------------------------------------------------------------------

  function Appends(entries: seq<Entry>): seq<Step>
  {
    if entries == [] then []
    else Appends(entries[..|entries| - 1]) + [Append(entries[|entries| - 1].kind, entries[|entries| - 1].body)]
  }

  /** The appends that the next turn of the other writers makes. */
  function Arrivals(r: Response): seq<Step>
  {
    if r.schedule != [] && r.schedule[0].Appended? then Appends(r.schedule[0].entries) else []
  }

  function Writes(n: nat): seq<Step>
  {
    if n == 0 then [] else Writes(n - 1) + [Write]
  }

  function PageSteps(r: Response, target: Option<nat>): seq<Step>
  {
    [Poll] + if Due(r.events, r.after, target) != [] then Writes(PageTurn(r, target).after - r.after)
             else if target.None? then Arrivals(r)
             else []
  }

  /** The steps of one pass in their order: what others append, one page read, one write for each event written. */
  function TurnSteps(r: Response, target: Option<nat>): seq<Step>
  {
    var e := Elapsed(r);
    Arrivals(r) + if e.after > |e.events| then [] else Arrivals(e) + PageSteps(Elapsed(e), target)
  }

  function Trace(r: Response, target: Option<nat>): seq<Step>
    decreases r.end.None?, r.budget + |r.schedule|
  {
    if r.end.Some? then [] else TurnSteps(r, target) + Trace(Turn(r, target), target)
  }

  lemma {:induction false} RunSplit(w: World, a: seq<Step>, b: seq<Step>)
    ensures Run(w, a + b) == Run(Run(w, a), b)
    decreases |a|
  {
    if a == [] {
      assert a + b == b;
    } else {
      assert (a + b)[1..] == a[1..] + b;
      RunSplit(Next(w, a[0]), a[1..], b);
    }
  }

  lemma RunThen(w: World, a: seq<Step>, step: Step)
    ensures Run(w, a + [step]) == Next(Run(w, a), step)
  {
    RunSplit(w, a, [step]);
    assert Run(Run(w, a), [step]) == Run(Next(Run(w, a), step), []);
  }

  lemma {:induction false} AppendsRun(w: World, entries: seq<Entry>)
    ensures Run(w, Appends(entries)) == w.(ledger := Numbered(w.ledger, entries))
    decreases |entries|
  {
    if entries != [] {
      var start, last := entries[..|entries| - 1], entries[|entries| - 1];
      AppendsRun(w, start);
      RunThen(w, Appends(start), Append(last.kind, last.body));
    }
  }

  lemma {:induction false} WritesRun(w: World, n: nat)
    requires w.conn.Open? && n <= |w.conn.pending| && Follows(w.conn.pending, w.conn.after)
    ensures Run(w, Writes(n)) ==
            w.(conn := Open(w.conn.after + n, w.conn.pending[n..]), wire := w.wire + w.conn.pending[..n])
    decreases n
  {
    var pending := w.conn.pending;
    if n == 0 {
      assert w.wire + pending[..0] == w.wire && pending[0..] == pending;
    } else {
      WritesRun(w, n - 1);
      RunThen(w, Writes(n - 1), Write);
      assert pending[n - 1..][1..] == pending[n..];
      assert (w.wire + pending[..n - 1]) + [pending[n - 1]] == w.wire + pending[..n];
    }
  }

  /** The connection in the state of the response. */
  predicate Mirrors(v: World, r: Response)
  {
    && v.ledger == r.events && v.wire == EventsIn(r.frames)
    && v.conn.Open? && v.conn.after == r.after && (r.end.None? ==> v.conn.pending == [])
  }

  lemma ElapsedRuns(v: World, r: Response)
    requires Mirrors(v, r) && !Elapsed(r).rotated
    ensures Run(v, Arrivals(r)) == v.(ledger := Elapsed(r).events) && Mirrors(Run(v, Arrivals(r)), Elapsed(r))
  {
    if Arrivals(r) != [] { AppendsRun(v, r.schedule[0].entries); }
  }

  lemma DueOfPage(ledger: seq<Event>, after: nat, target: Option<nat>)
    requires Dense(ledger)
    ensures var d := Due(ledger, after, target);
            && d <= Page(ledger, after) && Follows(Page(ledger, after), after)
            && (d == Page(ledger, after) || (target.Some? && after + |d| >= target.value))
  {
    if target.Some? { UpToIsPrefix(Page(ledger, after), after, target.value); }
  }

  lemma PutPageRuns(v: World, r: Response, page: seq<Event>)
    requires v.wire == EventsIn(r.frames) && v.conn.Open? && v.conn.after == r.after
    requires page <= v.conn.pending && Follows(v.conn.pending, r.after)
    ensures var n := Fitting(r.budget, page);
            var x := Run(v, Writes(n));
            && x.conn.Open? && x == v.(conn := x.conn, wire := EventsIn(PutPage(r, page).frames))
            && x.conn.after == r.after + n && (n == |v.conn.pending| ==> x.conn.pending == [])
  {
    var n := Fitting(r.budget, page);
    assert v.conn.pending[..n] == page[..n];
    EventsInFramed(r.frames, page[..n]);
    WritesRun(v, n);
  }

  lemma PageRuns(v: World, r: Response, target: Option<nat>)
    requires Mirrors(v, r) && r.end.None? && Dense(r.events) && Due(r.events, r.after, target) != []
    ensures Mirrors(Run(v, PageSteps(r, target)), PageTurn(r, target))
    ensures Run(v, PageSteps(r, target)).received == v.received && Run(v, PageSteps(r, target)).start == v.start
  {
    hide Due, EventsIn, Framed, Page;
    var page, p := Due(r.events, r.after, target), Next(v, Poll);
    DueOfPage(r.events, r.after, target);
    PutPageRuns(p, r, page);
    assert PageSteps(r, target)[1..] == Writes(Fitting(r.budget, page));
  }

  lemma WaitRuns(v: World, r: Response, target: Option<nat>)
    requires Mirrors(v, r) && r.end.None? && Due(r.events, r.after, target) == [] && !PageTurn(r, target).rotated
    ensures Mirrors(Run(v, PageSteps(r, target)), PageTurn(r, target))
    ensures Run(v, PageSteps(r, target)).received == v.received && Run(v, PageSteps(r, target)).start == v.start
  {
    var p := Next(v, Poll);
    if target.None? {
      assert p == v;
      ElapsedRuns(v, r);
      EventsInPut(r.frames, Heartbeat);
      assert PageSteps(r, target)[1..] == Arrivals(r);
    } else {
      assert PageSteps(r, target)[1..] == [];
    }
  }

  lemma TurnRuns(v: World, r: Response, target: Option<nat>)
    requires Mirrors(v, r) && r.end.None? && Dense(r.events) && !Turn(r, target).rotated && r.after <= |r.events|
    ensures Mirrors(Run(v, TurnSteps(r, target)), Turn(r, target))
    ensures Run(v, TurnSteps(r, target)).received == v.received && Run(v, TurnSteps(r, target)).start == v.start
  {
    var e := Elapsed(r);
    var page := Elapsed(e);
    ElapsedRuns(v, r);
    var x := Run(v, Arrivals(r));
    ElapsedRuns(x, e);
    var y := Run(x, Arrivals(e));
    if Due(page.events, page.after, target) != [] { PageRuns(y, page, target); } else { WaitRuns(y, page, target); }
    RunSplit(v, Arrivals(r), Arrivals(e) + PageSteps(page, target));
    RunSplit(x, Arrivals(e), PageSteps(page, target));
  }

  lemma {:induction false} RespondKeepsRotated(r: Response, target: Option<nat>)
    ensures r.rotated ==> Respond(r, target).rotated
    decreases r.end.None?, r.budget + |r.schedule|
  {
    if r.end.None? { RespondKeepsRotated(Turn(r, target), target); }
  }

  lemma {:induction false} TraceRuns(es: seq<Event>, cursor: nat, v: World, r: Response, target: Option<nat>)
    requires Sending(es, cursor, target, r) && Mirrors(v, r) && !Respond(r, target).rotated
    ensures Mirrors(Run(v, Trace(r, target)), Respond(r, target))
    ensures Run(v, Trace(r, target)).received == v.received && Run(v, Trace(r, target)).start == v.start
    decreases r.end.None?, r.budget + |r.schedule|
  {
    if r.end.None? {
      var t := Turn(r, target);
      RespondKeepsRotated(r, target);
      RespondKeepsRotated(t, target);
      TurnRuns(v, r, target);
      TurnKeepsSending(es, cursor, target, r);
      TraceRuns(es, cursor, Run(v, TurnSteps(r, target)), t, target);
      RunSplit(v, TurnSteps(r, target), Trace(t, target));
    }
  }

  /** Without rotation a response is a run of the connection: the cursor is connected, then its own steps are taken. */
  lemma ResponseIsRun(w: World, schedule: seq<Change>, budget: nat, cursor: nat, target: Option<nat>)
    requires Dense(w.ledger) && w.conn.Closed? && w.wire == [] && cursor <= |w.ledger|
    requires target.Some? ==> target.value == |w.ledger|
    requires !Respond(Opened(w.ledger, schedule, budget, cursor), target).rotated
    ensures var r := Opened(w.ledger, schedule, budget, cursor);
            var v := Run(w, [Connect(cursor)] + Trace(r, target));
            Mirrors(v, Respond(r, target)) && v.received == w.received && v.start == w.start
  {
    var r := Opened(w.ledger, schedule, budget, cursor);
    OpenedIsSending(w.ledger, schedule, budget, cursor, target);
    TraceRuns(w.ledger, cursor, Next(w, Connect(cursor)), r, target);
    assert ([Connect(cursor)] + Trace(r, target))[1..] == Trace(r, target);
  }

  /** Appends by other writers, and page reads and writes by the server. */
  predicate ServerSteps(steps: seq<Step>)
  {
    forall s :: s in steps ==> s.Append? || s.Poll? || s.Write?
  }

  lemma {:induction false} AppendsAreServerSteps(entries: seq<Entry>)
    ensures ServerSteps(Appends(entries))
  {
    if entries != [] { AppendsAreServerSteps(entries[..|entries| - 1]); }
  }

  lemma {:induction false} WritesAreServerSteps(n: nat)
    ensures ServerSteps(Writes(n))
  {
    if n > 0 { WritesAreServerSteps(n - 1); }
  }

  lemma TurnStepsAreServerSteps(r: Response, target: Option<nat>)
    ensures ServerSteps(TurnSteps(r, target))
  {
    var e := Elapsed(r);
    var page := Elapsed(e);
    ArrivalsAreServerSteps(r);
    ArrivalsAreServerSteps(e);
    ArrivalsAreServerSteps(page);
    if Due(page.events, page.after, target) != [] { WritesAreServerSteps(PageTurn(page, target).after - page.after); }
    assert ServerSteps(PageSteps(page, target));
  }

  lemma ArrivalsAreServerSteps(r: Response)
    ensures ServerSteps(Arrivals(r))
  {
    if r.schedule != [] && r.schedule[0].Appended? { AppendsAreServerSteps(r.schedule[0].entries); }
  }

  lemma {:induction false} TraceIsServerSteps(r: Response, target: Option<nat>)
    ensures ServerSteps(Trace(r, target))
    decreases r.end.None?, r.budget + |r.schedule|
  {
    if r.end.None? {
      TurnStepsAreServerSteps(r, target);
      TraceIsServerSteps(Turn(r, target), target);
    }
  }

  lemma {:induction false} ServerStepsRejoin(w: World, steps: seq<Step>)
    requires ServerSteps(steps)
    ensures RejoinsAtLast(w, steps)
    decreases |steps|
  {
    if steps != [] { ServerStepsRejoin(Next(w, steps[0]), steps[1..]); }
  }

  lemma WireContinuesReceived(v: World)
    requires Consistent(v) && v.conn.Open?
    ensures var all := v.received + v.wire; v.start + |all| <= |v.ledger| && all == v.ledger[v.start..v.start + |all|]
  {
    SlicesJoin(v.ledger, v.start, v.start + |v.received|, v.conn.after);
  }

  /**
   What a response writes for a browser that names the last id it received continues what it has, each event once
   and in order.
   */
  lemma ResponseContinuesReceived(w: World, schedule: seq<Change>, budget: nat, cursor: nat, target: Option<nat>)
    requires Consistent(w) && w.conn.Closed? && LastId(w) == Some(cursor)
    requires target.Some? ==> target.value == |w.ledger|
    requires !Respond(Opened(w.ledger, schedule, budget, cursor), target).rotated
    ensures var f := Respond(Opened(w.ledger, schedule, budget, cursor), target);
            var all := w.received + EventsIn(f.frames);
            w.start + |all| <= |f.events| && all == f.events[w.start..w.start + |all|]
  {
    hide Turn, Trace, Next;
    var r := Opened(w.ledger, schedule, budget, cursor);
    var steps := Trace(r, target);
    var all := [Connect(cursor)] + steps;
    assert all[1..] == steps;
    ResponseIsRun(w, schedule, budget, cursor, target);
    TraceIsServerSteps(r, target);
    ServerStepsRejoin(Next(w, Connect(cursor)), steps);
    ExactlyOnceInOrder(w, all);
    WireContinuesReceived(Run(w, all));
  }

  // ---------------------------------------------------------------------------
  // The server's send loop
  // ---------------------------------------------------------------------------

  /** The response body: it accepts `budget` more frames before the peer goes away. */
  class Sink {
    var frames: seq<Frame>
    var budget: nat

    method Write(frame: Frame) returns (ok: bool)
      modifies this
      ensures ok <==> old(budget) > 0
      ensures ok ==> frames == old(frames) + [frame] && budget == old(budget) - 1
      ensures !ok ==> frames == old(frames) && budget == 0
    {
      ok := budget > 0;
      if ok { frames, budget := frames + [frame], budget - 1; }
    }
  }

  class Ledger {
    var events: seq<Event>
    var rotated: bool
    var schedule: seq<Change>

    ghost predicate Valid()
      reads this
    {
      Dense(events)
    }

    /** Other writers take their next turn. */
    method Elapse()
      requires Valid()
      modifies this
      ensures Valid()
      ensures old(schedule) == [] ==> schedule == [] && events == old(events) && rotated == old(rotated)
      ensures old(schedule) != [] ==>
                && schedule == old(schedule)[1..] && events == Changed(old(events), old(schedule)[0])
                && rotated == (old(rotated) || old(schedule)[0].Rotated?)
      ensures !rotated ==> old(events) <= events
    {
      if schedule != [] {
        match schedule[0] {
          case Quiet =>
          case Appended(entries) => events := Numbered(events, entries);
          case Rotated(entries) => events, rotated := Numbered([], entries), true;
        }
        schedule := schedule[1..];
      }
    }
  }

  /** The ledger, the response body and the cursor of the loop as one value. */
  ghost function At(ledger: Ledger, sink: Sink, after: nat, end: Option<End>): Response
    reads ledger, sink
  {
    Response(ledger.events, ledger.rotated, ledger.schedule, sink.frames, sink.budget, after, end)
  }

  /** Frames a page, event by event, and moves the cursor with each event written. */
  method WritePage(sink: Sink, page: seq<Event>, start: nat) returns (after: nat, ok: bool)
    requires Follows(page, start)
    modifies sink
    ensures var n := Fitting(old(sink.budget), page);
            && sink.frames == old(sink.frames) + Framed(page[..n]) && sink.budget == old(sink.budget) - n
            && after == start + n && (ok <==> n == |page|)
  {
    after, ok := start, true;
    for k := 0 to |page|
      invariant after == start + k && ok
      invariant sink.frames == old(sink.frames) + Framed(page[..k]) && sink.budget == old(sink.budget) - k
    {
      ok := sink.Write(EventFrame(page[k]));
      if !ok { return; }
      after := page[k].sequence.value;
      assert page[..k + 1][..k] == page[..k];
    }
    assert page[..|page|] == page;
  }

  /** The page to write next: what follows the cursor now, for a replay up to its target only. */
  method NextPage(ledger: Ledger, after: nat, target: Option<nat>) returns (page: seq<Event>)
    requires ledger.Valid()
    ensures page == Due(ledger.events, after, target) && Follows(page, after)
    ensures target.None? ==> page == Page(ledger.events, after)
    ensures page != [] ==> after + |page| <= |ledger.events| && page == ledger.events[after..after + |page|]
    ensures page == [] <==> after >= |ledger.events| || (target.Some? && after >= target.value)
    ensures target.Some? && after <= target.value ==> after + |page| <= target.value
  {
    DueIsNext(ledger.events, after, target);
    page := Page(ledger.events, after);
    if target.Some? { page := UpTo(page, target.value); }
  }

  /** Waiting ends with a later event, or else with a heartbeat. */
  method Await(ledger: Ledger, sink: Sink, after: nat) returns (ok: bool)
    requires ledger.Valid()
    modifies ledger, sink
    ensures ledger.Valid()
    ensures sink.frames == old(sink.frames) + if after >= |ledger.events| && ok then [Heartbeat] else []
    ensures At(ledger, sink, after, if ok then None else Some(Broken)) == Waited(old(At(ledger, sink, after, None)))
  {
    ok := true;
    ledger.Elapse();
    if Page(ledger.events, after) == [] {
      ok := sink.Write(Heartbeat);
    }
  }

  /** The second half of a pass: write a page, or end a replay, or wait and keep the connection alive. */
  method SendPage(ledger: Ledger, sink: Sink, start: nat, target: Option<nat>) returns (after: nat, end: Option<End>)
    requires ledger.Valid()
    modifies ledger, sink
    ensures ledger.Valid()
    ensures At(ledger, sink, after, end) == PageTurn(old(At(ledger, sink, start, None)), target)
  {
    hide Due, Changed, Framed;
    after, end := start, None;
    var page := NextPage(ledger, start, target);
    if page != [] {
      var ok;
      after, ok := WritePage(sink, page, start);
      if !ok {
        end := Some(Broken);
      } else if target.Some? && after >= target.value {
        end := Some(Finished);
      }
    } else if target.Some? {
      end := Some(Finished);
    } else {
      var ok := Await(ledger, sink, start);
      if !ok { end := Some(Broken); }
    }
  }

  /** One pass of the loop: `end` says how the response ended, if it did. */
  method SendTurn(ledger: Ledger, sink: Sink, start: nat, target: Option<nat>) returns (after: nat, end: Option<End>)
    requires ledger.Valid()
    modifies ledger, sink
    ensures ledger.Valid()
    ensures At(ledger, sink, after, end) == Turn(old(At(ledger, sink, start, None)), target)
  {
    ledger.Elapse();
    if start > |ledger.events| {
      after := start;
      var ok := sink.Write(Reset(|ledger.events|));
      end := Some(if ok then WasReset else Broken);
      return;
    }
    ledger.Elapse();
    after, end := SendPage(ledger, sink, start, target);
  }

  /**
   One event-stream response; a cursor that cannot be read or lies beyond the ledger is refused with nothing
   written.
   */
  method SendSse(ledger: Ledger, sink: Sink, cursor: Result<nat, RequestError>, replay: bool)
    returns (r: Result<End, RequestError>)
    requires ledger.Valid() && !ledger.rotated && sink.frames == []
    modifies ledger, sink
    ensures r.Ok? <==> cursor.Ok? && cursor.value <= |old(ledger.events)|
    ensures r.Err? ==> sink.frames == [] && r.error == if cursor.Err? then cursor.error else FutureCursor
    ensures r.Ok? ==>
              var first := Opened(old(ledger.events), old(ledger.schedule), old(sink.budget), cursor.value);
              var target := if replay then Some(|old(ledger.events)|) else None;
              && Sending(old(ledger.events), cursor.value, target, Respond(first, target))
              && At(ledger, sink, Respond(first, target).after, Some(r.value)) == Respond(first, target)
  {
    if cursor.Err? { return Err(cursor.error); }
    var after: nat, latest: nat := cursor.value, |ledger.events|;
    var target := if replay then Some(latest) else None;
    if after > latest { return Err(FutureCursor); }
    ghost var first := At(ledger, sink, after, None);
    OpenedIsSending(ledger.events, ledger.schedule, sink.budget, after, target);
    RespondKeepsSending(ledger.events, after, target, first);
    var end := None;
    while end.None?
      invariant ledger.Valid()
      invariant Respond(At(ledger, sink, after, end), target) == Respond(first, target)
      decreases end.None?, sink.budget + |ledger.schedule|
    {
      after, end := SendTurn(ledger, sink, after, target);
    }
    return Ok(end.value);
  }
}
