/**
 The model adapter that makes a reservation true at the provider boundary: it
 lowers the delegate's output bound, reserves exactly that bound, streams, and
 reconciles once on every way out of the stream.
 */
module ReservationStream {
  import opened Candidates
  import opened Wrappers
  import opened WorkflowBudget

  /** The delegate's `max_tokens` setting; anything but an integer is unusable. */
  datatype Config = Absent | Unusable | MaxTokens(n: int)

  /** What one provider event says about usage. */
  datatype Event = Silent | Malformed | Usage(tokens: Tokens, cache: int) {
    predicate Valid() { Usage? ==> tokens.NonNegative() && 0 <= cache }
  }

  /** How the provider stream ends if no event is malformed; a consumer that closes it is a failure too. */
  datatype Ending = NormalEnd | ProviderError | ConsumerClose

  /** Why no request is sent. */
  datatype Unsent = ByBudget(error: BudgetError) | Unserialisable

  datatype Raised = Nothing | StreamFailure | Budget(error: BudgetError)

  /** The output bound that the adapter asks the delegate for. */
  function Clamp(l: Ledger, s: Stage, configured: Config): Result<int, BudgetError>
  {
    var wanted := if configured.Absent? then MaxTokens(MAX_REQUEST_OUTPUT) else configured;
    if !wanted.MaxTokens? || wanted.n <= 0 then Err(BadModelConfig)
    else
      match RemainingStageOutput(l, s)
      case Err(e) => Err(e)
      case Ok(remaining) =>
        var allowed := Min(wanted.n, Min(MAX_REQUEST_OUTPUT, remaining));
        if allowed <= 0 then Err(NoAllowance) else Ok(allowed)
  }

  /** The bound that the delegate exposes after it was asked for `allowed`. */
  function Verified(allowed: int, exposed: Config): Result<int, BudgetError>
  {
    if !exposed.MaxTokens? || exposed.n <= 0 then Err(BadModelConfig)
    else if exposed.n > allowed then Err(ClampRefused)
    else Ok(exposed.n)
  }

  /** An output bound that a request of the stage may have under the configured setting. */
  predicate MayAsk(l: Ledger, s: Stage, configured: Config, n: int)
  {
    && 0 < n <= 1_024 && HasStage(l.candidate, s) && n <= RemainingStageOutput(l, s).value
    && (configured.Absent? || (configured.MaxTokens? && n <= configured.n))
  }

  /** The clamp is the largest such bound, and fails exactly when there is none. */
  lemma ClampIsTheLargest(l: Ledger, s: Stage, configured: Config, n: int)
    ensures MayAsk(l, s, configured, n) <==> Clamp(l, s, configured).Ok? && 0 < n <= Clamp(l, s, configured).value
    ensures Clamp(l, s, configured).Ok? ==> MayAsk(l, s, configured, Clamp(l, s, configured).value)
    ensures Clamp(l, s, configured) == Err(BadModelConfig) <==>
            configured.Unusable? || (configured.MaxTokens? && configured.n < 1)
  {}

  // ---------------------------------------------------------------------------
  // Streams of all stages over one ledger, interleaved at every event
  // ---------------------------------------------------------------------------

  datatype Progress = Progress(reservation: Reservation, tokens: Tokens, cache: int, saw: bool)

  datatype Workflow = Workflow(ledger: Ledger, config: map<Stage, Config>, open: map<nat, Progress>)

  /** `bytes` is the length of the serialised request, if it can be serialised. */
  datatype Step =
    | Open(stage: Stage, exposed: Config, bytes: Option<int>)
    | Observe(id: nat, event: Event)
    | End(id: nat, ending: Ending)

  function ConfigOf(w: Workflow, s: Stage): Config
  {
    if s in w.config then w.config[s] else Absent
  }

  /** The bound that an `Open` step reserves, or why no request is sent. */
  function OpenBound(w: Workflow, s: Stage, exposed: Config, bytes: Option<int>): Result<Tokens, Unsent>
  {
    match Clamp(w.ledger, s, ConfigOf(w, s))
    case Err(e) => Err(ByBudget(e))
    case Ok(allowed) =>
      match Verified(allowed, exposed)
      case Err(e) => Err(ByBudget(e))
      case Ok(n) =>
        if bytes.None? then Err(Unserialisable)
        else
          match Refusal(w.ledger, s, Tokens(bytes.value, n))
          case Some(e) => Err(ByBudget(e))
          case None => Ok(Tokens(bytes.value, n))
  }

  function Opened(w: Workflow, s: Stage, exposed: Config, bytes: Option<int>): Workflow
  {
    if Clamp(w.ledger, s, ConfigOf(w, s)).Err? then w
    else
      var clamped := w.(config := w.config[s := exposed]);
      match OpenBound(w, s, exposed, bytes)
      case Err(_) => clamped
      case Ok(bound) =>
        var r := NextReservation(w.ledger, s, bound);
        clamped.(ledger := Admitted(w.ledger, s, bound),
                 open := w.open[r.id := Progress(r, Tokens(0, 0), 0, false)])
  }

  function FinalReport(stream: Progress): Report
  {
    Report(stream.tokens, stream.cache, !stream.saw)
  }

  function Closed(w: Workflow, id: nat): Workflow
    requires id in w.open
  {
    w.(ledger := Reconciled(w.ledger, w.open[id].reservation, FinalReport(w.open[id])).0,
       open := w.open - {id})
  }

  /** The exception with which a stream leaves, after its `finally` block. */
  function RaisedBy(w: Workflow, id: nat, failed: bool): Raised
    requires id in w.open
  {
    if failed then StreamFailure
    else
      match Reconciled(w.ledger, w.open[id].reservation, FinalReport(w.open[id])).1
      case Some(e) => Budget(e)
      case None => if w.open[id].saw then Nothing else Budget(UsageAbsent)
  }

  function Counted(stream: Progress, event: Event): Progress
  {
    match event
    case Usage(t, c) =>
      stream.(tokens := Tokens(stream.tokens.input + t.input, stream.tokens.output + t.output),
              cache := stream.cache + c, saw := true)
    case _ => stream
  }

  function Apply(w: Workflow, step: Step): Workflow
  {
    match step
    case Open(s, exposed, bytes) => Opened(w, s, exposed, bytes)
    case Observe(id, event) =>
      if id !in w.open || !event.Valid() then w
      else if event.Malformed? then Closed(w, id)
      else w.(open := w.open[id := Counted(w.open[id], event)])
    case End(id, _) => if id in w.open then Closed(w, id) else w
  }

  function Run(w: Workflow, steps: seq<Step>): Workflow
    decreases |steps|
  {
    if steps == [] then w else Run(Apply(w, steps[0]), steps[1..])
  }

  function NewWorkflow(c: Candidate): Workflow
  {
    Workflow(Fresh(c), map[], map[])
  }

  ghost predicate Tracks(w: Workflow, id: nat)
    requires id in w.open && id in w.ledger.reservations
  {
    && w.open[id].reservation == w.ledger.reservations[id]
    && w.open[id].tokens.NonNegative() && 0 <= w.open[id].cache
  }

  /** Open streams and outstanding reservations are the same thing. */
  ghost predicate Matched(w: Workflow)
  {
    && w.open.Keys == w.ledger.reservations.Keys
    && forall id :: id in w.open ==> Tracks(w, id)
  }

  ghost predicate Consistent(w: Workflow)
  {
    Sound(w.ledger) && Matched(w)
  }

  lemma OpenKeepsConsistent(w: Workflow, s: Stage, exposed: Config, bytes: Option<int>)
    requires Consistent(w)
    ensures Consistent(Opened(w, s, exposed, bytes))
  {
    var w' := Opened(w, s, exposed, bytes);
    var bound := OpenBound(w, s, exposed, bytes);
    if bound.Ok? {
      AdmissionKeepsSound(w.ledger, s, bound.value);
      assert w'.open.Keys == w.open.Keys + {w.ledger.nextId};
      forall id | id in w'.open ensures Tracks(w', id) { assert id in w.open ==> Tracks(w, id); }
    } else {
      forall id | id in w'.open ensures Tracks(w', id) { assert Tracks(w, id); }
    }
  }

  /**
   Leaving a stream takes its reservation off the table and leaves every other
   one there; the reconciliation is never refused as unknown or malformed.
   */
  lemma CloseReleasesItsReservation(w: Workflow, id: nat)
    requires Consistent(w) && id in w.open
    ensures Consistent(Closed(w, id))
    ensures Closed(w, id).ledger.reservations == w.ledger.reservations - {id}
    ensures id !in Closed(w, id).open
    ensures RaisedBy(w, id, false) in {Nothing, Budget(Underestimated), Budget(UsageAbsent)}
    ensures Closed(w, id).ledger.actualInput == w.ledger.actualInput +
              if w.open[id].saw then w.open[id].tokens.input else w.ledger.reservations[id].bound.input
    ensures Closed(w, id).ledger.actualOutput == w.ledger.actualOutput +
              if w.open[id].saw then w.open[id].tokens.output else w.ledger.reservations[id].bound.output
  {
    assert Tracks(w, id) && OnBooks(w.ledger, id);
    ReconciliationKeepsSound(w.ledger, w.open[id].reservation, FinalReport(w.open[id]));
    var w' := Closed(w, id);
    forall k | k in w'.open ensures Tracks(w', k) { assert Tracks(w, k); }
  }

  lemma ObserveKeepsConsistent(w: Workflow, id: nat, event: Event)
    requires Consistent(w)
    ensures Consistent(Apply(w, Observe(id, event)))
  {
    if id in w.open && event.Valid() {
      if event.Malformed? {
        CloseReleasesItsReservation(w, id);
      } else {
        var w' := Apply(w, Observe(id, event));
        assert w'.open.Keys == w.open.Keys;
        forall k | k in w'.open ensures Tracks(w', k) { assert Tracks(w, k); }
      }
    }
  }

  lemma StepKeepsConsistent(w: Workflow, step: Step)
    requires Consistent(w)
    ensures Consistent(Apply(w, step))
  {
    match step
    case Open(s, exposed, bytes) => OpenKeepsConsistent(w, s, exposed, bytes);
    case Observe(id, event) => ObserveKeepsConsistent(w, id, event);
    case End(id, _) => if id in w.open { CloseReleasesItsReservation(w, id); }
  }

  /** In every interleaving of streams, outstanding reservations are exactly the open streams. */
  lemma {:induction false} RunKeepsConsistent(w: Workflow, steps: seq<Step>)
    requires Consistent(w)
    ensures Consistent(Run(w, steps))
    decreases |steps|
  {
    if steps != [] {
      StepKeepsConsistent(w, steps[0]);
      RunKeepsConsistent(Apply(w, steps[0]), steps[1..]);
    }
  }

  lemma NewIsConsistent(c: Candidate)
    ensures Consistent(NewWorkflow(c))
  {
    FreshIsSound(c);
  }

  lemma NothingOpenNothingReserved(w: Workflow)
    requires Consistent(w) && w.open == map[]
    ensures w.ledger.reservations == map[] && w.ledger.reservedInput == 0 && w.ledger.reservedOutput == 0
  {
    assert w.ledger.reservations.Keys == {};
    HeldNothing(w.ledger.nextId, None, false);
    HeldNothing(w.ledger.nextId, None, true);
  }

  /** Once every stream of a workflow has ended, nothing is reserved any more. */
  lemma AllEndedMeansNothingReserved(c: Candidate, steps: seq<Step>, w: Workflow)
    requires w == Run(NewWorkflow(c), steps) && w.open == map[]
    ensures w.ledger.reservations == map[] && w.ledger.reservedInput == 0 && w.ledger.reservedOutput == 0
  {
    NewIsConsistent(c);
    RunKeepsConsistent(NewWorkflow(c), steps);
    NothingOpenNothingReserved(w);
  }

  // ---------------------------------------------------------------------------
  // The bound only goes down
  // ---------------------------------------------------------------------------

  /** The delegate of stage `s` takes every clamp that a step asks of it. */
  predicate TakesClamp(w: Workflow, step: Step, s: Stage)
  {
    step.Open? && step.stage == s && Clamp(w.ledger, s, ConfigOf(w, s)).Ok? ==>
      Verified(Clamp(w.ledger, s, ConfigOf(w, s)).value, step.exposed).Ok?
  }

  predicate TakesClamps(w: Workflow, steps: seq<Step>, s: Stage)
    decreases |steps|
  {
    steps == [] || (TakesClamp(w, steps[0], s) && TakesClamps(Apply(w, steps[0]), steps[1..], s))
  }

  lemma {:induction false} BoundNeverRises(w: Workflow, steps: seq<Step>, s: Stage, bound: int)
    requires ConfigOf(w, s).MaxTokens? && ConfigOf(w, s).n <= bound
    requires TakesClamps(w, steps, s)
    ensures ConfigOf(Run(w, steps), s).MaxTokens? && ConfigOf(Run(w, steps), s).n <= bound
    decreases |steps|
  {
    if steps != [] {
      BoundNeverRises(Apply(w, steps[0]), steps[1..], s, bound);
    }
  }

  /** Of two requests of one stage, the later one never reserves more output than the earlier one. */
  lemma LaterBoundIsNotLarger(w: Workflow, first: Step, between: seq<Step>, last: Step, s: Stage)
    requires first.Open? && last.Open? && first.stage == last.stage == s
    requires OpenBound(w, s, first.exposed, first.bytes).Ok?
    requires TakesClamps(Apply(w, first), between, s)
    requires OpenBound(Run(Apply(w, first), between), s, last.exposed, last.bytes).Ok?
    ensures OpenBound(Run(Apply(w, first), between), s, last.exposed, last.bytes).value.output
            <= OpenBound(w, s, first.exposed, first.bytes).value.output
  {
    BoundNeverRises(Apply(w, first), between, s, OpenBound(w, s, first.exposed, first.bytes).value.output);
  }

  /**
   After a refused clamp the next request starts from whatever the delegate exposes instead: the bound rises
   exactly when that is no bound at all, or a higher one, and the refused clamp was below the other two limits.
   */
  lemma RefusedClampRaisesBound(w: Workflow, s: Stage, exposed: Config, bytes: Option<int>)
    requires Clamp(w.ledger, s, ConfigOf(w, s)).Ok?
    requires Verified(Clamp(w.ledger, s, ConfigOf(w, s)).value, exposed).Err?
    ensures var before := Clamp(w.ledger, s, ConfigOf(w, s)).value;
            var w' := Opened(w, s, exposed, bytes);
            var next := Clamp(w'.ledger, s, ConfigOf(w', s));
            && w'.ledger == w.ledger
            && (next.Ok? && before < next.value <==>
                  && (exposed.Absent? || (exposed.MaxTokens? && before < exposed.n))
                  && before < Min(MAX_REQUEST_OUTPUT, RemainingStageOutput(w.ledger, s).value))
  {}

  lemma FreshSingle() returns (l: Ledger)
    ensures l == Fresh(SingleCandidate) && RemainingStageOutput(l, Single) == Ok(6_000)
    ensures forall n :: 0 < n <= MAX_REQUEST_OUTPUT ==> Refusal(l, Single, Tokens(1, n)).None?
  {
    l := Fresh(SingleCandidate);
  }

  /** For one: a request bounded by 500, a refused clamp, and then a request bounded by 900. */
  lemma BoundRisesAfterRefusedClamp() returns (w: Workflow)
    ensures w.ledger == Fresh(SingleCandidate) && OpenBound(w, Single, MaxTokens(500), Some(1)) == Ok(Tokens(1, 500))
    ensures OpenBound(w, Single, MaxTokens(900), Some(1)) == Err(ByBudget(ClampRefused))
    ensures OpenBound(Opened(w, Single, MaxTokens(900), Some(1)), Single, MaxTokens(900), Some(1)) == Ok(Tokens(1, 900))
  {
    var l := FreshSingle();
    w := Workflow(l, map[Single := MaxTokens(500)], map[]);
    assert Clamp(l, Single, MaxTokens(500)) == Ok(500) && Clamp(l, Single, MaxTokens(900)) == Ok(900);
  }

  /** For another: the delegate drops its bound of 500 when it is asked, and the next request is bounded by 1024. */
  lemma BoundRisesAfterDroppedBound() returns (w: Workflow)
    ensures w.ledger == Fresh(SingleCandidate) && OpenBound(w, Single, MaxTokens(500), Some(1)) == Ok(Tokens(1, 500))
    ensures OpenBound(w, Single, Absent, Some(1)) == Err(ByBudget(BadModelConfig))
    ensures OpenBound(Opened(w, Single, Absent, Some(1)), Single, MaxTokens(1_024), Some(1)) == Ok(Tokens(1, 1_024))
  {
    var l := FreshSingle();
    w := Workflow(l, map[Single := MaxTokens(500)], map[]);
    assert Clamp(l, Single, MaxTokens(500)) == Ok(500) && Clamp(l, Single, Absent) == Ok(1_024);
  }

  // ---------------------------------------------------------------------------
  // What a stream has counted
  // ---------------------------------------------------------------------------

  datatype Tally = Tally(tokens: Tokens, cache: int, saw: bool, malformed: bool)

  function Add(t: Tally, e: Event): Tally
  {
    if t.malformed then t
    else
      match e
      case Silent => t
      case Malformed => t.(malformed := true)
      case Usage(u, c) => Tally(Tokens(t.tokens.input + u.input, t.tokens.output + u.output), t.cache + c, true, false)
  }

  /** The usage that the events add up to, until the first malformed one. */
  function Tallied(events: seq<Event>): Tally
  {
    if events == [] then Tally(Tokens(0, 0), 0, false, false)
    else Add(Tallied(events[..|events| - 1]), events[|events| - 1])
  }

  lemma {:induction false} TallyStopsAtMalformed(events: seq<Event>, i: nat)
    requires i <= |events|
    requires i == |events| || Tallied(events[..i]).malformed
    ensures Tallied(events) == Tallied(events[..i])
    decreases |events|
  {
    if i < |events| {
      var front := events[..|events| - 1];
      assert front[..i] == events[..i];
      TallyStopsAtMalformed(front, i);
    } else {
      assert events[..i] == events;
    }
  }

  /** The events that steps show to stream `id`. */
  function Seen(steps: seq<Step>, id: nat): seq<Event>
  {
    if steps == [] then []
    else
      var last := steps[|steps| - 1];
      Seen(steps[..|steps| - 1], id) + if last.Observe? && last.id == id && last.event.Valid() then [last.event] else []
  }

  lemma {:induction false} RunSplit(w: Workflow, a: seq<Step>, b: seq<Step>)
    ensures Run(w, a + b) == Run(Run(w, a), b)
    decreases |a|
  {
    if a == [] {
      assert a + b == b;
    } else {
      assert (a + b)[1..] == a[1..] + b;
      RunSplit(Apply(w, a[0]), a[1..], b);
    }
  }

  lemma RunThen(w: Workflow, a: seq<Step>, step: Step)
    ensures Run(w, a + [step]) == Apply(Run(w, a), step)
  {
    RunSplit(w, a, [step]);
    assert Run(Run(w, a), [step]) == Run(Apply(Run(w, a), step), []);
  }

  // A stream that has ended does not come back, because ids are never used again.
  lemma EndedStaysEnded(w: Workflow, step: Step, id: nat)
    requires Consistent(w) && id < w.ledger.nextId && id !in w.open
    ensures id < Apply(w, step).ledger.nextId && id !in Apply(w, step).open
  {}

  lemma IdsOnlyGrow(w: Workflow, step: Step)
    ensures w.ledger.nextId <= Apply(w, step).ledger.nextId
  {}

  lemma {:induction false} RunIdsGrow(w: Workflow, steps: seq<Step>, id: nat)
    requires Consistent(w) && id < w.ledger.nextId
    ensures Consistent(Run(w, steps)) && id < Run(w, steps).ledger.nextId
    decreases |steps|
  {
    if steps != [] {
      StepKeepsConsistent(w, steps[0]);
      IdsOnlyGrow(w, steps[0]);
      RunIdsGrow(Apply(w, steps[0]), steps[1..], id);
    }
  }

  /** The progress of a stream that has counted `t`. */
  function Having(r: Reservation, t: Tally): Progress
  {
    Progress(r, t.tokens, t.cache, t.saw)
  }

  ghost predicate HoldsTally(w: Workflow, id: nat, r: Reservation, events: seq<Event>)
  {
    id in w.open ==> w.open[id] == Having(r, Tallied(events)) && !Tallied(events).malformed
  }

  lemma StepKeepsTally(w: Workflow, step: Step, id: nat, r: Reservation, events: seq<Event>)
    requires Consistent(w) && id < w.ledger.nextId && HoldsTally(w, id, r, events)
    ensures HoldsTally(Apply(w, step), id, r,
              if step.Observe? && step.id == id && step.event.Valid() then events + [step.event] else events)
  {
    hide Consistent, OpenBound, Admitted, Reconciled, Tallied;
    if id !in w.open { EndedStaysEnded(w, step, id); }
    if step.Observe? && step.id == id && step.event.Valid() { TalliedNext(events, step.event); }
  }

  lemma {:induction false} RunKeepsTally(w: Workflow, steps: seq<Step>, id: nat, r: Reservation)
    requires Consistent(w) && id < w.ledger.nextId && HoldsTally(w, id, r, [])
    ensures HoldsTally(Run(w, steps), id, r, Seen(steps, id))
  {
    if steps != [] {
      var start, last := steps[..|steps| - 1], steps[|steps| - 1];
      assert steps == start + [last];
      RunKeepsTally(w, start, id, r);
      RunIdsGrow(w, start, id);
      StepKeepsTally(Run(w, start), last, id, r, Seen(start, id));
      RunThen(w, start, last);
      assert Seen(start, id) + [] == Seen(start, id);
    }
  }

  /**
   In every interleaving, a stream that is still open has counted exactly the usage events shown to it, in order,
   and none of them was malformed: what it will be charged is their sum.
   */
  lemma OpenStreamHoldsItsTally(w: Workflow, s: Stage, exposed: Config, bytes: Option<int>, steps: seq<Step>)
    requires Consistent(w) && OpenBound(w, s, exposed, bytes).Ok?
    ensures var bound := OpenBound(w, s, exposed, bytes).value;
            HoldsTally(Run(Opened(w, s, exposed, bytes), steps), w.ledger.nextId,
                       NextReservation(w.ledger, s, bound), Seen(steps, w.ledger.nextId))
  {
    OpenKeepsConsistent(w, s, exposed, bytes);
    RunKeepsTally(Opened(w, s, exposed, bytes), steps, w.ledger.nextId,
                  NextReservation(w.ledger, s, OpenBound(w, s, exposed, bytes).value));
  }

  lemma TalliedNext(events: seq<Event>, e: Event)
    ensures Tallied(events + [e]) == Add(Tallied(events), e)
  {
    assert (events + [e])[..|events|] == events;
  }

  // ---------------------------------------------------------------------------
  // What a stream adds up to, and how it leaves
  // ---------------------------------------------------------------------------

  function InputOf(events: seq<Event>): int
  {
    if events == [] then 0 else (if events[0].Usage? then events[0].tokens.input else 0) + InputOf(events[1..])
  }

  function OutputOf(events: seq<Event>): int
  {
    if events == [] then 0 else (if events[0].Usage? then events[0].tokens.output else 0) + OutputOf(events[1..])
  }

  function CacheOf(events: seq<Event>): int
  {
    if events == [] then 0 else (if events[0].Usage? then events[0].cache else 0) + CacheOf(events[1..])
  }

  predicate SawUsage(events: seq<Event>)
  {
    exists i :: 0 <= i < |events| && events[i].Usage?
  }

  predicate SawMalformed(events: seq<Event>)
  {
    exists i :: 0 <= i < |events| && events[i].Malformed?
  }

  lemma {:induction false} SumsAppend(events: seq<Event>, e: Event)
    ensures InputOf(events + [e]) == InputOf(events) + if e.Usage? then e.tokens.input else 0
    ensures OutputOf(events + [e]) == OutputOf(events) + if e.Usage? then e.tokens.output else 0
    ensures CacheOf(events + [e]) == CacheOf(events) + if e.Usage? then e.cache else 0
  {
    if events == [] {
      assert events + [e] == [e];
    } else {
      assert (events + [e])[1..] == events[1..] + [e];
      SumsAppend(events[1..], e);
    }
  }

  lemma SawAppend(events: seq<Event>, e: Event)
    ensures SawUsage(events + [e]) <==> SawUsage(events) || e.Usage?
    ensures SawMalformed(events + [e]) <==> SawMalformed(events) || e.Malformed?
  {
    var all := events + [e];
    assert all[|events|] == e && forall i :: 0 <= i < |events| ==> all[i] == events[i];
  }

  /** What is counted is the sum of the usage events, as long as none is malformed. */
  lemma {:induction false} TallyIsSum(events: seq<Event>)
    ensures Tallied(events).malformed <==> SawMalformed(events)
    ensures !SawMalformed(events) ==>
              Tallied(events)
              == Tally(Tokens(InputOf(events), OutputOf(events)), CacheOf(events), SawUsage(events), false)
    decreases |events|
  {
    if events != [] {
      var front, e := events[..|events| - 1], events[|events| - 1];
      assert events == front + [e];
      TallyIsSum(front);
      SumsAppend(front, e);
      SawAppend(front, e);
    }
  }

  /** A stream fails if an event is malformed, or the provider or the consumer ends it early. */
  predicate Fails(events: seq<Event>, ending: Ending)
  {
    SawMalformed(events) || ending != NormalEnd
  }

  predicate WithinBound(events: seq<Event>, bound: Tokens)
  {
    InputOf(events) <= bound.input && OutputOf(events) <= bound.output
  }

  /** How a stream leaves while nothing of its workflow was underestimated. */
  predicate LeavesAs(raised: Raised, bound: Tokens, events: seq<Event>, ending: Ending)
  {
    && (raised == Nothing <==> !Fails(events, ending) && SawUsage(events) && WithinBound(events, bound))
    && (raised == Budget(UsageAbsent) <==> !Fails(events, ending) && !SawUsage(events))
    && (raised == Budget(Underestimated) <==>
          !Fails(events, ending) && SawUsage(events) && !WithinBound(events, bound))
  }

  /** The exception that leaves is decided by the events, the ending and the bound. */
  lemma ExceptionThatLeaves(w: Workflow, id: nat, events: seq<Event>, ending: Ending)
    requires Consistent(w) && id in w.open && forall e :: e in events ==> e.Valid()
    requires w.open[id] == Having(w.open[id].reservation, Tallied(events))
    ensures var raised := RaisedBy(w, id, Tallied(events).malformed || ending != NormalEnd);
            && (raised == StreamFailure <==> Fails(events, ending))
            && (!w.ledger.underestimated ==> LeavesAs(raised, w.open[id].reservation.bound, events, ending))
  {
    TallyIsSum(events);
    assert Tracks(w, id);
    if !w.ledger.underestimated {
      FirstUnderestimateIsItsOwn(w.ledger, w.open[id].reservation, FinalReport(w.open[id]));
    }
  }

  // ---------------------------------------------------------------------------
  // The adapter's share of a run
  // ---------------------------------------------------------------------------

  /** A step of another adapter: another stage's request, or another stream's event or end. */
  predicate IsPeerStep(step: Step, s: Stage, id: nat)
  {
    match step
    case Open(t, _, _) => t != s
    case Observe(k, _) => k != id
    case End(k, _) => k != id
  }

  predicate ArePeerSteps(steps: seq<Step>, s: Stage, id: nat)
  {
    forall step :: step in steps ==> IsPeerStep(step, s, id)
  }

  /** The steps of a run that are not another adapter's. */
  function Own(steps: seq<Step>, s: Stage, id: nat): seq<Step>
  {
    if steps == [] then []
    else
      var last := steps[|steps| - 1];
      Own(steps[..|steps| - 1], s, id) + if IsPeerStep(last, s, id) then [] else [last]
  }

  function Observations(id: nat, events: seq<Event>): seq<Step>
  {
    if events == [] then [] else Observations(id, events[..|events| - 1]) + [Observe(id, events[|events| - 1])]
  }

  /** The position of the first malformed event, or the end. */
  function FirstMalformed(events: seq<Event>): (k: nat)
    ensures k <= |events| && (k < |events| ==> events[k].Malformed?)
    ensures forall j :: 0 <= j < k ==> !events[j].Malformed?
  {
    if events == [] || events[0].Malformed? then 0 else 1 + FirstMalformed(events[1..])
  }

  function Closing(id: nat, events: seq<Event>, ending: Ending): Step
  {
    if FirstMalformed(events) < |events| then Observe(id, Malformed) else End(id, ending)
  }

  /** What one stream does: it opens, observes the events before the first malformed one, and is closed. */
  function Script(s: Stage, exposed: Config, bytes: Option<int>, id: nat, events: seq<Event>, ending: Ending): seq<Step>
  {
    [Open(s, exposed, bytes)] + Observations(id, events[..FirstMalformed(events)]) + [Closing(id, events, ending)]
  }

  lemma OwnThen(steps: seq<Step>, step: Step, s: Stage, id: nat)
    ensures Own(steps + [step], s, id) ==
            if IsPeerStep(step, s, id) then Own(steps, s, id) else Own(steps, s, id) + [step]
  {
    assert (steps + [step])[..|steps|] == steps;
  }

  lemma {:induction false} PeersAddNothing(steps: seq<Step>, peers: seq<Step>, s: Stage, id: nat)
    requires ArePeerSteps(peers, s, id)
    ensures Own(steps + peers, s, id) == Own(steps, s, id)
  {
    if peers == [] {
      assert steps + peers == steps;
    } else {
      var front, last := peers[..|peers| - 1], peers[|peers| - 1];
      assert steps + peers == (steps + front) + [last];
      OwnThen(steps + front, last, s, id);
      PeersAddNothing(steps, front, s, id);
    }
  }

  // Other adapters leave a stream, and its stage's delegate, as they are.
  lemma PeerLeavesStream(w: Workflow, step: Step, s: Stage, id: nat)
    requires Consistent(w) && id in w.open && IsPeerStep(step, s, id)
    ensures id in Apply(w, step).open && Apply(w, step).open[id] == w.open[id]
    ensures ConfigOf(Apply(w, step), s) == ConfigOf(w, s)
  {
    assert Tracks(w, id) && OnBooks(w.ledger, id);
  }

  /** `steps` lead from `w` to `v`, where stream `id` is still open and has counted `t`. */
  ghost predicate Reading(w: Workflow, v: Workflow, steps: seq<Step>, id: nat, t: Tally)
  {
    && v == Run(w, steps) && !t.malformed
    && id in w.open && id in v.open && v.open[id] == Having(w.open[id].reservation, t)
  }

  lemma ObserveKeepsReading(w: Workflow, v: Workflow, steps: seq<Step>, id: nat, t: Tally, e: Event)
    requires Reading(w, v, steps, id, t) && e.Valid() && !e.Malformed?
    ensures Reading(w, Apply(v, Observe(id, e)), steps + [Observe(id, e)], id, Add(t, e))
  {
    RunThen(w, steps, Observe(id, e));
  }

  lemma PeersKeepReading(w: Workflow, v: Workflow, steps: seq<Step>, peers: seq<Step>, id: nat, t: Tally)
    requires Reading(w, v, steps, id, t)
    requires id in Run(v, peers).open && Run(v, peers).open[id] == v.open[id]
    ensures Reading(w, Run(v, peers), steps + peers, id, t)
  {
    RunSplit(w, steps, peers);
  }

  /** The first `i` events add up to `t`, and the adapter's own steps have observed exactly these. */
  ghost predicate Observed(events: seq<Event>, i: nat, t: Tally, steps: seq<Step>, s: Stage, id: nat)
  {
    && i <= |events| && Tallied(events[..i]) == t && Own(steps, s, id) == Observations(id, events[..i])
    && forall j :: 0 <= j < i ==> !events[j].Malformed?
  }

  lemma ObservedNext(events: seq<Event>, i: nat, t: Tally, steps: seq<Step>, more: seq<Step>, s: Stage, id: nat)
    requires Observed(events, i, t, steps, s, id) && i < |events| && !events[i].Malformed?
    requires Own(more, s, id) == Own(steps, s, id) + [Observe(id, events[i])]
    ensures Observed(events, i + 1, Add(t, events[i]), more, s, id)
  {
    assert events[..i + 1][..i] == events[..i];
    TallyOfNext(events, i);
  }

  lemma ObservedAll(events: seq<Event>, i: nat, t: Tally, steps: seq<Step>, s: Stage, id: nat)
    requires Observed(events, i, t, steps, s, id) && !t.malformed
    requires i < |events| ==> events[i].Malformed?
    ensures i == FirstMalformed(events) && Tallied(events) == t.(malformed := i < |events|)
  {
    FirstMalformedIs(events, i);
    TallyAtEnd(events, i, t);
  }

  lemma FirstMalformedIs(events: seq<Event>, i: nat)
    requires i <= |events| && (i < |events| ==> events[i].Malformed?)
    requires forall j :: 0 <= j < i ==> !events[j].Malformed?
    ensures i == FirstMalformed(events)
  {
    var k := FirstMalformed(events);
    assert k < |events| ==> events[k].Malformed?;
  }

  lemma TallyOfNext(events: seq<Event>, i: nat)
    requires i < |events|
    ensures Tallied(events[..i + 1]) == Add(Tallied(events[..i]), events[i])
  {
    assert events[..i + 1] == events[..i] + [events[i]];
    TalliedNext(events[..i], events[i]);
  }

  lemma TallyAtEnd(events: seq<Event>, i: nat, t: Tally)
    requires i <= |events| && Tallied(events[..i]) == t && !t.malformed
    requires i < |events| ==> events[i].Malformed?
    ensures Tallied(events) == t.(malformed := i < |events|)
  {
    if i == |events| {
      assert events[..i] == events;
    } else {
      TallyOfNext(events, i);
      TallyStopsAtMalformed(events, i + 1);
    }
  }

  lemma ScriptIsOwn(w: Workflow, first: Step, steps: seq<Step>, closing: Step, s: Stage, id: nat)
    requires !IsPeerStep(first, s, id) && !IsPeerStep(closing, s, id)
    ensures Own([first] + steps + [closing], s, id) == [first] + Own(steps, s, id) + [closing]
    ensures ([first] + steps + [closing])[..|steps| + 1] == [first] + steps
    ensures Run(w, [first] + steps) == Run(Apply(w, first), steps)
    ensures Run(w, [first] + steps + [closing]) == Apply(Run(Apply(w, first), steps), closing)
  {
    OwnThen([first] + steps, closing, s, id);
    OwnAfter(first, steps, s, id);
    assert ([first] + steps)[1..] == steps;
    RunThen(w, [first] + steps, closing);
  }

  lemma {:induction false} OwnAfter(first: Step, steps: seq<Step>, s: Stage, id: nat)
    requires !IsPeerStep(first, s, id)
    ensures Own([first] + steps, s, id) == [first] + Own(steps, s, id)
  {
    if steps == [] {
      assert [first] + steps == [] + [first];
      OwnThen([], first, s, id);
    } else {
      var front, last := steps[..|steps| - 1], steps[|steps| - 1];
      assert [first] + steps == ([first] + front) + [last];
      OwnThen([first] + front, last, s, id);
      OwnAfter(first, front, s, id);
    }
  }

  // ---------------------------------------------------------------------------
  // The adapter object
  // ---------------------------------------------------------------------------

  datatype Outcome = Refused(error: Unsent) | Left(reservation: Reservation, report: Report, raised: Raised)

  /**
   In `last` the stream is open and has counted `t`; its one reconciliation leads to `after`, and this is how it
   leaves.
   */
  ghost predicate LeavesWith(
    last: Workflow, r: Reservation, t: Tally, ending: Ending, outcome: Outcome, after: Workflow)
  {
    && r.id in last.open && last.open[r.id] == Having(r, t) && after == Closed(last, r.id)
    && outcome == Left(r, FinalReport(last.open[r.id]), RaisedBy(last, r.id, t.malformed || ending != NormalEnd))
  }

  lemma ScriptPerformed(
    w: Workflow, begun: Workflow, v: Workflow, steps: seq<Step>,
    s: Stage, exposed: Config, bytes: Option<int>, id: nat, events: seq<Event>, ending: Ending)
    requires begun == Opened(w, s, exposed, bytes) && v == Run(begun, steps) && id in v.open
    requires Own(steps, s, id) == Observations(id, events[..FirstMalformed(events)])
    ensures var trace := [Open(s, exposed, bytes)] + steps + [Closing(id, events, ending)];
            && Own(trace, s, id) == Script(s, exposed, bytes, id, events, ending)
            && v == Run(w, trace[..|trace| - 1]) && Closed(v, id) == Run(w, trace)
  {
    ScriptIsOwn(w, Open(s, exposed, bytes), steps, Closing(id, events, ending), s, id);
  }

  lemma RunOfOne(w: Workflow, step: Step)
    ensures Run(w, [step]) == Apply(w, step)
  {
    assert Run(w, [step]) == Run(Apply(w, step), []);
  }

  class StrictReservationModel {
    const ledger: StrictWorkflowLedger
    const stage: Stage
    var config: Config
    /** The bound that the delegate was last asked for. */
    ghost var asked: Option<int>

    constructor (ledger: StrictWorkflowLedger, stage: Stage, config: Config)
      ensures this.ledger == ledger && this.stage == stage && this.config == config
    {
      this.ledger := ledger;
      this.stage := stage;
      this.config := config;
    }

    /** The ledger and the delegate are those of the workflow `w`. */
    ghost predicate Mirrors(w: Workflow)
      reads this, ledger
    {
      ledger.State() == w.ledger && ConfigOf(w, stage) == config
    }

    /** The delegate may set anything when it is asked for a new bound. */
    method UpdateDelegate(maxTokens: int)
      modifies this`config, this`asked
      ensures asked == Some(maxTokens)
    {
      config, asked := *, Some(maxTokens);
    }

    method SetProviderOutputBound() returns (r: Result<int, BudgetError>)
      modifies this`config, this`asked
      ensures match Clamp(ledger.State(), stage, old(config))
              case Err(e) => r == Err(e) && config == old(config) && asked == old(asked)
              case Ok(allowed) => asked == Some(allowed) && r == Verified(allowed, config)
      ensures r.Ok? ==> asked.Some? && config == MaxTokens(r.value) && 0 < r.value <= asked.value
      ensures r.Err? && asked != old(asked) ==> !config.MaxTokens? || config.n <= 0 || config.n > asked.value
    {
      var configured := if config.Absent? then MaxTokens(MAX_REQUEST_OUTPUT) else config;
      if !configured.MaxTokens? || configured.n <= 0 { return Err(BadModelConfig); }
      var remaining := ledger.RemainingOutput(stage);
      if remaining.Err? { return remaining; }
      var allowed := Min(configured.n, Min(MAX_REQUEST_OUTPUT, remaining.value));
      if allowed <= 0 { return Err(NoAllowance); }
      UpdateDelegate(allowed);
      if !config.MaxTokens? || config.n <= 0 { return Err(BadModelConfig); }
      if config.n > allowed { return Err(ClampRefused); }
      r := Ok(config.n);
    }

    /** One step of another adapter, on the shared ledger. */
    method PeerRuns(w: Workflow, step: Step)
      requires Consistent(w) && ledger.State() == w.ledger
      modifies ledger
      ensures ledger.State() == Apply(w, step).ledger
    {
      match step {
        case Open(s, exposed, bytes) =>
          var bound := OpenBound(w, s, exposed, bytes);
          if bound.Ok? { var _ := ledger.Reserve(s, bound.value); }
        case Observe(id, event) =>
          if id in w.open && event.Malformed? {
            var _ := ledger.Reconcile(w.open[id].reservation, FinalReport(w.open[id]));
          }
        case End(id, _) =>
          if id in w.open { var _ := ledger.Reconcile(w.open[id].reservation, FinalReport(w.open[id])); }
      }
    }

    /** Other adapters of the workflow use the ledger while stream `id` waits for its consumer. */
    method OthersRun(w: Workflow, id: nat) returns (v: Workflow, ghost steps: seq<Step>)
      requires Consistent(w) && Mirrors(w) && id in w.open
      modifies ledger
      ensures v == Run(w, steps) && ArePeerSteps(steps, stage, id)
      ensures Consistent(v) && Mirrors(v) && id in v.open && v.open[id] == w.open[id]
    {
      v, steps := w, [];
      var n: nat :| true;
      for i := 0 to n
        invariant v == Run(w, steps) && ArePeerSteps(steps, stage, id)
        invariant Consistent(v) && Mirrors(v) && id in v.open && v.open[id] == w.open[id]
      {
        var step: Step := *;
        if IsPeerStep(step, stage, id) {
          PeerRuns(v, step);
          StepKeepsConsistent(v, step);
          PeerLeavesStream(v, step, stage, id);
          RunThen(w, steps, step);
          v, steps := Apply(v, step), steps + [step];
        }
      }
    }

    /** The loop over the provider's events, up to the first malformed one. */
    method Consume(w: Workflow, id: nat, events: seq<Event>) returns (t: Tally, v: Workflow, ghost steps: seq<Step>)
      requires Consistent(w) && Mirrors(w) && forall e :: e in events ==> e.Valid()
      requires id in w.open && w.open[id] == Progress(w.open[id].reservation, Tokens(0, 0), 0, false)
      modifies ledger
      ensures Mirrors(v) && Reading(w, v, steps, id, t.(malformed := false)) && t == Tallied(events)
      ensures Own(steps, stage, id) == Observations(id, events[..FirstMalformed(events)])
      ensures t.malformed <==> FirstMalformed(events) < |events|
    {
      var i, malformed := 0, false;
      t, v, steps := Tally(Tokens(0, 0), 0, false, false), w, [];
      while i < |events| && !malformed
        invariant Mirrors(v) && Reading(w, v, steps, id, t) && Observed(events, i, t, steps, stage, id)
        invariant malformed ==> i < |events| && events[i].Malformed?
        decreases |events| - i, !malformed
      {
        var e := events[i];
        assert e in events;
        if e.Malformed? {
          malformed := true;
        } else {
          ghost var before := steps;
          v, steps := Show(w, v, steps, id, t, e);
          ObservedNext(events, i, t, before, steps, stage, id);
          if e.Usage? {
            var tokens := Tokens(t.tokens.input + e.tokens.input, t.tokens.output + e.tokens.output);
            t := Tally(tokens, t.cache + e.cache, true, false);
          }
          i := i + 1;
        }
      }
      ObservedAll(events, i, t, steps, stage, id);
      t := t.(malformed := malformed);
    }

    /** The event goes to the consumer, and others run until the consumer asks for the next one. */
    method Show(ghost w: Workflow, v: Workflow, ghost steps: seq<Step>, id: nat, ghost t: Tally, e: Event)
      returns (next: Workflow, ghost more: seq<Step>)
      requires Consistent(w) && Mirrors(v) && Reading(w, v, steps, id, t) && e.Valid() && !e.Malformed?
      modifies ledger
      ensures Mirrors(next) && Reading(w, next, more, id, Add(t, e))
      ensures Own(more, stage, id) == Own(steps, stage, id) + [Observe(id, e)]
    {
      ObserveKeepsReading(w, v, steps, id, t, e);
      OwnThen(steps, Observe(id, e), stage, id);
      RunKeepsConsistent(w, steps);
      ObserveKeepsConsistent(v, id, e);
      var shown := Apply(v, Observe(id, e));
      more := steps + [Observe(id, e)];
      ghost var peers;
      next, peers := OthersRun(shown, id);
      PeersKeepReading(w, shown, more, peers, id, Add(t, e));
      PeersAddNothing(more, peers, stage, id);
      more := more + peers;
    }

    /** The clamp, the serialised request and the reservation. */
    method Begin(w: Workflow, bytes: Option<int>) returns (r: Result<Reservation, Unsent>, next: Workflow)
      requires Consistent(w) && Mirrors(w)
      modifies this`config, this`asked, ledger
      ensures next == Opened(w, stage, config, bytes) && Mirrors(next)
      ensures match OpenBound(w, stage, config, bytes)
              case Err(e) => r == Err(e)
              case Ok(bound) => r == Ok(NextReservation(w.ledger, stage, bound)) && config == MaxTokens(bound.output)
    {
      var bound := SetProviderOutputBound();
      next := Opened(w, stage, config, bytes);
      if bound.Err? { return Err(ByBudget(bound.error)), next; }
      if bytes.None? { return Err(Unserialisable), next; }
      var reserved := ledger.Reserve(stage, Tokens(bytes.value, bound.value));
      r := if reserved.Ok? then Ok(reserved.value) else Err(ByBudget(reserved.error));
    }

    /** The reconciliation on the way out, and the exception that leaves. */
    method Finish(v: Workflow, r: Reservation, t: Tally, ending: Ending) returns (raised: Raised, after: Workflow)
      requires Consistent(v) && Mirrors(v) && r.id in v.open && v.open[r.id] == Having(r, t)
      modifies ledger
      ensures after == Closed(v, r.id) && Mirrors(after)
      ensures raised == RaisedBy(v, r.id, t.malformed || ending != NormalEnd)
      ensures raised == StreamFailure <==> t.malformed || ending != NormalEnd
      ensures raised == Nothing ==> t.saw
      ensures raised == Budget(UsageAbsent) ==> !t.saw
    {
      var error := ledger.Reconcile(r, Report(t.tokens, t.cache, !t.saw));
      assert Tracks(v, r.id);
      after := Closed(v, r.id);
      if t.malformed || ending != NormalEnd { return StreamFailure, after; }
      raised := if error.Some? then Budget(error.value) else if t.saw then Nothing else Budget(UsageAbsent);
    }

    /**
     One provider request of a workflow whose other adapters run in between. The ledger and the delegate go
     through exactly the steps of one stream: it opens under the bound that the delegate exposes; it observes its
     events; and on every way out it reconciles once what the events up to the first malformed one add up to.
     `last` is the workflow just before that.
     */
    method Stream(w: Workflow, bytes: Option<int>, events: seq<Event>, ending: Ending)
      returns (outcome: Outcome, after: Workflow, ghost trace: seq<Step>, ghost last: Workflow)
      requires Consistent(w) && Mirrors(w) && forall e :: e in events ==> e.Valid()
      modifies this`config, this`asked, ledger
      ensures Mirrors(after) && after == Run(w, trace)
      ensures match OpenBound(w, stage, config, bytes)
              case Err(e) => outcome == Refused(e) && trace == [Open(stage, config, bytes)]
              case Ok(bound) =>
                && config == MaxTokens(bound.output)
                && Own(trace, stage, w.ledger.nextId) == Script(stage, config, bytes, w.ledger.nextId, events, ending)
                && trace != [] && last == Run(w, trace[..|trace| - 1])
                && LeavesWith(last, NextReservation(w.ledger, stage, bound), Tallied(events), ending, outcome, after)
                && (outcome.raised == StreamFailure <==> Fails(events, ending))
                && (!last.ledger.underestimated ==> LeavesAs(outcome.raised, bound, events, ending))
    {
      var r, begun, t, raised;
      r, begun := Begin(w, bytes);
      ghost var first := Open(stage, config, bytes);
      after, trace, last := begun, [first], w;
      RunOfOne(w, first);
      if r.Err? { return Refused(r.error), after, trace, last; }
      OpenKeepsConsistent(w, stage, config, bytes);
      ghost var steps;
      var v;
      t, v, steps := Consume(begun, r.value.id, events);
      last := v;
      RunKeepsConsistent(begun, steps);
      raised, after := Finish(v, r.value, t, ending);
      ExceptionThatLeaves(v, r.value.id, events, ending);
      trace := [first] + steps + [Closing(r.value.id, events, ending)];
      ScriptPerformed(w, begun, v, steps, stage, config, bytes, r.value.id, events, ending);
      outcome := Left(r.value, Report(t.tokens, t.cache, !t.saw), raised);
    }
  }
}
