/**
 The gate that turns the graph's OR edge scheduling into an AND join: either
 edge may be evaluated at any time, and only a packet holding both specialists'
 validated observations lets the coordinator build a prompt.
 */
module JoinGate {
  import opened Wrappers
  import opened SourceEvidence

  datatype JoinPacket = JoinPacket(identity: Identity, receiving: Observation, fulfillment: Observation)

  datatype JoinError = WrongActorIdentity

  /** The edge condition: the packet it forms, if the edge is ready. */
  function Ready(c: Case, results: set<Actor>, outputs: map<Actor, Observation>): Result<Option<JoinPacket>, JoinError>
  {
    if ReceivingSpecialist !in results || FulfillmentSpecialist !in results then Ok(None)
    else if ReceivingSpecialist !in outputs || FulfillmentSpecialist !in outputs then Ok(None)
    else
      var p := JoinPacket(c.identity, outputs[ReceivingSpecialist], outputs[FulfillmentSpecialist]);
      if p.receiving.actor != ReceivingSpecialist || p.fulfillment.actor != FulfillmentSpecialist then
        Err(WrongActorIdentity)
      else Ok(Some(p))
  }

  predicate BothAreIn(results: set<Actor>, outputs: map<Actor, Observation>)
  {
    forall a :: a == ReceivingSpecialist || a == FulfillmentSpecialist ==> a in results && a in outputs
  }

  /** An edge is ready exactly with both nodes and both outputs, each under its own actor; another actor is an error. */
  lemma ReadyOnlyWithBoth(c: Case, results: set<Actor>, outputs: map<Actor, Observation>)
    ensures Ready(c, results, outputs) == Ok(None) <==> !BothAreIn(results, outputs)
    ensures BothAreIn(results, outputs) ==>
              (Ready(c, results, outputs).Err? <==>
                exists a :: (a == ReceivingSpecialist || a == FulfillmentSpecialist) && outputs[a].actor != a)
    ensures match Ready(c, results, outputs)
            case Ok(Some(p)) =>
              && BothAreIn(results, outputs) && p.identity == c.identity
              && p.receiving == outputs[ReceivingSpecialist] && p.fulfillment == outputs[FulfillmentSpecialist]
            case _ => true
  {}

  class Gate {
    const case_: Case
    var packet: Option<JoinPacket>

    constructor (c: Case)
      ensures case_ == c && packet == None
    {
      case_ := c;
      packet := None;
    }

    /** The packet is replaced only when the edge is ready. */
    method Evaluate(results: set<Actor>, receiving: Option<Observation>, fulfillment: Option<Observation>,
                    ghost outputs: map<Actor, Observation>)
      returns (r: Result<bool, JoinError>)
      requires receiving == if ReceivingSpecialist in outputs then Some(outputs[ReceivingSpecialist]) else None
      requires fulfillment == if FulfillmentSpecialist in outputs then Some(outputs[FulfillmentSpecialist]) else None
      modifies this
      ensures match Ready(case_, results, outputs)
              case Err(e) => r == Err(e) && packet == old(packet)
              case Ok(None) => r == Ok(false) && packet == old(packet)
              case Ok(Some(p)) => r == Ok(true) && packet == Some(p)
    {
      if ReceivingSpecialist !in results || FulfillmentSpecialist !in results { return Ok(false); }
      if receiving.None? || fulfillment.None? { return Ok(false); }
      var p := JoinPacket(case_.identity, receiving.value, fulfillment.value);
      if p.receiving.actor != ReceivingSpecialist || p.fulfillment.actor != FulfillmentSpecialist {
        return Err(WrongActorIdentity);
      }
      packet := Some(p);
      r := Ok(true);
    }
  }

  // ---------------------------------------------------------------------------
  // Every interleaving of specialists, edges and coordinator
  // ---------------------------------------------------------------------------

  /**
   `outputs` holds each specialist's typed output, set before it is validated; `finished` the nodes whose
   streams have ended after that; `results` those that the graph has recorded, at some later step; `prompts`
   the packets that coordinator prompts were built from; `stopped` an exception that ended the graph.
   */
  datatype Graph = Graph(
    calls: seq<ToolCall>, outputs: map<Actor, Observation>, finished: set<Actor>, results: set<Actor>,
    scheduled: bool, packet: Option<JoinPacket>, prompts: seq<JoinPacket>, stopped: bool, joinError: bool)

  const START := Graph([], map[], {}, {}, false, None, [], false, false)

  datatype Step =
    | Read(call: ToolCall)
    | Output(actor: Actor, obs: Observation)
    | RecordNode(actor: Actor)
    | EvaluateEdge(from: Actor)
    | Coordinate

  predicate IsSpecialist(a: Actor) { a == ReceivingSpecialist || a == FulfillmentSpecialist }

  predicate Validates(c: Case, g: Graph, a: Actor, obs: Observation)
  {
    SpecialistValid(c, g.calls, LogReturned(c, g.calls), obs, a)
  }

  /**
   A typed output: the node holds it, and only then is it validated. With `keepsFailed`, the graph would treat a
   node whose stream raised like one that finished, and carry on.
   */
  function Emitted(c: Case, keepsFailed: bool, g: Graph, a: Actor, obs: Observation): Graph
  {
    var g' := g.(outputs := g.outputs[a := obs]);
    if Validates(c, g, a, obs) || keepsFailed then g'.(finished := g.finished + {a}) else g'.(stopped := true)
  }

  function Evaluated(c: Case, g: Graph): Graph
  {
    match Ready(c, g.results, g.outputs)
    case Err(_) => g.(stopped := true, joinError := true)
    case Ok(None) => g
    case Ok(Some(p)) => g.(packet := Some(p), scheduled := true)
  }

  function Apply(c: Case, keepsFailed: bool, g: Graph, step: Step): Graph
  {
    if g.stopped then g
    else
      match step
      case Read(call) => g.(calls := g.calls + [call])
      case Output(a, obs) =>
        if IsSpecialist(a) && a !in g.finished then Emitted(c, keepsFailed, g, a, obs) else g
      case RecordNode(a) => if a in g.finished then g.(results := g.results + {a}) else g
      case EvaluateEdge(from) => if from in g.results then Evaluated(c, g) else g
      case Coordinate =>
        if !g.scheduled then g
        else if g.packet.None? then g.(stopped := true, joinError := true)
        else g.(prompts := g.prompts + [g.packet.value])
  }

  function Run(c: Case, keepsFailed: bool, g: Graph, steps: seq<Step>): Graph
    decreases |steps|
  {
    if steps == [] then g else Run(c, keepsFailed, Apply(c, keepsFailed, g, steps[0]), steps[1..])
  }

  /** `obs` passed its actor's validation against the reads made up to some point of the run. */
  ghost predicate WasValidated(c: Case, calls: seq<ToolCall>, a: Actor, obs: Observation)
  {
    exists n :: 0 <= n <= |calls| && SpecialistValid(c, calls[..n], LogReturned(c, calls[..n]), obs, a)
  }

  ghost predicate PacketValidated(c: Case, calls: seq<ToolCall>, p: JoinPacket)
  {
    && p.identity == c.identity == p.receiving.identity == p.fulfillment.identity
    && WasValidated(c, calls, ReceivingSpecialist, p.receiving)
    && WasValidated(c, calls, FulfillmentSpecialist, p.fulfillment)
  }

  ghost predicate Joined(c: Case, g: Graph)
  {
    && !g.joinError
    && (forall a :: a in g.results ==> a in g.finished)
    && (forall a :: a in g.finished ==> IsSpecialist(a) && a in g.outputs && WasValidated(c, g.calls, a, g.outputs[a]))
    && (g.scheduled ==> g.packet.Some?)
    && (g.packet.Some? ==> PacketValidated(c, g.calls, g.packet.value))
    && (forall p :: p in g.prompts ==> PacketValidated(c, g.calls, p))
  }

  lemma WasValidatedGrows(c: Case, calls: seq<ToolCall>, call: ToolCall, a: Actor, obs: Observation)
    requires WasValidated(c, calls, a, obs)
    ensures WasValidated(c, calls + [call], a, obs)
  {
    var n :| 0 <= n <= |calls| && SpecialistValid(c, calls[..n], LogReturned(c, calls[..n]), obs, a);
    assert (calls + [call])[..n] == calls[..n];
  }

  lemma PacketValidatedGrows(c: Case, calls: seq<ToolCall>, call: ToolCall, p: JoinPacket)
    requires PacketValidated(c, calls, p)
    ensures PacketValidated(c, calls + [call], p)
  {
    WasValidatedGrows(c, calls, call, ReceivingSpecialist, p.receiving);
    WasValidatedGrows(c, calls, call, FulfillmentSpecialist, p.fulfillment);
  }

  lemma ValidatedNow(c: Case, g: Graph, a: Actor, obs: Observation)
    requires Validates(c, g, a, obs)
    ensures WasValidated(c, g.calls, a, obs)
  {
    assert g.calls[..|g.calls|] == g.calls;
  }

  lemma ValidatedHasIdentity(c: Case, calls: seq<ToolCall>, a: Actor, obs: Observation)
    requires WasValidated(c, calls, a, obs)
    ensures obs.actor == a && obs.identity == c.identity
  {}

  lemma ReadKeepsJoined(c: Case, g: Graph, call: ToolCall)
    requires Joined(c, g)
    ensures Joined(c, g.(calls := g.calls + [call]))
  {
    forall a | a in g.finished ensures WasValidated(c, g.calls + [call], a, g.outputs[a]) {
      WasValidatedGrows(c, g.calls, call, a, g.outputs[a]);
    }
    if g.packet.Some? { PacketValidatedGrows(c, g.calls, call, g.packet.value); }
    forall p | p in g.prompts ensures PacketValidated(c, g.calls + [call], p) {
      PacketValidatedGrows(c, g.calls, call, p);
    }
  }

  lemma EvaluateKeepsJoined(c: Case, g: Graph)
    requires Joined(c, g)
    ensures Joined(c, Evaluated(c, g))
  {}

  lemma StepKeepsJoined(c: Case, g: Graph, step: Step)
    requires Joined(c, g)
    ensures Joined(c, Apply(c, false, g, step))
  {
    if !g.stopped {
      match step
      case Read(call) => ReadKeepsJoined(c, g, call);
      case Output(a, obs) => if Validates(c, g, a, obs) { ValidatedNow(c, g, a, obs); }
      case RecordNode(_) =>
      case EvaluateEdge(from) => EvaluateKeepsJoined(c, g);
      case Coordinate =>
    }
  }

  lemma {:induction false} RunKeepsJoined(c: Case, g: Graph, steps: seq<Step>)
    requires Joined(c, g)
    ensures Joined(c, Run(c, false, g, steps))
    decreases |steps|
  {
    if steps != [] {
      StepKeepsJoined(c, g, steps[0]);
      RunKeepsJoined(c, Apply(c, false, g, steps[0]), steps[1..]);
    }
  }

  /**
   In every interleaving, each coordinator prompt is built from a packet of the
   active case that holds both specialists' validated observations, each under
   its own actor identity, and the join itself never fails.
   */
  lemma PromptsHoldBothValidated(c: Case, steps: seq<Step>)
    ensures forall p :: p in Run(c, false, START, steps).prompts ==>
              && PacketValidated(c, Run(c, false, START, steps).calls, p)
              && p.receiving.actor == ReceivingSpecialist
              && p.fulfillment.actor == FulfillmentSpecialist
    ensures !Run(c, false, START, steps).joinError
  {
    RunKeepsJoined(c, START, steps);
    var g := Run(c, false, START, steps);
    forall p | p in g.prompts
      ensures p.receiving.actor == ReceivingSpecialist && p.fulfillment.actor == FulfillmentSpecialist
    {
      ValidatedHasIdentity(c, g.calls, ReceivingSpecialist, p.receiving);
      ValidatedHasIdentity(c, g.calls, FulfillmentSpecialist, p.fulfillment);
    }
  }

  /** Then everything that either observation of a prompt cites was shown to its actor by a read of the run. */
  lemma PromptsCiteWhatWasShown(c: Case, steps: seq<Step>, p: JoinPacket, lit: Literal)
    requires ValidCase(c) && AcceptedLog(c, Run(c, false, START, steps).calls)
    requires p in Run(c, false, START, steps).prompts
    ensures var calls := Run(c, false, START, steps).calls;
            && (lit in p.receiving.literals ==> Evidenced(c, calls, ReceivingSpecialist, lit))
            && (lit in p.fulfillment.literals ==> Evidenced(c, calls, FulfillmentSpecialist, lit))
  {
    PromptsHoldBothValidated(c, steps);
    var calls := Run(c, false, START, steps).calls;
    if lit in p.receiving.literals { WasValidatedCites(c, calls, ReceivingSpecialist, p.receiving, lit); }
    if lit in p.fulfillment.literals { WasValidatedCites(c, calls, FulfillmentSpecialist, p.fulfillment, lit); }
  }

  lemma WasValidatedCites(c: Case, calls: seq<ToolCall>, a: Actor, obs: Observation, lit: Literal)
    requires ValidCase(c) && AcceptedLog(c, calls) && WasValidated(c, calls, a, obs) && lit in obs.literals
    ensures Evidenced(c, calls, a, lit)
  {
    var n :| 0 <= n <= |calls| && SpecialistValid(c, calls[..n], LogReturned(c, calls[..n]), obs, a);
    assert AcceptedLog(c, calls[..n]);
    ValidatedObservationIsEvidenced(c, calls[..n], obs, a);
    EvidenceGrows(c, calls, n, a, lit);
  }

  function Reads(calls: seq<ToolCall>): seq<Step>
  {
    if calls == [] then [] else [Read(calls[0])] + Reads(calls[1..])
  }

  lemma {:induction false} ReadsRun(c: Case, g: Graph, calls: seq<ToolCall>, more: seq<Step>)
    requires !g.stopped
    ensures Run(c, false, g, Reads(calls) + more) == Run(c, false, g.(calls := g.calls + calls), more)
    decreases |calls|
  {
    if calls == [] {
      assert Reads(calls) + more == more && g.calls + calls == g.calls;
    } else {
      var v := Apply(c, false, g, Read(calls[0]));
      assert (Reads(calls) + more)[1..] == Reads(calls[1..]) + more;
      assert v.calls + calls[1..] == g.calls + calls;
      ReadsRun(c, v, calls[1..], more);
    }
  }

  /** Both specialists answer and are recorded, one edge is evaluated, and the coordinator runs. */
  function Finish(receiving: Observation, fulfillment: Observation, from: Actor): seq<Step>
  {
    [Output(ReceivingSpecialist, receiving), Output(FulfillmentSpecialist, fulfillment),
     RecordNode(ReceivingSpecialist), RecordNode(FulfillmentSpecialist), EvaluateEdge(from), Coordinate]
  }

  lemma RunOfSix(c: Case, g: Graph, s: seq<Step>)
    requires |s| == 6
    ensures var g2 := Apply(c, false, Apply(c, false, g, s[0]), s[1]);
            var g4 := Apply(c, false, Apply(c, false, g2, s[2]), s[3]);
            Run(c, false, g, s) == Apply(c, false, Apply(c, false, g4, s[4]), s[5])
  {
    hide Apply;
    RunHead(c, false, g, s);
    RunHead(c, false, Apply(c, false, g, s[0]), s[1..]);
    var g2 := Apply(c, false, Apply(c, false, g, s[0]), s[1]);
    RunHead(c, false, g2, s[1..][1..]);
    RunHead(c, false, Apply(c, false, g2, s[2]), s[1..][1..][1..]);
    var g4 := Apply(c, false, Apply(c, false, g2, s[2]), s[3]);
    RunHead(c, false, g4, s[1..][1..][1..][1..]);
    RunHead(c, false, Apply(c, false, g4, s[4]), s[1..][1..][1..][1..][1..]);
  }

  /** After reads that validate two observations, whichever edge is evaluated, the coordinator gets just these two. */
  lemma ValidatedPairReachesPrompt(c: Case, calls: seq<ToolCall>, receiving: Observation, fulfillment: Observation,
                                   from: Actor)
    requires SpecialistValid(c, calls, LogReturned(c, calls), receiving, ReceivingSpecialist)
    requires SpecialistValid(c, calls, LogReturned(c, calls), fulfillment, FulfillmentSpecialist)
    requires IsSpecialist(from)
    ensures Run(c, false, START, Reads(calls) + Finish(receiving, fulfillment, from)).prompts ==
            [JoinPacket(c.identity, receiving, fulfillment)]
  {
    var g, s := START.(calls := calls), Finish(receiving, fulfillment, from);
    assert START.calls + calls == calls;
    ReadsRun(c, START, calls, s);
    RunOfSix(c, g, s);
    var g1 := BothAnswered(c, calls, receiving, fulfillment);
    ActorsAsValidated(c, calls, receiving, ReceivingSpecialist);
    ActorsAsValidated(c, calls, fulfillment, FulfillmentSpecialist);
    hide Run, Reads, Apply, SpecialistValid;
    RecordedPairReachesPrompt(c, g1, receiving, fulfillment, from);
  }

  lemma BothAnswered(c: Case, calls: seq<ToolCall>, receiving: Observation, fulfillment: Observation)
    returns (g: Graph)
    requires SpecialistValid(c, calls, LogReturned(c, calls), receiving, ReceivingSpecialist)
    requires SpecialistValid(c, calls, LogReturned(c, calls), fulfillment, FulfillmentSpecialist)
    ensures g == Apply(c, false, Apply(c, false, START.(calls := calls), Output(ReceivingSpecialist, receiving)),
                       Output(FulfillmentSpecialist, fulfillment))
    ensures !g.stopped && g.prompts == []
    ensures ReceivingSpecialist in g.finished && FulfillmentSpecialist in g.finished
    ensures ReceivingSpecialist in g.outputs && g.outputs[ReceivingSpecialist] == receiving
    ensures FulfillmentSpecialist in g.outputs && g.outputs[FulfillmentSpecialist] == fulfillment
  {
    hide SpecialistValid, LogReturned;
    g := Apply(c, false, Apply(c, false, START.(calls := calls), Output(ReceivingSpecialist, receiving)),
               Output(FulfillmentSpecialist, fulfillment));
  }

  lemma RecordedPairReachesPrompt(c: Case, g: Graph, receiving: Observation, fulfillment: Observation, from: Actor)
    requires !g.stopped && g.prompts == [] && IsSpecialist(from)
    requires ReceivingSpecialist in g.finished && FulfillmentSpecialist in g.finished
    requires ReceivingSpecialist in g.outputs && g.outputs[ReceivingSpecialist] == receiving
    requires FulfillmentSpecialist in g.outputs && g.outputs[FulfillmentSpecialist] == fulfillment
    requires receiving.actor == ReceivingSpecialist && fulfillment.actor == FulfillmentSpecialist
    ensures var g4 := Apply(c, false, Apply(c, false, g, RecordNode(ReceivingSpecialist)),
                            RecordNode(FulfillmentSpecialist));
            Apply(c, false, Apply(c, false, g4, EvaluateEdge(from)), Coordinate).prompts
            == [JoinPacket(c.identity, receiving, fulfillment)]
  {}

  lemma ActorsAsValidated(c: Case, calls: seq<ToolCall>, obs: Observation, a: Actor)
    requires SpecialistValid(c, calls, LogReturned(c, calls), obs, a)
    ensures obs.actor == a
  {}

  /** An output that fails its validation ends the graph: no later read, edge or coordinator changes anything. */
  lemma {:induction false} FailedOutputEndsGraph(c: Case, g: Graph, a: Actor, obs: Observation, steps: seq<Step>)
    requires !g.stopped && IsSpecialist(a) && a !in g.finished && !Validates(c, g, a, obs)
    ensures var v := Apply(c, false, g, Output(a, obs));
            Run(c, false, v, steps) == v && v.prompts == g.prompts && v.finished == g.finished
  {
    StoppedStays(c, Apply(c, false, g, Output(a, obs)), steps);
  }

  lemma {:induction false} StoppedStays(c: Case, g: Graph, steps: seq<Step>)
    requires g.stopped
    ensures Run(c, false, g, steps) == g
    decreases |steps|
  {
    if steps != [] { StoppedStays(c, g, steps[1..]); }
  }

  /** The join fails exactly for a recorded output under a wrong actor, or without a packet, and that ends the graph. */
  lemma JoinErrorsEndGraph(c: Case, keepsFailed: bool, g: Graph, step: Step)
    requires !g.stopped && !g.joinError
    ensures var v := Apply(c, keepsFailed, g, step);
            && (v.joinError <==>
                  || (step.EvaluateEdge? && step.from in g.results && Ready(c, g.results, g.outputs).Err?)
                  || (step.Coordinate? && g.scheduled && g.packet.None?))
            && (v.joinError ==> v.stopped && v.prompts == g.prompts)
  {}

  function Foreign(c: Case, a: Actor): Observation
  {
    Observation(c.identity.(caseId := c.identity.caseId + "'"), a, [], EvidenceReturned, [])
  }

  function ForeignRun(c: Case): seq<Step>
  {
    [Output(ReceivingSpecialist, Foreign(c, ReceivingSpecialist)),
     Output(FulfillmentSpecialist, Foreign(c, FulfillmentSpecialist)),
     RecordNode(ReceivingSpecialist), RecordNode(FulfillmentSpecialist), EvaluateEdge(ReceivingSpecialist), Coordinate]
  }

  lemma RunHead(c: Case, keepsFailed: bool, g: Graph, s: seq<Step>)
    requires s != []
    ensures Run(c, keepsFailed, g, s) == Run(c, keepsFailed, Apply(c, keepsFailed, g, s[0]), s[1..])
  {}

  lemma ForeignOutputs(c: Case) returns (g: Graph)
    ensures g == Apply(c, true, Apply(c, true, START, ForeignRun(c)[0]), ForeignRun(c)[1])
    ensures !g.stopped && g.prompts == []
    ensures forall a :: IsSpecialist(a) ==> a in g.finished && a in g.outputs && g.outputs[a] == Foreign(c, a)
  {
    g := Apply(c, true, Apply(c, true, START, ForeignRun(c)[0]), ForeignRun(c)[1]);
  }

  /**
   The join relies on the graph stopping at a failed node: if failed nodes were
   recorded instead, a packet of another case's observations would reach the prompt.
   */
  lemma RecordedFailureReachesPrompt(c: Case)
    ensures exists p :: p in Run(c, true, START, ForeignRun(c)).prompts && p.receiving.identity != c.identity
  {
    var s := ForeignRun(c);
    var g2 := ForeignOutputs(c);
    var g4 := Apply(c, true, Apply(c, true, g2, s[2]), s[3]);
    var g5 := Apply(c, true, g4, s[4]);
    var p := JoinPacket(c.identity, Foreign(c, ReceivingSpecialist), Foreign(c, FulfillmentSpecialist));
    assert g5.packet == Some(p);
    var g6 := Apply(c, true, g5, s[5]);
    RunHead(c, true, START, s);
    RunHead(c, true, Apply(c, true, START, s[0]), s[1..]);
    RunHead(c, true, g2, s[1..][1..]);
    RunHead(c, true, Apply(c, true, g2, s[2]), s[1..][1..][1..]);
    RunHead(c, true, g4, s[1..][1..][1..][1..]);
    RunHead(c, true, g5, s[1..][1..][1..][1..][1..]);
    assert g6.prompts == [p] && p in g6.prompts;
    assert |c.identity.caseId + "'"| != |c.identity.caseId|;
  }

  /**
   The environment assumption is necessary as well as sufficient: every prompt of every run is built from
   validated observations if and only if the graph runner does not record failed nodes.
   */
  lemma JoinHoldsExactlyWhenFailuresStop(c: Case, keepsFailed: bool)
    ensures (forall steps, p :: p in Run(c, keepsFailed, START, steps).prompts ==>
               PacketValidated(c, Run(c, keepsFailed, START, steps).calls, p)) <==> !keepsFailed
  {
    if keepsFailed {
      RecordedFailureReachesPrompt(c);
    } else {
      forall steps, p | p in Run(c, keepsFailed, START, steps).prompts
        ensures PacketValidated(c, Run(c, keepsFailed, START, steps).calls, p)
      {
        PromptsHoldBothValidated(c, steps);
      }
    }
  }
}
