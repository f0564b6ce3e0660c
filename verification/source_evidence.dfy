/**
 Actor-scoped source reading and the two citation checks: online against what
 the reader returned to an actor, and offline from the case and the call log.
 */
module SourceEvidence {
  import opened Candidates
  import opened Wrappers
  import opened JsonPointer

  datatype Actor = ReceivingSpecialist | FulfillmentSpecialist | CoordinatorActor | SingleInvestigator | RulesBaseline

  datatype Source = ReceivingQuality | FulfillmentContract

  /** `searchable` is the lower-cased canonical text of the record. */
  datatype Record = Record(id: string, searchable: string, fields: map<string, Json>)

  datatype Packet = Packet(available: bool, records: seq<Record>)

  datatype Identity = Identity(caseId: string, snapshotId: string, asOf: string)

  datatype Case = Case(identity: Identity, receiving: Packet, fulfillment: Packet) {
    function PacketOf(s: Source): Packet { if s.ReceivingQuality? then receiving else fulfillment }
    function Records(): seq<Record> { receiving.records + fulfillment.records }
  }

  /** `tool` is the read tool that was called, named by the source it reads. */
  datatype ToolCall = ToolCall(
    actor: Actor, tool: Source, source: Source, requested: seq<string>, returned: seq<string>)

  datatype Literal = Literal(recordId: string, path: string, value: Json)

  datatype Citation = Citation(actor: Actor, literal: Literal)

  datatype ReadStatus = EvidenceReturned | NoMatchingRecords | SourceUnavailable

  datatype Observation = Observation(
    identity: Identity, actor: Actor, literals: seq<Literal>, status: ReadStatus, missing: seq<string>)

  datatype ContractError =
    | EmptyQuery | ActorCannotRead | WrongSource | RepeatedIds | OutsidePacket
    | WrongActor | WrongIdentity | NoRetrieval | StatusMismatch | NotReturned | BadPath(e: PointerError) | BadLiteral

  function Scope(a: Actor): set<Source>
  {
    match a
    case ReceivingSpecialist => {ReceivingQuality}
    case FulfillmentSpecialist => {FulfillmentContract}
    case CoordinatorActor => {}
    case _ => {ReceivingQuality, FulfillmentContract}
  }

  function CitationActors(c: Candidate): set<Actor>
  {
    match c
    case RulesCandidate => {RulesBaseline}
    case SingleCandidate => {SingleInvestigator}
    case GraphCandidate => {ReceivingSpecialist, FulfillmentSpecialist}
  }

  predicate Unique(rs: seq<Record>)
  {
    forall i, j :: 0 <= i < j < |rs| ==> rs[i].id != rs[j].id
  }

  /** Record ids are unique across the complete case. */
  predicate ValidCase(c: Case)
  {
    Unique(c.Records())
  }

  function Find(rs: seq<Record>, id: string): Option<Record>
  {
    if rs == [] then None else if rs[0].id == id then Some(rs[0]) else Find(rs[1..], id)
  }

  function Ids(rs: seq<Record>): seq<string>
  {
    if rs == [] then [] else [rs[0].id] + Ids(rs[1..])
  }

  // ---------------------------------------------------------------------------
  // Retrieval
  // ---------------------------------------------------------------------------

  predicate Contains(text: string, term: string)
  {
    term <= text || (text != "" && Contains(text[1..], term))
  }

  /** A term matches where it occurs at some position of the text. */
  lemma {:induction false} ContainsIsOccurrence(text: string, term: string)
    ensures Contains(text, term) <==> exists i :: 0 <= i <= |text| && term <= text[i..]
    decreases |text|
  {
    if text != "" { ContainsIsOccurrence(text[1..], term); }
    if Contains(text, term) {
      if term <= text {
        assert term <= text[0..];
      } else {
        var i :| 0 <= i <= |text[1..]| && term <= text[1..][i..];
        assert text[1..][i..] == text[i + 1..];
      }
    }
    if i :| 0 <= i <= |text| && term <= text[i..] {
      if i == 0 { assert text[0..] == text; } else { assert text[1..][i - 1..] == text[i..]; }
    }
  }

  predicate Matches(r: Record, terms: seq<string>)
  {
    forall t :: t in terms ==> Contains(r.searchable, t)
  }

  function Eligible(packet: Packet, requested: seq<string>): seq<Record>
  {
    if requested == [] then packet.records else Pick(packet.records, requested)
  }

  function Pick(rs: seq<Record>, ids: seq<string>): seq<Record>
  {
    if ids == [] then []
    else (if Find(rs, ids[0]).Some? then [Find(rs, ids[0]).value] else []) + Pick(rs, ids[1..])
  }

  function Select(rs: seq<Record>, terms: seq<string>): seq<Record>
  {
    if "all" in terms then rs else Filter(rs, terms)
  }

  function Filter(rs: seq<Record>, terms: seq<string>): seq<Record>
  {
    if rs == [] then []
    else Filter(rs[..|rs| - 1], terms) + if Matches(rs[|rs| - 1], terms) then [rs[|rs| - 1]] else []
  }

  predicate Distinct(ids: seq<string>)
  {
    forall i, j :: 0 <= i < j < |ids| ==> ids[i] != ids[j]
  }

  function RetrievalError(c: Case, a: Actor, s: Source, terms: seq<string>, requested: seq<string>)
    : Option<ContractError>
  {
    if terms == [] then Some(EmptyQuery)
    else if a == CoordinatorActor then Some(ActorCannotRead)
    else if s !in Scope(a) then Some(WrongSource)
    else if !Distinct(requested) then Some(RepeatedIds)
    else if exists id :: id in requested && Find(c.PacketOf(s).records, id).None? then Some(OutsidePacket)
    else None
  }

  // ---------------------------------------------------------------------------
  // What the call log alone says was returned
  // ---------------------------------------------------------------------------

  function Called(calls: seq<ToolCall>): set<Actor>
  {
    if calls == [] then {} else Called(calls[..|calls| - 1]) + {calls[|calls| - 1].actor}
  }

  function ReturnedIds(calls: seq<ToolCall>, a: Actor): set<string>
  {
    if calls == [] then {}
    else
      var last := calls[|calls| - 1];
      ReturnedIds(calls[..|calls| - 1], a) + if last.actor == a then set id | id in last.returned else {}
  }

  /** The reader's per-actor map, folded from the call log. */
  function LogReturned(c: Case, calls: seq<ToolCall>): map<Actor, map<string, Record>>
  {
    map a | a in Called(calls) ::
      map id | id in ReturnedIds(calls, a) && Find(c.Records(), id).Some? :: Find(c.Records(), id).value
  }

  /** A call that the reader accepted: within its actor's scope, returning records of that source only. */
  predicate Accepted(c: Case, call: ToolCall)
  {
    && call.tool == call.source
    && call.source in Scope(call.actor)
    && forall id :: id in call.returned ==> Find(c.PacketOf(call.source).records, id).Some?
  }

  predicate AcceptedLog(c: Case, calls: seq<ToolCall>)
  {
    forall call :: call in calls ==> Accepted(c, call)
  }

  lemma {:induction false} FindMember(rs: seq<Record>, r: Record)
    requires Unique(rs) && r in rs
    ensures Find(rs, r.id) == Some(r)
  {
    if rs[0] != r {
      var i :| 0 <= i < |rs| && rs[i] == r;
      assert rs[0].id != rs[i].id;
      FindMember(rs[1..], r);
    }
  }

  lemma {:induction false} FoundIsMember(rs: seq<Record>, id: string)
    requires Find(rs, id).Some?
    ensures Find(rs, id).value in rs && Find(rs, id).value.id == id
  {
    if rs[0].id != id { FoundIsMember(rs[1..], id); }
  }

  // A record of one packet is found in the whole case.
  lemma FindInCase(c: Case, s: Source, id: string)
    requires ValidCase(c) && Find(c.PacketOf(s).records, id).Some?
    ensures Find(c.Records(), id) == Find(c.PacketOf(s).records, id)
  {
    FoundIsMember(c.PacketOf(s).records, id);
    FindMember(c.Records(), Find(c.PacketOf(s).records, id).value);
  }

  lemma {:induction false} PickMembers(rs: seq<Record>, ids: seq<string>)
    ensures forall r :: r in Pick(rs, ids) ==> r in rs
  {
    if ids != [] {
      PickMembers(rs, ids[1..]);
      if Find(rs, ids[0]).Some? { FoundIsMember(rs, ids[0]); }
    }
  }

  lemma {:induction false} FilterExact(rs: seq<Record>, terms: seq<string>)
    ensures forall r :: r in Filter(rs, terms) <==> r in rs && Matches(r, terms)
  {
    if rs != [] {
      FilterExact(rs[..|rs| - 1], terms);
      assert rs == rs[..|rs| - 1] + [rs[|rs| - 1]];
    }
  }

  lemma {:induction false} IdsMembers(rs: seq<Record>, id: string)
    ensures id in Ids(rs) <==> exists r :: r in rs && r.id == id
  {
    if rs != [] {
      IdsMembers(rs[1..], id);
      assert rs == [rs[0]] + rs[1..];
      if r :| r in rs && r.id == id { assert r == rs[0] || r in rs[1..]; }
    }
  }

  /** What a query selects is in the packet, so the call that records it is accepted. */
  lemma SelectionIsAccepted(c: Case, a: Actor, s: Source, terms: seq<string>, requested: seq<string>)
    requires ValidCase(c) && RetrievalError(c, a, s, terms, requested).None?
    ensures forall r :: r in Select(Eligible(c.PacketOf(s), requested), terms) ==>
              r in c.PacketOf(s).records && Find(c.PacketOf(s).records, r.id) == Some(r)
    ensures Accepted(c, ToolCall(a, s, s, requested, Ids(Select(Eligible(c.PacketOf(s), requested), terms))))
  {
    var rs := c.PacketOf(s).records;
    var matched := Select(Eligible(c.PacketOf(s), requested), terms);
    if requested != [] { PickMembers(rs, requested); }
    FilterExact(Eligible(c.PacketOf(s), requested), terms);
    PacketIsUnique(c, s);
    forall r | r in matched ensures Find(rs, r.id) == Some(r) { FindMember(rs, r); }
    forall id | id in Ids(matched) ensures Find(rs, id).Some? { IdsMembers(matched, id); }
  }

  // ---------------------------------------------------------------------------
  // What a read may ask for, and what it returns
  // ---------------------------------------------------------------------------

  predicate AsksOutside(packet: Packet, requested: seq<string>)
  {
    exists k :: 0 <= k < |requested| && forall r :: r in packet.records ==> r.id != requested[k]
  }

  predicate Repeats(ids: seq<string>)
  {
    exists i, j :: 0 <= i < j < |ids| && ids[i] == ids[j]
  }

  predicate OthersSource(a: Actor, s: Source)
  {
    (a == ReceivingSpecialist && s == FulfillmentContract) || (a == FulfillmentSpecialist && s == ReceivingQuality)
  }

  lemma {:induction false} FindNone(rs: seq<Record>, id: string)
    ensures Find(rs, id).None? <==> forall r :: r in rs ==> r.id != id
  {
    if rs != [] {
      FindNone(rs[1..], id);
      assert rs == [rs[0]] + rs[1..];
    }
  }

  /** A read is refused exactly for what is wrong with it: the first of these that applies. */
  lemma ReadIsRefusedFor(c: Case, a: Actor, s: Source, terms: seq<string>, requested: seq<string>)
    ensures RetrievalError(c, a, s, terms, requested) ==
            if |terms| == 0 then Some(EmptyQuery)
            else if a.CoordinatorActor? then Some(ActorCannotRead)
            else if OthersSource(a, s) then Some(WrongSource)
            else if Repeats(requested) then Some(RepeatedIds)
            else if AsksOutside(c.PacketOf(s), requested) then Some(OutsidePacket)
            else None
  {
    var rs := c.PacketOf(s).records;
    assert Repeats(requested) <==> !Distinct(requested);
    if AsksOutside(c.PacketOf(s), requested) {
      var k :| 0 <= k < |requested| && forall r :: r in rs ==> r.id != requested[k];
      FindNone(rs, requested[k]);
    }
    if id :| id in requested && Find(rs, id).None? {
      FindNone(rs, id);
      var k :| 0 <= k < |requested| && requested[k] == id;
      assert AsksOutside(c.PacketOf(s), requested);
    }
  }

  lemma {:induction false} PickIsInOrder(rs: seq<Record>, ids: seq<string>)
    requires forall id :: id in ids ==> Find(rs, id).Some?
    ensures |Pick(rs, ids)| == |ids| && forall k :: 0 <= k < |ids| ==> Pick(rs, ids)[k].id == ids[k]
  {
    if ids != [] {
      PickIsInOrder(rs, ids[1..]);
      FoundIsMember(rs, ids[0]);
    }
  }

  /** `a` is what is left of `b` when some of its elements are dropped. */
  ghost predicate Keeps(a: seq<Record>, b: seq<Record>)
  {
    if b == [] then a == []
    else
      || Keeps(a, b[..|b| - 1])
      || (a != [] && a[|a| - 1] == b[|b| - 1] && Keeps(a[..|a| - 1], b[..|b| - 1]))
  }

  lemma {:induction false} FilterKeeps(rs: seq<Record>, terms: seq<string>)
    ensures Keeps(Filter(rs, terms), rs)
  {
    if rs != [] {
      var front, last := Filter(rs[..|rs| - 1], terms), rs[|rs| - 1];
      FilterKeeps(rs[..|rs| - 1], terms);
      if Matches(last, terms) {
        assert (front + [last])[..|front + [last]| - 1] == front;
      } else {
        assert front + [] == front;
      }
    }
  }

  lemma {:induction false} KeepsItself(rs: seq<Record>)
    ensures Keeps(rs, rs)
  {
    if rs != [] { KeepsItself(rs[..|rs| - 1]); }
  }

  /** The record was asked for, by name or by naming none, and each term occurs in it, unless the query says "all". */
  predicate Answers(r: Record, terms: seq<string>, requested: seq<string>)
  {
    && (requested == [] || r.id in requested)
    && ("all" in terms || forall t :: t in terms ==> exists i :: 0 <= i <= |r.searchable| && t <= r.searchable[i..])
  }

  /**
   An accepted read returns exactly the records of the packet that answer it, in the order of the request, or of the
   packet when none are requested.
   */
  lemma ReadReturnsTheAnswers(c: Case, a: Actor, s: Source, terms: seq<string>, requested: seq<string>)
    requires ValidCase(c) && RetrievalError(c, a, s, terms, requested).None?
    ensures var packet := c.PacketOf(s);
            var base, result := Eligible(packet, requested), Select(Eligible(packet, requested), terms);
            && (forall r :: r in result <==> r in packet.records && Answers(r, terms, requested))
            && Keeps(result, base)
            && (if requested == [] then base == packet.records
                else |base| == |requested| && forall k :: 0 <= k < |base| ==> base[k].id == requested[k])
  {
    var rs := c.PacketOf(s).records;
    var base := Eligible(c.PacketOf(s), requested);
    SelectionIsAccepted(c, a, s, terms, requested);
    if requested != [] { PickMembers(rs, requested); PickIsInOrder(rs, requested); }
    FilterKeeps(base, terms);
    KeepsItself(base);
    FilterExact(base, terms);
    forall r ensures r in Select(base, terms) <==> r in rs && Answers(r, terms, requested) {
      forall t | t in terms
        ensures Contains(r.searchable, t) <==> exists i :: 0 <= i <= |r.searchable| && t <= r.searchable[i..]
      {
        ContainsIsOccurrence(r.searchable, t);
      }
      if r in rs { EligibleIffAsked(c, s, requested, r); }
    }
  }

  lemma EligibleIffAsked(c: Case, s: Source, requested: seq<string>, r: Record)
    requires ValidCase(c) && r in c.PacketOf(s).records
    requires forall id :: id in requested ==> Find(c.PacketOf(s).records, id).Some?
    ensures r in Eligible(c.PacketOf(s), requested) <==> requested == [] || r.id in requested
  {
    var rs := c.PacketOf(s).records;
    PickIsInOrder(rs, requested);
    PickMembers(rs, requested);
    PacketIsUnique(c, s);
    FindMember(rs, r);
    if requested != [] {
      var picked := Pick(rs, requested);
      if r in picked {
        var k :| 0 <= k < |picked| && picked[k] == r;
        assert requested[k] == r.id;
      }
      if r.id in requested {
        var k :| 0 <= k < |requested| && requested[k] == r.id;
        FindMember(rs, picked[k]);
      }
    }
  }

  lemma PacketIsUnique(c: Case, s: Source)
    requires ValidCase(c)
    ensures Unique(c.PacketOf(s).records)
  {
    var rs, all := c.PacketOf(s).records, c.Records();
    forall i, j | 0 <= i < j < |rs| ensures rs[i].id != rs[j].id {
      var k := if s.ReceivingQuality? then 0 else |c.receiving.records|;
      assert all[k + i] == rs[i] && all[k + j] == rs[j];
    }
  }

  function RecordMap(rs: seq<Record>): map<string, Record>
  {
    if rs == [] then map[] else RecordMap(rs[..|rs| - 1])[rs[|rs| - 1].id := rs[|rs| - 1]]
  }

  lemma {:induction false} RecordMapIs(c: Case, s: Source, rs: seq<Record>)
    requires ValidCase(c)
    requires forall r :: r in rs ==> Find(c.PacketOf(s).records, r.id) == Some(r)
    ensures RecordMap(rs) == map id | id in Ids(rs) && Find(c.Records(), id).Some? :: Find(c.Records(), id).value
  {
    if rs != [] {
      var front, last := rs[..|rs| - 1], rs[|rs| - 1];
      assert rs == front + [last];
      RecordMapIs(c, s, front);
      FindInCase(c, s, last.id);
      forall id ensures id in Ids(rs) <==> id in Ids(front) || id == last.id {
        IdsMembers(rs, id);
        IdsMembers(front, id);
      }
    }
  }

  lemma LogReturnedStep(c: Case, calls: seq<ToolCall>, call: ToolCall, rs: seq<Record>)
    requires ValidCase(c) && call.returned == Ids(rs)
    requires forall r :: r in rs ==> Find(c.PacketOf(call.source).records, r.id) == Some(r)
    ensures var before := LogReturned(c, calls);
            LogReturned(c, calls + [call]) ==
              before[call.actor := (if call.actor in before then before[call.actor] else map[]) + RecordMap(rs)]
  {
    var a, after := call.actor, calls + [call];
    assert after[..|after| - 1] == calls;
    RecordMapIs(c, call.source, rs);
    forall b | b in Called(calls) && b != a ensures LogReturned(c, after)[b] == LogReturned(c, calls)[b] {
      assert ReturnedIds(after, b) == ReturnedIds(calls, b);
    }
    if a !in Called(calls) { NotCalledReturnsNothing(calls, a); }
    assert ReturnedIds(after, a) == ReturnedIds(calls, a) + set id | id in call.returned;
    LogReturnedOfActor(c, calls, call, rs);
  }

  lemma LogReturnedOfActor(c: Case, calls: seq<ToolCall>, call: ToolCall, rs: seq<Record>)
    requires ReturnedIds(calls + [call], call.actor) == ReturnedIds(calls, call.actor) + set id | id in call.returned
    requires call.returned == Ids(rs)
    requires RecordMap(rs) == map id | id in Ids(rs) && Find(c.Records(), id).Some? :: Find(c.Records(), id).value
    requires call.actor !in Called(calls) ==> ReturnedIds(calls, call.actor) == {}
    ensures call.actor in LogReturned(c, calls + [call])
    ensures LogReturned(c, calls + [call])[call.actor] ==
            (if call.actor in LogReturned(c, calls) then LogReturned(c, calls)[call.actor] else map[]) + RecordMap(rs)
  {
    assert (calls + [call])[..|calls + [call]| - 1] == calls;
  }

  lemma {:induction false} NotCalledReturnsNothing(calls: seq<ToolCall>, a: Actor)
    requires a !in Called(calls)
    ensures ReturnedIds(calls, a) == {}
  {
    if calls != [] { NotCalledReturnsNothing(calls[..|calls| - 1], a); }
  }

  // ---------------------------------------------------------------------------
  // The online checks
  // ---------------------------------------------------------------------------

  type ReturnedMap = map<Actor, map<string, Record>>

  function LiteralError(returned: ReturnedMap, a: Actor, lit: Literal): Option<ContractError>
  {
    if a !in returned || lit.recordId !in returned[a] then Some(NotReturned)
    else
      match Resolve(Object(returned[a][lit.recordId].fields), lit.path)
      case Err(e) => Some(BadPath(e))
      case Ok(v) => if v != lit.value then Some(BadLiteral) else None
  }

  predicate CitationsValid(returned: ReturnedMap, allowed: set<Actor>, citations: seq<Citation>)
  {
    forall k :: k in citations ==> k.actor in allowed && LiteralError(returned, k.actor, k.literal).None?
  }

  function ReturnedCount(calls: seq<ToolCall>, a: Actor): nat
  {
    if calls == [] then 0
    else ReturnedCount(calls[..|calls| - 1], a)
         + if calls[|calls| - 1].actor == a then |calls[|calls| - 1].returned| else 0
  }

  /** Whether the declared read status is the one that the reads support. */
  predicate StatusSupported(packet: Packet, count: nat, obs: Observation)
  {
    if obs.literals != [] then obs.status == EvidenceReturned && count > 0
    else if !packet.available then obs.status == SourceUnavailable && obs.missing != []
    else if count == 0 then obs.status == NoMatchingRecords && obs.missing != []
    else obs.status == EvidenceReturned && obs.missing != []
  }

  predicate SpecialistValid(c: Case, calls: seq<ToolCall>, returned: ReturnedMap, obs: Observation, expected: Actor)
  {
    && obs.actor == expected
    && obs.identity == c.identity
    && expected in Called(calls)
    && StatusSupported(c.PacketOf(if expected == ReceivingSpecialist then ReceivingQuality else FulfillmentContract),
                       ReturnedCount(calls, expected), obs)
    && forall lit :: lit in obs.literals ==> LiteralError(returned, expected, lit).None?
  }

  class SourceReader {
    const case_: Case
    var calls: seq<ToolCall>
    var returned: ReturnedMap

    /** What was returned to each actor is what the call log says. */
    ghost predicate Valid()
      reads this
    {
      ValidCase(case_) && AcceptedLog(case_, calls) && returned == LogReturned(case_, calls)
    }

    constructor (c: Case)
      requires ValidCase(c)
      ensures Valid() && case_ == c && calls == []
    {
      case_ := c;
      calls := [];
      returned := map[];
    }

    method Retrieve(a: Actor, s: Source, terms: seq<string>, requested: seq<string>)
      returns (r: Result<seq<Record>, ContractError>)
      requires Valid()
      modifies this
      ensures Valid()
      ensures RetrievalError(case_, a, s, terms, requested).Some? ==>
                r == Err(RetrievalError(case_, a, s, terms, requested).value) && unchanged(this)
      ensures RetrievalError(case_, a, s, terms, requested).None? ==>
                && r == Ok(Select(Eligible(case_.PacketOf(s), requested), terms))
                && calls == old(calls) + [ToolCall(a, s, s, requested, Ids(r.value))]
    {
      if terms == [] { return Err(EmptyQuery); }
      if a == CoordinatorActor { return Err(ActorCannotRead); }
      if s !in Scope(a) { return Err(WrongSource); }
      var packet := case_.PacketOf(s);
      if !Distinct(requested) { return Err(RepeatedIds); }
      if exists id :: id in requested && Find(packet.records, id).None? { return Err(OutsidePacket); }
      var candidates := Eligible(packet, requested);
      var matched := MatchAll(candidates, terms);
      SelectionIsAccepted(case_, a, s, terms, requested);
      var call := ToolCall(a, s, s, requested, Ids(matched));
      LogReturnedStep(case_, calls, call, matched);
      var mine := if a in returned then returned[a] else map[];
      returned := returned[a := mine + RecordMap(matched)];
      calls := calls + [call];
      r := Ok(matched);
    }

    method MatchAll(candidates: seq<Record>, terms: seq<string>) returns (matched: seq<Record>)
      ensures matched == Select(candidates, terms)
    {
      if "all" in terms { return candidates; }
      matched := [];
      for i := 0 to |candidates|
        invariant matched == Filter(candidates[..i], terms)
      {
        assert candidates[..i + 1][..i] == candidates[..i];
        if Matches(candidates[i], terms) { matched := matched + [candidates[i]]; }
      }
      assert candidates[..|candidates|] == candidates;
    }

    method ValidateCitations(citations: seq<Citation>, allowed: set<Actor>) returns (ok: bool)
      ensures ok <==> CitationsValid(returned, allowed, citations)
    {
      for i := 0 to |citations|
        invariant CitationsValid(returned, allowed, citations[..i])
      {
        var k := citations[i];
        if k.actor !in allowed || LiteralError(returned, k.actor, k.literal).Some? { return false; }
        assert citations[..i + 1] == citations[..i] + [k];
      }
      assert citations[..|citations|] == citations;
      ok := true;
    }

    method ValidateSpecialist(obs: Observation, expected: Actor) returns (ok: bool)
      ensures ok <==> SpecialistValid(case_, calls, returned, obs, expected)
    {
      if obs.actor != expected || obs.identity != case_.identity { return false; }
      var count, called := 0, false;
      for i := 0 to |calls|
        invariant count == ReturnedCount(calls[..i], expected)
        invariant called <==> expected in Called(calls[..i])
      {
        assert calls[..i + 1][..i] == calls[..i];
        if calls[i].actor == expected { count, called := count + |calls[i].returned|, true; }
      }
      assert calls[..|calls|] == calls;
      if !called { return false; }
      var source := if expected == ReceivingSpecialist then ReceivingQuality else FulfillmentContract;
      if !StatusSupported(case_.PacketOf(source), count, obs) { return false; }
      for i := 0 to |obs.literals|
        invariant forall lit :: lit in obs.literals[..i] ==> LiteralError(returned, expected, lit).None?
      {
        assert obs.literals[..i + 1] == obs.literals[..i] + [obs.literals[i]];
        if LiteralError(returned, expected, obs.literals[i]).Some? { return false; }
      }
      assert obs.literals[..|obs.literals|] == obs.literals;
      ok := true;
    }
  }

  // ---------------------------------------------------------------------------
  // What a validated observation can say
  // ---------------------------------------------------------------------------

  /** Some read of the actor returned something. */
  predicate ReturnedSomething(calls: seq<ToolCall>, a: Actor)
  {
    exists i :: 0 <= i < |calls| && calls[i].actor == a && calls[i].returned != []
  }

  lemma {:induction false} CountsReturned(calls: seq<ToolCall>, a: Actor)
    ensures ReturnedCount(calls, a) > 0 <==> ReturnedSomething(calls, a)
  {
    if calls != [] {
      var front, last := calls[..|calls| - 1], calls[|calls| - 1];
      CountsReturned(front, a);
      if ReturnedSomething(front, a) {
        var i :| 0 <= i < |front| && front[i].actor == a && front[i].returned != [];
        assert calls[i] == front[i];
      }
      if i :| 0 <= i < |calls| && calls[i].actor == a && calls[i].returned != [] {
        assert i < |front| ==> front[i] == calls[i];
      }
    }
  }

  /** The one status that packet, reads and literals leave open to an observation. */
  function StatusOf(packet: Packet, calls: seq<ToolCall>, a: Actor, literals: seq<Literal>): ReadStatus
  {
    if literals == [] && !packet.available then SourceUnavailable
    else if literals == [] && !ReturnedSomething(calls, a) then NoMatchingRecords
    else EvidenceReturned
  }

  /**
   A status is accepted exactly if it is that one, literals rest on a read that returned, and silence is explained.
   */
  lemma StatusIsDetermined(packet: Packet, calls: seq<ToolCall>, a: Actor, obs: Observation)
    ensures StatusSupported(packet, ReturnedCount(calls, a), obs) <==>
            && obs.status == StatusOf(packet, calls, a, obs.literals)
            && if obs.literals == [] then obs.missing != [] else ReturnedSomething(calls, a)
  {
    CountsReturned(calls, a);
  }

  /** The literal is in a record of the case that some call of the actor returned, at a non-empty path. */
  ghost predicate Evidenced(c: Case, calls: seq<ToolCall>, a: Actor, lit: Literal)
  {
    exists i, r, path :: EvidencedAt(c, calls, a, lit, i, r, path)
  }

  predicate EvidencedAt(c: Case, calls: seq<ToolCall>, a: Actor, lit: Literal, i: int, r: Record, path: seq<Key>)
  {
    && 0 <= i < |calls| && calls[i].actor == a && lit.recordId in calls[i].returned
    && r in c.PacketOf(calls[i].source).records && r.id == lit.recordId
    && path != [] && SubValue(Object(r.fields), path) == Some(lit.value)
  }

  lemma {:induction false} ReturnedByCall(calls: seq<ToolCall>, a: Actor, id: string)
    ensures id in ReturnedIds(calls, a) <==>
            exists i :: 0 <= i < |calls| && calls[i].actor == a && id in calls[i].returned
  {
    if calls != [] {
      var front, last := calls[..|calls| - 1], calls[|calls| - 1];
      ReturnedByCall(front, a, id);
      if id in ReturnedIds(front, a) {
        var i :| 0 <= i < |front| && front[i].actor == a && id in front[i].returned;
        assert calls[i] == front[i];
      }
      if i :| 0 <= i < |calls| && calls[i].actor == a && id in calls[i].returned {
        assert i < |front| ==> front[i] == calls[i];
      }
    }
  }

  /** No literal passes that the actor was not shown. */
  lemma AcceptedLiteralIsEvidenced(c: Case, calls: seq<ToolCall>, a: Actor, lit: Literal)
    requires ValidCase(c) && AcceptedLog(c, calls) && LiteralError(LogReturned(c, calls), a, lit).None?
    ensures Evidenced(c, calls, a, lit)
  {
    ReturnedByCall(calls, a, lit.recordId);
    var i :| 0 <= i < |calls| && calls[i].actor == a && lit.recordId in calls[i].returned;
    assert Accepted(c, calls[i]);
    FindInCase(c, calls[i].source, lit.recordId);
    var r := Find(c.Records(), lit.recordId).value;
    FoundIsMember(c.PacketOf(calls[i].source).records, lit.recordId);
    var path := ResolvedValueIsSubValue(Object(r.fields), lit.path);
    assert EvidencedAt(c, calls, a, lit, i, r, path);
  }

  /** Every literal that the actor was shown passes under the canonical pointer to it. */
  lemma EvidencedLiteralIsAccepted(c: Case, calls: seq<ToolCall>, a: Actor, i: nat, r: Record, path: seq<Key>)
    requires ValidCase(c) && i < |calls| && calls[i].actor == a && r.id in calls[i].returned && r in c.Records()
    requires path != [] && SubValue(Object(r.fields), path).Some?
    ensures LiteralError(LogReturned(c, calls), a,
                         Literal(r.id, PointerOf(path), SubValue(Object(r.fields), path).value)).None?
  {
    ReturnedByCall(calls, a, r.id);
    CalledByCall(calls, a, i);
    FindMember(c.Records(), r);
    PointerResolvesToSubValue(Object(r.fields), path);
  }

  lemma {:induction false} CalledByCall(calls: seq<ToolCall>, a: Actor, i: nat)
    requires i < |calls| && calls[i].actor == a
    ensures a in Called(calls)
  {
    if i < |calls| - 1 { CalledByCall(calls[..|calls| - 1], a, i); }
  }

  /** A validated observation is its actor's, of this case, after a read, and says only what that actor was shown. */
  lemma ValidatedObservationIsEvidenced(c: Case, calls: seq<ToolCall>, obs: Observation, expected: Actor)
    requires ValidCase(c) && AcceptedLog(c, calls)
    requires SpecialistValid(c, calls, LogReturned(c, calls), obs, expected)
    ensures obs.actor == expected && obs.identity == c.identity
    ensures exists i :: 0 <= i < |calls| && calls[i].actor == expected
    ensures forall lit :: lit in obs.literals ==> Evidenced(c, calls, expected, lit)
    ensures obs.status == StatusOf(if expected == ReceivingSpecialist then c.receiving else c.fulfillment,
                                   calls, expected, obs.literals)
    ensures if obs.literals == [] then obs.missing != [] else ReturnedSomething(calls, expected)
  {
    var s := if expected == ReceivingSpecialist then ReceivingQuality else FulfillmentContract;
    StatusIsDetermined(c.PacketOf(s), calls, expected, obs);
    CalledHasCall(calls, expected);
    forall lit | lit in obs.literals ensures Evidenced(c, calls, expected, lit) {
      AcceptedLiteralIsEvidenced(c, calls, expected, lit);
    }
  }

  /** And an observation that is all that is accepted. */
  lemma EvidencedObservationIsValid(c: Case, calls: seq<ToolCall>, obs: Observation, expected: Actor, call: nat)
    requires ValidCase(c) && AcceptedLog(c, calls)
    requires obs.actor == expected && obs.identity == c.identity && call < |calls| && calls[call].actor == expected
    requires obs.status == StatusOf(if expected == ReceivingSpecialist then c.receiving else c.fulfillment,
                                    calls, expected, obs.literals)
    requires if obs.literals == [] then obs.missing != [] else ReturnedSomething(calls, expected)
    requires forall lit :: lit in obs.literals ==> CanonicallyEvidenced(c, calls, Citation(expected, lit))
    ensures SpecialistValid(c, calls, LogReturned(c, calls), obs, expected)
  {
    var s := if expected == ReceivingSpecialist then ReceivingQuality else FulfillmentContract;
    StatusIsDetermined(c.PacketOf(s), calls, expected, obs);
    CalledByCall(calls, expected, call);
    forall lit | lit in obs.literals ensures LiteralError(LogReturned(c, calls), expected, lit).None? {
      CanonicalLiteralIsAccepted(c, calls, Citation(expected, lit));
    }
  }

  lemma CanonicalLiteralIsAccepted(c: Case, calls: seq<ToolCall>, k: Citation)
    requires ValidCase(c) && CanonicallyEvidenced(c, calls, k)
    ensures LiteralError(LogReturned(c, calls), k.actor, k.literal).None?
  {
    var i, r, path :| EvidencedAt(c, calls, k.actor, k.literal, i, r, path) && k.literal.path == PointerOf(path);
    assert r in c.Records();
    EvidencedLiteralIsAccepted(c, calls, k.actor, i, r, path);
  }

  lemma {:induction false} CalledHasCall(calls: seq<ToolCall>, a: Actor)
    requires a in Called(calls)
    ensures exists i :: 0 <= i < |calls| && calls[i].actor == a
  {
    var front := calls[..|calls| - 1];
    if a in Called(front) {
      CalledHasCall(front, a);
      var i :| 0 <= i < |front| && front[i].actor == a;
      assert calls[i] == front[i];
    }
  }

  /** The source that evidence of the actor can come from. */
  lemma EvidenceIsInScope(c: Case, calls: seq<ToolCall>, a: Actor, lit: Literal)
    requires ValidCase(c) && AcceptedLog(c, calls) && Evidenced(c, calls, a, lit)
    ensures a != CoordinatorActor
    ensures a == ReceivingSpecialist ==> exists r :: r in c.receiving.records && r.id == lit.recordId
    ensures a == FulfillmentSpecialist ==> exists r :: r in c.fulfillment.records && r.id == lit.recordId
  {
    var i, r, path :| EvidencedAt(c, calls, a, lit, i, r, path);
    assert Accepted(c, calls[i]);
  }

  /** Whose citations an answer of the candidate may carry. */
  predicate MayCite(candidate: Candidate, a: Actor)
  {
    || (candidate.RulesCandidate? && a.RulesBaseline?)
    || (candidate.SingleCandidate? && a.SingleInvestigator?)
    || (candidate.GraphCandidate? && (a.ReceivingSpecialist? || a.FulfillmentSpecialist?))
  }

  /** Every citation of an accepted answer is by an actor of its candidate, and says what that actor was shown. */
  lemma AcceptedCitationsAreEvidenced(c: Case, calls: seq<ToolCall>, candidate: Candidate, citations: seq<Citation>,
                                      k: Citation)
    requires ValidCase(c) && AcceptedLog(c, calls) && k in citations
    requires CitationsValid(LogReturned(c, calls), CitationActors(candidate), citations)
    ensures MayCite(candidate, k.actor) && Evidenced(c, calls, k.actor, k.literal)
  {
    AcceptedLiteralIsEvidenced(c, calls, k.actor, k.literal);
  }

  /** An answer that cites canonically, by such actors, what they were shown is accepted. */
  lemma EvidencedCitationsAreAccepted(c: Case, calls: seq<ToolCall>, candidate: Candidate, citations: seq<Citation>)
    requires ValidCase(c) && AcceptedLog(c, calls)
    requires forall k :: k in citations ==> MayCite(candidate, k.actor) && CanonicallyEvidenced(c, calls, k)
    ensures CitationsValid(LogReturned(c, calls), CitationActors(candidate), citations)
  {
    forall k | k in citations ensures LiteralError(LogReturned(c, calls), k.actor, k.literal).None? {
      CanonicalLiteralIsAccepted(c, calls, k);
    }
  }

  ghost predicate CanonicallyEvidenced(c: Case, calls: seq<ToolCall>, k: Citation)
  {
    exists i, r, path ::
      EvidencedAt(c, calls, k.actor, k.literal, i, r, path) && k.literal.path == PointerOf(path)
  }

  lemma EvidenceGrows(c: Case, calls: seq<ToolCall>, n: nat, a: Actor, lit: Literal)
    requires n <= |calls| && Evidenced(c, calls[..n], a, lit)
    ensures Evidenced(c, calls, a, lit)
  {
    var i, r, path :| EvidencedAt(c, calls[..n], a, lit, i, r, path);
    assert EvidencedAt(c, calls, a, lit, i, r, path);
  }

  // ---------------------------------------------------------------------------
  // The offline check
  // ---------------------------------------------------------------------------

  function SourceOf(c: Case, id: string): Option<Source>
  {
    if Find(c.receiving.records, id).Some? then Some(ReceivingQuality)
    else if Find(c.fulfillment.records, id).Some? then Some(FulfillmentContract)
    else None
  }

  /** One citation, judged from the case and the call log alone. */
  predicate CitationClosed(c: Case, calls: seq<ToolCall>, candidate: Candidate, k: Citation)
  {
    && k.actor in CitationActors(candidate)
    && k.literal.recordId in ReturnedIds(calls, k.actor)
    && SourceOf(c, k.literal.recordId).Some? && SourceOf(c, k.literal.recordId).value in Scope(k.actor)
    && Find(c.Records(), k.literal.recordId).Some?
    && Resolve(Object(Find(c.Records(), k.literal.recordId).value.fields), k.literal.path) == Ok(k.literal.value)
  }

  predicate CallsInScope(calls: seq<ToolCall>)
  {
    forall call :: call in calls ==> call.source in Scope(call.actor) && call.tool == call.source
  }

  predicate ClosureHolds(c: Case, calls: seq<ToolCall>, candidate: Candidate, citations: seq<Citation>)
  {
    && CallsInScope(calls)
    && (forall k :: k in citations ==> CitationClosed(c, calls, candidate, k))
    && (candidate == GraphCandidate ==> {ReceivingSpecialist, FulfillmentSpecialist} <= Called(calls))
  }

  lemma NextCallInScope(calls: seq<ToolCall>, i: nat)
    requires i < |calls|
    ensures CallsInScope(calls[..i + 1]) <==>
            CallsInScope(calls[..i]) && calls[i].source in Scope(calls[i].actor) && calls[i].tool == calls[i].source
  {}

  /** The evaluator's loops over the call log and the citations, counting failures. */
  method ActorScopeAndCitationClosure(c: Case, calls: seq<ToolCall>, candidate: Candidate, citations: seq<Citation>)
    returns (ok: bool)
    ensures ok <==> ClosureHolds(c, calls, candidate, citations)
  {
    var failures := 0;
    var callers: set<Actor> := {};
    for i := 0 to |calls|
      invariant failures >= 0 && (failures == 0 <==> CallsInScope(calls[..i]))
      invariant callers == Called(calls[..i])
    {
      assert calls[..i + 1][..i] == calls[..i];
      NextCallInScope(calls, i);
      if calls[i].source !in Scope(calls[i].actor) || calls[i].tool != calls[i].source { failures := failures + 1; }
      callers := callers + {calls[i].actor};
    }
    assert calls[..|calls|] == calls;
    var misses := 0;
    for i := 0 to |citations|
      invariant misses >= 0
      invariant misses == 0 <==> forall k :: k in citations[..i] ==> CitationClosed(c, calls, candidate, k)
    {
      assert citations[..i + 1] == citations[..i] + [citations[i]];
      if !CitationClosed(c, calls, candidate, citations[i]) { misses := misses + 1; }
    }
    assert citations[..|citations|] == citations;
    if candidate == GraphCandidate && !({ReceivingSpecialist, FulfillmentSpecialist} <= callers) {
      failures := failures + 1;
    }
    ok := failures == 0 && misses == 0;
  }

  // ---------------------------------------------------------------------------
  // Online and offline agree
  // ---------------------------------------------------------------------------

  lemma {:induction false} ReturnedIdInScope(c: Case, calls: seq<ToolCall>, a: Actor, id: string)
    requires ValidCase(c) && AcceptedLog(c, calls) && id in ReturnedIds(calls, a)
    ensures a in Called(calls)
    ensures SourceOf(c, id).Some? && SourceOf(c, id).value in Scope(a) && Find(c.Records(), id).Some?
  {
    var front, last := calls[..|calls| - 1], calls[|calls| - 1];
    if id in ReturnedIds(front, a) {
      ReturnedIdInScope(c, front, a, id);
    } else {
      assert last in calls && Accepted(c, last);
      FindInCase(c, last.source, id);
      OneSourceOnly(c, last.source, id);
    }
  }

  lemma PacketsShareNoId(c: Case, i: nat, j: nat)
    requires ValidCase(c) && i < |c.receiving.records| && j < |c.fulfillment.records|
    ensures c.receiving.records[i].id != c.fulfillment.records[j].id
  {
    assert c.Records()[i] == c.receiving.records[i];
    assert c.Records()[|c.receiving.records| + j] == c.fulfillment.records[j];
  }

  lemma OneSourceOnly(c: Case, s: Source, id: string)
    requires ValidCase(c) && Find(c.PacketOf(s).records, id).Some?
    ensures SourceOf(c, id) == Some(s)
  {
    if s == FulfillmentContract && Find(c.receiving.records, id).Some? {
      FoundIsMember(c.receiving.records, id);
      FoundIsMember(c.fulfillment.records, id);
      var i :| 0 <= i < |c.receiving.records| && c.receiving.records[i].id == id;
      var j :| 0 <= j < |c.fulfillment.records| && c.fulfillment.records[j].id == id;
      PacketsShareNoId(c, i, j);
    }
  }

  lemma CitationAgrees(c: Case, calls: seq<ToolCall>, candidate: Candidate, k: Citation)
    requires ValidCase(c) && AcceptedLog(c, calls) && k.actor in CitationActors(candidate)
    ensures LiteralError(LogReturned(c, calls), k.actor, k.literal).None? <==> CitationClosed(c, calls, candidate, k)
  {
    if k.literal.recordId in ReturnedIds(calls, k.actor) {
      ReturnedIdInScope(c, calls, k.actor, k.literal.recordId);
    }
  }

  /**
   For every log of accepted reads: the offline closure check passes exactly when
   the online check passes and, for the graph, both specialists have read.
   */
  lemma OfflineIsOnline(c: Case, calls: seq<ToolCall>, candidate: Candidate, citations: seq<Citation>)
    requires ValidCase(c) && AcceptedLog(c, calls)
    ensures ClosureHolds(c, calls, candidate, citations) <==>
              && CitationsValid(LogReturned(c, calls), CitationActors(candidate), citations)
              && (candidate == GraphCandidate ==> {ReceivingSpecialist, FulfillmentSpecialist} <= Called(calls))
  {
    forall k | k in citations && k.actor in CitationActors(candidate)
      ensures LiteralError(LogReturned(c, calls), k.actor, k.literal).None? <==> CitationClosed(c, calls, candidate, k)
    {
      CitationAgrees(c, calls, candidate, k);
    }
    forall call | call in calls ensures call.source in Scope(call.actor) && call.tool == call.source {
      assert Accepted(c, call);
    }
  }

  /**
   The offline check trusts no log: over any calls at all, what passes made every read with its own tool within its
   actor's scope, and every citation is by an actor of its candidate, of a record of that actor's source that a call
   returned to it, with the value that the case holds there.
   */
  lemma OfflineTrustsNoLog(c: Case, calls: seq<ToolCall>, candidate: Candidate, citations: seq<Citation>, k: Citation)
    requires ValidCase(c) && ClosureHolds(c, calls, candidate, citations) && k in citations
    ensures forall call :: call in calls ==>
              call.tool == call.source && call.actor != CoordinatorActor && !OthersSource(call.actor, call.source)
    ensures MayCite(candidate, k.actor)
    ensures exists i :: 0 <= i < |calls| && calls[i].actor == k.actor && k.literal.recordId in calls[i].returned
    ensures exists s, r, path ::
              && CitesRecord(c, k, s, r, path) && (k.actor == ReceivingSpecialist ==> s == ReceivingQuality)
              && (k.actor == FulfillmentSpecialist ==> s == FulfillmentContract)
  {
    var id := k.literal.recordId;
    assert CitationClosed(c, calls, candidate, k);
    ReturnedByCall(calls, k.actor, id);
    var s := SourceOf(c, id).value;
    FindInCase(c, s, id);
    FoundIsMember(c.PacketOf(s).records, id);
    var r := Find(c.PacketOf(s).records, id).value;
    var path := ResolvedValueIsSubValue(Object(r.fields), k.literal.path);
    assert CitesRecord(c, k, s, r, path);
  }

  predicate CitesRecord(c: Case, k: Citation, s: Source, r: Record, path: seq<Key>)
  {
    && r in c.PacketOf(s).records && r.id == k.literal.recordId
    && path != [] && SubValue(Object(r.fields), path) == Some(k.literal.value)
  }

  lemma {:induction false} CalledGrows(calls: seq<ToolCall>, n: nat, a: Actor)
    requires n <= |calls| && a in Called(calls[..n])
    ensures a in Called(calls)
  {
    if n == |calls| {
      assert calls[..n] == calls;
    } else {
      var front := calls[..|calls| - 1];
      assert front[..n] == calls[..n];
      CalledGrows(front, n, a);
    }
  }

  /** Two specialists that validated, each at its own time, supply the graph's read requirement. */
  lemma ValidatedSpecialistsCloseTheGraph(c: Case, calls: seq<ToolCall>, citations: seq<Citation>,
                                          m: nat, receiving: Observation, n: nat, fulfillment: Observation)
    requires ValidCase(c) && AcceptedLog(c, calls) && m <= |calls| && n <= |calls|
    requires SpecialistValid(c, calls[..m], LogReturned(c, calls[..m]), receiving, ReceivingSpecialist)
    requires SpecialistValid(c, calls[..n], LogReturned(c, calls[..n]), fulfillment, FulfillmentSpecialist)
    ensures ClosureHolds(c, calls, GraphCandidate, citations) <==>
            CitationsValid(LogReturned(c, calls), CitationActors(GraphCandidate), citations)
  {
    CalledGrows(calls, m, ReceivingSpecialist);
    CalledGrows(calls, n, FulfillmentSpecialist);
    OfflineIsOnline(c, calls, GraphCandidate, citations);
  }

  /** Without those reads the two checks differ: an answer that cites nothing passes online only. */
  lemma UnreadGraphPassesOnlineOnly(c: Case)
    requires ValidCase(c)
    ensures CitationsValid(LogReturned(c, []), CitationActors(GraphCandidate), [])
    ensures !ClosureHolds(c, [], GraphCandidate, [])
  {}
}
