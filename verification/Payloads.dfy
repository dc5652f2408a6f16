/** The four typed frame payloads: what each encoder writes and each decoder reads, field by field. */
module Payloads {
  import opened Words
  import opened Wire
  import opened Types

  const U8F: Field := Word(1)
  const U64F: Field := Word(8)

  function Flag(b: bool): Value { Num(if b then 1 else 0) }

  // Readings of the i-th decoded value. A decoder only meets values of the right shape.
  function At(v: seq<Value>, i: nat): Value { if i < |v| then v[i] else Num(0) }
  function Long(v: seq<Value>, i: nat): U64 { var x := At(v, i); if x.Num? && x.n <= U64_MAX then x.n else 0 }
  function Byte(v: seq<Value>, i: nat): U8 { var x := At(v, i); if x.Num? && x.n < 256 then x.n else 0 }
  function Bool(v: seq<Value>, i: nat): bool { var x := At(v, i); x.Num? && x.n != 0 }
  function Chars(v: seq<Value>, i: nat): Bytes { var x := At(v, i); if x.Str? then x.text else [] }
  function Rows(v: seq<Value>, i: nat): seq<seq<Value>> { var x := At(v, i); if x.List? then x.items else [] }

  function Take(v: seq<Value>, n: nat): seq<Value> { if n <= |v| then v[..n] else v }
  function Drop(v: seq<Value>, n: nat): seq<Value> { if n <= |v| then v[n..] else [] }

  lemma Halves(v: seq<Value>, w: seq<Value>)
    ensures Take(v + w, |v|) == v && Drop(v + w, |v|) == w
  {
  }

  // ---- Region evidence ----

  const EVIDENCE: seq<Field> := [
    U64F, U64F, U64F, U64F, U64F, U64F, U64F, U64F, U64F, U64F, U64F, Text, U64F,
    U8F, U8F, U64F, U64F, U64F, U8F, U64F, U8F]

  function EvidenceValues(e: RegionEvidence): seq<Value> {
    var h := e.header;
    [Num(h.id), Num(h.generation), Num(h.sourceProvider), Num(h.sourceProviderGeneration),
     Num(h.region), Num(h.regionGeneration), Num(h.worker), Num(h.boot), Num(h.epoch),
     Num(h.timestampMs), Num(h.sequence), Str(h.provenance), Num(h.confidence),
     Num(e.health), Flag(e.reachable), Num(e.onlineCapacityBytes), Num(e.latencyNs),
     Num(e.bandwidthBytesPerSec), Num(e.locality), Num(e.nodeId), Num(e.status)]
  }

  function EvidenceOf(v: seq<Value>): RegionEvidence {
    RegionEvidence(
      EvidenceHeader(Long(v, 0), Long(v, 1), Long(v, 2), Long(v, 3), Long(v, 4), Long(v, 5), Long(v, 6),
                     Long(v, 7), Long(v, 8), Long(v, 9), Long(v, 10), Chars(v, 11), Long(v, 12)),
      Byte(v, 13), Bool(v, 14), Long(v, 15), Long(v, 16), Long(v, 17), Byte(v, 18), Long(v, 19), Byte(v, 20))
  }

  lemma EvidenceFits(e: RegionEvidence)
    ensures AllFit(EVIDENCE, EvidenceValues(e))
  {
    Spans();
  }

  function EncodeEvidence(e: RegionEvidence): Bytes {
    EvidenceFits(e);
    EncodeAll(EVIDENCE, EvidenceValues(e))
  }

  function DecodeEvidence(b: Bytes): Option<RegionEvidence> {
    var vs :- DecodeRecord(EVIDENCE, b);
    Some(EvidenceOf(vs))
  }

  predicate EvidenceWithinLimits(e: RegionEvidence) { |e.header.provenance| <= MAX_TEXT }

  lemma EvidenceBounded(e: RegionEvidence)
    requires EvidenceWithinLimits(e)
    ensures AllFit(EVIDENCE, EvidenceValues(e)) && AllBounded(EVIDENCE, EvidenceValues(e))
  {
    EvidenceFits(e);
  }

  lemma EvidenceInverse(e: RegionEvidence)
    ensures EvidenceOf(EvidenceValues(e)) == e
  {
  }

  lemma EvidenceRoundTrip(e: RegionEvidence)
    requires EvidenceWithinLimits(e)
    ensures DecodeEvidence(EncodeEvidence(e)) == Some(e)
  {
    EvidenceBounded(e);
    EvidenceInverse(e);
    RecordRoundTrip(EVIDENCE, EvidenceValues(e));
  }

  lemma EvidenceSelfDelimiting(e: RegionEvidence, b: Bytes)
    requires EvidenceWithinLimits(e)
    requires b < EncodeEvidence(e) || EncodeEvidence(e) < b
    ensures DecodeEvidence(b).None?
  {
    EvidenceBounded(e);
    NeighboursRejected(EVIDENCE, EvidenceValues(e), b);
  }

  // ---- Consumer requirements ----

  const DEMANDS: seq<Field> := [U64F, U64F, U64F, U64F, U8F, U8F, U8F, U8F, U8F, U64F, U64F, U8F]
  const CHOICES: seq<Field> := [
    Many([U8F]), Many([U8F]), U8F, U64F, U8F, U8F, U8F, U8F, U8F, U64F, U64F, U64F]
  const REQUIREMENTS: seq<Field> := DEMANDS + CHOICES

  function CodeRows(codes: seq<U8>): (rows: seq<seq<Value>>)
    ensures |rows| == |codes| && forall i :: 0 <= i < |rows| ==> AllFit([U8F], rows[i])
  {
    Spans();
    seq(|codes|, i requires 0 <= i < |codes| => [Num(codes[i])])
  }

  function CodesOf(rows: seq<seq<Value>>): seq<U8> { seq(|rows|, i requires 0 <= i < |rows| => Byte(rows[i], 0)) }

  function DemandValues(r: Requirements<Bits>): seq<Value> {
    [Num(r.consumer), Num(r.consumerGeneration), Num(r.requiredBytes), Num(r.alignmentBytes),
     Flag(r.cpuAccessible), Flag(r.acceleratorAccessible), Flag(r.directAccessRequired),
     Flag(r.stagingAcceptable), Flag(r.persistent), Num(r.maxLatencyNs), Num(r.minBandwidth),
     Num(r.localityPreference)]
  }

  function ChoiceValues(r: Requirements<Bits>, allowed: Value, forbidden: Value): seq<Value> {
    [allowed, forbidden, Flag(r.failureDomainIsolationRequired), Num(r.forbiddenFailureDomain),
     Flag(r.freshEvidenceRequired), Flag(r.allowDegraded), Flag(r.allowLocalFallback),
     Flag(r.expansionRequired), Flag(r.allowStaging), Num(r.policy), Num(r.preferredPool),
     Num(r.reserveHeadroomFactor)]
  }

  function RequirementValues(r: Requirements<Bits>): seq<Value> {
    DemandValues(r) + ChoiceValues(r, List(CodeRows(r.allowedKinds)), List(CodeRows(r.forbiddenKinds)))
  }

  function RequirementsOf(vs: seq<Value>): Requirements<Bits> { RequirementsFrom(Take(vs, 12), Drop(vs, 12)) }

  function RequirementsFrom(v: seq<Value>, w: seq<Value>): Requirements<Bits> {
    Requirements(
      Long(v, 0), Long(v, 1), Long(v, 2), Long(v, 3), Bool(v, 4), Bool(v, 5), Bool(v, 6), Bool(v, 7),
      Bool(v, 8), Long(v, 9), Long(v, 10), Byte(v, 11), CodesOf(Rows(w, 0)), CodesOf(Rows(w, 1)),
      Bool(w, 2), Long(w, 3), Bool(w, 4), Bool(w, 5), Bool(w, 6), Bool(w, 7), Bool(w, 8),
      Long(w, 9), Long(w, 10), Long(w, 11))
  }

  lemma CodesBounded(codes: seq<U8>)
    requires |codes| <= MAX_COUNT
    ensures Bounded(Many([U8F]), List(CodeRows(codes)))
  {
    var rows := CodeRows(codes);
    forall i | 0 <= i < |rows| ensures AllBounded([U8F], rows[i]) {
      assert rows[i] == [Num(codes[i])];
    }
  }

  lemma DemandsFit(r: Requirements<Bits>)
    ensures AllFit(DEMANDS, DemandValues(r)) && AllBounded(DEMANDS, DemandValues(r))
  {
    Spans();
  }

  lemma ChoicesFit(r: Requirements<Bits>, allowed: Value, forbidden: Value)
    requires Fits(Many([U8F]), allowed) && Fits(Many([U8F]), forbidden)
    ensures AllFit(CHOICES, ChoiceValues(r, allowed, forbidden))
  {
    Spans();
    var vs := ChoiceValues(r, allowed, forbidden);
    forall i | 0 <= i < 12 ensures Fits(CHOICES[i], vs[i]) {
      if i >= 2 { assert CHOICES[i].Word?; }
    }
  }

  lemma ChoicesBounded(r: Requirements<Bits>, allowed: Value, forbidden: Value)
    requires Fits(Many([U8F]), allowed) && Fits(Many([U8F]), forbidden)
    requires Bounded(Many([U8F]), allowed) && Bounded(Many([U8F]), forbidden)
    requires AllFit(CHOICES, ChoiceValues(r, allowed, forbidden))
    ensures AllBounded(CHOICES, ChoiceValues(r, allowed, forbidden))
  {
  }

  lemma RequirementsFits(r: Requirements<Bits>)
    ensures AllFit(REQUIREMENTS, RequirementValues(r))
  {
    var allowed, forbidden := List(CodeRows(r.allowedKinds)), List(CodeRows(r.forbiddenKinds));
    DemandsFit(r);
    ChoicesFit(r, allowed, forbidden);
    FitsConcat(DEMANDS, CHOICES, DemandValues(r), ChoiceValues(r, allowed, forbidden));
  }

  function EncodeRequirements(r: Requirements<Bits>): Bytes {
    RequirementsFits(r);
    EncodeAll(REQUIREMENTS, RequirementValues(r))
  }

  function DecodeRequirements(b: Bytes): Option<Requirements<Bits>> {
    var vs :- DecodeRecord(REQUIREMENTS, b);
    Some(RequirementsOf(vs))
  }

  predicate RequirementsWithinLimits(r: Requirements<Bits>) {
    |r.allowedKinds| <= MAX_COUNT && |r.forbiddenKinds| <= MAX_COUNT
  }

  lemma RequirementsBounded(r: Requirements<Bits>)
    requires RequirementsWithinLimits(r)
    ensures AllFit(REQUIREMENTS, RequirementValues(r)) && AllBounded(REQUIREMENTS, RequirementValues(r))
  {
    var allowed, forbidden := List(CodeRows(r.allowedKinds)), List(CodeRows(r.forbiddenKinds));
    DemandsFit(r);
    ChoicesFit(r, allowed, forbidden);
    CodesBounded(r.allowedKinds);
    CodesBounded(r.forbiddenKinds);
    ChoicesBounded(r, allowed, forbidden);
    BoundedConcat(DEMANDS, CHOICES, DemandValues(r), ChoiceValues(r, allowed, forbidden));
  }

  lemma RequirementsInverse(r: Requirements<Bits>)
    ensures RequirementsOf(RequirementValues(r)) == r
  {
    var allowed, forbidden := List(CodeRows(r.allowedKinds)), List(CodeRows(r.forbiddenKinds));
    Halves(DemandValues(r), ChoiceValues(r, allowed, forbidden));
    RequirementsFromHalves(r, allowed, forbidden);
    assert CodesOf(CodeRows(r.allowedKinds)) == r.allowedKinds;
    assert CodesOf(CodeRows(r.forbiddenKinds)) == r.forbiddenKinds;
  }

  lemma RequirementsFromHalves(r: Requirements<Bits>, allowed: Value, forbidden: Value)
    requires allowed.List? && forbidden.List?
    ensures RequirementsFrom(DemandValues(r), ChoiceValues(r, allowed, forbidden))
         == r.(allowedKinds := CodesOf(allowed.items), forbiddenKinds := CodesOf(forbidden.items))
  {
  }

  lemma RequirementsRoundTrip(r: Requirements<Bits>)
    requires RequirementsWithinLimits(r)
    ensures DecodeRequirements(EncodeRequirements(r)) == Some(r)
  {
    RequirementsBounded(r);
    RequirementsInverse(r);
    RecordRoundTrip(REQUIREMENTS, RequirementValues(r));
  }

  lemma RequirementsSelfDelimiting(r: Requirements<Bits>, b: Bytes)
    requires RequirementsWithinLimits(r)
    requires b < EncodeRequirements(r) || EncodeRequirements(r) < b
    ensures DecodeRequirements(b).None?
  {
    RequirementsBounded(r);
    NeighboursRejected(REQUIREMENTS, RequirementValues(r), b);
  }

  // ---- Selection results ----

  const FACTOR: seq<Field> := [Text, U64F, U64F, U64F]
  const RANKED: seq<Field> := [U64F, U64F, U64F, U64F, U64F, Many(FACTOR)]
  const REJECTED: seq<Field> := [U64F, U64F, U64F, U8F, U64F]
  const SELECTION: seq<Field> := [U64F, U64F, U8F, Text, Many(RANKED), Many(REJECTED)]

  function FactorValues(f: RankingFactor<Bits>): (vs: seq<Value>)
    ensures AllFit(FACTOR, vs)
  {
    Spans();
    [Str(f.name), Num(f.raw), Num(f.normalized), Num(f.weight)]
  }

  function FactorOf(v: seq<Value>): RankingFactor<Bits> {
    RankingFactor(Chars(v, 0), Long(v, 1), Long(v, 2), Long(v, 3))
  }

  function FactorRows(fs: seq<RankingFactor<Bits>>): (rows: seq<seq<Value>>)
    ensures |rows| == |fs| && forall i :: 0 <= i < |rows| ==> AllFit(FACTOR, rows[i])
  {
    seq(|fs|, i requires 0 <= i < |fs| => FactorValues(fs[i]))
  }

  function FactorsOf(rows: seq<seq<Value>>): seq<RankingFactor<Bits>> {
    seq(|rows|, i requires 0 <= i < |rows| => FactorOf(rows[i]))
  }

  function RankedValues(c: RankedCandidate<Bits>): (vs: seq<Value>)
    ensures AllFit(RANKED, vs)
  {
    Spans();
    [Num(c.region), Num(c.provider), Num(c.pool), Num(c.bytes), Num(c.score), List(FactorRows(c.factors))]
  }

  function RankedOf(v: seq<Value>): RankedCandidate<Bits> {
    RankedCandidate(Long(v, 0), Long(v, 1), Long(v, 2), Long(v, 3), Long(v, 4), FactorsOf(Rows(v, 5)))
  }

  function RejectedValues(c: CandidateAssessment<Bits>): (vs: seq<Value>)
    ensures AllFit(REJECTED, vs)
  {
    Spans();
    [Num(c.region), Num(c.provider), Num(c.pool), Num(c.reason), Num(c.score)]
  }

  function RejectedOf(v: seq<Value>): CandidateAssessment<Bits> {
    CandidateAssessment(Long(v, 0), Long(v, 1), Long(v, 2), Byte(v, 3), Long(v, 4))
  }

  function RankedRows(cs: seq<RankedCandidate<Bits>>): (rows: seq<seq<Value>>)
    ensures |rows| == |cs| && forall i :: 0 <= i < |rows| ==> AllFit(RANKED, rows[i])
  {
    seq(|cs|, i requires 0 <= i < |cs| => RankedValues(cs[i]))
  }

  function RejectedRows(cs: seq<CandidateAssessment<Bits>>): (rows: seq<seq<Value>>)
    ensures |rows| == |cs| && forall i :: 0 <= i < |rows| ==> AllFit(REJECTED, rows[i])
  {
    seq(|cs|, i requires 0 <= i < |cs| => RejectedValues(cs[i]))
  }

  function SelectionValues(s: SelectionResult<Bits>): (vs: seq<Value>)
    ensures AllFit(SELECTION, vs)
  {
    Spans();
    [Num(s.id), Num(s.generation), Num(s.outcome), Str(s.tieBreakRule),
     List(RankedRows(s.ranked)), List(RejectedRows(s.rejected))]
  }

  function SelectionOf(v: seq<Value>): SelectionResult<Bits> {
    var ranked, rejected := Rows(v, 4), Rows(v, 5);
    SelectionResult(
      Long(v, 0), Long(v, 1), Byte(v, 2), Chars(v, 3),
      seq(|ranked|, i requires 0 <= i < |ranked| => RankedOf(ranked[i])),
      seq(|rejected|, i requires 0 <= i < |rejected| => RejectedOf(rejected[i])))
  }

  function EncodeSelection(s: SelectionResult<Bits>): Bytes { EncodeAll(SELECTION, SelectionValues(s)) }

  function DecodeSelection(b: Bytes): Option<SelectionResult<Bits>> {
    var vs :- DecodeRecord(SELECTION, b);
    Some(SelectionOf(vs))
  }

  predicate RankedWithinLimits(c: RankedCandidate<Bits>) {
    |c.factors| <= MAX_COUNT && forall i :: 0 <= i < |c.factors| ==> |c.factors[i].name| <= MAX_TEXT
  }

  predicate SelectionWithinLimits(s: SelectionResult<Bits>) {
    && |s.tieBreakRule| <= MAX_TEXT && |s.ranked| <= MAX_COUNT && |s.rejected| <= MAX_COUNT
    && forall i :: 0 <= i < |s.ranked| ==> RankedWithinLimits(s.ranked[i])
  }

  lemma RankedBounded(c: RankedCandidate<Bits>)
    requires RankedWithinLimits(c)
    ensures AllBounded(RANKED, RankedValues(c)) && RankedOf(RankedValues(c)) == c
  {
    var rows := FactorRows(c.factors);
    forall i | 0 <= i < |rows|
      ensures AllBounded(FACTOR, rows[i]) && FactorOf(rows[i]) == c.factors[i]
    {
      assert rows[i] == FactorValues(c.factors[i]);
    }
    assert FactorsOf(rows) == c.factors;
    assert Bounded(RANKED[5], RankedValues(c)[5]);
  }

  lemma SelectionBounded(s: SelectionResult<Bits>)
    requires SelectionWithinLimits(s)
    ensures AllBounded(SELECTION, SelectionValues(s)) && SelectionOf(SelectionValues(s)) == s
  {
    var ranked, rejected := RankedRows(s.ranked), RejectedRows(s.rejected);
    forall i | 0 <= i < |ranked|
      ensures AllBounded(RANKED, ranked[i]) && RankedOf(ranked[i]) == s.ranked[i]
    {
      RankedBounded(s.ranked[i]);
    }
    forall i | 0 <= i < |rejected|
      ensures AllBounded(REJECTED, rejected[i]) && RejectedOf(rejected[i]) == s.rejected[i]
    {
      assert rejected[i] == RejectedValues(s.rejected[i]);
    }
    var vs := SelectionValues(s);
    assert Bounded(SELECTION[4], vs[4]) && Bounded(SELECTION[5], vs[5]);
    assert SelectionOf(vs).ranked == s.ranked && SelectionOf(vs).rejected == s.rejected;
  }

  lemma SelectionRoundTrip(s: SelectionResult<Bits>)
    requires SelectionWithinLimits(s)
    ensures DecodeSelection(EncodeSelection(s)) == Some(s)
  {
    SelectionBounded(s);
    RecordRoundTrip(SELECTION, SelectionValues(s));
  }

  lemma SelectionSelfDelimiting(s: SelectionResult<Bits>, b: Bytes)
    requires SelectionWithinLimits(s)
    requires b < EncodeSelection(s) || EncodeSelection(s) < b
    ensures DecodeSelection(b).None?
  {
    SelectionBounded(s);
    NeighboursRejected(SELECTION, SelectionValues(s), b);
  }

  // ---- Reservations ----

  const BINDING: seq<Field> := [U64F, U64F, U64F, U64F, U64F, U64F, U64F, U64F, U64F, U64F, U64F, U64F]
  const HOLDING: seq<Field> := [U64F, U64F, U64F, U64F, U64F, U64F, U64F, U8F, U64F, U64F, Text]
  const RESERVATION: seq<Field> := BINDING + HOLDING

  function StateCode(s: ReservationState): U8 {
    match s
    case Requested => 0 case Evaluated => 1 case Reserved => 2 case Committed => 3 case Active => 4
    case Released => 5 case Rejected => 6 case Expired => 7 case Fenced => 8
    case RevalidationRequired => 9 case Cancelled => 10 case Unnamed(code) => code
  }

  function StateOf(code: U8): ReservationState {
    if code == 0 then Requested else if code == 1 then Evaluated else if code == 2 then Reserved
    else if code == 3 then Committed else if code == 4 then Active else if code == 5 then Released
    else if code == 6 then Rejected else if code == 7 then Expired else if code == 8 then Fenced
    else if code == 9 then ReservationState.RevalidationRequired else if code == 10 then Cancelled
    else Unnamed(code)
  }

  function BindingValues(r: Reservation): seq<Value> {
    [Num(r.id), Num(r.generation), Num(r.consumer), Num(r.consumerGeneration), Num(r.provider),
     Num(r.providerGeneration), Num(r.region), Num(r.regionGeneration), Num(r.pool), Num(r.poolGeneration),
     Num(r.policy), Num(r.policyGeneration)]
  }

  function HoldingValues(r: Reservation): seq<Value> {
    [Num(r.selection), Num(r.selectionGeneration), Num(r.evidenceGeneration), Num(r.worker), Num(r.boot),
     Num(r.epoch), Num(r.bytes), Num(StateCode(r.state)), Num(r.createdAtMs), Num(r.expiresAtMs), Str(r.note)]
  }

  function ReservationValues(r: Reservation): seq<Value> { BindingValues(r) + HoldingValues(r) }

  function ReservationOf(vs: seq<Value>): Reservation { ReservationFrom(Take(vs, 12), Drop(vs, 12)) }

  function ReservationFrom(v: seq<Value>, w: seq<Value>): Reservation {
    Reservation(
      Long(v, 0), Long(v, 1), Long(v, 2), Long(v, 3), Long(v, 4), Long(v, 5), Long(v, 6), Long(v, 7),
      Long(v, 8), Long(v, 9), Long(v, 10), Long(v, 11), Long(w, 0), Long(w, 1), Long(w, 2),
      Long(w, 3), Long(w, 4), Long(w, 5), Long(w, 6), StateOf(Byte(w, 7)), Long(w, 8), Long(w, 9),
      Chars(w, 10))
  }

  lemma ReservationHalvesFit(r: Reservation)
    ensures AllFit(BINDING, BindingValues(r)) && AllFit(HOLDING, HoldingValues(r))
    ensures AllBounded(BINDING, BindingValues(r))
    ensures |r.note| <= MAX_TEXT ==> AllBounded(HOLDING, HoldingValues(r))
  {
    Spans();
  }

  lemma ReservationFits(r: Reservation)
    ensures AllFit(RESERVATION, ReservationValues(r))
  {
    ReservationHalvesFit(r);
    FitsConcat(BINDING, HOLDING, BindingValues(r), HoldingValues(r));
  }

  function EncodeReservation(r: Reservation): Bytes {
    ReservationFits(r);
    EncodeAll(RESERVATION, ReservationValues(r))
  }

  function DecodeReservation(b: Bytes): Option<Reservation> {
    var vs :- DecodeRecord(RESERVATION, b);
    Some(ReservationOf(vs))
  }

  /** A state is one of the eleven enumerators, or a byte outside their range. */
  predicate ReservationWithinLimits(r: Reservation) {
    |r.note| <= MAX_TEXT && (r.state.Unnamed? ==> r.state.code > 10)
  }

  lemma ReservationBounded(r: Reservation)
    requires ReservationWithinLimits(r)
    ensures AllFit(RESERVATION, ReservationValues(r)) && AllBounded(RESERVATION, ReservationValues(r))
  {
    ReservationHalvesFit(r);
    BoundedConcat(BINDING, HOLDING, BindingValues(r), HoldingValues(r));
  }

  lemma ReservationInverse(r: Reservation)
    requires ReservationWithinLimits(r)
    ensures ReservationOf(ReservationValues(r)) == r
  {
    Halves(BindingValues(r), HoldingValues(r));
    ReservationFromHalves(r);
  }

  lemma ReservationFromHalves(r: Reservation)
    requires ReservationWithinLimits(r)
    ensures ReservationFrom(BindingValues(r), HoldingValues(r)) == r
  {
    assert StateOf(StateCode(r.state)) == r.state;
  }

  lemma ReservationRoundTrip(r: Reservation)
    requires ReservationWithinLimits(r)
    ensures DecodeReservation(EncodeReservation(r)) == Some(r)
  {
    ReservationBounded(r);
    ReservationInverse(r);
    RecordRoundTrip(RESERVATION, ReservationValues(r));
  }

  lemma ReservationSelfDelimiting(r: Reservation, b: Bytes)
    requires ReservationWithinLimits(r)
    requires b < EncodeReservation(r) || EncodeReservation(r) < b
    ensures DecodeReservation(b).None?
  {
    ReservationBounded(r);
    NeighboursRejected(RESERVATION, ReservationValues(r), b);
  }
}
