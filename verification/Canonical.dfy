/**
 The typed payload codecs on all their inputs: which values read back, and which accepted byte
 sequences are what the encoder would have written.
 */
module Canonical {
  import opened Words
  import opened Wire
  import opened Types
  import opened Payloads

  /** Two records within the limits have the same bytes only if they are the same. */
  lemma SameBytesIff(fs: seq<Field>, vs: seq<Value>, ws: seq<Value>)
    requires AllFit(fs, vs) && AllBounded(fs, vs) && AllFit(fs, ws) && AllBounded(fs, ws)
    ensures EncodeAll(fs, vs) == EncodeAll(fs, ws) <==> vs == ws
  {
    RecordRoundTrip(fs, vs);
    RecordRoundTrip(fs, ws);
  }

  lemma ReadsBack(fs: seq<Field>, vs: seq<Value>)
    requires AllFit(fs, vs) && AllSolid(fs) && |EncodeAll(fs, vs)| < U32_SPAN
    ensures DecodeRecord(fs, EncodeAll(fs, vs)) == if AllBounded(fs, vs) then Some(vs) else None
  {
    SmallRecordIsCountable(fs, vs);
    ReadableIffBounded(fs, vs);
    if AllBounded(fs, vs) { RecordRoundTrip(fs, vs); }
  }

  predicate IsFlag(v: Value) { v.Num? && v.n <= 1 }

  /** What reading the i-th value of a record gives, field by field. */
  lemma Reading(fs: seq<Field>, vs: seq<Value>, i: nat)
    requires AllFit(fs, vs) && i < |fs|
    ensures fs[i] == U64F ==> Num(Long(vs, i)) == vs[i]
    ensures fs[i] == U8F ==> Num(Byte(vs, i)) == vs[i] && (Flag(Bool(vs, i)) == vs[i] <==> IsFlag(vs[i]))
    ensures fs[i] == Text ==> Str(Chars(vs, i)) == vs[i]
    ensures fs[i].Many? ==> List(Rows(vs, i)) == vs[i]
  {
    Spans();
    assert Fits(fs[i], vs[i]);
  }

  lemma Readings(fs: seq<Field>, vs: seq<Value>)
    requires AllFit(fs, vs)
    ensures forall i :: 0 <= i < |fs| && fs[i] == U64F ==> Num(Long(vs, i)) == vs[i]
    ensures forall i :: 0 <= i < |fs| && fs[i] == U8F ==> Num(Byte(vs, i)) == vs[i]
    ensures forall i :: 0 <= i < |fs| && fs[i] == U8F ==> (Flag(Bool(vs, i)) == vs[i] <==> IsFlag(vs[i]))
    ensures forall i :: 0 <= i < |fs| && fs[i] == Text ==> Str(Chars(vs, i)) == vs[i]
    ensures forall i :: 0 <= i < |fs| && fs[i].Many? ==> List(Rows(vs, i)) == vs[i]
  {
    assert |vs| == |fs|;
    hide AllFit, Long, Byte, Bool, Chars, Rows, Flag, IsFlag;
    forall i: nat | i < |fs|
      ensures fs[i] == U64F ==> Num(Long(vs, i)) == vs[i]
      ensures fs[i] == U8F ==> Num(Byte(vs, i)) == vs[i] && (Flag(Bool(vs, i)) == vs[i] <==> IsFlag(vs[i]))
      ensures fs[i] == Text ==> Str(Chars(vs, i)) == vs[i]
      ensures fs[i].Many? ==> List(Rows(vs, i)) == vs[i]
    {
      Reading(fs, vs, i);
    }
  }

  // ---- Region evidence ----

  lemma EvidenceSolid()
    ensures AllSolid(EVIDENCE)
  {
  }

  lemma EvidenceLimits(e: RegionEvidence)
    ensures AllFit(EVIDENCE, EvidenceValues(e))
    ensures AllBounded(EVIDENCE, EvidenceValues(e)) <==> EvidenceWithinLimits(e)
  {
    EvidenceFits(e);
    if AllBounded(EVIDENCE, EvidenceValues(e)) { assert Bounded(EVIDENCE[11], EvidenceValues(e)[11]); }
  }

  /** Evidence reads back as it was exactly when its provenance is within the limit; otherwise it is refused. */
  lemma EvidenceReadableIff(e: RegionEvidence)
    requires |EncodeEvidence(e)| < U32_SPAN
    ensures DecodeEvidence(EncodeEvidence(e)) == if EvidenceWithinLimits(e) then Some(e) else None
  {
    EvidenceLimits(e);
    EvidenceInverse(e);
    EvidenceSolid();
    hide AllFit, AllBounded, AllSolid, EvidenceValues, EvidenceOf, EncodeAll, DecodeRecord, EvidenceWithinLimits;
    ReadsBack(EVIDENCE, EvidenceValues(e));
  }

  lemma EvidenceValuesOf(vs: seq<Value>)
    requires AllFit(EVIDENCE, vs)
    ensures EvidenceValues(EvidenceOf(vs)) == vs <==> IsFlag(vs[14])
  {
    Readings(EVIDENCE, vs);
    assert |vs| == |EVIDENCE|;
    hide AllFit, Long, Byte, Bool, Chars, Flag, IsFlag;
    var ws := EvidenceValues(EvidenceOf(vs));
    assert ws[14] == vs[14] <==> IsFlag(vs[14]);
    forall i | 0 <= i < |vs| && i != 14 ensures ws[i] == vs[i] { }
  }

  /** What the decoder accepts is what the encoder writes for it exactly when the reachable byte is 0 or 1. */
  lemma EvidenceReencodesIff(b: Bytes)
    requires DecodeEvidence(b).Some?
    ensures var vs := DecodeRecord(EVIDENCE, b).value;
            |vs| == |EVIDENCE| && (EncodeEvidence(DecodeEvidence(b).value) == b <==> IsFlag(vs[14]))
  {
    RecordExact(EVIDENCE, b);
    var vs := DecodeRecord(EVIDENCE, b).value;
    var e := EvidenceOf(vs);
    EvidenceValuesOf(vs);
    assert Bounded(EVIDENCE[11], vs[11]);
    EvidenceLimits(e);
    hide AllBounded, EvidenceValues, EncodeAll, DecodeRecord;
    SameBytesIff(EVIDENCE, EvidenceValues(e), vs);
  }

  lemma SpeltTwo(vs: seq<Value>)
    requires AllFit(EVIDENCE, vs) && AllBounded(EVIDENCE, vs)
    ensures AllFit(EVIDENCE, vs[14 := Num(2)]) && AllBounded(EVIDENCE, vs[14 := Num(2)])
  {
    Spans();
    var ws := vs[14 := Num(2)];
    forall i | 0 <= i < |EVIDENCE| ensures Fits(EVIDENCE[i], ws[i]) && Bounded(EVIDENCE[i], ws[i]) {
      if i != 14 { assert Fits(EVIDENCE[i], vs[i]) && Bounded(EVIDENCE[i], vs[i]); }
    }
  }

  lemma FlagElsewhere(vs: seq<Value>, v: Value)
    requires |vs| == 21
    ensures EvidenceOf(vs[14 := v]) == EvidenceOf(vs).(reachable := Bool([v], 0))
  {
  }

  lemma SpeltTwoReads(e: RegionEvidence)
    requires e.reachable
    ensures |EvidenceValues(e)| == 21 && EvidenceOf(EvidenceValues(e)[14 := Num(2)]) == e
  {
    EvidenceInverse(e);
    FlagElsewhere(EvidenceValues(e), Num(2));
    hide EvidenceOf;
  }

  /** Evidence of a reachable region has a second spelling, with 2 for the flag, that is accepted and never written. */
  lemma ReachableSpeltTwo(e: RegionEvidence) returns (b: Bytes)
    requires EvidenceWithinLimits(e) && e.reachable
    ensures DecodeEvidence(b) == Some(e) && EncodeEvidence(e) != b
  {
    var vs := EvidenceValues(e);
    assert vs[14] == Num(1);
    EvidenceLimits(e);
    SpeltTwo(vs);
    SpeltTwoReads(e);
    hide AllFit, AllBounded, EvidenceValues, EvidenceOf, EncodeAll, DecodeRecord;
    b := EncodeAll(EVIDENCE, vs[14 := Num(2)]);
    RecordRoundTrip(EVIDENCE, vs[14 := Num(2)]);
    SameBytesIff(EVIDENCE, vs, vs[14 := Num(2)]);
  }

  // ---- Consumer requirements ----


  lemma RequirementsOverLimit(r: Requirements<Bits>)
    requires AllFit(REQUIREMENTS, RequirementValues(r)) && AllBounded(REQUIREMENTS, RequirementValues(r))
    ensures RequirementsWithinLimits(r)
  {
    var vs := RequirementValues(r);
    assert vs[12] == List(CodeRows(r.allowedKinds)) && vs[13] == List(CodeRows(r.forbiddenKinds));
    assert Bounded(REQUIREMENTS[12], vs[12]) && Bounded(REQUIREMENTS[13], vs[13]);
  }

  lemma RequirementsLimits(r: Requirements<Bits>)
    ensures AllFit(REQUIREMENTS, RequirementValues(r))
    ensures AllBounded(REQUIREMENTS, RequirementValues(r)) <==> RequirementsWithinLimits(r)
  {
    RequirementsFits(r);
    hide AllFit, AllBounded, RequirementValues, RequirementsWithinLimits;
    if RequirementsWithinLimits(r) { RequirementsBounded(r); }
    if AllBounded(REQUIREMENTS, RequirementValues(r)) { RequirementsOverLimit(r); }
  }

  lemma RequirementsSolid()
    ensures AllSolid(REQUIREMENTS)
  {
    assert Solid(U8F) && AllSolid([U8F]);
  }

  /** Requirements read back as they were exactly when both kind lists are within the limit. */
  lemma RequirementsReadableIff(r: Requirements<Bits>)
    requires |EncodeRequirements(r)| < U32_SPAN
    ensures DecodeRequirements(EncodeRequirements(r)) == if RequirementsWithinLimits(r) then Some(r) else None
  {
    RequirementsLimits(r);
    RequirementsInverse(r);
    RequirementsSolid();
    hide AllFit, AllBounded, AllSolid, RequirementValues, RequirementsOf, EncodeAll, DecodeRecord, RequirementsWithinLimits;
    ReadsBack(REQUIREMENTS, RequirementValues(r));
  }

  /** The flags of the first and of the second half, by position. */
  predicate DemandFlags(v: seq<Value>)
    requires |v| == |DEMANDS|
  {
    IsFlag(v[4]) && IsFlag(v[5]) && IsFlag(v[6]) && IsFlag(v[7]) && IsFlag(v[8])
  }

  predicate ChoiceFlags(w: seq<Value>)
    requires |w| == |CHOICES|
  {
    IsFlag(w[2]) && IsFlag(w[4]) && IsFlag(w[5]) && IsFlag(w[6]) && IsFlag(w[7]) && IsFlag(w[8])
  }

  function DemandsRead(v: seq<Value>): seq<Value> {
    [Num(Long(v, 0)), Num(Long(v, 1)), Num(Long(v, 2)), Num(Long(v, 3)), Flag(Bool(v, 4)), Flag(Bool(v, 5)),
     Flag(Bool(v, 6)), Flag(Bool(v, 7)), Flag(Bool(v, 8)), Num(Long(v, 9)), Num(Long(v, 10)), Num(Byte(v, 11))]
  }

  lemma DemandsReadIs(v: seq<Value>, w: seq<Value>)
    ensures DemandValues(RequirementsFrom(v, w)) == DemandsRead(v)
  {
    hide Long, Byte, Bool, Flag, CodesOf;
  }

  lemma DemandsReadIff(v: seq<Value>)
    requires AllFit(DEMANDS, v)
    ensures DemandsRead(v) == v <==> DemandFlags(v)
  {
    Readings(DEMANDS, v);
    assert |v| == |DEMANDS|;
    hide AllFit, Long, Byte, Bool, Flag, IsFlag;
    forall i | 0 <= i < |v| && !(4 <= i <= 8) ensures DemandsRead(v)[i] == v[i] { }
    forall i | 4 <= i <= 8 ensures DemandsRead(v)[i] == v[i] <==> IsFlag(v[i]) { }
  }

  lemma CodeRowsOf(rows: seq<seq<Value>>)
    requires forall i :: 0 <= i < |rows| ==> AllFit([U8F], rows[i])
    ensures CodeRows(CodesOf(rows)) == rows
  {
    Spans();
    forall i | 0 <= i < |rows| ensures CodeRows(CodesOf(rows))[i] == rows[i] { assert Fits([U8F][0], rows[i][0]); }
  }

  lemma ListsOf(w: seq<Value>)
    requires AllFit(CHOICES, w)
    ensures List(CodeRows(CodesOf(Rows(w, 0)))) == w[0] && List(CodeRows(CodesOf(Rows(w, 1)))) == w[1]
  {
    assert Fits(CHOICES[0], w[0]) && Fits(CHOICES[1], w[1]);
    CodeRowsOf(w[0].items);
    CodeRowsOf(w[1].items);
  }

  function ChoicesRead(w: seq<Value>): seq<Value> {
    [List(CodeRows(CodesOf(Rows(w, 0)))), List(CodeRows(CodesOf(Rows(w, 1)))), Flag(Bool(w, 2)), Num(Long(w, 3)),
     Flag(Bool(w, 4)), Flag(Bool(w, 5)), Flag(Bool(w, 6)), Flag(Bool(w, 7)), Flag(Bool(w, 8)), Num(Long(w, 9)),
     Num(Long(w, 10)), Num(Long(w, 11))]
  }

  lemma ChoicesReadIs(v: seq<Value>, w: seq<Value>)
    ensures var r := RequirementsFrom(v, w);
            ChoiceValues(r, List(CodeRows(r.allowedKinds)), List(CodeRows(r.forbiddenKinds))) == ChoicesRead(w)
  {
    hide Long, Byte, Bool, Flag, CodesOf, CodeRows, Rows;
  }

  lemma ChoicesReadIff(w: seq<Value>)
    requires AllFit(CHOICES, w)
    ensures ChoicesRead(w) == w <==> ChoiceFlags(w)
  {
    Readings(CHOICES, w);
    ListsOf(w);
    assert |w| == |CHOICES|;
    hide AllFit, Long, Byte, Bool, Rows, Flag, IsFlag, CodesOf, CodeRows;
    forall i | 0 <= i < |w| && i != 2 && !(4 <= i <= 8) ensures ChoicesRead(w)[i] == w[i] { }
    forall i | i == 2 || 4 <= i <= 8 ensures ChoicesRead(w)[i] == w[i] <==> IsFlag(w[i]) { }
  }

  lemma HalvesFit(vs: seq<Value>)
    requires AllFit(REQUIREMENTS, vs)
    ensures vs == Take(vs, 12) + Drop(vs, 12) && AllFit(DEMANDS, Take(vs, 12)) && AllFit(CHOICES, Drop(vs, 12))
  {
    assert |vs| == |DEMANDS| + |CHOICES|;
    forall i | 0 <= i < |DEMANDS| ensures Fits(DEMANDS[i], vs[..12][i]) { assert Fits(REQUIREMENTS[i], vs[i]); }
    forall i | 0 <= i < |CHOICES| ensures Fits(CHOICES[i], vs[12..][i]) { assert Fits(REQUIREMENTS[12 + i], vs[12 + i]); }
  }

  /** The eleven flag bytes of the requirements are 0 or 1. */
  predicate RequirementFlags(vs: seq<Value>)
    requires |vs| == |REQUIREMENTS|
  {
    DemandFlags(Take(vs, 12)) && ChoiceFlags(Drop(vs, 12))
  }

  lemma ConcatIff(v: seq<Value>, v': seq<Value>, w: seq<Value>, w': seq<Value>)
    requires |v| == |v'|
    ensures v + w == v' + w' <==> v == v' && w == w'
  {
    if v + w == v' + w' {
      assert v == (v + w)[..|v|] && w == (v + w)[|v|..];
      assert v' == (v' + w')[..|v|] && w' == (v' + w')[|v|..];
    }
  }

  lemma RequirementValuesOf(vs: seq<Value>)
    requires AllFit(REQUIREMENTS, vs)
    ensures RequirementValues(RequirementsOf(vs)) == vs <==> RequirementFlags(vs)
  {
    HalvesFit(vs);
    var v, w := Take(vs, 12), Drop(vs, 12);
    assert |v| == |DemandsRead(v)|;
    DemandsReadIs(v, w);
    ChoicesReadIs(v, w);
    DemandsReadIff(v);
    ChoicesReadIff(w);
    hide AllFit, DemandValues, ChoiceValues, RequirementsFrom, DemandsRead, ChoicesRead, DemandFlags, ChoiceFlags, CodeRows;
    ConcatIff(DemandsRead(v), v, ChoicesRead(w), w);
  }

  lemma RequirementsKeepLimits(vs: seq<Value>)
    requires AllFit(REQUIREMENTS, vs) && AllBounded(REQUIREMENTS, vs)
    ensures RequirementsWithinLimits(RequirementsOf(vs))
  {
    assert Bounded(REQUIREMENTS[12], vs[12]) && Bounded(REQUIREMENTS[13], vs[13]);
    assert Drop(vs, 12)[0] == vs[12] && Drop(vs, 12)[1] == vs[13];
    hide Long, Byte, Bool;
  }

  /** What the decoder accepts is what the encoder writes for it exactly when every flag byte is 0 or 1. */
  lemma RequirementsReencodeIff(b: Bytes)
    requires DecodeRequirements(b).Some?
    ensures var vs := DecodeRecord(REQUIREMENTS, b).value;
            |vs| == |REQUIREMENTS| && (EncodeRequirements(DecodeRequirements(b).value) == b <==> RequirementFlags(vs))
  {
    RecordExact(REQUIREMENTS, b);
    var vs := DecodeRecord(REQUIREMENTS, b).value;
    assert |vs| == |REQUIREMENTS|;
    var r := RequirementsOf(vs);
    RequirementValuesOf(vs);
    RequirementsKeepLimits(vs);
    RequirementsLimits(r);
    hide AllFit, AllBounded, RequirementValues, RequirementsOf, EncodeAll, DecodeRecord, RequirementFlags;
    SameBytesIff(REQUIREMENTS, RequirementValues(r), vs);
  }

  // ---- Selection results ----

  lemma FactorsLimits(fs: seq<RankingFactor<Bits>>)
    ensures Fits(Many(FACTOR), List(FactorRows(fs)))
    ensures Bounded(Many(FACTOR), List(FactorRows(fs)))
       <==> |fs| <= MAX_COUNT && forall i :: 0 <= i < |fs| ==> |fs[i].name| <= MAX_TEXT
  {
    var rows := FactorRows(fs);
    forall i | 0 <= i < |rows| ensures AllBounded(FACTOR, rows[i]) <==> |fs[i].name| <= MAX_TEXT {
      assert rows[i] == FactorValues(fs[i]);
      if AllBounded(FACTOR, rows[i]) { assert Bounded(FACTOR[0], rows[i][0]); }
    }
  }

  lemma RankedLimits(c: RankedCandidate<Bits>)
    ensures AllBounded(RANKED, RankedValues(c)) <==> RankedWithinLimits(c)
  {
    FactorsLimits(c.factors);
    hide FactorRows;
    var vs := RankedValues(c);
    assert RANKED[5] == Many(FACTOR) && vs[5] == List(FactorRows(c.factors));
    if AllBounded(RANKED, vs) { assert Bounded(RANKED[5], vs[5]); }
  }

  lemma RejectedLimits(c: CandidateAssessment<Bits>)
    ensures AllBounded(REJECTED, RejectedValues(c))
  {
  }

  lemma SelectionListsLimits(s: SelectionResult<Bits>)
    ensures Fits(Many(RANKED), List(RankedRows(s.ranked))) && Fits(Many(REJECTED), List(RejectedRows(s.rejected)))
    ensures Bounded(Many(RANKED), List(RankedRows(s.ranked)))
       <==> |s.ranked| <= MAX_COUNT && forall i :: 0 <= i < |s.ranked| ==> RankedWithinLimits(s.ranked[i])
    ensures Bounded(Many(REJECTED), List(RejectedRows(s.rejected))) <==> |s.rejected| <= MAX_COUNT
  {
    hide RankedValues, RejectedValues, RankedWithinLimits;
    var ranked, rejected := RankedRows(s.ranked), RejectedRows(s.rejected);
    forall i | 0 <= i < |ranked| ensures AllBounded(RANKED, ranked[i]) <==> RankedWithinLimits(s.ranked[i]) {
      assert ranked[i] == RankedValues(s.ranked[i]);
      RankedLimits(s.ranked[i]);
    }
    forall i | 0 <= i < |rejected| ensures AllBounded(REJECTED, rejected[i]) {
      assert rejected[i] == RejectedValues(s.rejected[i]);
      RejectedLimits(s.rejected[i]);
    }
  }

  lemma SelectionLimits(s: SelectionResult<Bits>)
    ensures AllBounded(SELECTION, SelectionValues(s)) <==> SelectionWithinLimits(s)
  {
    SelectionListsLimits(s);
    hide RankedRows, RejectedRows, RankedWithinLimits;
    var vs := SelectionValues(s);
    if AllBounded(SELECTION, vs) {
      assert Bounded(SELECTION[3], vs[3]) && Bounded(SELECTION[4], vs[4]) && Bounded(SELECTION[5], vs[5]);
    }
  }

  lemma SelectionSolid()
    ensures AllSolid(SELECTION)
  {
    assert AllSolid(FACTOR) && AllSolid(REJECTED);
    assert Solid(Many(FACTOR)) && AllSolid(RANKED);
  }

  /** A selection reads back as it was exactly when its texts and lists, nested ones too, are within the limits. */
  lemma SelectionReadableIff(s: SelectionResult<Bits>)
    requires |EncodeSelection(s)| < U32_SPAN
    ensures DecodeSelection(EncodeSelection(s)) == if SelectionWithinLimits(s) then Some(s) else None
  {
    SelectionLimits(s);
    SelectionSolid();
    if SelectionWithinLimits(s) { SelectionBounded(s); }
    hide AllFit, AllBounded, AllSolid, SelectionValues, SelectionOf, EncodeAll, DecodeRecord, SelectionWithinLimits;
    ReadsBack(SELECTION, SelectionValues(s));
  }

  lemma FactorValuesOf(v: seq<Value>)
    requires AllFit(FACTOR, v)
    ensures FactorValues(FactorOf(v)) == v
  {
    Readings(FACTOR, v);
    hide Long, Chars;
  }

  lemma FactorRowsOf(rows: seq<seq<Value>>)
    requires forall i :: 0 <= i < |rows| ==> AllFit(FACTOR, rows[i])
    ensures FactorRows(FactorsOf(rows)) == rows
  {
    hide FactorValues, FactorOf;
    forall i | 0 <= i < |rows| ensures FactorRows(FactorsOf(rows))[i] == rows[i] { FactorValuesOf(rows[i]); }
  }

  lemma RankedValuesOf(v: seq<Value>)
    requires AllFit(RANKED, v)
    ensures RankedValues(RankedOf(v)) == v
  {
    Readings(RANKED, v);
    assert Fits(RANKED[5], v[5]);
    FactorRowsOf(v[5].items);
    hide Long, FactorRows, FactorsOf;
  }

  lemma RejectedValuesOf(v: seq<Value>)
    requires AllFit(REJECTED, v)
    ensures RejectedValues(RejectedOf(v)) == v
  {
    Readings(REJECTED, v);
    hide Long, Byte;
  }

  lemma SelectionListsOf(vs: seq<Value>)
    requires AllFit(SELECTION, vs)
    ensures var s := SelectionOf(vs);
            List(RankedRows(s.ranked)) == vs[4] && List(RejectedRows(s.rejected)) == vs[5]
  {
    assert Fits(SELECTION[4], vs[4]) && Fits(SELECTION[5], vs[5]);
    var s := SelectionOf(vs);
    hide RankedValues, RankedOf, RejectedValues, RejectedOf, Long, Byte, Chars;
    forall i | 0 <= i < |vs[4].items| ensures RankedRows(s.ranked)[i] == vs[4].items[i] { RankedValuesOf(vs[4].items[i]); }
    forall i | 0 <= i < |vs[5].items| ensures RejectedRows(s.rejected)[i] == vs[5].items[i] { RejectedValuesOf(vs[5].items[i]); }
  }

  lemma SelectionValuesOf(vs: seq<Value>)
    requires AllFit(SELECTION, vs)
    ensures SelectionValues(SelectionOf(vs)) == vs
  {
    Readings(SELECTION, vs);
    SelectionListsOf(vs);
    assert |vs| == 6;
    hide AllFit, Long, Byte, Chars, RankedRows, RejectedRows, RankedOf, RejectedOf;
    var ws := SelectionValues(SelectionOf(vs));
    forall i | 0 <= i < 6 ensures ws[i] == vs[i] { }
  }

  /** Every accepted selection payload is what the encoder writes for the selection it stands for. */
  lemma SelectionReencodes(b: Bytes)
    requires DecodeSelection(b).Some?
    ensures EncodeSelection(DecodeSelection(b).value) == b
  {
    RecordExact(SELECTION, b);
    SelectionValuesOf(DecodeRecord(SELECTION, b).value);
    hide SelectionValues, SelectionOf, EncodeAll, DecodeRecord;
  }

  // ---- Reservations ----

  lemma ReservationLimits(r: Reservation)
    ensures AllFit(RESERVATION, ReservationValues(r))
    ensures AllBounded(RESERVATION, ReservationValues(r)) <==> |r.note| <= MAX_TEXT
  {
    ReservationFits(r);
    var vs := ReservationValues(r);
    if |r.note| <= MAX_TEXT {
      ReservationHalvesFit(r);
      BoundedConcat(BINDING, HOLDING, BindingValues(r), HoldingValues(r));
    }
    if AllBounded(RESERVATION, vs) {
      assert vs[22] == Str(r.note) && RESERVATION[22] == Text;
      assert Bounded(RESERVATION[22], vs[22]);
    }
  }

  /** The state as its byte names it: a byte that names a state is never left unnamed. */
  function Named(r: Reservation): Reservation { r.(state := StateOf(StateCode(r.state))) }

  lemma NamedValues(r: Reservation)
    ensures ReservationValues(Named(r)) == ReservationValues(r) && (Named(r).state.Unnamed? ==> Named(r).state.code > 10)
  {
    assert StateCode(StateOf(StateCode(r.state))) == StateCode(r.state);
  }

  lemma ReservationSolid()
    ensures AllSolid(RESERVATION)
  {
  }

  /** A reservation reads back exactly when its note is within the limit, with its state byte named. */
  lemma ReservationReadableIff(r: Reservation)
    requires |EncodeReservation(r)| < U32_SPAN
    ensures DecodeReservation(EncodeReservation(r)) == if |r.note| <= MAX_TEXT then Some(Named(r)) else None
  {
    ReservationLimits(r);
    ReservationSolid();
    NamedValues(r);
    if |r.note| <= MAX_TEXT { ReservationInverse(Named(r)); }
    hide AllFit, AllBounded, AllSolid, ReservationValues, ReservationOf, EncodeAll, DecodeRecord, Named;
    ReadsBack(RESERVATION, ReservationValues(r));
  }

  lemma BindingValuesOf(v: seq<Value>, w: seq<Value>)
    requires AllFit(BINDING, v)
    ensures BindingValues(ReservationFrom(v, w)) == v
  {
    Readings(BINDING, v);
    hide AllFit, Long, Byte, Chars, StateOf;
    forall i | 0 <= i < 12 ensures BindingValues(ReservationFrom(v, w))[i] == v[i] { }
  }

  lemma HoldingValuesOf(v: seq<Value>, w: seq<Value>)
    requires AllFit(HOLDING, w)
    ensures HoldingValues(ReservationFrom(v, w)) == w
  {
    Readings(HOLDING, w);
    assert StateCode(StateOf(Byte(w, 7))) == Byte(w, 7);
    assert |w| == |HOLDING|;
    hide AllFit, Long, Byte, Chars, StateOf, StateCode;
    forall i | 0 <= i < 11 ensures HoldingValues(ReservationFrom(v, w))[i] == w[i] { }
  }

  lemma ReservationValuesOf(vs: seq<Value>)
    requires AllFit(RESERVATION, vs)
    ensures ReservationValues(ReservationOf(vs)) == vs
  {
    assert |vs| == |BINDING| + |HOLDING|;
    var v, w := Take(vs, 12), Drop(vs, 12);
    forall i | 0 <= i < |BINDING| ensures Fits(BINDING[i], v[i]) { assert Fits(RESERVATION[i], vs[i]); }
    forall i | 0 <= i < |HOLDING| ensures Fits(HOLDING[i], w[i]) { assert Fits(RESERVATION[12 + i], vs[12 + i]); }
    hide BindingValues, HoldingValues, ReservationFrom;
    BindingValuesOf(v, w);
    HoldingValuesOf(v, w);
  }

  /** Every accepted reservation payload is what the encoder writes for the reservation it stands for. */
  lemma ReservationReencodes(b: Bytes)
    requires DecodeReservation(b).Some?
    ensures EncodeReservation(DecodeReservation(b).value) == b
  {
    RecordExact(RESERVATION, b);
    ReservationValuesOf(DecodeRecord(RESERVATION, b).value);
    hide ReservationValues, ReservationOf, EncodeAll, DecodeRecord;
  }
}
