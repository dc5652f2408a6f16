/**
 The bytes themselves: every frame, payload and state file as a concatenation of little-endian words, counted texts
 and counted repetitions, in order.
 */
module Layouts {
  import opened Words
  import opened Wire
  import opened Types
  import opened Payloads
  import Crc
  import Frames
  import Persistence
  import StateFile

  // ---- Pieces ----

  function Long8(x: U64): Bytes { LittleEndian(x, 8) }
  function Switch(b: bool): Bytes { [if b then 1 else 0] }
  function Counted(text: Bytes): Bytes { LittleEndian(|text|, 4) + text }
  function Repeated(rows: seq<Bytes>): Bytes { LittleEndian(|rows|, 4) + Frames.Flatten(rows) }

  // ---- Records and repetitions ----

  function Pieces(fs: seq<Field>, vs: seq<Value>): seq<Bytes>
    requires AllFit(fs, vs)
  {
    seq(|fs|, i requires 0 <= i < |fs| => Encode(fs[i], vs[i]))
  }

  lemma {:induction false} RecordJoins(fs: seq<Field>, vs: seq<Value>)
    requires AllFit(fs, vs)
    ensures EncodeAll(fs, vs) == Frames.Flatten(Pieces(fs, vs))
    decreases |fs|
  {
    if fs != [] {
      RecordJoins(fs[1..], vs[1..]);
      assert Pieces(fs, vs)[1..] == Pieces(fs[1..], vs[1..]);
    }
  }

  function RowPieces(fs: seq<Field>, items: seq<seq<Value>>): seq<Bytes>
    requires forall i :: 0 <= i < |items| ==> AllFit(fs, items[i])
  {
    seq(|items|, i requires 0 <= i < |items| => EncodeAll(fs, items[i]))
  }

  lemma {:induction false} RowsJoin(fs: seq<Field>, items: seq<seq<Value>>)
    requires forall i :: 0 <= i < |items| ==> AllFit(fs, items[i])
    ensures EncodeItems(fs, items) == Frames.Flatten(RowPieces(fs, items))
    decreases |items|
  {
    if items != [] {
      RowsJoin(fs, items[1..]);
      assert RowPieces(fs, items)[1..] == RowPieces(fs, items[1..]);
    }
  }

  lemma OneByte(x: U8)
    ensures LittleEndian(x, 1) == [x]
  {
    assert LittleEndian(x, 1) == [x % 256] + LittleEndian(x / 256, 0);
  }

  // ---- The reader's limits ----

  lemma CountRead(n: nat, rest: Bytes)
    requires n < U32_SPAN
    ensures var b := LittleEndian(n, 4) + rest;
            |b| >= 4 && FromLittleEndian(b[..4]) == n && b[4..] == rest
  {
    Spans();
    ReadBack(n, 4);
    var b := LittleEndian(n, 4) + rest;
    assert b[..4] == LittleEndian(n, 4);
  }

  /** A counted text is read back if and only if it has at most 1024 bytes. */
  lemma TextLimit(text: Bytes, rest: Bytes)
    requires |text| < U32_SPAN
    ensures Decode(Text, Counted(text) + rest) == if |text| <= 1024 then Some((Str(text), rest)) else None
  {
    var b := Counted(text) + rest;
    assert b == LittleEndian(|text|, 4) + (text + rest);
    CountRead(|text|, text + rest);
    hide LittleEndian, FromLittleEndian;
    assert b[4..4 + |text|] == text && b[4 + |text|..] == rest;
  }

  /** A repetition of more than 8192 rows is refused unread; any other is read row by row. */
  lemma CountLimit(body: seq<Field>, n: nat, rest: Bytes)
    requires n < U32_SPAN
    ensures Decode(Many(body), LittleEndian(n, 4) + rest).Some? <==> n <= 8192 && DecodeItems(body, n, rest).Some?
  {
    CountRead(n, rest);
    hide LittleEndian, FromLittleEndian, DecodeItems;
  }

  // ---- Payloads of frames ----

  function EvidenceBytes(e: RegionEvidence): (pieces: seq<Bytes>)
    ensures |pieces| == 21
  {
    var h := e.header;
    [Long8(h.id), Long8(h.generation), Long8(h.sourceProvider), Long8(h.sourceProviderGeneration),
     Long8(h.region), Long8(h.regionGeneration), Long8(h.worker), Long8(h.boot), Long8(h.epoch),
     Long8(h.timestampMs), Long8(h.sequence), Counted(h.provenance), Long8(h.confidence),
     [e.health], Switch(e.reachable), Long8(e.onlineCapacityBytes), Long8(e.latencyNs),
     Long8(e.bandwidthBytesPerSec), [e.locality], Long8(e.nodeId), [e.status]]
  }

  /** The record is written piece by piece. */
  lemma PieceByPiece(fs: seq<Field>, vs: seq<Value>, pieces: seq<Bytes>)
    requires AllFit(fs, vs) && |pieces| == |fs|
    requires forall i :: 0 <= i < |fs| ==> Encode(fs[i], vs[i]) == pieces[i]
    ensures EncodeAll(fs, vs) == Frames.Flatten(pieces)
  {
    RecordJoins(fs, vs);
    assert Pieces(fs, vs) == pieces;
  }

  lemma EvidencePiece(e: RegionEvidence, i: nat)
    requires i < 21 && AllFit(EVIDENCE, EvidenceValues(e))
    ensures Encode(EVIDENCE[i], EvidenceValues(e)[i]) == EvidenceBytes(e)[i]
  {
    OneByte(e.health);
    OneByte(if e.reachable then 1 else 0);
    OneByte(e.locality);
    OneByte(e.status);
    hide LittleEndian;
  }

  /** Evidence: header, provenance as a counted text, then what was observed. */
  lemma EvidenceLayout(e: RegionEvidence)
    ensures EncodeEvidence(e) == Frames.Flatten(EvidenceBytes(e))
  {
    hide EvidenceValues, EvidenceBytes;
    EvidenceFits(e);
    forall i | 0 <= i < 21 ensures Encode(EVIDENCE[i], EvidenceValues(e)[i]) == EvidenceBytes(e)[i] { EvidencePiece(e, i); }
    PieceByPiece(EVIDENCE, EvidenceValues(e), EvidenceBytes(e));
  }

  /** A repetition is its count followed by its rows. */
  lemma RowByRow(body: seq<Field>, items: seq<seq<Value>>, pieces: seq<Bytes>)
    requires |pieces| == |items| && forall i :: 0 <= i < |items| ==> AllFit(body, items[i])
    requires forall i :: 0 <= i < |items| ==> EncodeAll(body, items[i]) == pieces[i]
    ensures Encode(Many(body), List(items)) == Repeated(pieces)
  {
    RowsJoin(body, items);
    assert RowPieces(body, items) == pieces;
  }

  lemma {:induction false} EncodeConcat(fs: seq<Field>, gs: seq<Field>, vs: seq<Value>, ws: seq<Value>)
    requires AllFit(fs, vs) && AllFit(gs, ws)
    ensures AllFit(fs + gs, vs + ws) && EncodeAll(fs + gs, vs + ws) == EncodeAll(fs, vs) + EncodeAll(gs, ws)
    decreases |fs|
  {
    FitsConcat(fs, gs, vs, ws);
    if fs == [] {
      assert fs + gs == gs && vs + ws == ws;
    } else {
      EncodeConcat(fs[1..], gs, vs[1..], ws);
      assert (fs + gs)[1..] == fs[1..] + gs && (vs + ws)[1..] == vs[1..] + ws;
    }
  }

  /** Two runs of pieces, one after the other. */
  lemma TwoHalves(fs: seq<Field>, gs: seq<Field>, vs: seq<Value>, ws: seq<Value>, ps: seq<Bytes>, qs: seq<Bytes>)
    requires AllFit(fs, vs) && AllFit(gs, ws) && |ps| == |fs| && |qs| == |gs|
    requires forall i :: 0 <= i < |fs| ==> Encode(fs[i], vs[i]) == ps[i]
    requires forall i :: 0 <= i < |gs| ==> Encode(gs[i], ws[i]) == qs[i]
    ensures AllFit(fs + gs, vs + ws) && EncodeAll(fs + gs, vs + ws) == Frames.Flatten(ps + qs)
  {
    hide AllFit, Encode, EncodeAll, Frames.Flatten;
    PieceByPiece(fs, vs, ps);
    PieceByPiece(gs, ws, qs);
    EncodeConcat(fs, gs, vs, ws);
    Frames.FlattenConcat(ps, qs);
  }

  // ---- Requirements ----

  function KindBytes(kinds: seq<U8>): Bytes { Repeated(seq(|kinds|, i requires 0 <= i < |kinds| => [kinds[i]])) }

  function DemandBytes(r: Requirements<Bits>): (pieces: seq<Bytes>)
    ensures |pieces| == 12
  {
    [Long8(r.consumer), Long8(r.consumerGeneration), Long8(r.requiredBytes), Long8(r.alignmentBytes),
     Switch(r.cpuAccessible), Switch(r.acceleratorAccessible), Switch(r.directAccessRequired),
     Switch(r.stagingAcceptable), Switch(r.persistent), Long8(r.maxLatencyNs), Long8(r.minBandwidth),
     [r.localityPreference]]
  }

  function ChoiceBytes(r: Requirements<Bits>, allowed: Bytes, forbidden: Bytes): (pieces: seq<Bytes>)
    ensures |pieces| == 12
  {
    [allowed, forbidden, Switch(r.failureDomainIsolationRequired),
     Long8(r.forbiddenFailureDomain), Switch(r.freshEvidenceRequired), Switch(r.allowDegraded),
     Switch(r.allowLocalFallback), Switch(r.expansionRequired), Switch(r.allowStaging), Long8(r.policy),
     Long8(r.preferredPool), Long8(r.reserveHeadroomFactor)]
  }

  lemma SwitchByte(b: bool)
    ensures Encode(U8F, Flag(b)) == Switch(b)
  {
    OneByte(if b then 1 else 0);
  }

  lemma KindLayout(kinds: seq<U8>)
    ensures Encode(Many([U8F]), List(CodeRows(kinds))) == KindBytes(kinds)
  {
    var rows := CodeRows(kinds);
    var pieces: seq<Bytes> := seq(|kinds|, i requires 0 <= i < |kinds| => [kinds[i]]);
    forall i | 0 <= i < |rows| ensures EncodeAll([U8F], rows[i]) == pieces[i] {
      OneByte(kinds[i]);
      assert rows[i] == [Num(kinds[i])] && rows[i][1..] == [];
    }
    RowByRow([U8F], rows, pieces);
  }

  // The demands, in two parts.

  lemma FirstDemands(r: Requirements<Bits>)
    requires AllFit(DEMANDS, DemandValues(r))
    ensures forall i :: 0 <= i < 6 ==> Encode(DEMANDS[i], DemandValues(r)[i]) == DemandBytes(r)[i]
  {
    SwitchByte(r.cpuAccessible);
    SwitchByte(r.acceleratorAccessible);
    hide LittleEndian;
    var vs, bs := DemandValues(r), DemandBytes(r);
    assert Encode(DEMANDS[0], vs[0]) == bs[0] && Encode(DEMANDS[1], vs[1]) == bs[1] && Encode(DEMANDS[2], vs[2]) == bs[2];
    assert Encode(DEMANDS[3], vs[3]) == bs[3] && Encode(DEMANDS[4], vs[4]) == bs[4] && Encode(DEMANDS[5], vs[5]) == bs[5];
  }

  lemma LastDemands(r: Requirements<Bits>)
    requires AllFit(DEMANDS, DemandValues(r))
    ensures forall i :: 6 <= i < 12 ==> Encode(DEMANDS[i], DemandValues(r)[i]) == DemandBytes(r)[i]
  {
    SwitchByte(r.directAccessRequired);
    SwitchByte(r.stagingAcceptable);
    SwitchByte(r.persistent);
    OneByte(r.localityPreference);
    hide LittleEndian;
    var vs, bs := DemandValues(r), DemandBytes(r);
    assert Encode(DEMANDS[6], vs[6]) == bs[6] && Encode(DEMANDS[7], vs[7]) == bs[7] && Encode(DEMANDS[8], vs[8]) == bs[8];
    assert Encode(DEMANDS[9], vs[9]) == bs[9] && Encode(DEMANDS[10], vs[10]) == bs[10] && Encode(DEMANDS[11], vs[11]) == bs[11];
  }

  /** The two lists come first and are whatever they come to. */
  lemma ListPiece(r: Requirements<Bits>, kinds: Value, others: Value, i: nat)
    requires i < 2 && Fits(CHOICES[i], ChoiceValues(r, kinds, others)[i])
    requires Fits(CHOICES[0], kinds) && Fits(CHOICES[1], others)
    ensures Encode(CHOICES[i], ChoiceValues(r, kinds, others)[i])
         == ChoiceBytes(r, Encode(CHOICES[0], kinds), Encode(CHOICES[1], others))[i]
  {
    hide LittleEndian, EncodeItems, EncodeAll;
  }

  // The choices behind the lists, in two parts.

  lemma FirstChoices(r: Requirements<Bits>, kinds: Value, others: Value, a: Bytes, b: Bytes)
    requires AllFit(CHOICES, ChoiceValues(r, kinds, others))
    ensures forall i :: 2 <= i < 7 ==> Encode(CHOICES[i], ChoiceValues(r, kinds, others)[i]) == ChoiceBytes(r, a, b)[i]
  {
    SwitchByte(r.failureDomainIsolationRequired);
    SwitchByte(r.freshEvidenceRequired);
    SwitchByte(r.allowDegraded);
    SwitchByte(r.allowLocalFallback);
    hide LittleEndian, EncodeItems;
    var vs, bs := ChoiceValues(r, kinds, others), ChoiceBytes(r, a, b);
    assert Encode(CHOICES[2], vs[2]) == bs[2] && Encode(CHOICES[3], vs[3]) == bs[3];
    assert Encode(CHOICES[4], vs[4]) == bs[4] && Encode(CHOICES[5], vs[5]) == bs[5];
    assert Encode(CHOICES[6], vs[6]) == bs[6];
  }

  lemma LastChoices(r: Requirements<Bits>, kinds: Value, others: Value, a: Bytes, b: Bytes)
    requires AllFit(CHOICES, ChoiceValues(r, kinds, others))
    ensures forall i :: 7 <= i < 12 ==> Encode(CHOICES[i], ChoiceValues(r, kinds, others)[i]) == ChoiceBytes(r, a, b)[i]
  {
    SwitchByte(r.expansionRequired);
    SwitchByte(r.allowStaging);
    hide LittleEndian, EncodeItems;
    var vs, bs := ChoiceValues(r, kinds, others), ChoiceBytes(r, a, b);
    assert Encode(CHOICES[7], vs[7]) == bs[7] && Encode(CHOICES[8], vs[8]) == bs[8];
    assert Encode(CHOICES[9], vs[9]) == bs[9] && Encode(CHOICES[10], vs[10]) == bs[10];
    assert Encode(CHOICES[11], vs[11]) == bs[11];
  }

  /** Requirements: sizes and demands, the two kind lists as counted bytes, then the choices. */
  lemma RequirementsLayout(r: Requirements<Bits>)
    ensures EncodeRequirements(r)
         == Frames.Flatten(DemandBytes(r) + ChoiceBytes(r, KindBytes(r.allowedKinds), KindBytes(r.forbiddenKinds)))
  {
    hide DemandValues, ChoiceValues, DemandBytes, ChoiceBytes, Encode;
    var allowed, forbidden := List(CodeRows(r.allowedKinds)), List(CodeRows(r.forbiddenKinds));
    var pieces := ChoiceBytes(r, KindBytes(r.allowedKinds), KindBytes(r.forbiddenKinds));
    DemandsFit(r);
    ChoicesFit(r, allowed, forbidden);
    KindLayout(r.allowedKinds);
    KindLayout(r.forbiddenKinds);
    FirstDemands(r);
    LastDemands(r);
    FirstChoices(r, allowed, forbidden, KindBytes(r.allowedKinds), KindBytes(r.forbiddenKinds));
    LastChoices(r, allowed, forbidden, KindBytes(r.allowedKinds), KindBytes(r.forbiddenKinds));
    forall i | 0 <= i < 12 ensures Encode(CHOICES[i], ChoiceValues(r, allowed, forbidden)[i]) == pieces[i] {
      if i < 2 { ListPiece(r, allowed, forbidden, i); }
    }
    TwoHalves(DEMANDS, CHOICES, DemandValues(r), ChoiceValues(r, allowed, forbidden), DemandBytes(r), pieces);
  }

  // ---- Reservations ----

  function BindingBytes(r: Reservation): (pieces: seq<Bytes>)
    ensures |pieces| == 12
  {
    [Long8(r.id), Long8(r.generation), Long8(r.consumer), Long8(r.consumerGeneration), Long8(r.provider),
     Long8(r.providerGeneration), Long8(r.region), Long8(r.regionGeneration), Long8(r.pool), Long8(r.poolGeneration),
     Long8(r.policy), Long8(r.policyGeneration)]
  }

  function HoldingBytes(r: Reservation): (pieces: seq<Bytes>)
    ensures |pieces| == 11
  {
    [Long8(r.selection), Long8(r.selectionGeneration), Long8(r.evidenceGeneration), Long8(r.worker), Long8(r.boot),
     Long8(r.epoch), Long8(r.bytes), StateByte(r.state), Long8(r.createdAtMs), Long8(r.expiresAtMs), Counted(r.note)]
  }

  function StateByte(s: ReservationState): Bytes {
    match s
    case Requested => [0] case Evaluated => [1] case Reserved => [2] case Committed => [3] case Active => [4]
    case Released => [5] case Rejected => [6] case Expired => [7] case Fenced => [8]
    case RevalidationRequired => [9] case Cancelled => [10] case Unnamed(code) => [code]
  }

  lemma StateLayout(s: ReservationState)
    ensures Encode(U8F, Num(StateCode(s))) == StateByte(s)
  {
    OneByte(StateCode(s));
  }

  lemma BindingPiece(r: Reservation, i: nat)
    requires i < 12 && AllFit(BINDING, BindingValues(r))
    ensures Encode(BINDING[i], BindingValues(r)[i]) == BindingBytes(r)[i]
  {
    hide LittleEndian;
  }

  lemma HoldingPiece(r: Reservation, i: nat)
    requires i < 11 && AllFit(HOLDING, HoldingValues(r))
    ensures Encode(HOLDING[i], HoldingValues(r)[i]) == HoldingBytes(r)[i]
  {
    StateLayout(r.state);
    hide LittleEndian, StateByte, StateCode;
  }

  /** A reservation: what it is bound to, what it holds, its state as one byte, and its note. */
  lemma ReservationLayout(r: Reservation)
    ensures EncodeReservation(r) == Frames.Flatten(BindingBytes(r) + HoldingBytes(r))
  {
    hide BindingValues, HoldingValues, BindingBytes, HoldingBytes, Encode;
    ReservationHalvesFit(r);
    forall i | 0 <= i < 12 ensures Encode(BINDING[i], BindingValues(r)[i]) == BindingBytes(r)[i] { BindingPiece(r, i); }
    forall i | 0 <= i < 11 ensures Encode(HOLDING[i], HoldingValues(r)[i]) == HoldingBytes(r)[i] { HoldingPiece(r, i); }
    TwoHalves(BINDING, HOLDING, BindingValues(r), HoldingValues(r), BindingBytes(r), HoldingBytes(r));
  }

  // ---- Selections ----

  function FactorBytes(f: RankingFactor<Bits>): Bytes { Frames.Flatten([Counted(f.name), Long8(f.raw), Long8(f.normalized), Long8(f.weight)]) }

  function RankedBytes(c: RankedCandidate<Bits>): Bytes {
    Frames.Flatten([Long8(c.region), Long8(c.provider), Long8(c.pool), Long8(c.bytes), Long8(c.score),
            Repeated(seq(|c.factors|, i requires 0 <= i < |c.factors| => FactorBytes(c.factors[i])))])
  }

  function RejectedBytes(c: CandidateAssessment<Bits>): Bytes {
    Frames.Flatten([Long8(c.region), Long8(c.provider), Long8(c.pool), [c.reason], Long8(c.score)])
  }

  function SelectionBytes(s: SelectionResult<Bits>): Bytes {
    Frames.Flatten([Long8(s.id), Long8(s.generation), [s.outcome], Counted(s.tieBreakRule),
            Repeated(seq(|s.ranked|, i requires 0 <= i < |s.ranked| => RankedBytes(s.ranked[i]))),
            Repeated(seq(|s.rejected|, i requires 0 <= i < |s.rejected| => RejectedBytes(s.rejected[i])))])
  }

  lemma FactorLayout(f: RankingFactor<Bits>)
    ensures EncodeAll(FACTOR, FactorValues(f)) == FactorBytes(f)
  {
    hide LittleEndian;
    PieceByPiece(FACTOR, FactorValues(f), [Counted(f.name), Long8(f.raw), Long8(f.normalized), Long8(f.weight)]);
  }

  lemma RankedLayout(c: RankedCandidate<Bits>)
    ensures EncodeAll(RANKED, RankedValues(c)) == RankedBytes(c)
  {
    var factors := seq(|c.factors|, i requires 0 <= i < |c.factors| => FactorBytes(c.factors[i]));
    var rows := FactorRows(c.factors);
    forall i | 0 <= i < |rows| ensures EncodeAll(FACTOR, rows[i]) == factors[i] { FactorLayout(c.factors[i]); }
    RowByRow(FACTOR, rows, factors);
    hide LittleEndian, FactorRows, FactorBytes, Repeated, EncodeItems;
    PieceByPiece(RANKED, RankedValues(c),
                 [Long8(c.region), Long8(c.provider), Long8(c.pool), Long8(c.bytes), Long8(c.score), Repeated(factors)]);
  }

  lemma RejectedLayout(c: CandidateAssessment<Bits>)
    ensures EncodeAll(REJECTED, RejectedValues(c)) == RejectedBytes(c)
  {
    OneByte(c.reason);
    hide LittleEndian;
    PieceByPiece(REJECTED, RejectedValues(c), [Long8(c.region), Long8(c.provider), Long8(c.pool), [c.reason], Long8(c.score)]);
  }

  /** A selection: its outcome and tie-break rule, the ranking with its factors, and the refusals with their reasons. */
  lemma SelectionLayout(s: SelectionResult<Bits>)
    ensures EncodeSelection(s) == SelectionBytes(s)
  {
    var ranked := seq(|s.ranked|, i requires 0 <= i < |s.ranked| => RankedBytes(s.ranked[i]));
    var rejected := seq(|s.rejected|, i requires 0 <= i < |s.rejected| => RejectedBytes(s.rejected[i]));
    var rows, others := RankedRows(s.ranked), RejectedRows(s.rejected);
    forall i | 0 <= i < |rows| ensures EncodeAll(RANKED, rows[i]) == ranked[i] { RankedLayout(s.ranked[i]); }
    RowByRow(RANKED, rows, ranked);
    forall i | 0 <= i < |others| ensures EncodeAll(REJECTED, others[i]) == rejected[i] { RejectedLayout(s.rejected[i]); }
    RowByRow(REJECTED, others, rejected);
    OneByte(s.outcome);
    hide LittleEndian, RankedRows, RejectedRows, RankedBytes, RejectedBytes, Repeated, EncodeItems;
    PieceByPiece(SELECTION, SelectionValues(s),
                 [Long8(s.id), Long8(s.generation), [s.outcome], Counted(s.tieBreakRule), Repeated(ranked), Repeated(rejected)]);
  }

  // ---- Frames ----

  /** A frame: "MEFW", version 1, the type, the length, the checksum, and the payload; none above one mebibyte is written. */
  lemma FrameLayout(f: Frames.Frame)
    ensures Frames.EncodeFrame(f)
         == if |f.payload| > 1048576 then Fail(FrameTooLarge)
            else Ok([0x4D, 0x45, 0x46, 0x57, 1, 0] + LittleEndian(f.kind, 2) + LittleEndian(|f.payload|, 4)
                    + LittleEndian(Crc.Checksum(f.payload), 4) + f.payload)
  {
    hide Crc.Checksum, LittleEndian;
    StartBytes();
  }

  lemma StartBytes()
    ensures Frames.MAGIC + LittleEndian(Frames.VERSION, 2) == [0x4D, 0x45, 0x46, 0x57, 1, 0]
    ensures Persistence.MAGIC + LittleEndian(Persistence.VERSION, 2) == [0x4D, 0x45, 0x46, 0x50, 1, 0]
    ensures Frames.MAX_PAYLOAD == 1048576 && Persistence.MAX_PAYLOAD == 67108864
  {
    assert LittleEndian(1, 2) == [1 % 256] + LittleEndian(0, 1);
    assert LittleEndian(0, 1) == [0] + LittleEndian(0, 0);
  }

  /** A buffer is decoded if and only if it starts with a frame of a type from 1 to 24 laid out so. */
  lemma FrameAcceptedIff(b: Bytes, f: Frames.Frame, n: nat)
    ensures Frames.DecodeFrame(b) == Frames.Decoded(f, n)
       <==> && 1 <= f.kind <= 24 && |f.payload| <= 1048576 && n == 16 + |f.payload|
            && [0x4D, 0x45, 0x46, 0x57, 1, 0] + LittleEndian(f.kind, 2) + LittleEndian(|f.payload|, 4)
               + LittleEndian(Crc.Checksum(f.payload), 4) + f.payload <= b
  {
    hide Crc.Checksum;
    FrameLayout(f);
    var whole := [0x4D, 0x45, 0x46, 0x57, 1, 0] + LittleEndian(f.kind, 2) + LittleEndian(|f.payload|, 4)
                 + LittleEndian(Crc.Checksum(f.payload), 4) + f.payload;
    assert |whole| == 16 + |f.payload|;
    hide Frames.EncodeFrame;
    if Frames.DecodeFrame(b) == Frames.Decoded(f, n) {
      Frames.FrameExact(b);
    } else if 1 <= f.kind <= 24 && |f.payload| <= 1048576 && whole <= b {
      Frames.FrameRoundTrip(f, b[|whole|..]);
      assert whole + b[|whole|..] == b;
    }
  }

  // ---- The state file ----

  /** A file: "MEFP", version 1, the length, the checksum, and the payload; none above 64 mebibytes is written. */
  lemma FileLayout(payload: Bytes)
    ensures Persistence.Wrap(payload)
         == if |payload| > 67108864 then Fail(Internal)
            else Ok([0x4D, 0x45, 0x46, 0x50, 1, 0] + LittleEndian(|payload|, 4) + LittleEndian(Crc.Checksum(payload), 4) + payload)
  {
    hide Crc.Checksum, LittleEndian;
    StartBytes();
  }

  function CapabilityBytes(c: Capability): Bytes { Frames.Flatten([[c.key], [c.status], Counted(c.note)]) }

  function CapabilitiesBytes(caps: seq<Capability>): Bytes {
    Repeated(seq(|caps|, i requires 0 <= i < |caps| => CapabilityBytes(caps[i])))
  }

  function ProviderBytes(d: ProviderDescriptor): Bytes {
    Frames.Flatten([Long8(d.id), Long8(d.generation), [d.kind], [d.origin], Counted(d.name), Long8(d.failureDomain),
            [d.addressability], [d.persistence], Long8(d.totalCapacityBytes), Long8(d.alignmentBytes),
            Long8(d.granularityBytes), Switch(d.requiresHostCopy), CapabilitiesBytes(d.capabilities)])
  }

  function DomainBytes(d: DomainDescriptor): Bytes {
    Frames.Flatten([Long8(d.id), Long8(d.generation), Counted(d.name), [d.origin], Long8(d.failureDomain)])
  }

  function RegionBytes(d: RegionDescriptor): Bytes {
    Frames.Flatten([Long8(d.id), Long8(d.generation), Long8(d.provider), Long8(d.domain), Counted(d.name),
            Long8(d.totalCapacityBytes), Long8(d.alignmentBytes), Long8(d.granularityBytes), [d.origin],
            [d.persistence], CapabilitiesBytes(d.staticCapabilities)])
  }

  function MembersBytes(ms: seq<PoolMember>): Bytes {
    Repeated(seq(|ms|, i requires 0 <= i < |ms| => Frames.Flatten([Long8(ms[i].region), Long8(ms[i].generation)])))
  }

  function PoolBytes(d: PoolDescriptor): Bytes {
    Frames.Flatten([Long8(d.id), Long8(d.generation), Counted(d.name), [d.origin], MembersBytes(d.members)])
  }

  function RulesBytes(rules: seq<PolicyRule>): Bytes {
    Repeated(seq(|rules|, i requires 0 <= i < |rules| => Frames.Flatten([Counted(rules[i].key), Counted(rules[i].value)])))
  }

  function PolicyBytes(d: PolicyDescriptor): Bytes {
    Frames.Flatten([Long8(d.id), Long8(d.generation), Counted(d.name), Switch(d.allowDegraded), Switch(d.requireFreshEvidence),
            Switch(d.allowLocalFallback), Switch(d.expansionRequired), RulesBytes(d.rules)])
  }

  function ConsumerBytes(c: StateFile.Consumer): Bytes { Frames.Flatten([Long8(c.id), Long8(c.generation)]) }

  function ProvidersBytes(xs: seq<ProviderDescriptor>): Bytes { Repeated(seq(|xs|, i requires 0 <= i < |xs| => ProviderBytes(xs[i]))) }
  function DomainsBytes(xs: seq<DomainDescriptor>): Bytes { Repeated(seq(|xs|, i requires 0 <= i < |xs| => DomainBytes(xs[i]))) }
  function RegionsBytes(xs: seq<RegionDescriptor>): Bytes { Repeated(seq(|xs|, i requires 0 <= i < |xs| => RegionBytes(xs[i]))) }
  function PoolsBytes(xs: seq<PoolDescriptor>): Bytes { Repeated(seq(|xs|, i requires 0 <= i < |xs| => PoolBytes(xs[i]))) }
  function PoliciesBytes(xs: seq<PolicyDescriptor>): Bytes { Repeated(seq(|xs|, i requires 0 <= i < |xs| => PolicyBytes(xs[i]))) }
  function ConsumersBytes(xs: seq<StateFile.Consumer>): Bytes { Repeated(seq(|xs|, i requires 0 <= i < |xs| => ConsumerBytes(xs[i]))) }

  /** The payload: the epoch, then providers, domains, regions, pools, policies and consumers, each counted. */
  function ListingBytes(l: StateFile.Listing): Bytes {
    Frames.Flatten([Long8(l.epoch), ProvidersBytes(l.providers), DomainsBytes(l.domains), RegionsBytes(l.regions),
            PoolsBytes(l.pools), PoliciesBytes(l.policies), ConsumersBytes(l.consumers)])
  }

  /** A list of records is laid out row by row. */
  lemma ListLayout<T>(xs: seq<T>, f: T -> seq<Value>, body: seq<Field>, pieces: seq<Bytes>)
    requires |pieces| == |xs| && forall i :: 0 <= i < |xs| ==> AllFit(body, f(xs[i])) && EncodeAll(body, f(xs[i])) == pieces[i]
    ensures Fits(Many(body), List(StateFile.Encoded(xs, f)))
    ensures Encode(Many(body), List(StateFile.Encoded(xs, f))) == Repeated(pieces)
  {
    var rows := StateFile.Encoded(xs, f);
    assert forall i :: 0 <= i < |xs| ==> rows[i] == f(xs[i]);
    RowByRow(body, rows, pieces);
  }

  lemma CapabilityLayout(c: Capability)
    ensures AllFit(StateFile.CAPABILITY, StateFile.CapabilityValues(c))
    ensures EncodeAll(StateFile.CAPABILITY, StateFile.CapabilityValues(c)) == CapabilityBytes(c)
  {
    Spans();
    OneByte(c.key);
    OneByte(c.status);
    hide LittleEndian;
    PieceByPiece(StateFile.CAPABILITY, StateFile.CapabilityValues(c), [[c.key], [c.status], Counted(c.note)]);
  }

  lemma CapabilitiesLayout(caps: CapabilityModel)
    ensures Fits(Many(StateFile.CAPABILITY), StateFile.CapabilitiesValue(caps))
    ensures Encode(Many(StateFile.CAPABILITY), StateFile.CapabilitiesValue(caps)) == CapabilitiesBytes(caps)
  {
    var pieces := seq(|caps|, i requires 0 <= i < |caps| => CapabilityBytes(caps[i]));
    forall i | 0 <= i < |caps|
      ensures AllFit(StateFile.CAPABILITY, StateFile.CapabilityValues(caps[i]))
              && EncodeAll(StateFile.CAPABILITY, StateFile.CapabilityValues(caps[i])) == pieces[i]
    {
      CapabilityLayout(caps[i]);
    }
    hide AllFit, EncodeAll, CapabilityBytes, StateFile.CapabilityValues;
    ListLayout(caps, StateFile.CapabilityValues, StateFile.CAPABILITY, pieces);
  }

  lemma DomainLayout(d: DomainDescriptor)
    ensures AllFit(StateFile.DOMAIN, StateFile.DomainValues(d))
    ensures EncodeAll(StateFile.DOMAIN, StateFile.DomainValues(d)) == DomainBytes(d)
  {
    StateFile.DomainRow(d);
    OneByte(d.origin);
    hide LittleEndian;
    PieceByPiece(StateFile.DOMAIN, StateFile.DomainValues(d),
                 [Long8(d.id), Long8(d.generation), Counted(d.name), [d.origin], Long8(d.failureDomain)]);
  }

  lemma ConsumerLayout(c: StateFile.Consumer)
    ensures AllFit(StateFile.CONSUMER, StateFile.ConsumerValues(c))
    ensures EncodeAll(StateFile.CONSUMER, StateFile.ConsumerValues(c)) == ConsumerBytes(c)
  {
    Spans();
    hide LittleEndian;
    PieceByPiece(StateFile.CONSUMER, StateFile.ConsumerValues(c), [Long8(c.id), Long8(c.generation)]);
  }

  // Providers, regions, pools and policies end with a repetition.

  lemma MembersLayout(ms: seq<PoolMember>)
    ensures var v := List(StateFile.Encoded(ms, StateFile.MemberValues));
            Fits(Many(StateFile.MEMBER), v) && Encode(Many(StateFile.MEMBER), v) == MembersBytes(ms)
  {
    var pieces := seq(|ms|, i requires 0 <= i < |ms| => Frames.Flatten([Long8(ms[i].region), Long8(ms[i].generation)]));
    forall i | 0 <= i < |ms|
      ensures AllFit(StateFile.MEMBER, StateFile.MemberValues(ms[i]))
              && EncodeAll(StateFile.MEMBER, StateFile.MemberValues(ms[i])) == pieces[i]
    {
      MemberLayout(ms[i]);
    }
    hide AllFit, EncodeAll, Frames.Flatten, StateFile.MemberValues;
    ListLayout(ms, StateFile.MemberValues, StateFile.MEMBER, pieces);
  }

  lemma MemberLayout(m: PoolMember)
    ensures AllFit(StateFile.MEMBER, StateFile.MemberValues(m))
    ensures EncodeAll(StateFile.MEMBER, StateFile.MemberValues(m)) == Frames.Flatten([Long8(m.region), Long8(m.generation)])
  {
    Spans();
    hide LittleEndian;
    PieceByPiece(StateFile.MEMBER, StateFile.MemberValues(m), [Long8(m.region), Long8(m.generation)]);
  }

  lemma PoolLayout(d: PoolDescriptor)
    ensures AllFit(StateFile.POOL, StateFile.PoolValues(d))
    ensures EncodeAll(StateFile.POOL, StateFile.PoolValues(d)) == PoolBytes(d)
  {
    StateFile.PoolRow(d);
    MembersLayout(d.members);
    OneByte(d.origin);
    hide LittleEndian, StateFile.Encoded, EncodeItems, MembersBytes, Frames.Flatten;
    PieceByPiece(StateFile.POOL, StateFile.PoolValues(d),
                 [Long8(d.id), Long8(d.generation), Counted(d.name), [d.origin], MembersBytes(d.members)]);
  }

  lemma RuleLayout(rule: PolicyRule)
    ensures AllFit(StateFile.RULE, StateFile.RuleValues(rule))
    ensures EncodeAll(StateFile.RULE, StateFile.RuleValues(rule)) == Frames.Flatten([Counted(rule.key), Counted(rule.value)])
  {
    hide LittleEndian;
    PieceByPiece(StateFile.RULE, StateFile.RuleValues(rule), [Counted(rule.key), Counted(rule.value)]);
  }

  lemma RulesLayout(rules: seq<PolicyRule>)
    ensures var v := List(StateFile.Encoded(rules, StateFile.RuleValues));
            Fits(Many(StateFile.RULE), v) && Encode(Many(StateFile.RULE), v) == RulesBytes(rules)
  {
    var pieces := seq(|rules|, i requires 0 <= i < |rules| => Frames.Flatten([Counted(rules[i].key), Counted(rules[i].value)]));
    forall i | 0 <= i < |rules|
      ensures AllFit(StateFile.RULE, StateFile.RuleValues(rules[i]))
              && EncodeAll(StateFile.RULE, StateFile.RuleValues(rules[i])) == pieces[i]
    {
      RuleLayout(rules[i]);
    }
    hide AllFit, EncodeAll, Frames.Flatten, StateFile.RuleValues;
    ListLayout(rules, StateFile.RuleValues, StateFile.RULE, pieces);
  }

  lemma PolicyFits(d: PolicyDescriptor)
    ensures AllFit(StateFile.POLICY, StateFile.PolicyValues(d))
  {
    StateFile.PolicyRow(d);
    hide *;
  }

  lemma PolicyLayout(d: PolicyDescriptor)
    ensures AllFit(StateFile.POLICY, StateFile.PolicyValues(d))
    ensures EncodeAll(StateFile.POLICY, StateFile.PolicyValues(d)) == PolicyBytes(d)
  {
    PolicyFits(d);
    RulesLayout(d.rules);
    SwitchByte(d.allowDegraded);
    SwitchByte(d.requireFreshEvidence);
    SwitchByte(d.allowLocalFallback);
    SwitchByte(d.expansionRequired);
    hide LittleEndian, StateFile.Encoded, EncodeItems, RulesBytes, Frames.Flatten;
    PieceByPiece(StateFile.POLICY, StateFile.PolicyValues(d),
                 [Long8(d.id), Long8(d.generation), Counted(d.name), Switch(d.allowDegraded), Switch(d.requireFreshEvidence),
                  Switch(d.allowLocalFallback), Switch(d.expansionRequired), RulesBytes(d.rules)]);
  }

  lemma RegionLayout(d: RegionDescriptor)
    ensures AllFit(StateFile.REGION, StateFile.RegionValues(d))
    ensures EncodeAll(StateFile.REGION, StateFile.RegionValues(d)) == RegionBytes(d)
  {
    StateFile.RegionFits(d);
    CapabilitiesLayout(d.staticCapabilities);
    OneByte(d.origin);
    OneByte(d.persistence);
    hide LittleEndian, StateFile.CapabilitiesValue, EncodeItems, CapabilitiesBytes, Frames.Flatten;
    PieceByPiece(StateFile.REGION, StateFile.RegionValues(d),
                 [Long8(d.id), Long8(d.generation), Long8(d.provider), Long8(d.domain), Counted(d.name),
                  Long8(d.totalCapacityBytes), Long8(d.alignmentBytes), Long8(d.granularityBytes), [d.origin],
                  [d.persistence], CapabilitiesBytes(d.staticCapabilities)]);
  }

  lemma ProviderLayout(d: ProviderDescriptor)
    ensures AllFit(StateFile.PROVIDER, StateFile.ProviderValues(d))
    ensures EncodeAll(StateFile.PROVIDER, StateFile.ProviderValues(d)) == ProviderBytes(d)
  {
    StateFile.ProviderFits(d);
    CapabilitiesLayout(d.capabilities);
    OneByte(d.kind);
    OneByte(d.origin);
    OneByte(d.addressability);
    OneByte(d.persistence);
    SwitchByte(d.requiresHostCopy);
    hide LittleEndian, StateFile.CapabilitiesValue, EncodeItems, CapabilitiesBytes, Frames.Flatten;
    PieceByPiece(StateFile.PROVIDER, StateFile.ProviderValues(d),
                 [Long8(d.id), Long8(d.generation), [d.kind], [d.origin], Counted(d.name), Long8(d.failureDomain),
                  [d.addressability], [d.persistence], Long8(d.totalCapacityBytes), Long8(d.alignmentBytes),
                  Long8(d.granularityBytes), Switch(d.requiresHostCopy), CapabilitiesBytes(d.capabilities)]);
  }

  lemma ProvidersLayout(xs: seq<ProviderDescriptor>)
    ensures var v := List(StateFile.Encoded(xs, StateFile.ProviderValues));
            Fits(Many(StateFile.PROVIDER), v) && Encode(Many(StateFile.PROVIDER), v) == ProvidersBytes(xs)
  {
    var pieces := seq(|xs|, i requires 0 <= i < |xs| => ProviderBytes(xs[i]));
    forall i | 0 <= i < |xs|
      ensures AllFit(StateFile.PROVIDER, StateFile.ProviderValues(xs[i])) && EncodeAll(StateFile.PROVIDER, StateFile.ProviderValues(xs[i])) == pieces[i]
    {
      ProviderLayout(xs[i]);
    }
    hide AllFit, EncodeAll, ProviderBytes, StateFile.ProviderValues;
    ListLayout(xs, StateFile.ProviderValues, StateFile.PROVIDER, pieces);
  }

  lemma DomainsLayout(xs: seq<DomainDescriptor>)
    ensures var v := List(StateFile.Encoded(xs, StateFile.DomainValues));
            Fits(Many(StateFile.DOMAIN), v) && Encode(Many(StateFile.DOMAIN), v) == DomainsBytes(xs)
  {
    var pieces := seq(|xs|, i requires 0 <= i < |xs| => DomainBytes(xs[i]));
    forall i | 0 <= i < |xs|
      ensures AllFit(StateFile.DOMAIN, StateFile.DomainValues(xs[i])) && EncodeAll(StateFile.DOMAIN, StateFile.DomainValues(xs[i])) == pieces[i]
    {
      DomainLayout(xs[i]);
    }
    hide AllFit, EncodeAll, DomainBytes, StateFile.DomainValues;
    ListLayout(xs, StateFile.DomainValues, StateFile.DOMAIN, pieces);
  }

  lemma RegionsLayout(xs: seq<RegionDescriptor>)
    ensures var v := List(StateFile.Encoded(xs, StateFile.RegionValues));
            Fits(Many(StateFile.REGION), v) && Encode(Many(StateFile.REGION), v) == RegionsBytes(xs)
  {
    var pieces := seq(|xs|, i requires 0 <= i < |xs| => RegionBytes(xs[i]));
    forall i | 0 <= i < |xs|
      ensures AllFit(StateFile.REGION, StateFile.RegionValues(xs[i])) && EncodeAll(StateFile.REGION, StateFile.RegionValues(xs[i])) == pieces[i]
    {
      RegionLayout(xs[i]);
    }
    hide AllFit, EncodeAll, RegionBytes, StateFile.RegionValues;
    ListLayout(xs, StateFile.RegionValues, StateFile.REGION, pieces);
  }

  lemma PoolsLayout(xs: seq<PoolDescriptor>)
    ensures var v := List(StateFile.Encoded(xs, StateFile.PoolValues));
            Fits(Many(StateFile.POOL), v) && Encode(Many(StateFile.POOL), v) == PoolsBytes(xs)
  {
    var pieces := seq(|xs|, i requires 0 <= i < |xs| => PoolBytes(xs[i]));
    forall i | 0 <= i < |xs|
      ensures AllFit(StateFile.POOL, StateFile.PoolValues(xs[i])) && EncodeAll(StateFile.POOL, StateFile.PoolValues(xs[i])) == pieces[i]
    {
      PoolLayout(xs[i]);
    }
    hide AllFit, EncodeAll, PoolBytes, StateFile.PoolValues;
    ListLayout(xs, StateFile.PoolValues, StateFile.POOL, pieces);
  }

  lemma PoliciesLayout(xs: seq<PolicyDescriptor>)
    ensures var v := List(StateFile.Encoded(xs, StateFile.PolicyValues));
            Fits(Many(StateFile.POLICY), v) && Encode(Many(StateFile.POLICY), v) == PoliciesBytes(xs)
  {
    var pieces := seq(|xs|, i requires 0 <= i < |xs| => PolicyBytes(xs[i]));
    forall i | 0 <= i < |xs|
      ensures AllFit(StateFile.POLICY, StateFile.PolicyValues(xs[i])) && EncodeAll(StateFile.POLICY, StateFile.PolicyValues(xs[i])) == pieces[i]
    {
      PolicyLayout(xs[i]);
    }
    hide AllFit, EncodeAll, PolicyBytes, StateFile.PolicyValues;
    ListLayout(xs, StateFile.PolicyValues, StateFile.POLICY, pieces);
  }

  lemma ConsumersLayout(xs: seq<StateFile.Consumer>)
    ensures var v := List(StateFile.Encoded(xs, StateFile.ConsumerValues));
            Fits(Many(StateFile.CONSUMER), v) && Encode(Many(StateFile.CONSUMER), v) == ConsumersBytes(xs)
  {
    var pieces := seq(|xs|, i requires 0 <= i < |xs| => ConsumerBytes(xs[i]));
    forall i | 0 <= i < |xs|
      ensures AllFit(StateFile.CONSUMER, StateFile.ConsumerValues(xs[i])) && EncodeAll(StateFile.CONSUMER, StateFile.ConsumerValues(xs[i])) == pieces[i]
    {
      ConsumerLayout(xs[i]);
    }
    hide AllFit, EncodeAll, ConsumerBytes, StateFile.ConsumerValues;
    ListLayout(xs, StateFile.ConsumerValues, StateFile.CONSUMER, pieces);
  }

  lemma ListingLayout(l: StateFile.Listing)
    ensures StateFile.EncodeListing(l) == ListingBytes(l)
  {
    StateFile.ListingRows(l);
    ProvidersLayout(l.providers);
    DomainsLayout(l.domains);
    RegionsLayout(l.regions);
    PoolsLayout(l.pools);
    PoliciesLayout(l.policies);
    ConsumersLayout(l.consumers);
    hide LittleEndian, StateFile.Encoded, EncodeItems, Frames.Flatten, AllFit, StateFile.WithinLimits, StateFile.ListingOf;
    hide ProvidersBytes, DomainsBytes, RegionsBytes, PoolsBytes, PoliciesBytes, ConsumersBytes;
    PieceByPiece(StateFile.PAYLOAD, StateFile.ListingValues(l),
                 [Long8(l.epoch), ProvidersBytes(l.providers), DomainsBytes(l.domains), RegionsBytes(l.regions),
                  PoolsBytes(l.pools), PoliciesBytes(l.policies), ConsumersBytes(l.consumers)]);
  }

  /** What is saved, byte for byte. */
  lemma SavedLayout(l: StateFile.Listing)
    ensures var payload := ListingBytes(l);
            Persistence.Save(l)
            == if |payload| > 67108864 then Fail(Internal)
               else Ok([0x4D, 0x45, 0x46, 0x50, 1, 0] + LittleEndian(|payload|, 4) + LittleEndian(Crc.Checksum(payload), 4) + payload)
  {
    hide ListingBytes, StateFile.EncodeListing, Persistence.Wrap, Crc.Checksum, LittleEndian;
    ListingLayout(l);
    FileLayout(ListingBytes(l));
  }
}
