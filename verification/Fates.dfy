/**
 What becomes of each reservation over a whole run: it ends at most once, at one destination, and the
 bytes every region ever promised are still promised or have arrived at exactly one destination.
 */
module Fates {
  import opened Words
  import opened Types
  import opened Ledgers
  import opened Sums
  import opened Records
  import opened Operations
  import opened Invariants
  import opened Preservation
  import opened Conservation
  import Effects
  import Progress
  import opened Scenarios
  import Selection

  /** Where the bytes of an ended reservation go; `Forfeited` is the ledger replaced by a reincarnation. */
  datatype Destination = ToFree | ToDraining | ToUnavailable | Forfeited

  function Target(s: State, op: Op, rid: RegionId): Destination {
    if Reincarnates(s, op, rid) then Forfeited
    else if op.OpRelease? then ToFree
    else if op.OpBeginDrain? then ToDraining
    else ToUnavailable
  }

  /** The reservation is live before the step and not after it. */
  predicate EndsAt(s: State, t: State, id: ReservationId) { LiveIn(s.reservations, id) && !LiveIn(t.reservations, id) }

  /** How often a reservation ends in a run. */
  ghost function Endings(s: State, ops: seq<Op>, id: ReservationId): nat
    decreases |ops|
  {
    if ops == [] then 0 else
      var t := Apply(s, ops[0]).state;
      (if EndsAt(s, t, id) then 1 else 0) + Endings(t, ops[1..], id)
  }

  /** Where the bytes of a reservation went the first time it ended in a run. */
  ghost function Fate(s: State, ops: seq<Op>, id: ReservationId): Option<Destination>
    decreases |ops|
  {
    if ops == [] then None else
      var t := Apply(s, ops[0]).state;
      if EndsAt(s, t, id) then Some(Target(s, ops[0], s.reservations[id].region)) else Fate(t, ops[1..], id)
  }

  /** The bytes of a region that a run sends to a destination, step by step. */
  ghost function Outflow(s: State, ops: seq<Op>, rid: RegionId, d: Destination): nat
    decreases |ops|
  {
    if ops == [] then 0 else
      var t := Apply(s, ops[0]).state;
      (if Target(s, ops[0], rid) == d then Ended(s.reservations, t.reservations, rid) else 0) + Outflow(t, ops[1..], rid, d)
  }

  // ---- Each reservation ends once ----

  lemma KeysStay(s: State, op: Op)
    requires Inv(s) && !op.OpReserve?
    ensures Apply(s, op).state.reservations.Keys == s.reservations.Keys
  {
    hide Inv, RegisterRegion, RegisterPool, AddPoolMember, RemovePoolMember, PublishEvidence;
    if !Effects.Stirs(op) {
      Effects.OthersAreCalm(s, op);
      hide Apply;
    } else {
      match op
      case OpRegisterRegion(d, a) => Effects.RegisterRegionSteady(s, d, a);
      case OpRegisterPool(d, a) => Effects.RegisterPoolSteady(s, d, a);
      case OpAddPoolMember(pool, m, a) => Effects.AddPoolMemberCalm(s, pool, m, a);
      case OpRemovePoolMember(pool, region, a) => Effects.RemovePoolMemberCalm(s, pool, region, a);
      case OpPublishEvidence(e, a) => Effects.PublishEvidenceElsewhere(s, e, a);
    }
  }

  /** A reservation enters the table live. */
  lemma NewIsLive(s: State, op: Op, id: ReservationId)
    requires Inv(s) && id !in s.reservations && id in Apply(s, op).state.reservations
    ensures LiveIn(Apply(s, op).state.reservations, id)
  {
    hide Inv, Reserve;
    if op.OpReserve? {
      Effects.ReserveCalm(s, op.req, op.a, op.now);
    } else {
      hide Apply;
      KeysStay(s, op);
    }
  }

  lemma StepEvolves(s: State, op: Op, id: ReservationId)
    requires Inv(s) && s.nextReservation <= U64_MAX && id in s.reservations
    ensures var rs := Apply(s, op).state.reservations; id in rs && Progress.Successor(s.reservations[id], rs[id])
  {
    Progress.StepForward(s, op);
    hide Inv, Apply, Progress.Successor;
  }

  lemma RunEvolves(s: State, ops: seq<Op>, id: ReservationId)
    requires Inv(s) && s.nextReservation + |ops| <= U64_MAX + 1 && id in s.reservations
    ensures var rs := Run(s, ops).reservations; id in rs && Progress.Successor(s.reservations[id], rs[id])
  {
    Progress.RunForward(s, ops);
    hide Inv, Run, Progress.Successor;
  }

  /** The reservation was not over before the run and is over after it. */
  predicate Finished(s: State, t: State, id: ReservationId) {
    id in t.reservations && !LiveIn(t.reservations, id) && (id in s.reservations ==> LiveIn(s.reservations, id))
  }

  lemma FinishedStep(s: State, op: Op, rest: seq<Op>, id: ReservationId)
    requires Inv(s) && s.nextReservation + |rest| <= U64_MAX
    ensures var t := Apply(s, op).state;
            var u := Run(t, rest);
            && Inv(t) && t.nextReservation + |rest| <= U64_MAX + 1
            && !(EndsAt(s, t, id) && Finished(t, u, id))
            && (Finished(s, u, id) <==> EndsAt(s, t, id) || Finished(t, u, id))
  {
    hide Inv, Apply, Run;
    StepKeeps(s, op);
    var t := Apply(s, op).state;
    if id in s.reservations { StepEvolves(s, op, id); }
    else if id in t.reservations { NewIsLive(s, op, id); }
    if id in t.reservations { RunEvolves(t, rest, id); }
  }

  /** Over any run a reservation ends once if it was not over before and is over after, and never otherwise. */
  lemma {:induction false} EndsOnce(s: State, ops: seq<Op>, id: ReservationId)
    requires Inv(s) && s.nextReservation + |ops| <= U64_MAX + 1
    ensures Endings(s, ops, id) == if Finished(s, Run(s, ops), id) then 1 else 0
    ensures Fate(s, ops, id).Some? <==> Finished(s, Run(s, ops), id)
    decreases |ops|
  {
    if ops != [] {
      hide Inv, Apply, Finished, Target;
      FinishedStep(s, ops[0], ops[1..], id);
      EndsOnce(Apply(s, ops[0]).state, ops[1..], id);
    }
  }

  // ---- The bytes of a run, reservation by reservation ----

  function BytesOn(r: Reservation, rid: RegionId): nat { if r.region == rid then r.bytes else 0 }

  /** What each reservation of the final table sent to a destination. */
  ghost function Sent(s: State, ops: seq<Op>, rs: Table, rid: RegionId, d: Destination): map<ReservationId, nat> {
    map id | id in rs :: if Fate(s, ops, id) == Some(d) then BytesOn(rs[id], rid) else 0
  }

  /** What the first step sends, listed over the final table. */
  ghost function SentNow(s: State, op: Op, rs: Table, rid: RegionId, d: Destination): map<ReservationId, nat> {
    var t := Apply(s, op).state;
    map id | id in rs :: if EndsAt(s, t, id) && Target(s, op, s.reservations[id].region) == d then BytesOn(rs[id], rid) else 0
  }

  lemma SentSplits(s: State, ops: seq<Op>, rid: RegionId, d: Destination, id: ReservationId)
    requires Inv(s) && s.nextReservation + |ops| <= U64_MAX + 1 && ops != [] && id in Run(s, ops).reservations
    ensures var rs := Run(s, ops).reservations;
            Sent(s, ops, rs, rid, d)[id]
            == SentNow(s, ops[0], rs, rid, d)[id] + Sent(Apply(s, ops[0]).state, ops[1..], rs, rid, d)[id]
  {
    hide Inv, Apply, Target;
    var t := Apply(s, ops[0]).state;
    FinishedStep(s, ops[0], ops[1..], id);
    EndsOnce(t, ops[1..], id);
    hide Finished, BytesOn;
  }

  lemma SentNowIs(s: State, ops: seq<Op>, rid: RegionId, d: Destination, id: ReservationId)
    requires Inv(s) && s.nextReservation + |ops| <= U64_MAX + 1 && ops != [] && id in Run(s, ops).reservations
    ensures var rs, t := Run(s, ops).reservations, Apply(s, ops[0]).state;
            var w := Parted(s.reservations, t.reservations, rid);
            SentNow(s, ops[0], rs, rid, d)[id]
            == if Target(s, ops[0], rid) == d && id in w then w[id] else 0
  {
    hide Inv, Apply, Target, Run;
    if id in s.reservations { RunEvolves(s, ops, id); }
  }

  lemma SentNowSums(s: State, ops: seq<Op>, rid: RegionId, d: Destination)
    requires Inv(s) && s.nextReservation + |ops| <= U64_MAX + 1 && ops != []
    ensures var t := Apply(s, ops[0]).state;
            Sum(SentNow(s, ops[0], Run(s, ops).reservations, rid, d))
            == if Target(s, ops[0], rid) == d then Ended(s.reservations, t.reservations, rid) else 0
  {
    hide Inv, Apply, Run, Target;
    var rs, t := Run(s, ops).reservations, Apply(s, ops[0]).state;
    var x := SentNow(s, ops[0], rs, rid, d);
    var w := Parted(s.reservations, t.reservations, rid);
    assert x.Keys == rs.Keys && w.Keys == s.reservations.Keys;
    hide SentNow, Parted;
    forall id | id in x ensures x[id] == if Target(s, ops[0], rid) == d && id in w then w[id] else 0 {
      SentNowIs(s, ops, rid, d, id);
    }
    if Target(s, ops[0], rid) == d {
      forall id | id in w ensures id in x { RunEvolves(s, ops, id); }
      SumPad(w, x);
    } else {
      SumZero(x);
    }
  }

  lemma SentStep(s: State, ops: seq<Op>, rid: RegionId, d: Destination)
    requires Inv(s) && s.nextReservation + |ops| <= U64_MAX + 1 && ops != []
    ensures var rs, t := Run(s, ops).reservations, Apply(s, ops[0]).state;
            Sum(Sent(s, ops, rs, rid, d))
            == (if Target(s, ops[0], rid) == d then Ended(s.reservations, t.reservations, rid) else 0)
             + Sum(Sent(t, ops[1..], rs, rid, d))
  {
    hide Inv, Apply, Run, Target, Ended;
    var rs, t := Run(s, ops).reservations, Apply(s, ops[0]).state;
    var now, later, all := SentNow(s, ops[0], rs, rid, d), Sent(t, ops[1..], rs, rid, d), Sent(s, ops, rs, rid, d);
    assert now.Keys == rs.Keys && later.Keys == rs.Keys && all.Keys == rs.Keys;
    hide Sent, SentNow;
    SentNowSums(s, ops, rid, d);
    forall id | id in now ensures all[id] == now[id] + later[id] { SentSplits(s, ops, rid, d, id); }
    SumAdds(now, later, all);
  }

  /** What a run sends to a destination is the sum of the bytes of the reservations that meet that fate. */
  lemma {:induction false} OutflowIsSent(s: State, ops: seq<Op>, rid: RegionId, d: Destination)
    requires Inv(s) && s.nextReservation + |ops| <= U64_MAX + 1
    ensures Outflow(s, ops, rid, d) == Sum(Sent(s, ops, Run(s, ops).reservations, rid, d))
    decreases |ops|
  {
    if ops == [] {
      SumZero(Sent(s, ops, Run(s, ops).reservations, rid, d));
    } else {
      hide Inv, Apply, Target, Sent;
      StepKeeps(s, ops[0]);
      OutflowIsSent(Apply(s, ops[0]).state, ops[1..], rid, d);
      SentStep(s, ops, rid, d);
    }
  }

  // ---- Conservation over the life of a coordinator ----

  /** All bytes of a region that the reservations of a table were ever promised. */
  ghost function Granted(rs: Table, rid: RegionId): nat { Sum(map id | id in rs :: BytesOn(rs[id], rid)) }

  ghost function Plus(w: map<ReservationId, nat>, x: map<ReservationId, nat>): map<ReservationId, nat>
    requires x.Keys == w.Keys
  {
    map id | id in w :: w[id] + x[id]
  }

  lemma SumPlus(w: map<ReservationId, nat>, x: map<ReservationId, nat>)
    requires x.Keys == w.Keys
    ensures Plus(w, x).Keys == w.Keys && Sum(Plus(w, x)) == Sum(w) + Sum(x)
  {
    SumAdds(w, x, Plus(w, x));
  }

  lemma GrantedAt(e: Epoch, ops: seq<Op>, rid: RegionId, id: ReservationId)
    requires |ops| <= U64_MAX && id in Run(Initial(e), ops).reservations
    ensures var s := Initial(e);
            var rs := Run(s, ops).reservations;
            BytesOn(rs[id], rid)
            == Holdings(rs, rid)[id] + Sent(s, ops, rs, rid, ToFree)[id] + Sent(s, ops, rs, rid, ToDraining)[id]
             + Sent(s, ops, rs, rid, ToUnavailable)[id] + Sent(s, ops, rs, rid, Forfeited)[id]
  {
    InitialInv(e);
    hide Inv, Run, Fate;
    var s := Initial(e);
    EndsOnce(s, ops, id);
    var fate := Fate(s, ops, id);
    if fate.Some? {
      assert fate.value.ToFree? || fate.value.ToDraining? || fate.value.ToUnavailable? || fate.value.Forfeited?;
    } else {
      assert id !in s.reservations;
    }
  }

  /**
   From a new coordinator on, all bytes ever granted on a region are still promised there, as the reserved and
   committed buckets say, or were freed, drained, made unavailable or forfeited, each reservation's bytes once.
   */
  lemma EveryByteAccounted(e: Epoch, ops: seq<Op>, rid: RegionId)
    requires |ops| <= U64_MAX
    ensures var s, t := Initial(e), Run(Initial(e), ops);
            && Granted(t.reservations, rid)
               == Promised(t.reservations, rid) + Outflow(s, ops, rid, ToFree) + Outflow(s, ops, rid, ToDraining)
                + Outflow(s, ops, rid, ToUnavailable) + Outflow(s, ops, rid, Forfeited)
            && (rid in t.regions ==>
                  Promised(t.reservations, rid) == t.regions[rid].ledger.reserved + t.regions[rid].ledger.committed)
  {
    var s, t := Initial(e), Run(Initial(e), ops);
    var rs := t.reservations;
    InitialInv(e);
    RunKeeps(s, ops);
    hide Inv, Run, Initial, Outflow;
    if rid in t.regions { PromisedInLedger(t, rid); }
    OutflowIsSent(s, ops, rid, ToFree);
    OutflowIsSent(s, ops, rid, ToDraining);
    OutflowIsSent(s, ops, rid, ToUnavailable);
    OutflowIsSent(s, ops, rid, Forfeited);
    var live, free, drained := Holdings(rs, rid), Sent(s, ops, rs, rid, ToFree), Sent(s, ops, rs, rid, ToDraining);
    var fenced, lost := Sent(s, ops, rs, rid, ToUnavailable), Sent(s, ops, rs, rid, Forfeited);
    SumPlus(live, free);
    SumPlus(Plus(live, free), drained);
    SumPlus(Plus(Plus(live, free), drained), fenced);
    var all := map id | id in rs :: BytesOn(rs[id], rid);
    var most := Plus(Plus(Plus(live, free), drained), fenced);
    forall id | id in most ensures all[id] == most[id] + lost[id] { GrantedAt(e, ops, rid, id); }
    SumAdds(most, lost, all);
  }

  // ---- A run whose last call forfeits what was promised ----

  const WANTED: Selection.Request := Requirements(
    1, 1, 16, 1, false, false, false, false, false, 0, 0, LOCALITY_UNKNOWN, [], [], false, NULL, false, false, false, false,
    false, NULL, NULL, 0.0)

  lemma ServingIsEligible()
    ensures Selection.Eligibility(Serving(), WANTED, ServingRegion()) == ELIGIBLE
  {
    RemainderIsModulo(16, 1);
    Selection.EligibleIff(Serving(), WANTED, ServingRegion());
    hide Selection.Eligibility;
  }

  lemma ServingRanks()
    ensures ReserveFault(Serving(), WANTED, OPERATOR) == NoError && Selection.RankedIds(Serving(), WANTED) != []
  {
    ServingIsEligible();
    hide Selection.Eligibility, ServingRegion;
    assert Selection.IsCandidate(Serving(), WANTED, 1);
    Selection.RankedAreCandidates(Serving(), WANTED);
    hide Selection.IsCandidate, Selection.RankedIds;
    assert 1 in Selection.RankedIds(Serving(), WANTED);
  }

  /** Where the reservation is made: the only region, with sixteen bytes moved from free to reserved. */
  function Promising(): Ledger { Empty(64).(online := 64, free := 48, reserved := 16) }

  lemma OnlyRegionReserves(s: State, req: Selection.Request, a: Authority, now: U64, rid: RegionId)
    requires ReserveFault(s, req, a) == NoError && Selection.RankedIds(s, req) != [] && s.regions.Keys == {rid}
    ensures Reserve(s, req, a, now) == ReserveOn(s, req, a, now, rid)
  {
    TopIsCandidate(s, req);
    CandidateExists(s, req, Selection.RankedIds(s, req)[0]);
    hide Selection.IsCandidate, Selection.RankedIds, ReserveOn, ReserveFault;
  }

  lemma SixteenReserved()
    ensures Serving().regions.Keys == {1} && Serving().regions[1] == ServingRegion()
    ensures Transfer(ServingRegion().ledger, Free, Bucket.Reserved, WANTED.requiredBytes) == Move(Promising(), true)
  {
  }

  lemma OnlyRegionTakes(s: State, req: Selection.Request, a: Authority, now: U64, rid: RegionId, l: Ledger)
    requires ReserveFault(s, req, a) == NoError && Selection.RankedIds(s, req) != [] && s.regions.Keys == {rid}
    requires Transfer(s.regions[rid].ledger, Free, Bucket.Reserved, req.requiredBytes) == Move(l, true)
    ensures var t := Reserve(s, req, a, now).state;
            && t.regions == s.regions[rid := s.regions[rid].(ledger := l)]
            && t.epoch == s.epoch && t.providers == s.providers && t.workers == s.workers
            && t.nextReservation == s.nextReservation + 1
  {
    hide Reserve, ReserveOn, Bind, Transfer, Mint, ReserveFault, Selection.RankedIds;
    OnlyRegionReserves(s, req, a, now, rid);
    ReserveShape(s, req, a, now, rid);
  }

  lemma ServingReserves()
    ensures var s, t := Serving(), Reserve(Serving(), WANTED, OPERATOR, 0).state;
            && t.regions == s.regions[1 := ServingRegion().(ledger := Promising())]
            && t.epoch == s.epoch && t.providers == s.providers && t.workers == s.workers
            && t.nextReservation == s.nextReservation + 1
  {
    ServingRanks();
    SixteenReserved();
    hide Serving, ServingRegion, Promising, Reserve, Transfer, ReserveFault, Selection.RankedIds;
    OnlyRegionTakes(Serving(), WANTED, OPERATOR, 0, 1, Promising());
  }

  lemma ReservingRun()
    ensures Run(Initial(1), Service() + [OpReserve(WANTED, OPERATOR, 0)]) == Reserve(Serving(), WANTED, OPERATOR, 0).state
  {
    ServingRun();
    hide Run, Reserve, Serving;
    RunThen(Initial(1), Service(), OpReserve(WANTED, OPERATOR, 0));
  }

  /** An operator may register a known region again, with a higher generation and nothing else changed. */
  lemma MayReincarnate(s: State, rid: RegionId, a: Authority, g: Generation)
    requires rid in s.regions && s.regions[rid].descriptor == REGION.(id := rid)
    requires a.epoch == s.epoch && a.worker == NULL && rid != NULL && g > 1 && 1 in s.providers
    ensures Reincarnates(s, OpRegisterRegion(s.regions[rid].descriptor.(generation := g), a), rid)
  {
  }

  /** Sixteen bytes reserved on a region of a new coordinator are in no bucket once it returns with generation 2. */
  lemma ReincarnationLosesPromise() returns (ops: seq<Op>, last: Op)
    ensures var s := Run(Initial(1), ops);
            && Inv(s) && 1 in s.regions && s.regions[1].ledger.reserved == 16 && Reincarnates(s, last, 1)
            && Ended(s.reservations, Apply(s, last).state.reservations, 1) == 16 && !Lands(s, last, 1)
  {
    ops := Service() + [OpReserve(WANTED, OPERATOR, 0)];
    var s := Run(Initial(1), ops);
    ReachableInv(1, ops);
    ReservingRun();
    ServingReserves();
    last := OpRegisterRegion(s.regions[1].descriptor.(generation := 2), OPERATOR);
    hide Run, Inv, Apply, Reincarnates, Ended, Lands, Reserve;
    MayReincarnate(s, 1, OPERATOR, 2);
    hide Serving;
    ReincarnationForfeits(s, last, 1);
    BytesLandIff(s, last, 1);
  }
}
