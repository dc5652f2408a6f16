/** What callers may rely on in any state that satisfies the invariant, hence in every reachable one. */
module Guarantees {
  import opened Words
  import opened Types
  import opened Ledgers
  import opened Records
  import opened Operations
  import opened Invariants
  import opened Preservation
  import Progress
  import Selection

  // ---- Reachable states ----

  /** A live reservation is bound to exactly the structure that exists now, under the current epoch. */
  lemma LiveReservationsBound(e: Epoch, ops: seq<Op>, id: ReservationId)
    requires |ops| <= U64_MAX
    requires id in Run(Initial(e), ops).reservations && Live(Run(Initial(e), ops).reservations[id])
    ensures BoundToCurrent(Run(Initial(e), ops), Run(Initial(e), ops).reservations[id])
  {
    hide Run, BoundToCurrent, Hosted;
    ReachableInv(e, ops);
    assert ReservationOk(Run(Initial(e), ops), id);
  }

  /** Every ledger closes and agrees with the reservation table, bucket by bucket. */
  lemma LedgersAgree(e: Epoch, ops: seq<Op>, rid: RegionId)
    requires |ops| <= U64_MAX && rid in Run(Initial(e), ops).regions
    ensures var s := Run(Initial(e), ops);
            var l := s.regions[rid].ledger;
            && l.Closed()
            && l.reserved == Held(s.reservations, rid, Bucket.Reserved)
            && l.committed == Held(s.reservations, rid, Bucket.Committed)
  {
    hide Run, EvidenceFits;
    ReachableInv(e, ops);
    assert RegionOk(Run(Initial(e), ops), rid);
  }

  /** A draining or unavailable region has nothing merely reserved, in the table or in the ledger. */
  lemma NothingReservedWhereDraining(s: State, rid: RegionId)
    requires Inv(s) && rid in s.regions
    requires s.regions[rid].lifecycle.Draining? || s.regions[rid].lifecycle.Unavailable?
    ensures forall id :: id in s.reservations && s.reservations[id].region == rid ==> !s.reservations[id].state.Reserved?
    ensures s.regions[rid].ledger.reserved == 0
  {
    forall id | id in s.reservations ensures Weight(s.reservations[id], rid, Bucket.Reserved) == 0 {
      assert ReservationOk(s, id);
    }
    assert RegionOk(s, rid);
    hide Inv, ReservationOk, EvidenceFits;
    HeldVanishes(s.reservations, rid, Bucket.Reserved);
  }

  /** Retired structure carries no live reservation, and a retired region's ledger promises nothing. */
  lemma NothingLiveOnRetired(s: State, id: ReservationId)
    requires Inv(s) && id in s.reservations && Live(s.reservations[id])
    ensures var r := s.reservations[id];
            && r.region in s.regions && !s.regions[r.region].lifecycle.Retired?
            && r.provider in s.providers && !s.providers[r.provider].lifecycle.Retired?
  {
    assert ReservationOk(s, id);
  }

  lemma RetiredLedgerEmpty(s: State, rid: RegionId)
    requires Inv(s) && rid in s.regions && s.regions[rid].lifecycle.Retired?
    ensures s.regions[rid].ledger.reserved == 0 && s.regions[rid].ledger.committed == 0
  {
    forall id | id in s.reservations
      ensures Weight(s.reservations[id], rid, Bucket.Reserved) == 0 && Weight(s.reservations[id], rid, Bucket.Committed) == 0
    {
      assert ReservationOk(s, id);
    }
    assert RegionOk(s, rid);
    hide Inv, ReservationOk, EvidenceFits;
    HeldVanishes(s.reservations, rid, Bucket.Reserved);
    HeldVanishes(s.reservations, rid, Bucket.Committed);
  }

  /** Whatever is ranked rests on evidence of this epoch, this region generation and, from its own provider, this provider generation. */
  lemma RankedEvidenceCurrent(s: State, req: Request, rid: RegionId)
    requires Inv(s) && rid in Selection.RankedIds(s, req)
    ensures rid in s.regions
    ensures var rr := s.regions[rid];
            var h := rr.latest.header;
            && rr.hasEvidence && rr.evidenceStatus.Current?
            && h.region == rid && h.epoch == s.epoch && h.regionGeneration == rr.descriptor.generation
            && (h.sourceProvider == rr.descriptor.provider ==>
                  && rr.descriptor.provider in s.providers
                  && h.sourceProviderGeneration == s.providers[rr.descriptor.provider].descriptor.generation)
            && !rr.lifecycle.Retired? && !rr.lifecycle.Draining?
            && rr.descriptor.provider in s.providers && !s.providers[rr.descriptor.provider].lifecycle.Retired?
  {
    Selection.RankedAreCandidates(s, req);
    hide Selection.RankedIds;
    Selection.CandidateFacts(s, req, rid);
    hide Selection.IsCandidate, LedgerFits;
    assert RegionOk(s, rid);
  }

  /** In any reachable state every score of a ranking lies in [0, 1.05]. */
  lemma RankedScoresBounded(s: State, req: Request, rid: RegionId)
    requires Inv(s) && rid in Selection.RankedIds(s, req)
    ensures rid in s.regions && 0.0 <= Selection.ScoreOf(s, req, rid) <= 1.05
  {
    Selection.RankedAreCandidates(s, req);
    hide Selection.RankedIds, Selection.IsCandidate, Selection.ScoreOf, Inv;
    CandidateExists(s, req, rid);
    ClosedLedger(s, rid);
    Selection.RankedScoreBounds(s, req, rid);
  }

  lemma ReflectSparesRetired(ps: map<ProviderId, ProviderRecord>, rr: RegionRecord, p: ProviderId)
    requires p in ps
    ensures p in Reflect(ps, rr)
    ensures Reflect(ps, rr)[p].lifecycle.Retired? <==> ps[p].lifecycle.Retired?
    ensures Reflect(ps, rr)[p].lifecycle.Failed? <==> ps[p].lifecycle.Failed?
  {
  }

  /**
   Accepted evidence decides at once whether the region is in service: exactly when it reports the
   region reachable and in tolerable health, and the backing provider is neither retired nor failed.
   */
  lemma EvidenceDecidesService(s: State, e: RegionEvidence, a: Authority, degradedOk: bool)
    requires PublishEvidence(s, e, a).error == NoError
    ensures e.header.region in s.regions && e.header.region in PublishEvidence(s, e, a).state.regions
    ensures var p := s.regions[e.header.region].descriptor.provider;
            var t := PublishEvidence(s, e, a).state;
            p in s.providers ==>
              && p in t.providers
              && (Selection.InService(t.providers[p], t.regions[e.header.region], degradedOk) <==>
                    && !s.providers[p].lifecycle.Retired? && !s.providers[p].lifecycle.Failed?
                    && e.reachable && e.health != HEALTH_FAILED && (e.health == HEALTH_DEGRADED ==> degradedOk))
  {
    var rid := e.header.region;
    var p := s.regions[rid].descriptor.provider;
    var t := PublishEvidence(s, e, a).state;
    hide SetOnline, Acceptable, Reflect, RegionAllowed;
    if p in s.providers { ReflectSparesRetired(s.providers, t.regions[rid], p); }
  }

  // ---- Commit ----

  /** The only things that can refuse the commit of a RESERVED reservation. */
  predicate Committable(s: State, r: Reservation, a: Authority)
    requires r.region in s.regions
  {
    var rr := s.regions[r.region];
    && Acceptable(s, a)
    && a.worker == r.worker && (r.worker != NULL ==> a.boot == r.boot)
    && (r.consumerGeneration != NULL && r.consumer in s.consumers ==> s.consumers[r.consumer] == r.consumerGeneration)
    && rr.evidenceStatus.Current? && rr.latest.header.generation == r.evidenceGeneration
    && !rr.lifecycle.RevalidationRequired?
  }

  lemma BindingsHold(s: State, id: ReservationId)
    requires Inv(s) && id in s.reservations && Live(s.reservations[id])
    ensures var r := s.reservations[id];
            && BindingFault(s, r) == NoError && r.region in s.regions
            && (s.regions[r.region].evidenceStatus.Current? ==> s.regions[r.region].hasEvidence)
            && Carries(s.regions[r.region].lifecycle, r)
  {
    assert ReservationOk(s, id);
    assert RegionOk(s, s.reservations[id].region);
    hide Inv, LedgerFits;
  }

  lemma HolderRule(s: State, r: Reservation, a: Authority)
    requires Acceptable(s, a)
    ensures HolderFault(s, r, a) == NoError <==> a.worker == r.worker && (r.worker != NULL ==> a.boot == r.boot)
  {
  }

  lemma FreshnessRule(s: State, r: Reservation)
    requires r.region in s.regions && Carries(s.regions[r.region].lifecycle, r) && r.state.Reserved?
    requires s.regions[r.region].evidenceStatus.Current? ==> s.regions[r.region].hasEvidence
    ensures var rr := s.regions[r.region];
            FreshnessFault(s, r) == NoError <==>
              && (r.consumerGeneration != NULL && r.consumer in s.consumers ==> s.consumers[r.consumer] == r.consumerGeneration)
              && rr.evidenceStatus.Current? && rr.latest.header.generation == r.evidenceGeneration
              && !rr.lifecycle.RevalidationRequired?
    ensures FreshnessFault(s, r) in {NoError, WrongGeneration, StaleEvidence, NeedsRevalidation}
  {
  }

  /** Commit's verdict once the bindings and the ledger are known to hold. */
  lemma CommitVerdict(s: State, id: ReservationId, a: Authority)
    requires id in s.reservations
    requires var r := s.reservations[id];
             && r.state.Reserved? && BindingFault(s, r) == NoError && r.region in s.regions
             && r.bytes <= s.regions[r.region].ledger.reserved
             && Transfer(s.regions[r.region].ledger, Bucket.Reserved, Bucket.Committed, r.bytes).ok
    ensures var r := s.reservations[id];
            Commit(s, id, a).error == if !Acceptable(s, a) then StaleAuthority
                                      else if HolderFault(s, r, a) != NoError then HolderFault(s, r, a)
                                      else FreshnessFault(s, r)
  {
    hide BindingFault, HolderFault, FreshnessFault, Acceptable, Transfer;
  }

  /**
   In any reachable state the region, provider, policy, pool, epoch, capacity and ledger failures of
   commit are unreachable: it succeeds exactly when the holder asks, the consumer has not been
   reincarnated, and the evidence it was reserved on is still current.
   */
  lemma CommitSucceedsIff(s: State, id: ReservationId, a: Authority)
    requires Inv(s) && id in s.reservations && s.reservations[id].state.Reserved?
    ensures s.reservations[id].region in s.regions
    ensures Commit(s, id, a).error == NoError <==> Committable(s, s.reservations[id], a)
    ensures BindingFault(s, s.reservations[id]) == NoError
    ensures Commit(s, id, a).error in {NoError, StaleAuthority, WrongGeneration, StaleEvidence, NeedsRevalidation}
  {
    hide Inv, BindingFault, FreshnessFault, Transfer, Exchange, Acceptable, Commit;
    var r := s.reservations[id];
    BindingsHold(s, id);
    HeldByLedger(s, id);
    CommitExchange(s, id);
    CommitVerdict(s, id, a);
    FreshnessRule(s, r);
    if Acceptable(s, a) { HolderRule(s, r, a); }
  }

  lemma LedgerMoves(l: Ledger, n: nat)
    requires l.Closed()
    ensures n <= l.reserved ==>
              && Transfer(l, Bucket.Reserved, Bucket.Committed, n)
              == Move(l.(reserved := l.reserved - n, committed := l.committed + n), true)
              && Transfer(l, Bucket.Reserved, Free, n) == Move(l.(reserved := l.reserved - n, free := l.free + n), true)
    ensures n <= l.committed ==>
              Transfer(l, Bucket.Committed, Free, n) == Move(l.(committed := l.committed - n, free := l.free + n), true)
  {
  }

  /** A successful commit moves exactly its bytes from reserved to committed and touches nothing else. */
  lemma CommitMoves(s: State, id: ReservationId, a: Authority)
    requires Inv(s) && Commit(s, id, a).error == NoError
    ensures id in s.reservations && s.reservations[id].region in s.regions
    ensures var r := s.reservations[id];
            var rr := s.regions[r.region];
            var l := rr.ledger.(reserved := rr.ledger.reserved - r.bytes, committed := rr.ledger.committed + r.bytes);
            Commit(s, id, a).state == WithReservation(s, r.(state := ReservationState.Committed), id, rr.(ledger := l))
  {
    hide Inv, BindingFault, HolderFault, FreshnessFault, Acceptable, Transfer, WithReservation;
    HeldByLedger(s, id);
    LedgerMoves(s.regions[s.reservations[id].region].ledger, s.reservations[id].bytes);
  }

  // ---- Release ----

  /** The ledger once a reservation's bytes are back in the free bucket. */
  function Freed(l: Ledger, r: Reservation): Ledger {
    if r.state.Reserved? then l.(reserved := l.reserved - r.bytes, free := l.free + r.bytes)
    else l.(committed := l.committed - r.bytes, free := l.free + r.bytes)
  }

  lemma ReleaseMove(s: State, id: ReservationId)
    requires Inv(s) && id in s.reservations && Live(s.reservations[id])
    ensures var r := s.reservations[id];
            && r.region in s.regions
            && var l := s.regions[r.region].ledger;
               Transfer(l, if r.state.Reserved? then Bucket.Reserved else Bucket.Committed, Free, r.bytes) == Move(Freed(l, r), true)
  {
    hide Inv, Transfer;
    HeldByLedger(s, id);
    LedgerMoves(s.regions[s.reservations[id].region].ledger, s.reservations[id].bytes);
  }

  /** Releasing any live reservation under an acceptable authority succeeds and returns its bytes to free. */
  lemma ReleaseAlwaysSucceeds(s: State, id: ReservationId, a: Authority)
    requires Inv(s) && id in s.reservations && Live(s.reservations[id]) && Acceptable(s, a)
    ensures s.reservations[id].region in s.regions
    ensures var r := s.reservations[id];
            var rr := s.regions[r.region];
            Release(s, id, a) == Step(WithReservation(s, r.(state := Released), id, rr.(ledger := Freed(rr.ledger, r))), NoError)
  {
    hide Inv, Acceptable, Transfer, WithReservation, WithRegion, Freed;
    LiveRegion(s, id);
    ReleaseMove(s, id);
  }

  lemma LiveRegion(s: State, id: ReservationId)
    requires Inv(s) && id in s.reservations && Live(s.reservations[id])
    ensures var r := s.reservations[id];
            r.region in s.regions && s.regions[r.region].descriptor.generation == r.regionGeneration && r.epoch == s.epoch
  {
    assert ReservationOk(s, id);
  }

  lemma EndedIsRefused(s: State, id: ReservationId, a: Authority)
    requires id in s.reservations && !Live(s.reservations[id])
    ensures Release(s, id, a).error != NoError && Release(s, id, a).state == s
    ensures Commit(s, id, a).error != NoError && Commit(s, id, a).state == s
  {
  }

  /**
   Over any run: a reservation that was released, fenced, cancelled or left for revalidation is never
   changed again, and after however many calls it can neither be released nor committed.
   */
  lemma NoSecondEnding(s: State, ops: seq<Op>, id: ReservationId, a: Authority)
    requires Inv(s) && s.nextReservation + |ops| <= U64_MAX + 1
    requires id in s.reservations && Progress.Settled(s.reservations[id])
    ensures var t := Run(s, ops);
            && id in t.reservations && t.reservations[id] == s.reservations[id]
            && Release(t, id, a).error != NoError && Release(t, id, a).state == t
            && Commit(t, id, a).error != NoError && Commit(t, id, a).state == t
  {
    hide Run, Release, Commit, Inv;
    Progress.RunForward(s, ops);
    var t := Run(s, ops);
    assert Progress.Successor(s.reservations[id], t.reservations[id]);
    hide Progress.Forward;
    EndedIsRefused(t, id, a);
  }

  // ---- Select, reserve, commit ----

  /** The step succeeds, files exactly the new reservation, and takes its bytes from free on its region. */
  ghost predicate Files(s: State, step: Step, r: Reservation) {
    && step.error == NoError && r.id !in s.reservations && step.state.reservations == s.reservations[r.id := r]
    && r.region in s.regions && r.region in step.state.regions
    && step.state.regions[r.region].ledger.reserved == s.regions[r.region].ledger.reserved + r.bytes
    && step.state.regions[r.region].ledger.free == s.regions[r.region].ledger.free - r.bytes
  }

  lemma ReservedLedger(l: Ledger, n: nat)
    requires l.Closed() && n <= l.free
    ensures Transfer(l, Free, Bucket.Reserved, n) == Move(l.(free := l.free - n, reserved := l.reserved + n), true)
  {
  }

  lemma CandidateFiles(s: State, req: Request, a: Authority, now: U64, rid: RegionId)
    requires rid in s.regions && s.regions[rid].ledger.Closed() && req.requiredBytes <= s.regions[rid].ledger.free
    requires Mint(s.nextReservation) !in s.reservations
    ensures Files(s, ReserveOn(s, req, a, now, rid), Bind(s, req, a, now, rid))
    ensures Bind(s, req, a, now, rid).id == Mint(s.nextReservation)
  {
    hide Transfer, Mint;
    ReservedLedger(s.regions[rid].ledger, req.requiredBytes);
  }

  lemma RoomOnCandidate(s: State, req: Request, rid: RegionId)
    requires Selection.IsCandidate(s, req, rid)
    ensures rid in s.regions && req.requiredBytes <= s.regions[rid].ledger.free
  {
    Selection.CandidateFacts(s, req, rid);
    hide Selection.Eligibility;
  }

  /** If anything is ranked, reserving in the same state succeeds, on the first of the ranking. */
  lemma RankedIsReservable(s: State, req: Request, a: Authority, now: U64)
    requires Inv(s) && s.nextReservation <= U64_MAX
    requires ReserveFault(s, req, a) == NoError && Selection.RankedIds(s, req) != []
    ensures var rid := Selection.RankedIds(s, req)[0];
            && rid in s.regions && Files(s, Reserve(s, req, a, now), Bind(s, req, a, now, rid))
            && Bind(s, req, a, now, rid).id == Mint(s.nextReservation)
  {
    hide Selection.IsCandidate, Inv, ReserveFault, Selection.RankedIds, ReserveOn, Bind, Mint, Files;
    var rid := Selection.RankedIds(s, req)[0];
    TopIsCandidate(s, req);
    RoomOnCandidate(s, req, rid);
    ClosedLedger(s, rid);
    FreshMint(s);
    CandidateFiles(s, req, a, now, rid);
  }

  /** When nothing is ranked, nothing is reserved: CAPACITY_INSUFFICIENT, and every table is as before. */
  lemma UnrankedIsRefused(s: State, req: Request, a: Authority, now: U64)
    requires ReserveFault(s, req, a) == NoError && Selection.RankedIds(s, req) == []
    ensures Reserve(s, req, a, now).error == CapacityInsufficient && SameMaps(s, Reserve(s, req, a, now).state)
  {
    hide ReserveFault, Selection.RankedIds;
  }

  lemma ReserveOnCarriesOver(s: State, req: Request, a: Authority, now: U64, rid: RegionId)
    requires rid in s.regions
    ensures var t := ReserveOn(s, req, a, now, rid).state;
            && rid in t.regions && t.epoch == s.epoch && t.workers == s.workers && t.consumers == s.consumers
            && t.regions[rid] == s.regions[rid].(ledger := t.regions[rid].ledger)
  {
    ReserveShape(s, req, a, now, rid);
    hide ReserveOn, Bind, Transfer, Mint;
  }

  lemma ReserveCarriesOver(s: State, req: Request, a: Authority, now: U64)
    requires ReserveFault(s, req, a) == NoError && Selection.RankedIds(s, req) != []
    requires Selection.RankedIds(s, req)[0] in s.regions
    ensures Reserve(s, req, a, now) == ReserveOn(s, req, a, now, Selection.RankedIds(s, req)[0])
  {
    hide ReserveFault, Selection.RankedIds, ReserveOn;
  }

  lemma CommittableAfterReserve(s: State, t: State, req: Request, a: Authority, now: U64, rid: RegionId)
    requires rid in s.regions && rid in t.regions && t.regions[rid] == s.regions[rid].(ledger := t.regions[rid].ledger)
    requires t.epoch == s.epoch && t.workers == s.workers && t.consumers == s.consumers
    requires Acceptable(s, a) && req.consumerGeneration != NULL
    requires s.regions[rid].hasEvidence && s.regions[rid].evidenceStatus.Current?
    requires s.regions[rid].lifecycle.Online? || s.regions[rid].lifecycle.Degraded?
    ensures var r := Bind(s, req, a, now, rid);
            r.region == rid
            && (Committable(t, r, a) <==> (req.consumer in s.consumers ==> s.consumers[req.consumer] == req.consumerGeneration))
  {
    hide Mint;
  }

  /** The reservation just made can be committed at once exactly when the consumer is unregistered or still at that generation. */
  lemma ReservedIsCommittable(s: State, req: Request, a: Authority, now: U64)
    requires Inv(s) && s.nextReservation <= U64_MAX
    requires ReserveFault(s, req, a) == NoError && Selection.RankedIds(s, req) != []
    ensures Commit(Reserve(s, req, a, now).state, Mint(s.nextReservation), a).error == NoError
       <==> (req.consumer in s.consumers ==> s.consumers[req.consumer] == req.consumerGeneration)
  {
    hide Selection.IsCandidate, Inv, Reserve, ReserveOn, Selection.RankedIds, Commit, Committable, Acceptable, BindingFault, Mint;
    var rid := Selection.RankedIds(s, req)[0];
    var t := Reserve(s, req, a, now).state;
    RankedIsReservable(s, req, a, now);
    ReserveCarriesOver(s, req, a, now);
    ReserveOnCarriesOver(s, req, a, now, rid);
    TopIsCandidate(s, req);
    Selection.CandidateFacts(s, req, rid);
    ReserveKeeps(s, req, a, now);
    CommittableAfterReserve(s, t, req, a, now, rid);
    BoundAsReserved(s, req, a, now, rid);
    hide Bind;
    CommitSucceedsIff(t, Mint(s.nextReservation), a);
  }

  lemma BoundAsReserved(s: State, req: Request, a: Authority, now: U64, rid: RegionId)
    requires rid in s.regions
    ensures Bind(s, req, a, now, rid).state.Reserved? && Bind(s, req, a, now, rid).region == rid
  {
    hide Mint;
  }
}
