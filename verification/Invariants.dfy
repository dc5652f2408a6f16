/** The inductive invariant of the control plane, and the lemmas that every operation keeps it. */
module Invariants {
  import opened Types
  import opened Ledgers
  import opened Records
  import opened Operations

  // ---- The invariant ----

  /** Current evidence was published under this epoch and for these generations. */
  ghost predicate EvidenceFits(epoch: Epoch, providers: map<ProviderId, ProviderRecord>, rid: RegionId, rr: RegionRecord) {
    rr.evidenceStatus.Current? ==>
      && rr.hasEvidence
      && rr.latest.header.region == rid
      && rr.latest.header.epoch == epoch
      && rr.latest.header.regionGeneration == rr.descriptor.generation
      && (rr.latest.header.sourceProvider == rr.descriptor.provider ==>
            && rr.descriptor.provider in providers
            && rr.latest.header.sourceProviderGeneration == providers[rr.descriptor.provider].descriptor.generation)
  }

  /** The ledger is closed and agrees with the reservation table, bucket by bucket. */
  ghost predicate LedgerFits(rs: map<ReservationId, Reservation>, rid: RegionId, rr: RegionRecord) {
    && rr.ledger.Closed()
    && rr.ledger.total == rr.descriptor.totalCapacityBytes
    && rr.ledger.reserved == Held(rs, rid, Bucket.Reserved)
    && rr.ledger.committed == Held(rs, rid, Bucket.Committed)
  }

  ghost predicate RegionOk(s: State, rid: RegionId)
    requires rid in s.regions
  {
    var rr := s.regions[rid];
    && rr.descriptor.id == rid
    && LedgerFits(s.reservations, rid, rr)
    && EvidenceFits(s.epoch, s.providers, rid, rr)
    && (forall m :: m in rr.memberships ==> m.0 in s.pools)
  }

  /** A live reservation names existing structure at exactly the generations it was bound to. */
  ghost predicate BoundToCurrent(s: State, r: Reservation) {
    && r.region in s.regions
    && r.regionGeneration == s.regions[r.region].descriptor.generation
    && r.provider == s.regions[r.region].descriptor.provider
    && r.provider in s.providers
    && r.providerGeneration == s.providers[r.provider].descriptor.generation
    && (r.policy != NULL ==> r.policy in s.policies && r.policyGeneration == s.policies[r.policy].generation)
    && (r.pool != NULL ==> r.pool in s.pools && r.poolGeneration == s.pools[r.pool].generation)
    && r.epoch == s.epoch
  }

  /** No live reservation sits on retired structure, and none is merely RESERVED where draining or withdrawn. */
  ghost predicate Hosted(s: State, r: Reservation)
    requires BoundToCurrent(s, r)
  {
    var l := s.regions[r.region].lifecycle;
    && !l.Retired? && !s.providers[r.provider].lifecycle.Retired?
    && (r.state.Reserved? ==> !l.Draining? && !l.Unavailable?)
  }

  ghost predicate ReservationOk(s: State, id: ReservationId)
    requires id in s.reservations
  {
    var r := s.reservations[id];
    && r.id == id && 0 < id < s.nextReservation && 0 < r.bytes
    && (Live(r) ==> BoundToCurrent(s, r) && Hosted(s, r))
  }

  /** Records are filed under their own ids. */
  ghost predicate Filed(s: State) {
    && (forall p :: p in s.providers ==> s.providers[p].descriptor.id == p)
    && (forall d :: d in s.domains ==> s.domains[d].descriptor.id == d)
    && (forall p :: p in s.pools ==> s.pools[p].id == p)
    && (forall p :: p in s.policies ==> s.policies[p].id == p)
  }

  ghost predicate Inv(s: State) {
    && 1 <= s.nextReservation
    && Filed(s)
    && (forall rid :: rid in s.regions ==> RegionOk(s, rid))
    && (forall id :: id in s.reservations ==> ReservationOk(s, id))
  }

  lemma InitialInv(e: Epoch)
    ensures Inv(Initial(e))
  {
  }

  // ---- Transfer of the invariant from one state to another, element by element ----

  /** A region is still fine if its own record is, against the other state's tables. */
  lemma RegionCarried(s: State, t: State, rid: RegionId)
    requires rid in s.regions && rid in t.regions && RegionOk(s, rid)
    requires t.regions[rid].descriptor == s.regions[rid].descriptor
    requires LedgerFits(t.reservations, rid, t.regions[rid])
    requires EvidenceFits(t.epoch, t.providers, rid, t.regions[rid])
    requires t.regions[rid].memberships <= s.regions[rid].memberships && s.pools.Keys <= t.pools.Keys
    ensures RegionOk(t, rid)
  {
  }

  /** Bindings read only descriptors, lifecycles and the epoch. */
  lemma SameHost(s: State, t: State, r: Reservation)
    requires BoundToCurrent(s, r) && Hosted(s, r)
    requires r.region in t.regions
    requires t.regions[r.region].descriptor == s.regions[r.region].descriptor
    requires t.regions[r.region].lifecycle == s.regions[r.region].lifecycle
    requires t.providers == s.providers && t.policies == s.policies && t.pools == s.pools && t.epoch == s.epoch
    ensures BoundToCurrent(t, r) && Hosted(t, r)
  {
  }

  // ---- Withdrawal ----

  lemma RebalanceFits(rs: map<ReservationId, Reservation>, ids: set<ReservationId>, cause: Cause, rid: RegionId, rr: RegionRecord)
    requires LedgerFits(rs, rid, rr)
    ensures var rs' := WithdrawAll(rs, ids, cause);
            LedgerFits(rs', rid, rr.(ledger := Rebalance(rr.ledger, Held(rs', rid, Bucket.Reserved),
                                                         Held(rs', rid, Bucket.Committed), cause)))
  {
    HeldAfterWithdraw(rs, ids, cause, rid, Bucket.Reserved);
    HeldAfterWithdraw(rs, ids, cause, rid, Bucket.Committed);
  }

  lemma WithdrawKeepsRegion(s: State, ids: set<ReservationId>, cause: Cause, rid: RegionId)
    requires rid in s.regions && RegionOk(s, rid)
    ensures RegionOk(Withdraw(s, ids, cause), rid)
  {
    RebalanceFits(s.reservations, ids, cause, rid, s.regions[rid]);
    RegionCarried(s, Withdraw(s, ids, cause), rid);
  }

  lemma WithdrawKeepsReservation(s: State, ids: set<ReservationId>, cause: Cause, id: ReservationId)
    requires id in s.reservations && ReservationOk(s, id)
    ensures ReservationOk(Withdraw(s, ids, cause), id)
  {
    var t := Withdraw(s, ids, cause);
    var r := s.reservations[id];
    if Live(t.reservations[id]) {
      if id in ids { LiveUntouched(r, cause); }
      assert t.reservations[id] == r;
      SameHost(s, t, r);
    }
  }

  lemma WithdrawKeeps(s: State, ids: set<ReservationId>, cause: Cause)
    requires Inv(s)
    ensures Inv(Withdraw(s, ids, cause))
  {
    hide RegionOk, ReservationOk;
    var t := Withdraw(s, ids, cause);
    forall rid | rid in t.regions ensures RegionOk(t, rid) {
      WithdrawKeepsRegion(s, ids, cause, rid);
    }
    forall id | id in t.reservations ensures ReservationOk(t, id) {
      WithdrawKeepsReservation(s, ids, cause, id);
    }
  }

  // ---- Building blocks: what one kind of change keeps ----

  /** Whether a region in this lifecycle may carry the reservation. */
  predicate Carries(l: RegionLifecycle, r: Reservation) {
    !l.Retired? && (r.state.Reserved? ==> !l.Draining? && !l.Unavailable?)
  }

  /** Same structure and ledger; evidence at most as authoritative as before. */
  predicate Milder(before: RegionRecord, after: RegionRecord) {
    && after.descriptor == before.descriptor && after.ledger == before.ledger
    && after.memberships <= before.memberships
    && (after.evidenceStatus.Current? ==>
          before.evidenceStatus.Current? && after.latest == before.latest && after.hasEvidence == before.hasEvidence)
  }

  lemma MilderRegion(s: State, t: State, rid: RegionId)
    requires t == s.(regions := t.regions) && rid in s.regions && rid in t.regions
    requires RegionOk(s, rid) && Milder(s.regions[rid], t.regions[rid])
    ensures RegionOk(t, rid)
  {
    RegionCarried(s, t, rid);
  }

  lemma MilderHost(s: State, t: State, id: ReservationId)
    requires t == s.(regions := t.regions) && t.regions.Keys == s.regions.Keys
    requires id in s.reservations && ReservationOk(s, id)
    requires var r := s.reservations[id];
             Live(r) && r.region in s.regions ==>
               && t.regions[r.region].descriptor == s.regions[r.region].descriptor
               && Carries(t.regions[r.region].lifecycle, r)
    ensures ReservationOk(t, id)
  {
  }

  lemma MilderKeeps(s: State, t: State)
    requires Inv(s) && t == s.(regions := t.regions) && t.regions.Keys == s.regions.Keys
    requires forall rid :: rid in s.regions ==> Milder(s.regions[rid], t.regions[rid])
    requires forall id :: id in s.reservations && Live(s.reservations[id]) && s.reservations[id].region in t.regions ==>
               Carries(t.regions[s.reservations[id].region].lifecycle, s.reservations[id])
    ensures Inv(t)
  {
    hide RegionOk, ReservationOk;
    forall rid | rid in t.regions ensures RegionOk(t, rid) {
      MilderRegion(s, t, rid);
    }
    forall id | id in t.reservations ensures ReservationOk(t, id) {
      var r := s.reservations[id];
      assert r.region in s.regions ==> Milder(s.regions[r.region], t.regions[r.region]);
      MilderHost(s, t, id);
    }
  }

  lemma UpdatedHost(s: State, rid: RegionId, rr: RegionRecord, id: ReservationId)
    requires rid in s.regions && rr.descriptor == s.regions[rid].descriptor
    requires id in s.reservations && ReservationOk(s, id)
    requires Live(s.reservations[id]) && s.reservations[id].region == rid ==> Carries(rr.lifecycle, s.reservations[id])
    ensures ReservationOk(WithRegion(s, rid, rr), id)
  {
  }

  /** One region record may change if the new record is sound and still carries what rests on it. */
  lemma RegionUpdated(s: State, rid: RegionId, rr: RegionRecord)
    requires Inv(s) && rid in s.regions && rr.descriptor == s.regions[rid].descriptor
    requires RegionOk(WithRegion(s, rid, rr), rid)
    requires forall id :: id in s.reservations && Live(s.reservations[id]) && s.reservations[id].region == rid ==>
               Carries(rr.lifecycle, s.reservations[id])
    ensures Inv(WithRegion(s, rid, rr))
  {
    hide RegionOk, ReservationOk;
    var t := WithRegion(s, rid, rr);
    forall x | x in t.regions ensures RegionOk(t, x) {
      if x != rid { OtherRegion(s, t, x); }
    }
    forall id | id in t.reservations ensures ReservationOk(t, id) {
      UpdatedHost(s, rid, rr, id);
    }
  }

  lemma LiveAreCarried(s: State, rid: RegionId)
    requires Inv(s) && rid in s.regions
    ensures forall id :: id in s.reservations && Live(s.reservations[id]) && s.reservations[id].region == rid ==>
              Carries(s.regions[rid].lifecycle, s.reservations[id])
  {
    forall id | id in s.reservations && Live(s.reservations[id]) && s.reservations[id].region == rid
      ensures Carries(s.regions[rid].lifecycle, s.reservations[id])
    {
      assert ReservationOk(s, id);
    }
  }

  /** Same structure and holdings, a closed ledger, evidence at most as authoritative as before. */
  predicate Amends(before: RegionRecord, after: RegionRecord) {
    && after.descriptor == before.descriptor
    && (after.ledger == before.ledger || after.ledger.Closed())
    && after.ledger.total == before.ledger.total
    && after.ledger.reserved == before.ledger.reserved && after.ledger.committed == before.ledger.committed
    && (after.evidenceStatus.Current? ==>
          before.evidenceStatus.Current? && after.latest == before.latest && after.hasEvidence == before.hasEvidence)
  }

  lemma AmendedRegion(s: State, rid: RegionId, rr: RegionRecord)
    requires rid in s.regions && RegionOk(s, rid) && Amends(s.regions[rid], rr)
    requires forall m :: m in rr.memberships ==> m in s.regions[rid].memberships || m.0 in s.pools
    ensures RegionOk(WithRegion(s, rid, rr), rid)
  {
  }

  /** A region may be amended, and its lifecycle may change to any that carries what rests on it. */
  lemma RegionAmended(s: State, rid: RegionId, rr: RegionRecord)
    requires Inv(s) && rid in s.regions && Amends(s.regions[rid], rr)
    requires forall m :: m in rr.memberships ==> m in s.regions[rid].memberships || m.0 in s.pools
    requires forall id :: id in s.reservations && Live(s.reservations[id]) && s.reservations[id].region == rid ==>
               Carries(rr.lifecycle, s.reservations[id])
    ensures Inv(WithRegion(s, rid, rr))
  {
    hide RegionOk, ReservationOk;
    AmendedRegion(s, rid, rr);
    RegionUpdated(s, rid, rr);
  }

  lemma ProviderReplacedReservation(s: State, p: ProviderId, rec: ProviderRecord, id: ReservationId)
    requires id in s.reservations && ReservationOk(s, id)
    requires Live(s.reservations[id]) ==>
               || s.reservations[id].provider != p
               || (p in s.providers && rec.descriptor == s.providers[p].descriptor && !rec.lifecycle.Retired?)
    ensures ReservationOk(s.(providers := s.providers[p := rec]), id)
  {
  }

  lemma ProviderReplacedRegion(s: State, p: ProviderId, rec: ProviderRecord, rid: RegionId)
    requires rid in s.regions && RegionOk(s, rid)
    requires s.regions[rid].descriptor.provider == p ==>
               || !s.regions[rid].evidenceStatus.Current? || p !in s.providers
               || rec.descriptor == s.providers[p].descriptor
    ensures RegionOk(s.(providers := s.providers[p := rec]), rid)
  {
  }

  /** A provider record may be replaced once nothing live or current rests on it. */
  lemma ProviderReplaced(s: State, p: ProviderId, rec: ProviderRecord)
    requires Inv(s) && rec.descriptor.id == p
    requires forall id :: id in s.reservations && Live(s.reservations[id]) ==> s.reservations[id].provider != p
    requires forall rid :: rid in s.regions && s.regions[rid].descriptor.provider == p ==>
               !s.regions[rid].evidenceStatus.Current? || p !in s.providers
    ensures Inv(s.(providers := s.providers[p := rec]))
  {
    hide RegionOk, ReservationOk;
    forall rid | rid in s.regions ensures RegionOk(s.(providers := s.providers[p := rec]), rid) {
      ProviderReplacedRegion(s, p, rec, rid);
    }
    forall id | id in s.reservations ensures ReservationOk(s.(providers := s.providers[p := rec]), id) {
      ProviderReplacedReservation(s, p, rec, id);
    }
  }

  lemma ProviderLifecycleKeeps(s: State, p: ProviderId, l: Lifecycle)
    requires Inv(s) && p in s.providers
    requires l.Retired? ==> forall id :: id in s.reservations && Live(s.reservations[id]) ==> s.reservations[id].provider != p
    ensures Inv(s.(providers := s.providers[p := s.providers[p].(lifecycle := l)]))
  {
    hide RegionOk, ReservationOk;
    var rec := s.providers[p].(lifecycle := l);
    forall rid | rid in s.regions ensures RegionOk(s.(providers := s.providers[p := rec]), rid) {
      ProviderReplacedRegion(s, p, rec, rid);
    }
    forall id | id in s.reservations ensures ReservationOk(s.(providers := s.providers[p := rec]), id) {
      ProviderReplacedReservation(s, p, rec, id);
    }
  }

  lemma FreshRegionOk(s: State, d: RegionDescriptor, l: RegionLifecycle)
    requires forall id :: id in s.reservations && Live(s.reservations[id]) ==> s.reservations[id].region != d.id
    ensures RegionOk(s.(regions := s.regions[d.id := FreshRegion(d, l)]), d.id)
  {
    HeldVanishes(s.reservations, d.id, Bucket.Reserved);
    HeldVanishes(s.reservations, d.id, Bucket.Committed);
  }

  lemma RegionReplacedReservation(s: State, rid: RegionId, rr: RegionRecord, id: ReservationId)
    requires id in s.reservations && ReservationOk(s, id)
    requires Live(s.reservations[id]) ==> s.reservations[id].region != rid
    ensures ReservationOk(WithRegion(s, rid, rr), id)
  {
  }

  lemma RegionReplaced(s: State, d: RegionDescriptor, l: RegionLifecycle)
    requires Inv(s)
    requires forall id :: id in s.reservations && Live(s.reservations[id]) ==> s.reservations[id].region != d.id
    ensures Inv(s.(regions := s.regions[d.id := FreshRegion(d, l)]))
  {
    hide RegionOk, ReservationOk;
    var t := WithRegion(s, d.id, FreshRegion(d, l));
    forall rid | rid in t.regions ensures RegionOk(t, rid) {
      if rid == d.id { FreshRegionOk(s, d, l); } else { OtherRegion(s, t, rid); }
    }
    forall id | id in s.reservations ensures ReservationOk(t, id) {
      RegionReplacedReservation(s, d.id, FreshRegion(d, l), id);
    }
  }

  lemma OtherRegion(s: State, t: State, rid: RegionId)
    requires t == s.(regions := t.regions) && rid in s.regions && rid in t.regions
    requires RegionOk(s, rid) && t.regions[rid] == s.regions[rid]
    ensures RegionOk(t, rid)
  {
  }

  lemma PoolReplacedRegion(s: State, d: PoolDescriptor, rid: RegionId)
    requires rid in s.regions && RegionOk(s, rid)
    ensures RegionOk(s.(pools := s.pools[d.id := d]), rid)
  {
  }

  lemma PoolReplacedReservation(s: State, d: PoolDescriptor, id: ReservationId)
    requires id in s.reservations && ReservationOk(s, id)
    requires Live(s.reservations[id]) ==>
               || s.reservations[id].pool != d.id || (d.id in s.pools && s.pools[d.id].generation == d.generation)
    ensures ReservationOk(s.(pools := s.pools[d.id := d]), id)
  {
  }

  lemma PoolReplaced(s: State, d: PoolDescriptor)
    requires Inv(s)
    requires || (d.id in s.pools && s.pools[d.id].generation == d.generation)
             || (forall id :: id in s.reservations && Live(s.reservations[id]) ==> s.reservations[id].pool != d.id)
    ensures Inv(s.(pools := s.pools[d.id := d]))
  {
    hide RegionOk, ReservationOk;
    forall rid | rid in s.regions ensures RegionOk(s.(pools := s.pools[d.id := d]), rid) {
      PoolReplacedRegion(s, d, rid);
    }
    forall id | id in s.reservations ensures ReservationOk(s.(pools := s.pools[d.id := d]), id) {
      PoolReplacedReservation(s, d, id);
    }
  }

  lemma PolicyReplacedReservation(s: State, d: PolicyDescriptor, id: ReservationId)
    requires id in s.reservations && ReservationOk(s, id)
    requires Live(s.reservations[id]) ==> s.reservations[id].policy != d.id
    ensures ReservationOk(s.(policies := s.policies[d.id := d]), id)
  {
  }

  lemma PolicyReplacedRegion(s: State, d: PolicyDescriptor, rid: RegionId)
    requires rid in s.regions && RegionOk(s, rid)
    ensures RegionOk(s.(policies := s.policies[d.id := d]), rid)
  {
  }

  lemma PolicyReplaced(s: State, d: PolicyDescriptor)
    requires Inv(s)
    requires forall id :: id in s.reservations && Live(s.reservations[id]) ==> s.reservations[id].policy != d.id
    ensures Inv(s.(policies := s.policies[d.id := d]))
  {
    hide RegionOk, ReservationOk;
    forall rid | rid in s.regions ensures RegionOk(s.(policies := s.policies[d.id := d]), rid) {
      PolicyReplacedRegion(s, d, rid);
    }
    forall id | id in s.reservations ensures ReservationOk(s.(policies := s.policies[d.id := d]), id) {
      PolicyReplacedReservation(s, d, id);
    }
  }

  /** The components the invariant reads. */
  predicate SameCore(s: State, t: State) {
    && t.epoch == s.epoch && t.providers == s.providers && t.regions == s.regions && t.pools == s.pools
    && t.policies == s.policies && t.reservations == s.reservations && t.nextReservation == s.nextReservation
  }

  lemma IrrelevantRegion(s: State, t: State, rid: RegionId)
    requires SameCore(s, t) && rid in s.regions && RegionOk(s, rid)
    ensures RegionOk(t, rid)
  {
  }

  lemma IrrelevantReservation(s: State, t: State, id: ReservationId)
    requires SameCore(s, t) && id in s.reservations && ReservationOk(s, id)
    ensures ReservationOk(t, id)
  {
  }

  /** Nothing outside these components matters to the invariant. */
  lemma Irrelevant(s: State, t: State)
    requires Inv(s) && SameCore(s, t)
    requires forall d :: d in t.domains ==> t.domains[d].descriptor.id == d
    ensures Inv(t)
  {
    hide RegionOk, ReservationOk;
    forall rid | rid in t.regions ensures RegionOk(t, rid) { IrrelevantRegion(s, t, rid); }
    forall id | id in t.reservations ensures ReservationOk(t, id) { IrrelevantReservation(s, t, id); }
  }

  // ---- One reservation changes together with its region's ledger ----

  ghost predicate Exchanged(before: Ledger, after: Ledger, was: nat, now: nat, wasCommitted: nat, nowCommitted: nat) {
    && after.Closed() && after.total == before.total
    && after.reserved == before.reserved - was + now
    && after.committed == before.committed - wasCommitted + nowCommitted
  }

  lemma ExchangeLedger(rs: map<ReservationId, Reservation>, id: ReservationId, r: Reservation, rid: RegionId,
                       rr: RegionRecord, l: Ledger)
    requires LedgerFits(rs, rid, rr)
    requires Exchanged(rr.ledger, l,
                       if id in rs then Weight(rs[id], rid, Bucket.Reserved) else 0, Weight(r, rid, Bucket.Reserved),
                       if id in rs then Weight(rs[id], rid, Bucket.Committed) else 0, Weight(r, rid, Bucket.Committed))
    ensures LedgerFits(rs[id := r], rid, rr.(ledger := l))
  {
    HeldAfterPut(rs, id, r, rid, Bucket.Reserved);
    HeldAfterPut(rs, id, r, rid, Bucket.Committed);
  }

  /** A new or changed reservation, with the ledger move that goes with it. */
  ghost predicate Exchange(s: State, id: ReservationId, r: Reservation, l: Ledger, next: nat) {
    var rs := s.reservations;
    && r.region in s.regions && r.id == id && 0 < id < next && s.nextReservation <= next && 0 < r.bytes
    && (id in rs ==> rs[id].region == r.region)
    && (Live(r) ==> BoundToCurrent(s, r) && Hosted(s, r))
    && Exchanged(s.regions[r.region].ledger, l,
                 if id in rs then Weight(rs[id], r.region, Bucket.Reserved) else 0, Weight(r, r.region, Bucket.Reserved),
                 if id in rs then Weight(rs[id], r.region, Bucket.Committed) else 0, Weight(r, r.region, Bucket.Committed))
  }

  ghost function AfterExchange(s: State, id: ReservationId, r: Reservation, l: Ledger, next: nat): State
    requires r.region in s.regions
  {
    WithReservation(s, r, id, s.regions[r.region].(ledger := l)).(nextReservation := next)
  }

  lemma ExchangeRegion(s: State, id: ReservationId, r: Reservation, l: Ledger, next: nat, rid: RegionId)
    requires Exchange(s, id, r, l, next) && rid in s.regions && RegionOk(s, rid)
    ensures RegionOk(AfterExchange(s, id, r, l, next), rid)
  {
    var t := AfterExchange(s, id, r, l, next);
    ExchangeLedger(s.reservations, id, r, rid, s.regions[rid], t.regions[rid].ledger);
    assert t.regions[rid] == s.regions[rid].(ledger := t.regions[rid].ledger);
    RegionCarried(s, t, rid);
  }

  lemma ExchangeReservation(s: State, id: ReservationId, r: Reservation, l: Ledger, next: nat, x: ReservationId)
    requires Exchange(s, id, r, l, next)
    requires x != id ==> x in s.reservations && ReservationOk(s, x)
    ensures ReservationOk(AfterExchange(s, id, r, l, next), x)
  {
    var t := AfterExchange(s, id, r, l, next);
    var y := t.reservations[x];
    if Live(y) { SameHost(s, t, y); }
  }

  lemma ExchangeKeeps(s: State, id: ReservationId, r: Reservation, l: Ledger, next: nat)
    requires Inv(s) && Exchange(s, id, r, l, next)
    ensures Inv(AfterExchange(s, id, r, l, next))
  {
    hide RegionOk, ReservationOk;
    var t := AfterExchange(s, id, r, l, next);
    forall rid | rid in t.regions ensures RegionOk(t, rid) {
      ExchangeRegion(s, id, r, l, next, rid);
    }
    forall x | x in t.reservations ensures ReservationOk(t, x) {
      ExchangeReservation(s, id, r, l, next, x);
    }
  }
}
