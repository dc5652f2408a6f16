/** What the bulk withdrawals guarantee: epoch advance, worker death, drain, and where the bytes go. */
module Fencing {
  import opened Types
  import opened Ledgers
  import opened Records
  import opened Operations
  import opened Invariants
  import opened Preservation

  // ---- Where withdrawn bytes go ----

  /** What the invariant says of one region. */
  lemma RegionFacts(s: State, rid: RegionId)
    requires Inv(s) && rid in s.regions
    ensures LedgerFits(s.reservations, rid, s.regions[rid]) && EvidenceFits(s.epoch, s.providers, rid, s.regions[rid])
  {
    assert RegionOk(s, rid);
  }

  lemma WithdrawnRegion(s: State, ids: set<ReservationId>, cause: Cause, rid: RegionId)
    requires rid in s.regions
    ensures var t := Withdraw(s, ids, cause);
            var rs := WithdrawAll(s.reservations, ids, cause);
            && t.reservations == rs && t.regions.Keys == s.regions.Keys
            && t.regions[rid] == s.regions[rid].(
                 ledger := Rebalance(s.regions[rid].ledger, Held(rs, rid, Bucket.Reserved), Held(rs, rid, Bucket.Committed), cause))
  {
  }

  lemma HeldAfterFence(rs: map<ReservationId, Reservation>, id: ReservationId)
    requires id in rs && Live(rs[id])
    ensures var r := rs[id];
            var rs' := WithdrawAll(rs, {id}, Fencing);
            && id in rs' && rs'[id] == r.(state := if r.state.Reserved? then Fenced else ReservationState.RevalidationRequired)
            && Held(rs', r.region, Bucket.Reserved) == Held(rs, r.region, Bucket.Reserved) - (if r.state.Reserved? then r.bytes else 0)
            && Held(rs', r.region, Bucket.Committed) == Held(rs, r.region, Bucket.Committed) - (if r.state.Reserved? then 0 else r.bytes)
  {
    var r := rs[id];
    assert WithdrawAll(rs, {id}, Fencing) == rs[id := WithdrawOne(r, Fencing)];
    hide Held;
    HeldAfterPut(rs, id, WithdrawOne(r, Fencing), r.region, Bucket.Reserved);
    HeldAfterPut(rs, id, WithdrawOne(r, Fencing), r.region, Bucket.Committed);
  }

  /** The ledger once a reservation's bytes have been fenced off. */
  function FencedOff(l: Ledger, r: Reservation): Ledger {
    if r.state.Reserved? then l.(reserved := l.reserved - r.bytes, unavailable := l.unavailable + r.bytes)
    else l.(committed := l.committed - r.bytes, unavailable := l.unavailable + r.bytes)
  }

  lemma FenceRebalances(l: Ledger, r: Reservation)
    requires Live(r)
    ensures Rebalance(l, l.reserved - (if r.state.Reserved? then r.bytes else 0),
                         l.committed - (if r.state.Reserved? then 0 else r.bytes), Fencing) == FencedOff(l, r)
  {
  }

  /**
   Fencing one live reservation leaves it FENCED if it was merely reserved and for revalidation if it was committed,
   and takes exactly its bytes, out of the bucket it held them in.
   */
  lemma FenceOneReservation(s: State, id: ReservationId)
    requires Inv(s) && id in s.reservations && Live(s.reservations[id])
    ensures var r := s.reservations[id];
            var t := Withdraw(s, {id}, Fencing);
            && r.region in s.regions && id in t.reservations && r.region in t.regions
            && t.reservations[id] == r.(state := if r.state.Reserved? then Fenced else ReservationState.RevalidationRequired)
            && t.regions[r.region].ledger == FencedOff(s.regions[r.region].ledger, r)
  {
    hide Inv, EvidenceFits, Withdraw, WithdrawAll, Held, Rebalance, FencedOff;
    var r := s.reservations[id];
    HeldByLedger(s, id);
    RegionFacts(s, r.region);
    WithdrawnRegion(s, {id}, Fencing, r.region);
    HeldAfterFence(s.reservations, id);
    FenceRebalances(s.regions[r.region].ledger, r);
  }

  // ---- Epoch advance ----

  lemma EpochRegion(s: State, e: Epoch, rid: RegionId)
    requires s.epoch < e && rid in s.regions
    ensures SetEpoch(s, e).regions.Keys == s.regions.Keys
    ensures SetEpoch(s, e).regions[rid] == Suspend(Withdraw(s, s.reservations.Keys, EpochAdvance).regions[rid])
  {
    hide Settle, WithdrawAll;
    assert rid in Settle(s.regions, WithdrawAll(s.reservations, s.reservations.Keys, EpochAdvance), EpochAdvance).Keys by {
      SettleKeys(s.regions, WithdrawAll(s.reservations, s.reservations.Keys, EpochAdvance), EpochAdvance);
    }
    SettleKeys(s.regions, WithdrawAll(s.reservations, s.reservations.Keys, EpochAdvance), EpochAdvance);
  }

  lemma SettleKeys(regions: map<RegionId, RegionRecord>, rs: map<ReservationId, Reservation>, cause: Cause)
    ensures Settle(regions, rs, cause).Keys == regions.Keys
  {
  }

  lemma NothingHeldWhenAllWithdrawn(rs: map<ReservationId, Reservation>, rid: RegionId)
    ensures var rs' := WithdrawAll(rs, rs.Keys, EpochAdvance);
            Held(rs', rid, Bucket.Reserved) == 0 && Held(rs', rid, Bucket.Committed) == 0
  {
    var rs' := WithdrawAll(rs, rs.Keys, EpochAdvance);
    HeldVanishes(rs', rid, Bucket.Reserved);
    HeldVanishes(rs', rid, Bucket.Committed);
  }

  lemma NothingHeldAfterEpoch(s: State, e: Epoch, rid: RegionId)
    requires Inv(s) && s.epoch < e && rid in s.regions
    ensures var t := SetEpoch(s, e);
            && rid in t.regions && t.regions[rid].ledger.reserved == 0 && t.regions[rid].ledger.committed == 0
            && !t.regions[rid].evidenceStatus.Current?
            && !t.regions[rid].lifecycle.Online? && !t.regions[rid].lifecycle.Degraded?
  {
    hide Inv, SetEpoch, Withdraw, WithdrawAll, Held;
    RegionFacts(s, rid);
    EpochRegion(s, e, rid);
    WithdrawnRegion(s, s.reservations.Keys, EpochAdvance, rid);
    NothingHeldWhenAllWithdrawn(s.reservations, rid);
  }

  lemma NothingLiveAfterEpoch(s: State, e: Epoch)
    requires s.epoch < e
    ensures forall id :: id in SetEpoch(s, e).reservations ==> !Live(SetEpoch(s, e).reservations[id])
    ensures SetEpoch(s, e).reservations.Keys == s.reservations.Keys
  {
    hide Settle, SuspendAll, Dismiss;
    assert SetEpoch(s, e).reservations == WithdrawAll(s.reservations, s.reservations.Keys, EpochAdvance);
  }

  lemma NobodyActsAfterEpoch(s: State, e: Epoch, a: Authority)
    requires s.epoch < e && a.worker != NULL
    ensures !Acceptable(SetEpoch(s, e), a)
  {
    hide Settle, SuspendAll, WithdrawAll;
    assert SetEpoch(s, e).workers == Dismiss(s.workers);
  }

  /**
   A real epoch advance ends all dynamic authority: nothing is live, nothing is reserved or committed,
   no evidence is current, and no worker may act.
   */
  lemma EpochAdvanceFences(s: State, e: Epoch)
    requires Inv(s) && s.epoch < e
    ensures var t := SetEpoch(s, e);
            && t.epoch == e
            && (forall id :: id in t.reservations ==> !Live(t.reservations[id]))
            && (forall rid :: rid in t.regions ==>
                  && t.regions[rid].ledger.reserved == 0 && t.regions[rid].ledger.committed == 0
                  && !t.regions[rid].evidenceStatus.Current?)
            && (forall a: Authority :: a.worker != NULL ==> !Acceptable(t, a))
  {
    EpochNeverRewinds(s, e);
    hide Inv, SetEpoch, Acceptable;
    var t := SetEpoch(s, e);
    NothingLiveAfterEpoch(s, e);
    forall a: Authority | a.worker != NULL ensures !Acceptable(t, a) { NobodyActsAfterEpoch(s, e, a); }
    forall rid | rid in t.regions
      ensures t.regions[rid].ledger.reserved == 0 && t.regions[rid].ledger.committed == 0
              && !t.regions[rid].evidenceStatus.Current?
    {
      EpochKeepsRegions(s, e);
      NothingHeldAfterEpoch(s, e, rid);
    }
  }

  lemma EpochKeepsRegions(s: State, e: Epoch)
    ensures SetEpoch(s, e).regions.Keys == s.regions.Keys
  {
    hide Settle, WithdrawAll;
    SettleKeys(s.regions, WithdrawAll(s.reservations, s.reservations.Keys, EpochAdvance), EpochAdvance);
  }

  /** An epoch that is not newer changes nothing at all. */
  lemma EpochNeverRewinds(s: State, e: Epoch)
    ensures SetEpoch(s, e).epoch == if e > s.epoch then e else s.epoch
    ensures e <= s.epoch ==> SetEpoch(s, e) == s
  {
  }

  // ---- Worker death ----

  /** Regions the dead incarnation vouched for are no longer current, and nothing live rests on them or on the worker. */
  lemma WorkerDeathFences(s: State, w: WorkerId, a: Authority)
    requires MarkWorkerDead(s, w, a).error == NoError
    ensures var t := MarkWorkerDead(s, w, a).state;
            && w in s.workers && w in t.workers && !t.workers[w].alive && t.workers[w].boot == s.workers[w].boot
            && t.regions.Keys == s.regions.Keys && t.reservations.Keys == s.reservations.Keys
            && (forall rid :: rid in Vouched(s, w, s.workers[w].boot) ==> !t.regions[rid].evidenceStatus.Current?)
            && (forall id :: id in t.reservations && Live(t.reservations[id]) ==>
                  t.reservations[id].worker != w && t.reservations[id].region !in Vouched(s, w, s.workers[w].boot))
            && Vouched(t, w, s.workers[w].boot) == Vouched(s, w, s.workers[w].boot)
            && (forall x: Authority :: x.worker == w && w != NULL ==> !Acceptable(t, x))
  {
    var vouched := Vouched(s, w, s.workers[w].boot);
    var ids := OfWorker(s, w, vouched);
    var t := MarkWorkerDead(s, w, a).state;
    forall id | id in t.reservations && Live(t.reservations[id])
      ensures t.reservations[id].worker != w && t.reservations[id].region !in vouched
    {
      AfterWithdraw(s, ids, Fencing, id);
    }
  }

  // ---- Drain ----

  lemma DrainKeepsCommitted(rs: map<ReservationId, Reservation>, ids: set<ReservationId>, rid: RegionId)
    ensures Held(WithdrawAll(rs, ids, DrainStart), rid, Bucket.Committed) == Held(rs, rid, Bucket.Committed)
  {
    assert Weights(WithdrawAll(rs, ids, DrainStart), rid, Bucket.Committed) == Weights(rs, rid, Bucket.Committed);
  }

  predicate CommittedUntouched(s: State, t: State) {
    && t.regions.Keys == s.regions.Keys
    && (forall rid :: rid in s.regions ==> t.regions[rid].ledger.committed == s.regions[rid].ledger.committed)
    && (forall id :: id in s.reservations && (s.reservations[id].state.Committed? || s.reservations[id].state.Active?) ==>
          id in t.reservations && t.reservations[id] == s.reservations[id])
  }

  lemma CommittedLeftAlone(s: State, ids: set<ReservationId>, id: ReservationId)
    requires id in s.reservations && (s.reservations[id].state.Committed? || s.reservations[id].state.Active?)
    ensures id in WithdrawAll(s.reservations, ids, DrainStart)
    ensures WithdrawAll(s.reservations, ids, DrainStart)[id] == s.reservations[id]
  {
  }

  lemma WithdrawForDrain(s: State, ids: set<ReservationId>)
    requires Inv(s)
    ensures CommittedUntouched(s, Withdraw(s, ids, DrainStart))
  {
    hide Inv, Held, WithdrawAll, Settle;
    var t := Withdraw(s, ids, DrainStart);
    SettleKeys(s.regions, t.reservations, DrainStart);
    forall rid | rid in s.regions ensures t.regions[rid].ledger.committed == s.regions[rid].ledger.committed {
      RegionFacts(s, rid);
      WithdrawnRegion(s, ids, DrainStart, rid);
      DrainKeepsCommitted(s.reservations, ids, rid);
    }
    forall id | id in s.reservations && (s.reservations[id].state.Committed? || s.reservations[id].state.Active?)
      ensures id in t.reservations && t.reservations[id] == s.reservations[id]
    {
      CommittedLeftAlone(s, ids, id);
    }
  }

  /** Rewriting one region's record without touching its committed bucket, and any provider. */
  lemma RegionSparesCommitted(s: State, t: State, rid: RegionId, rr: RegionRecord, ps: map<ProviderId, ProviderRecord>)
    requires CommittedUntouched(s, t) && rid in t.regions && rr.ledger.committed == t.regions[rid].ledger.committed
    ensures CommittedUntouched(s, WithRegion(t, rid, rr))
    ensures CommittedUntouched(s, WithRegion(t, rid, rr).(providers := ps))
  {
  }

  lemma FollowShape(s: State, p: ProviderId, from: Lifecycle, to: Lifecycle)
    ensures Follow(s, p, from, to) == s.(providers := Follow(s, p, from, to).providers)
  {
  }

  lemma TransferSparesCommitted(l: Ledger, from: Bucket, to: Bucket, n: int)
    requires !from.Committed? && !to.Committed?
    ensures Transfer(l, from, to, n).ledger.committed == l.committed
  {
  }

  /** Beginning, completing or cancelling a drain never changes committed capacity or a committed reservation. */
  lemma BeginDrainSparesCommitted(s: State, region: RegionId, a: Authority)
    requires Inv(s)
    ensures CommittedUntouched(s, BeginDrain(s, region, a).state)
  {
    hide Inv, Withdraw, Transfer, Acceptable, RegionAllowed, WithRegion, Follow;
    if RegionGuard(s, region, a) == NoError && RegionAllowed(s.regions[region].lifecycle, RegionLifecycle.Draining) {
      WithdrawForDrain(s, OfRegion(s, region));
      var t := Withdraw(s, OfRegion(s, region), DrainStart);
      var rr := t.regions[region];
      hide CommittedUntouched;
      var m := Transfer(rr.ledger, Free, Bucket.Draining, rr.ledger.free);
      TransferSparesCommitted(rr.ledger, Free, Bucket.Draining, rr.ledger.free);
      var rr' := rr.(ledger := m.ledger, lifecycle := RegionLifecycle.Draining);
      var u := Follow(WithRegion(t, region, rr'), rr.descriptor.provider, Lifecycle.Online, Lifecycle.Draining);
      FollowShape(WithRegion(t, region, rr'), rr.descriptor.provider, Lifecycle.Online, Lifecycle.Draining);
      RegionSparesCommitted(s, t, region, rr.(ledger := m.ledger), t.providers);
      RegionSparesCommitted(s, t, region, rr', u.providers);
    }
  }

  lemma CompleteDrainSparesCommitted(s: State, region: RegionId, a: Authority)
    ensures CommittedUntouched(s, CompleteDrain(s, region, a).state)
  {
    assert CommittedUntouched(s, s);
    hide Transfer, Acceptable, WithRegion, Follow, CommittedUntouched;
    if RegionGuard(s, region, a) == NoError {
      var rr := s.regions[region];
      var m := Transfer(rr.ledger, Bucket.Draining, Bucket.Unavailable, rr.ledger.draining);
      TransferSparesCommitted(rr.ledger, Bucket.Draining, Bucket.Unavailable, rr.ledger.draining);
      var rr' := rr.(ledger := m.ledger, lifecycle := RegionLifecycle.Unavailable);
      var u := Follow(WithRegion(s, region, rr'), rr.descriptor.provider, Lifecycle.Draining, Lifecycle.Offline);
      FollowShape(WithRegion(s, region, rr'), rr.descriptor.provider, Lifecycle.Draining, Lifecycle.Offline);
      RegionSparesCommitted(s, s, region, rr.(ledger := m.ledger), s.providers);
      RegionSparesCommitted(s, s, region, rr', u.providers);
    }
  }

  lemma CancelDrainSparesCommitted(s: State, region: RegionId, a: Authority)
    ensures CommittedUntouched(s, CancelDrain(s, region, a).state)
  {
    assert CommittedUntouched(s, s);
    hide Transfer, Acceptable, WithRegion, CommittedUntouched;
    if RegionGuard(s, region, a) == NoError {
      var rr := s.regions[region];
      var m := Transfer(rr.ledger, Bucket.Draining, Free, rr.ledger.draining);
      TransferSparesCommitted(rr.ledger, Bucket.Draining, Free, rr.ledger.draining);
      RegionSparesCommitted(s, s, region, rr.(ledger := m.ledger), s.providers);
      RegionSparesCommitted(s, s, region, rr.(ledger := m.ledger, lifecycle := RegionLifecycle.Online), s.providers);
    }
  }

  lemma DrainLedger(l: Ledger)
    requires l.Closed()
    ensures Transfer(l, Free, Bucket.Draining, l.free) == Move(l.(free := 0, draining := l.draining + l.free), true)
  {
  }

  /** In a reachable state a permitted drain always goes through and leaves nothing free and nothing reserved. */
  lemma BeginDrainSucceeds(s: State, region: RegionId, a: Authority)
    requires Inv(s) && RegionGuard(s, region, a) == NoError
    requires RegionAllowed(s.regions[region].lifecycle, RegionLifecycle.Draining)
    ensures var step := BeginDrain(s, region, a);
            && step.error == NoError && region in step.state.regions
            && step.state.regions[region].lifecycle.Draining?
            && step.state.regions[region].ledger.free == 0 && step.state.regions[region].ledger.reserved == 0
  {
    var t := Withdraw(s, OfRegion(s, region), DrainStart);
    assert !s.regions[region].lifecycle.Retired?;
    hide Inv, Withdraw, Acceptable, RegionAllowed, Transfer;
    DrainedRegion(s, region);
    ClosedLedger(t, region);
    NothingReservedLeft(s, region);
    DrainLedger(t.regions[region].ledger);
  }

  lemma NothingReservedLeft(s: State, region: RegionId)
    requires region in s.regions
    ensures Withdraw(s, OfRegion(s, region), DrainStart).regions[region].ledger.reserved == 0
  {
    HeldVanishes(WithdrawAll(s.reservations, OfRegion(s, region), DrainStart), region, Bucket.Reserved);
  }
}
