/**
 One reservation at a time: the loops that fence, lapse or cancel many reservations while moving the
 same ledgers end, in any order, in the closed form `Withdraw`.
 */
module Withdrawals {
  import opened Words
  import opened Types
  import opened Ledgers
  import opened Records
  import opened Operations
  import opened Invariants
  import Fencing

  /** All the loops need: ledgers agree with the table, and whatever holds capacity holds it somewhere. */
  ghost predicate Accounted(s: State) {
    && (forall rid :: rid in s.regions ==> LedgerFits(s.reservations, rid, s.regions[rid]))
    && (forall id :: id in s.reservations && Live(s.reservations[id]) ==> s.reservations[id].region in s.regions)
  }

  lemma InvAccounted(s: State)
    requires Inv(s)
    ensures Accounted(s)
  {
    forall rid | rid in s.regions ensures LedgerFits(s.reservations, rid, s.regions[rid]) { assert RegionOk(s, rid); }
    forall id | id in s.reservations && Live(s.reservations[id]) ensures s.reservations[id].region in s.regions {
      assert ReservationOk(s, id);
    }
  }

  /** Which bucket a reservation's bytes leave when it is withdrawn for a cause, if any. */
  function Leaves(r: Reservation, cause: Cause): Option<Bucket> {
    if r.state.Reserved? then Some(Bucket.Reserved)
    else if (r.state.Committed? || r.state.Active?) && !cause.DrainStart? then Some(Bucket.Committed)
    else None
  }

  function Destination(cause: Cause): Bucket { if cause.DrainStart? then Free else Bucket.Unavailable }

  /** The ledger after one reservation is withdrawn, by the guarded move the program makes. */
  function Drawn(l: Ledger, r: Reservation, cause: Cause): Move {
    if Leaves(r, cause).None? then Move(l, true) else Transfer(l, Leaves(r, cause).value, Destination(cause), r.bytes)
  }

  /** The state after one reservation is withdrawn. */
  function DrawOne(s: State, id: ReservationId, cause: Cause): State
    requires id in s.reservations
  {
    var r := s.reservations[id];
    var rs := s.reservations[id := WithdrawOne(r, cause)];
    if Leaves(r, cause).None? || r.region !in s.regions then s.(reservations := rs)
    else
      var rr := s.regions[r.region];
      s.(reservations := rs, regions := s.regions[r.region := rr.(ledger := Drawn(rr.ledger, r, cause).ledger)])
  }

  lemma WithdrawAllStep(rs: map<ReservationId, Reservation>, done: set<ReservationId>, cause: Cause, id: ReservationId)
    requires id in rs && id !in done
    ensures id in WithdrawAll(rs, done, cause) && WithdrawAll(rs, done, cause)[id] == rs[id]
    ensures WithdrawAll(rs, done + {id}, cause) == WithdrawAll(rs, done, cause)[id := WithdrawOne(rs[id], cause)]
  {
  }

  /** What a region's bucket loses when a reservation is withdrawn. */
  function Loss(r: Reservation, cause: Cause, rid: RegionId, bucket: Bucket): nat {
    if r.region == rid && Leaves(r, cause) == Some(bucket) then r.bytes else 0
  }

  lemma WeightDrops(r: Reservation, cause: Cause, rid: RegionId, bucket: Bucket)
    requires bucket.Reserved? || bucket.Committed?
    ensures Weight(WithdrawOne(r, cause), rid, bucket) == Weight(r, rid, bucket) - Loss(r, cause, rid, bucket)
  {
  }

  /** What one withdrawal does to the sums of one region. */
  lemma HeldStep(rs: map<ReservationId, Reservation>, done: set<ReservationId>, cause: Cause, id: ReservationId,
                 rid: RegionId, bucket: Bucket)
    requires id in rs && id !in done && (bucket.Reserved? || bucket.Committed?)
    ensures Held(WithdrawAll(rs, done + {id}, cause), rid, bucket)
         == Held(WithdrawAll(rs, done, cause), rid, bucket) - Loss(rs[id], cause, rid, bucket)
  {
    hide WithdrawAll, Held, Weight, Loss, WithdrawOne;
    WithdrawAllStep(rs, done, cause, id);
    WeightDrops(rs[id], cause, rid, bucket);
    var now := WithdrawAll(rs, done, cause);
    HeldAfterPut(now, id, WithdrawOne(rs[id], cause), rid, bucket);
  }

  /** The guarded move succeeds and keeps the ledger the one the table demands. */
  lemma DrawnRebalances(l: Ledger, reserved: nat, committed: nat, r: Reservation, cause: Cause)
    requires Rebalance(l, reserved, committed, cause).Closed() && Leaves(r, cause).Some?
    requires r.bytes <= if Leaves(r, cause).value.Reserved? then reserved else committed
    ensures Drawn(Rebalance(l, reserved, committed, cause), r, cause)
         == Move(Rebalance(l, reserved - Loss(r, cause, r.region, Bucket.Reserved),
                              committed - Loss(r, cause, r.region, Bucket.Committed), cause), true)
  {
    var m := Rebalance(l, reserved, committed, cause);
    TransferFromClosed(m, Leaves(r, cause).value, Destination(cause), r.bytes);
    hide Transfer;
  }

  lemma RebalancedClosed(s: State, done: set<ReservationId>, cause: Cause, rid: RegionId)
    requires Accounted(s) && rid in s.regions
    ensures var now := WithdrawAll(s.reservations, done, cause);
            Rebalance(s.regions[rid].ledger, Held(now, rid, Bucket.Reserved), Held(now, rid, Bucket.Committed), cause).Closed()
  {
    RebalanceFits(s.reservations, done, cause, rid, s.regions[rid]);
    hide WithdrawAll, Held, Rebalance;
  }

  lemma HolderRegion(s: State, id: ReservationId, cause: Cause)
    requires Accounted(s) && id in s.reservations && Leaves(s.reservations[id], cause).Some?
    ensures s.reservations[id].region in s.regions
  {
  }

  lemma StillHeld(rs: map<ReservationId, Reservation>, done: set<ReservationId>, cause: Cause, id: ReservationId)
    requires id in rs && id !in done && Leaves(rs[id], cause).Some?
    ensures rs[id].bytes <= Held(WithdrawAll(rs, done, cause), rs[id].region, Leaves(rs[id], cause).value)
  {
    WithdrawAllStep(rs, done, cause, id);
    hide WithdrawAll, Held;
    HeldAtLeast(WithdrawAll(rs, done, cause), id, Leaves(rs[id], cause).value);
  }

  lemma HolderStep(s: State, done: set<ReservationId>, cause: Cause, id: ReservationId)
    requires Accounted(s) && id in s.reservations && id !in done && Leaves(s.reservations[id], cause).Some?
    ensures s.reservations[id].region in s.regions
    ensures var rid := s.reservations[id].region;
            var now, next := WithdrawAll(s.reservations, done, cause), WithdrawAll(s.reservations, done + {id}, cause);
            var l := s.regions[rid].ledger;
            Drawn(Rebalance(l, Held(now, rid, Bucket.Reserved), Held(now, rid, Bucket.Committed), cause), s.reservations[id], cause)
            == Move(Rebalance(l, Held(next, rid, Bucket.Reserved), Held(next, rid, Bucket.Committed), cause), true)
  {
    hide Accounted, WithdrawAll, Held, Rebalance, Drawn, Loss;
    HolderRegion(s, id, cause);
    var r := s.reservations[id];
    var now := WithdrawAll(s.reservations, done, cause);
    HeldStep(s.reservations, done, cause, id, r.region, Bucket.Reserved);
    HeldStep(s.reservations, done, cause, id, r.region, Bucket.Committed);
    RebalancedClosed(s, done, cause, r.region);
    StillHeld(s.reservations, done, cause, id);
    DrawnRebalances(s.regions[r.region].ledger, Held(now, r.region, Bucket.Reserved), Held(now, r.region, Bucket.Committed), r, cause);
  }

  lemma SettledElsewhere(s: State, done: set<ReservationId>, cause: Cause, id: ReservationId, rid: RegionId)
    requires id in s.reservations && id !in done && rid in s.regions
    requires s.reservations[id].region != rid || Leaves(s.reservations[id], cause).None?
    ensures rid in Withdraw(s, done, cause).regions && rid in Withdraw(s, done + {id}, cause).regions
    ensures Withdraw(s, done + {id}, cause).regions[rid] == Withdraw(s, done, cause).regions[rid]
  {
    hide Withdraw, WithdrawAll, Held, Rebalance;
    HeldStep(s.reservations, done, cause, id, rid, Bucket.Reserved);
    HeldStep(s.reservations, done, cause, id, rid, Bucket.Committed);
    Fencing.WithdrawnRegion(s, done, cause, rid);
    Fencing.WithdrawnRegion(s, done + {id}, cause, rid);
  }

  lemma SettledHere(s: State, done: set<ReservationId>, cause: Cause, id: ReservationId)
    requires Accounted(s) && id in s.reservations && id !in done && Leaves(s.reservations[id], cause).Some?
    ensures var r := s.reservations[id];
            && r.region in s.regions
            && var rr := Withdraw(s, done, cause).regions[r.region];
               && Drawn(rr.ledger, r, cause).ok
               && Withdraw(s, done + {id}, cause).regions[r.region] == rr.(ledger := Drawn(rr.ledger, r, cause).ledger)
  {
    HolderStep(s, done, cause, id);
    hide WithdrawAll, Held, Rebalance, Drawn, Accounted;
  }

  lemma WithdrawTables(s: State, ids: set<ReservationId>, cause: Cause)
    ensures var t := Withdraw(s, ids, cause);
            && t.reservations == WithdrawAll(s.reservations, ids, cause)
            && t.reservations.Keys == s.reservations.Keys && t.regions.Keys == s.regions.Keys
            && t == s.(reservations := t.reservations, regions := t.regions)
  {
    hide Held, Rebalance;
  }

  lemma RegionsStep(s: State, done: set<ReservationId>, cause: Cause, id: ReservationId)
    requires Accounted(s) && id in s.reservations && id !in done
    ensures var r := s.reservations[id];
            var t, u := Withdraw(s, done, cause), Withdraw(s, done + {id}, cause);
            && (Leaves(r, cause).None? ==> u.regions == t.regions)
            && (Leaves(r, cause).Some? ==>
                  && r.region in t.regions && Drawn(t.regions[r.region].ledger, r, cause).ok
                  && u.regions == t.regions[r.region := t.regions[r.region].(ledger := Drawn(t.regions[r.region].ledger, r, cause).ledger)])
  {
    hide Withdraw, WithdrawAll, Drawn, Accounted;
    var r := s.reservations[id];
    var t, u := Withdraw(s, done, cause), Withdraw(s, done + {id}, cause);
    WithdrawTables(s, done, cause);
    WithdrawTables(s, done + {id}, cause);
    forall rid | rid in s.regions && (rid != r.region || Leaves(r, cause).None?) ensures u.regions[rid] == t.regions[rid] {
      SettledElsewhere(s, done, cause, id, rid);
    }
    if Leaves(r, cause).Some? {
      SettledHere(s, done, cause, id);
      assert u.regions == t.regions[r.region := t.regions[r.region].(ledger := Drawn(t.regions[r.region].ledger, r, cause).ledger)];
    } else {
      assert u.regions == t.regions;
    }
  }

  /** Withdrawing one more reservation, by the program's own move, extends the closed form by that reservation. */
  lemma WithdrawStep(s: State, done: set<ReservationId>, cause: Cause, id: ReservationId)
    requires Accounted(s) && id in s.reservations && id !in done
    ensures var t := Withdraw(s, done, cause);
            && id in t.reservations && t.reservations[id] == s.reservations[id]
            && (Leaves(s.reservations[id], cause).Some? ==>
                  && s.reservations[id].region in t.regions
                  && Drawn(t.regions[s.reservations[id].region].ledger, s.reservations[id], cause).ok)
            && DrawOne(t, id, cause) == Withdraw(s, done + {id}, cause)
  {
    hide Withdraw, WithdrawAll, Drawn, Accounted, WithdrawOne;
    WithdrawTables(s, done, cause);
    WithdrawTables(s, done + {id}, cause);
    WithdrawAllStep(s.reservations, done, cause, id);
    RegionsStep(s, done, cause, id);
  }

  lemma RebalanceSame(rr: RegionRecord, cause: Cause)
    ensures rr.(ledger := Rebalance(rr.ledger, rr.ledger.reserved, rr.ledger.committed, cause)) == rr
  {
  }

  lemma SettleSame(s: State, cause: Cause)
    requires Accounted(s)
    ensures Settle(s.regions, s.reservations, cause) == s.regions
  {
    var after := Settle(s.regions, s.reservations, cause);
    forall rid | rid in s.regions ensures after[rid] == s.regions[rid] {
      assert LedgerFits(s.reservations, rid, s.regions[rid]);
      RebalanceSame(s.regions[rid], cause);
    }
  }

  /** Withdrawing nothing changes nothing. */
  lemma WithdrawNone(s: State, cause: Cause)
    requires Accounted(s)
    ensures Withdraw(s, {}, cause) == s
  {
    assert WithdrawAll(s.reservations, {}, cause) == s.reservations;
    hide Settle, WithdrawAll, Accounted;
    SettleSame(s, cause);
  }

  /** Only reservations in the table matter. */
  lemma WithdrawSame(s: State, ids: set<ReservationId>, ids': set<ReservationId>, cause: Cause)
    requires forall id :: id in s.reservations ==> (id in ids <==> id in ids')
    ensures Withdraw(s, ids, cause) == Withdraw(s, ids', cause)
  {
    assert WithdrawAll(s.reservations, ids, cause) == WithdrawAll(s.reservations, ids', cause);
  }

  // ---- Withdrawals commute with suspensions ----

  lemma SuspendThenSettleOne(regions: map<RegionId, RegionRecord>, ids: set<RegionId>, rs: map<ReservationId, Reservation>,
                             cause: Cause, rid: RegionId)
    requires rid in regions
    ensures rid in Settle(SuspendAll(regions, ids), rs, cause) && rid in SuspendAll(Settle(regions, rs, cause), ids)
    ensures Settle(SuspendAll(regions, ids), rs, cause)[rid] == SuspendAll(Settle(regions, rs, cause), ids)[rid]
  {
    hide Held, Rebalance;
  }

  /** Ledgers and lifecycles are settled independently, so the order of the two walks does not matter. */
  lemma SuspendThenSettle(regions: map<RegionId, RegionRecord>, ids: set<RegionId>, rs: map<ReservationId, Reservation>, cause: Cause)
    ensures Settle(SuspendAll(regions, ids), rs, cause) == SuspendAll(Settle(regions, rs, cause), ids)
  {
    hide Suspend, Held, Rebalance;
    var x, y := Settle(SuspendAll(regions, ids), rs, cause), SuspendAll(Settle(regions, rs, cause), ids);
    assert x.Keys == regions.Keys && y.Keys == regions.Keys;
    hide Settle, SuspendAll;
    forall rid | rid in regions ensures x[rid] == y[rid] { SuspendThenSettleOne(regions, ids, rs, cause, rid); }
  }

  lemma SuspendAccounted(s: State, t: State, ids: set<RegionId>)
    requires Accounted(s) && t.reservations == s.reservations && t.regions == SuspendAll(s.regions, ids)
    ensures Accounted(t)
  {
    forall rid | rid in t.regions ensures LedgerFits(t.reservations, rid, t.regions[rid]) {
      assert LedgerFits(s.reservations, rid, s.regions[rid]);
    }
  }
}
