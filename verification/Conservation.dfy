/**
 Where the bytes of a reservation go when it ends. Table and ledgers are compared across each step
 and each run: what a reservation held leaves the promised buckets exactly once.
 */
module Conservation {
  import opened Words
  import opened Types
  import opened Ledgers
  import opened Sums
  import opened Records
  import opened Operations
  import opened Invariants
  import opened Preservation
  import opened Effects
  import Progress
  import Fencing
  import Refusals
  import Selection

  type Table = map<ReservationId, Reservation>

  // ---- Sums over the table ----

  lemma {:induction false} SumAdds(w: map<U64, nat>, x: map<U64, nat>, y: map<U64, nat>)
    requires x.Keys == w.Keys && y.Keys == w.Keys && forall k :: k in w ==> y[k] == w[k] + x[k]
    ensures Sum(y) == Sum(w) + Sum(x)
    decreases |w|
  {
    if w == map[] {
      assert x == map[] && y == map[];
    } else {
      var k :| k in w;
      SumPick(w, k);
      SumPick(x, k);
      SumPick(y, k);
      SumAdds(w - {k}, x - {k}, y - {k});
    }
  }

  /** Keys of weight zero add nothing. */
  lemma {:induction false} SumPad(w: map<U64, nat>, x: map<U64, nat>)
    requires w.Keys <= x.Keys && forall k :: k in x ==> x[k] == if k in w then w[k] else 0
    ensures Sum(x) == Sum(w)
    decreases |x|
  {
    if x == map[] {
      assert w == map[];
    } else {
      var k :| k in x;
      SumPick(x, k);
      if k in w {
        SumPick(w, k);
        SumPad(w - {k}, x - {k});
      } else {
        SumPad(w, x - {k});
      }
    }
  }

  /** Bytes held on the region, by any live state. */
  function Holding(r: Reservation, rid: RegionId): nat { if r.region == rid && Live(r) then r.bytes else 0 }

  ghost function Holdings(rs: Table, rid: RegionId): map<ReservationId, nat> { map id | id in rs :: Holding(rs[id], rid) }

  /** All bytes promised on a region: the sum over its live reservations. */
  ghost function Promised(rs: Table, rid: RegionId): nat { Sum(Holdings(rs, rid)) }

  predicate LiveIn(rs: Table, id: ReservationId) { id in rs && Live(rs[id]) }

  /** What each reservation of the first table held if it is not live in the second. */
  ghost function Parted(rs: Table, rs': Table, rid: RegionId): map<ReservationId, nat> {
    map id | id in rs :: if LiveIn(rs', id) then 0 else Holding(rs[id], rid)
  }

  /** The bytes of the region's reservations that are live in one table and not in the next. */
  ghost function Ended(rs: Table, rs': Table, rid: RegionId): nat { Sum(Parted(rs, rs', rid)) }

  /** The bytes of the region's reservations that are live in the next table and were not in the first. */
  ghost function Started(rs: Table, rs': Table, rid: RegionId): nat { Ended(rs', rs, rid) }

  /** What is promised is what the two buckets of the ledger count. */
  lemma PromisedIsHeld(rs: Table, rid: RegionId)
    ensures Promised(rs, rid) == Held(rs, rid, Bucket.Reserved) + Held(rs, rid, Bucket.Committed)
  {
    SumAdds(Weights(rs, rid, Bucket.Reserved), Weights(rs, rid, Bucket.Committed), Holdings(rs, rid));
  }

  lemma PromisedInLedger(s: State, rid: RegionId)
    requires Inv(s) && rid in s.regions
    ensures s.regions[rid].ledger.Closed()
    ensures Promised(s.reservations, rid) == s.regions[rid].ledger.reserved + s.regions[rid].ledger.committed
  {
    Fencing.RegionFacts(s, rid);
    PromisedIsHeld(s.reservations, rid);
    hide Inv, EvidenceFits, Promised, Held;
  }

  /** The weights again, with zero for ids of the larger table. */
  ghost function Padded(w: map<ReservationId, nat>, rs: Table): map<ReservationId, nat> {
    map id | id in rs :: if id in w then w[id] else 0
  }

  lemma BalanceAt(rs: Table, rs': Table, rid: RegionId, id: ReservationId)
    requires Progress.Evolves(rs, rs') && id in rs'
    ensures Holdings(rs', rid)[id] + Padded(Parted(rs, rs', rid), rs')[id]
         == Padded(Holdings(rs, rid), rs')[id] + Parted(rs', rs, rid)[id]
  {
    if id in rs { assert Progress.Successor(rs[id], rs'[id]); }
  }

  /** The balance of one step: what was promised, less what ended, plus what started. */
  lemma Balance(rs: Table, rs': Table, rid: RegionId)
    requires Progress.Evolves(rs, rs')
    ensures Promised(rs', rid) + Ended(rs, rs', rid) == Promised(rs, rid) + Started(rs, rs', rid)
  {
    var was, lost := Holdings(rs, rid), Parted(rs, rs', rid);
    var was', lost' := Padded(was, rs'), Padded(lost, rs');
    SumPad(was, was');
    SumPad(lost, lost');
    var total := map id | id in rs' :: Holdings(rs', rid)[id] + lost'[id];
    SumAdds(Holdings(rs', rid), lost', total);
    forall id | id in rs' ensures total[id] == was'[id] + Parted(rs', rs, rid)[id] { BalanceAt(rs, rs', rid, id); }
    SumAdds(was', Parted(rs', rs, rid), total);
  }

  /** Without new ids nothing starts: nothing old becomes live again. */
  lemma NothingStarted(rs: Table, rs': Table, rid: RegionId)
    requires Progress.Evolves(rs, rs') && rs'.Keys == rs.Keys
    ensures Started(rs, rs', rid) == 0
  {
    var w := Parted(rs', rs, rid);
    forall id | id in w ensures w[id] == 0 { assert Progress.Successor(rs[id], rs'[id]); }
    SumZero(w);
  }

  lemma NothingEnded(rs: Table, rs': Table, rid: RegionId)
    requires forall id :: LiveIn(rs, id) ==> LiveIn(rs', id)
    ensures Ended(rs, rs', rid) == 0
  {
    SumZero(Parted(rs, rs', rid));
  }

  // ---- Tables and ledgers together ----

  /** What ended came out of the promised buckets, so with the same online capacity the other three gained it. */
  lemma OthersGain(s: State, t: State, rid: RegionId)
    requires Inv(s) && Inv(t) && rid in s.regions && rid in t.regions
    requires Progress.Evolves(s.reservations, t.reservations) && t.reservations.Keys == s.reservations.Keys
    requires t.regions[rid].ledger.online == s.regions[rid].ledger.online
    ensures var l, l' := s.regions[rid].ledger, t.regions[rid].ledger;
            l'.free + l'.draining + l'.unavailable
            == l.free + l.draining + l.unavailable + Ended(s.reservations, t.reservations, rid)
  {
    hide Inv, Progress.Evolves, Promised, Ended, Started;
    PromisedInLedger(s, rid);
    PromisedInLedger(t, rid);
    Balance(s.reservations, t.reservations, rid);
    NothingStarted(s.reservations, t.reservations, rid);
  }

  // ---- Which buckets an operation leaves alone ----

  /** The region's online capacity and one of its buckets are what they were. */
  predicate Spares(s: State, t: State, rid: RegionId, b: Bucket) {
    && rid in s.regions && rid in t.regions
    && t.regions[rid].ledger.online == s.regions[rid].ledger.online
    && t.regions[rid].ledger.Get(b) == s.regions[rid].ledger.Get(b)
  }

  lemma SparesTransitive(s: State, t: State, u: State, rid: RegionId, b: Bucket)
    requires Spares(s, t, rid, b) && Spares(t, u, rid, b)
    ensures Spares(s, u, rid, b)
  {
  }

  predicate LedgerSpares(rr: RegionRecord, rr': RegionRecord, b: Bucket) {
    rr'.ledger.online == rr.ledger.online && rr'.ledger.Get(b) == rr.ledger.Get(b)
  }

  lemma RegionSpares(s: State, region: RegionId, rr: RegionRecord, rid: RegionId, b: Bucket)
    requires region in s.regions && rid in s.regions && (rid == region ==> LedgerSpares(s.regions[region], rr, b))
    ensures Spares(s, WithRegion(s, region, rr), rid, b)
  {
  }

  lemma ReservationSpares(s: State, r: Reservation, id: ReservationId, rr: RegionRecord, rid: RegionId, b: Bucket)
    requires r.region in s.regions && rid in s.regions && LedgerSpares(s.regions[r.region], rr, b)
    ensures Spares(s, WithReservation(s, r, id, rr), rid, b)
  {
  }

  lemma FollowSpares(s: State, t: State, p: ProviderId, from: Lifecycle, to: Lifecycle, rid: RegionId, b: Bucket)
    requires Spares(s, t, rid, b)
    ensures Spares(s, Follow(t, p, from, to), rid, b)
  {
  }

  lemma WithdrawSpares(s: State, ids: set<ReservationId>, cause: Cause, rid: RegionId, b: Bucket)
    requires rid in s.regions && (b.Draining? || (if cause.DrainStart? then b.Unavailable? else b.Free?))
    ensures Spares(s, Withdraw(s, ids, cause), rid, b)
  {
    Fencing.WithdrawnRegion(s, ids, cause, rid);
    hide Withdraw, WithdrawAll, Held;
  }

  /** A move touches the two buckets it names and nothing else. */
  lemma TransferSpares(rr: RegionRecord, rr': RegionRecord, from: Bucket, to: Bucket, n: int, b: Bucket)
    requires b != from && b != to && rr'.ledger == Transfer(rr.ledger, from, to, n).ledger
    ensures LedgerSpares(rr, rr', b)
  {
  }

  lemma StartDrainingSpares(t: State, region: RegionId, rid: RegionId, b: Bucket)
    requires region in t.regions && rid in t.regions && (b.Unavailable? || (rid != region && b.Draining?))
    ensures Spares(t, StartDraining(t, region).state, rid, b)
  {
    hide Spares, LedgerSpares, Transfer, WithRegion, Follow;
    var rr := t.regions[region];
    var m := Transfer(rr.ledger, Free, Bucket.Draining, rr.ledger.free);
    var failed, done := rr.(ledger := m.ledger), rr.(ledger := m.ledger, lifecycle := RegionLifecycle.Draining);
    if b.Unavailable? {
      TransferSpares(rr, failed, Free, Bucket.Draining, rr.ledger.free, b);
      TransferSpares(rr, done, Free, Bucket.Draining, rr.ledger.free, b);
    }
    RegionSpares(t, region, failed, rid, b);
    RegionSpares(t, region, done, rid, b);
    FollowSpares(t, WithRegion(t, region, done), rr.descriptor.provider, Lifecycle.Online, Lifecycle.Draining, rid, b);
  }

  lemma BeginDrainSpares(s: State, region: RegionId, a: Authority, rid: RegionId, b: Bucket)
    requires rid in s.regions && (b.Unavailable? || (rid != region && b.Draining?))
    ensures Spares(s, BeginDrain(s, region, a).state, rid, b)
  {
    assert Spares(s, s, rid, b);
    hide Spares, Withdraw, Acceptable, RegionAllowed, StartDraining;
    if RegionGuard(s, region, a) == NoError {
      var t := Withdraw(s, OfRegion(s, region), DrainStart);
      KeysAfterWithdraw(s, OfRegion(s, region), DrainStart);
      WithdrawSpares(s, OfRegion(s, region), DrainStart, rid, b);
      StartDrainingSpares(t, region, rid, b);
      SparesTransitive(s, t, StartDraining(t, region).state, rid, b);
    }
  }

  lemma KeysAfterWithdraw(s: State, ids: set<ReservationId>, cause: Cause)
    ensures Withdraw(s, ids, cause).regions.Keys == s.regions.Keys
  {
  }

  lemma FencedSpares(s: State, ids: set<ReservationId>, region: RegionId, to: RegionLifecycle, rid: RegionId, b: Bucket)
    requires region in s.regions && rid in s.regions && (b.Draining? || b.Free?)
    ensures var t := Withdraw(s, ids, Fencing);
            region in t.regions && Spares(s, WithRegion(t, region, t.regions[region].(lifecycle := to)), rid, b)
  {
    hide Spares, Withdraw, WithRegion;
    var t := Withdraw(s, ids, Fencing);
    KeysAfterWithdraw(s, ids, Fencing);
    WithdrawSpares(s, ids, Fencing, rid, b);
    var rr := t.regions[region].(lifecycle := to);
    RegionSpares(t, region, rr, rid, b);
    SparesTransitive(s, t, WithRegion(t, region, rr), rid, b);
  }

  lemma MarkUnavailableSpares(s: State, region: RegionId, a: Authority, rid: RegionId, b: Bucket)
    requires rid in s.regions && (b.Draining? || (rid != region && b.Free?))
    ensures Spares(s, MarkUnavailable(s, region, a).state, rid, b)
  {
    assert Spares(s, s, rid, b);
    hide Spares, LedgerSpares, Withdraw, Acceptable, RegionAllowed, Transfer;
    if MarkUnavailable(s, region, a).state != s {
      var rr := s.regions[region];
      var m := Transfer(rr.ledger, Free, Bucket.Unavailable, rr.ledger.free);
      if b.Draining? { TransferSpares(rr, rr.(ledger := m.ledger), Free, Bucket.Unavailable, rr.ledger.free, b); }
      RegionSpares(s, region, rr.(ledger := m.ledger), rid, b);
      var u := WithRegion(s, region, rr.(ledger := m.ledger));
      if m.ok {
        FencedSpares(u, OfRegion(s, region), region, RegionLifecycle.Unavailable, rid, b);
        SparesTransitive(s, u, MarkUnavailable(s, region, a).state, rid, b);
      }
    }
  }

  lemma ReleaseSpares(s: State, id: ReservationId, a: Authority, rid: RegionId, b: Bucket)
    requires rid in s.regions && (b.Draining? || b.Unavailable?)
    ensures Spares(s, Release(s, id, a).state, rid, b)
  {
    assert Spares(s, s, rid, b);
    hide Spares, LedgerSpares, Acceptable, Transfer, WithRegion, WithReservation;
    if id in s.reservations && s.reservations[id].region in s.regions {
      var r := s.reservations[id];
      var rr := s.regions[r.region];
      var from := if r.state.Reserved? then Bucket.Reserved else Bucket.Committed;
      var rr' := rr.(ledger := Transfer(rr.ledger, from, Free, r.bytes).ledger);
      TransferSpares(rr, rr', from, Free, r.bytes, b);
      RegionSpares(s, r.region, rr', rid, b);
      ReservationSpares(s, r.(state := Released), id, rr', rid, b);
    }
  }

  /** A drain or an outage that went through leaves nothing free on its region. */
  lemma DrainEmptiesFree(s: State, region: RegionId, a: Authority)
    requires BeginDrain(s, region, a).error == NoError
    ensures var t := BeginDrain(s, region, a).state; region in t.regions && t.regions[region].ledger.free == 0
  {
    hide Withdraw, Acceptable, RegionAllowed, Follow;
    var u := Withdraw(s, OfRegion(s, region), DrainStart);
    KeysAfterWithdraw(s, OfRegion(s, region), DrainStart);
    var rr := u.regions[region];
    var l := Transfer(rr.ledger, Free, Bucket.Draining, rr.ledger.free).ledger;
    Fencing.FollowShape(WithRegion(u, region, rr.(ledger := l, lifecycle := RegionLifecycle.Draining)),
                        rr.descriptor.provider, Lifecycle.Online, Lifecycle.Draining);
  }

  lemma OutageEmptiesFree(s: State, region: RegionId, a: Authority)
    requires MarkUnavailable(s, region, a).error == NoError
    ensures var t := MarkUnavailable(s, region, a).state; region in t.regions && t.regions[region].ledger.free == 0
  {
    hide Withdraw, Acceptable, RegionAllowed;
    var rr := s.regions[region];
    var u := WithRegion(s, region, rr.(ledger := Transfer(rr.ledger, Free, Bucket.Unavailable, rr.ledger.free).ledger));
    FencedSpares(u, OfRegion(s, region), region, RegionLifecycle.Unavailable, region, Free);
  }

  // ---- The operations, by what becomes of the bytes ----

  /** Those that fence: reincarnation, retirement, death of a worker, advance of the epoch. */
  predicate Fences(op: Op) {
    || op.OpSetEpoch? || op.OpRegisterProvider? || op.OpRegisterRegion? || op.OpRegisterPool? || op.OpRegisterPolicy?
    || op.OpRetireProvider? || op.OpRetireRegion? || op.OpMarkWorkerDead?
  }

  predicate Ends(op: Op) { Fences(op) || op.OpMarkUnavailable? || op.OpRelease? || op.OpBeginDrain? }

  /** The one call that replaces a region's ledger instead of settling it. */
  predicate Reincarnates(s: State, op: Op, rid: RegionId) {
    op.OpRegisterRegion? && op.descriptor.id == rid && RegionFault(s, op.descriptor, op.a) == NoError
  }

  /** The table keeps its ids, and of the region's buckets at most the promised and the unavailable ones change. */
  predicate FencedAt(s: State, t: State, rid: RegionId) {
    && t.reservations.Keys == s.reservations.Keys && rid in s.regions && rid in t.regions
    && t.regions[rid].descriptor == s.regions[rid].descriptor && Spares(s, t, rid, Free) && Spares(s, t, rid, Bucket.Draining)
  }

  lemma SteadyAt(s: State, t: State, rid: RegionId)
    requires t.reservations.Keys == s.reservations.Keys && rid in s.regions && rid in t.regions
    requires Steady(s.regions[rid], t.regions[rid])
    ensures FencedAt(s, t, rid)
  {
  }

  lemma SteadyEverywhere(s: State, t: State, rid: RegionId)
    requires t.reservations.Keys == s.reservations.Keys && AllSteady(s.regions, t.regions) && rid in s.regions
    ensures FencedAt(s, t, rid)
  {
    hide Steady, FencedAt;
    SteadyAt(s, t, rid);
  }

  lemma SteadyStepAt(s: State, t: State, rid: RegionId)
    requires SteadyStep(s, t) && rid in s.regions
    ensures FencedAt(s, t, rid)
  {
    hide AllSteady, FencedAt;
    SteadyEverywhere(s, t, rid);
  }

  lemma RegionFencing(s: State, d: RegionDescriptor, a: Authority, rid: RegionId)
    requires rid in s.regions && (rid != d.id || RegionFault(s, d, a) != NoError)
    ensures FencedAt(s, RegisterRegion(s, d, a).state, rid)
  {
    RegisterRegionSteady(s, d, a);
    hide RegisterRegion, RegionFault, Steady, FencedAt, FreshRegion;
    SteadyAt(s, RegisterRegion(s, d, a).state, rid);
  }

  lemma PoolFencing(s: State, d: PoolDescriptor, a: Authority, rid: RegionId)
    requires rid in s.regions
    ensures FencedAt(s, RegisterPool(s, d, a).state, rid)
  {
    RegisterPoolSteady(s, d, a);
    hide RegisterPool, PoolFault, AllSteady, FencedAt;
    SteadyEverywhere(s, RegisterPool(s, d, a).state, rid);
  }

  lemma FencingAt(s: State, op: Op, rid: RegionId)
    requires Inv(s) && Fences(op) && rid in s.regions && !Reincarnates(s, op, rid)
    ensures FencedAt(s, Apply(s, op).state, rid)
  {
    hide Inv, SteadyStep, FencedAt, SetEpoch, RegisterConsumer, RegisterProvider, RegisterDomain, RegisterRegion, RegisterPool;
    hide RegisterPolicy, AddPoolMember, RemovePoolMember, PublishEvidence, PublishAttachment, BeginDrain, CompleteDrain;
    hide CancelDrain, MarkUnavailable, RecoverRegion, RetireProvider, RetireRegion, RegisterWorker, MarkWorkerDead;
    hide NoteWorkerHandle, Select, Reserve, Commit, Release, RegionFault, PoolFault;
    match op
    case OpSetEpoch(e) => SetEpochSteady(s, e); SteadyStepAt(s, SetEpoch(s, e), rid);
    case OpRegisterProvider(d, a) => RegisterProviderSteady(s, d, a); SteadyStepAt(s, RegisterProvider(s, d, a).state, rid);
    case OpRegisterRegion(d, a) => RegionFencing(s, d, a, rid);
    case OpRegisterPool(d, a) => PoolFencing(s, d, a, rid);
    case OpRegisterPolicy(d, a) => RegisterPolicySteady(s, d, a); SteadyStepAt(s, RegisterPolicy(s, d, a).state, rid);
    case OpRetireProvider(p, a) => RetireProviderSteady(s, p, a); SteadyStepAt(s, RetireProvider(s, p, a).state, rid);
    case OpRetireRegion(region, a) => RetireRegionSteady(s, region, a); SteadyStepAt(s, RetireRegion(s, region, a).state, rid);
    case OpMarkWorkerDead(w, a) => MarkWorkerDeadSteady(s, w, a); SteadyStepAt(s, MarkWorkerDead(s, w, a).state, rid);
    case _ =>
  }

  // ---- The operations that end nothing ----

  predicate Unended(s: State, t: State) { forall id :: LiveIn(s.reservations, id) ==> LiveIn(t.reservations, id) }

  lemma SameTable(s: State, t: State)
    requires t.reservations == s.reservations
    ensures Unended(s, t)
  {
  }

  lemma CommittedUnended(s: State, id: ReservationId, rr: RegionRecord)
    requires id in s.reservations
    ensures Unended(s, WithReservation(s, s.reservations[id].(state := ReservationState.Committed), id, rr))
  {
  }

  lemma CommitUnended(s: State, id: ReservationId, a: Authority)
    ensures Unended(s, Commit(s, id, a).state)
  {
    SameTable(s, s);
    hide Unended, Acceptable, BindingFault, HolderFault, FreshnessFault, Transfer, WithRegion, WithReservation;
    if id in s.reservations && BindingFault(s, s.reservations[id]) == NoError {
      Progress.RegionBound(s, id, a);
      var r := s.reservations[id];
      var rr := s.regions[r.region];
      var rr' := rr.(ledger := Transfer(rr.ledger, Bucket.Reserved, Bucket.Committed, r.bytes).ledger);
      RegionTable(s, r.region, rr');
      SameTable(s, WithRegion(s, r.region, rr'));
      CommittedUnended(s, id, rr');
    }
  }

  lemma CountingUnended(s: State, n: nat)
    ensures Unended(s, s) && Unended(s, s.(nextSelection := n))
  {
  }

  lemma ReserveUnended(s: State, req: Request, a: Authority, now: U64)
    requires Inv(s) && s.nextReservation <= U64_MAX
    ensures Unended(s, Reserve(s, req, a, now).state)
  {
    FreshMint(s);
    hide Inv, Mint, Reserve, Unended;
    ReserveKeepsLive(s, req, a, now);
  }

  lemma ReserveKeepsLive(s: State, req: Request, a: Authority, now: U64)
    requires Mint(s.nextReservation) !in s.reservations
    ensures Unended(s, Reserve(s, req, a, now).state)
  {
    hide Unended, Mint, ReserveFault, ReserveOn, Selection.RankedIds;
    CountingUnended(s, s.nextSelection + 1);
    var ids := Selection.RankedIds(s, req);
    if ids != [] && ids[0] in s.regions { ReserveOnUnended(s, req, a, now, ids[0]); }
  }

  lemma FiledUnended(s: State, t: State, id: ReservationId, r: Reservation)
    requires id !in s.reservations && t.reservations == s.reservations[id := r]
    ensures Unended(s, t)
  {
  }

  lemma ReserveOnUnended(s: State, req: Request, a: Authority, now: U64, rid: RegionId)
    requires rid in s.regions && Mint(s.nextReservation) !in s.reservations
    ensures Unended(s, ReserveOn(s, req, a, now, rid).state)
  {
    ReserveShape(s, req, a, now, rid);
    BoundId(s, req, a, now, rid);
    hide Unended, Transfer, Mint, ReserveOn, Bind;
    var t := ReserveOn(s, req, a, now, rid).state;
    if t.reservations == s.reservations {
      SameTable(s, t);
    } else {
      FiledUnended(s, t, Mint(s.nextReservation), Bind(s, req, a, now, rid));
    }
  }

  lemma BoundId(s: State, req: Request, a: Authority, now: U64, rid: RegionId)
    requires rid in s.regions
    ensures Bind(s, req, a, now, rid).id == Mint(s.nextReservation)
  {
    hide Mint;
  }

  lemma RegionTable(s: State, rid: RegionId, rr: RegionRecord)
    ensures WithRegion(s, rid, rr).reservations == s.reservations
  {
  }

  lemma FollowTable(s: State, p: ProviderId, from: Lifecycle, to: Lifecycle)
    ensures Follow(s, p, from, to).reservations == s.reservations
  {
  }

  lemma CompleteDrainTable(s: State, region: RegionId, a: Authority)
    ensures CompleteDrain(s, region, a).state.reservations == s.reservations
  {
    hide Acceptable, Transfer, WithRegion, Follow;
    if RegionGuard(s, region, a) == NoError {
      var rr := s.regions[region];
      var m := Transfer(rr.ledger, Bucket.Draining, Bucket.Unavailable, rr.ledger.draining);
      RegionTable(s, region, rr.(ledger := m.ledger));
      var rr' := rr.(ledger := m.ledger, lifecycle := RegionLifecycle.Unavailable);
      RegionTable(s, region, rr');
      FollowTable(WithRegion(s, region, rr'), rr.descriptor.provider, Lifecycle.Draining, Lifecycle.Offline);
    }
  }

  lemma CancelDrainTable(s: State, region: RegionId, a: Authority)
    ensures CancelDrain(s, region, a).state.reservations == s.reservations
  {
    hide Acceptable, Transfer, WithRegion;
    if RegionGuard(s, region, a) == NoError {
      var rr := s.regions[region];
      var m := Transfer(rr.ledger, Bucket.Draining, Free, rr.ledger.draining);
      RegionTable(s, region, rr.(ledger := m.ledger));
      RegionTable(s, region, rr.(ledger := m.ledger, lifecycle := RegionLifecycle.Online));
    }
  }

  lemma RecoverRegionTable(s: State, region: RegionId, a: Authority)
    ensures RecoverRegion(s, region, a).state.reservations == s.reservations
  {
    hide Acceptable, Transfer;
  }

  lemma MemberTables(s: State, pool: PoolId, m: PoolMember, region: RegionId, a: Authority)
    ensures AddPoolMember(s, pool, m, a).state.reservations == s.reservations
    ensures RemovePoolMember(s, pool, region, a).state.reservations == s.reservations
  {
    hide Acceptable, FirstOf, Without;
  }

  lemma EvidenceTables(s: State, e: RegionEvidence, att: AttachmentEvidence, a: Authority)
    ensures PublishEvidence(s, e, a).state.reservations == s.reservations
    ensures PublishAttachment(s, att, a).state.reservations == s.reservations
  {
    PublishEvidenceElsewhere(s, e, a);
    hide Acceptable, PublishEvidence, PutAttachment;
  }

  lemma RegistryTables(s: State, c: ConsumerId, g: Generation, d: DomainDescriptor, a: Authority)
    ensures RegisterConsumer(s, c, g, a).state.reservations == s.reservations
    ensures RegisterDomain(s, d, a).state.reservations == s.reservations
  {
    hide Acceptable;
  }

  lemma StructureUnended(s: State, op: Op)
    requires !Ends(op) && (IsConfiguration(op) || IsLifecycle(op))
    ensures Unended(s, Apply(s, op).state)
  {
    hide Unended, SetEpoch, RegisterConsumer, RegisterProvider, RegisterDomain, RegisterRegion, RegisterPool, RegisterPolicy;
    hide AddPoolMember, RemovePoolMember, PublishEvidence, PublishAttachment, BeginDrain, CompleteDrain, CancelDrain;
    hide MarkUnavailable, RecoverRegion, RetireProvider, RetireRegion, RegisterWorker, MarkWorkerDead, NoteWorkerHandle;
    hide Select, Reserve, Commit, Release;
    match op
    case OpRegisterConsumer(c, g, a) =>
      RegistryTables(s, c, g, DomainDescriptor(0, 0, [], 0, 0), a); SameTable(s, RegisterConsumer(s, c, g, a).state);
    case OpRegisterDomain(d, a) => RegistryTables(s, 0, 0, d, a); SameTable(s, RegisterDomain(s, d, a).state);
    case OpAddPoolMember(pool, m, a) => MemberTables(s, pool, m, 0, a); SameTable(s, AddPoolMember(s, pool, m, a).state);
    case OpRemovePoolMember(pool, region, a) =>
      MemberTables(s, pool, PoolMember(0, 0), region, a); SameTable(s, RemovePoolMember(s, pool, region, a).state);
    case OpPublishEvidence(e, a) =>
      EvidenceTables(s, e, AttachmentEvidence(0, 0, 0, 0, 0, 0, 0), a); SameTable(s, PublishEvidence(s, e, a).state);
    case OpPublishAttachment(e, a) => EvidenceTables(s, NO_EVIDENCE, e, a); SameTable(s, PublishAttachment(s, e, a).state);
    case OpCompleteDrain(region, a) => CompleteDrainTable(s, region, a); SameTable(s, CompleteDrain(s, region, a).state);
    case OpCancelDrain(region, a) => CancelDrainTable(s, region, a); SameTable(s, CancelDrain(s, region, a).state);
    case OpRecoverRegion(region, a) => RecoverRegionTable(s, region, a); SameTable(s, RecoverRegion(s, region, a).state);
    case _ =>
  }

  lemma WorkerTables(s: State, w: WorkerId, boot: BootId, epoch: Epoch, pid: U64, holds: bool, a: Authority)
    ensures RegisterWorker(s, w, boot, epoch, pid, a).state.reservations == s.reservations
    ensures NoteWorkerHandle(s, w, holds).reservations == s.reservations
  {
  }

  lemma SelectTable(s: State, req: Request, a: Authority)
    ensures Select(s, req, a).state.reservations == s.reservations
  {
    hide Acceptable;
  }

  lemma UsageUnended(s: State, op: Op)
    requires Inv(s) && s.nextReservation <= U64_MAX && !Ends(op) && IsUsage(op)
    ensures Unended(s, Apply(s, op).state)
  {
    hide Inv, Unended, SetEpoch, RegisterConsumer, RegisterProvider, RegisterDomain, RegisterRegion, RegisterPool;
    hide RegisterPolicy, AddPoolMember, RemovePoolMember, PublishEvidence, PublishAttachment, BeginDrain, CompleteDrain;
    hide CancelDrain, MarkUnavailable, RecoverRegion, RetireProvider, RetireRegion, RegisterWorker, MarkWorkerDead;
    hide NoteWorkerHandle, Select, Reserve, Commit, Release;
    match op
    case OpRegisterWorker(w, boot, epoch, pid, a) =>
      WorkerTables(s, w, boot, epoch, pid, false, a); SameTable(s, RegisterWorker(s, w, boot, epoch, pid, a).state);
    case OpNoteWorkerHandle(w, holds) =>
      WorkerTables(s, w, 0, 0, 0, holds, Authority(0, 0, 0)); SameTable(s, NoteWorkerHandle(s, w, holds));
    case OpSelect(req, a) => SelectTable(s, req, a); SameTable(s, Select(s, req, a).state);
    case OpReserve(req, a, now) => ReserveUnended(s, req, a, now);
    case OpCommit(id, a) => CommitUnended(s, id, a);
    case _ =>
  }

  lemma OthersEndNothing(s: State, op: Op, rid: RegionId)
    requires Inv(s) && s.nextReservation <= U64_MAX && !Ends(op)
    ensures Ended(s.reservations, Apply(s, op).state.reservations, rid) == 0
  {
    hide Inv, Apply, Ended, LiveIn;
    if IsUsage(op) { UsageUnended(s, op); } else { StructureUnended(s, op); }
    NothingEnded(s.reservations, Apply(s, op).state.reservations, rid);
  }

  // ---- Drains and outages end nothing on other regions ----

  predicate Confined(s: State, t: State, region: RegionId) {
    forall id :: LiveIn(s.reservations, id) && s.reservations[id].region != region ==> LiveIn(t.reservations, id)
  }

  lemma ConfinedEnds(s: State, t: State, region: RegionId, rid: RegionId)
    requires Confined(s, t, region) && rid != region
    ensures Ended(s.reservations, t.reservations, rid) == 0
  {
    SumZero(Parted(s.reservations, t.reservations, rid));
  }

  lemma WithdrawConfined(s: State, t: State, region: RegionId, cause: Cause)
    requires t.reservations == WithdrawAll(s.reservations, OfRegion(s, region), cause)
    ensures Confined(s, t, region)
  {
  }

  lemma WithdrawTable(s: State, ids: set<ReservationId>, cause: Cause)
    ensures Withdraw(s, ids, cause).reservations == WithdrawAll(s.reservations, ids, cause)
  {
  }

  lemma StartDrainingTable(t: State, region: RegionId)
    requires region in t.regions
    ensures StartDraining(t, region).state.reservations == t.reservations
  {
    hide Transfer, WithRegion, Follow;
    var rr := t.regions[region];
    var l := Transfer(rr.ledger, Free, Bucket.Draining, rr.ledger.free).ledger;
    RegionTable(t, region, rr.(ledger := l));
    RegionTable(t, region, rr.(ledger := l, lifecycle := RegionLifecycle.Draining));
    FollowTable(WithRegion(t, region, rr.(ledger := l, lifecycle := RegionLifecycle.Draining)),
                rr.descriptor.provider, Lifecycle.Online, Lifecycle.Draining);
  }

  lemma BeginDrainConfined(s: State, region: RegionId, a: Authority)
    ensures Confined(s, BeginDrain(s, region, a).state, region)
  {
    assert Confined(s, s, region);
    hide Confined, Withdraw, WithdrawAll, OfRegion, Acceptable, RegionAllowed, StartDraining;
    if RegionGuard(s, region, a) == NoError {
      var t := Withdraw(s, OfRegion(s, region), DrainStart);
      KeysAfterWithdraw(s, OfRegion(s, region), DrainStart);
      WithdrawTable(s, OfRegion(s, region), DrainStart);
      StartDrainingTable(t, region);
      WithdrawConfined(s, StartDraining(t, region).state, region, DrainStart);
    }
  }

  lemma SameTableConfined(s: State, t: State, region: RegionId)
    requires t.reservations == s.reservations
    ensures Confined(s, t, region)
  {
  }

  lemma FencedConfined(s: State, u: State, region: RegionId, to: RegionLifecycle)
    requires u.reservations == s.reservations && region in u.regions
    ensures var t := Withdraw(u, OfRegion(s, region), Fencing);
            region in t.regions && Confined(s, WithRegion(t, region, t.regions[region].(lifecycle := to)), region)
  {
    hide Confined, Withdraw, WithdrawAll, OfRegion, WithRegion;
    var t := Withdraw(u, OfRegion(s, region), Fencing);
    KeysAfterWithdraw(u, OfRegion(s, region), Fencing);
    WithdrawTable(u, OfRegion(s, region), Fencing);
    var rr := t.regions[region].(lifecycle := to);
    RegionTable(t, region, rr);
    WithdrawConfined(s, WithRegion(t, region, rr), region, Fencing);
  }

  lemma MarkUnavailableConfined(s: State, region: RegionId, a: Authority)
    ensures Confined(s, MarkUnavailable(s, region, a).state, region)
  {
    SameTableConfined(s, s, region);
    hide Confined, Withdraw, OfRegion, Acceptable, RegionAllowed, Transfer;
    if MarkUnavailable(s, region, a).state != s {
      var rr := s.regions[region];
      var m := Transfer(rr.ledger, Free, Bucket.Unavailable, rr.ledger.free);
      var u := WithRegion(s, region, rr.(ledger := m.ledger));
      SameTableConfined(s, u, region);
      if m.ok { FencedConfined(s, u, region, RegionLifecycle.Unavailable); }
    }
  }

  // ---- Where the bytes of ended reservations land ----

  predicate SameBuckets(l: Ledger, l': Ledger) {
    l'.free == l.free && l'.draining == l.draining && l'.unavailable == l.unavailable
  }

  /**
   The bytes `ended` by an operation arrive where the operation sends them: a release frees them; fencing makes
   them unavailable; a drain start frees them and moves all free bytes into draining; an outage makes them
   unavailable together with all free bytes. No other operation ends a reservation.
   */
  predicate Landed(op: Op, here: bool, l: Ledger, l': Ledger, ended: nat) {
    if !Ends(op) then ended == 0
    else if op.OpRelease? then SameBuckets(l.(free := l.free + ended), l')
    else if Fences(op) then SameBuckets(l.(unavailable := l.unavailable + ended), l')
    else if !here then ended == 0 && SameBuckets(l, l')
    else if op.OpBeginDrain? then SameBuckets(l.(free := 0, draining := l.draining + l.free + ended), l')
    else SameBuckets(l.(free := 0, unavailable := l.unavailable + l.free + ended), l')
  }

  /** The operation was accepted and is a drain start or an outage of this very region. */
  ghost predicate Here(s: State, op: Op, rid: RegionId) {
    (op.OpBeginDrain? || op.OpMarkUnavailable?) && op.region == rid && Apply(s, op).error == NoError
  }

  ghost predicate Lands(s: State, op: Op, rid: RegionId)
    requires rid in s.regions
  {
    var t := Apply(s, op).state;
    rid in t.regions
    && Landed(op, Here(s, op, rid), s.regions[rid].ledger, t.regions[rid].ledger, Ended(s.reservations, t.reservations, rid))
  }

  /** Every region survives, and the table evolves into one of the next valid state. */
  lemma StepFacts(s: State, op: Op, rid: RegionId)
    requires Inv(s) && s.nextReservation <= U64_MAX && rid in s.regions
    ensures var t := Apply(s, op).state;
            Inv(t) && rid in t.regions && Progress.Evolves(s.reservations, t.reservations)
  {
    StepKeeps(s, op);
    Progress.StepForward(s, op);
    hide Inv, Apply, Progress.Evolves;
  }

  lemma FencingLands(s: State, op: Op, rid: RegionId)
    requires Inv(s) && s.nextReservation <= U64_MAX && rid in s.regions && Fences(op) && !Reincarnates(s, op, rid)
    ensures Lands(s, op, rid)
  {
    hide Inv, Apply, Progress.Evolves, Reincarnates, Ended;
    StepFacts(s, op, rid);
    FencingAt(s, op, rid);
    OthersGain(s, Apply(s, op).state, rid);
  }

  lemma CalmKeys(s: State, op: Op, rid: RegionId)
    requires Inv(s) && !Stirs(op) && rid in s.regions
    ensures var t := Apply(s, op).state;
            && t.reservations.Keys == s.reservations.Keys && rid in t.regions
            && t.regions[rid].descriptor == s.regions[rid].descriptor
  {
    OthersAreCalm(s, op);
    hide Inv, Apply;
  }

  lemma AppliedEnding(s: State, op: Op)
    ensures op.OpRelease? ==> Apply(s, op) == Release(s, op.id, op.a)
    ensures op.OpBeginDrain? ==> Apply(s, op) == BeginDrain(s, op.region, op.a)
    ensures op.OpMarkUnavailable? ==> Apply(s, op) == MarkUnavailable(s, op.region, op.a)
    ensures op.OpRegisterRegion? ==> Apply(s, op) == RegisterRegion(s, op.descriptor, op.a)
  {
    hide SetEpoch, RegisterConsumer, RegisterProvider, RegisterDomain, RegisterRegion, RegisterPool, RegisterPolicy;
    hide AddPoolMember, RemovePoolMember, PublishEvidence, PublishAttachment, BeginDrain, CompleteDrain, CancelDrain;
    hide MarkUnavailable, RecoverRegion, RetireProvider, RetireRegion, RegisterWorker, MarkWorkerDead, NoteWorkerHandle;
    hide Select, Reserve, Commit, Release;
  }

  lemma ReleaseLands(s: State, op: Op, rid: RegionId)
    requires Inv(s) && s.nextReservation <= U64_MAX && rid in s.regions && op.OpRelease?
    ensures Lands(s, op, rid)
  {
    hide Inv, Apply, Release, Progress.Evolves, Ended;
    StepFacts(s, op, rid);
    CalmKeys(s, op, rid);
    AppliedEnding(s, op);
    ReleaseSpares(s, op.id, op.a, rid, Bucket.Draining);
    ReleaseSpares(s, op.id, op.a, rid, Bucket.Unavailable);
    OthersGain(s, Apply(s, op).state, rid);
  }

  lemma RefusedEndsNothing(s: State, op: Op, rid: RegionId)
    requires Inv(s) && s.nextReservation <= U64_MAX && rid in s.regions && (op.OpBeginDrain? || op.OpMarkUnavailable?)
    requires Apply(s, op).error != NoError
    ensures Lands(s, op, rid)
  {
    Refusals.RefusedCallsChangeNothing(s, op);
    hide Inv, Apply, Ended;
    NothingEnded(s.reservations, Apply(s, op).state.reservations, rid);
  }

  lemma DrainLands(s: State, op: Op, rid: RegionId)
    requires Inv(s) && s.nextReservation <= U64_MAX && rid in s.regions && op.OpBeginDrain? && Apply(s, op).error == NoError
    ensures Lands(s, op, rid)
  {
    hide Inv, Apply, BeginDrain, Progress.Evolves, Ended, Confined;
    var t := Apply(s, op).state;
    StepFacts(s, op, rid);
    CalmKeys(s, op, rid);
    AppliedEnding(s, op);
    BeginDrainSpares(s, op.region, op.a, rid, Bucket.Unavailable);
    OthersGain(s, t, rid);
    if op.region == rid {
      DrainEmptiesFree(s, op.region, op.a);
    } else {
      BeginDrainSpares(s, op.region, op.a, rid, Bucket.Draining);
      BeginDrainConfined(s, op.region, op.a);
      ConfinedEnds(s, t, op.region, rid);
    }
  }

  lemma OutageLands(s: State, op: Op, rid: RegionId)
    requires Inv(s) && s.nextReservation <= U64_MAX && rid in s.regions && op.OpMarkUnavailable? && Apply(s, op).error == NoError
    ensures Lands(s, op, rid)
  {
    hide Inv, Apply, MarkUnavailable, Progress.Evolves, Ended, Confined;
    var t := Apply(s, op).state;
    StepFacts(s, op, rid);
    CalmKeys(s, op, rid);
    AppliedEnding(s, op);
    MarkUnavailableSpares(s, op.region, op.a, rid, Bucket.Draining);
    OthersGain(s, t, rid);
    if op.region == rid {
      OutageEmptiesFree(s, op.region, op.a);
    } else {
      MarkUnavailableSpares(s, op.region, op.a, rid, Free);
      MarkUnavailableConfined(s, op.region, op.a);
      ConfinedEnds(s, t, op.region, rid);
    }
  }

  /** A region that returns with a higher generation starts from nothing: what it had promised reaches no bucket. */
  lemma ReincarnationForfeits(s: State, op: Op, rid: RegionId)
    requires Inv(s) && s.nextReservation <= U64_MAX && rid in s.regions && Reincarnates(s, op, rid)
    ensures var t := Apply(s, op).state;
            && rid in t.regions && t.regions[rid].ledger == Empty(op.descriptor.totalCapacityBytes)
            && t.regions[rid].descriptor == op.descriptor
            && t.reservations.Keys == s.reservations.Keys
            && Ended(s.reservations, t.reservations, rid) == s.regions[rid].ledger.reserved + s.regions[rid].ledger.committed
  {
    hide Inv, Apply, RegisterRegion, RegionFault, Progress.Evolves, Ended, Started, Promised, Steady;
    var t := Apply(s, op).state;
    StepFacts(s, op, rid);
    AppliedEnding(s, op);
    RegisterRegionSteady(s, op.descriptor, op.a);
    PromisedInLedger(s, rid);
    PromisedInLedger(t, rid);
    Balance(s.reservations, t.reservations, rid);
    NothingStarted(s.reservations, t.reservations, rid);
  }

  lemma AllLand(s: State, op: Op, rid: RegionId)
    requires Inv(s) && s.nextReservation <= U64_MAX && rid in s.regions && !Reincarnates(s, op, rid)
    ensures Lands(s, op, rid)
  {
    hide Inv, Apply, Reincarnates;
    if Fences(op) {
      hide Lands;
      FencingLands(s, op, rid);
    } else if !Ends(op) {
      StepFacts(s, op, rid);
      OthersEndNothing(s, op, rid);
    } else if op.OpRelease? {
      hide Lands;
      ReleaseLands(s, op, rid);
    } else {
      hide Lands;
      if Apply(s, op).error != NoError { RefusedEndsNothing(s, op, rid); }
      else if op.OpBeginDrain? { DrainLands(s, op, rid); }
      else { OutageLands(s, op, rid); }
    }
  }

  /**
   Exactly when the bytes of the reservations an operation ends arrive in free, draining or unavailable:
   unless the operation is the reincarnation of a region that still has capacity online.
   */
  lemma BytesLandIff(s: State, op: Op, rid: RegionId)
    requires Inv(s) && s.nextReservation <= U64_MAX && rid in s.regions
    ensures Lands(s, op, rid) <==> !(Reincarnates(s, op, rid) && s.regions[rid].ledger.online > 0)
  {
    hide Inv, Apply, RegionFault, Ended, Promised;
    if Reincarnates(s, op, rid) {
      ReincarnationForfeits(s, op, rid);
      PromisedInLedger(s, rid);
    } else {
      hide Lands, Reincarnates;
      AllLand(s, op, rid);
    }
  }

  // ---- The generation of a region changes in no other way ----

  lemma ReincarnationRaises(s: State, op: Op, rid: RegionId)
    requires rid in s.regions && Reincarnates(s, op, rid)
    ensures s.regions[rid].descriptor.generation < op.descriptor.generation
  {
    hide Acceptable, Contradictory;
  }

  lemma StirringKeepsDescriptor(s: State, op: Op, rid: RegionId)
    requires rid in s.regions && Stirs(op) && !Fences(op)
    ensures var t := Apply(s, op).state; rid in t.regions && t.regions[rid].descriptor == s.regions[rid].descriptor
  {
    hide SetEpoch, RegisterConsumer, RegisterProvider, RegisterDomain, RegisterRegion, RegisterPool, RegisterPolicy;
    hide AddPoolMember, RemovePoolMember, PublishEvidence, PublishAttachment, BeginDrain, CompleteDrain, CancelDrain;
    hide MarkUnavailable, RecoverRegion, RetireProvider, RetireRegion, RegisterWorker, MarkWorkerDead, NoteWorkerHandle;
    hide Select, Reserve, Commit, Release;
    hide Without;
    match op
    case OpAddPoolMember(pool, m, a) => AddPoolMemberCalm(s, pool, m, a);
    case OpRemovePoolMember(pool, region, a) => RemovePoolMemberCalm(s, pool, region, a);
    case OpPublishEvidence(e, a) => PublishEvidenceElsewhere(s, e, a);
    case OpReserve(req, a, now) => ReserveCalm(s, req, a, now);
  }

  /** A region keeps its structure unless it is reincarnated, and then its generation grows. */
  lemma GenerationChangesIff(s: State, op: Op, rid: RegionId)
    requires Inv(s) && s.nextReservation <= U64_MAX && rid in s.regions
    ensures var t := Apply(s, op).state;
            && rid in t.regions
            && (t.regions[rid].descriptor.generation != s.regions[rid].descriptor.generation <==> Reincarnates(s, op, rid))
            && (!Reincarnates(s, op, rid) ==> t.regions[rid].descriptor == s.regions[rid].descriptor)
  {
    hide Inv, Apply, Reincarnates, Ended;
    if Reincarnates(s, op, rid) {
      ReincarnationForfeits(s, op, rid);
      ReincarnationRaises(s, op, rid);
    } else if Fences(op) {
      FencingAt(s, op, rid);
    } else if Stirs(op) {
      StirringKeepsDescriptor(s, op, rid);
    } else {
      CalmKeys(s, op, rid);
    }
  }
}
