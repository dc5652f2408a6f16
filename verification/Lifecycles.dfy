/**
 The guard tables against the operations. Many operations set a lifecycle without asking the table;
 all of them agree with it, except two, and those two exactly when they cancel a drain or recover a region
 that was not awaiting revalidation.
 */
module Lifecycles {
  import opened Words
  import opened Types
  import opened Ledgers
  import opened Records
  import opened Operations
  import opened Invariants
  import opened Preservation
  import opened Progress
  import opened Scenarios
  import Fencing
  import Refusals
  import Selection

  /** The same incarnation stays where it is or moves as the table allows. */
  predicate RegionMove(rr: RegionRecord, rr': RegionRecord) {
    || rr'.descriptor.generation != rr.descriptor.generation
    || rr'.lifecycle == rr.lifecycle || RegionAllowed(rr.lifecycle, rr'.lifecycle)
  }

  predicate RegionMoves(rs: map<RegionId, RegionRecord>, rs': map<RegionId, RegionRecord>) {
    forall rid :: rid in rs ==> rid in rs' && RegionMove(rs[rid], rs'[rid])
  }

  predicate ProviderMove(p: ProviderRecord, p': ProviderRecord) {
    || p'.descriptor.generation != p.descriptor.generation
    || p'.lifecycle == p.lifecycle || ProviderAllowed(p.lifecycle, p'.lifecycle)
  }

  predicate ProviderMoves(ps: map<ProviderId, ProviderRecord>, ps': map<ProviderId, ProviderRecord>) {
    forall p :: p in ps ==> p in ps' && ProviderMove(ps[p], ps'[p])
  }

  predicate Follows(s: State, t: State) { RegionMoves(s.regions, t.regions) && ProviderMoves(s.providers, t.providers) }

  // ---- Building blocks ----

  lemma FollowsSame(s: State, t: State)
    requires t.regions == s.regions && t.providers == s.providers
    ensures Follows(s, t)
  {
  }

  lemma ProvidersStay(ps: map<ProviderId, ProviderRecord>)
    ensures ProviderMoves(ps, ps)
  {
  }

  lemma ProviderPutMoves(ps: map<ProviderId, ProviderRecord>, p: ProviderId, rec: ProviderRecord)
    requires p in ps ==> ProviderMove(ps[p], rec)
    ensures ProviderMoves(ps, ps[p := rec])
  {
  }

  lemma RegionPutMoves(rs: map<RegionId, RegionRecord>, rid: RegionId, rr: RegionRecord)
    requires rid in rs ==> RegionMove(rs[rid], rr)
    ensures RegionMoves(rs, rs[rid := rr])
  {
  }

  /** Settling ledgers moves no lifecycle. */
  lemma SettleMoves(rs: map<RegionId, RegionRecord>, table: map<ReservationId, Reservation>, cause: Cause, after: map<RegionId, RegionRecord>)
    requires RegionMoves(Settle(rs, table, cause), after)
    ensures RegionMoves(rs, after)
  {
    var settled := Settle(rs, table, cause);
    forall rid | rid in rs ensures rid in after && RegionMove(rs[rid], after[rid]) {
      assert rid in settled && settled[rid] == rs[rid].(ledger := settled[rid].ledger);
    }
  }

  lemma RegionsStay(rs: map<RegionId, RegionRecord>)
    ensures RegionMoves(rs, rs)
  {
  }

  lemma MappedMoves(rs: map<RegionId, RegionRecord>, ids: set<RegionId>, p: ProviderId)
    ensures RegionMoves(rs, SuspendAll(rs, ids))
    ensures RegionMoves(rs, ForgetBacked(rs, p))
    ensures RegionMoves(rs, RetireBacked(rs, p))
  {
  }

  lemma FollowMoves(s: State, p: ProviderId, from: Lifecycle, to: Lifecycle)
    requires ProviderAllowed(from, to)
    ensures ProviderMoves(s.providers, Follow(s, p, from, to).providers)
    ensures Follow(s, p, from, to).regions == s.regions
  {
    hide ProviderMoves;
    ProvidersStay(s.providers);
    if p in s.providers && s.providers[p].lifecycle == from {
      ProviderPutMoves(s.providers, p, s.providers[p].(lifecycle := to));
    }
  }

  // ---- The operations ----

  lemma SetEpochMoves(s: State, e: Epoch)
    ensures Follows(s, SetEpoch(s, e))
  {
    hide Settle, WithdrawAll, SuspendAll, ForgetBacked, RetireBacked, RegionMoves, ProviderMoves, Dismiss;
    RegionsStay(s.regions);
    ProvidersStay(s.providers);
    if e > s.epoch {
      var t := Withdraw(s, s.reservations.Keys, EpochAdvance);
      MappedMoves(t.regions, t.regions.Keys, NULL);
      SettleMoves(s.regions, t.reservations, EpochAdvance, SuspendAll(t.regions, t.regions.Keys));
    }
  }

  lemma RegisterProviderMoves(s: State, d: ProviderDescriptor, a: Authority)
    ensures Follows(s, RegisterProvider(s, d, a).state)
  {
    hide Settle, WithdrawAll, SuspendAll, ForgetBacked, RetireBacked, RegionMoves, ProviderMoves, Acceptable, Contradictory;
    RegionsStay(s.regions);
    ProvidersStay(s.providers);
    if ProviderFault(s, d, a) == NoError {
      ProviderPutMoves(s.providers, d.id, ProviderRecord(d, Lifecycle.Registered));
      var t := Withdraw(s, OfProvider(s, d.id), Fencing);
      MappedMoves(t.regions, {}, d.id);
      SettleMoves(s.regions, t.reservations, Fencing, ForgetBacked(t.regions, d.id));
    }
  }

  lemma RegisterRegionMoves(s: State, d: RegionDescriptor, a: Authority)
    ensures Follows(s, RegisterRegion(s, d, a).state)
  {
    hide Settle, WithdrawAll, RegionMoves, ProviderMoves, Acceptable, Contradictory;
    RegionsStay(s.regions);
    ProvidersStay(s.providers);
    if RegionFault(s, d, a) == NoError {
      RegionPutMoves(s.regions, d.id, FreshRegion(d, RegionLifecycle.Declared));
      if d.id in s.regions {
        var t := Withdraw(s, OfRegion(s, d.id), Fencing);
        Fencing.WithdrawnRegion(s, OfRegion(s, d.id), Fencing, d.id);
        RegionPutMoves(t.regions, d.id, FreshRegion(d, RegionLifecycle.Declared));
        SettleMoves(s.regions, t.reservations, Fencing, t.regions[d.id := FreshRegion(d, RegionLifecycle.Declared)]);
      }
    }
  }

  lemma RegisterPoolMoves(s: State, d: PoolDescriptor, a: Authority)
    ensures Follows(s, RegisterPool(s, d, a).state)
  {
    hide Settle, WithdrawAll, RegionMoves, ProviderMoves, PoolFault;
    RegionsStay(s.regions);
    ProvidersStay(s.providers);
    var t := Withdraw(s, OfPool(s, d.id), Fencing);
    RegionsStay(t.regions);
    SettleMoves(s.regions, t.reservations, Fencing, t.regions);
  }

  lemma RegisterPolicyMoves(s: State, d: PolicyDescriptor, a: Authority)
    ensures Follows(s, RegisterPolicy(s, d, a).state)
  {
    hide Settle, WithdrawAll, RegionMoves, ProviderMoves, PolicyFault;
    RegionsStay(s.regions);
    ProvidersStay(s.providers);
    var t := Withdraw(s, OfPolicy(s, d.id), Fencing);
    RegionsStay(t.regions);
    SettleMoves(s.regions, t.reservations, Fencing, t.regions);
  }

  lemma AddPoolMemberMoves(s: State, pool: PoolId, m: PoolMember, a: Authority)
    ensures Follows(s, AddPoolMember(s, pool, m, a).state)
  {
    hide RegionMoves, ProviderMoves, Acceptable, FirstOf;
    RegionsStay(s.regions);
    ProvidersStay(s.providers);
    if AddPoolMember(s, pool, m, a).error == NoError {
      var rr := s.regions[m.region];
      RegionPutMoves(s.regions, m.region, rr.(memberships := rr.memberships + {(pool, s.pools[pool].generation)}));
    }
  }

  lemma RemovePoolMemberMoves(s: State, pool: PoolId, region: RegionId, a: Authority)
    ensures Follows(s, RemovePoolMember(s, pool, region, a).state)
  {
    hide RegionMoves, ProviderMoves, Acceptable, Without;
    RegionsStay(s.regions);
    ProvidersStay(s.providers);
    if region in s.regions {
      var rr := s.regions[region];
      RegionPutMoves(s.regions, region, rr.(memberships := set m | m in rr.memberships && m.0 != pool));
    }
  }

  lemma PublishEvidenceMoves(s: State, e: RegionEvidence, a: Authority)
    ensures Follows(s, PublishEvidence(s, e, a).state)
  {
    hide RegionMoves, ProviderMoves, Acceptable, SetOnline, Reflect, HealthTarget;
    RegionsStay(s.regions);
    ProvidersStay(s.providers);
    if EvidenceFault(s, e, a) == NoError {
      hide EvidenceFault, RegionAllowed;
      var rid := e.header.region;
      var rr := s.regions[rid];
      var m := SetOnline(rr.ledger, e.onlineCapacityBytes);
      var taken := TakeEvidence(rr, m.ledger, e);
      RegionPutMoves(s.regions, rid, rr.(ledger := m.ledger));
      RegionPutMoves(s.regions, rid, taken);
      if AbsorbEvidence(s, e).error == NoError {
        RegionPutMoves(s.regions, rid, taken.(lifecycle := HealthTarget(e.health)));
        ReflectMoves(s.providers, taken.(lifecycle := HealthTarget(e.health)));
      }
    }
  }

  lemma ReflectMoves(ps: map<ProviderId, ProviderRecord>, rr: RegionRecord)
    ensures ProviderMoves(ps, Reflect(ps, rr))
  {
  }

  lemma PublishAttachmentMoves(s: State, e: AttachmentEvidence, a: Authority)
    ensures Follows(s, PublishAttachment(s, e, a).state)
  {
    hide RegionMoves, ProviderMoves, Acceptable, PutAttachment;
    RegionsStay(s.regions);
    ProvidersStay(s.providers);
    if e.region in s.regions {
      var rr := s.regions[e.region];
      RegionPutMoves(s.regions, e.region, rr.(attachments := PutAttachment(rr.attachments, e)));
    }
  }

  lemma StartDrainingMoves(s: State, region: RegionId)
    requires region in s.regions && RegionAllowed(s.regions[region].lifecycle, RegionLifecycle.Draining)
    ensures Follows(s, StartDraining(s, region).state)
  {
    hide RegionMoves, ProviderMoves, Transfer, Follow;
    ProvidersStay(s.providers);
    var rr := s.regions[region];
    var m := Transfer(rr.ledger, Free, Bucket.Draining, rr.ledger.free);
    RegionPutMoves(s.regions, region, rr.(ledger := m.ledger));
    var rr' := rr.(ledger := m.ledger, lifecycle := RegionLifecycle.Draining);
    RegionPutMoves(s.regions, region, rr');
    FollowMoves(WithRegion(s, region, rr'), rr.descriptor.provider, Lifecycle.Online, Lifecycle.Draining);
  }

  lemma BeginDrainMoves(s: State, region: RegionId, a: Authority)
    ensures Follows(s, BeginDrain(s, region, a).state)
  {
    hide Settle, WithdrawAll, RegionMoves, ProviderMoves, Acceptable, StartDraining;
    RegionsStay(s.regions);
    ProvidersStay(s.providers);
    if RegionGuard(s, region, a) == NoError && RegionAllowed(s.regions[region].lifecycle, RegionLifecycle.Draining) {
      var t := Withdraw(s, OfRegion(s, region), DrainStart);
      Fencing.WithdrawnRegion(s, OfRegion(s, region), DrainStart, region);
      StartDrainingMoves(t, region);
      SettleMoves(s.regions, t.reservations, DrainStart, StartDraining(t, region).state.regions);
    }
  }

  lemma CompleteDrainMoves(s: State, region: RegionId, a: Authority)
    ensures Follows(s, CompleteDrain(s, region, a).state)
  {
    hide RegionMoves, ProviderMoves, Acceptable, Transfer, Follow;
    RegionsStay(s.regions);
    ProvidersStay(s.providers);
    if RegionGuard(s, region, a) == NoError && s.regions[region].lifecycle.Draining? {
      var rr := s.regions[region];
      var m := Transfer(rr.ledger, Bucket.Draining, Bucket.Unavailable, rr.ledger.draining);
      RegionPutMoves(s.regions, region, rr.(ledger := m.ledger));
      var rr' := rr.(ledger := m.ledger, lifecycle := RegionLifecycle.Unavailable);
      RegionPutMoves(s.regions, region, rr');
      FollowMoves(WithRegion(s, region, rr'), rr.descriptor.provider, Lifecycle.Draining, Lifecycle.Offline);
    }
  }

  lemma FencedRegionMoves(s: State, region: RegionId, ids: set<ReservationId>, to: RegionLifecycle)
    requires region in s.regions && RegionAllowed(s.regions[region].lifecycle, to)
    ensures var t := Withdraw(s, ids, Fencing);
            && region in t.regions && t.providers == s.providers
            && RegionMoves(s.regions, t.regions[region := t.regions[region].(lifecycle := to)])
  {
    hide Settle, WithdrawAll, RegionMoves;
    var t := Withdraw(s, ids, Fencing);
    Fencing.WithdrawnRegion(s, ids, Fencing, region);
    RegionPutMoves(t.regions, region, t.regions[region].(lifecycle := to));
    SettleMoves(s.regions, t.reservations, Fencing, t.regions[region := t.regions[region].(lifecycle := to)]);
  }

  lemma MarkUnavailableMoves(s: State, region: RegionId, a: Authority)
    ensures Follows(s, MarkUnavailable(s, region, a).state)
  {
    hide Withdraw, RegionMoves, ProviderMoves, Acceptable, Transfer, RegionAllowed;
    RegionsStay(s.regions);
    ProvidersStay(s.providers);
    if RegionGuard(s, region, a) == NoError && RegionAllowed(s.regions[region].lifecycle, RegionLifecycle.Unavailable) {
      var rr := s.regions[region];
      var m := Transfer(rr.ledger, Free, Bucket.Unavailable, rr.ledger.free);
      RegionPutMoves(s.regions, region, rr.(ledger := m.ledger));
      if m.ok {
        var u := WithRegion(s, region, rr.(ledger := m.ledger));
        FencedRegionMoves(u, region, OfRegion(s, region), RegionLifecycle.Unavailable);
        LedgerOnly(s, region, m.ledger, MarkUnavailable(s, region, a).state.regions);
      }
    }
  }

  lemma LedgerOnly(s: State, region: RegionId, l: Ledger, after: map<RegionId, RegionRecord>)
    requires region in s.regions && RegionMoves(s.regions[region := s.regions[region].(ledger := l)], after)
    ensures RegionMoves(s.regions, after)
  {
    var changed := s.regions[region := s.regions[region].(ledger := l)];
    forall rid | rid in s.regions ensures rid in after && RegionMove(s.regions[rid], after[rid]) {
      assert rid in changed;
    }
  }

  lemma RetireProviderMoves(s: State, p: ProviderId, a: Authority)
    ensures Follows(s, RetireProvider(s, p, a).state)
  {
    hide Settle, WithdrawAll, SuspendAll, ForgetBacked, RetireBacked, RegionMoves, ProviderMoves, Acceptable;
    RegionsStay(s.regions);
    ProvidersStay(s.providers);
    if RetireProvider(s, p, a).error == NoError {
      var t := Withdraw(s, OfProvider(s, p), Fencing);
      MappedMoves(t.regions, {}, p);
      SettleMoves(s.regions, t.reservations, Fencing, RetireBacked(t.regions, p));
      ProviderPutMoves(s.providers, p, s.providers[p].(lifecycle := Lifecycle.Retired));
    }
  }

  lemma RetireRegionMoves(s: State, region: RegionId, a: Authority)
    ensures Follows(s, RetireRegion(s, region, a).state)
  {
    hide Withdraw, RegionMoves, ProviderMoves, Acceptable, RegionAllowed;
    RegionsStay(s.regions);
    ProvidersStay(s.providers);
    if RetireRegion(s, region, a).error == NoError {
      FencedRegionMoves(s, region, OfRegion(s, region), RegionLifecycle.Retired);
    }
  }

  lemma MarkWorkerDeadMoves(s: State, w: WorkerId, a: Authority)
    ensures Follows(s, MarkWorkerDead(s, w, a).state)
  {
    hide Settle, WithdrawAll, SuspendAll, ForgetBacked, RetireBacked, RegionMoves, ProviderMoves, Acceptable;
    RegionsStay(s.regions);
    ProvidersStay(s.providers);
    if MarkWorkerDead(s, w, a).error == NoError {
      var vouched := Vouched(s, w, s.workers[w].boot);
      var t := Withdraw(s, OfWorker(s, w, vouched), Fencing);
      MappedMoves(t.regions, vouched, NULL);
      SettleMoves(s.regions, t.reservations, Fencing, SuspendAll(t.regions, vouched));
    }
  }

  lemma LedgerMovesNothing(rs: map<RegionId, RegionRecord>, rid: RegionId, l: Ledger)
    requires rid in rs
    ensures RegionMoves(rs, rs[rid := rs[rid].(ledger := l)])
  {
  }

  lemma ReserveMoves(s: State, req: Request, a: Authority, now: U64)
    ensures Follows(s, Reserve(s, req, a, now).state)
  {
    hide RegionMoves, ProviderMoves, ReserveFault, Selection.RankedIds, Transfer, Bind;
    RegionsStay(s.regions);
    ProvidersStay(s.providers);
    var ids := Selection.RankedIds(s, req);
    if ids != [] && ids[0] in s.regions {
      assert Bind(s, req, a, now, ids[0]).region == ids[0] by { BoundRegionIs(s, req, a, now, ids[0]); }
      LedgerMovesNothing(s.regions, ids[0], Transfer(s.regions[ids[0]].ledger, Free, Bucket.Reserved, req.requiredBytes).ledger);
    }
  }

  lemma BoundRegionIs(s: State, req: Request, a: Authority, now: U64, rid: RegionId)
    requires rid in s.regions
    ensures Bind(s, req, a, now, rid).region == rid
  {
    hide Mint;
  }

  lemma CommitMovesNothing(s: State, id: ReservationId, a: Authority)
    ensures Follows(s, Commit(s, id, a).state)
  {
    hide RegionMoves, ProviderMoves, BindingFault, HolderFault, FreshnessFault, Acceptable, Transfer;
    RegionsStay(s.regions);
    ProvidersStay(s.providers);
    if id in s.reservations && s.reservations[id].region in s.regions {
      var r := s.reservations[id];
      LedgerMovesNothing(s.regions, r.region, Transfer(s.regions[r.region].ledger, Bucket.Reserved, Bucket.Committed, r.bytes).ledger);
    }
    if id in s.reservations && BindingFault(s, s.reservations[id]) == NoError { RegionBound(s, id, a); }
  }

  lemma LedgerStepsFollow(s: State, r: Reservation, id: ReservationId, l: Ledger)
    requires r.region in s.regions
    ensures Follows(s, WithRegion(s, r.region, s.regions[r.region].(ledger := l)))
    ensures Follows(s, WithReservation(s, r, id, s.regions[r.region].(ledger := l)))
  {
    hide RegionMoves, ProviderMoves;
    LedgerMovesNothing(s.regions, r.region, l);
    ProvidersStay(s.providers);
  }

  lemma ReleaseMovesNothing(s: State, id: ReservationId, a: Authority)
    ensures Follows(s, Release(s, id, a).state)
  {
    FollowsSame(s, s);
    hide Follows, Acceptable, Transfer, WithRegion, WithReservation;
    if id in s.reservations && s.reservations[id].region in s.regions {
      var r := s.reservations[id];
      var from := if r.state.Reserved? then Bucket.Reserved else Bucket.Committed;
      LedgerStepsFollow(s, r.(state := Released), id, Transfer(s.regions[r.region].ledger, from, Free, r.bytes).ledger);
    }
  }

  lemma UnrelatedMoves(s: State, op: Op)
    requires op.OpRegisterConsumer? || op.OpRegisterDomain? || op.OpRegisterWorker? || op.OpNoteWorkerHandle? || op.OpSelect?
    ensures Follows(s, Apply(s, op).state)
  {
    hide Follows, SetEpoch, RegisterProvider, RegisterRegion, RegisterPool, RegisterPolicy, AddPoolMember, RemovePoolMember;
    hide PublishEvidence, PublishAttachment, BeginDrain, CompleteDrain, CancelDrain, MarkUnavailable, RecoverRegion;
    hide RetireProvider, RetireRegion, MarkWorkerDead, Reserve, Commit, Release, Acceptable;
    FollowsSame(s, Apply(s, op).state);
  }

  // ---- Every operation but two ----

  predicate Bypasses(op: Op) { op.OpCancelDrain? || op.OpRecoverRegion? }

  lemma StructureFollows(s: State, op: Op)
    requires IsConfiguration(op) || IsLifecycle(op)
    requires !Bypasses(op)
    ensures Follows(s, Apply(s, op).state)
  {
    hide Follows, SetEpoch, RegisterConsumer, RegisterProvider, RegisterDomain, RegisterRegion, RegisterPool, RegisterPolicy;
    hide AddPoolMember, RemovePoolMember, PublishEvidence, PublishAttachment, BeginDrain, CompleteDrain, CancelDrain;
    hide MarkUnavailable, RecoverRegion, RetireProvider, RetireRegion, RegisterWorker, MarkWorkerDead, NoteWorkerHandle;
    hide Select, Reserve, Commit, Release;
    match op
    case OpSetEpoch(e) => SetEpochMoves(s, e);
    case OpRegisterProvider(d, a) => RegisterProviderMoves(s, d, a);
    case OpRegisterRegion(d, a) => RegisterRegionMoves(s, d, a);
    case OpRegisterPool(d, a) => RegisterPoolMoves(s, d, a);
    case OpRegisterPolicy(d, a) => RegisterPolicyMoves(s, d, a);
    case OpAddPoolMember(pool, m, a) => AddPoolMemberMoves(s, pool, m, a);
    case OpRemovePoolMember(pool, region, a) => RemovePoolMemberMoves(s, pool, region, a);
    case OpPublishEvidence(e, a) => PublishEvidenceMoves(s, e, a);
    case OpPublishAttachment(e, a) => PublishAttachmentMoves(s, e, a);
    case OpBeginDrain(region, a) => BeginDrainMoves(s, region, a);
    case OpCompleteDrain(region, a) => CompleteDrainMoves(s, region, a);
    case OpMarkUnavailable(region, a) => MarkUnavailableMoves(s, region, a);
    case OpRetireProvider(p, a) => RetireProviderMoves(s, p, a);
    case OpRetireRegion(region, a) => RetireRegionMoves(s, region, a);
    case _ => UnrelatedMoves(s, op);
  }

  lemma UsageFollows(s: State, op: Op)
    requires IsUsage(op)
    ensures Follows(s, Apply(s, op).state)
  {
    hide Follows, SetEpoch, RegisterConsumer, RegisterProvider, RegisterDomain, RegisterRegion, RegisterPool, RegisterPolicy;
    hide AddPoolMember, RemovePoolMember, PublishEvidence, PublishAttachment, BeginDrain, CompleteDrain, CancelDrain;
    hide MarkUnavailable, RecoverRegion, RetireProvider, RetireRegion, RegisterWorker, MarkWorkerDead, NoteWorkerHandle;
    hide Select, Reserve, Commit, Release;
    match op
    case OpMarkWorkerDead(w, a) => MarkWorkerDeadMoves(s, w, a);
    case OpReserve(req, a, now) => ReserveMoves(s, req, a, now);
    case OpCommit(id, a) => CommitMovesNothing(s, id, a);
    case OpRelease(id, a) => ReleaseMovesNothing(s, id, a);
    case _ => UnrelatedMoves(s, op);
  }

  lemma OthersFollowTables(s: State, op: Op)
    requires !Bypasses(op)
    ensures Follows(s, Apply(s, op).state)
  {
    hide Follows, Apply;
    if IsUsage(op) { UsageFollows(s, op); } else { StructureFollows(s, op); }
  }

  // ---- The two that can step outside ----

  lemma RegionStepFollowsIff(s: State, rid: RegionId, rr: RegionRecord)
    requires rid in s.regions
    ensures Follows(s, WithRegion(s, rid, rr)) <==> RegionMove(s.regions[rid], rr)
  {
    hide RegionMove, RegionMoves, ProviderMoves;
    ProvidersStay(s.providers);
    if RegionMove(s.regions[rid], rr) { RegionPutMoves(s.regions, rid, rr); }
    if RegionMoves(s.regions, s.regions[rid := rr]) { MoveOf(s.regions, s.regions[rid := rr], rid); }
  }

  lemma MoveOf(rs: map<RegionId, RegionRecord>, rs': map<RegionId, RegionRecord>, rid: RegionId)
    requires RegionMoves(rs, rs') && rid in rs
    ensures rid in rs' && RegionMove(rs[rid], rs'[rid])
  {
  }

  /** Cancelling a drain stays within the table only when it is refused: DRAINING to ONLINE is not in it. */
  lemma CancelDrainFollowsIff(s: State, region: RegionId, a: Authority)
    requires Inv(s)
    ensures Follows(s, CancelDrain(s, region, a).state)
       <==> !(RegionGuard(s, region, a) == NoError && s.regions[region].lifecycle.Draining?)
  {
    FollowsSame(s, s);
    hide Inv, Follows, Transfer, Acceptable, WithRegion;
    if RegionGuard(s, region, a) == NoError {
      ClosedLedger(s, region);
      var rr := s.regions[region];
      Refusals.LedgerRefusals(rr.ledger);
      var l := Transfer(rr.ledger, Bucket.Draining, Free, rr.ledger.draining).ledger;
      RegionStepFollowsIff(s, region, rr.(ledger := l, lifecycle := RegionLifecycle.Online));
    }
  }

  /** Recovering a region stays within the table when it is refused and when the region was awaiting revalidation. */
  lemma RecoverRegionFollowsIff(s: State, region: RegionId, a: Authority)
    ensures Follows(s, RecoverRegion(s, region, a).state)
       <==> !(RegionGuard(s, region, a) == NoError
              && (s.regions[region].lifecycle.Unavailable? || s.regions[region].lifecycle.Degraded?))
  {
    FollowsSame(s, s);
    hide Follows, Transfer, Acceptable, WithRegion;
    if RegionGuard(s, region, a) == NoError {
      var rr := s.regions[region];
      var l := Transfer(rr.ledger, Bucket.Unavailable, Free, rr.ledger.unavailable).ledger;
      RegionStepFollowsIff(s, region, rr.(ledger := l, lifecycle := RegionLifecycle.Declared,
                                          evidenceStatus := EvidenceStatus.RevalidationRequired));
    }
  }

  /** The calls that move a lifecycle against the table. */
  predicate StepsOutside(s: State, op: Op) {
    Bypasses(op) && RegionGuard(s, op.region, op.a) == NoError
    && var l := s.regions[op.region].lifecycle;
       if op.OpCancelDrain? then l.Draining? else l.Unavailable? || l.Degraded?
  }

  lemma AppliedBypass(s: State, op: Op)
    ensures op.OpCancelDrain? ==> Apply(s, op) == CancelDrain(s, op.region, op.a)
    ensures op.OpRecoverRegion? ==> Apply(s, op) == RecoverRegion(s, op.region, op.a)
  {
    hide SetEpoch, RegisterConsumer, RegisterProvider, RegisterDomain, RegisterRegion, RegisterPool, RegisterPolicy;
    hide AddPoolMember, RemovePoolMember, PublishEvidence, PublishAttachment, BeginDrain, CompleteDrain, CancelDrain;
    hide MarkUnavailable, RecoverRegion, RetireProvider, RetireRegion, RegisterWorker, MarkWorkerDead, NoteWorkerHandle;
    hide Select, Reserve, Commit, Release;
  }

  /**
   Every lifecycle change a call makes, asked for or not, is one the tables allow, if and only if the call
   is neither the cancelling of a drain nor the recovery of an UNAVAILABLE or DEGRADED region.
   */
  lemma LifecyclesFollowTablesIff(s: State, op: Op)
    requires Inv(s)
    ensures Follows(s, Apply(s, op).state) <==> !StepsOutside(s, op)
  {
    hide Inv, Follows, Apply, CancelDrain, RecoverRegion, RegionGuard;
    if !Bypasses(op) {
      OthersFollowTables(s, op);
    } else {
      AppliedBypass(s, op);
      if op.OpCancelDrain? { CancelDrainFollowsIff(s, op.region, op.a); } else { RecoverRegionFollowsIff(s, op.region, op.a); }
    }
  }

  // ---- Along whole runs ----

  ghost predicate FollowsAlong(s: State, ops: seq<Op>)
    decreases |ops|
  {
    ops == [] || (var t := Apply(s, ops[0]).state; Follows(s, t) && FollowsAlong(t, ops[1..]))
  }

  ghost predicate NeverOutside(s: State, ops: seq<Op>)
    decreases |ops|
  {
    ops == [] || (!StepsOutside(s, ops[0]) && NeverOutside(Apply(s, ops[0]).state, ops[1..]))
  }

  /** All lifecycle changes of a run are in the tables if and only if no call of the run is one of those two. */
  lemma {:induction false} FollowsAlongIff(s: State, ops: seq<Op>)
    requires Inv(s) && s.nextReservation + |ops| <= U64_MAX + 1
    ensures FollowsAlong(s, ops) <==> NeverOutside(s, ops)
    decreases |ops|
  {
    if ops != [] {
      hide Inv, Apply, Follows, StepsOutside;
      StepKeeps(s, ops[0]);
      LifecyclesFollowTablesIff(s, ops[0]);
      FollowsAlongIff(Apply(s, ops[0]).state, ops[1..]);
    }
  }

  // ---- Runs that step outside ----

  lemma BeginDrainSparesAuthority(s: State, region: RegionId, a: Authority)
    ensures BeginDrain(s, region, a).state.epoch == s.epoch
  {
    hide Settle, WithdrawAll, Acceptable, RegionAllowed, Transfer;
  }

  /** Whoever may begin a drain may cancel it at once, and that steps outside the table. */
  lemma DrainThenCancel(s: State, region: RegionId, a: Authority)
    requires Inv(s) && RegionGuard(s, region, a) == NoError
    requires RegionAllowed(s.regions[region].lifecycle, RegionLifecycle.Draining)
    ensures StepsOutside(BeginDrain(s, region, a).state, OpCancelDrain(region, a))
  {
    Fencing.BeginDrainSucceeds(s, region, a);
    BeginDrainSparesAuthority(s, region, a);
    hide Inv, BeginDrain, RegionAllowed;
  }

  lemma ServingMayDrain()
    ensures RegionGuard(Serving(), 1, OPERATOR) == NoError
    ensures RegionAllowed(Serving().regions[1].lifecycle, RegionLifecycle.Draining)
  {
  }

  lemma AppliedDrain(s: State, region: RegionId, a: Authority)
    ensures Apply(s, OpBeginDrain(region, a)) == BeginDrain(s, region, a)
  {
    hide BeginDrain;
  }

  /** A run from a new coordinator in which a drain is begun and then cancelled: ONLINE again, against the table. */
  lemma CancelledDrainStepsOutside() returns (ops: seq<Op>, last: Op)
    ensures var s := Run(Initial(1), ops);
            Inv(s) && StepsOutside(s, last) && !Follows(s, Apply(s, last).state)
  {
    hide Run, Apply, BeginDrain, RegionGuard, RegionAllowed, Inv, Follows, Serving, StepsOutside;
    ops, last := Service() + [OpBeginDrain(1, OPERATOR)], OpCancelDrain(1, OPERATOR);
    ReachableInv(1, Service());
    ReachableInv(1, ops);
    ServingRun();
    ServingMayDrain();
    DrainThenCancel(Serving(), 1, OPERATOR);
    AppliedDrain(Serving(), 1, OPERATOR);
    RunThen(Initial(1), Service(), OpBeginDrain(1, OPERATOR));
    LifecyclesFollowTablesIff(Run(Initial(1), ops), last);
  }
}
