/**
 What the operations leave alone: structure, pools, quiet regions, the set of reservations, and, when
 reservations are fenced, the buckets they were not in.
 */
module Effects {
  import opened Words
  import opened Types
  import opened Ledgers
  import opened Records
  import opened Operations
  import opened Invariants
  import opened Preservation
  import opened Refusals
  import Fencing
  import Progress
  import Selection

  // ---- One region, all regions ----

  /** Same structure, and a region that passed the revalidation check still does. */
  predicate Calm(rr: RegionRecord, rr': RegionRecord) {
    rr'.descriptor == rr.descriptor && (RevalidatedQuietly(rr) ==> RevalidatedQuietly(rr'))
  }

  /** Calm, and only the promised and the unavailable buckets may have changed. */
  predicate Steady(rr: RegionRecord, rr': RegionRecord) {
    && Calm(rr, rr')
    && rr'.ledger.online == rr.ledger.online && rr'.ledger.free == rr.ledger.free && rr'.ledger.draining == rr.ledger.draining
  }

  predicate AllCalm(rs: map<RegionId, RegionRecord>, rs': map<RegionId, RegionRecord>) {
    rs'.Keys == rs.Keys && forall rid :: rid in rs ==> Calm(rs[rid], rs'[rid])
  }

  predicate AllSteady(rs: map<RegionId, RegionRecord>, rs': map<RegionId, RegionRecord>) {
    rs'.Keys == rs.Keys && forall rid :: rid in rs ==> Steady(rs[rid], rs'[rid])
  }

  /** Current evidence is on record. */
  predicate Evidenced(rs: map<RegionId, RegionRecord>) {
    forall rid :: rid in rs ==> (rs[rid].evidenceStatus.Current? ==> rs[rid].hasEvidence)
  }

  lemma InvEvidenced(s: State)
    requires Inv(s)
    ensures Evidenced(s.regions)
  {
    forall rid | rid in s.regions ensures s.regions[rid].evidenceStatus.Current? ==> s.regions[rid].hasEvidence {
      assert RegionOk(s, rid);
    }
  }

  // ---- Building blocks ----

  lemma CalmSame(rs: map<RegionId, RegionRecord>)
    ensures AllCalm(rs, rs) && AllSteady(rs, rs)
  {
  }

  lemma SteadyIsCalm(rs: map<RegionId, RegionRecord>, rs': map<RegionId, RegionRecord>)
    requires AllSteady(rs, rs')
    ensures AllCalm(rs, rs')
  {
  }

  lemma SteadyTransitive(rs: map<RegionId, RegionRecord>, rs': map<RegionId, RegionRecord>, rs'': map<RegionId, RegionRecord>)
    requires AllSteady(rs, rs') && AllSteady(rs', rs'')
    ensures AllSteady(rs, rs'')
  {
    hide RevalidatedQuietly;
    forall rid | rid in rs ensures Steady(rs[rid], rs''[rid]) { assert Steady(rs[rid], rs'[rid]) && Steady(rs'[rid], rs''[rid]); }
  }

  lemma CalmTransitive(rs: map<RegionId, RegionRecord>, rs': map<RegionId, RegionRecord>, rs'': map<RegionId, RegionRecord>)
    requires AllCalm(rs, rs') && AllCalm(rs', rs'')
    ensures AllCalm(rs, rs'')
  {
    hide RevalidatedQuietly;
    forall rid | rid in rs ensures Calm(rs[rid], rs''[rid]) { assert Calm(rs[rid], rs'[rid]) && Calm(rs'[rid], rs''[rid]); }
  }

  lemma PutCalm(rs: map<RegionId, RegionRecord>, rid: RegionId, rr: RegionRecord)
    requires rid in rs && Calm(rs[rid], rr)
    ensures AllCalm(rs, rs[rid := rr])
  {
    hide RevalidatedQuietly;
    assert rs[rid := rr].Keys == rs.Keys;
  }

  lemma PutSteady(rs: map<RegionId, RegionRecord>, rid: RegionId, rr: RegionRecord)
    requires rid in rs && Steady(rs[rid], rr)
    ensures AllSteady(rs, rs[rid := rr])
  {
    hide RevalidatedQuietly;
    assert rs[rid := rr].Keys == rs.Keys;
  }

  lemma SettleSteady(rs: map<RegionId, RegionRecord>, table: map<ReservationId, Reservation>, cause: Cause)
    ensures AllCalm(rs, Settle(rs, table, cause))
    ensures !cause.DrainStart? ==> AllSteady(rs, Settle(rs, table, cause))
    ensures Evidenced(rs) ==> Evidenced(Settle(rs, table, cause))
  {
    hide Held;
  }

  lemma SuspendSteady(rs: map<RegionId, RegionRecord>, ids: set<RegionId>)
    requires Evidenced(rs)
    ensures AllSteady(rs, SuspendAll(rs, ids))
  {
  }

  lemma ForgetSteady(rs: map<RegionId, RegionRecord>, p: ProviderId)
    ensures AllSteady(rs, ForgetBacked(rs, p))
  {
  }

  lemma RetireSteady(rs: map<RegionId, RegionRecord>, p: ProviderId)
    ensures AllSteady(rs, RetireBacked(rs, p))
  {
  }

  // ---- States ----

  /** No reservation appears or is forgotten, and every region is calm. */
  predicate Undisturbed(s: State, t: State) { t.reservations.Keys == s.reservations.Keys && AllCalm(s.regions, t.regions) }

  /** Nor does any pool change. */
  predicate CalmStep(s: State, t: State) { t.pools == s.pools && Undisturbed(s, t) }

  predicate SteadyStep(s: State, t: State) {
    t.pools == s.pools && t.reservations.Keys == s.reservations.Keys && AllSteady(s.regions, t.regions)
  }

  lemma RegionCalm(s: State, rid: RegionId, rr: RegionRecord)
    requires rid in s.regions && Calm(s.regions[rid], rr)
    ensures CalmStep(s, WithRegion(s, rid, rr))
  {
    hide AllCalm, Calm;
    PutCalm(s.regions, rid, rr);
  }

  lemma ReservationCalm(s: State, id: ReservationId, r: Reservation, rr: RegionRecord)
    requires id in s.reservations && r.region in s.regions && Calm(s.regions[r.region], rr)
    ensures CalmStep(s, WithReservation(s, r, id, rr))
  {
    hide AllCalm, Calm;
    PutCalm(s.regions, r.region, rr);
    assert s.reservations[id := r].Keys == s.reservations.Keys;
  }

  lemma FollowCalm(s: State, t: State, p: ProviderId, from: Lifecycle, to: Lifecycle)
    requires CalmStep(s, t)
    ensures CalmStep(s, Follow(t, p, from, to))
  {
    hide AllCalm;
  }

  lemma CalmStepTransitive(s: State, t: State, u: State)
    requires CalmStep(s, t) && CalmStep(t, u)
    ensures CalmStep(s, u)
  {
    hide AllCalm;
    CalmTransitive(s.regions, t.regions, u.regions);
  }

  lemma LedgerCalm(rr: RegionRecord, l: Ledger)
    ensures Calm(rr, rr.(ledger := l))
  {
  }

  lemma StepSame(s: State, t: State)
    requires t.pools == s.pools && t.reservations.Keys == s.reservations.Keys && t.regions == s.regions
    ensures CalmStep(s, t) && SteadyStep(s, t)
  {
    CalmSame(s.regions);
    hide AllCalm, AllSteady;
  }

  lemma SteadyStepIsCalm(s: State, t: State)
    requires SteadyStep(s, t)
    ensures CalmStep(s, t)
  {
    hide AllCalm, AllSteady;
    SteadyIsCalm(s.regions, t.regions);
  }

  lemma WithdrawSteady(s: State, ids: set<ReservationId>, cause: Cause)
    ensures var t := Withdraw(s, ids, cause);
            && CalmStep(s, t) && (!cause.DrainStart? ==> SteadyStep(s, t))
            && (Evidenced(s.regions) ==> Evidenced(t.regions))
            && t.providers == s.providers && t.workers == s.workers
  {
    var t := Withdraw(s, ids, cause);
    assert t.reservations.Keys == s.reservations.Keys;
    hide Settle, WithdrawAll, AllCalm, AllSteady, Evidenced;
    SettleSteady(s.regions, t.reservations, cause);
  }

  // ---- The fencing operations ----

  lemma SetEpochSteady(s: State, e: Epoch)
    requires Inv(s)
    ensures SteadyStep(s, SetEpoch(s, e))
  {
    InvEvidenced(s);
    StepSame(s, s);
    hide Inv, AllCalm, AllSteady, Evidenced, Settle, WithdrawAll, SuspendAll, Dismiss;
    if e > s.epoch {
      var t := Withdraw(s, s.reservations.Keys, EpochAdvance);
      WithdrawSteady(s, s.reservations.Keys, EpochAdvance);
      SuspendSteady(t.regions, t.regions.Keys);
      SteadyTransitive(s.regions, t.regions, SuspendAll(t.regions, t.regions.Keys));
    }
  }

  lemma SteadyThen(s: State, t: State, rs: map<RegionId, RegionRecord>, ps: map<ProviderId, ProviderRecord>)
    requires SteadyStep(s, t) && AllSteady(t.regions, rs)
    ensures SteadyStep(s, t.(regions := rs).(providers := ps)) && SteadyStep(s, t.(regions := rs, providers := ps))
  {
    hide AllSteady;
    SteadyTransitive(s.regions, t.regions, rs);
  }

  lemma ProviderAside(s: State, ps: map<ProviderId, ProviderRecord>)
    ensures SteadyStep(s, s.(providers := ps))
  {
    CalmSame(s.regions);
    hide AllSteady;
  }

  lemma RegisterProviderSteady(s: State, d: ProviderDescriptor, a: Authority)
    ensures SteadyStep(s, RegisterProvider(s, d, a).state)
  {
    StepSame(s, s);
    hide SteadyStep, CalmStep, AllSteady, Evidenced, Withdraw, ForgetBacked, ProviderFault;
    if ProviderFault(s, d, a) == NoError {
      var rec := ProviderRecord(d, Lifecycle.Registered);
      if d.id in s.providers {
        var t := Withdraw(s, OfProvider(s, d.id), Fencing);
        WithdrawSteady(s, OfProvider(s, d.id), Fencing);
        ForgetSteady(t.regions, d.id);
        SteadyThen(s, t, ForgetBacked(t.regions, d.id), t.providers[d.id := rec]);
      } else {
        ProviderAside(s, s.providers[d.id := rec]);
      }
    }
  }

  lemma RegisterPolicySteady(s: State, d: PolicyDescriptor, a: Authority)
    ensures SteadyStep(s, RegisterPolicy(s, d, a).state)
  {
    StepSame(s, s);
    hide AllCalm, AllSteady, Evidenced, Settle, WithdrawAll, PolicyFault;
    WithdrawSteady(s, OfPolicy(s, d.id), Fencing);
  }

  /** Pool registration replaces one pool; the rest is as after fencing. */
  lemma RegisterPoolSteady(s: State, d: PoolDescriptor, a: Authority)
    ensures var t := RegisterPool(s, d, a).state;
            && t.reservations.Keys == s.reservations.Keys && AllSteady(s.regions, t.regions)
            && t.pools == if PoolFault(s, d, a) == NoError then s.pools[d.id := d] else s.pools
  {
    StepSame(s, s);
    hide AllCalm, AllSteady, Evidenced, Settle, WithdrawAll, PoolFault;
    WithdrawSteady(s, OfPool(s, d.id), Fencing);
  }

  lemma RetireProviderSteady(s: State, p: ProviderId, a: Authority)
    ensures SteadyStep(s, RetireProvider(s, p, a).state)
  {
    StepSame(s, s);
    hide SteadyStep, CalmStep, AllSteady, Evidenced, Withdraw, RetireBacked, Acceptable, ProviderAllowed;
    if RetireProvider(s, p, a).error == NoError {
      var t := Withdraw(s, OfProvider(s, p), Fencing);
      WithdrawSteady(s, OfProvider(s, p), Fencing);
      RetireSteady(t.regions, p);
      SteadyThen(s, t, RetireBacked(t.regions, p), t.providers[p := t.providers[p].(lifecycle := Lifecycle.Retired)]);
    }
  }

  lemma RetireRegionSteady(s: State, region: RegionId, a: Authority)
    ensures SteadyStep(s, RetireRegion(s, region, a).state)
  {
    StepSame(s, s);
    hide AllCalm, AllSteady, Evidenced, Settle, WithdrawAll, Acceptable, RegionAllowed;
    if RetireRegion(s, region, a).error == NoError {
      var t := Withdraw(s, OfRegion(s, region), Fencing);
      WithdrawSteady(s, OfRegion(s, region), Fencing);
      Fencing.WithdrawnRegion(s, OfRegion(s, region), Fencing, region);
      var rr := t.regions[region].(lifecycle := RegionLifecycle.Retired);
      PutSteady(t.regions, region, rr);
      SteadyTransitive(s.regions, t.regions, t.regions[region := rr]);
    }
  }

  lemma MarkWorkerDeadSteady(s: State, w: WorkerId, a: Authority)
    requires Inv(s)
    ensures SteadyStep(s, MarkWorkerDead(s, w, a).state)
  {
    InvEvidenced(s);
    StepSame(s, s);
    hide Inv, AllCalm, AllSteady, Evidenced, Settle, WithdrawAll, SuspendAll, Acceptable;
    if MarkWorkerDead(s, w, a).error == NoError {
      var vouched := Vouched(s, w, s.workers[w].boot);
      var t := Withdraw(s, OfWorker(s, w, vouched), Fencing);
      WithdrawSteady(s, OfWorker(s, w, vouched), Fencing);
      SuspendSteady(t.regions, vouched);
      SteadyTransitive(s.regions, t.regions, SuspendAll(t.regions, vouched));
    }
  }

  // ---- The others ----

  lemma MemberCalm(s: State, rid: RegionId, rr: RegionRecord, pools: map<PoolId, PoolDescriptor>)
    requires rid in s.regions && rr == s.regions[rid].(memberships := rr.memberships)
    ensures Undisturbed(s, s.(pools := pools)) && Undisturbed(s, s.(pools := pools, regions := s.regions[rid := rr]))
  {
    CalmSame(s.regions);
    hide AllCalm;
    PutCalm(s.regions, rid, rr);
  }

  lemma PoolCalm(s: State, pools: map<PoolId, PoolDescriptor>)
    ensures Undisturbed(s, s.(pools := pools))
  {
    CalmSame(s.regions);
    hide AllCalm;
  }

  lemma AddPoolMemberCalm(s: State, pool: PoolId, m: PoolMember, a: Authority)
    ensures var t := AddPoolMember(s, pool, m, a).state;
            && Undisturbed(s, t)
            && (t.pools == s.pools || (pool in s.pools && MemberCurrent(s, m)
                  && t.pools == s.pools[pool := s.pools[pool].(members := s.pools[pool].members + [m])]))
  {
    PoolCalm(s, s.pools);
    hide Undisturbed, Acceptable, FirstOf;
    if AddPoolMember(s, pool, m, a).error == NoError {
      var d, rr := s.pools[pool], s.regions[m.region];
      MemberCalm(s, m.region, rr.(memberships := rr.memberships + {(pool, d.generation)}), s.pools[pool := d.(members := d.members + [m])]);
    }
  }

  lemma RemovePoolMemberCalm(s: State, pool: PoolId, region: RegionId, a: Authority)
    ensures var t := RemovePoolMember(s, pool, region, a).state;
            && Undisturbed(s, t)
            && (t.pools == s.pools || (pool in s.pools
                  && t.pools == s.pools[pool := s.pools[pool].(members := Without(s.pools[pool].members, region))]))
  {
    PoolCalm(s, s.pools);
    hide Undisturbed, Acceptable, Without;
    if RemovePoolMember(s, pool, region, a).error == NoError {
      var d := s.pools[pool];
      var pools := s.pools[pool := d.(members := Without(d.members, region))];
      PoolCalm(s, pools);
      if region in s.regions {
        var rr := s.regions[region];
        MemberCalm(s, region, rr.(memberships := set m | m in rr.memberships && m.0 != pool), pools);
      }
    }
  }

  lemma PublishAttachmentCalm(s: State, e: AttachmentEvidence, a: Authority)
    ensures CalmStep(s, PublishAttachment(s, e, a).state)
  {
    StepSame(s, s);
    hide AllCalm, AllSteady, Acceptable, PutAttachment;
    if e.region in s.regions {
      var rr := s.regions[e.region];
      PutCalm(s.regions, e.region, rr.(attachments := PutAttachment(rr.attachments, e)));
    }
  }

  lemma StartDrainingCalm(t: State, region: RegionId)
    requires region in t.regions
    ensures CalmStep(t, StartDraining(t, region).state)
  {
    hide CalmStep, Transfer, WithRegion, Follow;
    var rr := t.regions[region];
    var m := Transfer(rr.ledger, Free, Bucket.Draining, rr.ledger.free);
    RegionCalm(t, region, rr.(ledger := m.ledger));
    var rr' := rr.(ledger := m.ledger, lifecycle := RegionLifecycle.Draining);
    RegionCalm(t, region, rr');
    FollowCalm(t, WithRegion(t, region, rr'), rr.descriptor.provider, Lifecycle.Online, Lifecycle.Draining);
  }

  lemma BeginDrainCalm(s: State, region: RegionId, a: Authority)
    ensures CalmStep(s, BeginDrain(s, region, a).state)
  {
    StepSame(s, s);
    hide CalmStep, Evidenced, Withdraw, Acceptable, RegionAllowed, StartDraining;
    if RegionGuard(s, region, a) == NoError {
      var t := Withdraw(s, OfRegion(s, region), DrainStart);
      WithdrawSteady(s, OfRegion(s, region), DrainStart);
      Fencing.WithdrawnRegion(s, OfRegion(s, region), DrainStart, region);
      StartDrainingCalm(t, region);
      CalmStepTransitive(s, t, StartDraining(t, region).state);
    }
  }

  lemma CompleteDrainCalm(s: State, region: RegionId, a: Authority)
    ensures CalmStep(s, CompleteDrain(s, region, a).state)
  {
    StepSame(s, s);
    hide CalmStep, Acceptable, Transfer, WithRegion, Follow;
    if RegionGuard(s, region, a) == NoError {
      var rr := s.regions[region];
      var m := Transfer(rr.ledger, Bucket.Draining, Bucket.Unavailable, rr.ledger.draining);
      RegionCalm(s, region, rr.(ledger := m.ledger));
      var rr' := rr.(ledger := m.ledger, lifecycle := RegionLifecycle.Unavailable);
      RegionCalm(s, region, rr');
      FollowCalm(s, WithRegion(s, region, rr'), rr.descriptor.provider, Lifecycle.Draining, Lifecycle.Offline);
    }
  }

  lemma CancelDrainCalm(s: State, region: RegionId, a: Authority)
    ensures CalmStep(s, CancelDrain(s, region, a).state)
  {
    StepSame(s, s);
    hide CalmStep, Acceptable, Transfer, WithRegion;
    if RegionGuard(s, region, a) == NoError {
      var rr := s.regions[region];
      var m := Transfer(rr.ledger, Bucket.Draining, Free, rr.ledger.draining);
      RegionCalm(s, region, rr.(ledger := m.ledger));
      RegionCalm(s, region, rr.(ledger := m.ledger, lifecycle := RegionLifecycle.Online));
    }
  }

  lemma FencedRegionCalm(s: State, region: RegionId, ids: set<ReservationId>, to: RegionLifecycle)
    requires region in s.regions && !to.RevalidationRequired?
    ensures var t := Withdraw(s, ids, Fencing);
            region in t.regions && CalmStep(s, WithRegion(t, region, t.regions[region].(lifecycle := to)))
  {
    hide CalmStep, Evidenced, Withdraw, WithRegion;
    var t := Withdraw(s, ids, Fencing);
    WithdrawSteady(s, ids, Fencing);
    Fencing.WithdrawnRegion(s, ids, Fencing, region);
    var rr := t.regions[region].(lifecycle := to);
    RegionCalm(t, region, rr);
    CalmStepTransitive(s, t, WithRegion(t, region, rr));
  }

  lemma MarkUnavailableCalm(s: State, region: RegionId, a: Authority)
    ensures CalmStep(s, MarkUnavailable(s, region, a).state)
  {
    StepSame(s, s);
    hide CalmStep, Withdraw, Acceptable, RegionAllowed, Transfer;
    if MarkUnavailable(s, region, a).state != s {
      var rr := s.regions[region];
      var m := Transfer(rr.ledger, Free, Bucket.Unavailable, rr.ledger.free);
      RegionCalm(s, region, rr.(ledger := m.ledger));
      var u := WithRegion(s, region, rr.(ledger := m.ledger));
      if m.ok {
        FencedRegionCalm(u, region, OfRegion(s, region), RegionLifecycle.Unavailable);
        CalmStepTransitive(s, u, MarkUnavailable(s, region, a).state);
      }
    }
  }

  lemma RecoverRegionCalm(s: State, region: RegionId, a: Authority)
    ensures CalmStep(s, RecoverRegion(s, region, a).state)
  {
    StepSame(s, s);
    hide CalmStep, Acceptable, Transfer, WithRegion;
    if RegionGuard(s, region, a) == NoError {
      var rr := s.regions[region];
      var m := Transfer(rr.ledger, Bucket.Unavailable, Free, rr.ledger.unavailable);
      RegionCalm(s, region, rr.(ledger := m.ledger, lifecycle := RegionLifecycle.Declared,
                                evidenceStatus := EvidenceStatus.RevalidationRequired));
    }
  }

  /** A reservation may be new and then is RESERVED; the rest of the table keeps its ids. */
  predicate Grows(s: State, t: State) {
    && t.pools == s.pools && AllCalm(s.regions, t.regions) && s.reservations.Keys <= t.reservations.Keys
    && (forall id :: id in t.reservations && id !in s.reservations ==> t.reservations[id].state.Reserved?)
  }

  lemma ReserveOnCalm(s: State, req: Request, a: Authority, now: U64, rid: RegionId)
    requires rid in s.regions
    ensures Grows(s, ReserveOn(s, req, a, now, rid).state)
  {
    ReserveShape(s, req, a, now, rid);
    BindingIs(s, req, a, now, rid);
    hide AllCalm, Transfer, Mint, ReserveOn, Bind;
    var rr := s.regions[rid];
    var l := Transfer(rr.ledger, Free, Bucket.Reserved, req.requiredBytes).ledger;
    LedgerCalm(rr, l);
    hide Calm;
    PutCalm(s.regions, rid, rr.(ledger := l));
  }

  lemma CountingGrows(s: State, n: nat)
    ensures Grows(s, s) && Grows(s, s.(nextSelection := n))
  {
    CalmSame(s.regions);
    hide AllCalm;
  }

  lemma ReserveCalm(s: State, req: Request, a: Authority, now: U64)
    ensures Grows(s, Reserve(s, req, a, now).state)
  {
    hide Grows, ReserveFault, Selection.RankedIds, ReserveOn;
    CountingGrows(s, s.nextSelection + 1);
    var ids := Selection.RankedIds(s, req);
    if ids != [] && ids[0] in s.regions { ReserveOnCalm(s, req, a, now, ids[0]); }
  }

  lemma BindingIs(s: State, req: Request, a: Authority, now: U64, rid: RegionId)
    requires rid in s.regions
    ensures var r := Bind(s, req, a, now, rid); r.state.Reserved? && r.region == rid
  {
    hide Mint;
  }

  lemma CommitCalm(s: State, id: ReservationId, a: Authority)
    ensures CalmStep(s, Commit(s, id, a).state)
  {
    StepSame(s, s);
    hide CalmStep, BindingFault, HolderFault, FreshnessFault, Acceptable, Transfer, WithRegion, WithReservation;
    if id in s.reservations && BindingFault(s, s.reservations[id]) == NoError {
      Progress.RegionBound(s, id, a);
      var r := s.reservations[id];
      var rr := s.regions[r.region];
      var l := Transfer(rr.ledger, Bucket.Reserved, Bucket.Committed, r.bytes).ledger;
      RegionCalm(s, r.region, rr.(ledger := l));
      ReservationCalm(s, id, r.(state := ReservationState.Committed), rr.(ledger := l));
    }
  }

  lemma ReleaseCalm(s: State, id: ReservationId, a: Authority)
    ensures CalmStep(s, Release(s, id, a).state)
  {
    StepSame(s, s);
    hide CalmStep, Acceptable, Transfer, WithRegion, WithReservation;
    if id in s.reservations && s.reservations[id].region in s.regions {
      var r := s.reservations[id];
      var rr := s.regions[r.region];
      var l := Transfer(rr.ledger, if r.state.Reserved? then Bucket.Reserved else Bucket.Committed, Free, r.bytes).ledger;
      RegionCalm(s, r.region, rr.(ledger := l));
      ReservationCalm(s, id, r.(state := Released), rr.(ledger := l));
    }
  }

  /** Evidence rewrites one region's record under the same structure. */
  predicate Rewrites(s: State, t: State, region: RegionId) {
    && t.pools == s.pools && t.reservations == s.reservations && t.regions.Keys == s.regions.Keys
    && (forall rid :: rid in s.regions ==> t.regions[rid].descriptor == s.regions[rid].descriptor)
    && (forall rid :: rid in s.regions && rid != region ==> t.regions[rid] == s.regions[rid])
  }

  lemma RewriteOne(s: State, rid: RegionId, rr: RegionRecord, ps: map<ProviderId, ProviderRecord>)
    requires rid in s.regions && rr.descriptor == s.regions[rid].descriptor
    ensures Rewrites(s, s.(regions := s.regions[rid := rr]), rid)
    ensures Rewrites(s, s.(regions := s.regions[rid := rr], providers := ps), rid)
  {
    assert s.regions[rid := rr].Keys == s.regions.Keys;
  }

  lemma PublishEvidenceElsewhere(s: State, e: RegionEvidence, a: Authority)
    ensures Rewrites(s, PublishEvidence(s, e, a).state, e.header.region)
  {
    assert Rewrites(s, s, e.header.region);
    hide Rewrites, SetOnline, Acceptable, RegionAllowed, Reflect, HealthTarget;
    if EvidenceFault(s, e, a) == NoError {
      hide EvidenceFault;
      var rid := e.header.region;
      var rr := s.regions[rid];
      var m := SetOnline(rr.ledger, e.onlineCapacityBytes);
      var taken := TakeEvidence(rr, m.ledger, e);
      var done := taken.(lifecycle := HealthTarget(e.health));
      RewriteOne(s, rid, rr.(ledger := m.ledger), s.providers);
      RewriteOne(s, rid, taken, s.providers);
      RewriteOne(s, rid, done, Reflect(s.providers, done));
    }
  }

  /** Region registration replaces or adds one record; the others are as after fencing. */
  lemma RegisterRegionSteady(s: State, d: RegionDescriptor, a: Authority)
    ensures var t := RegisterRegion(s, d, a).state;
            && t.pools == s.pools && t.reservations.Keys == s.reservations.Keys
            && t.regions.Keys == (if RegionFault(s, d, a) == NoError then s.regions.Keys + {d.id} else s.regions.Keys)
            && (RegionFault(s, d, a) == NoError ==>
                  d.id in t.regions && t.regions[d.id] == FreshRegion(d, RegionLifecycle.Declared))
            && (forall rid :: rid in s.regions && (rid != d.id || RegionFault(s, d, a) != NoError) ==> Steady(s.regions[rid], t.regions[rid]))
  {
    CalmSame(s.regions);
    hide Evidenced, Settle, WithdrawAll, RegionFault, Calm, FreshRegion;
    WithdrawSteady(s, OfRegion(s, d.id), Fencing);
  }

  lemma RegisterConsumerCalm(s: State, c: ConsumerId, g: Generation, a: Authority)
    ensures CalmStep(s, RegisterConsumer(s, c, g, a).state)
  {
    hide CalmStep, SteadyStep, Acceptable;
    StepSame(s, s);
    StepSame(s, s.(consumers := s.consumers[c := g]));
  }

  lemma RegisterDomainCalm(s: State, d: DomainDescriptor, a: Authority)
    ensures CalmStep(s, RegisterDomain(s, d, a).state)
  {
    hide CalmStep, SteadyStep, Acceptable;
    StepSame(s, s);
    StepSame(s, s.(domains := s.domains[d.id := DomainRecord(d, Lifecycle.Registered)]));
  }

  lemma RegisterWorkerCalm(s: State, w: WorkerId, boot: BootId, epoch: Epoch, pid: U64, a: Authority)
    ensures CalmStep(s, RegisterWorker(s, w, boot, epoch, pid, a).state)
  {
    hide CalmStep, SteadyStep;
    StepSame(s, s);
    StepSame(s, s.(workers := s.workers[w := WorkerRecord(boot, epoch, pid, true, false)]));
  }

  lemma NoteWorkerHandleCalm(s: State, w: WorkerId, holds: bool)
    ensures CalmStep(s, NoteWorkerHandle(s, w, holds))
  {
    hide CalmStep, SteadyStep;
    StepSame(s, s);
    if w in s.workers { StepSame(s, s.(workers := s.workers[w := s.workers[w].(holdsHandle := holds)])); }
  }

  lemma SelectCalm(s: State, req: Request, a: Authority)
    ensures CalmStep(s, Select(s, req, a).state)
  {
    hide CalmStep, SteadyStep, Acceptable;
    StepSame(s, s);
    StepSame(s, s.(nextSelection := s.nextSelection + 1));
  }

  // ---- All at once ----

  /** The operations with their own statements above: they change pools, add records, or take evidence. */
  predicate Stirs(op: Op) {
    || op.OpRegisterRegion? || op.OpRegisterPool? || op.OpAddPoolMember? || op.OpRemovePoolMember?
    || op.OpPublishEvidence? || op.OpReserve?
  }

  lemma StructureCalm(s: State, op: Op)
    requires Inv(s) && !Stirs(op) && (IsConfiguration(op) || IsLifecycle(op))
    ensures CalmStep(s, Apply(s, op).state)
  {
    hide Inv, CalmStep, SteadyStep, SetEpoch, RegisterConsumer, RegisterProvider, RegisterDomain, RegisterRegion, RegisterPool;
    hide RegisterPolicy, AddPoolMember, RemovePoolMember, PublishEvidence, PublishAttachment, BeginDrain, CompleteDrain;
    hide CancelDrain, MarkUnavailable, RecoverRegion, RetireProvider, RetireRegion, RegisterWorker, MarkWorkerDead;
    hide NoteWorkerHandle, Select, Reserve, Commit, Release;
    match op
    case OpSetEpoch(e) => SetEpochSteady(s, e); SteadyStepIsCalm(s, SetEpoch(s, e));
    case OpRegisterProvider(d, a) => RegisterProviderSteady(s, d, a); SteadyStepIsCalm(s, RegisterProvider(s, d, a).state);
    case OpRegisterPolicy(d, a) => RegisterPolicySteady(s, d, a); SteadyStepIsCalm(s, RegisterPolicy(s, d, a).state);
    case OpRetireProvider(p, a) => RetireProviderSteady(s, p, a); SteadyStepIsCalm(s, RetireProvider(s, p, a).state);
    case OpRetireRegion(region, a) => RetireRegionSteady(s, region, a); SteadyStepIsCalm(s, RetireRegion(s, region, a).state);
    case OpPublishAttachment(e, a) => PublishAttachmentCalm(s, e, a);
    case OpBeginDrain(region, a) => BeginDrainCalm(s, region, a);
    case OpCompleteDrain(region, a) => CompleteDrainCalm(s, region, a);
    case OpCancelDrain(region, a) => CancelDrainCalm(s, region, a);
    case OpMarkUnavailable(region, a) => MarkUnavailableCalm(s, region, a);
    case OpRecoverRegion(region, a) => RecoverRegionCalm(s, region, a);
    case OpRegisterConsumer(c, g, a) => RegisterConsumerCalm(s, c, g, a);
    case OpRegisterDomain(d, a) => RegisterDomainCalm(s, d, a);
    case _ =>
  }

  lemma UsageCalm(s: State, op: Op)
    requires Inv(s) && !Stirs(op) && IsUsage(op)
    ensures CalmStep(s, Apply(s, op).state)
  {
    hide Inv, CalmStep, SteadyStep, SetEpoch, RegisterConsumer, RegisterProvider, RegisterDomain, RegisterRegion, RegisterPool;
    hide RegisterPolicy, AddPoolMember, RemovePoolMember, PublishEvidence, PublishAttachment, BeginDrain, CompleteDrain;
    hide CancelDrain, MarkUnavailable, RecoverRegion, RetireProvider, RetireRegion, RegisterWorker, MarkWorkerDead;
    hide NoteWorkerHandle, Select, Reserve, Commit, Release;
    match op
    case OpMarkWorkerDead(w, a) => MarkWorkerDeadSteady(s, w, a); SteadyStepIsCalm(s, MarkWorkerDead(s, w, a).state);
    case OpCommit(id, a) => CommitCalm(s, id, a);
    case OpRelease(id, a) => ReleaseCalm(s, id, a);
    case OpRegisterWorker(w, boot, epoch, pid, a) => RegisterWorkerCalm(s, w, boot, epoch, pid, a);
    case OpNoteWorkerHandle(w, holds) => NoteWorkerHandleCalm(s, w, holds);
    case OpSelect(req, a) => SelectCalm(s, req, a);
    case _ =>
  }

  /** Nineteen of the operations leave pools, structure, quiet regions and the set of reservations alone. */
  lemma OthersAreCalm(s: State, op: Op)
    requires Inv(s) && !Stirs(op)
    ensures CalmStep(s, Apply(s, op).state)
  {
    hide Inv, CalmStep, Apply;
    if IsUsage(op) { UsageCalm(s, op); } else { StructureCalm(s, op); }
  }
}
