/** What only moves forward: epochs, generations, retirement, and the end of a reservation's life. */
module Progress {
  import opened Words
  import opened Types
  import opened Ledgers
  import opened Records
  import opened Operations
  import opened Invariants
  import opened Preservation
  import Selection

  // ---- The order, table by table ----

  /** A reservation whose story is over: released, fenced, cancelled, or left for revalidation. */
  predicate Settled(r: Reservation) { !Live(r) && !r.state.Requested? && !r.state.Evaluated? }

  /** Same bindings and bytes; the state moves along the table or not at all; nothing becomes live or leaves rest. */
  predicate Successor(r: Reservation, r': Reservation) {
    && r' == r.(state := r'.state)
    && (r'.state == r.state || ReservationAllowed(r.state, r'.state))
    && (Live(r') ==> Live(r)) && (r'.state.Active? ==> r.state.Active?)
    && (Settled(r) ==> r' == r)
  }

  predicate Evolves(rs: map<ReservationId, Reservation>, rs': map<ReservationId, Reservation>) {
    forall id :: id in rs ==> id in rs' && Successor(rs[id], rs'[id])
  }

  predicate ProviderAdvances(p: ProviderRecord, p': ProviderRecord) {
    && p.descriptor.generation <= p'.descriptor.generation
    && (p.lifecycle.Retired? && p'.descriptor.generation == p.descriptor.generation ==> p'.lifecycle.Retired?)
  }

  predicate ProvidersAdvance(ps: map<ProviderId, ProviderRecord>, ps': map<ProviderId, ProviderRecord>) {
    forall p :: p in ps ==> p in ps' && ProviderAdvances(ps[p], ps'[p])
  }

  predicate RegionAdvances(rr: RegionRecord, rr': RegionRecord) {
    && rr.descriptor.generation <= rr'.descriptor.generation
    && (rr.lifecycle.Retired? && rr'.descriptor.generation == rr.descriptor.generation ==> rr'.lifecycle.Retired?)
  }

  predicate RegionsAdvance(rs: map<RegionId, RegionRecord>, rs': map<RegionId, RegionRecord>) {
    forall rid :: rid in rs ==> rid in rs' && RegionAdvances(rs[rid], rs'[rid])
  }

  predicate PoolsAdvance(ps: map<PoolId, PoolDescriptor>, ps': map<PoolId, PoolDescriptor>) {
    forall p :: p in ps ==> p in ps' && ps[p].generation <= ps'[p].generation
  }

  predicate PoliciesAdvance(ps: map<PolicyId, PolicyDescriptor>, ps': map<PolicyId, PolicyDescriptor>) {
    forall p :: p in ps ==> p in ps' && ps[p].generation <= ps'[p].generation
  }

  predicate ConsumersAdvance(cs: map<ConsumerId, Generation>, cs': map<ConsumerId, Generation>) {
    forall c :: c in cs ==> c in cs' && cs[c] <= cs'[c]
  }

  /**
   The epoch and all generations never go back, what is retired stays so until it returns with a
   higher generation, no reservation is forgotten, and none changes state against the table or
   becomes live again.
   */
  predicate Forward(s: State, t: State) {
    && s.epoch <= t.epoch
    && ProvidersAdvance(s.providers, t.providers)
    && RegionsAdvance(s.regions, t.regions)
    && PoolsAdvance(s.pools, t.pools)
    && PoliciesAdvance(s.policies, t.policies)
    && ConsumersAdvance(s.consumers, t.consumers)
    && Evolves(s.reservations, t.reservations)
  }

  // ---- Building blocks ----

  lemma ForwardSame(s: State)
    ensures Forward(s, s)
  {
  }

  lemma ProviderPut(ps: map<ProviderId, ProviderRecord>, p: ProviderId, rec: ProviderRecord)
    requires p in ps ==> ProviderAdvances(ps[p], rec)
    ensures ProvidersAdvance(ps, ps[p := rec])
  {
  }

  lemma RegionPut(rs: map<RegionId, RegionRecord>, rs': map<RegionId, RegionRecord>, rid: RegionId, rr: RegionRecord)
    requires RegionsAdvance(rs, rs') && (rid in rs ==> RegionAdvances(rs[rid], rr))
    ensures RegionsAdvance(rs, rs'[rid := rr])
  {
  }

  /** Regions may be rewritten one by one as long as structure stays and retirement is kept. */
  lemma RegionsFollow(rs: map<RegionId, RegionRecord>, rs': map<RegionId, RegionRecord>, rs'': map<RegionId, RegionRecord>)
    requires RegionsAdvance(rs, rs')
    requires forall rid :: rid in rs' ==>
               && rid in rs'' && rs''[rid].descriptor == rs'[rid].descriptor
               && (rs'[rid].lifecycle.Retired? ==> rs''[rid].lifecycle.Retired?)
    ensures RegionsAdvance(rs, rs'')
  {
    forall rid | rid in rs ensures rid in rs'' && RegionAdvances(rs[rid], rs''[rid]) {
      assert RegionAdvances(rs[rid], rs'[rid]);
    }
  }

  lemma PoolPut(ps: map<PoolId, PoolDescriptor>, p: PoolId, d: PoolDescriptor)
    requires p in ps ==> ps[p].generation <= d.generation
    ensures PoolsAdvance(ps, ps[p := d])
  {
  }

  lemma ReservationPut(rs: map<ReservationId, Reservation>, id: ReservationId, r: Reservation)
    requires id in rs ==> Successor(rs[id], r)
    ensures Evolves(rs, rs[id := r])
  {
  }

  lemma WithdrawForward(s: State, ids: set<ReservationId>, cause: Cause)
    ensures Forward(s, Withdraw(s, ids, cause))
  {
    var t := Withdraw(s, ids, cause);
    assert Evolves(s.reservations, t.reservations);
    assert RegionsAdvance(s.regions, t.regions);
    hide Evolves, RegionsAdvance;
  }

  // ---- Every operation moves forward ----

  lemma SetEpochForward(s: State, e: Epoch)
    ensures Forward(s, SetEpoch(s, e))
  {
    ForwardSame(s);
    hide Settle, WithdrawAll, ProvidersAdvance, RegionsAdvance, PoolsAdvance, PoliciesAdvance, ConsumersAdvance, Evolves;
    if e > s.epoch {
      var t := Withdraw(s, s.reservations.Keys, EpochAdvance);
      WithdrawForward(s, s.reservations.Keys, EpochAdvance);
      RegionsFollow(s.regions, t.regions, SuspendAll(t.regions, t.regions.Keys));
    }
  }

  lemma RegisterProviderForward(s: State, d: ProviderDescriptor, a: Authority)
    ensures Forward(s, RegisterProvider(s, d, a).state)
  {
    ForwardSame(s);
    hide Settle, WithdrawAll, ProvidersAdvance, RegionsAdvance, PoolsAdvance, PoliciesAdvance, ConsumersAdvance, Evolves;
    hide Acceptable, Contradictory;
    if ProviderFault(s, d, a) == NoError {
      ProviderPut(s.providers, d.id, ProviderRecord(d, Lifecycle.Registered));
      if d.id in s.providers {
        var w := Withdraw(s, OfProvider(s, d.id), Fencing);
        WithdrawForward(s, OfProvider(s, d.id), Fencing);
        RegionsFollow(s.regions, w.regions, ForgetBacked(w.regions, d.id));
      }
    }
  }

  lemma RegisterRegionForward(s: State, d: RegionDescriptor, a: Authority)
    ensures Forward(s, RegisterRegion(s, d, a).state)
  {
    ForwardSame(s);
    hide Settle, WithdrawAll, ProvidersAdvance, RegionsAdvance, PoolsAdvance, PoliciesAdvance, ConsumersAdvance, Evolves;
    hide Acceptable, Contradictory;
    if RegionFault(s, d, a) == NoError {
      var t := if d.id !in s.regions then s else Withdraw(s, OfRegion(s, d.id), Fencing);
      WithdrawForward(s, OfRegion(s, d.id), Fencing);
      RegionPut(s.regions, t.regions, d.id, FreshRegion(d, RegionLifecycle.Declared));
    }
  }

  lemma RegisterPoolForward(s: State, d: PoolDescriptor, a: Authority)
    ensures Forward(s, RegisterPool(s, d, a).state)
  {
    ForwardSame(s);
    WithdrawForward(s, OfPool(s, d.id), Fencing);
    hide Settle, WithdrawAll, ProvidersAdvance, RegionsAdvance, PoliciesAdvance, ConsumersAdvance, Evolves, Acceptable;
  }

  lemma RegisterPolicyForward(s: State, d: PolicyDescriptor, a: Authority)
    ensures Forward(s, RegisterPolicy(s, d, a).state)
  {
    ForwardSame(s);
    WithdrawForward(s, OfPolicy(s, d.id), Fencing);
    hide Settle, WithdrawAll, ProvidersAdvance, RegionsAdvance, PoolsAdvance, ConsumersAdvance, Evolves, Acceptable;
  }

  /** One region record is rewritten, and its backing provider may follow without being retired or revived. */
  lemma RegionStep(s: State, t: State, u: State, rid: RegionId)
    requires Forward(s, t) && rid in t.regions && rid in u.regions
    requires u == t.(regions := t.regions[rid := u.regions[rid]], providers := u.providers)
    requires u.regions[rid].descriptor == t.regions[rid].descriptor
    requires t.regions[rid].lifecycle.Retired? ==> u.regions[rid].lifecycle.Retired?
    requires t.providers == s.providers && ProvidersAdvance(s.providers, u.providers)
    ensures Forward(s, u)
  {
    hide ProvidersAdvance, RegionsAdvance, PoolsAdvance, PoliciesAdvance, ConsumersAdvance, Evolves;
    RegionsFollow(s.regions, t.regions, u.regions);
  }

  lemma ProvidersSame(ps: map<ProviderId, ProviderRecord>)
    ensures ProvidersAdvance(ps, ps)
  {
  }

  lemma FollowAdvances(s: State, t: State, p: ProviderId, from: Lifecycle, to: Lifecycle)
    requires t.providers == s.providers && !from.Retired?
    ensures ProvidersAdvance(s.providers, Follow(t, p, from, to).providers)
    ensures Follow(t, p, from, to) == t.(providers := Follow(t, p, from, to).providers)
  {
    ProvidersSame(s.providers);
    hide ProvidersAdvance;
    if p in s.providers && s.providers[p].lifecycle == from { ProviderPut(s.providers, p, s.providers[p].(lifecycle := to)); }
  }

  lemma BeginDrainForward(s: State, region: RegionId, a: Authority)
    ensures Forward(s, BeginDrain(s, region, a).state)
  {
    ForwardSame(s);
    hide Settle, WithdrawAll, Transfer, Acceptable, Follow;
    var step := BeginDrain(s, region, a);
    if RegionGuard(s, region, a) == NoError && RegionAllowed(s.regions[region].lifecycle, RegionLifecycle.Draining) {
      var t := Withdraw(s, OfRegion(s, region), DrainStart);
      WithdrawForward(s, OfRegion(s, region), DrainStart);
      SettleStructure(s, OfRegion(s, region), DrainStart, region);
      hide Forward, ProvidersAdvance, Withdraw;
      DrainedForward(s, t, region);
    }
  }

  lemma SettleStructure(s: State, ids: set<ReservationId>, cause: Cause, rid: RegionId)
    requires rid in s.regions
    ensures var t := Withdraw(s, ids, cause);
            && rid in t.regions && t.regions[rid] == s.regions[rid].(ledger := t.regions[rid].ledger)
            && t == s.(reservations := t.reservations, regions := t.regions)
  {
  }

  lemma DrainedForward(s: State, t: State, region: RegionId)
    requires Forward(s, t) && t.providers == s.providers && region in t.regions && !t.regions[region].lifecycle.Retired?
    ensures var rr := t.regions[region];
            var m := Transfer(rr.ledger, Free, Bucket.Draining, rr.ledger.free);
            && Forward(s, WithRegion(t, region, rr.(ledger := m.ledger)))
            && Forward(s, Follow(WithRegion(t, region, rr.(ledger := m.ledger, lifecycle := RegionLifecycle.Draining)),
                                 rr.descriptor.provider, Lifecycle.Online, Lifecycle.Draining))
  {
    ForwardSame(s);
    hide Transfer, ProvidersAdvance, RegionsAdvance, PoolsAdvance, PoliciesAdvance, ConsumersAdvance, Evolves, Follow;
    var rr := t.regions[region];
    var m := Transfer(rr.ledger, Free, Bucket.Draining, rr.ledger.free);
    RegionStep(s, t, WithRegion(t, region, rr.(ledger := m.ledger)), region);
    var v := WithRegion(t, region, rr.(ledger := m.ledger, lifecycle := RegionLifecycle.Draining));
    FollowAdvances(s, v, rr.descriptor.provider, Lifecycle.Online, Lifecycle.Draining);
    RegionStep(s, t, Follow(v, rr.descriptor.provider, Lifecycle.Online, Lifecycle.Draining), region);
  }

  lemma CompleteDrainForward(s: State, region: RegionId, a: Authority)
    ensures Forward(s, CompleteDrain(s, region, a).state)
  {
    ForwardSame(s);
    hide Transfer, Acceptable, ProvidersAdvance, RegionsAdvance, PoolsAdvance, PoliciesAdvance, ConsumersAdvance, Evolves, Follow;
    if RegionGuard(s, region, a) == NoError && s.regions[region].lifecycle.Draining? {
      var rr := s.regions[region];
      var m := Transfer(rr.ledger, Bucket.Draining, Bucket.Unavailable, rr.ledger.draining);
      RegionStep(s, s, WithRegion(s, region, rr.(ledger := m.ledger)), region);
      var v := WithRegion(s, region, rr.(ledger := m.ledger, lifecycle := RegionLifecycle.Unavailable));
      FollowAdvances(s, v, rr.descriptor.provider, Lifecycle.Draining, Lifecycle.Offline);
      RegionStep(s, s, Follow(v, rr.descriptor.provider, Lifecycle.Draining, Lifecycle.Offline), region);
    }
  }

  /** One region record is rewritten and nothing else. */
  lemma RegionMoved(s: State, rid: RegionId, rr: RegionRecord)
    requires rid in s.regions && rr.descriptor == s.regions[rid].descriptor
    requires s.regions[rid].lifecycle.Retired? ==> rr.lifecycle.Retired?
    ensures Forward(s, WithRegion(s, rid, rr))
  {
    ForwardSame(s);
    hide ProvidersAdvance, RegionsAdvance, PoolsAdvance, PoliciesAdvance, ConsumersAdvance, Evolves;
    RegionsFollow(s.regions, s.regions, s.regions[rid := rr]);
  }

  lemma CancelDrainForward(s: State, region: RegionId, a: Authority)
    ensures Forward(s, CancelDrain(s, region, a).state)
  {
    ForwardSame(s);
    hide Transfer, Acceptable, Forward, WithRegion;
    if RegionGuard(s, region, a) == NoError && s.regions[region].lifecycle.Draining? {
      var rr := s.regions[region];
      var m := Transfer(rr.ledger, Bucket.Draining, Free, rr.ledger.draining);
      RegionMoved(s, region, rr.(ledger := m.ledger));
      RegionMoved(s, region, rr.(ledger := m.ledger, lifecycle := RegionLifecycle.Online));
    }
  }

  lemma RecoverRegionForward(s: State, region: RegionId, a: Authority)
    ensures Forward(s, RecoverRegion(s, region, a).state)
  {
    ForwardSame(s);
    hide Transfer, Acceptable, Forward, WithRegion;
    if RecoverRegion(s, region, a).error == NoError {
      var rr := s.regions[region];
      var m := Transfer(rr.ledger, Bucket.Unavailable, Free, rr.ledger.unavailable);
      RegionMoved(s, region, rr.(ledger := m.ledger, lifecycle := RegionLifecycle.Declared,
                                 evidenceStatus := EvidenceStatus.RevalidationRequired));
    }
  }

  lemma PublishAttachmentForward(s: State, e: AttachmentEvidence, a: Authority)
    ensures Forward(s, PublishAttachment(s, e, a).state)
  {
    ForwardSame(s);
    hide Acceptable, Forward, PutAttachment;
    if PublishAttachment(s, e, a).error == NoError {
      var rr := s.regions[e.region];
      RegionMoved(s, e.region, rr.(attachments := PutAttachment(rr.attachments, e)));
    }
  }

  lemma TakenForward(s: State, rid: RegionId, rr: RegionRecord)
    requires rid in s.regions && rr.descriptor == s.regions[rid].descriptor && !s.regions[rid].lifecycle.Retired?
    ensures Forward(s, s.(regions := s.regions[rid := rr]))
    ensures Forward(s, s.(regions := s.regions[rid := rr], providers := Reflect(s.providers, rr)))
  {
    RegionMoved(s, rid, rr);
    ReflectAdvances(s.providers, rr);
    hide ProvidersAdvance, RegionsAdvance, PoolsAdvance, PoliciesAdvance, ConsumersAdvance, Evolves, Reflect;
  }

  lemma PublishEvidenceForward(s: State, e: RegionEvidence, a: Authority)
    ensures Forward(s, PublishEvidence(s, e, a).state)
  {
    ForwardSame(s);
    hide SetOnline, Acceptable, Forward, Reflect, HealthTarget;
    if EvidenceFault(s, e, a) == NoError {
      var rid := e.header.region;
      var rr := s.regions[rid];
      var m := SetOnline(rr.ledger, e.onlineCapacityBytes);
      var taken := TakeEvidence(rr, m.ledger, e);
      hide EvidenceFault;
      TakenForward(s, rid, rr.(ledger := m.ledger));
      TakenForward(s, rid, taken);
      TakenForward(s, rid, taken.(lifecycle := HealthTarget(e.health)));
    }
  }

  lemma ReflectAdvances(ps: map<ProviderId, ProviderRecord>, rr: RegionRecord)
    ensures ProvidersAdvance(ps, Reflect(ps, rr))
  {
  }

  lemma MarkUnavailableForward(s: State, region: RegionId, a: Authority)
    ensures Forward(s, MarkUnavailable(s, region, a).state)
  {
    ForwardSame(s);
    hide Transfer, Acceptable, Settle, WithdrawAll;
    hide ProvidersAdvance, RegionsAdvance, PoolsAdvance, PoliciesAdvance, ConsumersAdvance, Evolves;
    if RegionGuard(s, region, a) == NoError && RegionAllowed(s.regions[region].lifecycle, RegionLifecycle.Unavailable) {
      var rr := s.regions[region];
      var m := Transfer(rr.ledger, Free, Bucket.Unavailable, rr.ledger.free);
      var u := WithRegion(s, region, rr.(ledger := m.ledger));
      RegionMoved(s, region, rr.(ledger := m.ledger));
      var t := Withdraw(u, OfRegion(s, region), Fencing);
      WithdrawForward(u, OfRegion(s, region), Fencing);
      SettleStructure(u, OfRegion(s, region), Fencing, region);
      ForwardTransitive(s, u, t);
      RegionStep(s, t, WithRegion(t, region, t.regions[region].(lifecycle := RegionLifecycle.Unavailable)), region);
    }
  }

  lemma RetireProviderForward(s: State, p: ProviderId, a: Authority)
    ensures Forward(s, RetireProvider(s, p, a).state)
  {
    ForwardSame(s);
    hide Settle, WithdrawAll, Acceptable;
    hide ProvidersAdvance, RegionsAdvance, PoolsAdvance, PoliciesAdvance, ConsumersAdvance, Evolves;
    if RetireProvider(s, p, a).error == NoError {
      var t := Withdraw(s, OfProvider(s, p), Fencing);
      WithdrawForward(s, OfProvider(s, p), Fencing);
      RegionsFollow(s.regions, t.regions, RetireBacked(t.regions, p));
      ProviderPut(s.providers, p, s.providers[p].(lifecycle := Lifecycle.Retired));
    }
  }

  lemma RetireRegionForward(s: State, region: RegionId, a: Authority)
    ensures Forward(s, RetireRegion(s, region, a).state)
  {
    ForwardSame(s);
    hide Settle, WithdrawAll, Acceptable;
    hide ProvidersAdvance, RegionsAdvance, PoolsAdvance, PoliciesAdvance, ConsumersAdvance, Evolves;
    if RetireRegion(s, region, a).error == NoError {
      var t := Withdraw(s, OfRegion(s, region), Fencing);
      WithdrawForward(s, OfRegion(s, region), Fencing);
      SettleStructure(s, OfRegion(s, region), Fencing, region);
      RegionStep(s, t, WithRegion(t, region, t.regions[region].(lifecycle := RegionLifecycle.Retired)), region);
    }
  }

  lemma MarkWorkerDeadForward(s: State, w: WorkerId, a: Authority)
    ensures Forward(s, MarkWorkerDead(s, w, a).state)
  {
    ForwardSame(s);
    hide Settle, WithdrawAll, Acceptable;
    hide ProvidersAdvance, RegionsAdvance, PoolsAdvance, PoliciesAdvance, ConsumersAdvance, Evolves;
    if MarkWorkerDead(s, w, a).error == NoError {
      var vouched := Vouched(s, w, s.workers[w].boot);
      var t := Withdraw(s, OfWorker(s, w, vouched), Fencing);
      WithdrawForward(s, OfWorker(s, w, vouched), Fencing);
      RegionsFollow(s.regions, t.regions, SuspendAll(t.regions, vouched));
    }
  }

  /** One reservation is put or moved on, together with its region's ledger. */
  lemma ReservationMoved(s: State, id: ReservationId, r: Reservation, l: Ledger)
    requires r.region in s.regions && (id in s.reservations ==> Successor(s.reservations[id], r))
    ensures Forward(s, WithReservation(s, r, id, s.regions[r.region].(ledger := l)))
  {
    ForwardSame(s);
    hide ProvidersAdvance, RegionsAdvance, PoolsAdvance, PoliciesAdvance, ConsumersAdvance, Evolves, Successor;
    RegionsFollow(s.regions, s.regions, s.regions[r.region := s.regions[r.region].(ledger := l)]);
    ReservationPut(s.reservations, id, r);
  }

  lemma Counted(s: State, t: State, selections: nat, reservations: nat)
    requires Forward(s, t)
    ensures Forward(s, t.(nextSelection := selections))
    ensures Forward(s, t.(nextReservation := reservations).(nextSelection := selections))
  {
  }

  lemma ReserveOnForward(s: State, req: Request, a: Authority, now: U64, rid: RegionId)
    requires rid in s.regions && Mint(s.nextReservation) !in s.reservations
    ensures Forward(s, ReserveOn(s, req, a, now, rid).state)
  {
    hide Transfer, Forward, Mint, WithRegion, WithReservation, Successor;
    var rr := s.regions[rid];
    var m := Transfer(rr.ledger, Free, Bucket.Reserved, req.requiredBytes);
    var r := Bind(s, req, a, now, rid);
    assert r.region == rid && r.id == Mint(s.nextReservation);
    hide Bind;
    RegionMoved(s, rid, rr.(ledger := m.ledger));
    ReservationMoved(s, r.id, r, m.ledger);
    Counted(s, WithRegion(s, rid, rr.(ledger := m.ledger)), s.nextSelection + 1, s.nextReservation);
    Counted(s, WithReservation(s, r, r.id, rr.(ledger := m.ledger)), s.nextSelection + 1, s.nextReservation + 1);
  }

  lemma ReserveForward(s: State, req: Request, a: Authority, now: U64)
    requires Inv(s) && s.nextReservation <= U64_MAX
    ensures Forward(s, Reserve(s, req, a, now).state)
  {
    hide Selection.RankedIds, Inv, ReserveFault, ReserveOn, Forward, Mint;
    ForwardSame(s);
    FreshMint(s);
    var ids := Selection.RankedIds(s, req);
    if ReserveFault(s, req, a) == NoError {
      if ids != [] && ids[0] in s.regions {
        ReserveOnForward(s, req, a, now, ids[0]);
      } else {
        ElsewhereForward(s, s.(nextSelection := s.nextSelection + 1));
      }
    }
  }

  lemma CommitForward(s: State, id: ReservationId, a: Authority)
    ensures Forward(s, Commit(s, id, a).state)
  {
    ForwardSame(s);
    hide Transfer, BindingFault, HolderFault, FreshnessFault, Forward, Acceptable, WithRegion, WithReservation;
    if id in s.reservations && s.reservations[id].state.Reserved? && BindingFault(s, s.reservations[id]) == NoError {
      RegionBound(s, id, a);
      var r := s.reservations[id];
      var rr := s.regions[r.region];
      var m := Transfer(rr.ledger, Bucket.Reserved, Bucket.Committed, r.bytes);
      RegionMoved(s, r.region, rr.(ledger := m.ledger));
      ReservationMoved(s, id, r.(state := ReservationState.Committed), m.ledger);
    }
  }

  lemma RegionBound(s: State, id: ReservationId, a: Authority)
    requires id in s.reservations && BindingFault(s, s.reservations[id]) == NoError
    ensures s.reservations[id].region in s.regions
  {
  }

  lemma ReleaseForward(s: State, id: ReservationId, a: Authority)
    ensures Forward(s, Release(s, id, a).state)
  {
    ForwardSame(s);
    hide Transfer, Forward, Acceptable, WithRegion, WithReservation;
    if id in s.reservations && Live(s.reservations[id]) && s.reservations[id].region in s.regions {
      var r := s.reservations[id];
      var rr := s.regions[r.region];
      var m := Transfer(rr.ledger, if r.state.Reserved? then Bucket.Reserved else Bucket.Committed, Free, r.bytes);
      RegionMoved(s, r.region, rr.(ledger := m.ledger));
      ReservationMoved(s, id, r.(state := Released), m.ledger);
    }
  }

  lemma PoolMembersForward(s: State, pool: PoolId, d: PoolDescriptor)
    requires pool in s.pools && d.generation == s.pools[pool].generation
    ensures Forward(s, s.(pools := s.pools[pool := d]))
  {
    ForwardSame(s);
    PoolPut(s.pools, pool, d);
    hide ProvidersAdvance, RegionsAdvance, PoolsAdvance, PoliciesAdvance, ConsumersAdvance, Evolves;
  }

  lemma MembersForward(s: State, pool: PoolId, d: PoolDescriptor, rid: RegionId, rr: RegionRecord)
    requires pool in s.pools && d.generation == s.pools[pool].generation
    requires rid in s.regions && rr == s.regions[rid].(memberships := rr.memberships)
    ensures Forward(s, s.(pools := s.pools[pool := d]))
    ensures Forward(s, s.(pools := s.pools[pool := d], regions := s.regions[rid := rr]))
  {
    PoolMembersForward(s, pool, d);
    RegionMoved(s, rid, rr);
    hide ProvidersAdvance, RegionsAdvance, PoolsAdvance, PoliciesAdvance, ConsumersAdvance, Evolves;
  }

  lemma AddPoolMemberForward(s: State, pool: PoolId, m: PoolMember, a: Authority)
    ensures Forward(s, AddPoolMember(s, pool, m, a).state)
  {
    ForwardSame(s);
    hide Acceptable, Forward, FirstOf;
    if AddPoolMember(s, pool, m, a).error == NoError {
      var d, rr := s.pools[pool], s.regions[m.region];
      MembersForward(s, pool, d.(members := d.members + [m]), m.region,
                     rr.(memberships := rr.memberships + {(pool, d.generation)}));
    }
  }

  lemma RemovePoolMemberForward(s: State, pool: PoolId, region: RegionId, a: Authority)
    ensures Forward(s, RemovePoolMember(s, pool, region, a).state)
  {
    ForwardSame(s);
    hide Acceptable, Forward, Without;
    if RemovePoolMember(s, pool, region, a).error == NoError {
      var d := s.pools[pool];
      if region in s.regions {
        var rr := s.regions[region];
        MembersForward(s, pool, d.(members := Without(d.members, region)), region,
                       rr.(memberships := set m | m in rr.memberships && m.0 != pool));
      } else {
        PoolMembersForward(s, pool, d.(members := Without(d.members, region)));
      }
    }
  }

  lemma RegisterConsumerForward(s: State, c: ConsumerId, g: Generation, a: Authority)
    ensures Forward(s, RegisterConsumer(s, c, g, a).state)
  {
    ForwardSame(s);
    hide Acceptable, ProvidersAdvance, RegionsAdvance, PoolsAdvance, PoliciesAdvance, Evolves;
  }

  /** Tables outside the order. */
  lemma ElsewhereForward(s: State, t: State)
    requires t == s.(domains := t.domains, workers := t.workers, nextSelection := t.nextSelection)
    ensures Forward(s, t)
  {
  }

  lemma RegisterDomainForward(s: State, d: DomainDescriptor, a: Authority)
    ensures Forward(s, RegisterDomain(s, d, a).state)
  {
    hide Forward, Acceptable;
    ForwardSame(s);
    ElsewhereForward(s, s.(domains := s.domains[d.id := DomainRecord(d, Lifecycle.Registered)]));
  }

  lemma RegisterWorkerForward(s: State, w: WorkerId, boot: BootId, epoch: Epoch, pid: U64, a: Authority)
    ensures Forward(s, RegisterWorker(s, w, boot, epoch, pid, a).state)
  {
    hide Forward;
    ElsewhereForward(s, RegisterWorker(s, w, boot, epoch, pid, a).state);
  }

  lemma NoteWorkerHandleForward(s: State, w: WorkerId, holds: bool)
    ensures Forward(s, NoteWorkerHandle(s, w, holds))
  {
    hide Forward;
    ElsewhereForward(s, NoteWorkerHandle(s, w, holds));
  }

  lemma SelectForward(s: State, req: Request, a: Authority)
    ensures Forward(s, Select(s, req, a).state)
  {
    hide Forward, Acceptable;
    ForwardSame(s);
    ElsewhereForward(s, s.(nextSelection := s.nextSelection + 1));
  }

  // ---- Every step, every run ----

  lemma SuccessorTransitive(r: Reservation, r': Reservation, r'': Reservation)
    requires Successor(r, r') && Successor(r', r'')
    ensures Successor(r, r'')
  {
  }

  lemma EvolvesTransitive(rs: map<ReservationId, Reservation>, rs': map<ReservationId, Reservation>,
                          rs'': map<ReservationId, Reservation>)
    requires Evolves(rs, rs') && Evolves(rs', rs'')
    ensures Evolves(rs, rs'')
  {
    hide Successor;
    forall id | id in rs ensures id in rs'' && Successor(rs[id], rs''[id]) {
      SuccessorTransitive(rs[id], rs'[id], rs''[id]);
    }
  }

  lemma RegionsTransitive(rs: map<RegionId, RegionRecord>, rs': map<RegionId, RegionRecord>, rs'': map<RegionId, RegionRecord>)
    requires RegionsAdvance(rs, rs') && RegionsAdvance(rs', rs'')
    ensures RegionsAdvance(rs, rs'')
  {
  }

  lemma ProvidersTransitive(ps: map<ProviderId, ProviderRecord>, ps': map<ProviderId, ProviderRecord>,
                            ps'': map<ProviderId, ProviderRecord>)
    requires ProvidersAdvance(ps, ps') && ProvidersAdvance(ps', ps'')
    ensures ProvidersAdvance(ps, ps'')
  {
  }

  lemma ForwardTransitive(s: State, t: State, u: State)
    requires Forward(s, t) && Forward(t, u)
    ensures Forward(s, u)
  {
    EvolvesTransitive(s.reservations, t.reservations, u.reservations);
    RegionsTransitive(s.regions, t.regions, u.regions);
    ProvidersTransitive(s.providers, t.providers, u.providers);
    hide Evolves, RegionsAdvance, ProvidersAdvance;
  }

  lemma ConfigurationForward(s: State, op: Op)
    requires IsConfiguration(op)
    ensures Forward(s, Apply(s, op).state)
  {
    hide Inv, Forward;
    hide SetEpoch, RegisterConsumer, RegisterProvider, RegisterDomain, RegisterRegion, RegisterPool, RegisterPolicy;
    hide AddPoolMember, RemovePoolMember, PublishEvidence, PublishAttachment, BeginDrain, CompleteDrain, CancelDrain;
    hide MarkUnavailable, RecoverRegion, RetireProvider, RetireRegion, RegisterWorker, MarkWorkerDead, NoteWorkerHandle;
    hide Select, Reserve, Commit, Release;
    match op
    case OpSetEpoch(e) => SetEpochForward(s, e);
    case OpRegisterConsumer(c, g, a) => RegisterConsumerForward(s, c, g, a);
    case OpRegisterProvider(d, a) => RegisterProviderForward(s, d, a);
    case OpRegisterDomain(d, a) => RegisterDomainForward(s, d, a);
    case OpRegisterRegion(d, a) => RegisterRegionForward(s, d, a);
    case OpRegisterPool(d, a) => RegisterPoolForward(s, d, a);
    case OpRegisterPolicy(d, a) => RegisterPolicyForward(s, d, a);
    case OpAddPoolMember(pool, m, a) => AddPoolMemberForward(s, pool, m, a);
    case OpRemovePoolMember(pool, region, a) => RemovePoolMemberForward(s, pool, region, a);
    case _ =>
  }

  lemma LifecycleForward(s: State, op: Op)
    requires IsLifecycle(op)
    ensures Forward(s, Apply(s, op).state)
  {
    hide Inv, Forward;
    hide SetEpoch, RegisterConsumer, RegisterProvider, RegisterDomain, RegisterRegion, RegisterPool, RegisterPolicy;
    hide AddPoolMember, RemovePoolMember, PublishEvidence, PublishAttachment, BeginDrain, CompleteDrain, CancelDrain;
    hide MarkUnavailable, RecoverRegion, RetireProvider, RetireRegion, RegisterWorker, MarkWorkerDead, NoteWorkerHandle;
    hide Select, Reserve, Commit, Release;
    match op
    case OpPublishEvidence(e, a) => PublishEvidenceForward(s, e, a);
    case OpPublishAttachment(e, a) => PublishAttachmentForward(s, e, a);
    case OpBeginDrain(region, a) => BeginDrainForward(s, region, a);
    case OpCompleteDrain(region, a) => CompleteDrainForward(s, region, a);
    case OpCancelDrain(region, a) => CancelDrainForward(s, region, a);
    case OpMarkUnavailable(region, a) => MarkUnavailableForward(s, region, a);
    case OpRecoverRegion(region, a) => RecoverRegionForward(s, region, a);
    case OpRetireProvider(p, a) => RetireProviderForward(s, p, a);
    case OpRetireRegion(region, a) => RetireRegionForward(s, region, a);
    case _ =>
  }

  lemma UsageForward(s: State, op: Op)
    requires Inv(s) && s.nextReservation <= U64_MAX && IsUsage(op)
    ensures Forward(s, Apply(s, op).state)
  {
    hide Inv, Forward;
    hide SetEpoch, RegisterConsumer, RegisterProvider, RegisterDomain, RegisterRegion, RegisterPool, RegisterPolicy;
    hide AddPoolMember, RemovePoolMember, PublishEvidence, PublishAttachment, BeginDrain, CompleteDrain, CancelDrain;
    hide MarkUnavailable, RecoverRegion, RetireProvider, RetireRegion, RegisterWorker, MarkWorkerDead, NoteWorkerHandle;
    hide Select, Reserve, Commit, Release;
    match op
    case OpRegisterWorker(w, boot, epoch, pid, a) => RegisterWorkerForward(s, w, boot, epoch, pid, a);
    case OpMarkWorkerDead(w, a) => MarkWorkerDeadForward(s, w, a);
    case OpNoteWorkerHandle(w, holds) => NoteWorkerHandleForward(s, w, holds);
    case OpSelect(req, a) => SelectForward(s, req, a);
    case OpReserve(req, a, now) => ReserveForward(s, req, a, now);
    case OpCommit(id, a) => CommitForward(s, id, a);
    case OpRelease(id, a) => ReleaseForward(s, id, a);
    case _ =>
  }

  lemma StepForward(s: State, op: Op)
    requires Inv(s) && s.nextReservation <= U64_MAX
    ensures Forward(s, Apply(s, op).state)
  {
    hide Inv, Apply, Forward;
    if IsConfiguration(op) { ConfigurationForward(s, op); }
    else if IsLifecycle(op) { LifecycleForward(s, op); }
    else { UsageForward(s, op); }
  }

  /** Over any run, however long its parts: the whole history only moves forward. */
  lemma {:induction false} RunForward(s: State, ops: seq<Op>)
    requires Inv(s) && s.nextReservation + |ops| <= U64_MAX + 1
    ensures Forward(s, Run(s, ops))
    decreases |ops|
  {
    hide Inv, Apply, Forward;
    if ops != [] {
      var t := Apply(s, ops[0]).state;
      StepKeeps(s, ops[0]);
      StepForward(s, ops[0]);
      RunForward(t, ops[1..]);
      ForwardTransitive(s, t, Run(t, ops[1..]));
    } else {
      ForwardSame(s);
    }
  }
}
