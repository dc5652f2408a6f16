/** What becomes of every provider, and of every table that holds neither regions nor reservations, under every accepted call. */
module Registries {
  import opened Words
  import opened Types
  import opened Ledgers
  import opened Records
  import opened Operations
  import opened Invariants
  import Endings
  import Progress
  import Selection
  import Service

  // ---- Providers ----

  /** The region the call takes out of service or brings back is backed by this provider. */
  predicate Backs(s: State, op: Op, p: ProviderId) {
    match op
    case OpBeginDrain(region, _) => region in s.regions && s.regions[region].descriptor.provider == p
    case OpCompleteDrain(region, _) => region in s.regions && s.regions[region].descriptor.provider == p
    case OpPublishEvidence(e, _) => e.header.region in s.regions && s.regions[e.header.region].descriptor.provider == p
    case _ => false
  }

  /** A provider drains and goes offline with its region, and comes online with healthy evidence. */
  function FollowedTo(op: Op, was: Lifecycle): Lifecycle {
    match op
    case OpBeginDrain(_, _) => if was.Online? then Lifecycle.Draining else was
    case OpCompleteDrain(_, _) => if was.Draining? then Lifecycle.Offline else was
    case OpPublishEvidence(e, _) =>
      if e.health != HEALTH_FAILED && e.health != HEALTH_DEGRADED
         && (was.Registered? || was.Probing? || was.Offline? || was.RevalidationRequired?)
      then Lifecycle.Online else was
    case _ => was
  }

  predicate ProviderAfter(s: State, op: Op, p: ProviderId, pr': ProviderRecord)
    requires p in s.providers
  {
    if op.OpRegisterProvider? && op.provider.id == p then pr'.descriptor == op.provider && pr'.lifecycle.Registered?
    else
      && pr'.descriptor == s.providers[p].descriptor
      && pr'.lifecycle == if op.OpRetireProvider? && op.p == p then Lifecycle.Retired
                          else if Backs(s, op, p) then FollowedTo(op, s.providers[p].lifecycle)
                          else s.providers[p].lifecycle
  }

  ghost predicate ProvidersAfter(s: State, op: Op, ps: map<ProviderId, ProviderRecord>) {
    && ps.Keys == s.providers.Keys + (if op.OpRegisterProvider? then {op.provider.id} else {})
    && (forall p :: p in s.providers ==> ProviderAfter(s, op, p, ps[p]))
    && (op.OpRegisterProvider? ==>
          && ps[op.provider.id].descriptor == op.provider && ps[op.provider.id].lifecycle.Registered?)
  }

  lemma WithdrawFrame(s: State, ids: set<ReservationId>, cause: Cause)
    ensures Withdraw(s, ids, cause) == s.(reservations := Withdraw(s, ids, cause).reservations, regions := Withdraw(s, ids, cause).regions)
    ensures Withdraw(s, ids, cause).regions.Keys == s.regions.Keys
    ensures forall rid :: rid in s.regions ==> Withdraw(s, ids, cause).regions[rid].descriptor == s.regions[rid].descriptor
  {
    hide WithdrawAll, Held;
  }

  lemma FollowedProviders(s: State, p: ProviderId, from: Lifecycle, to: Lifecycle)
    ensures var ps := Follow(s, p, from, to).providers;
            && ps.Keys == s.providers.Keys
            && (forall q :: q in s.providers ==>
                  ps[q] == if q == p && s.providers[q].lifecycle == from then s.providers[q].(lifecycle := to) else s.providers[q])
  {
    var ps := Follow(s, p, from, to).providers;
    if p in s.providers && s.providers[p].lifecycle == from {
      assert ps == s.providers[p := s.providers[p].(lifecycle := to)];
    } else {
      assert ps == s.providers;
    }
    hide Follow;
  }

  lemma BeginDrainProviders(s: State, op: Op)
    requires op.OpBeginDrain? && BeginDrain(s, op.region, op.a).error == NoError
    ensures ProvidersAfter(s, op, BeginDrain(s, op.region, op.a).state.providers)
  {
    hide Acceptable, RegionAllowed, Withdraw, Transfer, Follow;
    WithdrawFrame(s, OfRegion(s, op.region), DrainStart);
    var u := Withdraw(s, OfRegion(s, op.region), DrainStart);
    var rr := u.regions[op.region];
    var l := Transfer(rr.ledger, Free, Bucket.Draining, rr.ledger.free).ledger;
    FollowedProviders(WithRegion(u, op.region, rr.(ledger := l, lifecycle := RegionLifecycle.Draining)),
                      rr.descriptor.provider, Lifecycle.Online, Lifecycle.Draining);
  }

  lemma CompleteDrainProviders(s: State, op: Op)
    requires op.OpCompleteDrain? && CompleteDrain(s, op.region, op.a).error == NoError
    ensures ProvidersAfter(s, op, CompleteDrain(s, op.region, op.a).state.providers)
  {
    hide Acceptable, Transfer, Follow;
    var rr := s.regions[op.region];
    var l := Transfer(rr.ledger, Bucket.Draining, Bucket.Unavailable, rr.ledger.draining).ledger;
    FollowedProviders(WithRegion(s, op.region, rr.(ledger := l, lifecycle := RegionLifecycle.Unavailable)),
                      rr.descriptor.provider, Lifecycle.Draining, Lifecycle.Offline);
  }

  lemma PublishEvidenceProviders(s: State, op: Op)
    requires Inv(s) && op.OpPublishEvidence? && PublishEvidence(s, op.evidence, op.a).error == NoError
    ensures ProvidersAfter(s, op, PublishEvidence(s, op.evidence, op.a).state.providers)
  {
    hide Inv, PublishEvidence, Service.Shows;
    Service.EvidenceRecorded(s, op.evidence, op.a);
  }

  lemma RegistryProviders(s: State, op: Op)
    requires op.OpRegisterProvider? || op.OpRetireProvider?
    requires op.OpRegisterProvider? ==> RegisterProvider(s, op.provider, op.a).error == NoError
    requires op.OpRetireProvider? ==> RetireProvider(s, op.p, op.a).error == NoError
    ensures op.OpRegisterProvider? ==> ProvidersAfter(s, op, RegisterProvider(s, op.provider, op.a).state.providers)
    ensures op.OpRetireProvider? ==> ProvidersAfter(s, op, RetireProvider(s, op.p, op.a).state.providers)
  {
    hide ProviderFault, Acceptable, ProviderAllowed, Withdraw, ForgetBacked, RetireBacked;
    if op.OpRegisterProvider? { WithdrawFrame(s, OfProvider(s, op.provider.id), Fencing); }
    else { WithdrawFrame(s, OfProvider(s, op.p), Fencing); }
  }

  // ---- Everything else ----

  /** The workers: all dismissed by a new epoch, one admitted, one declared dead, one handle noted. */
  predicate WorkersAfter(s: State, op: Op, ws: map<WorkerId, WorkerRecord>) {
    match op
    case OpSetEpoch(e) =>
      ws.Keys == s.workers.Keys && forall w :: w in s.workers ==>
        ws[w] == s.workers[w].(alive := if e > s.epoch then false else s.workers[w].alive)
    case OpRegisterWorker(w, boot, _, pid, _) => ws == s.workers[w := WorkerRecord(boot, s.epoch, pid, true, false)]
    case OpMarkWorkerDead(w, _) => w in s.workers && ws == s.workers[w := s.workers[w].(alive := false)]
    case OpNoteWorkerHandle(w, holds) =>
      ws == if w in s.workers then s.workers[w := s.workers[w].(holdsHandle := holds)] else s.workers
    case _ => ws == s.workers
  }

  ghost predicate PoolsAfter(s: State, op: Op, ps: map<PoolId, PoolDescriptor>) {
    match op
    case OpRegisterPool(d, _) => ps == s.pools[d.id := d]
    case OpAddPoolMember(pool, m, _) =>
      pool in s.pools && ps == s.pools[pool := s.pools[pool].(members := s.pools[pool].members + [m])]
    case OpRemovePoolMember(pool, region, _) =>
      && pool in s.pools && pool in ps && ps == s.pools[pool := s.pools[pool].(members := ps[pool].members)]
      && (forall m :: m in ps[pool].members <==> m in s.pools[pool].members && m.region != region)
    case _ => ps == s.pools
  }

  ghost predicate TablesAfter(s: State, op: Op, t: State) {
    && t.epoch == (if op.OpSetEpoch? && op.e > s.epoch then op.e else s.epoch)
    && t.domains == (if op.OpRegisterDomain? then s.domains[op.domain.id := DomainRecord(op.domain, Lifecycle.Registered)] else s.domains)
    && t.policies == (if op.OpRegisterPolicy? then s.policies[op.policy.id := op.policy] else s.policies)
    && t.consumers == (if op.OpRegisterConsumer? then s.consumers[op.c := op.g] else s.consumers)
    && PoolsAfter(s, op, t.pools) && WorkersAfter(s, op, t.workers)
  }

  /** Calls with a say over providers, stated above. */
  predicate MovesProviders(op: Op) {
    op.OpRegisterProvider? || op.OpRetireProvider? || op.OpBeginDrain? || op.OpCompleteDrain? || op.OpPublishEvidence?
  }

  ghost predicate Framed(s: State, op: Op, t: State) {
    TablesAfter(s, op, t) && (!MovesProviders(op) ==> t.providers == s.providers)
  }

  /** Nothing but regions, reservations, providers and the counters differ. */
  predicate Aside(s: State, t: State) {
    && t.epoch == s.epoch && t.domains == s.domains && t.pools == s.pools
    && t.policies == s.policies && t.consumers == s.consumers && t.workers == s.workers
  }

  /** Nothing but regions, reservations and the counters differ. */
  predicate FarAside(s: State, t: State) { Aside(s, t) && t.providers == s.providers }

  /** Calls with a say over a table other than regions, reservations and providers. */
  predicate Enters(op: Op) {
    || op.OpSetEpoch? || op.OpRegisterConsumer? || op.OpRegisterDomain? || op.OpRegisterPool? || op.OpRegisterPolicy?
    || op.OpAddPoolMember? || op.OpRemovePoolMember? || op.OpRegisterWorker? || op.OpMarkWorkerDead? || op.OpNoteWorkerHandle?
  }

  lemma AsideFramed(s: State, op: Op, t: State)
    requires Aside(s, t) && !Enters(op) && (!MovesProviders(op) ==> FarAside(s, t))
    ensures Framed(s, op, t)
  {
  }

  lemma SetEpochFrame(s: State, op: Op)
    requires op.OpSetEpoch?
    ensures Framed(s, op, SetEpoch(s, op.e))
  {
    hide Withdraw, SuspendAll;
    if op.e > s.epoch { WithdrawFrame(s, s.reservations.Keys, EpochAdvance); }
  }

  lemma RegisterPoolFrame(s: State, op: Op)
    requires op.OpRegisterPool? && RegisterPool(s, op.pool, op.a).error == NoError
    ensures Framed(s, op, RegisterPool(s, op.pool, op.a).state)
  {
    hide PoolFault, Withdraw;
    WithdrawFrame(s, OfPool(s, op.pool.id), Fencing);
  }

  lemma RegisterPolicyFrame(s: State, op: Op)
    requires op.OpRegisterPolicy? && RegisterPolicy(s, op.policy, op.a).error == NoError
    ensures Framed(s, op, RegisterPolicy(s, op.policy, op.a).state)
  {
    hide PolicyFault, Withdraw;
    WithdrawFrame(s, OfPolicy(s, op.policy.id), Fencing);
  }

  lemma MarkWorkerDeadFrame(s: State, op: Op)
    requires op.OpMarkWorkerDead? && MarkWorkerDead(s, op.w, op.a).error == NoError
    ensures Framed(s, op, MarkWorkerDead(s, op.w, op.a).state)
  {
    hide Acceptable, Withdraw, SuspendAll, Vouched, OfWorker;
    WithdrawFrame(s, OfWorker(s, op.w, Vouched(s, op.w, s.workers[op.w].boot)), Fencing);
  }

  lemma RegistryFrames(s: State, op: Op)
    ensures op.OpRegisterConsumer? && RegisterConsumer(s, op.c, op.g, op.a).error == NoError ==>
              Framed(s, op, RegisterConsumer(s, op.c, op.g, op.a).state)
    ensures op.OpRegisterDomain? && RegisterDomain(s, op.domain, op.a).error == NoError ==>
              Framed(s, op, RegisterDomain(s, op.domain, op.a).state)
  {
    hide Acceptable;
  }

  lemma WorkerFrames(s: State, op: Op)
    ensures op.OpRegisterWorker? && RegisterWorker(s, op.w, op.boot, op.epoch, op.pid, op.a).error == NoError ==>
              Framed(s, op, RegisterWorker(s, op.w, op.boot, op.epoch, op.pid, op.a).state)
    ensures op.OpNoteWorkerHandle? ==> Framed(s, op, NoteWorkerHandle(s, op.w, op.holds))
  {
  }

  lemma MembersFramed(s: State, op: Op, pools: map<PoolId, PoolDescriptor>, regions: map<RegionId, RegionRecord>)
    requires (op.OpAddPoolMember? || op.OpRemovePoolMember?) && PoolsAfter(s, op, pools)
    ensures Framed(s, op, s.(pools := pools)) && Framed(s, op, s.(pools := pools, regions := regions))
  {
    hide PoolsAfter;
  }

  lemma AddPoolMemberFrame(s: State, op: Op)
    requires op.OpAddPoolMember? && AddPoolMember(s, op.into, op.member, op.a).error == NoError
    ensures Framed(s, op, AddPoolMember(s, op.into, op.member, op.a).state)
  {
    hide Framed, Acceptable, FirstOf;
    var d, rr := s.pools[op.into], s.regions[op.member.region];
    MembersFramed(s, op, s.pools[op.into := d.(members := d.members + [op.member])],
                  s.regions[op.member.region := rr.(memberships := rr.memberships + {(op.into, d.generation)})]);
  }

  lemma RemovePoolMemberFrame(s: State, op: Op)
    requires op.OpRemovePoolMember? && RemovePoolMember(s, op.from, op.region, op.a).error == NoError
    ensures Framed(s, op, RemovePoolMember(s, op.from, op.region, op.a).state)
  {
    hide Acceptable, Without;
  }

  lemma EntryFrame(s: State, op: Op)
    requires Enters(op) && Apply(s, op).error == NoError
    ensures Framed(s, op, Apply(s, op).state)
  {
    hide Apply, Framed, SetEpoch, RegisterConsumer, RegisterDomain, RegisterPool, RegisterPolicy, AddPoolMember, RemovePoolMember;
    hide RegisterWorker, MarkWorkerDead, NoteWorkerHandle;
    Endings.Applied(s, op);
    Endings.AppliedMembers(s, op);
    Endings.AppliedEntries(s, op);
    match op
    case OpSetEpoch(_) => SetEpochFrame(s, op);
    case OpRegisterPool(_, _) => RegisterPoolFrame(s, op);
    case OpRegisterPolicy(_, _) => RegisterPolicyFrame(s, op);
    case OpAddPoolMember(_, _, _) => AddPoolMemberFrame(s, op);
    case OpRemovePoolMember(_, _, _) => RemovePoolMemberFrame(s, op);
    case OpMarkWorkerDead(_, _) => MarkWorkerDeadFrame(s, op);
    case _ => RegistryFrames(s, op); WorkerFrames(s, op);
  }

  // The calls that leave those tables aside.

  lemma AsideSame(s: State)
    ensures FarAside(s, s)
  {
  }

  lemma AsideThen(s: State, t: State, u: State)
    requires Aside(s, t) && Aside(t, u)
    ensures Aside(s, u)
    ensures FarAside(s, t) && FarAside(t, u) ==> FarAside(s, u)
  {
  }

  lemma WithdrawAside(s: State, ids: set<ReservationId>, cause: Cause)
    ensures FarAside(s, Withdraw(s, ids, cause)) && Withdraw(s, ids, cause).regions.Keys == s.regions.Keys
  {
    WithdrawFrame(s, ids, cause);
    hide Withdraw;
  }

  lemma RegionAside(s: State, rid: RegionId, rr: RegionRecord)
    ensures FarAside(s, WithRegion(s, rid, rr)) && rid in WithRegion(s, rid, rr).regions
  {
  }

  lemma ReservationAside(s: State, r: Reservation, id: ReservationId, rr: RegionRecord, selections: nat, reservations: nat)
    ensures FarAside(s, WithReservation(s, r, id, rr))
    ensures FarAside(s, WithReservation(s, r, id, rr).(nextReservation := reservations).(nextSelection := selections))
    ensures FarAside(s, WithRegion(s, r.region, rr).(nextSelection := selections))
    ensures FarAside(s, s.(nextSelection := selections))
  {
  }

  lemma FollowAside(s: State, p: ProviderId, from: Lifecycle, to: Lifecycle)
    ensures Aside(s, Follow(s, p, from, to))
  {
  }

  lemma MapsAside(s: State, regions: map<RegionId, RegionRecord>, ps: map<ProviderId, ProviderRecord>)
    ensures FarAside(s, s.(regions := regions))
    ensures Aside(s, s.(providers := ps))
    ensures Aside(s, s.(regions := regions, providers := ps))
  {
  }

  lemma RegisterProviderAside(s: State, d: ProviderDescriptor, a: Authority)
    ensures Aside(s, RegisterProvider(s, d, a).state)
  {
    hide Aside, FarAside, ProviderFault, Withdraw, ForgetBacked;
    AsideSame(s);
    AsideIsAside(s, s);
    var w := Withdraw(s, OfProvider(s, d.id), Fencing);
    WithdrawAside(s, OfProvider(s, d.id), Fencing);
    AsideIsAside(s, w);
    MapsAside(s, s.regions, s.providers[d.id := ProviderRecord(d, Lifecycle.Registered)]);
    var ps := w.providers[d.id := ProviderRecord(d, Lifecycle.Registered)];
    MapsAside(w, ForgetBacked(w.regions, d.id), ps);
    AsideThen(s, w, w.(regions := ForgetBacked(w.regions, d.id), providers := ps));
  }

  lemma AsideIsAside(s: State, t: State)
    requires FarAside(s, t)
    ensures Aside(s, t) && t.providers == s.providers
  {
  }

  lemma RegisterRegionAside(s: State, d: RegionDescriptor, a: Authority)
    ensures FarAside(s, RegisterRegion(s, d, a).state)
  {
    hide Aside, FarAside, RegionFault, Withdraw, FreshRegion;
    AsideSame(s);
    var w := Withdraw(s, OfRegion(s, d.id), Fencing);
    WithdrawAside(s, OfRegion(s, d.id), Fencing);
    AsideIsAside(s, w);
    MapsAside(s, s.regions[d.id := FreshRegion(d, RegionLifecycle.Declared)], s.providers);
    var regions := w.regions[d.id := FreshRegion(d, RegionLifecycle.Declared)];
    MapsAside(w, regions, w.providers);
    AsideIsAside(w, w.(regions := regions));
    AsideThen(s, w, w.(regions := regions));
  }

  lemma RetireProviderAside(s: State, p: ProviderId, a: Authority)
    ensures Aside(s, RetireProvider(s, p, a).state)
  {
    hide Aside, FarAside, Acceptable, ProviderAllowed, Withdraw, RetireBacked;
    AsideSame(s);
    AsideIsAside(s, s);
    if p in s.providers {
      var w := Withdraw(s, OfProvider(s, p), Fencing);
      WithdrawAside(s, OfProvider(s, p), Fencing);
      AsideIsAside(s, w);
      var ps := w.providers[p := w.providers[p].(lifecycle := Lifecycle.Retired)];
      MapsAside(w, RetireBacked(w.regions, p), ps);
      AsideThen(s, w, w.(regions := RetireBacked(w.regions, p), providers := ps));
    }
  }

  /** One region's record rewritten after a withdrawal. */
  lemma WithdrawnAside(s: State, ids: set<ReservationId>, cause: Cause, region: RegionId, rr: RegionRecord)
    ensures FarAside(s, WithRegion(Withdraw(s, ids, cause), region, rr))
  {
    hide Aside, FarAside, Withdraw, WithRegion;
    var w := Withdraw(s, ids, cause);
    WithdrawAside(s, ids, cause);
    AsideIsAside(s, w);
    RegionAside(w, region, rr);
    AsideIsAside(w, WithRegion(w, region, rr));
    AsideThen(s, w, WithRegion(w, region, rr));
  }

  lemma RetireRegionAside(s: State, region: RegionId, a: Authority)
    ensures FarAside(s, RetireRegion(s, region, a).state)
  {
    hide Aside, FarAside, Acceptable, RegionAllowed, Withdraw, WithRegion;
    AsideSame(s);
    if region in s.regions {
      var w := Withdraw(s, OfRegion(s, region), Fencing);
      WithdrawAside(s, OfRegion(s, region), Fencing);
      WithdrawnAside(s, OfRegion(s, region), Fencing, region, w.regions[region].(lifecycle := RegionLifecycle.Retired));
    }
  }

  lemma StartDrainingAside(t: State, region: RegionId)
    requires region in t.regions
    ensures Aside(t, StartDraining(t, region).state)
  {
    hide Aside, FarAside, Transfer, WithRegion, Follow;
    var rr := t.regions[region];
    var l := Transfer(rr.ledger, Free, Bucket.Draining, rr.ledger.free).ledger;
    RegionAside(t, region, rr.(ledger := l));
    AsideIsAside(t, WithRegion(t, region, rr.(ledger := l)));
    var u := WithRegion(t, region, rr.(ledger := l, lifecycle := RegionLifecycle.Draining));
    RegionAside(t, region, rr.(ledger := l, lifecycle := RegionLifecycle.Draining));
    AsideIsAside(t, u);
    FollowAside(u, rr.descriptor.provider, Lifecycle.Online, Lifecycle.Draining);
    AsideThen(t, u, Follow(u, rr.descriptor.provider, Lifecycle.Online, Lifecycle.Draining));
  }

  lemma BeginDrainAside(s: State, region: RegionId, a: Authority)
    ensures Aside(s, BeginDrain(s, region, a).state)
  {
    hide Aside, FarAside, Acceptable, RegionAllowed, Withdraw, StartDraining;
    AsideSame(s);
    AsideIsAside(s, s);
    if region in s.regions {
      var w := Withdraw(s, OfRegion(s, region), DrainStart);
      WithdrawAside(s, OfRegion(s, region), DrainStart);
      AsideIsAside(s, w);
      StartDrainingAside(w, region);
      AsideThen(s, w, StartDraining(w, region).state);
    }
  }

  lemma MarkUnavailableAside(s: State, region: RegionId, a: Authority)
    ensures FarAside(s, MarkUnavailable(s, region, a).state)
  {
    hide Aside, FarAside, Acceptable, RegionAllowed, Withdraw, Transfer, WithRegion;
    AsideSame(s);
    if region in s.regions {
      var rr := s.regions[region];
      var u := WithRegion(s, region, rr.(ledger := Transfer(rr.ledger, Free, Bucket.Unavailable, rr.ledger.free).ledger));
      RegionAside(s, region, rr.(ledger := Transfer(rr.ledger, Free, Bucket.Unavailable, rr.ledger.free).ledger));
      AsideIsAside(s, u);
      var w := Withdraw(u, OfRegion(s, region), Fencing);
      WithdrawAside(u, OfRegion(s, region), Fencing);
      var rr' := w.regions[region].(lifecycle := RegionLifecycle.Unavailable);
      WithdrawnAside(u, OfRegion(s, region), Fencing, region, rr');
      AsideIsAside(u, WithRegion(w, region, rr'));
      AsideThen(s, u, WithRegion(w, region, rr'));
    }
  }

  lemma CompleteDrainAside(s: State, region: RegionId, a: Authority)
    ensures Aside(s, CompleteDrain(s, region, a).state)
  {
    hide Aside, FarAside, Acceptable, Transfer, WithRegion, Follow;
    AsideSame(s);
    AsideIsAside(s, s);
    if region in s.regions {
      var rr := s.regions[region];
      var l := Transfer(rr.ledger, Bucket.Draining, Bucket.Unavailable, rr.ledger.draining).ledger;
      RegionAside(s, region, rr.(ledger := l));
      AsideIsAside(s, WithRegion(s, region, rr.(ledger := l)));
      var u := WithRegion(s, region, rr.(ledger := l, lifecycle := RegionLifecycle.Unavailable));
      RegionAside(s, region, rr.(ledger := l, lifecycle := RegionLifecycle.Unavailable));
      AsideIsAside(s, u);
      FollowAside(u, rr.descriptor.provider, Lifecycle.Draining, Lifecycle.Offline);
      AsideThen(s, u, Follow(u, rr.descriptor.provider, Lifecycle.Draining, Lifecycle.Offline));
    }
  }

  lemma ReturnAside(s: State, region: RegionId, a: Authority)
    ensures FarAside(s, CancelDrain(s, region, a).state)
    ensures FarAside(s, RecoverRegion(s, region, a).state)
  {
    hide Aside, FarAside, Acceptable, Transfer, WithRegion;
    AsideSame(s);
    if region in s.regions {
      var rr := s.regions[region];
      var l := Transfer(rr.ledger, Bucket.Draining, Free, rr.ledger.draining).ledger;
      RegionAside(s, region, rr.(ledger := l));
      RegionAside(s, region, rr.(ledger := l, lifecycle := RegionLifecycle.Online));
      var m := Transfer(rr.ledger, Bucket.Unavailable, Free, rr.ledger.unavailable).ledger;
      RegionAside(s, region, rr.(ledger := m, lifecycle := RegionLifecycle.Declared,
                                 evidenceStatus := EvidenceStatus.RevalidationRequired));
    }
  }

  lemma PublishEvidenceAside(s: State, e: RegionEvidence, a: Authority)
    ensures Aside(s, PublishEvidence(s, e, a).state)
  {
    hide Aside, FarAside, SetOnline, Acceptable, RegionAllowed, Reflect, HealthTarget, TakeEvidence;
    AsideSame(s);
    AsideIsAside(s, s);
    if EvidenceFault(s, e, a) == NoError {
      hide EvidenceFault;
      var rid := e.header.region;
      var rr := s.regions[rid];
      var m := SetOnline(rr.ledger, e.onlineCapacityBytes);
      var taken := TakeEvidence(rr, m.ledger, e);
      var done := taken.(lifecycle := HealthTarget(e.health));
      MapsAside(s, s.regions[rid := rr.(ledger := m.ledger)], s.providers);
      AsideIsAside(s, s.(regions := s.regions[rid := rr.(ledger := m.ledger)]));
      MapsAside(s, s.regions[rid := taken], s.providers);
      AsideIsAside(s, s.(regions := s.regions[rid := taken]));
      MapsAside(s, s.regions[rid := done], Reflect(s.providers, done));
    }
  }

  lemma PublishAttachmentAside(s: State, e: AttachmentEvidence, a: Authority)
    ensures FarAside(s, PublishAttachment(s, e, a).state)
  {
    hide Aside, FarAside, Acceptable, PutAttachment;
    AsideSame(s);
    if e.region in s.regions {
      var rr := s.regions[e.region];
      MapsAside(s, s.regions[e.region := rr.(attachments := PutAttachment(rr.attachments, e))], s.providers);
    }
  }

  lemma SelectAside(s: State, req: Request, a: Authority)
    ensures FarAside(s, Select(s, req, a).state)
  {
    hide Aside, FarAside, Acceptable;
    AsideSame(s);
    CountedAside(s, s.nextSelection + 1);
  }

  lemma ReserveOnAside(s: State, req: Request, a: Authority, now: U64, rid: RegionId)
    requires rid in s.regions
    ensures FarAside(s, ReserveOn(s, req, a, now, rid).state)
  {
    hide Aside, FarAside, Transfer, Mint, WithRegion, WithReservation;
    var rr := s.regions[rid];
    var l := Transfer(rr.ledger, Free, Bucket.Reserved, req.requiredBytes).ledger;
    var r := Bind(s, req, a, now, rid);
    ReservationAside(s, r, r.id, rr.(ledger := l), s.nextSelection + 1, s.nextReservation + 1);
  }

  lemma ReserveAside(s: State, req: Request, a: Authority, now: U64)
    ensures FarAside(s, Reserve(s, req, a, now).state)
  {
    hide Aside, FarAside, ReserveFault, ReserveOn, Selection.RankedIds;
    AsideSame(s);
    CountedAside(s, s.nextSelection + 1);
    var ids := Selection.RankedIds(s, req);
    if ids != [] && ids[0] in s.regions { ReserveOnAside(s, req, a, now, ids[0]); }
  }

  lemma CountedAside(s: State, n: nat)
    ensures FarAside(s, s.(nextSelection := n))
  {
  }

  lemma CommitAside(s: State, id: ReservationId, a: Authority)
    ensures FarAside(s, Commit(s, id, a).state)
  {
    hide Aside, FarAside, Acceptable, BindingFault, HolderFault, FreshnessFault, Transfer, WithRegion, WithReservation;
    AsideSame(s);
    if id in s.reservations && BindingFault(s, s.reservations[id]) == NoError {
      Progress.RegionBound(s, id, a);
      var r := s.reservations[id];
      var rr := s.regions[r.region];
      var rr' := rr.(ledger := Transfer(rr.ledger, Bucket.Reserved, Bucket.Committed, r.bytes).ledger);
      RegionAside(s, r.region, rr');
      ReservationAside(s, r.(state := ReservationState.Committed), id, rr', 0, 0);
    }
  }

  lemma ReleaseAside(s: State, id: ReservationId, a: Authority)
    ensures FarAside(s, Release(s, id, a).state)
  {
    hide Aside, FarAside, Acceptable, Transfer, WithRegion, WithReservation;
    AsideSame(s);
    if id in s.reservations && s.reservations[id].region in s.regions {
      var r := s.reservations[id];
      var rr := s.regions[r.region];
      var from := if r.state.Reserved? then Bucket.Reserved else Bucket.Committed;
      var rr' := rr.(ledger := Transfer(rr.ledger, from, Free, r.bytes).ledger);
      RegionAside(s, r.region, rr');
      ReservationAside(s, r.(state := Released), id, rr', 0, 0);
    }
  }

  lemma EveryAside(s: State, op: Op)
    requires !Enters(op)
    ensures Aside(s, Apply(s, op).state) && (!MovesProviders(op) ==> FarAside(s, Apply(s, op).state))
  {
    hide Apply, Aside, FarAside, RegisterProvider, RegisterRegion, PublishEvidence, PublishAttachment, BeginDrain, CompleteDrain;
    hide CancelDrain, MarkUnavailable, RecoverRegion, RetireProvider, RetireRegion, Select, Reserve, Commit, Release;
    Endings.Applied(s, op);
    Endings.AppliedMembers(s, op);
    Endings.AppliedRegion(s, op);
    match op {
      case OpRegisterProvider(d, a) => RegisterProviderAside(s, d, a);
      case OpRegisterRegion(d, a) => RegisterRegionAside(s, d, a);
      case OpRetireProvider(p, a) => RetireProviderAside(s, p, a);
      case OpRetireRegion(region, a) => RetireRegionAside(s, region, a);
      case OpBeginDrain(region, a) => BeginDrainAside(s, region, a);
      case OpMarkUnavailable(region, a) => MarkUnavailableAside(s, region, a);
      case OpCompleteDrain(region, a) => CompleteDrainAside(s, region, a);
      case OpCancelDrain(region, a) => ReturnAside(s, region, a);
      case OpRecoverRegion(region, a) => ReturnAside(s, region, a);
      case OpPublishEvidence(e, a) => PublishEvidenceAside(s, e, a);
      case OpPublishAttachment(e, a) => PublishAttachmentAside(s, e, a);
      case OpSelect(req, a) => SelectAside(s, req, a);
      case OpReserve(req, a, now) => ReserveAside(s, req, a, now);
      case OpCommit(id, a) => CommitAside(s, id, a);
      case OpRelease(id, a) => ReleaseAside(s, id, a);
      case _ =>
    }
    if FarAside(s, Apply(s, op).state) { AsideIsAside(s, Apply(s, op).state); }
  }

  lemma EveryFrame(s: State, op: Op)
    requires Apply(s, op).error == NoError
    ensures Framed(s, op, Apply(s, op).state)
  {
    hide Apply, Framed, Aside, FarAside;
    if Enters(op) {
      EntryFrame(s, op);
    } else {
      EveryAside(s, op);
      AsideFramed(s, op, Apply(s, op).state);
    }
  }

  /** Every accepted operation, every other table: exactly what becomes of it. */
  lemma EveryTable(s: State, op: Op)
    requires Apply(s, op).error == NoError
    ensures TablesAfter(s, op, Apply(s, op).state)
  {
    hide Apply, TablesAfter;
    EveryFrame(s, op);
  }

  lemma SameProviders(s: State, op: Op)
    requires !MovesProviders(op)
    ensures ProvidersAfter(s, op, s.providers)
  {
  }

  /** Every accepted operation, every provider: exactly what becomes of it. */
  lemma EveryProvider(s: State, op: Op)
    requires Inv(s) && s.nextReservation <= U64_MAX && Apply(s, op).error == NoError
    ensures ProvidersAfter(s, op, Apply(s, op).state.providers)
  {
    hide Inv, Apply, ProvidersAfter, TablesAfter, RegisterProvider, RetireProvider, BeginDrain, CompleteDrain, PublishEvidence;
    Endings.Applied(s, op);
    Endings.AppliedMembers(s, op);
    Endings.AppliedRegion(s, op);
    match op
    case OpRegisterProvider(_, _) => RegistryProviders(s, op);
    case OpRetireProvider(_, _) => RegistryProviders(s, op);
    case OpBeginDrain(_, _) => BeginDrainProviders(s, op);
    case OpCompleteDrain(_, _) => CompleteDrainProviders(s, op);
    case OpPublishEvidence(_, _) => PublishEvidenceProviders(s, op);
    case _ => EveryFrame(s, op); SameProviders(s, op);
  }
}
