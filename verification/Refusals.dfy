/** What a refused call leaves behind, exactly, and two audit checks that hold less often than they are meant to. */
module Refusals {
  import opened Words
  import opened Types
  import opened Ledgers
  import opened Records
  import opened Operations
  import opened Invariants
  import opened Preservation
  import opened Fencing
  import opened Guarantees
  import opened Scenarios
  import Selection

  // ---- A refused call changes nothing, with one exception ----

  /** Evidence that passed every check and whose online capacity was applied, refused only for its health. */
  predicate RefusedForHealth(s: State, e: RegionEvidence, a: Authority) {
    && EvidenceFault(s, e, a) == NoError
    && SetOnline(s.regions[e.header.region].ledger, e.onlineCapacityBytes).ok
    && e.health == HEALTH_DEGRADED
    && (s.regions[e.header.region].lifecycle.Unavailable? || s.regions[e.header.region].lifecycle.RevalidationRequired?)
  }

  lemma HealthTransition(l: RegionLifecycle, h: HealthState)
    requires !l.Draining? && !l.Retired?
    ensures HealthTarget(h) != l && !RegionAllowed(l, HealthTarget(h))
       <==> h == HEALTH_DEGRADED && (l.Unavailable? || l.RevalidationRequired?)
  {
  }

  /** The late refusal happens exactly for DEGRADED health reported into an UNAVAILABLE or REVALIDATION_REQUIRED region. */
  lemma EvidenceRefusedForHealthIff(s: State, e: RegionEvidence, a: Authority)
    requires EvidenceFault(s, e, a) == NoError
    requires SetOnline(s.regions[e.header.region].ledger, e.onlineCapacityBytes).ok
    ensures PublishEvidence(s, e, a).error == if RefusedForHealth(s, e, a) then InvalidTransition else NoError
  {
    HealthTransition(s.regions[e.header.region].lifecycle, e.health);
    hide SetOnline, Acceptable, Reflect, HealthTarget, RegionAllowed, TakeEvidence;
  }

  /** Any other refusal of evidence leaves every table as it was. */
  lemma EvidenceRefused(s: State, e: RegionEvidence, a: Authority)
    requires Inv(s) && PublishEvidence(s, e, a).error != NoError && !RefusedForHealth(s, e, a)
    ensures PublishEvidence(s, e, a).state == s
  {
    hide Inv, SetOnline, Reflect;
    if EvidenceFault(s, e, a) == NoError {
      var rid := e.header.region;
      ClosedLedger(s, rid);
      SetOnlineFromClosed(s.regions[rid].ledger, e.onlineCapacityBytes);
      if SetOnline(s.regions[rid].ledger, e.onlineCapacityBytes).ok {
        EvidenceRefusedForHealthIff(s, e, a);
      } else {
        assert s.regions[rid := s.regions[rid]] == s.regions;
      }
    }
    hide EvidenceFault;
  }

  /** Even then closure and accounting stand, and the region is not eligible for anything. */
  lemma RefusedEvidenceIneligible(s: State, e: RegionEvidence, a: Authority, req: Request)
    requires Inv(s) && RefusedForHealth(s, e, a)
    ensures Inv(PublishEvidence(s, e, a).state)
    ensures !Selection.IsCandidate(PublishEvidence(s, e, a).state, req, e.header.region)
  {
    PublishEvidenceKeeps(s, e, a);
    EvidenceRefusedForHealthIff(s, e, a);
    var t := PublishEvidence(s, e, a).state;
    hide Inv, SetOnline, Acceptable, Reflect;
    var l := t.regions[e.header.region].lifecycle;
    assert l == s.regions[e.header.region].lifecycle;
    hide PublishEvidence, EvidenceFault;
    if Selection.IsCandidate(t, req, e.header.region) { Selection.CandidateFacts(t, req, e.header.region); }
  }

  // ---- Per operation: refusal means no change ----

  lemma LedgerRefusals(l: Ledger)
    requires l.Closed()
    ensures Transfer(l, Free, Bucket.Draining, l.free).ok
    ensures Transfer(l, Bucket.Draining, Bucket.Unavailable, l.draining).ok
    ensures Transfer(l, Bucket.Draining, Free, l.draining).ok
    ensures Transfer(l, Free, Bucket.Unavailable, l.free).ok
  {
  }

  lemma BeginDrainRefused(s: State, region: RegionId, a: Authority)
    requires Inv(s) && BeginDrain(s, region, a).error != NoError
    ensures BeginDrain(s, region, a).state == s
  {
    if RegionGuard(s, region, a) == NoError && RegionAllowed(s.regions[region].lifecycle, RegionLifecycle.Draining) {
      BeginDrainSucceeds(s, region, a);
    }
    hide Inv, Withdraw, Transfer, Acceptable, RegionAllowed, StartDraining;
  }

  lemma CompleteDrainRefused(s: State, region: RegionId, a: Authority)
    requires Inv(s) && CompleteDrain(s, region, a).error != NoError
    ensures CompleteDrain(s, region, a).state == s
  {
    hide Inv, Transfer, Acceptable, WithRegion, Follow;
    if region in s.regions { ClosedLedger(s, region); LedgerRefusals(s.regions[region].ledger); }
  }

  lemma CancelDrainRefused(s: State, region: RegionId, a: Authority)
    requires Inv(s) && CancelDrain(s, region, a).error != NoError
    ensures CancelDrain(s, region, a).state == s
  {
    hide Inv, Transfer, Acceptable, WithRegion;
    if region in s.regions { ClosedLedger(s, region); LedgerRefusals(s.regions[region].ledger); }
  }

  lemma MarkUnavailableRefused(s: State, region: RegionId, a: Authority)
    requires Inv(s) && MarkUnavailable(s, region, a).error != NoError
    ensures MarkUnavailable(s, region, a).state == s
  {
    hide Inv, Transfer, Acceptable, Withdraw, RegionAllowed;
    if region in s.regions { ClosedLedger(s, region); LedgerRefusals(s.regions[region].ledger); }
  }

  lemma ReserveRefused(s: State, req: Request, a: Authority, now: U64)
    requires Inv(s) && s.nextReservation <= U64_MAX && Reserve(s, req, a, now).error != NoError
    ensures SameMaps(s, Reserve(s, req, a, now).state)
  {
    if ReserveFault(s, req, a) == NoError {
      if Selection.RankedIds(s, req) == [] { UnrankedIsRefused(s, req, a, now); }
      else { RankedIsReservable(s, req, a, now); }
    }
    hide Inv, ReserveFault, Selection.RankedIds, ReserveOn;
  }

  lemma CommitRefused(s: State, id: ReservationId, a: Authority)
    requires Inv(s) && Commit(s, id, a).error != NoError
    ensures Commit(s, id, a).state == s
  {
    hide Inv, Transfer, Exchange, BindingFault, HolderFault, FreshnessFault, Acceptable, WithRegion, WithReservation, Held;
    if id in s.reservations && s.reservations[id].state.Reserved? {
      HeldByLedger(s, id);
      CommitExchange(s, id);
    }
  }

  lemma ReleaseRefused(s: State, id: ReservationId, a: Authority)
    requires Inv(s) && Release(s, id, a).error != NoError
    ensures Release(s, id, a).state == s
  {
    if id in s.reservations && Live(s.reservations[id]) && Acceptable(s, a) { ReleaseAlwaysSucceeds(s, id, a); }
    hide Inv, Transfer, Acceptable, WithRegion, WithReservation, Freed;
  }

  lemma ConfigurationRefused(s: State, op: Op)
    requires IsConfiguration(op) && Apply(s, op).error != NoError
    ensures SameMaps(s, Apply(s, op).state)
  {
    hide SetEpoch, PublishEvidence, PublishAttachment, BeginDrain, CompleteDrain, CancelDrain;
    hide MarkUnavailable, RecoverRegion, RetireProvider, RetireRegion, RegisterWorker, MarkWorkerDead, NoteWorkerHandle;
    hide Select, Reserve, Commit, Release, Acceptable, Contradictory, Withdraw, Without, FirstOf;
    hide ProviderFault, RegionFault, PoolFault, PolicyFault;
    assert Apply(s, op).state == s;
  }

  lemma LifecycleRefused(s: State, op: Op)
    requires Inv(s) && IsLifecycle(op) && Apply(s, op).error != NoError
    requires op.OpPublishEvidence? ==> !RefusedForHealth(s, op.evidence, op.a)
    ensures Apply(s, op).state == s
  {
    hide Inv, SetEpoch, RegisterConsumer, RegisterProvider, RegisterDomain, RegisterRegion, RegisterPool, RegisterPolicy;
    hide AddPoolMember, RemovePoolMember, PublishEvidence, BeginDrain, CompleteDrain, CancelDrain;
    hide MarkUnavailable, RegisterWorker, MarkWorkerDead, NoteWorkerHandle;
    hide Select, Reserve, Commit, Release, Withdraw, Transfer, Acceptable, RefusedForHealth;
    match op
    case OpPublishEvidence(e, a) => EvidenceRefused(s, e, a);
    case OpBeginDrain(region, a) => BeginDrainRefused(s, region, a);
    case OpCompleteDrain(region, a) => CompleteDrainRefused(s, region, a);
    case OpCancelDrain(region, a) => CancelDrainRefused(s, region, a);
    case OpMarkUnavailable(region, a) => MarkUnavailableRefused(s, region, a);
    case _ =>
  }

  lemma UsageRefused(s: State, op: Op)
    requires Inv(s) && s.nextReservation <= U64_MAX && IsUsage(op) && Apply(s, op).error != NoError
    ensures SameMaps(s, Apply(s, op).state)
  {
    hide Inv, SetEpoch, RegisterConsumer, RegisterProvider, RegisterDomain, RegisterRegion, RegisterPool, RegisterPolicy;
    hide AddPoolMember, RemovePoolMember, PublishEvidence, PublishAttachment, BeginDrain, CompleteDrain, CancelDrain;
    hide MarkUnavailable, RecoverRegion, RetireProvider, RetireRegion;
    hide Reserve, Commit, Release, Withdraw, Acceptable;
    match op
    case OpReserve(req, a, now) => ReserveRefused(s, req, a, now);
    case OpCommit(id, a) => CommitRefused(s, id, a);
    case OpRelease(id, a) => ReleaseRefused(s, id, a);
    case _ =>
  }

  /** Every call that reports an error leaves all tables unchanged, except evidence refused for its health. */
  lemma RefusedCallsChangeNothing(s: State, op: Op)
    requires Inv(s) && s.nextReservation <= U64_MAX && Apply(s, op).error != NoError
    requires op.OpPublishEvidence? ==> !RefusedForHealth(s, op.evidence, op.a)
    ensures SameMaps(s, Apply(s, op).state)
  {
    hide Inv, Apply, RefusedForHealth;
    if IsConfiguration(op) { ConfigurationRefused(s, op); }
    else if IsLifecycle(op) { LifecycleRefused(s, op); }
    else { UsageRefused(s, op); }
  }

  // ---- The late refusal does change the tables ----

  /** The region's record is already what taking in this evidence would make it, as when the same evidence is sent again. */
  predicate AlreadyTaken(s: State, e: RegionEvidence) {
    && e.header.region in s.regions
    && var rr := s.regions[e.header.region];
       rr == TakeEvidence(rr, SetOnline(rr.ledger, e.onlineCapacityBytes).ledger, e)
  }

  lemma LateRefusal(s: State, e: RegionEvidence, a: Authority)
    requires RefusedForHealth(s, e, a)
    ensures var rid := e.header.region;
            var taken := TakeEvidence(s.regions[rid], SetOnline(s.regions[rid].ledger, e.onlineCapacityBytes).ledger, e);
            PublishEvidence(s, e, a) == Step(s.(regions := s.regions[rid := taken]), InvalidTransition)
  {
    HealthTransition(s.regions[e.header.region].lifecycle, e.health);
    hide SetOnline, Acceptable, Reflect, HealthTarget, RegionAllowed, TakeEvidence;
  }

  lemma RegionPutSame(s: State, rid: RegionId, rr: RegionRecord)
    requires rid in s.regions
    ensures SameMaps(s, s.(regions := s.regions[rid := rr])) <==> rr == s.regions[rid]
  {
    var regions := s.regions[rid := rr];
    assert regions[rid] == rr;
    if rr == s.regions[rid] { assert regions == s.regions; }
  }

  lemma LateRefusalChangesIff(s: State, e: RegionEvidence, a: Authority)
    requires RefusedForHealth(s, e, a)
    ensures PublishEvidence(s, e, a).error != NoError
    ensures SameMaps(s, PublishEvidence(s, e, a).state) <==> AlreadyTaken(s, e)
  {
    LateRefusal(s, e, a);
    hide PublishEvidence, EvidenceFault, SetOnline, TakeEvidence, SameMaps;
    var rid := e.header.region;
    RegionPutSame(s, rid, TakeEvidence(s.regions[rid], SetOnline(s.regions[rid].ledger, e.onlineCapacityBytes).ledger, e));
  }

  /** A call that is refused and yet leaves a table changed. */
  predicate ChangesThoughRefused(s: State, op: Op) {
    op.OpPublishEvidence? && RefusedForHealth(s, op.evidence, op.a) && !AlreadyTaken(s, op.evidence)
  }

  /**
   A call that reports an error leaves all tables unchanged if and only if it is not evidence refused
   for its health, or is evidence the region's record already shows.
   */
  lemma RefusedChangesNothingIff(s: State, op: Op)
    requires Inv(s) && s.nextReservation <= U64_MAX && Apply(s, op).error != NoError
    ensures SameMaps(s, Apply(s, op).state) <==> !ChangesThoughRefused(s, op)
  {
    hide Inv, Apply, RefusedForHealth, AlreadyTaken, SameMaps, PublishEvidence;
    if op.OpPublishEvidence? && RefusedForHealth(s, op.evidence, op.a) {
      AppliedEvidence(s, op);
      LateRefusalChangesIff(s, op.evidence, op.a);
    } else {
      RefusedCallsChangeNothing(s, op);
    }
  }

  lemma AppliedEvidence(s: State, op: Op)
    requires op.OpPublishEvidence?
    ensures Apply(s, op) == PublishEvidence(s, op.evidence, op.a)
  {
    hide PublishEvidence;
  }

  lemma FailedRecord(s: State, e: RegionEvidence, a: Authority)
    requires EvidenceFault(s, e, a) == NoError && e.health == HEALTH_FAILED
    requires SetOnline(s.regions[e.header.region].ledger, e.onlineCapacityBytes).ok
    ensures var t, rid := PublishEvidence(s, e, a).state, e.header.region;
            && rid in t.regions && t.regions[rid].lifecycle.RevalidationRequired? && t.regions[rid].latest == e
            && t.regions[rid].descriptor == s.regions[rid].descriptor
            && t.regions[rid].ledger == SetOnline(s.regions[rid].ledger, e.onlineCapacityBytes).ledger
            && t.epoch == s.epoch && t.workers == s.workers
  {
    HealthTransition(s.regions[e.header.region].lifecycle, e.health);
    hide SetOnline, Acceptable, Reflect, RegionAllowed;
  }

  predicate SameDescriptors(ps: map<ProviderId, ProviderRecord>, ps': map<ProviderId, ProviderRecord>) {
    ps'.Keys == ps.Keys && forall p :: p in ps ==> ps'[p].descriptor == ps[p].descriptor
  }

  lemma ReflectSparesDescriptors(ps: map<ProviderId, ProviderRecord>, rr: RegionRecord)
    ensures SameDescriptors(ps, ps) && SameDescriptors(ps, Reflect(ps, rr))
  {
  }

  lemma EvidenceSparesProviders(s: State, e: RegionEvidence, a: Authority)
    requires EvidenceFault(s, e, a) == NoError
    ensures SameDescriptors(s.providers, PublishEvidence(s, e, a).state.providers)
  {
    hide SameDescriptors, SetOnline, Acceptable, Reflect, RegionAllowed, HealthTarget, TakeEvidence;
    var rr := s.regions[e.header.region];
    var taken := TakeEvidence(rr, SetOnline(rr.ledger, e.onlineCapacityBytes).ledger, e);
    ReflectSparesDescriptors(s.providers, taken.(lifecycle := HealthTarget(e.health)));
  }

  lemma SetOnlineAgain(l: Ledger, online: U64)
    requires l.Closed() && SetOnline(l, online).ok
    ensures SetOnline(SetOnline(l, online).ledger, online).ok
  {
  }

  /** After any FAILED evidence the same evidence with DEGRADED health is refused and changes the region's record. */
  lemma FailedThenDegraded(s: State, e: RegionEvidence, a: Authority)
    requires Inv(s) && EvidenceFault(s, e, a) == NoError && e.health == HEALTH_FAILED
    requires SetOnline(s.regions[e.header.region].ledger, e.onlineCapacityBytes).ok
    ensures ChangesThoughRefused(PublishEvidence(s, e, a).state, OpPublishEvidence(e.(health := HEALTH_DEGRADED), a))
  {
    FailedRecord(s, e, a);
    EvidenceSparesProviders(s, e, a);
    ClosedLedger(s, e.header.region);
    SetOnlineAgain(s.regions[e.header.region].ledger, e.onlineCapacityBytes);
    hide Inv, PublishEvidence, SetOnline;
  }

  // ---- The two audit checks that are not invariants ----

  /** The audit's last check: a region awaiting revalidation is not silently current. */
  predicate RevalidatedQuietly(rr: RegionRecord) {
    rr.lifecycle.RevalidationRequired? ==> !rr.evidenceStatus.Current?
  }

  /**
   Accepted evidence breaks that check exactly when it reports FAILED health, or DEGRADED health into
   a region already awaiting revalidation.
   */
  lemma EvidenceBreaksRevalidationCheckIff(s: State, e: RegionEvidence, a: Authority)
    requires EvidenceFault(s, e, a) == NoError
    requires SetOnline(s.regions[e.header.region].ledger, e.onlineCapacityBytes).ok
    ensures e.header.region in PublishEvidence(s, e, a).state.regions
    ensures RevalidatedQuietly(PublishEvidence(s, e, a).state.regions[e.header.region])
       <==> !(e.health == HEALTH_FAILED
              || (e.health == HEALTH_DEGRADED && s.regions[e.header.region].lifecycle.RevalidationRequired?))
  {
    EvidenceRefusedForHealthIff(s, e, a);
    hide SetOnline, Acceptable, Reflect, RegionAllowed;
  }

  predicate MemberCurrent(s: State, m: PoolMember) {
    m.region in s.regions && s.regions[m.region].descriptor.generation == m.generation
  }

  /** The audit's pool check: every member names a region that exists at that generation. */
  predicate MembersCurrent(s: State) {
    forall p, m :: p in s.pools && m in s.pools[p].members ==> MemberCurrent(s, m)
  }

  lemma ReincarnatedStructure(s: State, d: RegionDescriptor, a: Authority)
    requires RegisterRegion(s, d, a).error == NoError && d.id in s.regions
    ensures var t := RegisterRegion(s, d, a).state;
            && t.pools == s.pools && t.regions.Keys == s.regions.Keys
            && t.regions[d.id].descriptor == d && s.regions[d.id].descriptor.generation < d.generation
            && forall rid :: rid in s.regions && rid != d.id ==> t.regions[rid].descriptor == s.regions[rid].descriptor
  {
    hide Acceptable, Contradictory, Held, WithdrawAll;
  }

  /** Reincarnating a region keeps the pool check exactly when no pool lists the region: old entries are left behind. */
  lemma ReincarnationStalesMembersIff(s: State, d: RegionDescriptor, a: Authority)
    requires MembersCurrent(s) && RegisterRegion(s, d, a).error == NoError && d.id in s.regions
    ensures MembersCurrent(RegisterRegion(s, d, a).state)
       <==> forall p, m :: p in s.pools && m in s.pools[p].members ==> m.region != d.id
  {
    ReincarnatedStructure(s, d, a);
    hide RegisterRegion;
    var t := RegisterRegion(s, d, a).state;
    if p, m :| p in s.pools && m in s.pools[p].members && m.region == d.id {
      assert MemberCurrent(s, m);
      assert p in t.pools && m in t.pools[p].members && !MemberCurrent(t, m);
    } else {
      forall p, m | p in t.pools && m in t.pools[p].members
        ensures MemberCurrent(t, m)
      {
        assert p in s.pools && m in s.pools[p].members && MemberCurrent(s, m);
      }
    }
  }

  // ---- Concrete runs that fail the two checks ----

  /** FAILED health leaves a region awaiting revalidation with CURRENT evidence: a run of three calls does it. */
  lemma FailedHealthFailsAudit() returns (ops: seq<Op>, e: RegionEvidence, a: Authority)
    ensures |ops| == 2 && e.health == HEALTH_FAILED
    ensures var s := PublishEvidence(Run(Initial(1), ops), e, a).state;
            e.header.region in s.regions && !RevalidatedQuietly(s.regions[e.header.region])
  {
    ops, e, a := Setup(), FAILURE, OPERATOR;
    FurnishedRun();
    var s := Furnished();
    assert EvidenceFault(s, e, a) == NoError;
    assert SetOnline(s.regions[1].ledger, 64).ok;
    EvidenceBreaksRevalidationCheckIff(s, e, a);
    hide PublishEvidence, EvidenceFault, Run, SetOnline;
  }

  /** A region listed in a pool and then registered at a higher generation leaves a stale member behind. */
  lemma ReincarnationFailsAudit()
    ensures var s := RegisterPool(Furnished(), POOL, OPERATOR).state;
            MembersCurrent(s) && !MembersCurrent(RegisterRegion(s, REGION.(generation := 2), OPERATOR).state)
  {
    var s := RegisterPool(Furnished(), POOL, OPERATOR).state;
    assert s == Furnished().(pools := map[1 := POOL]);
    var d := REGION.(generation := 2);
    assert RegionFault(s, d, OPERATOR) == NoError;
    ReincarnationStalesMembersIff(s, d, OPERATOR);
    hide RegisterRegion;
    assert 1 in s.pools && POOL.members[0] in s.pools[1].members;
  }

  lemma FailureAccepted()
    ensures EvidenceFault(Furnished(), FAILURE, OPERATOR) == NoError && FAILURE.health == HEALTH_FAILED
    ensures SetOnline(Furnished().regions[FAILURE.header.region].ledger, FAILURE.onlineCapacityBytes).ok
  {
    EvidenceAccepted(FAILURE);
    OnlineOf64();
    assert Furnished().regions[1].ledger == Empty(64);
    hide EvidenceFault, SetOnline, Filled;
  }

  lemma FailedThenDegradedRun(s: State, ops: seq<Op>, e: RegionEvidence, a: Authority)
    requires Inv(Run(s, ops)) && EvidenceFault(Run(s, ops), e, a) == NoError && e.health == HEALTH_FAILED
    requires SetOnline(Run(s, ops).regions[e.header.region].ledger, e.onlineCapacityBytes).ok
    ensures var t := Run(s, ops + [OpPublishEvidence(e, a)]);
            var step := Apply(t, OpPublishEvidence(e.(health := HEALTH_DEGRADED), a));
            step.error == InvalidTransition && !SameMaps(t, step.state)
  {
    hide Run, Apply, PublishEvidence, EvidenceFault, SetOnline, Inv, AlreadyTaken, SameMaps, TakeEvidence;
    var u := Run(s, ops);
    RunThen(s, ops, OpPublishEvidence(e, a));
    AppliedEvidence(u, OpPublishEvidence(e, a));
    var t, e' := PublishEvidence(u, e, a).state, e.(health := HEALTH_DEGRADED);
    FailedThenDegraded(u, e, a);
    AppliedEvidence(t, OpPublishEvidence(e', a));
    LateRefusal(t, e', a);
    LateRefusalChangesIff(t, e', a);
  }

  /** A run of four calls whose last is refused with INVALID_TRANSITION and leaves the region's record changed. */
  lemma DegradedChangesThoughRefused() returns (ops: seq<Op>, last: Op)
    ensures var s := Run(Initial(1), ops);
            |ops| == 3 && Apply(s, last).error == InvalidTransition && !SameMaps(s, Apply(s, last).state)
  {
    hide Run, Apply, PublishEvidence, EvidenceFault, SetOnline, Inv, Furnished, SameMaps;
    ops, last := Setup() + [OpPublishEvidence(FAILURE, OPERATOR)], OpPublishEvidence(DEGRADED, OPERATOR);
    ReachableInv(1, Setup());
    FurnishedRun();
    FailureAccepted();
    FailedThenDegradedRun(Initial(1), Setup(), FAILURE, OPERATOR);
  }
}
