/** Exactly which calls are accepted: for each of the twenty-five operations a condition its caller could check beforehand. */
module Admission {
  import opened Words
  import opened Types
  import opened Ledgers
  import opened Records
  import opened Operations
  import opened Invariants
  import opened Preservation
  import Bindings
  import Endings
  import Fencing
  import Guarantees
  import Refusals
  import Selection
  import Service

  // ---- The conditions ----

  /** An operator of the present epoch, or a worker admitted in it, alive, and speaking under its last boot. */
  predicate Speaks(s: State, a: Authority) {
    && a.epoch == s.epoch
    && (a.worker == NULL ||
          (a.worker in s.workers && s.workers[a.worker] == s.workers[a.worker].(boot := a.boot, registeredEpoch := s.epoch, alive := true)))
  }

  /** Nothing is both persistent and volatile, or both byte-addressable and block-oriented. */
  predicate Coherent(caps: CapabilityModel) {
    && !(Says(caps, KEY_PERSISTENT, CAPABILITY_SUPPORTED) && Says(caps, KEY_VOLATILE, CAPABILITY_SUPPORTED))
    && !(Says(caps, KEY_BYTE_ADDRESSABLE, CAPABILITY_SUPPORTED) && Says(caps, KEY_BLOCK_ORIENTED, CAPABILITY_SUPPORTED))
  }

  predicate Sized(total: U64, alignment: U64, granularity: U64) { total > 0 && alignment > 0 && granularity > 0 }

  /** No entry for the region, or the first one is at another generation. */
  predicate MayJoin(d: PoolDescriptor, m: PoolMember) {
    forall i :: 0 <= i < |d.members| && d.members[i] == m ==> exists j :: 0 <= j < i && d.members[j].region == m.region
  }

  ghost predicate RegistrationAdmitted(s: State, op: Op)
    requires IsConfiguration(op)
  {
    match op
    case OpSetEpoch(_) => true
    case OpRegisterConsumer(c, g, a) =>
      Speaks(s, a) && c != NULL && g != NULL && (c in s.consumers ==> s.consumers[c] < g)
    case OpRegisterProvider(d, a) =>
      && Speaks(s, a) && d.id != NULL && d.generation != NULL
      && Sized(d.totalCapacityBytes, d.alignmentBytes, d.granularityBytes) && Coherent(d.capabilities)
      && (d.id in s.providers ==> s.providers[d.id].descriptor.generation < d.generation)
    case OpRegisterDomain(d, a) =>
      && Speaks(s, a) && d.id != NULL && d.generation != NULL
      && (d.id in s.domains ==> s.domains[d.id].descriptor.generation < d.generation)
    case OpRegisterRegion(d, a) =>
      && Speaks(s, a) && d.id != NULL && d.generation != NULL && d.provider != NULL && d.provider in s.providers
      && Sized(d.totalCapacityBytes, d.alignmentBytes, d.granularityBytes) && Coherent(d.staticCapabilities)
      && (d.id in s.regions ==> s.regions[d.id].descriptor.generation < d.generation)
    case OpRegisterPool(d, a) =>
      && Speaks(s, a) && d.id != NULL && d.generation != NULL
      && (d.id in s.pools ==> s.pools[d.id].generation < d.generation)
    case OpRegisterPolicy(d, a) =>
      && Speaks(s, a) && d.id != NULL && d.generation != NULL
      && (d.id in s.policies ==> s.policies[d.id].generation < d.generation)
    case OpAddPoolMember(pool, m, a) =>
      && Speaks(s, a) && pool in s.pools && m.region in s.regions && m.generation != NULL
      && s.regions[m.region].descriptor.generation == m.generation && MayJoin(s.pools[pool], m)
    case OpRemovePoolMember(pool, region, a) => Speaks(s, a) && pool in s.pools && Names(s.pools[pool], region)
  }

  predicate LifecycleAdmitted(s: State, op: Op)
    requires IsLifecycle(op)
  {
    match op
    case OpPublishEvidence(e, a) =>
      Speaks(s, a) && Service.Attributed(s, e, a) && Service.Publishable(s.regions[e.header.region], e)
    case OpPublishAttachment(e, a) =>
      && Speaks(s, a) && e.epoch == s.epoch && e.id != NULL && e.generation != NULL
      && e.region in s.regions && e.regionGeneration == s.regions[e.region].descriptor.generation
    case OpBeginDrain(region, a) =>
      Speaks(s, a) && region in s.regions && (s.regions[region].lifecycle.Online? || s.regions[region].lifecycle.Degraded?)
    case OpCompleteDrain(region, a) => Speaks(s, a) && region in s.regions && s.regions[region].lifecycle.Draining?
    case OpCancelDrain(region, a) => Speaks(s, a) && region in s.regions && s.regions[region].lifecycle.Draining?
    case OpMarkUnavailable(region, a) =>
      Speaks(s, a) && region in s.regions && !s.regions[region].lifecycle.Unavailable? && !s.regions[region].lifecycle.Retired?
    case OpRecoverRegion(region, a) =>
      && Speaks(s, a) && region in s.regions
      && var l := s.regions[region].lifecycle; l.Unavailable? || l.RevalidationRequired? || l.Degraded?
    case OpRetireProvider(p, a) => Speaks(s, a) && p in s.providers && !s.providers[p].lifecycle.Retired?
    case OpRetireRegion(region, a) => Speaks(s, a) && region in s.regions && !s.regions[region].lifecycle.Retired?
  }

  ghost predicate UsageAdmitted(s: State, op: Op)
    requires Inv(s) && IsUsage(op)
  {
    match op
    case OpRegisterWorker(w, boot, epoch, _, a) =>
      && w != NULL && boot != NULL && a.epoch == s.epoch == epoch && (a.worker == NULL || (a.worker == w && a.boot == boot))
      && (w in s.workers ==> s.workers[w].boot != boot)
    case OpMarkWorkerDead(w, a) => Speaks(s, a) && w in s.workers
    case OpNoteWorkerHandle(_, _) => true
    case OpSelect(req, a) => Speaks(s, a) && req.requiredBytes > 0
    case OpReserve(req, a, _) =>
      && Speaks(s, a) && req.requiredBytes > 0 && req.consumer != NULL && req.consumerGeneration != NULL
      && exists rid :: Selection.IsCandidate(s, req, rid)
    case OpCommit(id, a) =>
      && id in s.reservations && s.reservations[id].state.Reserved?
      && s.reservations[id].region in s.regions && MayCommit(s, s.reservations[id], a)
    case OpRelease(id, a) => Speaks(s, a) && id in s.reservations && Live(s.reservations[id])
  }

  /** The holder asks, the consumer is still the one it was made for, and the evidence it rests on still stands. */
  predicate MayCommit(s: State, r: Reservation, a: Authority)
    requires r.region in s.regions
  {
    var rr := s.regions[r.region];
    && Speaks(s, a) && a.worker == r.worker && (r.worker != NULL ==> a.boot == r.boot)
    && (r.consumerGeneration != NULL && r.consumer in s.consumers ==> s.consumers[r.consumer] == r.consumerGeneration)
    && rr.evidenceStatus.Current? && rr.latest.header.generation == r.evidenceGeneration && !rr.lifecycle.RevalidationRequired?
  }

  // ---- Proofs ----

  lemma SpeaksIff(s: State, a: Authority)
    ensures Acceptable(s, a) <==> Speaks(s, a)
  {
  }

  lemma {:induction false} CapabilityLookup(caps: seq<Capability>, key: CapabilityKey, status: CapabilityStatus)
    requires DistinctKeys(caps) && status != CAPABILITY_UNKNOWN
    ensures GetCapability(caps, key) == status <==> exists c :: c in caps && c.key == key && c.status == status
  {
    if caps != [] {
      var rest := caps[1..];
      assert caps == [caps[0]] + rest;
      CapabilityLookup(rest, key, status);
      if caps[0].key == key {
        forall c | c in caps && c.key == key ensures c == caps[0] {
          var i :| 0 <= i < |caps| && caps[i] == c;
        }
        assert caps[0] in caps;
      } else {
        assert forall c :: c in caps && c.key == key ==> c in rest;
      }
    }
  }

  lemma CoherentIff(caps: CapabilityModel)
    ensures Contradictory(caps) <==> !Coherent(caps)
  {
    CapabilityLookup(caps, KEY_PERSISTENT, CAPABILITY_SUPPORTED);
    CapabilityLookup(caps, KEY_VOLATILE, CAPABILITY_SUPPORTED);
    CapabilityLookup(caps, KEY_BYTE_ADDRESSABLE, CAPABILITY_SUPPORTED);
    CapabilityLookup(caps, KEY_BLOCK_ORIENTED, CAPABILITY_SUPPORTED);
    hide GetCapability;
  }

  lemma MayJoinIff(d: PoolDescriptor, m: PoolMember)
    ensures var i := FirstOf(d.members, m.region);
            MayJoin(d, m) <==> !(i < |d.members| && d.members[i].generation == m.generation)
  {
    var i := FirstOf(d.members, m.region);
    hide FirstOf;
    if i < |d.members| && d.members[i].generation == m.generation { assert d.members[i] == m; }
    if !MayJoin(d, m) {
      var k :| 0 <= k < |d.members| && d.members[k] == m && forall j :: 0 <= j < k ==> d.members[j].region != m.region;
      assert k == i;
    }
  }

  lemma {:induction false} RemovesNone(members: seq<PoolMember>, region: RegionId)
    ensures |Without(members, region)| == |members| <==> forall m :: m in members ==> m.region != region
  {
    if members != [] {
      RemovesNone(members[1..], region);
      assert members == [members[0]] + members[1..];
    }
  }

  lemma ProviderAdmission(s: State, d: ProviderDescriptor, a: Authority)
    ensures RegisterProvider(s, d, a).error == NoError <==> RegistrationAdmitted(s, OpRegisterProvider(d, a))
  {
    SpeaksIff(s, a);
    CoherentIff(d.capabilities);
    hide Acceptable, Contradictory, Coherent, Speaks, Withdraw, ForgetBacked;
  }

  lemma RegionAdmission(s: State, d: RegionDescriptor, a: Authority)
    ensures RegisterRegion(s, d, a).error == NoError <==> RegistrationAdmitted(s, OpRegisterRegion(d, a))
  {
    SpeaksIff(s, a);
    CoherentIff(d.staticCapabilities);
    hide Acceptable, Contradictory, Coherent, Speaks, Withdraw, FreshRegion;
  }

  lemma PoolAdmission(s: State, d: PoolDescriptor, a: Authority)
    ensures RegisterPool(s, d, a).error == NoError <==> RegistrationAdmitted(s, OpRegisterPool(d, a))
  {
    SpeaksIff(s, a);
    hide Acceptable, Speaks, Withdraw;
  }

  lemma PolicyAdmission(s: State, d: PolicyDescriptor, a: Authority)
    ensures RegisterPolicy(s, d, a).error == NoError <==> RegistrationAdmitted(s, OpRegisterPolicy(d, a))
  {
    SpeaksIff(s, a);
    hide Acceptable, Speaks, Withdraw;
  }

  lemma RegistryAdmission(s: State, c: ConsumerId, g: Generation, d: DomainDescriptor, a: Authority)
    ensures RegisterConsumer(s, c, g, a).error == NoError <==> RegistrationAdmitted(s, OpRegisterConsumer(c, g, a))
    ensures RegisterDomain(s, d, a).error == NoError <==> RegistrationAdmitted(s, OpRegisterDomain(d, a))
  {
    SpeaksIff(s, a);
    hide Acceptable, Speaks;
  }

  lemma MemberAdmission(s: State, pool: PoolId, m: PoolMember, region: RegionId, a: Authority)
    ensures AddPoolMember(s, pool, m, a).error == NoError <==> RegistrationAdmitted(s, OpAddPoolMember(pool, m, a))
    ensures RemovePoolMember(s, pool, region, a).error == NoError <==> RegistrationAdmitted(s, OpRemovePoolMember(pool, region, a))
  {
    SpeaksIff(s, a);
    if pool in s.pools {
      MayJoinIff(s.pools[pool], m);
      RemovesNone(s.pools[pool].members, region);
    }
    hide Acceptable, Speaks, MayJoin, FirstOf, Without;
  }

  lemma RegistrationAdmittedIff(s: State, op: Op)
    requires IsConfiguration(op)
    ensures Apply(s, op).error == NoError <==> RegistrationAdmitted(s, op)
  {
    hide Apply, RegistrationAdmitted, RegisterConsumer, RegisterProvider, RegisterDomain, RegisterRegion, RegisterPool;
    hide RegisterPolicy, AddPoolMember, RemovePoolMember;
    Endings.Applied(s, op);
    Endings.AppliedMembers(s, op);
    Endings.AppliedEntries(s, op);
    match op
    case OpSetEpoch(_) => EpochAdmitted(s, op);
    case OpRegisterConsumer(c, g, a) => RegistryAdmission(s, c, g, DomainDescriptor(0, 0, [], 0, 0), a);
    case OpRegisterProvider(d, a) => ProviderAdmission(s, d, a);
    case OpRegisterDomain(d, a) => RegistryAdmission(s, 0, 0, d, a);
    case OpRegisterRegion(d, a) => RegionAdmission(s, d, a);
    case OpRegisterPool(d, a) => PoolAdmission(s, d, a);
    case OpRegisterPolicy(d, a) => PolicyAdmission(s, d, a);
    case OpAddPoolMember(pool, m, a) => MemberAdmission(s, pool, m, 0, a);
    case OpRemovePoolMember(pool, region, a) => MemberAdmission(s, pool, PoolMember(0, 0), region, a);
    case _ =>
  }

  lemma EpochAdmitted(s: State, op: Op)
    requires op.OpSetEpoch?
    ensures RegistrationAdmitted(s, op)
  {
  }

  // Calls that move regions and providers along.

  lemma AttachmentAdmission(s: State, e: AttachmentEvidence, a: Authority)
    ensures PublishAttachment(s, e, a).error == NoError <==> LifecycleAdmitted(s, OpPublishAttachment(e, a))
  {
    SpeaksIff(s, a);
    hide Acceptable, Speaks, PutAttachment;
  }

  lemma EvidenceAdmission(s: State, e: RegionEvidence, a: Authority)
    requires Inv(s)
    ensures PublishEvidence(s, e, a).error == NoError <==> LifecycleAdmitted(s, OpPublishEvidence(e, a))
  {
    hide Inv, Acceptable, Speaks, PublishEvidence, Service.Attributed, Service.Publishable;
    SpeaksIff(s, a);
    Service.EvidenceAcceptedIff(s, e, a);
  }

  lemma BeginDrainAdmission(s: State, region: RegionId, a: Authority)
    requires Inv(s)
    ensures BeginDrain(s, region, a).error == NoError <==> LifecycleAdmitted(s, OpBeginDrain(region, a))
  {
    hide Inv, Acceptable, Speaks, StartDraining, Withdraw;
    SpeaksIff(s, a);
    if RegionGuard(s, region, a) == NoError && RegionAllowed(s.regions[region].lifecycle, RegionLifecycle.Draining) {
      Fencing.BeginDrainSucceeds(s, region, a);
    }
  }

  lemma DrainAdmission(s: State, region: RegionId, a: Authority)
    requires Inv(s)
    ensures CompleteDrain(s, region, a).error == NoError <==> LifecycleAdmitted(s, OpCompleteDrain(region, a))
    ensures CancelDrain(s, region, a).error == NoError <==> LifecycleAdmitted(s, OpCancelDrain(region, a))
  {
    SpeaksIff(s, a);
    hide Inv, Acceptable, Speaks, Transfer, WithRegion, Follow;
    if region in s.regions { ClosedLedger(s, region); Refusals.LedgerRefusals(s.regions[region].ledger); }
  }

  lemma OutageAdmission(s: State, region: RegionId, a: Authority)
    requires Inv(s)
    ensures MarkUnavailable(s, region, a).error == NoError <==> LifecycleAdmitted(s, OpMarkUnavailable(region, a))
    ensures RecoverRegion(s, region, a).error == NoError <==> LifecycleAdmitted(s, OpRecoverRegion(region, a))
  {
    SpeaksIff(s, a);
    hide Inv, Acceptable, Speaks, Transfer, WithRegion, Withdraw;
    if region in s.regions { ClosedLedger(s, region); Refusals.LedgerRefusals(s.regions[region].ledger); }
  }

  lemma RetirementAdmission(s: State, p: ProviderId, region: RegionId, a: Authority)
    ensures RetireProvider(s, p, a).error == NoError <==> LifecycleAdmitted(s, OpRetireProvider(p, a))
    ensures RetireRegion(s, region, a).error == NoError <==> LifecycleAdmitted(s, OpRetireRegion(region, a))
  {
    SpeaksIff(s, a);
    hide Acceptable, Speaks, Withdraw, RetireBacked, WithRegion;
  }

  lemma LifecycleAdmittedIff(s: State, op: Op)
    requires Inv(s) && IsLifecycle(op)
    ensures Apply(s, op).error == NoError <==> LifecycleAdmitted(s, op)
  {
    hide Inv, Apply, LifecycleAdmitted, PublishEvidence, PublishAttachment, BeginDrain, CompleteDrain, CancelDrain;
    hide MarkUnavailable, RecoverRegion, RetireProvider, RetireRegion;
    Endings.Applied(s, op);
    Endings.AppliedMembers(s, op);
    Endings.AppliedRegion(s, op);
    match op
    case OpPublishEvidence(e, a) => EvidenceAdmission(s, e, a);
    case OpPublishAttachment(e, a) => AttachmentAdmission(s, e, a);
    case OpBeginDrain(region, a) => BeginDrainAdmission(s, region, a);
    case OpCompleteDrain(region, a) => DrainAdmission(s, region, a);
    case OpCancelDrain(region, a) => DrainAdmission(s, region, a);
    case OpMarkUnavailable(region, a) => OutageAdmission(s, region, a);
    case OpRecoverRegion(region, a) => OutageAdmission(s, region, a);
    case OpRetireProvider(p, a) => RetirementAdmission(s, p, 0, a);
    case OpRetireRegion(region, a) => RetirementAdmission(s, 0, region, a);
    case _ =>
  }

  // Workers, selections and reservations.

  lemma WorkerAdmission(s: State, op: Op)
    requires Inv(s) && (op.OpRegisterWorker? || op.OpMarkWorkerDead? || op.OpNoteWorkerHandle?)
    ensures op.OpRegisterWorker? ==>
              (RegisterWorker(s, op.w, op.boot, op.epoch, op.pid, op.a).error == NoError <==> UsageAdmitted(s, op))
    ensures op.OpMarkWorkerDead? ==> (MarkWorkerDead(s, op.w, op.a).error == NoError <==> UsageAdmitted(s, op))
    ensures op.OpNoteWorkerHandle? ==> UsageAdmitted(s, op)
  {
    if op.OpMarkWorkerDead? { SpeaksIff(s, op.a); }
    hide Inv, Acceptable, Speaks, Withdraw, SuspendAll, Vouched, OfWorker;
  }

  lemma RankedIffCandidate(s: State, req: Request)
    ensures Selection.RankedIds(s, req) != [] <==> exists rid :: Selection.IsCandidate(s, req, rid)
  {
    Selection.RankedAreCandidates(s, req);
    hide Selection.RankedIds, Selection.IsCandidate;
    var ids := Selection.RankedIds(s, req);
    if ids != [] { assert ids[0] in ids; }
  }

  lemma SelectAdmission(s: State, op: Op)
    requires Inv(s) && s.nextReservation <= U64_MAX && (op.OpSelect? || op.OpReserve?)
    ensures op.OpSelect? ==> (Select(s, op.req, op.a).error == NoError <==> UsageAdmitted(s, op))
    ensures op.OpReserve? ==> (Reserve(s, op.req, op.a, op.now).error == NoError <==> UsageAdmitted(s, op))
  {
    SpeaksIff(s, op.a);
    RankedIffCandidate(s, op.req);
    hide Inv, Acceptable, Speaks, Reserve, Selection.RankedIds, Selection.IsCandidate;
    hide Bindings.Grants, Bindings.AsRequested, Bindings.AtCurrentGenerations;
    if op.OpReserve? { Bindings.GrantedAsRequested(s, op.req, op.a, op.now); }
  }

  lemma CommitAdmission(s: State, op: Op)
    requires Inv(s) && op.OpCommit?
    ensures Commit(s, op.id, op.a).error == NoError <==> UsageAdmitted(s, op)
  {
    SpeaksIff(s, op.a);
    hide Inv, Acceptable, Speaks, Commit;
    if op.id in s.reservations && s.reservations[op.id].state.Reserved? {
      Guarantees.CommitSucceedsIff(s, op.id, op.a);
    } else if Commit(s, op.id, op.a).error == NoError {
      Endings.CommittedWas(s, op.id, op.a);
    }
  }

  lemma ReleaseAdmission(s: State, op: Op)
    requires Inv(s) && op.OpRelease?
    ensures Release(s, op.id, op.a).error == NoError <==> UsageAdmitted(s, op)
  {
    SpeaksIff(s, op.a);
    hide Inv, Acceptable, Speaks, Release;
    if op.id in s.reservations && Live(s.reservations[op.id]) && Acceptable(s, op.a) {
      Guarantees.ReleaseAlwaysSucceeds(s, op.id, op.a);
    } else if Release(s, op.id, op.a).error == NoError {
      Endings.ReleasedWas(s, op.id, op.a);
    }
  }

  lemma UsageAdmittedIff(s: State, op: Op)
    requires Inv(s) && s.nextReservation <= U64_MAX && IsUsage(op)
    ensures Apply(s, op).error == NoError <==> UsageAdmitted(s, op)
  {
    hide Inv, Apply, UsageAdmitted, RegisterWorker, MarkWorkerDead, NoteWorkerHandle, Select, Reserve, Commit, Release;
    Endings.Applied(s, op);
    Endings.AppliedEntries(s, op);
    Endings.AppliedRegion(s, op);
    match op
    case OpSelect(_, _) => SelectAdmission(s, op);
    case OpReserve(_, _, _) => SelectAdmission(s, op);
    case OpCommit(_, _) => CommitAdmission(s, op);
    case OpRelease(_, _) => ReleaseAdmission(s, op);
    case _ => WorkerAdmission(s, op);
  }

  ghost predicate Admitted(s: State, op: Op)
    requires Inv(s)
  {
    if IsConfiguration(op) then RegistrationAdmitted(s, op)
    else if IsLifecycle(op) then LifecycleAdmitted(s, op)
    else UsageAdmitted(s, op)
  }

  /** A call is accepted if and only if its condition holds. */
  lemma AdmittedIff(s: State, op: Op)
    requires Inv(s) && s.nextReservation <= U64_MAX
    ensures Apply(s, op).error == NoError <==> Admitted(s, op)
  {
    hide Inv, Apply, RegistrationAdmitted, LifecycleAdmitted, UsageAdmitted;
    if IsConfiguration(op) { RegistrationAdmittedIff(s, op); }
    else if IsLifecycle(op) { LifecycleAdmittedIff(s, op); }
    else { UsageAdmittedIff(s, op); }
  }
}
