/** Statements over whole runs: stale callers, dead workers, and regions nobody has vouched for. */
module History {
  import opened Words
  import opened Types
  import opened Ledgers
  import opened Records
  import opened Operations
  import opened Invariants
  import opened Preservation
  import opened Progress
  import opened Fencing
  import Selection

  // ---- Callers from an older epoch ----

  function AuthorityOf(op: Op): Option<Authority> {
    if op.OpSetEpoch? || op.OpNoteWorkerHandle? then None else Some(op.a)
  }

  predicate Stale(op: Op, e: Epoch) { AuthorityOf(op).Some? && AuthorityOf(op).value.epoch < e }

  lemma StaleConfiguration(s: State, op: Op)
    requires Stale(op, s.epoch) && IsConfiguration(op)
    ensures Apply(s, op).state == s && Apply(s, op).error != NoError
  {
    hide SetEpoch, PublishEvidence, PublishAttachment, BeginDrain, CompleteDrain, CancelDrain;
    hide MarkUnavailable, RecoverRegion, RetireProvider, RetireRegion, RegisterWorker, MarkWorkerDead, NoteWorkerHandle;
    hide Select, Reserve, Commit, Release;
  }

  lemma StaleLifecycle(s: State, op: Op)
    requires Stale(op, s.epoch) && IsLifecycle(op)
    ensures Apply(s, op).state == s && Apply(s, op).error != NoError
  {
    hide SetEpoch, RegisterConsumer, RegisterProvider, RegisterDomain, RegisterRegion, RegisterPool, RegisterPolicy;
    hide AddPoolMember, RemovePoolMember, RegisterWorker, MarkWorkerDead, NoteWorkerHandle;
    hide Select, Reserve, Commit, Release;
  }

  lemma StaleUsage(s: State, op: Op)
    requires Stale(op, s.epoch) && IsUsage(op)
    ensures Apply(s, op).state == s && Apply(s, op).error != NoError
  {
    hide SetEpoch, RegisterConsumer, RegisterProvider, RegisterDomain, RegisterRegion, RegisterPool, RegisterPolicy;
    hide AddPoolMember, RemovePoolMember, PublishEvidence, PublishAttachment, BeginDrain, CompleteDrain, CancelDrain;
    hide MarkUnavailable, RecoverRegion, RetireProvider, RetireRegion, NoteWorkerHandle;
  }

  /** A call under an older epoch is refused and changes nothing. */
  lemma StaleIsInert(s: State, op: Op)
    requires Stale(op, s.epoch)
    ensures Apply(s, op).state == s && Apply(s, op).error != NoError
  {
    hide Apply;
    if IsConfiguration(op) { StaleConfiguration(s, op); }
    else if IsLifecycle(op) { StaleLifecycle(s, op); }
    else { StaleUsage(s, op); }
  }

  function WithoutStale(ops: seq<Op>, e: Epoch): seq<Op> {
    if ops == [] then []
    else if Stale(ops[0], e) then WithoutStale(ops[1..], e)
    else [ops[0]] + WithoutStale(ops[1..], e)
  }

  /**
   From a state at epoch e or later, calls under epochs before e are noise: however they are
   interleaved with any others, the run ends exactly where it would have ended without them.
   */
  lemma {:induction false} StaleCallsAreNoise(s: State, ops: seq<Op>, e: Epoch)
    requires Inv(s) && s.nextReservation + |ops| <= U64_MAX + 1 && e <= s.epoch
    ensures Run(s, ops) == Run(s, WithoutStale(ops, e))
    decreases |ops|
  {
    hide Inv, Apply;
    if ops != [] {
      var t := Apply(s, ops[0]).state;
      StepKeeps(s, ops[0]);
      StepForward(s, ops[0]);
      EpochGrows(s, t);
      StaleCallsAreNoise(t, ops[1..], e);
      if Stale(ops[0], e) {
        StaleIsInert(s, ops[0]);
      } else {
        var kept := WithoutStale(ops[1..], e);
        assert ([ops[0]] + kept)[1..] == kept;
      }
    }
  }

  lemma EpochGrows(s: State, t: State)
    requires Forward(s, t)
    ensures s.epoch <= t.epoch
  {
  }

  lemma {:induction false} AllStaleChangesNothing(s: State, ops: seq<Op>)
    requires forall op :: op in ops ==> Stale(op, s.epoch)
    ensures Run(s, ops) == s
    decreases |ops|
  {
    hide Apply;
    if ops != [] {
      StaleIsInert(s, ops[0]);
      AllStaleChangesNothing(s, ops[1..]);
    }
  }

  // ---- Dead workers ----

  predicate Dead(s: State, w: WorkerId, boot: BootId) {
    w in s.workers && !s.workers[w].alive && s.workers[w].boot == boot
  }

  /** The one call that can bring a worker back: a registration with another boot. */
  predicate Revives(op: Op, w: WorkerId, boot: BootId) {
    op.OpRegisterWorker? && op.w == w && op.boot != boot
  }

  lemma SetEpochKeepsDead(s: State, e: Epoch, w: WorkerId, boot: BootId)
    requires Dead(s, w, boot)
    ensures Dead(SetEpoch(s, e), w, boot)
  {
    hide Settle, SuspendAll, WithdrawAll;
    assert e > s.epoch ==> SetEpoch(s, e).workers == Dismiss(s.workers);
  }

  lemma MarkWorkerDeadKeepsDead(s: State, x: WorkerId, a: Authority, w: WorkerId, boot: BootId)
    requires Dead(s, w, boot)
    ensures Dead(MarkWorkerDead(s, x, a).state, w, boot)
  {
    hide Settle, SuspendAll, WithdrawAll, Acceptable;
  }

  lemma RegisterWorkerKeepsDead(s: State, x: WorkerId, b: BootId, e: Epoch, pid: U64, a: Authority, w: WorkerId, boot: BootId)
    requires Dead(s, w, boot) && (x == w ==> b == boot)
    ensures Dead(RegisterWorker(s, x, b, e, pid, a).state, w, boot)
  {
  }

  lemma NoteWorkerHandleKeepsDead(s: State, x: WorkerId, holds: bool, w: WorkerId, boot: BootId)
    requires Dead(s, w, boot)
    ensures Dead(NoteWorkerHandle(s, x, holds), w, boot)
  {
  }

  lemma WorkerCallKeepsDead(s: State, op: Op, w: WorkerId, boot: BootId)
    requires Dead(s, w, boot) && !Revives(op, w, boot) && TouchesWorkers(op)
    ensures Dead(Apply(s, op).state, w, boot)
  {
    hide Dead, SetEpoch, RegisterConsumer, RegisterProvider, RegisterDomain, RegisterRegion, RegisterPool, RegisterPolicy;
    hide AddPoolMember, RemovePoolMember, PublishEvidence, PublishAttachment, BeginDrain, CompleteDrain, CancelDrain;
    hide MarkUnavailable, RecoverRegion, RetireProvider, RetireRegion, RegisterWorker, MarkWorkerDead, NoteWorkerHandle;
    hide Select, Reserve, Commit, Release;
    match op
    case OpSetEpoch(e) => SetEpochKeepsDead(s, e, w, boot);
    case OpRegisterWorker(x, b, e, pid, a) => RegisterWorkerKeepsDead(s, x, b, e, pid, a, w, boot);
    case OpMarkWorkerDead(x, a) => MarkWorkerDeadKeepsDead(s, x, a, w, boot);
    case OpNoteWorkerHandle(x, holds) => NoteWorkerHandleKeepsDead(s, x, holds, w, boot);
    case _ =>
  }

  lemma StepKeepsDead(s: State, op: Op, w: WorkerId, boot: BootId)
    requires Dead(s, w, boot) && !Revives(op, w, boot)
    ensures Dead(Apply(s, op).state, w, boot)
  {
    hide Apply;
    if TouchesWorkers(op) { WorkerCallKeepsDead(s, op, w, boot); }
  }

  /** A dead worker's authority stays refused through any run in which it does not register with another boot. */
  lemma {:induction false} DeadStaysDead(s: State, ops: seq<Op>, w: WorkerId, boot: BootId)
    requires Dead(s, w, boot) && w != NULL
    requires forall op :: op in ops ==> !Revives(op, w, boot)
    ensures Dead(Run(s, ops), w, boot)
    ensures forall a: Authority :: a.worker == w ==> !Acceptable(Run(s, ops), a)
    decreases |ops|
  {
    if ops != [] {
      StepKeepsDead(s, ops[0], w, boot);
      hide Apply;
      DeadStaysDead(Apply(s, ops[0]).state, ops[1..], w, boot);
    }
  }

  lemma KilledStaysDead(s: State, w: WorkerId, a: Authority, ops: seq<Op>)
    requires MarkWorkerDead(s, w, a).error == NoError && w != NULL
    requires w in s.workers && forall op :: op in ops ==> !Revives(op, w, s.workers[w].boot)
    ensures forall x: Authority :: x.worker == w ==> !Acceptable(Run(MarkWorkerDead(s, w, a).state, ops), x)
  {
    WorkerDeathFences(s, w, a);
    hide MarkWorkerDead, Run, Vouched, Acceptable;
    DeadStaysDead(MarkWorkerDead(s, w, a).state, ops, w, s.workers[w].boot);
  }

  // ---- Regions nobody has vouched for ----

  predicate NoneCurrent(regions: map<RegionId, RegionRecord>) {
    forall rid :: rid in regions ==> !regions[rid].evidenceStatus.Current?
  }

  lemma NoneCurrentPut(regions: map<RegionId, RegionRecord>, rid: RegionId, rr: RegionRecord)
    requires NoneCurrent(regions) && !rr.evidenceStatus.Current?
    ensures NoneCurrent(regions[rid := rr])
  {
  }

  lemma NoneCurrentSettle(regions: map<RegionId, RegionRecord>, rs: map<ReservationId, Reservation>, cause: Cause)
    requires NoneCurrent(regions)
    ensures NoneCurrent(Settle(regions, rs, cause))
  {
  }

  lemma NoneCurrentMapped(regions: map<RegionId, RegionRecord>, ids: set<RegionId>, p: ProviderId)
    requires NoneCurrent(regions)
    ensures NoneCurrent(SuspendAll(regions, ids))
    ensures NoneCurrent(ForgetBacked(regions, p))
    ensures NoneCurrent(RetireBacked(regions, p))
  {
  }

  /** Where no evidence is current, nothing is ranked, whatever is asked for. */
  lemma NothingRankedWithoutEvidence(s: State, req: Request)
    requires NoneCurrent(s.regions)
    ensures Selection.RankedIds(s, req) == []
  {
    if Selection.RankedIds(s, req) != [] {
      TopIsCandidate(s, req);
      Selection.CandidateFacts(s, req, Selection.RankedIds(s, req)[0]);
    }
  }

  lemma RegisterConsumerSparesRegions(s: State, c: ConsumerId, g: Generation, a: Authority)
    ensures RegisterConsumer(s, c, g, a).state.regions == s.regions
  {
    hide Acceptable;
  }

  lemma RegisterDomainSparesRegions(s: State, d: DomainDescriptor, a: Authority)
    ensures RegisterDomain(s, d, a).state.regions == s.regions
  {
    hide Acceptable;
  }

  lemma SetEpochGainsNone(s: State, e: Epoch)
    requires NoneCurrent(s.regions)
    ensures NoneCurrent(SetEpoch(s, e).regions)
  {
    hide Settle, WithdrawAll, NoneCurrent, SuspendAll, ForgetBacked, RetireBacked;
    var t := Withdraw(s, s.reservations.Keys, EpochAdvance);
    NoneCurrentSettle(s.regions, t.reservations, EpochAdvance);
    NoneCurrentMapped(t.regions, t.regions.Keys, NULL);
  }

  lemma RegisterProviderGainsNone(s: State, d: ProviderDescriptor, a: Authority)
    requires NoneCurrent(s.regions)
    ensures NoneCurrent(RegisterProvider(s, d, a).state.regions)
  {
    hide Settle, WithdrawAll, NoneCurrent, SuspendAll, ForgetBacked, RetireBacked, ProviderFault;
    var t := Withdraw(s, OfProvider(s, d.id), Fencing);
    NoneCurrentSettle(s.regions, t.reservations, Fencing);
    NoneCurrentMapped(t.regions, {}, d.id);
  }

  lemma RegisterRegionGainsNone(s: State, d: RegionDescriptor, a: Authority)
    requires NoneCurrent(s.regions)
    ensures NoneCurrent(RegisterRegion(s, d, a).state.regions)
  {
    hide Settle, WithdrawAll, NoneCurrent, RegionFault;
    var t := Withdraw(s, OfRegion(s, d.id), Fencing);
    NoneCurrentSettle(s.regions, t.reservations, Fencing);
    NoneCurrentPut(t.regions, d.id, FreshRegion(d, RegionLifecycle.Declared));
    NoneCurrentPut(s.regions, d.id, FreshRegion(d, RegionLifecycle.Declared));
  }

  lemma RegisterPoolGainsNone(s: State, d: PoolDescriptor, a: Authority)
    requires NoneCurrent(s.regions)
    ensures NoneCurrent(RegisterPool(s, d, a).state.regions)
  {
    hide Settle, WithdrawAll, NoneCurrent, PoolFault;
    NoneCurrentSettle(s.regions, Withdraw(s, OfPool(s, d.id), Fencing).reservations, Fencing);
  }

  lemma RegisterPolicyGainsNone(s: State, d: PolicyDescriptor, a: Authority)
    requires NoneCurrent(s.regions)
    ensures NoneCurrent(RegisterPolicy(s, d, a).state.regions)
  {
    hide Settle, WithdrawAll, NoneCurrent, PolicyFault;
    NoneCurrentSettle(s.regions, Withdraw(s, OfPolicy(s, d.id), Fencing).reservations, Fencing);
  }

  lemma AddPoolMemberGainsNone(s: State, pool: PoolId, m: PoolMember, a: Authority)
    requires NoneCurrent(s.regions)
    ensures NoneCurrent(AddPoolMember(s, pool, m, a).state.regions)
  {
    hide FirstOf, Acceptable;
    if AddPoolMember(s, pool, m, a).error == NoError {
      var rr := s.regions[m.region];
      assert !rr.evidenceStatus.Current?;
      hide NoneCurrent;
      NoneCurrentPut(s.regions, m.region, rr.(memberships := rr.memberships + {(pool, s.pools[pool].generation)}));
    }
  }

  lemma RemovePoolMemberGainsNone(s: State, pool: PoolId, region: RegionId, a: Authority)
    requires NoneCurrent(s.regions)
    ensures NoneCurrent(RemovePoolMember(s, pool, region, a).state.regions)
  {
    hide Without, Acceptable;
  }

  lemma PublishAttachmentGainsNone(s: State, e: AttachmentEvidence, a: Authority)
    requires NoneCurrent(s.regions)
    ensures NoneCurrent(PublishAttachment(s, e, a).state.regions)
  {
    hide PutAttachment, Acceptable;
  }

  lemma BeginDrainGainsNone(s: State, region: RegionId, a: Authority)
    requires NoneCurrent(s.regions)
    ensures NoneCurrent(BeginDrain(s, region, a).state.regions)
  {
    hide Settle, WithdrawAll, Transfer, Acceptable, RegionAllowed;
    var t := Withdraw(s, OfRegion(s, region), DrainStart);
    NoneCurrentSettle(s.regions, t.reservations, DrainStart);
    if BeginDrain(s, region, a).state != s {
      SettleKeys(s.regions, t.reservations, DrainStart);
      var rr := t.regions[region];
      var m := Transfer(rr.ledger, Free, Bucket.Draining, rr.ledger.free);
      assert !rr.evidenceStatus.Current?;
      hide NoneCurrent;
      NoneCurrentPut(t.regions, region, rr.(ledger := m.ledger));
      NoneCurrentPut(t.regions, region, rr.(ledger := m.ledger, lifecycle := RegionLifecycle.Draining));
    }
  }

  lemma CompleteDrainGainsNone(s: State, region: RegionId, a: Authority)
    requires NoneCurrent(s.regions)
    ensures NoneCurrent(CompleteDrain(s, region, a).state.regions)
  {
    hide Transfer, Acceptable;
    if region in s.regions {
      var rr := s.regions[region];
      assert !rr.evidenceStatus.Current?;
      hide NoneCurrent;
      var m := Transfer(rr.ledger, Bucket.Draining, Bucket.Unavailable, rr.ledger.draining);
      NoneCurrentPut(s.regions, region, rr.(ledger := m.ledger));
      NoneCurrentPut(s.regions, region, rr.(ledger := m.ledger, lifecycle := RegionLifecycle.Unavailable));
    }
  }

  lemma CancelDrainGainsNone(s: State, region: RegionId, a: Authority)
    requires NoneCurrent(s.regions)
    ensures NoneCurrent(CancelDrain(s, region, a).state.regions)
  {
    hide Transfer, Acceptable;
    if region in s.regions {
      var rr := s.regions[region];
      assert !rr.evidenceStatus.Current?;
      hide NoneCurrent;
      var m := Transfer(rr.ledger, Bucket.Draining, Free, rr.ledger.draining);
      NoneCurrentPut(s.regions, region, rr.(ledger := m.ledger));
      NoneCurrentPut(s.regions, region, rr.(ledger := m.ledger, lifecycle := RegionLifecycle.Online));
    }
  }

  lemma MarkUnavailableGainsNone(s: State, region: RegionId, a: Authority)
    requires NoneCurrent(s.regions)
    ensures NoneCurrent(MarkUnavailable(s, region, a).state.regions)
  {
    hide Settle, WithdrawAll, Transfer, Acceptable, RegionAllowed, NoneCurrent;
    if region in s.regions {
      var rr := s.regions[region];
      var m := Transfer(rr.ledger, Free, Bucket.Unavailable, rr.ledger.free);
      UnavailableGainsNone(s, region, rr.(ledger := m.ledger));
    }
  }

  lemma UnavailableGainsNone(s: State, region: RegionId, rr: RegionRecord)
    requires NoneCurrent(s.regions) && region in s.regions && rr.evidenceStatus == s.regions[region].evidenceStatus
    ensures var u := WithRegion(s, region, rr);
            var t := Withdraw(u, OfRegion(s, region), Fencing);
            && NoneCurrent(u.regions) && region in t.regions
            && NoneCurrent(WithRegion(t, region, t.regions[region].(lifecycle := RegionLifecycle.Unavailable)).regions)
  {
    hide Settle, WithdrawAll;
    var u := WithRegion(s, region, rr);
    var t := Withdraw(u, OfRegion(s, region), Fencing);
    NoneCurrentSettle(u.regions, t.reservations, Fencing);
    SettleKeys(u.regions, t.reservations, Fencing);
  }

  lemma RecoverRegionGainsNone(s: State, region: RegionId, a: Authority)
    requires NoneCurrent(s.regions)
    ensures NoneCurrent(RecoverRegion(s, region, a).state.regions)
  {
    hide Transfer, Acceptable;
  }

  lemma RetireProviderGainsNone(s: State, p: ProviderId, a: Authority)
    requires NoneCurrent(s.regions)
    ensures NoneCurrent(RetireProvider(s, p, a).state.regions)
  {
    hide Settle, WithdrawAll, NoneCurrent, SuspendAll, ForgetBacked, RetireBacked, Acceptable, ProviderAllowed;
    var t := Withdraw(s, OfProvider(s, p), Fencing);
    NoneCurrentSettle(s.regions, t.reservations, Fencing);
    NoneCurrentMapped(t.regions, {}, p);
  }

  lemma RetireRegionGainsNone(s: State, region: RegionId, a: Authority)
    requires NoneCurrent(s.regions)
    ensures NoneCurrent(RetireRegion(s, region, a).state.regions)
  {
    hide Settle, WithdrawAll, Acceptable, RegionAllowed;
    NoneCurrentSettle(s.regions, Withdraw(s, OfRegion(s, region), Fencing).reservations, Fencing);
    SettleKeys(s.regions, Withdraw(s, OfRegion(s, region), Fencing).reservations, Fencing);
  }

  lemma MarkWorkerDeadGainsNone(s: State, w: WorkerId, a: Authority)
    requires NoneCurrent(s.regions)
    ensures NoneCurrent(MarkWorkerDead(s, w, a).state.regions)
  {
    hide Settle, WithdrawAll, NoneCurrent, SuspendAll, ForgetBacked, RetireBacked, Acceptable;
    if MarkWorkerDead(s, w, a).error == NoError {
      var vouched := Vouched(s, w, s.workers[w].boot);
      var t := Withdraw(s, OfWorker(s, w, vouched), Fencing);
      NoneCurrentSettle(s.regions, t.reservations, Fencing);
      NoneCurrentMapped(t.regions, vouched, NULL);
    }
  }

  lemma ReserveGainsNone(s: State, req: Request, a: Authority, now: U64)
    requires NoneCurrent(s.regions)
    ensures NoneCurrent(Reserve(s, req, a, now).state.regions)
  {
    NothingRankedWithoutEvidence(s, req);
    hide NoneCurrent, ReserveFault, Selection.RankedIds;
  }

  lemma CommitGainsNone(s: State, id: ReservationId, a: Authority)
    requires NoneCurrent(s.regions)
    ensures NoneCurrent(Commit(s, id, a).state.regions)
  {
    hide BindingFault, HolderFault, Transfer, Acceptable;
    if id in s.reservations && BindingFault(s, s.reservations[id]) == NoError { RegionBound(s, id, a); }
  }

  lemma ReleaseGainsNone(s: State, id: ReservationId, a: Authority)
    requires NoneCurrent(s.regions)
    ensures NoneCurrent(Release(s, id, a).state.regions)
  {
    hide Transfer, Acceptable;
  }

  lemma ConfigurationGainsNone(s: State, op: Op)
    requires NoneCurrent(s.regions) && IsConfiguration(op)
    ensures NoneCurrent(Apply(s, op).state.regions)
  {
    hide NoneCurrent, SetEpoch, RegisterConsumer, RegisterProvider, RegisterDomain, RegisterRegion, RegisterPool;
    hide RegisterPolicy, AddPoolMember, RemovePoolMember, PublishEvidence, PublishAttachment, BeginDrain, CompleteDrain;
    hide CancelDrain, MarkUnavailable, RecoverRegion, RetireProvider, RetireRegion, RegisterWorker, MarkWorkerDead;
    hide NoteWorkerHandle, Select, Reserve, Commit, Release;
    match op
    case OpSetEpoch(e) => SetEpochGainsNone(s, e);
    case OpRegisterProvider(d, a) => RegisterProviderGainsNone(s, d, a);
    case OpRegisterRegion(d, a) => RegisterRegionGainsNone(s, d, a);
    case OpRegisterPool(d, a) => RegisterPoolGainsNone(s, d, a);
    case OpRegisterPolicy(d, a) => RegisterPolicyGainsNone(s, d, a);
    case OpAddPoolMember(pool, m, a) => AddPoolMemberGainsNone(s, pool, m, a);
    case OpRemovePoolMember(pool, region, a) => RemovePoolMemberGainsNone(s, pool, region, a);
    case OpRegisterConsumer(c, g, a) => RegisterConsumerSparesRegions(s, c, g, a);
    case OpRegisterDomain(d, a) => RegisterDomainSparesRegions(s, d, a);
    case _ =>
  }

  lemma LifecycleGainsNone(s: State, op: Op)
    requires NoneCurrent(s.regions) && IsLifecycle(op) && !op.OpPublishEvidence?
    ensures NoneCurrent(Apply(s, op).state.regions)
  {
    hide NoneCurrent, SetEpoch, RegisterConsumer, RegisterProvider, RegisterDomain, RegisterRegion, RegisterPool;
    hide RegisterPolicy, AddPoolMember, RemovePoolMember, PublishEvidence, PublishAttachment, BeginDrain, CompleteDrain;
    hide CancelDrain, MarkUnavailable, RecoverRegion, RetireProvider, RetireRegion, RegisterWorker, MarkWorkerDead;
    hide NoteWorkerHandle, Select, Reserve, Commit, Release;
    match op
    case OpPublishAttachment(e, a) => PublishAttachmentGainsNone(s, e, a);
    case OpBeginDrain(region, a) => BeginDrainGainsNone(s, region, a);
    case OpCompleteDrain(region, a) => CompleteDrainGainsNone(s, region, a);
    case OpCancelDrain(region, a) => CancelDrainGainsNone(s, region, a);
    case OpMarkUnavailable(region, a) => MarkUnavailableGainsNone(s, region, a);
    case OpRecoverRegion(region, a) => RecoverRegionGainsNone(s, region, a);
    case OpRetireProvider(p, a) => RetireProviderGainsNone(s, p, a);
    case OpRetireRegion(region, a) => RetireRegionGainsNone(s, region, a);
    case _ =>
  }

  lemma RegisterWorkerAside(s: State, w: WorkerId, boot: BootId, epoch: Epoch, pid: U64, a: Authority)
    ensures RegisterWorker(s, w, boot, epoch, pid, a).state.regions == s.regions
  {
  }

  lemma NoteWorkerHandleAside(s: State, w: WorkerId, holds: bool)
    ensures NoteWorkerHandle(s, w, holds).regions == s.regions
  {
  }

  lemma SelectAside(s: State, req: Request, a: Authority)
    ensures Select(s, req, a).state.regions == s.regions
  {
    hide Acceptable;
  }

  lemma UsageGainsNone(s: State, op: Op)
    requires NoneCurrent(s.regions) && IsUsage(op)
    ensures NoneCurrent(Apply(s, op).state.regions)
  {
    hide NoneCurrent, SetEpoch, RegisterConsumer, RegisterProvider, RegisterDomain, RegisterRegion, RegisterPool;
    hide RegisterPolicy, AddPoolMember, RemovePoolMember, PublishEvidence, PublishAttachment, BeginDrain, CompleteDrain;
    hide CancelDrain, MarkUnavailable, RecoverRegion, RetireProvider, RetireRegion, MarkWorkerDead;
    hide RegisterWorker, NoteWorkerHandle, Select, Reserve, Commit, Release, Acceptable;
    match op
    case OpMarkWorkerDead(w, a) => MarkWorkerDeadGainsNone(s, w, a);
    case OpRegisterWorker(w, b, e, pid, a) => RegisterWorkerAside(s, w, b, e, pid, a);
    case OpNoteWorkerHandle(w, holds) => NoteWorkerHandleAside(s, w, holds);
    case OpSelect(req, a) => SelectAside(s, req, a);
    case OpReserve(req, a, now) => ReserveGainsNone(s, req, a, now);
    case OpCommit(id, a) => CommitGainsNone(s, id, a);
    case OpRelease(id, a) => ReleaseGainsNone(s, id, a);
    case _ =>
  }

  /** Evidence becomes current in no other way than by being published. */
  lemma StepGainsNone(s: State, op: Op)
    requires NoneCurrent(s.regions) && !op.OpPublishEvidence?
    ensures NoneCurrent(Apply(s, op).state.regions)
  {
    hide NoneCurrent, Apply;
    if IsConfiguration(op) { ConfigurationGainsNone(s, op); }
    else if IsLifecycle(op) { LifecycleGainsNone(s, op); }
    else { UsageGainsNone(s, op); }
  }

  /** After a restart or an epoch advance no select ranks anything until evidence is published. */
  lemma {:induction false} NothingRankedUntilPublished(s: State, ops: seq<Op>, req: Request)
    requires NoneCurrent(s.regions) && forall op :: op in ops ==> !op.OpPublishEvidence?
    ensures NoneCurrent(Run(s, ops).regions) && Selection.RankedIds(Run(s, ops), req) == []
    decreases |ops|
  {
    hide NoneCurrent, Apply, Selection.RankedIds;
    if ops != [] {
      StepGainsNone(s, ops[0]);
      NothingRankedUntilPublished(Apply(s, ops[0]).state, ops[1..], req);
    } else {
      NothingRankedWithoutEvidence(s, req);
    }
  }
}
