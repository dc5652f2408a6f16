/**
 What becomes of every reservation under every operation, state by state. Which reservations a call reaches is said
 of the call and the reservation alone, and the outcome is spelled out for each state it can be in.
 */
module Endings {
  import opened Words
  import opened Types
  import opened Ledgers
  import opened Records
  import opened Operations
  import opened Invariants
  import opened Conservation
  import Bindings
  import Guarantees
  import Refusals

  // ---- Outcomes ----

  predicate Unstarted(r: Reservation) { r.state.Requested? || r.state.Evaluated? }

  /** Capacity merely reserved is fenced; what was committed is owed a revalidation; what had not started is cancelled. */
  predicate FencedOut(r: Reservation, r': Reservation) {
    && r' == r.(state := r'.state)
    && (r.state.Reserved? ==> r'.state.Fenced?)
    && (r.state.Committed? || r.state.Active? ==> r'.state.RevalidationRequired?)
    && (Unstarted(r) ==> r'.state.Cancelled?)
    && (!Live(r) && !Unstarted(r) ==> r' == r)
  }

  /** Under a new epoch everything that held capacity is owed a revalidation. */
  predicate Outdated(r: Reservation, r': Reservation) {
    && r' == r.(state := r'.state)
    && (r.state.Reserved? || r.state.Committed? || r.state.Active? ==> r'.state.RevalidationRequired?)
    && (Unstarted(r) ==> r'.state.Cancelled?)
    && (!Live(r) && !Unstarted(r) ==> r' == r)
  }

  /** A drain cancels what is merely reserved and leaves the rest to finish. */
  predicate Drained(r: Reservation, r': Reservation) {
    && r' == r.(state := r'.state)
    && (r.state.Reserved? ==> r'.state.Cancelled?)
    && (!r.state.Reserved? ==> r' == r)
  }

  // ---- Which calls reach a reservation ----

  /** The region's latest evidence came from the worker's present incarnation. */
  predicate VouchedBy(s: State, w: WorkerId, rid: RegionId)
    requires w in s.workers
  {
    && rid in s.regions && s.regions[rid].hasEvidence
    && s.regions[rid].latest.header.worker == w && s.regions[rid].latest.header.boot == s.workers[w].boot
  }

  /** An accepted call that fences the reservation: its structure returns, retires or fails, or its voucher dies. */
  ghost predicate Strikes(s: State, op: Op, r: Reservation) {
    Apply(s, op).error == NoError &&
    match op
    case OpRegisterProvider(d, _) => d.id in s.providers && r.provider == d.id
    case OpRegisterRegion(d, _) => d.id in s.regions && r.region == d.id
    case OpRegisterPool(d, _) => d.id in s.pools && r.pool == d.id
    case OpRegisterPolicy(d, _) => d.id in s.policies && r.policy == d.id
    case OpRetireProvider(p, _) => r.provider == p
    case OpRetireRegion(region, _) => r.region == region
    case OpMarkUnavailable(region, _) => r.region == region
    case OpMarkWorkerDead(w, _) => w in s.workers && (r.worker == w || VouchedBy(s, w, r.region))
    case _ => false
  }

  ghost predicate Outcome(s: State, op: Op, r: Reservation, r': Reservation) {
    var ok := Apply(s, op).error == NoError;
    if Strikes(s, op, r) then FencedOut(r, r')
    else if op.OpSetEpoch? && op.e > s.epoch then Outdated(r, r')
    else if op.OpBeginDrain? && ok && op.region == r.region then Drained(r, r')
    else if op.OpCommit? && ok && op.id == r.id then r.state.Reserved? && r' == r.(state := ReservationState.Committed)
    else if op.OpRelease? && ok && op.id == r.id then Live(r) && r' == r.(state := Released)
    else r' == r
  }

  // ---- Operation by operation ----

  lemma Applied(s: State, op: Op)
    ensures op.OpRegisterProvider? ==> Apply(s, op) == RegisterProvider(s, op.provider, op.a)
    ensures op.OpRegisterRegion? ==> Apply(s, op) == RegisterRegion(s, op.descriptor, op.a)
    ensures op.OpRegisterPool? ==> Apply(s, op) == RegisterPool(s, op.pool, op.a)
    ensures op.OpRegisterPolicy? ==> Apply(s, op) == RegisterPolicy(s, op.policy, op.a)
    ensures op.OpBeginDrain? ==> Apply(s, op) == BeginDrain(s, op.region, op.a)
    ensures op.OpMarkUnavailable? ==> Apply(s, op) == MarkUnavailable(s, op.region, op.a)
    ensures op.OpRetireProvider? ==> Apply(s, op) == RetireProvider(s, op.p, op.a)
    ensures op.OpRetireRegion? ==> Apply(s, op) == RetireRegion(s, op.region, op.a)
    ensures op.OpMarkWorkerDead? ==> Apply(s, op) == MarkWorkerDead(s, op.w, op.a)
    ensures op.OpReserve? ==> Apply(s, op) == Reserve(s, op.req, op.a, op.now)
    ensures op.OpCommit? ==> Apply(s, op) == Commit(s, op.id, op.a)
    ensures op.OpRelease? ==> Apply(s, op) == Release(s, op.id, op.a)
    ensures op.OpSetEpoch? ==> Apply(s, op) == Step(SetEpoch(s, op.e), NoError)
  {
    hide SetEpoch, RegisterConsumer, RegisterProvider, RegisterDomain, RegisterRegion, RegisterPool, RegisterPolicy;
    hide AddPoolMember, RemovePoolMember, PublishEvidence, PublishAttachment, BeginDrain, CompleteDrain, CancelDrain;
    hide MarkUnavailable, RecoverRegion, RetireProvider, RetireRegion, RegisterWorker, MarkWorkerDead, NoteWorkerHandle;
    hide Select, Reserve, Commit, Release;
  }

  lemma AppliedMembers(s: State, op: Op)
    ensures op.OpAddPoolMember? ==> Apply(s, op) == AddPoolMember(s, op.into, op.member, op.a)
    ensures op.OpRemovePoolMember? ==> Apply(s, op) == RemovePoolMember(s, op.from, op.region, op.a)
    ensures op.OpPublishEvidence? ==> Apply(s, op) == PublishEvidence(s, op.evidence, op.a)
  {
    hide AddPoolMember, RemovePoolMember, PublishEvidence;
  }

  lemma AppliedEntries(s: State, op: Op)
    ensures op.OpRegisterConsumer? ==> Apply(s, op) == RegisterConsumer(s, op.c, op.g, op.a)
    ensures op.OpRegisterDomain? ==> Apply(s, op) == RegisterDomain(s, op.domain, op.a)
    ensures op.OpRegisterWorker? ==> Apply(s, op) == RegisterWorker(s, op.w, op.boot, op.epoch, op.pid, op.a)
    ensures op.OpNoteWorkerHandle? ==> Apply(s, op) == Step(NoteWorkerHandle(s, op.w, op.holds), NoError)
  {
    hide RegisterConsumer, RegisterDomain, RegisterWorker, NoteWorkerHandle;
  }

  lemma AppliedRegion(s: State, op: Op)
    ensures op.OpCompleteDrain? ==> Apply(s, op) == CompleteDrain(s, op.region, op.a)
    ensures op.OpCancelDrain? ==> Apply(s, op) == CancelDrain(s, op.region, op.a)
    ensures op.OpRecoverRegion? ==> Apply(s, op) == RecoverRegion(s, op.region, op.a)
    ensures op.OpPublishAttachment? ==> Apply(s, op) == PublishAttachment(s, op.attachment, op.a)
    ensures op.OpSelect? ==> Apply(s, op) == Select(s, op.req, op.a)
  {
    hide CompleteDrain, CancelDrain, RecoverRegion, PublishAttachment, Select;
  }

  type Tables = map<ReservationId, Reservation>

  /** Every reservation meets its outcome. */
  ghost predicate Outcomes(s: State, op: Op, rs: Tables) {
    forall id :: id in s.reservations ==> id in rs && Outcome(s, op, s.reservations[id], rs[id])
  }

  lemma FencedOutWhenWithdrawn(rs: Tables, ids: set<ReservationId>, id: ReservationId)
    requires id in rs
    ensures var r' := WithdrawAll(rs, ids, Fencing)[id]; if id in ids then FencedOut(rs[id], r') else r' == rs[id]
  {
  }

  lemma OutdatedWhenWithdrawn(rs: Tables, ids: set<ReservationId>, id: ReservationId)
    requires id in rs && id in ids
    ensures Outdated(rs[id], WithdrawAll(rs, ids, EpochAdvance)[id])
  {
  }

  lemma DrainedWhenWithdrawn(rs: Tables, ids: set<ReservationId>, id: ReservationId)
    requires id in rs
    ensures var r' := WithdrawAll(rs, ids, DrainStart)[id]; if id in ids then Drained(rs[id], r') else r' == rs[id]
  {
  }

  /** A call whose table is the fencing of exactly the reservations it strikes. */
  lemma FencingOutcomes(s: State, op: Op, ids: set<ReservationId>)
    requires !op.OpSetEpoch? && !op.OpBeginDrain? && !op.OpCommit? && !op.OpRelease?
    requires Apply(s, op).state.reservations == WithdrawAll(s.reservations, ids, Fencing)
    requires forall id :: id in s.reservations ==> (id in ids <==> Strikes(s, op, s.reservations[id]))
    ensures Outcomes(s, op, Apply(s, op).state.reservations)
  {
    hide Apply, Strikes, WithdrawAll, FencedOut;
    forall id | id in s.reservations
      ensures id in WithdrawAll(s.reservations, ids, Fencing)
      ensures Outcome(s, op, s.reservations[id], WithdrawAll(s.reservations, ids, Fencing)[id])
    {
      WithdrawnKeys(s.reservations, ids, Fencing);
      FencedOutWhenWithdrawn(s.reservations, ids, id);
    }
  }

  lemma WithdrawnKeys(rs: Tables, ids: set<ReservationId>, cause: Cause)
    ensures WithdrawAll(rs, ids, cause).Keys == rs.Keys
  {
  }

  /** A call that touches no reservation meets every outcome if it is none of those that end one. */
  lemma UntouchedOutcomes(s: State, op: Op)
    requires Apply(s, op).state.reservations == s.reservations
    requires Apply(s, op).error == NoError ==> !Ends(op) && !op.OpCommit?
    requires op.OpSetEpoch? ==> op.e <= s.epoch
    ensures Outcomes(s, op, Apply(s, op).state.reservations)
  {
    hide Apply;
  }

  lemma RegisterProviderTable(s: State, d: ProviderDescriptor, a: Authority)
    requires RegisterProvider(s, d, a).error == NoError
    ensures RegisterProvider(s, d, a).state.reservations
         == if d.id in s.providers then WithdrawAll(s.reservations, OfProvider(s, d.id), Fencing) else s.reservations
  {
    hide ProviderFault, WithdrawAll, Settle, ForgetBacked;
  }

  lemma RegisterRegionTable(s: State, d: RegionDescriptor, a: Authority)
    requires RegisterRegion(s, d, a).error == NoError
    ensures RegisterRegion(s, d, a).state.reservations
         == if d.id in s.regions then WithdrawAll(s.reservations, OfRegion(s, d.id), Fencing) else s.reservations
  {
    hide RegionFault, WithdrawAll, Settle, FreshRegion;
  }

  lemma RegisterPoolTable(s: State, d: PoolDescriptor, a: Authority)
    requires RegisterPool(s, d, a).error == NoError
    ensures RegisterPool(s, d, a).state.reservations
         == if d.id in s.pools then WithdrawAll(s.reservations, OfPool(s, d.id), Fencing) else s.reservations
  {
    hide PoolFault, WithdrawAll, Settle;
  }

  lemma RegisterPolicyTable(s: State, d: PolicyDescriptor, a: Authority)
    requires RegisterPolicy(s, d, a).error == NoError
    ensures RegisterPolicy(s, d, a).state.reservations
         == if d.id in s.policies then WithdrawAll(s.reservations, OfPolicy(s, d.id), Fencing) else s.reservations
  {
    hide PolicyFault, WithdrawAll, Settle;
  }

  lemma RetirementTables(s: State, p: ProviderId, region: RegionId, a: Authority)
    ensures RetireProvider(s, p, a).error == NoError ==>
              RetireProvider(s, p, a).state.reservations == WithdrawAll(s.reservations, OfProvider(s, p), Fencing)
    ensures RetireRegion(s, region, a).error == NoError ==>
              RetireRegion(s, region, a).state.reservations == WithdrawAll(s.reservations, OfRegion(s, region), Fencing)
  {
    hide Acceptable, ProviderAllowed, RegionAllowed, WithdrawAll, RetireBacked, Held;
  }

  lemma MarkUnavailableTable(s: State, region: RegionId, a: Authority)
    requires MarkUnavailable(s, region, a).error == NoError
    ensures MarkUnavailable(s, region, a).state.reservations == WithdrawAll(s.reservations, OfRegion(s, region), Fencing)
  {
    hide Acceptable, RegionAllowed, WithdrawAll, Transfer, Held;
  }

  lemma MarkWorkerDeadTable(s: State, w: WorkerId, a: Authority)
    requires MarkWorkerDead(s, w, a).error == NoError
    ensures w in s.workers
    ensures MarkWorkerDead(s, w, a).state.reservations
         == WithdrawAll(s.reservations, OfWorker(s, w, Vouched(s, w, s.workers[w].boot)), Fencing)
  {
    hide Acceptable, WithdrawAll, Settle, SuspendAll, OfWorker, Vouched;
  }

  lemma RegistrationOutcomes(s: State, op: Op)
    requires op.OpRegisterProvider? || op.OpRegisterRegion? || op.OpRegisterPool? || op.OpRegisterPolicy?
    requires Apply(s, op).error == NoError
    ensures Outcomes(s, op, Apply(s, op).state.reservations)
  {
    hide Apply, RegisterProvider, RegisterRegion, RegisterPool, RegisterPolicy, WithdrawAll, Outcomes;
    Applied(s, op);
    match op {
      case OpRegisterProvider(d, a) =>
        RegisterProviderTable(s, d, a);
        if d.id in s.providers { FencingOutcomes(s, op, OfProvider(s, d.id)); } else { NothingStruck(s, op); }
      case OpRegisterRegion(d, a) =>
        RegisterRegionTable(s, d, a);
        if d.id in s.regions { FencingOutcomes(s, op, OfRegion(s, d.id)); } else { NothingStruck(s, op); }
      case OpRegisterPool(d, a) =>
        RegisterPoolTable(s, d, a);
        if d.id in s.pools { FencingOutcomes(s, op, OfPool(s, d.id)); } else { NothingStruck(s, op); }
      case OpRegisterPolicy(d, a) =>
        RegisterPolicyTable(s, d, a);
        if d.id in s.policies { FencingOutcomes(s, op, OfPolicy(s, d.id)); } else { NothingStruck(s, op); }
    }
  }

  lemma NothingStruck(s: State, op: Op)
    requires Apply(s, op).state.reservations == s.reservations
    requires !op.OpSetEpoch? && !op.OpBeginDrain? && !op.OpCommit? && !op.OpRelease?
    requires forall id :: id in s.reservations ==> !Strikes(s, op, s.reservations[id])
    ensures Outcomes(s, op, Apply(s, op).state.reservations)
  {
    hide Apply, Strikes;
  }

  lemma WithdrawalOutcomes(s: State, op: Op)
    requires op.OpRetireProvider? || op.OpRetireRegion? || op.OpMarkUnavailable? || op.OpMarkWorkerDead?
    requires Apply(s, op).error == NoError
    ensures Outcomes(s, op, Apply(s, op).state.reservations)
  {
    hide Apply, RetireProvider, RetireRegion, MarkUnavailable, MarkWorkerDead, WithdrawAll, Outcomes;
    Applied(s, op);
    match op {
      case OpRetireProvider(p, a) => RetirementTables(s, p, 0, a); FencingOutcomes(s, op, OfProvider(s, p));
      case OpRetireRegion(region, a) => RetirementTables(s, 0, region, a); FencingOutcomes(s, op, OfRegion(s, region));
      case OpMarkUnavailable(region, a) => MarkUnavailableTable(s, region, a); FencingOutcomes(s, op, OfRegion(s, region));
      case OpMarkWorkerDead(w, a) =>
        MarkWorkerDeadTable(s, w, a);
        var vouched := Vouched(s, w, s.workers[w].boot);
        assert forall rid :: rid in vouched <==> VouchedBy(s, w, rid);
        FencingOutcomes(s, op, OfWorker(s, w, vouched));
    }
  }

  lemma SetEpochTable(s: State, e: Epoch)
    ensures SetEpoch(s, e).reservations
         == if e > s.epoch then WithdrawAll(s.reservations, s.reservations.Keys, EpochAdvance) else s.reservations
  {
    hide Settle, SuspendAll, Dismiss, WithdrawAll;
  }

  lemma EpochOutcomes(s: State, op: Op)
    requires op.OpSetEpoch?
    ensures Outcomes(s, op, Apply(s, op).state.reservations)
  {
    hide Apply, SetEpoch, WithdrawAll, Outdated;
    Applied(s, op);
    SetEpochTable(s, op.e);
    if op.e > s.epoch {
      var rs := WithdrawAll(s.reservations, s.reservations.Keys, EpochAdvance);
      forall id | id in s.reservations ensures id in rs && Outcome(s, op, s.reservations[id], rs[id]) {
        WithdrawnKeys(s.reservations, s.reservations.Keys, EpochAdvance);
        OutdatedWhenWithdrawn(s.reservations, s.reservations.Keys, id);
      }
    }
  }

  /** After a real epoch advance every reservation is outdated. */
  lemma EpochOutdates(s: State, e: Epoch)
    requires s.epoch < e
    ensures SetEpoch(s, e).reservations.Keys == s.reservations.Keys
    ensures forall id :: id in s.reservations ==> Outdated(s.reservations[id], SetEpoch(s, e).reservations[id])
  {
    hide SetEpoch, WithdrawAll, Outdated;
    SetEpochTable(s, e);
    WithdrawnKeys(s.reservations, s.reservations.Keys, EpochAdvance);
    forall id | id in s.reservations ensures Outdated(s.reservations[id], SetEpoch(s, e).reservations[id]) {
      OutdatedWhenWithdrawn(s.reservations, s.reservations.Keys, id);
    }
  }

  lemma BeginDrainOutcomes(s: State, op: Op)
    requires op.OpBeginDrain? && Apply(s, op).error == NoError
    ensures Outcomes(s, op, Apply(s, op).state.reservations)
  {
    hide Apply, BeginDrain, WithdrawAll, Drained;
    Applied(s, op);
    var ids := OfRegion(s, op.region);
    BeginDrainTable(s, op.region, op.a);
    var rs := WithdrawAll(s.reservations, ids, DrainStart);
    forall id | id in s.reservations ensures id in rs && Outcome(s, op, s.reservations[id], rs[id]) {
      WithdrawnKeys(s.reservations, ids, DrainStart);
      DrainedWhenWithdrawn(s.reservations, ids, id);
    }
  }

  lemma BeginDrainTable(s: State, region: RegionId, a: Authority)
    requires BeginDrain(s, region, a).error == NoError
    ensures BeginDrain(s, region, a).state.reservations == WithdrawAll(s.reservations, OfRegion(s, region), DrainStart)
  {
    hide Withdraw, WithdrawAll, OfRegion, Acceptable, RegionAllowed, StartDraining;
    var t := Withdraw(s, OfRegion(s, region), DrainStart);
    KeysAfterWithdraw(s, OfRegion(s, region), DrainStart);
    WithdrawTable(s, OfRegion(s, region), DrainStart);
    StartDrainingTable(t, region);
  }

  lemma EndingIds(s: State, id: ReservationId)
    requires Inv(s) && id in s.reservations
    ensures s.reservations[id].id == id
  {
    assert ReservationOk(s, id);
  }

  /** One reservation is replaced and it meets its outcome; the others are as they were. */
  lemma OneOutcome(s: State, op: Op, id: ReservationId, r': Reservation)
    requires Inv(s) && (op.OpCommit? || op.OpRelease?) && op.id == id && id in s.reservations
    requires Apply(s, op).state.reservations == s.reservations[id := r']
    requires Outcome(s, op, s.reservations[id], r') && Apply(s, op).error == NoError
    ensures Outcomes(s, op, Apply(s, op).state.reservations)
  {
    hide Inv, Apply;
    forall x | x in s.reservations ensures s.reservations[x].id == x { EndingIds(s, x); }
  }

  lemma CommitOutcomes(s: State, op: Op)
    requires Inv(s) && op.OpCommit? && Apply(s, op).error == NoError
    ensures Outcomes(s, op, Apply(s, op).state.reservations)
  {
    hide Inv, Apply, Commit, Outcomes;
    Applied(s, op);
    Guarantees.CommitMoves(s, op.id, op.a);
    CommittedWas(s, op.id, op.a);
    EndingIds(s, op.id);
    OneOutcome(s, op, op.id, s.reservations[op.id].(state := ReservationState.Committed));
  }

  lemma CommittedWas(s: State, id: ReservationId, a: Authority)
    requires Commit(s, id, a).error == NoError
    ensures id in s.reservations && s.reservations[id].state.Reserved?
  {
    hide Acceptable, BindingFault, HolderFault, FreshnessFault, Transfer;
  }

  lemma ReleaseOutcomes(s: State, op: Op)
    requires Inv(s) && op.OpRelease? && Apply(s, op).error == NoError
    ensures Outcomes(s, op, Apply(s, op).state.reservations)
  {
    hide Inv, Apply, Release, Outcomes, Acceptable, Guarantees.Freed;
    Applied(s, op);
    ReleasedWas(s, op.id, op.a);
    Guarantees.ReleaseAlwaysSucceeds(s, op.id, op.a);
    EndingIds(s, op.id);
    OneOutcome(s, op, op.id, s.reservations[op.id].(state := Released));
  }

  lemma ReleasedWas(s: State, id: ReservationId, a: Authority)
    requires Release(s, id, a).error == NoError
    ensures id in s.reservations && Live(s.reservations[id]) && Acceptable(s, a)
  {
    hide Acceptable, Transfer;
  }

  lemma ReserveOutcomes(s: State, op: Op)
    requires Inv(s) && s.nextReservation <= U64_MAX && op.OpReserve? && Apply(s, op).error == NoError
    ensures Outcomes(s, op, Apply(s, op).state.reservations)
  {
    hide Inv, Apply, Reserve, Acceptable, Bindings.AsRequested, Bindings.AtCurrentGenerations;
    Applied(s, op);
    Bindings.GrantedAsRequested(s, op.req, op.a, op.now);
  }

  lemma AcceptedEndings(s: State, op: Op)
    requires Inv(s) && s.nextReservation <= U64_MAX && Apply(s, op).error == NoError
    requires Ends(op) || op.OpCommit? || op.OpReserve?
    ensures Outcomes(s, op, Apply(s, op).state.reservations)
  {
    hide Inv, Apply, Outcomes;
    match op
    case OpSetEpoch(_) => EpochOutcomes(s, op);
    case OpBeginDrain(_, _) => BeginDrainOutcomes(s, op);
    case OpCommit(_, _) => CommitOutcomes(s, op);
    case OpRelease(_, _) => ReleaseOutcomes(s, op);
    case OpReserve(_, _, _) => ReserveOutcomes(s, op);
    case _ =>
      if op.OpRegisterProvider? || op.OpRegisterRegion? || op.OpRegisterPool? || op.OpRegisterPolicy? {
        RegistrationOutcomes(s, op);
      } else {
        WithdrawalOutcomes(s, op);
      }
  }

  /** The operations that leave the table of reservations alone, accepted or refused. */
  lemma OtherTables(s: State, op: Op)
    requires !Ends(op) && !op.OpCommit? && !op.OpReserve?
    ensures Apply(s, op).state.reservations == s.reservations
  {
    hide SetEpoch, RegisterConsumer, RegisterProvider, RegisterDomain, RegisterRegion, RegisterPool, RegisterPolicy;
    hide AddPoolMember, RemovePoolMember, PublishEvidence, PublishAttachment, BeginDrain, CompleteDrain, CancelDrain;
    hide MarkUnavailable, RecoverRegion, RetireProvider, RetireRegion, RegisterWorker, MarkWorkerDead, NoteWorkerHandle;
    hide Select, Reserve, Commit, Release;
    match op
    case OpRegisterConsumer(c, g, a) => RegistryTables(s, c, g, DomainDescriptor(0, 0, [], 0, 0), a);
    case OpRegisterDomain(d, a) => RegistryTables(s, 0, 0, d, a);
    case OpAddPoolMember(pool, m, a) => MemberTables(s, pool, m, 0, a);
    case OpRemovePoolMember(pool, region, a) => MemberTables(s, pool, PoolMember(0, 0), region, a);
    case OpPublishEvidence(e, a) => EvidenceTables(s, e, AttachmentEvidence(0, 0, 0, 0, 0, 0, 0), a);
    case OpPublishAttachment(e, a) => EvidenceTables(s, NO_EVIDENCE, e, a);
    case OpCompleteDrain(region, a) => CompleteDrainTable(s, region, a);
    case OpCancelDrain(region, a) => CancelDrainTable(s, region, a);
    case OpRecoverRegion(region, a) => RecoverRegionTable(s, region, a);
    case OpRegisterWorker(w, boot, epoch, pid, a) => WorkerTables(s, w, boot, epoch, pid, false, a);
    case OpNoteWorkerHandle(w, holds) => WorkerTables(s, w, 0, 0, 0, holds, Authority(0, 0, 0));
    case OpSelect(req, a) => SelectTable(s, req, a);
    case _ =>
  }

  lemma RefusedTable(s: State, op: Op)
    requires Inv(s) && s.nextReservation <= U64_MAX && Apply(s, op).error != NoError
    ensures Apply(s, op).state.reservations == s.reservations
  {
    hide Inv, Apply;
    if op.OpPublishEvidence? { OtherTables(s, op); } else { Refusals.RefusedCallsChangeNothing(s, op); }
  }

  /** Every operation, every reservation: exactly what becomes of it. */
  lemma EveryOutcome(s: State, op: Op, id: ReservationId)
    requires Inv(s) && s.nextReservation <= U64_MAX && id in s.reservations
    ensures id in Apply(s, op).state.reservations
    ensures Outcome(s, op, s.reservations[id], Apply(s, op).state.reservations[id])
  {
    hide Inv, Apply, Outcome, Strikes;
    if Apply(s, op).error != NoError {
      RefusedTable(s, op);
      Applied(s, op);
      UntouchedOutcomes(s, op);
    } else if Ends(op) || op.OpCommit? || op.OpReserve? {
      AcceptedEndings(s, op);
    } else {
      OtherTables(s, op);
      UntouchedOutcomes(s, op);
    }
  }
}
