/**
 The whole audit over whole runs. Its accounting checks always pass; this module says, operation by
 operation, exactly which calls make the pool check or the revalidation check fail.
 */
module Verdicts {
  import opened Words
  import opened Types
  import opened Ledgers
  import opened Records
  import opened Operations
  import opened Invariants
  import opened Preservation
  import opened Refusals
  import opened Scenarios
  import opened Effects
  import Audit

  // ---- The pool check ----

  ghost predicate Listed(s: State, rid: RegionId) { exists p, m :: p in s.pools && m in s.pools[p].members && m.region == rid }

  /**
   The calls that leave a stale pool member behind: an accepted reincarnation of a region some pool
   lists, and an accepted pool registration with a member that is not current.
   */
  ghost predicate Stales(s: State, op: Op) {
    || (&& op.OpRegisterRegion? && RegionFault(s, op.descriptor, op.a) == NoError
        && op.descriptor.id in s.regions && Listed(s, op.descriptor.id))
    || (op.OpRegisterPool? && PoolFault(s, op.pool, op.a) == NoError && exists m :: m in op.pool.members && !MemberCurrent(s, m))
  }

  /** Members stay current where the regions they name keep their structure. */
  lemma MembersCarried(s: State, t: State)
    requires MembersCurrent(s) && t.pools == s.pools
    requires forall rid :: rid in s.regions ==> rid in t.regions && t.regions[rid].descriptor == s.regions[rid].descriptor
    ensures MembersCurrent(t)
  {
    forall p, m | p in t.pools && m in t.pools[p].members ensures MemberCurrent(t, m) {
      assert p in s.pools && m in s.pools[p].members && MemberCurrent(s, m);
    }
  }

  lemma CalmStructure(s: State, t: State)
    requires AllCalm(s.regions, t.regions)
    ensures forall rid :: rid in s.regions ==> rid in t.regions && t.regions[rid].descriptor == s.regions[rid].descriptor
  {
    hide RevalidatedQuietly;
    forall rid | rid in s.regions ensures rid in t.regions && t.regions[rid].descriptor == s.regions[rid].descriptor {
      assert Calm(s.regions[rid], t.regions[rid]);
    }
  }

  /** With one pool replaced, the check holds exactly if it holds of the new pool's members. */
  lemma OnePoolReplaced(s: State, t: State, pool: PoolId, d: PoolDescriptor)
    requires MembersCurrent(s) && t.pools == s.pools[pool := d]
    requires t.regions.Keys == s.regions.Keys
    requires forall rid :: rid in s.regions ==> rid in t.regions && t.regions[rid].descriptor == s.regions[rid].descriptor
    ensures MembersCurrent(t) <==> forall m :: m in d.members ==> MemberCurrent(s, m)
  {
    assert forall m :: MemberCurrent(t, m) <==> MemberCurrent(s, m);
    if forall m :: m in d.members ==> MemberCurrent(s, m) {
      forall p, m | p in t.pools && m in t.pools[p].members ensures MemberCurrent(t, m) {
        if p != pool { assert p in s.pools && m in s.pools[p].members; }
      }
    } else {
      var m :| m in d.members && !MemberCurrent(s, m);
      assert pool in t.pools && m in t.pools[pool].members && !MemberCurrent(t, m);
    }
  }

  lemma RegisterPoolMembers(s: State, d: PoolDescriptor, a: Authority)
    requires MembersCurrent(s)
    ensures MembersCurrent(RegisterPool(s, d, a).state) <==> !Stales(s, OpRegisterPool(d, a))
  {
    RegisterPoolSteady(s, d, a);
    hide RegisterPool, PoolFault, AllSteady, MembersCurrent;
    var t := RegisterPool(s, d, a).state;
    SteadyIsCalm(s.regions, t.regions);
    SameKeys(s.regions, t.regions);
    CalmStructure(s, t);
    if PoolFault(s, d, a) == NoError { OnePoolReplaced(s, t, d.id, d); } else { MembersCarried(s, t); }
  }

  lemma SameKeys(rs: map<RegionId, RegionRecord>, rs': map<RegionId, RegionRecord>)
    requires AllCalm(rs, rs')
    ensures rs'.Keys == rs.Keys
  {
  }

  lemma FaultsAgree(s: State, d: RegionDescriptor, a: Authority)
    ensures RegisterRegion(s, d, a).error == RegionFault(s, d, a)
  {
    hide RegionFault, Withdraw;
  }

  lemma RegisterRegionMembers(s: State, d: RegionDescriptor, a: Authority)
    requires MembersCurrent(s)
    ensures MembersCurrent(RegisterRegion(s, d, a).state) <==> !Stales(s, OpRegisterRegion(d, a))
  {
    RegisterRegionSteady(s, d, a);
    FaultsAgree(s, d, a);
    hide RegisterRegion, RegionFault, MembersCurrent, FreshRegion, RevalidatedQuietly;
    if RegionFault(s, d, a) == NoError && d.id in s.regions {
      ReincarnationStalesMembersIff(s, d, a);
    } else {
      MembersCarried(s, RegisterRegion(s, d, a).state);
    }
  }

  lemma AddPoolMemberMembers(s: State, pool: PoolId, m: PoolMember, a: Authority)
    requires MembersCurrent(s)
    ensures MembersCurrent(AddPoolMember(s, pool, m, a).state)
  {
    AddPoolMemberCalm(s, pool, m, a);
    var t := AddPoolMember(s, pool, m, a).state;
    hide AddPoolMember, AllCalm;
    SameKeys(s.regions, t.regions);
    CalmStructure(s, t);
    if t.pools == s.pools {
      MembersCarried(s, t);
    } else {
      var d := s.pools[pool].(members := s.pools[pool].members + [m]);
      forall x | x in d.members ensures MemberCurrent(s, x) { assert x in s.pools[pool].members || x == m; }
      OnePoolReplaced(s, t, pool, d);
    }
  }

  lemma RemovePoolMemberMembers(s: State, pool: PoolId, region: RegionId, a: Authority)
    requires MembersCurrent(s)
    ensures MembersCurrent(RemovePoolMember(s, pool, region, a).state)
  {
    RemovePoolMemberCalm(s, pool, region, a);
    var t := RemovePoolMember(s, pool, region, a).state;
    hide RemovePoolMember, AllCalm;
    SameKeys(s.regions, t.regions);
    CalmStructure(s, t);
    if t.pools == s.pools {
      MembersCarried(s, t);
    } else {
      var d := s.pools[pool].(members := Without(s.pools[pool].members, region));
      forall x | x in d.members ensures MemberCurrent(s, x) { assert x in s.pools[pool].members; }
      OnePoolReplaced(s, t, pool, d);
    }
  }

  lemma StirredMembers(s: State, op: Op)
    requires MembersCurrent(s) && Stirs(op)
    ensures MembersCurrent(Apply(s, op).state) <==> !Stales(s, op)
  {
    hide MembersCurrent, SetEpoch, RegisterConsumer, RegisterProvider, RegisterDomain, RegisterRegion, RegisterPool;
    hide RegisterPolicy, AddPoolMember, RemovePoolMember, PublishEvidence, PublishAttachment, BeginDrain, CompleteDrain;
    hide CancelDrain, MarkUnavailable, RecoverRegion, RetireProvider, RetireRegion, RegisterWorker, MarkWorkerDead;
    hide NoteWorkerHandle, Select, Reserve, Commit, Release, RegionFault, PoolFault, AllCalm, Listed;
    match op
    case OpRegisterRegion(d, a) => RegisterRegionMembers(s, d, a);
    case OpRegisterPool(d, a) => RegisterPoolMembers(s, d, a);
    case OpAddPoolMember(pool, m, a) => AddPoolMemberMembers(s, pool, m, a);
    case OpRemovePoolMember(pool, region, a) => RemovePoolMemberMembers(s, pool, region, a);
    case OpPublishEvidence(e, a) =>
      PublishEvidenceElsewhere(s, e, a);
      MembersCarried(s, PublishEvidence(s, e, a).state);
    case OpReserve(req, a, now) =>
      ReserveCalm(s, req, a, now);
      CalmStructure(s, Reserve(s, req, a, now).state);
      MembersCarried(s, Reserve(s, req, a, now).state);
    case _ =>
  }

  /** From a state that passes the pool check, the check holds after a call if and only if the call does not stale a member. */
  lemma MembersAfterIff(s: State, op: Op)
    requires Inv(s) && MembersCurrent(s)
    ensures MembersCurrent(Apply(s, op).state) <==> !Stales(s, op)
  {
    hide Inv, MembersCurrent, Apply, AllCalm;
    if Stirs(op) {
      StirredMembers(s, op);
    } else {
      OthersAreCalm(s, op);
      CalmStructure(s, Apply(s, op).state);
      MembersCarried(s, Apply(s, op).state);
    }
  }

  // ---- The revalidation check ----

  predicate AllQuiet(s: State) { forall rid :: rid in s.regions ==> RevalidatedQuietly(s.regions[rid]) }

  /** Evidence that is taken in and reports FAILED health, or DEGRADED health into a region awaiting revalidation. */
  predicate Disquiets(s: State, op: Op) {
    && op.OpPublishEvidence? && EvidenceFault(s, op.evidence, op.a) == NoError
    && SetOnline(s.regions[op.evidence.header.region].ledger, op.evidence.onlineCapacityBytes).ok
    && (op.evidence.health == HEALTH_FAILED
        || (op.evidence.health == HEALTH_DEGRADED && s.regions[op.evidence.header.region].lifecycle.RevalidationRequired?))
  }

  lemma QuietCarried(s: State, t: State)
    requires AllQuiet(s) && AllCalm(s.regions, t.regions)
    ensures AllQuiet(t)
  {
    hide RevalidatedQuietly;
    forall rid | rid in t.regions ensures RevalidatedQuietly(t.regions[rid]) { assert Calm(s.regions[rid], t.regions[rid]); }
  }

  lemma RegisterRegionQuiet(s: State, d: RegionDescriptor, a: Authority)
    requires AllQuiet(s)
    ensures AllQuiet(RegisterRegion(s, d, a).state)
  {
    RegisterRegionSteady(s, d, a);
    var t := RegisterRegion(s, d, a).state;
    assert RevalidatedQuietly(FreshRegion(d, RegionLifecycle.Declared));
    hide RegisterRegion, RegionFault, FreshRegion, RevalidatedQuietly;
    forall rid | rid in t.regions ensures RevalidatedQuietly(t.regions[rid]) {
      if rid in s.regions && (rid != d.id || RegionFault(s, d, a) != NoError) { assert Steady(s.regions[rid], t.regions[rid]); }
    }
  }

  lemma LedgerKeepsQuiet(s: State, e: RegionEvidence, a: Authority)
    requires EvidenceFault(s, e, a) == NoError && !SetOnline(s.regions[e.header.region].ledger, e.onlineCapacityBytes).ok
    ensures e.header.region in PublishEvidence(s, e, a).state.regions
    ensures RevalidatedQuietly(PublishEvidence(s, e, a).state.regions[e.header.region]) == RevalidatedQuietly(s.regions[e.header.region])
  {
    hide SetOnline, Acceptable, RegionAllowed, Reflect;
  }

  lemma PublishEvidenceQuiet(s: State, e: RegionEvidence, a: Authority)
    requires AllQuiet(s)
    ensures AllQuiet(PublishEvidence(s, e, a).state) <==> !Disquiets(s, OpPublishEvidence(e, a))
  {
    PublishEvidenceElsewhere(s, e, a);
    var t := PublishEvidence(s, e, a).state;
    var rid := e.header.region;
    if EvidenceFault(s, e, a) == NoError {
      if SetOnline(s.regions[rid].ledger, e.onlineCapacityBytes).ok {
        EvidenceBreaksRevalidationCheckIff(s, e, a);
      } else {
        LedgerKeepsQuiet(s, e, a);
      }
    }
    hide EvidenceFault, SetOnline, RevalidatedQuietly, AbsorbEvidence;
    forall x | x in t.regions && x != rid ensures RevalidatedQuietly(t.regions[x]) { assert t.regions[x] == s.regions[x]; }
  }

  lemma StirredQuiet(s: State, op: Op)
    requires AllQuiet(s) && Stirs(op)
    ensures AllQuiet(Apply(s, op).state) <==> !Disquiets(s, op)
  {
    hide AllQuiet, SetEpoch, RegisterConsumer, RegisterProvider, RegisterDomain, RegisterRegion, RegisterPool, RegisterPolicy;
    hide AddPoolMember, RemovePoolMember, PublishEvidence, PublishAttachment, BeginDrain, CompleteDrain, CancelDrain;
    hide MarkUnavailable, RecoverRegion, RetireProvider, RetireRegion, RegisterWorker, MarkWorkerDead, NoteWorkerHandle;
    hide Select, Reserve, Commit, Release, AllCalm, AllSteady, Disquiets;
    OnlyEvidenceDisquiets(s, op);
    match op
    case OpRegisterRegion(d, a) => RegisterRegionQuiet(s, d, a);
    case OpRegisterPool(d, a) =>
      RegisterPoolSteady(s, d, a);
      SteadyIsCalm(s.regions, RegisterPool(s, d, a).state.regions);
      QuietCarried(s, RegisterPool(s, d, a).state);
    case OpAddPoolMember(pool, m, a) =>
      AddPoolMemberCalm(s, pool, m, a);
      QuietCarried(s, AddPoolMember(s, pool, m, a).state);
    case OpRemovePoolMember(pool, region, a) =>
      RemovePoolMemberCalm(s, pool, region, a);
      QuietCarried(s, RemovePoolMember(s, pool, region, a).state);
    case OpPublishEvidence(e, a) => PublishEvidenceQuiet(s, e, a);
    case OpReserve(req, a, now) =>
      ReserveCalm(s, req, a, now);
      QuietCarried(s, Reserve(s, req, a, now).state);
    case _ =>
  }

  lemma OnlyEvidenceDisquiets(s: State, op: Op)
    ensures Disquiets(s, op) ==> op.OpPublishEvidence?
  {
  }

  /** From a state that passes the revalidation check, the check holds after a call if and only if the call does not disquiet a region. */
  lemma QuietAfterIff(s: State, op: Op)
    requires Inv(s) && AllQuiet(s)
    ensures AllQuiet(Apply(s, op).state) <==> !Disquiets(s, op)
  {
    hide Inv, AllQuiet, Apply, AllCalm, Disquiets;
    if Stirs(op) {
      StirredQuiet(s, op);
    } else {
      OnlyEvidenceDisquiets(s, op);
      OthersAreCalm(s, op);
      QuietCarried(s, Apply(s, op).state);
    }
  }

  // ---- Each check along whole runs ----

  ghost predicate MembersAlong(s: State, ops: seq<Op>)
    decreases |ops|
  {
    MembersCurrent(s) && (ops == [] || MembersAlong(Apply(s, ops[0]).state, ops[1..]))
  }

  ghost predicate NeverStales(s: State, ops: seq<Op>)
    decreases |ops|
  {
    ops == [] || (!Stales(s, ops[0]) && NeverStales(Apply(s, ops[0]).state, ops[1..]))
  }

  /** The pool check holds throughout a run if and only if no call of the run stales a member. */
  lemma {:induction false} MembersAlongIff(s: State, ops: seq<Op>)
    requires Inv(s) && s.nextReservation + |ops| <= U64_MAX + 1 && MembersCurrent(s)
    ensures MembersAlong(s, ops) <==> NeverStales(s, ops)
    decreases |ops|
  {
    hide Inv, Apply, MembersCurrent, Stales;
    if ops != [] {
      StepKeeps(s, ops[0]);
      MembersAfterIff(s, ops[0]);
      if !Stales(s, ops[0]) { MembersAlongIff(Apply(s, ops[0]).state, ops[1..]); }
    }
  }

  ghost predicate QuietAlong(s: State, ops: seq<Op>)
    decreases |ops|
  {
    AllQuiet(s) && (ops == [] || QuietAlong(Apply(s, ops[0]).state, ops[1..]))
  }

  ghost predicate NeverDisquiets(s: State, ops: seq<Op>)
    decreases |ops|
  {
    ops == [] || (!Disquiets(s, ops[0]) && NeverDisquiets(Apply(s, ops[0]).state, ops[1..]))
  }

  /** The revalidation check holds throughout a run if and only if no call of the run disquiets a region. */
  lemma {:induction false} QuietAlongIff(s: State, ops: seq<Op>)
    requires Inv(s) && s.nextReservation + |ops| <= U64_MAX + 1 && AllQuiet(s)
    ensures QuietAlong(s, ops) <==> NeverDisquiets(s, ops)
    decreases |ops|
  {
    hide Inv, Apply, AllQuiet, Disquiets;
    if ops != [] {
      StepKeeps(s, ops[0]);
      QuietAfterIff(s, ops[0]);
      if !Disquiets(s, ops[0]) { QuietAlongIff(Apply(s, ops[0]).state, ops[1..]); }
    }
  }

  // ---- The whole audit, along whole runs ----

  ghost predicate AuditPasses(s: State) {
    && (forall rid :: rid in s.regions ==> Audit.ClosureChecks(s.regions[rid]) && Audit.SumChecks(s, rid))
    && MembersCurrent(s) && AllQuiet(s)
  }

  lemma AuditPassesIff(s: State)
    requires Inv(s)
    ensures AuditPasses(s) <==> MembersCurrent(s) && AllQuiet(s)
  {
    hide Inv, MembersCurrent, AllQuiet, Audit.ClosureChecks, Audit.SumChecks;
    forall rid | rid in s.regions ensures Audit.ClosureChecks(s.regions[rid]) && Audit.SumChecks(s, rid) {
      Audit.AccountingAlwaysPasses(s, rid, {});
    }
  }

  /** The audit would pass in every state the run goes through, first and last included. */
  ghost predicate PassesAlong(s: State, ops: seq<Op>)
    decreases |ops|
  {
    AuditPasses(s) && (ops == [] || PassesAlong(Apply(s, ops[0]).state, ops[1..]))
  }

  /** No call of the run stales a member or disquiets a region. */
  ghost predicate Harmless(s: State, ops: seq<Op>)
    decreases |ops|
  {
    ops == [] || (!Stales(s, ops[0]) && !Disquiets(s, ops[0]) && Harmless(Apply(s, ops[0]).state, ops[1..]))
  }

  /** From a state that passes it, the audit passes throughout a run if and only if every call of the run is harmless. */
  lemma {:induction false} PassesAlongIff(s: State, ops: seq<Op>)
    requires Inv(s) && s.nextReservation + |ops| <= U64_MAX + 1 && AuditPasses(s)
    ensures PassesAlong(s, ops) <==> Harmless(s, ops)
    decreases |ops|
  {
    hide Inv, Apply, AuditPasses, Stales, Disquiets;
    if ops != [] {
      var t := Apply(s, ops[0]).state;
      StepKeeps(s, ops[0]);
      AuditPassesIff(s);
      AuditPassesIff(t);
      MembersAfterIff(s, ops[0]);
      QuietAfterIff(s, ops[0]);
      if AuditPasses(t) {
        PassesAlongIff(t, ops[1..]);
      } else {
        NotFromHere(t, ops[1..]);
      }
    }
  }

  lemma NotFromHere(s: State, ops: seq<Op>)
    requires !AuditPasses(s)
    ensures !PassesAlong(s, ops)
  {
    hide AuditPasses, Apply;
  }

  lemma NewPasses(e: Epoch)
    ensures AuditPasses(Initial(e))
  {
  }

  /** For a new coordinator: the audit passes throughout a run exactly when the run is harmless. */
  lemma AuditVerdictIff(e: Epoch, ops: seq<Op>)
    requires |ops| <= U64_MAX
    ensures PassesAlong(Initial(e), ops) <==> Harmless(Initial(e), ops)
  {
    InitialInv(e);
    NewPasses(e);
    hide Inv, AuditPasses, PassesAlong, Harmless;
    PassesAlongIff(Initial(e), ops);
  }

  /** Pool registration does not look at its members: one call on a new coordinator fails the pool check. */
  lemma UnknownMemberFailsAudit() returns (d: PoolDescriptor, a: Authority)
    ensures RegisterPool(Initial(1), d, a).error == NoError && !MembersCurrent(RegisterPool(Initial(1), d, a).state)
  {
    d, a := PoolDescriptor(1, 1, [], 0, [PoolMember(9, 9)]), OPERATOR;
    var s := Initial(1);
    assert PoolFault(s, d, a) == NoError;
    assert d.members[0] in d.members && !MemberCurrent(s, d.members[0]);
    RegisterPoolMembers(s, d, a);
    hide MembersCurrent;
  }
}
