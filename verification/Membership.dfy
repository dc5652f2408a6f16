/**
 Which regions a request that names a pool may be given. A pool lists its members, but selection asks a reverse index
 kept with the regions. The two agree exactly as long as no call of a stated kind is made, and a region once listed
 without being indexed is not given to the pool's requests however often it is added again.
 */
module Membership {
  import opened Words
  import opened Types
  import opened Ledgers
  import opened Records
  import opened Operations
  import opened Invariants
  import opened Preservation
  import opened Aftermath
  import Admission
  import Endings
  import Persistence
  import Refusals
  import Registries
  import Scenarios
  import Selection
  import Service

  // ---- The reverse index ----

  predicate Indexed(s: State, rid: RegionId, pool: PoolId) {
    rid in s.regions && exists m :: m in s.regions[rid].memberships && m.0 == pool
  }

  /** A request that names the pool is given the region exactly if it is indexed under it and otherwise eligible. */
  lemma GivenIffIndexed(s: State, req: Request, rid: RegionId)
    requires req.preferredPool != NULL
    ensures Selection.IsCandidate(s, req, rid)
       <==> Indexed(s, rid, req.preferredPool) && Selection.Eligibility(s, req, s.regions[rid]) == ELIGIBLE
  {
    hide Selection.Eligibility;
  }

  ghost predicate IndexedNext(s: State, op: Op, rid: RegionId, pool: PoolId) {
    if Apply(s, op).error != NoError then Indexed(s, rid, pool)
    else
      match op
      case OpRegisterRegion(d, _) => Indexed(s, rid, pool) && d.id != rid
      case OpAddPoolMember(p, m, _) =>
        Indexed(s, rid, pool) || (p == pool && m.region == rid && pool in s.pools && !Names(s.pools[pool], rid))
      case OpRemovePoolMember(p, region, _) => Indexed(s, rid, pool) && !(p == pool && region == rid)
      case _ => Indexed(s, rid, pool)
  }

  lemma SameMemberships(s: State, t: State, rid: RegionId, pool: PoolId)
    requires rid in s.regions && rid in t.regions && t.regions[rid].memberships == s.regions[rid].memberships
    ensures Indexed(t, rid, pool) <==> Indexed(s, rid, pool)
  {
  }

  lemma RefusedMemberships(s: State, op: Op, rid: RegionId)
    requires Inv(s) && s.nextReservation <= U64_MAX && Apply(s, op).error != NoError && rid in s.regions
    ensures rid in Apply(s, op).state.regions
    ensures Apply(s, op).state.regions[rid].memberships == s.regions[rid].memberships
  {
    hide Inv, Apply, Refusals.RefusedForHealth, PublishEvidence;
    if op.OpPublishEvidence? && Refusals.RefusedForHealth(s, op.evidence, op.a) {
      Refusals.AppliedEvidence(s, op);
      Refusals.LateRefusal(s, op.evidence, op.a);
    } else {
      Refusals.RefusedCallsChangeNothing(s, op);
    }
  }

  lemma IndexedWhenMember(s: State, op: Op, rid: RegionId, pool: PoolId, rr': RegionRecord)
    requires rid in s.regions && RegionAfter(s, op, rid, rr') && Apply(s, op).error == NoError
    ensures (exists m :: m in rr'.memberships && m.0 == pool) <==> IndexedNext(s, op, rid, pool)
  {
    hide Apply, Names, Service.Shows, Attached, BucketsAfter, LifecycleAfter, StatusAfter, ProviderReturns;
    var ms, ms' := s.regions[rid].memberships, rr'.memberships;
    if op.OpAddPoolMember? && op.member.region == rid && op.into == pool {
      var own := (pool, s.pools[pool].generation);
      assert own in ms + {own};
    }
    assert op.OpRemovePoolMember? && rid == op.region && pool != op.from ==> forall m :: m in ms && m.0 == pool ==> m in ms';
  }

  /** For every operation, accepted or refused: when a known region is indexed under a pool afterwards. */
  lemma IndexedAfter(s: State, op: Op, rid: RegionId, pool: PoolId)
    requires Inv(s) && s.nextReservation <= U64_MAX && rid in s.regions
    ensures Indexed(Apply(s, op).state, rid, pool) <==> IndexedNext(s, op, rid, pool)
  {
    hide Inv, Apply, RegionAfter;
    var t := Apply(s, op).state;
    if Apply(s, op).error == NoError {
      EveryRegion(s, op, rid);
      IndexedWhenMember(s, op, rid, pool, t.regions[rid]);
    } else {
      RefusedMemberships(s, op, rid);
      SameMemberships(s, t, rid, pool);
    }
  }

  // ---- The lists ----

  ghost predicate Listed(s: State, rid: RegionId, pool: PoolId) { pool in s.pools && Names(s.pools[pool], rid) }

  ghost predicate ListedNext(s: State, op: Op, rid: RegionId, pool: PoolId) {
    if Apply(s, op).error != NoError then Listed(s, rid, pool)
    else
      match op
      case OpRegisterPool(d, _) => if d.id == pool then Names(d, rid) else Listed(s, rid, pool)
      case OpAddPoolMember(p, m, _) => Listed(s, rid, pool) || (p == pool && m.region == rid)
      case OpRemovePoolMember(p, region, _) => Listed(s, rid, pool) && !(p == pool && region == rid)
      case _ => Listed(s, rid, pool)
  }

  lemma ListedWhenPools(s: State, op: Op, rid: RegionId, pool: PoolId, t: State)
    requires Apply(s, op).error == NoError && Registries.PoolsAfter(s, op, t.pools)
    ensures Listed(t, rid, pool) <==> ListedNext(s, op, rid, pool)
  {
    hide Apply;
    if op.OpAddPoolMember? && op.into == pool {
      var ms := s.pools[pool].members;
      assert op.member in ms + [op.member];
      assert forall m :: m in ms ==> m in ms + [op.member];
    }
  }

  lemma RefusedPools(s: State, op: Op)
    requires Inv(s) && s.nextReservation <= U64_MAX && Apply(s, op).error != NoError
    ensures Apply(s, op).state.pools == s.pools && Apply(s, op).state.regions.Keys == s.regions.Keys
  {
    hide Inv, Apply, Refusals.RefusedForHealth, PublishEvidence;
    if op.OpPublishEvidence? && Refusals.RefusedForHealth(s, op.evidence, op.a) {
      Refusals.AppliedEvidence(s, op);
      Refusals.LateRefusal(s, op.evidence, op.a);
      KnownRegion(s, op.evidence, op.a);
    } else {
      Refusals.RefusedCallsChangeNothing(s, op);
    }
  }

  lemma KnownRegion(s: State, e: RegionEvidence, a: Authority)
    requires Refusals.RefusedForHealth(s, e, a)
    ensures e.header.region in s.regions
  {
    hide Acceptable, SetOnline;
  }

  /** For every operation, accepted or refused: when a pool lists a region afterwards. */
  lemma ListedAfter(s: State, op: Op, rid: RegionId, pool: PoolId)
    requires Inv(s) && s.nextReservation <= U64_MAX
    ensures Listed(Apply(s, op).state, rid, pool) <==> ListedNext(s, op, rid, pool)
  {
    hide Inv, Apply, Registries.PoolsAfter;
    if Apply(s, op).error == NoError {
      Registries.EveryTable(s, op);
      ListedWhenPools(s, op, rid, pool, Apply(s, op).state);
    } else {
      RefusedPools(s, op);
    }
  }

  // ---- When the two agree ----

  /** Every known region is indexed under exactly the pools that list it. */
  ghost predicate Agreed(s: State) {
    forall rid, pool :: rid in s.regions ==> (Indexed(s, rid, pool) <==> Listed(s, rid, pool))
  }

  /** A region is registered that some pool lists, or a pool is registered listing other regions than are indexed under it. */
  ghost predicate Parts(s: State, op: Op) {
    Apply(s, op).error == NoError &&
    match op
    case OpRegisterRegion(d, _) => exists pool :: Listed(s, d.id, pool)
    case OpRegisterPool(d, _) => exists rid :: rid in s.regions && Indexed(s, rid, d.id) != Names(d, rid)
    case _ => false
  }

  /** One step keeps agreement on a known region and a pool, apart from the two calls. */
  lemma AgreedAt(s: State, op: Op, rid: RegionId, pool: PoolId)
    requires rid in s.regions && (Indexed(s, rid, pool) <==> Listed(s, rid, pool))
    requires Apply(s, op).error == NoError ==>
               && (op.OpRegisterRegion? ==> op.descriptor.id != rid || !Listed(s, rid, pool))
               && (op.OpRegisterPool? ==> op.pool.id != pool || (Indexed(s, rid, pool) <==> Names(op.pool, rid)))
               && (op.OpAddPoolMember? ==> op.into in s.pools)
    ensures IndexedNext(s, op, rid, pool) <==> ListedNext(s, op, rid, pool)
  {
    hide Apply, Indexed, Names;
  }

  lemma PoolKnown(s: State, op: Op)
    requires op.OpAddPoolMember? && Apply(s, op).error == NoError
    ensures op.into in s.pools && op.member.region in s.regions
  {
    hide Apply;
    Endings.AppliedMembers(s, op);
    hide Acceptable, FirstOf;
  }

  lemma NewlyKnown(s: State, op: Op, rid: RegionId)
    requires Inv(s) && s.nextReservation <= U64_MAX && rid in Apply(s, op).state.regions && rid !in s.regions
    ensures op.OpRegisterRegion? && op.descriptor.id == rid && Apply(s, op).error == NoError
    ensures Apply(s, op).state.regions[rid].memberships == {}
  {
    hide Inv, Apply;
    if Apply(s, op).error == NoError { NewRegions(s, op); } else { RefusedPools(s, op); }
  }

  lemma StaysAgreed(s: State, op: Op)
    requires Inv(s) && s.nextReservation <= U64_MAX && Agreed(s) && !Parts(s, op)
    ensures Agreed(Apply(s, op).state)
  {
    hide Inv, Apply, Indexed, Listed, IndexedNext, ListedNext, Names;
    var t := Apply(s, op).state;
    forall rid, pool | rid in t.regions ensures Indexed(t, rid, pool) <==> Listed(t, rid, pool) {
      ListedAfter(s, op, rid, pool);
      if rid in s.regions {
        IndexedAfter(s, op, rid, pool);
        if op.OpAddPoolMember? && Apply(s, op).error == NoError { PoolKnown(s, op); }
        AgreedAt(s, op, rid, pool);
      } else {
        NewlyKnown(s, op, rid);
        NotIndexed(t, rid, pool);
        ListedAsBefore(s, op, rid, pool);
      }
    }
  }

  lemma NotIndexed(s: State, rid: RegionId, pool: PoolId)
    requires rid in s.regions && s.regions[rid].memberships == {}
    ensures !Indexed(s, rid, pool)
  {
  }

  lemma ListedAsBefore(s: State, op: Op, rid: RegionId, pool: PoolId)
    requires op.OpRegisterRegion?
    ensures ListedNext(s, op, rid, pool) <==> Listed(s, rid, pool)
  {
    hide Apply, Listed;
  }

  lemma PartsThem(s: State, op: Op)
    requires Inv(s) && s.nextReservation <= U64_MAX && Parts(s, op)
    ensures !Agreed(Apply(s, op).state)
  {
    hide Inv, Apply, Indexed, Listed, Names;
    var t := Apply(s, op).state;
    NewRegionsKnown(s, op);
    if op.OpRegisterRegion? {
      var rid := op.descriptor.id;
      var pool :| Listed(s, rid, pool);
      ListedAfter(s, op, rid, pool);
      NotIndexed(t, rid, pool);
    } else {
      var d := op.pool;
      var rid :| rid in s.regions && Indexed(s, rid, d.id) != Names(d, rid);
      ListedAfter(s, op, rid, d.id);
      IndexedAfter(s, op, rid, d.id);
    }
  }

  lemma NewRegionsKnown(s: State, op: Op)
    requires Inv(s) && s.nextReservation <= U64_MAX && Apply(s, op).error == NoError
    ensures var t := Apply(s, op).state;
            && s.regions.Keys <= t.regions.Keys
            && (op.OpRegisterRegion? ==> op.descriptor.id in t.regions && t.regions[op.descriptor.id].memberships == {})
  {
    hide Inv, Apply;
    NewRegions(s, op);
  }

  /** While index and lists agree, a call keeps them so if and only if it is not one of the two. */
  lemma AgreedAfterIff(s: State, op: Op)
    requires Inv(s) && s.nextReservation <= U64_MAX && Agreed(s)
    ensures Agreed(Apply(s, op).state) <==> !Parts(s, op)
  {
    hide Inv, Apply, Agreed, Parts;
    if Parts(s, op) { PartsThem(s, op); } else { StaysAgreed(s, op); }
  }

  ghost predicate AgreedAlong(s: State, ops: seq<Op>)
    decreases |ops|
  {
    Agreed(s) && (ops == [] || AgreedAlong(Apply(s, ops[0]).state, ops[1..]))
  }

  ghost predicate NeverParts(s: State, ops: seq<Op>)
    decreases |ops|
  {
    ops == [] || (!Parts(s, ops[0]) && NeverParts(Apply(s, ops[0]).state, ops[1..]))
  }

  /** Along a whole run a pool's requests are given exactly listed regions if and only if no call of the run is one of the two. */
  lemma {:induction false} AgreedAlongIff(s: State, ops: seq<Op>)
    requires Inv(s) && s.nextReservation + |ops| <= U64_MAX + 1 && Agreed(s)
    ensures AgreedAlong(s, ops) <==> NeverParts(s, ops)
    decreases |ops|
  {
    hide Inv, Apply, Agreed, Parts;
    if ops != [] {
      StepKeeps(s, ops[0]);
      AgreedAfterIff(s, ops[0]);
      if !Parts(s, ops[0]) { AgreedAlongIff(Apply(s, ops[0]).state, ops[1..]); }
    }
  }

  lemma NewCoordinatorAgrees(e: Epoch)
    ensures Agreed(Initial(e))
  {
  }

  // ---- Listed and never given ----

  /** The call takes the region off the pool's list, or replaces the list. */
  ghost predicate Unlists(s: State, op: Op, rid: RegionId, pool: PoolId) {
    Apply(s, op).error == NoError &&
    ((op.OpRemovePoolMember? && op.from == pool && op.region == rid) || (op.OpRegisterPool? && op.pool.id == pool))
  }

  ghost predicate NeverUnlists(s: State, ops: seq<Op>, rid: RegionId, pool: PoolId)
    decreases |ops|
  {
    ops == [] || (!Unlists(s, ops[0], rid, pool) && NeverUnlists(Apply(s, ops[0]).state, ops[1..], rid, pool))
  }

  lemma StepStaysOut(s: State, op: Op, rid: RegionId, pool: PoolId)
    requires Inv(s) && s.nextReservation <= U64_MAX && rid in s.regions
    requires Listed(s, rid, pool) && !Indexed(s, rid, pool) && !Unlists(s, op, rid, pool)
    ensures var t := Apply(s, op).state; rid in t.regions && Listed(t, rid, pool) && !Indexed(t, rid, pool)
  {
    hide Inv, Apply, Indexed, Names;
    ListedAfter(s, op, rid, pool);
    IndexedAfter(s, op, rid, pool);
    if Apply(s, op).error == NoError { NewRegionsKnown(s, op); } else { RefusedPools(s, op); }
  }

  /**
   A region that is listed without being indexed is in no ranking for the pool, through any run that neither takes it
   off the list nor replaces the list: adding it again at any generation, accepted or not, does not help.
   */
  lemma {:induction false} StaysOut(s: State, ops: seq<Op>, rid: RegionId, pool: PoolId, req: Request)
    requires Inv(s) && s.nextReservation + |ops| <= U64_MAX + 1 && rid in s.regions
    requires Listed(s, rid, pool) && !Indexed(s, rid, pool) && NeverUnlists(s, ops, rid, pool)
    requires pool != NULL && req.preferredPool == pool
    ensures var t := Run(s, ops);
            rid in t.regions && Listed(t, rid, pool) && !Indexed(t, rid, pool) && rid !in Selection.RankedIds(t, req)
    decreases |ops|
  {
    hide Inv, Apply, Indexed, Listed, Unlists, Selection.RankedIds, Selection.IsCandidate;
    if ops == [] {
      GivenIffIndexed(s, req, rid);
      Selection.RankedAreCandidates(s, req);
    } else {
      StepStaysOut(s, ops[0], rid, pool);
      StepKeeps(s, ops[0]);
      StaysOut(Apply(s, ops[0]).state, ops[1..], rid, pool, req);
    }
  }

  /** Any region a pool lists comes back unindexed, and then an accepted addition at the new generation leaves it so. */
  lemma ReturnedStaysOut(s: State, d: RegionDescriptor, a: Authority, pool: PoolId)
    requires Inv(s) && s.nextReservation <= U64_MAX && Listed(s, d.id, pool)
    requires Apply(s, OpRegisterRegion(d, a)).error == NoError
    ensures var t := Apply(s, OpRegisterRegion(d, a)).state;
            && d.id in t.regions && Listed(t, d.id, pool) && !Indexed(t, d.id, pool)
            && (PoolMember(d.id, d.generation) !in s.pools[pool].members ==>
                  && Apply(t, OpAddPoolMember(pool, PoolMember(d.id, d.generation), a)).error == NoError
                  && !Indexed(Apply(t, OpAddPoolMember(pool, PoolMember(d.id, d.generation), a)).state, d.id, pool))
  {
    hide Inv, Apply, Indexed, Names, RegisterRegion, AddPoolMember;
    var op := OpRegisterRegion(d, a);
    var t := Apply(s, op).state;
    NewRegionsKnown(s, op);
    NotIndexed(t, d.id, pool);
    ListedAfter(s, op, d.id, pool);
    StepKeeps(s, op);
    var m := PoolMember(d.id, d.generation);
    if m !in s.pools[pool].members {
      var add := OpAddPoolMember(pool, m, a);
      ReturnedMayJoin(s, op, add);
      Admission.RegistrationAdmittedIff(t, add);
      IndexedAfter(t, add, d.id, pool);
    }
  }

  lemma ReturnedMayJoin(s: State, op: Op, add: Op)
    requires Inv(s) && s.nextReservation <= U64_MAX && op.OpRegisterRegion? && Apply(s, op).error == NoError
    requires add.OpAddPoolMember? && add.member == PoolMember(op.descriptor.id, op.descriptor.generation) && add.a == op.a
    requires add.into in s.pools && add.member !in s.pools[add.into].members
    ensures Admission.RegistrationAdmitted(Apply(s, op).state, add)
    ensures Apply(s, op).state.nextReservation <= U64_MAX
  {
    hide Inv, Apply, Admission.Coherent;
    Admission.RegistrationAdmittedIff(s, op);
    NewRegions(s, op);
    Registries.EveryTable(s, op);
    RegistrationCounts(s, op);
  }

  lemma RegistrationCounts(s: State, op: Op)
    requires op.OpRegisterRegion?
    ensures Apply(s, op).state.nextReservation == s.nextReservation
  {
    hide Apply, RegisterRegion;
    Endings.Applied(s, op);
  }

  /** Taking it off the list and adding it again is what makes it the pool's. */
  lemma RemovedAndAddedIsGiven(s: State, pool: PoolId, rid: RegionId, a: Authority)
    requires Inv(s) && s.nextReservation <= U64_MAX && Acceptable(s, a)
    requires rid in s.regions && s.regions[rid].descriptor.generation != NULL && Listed(s, rid, pool)
    ensures var t := Apply(s, OpRemovePoolMember(pool, rid, a)).state;
            && rid in t.regions
            && var step := Apply(t, OpAddPoolMember(pool, PoolMember(rid, s.regions[rid].descriptor.generation), a));
               step.error == NoError && Indexed(step.state, rid, pool) && Listed(step.state, rid, pool)
  {
    hide Inv, Apply, Indexed, Names, Acceptable, Admission.Speaks;
    var remove := OpRemovePoolMember(pool, rid, a);
    var t := Apply(s, remove).state;
    Admission.SpeaksIff(s, a);
    Admission.RegistrationAdmittedIff(s, remove);
    RemovedFrame(s, remove);
    StepKeeps(s, remove);
    ListedAfter(s, remove, rid, pool);
    var add := OpAddPoolMember(pool, PoolMember(rid, s.regions[rid].descriptor.generation), a);
    UnlistedMayJoin(t, add);
    Admission.RegistrationAdmittedIff(t, add);
    IndexedAfter(t, add, rid, pool);
    ListedAfter(t, add, rid, pool);
  }

  lemma RemovedFrame(s: State, remove: Op)
    requires Inv(s) && s.nextReservation <= U64_MAX && remove.OpRemovePoolMember? && Apply(s, remove).error == NoError
    requires remove.region in s.regions
    ensures var t := Apply(s, remove).state;
            && t.pools.Keys == s.pools.Keys && remove.region in t.regions && t.nextReservation == s.nextReservation
            && t.regions[remove.region].descriptor == s.regions[remove.region].descriptor
            && (Admission.Speaks(s, remove.a) ==> Admission.Speaks(t, remove.a))
  {
    hide Inv, Apply, RemovePoolMember;
    Registries.EveryTable(s, remove);
    EveryRegion(s, remove, remove.region);
    Endings.AppliedMembers(s, remove);
  }

  lemma UnlistedMayJoin(s: State, add: Op)
    requires add.OpAddPoolMember? && add.into in s.pools && !Listed(s, add.member.region, add.into) && Admission.Speaks(s, add.a)
    requires add.member.region in s.regions && add.member.generation == s.regions[add.member.region].descriptor.generation != NULL
    ensures Admission.RegistrationAdmitted(s, add)
  {
    hide Admission.Speaks;
  }

  // ---- A pool registered with its members ----

  function PoolFirst(): seq<Op> { Scenarios.Service() + [OpRegisterPool(Scenarios.POOL, Scenarios.OPERATOR)] }

  function Pooled(): State { Scenarios.Serving().(pools := map[1 := Scenarios.POOL]) }

  lemma PoolRegistered()
    ensures RegisterPool(Scenarios.Serving(), Scenarios.POOL, Scenarios.OPERATOR).state == Pooled()
  {
    assert map[][1 := Scenarios.POOL] == map[1 := Scenarios.POOL];
  }

  lemma PoolFirstRun()
    ensures Run(Initial(1), PoolFirst()) == Pooled()
  {
    hide Run, Apply, Scenarios.Serving, Scenarios.Service, Pooled, RegisterPool;
    Scenarios.ServingRun();
    Scenarios.RunThen(Initial(1), Scenarios.Service(), OpRegisterPool(Scenarios.POOL, Scenarios.OPERATOR));
    Endings.Applied(Scenarios.Serving(), OpRegisterPool(Scenarios.POOL, Scenarios.OPERATOR));
    PoolRegistered();
  }

  function PoolRequest(): Request {
    Requirements(1, 1, 1, 0, false, false, false, false, false, 0, 0, LOCALITY_UNKNOWN, [], [], false, 0, false,
                 false, false, false, false, 0, 1, 0.0)
  }

  lemma PooledFacts()
    ensures var s := Pooled();
            && 1 in s.regions && Listed(s, 1, 1) && !Indexed(s, 1, 1)
            && AddPoolMember(s, 1, PoolMember(1, 1), Scenarios.OPERATOR).error == AlreadyExists
  {
    assert Scenarios.POOL.members[0] in Scenarios.POOL.members;
  }

  lemma PooledEligible()
    ensures 1 in Pooled().regions && Selection.Eligibility(Pooled(), PoolRequest(), Pooled().regions[1]) == ELIGIBLE
  {
  }

  /** A run of four calls after which the pool's one listed member, eligible as it is, is given to no request and cannot be added. */
  lemma ListedAndNeverGiven() returns (ops: seq<Op>, req: Request, pool: PoolId, rid: RegionId)
    ensures |ops| == 4 && req.preferredPool == pool
    ensures var s := Run(Initial(1), ops);
            && Listed(s, rid, pool) && rid in s.regions && Selection.Eligibility(s, req, s.regions[rid]) == ELIGIBLE
            && Selection.RankedIds(s, req) == []
            && Apply(s, OpAddPoolMember(pool, PoolMember(rid, s.regions[rid].descriptor.generation), Scenarios.OPERATOR)).error
               == AlreadyExists
  {
    hide Run, Apply, Pooled, AddPoolMember, Selection.Eligibility, Selection.RankedIds, Selection.IsCandidate, Listed, Indexed;
    ops, req, pool, rid := PoolFirst(), PoolRequest(), 1, 1;
    PoolFirstRun();
    PooledFacts();
    PooledEligible();
    OnlyRegion();
    GivenIffIndexed(Pooled(), req, 1);
    NothingGiven(Pooled(), req);
    Endings.AppliedMembers(Pooled(), OpAddPoolMember(1, PoolMember(1, 1), Scenarios.OPERATOR));
  }

  lemma OnlyRegion()
    ensures Pooled().regions.Keys == {1} && Pooled().regions[1].descriptor.generation == 1
  {
  }

  lemma NothingGiven(s: State, req: Request)
    requires forall rid :: rid in s.regions ==> !Selection.IsCandidate(s, req, rid)
    ensures Selection.RankedIds(s, req) == []
  {
    hide Selection.RankedIds, Selection.IsCandidate;
    if Selection.RankedIds(s, req) != [] {
      TopIsCandidate(s, req);
      CandidateExists(s, req, Selection.RankedIds(s, req)[0]);
    }
  }

  // ---- After a restart ----

  /** Loading rebuilds the index from the lists: the same pools that were never given a region before are given it afterwards. */
  lemma LoadedAgrees(b: Bytes)
    requires Persistence.Load(b).Ok?
    ensures Agreed(Persistence.Load(b).value)
  {
    hide Persistence.Load;
    var s := Persistence.Load(b).value;
    forall rid, pool | rid in s.regions ensures Indexed(s, rid, pool) <==> Listed(s, rid, pool) {
      if m :| m in s.regions[rid].memberships && m.0 == pool { Persistence.IndexAgrees(b, rid, pool, m.1); }
      if pool in s.pools { Persistence.IndexAgrees(b, rid, pool, s.pools[pool].generation); }
    }
  }
}
