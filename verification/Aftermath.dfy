/**
 The operations told from the other side: what becomes of every region under every accepted call. Lifecycle, evidence
 and the buckets of the ledger are spelled out; all else stays as it was. Together with the invariant, which fixes the
 promised buckets, this determines every ledger.
 */
module Aftermath {
  import opened Words
  import opened Types
  import opened Ledgers
  import opened Records
  import opened Operations
  import opened Invariants
  import opened Preservation
  import Bindings
  import Conservation
  import Effects
  import Endings
  import Fencing
  import Guarantees
  import Selection
  import Service

  // ---- A region, by what the call does to it ----

  /** The call's own region. */
  predicate Aims(op: Op, rid: RegionId) {
    match op
    case OpBeginDrain(region, _) => region == rid
    case OpCompleteDrain(region, _) => region == rid
    case OpCancelDrain(region, _) => region == rid
    case OpMarkUnavailable(region, _) => region == rid
    case OpRecoverRegion(region, _) => region == rid
    case OpRetireRegion(region, _) => region == rid
    case OpPublishEvidence(e, _) => e.header.region == rid
    case OpPublishAttachment(e, _) => e.region == rid
    case OpRegisterRegion(d, _) => d.id == rid
    case OpAddPoolMember(_, m, _) => m.region == rid
    case OpRemovePoolMember(_, region, _) => region == rid
    case _ => false
  }

  /** Authority over the region's evidence lapses: the epoch advances, or the incarnation that vouched for it dies. */
  predicate Lapses(s: State, op: Op, rid: RegionId) {
    || (op.OpSetEpoch? && op.e > s.epoch)
    || (op.OpMarkWorkerDead? && op.w in s.workers && Endings.VouchedBy(s, op.w, rid))
  }

  /** The provider behind the region returns at a new generation. */
  predicate ProviderReturns(s: State, op: Op, rr: RegionRecord) {
    op.OpRegisterProvider? && op.provider.id in s.providers && rr.descriptor.provider == op.provider.id
  }

  function LifecycleAfter(s: State, op: Op, rid: RegionId): RegionLifecycle
    requires rid in s.regions
  {
    var was := s.regions[rid].lifecycle;
    if Lapses(s, op, rid) then
      if was.Retired? || was.Draining? || was.Unavailable? then was else RegionLifecycle.RevalidationRequired
    else if ProviderReturns(s, op, s.regions[rid]) then
      if was.Retired? then was else RegionLifecycle.RevalidationRequired
    else if op.OpRetireProvider? && s.regions[rid].descriptor.provider == op.p then RegionLifecycle.Retired
    else if !Aims(op, rid) then was
    else
      match op
      case OpRegisterRegion(_, _) => RegionLifecycle.Declared
      case OpBeginDrain(_, _) => RegionLifecycle.Draining
      case OpCompleteDrain(_, _) => RegionLifecycle.Unavailable
      case OpCancelDrain(_, _) => RegionLifecycle.Online
      case OpMarkUnavailable(_, _) => RegionLifecycle.Unavailable
      case OpRecoverRegion(_, _) => RegionLifecycle.Declared
      case OpRetireRegion(_, _) => RegionLifecycle.Retired
      case OpPublishEvidence(e, _) =>
        if e.health == HEALTH_FAILED then RegionLifecycle.RevalidationRequired
        else if e.health == HEALTH_DEGRADED then RegionLifecycle.Degraded else RegionLifecycle.Online
      case _ => was
  }

  function StatusAfter(s: State, op: Op, rid: RegionId): EvidenceStatus
    requires rid in s.regions
  {
    var rr := s.regions[rid];
    if Lapses(s, op, rid) then if rr.hasEvidence then EvidenceStatus.RevalidationRequired else rr.evidenceStatus
    else if ProviderReturns(s, op, rr) then EvidenceStatus.Unknown
    else if op.OpPublishEvidence? && Aims(op, rid) then EvidenceStatus.Current
    else if op.OpRecoverRegion? && Aims(op, rid) then EvidenceStatus.RevalidationRequired
    else rr.evidenceStatus
  }

  /** The buckets that are not promised to anyone, and the online capacity. */
  predicate BucketsAfter(op: Op, rid: RegionId, l: Ledger, l': Ledger) {
    && l'.total == l.total
    && (l'.online == if op.OpPublishEvidence? && Aims(op, rid) then op.evidence.onlineCapacityBytes else l.online)
    && if Aims(op, rid) && op.OpBeginDrain? then l'.free == 0 && l'.unavailable == l.unavailable
       else if Aims(op, rid) && op.OpCompleteDrain? then l'.draining == 0 && l'.free == l.free
       else if Aims(op, rid) && op.OpCancelDrain? then l'.draining == 0 && l'.unavailable == l.unavailable
       else if Aims(op, rid) && op.OpMarkUnavailable? then l'.free == 0 && l'.draining == l.draining
       else if Aims(op, rid) && op.OpRecoverRegion? then l'.unavailable == 0 && l'.draining == l.draining
       else if op.OpReserve? || op.OpRelease? || op.OpPublishEvidence? then l'.draining == l.draining && l'.unavailable == l.unavailable
       else l'.free == l.free && l'.draining == l.draining
  }

  /** An attachment replaces the first with its id, or joins at the end. */
  predicate Attached(atts: seq<AttachmentEvidence>, e: AttachmentEvidence, atts': seq<AttachmentEvidence>) {
    if forall a :: a in atts ==> a.id != e.id then atts' == atts + [e]
    else exists i :: 0 <= i < |atts| && atts[i].id == e.id && (forall j :: 0 <= j < i ==> atts[j].id != e.id) && atts' == atts[i := e]
  }

  ghost predicate MembershipsAfter(s: State, op: Op, rid: RegionId, was: set<(PoolId, Generation)>, now: set<(PoolId, Generation)>) {
    match op
    case OpAddPoolMember(pool, m, _) =>
      pool in s.pools && now == if m.region == rid && !Names(s.pools[pool], rid) then was + {(pool, s.pools[pool].generation)} else was
    case OpRemovePoolMember(pool, region, _) =>
      now <= was && forall m :: m in was ==> (m in now <==> region != rid || m.0 != pool)
    case _ => now == was
  }

  ghost predicate RegionAfter(s: State, op: Op, rid: RegionId, rr': RegionRecord)
    requires rid in s.regions
  {
    var rr := s.regions[rid];
    if op.OpRegisterRegion? && op.descriptor.id == rid then JustDeclared(op.descriptor, rr')
    else
      && rr'.descriptor == rr.descriptor
      && rr'.lifecycle == LifecycleAfter(s, op, rid) && rr'.evidenceStatus == StatusAfter(s, op, rid)
      && BucketsAfter(op, rid, rr.ledger, rr'.ledger)
      && (if op.OpPublishEvidence? && Aims(op, rid) then Service.Shows(rr, rr', op.evidence)
          else && rr'.hasEvidence == (rr.hasEvidence && !ProviderReturns(s, op, rr))
               && rr'.latest == rr.latest && rr'.health == rr.health && rr'.reachable == rr.reachable
               && rr'.latencyNs == rr.latencyNs && rr'.bandwidthBytesPerSec == rr.bandwidthBytesPerSec)
      && (if op.OpPublishAttachment? && Aims(op, rid) then Attached(rr.attachments, op.attachment, rr'.attachments)
          else rr'.attachments == rr.attachments)
      && MembershipsAfter(s, op, rid, rr.memberships, rr'.memberships)
  }

  /** A region as it is first known: nothing online, nothing observed, in no pool. */
  predicate JustDeclared(d: RegionDescriptor, rr: RegionRecord) {
    && rr.descriptor == d && rr.lifecycle.Declared?
    && rr.ledger.total == d.totalCapacityBytes && rr.ledger.online == rr.ledger.free == 0
    && rr.ledger.reserved == rr.ledger.committed == rr.ledger.draining == rr.ledger.unavailable == 0
    && !rr.hasEvidence && rr.evidenceStatus.Unknown? && rr.health == HEALTH_UNKNOWN && !rr.reachable
    && rr.latencyNs == rr.bandwidthBytesPerSec == 0 && rr.attachments == [] && rr.memberships == {}
  }

  // ---- Calls that withdraw reservations ----

  /** What a fencing withdrawal leaves of a region: everything but the promised and the unavailable bytes. */
  lemma WithdrawnBuckets(s: State, ids: set<ReservationId>, cause: Cause, rid: RegionId)
    requires rid in s.regions
    ensures var t := Withdraw(s, ids, cause);
            && t.regions.Keys == s.regions.Keys
            && t.regions[rid] == s.regions[rid].(ledger := t.regions[rid].ledger)
            && var l, l' := s.regions[rid].ledger, t.regions[rid].ledger;
               && l'.total == l.total && l'.online == l.online && l'.draining == l.draining
               && (if cause.DrainStart? then l'.unavailable == l.unavailable else l'.free == l.free)
  {
    Fencing.WithdrawnRegion(s, ids, cause, rid);
    hide Withdraw, WithdrawAll, Held;
  }

  lemma SetEpochRegion(s: State, op: Op, rid: RegionId)
    requires op.OpSetEpoch? && rid in s.regions
    ensures rid in SetEpoch(s, op.e).regions && RegionAfter(s, op, rid, SetEpoch(s, op.e).regions[rid])
  {
    hide SetEpoch, Withdraw;
    if op.e > s.epoch {
      Fencing.EpochRegion(s, op.e, rid);
      WithdrawnBuckets(s, s.reservations.Keys, EpochAdvance, rid);
    } else {
      Fencing.EpochNeverRewinds(s, op.e);
    }
  }

  lemma RegisterProviderRegion(s: State, op: Op, rid: RegionId)
    requires op.OpRegisterProvider? && rid in s.regions && RegisterProvider(s, op.provider, op.a).error == NoError
    ensures var t := RegisterProvider(s, op.provider, op.a).state;
            t.regions.Keys == s.regions.Keys && RegionAfter(s, op, rid, t.regions[rid])
  {
    hide ProviderFault, Withdraw;
    WithdrawnBuckets(s, OfProvider(s, op.provider.id), Fencing, rid);
  }

  lemma RegisterRegionRegion(s: State, op: Op, rid: RegionId)
    requires op.OpRegisterRegion? && rid in s.regions && RegisterRegion(s, op.descriptor, op.a).error == NoError
    ensures var t := RegisterRegion(s, op.descriptor, op.a).state;
            t.regions.Keys == s.regions.Keys + {op.descriptor.id} && RegionAfter(s, op, rid, t.regions[rid])
  {
    hide RegionFault, Withdraw;
    WithdrawnBuckets(s, OfRegion(s, op.descriptor.id), Fencing, rid);
  }

  lemma RegisterRegionDeclares(s: State, d: RegionDescriptor, a: Authority)
    requires RegisterRegion(s, d, a).error == NoError
    ensures var t := RegisterRegion(s, d, a).state;
            t.regions.Keys == s.regions.Keys + {d.id} && JustDeclared(d, t.regions[d.id])
  {
    hide RegionFault, Withdraw;
    Conservation.KeysAfterWithdraw(s, OfRegion(s, d.id), Fencing);
  }

  lemma RegisterPoolRegion(s: State, op: Op, rid: RegionId)
    requires op.OpRegisterPool? && rid in s.regions && RegisterPool(s, op.pool, op.a).error == NoError
    ensures var t := RegisterPool(s, op.pool, op.a).state;
            t.regions.Keys == s.regions.Keys && RegionAfter(s, op, rid, t.regions[rid])
  {
    hide PoolFault, Withdraw;
    WithdrawnBuckets(s, OfPool(s, op.pool.id), Fencing, rid);
  }

  lemma RegisterPolicyRegion(s: State, op: Op, rid: RegionId)
    requires op.OpRegisterPolicy? && rid in s.regions && RegisterPolicy(s, op.policy, op.a).error == NoError
    ensures var t := RegisterPolicy(s, op.policy, op.a).state;
            t.regions.Keys == s.regions.Keys && RegionAfter(s, op, rid, t.regions[rid])
  {
    hide PolicyFault, Withdraw;
    WithdrawnBuckets(s, OfPolicy(s, op.policy.id), Fencing, rid);
  }

  lemma RetireProviderRegion(s: State, op: Op, rid: RegionId)
    requires op.OpRetireProvider? && rid in s.regions && RetireProvider(s, op.p, op.a).error == NoError
    ensures var t := RetireProvider(s, op.p, op.a).state;
            t.regions.Keys == s.regions.Keys && RegionAfter(s, op, rid, t.regions[rid])
  {
    hide Acceptable, ProviderAllowed, Withdraw;
    WithdrawnBuckets(s, OfProvider(s, op.p), Fencing, rid);
  }

  lemma RetireRegionRegion(s: State, op: Op, rid: RegionId)
    requires op.OpRetireRegion? && rid in s.regions && RetireRegion(s, op.region, op.a).error == NoError
    ensures var t := RetireRegion(s, op.region, op.a).state;
            t.regions.Keys == s.regions.Keys && RegionAfter(s, op, rid, t.regions[rid])
  {
    hide Acceptable, RegionAllowed, Withdraw;
    WithdrawnBuckets(s, OfRegion(s, op.region), Fencing, rid);
  }

  lemma MarkWorkerDeadRegion(s: State, op: Op, rid: RegionId)
    requires op.OpMarkWorkerDead? && rid in s.regions && MarkWorkerDead(s, op.w, op.a).error == NoError
    ensures var t := MarkWorkerDead(s, op.w, op.a).state;
            t.regions.Keys == s.regions.Keys && RegionAfter(s, op, rid, t.regions[rid])
  {
    hide Acceptable, Withdraw, OfWorker;
    WithdrawnBuckets(s, OfWorker(s, op.w, Vouched(s, op.w, s.workers[op.w].boot)), Fencing, rid);
  }

  // ---- Drains and outages ----

  lemma MarkUnavailableRegion(s: State, op: Op, rid: RegionId)
    requires Inv(s) && op.OpMarkUnavailable? && rid in s.regions && MarkUnavailable(s, op.region, op.a).error == NoError
    ensures var t := MarkUnavailable(s, op.region, op.a).state;
            t.regions.Keys == s.regions.Keys && RegionAfter(s, op, rid, t.regions[rid])
  {
    hide Inv, Acceptable, RegionAllowed, Withdraw, Transfer;
    var rr := s.regions[op.region];
    ClosedLedger(s, op.region);
    Emptied(rr.ledger, Free, Bucket.Unavailable);
    var u := WithRegion(s, op.region, rr.(ledger := Transfer(rr.ledger, Free, Bucket.Unavailable, rr.ledger.free).ledger));
    WithdrawnBuckets(u, OfRegion(s, op.region), Fencing, rid);
  }

  /** Emptying one bucket into another. */
  lemma Emptied(l: Ledger, from: Bucket, to: Bucket)
    requires l.Closed() && from != to
    ensures var m := Transfer(l, from, to, l.Get(from));
            m.ok && m.ledger == l.Add(from, -l.Get(from)).Add(to, l.Get(from))
  {
    TransferFromClosed(l, from, to, l.Get(from));
  }

  lemma FollowRegions(s: State, p: ProviderId, from: Lifecycle, to: Lifecycle)
    ensures Follow(s, p, from, to).regions == s.regions
  {
  }

  lemma DrainedState(s: State, region: RegionId, a: Authority)
    requires Inv(s) && BeginDrain(s, region, a).error == NoError
    ensures var u := Withdraw(s, OfRegion(s, region), DrainStart);
            && region in s.regions && region in u.regions
            && var rr := u.regions[region];
               BeginDrain(s, region, a).state.regions
               == u.regions[region := rr.(ledger := rr.ledger.(free := 0, draining := rr.ledger.draining + rr.ledger.free),
                                          lifecycle := RegionLifecycle.Draining)]
  {
    hide Inv, Acceptable, RegionAllowed, Withdraw, Transfer, Follow;
    var u := Withdraw(s, OfRegion(s, region), DrainStart);
    Conservation.KeysAfterWithdraw(s, OfRegion(s, region), DrainStart);
    WithdrawKeeps(s, OfRegion(s, region), DrainStart);
    ClosedLedger(u, region);
    var rr := u.regions[region];
    Fencing.DrainLedger(rr.ledger);
    var done := rr.(ledger := Transfer(rr.ledger, Free, Bucket.Draining, rr.ledger.free).ledger, lifecycle := RegionLifecycle.Draining);
    FollowRegions(WithRegion(u, region, done), rr.descriptor.provider, Lifecycle.Online, Lifecycle.Draining);
  }

  lemma HeldElsewhere(rs: map<ReservationId, Reservation>, ids: set<ReservationId>, cause: Cause, rid: RegionId, bucket: Bucket)
    requires forall id :: id in ids && id in rs ==> rs[id].region != rid
    ensures Held(WithdrawAll(rs, ids, cause), rid, bucket) == Held(rs, rid, bucket)
  {
    assert Weights(WithdrawAll(rs, ids, cause), rid, bucket) == Weights(rs, rid, bucket);
  }

  /** Withdrawing reservations of other regions does not touch this one. */
  lemma WithdrawnElsewhere(s: State, ids: set<ReservationId>, cause: Cause, rid: RegionId)
    requires Inv(s) && rid in s.regions && forall id :: id in ids && id in s.reservations ==> s.reservations[id].region != rid
    ensures var t := Withdraw(s, ids, cause); rid in t.regions && t.regions[rid] == s.regions[rid]
  {
    hide Inv, Withdraw, WithdrawAll, Held, Rebalance, EvidenceFits;
    Fencing.WithdrawnRegion(s, ids, cause, rid);
    Fencing.RegionFacts(s, rid);
    HeldElsewhere(s.reservations, ids, cause, rid, Bucket.Reserved);
    HeldElsewhere(s.reservations, ids, cause, rid, Bucket.Committed);
    Balanced(s.regions[rid].ledger, cause);
  }

  lemma Balanced(l: Ledger, cause: Cause)
    ensures Rebalance(l, l.reserved, l.committed, cause) == l
  {
  }

  lemma BeginDrainRegion(s: State, op: Op, rid: RegionId)
    requires Inv(s) && op.OpBeginDrain? && rid in s.regions && BeginDrain(s, op.region, op.a).error == NoError
    ensures var t := BeginDrain(s, op.region, op.a).state;
            t.regions.Keys == s.regions.Keys && RegionAfter(s, op, rid, t.regions[rid])
  {
    hide Inv, BeginDrain, Withdraw;
    DrainedState(s, op.region, op.a);
    WithdrawnBuckets(s, OfRegion(s, op.region), DrainStart, rid);
    if rid != op.region { WithdrawnElsewhere(s, OfRegion(s, op.region), DrainStart, rid); }
  }

  lemma CompleteDrainRegion(s: State, op: Op, rid: RegionId)
    requires Inv(s) && op.OpCompleteDrain? && rid in s.regions && CompleteDrain(s, op.region, op.a).error == NoError
    ensures var t := CompleteDrain(s, op.region, op.a).state;
            t.regions.Keys == s.regions.Keys && RegionAfter(s, op, rid, t.regions[rid])
  {
    hide Inv, Acceptable, Transfer, Follow;
    ClosedLedger(s, op.region);
    var rr := s.regions[op.region];
    Emptied(rr.ledger, Bucket.Draining, Bucket.Unavailable);
    var l := Transfer(rr.ledger, Bucket.Draining, Bucket.Unavailable, rr.ledger.draining).ledger;
    FollowRegions(WithRegion(s, op.region, rr.(ledger := l, lifecycle := RegionLifecycle.Unavailable)),
                  rr.descriptor.provider, Lifecycle.Draining, Lifecycle.Offline);
  }

  lemma CancelDrainRegion(s: State, op: Op, rid: RegionId)
    requires Inv(s) && op.OpCancelDrain? && rid in s.regions && CancelDrain(s, op.region, op.a).error == NoError
    ensures var t := CancelDrain(s, op.region, op.a).state;
            t.regions.Keys == s.regions.Keys && RegionAfter(s, op, rid, t.regions[rid])
  {
    hide Inv, Acceptable, Transfer;
    ClosedLedger(s, op.region);
    Emptied(s.regions[op.region].ledger, Bucket.Draining, Free);
  }

  lemma RecoverRegionRegion(s: State, op: Op, rid: RegionId)
    requires Inv(s) && op.OpRecoverRegion? && rid in s.regions && RecoverRegion(s, op.region, op.a).error == NoError
    ensures var t := RecoverRegion(s, op.region, op.a).state;
            t.regions.Keys == s.regions.Keys && RegionAfter(s, op, rid, t.regions[rid])
  {
    hide Inv, Acceptable, Transfer;
    ClosedLedger(s, op.region);
    Emptied(s.regions[op.region].ledger, Bucket.Unavailable, Free);
  }

  // ---- Evidence, attachments, members ----

  lemma PublishEvidenceRegion(s: State, op: Op, rid: RegionId)
    requires Inv(s) && op.OpPublishEvidence? && rid in s.regions && PublishEvidence(s, op.evidence, op.a).error == NoError
    ensures var t := PublishEvidence(s, op.evidence, op.a).state;
            rid in t.regions && RegionAfter(s, op, rid, t.regions[rid])
  {
    hide Inv, PublishEvidence;
    Service.EvidenceRecorded(s, op.evidence, op.a);
  }

  /** An element in front that is not the one replaced. */
  lemma AttachedBehind(first: AttachmentEvidence, rest: seq<AttachmentEvidence>, e: AttachmentEvidence, put: seq<AttachmentEvidence>)
    requires first.id != e.id && Attached(rest, e, put)
    ensures Attached([first] + rest, e, [first] + put)
  {
    var atts := [first] + rest;
    if a :| a in rest && a.id == e.id {
      var i :| 0 <= i < |rest| && rest[i].id == e.id && (forall j :: 0 <= j < i ==> rest[j].id != e.id) && put == rest[i := e];
      assert atts[i + 1] in atts;
      forall j | 0 <= j < i + 1 ensures atts[j].id != e.id { if j > 0 { assert atts[j] == rest[j - 1]; } }
      assert [first] + put == atts[i + 1 := e];
    } else {
      forall a | a in atts ensures a.id != e.id { assert a == first || a in rest; }
    }
  }

  lemma {:induction false} AttachmentPut(atts: seq<AttachmentEvidence>, e: AttachmentEvidence)
    ensures Attached(atts, e, PutAttachment(atts, e))
  {
    if atts != [] {
      assert atts == [atts[0]] + atts[1..];
      if atts[0].id == e.id {
        assert atts[0] in atts && [e] + atts[1..] == atts[0 := e];
      } else {
        AttachmentPut(atts[1..], e);
        hide Attached;
        AttachedBehind(atts[0], atts[1..], e, PutAttachment(atts[1..], e));
      }
    }
  }

  lemma PublishAttachmentRegion(s: State, op: Op, rid: RegionId)
    requires op.OpPublishAttachment? && rid in s.regions && PublishAttachment(s, op.attachment, op.a).error == NoError
    ensures var t := PublishAttachment(s, op.attachment, op.a).state;
            rid in t.regions && RegionAfter(s, op, rid, t.regions[rid])
  {
    hide Acceptable, PutAttachment, Attached;
    AttachmentPut(s.regions[rid].attachments, op.attachment);
  }

  lemma FirstOfNames(d: PoolDescriptor, rid: RegionId)
    ensures FirstOf(d.members, rid) < |d.members| <==> Names(d, rid)
  {
    var i := FirstOf(d.members, rid);
    hide FirstOf;
    if i < |d.members| { assert d.members[i] in d.members; }
  }

  lemma MembershipsOnly(s: State, op: Op, rid: RegionId, now: set<(PoolId, Generation)>)
    requires (op.OpAddPoolMember? || op.OpRemovePoolMember?) && rid in s.regions
    requires MembershipsAfter(s, op, rid, s.regions[rid].memberships, now)
    ensures RegionAfter(s, op, rid, s.regions[rid].(memberships := now))
  {
  }

  lemma AddPoolMemberRegion(s: State, op: Op, rid: RegionId)
    requires op.OpAddPoolMember? && rid in s.regions && AddPoolMember(s, op.into, op.member, op.a).error == NoError
    ensures var t := AddPoolMember(s, op.into, op.member, op.a).state;
            rid in t.regions && RegionAfter(s, op, rid, t.regions[rid])
  {
    hide Acceptable, FirstOf, Names, RegionAfter;
    FirstOfNames(s.pools[op.into], op.member.region);
    var rr, rr' := s.regions[rid], AddPoolMember(s, op.into, op.member, op.a).state.regions[rid];
    assert rr' == rr.(memberships := rr'.memberships);
    MembershipsOnly(s, op, rid, rr'.memberships);
  }

  lemma RemovePoolMemberRegion(s: State, op: Op, rid: RegionId)
    requires op.OpRemovePoolMember? && rid in s.regions && RemovePoolMember(s, op.from, op.region, op.a).error == NoError
    ensures var t := RemovePoolMember(s, op.from, op.region, op.a).state;
            rid in t.regions && RegionAfter(s, op, rid, t.regions[rid])
  {
    hide RemovePoolMember, RegionAfter;
    RemovedMember(s, op.from, op.region, op.a, rid);
    var rr := s.regions[rid];
    var now := if rid == op.region then set m | m in rr.memberships && m.0 != op.from else rr.memberships;
    MembershipsOnly(s, op, rid, now);
  }

  lemma RemovedMember(s: State, pool: PoolId, region: RegionId, a: Authority, rid: RegionId)
    requires rid in s.regions && RemovePoolMember(s, pool, region, a).error == NoError
    ensures var t, rr := RemovePoolMember(s, pool, region, a).state, s.regions[rid];
            && rid in t.regions
            && t.regions[rid] == rr.(memberships := if rid == region then set m | m in rr.memberships && m.0 != pool else rr.memberships)
  {
    hide Acceptable, Without;
  }

  // ---- Reserve, commit, release ----

  lemma LedgerOnly(s: State, op: Op, rid: RegionId, l': Ledger)
    requires (op.OpReserve? || op.OpCommit? || op.OpRelease?) && rid in s.regions
    requires BucketsAfter(op, rid, s.regions[rid].ledger, l')
    ensures RegionAfter(s, op, rid, s.regions[rid].(ledger := l'))
  {
  }

  lemma ReserveRegion(s: State, op: Op, rid: RegionId)
    requires Inv(s) && s.nextReservation <= U64_MAX && op.OpReserve? && rid in s.regions
    requires Reserve(s, op.req, op.a, op.now).error == NoError
    ensures var t := Reserve(s, op.req, op.a, op.now).state;
            rid in t.regions && RegionAfter(s, op, rid, t.regions[rid])
  {
    hide Inv, Reserve, Acceptable, Bindings.AsRequested, Bindings.AtCurrentGenerations, RegionAfter, Selection.RankedIds;
    Bindings.GrantedAsRequested(s, op.req, op.a, op.now);
    var rr, rr' := s.regions[rid], Reserve(s, op.req, op.a, op.now).state.regions[rid];
    assert rr' == rr.(ledger := rr'.ledger);
    LedgerOnly(s, op, rid, rr'.ledger);
  }

  lemma CommitRegion(s: State, op: Op, rid: RegionId)
    requires Inv(s) && op.OpCommit? && rid in s.regions && Commit(s, op.id, op.a).error == NoError
    ensures var t := Commit(s, op.id, op.a).state;
            rid in t.regions && RegionAfter(s, op, rid, t.regions[rid])
  {
    hide Inv, Commit;
    Guarantees.CommitMoves(s, op.id, op.a);
  }

  lemma ReleaseRegion(s: State, op: Op, rid: RegionId)
    requires Inv(s) && op.OpRelease? && rid in s.regions && Release(s, op.id, op.a).error == NoError
    ensures var t := Release(s, op.id, op.a).state;
            rid in t.regions && RegionAfter(s, op, rid, t.regions[rid])
  {
    hide Inv, Release, Acceptable;
    Endings.ReleasedWas(s, op.id, op.a);
    Guarantees.ReleaseAlwaysSucceeds(s, op.id, op.a);
  }

  // ---- Every region ----

  /** Calls that are about no region at all. */
  predicate Elsewhere(op: Op) {
    op.OpRegisterConsumer? || op.OpRegisterDomain? || op.OpRegisterWorker? || op.OpNoteWorkerHandle? || op.OpSelect?
  }

  lemma ElsewhereRegions(s: State, op: Op)
    requires Elsewhere(op)
    ensures Apply(s, op).state.regions == s.regions
  {
    hide SetEpoch, RegisterProvider, RegisterRegion, RegisterPool, RegisterPolicy;
    hide AddPoolMember, RemovePoolMember, PublishEvidence, PublishAttachment, BeginDrain, CompleteDrain, CancelDrain;
    hide MarkUnavailable, RecoverRegion, RetireProvider, RetireRegion, MarkWorkerDead, Reserve, Commit, Release, Acceptable;
  }

  lemma Untouched(s: State, op: Op, rid: RegionId)
    requires Elsewhere(op) && rid in s.regions
    ensures RegionAfter(s, op, rid, s.regions[rid])
  {
  }

  lemma ConfigurationRegion(s: State, op: Op, rid: RegionId)
    requires Inv(s) && rid in s.regions && Apply(s, op).error == NoError && IsConfiguration(op) && !Elsewhere(op)
    ensures rid in Apply(s, op).state.regions && RegionAfter(s, op, rid, Apply(s, op).state.regions[rid])
  {
    hide Inv, RegionAfter, SetEpoch, RegisterConsumer, RegisterProvider, RegisterDomain, RegisterRegion, RegisterPool;
    hide RegisterPolicy, AddPoolMember, RemovePoolMember, PublishEvidence, PublishAttachment, BeginDrain, CompleteDrain;
    hide CancelDrain, MarkUnavailable, RecoverRegion, RetireProvider, RetireRegion, RegisterWorker, MarkWorkerDead;
    hide NoteWorkerHandle, Select, Reserve, Commit, Release;
    match op
    case OpSetEpoch(_) => SetEpochRegion(s, op, rid);
    case OpRegisterProvider(_, _) => RegisterProviderRegion(s, op, rid);
    case OpRegisterRegion(_, _) => RegisterRegionRegion(s, op, rid);
    case OpRegisterPool(_, _) => RegisterPoolRegion(s, op, rid);
    case OpRegisterPolicy(_, _) => RegisterPolicyRegion(s, op, rid);
    case OpAddPoolMember(_, _, _) => AddPoolMemberRegion(s, op, rid);
    case OpRemovePoolMember(_, _, _) => RemovePoolMemberRegion(s, op, rid);
    case _ =>
  }

  lemma LifecycleRegion(s: State, op: Op, rid: RegionId)
    requires Inv(s) && rid in s.regions && Apply(s, op).error == NoError && IsLifecycle(op)
    ensures rid in Apply(s, op).state.regions && RegionAfter(s, op, rid, Apply(s, op).state.regions[rid])
  {
    hide Inv, Apply, RegionAfter, PublishEvidence, PublishAttachment, BeginDrain, CompleteDrain, CancelDrain, MarkUnavailable;
    hide RecoverRegion, RetireProvider, RetireRegion;
    Endings.Applied(s, op);
    Endings.AppliedMembers(s, op);
    Endings.AppliedRegion(s, op);
    match op
    case OpPublishEvidence(_, _) => PublishEvidenceRegion(s, op, rid);
    case OpPublishAttachment(_, _) => PublishAttachmentRegion(s, op, rid);
    case OpBeginDrain(_, _) => BeginDrainRegion(s, op, rid);
    case OpCompleteDrain(_, _) => CompleteDrainRegion(s, op, rid);
    case OpCancelDrain(_, _) => CancelDrainRegion(s, op, rid);
    case OpMarkUnavailable(_, _) => MarkUnavailableRegion(s, op, rid);
    case OpRecoverRegion(_, _) => RecoverRegionRegion(s, op, rid);
    case OpRetireProvider(_, _) => RetireProviderRegion(s, op, rid);
    case OpRetireRegion(_, _) => RetireRegionRegion(s, op, rid);
    case _ =>
  }

  lemma UsageRegion(s: State, op: Op, rid: RegionId)
    requires Inv(s) && s.nextReservation <= U64_MAX && rid in s.regions && Apply(s, op).error == NoError
    requires IsUsage(op) && !Elsewhere(op)
    ensures rid in Apply(s, op).state.regions && RegionAfter(s, op, rid, Apply(s, op).state.regions[rid])
  {
    hide Inv, RegionAfter, SetEpoch, RegisterConsumer, RegisterProvider, RegisterDomain, RegisterRegion, RegisterPool;
    hide RegisterPolicy, AddPoolMember, RemovePoolMember, PublishEvidence, PublishAttachment, BeginDrain, CompleteDrain;
    hide CancelDrain, MarkUnavailable, RecoverRegion, RetireProvider, RetireRegion, RegisterWorker, MarkWorkerDead;
    hide NoteWorkerHandle, Select, Reserve, Commit, Release;
    match op
    case OpMarkWorkerDead(_, _) => MarkWorkerDeadRegion(s, op, rid);
    case OpReserve(_, _, _) => ReserveRegion(s, op, rid);
    case OpCommit(_, _) => CommitRegion(s, op, rid);
    case OpRelease(_, _) => ReleaseRegion(s, op, rid);
    case _ =>
  }

  /** Every accepted operation, every region: exactly what becomes of it. */
  lemma EveryRegion(s: State, op: Op, rid: RegionId)
    requires Inv(s) && s.nextReservation <= U64_MAX && Apply(s, op).error == NoError && rid in s.regions
    ensures rid in Apply(s, op).state.regions && RegionAfter(s, op, rid, Apply(s, op).state.regions[rid])
  {
    hide Inv, Apply, RegionAfter;
    if Elsewhere(op) { ElsewhereRegions(s, op); Untouched(s, op, rid); }
    else if IsConfiguration(op) { ConfigurationRegion(s, op, rid); }
    else if IsLifecycle(op) { LifecycleRegion(s, op, rid); }
    else { UsageRegion(s, op, rid); }
  }

  // ---- New regions ----

  lemma StirringKeys(s: State, op: Op)
    requires Inv(s) && s.nextReservation <= U64_MAX && Apply(s, op).error == NoError && Effects.Stirs(op)
    requires !op.OpRegisterRegion?
    ensures Apply(s, op).state.regions.Keys == s.regions.Keys
  {
    hide Inv, Apply, RegisterPool, AddPoolMember, RemovePoolMember, PublishEvidence, Reserve, Acceptable;
    hide Bindings.AsRequested, Bindings.AtCurrentGenerations, Selection.RankedIds, PoolFault, Effects.Steady, Effects.Calm;
    Endings.Applied(s, op);
    Endings.AppliedMembers(s, op);
    match op
    case OpRegisterPool(d, a) => Effects.RegisterPoolSteady(s, d, a);
    case OpAddPoolMember(pool, m, a) => Effects.AddPoolMemberCalm(s, pool, m, a);
    case OpRemovePoolMember(pool, region, a) => Effects.RemovePoolMemberCalm(s, pool, region, a);
    case OpPublishEvidence(e, a) => Effects.PublishEvidenceElsewhere(s, e, a);
    case OpReserve(req, a, now) => Bindings.GrantedAsRequested(s, req, a, now);
    case _ =>
  }

  /** Only registration makes a region known, and then it is freshly declared. */
  lemma NewRegions(s: State, op: Op)
    requires Inv(s) && s.nextReservation <= U64_MAX && Apply(s, op).error == NoError
    ensures var t := Apply(s, op).state;
            if op.OpRegisterRegion?
            then t.regions.Keys == s.regions.Keys + {op.descriptor.id} && JustDeclared(op.descriptor, t.regions[op.descriptor.id])
            else t.regions.Keys == s.regions.Keys
  {
    hide Inv, Apply, RegisterRegion, JustDeclared, Effects.Calm;
    if op.OpRegisterRegion? {
      Endings.Applied(s, op);
      RegisterRegionDeclares(s, op.descriptor, op.a);
    } else if Effects.Stirs(op) {
      StirringKeys(s, op);
    } else {
      Effects.OthersAreCalm(s, op);
    }
  }

  // ---- Two cases in their own words ----

  /** Retired, draining and withdrawn regions stay so; any other region must be revalidated. */
  predicate Suspended(rr: RegionRecord, rr': RegionRecord) {
    && (if rr.lifecycle.Retired? || rr.lifecycle.Draining? || rr.lifecycle.Unavailable? then rr'.lifecycle == rr.lifecycle
        else rr'.lifecycle.RevalidationRequired?)
    && rr'.evidenceStatus == (if rr.hasEvidence then EvidenceStatus.RevalidationRequired else rr.evidenceStatus)
    && rr'.ledger.free == rr.ledger.free && rr'.ledger.draining == rr.ledger.draining && rr'.ledger.online == rr.ledger.online
  }

  /** A real epoch advance suspends every region. */
  lemma EpochSuspends(s: State, e: Epoch)
    requires s.epoch < e
    ensures SetEpoch(s, e).regions.Keys == s.regions.Keys
    ensures forall rid :: rid in s.regions ==> Suspended(s.regions[rid], SetEpoch(s, e).regions[rid])
  {
    hide SetEpoch;
    Fencing.EpochKeepsRegions(s, e);
    forall rid | rid in s.regions ensures Suspended(s.regions[rid], SetEpoch(s, e).regions[rid]) {
      SetEpochRegion(s, OpSetEpoch(e), rid);
    }
  }

  /** The death of a worker suspends exactly the regions its present incarnation vouched for. */
  lemma WorkerDeathSuspends(s: State, w: WorkerId, a: Authority, rid: RegionId)
    requires MarkWorkerDead(s, w, a).error == NoError && rid in s.regions
    ensures w in s.workers && rid in MarkWorkerDead(s, w, a).state.regions
    ensures var rr, rr' := s.regions[rid], MarkWorkerDead(s, w, a).state.regions[rid];
            if Endings.VouchedBy(s, w, rid) then Suspended(rr, rr')
            else rr' == rr.(ledger := rr'.ledger) && rr'.ledger.free == rr.ledger.free && rr'.ledger.draining == rr.ledger.draining
  {
    hide MarkWorkerDead;
    Endings.MarkWorkerDeadTable(s, w, a);
    MarkWorkerDeadRegion(s, OpMarkWorkerDead(w, a), rid);
  }
}
