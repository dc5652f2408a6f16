/** Every operation keeps the invariant, in success and in failure; so does every run. */
module Preservation {
  import opened Words
  import opened Types
  import opened Ledgers
  import opened Records
  import opened Operations
  import opened Invariants
  import Selection

  /** What a withdrawal leaves behind: the chosen reservations hold nothing, the rest is as it was. */
  lemma AfterWithdraw(s: State, ids: set<ReservationId>, cause: Cause, id: ReservationId)
    requires id in s.reservations
    ensures var r, r' := s.reservations[id], Withdraw(s, ids, cause).reservations[id];
            && r' == r.(state := r'.state)
            && (id !in ids ==> r' == r)
            && (id in ids && !cause.DrainStart? ==> !Live(r'))
            && (id in ids ==> !r'.state.Reserved?)
            && (Live(r') ==> r' == r)
  {
  }

  /** What the invariant says of one live reservation. */
  lemma LiveFacts(s: State, id: ReservationId)
    requires id in s.reservations && ReservationOk(s, id) && Live(s.reservations[id])
    ensures var r := s.reservations[id];
            && BoundToCurrent(s, r) && Carries(s.regions[r.region].lifecycle, r)
            && !s.providers[r.provider].lifecycle.Retired?
  {
  }

  lemma SetEpochKeeps(s: State, e: Epoch)
    requires Inv(s)
    ensures Inv(SetEpoch(s, e))
  {
    if e > s.epoch {
      var w := Withdraw(s, s.reservations.Keys, EpochAdvance);
      WithdrawKeeps(s, s.reservations.Keys, EpochAdvance);
      var t := SetEpoch(s, e);
      forall id | id in t.reservations ensures ReservationOk(t, id) {
        AfterWithdraw(s, s.reservations.Keys, EpochAdvance, id);
        assert ReservationOk(w, id);
      }
      forall rid | rid in t.regions ensures RegionOk(t, rid) {
        assert RegionOk(w, rid);
        assert t.regions[rid] == Suspend(w.regions[rid]);
      }
    }
  }

  lemma RegisterConsumerKeeps(s: State, c: ConsumerId, g: Generation, a: Authority)
    requires Inv(s)
    ensures Inv(RegisterConsumer(s, c, g, a).state)
  {
    hide RegionOk, ReservationOk;
    var step := RegisterConsumer(s, c, g, a);
    if step.error == NoError { Irrelevant(s, step.state); }
  }

  lemma RegisterDomainKeeps(s: State, d: DomainDescriptor, a: Authority)
    requires Inv(s)
    ensures Inv(RegisterDomain(s, d, a).state)
  {
    hide RegionOk, ReservationOk;
    var step := RegisterDomain(s, d, a);
    if step.error == NoError { Irrelevant(s, step.state); }
  }

  lemma RegisterWorkerKeeps(s: State, w: WorkerId, boot: BootId, epoch: Epoch, pid: U64, a: Authority)
    requires Inv(s)
    ensures Inv(RegisterWorker(s, w, boot, epoch, pid, a).state)
  {
    hide RegionOk, ReservationOk;
    var step := RegisterWorker(s, w, boot, epoch, pid, a);
    if step.error == NoError { Irrelevant(s, step.state); }
  }

  lemma NoteWorkerHandleKeeps(s: State, w: WorkerId, holds: bool)
    requires Inv(s)
    ensures Inv(NoteWorkerHandle(s, w, holds))
  {
    hide RegionOk, ReservationOk;
    Irrelevant(s, NoteWorkerHandle(s, w, holds));
  }

  lemma SelectKeeps(s: State, req: Request, a: Authority)
    requires Inv(s)
    ensures Inv(Select(s, req, a).state)
  {
    hide RegionOk, ReservationOk;
    var step := Select(s, req, a);
    if step.error == NoError { Irrelevant(s, step.state); }
  }

  /** The state a provider reincarnation passes through: its reservations fenced, its evidence forgotten. */
  lemma ForgetBackedKeeps(s: State, p: ProviderId)
    requires Inv(s)
    requires forall id :: id in s.reservations && Live(s.reservations[id]) ==> s.reservations[id].provider != p
    ensures Inv(s.(regions := ForgetBacked(s.regions, p)))
  {
    hide RegionOk, ReservationOk;
    var t := s.(regions := ForgetBacked(s.regions, p));
    forall id | id in s.reservations && Live(s.reservations[id]) && s.reservations[id].region in t.regions
      ensures Carries(t.regions[s.reservations[id].region].lifecycle, s.reservations[id])
    {
      LiveFacts(s, id);
    }
    MilderKeeps(s, t);
  }

  lemma FencedProvider(s: State, p: ProviderId)
    requires Inv(s)
    ensures var t := Withdraw(s, OfProvider(s, p), Fencing);
            && Inv(t) && t.providers == s.providers
            && (forall id :: id in t.reservations && Live(t.reservations[id]) ==> t.reservations[id].provider != p)
  {
    hide RegionOk, ReservationOk;
    WithdrawKeeps(s, OfProvider(s, p), Fencing);
    var t := Withdraw(s, OfProvider(s, p), Fencing);
    forall id | id in t.reservations && Live(t.reservations[id]) ensures t.reservations[id].provider != p {
      AfterWithdraw(s, OfProvider(s, p), Fencing, id);
    }
  }

  lemma RegisterProviderKeeps(s: State, d: ProviderDescriptor, a: Authority)
    requires Inv(s)
    ensures Inv(RegisterProvider(s, d, a).state)
  {
    hide RegionOk, ReservationOk;
    if ProviderFault(s, d, a) == NoError {
      var rec := ProviderRecord(d, Lifecycle.Registered);
      if d.id in s.providers {
        var w := Withdraw(s, OfProvider(s, d.id), Fencing);
        FencedProvider(s, d.id);
        ForgetBackedKeeps(w, d.id);
        ProviderReplaced(w.(regions := ForgetBacked(w.regions, d.id)), d.id, rec);
      } else {
        forall id | id in s.reservations && Live(s.reservations[id]) ensures s.reservations[id].provider != d.id {
          LiveFacts(s, id);
        }
        ProviderReplaced(s, d.id, rec);
      }
    }
  }

  lemma FencedRegion(s: State, region: RegionId)
    requires Inv(s)
    ensures var t := Withdraw(s, OfRegion(s, region), Fencing);
            && Inv(t) && t.regions.Keys == s.regions.Keys
            && (forall id :: id in t.reservations && Live(t.reservations[id]) ==> t.reservations[id].region != region)
  {
    hide RegionOk, ReservationOk;
    WithdrawKeeps(s, OfRegion(s, region), Fencing);
    var t := Withdraw(s, OfRegion(s, region), Fencing);
    forall id | id in t.reservations && Live(t.reservations[id]) ensures t.reservations[id].region != region {
      AfterWithdraw(s, OfRegion(s, region), Fencing, id);
    }
  }

  lemma RegisterRegionKeeps(s: State, d: RegionDescriptor, a: Authority)
    requires Inv(s)
    ensures Inv(RegisterRegion(s, d, a).state)
  {
    hide RegionOk, ReservationOk;
    if RegionFault(s, d, a) == NoError {
      if d.id in s.regions {
        FencedRegion(s, d.id);
        RegionReplaced(Withdraw(s, OfRegion(s, d.id), Fencing), d, RegionLifecycle.Declared);
      } else {
        forall id | id in s.reservations && Live(s.reservations[id]) ensures s.reservations[id].region != d.id {
          LiveFacts(s, id);
        }
        RegionReplaced(s, d, RegionLifecycle.Declared);
      }
    }
  }

  lemma RegisterPoolKeeps(s: State, d: PoolDescriptor, a: Authority)
    requires Inv(s)
    ensures Inv(RegisterPool(s, d, a).state)
  {
    hide RegionOk, ReservationOk;
    if PoolFault(s, d, a) == NoError {
      var t := if d.id in s.pools then Withdraw(s, OfPool(s, d.id), Fencing) else s;
      if d.id in s.pools { WithdrawKeeps(s, OfPool(s, d.id), Fencing); }
      forall id | id in t.reservations && Live(t.reservations[id]) ensures t.reservations[id].pool != d.id {
        if d.id !in s.pools { LiveFacts(s, id); }
        AfterWithdraw(s, OfPool(s, d.id), Fencing, id);
      }
      PoolReplaced(t, d);
    }
  }

  lemma RegisterPolicyKeeps(s: State, d: PolicyDescriptor, a: Authority)
    requires Inv(s)
    ensures Inv(RegisterPolicy(s, d, a).state)
  {
    hide RegionOk, ReservationOk;
    if PolicyFault(s, d, a) == NoError {
      var t := if d.id in s.policies then Withdraw(s, OfPolicy(s, d.id), Fencing) else s;
      if d.id in s.policies { WithdrawKeeps(s, OfPolicy(s, d.id), Fencing); }
      forall id | id in t.reservations && Live(t.reservations[id]) ensures t.reservations[id].policy != d.id {
        if d.id !in s.policies { LiveFacts(s, id); }
        AfterWithdraw(s, OfPolicy(s, d.id), Fencing, id);
      }
      PolicyReplaced(t, d);
    }
  }

  lemma AddPoolMemberKeeps(s: State, pool: PoolId, m: PoolMember, a: Authority)
    requires Inv(s)
    ensures Inv(AddPoolMember(s, pool, m, a).state)
  {
    hide RegionOk, ReservationOk;
    if AddPoolMember(s, pool, m, a).error == NoError {
      var d := s.pools[pool];
      var d' := d.(members := d.members + [m]);
      PoolReplaced(s, d');
      var rr := s.regions[m.region];
      LiveAreCarried(s, m.region);
      RegionAmended(s.(pools := s.pools[pool := d']), m.region, rr.(memberships := rr.memberships + {(pool, d.generation)}));
    }
  }

  lemma RemovePoolMemberKeeps(s: State, pool: PoolId, region: RegionId, a: Authority)
    requires Inv(s)
    ensures Inv(RemovePoolMember(s, pool, region, a).state)
  {
    hide RegionOk, ReservationOk;
    var step := RemovePoolMember(s, pool, region, a);
    if step.error == NoError {
      var d := s.pools[pool];
      var d' := d.(members := Without(d.members, region));
      PoolReplaced(s, d');
      if region in s.regions {
        var rr := s.regions[region];
        LiveAreCarried(s, region);
        RegionAmended(s.(pools := s.pools[pool := d']), region,
                      rr.(memberships := set m | m in rr.memberships && m.0 != pool));
      }
    }
  }

  lemma PublishAttachmentKeeps(s: State, e: AttachmentEvidence, a: Authority)
    requires Inv(s)
    ensures Inv(PublishAttachment(s, e, a).state)
  {
    hide RegionOk, ReservationOk;
    var step := PublishAttachment(s, e, a);
    if step.error == NoError {
      LiveAreCarried(s, e.region);
      RegionAmended(s, e.region, step.state.regions[e.region]);
    }
  }

  // ---- Evidence ----

  lemma ClosedLedger(s: State, rid: RegionId)
    requires Inv(s) && rid in s.regions
    ensures s.regions[rid].ledger.Closed()
  {
    assert RegionOk(s, rid);
  }

  lemma SetOnlineAmends(s: State, rid: RegionId, online: U64)
    requires Inv(s) && rid in s.regions
    ensures var m := SetOnline(s.regions[rid].ledger, online);
            && Inv(WithRegion(s, rid, s.regions[rid].(ledger := m.ledger)))
            && (!m.ok ==> m.ledger == s.regions[rid].ledger)
  {
    hide RegionOk, ReservationOk;
    ClosedLedger(s, rid);
    LiveAreCarried(s, rid);
    SetOnlineFromClosed(s.regions[rid].ledger, online);
    RegionAmended(s, rid, s.regions[rid].(ledger := SetOnline(s.regions[rid].ledger, online).ledger));
  }

  /** Evidence that passed the checks makes the region's record current and correctly attributed. */
  lemma TakenEvidenceFits(s: State, e: RegionEvidence, a: Authority, l: RegionLifecycle)
    requires EvidenceFault(s, e, a) == NoError && RegionOk(s, e.header.region)
    requires SetOnline(s.regions[e.header.region].ledger, e.onlineCapacityBytes).ok
    ensures var rid := e.header.region;
            var m := SetOnline(s.regions[rid].ledger, e.onlineCapacityBytes);
            RegionOk(WithRegion(s, rid, TakeEvidence(s.regions[rid], m.ledger, e).(lifecycle := l)), rid)
  {
    SetOnlineFromClosed(s.regions[e.header.region].ledger, e.onlineCapacityBytes);
  }

  lemma PublishEvidenceKeeps(s: State, e: RegionEvidence, a: Authority)
    requires Inv(s)
    ensures Inv(PublishEvidence(s, e, a).state)
  {
    hide RegionOk, ReservationOk;
    if EvidenceFault(s, e, a) == NoError {
      var rid := e.header.region;
      var rr := s.regions[rid];
      var m := SetOnline(rr.ledger, e.onlineCapacityBytes);
      SetOnlineAmends(s, rid, e.onlineCapacityBytes);
      if m.ok {
        var taken := TakeEvidence(rr, m.ledger, e);
        var target := HealthTarget(e.health);
        LiveAreCarried(s, rid);
        TakenEvidenceFits(s, e, a, rr.lifecycle);
        TakenEvidenceFits(s, e, a, target);
        assert taken.(lifecycle := rr.lifecycle) == taken;
        RegionUpdated(s, rid, taken);
        RegionUpdated(s, rid, taken.(lifecycle := target));
        var t := WithRegion(s, rid, taken.(lifecycle := target));
        var p := rr.descriptor.provider;
        if p in t.providers { ProviderLifecycleKeeps(t, p, Lifecycle.Online); }
      }
    }
  }

  // ---- Drain, withdrawal of capacity, recovery ----

  /** Emptying one bucket into another that no reservation holds always succeeds. */
  lemma EmptyBucket(l: Ledger, from: Bucket, to: Bucket)
    requires l.Closed() && from != to
    requires !from.Reserved? && !from.Committed? && !to.Reserved? && !to.Committed?
    ensures var m := Transfer(l, from, to, l.Get(from));
            m.ok && m.ledger.Closed() && m.ledger.total == l.total
            && m.ledger.reserved == l.reserved && m.ledger.committed == l.committed
  {
    TransferFromClosed(l, from, to, l.Get(from));
  }

  lemma FollowKeeps(s: State, p: ProviderId, from: Lifecycle, to: Lifecycle)
    requires Inv(s) && !to.Retired?
    ensures Inv(Follow(s, p, from, to))
  {
    hide RegionOk, ReservationOk;
    if p in s.providers { ProviderLifecycleKeeps(s, p, to); }
  }

  lemma BeginDrainKeeps(s: State, region: RegionId, a: Authority)
    requires Inv(s)
    ensures Inv(BeginDrain(s, region, a).state)
  {
    hide RegionOk, ReservationOk, Withdraw, Transfer;
    if RegionGuard(s, region, a) == NoError && RegionAllowed(s.regions[region].lifecycle, RegionLifecycle.Draining) {
      var t := Withdraw(s, OfRegion(s, region), DrainStart);
      DrainedRegion(s, region);
      ClosedLedger(t, region);
      var rr := t.regions[region];
      EmptyBucket(rr.ledger, Free, Bucket.Draining);
      var m := Transfer(rr.ledger, Free, Bucket.Draining, rr.ledger.free);
      var rr' := rr.(ledger := m.ledger, lifecycle := RegionLifecycle.Draining);
      RegionAmended(t, region, rr');
      FollowKeeps(WithRegion(t, region, rr'), rr.descriptor.provider, Lifecycle.Online, Lifecycle.Draining);
    }
  }

  lemma DrainedRegion(s: State, region: RegionId)
    requires Inv(s) && region in s.regions && !s.regions[region].lifecycle.Retired?
    ensures var t := Withdraw(s, OfRegion(s, region), DrainStart);
            && Inv(t) && region in t.regions
            && (forall id :: id in t.reservations && Live(t.reservations[id]) && t.reservations[id].region == region ==>
                 Carries(RegionLifecycle.Draining, t.reservations[id]))
  {
    hide RegionOk, ReservationOk;
    WithdrawKeeps(s, OfRegion(s, region), DrainStart);
    var t := Withdraw(s, OfRegion(s, region), DrainStart);
    forall id | id in t.reservations && Live(t.reservations[id]) && t.reservations[id].region == region
      ensures Carries(RegionLifecycle.Draining, t.reservations[id])
    {
      AfterWithdraw(s, OfRegion(s, region), DrainStart, id);
    }
  }

  lemma CompleteDrainKeeps(s: State, region: RegionId, a: Authority)
    requires Inv(s)
    ensures Inv(CompleteDrain(s, region, a).state)
  {
    hide RegionOk, ReservationOk, Transfer;
    if RegionGuard(s, region, a) == NoError && s.regions[region].lifecycle.Draining? {
      ClosedLedger(s, region);
      var rr := s.regions[region];
      EmptyBucket(rr.ledger, Bucket.Draining, Bucket.Unavailable);
      var m := Transfer(rr.ledger, Bucket.Draining, Bucket.Unavailable, rr.ledger.draining);
      LiveAreCarried(s, region);
      var rr' := rr.(ledger := m.ledger, lifecycle := RegionLifecycle.Unavailable);
      RegionAmended(s, region, rr');
      FollowKeeps(WithRegion(s, region, rr'), rr.descriptor.provider, Lifecycle.Draining, Lifecycle.Offline);
    }
  }

  lemma CancelDrainKeeps(s: State, region: RegionId, a: Authority)
    requires Inv(s)
    ensures Inv(CancelDrain(s, region, a).state)
  {
    hide RegionOk, ReservationOk, Transfer;
    if RegionGuard(s, region, a) == NoError && s.regions[region].lifecycle.Draining? {
      ClosedLedger(s, region);
      var rr := s.regions[region];
      EmptyBucket(rr.ledger, Bucket.Draining, Free);
      var m := Transfer(rr.ledger, Bucket.Draining, Free, rr.ledger.draining);
      LiveAreCarried(s, region);
      RegionAmended(s, region, rr.(ledger := m.ledger, lifecycle := RegionLifecycle.Online));
    }
  }

  lemma MarkUnavailableKeeps(s: State, region: RegionId, a: Authority)
    requires Inv(s)
    ensures Inv(MarkUnavailable(s, region, a).state)
  {
    hide RegionOk, ReservationOk, Transfer, Withdraw;
    if RegionGuard(s, region, a) == NoError && RegionAllowed(s.regions[region].lifecycle, RegionLifecycle.Unavailable) {
      ClosedLedger(s, region);
      var rr := s.regions[region];
      EmptyBucket(rr.ledger, Free, Bucket.Unavailable);
      var m := Transfer(rr.ledger, Free, Bucket.Unavailable, rr.ledger.free);
      LiveAreCarried(s, region);
      var u := WithRegion(s, region, rr.(ledger := m.ledger));
      RegionAmended(s, region, rr.(ledger := m.ledger));
      assert OfRegion(s, region) == OfRegion(u, region);
      FencedRegion(u, region);
      var t := Withdraw(u, OfRegion(u, region), Fencing);
      RegionAmended(t, region, t.regions[region].(lifecycle := RegionLifecycle.Unavailable));
    }
  }

  lemma RecoverRegionKeeps(s: State, region: RegionId, a: Authority)
    requires Inv(s)
    ensures Inv(RecoverRegion(s, region, a).state)
  {
    hide RegionOk, ReservationOk, Transfer;
    var step := RecoverRegion(s, region, a);
    if step.error == NoError {
      ClosedLedger(s, region);
      var rr := s.regions[region];
      EmptyBucket(rr.ledger, Bucket.Unavailable, Free);
      var m := Transfer(rr.ledger, Bucket.Unavailable, Free, rr.ledger.unavailable);
      LiveAreCarried(s, region);
      RegionAmended(s, region, rr.(ledger := m.ledger, lifecycle := RegionLifecycle.Declared,
                                   evidenceStatus := EvidenceStatus.RevalidationRequired));
    }
  }

  lemma RetireBackedKeeps(s: State, p: ProviderId)
    requires Inv(s)
    requires forall id :: id in s.reservations && Live(s.reservations[id]) ==> s.reservations[id].provider != p
    ensures Inv(s.(regions := RetireBacked(s.regions, p)))
  {
    hide RegionOk, ReservationOk;
    var t := s.(regions := RetireBacked(s.regions, p));
    forall id | id in s.reservations && Live(s.reservations[id]) && s.reservations[id].region in t.regions
      ensures Carries(t.regions[s.reservations[id].region].lifecycle, s.reservations[id])
    {
      LiveFacts(s, id);
    }
    MilderKeeps(s, t);
  }

  lemma RetireProviderKeeps(s: State, p: ProviderId, a: Authority)
    requires Inv(s)
    ensures Inv(RetireProvider(s, p, a).state)
  {
    hide RegionOk, ReservationOk, RetireBacked;
    var step := RetireProvider(s, p, a);
    if step.error == NoError {
      var t := Withdraw(s, OfProvider(s, p), Fencing);
      FencedProvider(s, p);
      hide Withdraw;
      RetireBackedKeeps(t, p);
      ProviderLifecycleKeeps(t.(regions := RetireBacked(t.regions, p)), p, Lifecycle.Retired);
    }
  }

  lemma RetireRegionKeeps(s: State, region: RegionId, a: Authority)
    requires Inv(s)
    ensures Inv(RetireRegion(s, region, a).state)
  {
    hide RegionOk, ReservationOk, Withdraw;
    var step := RetireRegion(s, region, a);
    if step.error == NoError {
      FencedRegion(s, region);
      var t := Withdraw(s, OfRegion(s, region), Fencing);
      RegionAmended(t, region, t.regions[region].(lifecycle := RegionLifecycle.Retired));
    }
  }

  lemma SuspendAllKeeps(s: State, ids: set<RegionId>)
    requires Inv(s)
    ensures Inv(s.(regions := SuspendAll(s.regions, ids)))
  {
    hide RegionOk, ReservationOk;
    var t := s.(regions := SuspendAll(s.regions, ids));
    forall rid | rid in s.regions ensures Milder(s.regions[rid], t.regions[rid]) {
      EvidenceNeedsRecord(s, rid);
    }
    forall id | id in s.reservations && Live(s.reservations[id]) && s.reservations[id].region in t.regions
      ensures Carries(t.regions[s.reservations[id].region].lifecycle, s.reservations[id])
    {
      LiveFacts(s, id);
    }
    MilderKeeps(s, t);
  }

  lemma EvidenceNeedsRecord(s: State, rid: RegionId)
    requires rid in s.regions && RegionOk(s, rid)
    ensures s.regions[rid].evidenceStatus.Current? ==> s.regions[rid].hasEvidence
  {
  }

  lemma MarkWorkerDeadKeeps(s: State, w: WorkerId, a: Authority)
    requires Inv(s)
    ensures Inv(MarkWorkerDead(s, w, a).state)
  {
    hide RegionOk, ReservationOk;
    var step := MarkWorkerDead(s, w, a);
    if step.error == NoError {
      var vouched := Vouched(s, w, s.workers[w].boot);
      var t := Withdraw(s, OfWorker(s, w, vouched), Fencing);
      WithdrawKeeps(s, OfWorker(s, w, vouched), Fencing);
      SuspendAllKeeps(t, vouched);
      Irrelevant(t.(regions := SuspendAll(t.regions, vouched)), step.state);
    }
  }

  // ---- Reservation, commit, release ----

  lemma ReserveLedger(l: Ledger, n: nat)
    requires l.Closed() && n <= l.free
    ensures var m := Transfer(l, Free, Bucket.Reserved, n);
            m.ok && Exchanged(l, m.ledger, 0, n, 0, 0)
  {
    TransferFromClosed(l, Free, Bucket.Reserved, n);
  }

  lemma CommitLedger(l: Ledger, n: nat)
    requires l.Closed() && n <= l.reserved
    ensures var m := Transfer(l, Bucket.Reserved, Bucket.Committed, n);
            m.ok && Exchanged(l, m.ledger, n, 0, 0, n)
  {
    TransferFromClosed(l, Bucket.Reserved, Bucket.Committed, n);
  }

  lemma ReleaseLedger(l: Ledger, n: nat, reserved: bool)
    requires l.Closed() && n <= if reserved then l.reserved else l.committed
    ensures var m := Transfer(l, if reserved then Bucket.Reserved else Bucket.Committed, Free, n);
            m.ok && (if reserved then Exchanged(l, m.ledger, n, 0, 0, 0) else Exchanged(l, m.ledger, 0, 0, n, 0))
  {
    TransferFromClosed(l, if reserved then Bucket.Reserved else Bucket.Committed, Free, n);
  }

  /** A live reservation's region exists, its ledger is closed and holds at least its bytes. */
  lemma HeldByLedger(s: State, id: ReservationId)
    requires Inv(s) && id in s.reservations && Live(s.reservations[id])
    ensures var r := s.reservations[id];
            && r.region in s.regions && s.regions[r.region].ledger.Closed()
            && r.bytes <= if r.state.Reserved? then s.regions[r.region].ledger.reserved else s.regions[r.region].ledger.committed
  {
    var r := s.reservations[id];
    assert ReservationOk(s, id);
    assert RegionOk(s, r.region);
    HeldAtLeast(s.reservations, id, if r.state.Reserved? then Bucket.Reserved else Bucket.Committed);
  }

  /** The next reservation id is new. */
  lemma FreshId(s: State)
    requires Inv(s)
    ensures forall id :: id in s.reservations ==> id < s.nextReservation
  {
    forall id | id in s.reservations ensures id < s.nextReservation { assert ReservationOk(s, id); }
  }

  lemma FreshMint(s: State)
    requires Inv(s) && s.nextReservation <= U64_MAX
    ensures Mint(s.nextReservation) == s.nextReservation && Mint(s.nextReservation) !in s.reservations
  {
    FreshId(s);
  }

  /** The two ways a reservation on a given region can end, spelled out table by table. */
  lemma ReserveShape(s: State, req: Request, a: Authority, now: U64, rid: RegionId)
    requires rid in s.regions
    ensures var rr := s.regions[rid];
            var m := Transfer(rr.ledger, Free, Bucket.Reserved, req.requiredBytes);
            var r := Bind(s, req, a, now, rid);
            var regions := s.regions[rid := rr.(ledger := m.ledger)];
            ReserveOn(s, req, a, now, rid) ==
              if m.ok then Step(s.(regions := regions, reservations := s.reservations[r.id := r],
                                   nextSelection := s.nextSelection + 1, nextReservation := s.nextReservation + 1), NoError)
              else Step(s.(regions := regions, nextSelection := s.nextSelection + 1), CapacityInsufficient)
  {
    hide Transfer, Mint;
  }

  /** What is reserved on a candidate is bound to current structure and hosted by it. */
  lemma BindHosted(s: State, req: Request, a: Authority, now: U64, rid: RegionId)
    requires Selection.IsCandidate(s, req, rid) && RegionOk(s, rid) && a.epoch == s.epoch
    ensures var r := Bind(s, req, a, now, rid);
            BoundToCurrent(s, r) && Hosted(s, r) && req.requiredBytes <= s.regions[rid].ledger.free
  {
    Selection.CandidateFacts(s, req, rid);
    hide Selection.IsCandidate;
  }

  lemma ReserveExchange(s: State, req: Request, a: Authority, now: U64, rid: RegionId)
    requires Inv(s) && s.nextReservation <= U64_MAX
    requires ReserveFault(s, req, a) == NoError && Selection.IsCandidate(s, req, rid)
    ensures var r := Bind(s, req, a, now, rid);
            var m := Transfer(s.regions[rid].ledger, Free, Bucket.Reserved, req.requiredBytes);
            && m.ok && r.id == s.nextReservation
            && Exchange(s, r.id, r, m.ledger, s.nextReservation + 1)
  {
    BindHosted(s, req, a, now, rid);
    ClosedLedger(s, rid);
    FreshId(s);
    hide Selection.IsCandidate, Inv, BoundToCurrent, Hosted, Transfer;
    ReserveLedger(s.regions[rid].ledger, req.requiredBytes);
  }

  lemma ExchangeThenCount(s: State, r: Reservation, l: Ledger, next: nat, selections: nat)
    requires Inv(s) && Exchange(s, r.id, r, l, next) && r.region in s.regions
    ensures Inv(AfterExchange(s, r.id, r, l, next).(nextSelection := selections))
  {
    hide RegionOk, ReservationOk, Exchange;
    ExchangeKeeps(s, r.id, r, l, next);
    hide AfterExchange;
    var t := AfterExchange(s, r.id, r, l, next);
    Irrelevant(t, t.(nextSelection := selections));
  }

  lemma ReserveOnState(s: State, req: Request, a: Authority, now: U64, rid: RegionId)
    requires rid in s.regions
    requires Transfer(s.regions[rid].ledger, Free, Bucket.Reserved, req.requiredBytes).ok
    ensures var r := Bind(s, req, a, now, rid);
            var m := Transfer(s.regions[rid].ledger, Free, Bucket.Reserved, req.requiredBytes);
            && r.region == rid
            && ReserveOn(s, req, a, now, rid)
            == Step(AfterExchange(s, r.id, r, m.ledger, s.nextReservation + 1).(nextSelection := s.nextSelection + 1), NoError)
  {
    hide Transfer;
  }

  lemma ReserveOnKeeps(s: State, req: Request, a: Authority, now: U64, rid: RegionId)
    requires Inv(s) && s.nextReservation <= U64_MAX
    requires ReserveFault(s, req, a) == NoError && Selection.IsCandidate(s, req, rid)
    ensures rid in s.regions && Inv(ReserveOn(s, req, a, now, rid).state)
  {
    CandidateExists(s, req, rid);
    ReserveExchange(s, req, a, now, rid);
    ReserveOnState(s, req, a, now, rid);
    hide Selection.IsCandidate, ReserveFault, Inv, Exchange, Transfer, Bind, AfterExchange, ReserveOn;
    var r := Bind(s, req, a, now, rid);
    var m := Transfer(s.regions[rid].ledger, Free, Bucket.Reserved, req.requiredBytes);
    ExchangeThenCount(s, r, m.ledger, s.nextReservation + 1, s.nextSelection + 1);
  }

  lemma TopIsCandidate(s: State, req: Request)
    requires Selection.RankedIds(s, req) != []
    ensures Selection.IsCandidate(s, req, Selection.RankedIds(s, req)[0])
  {
    Selection.RankedAreCandidates(s, req);
    hide Selection.IsCandidate, Selection.RankedIds;
    assert Selection.RankedIds(s, req)[0] in Selection.RankedIds(s, req);
  }

  lemma CandidateExists(s: State, req: Request, rid: RegionId)
    requires Selection.IsCandidate(s, req, rid)
    ensures rid in s.regions
  {
  }

  lemma ReserveKeeps(s: State, req: Request, a: Authority, now: U64)
    requires Inv(s) && s.nextReservation <= U64_MAX
    ensures Inv(Reserve(s, req, a, now).state)
  {
    hide RegionOk, ReservationOk, ReserveFault, ReserveOn, Selection.RankedIds, Selection.IsCandidate;
    if ReserveFault(s, req, a) == NoError {
      var ids := Selection.RankedIds(s, req);
      Irrelevant(s, s.(nextSelection := s.nextSelection + 1));
      if ids != [] {
        TopIsCandidate(s, req);
        CandidateExists(s, req, ids[0]);
        ReserveOnKeeps(s, req, a, now, ids[0]);
      }
    }
  }

  lemma CommitExchange(s: State, id: ReservationId)
    requires Inv(s) && id in s.reservations && s.reservations[id].state.Reserved?
    ensures var r := s.reservations[id];
            && r.region in s.regions
            && var m := Transfer(s.regions[r.region].ledger, Bucket.Reserved, Bucket.Committed, r.bytes);
               m.ok && Exchange(s, id, r.(state := ReservationState.Committed), m.ledger, s.nextReservation)
  {
    hide RegionOk, Transfer;
    var r := s.reservations[id];
    HeldByLedger(s, id);
    assert ReservationOk(s, id);
    CommitLedger(s.regions[r.region].ledger, r.bytes);
    assert BoundToCurrent(s, r.(state := ReservationState.Committed));
  }

  lemma CommitKeeps(s: State, id: ReservationId, a: Authority)
    requires Inv(s)
    ensures Inv(Commit(s, id, a).state)
  {
    hide RegionOk, ReservationOk, Exchange, Transfer, BindingFault, HolderFault, FreshnessFault;
    if id in s.reservations && s.reservations[id].state.Reserved? {
      var r := s.reservations[id];
      CommitExchange(s, id);
      var m := Transfer(s.regions[r.region].ledger, Bucket.Reserved, Bucket.Committed, r.bytes);
      ExchangeKeeps(s, id, r.(state := ReservationState.Committed), m.ledger, s.nextReservation);
    }
  }

  lemma ReleaseExchange(s: State, id: ReservationId)
    requires Inv(s) && id in s.reservations && Live(s.reservations[id])
    ensures var r := s.reservations[id];
            && r.region in s.regions
            && var m := Transfer(s.regions[r.region].ledger,
                                 if r.state.Reserved? then Bucket.Reserved else Bucket.Committed, Free, r.bytes);
               m.ok && Exchange(s, id, r.(state := Released), m.ledger, s.nextReservation)
  {
    hide RegionOk, Transfer, BoundToCurrent, Hosted;
    var r := s.reservations[id];
    HeldByLedger(s, id);
    assert ReservationOk(s, id);
    ReleaseLedger(s.regions[r.region].ledger, r.bytes, r.state.Reserved?);
  }

  lemma ReleaseKeeps(s: State, id: ReservationId, a: Authority)
    requires Inv(s)
    ensures Inv(Release(s, id, a).state)
  {
    hide RegionOk, ReservationOk, Exchange, Transfer;
    if id in s.reservations && Live(s.reservations[id]) {
      var r := s.reservations[id];
      ReleaseExchange(s, id);
      var from := if r.state.Reserved? then Bucket.Reserved else Bucket.Committed;
      var m := Transfer(s.regions[r.region].ledger, from, Free, r.bytes);
      ExchangeKeeps(s, id, r.(state := Released), m.ledger, s.nextReservation);
    }
  }

  // ---- Every step, every run ----

  // The operations, in three groups.
  predicate IsConfiguration(op: Op) {
    || op.OpSetEpoch? || op.OpRegisterConsumer? || op.OpRegisterProvider? || op.OpRegisterDomain?
    || op.OpRegisterRegion? || op.OpRegisterPool? || op.OpRegisterPolicy? || op.OpAddPoolMember?
    || op.OpRemovePoolMember?
  }

  predicate IsLifecycle(op: Op) {
    || op.OpPublishEvidence? || op.OpPublishAttachment? || op.OpBeginDrain? || op.OpCompleteDrain?
    || op.OpCancelDrain? || op.OpMarkUnavailable? || op.OpRecoverRegion? || op.OpRetireProvider?
    || op.OpRetireRegion?
  }

  predicate IsUsage(op: Op) {
    || op.OpRegisterWorker? || op.OpMarkWorkerDead? || op.OpNoteWorkerHandle? || op.OpSelect?
    || op.OpReserve? || op.OpCommit? || op.OpRelease?
  }

  lemma ConfigurationKeeps(s: State, op: Op)
    requires Inv(s) && s.nextReservation <= U64_MAX && IsConfiguration(op)
    ensures Inv(Apply(s, op).state)
    ensures Apply(s, op).state.nextReservation <= s.nextReservation + 1
  {
    hide Inv, SetEpoch, RegisterConsumer, RegisterProvider, RegisterDomain, RegisterRegion, RegisterPool, RegisterPolicy;
    hide AddPoolMember, RemovePoolMember, PublishEvidence, PublishAttachment, BeginDrain, CompleteDrain, CancelDrain;
    hide MarkUnavailable, RecoverRegion, RetireProvider, RetireRegion, RegisterWorker, MarkWorkerDead, NoteWorkerHandle;
    hide Select, Reserve, Commit, Release;
    match op
    case OpSetEpoch(e) => SetEpochKeeps(s, e);
    case OpRegisterConsumer(c, g, a) => RegisterConsumerKeeps(s, c, g, a);
    case OpRegisterProvider(d, a) => RegisterProviderKeeps(s, d, a);
    case OpRegisterDomain(d, a) => RegisterDomainKeeps(s, d, a);
    case OpRegisterRegion(d, a) => RegisterRegionKeeps(s, d, a);
    case OpRegisterPool(d, a) => RegisterPoolKeeps(s, d, a);
    case OpRegisterPolicy(d, a) => RegisterPolicyKeeps(s, d, a);
    case OpAddPoolMember(pool, m, a) => AddPoolMemberKeeps(s, pool, m, a);
    case OpRemovePoolMember(pool, region, a) => RemovePoolMemberKeeps(s, pool, region, a);
    case _ =>
  }

  lemma LifecycleKeeps(s: State, op: Op)
    requires Inv(s) && s.nextReservation <= U64_MAX && IsLifecycle(op)
    ensures Inv(Apply(s, op).state)
    ensures Apply(s, op).state.nextReservation <= s.nextReservation + 1
  {
    hide Inv, SetEpoch, RegisterConsumer, RegisterProvider, RegisterDomain, RegisterRegion, RegisterPool, RegisterPolicy;
    hide AddPoolMember, RemovePoolMember, PublishEvidence, PublishAttachment, BeginDrain, CompleteDrain, CancelDrain;
    hide MarkUnavailable, RecoverRegion, RetireProvider, RetireRegion, RegisterWorker, MarkWorkerDead, NoteWorkerHandle;
    hide Select, Reserve, Commit, Release;
    match op
    case OpPublishEvidence(e, a) => PublishEvidenceKeeps(s, e, a);
    case OpPublishAttachment(e, a) => PublishAttachmentKeeps(s, e, a);
    case OpBeginDrain(region, a) => BeginDrainKeeps(s, region, a);
    case OpCompleteDrain(region, a) => CompleteDrainKeeps(s, region, a);
    case OpCancelDrain(region, a) => CancelDrainKeeps(s, region, a);
    case OpMarkUnavailable(region, a) => MarkUnavailableKeeps(s, region, a);
    case OpRecoverRegion(region, a) => RecoverRegionKeeps(s, region, a);
    case OpRetireProvider(p, a) => RetireProviderKeeps(s, p, a);
    case OpRetireRegion(region, a) => RetireRegionKeeps(s, region, a);
    case _ =>
  }

  lemma UsageKeeps(s: State, op: Op)
    requires Inv(s) && s.nextReservation <= U64_MAX && IsUsage(op)
    ensures Inv(Apply(s, op).state)
    ensures Apply(s, op).state.nextReservation <= s.nextReservation + 1
  {
    hide Inv, SetEpoch, RegisterConsumer, RegisterProvider, RegisterDomain, RegisterRegion, RegisterPool, RegisterPolicy;
    hide AddPoolMember, RemovePoolMember, PublishEvidence, PublishAttachment, BeginDrain, CompleteDrain, CancelDrain;
    hide MarkUnavailable, RecoverRegion, RetireProvider, RetireRegion, RegisterWorker, MarkWorkerDead, NoteWorkerHandle;
    hide Select, Reserve, Commit, Release;
    match op
    case OpRegisterWorker(w, boot, epoch, pid, a) => RegisterWorkerKeeps(s, w, boot, epoch, pid, a);
    case OpMarkWorkerDead(w, a) => MarkWorkerDeadKeeps(s, w, a);
    case OpNoteWorkerHandle(w, holds) => NoteWorkerHandleKeeps(s, w, holds);
    case OpSelect(req, a) => SelectKeeps(s, req, a);
    case OpReserve(req, a, now) => ReserveKeeps(s, req, a, now);
    case OpCommit(id, a) => CommitKeeps(s, id, a);
    case OpRelease(id, a) => ReleaseKeeps(s, id, a);
    case _ =>
  }

  lemma StepKeeps(s: State, op: Op)
    requires Inv(s) && s.nextReservation <= U64_MAX
    ensures Inv(Apply(s, op).state)
    ensures Apply(s, op).state.nextReservation <= s.nextReservation + 1
  {
    hide Inv, Apply;
    if IsConfiguration(op) { ConfigurationKeeps(s, op); }
    else if IsLifecycle(op) { LifecycleKeeps(s, op); }
    else { UsageKeeps(s, op); }
  }

  /** Every state reached in a run the 64-bit reservation counter can count satisfies the invariant. */
  lemma {:induction false} RunKeeps(s: State, ops: seq<Op>)
    requires Inv(s) && s.nextReservation + |ops| <= U64_MAX + 1
    ensures Inv(Run(s, ops))
    decreases |ops|
  {
    hide Inv, Apply;
    if ops != [] {
      StepKeeps(s, ops[0]);
      RunKeeps(Apply(s, ops[0]).state, ops[1..]);
    }
  }

  lemma ReachableInv(e: Epoch, ops: seq<Op>)
    requires |ops| <= U64_MAX
    ensures Inv(Run(Initial(e), ops))
  {
    hide Inv, Apply;
    InitialInv(e);
    RunKeeps(Initial(e), ops);
  }
}
