/**
 The control plane as it runs: one object whose methods change its tables in place, guard by guard
 and loop by loop. Each method is proved to be the step of module Operations with the same name,
 from every state that satisfies the invariant, and to keep the invariant.
 */
module Runtime {
  import opened Words
  import opened Types
  import opened Ledgers
  import opened Records
  import opened Operations
  import opened Invariants
  import opened Preservation
  import opened Withdrawals
  import Selection
  import Evaluation
  import Aftermath
  import Bindings
  import Endings
  import Preferences
  import Service

  /** The walks of an epoch advance in the program's order: workers, regions, then reservations. */
  lemma EpochOrder(s: State, e: Epoch)
    requires s.epoch < e
    ensures Withdraw(s.(epoch := e, workers := Dismiss(s.workers), regions := SuspendAll(s.regions, s.regions.Keys)),
                     s.reservations.Keys, EpochAdvance)
         == Operations.SetEpoch(s, e)
  {
    var rs := WithdrawAll(s.reservations, s.reservations.Keys, EpochAdvance);
    SuspendThenSettle(s.regions, s.regions.Keys, rs, EpochAdvance);
    assert Settle(s.regions, rs, EpochAdvance).Keys == s.regions.Keys by { hide Held, Rebalance; }
    hide Settle, SuspendAll, WithdrawAll, Dismiss;
  }

  lemma DeathOrder(s: State, w: WorkerId, a: Authority)
    requires Operations.MarkWorkerDead(s, w, a).error == NoError
    ensures w in s.workers
    ensures var vouched := Vouched(s, w, s.workers[w].boot);
            var u := s.(workers := s.workers[w := s.workers[w].(alive := false)], regions := SuspendAll(s.regions, vouched));
            Withdraw(u, OfWorker(s, w, vouched), Fencing) == Operations.MarkWorkerDead(s, w, a).state
  {
    var vouched := Vouched(s, w, s.workers[w].boot);
    var rs := WithdrawAll(s.reservations, OfWorker(s, w, vouched), Fencing);
    SuspendThenSettle(s.regions, vouched, rs, Fencing);
    hide Settle, SuspendAll, WithdrawAll, Acceptable, Vouched, OfWorker;
  }

  lemma RetiredTwice(rr: RegionRecord)
    requires rr.lifecycle.Retired?
    ensures RetireRecord(rr) == rr
  {
  }

  class Fabric {
    var epoch: Epoch
    var providers: map<ProviderId, ProviderRecord>
    var domains: map<DomainId, DomainRecord>
    var regions: map<RegionId, RegionRecord>
    var pools: map<PoolId, PoolDescriptor>
    var policies: map<PolicyId, PolicyDescriptor>
    var consumers: map<ConsumerId, Generation>
    var reservations: map<ReservationId, Reservation>
    var workers: map<WorkerId, WorkerRecord>
    var nextSelection: nat
    var nextReservation: nat

    function View(): State
      reads this
    {
      State(epoch, providers, domains, regions, pools, policies, consumers, reservations, workers, nextSelection, nextReservation)
    }

    ghost predicate Valid()
      reads this
    {
      Inv(View())
    }

    constructor (e: Epoch)
      ensures View() == Initial(e) && Valid()
    {
      epoch := e;
      providers, domains, regions, pools := map[], map[], map[], map[];
      policies, consumers, reservations, workers := map[], map[], map[], map[];
      nextSelection, nextReservation := 1, 1;
      new;
      InitialInv(e);
    }

    // ---- Walks over the reservations ----

    /** Fence or cancel one reservation and move its bytes; false if the ledger refused. */
    method Fence(id: ReservationId) returns (ok: bool)
      requires id in reservations
      modifies this
      ensures var r := old(reservations[id]);
              (Leaves(r, Fencing).Some? ==> r.region in old(regions) && Drawn(old(regions)[r.region].ledger, r, Fencing).ok) ==>
                ok && View() == DrawOne(old(View()), id, Fencing)
      ensures ok && old(reservations[id]).region in old(regions) ==>
                && id in reservations && reservations == old(reservations)[id := reservations[id]]
                && Endings.FencedOut(old(reservations[id]), reservations[id])
    {
      var r := reservations[id];
      if r.region in regions {
        var rr := regions[r.region];
        if r.state.Reserved? {
          var m := Transfer(rr.ledger, Bucket.Reserved, Bucket.Unavailable, r.bytes);
          regions := regions[r.region := rr.(ledger := m.ledger)];
          if !m.ok { return false; }
          reservations := reservations[id := r.(state := Fenced)];
        } else if r.state.Committed? || r.state.Active? {
          var m := Transfer(rr.ledger, Bucket.Committed, Bucket.Unavailable, r.bytes);
          regions := regions[r.region := rr.(ledger := m.ledger)];
          if !m.ok { return false; }
          reservations := reservations[id := r.(state := ReservationState.RevalidationRequired)];
        } else if r.state.Requested? || r.state.Evaluated? {
          reservations := reservations[id := r.(state := Cancelled)];
        } else {
          assert reservations[id := r] == reservations;
        }
        return true;
      }
      if Live(r) {
        reservations := reservations[id := r.(state := Fenced)];
      } else if r.state.Requested? || r.state.Evaluated? {
        reservations := reservations[id := r.(state := Cancelled)];
      } else {
        assert reservations[id := r] == reservations;
      }
      return true;
    }

    /** Walk all reservations, fencing the chosen ones. */
    method FenceAll(chosen: set<ReservationId>)
      requires Accounted(View())
      modifies this
      ensures View() == Withdraw(old(View()), chosen, Fencing)
    {
      hide Withdraw, Accounted, DrawOne;
      ghost var s := View();
      ghost var seen: set<ReservationId> := {};
      WithdrawNone(s, Fencing);
      assert chosen * seen == {};
      var pending := reservations.Keys;
      WithdrawTables(s, {}, Fencing);
      while pending != {}
        invariant pending + seen == s.reservations.Keys && pending !! seen
        invariant View() == Withdraw(s, chosen * seen, Fencing)
        decreases pending
      {
        var id :| id in pending;
        WithdrawTables(s, chosen * seen, Fencing);
        if id in chosen {
          WithdrawStep(s, chosen * seen, Fencing, id);
          var _ := Fence(id);
          assert chosen * (seen + {id}) == chosen * seen + {id};
        } else {
          assert chosen * (seen + {id}) == chosen * seen;
        }
        pending, seen := pending - {id}, seen + {id};
      }
      WithdrawSame(s, chosen * seen, chosen, Fencing);
    }

    /** The walk of an epoch advance: whatever holds capacity loses it and awaits revalidation. */
    method LapseAll()
      requires Accounted(View())
      modifies this
      ensures View() == Withdraw(old(View()), old(reservations.Keys), EpochAdvance)
    {
      hide Withdraw, Accounted;
      ghost var s := View();
      ghost var seen: set<ReservationId> := {};
      WithdrawNone(s, EpochAdvance);
      var pending := reservations.Keys;
      while pending != {}
        invariant pending + seen == s.reservations.Keys && pending !! seen
        invariant View() == Withdraw(s, seen, EpochAdvance)
        decreases pending
      {
        var id :| id in pending;
        WithdrawTables(s, seen, EpochAdvance);
        WithdrawStep(s, seen, EpochAdvance, id);
        Lapse(id);
        pending, seen := pending - {id}, seen + {id};
      }
      assert seen == s.reservations.Keys;
    }

    method Lapse(id: ReservationId)
      requires id in reservations
      modifies this
      ensures View() == DrawOne(old(View()), id, EpochAdvance)
    {
      var r := reservations[id];
      if r.state.Reserved? {
        if r.region in regions {
          var rr := regions[r.region];
          var m := Transfer(rr.ledger, Bucket.Reserved, Bucket.Unavailable, r.bytes);
          regions := regions[r.region := rr.(ledger := m.ledger)];
        }
        reservations := reservations[id := r.(state := ReservationState.RevalidationRequired)];
      } else if r.state.Committed? || r.state.Active? {
        if r.region in regions {
          var rr := regions[r.region];
          var m := Transfer(rr.ledger, Bucket.Committed, Bucket.Unavailable, r.bytes);
          regions := regions[r.region := rr.(ledger := m.ledger)];
        }
        reservations := reservations[id := r.(state := ReservationState.RevalidationRequired)];
      } else if r.state.Requested? || r.state.Evaluated? {
        reservations := reservations[id := r.(state := Cancelled)];
      } else {
        assert reservations[id := r] == reservations;
      }
    }

    /** The walk that opens a drain: what is merely reserved in the region goes back to free. */
    method CancelReserved(region: RegionId)
      requires Accounted(View()) && region in regions
      modifies this
      ensures View() == Withdraw(old(View()), OfRegion(old(View()), region), DrainStart)
    {
      hide Withdraw, Accounted, DrawOne;
      ghost var s := View();
      ghost var chosen := OfRegion(s, region);
      ghost var seen: set<ReservationId> := {};
      WithdrawNone(s, DrainStart);
      assert chosen * seen == {};
      var pending := reservations.Keys;
      while pending != {}
        invariant pending + seen == s.reservations.Keys && pending !! seen
        invariant View() == Withdraw(s, chosen * seen, DrainStart)
        decreases pending
      {
        var id :| id in pending;
        WithdrawTables(s, chosen * seen, DrainStart);
        WithdrawStep(s, chosen * seen, DrainStart, id);
        if reservations[id].region == region {
          assert chosen * (seen + {id}) == chosen * seen + {id};
          CancelOne(id, region);
        } else {
          assert chosen * (seen + {id}) == chosen * seen;
        }
        pending, seen := pending - {id}, seen + {id};
      }
      WithdrawSame(s, chosen * seen, chosen, DrainStart);
    }

    method CancelOne(id: ReservationId, region: RegionId)
      requires id in reservations && reservations[id].region == region && region in regions
      requires reservations[id].state.Reserved? ==> Drawn(regions[region].ledger, reservations[id], DrainStart).ok
      modifies this
      ensures View() == DrawOne(old(View()), id, DrainStart)
    {
      var r := reservations[id];
      if r.state.Reserved? {
        var rr := regions[region];
        var m := Transfer(rr.ledger, Bucket.Reserved, Free, r.bytes);
        regions := regions[region := rr.(ledger := m.ledger)];
        reservations := reservations[id := r.(state := if m.ok then Cancelled else Fenced)];
      } else {
        assert reservations[id := r] == reservations;
      }
    }

    // ---- Walks over the regions and workers ----

    method SuspendRegions(chosen: set<RegionId>)
      modifies this
      ensures View() == old(View()).(regions := SuspendAll(old(regions), chosen))
    {
      hide Suspend;
      ghost var before := regions;
      var pending := regions.Keys;
      while pending != {}
        invariant pending <= before.Keys == regions.Keys
        invariant forall rid :: rid in before ==>
                    regions[rid] == if rid !in pending && rid in chosen then Suspend(before[rid]) else before[rid]
        invariant View() == old(View()).(regions := regions)
        decreases pending
      {
        var rid :| rid in pending;
        if rid in chosen {
          var rr := SuspendRecord(regions[rid]);
          regions := regions[rid := rr];
        }
        pending := pending - {rid};
      }
      assert regions == SuspendAll(before, chosen);
    }

    /** Suspend the regions whose latest evidence came from this incarnation of the worker, and collect them. */
    method SuspendVouched(w: WorkerId, boot: BootId) returns (vouched: set<RegionId>)
      modifies this
      ensures vouched == Vouched(old(View()), w, boot)
      ensures View() == old(View()).(regions := SuspendAll(old(regions), vouched))
    {
      hide Suspend;
      ghost var before := regions;
      var pending := regions.Keys;
      vouched := {};
      while pending != {}
        invariant pending <= before.Keys == regions.Keys
        invariant vouched == set rid | rid in before && rid !in pending && before[rid].hasEvidence
                                    && before[rid].latest.header.worker == w && before[rid].latest.header.boot == boot
        invariant forall rid :: rid in before ==> regions[rid] == if rid in vouched then Suspend(before[rid]) else before[rid]
        invariant View() == old(View()).(regions := regions)
        decreases pending
      {
        var rid :| rid in pending;
        var rr := regions[rid];
        pending := pending - {rid};
        if rr.hasEvidence && rr.latest.header.worker == w && rr.latest.header.boot == boot {
          rr := SuspendRecord(rr);
          regions := regions[rid := rr];
          vouched := vouched + {rid};
        }
      }
      assert regions == SuspendAll(before, vouched);
    }

    method ForgetRegions(p: ProviderId)
      modifies this
      ensures View() == old(View()).(regions := ForgetBacked(old(regions), p))
    {
      hide Forget;
      ghost var before := regions;
      var pending := regions.Keys;
      while pending != {}
        invariant pending <= before.Keys == regions.Keys
        invariant forall rid :: rid in before ==>
                    regions[rid] == if rid !in pending && before[rid].descriptor.provider == p then Forget(before[rid]) else before[rid]
        invariant View() == old(View()).(regions := regions)
        decreases pending
      {
        var rid :| rid in pending;
        if regions[rid].descriptor.provider == p {
          var rr := ForgetRecord(regions[rid]);
          regions := regions[rid := rr];
        }
        pending := pending - {rid};
      }
      assert regions == ForgetBacked(before, p);
    }

    method RetireRegions(p: ProviderId)
      modifies this
      ensures View() == old(View()).(regions := RetireBacked(old(regions), p))
    {
      hide RetireRecord;
      ghost var before := regions;
      var pending := regions.Keys;
      while pending != {}
        invariant pending <= before.Keys == regions.Keys
        invariant forall rid :: rid in before ==>
                    regions[rid] == if rid !in pending && before[rid].descriptor.provider == p then RetireRecord(before[rid]) else before[rid]
        invariant View() == old(View()).(regions := regions)
        decreases pending
      {
        var rid :| rid in pending;
        var rr := regions[rid];
        if rr.lifecycle.Retired? { RetiredTwice(rr); }
        if rr.descriptor.provider == p && !rr.lifecycle.Retired? { regions := regions[rid := RetireRecord(rr)]; }
        pending := pending - {rid};
      }
      assert regions == RetireBacked(before, p);
    }

    method DismissWorkers()
      modifies this
      ensures View() == old(View()).(workers := Dismiss(old(workers)))
    {
      ghost var before := workers;
      var pending := workers.Keys;
      while pending != {}
        invariant pending <= before.Keys == workers.Keys
        invariant forall w :: w in before ==> workers[w] == if w in pending then before[w] else before[w].(alive := false)
        invariant View() == old(View()).(workers := workers)
        decreases pending
      {
        var w :| w in pending;
        workers := workers[w := workers[w].(alive := false)];
        pending := pending - {w};
      }
      assert workers == Dismiss(before);
    }

    // ---- Authority ----

    method AcceptAuthority(a: Authority) returns (ok: bool)
      ensures ok == Acceptable(View(), a)
    {
      if a.epoch != epoch { return false; }
      if a.worker == NULL { return true; }
      if a.worker !in workers { return false; }
      if workers[a.worker].boot != a.boot { return false; }
      if !workers[a.worker].alive || workers[a.worker].registeredEpoch != epoch { return false; }
      return true;
    }

    // ---- Epoch ----

    method SetEpoch(e: Epoch)
      requires Valid()
      modifies this
      ensures View() == Operations.SetEpoch(old(View()), e) && Valid()
      ensures e > old(epoch) ==>
                && regions.Keys == old(regions.Keys)
                && (forall rid :: rid in old(regions) ==> Aftermath.Suspended(old(regions)[rid], regions[rid]))
                && reservations.Keys == old(reservations.Keys)
                && (forall id :: id in old(reservations) ==> Endings.Outdated(old(reservations)[id], reservations[id]))
    {
      hide Inv, Withdraw, SuspendAll, Dismiss, Accounted, Aftermath.Suspended, Endings.Outdated;
      SetEpochKeeps(View(), e);
      if e <= epoch { return; }
      ghost var s := View();
      Aftermath.EpochSuspends(s, e);
      Endings.EpochOutdates(s, e);
      InvAccounted(s);
      epoch := e;
      DismissWorkers();
      SuspendRegions(regions.Keys);
      SuspendAccounted(s, View(), s.regions.Keys);
      EpochOrder(s, e);
      hide Operations.SetEpoch;
      LapseAll();
    }

    // ---- Registration ----

    method RegisterConsumer(c: ConsumerId, g: Generation, a: Authority) returns (error: ErrorCode)
      requires Valid()
      modifies this
      ensures Step(View(), error) == Operations.RegisterConsumer(old(View()), c, g, a) && Valid()
    {
      hide Inv, Acceptable;
      RegisterConsumerKeeps(View(), c, g, a);
      var ok := AcceptAuthority(a);
      if !ok { return StaleAuthority; }
      if c == NULL || g == NULL { return InvalidId; }
      if c in consumers && g <= consumers[c] { return WrongGeneration; }
      consumers := consumers[c := g];
      return NoError;
    }

    method RegisterProvider(d: ProviderDescriptor, a: Authority) returns (error: ErrorCode)
      requires Valid()
      modifies this
      ensures Step(View(), error) == Operations.RegisterProvider(old(View()), d, a) && Valid()
    {
      hide Inv, Acceptable, Contradictory, Withdraw, ForgetBacked, Accounted;
      RegisterProviderKeeps(View(), d, a);
      InvAccounted(View());
      var ok := AcceptAuthority(a);
      if !ok { return StaleAuthority; }
      if d.id == NULL || d.generation == NULL { return InvalidId; }
      if d.totalCapacityBytes == 0 { return InvalidArgument; }
      if d.alignmentBytes == 0 || d.granularityBytes == 0 { return InvalidArgument; }
      if Contradictory(d.capabilities) { return InvalidArgument; }
      if d.id in providers {
        if providers[d.id].descriptor.generation == d.generation { return AlreadyExists; }
        if d.generation < providers[d.id].descriptor.generation { return WrongGeneration; }
        FenceAll(OfProvider(View(), d.id));
        ForgetRegions(d.id);
      }
      providers := providers[d.id := ProviderRecord(d, Lifecycle.Registered)];
      return NoError;
    }

    method RegisterDomain(d: DomainDescriptor, a: Authority) returns (error: ErrorCode)
      requires Valid()
      modifies this
      ensures Step(View(), error) == Operations.RegisterDomain(old(View()), d, a) && Valid()
    {
      hide Inv, Acceptable;
      RegisterDomainKeeps(View(), d, a);
      var ok := AcceptAuthority(a);
      if !ok { return StaleAuthority; }
      if d.id == NULL || d.generation == NULL { return InvalidId; }
      if d.id in domains {
        if domains[d.id].descriptor.generation == d.generation { return AlreadyExists; }
        if d.generation < domains[d.id].descriptor.generation { return WrongGeneration; }
      }
      domains := domains[d.id := DomainRecord(d, Lifecycle.Registered)];
      return NoError;
    }

    method RegisterRegion(d: RegionDescriptor, a: Authority) returns (error: ErrorCode)
      requires Valid()
      modifies this
      ensures Step(View(), error) == Operations.RegisterRegion(old(View()), d, a) && Valid()
    {
      hide Inv, Acceptable, Contradictory, Withdraw, Accounted, FreshRegion;
      RegisterRegionKeeps(View(), d, a);
      InvAccounted(View());
      var ok := AcceptAuthority(a);
      if !ok { return StaleAuthority; }
      if d.id == NULL || d.generation == NULL { return InvalidId; }
      if d.provider == NULL { return InvalidArgument; }
      if d.totalCapacityBytes == 0 { return InvalidArgument; }
      if d.alignmentBytes == 0 || d.granularityBytes == 0 { return InvalidArgument; }
      if d.provider !in providers { return NotFound; }
      if Contradictory(d.staticCapabilities) { return InvalidArgument; }
      if d.id in regions {
        if regions[d.id].descriptor.generation == d.generation { return AlreadyExists; }
        if d.generation < regions[d.id].descriptor.generation { return WrongGeneration; }
        FenceAll(OfRegion(View(), d.id));
      }
      regions := regions[d.id := FreshRegion(d, RegionLifecycle.Declared)];
      return NoError;
    }

    method RegisterPool(d: PoolDescriptor, a: Authority) returns (error: ErrorCode)
      requires Valid()
      modifies this
      ensures Step(View(), error) == Operations.RegisterPool(old(View()), d, a) && Valid()
    {
      hide Inv, Acceptable, Withdraw, Accounted;
      RegisterPoolKeeps(View(), d, a);
      InvAccounted(View());
      var ok := AcceptAuthority(a);
      if !ok { return StaleAuthority; }
      if d.id == NULL || d.generation == NULL { return InvalidId; }
      if d.id in pools {
        if pools[d.id].generation == d.generation { return AlreadyExists; }
        if d.generation < pools[d.id].generation { return WrongGeneration; }
        FenceAll(OfPool(View(), d.id));
      }
      pools := pools[d.id := d];
      return NoError;
    }

    method RegisterPolicy(d: PolicyDescriptor, a: Authority) returns (error: ErrorCode)
      requires Valid()
      modifies this
      ensures Step(View(), error) == Operations.RegisterPolicy(old(View()), d, a) && Valid()
    {
      hide Inv, Acceptable, Withdraw, Accounted;
      RegisterPolicyKeeps(View(), d, a);
      InvAccounted(View());
      var ok := AcceptAuthority(a);
      if !ok { return StaleAuthority; }
      if d.id == NULL || d.generation == NULL { return InvalidId; }
      if d.id in policies {
        if policies[d.id].generation == d.generation { return AlreadyExists; }
        if d.generation < policies[d.id].generation { return WrongGeneration; }
        FenceAll(OfPolicy(View(), d.id));
      }
      policies := policies[d.id := d];
      return NoError;
    }

    // ---- Pool membership ----

    method AddPoolMember(pool: PoolId, m: PoolMember, a: Authority) returns (error: ErrorCode)
      requires Valid()
      modifies this
      ensures Step(View(), error) == Operations.AddPoolMember(old(View()), pool, m, a) && Valid()
    {
      hide Inv, Acceptable;
      AddPoolMemberKeeps(View(), pool, m, a);
      var ok := AcceptAuthority(a);
      if !ok { return StaleAuthority; }
      if pool !in pools { return NotFound; }
      if m.region !in regions { return NotFound; }
      if m.generation == NULL { return InvalidId; }
      if regions[m.region].descriptor.generation != m.generation { return WrongGeneration; }
      var d := pools[pool];
      FirstIs(d.members, m.region);
      for i := 0 to |d.members|
        invariant View() == old(View()) && forall j :: 0 <= j < i ==> d.members[j].region != m.region
      {
        if d.members[i].region == m.region {
          FirstAt(d.members, m.region, i);
          if d.members[i].generation == m.generation { return AlreadyExists; }
          pools := pools[pool := d.(members := d.members + [m])];
          return NoError;
        }
      }
      pools := pools[pool := d.(members := d.members + [m])];
      var rr := regions[m.region];
      regions := regions[m.region := rr.(memberships := rr.memberships + {(pool, d.generation)})];
      return NoError;
    }

    method RemovePoolMember(pool: PoolId, region: RegionId, a: Authority) returns (error: ErrorCode)
      requires Valid()
      modifies this
      ensures Step(View(), error) == Operations.RemovePoolMember(old(View()), pool, region, a) && Valid()
    {
      hide Inv, Acceptable, Without;
      RemovePoolMemberKeeps(View(), pool, region, a);
      var ok := AcceptAuthority(a);
      if !ok { return StaleAuthority; }
      if pool !in pools { return NotFound; }
      var d := pools[pool];
      var members := EraseMember(d.members, region);
      if |members| == |d.members| { return NotFound; }
      pools := pools[pool := d.(members := members)];
      if region in regions {
        var rr := regions[region];
        regions := regions[region := rr.(memberships := set m | m in rr.memberships && m.0 != pool)];
      }
      return NoError;
    }

    // ---- Evidence ----

    /** The checks evidence must pass before it is taken in, in order. */
    method CheckEvidence(e: RegionEvidence, a: Authority) returns (fault: ErrorCode)
      ensures fault == EvidenceFault(View(), e, a)
    {
      hide Acceptable;
      var h := e.header;
      var ok := AcceptAuthority(a);
      if !ok { return StaleAuthority; }
      if h.epoch != epoch { return WrongEpoch; }
      if h.region !in regions { return NotFound; }
      var rr := regions[h.region];
      if h.regionGeneration != rr.descriptor.generation { return WrongGeneration; }
      if h.sourceProvider !in providers { return NotFound; }
      if h.sourceProviderGeneration != providers[h.sourceProvider].descriptor.generation { return WrongGeneration; }
      if a.worker != NULL && (h.worker != a.worker || h.boot != a.boot) { return StaleAuthority; }
      if e.onlineCapacityBytes > rr.descriptor.totalCapacityBytes { return InvalidArgument; }
      if rr.lifecycle.Draining? || rr.lifecycle.Retired? { return InvalidTransition; }
      return NoError;
    }

    method PublishRegionEvidence(e: RegionEvidence, a: Authority) returns (error: ErrorCode)
      requires Valid()
      modifies this
      ensures Step(View(), error) == PublishEvidence(old(View()), e, a) && Valid()
      ensures error == NoError ==> Service.Published(old(View()), View(), e)
    {
      hide Inv, EvidenceFault, AbsorbEvidence, Service.Published;
      ghost var s := View();
      PublishEvidenceKeeps(s, e, a);
      RecordedIfAccepted(s, e, a);
      error := CheckEvidence(e, a);
      if error == NoError {
        EvidenceRegion(View(), e, a);
        error := TakeIn(e);
      }
    }

    /** Apply the online capacity, record the evidence, and let the lifecycle follow the reported health. */
    method TakeIn(e: RegionEvidence) returns (error: ErrorCode)
      requires e.header.region in regions
      modifies this
      ensures Step(View(), error) == AbsorbEvidence(old(View()), e)
    {
      hide SetOnline, RegionAllowed, TakeEvidence, Reflect;
      var rid := e.header.region;
      var rr := regions[rid];
      var m := SetOnline(rr.ledger, e.onlineCapacityBytes);
      if !m.ok {
        regions := regions[rid := rr.(ledger := m.ledger)];
        return InvalidArgument;
      }
      var taken := RecordEvidence(rr, m.ledger, e);
      var target := RegionLifecycle.Online;
      if e.health == HEALTH_FAILED { target := RegionLifecycle.RevalidationRequired; }
      else if e.health == HEALTH_DEGRADED { target := RegionLifecycle.Degraded; }
      PutTwice(regions, rid, taken, taken.(lifecycle := target));
      regions := regions[rid := taken];
      if target != rr.lifecycle && !RegionAllowed(rr.lifecycle, target) { return InvalidTransition; }
      regions := regions[rid := taken.(lifecycle := target)];
      ReflectLifecycle(taken.(lifecycle := target));
      return NoError;
    }

    /** A provider waiting to come online does so with its region. */
    method ReflectLifecycle(rr: RegionRecord)
      modifies this
      ensures View() == old(View()).(providers := Reflect(old(providers), rr))
    {
      var p := rr.descriptor.provider;
      if p in providers {
        var pt := providers[p].lifecycle;
        var target := pt;
        if rr.lifecycle.Online? && (pt.Registered? || pt.Probing? || pt.Offline? || pt.RevalidationRequired?) {
          target := Lifecycle.Online;
        }
        if target != pt && ProviderAllowed(pt, target) { providers := providers[p := providers[p].(lifecycle := target)]; }
      }
    }

    method PublishAttachment(e: AttachmentEvidence, a: Authority) returns (error: ErrorCode)
      requires Valid()
      modifies this
      ensures Step(View(), error) == Operations.PublishAttachment(old(View()), e, a) && Valid()
    {
      hide Inv, Acceptable;
      PublishAttachmentKeeps(View(), e, a);
      var ok := AcceptAuthority(a);
      if !ok { return StaleAuthority; }
      if e.epoch != epoch { return WrongEpoch; }
      if e.id == NULL || e.generation == NULL { return InvalidId; }
      if e.region !in regions { return NotFound; }
      var rr := regions[e.region];
      if e.regionGeneration != rr.descriptor.generation { return WrongGeneration; }
      var atts := ReplaceOrAppend(rr.attachments, e);
      regions := regions[e.region := rr.(attachments := atts)];
      return NoError;
    }

    // ---- Lifecycle transitions ----

    method BeginDrain(region: RegionId, a: Authority) returns (error: ErrorCode)
      requires Valid()
      modifies this
      ensures Step(View(), error) == Operations.BeginDrain(old(View()), region, a) && Valid()
    {
      hide Inv, Acceptable, Withdraw, Accounted, RegionAllowed, StartDraining;
      BeginDrainKeeps(View(), region, a);
      InvAccounted(View());
      var ok := AcceptAuthority(a);
      if !ok { return StaleAuthority; }
      if region !in regions { return NotFound; }
      if !RegionAllowed(regions[region].lifecycle, RegionLifecycle.Draining) { return InvalidTransition; }
      WithdrawTables(View(), OfRegion(View(), region), DrainStart);
      CancelReserved(region);
      error := DrainFree(region);
    }

    /** Move all free capacity into draining; the backing provider follows. */
    method DrainFree(region: RegionId) returns (error: ErrorCode)
      requires region in regions
      modifies this
      ensures Step(View(), error) == StartDraining(old(View()), region)
    {
      hide Transfer;
      var rr := regions[region];
      var m := Transfer(rr.ledger, Free, Bucket.Draining, rr.ledger.free);
      var rr' := rr.(ledger := m.ledger, lifecycle := RegionLifecycle.Draining);
      PutTwice(regions, region, rr.(ledger := m.ledger), rr');
      regions := regions[region := rr.(ledger := m.ledger)];
      if !m.ok { return InvalidArgument; }
      regions := regions[region := rr'];
      var p := rr.descriptor.provider;
      if p in providers && providers[p].lifecycle.Online? {
        providers := providers[p := providers[p].(lifecycle := Lifecycle.Draining)];
      }
      return NoError;
    }

    method CompleteDrain(region: RegionId, a: Authority) returns (error: ErrorCode)
      requires Valid()
      modifies this
      ensures Step(View(), error) == Operations.CompleteDrain(old(View()), region, a) && Valid()
    {
      hide Inv, Acceptable, Transfer;
      CompleteDrainKeeps(View(), region, a);
      var ok := AcceptAuthority(a);
      if !ok { return StaleAuthority; }
      if region !in regions { return NotFound; }
      var rr := regions[region];
      if !rr.lifecycle.Draining? { return InvalidTransition; }
      var m := Transfer(rr.ledger, Bucket.Draining, Bucket.Unavailable, rr.ledger.draining);
      regions := regions[region := rr.(ledger := m.ledger)];
      if !m.ok { return InvalidArgument; }
      regions := regions[region := rr.(ledger := m.ledger, lifecycle := RegionLifecycle.Unavailable)];
      var p := rr.descriptor.provider;
      if p in providers && providers[p].lifecycle.Draining? {
        providers := providers[p := providers[p].(lifecycle := Lifecycle.Offline)];
      }
      return NoError;
    }

    method CancelDrain(region: RegionId, a: Authority) returns (error: ErrorCode)
      requires Valid()
      modifies this
      ensures Step(View(), error) == Operations.CancelDrain(old(View()), region, a) && Valid()
    {
      hide Inv, Acceptable, Transfer;
      CancelDrainKeeps(View(), region, a);
      var ok := AcceptAuthority(a);
      if !ok { return StaleAuthority; }
      if region !in regions { return NotFound; }
      var rr := regions[region];
      if !rr.lifecycle.Draining? { return InvalidTransition; }
      var m := Transfer(rr.ledger, Bucket.Draining, Free, rr.ledger.draining);
      regions := regions[region := rr.(ledger := m.ledger)];
      if !m.ok { return InvalidArgument; }
      regions := regions[region := rr.(ledger := m.ledger, lifecycle := RegionLifecycle.Online)];
      return NoError;
    }

    method MarkUnavailable(region: RegionId, a: Authority) returns (error: ErrorCode)
      requires Valid()
      modifies this
      ensures Step(View(), error) == Operations.MarkUnavailable(old(View()), region, a) && Valid()
    {
      hide Inv, Acceptable, Withdraw, Accounted, Transfer, RegionAllowed, OfRegion;
      MarkUnavailableKeeps(View(), region, a);
      var ok := AcceptAuthority(a);
      if !ok { return StaleAuthority; }
      if region !in regions { return NotFound; }
      var rr := regions[region];
      if !RegionAllowed(rr.lifecycle, RegionLifecycle.Unavailable) { return InvalidTransition; }
      var m := Transfer(rr.ledger, Free, Bucket.Unavailable, rr.ledger.free);
      ghost var s := View();
      regions := regions[region := rr.(ledger := m.ledger)];
      if !m.ok { return InvalidArgument; }
      EmptiedAccounted(s, region);
      SameOfRegion(s, View(), region);
      FenceRegion(region, RegionLifecycle.Unavailable);
      return NoError;
    }

    /** Fence everything that rests on a region and move it to its new lifecycle. */
    method FenceRegion(region: RegionId, to: RegionLifecycle)
      requires Accounted(View()) && region in regions
      modifies this
      ensures var t := Withdraw(old(View()), OfRegion(old(View()), region), Fencing);
              region in t.regions && View() == WithRegion(t, region, t.regions[region].(lifecycle := to))
    {
      hide Withdraw, Accounted;
      WithdrawTables(View(), OfRegion(View(), region), Fencing);
      FenceAll(OfRegion(View(), region));
      regions := regions[region := regions[region].(lifecycle := to)];
    }

    method RecoverRegion(region: RegionId, a: Authority) returns (error: ErrorCode)
      requires Valid()
      modifies this
      ensures Step(View(), error) == Operations.RecoverRegion(old(View()), region, a) && Valid()
    {
      hide Inv, Acceptable, Transfer;
      RecoverRegionKeeps(View(), region, a);
      var ok := AcceptAuthority(a);
      if !ok { return StaleAuthority; }
      if region !in regions { return NotFound; }
      var rr := regions[region];
      if !rr.lifecycle.Unavailable? && !rr.lifecycle.RevalidationRequired? && !rr.lifecycle.Degraded? { return InvalidTransition; }
      var m := Transfer(rr.ledger, Bucket.Unavailable, Free, rr.ledger.unavailable);
      regions := regions[region := rr.(ledger := m.ledger, lifecycle := RegionLifecycle.Declared,
                                       evidenceStatus := EvidenceStatus.RevalidationRequired)];
      return NoError;
    }

    method RetireProvider(p: ProviderId, a: Authority) returns (error: ErrorCode)
      requires Valid()
      modifies this
      ensures Step(View(), error) == Operations.RetireProvider(old(View()), p, a) && Valid()
    {
      hide Inv, Acceptable, Withdraw, Accounted, RetireBacked, ProviderAllowed;
      RetireProviderKeeps(View(), p, a);
      InvAccounted(View());
      var ok := AcceptAuthority(a);
      if !ok { return StaleAuthority; }
      if p !in providers { return NotFound; }
      if !ProviderAllowed(providers[p].lifecycle, Lifecycle.Retired) { return InvalidTransition; }
      WithdrawTables(View(), OfProvider(View(), p), Fencing);
      FenceAll(OfProvider(View(), p));
      RetireRegions(p);
      providers := providers[p := providers[p].(lifecycle := Lifecycle.Retired)];
      return NoError;
    }

    method RetireRegion(region: RegionId, a: Authority) returns (error: ErrorCode)
      requires Valid()
      modifies this
      ensures Step(View(), error) == Operations.RetireRegion(old(View()), region, a) && Valid()
    {
      hide Inv, Acceptable, Withdraw, Accounted, RegionAllowed;
      RetireRegionKeeps(View(), region, a);
      InvAccounted(View());
      var ok := AcceptAuthority(a);
      if !ok { return StaleAuthority; }
      if region !in regions { return NotFound; }
      if !RegionAllowed(regions[region].lifecycle, RegionLifecycle.Retired) { return InvalidTransition; }
      FenceRegion(region, RegionLifecycle.Retired);
      return NoError;
    }

    // ---- Workers ----

    method RegisterWorker(w: WorkerId, boot: BootId, e: Epoch, pid: U64, a: Authority) returns (error: ErrorCode)
      requires Valid()
      modifies this
      ensures Step(View(), error) == Operations.RegisterWorker(old(View()), w, boot, e, pid, a) && Valid()
    {
      hide Inv;
      RegisterWorkerKeeps(View(), w, boot, e, pid, a);
      if w == NULL || boot == NULL { return InvalidId; }
      if a.epoch != epoch { return StaleAuthority; }
      if e != epoch { return StaleAuthority; }
      if a.worker != NULL && (a.worker != w || a.boot != boot) { return StaleAuthority; }
      if w in workers && workers[w].boot == boot { return AlreadyExists; }
      workers := workers[w := WorkerRecord(boot, e, pid, true, false)];
      return NoError;
    }

    method MarkWorkerDead(w: WorkerId, a: Authority) returns (error: ErrorCode)
      requires Valid()
      modifies this
      ensures Step(View(), error) == Operations.MarkWorkerDead(old(View()), w, a) && Valid()
    {
      hide Inv, Acceptable, Withdraw, Accounted, SuspendAll, Vouched;
      MarkWorkerDeadKeeps(View(), w, a);
      InvAccounted(View());
      var ok := AcceptAuthority(a);
      if !ok { return StaleAuthority; }
      if w !in workers { return NotFound; }
      ghost var s := View();
      DeathOrder(s, w, a);
      var boot := workers[w].boot;
      workers := workers[w := workers[w].(alive := false)];
      VouchedSame(s, View(), w, boot);
      var vouched := SuspendVouched(w, boot);
      SuspendAccounted(s, View(), vouched);
      FenceAll(OfWorker(View(), w, vouched));
      return NoError;
    }

    method NoteWorkerHandle(w: WorkerId, holds: bool)
      requires Valid()
      modifies this
      ensures View() == Operations.NoteWorkerHandle(old(View()), w, holds) && Valid()
    {
      hide Inv;
      NoteWorkerHandleKeeps(View(), w, holds);
      if w in workers { workers := workers[w := workers[w].(holdsHandle := holds)]; }
    }

    // ---- Selection and reservation ----

    method Select(req: Request, a: Authority) returns (r: Result<SelectionResult<real>>)
      requires Valid()
      modifies this
      ensures View() == Operations.Select(old(View()), req, a).state && Valid()
      ensures r.Fail? ==> r.error == Operations.Select(old(View()), req, a).error
      ensures r.Ok? ==>
                && Operations.Select(old(View()), req, a).error == NoError
                && r.value.ranked == Evaluation.RankedList(old(View()), req)
                && r.value.outcome == Selection.Outcome(old(View()), req)
                && Evaluation.Refused(old(View()), req, old(regions.Keys), r.value.rejected)
                && Preferences.WellOrdered(old(View()), req, r.value.ranked)
    {
      hide Inv, Acceptable, Evaluation.RankedList, Evaluation.Refused, Selection.Outcome, Preferences.WellOrdered;
      SelectKeeps(View(), req, a);
      var ok := AcceptAuthority(a);
      if !ok { return Fail(StaleAuthority); }
      if req.requiredBytes == 0 { return Fail(InvalidArgument); }
      Preferences.ListWellOrdered(View(), req);
      var sel := Evaluation.Evaluate(View(), req);
      nextSelection := nextSelection + 1;
      return Ok(sel);
    }

    method RequestReservation(req: Request, a: Authority, now: U64) returns (r: Result<ReservationId>)
      requires Valid() && nextReservation <= U64_MAX
      modifies this
      ensures View() == Reserve(old(View()), req, a, now).state && Valid()
      ensures r == if Reserve(old(View()), req, a, now).error == NoError then Ok(old(nextReservation))
                   else Fail(Reserve(old(View()), req, a, now).error)
      ensures r.Ok? ==>
                && r.value in reservations && reservations[r.value].region == Selection.RankedIds(old(View()), req)[0]
                && Bindings.Grants(old(View()), View(), reservations[r.value])
                && Bindings.AsRequested(reservations[r.value], req, a, now)
                && Bindings.AtCurrentGenerations(old(View()), reservations[r.value])
    {
      hide Inv, Reserve, Mint, Selection.RankedIds, Bindings.Grants, Bindings.AsRequested, Bindings.AtCurrentGenerations;
      ReserveKeeps(View(), req, a, now);
      Bindings.GrantedAsRequested(View(), req, a, now);
      SmallMint(nextReservation);
      var id := Mint(nextReservation);
      var error := TryReserve(req, a, now);
      r := if error == NoError then Ok(id) else Fail(error);
    }

    method TryReserve(req: Request, a: Authority, now: U64) returns (error: ErrorCode)
      modifies this
      ensures Step(View(), error) == Reserve(old(View()), req, a, now)
    {
      hide Acceptable, Evaluation.RankedList, Evaluation.Refused, Selection.Outcome, Selection.RankedIds, ReserveOn, Mint;
      var ok := AcceptAuthority(a);
      if !ok { return StaleAuthority; }
      if req.requiredBytes == 0 { return InvalidArgument; }
      if req.consumer == NULL { return InvalidId; }
      if req.consumerGeneration == NULL { return InvalidId; }
      ghost var s := View();
      var sel := Evaluation.Evaluate(View(), req);
      Evaluation.TopOfList(s, req);
      nextSelection := nextSelection + 1;
      if sel.ranked == [] { return CapacityInsufficient; }
      error := ReserveTop(s, sel.ranked[0].region, sel, req, a, now);
    }

    /** Bind a new reservation to every generation it depends on. */
    method BindTop(ghost s: State, rid: RegionId, sel: SelectionResult<real>, req: Request, a: Authority, now: U64)
      returns (res: Reservation)
      requires rid in regions && rid in s.regions && s.providers == providers && s.pools == pools && s.policies == policies
      requires regions[rid] == s.regions[rid].(ledger := regions[rid].ledger) && nextReservation == s.nextReservation
      requires sel.id == Mint(s.nextSelection) && sel.generation == Mint(s.nextSelection)
      ensures res == Bind(s, req, a, now, rid)
    {
      hide Mint;
      var rr := regions[rid];
      var p := rr.descriptor.provider;
      var providerGeneration: Generation := NULL;
      if p in providers { providerGeneration := providers[p].descriptor.generation; }
      var policyGeneration: Generation := NULL;
      if req.policy != NULL && req.policy in policies { policyGeneration := policies[req.policy].generation; }
      var poolGeneration: Generation := NULL;
      if req.preferredPool != NULL && req.preferredPool in pools { poolGeneration := pools[req.preferredPool].generation; }
      res := Reservation(
        Mint(nextReservation), Mint(nextReservation), req.consumer, req.consumerGeneration, p, providerGeneration,
        rid, rr.descriptor.generation, req.preferredPool, poolGeneration, req.policy, policyGeneration,
        sel.id, sel.generation, if rr.hasEvidence then rr.latest.header.generation else NULL,
        a.worker, a.boot, a.epoch, req.requiredBytes, ReservationState.Reserved, now, 0, []);
    }

    /** Take the bytes from the region at the head of the ranking and file the new reservation. */
    method ReserveTop(ghost s: State, rid: RegionId, sel: SelectionResult<real>, req: Request, a: Authority, now: U64)
      returns (error: ErrorCode)
      requires rid in regions && View() == s.(nextSelection := s.nextSelection + 1)
      requires sel.id == Mint(s.nextSelection) && sel.generation == Mint(s.nextSelection)
      modifies this
      ensures Step(View(), error) == ReserveOn(s, req, a, now, rid)
    {
      hide Transfer, Mint, Bind, ReserveOn;
      ReserveShape(s, req, a, now, rid);
      var rr := regions[rid];
      var m := Transfer(rr.ledger, Free, Bucket.Reserved, req.requiredBytes);
      regions := regions[rid := rr.(ledger := m.ledger)];
      if !m.ok { return CapacityInsufficient; }
      var res := BindTop(s, rid, sel, req, a, now);
      nextReservation := nextReservation + 1;
      reservations := reservations[res.id := res];
      return NoError;
    }

    method CommitReservation(id: ReservationId, a: Authority) returns (r: Result<Reservation>)
      requires Valid()
      modifies this
      ensures View() == Commit(old(View()), id, a).state && Valid()
      ensures r.Fail? ==> r.error == Commit(old(View()), id, a).error != NoError
      ensures r.Ok? ==> Commit(old(View()), id, a).error == NoError && id in reservations && r.value == reservations[id]
    {
      hide Inv, Acceptable, Transfer;
      CommitKeeps(View(), id, a);
      var ok := AcceptAuthority(a);
      if !ok { return Fail(StaleAuthority); }
      if id !in reservations { return Fail(NotFound); }
      var res := reservations[id];
      if !res.state.Reserved? { return Fail(InvalidTransition); }
      var fault := CheckBindings(res);
      if fault != NoError { return Fail(fault); }
      fault := CheckHolder(res, a);
      if fault != NoError { return Fail(fault); }
      BoundRegion(View(), res);
      fault := CheckFreshness(res);
      if fault != NoError { return Fail(fault); }
      hide BindingFault, HolderFault, FreshnessFault;
      var rr := regions[res.region];
      if rr.ledger.reserved < res.bytes { return Fail(CapacityInsufficient); }
      var m := Transfer(rr.ledger, Bucket.Reserved, Bucket.Committed, res.bytes);
      regions := regions[res.region := rr.(ledger := m.ledger)];
      if !m.ok { return Fail(Internal); }
      reservations := reservations[id := res.(state := ReservationState.Committed)];
      return Ok(reservations[id]);
    }

    /** Revalidate every generation a reservation is bound to. */
    method CheckBindings(res: Reservation) returns (fault: ErrorCode)
      ensures fault == NoError <==> GenerationsCurrent(View(), res) && res.epoch == epoch
      ensures fault == WrongEpoch <==> GenerationsCurrent(View(), res) && res.epoch != epoch
      ensures fault == WrongGeneration <==> !GenerationsCurrent(View(), res)
    {
      if res.region !in regions { return WrongGeneration; }
      if regions[res.region].descriptor.generation != res.regionGeneration { return WrongGeneration; }
      if res.provider !in providers { return WrongGeneration; }
      if providers[res.provider].descriptor.generation != res.providerGeneration { return WrongGeneration; }
      if res.policy != NULL {
        if res.policy !in policies { return WrongGeneration; }
        if policies[res.policy].generation != res.policyGeneration { return WrongGeneration; }
      }
      if res.pool != NULL {
        if res.pool !in pools { return WrongGeneration; }
        if pools[res.pool].generation != res.poolGeneration { return WrongGeneration; }
      }
      if res.epoch != epoch { return WrongEpoch; }
      return NoError;
    }

    method CheckHolder(res: Reservation, a: Authority) returns (fault: ErrorCode)
      ensures fault == HolderFault(View(), res, a)
    {
      if res.worker != NULL {
        if res.worker !in workers || !workers[res.worker].alive || workers[res.worker].boot != res.boot { return StaleAuthority; }
        if a.worker != res.worker || a.boot != res.boot { return StaleAuthority; }
      } else if a.worker != NULL {
        return StaleAuthority;
      }
      return NoError;
    }

    method CheckFreshness(res: Reservation) returns (fault: ErrorCode)
      requires res.region in regions
      ensures fault == FreshnessFault(View(), res)
    {
      var rr := regions[res.region];
      if res.consumerGeneration != NULL {
        if res.consumer in consumers && consumers[res.consumer] != res.consumerGeneration { return WrongGeneration; }
      }
      if !rr.evidenceStatus.Current? || (rr.hasEvidence && rr.latest.header.generation != res.evidenceGeneration) {
        return StaleEvidence;
      }
      if rr.lifecycle.Draining? || rr.lifecycle.Unavailable? || rr.lifecycle.RevalidationRequired? || rr.lifecycle.Retired? {
        return NeedsRevalidation;
      }
      return NoError;
    }

    method ReleaseReservation(id: ReservationId, a: Authority) returns (error: ErrorCode)
      requires Valid()
      modifies this
      ensures Step(View(), error) == Release(old(View()), id, a) && Valid()
    {
      hide Inv, Acceptable, Transfer;
      ReleaseKeeps(View(), id, a);
      var ok := AcceptAuthority(a);
      if !ok { return StaleAuthority; }
      if id !in reservations { return NotFound; }
      var res := reservations[id];
      if !Live(res) { return InvalidTransition; }
      if res.region !in regions { return WrongGeneration; }
      var rr := regions[res.region];
      if rr.descriptor.generation != res.regionGeneration { return WrongGeneration; }
      if res.epoch != epoch { return WrongEpoch; }
      var m := if res.state.Reserved? then Transfer(rr.ledger, Bucket.Reserved, Free, res.bytes)
               else Transfer(rr.ledger, Bucket.Committed, Free, res.bytes);
      regions := regions[res.region := rr.(ledger := m.ledger)];
      if !m.ok { return Internal; }
      reservations := reservations[id := res.(state := Released)];
      return NoError;
    }
  }

  // ---- Single records ----

  method SuspendRecord(rr: RegionRecord) returns (out: RegionRecord)
    ensures out == Suspend(rr)
  {
    out := rr;
    if rr.hasEvidence { out := out.(evidenceStatus := EvidenceStatus.RevalidationRequired); }
    if !rr.lifecycle.Retired? && !rr.lifecycle.Draining? && !rr.lifecycle.Unavailable? {
      out := out.(lifecycle := RegionLifecycle.RevalidationRequired);
    }
  }

  method ForgetRecord(rr: RegionRecord) returns (out: RegionRecord)
    ensures out == Forget(rr)
  {
    out := rr;
    if !rr.lifecycle.Retired? { out := out.(lifecycle := RegionLifecycle.RevalidationRequired); }
    out := out.(hasEvidence := false);
    out := out.(evidenceStatus := EvidenceStatus.Unknown);
  }

  method RecordEvidence(rr: RegionRecord, l: Ledger, e: RegionEvidence) returns (out: RegionRecord)
    ensures out == TakeEvidence(rr, l, e)
  {
    out := rr.(ledger := l);
    out := out.(latest := e, hasEvidence := true);
    out := out.(evidenceStatus := EvidenceStatus.Current);
    out := out.(health := e.health, reachable := e.reachable);
    out := out.(latencyNs := e.latencyNs, bandwidthBytesPerSec := e.bandwidthBytesPerSec);
  }

  lemma {:induction false} WithoutSnoc(members: seq<PoolMember>, m: PoolMember, region: RegionId)
    ensures Without(members + [m], region) == Without(members, region) + if m.region == region then [] else [m]
  {
    if members == [] {
      assert members + [m] == [m] && [m][1..] == [];
    } else {
      assert (members + [m])[1..] == members[1..] + [m];
      WithoutSnoc(members[1..], m, region);
    }
  }

  /** Erase every entry for a region, keeping the others in order. */
  method EraseMember(members: seq<PoolMember>, region: RegionId) returns (kept: seq<PoolMember>)
    ensures kept == Without(members, region)
  {
    kept := [];
    for i := 0 to |members|
      invariant kept == Without(members[..i], region)
    {
      assert members[..i + 1] == members[..i] + [members[i]];
      WithoutSnoc(members[..i], members[i], region);
      if members[i].region != region { kept := kept + [members[i]]; }
    }
    assert members[..|members|] == members;
  }

  // ---- Small facts the methods use ----

  lemma {:induction false} FirstAt(members: seq<PoolMember>, region: RegionId, i: nat)
    requires i < |members| && members[i].region == region && forall j :: 0 <= j < i ==> members[j].region != region
    ensures FirstOf(members, region) == i
  {
    if i > 0 { FirstAt(members[1..], region, i - 1); }
  }

  lemma FirstIs(members: seq<PoolMember>, region: RegionId)
    ensures FirstOf(members, region) < |members| ==> exists i :: 0 <= i < |members| && members[i].region == region
  {
  }

  lemma {:induction false} PutAt(atts: seq<AttachmentEvidence>, e: AttachmentEvidence, i: nat)
    requires i <= |atts| && (forall j :: 0 <= j < i ==> atts[j].id != e.id) && (i < |atts| ==> atts[i].id == e.id)
    ensures PutAttachment(atts, e) == if i < |atts| then atts[i := e] else atts + [e]
  {
    if i > 0 {
      PutAt(atts[1..], e, i - 1);
      var rest := PutAttachment(atts[1..], e);
      assert PutAttachment(atts, e) == [atts[0]] + rest;
    }
  }

  /** Replace the attachment with the same id, or append. */
  method ReplaceOrAppend(atts: seq<AttachmentEvidence>, e: AttachmentEvidence) returns (out: seq<AttachmentEvidence>)
    ensures out == PutAttachment(atts, e)
  {
    hide PutAttachment;
    for i := 0 to |atts|
      invariant forall j :: 0 <= j < i ==> atts[j].id != e.id
    {
      if atts[i].id == e.id {
        PutAt(atts, e, i);
        return atts[i := e];
      }
    }
    PutAt(atts, e, |atts|);
    return atts + [e];
  }

  lemma EmptiedAccounted(s: State, region: RegionId)
    requires Inv(s) && region in s.regions
    ensures var rr := s.regions[region];
            Accounted(WithRegion(s, region, rr.(ledger := Transfer(rr.ledger, Free, Bucket.Unavailable, rr.ledger.free).ledger)))
  {
    InvAccounted(s);
    hide Inv;
    var l := s.regions[region].ledger;
    assert LedgerFits(s.reservations, region, s.regions[region]);
    TransferFromClosed(l, Free, Bucket.Unavailable, l.free);
    hide Transfer;
  }

  lemma PutTwice(regions: map<RegionId, RegionRecord>, rid: RegionId, first: RegionRecord, second: RegionRecord)
    ensures regions[rid := first][rid := second] == regions[rid := second]
  {
  }

  lemma RecordedIfAccepted(s: State, e: RegionEvidence, a: Authority)
    requires Inv(s)
    ensures PublishEvidence(s, e, a).error == NoError ==> Service.Published(s, PublishEvidence(s, e, a).state, e)
  {
    hide Inv, PublishEvidence, Service.Published;
    if PublishEvidence(s, e, a).error == NoError { Service.EvidenceRecorded(s, e, a); }
  }

  lemma EvidenceRegion(s: State, e: RegionEvidence, a: Authority)
    requires EvidenceFault(s, e, a) == NoError
    ensures e.header.region in s.regions
  {
  }

  lemma SmallMint(n: nat)
    requires n <= U64_MAX
    ensures Mint(n) == n
  {
  }

  lemma SameOfRegion(s: State, t: State, region: RegionId)
    requires t.reservations == s.reservations
    ensures OfRegion(t, region) == OfRegion(s, region)
  {
  }

  lemma VouchedSame(s: State, t: State, w: WorkerId, boot: BootId)
    requires t.regions == s.regions
    ensures Vouched(t, w, boot) == Vouched(s, w, boot)
  {
  }

  lemma BoundRegion(s: State, r: Reservation)
    requires BindingFault(s, r) == NoError
    ensures r.region in s.regions
  {
  }
}
