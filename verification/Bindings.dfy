/**
 What a granted reservation is bound to, field by field, and that the bindings fence: once structure the
 request named has come back at a new generation, the reservation is never live again.
 */
module Bindings {
  import opened Words
  import opened Types
  import opened Ledgers
  import opened Records
  import opened Operations
  import opened Invariants
  import opened Preservation
  import Guarantees
  import Progress
  import Selection

  // ---- The reservation a request is granted ----

  /** Who holds it, for what, and under whose authority: as asked. */
  predicate AsRequested(r: Reservation, req: Request, a: Authority, now: U64) {
    && r.consumer == req.consumer && r.consumerGeneration == req.consumerGeneration
    && r.policy == req.policy && r.pool == req.preferredPool && r.bytes == req.requiredBytes
    && r.worker == a.worker && r.boot == a.boot && r.epoch == a.epoch
    && r.createdAtMs == now && r.expiresAtMs == 0 && r.note == [] && r.state.Reserved?
  }

  /** Region, provider, pool, policy and evidence at the generations they have in the state. */
  predicate AtCurrentGenerations(s: State, r: Reservation) {
    && r.region in s.regions
    && r.regionGeneration == s.regions[r.region].descriptor.generation
    && r.provider == s.regions[r.region].descriptor.provider && r.provider in s.providers
    && r.providerGeneration == s.providers[r.provider].descriptor.generation
    && (if r.policy == NULL then r.policyGeneration == NULL
        else r.policy in s.policies && r.policyGeneration == s.policies[r.policy].generation)
    && (if r.pool == NULL then r.poolGeneration == NULL
        else r.pool in s.pools && r.poolGeneration == s.pools[r.pool].generation)
    && s.regions[r.region].hasEvidence && r.evidenceGeneration == s.regions[r.region].latest.header.generation
  }

  /** The request's bytes moved from free to reserved on one region; no other table entry differs. */
  predicate Grants(s: State, t: State, r: Reservation) {
    && r.id !in s.reservations && r.region in s.regions
    && t.reservations.Keys == s.reservations.Keys + {r.id} && t.reservations[r.id] == r
    && (forall id :: id in s.reservations ==> t.reservations[id] == s.reservations[id])
    && t.regions.Keys == s.regions.Keys
    && (forall rid :: rid in s.regions && rid != r.region ==> t.regions[rid] == s.regions[rid])
    && t.regions[r.region] == s.regions[r.region].(ledger := t.regions[r.region].ledger)
    && t.regions[r.region].ledger
       == s.regions[r.region].ledger.(free := s.regions[r.region].ledger.free - r.bytes,
                                      reserved := s.regions[r.region].ledger.reserved + r.bytes)
    && t.epoch == s.epoch && t.providers == s.providers && t.domains == s.domains && t.pools == s.pools
    && t.policies == s.policies && t.consumers == s.consumers && t.workers == s.workers
  }

  lemma GrantedOn(s: State, req: Request, a: Authority, now: U64, rid: RegionId)
    requires rid in s.regions && s.regions[rid].ledger.Closed() && req.requiredBytes <= s.regions[rid].ledger.free
    requires Mint(s.nextReservation) == s.nextReservation && s.nextReservation !in s.reservations
    ensures var step, r := ReserveOn(s, req, a, now, rid), Bind(s, req, a, now, rid);
            && step.error == NoError && Grants(s, step.state, r)
            && r.id == r.generation == s.nextReservation && r.region == rid && AsRequested(r, req, a, now)
            && r.selection == r.selectionGeneration == Mint(s.nextSelection)
            && step.state.nextReservation == s.nextReservation + 1 && step.state.nextSelection == s.nextSelection + 1
  {
    ReserveShape(s, req, a, now, rid);
    Guarantees.ReservedLedger(s.regions[rid].ledger, req.requiredBytes);
    hide Transfer, Mint, ReserveOn;
  }

  lemma CandidatePool(s: State, req: Request, rid: RegionId)
    requires Inv(s) && Selection.IsCandidate(s, req, rid) && req.preferredPool != NULL
    ensures req.preferredPool in s.pools
  {
    Selection.CandidateFacts(s, req, rid);
    hide Selection.IsCandidate, LedgerFits, EvidenceFits;
    assert RegionOk(s, rid);
    var m :| m in s.regions[rid].memberships && m.0 == req.preferredPool;
  }

  lemma BoundAtCurrent(s: State, req: Request, a: Authority, now: U64, rid: RegionId)
    requires Inv(s) && Selection.IsCandidate(s, req, rid)
    ensures rid in s.regions && AtCurrentGenerations(s, Bind(s, req, a, now, rid))
  {
    Selection.CandidateFacts(s, req, rid);
    if req.preferredPool != NULL { CandidatePool(s, req, rid); }
    hide Selection.IsCandidate, Inv, Mint;
  }

  /**
   A request succeeds exactly when the authority is acceptable, size and consumer are named, and something is
   ranked. Then the one new reservation is on the region ranked first, holds what was asked for whom it was asked,
   and is bound to everything at its current generation.
   */
  lemma GrantedAsRequested(s: State, req: Request, a: Authority, now: U64)
    requires Inv(s) && s.nextReservation <= U64_MAX
    ensures Reserve(s, req, a, now).error == NoError
       <==> && Acceptable(s, a) && req.requiredBytes > 0 && req.consumer != NULL && req.consumerGeneration != NULL
            && Selection.RankedIds(s, req) != []
    ensures Reserve(s, req, a, now).error == NoError ==>
              var t := Reserve(s, req, a, now).state;
              && s.nextReservation in t.reservations
              && var r := t.reservations[s.nextReservation];
                 && Grants(s, t, r) && r.id == r.generation == s.nextReservation && r.region == Selection.RankedIds(s, req)[0]
                 && AsRequested(r, req, a, now) && AtCurrentGenerations(s, r)
                 && r.selection == r.selectionGeneration == Mint(s.nextSelection)
                 && t.nextReservation == s.nextReservation + 1 && t.nextSelection == s.nextSelection + 1
  {
    hide Selection.IsCandidate, Selection.RankedIds, Inv, Reserve, Mint, Acceptable, AsRequested, AtCurrentGenerations;
    hide Grants, ReserveOn;
    ReserveGate(s, req, a);
    if ReserveFault(s, req, a) == NoError && Selection.RankedIds(s, req) != [] {
      var rid := Selection.RankedIds(s, req)[0];
      TopIsCandidate(s, req);
      Guarantees.RoomOnCandidate(s, req, rid);
      ClosedLedger(s, rid);
      FreshMint(s);
      GrantedOn(s, req, a, now, rid);
      BoundAtCurrent(s, req, a, now, rid);
      Guarantees.ReserveCarriesOver(s, req, a, now);
      GrantedEntry(s, ReserveOn(s, req, a, now, rid).state, Bind(s, req, a, now, rid));
    } else {
      ReserveDenied(s, req, a, now);
    }
  }

  lemma GrantedEntry(s: State, t: State, r: Reservation)
    requires Grants(s, t, r)
    ensures r.id in t.reservations && t.reservations[r.id] == r
  {
  }

  lemma ReserveGate(s: State, req: Request, a: Authority)
    ensures ReserveFault(s, req, a) == NoError
       <==> Acceptable(s, a) && req.requiredBytes > 0 && req.consumer != NULL && req.consumerGeneration != NULL
  {
    hide Acceptable;
  }

  lemma ReserveDenied(s: State, req: Request, a: Authority, now: U64)
    requires ReserveFault(s, req, a) != NoError || Selection.RankedIds(s, req) == []
    ensures Reserve(s, req, a, now).error != NoError
  {
    hide ReserveFault, Selection.RankedIds, ReserveOn;
  }

  // ---- What ends it ----

  /** The call brings something the reservation is bound to back at another generation. */
  ghost predicate Supersedes(s: State, op: Op, r: Reservation) {
    Apply(s, op).error == NoError &&
    match op
    case OpRegisterPool(d, _) => r.pool != NULL && d.id == r.pool
    case OpRegisterPolicy(d, _) => r.policy != NULL && d.id == r.policy
    case OpRegisterRegion(d, _) => d.id == r.region
    case OpRegisterProvider(d, _) => d.id == r.provider
    case OpSetEpoch(e) => e > s.epoch
    case _ => false
  }

  /** What was bound when granted is bound at no higher generation than what is current any time later. */
  predicate BoundBefore(s: State, r: Reservation) {
    && r.epoch <= s.epoch
    && r.region in s.regions && r.regionGeneration <= s.regions[r.region].descriptor.generation
    && r.provider in s.providers && r.providerGeneration <= s.providers[r.provider].descriptor.generation
    && (r.policy != NULL ==> r.policy in s.policies && r.policyGeneration <= s.policies[r.policy].generation)
    && (r.pool != NULL ==> r.pool in s.pools && r.poolGeneration <= s.pools[r.pool].generation)
  }

  /** Some of it is behind, for good. */
  predicate Superseded(s: State, r: Reservation) {
    || r.epoch < s.epoch
    || (r.region in s.regions && r.regionGeneration < s.regions[r.region].descriptor.generation)
    || (r.provider in s.providers && r.providerGeneration < s.providers[r.provider].descriptor.generation)
    || (r.policy != NULL && r.policy in s.policies && r.policyGeneration < s.policies[r.policy].generation)
    || (r.pool != NULL && r.pool in s.pools && r.poolGeneration < s.pools[r.pool].generation)
  }

  lemma StaysBehind(s: State, t: State, r: Reservation)
    requires Progress.Forward(s, t)
    ensures BoundBefore(s, r) ==> BoundBefore(t, r)
    ensures Superseded(s, r) ==> Superseded(t, r)
  {
    hide Progress.Evolves, Progress.ConsumersAdvance;
    if r.region in s.regions { assert Progress.RegionAdvances(s.regions[r.region], t.regions[r.region]); }
    if r.provider in s.providers { assert Progress.ProviderAdvances(s.providers[r.provider], t.providers[r.provider]); }
  }

  lemma SupersededIsOver(s: State, id: ReservationId)
    requires Inv(s) && id in s.reservations && Superseded(s, s.reservations[id])
    ensures !Live(s.reservations[id])
  {
    assert ReservationOk(s, id);
  }

  lemma NewerGeneration(s: State, op: Op, r: Reservation)
    requires BoundBefore(s, r) && Supersedes(s, op, r)
    ensures Superseded(Apply(s, op).state, r)
  {
    hide Acceptable, Contradictory, Withdraw, ForgetBacked, SuspendAll, Dismiss, FreshRegion;
    hide PublishEvidence, PublishAttachment, BeginDrain, CompleteDrain, CancelDrain, MarkUnavailable, RecoverRegion;
    hide RetireProvider, RetireRegion, RegisterWorker, MarkWorkerDead, NoteWorkerHandle, Select, Reserve, Commit, Release;
    hide AddPoolMember, RemovePoolMember, RegisterConsumer, RegisterDomain;
    if op.OpRegisterRegion? { FreshGeneration(op.descriptor); }
  }

  lemma FreshGeneration(d: RegionDescriptor)
    ensures FreshRegion(d, RegionLifecycle.Declared).descriptor == d
  {
  }

  /** Same bindings, whatever the state it is in now. */
  lemma SameBindings(s: State, r: Reservation, r': Reservation)
    requires r' == r.(state := r'.state)
    ensures BoundBefore(s, r) <==> BoundBefore(s, r')
    ensures Superseded(s, r) <==> Superseded(s, r')
  {
  }

  /**
   After a granted request, whatever is called next, an accepted re-registration of the pool or policy it named, of
   its region or of the provider behind it, or an advance of the epoch, ends the reservation for the rest of any run.
   */
  lemma SupersededForGood(s: State, req: Request, a: Authority, now: U64, ops: seq<Op>, op: Op, later: seq<Op>)
    requires Inv(s) && s.nextReservation + |ops| + |later| + 1 <= U64_MAX
    requires Reserve(s, req, a, now).error == NoError
    ensures var granted := Reserve(s, req, a, now).state;
            s.nextReservation in granted.reservations &&
            var r := granted.reservations[s.nextReservation];
            Supersedes(Run(granted, ops), op, r) ==>
              var t := Run(Apply(Run(granted, ops), op).state, later);
              s.nextReservation in t.reservations && !Live(t.reservations[s.nextReservation])
  {
    hide Inv, Reserve, Run, Apply, Supersedes, AtCurrentGenerations, AsRequested, Grants, BoundBefore, Superseded, Acceptable;
    hide Progress.Forward, Selection.RankedIds, Live;
    var id, granted := s.nextReservation, Reserve(s, req, a, now).state;
    GrantedAsRequested(s, req, a, now);
    var r := granted.reservations[id];
    GrantedBound(s, granted, r, req, a, now);
    ReserveKeeps(s, req, a, now);
    var u := Run(granted, ops);
    RunKeeps(granted, ops);
    RunCounts(granted, ops);
    Progress.RunForward(granted, ops);
    StaysBehind(granted, u, r);
    if Supersedes(u, op, r) {
      NewerGeneration(u, op, r);
      StepKeeps(u, op);
      Progress.StepForward(u, op);
      var v := Apply(u, op).state;
      RunKeeps(v, later);
      Progress.RunForward(v, later);
      var t := Run(v, later);
      StaysBehind(v, t, r);
      Kept(granted, u, id);
      Kept(u, v, id);
      Kept(v, t, id);
      SameBindings(t, r, t.reservations[id]);
      SupersededIsOver(t, id);
    }
  }

  lemma GrantedBound(s: State, t: State, r: Reservation, req: Request, a: Authority, now: U64)
    requires Grants(s, t, r) && AsRequested(r, req, a, now) && AtCurrentGenerations(s, r) && Acceptable(s, a)
    ensures BoundBefore(t, r)
  {
    hide Acceptable;
    assert a.epoch == s.epoch by { AcceptableEpoch(s, a); }
  }

  lemma AcceptableEpoch(s: State, a: Authority)
    requires Acceptable(s, a)
    ensures a.epoch == s.epoch
  {
  }

  lemma Kept(s: State, t: State, id: ReservationId)
    requires Progress.Forward(s, t) && id in s.reservations
    ensures id in t.reservations && t.reservations[id] == s.reservations[id].(state := t.reservations[id].state)
  {
    assert Progress.Successor(s.reservations[id], t.reservations[id]);
  }

  lemma {:induction false} RunCounts(s: State, ops: seq<Op>)
    requires Inv(s) && s.nextReservation + |ops| <= U64_MAX + 1
    ensures Run(s, ops).nextReservation <= s.nextReservation + |ops|
    decreases |ops|
  {
    hide Inv, Apply;
    if ops != [] {
      StepKeeps(s, ops[0]);
      RunCounts(Apply(s, ops[0]).state, ops[1..]);
    }
  }
}
