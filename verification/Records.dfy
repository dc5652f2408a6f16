/** The mutable records of the control plane and the whole state one coordinator holds. */
module Records {
  import opened Words
  import opened Types
  import opened Ledgers
  import opened Sums

  datatype ProviderRecord = ProviderRecord(descriptor: ProviderDescriptor, lifecycle: Lifecycle)

  datatype DomainRecord = DomainRecord(descriptor: DomainDescriptor, lifecycle: Lifecycle)

  /**
   A governed region. `memberships` is the reverse index of the pools it belongs to; the program
   keeps it as a list but only ever tests membership and erases all entries of one pool.
   */
  datatype RegionRecord = RegionRecord(
    descriptor: RegionDescriptor, lifecycle: RegionLifecycle, ledger: Ledger,
    latest: RegionEvidence, hasEvidence: bool, evidenceStatus: EvidenceStatus,
    health: HealthState, reachable: bool, latencyNs: U64, bandwidthBytesPerSec: U64,
    attachments: seq<AttachmentEvidence>, memberships: set<(PoolId, Generation)>)

  datatype WorkerRecord = WorkerRecord(
    boot: BootId, registeredEpoch: Epoch, pid: U64, alive: bool, holdsHandle: bool)

  /** `nextSelection` and `nextReservation` are the id allocators (ids and generations in lockstep). */
  datatype State = State(
    epoch: Epoch,
    providers: map<ProviderId, ProviderRecord>,
    domains: map<DomainId, DomainRecord>,
    regions: map<RegionId, RegionRecord>,
    pools: map<PoolId, PoolDescriptor>,
    policies: map<PolicyId, PolicyDescriptor>,
    consumers: map<ConsumerId, Generation>,
    reservations: map<ReservationId, Reservation>,
    workers: map<WorkerId, WorkerRecord>,
    nextSelection: nat,
    nextReservation: nat)

  const NO_HEADER: EvidenceHeader := EvidenceHeader(0, 0, 0, 0, 0, 0, 0, 0, 0, 0, 0, [], 0)
  const NO_EVIDENCE: RegionEvidence := RegionEvidence(NO_HEADER, 0, false, 0, 0, 0, 0, 0, 0)

  function FreshRegion(d: RegionDescriptor, lifecycle: RegionLifecycle): RegionRecord {
    RegionRecord(d, lifecycle, Empty(d.totalCapacityBytes), NO_EVIDENCE, false, EvidenceStatus.Unknown,
                 HEALTH_UNKNOWN, false, 0, 0, [], {})
  }

  function Initial(epoch: Epoch): State {
    State(epoch, map[], map[], map[], map[], map[], map[], map[], map[], 1, 1)
  }

  /** The id an allocator hands out for a counter value, which is a 64-bit atomic. */
  function Mint(counter: nat): U64 { counter % (U64_MAX + 1) }

  /** Everything but the id allocators: what an operation that reports an error must not change. */
  predicate SameMaps(s: State, t: State) {
    s == t.(nextSelection := s.nextSelection, nextReservation := s.nextReservation)
  }

  // ---- Reservations that hold capacity ----

  predicate Live(r: Reservation) { r.state.Reserved? || r.state.Committed? || r.state.Active? }

  /** What a reservation holds of a region in the reserved or in the committed bucket. */
  function Weight(r: Reservation, region: RegionId, bucket: Bucket): nat {
    if r.region == region && (if bucket.Reserved? then r.state.Reserved? else r.state.Committed? || r.state.Active?)
    then r.bytes else 0
  }

  ghost function Weights(rs: map<ReservationId, Reservation>, region: RegionId, bucket: Bucket): map<ReservationId, nat> {
    map id | id in rs :: Weight(rs[id], region, bucket)
  }

  /** The bytes a region's reservations hold in the reserved (or committed) bucket. */
  ghost function Held(rs: map<ReservationId, Reservation>, region: RegionId, bucket: Bucket): nat {
    Sum(Weights(rs, region, bucket))
  }

  lemma HeldAfterPut(rs: map<ReservationId, Reservation>, id: ReservationId, r: Reservation,
                     region: RegionId, bucket: Bucket)
    ensures Held(rs[id := r], region, bucket) + (if id in rs then Weight(rs[id], region, bucket) else 0)
         == Held(rs, region, bucket) + Weight(r, region, bucket)
  {
    var w := Weights(rs, region, bucket);
    assert Weights(rs[id := r], region, bucket) == w[id := Weight(r, region, bucket)];
    SumUpdate(w, id, Weight(r, region, bucket));
  }

  lemma HeldAtLeast(rs: map<ReservationId, Reservation>, id: ReservationId, bucket: Bucket)
    requires id in rs
    ensures Weight(rs[id], rs[id].region, bucket) <= Held(rs, rs[id].region, bucket)
  {
    SumAtLeast(Weights(rs, rs[id].region, bucket), id);
  }

  // ---- Withdrawing reservations in bulk ----

  /** Why reservations lose their capacity: fenced one by one, an epoch advance, or a drain. */
  datatype Cause = Fencing | EpochAdvance | DrainStart

  function Withdrawn(state: ReservationState, cause: Cause): ReservationState {
    match cause
    case Fencing =>
      if state.Reserved? then Fenced
      else if state.Committed? || state.Active? then ReservationState.RevalidationRequired
      else if state.Requested? || state.Evaluated? then Cancelled
      else state
    case EpochAdvance =>
      if state.Reserved? || state.Committed? || state.Active? then ReservationState.RevalidationRequired
      else if state.Requested? || state.Evaluated? then Cancelled
      else state
    case DrainStart =>
      if state.Reserved? then Cancelled else state
  }

  function WithdrawOne(r: Reservation, cause: Cause): Reservation { r.(state := Withdrawn(r.state, cause)) }

  function WithdrawAll(rs: map<ReservationId, Reservation>, ids: set<ReservationId>, cause: Cause)
    : map<ReservationId, Reservation>
  {
    map id | id in rs :: if id in ids then WithdrawOne(rs[id], cause) else rs[id]
  }

  /**
   The ledger that a reservation table demands: the reserved and committed buckets hold exactly the
   given sums, and what they lost is in the free bucket (drain) or the unavailable one (fencing).
   */
  function Rebalance(l: Ledger, reserved: int, committed: int, cause: Cause): Ledger {
    var withdrawn := (l.reserved - reserved) + (l.committed - committed);
    l.(reserved := reserved, committed := committed)
     .Add(if cause.DrainStart? then Free else Bucket.Unavailable, withdrawn)
  }

  ghost function Settle(regions: map<RegionId, RegionRecord>, rs: map<ReservationId, Reservation>, cause: Cause)
    : map<RegionId, RegionRecord>
  {
    map rid | rid in regions :: regions[rid].(
      ledger := Rebalance(regions[rid].ledger, Held(rs, rid, Bucket.Reserved), Held(rs, rid, Bucket.Committed), cause))
  }

  /** Withdraw the given reservations and settle every region's ledger accordingly. */
  ghost function Withdraw(s: State, ids: set<ReservationId>, cause: Cause): State {
    var rs := WithdrawAll(s.reservations, ids, cause);
    s.(reservations := rs, regions := Settle(s.regions, rs, cause))
  }

  /** Withdrawing only lowers what is held. */
  lemma HeldAfterWithdraw(rs: map<ReservationId, Reservation>, ids: set<ReservationId>, cause: Cause,
                          region: RegionId, bucket: Bucket)
    ensures Held(WithdrawAll(rs, ids, cause), region, bucket) <= Held(rs, region, bucket)
  {
    SumMonotone(Weights(WithdrawAll(rs, ids, cause), region, bucket), Weights(rs, region, bucket));
  }

  /** A reservation still live after a withdrawal was not touched by it. */
  lemma LiveUntouched(r: Reservation, cause: Cause)
    requires Live(WithdrawOne(r, cause))
    ensures WithdrawOne(r, cause) == r
  {
  }

  lemma HeldVanishes(rs: map<ReservationId, Reservation>, region: RegionId, bucket: Bucket)
    requires forall id :: id in rs ==> Weight(rs[id], region, bucket) == 0
    ensures Held(rs, region, bucket) == 0
  {
    SumZero(Weights(rs, region, bucket));
  }
}
