/**
 Identities, enumerations, descriptors and records of the control plane.

 An enumeration whose values are cast from unchecked bytes by a decoder is modelled as the byte
 itself with named constants; an enumeration that never leaves the process is a datatype.
 A double is a `real` while it is computed with and an opaque 64-bit pattern on the wire, so the
 records that carry doubles take the number type as a parameter.
 */
module Types {
  import opened Words

  type ProviderId = U64
  type DomainId = U64
  type RegionId = U64
  type PoolId = U64
  type PolicyId = U64
  type ConsumerId = U64
  type ReservationId = U64
  type WorkerId = U64
  type BootId = U64
  type Generation = U64
  type Epoch = U64
  /** The bit pattern of an IEEE double. */
  type Bits = U64

  const NULL: U64 := 0

  // ---- Byte-coded enumerations ----

  type HealthState = U8
  const HEALTH_UNKNOWN: U8 := 0
  const HEALTH_HEALTHY: U8 := 1
  const HEALTH_DEGRADED: U8 := 2
  const HEALTH_FAILED: U8 := 3

  type Locality = U8
  const LOCALITY_UNKNOWN: U8 := 0
  const LOCALITY_LOCAL: U8 := 1
  const LOCALITY_REMOTE: U8 := 2
  const LOCALITY_FABRIC: U8 := 3

  type Persistence = U8
  const PERSISTENCE_PERSISTENT: U8 := 2

  type CapabilityStatus = U8
  const CAPABILITY_SUPPORTED: U8 := 0
  const CAPABILITY_UNSUPPORTED: U8 := 1
  const CAPABILITY_UNKNOWN: U8 := 2

  type CapabilityKey = U8
  const KEY_CPU_ACCESSIBLE: U8 := 0
  const KEY_ACCELERATOR_ACCESSIBLE: U8 := 1
  const KEY_PERSISTENT: U8 := 2
  const KEY_VOLATILE: U8 := 3
  const KEY_BYTE_ADDRESSABLE: U8 := 4
  const KEY_BLOCK_ORIENTED: U8 := 5
  const KEY_DIRECT_ACCESS: U8 := 8
  const KEY_STAGING_REQUIRED: U8 := 9

  type AccessKind = U8
  const ACCESS_DIRECT: U8 := 0
  const ACCESS_STAGED: U8 := 1
  const ACCESS_UNKNOWN: U8 := 3

  type EligibilityReason = U8
  const ELIGIBLE: U8 := 0
  const INSUFFICIENT_CAPACITY: U8 := 1
  const OFFLINE: U8 := 2
  const DEGRADED_NOT_ALLOWED: U8 := 3
  const UNREACHABLE: U8 := 4
  const CAPABILITY_REFUSED: U8 := 5
  const CAPABILITY_UNCERTAIN: U8 := 6
  const INCOMPATIBLE: U8 := 7
  const TOO_REMOTE: U8 := 8
  const LATENCY_LIMIT_EXCEEDED: U8 := 9
  const BANDWIDTH_INSUFFICIENT: U8 := 10
  const PERSISTENCE_REQUIRED: U8 := 11
  const STALE_EVIDENCE: U8 := 12
  const NEEDS_REVALIDATION: U8 := 13
  const POLICY_DENIED: U8 := 16
  const FAILURE_DOMAIN_CONFLICT: U8 := 17

  type SelectionOutcome = U8
  const OUTCOME_EXPANSION: U8 := 0
  const OUTCOME_LOCAL_FALLBACK: U8 := 2
  const OUTCOME_STAGING: U8 := 3
  const OUTCOME_REJECT: U8 := 5
  const OUTCOME_REVALIDATION: U8 := 6

  // ---- In-process enumerations ----

  datatype Lifecycle =
    | Discovered | Registered | Probing | Online | Degraded
    | Draining | Offline | RevalidationRequired | Failed | Retired

  datatype RegionLifecycle =
    | Declared | Online | Degraded | Draining | Unavailable | RevalidationRequired | Retired

  datatype EvidenceStatus = Unknown | Current | RevalidationRequired | Stale

  /** Reservation states also travel on the wire; `Unnamed` is a byte that names none of them. */
  datatype ReservationState =
    | Requested | Evaluated | Reserved | Committed | Active | Released
    | Rejected | Expired | Fenced | RevalidationRequired | Cancelled | Unnamed(code: U8)

  datatype ErrorCode =
    | NoError | InvalidId | NotFound | StaleAuthority | StaleEvidence | NeedsRevalidation
    | WrongGeneration | WrongEpoch | InvalidTransition | InvalidArgument
    | CapacityInsufficient | AlreadyExists | Internal | Corrupt | FrameTooLarge | FrameTruncated

  datatype Result<+T> = Ok(value: T) | Fail(error: ErrorCode)

  // ---- Capabilities ----

  datatype Capability = Capability(key: CapabilityKey, status: CapabilityStatus, note: Bytes)

  predicate DistinctKeys(caps: seq<Capability>) {
    forall i, j :: 0 <= i < j < |caps| ==> caps[i].key != caps[j].key
  }

  /** One status per key, in the order the keys were first set. */
  type CapabilityModel = caps: seq<Capability> | DistinctKeys(caps)

  function GetCapability(caps: seq<Capability>, key: CapabilityKey): CapabilityStatus {
    if caps == [] then CAPABILITY_UNKNOWN
    else if caps[0].key == key then caps[0].status
    else GetCapability(caps[1..], key)
  }

  /** An entry for the key has the status. */
  predicate Says(caps: CapabilityModel, key: CapabilityKey, status: CapabilityStatus) {
    exists c :: c in caps && c.key == key && c.status == status
  }

  // ---- Configured structure ----

  datatype ProviderDescriptor = ProviderDescriptor(
    id: ProviderId, generation: Generation, kind: U8, origin: U8, name: Bytes,
    failureDomain: U64, addressability: U8, persistence: Persistence,
    totalCapacityBytes: U64, alignmentBytes: U64, granularityBytes: U64,
    capabilities: CapabilityModel, requiresHostCopy: bool)

  datatype DomainDescriptor = DomainDescriptor(
    id: DomainId, generation: Generation, name: Bytes, origin: U8, failureDomain: U64)

  datatype RegionDescriptor = RegionDescriptor(
    id: RegionId, generation: Generation, provider: ProviderId, domain: DomainId, name: Bytes,
    totalCapacityBytes: U64, alignmentBytes: U64, granularityBytes: U64,
    origin: U8, persistence: Persistence, staticCapabilities: CapabilityModel)

  datatype PoolMember = PoolMember(region: RegionId, generation: Generation)

  datatype PoolDescriptor = PoolDescriptor(
    id: PoolId, generation: Generation, name: Bytes, origin: U8, members: seq<PoolMember>)

  /** The pool has an entry for the region, at whatever generation. */
  ghost predicate Names(d: PoolDescriptor, rid: RegionId) { exists m :: m in d.members && m.region == rid }

  datatype PolicyRule = PolicyRule(key: Bytes, value: Bytes)

  datatype PolicyDescriptor = PolicyDescriptor(
    id: PolicyId, generation: Generation, name: Bytes, allowDegraded: bool, requireFreshEvidence: bool,
    allowLocalFallback: bool, expansionRequired: bool, rules: seq<PolicyRule>)

  // ---- Observed evidence ----

  datatype EvidenceHeader = EvidenceHeader(
    id: U64, generation: Generation, sourceProvider: ProviderId, sourceProviderGeneration: Generation,
    region: RegionId, regionGeneration: Generation, worker: WorkerId, boot: BootId, epoch: Epoch,
    timestampMs: U64, sequence: U64, provenance: Bytes, confidence: Bits)

  datatype RegionEvidence = RegionEvidence(
    header: EvidenceHeader, health: HealthState, reachable: bool, onlineCapacityBytes: U64,
    latencyNs: U64, bandwidthBytesPerSec: U64, locality: Locality, nodeId: U64, status: U8)

  datatype AttachmentEvidence = AttachmentEvidence(
    id: U64, generation: Generation, region: RegionId, regionGeneration: Generation,
    consumer: ConsumerId, access: AccessKind, epoch: Epoch)

  // ---- Requests, selections, reservations ----

  datatype Requirements<F> = Requirements(
    consumer: ConsumerId, consumerGeneration: Generation, requiredBytes: U64, alignmentBytes: U64,
    cpuAccessible: bool, acceleratorAccessible: bool, directAccessRequired: bool,
    stagingAcceptable: bool, persistent: bool, maxLatencyNs: U64, minBandwidth: U64,
    localityPreference: Locality, allowedKinds: seq<U8>, forbiddenKinds: seq<U8>,
    failureDomainIsolationRequired: bool, forbiddenFailureDomain: U64, freshEvidenceRequired: bool,
    allowDegraded: bool, allowLocalFallback: bool, expansionRequired: bool, allowStaging: bool,
    policy: PolicyId, preferredPool: PoolId, reserveHeadroomFactor: F)

  datatype RankingFactor<F> = RankingFactor(name: Bytes, raw: F, normalized: F, weight: F)

  datatype RankedCandidate<F> = RankedCandidate(
    region: RegionId, provider: ProviderId, pool: PoolId, bytes: U64, score: F,
    factors: seq<RankingFactor<F>>)

  datatype CandidateAssessment<F> = CandidateAssessment(
    region: RegionId, provider: ProviderId, pool: PoolId, reason: EligibilityReason, score: F)

  datatype SelectionResult<F> = SelectionResult(
    id: U64, generation: Generation, outcome: SelectionOutcome, tieBreakRule: Bytes,
    ranked: seq<RankedCandidate<F>>, rejected: seq<CandidateAssessment<F>>)

  datatype Reservation = Reservation(
    id: ReservationId, generation: Generation, consumer: ConsumerId, consumerGeneration: Generation,
    provider: ProviderId, providerGeneration: Generation, region: RegionId, regionGeneration: Generation,
    pool: PoolId, poolGeneration: Generation, policy: PolicyId, policyGeneration: Generation,
    selection: U64, selectionGeneration: Generation, evidenceGeneration: Generation,
    worker: WorkerId, boot: BootId, epoch: Epoch, bytes: U64, state: ReservationState,
    createdAtMs: U64, expiresAtMs: U64, note: Bytes)

  datatype Authority = Authority(epoch: Epoch, worker: WorkerId, boot: BootId)
}
