/** Hard eligibility, the weighted score, and the ranking as functions of the state. */
module Selection {
  import opened Words
  import opened Types
  import opened Records
  import opened Ranking

  /** Exact non-negative reals stand for the headroom factor. */
  type Headroom = h: real | h >= 0.0
  type Request = Requirements<Headroom>

  // ---- Hard eligibility ----

  function AllowDegraded(s: State, req: Request): bool {
    req.allowDegraded || (req.policy != NULL && req.policy in s.policies && s.policies[req.policy].allowDegraded)
  }

  /** The first refusal in order, or the verdict of the later gate. */
  function Then(first: EligibilityReason, later: EligibilityReason): EligibilityReason {
    if first != ELIGIBLE then first else later
  }

  function LifecycleGate(pr: ProviderRecord, rr: RegionRecord, allowDegraded: bool): EligibilityReason {
    if pr.lifecycle.Retired? || pr.lifecycle.Failed? then OFFLINE
    else if rr.lifecycle.Retired? then OFFLINE
    else if rr.lifecycle.Draining? then DEGRADED_NOT_ALLOWED
    else if rr.lifecycle.Degraded? && !allowDegraded then DEGRADED_NOT_ALLOWED
    else if !rr.lifecycle.Online? && !rr.lifecycle.Degraded? then NEEDS_REVALIDATION
    else ELIGIBLE
  }

  function EvidenceGate(rr: RegionRecord, allowDegraded: bool): EligibilityReason {
    if !rr.hasEvidence then STALE_EVIDENCE
    else if !rr.evidenceStatus.Current? then STALE_EVIDENCE
    else if rr.health == HEALTH_FAILED then NEEDS_REVALIDATION
    else if rr.health == HEALTH_DEGRADED && !allowDegraded then DEGRADED_NOT_ALLOWED
    else if !rr.reachable then UNREACHABLE
    else ELIGIBLE
  }

  /** A required capability must be SUPPORTED by the provider, or by the region where the provider is silent. */
  function CapabilityGate(required: bool, p: ProviderDescriptor, r: RegionDescriptor, key: CapabilityKey)
    : EligibilityReason
  {
    var own := GetCapability(p.capabilities, key);
    var status := if own == CAPABILITY_UNKNOWN then GetCapability(r.staticCapabilities, key) else own;
    if !required || status == CAPABILITY_SUPPORTED then ELIGIBLE
    else if status == CAPABILITY_UNSUPPORTED then CAPABILITY_REFUSED
    else CAPABILITY_UNCERTAIN
  }

  function ShapeGate(req: Request, p: ProviderDescriptor, rr: RegionRecord): EligibilityReason {
    if req.persistent && p.persistence != PERSISTENCE_PERSISTENT then PERSISTENCE_REQUIRED
    else if req.alignmentBytes > rr.descriptor.alignmentBytes then INCOMPATIBLE
    else if req.requiredBytes != 0 && rr.descriptor.granularityBytes != 0
         && req.requiredBytes > rr.descriptor.granularityBytes
         && Remainder(req.requiredBytes, rr.descriptor.granularityBytes) != 0 then INCOMPATIBLE
    else if req.maxLatencyNs > 0 && (rr.latencyNs == 0 || rr.latencyNs > req.maxLatencyNs) then LATENCY_LIMIT_EXCEEDED
    else if req.minBandwidth > 0 && (rr.bandwidthBytesPerSec == 0 || rr.bandwidthBytesPerSec < req.minBandwidth)
      then BANDWIDTH_INSUFFICIENT
    else if req.allowedKinds != [] && p.kind !in req.allowedKinds then INCOMPATIBLE
    else if p.kind in req.forbiddenKinds then INCOMPATIBLE
    else ELIGIBLE
  }

  function LocalityGate(wanted: Locality, found: Locality): EligibilityReason {
    if wanted == LOCALITY_LOCAL && found != LOCALITY_LOCAL then TOO_REMOTE
    else if wanted == LOCALITY_REMOTE && (found == LOCALITY_LOCAL || found == LOCALITY_UNKNOWN) then TOO_REMOTE
    else if wanted == LOCALITY_FABRIC && found != LOCALITY_FABRIC then TOO_REMOTE
    else ELIGIBLE
  }

  function PolicyGate(s: State, req: Request, p: ProviderDescriptor): EligibilityReason {
    if req.forbiddenFailureDomain != NULL && p.failureDomain == req.forbiddenFailureDomain
      then FAILURE_DOMAIN_CONFLICT
    else if req.policy != NULL && req.policy !in s.policies then POLICY_DENIED
    else ELIGIBLE
  }

  /** ELIGIBLE, or the first hard constraint the region fails, in the order the program tests them. */
  function Eligibility(s: State, req: Request, rr: RegionRecord): EligibilityReason {
    if rr.descriptor.provider !in s.providers then OFFLINE else
      var pr := s.providers[rr.descriptor.provider];
      var p, r, degradedOk := pr.descriptor, rr.descriptor, AllowDegraded(s, req);
      Then(LifecycleGate(pr, rr, degradedOk),
      Then(EvidenceGate(rr, degradedOk),
      Then(if rr.ledger.free < req.requiredBytes then INSUFFICIENT_CAPACITY else ELIGIBLE,
      Then(CapabilityGate(req.cpuAccessible, p, r, KEY_CPU_ACCESSIBLE),
      Then(CapabilityGate(req.acceleratorAccessible, p, r, KEY_ACCELERATOR_ACCESSIBLE),
      Then(CapabilityGate(req.directAccessRequired, p, r, KEY_DIRECT_ACCESS),
      Then(ShapeGate(req, p, rr),
      Then(LocalityGate(req.localityPreference, rr.latest.locality),
           PolicyGate(s, req, p)))))))))
  }

  /** A request may name a pool; only regions indexed under that pool are then considered at all. */
  predicate Considered(req: Request, rr: RegionRecord) {
    req.preferredPool == NULL || exists m :: m in rr.memberships && m.0 == req.preferredPool
  }

  predicate IsCandidate(s: State, req: Request, rid: RegionId) {
    rid in s.regions && Considered(req, s.regions[rid]) && Eligibility(s, req, s.regions[rid]) == ELIGIBLE
  }

  /** What every ranked region is known to satisfy. */
  lemma CandidateFacts(s: State, req: Request, rid: RegionId)
    requires IsCandidate(s, req, rid)
    ensures var rr := s.regions[rid];
            && rr.descriptor.provider in s.providers
            && !s.providers[rr.descriptor.provider].lifecycle.Retired?
            && (rr.lifecycle.Online? || rr.lifecycle.Degraded?)
            && rr.hasEvidence && rr.evidenceStatus.Current?
            && req.requiredBytes <= rr.ledger.free
            && (req.policy != NULL ==> req.policy in s.policies)
            && (req.preferredPool != NULL ==> exists m :: m in rr.memberships && m.0 == req.preferredPool)
  {
  }

  /** The capability is affirmed by the provider, or by the region where the provider does not know. */
  predicate Supports(p: ProviderDescriptor, r: RegionDescriptor, key: CapabilityKey) {
    || GetCapability(p.capabilities, key) == CAPABILITY_SUPPORTED
    || (&& GetCapability(p.capabilities, key) == CAPABILITY_UNKNOWN
        && GetCapability(r.staticCapabilities, key) == CAPABILITY_SUPPORTED)
  }

  /** The region's state of service: online or tolerably degraded, on current evidence, reachable. */
  predicate InService(pr: ProviderRecord, rr: RegionRecord, degradedOk: bool) {
    && !pr.lifecycle.Retired? && !pr.lifecycle.Failed?
    && (rr.lifecycle.Online? || (rr.lifecycle.Degraded? && degradedOk))
    && rr.hasEvidence && rr.evidenceStatus.Current? && rr.reachable
    && rr.health != HEALTH_FAILED && (rr.health == HEALTH_DEGRADED ==> degradedOk)
  }

  /** What the request asks of size, shape, speed and kind. */
  predicate Suits(req: Request, p: ProviderDescriptor, rr: RegionRecord) {
    && (req.persistent ==> p.persistence == PERSISTENCE_PERSISTENT)
    && req.alignmentBytes <= rr.descriptor.alignmentBytes
    && (rr.descriptor.granularityBytes != 0 && req.requiredBytes > rr.descriptor.granularityBytes ==>
          Remainder(req.requiredBytes, rr.descriptor.granularityBytes) == 0)
    && (req.maxLatencyNs > 0 ==> 0 < rr.latencyNs <= req.maxLatencyNs)
    && (req.minBandwidth > 0 ==> req.minBandwidth <= rr.bandwidthBytesPerSec)
    && (req.allowedKinds != [] ==> p.kind in req.allowedKinds) && p.kind !in req.forbiddenKinds
  }

  predicate WellPlaced(wanted: Locality, found: Locality) {
    && (wanted == LOCALITY_LOCAL ==> found == LOCALITY_LOCAL)
    && (wanted == LOCALITY_REMOTE ==> found != LOCALITY_LOCAL && found != LOCALITY_UNKNOWN)
    && (wanted == LOCALITY_FABRIC ==> found == LOCALITY_FABRIC)
  }

  lemma ServiceGates(pr: ProviderRecord, rr: RegionRecord, degradedOk: bool)
    ensures LifecycleGate(pr, rr, degradedOk) == ELIGIBLE && EvidenceGate(rr, degradedOk) == ELIGIBLE
       <==> InService(pr, rr, degradedOk)
  {
  }

  lemma ShapeGates(req: Request, p: ProviderDescriptor, rr: RegionRecord)
    ensures ShapeGate(req, p, rr) == ELIGIBLE <==> Suits(req, p, rr)
    ensures LocalityGate(req.localityPreference, rr.latest.locality) == ELIGIBLE
       <==> WellPlaced(req.localityPreference, rr.latest.locality)
  {
  }

  lemma CapabilityGates(required: bool, p: ProviderDescriptor, r: RegionDescriptor, key: CapabilityKey)
    ensures CapabilityGate(required, p, r, key) == ELIGIBLE <==> (required ==> Supports(p, r, key))
  {
  }

  /** A region is eligible exactly when it meets every hard constraint; unknown facts never count as met. */
  lemma EligibleIff(s: State, req: Request, rr: RegionRecord)
    requires rr.descriptor.provider in s.providers
    ensures var pr := s.providers[rr.descriptor.provider];
            Eligibility(s, req, rr) == ELIGIBLE <==>
              && InService(pr, rr, AllowDegraded(s, req))
              && req.requiredBytes <= rr.ledger.free
              && (req.cpuAccessible ==> Supports(pr.descriptor, rr.descriptor, KEY_CPU_ACCESSIBLE))
              && (req.acceleratorAccessible ==> Supports(pr.descriptor, rr.descriptor, KEY_ACCELERATOR_ACCESSIBLE))
              && (req.directAccessRequired ==> Supports(pr.descriptor, rr.descriptor, KEY_DIRECT_ACCESS))
              && Suits(req, pr.descriptor, rr)
              && WellPlaced(req.localityPreference, rr.latest.locality)
              && (req.forbiddenFailureDomain != NULL ==> pr.descriptor.failureDomain != req.forbiddenFailureDomain)
              && (req.policy != NULL ==> req.policy in s.policies)
  {
    var pr := s.providers[rr.descriptor.provider];
    ServiceGates(pr, rr, AllowDegraded(s, req));
    ShapeGates(req, pr.descriptor, rr);
    CapabilityGates(req.cpuAccessible, pr.descriptor, rr.descriptor, KEY_CPU_ACCESSIBLE);
    CapabilityGates(req.acceleratorAccessible, pr.descriptor, rr.descriptor, KEY_ACCELERATOR_ACCESSIBLE);
    CapabilityGates(req.directAccessRequired, pr.descriptor, rr.descriptor, KEY_DIRECT_ACCESS);
    hide LifecycleGate, EvidenceGate, ShapeGate, LocalityGate, CapabilityGate, InService, Suits, WellPlaced, Supports, AllowDegraded;
  }

  // ---- Access ----

  function AttachedAccess(atts: seq<AttachmentEvidence>, consumer: ConsumerId, best: AccessKind): AccessKind {
    if atts == [] then best
    else if atts[0].consumer != NULL && atts[0].consumer != consumer then AttachedAccess(atts[1..], consumer, best)
    else if atts[0].access == ACCESS_DIRECT then ACCESS_DIRECT
    else AttachedAccess(atts[1..], consumer,
                        if atts[0].access != ACCESS_UNKNOWN && best == ACCESS_UNKNOWN then atts[0].access else best)
  }

  function DeclaredAccess(caps: seq<Capability>): AccessKind {
    if GetCapability(caps, KEY_DIRECT_ACCESS) == CAPABILITY_SUPPORTED then ACCESS_DIRECT
    else if GetCapability(caps, KEY_STAGING_REQUIRED) == CAPABILITY_SUPPORTED then ACCESS_STAGED
    else ACCESS_UNKNOWN
  }

  function BestAccess(atts: seq<AttachmentEvidence>, consumer: ConsumerId, caps: seq<Capability>): AccessKind {
    var best := AttachedAccess(atts, consumer, ACCESS_UNKNOWN);
    if best != ACCESS_UNKNOWN then best else DeclaredAccess(caps)
  }

  ghost predicate Applies(a: AttachmentEvidence, consumer: ConsumerId) { a.consumer == NULL || a.consumer == consumer }

  /** Direct access is reported from attachments exactly when one that applies to the consumer proves it. */
  lemma {:induction false} DirectWhenAttached(atts: seq<AttachmentEvidence>, consumer: ConsumerId, best: AccessKind)
    requires best != ACCESS_DIRECT
    ensures AttachedAccess(atts, consumer, best) == ACCESS_DIRECT <==>
            exists a :: a in atts && Applies(a, consumer) && a.access == ACCESS_DIRECT
  {
    if atts != [] {
      var a, rest := atts[0], atts[1..];
      assert forall x :: x in atts <==> x == a || x in rest;
      if !Applies(a, consumer) {
        DirectWhenAttached(rest, consumer, best);
      } else if a.access != ACCESS_DIRECT {
        DirectWhenAttached(rest, consumer,
                           if a.access != ACCESS_UNKNOWN && best == ACCESS_UNKNOWN then a.access else best);
      }
    }
  }

  // ---- Scoring ----

  function LocalityScore(l: Locality): real {
    if l == LOCALITY_LOCAL then 1.0 else if l == LOCALITY_FABRIC then 0.7
    else if l == LOCALITY_REMOTE then 0.5 else 0.3
  }

  function HealthScore(h: HealthState): real {
    if h == HEALTH_HEALTHY then 1.0 else if h == HEALTH_DEGRADED then 0.6
    else if h == HEALTH_FAILED then 0.0 else 0.5
  }

  function AccessScore(k: AccessKind): real {
    if k == ACCESS_DIRECT then 1.0 else if k == ACCESS_STAGED then 0.6 else 0.4
  }

  datatype Candidate = Candidate(
    region: RegionId, provider: ProviderId, pool: PoolId, bytes: U64, free: int, latencyNs: U64,
    bandwidth: U64, locality: Locality, health: HealthState, access: AccessKind)

  function CapabilitiesOf(s: State, p: ProviderId): seq<Capability> {
    if p in s.providers then s.providers[p].descriptor.capabilities else []
  }

  function CandidateOf(s: State, req: Request, rid: RegionId): Candidate
    requires rid in s.regions
  {
    var rr := s.regions[rid];
    Candidate(rid, rr.descriptor.provider, req.preferredPool, req.requiredBytes, rr.ledger.free,
              rr.latencyNs, rr.bandwidthBytesPerSec, rr.latest.locality, rr.health,
              BestAccess(rr.attachments, req.consumer, CapabilitiesOf(s, rr.descriptor.provider)))
  }

  function LatencyScore(latency: nat, maxLatency: nat): real {
    if latency == 0 then 0.0 else if maxLatency > 0 then 1.0 - latency as real / maxLatency as real else 1.0
  }

  function BandwidthScore(bandwidth: nat, maxBandwidth: nat): real {
    if maxBandwidth > 0 then bandwidth as real / maxBandwidth as real else 1.0
  }

  function HeadroomScore(free: int, required: nat, headroom: Headroom): real {
    if required > 0 then
      Positive(required as real, headroom);
      var ratio := free as real / (required as real * (1.0 + headroom));
      if ratio > 1.0 then 1.0 else ratio
    else 1.0
  }

  lemma Positive(required: real, headroom: Headroom)
    requires required > 0.0
    ensures required * (1.0 + headroom) > 0.0
  {
  }

  const NAME_LOCALITY: Bytes := [108, 111, 99, 97, 108, 105, 116, 121]
  const NAME_LATENCY: Bytes := [108, 97, 116, 101, 110, 99, 121]
  const NAME_BANDWIDTH: Bytes := [98, 97, 110, 100, 119, 105, 100, 116, 104]
  const NAME_HEADROOM: Bytes := [104, 101, 97, 100, 114, 111, 111, 109]
  const NAME_ACCESS: Bytes := [97, 99, 99, 101, 115, 115]
  const NAME_HEALTH: Bytes := [104, 101, 97, 108, 116, 104]

  function Factors(c: Candidate, maxLatency: nat, maxBandwidth: nat, headroom: Headroom): seq<RankingFactor<real>> {
    [RankingFactor(NAME_LOCALITY, LocalityScore(c.locality), LocalityScore(c.locality), 0.30),
     RankingFactor(NAME_LATENCY, c.latencyNs as real, LatencyScore(c.latencyNs, maxLatency), 0.20),
     RankingFactor(NAME_BANDWIDTH, c.bandwidth as real, BandwidthScore(c.bandwidth, maxBandwidth), 0.20),
     RankingFactor(NAME_HEADROOM, c.free as real, HeadroomScore(c.free, c.bytes, headroom), 0.15),
     RankingFactor(NAME_ACCESS, c.access as real, AccessScore(c.access), 0.15),
     RankingFactor(NAME_HEALTH, c.health as real, HealthScore(c.health), 0.05)]
  }

  function Score(c: Candidate, maxLatency: nat, maxBandwidth: nat, headroom: Headroom): real {
    0.30 * LocalityScore(c.locality) + 0.20 * LatencyScore(c.latencyNs, maxLatency)
    + 0.20 * BandwidthScore(c.bandwidth, maxBandwidth) + 0.15 * HeadroomScore(c.free, c.bytes, headroom)
    + 0.15 * AccessScore(c.access) + 0.05 * HealthScore(c.health)
  }

  lemma RatioInUnit(x: nat, y: nat)
    requires x <= y && y > 0
    ensures 0.0 <= x as real / y as real <= 1.0
  {
    var r := x as real / y as real;
    assert r * y as real == x as real;
  }

  lemma HeadroomInUnit(free: nat, required: nat, headroom: Headroom)
    ensures 0.0 <= HeadroomScore(free, required, headroom) <= 1.0
  {
    if required > 0 {
      Positive(required as real, headroom);
      var d := required as real * (1.0 + headroom);
      var ratio := free as real / d;
      assert ratio * d == free as real;
    }
  }

  /** Every score lies in [0, 1.05]. */
  lemma ScoreBounds(c: Candidate, maxLatency: nat, maxBandwidth: nat, headroom: Headroom)
    requires c.latencyNs <= maxLatency && c.bandwidth <= maxBandwidth && c.free >= 0
    ensures 0.0 <= Score(c, maxLatency, maxBandwidth, headroom) <= 1.05
  {
    if c.latencyNs > 0 { RatioInUnit(c.latencyNs, maxLatency); }
    if maxBandwidth > 0 { RatioInUnit(c.bandwidth, maxBandwidth); }
    HeadroomInUnit(c.free, c.bytes, headroom);
  }

  function WeightedSum(fs: seq<RankingFactor<real>>): real {
    if fs == [] then 0.0 else fs[0].weight * fs[0].normalized + WeightedSum(fs[1..])
  }

  /** The published factors explain the score: it is their weighted sum. */
  lemma ScoreExplained(c: Candidate, maxLatency: nat, maxBandwidth: nat, headroom: Headroom)
    ensures WeightedSum(Factors(c, maxLatency, maxBandwidth, headroom)) == Score(c, maxLatency, maxBandwidth, headroom)
  {
    var fs := Factors(c, maxLatency, maxBandwidth, headroom);
    assert fs[1..][1..] == fs[2..] && fs[2..][1..] == fs[3..] && fs[3..][1..] == fs[4..];
    assert fs[4..][1..] == fs[5..] && fs[5..][1..] == [];
    assert WeightedSum(fs[5..]) == fs[5].weight * fs[5].normalized;
    assert WeightedSum(fs[3..]) == fs[3].weight * fs[3].normalized + WeightedSum(fs[4..]);
    assert WeightedSum(fs[1..]) == fs[1].weight * fs[1].normalized + WeightedSum(fs[2..]);
  }

  // ---- The ranking ----

  ghost function MaxLatency(s: State, req: Request): nat {
    Greatest(set rid | rid in s.regions && IsCandidate(s, req, rid) :: s.regions[rid].latencyNs)
  }

  ghost function MaxBandwidth(s: State, req: Request): nat {
    Greatest(set rid | rid in s.regions && IsCandidate(s, req, rid) :: s.regions[rid].bandwidthBytesPerSec)
  }

  ghost function ScoreOf(s: State, req: Request, rid: RegionId): real
    requires rid in s.regions
  {
    Score(CandidateOf(s, req, rid), MaxLatency(s, req), MaxBandwidth(s, req), req.reserveHeadroomFactor)
  }

  ghost function ScoresOf(s: State, req: Request): Scores {
    map rid | rid in s.regions && IsCandidate(s, req, rid) :: ScoreOf(s, req, rid)
  }

  /** The candidate regions in rank order: a function of the region map, not of any iteration order. */
  ghost function RankedIds(s: State, req: Request): seq<RegionId> { Rank(ScoresOf(s, req)) }

  ghost function RankedEntry(s: State, req: Request, rid: RegionId): RankedCandidate<real>
    requires rid in s.regions
  {
    var c := CandidateOf(s, req, rid);
    RankedCandidate(rid, c.provider, c.pool, c.bytes, ScoreOf(s, req, rid),
                    Factors(c, MaxLatency(s, req), MaxBandwidth(s, req), req.reserveHeadroomFactor))
  }

  lemma RankedAreCandidates(s: State, req: Request)
    ensures forall rid :: rid in RankedIds(s, req) <==> IsCandidate(s, req, rid)
  {
    RankIsRanking(ScoresOf(s, req));
  }

  lemma MaximaCover(s: State, req: Request, rid: RegionId)
    requires IsCandidate(s, req, rid)
    ensures s.regions[rid].latencyNs <= MaxLatency(s, req)
    ensures s.regions[rid].bandwidthBytesPerSec <= MaxBandwidth(s, req)
  {
    var latencies := set r | r in s.regions && IsCandidate(s, req, r) :: s.regions[r].latencyNs;
    var bandwidths := set r | r in s.regions && IsCandidate(s, req, r) :: s.regions[r].bandwidthBytesPerSec;
    assert s.regions[rid].latencyNs in latencies && s.regions[rid].bandwidthBytesPerSec in bandwidths;
  }

  /** Every score in the ranking lies in [0, 1.05], as long as no ledger is overdrawn. */
  lemma RankedScoreBounds(s: State, req: Request, rid: RegionId)
    requires IsCandidate(s, req, rid) && s.regions[rid].ledger.free >= 0
    ensures 0.0 <= ScoreOf(s, req, rid) <= 1.05
  {
    MaximaCover(s, req, rid);
    ScoreBounds(CandidateOf(s, req, rid), MaxLatency(s, req), MaxBandwidth(s, req), req.reserveHeadroomFactor);
  }

  predicate CallsForRevalidation(s: State, req: Request, rid: RegionId)
    requires rid in s.regions
  {
    var reason := Eligibility(s, req, s.regions[rid]);
    Considered(req, s.regions[rid]) && (reason == NEEDS_REVALIDATION || reason == STALE_EVIDENCE)
  }

  ghost function Outcome(s: State, req: Request): SelectionOutcome {
    var ids := RankedIds(s, req);
    if ids != [] && ids[0] in s.regions then
      if CandidateOf(s, req, ids[0]).access == ACCESS_STAGED then OUTCOME_STAGING else OUTCOME_EXPANSION
    else if !req.expansionRequired && req.allowLocalFallback then OUTCOME_LOCAL_FALLBACK
    else if exists rid :: rid in s.regions && CallsForRevalidation(s, req, rid) then OUTCOME_REVALIDATION
    else OUTCOME_REJECT
  }

  predicate IsRejected(s: State, req: Request, rid: RegionId) {
    rid in s.regions && Considered(req, s.regions[rid]) && Eligibility(s, req, s.regions[rid]) != ELIGIBLE
  }

  function Rejection(s: State, req: Request, rid: RegionId): CandidateAssessment<real>
    requires rid in s.regions
  {
    CandidateAssessment(rid, s.regions[rid].descriptor.provider, req.preferredPool,
                        Eligibility(s, req, s.regions[rid]), 0.0)
  }
}
