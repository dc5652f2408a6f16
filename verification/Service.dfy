/**
 What a publication of evidence means to those who ask for memory afterwards, stated of the evidence itself:
 which publications are accepted, what they leave on record, and which requests the region then serves.
 */
module Service {
  import opened Words
  import opened Types
  import opened Ledgers
  import opened Records
  import opened Operations
  import opened Invariants
  import Refusals
  import Selection

  /** Bytes of the region that are promised, draining or withdrawn. */
  function Obligations(l: Ledger): int { l.reserved + l.committed + l.draining + l.unavailable }

  // ---- Which publications are accepted ----

  /** The evidence is of this epoch and these generations, and speaks for whoever publishes it. */
  predicate Attributed(s: State, e: RegionEvidence, a: Authority) {
    && e.header.epoch == s.epoch
    && e.header.region in s.regions && e.header.regionGeneration == s.regions[e.header.region].descriptor.generation
    && e.header.sourceProvider in s.providers
    && e.header.sourceProviderGeneration == s.providers[e.header.sourceProvider].descriptor.generation
    && (a.worker != NULL ==> e.header.worker == a.worker && e.header.boot == a.boot)
  }

  lemma EvidenceChecked(s: State, e: RegionEvidence, a: Authority)
    ensures EvidenceFault(s, e, a) == NoError
       <==> && Acceptable(s, a) && Attributed(s, e, a)
            && e.onlineCapacityBytes <= s.regions[e.header.region].descriptor.totalCapacityBytes
            && !s.regions[e.header.region].lifecycle.Draining? && !s.regions[e.header.region].lifecycle.Retired?
  {
    hide Acceptable;
  }

  lemma OnlineFits(s: State, e: RegionEvidence)
    requires Inv(s) && e.header.region in s.regions
    ensures var rr := s.regions[e.header.region];
            && rr.ledger.total == rr.descriptor.totalCapacityBytes && Obligations(rr.ledger) == rr.ledger.online - rr.ledger.free
            && (SetOnline(rr.ledger, e.onlineCapacityBytes).ok <==>
                  Obligations(rr.ledger) <= e.onlineCapacityBytes <= rr.descriptor.totalCapacityBytes)
            && (SetOnline(rr.ledger, e.onlineCapacityBytes).ok ==>
                  SetOnline(rr.ledger, e.onlineCapacityBytes).ledger
                  == rr.ledger.(online := e.onlineCapacityBytes, free := e.onlineCapacityBytes - Obligations(rr.ledger)))
  {
    Guarded(s, e.header.region);
    hide Inv, SetOnline;
    OnlineLedger(s.regions[e.header.region].ledger, e.onlineCapacityBytes);
  }

  lemma Guarded(s: State, rid: RegionId)
    requires Inv(s) && rid in s.regions
    ensures s.regions[rid].ledger.Closed() && s.regions[rid].ledger.total == s.regions[rid].descriptor.totalCapacityBytes
  {
    assert RegionOk(s, rid);
    hide Inv, Held;
  }

  lemma OnlineLedger(l: Ledger, online: U64)
    requires l.Closed()
    ensures Obligations(l) == l.online - l.free
    ensures SetOnline(l, online).ok <==> Obligations(l) <= online <= l.total
    ensures SetOnline(l, online).ok ==> SetOnline(l, online).ledger == l.(online := online, free := online - Obligations(l))
  {
  }

  /** What may be published where: not below what is owed, not above what there is, and not against the lifecycle. */
  predicate Publishable(rr: RegionRecord, e: RegionEvidence) {
    && Obligations(rr.ledger) <= e.onlineCapacityBytes <= rr.descriptor.totalCapacityBytes
    && match rr.lifecycle
       case Declared | Online | Degraded => true
       case Unavailable | RevalidationRequired => e.health != HEALTH_DEGRADED
       case Draining | Retired => false
  }

  lemma EvidenceVerdict(s: State, e: RegionEvidence, a: Authority)
    requires EvidenceFault(s, e, a) == NoError
    ensures PublishEvidence(s, e, a).error == NoError
       <==> SetOnline(s.regions[e.header.region].ledger, e.onlineCapacityBytes).ok && !Refusals.RefusedForHealth(s, e, a)
  {
    hide SetOnline, Acceptable, Reflect, HealthTarget, RegionAllowed, TakeEvidence;
    if SetOnline(s.regions[e.header.region].ledger, e.onlineCapacityBytes).ok { Refusals.EvidenceRefusedForHealthIff(s, e, a); }
  }

  /** Evidence is accepted if and only if it is properly attributed and may be published into the region. */
  lemma EvidenceAcceptedIff(s: State, e: RegionEvidence, a: Authority)
    requires Inv(s)
    ensures PublishEvidence(s, e, a).error == NoError
       <==> Acceptable(s, a) && Attributed(s, e, a) && Publishable(s.regions[e.header.region], e)
  {
    EvidenceChecked(s, e, a);
    hide Inv, PublishEvidence, Acceptable, SetOnline, EvidenceFault;
    if EvidenceFault(s, e, a) == NoError {
      OnlineFits(s, e);
      EvidenceVerdict(s, e, a);
    } else {
      EvidenceFaulty(s, e, a);
    }
  }

  lemma EvidenceFaulty(s: State, e: RegionEvidence, a: Authority)
    requires EvidenceFault(s, e, a) != NoError
    ensures PublishEvidence(s, e, a).error != NoError
  {
    hide EvidenceFault;
  }

  // ---- What is on record afterwards ----

  /** The region shows exactly what the evidence says, and nothing else of it changes. */
  predicate Shows(rr: RegionRecord, rr': RegionRecord, e: RegionEvidence) {
    && rr'.latest == e && rr'.hasEvidence && rr'.evidenceStatus.Current?
    && rr'.health == e.health && rr'.reachable == e.reachable
    && rr'.latencyNs == e.latencyNs && rr'.bandwidthBytesPerSec == e.bandwidthBytesPerSec
    && (if e.health == HEALTH_FAILED then rr'.lifecycle.RevalidationRequired?
        else if e.health == HEALTH_DEGRADED then rr'.lifecycle.Degraded?
        else rr'.lifecycle.Online?)
    && rr'.ledger == rr.ledger.(online := e.onlineCapacityBytes, free := e.onlineCapacityBytes - Obligations(rr.ledger))
    && rr'.descriptor == rr.descriptor && rr'.attachments == rr.attachments && rr'.memberships == rr.memberships
  }

  /** The provider comes online with a region in full health, if it was waiting to; otherwise it stays as it was. */
  predicate ComesOnline(p: ProviderRecord, p': ProviderRecord, e: RegionEvidence) {
    && p'.descriptor == p.descriptor
    && p'.lifecycle == if e.health != HEALTH_FAILED && e.health != HEALTH_DEGRADED
                          && (p.lifecycle.Registered? || p.lifecycle.Probing? || p.lifecycle.Offline? || p.lifecycle.RevalidationRequired?)
                       then Lifecycle.Online else p.lifecycle
  }

  ghost predicate Published(s: State, t: State, e: RegionEvidence) {
    var rid := e.header.region;
    && t == s.(regions := t.regions, providers := t.providers)
    && rid in s.regions && t.regions.Keys == s.regions.Keys && t.providers.Keys == s.providers.Keys
    && Shows(s.regions[rid], t.regions[rid], e)
    && (forall x :: x in s.regions && x != rid ==> t.regions[x] == s.regions[x])
    && (forall p :: p in s.providers ==>
          if p == s.regions[rid].descriptor.provider then ComesOnline(s.providers[p], t.providers[p], e)
          else t.providers[p] == s.providers[p])
  }

  lemma ReflectedProvider(ps: map<ProviderId, ProviderRecord>, rr: RegionRecord, e: RegionEvidence)
    requires rr.lifecycle == HealthTarget(e.health)
    ensures Reflect(ps, rr).Keys == ps.Keys
    ensures forall p :: p in ps ==>
              if p == rr.descriptor.provider then ComesOnline(ps[p], Reflect(ps, rr)[p], e) else Reflect(ps, rr)[p] == ps[p]
  {
  }

  lemma TakenShows(rr: RegionRecord, l: Ledger, e: RegionEvidence)
    requires l == rr.ledger.(online := e.onlineCapacityBytes, free := e.onlineCapacityBytes - Obligations(rr.ledger))
    ensures Shows(rr, TakeEvidence(rr, l, e).(lifecycle := HealthTarget(e.health)), e)
  {
  }

  lemma AcceptedShape(s: State, e: RegionEvidence, a: Authority)
    requires PublishEvidence(s, e, a).error == NoError
    ensures e.header.region in s.regions
    ensures var rid := e.header.region;
            var m := SetOnline(s.regions[rid].ledger, e.onlineCapacityBytes);
            var done := TakeEvidence(s.regions[rid], m.ledger, e).(lifecycle := HealthTarget(e.health));
            && m.ok
            && PublishEvidence(s, e, a).state == s.(regions := s.regions[rid := done], providers := Reflect(s.providers, done))
  {
    hide SetOnline, Acceptable, Reflect, HealthTarget, RegionAllowed, TakeEvidence;
  }

  /** An accepted publication records exactly what the evidence says, and may bring the provider online; that is all. */
  lemma EvidenceRecorded(s: State, e: RegionEvidence, a: Authority)
    requires Inv(s) && PublishEvidence(s, e, a).error == NoError
    ensures Published(s, PublishEvidence(s, e, a).state, e)
  {
    AcceptedShape(s, e, a);
    OnlineFits(s, e);
    hide Inv, SetOnline, Acceptable, Reflect, RegionAllowed, PublishEvidence, Shows, ComesOnline, Obligations;
    var rr := s.regions[e.header.region];
    var m := SetOnline(rr.ledger, e.onlineCapacityBytes);
    TakenShows(rr, m.ledger, e);
    hide HealthTarget;
    var done := TakeEvidence(rr, m.ledger, e).(lifecycle := HealthTarget(e.health));
    hide TakeEvidence;
    assert done.descriptor == rr.descriptor by { TakenDescriptor(rr, m.ledger, e); }
    ReflectedProvider(s.providers, done, e);
  }

  lemma TakenDescriptor(rr: RegionRecord, l: Ledger, e: RegionEvidence)
    ensures TakeEvidence(rr, l, e).descriptor == rr.descriptor
  {
  }

  // ---- Which requests the region then serves ----

  function Tolerant(s: State, req: Request): bool {
    req.allowDegraded || (req.policy != NULL && req.policy in s.policies && s.policies[req.policy].allowDegraded)
  }

  /** What a request asks of the structure: known at registration, whatever the evidence. */
  predicate Fit(s: State, req: Request, p: ProviderDescriptor, r: RegionDescriptor) {
    && (req.cpuAccessible ==> Selection.Supports(p, r, KEY_CPU_ACCESSIBLE))
    && (req.acceleratorAccessible ==> Selection.Supports(p, r, KEY_ACCELERATOR_ACCESSIBLE))
    && (req.directAccessRequired ==> Selection.Supports(p, r, KEY_DIRECT_ACCESS))
    && (req.persistent ==> p.persistence == PERSISTENCE_PERSISTENT)
    && req.alignmentBytes <= r.alignmentBytes
    && (r.granularityBytes != 0 && req.requiredBytes > r.granularityBytes ==>
          Remainder(req.requiredBytes, r.granularityBytes) == 0)
    && (req.allowedKinds != [] ==> p.kind in req.allowedKinds) && p.kind !in req.forbiddenKinds
    && (req.forbiddenFailureDomain != NULL ==> p.failureDomain != req.forbiddenFailureDomain)
    && (req.policy != NULL ==> req.policy in s.policies)
  }

  /** What it asks of the evidence: reachable, healthy enough, near enough, fast enough, wide enough. */
  predicate Satisfies(s: State, req: Request, e: RegionEvidence) {
    && e.reachable && e.health != HEALTH_FAILED && (e.health == HEALTH_DEGRADED ==> Tolerant(s, req))
    && (req.maxLatencyNs > 0 ==> 0 < e.latencyNs <= req.maxLatencyNs)
    && (req.minBandwidth > 0 ==> req.minBandwidth <= e.bandwidthBytesPerSec)
    && (req.localityPreference == LOCALITY_LOCAL ==> e.locality == LOCALITY_LOCAL)
    && (req.localityPreference == LOCALITY_FABRIC ==> e.locality == LOCALITY_FABRIC)
    && (req.localityPreference == LOCALITY_REMOTE ==> e.locality != LOCALITY_LOCAL && e.locality != LOCALITY_UNKNOWN)
  }

  ghost predicate Serves(s: State, req: Request, e: RegionEvidence)
    requires e.header.region in s.regions
  {
    var rr := s.regions[e.header.region];
    && rr.descriptor.provider in s.providers
    && var pr := s.providers[rr.descriptor.provider];
       && !pr.lifecycle.Retired? && !pr.lifecycle.Failed?
       && req.requiredBytes + Obligations(rr.ledger) <= e.onlineCapacityBytes
       && Fit(s, req, pr.descriptor, rr.descriptor) && Satisfies(s, req, e)
  }

  lemma FitAndSatisfied(s: State, t: State, req: Request, e: RegionEvidence)
    requires Published(s, t, e) && s.regions[e.header.region].descriptor.provider in s.providers
    ensures var rr, rr' := s.regions[e.header.region], t.regions[e.header.region];
            var pr := s.providers[rr.descriptor.provider];
            Fit(s, req, pr.descriptor, rr.descriptor) && Satisfies(s, req, e) <==>
                 && (e.reachable && e.health != HEALTH_FAILED && (e.health == HEALTH_DEGRADED ==> Selection.AllowDegraded(t, req)))
                 && (req.cpuAccessible ==> Selection.Supports(pr.descriptor, rr.descriptor, KEY_CPU_ACCESSIBLE))
                 && (req.acceleratorAccessible ==> Selection.Supports(pr.descriptor, rr.descriptor, KEY_ACCELERATOR_ACCESSIBLE))
                 && (req.directAccessRequired ==> Selection.Supports(pr.descriptor, rr.descriptor, KEY_DIRECT_ACCESS))
                 && Selection.Suits(req, pr.descriptor, rr')
                 && Selection.WellPlaced(req.localityPreference, rr'.latest.locality)
                 && (req.forbiddenFailureDomain != NULL ==> pr.descriptor.failureDomain != req.forbiddenFailureDomain)
                 && (req.policy != NULL ==> req.policy in t.policies)
  {
    hide Selection.Supports, Remainder;
  }

  lemma ServiceOf(s: State, t: State, e: RegionEvidence, degradedOk: bool)
    requires Published(s, t, e) && s.regions[e.header.region].descriptor.provider in s.providers
    ensures var p := s.regions[e.header.region].descriptor.provider;
            && t.regions[e.header.region].descriptor.provider == p && p in t.providers
            && t.providers[p].descriptor == s.providers[p].descriptor
            && (Selection.InService(t.providers[p], t.regions[e.header.region], degradedOk) <==>
                     && !s.providers[p].lifecycle.Retired? && !s.providers[p].lifecycle.Failed?
                     && e.reachable && e.health != HEALTH_FAILED && (e.health == HEALTH_DEGRADED ==> degradedOk))
  {
  }

  /**
   Once evidence is accepted, the region is eligible for a request if and only if the structure fits it, the evidence
   satisfies it, the size asked for and what is already owed fit in the online capacity reported, and the provider
   is neither retired nor failed.
   */
  lemma EvidenceServesIff(s: State, e: RegionEvidence, a: Authority, req: Request)
    requires Inv(s) && PublishEvidence(s, e, a).error == NoError
    ensures var t := PublishEvidence(s, e, a).state;
            && e.header.region in s.regions && e.header.region in t.regions
            && (Selection.Eligibility(t, req, t.regions[e.header.region]) == ELIGIBLE <==> Serves(s, req, e))
  {
    EvidenceRecorded(s, e, a);
    var t := PublishEvidence(s, e, a).state;
    hide Inv, PublishEvidence, Selection.Supports, Selection.Suits, Selection.WellPlaced, Selection.InService, Fit, Satisfies;
    hide Selection.LifecycleGate, Selection.EvidenceGate, Selection.CapabilityGate, Selection.ShapeGate, Selection.LocalityGate, Selection.PolicyGate, Selection.Then, Selection.AllowDegraded;
    var rr, rr' := s.regions[e.header.region], t.regions[e.header.region];
    if rr.descriptor.provider in s.providers {
      ServiceOf(s, t, e, Selection.AllowDegraded(t, req));
      FitAndSatisfied(s, t, req, e);
      FreeAfter(s, t, e);
      hide Published;
      Selection.EligibleIff(t, req, rr');
    } else {
      Unbacked(s, t, e, req);
    }
  }

  lemma FreeAfter(s: State, t: State, e: RegionEvidence)
    requires Published(s, t, e)
    ensures t.regions[e.header.region].ledger.free == e.onlineCapacityBytes - Obligations(s.regions[e.header.region].ledger)
  {
  }

  lemma Unbacked(s: State, t: State, e: RegionEvidence, req: Request)
    requires Published(s, t, e) && s.regions[e.header.region].descriptor.provider !in s.providers
    ensures Selection.Eligibility(t, req, t.regions[e.header.region]) != ELIGIBLE
  {
    hide Selection.LifecycleGate, Selection.EvidenceGate, Selection.CapabilityGate, Selection.ShapeGate, Selection.LocalityGate, Selection.PolicyGate, Selection.Then, Selection.AllowDegraded;
  }
}
