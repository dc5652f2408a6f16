/**
 The selection algorithm as it runs: walk the region map in whatever order it yields, split regions
 into candidates and refusals, take the maxima, score, sort, and name the outcome. Its result is
 proved to be the one function of the state given in module Selection, so the order does not matter.
 */
module Evaluation {
  import opened Words
  import opened Types
  import opened Records
  import opened Ranking
  import opened Selection

  /** "score desc, then region id, provider id, pool id" */
  const TIE_BREAK_RULE: Bytes := [
    115, 99, 111, 114, 101, 32, 100, 101, 115, 99, 44, 32, 116, 104, 101, 110, 32,
    114, 101, 103, 105, 111, 110, 32, 105, 100, 44, 32, 112, 114, 111, 118, 105, 100, 101, 114, 32, 105, 100, 44, 32,
    112, 111, 111, 108, 32, 105, 100]

  /** Prefer a direct attachment for this consumer, then any other, then the provider's declared access. */
  method FindBestAccess(atts: seq<AttachmentEvidence>, consumer: ConsumerId, caps: seq<Capability>) returns (k: AccessKind)
    ensures k == BestAccess(atts, consumer, caps)
  {
    var best: AccessKind := ACCESS_UNKNOWN;
    assert atts[0..] == atts;
    for i := 0 to |atts|
      invariant AttachedAccess(atts, consumer, ACCESS_UNKNOWN) == AttachedAccess(atts[i..], consumer, best)
    {
      assert atts[i..][0] == atts[i] && atts[i..][1..] == atts[i + 1..];
      if atts[i].consumer != NULL && atts[i].consumer != consumer { continue; }
      if atts[i].access == ACCESS_DIRECT { return ACCESS_DIRECT; }
      if atts[i].access != ACCESS_UNKNOWN && best == ACCESS_UNKNOWN { best := atts[i].access; }
    }
    if best != ACCESS_UNKNOWN { return best; }
    if GetCapability(caps, KEY_DIRECT_ACCESS) == CAPABILITY_SUPPORTED { return ACCESS_DIRECT; }
    if GetCapability(caps, KEY_STAGING_REQUIRED) == CAPABILITY_SUPPORTED { return ACCESS_STAGED; }
    return ACCESS_UNKNOWN;
  }

  // ---- Hard eligibility, test by test ----

  /** The provider's word first, then the region's; anything but SUPPORTED refuses. */
  method Capable(p: ProviderDescriptor, r: RegionDescriptor, key: CapabilityKey) returns (refusal: EligibilityReason)
    ensures refusal == CapabilityGate(true, p, r, key)
  {
    var status := GetCapability(p.capabilities, key);
    if status == CAPABILITY_UNKNOWN { status := GetCapability(r.staticCapabilities, key); }
    if status == CAPABILITY_SUPPORTED { return ELIGIBLE; }
    if status == CAPABILITY_UNSUPPORTED { return CAPABILITY_REFUSED; }
    return CAPABILITY_UNCERTAIN;
  }

  method InKinds(kind: U8, kinds: seq<U8>) returns (found: bool)
    ensures found == (kind in kinds)
  {
    for i := 0 to |kinds|
      invariant kind !in kinds[..i]
    {
      if kinds[i] == kind { return true; }
    }
    return false;
  }

  method CheckService(s: State, req: Request, pr: ProviderRecord, rr: RegionRecord) returns (reason: EligibilityReason)
    ensures reason == Then(LifecycleGate(pr, rr, AllowDegraded(s, req)), EvidenceGate(rr, AllowDegraded(s, req)))
  {
    if pr.lifecycle.Retired? || pr.lifecycle.Failed? { return OFFLINE; }
    if rr.lifecycle.Retired? { return OFFLINE; }
    if rr.lifecycle.Draining? { return DEGRADED_NOT_ALLOWED; }
    var allowDegraded := req.allowDegraded;
    if req.policy != NULL {
      if req.policy in s.policies && s.policies[req.policy].allowDegraded { allowDegraded := true; }
    }
    if rr.lifecycle.Degraded? && !allowDegraded { return DEGRADED_NOT_ALLOWED; }
    if !rr.lifecycle.Online? && !rr.lifecycle.Degraded? { return NEEDS_REVALIDATION; }
    if !rr.hasEvidence { return STALE_EVIDENCE; }
    if !rr.evidenceStatus.Current? { return STALE_EVIDENCE; }
    if rr.health == HEALTH_FAILED { return NEEDS_REVALIDATION; }
    if rr.health == HEALTH_DEGRADED && !allowDegraded { return DEGRADED_NOT_ALLOWED; }
    if !rr.reachable { return UNREACHABLE; }
    return ELIGIBLE;
  }

  method CheckShape(req: Request, p: ProviderDescriptor, rr: RegionRecord) returns (reason: EligibilityReason)
    ensures reason == ShapeGate(req, p, rr)
  {
    if req.persistent {
      if p.persistence != PERSISTENCE_PERSISTENT { return PERSISTENCE_REQUIRED; }
    }
    if req.alignmentBytes > rr.descriptor.alignmentBytes { return INCOMPATIBLE; }
    if rr.descriptor.granularityBytes != 0 { RemainderIsModulo(req.requiredBytes, rr.descriptor.granularityBytes); }
    if req.requiredBytes != 0 && rr.descriptor.granularityBytes != 0
       && req.requiredBytes > rr.descriptor.granularityBytes && req.requiredBytes % rr.descriptor.granularityBytes != 0 {
      return INCOMPATIBLE;
    }
    if req.maxLatencyNs > 0 {
      if rr.latencyNs == 0 { return LATENCY_LIMIT_EXCEEDED; }
      if rr.latencyNs > req.maxLatencyNs { return LATENCY_LIMIT_EXCEEDED; }
    }
    if req.minBandwidth > 0 {
      if rr.bandwidthBytesPerSec == 0 { return BANDWIDTH_INSUFFICIENT; }
      if rr.bandwidthBytesPerSec < req.minBandwidth { return BANDWIDTH_INSUFFICIENT; }
    }
    if req.allowedKinds != [] {
      var ok := InKinds(p.kind, req.allowedKinds);
      if !ok { return INCOMPATIBLE; }
    }
    var forbidden := InKinds(p.kind, req.forbiddenKinds);
    if forbidden { return INCOMPATIBLE; }
    return ELIGIBLE;
  }

  method CheckPlacement(s: State, req: Request, p: ProviderDescriptor, found: Locality) returns (reason: EligibilityReason)
    ensures reason == Then(LocalityGate(req.localityPreference, found), PolicyGate(s, req, p))
  {
    if req.localityPreference != LOCALITY_UNKNOWN {
      if req.localityPreference == LOCALITY_LOCAL && found != LOCALITY_LOCAL { return TOO_REMOTE; }
      if req.localityPreference == LOCALITY_REMOTE && (found == LOCALITY_LOCAL || found == LOCALITY_UNKNOWN) { return TOO_REMOTE; }
      if req.localityPreference == LOCALITY_FABRIC && found != LOCALITY_FABRIC { return TOO_REMOTE; }
    }
    if req.forbiddenFailureDomain != NULL && p.failureDomain == req.forbiddenFailureDomain { return FAILURE_DOMAIN_CONFLICT; }
    if req.policy != NULL && req.policy !in s.policies { return POLICY_DENIED; }
    return ELIGIBLE;
  }

  /** The tests in the program's order; the first that fails names the reason. */
  method EvaluateEligibility(s: State, req: Request, rr: RegionRecord) returns (reason: EligibilityReason)
    ensures reason == Eligibility(s, req, rr)
  {
    hide LifecycleGate, EvidenceGate, ShapeGate, LocalityGate, PolicyGate, AllowDegraded, GetCapability;
    if rr.descriptor.provider !in s.providers { return OFFLINE; }
    var pr := s.providers[rr.descriptor.provider];
    reason := CheckService(s, req, pr, rr);
    if reason != ELIGIBLE { return; }
    if rr.ledger.free < req.requiredBytes { return INSUFFICIENT_CAPACITY; }
    if req.cpuAccessible {
      reason := Capable(pr.descriptor, rr.descriptor, KEY_CPU_ACCESSIBLE);
      if reason != ELIGIBLE { return; }
    }
    if req.acceleratorAccessible {
      reason := Capable(pr.descriptor, rr.descriptor, KEY_ACCELERATOR_ACCESSIBLE);
      if reason != ELIGIBLE { return; }
    }
    if req.directAccessRequired {
      reason := Capable(pr.descriptor, rr.descriptor, KEY_DIRECT_ACCESS);
      if reason != ELIGIBLE { return; }
    }
    reason := CheckShape(req, pr.descriptor, rr);
    if reason != ELIGIBLE { return; }
    reason := CheckPlacement(s, req, pr.descriptor, rr.latest.locality);
  }

  // ---- The walk over the regions ----

  /** Exactly the candidates among the regions seen so far, each once. */
  ghost predicate Gathered(s: State, req: Request, seen: set<RegionId>, cs: seq<Candidate>) {
    && (forall i :: 0 <= i < |cs| ==>
          cs[i].region in seen && IsCandidate(s, req, cs[i].region) && cs[i] == CandidateOf(s, req, cs[i].region))
    && (forall i, j :: 0 <= i < j < |cs| ==> cs[i].region != cs[j].region)
    && (forall rid :: rid in seen && IsCandidate(s, req, rid) ==> exists i :: 0 <= i < |cs| && cs[i].region == rid)
  }

  /** Exactly the refusals among the regions seen so far, each once, with its reason. */
  ghost predicate Refused(s: State, req: Request, seen: set<RegionId>, rs: seq<CandidateAssessment<real>>) {
    && (forall i :: 0 <= i < |rs| ==>
          rs[i].region in seen && IsRejected(s, req, rs[i].region) && rs[i] == Rejection(s, req, rs[i].region))
    && (forall i, j :: 0 <= i < j < |rs| ==> rs[i].region != rs[j].region)
    && (forall rid :: rid in seen && IsRejected(s, req, rid) ==> exists i :: 0 <= i < |rs| && rs[i].region == rid)
  }

  lemma GatherOne(s: State, req: Request, seen: set<RegionId>, cs: seq<Candidate>, rid: RegionId)
    requires Gathered(s, req, seen, cs) && rid !in seen && IsCandidate(s, req, rid)
    ensures Gathered(s, req, seen + {rid}, cs + [CandidateOf(s, req, rid)])
  {
    hide Eligibility, Considered;
    var cs' := cs + [CandidateOf(s, req, rid)];
    assert cs'[|cs|].region == rid;
    forall r | r in seen + {rid} && IsCandidate(s, req, r) ensures exists i :: 0 <= i < |cs'| && cs'[i].region == r {
      if r != rid {
        var i :| 0 <= i < |cs| && cs[i].region == r;
        assert cs'[i].region == r;
      }
    }
  }

  lemma GatherNone(s: State, req: Request, seen: set<RegionId>, cs: seq<Candidate>, rid: RegionId)
    requires Gathered(s, req, seen, cs) && !IsCandidate(s, req, rid)
    ensures Gathered(s, req, seen + {rid}, cs)
  {
    hide IsCandidate;
  }

  lemma RefuseOne(s: State, req: Request, seen: set<RegionId>, rs: seq<CandidateAssessment<real>>, rid: RegionId)
    requires Refused(s, req, seen, rs) && rid !in seen && IsRejected(s, req, rid)
    ensures Refused(s, req, seen + {rid}, rs + [Rejection(s, req, rid)])
  {
    hide Eligibility, Considered;
    var rs' := rs + [Rejection(s, req, rid)];
    assert rs'[|rs|].region == rid;
    forall r | r in seen + {rid} && IsRejected(s, req, r) ensures exists i :: 0 <= i < |rs'| && rs'[i].region == r {
      if r != rid {
        var i :| 0 <= i < |rs| && rs[i].region == r;
        assert rs'[i].region == r;
      }
    }
  }

  lemma RefuseNone(s: State, req: Request, seen: set<RegionId>, rs: seq<CandidateAssessment<real>>, rid: RegionId)
    requires Refused(s, req, seen, rs) && !IsRejected(s, req, rid)
    ensures Refused(s, req, seen + {rid}, rs)
  {
    hide IsRejected;
  }

  ghost predicate AnyRevalidation(s: State, req: Request, seen: set<RegionId>)
    requires seen <= s.regions.Keys
  {
    exists rid :: rid in seen && CallsForRevalidation(s, req, rid)
  }

  lemma RevalidationStep(s: State, req: Request, seen: set<RegionId>, rid: RegionId)
    requires seen <= s.regions.Keys && rid in s.regions
    ensures AnyRevalidation(s, req, seen + {rid}) <==> AnyRevalidation(s, req, seen) || CallsForRevalidation(s, req, rid)
  {
    hide CallsForRevalidation;
    if CallsForRevalidation(s, req, rid) { assert rid in seen + {rid}; }
  }

  method Partition(s: State, req: Request)
    returns (eligible: seq<Candidate>, rejected: seq<CandidateAssessment<real>>, revalidation: bool)
    ensures Gathered(s, req, s.regions.Keys, eligible)
    ensures Refused(s, req, s.regions.Keys, rejected)
    ensures revalidation == AnyRevalidation(s, req, s.regions.Keys)
  {
    hide Eligibility, Gathered, Refused, AnyRevalidation, BestAccess;
    eligible, rejected, revalidation := [], [], false;
    var pending := s.regions.Keys;
    StartWalk(s, req);
    while pending != {}
      invariant pending <= s.regions.Keys
      invariant Gathered(s, req, s.regions.Keys - pending, eligible)
      invariant Refused(s, req, s.regions.Keys - pending, rejected)
      invariant revalidation == AnyRevalidation(s, req, s.regions.Keys - pending)
      decreases pending
    {
      var rid :| rid in pending;
      ghost var seen := s.regions.Keys - pending;
      pending := pending - {rid};
      assert s.regions.Keys - pending == seen + {rid};
      RevalidationStep(s, req, seen, rid);
      var rr := s.regions[rid];
      if !Considered(req, rr) {
        GatherNone(s, req, seen, eligible, rid);
        RefuseNone(s, req, seen, rejected, rid);
        continue;
      }
      var reason := EvaluateEligibility(s, req, rr);
      if reason != ELIGIBLE {
        GatherNone(s, req, seen, eligible, rid);
        RefuseOne(s, req, seen, rejected, rid);
        if reason == NEEDS_REVALIDATION || reason == STALE_EVIDENCE { revalidation := true; }
        rejected := rejected + [CandidateAssessment(rid, rr.descriptor.provider, req.preferredPool, reason, 0.0)];
        continue;
      }
      GatherOne(s, req, seen, eligible, rid);
      RefuseNone(s, req, seen, rejected, rid);
      var p := rr.descriptor.provider;
      var access := FindBestAccess(rr.attachments, req.consumer,
                                   if p in s.providers then s.providers[p].descriptor.capabilities else []);
      eligible := eligible + [Candidate(rid, p, req.preferredPool, req.requiredBytes, rr.ledger.free, rr.latencyNs,
                                        rr.bandwidthBytesPerSec, rr.latest.locality, rr.health, access)];
    }
    assert s.regions.Keys - {} == s.regions.Keys;
  }

  lemma StartWalk(s: State, req: Request)
    ensures var none := s.regions.Keys - s.regions.Keys;
            Gathered(s, req, none, []) && Refused(s, req, none, []) && !AnyRevalidation(s, req, none)
  {
  }

  // ---- Maxima ----

  method Maxima(cs: seq<Candidate>) returns (maxLatency: nat, maxBandwidth: nat)
    ensures forall i :: 0 <= i < |cs| ==> cs[i].latencyNs <= maxLatency && cs[i].bandwidth <= maxBandwidth
    ensures maxLatency == 0 || exists i :: 0 <= i < |cs| && cs[i].latencyNs == maxLatency
    ensures maxBandwidth == 0 || exists i :: 0 <= i < |cs| && cs[i].bandwidth == maxBandwidth
  {
    maxLatency, maxBandwidth := 0, 0;
    for i := 0 to |cs|
      invariant forall j :: 0 <= j < i ==> cs[j].latencyNs <= maxLatency && cs[j].bandwidth <= maxBandwidth
      invariant maxLatency == 0 || exists j :: 0 <= j < i && cs[j].latencyNs == maxLatency
      invariant maxBandwidth == 0 || exists j :: 0 <= j < i && cs[j].bandwidth == maxBandwidth
    {
      if cs[i].latencyNs > maxLatency { maxLatency := cs[i].latencyNs; }
      if cs[i].bandwidth > maxBandwidth { maxBandwidth := cs[i].bandwidth; }
    }
  }

  lemma MaxLatencyOfState(s: State, req: Request, cs: seq<Candidate>, m: nat)
    requires Gathered(s, req, s.regions.Keys, cs)
    requires forall i :: 0 <= i < |cs| ==> cs[i].latencyNs <= m
    requires m == 0 || exists i :: 0 <= i < |cs| && cs[i].latencyNs == m
    ensures m == MaxLatency(s, req)
  {
    hide Eligibility, Considered, BestAccess, Greatest;
    var values := set rid | rid in s.regions && IsCandidate(s, req, rid) :: s.regions[rid].latencyNs;
    forall v | v in values ensures v <= m {
      var rid :| rid in s.regions && IsCandidate(s, req, rid) && s.regions[rid].latencyNs == v;
      var i :| 0 <= i < |cs| && cs[i].region == rid;
      assert cs[i].latencyNs == v;
    }
    if m != 0 {
      var i :| 0 <= i < |cs| && cs[i].latencyNs == m;
      assert s.regions[cs[i].region].latencyNs in values;
    }
    GreatestIs(values, m);
  }

  lemma MaxBandwidthOfState(s: State, req: Request, cs: seq<Candidate>, m: nat)
    requires Gathered(s, req, s.regions.Keys, cs)
    requires forall i :: 0 <= i < |cs| ==> cs[i].bandwidth <= m
    requires m == 0 || exists i :: 0 <= i < |cs| && cs[i].bandwidth == m
    ensures m == MaxBandwidth(s, req)
  {
    hide Eligibility, Considered, BestAccess, Greatest;
    var values := set rid | rid in s.regions && IsCandidate(s, req, rid) :: s.regions[rid].bandwidthBytesPerSec;
    forall v | v in values ensures v <= m {
      var rid :| rid in s.regions && IsCandidate(s, req, rid) && s.regions[rid].bandwidthBytesPerSec == v;
      var i :| 0 <= i < |cs| && cs[i].region == rid;
      assert cs[i].bandwidth == v;
    }
    if m != 0 {
      var i :| 0 <= i < |cs| && cs[i].bandwidth == m;
      assert s.regions[cs[i].region].bandwidthBytesPerSec in values;
    }
    GreatestIs(values, m);
  }

  // ---- Sorting ----

  datatype Scored = Scored(c: Candidate, score: real, factors: seq<RankingFactor<real>>)

  /** The comparator: score descending, then region, provider and pool ids ascending. */
  predicate Before(x: Scored, y: Scored) {
    if x.score != y.score then x.score > y.score
    else if x.c.region != y.c.region then x.c.region < y.c.region
    else if x.c.provider != y.c.provider then x.c.provider < y.c.provider
    else x.c.pool < y.c.pool
  }

  ghost predicate Ordered(xs: seq<Scored>) { forall i, j :: 0 <= i < j < |xs| ==> Before(xs[i], xs[j]) }

  function InsertAt(xs: seq<Scored>, x: Scored, k: nat): seq<Scored>
    requires k <= |xs|
  {
    xs[..k] + [x] + xs[k..]
  }

  /** Candidates of different regions are ordered one way or the other. */
  lemma BeforeTotal(x: Scored, y: Scored)
    requires x.c.region != y.c.region
    ensures Before(x, y) <==> !Before(y, x)
  {
  }

  lemma BeforeTransitive(x: Scored, y: Scored, z: Scored)
    requires Before(x, y) && Before(y, z)
    ensures Before(x, z)
  {
  }

  lemma InsertedOrdered(xs: seq<Scored>, x: Scored, k: nat)
    requires Ordered(xs) && k <= |xs|
    requires forall i :: 0 <= i < k ==> Before(xs[i], x)
    requires forall i :: k <= i < |xs| ==> Before(x, xs[i])
    ensures Ordered(InsertAt(xs, x, k))
  {
    hide Before;
    var ys := InsertAt(xs, x, k);
    forall i, j | 0 <= i < j < |ys| ensures Before(ys[i], ys[j]) {
      assert ys[i] == if i < k then xs[i] else if i == k then x else xs[i - 1];
      assert ys[j] == if j < k then xs[j] else if j == k then x else xs[j - 1];
    }
  }

  lemma InsertedElements(xs: seq<Scored>, x: Scored, k: nat)
    requires k <= |xs|
    ensures forall y :: y in InsertAt(xs, x, k) <==> y in xs || y == x
  {
    assert xs == xs[..k] + xs[k..];
  }

  /** Insert after everything the comparator does not put behind it, which keeps the sort stable. */
  method Insert(xs: seq<Scored>, x: Scored) returns (ys: seq<Scored>)
    requires Ordered(xs) && forall y :: y in xs ==> y.c.region != x.c.region
    ensures Ordered(ys) && |ys| == |xs| + 1
    ensures forall y :: y in ys <==> y in xs || y == x
  {
    hide Before;
    var k := 0;
    while k < |xs| && !Before(x, xs[k])
      invariant k <= |xs|
      invariant forall i :: 0 <= i < k ==> Before(xs[i], x)
    {
      BeforeTotal(x, xs[k]);
      k := k + 1;
    }
    forall i | k <= i < |xs| ensures Before(x, xs[i]) {
      if i > k { BeforeTransitive(x, xs[k], xs[i]); }
    }
    ys := xs[..k] + [x] + xs[k..];
    InsertedOrdered(xs, x, k);
    InsertedElements(xs, x, k);
  }

  method Sort(xs: seq<Scored>) returns (ys: seq<Scored>)
    requires forall i, j :: 0 <= i < j < |xs| ==> xs[i].c.region != xs[j].c.region
    ensures Ordered(ys) && |ys| == |xs|
    ensures forall y :: y in ys <==> y in xs
  {
    ys := [];
    for i := 0 to |xs|
      invariant Ordered(ys) && |ys| == i
      invariant forall y :: y in ys <==> y in xs[..i]
    {
      assert xs[..i + 1] == xs[..i] + [xs[i]];
      forall y | y in ys ensures y.c.region != xs[i].c.region {
        var j :| 0 <= j < i && xs[..i][j] == y;
      }
      ys := Insert(ys, xs[i]);
    }
    assert xs[..|xs|] == xs;
  }

  // ---- From the sorted list to the ranking ----

  ghost function ScoredOf(s: State, req: Request, rid: RegionId): Scored
    requires rid in s.regions
  {
    var c := CandidateOf(s, req, rid);
    Scored(c, ScoreOf(s, req, rid), Factors(c, MaxLatency(s, req), MaxBandwidth(s, req), req.reserveHeadroomFactor))
  }

  ghost function Ids(xs: seq<Scored>): (ids: seq<RegionId>)
    ensures |ids| == |xs| && forall i :: 0 <= i < |xs| ==> ids[i] == xs[i].c.region
  {
    seq(|xs|, i requires 0 <= i < |xs| => xs[i].c.region)
  }

  ghost predicate ScoredCandidates(s: State, req: Request, xs: seq<Scored>) {
    && (forall x :: x in xs ==> IsCandidate(s, req, x.c.region) && x == ScoredOf(s, req, x.c.region))
    && (forall rid :: IsCandidate(s, req, rid) ==> exists x :: x in xs && x.c.region == rid)
  }

  lemma ScoresDomain(s: State, req: Request, rid: RegionId)
    ensures rid in ScoresOf(s, req) <==> IsCandidate(s, req, rid)
  {
    hide Eligibility, Considered, ScoreOf;
  }

  lemma SameMembers(s: State, req: Request, xs: seq<Scored>, rid: RegionId)
    requires ScoredCandidates(s, req, xs)
    ensures rid in Ids(xs) <==> rid in ScoresOf(s, req)
  {
    hide IsCandidate, ScoredOf, ScoresOf;
    ScoresDomain(s, req, rid);
    var ids := Ids(xs);
    if rid in ids {
      var i :| 0 <= i < |ids| && ids[i] == rid;
      assert xs[i] in xs;
    }
    if IsCandidate(s, req, rid) {
      var x :| x in xs && x.c.region == rid;
      var i :| 0 <= i < |xs| && xs[i] == x;
      assert ids[i] == rid;
    }
  }

  lemma SameOrder(s: State, req: Request, x: Scored, y: Scored)
    requires IsCandidate(s, req, x.c.region) && x == ScoredOf(s, req, x.c.region)
    requires IsCandidate(s, req, y.c.region) && y == ScoredOf(s, req, y.c.region)
    requires Before(x, y)
    ensures x.c.region in ScoresOf(s, req) && y.c.region in ScoresOf(s, req)
    ensures Ahead(ScoresOf(s, req), x.c.region, y.c.region)
  {
    hide Eligibility, Considered, ScoresOf, ScoredOf;
    ScoredShape(s, req, x.c.region);
    ScoredShape(s, req, y.c.region);
  }

  /** A sorted list of the scored candidates is the ranking: no other order is possible. */
  lemma SortedIsRanking(s: State, req: Request, xs: seq<Scored>)
    requires Ordered(xs) && ScoredCandidates(s, req, xs)
    ensures Ids(xs) == RankedIds(s, req)
  {
    hide Eligibility, Considered, ScoredOf, ScoresOf, Ahead;
    var scores, ids := ScoresOf(s, req), Ids(xs);
    forall rid ensures rid in ids <==> rid in scores { SameMembers(s, req, xs, rid); }
    forall i, j | 0 <= i < j < |ids| ensures ids[i] in scores && ids[j] in scores && Ahead(scores, ids[i], ids[j]) {
      assert xs[i] in xs && xs[j] in xs && Before(xs[i], xs[j]);
      SameOrder(s, req, xs[i], xs[j]);
    }
    RankingUnique(scores, ids);
  }

  lemma ScoredShape(s: State, req: Request, rid: RegionId)
    requires rid in s.regions && IsCandidate(s, req, rid)
    ensures rid in ScoresOf(s, req) && ScoresOf(s, req)[rid] == ScoredOf(s, req, rid).score
    ensures ScoredOf(s, req, rid).c.region == rid
  {
  }

  method ScoreAll(cs: seq<Candidate>, maxLatency: nat, maxBandwidth: nat, headroom: Headroom) returns (xs: seq<Scored>)
    ensures |xs| == |cs|
    ensures forall i :: 0 <= i < |cs| ==>
              xs[i] == Scored(cs[i], Score(cs[i], maxLatency, maxBandwidth, headroom), Factors(cs[i], maxLatency, maxBandwidth, headroom))
  {
    hide Score, Factors;
    xs := [];
    for i := 0 to |cs|
      invariant |xs| == i
      invariant forall j :: 0 <= j < i ==>
                  xs[j] == Scored(cs[j], Score(cs[j], maxLatency, maxBandwidth, headroom), Factors(cs[j], maxLatency, maxBandwidth, headroom))
    {
      xs := xs + [Scored(cs[i], Score(cs[i], maxLatency, maxBandwidth, headroom), Factors(cs[i], maxLatency, maxBandwidth, headroom))];
    }
  }

  lemma ScoredAll(s: State, req: Request, cs: seq<Candidate>, xs: seq<Scored>)
    requires Gathered(s, req, s.regions.Keys, cs) && |xs| == |cs|
    requires forall i :: 0 <= i < |cs| ==> xs[i].c == cs[i] && xs[i] == ScoredOf(s, req, cs[i].region)
    ensures ScoredCandidates(s, req, xs)
  {
    hide Eligibility, ScoreOf, CandidateOf, Factors;
    forall rid | IsCandidate(s, req, rid) ensures exists x :: x in xs && x.c.region == rid {
      var i :| 0 <= i < |cs| && cs[i].region == rid;
      assert xs[i] in xs;
    }
  }

  /** The ranked entries in order: a function of the state alone. */
  ghost function RankedList(s: State, req: Request): (out: seq<RankedCandidate<real>>)
    ensures |out| == |RankedIds(s, req)|
  {
    RankedAreCandidates(s, req);
    hide Eligibility, RankedIds;
    var ids := RankedIds(s, req);
    seq(|ids|, i requires 0 <= i < |ids| => assert ids[i] in ids; RankedEntry(s, req, ids[i]))
  }

  method ListRanked(ghost s: State, ghost req: Request, xs: seq<Scored>) returns (out: seq<RankedCandidate<real>>)
    requires ScoredCandidates(s, req, xs) && Ids(xs) == RankedIds(s, req)
    ensures out == RankedList(s, req)
  {
    hide Eligibility, ScoreOf, CandidateOf, Factors, RankedIds;
    out := [];
    for i := 0 to |xs|
      invariant |out| == i && out == RankedList(s, req)[..i]
    {
      assert xs[i] in xs;
      EntryOf(s, req, xs[i].c.region);
      var x := xs[i];
      out := out + [RankedCandidate(x.c.region, x.c.provider, x.c.pool, x.c.bytes, x.score, x.factors)];
    }
  }

  lemma EntryOf(s: State, req: Request, rid: RegionId)
    requires rid in s.regions
    ensures var x := ScoredOf(s, req, rid);
            RankedEntry(s, req, rid) == RankedCandidate(x.c.region, x.c.provider, x.c.pool, x.c.bytes, x.score, x.factors)
  {
    hide BestAccess, ScoreOf, Factors;
  }

  // ---- The whole evaluation ----

  method RankAll(s: State, req: Request, eligible: seq<Candidate>) returns (ranked: seq<RankedCandidate<real>>)
    requires Gathered(s, req, s.regions.Keys, eligible)
    ensures ranked == RankedList(s, req)
  {
    hide Eligibility, Considered, RankedIds, Score, Factors, BestAccess, RankedList;
    var maxLatency, maxBandwidth := Maxima(eligible);
    MaxLatencyOfState(s, req, eligible, maxLatency);
    MaxBandwidthOfState(s, req, eligible, maxBandwidth);
    hide MaxLatency, MaxBandwidth;
    var scored := ScoreAll(eligible, maxLatency, maxBandwidth, req.reserveHeadroomFactor);
    ScoredAll(s, req, eligible, scored);
    var sorted := Sort(scored);
    hide Gathered;
    SortedCandidates(s, req, scored, sorted);
    SortedIsRanking(s, req, sorted);
    ranked := ListRanked(s, req, sorted);
  }

  method Decide(s: State, req: Request, ranked: seq<RankedCandidate<real>>, revalidation: bool) returns (outcome: SelectionOutcome)
    requires ranked == RankedList(s, req)
    requires revalidation == AnyRevalidation(s, req, s.regions.Keys)
    ensures outcome == Outcome(s, req)
  {
    TopOfList(s, req);
    hide Eligibility, RankedIds, BestAccess, RankedList, CallsForRevalidation;
    if ranked != [] {
      var top := s.regions[ranked[0].region];
      var p := top.descriptor.provider;
      var access := FindBestAccess(top.attachments, req.consumer,
                                   if p in s.providers then s.providers[p].descriptor.capabilities else []);
      outcome := if access == ACCESS_STAGED then OUTCOME_STAGING else OUTCOME_EXPANSION;
    } else if !req.expansionRequired && req.allowLocalFallback {
      outcome := OUTCOME_LOCAL_FALLBACK;
    } else if revalidation {
      outcome := OUTCOME_REVALIDATION;
    } else {
      outcome := OUTCOME_REJECT;
    }
  }

  lemma TopOfList(s: State, req: Request)
    ensures RankedIds(s, req) == [] <==> RankedList(s, req) == []
    ensures RankedIds(s, req) != [] ==> RankedIds(s, req)[0] in s.regions && RankedList(s, req)[0].region == RankedIds(s, req)[0]
  {
    RankedAreCandidates(s, req);
    hide Eligibility, Considered, RankedIds, ScoreOf, CandidateOf, Factors;
    var ids := RankedIds(s, req);
    if ids != [] { assert ids[0] in ids; }
  }

  /** One selection. Whatever order the map yields its regions in, this is the result. */
  method Evaluate(s: State, req: Request) returns (sel: SelectionResult<real>)
    ensures sel.id == Mint(s.nextSelection) && sel.generation == Mint(s.nextSelection)
    ensures sel.tieBreakRule == TIE_BREAK_RULE
    ensures sel.ranked == RankedList(s, req)
    ensures Refused(s, req, s.regions.Keys, sel.rejected)
    ensures sel.outcome == Outcome(s, req)
  {
    hide Gathered, Refused, Outcome, AnyRevalidation, RankedList;
    var eligible, rejected, revalidation := Partition(s, req);
    var ranked := RankAll(s, req, eligible);
    var outcome := Decide(s, req, ranked, revalidation);
    sel := SelectionResult(Mint(s.nextSelection), Mint(s.nextSelection), outcome, TIE_BREAK_RULE, ranked, rejected);
  }

  lemma SortedCandidates(s: State, req: Request, xs: seq<Scored>, ys: seq<Scored>)
    requires ScoredCandidates(s, req, xs) && forall y :: y in ys <==> y in xs
    ensures ScoredCandidates(s, req, ys)
  {
    hide Eligibility, ScoredOf;
  }
}
