/** What a selection answers, told without its functions: why a region is refused, how it is reached, and the outcome. */
module Answers {
  import opened Words
  import opened Types
  import opened Records
  import opened Selection
  import Admission
  import Preservation

  // ---- Why a region is refused ----

  datatype Item = Item(met: bool, reason: EligibilityReason)

  /** The reason given for the first item that is not met. */
  function FirstUnmet(items: seq<Item>): EligibilityReason {
    if items == [] then ELIGIBLE else if !items[0].met then items[0].reason else FirstUnmet(items[1..])
  }

  ghost predicate Tolerates(s: State, req: Request) {
    req.allowDegraded || exists p :: p in s.policies && p == req.policy && p != NULL && s.policies[p].allowDegraded
  }

  ghost function StandingItems(pr: ProviderRecord, rr: RegionRecord, tolerant: bool): seq<Item> {
    [Item(!pr.lifecycle.Retired? && !pr.lifecycle.Failed?, OFFLINE),
     Item(!rr.lifecycle.Retired?, OFFLINE),
     Item(!rr.lifecycle.Draining?, DEGRADED_NOT_ALLOWED),
     Item(rr.lifecycle.Degraded? ==> tolerant, DEGRADED_NOT_ALLOWED),
     Item(rr.lifecycle.Online? || rr.lifecycle.Degraded?, NEEDS_REVALIDATION)]
  }

  ghost function EvidenceItems(rr: RegionRecord, tolerant: bool): seq<Item> {
    [Item(rr.hasEvidence && rr.evidenceStatus.Current?, STALE_EVIDENCE),
     Item(rr.health != HEALTH_FAILED, NEEDS_REVALIDATION),
     Item(rr.health == HEALTH_DEGRADED ==> tolerant, DEGRADED_NOT_ALLOWED),
     Item(rr.reachable, UNREACHABLE)]
  }

  /** The provider knows nothing of the capability, so the region's own word counts. */
  predicate Silent(p: ProviderDescriptor, key: CapabilityKey) {
    forall c :: c in p.capabilities && c.key == key ==> c.status == CAPABILITY_UNKNOWN
  }

  ghost function CapabilityItems(required: bool, p: ProviderDescriptor, r: RegionDescriptor, key: CapabilityKey): seq<Item> {
    [Item(required ==> !Says(p.capabilities, key, CAPABILITY_UNSUPPORTED)
                       && !(Silent(p, key) && Says(r.staticCapabilities, key, CAPABILITY_UNSUPPORTED)), CAPABILITY_REFUSED),
     Item(required ==> Says(p.capabilities, key, CAPABILITY_SUPPORTED)
                       || (Silent(p, key) && Says(r.staticCapabilities, key, CAPABILITY_SUPPORTED)), CAPABILITY_UNCERTAIN)]
  }

  ghost function ShapeItems(req: Request, p: ProviderDescriptor, rr: RegionRecord): seq<Item> {
    [Item(req.persistent ==> p.persistence == PERSISTENCE_PERSISTENT, PERSISTENCE_REQUIRED),
     Item(req.alignmentBytes <= rr.descriptor.alignmentBytes, INCOMPATIBLE),
     Item(rr.descriptor.granularityBytes != 0 && req.requiredBytes > rr.descriptor.granularityBytes ==>
            Remainder(req.requiredBytes, rr.descriptor.granularityBytes) == 0, INCOMPATIBLE),
     Item(req.maxLatencyNs > 0 ==> 0 < rr.latencyNs <= req.maxLatencyNs, LATENCY_LIMIT_EXCEEDED),
     Item(req.minBandwidth <= rr.bandwidthBytesPerSec, BANDWIDTH_INSUFFICIENT),
     Item(req.allowedKinds == [] || p.kind in req.allowedKinds, INCOMPATIBLE),
     Item(p.kind !in req.forbiddenKinds, INCOMPATIBLE)]
  }

  ghost function PlaceItems(s: State, req: Request, p: ProviderDescriptor, found: Locality): seq<Item> {
    [Item(&& (req.localityPreference == LOCALITY_LOCAL ==> found == LOCALITY_LOCAL)
          && (req.localityPreference == LOCALITY_FABRIC ==> found == LOCALITY_FABRIC)
          && (req.localityPreference == LOCALITY_REMOTE ==> found != LOCALITY_LOCAL && found != LOCALITY_UNKNOWN), TOO_REMOTE),
     Item(req.forbiddenFailureDomain == NULL || p.failureDomain != req.forbiddenFailureDomain, FAILURE_DOMAIN_CONFLICT),
     Item(req.policy == NULL || req.policy in s.policies, POLICY_DENIED)]
  }

  /** All that is asked of a region, in the order it is asked. */
  ghost function Checklist(s: State, req: Request, rr: RegionRecord): seq<Item>
    requires rr.descriptor.provider in s.providers
  {
    var pr := s.providers[rr.descriptor.provider];
    StandingItems(pr, rr, Tolerates(s, req)) + (EvidenceItems(rr, Tolerates(s, req))
    + ([Item(req.requiredBytes <= rr.ledger.free, INSUFFICIENT_CAPACITY)]
    + (CapabilityItems(req.cpuAccessible, pr.descriptor, rr.descriptor, KEY_CPU_ACCESSIBLE)
    + (CapabilityItems(req.acceleratorAccessible, pr.descriptor, rr.descriptor, KEY_ACCELERATOR_ACCESSIBLE)
    + (CapabilityItems(req.directAccessRequired, pr.descriptor, rr.descriptor, KEY_DIRECT_ACCESS)
    + (ShapeItems(req, pr.descriptor, rr) + PlaceItems(s, req, pr.descriptor, rr.latest.locality)))))))
  }

  lemma {:induction false} UnmetFirst(items: seq<Item>, later: seq<Item>)
    ensures FirstUnmet(items + later) == Then(FirstUnmet(items), FirstUnmet(later))
    requires forall i :: 0 <= i < |items| ==> items[i].reason != ELIGIBLE
  {
    if items == [] {
      assert items + later == later;
    } else {
      UnmetFirst(items[1..], later);
      assert (items + later)[1..] == items[1..] + later;
    }
  }

  lemma TwoItems(a: Item, b: Item)
    ensures FirstUnmet([a, b]) == if !a.met then a.reason else if !b.met then b.reason else ELIGIBLE
  {
    assert [a, b][1..] == [b];
    OneItem(b);
  }

  lemma ThreeItems(items: seq<Item>)
    requires 3 <= |items| <= 7
    ensures FirstUnmet(items)
         == if !items[0].met then items[0].reason else if !items[1].met then items[1].reason
            else if !items[2].met then items[2].reason else FirstUnmet(items[3..])
  {
    assert items[1..][1..] == items[2..] && items[2..][1..] == items[3..];
    assert FirstUnmet(items[1..]) == if !items[1].met then items[1].reason else FirstUnmet(items[2..]);
    assert FirstUnmet(items[2..]) == if !items[2].met then items[2].reason else FirstUnmet(items[3..]);
  }

  lemma OneItem(a: Item)
    ensures FirstUnmet([a]) == if !a.met then a.reason else ELIGIBLE
  {
    assert [a][1..] == [];
  }

  lemma Standing(pr: ProviderRecord, rr: RegionRecord, tolerant: bool)
    ensures FirstUnmet(StandingItems(pr, rr, tolerant)) == LifecycleGate(pr, rr, tolerant)
  {
    var items := StandingItems(pr, rr, tolerant);
    ThreeItems(items);
    assert items[3..] == [items[3], items[4]];
    TwoItems(items[3], items[4]);
  }

  lemma Evidence(rr: RegionRecord, tolerant: bool)
    ensures FirstUnmet(EvidenceItems(rr, tolerant)) == EvidenceGate(rr, tolerant)
  {
    var items := EvidenceItems(rr, tolerant);
    ThreeItems(items);
    assert items[3..] == [items[3]];
    OneItem(items[3]);
  }

  lemma Shape(req: Request, p: ProviderDescriptor, rr: RegionRecord)
    ensures FirstUnmet(ShapeItems(req, p, rr)) == ShapeGate(req, p, rr)
  {
    var items := ShapeItems(req, p, rr);
    ThreeItems(items);
    ThreeItems(items[3..]);
    assert items[3..][3..] == [items[6]];
    OneItem(items[6]);
    hide Remainder;
  }

  lemma Place(s: State, req: Request, p: ProviderDescriptor, found: Locality)
    ensures FirstUnmet(PlaceItems(s, req, p, found)) == Then(LocalityGate(req.localityPreference, found), PolicyGate(s, req, p))
  {
    var items := PlaceItems(s, req, p, found);
    ThreeItems(items);
    assert items[3..] == [];
  }

  /** What a capability list says of a key, in terms of its entries. */
  lemma StatusSaid(caps: CapabilityModel, key: CapabilityKey)
    ensures Says(caps, key, CAPABILITY_SUPPORTED) <==> GetCapability(caps, key) == CAPABILITY_SUPPORTED
    ensures Says(caps, key, CAPABILITY_UNSUPPORTED) <==> GetCapability(caps, key) == CAPABILITY_UNSUPPORTED
    ensures (forall c :: c in caps && c.key == key ==> c.status == CAPABILITY_UNKNOWN) <==> GetCapability(caps, key) == CAPABILITY_UNKNOWN
  {
    Admission.CapabilityLookup(caps, key, CAPABILITY_SUPPORTED);
    Admission.CapabilityLookup(caps, key, CAPABILITY_UNSUPPORTED);
    if c :| c in caps && c.key == key && c.status != CAPABILITY_UNKNOWN {
      Admission.CapabilityLookup(caps, key, c.status);
    } else if GetCapability(caps, key) != CAPABILITY_UNKNOWN {
      Admission.CapabilityLookup(caps, key, GetCapability(caps, key));
    }
  }

  lemma Capabilities(required: bool, p: ProviderDescriptor, r: RegionDescriptor, key: CapabilityKey)
    ensures FirstUnmet(CapabilityItems(required, p, r, key)) == CapabilityGate(required, p, r, key)
  {
    StatusSaid(p.capabilities, key);
    StatusSaid(r.staticCapabilities, key);
    var items := CapabilityItems(required, p, r, key);
    TwoItems(items[0], items[1]);
    hide GetCapability, Says;
  }

  lemma ItemsReasoned(s: State, req: Request, pr: ProviderRecord, rr: RegionRecord, t: bool)
    ensures Reasoned(StandingItems(pr, rr, t)) && Reasoned(EvidenceItems(rr, t)) && Reasoned(ShapeItems(req, pr.descriptor, rr))
    ensures forall b: bool, key: CapabilityKey :: Reasoned(CapabilityItems(b, pr.descriptor, rr.descriptor, key))
  {
    hide Remainder;
  }

  lemma ToleratesIff(s: State, req: Request)
    ensures AllowDegraded(s, req) <==> Tolerates(s, req)
  {
  }

  /** A region is refused for the first thing asked of it that it does not meet, and is eligible if it meets them all. */
  lemma RefusedForFirstUnmet(s: State, req: Request, rr: RegionRecord)
    ensures Eligibility(s, req, rr)
         == if rr.descriptor.provider !in s.providers then OFFLINE else FirstUnmet(Checklist(s, req, rr))
  {
    hide StandingItems, EvidenceItems, CapabilityItems, ShapeItems, PlaceItems, FirstUnmet, Tolerates, AllowDegraded, Reasoned;
    hide LifecycleGate, EvidenceGate, CapabilityGate, ShapeGate, LocalityGate, PolicyGate, Then;
    if rr.descriptor.provider in s.providers {
      var pr := s.providers[rr.descriptor.provider];
      var p, r, t := pr.descriptor, rr.descriptor, AllowDegraded(s, req);
      var room := [Item(req.requiredBytes <= rr.ledger.free, INSUFFICIENT_CAPACITY)];
      ToleratesIff(s, req);
      ItemsReasoned(s, req, pr, rr, t);
      Standing(pr, rr, t);
      Evidence(rr, t);
      Room(room[0]);
      Capabilities(req.cpuAccessible, p, r, KEY_CPU_ACCESSIBLE);
      Capabilities(req.acceleratorAccessible, p, r, KEY_ACCELERATOR_ACCESSIBLE);
      Capabilities(req.directAccessRequired, p, r, KEY_DIRECT_ACCESS);
      Shape(req, p, rr);
      Place(s, req, p, rr.latest.locality);
      Chain(StandingItems(pr, rr, t), EvidenceItems(rr, t), room,
            CapabilityItems(req.cpuAccessible, p, r, KEY_CPU_ACCESSIBLE),
            CapabilityItems(req.acceleratorAccessible, p, r, KEY_ACCELERATOR_ACCESSIBLE),
            CapabilityItems(req.directAccessRequired, p, r, KEY_DIRECT_ACCESS),
            ShapeItems(req, p, rr), PlaceItems(s, req, p, rr.latest.locality));
    }
  }

  lemma Room(a: Item)
    ensures FirstUnmet([a]) == if !a.met then a.reason else ELIGIBLE
    ensures a.reason != ELIGIBLE ==> Reasoned([a])
  {
    OneItem(a);
  }

  predicate Reasoned(items: seq<Item>) { forall i :: 0 <= i < |items| ==> items[i].reason != ELIGIBLE }

  lemma Chain(a: seq<Item>, b: seq<Item>, c: seq<Item>, d: seq<Item>, e: seq<Item>, f: seq<Item>, g: seq<Item>, h: seq<Item>)
    requires Reasoned(a) && Reasoned(b) && Reasoned(c) && Reasoned(d) && Reasoned(e) && Reasoned(f) && Reasoned(g)
    ensures FirstUnmet(a + (b + (c + (d + (e + (f + (g + h)))))))
         == Then(FirstUnmet(a), Then(FirstUnmet(b), Then(FirstUnmet(c), Then(FirstUnmet(d),
            Then(FirstUnmet(e), Then(FirstUnmet(f), Then(FirstUnmet(g), FirstUnmet(h))))))))
  {
    hide FirstUnmet, Then;
    UnmetFirst(g, h);
    UnmetFirst(f, g + h);
    UnmetFirst(e, f + (g + h));
    UnmetFirst(d, e + (f + (g + h)));
    UnmetFirst(c, d + (e + (f + (g + h))));
    UnmetFirst(b, c + (d + (e + (f + (g + h)))));
    UnmetFirst(a, b + (c + (d + (e + (f + (g + h))))));
  }

  // ---- How a region is reached ----

  /** An attachment open to the consumer says how. */
  predicate Tells(a: AttachmentEvidence, consumer: ConsumerId) {
    (a.consumer == NULL || a.consumer == consumer) && a.access != ACCESS_UNKNOWN
  }

  predicate FirstToTell(atts: seq<AttachmentEvidence>, consumer: ConsumerId, i: int) {
    0 <= i < |atts| && Tells(atts[i], consumer) && forall j :: 0 <= j < i ==> !Tells(atts[j], consumer)
  }

  lemma {:induction false} AttachedDecided(atts: seq<AttachmentEvidence>, consumer: ConsumerId, best: AccessKind)
    requires best != ACCESS_DIRECT
    ensures var k := AttachedAccess(atts, consumer, best);
            && (k == ACCESS_DIRECT <==> exists a :: a in atts && Tells(a, consumer) && a.access == ACCESS_DIRECT)
            && (k != ACCESS_DIRECT && best != ACCESS_UNKNOWN ==> k == best)
            && (k != ACCESS_DIRECT && best == ACCESS_UNKNOWN ==>
                  && ((forall a :: a in atts ==> !Tells(a, consumer)) ==> k == ACCESS_UNKNOWN)
                  && (forall i :: FirstToTell(atts, consumer, i) ==> k == atts[i].access))
  {
    if atts != [] {
      var a, rest := atts[0], atts[1..];
      assert forall x :: x in atts <==> x == a || x in rest;
      var next := if Tells(a, consumer) && best == ACCESS_UNKNOWN then a.access else best;
      if !(Tells(a, consumer) && a.access == ACCESS_DIRECT) {
        AttachedDecided(rest, consumer, next);
        forall i | FirstToTell(atts, consumer, i)
          ensures AttachedAccess(atts, consumer, best) != ACCESS_DIRECT && best == ACCESS_UNKNOWN ==>
                    AttachedAccess(atts, consumer, best) == atts[i].access
        {
          if i > 0 {
            assert !Tells(atts[0], consumer);
            assert forall j :: 0 <= j < i - 1 ==> rest[j] == atts[j + 1];
            assert FirstToTell(rest, consumer, i - 1);
          }
        }
      }
    }
  }

  /**
   Direct if an attachment open to the consumer says so; failing that, as the first such attachment says that says
   anything; failing that, as the provider declares: direct, else staged, else unknown.
   */
  lemma AccessDecided(atts: seq<AttachmentEvidence>, consumer: ConsumerId, caps: CapabilityModel)
    ensures var k := BestAccess(atts, consumer, caps);
            if exists a :: a in atts && Tells(a, consumer) then
              && (k == ACCESS_DIRECT <==> exists a :: a in atts && Tells(a, consumer) && a.access == ACCESS_DIRECT)
              && (k != ACCESS_DIRECT ==> exists i :: FirstToTell(atts, consumer, i) && k == atts[i].access)
            else
              k == if Says(caps, KEY_DIRECT_ACCESS, CAPABILITY_SUPPORTED) then ACCESS_DIRECT
                   else if Says(caps, KEY_STAGING_REQUIRED, CAPABILITY_SUPPORTED) then ACCESS_STAGED else ACCESS_UNKNOWN
  {
    AttachedDecided(atts, consumer, ACCESS_UNKNOWN);
    StatusSaid(caps, KEY_DIRECT_ACCESS);
    StatusSaid(caps, KEY_STAGING_REQUIRED);
    hide GetCapability, Says;
    if a :| a in atts && Tells(a, consumer) {
      var i := FirstTelling(atts, consumer);
      hide AttachedAccess, Tells;
    }
  }

  lemma FirstTelling(atts: seq<AttachmentEvidence>, consumer: ConsumerId) returns (i: nat)
    requires exists a :: a in atts && Tells(a, consumer)
    ensures FirstToTell(atts, consumer, i)
  {
    i := 0;
    while !Tells(atts[i], consumer)
      invariant i < |atts| && (forall j :: 0 <= j < i ==> !Tells(atts[j], consumer))
      decreases |atts| - i
    {
      if i + 1 == |atts| { assert false; }
      i := i + 1;
    }
  }

  // ---- The outcome ----

  ghost predicate Offered(s: State, req: Request) { exists rid :: IsCandidate(s, req, rid) }

  /** A considered region is refused only for want of fresh evidence or revalidation. */
  ghost predicate AwaitsEvidence(s: State, req: Request) {
    exists rid :: rid in s.regions && Considered(req, s.regions[rid]) && s.regions[rid].descriptor.provider in s.providers
                  && FirstUnmet(Checklist(s, req, s.regions[rid])) in {STALE_EVIDENCE, NEEDS_REVALIDATION}
  }

  lemma RevalidationAwaited(s: State, req: Request)
    ensures AwaitsEvidence(s, req) <==> exists rid :: rid in s.regions && CallsForRevalidation(s, req, rid)
  {
    forall rid | rid in s.regions
      ensures CallsForRevalidation(s, req, rid)
         <==> && Considered(req, s.regions[rid]) && s.regions[rid].descriptor.provider in s.providers
              && FirstUnmet(Checklist(s, req, s.regions[rid])) in {STALE_EVIDENCE, NEEDS_REVALIDATION}
    {
      RefusedForFirstUnmet(s, req, s.regions[rid]);
      hide Eligibility, FirstUnmet, Checklist, Considered;
    }
    hide CallsForRevalidation, FirstUnmet, Checklist, Considered;
  }

  /**
   Something is ranked exactly if there is a candidate, and the outcome is then staging or expansion by how the first
   is reached. Otherwise it is a local fallback where the request allows one, a revalidation where some considered
   region only lacks that, and else a rejection.
   */
  lemma OutcomeDecided(s: State, req: Request)
    ensures RankedIds(s, req) != [] <==> Offered(s, req)
    ensures Offered(s, req) ==> RankedIds(s, req)[0] in s.regions
    ensures Outcome(s, req)
         == if Offered(s, req) then
              if CandidateOf(s, req, RankedIds(s, req)[0]).access == ACCESS_STAGED then OUTCOME_STAGING else OUTCOME_EXPANSION
            else if req.allowLocalFallback && !req.expansionRequired then OUTCOME_LOCAL_FALLBACK
            else if AwaitsEvidence(s, req) then OUTCOME_REVALIDATION
            else OUTCOME_REJECT
  {
    hide RankedIds, IsCandidate, AwaitsEvidence, CallsForRevalidation;
    Admission.RankedIffCandidate(s, req);
    RevalidationAwaited(s, req);
    if RankedIds(s, req) != [] {
      Preservation.TopIsCandidate(s, req);
      Preservation.CandidateExists(s, req, RankedIds(s, req)[0]);
    }
  }
}
