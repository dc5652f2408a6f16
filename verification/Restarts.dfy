/** What a coordinator knows after a restart, entry by entry, and what of it any state before could have told. */
module Restarts {
  import opened Words
  import opened Types
  import opened Records
  import Persistence
  import StateFile

  /** A region as it comes back: its structure, and nothing of its capacity, its evidence or its attachments. */
  predicate Returned(d: RegionDescriptor, rr: RegionRecord) {
    && rr.descriptor == d && rr.lifecycle.RevalidationRequired?
    && rr.ledger.total == d.totalCapacityBytes && rr.ledger.online == rr.ledger.free == 0
    && rr.ledger.reserved == rr.ledger.committed == rr.ledger.draining == rr.ledger.unavailable == 0
    && !rr.hasEvidence && rr.evidenceStatus.Unknown? && rr.health == HEALTH_UNKNOWN && !rr.reachable
    && rr.latencyNs == rr.bandwidthBytesPerSec == 0 && rr.attachments == []
  }

  /** The next epoch; all structure awaiting revalidation; pools, policies and consumers as saved; nothing dynamic. */
  ghost predicate Resumes(s: State, t: State) {
    && t.epoch == (if s.epoch == U64_MAX then 0 else s.epoch + 1)
    && t.providers.Keys == s.providers.Keys
    && (forall p :: p in s.providers ==>
          t.providers[p].descriptor == s.providers[p].descriptor && t.providers[p].lifecycle.RevalidationRequired?)
    && t.domains.Keys == s.domains.Keys
    && (forall d :: d in s.domains ==>
          t.domains[d].descriptor == s.domains[d].descriptor && t.domains[d].lifecycle.RevalidationRequired?)
    && t.regions.Keys == s.regions.Keys
    && (forall r :: r in s.regions ==> Returned(s.regions[r].descriptor, t.regions[r]))
    && (forall r, p, g :: r in s.regions ==>
          ((p, g) in t.regions[r].memberships <==> p in s.pools && g == s.pools[p].generation && Names(s.pools[p], r)))
    && t.pools == s.pools && t.policies == s.policies && t.consumers == s.consumers
    && t.reservations == map[] && t.workers == map[] && t.nextSelection == 1 && t.nextReservation == 1
  }

  lemma RecoveredResumes(s: State)
    ensures Resumes(s, Persistence.Recovered(s))
  {
    hide Names;
  }

  lemma LimitsInNumbers(l: StateFile.Listing)
    ensures StateFile.WithinLimits(l)
       <==> && |l.providers| <= 8192 && |l.domains| <= 8192 && |l.regions| <= 8192
            && |l.pools| <= 8192 && |l.policies| <= 8192 && |l.consumers| <= 8192
            && (forall d :: d in l.providers ==> |d.name| <= 1024 && Short(d.capabilities))
            && (forall d :: d in l.domains ==> |d.name| <= 1024)
            && (forall d :: d in l.regions ==> |d.name| <= 1024 && Short(d.staticCapabilities))
            && (forall d :: d in l.pools ==> |d.name| <= 1024 && |d.members| <= 8192)
            && (forall d :: d in l.policies ==>
                  |d.name| <= 1024 && |d.rules| <= 8192 && forall r :: r in d.rules ==> |r.key| <= 1024 && |r.value| <= 1024)
  {
  }

  predicate Short(caps: CapabilityModel) { |caps| <= 8192 && forall c :: c in caps ==> |c.note| <= 1024 }

  /** A saved file loads if and only if its epoch is not zero and every text and count is within limits; then the coordinator resumes. */
  lemma LoadedResumes(s: State, l: StateFile.Listing)
    requires Persistence.Lists(s, l) && Persistence.Save(l).Ok?
    ensures var r := Persistence.Load(Persistence.Save(l).value);
            && (r.Ok? <==> s.epoch != 0 && StateFile.WithinLimits(l))
            && (r.Ok? ==> Resumes(s, r.value))
            && (r.Fail? ==> r.error == Corrupt)
  {
    hide Persistence.Lists, Persistence.Save, Persistence.Load, Persistence.Recovered, StateFile.WithinLimits, Resumes;
    Persistence.LoadSaved(s, l);
    RecoveredResumes(s);
  }
}
