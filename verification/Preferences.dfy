/**
 What decides the order of a ranking: the observed facts, read from the region records, and what each is
 worth in points. Everything here is stated of regions and their order, not of the scoring functions.
 */
module Preferences {
  import opened Words
  import opened Types
  import opened Records
  import opened Ranking
  import opened Selection
  import Evaluation

  // ---- The order of two regions ----

  ghost predicate Before(ids: seq<RegionId>, x: RegionId, y: RegionId) {
    exists i, j :: 0 <= i < j < |ids| && ids[i] == x && ids[j] == y
  }

  lemma BeforeIff(scores: Scores, ids: seq<U64>, x: U64, y: U64)
    requires IsRanking(scores, ids) && x in scores && y in scores && x != y
    ensures Before(ids, x, y) <==> Ahead(scores, x, y)
  {
    assert x in ids && y in ids;
    if Before(ids, x, y) {
      var k, l :| 0 <= k < l < |ids| && ids[k] == x && ids[l] == y;
      assert Ahead(scores, ids[k], ids[l]);
    } else {
      var i :| 0 <= i < |ids| && ids[i] == x;
      var j :| 0 <= j < |ids| && ids[j] == y;
      assert Ahead(scores, ids[j], ids[i]);
    }
  }

  lemma RankedByScore(s: State, req: Request, x: RegionId, y: RegionId)
    requires IsCandidate(s, req, x) && IsCandidate(s, req, y) && x != y
    ensures x in s.regions && y in s.regions
    ensures Before(RankedIds(s, req), x, y)
       <==> ScoreOf(s, req, x) > ScoreOf(s, req, y) || (ScoreOf(s, req, x) == ScoreOf(s, req, y) && x < y)
  {
    hide IsCandidate, ScoreOf, Before, IsRanking, Rank;
    CandidateRegion(s, req, x);
    CandidateRegion(s, req, y);
    RankIsRanking(ScoresOf(s, req));
    BeforeIff(ScoresOf(s, req), RankedIds(s, req), x, y);
  }

  lemma CandidateRegion(s: State, req: Request, rid: RegionId)
    requires IsCandidate(s, req, rid)
    ensures rid in s.regions
  {
  }

  // ---- What a region is worth ----

  function LocalityPoints(l: Locality): real {
    if l == LOCALITY_LOCAL then 30.0 else if l == LOCALITY_FABRIC then 21.0
    else if l == LOCALITY_REMOTE then 15.0 else 9.0
  }

  function AccessPoints(k: AccessKind): real {
    if k == ACCESS_DIRECT then 15.0 else if k == ACCESS_STAGED then 9.0 else 6.0
  }

  function HealthPoints(h: HealthState): real {
    if h == HEALTH_HEALTHY then 5.0 else if h == HEALTH_DEGRADED then 3.0 else if h == HEALTH_FAILED then 0.0 else 2.5
  }

  /** Up to 20 points the further below the slowest candidate; an unknown latency earns none. */
  function LatencyPoints(latency: nat, slowest: nat): real
    requires latency <= slowest
  {
    if latency == 0 then 0.0 else 20.0 * ((slowest - latency) as real / slowest as real)
  }

  /** Up to 20 points in proportion to the widest candidate; all of them where no bandwidth is known. */
  function BandwidthPoints(bandwidth: nat, widest: nat): real {
    if widest == 0 then 20.0 else 20.0 * (bandwidth as real / widest as real)
  }

  /** Up to 15 points for room, all of them from the size asked for plus its headroom on. */
  function HeadroomPoints(free: int, required: nat, headroom: Headroom): real
    requires required > 0
  {
    Positive(required as real, headroom);
    var target := required as real * (1.0 + headroom);
    if free as real >= target then 15.0 else 15.0 * (free as real / target)
  }

  /** The slowest known latency and the widest known bandwidth among the candidates, or zero. */
  ghost predicate IsSlowest(s: State, req: Request, m: nat) {
    && (forall rid :: IsCandidate(s, req, rid) ==> rid in s.regions && s.regions[rid].latencyNs <= m)
    && (m != 0 ==> exists rid :: IsCandidate(s, req, rid) && rid in s.regions && s.regions[rid].latencyNs == m)
  }

  ghost predicate IsWidest(s: State, req: Request, m: nat) {
    && (forall rid :: IsCandidate(s, req, rid) ==> rid in s.regions && s.regions[rid].bandwidthBytesPerSec <= m)
    && (m != 0 ==> exists rid :: IsCandidate(s, req, rid) && rid in s.regions && s.regions[rid].bandwidthBytesPerSec == m)
  }

  lemma SlowestIs(s: State, req: Request, m: nat)
    requires IsSlowest(s, req, m)
    ensures m == MaxLatency(s, req)
  {
    hide IsCandidate;
    GreatestIs(set rid | rid in s.regions && IsCandidate(s, req, rid) :: s.regions[rid].latencyNs, m);
  }

  lemma WidestIs(s: State, req: Request, m: nat)
    requires IsWidest(s, req, m)
    ensures m == MaxBandwidth(s, req)
  {
    hide IsCandidate;
    GreatestIs(set rid | rid in s.regions && IsCandidate(s, req, rid) :: s.regions[rid].bandwidthBytesPerSec, m);
  }

  function AccessOf(s: State, req: Request, rid: RegionId): AccessKind
    requires rid in s.regions
  {
    var rr := s.regions[rid];
    BestAccess(rr.attachments, req.consumer,
               if rr.descriptor.provider in s.providers then s.providers[rr.descriptor.provider].descriptor.capabilities else [])
  }

  /** Points out of 105, from the region's record. */
  function Worth(s: State, req: Request, rid: RegionId, slowest: nat, widest: nat): real
    requires rid in s.regions && s.regions[rid].latencyNs <= slowest && req.requiredBytes > 0
  {
    var rr := s.regions[rid];
    LocalityPoints(rr.latest.locality) + LatencyPoints(rr.latencyNs, slowest)
    + BandwidthPoints(rr.bandwidthBytesPerSec, widest)
    + HeadroomPoints(rr.ledger.free, req.requiredBytes, req.reserveHeadroomFactor)
    + AccessPoints(AccessOf(s, req, rid)) + HealthPoints(rr.health)
  }

  lemma FixedPoints(l: Locality, k: AccessKind, h: HealthState)
    ensures 30.0 * LocalityScore(l) == LocalityPoints(l)
    ensures 15.0 * AccessScore(k) == AccessPoints(k)
    ensures 5.0 * HealthScore(h) == HealthPoints(h)
  {
  }

  lemma PointsOfLatency(latency: nat, slowest: nat)
    requires latency <= slowest
    ensures 20.0 * LatencyScore(latency, slowest) == LatencyPoints(latency, slowest)
  {
    if latency > 0 {
      assert (slowest - latency) as real == slowest as real - latency as real;
      Quotient(slowest as real, latency as real);
    }
  }

  lemma Quotient(m: real, x: real)
    requires m > 0.0
    ensures (m - x) / m == 1.0 - x / m
  {
    assert (m - x) / m == m / m - x / m;
  }

  lemma PointsOfBandwidth(bandwidth: nat, widest: nat)
    ensures 20.0 * BandwidthScore(bandwidth, widest) == BandwidthPoints(bandwidth, widest)
  {
  }

  lemma PointsOfHeadroom(free: int, required: nat, headroom: Headroom)
    requires required > 0
    ensures 15.0 * HeadroomScore(free, required, headroom) == HeadroomPoints(free, required, headroom)
  {
    Positive(required as real, headroom);
    var target := required as real * (1.0 + headroom);
    Ratio(free as real, target);
  }

  lemma Ratio(x: real, d: real)
    requires d > 0.0
    ensures x / d > 1.0 <==> x > d
    ensures x / d == 1.0 <==> x == d
  {
    var q := x / d;
    assert q * d == x;
    if q > 1.0 { assert (q - 1.0) * d > 0.0; }
    if q < 1.0 { assert (1.0 - q) * d > 0.0; }
  }

  /** The score of a candidate is a hundredth of its points. */
  lemma ScoreIsWorth(s: State, req: Request, rid: RegionId, slowest: nat, widest: nat)
    requires IsCandidate(s, req, rid) && IsSlowest(s, req, slowest) && IsWidest(s, req, widest) && req.requiredBytes > 0
    ensures rid in s.regions && s.regions[rid].latencyNs <= slowest
    ensures 100.0 * ScoreOf(s, req, rid) == Worth(s, req, rid, slowest, widest)
  {
    CandidateRegion(s, req, rid);
    SlowestIs(s, req, slowest);
    WidestIs(s, req, widest);
    var rr := s.regions[rid];
    FixedPoints(rr.latest.locality, AccessOf(s, req, rid), rr.health);
    PointsOfLatency(rr.latencyNs, slowest);
    PointsOfBandwidth(rr.bandwidthBytesPerSec, widest);
    PointsOfHeadroom(rr.ledger.free, req.requiredBytes, req.reserveHeadroomFactor);
    hide IsCandidate, IsSlowest, IsWidest, LocalityScore, LatencyScore, BandwidthScore, HeadroomScore, AccessScore, HealthScore;
    hide LocalityPoints, LatencyPoints, BandwidthPoints, HeadroomPoints, AccessPoints, HealthPoints, BestAccess;
    hide MaxLatency, MaxBandwidth;
    var c := CandidateOf(s, req, rid);
    assert c.access == AccessOf(s, req, rid);
  }

  /** One candidate is ranked before another exactly when it has more points, or as many and the lower id. */
  lemma RankedByWorth(s: State, req: Request, x: RegionId, y: RegionId, slowest: nat, widest: nat)
    requires IsCandidate(s, req, x) && IsCandidate(s, req, y) && x != y && req.requiredBytes > 0
    requires IsSlowest(s, req, slowest) && IsWidest(s, req, widest)
    ensures x in s.regions && s.regions[x].latencyNs <= slowest && y in s.regions && s.regions[y].latencyNs <= slowest
    ensures var p, q := Worth(s, req, x, slowest, widest), Worth(s, req, y, slowest, widest);
            Before(RankedIds(s, req), x, y) <==> p > q || (p == q && x < y)
  {
    hide IsCandidate, IsSlowest, IsWidest, Worth, ScoreOf, RankedIds, Before;
    ScoreIsWorth(s, req, x, slowest, widest);
    ScoreIsWorth(s, req, y, slowest, widest);
    RankedByScore(s, req, x, y);
  }

  // ---- Better in one respect, no worse in the others ----

  function LocalityRank(l: Locality): nat {
    if l == LOCALITY_LOCAL then 3 else if l == LOCALITY_FABRIC then 2 else if l == LOCALITY_REMOTE then 1 else 0
  }

  function AccessRank(k: AccessKind): nat { if k == ACCESS_DIRECT then 2 else if k == ACCESS_STAGED then 1 else 0 }

  function HealthRank(h: HealthState): nat {
    if h == HEALTH_HEALTHY then 3 else if h == HEALTH_DEGRADED then 2 else if h == HEALTH_FAILED then 0 else 1
  }

  /** Room counts only up to the size asked for plus its headroom. */
  predicate ShortOfRoom(req: Request, free: int) {
    free as real < req.requiredBytes as real * (1.0 + req.reserveHeadroomFactor)
  }

  predicate NoWorse(s: State, req: Request, x: RegionId, y: RegionId)
    requires x in s.regions && y in s.regions
  {
    var p, q := s.regions[x], s.regions[y];
    && LocalityRank(p.latest.locality) >= LocalityRank(q.latest.locality)
    && (q.latencyNs == 0 || 0 < p.latencyNs <= q.latencyNs)
    && p.bandwidthBytesPerSec >= q.bandwidthBytesPerSec
    && (p.ledger.free >= q.ledger.free || !ShortOfRoom(req, p.ledger.free))
    && AccessRank(AccessOf(s, req, x)) >= AccessRank(AccessOf(s, req, y))
    && HealthRank(p.health) >= HealthRank(q.health)
  }

  predicate BetterSomewhere(s: State, req: Request, x: RegionId, y: RegionId)
    requires x in s.regions && y in s.regions
  {
    var p, q := s.regions[x], s.regions[y];
    || LocalityRank(p.latest.locality) > LocalityRank(q.latest.locality)
    || 0 < p.latencyNs < q.latencyNs
    || p.bandwidthBytesPerSec > q.bandwidthBytesPerSec
    || (p.ledger.free > q.ledger.free && ShortOfRoom(req, q.ledger.free))
    || AccessRank(AccessOf(s, req, x)) > AccessRank(AccessOf(s, req, y))
    || HealthRank(p.health) > HealthRank(q.health)
  }

  lemma RanksInPoints(l: Locality, l': Locality, k: AccessKind, k': AccessKind, h: HealthState, h': HealthState)
    ensures LocalityPoints(l) > LocalityPoints(l') <==> LocalityRank(l) > LocalityRank(l')
    ensures AccessPoints(k) > AccessPoints(k') <==> AccessRank(k) > AccessRank(k')
    ensures HealthPoints(h) > HealthPoints(h') <==> HealthRank(h) > HealthRank(h')
  {
  }

  lemma Fractions(x: real, y: real, d: real)
    requires d > 0.0
    ensures x / d > y / d <==> x > y
    ensures x >= 0.0 ==> x / d >= 0.0
  {
    var p, q := x / d, y / d;
    assert p * d == x && q * d == y;
    if p > q { assert (p - q) * d > 0.0; } else { assert (q - p) * d >= 0.0; }
    if p < 0.0 { assert (0.0 - p) * d > 0.0; }
  }

  lemma LatencyOrder(l: nat, l': nat, slowest: nat)
    requires l <= slowest && l' <= slowest
    ensures l' == 0 || 0 < l <= l' ==> LatencyPoints(l, slowest) >= LatencyPoints(l', slowest)
    ensures 0 < l < l' ==> LatencyPoints(l, slowest) > LatencyPoints(l', slowest)
  {
    if slowest > 0 {
      Fractions((slowest - l) as real, (slowest - l') as real, slowest as real);
      Fractions((slowest - l') as real, (slowest - l) as real, slowest as real);
    }
  }

  lemma BandwidthOrder(b: nat, b': nat, widest: nat)
    requires b <= widest && b' <= widest
    ensures b >= b' ==> BandwidthPoints(b, widest) >= BandwidthPoints(b', widest)
    ensures b > b' ==> BandwidthPoints(b, widest) > BandwidthPoints(b', widest)
  {
    if widest > 0 {
      Fractions(b as real, b' as real, widest as real);
      Fractions(b' as real, b as real, widest as real);
    }
  }

  lemma HeadroomOrder(req: Request, f: int, f': int)
    requires req.requiredBytes > 0
    ensures var (p, p') := (HeadroomPoints(f, req.requiredBytes, req.reserveHeadroomFactor),
                            HeadroomPoints(f', req.requiredBytes, req.reserveHeadroomFactor));
            && (f >= f' || !ShortOfRoom(req, f) ==> p >= p')
            && (f > f' && ShortOfRoom(req, f') ==> p > p')
  {
    var target := req.requiredBytes as real * (1.0 + req.reserveHeadroomFactor);
    Positive(req.requiredBytes as real, req.reserveHeadroomFactor);
    Fractions(f as real, f' as real, target);
    Fractions(f' as real, f as real, target);
    Ratio(f' as real, target);
  }

  /** A candidate that is no worse than another in any respect and better in one is ranked before it. */
  lemma BetterIsBefore(s: State, req: Request, x: RegionId, y: RegionId)
    requires IsCandidate(s, req, x) && IsCandidate(s, req, y) && x != y && req.requiredBytes > 0
    requires x in s.regions && y in s.regions && NoWorse(s, req, x, y) && BetterSomewhere(s, req, x, y)
    ensures Before(RankedIds(s, req), x, y)
  {
    var slowest, widest := MaximaAreBounds(s, req);
    RankedByWorth(s, req, x, y, slowest, widest);
    WidestBounds(s, req, x, widest);
    WidestBounds(s, req, y, widest);
    var p, q := s.regions[x], s.regions[y];
    hide IsCandidate, IsSlowest, IsWidest, Before, RankedIds;
    RanksInPoints(p.latest.locality, q.latest.locality, AccessOf(s, req, x), AccessOf(s, req, y), p.health, q.health);
    RanksInPoints(q.latest.locality, p.latest.locality, AccessOf(s, req, y), AccessOf(s, req, x), q.health, p.health);
    LatencyOrder(p.latencyNs, q.latencyNs, slowest);
    BandwidthOrder(p.bandwidthBytesPerSec, q.bandwidthBytesPerSec, widest);
    HeadroomOrder(req, p.ledger.free, q.ledger.free);
    hide LocalityPoints, LatencyPoints, BandwidthPoints, HeadroomPoints, AccessPoints, HealthPoints, ShortOfRoom;
    hide LocalityRank, AccessRank, HealthRank, AccessOf;
  }

  lemma WidestBounds(s: State, req: Request, rid: RegionId, widest: nat)
    requires IsCandidate(s, req, rid) && IsWidest(s, req, widest)
    ensures rid in s.regions && s.regions[rid].bandwidthBytesPerSec <= widest
  {
  }

  /** Every state has a slowest and a widest candidate. */
  lemma MaximaAreBounds(s: State, req: Request) returns (slowest: nat, widest: nat)
    ensures IsSlowest(s, req, slowest) && IsWidest(s, req, widest)
  {
    hide *;
    slowest, widest := MaxLatency(s, req), MaxBandwidth(s, req);
    SlowestExists(s, req);
    WidestExists(s, req);
  }

  lemma SlowestExists(s: State, req: Request)
    ensures IsSlowest(s, req, MaxLatency(s, req))
  {
    forall rid | IsCandidate(s, req, rid) ensures rid in s.regions && s.regions[rid].latencyNs <= MaxLatency(s, req) {
      CandidateRegion(s, req, rid);
      MaximaCover(s, req, rid);
    }
    hide IsCandidate;
  }

  lemma WidestExists(s: State, req: Request)
    ensures IsWidest(s, req, MaxBandwidth(s, req))
  {
    forall rid | IsCandidate(s, req, rid)
      ensures rid in s.regions && s.regions[rid].bandwidthBytesPerSec <= MaxBandwidth(s, req)
    {
      CandidateRegion(s, req, rid);
      MaximaCover(s, req, rid);
    }
    hide IsCandidate;
  }

  predicate InOrder(s: State, req: Request, x: RegionId, y: RegionId) {
    x in s.regions && y in s.regions && !(NoWorse(s, req, y, x) && BetterSomewhere(s, req, y, x))
  }

  /** No two of a ranking are in the wrong order: the later one is not better without being worse. */
  lemma NeverMisplaced(s: State, req: Request, i: nat, j: nat)
    requires i < j < |RankedIds(s, req)| && req.requiredBytes > 0
    ensures InOrder(s, req, RankedIds(s, req)[i], RankedIds(s, req)[j])
  {
    hide RankedIds, IsCandidate, NoWorse, BetterSomewhere, ScoreOf;
    var ids := RankedIds(s, req);
    var x, y := ids[i], ids[j];
    RankedAreCandidates(s, req);
    assert x in ids && y in ids;
    CandidateRegion(s, req, x);
    CandidateRegion(s, req, y);
    RankedOnce(s, req, i, j);
    assert Before(ids, x, y);
    if NoWorse(s, req, y, x) && BetterSomewhere(s, req, y, x) {
      BetterIsBefore(s, req, y, x);
      RankedByScore(s, req, x, y);
      RankedByScore(s, req, y, x);
    }
  }

  lemma RankedOnce(s: State, req: Request, i: nat, j: nat)
    requires i < j < |RankedIds(s, req)|
    ensures RankedIds(s, req)[i] != RankedIds(s, req)[j]
  {
    RankIsRanking(ScoresOf(s, req));
    hide Rank, ScoresOf;
    assert Ahead(ScoresOf(s, req), RankedIds(s, req)[i], RankedIds(s, req)[j]);
  }

  /** The list of a selection, entry by entry: no later one is better than an earlier one without being worse. */
  predicate WellOrdered(s: State, req: Request, list: seq<RankedCandidate<real>>) {
    forall i, j :: 0 <= i < j < |list| ==> InOrder(s, req, list[i].region, list[j].region)
  }

  lemma ListRegion(s: State, req: Request, i: nat)
    requires i < |RankedIds(s, req)|
    ensures Evaluation.RankedList(s, req)[i].region == RankedIds(s, req)[i]
  {
    hide RankedIds, IsCandidate;
    RankedAreCandidates(s, req);
    assert RankedIds(s, req)[i] in RankedIds(s, req);
    CandidateRegion(s, req, RankedIds(s, req)[i]);
    hide ScoreOf, CandidateOf, Factors, MaxLatency, MaxBandwidth;
  }

  lemma ListWellOrdered(s: State, req: Request)
    requires req.requiredBytes > 0
    ensures WellOrdered(s, req, Evaluation.RankedList(s, req))
  {
    hide RankedIds, InOrder, Evaluation.RankedList;
    var list := Evaluation.RankedList(s, req);
    forall i, j | 0 <= i < j < |list|
      ensures InOrder(s, req, list[i].region, list[j].region)
    {
      ListRegion(s, req, i);
      ListRegion(s, req, j);
      NeverMisplaced(s, req, i, j);
    }
  }

  // ---- What is published of each entry ----

  predicate Spells(name: Bytes, word: string) { |name| == |word| && forall i :: 0 <= i < |word| ==> name[i] == word[i] as int }

  /** A factor of that name, observed value and points. */
  predicate Accounts(f: RankingFactor<real>, word: string, observed: real, points: real) {
    Spells(f.name, word) && f.raw == observed && 100.0 * (f.weight * f.normalized) == points
  }

  lemma NamesSpelt()
    ensures Spells(NAME_LOCALITY, "locality") && Spells(NAME_LATENCY, "latency") && Spells(NAME_BANDWIDTH, "bandwidth")
    ensures Spells(NAME_HEADROOM, "headroom") && Spells(NAME_ACCESS, "access") && Spells(NAME_HEALTH, "health")
  {
  }

  lemma FactorsAccount(s: State, req: Request, rid: RegionId, slowest: nat, widest: nat)
    requires rid in s.regions && s.regions[rid].latencyNs <= slowest && req.requiredBytes > 0
    ensures var rr := s.regions[rid];
            var fs := Factors(CandidateOf(s, req, rid), slowest, widest, req.reserveHeadroomFactor);
            && |fs| == 6
            && Accounts(fs[0], "locality", LocalityPoints(rr.latest.locality) / 30.0, LocalityPoints(rr.latest.locality))
            && Accounts(fs[1], "latency", rr.latencyNs as real, LatencyPoints(rr.latencyNs, slowest))
            && Accounts(fs[2], "bandwidth", rr.bandwidthBytesPerSec as real, BandwidthPoints(rr.bandwidthBytesPerSec, widest))
            && Accounts(fs[3], "headroom", rr.ledger.free as real,
                        HeadroomPoints(rr.ledger.free, req.requiredBytes, req.reserveHeadroomFactor))
            && Accounts(fs[4], "access", AccessOf(s, req, rid) as real, AccessPoints(AccessOf(s, req, rid)))
            && Accounts(fs[5], "health", rr.health as real, HealthPoints(rr.health))
  {
    var rr := s.regions[rid];
    NamesSpelt();
    FixedPoints(rr.latest.locality, AccessOf(s, req, rid), rr.health);
    PointsOfLatency(rr.latencyNs, slowest);
    PointsOfBandwidth(rr.bandwidthBytesPerSec, widest);
    PointsOfHeadroom(rr.ledger.free, req.requiredBytes, req.reserveHeadroomFactor);
    hide LocalityScore, LatencyScore, BandwidthScore, HeadroomScore, AccessScore, HealthScore, Spells;
    hide LocalityPoints, LatencyPoints, BandwidthPoints, HeadroomPoints, AccessPoints, HealthPoints, BestAccess;
    assert CandidateOf(s, req, rid).access == AccessOf(s, req, rid);
  }

  /** Each entry of a ranking: whose it is, its points, and six factors that account for them. */
  lemma EntryExplained(s: State, req: Request, rid: RegionId, slowest: nat, widest: nat)
    requires IsCandidate(s, req, rid) && IsSlowest(s, req, slowest) && IsWidest(s, req, widest) && req.requiredBytes > 0
    ensures rid in s.regions && s.regions[rid].latencyNs <= slowest
    ensures var e, rr := RankedEntry(s, req, rid), s.regions[rid];
            && e.region == rid && e.provider == rr.descriptor.provider && e.pool == req.preferredPool && e.bytes == req.requiredBytes
            && 100.0 * e.score == Worth(s, req, rid, slowest, widest)
            && |e.factors| == 6
            && Accounts(e.factors[0], "locality", LocalityPoints(rr.latest.locality) / 30.0, LocalityPoints(rr.latest.locality))
            && Accounts(e.factors[1], "latency", rr.latencyNs as real, LatencyPoints(rr.latencyNs, slowest))
            && Accounts(e.factors[2], "bandwidth", rr.bandwidthBytesPerSec as real, BandwidthPoints(rr.bandwidthBytesPerSec, widest))
            && Accounts(e.factors[3], "headroom", rr.ledger.free as real,
                        HeadroomPoints(rr.ledger.free, req.requiredBytes, req.reserveHeadroomFactor))
            && Accounts(e.factors[4], "access", AccessOf(s, req, rid) as real, AccessPoints(AccessOf(s, req, rid)))
            && Accounts(e.factors[5], "health", rr.health as real, HealthPoints(rr.health))
  {
    ScoreIsWorth(s, req, rid, slowest, widest);
    SlowestIs(s, req, slowest);
    WidestIs(s, req, widest);
    FactorsAccount(s, req, rid, slowest, widest);
    hide IsCandidate, IsSlowest, IsWidest, MaxLatency, MaxBandwidth, Factors, Worth, ScoreOf, Accounts, BestAccess;
  }

  // ---- What one respect is worth against another ----

  /**
   Two candidates alike but for locality and bandwidth: a step of locality outweighs exactly the share of the
   widest bandwidth that its points are of twenty, so LOCAL beats FABRIC at up to 45 per cent less bandwidth.
   */
  lemma LocalityAgainstBandwidth(s: State, req: Request, x: RegionId, y: RegionId, widest: nat)
    requires IsCandidate(s, req, x) && IsCandidate(s, req, y) && x != y && req.requiredBytes > 0
    requires IsWidest(s, req, widest) && widest > 0
    requires x in s.regions && y in s.regions
    requires var p, q := s.regions[x], s.regions[y];
             && p.latest.locality == LOCALITY_LOCAL && q.latest.locality == LOCALITY_FABRIC
             && p.latencyNs == q.latencyNs && p.ledger.free == q.ledger.free && p.health == q.health
             && AccessOf(s, req, x) == AccessOf(s, req, y)
    ensures var lead := 20 * (s.regions[y].bandwidthBytesPerSec - s.regions[x].bandwidthBytesPerSec);
            Before(RankedIds(s, req), x, y) <==> lead < 9 * widest || (lead == 9 * widest && x < y)
  {
    var slowest, _ := MaximaAreBounds(s, req);
    RankedByWorth(s, req, x, y, slowest, widest);
    hide IsCandidate, IsSlowest, IsWidest, Before, RankedIds, LatencyPoints, HeadroomPoints, AccessPoints, HealthPoints, AccessOf;
    Shares(s.regions[x].bandwidthBytesPerSec, s.regions[y].bandwidthBytesPerSec, widest);
    hide BandwidthPoints;
  }

  lemma Shares(b: nat, b': nat, widest: nat)
    requires widest > 0
    ensures var gain := 9.0 + BandwidthPoints(b, widest) - BandwidthPoints(b', widest);
            && (gain > 0.0 <==> 20 * (b' - b) < 9 * widest)
            && (gain == 0.0 <==> 20 * (b' - b) == 9 * widest)
  {
    var w := widest as real;
    var p, q := b as real / w, b' as real / w;
    assert p * w == b as real && q * w == b' as real;
    var gain := 9.0 + 20.0 * p - 20.0 * q;
    assert gain * w == (9 * widest - 20 * (b' - b)) as real;
    if gain > 0.0 { assert gain * w > 0.0; } else if gain < 0.0 { assert (0.0 - gain) * w > 0.0; }
  }

  // ---- The ends of the scale ----

  /** An unknown latency earns nothing, nor does the slowest; a region near zero latency earns nearly 20 points. */
  lemma LatencyEnds(latency: nat, slowest: nat)
    requires latency <= slowest
    ensures LatencyScore(latency, slowest) == 0.0 <==> latency == 0 || latency == slowest
    ensures LatencyScore(latency, slowest) * slowest as real == if latency == 0 then 0.0 else (slowest - latency) as real
  {
    PointsOfLatency(latency, slowest);
    if latency > 0 {
      Fractions((slowest - latency) as real, 0.0, slowest as real);
    }
  }

  /** Only the widest earns all of its points, and only an unknown bandwidth beside a known one earns nothing. */
  lemma WidestEarnsAll(bandwidth: nat, widest: nat)
    requires bandwidth <= widest
    ensures BandwidthScore(bandwidth, widest) == 1.0 <==> bandwidth == widest
    ensures BandwidthScore(bandwidth, widest) == 0.0 <==> bandwidth == 0 && widest > 0
  {
    if widest > 0 {
      Ratio(bandwidth as real, widest as real);
      Fractions(bandwidth as real, 0.0, widest as real);
      Fractions(0.0, bandwidth as real, widest as real);
    }
  }
}
