/** The audit: the program's own executable check of its accounting, with its wrapping 64-bit sums. */
module Audit {
  import opened Words
  import opened Types
  import opened Ledgers
  import opened Records
  import opened Operations
  import opened Invariants
  import opened Preservation
  import opened Refusals
  import opened Fencing

  const SPAN64: int := U64_MAX + 1

  function Part(rs: map<ReservationId, Reservation>, seen: set<ReservationId>): map<ReservationId, Reservation> {
    map id | id in rs && id in seen :: rs[id]
  }

  lemma PartGrows(rs: map<ReservationId, Reservation>, seen: set<ReservationId>, id: ReservationId, rid: RegionId, bucket: Bucket)
    requires id in rs && id !in seen
    ensures Held(Part(rs, seen + {id}), rid, bucket) == Held(Part(rs, seen), rid, bucket) + Weight(rs[id], rid, bucket)
  {
    assert Part(rs, seen + {id}) == Part(rs, seen)[id := rs[id]];
    HeldAfterPut(Part(rs, seen), id, rs[id], rid, bucket);
  }

  /** No partial sum exceeds the whole, so where the whole fits in 64 bits no addition on the way wraps. */
  lemma {:induction false} PartAtMost(rs: map<ReservationId, Reservation>, seen: set<ReservationId>, rid: RegionId, bucket: Bucket)
    requires seen <= rs.Keys
    ensures Held(Part(rs, seen), rid, bucket) <= Held(rs, rid, bucket)
    decreases rs.Keys - seen
  {
    var rest := rs.Keys - seen;
    if rest == {} {
      assert forall id :: id in rs ==> id in seen || id in rest;
      assert Part(rs, seen) == rs;
    } else {
      var id :| id in rest;
      PartGrows(rs, seen, id, rid, bucket);
      PartAtMost(rs, seen + {id}, rid, bucket);
    }
  }

  lemma WrapAdd(x: nat, n: nat)
    ensures (x % SPAN64 + n) % SPAN64 == (x + n) % SPAN64
  {
  }

  /** The two sums of one region, added up with 64-bit wrap-around in whatever order the table is walked. */
  method SumRegion(rs: map<ReservationId, Reservation>, rid: RegionId) returns (reservedSum: U64, committedSum: U64)
    ensures reservedSum == Held(rs, rid, Bucket.Reserved) % SPAN64
    ensures committedSum == Held(rs, rid, Bucket.Committed) % SPAN64
  {
    hide Held;
    reservedSum, committedSum := 0, 0;
    var pending := rs.Keys;
    ghost var seen: set<ReservationId> := {};
    PartEmpty(rs, rid);
    while pending != {}
      invariant pending + seen == rs.Keys && pending !! seen
      invariant reservedSum == Held(Part(rs, seen), rid, Bucket.Reserved) % SPAN64
      invariant committedSum == Held(Part(rs, seen), rid, Bucket.Committed) % SPAN64
      decreases pending
    {
      var id :| id in pending;
      PartGrows(rs, seen, id, rid, Bucket.Reserved);
      PartGrows(rs, seen, id, rid, Bucket.Committed);
      WrapAdd(Held(Part(rs, seen), rid, Bucket.Reserved), rs[id].bytes);
      WrapAdd(Held(Part(rs, seen), rid, Bucket.Committed), rs[id].bytes);
      pending, seen := pending - {id}, seen + {id};
      if rs[id].region != rid { continue; }
      if rs[id].state.Reserved? { reservedSum := (reservedSum + rs[id].bytes) % SPAN64; }
      if rs[id].state.Committed? || rs[id].state.Active? { committedSum := (committedSum + rs[id].bytes) % SPAN64; }
    }
    assert Part(rs, seen) == rs;
  }

  lemma PartEmpty(rs: map<ReservationId, Reservation>, rid: RegionId)
    ensures Held(Part(rs, {}), rid, Bucket.Reserved) == 0 && Held(Part(rs, {}), rid, Bucket.Committed) == 0
  {
    HeldVanishes(Part(rs, {}), rid, Bucket.Reserved);
    HeldVanishes(Part(rs, {}), rid, Bucket.Committed);
  }

  // ---- What each group of checks says ----

  predicate ClosureChecks(rr: RegionRecord) { rr.ledger.Closed() && rr.ledger.online <= rr.descriptor.totalCapacityBytes }

  ghost predicate SumChecks(s: State, rid: RegionId)
    requires rid in s.regions
  {
    && Held(s.reservations, rid, Bucket.Reserved) % SPAN64 == s.regions[rid].ledger.reserved
    && Held(s.reservations, rid, Bucket.Committed) % SPAN64 == s.regions[rid].ledger.committed
  }

  /** The accounting checks, region by region. */
  method AuditAccounting(s: State) returns (ok: bool)
    ensures ok <==> forall rid :: rid in s.regions ==> ClosureChecks(s.regions[rid]) && SumChecks(s, rid)
  {
    hide Held;
    ok := true;
    var pending := s.regions.Keys;
    while pending != {}
      invariant pending <= s.regions.Keys
      invariant ok <==> forall rid :: rid in s.regions && rid !in pending ==> ClosureChecks(s.regions[rid]) && SumChecks(s, rid)
      decreases pending
    {
      var rid :| rid in pending;
      var rr := s.regions[rid];
      if !rr.ledger.Closed() { ok := false; }
      if rr.ledger.online > rr.descriptor.totalCapacityBytes { ok := false; }
      var reservedSum, committedSum := SumRegion(s.reservations, rid);
      if reservedSum != rr.ledger.reserved { ok := false; }
      if committedSum != rr.ledger.committed { ok := false; }
      pending := pending - {rid};
    }
  }

  /** Every pool member must name a region that exists at that generation. */
  method AuditPools(s: State) returns (ok: bool)
    ensures ok <==> MembersCurrent(s)
  {
    ok := true;
    var pending := s.pools.Keys;
    while pending != {}
      invariant pending <= s.pools.Keys
      invariant ok <==> forall p, m :: p in s.pools && p !in pending && m in s.pools[p].members ==> MemberCurrent(s, m)
      decreases pending
    {
      var p :| p in pending;
      var members := s.pools[p].members;
      ghost var before := ok;
      for i := 0 to |members|
        invariant ok <==> before && forall m :: m in members[..i] ==> MemberCurrent(s, m)
      {
        assert members[..i + 1] == members[..i] + [members[i]];
        if !MemberCurrent(s, members[i]) { ok := false; }
      }
      assert members[..|members|] == members;
      pending := pending - {p};
    }
  }

  /** No region awaiting revalidation may have current evidence. */
  method AuditRevalidation(s: State) returns (ok: bool)
    ensures ok <==> forall rid :: rid in s.regions ==> RevalidatedQuietly(s.regions[rid])
  {
    ok := true;
    var pending := s.regions.Keys;
    while pending != {}
      invariant pending <= s.regions.Keys
      invariant ok <==> forall rid :: rid in s.regions && rid !in pending ==> RevalidatedQuietly(s.regions[rid])
      decreases pending
    {
      var rid :| rid in pending;
      if s.regions[rid].lifecycle.RevalidationRequired? && s.regions[rid].evidenceStatus.Current? { ok := false; }
      pending := pending - {rid};
    }
  }

  method AuditAll(s: State) returns (ok: bool)
    ensures ok <==>
      && (forall rid :: rid in s.regions ==> ClosureChecks(s.regions[rid]) && SumChecks(s, rid))
      && MembersCurrent(s)
      && (forall rid :: rid in s.regions ==> RevalidatedQuietly(s.regions[rid]))
  {
    hide MembersCurrent, ClosureChecks, SumChecks, RevalidatedQuietly;
    var accounting := AuditAccounting(s);
    var members := AuditPools(s);
    var quiet := AuditRevalidation(s);
    ok := accounting && members && quiet;
  }

  // ---- The accounting checks always pass ----

  lemma BucketsFit(l: Ledger)
    requires l.Closed()
    ensures 0 <= l.reserved <= U64_MAX && 0 <= l.committed <= U64_MAX
    ensures l.reserved % SPAN64 == l.reserved && l.committed % SPAN64 == l.committed
  {
  }

  /** In any reachable state the accounting checks pass, and no sum, whole or partial, leaves 64 bits. */
  lemma AccountingAlwaysPasses(s: State, rid: RegionId, seen: set<ReservationId>)
    requires Inv(s) && rid in s.regions && seen <= s.reservations.Keys
    ensures ClosureChecks(s.regions[rid]) && SumChecks(s, rid)
    ensures Held(Part(s.reservations, seen), rid, Bucket.Reserved) <= U64_MAX
    ensures Held(Part(s.reservations, seen), rid, Bucket.Committed) <= U64_MAX
  {
    hide Inv, Held, EvidenceFits, Part;
    RegionFacts(s, rid);
    BucketsFit(s.regions[rid].ledger);
    PartAtMost(s.reservations, seen, rid, Bucket.Reserved);
    PartAtMost(s.reservations, seen, rid, Bucket.Committed);
  }

  /** So along every run the audit verdict depends only on pool members and quiet revalidation. */
  lemma AuditVerdict(e: Epoch, ops: seq<Op>)
    requires |ops| <= U64_MAX
    ensures var s := Run(Initial(e), ops);
            forall rid :: rid in s.regions ==> ClosureChecks(s.regions[rid]) && SumChecks(s, rid)
  {
    ReachableInv(e, ops);
    hide Inv, Run, Held, ClosureChecks, SumChecks;
    var s := Run(Initial(e), ops);
    forall rid | rid in s.regions ensures ClosureChecks(s.regions[rid]) && SumChecks(s, rid) {
      AccountingAlwaysPasses(s, rid, {});
    }
  }
}
