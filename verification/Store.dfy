/** Save and load as the program runs them: walks over maps, cursors over bytes, tables filled row by row. */
module Store {
  import opened Words
  import opened Wire
  import opened Types
  import opened Records
  import opened StateFile
  import opened Persistence
  import opened Invariants
  import Crc
  import Cursor

  // ---- Saving ----

  /** One walk over a map, in whatever order it yields its keys. */
  method Enumerate<T(!new)>(m: map<U64, T>, ghost key: T -> U64) returns (rows: seq<T>)
    requires forall k :: k in m ==> key(m[k]) == k
    ensures Enumerates(m, rows, key)
  {
    rows := [];
    var pending := m.Keys;
    while pending != {}
      invariant pending <= m.Keys
      invariant forall i :: 0 <= i < |rows| ==> key(rows[i]) in m && key(rows[i]) !in pending && m[key(rows[i])] == rows[i]
      invariant forall i, j :: 0 <= i < j < |rows| ==> key(rows[i]) != key(rows[j])
      invariant forall k :: k in m && k !in pending ==> exists i :: 0 <= i < |rows| && key(rows[i]) == k
      decreases pending
    {
      var k :| k in pending;
      ghost var before, left := rows, pending;
      rows := rows + [m[k]];
      pending := pending - {k};
      assert key(rows[|before|]) == k;
      forall x | x in m && x !in pending ensures exists i :: 0 <= i < |rows| && key(rows[i]) == x {
        if x != k {
          var i :| 0 <= i < |before| && key(before[i]) == x;
          assert key(rows[i]) == x;
        }
      }
    }
  }

  method ListState(s: State) returns (l: Listing)
    requires Inv(s)
    ensures Lists(s, l)
  {
    FiledTables(s);
    hide Inv, Enumerates;
    var providers := Enumerate(ProviderTable(s), ProviderKey);
    var domains := Enumerate(DomainTable(s), DomainKey);
    var regions := Enumerate(RegionTable(s), RegionKey);
    var pools := Enumerate(s.pools, PoolKey);
    var policies := Enumerate(s.policies, PolicyKey);
    var consumers := Enumerate(ConsumerTable(s), ConsumerKey);
    l := Listing(s.epoch, providers, domains, regions, pools, policies, consumers);
  }

  lemma FiledTables(s: State)
    requires Inv(s)
    ensures forall p :: p in ProviderTable(s) ==> ProviderKey(ProviderTable(s)[p]) == p
    ensures forall d :: d in DomainTable(s) ==> DomainKey(DomainTable(s)[d]) == d
    ensures forall r :: r in RegionTable(s) ==> RegionKey(RegionTable(s)[r]) == r
    ensures forall p :: p in s.pools ==> PoolKey(s.pools[p]) == p
    ensures forall p :: p in s.policies ==> PolicyKey(s.policies[p]) == p
    ensures forall c :: c in ConsumerTable(s) ==> ConsumerKey(ConsumerTable(s)[c]) == c
  {
    forall r | r in RegionTable(s) ensures RegionKey(RegionTable(s)[r]) == r { assert RegionOk(s, r); }
  }

  lemma OneByte(b: U8)
    ensures LittleEndian(b, 1) == [b]
  {
    assert LittleEndian(b / 256, 0) == [];
  }

  method WriteFile(payload: Bytes) returns (r: Result<Bytes>)
    ensures r == Wrap(payload)
  {
    hide LittleEndian, Crc.Checksum;
    if |payload| > MAX_PAYLOAD { return Fail(Internal); }
    var crc := Crc.Crc32(payload);
    var w := new Cursor.Writer();
    for i := 0 to 4
      invariant w.out == MAGIC[..i]
    {
      w.WriteWord(MAGIC[i], 1);
      OneByte(MAGIC[i]);
    }
    assert MAGIC[..4] == MAGIC;
    w.WriteWord(VERSION, 2);
    w.WriteWord(|payload|, 4);
    w.WriteWord(crc, 4);
    r := Ok(w.out + payload);
  }

  /** What is written is the encoding of some enumeration of the durable state, behind its header. */
  method SaveState(s: State) returns (r: Result<Bytes>)
    requires Inv(s)
    ensures exists l :: Lists(s, l) && r == Save(l)
  {
    hide Inv, Lists;
    var l := ListState(s);
    ListingRows(l);
    hide PAYLOAD, ListingValues, AllFit, AllBounded, WithinLimits, ListingOf;
    var payload := Cursor.WriteRecord(PAYLOAD, ListingValues(l));
    r := WriteFile(payload);
    assert r == Save(l);
  }

  // ---- Loading ----

  lemma HeaderWords(b: Bytes)
    requires |b| >= HEADER
    ensures |b[4..14]| == 10 && b[4..14][..2] == b[4..6]
    ensures b[4..14][2..][..4] == b[6..10] && b[4..14][2..][4..] == b[10..14] && b[10..14][..4] == b[10..14]
  {
  }

  /** The three words after the magic, read one after the other. */
  method ReadHeaderWords(b: Bytes) returns (version: nat, plen: nat, crc: nat)
    requires |b| >= HEADER
    ensures version == FromLittleEndian(b[4..6]) && plen == FromLittleEndian(b[6..10]) && crc == FromLittleEndian(b[10..14])
  {
    hide FromLittleEndian;
    HeaderWords(b);
    var reader := new Cursor.Reader(b[4..14]);
    var v := reader.ReadWord(2);
    var n := reader.ReadWord(4);
    var c := reader.ReadWord(4);
    version, plen, crc := v.value, n.value, c.value;
  }

  method HasMagic(b: Bytes) returns (ok: bool)
    requires |b| >= HEADER
    ensures ok <==> b[..4] == MAGIC
  {
    for i := 0 to 4
      invariant forall j :: 0 <= j < i ==> b[j] == MAGIC[j]
    {
      if b[i] != MAGIC[i] {
        assert b[..4][i] != MAGIC[i];
        return false;
      }
    }
    return true;
  }

  method ReadHeader(b: Bytes) returns (r: Result<Bytes>)
    ensures r == Unwrap(b)
  {
    hide FromLittleEndian, Crc.Checksum;
    if |b| < HEADER { return Fail(Corrupt); }
    var ok := HasMagic(b);
    if !ok { return Fail(Corrupt); }
    var version, plen, crc := ReadHeaderWords(b);
    if version != VERSION { return Fail(Corrupt); }
    if plen > MAX_PAYLOAD { return Fail(FrameTooLarge); }
    if |b| < HEADER + plen { return Fail(FrameTruncated); }
    if |b| > HEADER + plen { return Fail(Corrupt); }
    var actual := Crc.Crc32(b[14..]);
    if actual != crc { return Fail(Corrupt); }
    r := Ok(b[14..]);
  }

  method FillTable<T>(rows: seq<T>, key: T -> U64) returns (t: map<U64, T>)
    ensures t == Table(rows, key)
  {
    t := map[];
    for i := 0 to |rows|
      invariant t == Table(rows[..i], key)
    {
      assert rows[..i + 1][..i] == rows[..i];
      t := t[key(rows[i]) := rows[i]];
    }
    assert rows[..|rows|] == rows;
  }

  /** The index contributed by the pools in `done` and by the first members of the pool in hand. */
  ghost predicate Indexed(before: map<RegionId, RegionRecord>, after: map<RegionId, RegionRecord>,
                          pools: map<PoolId, PoolDescriptor>, done: set<PoolId>, p: PoolId, members: seq<PoolMember>)
    requires p in pools
  {
    && after.Keys == before.Keys
    && forall rid :: rid in before ==>
         && after[rid] == before[rid].(memberships := after[rid].memberships)
         && after[rid].memberships == Partial(pools, done, p, members, rid)
  }

  ghost function Partial(pools: map<PoolId, PoolDescriptor>, done: set<PoolId>, p: PoolId, members: seq<PoolMember>, rid: RegionId)
    : set<(PoolId, Generation)>
    requires p in pools
  {
    (set q | q in pools && q in done && Names(pools[q], rid) :: (q, pools[q].generation))
    + if exists m :: m in members && m.region == rid then {(p, pools[p].generation)} else {}
  }

  lemma PartialDone(pools: map<PoolId, PoolDescriptor>, done: set<PoolId>, p: PoolId, q: PoolId, rid: RegionId)
    requires p in pools && q in pools
    ensures Partial(pools, done, p, pools[p].members, rid) == Partial(pools, done + {p}, q, [], rid)
  {
    var x := Partial(pools, done, p, pools[p].members, rid);
    var y := Partial(pools, done + {p}, q, [], rid);
    assert Names(pools[p], rid) <==> exists m :: m in pools[p].members && m.region == rid;
    forall e ensures e in x <==> e in y { assert e == (e.0, e.1); }
  }

  lemma PartialAll(pools: map<PoolId, PoolDescriptor>, q: PoolId, rid: RegionId)
    requires q in pools
    ensures Partial(pools, pools.Keys, q, [], rid) == Memberships(pools, rid)
  {
  }

  lemma PartialNext(pools: map<PoolId, PoolDescriptor>, done: set<PoolId>, p: PoolId, ms: seq<PoolMember>, m: PoolMember, rid: RegionId)
    requires p in pools
    ensures Partial(pools, done, p, ms + [m], rid)
         == Partial(pools, done, p, ms, rid) + if m.region == rid then {(p, pools[p].generation)} else {}
  {
    assert m in ms + [m];
    assert forall x :: x in ms + [m] <==> x in ms || x == m;
  }

  /** One more member of the pool in hand is entered into the index of its region, if that region exists. */
  lemma IndexStep(before: map<RegionId, RegionRecord>, cur: map<RegionId, RegionRecord>, next: map<RegionId, RegionRecord>,
                  pools: map<PoolId, PoolDescriptor>, done: set<PoolId>, p: PoolId, ms: seq<PoolMember>, m: PoolMember)
    requires p in pools && Indexed(before, cur, pools, done, p, ms)
    requires next == if m.region in cur
                     then cur[m.region := cur[m.region].(memberships := cur[m.region].memberships + {(p, pools[p].generation)})]
                     else cur
    ensures Indexed(before, next, pools, done, p, ms + [m])
  {
    hide Partial;
    forall rid | rid in before
      ensures next[rid] == before[rid].(memberships := next[rid].memberships)
              && next[rid].memberships == Partial(pools, done, p, ms + [m], rid)
    {
      PartialNext(pools, done, p, ms, m, rid);
    }
  }

  lemma IndexNextPool(before: map<RegionId, RegionRecord>, cur: map<RegionId, RegionRecord>,
                      pools: map<PoolId, PoolDescriptor>, done: set<PoolId>, p: PoolId, q: PoolId)
    requires p in pools && q in pools && Indexed(before, cur, pools, done, p, pools[p].members)
    ensures Indexed(before, cur, pools, done + {p}, q, [])
  {
    hide Partial;
    forall rid | rid in before ensures Partial(pools, done, p, pools[p].members, rid) == Partial(pools, done + {p}, q, [], rid) {
      PartialDone(pools, done, p, q, rid);
    }
  }

  /** Enter one pool into the index of the regions its members name. */
  method IndexPool(ghost before: map<RegionId, RegionRecord>, start: map<RegionId, RegionRecord>,
                   pools: map<PoolId, PoolDescriptor>, ghost done: set<PoolId>, p: PoolId)
    returns (regions: map<RegionId, RegionRecord>)
    requires p in pools && Indexed(before, start, pools, done, p, [])
    ensures Indexed(before, regions, pools, done, p, pools[p].members)
  {
    hide Indexed;
    regions := start;
    var members := pools[p].members;
    assert members[..0] == [];
    for i := 0 to |members|
      invariant Indexed(before, regions, pools, done, p, members[..i])
    {
      ghost var was := regions;
      var m := members[i];
      if m.region in regions {
        var rr := regions[m.region];
        regions := regions[m.region := rr.(memberships := rr.memberships + {(p, pools[p].generation)})];
      }
      IndexStep(before, was, regions, pools, done, p, members[..i], m);
      assert members[..i] + [m] == members[..i + 1];
    }
    assert members[..|members|] == members;
  }

  lemma IndexEmpty(before: map<RegionId, RegionRecord>, pools: map<PoolId, PoolDescriptor>, p: PoolId)
    requires p in pools && forall rid :: rid in before ==> before[rid].memberships == {}
    ensures Indexed(before, before, pools, {}, p, [])
  {
    hide Partial;
    forall rid | rid in before ensures Partial(pools, {}, p, [], rid) == {} { PartialEmpty(pools, p, rid); }
  }

  lemma NoPools(before: map<RegionId, RegionRecord>)
    requires forall rid :: rid in before ==> before[rid].memberships == {}
    ensures before == map rid | rid in before :: before[rid].(memberships := Memberships(map[], rid))
  {
    assert forall rid :: rid in before ==> before[rid].(memberships := Memberships(map[], rid)) == before[rid];
  }

  /** Walk the pools and their members, entering each pool into the index of the regions it names. */
  method RebuildIndex(before: map<RegionId, RegionRecord>, pools: map<PoolId, PoolDescriptor>)
    returns (regions: map<RegionId, RegionRecord>)
    requires forall rid :: rid in before ==> before[rid].memberships == {}
    ensures regions == map rid | rid in before :: before[rid].(memberships := Memberships(pools, rid))
  {
    hide Indexed, Memberships;
    regions := before;
    if pools == map[] {
      NoPools(before);
      return;
    }
    ghost var some: PoolId :| some in pools;
    IndexEmpty(before, pools, some);
    var pending := pools.Keys;
    assert pools.Keys - pending == {};
    while pending != {}
      invariant pending <= pools.Keys
      invariant Indexed(before, regions, pools, pools.Keys - pending, some, [])
      decreases pending
    {
      var p :| p in pending;
      ghost var done := pools.Keys - pending;
      IndexStart(before, regions, pools, done, some, p);
      regions := IndexPool(before, regions, pools, done, p);
      IndexNextPool(before, regions, pools, done, p, some);
      pending := pending - {p};
      assert pools.Keys - pending == done + {p};
    }
    assert pools.Keys - {} == pools.Keys;
    IndexDone(before, regions, pools, some);
  }

  lemma PartialEmpty(pools: map<PoolId, PoolDescriptor>, p: PoolId, rid: RegionId)
    requires p in pools
    ensures Partial(pools, {}, p, [], rid) == {}
  {
  }

  lemma IndexStart(before: map<RegionId, RegionRecord>, cur: map<RegionId, RegionRecord>,
                   pools: map<PoolId, PoolDescriptor>, done: set<PoolId>, q: PoolId, p: PoolId)
    requires p in pools && q in pools && Indexed(before, cur, pools, done, q, [])
    ensures Indexed(before, cur, pools, done, p, [])
  {
  }

  lemma IndexDone(before: map<RegionId, RegionRecord>, cur: map<RegionId, RegionRecord>, pools: map<PoolId, PoolDescriptor>, q: PoolId)
    requires q in pools && Indexed(before, cur, pools, pools.Keys, q, [])
    ensures cur == map rid | rid in before :: before[rid].(memberships := Memberships(pools, rid))
  {
    hide Partial, Memberships;
    forall rid | rid in before ensures cur[rid].memberships == Memberships(pools, rid) { PartialAll(pools, q, rid); }
  }

  method RestartFrom(l: Listing) returns (s: State)
    ensures s == Restart(l)
  {
    hide Table, Memberships;
    var providers := FillTable(l.providers, ProviderKey);
    var domains := FillTable(l.domains, DomainKey);
    var descriptors := FillTable(l.regions, RegionKey);
    var pools := FillTable(l.pools, PoolKey);
    var policies := FillTable(l.policies, PolicyKey);
    var consumers := FillTable(l.consumers, ConsumerKey);
    var blank := map r | r in descriptors :: FreshRegion(descriptors[r], RegionLifecycle.RevalidationRequired);
    var regions := RebuildIndex(blank, pools);
    s := State((l.epoch + 1) % (U64_MAX + 1),
               map p | p in providers :: ProviderRecord(providers[p], Lifecycle.RevalidationRequired),
               map d | d in domains :: DomainRecord(domains[d], Lifecycle.RevalidationRequired),
               regions, pools, policies, map c | c in consumers :: consumers[c].generation, map[], map[], 1, 1);
    assert regions == map r | r in descriptors ::
      FreshRegion(descriptors[r], RegionLifecycle.RevalidationRequired).(memberships := Memberships(pools, r));
  }

  method LoadState(b: Bytes) returns (r: Result<State>)
    ensures r == Load(b)
  {
    hide Unwrap, Restart, DecodeRecord;
    var payload := ReadHeader(b);
    if payload.Fail? { return Fail(payload.error); }
    var vs := Cursor.ReadRecord(PAYLOAD, payload.value);
    if vs.None? { return Fail(Corrupt); }
    var l := ListingOf(vs.value);
    if l.epoch == 0 { return Fail(Corrupt); }
    var s := RestartFrom(l);
    r := Ok(s);
  }
}
