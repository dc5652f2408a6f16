/**
 Save and restart, on byte sequences: a 14-byte header with length and checksum around one payload,
 and the state a coordinator comes back with.
 */
module Persistence {
  import opened Words
  import opened Wire
  import opened Types
  import opened Ledgers
  import opened Records
  import opened StateFile
  import opened Invariants
  import opened History
  import Operations
  import Selection
  import Crc
  import Bursts

  const MAGIC: Bytes := [0x4D, 0x45, 0x46, 0x50]
  const VERSION: nat := 1
  const MAX_PAYLOAD: nat := 64 * 1024 * 1024
  const HEADER: nat := 14

  // ---- The file around the payload ----

  function Header(payload: Bytes): (h: Bytes)
    ensures |h| == HEADER
  {
    MAGIC + LittleEndian(VERSION, 2) + LittleEndian(|payload|, 4) + LittleEndian(Crc.Checksum(payload), 4)
  }

  function Wrap(payload: Bytes): Result<Bytes> {
    if |payload| > MAX_PAYLOAD then Fail(Internal) else Ok(Header(payload) + payload)
  }

  function Unwrap(b: Bytes): Result<Bytes> {
    if |b| < HEADER then Fail(Corrupt)
    else if b[..4] != MAGIC then Fail(Corrupt)
    else if FromLittleEndian(b[4..6]) != VERSION then Fail(Corrupt)
    else
      var plen := FromLittleEndian(b[6..10]);
      if plen > MAX_PAYLOAD then Fail(FrameTooLarge)
      else if |b| < HEADER + plen then Fail(FrameTruncated)
      else if |b| > HEADER + plen then Fail(Corrupt)
      else if Crc.Checksum(b[14..]) != FromLittleEndian(b[10..14]) then Fail(Corrupt)
      else Ok(b[14..])
  }

  lemma HeaderFields(payload: Bytes, b: Bytes)
    requires |payload| <= MAX_PAYLOAD && Header(payload) <= b
    ensures b[..4] == MAGIC && FromLittleEndian(b[4..6]) == VERSION
    ensures FromLittleEndian(b[6..10]) == |payload| && FromLittleEndian(b[10..14]) == Crc.Checksum(payload)
  {
    Spans();
    var h := Header(payload);
    assert b[..4] == h[..4] && b[4..6] == h[4..6] && b[6..10] == h[6..10] && b[10..14] == h[10..14];
    assert h[4..6] == LittleEndian(VERSION, 2) && h[6..10] == LittleEndian(|payload|, 4);
    assert h[10..14] == LittleEndian(Crc.Checksum(payload), 4);
    ReadBack(VERSION, 2);
    ReadBack(|payload|, 4);
    Crc.ChecksumBound(payload);
    ReadBack(Crc.Checksum(payload), 4);
  }

  lemma WrapRoundTrip(payload: Bytes)
    requires |payload| <= MAX_PAYLOAD
    ensures Unwrap(Wrap(payload).value) == Ok(payload)
  {
    var b := Header(payload) + payload;
    HeaderFields(payload, b);
    assert b[14..] == payload;
  }

  /** A file that differs from a written one in exactly one byte, wherever it is, is refused. */
  lemma DamageDetected(payload: Bytes, b: Bytes, i: nat)
    requires |payload| <= MAX_PAYLOAD && Crc.DifferOnlyAt(Wrap(payload).value, b, i)
    ensures Unwrap(b).Fail?
  {
    var whole := Header(payload) + payload;
    HeaderFields(payload, whole);
    assert whole[14..] == payload;
    if i < 4 {
      assert b[..4][i] != whole[..4][i];
    } else if i < 6 {
      assert b[4..6][i - 4] != whole[4..6][i - 4];
      WordsDiffer(b[4..6], whole[4..6]);
    } else if i < 10 {
      assert b[6..10][i - 6] != whole[6..10][i - 6];
      WordsDiffer(b[6..10], whole[6..10]);
    } else if i < 14 {
      assert b[14..] == whole[14..];
      assert b[10..14][i - 10] != whole[10..14][i - 10];
      WordsDiffer(b[10..14], whole[10..14]);
    } else {
      assert b[10..14] == whole[10..14];
      Crc.ChecksumDetectsOneByte(payload, b[14..], i - 14);
    }
  }

  /** An accepted file is exactly what would be written around its payload. */
  lemma FileExact(b: Bytes)
    requires Unwrap(b).Ok?
    ensures Wrap(Unwrap(b).value) == Ok(b)
  {
    WriteBack(b[4..6]);
    WriteBack(b[6..10]);
    WriteBack(b[10..14]);
    assert b == (b[..4] + b[4..6] + b[6..10] + b[10..14]) + b[14..];
  }

  /** Any damage to the header alone is refused: the payload determines every byte of it. */
  lemma HeaderDamageDetected(payload: Bytes, b: Bytes)
    requires |payload| <= MAX_PAYLOAD && |b| == HEADER + |payload| && b[HEADER..] == payload && b != Wrap(payload).value
    ensures Unwrap(b).Fail?
  {
    if Unwrap(b).Ok? { FileExact(b); }
  }

  /** A payload damaged in up to 32 consecutive bits is refused. */
  lemma PayloadBurstDetected(payload: Bytes, b: Bytes, at: nat, w: nat)
    requires |payload| <= MAX_PAYLOAD && HEADER <= |b| && b[..HEADER] == Header(payload)
    requires Bursts.Burst(payload, b[HEADER..], at, w)
    ensures Unwrap(b).Fail?
  {
    Bursts.ChecksumDetectsBurst(payload, b[HEADER..], at, w);
    hide Crc.Checksum, Bursts.Burst;
    assert Header(payload) <= b;
    HeaderFields(payload, b);
  }

  /** Up to four consecutive damaged bytes are refused, unless they lie on both sides of the header's end. */
  lemma FourBytesDetected(payload: Bytes, b: Bytes, i: nat, n: nat)
    requires |payload| <= MAX_PAYLOAD && Bursts.DifferWithin(Wrap(payload).value, b, i, n) && n <= 4
    requires i + n <= HEADER || HEADER <= i
    ensures Unwrap(b).Fail?
  {
    var whole := Header(payload) + payload;
    assert whole[HEADER..] == payload;
    if i + n <= HEADER {
      assert b[HEADER..] == b[i + n..][HEADER - i - n..] && whole[HEADER..] == whole[i + n..][HEADER - i - n..];
      HeaderDamageDetected(payload, b);
    } else {
      Bursts.BehindHeader(Header(payload), payload, b, i, n);
      var y, j := b[HEADER..], i - HEADER;
      Bursts.FourBytesAreABurst(payload, y, j, n);
      hide Bursts.Burst, Unwrap;
      PayloadBurstDetected(payload, b, 8 * j, Xor(FromLittleEndian(payload[j..j + n]), FromLittleEndian(y[j..j + n])));
    }
  }

  /** A strict prefix of a written file, or a strict extension of it, is refused. */
  lemma CutDetected(payload: Bytes, b: Bytes)
    requires |payload| <= MAX_PAYLOAD
    requires b < Wrap(payload).value || Wrap(payload).value < b
    ensures Unwrap(b).Fail?
  {
    var whole := Header(payload) + payload;
    if |b| >= HEADER {
      assert Header(payload) == whole[..14] == b[..14];
      HeaderFields(payload, b);
    }
  }

  // ---- Tables from lists ----

  /** Rows stored one after the other under their keys: a later row replaces an earlier one. */
  function Table<T>(rows: seq<T>, key: T -> U64): map<U64, T> {
    if rows == [] then map[]
    else
      var n := |rows| - 1;
      Table(rows[..n], key)[key(rows[n]) := rows[n]]
  }

  ghost predicate Enumerates<T(!new)>(m: map<U64, T>, rows: seq<T>, key: T -> U64) {
    && (forall i :: 0 <= i < |rows| ==> key(rows[i]) in m && m[key(rows[i])] == rows[i])
    && (forall i, j :: 0 <= i < j < |rows| ==> key(rows[i]) != key(rows[j]))
    && (forall k :: k in m ==> exists i :: 0 <= i < |rows| && key(rows[i]) == k)
  }

  lemma {:induction false} TableEntries<T(!new)>(rows: seq<T>, key: T -> U64)
    ensures forall k :: k in Table(rows, key) ==> key(Table(rows, key)[k]) == k && Table(rows, key)[k] in rows
    ensures forall i :: 0 <= i < |rows| ==> key(rows[i]) in Table(rows, key)
  {
    if rows != [] {
      var n := |rows| - 1;
      TableEntries(rows[..n], key);
      forall i | 0 <= i < |rows| ensures key(rows[i]) in Table(rows, key) {
        if i < n { assert rows[..n][i] == rows[i]; }
      }
    }
  }

  /** Storing an enumeration of a table rebuilds the table, whatever the order. */
  lemma TableOfEnumeration<T(!new)>(m: map<U64, T>, rows: seq<T>, key: T -> U64)
    requires Enumerates(m, rows, key)
    ensures Table(rows, key) == m
  {
    TableEntries(rows, key);
    var t := Table(rows, key);
    forall k | k in t ensures k in m && t[k] == m[k] {
      var i :| 0 <= i < |rows| && rows[i] == t[k];
    }
    forall k | k in m ensures k in t {
      var i :| 0 <= i < |rows| && key(rows[i]) == k;
    }
    assert t.Keys == m.Keys;
  }

  function ProviderKey(d: ProviderDescriptor): U64 { d.id }
  function DomainKey(d: DomainDescriptor): U64 { d.id }
  function RegionKey(d: RegionDescriptor): U64 { d.id }
  function PoolKey(d: PoolDescriptor): U64 { d.id }
  function PolicyKey(d: PolicyDescriptor): U64 { d.id }
  function ConsumerKey(c: Consumer): U64 { c.id }

  function ProviderTable(s: State): map<ProviderId, ProviderDescriptor> { map p | p in s.providers :: s.providers[p].descriptor }
  function DomainTable(s: State): map<DomainId, DomainDescriptor> { map d | d in s.domains :: s.domains[d].descriptor }
  function RegionTable(s: State): map<RegionId, RegionDescriptor> { map r | r in s.regions :: s.regions[r].descriptor }
  function ConsumerTable(s: State): map<ConsumerId, Consumer> { map c | c in s.consumers :: Consumer(c, s.consumers[c]) }

  /** The listing is one enumeration of the state's durable structure. */
  ghost predicate Lists(s: State, l: Listing) {
    && l.epoch == s.epoch
    && Enumerates(ProviderTable(s), l.providers, ProviderKey)
    && Enumerates(DomainTable(s), l.domains, DomainKey)
    && Enumerates(RegionTable(s), l.regions, RegionKey)
    && Enumerates(s.pools, l.pools, PoolKey)
    && Enumerates(s.policies, l.policies, PolicyKey)
    && Enumerates(ConsumerTable(s), l.consumers, ConsumerKey)
  }

  // ---- The state after a restart ----

  /** The reverse index: the pools, with their generations, that list the region as a member. */
  ghost function Memberships(pools: map<PoolId, PoolDescriptor>, rid: RegionId): set<(PoolId, Generation)> {
    set p | p in pools && Names(pools[p], rid) :: (p, pools[p].generation)
  }

  ghost function Recovered(s: State): State {
    State((s.epoch + 1) % (U64_MAX + 1),
          map p | p in s.providers :: ProviderRecord(s.providers[p].descriptor, Lifecycle.RevalidationRequired),
          map d | d in s.domains :: DomainRecord(s.domains[d].descriptor, Lifecycle.RevalidationRequired),
          map r | r in s.regions ::
            FreshRegion(s.regions[r].descriptor, RegionLifecycle.RevalidationRequired).(memberships := Memberships(s.pools, r)),
          s.pools, s.policies, s.consumers, map[], map[], 1, 1)
  }

  /** A fresh coordinator filled from tables, with the reverse index rebuilt, at the next epoch. */
  ghost function Rebuilt(epoch: Epoch, providers: map<ProviderId, ProviderDescriptor>, domains: map<DomainId, DomainDescriptor>,
                         regions: map<RegionId, RegionDescriptor>, pools: map<PoolId, PoolDescriptor>,
                         policies: map<PolicyId, PolicyDescriptor>, consumers: map<ConsumerId, Consumer>): State
  {
    State((epoch + 1) % (U64_MAX + 1),
          map p | p in providers :: ProviderRecord(providers[p], Lifecycle.RevalidationRequired),
          map d | d in domains :: DomainRecord(domains[d], Lifecycle.RevalidationRequired),
          map r | r in regions ::
            FreshRegion(regions[r], RegionLifecycle.RevalidationRequired).(memberships := Memberships(pools, r)),
          pools, policies, map c | c in consumers :: consumers[c].generation, map[], map[], 1, 1)
  }

  ghost function Restart(l: Listing): State {
    Rebuilt(l.epoch, Table(l.providers, ProviderKey), Table(l.domains, DomainKey), Table(l.regions, RegionKey),
            Table(l.pools, PoolKey), Table(l.policies, PolicyKey), Table(l.consumers, ConsumerKey))
  }

  function Save(l: Listing): Result<Bytes> { Wrap(EncodeListing(l)) }

  ghost function Load(b: Bytes): Result<State> {
    match Unwrap(b)
    case Fail(e) => Fail(e)
    case Ok(payload) =>
      match DecodeListing(payload)
      case None => Fail(Corrupt)
      case Some(l) => if l.epoch == 0 then Fail(Corrupt) else Ok(Restart(l))
  }

  lemma RebuiltProviders(s: State)
    ensures (map p | p in ProviderTable(s) :: ProviderRecord(ProviderTable(s)[p], Lifecycle.RevalidationRequired))
         == Recovered(s).providers
  {
  }

  lemma RebuiltDomains(s: State)
    ensures (map d | d in DomainTable(s) :: DomainRecord(DomainTable(s)[d], Lifecycle.RevalidationRequired)) == Recovered(s).domains
  {
  }

  lemma RebuiltRegions(s: State)
    ensures (map r | r in RegionTable(s) ::
               FreshRegion(RegionTable(s)[r], RegionLifecycle.RevalidationRequired).(memberships := Memberships(s.pools, r)))
         == Recovered(s).regions
  {
    hide Memberships;
  }

  lemma RebuiltConsumers(s: State)
    ensures (map c | c in ConsumerTable(s) :: ConsumerTable(s)[c].generation) == s.consumers
  {
  }

  lemma RebuiltFromTables(s: State)
    ensures Rebuilt(s.epoch, ProviderTable(s), DomainTable(s), RegionTable(s), s.pools, s.policies, ConsumerTable(s)) == Recovered(s)
  {
    RebuiltProviders(s);
    RebuiltDomains(s);
    RebuiltRegions(s);
    RebuiltConsumers(s);
    hide ProviderTable, DomainTable, RegionTable, ConsumerTable, Memberships, FreshRegion;
  }

  lemma RestartIsRecovered(s: State, l: Listing)
    requires Lists(s, l)
    ensures Restart(l) == Recovered(s)
  {
    TableOfEnumeration(ProviderTable(s), l.providers, ProviderKey);
    TableOfEnumeration(DomainTable(s), l.domains, DomainKey);
    TableOfEnumeration(RegionTable(s), l.regions, RegionKey);
    TableOfEnumeration(s.pools, l.pools, PoolKey);
    TableOfEnumeration(s.policies, l.policies, PolicyKey);
    TableOfEnumeration(ConsumerTable(s), l.consumers, ConsumerKey);
    hide Table, Enumerates, Rebuilt, Recovered, ProviderTable, DomainTable, RegionTable, ConsumerTable;
    RebuiltFromTables(s);
  }

  lemma PayloadSolid()
    ensures AllSolid(PAYLOAD)
  {
    assert AllSolid(CAPABILITY) && AllSolid(MEMBER) && AllSolid(RULE) && AllSolid(CONSUMER) && AllSolid(DOMAIN);
    assert AllSolid(PROVIDER) && AllSolid(REGION) && AllSolid(POOL) && AllSolid(POLICY);
  }

  /** A payload that fits in a file reads back exactly when its texts and counts are within the reader's limits. */
  lemma ListingReadableIff(l: Listing)
    requires |EncodeListing(l)| <= MAX_PAYLOAD
    ensures DecodeListing(EncodeListing(l)) == if WithinLimits(l) then Some(l) else None
  {
    ListingRows(l);
    PayloadSolid();
    hide PAYLOAD, ListingValues, ListingOf, WithinLimits;
    var vs := ListingValues(l);
    SmallRecordIsCountable(PAYLOAD, vs);
    ReadableIffBounded(PAYLOAD, vs);
    if WithinLimits(l) { RecordRoundTrip(PAYLOAD, vs); }
  }

  /**
   Loading what was saved succeeds exactly when the epoch is not zero and every text and count is
   within limits, and then yields the durable structure at the next epoch and nothing dynamic. The
   save itself checks none of this but the total size.
   */
  lemma LoadSaved(s: State, l: Listing)
    requires Lists(s, l) && Save(l).Ok?
    ensures Load(Save(l).value) == if s.epoch != 0 && WithinLimits(l) then Ok(Recovered(s)) else Fail(Corrupt)
  {
    hide Lists, Unwrap, Restart, Recovered, WithinLimits, EncodeListing, DecodeListing;
    WrapRoundTrip(EncodeListing(l));
    ListingReadableIff(l);
    RestartIsRecovered(s, l);
    SameEpoch(s, l);
  }

  lemma SameEpoch(s: State, l: Listing)
    requires Lists(s, l)
    ensures l.epoch == s.epoch
  {
  }

  lemma DamagedFileRejected(l: Listing, b: Bytes, i: nat)
    requires Save(l).Ok? && Crc.DifferOnlyAt(Save(l).value, b, i)
    ensures Load(b).Fail?
  {
    DamageDetected(EncodeListing(l), b, i);
  }

  lemma BurstFileRejected(l: Listing, b: Bytes, at: nat, w: nat)
    requires Save(l).Ok? && HEADER <= |b| && b[..HEADER] == Save(l).value[..HEADER]
    requires Bursts.Burst(EncodeListing(l), b[HEADER..], at, w)
    ensures Load(b).Fail?
  {
    hide EncodeListing, DecodeListing, Bursts.Burst, Unwrap, Restart;
    var payload := EncodeListing(l);
    assert (Header(payload) + payload)[..HEADER] == Header(payload);
    PayloadBurstDetected(payload, b, at, w);
  }

  lemma FourBytesFileRejected(l: Listing, b: Bytes, i: nat, n: nat)
    requires Save(l).Ok? && Bursts.DifferWithin(Save(l).value, b, i, n) && n <= 4 && (i + n <= HEADER || HEADER <= i)
    ensures Load(b).Fail?
  {
    hide EncodeListing, DecodeListing, Unwrap, Restart, Bursts.DifferWithin;
    FourBytesDetected(EncodeListing(l), b, i, n);
  }

  lemma CutFileRejected(l: Listing, b: Bytes)
    requires Save(l).Ok? && (b < Save(l).value || Save(l).value < b)
    ensures Load(b).Fail?
  {
    CutDetected(EncodeListing(l), b);
  }

  // ---- A state that is saved and cannot be loaded ----

  lemma ConsSize(f: Field, fs: seq<Field>, v: Value, vs: seq<Value>)
    requires Fits(f, v) && AllFit(fs, vs)
    ensures AllFit([f] + fs, [v] + vs) && |EncodeAll([f] + fs, [v] + vs)| == |Encode(f, v)| + |EncodeAll(fs, vs)|
  {
    var gs, ws := [f] + fs, [v] + vs;
    forall i | 0 <= i < |gs| ensures Fits(gs[i], ws[i]) { if i > 0 { assert Fits(fs[i - 1], vs[i - 1]); } }
    assert gs[1..] == fs && ws[1..] == vs;
  }

  lemma NoFields()
    ensures AllFit([], []) && |EncodeAll([], [])| == 0
  {
  }

  lemma DomainSize(d: DomainDescriptor)
    ensures AllFit(DOMAIN, DomainValues(d)) && |EncodeAll(DOMAIN, DomainValues(d))| == 29 + |d.name|
  {
    Spans();
    hide EncodeAll, AllFit;
    NoFields();
    ConsSize(Word(8), [], Num(d.failureDomain), []);
    var f1, v1 := [Word(8)] + [], [Num(d.failureDomain)] + [];
    ConsSize(Word(1), f1, Num(d.origin), v1);
    var f2, v2 := [Word(1)] + f1, [Num(d.origin)] + v1;
    ConsSize(Text, f2, Str(d.name), v2);
    var f3, v3 := [Text] + f2, [Str(d.name)] + v2;
    ConsSize(Word(8), f3, Num(d.generation), v3);
    var f4, v4 := [Word(8)] + f3, [Num(d.generation)] + v3;
    ConsSize(Word(8), f4, Num(d.id), v4);
    assert DOMAIN == [Word(8)] + f4 && DomainValues(d) == [Num(d.id)] + v4;
  }

  /** A listing of one domain and nothing else. */
  function OnlyDomain(epoch: Epoch, d: DomainDescriptor): Listing { Listing(epoch, [], [d], [], [], [], []) }

  lemma OneDomainRow(d: DomainDescriptor)
    ensures Fits(Many(DOMAIN), List([DomainValues(d)])) && |Encode(Many(DOMAIN), List([DomainValues(d)]))| == 33 + |d.name|
  {
    DomainSize(d);
    var rows := [DomainValues(d)];
    assert rows[1..] == [] && EncodeItems(DOMAIN, rows[1..]) == [];
    hide EncodeAll, AllFit, DOMAIN, DomainValues;
    assert EncodeItems(DOMAIN, rows) == EncodeAll(DOMAIN, rows[0]) + EncodeItems(DOMAIN, rows[1..]);
  }

  lemma NoRows(body: seq<Field>)
    ensures Fits(Many(body), List([])) && |Encode(Many(body), List([]))| == 4
  {
  }

  lemma OnlyDomainValues(epoch: Epoch, d: DomainDescriptor)
    ensures ListingValues(OnlyDomain(epoch, d))
         == [Num(epoch)] + ([List([])] + ([List([DomainValues(d)])] + ([List([])] + ([List([])] + ([List([])] + ([List([])] + []))))))
  {
    assert Encoded([d], DomainValues) == [DomainValues(d)];
    assert Encoded([], ProviderValues) == [] && Encoded([], RegionValues) == [] && Encoded([], PoolValues) == [];
    assert Encoded([], PolicyValues) == [] && Encoded([], ConsumerValues) == [];
    hide ProviderValues, DomainValues, RegionValues, PoolValues, PolicyValues, ConsumerValues;
  }

  lemma OnlyDomainSize(epoch: Epoch, d: DomainDescriptor)
    ensures |EncodeListing(OnlyDomain(epoch, d))| == 61 + |d.name|
  {
    Spans();
    OneDomainRow(d);
    OnlyDomainValues(epoch, d);
    NoFields();
    hide EncodeAll, AllFit, Encode, Fits, PROVIDER, DOMAIN, REGION, POOL, POLICY, CONSUMER;
    NoRows(CONSUMER);
    NoRows(POLICY);
    NoRows(POOL);
    NoRows(REGION);
    NoRows(PROVIDER);
    ConsSize(Many(CONSUMER), [], List([]), []);
    var f1, v1 := [Many(CONSUMER)] + [], [List([])] + [];
    ConsSize(Many(POLICY), f1, List([]), v1);
    var f2, v2 := [Many(POLICY)] + f1, [List([])] + v1;
    ConsSize(Many(POOL), f2, List([]), v2);
    var f3, v3 := [Many(POOL)] + f2, [List([])] + v2;
    ConsSize(Many(REGION), f3, List([]), v3);
    var f4, v4 := [Many(REGION)] + f3, [List([])] + v3;
    ConsSize(Many(DOMAIN), f4, List([DomainValues(d)]), v4);
    var f5, v5 := [Many(DOMAIN)] + f4, [List([DomainValues(d)])] + v4;
    ConsSize(Many(PROVIDER), f5, List([]), v5);
    var f6, v6 := [Many(PROVIDER)] + f5, [List([])] + v5;
    EpochWord(epoch);
    ConsSize(Word(8), f6, Num(epoch), v6);
    assert PAYLOAD == [Word(8)] + f6;
  }

  lemma EpochWord(epoch: Epoch)
    ensures Fits(Word(8), Num(epoch)) && |Encode(Word(8), Num(epoch))| == 8
  {
    Spans();
  }

  lemma DomainRegistered(d: DomainDescriptor)
    requires d.id != NULL && d.generation != NULL
    ensures Operations.Run(Initial(1), [Operations.OpRegisterDomain(d, Authority(1, NULL, NULL))])
         == Initial(1).(domains := map[d.id := DomainRecord(d, Lifecycle.Registered)])
  {
    var op, s := Operations.OpRegisterDomain(d, Authority(1, NULL, NULL)), Initial(1);
    var t := Operations.RegisterDomain(s, d, Authority(1, NULL, NULL)).state;
    assert t == s.(domains := map[d.id := DomainRecord(d, Lifecycle.Registered)]);
    hide Operations.RegisterDomain;
    assert [op][0] == op && [op][1..] == [];
    assert Operations.Run(t, []) == t;
  }

  lemma OnlyDomainLists(d: DomainDescriptor)
    ensures Lists(Initial(1).(domains := map[d.id := DomainRecord(d, Lifecycle.Registered)]), OnlyDomain(1, d))
  {
    var s := Initial(1).(domains := map[d.id := DomainRecord(d, Lifecycle.Registered)]);
    assert DomainTable(s) == map[d.id := d];
    assert [d][0] == d;
  }

  /** One registration of a domain with a long name: the state is saved without complaint and can never be loaded. */
  lemma LongNameNeverLoads(d: DomainDescriptor) returns (ops: seq<Operations.Op>, l: Listing)
    requires d.id != NULL && d.generation != NULL && MAX_TEXT < |d.name| <= MAX_PAYLOAD - 61
    ensures Lists(Operations.Run(Initial(1), ops), l) && Save(l).Ok? && Load(Save(l).value) == Fail(Corrupt)
  {
    ops, l := [Operations.OpRegisterDomain(d, Authority(1, NULL, NULL))], OnlyDomain(1, d);
    DomainRegistered(d);
    OnlyDomainLists(d);
    OnlyDomainSize(1, d);
    assert !WithinLimits(l) by { assert !DomainWithinLimits(l.domains[0]); }
    hide Operations.Run, Lists, Load, WithinLimits, EncodeListing, OnlyDomain;
    LoadSaved(Operations.Run(Initial(1), ops), l);
  }


  // ---- What a restart guarantees ----

  /** Whatever file was accepted, the coordinator starts in a state that satisfies the invariant. */
  lemma LoadedInv(b: Bytes)
    requires Load(b).Ok?
    ensures Inv(Load(b).value) && NoneCurrent(Load(b).value.regions)
    ensures Load(b).value.reservations == map[] && Load(b).value.workers == map[]
  {
    hide Unwrap, DecodeListing, Restart, Inv;
    var payload := Unwrap(b).value;
    RestartInv(DecodeListing(payload).value);
  }

  lemma RestartInv(l: Listing)
    ensures Inv(Restart(l)) && NoneCurrent(Restart(l).regions)
    ensures Restart(l).reservations == map[] && Restart(l).workers == map[]
  {
    TableEntries(l.providers, ProviderKey);
    TableEntries(l.domains, DomainKey);
    TableEntries(l.regions, RegionKey);
    TableEntries(l.pools, PoolKey);
    TableEntries(l.policies, PolicyKey);
    hide Table;
    var s := Restart(l);
    forall rid | rid in s.regions ensures RegionOk(s, rid) {
      HeldVanishes(s.reservations, rid, Bucket.Reserved);
      HeldVanishes(s.reservations, rid, Bucket.Committed);
    }
  }

  /** After a restart no select ranks anything until evidence is published, whatever else is called. */
  lemma NothingRankedAfterLoad(b: Bytes, ops: seq<Operations.Op>, req: Selection.Request)
    requires Load(b).Ok? && forall op :: op in ops ==> !op.OpPublishEvidence?
    ensures Selection.RankedIds(Operations.Run(Load(b).value, ops), req) == []
  {
    LoadedInv(b);
    hide Load, Inv, NoneCurrent, Selection.RankedIds, Operations.Run;
    NothingRankedUntilPublished(Load(b).value, ops, req);
  }

  /** The rebuilt index and the member lists agree, both ways. */
  lemma IndexAgrees(b: Bytes, rid: RegionId, p: PoolId, g: Generation)
    requires Load(b).Ok? && rid in Load(b).value.regions
    ensures (p, g) in Load(b).value.regions[rid].memberships
       <==> p in Load(b).value.pools && g == Load(b).value.pools[p].generation && Names(Load(b).value.pools[p], rid)
  {
    hide Unwrap, DecodeListing, Table, Names;
  }
}
