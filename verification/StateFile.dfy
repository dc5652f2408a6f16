/**
 The payload of the state file. The maps of the control plane are written as counted lists in
 whatever order they are enumerated; a `Listing` is one such enumeration.
 */
module StateFile {
  import opened Words
  import opened Wire
  import opened Types
  import opened Payloads

  // ---- Lists of records ----

  function Encoded<T>(xs: seq<T>, f: T -> seq<Value>): seq<seq<Value>> {
    seq(|xs|, i requires 0 <= i < |xs| => f(xs[i]))
  }

  function Decoded<T>(rows: seq<seq<Value>>, g: seq<Value> -> T): seq<T> {
    seq(|rows|, i requires 0 <= i < |rows| => g(rows[i]))
  }

  /** A list reads back when it is short enough and each of its records does. */
  lemma ListBounded<T>(xs: seq<T>, f: T -> seq<Value>, fs: seq<Field>, ok: T -> bool)
    requires forall i :: 0 <= i < |xs| ==> AllFit(fs, f(xs[i])) && (AllBounded(fs, f(xs[i])) <==> ok(xs[i]))
    ensures Fits(Many(fs), List(Encoded(xs, f)))
    ensures Bounded(Many(fs), List(Encoded(xs, f)))
       <==> |xs| <= MAX_COUNT && forall i :: 0 <= i < |xs| ==> ok(xs[i])
  {
    var rows := Encoded(xs, f);
    assert forall i :: 0 <= i < |xs| ==> rows[i] == f(xs[i]);
  }

  lemma ListInverse<T>(xs: seq<T>, f: T -> seq<Value>, g: seq<Value> -> T)
    requires forall i :: 0 <= i < |xs| ==> g(f(xs[i])) == xs[i]
    ensures Decoded(Encoded(xs, f), g) == xs
  {
  }

  // ---- Capabilities ----

  const CAPABILITY: seq<Field> := [U8F, U8F, Text]

  function CapabilityValues(c: Capability): seq<Value> { [Num(c.key), Num(c.status), Str(c.note)] }

  function CapabilityOf(v: seq<Value>): Capability { Capability(Byte(v, 0), Byte(v, 1), Chars(v, 2)) }

  /** Setting a key overwrites its entry, or appends one. */
  function SetCapability(caps: seq<Capability>, c: Capability): seq<Capability> {
    if caps == [] then [c]
    else if caps[0].key == c.key then [c] + caps[1..]
    else [caps[0]] + SetCapability(caps[1..], c)
  }

  /** The model left by setting capabilities one after the other: the last entry for a key wins. */
  function SetAll(caps: seq<Capability>): seq<Capability> {
    if caps == [] then [] else SetCapability(SetAll(caps[..|caps| - 1]), caps[|caps| - 1])
  }

  lemma {:induction false} SetCapabilityKeys(caps: seq<Capability>, c: Capability)
    requires DistinctKeys(caps)
    ensures DistinctKeys(SetCapability(caps, c))
    ensures forall x :: x in SetCapability(caps, c) ==> x == c || x in caps
  {
    if caps != [] && caps[0].key != c.key {
      var rest := caps[1..];
      SetCapabilityKeys(rest, c);
      var out := SetCapability(rest, c);
      forall j | 0 <= j < |out| ensures out[j].key != caps[0].key {
        assert out[j] in out;
        if out[j] != c {
          var k :| 0 <= k < |rest| && rest[k] == out[j];
          assert caps[k + 1] == out[j];
        }
      }
    }
  }

  lemma {:induction false} SetAllKeys(caps: seq<Capability>)
    ensures DistinctKeys(SetAll(caps))
  {
    if caps != [] {
      SetAllKeys(caps[..|caps| - 1]);
      SetCapabilityKeys(SetAll(caps[..|caps| - 1]), caps[|caps| - 1]);
    }
  }

  lemma {:induction false} SetFresh(caps: seq<Capability>, c: Capability)
    requires forall x :: x in caps ==> x.key != c.key
    ensures SetCapability(caps, c) == caps + [c]
  {
    if caps != [] { SetFresh(caps[1..], c); }
  }

  /** Reading back a model that already has one entry per key changes nothing. */
  lemma {:induction false} SetAllDistinct(caps: seq<Capability>)
    requires DistinctKeys(caps)
    ensures SetAll(caps) == caps
  {
    if caps != [] {
      var n := |caps| - 1;
      SetAllDistinct(caps[..n]);
      forall x | x in caps[..n] ensures x.key != caps[n].key {
        var i :| 0 <= i < n && caps[..n][i] == x;
      }
      SetFresh(caps[..n], caps[n]);
      assert caps == caps[..n] + [caps[n]];
    }
  }

  function CapabilitiesValue(caps: seq<Capability>): Value { List(Encoded(caps, CapabilityValues)) }

  function CapabilitiesFrom(v: seq<Value>, i: nat): (caps: CapabilityModel)
  {
    var raw := Decoded(Rows(v, i), CapabilityOf);
    SetAllKeys(raw);
    SetAll(raw)
  }

  predicate CapabilitiesWithinLimits(caps: seq<Capability>) {
    |caps| <= MAX_COUNT && forall i :: 0 <= i < |caps| ==> |caps[i].note| <= MAX_TEXT
  }

  lemma CapabilitiesRow(caps: CapabilityModel)
    ensures Fits(Many(CAPABILITY), CapabilitiesValue(caps))
    ensures Bounded(Many(CAPABILITY), CapabilitiesValue(caps)) <==> CapabilitiesWithinLimits(caps)
    ensures SetAll(Decoded(Encoded(caps, CapabilityValues), CapabilityOf)) == caps
  {
    Spans();
    forall i | 0 <= i < |caps|
      ensures AllFit(CAPABILITY, CapabilityValues(caps[i]))
              && (AllBounded(CAPABILITY, CapabilityValues(caps[i])) <==> |caps[i].note| <= MAX_TEXT)
    {
      var vs := CapabilityValues(caps[i]);
      assert AllBounded(CAPABILITY, vs) <==> Bounded(CAPABILITY[0], vs[0]) && Bounded(CAPABILITY[1], vs[1]) && Bounded(CAPABILITY[2], vs[2]);
    }
    ListBounded(caps, CapabilityValues, CAPABILITY, (c: Capability) => |c.note| <= MAX_TEXT);
    ListInverse(caps, CapabilityValues, CapabilityOf);
    SetAllDistinct(caps);
  }

  // ---- Providers ----

  const PROVIDER: seq<Field> := [U64F, U64F, U8F, U8F, Text, U64F, U8F, U8F, U64F, U64F, U64F, U8F, Many(CAPABILITY)]

  function ProviderValues(d: ProviderDescriptor): seq<Value> {
    [Num(d.id), Num(d.generation), Num(d.kind), Num(d.origin), Str(d.name), Num(d.failureDomain),
     Num(d.addressability), Num(d.persistence), Num(d.totalCapacityBytes), Num(d.alignmentBytes),
     Num(d.granularityBytes), Flag(d.requiresHostCopy), CapabilitiesValue(d.capabilities)]
  }

  function ProviderOf(v: seq<Value>): ProviderDescriptor {
    ProviderDescriptor(Long(v, 0), Long(v, 1), Byte(v, 2), Byte(v, 3), Chars(v, 4), Long(v, 5), Byte(v, 6), Byte(v, 7),
                       Long(v, 8), Long(v, 9), Long(v, 10), CapabilitiesFrom(v, 12), Bool(v, 11))
  }

  predicate ProviderWithinLimits(d: ProviderDescriptor) {
    |d.name| <= MAX_TEXT && CapabilitiesWithinLimits(d.capabilities)
  }

  /** Only two fields of a record can be too long; the rest is settled by their types. */
  lemma BoundedBy(fs: seq<Field>, vs: seq<Value>, i: nat, j: nat)
    requires AllFit(fs, vs) && i < |fs| && j < |fs|
    requires forall k :: 0 <= k < |fs| && k != i && k != j ==> fs[k].Word?
    ensures AllBounded(fs, vs) <==> Bounded(fs[i], vs[i]) && Bounded(fs[j], vs[j])
  {
  }

  lemma ProviderFits(d: ProviderDescriptor)
    ensures AllFit(PROVIDER, ProviderValues(d))
  {
    Spans();
    CapabilitiesRow(d.capabilities);
    hide CapabilitiesValue;
    var vs := ProviderValues(d);
    forall i | 0 <= i < 13 ensures Fits(PROVIDER[i], vs[i]) {
      if i != 4 && i != 12 { assert PROVIDER[i].Word?; }
    }
  }

  lemma ProviderInverse(d: ProviderDescriptor)
    ensures ProviderOf(ProviderValues(d)) == d
  {
    CapabilitiesRow(d.capabilities);
    hide SetAll, Encoded, Decoded, Fits, Bounded, DistinctKeys;
    var vs := ProviderValues(d);
    assert Rows(vs, 12) == Encoded(d.capabilities, CapabilityValues);
    assert CapabilitiesFrom(vs, 12) == d.capabilities;
    hide CapabilitiesFrom, CapabilitiesValue, CapabilitiesWithinLimits;
  }

  lemma ProviderRow(d: ProviderDescriptor)
    ensures AllFit(PROVIDER, ProviderValues(d))
    ensures AllBounded(PROVIDER, ProviderValues(d)) <==> ProviderWithinLimits(d)
    ensures ProviderOf(ProviderValues(d)) == d
  {
    ProviderInverse(d);
    ProviderFits(d);
    CapabilitiesRow(d.capabilities);
    hide AllFit, AllBounded, CapabilitiesWithinLimits, SetAll, Encoded, Decoded, CapabilitiesValue, ProviderOf;
    BoundedBy(PROVIDER, ProviderValues(d), 4, 12);
  }

  // ---- Domains ----

  const DOMAIN: seq<Field> := [U64F, U64F, Text, U8F, U64F]

  function DomainValues(d: DomainDescriptor): seq<Value> {
    [Num(d.id), Num(d.generation), Str(d.name), Num(d.origin), Num(d.failureDomain)]
  }

  function DomainOf(v: seq<Value>): DomainDescriptor {
    DomainDescriptor(Long(v, 0), Long(v, 1), Chars(v, 2), Byte(v, 3), Long(v, 4))
  }

  predicate DomainWithinLimits(d: DomainDescriptor) { |d.name| <= MAX_TEXT }

  lemma DomainRow(d: DomainDescriptor)
    ensures AllFit(DOMAIN, DomainValues(d))
    ensures AllBounded(DOMAIN, DomainValues(d)) <==> DomainWithinLimits(d)
    ensures DomainOf(DomainValues(d)) == d
  {
    Spans();
    BoundedBy(DOMAIN, DomainValues(d), 2, 2);
  }

  // ---- Regions ----

  const REGION: seq<Field> := [U64F, U64F, U64F, U64F, Text, U64F, U64F, U64F, U8F, U8F, Many(CAPABILITY)]

  function RegionValues(d: RegionDescriptor): seq<Value> {
    [Num(d.id), Num(d.generation), Num(d.provider), Num(d.domain), Str(d.name), Num(d.totalCapacityBytes),
     Num(d.alignmentBytes), Num(d.granularityBytes), Num(d.origin), Num(d.persistence),
     CapabilitiesValue(d.staticCapabilities)]
  }

  function RegionOf(v: seq<Value>): RegionDescriptor {
    RegionDescriptor(Long(v, 0), Long(v, 1), Long(v, 2), Long(v, 3), Chars(v, 4), Long(v, 5), Long(v, 6), Long(v, 7),
                     Byte(v, 8), Byte(v, 9), CapabilitiesFrom(v, 10))
  }

  predicate RegionWithinLimits(d: RegionDescriptor) {
    |d.name| <= MAX_TEXT && CapabilitiesWithinLimits(d.staticCapabilities)
  }

  lemma RegionFits(d: RegionDescriptor)
    ensures AllFit(REGION, RegionValues(d))
  {
    Spans();
    CapabilitiesRow(d.staticCapabilities);
    hide CapabilitiesValue;
    var vs := RegionValues(d);
    forall i | 0 <= i < 11 ensures Fits(REGION[i], vs[i]) {
      if i != 4 && i != 10 { assert REGION[i].Word?; }
    }
  }

  lemma RegionInverse(d: RegionDescriptor)
    ensures RegionOf(RegionValues(d)) == d
  {
    CapabilitiesRow(d.staticCapabilities);
    hide SetAll, Encoded, Decoded, Fits, Bounded, DistinctKeys;
    var vs := RegionValues(d);
    assert Rows(vs, 10) == Encoded(d.staticCapabilities, CapabilityValues);
    assert CapabilitiesFrom(vs, 10) == d.staticCapabilities;
    hide CapabilitiesFrom, CapabilitiesValue, CapabilitiesWithinLimits;
  }

  lemma RegionRow(d: RegionDescriptor)
    ensures AllFit(REGION, RegionValues(d))
    ensures AllBounded(REGION, RegionValues(d)) <==> RegionWithinLimits(d)
    ensures RegionOf(RegionValues(d)) == d
  {
    RegionInverse(d);
    RegionFits(d);
    CapabilitiesRow(d.staticCapabilities);
    hide AllFit, AllBounded, CapabilitiesWithinLimits, SetAll, Encoded, Decoded, CapabilitiesValue, RegionOf;
    BoundedBy(REGION, RegionValues(d), 4, 10);
  }

  // ---- Pools ----

  const MEMBER: seq<Field> := [U64F, U64F]
  const POOL: seq<Field> := [U64F, U64F, Text, U8F, Many(MEMBER)]

  function MemberValues(m: PoolMember): seq<Value> { [Num(m.region), Num(m.generation)] }

  function MemberOf(v: seq<Value>): PoolMember { PoolMember(Long(v, 0), Long(v, 1)) }

  function PoolValues(d: PoolDescriptor): seq<Value> {
    [Num(d.id), Num(d.generation), Str(d.name), Num(d.origin), List(Encoded(d.members, MemberValues))]
  }

  function PoolOf(v: seq<Value>): PoolDescriptor {
    PoolDescriptor(Long(v, 0), Long(v, 1), Chars(v, 2), Byte(v, 3), Decoded(Rows(v, 4), MemberOf))
  }

  predicate PoolWithinLimits(d: PoolDescriptor) { |d.name| <= MAX_TEXT && |d.members| <= MAX_COUNT }

  lemma MembersRow(ms: seq<PoolMember>)
    ensures Fits(Many(MEMBER), List(Encoded(ms, MemberValues)))
    ensures Bounded(Many(MEMBER), List(Encoded(ms, MemberValues))) <==> |ms| <= MAX_COUNT
    ensures Decoded(Encoded(ms, MemberValues), MemberOf) == ms
  {
    Spans();
    forall i | 0 <= i < |ms| ensures AllFit(MEMBER, MemberValues(ms[i])) && AllBounded(MEMBER, MemberValues(ms[i])) {
      BoundedBy(MEMBER, MemberValues(ms[i]), 0, 1);
    }
    ListBounded(ms, MemberValues, MEMBER, (m: PoolMember) => true);
    ListInverse(ms, MemberValues, MemberOf);
  }

  lemma PoolRow(d: PoolDescriptor)
    ensures AllFit(POOL, PoolValues(d))
    ensures AllBounded(POOL, PoolValues(d)) <==> PoolWithinLimits(d)
    ensures PoolOf(PoolValues(d)) == d
  {
    Spans();
    MembersRow(d.members);
    hide Encoded, Decoded;
    BoundedBy(POOL, PoolValues(d), 2, 4);
  }

  // ---- Policies ----

  const RULE: seq<Field> := [Text, Text]
  const POLICY: seq<Field> := [U64F, U64F, Text, U8F, U8F, U8F, U8F, Many(RULE)]

  function RuleValues(r: PolicyRule): seq<Value> { [Str(r.key), Str(r.value)] }

  function RuleOf(v: seq<Value>): PolicyRule { PolicyRule(Chars(v, 0), Chars(v, 1)) }

  predicate RuleWithinLimits(r: PolicyRule) { |r.key| <= MAX_TEXT && |r.value| <= MAX_TEXT }

  function PolicyValues(d: PolicyDescriptor): seq<Value> {
    [Num(d.id), Num(d.generation), Str(d.name), Flag(d.allowDegraded), Flag(d.requireFreshEvidence),
     Flag(d.allowLocalFallback), Flag(d.expansionRequired), List(Encoded(d.rules, RuleValues))]
  }

  function PolicyOf(v: seq<Value>): PolicyDescriptor {
    PolicyDescriptor(Long(v, 0), Long(v, 1), Chars(v, 2), Bool(v, 3), Bool(v, 4), Bool(v, 5), Bool(v, 6),
                     Decoded(Rows(v, 7), RuleOf))
  }

  predicate PolicyWithinLimits(d: PolicyDescriptor) {
    && |d.name| <= MAX_TEXT && |d.rules| <= MAX_COUNT
    && forall i :: 0 <= i < |d.rules| ==> RuleWithinLimits(d.rules[i])
  }

  lemma RulesRow(rs: seq<PolicyRule>)
    ensures Fits(Many(RULE), List(Encoded(rs, RuleValues)))
    ensures Bounded(Many(RULE), List(Encoded(rs, RuleValues)))
       <==> |rs| <= MAX_COUNT && forall i :: 0 <= i < |rs| ==> RuleWithinLimits(rs[i])
    ensures Decoded(Encoded(rs, RuleValues), RuleOf) == rs
  {
    forall i | 0 <= i < |rs| ensures AllFit(RULE, RuleValues(rs[i])) && (AllBounded(RULE, RuleValues(rs[i])) <==> RuleWithinLimits(rs[i])) {
      BoundedBy(RULE, RuleValues(rs[i]), 0, 1);
    }
    ListBounded(rs, RuleValues, RULE, RuleWithinLimits);
    ListInverse(rs, RuleValues, RuleOf);
  }

  lemma PolicyRow(d: PolicyDescriptor)
    ensures AllFit(POLICY, PolicyValues(d))
    ensures AllBounded(POLICY, PolicyValues(d)) <==> PolicyWithinLimits(d)
    ensures PolicyOf(PolicyValues(d)) == d
  {
    Spans();
    RulesRow(d.rules);
    hide Encoded, Decoded, RuleWithinLimits;
    BoundedBy(POLICY, PolicyValues(d), 2, 7);
  }

  // ---- Consumers ----

  datatype Consumer = Consumer(id: ConsumerId, generation: Generation)

  const CONSUMER: seq<Field> := [U64F, U64F]

  function ConsumerValues(c: Consumer): seq<Value> { [Num(c.id), Num(c.generation)] }

  function ConsumerOf(v: seq<Value>): Consumer { Consumer(Long(v, 0), Long(v, 1)) }

  // ---- The whole payload ----

  datatype Listing = Listing(
    epoch: Epoch, providers: seq<ProviderDescriptor>, domains: seq<DomainDescriptor>, regions: seq<RegionDescriptor>,
    pools: seq<PoolDescriptor>, policies: seq<PolicyDescriptor>, consumers: seq<Consumer>)

  const PAYLOAD: seq<Field> := [
    U64F, Many(PROVIDER), Many(DOMAIN), Many(REGION), Many(POOL), Many(POLICY), Many(CONSUMER)]

  function ListingValues(l: Listing): seq<Value> {
    [Num(l.epoch), List(Encoded(l.providers, ProviderValues)), List(Encoded(l.domains, DomainValues)),
     List(Encoded(l.regions, RegionValues)), List(Encoded(l.pools, PoolValues)), List(Encoded(l.policies, PolicyValues)),
     List(Encoded(l.consumers, ConsumerValues))]
  }

  function ListingOf(v: seq<Value>): Listing {
    Listing(Long(v, 0), Decoded(Rows(v, 1), ProviderOf), Decoded(Rows(v, 2), DomainOf), Decoded(Rows(v, 3), RegionOf),
            Decoded(Rows(v, 4), PoolOf), Decoded(Rows(v, 5), PolicyOf), Decoded(Rows(v, 6), ConsumerOf))
  }

  /** Every text and every count is one the reader accepts. */
  predicate WithinLimits(l: Listing) {
    && |l.providers| <= MAX_COUNT && (forall i :: 0 <= i < |l.providers| ==> ProviderWithinLimits(l.providers[i]))
    && |l.domains| <= MAX_COUNT && (forall i :: 0 <= i < |l.domains| ==> DomainWithinLimits(l.domains[i]))
    && |l.regions| <= MAX_COUNT && (forall i :: 0 <= i < |l.regions| ==> RegionWithinLimits(l.regions[i]))
    && |l.pools| <= MAX_COUNT && (forall i :: 0 <= i < |l.pools| ==> PoolWithinLimits(l.pools[i]))
    && |l.policies| <= MAX_COUNT && (forall i :: 0 <= i < |l.policies| ==> PolicyWithinLimits(l.policies[i]))
    && |l.consumers| <= MAX_COUNT
  }

  lemma ProvidersRows(ds: seq<ProviderDescriptor>)
    ensures Fits(Many(PROVIDER), List(Encoded(ds, ProviderValues)))
    ensures Bounded(Many(PROVIDER), List(Encoded(ds, ProviderValues)))
       <==> |ds| <= MAX_COUNT && forall i :: 0 <= i < |ds| ==> ProviderWithinLimits(ds[i])
    ensures Decoded(Encoded(ds, ProviderValues), ProviderOf) == ds
  {
    forall i | 0 <= i < |ds|
      ensures AllFit(PROVIDER, ProviderValues(ds[i])) && (AllBounded(PROVIDER, ProviderValues(ds[i])) <==> ProviderWithinLimits(ds[i]))
              && ProviderOf(ProviderValues(ds[i])) == ds[i]
    {
      ProviderRow(ds[i]);
    }
    hide AllFit, AllBounded, ProviderValues, ProviderOf, ProviderWithinLimits;
    ListBounded(ds, ProviderValues, PROVIDER, ProviderWithinLimits);
    ListInverse(ds, ProviderValues, ProviderOf);
  }

  lemma DomainsRows(ds: seq<DomainDescriptor>)
    ensures Fits(Many(DOMAIN), List(Encoded(ds, DomainValues)))
    ensures Bounded(Many(DOMAIN), List(Encoded(ds, DomainValues)))
       <==> |ds| <= MAX_COUNT && forall i :: 0 <= i < |ds| ==> DomainWithinLimits(ds[i])
    ensures Decoded(Encoded(ds, DomainValues), DomainOf) == ds
  {
    forall i | 0 <= i < |ds|
      ensures AllFit(DOMAIN, DomainValues(ds[i])) && (AllBounded(DOMAIN, DomainValues(ds[i])) <==> DomainWithinLimits(ds[i]))
              && DomainOf(DomainValues(ds[i])) == ds[i]
    {
      DomainRow(ds[i]);
    }
    hide AllFit, AllBounded, DomainValues, DomainOf, DomainWithinLimits;
    ListBounded(ds, DomainValues, DOMAIN, DomainWithinLimits);
    ListInverse(ds, DomainValues, DomainOf);
  }

  lemma RegionsRows(ds: seq<RegionDescriptor>)
    ensures Fits(Many(REGION), List(Encoded(ds, RegionValues)))
    ensures Bounded(Many(REGION), List(Encoded(ds, RegionValues)))
       <==> |ds| <= MAX_COUNT && forall i :: 0 <= i < |ds| ==> RegionWithinLimits(ds[i])
    ensures Decoded(Encoded(ds, RegionValues), RegionOf) == ds
  {
    forall i | 0 <= i < |ds|
      ensures AllFit(REGION, RegionValues(ds[i])) && (AllBounded(REGION, RegionValues(ds[i])) <==> RegionWithinLimits(ds[i]))
              && RegionOf(RegionValues(ds[i])) == ds[i]
    {
      RegionRow(ds[i]);
    }
    hide AllFit, AllBounded, RegionValues, RegionOf, RegionWithinLimits;
    ListBounded(ds, RegionValues, REGION, RegionWithinLimits);
    ListInverse(ds, RegionValues, RegionOf);
  }

  lemma PoolsRows(ds: seq<PoolDescriptor>)
    ensures Fits(Many(POOL), List(Encoded(ds, PoolValues)))
    ensures Bounded(Many(POOL), List(Encoded(ds, PoolValues)))
       <==> |ds| <= MAX_COUNT && forall i :: 0 <= i < |ds| ==> PoolWithinLimits(ds[i])
    ensures Decoded(Encoded(ds, PoolValues), PoolOf) == ds
  {
    forall i | 0 <= i < |ds|
      ensures AllFit(POOL, PoolValues(ds[i])) && (AllBounded(POOL, PoolValues(ds[i])) <==> PoolWithinLimits(ds[i]))
              && PoolOf(PoolValues(ds[i])) == ds[i]
    {
      PoolRow(ds[i]);
    }
    hide AllFit, AllBounded, PoolValues, PoolOf, PoolWithinLimits;
    ListBounded(ds, PoolValues, POOL, PoolWithinLimits);
    ListInverse(ds, PoolValues, PoolOf);
  }

  lemma PoliciesRows(ds: seq<PolicyDescriptor>)
    ensures Fits(Many(POLICY), List(Encoded(ds, PolicyValues)))
    ensures Bounded(Many(POLICY), List(Encoded(ds, PolicyValues)))
       <==> |ds| <= MAX_COUNT && forall i :: 0 <= i < |ds| ==> PolicyWithinLimits(ds[i])
    ensures Decoded(Encoded(ds, PolicyValues), PolicyOf) == ds
  {
    forall i | 0 <= i < |ds|
      ensures AllFit(POLICY, PolicyValues(ds[i])) && (AllBounded(POLICY, PolicyValues(ds[i])) <==> PolicyWithinLimits(ds[i]))
              && PolicyOf(PolicyValues(ds[i])) == ds[i]
    {
      PolicyRow(ds[i]);
    }
    hide AllFit, AllBounded, PolicyValues, PolicyOf, PolicyWithinLimits;
    ListBounded(ds, PolicyValues, POLICY, PolicyWithinLimits);
    ListInverse(ds, PolicyValues, PolicyOf);
  }

  lemma ConsumersRows(cs: seq<Consumer>)
    ensures Fits(Many(CONSUMER), List(Encoded(cs, ConsumerValues)))
    ensures Bounded(Many(CONSUMER), List(Encoded(cs, ConsumerValues))) <==> |cs| <= MAX_COUNT
    ensures Decoded(Encoded(cs, ConsumerValues), ConsumerOf) == cs
  {
    Spans();
    forall i | 0 <= i < |cs| ensures AllFit(CONSUMER, ConsumerValues(cs[i])) && AllBounded(CONSUMER, ConsumerValues(cs[i])) {
      BoundedBy(CONSUMER, ConsumerValues(cs[i]), 0, 1);
    }
    ListBounded(cs, ConsumerValues, CONSUMER, (c: Consumer) => true);
    ListInverse(cs, ConsumerValues, ConsumerOf);
  }

  /** The payload has the schema's shape, is readable exactly within the limits, and determines the listing. */
  lemma ListingRows(l: Listing)
    ensures AllFit(PAYLOAD, ListingValues(l))
    ensures AllBounded(PAYLOAD, ListingValues(l)) <==> WithinLimits(l)
    ensures ListingOf(ListingValues(l)) == l
  {
    Spans();
    ProvidersRows(l.providers);
    DomainsRows(l.domains);
    RegionsRows(l.regions);
    PoolsRows(l.pools);
    PoliciesRows(l.policies);
    ConsumersRows(l.consumers);
    hide Encoded, Decoded, ProviderWithinLimits, DomainWithinLimits, RegionWithinLimits, PoolWithinLimits, PolicyWithinLimits;
    hide Fits, Bounded;
    PayloadShape(l);
  }

  lemma PayloadShape(l: Listing)
    requires Fits(PAYLOAD[1], ListingValues(l)[1]) && Fits(PAYLOAD[2], ListingValues(l)[2]) && Fits(PAYLOAD[3], ListingValues(l)[3])
    requires Fits(PAYLOAD[4], ListingValues(l)[4]) && Fits(PAYLOAD[5], ListingValues(l)[5]) && Fits(PAYLOAD[6], ListingValues(l)[6])
    ensures AllFit(PAYLOAD, ListingValues(l))
    ensures AllBounded(PAYLOAD, ListingValues(l)) <==>
              var vs := ListingValues(l);
              && Bounded(PAYLOAD[1], vs[1]) && Bounded(PAYLOAD[2], vs[2]) && Bounded(PAYLOAD[3], vs[3])
              && Bounded(PAYLOAD[4], vs[4]) && Bounded(PAYLOAD[5], vs[5]) && Bounded(PAYLOAD[6], vs[6])
  {
    Spans();
    assert Fits(PAYLOAD[0], ListingValues(l)[0]) && Bounded(PAYLOAD[0], ListingValues(l)[0]);
    hide ListingValues, Fits, Bounded;
  }

  function EncodeListing(l: Listing): Bytes {
    ListingRows(l);
    EncodeAll(PAYLOAD, ListingValues(l))
  }

  function DecodeListing(b: Bytes): Option<Listing> {
    var vs :- DecodeRecord(PAYLOAD, b);
    Some(ListingOf(vs))
  }
}
