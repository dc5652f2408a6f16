/** A small deployment reached from a new coordinator, on which the failing inputs of other modules are shown. */
module Scenarios {
  import opened Types
  import opened Ledgers
  import opened Records
  import opened Operations

  const OPERATOR := Authority(1, NULL, NULL)
  const PROVIDER := ProviderDescriptor(1, 1, 0, 0, [], 0, 0, 0, 64, 1, 1, [], false)
  const REGION := RegionDescriptor(1, 1, 1, 0, [], 64, 1, 1, 0, 0, [])
  const POOL := PoolDescriptor(1, 1, [], 0, [PoolMember(1, 1)])
  const FAILURE := RegionEvidence(EvidenceHeader(1, 1, 1, 1, 1, 1, 0, 0, 1, 0, 0, [], 0), HEALTH_FAILED, true, 64, 0, 0, 0, 0, 0)
  const HEALTHY := FAILURE.(health := HEALTH_HEALTHY)
  const DEGRADED := FAILURE.(health := HEALTH_DEGRADED)

  lemma {:induction false} RunThen(s: State, ops: seq<Op>, op: Op)
    ensures Run(s, ops + [op]) == Apply(Run(s, ops), op).state
    decreases |ops|
  {
    hide Apply;
    if ops == [] {
      assert ([] + [op])[1..] == [];
    } else {
      assert (ops + [op])[0] == ops[0] && (ops + [op])[1..] == ops[1..] + [op];
      RunThen(Apply(s, ops[0]).state, ops[1..], op);
    }
  }

  // ---- One provider and one region, registered ----

  function Setup(): seq<Op> { [OpRegisterProvider(PROVIDER, OPERATOR), OpRegisterRegion(REGION, OPERATOR)] }

  function Furnished(): State {
    Initial(1).(providers := map[1 := ProviderRecord(PROVIDER, Lifecycle.Registered)],
                regions := map[1 := FreshRegion(REGION, RegionLifecycle.Declared)])
  }

  lemma FurnishedRun()
    ensures Run(Initial(1), Setup()) == Furnished()
  {
    var ops := Setup();
    var s1 := RegisterProvider(Initial(1), PROVIDER, OPERATOR).state;
    assert s1 == Initial(1).(providers := map[1 := ProviderRecord(PROVIDER, Lifecycle.Registered)]);
    var s2 := RegisterRegion(s1, REGION, OPERATOR).state;
    assert s2 == Furnished();
    hide RegisterProvider, RegisterRegion;
    assert ops[1..] == [OpRegisterRegion(REGION, OPERATOR)] && ops[1..][1..] == [];
    assert Run(s1, ops[1..]) == Run(s2, []);
  }

  // ---- In service ----

  function Filled(): Ledger { Empty(64).(online := 64, free := 64) }

  function ServingRegion(): RegionRecord { TakeEvidence(FreshRegion(REGION, RegionLifecycle.Online), Filled(), HEALTHY) }

  function Serving(): State {
    Furnished().(providers := map[1 := ProviderRecord(PROVIDER, Lifecycle.Online)], regions := map[1 := ServingRegion()])
  }

  lemma OnlineOf64()
    ensures SetOnline(Empty(64), 64) == Move(Filled(), true)
  {
  }

  /** An operator's evidence about the only region is taken in whatever health it reports. */
  lemma EvidenceAccepted(e: RegionEvidence)
    requires e.header == FAILURE.header && e.onlineCapacityBytes == 64
    ensures EvidenceFault(Furnished(), e, OPERATOR) == NoError
  {
  }

  lemma ServingRecord()
    ensures TakeEvidence(FreshRegion(REGION, RegionLifecycle.Declared), Filled(), HEALTHY).(lifecycle := RegionLifecycle.Online)
         == ServingRegion()
  {
  }

  lemma ProviderFollows()
    ensures Reflect(Furnished().providers, ServingRegion()) == map[1 := ProviderRecord(PROVIDER, Lifecycle.Online)]
  {
  }

  /** Evidence that is taken in and whose health the table allows. */
  lemma Absorbed(s: State, e: RegionEvidence, a: Authority, l: Ledger)
    requires EvidenceFault(s, e, a) == NoError
    requires var rr := s.regions[e.header.region];
             && SetOnline(rr.ledger, e.onlineCapacityBytes) == Move(l, true)
             && RegionAllowed(rr.lifecycle, HealthTarget(e.health))
    ensures var rid := e.header.region;
            var done := TakeEvidence(s.regions[rid], l, e).(lifecycle := HealthTarget(e.health));
            PublishEvidence(s, e, a) == Step(s.(regions := s.regions[rid := done], providers := Reflect(s.providers, done)), NoError)
  {
    hide SetOnline, HealthTarget, RegionAllowed, Reflect, Acceptable;
  }

  lemma FurnishedRegion()
    ensures 1 in Furnished().regions && Furnished().regions[1] == FreshRegion(REGION, RegionLifecycle.Declared)
    ensures Furnished().regions[1].ledger == Empty(64) && Furnished().regions[1].lifecycle.Declared?
  {
  }

  lemma ServingParts(r: RegionRecord, ps: map<ProviderId, ProviderRecord>)
    requires r == ServingRegion() && ps == map[1 := ProviderRecord(PROVIDER, Lifecycle.Online)]
    ensures Furnished().(regions := Furnished().regions[1 := r], providers := ps) == Serving()
  {
    hide ServingRegion;
    assert Furnished().regions[1 := r] == map[1 := r];
  }

  lemma HealthyOne()
    ensures HEALTHY.header.region == 1 && HEALTHY.onlineCapacityBytes == 64 && HEALTHY.header == FAILURE.header
    ensures HealthTarget(HEALTHY.health) == RegionLifecycle.Online && RegionAllowed(RegionLifecycle.Declared, RegionLifecycle.Online)
  {
  }

  lemma ServingIsReached()
    ensures PublishEvidence(Furnished(), HEALTHY, OPERATOR).state == Serving()
  {
    hide *;
    HealthyOne();
    OnlineOf64();
    EvidenceAccepted(HEALTHY);
    FurnishedRegion();
    ServingRecord();
    ProviderFollows();
    ServingParts(ServingRegion(), Reflect(Furnished().providers, ServingRegion()));
    Absorbed(Furnished(), HEALTHY, OPERATOR, Filled());
  }

  function Service(): seq<Op> { Setup() + [OpPublishEvidence(HEALTHY, OPERATOR)] }

  lemma ServingRun()
    ensures Run(Initial(1), Service()) == Serving()
  {
    FurnishedRun();
    ServingIsReached();
    hide Run, PublishEvidence, Serving, Furnished;
    RunThen(Initial(1), Setup(), OpPublishEvidence(HEALTHY, OPERATOR));
  }
}
