/**
 Every operation of the control plane as a function from a state to the next one. Each locked
 operation is one atomic step. The loops that withdraw reservations one at a time are given here
 by their closed form (`Withdraw`); module Runtime holds the loops and proves them equal to it.
 */
module Operations {
  import opened Words
  import opened Types
  import opened Ledgers
  import opened Records
  import Selection

  type Request = Selection.Request

  datatype Step = Step(state: State, error: ErrorCode)

  // ---- Guard tables ----

  predicate ProviderAllowed(from: Lifecycle, to: Lifecycle) {
    from != to &&
    match from
    case Discovered => to.Registered? || to.Retired?
    case Registered => to.Probing? || to.Online? || to.Offline? || to.Retired? || to.RevalidationRequired?
    case Probing => to.Online? || to.Degraded? || to.Offline? || to.Failed? || to.RevalidationRequired? || to.Retired?
    case Online => to.Degraded? || to.Draining? || to.Offline? || to.RevalidationRequired? || to.Retired? || to.Failed?
    case Degraded => to.Online? || to.Draining? || to.Offline? || to.RevalidationRequired? || to.Retired? || to.Failed?
    case Draining => to.Offline? || to.Failed? || to.Retired?
    case Offline => to.RevalidationRequired? || to.Retired? || to.Online? || to.Registered?
    case RevalidationRequired => to.Online? || to.Offline? || to.Retired? || to.Probing?
    case Failed => to.Offline? || to.Retired? || to.RevalidationRequired? || to.Probing?
    case Retired => false
  }

  predicate RegionAllowed(from: RegionLifecycle, to: RegionLifecycle) {
    from != to &&
    match from
    case Declared => to.Online? || to.Degraded? || to.Unavailable? || to.RevalidationRequired? || to.Retired?
    case Online => to.Degraded? || to.Draining? || to.Unavailable? || to.RevalidationRequired? || to.Retired?
    case Degraded => to.Online? || to.Draining? || to.Unavailable? || to.RevalidationRequired? || to.Retired?
    case Draining => to.Unavailable? || to.RevalidationRequired? || to.Retired?
    case Unavailable => to.Online? || to.RevalidationRequired? || to.Retired?
    case RevalidationRequired => to.Online? || to.Unavailable? || to.Declared? || to.Retired?
    case Retired => false
  }

  predicate ReservationAllowed(from: ReservationState, to: ReservationState) {
    from != to &&
    match from
    case Requested => to.Evaluated? || to.Rejected? || to.Cancelled? || to.Expired? || to.RevalidationRequired? || to.Reserved?
    case Evaluated => to.Reserved? || to.Rejected? || to.Cancelled? || to.RevalidationRequired? || to.Expired?
    case Reserved => to.Committed? || to.Released? || to.Fenced? || to.RevalidationRequired? || to.Expired? || to.Cancelled?
    case Committed => to.Active? || to.Released? || to.Fenced? || to.RevalidationRequired?
    case Active => to.Released? || to.Fenced? || to.RevalidationRequired?
    case RevalidationRequired => to.Reserved? || to.Committed? || to.Released? || to.Fenced? || to.Cancelled?
    case Released | Rejected | Expired | Fenced | Cancelled | Unnamed(_) => false
  }

  // ---- Authority ----

  predicate Acceptable(s: State, a: Authority) {
    && a.epoch == s.epoch
    && (a.worker != NULL ==>
          && a.worker in s.workers
          && s.workers[a.worker].boot == a.boot
          && s.workers[a.worker].alive
          && s.workers[a.worker].registeredEpoch == s.epoch)
  }

  // ---- Epoch ----

  /** Evidence authority lapses; a region in use must be revalidated. */
  function Suspend(rr: RegionRecord): RegionRecord {
    rr.(evidenceStatus := if rr.hasEvidence then EvidenceStatus.RevalidationRequired else rr.evidenceStatus,
        lifecycle := if rr.lifecycle.Retired? || rr.lifecycle.Draining? || rr.lifecycle.Unavailable?
                     then rr.lifecycle else RegionLifecycle.RevalidationRequired)
  }

  function SuspendAll(regions: map<RegionId, RegionRecord>, ids: set<RegionId>): map<RegionId, RegionRecord> {
    map rid | rid in regions :: if rid in ids then Suspend(regions[rid]) else regions[rid]
  }

  function Dismiss(workers: map<WorkerId, WorkerRecord>): map<WorkerId, WorkerRecord> {
    map w | w in workers :: workers[w].(alive := false)
  }

  ghost function SetEpoch(s: State, e: Epoch): (t: State)
    ensures t.nextReservation == s.nextReservation
  {
    if e <= s.epoch then s else
      var t := Withdraw(s, s.reservations.Keys, EpochAdvance);
      t.(epoch := e, workers := Dismiss(t.workers), regions := SuspendAll(t.regions, t.regions.Keys))
  }

  // ---- Registration ----

  function RegisterConsumer(s: State, c: ConsumerId, g: Generation, a: Authority): (step: Step)
    ensures step.state.nextReservation == s.nextReservation
    ensures step.state.workers == s.workers
  {
    if !Acceptable(s, a) then Step(s, StaleAuthority)
    else if c == NULL || g == NULL then Step(s, InvalidId)
    else if c in s.consumers && g <= s.consumers[c] then Step(s, WrongGeneration)
    else Step(s.(consumers := s.consumers[c := g]), NoError)
  }

  predicate Contradictory(caps: seq<Capability>) {
    || (&& GetCapability(caps, KEY_PERSISTENT) == CAPABILITY_SUPPORTED
        && GetCapability(caps, KEY_VOLATILE) == CAPABILITY_SUPPORTED)
    || (&& GetCapability(caps, KEY_BYTE_ADDRESSABLE) == CAPABILITY_SUPPORTED
        && GetCapability(caps, KEY_BLOCK_ORIENTED) == CAPABILITY_SUPPORTED)
  }

  /** A known id must come back with a strictly higher generation. */
  function Reincarnation(current: Generation, offered: Generation): ErrorCode {
    if current == offered then AlreadyExists
    else if offered < current then WrongGeneration
    else NoError
  }

  function OfProvider(s: State, p: ProviderId): set<ReservationId> {
    set id | id in s.reservations && s.reservations[id].provider == p
  }

  function OfRegion(s: State, region: RegionId): set<ReservationId> {
    set id | id in s.reservations && s.reservations[id].region == region
  }

  function OfPool(s: State, pool: PoolId): set<ReservationId> {
    set id | id in s.reservations && s.reservations[id].pool == pool
  }

  function OfPolicy(s: State, policy: PolicyId): set<ReservationId> {
    set id | id in s.reservations && s.reservations[id].policy == policy
  }

  /** Regions of a reincarnated provider lose their evidence and must be revalidated. */
  function Forget(rr: RegionRecord): RegionRecord {
    rr.(lifecycle := if rr.lifecycle.Retired? then rr.lifecycle else RegionLifecycle.RevalidationRequired,
        hasEvidence := false, evidenceStatus := EvidenceStatus.Unknown)
  }

  function ForgetBacked(regions: map<RegionId, RegionRecord>, p: ProviderId): map<RegionId, RegionRecord> {
    map rid | rid in regions :: if regions[rid].descriptor.provider == p then Forget(regions[rid]) else regions[rid]
  }

  function ProviderFault(s: State, d: ProviderDescriptor, a: Authority): ErrorCode {
    if !Acceptable(s, a) then StaleAuthority
    else if d.id == NULL || d.generation == NULL then InvalidId
    else if d.totalCapacityBytes == 0 then InvalidArgument
    else if d.alignmentBytes == 0 || d.granularityBytes == 0 then InvalidArgument
    else if Contradictory(d.capabilities) then InvalidArgument
    else if d.id in s.providers then Reincarnation(s.providers[d.id].descriptor.generation, d.generation)
    else NoError
  }

  ghost function RegisterProvider(s: State, d: ProviderDescriptor, a: Authority): (step: Step)
    ensures step.state.nextReservation == s.nextReservation
    ensures step.state.workers == s.workers
  {
    var fault := ProviderFault(s, d, a);
    if fault != NoError then Step(s, fault) else
      var t := if d.id !in s.providers then s else
                 var w := Withdraw(s, OfProvider(s, d.id), Fencing);
                 w.(regions := ForgetBacked(w.regions, d.id));
      Step(t.(providers := t.providers[d.id := ProviderRecord(d, Lifecycle.Registered)]), NoError)
  }

  function RegisterDomain(s: State, d: DomainDescriptor, a: Authority): (step: Step)
    ensures step.state.nextReservation == s.nextReservation
    ensures step.state.workers == s.workers
  {
    if !Acceptable(s, a) then Step(s, StaleAuthority)
    else if d.id == NULL || d.generation == NULL then Step(s, InvalidId)
    else
      var fault := if d.id in s.domains
                   then Reincarnation(s.domains[d.id].descriptor.generation, d.generation) else NoError;
      if fault != NoError then Step(s, fault)
      else Step(s.(domains := s.domains[d.id := DomainRecord(d, Lifecycle.Registered)]), NoError)
  }

  function RegionFault(s: State, d: RegionDescriptor, a: Authority): ErrorCode {
    if !Acceptable(s, a) then StaleAuthority
    else if d.id == NULL || d.generation == NULL then InvalidId
    else if d.provider == NULL then InvalidArgument
    else if d.totalCapacityBytes == 0 then InvalidArgument
    else if d.alignmentBytes == 0 || d.granularityBytes == 0 then InvalidArgument
    else if d.provider !in s.providers then NotFound
    else if Contradictory(d.staticCapabilities) then InvalidArgument
    else if d.id in s.regions then Reincarnation(s.regions[d.id].descriptor.generation, d.generation)
    else NoError
  }

  ghost function RegisterRegion(s: State, d: RegionDescriptor, a: Authority): (step: Step)
    ensures step.state.nextReservation == s.nextReservation
    ensures step.state.workers == s.workers
  {
    var fault := RegionFault(s, d, a);
    if fault != NoError then Step(s, fault) else
      var t := if d.id !in s.regions then s else Withdraw(s, OfRegion(s, d.id), Fencing);
      Step(t.(regions := t.regions[d.id := FreshRegion(d, RegionLifecycle.Declared)]), NoError)
  }

  function PoolFault(s: State, d: PoolDescriptor, a: Authority): ErrorCode {
    if !Acceptable(s, a) then StaleAuthority
    else if d.id == NULL || d.generation == NULL then InvalidId
    else if d.id in s.pools then Reincarnation(s.pools[d.id].generation, d.generation)
    else NoError
  }

  /** Also `replacePoolGeneration`, which only forwards. */
  ghost function RegisterPool(s: State, d: PoolDescriptor, a: Authority): (step: Step)
    ensures step.state.nextReservation == s.nextReservation
    ensures step.state.workers == s.workers
  {
    var fault := PoolFault(s, d, a);
    if fault != NoError then Step(s, fault) else
      var t := if d.id !in s.pools then s else Withdraw(s, OfPool(s, d.id), Fencing);
      Step(t.(pools := t.pools[d.id := d]), NoError)
  }

  function PolicyFault(s: State, d: PolicyDescriptor, a: Authority): ErrorCode {
    if !Acceptable(s, a) then StaleAuthority
    else if d.id == NULL || d.generation == NULL then InvalidId
    else if d.id in s.policies then Reincarnation(s.policies[d.id].generation, d.generation)
    else NoError
  }

  ghost function RegisterPolicy(s: State, d: PolicyDescriptor, a: Authority): (step: Step)
    ensures step.state.nextReservation == s.nextReservation
    ensures step.state.workers == s.workers
  {
    var fault := PolicyFault(s, d, a);
    if fault != NoError then Step(s, fault) else
      var t := if d.id !in s.policies then s else Withdraw(s, OfPolicy(s, d.id), Fencing);
      Step(t.(policies := t.policies[d.id := d]), NoError)
  }

  // ---- Pool membership ----

  /** The index of the first entry for a region, or the length of the list. */
  function FirstOf(members: seq<PoolMember>, region: RegionId): (i: nat)
    ensures i <= |members|
    ensures i < |members| ==> members[i].region == region
    ensures forall j :: 0 <= j < i ==> members[j].region != region
  {
    if members == [] then 0 else if members[0].region == region then 0 else 1 + FirstOf(members[1..], region)
  }

  function AddPoolMember(s: State, pool: PoolId, m: PoolMember, a: Authority): (step: Step)
    ensures step.state.nextReservation == s.nextReservation
    ensures step.state.workers == s.workers
  {
    if !Acceptable(s, a) then Step(s, StaleAuthority)
    else if pool !in s.pools then Step(s, NotFound)
    else if m.region !in s.regions then Step(s, NotFound)
    else if m.generation == NULL then Step(s, InvalidId)
    else if s.regions[m.region].descriptor.generation != m.generation then Step(s, WrongGeneration)
    else
      var d, rr := s.pools[pool], s.regions[m.region];
      var i := FirstOf(d.members, m.region);
      if i < |d.members| && d.members[i].generation == m.generation then Step(s, AlreadyExists)
      else
        var pools := s.pools[pool := d.(members := d.members + [m])];
        if i < |d.members| then Step(s.(pools := pools), NoError)
        else Step(s.(pools := pools,
                     regions := s.regions[m.region := rr.(memberships := rr.memberships + {(pool, d.generation)})]),
                  NoError)
  }

  function Without(members: seq<PoolMember>, region: RegionId): (out: seq<PoolMember>)
    ensures |out| <= |members|
    ensures forall m :: m in out <==> m in members && m.region != region
  {
    if members == [] then []
    else if members[0].region == region then Without(members[1..], region)
    else [members[0]] + Without(members[1..], region)
  }

  function RemovePoolMember(s: State, pool: PoolId, region: RegionId, a: Authority): (step: Step)
    ensures step.state.nextReservation == s.nextReservation
    ensures step.state.workers == s.workers
  {
    if !Acceptable(s, a) then Step(s, StaleAuthority)
    else if pool !in s.pools then Step(s, NotFound)
    else
      var d := s.pools[pool];
      var members := Without(d.members, region);
      if |members| == |d.members| then Step(s, NotFound)
      else
        var t := s.(pools := s.pools[pool := d.(members := members)]);
        if region !in s.regions then Step(t, NoError) else
          var rr := s.regions[region];
          Step(t.(regions := s.regions[region := rr.(memberships := set m | m in rr.memberships && m.0 != pool)]), NoError)
  }

  // ---- Evidence ----

  function EvidenceFault(s: State, e: RegionEvidence, a: Authority): ErrorCode {
    var h := e.header;
    if !Acceptable(s, a) then StaleAuthority
    else if h.epoch != s.epoch then WrongEpoch
    else if h.region !in s.regions then NotFound
    else if h.regionGeneration != s.regions[h.region].descriptor.generation then WrongGeneration
    else if h.sourceProvider !in s.providers then NotFound
    else if h.sourceProviderGeneration != s.providers[h.sourceProvider].descriptor.generation then WrongGeneration
    else if a.worker != NULL && (h.worker != a.worker || h.boot != a.boot) then StaleAuthority
    else if e.onlineCapacityBytes > s.regions[h.region].descriptor.totalCapacityBytes then InvalidArgument
    else if s.regions[h.region].lifecycle.Draining? || s.regions[h.region].lifecycle.Retired? then InvalidTransition
    else NoError
  }

  /** The region record once evidence is taken in, before its lifecycle follows the reported health. */
  function TakeEvidence(rr: RegionRecord, ledger: Ledger, e: RegionEvidence): RegionRecord {
    rr.(ledger := ledger, latest := e, hasEvidence := true, evidenceStatus := EvidenceStatus.Current,
        health := e.health, reachable := e.reachable, latencyNs := e.latencyNs,
        bandwidthBytesPerSec := e.bandwidthBytesPerSec)
  }

  function HealthTarget(h: HealthState): RegionLifecycle {
    if h == HEALTH_FAILED then RegionLifecycle.RevalidationRequired
    else if h == HEALTH_DEGRADED then RegionLifecycle.Degraded
    else RegionLifecycle.Online
  }

  /** The backing provider comes online with its region. */
  function Reflect(providers: map<ProviderId, ProviderRecord>, rr: RegionRecord): map<ProviderId, ProviderRecord> {
    var p := rr.descriptor.provider;
    if p !in providers then providers else
      var pt := providers[p].lifecycle;
      var target := if rr.lifecycle.Online? && (pt.Registered? || pt.Probing? || pt.Offline? || pt.RevalidationRequired?)
                    then Lifecycle.Online else pt;
      if target != pt && ProviderAllowed(pt, target) then providers[p := providers[p].(lifecycle := target)]
      else providers
  }

  /** Apply the online capacity, record the evidence, and let the lifecycle follow the reported health. */
  function AbsorbEvidence(s: State, e: RegionEvidence): (step: Step)
    requires e.header.region in s.regions
    ensures step.state.nextReservation == s.nextReservation && step.state.workers == s.workers
  {
    var rid := e.header.region;
    var rr := s.regions[rid];
    var m := SetOnline(rr.ledger, e.onlineCapacityBytes);
    if !m.ok then Step(s.(regions := s.regions[rid := rr.(ledger := m.ledger)]), InvalidArgument) else
      var taken := TakeEvidence(rr, m.ledger, e);
      var target := HealthTarget(e.health);
      if target != rr.lifecycle && !RegionAllowed(rr.lifecycle, target)
      then Step(s.(regions := s.regions[rid := taken]), InvalidTransition)
      else
        var done := taken.(lifecycle := target);
        Step(s.(regions := s.regions[rid := done], providers := Reflect(s.providers, done)), NoError)
  }

  function PublishEvidence(s: State, e: RegionEvidence, a: Authority): (step: Step)
    ensures step.state.nextReservation == s.nextReservation
    ensures step.state.workers == s.workers
  {
    var fault := EvidenceFault(s, e, a);
    if fault != NoError then Step(s, fault) else AbsorbEvidence(s, e)
  }

  function PutAttachment(atts: seq<AttachmentEvidence>, e: AttachmentEvidence): seq<AttachmentEvidence> {
    if atts == [] then [e]
    else if atts[0].id == e.id then [e] + atts[1..]
    else [atts[0]] + PutAttachment(atts[1..], e)
  }

  function PublishAttachment(s: State, e: AttachmentEvidence, a: Authority): (step: Step)
    ensures step.state.nextReservation == s.nextReservation
    ensures step.state.workers == s.workers
  {
    if !Acceptable(s, a) then Step(s, StaleAuthority)
    else if e.epoch != s.epoch then Step(s, WrongEpoch)
    else if e.id == NULL || e.generation == NULL then Step(s, InvalidId)
    else if e.region !in s.regions then Step(s, NotFound)
    else
      var rr := s.regions[e.region];
      if e.regionGeneration != rr.descriptor.generation then Step(s, WrongGeneration)
      else Step(s.(regions := s.regions[e.region := rr.(attachments := PutAttachment(rr.attachments, e))]), NoError)
  }

  // ---- Region and provider lifecycle ----

  function RegionGuard(s: State, region: RegionId, a: Authority): ErrorCode {
    if !Acceptable(s, a) then StaleAuthority else if region !in s.regions then NotFound else NoError
  }

  function WithRegion(s: State, region: RegionId, rr: RegionRecord): State {
    s.(regions := s.regions[region := rr])
  }

  /** The backing provider follows its region from one lifecycle to the next, if it is in the first. */
  function Follow(s: State, provider: ProviderId, from: Lifecycle, to: Lifecycle): State {
    if provider in s.providers && s.providers[provider].lifecycle == from
    then s.(providers := s.providers[provider := s.providers[provider].(lifecycle := to)])
    else s
  }

  /** All free capacity of a region moves into draining. */
  function StartDraining(t: State, region: RegionId): (step: Step)
    requires region in t.regions
    ensures step.state.nextReservation == t.nextReservation && step.state.workers == t.workers
  {
    var rr := t.regions[region];
    var m := Transfer(rr.ledger, Free, Bucket.Draining, rr.ledger.free);
    if !m.ok then Step(WithRegion(t, region, rr.(ledger := m.ledger)), InvalidArgument)
    else Step(Follow(WithRegion(t, region, rr.(ledger := m.ledger, lifecycle := RegionLifecycle.Draining)),
                     rr.descriptor.provider, Lifecycle.Online, Lifecycle.Draining), NoError)
  }

  ghost function BeginDrain(s: State, region: RegionId, a: Authority): (step: Step)
    ensures step.state.nextReservation == s.nextReservation
    ensures step.state.workers == s.workers
  {
    var fault := RegionGuard(s, region, a);
    if fault != NoError then Step(s, fault)
    else if !RegionAllowed(s.regions[region].lifecycle, RegionLifecycle.Draining) then Step(s, InvalidTransition)
    else StartDraining(Withdraw(s, OfRegion(s, region), DrainStart), region)
  }

  function CompleteDrain(s: State, region: RegionId, a: Authority): (step: Step)
    ensures step.state.nextReservation == s.nextReservation
    ensures step.state.workers == s.workers
  {
    var fault := RegionGuard(s, region, a);
    if fault != NoError then Step(s, fault) else
      var rr := s.regions[region];
      if !rr.lifecycle.Draining? then Step(s, InvalidTransition) else
        var m := Transfer(rr.ledger, Bucket.Draining, Bucket.Unavailable, rr.ledger.draining);
        if !m.ok then Step(WithRegion(s, region, rr.(ledger := m.ledger)), InvalidArgument)
        else Step(Follow(WithRegion(s, region, rr.(ledger := m.ledger, lifecycle := RegionLifecycle.Unavailable)),
                         rr.descriptor.provider, Lifecycle.Draining, Lifecycle.Offline), NoError)
  }

  function CancelDrain(s: State, region: RegionId, a: Authority): (step: Step)
    ensures step.state.nextReservation == s.nextReservation
    ensures step.state.workers == s.workers
  {
    var fault := RegionGuard(s, region, a);
    if fault != NoError then Step(s, fault) else
      var rr := s.regions[region];
      if !rr.lifecycle.Draining? then Step(s, InvalidTransition) else
        var m := Transfer(rr.ledger, Bucket.Draining, Free, rr.ledger.draining);
        if !m.ok then Step(WithRegion(s, region, rr.(ledger := m.ledger)), InvalidArgument)
        else Step(WithRegion(s, region, rr.(ledger := m.ledger, lifecycle := RegionLifecycle.Online)), NoError)
  }

  ghost function MarkUnavailable(s: State, region: RegionId, a: Authority): (step: Step)
    ensures step.state.nextReservation == s.nextReservation
    ensures step.state.workers == s.workers
  {
    var fault := RegionGuard(s, region, a);
    if fault != NoError then Step(s, fault) else
      var rr := s.regions[region];
      if !RegionAllowed(rr.lifecycle, RegionLifecycle.Unavailable) then Step(s, InvalidTransition) else
        var m := Transfer(rr.ledger, Free, Bucket.Unavailable, rr.ledger.free);
        var emptied := WithRegion(s, region, rr.(ledger := m.ledger));
        if !m.ok then Step(emptied, InvalidArgument) else
          var t := Withdraw(emptied, OfRegion(s, region), Fencing);
          Step(WithRegion(t, region, t.regions[region].(lifecycle := RegionLifecycle.Unavailable)), NoError)
  }

  function RecoverRegion(s: State, region: RegionId, a: Authority): (step: Step)
    ensures step.state.nextReservation == s.nextReservation
    ensures step.state.workers == s.workers
  {
    var fault := RegionGuard(s, region, a);
    if fault != NoError then Step(s, fault) else
      var rr := s.regions[region];
      if !rr.lifecycle.Unavailable? && !rr.lifecycle.RevalidationRequired? && !rr.lifecycle.Degraded?
      then Step(s, InvalidTransition)
      else
        var m := Transfer(rr.ledger, Bucket.Unavailable, Free, rr.ledger.unavailable);
        Step(WithRegion(s, region, rr.(ledger := m.ledger, lifecycle := RegionLifecycle.Declared,
                                       evidenceStatus := EvidenceStatus.RevalidationRequired)), NoError)
  }

  function RetireRecord(rr: RegionRecord): RegionRecord { rr.(lifecycle := RegionLifecycle.Retired) }

  function RetireBacked(regions: map<RegionId, RegionRecord>, p: ProviderId): map<RegionId, RegionRecord> {
    map rid | rid in regions ::
      if regions[rid].descriptor.provider == p then RetireRecord(regions[rid]) else regions[rid]
  }

  ghost function RetireProvider(s: State, p: ProviderId, a: Authority): (step: Step)
    ensures step.state.nextReservation == s.nextReservation
    ensures step.state.workers == s.workers
  {
    if !Acceptable(s, a) then Step(s, StaleAuthority)
    else if p !in s.providers then Step(s, NotFound)
    else if !ProviderAllowed(s.providers[p].lifecycle, Lifecycle.Retired) then Step(s, InvalidTransition)
    else
      var t := Withdraw(s, OfProvider(s, p), Fencing);
      Step(t.(regions := RetireBacked(t.regions, p),
              providers := t.providers[p := t.providers[p].(lifecycle := Lifecycle.Retired)]), NoError)
  }

  ghost function RetireRegion(s: State, region: RegionId, a: Authority): (step: Step)
    ensures step.state.nextReservation == s.nextReservation
    ensures step.state.workers == s.workers
  {
    var fault := RegionGuard(s, region, a);
    if fault != NoError then Step(s, fault)
    else if !RegionAllowed(s.regions[region].lifecycle, RegionLifecycle.Retired) then Step(s, InvalidTransition)
    else
      var t := Withdraw(s, OfRegion(s, region), Fencing);
      Step(WithRegion(t, region, t.regions[region].(lifecycle := RegionLifecycle.Retired)), NoError)
  }

  // ---- Workers ----

  function RegisterWorker(s: State, w: WorkerId, boot: BootId, epoch: Epoch, pid: U64, a: Authority): (step: Step)
    ensures step.state.nextReservation == s.nextReservation
  {
    if w == NULL || boot == NULL then Step(s, InvalidId)
    else if a.epoch != s.epoch then Step(s, StaleAuthority)
    else if epoch != s.epoch then Step(s, StaleAuthority)
    else if a.worker != NULL && (a.worker != w || a.boot != boot) then Step(s, StaleAuthority)
    else if w in s.workers && s.workers[w].boot == boot then Step(s, AlreadyExists)
    else Step(s.(workers := s.workers[w := WorkerRecord(boot, epoch, pid, true, false)]), NoError)
  }

  /** Regions whose latest evidence came from this incarnation of the worker. */
  function Vouched(s: State, w: WorkerId, boot: BootId): set<RegionId> {
    set rid | rid in s.regions && s.regions[rid].hasEvidence
           && s.regions[rid].latest.header.worker == w && s.regions[rid].latest.header.boot == boot
  }

  function OfWorker(s: State, w: WorkerId, vouched: set<RegionId>): set<ReservationId> {
    set id | id in s.reservations && (s.reservations[id].worker == w || s.reservations[id].region in vouched)
  }

  ghost function MarkWorkerDead(s: State, w: WorkerId, a: Authority): (step: Step)
    ensures step.state.nextReservation == s.nextReservation
  {
    if !Acceptable(s, a) then Step(s, StaleAuthority)
    else if w !in s.workers then Step(s, NotFound)
    else
      var vouched := Vouched(s, w, s.workers[w].boot);
      var t := Withdraw(s, OfWorker(s, w, vouched), Fencing);
      Step(t.(workers := t.workers[w := t.workers[w].(alive := false)],
              regions := SuspendAll(t.regions, vouched)), NoError)
  }

  function NoteWorkerHandle(s: State, w: WorkerId, holds: bool): (t: State)
    ensures t.nextReservation == s.nextReservation
  {
    if w in s.workers then s.(workers := s.workers[w := s.workers[w].(holdsHandle := holds)]) else s
  }

  // ---- Selection, reservation, commit, release ----

  function Select(s: State, req: Request, a: Authority): (step: Step)
    ensures step.state.nextReservation == s.nextReservation
    ensures step.state.workers == s.workers
  {
    if !Acceptable(s, a) then Step(s, StaleAuthority)
    else if req.requiredBytes == 0 then Step(s, InvalidArgument)
    else Step(s.(nextSelection := s.nextSelection + 1), NoError)
  }

  function ReserveFault(s: State, req: Request, a: Authority): ErrorCode {
    if !Acceptable(s, a) then StaleAuthority
    else if req.requiredBytes == 0 then InvalidArgument
    else if req.consumer == NULL then InvalidId
    else if req.consumerGeneration == NULL then InvalidId
    else NoError
  }

  /** The reservation made on a region, bound to every generation it depends on. */
  function Bind(s: State, req: Request, a: Authority, now: U64, rid: RegionId): Reservation
    requires rid in s.regions
  {
    var rr := s.regions[rid];
    var p := rr.descriptor.provider;
    Reservation(
      Mint(s.nextReservation), Mint(s.nextReservation), req.consumer, req.consumerGeneration,
      p, if p in s.providers then s.providers[p].descriptor.generation else NULL,
      rid, rr.descriptor.generation,
      req.preferredPool,
      if req.preferredPool != NULL && req.preferredPool in s.pools then s.pools[req.preferredPool].generation else NULL,
      req.policy, if req.policy != NULL && req.policy in s.policies then s.policies[req.policy].generation else NULL,
      Mint(s.nextSelection), Mint(s.nextSelection),
      if rr.hasEvidence then rr.latest.header.generation else NULL,
      a.worker, a.boot, a.epoch, req.requiredBytes, ReservationState.Reserved, now, 0, [])
  }

  function WithReservation(s: State, r: Reservation, id: ReservationId, rr: RegionRecord): State {
    s.(regions := s.regions[r.region := rr], reservations := s.reservations[id := r])
  }

  /** Reserve on the region at the head of the ranking. */
  function ReserveOn(s: State, req: Request, a: Authority, now: U64, rid: RegionId): (step: Step)
    requires rid in s.regions
    ensures s.nextReservation <= step.state.nextReservation <= s.nextReservation + 1
    ensures step.state.workers == s.workers
  {
    var rr := s.regions[rid];
    var counted := s.nextSelection + 1;
    var m := Transfer(rr.ledger, Free, Bucket.Reserved, req.requiredBytes);
    if !m.ok then Step(WithRegion(s, rid, rr.(ledger := m.ledger)).(nextSelection := counted), CapacityInsufficient) else
      var r := Bind(s, req, a, now, rid);
      Step(WithReservation(s, r, r.id, rr.(ledger := m.ledger))
             .(nextReservation := s.nextReservation + 1).(nextSelection := counted), NoError)
  }

  ghost function Reserve(s: State, req: Request, a: Authority, now: U64): (step: Step)
    ensures s.nextReservation <= step.state.nextReservation <= s.nextReservation + 1
    ensures step.state.workers == s.workers
  {
    hide ReserveFault, Selection.RankedIds, ReserveOn;
    var fault := ReserveFault(s, req, a);
    if fault != NoError then Step(s, fault) else
      var ids := Selection.RankedIds(s, req);
      if ids == [] then Step(s.(nextSelection := s.nextSelection + 1), CapacityInsufficient)
      else if ids[0] !in s.regions then Step(s.(nextSelection := s.nextSelection + 1), NotFound)
      else ReserveOn(s, req, a, now, ids[0])
  }

  /** Every generation the reservation was bound to is the current one of structure that still exists. */
  predicate GenerationsCurrent(s: State, r: Reservation) {
    && r.region in s.regions && s.regions[r.region].descriptor.generation == r.regionGeneration
    && r.provider in s.providers && s.providers[r.provider].descriptor.generation == r.providerGeneration
    && (r.policy != NULL ==> r.policy in s.policies && s.policies[r.policy].generation == r.policyGeneration)
    && (r.pool != NULL ==> r.pool in s.pools && s.pools[r.pool].generation == r.poolGeneration)
  }

  /** What commit reports of a reservation's bindings: generations first, then the epoch. */
  function BindingFault(s: State, r: Reservation): ErrorCode {
    if !GenerationsCurrent(s, r) then WrongGeneration else if r.epoch != s.epoch then WrongEpoch else NoError
  }

  function HolderFault(s: State, r: Reservation, a: Authority): ErrorCode {
    if r.worker != NULL then
      if r.worker !in s.workers || !s.workers[r.worker].alive || s.workers[r.worker].boot != r.boot then StaleAuthority
      else if a.worker != r.worker || a.boot != r.boot then StaleAuthority
      else NoError
    else if a.worker != NULL then StaleAuthority
    else NoError
  }

  function FreshnessFault(s: State, r: Reservation): ErrorCode
    requires r.region in s.regions
  {
    var rr := s.regions[r.region];
    if r.consumerGeneration != NULL && r.consumer in s.consumers && s.consumers[r.consumer] != r.consumerGeneration
      then WrongGeneration
    else if !rr.evidenceStatus.Current? || (rr.hasEvidence && rr.latest.header.generation != r.evidenceGeneration)
      then StaleEvidence
    else if rr.lifecycle.Draining? || rr.lifecycle.Unavailable? || rr.lifecycle.RevalidationRequired? || rr.lifecycle.Retired?
      then NeedsRevalidation
    else NoError
  }

  function Commit(s: State, id: ReservationId, a: Authority): (step: Step)
    ensures step.state.nextReservation == s.nextReservation
    ensures step.state.workers == s.workers
  {
    if !Acceptable(s, a) then Step(s, StaleAuthority)
    else if id !in s.reservations then Step(s, NotFound)
    else
      var r := s.reservations[id];
      if !r.state.Reserved? then Step(s, InvalidTransition)
      else if BindingFault(s, r) != NoError then Step(s, BindingFault(s, r))
      else if HolderFault(s, r, a) != NoError then Step(s, HolderFault(s, r, a))
      else if FreshnessFault(s, r) != NoError then Step(s, FreshnessFault(s, r))
      else
        var rr := s.regions[r.region];
        if rr.ledger.reserved < r.bytes then Step(s, CapacityInsufficient) else
          var m := Transfer(rr.ledger, Bucket.Reserved, Bucket.Committed, r.bytes);
          if !m.ok then Step(WithRegion(s, r.region, rr.(ledger := m.ledger)), Internal)
          else Step(WithReservation(s, r.(state := ReservationState.Committed), id, rr.(ledger := m.ledger)), NoError)
  }

  function Release(s: State, id: ReservationId, a: Authority): (step: Step)
    ensures step.state.nextReservation == s.nextReservation
    ensures step.state.workers == s.workers
  {
    if !Acceptable(s, a) then Step(s, StaleAuthority)
    else if id !in s.reservations then Step(s, NotFound)
    else
      var r := s.reservations[id];
      if !Live(r) then Step(s, InvalidTransition)
      else if r.region !in s.regions then Step(s, WrongGeneration)
      else if s.regions[r.region].descriptor.generation != r.regionGeneration then Step(s, WrongGeneration)
      else if r.epoch != s.epoch then Step(s, WrongEpoch)
      else
        var rr := s.regions[r.region];
        var from := if r.state.Reserved? then Bucket.Reserved else Bucket.Committed;
        var m := Transfer(rr.ledger, from, Free, r.bytes);
        if !m.ok then Step(WithRegion(s, r.region, rr.(ledger := m.ledger)), Internal)
        else Step(WithReservation(s, r.(state := Released), id, rr.(ledger := m.ledger)), NoError)
  }

  // ---- One step of a run ----

  datatype Op =
    | OpSetEpoch(e: Epoch)
    | OpRegisterConsumer(c: ConsumerId, g: Generation, a: Authority)
    | OpRegisterProvider(provider: ProviderDescriptor, a: Authority)
    | OpRegisterDomain(domain: DomainDescriptor, a: Authority)
    | OpRegisterRegion(descriptor: RegionDescriptor, a: Authority)
    | OpRegisterPool(pool: PoolDescriptor, a: Authority)
    | OpRegisterPolicy(policy: PolicyDescriptor, a: Authority)
    | OpAddPoolMember(into: PoolId, member: PoolMember, a: Authority)
    | OpRemovePoolMember(from: PoolId, region: RegionId, a: Authority)
    | OpPublishEvidence(evidence: RegionEvidence, a: Authority)
    | OpPublishAttachment(attachment: AttachmentEvidence, a: Authority)
    | OpBeginDrain(region: RegionId, a: Authority)
    | OpCompleteDrain(region: RegionId, a: Authority)
    | OpCancelDrain(region: RegionId, a: Authority)
    | OpMarkUnavailable(region: RegionId, a: Authority)
    | OpRecoverRegion(region: RegionId, a: Authority)
    | OpRetireProvider(p: ProviderId, a: Authority)
    | OpRetireRegion(region: RegionId, a: Authority)
    | OpRegisterWorker(w: WorkerId, boot: BootId, epoch: Epoch, pid: U64, a: Authority)
    | OpMarkWorkerDead(w: WorkerId, a: Authority)
    | OpNoteWorkerHandle(w: WorkerId, holds: bool)
    | OpSelect(req: Request, a: Authority)
    | OpReserve(req: Request, a: Authority, now: U64)
    | OpCommit(id: ReservationId, a: Authority)
    | OpRelease(id: ReservationId, a: Authority)

  predicate TouchesWorkers(op: Op) {
    op.OpSetEpoch? || op.OpRegisterWorker? || op.OpMarkWorkerDead? || op.OpNoteWorkerHandle?
  }

  ghost function Apply(s: State, op: Op): (step: Step)
    ensures !TouchesWorkers(op) ==> step.state.workers == s.workers
  {
    hide SetEpoch, RegisterConsumer, RegisterProvider, RegisterDomain, RegisterRegion, RegisterPool, RegisterPolicy;
    hide AddPoolMember, RemovePoolMember, PublishEvidence, PublishAttachment, BeginDrain, CompleteDrain, CancelDrain;
    hide MarkUnavailable, RecoverRegion, RetireProvider, RetireRegion, RegisterWorker, MarkWorkerDead, NoteWorkerHandle;
    hide Select, Reserve, Commit, Release;
    match op
    case OpSetEpoch(e) => Step(SetEpoch(s, e), NoError)
    case OpRegisterConsumer(c, g, a) => RegisterConsumer(s, c, g, a)
    case OpRegisterProvider(d, a) => RegisterProvider(s, d, a)
    case OpRegisterDomain(d, a) => RegisterDomain(s, d, a)
    case OpRegisterRegion(d, a) => RegisterRegion(s, d, a)
    case OpRegisterPool(d, a) => RegisterPool(s, d, a)
    case OpRegisterPolicy(d, a) => RegisterPolicy(s, d, a)
    case OpAddPoolMember(pool, m, a) => AddPoolMember(s, pool, m, a)
    case OpRemovePoolMember(pool, region, a) => RemovePoolMember(s, pool, region, a)
    case OpPublishEvidence(e, a) => PublishEvidence(s, e, a)
    case OpPublishAttachment(e, a) => PublishAttachment(s, e, a)
    case OpBeginDrain(region, a) => BeginDrain(s, region, a)
    case OpCompleteDrain(region, a) => CompleteDrain(s, region, a)
    case OpCancelDrain(region, a) => CancelDrain(s, region, a)
    case OpMarkUnavailable(region, a) => MarkUnavailable(s, region, a)
    case OpRecoverRegion(region, a) => RecoverRegion(s, region, a)
    case OpRetireProvider(p, a) => RetireProvider(s, p, a)
    case OpRetireRegion(region, a) => RetireRegion(s, region, a)
    case OpRegisterWorker(w, boot, epoch, pid, a) => RegisterWorker(s, w, boot, epoch, pid, a)
    case OpMarkWorkerDead(w, a) => MarkWorkerDead(s, w, a)
    case OpNoteWorkerHandle(w, holds) => Step(NoteWorkerHandle(s, w, holds), NoError)
    case OpSelect(req, a) => Select(s, req, a)
    case OpReserve(req, a, now) => Reserve(s, req, a, now)
    case OpCommit(id, a) => Commit(s, id, a)
    case OpRelease(id, a) => Release(s, id, a)
  }

  ghost function Run(s: State, ops: seq<Op>): State
    decreases |ops|
  {
    if ops == [] then s else Run(Apply(s, ops[0]).state, ops[1..])
  }
}
