/** Offload eligibility and ranking: evaluate_offload of src/eligibility.cpp, with exact scores. */
module Eligibility {
  import opened Base
  import opened Resource
  import opened Records
  import Headroom

  datatype RejectionReason =
    | DEVICE_NOT_READY | DEVICE_DRAINING | DEVICE_FAILED | DEVICE_EVIDENCE_STALE | DEVICE_HEALTH_THRESHOLD
    | REQUIRED_CAPABILITY_UNSUPPORTED | REQUIRED_CAPABILITY_UNKNOWN | REQUIRED_CAPABILITY_STALE
    | CAPABILITY_VERSION_MISMATCH | FIRMWARE_INCOMPATIBLE | RUNTIME_INCOMPATIBLE | ARTIFACT_INCOMPATIBLE
    | ARCHITECTURE_INCOMPATIBLE | ABI_INCOMPATIBLE | ISOLATION_DOMAIN_MISMATCH | TENANT_MISMATCH
    | ISOLATION_UNPROVEN | PORT_MISMATCH | FUNCTION_MISMATCH | DEVICE_CLASS_MISMATCH | RESOURCE_INSUFFICIENT
    | QUEUE_PRESSURE_HIGH | HEADROOM_LOW | DEPENDENCY_UNAVAILABLE | SECURITY_MODE_INCOMPATIBLE
    | LOCALITY_INSUFFICIENT | PINNED_DEVICE_MISMATCH | PROGRAM_GENERATION_STALE | OFFLOAD_REQUIRED_UNAVAILABLE

  datatype ExecutionClass = DpuOffload | SmartNicOffload | InfraProcessorOffload | HostFallback | UnsupportedExecution

  datatype FactorScore = FactorScore(factor: byte, normalized: real, weighted: real)

  datatype CandidateReport = CandidateReport(
    device: u64, passedHard: bool, rejected: seq<RejectionReason>, scores: seq<FactorScore>, total: real)

  datatype EligibilityResult = EligibilityResult(
    mode: OffloadMode, execution: ExecutionClass, selected: Option<u64>, hardPass: bool, fallbackUsed: bool,
    globalRejections: seq<RejectionReason>, candidates: seq<CandidateReport>)

  // ---- calculations on one device ----

  function HealthSeverity(h: byte): int {
    if h == HEALTHY then 1
    else if h == HEALTH_WARN then 2
    else if h == HEALTH_DEGRADED then 3
    else if h == HEALTH_FAILED then 4
    else 5
  }

  function LocalityValue(q: byte): real {
    if q == SAME_DEVICE then 1.0
    else if q == SAME_FUNCTION then 0.9
    else if q == SAME_NIC then 0.8
    else if q == SAME_ROOT then 0.6
    else if q == REMOTE then 0.3
    else 0.2
  }

  /** How full one counter is; an unbounded one scores `unbounded`. */
  function Fullness(used: u64, cap: u64, unbounded: real): real {
    if cap == 0 then unbounded
    else if used >= cap then 1.0
    else used as real / cap as real
  }

  function QueuePressure(d: DeviceRecord, u: Resources): real {
    Fullness(u.queues, d.capacity.resources.queues, 0.0)
  }

  function DeviceLoad(d: DeviceRecord, u: Resources): real {
    Fullness(u.slots, d.capacity.resources.slots, 0.5)
  }

  // ---- what the request resolves to in a snapshot ----

  function ServiceOf(snap: Snapshot, req: OffloadRequest): Option<ServiceDefinition> {
    if req.service.Some? && req.service.value in snap.services then Some(snap.services[req.service.value]) else None
  }

  function WantedProgram(snap: Snapshot, req: OffloadRequest): Option<u64> {
    var svc := ServiceOf(snap, req);
    if svc.Some? && svc.value.requiredProgram != 0 then Some(svc.value.requiredProgram) else req.requiredProgram
  }

  function CurrentProgram(snap: Snapshot, req: OffloadRequest): Option<ProgramArtifact> {
    var wanted := WantedProgram(snap, req);
    if wanted.None? || wanted.value !in snap.programs then None
    else
      var gens, cur := snap.programs[wanted.value], CurrentGenIn(snap.currentProgramGen, wanted.value);
      if cur in gens then Some(gens[cur]) else None
  }

  function RequiredCaps(snap: Snapshot, req: OffloadRequest): seq<CapabilityRequirement> {
    var svc, prog := ServiceOf(snap, req), CurrentProgram(snap, req);
    req.requiredCaps
    + (if svc.Some? then svc.value.requiredCaps + svc.value.optionalCaps else [])
    + (if prog.Some? then prog.value.requiredCaps else [])
  }

  function UsageOf(snap: Snapshot, did: u64): Resources {
    if did in snap.usage then snap.usage[did] else NOTHING
  }

  // ---- hard constraints ----

  const ANY_ARCHITECTURE: Str := [97, 110, 121] // "any"

  function When(b: bool, r: RejectionReason): seq<RejectionReason> {
    if b then [r] else []
  }

  function Placement(did: u64, d: DeviceRecord, req: OffloadRequest): seq<RejectionReason> {
    When(req.requiredDeviceClass.Some? && req.requiredDeviceClass.value != d.identity.deviceClass, DEVICE_CLASS_MISMATCH)
    + When(req.pinnedDevice.Some? && req.pinnedDevice.value != did, PINNED_DEVICE_MISMATCH)
  }

  function Readiness(d: DeviceRecord, minHealth: byte): seq<RejectionReason> {
    var lifecycle := d.status.lifecycle;
    (if lifecycle == DeviceLifecycle.Draining then [DEVICE_DRAINING]
     else if lifecycle == DeviceLifecycle.Failed then [DEVICE_FAILED]
     else if lifecycle == DeviceLifecycle.RevalidationRequired || !d.status.evidenceFresh then [DEVICE_EVIDENCE_STALE]
     else When(lifecycle != DeviceLifecycle.Ready, RejectionReason.DEVICE_NOT_READY))
    + When(lifecycle == DeviceLifecycle.Ready && HealthSeverity(d.status.health) > HealthSeverity(minHealth),
           DEVICE_HEALTH_THRESHOLD)
  }

  function ClassSupport(d: DeviceRecord, req: OffloadRequest): seq<RejectionReason> {
    When(req.offloadClass != CUSTOM_INFRASTRUCTURE_SERVICE && req.offloadClass !in d.features.offloadClasses,
         REQUIRED_CAPABILITY_UNSUPPORTED)
  }

  function ProgramFit(snap: Snapshot, d: DeviceRecord, req: OffloadRequest): seq<RejectionReason> {
    var wanted := WantedProgram(snap, req);
    if wanted.None? then []
    else
      var prog := CurrentProgram(snap, req);
      if prog.None? then [ARTIFACT_INCOMPATIBLE]
      else if prog.value.programGen != CurrentGenIn(snap.currentProgramGen, wanted.value) then [PROGRAM_GENERATION_STALE]
      else
        var p := prog.value;
        When(d.software.architecture != [] && p.targetArchitecture != [] &&
             d.software.architecture != p.targetArchitecture && p.targetArchitecture != ANY_ARCHITECTURE,
             ARCHITECTURE_INCOMPATIBLE)
        + When(req.requiredAbi != [] && p.runtimeAbi != [] && p.runtimeAbi != req.requiredAbi, ABI_INCOMPATIBLE)
  }

  function Max(a: int, b: int): int {
    if a < b then b else a
  }

  function SoftwareFloors(snap: Snapshot, d: DeviceRecord, req: OffloadRequest): seq<RejectionReason> {
    var svc, prog := ServiceOf(snap, req), CurrentProgram(snap, req);
    var firmware := Max(if svc.Some? then svc.value.minFirmwareGen else 0,
                        if prog.Some? then prog.value.minFirmwareGen else 0);
    When(d.software.firmwareGen < firmware, FIRMWARE_INCOMPATIBLE)
    + When(svc.Some? && d.software.runtimeGen < svc.value.minRuntimeGen, RUNTIME_INCOMPATIBLE)
  }

  function CapabilityCheck(caps: map<Str, Capability>, c: CapabilityRequirement): seq<RejectionReason> {
    if c.isOptional then []
    else
      match CapabilityStateOf(caps, c.key)
      case Supported => When(caps[c.key].version < c.minVersion, CAPABILITY_VERSION_MISMATCH)
      case Unknown => [REQUIRED_CAPABILITY_UNKNOWN]
      case NeedsRevalidation => [REQUIRED_CAPABILITY_STALE]
      case Unsupported => [REQUIRED_CAPABILITY_UNSUPPORTED]
  }

  function CapabilityChecks(caps: map<Str, Capability>, reqs: seq<CapabilityRequirement>): seq<RejectionReason> {
    if reqs == [] then []
    else CapabilityChecks(caps, reqs[..|reqs| - 1]) + CapabilityCheck(caps, reqs[|reqs| - 1])
  }

  function PolicyCheck(caps: map<Str, Capability>, c: CapabilityRequirement): seq<RejectionReason> {
    When(CapabilityStateOf(caps, c.key) != CapabilityState.Supported, REQUIRED_CAPABILITY_UNSUPPORTED)
  }

  function PolicyChecks(caps: map<Str, Capability>, reqs: seq<CapabilityRequirement>): seq<RejectionReason> {
    if reqs == [] then []
    else PolicyChecks(caps, reqs[..|reqs| - 1]) + PolicyCheck(caps, reqs[|reqs| - 1])
  }

  predicate IsolationProven(d: DeviceRecord) {
    d.isolation.hardwareIsolation && d.isolation.isolationProven && d.status.evidenceFresh
  }

  function IsolationFit(snap: Snapshot, d: DeviceRecord, req: OffloadRequest): seq<RejectionReason> {
    var svc := ServiceOf(snap, req);
    var spec := if svc.Some? then svc.value.isolation else req.isolation;
    var domain, tenant := d.isolation.isolationDomain, d.isolation.tenant;
    When(spec.level != ISOLATION_NONE && !spec.SatisfiedBy(IsolationProven(d), domain, tenant), ISOLATION_UNPROVEN)
    + When(req.isolationDomain != 0 && domain != 0 && req.isolationDomain != domain, ISOLATION_DOMAIN_MISMATCH)
    + When(req.tenant != 0 && tenant != 0 && req.tenant != tenant, TENANT_MISMATCH)
  }

  function AttachmentFit(d: DeviceRecord, req: OffloadRequest): seq<RejectionReason> {
    When(req.requiredPort.Some? && req.requiredPort.value !in d.features.ports, PORT_MISMATCH)
    + When(req.requiredFunction.Some? && req.requiredFunction.value !in d.features.functions, FUNCTION_MISMATCH)
  }

  function LoadLimits(policy: Policy, d: DeviceRecord, u: Resources): seq<RejectionReason> {
    When(Headroom.HeadroomPct(d.capacity.resources, u) < policy.minHeadroom as real, HEADROOM_LOW)
    + When(QueuePressure(d, u) * 100.0 > policy.maxQueuePressure as real, QUEUE_PRESSURE_HIGH)
  }

  function SecurityAndLocality(d: DeviceRecord, req: OffloadRequest): seq<RejectionReason> {
    When((req.security == SECURE || req.security == ISOLATED) && !IsolationProven(d), SECURITY_MODE_INCOMPATIBLE)
    + When(req.minLocality != LOCALITY_UNKNOWN && LocalityValue(d.status.locality) < LocalityValue(req.minLocality),
           LOCALITY_INSUFFICIENT)
  }

  predicate DependencyMissing(snap: Snapshot, req: OffloadRequest) {
    var svc := ServiceOf(snap, req);
    svc.Some? && exists i :: 0 <= i < |svc.value.dependencies| && svc.value.dependencies[i] !in snap.services
  }

  function ResourcesFor(snap: Snapshot, req: OffloadRequest): Resources {
    var svc := ServiceOf(snap, req);
    if svc.Some? then svc.value.resource else req.resource
  }

  function Availability(snap: Snapshot, d: DeviceRecord, u: Resources, req: OffloadRequest): seq<RejectionReason> {
    When(DependencyMissing(snap, req), DEPENDENCY_UNAVAILABLE)
    + When(!Admits(d.capacity.resources, u, ResourcesFor(snap, req)), RESOURCE_INSUFFICIENT)
  }

  /** Every reason for which device did is rejected, in the order they are found. */
  function Rejections(snap: Snapshot, req: OffloadRequest, did: u64): seq<RejectionReason>
    requires did in snap.devices
  {
    var d, u := snap.devices[did], UsageOf(snap, did);
    Placement(did, d, req) + Readiness(d, snap.policy.minDeviceHealth) + ClassSupport(d, req)
    + ProgramFit(snap, d, req) + SoftwareFloors(snap, d, req)
    + CapabilityChecks(d.features.capabilities, RequiredCaps(snap, req))
    + PolicyChecks(d.features.capabilities, snap.policy.hardCaps)
    + IsolationFit(snap, d, req) + AttachmentFit(d, req) + LoadLimits(snap.policy, d, u)
    + SecurityAndLocality(d, req) + Availability(snap, d, u, req)
  }

  predicate Passes(snap: Snapshot, req: OffloadRequest, did: u64) {
    did in snap.devices && Rejections(snap, req, did) == []
  }

  // ---- ranking ----

  predicate WarmOn(d: Deployment, did: u64, svc: Option<ServiceDefinition>) {
    d.binding.device == did && (svc.None? || d.binding.service == svc.value.serviceId) && d.state == DeploymentState.Active
  }

  predicate Warm(snap: Snapshot, req: OffloadRequest, did: u64) {
    exists k :: k in snap.deployments && WarmOn(snap.deployments[k], did, ServiceOf(snap, req))
  }

  function Score(policy: Policy, factor: byte, normalized: real): FactorScore {
    FactorScore(factor, normalized, normalized * policy.WeightOf(factor) as real)
  }

  function Scores(snap: Snapshot, req: OffloadRequest, did: u64): seq<FactorScore>
    requires did in snap.devices
  {
    var d, u, p := snap.devices[did], UsageOf(snap, did), snap.policy;
    var warm := Warm(snap, req, did);
    [Score(p, WARM_SERVICE, if warm then 1.0 else 0.0),
     Score(p, LOCALITY, LocalityValue(d.status.locality)),
     Score(p, HEADROOM, Headroom.HeadroomPct(d.capacity.resources, u) / 100.0),
     Score(p, QUEUE_PRESSURE, 1.0 - QueuePressure(d, u)),
     Score(p, DEVICE_LOAD, 1.0 - DeviceLoad(d, u)),
     Score(p, STATE_TRANSFER, if warm then 1.0 else 0.4),
     Score(p, HOST_CPU_SAVINGS, if req.offloadClass == ENCRYPTION || req.offloadClass == COMPRESSION then 0.8 else 0.5),
     Score(p, OFFLOAD_VALUE, if warm then 0.7 else 0.5),
     Score(p, FAILURE_RISK, HealthSeverity(d.status.health) as real / 5.0),
     Score(p, ENERGY, 0.5),
     Score(p, POLICY_PREFERENCE, if did in p.preferredDevices then 1.0 else 0.0),
     Score(p, TIEBREAK_ID, 0.0)]
  }

  function Total(scores: seq<FactorScore>): real {
    if scores == [] then 0.0 else Total(scores[..|scores| - 1]) + scores[|scores| - 1].weighted
  }

  function TotalOf(snap: Snapshot, req: OffloadRequest, did: u64): real
    requires did in snap.devices
  {
    Total(Scores(snap, req, did))
  }

  function Report(snap: Snapshot, req: OffloadRequest, did: u64): CandidateReport
    requires did in snap.devices
  {
    var rejected := Rejections(snap, req, did);
    if rejected == [] then CandidateReport(did, true, [], Scores(snap, req, did), TotalOf(snap, req, did))
    else CandidateReport(did, false, rejected, [], 0.0)
  }

  /** Position of a device in the registration order. */
  function IndexIn(order: seq<u64>, did: u64): (i: nat)
    ensures i <= |order|
    ensures i < |order| ==> order[i] == did
    ensures did in order <==> i < |order|
    ensures did !in order[..i]
  {
    if order == [] then 0 else if order[0] == did then 0 else 1 + IndexIn(order[1..], did)
  }

  /** The comparator of the ranking sort. */
  predicate Precedes(order: seq<u64>, a: CandidateReport, b: CandidateReport) {
    if a.total != b.total then a.total > b.total else IndexIn(order, a.device) < IndexIn(order, b.device)
  }

  /** The device that ranking must select: it passes every hard constraint, no passing device scores
      more, and among those that score the same it is the first registered. */
  ghost predicate IsSelected(snap: Snapshot, req: OffloadRequest, did: u64) {
    && did in snap.deviceOrder
    && Passes(snap, req, did)
    && forall e :: e in snap.deviceOrder && Passes(snap, req, e) ==>
         TotalOf(snap, req, e) < TotalOf(snap, req, did)
         || (TotalOf(snap, req, e) == TotalOf(snap, req, did)
             && IndexIn(snap.deviceOrder, did) <= IndexIn(snap.deviceOrder, e))
  }

  ghost predicate NothingSelected(snap: Snapshot, req: OffloadRequest) {
    forall e :: e in snap.deviceOrder ==> !Passes(snap, req, e)
  }

  /** A snapshot and a request determine the selection. */
  lemma SelectionUnique(snap: Snapshot, req: OffloadRequest, a: u64, b: u64)
    requires IsSelected(snap, req, a) && IsSelected(snap, req, b)
    ensures a == b
  {
    hide Passes, TotalOf;
  }

  /** Only a ready device with fresh evidence and room for the request passes. */
  lemma PassingMeans(snap: Snapshot, req: OffloadRequest, did: u64)
    requires Passes(snap, req, did)
    ensures snap.devices[did].ReadyForOffload()
    ensures Admits(snap.devices[did].capacity.resources, UsageOf(snap, did), ResourcesFor(snap, req))
  {
    hide Placement, ClassSupport, ProgramFit, SoftwareFloors, CapabilityChecks, PolicyChecks, IsolationFit,
         AttachmentFit, LoadLimits, SecurityAndLocality, Admits, DependencyMissing, ResourcesFor, RequiredCaps, UsageOf;
    var d, u := snap.devices[did], UsageOf(snap, did);
    assert Readiness(d, snap.policy.minDeviceHealth) == [];
    assert Availability(snap, d, u, req) == [];
  }

  // ---- what passing means, without the reports ----

  predicate Has(caps: map<Str, Capability>, c: CapabilityRequirement) {
    c.key in caps && caps[c.key].state == CapabilityState.Supported && caps[c.key].version >= c.minVersion
  }

  /** Codes from 1 to last, in which smaller is better and every other code is as bad as the last. */
  predicate NoWorse(code: byte, limit: byte, last: byte) {
    !(1 <= limit < last) || 1 <= code <= limit
  }

  lemma HealthExactly(h: byte, limit: byte)
    ensures HealthSeverity(h) <= HealthSeverity(limit) <==> NoWorse(h, limit, HEALTH_UNKNOWN)
  {
  }

  lemma LocalityExactly(q: byte, limit: byte)
    ensures LocalityValue(q) >= LocalityValue(limit) <==> NoWorse(q, limit, LOCALITY_UNKNOWN)
  {
  }

  /** No more than max percent of the queues are in use. */
  predicate QueuesWithin(cap: Resources, used: Resources, max: nat) {
    cap.queues == 0 || (cap.queues - Headroom.Free(used.queues, cap.queues)) * 100 <= max * cap.queues
  }

  lemma PressureExactly(d: DeviceRecord, u: Resources, max: nat)
    ensures QueuePressure(d, u) * 100.0 <= max as real <==> QueuesWithin(d.capacity.resources, u, max)
  {
    var used: int, cap: int := u.queues, d.capacity.resources.queues;
    if cap != 0 {
      var taken := if used < cap then used else cap;
      OverOrNot(taken as real / cap as real, taken, cap, max);
      hide Fullness;
      FullnessIs(u.queues, d.capacity.resources.queues);
    }
  }

  lemma FullnessIs(used: u64, cap: u64)
    requires cap != 0
    ensures Fullness(used, cap, 0.0) == (if used < cap then used else cap) as real / cap as real
  {
    assert cap as real / cap as real == 1.0;
  }

  lemma OverOrNot(x: real, taken: int, c: int, m: int)
    requires c > 0 && x == taken as real / c as real
    ensures x * 100.0 <= m as real <==> taken * 100 <= m * c
  {
    var y, z := x * 100.0, c as real;
    assert x * z == taken as real;
    assert y * z == (taken * 100) as real by {
      assert y * z == x * z * 100.0;
    }
    assert (m * c) as real == m as real * z;
    Headroom.ScaleLess(m as real, y, z);
    Headroom.ScaleLess(y, m as real, z);
  }

  /** At least m percent of every bounded dimension is left. */
  ghost predicate LeavesHeadroom(cap: Resources, used: Resources, m: nat) {
    m <= 100 && forall d: Dimension :: cap.At(d) == 0 || Headroom.Free(used.At(d), cap.At(d)) * 100 >= m * cap.At(d)
  }

  /** Both sides name one, and not the same one. */
  predicate Clashes(asked: u64, has: u64) {
    asked != 0 && has != 0 && asked != has
  }

  /** The device has what the request asks of its kind, place and attachments. */
  predicate SuitsPlacement(did: u64, d: DeviceRecord, req: OffloadRequest) {
    && (req.requiredDeviceClass.Some? ==> d.identity.deviceClass == req.requiredDeviceClass.value)
    && (req.pinnedDevice.Some? ==> did == req.pinnedDevice.value)
    && (req.offloadClass == CUSTOM_INFRASTRUCTURE_SERVICE || req.offloadClass in d.features.offloadClasses)
    && (req.requiredPort.Some? ==> req.requiredPort.value in d.features.ports)
    && (req.requiredFunction.Some? ==> req.requiredFunction.value in d.features.functions)
    && (req.minLocality == LOCALITY_UNKNOWN || NoWorse(d.status.locality, req.minLocality, LOCALITY_UNKNOWN))
  }

  /** The wanted program exists in its current generation and runs on the device's firmware and runtime. */
  predicate SuitsSoftware(snap: Snapshot, d: DeviceRecord, req: OffloadRequest) {
    var svc, wanted, prog := ServiceOf(snap, req), WantedProgram(snap, req), CurrentProgram(snap, req);
    && (wanted.Some? ==>
          && prog.Some? && prog.value.programGen == CurrentGenIn(snap.currentProgramGen, wanted.value)
          && (d.software.architecture == [] || prog.value.targetArchitecture == []
              || prog.value.targetArchitecture == ANY_ARCHITECTURE || d.software.architecture == prog.value.targetArchitecture)
          && (req.requiredAbi == [] || prog.value.runtimeAbi == [] || prog.value.runtimeAbi == req.requiredAbi))
    && (svc.Some? ==> svc.value.minFirmwareGen <= d.software.firmwareGen && svc.value.minRuntimeGen <= d.software.runtimeGen)
    && (prog.Some? ==> prog.value.minFirmwareGen <= d.software.firmwareGen)
  }

  /** What a level of isolation asks of a device: no other tenant on a dedicated device, and on every other level
      but NONE proven isolation, with a verified mode for a security domain, and with domains and tenants that
      agree for the rest. */
  predicate Isolates(spec: IsolationSpec, d: DeviceRecord) {
    var level, iso := spec.level, d.isolation;
    var proven := iso.hardwareIsolation && iso.isolationProven && d.status.evidenceFresh;
    && (level == ISOLATION_DEDICATED_DEVICE ==> iso.tenant == 0 || iso.tenant == spec.tenant)
    && (level != ISOLATION_NONE && level != ISOLATION_DEDICATED_DEVICE ==> proven)
    && (level == ISOLATION_SECURITY_DOMAIN ==> spec.security == SECURE || spec.security == ISOLATED)
    && (level != ISOLATION_NONE && level != ISOLATION_DEDICATED_DEVICE && level != ISOLATION_SECURITY_DOMAIN ==>
          !Clashes(spec.isolationDomain, iso.isolationDomain) && !Clashes(spec.tenant, iso.tenant))
  }

  /** Isolation, tenancy and security are compatible. */
  predicate SuitsIsolation(snap: Snapshot, d: DeviceRecord, req: OffloadRequest) {
    var svc := ServiceOf(snap, req);
    && Isolates(if svc.Some? then svc.value.isolation else req.isolation, d)
    && !Clashes(req.isolationDomain, d.isolation.isolationDomain) && !Clashes(req.tenant, d.isolation.tenant)
    && (req.security == SECURE || req.security == ISOLATED ==>
          d.isolation.hardwareIsolation && d.isolation.isolationProven && d.status.evidenceFresh)
  }

  lemma IsolatesExactly(spec: IsolationSpec, d: DeviceRecord)
    ensures spec.level == ISOLATION_NONE || spec.SatisfiedBy(IsolationProven(d), d.isolation.isolationDomain, d.isolation.tenant)
            <==> Isolates(spec, d)
  {
  }

  /** The device is ready, healthy, within the policy's limits and has room, and nothing it depends on is missing. */
  ghost predicate SuitsLoad(snap: Snapshot, d: DeviceRecord, u: Resources, req: OffloadRequest) {
    && d.status.lifecycle == DeviceLifecycle.Ready && d.status.evidenceFresh
    && NoWorse(d.status.health, snap.policy.minDeviceHealth, HEALTH_UNKNOWN)
    && LeavesHeadroom(d.capacity.resources, u, snap.policy.minHeadroom)
    && QueuesWithin(d.capacity.resources, u, snap.policy.maxQueuePressure)
    && !DependencyMissing(snap, req) && Admits(d.capacity.resources, u, ResourcesFor(snap, req))
  }

  /** Every hard capability is supported, in the version asked for. */
  ghost predicate SuitsCapabilities(snap: Snapshot, d: DeviceRecord, req: OffloadRequest) {
    var caps, reqs, hard := d.features.capabilities, RequiredCaps(snap, req), snap.policy.hardCaps;
    && (forall i :: 0 <= i < |reqs| && !reqs[i].isOptional ==> Has(caps, reqs[i]))
    && (forall i :: 0 <= i < |hard| ==> hard[i].key in caps && caps[hard[i].key].state.Supported?)
  }

  lemma {:induction false} CapabilitiesPass(caps: map<Str, Capability>, reqs: seq<CapabilityRequirement>)
    ensures CapabilityChecks(caps, reqs) == [] <==> forall i :: 0 <= i < |reqs| && !reqs[i].isOptional ==> Has(caps, reqs[i])
    decreases |reqs|
  {
    if reqs != [] {
      var most, last := reqs[..|reqs| - 1], reqs[|reqs| - 1];
      CapabilitiesPass(caps, most);
      assert CapabilityCheck(caps, last) == [] <==> last.isOptional || Has(caps, last);
      assert forall i :: 0 <= i < |most| ==> most[i] == reqs[i];
      hide CapabilityCheck, Has;
    }
  }

  lemma {:induction false} PoliciesPass(caps: map<Str, Capability>, reqs: seq<CapabilityRequirement>)
    ensures PolicyChecks(caps, reqs) == [] <==>
            forall i :: 0 <= i < |reqs| ==> reqs[i].key in caps && caps[reqs[i].key].state.Supported?
    decreases |reqs|
  {
    if reqs != [] {
      var most := reqs[..|reqs| - 1];
      PoliciesPass(caps, most);
      assert forall i :: 0 <= i < |most| ==> most[i] == reqs[i];
    }
  }

  lemma PlacementPasses(did: u64, d: DeviceRecord, req: OffloadRequest, snap: Snapshot)
    ensures Placement(did, d, req) == [] && ClassSupport(d, req) == [] && AttachmentFit(d, req) == []
            && IsolationFit(snap, d, req) == [] && SecurityAndLocality(d, req) == []
            <==> SuitsPlacement(did, d, req) && SuitsIsolation(snap, d, req)
  {
    hide IsolationSpec.SatisfiedBy, LocalityValue, ServiceOf, Isolates, NoWorse;
    var svc := ServiceOf(snap, req);
    IsolatesExactly(if svc.Some? then svc.value.isolation else req.isolation, d);
    LocalityExactly(d.status.locality, req.minLocality);
  }

  lemma SoftwarePasses(snap: Snapshot, d: DeviceRecord, req: OffloadRequest)
    ensures ProgramFit(snap, d, req) == [] && SoftwareFloors(snap, d, req) == [] <==> SuitsSoftware(snap, d, req)
  {
    hide ServiceOf, WantedProgram, CurrentProgram, CurrentGenIn;
    NoProgramUnwanted(snap, req);
  }

  lemma NoProgramUnwanted(snap: Snapshot, req: OffloadRequest)
    ensures WantedProgram(snap, req).None? ==> CurrentProgram(snap, req).None?
  {
  }

  lemma LoadPasses(snap: Snapshot, d: DeviceRecord, u: Resources, req: OffloadRequest)
    ensures Readiness(d, snap.policy.minDeviceHealth) == [] && LoadLimits(snap.policy, d, u) == [] && Availability(snap, d, u, req) == []
            <==> SuitsLoad(snap, d, u, req)
  {
    hide HealthSeverity, Headroom.HeadroomPct, QueuePressure, DependencyMissing, Admits, ResourcesFor, NoWorse, QueuesWithin,
         Headroom.Free;
    HealthExactly(d.status.health, snap.policy.minDeviceHealth);
    Headroom.HeadroomAtLeast(d.capacity.resources, u, snap.policy.minHeadroom);
    PressureExactly(d, u, snap.policy.maxQueuePressure);
  }

  /** The hard filter, stated without its reports: a device passes exactly when it suits the request in every respect. */
  lemma PassesExactly(snap: Snapshot, req: OffloadRequest, did: u64)
    requires did in snap.devices
    ensures var d := snap.devices[did];
            Passes(snap, req, did) <==>
            && SuitsPlacement(did, d, req) && SuitsSoftware(snap, d, req) && SuitsIsolation(snap, d, req)
            && SuitsCapabilities(snap, d, req) && SuitsLoad(snap, d, UsageOf(snap, did), req)
  {
    var d, u := snap.devices[did], UsageOf(snap, did);
    hide Placement, Readiness, ClassSupport, ProgramFit, SoftwareFloors, CapabilityChecks, PolicyChecks, IsolationFit,
         AttachmentFit, LoadLimits, SecurityAndLocality, Availability, UsageOf, RequiredCaps, Has, CapabilityStateOf,
         SuitsPlacement, SuitsSoftware, SuitsIsolation, SuitsLoad;
    PlacementPasses(did, d, req, snap);
    SoftwarePasses(snap, d, req);
    LoadPasses(snap, d, u, req);
    CapabilitiesPass(d.features.capabilities, RequiredCaps(snap, req));
    PoliciesPass(d.features.capabilities, snap.policy.hardCaps);
  }

  // ---- what a request refers to ----

  /** A named service counts only if it is registered; its program takes precedence over the one that the request
      names, its resources over those that the request asks for. */
  lemma ServiceFirst(snap: Snapshot, req: OffloadRequest, v: u64)
    requires req.service == Some(v) && v in snap.services
    ensures ServiceOf(snap, req) == Some(snap.services[v])
    ensures ResourcesFor(snap, req) == snap.services[v].resource
    ensures WantedProgram(snap, req) ==
            if snap.services[v].requiredProgram != 0 then Some(snap.services[v].requiredProgram) else req.requiredProgram
  {
  }

  lemma RequestAlone(snap: Snapshot, req: OffloadRequest)
    requires req.service.None? || req.service.value !in snap.services
    ensures ServiceOf(snap, req).None? && ResourcesFor(snap, req) == req.resource
    ensures WantedProgram(snap, req) == req.requiredProgram && !DependencyMissing(snap, req)
  {
  }

  /** The wanted program is taken in its current generation, or not at all. */
  lemma CurrentProgramIs(snap: Snapshot, req: OffloadRequest, art: ProgramArtifact)
    requires 0 !in GenerationsFor(snap, req)
    ensures CurrentProgram(snap, req) == Some(art) <==>
            && WantedProgram(snap, req).Some?
            && var p := WantedProgram(snap, req).value;
               && p in snap.programs && p in snap.currentProgramGen
               && snap.currentProgramGen[p] in snap.programs[p] && snap.programs[p][snap.currentProgramGen[p]] == art
  {
  }

  function GenerationsFor(snap: Snapshot, req: OffloadRequest): set<u64> {
    var wanted := WantedProgram(snap, req);
    if wanted.Some? && wanted.value in snap.programs then snap.programs[wanted.value].Keys else {}
  }

  /** The requirements of the request, the service, optional ones included, and the program, and no others. */
  lemma RequiredCapsAre(snap: Snapshot, req: OffloadRequest, c: CapabilityRequirement)
    ensures var svc, prog := ServiceOf(snap, req), CurrentProgram(snap, req);
            c in RequiredCaps(snap, req) <==>
            c in req.requiredCaps
            || (svc.Some? && (c in svc.value.requiredCaps || c in svc.value.optionalCaps))
            || (prog.Some? && c in prog.value.requiredCaps)
  {
    hide ServiceOf, CurrentProgram;
  }
}
