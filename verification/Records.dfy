/** The coordinator's records: devices, capabilities, services, programs, deployments,
    activations, policy and requests.

    An enumeration whose stored byte is checked when it is read back is a datatype. One that the
    source casts from any byte without a check is that byte, with named constants. Identities of all
    kinds are 64-bit numbers. */
module Records {
  import opened Base
  import opened Resource

  // ---- devices ----

  datatype DeviceLifecycle =
    | Discovered | Available | Provisioning | Ready | Degraded
    | Draining | RevalidationRequired | Failed | Offline | Retired

  datatype DeviceClass = Dpu | SmartNic | InfraProcessor | HostProcessor | NicAdjacent | UnknownDevice

  datatype CapabilityState = Supported | Unsupported | Unknown | NeedsRevalidation

  const HEALTHY: byte := 1
  const HEALTH_WARN: byte := 2
  const HEALTH_DEGRADED: byte := 3
  const HEALTH_FAILED: byte := 4
  const HEALTH_UNKNOWN: byte := 5

  const SAME_DEVICE: byte := 1
  const SAME_FUNCTION: byte := 2
  const SAME_NIC: byte := 3
  const SAME_ROOT: byte := 4
  const REMOTE: byte := 5
  const LOCALITY_UNKNOWN: byte := 6

  const COMPRESSION: byte := 6
  const ENCRYPTION: byte := 8
  const CUSTOM_INFRASTRUCTURE_SERVICE: byte := 16

  const CONFIGURED: byte := 4 // the default provenance of evidence

  datatype Capability = Capability(
    key: Str, state: CapabilityState, evidenceGen: u64, version: u64, minFirmwareGen: u64,
    minRuntimeGen: u64, maxScale: u64, requiresIsolation: bool, source: byte, detail: Str)

  datatype CapabilityRequirement = CapabilityRequirement(key: Str, isOptional: bool, minVersion: u64)

  datatype DeviceIdentity = DeviceIdentity(
    deviceId: u64, generation: u64, bootId: u64, vendor: Str, model: Str, deviceClass: DeviceClass,
    pciReference: Str, parentNicReference: Str, parentFunction: u64)

  datatype DeviceSoftware = DeviceSoftware(
    firmwareVersion: Str, firmwareGen: u64, runtimeVersion: Str, runtimeGen: u64, architecture: Str)

  datatype DeviceCapacity = DeviceCapacity(
    processingUnits: u64, memoryBytes: u64, programmableMemory: u64, resources: Resources)

  datatype DeviceFeatures = DeviceFeatures(
    ports: seq<u64>, functions: seq<u64>, capabilities: map<Str, Capability>, offloadClasses: seq<byte>,
    executionModels: seq<byte>, programFormats: seq<Str>, supportsDma: bool, rdmaAdjacent: bool, hostComm: Str)

  datatype DeviceIsolation = DeviceIsolation(
    hardwareIsolation: bool, isolationDomain: u64, tenant: u64, isolationProven: bool)

  datatype DeviceStatus = DeviceStatus(
    locality: byte, health: byte, lifecycle: DeviceLifecycle, discoverySource: byte, evidenceGen: u64,
    evidenceFresh: bool, discoveryDetail: Str, owningWorker: u64, ownerWorkerBoot: u64)

  /** A device record, its fields grouped in the order in which they are stored. */
  datatype DeviceRecord = DeviceRecord(
    identity: DeviceIdentity, software: DeviceSoftware, capacity: DeviceCapacity,
    features: DeviceFeatures, isolation: DeviceIsolation, status: DeviceStatus)
  {
    predicate ReadyForOffload() {
      status.lifecycle == DeviceLifecycle.Ready && status.evidenceFresh
    }

    function WithStatus(lifecycle: DeviceLifecycle, isFresh: bool): DeviceRecord {
      this.(status := status.(lifecycle := lifecycle, evidenceFresh := isFresh))
    }
  }

  predicate ValidDeviceTransition(from: DeviceLifecycle, to: DeviceLifecycle) {
    match from
    case Discovered => to.Available? || to.Failed? || to.Retired? || to.Offline?
    case Available =>
      to.Provisioning? || to.Ready? || to.RevalidationRequired? || to.Failed? || to.Offline? || to.Retired? || to.Degraded?
    case Provisioning =>
      to.Ready? || to.Available? || to.Failed? || to.Offline? || to.Retired? || to.Degraded?
    case Ready =>
      to.Degraded? || to.Failed? || to.Draining? || to.RevalidationRequired? || to.Offline? || to.Retired?
    case Degraded =>
      to.Ready? || to.Failed? || to.Draining? || to.RevalidationRequired? || to.Offline? || to.Retired?
    case Draining =>
      to.Available? || to.Offline? || to.Retired? || to.Failed? || to.Ready?
    case RevalidationRequired =>
      to.Ready? || to.Available? || to.Failed? || to.Offline? || to.Retired? || to.Degraded?
    case Failed => to.Offline? || to.Retired? || to.Available?
    case Offline => to.Available? || to.Retired? || to.Discovered?
    case Retired => false
  }

  /** CapabilitySet::state_of: absence means unsupported. */
  function CapabilityStateOf(caps: map<Str, Capability>, key: Str): CapabilityState {
    if key in caps then caps[key].state else CapabilityState.Unsupported
  }

  /** CapabilitySet::set_state: only SUPPORTED creates a missing entry. */
  function WithCapabilityState(caps: map<Str, Capability>, key: Str, state: CapabilityState): map<Str, Capability> {
    if key in caps then caps[key := caps[key].(state := state)]
    else if state != CapabilityState.Supported then caps
    else caps[key := Capability(key, state, 0, 0, 0, 0, 0, false, CONFIGURED, [])]
  }

  // ---- services and programs ----

  const ISOLATION_DEDICATED_DEVICE: byte := 1
  const ISOLATION_SECURITY_DOMAIN: byte := 7
  const ISOLATION_NONE: byte := 9

  const SECURE: byte := 1
  const ISOLATED: byte := 2

  datatype IsolationSpec = IsolationSpec(
    level: byte, isolationDomain: u64, tenant: u64, trustDomain: Str, securityDomain: Str, security: byte)
  {
    predicate SatisfiedBy(proven: bool, deviceDomain: u64, deviceTenant: u64) {
      if level == ISOLATION_NONE then true
      else if level == ISOLATION_SECURITY_DOMAIN then
        if security != SECURE && security != ISOLATED then false else proven
      else if level == ISOLATION_DEDICATED_DEVICE then
        deviceTenant == 0 || (tenant != 0 && deviceTenant == tenant)
      else if !proven then false
      else if isolationDomain != 0 && deviceDomain != 0 && deviceDomain != isolationDomain then false
      else if tenant != 0 && deviceTenant != 0 && deviceTenant != tenant then false
      else true
    }
  }

  datatype ServiceDefinition = ServiceDefinition(
    serviceId: u64, serviceGen: u64, offloadClass: byte, requiredCaps: seq<CapabilityRequirement>,
    optionalCaps: seq<CapabilityRequirement>, isolation: IsolationSpec, resource: Resources,
    executionModel: byte, minFirmwareGen: u64, minRuntimeGen: u64, requiredProgram: u64, requiredAbi: Str,
    statefulness: byte, recoverable: bool, allowedFallbackClasses: seq<byte>, failurePolicy: Str,
    dependencies: seq<u64>)

  datatype ProgramArtifact = ProgramArtifact(
    programId: u64, programGen: u64, artifactId: u64, artifactGen: u64, artifactType: byte, version: Str,
    contentHash: seq<byte>, targetArchitecture: Str, runtimeAbi: Str,
    requiredCaps: seq<CapabilityRequirement>, minFirmwareGen: u64, provenance: Str, sizeHint: Str)

  // ---- deployments and activations ----

  datatype DeploymentState =
    | Planned | Reserved | Staging | Loaded | Validating | Activating | Active
    | Degraded | Draining | Failed | Aborted | Retired | RevalidationRequired

  predicate ValidDeploymentTransition(from: DeploymentState, to: DeploymentState) {
    match from
    case Planned => to.Reserved? || to.Aborted? || to.Failed?
    case Reserved =>
      to.Staging? || to.Planned? || to.Aborted? || to.Failed?
    case Staging =>
      to.Loaded? || to.Reserved? || to.Aborted? || to.Failed?
    case Loaded =>
      to.Validating? || to.Staging? || to.Aborted? || to.Failed?
    case Validating =>
      to.Activating? || to.Loaded? || to.Failed? || to.Aborted? || to.RevalidationRequired?
    case Activating =>
      to.Active? || to.Failed? || to.Aborted? || to.RevalidationRequired? || to.Degraded?
    case Active =>
      to.Degraded? || to.Draining? || to.RevalidationRequired? || to.Failed? || to.Retired?
    case Degraded =>
      to.Active? || to.Draining? || to.RevalidationRequired? || to.Failed? || to.Retired?
    case Draining =>
      to.Retired? || to.Active? || to.RevalidationRequired? || to.Failed?
    case Failed =>
      to.Planned? || to.Aborted? || to.Retired? || to.RevalidationRequired?
    case Aborted => to.Planned? || to.Retired?
    case Retired => false
    case RevalidationRequired =>
      to.Validating? || to.Active? || to.Failed? || to.Retired? || to.Draining?
  }

  datatype ActivationState = Pending | Active | Draining | Retired | Stale | Cancelled

  /** The generations, boots and epoch that a deployment is bound to right now. */
  datatype AuthorityContext = AuthorityContext(
    epoch: u64, workerBoot: u64, worker: u64, deviceBoot: u64, deviceGen: u64, serviceGen: u64, programGen: u64,
    deploymentGen: u64, activationGen: u64, policyGen: u64, evidenceGen: u64)

  /** The same components as captured when an activation was committed. */
  datatype ActivationAuthority = ActivationAuthority(
    epoch: u64, worker: u64, workerBoot: u64, device: u64, deviceBoot: u64, deviceGen: u64, serviceGen: u64,
    programGen: u64, deploymentGen: u64, activationGen: u64, policyGen: u64, evidenceGen: u64)
  {
    predicate IsCurrent(cur: AuthorityContext) {
      if epoch != cur.epoch then false
      else if worker != cur.worker then false
      else if workerBoot != cur.workerBoot then false
      else if deviceBoot != cur.deviceBoot then false
      else if deviceGen != cur.deviceGen then false
      else if serviceGen != cur.serviceGen then false
      else if programGen != cur.programGen then false
      else if deploymentGen != cur.deploymentGen then false
      else if activationGen != cur.activationGen then false
      else if policyGen != cur.policyGen then false
      else if evidenceGen != cur.evidenceGen then false
      else true
    }
  }

  const NO_AUTHORITY := ActivationAuthority(0, 0, 0, 0, 0, 0, 0, 0, 0, 0, 0, 0)

  datatype ActivationRecord = ActivationRecord(
    activationId: u64, activationGen: u64, deploymentId: u64, deploymentGen: u64,
    authority: ActivationAuthority, state: ActivationState)

  /** The part of a deployment that is fixed when it is reserved. */
  datatype DeploymentBinding = DeploymentBinding(
    deploymentId: u64, generation: u64, attemptId: u64, service: u64, serviceGen: u64, program: u64,
    programGen: u64, artifact: u64, artifactGen: u64, device: u64, deviceGen: u64, deviceBoot: u64,
    tenant: u64, isolationDomain: u64, resources: Resources)

  datatype Deployment = Deployment(
    binding: DeploymentBinding, state: DeploymentState, activation: Option<u64>, activationGen: u64,
    epoch: u64, workerBoot: u64, evidenceGen: u64, policyGen: u64, authoritative: bool,
    createdMs: u64, updatedMs: u64)

  // ---- policy and requests ----

  const WARM_SERVICE: byte := 1
  const LOCALITY: byte := 2
  const HEADROOM: byte := 3
  const QUEUE_PRESSURE: byte := 4
  const DEVICE_LOAD: byte := 5
  const STATE_TRANSFER: byte := 6
  const HOST_CPU_SAVINGS: byte := 7
  const OFFLOAD_VALUE: byte := 8
  const FAILURE_RISK: byte := 9
  const ENERGY: byte := 10
  const POLICY_PREFERENCE: byte := 11
  const TIEBREAK_ID: byte := 12

  type i64 = x: int | -0x8000_0000_0000_0000 <= x < 0x8000_0000_0000_0000

  datatype RankWeight = RankWeight(factor: byte, weight: i64)

  datatype Policy = Policy(
    generation: u64, version: u64, allowHostFallback: bool, requireAuthoritativeEvidence: bool,
    preferWarmDeployments: bool, preferDedicatedIsolation: bool, requireOffloadForRequired: bool,
    minHeadroom: u64, maxQueuePressure: u64, minDeviceHealth: byte, weights: seq<RankWeight>,
    hardCaps: seq<CapabilityRequirement>, preferredDevices: seq<u64>)
  {
    function WeightOf(factor: byte): i64 {
      WeightIn(weights, factor)
    }

    static function WeightIn(weights: seq<RankWeight>, factor: byte): i64 {
      if weights == [] then if factor == TIEBREAK_ID then 1 else 0
      else if weights[0].factor == factor then weights[0].weight
      else WeightIn(weights[1..], factor)
    }
  }

  const DEFAULT_WEIGHTS: seq<RankWeight> :=
    [RankWeight(WARM_SERVICE, 4), RankWeight(LOCALITY, 3), RankWeight(HEADROOM, 2), RankWeight(QUEUE_PRESSURE, 2),
     RankWeight(DEVICE_LOAD, 1), RankWeight(STATE_TRANSFER, 1), RankWeight(HOST_CPU_SAVINGS, 2),
     RankWeight(OFFLOAD_VALUE, 1), RankWeight(FAILURE_RISK, -3), RankWeight(ENERGY, 0),
     RankWeight(POLICY_PREFERENCE, 3), RankWeight(TIEBREAK_ID, 1)]

  /** Policy::defaults, which an engine that is given no policy starts with. */
  function DefaultPolicy(generation: u64): Policy {
    Policy(generation, 1, false, true, true, false, true, 10, 90, HEALTH_WARN, DEFAULT_WEIGHTS, [], [])
  }

  datatype OffloadMode = OffloadRequired | OffloadPreferred

  datatype OffloadRequest = OffloadRequest(
    offloadClass: byte, requiredCaps: seq<CapabilityRequirement>, requiredDeviceClass: Option<DeviceClass>,
    pinnedDevice: Option<u64>, requiredPort: Option<u64>, requiredFunction: Option<u64>, minLocality: byte,
    tenant: u64, isolationDomain: u64, isolation: IsolationSpec, resource: Resources, security: byte,
    service: Option<u64>, requiredProgram: Option<u64>, requiredAbi: Str, mode: OffloadMode,
    allowHostFallback: bool, minHeadroom: u64, maxQueuePressure: u64)

  // ---- snapshots ----

  type Programs = map<u64, map<u64, ProgramArtifact>>

  /** The current generation of a program; 0 when it has none. */
  function CurrentGenIn(current: map<u64, u64>, program: u64): u64 {
    if program in current then current[program] else 0
  }

  /** What readers see: an immutable copy of the coordinator's state. */
  datatype Snapshot = Snapshot(
    epoch: u64, policy: Policy, devices: map<u64, DeviceRecord>, services: map<u64, ServiceDefinition>,
    programs: Programs, currentProgramGen: map<u64, u64>, deployments: map<u64, Deployment>,
    activations: map<u64, ActivationRecord>, usage: map<u64, Resources>, deviceOrder: seq<u64>)
}
