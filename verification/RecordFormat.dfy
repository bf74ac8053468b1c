/** The state file record by record: which fields are stored, in which order, and how. */
module RecordFormat {
  import opened Base
  import opened Resource
  import opened Records
  import opened Wire
  import opened Counted
  import opened Layout
  import opened Formats

  function Text(s: Str): seq<byte> {
    Four(|s| % 0x1_0000_0000) + s
  }

  function Flag(b: bool): seq<byte> {
    [if b then 1 else 0]
  }

  lemma Numbers()
    ensures forall v: u64, t: seq<byte> :: PutU64(v, t) == Eight(v) + t
    ensures forall v: u32, t: seq<byte> :: PutU32(v, t) == Four(v) + t
    ensures forall v: byte, t: seq<byte> :: PutU8(v, t) == [v] + t
    ensures forall b: bool, t: seq<byte> :: PutBool(b, t) == Flag(b) + t
  {
    hide PutU64, PutU32, Eight, Four;
    forall v: u64, t: seq<byte> ensures PutU64(v, t) == Eight(v) + t {
      EightBytes(v, t);
    }
    forall v: u32, t: seq<byte> ensures PutU32(v, t) == Four(v) + t {
      FourBytes(v, t);
    }
  }

  lemma Texts()
    ensures forall s: Str, t: seq<byte> :: PutStr(s, t) == Text(s) + t
    ensures forall s: Str, t: seq<byte> :: PutKey(s, t) == Text(s) + t
  {
    hide PutU32, Four;
    forall s: Str, t: seq<byte> ensures PutStr(s, t) == Text(s) + t {
      FourBytes(|s| % 0x1_0000_0000, s + t);
    }
  }

  function ClassCode(c: DeviceClass): byte {
    match c
    case Dpu => 1
    case SmartNic => 2
    case InfraProcessor => 3
    case HostProcessor => 4
    case NicAdjacent => 5
    case UnknownDevice => 6
  }

  function LifecycleCode(l: DeviceLifecycle): byte {
    match l
    case Discovered => 1
    case Available => 2
    case Provisioning => 3
    case Ready => 4
    case Degraded => 5
    case Draining => 6
    case RevalidationRequired => 7
    case Failed => 8
    case Offline => 9
    case Retired => 10
  }

  function CapabilityCode(c: CapabilityState): byte {
    match c
    case Supported => 1
    case Unsupported => 2
    case Unknown => 3
    case NeedsRevalidation => 4
  }

  function StateCode(d: DeploymentState): byte {
    match d
    case Planned => 1
    case Reserved => 2
    case Staging => 3
    case Loaded => 4
    case Validating => 5
    case Activating => 6
    case Active => 7
    case Degraded => 8
    case Draining => 9
    case Failed => 10
    case Aborted => 11
    case Retired => 12
    case RevalidationRequired => 13
  }

  lemma CodeExactly<T>(all: seq<T>, v: T, i: nat)
    requires i < |all| && all[i] == v && forall j :: 0 <= j < |all| && all[j] == v ==> j == i
    ensures CodeIn(all, v) == i + 1
  {
    hide CodeIn;
    assert v in all;
  }

  lemma ClassCodes(c: DeviceClass)
    ensures CodeIn(DEVICE_CLASSES, c) == ClassCode(c)
  {
    hide CodeIn;
    EveryEnumerator(CapabilityState.Unknown, c, DeviceLifecycle.Ready, DeploymentState.Active);
    CodeExactly(DEVICE_CLASSES, c, ClassCode(c) - 1);
  }

  lemma LifecycleCodes(l: DeviceLifecycle)
    ensures CodeIn(LIFECYCLES, l) == LifecycleCode(l)
  {
    hide CodeIn;
    CodeExactly(LIFECYCLES, l, LifecycleCode(l) - 1);
  }

  lemma CapabilityCodes(c: CapabilityState)
    ensures CodeIn(CAPABILITY_STATES, c) == CapabilityCode(c)
  {
    hide CodeIn;
    CodeExactly(CAPABILITY_STATES, c, CapabilityCode(c) - 1);
  }

  lemma StateCodes(d: DeploymentState)
    ensures CodeIn(DEPLOYMENT_STATES, d) == StateCode(d)
  {
    hide CodeIn;
    CodeExactly(DEPLOYMENT_STATES, d, StateCode(d) - 1);
  }

  lemma PutCode<T>(all: seq<T>, v: T, code: byte, t: seq<byte>)
    requires CodeIn(all, v) == code
    ensures PutEnum(all, v, t) == [code] + t
  {
    hide CodeIn;
  }

  /** Every enumerator is stored as the number that the source gives it. */
  lemma Codes(c: DeviceClass, l: DeviceLifecycle, s: CapabilityState, d: DeploymentState, t: seq<byte>)
    ensures PutEnum(DEVICE_CLASSES, c, t) == [ClassCode(c)] + t && PutEnum(LIFECYCLES, l, t) == [LifecycleCode(l)] + t
    ensures PutEnum(CAPABILITY_STATES, s, t) == [CapabilityCode(s)] + t && PutEnum(DEPLOYMENT_STATES, d, t) == [StateCode(d)] + t
  {
    hide CodeIn, PutEnum, ClassCode, LifecycleCode, CapabilityCode, StateCode;
    ClassCodes(c);
    LifecycleCodes(l);
    CapabilityCodes(s);
    StateCodes(d);
    PutCode(DEVICE_CLASSES, c, ClassCode(c), t);
    PutCode(LIFECYCLES, l, LifecycleCode(l), t);
    PutCode(CAPABILITY_STATES, s, CapabilityCode(s), t);
    PutCode(DEPLOYMENT_STATES, d, StateCode(d), t);
  }

  /** The enumerators that evaluation compares, as numbers. */
  lemma EnumeratorsAre()
    ensures [HEALTHY, HEALTH_WARN, HEALTH_DEGRADED, HEALTH_FAILED, HEALTH_UNKNOWN] == [1, 2, 3, 4, 5]
    ensures [SAME_DEVICE, SAME_FUNCTION, SAME_NIC, SAME_ROOT, REMOTE, LOCALITY_UNKNOWN] == [1, 2, 3, 4, 5, 6]
    ensures [COMPRESSION, ENCRYPTION, CUSTOM_INFRASTRUCTURE_SERVICE] == [6, 8, 16]
    ensures [ISOLATION_DEDICATED_DEVICE, ISOLATION_SECURITY_DOMAIN, ISOLATION_NONE, SECURE, ISOLATED] == [1, 7, 9, 1, 2]
    ensures [WARM_SERVICE, LOCALITY, HEADROOM, QUEUE_PRESSURE, DEVICE_LOAD, STATE_TRANSFER, HOST_CPU_SAVINGS, OFFLOAD_VALUE,
             FAILURE_RISK, ENERGY, POLICY_PREFERENCE, TIEBREAK_ID] == [1, 2, 3, 4, 5, 6, 7, 8, 9, 10, 11, 12]
  {
  }

  /** What a count or a length may be at most. */
  lemma LimitsAre()
    ensures [MAX_CONTAINER_COUNT, MAX_STRING_BYTES, MAX_BLOB_BYTES] == [1_048_576, 1_048_576, 67_108_864]
    ensures [MAX_WEIGHTS, MAX_GENERATIONS, MAX_DEVICE_CLASSES, MAX_EXECUTION_MODELS, MAX_FALLBACK_CLASSES] == [64, 256, 64, 16, 32]
    ensures [LAST_HEALTH, LAST_OFFLOAD_CLASS] == [5, 16] && HASH_BYTES == 32
  {
  }

  /** A count over its bound, an enumerator out of range, a checked code out of range: the state is corrupt. */
  lemma CountRefused<T>(get: Get<T>, bound: nat, n: u32, t: seq<byte>)
    requires n > bound
    ensures GetCounted(get, bound, PutU32(n, t)) == Err(CORRUPT_STATE)
  {
    hide PutU32, GetU32;
  }

  lemma CodeRefused<T>(all: seq<T>, b: byte, last: byte, t: seq<byte>)
    ensures b == 0 || b > |all| ==> GetEnum(all, [b] + t) == Err(CORRUPT_STATE)
    ensures b == 0 || b > last ==> GetChecked(last, [b] + t) == Err(CORRUPT_STATE)
    ensures 1 <= b <= |all| ==> GetEnum(all, [b] + t) == Ok(Taken(all[b - 1], t))
    ensures 1 <= b <= last ==> GetChecked(last, [b] + t) == Ok(Taken(b, t))
  {
    assert ([b] + t)[1..] == t;
  }

  /** A string over the bound, and a key that is no key, are invalid arguments; bytes that are missing are a
      protocol error. */
  lemma TextRefused(n: u32, s: Str, t: seq<byte>)
    ensures n > 0x10_0000 ==> GetStr(PutU32(n, t)) == Err(INVALID_ARGUMENT)
    ensures |t| < n <= 0x10_0000 ==> GetStr(PutU32(n, t)) == Err(PROTOCOL_ERROR)
    ensures |s| <= 0x10_0000 && !ValidKey(s) ==> GetKey(PutStr(s, t)) == Err(INVALID_ARGUMENT)
    ensures |t| < 8 ==> GetU64(t) == Err(PROTOCOL_ERROR)
    ensures |t| < 4 ==> GetU32(t) == Err(PROTOCOL_ERROR)
    ensures |t| < 2 ==> GetU16(t) == Err(PROTOCOL_ERROR)
    ensures |t| < 1 ==> GetU8(t) == Err(PROTOCOL_ERROR)
  {
    hide PutU32, ValidKey;
  }

  /** Which keys are keys. */
  lemma KeysAre(key: Str)
    ensures ValidKey(key) <==>
            1 <= |key| <= 64 && forall i :: 0 <= i < |key| ==>
              'A' as int <= key[i] <= 'Z' as int || 'a' as int <= key[i] <= 'z' as int || '0' as int <= key[i] <= '9' as int
              || key[i] == '_' as int || key[i] == '-' as int
  {
  }

  // ---- devices ----

  lemma IdentityFormat(d: DeviceIdentity, t: seq<byte>)
    ensures PutIdentity(d, t) ==
            Eight(d.deviceId) + (Eight(d.generation) + (Eight(d.bootId) + (Text(d.vendor) + (Text(d.model) +
            ([ClassCode(d.deviceClass)] + (Text(d.pciReference) + (Text(d.parentNicReference) + (Eight(d.parentFunction) + t))))))))
  {
    hide PutU64, PutStr, PutEnum, Eight, Text, ClassCode, StorableIdentity;
    var rest := PutStr(d.pciReference, PutStr(d.parentNicReference, PutU64(d.parentFunction, t)));
    Numbers();
    Texts();
    Codes(d.deviceClass, DeviceLifecycle.Ready, CapabilityState.Unknown, DeploymentState.Active, rest);
  }

  lemma SoftwareFormat(d: DeviceSoftware, t: seq<byte>)
    ensures PutSoftware(d, t) ==
            Text(d.firmwareVersion) + (Eight(d.firmwareGen) + (Text(d.runtimeVersion) + (Eight(d.runtimeGen) +
            (Text(d.architecture) + t))))
  {
    hide PutU64, PutStr, Eight, Text, StorableSoftware;
    Numbers();
    Texts();
  }

  lemma ResourcesFormat(r: Resources, t: seq<byte>)
    ensures PutResources(r, t) ==
            Eight(r.memoryBytes) + (Eight(r.queues) + (Eight(r.functions) + (Eight(r.slots) + (Eight(r.contexts) + t))))
  {
    hide PutU64, Eight;
    Numbers();
  }

  lemma CapacityFormat(d: DeviceCapacity, t: seq<byte>)
    ensures PutCapacity(d, t) ==
            Eight(d.processingUnits) + (Eight(d.memoryBytes) + (Eight(d.programmableMemory) + PutResources(d.resources, t)))
  {
    hide PutU64, Eight, PutResources;
    Numbers();
  }

  lemma FeaturesFormat(d: DeviceFeatures, t: seq<byte>)
    ensures PutFeatures(d, t) ==
            PutIds(d.ports, PutIds(d.functions, PutCapabilities(d.capabilities, PutCodes(d.offloadClasses,
            PutCodes(d.executionModels, PutStrings(d.programFormats,
            Flag(d.supportsDma) + (Flag(d.rdmaAdjacent) + (Text(d.hostComm) + t))))))))
  {
    hide PutBool, PutStr, Text, Flag, PutIds, PutCapabilities, PutCodes, PutStrings, StorableFeatures;
    Numbers();
    Texts();
  }

  lemma DeviceIsolationFormat(d: DeviceIsolation, t: seq<byte>)
    ensures PutDeviceIsolation(d, t) ==
            Flag(d.hardwareIsolation) + (Eight(d.isolationDomain) + (Eight(d.tenant) + (Flag(d.isolationProven) + t)))
  {
    hide PutBool, PutU64, Eight, Flag;
    Numbers();
  }

  lemma StatusFormat(d: DeviceStatus, t: seq<byte>)
    ensures PutStatus(d, t) ==
            [d.locality] + ([d.health] + ([LifecycleCode(d.lifecycle)] + ([d.discoverySource] + (Eight(d.evidenceGen) +
            (Flag(d.evidenceFresh) + (Text(d.discoveryDetail) + (Eight(d.owningWorker) + (Eight(d.ownerWorkerBoot) + t))))))))
  {
    hide PutU64, PutU8, PutBool, PutStr, PutEnum, Eight, Text, Flag, LifecycleCode, StorableStatus;
    var rest := PutU8(d.discoverySource, PutU64(d.evidenceGen, PutBool(d.evidenceFresh, PutStr(d.discoveryDetail,
                PutU64(d.owningWorker, PutU64(d.ownerWorkerBoot, t))))));
    Numbers();
    Texts();
    Codes(Dpu, d.lifecycle, CapabilityState.Unknown, DeploymentState.Active, rest);
  }

  /** A device: identity, software, capacity, features, isolation, status. */
  lemma DeviceFormat(d: DeviceRecord, t: seq<byte>)
    ensures PutDevice(d, t) ==
            PutIdentity(d.identity, PutSoftware(d.software, PutCapacity(d.capacity, PutFeatures(d.features,
            PutDeviceIsolation(d.isolation, PutStatus(d.status, t))))))
  {
  }

  lemma CapabilityFormat(c: Capability, t: seq<byte>)
    ensures PutCapability(c, t) ==
            Text(c.key) + ([CapabilityCode(c.state)] + (Eight(c.evidenceGen) + (Eight(c.version) + (Eight(c.minFirmwareGen) +
            (Eight(c.minRuntimeGen) + (Eight(c.maxScale) + (Flag(c.requiresIsolation) + ([c.source] + (Text(c.detail) + t)))))))))
  {
    hide PutU64, PutU8, PutBool, PutStr, PutKey, PutEnum, Eight, Text, Flag, CapabilityCode;
    var rest := PutU64(c.evidenceGen, PutU64(c.version, PutU64(c.minFirmwareGen, PutU64(c.minRuntimeGen, PutU64(c.maxScale,
                PutBool(c.requiresIsolation, PutU8(c.source, PutStr(c.detail, t))))))));
    Numbers();
    Texts();
    Codes(Dpu, DeviceLifecycle.Ready, c.state, DeploymentState.Active, rest);
  }

  // ---- services and programs ----

  lemma RequirementFormat(c: CapabilityRequirement, t: seq<byte>)
    ensures PutRequirement(c, t) == Text(c.key) + (Flag(c.isOptional) + (Eight(c.minVersion) + t))
  {
    hide PutU64, PutBool, PutKey, Eight, Text, Flag;
    Numbers();
    Texts();
  }

  lemma IsolationFormat(s: IsolationSpec, t: seq<byte>)
    ensures PutIsolation(s, t) ==
            [s.level] + (Eight(s.isolationDomain) + (Eight(s.tenant) + (Text(s.trustDomain) + (Text(s.securityDomain) + ([s.security] + t)))))
  {
    hide PutU64, PutU8, PutStr, Eight, Text, StorableIsolation;
    Numbers();
    Texts();
  }

  lemma ServiceFormat(s: ServiceDefinition, t: seq<byte>)
    ensures PutService(s, t) ==
            Eight(s.serviceId) + (Eight(s.serviceGen) + ([s.offloadClass] +
            PutRequirements(s.requiredCaps, PutRequirements(s.optionalCaps, PutIsolation(s.isolation, PutResources(s.resource,
            [s.executionModel] + (Eight(s.minFirmwareGen) + (Eight(s.minRuntimeGen) + (Eight(s.requiredProgram) +
            (Text(s.requiredAbi) + ([s.statefulness] + (Flag(s.recoverable) +
            PutCodes(s.allowedFallbackClasses, Text(s.failurePolicy) + PutIds(s.dependencies, t))))))))))))))
  {
    hide PutU64, PutU8, PutBool, PutStr, Eight, Text, Flag, PutRequirements, PutIsolation, PutResources, PutCodes, PutIds,
         StorableService;
    Numbers();
    Texts();
  }

  lemma ProgramFormat(p: ProgramArtifact, t: seq<byte>)
    ensures PutProgram(p, t) ==
            Eight(p.programId) + (Eight(p.programGen) + (Eight(p.artifactId) + (Eight(p.artifactGen) + ([p.artifactType] +
            (Text(p.version) + (p.contentHash + (Text(p.targetArchitecture) + (Text(p.runtimeAbi) +
            PutRequirements(p.requiredCaps, Eight(p.minFirmwareGen) + (Text(p.provenance) + (Text(p.sizeHint) + t)))))))))))
  {
    hide PutU64, PutU8, PutStr, Eight, Text, PutRequirements, StorableProgram;
    Numbers();
    Texts();
  }

  // ---- deployments, usage and policy ----

  lemma BindingFormat(b: DeploymentBinding, t: seq<byte>)
    ensures PutBinding(b, t) ==
            Eight(b.deploymentId) + (Eight(b.generation) + (Eight(b.attemptId) + (Eight(b.service) + (Eight(b.serviceGen) +
            (Eight(b.program) + (Eight(b.programGen) + (Eight(b.artifact) + (Eight(b.artifactGen) + (Eight(b.device) +
            (Eight(b.deviceGen) + (Eight(b.deviceBoot) + (Eight(b.tenant) + (Eight(b.isolationDomain) +
            PutResources(b.resources, t))))))))))))))
  {
    hide PutU64, Eight, PutResources;
    Numbers();
  }

  lemma DeploymentFormat(d: Deployment, t: seq<byte>)
    ensures PutDeployment(d, t) ==
            PutBinding(d.binding, [StateCode(d.state)] + ((if d.activation.Some? then [1] + Eight(d.activation.value) else [0]) +
            (Eight(d.activationGen) + (Eight(d.epoch) + (Eight(d.workerBoot) + (Eight(d.evidenceGen) + (Eight(d.policyGen) +
            (Flag(d.authoritative) + (Eight(d.createdMs) + (Eight(d.updatedMs) + t))))))))))
  {
    hide PutU64, PutBool, PutEnum, Eight, Flag, PutBinding, StateCode, PutOptional;
    var tail := PutU64(d.activationGen, PutU64(d.epoch, PutU64(d.workerBoot, PutU64(d.evidenceGen, PutU64(d.policyGen,
                PutBool(d.authoritative, PutU64(d.createdMs, PutU64(d.updatedMs, t))))))));
    OptionalFormat(d.activation, tail);
    Numbers();
    Codes(Dpu, DeviceLifecycle.Ready, CapabilityState.Unknown, d.state, PutOptional(d.activation, tail));
  }

  lemma OptionalFormat(a: Option<u64>, t: seq<byte>)
    ensures PutOptional(a, t) == (if a.Some? then [1] + Eight(a.value) else [0]) + t
  {
    hide PutU64, Eight;
    Numbers();
    if a.Some? {
      assert [1] + Eight(a.value) + t == [1] + (Eight(a.value) + t);
    }
  }

  lemma PolicyFormat(p: Policy, t: seq<byte>)
    ensures PutPolicy(p, t) ==
            Eight(p.generation) + (Eight(p.version) + (Flag(p.allowHostFallback) + (Flag(p.requireAuthoritativeEvidence) +
            (Flag(p.preferWarmDeployments) + (Flag(p.preferDedicatedIsolation) + (Flag(p.requireOffloadForRequired) +
            (Eight(p.minHeadroom) + (Eight(p.maxQueuePressure) + ([p.minDeviceHealth] + PutWeights(p.weights, t))))))))))
  {
    hide PutU64, PutU8, PutBool, Eight, Flag, PutWeights, StorableWeights;
    Numbers();
  }

  /** A weight: its factor, and the low 32 bits of its two's complement. */
  lemma WeightFormat(w: RankWeight, t: seq<byte>)
    ensures PutWeight(w, t) == [w.factor] + (Four(w.weight % 0x1_0000_0000) + t)
  {
    hide PutU8, PutU32, Four;
    Numbers();
  }
}
