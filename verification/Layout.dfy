/** The stored form of each record: write_* and read_* of src/persistence.cpp.

    A Put function gives the bytes that writing a record adds in front of whatever follows; a Get
    function gives what reading takes off the front of the unread bytes, or the error it throws. */
module Layout {
  import opened Base
  import opened Resource
  import opened Records
  import opened Wire
  import opened Counted
  import opened Keys

  // ---- single bytes ----

  function PutBool(b: bool, t: seq<byte>): (r: seq<byte>)
    ensures GetBool(r) == Ok(Taken(b, t))
  {
    PutU8(if b then 1 else 0, t)
  }

  function GetBool(bs: seq<byte>): Result<Taken<bool>> {
    var b :- GetU8(bs);
    Ok(Taken(b.value != 0, b.rest))
  }

  const LAST_HEALTH: byte := 5
  const LAST_OFFLOAD_CLASS: byte := 16

  /** A byte that is read back only if it lies in 1..last. */
  function GetChecked(last: byte, bs: seq<byte>): Result<Taken<byte>> {
    var b :- GetU8(bs);
    if 1 <= b.value <= last then Ok(b) else Err(CORRUPT_STATE)
  }

  const CAPABILITY_STATES: seq<CapabilityState> :=
    [CapabilityState.Supported, CapabilityState.Unsupported, CapabilityState.Unknown, CapabilityState.NeedsRevalidation]

  const DEVICE_CLASSES: seq<DeviceClass> := [Dpu, SmartNic, InfraProcessor, HostProcessor, NicAdjacent, UnknownDevice]

  const LIFECYCLES: seq<DeviceLifecycle> :=
    [DeviceLifecycle.Discovered, DeviceLifecycle.Available, DeviceLifecycle.Provisioning, DeviceLifecycle.Ready,
     DeviceLifecycle.Degraded, DeviceLifecycle.Draining, DeviceLifecycle.RevalidationRequired, DeviceLifecycle.Failed,
     DeviceLifecycle.Offline, DeviceLifecycle.Retired]

  const DEPLOYMENT_STATES: seq<DeploymentState> :=
    [DeploymentState.Planned, DeploymentState.Reserved, DeploymentState.Staging, DeploymentState.Loaded,
     DeploymentState.Validating, DeploymentState.Activating, DeploymentState.Active, DeploymentState.Degraded,
     DeploymentState.Draining, DeploymentState.Failed, DeploymentState.Aborted, DeploymentState.Retired,
     DeploymentState.RevalidationRequired]

  /** The code of an enumerator: its place in the enumeration, from 1. */
  function CodeIn<T(==)>(all: seq<T>, v: T): (code: nat)
    ensures code <= |all|
    ensures v in all <==> code > 0
    ensures code > 0 ==> all[code - 1] == v
    decreases |all|
  {
    if all == [] then 0
    else
      var before := CodeIn(all[..|all| - 1], v);
      if before > 0 then before else if all[|all| - 1] == v then |all| else 0
  }

  function GetEnum<T>(all: seq<T>, bs: seq<byte>): Result<Taken<T>> {
    var b :- GetU8(bs);
    if 1 <= b.value <= |all| then Ok(Taken(all[b.value - 1], b.rest)) else Err(CORRUPT_STATE)
  }

  function PutEnum<T(==)>(all: seq<T>, v: T, t: seq<byte>): (r: seq<byte>)
    ensures v in all && |all| < 0x100 ==> GetEnum(all, r) == Ok(Taken(v, t))
  {
    PutU8(CodeIn(all, v) % 0x100, t)
  }

  lemma EveryEnumerator(c: CapabilityState, d: DeviceClass, l: DeviceLifecycle, s: DeploymentState)
    ensures c in CAPABILITY_STATES && d in DEVICE_CLASSES && l in LIFECYCLES && s in DEPLOYMENT_STATES
  {
    assert CAPABILITY_STATES[0].Supported? && CAPABILITY_STATES[1].Unsupported? && CAPABILITY_STATES[2].Unknown?
           && CAPABILITY_STATES[3].NeedsRevalidation?;
    assert DEVICE_CLASSES[0].Dpu? && DEVICE_CLASSES[1].SmartNic? && DEVICE_CLASSES[2].InfraProcessor?
           && DEVICE_CLASSES[3].HostProcessor? && DEVICE_CLASSES[4].NicAdjacent? && DEVICE_CLASSES[5].UnknownDevice?;
    assert LIFECYCLES[0].Discovered? && LIFECYCLES[1].Available? && LIFECYCLES[2].Provisioning? && LIFECYCLES[3].Ready?
           && LIFECYCLES[4].Degraded? && LIFECYCLES[5].Draining? && LIFECYCLES[6].RevalidationRequired?
           && LIFECYCLES[7].Failed? && LIFECYCLES[8].Offline? && LIFECYCLES[9].Retired?;
    assert DEPLOYMENT_STATES[0].Planned? && DEPLOYMENT_STATES[1].Reserved? && DEPLOYMENT_STATES[2].Staging?
           && DEPLOYMENT_STATES[3].Loaded? && DEPLOYMENT_STATES[4].Validating? && DEPLOYMENT_STATES[5].Activating?
           && DEPLOYMENT_STATES[6].Active? && DEPLOYMENT_STATES[7].Degraded? && DEPLOYMENT_STATES[8].Draining?
           && DEPLOYMENT_STATES[9].Failed? && DEPLOYMENT_STATES[10].Aborted? && DEPLOYMENT_STATES[11].Retired?
           && DEPLOYMENT_STATES[12].RevalidationRequired?;
  }

  // ---- strings and keys ----

  predicate FitsStr(s: Str) {
    |s| <= MAX_STRING_BYTES
  }

  predicate KeyByte(b: byte) {
    65 <= b <= 90 || 97 <= b <= 122 || 48 <= b <= 57 || b == 95 || b == 45
  }

  /** CapabilityKey::is_valid. */
  predicate ValidKey(key: Str) {
    1 <= |key| <= 64 && forall i :: 0 <= i < |key| ==> KeyByte(key[i])
  }

  function GetKey(bs: seq<byte>): Result<Taken<Str>> {
    var key :- GetStr(bs);
    if ValidKey(key.value) then Ok(key) else Err(INVALID_ARGUMENT)
  }

  function PutKey(key: Str, t: seq<byte>): (r: seq<byte>)
    ensures ValidKey(key) ==> GetKey(r) == Ok(Taken(key, t))
  {
    PutStr(key, t)
  }

  // ---- capabilities ----

  function PutCapability(c: Capability, t: seq<byte>): seq<byte> {
    PutKey(c.key, PutEnum(CAPABILITY_STATES, c.state, PutU64(c.evidenceGen, PutU64(c.version,
    PutU64(c.minFirmwareGen, PutU64(c.minRuntimeGen, PutU64(c.maxScale, PutBool(c.requiresIsolation,
    PutU8(c.source, PutStr(c.detail, t))))))))))
  }

  function GetCapability(bs: seq<byte>): Result<Taken<Capability>> {
    var key :- GetKey(bs);
    var state :- GetEnum(CAPABILITY_STATES, key.rest);
    var evidenceGen :- GetU64(state.rest);
    var version :- GetU64(evidenceGen.rest);
    var minFirmwareGen :- GetU64(version.rest);
    var minRuntimeGen :- GetU64(minFirmwareGen.rest);
    var maxScale :- GetU64(minRuntimeGen.rest);
    var requiresIsolation :- GetBool(maxScale.rest);
    var source :- GetU8(requiresIsolation.rest);
    var detail :- GetStr(source.rest);
    Ok(Taken(Capability(key.value, state.value, evidenceGen.value, version.value, minFirmwareGen.value,
                        minRuntimeGen.value, maxScale.value, requiresIsolation.value, source.value, detail.value),
             detail.rest))
  }

  predicate StorableCapability(c: Capability) {
    ValidKey(c.key) && FitsStr(c.detail)
  }

  lemma CapabilityExact(c: Capability)
    requires StorableCapability(c)
    ensures Exact(PutCapability, GetCapability, c)
  {
    hide PutStr, PutKey, PutEnum, PutU64, PutBool, PutU8, GetKey, GetEnum, GetU64, GetBool, GetU8, GetStr, ValidKey;
    EveryEnumerator(c.state, Dpu, DeviceLifecycle.Ready, DeploymentState.Active);
  }

  function PutRequirement(c: CapabilityRequirement, t: seq<byte>): seq<byte> {
    PutKey(c.key, PutBool(c.isOptional, PutU64(c.minVersion, t)))
  }

  function GetRequirement(bs: seq<byte>): Result<Taken<CapabilityRequirement>> {
    var key :- GetKey(bs);
    var isOptional :- GetBool(key.rest);
    var minVersion :- GetU64(isOptional.rest);
    Ok(Taken(CapabilityRequirement(key.value, isOptional.value, minVersion.value), minVersion.rest))
  }

  lemma RequirementExact(c: CapabilityRequirement)
    requires ValidKey(c.key)
    ensures Exact(PutRequirement, GetRequirement, c)
  {
    hide PutKey, PutBool, PutU64, GetKey, GetBool, GetU64, ValidKey;
  }

  predicate StorableRequirements(cs: seq<CapabilityRequirement>) {
    |cs| <= MAX_CONTAINER_COUNT && forall i :: 0 <= i < |cs| ==> ValidKey(cs[i].key)
  }

  function PutRequirements(cs: seq<CapabilityRequirement>, t: seq<byte>): (r: seq<byte>)
    ensures StorableRequirements(cs) ==> GetRequirements(r) == Ok(Taken(cs, t))
  {
    assert StorableRequirements(cs) ==> GetRequirements(PutCounted(PutRequirement, cs, t)) == Ok(Taken(cs, t)) by {
      RequirementsExact(cs, t);
    }
    PutCounted(PutRequirement, cs, t)
  }

  function GetRequirements(bs: seq<byte>): Result<Taken<seq<CapabilityRequirement>>> {
    GetCounted(GetRequirement, MAX_CONTAINER_COUNT, bs)
  }

  lemma RequirementsExact(cs: seq<CapabilityRequirement>, t: seq<byte>)
    ensures StorableRequirements(cs) ==> GetRequirements(PutCounted(PutRequirement, cs, t)) == Ok(Taken(cs, t))
  {
    if StorableRequirements(cs) {
      forall i | 0 <= i < |cs| ensures Exact(PutRequirement, GetRequirement, cs[i]) {
        RequirementExact(cs[i]);
      }
      CountedExact(PutRequirement, GetRequirement, MAX_CONTAINER_COUNT, cs, t);
    }
  }

  // ---- lists of plain values ----

  lemma PlainExact(n: u64, b: byte, s: Str)
    ensures Exact(PutU64, GetU64, n) && Exact(PutU8, GetU8, b)
    ensures FitsStr(s) ==> Exact(PutStr, GetStr, s)
  {
    hide PutU64, GetU64, PutU8, GetU8, PutStr, GetStr;
  }

  lemma IdsExact(ids: seq<u64>, t: seq<byte>)
    requires |ids| <= MAX_CONTAINER_COUNT
    ensures GetCounted(GetU64, MAX_CONTAINER_COUNT, PutCounted(PutU64, ids, t)) == Ok(Taken(ids, t))
  {
    forall i | 0 <= i < |ids| ensures Exact(PutU64, GetU64, ids[i]) {
      PlainExact(ids[i], 0, []);
    }
    CountedExact(PutU64, GetU64, MAX_CONTAINER_COUNT, ids, t);
  }

  lemma CodesExact(codes: seq<byte>, bound: nat, t: seq<byte>)
    requires |codes| <= bound <= MAX_CONTAINER_COUNT
    ensures GetCounted(GetU8, bound, PutCounted(PutU8, codes, t)) == Ok(Taken(codes, t))
  {
    forall i | 0 <= i < |codes| ensures Exact(PutU8, GetU8, codes[i]) {
      PlainExact(0, codes[i], []);
    }
    CountedExact(PutU8, GetU8, bound, codes, t);
  }

  predicate StorableStrings(ss: seq<Str>) {
    |ss| <= MAX_CONTAINER_COUNT && forall i :: 0 <= i < |ss| ==> FitsStr(ss[i])
  }

  lemma StringsExact(ss: seq<Str>, t: seq<byte>)
    requires StorableStrings(ss)
    ensures GetCounted(GetStr, MAX_CONTAINER_COUNT, PutCounted(PutStr, ss, t)) == Ok(Taken(ss, t))
  {
    forall i | 0 <= i < |ss| ensures Exact(PutStr, GetStr, ss[i]) {
      PlainExact(0, 0, ss[i]);
    }
    CountedExact(PutStr, GetStr, MAX_CONTAINER_COUNT, ss, t);
  }

  // ---- resources and isolation ----

  function PutResources(r: Resources, t: seq<byte>): (bs: seq<byte>)
    ensures GetResources(bs) == Ok(Taken(r, t))
  {
    hide PutU64, GetU64;
    PutU64(r.memoryBytes, PutU64(r.queues, PutU64(r.functions, PutU64(r.slots, PutU64(r.contexts, t)))))
  }

  function GetResources(bs: seq<byte>): Result<Taken<Resources>> {
    var memoryBytes :- GetU64(bs);
    var queues :- GetU64(memoryBytes.rest);
    var functions :- GetU64(queues.rest);
    var slots :- GetU64(functions.rest);
    var contexts :- GetU64(slots.rest);
    Ok(Taken(Resources(memoryBytes.value, queues.value, functions.value, slots.value, contexts.value), contexts.rest))
  }

  function PutIsolation(s: IsolationSpec, t: seq<byte>): (r: seq<byte>)
    ensures StorableIsolation(s) ==> GetIsolation(r) == Ok(Taken(s, t))
  {
    hide PutU8, GetU8, PutU64, GetU64, PutStr, GetStr;
    PutU8(s.level, PutU64(s.isolationDomain, PutU64(s.tenant, PutStr(s.trustDomain, PutStr(s.securityDomain,
    PutU8(s.security, t))))))
  }

  function GetIsolation(bs: seq<byte>): Result<Taken<IsolationSpec>> {
    var level :- GetU8(bs);
    var isolationDomain :- GetU64(level.rest);
    var tenant :- GetU64(isolationDomain.rest);
    var trustDomain :- GetStr(tenant.rest);
    var securityDomain :- GetStr(trustDomain.rest);
    var security :- GetU8(securityDomain.rest);
    Ok(Taken(IsolationSpec(level.value, isolationDomain.value, tenant.value, trustDomain.value, securityDomain.value,
                           security.value), security.rest))
  }

  predicate StorableIsolation(s: IsolationSpec) {
    FitsStr(s.trustDomain) && FitsStr(s.securityDomain)
  }

  // ---- devices ----

  function PutIdentity(d: DeviceIdentity, t: seq<byte>): (r: seq<byte>)
    ensures StorableIdentity(d) ==> GetIdentity(r) == Ok(Taken(d, t))
  {
    hide PutU64, GetU64, PutStr, GetStr, PutEnum, GetEnum;
    EveryEnumerator(CapabilityState.Unknown, d.deviceClass, DeviceLifecycle.Ready, DeploymentState.Active);
    PutU64(d.deviceId, PutU64(d.generation, PutU64(d.bootId, PutStr(d.vendor, PutStr(d.model,
    PutEnum(DEVICE_CLASSES, d.deviceClass, PutStr(d.pciReference, PutStr(d.parentNicReference,
    PutU64(d.parentFunction, t)))))))))
  }

  function GetIdentity(bs: seq<byte>): Result<Taken<DeviceIdentity>> {
    var deviceId :- GetU64(bs);
    var generation :- GetU64(deviceId.rest);
    var bootId :- GetU64(generation.rest);
    var vendor :- GetStr(bootId.rest);
    var model :- GetStr(vendor.rest);
    var deviceClass :- GetEnum(DEVICE_CLASSES, model.rest);
    var pciReference :- GetStr(deviceClass.rest);
    var parentNicReference :- GetStr(pciReference.rest);
    var parentFunction :- GetU64(parentNicReference.rest);
    Ok(Taken(DeviceIdentity(deviceId.value, generation.value, bootId.value, vendor.value, model.value,
                            deviceClass.value, pciReference.value, parentNicReference.value, parentFunction.value),
             parentFunction.rest))
  }

  predicate StorableIdentity(d: DeviceIdentity) {
    FitsStr(d.vendor) && FitsStr(d.model) && FitsStr(d.pciReference) && FitsStr(d.parentNicReference)
  }

  function PutSoftware(d: DeviceSoftware, t: seq<byte>): (r: seq<byte>)
    ensures StorableSoftware(d) ==> GetSoftware(r) == Ok(Taken(d, t))
  {
    hide PutU64, GetU64, PutStr, GetStr;
    PutStr(d.firmwareVersion, PutU64(d.firmwareGen, PutStr(d.runtimeVersion, PutU64(d.runtimeGen,
    PutStr(d.architecture, t)))))
  }

  function GetSoftware(bs: seq<byte>): Result<Taken<DeviceSoftware>> {
    var firmwareVersion :- GetStr(bs);
    var firmwareGen :- GetU64(firmwareVersion.rest);
    var runtimeVersion :- GetStr(firmwareGen.rest);
    var runtimeGen :- GetU64(runtimeVersion.rest);
    var architecture :- GetStr(runtimeGen.rest);
    Ok(Taken(DeviceSoftware(firmwareVersion.value, firmwareGen.value, runtimeVersion.value, runtimeGen.value,
                            architecture.value), architecture.rest))
  }

  predicate StorableSoftware(d: DeviceSoftware) {
    FitsStr(d.firmwareVersion) && FitsStr(d.runtimeVersion) && FitsStr(d.architecture)
  }

  function PutCapacity(d: DeviceCapacity, t: seq<byte>): (r: seq<byte>)
    ensures GetCapacity(r) == Ok(Taken(d, t))
  {
    hide PutU64, GetU64, PutResources, GetResources;
    PutU64(d.processingUnits, PutU64(d.memoryBytes, PutU64(d.programmableMemory, PutResources(d.resources, t))))
  }

  function GetCapacity(bs: seq<byte>): Result<Taken<DeviceCapacity>> {
    var processingUnits :- GetU64(bs);
    var memoryBytes :- GetU64(processingUnits.rest);
    var programmableMemory :- GetU64(memoryBytes.rest);
    var resources :- GetResources(programmableMemory.rest);
    Ok(Taken(DeviceCapacity(processingUnits.value, memoryBytes.value, programmableMemory.value, resources.value),
             resources.rest))
  }

  /** The capabilities as a list, in key order. */
  function CapabilityList(caps: map<Str, Capability>): seq<Capability> {
    ValuesAt(caps, InOrder(caps.Keys))
  }

  predicate StorableCapabilities(caps: map<Str, Capability>) {
    |caps| <= MAX_CONTAINER_COUNT && forall k :: k in caps ==> caps[k].key == k && StorableCapability(caps[k])
  }

  function KeyOf(c: Capability): Str {
    c.key
  }

  function GetCapabilities(bs: seq<byte>): Result<Taken<map<Str, Capability>>> {
    var list :- GetCounted(GetCapability, MAX_CONTAINER_COUNT, bs);
    Ok(Taken(Indexed(KeyOf, list.value), list.rest))
  }

  lemma CapabilitiesExact(caps: map<Str, Capability>, t: seq<byte>)
    requires StorableCapabilities(caps)
    ensures GetCapabilities(PutCounted(PutCapability, CapabilityList(caps), t)) == Ok(Taken(caps, t))
  {
    var list := CapabilityList(caps);
    hide GetCounted, PutCounted, StorableCapability, InOrder, Indexed, Exact, GetCapability, PutCapability;
    forall i | 0 <= i < |list| ensures Exact(PutCapability, GetCapability, list[i]) {
      assert InOrder(caps.Keys)[i] in caps;
      CapabilityExact(list[i]);
    }
    CountedExact(PutCapability, GetCapability, MAX_CONTAINER_COUNT, list, t);
    IndexedListing(KeyOf, caps, InOrder(caps.Keys));
  }

  function PutCapabilities(caps: map<Str, Capability>, t: seq<byte>): (r: seq<byte>)
    ensures StorableCapabilities(caps) ==> GetCapabilities(r) == Ok(Taken(caps, t))
  {
    assert StorableCapabilities(caps) ==> GetCapabilities(PutCounted(PutCapability, CapabilityList(caps), t)) == Ok(Taken(caps, t)) by {
      if StorableCapabilities(caps) {
        CapabilitiesExact(caps, t);
      }
    }
    PutCounted(PutCapability, CapabilityList(caps), t)
  }

  const MAX_DEVICE_CLASSES := 64
  const MAX_EXECUTION_MODELS := 16

  function PutIds(ids: seq<u64>, t: seq<byte>): (r: seq<byte>)
    ensures |ids| <= MAX_CONTAINER_COUNT ==> GetIds(r) == Ok(Taken(ids, t))
  {
    assert |ids| <= MAX_CONTAINER_COUNT ==> GetIds(PutCounted(PutU64, ids, t)) == Ok(Taken(ids, t)) by {
      if |ids| <= MAX_CONTAINER_COUNT {
        IdsExact(ids, t);
      }
    }
    PutCounted(PutU64, ids, t)
  }

  function GetIds(bs: seq<byte>): Result<Taken<seq<u64>>> {
    GetCounted(GetU64, MAX_CONTAINER_COUNT, bs)
  }

  function PutCodes(codes: seq<byte>, t: seq<byte>): (r: seq<byte>)
    ensures forall bound: nat :: |codes| <= bound <= MAX_CONTAINER_COUNT ==> GetCodes(bound, r) == Ok(Taken(codes, t))
  {
    assert forall bound: nat :: |codes| <= bound <= MAX_CONTAINER_COUNT ==>
        GetCodes(bound, PutCounted(PutU8, codes, t)) == Ok(Taken(codes, t)) by {
      forall bound: nat | |codes| <= bound <= MAX_CONTAINER_COUNT
        ensures GetCodes(bound, PutCounted(PutU8, codes, t)) == Ok(Taken(codes, t))
      {
        CodesExact(codes, bound, t);
      }
    }
    PutCounted(PutU8, codes, t)
  }

  function GetCodes(bound: nat, bs: seq<byte>): Result<Taken<seq<byte>>> {
    GetCounted(GetU8, bound, bs)
  }

  function PutStrings(ss: seq<Str>, t: seq<byte>): (r: seq<byte>)
    ensures StorableStrings(ss) ==> GetStrings(r) == Ok(Taken(ss, t))
  {
    assert StorableStrings(ss) ==> GetStrings(PutCounted(PutStr, ss, t)) == Ok(Taken(ss, t)) by {
      if StorableStrings(ss) {
        StringsExact(ss, t);
      }
    }
    PutCounted(PutStr, ss, t)
  }

  function GetStrings(bs: seq<byte>): Result<Taken<seq<Str>>> {
    GetCounted(GetStr, MAX_CONTAINER_COUNT, bs)
  }

  function PutFeatures(d: DeviceFeatures, t: seq<byte>): (r: seq<byte>)
    ensures StorableFeatures(d) ==> GetFeatures(r) == Ok(Taken(d, t))
  {
    hide PutIds, GetIds, PutCapabilities, GetCapabilities, PutCodes, GetCodes, PutStrings, GetStrings, PutBool, GetBool,
         PutStr, GetStr, StorableStrings, StorableCapabilities;
    PutIds(d.ports, PutIds(d.functions, PutCapabilities(d.capabilities, PutCodes(d.offloadClasses,
    PutCodes(d.executionModels, PutStrings(d.programFormats, PutBool(d.supportsDma, PutBool(d.rdmaAdjacent,
    PutStr(d.hostComm, t)))))))))
  }

  function GetFeatures(bs: seq<byte>): Result<Taken<DeviceFeatures>> {
    var ports :- GetIds(bs);
    var functions :- GetIds(ports.rest);
    var capabilities :- GetCapabilities(functions.rest);
    var offloadClasses :- GetCodes(MAX_DEVICE_CLASSES, capabilities.rest);
    var executionModels :- GetCodes(MAX_EXECUTION_MODELS, offloadClasses.rest);
    var programFormats :- GetStrings(executionModels.rest);
    var supportsDma :- GetBool(programFormats.rest);
    var rdmaAdjacent :- GetBool(supportsDma.rest);
    var hostComm :- GetStr(rdmaAdjacent.rest);
    Ok(Taken(DeviceFeatures(ports.value, functions.value, capabilities.value, offloadClasses.value,
                            executionModels.value, programFormats.value, supportsDma.value, rdmaAdjacent.value,
                            hostComm.value), hostComm.rest))
  }

  predicate StorableFeatures(d: DeviceFeatures) {
    && |d.ports| <= MAX_CONTAINER_COUNT && |d.functions| <= MAX_CONTAINER_COUNT && StorableCapabilities(d.capabilities)
    && |d.offloadClasses| <= MAX_DEVICE_CLASSES && |d.executionModels| <= MAX_EXECUTION_MODELS
    && StorableStrings(d.programFormats) && FitsStr(d.hostComm)
  }

  function PutDeviceIsolation(d: DeviceIsolation, t: seq<byte>): (r: seq<byte>)
    ensures GetDeviceIsolation(r) == Ok(Taken(d, t))
  {
    hide PutBool, GetBool, PutU64, GetU64;
    PutBool(d.hardwareIsolation, PutU64(d.isolationDomain, PutU64(d.tenant, PutBool(d.isolationProven, t))))
  }

  function GetDeviceIsolation(bs: seq<byte>): Result<Taken<DeviceIsolation>> {
    var hardwareIsolation :- GetBool(bs);
    var isolationDomain :- GetU64(hardwareIsolation.rest);
    var tenant :- GetU64(isolationDomain.rest);
    var isolationProven :- GetBool(tenant.rest);
    Ok(Taken(DeviceIsolation(hardwareIsolation.value, isolationDomain.value, tenant.value, isolationProven.value),
             isolationProven.rest))
  }

  function PutChecked(last: byte, v: byte, t: seq<byte>): (r: seq<byte>)
    ensures 1 <= v <= last ==> GetChecked(last, r) == Ok(Taken(v, t))
  {
    PutU8(v, t)
  }

  function PutStatus(d: DeviceStatus, t: seq<byte>): (r: seq<byte>)
    ensures StorableStatus(d) ==> GetStatus(r) == Ok(Taken(d, t))
  {
    hide PutU8, GetU8, PutChecked, GetChecked, PutEnum, GetEnum, PutU64, GetU64, PutBool, GetBool, PutStr, GetStr;
    EveryEnumerator(CapabilityState.Unknown, Dpu, d.lifecycle, DeploymentState.Active);
    PutU8(d.locality, PutChecked(LAST_HEALTH, d.health, PutEnum(LIFECYCLES, d.lifecycle, PutU8(d.discoverySource,
    PutU64(d.evidenceGen, PutBool(d.evidenceFresh, PutStr(d.discoveryDetail, PutU64(d.owningWorker,
    PutU64(d.ownerWorkerBoot, t)))))))))
  }

  function GetStatus(bs: seq<byte>): Result<Taken<DeviceStatus>> {
    var locality :- GetU8(bs);
    var health :- GetChecked(LAST_HEALTH, locality.rest);
    var lifecycle :- GetEnum(LIFECYCLES, health.rest);
    var discoverySource :- GetU8(lifecycle.rest);
    var evidenceGen :- GetU64(discoverySource.rest);
    var evidenceFresh :- GetBool(evidenceGen.rest);
    var discoveryDetail :- GetStr(evidenceFresh.rest);
    var owningWorker :- GetU64(discoveryDetail.rest);
    var ownerWorkerBoot :- GetU64(owningWorker.rest);
    Ok(Taken(DeviceStatus(locality.value, health.value, lifecycle.value, discoverySource.value, evidenceGen.value,
                          evidenceFresh.value, discoveryDetail.value, owningWorker.value, ownerWorkerBoot.value),
             ownerWorkerBoot.rest))
  }

  predicate StorableStatus(d: DeviceStatus) {
    1 <= d.health <= LAST_HEALTH && FitsStr(d.discoveryDetail)
  }

  function PutDevice(d: DeviceRecord, t: seq<byte>): (r: seq<byte>)
    ensures StorableDevice(d) ==> GetDevice(r) == Ok(Taken(d, t))
  {
    hide PutIdentity, GetIdentity, PutSoftware, GetSoftware, PutCapacity, GetCapacity, PutFeatures, GetFeatures,
         PutDeviceIsolation, GetDeviceIsolation, PutStatus, GetStatus, StorableIdentity, StorableSoftware,
         StorableFeatures, StorableStatus;
    PutIdentity(d.identity, PutSoftware(d.software, PutCapacity(d.capacity, PutFeatures(d.features,
    PutDeviceIsolation(d.isolation, PutStatus(d.status, t))))))
  }

  function GetDevice(bs: seq<byte>): Result<Taken<DeviceRecord>> {
    var identity :- GetIdentity(bs);
    var software :- GetSoftware(identity.rest);
    var capacity :- GetCapacity(software.rest);
    var features :- GetFeatures(capacity.rest);
    var isolation :- GetDeviceIsolation(features.rest);
    var status :- GetStatus(isolation.rest);
    Ok(Taken(DeviceRecord(identity.value, software.value, capacity.value, features.value, isolation.value, status.value),
             status.rest))
  }

  predicate StorableDevice(d: DeviceRecord) {
    StorableIdentity(d.identity) && StorableSoftware(d.software) && StorableFeatures(d.features) && StorableStatus(d.status)
  }

  // ---- services ----

  const MAX_FALLBACK_CLASSES := 32

  function PutService(s: ServiceDefinition, t: seq<byte>): (r: seq<byte>)
    ensures StorableService(s) ==> GetService(r) == Ok(Taken(s, t))
  {
    hide PutU64, GetU64, PutChecked, GetChecked, PutRequirements, GetRequirements, PutIsolation, GetIsolation,
         PutResources, GetResources, PutU8, GetU8, PutStr, GetStr, PutBool, GetBool, PutCodes, GetCodes, PutIds, GetIds,
         StorableRequirements, StorableIsolation;
    PutU64(s.serviceId, PutU64(s.serviceGen, PutChecked(LAST_OFFLOAD_CLASS, s.offloadClass,
    PutRequirements(s.requiredCaps, PutRequirements(s.optionalCaps, PutIsolation(s.isolation, PutResources(s.resource,
    PutU8(s.executionModel, PutU64(s.minFirmwareGen, PutU64(s.minRuntimeGen, PutU64(s.requiredProgram,
    PutStr(s.requiredAbi, PutU8(s.statefulness, PutBool(s.recoverable, PutCodes(s.allowedFallbackClasses,
    PutStr(s.failurePolicy, PutIds(s.dependencies, t)))))))))))))))))
  }

  function GetService(bs: seq<byte>): Result<Taken<ServiceDefinition>> {
    var serviceId :- GetU64(bs);
    var serviceGen :- GetU64(serviceId.rest);
    var offloadClass :- GetChecked(LAST_OFFLOAD_CLASS, serviceGen.rest);
    var requiredCaps :- GetRequirements(offloadClass.rest);
    var optionalCaps :- GetRequirements(requiredCaps.rest);
    var isolation :- GetIsolation(optionalCaps.rest);
    var resource :- GetResources(isolation.rest);
    var executionModel :- GetU8(resource.rest);
    var minFirmwareGen :- GetU64(executionModel.rest);
    var minRuntimeGen :- GetU64(minFirmwareGen.rest);
    var requiredProgram :- GetU64(minRuntimeGen.rest);
    var requiredAbi :- GetStr(requiredProgram.rest);
    var statefulness :- GetU8(requiredAbi.rest);
    var recoverable :- GetBool(statefulness.rest);
    var allowedFallbackClasses :- GetCodes(MAX_FALLBACK_CLASSES, recoverable.rest);
    var failurePolicy :- GetStr(allowedFallbackClasses.rest);
    var dependencies :- GetIds(failurePolicy.rest);
    Ok(Taken(ServiceDefinition(serviceId.value, serviceGen.value, offloadClass.value, requiredCaps.value,
                               optionalCaps.value, isolation.value, resource.value, executionModel.value,
                               minFirmwareGen.value, minRuntimeGen.value, requiredProgram.value, requiredAbi.value,
                               statefulness.value, recoverable.value, allowedFallbackClasses.value,
                               failurePolicy.value, dependencies.value), dependencies.rest))
  }

  predicate StorableService(s: ServiceDefinition) {
    && 1 <= s.offloadClass <= LAST_OFFLOAD_CLASS
    && StorableRequirements(s.requiredCaps) && StorableRequirements(s.optionalCaps) && StorableIsolation(s.isolation)
    && FitsStr(s.requiredAbi) && |s.allowedFallbackClasses| <= MAX_FALLBACK_CLASSES && FitsStr(s.failurePolicy)
    && |s.dependencies| <= MAX_CONTAINER_COUNT
  }

  // ---- programs ----

  const HASH_BYTES := 32

  function PutProgram(p: ProgramArtifact, t: seq<byte>): (r: seq<byte>)
    ensures StorableProgram(p) ==> GetProgram(r) == Ok(Taken(p, t))
  {
    hide PutU64, GetU64, PutU8, GetU8, PutStr, GetStr, PutRaw, GetRaw, PutRequirements, GetRequirements, StorableRequirements;
    PutU64(p.programId, PutU64(p.programGen, PutU64(p.artifactId, PutU64(p.artifactGen, PutU8(p.artifactType,
    PutStr(p.version, PutRaw(p.contentHash, PutStr(p.targetArchitecture, PutStr(p.runtimeAbi,
    PutRequirements(p.requiredCaps, PutU64(p.minFirmwareGen, PutStr(p.provenance, PutStr(p.sizeHint, t)))))))))))))
  }

  function GetProgram(bs: seq<byte>): Result<Taken<ProgramArtifact>> {
    var programId :- GetU64(bs);
    var programGen :- GetU64(programId.rest);
    var artifactId :- GetU64(programGen.rest);
    var artifactGen :- GetU64(artifactId.rest);
    var artifactType :- GetU8(artifactGen.rest);
    var version :- GetStr(artifactType.rest);
    var contentHash :- GetRaw(version.rest, HASH_BYTES);
    var targetArchitecture :- GetStr(contentHash.rest);
    var runtimeAbi :- GetStr(targetArchitecture.rest);
    var requiredCaps :- GetRequirements(runtimeAbi.rest);
    var minFirmwareGen :- GetU64(requiredCaps.rest);
    var provenance :- GetStr(minFirmwareGen.rest);
    var sizeHint :- GetStr(provenance.rest);
    Ok(Taken(ProgramArtifact(programId.value, programGen.value, artifactId.value, artifactGen.value,
                             artifactType.value, version.value, contentHash.value, targetArchitecture.value,
                             runtimeAbi.value, requiredCaps.value, minFirmwareGen.value, provenance.value,
                             sizeHint.value), sizeHint.rest))
  }

  predicate StorableProgram(p: ProgramArtifact) {
    && FitsStr(p.version) && |p.contentHash| == HASH_BYTES && FitsStr(p.targetArchitecture) && FitsStr(p.runtimeAbi)
    && StorableRequirements(p.requiredCaps) && FitsStr(p.provenance) && FitsStr(p.sizeHint)
  }

  /** One generation of a program as stored: the artifact and whether it is the current one. */
  datatype StoredGeneration = StoredGeneration(generation: u64, artifact: ProgramArtifact, current: bool)

  datatype StoredProgram = StoredProgram(programId: u64, generations: seq<StoredGeneration>)

  const MAX_GENERATIONS := 256

  function PutGeneration(g: StoredGeneration, t: seq<byte>): (r: seq<byte>)
    ensures StorableProgram(g.artifact) ==> GetGeneration(r) == Ok(Taken(g, t))
  {
    hide PutU64, GetU64, PutProgram, GetProgram, StorableProgram, PutBool, GetBool;
    PutU64(g.generation, PutProgram(g.artifact, PutBool(g.current, t)))
  }

  function GetGeneration(bs: seq<byte>): Result<Taken<StoredGeneration>> {
    var generation :- GetU64(bs);
    var artifact :- GetProgram(generation.rest);
    var current :- GetBool(artifact.rest);
    Ok(Taken(StoredGeneration(generation.value, artifact.value, current.value), current.rest))
  }

  predicate StorableGenerations(p: StoredProgram) {
    |p.generations| <= MAX_GENERATIONS && forall i :: 0 <= i < |p.generations| ==> StorableProgram(p.generations[i].artifact)
  }

  function PutStoredProgram(p: StoredProgram, t: seq<byte>): seq<byte> {
    PutU64(p.programId, PutCounted(PutGeneration, p.generations, t))
  }

  function GetStoredProgram(bs: seq<byte>): Result<Taken<StoredProgram>> {
    var programId :- GetU64(bs);
    var generations :- GetCounted(GetGeneration, MAX_GENERATIONS, programId.rest);
    Ok(Taken(StoredProgram(programId.value, generations.value), generations.rest))
  }

  lemma StoredProgramExact(p: StoredProgram)
    requires StorableGenerations(p)
    ensures Exact(PutStoredProgram, GetStoredProgram, p)
  {
    hide PutU64, GetU64, PutCounted, GetCounted, PutGeneration, GetGeneration, StorableProgram;
    forall i | 0 <= i < |p.generations| ensures Exact(PutGeneration, GetGeneration, p.generations[i]) {
      GenerationExact(p.generations[i]);
    }
    forall t: seq<byte> ensures GetStoredProgram(PutStoredProgram(p, t)) == Ok(Taken(p, t)) {
      CountedExact(PutGeneration, GetGeneration, MAX_GENERATIONS, p.generations, t);
    }
  }

  lemma GenerationExact(g: StoredGeneration)
    requires StorableProgram(g.artifact)
    ensures Exact(PutGeneration, GetGeneration, g)
  {
    hide PutGeneration, GetGeneration, StorableProgram;
  }

  // ---- deployments and usage ----

  function PutOptional(a: Option<u64>, t: seq<byte>): (r: seq<byte>)
    ensures GetOptional(r) == Ok(Taken(a, t))
  {
    hide PutBool, GetBool, PutU64, GetU64;
    PutBool(a.Some?, if a.Some? then PutU64(a.value, t) else t)
  }

  function GetOptional(bs: seq<byte>): Result<Taken<Option<u64>>> {
    var present :- GetBool(bs);
    if !present.value then Ok(Taken(None, present.rest))
    else
      var id :- GetU64(present.rest);
      Ok(Taken(Some(id.value), id.rest))
  }

  function PutBinding(b: DeploymentBinding, t: seq<byte>): (r: seq<byte>)
    ensures GetBinding(r) == Ok(Taken(b, t))
  {
    hide PutU64, GetU64, PutResources, GetResources;
    PutU64(b.deploymentId, PutU64(b.generation, PutU64(b.attemptId, PutU64(b.service, PutU64(b.serviceGen,
    PutU64(b.program, PutU64(b.programGen, PutU64(b.artifact, PutU64(b.artifactGen, PutU64(b.device,
    PutU64(b.deviceGen, PutU64(b.deviceBoot, PutU64(b.tenant, PutU64(b.isolationDomain,
    PutResources(b.resources, t)))))))))))))))
  }

  /** The first half of a binding: what is deployed. */
  datatype BindingHead = BindingHead(
    deploymentId: u64, generation: u64, attemptId: u64, service: u64, serviceGen: u64, program: u64, programGen: u64)

  function GetBindingHead(bs: seq<byte>): Result<Taken<BindingHead>> {
    hide GetU64;
    var deploymentId :- GetU64(bs);
    var generation :- GetU64(deploymentId.rest);
    var attemptId :- GetU64(generation.rest);
    var service :- GetU64(attemptId.rest);
    var serviceGen :- GetU64(service.rest);
    var program :- GetU64(serviceGen.rest);
    var programGen :- GetU64(program.rest);
    Ok(Taken(BindingHead(deploymentId.value, generation.value, attemptId.value, service.value, serviceGen.value,
                         program.value, programGen.value), programGen.rest))
  }

  function GetBinding(bs: seq<byte>): Result<Taken<DeploymentBinding>> {
    hide GetU64, GetResources, GetBindingHead;
    var head :- GetBindingHead(bs);
    var artifact :- GetU64(head.rest);
    var artifactGen :- GetU64(artifact.rest);
    var device :- GetU64(artifactGen.rest);
    var deviceGen :- GetU64(device.rest);
    var deviceBoot :- GetU64(deviceGen.rest);
    var tenant :- GetU64(deviceBoot.rest);
    var isolationDomain :- GetU64(tenant.rest);
    var resources :- GetResources(isolationDomain.rest);
    var h := head.value;
    Ok(Taken(DeploymentBinding(h.deploymentId, h.generation, h.attemptId, h.service, h.serviceGen, h.program,
                               h.programGen, artifact.value, artifactGen.value, device.value, deviceGen.value,
                               deviceBoot.value, tenant.value, isolationDomain.value, resources.value),
             resources.rest))
  }

  function PutDeployment(d: Deployment, t: seq<byte>): (r: seq<byte>)
    ensures GetDeployment(r) == Ok(Taken(d, t))
  {
    hide PutBinding, GetBinding, PutEnum, GetEnum, PutOptional, GetOptional, PutU64, GetU64, PutBool, GetBool;
    EveryEnumerator(CapabilityState.Unknown, Dpu, DeviceLifecycle.Ready, d.state);
    PutBinding(d.binding, PutEnum(DEPLOYMENT_STATES, d.state, PutOptional(d.activation, PutU64(d.activationGen,
    PutU64(d.epoch, PutU64(d.workerBoot, PutU64(d.evidenceGen, PutU64(d.policyGen, PutBool(d.authoritative,
    PutU64(d.createdMs, PutU64(d.updatedMs, t)))))))))))
  }

  function GetDeployment(bs: seq<byte>): Result<Taken<Deployment>> {
    var binding :- GetBinding(bs);
    var state :- GetEnum(DEPLOYMENT_STATES, binding.rest);
    var activation :- GetOptional(state.rest);
    var activationGen :- GetU64(activation.rest);
    var epoch :- GetU64(activationGen.rest);
    var workerBoot :- GetU64(epoch.rest);
    var evidenceGen :- GetU64(workerBoot.rest);
    var policyGen :- GetU64(evidenceGen.rest);
    var authoritative :- GetBool(policyGen.rest);
    var createdMs :- GetU64(authoritative.rest);
    var updatedMs :- GetU64(createdMs.rest);
    Ok(Taken(Deployment(binding.value, state.value, activation.value, activationGen.value, epoch.value,
                        workerBoot.value, evidenceGen.value, policyGen.value, authoritative.value, createdMs.value,
                        updatedMs.value), updatedMs.rest))
  }

  datatype StoredUsage = StoredUsage(device: u64, used: Resources)

  function PutUsage(u: StoredUsage, t: seq<byte>): (r: seq<byte>)
    ensures GetUsage(r) == Ok(Taken(u, t))
  {
    hide PutU64, GetU64, PutResources, GetResources;
    PutU64(u.device, PutResources(u.used, t))
  }

  function GetUsage(bs: seq<byte>): Result<Taken<StoredUsage>> {
    var device :- GetU64(bs);
    var used :- GetResources(device.rest);
    Ok(Taken(StoredUsage(device.value, used.value), used.rest))
  }

  // ---- policy ----

  const MAX_WEIGHTS := 64
  const TWO_32 := 0x1_0000_0000

  /** A weight is stored as the low 32 bits of its two's complement. */
  function PutI32(v: i64, t: seq<byte>): (r: seq<byte>)
    ensures FitsI32(v) ==> GetI32(r) == Ok(Taken(v, t))
  {
    PutU32(v % TWO_32, t)
  }

  function GetI32(bs: seq<byte>): Result<Taken<i64>> {
    var v :- GetU32(bs);
    Ok(Taken(if v.value < 0x8000_0000 then v.value else v.value - TWO_32, v.rest))
  }

  predicate FitsI32(v: i64) {
    -0x8000_0000 <= v < 0x8000_0000
  }

  function PutWeight(w: RankWeight, t: seq<byte>): (r: seq<byte>)
    ensures FitsI32(w.weight) ==> GetWeight(r) == Ok(Taken(w, t))
  {
    hide PutU8, GetU8, PutI32, GetI32;
    PutU8(w.factor, PutI32(w.weight, t))
  }

  function GetWeight(bs: seq<byte>): Result<Taken<RankWeight>> {
    var factor :- GetU8(bs);
    var weight :- GetI32(factor.rest);
    Ok(Taken(RankWeight(factor.value, weight.value), weight.rest))
  }

  predicate StorableWeights(ws: seq<RankWeight>) {
    |ws| <= MAX_WEIGHTS && forall i :: 0 <= i < |ws| ==> FitsI32(ws[i].weight)
  }

  function PutWeights(ws: seq<RankWeight>, t: seq<byte>): (r: seq<byte>)
    ensures StorableWeights(ws) ==> GetWeights(r) == Ok(Taken(ws, t))
  {
    assert StorableWeights(ws) ==> GetWeights(PutCounted(PutWeight, ws, t)) == Ok(Taken(ws, t)) by {
      if StorableWeights(ws) {
        WeightsExact(ws, t);
      }
    }
    PutCounted(PutWeight, ws, t)
  }

  function GetWeights(bs: seq<byte>): Result<Taken<seq<RankWeight>>> {
    GetCounted(GetWeight, MAX_WEIGHTS, bs)
  }

  lemma WeightsExact(ws: seq<RankWeight>, t: seq<byte>)
    requires StorableWeights(ws)
    ensures GetWeights(PutCounted(PutWeight, ws, t)) == Ok(Taken(ws, t))
  {
    hide PutWeight, GetWeight;
    CountedExact(PutWeight, GetWeight, MAX_WEIGHTS, ws, t);
  }

  /** The stored part of a policy; hard capabilities and preferred devices are not stored. */
  function PutPolicy(p: Policy, t: seq<byte>): (r: seq<byte>)
    ensures StorableWeights(p.weights) ==> GetPolicy(r) == Ok(Taken(p.(hardCaps := [], preferredDevices := []), t))
  {
    hide PutU64, GetU64, PutBool, GetBool, PutU8, GetU8, PutWeights, GetWeights, StorableWeights;
    PutU64(p.generation, PutU64(p.version, PutBool(p.allowHostFallback, PutBool(p.requireAuthoritativeEvidence,
    PutBool(p.preferWarmDeployments, PutBool(p.preferDedicatedIsolation, PutBool(p.requireOffloadForRequired,
    PutU64(p.minHeadroom, PutU64(p.maxQueuePressure, PutU8(p.minDeviceHealth, PutWeights(p.weights, t)))))))))))
  }

  function GetPolicy(bs: seq<byte>): Result<Taken<Policy>> {
    var generation :- GetU64(bs);
    var version :- GetU64(generation.rest);
    var allowHostFallback :- GetBool(version.rest);
    var requireAuthoritativeEvidence :- GetBool(allowHostFallback.rest);
    var preferWarmDeployments :- GetBool(requireAuthoritativeEvidence.rest);
    var preferDedicatedIsolation :- GetBool(preferWarmDeployments.rest);
    var requireOffloadForRequired :- GetBool(preferDedicatedIsolation.rest);
    var minHeadroom :- GetU64(requireOffloadForRequired.rest);
    var maxQueuePressure :- GetU64(minHeadroom.rest);
    var minDeviceHealth :- GetU8(maxQueuePressure.rest);
    var weights :- GetWeights(minDeviceHealth.rest);
    Ok(Taken(Policy(generation.value, version.value, allowHostFallback.value, requireAuthoritativeEvidence.value,
                    preferWarmDeployments.value, preferDedicatedIsolation.value, requireOffloadForRequired.value,
                    minHeadroom.value, maxQueuePressure.value, minDeviceHealth.value, weights.value, [], []),
             weights.rest))
  }

  lemma WeightsRefused(ws: seq<RankWeight>, t: seq<byte>)
    requires MAX_WEIGHTS < |ws| < TWO_32
    ensures GetWeights(PutWeights(ws, t)) == Err(CORRUPT_STATE)
  {
    hide PutMany, GetMany, PutWeight, GetWeight, PutU32, GetU32;
  }

  /** A policy with too many weights is written, but does not read back. */
  lemma PolicyRefused(p: Policy, t: seq<byte>)
    requires MAX_WEIGHTS < |p.weights| < TWO_32
    ensures GetPolicy(PutPolicy(p, t)) == Err(CORRUPT_STATE)
  {
    hide PutU64, GetU64, PutBool, GetBool, PutU8, GetU8, PutWeights, GetWeights;
    WeightsRefused(p.weights, t);
  }

  // ---- what a writer accepts: it looks at nothing but the lengths of strings ----

  predicate WritableCapability(c: Capability) {
    FitsStr(c.key) && FitsStr(c.detail)
  }

  predicate WritableStrings(ss: seq<Str>) {
    Every(FitsStr, ss)
  }

  predicate WritableRequirement(c: CapabilityRequirement) {
    FitsStr(c.key)
  }

  predicate WritableRequirements(cs: seq<CapabilityRequirement>) {
    Every(WritableRequirement, cs)
  }

  predicate WritableCapabilities(caps: map<Str, Capability>) {
    forall k :: k in caps ==> WritableCapability(caps[k])
  }

  /** What holds of every record holds of every one listed, and the other way round. */
  lemma EveryListed<K, V>(ok: V -> bool, m: map<K, V>, keys: seq<K>)
    requires (forall k :: k in keys ==> k in m) && (forall k :: k in m ==> k in keys)
    ensures Every(ok, ValuesAt(m, keys)) <==> forall k :: k in m ==> ok(m[k])
  {
    var list := ValuesAt(m, keys);
    if Every(ok, list) {
      forall k | k in m ensures ok(m[k]) {
        var i :| 0 <= i < |keys| && keys[i] == k;
        assert ok(list[i]);
      }
    } else {
      var i :| 0 <= i < |list| && !ok(list[i]);
      assert list[i] == m[keys[i]];
    }
  }

  predicate WritableFeatures(d: DeviceFeatures) {
    WritableCapabilities(d.capabilities) && WritableStrings(d.programFormats) && FitsStr(d.hostComm)
  }

  predicate WritableDevice(d: DeviceRecord) {
    && StorableIdentity(d.identity) && StorableSoftware(d.software) && WritableFeatures(d.features)
    && FitsStr(d.status.discoveryDetail)
  }

  predicate WritableService(s: ServiceDefinition) {
    && WritableRequirements(s.requiredCaps) && WritableRequirements(s.optionalCaps) && StorableIsolation(s.isolation)
    && FitsStr(s.requiredAbi) && FitsStr(s.failurePolicy)
  }

  predicate WritableProgram(p: ProgramArtifact) {
    && FitsStr(p.version) && FitsStr(p.targetArchitecture) && FitsStr(p.runtimeAbi)
    && WritableRequirements(p.requiredCaps) && FitsStr(p.provenance) && FitsStr(p.sizeHint)
  }

  lemma StorableDeviceIsWritable(d: DeviceRecord)
    requires StorableDevice(d)
    ensures WritableDevice(d)
  {
  }

  lemma StorableServiceIsWritable(s: ServiceDefinition)
    requires StorableService(s)
    ensures WritableService(s)
  {
  }

  lemma StorableProgramIsWritable(p: ProgramArtifact)
    requires StorableProgram(p)
    ensures WritableProgram(p)
  {
  }
}
