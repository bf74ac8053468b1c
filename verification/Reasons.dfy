/** Why a device is rejected: each reason, and exactly when it is given. */
module Reasons {
  import opened Base
  import opened Resource
  import opened Records
  import opened Eligibility
  import Headroom

  /** Some requirement that is not optional names a capability in this state; a missing one is unsupported. */
  predicate Lacks(caps: map<Str, Capability>, reqs: seq<CapabilityRequirement>, state: CapabilityState) {
    exists i :: 0 <= i < |reqs| && !reqs[i].isOptional
                && if reqs[i].key in caps then caps[reqs[i].key].state == state else state.Unsupported?
  }

  /** Some requirement that is not optional names a supported capability in too low a version. */
  predicate Outdated(caps: map<Str, Capability>, reqs: seq<CapabilityRequirement>) {
    exists i :: 0 <= i < |reqs| && !reqs[i].isOptional && reqs[i].key in caps && caps[reqs[i].key].state.Supported?
                && caps[reqs[i].key].version < reqs[i].minVersion
  }

  predicate LacksHard(caps: map<Str, Capability>, reqs: seq<CapabilityRequirement>) {
    exists i :: 0 <= i < |reqs| && !(reqs[i].key in caps && caps[reqs[i].key].state.Supported?)
  }

  /** What is wrong with a device when it is rejected for r. */
  ghost predicate Because(snap: Snapshot, req: OffloadRequest, did: u64, r: RejectionReason)
    requires did in snap.devices
  {
    var d, u, p := snap.devices[did], UsageOf(snap, did), snap.policy;
    var l, isFresh, caps := d.status.lifecycle, d.status.evidenceFresh, d.features.capabilities;
    var svc, wanted, prog := ServiceOf(snap, req), WantedProgram(snap, req), CurrentProgram(snap, req);
    var proven := d.isolation.hardwareIsolation && d.isolation.isolationProven && isFresh;
    match r
    case DEVICE_CLASS_MISMATCH => req.requiredDeviceClass.Some? && req.requiredDeviceClass.value != d.identity.deviceClass
    case PINNED_DEVICE_MISMATCH => req.pinnedDevice.Some? && req.pinnedDevice.value != did
    case DEVICE_DRAINING => l.Draining?
    case DEVICE_FAILED => l.Failed?
    case DEVICE_EVIDENCE_STALE => l.RevalidationRequired? || (!l.Draining? && !l.Failed? && !isFresh)
    case DEVICE_NOT_READY => isFresh && !l.Ready? && !l.Draining? && !l.Failed? && !l.RevalidationRequired?
    case DEVICE_HEALTH_THRESHOLD => l.Ready? && !NoWorse(d.status.health, p.minDeviceHealth, HEALTH_UNKNOWN)
    case REQUIRED_CAPABILITY_UNSUPPORTED =>
      || (req.offloadClass != CUSTOM_INFRASTRUCTURE_SERVICE && req.offloadClass !in d.features.offloadClasses)
      || Lacks(caps, RequiredCaps(snap, req), CapabilityState.Unsupported) || LacksHard(caps, p.hardCaps)
    case REQUIRED_CAPABILITY_UNKNOWN => Lacks(caps, RequiredCaps(snap, req), CapabilityState.Unknown)
    case REQUIRED_CAPABILITY_STALE => Lacks(caps, RequiredCaps(snap, req), CapabilityState.NeedsRevalidation)
    case CAPABILITY_VERSION_MISMATCH => Outdated(caps, RequiredCaps(snap, req))
    case ARTIFACT_INCOMPATIBLE => wanted.Some? && prog.None?
    case PROGRAM_GENERATION_STALE =>
      wanted.Some? && prog.Some? && prog.value.programGen != CurrentGenIn(snap.currentProgramGen, wanted.value)
    case ARCHITECTURE_INCOMPATIBLE =>
      && wanted.Some? && prog.Some? && prog.value.programGen == CurrentGenIn(snap.currentProgramGen, wanted.value)
      && d.software.architecture != [] && prog.value.targetArchitecture != []
      && d.software.architecture != prog.value.targetArchitecture && prog.value.targetArchitecture != ANY_ARCHITECTURE
    case ABI_INCOMPATIBLE =>
      && wanted.Some? && prog.Some? && prog.value.programGen == CurrentGenIn(snap.currentProgramGen, wanted.value)
      && req.requiredAbi != [] && prog.value.runtimeAbi != [] && prog.value.runtimeAbi != req.requiredAbi
    case FIRMWARE_INCOMPATIBLE =>
      || (svc.Some? && d.software.firmwareGen < svc.value.minFirmwareGen)
      || (prog.Some? && d.software.firmwareGen < prog.value.minFirmwareGen)
    case RUNTIME_INCOMPATIBLE => svc.Some? && d.software.runtimeGen < svc.value.minRuntimeGen
    case ISOLATION_UNPROVEN => !Isolates(if svc.Some? then svc.value.isolation else req.isolation, d)
    case ISOLATION_DOMAIN_MISMATCH => Clashes(req.isolationDomain, d.isolation.isolationDomain)
    case TENANT_MISMATCH => Clashes(req.tenant, d.isolation.tenant)
    case PORT_MISMATCH => req.requiredPort.Some? && req.requiredPort.value !in d.features.ports
    case FUNCTION_MISMATCH => req.requiredFunction.Some? && req.requiredFunction.value !in d.features.functions
    case HEADROOM_LOW => !LeavesHeadroom(d.capacity.resources, u, p.minHeadroom)
    case QUEUE_PRESSURE_HIGH => !QueuesWithin(d.capacity.resources, u, p.maxQueuePressure)
    case SECURITY_MODE_INCOMPATIBLE => (req.security == SECURE || req.security == ISOLATED) && !proven
    case LOCALITY_INSUFFICIENT =>
      req.minLocality != LOCALITY_UNKNOWN && !NoWorse(d.status.locality, req.minLocality, LOCALITY_UNKNOWN)
    case DEPENDENCY_UNAVAILABLE => svc.Some? && exists v :: v in svc.value.dependencies && v !in snap.services
    case RESOURCE_INSUFFICIENT => !Admits(d.capacity.resources, u, if svc.Some? then svc.value.resource else req.resource)
    case OFFLOAD_REQUIRED_UNAVAILABLE => false
  }

  // ---- the checks of capabilities ----

  lemma OneCheck(caps: map<Str, Capability>, c: CapabilityRequirement, r: RejectionReason)
    ensures r in CapabilityCheck(caps, c) <==>
            !c.isOptional &&
            match r
            case REQUIRED_CAPABILITY_UNSUPPORTED => c.key !in caps || caps[c.key].state.Unsupported?
            case REQUIRED_CAPABILITY_UNKNOWN => c.key in caps && caps[c.key].state.Unknown?
            case REQUIRED_CAPABILITY_STALE => c.key in caps && caps[c.key].state.NeedsRevalidation?
            case CAPABILITY_VERSION_MISMATCH => c.key in caps && caps[c.key].state.Supported? && caps[c.key].version < c.minVersion
            case _ => false
  {
  }

  lemma {:induction false} SomeCheck(caps: map<Str, Capability>, reqs: seq<CapabilityRequirement>, r: RejectionReason)
    ensures r in CapabilityChecks(caps, reqs) <==> exists i :: 0 <= i < |reqs| && r in CapabilityCheck(caps, reqs[i])
    decreases |reqs|
  {
    hide CapabilityCheck;
    if reqs != [] {
      var most := reqs[..|reqs| - 1];
      SomeCheck(caps, most, r);
      assert forall i :: 0 <= i < |most| ==> most[i] == reqs[i];
    }
  }

  lemma {:induction false} SomePolicy(caps: map<Str, Capability>, reqs: seq<CapabilityRequirement>, r: RejectionReason)
    ensures r in PolicyChecks(caps, reqs) <==> r.REQUIRED_CAPABILITY_UNSUPPORTED? && LacksHard(caps, reqs)
    decreases |reqs|
  {
    if reqs != [] {
      var most := reqs[..|reqs| - 1];
      SomePolicy(caps, most, r);
      assert forall i :: 0 <= i < |most| ==> most[i] == reqs[i];
    }
  }

  lemma CapabilityReasons(caps: map<Str, Capability>, reqs: seq<CapabilityRequirement>, r: RejectionReason)
    ensures r in CapabilityChecks(caps, reqs) <==>
            match r
            case REQUIRED_CAPABILITY_UNSUPPORTED => Lacks(caps, reqs, CapabilityState.Unsupported)
            case REQUIRED_CAPABILITY_UNKNOWN => Lacks(caps, reqs, CapabilityState.Unknown)
            case REQUIRED_CAPABILITY_STALE => Lacks(caps, reqs, CapabilityState.NeedsRevalidation)
            case CAPABILITY_VERSION_MISMATCH => Outdated(caps, reqs)
            case _ => false
  {
    hide CapabilityCheck, CapabilityChecks;
    SomeCheck(caps, reqs, r);
    forall i | 0 <= i < |reqs| ensures r in CapabilityCheck(caps, reqs[i]) ==> !reqs[i].isOptional {
      OneCheck(caps, reqs[i], r);
    }
    forall c { OneCheck(caps, c, r); }
  }

  // ---- group by group ----

  lemma PlacementReasons(snap: Snapshot, req: OffloadRequest, did: u64, r: RejectionReason)
    requires did in snap.devices
    ensures r in Placement(did, snap.devices[did], req) || r in AttachmentFit(snap.devices[did], req)
            <==> (r.DEVICE_CLASS_MISMATCH? || r.PINNED_DEVICE_MISMATCH? || r.PORT_MISMATCH? || r.FUNCTION_MISMATCH?)
                 && Because(snap, req, did, r)
  {
    hide NoWorse, ServiceOf, WantedProgram, CurrentProgram, RequiredCaps, UsageOf, LeavesHeadroom, QueuesWithin, Admits, Isolates,
         Clashes, Lacks, Outdated, LacksHard, CurrentGenIn;
  }

  lemma ClassReason(d: DeviceRecord, req: OffloadRequest, r: RejectionReason)
    ensures r in ClassSupport(d, req) <==>
            r.REQUIRED_CAPABILITY_UNSUPPORTED? && req.offloadClass != CUSTOM_INFRASTRUCTURE_SERVICE
            && req.offloadClass !in d.features.offloadClasses
  {
  }

  lemma ReadinessReasons(snap: Snapshot, req: OffloadRequest, did: u64, r: RejectionReason)
    requires did in snap.devices
    ensures r in Readiness(snap.devices[did], snap.policy.minDeviceHealth)
            <==> (r.DEVICE_DRAINING? || r.DEVICE_FAILED? || r.DEVICE_EVIDENCE_STALE? || r.DEVICE_NOT_READY?
                  || r.DEVICE_HEALTH_THRESHOLD?) && Because(snap, req, did, r)
  {
    hide NoWorse, ServiceOf, WantedProgram, CurrentProgram, RequiredCaps, UsageOf, LeavesHeadroom, QueuesWithin, Admits, Isolates,
         Clashes, Lacks, Outdated, LacksHard, CurrentGenIn, HealthSeverity;
    HealthExactly(snap.devices[did].status.health, snap.policy.minDeviceHealth);
  }

  lemma SecurityReasons(snap: Snapshot, req: OffloadRequest, did: u64, r: RejectionReason)
    requires did in snap.devices
    ensures r in SecurityAndLocality(snap.devices[did], req)
            <==> (r.SECURITY_MODE_INCOMPATIBLE? || r.LOCALITY_INSUFFICIENT?) && Because(snap, req, did, r)
  {
    hide NoWorse, ServiceOf, WantedProgram, CurrentProgram, RequiredCaps, UsageOf, LeavesHeadroom, QueuesWithin, Admits, Isolates,
         Clashes, Lacks, Outdated, LacksHard, CurrentGenIn, LocalityValue;
    LocalityExactly(snap.devices[did].status.locality, req.minLocality);
  }

  lemma ProgramReasons(snap: Snapshot, req: OffloadRequest, did: u64, r: RejectionReason)
    requires did in snap.devices
    ensures r in ProgramFit(snap, snap.devices[did], req)
            <==> (r.ARTIFACT_INCOMPATIBLE? || r.PROGRAM_GENERATION_STALE? || r.ARCHITECTURE_INCOMPATIBLE? || r.ABI_INCOMPATIBLE?)
                 && Because(snap, req, did, r)
  {
    hide NoWorse, ServiceOf, WantedProgram, CurrentProgram, RequiredCaps, UsageOf, LeavesHeadroom, QueuesWithin, Admits, Isolates,
         Clashes, Lacks, Outdated, LacksHard, CurrentGenIn;
  }

  lemma FloorReasons(snap: Snapshot, req: OffloadRequest, did: u64, r: RejectionReason)
    requires did in snap.devices
    ensures r in SoftwareFloors(snap, snap.devices[did], req)
            <==> (r.FIRMWARE_INCOMPATIBLE? || r.RUNTIME_INCOMPATIBLE?) && Because(snap, req, did, r)
  {
    hide NoWorse, ServiceOf, WantedProgram, CurrentProgram, RequiredCaps, UsageOf, LeavesHeadroom, QueuesWithin, Admits, Isolates,
         Clashes, Lacks, Outdated, LacksHard, CurrentGenIn;
  }

  lemma IsolationReasons(snap: Snapshot, req: OffloadRequest, did: u64, r: RejectionReason)
    requires did in snap.devices
    ensures r in IsolationFit(snap, snap.devices[did], req)
            <==> (r.ISOLATION_UNPROVEN? || r.ISOLATION_DOMAIN_MISMATCH? || r.TENANT_MISMATCH?) && Because(snap, req, did, r)
  {
    hide NoWorse, ServiceOf, WantedProgram, CurrentProgram, RequiredCaps, UsageOf, LeavesHeadroom, QueuesWithin, Admits, Isolates,
         Lacks, Outdated, LacksHard, CurrentGenIn, IsolationSpec.SatisfiedBy, IsolationProven;
    var svc := ServiceOf(snap, req);
    IsolatesExactly(if svc.Some? then svc.value.isolation else req.isolation, snap.devices[did]);
  }

  lemma LoadReasons(snap: Snapshot, req: OffloadRequest, did: u64, r: RejectionReason)
    requires did in snap.devices
    ensures r in LoadLimits(snap.policy, snap.devices[did], UsageOf(snap, did))
            <==> (r.HEADROOM_LOW? || r.QUEUE_PRESSURE_HIGH?) && Because(snap, req, did, r)
  {
    hide NoWorse, ServiceOf, WantedProgram, CurrentProgram, RequiredCaps, UsageOf, LeavesHeadroom, QueuesWithin, Admits, Isolates,
         Clashes, Lacks, Outdated, LacksHard, CurrentGenIn, Headroom.HeadroomPct,
         QueuePressure;
    Limits(snap.devices[did], UsageOf(snap, did), snap.policy);
  }

  lemma AvailabilityReasons(snap: Snapshot, req: OffloadRequest, did: u64, r: RejectionReason)
    requires did in snap.devices
    ensures r in Availability(snap, snap.devices[did], UsageOf(snap, did), req)
            <==> (r.DEPENDENCY_UNAVAILABLE? || r.RESOURCE_INSUFFICIENT?) && Because(snap, req, did, r)
  {
    hide NoWorse, ServiceOf, WantedProgram, CurrentProgram, RequiredCaps, UsageOf, LeavesHeadroom, QueuesWithin, Admits, Isolates,
         Clashes, Lacks, Outdated, LacksHard, CurrentGenIn;
  }

  lemma Limits(d: DeviceRecord, u: Resources, p: Policy)
    ensures Headroom.HeadroomPct(d.capacity.resources, u) >= p.minHeadroom as real <==> LeavesHeadroom(d.capacity.resources, u, p.minHeadroom)
    ensures QueuePressure(d, u) * 100.0 <= p.maxQueuePressure as real <==> QueuesWithin(d.capacity.resources, u, p.maxQueuePressure)
  {
    hide Headroom.HeadroomPct, QueuePressure, QueuesWithin, Headroom.Free;
    Headroom.HeadroomAtLeast(d.capacity.resources, u, p.minHeadroom);
    PressureExactly(d, u, p.maxQueuePressure);
  }

  /** A device is rejected for a reason exactly when that is what is wrong with it. */
  lemma ReasonsExactly(snap: Snapshot, req: OffloadRequest, did: u64, r: RejectionReason)
    requires did in snap.devices
    ensures r in Rejections(snap, req, did) <==> Because(snap, req, did, r)
  {
    hide Placement, Readiness, ClassSupport, ProgramFit, SoftwareFloors, CapabilityChecks, PolicyChecks, IsolationFit,
         AttachmentFit, LoadLimits, SecurityAndLocality, Availability, UsageOf, RequiredCaps, NoWorse, ServiceOf, WantedProgram,
         CurrentProgram, LeavesHeadroom, QueuesWithin, Admits, Isolates, Clashes, Lacks, Outdated, LacksHard, CurrentGenIn;
    PlacementReasons(snap, req, did, r);
    ClassReason(snap.devices[did], req, r);
    ReadinessReasons(snap, req, did, r);
    SecurityReasons(snap, req, did, r);
    ProgramReasons(snap, req, did, r);
    FloorReasons(snap, req, did, r);
    IsolationReasons(snap, req, did, r);
    LoadReasons(snap, req, did, r);
    AvailabilityReasons(snap, req, did, r);
    CapabilityReasons(snap.devices[did].features.capabilities, RequiredCaps(snap, req), r);
    SomePolicy(snap.devices[did].features.capabilities, snap.policy.hardCaps, r);
  }
}
