/** What each operation of DPUFabricEngine (src/engine.cpp) does to the coordinator's state,
    and runs of such operations. */
module Coordinator {
  import opened Base
  import opened Resource
  import opened Records

  /** LiveState together with the engine's id counter. */
  datatype State = State(
    epoch: u64, policy: Policy, devices: map<u64, DeviceRecord>, services: map<u64, ServiceDefinition>,
    programs: Programs, currentProgramGen: map<u64, u64>, deployments: map<u64, Deployment>,
    activations: map<u64, ActivationRecord>, ledgers: map<u64, Ledger>, usage: map<u64, Resources>,
    deviceOrder: seq<u64>, workers: map<u64, u64>, idSeq: u64)

  /** The state after a call, and what the call returned or threw. */
  datatype Outcome<+T> = Outcome(state: State, result: Result<T>)

  function Fresh(epoch: u64, policy: Policy): State {
    State(epoch, policy, map[], map[], map[], map[], map[], map[], map[], map[], [], map[], 1)
  }

  function MakeSnapshot(s: State): Snapshot {
    Snapshot(s.epoch, s.policy, s.devices, s.services, s.programs, s.currentProgramGen, s.deployments,
             s.activations, s.usage, s.deviceOrder)
  }

  // ---- helpers ----

  function Marked(acts: map<u64, ActivationRecord>, a: Option<u64>, to: ActivationState): map<u64, ActivationRecord> {
    if a.Some? && a.value in acts then acts[a.value := acts[a.value].(state := to)] else acts
  }

  /** Deployment k takes the state `to` without authority. */
  function Moved(s: State, k: u64, to: DeploymentState): (r: State)
    requires k in s.deployments
    ensures r.deployments.Keys == s.deployments.Keys
  {
    s.(deployments := s.deployments[k := s.deployments[k].(state := to, authoritative := false)])
  }

  /** The same, and the activation it points to takes the state `mark`. */
  function MovedWith(s: State, k: u64, to: DeploymentState, mark: ActivationState): (r: State)
    requires k in s.deployments
    ensures r.deployments.Keys == s.deployments.Keys
  {
    Moved(s, k, to).(activations := Marked(s.activations, s.deployments[k].activation, mark))
  }

  /** release_resources. */
  function ReleaseResources(s: State, k: u64): (r: State)
    requires k in s.deployments
    ensures r.deployments.Keys == s.deployments.Keys
  {
    var b := s.deployments[k].binding;
    if b.device !in s.ledgers then s
    else
      var l := s.ledgers[b.device];
      var used := Released(l.used, b.resources);
      s.(ledgers := s.ledgers[b.device := l.(used := used)], usage := s.usage[b.device := used])
  }

  /** Deployment k gives its resources back and moves. */
  function Abandoned(s: State, k: u64, to: DeploymentState, mark: ActivationState): (r: State)
    requires k in s.deployments
    ensures r.deployments.Keys == s.deployments.Keys
  {
    MovedWith(ReleaseResources(s, k), k, to, mark)
  }

  // ---- fencing ----

  datatype FenceRule =
    | DeviceFenced(device: u64)
    | DeviceRetired(device: u64)
    | WorkerLost(boot: u64)
    | CoordinatorRecovered

  predicate Hits(rule: FenceRule, d: Deployment) {
    match rule
    case DeviceFenced(id) => d.binding.device == id && (d.state.Active? || d.state.Degraded?)
    case DeviceRetired(id) =>
      d.binding.device == id && (d.state.Active? || d.state.Degraded? || d.state.Draining?)
    case WorkerLost(boot) => d.workerBoot == boot && d.state == DeploymentState.Active
    case CoordinatorRecovered => d.state.Active? || d.state.Degraded?
  }

  function FenceOne(s: State, k: u64, rule: FenceRule): (r: State)
    requires k in s.deployments
    ensures r.deployments.Keys == s.deployments.Keys
  {
    if !Hits(rule, s.deployments[k]) then s
    else
      var fenced := MovedWith(s, k, DeploymentState.RevalidationRequired, ActivationState.Stale);
      if rule.DeviceRetired? then ReleaseResources(fenced, k) else fenced
  }

  /** Visits the deployments of todo in ascending order. */
  function FenceAll(s: State, todo: set<u64>, rule: FenceRule): (r: State)
    requires todo <= s.deployments.Keys
    ensures r.deployments.Keys == s.deployments.Keys
    decreases |todo|
  {
    if todo == {} then s
    else
      var k := Least(todo);
      var next := FenceOne(s, k, rule);
      FenceAll(next, todo - {k}, rule)
  }

  function Fence(s: State, rule: FenceRule): (r: State)
    ensures r.deployments.Keys == s.deployments.Keys
  {
    FenceAll(s, s.deployments.Keys, rule)
  }

  // ---- devices ----

  function RegisterDevice(s: State, rec: DeviceRecord): Outcome<u64> {
    var id := rec.identity.deviceId;
    if id == 0 then Outcome(s, Err(INVALID_ARGUMENT))
    else if id in s.devices then Outcome(s, Err(ALREADY_EXISTS))
    else
      Outcome(s.(devices := s.devices[id := rec],
                 deviceOrder := s.deviceOrder + [id],
                 ledgers := if id in s.ledgers then s.ledgers
                            else s.ledgers[id := Ledger(rec.capacity.resources, NOTHING)],
                 usage := s.usage[id := NOTHING]),
              Ok(id))
  }

  predicate Conflicting(was: Str, now: Str) {
    was != [] && now != [] && was != now
  }

  function UpdateDevice(s: State, rec: DeviceRecord): Outcome<u64> {
    var id := rec.identity.deviceId;
    if id == 0 then Outcome(s, Err(INVALID_ARGUMENT))
    else if id !in s.devices then Outcome(s, Err(NOT_FOUND))
    else if Conflicting(s.devices[id].identity.pciReference, rec.identity.pciReference) then
      Outcome(s, Err(ALREADY_EXISTS))
    else Outcome(s.(devices := s.devices[id := rec]), Ok(id))
  }

  function SetDevice(s: State, id: u64, rec: DeviceRecord): State {
    s.(devices := s.devices[id := rec])
  }

  function RetireDevice(s: State, id: u64): Outcome<()> {
    if id !in s.devices then Outcome(s, Err(NOT_FOUND))
    else
      Outcome(SetDevice(Fence(s, DeviceRetired(id)), id, s.devices[id].WithStatus(DeviceLifecycle.Retired, false)),
              Ok(()))
  }

  predicate Invalidates(to: DeviceLifecycle) {
    to.RevalidationRequired? || to.Offline? || to.Failed?
  }

  function TransitionDevice(s: State, id: u64, to: DeviceLifecycle): Outcome<()> {
    if id !in s.devices then Outcome(s, Err(NOT_FOUND))
    else if !ValidDeviceTransition(s.devices[id].status.lifecycle, to) then Outcome(s, Err(INVALID_TRANSITION))
    else if Invalidates(to) then
      Outcome(SetDevice(Fence(s, DeviceFenced(id)), id, s.devices[id].WithStatus(to, false)), Ok(()))
    else
      Outcome(SetDevice(s, id, s.devices[id].WithStatus(to, s.devices[id].status.evidenceFresh)), Ok(()))
  }

  function SetDeviceState(s: State, id: u64, state: CapabilityState, key: Str): Outcome<()> {
    if id !in s.devices then Outcome(s, Err(NOT_FOUND))
    else
      var d := s.devices[id];
      var caps := WithCapabilityState(d.features.capabilities, key, state);
      Outcome(SetDevice(s, id, d.(features := d.features.(capabilities := caps))), Ok(()))
  }

  function FencedRecord(d: DeviceRecord, reason: Str): DeviceRecord {
    var lifecycle :=
      if d.status.lifecycle.Retired? || d.status.lifecycle.Offline? || d.status.lifecycle.Failed?
      then d.status.lifecycle else DeviceLifecycle.RevalidationRequired;
    d.(status := d.status.(lifecycle := lifecycle, evidenceFresh := false, discoveryDetail := reason))
  }

  function FenceDevice(s: State, id: u64, reason: Str): Outcome<()> {
    if id !in s.devices then Outcome(s, Err(NOT_FOUND))
    else Outcome(SetDevice(Fence(s, DeviceFenced(id)), id, FencedRecord(s.devices[id], reason)), Ok(()))
  }

  // ---- services and programs ----

  function RegisterService(s: State, def: ServiceDefinition): Outcome<u64> {
    if def.serviceId == 0 then Outcome(s, Err(INVALID_ARGUMENT))
    else if def.serviceId in s.services then Outcome(s, Err(ALREADY_EXISTS))
    else Outcome(s.(services := s.services[def.serviceId := def]), Ok(def.serviceId))
  }

  function GenerationsOf(s: State, id: u64): map<u64, ProgramArtifact> {
    if id in s.programs then s.programs[id] else map[]
  }

  function RegisterProgram(s: State, art: ProgramArtifact): Outcome<u64> {
    var id := art.programId;
    if id == 0 then Outcome(s, Err(INVALID_ARGUMENT))
    else if art.programGen == 0 then Outcome(s, Err(INVALID_ARGUMENT))
    else
      var gens := GenerationsOf(s, id)[art.programGen := art];
      var current := if id !in s.currentProgramGen || art.programGen > s.currentProgramGen[id]
                     then s.currentProgramGen[id := art.programGen] else s.currentProgramGen;
      Outcome(s.(programs := s.programs[id := gens], currentProgramGen := current), Ok(id))
  }

  function RetireProgram(s: State, id: u64): Outcome<()> {
    if id !in s.programs then Outcome(s, Err(NOT_FOUND))
    else Outcome(s.(currentProgramGen := s.currentProgramGen - {id}), Ok(()))
  }

  // ---- workers ----

  function RegisterWorker(s: State, worker: u64, boot: u64): Outcome<()> {
    if worker == 0 || boot == 0 then Outcome(s, Err(INVALID_ARGUMENT))
    else if worker in s.workers then Outcome(s, if s.workers[worker] == boot then Ok(()) else Err(STALE_WORKER))
    else Outcome(s.(workers := s.workers[worker := boot]), Ok(()))
  }

  function WorkerHeartbeat(s: State, worker: u64, boot: u64): Outcome<()> {
    Outcome(s, if worker !in s.workers || s.workers[worker] != boot then Err(STALE_WORKER) else Ok(()))
  }

  function LostDevice(d: DeviceRecord, worker: u64): DeviceRecord {
    if d.status.owningWorker == worker && d.status.lifecycle != DeviceLifecycle.Retired
    then d.WithStatus(DeviceLifecycle.RevalidationRequired, false) else d
  }

  function LostDevices(devices: map<u64, DeviceRecord>, worker: u64): map<u64, DeviceRecord> {
    map d | d in devices :: LostDevice(devices[d], worker)
  }

  function MarkWorkerLost(s: State, worker: u64): Outcome<()> {
    var lost := s.(devices := LostDevices(s.devices, worker));
    if worker !in s.workers then Outcome(lost, Ok(()))
    else
      var fenced := Fence(lost, WorkerLost(s.workers[worker]));
      Outcome(fenced.(workers := s.workers - {worker}), Ok(()))
  }

  // ---- deployments ----

  /** reserve_deployment with the device that some evaluation, possibly of an older snapshot, selected. */
  function ReserveDeployment(s: State, req: OffloadRequest, selected: Option<u64>): Outcome<u64> {
    if selected.None? then Outcome(s, Err(INVALID_STATE))
    else if selected.value !in s.devices || !s.devices[selected.value].ReadyForOffload() then
      Outcome(s, Err(DEVICE_NOT_READY))
    else if req.service.Some? && req.service.value !in s.services then Outcome(s, Err(NOT_FOUND))
    else
      var device := selected.value;
      var b := NewBinding(s, req, device);
      var counted := s.(idSeq := WrapAdd(s.idSeq, 2));
      if device !in s.ledgers then Outcome(counted, Err(INVALID_STATE))
      else if !Admits(s.ledgers[device].cap, s.ledgers[device].used, b.resources) then
        Outcome(counted, Err(RESOURCE_EXHAUSTED))
      else
        var used := Applied(s.ledgers[device].used, b.resources);
        Outcome(counted.(ledgers := s.ledgers[device := s.ledgers[device].(used := used)],
                         usage := s.usage[device := used],
                         deployments := s.deployments[b.deploymentId := NewDeployment(b)]),
                Ok(b.deploymentId))
  }

  function RequestedResources(services: map<u64, ServiceDefinition>, req: OffloadRequest): Resources {
    if req.service.Some? && req.service.value in services then services[req.service.value].resource else req.resource
  }

  function CurrentGen(s: State, program: u64): u64 {
    CurrentGenIn(s.currentProgramGen, program)
  }

  function NewBinding(s: State, req: OffloadRequest, device: u64): (b: DeploymentBinding)
    requires device in s.devices
    requires req.service.Some? ==> req.service.value in s.services
    ensures b.deploymentId == s.idSeq && b.attemptId == WrapAdd(s.idSeq, 1)
    ensures b.device == device && b.resources == RequestedResources(s.services, req)
  {
    var program := if req.requiredProgram.Some? then req.requiredProgram.value
                   else if req.service.Some? then s.services[req.service.value].requiredProgram else 0;
    DeploymentBinding(
      s.idSeq, 1, WrapAdd(s.idSeq, 1),
      if req.service.Some? then req.service.value else 0,
      if req.service.Some? then s.services[req.service.value].serviceGen else 0,
      program, if program != 0 then CurrentGen(s, program) else 0, 0, 0,
      device, s.devices[device].identity.generation, s.devices[device].identity.bootId,
      req.tenant, req.isolationDomain, RequestedResources(s.services, req))
  }

  function NewDeployment(b: DeploymentBinding): Deployment {
    Deployment(b, DeploymentState.Reserved, None, 0, 0, 0, 0, 0, false, 0, 0)
  }

  /** do_deploy_transition, for the targets the engine uses it with. */
  function DeployTransition(s: State, k: u64, to: DeploymentState): Outcome<()> {
    if k !in s.deployments then Outcome(s, Err(NOT_FOUND))
    else if !ValidDeploymentTransition(s.deployments[k].state, to) then Outcome(s, Err(INVALID_TRANSITION))
    else Outcome(Moved(s, k, to), Ok(()))
  }

  function ActivateDeployment(s: State, k: u64): Outcome<u64> {
    var moved := DeployTransition(s, k, DeploymentState.Activating);
    if moved.result.Err? then Outcome(s, Err(moved.result.error))
    else
      var d := moved.state.deployments[k];
      var gen := NextGeneration(d.activationGen);
      var act := ActivationRecord(s.idSeq, gen, k, d.binding.generation, NO_AUTHORITY, ActivationState.Pending);
      Outcome(moved.state.(idSeq := WrapAdd(s.idSeq, 1),
                           deployments := moved.state.deployments[k := d.(activation := Some(s.idSeq), activationGen := gen)],
                           activations := s.activations[s.idSeq := act]),
              Ok(s.idSeq))
  }

  /** The authority captured when deployment d is committed on device dev. */
  function CapturedAuthority(s: State, d: Deployment, dev: DeviceRecord): ActivationAuthority {
    ActivationAuthority(
      s.epoch, 0, d.workerBoot, d.binding.device, d.binding.deviceBoot, d.binding.deviceGen, d.binding.serviceGen,
      d.binding.programGen, d.binding.generation, d.activationGen, s.policy.generation, dev.status.evidenceGen)
  }

  /** commit_deployment; the source dereferences the activation without a check. */
  function CommitDeployment(s: State, k: u64): Outcome<()> {
    if k !in s.deployments then Outcome(s, Err(NOT_FOUND))
    else
      var d := s.deployments[k];
      if d.state != DeploymentState.Activating then Outcome(s, Err(INVALID_STATE))
      else if d.binding.device !in s.devices || !s.devices[d.binding.device].ReadyForOffload() then
        Outcome(s, Err(DEVICE_NOT_READY))
      else if d.binding.program != 0 &&
              (d.binding.program !in s.currentProgramGen || s.currentProgramGen[d.binding.program] != d.binding.programGen)
      then Outcome(s, Err(STALE_PROGRAM_GENERATION))
      else if d.activation.None? then Outcome(s, Err(EMPTY_DEREFERENCE))
      else if d.activation.value !in s.activations then Outcome(s, Err(INVALID_STATE))
      else
        var auth := CapturedAuthority(s, d, s.devices[d.binding.device]);
        var act := s.activations[d.activation.value].(authority := auth, state := ActivationState.Active);
        Outcome(s.(deployments := s.deployments[k := d.(state := DeploymentState.Active, authoritative := true, epoch := s.epoch)],
                   activations := s.activations[d.activation.value := act]),
                Ok(()))
  }

  predicate Preparing(state: DeploymentState) {
    state.Reserved? || state.Staging? || state.Loaded? || state.Validating? || state.Activating?
  }

  function CancelDeployment(s: State, k: u64): Outcome<()> {
    if k !in s.deployments then Outcome(s, Err(NOT_FOUND))
    else if s.deployments[k].state != DeploymentState.Planned && !Preparing(s.deployments[k].state) then
      Outcome(s, Err(INVALID_STATE))
    else Outcome(Abandoned(s, k, DeploymentState.Aborted, ActivationState.Cancelled), Ok(()))
  }

  function RollbackDeployment(s: State, k: u64): Outcome<()> {
    if k !in s.deployments then Outcome(s, Err(NOT_FOUND))
    else if s.deployments[k].state != DeploymentState.Failed && !Preparing(s.deployments[k].state) then
      Outcome(s, Err(INVALID_STATE))
    else Outcome(Abandoned(s, k, DeploymentState.Aborted, ActivationState.Cancelled), Ok(()))
  }

  function DrainDeployment(s: State, k: u64): Outcome<()> {
    if k !in s.deployments then Outcome(s, Err(NOT_FOUND))
    else if !(s.deployments[k].state.Active? || s.deployments[k].state.Degraded? || s.deployments[k].state.RevalidationRequired?) then
      Outcome(s, Err(INVALID_STATE))
    else Outcome(MovedWith(s, k, DeploymentState.Draining, ActivationState.Draining), Ok(()))
  }

  predicate HoldsOnRetire(state: DeploymentState) {
    state.Active? || state.Degraded? || state.Draining? || state.RevalidationRequired?
  }

  function RetireDeployment(s: State, k: u64): Outcome<()> {
    if k !in s.deployments then Outcome(s, Err(NOT_FOUND))
    else
      var from := s.deployments[k].state;
      if HoldsOnRetire(from) then
        Outcome(Abandoned(s, k, DeploymentState.Retired, ActivationState.Retired), Ok(()))
      else if from == DeploymentState.Failed || from == DeploymentState.Aborted then
        Outcome(Moved(s, k, DeploymentState.Retired), Ok(()))
      else Outcome(s, Err(INVALID_STATE))
  }

  function FailDeployment(s: State, k: u64): Outcome<()> {
    if k !in s.deployments then Outcome(s, Err(NOT_FOUND))
    else if !ValidDeploymentTransition(s.deployments[k].state, DeploymentState.Failed) then
      Outcome(s, Err(INVALID_TRANSITION))
    else Outcome(Abandoned(s, k, DeploymentState.Failed, ActivationState.Stale), Ok(()))
  }

  // ---- restart ----

  function AdvanceEpoch(s: State): Outcome<()> {
    Outcome(s.(epoch := NextGeneration(s.epoch)), Ok(()))
  }

  datatype RecoveryPolicy = FenceAllDynamic | FenceAuthorityOnly

  function RevalidatedCapability(c: Capability): Capability {
    if c.state == CapabilityState.Supported then c.(state := CapabilityState.NeedsRevalidation) else c
  }

  function RecoveredDevice(d: DeviceRecord, p: RecoveryPolicy): DeviceRecord {
    if d.status.lifecycle == DeviceLifecycle.Retired then d
    else
      var lifecycle := if d.status.lifecycle.Failed? || d.status.lifecycle.Offline?
                       then d.status.lifecycle else DeviceLifecycle.RevalidationRequired;
      var caps := d.features.capabilities;
      var revalidated := if p == FenceAllDynamic then map k | k in caps :: RevalidatedCapability(caps[k]) else caps;
      d.WithStatus(lifecycle, false).(features := d.features.(capabilities := revalidated))
  }

  function RecoveredDevices(devices: map<u64, DeviceRecord>, p: RecoveryPolicy): map<u64, DeviceRecord> {
    map d | d in devices :: RecoveredDevice(devices[d], p)
  }

  function ApplyRecovery(s: State, p: RecoveryPolicy): Outcome<()> {
    var fenced := s.(devices := RecoveredDevices(s.devices, p));
    Outcome(Fence(fenced, CoordinatorRecovered), Ok(()))
  }

  // ---- runs ----

  /** One call of a public operation. Recovery from a file is described in module Persistence. */
  datatype Op =
    | OpRegisterDevice(rec: DeviceRecord)
    | OpUpdateDevice(rec: DeviceRecord)
    | OpRetireDevice(device: u64)
    | OpTransitionDevice(device: u64, to: DeviceLifecycle)
    | OpSetDeviceState(device: u64, state: CapabilityState, key: Str)
    | OpFenceDevice(device: u64, reason: Str)
    | OpRegisterService(def: ServiceDefinition)
    | OpRegisterProgram(art: ProgramArtifact)
    | OpRetireProgram(program: u64)
    | OpRegisterWorker(worker: u64, boot: u64)
    | OpWorkerHeartbeat(worker: u64, boot: u64)
    | OpMarkWorkerLost(worker: u64)
    | OpReserve(req: OffloadRequest, selected: Option<u64>)
    | OpStage(deployment: u64)
    | OpLoad(deployment: u64)
    | OpValidate(deployment: u64)
    | OpActivate(deployment: u64)
    | OpCommit(deployment: u64)
    | OpCancel(deployment: u64)
    | OpRollback(deployment: u64)
    | OpDrain(deployment: u64)
    | OpRetire(deployment: u64)
    | OpFail(deployment: u64)
    | OpAdvanceEpoch
    | OpApplyRecovery(policy: RecoveryPolicy)

  function Apply(s: State, op: Op): State {
    match op
    case OpRegisterDevice(rec) => RegisterDevice(s, rec).state
    case OpUpdateDevice(rec) => UpdateDevice(s, rec).state
    case OpRetireDevice(id) => RetireDevice(s, id).state
    case OpTransitionDevice(id, to) => TransitionDevice(s, id, to).state
    case OpSetDeviceState(id, state, key) => SetDeviceState(s, id, state, key).state
    case OpFenceDevice(id, reason) => FenceDevice(s, id, reason).state
    case OpRegisterService(def) => RegisterService(s, def).state
    case OpRegisterProgram(art) => RegisterProgram(s, art).state
    case OpRetireProgram(id) => RetireProgram(s, id).state
    case OpRegisterWorker(w, boot) => RegisterWorker(s, w, boot).state
    case OpWorkerHeartbeat(w, boot) => WorkerHeartbeat(s, w, boot).state
    case OpMarkWorkerLost(w) => MarkWorkerLost(s, w).state
    case OpReserve(req, selected) => ReserveDeployment(s, req, selected).state
    case OpStage(k) => DeployTransition(s, k, DeploymentState.Staging).state
    case OpLoad(k) => DeployTransition(s, k, DeploymentState.Loaded).state
    case OpValidate(k) => DeployTransition(s, k, DeploymentState.Validating).state
    case OpActivate(k) => ActivateDeployment(s, k).state
    case OpCommit(k) => CommitDeployment(s, k).state
    case OpCancel(k) => CancelDeployment(s, k).state
    case OpRollback(k) => RollbackDeployment(s, k).state
    case OpDrain(k) => DrainDeployment(s, k).state
    case OpRetire(k) => RetireDeployment(s, k).state
    case OpFail(k) => FailDeployment(s, k).state
    case OpAdvanceEpoch => AdvanceEpoch(s).state
    case OpApplyRecovery(p) => ApplyRecovery(s, p).state
  }

  /** The state after a run of calls. */
  function Run(s: State, ops: seq<Op>): State {
    if ops == [] then s else Apply(Run(s, ops[..|ops| - 1]), ops[|ops| - 1])
  }
}
