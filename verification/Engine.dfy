/** The coordinator object of src/engine.cpp. Every method is proved to do to the object's fields what
    module Coordinator says, and to republish the snapshot. Each call is one step under the engine's mutex. */
module Engine {
  import opened Base
  import opened Resource
  import opened Records
  import opened Coordinator
  import opened Fencing
  import Eligibility
  import Evaluation
  import Persistence
  import Recovery
  import StateFile
  import Store

  datatype PlanResult = PlanResult(planned: bool, device: u64, eligibility: Eligibility.EligibilityResult)

  /** The accounts after the devices in done have been given theirs. */
  ghost predicate OpenedFor(devices: map<u64, DeviceRecord>, done: set<u64>, ledgers: map<u64, Ledger>, ls: map<u64, Ledger>,
                            usage: map<u64, Resources>, us: map<u64, Resources>)
    requires done <= devices.Keys
  {
    && ls.Keys == ledgers.Keys + done && us.Keys == usage.Keys + done
    && (forall d :: d in ls ==> ls[d] == if d in ledgers then ledgers[d] else Ledger(devices[d].capacity.resources, NOTHING))
    && (forall d :: d in us ==> us[d] == if d in done then NOTHING else usage[d])
  }

  lemma NoneOpened(devices: map<u64, DeviceRecord>, ledgers: map<u64, Ledger>, usage: map<u64, Resources>)
    ensures OpenedFor(devices, {}, ledgers, ledgers, usage, usage)
  {
  }

  lemma OneOpened(devices: map<u64, DeviceRecord>, done: set<u64>, id: u64, ledgers: map<u64, Ledger>, ls: map<u64, Ledger>,
                  usage: map<u64, Resources>, us: map<u64, Resources>)
    requires done <= devices.Keys && id in devices && OpenedFor(devices, done, ledgers, ls, usage, us)
    ensures OpenedFor(devices, done + {id}, ledgers,
                      if id in ls then ls else ls[id := Ledger(devices[id].capacity.resources, NOTHING)], usage, us[id := NOTHING])
  {
  }

  lemma AllOpened(devices: map<u64, DeviceRecord>, ledgers: map<u64, Ledger>, ls: map<u64, Ledger>,
                  usage: map<u64, Resources>, us: map<u64, Resources>)
    requires OpenedFor(devices, devices.Keys, ledgers, ls, usage, us)
    ensures ls == Persistence.NewLedgers(devices) + ledgers && us == usage + Recovery.ZeroUsage(devices)
  {
    assert ls.Keys == (Persistence.NewLedgers(devices) + ledgers).Keys;
    assert us.Keys == (usage + Recovery.ZeroUsage(devices)).Keys;
  }

  class DPUFabricEngine {
    var epoch: u64
    var policy: Policy
    var devices: map<u64, DeviceRecord>
    var services: map<u64, ServiceDefinition>
    var programs: Programs
    var currentProgramGen: map<u64, u64>
    var deployments: map<u64, Deployment>
    var activations: map<u64, ActivationRecord>
    var ledgers: map<u64, Ledger>
    var usage: map<u64, Resources>
    var deviceOrder: seq<u64>
    var workers: map<u64, u64>
    var idSeq: u64
    var snap: Snapshot

    function View(): State
      reads this
    {
      State(epoch, policy, devices, services, programs, currentProgramGen, deployments, activations, ledgers,
            usage, deviceOrder, workers, idSeq)
    }

    /** Readers always see the current state. */
    ghost predicate Valid()
      reads this
    {
      snap == MakeSnapshot(View())
    }

    constructor (epoch: u64, policy: Policy)
      ensures Valid() && View() == Fresh(epoch, policy)
    {
      this.epoch, this.policy := epoch, policy;
      devices, services, programs, currentProgramGen := map[], map[], map[], map[];
      deployments, activations, ledgers, usage := map[], map[], map[], map[];
      deviceOrder, workers, idSeq := [], map[], 1;
      new;
      RebuildSnapshot();
    }

    method RebuildSnapshot()
      modifies this`snap
      ensures Valid()
    {
      snap := Snapshot(epoch, policy, devices, services, programs, currentProgramGen, deployments, activations,
                       usage, deviceOrder);
    }

    method NextId() returns (id: u64)
      modifies this`idSeq
      ensures id == old(idSeq) && idSeq == WrapAdd(old(idSeq), 1)
    {
      id := idSeq;
      idSeq := WrapAdd(idSeq, 1);
    }

    // ---- devices ----

    method RegisterDevice(rec: DeviceRecord) returns (r: Result<u64>)
      requires Valid()
      modifies this
      ensures Valid() && Outcome(View(), r) == Coordinator.RegisterDevice(old(View()), rec)
    {
      var id := rec.identity.deviceId;
      if id == 0 {
        return Err(INVALID_ARGUMENT);
      }
      if id in devices {
        return Err(ALREADY_EXISTS);
      }
      devices := devices[id := rec];
      deviceOrder := deviceOrder + [id];
      if id !in ledgers {
        ledgers := ledgers[id := Ledger(rec.capacity.resources, NOTHING)];
      }
      usage := usage[id := NOTHING];
      assert View() == Coordinator.RegisterDevice(old(View()), rec).state;
      RebuildSnapshot();
      return Ok(id);
    }

    method UpdateDevice(rec: DeviceRecord) returns (r: Result<u64>)
      requires Valid()
      modifies this
      ensures Valid() && Outcome(View(), r) == Coordinator.UpdateDevice(old(View()), rec)
    {
      var id := rec.identity.deviceId;
      if id == 0 {
        return Err(INVALID_ARGUMENT);
      }
      if id !in devices {
        return Err(NOT_FOUND);
      }
      var was := devices[id];
      if was.identity.pciReference != [] && rec.identity.pciReference != [] &&
         was.identity.pciReference != rec.identity.pciReference {
        return Err(ALREADY_EXISTS);
      }
      devices := devices[id := rec];
      RebuildSnapshot();
      return Ok(id);
    }

    method RetireDevice(id: u64) returns (r: Result<()>)
      requires Valid()
      modifies this
      ensures Valid() && Outcome(View(), r) == Coordinator.RetireDevice(old(View()), id)
    {
      if id !in devices {
        return Err(NOT_FOUND);
      }
      FenceDeployments(DeviceRetired(id));
      FenceFrame(old(View()), DeviceRetired(id));
      devices := devices[id := devices[id].WithStatus(DeviceLifecycle.Retired, false)];
      RebuildSnapshot();
      return Ok(());
    }

    method TransitionDevice(id: u64, to: DeviceLifecycle) returns (r: Result<()>)
      requires Valid()
      modifies this
      ensures Valid() && Outcome(View(), r) == Coordinator.TransitionDevice(old(View()), id, to)
    {
      if id !in devices {
        return Err(NOT_FOUND);
      }
      var d := devices[id];
      if !ValidDeviceTransition(d.status.lifecycle, to) {
        return Err(INVALID_TRANSITION);
      }
      if Invalidates(to) {
        d := d.WithStatus(d.status.lifecycle, false);
        FenceDeployments(DeviceFenced(id));
        FenceFrame(old(View()), DeviceFenced(id));
      }
      devices := devices[id := d.WithStatus(to, d.status.evidenceFresh)];
      RebuildSnapshot();
      return Ok(());
    }

    method SetDeviceState(id: u64, state: CapabilityState, key: Str) returns (r: Result<()>)
      requires Valid()
      modifies this
      ensures Valid() && Outcome(View(), r) == Coordinator.SetDeviceState(old(View()), id, state, key)
    {
      if id !in devices {
        return Err(NOT_FOUND);
      }
      var d := devices[id];
      var caps := WithCapabilityState(d.features.capabilities, key, state);
      devices := devices[id := d.(features := d.features.(capabilities := caps))];
      RebuildSnapshot();
      return Ok(());
    }

    method FenceDevice(id: u64, reason: Str) returns (r: Result<()>)
      requires Valid()
      modifies this
      ensures Valid() && Outcome(View(), r) == Coordinator.FenceDevice(old(View()), id, reason)
    {
      if id !in devices {
        return Err(NOT_FOUND);
      }
      var fenced := FencedRecord(devices[id], reason);
      FenceDeployments(DeviceFenced(id));
      FenceFrame(old(View()), DeviceFenced(id));
      devices := devices[id := fenced];
      RebuildSnapshot();
      return Ok(());
    }

    /** The fencing loop shared by the operations above and below: every deployment the rule hits loses
        its authority, and its activation becomes stale. */
    method FenceDeployments(rule: FenceRule)
      modifies this`deployments, this`activations, this`ledgers, this`usage
      ensures View() == Fence(old(View()), rule)
    {
      hide FenceOne;
      var todo := deployments.Keys;
      while todo != {}
        invariant todo <= deployments.Keys
        invariant FenceAll(View(), todo, rule) == Fence(old(View()), rule)
        decreases |todo|
      {
        var k := Least(todo);
        FenceDeployment(k, rule);
        todo := todo - {k};
      }
    }

    method FenceDeployment(k: u64, rule: FenceRule)
      requires k in deployments
      modifies this`deployments, this`activations, this`ledgers, this`usage
      ensures View() == FenceOne(old(View()), k, rule)
    {
      hide Hits, Released, Marked;
      var dep := deployments[k];
      if Hits(rule, dep) {
        deployments := deployments[k := dep.(state := DeploymentState.RevalidationRequired, authoritative := false)];
        MarkActivation(dep.activation, ActivationState.Stale);
        if rule.DeviceRetired? {
          Release(k);
        }
      }
    }

    method MarkActivation(a: Option<u64>, to: ActivationState)
      modifies this`activations
      ensures activations == Marked(old(activations), a, to)
    {
      if a.Some? && a.value in activations {
        activations := activations[a.value := activations[a.value].(state := to)];
      }
    }

    method Release(k: u64)
      requires k in deployments
      modifies this`ledgers, this`usage
      ensures View() == ReleaseResources(old(View()), k)
    {
      hide Released;
      var b := deployments[k].binding;
      if b.device in ledgers {
        var l := ledgers[b.device];
        ledgers := ledgers[b.device := l.(used := Released(l.used, b.resources))];
        usage := usage[b.device := ledgers[b.device].used];
      }
    }

    // ---- services, programs and workers ----

    method RegisterService(def: ServiceDefinition) returns (r: Result<u64>)
      requires Valid()
      modifies this
      ensures Valid() && Outcome(View(), r) == Coordinator.RegisterService(old(View()), def)
    {
      if def.serviceId == 0 {
        return Err(INVALID_ARGUMENT);
      }
      if def.serviceId in services {
        return Err(ALREADY_EXISTS);
      }
      services := services[def.serviceId := def];
      RebuildSnapshot();
      return Ok(def.serviceId);
    }

    method RegisterProgram(art: ProgramArtifact) returns (r: Result<u64>)
      requires Valid()
      modifies this
      ensures Valid() && Outcome(View(), r) == Coordinator.RegisterProgram(old(View()), art)
    {
      var id := art.programId;
      if id == 0 {
        return Err(INVALID_ARGUMENT);
      }
      if art.programGen == 0 {
        return Err(INVALID_ARGUMENT);
      }
      var gens := if id in programs then programs[id] else map[];
      programs := programs[id := gens[art.programGen := art]];
      if id !in currentProgramGen || art.programGen > currentProgramGen[id] {
        currentProgramGen := currentProgramGen[id := art.programGen];
      }
      RebuildSnapshot();
      return Ok(id);
    }

    method RetireProgram(id: u64) returns (r: Result<()>)
      requires Valid()
      modifies this
      ensures Valid() && Outcome(View(), r) == Coordinator.RetireProgram(old(View()), id)
    {
      if id !in programs {
        return Err(NOT_FOUND);
      }
      currentProgramGen := currentProgramGen - {id};
      RebuildSnapshot();
      return Ok(());
    }

    method RegisterWorker(worker: u64, boot: u64) returns (r: Result<()>)
      requires Valid()
      modifies this
      ensures Valid() && Outcome(View(), r) == Coordinator.RegisterWorker(old(View()), worker, boot)
    {
      if worker == 0 || boot == 0 {
        return Err(INVALID_ARGUMENT);
      }
      if worker in workers {
        if workers[worker] == boot {
          return Ok(());
        }
        return Err(STALE_WORKER);
      }
      workers := workers[worker := boot];
      RebuildSnapshot();
      return Ok(());
    }

    method WorkerHeartbeat(worker: u64, boot: u64) returns (r: Result<()>)
      requires Valid()
      ensures Outcome(View(), r) == Coordinator.WorkerHeartbeat(View(), worker, boot)
    {
      if worker !in workers || workers[worker] != boot {
        return Err(STALE_WORKER);
      }
      return Ok(());
    }

    method LoseDevices(worker: u64)
      modifies this`devices
      ensures devices == LostDevices(old(devices), worker)
    {
      hide DeviceRecord.WithStatus;
      var todo := devices.Keys;
      while todo != {}
        invariant todo <= devices.Keys == old(devices).Keys
        invariant forall d :: d in devices ==>
                    devices[d] == if d in todo then old(devices)[d] else LostDevice(old(devices)[d], worker)
        decreases |todo|
      {
        var id := Least(todo);
        var d := devices[id];
        if d.status.owningWorker == worker && d.status.lifecycle != DeviceLifecycle.Retired {
          devices := devices[id := d.WithStatus(DeviceLifecycle.RevalidationRequired, false)];
        }
        todo := todo - {id};
      }
    }

    method MarkWorkerLost(worker: u64) returns (r: Result<()>)
      requires Valid()
      modifies this
      ensures Valid() && Outcome(View(), r) == Coordinator.MarkWorkerLost(old(View()), worker)
    {
      hide Fence, LostDevices;
      LoseDevices(worker);
      if worker in workers {
        FenceDeployments(WorkerLost(workers[worker]));
        workers := workers - {worker};
      }
      assert View() == Coordinator.MarkWorkerLost(old(View()), worker).state;
      RebuildSnapshot();
      return Ok(());
    }

    // ---- evaluation and planning ----

    method EvaluateRequest(req: OffloadRequest) returns (r: Result<Eligibility.EligibilityResult>)
      requires Valid()
      ensures r.Ok? ==> Evaluation.Evaluated(MakeSnapshot(View()), req, r.value)
      ensures r.Err? <==> req.minHeadroom > 100 || req.maxQueuePressure > 100
      ensures r.Err? ==> r.error == INVALID_ARGUMENT
    {
      r := Evaluation.Evaluate(snap, req);
    }

    method PlanDeployment(req: OffloadRequest) returns (r: Result<PlanResult>)
      requires Valid()
      ensures r.Err? <==> req.minHeadroom > 100 || req.maxQueuePressure > 100
      ensures r.Err? ==> r.error == INVALID_ARGUMENT
      ensures r.Ok? ==> Evaluation.Evaluated(MakeSnapshot(View()), req, r.value.eligibility)
      ensures r.Ok? ==> r.value.planned ==
                        (r.value.eligibility.selected.Some? || (req.mode.OffloadPreferred? && req.allowHostFallback))
      ensures r.Ok? ==> var chosen := r.value.eligibility.selected;
                        r.value.device == if chosen.Some? then chosen.value else 0
    {
      var elig :- EvaluateRequest(req);
      if elig.selected.Some? {
        return Ok(PlanResult(true, elig.selected.value, elig));
      } else if req.mode.OffloadPreferred? && req.allowHostFallback {
        return Ok(PlanResult(true, 0, elig));
      } else {
        return Ok(PlanResult(false, 0, elig));
      }
    }

    // ---- deployments ----

    method ReserveDeployment(req: OffloadRequest, elig: Eligibility.EligibilityResult) returns (r: Result<u64>)
      requires Valid()
      modifies this
      ensures Valid() && Outcome(View(), r) == Coordinator.ReserveDeployment(old(View()), req, elig.selected)
    {
      hide Admits, Applied, NewBinding, NewDeployment, DeviceRecord.ReadyForOffload, RequestedResources;
      if elig.selected.None? {
        return Err(INVALID_STATE);
      }
      var device := elig.selected.value;
      if device !in devices || !devices[device].ReadyForOffload() {
        return Err(DEVICE_NOT_READY);
      }
      if req.service.Some? && req.service.value !in services {
        return Err(NOT_FOUND);
      }
      var b := NewBinding(View(), req, device);
      var id := NextId();
      var attempt := NextId();
      assert id == b.deploymentId && attempt == b.attemptId;
      if device !in ledgers {
        return Err(INVALID_STATE);
      }
      var l := ledgers[device];
      if !Admits(l.cap, l.used, b.resources) {
        return Err(RESOURCE_EXHAUSTED);
      }
      Charge(device, b);
      return Ok(id);
    }

    /** try_reserve and commit on the device's ledger, and the new deployment. */
    method Charge(device: u64, b: DeploymentBinding)
      requires device in ledgers
      modifies this
      ensures Valid()
      ensures var l := old(ledgers)[device];
              var used := Applied(l.used, b.resources);
              View() == old(View()).(ledgers := old(ledgers)[device := l.(used := used)],
                                     usage := old(usage)[device := used],
                                     deployments := old(deployments)[b.deploymentId := NewDeployment(b)])
    {
      hide Applied, NewDeployment;
      var l := ledgers[device];
      ledgers := ledgers[device := l.(used := Applied(l.used, b.resources))];
      usage := usage[device := ledgers[device].used];
      deployments := deployments[b.deploymentId := NewDeployment(b)];
      RebuildSnapshot();
    }

    /** do_deploy_transition: stage, load and validate are this with one target each. */
    method DeployTransition(id: u64, to: DeploymentState) returns (r: Result<()>)
      requires Valid() && to != DeploymentState.Active
      modifies this
      ensures Valid() && Outcome(View(), r) == Coordinator.DeployTransition(old(View()), id, to)
    {
      hide ValidDeploymentTransition;
      if id !in deployments {
        return Err(NOT_FOUND);
      }
      var dep := deployments[id];
      if !ValidDeploymentTransition(dep.state, to) {
        return Err(INVALID_TRANSITION);
      }
      deployments := deployments[id := dep.(state := to, authoritative := to == DeploymentState.Active)];
      RebuildSnapshot();
      return Ok(());
    }

    method StageDeployment(id: u64) returns (r: Result<()>)
      requires Valid()
      modifies this
      ensures Valid() && Outcome(View(), r) == Coordinator.DeployTransition(old(View()), id, DeploymentState.Staging)
    {
      r := DeployTransition(id, DeploymentState.Staging);
    }

    method LoadDeployment(id: u64) returns (r: Result<()>)
      requires Valid()
      modifies this
      ensures Valid() && Outcome(View(), r) == Coordinator.DeployTransition(old(View()), id, DeploymentState.Loaded)
    {
      r := DeployTransition(id, DeploymentState.Loaded);
    }

    method ValidateDeployment(id: u64) returns (r: Result<()>)
      requires Valid()
      modifies this
      ensures Valid() && Outcome(View(), r) == Coordinator.DeployTransition(old(View()), id, DeploymentState.Validating)
    {
      r := DeployTransition(id, DeploymentState.Validating);
    }

    method ActivateDeployment(id: u64) returns (r: Result<u64>)
      requires Valid()
      modifies this
      ensures Valid() && Outcome(View(), r) == Coordinator.ActivateDeployment(old(View()), id)
    {
      hide ValidDeploymentTransition;
      var _ :- DeployTransition(id, DeploymentState.Activating);
      var dep := deployments[id];
      var aid := NextId();
      var gen := NextGeneration(dep.activationGen);
      var act := ActivationRecord(aid, gen, id, dep.binding.generation, NO_AUTHORITY, ActivationState.Pending);
      deployments := deployments[id := dep.(activation := Some(aid), activationGen := gen)];
      activations := activations[aid := act];
      RebuildSnapshot();
      return Ok(aid);
    }

    method CommitDeployment(id: u64) returns (r: Result<()>)
      requires Valid()
      modifies this
      ensures Valid() && Outcome(View(), r) == Coordinator.CommitDeployment(old(View()), id)
    {
      hide CapturedAuthority, DeviceRecord.ReadyForOffload;
      if id !in deployments {
        return Err(NOT_FOUND);
      }
      var dep := deployments[id];
      if dep.state != DeploymentState.Activating {
        return Err(INVALID_STATE);
      }
      if dep.binding.device !in devices || !devices[dep.binding.device].ReadyForOffload() {
        return Err(DEVICE_NOT_READY);
      }
      var program := dep.binding.program;
      if program != 0 {
        if program !in currentProgramGen || currentProgramGen[program] != dep.binding.programGen {
          return Err(STALE_PROGRAM_GENERATION);
        }
      }
      var auth := CapturedAuthority(View(), dep, devices[dep.binding.device]);
      if dep.activation.None? {
        return Err(EMPTY_DEREFERENCE);
      }
      var aid := dep.activation.value;
      if aid !in activations {
        return Err(INVALID_STATE);
      }
      activations := activations[aid := activations[aid].(authority := auth, state := ActivationState.Active)];
      deployments := deployments[id := dep.(state := DeploymentState.Active, authoritative := true, epoch := epoch)];
      RebuildSnapshot();
      return Ok(());
    }

    /** The common end of cancel, rollback and fail: give the resources back and settle the deployment. */
    method Abandon(id: u64, to: DeploymentState, mark: ActivationState)
      requires Valid() && id in deployments
      modifies this
      ensures Valid() && View() == MovedWith(ReleaseResources(old(View()), id), id, to, mark)
    {
      hide ReleaseResources, Marked;
      Release(id);
      var dep := deployments[id];
      MarkActivation(dep.activation, mark);
      deployments := deployments[id := dep.(state := to, authoritative := false)];
      RebuildSnapshot();
    }

    method CancelDeployment(id: u64) returns (r: Result<()>)
      requires Valid()
      modifies this
      ensures Valid() && Outcome(View(), r) == Coordinator.CancelDeployment(old(View()), id)
    {
      hide ReleaseResources, Marked, Preparing;
      if id !in deployments {
        return Err(NOT_FOUND);
      }
      var from := deployments[id].state;
      if from != DeploymentState.Planned && !Preparing(from) {
        return Err(INVALID_STATE);
      }
      Abandon(id, DeploymentState.Aborted, ActivationState.Cancelled);
      return Ok(());
    }

    method RollbackDeployment(id: u64) returns (r: Result<()>)
      requires Valid()
      modifies this
      ensures Valid() && Outcome(View(), r) == Coordinator.RollbackDeployment(old(View()), id)
    {
      hide ReleaseResources, Marked, Preparing;
      if id !in deployments {
        return Err(NOT_FOUND);
      }
      var from := deployments[id].state;
      if from != DeploymentState.Failed && !Preparing(from) {
        return Err(INVALID_STATE);
      }
      Abandon(id, DeploymentState.Aborted, ActivationState.Cancelled);
      return Ok(());
    }

    method DrainDeployment(id: u64) returns (r: Result<()>)
      requires Valid()
      modifies this
      ensures Valid() && Outcome(View(), r) == Coordinator.DrainDeployment(old(View()), id)
    {
      hide Marked;
      if id !in deployments {
        return Err(NOT_FOUND);
      }
      var dep := deployments[id];
      if dep.state != DeploymentState.Active && dep.state != DeploymentState.Degraded &&
         dep.state != DeploymentState.RevalidationRequired {
        return Err(INVALID_STATE);
      }
      MarkActivation(dep.activation, ActivationState.Draining);
      deployments := deployments[id := dep.(state := DeploymentState.Draining, authoritative := false)];
      assert View() == Coordinator.DrainDeployment(old(View()), id).state;
      RebuildSnapshot();
      return Ok(());
    }

    method RetireDeployment(id: u64) returns (r: Result<()>)
      requires Valid()
      modifies this
      ensures Valid() && Outcome(View(), r) == Coordinator.RetireDeployment(old(View()), id)
    {
      hide ReleaseResources, Marked, HoldsOnRetire;
      if id !in deployments {
        return Err(NOT_FOUND);
      }
      var from := deployments[id].state;
      if !HoldsOnRetire(from) && from != DeploymentState.Failed && from != DeploymentState.Aborted {
        return Err(INVALID_STATE);
      }
      if HoldsOnRetire(from) {
        Abandon(id, DeploymentState.Retired, ActivationState.Retired);
        return Ok(());
      }
      deployments := deployments[id := deployments[id].(state := DeploymentState.Retired, authoritative := false)];
      RebuildSnapshot();
      return Ok(());
    }

    method FailDeployment(id: u64) returns (r: Result<()>)
      requires Valid()
      modifies this
      ensures Valid() && Outcome(View(), r) == Coordinator.FailDeployment(old(View()), id)
    {
      hide ReleaseResources, Marked, ValidDeploymentTransition;
      if id !in deployments {
        return Err(NOT_FOUND);
      }
      if !ValidDeploymentTransition(deployments[id].state, DeploymentState.Failed) {
        return Err(INVALID_TRANSITION);
      }
      Abandon(id, DeploymentState.Failed, ActivationState.Stale);
      return Ok(());
    }

    // ---- restart ----

    method AdvanceEpoch()
      requires Valid()
      modifies this
      ensures Valid() && View() == Coordinator.AdvanceEpoch(old(View())).state
    {
      epoch := NextGeneration(epoch);
      RebuildSnapshot();
    }

    method RecoverDevices(p: RecoveryPolicy)
      modifies this`devices
      ensures devices == RecoveredDevices(old(devices), p)
    {
      hide DeviceRecord.WithStatus;
      var todo := devices.Keys;
      while todo != {}
        invariant todo <= devices.Keys == old(devices).Keys
        invariant forall d :: d in devices ==>
                    devices[d] == if d in todo then old(devices)[d] else RecoveredDevice(old(devices)[d], p)
        decreases |todo|
      {
        var id := Least(todo);
        var d := devices[id];
        if d.status.lifecycle != DeviceLifecycle.Retired {
          var lifecycle := if d.status.lifecycle.Failed? || d.status.lifecycle.Offline? then d.status.lifecycle
                           else DeviceLifecycle.RevalidationRequired;
          var caps := d.features.capabilities;
          if p == FenceAllDynamic {
            caps := RevalidateCapabilities(caps);
          }
          devices := devices[id := d.WithStatus(lifecycle, false).(features := d.features.(capabilities := caps))];
        }
        todo := todo - {id};
      }
    }

    method RevalidateCapabilities(caps: map<Str, Capability>) returns (r: map<Str, Capability>)
      ensures r == map k | k in caps :: RevalidatedCapability(caps[k])
    {
      r := caps;
      var todo := caps.Keys;
      while todo != {}
        invariant todo <= r.Keys == caps.Keys
        invariant forall k :: k in caps ==> r[k] == if k in todo then caps[k] else RevalidatedCapability(caps[k])
        decreases |todo|
      {
        var k :| k in todo;
        if r[k].state == CapabilityState.Supported {
          r := r[k := r[k].(state := CapabilityState.NeedsRevalidation)];
        }
        todo := todo - {k};
      }
    }

    method ApplyRecovery(p: RecoveryPolicy)
      requires Valid()
      modifies this
      ensures Valid() && View() == Coordinator.ApplyRecovery(old(View()), p).state
    {
      hide Fence, RecoveredDevices;
      RecoverDevices(p);
      FenceDeployments(CoordinatorRecovered);
      assert View() == Coordinator.ApplyRecovery(old(View()), p).state;
      RebuildSnapshot();
    }

    // ---- the state file ----

    /** What save would write for the published snapshot. */
    method Persist() returns (r: Result<seq<byte>>)
      requires Valid()
      ensures r.Err? ==> r.error == INVALID_ARGUMENT
      ensures r.Ok? <==> StateFile.Writable(MakeSnapshot(View()))
      ensures Recovery.Savable(View()) ==> r.Ok?
      ensures r.Ok? ==> r.value == Recovery.FileOf(View())
    {
      hide StateFile.Writable, Store.Container, Persistence.Payload, Persistence.StorableTables;
      r := StateFile.Save(snap);
      if Recovery.Savable(View()) {
        StateFile.BoundsFit(snap);
      }
    }

    method AdoptDevices(loaded: State)
      modifies this`devices, this`deviceOrder, this`ledgers, this`usage
      ensures devices == loaded.devices && deviceOrder == loaded.deviceOrder && ledgers == loaded.ledgers && usage == loaded.usage
    {
      devices, deviceOrder, ledgers, usage := loaded.devices, loaded.deviceOrder, loaded.ledgers, loaded.usage;
    }

    method AdoptCatalog(loaded: State)
      modifies this`epoch, this`policy, this`services, this`programs, this`currentProgramGen
      ensures epoch == loaded.epoch && policy == loaded.policy && services == loaded.services
      ensures programs == loaded.programs && currentProgramGen == loaded.currentProgramGen
    {
      epoch, policy, services := loaded.epoch, loaded.policy, loaded.services;
      programs, currentProgramGen := loaded.programs, loaded.currentProgramGen;
    }

    method Adopt(loaded: State)
      modifies this
      ensures View() == loaded
    {
      AdoptDevices(loaded);
      AdoptCatalog(loaded);
      deployments, activations, workers, idSeq := loaded.deployments, loaded.activations, loaded.workers, loaded.idSeq;
    }

    /** Every recovered device gets a ledger if it has none, and an empty usage entry. */
    method OpenAccounts()
      modifies this`ledgers, this`usage
      ensures ledgers == Persistence.NewLedgers(devices) + old(ledgers)
      ensures usage == old(usage) + Recovery.ZeroUsage(devices)
    {
      hide Persistence.NewLedgers, Recovery.ZeroUsage, OpenedFor;
      NoneOpened(devices, ledgers, usage);
      assert devices.Keys - devices.Keys == {};
      var todo := devices.Keys;
      while todo != {}
        invariant todo <= devices.Keys
        invariant OpenedFor(devices, devices.Keys - todo, old(ledgers), ledgers, old(usage), usage)
        decreases |todo|
      {
        var id := Least(todo);
        assert devices.Keys - (todo - {id}) == (devices.Keys - todo) + {id};
        OneOpened(devices, devices.Keys - todo, id, old(ledgers), ledgers, old(usage), usage);
        if id !in ledgers {
          ledgers := ledgers[id := Ledger(devices[id].capacity.resources, NOTHING)];
        }
        usage := usage[id := NOTHING];
        todo := todo - {id};
      }
      assert devices.Keys - todo == devices.Keys;
      AllOpened(devices, old(ledgers), ledgers, old(usage), usage);
    }

    /** recover_from on the bytes of the file, if there is one. */
    method RecoverFrom(file: Option<seq<byte>>) returns (r: Result<bool>)
      requires Valid()
      modifies this
      ensures Valid() && Outcome(View(), r) == Recovery.RecoverFrom(old(View()), file)
    {
      hide Persistence.Load, Persistence.NewLedgers, Recovery.ZeroUsage;
      if file.None? {
        return Ok(false);
      }
      var loaded := StateFile.Load(View(), file.value);
      if loaded.Err? {
        return Err(loaded.error);
      }
      Adopt(loaded.value);
      epoch := NextGeneration(epoch);
      OpenAccounts();
      RebuildSnapshot();
      return Ok(true);
    }
  }
}
