/** What the fencing loops and the deployment operations leave alone. */
module Fencing {
  import opened Base
  import opened Resource
  import opened Records
  import opened Coordinator

  /** Fencing never touches the device, service, program or worker tables, the epoch or the counters. */
  predicate SameRegistries(s: State, r: State) {
    r == s.(deployments := r.deployments, activations := r.activations, ledgers := r.ledgers, usage := r.usage)
  }

  lemma MovedFrame(s: State, k: u64, to: DeploymentState, mark: ActivationState)
    requires k in s.deployments
    ensures SameRegistries(s, MovedWith(s, k, to, mark))
  {
    hide Marked;
  }

  lemma ReleaseFrame(s: State, k: u64)
    requires k in s.deployments
    ensures SameRegistries(s, ReleaseResources(s, k))
    ensures ReleaseResources(s, k).deployments == s.deployments
    ensures ReleaseResources(s, k).activations == s.activations
  {
    hide Released;
  }

  lemma FenceOneFrame(s: State, k: u64, rule: FenceRule)
    requires k in s.deployments
    ensures SameRegistries(s, FenceOne(s, k, rule))
  {
    hide Hits, MovedWith, ReleaseResources;
    MovedFrame(s, k, DeploymentState.RevalidationRequired, ActivationState.Stale);
    var fenced := MovedWith(s, k, DeploymentState.RevalidationRequired, ActivationState.Stale);
    ReleaseFrame(fenced, k);
  }

  lemma {:induction false} FenceAllFrame(s: State, todo: set<u64>, rule: FenceRule)
    requires todo <= s.deployments.Keys
    ensures SameRegistries(s, FenceAll(s, todo, rule))
    decreases |todo|
  {
    hide FenceOne;
    if todo != {} {
      var k := Least(todo);
      FenceOneFrame(s, k, rule);
      FenceAllFrame(FenceOne(s, k, rule), todo - {k}, rule);
    }
  }

  lemma FenceFrame(s: State, rule: FenceRule)
    ensures SameRegistries(s, Fence(s, rule))
  {
    FenceAllFrame(s, s.deployments.Keys, rule);
  }

  // ---- the loop in closed form ----

  /** What a fence makes of one deployment. */
  function AfterFence(rule: FenceRule, d: Deployment): Deployment {
    if Hits(rule, d) then d.(state := DeploymentState.RevalidationRequired, authoritative := false) else d
  }

  lemma FenceOneAt(s: State, k: u64, rule: FenceRule, j: u64)
    requires k in s.deployments && j in s.deployments
    ensures FenceOne(s, k, rule).deployments[j] ==
            if j == k then AfterFence(rule, s.deployments[j]) else s.deployments[j]
  {
    hide Hits, Marked, ReleaseResources;
    ReleaseFrame(MovedWith(s, k, DeploymentState.RevalidationRequired, ActivationState.Stale), k);
  }

  lemma {:induction false} FenceAllAt(s: State, todo: set<u64>, rule: FenceRule, j: u64)
    requires todo <= s.deployments.Keys && j in s.deployments
    ensures FenceAll(s, todo, rule).deployments[j] ==
            if j in todo then AfterFence(rule, s.deployments[j]) else s.deployments[j]
    decreases |todo|
  {
    hide FenceOne, AfterFence;
    if todo != {} {
      var k := Least(todo);
      FenceOneAt(s, k, rule, j);
      FenceAllAt(FenceOne(s, k, rule), todo - {k}, rule, j);
    }
  }

  /** The loop treats every deployment alike, whatever order it visits them in. */
  lemma FenceAt(s: State, rule: FenceRule, j: u64)
    requires j in s.deployments
    ensures Fence(s, rule).deployments.Keys == s.deployments.Keys
    ensures Fence(s, rule).deployments[j] == AfterFence(rule, s.deployments[j])
  {
    hide FenceAll, AfterFence;
    FenceAllAt(s, s.deployments.Keys, rule, j);
  }

  lemma FenceOneKeepsAccounts(s: State, k: u64, rule: FenceRule)
    requires k in s.deployments && !rule.DeviceRetired?
    ensures FenceOne(s, k, rule).ledgers == s.ledgers && FenceOne(s, k, rule).usage == s.usage
  {
    hide Hits, Marked;
  }

  /** Only retire_device gives resources back. */
  lemma {:induction false} FenceAllKeepsAccounts(s: State, todo: set<u64>, rule: FenceRule)
    requires todo <= s.deployments.Keys && !rule.DeviceRetired?
    ensures FenceAll(s, todo, rule).ledgers == s.ledgers && FenceAll(s, todo, rule).usage == s.usage
    decreases |todo|
  {
    hide FenceOne;
    if todo != {} {
      var k := Least(todo);
      FenceOneKeepsAccounts(s, k, rule);
      FenceAllKeepsAccounts(FenceOne(s, k, rule), todo - {k}, rule);
    }
  }

  /** Nothing but the deployment and activation tables differs. */
  predicate SameButDeployments(s: State, r: State) {
    r == s.(deployments := r.deployments, activations := r.activations)
  }

  lemma TransitionFrame(s: State, k: u64, to: DeploymentState)
    ensures SameButDeployments(s, DeployTransition(s, k, to).state)
  {
    hide ValidDeploymentTransition;
  }

  lemma ActivateFrame(s: State, k: u64)
    ensures SameButDeployments(s, ActivateDeployment(s, k).state.(idSeq := s.idSeq))
  {
    hide ValidDeploymentTransition;
  }

  lemma CommitFrame(s: State, k: u64)
    ensures SameButDeployments(s, CommitDeployment(s, k).state)
  {
    hide CapturedAuthority, DeviceRecord.ReadyForOffload;
  }

  lemma DrainFrame(s: State, k: u64)
    ensures SameButDeployments(s, DrainDeployment(s, k).state)
  {
    hide Marked;
  }

  /** The calls that move one deployment and touch no account. */
  predicate RungOp(op: Op) {
    op.OpStage? || op.OpLoad? || op.OpValidate? || op.OpActivate? || op.OpCommit? || op.OpDrain?
  }

  lemma RungFrame(s: State, op: Op)
    requires RungOp(op)
    ensures SameButDeployments(s, Apply(s, op).(idSeq := s.idSeq))
  {
    hide DeployTransition, ActivateDeployment, CommitDeployment, DrainDeployment;
    match op {
      case OpStage(j) => TransitionFrame(s, j, DeploymentState.Staging);
      case OpLoad(j) => TransitionFrame(s, j, DeploymentState.Loaded);
      case OpValidate(j) => TransitionFrame(s, j, DeploymentState.Validating);
      case OpActivate(j) => ActivateFrame(s, j);
      case OpCommit(j) => CommitFrame(s, j);
      case OpDrain(j) => DrainFrame(s, j);
    }
  }

  /** A reservation in closed form: what it needs, and everything it writes. */
  lemma ReserveEffect(s: State, req: OffloadRequest, selected: Option<u64>)
    ensures var o := ReserveDeployment(s, req, selected);
            if o.result.Err? then o.state == s || o.state == s.(idSeq := WrapAdd(s.idSeq, 2))
            else
              && selected.Some? && selected.value in s.devices && s.devices[selected.value].ReadyForOffload()
              && (req.service.Some? ==> req.service.value in s.services) && selected.value in s.ledgers
              && var b, l := NewBinding(s, req, selected.value), s.ledgers[selected.value];
                 var used := Applied(l.used, b.resources);
                 && Admits(l.cap, l.used, b.resources) && o.result.value == b.deploymentId
                 && o.state == s.(idSeq := WrapAdd(s.idSeq, 2),
                                  ledgers := s.ledgers[selected.value := l.(used := used)],
                                  usage := s.usage[selected.value := used],
                                  deployments := s.deployments[b.deploymentId := NewDeployment(b)])
  {
    hide Admits, Applied, NewBinding, NewDeployment, RequestedResources, DeviceRecord.ReadyForOffload, WrapAdd;
  }

  /** What a caller can check before reserving: the device is ready, a named service is known, and the
      device's account has room. */
  predicate Grants(s: State, req: OffloadRequest, selected: Option<u64>) {
    && selected.Some? && selected.value in s.devices && s.devices[selected.value].ReadyForOffload()
    && (req.service.Some? ==> req.service.value in s.services)
    && selected.value in s.ledgers
    && Admits(s.ledgers[selected.value].cap, s.ledgers[selected.value].used, RequestedResources(s.services, req))
  }

  lemma ReservesExactly(s: State, req: OffloadRequest, selected: Option<u64>)
    ensures ReserveDeployment(s, req, selected).result.Ok? <==> Grants(s, req, selected)
  {
    hide Admits, Applied, NewDeployment, RequestedResources, DeviceRecord.ReadyForOffload, WrapAdd, CurrentGen;
  }

  /** A reservation charges exactly the selected device's account, or nothing. */
  lemma ReserveFrame(s: State, req: OffloadRequest, selected: Option<u64>)
    ensures var o := ReserveDeployment(s, req, selected);
            && SameRegistries(s, o.state.(idSeq := s.idSeq))
            && (o.result.Err? ==> o.state.ledgers == s.ledgers && o.state.usage == s.usage)
            && (o.result.Ok? ==>
                  && selected.Some? && selected.value in s.ledgers
                  && var l, r := s.ledgers[selected.value], RequestedResources(s.services, req);
                     var used := Applied(l.used, r);
                     && Admits(l.cap, l.used, r)
                     && o.state.ledgers == s.ledgers[selected.value := l.(used := used)]
                     && o.state.usage == s.usage[selected.value := used])
  {
    hide ReserveDeployment, Admits, Applied, NewBinding, NewDeployment, RequestedResources, DeviceRecord.ReadyForOffload, WrapAdd;
    ReserveEffect(s, req, selected);
  }

  /** A reservation adds one deployment, under the next id, on a device that is ready. */
  lemma ReserveAdds(s: State, req: OffloadRequest, selected: Option<u64>)
    ensures var o := ReserveDeployment(s, req, selected);
            && o.state.activations == s.activations
            && (o.state.idSeq == s.idSeq || o.state.idSeq == WrapAdd(s.idSeq, 2))
            && (o.result.Err? ==> o.state.deployments == s.deployments)
            && (o.result.Ok? ==>
                  && selected.Some? && selected.value in s.devices && s.devices[selected.value].ReadyForOffload()
                  && (req.service.Some? ==> req.service.value in s.services)
                  && o.result.value == s.idSeq && o.state.idSeq == WrapAdd(s.idSeq, 2)
                  && o.state.deployments == s.deployments[s.idSeq := NewDeployment(NewBinding(s, req, selected.value))])
  {
    hide ReserveDeployment, Admits, Applied, NewBinding, NewDeployment, RequestedResources, DeviceRecord.ReadyForOffload, WrapAdd;
    ReserveEffect(s, req, selected);
  }

  // ---- operations on the device tables ----

  /** Only the device records differ, and no device is dropped. */
  predicate SameButDevices(s: State, r: State) {
    r == s.(devices := r.devices) && s.devices.Keys <= r.devices.Keys
  }

  lemma RegisterFrame(s: State, rec: DeviceRecord)
    ensures var r := RegisterDevice(s, rec).state;
            && r == s.(devices := r.devices, deviceOrder := r.deviceOrder, ledgers := r.ledgers, usage := r.usage)
            && s.devices.Keys <= r.devices.Keys
  {
  }

  lemma SetDeviceFrame(s: State, id: u64, rec: DeviceRecord)
    requires id in s.devices
    ensures SetDevice(s, id, rec) == s.(devices := s.devices[id := rec])
    ensures SetDevice(s, id, rec).devices.Keys == s.devices.Keys
  {
    assert s.devices[id := rec].Keys == s.devices.Keys;
  }

  lemma UpdateEffect(s: State, rec: DeviceRecord)
    ensures var o, id := UpdateDevice(s, rec), rec.identity.deviceId;
            if o.result.Ok? then id in s.devices && o.state == SetDevice(s, id, rec) else o.state == s
  {
    hide Conflicting;
  }

  lemma UpdateFrame(s: State, rec: DeviceRecord)
    ensures SameButDevices(s, UpdateDevice(s, rec).state)
  {
    hide UpdateDevice, SetDevice;
    UpdateEffect(s, rec);
    if UpdateDevice(s, rec).result.Ok? {
      SetDeviceFrame(s, rec.identity.deviceId, rec);
    }
  }

  lemma SetStateFrame(s: State, id: u64, state: CapabilityState, key: Str)
    ensures SameButDevices(s, SetDeviceState(s, id, state, key).state)
  {
    hide WithCapabilityState;
  }

  /** The tables that the remaining operations touch: services, programs, workers and the epoch. */
  predicate SameButCatalog(s: State, r: State) {
    r == s.(services := r.services, programs := r.programs, currentProgramGen := r.currentProgramGen,
            workers := r.workers, epoch := r.epoch)
  }

  predicate CatalogOp(op: Op) {
    op.OpRegisterService? || op.OpRegisterProgram? || op.OpRetireProgram? || op.OpRegisterWorker?
    || op.OpWorkerHeartbeat? || op.OpAdvanceEpoch?
  }

  lemma RegisterServiceFrame(s: State, def: ServiceDefinition)
    ensures SameButCatalog(s, RegisterService(s, def).state)
  {
  }

  lemma RegisterProgramFrame(s: State, art: ProgramArtifact)
    ensures SameButCatalog(s, RegisterProgram(s, art).state)
  {
    hide GenerationsOf;
  }

  lemma RetireProgramFrame(s: State, id: u64)
    ensures SameButCatalog(s, RetireProgram(s, id).state)
  {
  }

  /** A worker that registers does so with a boot other than null. */
  lemma RegisterWorkerFrame(s: State, worker: u64, boot: u64)
    ensures var r := RegisterWorker(s, worker, boot).state;
            r == s || (boot != 0 && r == s.(workers := s.workers[worker := boot]))
  {
  }

  lemma CatalogFrame(s: State, op: Op)
    requires CatalogOp(op)
    ensures SameButCatalog(s, Apply(s, op))
  {
    hide RegisterService, RegisterProgram, RetireProgram, RegisterWorker;
    match op {
      case OpRegisterService(def) => RegisterServiceFrame(s, def);
      case OpRegisterProgram(art) => RegisterProgramFrame(s, art);
      case OpRetireProgram(id) => RetireProgramFrame(s, id);
      case OpRegisterWorker(w, boot) => RegisterWorkerFrame(s, w, boot);
      case OpWorkerHeartbeat(_, _) =>
      case OpAdvanceEpoch =>
    }
  }

  // ---- operations that fence ----

  lemma RetireDeviceFrame(s: State, id: u64)
    ensures SameRegistries(s, RetireDevice(s, id).state.(devices := s.devices))
    ensures RetireDevice(s, id).state.devices.Keys == s.devices.Keys
  {
    hide Fence, DeviceRecord.WithStatus;
    FenceFrame(s, DeviceRetired(id));
  }

  lemma TransitionDeviceFrame(s: State, id: u64, to: DeviceLifecycle)
    ensures SameRegistries(s, TransitionDevice(s, id, to).state.(devices := s.devices))
    ensures TransitionDevice(s, id, to).state.devices.Keys == s.devices.Keys
  {
    hide Fence, SetDevice, ValidDeviceTransition, Invalidates, DeviceRecord.WithStatus;
    FenceFrame(s, DeviceFenced(id));
    if id in s.devices {
      var rec := s.devices[id];
      SetDeviceFrame(Fence(s, DeviceFenced(id)), id, rec.WithStatus(to, false));
      SetDeviceFrame(s, id, rec.WithStatus(to, rec.status.evidenceFresh));
    }
  }

  lemma FenceDeviceFrame(s: State, id: u64, reason: Str)
    ensures SameRegistries(s, FenceDevice(s, id, reason).state.(devices := s.devices))
    ensures FenceDevice(s, id, reason).state.devices.Keys == s.devices.Keys
  {
    hide Fence, FencedRecord;
    FenceFrame(s, DeviceFenced(id));
  }

  lemma LostFrame(s: State, worker: u64)
    ensures SameRegistries(s, MarkWorkerLost(s, worker).state.(devices := s.devices, workers := s.workers))
    ensures MarkWorkerLost(s, worker).state.devices == LostDevices(s.devices, worker)
  {
    hide Fence, LostDevices;
    var lost := s.(devices := LostDevices(s.devices, worker));
    if worker in s.workers {
      FenceFrame(lost, WorkerLost(s.workers[worker]));
    }
  }

  lemma RecoveryFrame(s: State, p: RecoveryPolicy)
    ensures SameRegistries(s, ApplyRecovery(s, p).state.(devices := s.devices))
    ensures ApplyRecovery(s, p).state.devices == RecoveredDevices(s.devices, p)
  {
    hide Fence, RecoveredDevices;
    FenceFrame(s.(devices := RecoveredDevices(s.devices, p)), CoordinatorRecovered);
  }

  // ---- operations that end a deployment ----

  predicate EndingOp(op: Op) {
    op.OpCancel? || op.OpRollback? || op.OpRetire? || op.OpFail?
  }

  lemma AbandonFrame(s: State, k: u64, to: DeploymentState, mark: ActivationState)
    requires k in s.deployments
    ensures SameRegistries(s, Abandoned(s, k, to, mark))
  {
    hide MovedWith, ReleaseResources;
    ReleaseFrame(s, k);
    MovedFrame(ReleaseResources(s, k), k, to, mark);
  }

  /** The states in which an ending call gives the deployment's resources back. */
  predicate Releases(op: Op, from: DeploymentState)
    requires EndingOp(op)
  {
    match op
    case OpCancel(_) => from.Planned? || Preparing(from)
    case OpRollback(_) => from.Failed? || Preparing(from)
    case OpRetire(_) => HoldsOnRetire(from)
    case OpFail(_) => ValidDeploymentTransition(from, DeploymentState.Failed)
  }

  function EndState(op: Op): DeploymentState
    requires EndingOp(op)
  {
    if op.OpRetire? then DeploymentState.Retired else if op.OpFail? then DeploymentState.Failed else DeploymentState.Aborted
  }

  function EndMark(op: Op): ActivationState
    requires EndingOp(op)
  {
    if op.OpRetire? then ActivationState.Retired else if op.OpFail? then ActivationState.Stale else ActivationState.Cancelled
  }

  lemma EndingEffect(s: State, op: Op)
    requires EndingOp(op)
    ensures var k := op.deployment;
            Apply(s, op) ==
            if k !in s.deployments then s
            else if Releases(op, s.deployments[k].state) then Abandoned(s, k, EndState(op), EndMark(op))
            else if op.OpRetire? && (s.deployments[k].state.Failed? || s.deployments[k].state.Aborted?) then
              Moved(s, k, DeploymentState.Retired)
            else s
  {
    hide Abandoned, Moved, ValidDeploymentTransition, Preparing, HoldsOnRetire;
  }

  lemma EndingFrame(s: State, op: Op)
    requires EndingOp(op)
    ensures SameRegistries(s, Apply(s, op))
  {
    hide Apply, Abandoned, Releases;
    EndingEffect(s, op);
    if op.deployment in s.deployments {
      AbandonFrame(s, op.deployment, EndState(op), EndMark(op));
    }
  }

  lemma DeviceOpIds(s: State, op: Op)
    requires DeviceOp(op)
    ensures Apply(s, op).idSeq == s.idSeq
  {
    hide RegisterDevice, UpdateDevice, RetireDevice, TransitionDevice, SetDeviceState, FenceDevice, MarkWorkerLost,
         ApplyRecovery;
    match op {
      case OpRegisterDevice(rec) => RegisterFrame(s, rec);
      case OpUpdateDevice(rec) => UpdateFrame(s, rec);
      case OpSetDeviceState(id, state, key) => SetStateFrame(s, id, state, key);
      case OpRetireDevice(id) => RetireDeviceFrame(s, id);
      case OpTransitionDevice(id, to) => TransitionDeviceFrame(s, id, to);
      case OpFenceDevice(id, reason) => FenceDeviceFrame(s, id, reason);
      case OpMarkWorkerLost(w) => LostFrame(s, w);
      case OpApplyRecovery(p) => RecoveryFrame(s, p);
    }
  }

  lemma RungIds(s: State, op: Op)
    requires RungOp(op) && !op.OpActivate?
    ensures Apply(s, op).idSeq == s.idSeq
  {
    hide DeployTransition, CommitDeployment, DrainDeployment;
    match op {
      case OpStage(k) => TransitionFrame(s, k, DeploymentState.Staging);
      case OpLoad(k) => TransitionFrame(s, k, DeploymentState.Loaded);
      case OpValidate(k) => TransitionFrame(s, k, DeploymentState.Validating);
      case OpCommit(k) => CommitFrame(s, k);
      case OpDrain(k) => DrainFrame(s, k);
    }
  }

  /** Identities are drawn by reserving and activating only. */
  lemma IdsUntouched(s: State, op: Op)
    requires !op.OpReserve? && !op.OpActivate?
    ensures Apply(s, op).idSeq == s.idSeq
  {
    hide Apply;
    if CatalogOp(op) {
      CatalogFrame(s, op);
    } else if EndingOp(op) {
      EndingFrame(s, op);
    } else if DeviceOp(op) {
      DeviceOpIds(s, op);
    } else {
      RungIds(s, op);
    }
  }

  /** Everything but the services, the programs, the policy and the epoch may differ. */
  predicate SameCatalog(s: State, r: State) {
    r == s.(devices := r.devices, deviceOrder := r.deviceOrder, ledgers := r.ledgers, usage := r.usage,
            deployments := r.deployments, activations := r.activations, workers := r.workers, idSeq := r.idSeq)
  }

  lemma CatalogUntouched(s: State, op: Op)
    requires !CatalogOp(op)
    ensures SameCatalog(s, Apply(s, op))
  {
    hide RegisterDevice, UpdateDevice, RetireDevice, TransitionDevice, SetDeviceState, FenceDevice, MarkWorkerLost,
         ApplyRecovery, ReserveDeployment;
    match op {
      case OpRegisterDevice(rec) => RegisterFrame(s, rec);
      case OpUpdateDevice(rec) => UpdateFrame(s, rec);
      case OpSetDeviceState(id, state, key) => SetStateFrame(s, id, state, key);
      case OpRetireDevice(id) => RetireDeviceFrame(s, id);
      case OpTransitionDevice(id, to) => TransitionDeviceFrame(s, id, to);
      case OpFenceDevice(id, reason) => FenceDeviceFrame(s, id, reason);
      case OpMarkWorkerLost(w) => LostFrame(s, w);
      case OpApplyRecovery(p) => RecoveryFrame(s, p);
      case OpReserve(req, selected) => ReserveFrame(s, req, selected);
      case OpCancel(_) | OpRollback(_) | OpRetire(_) | OpFail(_) =>
        hide Apply;
        EndingFrame(s, op);
      case _ =>
        hide Apply;
        RungFrame(s, op);
    }
  }

  // ---- which calls fence, and what they make of each deployment ----

  predicate DeviceOp(op: Op) {
    op.OpRegisterDevice? || op.OpUpdateDevice? || op.OpSetDeviceState? || op.OpRetireDevice? || op.OpTransitionDevice?
    || op.OpFenceDevice? || op.OpMarkWorkerLost? || op.OpApplyRecovery?
  }

  /** The fence that a call runs, if it runs one. */
  function FenceOf(s: State, op: Op): Option<FenceRule> {
    match op
    case OpRetireDevice(id) => if id in s.devices then Some(DeviceRetired(id)) else None
    case OpTransitionDevice(id, to) =>
      if id in s.devices && ValidDeviceTransition(s.devices[id].status.lifecycle, to) && Invalidates(to)
      then Some(DeviceFenced(id)) else None
    case OpFenceDevice(id, _) => if id in s.devices then Some(DeviceFenced(id)) else None
    case OpMarkWorkerLost(w) => if w in s.workers then Some(WorkerLost(s.workers[w])) else None
    case OpApplyRecovery(_) => Some(CoordinatorRecovered)
    case _ => None
  }

  function AfterDeviceOp(s: State, op: Op, d: Deployment): Deployment {
    var rule := FenceOf(s, op);
    if rule.Some? then AfterFence(rule.value, d) else d
  }

  lemma RetireDeviceAt(s: State, id: u64, k: u64)
    requires k in s.deployments
    ensures var r := RetireDevice(s, id).state;
            && r.deployments.Keys == s.deployments.Keys
            && r.deployments[k] == if id in s.devices then AfterFence(DeviceRetired(id), s.deployments[k]) else s.deployments[k]
  {
    hide Fence, AfterFence, DeviceRecord.WithStatus;
    FenceAt(s, DeviceRetired(id), k);
  }

  lemma FenceDeviceAt(s: State, id: u64, reason: Str, k: u64)
    requires k in s.deployments
    ensures var r := FenceDevice(s, id, reason).state;
            && r.deployments.Keys == s.deployments.Keys
            && r.deployments[k] == if id in s.devices then AfterFence(DeviceFenced(id), s.deployments[k]) else s.deployments[k]
  {
    hide Fence, AfterFence, FencedRecord;
    FenceAt(s, DeviceFenced(id), k);
  }

  lemma TransitionDeviceAt(s: State, id: u64, to: DeviceLifecycle, k: u64)
    requires k in s.deployments
    ensures var r := TransitionDevice(s, id, to).state;
            && r.deployments.Keys == s.deployments.Keys
            && r.deployments[k] == if FenceOf(s, OpTransitionDevice(id, to)).Some?
                                   then AfterFence(DeviceFenced(id), s.deployments[k]) else s.deployments[k]
  {
    hide Fence, AfterFence, ValidDeviceTransition, Invalidates, DeviceRecord.WithStatus;
    FenceAt(s, DeviceFenced(id), k);
  }

  lemma LostAt(s: State, w: u64, k: u64)
    requires k in s.deployments
    ensures var r := MarkWorkerLost(s, w).state;
            && r.deployments.Keys == s.deployments.Keys
            && r.deployments[k] == if w in s.workers then AfterFence(WorkerLost(s.workers[w]), s.deployments[k]) else s.deployments[k]
  {
    hide Fence, AfterFence, LostDevices;
    if w in s.workers {
      FenceAt(s.(devices := LostDevices(s.devices, w)), WorkerLost(s.workers[w]), k);
    }
  }

  lemma RecoveryAt(s: State, p: RecoveryPolicy, k: u64)
    requires k in s.deployments
    ensures var r := ApplyRecovery(s, p).state;
            && r.deployments.Keys == s.deployments.Keys
            && r.deployments[k] == AfterFence(CoordinatorRecovered, s.deployments[k])
  {
    hide Fence, AfterFence, RecoveredDevices;
    FenceAt(s.(devices := RecoveredDevices(s.devices, p)), CoordinatorRecovered, k);
  }

  lemma DeviceOpAt(s: State, op: Op, k: u64)
    requires k in s.deployments && DeviceOp(op)
    ensures k in Apply(s, op).deployments
    ensures Apply(s, op).deployments[k] == AfterDeviceOp(s, op, s.deployments[k])
  {
    hide AfterFence, RegisterDevice, UpdateDevice, SetDeviceState, RetireDevice, TransitionDevice, FenceDevice,
         MarkWorkerLost, ApplyRecovery, ValidDeviceTransition, Invalidates;
    match op {
      case OpRegisterDevice(rec) => RegisterFrame(s, rec);
      case OpUpdateDevice(rec) => UpdateFrame(s, rec);
      case OpSetDeviceState(id, state, key) => SetStateFrame(s, id, state, key);
      case OpRetireDevice(id) => RetireDeviceAt(s, id, k);
      case OpTransitionDevice(id, to) => TransitionDeviceAt(s, id, to, k);
      case OpFenceDevice(id, reason) => FenceDeviceAt(s, id, reason, k);
      case OpMarkWorkerLost(w) => LostAt(s, w, k);
      case OpApplyRecovery(p) => RecoveryAt(s, p, k);
    }
  }

  lemma FencingOpKeys(s: State, op: Op)
    requires op.OpRetireDevice? || op.OpTransitionDevice? || op.OpFenceDevice? || op.OpMarkWorkerLost? || op.OpApplyRecovery?
    ensures Apply(s, op).deployments.Keys == s.deployments.Keys
  {
    hide Fence, LostDevices, RecoveredDevices, ValidDeviceTransition, Invalidates, DeviceRecord.WithStatus, FencedRecord;
  }

  /** No deployment appears in a call on devices. */
  lemma DeviceOpKeys(s: State, op: Op)
    requires DeviceOp(op)
    ensures Apply(s, op).deployments.Keys == s.deployments.Keys
  {
    hide RegisterDevice, UpdateDevice, SetDeviceState;
    match op {
      case OpRegisterDevice(rec) => RegisterFrame(s, rec);
      case OpUpdateDevice(rec) => UpdateFrame(s, rec);
      case OpSetDeviceState(id, state, key) => SetStateFrame(s, id, state, key);
      case _ =>
        hide Apply;
        FencingOpKeys(s, op);
    }
  }
}
