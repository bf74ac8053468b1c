/** Devices in and out of service: a fence sticks, and what service on a device guarantees. */
module Devices {
  import opened Base
  import opened Resource
  import opened Records
  import opened Coordinator
  import opened Fencing
  import Coupling
  import Eligibility
  import Lifecycle

  // ---- one call, one device ----

  /** The device table after a call on devices. */
  function DevicesAfter(s: State, op: Op): map<u64, DeviceRecord>
    requires DeviceOp(op)
  {
    match op
    case OpRegisterDevice(rec) => RegisterDevice(s, rec).state.devices
    case OpUpdateDevice(rec) => UpdateDevice(s, rec).state.devices
    case OpMarkWorkerLost(w) => LostDevices(s.devices, w)
    case OpApplyRecovery(p) => RecoveredDevices(s.devices, p)
    case _ => if Rewrites(s, op) then s.devices[op.device := RecordAfter(s, op)] else s.devices
  }

  predicate NamesDevice(op: Op) {
    op.OpRetireDevice? || op.OpTransitionDevice? || op.OpFenceDevice? || op.OpSetDeviceState?
  }

  predicate Rewrites(s: State, op: Op)
    requires NamesDevice(op)
  {
    op.device in s.devices &&
    (op.OpTransitionDevice? ==> ValidDeviceTransition(s.devices[op.device].status.lifecycle, op.to))
  }

  /** The record of the one device that a call names. */
  function RecordAfter(s: State, op: Op): DeviceRecord
    requires NamesDevice(op) && op.device in s.devices
  {
    var d := s.devices[op.device];
    match op
    case OpRetireDevice(_) => d.WithStatus(DeviceLifecycle.Retired, false)
    case OpTransitionDevice(_, to) => d.WithStatus(to, !Invalidates(to) && d.status.evidenceFresh)
    case OpFenceDevice(_, reason) => FencedRecord(d, reason)
    case OpSetDeviceState(_, state, key) =>
      d.(features := d.features.(capabilities := WithCapabilityState(d.features.capabilities, key, state)))
  }

  lemma FencingOpDevices(s: State, op: Op)
    requires op.OpRetireDevice? || op.OpFenceDevice? || op.OpSetDeviceState?
    ensures Apply(s, op).devices == DevicesAfter(s, op)
  {
    hide Fence, DeviceRecord.WithStatus, FencedRecord, WithCapabilityState;
    FenceFrame(s, DeviceRetired(op.device));
    FenceFrame(s, DeviceFenced(op.device));
  }

  lemma TransitionTable(s: State, id: u64, to: DeviceLifecycle)
    requires id in s.devices && ValidDeviceTransition(s.devices[id].status.lifecycle, to)
    ensures var d := s.devices[id];
            TransitionDevice(s, id, to).state.devices ==
            s.devices[id := d.WithStatus(to, !Invalidates(to) && d.status.evidenceFresh)]
  {
    hide Fence, DeviceRecord.WithStatus, ValidDeviceTransition, Invalidates;
    FenceFrame(s, DeviceFenced(id));
  }

  lemma TransitionDevices(s: State, op: Op)
    requires op.OpTransitionDevice?
    ensures Apply(s, op).devices == DevicesAfter(s, op)
  {
    hide Fence, DeviceRecord.WithStatus, ValidDeviceTransition, Invalidates;
    if Rewrites(s, op) {
      TransitionTable(s, op.device, op.to);
      hide TransitionDevice;
    }
  }

  lemma DeviceOpDevices(s: State, op: Op)
    requires DeviceOp(op)
    ensures Apply(s, op).devices == DevicesAfter(s, op)
  {
    if op.OpTransitionDevice? {
      TransitionDevices(s, op);
      hide Apply, DevicesAfter;
    } else if op.OpMarkWorkerLost? {
      hide MarkWorkerLost, LostDevices;
      LostFrame(s, op.worker);
    } else if op.OpApplyRecovery? {
      hide ApplyRecovery, RecoveredDevices;
      RecoveryFrame(s, op.policy);
    } else if op.OpRegisterDevice? || op.OpUpdateDevice? {
      hide RegisterDevice, UpdateDevice;
    } else {
      FencingOpDevices(s, op);
      hide Apply, DevicesAfter;
    }
  }

  /** b is device a later on: the same hardware and the same owner, its evidence no newer and no fresher. */
  predicate Ages(a: DeviceRecord, b: DeviceRecord) {
    && b == a.(status := b.status, features := b.features)
    && b.status.evidenceGen == a.status.evidenceGen && b.status.owningWorker == a.status.owningWorker
    && (b.status.evidenceFresh ==> a.status.evidenceFresh)
  }

  predicate Replaces(op: Op, d: u64) {
    op.OpUpdateDevice? && op.rec.identity.deviceId == d
  }

  lemma StatusAges(a: DeviceRecord, to: DeviceLifecycle, isFresh: bool)
    requires isFresh ==> a.status.evidenceFresh
    ensures Ages(a, a.WithStatus(to, isFresh))
  {
  }

  lemma RecordsAge(a: DeviceRecord, reason: Str, w: u64, p: RecoveryPolicy, caps: map<Str, Capability>)
    ensures Ages(a, a) && Ages(a, FencedRecord(a, reason)) && Ages(a, LostDevice(a, w))
    ensures Ages(a, a.(features := a.features.(capabilities := caps)))
    ensures Ages(a, RecoveredDevice(a, p))
  {
  }

  lemma NamedAges(s: State, op: Op)
    requires NamesDevice(op) && op.device in s.devices
    ensures Ages(s.devices[op.device], RecordAfter(s, op))
  {
    hide Ages, ValidDeviceTransition, Invalidates, DeviceRecord.WithStatus, FencedRecord, LostDevice, RecoveredDevice,
         WithCapabilityState;
    var a := s.devices[op.device];
    StatusAges(a, DeviceLifecycle.Retired, false);
    match op {
      case OpTransitionDevice(_, to) =>
        StatusAges(a, to, !Invalidates(to) && a.status.evidenceFresh);
        RecordsAge(a, [], 0, FenceAllDynamic, map[]);
      case OpFenceDevice(_, reason) => RecordsAge(a, reason, 0, FenceAllDynamic, map[]);
      case OpSetDeviceState(_, state, key) =>
        RecordsAge(a, [], 0, FenceAllDynamic, WithCapabilityState(a.features.capabilities, key, state));
      case _ =>
    }
  }

  lemma TableAges(s: State, op: Op, d: u64)
    requires d in s.devices && DeviceOp(op) && !NamesDevice(op) && !Replaces(op, d)
    ensures d in DevicesAfter(s, op) && Ages(s.devices[d], DevicesAfter(s, op)[d])
  {
    hide Ages, LostDevice, RecoveredDevice, RecordAfter, Rewrites, RegisterDevice, UpdateDevice;
    match op {
      case OpRegisterDevice(rec) => RegisterTable(s, rec);
      case OpUpdateDevice(rec) => UpdateTable(s, rec);
      case OpMarkWorkerLost(w) =>
      case OpApplyRecovery(p) =>
    }
    RecordsAge(s.devices[d], [], if op.OpMarkWorkerLost? then op.worker else 0,
               if op.OpApplyRecovery? then op.policy else FenceAllDynamic, map[]);
  }

  lemma RegisterTable(s: State, rec: DeviceRecord)
    ensures var r := RegisterDevice(s, rec).state.devices;
            r == s.devices || (rec.identity.deviceId !in s.devices && r == s.devices[rec.identity.deviceId := rec])
  {
  }

  lemma UpdateTable(s: State, rec: DeviceRecord)
    ensures var r := UpdateDevice(s, rec).state.devices;
            r == s.devices || r == s.devices[rec.identity.deviceId := rec]
  {
    hide UpdateDevice;
    UpdateEffect(s, rec);
  }

  lemma NamedTableAges(s: State, op: Op, d: u64)
    requires d in s.devices && NamesDevice(op)
    ensures d in DevicesAfter(s, op) && Ages(s.devices[d], DevicesAfter(s, op)[d])
  {
    hide Ages, RecordAfter, Rewrites;
    RecordsAge(s.devices[d], [], 0, FenceAllDynamic, map[]);
    if op.device in s.devices {
      NamedAges(s, op);
    } else {
      assert !Rewrites(s, op) by {
        NotRewritten(s, op);
      }
    }
  }

  lemma NotRewritten(s: State, op: Op)
    requires NamesDevice(op) && op.device !in s.devices
    ensures !Rewrites(s, op)
  {
  }

  /** No other call touches a device record. */
  lemma OtherOpsKeepDevices(s: State, op: Op)
    requires !DeviceOp(op)
    ensures Apply(s, op).devices == s.devices
  {
    hide Apply;
    if CatalogOp(op) {
      CatalogFrame(s, op);
    } else if EndingOp(op) {
      EndingFrame(s, op);
    } else if RungOp(op) {
      RungFrame(s, op);
    } else {
      Lifecycle.ApplyReserve(s, op);
      hide ReserveDeployment;
      ReserveFrame(s, op.req, op.selected);
    }
  }

  /** Only update_device can make evidence fresh again, or change what a device is. */
  lemma DeviceStep(s: State, op: Op, d: u64)
    requires d in s.devices && !Replaces(op, d)
    ensures d in Apply(s, op).devices && Ages(s.devices[d], Apply(s, op).devices[d])
  {
    hide Apply, Ages, DevicesAfter;
    if DeviceOp(op) {
      DeviceOpDevices(s, op);
      if NamesDevice(op) {
        NamedTableAges(s, op, d);
      } else {
        TableAges(s, op, d);
      }
    } else {
      OtherOpsKeepDevices(s, op);
      RecordsAge(s.devices[d], [], 0, FenceAllDynamic, map[]);
    }
  }

  // ---- a fence sticks ----

  /** Device d is out of service: it is not ready, and nothing is in service on it. */
  ghost predicate OutOfService(s: State, d: u64) {
    && d in s.devices && !s.devices[d].status.evidenceFresh
    && forall k :: k in s.deployments && s.deployments[k].binding.device == d ==> !s.deployments[k].state.Active?
  }

  /** A deployment is in service after a call only if it was before, or was committed on a ready device. */
  lemma InServiceBecause(s: State, op: Op, k: u64)
    requires k in Apply(s, op).deployments && Apply(s, op).deployments[k].state.Active?
    ensures k in s.deployments && Apply(s, op).deployments[k].binding == s.deployments[k].binding
    ensures var d := s.deployments[k];
            d.state.Active?
            || (op == OpCommit(k) && d.binding.device in s.devices && s.devices[d.binding.device].ReadyForOffload())
  {
    hide Apply, CommitDeployment, ReserveDeployment, NewBinding, DeviceRecord.ReadyForOffload;
    if k !in s.deployments {
      Lifecycle.NewcomersAreReserved(s, op, k);
    } else if op.OpCommit? {
      ApplyCommit(s, op);
      Lifecycle.CommitEffect(s, op.deployment);
    } else if op.OpReserve? {
      Lifecycle.ApplyReserve(s, op);
      ReserveAdds(s, op.req, op.selected);
    } else {
      Lifecycle.QuietStep(s, op, k);
      QuietNotIntoService(s.deployments[k], Apply(s, op).deployments[k]);
    }
  }

  lemma QuietNotIntoService(d: Deployment, e: Deployment)
    requires Lifecycle.Quiet(d, e) && e.state.Active?
    ensures e == d
  {
  }

  lemma ApplyCommit(s: State, op: Op)
    requires op.OpCommit?
    ensures Apply(s, op) == CommitDeployment(s, op.deployment).state
  {
  }

  lemma OutOfServiceStep(s: State, op: Op, d: u64)
    requires OutOfService(s, d) && !Replaces(op, d)
    ensures OutOfService(Apply(s, op), d)
  {
    hide Apply;
    DeviceStep(s, op, d);
    forall k | k in Apply(s, op).deployments && Apply(s, op).deployments[k].binding.device == d
      ensures !Apply(s, op).deployments[k].state.Active?
    {
      if Apply(s, op).deployments[k].state.Active? {
        InServiceBecause(s, op, k);
      }
    }
  }

  /** Whatever calls follow, a device that is out of service stays out until it is updated itself. */
  lemma {:induction false} StaysOutOfService(s: State, ops: seq<Op>, d: u64)
    requires OutOfService(s, d)
    requires forall i :: 0 <= i < |ops| ==> !Replaces(ops[i], d)
    ensures OutOfService(Run(s, ops), d)
  {
    if ops != [] {
      StaysOutOfService(s, ops[..|ops| - 1], d);
      hide OutOfService, Apply;
      OutOfServiceStep(Run(s, ops[..|ops| - 1]), ops[|ops| - 1], d);
    }
  }

  /** The calls that take device d out of service. */
  predicate TakesOut(s: State, op: Op, d: u64) {
    d in s.devices &&
    match op
    case OpFenceDevice(id, _) => id == d
    case OpRetireDevice(id) => id == d
    case OpTransitionDevice(id, to) =>
      id == d && ValidDeviceTransition(s.devices[d].status.lifecycle, to) && Invalidates(to)
    case OpApplyRecovery(_) => s.devices[d].status.lifecycle != DeviceLifecycle.Retired
    case _ => false
  }

  lemma TakenOut(s: State, op: Op, d: u64)
    requires TakesOut(s, op, d)
    ensures OutOfService(Apply(s, op), d)
  {
    hide Apply, AfterFence;
    DeviceOpKeys(s, op);
    forall k | k in Apply(s, op).deployments && Apply(s, op).deployments[k].binding.device == d
      ensures !Apply(s, op).deployments[k].state.Active?
    {
      DeviceOpAt(s, op, k);
      FenceEnds(FenceOf(s, op).value, s.deployments[k], d);
    }
    EvidenceGone(s, op, d);
  }

  lemma FenceEnds(rule: FenceRule, dep: Deployment, d: u64)
    requires rule == DeviceFenced(d) || rule == DeviceRetired(d) || rule == CoordinatorRecovered
    ensures AfterFence(rule, dep).binding == dep.binding
    ensures dep.binding.device == d ==> !AfterFence(rule, dep).state.Active?
  {
  }

  lemma EvidenceGone(s: State, op: Op, d: u64)
    requires TakesOut(s, op, d)
    ensures d in Apply(s, op).devices && !Apply(s, op).devices[d].status.evidenceFresh
  {
    hide Apply, ValidDeviceTransition, Invalidates;
    DeviceOpDevices(s, op);
  }

  /** Sticky fencing: once d is fenced, retired or invalidated, then whatever other calls run, and until
      update_device is called for d, d is not ready, carries no deployment in service, and no evaluation
      selects it. */
  lemma FencingIsSticky(s: State, op: Op, ops: seq<Op>, d: u64, req: OffloadRequest)
    requires TakesOut(s, op, d)
    requires forall i :: 0 <= i < |ops| ==> !Replaces(ops[i], d)
    ensures var r := Run(Apply(s, op), ops);
            && d in r.devices && !r.devices[d].ReadyForOffload()
            && (forall k :: k in r.deployments && r.deployments[k].binding.device == d ==> !r.deployments[k].state.Active?)
            && !Eligibility.IsSelected(MakeSnapshot(r), req, d)
  {
    TakenOut(s, op, d);
    StaysOutOfService(Apply(s, op), ops, d);
    var r := Run(Apply(s, op), ops);
    hide Run, Apply, TakesOut;
    OutMeansUnselected(r, d, req);
  }

  lemma OutMeansUnselected(r: State, d: u64, req: OffloadRequest)
    requires OutOfService(r, d)
    ensures !r.devices[d].ReadyForOffload() && !Eligibility.Passes(MakeSnapshot(r), req, d)
  {
    hide Eligibility.Rejections;
    if Eligibility.Passes(MakeSnapshot(r), req, d) {
      Eligibility.PassingMeans(MakeSnapshot(r), req, d);
      assert false;
    }
  }

  // ---- what being in service guarantees ----

  /** Every deployment in service sits on a device that is ready, with fresh evidence. */
  ghost predicate InServiceIsReady(s: State) {
    forall k :: k in s.deployments && s.deployments[k].state.Active? ==>
      s.deployments[k].binding.device in s.devices && s.devices[s.deployments[k].binding.device].ReadyForOffload()
  }

  ghost predicate Serves(s: State, d: u64) {
    exists k :: k in s.deployments && s.deployments[k].state.Active? && s.deployments[k].binding.device == d
  }

  /** The calls after which a deployment in service may sit on a device that is not ready: an update to a
      record that is not ready, a transition that does not fence, and the loss of a worker other than one
      whose boot the deployment itself carries. */
  ghost predicate Unfenced(s: State, op: Op) {
    match op
    case OpUpdateDevice(rec) =>
      CanUpdate(s, rec) && !rec.ReadyForOffload() && Serves(s, rec.identity.deviceId)
    case OpTransitionDevice(id, to) =>
      CanMove(s, id, to) && !Invalidates(to) && to != DeviceLifecycle.Ready && Serves(s, id)
    case OpMarkWorkerLost(w) =>
      exists k :: k in s.deployments && s.deployments[k].state.Active? && Abandons(s, w, s.deployments[k])
    case _ => false
  }

  /** The record names a known device and does not contradict its identity. */
  predicate CanUpdate(s: State, rec: DeviceRecord) {
    var id := rec.identity.deviceId;
    id != 0 && id in s.devices && !Conflicting(s.devices[id].identity.pciReference, rec.identity.pciReference)
  }

  predicate CanMove(s: State, id: u64, to: DeviceLifecycle) {
    id in s.devices && ValidDeviceTransition(s.devices[id].status.lifecycle, to)
  }

  predicate Abandons(s: State, w: u64, d: Deployment) {
    && d.binding.device in s.devices && s.devices[d.binding.device].status.owningWorker == w
    && (w in s.workers ==> s.workers[w] != d.workerBoot)
  }

  lemma UpdateInService(s: State, rec: DeviceRecord)
    requires InServiceIsReady(s)
    ensures InServiceIsReady(UpdateDevice(s, rec).state) <==> !Unfenced(s, OpUpdateDevice(rec))
  {
    var id, r := rec.identity.deviceId, UpdateDevice(s, rec).state;
    assert if CanUpdate(s, rec) then id in s.devices && r.devices == s.devices[id := rec] else r == s;
    UpdateFrame(s, rec);
    hide UpdateDevice, DeviceRecord.ReadyForOffload, CanUpdate;
    if CanUpdate(s, rec) && !rec.ReadyForOffload() && Serves(s, id) {
      var k :| k in s.deployments && s.deployments[k].state.Active? && s.deployments[k].binding.device == id;
      assert k in r.deployments;
    }
  }

  lemma PlainTransitionInService(s: State, id: u64, to: DeviceLifecycle)
    requires InServiceIsReady(s) && id in s.devices && !Invalidates(to)
    requires ValidDeviceTransition(s.devices[id].status.lifecycle, to)
    ensures InServiceIsReady(TransitionDevice(s, id, to).state) <==> to == DeviceLifecycle.Ready || !Serves(s, id)
  {
    var r := TransitionDevice(s, id, to).state;
    assert r.deployments == s.deployments;
    assert forall d :: d in s.devices && d != id ==> r.devices[d] == s.devices[d];
    hide TransitionDevice, Invalidates;
    if Serves(s, id) {
      var k :| k in s.deployments && s.deployments[k].state.Active? && s.deployments[k].binding.device == id;
      assert s.devices[id].ReadyForOffload();
      assert k in r.deployments;
    }
    hide ValidDeviceTransition;
  }

  /** A call that fences device id leaves every other device as it was. */
  lemma FencedInService(s: State, op: Op, id: u64)
    requires InServiceIsReady(s) && id in s.devices
    requires FenceOf(s, op) == Some(DeviceFenced(id)) || FenceOf(s, op) == Some(DeviceRetired(id))
    ensures InServiceIsReady(Apply(s, op))
  {
    hide Apply, AfterFence, DeviceRecord.ReadyForOffload;
    DeviceOpKeys(s, op);
    forall k | k in Apply(s, op).deployments && Apply(s, op).deployments[k].state.Active?
      ensures var d := Apply(s, op).deployments[k].binding.device;
              d in Apply(s, op).devices && Apply(s, op).devices[d].ReadyForOffload()
    {
      DeviceOpAt(s, op, k);
      FenceEnds(FenceOf(s, op).value, s.deployments[k], id);
      FenceKeepsService(FenceOf(s, op).value, s.deployments[k]);
      OthersUntouched(s, op, id, s.deployments[k].binding.device);
    }
  }

  lemma FenceKeepsService(rule: FenceRule, dep: Deployment)
    ensures AfterFence(rule, dep).state.Active? ==> AfterFence(rule, dep) == dep
  {
  }

  lemma OthersUntouched(s: State, op: Op, id: u64, d: u64)
    requires id in s.devices && d in s.devices && d != id
    requires FenceOf(s, op) == Some(DeviceFenced(id)) || FenceOf(s, op) == Some(DeviceRetired(id))
    ensures d in Apply(s, op).devices && Apply(s, op).devices[d] == s.devices[d]
  {
    hide Apply, RecordAfter, ValidDeviceTransition, Invalidates;
    DeviceOpDevices(s, op);
  }

  lemma TransitionInService(s: State, op: Op)
    requires InServiceIsReady(s) && op.OpTransitionDevice?
    ensures InServiceIsReady(Apply(s, op)) <==> !Unfenced(s, op)
  {
    var id, to := op.device, op.to;
    if id in s.devices && ValidDeviceTransition(s.devices[id].status.lifecycle, to) {
      if Invalidates(to) {
        FencedInService(s, op, id);
      } else {
        PlainTransitionInService(s, id, to);
      }
    }
    hide InServiceIsReady, Invalidates, ValidDeviceTransition, Serves, Fence;
  }

  lemma LossInService(s: State, op: Op)
    requires InServiceIsReady(s) && op.OpMarkWorkerLost?
    ensures InServiceIsReady(Apply(s, op)) <==> !Unfenced(s, op)
  {
    var w, r := op.worker, Apply(s, op);
    assert r == MarkWorkerLost(s, w).state;
    hide Apply, MarkWorkerLost;
    DeviceOpKeys(s, op);
    LostFrame(s, w);
    forall k | k in s.deployments && s.deployments[k].state.Active?
      ensures r.deployments[k].state.Active? && !(r.deployments[k].binding.device in r.devices && r.devices[r.deployments[k].binding.device].ReadyForOffload())
              <==> Abandons(s, w, s.deployments[k])
    {
      LossOf(s, w, k);
    }
    forall k | k in s.deployments && !s.deployments[k].state.Active? ensures !r.deployments[k].state.Active? {
      LostAt(s, w, k);
    }
    hide LostDevices, Abandons, DeviceRecord.ReadyForOffload;
  }

  lemma LossOf(s: State, w: u64, k: u64)
    requires k in s.deployments && s.deployments[k].state.Active? && s.deployments[k].binding.device in s.devices
    requires s.devices[s.deployments[k].binding.device].ReadyForOffload()
    ensures var r := MarkWorkerLost(s, w).state;
            && k in r.deployments && r.deployments[k].binding == s.deployments[k].binding
            && s.deployments[k].binding.device in r.devices
            && (r.deployments[k].state.Active? && !r.devices[s.deployments[k].binding.device].ReadyForOffload()
                <==> Abandons(s, w, s.deployments[k]))
  {
    hide MarkWorkerLost;
    LostFrame(s, w);
    LostAt(s, w, k);
  }

  lemma OtherOpsInService(s: State, op: Op)
    requires InServiceIsReady(s)
    requires !op.OpUpdateDevice? && !op.OpTransitionDevice? && !op.OpMarkWorkerLost?
    ensures InServiceIsReady(Apply(s, op))
  {
    hide Apply, AfterFence, DeviceRecord.ReadyForOffload;
    var r := Apply(s, op);
    if op.OpRetireDevice? || op.OpFenceDevice? {
      if op.device in s.devices {
        FencedInService(s, op, op.device);
      } else {
        UnknownDevice(s, op);
      }
    } else {
      forall k | k in r.deployments && r.deployments[k].state.Active?
        ensures r.deployments[k].binding.device in r.devices && r.devices[r.deployments[k].binding.device].ReadyForOffload()
      {
        InServiceBecause(s, op, k);
        if op.OpApplyRecovery? {
          DeviceOpAt(s, op, k);
          FenceEnds(CoordinatorRecovered, s.deployments[k], s.deployments[k].binding.device);
        } else {
          StaysReady(s, op, s.deployments[k].binding.device);
          SameStatus(s.devices[s.deployments[k].binding.device], r.devices[s.deployments[k].binding.device]);
        }
      }
    }
  }

  lemma SameStatus(a: DeviceRecord, b: DeviceRecord)
    requires a.status == b.status
    ensures a.ReadyForOffload() == b.ReadyForOffload()
  {
  }

  lemma UnknownDevice(s: State, op: Op)
    requires (op.OpRetireDevice? || op.OpFenceDevice?) && op.device !in s.devices
    ensures Apply(s, op) == s
  {
  }

  lemma StaysReady(s: State, op: Op, d: u64)
    requires d in s.devices && (op.OpRegisterDevice? || op.OpSetDeviceState? || !DeviceOp(op))
    ensures d in Apply(s, op).devices && Apply(s, op).devices[d].status == s.devices[d].status
  {
    hide Apply, WithCapabilityState;
    if DeviceOp(op) {
      DeviceOpDevices(s, op);
    } else {
      OtherOpsKeepDevices(s, op);
    }
  }

  /** One call keeps deployments in service on ready devices exactly unless it is one of those. */
  lemma InServiceStep(s: State, op: Op)
    requires InServiceIsReady(s)
    ensures InServiceIsReady(Apply(s, op)) <==> !Unfenced(s, op)
  {
    if op.OpUpdateDevice? {
      UpdateInService(s, op.rec);
    } else if op.OpTransitionDevice? {
      TransitionInService(s, op);
    } else if op.OpMarkWorkerLost? {
      LossInService(s, op);
    } else {
      OtherOpsInService(s, op);
    }
    hide InServiceIsReady, UpdateDevice, TransitionDevice, Serves, Abandons, DeviceRecord.ReadyForOffload;
  }

  ghost predicate NeverUnfenced(s: State, ops: seq<Op>) {
    ops == [] || (NeverUnfenced(s, ops[..|ops| - 1]) && !Unfenced(Run(s, ops[..|ops| - 1]), ops[|ops| - 1]))
  }

  /** On every run from a fresh engine that makes no such call, service implies a ready device. */
  lemma {:induction false} InServiceOnEveryRun(epoch: u64, policy: Policy, ops: seq<Op>)
    requires NeverUnfenced(Fresh(epoch, policy), ops)
    ensures InServiceIsReady(Run(Fresh(epoch, policy), ops))
  {
    if ops != [] {
      InServiceOnEveryRun(epoch, policy, ops[..|ops| - 1]);
      hide Unfenced, Apply;
      InServiceStep(Run(Fresh(epoch, policy), ops[..|ops| - 1]), ops[|ops| - 1]);
    }
  }

  // ---- losing a worker ----

  /** No deployment is bound to a worker's boot, and no worker has the null boot. */
  ghost predicate Unbound(s: State) {
    (forall k :: k in s.deployments ==> s.deployments[k].workerBoot == 0) && (forall w :: w in s.workers ==> s.workers[w] != 0)
  }

  lemma DeviceOpWorkers(s: State, op: Op)
    requires DeviceOp(op)
    ensures forall w :: w in Apply(s, op).workers ==> w in s.workers && Apply(s, op).workers[w] == s.workers[w]
  {
    hide RegisterDevice, UpdateDevice, RetireDevice, TransitionDevice, SetDeviceState, FenceDevice, Fence, LostDevices, ApplyRecovery;
    match op {
      case OpRegisterDevice(rec) => RegisterFrame(s, rec);
      case OpUpdateDevice(rec) => UpdateFrame(s, rec);
      case OpSetDeviceState(id, state, key) => SetStateFrame(s, id, state, key);
      case OpRetireDevice(id) => RetireDeviceFrame(s, id);
      case OpTransitionDevice(id, to) => TransitionDeviceFrame(s, id, to);
      case OpFenceDevice(id, reason) => FenceDeviceFrame(s, id, reason);
      case OpMarkWorkerLost(w) =>
      case OpApplyRecovery(p) => RecoveryFrame(s, p);
    }
  }

  lemma WorkersStep(s: State, op: Op)
    ensures forall w :: w in Apply(s, op).workers ==>
              (w in s.workers && Apply(s, op).workers[w] == s.workers[w]) || Apply(s, op).workers[w] != 0
  {
    hide Apply;
    if op.OpRegisterWorker? {
      RegisterWorkerBoots(s, op);
    } else if DeviceOp(op) {
      DeviceOpWorkers(s, op);
    } else if EndingOp(op) {
      EndingFrame(s, op);
    } else if RungOp(op) {
      RungFrame(s, op);
    } else if op.OpReserve? {
      Lifecycle.ApplyReserve(s, op);
      hide ReserveDeployment;
      ReserveFrame(s, op.req, op.selected);
    } else {
      OtherCatalogWorkers(s, op);
    }
  }

  lemma RegisterWorkerBoots(s: State, op: Op)
    requires op.OpRegisterWorker?
    ensures forall w :: w in Apply(s, op).workers ==>
              (w in s.workers && Apply(s, op).workers[w] == s.workers[w]) || Apply(s, op).workers[w] != 0
  {
    hide RegisterWorker;
    RegisterWorkerFrame(s, op.worker, op.boot);
  }

  lemma OtherCatalogWorkers(s: State, op: Op)
    requires CatalogOp(op) && !op.OpRegisterWorker?
    ensures Apply(s, op).workers == s.workers
  {
    hide GenerationsOf;
  }

  lemma UnboundStep(s: State, op: Op)
    requires Unbound(s) && s.idSeq !in s.deployments
    ensures Unbound(Apply(s, op))
  {
    hide Apply, Lifecycle.Quiet, Lifecycle.Commits, CommitDeployment;
    WorkersStep(s, op);
    forall k | k in Apply(s, op).deployments ensures Apply(s, op).deployments[k].workerBoot == 0 {
      if k in s.deployments {
        Lifecycle.StepStep(s, op, k);
        StepsKeepBoot(s.deployments[k], Apply(s, op).deployments[k]);
      } else {
        hide ReserveDeployment, NewBinding;
        Lifecycle.NewcomersAreReserved(s, op, k);
      }
    }
  }

  lemma StepsKeepBoot(d: Deployment, e: Deployment)
    requires Lifecycle.Steps(d, e)
    ensures e.workerBoot == d.workerBoot
  {
  }

  lemma {:induction false} UnboundOnEveryRun(epoch: u64, policy: Policy, ops: seq<Op>)
    requires |ops| <= Coupling.MAX_CALLS
    ensures Unbound(Run(Fresh(epoch, policy), ops))
  {
    if ops != [] {
      var most := ops[..|ops| - 1];
      UnboundOnEveryRun(epoch, policy, most);
      Coupling.LinkedOnEveryRun(epoch, policy, most);
      Lifecycle.NextIdIsFree(Run(Fresh(epoch, policy), most));
      hide Unbound, Apply, Coupling.Linked;
      UnboundStep(Run(Fresh(epoch, policy), most), ops[|ops| - 1]);
    }
  }

  /** On every run from a fresh engine mark_worker_lost fences no deployment: reserving never binds one to a
      worker's boot, so deployments in service outlive the loss of the worker that owns their device. */
  lemma LossFencesNothing(epoch: u64, policy: Policy, ops: seq<Op>, worker: u64, k: u64)
    requires |ops| <= Coupling.MAX_CALLS && k in Run(Fresh(epoch, policy), ops).deployments
    ensures var s := Run(Fresh(epoch, policy), ops);
            var r := MarkWorkerLost(s, worker).state;
            k in r.deployments && r.deployments[k] == s.deployments[k]
  {
    UnboundOnEveryRun(epoch, policy, ops);
    var s := Run(Fresh(epoch, policy), ops);
    hide Run, MarkWorkerLost;
    LostAt(s, worker, k);
  }
}
