/** What each call on devices makes of the device records, the deployments and their activations. */
module Registry {
  import opened Base
  import opened Resource
  import opened Records
  import opened Coordinator
  import opened Fencing
  import Devices
  import Eligibility

  // ---- registering and updating ----

  lemma Registers(s: State, rec: DeviceRecord)
    ensures var o, id := RegisterDevice(s, rec), rec.identity.deviceId;
            && (o.result == Err(INVALID_ARGUMENT) <==> id == 0)
            && (o.result == Err(ALREADY_EXISTS) <==> id != 0 && id in s.devices)
            && (o.result.Err? ==> o.state == s)
            && (o.result.Ok? ==> id != 0 && id !in s.devices && o.result.value == id && o.state.devices == s.devices[id := rec]
                                 && o.state.deviceOrder == s.deviceOrder + [id])
  {
  }

  lemma Updates(s: State, rec: DeviceRecord)
    ensures var o, id := UpdateDevice(s, rec), rec.identity.deviceId;
            && (o.result == Err(INVALID_ARGUMENT) <==> id == 0)
            && (o.result == Err(NOT_FOUND) <==> id != 0 && id !in s.devices)
            && (o.result == Err(ALREADY_EXISTS) <==>
                  && id != 0 && id in s.devices
                  && var was, now := s.devices[id].identity.pciReference, rec.identity.pciReference;
                     was != [] && now != [] && was != now)
            && o.state == if o.result == Ok(id) then s.(devices := s.devices[id := rec]) else s
  {
  }

  /** No call replaces one PCI reference of a device by another. */
  lemma PciReferenceStays(s: State, op: Op, d: u64)
    requires d in s.devices
    ensures d in Apply(s, op).devices
    ensures var was, now := s.devices[d].identity.pciReference, Apply(s, op).devices[d].identity.pciReference;
            was != [] && now != [] ==> now == was
  {
    hide Apply;
    if Devices.Replaces(op, d) {
      Updates(s, op.rec);
      ApplyUpdate(s, op);
    } else {
      Devices.DeviceStep(s, op, d);
    }
  }

  lemma ApplyUpdate(s: State, op: Op)
    requires op.OpUpdateDevice?
    ensures Apply(s, op) == UpdateDevice(s, op.rec).state
  {
  }

  // ---- the record a fencing call leaves ----

  /** r has device d as s has it, but for its status. */
  predicate Restated(s: State, r: State, d: u64, lifecycle: DeviceLifecycle, isFresh: bool, detail: Str) {
    && d in s.devices
    && r.devices == s.devices[d := s.devices[d].(status := s.devices[d].status.(
                      lifecycle := lifecycle, evidenceFresh := isFresh, discoveryDetail := detail))]
  }

  /** A state that a fenced device keeps. */
  predicate Final(l: DeviceLifecycle) {
    l.Retired? || l.Failed? || l.Offline?
  }

  lemma RetireLeaves(s: State, d: u64)
    ensures var o := RetireDevice(s, d);
            && (o.result == Err(NOT_FOUND) <==> d !in s.devices) && (o.result.Err? ==> o.state == s)
            && (o.result.Ok? ==>
                  Restated(s, o.state, d, DeviceLifecycle.Retired, false, s.devices[d].status.discoveryDetail))
  {
    hide Fence;
    FenceFrame(s, DeviceRetired(d));
  }

  lemma FenceLeaves(s: State, d: u64, reason: Str)
    ensures var o := FenceDevice(s, d, reason);
            && (o.result == Err(NOT_FOUND) <==> d !in s.devices) && (o.result.Err? ==> o.state == s)
            && (o.result.Ok? ==>
                  && d in s.devices
                  && var was := s.devices[d].status.lifecycle;
                     Restated(s, o.state, d, if Final(was) then was else DeviceLifecycle.RevalidationRequired, false, reason))
  {
    hide Fence;
    FenceFrame(s, DeviceFenced(d));
  }

  lemma TransitionLeaves(s: State, d: u64, to: DeviceLifecycle)
    ensures var o := TransitionDevice(s, d, to);
            && (o.result == Err(NOT_FOUND) <==> d !in s.devices)
            && (o.result == Err(INVALID_TRANSITION) <==>
                d in s.devices && !ValidDeviceTransition(s.devices[d].status.lifecycle, to))
            && (o.result.Err? ==> o.state == s)
            && (o.result.Ok? ==>
                  && d in s.devices
                  && var was := s.devices[d].status;
                     Restated(s, o.state, d, to,
                              was.evidenceFresh && to !in {DeviceLifecycle.RevalidationRequired, DeviceLifecycle.Offline, DeviceLifecycle.Failed},
                              was.discoveryDetail))
  {
    hide Fence, ValidDeviceTransition;
    FenceFrame(s, DeviceFenced(d));
  }

  /** The lifecycle table, edge by edge: what each state leads to. */
  function LeadsTo(from: DeviceLifecycle): set<DeviceLifecycle> {
    var always := {DeviceLifecycle.Retired, DeviceLifecycle.Offline, DeviceLifecycle.Failed};
    if from.Retired? then {}
    else if from.Offline? then {DeviceLifecycle.Retired, DeviceLifecycle.Available, DeviceLifecycle.Discovered}
    else if from.Failed? then {DeviceLifecycle.Retired, DeviceLifecycle.Offline, DeviceLifecycle.Available}
    else if from.Discovered? then always + {DeviceLifecycle.Available}
    else if from.Draining? then always + {DeviceLifecycle.Available, DeviceLifecycle.Ready}
    else if from.Ready? then always + {DeviceLifecycle.Degraded, DeviceLifecycle.Draining, DeviceLifecycle.RevalidationRequired}
    else if from.Degraded? then always + {DeviceLifecycle.Ready, DeviceLifecycle.Draining, DeviceLifecycle.RevalidationRequired}
    else if from.Available? then
      always + {DeviceLifecycle.Provisioning, DeviceLifecycle.Ready, DeviceLifecycle.RevalidationRequired, DeviceLifecycle.Degraded}
    else always + {DeviceLifecycle.Ready, DeviceLifecycle.Available, DeviceLifecycle.Degraded}
  }

  lemma TransitionsAre(from: DeviceLifecycle, to: DeviceLifecycle)
    ensures ValidDeviceTransition(from, to) <==> to in LeadsTo(from)
  {
  }

  // ---- capabilities ----

  /** Setting a capability's state sets it, except that a missing one stays missing unless it becomes SUPPORTED. */
  lemma CapabilitySet(s: State, d: u64, state: CapabilityState, key: Str, other: Str)
    requires d in s.devices
    ensures var r := SetDeviceState(s, d, state, key).state;
            && d in r.devices
            && var was, now := s.devices[d].features.capabilities, r.devices[d].features.capabilities;
               && (key in now <==> key in was || state.Supported?)
               && (key in now ==> now[key].state == state)
               && (key in was ==> now[key] == was[key].(state := state))
               && (key !in was && key in now ==> now[key] == Capability(key, state, 0, 0, 0, 0, 0, false, 4, []))
               && (other != key ==> (other in now <==> other in was) && (other in was ==> now[other] == was[other]))
  {
  }

  lemma CapabilityCall(s: State, d: u64, state: CapabilityState, key: Str)
    ensures var o := SetDeviceState(s, d, state, key);
            && (o.result == Err(NOT_FOUND) <==> d !in s.devices) && (o.result == Ok(()) <==> d in s.devices)
            && (o.result.Err? ==> o.state == s)
            && (o.result.Ok? ==> d in o.state.devices && o.state == s.(devices := s.devices[d := s.devices[d].(
                                   features := s.devices[d].features.(capabilities := o.state.devices[d].features.capabilities))]))
  {
    hide WithCapabilityState;
  }

  // ---- the loss of a worker ----

  /** Every device of the lost worker that is not retired needs revalidation and has no evidence; no other device
      changes, and the worker is forgotten. */
  lemma LossLeaves(s: State, w: u64)
    ensures var o := MarkWorkerLost(s, w);
            && o.result == Ok(()) && o.state.workers == s.workers - {w} && o.state.devices.Keys == s.devices.Keys
            && forall d :: d in s.devices ==>
                 var was, now := s.devices[d], o.state.devices[d];
                 if was.status.owningWorker == w && !was.status.lifecycle.Retired?
                 then now == was.(status := was.status.(lifecycle := DeviceLifecycle.RevalidationRequired, evidenceFresh := false))
                 else now == was
  {
    hide Fence;
    var lost := s.(devices := LostDevices(s.devices, w));
    if w in s.workers {
      FenceFrame(lost, WorkerLost(s.workers[w]));
    } else {
      assert s.workers - {w} == s.workers;
    }
  }

  /** A device without fresh evidence. */
  predicate Stale(s: State, d: u64) {
    d in s.devices && !s.devices[d].status.evidenceFresh
  }

  lemma {:induction false} StaysStale(s: State, ops: seq<Op>, d: u64)
    requires Stale(s, d) && forall i :: 0 <= i < |ops| ==> !Devices.Replaces(ops[i], d)
    ensures Stale(Run(s, ops), d)
  {
    if ops != [] {
      hide Apply;
      StaysStale(s, ops[..|ops| - 1], d);
      Devices.DeviceStep(Run(s, ops[..|ops| - 1]), ops[|ops| - 1], d);
    }
  }

  lemma StaleMeans(r: State, d: u64, req: OffloadRequest)
    requires Stale(r, d)
    ensures !r.devices[d].ReadyForOffload() && !Eligibility.IsSelected(MakeSnapshot(r), req, d)
  {
    hide Eligibility.Rejections;
    if Eligibility.Passes(MakeSnapshot(r), req, d) {
      Eligibility.PassingMeans(MakeSnapshot(r), req, d);
      assert false;
    }
  }

  /** The evidence of a lost worker is gone for good: whatever calls follow, until update_device is called for a
      device it owned, that device is not ready and no evaluation selects it. */
  lemma LossIsSticky(s: State, w: u64, ops: seq<Op>, d: u64, req: OffloadRequest)
    requires d in s.devices && s.devices[d].status.owningWorker == w && !s.devices[d].status.lifecycle.Retired?
    requires forall i :: 0 <= i < |ops| ==> !Devices.Replaces(ops[i], d)
    ensures var r := Run(MarkWorkerLost(s, w).state, ops);
            d in r.devices && !r.devices[d].ReadyForOffload() && !Eligibility.IsSelected(MakeSnapshot(r), req, d)
  {
    hide MarkWorkerLost, Run;
    LossLeaves(s, w);
    StaysStale(MarkWorkerLost(s, w).state, ops, d);
    StaleMeans(Run(MarkWorkerLost(s, w).state, ops), d, req);
  }

  // ---- recovery of the coordinator ----

  /** What apply_recovery leaves of a device: retired ones as they were, and no evidence on the others; if asked,
      no capability of theirs is SUPPORTED any more. */
  lemma RecoveryLeaves(s: State, p: RecoveryPolicy)
    ensures var o := ApplyRecovery(s, p);
            && o.result == Ok(()) && o.state.devices.Keys == s.devices.Keys
            && forall d :: d in s.devices ==>
                 var was, now := s.devices[d], o.state.devices[d];
                 if was.status.lifecycle.Retired? then now == was
                 else
                   && now == was.(status := was.status.(
                                    lifecycle := if Final(was.status.lifecycle) then was.status.lifecycle
                                                 else DeviceLifecycle.RevalidationRequired,
                                    evidenceFresh := false),
                                  features := was.features.(capabilities := now.features.capabilities))
                   && (p.FenceAuthorityOnly? ==> now.features.capabilities == was.features.capabilities)
                   && now.features.capabilities.Keys == was.features.capabilities.Keys
  {
    hide Fence;
    FenceFrame(s.(devices := RecoveredDevices(s.devices, p)), CoordinatorRecovered);
  }

  lemma RecoveryUnsupports(s: State, d: u64, key: Str)
    requires d in s.devices && !s.devices[d].status.lifecycle.Retired? && key in s.devices[d].features.capabilities
    ensures var now := ApplyRecovery(s, FenceAllDynamic).state.devices;
            && d in now && key in now[d].features.capabilities
            && var c, e := s.devices[d].features.capabilities[key], now[d].features.capabilities[key];
               e == c.(state := if c.state.Supported? then CapabilityState.NeedsRevalidation else c.state)
  {
    hide Fence;
    FenceFrame(s.(devices := RecoveredDevices(s.devices, FenceAllDynamic)), CoordinatorRecovered);
  }

  /** A retired device stays retired. */
  lemma RetiredForGood(s: State, op: Op, d: u64)
    requires d in s.devices && s.devices[d].status.lifecycle.Retired? && !Devices.Replaces(op, d)
    ensures d in Apply(s, op).devices && Apply(s, op).devices[d].status.lifecycle.Retired?
  {
    hide Apply, RetireDevice, FenceDevice, TransitionDevice, MarkWorkerLost, ApplyRecovery, RegisterDevice, UpdateDevice,
         SetDeviceState, ValidDeviceTransition;
    if DeviceOp(op) {
      RetiredThen(s, op, d);
    } else {
      Devices.OtherOpsKeepDevices(s, op);
    }
  }

  lemma RetiredStays(s: State, id: u64, to: DeviceLifecycle, d: u64)
    requires d in s.devices && s.devices[d].status.lifecycle.Retired?
    ensures var r := TransitionDevice(s, id, to).state; d in r.devices && r.devices[d].status.lifecycle.Retired?
  {
    hide TransitionDevice, ValidDeviceTransition;
    TransitionLeaves(s, id, to);
    TransitionsAre(DeviceLifecycle.Retired, to);
  }

  lemma RetiredThen(s: State, op: Op, d: u64)
    requires DeviceOp(op) && d in s.devices && s.devices[d].status.lifecycle.Retired? && !Devices.Replaces(op, d)
    ensures d in Apply(s, op).devices && Apply(s, op).devices[d].status.lifecycle.Retired?
  {
    hide RetireDevice, FenceDevice, TransitionDevice, MarkWorkerLost, ApplyRecovery, RegisterDevice, UpdateDevice, SetDeviceState,
         ValidDeviceTransition;
    match op {
      case OpRegisterDevice(rec) => Registers(s, rec);
      case OpUpdateDevice(rec) => Updates(s, rec);
      case OpRetireDevice(id) => RetireLeaves(s, id);
      case OpTransitionDevice(id, to) => RetiredStays(s, id, to, d);
      case OpSetDeviceState(id, state, key) => CapabilityCall(s, id, state, key);
      case OpFenceDevice(id, reason) => FenceLeaves(s, id, reason);
      case OpMarkWorkerLost(w) => LossLeaves(s, w);
      case OpApplyRecovery(p) => RecoveryLeaves(s, p);
    }
  }

  // ---- what a fence makes of deployments and activations ----

  /** The deployments that a call fences. */
  predicate Fences(s: State, op: Op, k: u64) {
    k in s.deployments &&
    var d := s.deployments[k];
    match op
    case OpRetireDevice(id) =>
      id in s.devices && d.binding.device == id && (d.state.Active? || d.state.Degraded? || d.state.Draining?)
    case OpFenceDevice(id, _) => id in s.devices && d.binding.device == id && (d.state.Active? || d.state.Degraded?)
    case OpTransitionDevice(id, to) =>
      && id in s.devices && to in LeadsTo(s.devices[id].status.lifecycle)
      && (to.RevalidationRequired? || to.Offline? || to.Failed?)
      && d.binding.device == id && (d.state.Active? || d.state.Degraded?)
    case OpMarkWorkerLost(w) => w in s.workers && d.workerBoot == s.workers[w] && d.state.Active?
    case OpApplyRecovery(_) => d.state.Active? || d.state.Degraded?
    case _ => false
  }

  lemma FenceOfIs(s: State, op: Op, k: u64)
    requires k in s.deployments
    ensures Fences(s, op, k) <==> FenceOf(s, op).Some? && Hits(FenceOf(s, op).value, s.deployments[k])
  {
    hide ValidDeviceTransition, LeadsTo;
    if op.OpTransitionDevice? && op.device in s.devices {
      TransitionsAre(s.devices[op.device].status.lifecycle, op.to);
    }
  }

  /** A call on devices takes exactly the deployments it fences out of service, and leaves the others as they are. */
  lemma FencedDeployments(s: State, op: Op, k: u64)
    requires DeviceOp(op)
    ensures Apply(s, op).deployments.Keys == s.deployments.Keys
    ensures k in s.deployments ==>
              var was, now := s.deployments[k], Apply(s, op).deployments[k];
              now == if Fences(s, op, k) then was.(state := DeploymentState.RevalidationRequired, authoritative := false) else was
  {
    hide Apply, Hits, Fences, FenceOf;
    DeviceOpKeys(s, op);
    if k in s.deployments {
      DeviceOpAt(s, op, k);
      FenceOfIs(s, op, k);
    }
  }

  /** Some deployment of todo that the rule hits points to activation a. */
  predicate Marks(deps: map<u64, Deployment>, todo: set<u64>, rule: FenceRule, a: u64) {
    exists k :: k in todo && k in deps && Hits(rule, deps[k]) && deps[k].activation == Some(a)
  }

  lemma FenceOneMarks(s: State, k: u64, rule: FenceRule, a: u64)
    requires k in s.deployments
    ensures var r := FenceOne(s, k, rule);
            && r.activations.Keys == s.activations.Keys
            && (a in s.activations ==>
                  r.activations[a] == if Hits(rule, s.deployments[k]) && s.deployments[k].activation == Some(a)
                                      then s.activations[a].(state := ActivationState.Stale) else s.activations[a])
  {
    hide Hits, ReleaseResources;
    ReleaseFrame(MovedWith(s, k, DeploymentState.RevalidationRequired, ActivationState.Stale), k);
  }

  lemma {:induction false} FenceAllMarks(s: State, todo: set<u64>, rule: FenceRule, a: u64)
    requires todo <= s.deployments.Keys
    ensures var r := FenceAll(s, todo, rule);
            && r.activations.Keys == s.activations.Keys
            && (a in s.activations ==>
                  r.activations[a] == if Marks(s.deployments, todo, rule, a)
                                      then s.activations[a].(state := ActivationState.Stale) else s.activations[a])
    decreases |todo|
  {
    hide FenceOne, Hits;
    if todo != {} {
      var k := Least(todo);
      var next := FenceOne(s, k, rule);
      FenceOneMarks(s, k, rule, a);
      FenceAllMarks(next, todo - {k}, rule, a);
      forall j | j in todo - {k} ensures j in next.deployments && next.deployments[j] == s.deployments[j] {
        FenceOneAt(s, k, rule, j);
      }
    }
  }

  /** Some deployment that the call fences points to activation a. */
  predicate Stales(s: State, op: Op, a: u64) {
    exists k :: k in s.deployments && Fences(s, op, k) && s.deployments[k].activation == Some(a)
  }

  lemma StalesExactly(s: State, op: Op, a: u64)
    ensures Stales(s, op, a) <==> FenceOf(s, op).Some? && Marks(s.deployments, s.deployments.Keys, FenceOf(s, op).value, a)
  {
    hide Fences, FenceOf, Hits;
    forall k | k in s.deployments
      ensures Fences(s, op, k) <==> FenceOf(s, op).Some? && Hits(FenceOf(s, op).value, s.deployments[k]) {
      FenceOfIs(s, op, k);
    }
  }

  /** The activation table after a call on devices. */
  lemma ActivationsAfter(s: State, op: Op)
    requires op.OpRetireDevice? || op.OpTransitionDevice? || op.OpFenceDevice?
    ensures Apply(s, op).activations ==
            if FenceOf(s, op).Some? then FenceAll(s, s.deployments.Keys, FenceOf(s, op).value).activations else s.activations
  {
    hide FenceAll, ValidDeviceTransition, Invalidates, DeviceRecord.WithStatus, FencedRecord;
  }

  lemma ActivationsAfterLoss(s: State, op: Op, a: u64)
    requires op.OpMarkWorkerLost? || op.OpApplyRecovery?
    ensures var rule, r := FenceOf(s, op), Apply(s, op);
            && r.activations.Keys == s.activations.Keys
            && (a in s.activations ==>
                  r.activations[a] == if rule.Some? && Marks(s.deployments, s.deployments.Keys, rule.value, a)
                                      then s.activations[a].(state := ActivationState.Stale) else s.activations[a])
  {
    hide FenceAll, LostDevices, RecoveredDevices, Marks;
    match op {
      case OpMarkWorkerLost(w) =>
        if w in s.workers {
          FenceAllMarks(s.(devices := LostDevices(s.devices, w)), s.deployments.Keys, WorkerLost(s.workers[w]), a);
        }
      case OpApplyRecovery(p) =>
        FenceAllMarks(s.(devices := RecoveredDevices(s.devices, p)), s.deployments.Keys, CoordinatorRecovered, a);
    }
  }

  lemma ActivationsUntouched(s: State, op: Op)
    requires op.OpRegisterDevice? || op.OpUpdateDevice? || op.OpSetDeviceState?
    ensures Apply(s, op).activations == s.activations && FenceOf(s, op).None?
  {
    hide RegisterDevice, UpdateDevice, SetDeviceState;
    match op {
      case OpRegisterDevice(rec) => RegisterFrame(s, rec);
      case OpUpdateDevice(rec) => UpdateFrame(s, rec);
      case OpSetDeviceState(id, state, key) => SetStateFrame(s, id, state, key);
    }
  }

  /** And it marks exactly their activations STALE. */
  lemma FencedActivations(s: State, op: Op, a: u64)
    requires DeviceOp(op)
    ensures Apply(s, op).activations.Keys == s.activations.Keys
    ensures a in s.activations ==>
              var was, now := s.activations[a], Apply(s, op).activations[a];
              now == if Stales(s, op, a) then was.(state := ActivationState.Stale) else was
  {
    hide Apply, Stales, Marks, FenceOf, FenceAll;
    StalesExactly(s, op, a);
    if op.OpRetireDevice? || op.OpTransitionDevice? || op.OpFenceDevice? {
      ActivationsAfter(s, op);
      if FenceOf(s, op).Some? {
        FenceAllMarks(s, s.deployments.Keys, FenceOf(s, op).value, a);
      }
    } else if op.OpMarkWorkerLost? || op.OpApplyRecovery? {
      ActivationsAfterLoss(s, op, a);
    } else {
      ActivationsUntouched(s, op);
    }
  }
}
