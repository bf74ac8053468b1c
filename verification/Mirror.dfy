/** The device tables agree with one another on every run from a fresh engine. */
module Mirror {
  import opened Base
  import opened Resource
  import opened Records
  import opened Coordinator
  import opened Fencing

  /** One key set for devices, ledgers and usage; the order lists it once each; usage mirrors the ledger;
      and no bounded dimension is over the ledger's capacity. */
  ghost predicate Mirrored(s: State) {
    && s.ledgers.Keys == s.devices.Keys
    && s.usage.Keys == s.devices.Keys
    && Distinct(s.deviceOrder)
    && (forall d :: d in s.deviceOrder <==> d in s.devices)
    && (forall d :: d in s.devices ==> s.devices[d].identity.deviceId == d && d != 0)
    && (forall d :: d in s.ledgers ==> Account(s, d))
  }

  ghost predicate Account(s: State, d: u64)
    requires d in s.ledgers
  {
    d in s.usage && s.usage[d] == s.ledgers[d].used && Within(s.ledgers[d].cap, s.ledgers[d].used)
  }

  /** r has the same devices as s under the same identities, and the same accounts. */
  ghost predicate SameTables(s: State, r: State) {
    && r.devices.Keys == s.devices.Keys
    && (forall d :: d in s.devices ==> r.devices[d].identity.deviceId == s.devices[d].identity.deviceId)
    && r.ledgers == s.ledgers && r.usage == s.usage && r.deviceOrder == s.deviceOrder
  }

  lemma MirrorKept(s: State, r: State)
    requires Mirrored(s) && SameTables(s, r)
    ensures Mirrored(r)
  {
    hide Within, Distinct;
    forall d | d in r.ledgers ensures Account(r, d) {
      assert Account(s, d);
    }
  }

  /** Charging or crediting one account within its capacity. */
  lemma MirrorRecharged(s: State, r: State, dev: u64, used: Resources)
    requires Mirrored(s) && dev in s.ledgers
    requires Within(s.ledgers[dev].cap, used)
    requires r.devices == s.devices && r.deviceOrder == s.deviceOrder
    requires r.ledgers == s.ledgers[dev := s.ledgers[dev].(used := used)]
    requires r.usage == s.usage[dev := used]
    ensures Mirrored(r)
  {
    hide Within, Distinct;
    forall d | d in r.ledgers ensures Account(r, d) {
      assert d != dev ==> Account(s, d);
    }
  }

  lemma MirrorReleased(s: State, k: u64)
    requires Mirrored(s) && k in s.deployments
    ensures Mirrored(ReleaseResources(s, k))
  {
    hide Within, Released, Distinct;
    var b := s.deployments[k].binding;
    if b.device in s.ledgers {
      assert Account(s, b.device);
      ReleaseStaysWithin(s.ledgers[b.device].cap, s.ledgers[b.device].used, b.resources);
      MirrorRecharged(s, ReleaseResources(s, k), b.device, Released(s.ledgers[b.device].used, b.resources));
    }
  }

  lemma {:induction false} MirrorFenced(s: State, todo: set<u64>, rule: FenceRule)
    requires Mirrored(s) && todo <= s.deployments.Keys
    ensures Mirrored(FenceAll(s, todo, rule))
    decreases |todo|
  {
    hide Mirrored, FenceOne;
    if todo != {} {
      var k := Least(todo);
      MirrorFenceOne(s, k, rule);
      MirrorFenced(FenceOne(s, k, rule), todo - {k}, rule);
    }
  }

  lemma MirrorFenceOne(s: State, k: u64, rule: FenceRule)
    requires Mirrored(s) && k in s.deployments
    ensures Mirrored(FenceOne(s, k, rule))
  {
    hide Mirrored, Hits, MovedWith, ReleaseResources;
    MirrorMoved(s, k, DeploymentState.RevalidationRequired, ActivationState.Stale);
    MirrorReleased(MovedWith(s, k, DeploymentState.RevalidationRequired, ActivationState.Stale), k);
  }

  lemma MirrorMoved(s: State, k: u64, to: DeploymentState, mark: ActivationState)
    requires Mirrored(s) && k in s.deployments
    ensures Mirrored(MovedWith(s, k, to, mark))
  {
    hide Mirrored, Marked;
    MirrorKept(s, MovedWith(s, k, to, mark));
  }

  lemma MirrorAbandoned(s: State, k: u64, to: DeploymentState, mark: ActivationState)
    requires Mirrored(s) && k in s.deployments
    ensures Mirrored(Abandoned(s, k, to, mark))
  {
    hide Mirrored, ReleaseResources, MovedWith;
    MirrorReleased(s, k);
    MirrorMoved(ReleaseResources(s, k), k, to, mark);
  }

  lemma MirrorSetDevice(s: State, id: u64, rec: DeviceRecord)
    requires Mirrored(s) && id in s.devices && rec.identity.deviceId == id
    ensures Mirrored(SetDevice(s, id, rec))
  {
    assert s.devices[id].identity.deviceId == id;
    hide Mirrored;
    MirrorKept(s, SetDevice(s, id, rec));
  }

  /** A fence followed by an update of the fenced device's record. */
  lemma MirrorFenceAndSet(s: State, rule: FenceRule, id: u64, rec: DeviceRecord)
    requires Mirrored(s) && id in s.devices && rec.identity.deviceId == id
    ensures Mirrored(SetDevice(Fence(s, rule), id, rec))
  {
    hide Mirrored, FenceAll, SetDevice;
    MirrorFenced(s, s.deployments.Keys, rule);
    FenceFrame(s, rule);
    MirrorSetDevice(Fence(s, rule), id, rec);
  }

  lemma MirrorRegister(s: State, rec: DeviceRecord)
    requires Mirrored(s)
    ensures Mirrored(RegisterDevice(s, rec).state)
  {
    var id, r := rec.identity.deviceId, RegisterDevice(s, rec).state;
    if id != 0 && id !in s.devices {
      hide Within;
      NothingWithin(rec.capacity.resources);
      forall d | d in r.ledgers ensures Account(r, d) {
        assert d != id ==> Account(s, d);
      }
      assert id !in s.deviceOrder;
    }
  }

  lemma NothingWithin(cap: Resources)
    ensures Within(cap, NOTHING)
  {
    forall d: Dimension ensures NOTHING.At(d) == 0 {
    }
  }

  lemma MirrorReserve(s: State, req: OffloadRequest, selected: Option<u64>)
    requires Mirrored(s)
    ensures Mirrored(ReserveDeployment(s, req, selected).state)
  {
    hide Mirrored, Admits, Applied, Within;
    ReserveFrame(s, req, selected);
    var o := ReserveDeployment(s, req, selected);
    if o.result.Ok? {
      var l, r := s.ledgers[selected.value], RequestedResources(s.services, req);
      ReservationStaysWithin(l.cap, l.used, r);
      MirrorRecharged(s, o.state, selected.value, Applied(l.used, r));
    } else {
      MirrorKept(s, o.state);
    }
  }

  lemma MirrorLost(s: State, worker: u64)
    requires Mirrored(s)
    ensures Mirrored(MarkWorkerLost(s, worker).state)
  {
    hide Mirrored, FenceAll;
    var lost := s.(devices := LostDevices(s.devices, worker));
    MirrorKept(s, lost);
    if worker in s.workers {
      var rule := WorkerLost(s.workers[worker]);
      MirrorFenced(lost, lost.deployments.Keys, rule);
      MirrorKept(Fence(lost, rule), MarkWorkerLost(s, worker).state);
    }
  }

  lemma MirrorRecovered(s: State, p: RecoveryPolicy)
    requires Mirrored(s)
    ensures Mirrored(ApplyRecovery(s, p).state)
  {
    hide Mirrored, FenceAll;
    var fenced := s.(devices := RecoveredDevices(s.devices, p));
    MirrorKept(s, fenced);
    MirrorFenced(fenced, fenced.deployments.Keys, CoordinatorRecovered);
  }

  lemma MirrorDeviceOps(s: State, op: Op)
    requires Mirrored(s)
    requires op.OpUpdateDevice? || op.OpRetireDevice? || op.OpTransitionDevice? || op.OpSetDeviceState? || op.OpFenceDevice?
    ensures Mirrored(Apply(s, op))
  {
    hide Fence, SetDevice, ValidDeviceTransition, Invalidates, WithCapabilityState, FencedRecord, DeviceRecord.WithStatus;
    match op {
      case OpUpdateDevice(rec) =>
        MirrorUpdate(s, rec);
      case OpRetireDevice(id) =>
        if id in s.devices {
          StatusKeepsIdentity(s.devices[id], DeviceLifecycle.Retired, false);
          MirrorFenceAndSet(s, DeviceRetired(id), id, s.devices[id].WithStatus(DeviceLifecycle.Retired, false));
        }
      case OpTransitionDevice(id, to) =>
        if id in s.devices {
          var rec := s.devices[id];
          StatusKeepsIdentity(rec, to, false);
          StatusKeepsIdentity(rec, to, rec.status.evidenceFresh);
          MirrorFenceAndSet(s, DeviceFenced(id), id, rec.WithStatus(to, false));
          MirrorSetDevice(s, id, rec.WithStatus(to, rec.status.evidenceFresh));
        }
      case OpSetDeviceState(id, state, key) =>
        if id in s.devices {
          var rec := s.devices[id];
          var caps := WithCapabilityState(rec.features.capabilities, key, state);
          MirrorSetDevice(s, id, rec.(features := rec.features.(capabilities := caps)));
        }
      case OpFenceDevice(id, reason) =>
        if id in s.devices {
          FencedKeepsIdentity(s.devices[id], reason);
          MirrorFenceAndSet(s, DeviceFenced(id), id, FencedRecord(s.devices[id], reason));
        }
    }
  }

  lemma StatusKeepsIdentity(d: DeviceRecord, to: DeviceLifecycle, isFresh: bool)
    ensures d.WithStatus(to, isFresh).identity == d.identity
  {
  }

  lemma FencedKeepsIdentity(d: DeviceRecord, reason: Str)
    ensures FencedRecord(d, reason).identity == d.identity
  {
  }

  lemma MirrorUpdate(s: State, rec: DeviceRecord)
    requires Mirrored(s)
    ensures Mirrored(UpdateDevice(s, rec).state)
  {
    var id := rec.identity.deviceId;
    if id in s.devices {
      MirrorSetDevice(s, id, rec);
    }
  }

  lemma MirrorRungOps(s: State, op: Op)
    requires Mirrored(s) && RungOp(op)
    ensures Mirrored(Apply(s, op))
  {
    hide Mirrored, Apply;
    RungFrame(s, op);
    MirrorKept(s, Apply(s, op));
  }

  lemma MirrorReleasingOps(s: State, op: Op)
    requires Mirrored(s)
    requires op.OpCancel? || op.OpRollback? || op.OpRetire? || op.OpFail?
    ensures Mirrored(Apply(s, op))
  {
    hide Mirrored, ValidDeploymentTransition, Abandoned, Preparing, HoldsOnRetire;
    var k := op.deployment;
    if k in s.deployments {
      MirrorAbandoned(s, k, DeploymentState.Aborted, ActivationState.Cancelled);
      MirrorAbandoned(s, k, DeploymentState.Failed, ActivationState.Stale);
      MirrorAbandoned(s, k, DeploymentState.Retired, ActivationState.Retired);
      MirrorKept(s, Moved(s, k, DeploymentState.Retired));
    }
  }

  lemma MirrorCatalogOps(s: State, op: Op)
    requires Mirrored(s) && CatalogOp(op)
    ensures Mirrored(Apply(s, op))
  {
    hide Mirrored, CatalogOp, Apply;
    CatalogFrame(s, op);
    MirrorKept(s, Apply(s, op));
  }

  lemma MirrorStep(s: State, op: Op)
    requires Mirrored(s)
    ensures Mirrored(Apply(s, op))
  {
    hide Mirrored, RegisterDevice, UpdateDevice, RetireDevice, TransitionDevice, SetDeviceState, FenceDevice,
         RegisterService, RegisterProgram, RetireProgram, RegisterWorker, WorkerHeartbeat, MarkWorkerLost,
         ReserveDeployment, DeployTransition, ActivateDeployment, CommitDeployment, CancelDeployment,
         RollbackDeployment, DrainDeployment, RetireDeployment, FailDeployment, AdvanceEpoch, ApplyRecovery;
    match op {
      case OpRegisterDevice(rec) => MirrorRegister(s, rec);
      case OpUpdateDevice(_) | OpRetireDevice(_) | OpTransitionDevice(_, _) | OpSetDeviceState(_, _, _) | OpFenceDevice(_, _) =>
        MirrorDeviceOps(s, op);
      case OpReserve(req, selected) => MirrorReserve(s, req, selected);
      case OpMarkWorkerLost(w) => MirrorLost(s, w);
      case OpApplyRecovery(p) => MirrorRecovered(s, p);
      case OpStage(_) | OpLoad(_) | OpValidate(_) | OpActivate(_) | OpCommit(_) | OpDrain(_) => MirrorRungOps(s, op);
      case OpCancel(_) | OpRollback(_) | OpRetire(_) | OpFail(_) => MirrorReleasingOps(s, op);
      case _ => MirrorCatalogOps(s, op);
    }
  }

  /** The tables mirror one another after any run of calls on a fresh engine. */
  lemma {:induction false} MirrorOnEveryRun(epoch: u64, policy: Policy, ops: seq<Op>)
    ensures Mirrored(Run(Fresh(epoch, policy), ops))
  {
    if ops == [] {
      assert Mirrored(Fresh(epoch, policy));
    } else {
      MirrorOnEveryRun(epoch, policy, ops[..|ops| - 1]);
      MirrorStep(Run(Fresh(epoch, policy), ops[..|ops| - 1]), ops[|ops| - 1]);
    }
  }
}
