/** Evaluation and reservation agree, and only the winner's own state decides the ranking. */
module Admission {
  import opened Base
  import opened Resource
  import opened Records
  import opened Coordinator
  import opened Fencing
  import opened Mirror
  import opened Eligibility
  import Devices
  import Lifecycle

  // ---- the ledger's capacity is the device's ----

  /** Ledgers only change what is used. */
  ghost predicate CapsKept(s: State, r: State) {
    r.ledgers.Keys == s.ledgers.Keys && forall d :: d in s.ledgers ==> r.ledgers[d].cap == s.ledgers[d].cap
  }

  lemma CapsSame(s: State, r: State)
    requires r.ledgers == s.ledgers
    ensures CapsKept(s, r)
  {
  }

  lemma ReleaseKeepsCaps(s: State, k: u64)
    requires k in s.deployments
    ensures CapsKept(s, ReleaseResources(s, k))
  {
    hide Released;
  }

  lemma FenceOneKeepsCaps(s: State, k: u64, rule: FenceRule)
    requires k in s.deployments
    ensures CapsKept(s, FenceOne(s, k, rule))
  {
    hide Hits, Marked, ReleaseResources;
    ReleaseKeepsCaps(MovedWith(s, k, DeploymentState.RevalidationRequired, ActivationState.Stale), k);
  }

  lemma {:induction false} FenceAllKeepsCaps(s: State, todo: set<u64>, rule: FenceRule)
    requires todo <= s.deployments.Keys
    ensures CapsKept(s, FenceAll(s, todo, rule))
    decreases |todo|
  {
    hide FenceOne;
    if todo != {} {
      var k := Least(todo);
      FenceOneKeepsCaps(s, k, rule);
      FenceAllKeepsCaps(FenceOne(s, k, rule), todo - {k}, rule);
    }
  }

  lemma DeviceOpKeepsCaps(s: State, op: Op)
    requires DeviceOp(op) && !op.OpRegisterDevice?
    ensures CapsKept(s, Apply(s, op))
  {
    hide UpdateDevice, SetDeviceState, FenceAll, ValidDeviceTransition, Invalidates, DeviceRecord.WithStatus,
         FencedRecord, LostDevices, RecoveredDevices, CapsKept;
    var r := Apply(s, op);
    match op {
      case OpUpdateDevice(rec) => UpdateFrame(s, rec); CapsSame(s, r);
      case OpSetDeviceState(id, state, key) => SetStateFrame(s, id, state, key); CapsSame(s, r);
      case OpRetireDevice(id) => FenceKeepsCaps(s, s, DeviceRetired(id), r);
      case OpTransitionDevice(id, _) => FenceKeepsCaps(s, s, DeviceFenced(id), r);
      case OpFenceDevice(id, _) => FenceKeepsCaps(s, s, DeviceFenced(id), r);
      case OpMarkWorkerLost(w) =>
        FenceKeepsCaps(s, s.(devices := LostDevices(s.devices, w)), WorkerLost(if w in s.workers then s.workers[w] else 0), r);
      case OpApplyRecovery(p) =>
        FenceKeepsCaps(s, s.(devices := RecoveredDevices(s.devices, p)), CoordinatorRecovered, r);
    }
  }

  lemma FenceKeepsCaps(s: State, before: State, rule: FenceRule, r: State)
    requires before.ledgers == s.ledgers
    ensures r.ledgers == Fence(before, rule).ledgers || r.ledgers == s.ledgers ==> CapsKept(s, r)
  {
    hide FenceAll;
    FenceAllKeepsCaps(before, before.deployments.Keys, rule);
  }

  lemma EndingKeepsCaps(s: State, op: Op)
    requires EndingOp(op)
    ensures CapsKept(s, Apply(s, op))
  {
    hide Apply, ReleaseResources, Marked, Releases;
    EndingEffect(s, op);
    if op.deployment in s.deployments {
      ReleaseKeepsCaps(s, op.deployment);
    }
  }

  lemma OthersKeepCaps(s: State, op: Op)
    requires !op.OpRegisterDevice?
    ensures CapsKept(s, Apply(s, op))
  {
    if DeviceOp(op) {
      DeviceOpKeepsCaps(s, op);
      hide Apply;
    } else if EndingOp(op) {
      EndingKeepsCaps(s, op);
      hide Apply;
    } else {
      hide Apply;
      if CatalogOp(op) {
        CatalogFrame(s, op);
      } else if op.OpReserve? {
        Lifecycle.ApplyReserve(s, op);
        hide ReserveDeployment, Admits, Applied;
        ReserveFrame(s, op.req, op.selected);
      } else {
        RungFrame(s, op);
      }
    }
  }

  /** Every device's ledger has the capacity of the device's record. */
  ghost predicate CapsMatch(s: State) {
    forall d :: d in s.ledgers ==> d in s.devices && s.ledgers[d].cap == s.devices[d].capacity.resources
  }

  lemma CapsMatchStep(s: State, op: Op)
    requires CapsMatch(s) && !op.OpUpdateDevice?
    ensures CapsMatch(Apply(s, op))
  {
    if op.OpRegisterDevice? {
    } else {
      hide Apply;
      OthersKeepCaps(s, op);
      forall d | d in s.ledgers ensures d in Apply(s, op).devices && Apply(s, op).devices[d].capacity == s.devices[d].capacity {
        Devices.DeviceStep(s, op, d);
      }
    }
  }

  lemma {:induction false} CapsMatchOnEveryRun(epoch: u64, policy: Policy, ops: seq<Op>)
    requires forall i :: 0 <= i < |ops| ==> !ops[i].OpUpdateDevice?
    ensures CapsMatch(Run(Fresh(epoch, policy), ops))
  {
    if ops != [] {
      CapsMatchOnEveryRun(epoch, policy, ops[..|ops| - 1]);
      hide CapsMatch, Apply;
      CapsMatchStep(Run(Fresh(epoch, policy), ops[..|ops| - 1]), ops[|ops| - 1]);
    }
  }

  // ---- evaluation and reservation ----

  lemma SameRequest(s: State, req: OffloadRequest)
    ensures ResourcesFor(MakeSnapshot(s), req) == RequestedResources(s.services, req)
  {
  }

  lemma ReserveExactly(s: State, req: OffloadRequest, did: u64)
    requires Mirrored(s) && did in s.devices && s.devices[did].ReadyForOffload()
    ensures ReserveDeployment(s, req, Some(did)).result.Ok? <==>
            (req.service.Some? ==> req.service.value in s.services)
            && Admits(s.ledgers[did].cap, s.ledgers[did].used, RequestedResources(s.services, req))
  {
    hide Admits, RequestedResources, Applied, NewDeployment, DeviceRecord.ReadyForOffload, Within, CurrentGen;
  }

  /** Evaluate/reserve agreement: on every run without update_device, reserving what an evaluation of the
      current snapshot selected succeeds if and only if the named service is registered. */
  lemma SelectionIsReservable(epoch: u64, policy: Policy, ops: seq<Op>, req: OffloadRequest, did: u64)
    requires forall i :: 0 <= i < |ops| ==> !ops[i].OpUpdateDevice?
    requires IsSelected(MakeSnapshot(Run(Fresh(epoch, policy), ops)), req, did)
    ensures var s := Run(Fresh(epoch, policy), ops);
            ReserveDeployment(s, req, Some(did)).result.Ok? <==> (req.service.Some? ==> req.service.value in s.services)
  {
    var s := Run(Fresh(epoch, policy), ops);
    MirrorOnEveryRun(epoch, policy, ops);
    CapsMatchOnEveryRun(epoch, policy, ops);
    hide Run;
    PassingMeans(MakeSnapshot(s), req, did);
    assert Account(s, did);
    hide Passes, TotalOf, Admits, ResourcesFor, RequestedResources, Within, DeviceRecord.ReadyForOffload, ReserveDeployment;
    SameRequest(s, req);
    ReserveExactly(s, req, did);
  }

  /** Whatever selection it is given, however stale, a reservation succeeds only on a device that is ready
      now, and leaves every bounded dimension of every account within its capacity. */
  lemma StaleSelectionIsSafe(epoch: u64, policy: Policy, ops: seq<Op>, req: OffloadRequest, selected: Option<u64>)
    ensures var s := Run(Fresh(epoch, policy), ops);
            var o := ReserveDeployment(s, req, selected);
            && (o.result.Ok? ==> selected.Some? && selected.value in s.devices && s.devices[selected.value].ReadyForOffload())
            && (o.result.Err? ==> o.state.ledgers == s.ledgers && o.state.deployments == s.deployments)
            && forall d :: d in o.state.ledgers ==> Within(o.state.ledgers[d].cap, o.state.ledgers[d].used)
  {
    var s := Run(Fresh(epoch, policy), ops);
    MirrorOnEveryRun(epoch, policy, ops);
    hide Run, ReserveDeployment, Within, DeviceRecord.ReadyForOffload, Admits, Applied;
    ReserveFrame(s, req, selected);
    ReserveAdds(s, req, selected);
    MirrorReserve(s, req, selected);
    var r := ReserveDeployment(s, req, selected).state;
    forall d | d in r.ledgers ensures Within(r.ledgers[d].cap, r.ledgers[d].used) {
      assert Account(r, d);
    }
  }
}
