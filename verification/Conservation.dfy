/** Each device's account is the sum of what its deployments hold. */
module Conservation {
  import opened Base
  import opened Resource
  import opened Records
  import opened Coordinator
  import opened Fencing
  import opened Mirror
  import opened Coupling
  import Devices
  import Lifecycle

  // ---- sums over maps ----

  function Total(m: map<u64, nat>): nat
    decreases |m|
  {
    if m == map[] then 0
    else
      var k := Least(m.Keys);
      assert |m - {k}| < |m| by {
        assert (m - {k}).Keys == m.Keys - {k};
      }
      m[k] + Total(m - {k})
  }

  lemma {:induction false} TotalSplit(m: map<u64, nat>, k: u64)
    requires k in m
    ensures Total(m) == m[k] + Total(m - {k})
    decreases |m|
  {
    var j := Least(m.Keys);
    if j != k {
      assert |m - {j}| < |m| by {
        assert (m - {j}).Keys == m.Keys - {j};
      }
      TotalSplit(m - {j}, k);
      assert (m - {j}) - {k} == (m - {k}) - {j};
      TotalSplit(m - {k}, j);
    }
  }

  lemma TotalUpdate(m: map<u64, nat>, k: u64, v: nat)
    ensures Total(m[k := v]) == Total(m - {k}) + v
    ensures k !in m ==> Total(m[k := v]) == Total(m) + v
    ensures k in m ==> Total(m[k := v]) == Total(m) - m[k] + v
  {
    TotalSplit(m[k := v], k);
    assert m[k := v] - {k} == m - {k};
    if k in m {
      TotalSplit(m, k);
    } else {
      assert m - {k} == m;
    }
  }

  lemma {:induction false} TotalMonotone(m: map<u64, nat>, n: map<u64, nat>)
    requires m.Keys == n.Keys && forall k :: k in m ==> m[k] <= n[k]
    ensures Total(m) <= Total(n)
    ensures Total(m) == 0 <==> forall k :: k in m ==> m[k] == 0
    decreases |m|
  {
    if m == map[] {
      assert n == map[];
    } else {
      var k := Least(m.Keys);
      assert |m - {k}| < |m| by {
        assert (m - {k}).Keys == m.Keys - {k};
      }
      TotalMonotone(m - {k}, n - {k});
      assert forall j :: j in m && j != k ==> j in m - {k};
    }
  }

  // ---- what deployments hold ----

  /** A deployment holds its resources until it fails, aborts or retires. */
  predicate Holding(state: DeploymentState) {
    !state.Failed? && !state.Aborted? && !state.Retired?
  }

  function Share(d: Deployment, dev: u64, dim: Dimension): nat {
    if d.binding.device == dev && Holding(d.state) then d.binding.resources.At(dim) else 0
  }

  function Shares(deps: map<u64, Deployment>, dev: u64, dim: Dimension): map<u64, nat> {
    map k | k in deps :: Share(deps[k], dev, dim)
  }

  function Held(s: State, dev: u64, dim: Dimension): nat {
    Total(Shares(s.deployments, dev, dim))
  }

  ghost predicate Balanced(s: State, dev: u64)
    requires dev in s.ledgers
  {
    forall dim: Dimension :: s.ledgers[dev].used.At(dim) == Held(s, dev, dim)
  }

  /** Every account shows exactly what the device's deployments hold. */
  ghost predicate Conserved(s: State) {
    forall dev :: dev in s.ledgers ==> Balanced(s, dev)
  }

  lemma ShareIsHeld(s: State, k: u64, dev: u64, dim: Dimension)
    requires k in s.deployments
    ensures Share(s.deployments[k], dev, dim) <= Held(s, dev, dim)
  {
    TotalSplit(Shares(s.deployments, dev, dim), k);
  }

  /** Deployment k is the only one whose share may differ. */
  lemma HeldAfter(s: State, r: State, k: u64, dev: u64, dim: Dimension)
    requires k in r.deployments && r.deployments.Keys == s.deployments.Keys + {k}
    requires forall j :: j in s.deployments && j != k ==> r.deployments[j] == s.deployments[j]
    ensures Held(r, dev, dim) ==
            Held(s, dev, dim) - (if k in s.deployments then Share(s.deployments[k], dev, dim) else 0)
            + Share(r.deployments[k], dev, dim)
  {
    hide Share, Total;
    TotalUpdate(Shares(s.deployments, dev, dim), k, Share(r.deployments[k], dev, dim));
    assert Shares(r.deployments, dev, dim) == Shares(s.deployments, dev, dim)[k := Share(r.deployments[k], dev, dim)];
  }

  /** What a reservation holds can be given back: the early return of release_ is not taken. */
  lemma HeldIsCovered(s: State, k: u64)
    requires Conserved(s) && k in s.deployments && s.deployments[k].binding.device in s.ledgers
    requires Holding(s.deployments[k].state)
    ensures Covers(s.ledgers[s.deployments[k].binding.device].used, s.deployments[k].binding.resources)
  {
    hide Held;
    var b := s.deployments[k].binding;
    assert Balanced(s, b.device);
    forall dim: Dimension ensures b.resources.At(dim) <= s.ledgers[b.device].used.At(dim) {
      ShareIsHeld(s, k, b.device, dim);
    }
  }

  // ---- calls that change no share and no account ----

  ghost predicate SameShares(s: State, r: State) {
    && r.deployments.Keys == s.deployments.Keys
    && forall k :: k in s.deployments ==>
         r.deployments[k].binding == s.deployments[k].binding
         && (Holding(r.deployments[k].state) <==> Holding(s.deployments[k].state))
  }

  lemma HeldSame(s: State, r: State, dev: u64, dim: Dimension)
    requires SameShares(s, r)
    ensures Held(r, dev, dim) == Held(s, dev, dim)
  {
    hide Holding, Total;
    assert Shares(r.deployments, dev, dim) == Shares(s.deployments, dev, dim);
  }

  lemma ConservedSame(s: State, r: State)
    requires Conserved(s) && SameShares(s, r) && r.ledgers == s.ledgers
    ensures Conserved(r)
  {
    hide SameShares, Held;
    forall dev | dev in r.ledgers ensures Balanced(r, dev) {
      assert Balanced(s, dev);
      forall dim: Dimension ensures r.ledgers[dev].used.At(dim) == Held(r, dev, dim) {
        HeldSame(s, r, dev, dim);
      }
    }
  }

  lemma FenceKeepsShare(s: State, op: Op, d: Deployment)
    ensures AfterDeviceOp(s, op, d).binding == d.binding
    ensures Holding(AfterDeviceOp(s, op, d).state) <==> Holding(d.state)
  {
    hide FenceOf;
  }

  lemma DeviceOpShares(s: State, op: Op)
    requires DeviceOp(op)
    ensures SameShares(s, Apply(s, op))
  {
    hide Apply, AfterDeviceOp, Holding;
    DeviceOpKeys(s, op);
    forall k | k in s.deployments
      ensures Apply(s, op).deployments[k].binding == s.deployments[k].binding
      ensures Holding(Apply(s, op).deployments[k].state) <==> Holding(s.deployments[k].state)
    {
      DeviceOpAt(s, op, k);
      FenceKeepsShare(s, op, s.deployments[k]);
    }
  }

  lemma DeviceOpAccounts(s: State, op: Op)
    requires DeviceOp(op) && !op.OpRegisterDevice? && !op.OpRetireDevice?
    ensures Apply(s, op).ledgers == s.ledgers
  {
    hide UpdateDevice, SetDeviceState, FenceAll, ValidDeviceTransition, Invalidates, DeviceRecord.WithStatus, FencedRecord,
         LostDevices, RecoveredDevices;
    match op {
      case OpUpdateDevice(rec) => UpdateFrame(s, rec);
      case OpSetDeviceState(id, state, key) => SetStateFrame(s, id, state, key);
      case OpTransitionDevice(id, _) => FenceAllKeepsAccounts(s, s.deployments.Keys, DeviceFenced(id));
      case OpFenceDevice(id, _) => FenceAllKeepsAccounts(s, s.deployments.Keys, DeviceFenced(id));
      case OpMarkWorkerLost(w) =>
        var lost := s.(devices := LostDevices(s.devices, w));
        if w in s.workers {
          FenceAllKeepsAccounts(lost, lost.deployments.Keys, WorkerLost(s.workers[w]));
        }
      case OpApplyRecovery(p) =>
        var fenced := s.(devices := RecoveredDevices(s.devices, p));
        FenceAllKeepsAccounts(fenced, fenced.deployments.Keys, CoordinatorRecovered);
    }
  }

  lemma OneMoved(s: State, r: State, j: u64, e: Deployment)
    requires j in s.deployments && r.deployments == s.deployments[j := e]
    requires e.binding == s.deployments[j].binding && (Holding(e.state) <==> Holding(s.deployments[j].state))
    ensures SameShares(s, r)
  {
    hide Holding;
  }

  lemma NoneMoved(s: State, r: State)
    requires r.deployments == s.deployments
    ensures SameShares(s, r)
  {
    hide Holding;
  }

  lemma TransitionShares(s: State, j: u64, to: DeploymentState)
    requires to.Staging? || to.Loaded? || to.Validating? || to.Activating?
    ensures SameShares(s, DeployTransition(s, j, to).state)
  {
    if j in s.deployments && ValidDeploymentTransition(s.deployments[j].state, to) {
      assert Holding(s.deployments[j].state);
      hide SameShares, ValidDeploymentTransition;
      OneMoved(s, Moved(s, j, to), j, s.deployments[j].(state := to, authoritative := false));
    } else {
      hide SameShares, ValidDeploymentTransition;
      NoneMoved(s, s);
    }
  }

  lemma ActivateShares(s: State, j: u64)
    requires RoomForIds(s)
    ensures SameShares(s, ActivateDeployment(s, j).state)
  {
    hide SameShares, ActivateDeployment;
    ActivationEffect(s, j);
    if ActivateDeployment(s, j).result.Ok? {
      OneMoved(s, ActivateDeployment(s, j).state, j, ActivatedDeployment(s, s.deployments[j]));
    } else {
      NoneMoved(s, s);
    }
  }

  lemma CommitShares(s: State, j: u64)
    ensures SameShares(s, CommitDeployment(s, j).state)
  {
    hide CommitDeployment, CapturedAuthority, DeviceRecord.ReadyForOffload;
    Lifecycle.CommitEffect(s, j);
  }

  lemma DrainShares(s: State, j: u64)
    ensures SameShares(s, DrainDeployment(s, j).state)
  {
    hide SameShares, Marked;
    if DrainDeployment(s, j).result.Ok? {
      OneMoved(s, DrainDeployment(s, j).state, j,
               s.deployments[j].(state := DeploymentState.Draining, authoritative := false));
    } else {
      NoneMoved(s, s);
    }
  }

  lemma RungShares(s: State, op: Op)
    requires RungOp(op) && RoomForIds(s)
    ensures SameShares(s, Apply(s, op))
  {
    hide SameShares, DeployTransition, ActivateDeployment, CommitDeployment, DrainDeployment;
    match op {
      case OpStage(j) => TransitionShares(s, j, DeploymentState.Staging);
      case OpLoad(j) => TransitionShares(s, j, DeploymentState.Loaded);
      case OpValidate(j) => TransitionShares(s, j, DeploymentState.Validating);
      case OpActivate(j) => ActivateShares(s, j);
      case OpCommit(j) => CommitShares(s, j);
      case OpDrain(j) => DrainShares(s, j);
    }
  }

  // ---- reserving ----

  /** The accounts after dev was charged or credited. */
  lemma ConservedRecharged(s: State, r: State, dev: u64, used: Resources)
    requires Conserved(s) && dev in s.ledgers && r.ledgers == s.ledgers[dev := s.ledgers[dev].(used := used)]
    requires forall d: u64, dim: Dimension :: d != dev ==> Held(r, d, dim) == Held(s, d, dim)
    ensures Conserved(r) <==> forall dim: Dimension :: used.At(dim) == Held(r, dev, dim)
  {
    hide Held;
    assert r.ledgers[dev].used == used;
    forall d | d in s.ledgers && d != dev ensures Balanced(r, d) {
      assert Balanced(s, d);
    }
    assert Conserved(r) ==> Balanced(r, dev);
  }

  lemma ReserveConserves(s: State, req: OffloadRequest, selected: Option<u64>)
    requires Conserved(s) && s.idSeq !in s.deployments
    ensures var o := ReserveDeployment(s, req, selected);
            Conserved(o.state) <==>
            (Grants(s, req, selected) ==> NoWrap(s.ledgers[selected.value].used, RequestedResources(s.services, req)))
  {
    hide Conserved, ReserveDeployment, RequestedResources, Admits, Applied, NoWrap, Grants;
    ReservesExactly(s, req, selected);
    GrantsMeans(s, req, selected);
    ReserveFrame(s, req, selected);
    ReserveAdds(s, req, selected);
    var o := ReserveDeployment(s, req, selected);
    if o.result.Ok? {
      NewcomerConserves(s, o.state, NewBinding(s, req, selected.value));
    } else {
      NoneMoved(s, o.state);
      ConservedSame(s, o.state);
    }
  }

  lemma GrantsMeans(s: State, req: OffloadRequest, selected: Option<u64>)
    ensures Grants(s, req, selected) ==> selected.Some? && selected.value in s.ledgers
  {
  }

  lemma NewcomerConserves(s: State, r: State, b: DeploymentBinding)
    requires Conserved(s) && s.idSeq !in s.deployments && b.device in s.ledgers
    requires r.deployments == s.deployments[s.idSeq := NewDeployment(b)]
    requires var l := s.ledgers[b.device]; r.ledgers == s.ledgers[b.device := l.(used := Applied(l.used, b.resources))]
    ensures Conserved(r) <==> NoWrap(s.ledgers[b.device].used, b.resources)
  {
    var l := s.ledgers[b.device];
    assert Balanced(s, b.device);
    forall d: u64, dim: Dimension
      ensures Held(r, d, dim) == Held(s, d, dim) + if d == b.device then b.resources.At(dim) else 0
    {
      HeldAfter(s, r, s.idSeq, d, dim);
    }
    hide Held, Applied;
    ConservedRecharged(s, r, b.device, Applied(l.used, b.resources));
    hide Conserved;
    forall dim: Dimension ensures Applied(l.used, b.resources).At(dim) == Held(r, b.device, dim)
                                  <==> l.used.At(dim) + b.resources.At(dim) <= U64_MAX {
      AppliedAt(l.used, b.resources, dim);
    }
  }

  // ---- giving back ----

  /** Deployment k gives its resources back and ends: the accounts stay exact unless it held nothing any
      more and the account covers the resources once again. */
  lemma AbandonConserves(s: State, k: u64, to: DeploymentState, mark: ActivationState)
    requires Conserved(s) && k in s.deployments && s.deployments[k].binding.device in s.ledgers && !Holding(to)
    ensures var d := s.deployments[k];
            Conserved(Abandoned(s, k, to, mark)) <==>
            Holding(d.state) || Released(s.ledgers[d.binding.device].used, d.binding.resources) == s.ledgers[d.binding.device].used
  {
    var d, r := s.deployments[k], Abandoned(s, k, to, mark);
    var dev, used := d.binding.device, s.ledgers[d.binding.device].used;
    AbandonedTables(s, k, to, mark);
    assert Balanced(s, dev);
    if Holding(d.state) {
      HeldIsCovered(s, k);
    }
    forall e: u64, dim: Dimension
      ensures Held(r, e, dim) == Held(s, e, dim) - Share(d, e, dim)
    {
      HeldAfter(s, r, k, e, dim);
    }
    hide Held, Released, Abandoned;
    ConservedRecharged(s, r, dev, Released(used, d.binding.resources));
    hide Conserved;
    forall dim: Dimension ensures Covers(used, d.binding.resources) ==>
        Released(used, d.binding.resources).At(dim) == used.At(dim) - d.binding.resources.At(dim) {
      ReleasedAt(used, d.binding.resources, dim);
    }
    SameResources(Released(used, d.binding.resources), used);
  }

  lemma SameResources(a: Resources, b: Resources)
    ensures a == b <==> forall dim: Dimension :: a.At(dim) == b.At(dim)
  {
    if forall dim: Dimension :: a.At(dim) == b.At(dim) {
      assert a.At(Memory) == b.At(Memory) && a.At(Queues) == b.At(Queues) && a.At(Functions) == b.At(Functions);
      assert a.At(Slots) == b.At(Slots) && a.At(Contexts) == b.At(Contexts);
    }
  }

  lemma AbandonedTables(s: State, k: u64, to: DeploymentState, mark: ActivationState)
    requires k in s.deployments && s.deployments[k].binding.device in s.ledgers
    ensures var d, r := s.deployments[k], Abandoned(s, k, to, mark);
            var l := s.ledgers[d.binding.device];
            && r.deployments == s.deployments[k := d.(state := to, authoritative := false)]
            && r.ledgers == s.ledgers[d.binding.device := l.(used := Released(l.used, d.binding.resources))]
  {
    hide Released, Marked;
  }

  lemma ReleaseIdle(used: Resources, r: Resources)
    ensures Released(used, r) == used <==> !Covers(used, r) || r == NOTHING
  {
    forall dim: Dimension ensures Covers(used, r) ==> Released(used, r).At(dim) == used.At(dim) - r.At(dim) {
      ReleasedAt(used, r, dim);
    }
    ReleasedAt(used, r, Memory);
    SameResources(Released(used, r), used);
    SameResources(r, NOTHING);
    hide Released;
    forall dim: Dimension ensures NOTHING.At(dim) == 0 {
    }
  }

  lemma EndingConserves(s: State, op: Op)
    requires Conserved(s) && EndingOp(op)
    requires op.deployment in s.deployments ==> s.deployments[op.deployment].binding.device in s.ledgers
    ensures Conserved(Apply(s, op)) <==> !ReleasesTwice(s, op)
  {
    hide Apply, Abandoned, Conserved, Releases, Released, Covers;
    EndingEffect(s, op);
    var k := op.deployment;
    if k in s.deployments {
      var d := s.deployments[k];
      AbandonConserves(s, k, EndState(op), EndMark(op));
      ReleaseIdle(s.ledgers[d.binding.device].used, d.binding.resources);
      ReleasesWhenHolding(op, d.state);
      if op.OpRetire? && (d.state.Failed? || d.state.Aborted?) {
        var r := Moved(s, k, DeploymentState.Retired);
        OneMoved(s, r, k, d.(state := DeploymentState.Retired, authoritative := false));
        ConservedSame(s, r);
      }
    }
  }

  lemma ReleasesWhenHolding(op: Op, from: DeploymentState)
    requires EndingOp(op)
    ensures Releases(op, from) ==> Holding(from) || (op.OpRollback? && from.Failed?)
    ensures op.OpRollback? && from.Failed? ==> Releases(op, from)
    ensures !Holding(EndState(op))
    ensures op.OpRetire? && (from.Failed? || from.Aborted?) ==> !Releases(op, from) && !Holding(from)
  {
  }

  /** rollback_deployment on a deployment that fail_deployment has already released, while the account
      still covers its resources. */
  ghost predicate ReleasesTwice(s: State, op: Op) {
    && op.OpRollback? && op.deployment in s.deployments && s.deployments[op.deployment].state.Failed?
    && var b := s.deployments[op.deployment].binding;
       b.device in s.ledgers && Covers(s.ledgers[b.device].used, b.resources) && b.resources != NOTHING
  }

  // ---- retiring a device ----

  function HitShare(d: Deployment, rule: FenceRule, dim: Dimension): nat {
    if Hits(rule, d) then d.binding.resources.At(dim) else 0
  }

  function HitShares(deps: map<u64, Deployment>, todo: set<u64>, rule: FenceRule, dim: Dimension): map<u64, nat>
    requires todo <= deps.Keys
  {
    map k | k in todo :: HitShare(deps[k], rule, dim)
  }

  /** What a device's account must still cover while its deployments are fenced one by one. */
  ghost predicate CoversHits(s: State, todo: set<u64>, id: u64)
    requires todo <= s.deployments.Keys
  {
    id in s.ledgers &&
    forall dim: Dimension :: Total(HitShares(s.deployments, todo, DeviceRetired(id), dim)) <= s.ledgers[id].used.At(dim)
  }

  lemma RetireOne(s: State, k: u64, id: u64)
    requires k in s.deployments && id in s.ledgers
    requires forall dim: Dimension :: HitShare(s.deployments[k], DeviceRetired(id), dim) <= s.ledgers[id].used.At(dim)
    ensures var r := FenceOne(s, k, DeviceRetired(id));
            && r.ledgers.Keys == s.ledgers.Keys
            && (forall d :: d in s.ledgers && d != id ==> r.ledgers[d] == s.ledgers[d])
            && forall dim: Dimension ::
                 r.ledgers[id].used.At(dim) == s.ledgers[id].used.At(dim) - HitShare(s.deployments[k], DeviceRetired(id), dim)
  {
    var d, rule := s.deployments[k], DeviceRetired(id);
    if Hits(rule, d) {
      var used, res := s.ledgers[id].used, d.binding.resources;
      assert Covers(used, res) by {
        forall dim: Dimension ensures res.At(dim) <= used.At(dim) {
          assert HitShare(d, rule, dim) == res.At(dim);
        }
      }
      forall dim: Dimension ensures Released(used, res).At(dim) == used.At(dim) - res.At(dim) {
        ReleasedAt(used, res, dim);
      }
      hide Hits, Released, Marked, Covers;
    }
  }

  lemma {:induction false} RetireAll(s: State, todo: set<u64>, id: u64)
    requires todo <= s.deployments.Keys && CoversHits(s, todo, id)
    ensures var r := FenceAll(s, todo, DeviceRetired(id));
            && r.ledgers.Keys == s.ledgers.Keys
            && (forall d :: d in s.ledgers && d != id ==> r.ledgers[d] == s.ledgers[d])
            && forall dim: Dimension ::
                 r.ledgers[id].used.At(dim) ==
                 s.ledgers[id].used.At(dim) - Total(HitShares(s.deployments, todo, DeviceRetired(id), dim))
    decreases |todo|
  {
    hide FenceOne, HitShare, HitShares, Total;
    var rule := DeviceRetired(id);
    if todo != {} {
      var k := Least(todo);
      forall dim: Dimension
        ensures Total(HitShares(s.deployments, todo, rule, dim)) ==
                HitShare(s.deployments[k], rule, dim) + Total(HitShares(s.deployments, todo - {k}, rule, dim))
      {
        HitsSplit(s.deployments, todo, rule, dim, k);
      }
      var next := FenceOne(s, k, rule);
      RetireOne(s, k, id);
      forall dim: Dimension
        ensures HitShares(next.deployments, todo - {k}, rule, dim) == HitShares(s.deployments, todo - {k}, rule, dim)
      {
        HitsElsewhere(s, k, rule, todo, dim);
      }
      RetireAll(next, todo - {k}, id);
    } else {
      forall dim: Dimension ensures Total(HitShares(s.deployments, todo, rule, dim)) == 0 {
        NoHits(s.deployments, rule, dim);
      }
    }
  }

  lemma NoHits(deps: map<u64, Deployment>, rule: FenceRule, dim: Dimension)
    ensures Total(HitShares(deps, {}, rule, dim)) == 0
  {
    assert HitShares(deps, {}, rule, dim) == map[];
  }

  lemma HitsSplit(deps: map<u64, Deployment>, todo: set<u64>, rule: FenceRule, dim: Dimension, k: u64)
    requires todo <= deps.Keys && k in todo
    ensures Total(HitShares(deps, todo, rule, dim)) ==
            HitShare(deps[k], rule, dim) + Total(HitShares(deps, todo - {k}, rule, dim))
  {
    hide HitShare, Total;
    TotalSplit(HitShares(deps, todo, rule, dim), k);
    assert HitShares(deps, todo, rule, dim) - {k} == HitShares(deps, todo - {k}, rule, dim);
  }

  lemma HitsElsewhere(s: State, k: u64, rule: FenceRule, todo: set<u64>, dim: Dimension)
    requires k in s.deployments && todo <= s.deployments.Keys
    ensures HitShares(FenceOne(s, k, rule).deployments, todo - {k}, rule, dim) == HitShares(s.deployments, todo - {k}, rule, dim)
  {
    hide FenceOne, HitShare;
    forall j | j in todo - {k} ensures FenceOne(s, k, rule).deployments[j] == s.deployments[j] {
      FenceOneAt(s, k, rule, j);
    }
  }

  /** No deployment that retiring device id would hit holds anything of this dimension. */
  ghost predicate Idle(s: State, id: u64, dim: Dimension) {
    forall k :: k in s.deployments && Hits(DeviceRetired(id), s.deployments[k]) ==>
      s.deployments[k].binding.resources.At(dim) == 0
  }

  lemma HitsAreHeld(s: State, id: u64, dim: Dimension)
    ensures Total(HitShares(s.deployments, s.deployments.Keys, DeviceRetired(id), dim)) <= Held(s, id, dim)
    ensures Total(HitShares(s.deployments, s.deployments.Keys, DeviceRetired(id), dim)) == 0 <==> Idle(s, id, dim)
  {
    var hits := HitShares(s.deployments, s.deployments.Keys, DeviceRetired(id), dim);
    TotalMonotone(hits, Shares(s.deployments, id, dim));
    hide Total;
    assert forall k :: k in s.deployments ==> k in hits && hits[k] == HitShare(s.deployments[k], DeviceRetired(id), dim);
  }

  /** retire_device on a device that carries a deployment with resources: they are given back while the
      deployment, now waiting for revalidation, still counts as holding them. */
  ghost predicate ReleasesEarly(s: State, op: Op) {
    && op.OpRetireDevice? && op.device in s.devices
    && exists k :: k in s.deployments && Hits(DeviceRetired(op.device), s.deployments[k]) && s.deployments[k].binding.resources != NOTHING
  }

  lemma RetireDeviceConserves(s: State, op: Op)
    requires Conserved(s) && op.OpRetireDevice? && s.ledgers.Keys == s.devices.Keys
    ensures Conserved(Apply(s, op)) <==> !ReleasesEarly(s, op)
  {
    var id, r := op.device, Apply(s, op);
    if id in s.devices {
      RetireDeviceAccounts(s, op);
      DeviceOpShares(s, op);
      hide Apply, SameShares, Held;
      forall d: u64, dim: Dimension ensures Held(r, d, dim) == Held(s, d, dim) {
        HeldSame(s, r, d, dim);
      }
      RetiredBalance(s, r, id);
    } else {
      Devices.UnknownDevice(s, op);
      hide Apply, Conserved;
    }
  }

  /** What was given back early is missing from the account. */
  lemma RetiredBalance(s: State, r: State, id: u64)
    requires Conserved(s) && id in s.ledgers && r.ledgers.Keys == s.ledgers.Keys
    requires forall d: u64, dim: Dimension :: Held(r, d, dim) == Held(s, d, dim)
    requires forall d :: d in s.ledgers && d != id ==> r.ledgers[d] == s.ledgers[d]
    requires forall dim: Dimension ::
               r.ledgers[id].used.At(dim) ==
               s.ledgers[id].used.At(dim) - Total(HitShares(s.deployments, s.deployments.Keys, DeviceRetired(id), dim))
    ensures Conserved(r) <==>
            forall k :: k in s.deployments && Hits(DeviceRetired(id), s.deployments[k]) ==> s.deployments[k].binding.resources == NOTHING
  {
    hide Held, HitShares, Total, Hits, Idle;
    forall d | d in s.ledgers && d != id ensures Balanced(r, d) {
      assert Balanced(s, d);
    }
    assert Balanced(s, id);
    assert Conserved(r) <==> Balanced(r, id);
    forall dim: Dimension
      ensures r.ledgers[id].used.At(dim) == Held(r, id, dim) <==> Idle(s, id, dim)
    {
      HitsAreHeld(s, id, dim);
    }
    NothingHit(s, id);
  }

  lemma NothingHit(s: State, id: u64)
    ensures (forall k :: k in s.deployments && Hits(DeviceRetired(id), s.deployments[k]) ==> s.deployments[k].binding.resources == NOTHING)
            <==> forall dim: Dimension :: Idle(s, id, dim)
  {
    hide Hits;
    forall dim: Dimension ensures NOTHING.At(dim) == 0 {
    }
    if forall dim: Dimension :: Idle(s, id, dim) {
      forall k | k in s.deployments && Hits(DeviceRetired(id), s.deployments[k])
        ensures s.deployments[k].binding.resources == NOTHING
      {
        forall dim: Dimension ensures s.deployments[k].binding.resources.At(dim) == 0 {
          assert Idle(s, id, dim);
        }
        SameResources(s.deployments[k].binding.resources, NOTHING);
      }
    }
  }

  lemma RetireDeviceAccounts(s: State, op: Op)
    requires Conserved(s) && op.OpRetireDevice? && op.device in s.devices && op.device in s.ledgers
    ensures var r := Apply(s, op);
            && r.ledgers.Keys == s.ledgers.Keys
            && (forall d :: d in s.ledgers && d != op.device ==> r.ledgers[d] == s.ledgers[d])
            && forall dim: Dimension ::
                 r.ledgers[op.device].used.At(dim) ==
                 s.ledgers[op.device].used.At(dim)
                 - Total(HitShares(s.deployments, s.deployments.Keys, DeviceRetired(op.device), dim))
  {
    hide FenceAll, Total, HitShares, Held, DeviceRecord.WithStatus;
    assert Balanced(s, op.device);
    forall dim: Dimension
      ensures Total(HitShares(s.deployments, s.deployments.Keys, DeviceRetired(op.device), dim)) <= s.ledgers[op.device].used.At(dim)
    {
      HitsAreHeld(s, op.device, dim);
    }
    RetireAll(s, s.deployments.Keys, op.device);
  }

  // ---- any call ----

  lemma RegisterConserves(s: State, rec: DeviceRecord)
    requires Conserved(s) && s.ledgers.Keys == s.devices.Keys
    requires forall k :: k in s.deployments ==> s.deployments[k].binding.device in s.devices
    ensures Conserved(RegisterDevice(s, rec).state)
  {
    var r, id := RegisterDevice(s, rec).state, rec.identity.deviceId;
    if id != 0 && id !in s.devices {
      assert r.deployments == s.deployments && r.ledgers == s.ledgers[id := Ledger(rec.capacity.resources, NOTHING)];
      hide RegisterDevice;
      forall d | d in r.ledgers ensures Balanced(r, d) {
        if d != id {
          assert Balanced(s, d);
        } else {
          forall dim: Dimension ensures Held(r, id, dim) == 0 && NOTHING.At(dim) == 0 {
            NothingHeld(r, id, dim);
          }
        }
      }
    }
  }

  lemma NothingHeld(s: State, id: u64, dim: Dimension)
    requires forall k :: k in s.deployments ==> s.deployments[k].binding.device != id
    ensures Held(s, id, dim) == 0
  {
    TotalMonotone(Shares(s.deployments, id, dim), Shares(s.deployments, id, dim));
  }

  /** The calls after which some account no longer shows what its deployments hold: a reservation that
      wraps a counter, a second release, and a release that comes too early. */
  ghost predicate Unbalances(s: State, op: Op) {
    ReleasesTwice(s, op) || ReleasesEarly(s, op) || Wraps(s, op)
  }

  ghost predicate Wraps(s: State, op: Op) {
    && op.OpReserve? && Grants(s, op.req, op.selected)
    && !NoWrap(s.ledgers[op.selected.value].used, RequestedResources(s.services, op.req))
  }

  /** One call keeps every account exact if and only if it is none of those. */
  lemma ConservationStep(s: State, op: Op)
    requires Mirrored(s) && Linked(s) && RoomForIds(s) && Conserved(s)
    ensures Conserved(Apply(s, op)) <==> !Unbalances(s, op)
  {
    DevicesKnown(s);
    Lifecycle.NextIdIsFree(s);
    hide Linked, Conserved, Apply, ReleasesTwice, ReleasesEarly, Wraps;
    OnlyThose(s, op);
    if op.OpReserve? {
      Lifecycle.ApplyReserve(s, op);
      ReserveConserves(s, op.req, op.selected);
      WrapsMeans(s, op);
    } else if EndingOp(op) {
      EndingConserves(s, op);
    } else if op.OpRetireDevice? {
      RetireDeviceConserves(s, op);
    } else if op.OpRegisterDevice? {
      ApplyRegister(s, op);
      RegisterConserves(s, op.rec);
    } else {
      OthersConserve(s, op);
    }
  }

  lemma DevicesKnown(s: State)
    requires Linked(s)
    ensures forall k :: k in s.deployments ==> s.deployments[k].binding.device in s.devices
  {
    hide GenerationsGrow, ActivationOk;
    forall k | k in s.deployments ensures s.deployments[k].binding.device in s.devices {
      assert DeploymentOk(s, k);
    }
  }

  lemma OnlyThose(s: State, op: Op)
    ensures ReleasesTwice(s, op) ==> op.OpRollback?
    ensures ReleasesEarly(s, op) ==> op.OpRetireDevice?
    ensures Wraps(s, op) ==> op.OpReserve?
  {
  }

  lemma WrapsMeans(s: State, op: Op)
    requires op.OpReserve?
    ensures var req, selected := op.req, op.selected;
            && (Grants(s, req, selected) ==> selected.Some? && selected.value in s.ledgers)
            && (Wraps(s, op) <==>
                Grants(s, req, selected) && !NoWrap(s.ledgers[selected.value].used, RequestedResources(s.services, req)))
  {
    hide NoWrap;
  }

  lemma ApplyRegister(s: State, op: Op)
    requires op.OpRegisterDevice?
    ensures Apply(s, op) == RegisterDevice(s, op.rec).state
  {
  }

  lemma OthersConserve(s: State, op: Op)
    requires Conserved(s) && RoomForIds(s)
    requires !op.OpReserve? && !EndingOp(op) && !op.OpRetireDevice? && !op.OpRegisterDevice?
    ensures Conserved(Apply(s, op))
  {
    hide Conserved, Apply, SameShares;
    if DeviceOp(op) {
      DeviceOpShares(s, op);
      DeviceOpAccounts(s, op);
    } else if CatalogOp(op) {
      CatalogFrame(s, op);
      NoneMoved(s, Apply(s, op));
    } else {
      RungShares(s, op);
      RungFrame(s, op);
    }
    ConservedSame(s, Apply(s, op));
  }

  // ---- runs ----

  ghost predicate NeverUnbalanced(s: State, ops: seq<Op>) {
    ops == [] || (NeverUnbalanced(s, ops[..|ops| - 1]) && !Unbalances(Run(s, ops[..|ops| - 1]), ops[|ops| - 1]))
  }

  /** On every run from a fresh engine that makes no such call, each account equals, in every dimension, the
      sum over the device's deployments that have not failed, aborted or retired; and each of them can give
      its resources back. */
  lemma {:induction false} ConservedOnEveryRun(epoch: u64, policy: Policy, ops: seq<Op>)
    requires |ops| <= MAX_CALLS && NeverUnbalanced(Fresh(epoch, policy), ops)
    ensures var s := Run(Fresh(epoch, policy), ops);
            && Conserved(s)
            && forall k :: k in s.deployments && Holding(s.deployments[k].state) ==>
                 s.deployments[k].binding.device in s.ledgers
                 && Covers(s.ledgers[s.deployments[k].binding.device].used, s.deployments[k].binding.resources)
  {
    var s0 := Fresh(epoch, policy);
    hide Apply, Unbalances;
    LinkedOnEveryRun(epoch, policy, ops);
    MirrorOnEveryRun(epoch, policy, ops);
    if ops != [] {
      var most := ops[..|ops| - 1];
      ConservedOnEveryRun(epoch, policy, most);
      LinkedOnEveryRun(epoch, policy, most);
      MirrorOnEveryRun(epoch, policy, most);
      hide Linked, Mirrored, Conserved;
      ConservationStep(Run(s0, most), ops[|ops| - 1]);
    }
    hide Linked, Conserved, Run, Covers;
    AllCovered(Run(s0, ops));
  }

  lemma AllCovered(s: State)
    requires Conserved(s) && Mirrored(s) && Linked(s)
    ensures forall k :: k in s.deployments && Holding(s.deployments[k].state) ==>
              s.deployments[k].binding.device in s.ledgers
              && Covers(s.ledgers[s.deployments[k].binding.device].used, s.deployments[k].binding.resources)
  {
    DevicesKnown(s);
    hide Linked, Conserved, Covers;
    forall k | k in s.deployments && Holding(s.deployments[k].state)
      ensures Covers(s.ledgers[s.deployments[k].binding.device].used, s.deployments[k].binding.resources)
    {
      HeldIsCovered(s, k);
    }
  }
}
