/** Deployments and activations stay coupled on every run from a fresh engine. */
module Coupling {
  import opened Base
  import opened Resource
  import opened Records
  import opened Coordinator
  import opened Fencing

  /** The state of the activation a deployment points to, given the deployment's own state. */
  predicate Coupled(d: DeploymentState, a: ActivationState) {
    match d
    case Activating => a.Pending?
    case Active => a.Active?
    case Draining => a.Draining?
    case Staging | Loaded | Validating | RevalidationRequired | Failed => a.Stale?
    case Aborted => a.Cancelled?
    case Retired => a.Retired? || a.Stale? || a.Cancelled?
    case Planned | Reserved | Degraded => false
  }

  /** States in which a deployment may have no activation. */
  predicate MayLackActivation(d: DeploymentState) {
    d.Reserved? || d.Staging? || d.Loaded? || d.Validating? || d.Failed? || d.Aborted? || d.Retired?
  }

  ghost predicate DeploymentOk(s: State, k: u64)
    requires k in s.deployments
  {
    var d := s.deployments[k];
    && d.binding.deploymentId == k && 0 < k < s.idSeq
    && d.binding.device in s.devices
    && d.authoritative == d.state.Active?
    && d.activationGen < s.idSeq
    && (d.activation.None? ==> d.activationGen == 0 && MayLackActivation(d.state))
    && (d.activation.Some? ==>
          && d.activation.value in s.activations
          && var act := s.activations[d.activation.value];
             act.deploymentId == k && act.activationGen == d.activationGen && Coupled(d.state, act.state))
  }

  /** The deployment that activation a belongs to no longer points to it. */
  predicate Superseded(s: State, a: u64) {
    a in s.activations && s.activations[a].deploymentId in s.deployments
    && s.deployments[s.activations[a].deploymentId].activation != Some(a)
  }

  ghost predicate ActivationOk(s: State, a: u64)
    requires a in s.activations
  {
    var act := s.activations[a];
    && act.activationId == a && 0 < a < s.idSeq
    && act.deploymentId in s.deployments
    && 0 < act.activationGen <= s.deployments[act.deploymentId].activationGen
    && (act.authority.activationGen == 0 || act.authority.activationGen == act.activationGen)
    && (Superseded(s, a) ==> act.state.Stale? && act.activationGen < s.deployments[act.deploymentId].activationGen)
  }

  /** Later activations of one deployment carry larger generations. */
  ghost predicate GenerationsGrow(acts: map<u64, ActivationRecord>) {
    forall a, b :: a in acts && b in acts && a < b && acts[a].deploymentId == acts[b].deploymentId ==>
      acts[a].activationGen < acts[b].activationGen
  }

  ghost predicate Linked(s: State) {
    && (forall k :: k in s.deployments ==> DeploymentOk(s, k))
    && (forall a :: a in s.activations ==> ActivationOk(s, a))
    && GenerationsGrow(s.activations)
  }

  /** Whatever changes no deployment or activation keeps the coupling. */
  lemma LinkedKept(s: State, r: State)
    requires Linked(s)
    requires r.deployments == s.deployments && r.activations == s.activations
    requires s.devices.Keys <= r.devices.Keys && s.idSeq <= r.idSeq
    ensures Linked(r)
  {
    hide GenerationsGrow, Coupled, MayLackActivation;
    forall k | k in r.deployments ensures DeploymentOk(r, k) {
      assert DeploymentOk(s, k);
    }
    forall a | a in r.activations ensures ActivationOk(r, a) {
      assert ActivationOk(s, a);
    }
  }

  /** The activation table r differs from s at most in the record that deployment k points to, which
      keeps its identity and generation. */
  ghost predicate OnlyOwnActivation(s: State, r: State, k: u64)
    requires k in s.deployments
  {
    && r.activations.Keys == s.activations.Keys
    && (forall a :: a in s.activations && s.deployments[k].activation != Some(a) ==> r.activations[a] == s.activations[a])
    && (forall a :: a in s.activations ==>
          r.activations[a] == s.activations[a].(state := r.activations[a].state, authority := r.activations[a].authority))
  }

  /** Deployment k moves, keeping its binding and activation. */
  ghost predicate OnlyMoves(s: State, r: State, k: u64)
    requires k in s.deployments
  {
    && r.deployments.Keys == s.deployments.Keys
    && (forall j :: j in s.deployments && j != k ==> r.deployments[j] == s.deployments[j])
    && r.deployments[k].binding == s.deployments[k].binding
    && r.deployments[k].activation == s.deployments[k].activation
    && r.deployments[k].activationGen == s.deployments[k].activationGen
    && r.idSeq == s.idSeq && r.devices.Keys == s.devices.Keys
    && OnlyOwnActivation(s, r, k)
  }

  lemma OthersUnmoved(s: State, r: State, k: u64, j: u64)
    requires k in s.deployments && j in s.deployments && j != k && OnlyMoves(s, r, k)
    requires DeploymentOk(s, j) && DeploymentOk(s, k)
    ensures DeploymentOk(r, j)
  {
    hide Coupled, MayLackActivation;
  }

  lemma ActivationMoved(s: State, r: State, k: u64, a: u64)
    requires k in s.deployments && a in s.activations && OnlyMoves(s, r, k)
    requires ActivationOk(s, a)
    requires r.activations[a].authority.activationGen == 0 || r.activations[a].authority.activationGen == r.activations[a].activationGen
    requires s.deployments[k].activation == Some(a) ==> s.activations[a].deploymentId == k
    ensures ActivationOk(r, a)
  {
    var act := s.activations[a];
    assert r.activations[a] == act.(state := r.activations[a].state, authority := r.activations[a].authority);
    assert r.deployments[act.deploymentId].activation == s.deployments[act.deploymentId].activation;
    assert r.deployments[act.deploymentId].activationGen == s.deployments[act.deploymentId].activationGen;
  }

  lemma GenerationsKept(s: State, r: State, k: u64)
    requires k in s.deployments && OnlyOwnActivation(s, r, k)
    requires GenerationsGrow(s.activations)
    ensures GenerationsGrow(r.activations)
  {
    forall a, b | a in r.activations && b in r.activations && a < b && r.activations[a].deploymentId == r.activations[b].deploymentId
      ensures r.activations[a].activationGen < r.activations[b].activationGen
    {
      assert r.activations[a].deploymentId == s.activations[a].deploymentId;
      assert r.activations[b].deploymentId == s.activations[b].deploymentId;
    }
  }

  /** A move keeps the coupling when the moved deployment ends up coupled. */
  lemma LinkedMove(s: State, r: State, k: u64)
    requires Linked(s) && k in s.deployments && OnlyMoves(s, r, k)
    requires DeploymentOk(r, k)
    requires forall a :: a in r.activations && r.deployments[k].activation == Some(a) ==>
               r.activations[a].authority.activationGen == 0 || r.activations[a].authority.activationGen == r.activations[a].activationGen
    ensures Linked(r)
  {
    hide DeploymentOk, ActivationOk, GenerationsGrow;
    assert DeploymentOk(s, k);
    forall j | j in r.deployments ensures DeploymentOk(r, j) {
      if j != k {
        assert DeploymentOk(s, j);
        OthersUnmoved(s, r, k, j);
      }
    }
    forall a | a in r.activations ensures ActivationOk(r, a) {
      assert ActivationOk(s, a);
      OwnIsOwn(s, k, a);
      if s.deployments[k].activation != Some(a) {
        SoundAuthority(s, a);
      }
      ActivationMoved(s, r, k, a);
    }
    GenerationsKept(s, r, k);
  }

  lemma OwnIsOwn(s: State, k: u64, a: u64)
    requires k in s.deployments && DeploymentOk(s, k) && a in s.activations
    ensures s.deployments[k].activation == Some(a) ==> s.activations[a].deploymentId == k
  {
    hide Coupled, MayLackActivation;
  }

  lemma SoundAuthority(s: State, a: u64)
    requires a in s.activations && ActivationOk(s, a)
    ensures s.activations[a].authority.activationGen == 0 || s.activations[a].authority.activationGen == s.activations[a].activationGen
  {
  }

  // ---- moves of the engine ----

  lemma MovedWithMoves(s: State, k: u64, to: DeploymentState, mark: ActivationState)
    requires k in s.deployments
    ensures OnlyMoves(s, MovedWith(s, k, to, mark), k)
  {
  }

  lemma MovedWithOk(s: State, k: u64, to: DeploymentState, mark: ActivationState)
    requires k in s.deployments && DeploymentOk(s, k)
    requires !to.Active? && Coupled(to, mark)
    requires s.deployments[k].activation.None? ==> MayLackActivation(to)
    ensures DeploymentOk(MovedWith(s, k, to, mark), k)
  {
    hide Coupled, MayLackActivation;
  }

  lemma LinkedMovedWith(s: State, k: u64, to: DeploymentState, mark: ActivationState)
    requires Linked(s) && k in s.deployments
    requires !to.Active? && Coupled(to, mark)
    requires s.deployments[k].activation.None? ==> MayLackActivation(to)
    ensures Linked(MovedWith(s, k, to, mark))
  {
    hide DeploymentOk, ActivationOk, GenerationsGrow, Coupled, MayLackActivation, OnlyMoves;
    var r := MovedWith(s, k, to, mark);
    assert DeploymentOk(s, k);
    MovedWithMoves(s, k, to, mark);
    MovedWithOk(s, k, to, mark);
    forall a | a in r.activations && r.deployments[k].activation == Some(a)
      ensures r.activations[a].authority.activationGen == 0 || r.activations[a].authority.activationGen == r.activations[a].activationGen
    {
      assert ActivationOk(s, a);
      SoundAuthority(s, a);
    }
    LinkedMove(s, r, k);
  }

  lemma LinkedMoved(s: State, k: u64, to: DeploymentState)
    requires Linked(s) && k in s.deployments && !to.Active?
    requires s.deployments[k].activation.None? ==> MayLackActivation(to)
    requires s.deployments[k].activation.Some? && s.deployments[k].activation.value in s.activations ==>
               Coupled(to, s.activations[s.deployments[k].activation.value].state)
    ensures Linked(Moved(s, k, to))
  {
    hide ActivationOk, GenerationsGrow, Coupled, MayLackActivation;
    var r := Moved(s, k, to);
    assert DeploymentOk(s, k);
    assert OnlyMoves(s, r, k);
    assert DeploymentOk(r, k);
    forall a | a in r.activations && r.deployments[k].activation == Some(a)
      ensures r.activations[a].authority.activationGen == 0 || r.activations[a].authority.activationGen == r.activations[a].activationGen
    {
      assert ActivationOk(s, a);
      SoundAuthority(s, a);
    }
    LinkedMove(s, r, k);
  }

  lemma LinkedReleased(s: State, k: u64)
    requires Linked(s) && k in s.deployments
    ensures Linked(ReleaseResources(s, k))
  {
    hide Linked, ReleaseResources;
    ReleaseFrame(s, k);
    LinkedKept(s, ReleaseResources(s, k));
  }

  lemma LinkedAbandoned(s: State, k: u64, to: DeploymentState, mark: ActivationState)
    requires Linked(s) && k in s.deployments
    requires (to.Aborted? && mark.Cancelled?) || (to.Failed? && mark.Stale?) || (to.Retired? && mark.Retired?)
    ensures Linked(Abandoned(s, k, to, mark))
  {
    hide Linked, ReleaseResources, MovedWith;
    LinkedReleased(s, k);
    LinkedMovedWith(ReleaseResources(s, k), k, to, mark);
  }

  lemma LinkedFenceOne(s: State, k: u64, rule: FenceRule)
    requires Linked(s) && k in s.deployments
    ensures Linked(FenceOne(s, k, rule))
  {
    hide Linked, ReleaseResources, MovedWith;
    if Hits(rule, s.deployments[k]) {
      HitHasActivation(s, k, rule);
      LinkedMovedWith(s, k, DeploymentState.RevalidationRequired, ActivationState.Stale);
      LinkedReleased(MovedWith(s, k, DeploymentState.RevalidationRequired, ActivationState.Stale), k);
    }
  }

  lemma HitHasActivation(s: State, k: u64, rule: FenceRule)
    requires Linked(s) && k in s.deployments && Hits(rule, s.deployments[k])
    ensures s.deployments[k].activation.Some?
  {
    assert DeploymentOk(s, k);
  }

  lemma {:induction false} LinkedFenced(s: State, todo: set<u64>, rule: FenceRule)
    requires Linked(s) && todo <= s.deployments.Keys
    ensures Linked(FenceAll(s, todo, rule))
    decreases |todo|
  {
    hide Linked, FenceOne;
    if todo != {} {
      var k := Least(todo);
      LinkedFenceOne(s, k, rule);
      LinkedFenced(FenceOne(s, k, rule), todo - {k}, rule);
    }
  }

  /** A fence, after which devices keep their keys. */
  lemma LinkedFenceThen(s: State, rule: FenceRule, r: State)
    requires Linked(s)
    requires var f := Fence(s, rule); r.deployments == f.deployments && r.activations == f.activations
    requires s.devices.Keys <= r.devices.Keys && s.idSeq <= r.idSeq
    ensures Linked(r)
  {
    hide Linked, FenceAll;
    LinkedFenced(s, s.deployments.Keys, rule);
    FenceFrame(s, rule);
    LinkedKept(Fence(s, rule), r);
  }

  // ---- each deployment operation ----

  lemma LinkedTransition(s: State, k: u64, to: DeploymentState)
    requires Linked(s)
    requires to.Staging? || to.Loaded? || to.Validating?
    ensures Linked(DeployTransition(s, k, to).state)
  {
    if k in s.deployments && ValidDeploymentTransition(s.deployments[k].state, to) {
      assert DeploymentOk(s, k);
      hide Linked;
      LinkedMoved(s, k, to);
    }
  }

  lemma LinkedDrain(s: State, k: u64)
    requires Linked(s)
    ensures Linked(DrainDeployment(s, k).state)
  {
    if k in s.deployments {
      assert DeploymentOk(s, k);
      hide Linked, MovedWith;
      if DrainDeployment(s, k).result.Ok? {
        LinkedMovedWith(s, k, DeploymentState.Draining, ActivationState.Draining);
      }
    }
  }

  lemma LinkedRetire(s: State, k: u64)
    requires Linked(s)
    ensures Linked(RetireDeployment(s, k).state)
  {
    if k in s.deployments {
      assert DeploymentOk(s, k);
      hide Linked, Abandoned, Moved;
      if HoldsOnRetire(s.deployments[k].state) {
        LinkedAbandoned(s, k, DeploymentState.Retired, ActivationState.Retired);
      } else if s.deployments[k].state.Failed? || s.deployments[k].state.Aborted? {
        LinkedMoved(s, k, DeploymentState.Retired);
      }
    }
  }

  lemma LinkedAbandoning(s: State, op: Op)
    requires Linked(s)
    requires op.OpCancel? || op.OpRollback? || op.OpFail?
    ensures Linked(Apply(s, op))
  {
    hide Linked, Abandoned, Preparing, ValidDeploymentTransition;
    var k := op.deployment;
    if k in s.deployments {
      LinkedAbandoned(s, k, DeploymentState.Aborted, ActivationState.Cancelled);
      LinkedAbandoned(s, k, DeploymentState.Failed, ActivationState.Stale);
    }
  }

  lemma CommitMoves(s: State, k: u64)
    requires Linked(s) && CommitDeployment(s, k).result.Ok?
    ensures k in s.deployments
    ensures OnlyMoves(s, CommitDeployment(s, k).state, k)
    ensures DeploymentOk(CommitDeployment(s, k).state, k)
    ensures var r := CommitDeployment(s, k).state;
            forall a :: a in r.activations && r.deployments[k].activation == Some(a) ==>
              r.activations[a].authority.activationGen == r.activations[a].activationGen
  {
    hide ActivationOk, GenerationsGrow, DeviceRecord.ReadyForOffload;
    assert DeploymentOk(s, k);
  }

  lemma LinkedCommit(s: State, k: u64)
    requires Linked(s)
    ensures Linked(CommitDeployment(s, k).state)
  {
    hide Linked, OnlyMoves, DeploymentOk, CapturedAuthority, DeviceRecord.ReadyForOffload;
    if CommitDeployment(s, k).result.Ok? {
      CommitMoves(s, k);
      LinkedMove(s, CommitDeployment(s, k).state, k);
    }
  }

  // ---- new deployments and activations take fresh ids ----

  ghost predicate RoomForIds(s: State) {
    s.idSeq <= U64_MAX - 2
  }

  lemma NewIsOk(s: State, b: DeploymentBinding, r: State)
    requires b.deploymentId == s.idSeq && b.device in r.devices && 0 < s.idSeq < r.idSeq
    requires s.idSeq in r.deployments && r.deployments[s.idSeq] == NewDeployment(b)
    ensures DeploymentOk(r, s.idSeq)
  {
  }

  /** Everything already there keeps its coupling when deployment s.idSeq is added. */
  lemma LinkedWithNew(s: State, r: State, d: Deployment)
    requires Linked(s)
    requires r.deployments == s.deployments[s.idSeq := d] && r.activations == s.activations
    requires s.devices.Keys <= r.devices.Keys && s.idSeq <= r.idSeq
    requires DeploymentOk(r, s.idSeq)
    ensures Linked(r)
  {
    hide GenerationsGrow, Coupled, MayLackActivation;
    forall k | k in r.deployments ensures DeploymentOk(r, k) {
      if k != s.idSeq {
        assert DeploymentOk(s, k);
      }
    }
    forall a | a in r.activations ensures ActivationOk(r, a) {
      assert ActivationOk(s, a);
      assert DeploymentOk(s, s.activations[a].deploymentId);
    }
  }

  lemma LinkedReserve(s: State, req: OffloadRequest, selected: Option<u64>)
    requires Linked(s) && RoomForIds(s) && s.idSeq > 0
    ensures Linked(ReserveDeployment(s, req, selected).state)
  {
    hide Linked, ReserveDeployment, NewDeployment, DeploymentOk, RequestedResources, NewBinding, DeviceRecord.ReadyForOffload;
    ReserveFrame(s, req, selected);
    ReserveAdds(s, req, selected);
    var o := ReserveDeployment(s, req, selected);
    if o.result.Ok? {
      var b := NewBinding(s, req, selected.value);
      NewIsOk(s, b, o.state);
      LinkedWithNew(s, o.state, NewDeployment(b));
    } else {
      LinkedKept(s, o.state);
    }
  }

  function ActivatedDeployment(s: State, d: Deployment): Deployment {
    d.(state := DeploymentState.Activating, authoritative := false, activation := Some(s.idSeq),
       activationGen := NextGeneration(d.activationGen))
  }

  function NewActivation(s: State, k: u64, d: Deployment): ActivationRecord {
    ActivationRecord(s.idSeq, NextGeneration(d.activationGen), k, d.binding.generation, NO_AUTHORITY, ActivationState.Pending)
  }

  /** The effect of a successful activation of deployment k. */
  ghost predicate Activates(s: State, r: State, k: u64) {
    && k in s.deployments && s.deployments[k].state.Validating?
    && r.deployments == s.deployments[k := ActivatedDeployment(s, s.deployments[k])]
    && r.activations == s.activations[s.idSeq := NewActivation(s, k, s.deployments[k])]
    && r.devices == s.devices && r.idSeq == s.idSeq + 1
  }

  lemma ActivationEffect(s: State, k: u64)
    requires RoomForIds(s)
    ensures var o := ActivateDeployment(s, k);
            if o.result.Ok? then Activates(s, o.state, k) else o.state == s
  {
  }

  lemma ActivatedOk(s: State, r: State, k: u64)
    requires Linked(s) && RoomForIds(s) && s.idSeq > 0 && Activates(s, r, k)
    ensures DeploymentOk(r, k) && ActivationOk(r, s.idSeq)
  {
    assert DeploymentOk(s, k);
    hide Linked;
  }

  lemma ActivationKeepsOthers(s: State, r: State, k: u64, j: u64)
    requires Linked(s) && RoomForIds(s) && Activates(s, r, k) && j in s.deployments && j != k
    ensures DeploymentOk(r, j)
  {
    assert DeploymentOk(s, j);
    if s.deployments[j].activation.Some? {
      assert ActivationOk(s, s.deployments[j].activation.value);
    }
    hide Linked, Coupled, MayLackActivation;
  }

  lemma ActivationKeepsActivations(s: State, r: State, k: u64, a: u64)
    requires Linked(s) && RoomForIds(s) && Activates(s, r, k) && a in s.activations
    ensures ActivationOk(r, a)
  {
    assert ActivationOk(s, a) && DeploymentOk(s, k);
    hide Linked;
  }

  lemma LinkedActivate(s: State, k: u64)
    requires Linked(s) && RoomForIds(s) && s.idSeq > 0
    ensures Linked(ActivateDeployment(s, k).state)
  {
    hide ActivateDeployment, DeploymentOk, ActivationOk, Linked, GenerationsGrow;
    ActivationEffect(s, k);
    var r := ActivateDeployment(s, k).state;
    if ActivateDeployment(s, k).result.Ok? {
      ActivatedLinked(s, r, k);
    }
  }

  lemma ActivatedLinked(s: State, r: State, k: u64)
    requires Linked(s) && RoomForIds(s) && s.idSeq > 0 && Activates(s, r, k)
    ensures Linked(r)
  {
    hide DeploymentOk, ActivationOk, GenerationsGrow;
    ActivatedOk(s, r, k);
    forall j | j in r.deployments ensures DeploymentOk(r, j) {
      if j != k {
        ActivationKeepsOthers(s, r, k, j);
      }
    }
    forall a | a in r.activations ensures ActivationOk(r, a) {
      if a != s.idSeq {
        ActivationKeepsActivations(s, r, k, a);
      }
    }
    ActivatedGrow(s, r, k);
  }

  lemma ActivatedGrow(s: State, r: State, k: u64)
    requires Linked(s) && RoomForIds(s) && Activates(s, r, k)
    ensures GenerationsGrow(r.activations)
  {
    assert DeploymentOk(s, k);
    forall a, b | a in r.activations && b in r.activations && a < b && r.activations[a].deploymentId == r.activations[b].deploymentId
      ensures r.activations[a].activationGen < r.activations[b].activationGen
    {
      if a in s.activations {
        assert ActivationOk(s, a);
      }
      if b in s.activations {
        assert ActivationOk(s, b);
      }
    }
  }

  // ---- runs ----

  lemma LinkedRetireDevice(s: State, id: u64)
    requires Linked(s)
    ensures Linked(RetireDevice(s, id).state)
  {
    hide Linked, Fence, DeviceRecord.WithStatus;
    if id in s.devices {
      FenceFrame(s, DeviceRetired(id));
      LinkedFenceThen(s, DeviceRetired(id), RetireDevice(s, id).state);
    }
  }

  lemma LinkedTransitionDevice(s: State, id: u64, to: DeviceLifecycle)
    requires Linked(s)
    ensures Linked(TransitionDevice(s, id, to).state)
  {
    hide Linked, Fence, ValidDeviceTransition, Invalidates, DeviceRecord.WithStatus;
    if id in s.devices && ValidDeviceTransition(s.devices[id].status.lifecycle, to) {
      if Invalidates(to) {
        FenceFrame(s, DeviceFenced(id));
        LinkedFenceThen(s, DeviceFenced(id), TransitionDevice(s, id, to).state);
      } else {
        LinkedKept(s, TransitionDevice(s, id, to).state);
      }
    }
  }

  lemma LinkedFenceDevice(s: State, id: u64, reason: Str)
    requires Linked(s)
    ensures Linked(FenceDevice(s, id, reason).state)
  {
    hide Linked, Fence, FencedRecord;
    if id in s.devices {
      FenceFrame(s, DeviceFenced(id));
      LinkedFenceThen(s, DeviceFenced(id), FenceDevice(s, id, reason).state);
    }
  }

  lemma LinkedRegisterDevice(s: State, rec: DeviceRecord)
    requires Linked(s)
    ensures Linked(RegisterDevice(s, rec).state)
  {
    hide Linked;
    RegisterFrame(s, rec);
    LinkedKept(s, RegisterDevice(s, rec).state);
  }

  lemma LinkedUpdateDevice(s: State, rec: DeviceRecord)
    requires Linked(s)
    ensures Linked(UpdateDevice(s, rec).state)
  {
    hide Linked;
    UpdateFrame(s, rec);
    LinkedKept(s, UpdateDevice(s, rec).state);
  }

  lemma LinkedSetDeviceState(s: State, id: u64, state: CapabilityState, key: Str)
    requires Linked(s)
    ensures Linked(SetDeviceState(s, id, state, key).state)
  {
    hide Linked;
    SetStateFrame(s, id, state, key);
    LinkedKept(s, SetDeviceState(s, id, state, key).state);
  }

  lemma LinkedLost(s: State, worker: u64)
    requires Linked(s)
    ensures Linked(MarkWorkerLost(s, worker).state)
  {
    hide Linked, Fence, LostDevice;
    var lost := s.(devices := LostDevices(s.devices, worker));
    LinkedKept(s, lost);
    if worker in s.workers {
      FenceFrame(lost, WorkerLost(s.workers[worker]));
      LinkedFenceThen(lost, WorkerLost(s.workers[worker]), MarkWorkerLost(s, worker).state);
    }
  }

  lemma LinkedRecovered(s: State, p: RecoveryPolicy)
    requires Linked(s)
    ensures Linked(ApplyRecovery(s, p).state)
  {
    hide Linked, Fence, RecoveredDevice;
    var fenced := s.(devices := RecoveredDevices(s.devices, p));
    LinkedKept(s, fenced);
    FenceFrame(fenced, CoordinatorRecovered);
    LinkedFenceThen(fenced, CoordinatorRecovered, ApplyRecovery(s, p).state);
  }

  lemma LinkedCatalogOps(s: State, op: Op)
    requires Linked(s) && CatalogOp(op)
    ensures Linked(Apply(s, op))
  {
    hide Linked, CatalogOp, Apply;
    CatalogFrame(s, op);
    LinkedKept(s, Apply(s, op));
  }

  lemma LinkedStep(s: State, op: Op)
    requires Linked(s) && RoomForIds(s) && s.idSeq > 0
    ensures Linked(Apply(s, op))
  {
    hide Linked, RegisterDevice, UpdateDevice, RetireDevice, TransitionDevice, SetDeviceState, FenceDevice,
         RegisterService, RegisterProgram, RetireProgram, RegisterWorker, WorkerHeartbeat, MarkWorkerLost,
         ReserveDeployment, DeployTransition, ActivateDeployment, CommitDeployment, CancelDeployment,
         RollbackDeployment, DrainDeployment, RetireDeployment, FailDeployment, AdvanceEpoch, ApplyRecovery;
    match op {
      case OpReserve(req, selected) => LinkedReserve(s, req, selected);
      case OpStage(k) => LinkedTransition(s, k, DeploymentState.Staging);
      case OpLoad(k) => LinkedTransition(s, k, DeploymentState.Loaded);
      case OpValidate(k) => LinkedTransition(s, k, DeploymentState.Validating);
      case OpActivate(k) => LinkedActivate(s, k);
      case OpCommit(k) => LinkedCommit(s, k);
      case OpCancel(_) | OpRollback(_) | OpFail(_) => LinkedAbandoning(s, op);
      case OpDrain(k) => LinkedDrain(s, k);
      case OpRetire(k) => LinkedRetire(s, k);
      case OpRegisterService(_) | OpRegisterProgram(_) | OpRetireProgram(_) | OpRegisterWorker(_, _)
         | OpWorkerHeartbeat(_, _) | OpAdvanceEpoch => LinkedCatalogOps(s, op);
      case OpRegisterDevice(rec) => LinkedRegisterDevice(s, rec);
      case OpUpdateDevice(rec) => LinkedUpdateDevice(s, rec);
      case OpSetDeviceState(id, state, key) => LinkedSetDeviceState(s, id, state, key);
      case OpRetireDevice(id) => LinkedRetireDevice(s, id);
      case OpTransitionDevice(id, to) => LinkedTransitionDevice(s, id, to);
      case OpFenceDevice(id, reason) => LinkedFenceDevice(s, id, reason);
      case OpMarkWorkerLost(w) => LinkedLost(s, w);
      case OpApplyRecovery(p) => LinkedRecovered(s, p);
    }
  }

  /** Each call draws at most two ids, so this many calls never wrap the counter. */
  const MAX_CALLS := 0x7FFF_FFFF_FFFF_FFF0

  lemma IdsStep(s: State, op: Op)
    requires RoomForIds(s) && s.idSeq > 0
    ensures s.idSeq <= Apply(s, op).idSeq <= s.idSeq + 2
  {
    hide RegisterDevice, UpdateDevice, RetireDevice, TransitionDevice, SetDeviceState, FenceDevice, RegisterService,
         RegisterProgram, RetireProgram, RegisterWorker, WorkerHeartbeat, MarkWorkerLost, ReserveDeployment,
         DeployTransition, ActivateDeployment, CommitDeployment, CancelDeployment, RollbackDeployment,
         DrainDeployment, RetireDeployment, FailDeployment, AdvanceEpoch, ApplyRecovery;
    match op {
      case OpReserve(req, selected) => ReserveAdds(s, req, selected);
      case OpActivate(k) => ActivationEffect(s, k);
      case _ => IdsUntouched(s, op);
    }
  }

  /** After any run of calls on a fresh engine the tables are coupled, and ids have not run out. */
  lemma {:induction false} LinkedOnEveryRun(epoch: u64, policy: Policy, ops: seq<Op>)
    requires |ops| <= MAX_CALLS
    ensures Linked(Run(Fresh(epoch, policy), ops))
    ensures 0 < Run(Fresh(epoch, policy), ops).idSeq <= 1 + 2 * |ops|
  {
    if ops == [] {
      assert Linked(Fresh(epoch, policy));
    } else {
      hide Linked;
      var before := ops[..|ops| - 1];
      LinkedOnEveryRun(epoch, policy, before);
      LinkedStep(Run(Fresh(epoch, policy), before), ops[|ops| - 1]);
      IdsStep(Run(Fresh(epoch, policy), before), ops[|ops| - 1]);
    }
  }
}
