/** How deployments move: along the transition table, and into service only by the whole ladder. */
module Lifecycle {
  import opened Base
  import opened Resource
  import opened Records
  import opened Coordinator
  import opened Fencing
  import opened Coupling

  /** The edges of the transition table that some call takes. */
  predicate EngineEdge(from: DeploymentState, to: DeploymentState) {
    match to
    case Planned | Reserved | Degraded => false
    case Staging => from.Reserved? || from.Loaded?
    case Loaded => from.Staging? || from.Validating?
    case Validating => from.Loaded? || from.RevalidationRequired?
    case Activating => from.Validating?
    case Active => from.Activating?
    case RevalidationRequired => from.Active? || from.Degraded? || from.Draining?
    case Draining => from.Active? || from.Degraded? || from.RevalidationRequired?
    case Failed => !from.Failed? && !from.Aborted? && !from.Retired?
    case Aborted => from.Planned? || Preparing(from) || from.Failed?
    case Retired => HoldsOnRetire(from) || from.Failed? || from.Aborted?
  }

  /** The engine moves deployments only where the table allows it, although most calls never consult it. */
  lemma EdgesAreValid(from: DeploymentState, to: DeploymentState)
    requires EngineEdge(from, to)
    ensures ValidDeploymentTransition(from, to) && from != to
  {
  }

  // ---- one call, one deployment ----

  predicate Shifts(d: Deployment, e: Deployment) {
    e == d.(state := e.state, authoritative := false) && EngineEdge(d.state, e.state) && !e.state.Active?
  }

  predicate Activates(d: Deployment, e: Deployment) {
    && d.state.Validating?
    && e == d.(state := DeploymentState.Activating, authoritative := false, activation := e.activation,
               activationGen := NextGeneration(d.activationGen))
  }

  predicate Commits(d: Deployment, e: Deployment) {
    d.state.Activating? && e == d.(state := DeploymentState.Active, authoritative := true, epoch := e.epoch)
  }

  /** What a call other than commit_deployment may make of deployment d. */
  predicate Quiet(d: Deployment, e: Deployment) {
    e == d || Shifts(d, e) || Activates(d, e)
  }

  /** What one call may make of deployment d. */
  predicate Steps(d: Deployment, e: Deployment) {
    Quiet(d, e) || Commits(d, e)
  }

  lemma FenceSteps(rule: FenceRule, d: Deployment)
    ensures Quiet(d, AfterFence(rule, d))
  {
  }

  lemma TransitionSteps(s: State, j: u64, to: DeploymentState, k: u64)
    requires k in s.deployments && (to.Staging? || to.Loaded? || to.Validating?)
    ensures var r := DeployTransition(s, j, to).state;
            r.deployments.Keys == s.deployments.Keys && Quiet(s.deployments[k], r.deployments[k])
  {
  }

  lemma ActivateSteps(s: State, j: u64, k: u64)
    requires k in s.deployments
    ensures var r := ActivateDeployment(s, j).state;
            r.deployments.Keys == s.deployments.Keys && Quiet(s.deployments[k], r.deployments[k])
  {
  }

  /** Committing puts deployment j into service, on a device that is ready, or changes nothing. */
  lemma CommitEffect(s: State, j: u64)
    ensures var o := CommitDeployment(s, j);
            && (o.result.Err? ==> o.state == s)
            && (o.result.Ok? ==>
                  && j in s.deployments && s.deployments[j].state.Activating?
                  && var d := s.deployments[j];
                     && d.binding.device in s.devices && s.devices[d.binding.device].ReadyForOffload()
                     && (d.binding.program != 0 ==> CurrentGen(s, d.binding.program) == d.binding.programGen)
                     && d.activation.Some? && d.activation.value in s.activations
                     && o.state.deployments ==
                        s.deployments[j := d.(state := DeploymentState.Active, authoritative := true, epoch := s.epoch)]
                     && o.state.activations ==
                        s.activations[d.activation.value := s.activations[d.activation.value].(
                          authority := CapturedAuthority(s, d, s.devices[d.binding.device]), state := ActivationState.Active)])
  {
    hide CapturedAuthority, DeviceRecord.ReadyForOffload;
  }

  lemma CommitSteps(s: State, j: u64, k: u64)
    requires k in s.deployments
    ensures var o := CommitDeployment(s, j);
            && o.state.deployments.Keys == s.deployments.Keys
            && if o.result.Ok? && k == j then Commits(s.deployments[k], o.state.deployments[k])
               else o.state.deployments[k] == s.deployments[k]
  {
    hide CommitDeployment, CapturedAuthority, DeviceRecord.ReadyForOffload;
    CommitEffect(s, j);
  }

  lemma DrainSteps(s: State, j: u64, k: u64)
    requires k in s.deployments
    ensures var r := DrainDeployment(s, j).state;
            r.deployments.Keys == s.deployments.Keys && Quiet(s.deployments[k], r.deployments[k])
  {
    hide Marked;
  }

  lemma AbandonedAt(s: State, j: u64, to: DeploymentState, mark: ActivationState, k: u64)
    requires j in s.deployments && k in s.deployments
    ensures Abandoned(s, j, to, mark).deployments[k] ==
            if k == j then s.deployments[k].(state := to, authoritative := false) else s.deployments[k]
  {
    hide ReleaseResources, Marked;
    ReleaseFrame(s, j);
  }

  lemma EndingSteps(s: State, op: Op, k: u64)
    requires k in s.deployments && EndingOp(op)
    ensures Apply(s, op).deployments.Keys == s.deployments.Keys
    ensures Quiet(s.deployments[k], Apply(s, op).deployments[k])
  {
    hide Apply, Abandoned, Quiet, Releases;
    EndingEffect(s, op);
    NoChangeSteps(s.deployments[k]);
    var j := op.deployment;
    if j in s.deployments {
      AbandonedAt(s, j, EndState(op), EndMark(op), k);
      EndingShifts(op, s.deployments[k]);
    }
  }

  lemma NoChangeSteps(d: Deployment)
    ensures Quiet(d, d)
  {
  }

  lemma EndingShifts(op: Op, d: Deployment)
    requires EndingOp(op)
    ensures Releases(op, d.state) ==> Quiet(d, d.(state := EndState(op), authoritative := false))
    ensures d.state.Failed? || d.state.Aborted? ==> Quiet(d, d.(state := DeploymentState.Retired, authoritative := false))
  {
  }

  lemma ReserveSteps(s: State, req: OffloadRequest, selected: Option<u64>, k: u64)
    requires k in s.deployments && s.idSeq !in s.deployments
    ensures var r := ReserveDeployment(s, req, selected).state;
            k in r.deployments && r.deployments[k] == s.deployments[k]
  {
    hide ReserveDeployment, NewDeployment, NewBinding, DeviceRecord.ReadyForOffload;
    ReserveAdds(s, req, selected);
  }

  lemma RungSteps(s: State, op: Op, k: u64)
    requires k in s.deployments && RungOp(op) && !op.OpCommit?
    ensures Apply(s, op).deployments.Keys == s.deployments.Keys
    ensures Quiet(s.deployments[k], Apply(s, op).deployments[k])
  {
    hide Quiet, DeployTransition, ActivateDeployment, DrainDeployment;
    match op {
      case OpStage(j) => TransitionSteps(s, j, DeploymentState.Staging, k);
      case OpLoad(j) => TransitionSteps(s, j, DeploymentState.Loaded, k);
      case OpValidate(j) => TransitionSteps(s, j, DeploymentState.Validating, k);
      case OpActivate(j) => ActivateSteps(s, j, k);
      case OpDrain(j) => DrainSteps(s, j, k);
    }
  }

  lemma QuietStep(s: State, op: Op, k: u64)
    requires k in s.deployments && (op.OpReserve? ==> s.idSeq !in s.deployments) && !op.OpCommit?
    ensures k in Apply(s, op).deployments
    ensures Quiet(s.deployments[k], Apply(s, op).deployments[k])
  {
    hide Quiet, Apply, AfterFence, FenceOf;
    NoChangeSteps(s.deployments[k]);
    if DeviceOp(op) {
      DeviceOpAt(s, op, k);
      DeviceOpSteps(s, op, s.deployments[k]);
    } else if CatalogOp(op) {
      CatalogFrame(s, op);
    } else if EndingOp(op) {
      EndingSteps(s, op, k);
    } else if RungOp(op) {
      RungSteps(s, op, k);
    } else {
      ReserveSteps(s, op.req, op.selected, k);
      ApplyReserve(s, op);
    }
  }

  /** No call removes a deployment, changes what it is bound to, or moves it off the table's edges; only
      committing puts it into service. */
  lemma StepStep(s: State, op: Op, k: u64)
    requires k in s.deployments && (op.OpReserve? ==> s.idSeq !in s.deployments)
    ensures k in Apply(s, op).deployments
    ensures var d, e := s.deployments[k], Apply(s, op).deployments[k];
            if op.OpCommit? && op.deployment == k && CommitDeployment(s, k).result.Ok? then Commits(d, e) else Quiet(d, e)
  {
    if op.OpCommit? {
      hide CommitDeployment, Quiet, Commits;
      NoChangeSteps(s.deployments[k]);
      CommitSteps(s, op.deployment, k);
    } else {
      QuietStep(s, op, k);
    }
  }

  lemma ApplyReserve(s: State, op: Op)
    requires op.OpReserve?
    ensures Apply(s, op) == ReserveDeployment(s, op.req, op.selected).state
  {
  }

  lemma DeviceOpSteps(s: State, op: Op, d: Deployment)
    ensures Quiet(d, AfterDeviceOp(s, op, d))
  {
    hide FenceOf, AfterFence, Quiet;
    NoChangeSteps(d);
    if FenceOf(s, op).Some? {
      FenceSteps(FenceOf(s, op).value, d);
    }
  }

  /** Deployments appear only by reservation, in the state RESERVED and under the next id. */
  lemma NewcomersAreReserved(s: State, op: Op, k: u64)
    requires k !in s.deployments && k in Apply(s, op).deployments
    ensures op.OpReserve? && k == s.idSeq
    ensures var o := ReserveDeployment(s, op.req, op.selected);
            && o.result == Ok(k) && op.selected.Some? && op.selected.value in s.devices
            && (op.req.service.Some? ==> op.req.service.value in s.services)
            && Apply(s, op).deployments[k] == NewDeployment(NewBinding(s, op.req, op.selected.value))
  {
    hide Apply, NewDeployment, NewBinding, ReserveDeployment, DeviceRecord.ReadyForOffload;
    if DeviceOp(op) {
      DeviceOpKeys(s, op);
    } else if CatalogOp(op) {
      CatalogFrame(s, op);
    } else if EndingOp(op) {
      EndingKeys(s, op);
    } else if RungOp(op) {
      RungKeys(s, op);
    } else {
      ReserveAdds(s, op.req, op.selected);
      ApplyReserve(s, op);
    }
  }

  lemma EndingKeys(s: State, op: Op)
    requires EndingOp(op)
    ensures Apply(s, op).deployments.Keys == s.deployments.Keys
  {
    hide Apply, Abandoned, Releases;
    EndingEffect(s, op);
  }

  lemma RungKeys(s: State, op: Op)
    requires RungOp(op)
    ensures Apply(s, op).deployments.Keys == s.deployments.Keys
  {
    hide ValidDeploymentTransition, CapturedAuthority, DeviceRecord.ReadyForOffload;
  }

  // ---- histories ----

  /** The states deployment k has been in during a run, repetitions left out. */
  function History(s: State, ops: seq<Op>, k: u64): seq<DeploymentState> {
    var now := Run(s, ops).deployments;
    if ops == [] then if k in now then [now[k].state] else []
    else
      var before := History(s, ops[..|ops| - 1], k);
      if k !in now || (before != [] && before[|before| - 1] == now[k].state) then before
      else before + [now[k].state]
  }

  /** A walk along the engine's edges that starts with a reservation. */
  ghost predicate Walk(h: seq<DeploymentState>) {
    && (h != [] ==> h[0].Reserved?)
    && forall i :: 0 < i < |h| ==> EngineEdge(h[i - 1], h[i])
  }

  lemma WalkOn(h: seq<DeploymentState>, to: DeploymentState)
    requires Walk(h)
    requires if h == [] then to.Reserved? else EngineEdge(h[|h| - 1], to)
    ensures Walk(h + [to])
  {
    hide EngineEdge;
    var h' := h + [to];
    forall i | 0 < i < |h'| ensures EngineEdge(h'[i - 1], h'[i]) {
      if i < |h| {
        assert EngineEdge(h[i - 1], h[i]);
      }
    }
  }

  lemma StepsAreEdges(d: Deployment, e: Deployment)
    requires Steps(d, e)
    ensures e.binding == d.binding
    ensures e.state == d.state || EngineEdge(d.state, e.state)
  {
  }

  /** On every run from a fresh engine, each deployment walks the engine's edges from RESERVED. */
  lemma {:induction false} HistoryIsWalk(epoch: u64, policy: Policy, ops: seq<Op>, k: u64)
    requires |ops| <= MAX_CALLS
    ensures var h, now := History(Fresh(epoch, policy), ops, k), Run(Fresh(epoch, policy), ops).deployments;
            && Walk(h)
            && (k in now <==> h != [])
            && (k in now ==> h[|h| - 1] == now[k].state)
  {
    var s0 := Fresh(epoch, policy);
    if ops != [] {
      var before, op := ops[..|ops| - 1], ops[|ops| - 1];
      var s := Run(s0, before);
      HistoryIsWalk(epoch, policy, before, k);
      LinkedOnEveryRun(epoch, policy, before);
      NextIdIsFree(s);
      hide Apply, Walk, EngineEdge, Quiet, Commits;
      if k in s.deployments {
        StepStep(s, op, k);
        StepsAreEdges(s.deployments[k], Apply(s, op).deployments[k]);
        if Apply(s, op).deployments[k].state != s.deployments[k].state {
          WalkOn(History(s0, before, k), Apply(s, op).deployments[k].state);
        }
      } else if k in Apply(s, op).deployments {
        NewcomersAreReserved(s, op, k);
        WalkOn([], DeploymentState.Reserved);
        assert [] + [DeploymentState.Reserved] == [DeploymentState.Reserved];
      }
    }
  }

  lemma NextIdIsFree(s: State)
    requires Linked(s)
    ensures s.idSeq !in s.deployments
  {
    hide GenerationsGrow, ActivationOk;
    forall k | k in s.deployments ensures k != s.idSeq {
      assert DeploymentOk(s, k);
    }
  }

  predicate Ended(state: DeploymentState) {
    state.Failed? || state.Aborted? || state.Retired?
  }

  /** What was walked before position i. */
  ghost predicate Visited(h: seq<DeploymentState>, i: nat, state: DeploymentState)
    requires i <= |h|
  {
    exists j :: 0 <= j < i && h[j] == state
  }

  lemma {:induction false} EndedStaysEnded(h: seq<DeploymentState>, i: nat, j: nat)
    requires Walk(h) && i <= j < |h| && Ended(h[i])
    ensures Ended(h[j])
    ensures i < j ==> h[j].Aborted? || h[j].Retired?
  {
    if i < j {
      EndedStaysEnded(h, i, j - 1);
      assert EngineEdge(h[j - 1], h[j]);
    }
  }

  lemma VisitedOn(h: seq<DeploymentState>, i: nat)
    requires i < |h|
    ensures Visited(h, i + 1, h[i])
    ensures forall state :: Visited(h, i, state) ==> Visited(h, i + 1, state)
  {
  }

  lemma {:induction false} RungsBelow(h: seq<DeploymentState>, i: nat)
    requires Walk(h) && i < |h|
    ensures Visited(h, i + 1, DeploymentState.Reserved)
    ensures !h[i].Reserved? && !Ended(h[i]) ==> Visited(h, i + 1, DeploymentState.Staging)
    ensures !h[i].Reserved? && !h[i].Staging? && !Ended(h[i]) ==> Visited(h, i + 1, DeploymentState.Loaded)
  {
    assert h[0] == DeploymentState.Reserved;
    if i > 0 {
      RungsBelow(h, i - 1);
      assert EngineEdge(h[i - 1], h[i]);
      VisitedOn(h, i);
      if Ended(h[i - 1]) {
        EndedStaysEnded(h, i - 1, i);
      }
    }
  }

  /** Every entry into ACTIVE comes right after VALIDATING and ACTIVATING, and after RESERVED, STAGING and
      LOADED; whatever has failed, aborted or retired stays so; PLANNED and DEGRADED never occur. */
  lemma ActiveNeedsTheLadder(epoch: u64, policy: Policy, ops: seq<Op>, k: u64, i: nat)
    requires |ops| <= MAX_CALLS && i < |History(Fresh(epoch, policy), ops, k)|
    ensures var h := History(Fresh(epoch, policy), ops, k);
            && (h[i].Active? ==>
                  && 5 <= i && h[i - 1].Activating? && h[i - 2].Validating?
                  && Visited(h, i - 2, DeploymentState.Reserved) && Visited(h, i - 2, DeploymentState.Staging)
                  && Visited(h, i - 2, DeploymentState.Loaded))
            && (forall j :: i <= j < |h| && Ended(h[i]) ==> Ended(h[j]))
            && !h[i].Planned? && !h[i].Degraded?
            && (i > 0 ==> ValidDeploymentTransition(h[i - 1], h[i]))
  {
    var h := History(Fresh(epoch, policy), ops, k);
    HistoryIsWalk(epoch, policy, ops, k);
    forall j | i <= j < |h| && Ended(h[i]) ensures Ended(h[j]) {
      EndedStaysEnded(h, i, j);
    }
    hide History, ValidDeploymentTransition;
    if i > 0 {
      EdgesAreValid(h[i - 1], h[i]);
      if h[i].Active? {
        LadderBelow(h, i);
      }
    }
  }

  lemma RungsUp(a: DeploymentState, b: DeploymentState)
    requires EngineEdge(a, b)
    ensures b.Active? ==> a.Activating?
    ensures b.Activating? ==> a.Validating?
    ensures b.Validating? ==> a.Loaded? || a.RevalidationRequired?
  {
  }

  lemma StepBack(h: seq<DeploymentState>, i: nat)
    requires Walk(h) && i < |h| && !h[i].Reserved?
    ensures i > 0 && EngineEdge(h[i - 1], h[i])
  {
  }

  lemma ThreeBelow(h: seq<DeploymentState>, i: nat)
    requires i <= |h| && Visited(h, i, DeploymentState.Reserved) && Visited(h, i, DeploymentState.Staging)
    requires Visited(h, i, DeploymentState.Loaded)
    ensures 3 <= i
  {
    var a, b, c :| 0 <= a < i && h[a] == DeploymentState.Reserved && 0 <= b < i && h[b] == DeploymentState.Staging
                   && 0 <= c < i && h[c] == DeploymentState.Loaded;
  }

  lemma LadderBelow(h: seq<DeploymentState>, i: nat)
    requires Walk(h) && i < |h| && h[i].Active?
    ensures 5 <= i && h[i - 1].Activating? && h[i - 2].Validating?
    ensures Visited(h, i - 2, DeploymentState.Reserved) && Visited(h, i - 2, DeploymentState.Staging)
    ensures Visited(h, i - 2, DeploymentState.Loaded)
  {
    hide Walk, EngineEdge, Visited;
    StepBack(h, i);
    RungsUp(h[i - 1], h[i]);
    StepBack(h, i - 1);
    RungsUp(h[i - 2], h[i - 1]);
    StepBack(h, i - 2);
    RungsUp(h[i - 3], h[i - 2]);
    RungsBelow(h, i - 3);
    ThreeBelow(h, i - 2);
  }
}
