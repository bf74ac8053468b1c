/** Authority tokens: which are current, and that a superseded one never is again. */
module Authority {
  import opened Base
  import opened Resource
  import opened Records
  import opened Coordinator
  import opened Fencing
  import opened Coupling
  import Devices
  import Lifecycle

  // ---- one call, one activation record ----

  /** r has the records of acts, with at most their states changed. */
  ghost predicate RecordsKept(acts: map<u64, ActivationRecord>, r: map<u64, ActivationRecord>) {
    r.Keys == acts.Keys && forall a :: a in acts ==> r[a] == acts[a].(state := r[a].state)
  }

  lemma MarkedKept(acts: map<u64, ActivationRecord>, a: Option<u64>, to: ActivationState)
    ensures RecordsKept(acts, Marked(acts, a, to))
  {
  }

  lemma {:induction false} FencedKept(s: State, todo: set<u64>, rule: FenceRule)
    requires todo <= s.deployments.Keys
    ensures RecordsKept(s.activations, FenceAll(s, todo, rule).activations)
    decreases |todo|
  {
    hide FenceOne, Marked;
    if todo != {} {
      var k := Least(todo);
      FencedOneKept(s, k, rule);
      FencedKept(FenceOne(s, k, rule), todo - {k}, rule);
    }
  }

  lemma FencedOneKept(s: State, k: u64, rule: FenceRule)
    requires k in s.deployments
    ensures RecordsKept(s.activations, FenceOne(s, k, rule).activations)
  {
    hide Hits, Marked, ReleaseResources;
    MarkedKept(s.activations, s.deployments[k].activation, ActivationState.Stale);
    ReleaseFrame(MovedWith(s, k, DeploymentState.RevalidationRequired, ActivationState.Stale), k);
  }

  lemma DeviceOpKeepsRecords(s: State, op: Op)
    requires DeviceOp(op)
    ensures RecordsKept(s.activations, Apply(s, op).activations)
  {
    hide RegisterDevice, UpdateDevice, SetDeviceState, FenceAll, LostDevices, RecoveredDevices, ValidDeviceTransition,
         Invalidates, DeviceRecord.WithStatus, FencedRecord, RecordsKept;
    assert RecordsKept(s.activations, s.activations) by {
      MarkedKept(s.activations, None, ActivationState.Stale);
    }
    match op {
      case OpRegisterDevice(rec) => RegisterFrame(s, rec);
      case OpUpdateDevice(rec) => UpdateFrame(s, rec);
      case OpSetDeviceState(id, state, key) => SetStateFrame(s, id, state, key);
      case OpRetireDevice(id) => FencedKept(s, s.deployments.Keys, DeviceRetired(id));
      case OpTransitionDevice(id, _) => FencedKept(s, s.deployments.Keys, DeviceFenced(id));
      case OpFenceDevice(id, _) => FencedKept(s, s.deployments.Keys, DeviceFenced(id));
      case OpMarkWorkerLost(w) =>
        var lost := s.(devices := LostDevices(s.devices, w));
        if w in s.workers {
          FencedKept(lost, lost.deployments.Keys, WorkerLost(s.workers[w]));
        }
      case OpApplyRecovery(p) =>
        var fenced := s.(devices := RecoveredDevices(s.devices, p));
        FencedKept(fenced, fenced.deployments.Keys, CoordinatorRecovered);
    }
  }

  lemma EndingKeepsRecords(s: State, op: Op)
    requires EndingOp(op)
    ensures RecordsKept(s.activations, Apply(s, op).activations)
  {
    hide Apply, Marked, RecordsKept, ReleaseResources, Releases;
    assert Marked(s.activations, None, ActivationState.Stale) == s.activations by {
      MarkedNone(s.activations, ActivationState.Stale);
    }
    MarkedKept(s.activations, None, ActivationState.Stale);
    EndingEffect(s, op);
    var k := op.deployment;
    if k in s.deployments {
      ReleaseFrame(s, k);
      MarkedKept(s.activations, s.deployments[k].activation, EndMark(op));
    }
  }

  lemma MarkedNone(acts: map<u64, ActivationRecord>, to: ActivationState)
    ensures Marked(acts, None, to) == acts
  {
  }

  lemma QuietRungKeepsRecords(s: State, op: Op)
    requires op.OpStage? || op.OpLoad? || op.OpValidate? || op.OpDrain?
    ensures RecordsKept(s.activations, Apply(s, op).activations)
  {
    hide Marked, RecordsKept, ValidDeploymentTransition;
    MarkedNone(s.activations, ActivationState.Stale);
    MarkedKept(s.activations, None, ActivationState.Stale);
    var k := op.deployment;
    if k in s.deployments {
      MarkedKept(s.activations, s.deployments[k].activation, ActivationState.Draining);
    }
  }

  /** Activating adds at most one record, under the next id, that carries no token yet. */
  lemma ActivateAddsRecord(s: State, k: u64)
    ensures var r := ActivateDeployment(s, k).state.activations;
            r == s.activations || (r == s.activations[s.idSeq := r[s.idSeq]] && r[s.idSeq].authority == NO_AUTHORITY)
  {
    hide ValidDeploymentTransition;
  }

  /** Committing writes the token of the deployment's own activation, and no other record. */
  lemma CommitKeepsRecords(s: State, k: u64, a: u64)
    requires a in s.activations
    ensures var r := CommitDeployment(s, k).state.activations;
            && a in r && r[a] == s.activations[a].(state := r[a].state, authority := r[a].authority)
            && (r[a] == s.activations[a] || (k in s.deployments && s.deployments[k].activation == Some(a)))
  {
    hide CapturedAuthority, DeviceRecord.ReadyForOffload;
  }

  /** An activation record lasts for ever; its token is written only by committing the deployment that
      points to it. */
  lemma RecordStep(s: State, op: Op, a: u64)
    requires a in s.activations && s.idSeq !in s.activations
    ensures var r := Apply(s, op).activations;
            && a in r && r[a] == s.activations[a].(state := r[a].state, authority := r[a].authority)
            && (r[a].authority == s.activations[a].authority
                || (op.OpCommit? && op.deployment in s.deployments && s.deployments[op.deployment].activation == Some(a)))
  {
    if op.OpCommit? {
      hide CommitDeployment;
      CommitKeepsRecords(s, op.deployment, a);
    } else if op.OpActivate? {
      hide ActivateDeployment;
      ActivateAddsRecord(s, op.deployment);
    } else {
      OthersKeepRecords(s, op);
      hide Apply;
    }
  }

  lemma OthersKeepRecords(s: State, op: Op)
    requires !op.OpCommit? && !op.OpActivate?
    ensures RecordsKept(s.activations, Apply(s, op).activations)
  {
    hide Apply, RecordsKept;
    MarkedNone(s.activations, ActivationState.Stale);
    MarkedKept(s.activations, None, ActivationState.Stale);
    if DeviceOp(op) {
      DeviceOpKeepsRecords(s, op);
    } else if CatalogOp(op) {
      CatalogFrame(s, op);
    } else if EndingOp(op) {
      EndingKeepsRecords(s, op);
    } else if op.OpReserve? {
      ReserveAdds(s, op.req, op.selected);
      Lifecycle.ApplyReserve(s, op);
    } else {
      QuietRungKeepsRecords(s, op);
    }
  }

  // ---- the live context of a deployment ----

  function ServiceGenOf(s: State, service: u64): u64 {
    if service in s.services then s.services[service].serviceGen else 0
  }

  /** The context that the coordinator's tables give for deployment k right now. */
  function ContextOf(s: State, k: u64): AuthorityContext
    requires k in s.deployments && s.deployments[k].binding.device in s.devices
  {
    var d := s.deployments[k];
    var dev := s.devices[d.binding.device];
    AuthorityContext(s.epoch, d.workerBoot, 0, dev.identity.bootId, dev.identity.generation,
                     ServiceGenOf(s, d.binding.service), CurrentGen(s, d.binding.program), d.binding.generation,
                     d.activationGen, s.policy.generation, dev.status.evidenceGen)
  }

  // ---- superseded tokens ----

  /** Deployment d's step to e gives it no activation that it has already outgrown. */
  lemma NoReturn(s: State, r: State, k: u64, a: u64)
    requires k in s.deployments && a in s.activations && ActivationOk(s, a)
    requires Superseded(s, a) && s.activations[a].deploymentId == k
    requires k in r.deployments && a in r.activations && DeploymentOk(r, k)
    requires r.activations[a].activationGen == s.activations[a].activationGen
    requires Lifecycle.Steps(s.deployments[k], r.deployments[k])
    ensures r.deployments[k].activation != Some(a)
  {
    hide Coupled, MayLackActivation, Lifecycle.EngineEdge;
  }

  /** Committing writes no superseded record. */
  lemma NotCommitted(s: State, j: u64, a: u64)
    requires j in s.deployments && DeploymentOk(s, j) && Superseded(s, a)
    ensures s.deployments[j].activation != Some(a)
  {
    hide Coupled, MayLackActivation;
  }

  lemma SupersededStep(s: State, op: Op, a: u64)
    requires Linked(s) && Linked(Apply(s, op)) && Superseded(s, a)
    ensures var r := Apply(s, op);
            && Superseded(r, a) && r.activations[a].deploymentId == s.activations[a].deploymentId
            && r.activations[a].authority == s.activations[a].authority
  {
    var r, k := Apply(s, op), s.activations[a].deploymentId;
    hide Apply, DeploymentOk, ActivationOk, GenerationsGrow, Lifecycle.Quiet, Lifecycle.Commits;
    NextIsFree(s);
    RecordStep(s, op, a);
    Lifecycle.StepStep(s, op, k);
    assert ActivationOk(s, a) && DeploymentOk(r, k);
    NoReturn(s, r, k, a);
    if op.OpCommit? && op.deployment in s.deployments {
      assert DeploymentOk(s, op.deployment);
      NotCommitted(s, op.deployment, a);
    }
  }

  /** The deployment has outgrown every token it was superseded with. */
  lemma SupersededNotCurrent(s: State, a: u64)
    requires Linked(s) && Superseded(s, a)
    ensures var k := s.activations[a].deploymentId;
            && s.deployments[k].binding.device in s.devices
            && !s.activations[a].authority.IsCurrent(ContextOf(s, k))
  {
    hide GenerationsGrow, Coupled, MayLackActivation;
    assert ActivationOk(s, a) && DeploymentOk(s, s.activations[a].deploymentId);
  }

  lemma {:induction false} RunSplit(s: State, before: seq<Op>, after: seq<Op>)
    ensures Run(s, before + after) == Run(Run(s, before), after)
  {
    hide Apply;
    if after == [] {
      assert before + after == before;
    } else {
      var all := before + after;
      assert all[..|all| - 1] == before + after[..|after| - 1];
      RunSplit(s, before, after[..|after| - 1]);
    }
  }

  /** No token becomes current again: whatever calls follow, the token of a superseded activation stays
      what it was, and is not current in the live context of its deployment. */
  lemma {:induction false} SupersededForEver(epoch: u64, policy: Policy, before: seq<Op>, after: seq<Op>, a: u64)
    requires |before| + |after| <= MAX_CALLS
    requires Superseded(Run(Fresh(epoch, policy), before), a)
    ensures var s := Run(Fresh(epoch, policy), before);
            var r := Run(s, after);
            var k := s.activations[a].deploymentId;
            && Superseded(r, a) && r.activations[a].deploymentId == k && k in r.deployments
            && r.activations[a].authority == s.activations[a].authority
            && r.deployments[k].binding.device in r.devices
            && !s.activations[a].authority.IsCurrent(ContextOf(r, k))
    decreases |after|
  {
    var s := Run(Fresh(epoch, policy), before);
    RunSplit(Fresh(epoch, policy), before, after);
    LinkedOnEveryRun(epoch, policy, before + after);
    if after != [] {
      var most := after[..|after| - 1];
      SupersededForEver(epoch, policy, before, most, a);
      RunSplit(Fresh(epoch, policy), before, most);
      LinkedOnEveryRun(epoch, policy, before + most);
      hide Linked, Superseded, Apply, ContextOf, ActivationAuthority.IsCurrent;
      SupersededStep(Run(s, most), after[|after| - 1], a);
    }
    hide Linked, Apply, ContextOf, ActivationAuthority.IsCurrent;
    SupersededNotCurrent(Run(s, after), a);
  }

  /** All activations of one deployment carry distinct generations, and the deployment holds the largest. */
  lemma GenerationsOfOneDeployment(epoch: u64, policy: Policy, ops: seq<Op>, a: u64, b: u64)
    requires |ops| <= MAX_CALLS
    ensures var s := Run(Fresh(epoch, policy), ops);
            a in s.activations && b in s.activations && s.activations[a].deploymentId == s.activations[b].deploymentId ==>
              var d := s.activations[a].deploymentId;
              && d in s.deployments && s.activations[a].activationGen <= s.deployments[d].activationGen
              && (a != b ==> s.activations[a].activationGen != s.activations[b].activationGen)
              && (s.deployments[d].activation == Some(a) <==>
                  s.activations[a].activationGen == s.deployments[d].activationGen)
  {
    LinkedOnEveryRun(epoch, policy, ops);
    var s := Run(Fresh(epoch, policy), ops);
    hide Run, Coupled, MayLackActivation;
    if a in s.activations && b in s.activations && s.activations[a].deploymentId == s.activations[b].deploymentId {
      assert ActivationOk(s, a) && ActivationOk(s, b) && DeploymentOk(s, s.activations[a].deploymentId);
      assert a < b || b < a || a == b;
    }
  }

  /** What the states of a deployment and of the activation it points to say about each other. */
  lemma StatesAgree(epoch: u64, policy: Policy, ops: seq<Op>, k: u64)
    requires |ops| <= MAX_CALLS && k in Run(Fresh(epoch, policy), ops).deployments
    ensures var s := Run(Fresh(epoch, policy), ops);
            var d := s.deployments[k];
            && (d.authoritative <==> d.state.Active?)
            && (d.state.Activating? || d.state.Active? || d.state.Draining? || d.state.RevalidationRequired? ==> d.activation.Some?)
            && (d.activation.Some? ==>
                  && d.activation.value in s.activations
                  && var act := s.activations[d.activation.value];
                     && (act.state.Pending? <==> d.state.Activating?)
                     && (act.state.Active? <==> d.state.Active?)
                     && (act.state.Draining? <==> d.state.Draining?)
                     && (d.state.RevalidationRequired? ==> act.state.Stale?))
            && (forall a :: a in s.activations && s.activations[a].deploymentId == k && d.activation != Some(a) ==>
                  s.activations[a].state.Stale?)
  {
    LinkedOnEveryRun(epoch, policy, ops);
    var s := Run(Fresh(epoch, policy), ops);
    hide Run, GenerationsGrow;
    assert DeploymentOk(s, k);
    forall a | a in s.activations && s.activations[a].deploymentId == k && s.deployments[k].activation != Some(a)
      ensures s.activations[a].state.Stale?
    {
      assert ActivationOk(s, a);
    }
  }

  /** On every run from a fresh engine committing finds the activation it dereferences. */
  lemma CommitIsDefined(epoch: u64, policy: Policy, ops: seq<Op>, k: u64)
    requires |ops| <= MAX_CALLS
    ensures var s := Run(Fresh(epoch, policy), ops);
            var result := CommitDeployment(s, k).result;
            && result != Err(EMPTY_DEREFERENCE)
            && (result == Err(INVALID_STATE) <==> k in s.deployments && !s.deployments[k].state.Activating?)
  {
    LinkedOnEveryRun(epoch, policy, ops);
    var s := Run(Fresh(epoch, policy), ops);
    hide Run, GenerationsGrow, CapturedAuthority, DeviceRecord.ReadyForOffload, ActivationOk;
    if k in s.deployments {
      assert DeploymentOk(s, k);
    }
  }

  lemma NextIsFree(s: State)
    requires Linked(s)
    ensures s.idSeq !in s.activations && s.idSeq !in s.deployments
  {
    Lifecycle.NextIdIsFree(s);
    hide GenerationsGrow, DeploymentOk;
    forall a | a in s.activations ensures a != s.idSeq {
      assert ActivationOk(s, a);
    }
  }
}
