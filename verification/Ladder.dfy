/** A reservation that is carried up the whole ladder ends in service, with a token that is current. */
module Ladder {
  import opened Base
  import opened Resource
  import opened Records
  import opened Coordinator
  import opened Fencing
  import opened Authority
  import Coupling
  import Lifecycle

  /** Deployment d, moved. */
  function At(d: Deployment, to: DeploymentState): Deployment {
    d.(state := to, authoritative := false)
  }

  lemma Climbs(s: State, k: u64, to: DeploymentState)
    requires k in s.deployments && ValidDeploymentTransition(s.deployments[k].state, to)
    ensures DeployTransition(s, k, to).result.Ok?
    ensures DeployTransition(s, k, to).state == s.(deployments := s.deployments[k := At(s.deployments[k], to)])
  {
  }

  /** The state after staging, loading and validating deployment k, one after the other. */
  function Prepared(s: State, k: u64): State {
    DeployTransition(DeployTransition(DeployTransition(s, k, DeploymentState.Staging).state, k,
                                      DeploymentState.Loaded).state, k, DeploymentState.Validating).state
  }

  lemma PreparedIs(s: State, k: u64)
    requires k in s.deployments && s.deployments[k].state.Reserved?
    ensures Prepared(s, k) == s.(deployments := s.deployments[k := At(s.deployments[k], DeploymentState.Validating)])
  {
    hide DeployTransition;
    Climbs(s, k, DeploymentState.Staging);
    var s1 := DeployTransition(s, k, DeploymentState.Staging).state;
    Climbs(s1, k, DeploymentState.Loaded);
    var s2 := DeployTransition(s1, k, DeploymentState.Loaded).state;
    Climbs(s2, k, DeploymentState.Validating);
    Overwritten(s.deployments, k, At(s.deployments[k], DeploymentState.Staging), At(s.deployments[k], DeploymentState.Loaded));
    Overwritten(s.deployments, k, At(s.deployments[k], DeploymentState.Loaded), At(s.deployments[k], DeploymentState.Validating));
  }

  lemma Overwritten(m: map<u64, Deployment>, k: u64, a: Deployment, b: Deployment)
    ensures m[k := a][k := b] == m[k := b]
  {
  }

  /** What committing decides by: the device is ready and the program, if any, is current. */
  predicate Committable(s: State, d: Deployment) {
    && d.binding.device in s.devices && s.devices[d.binding.device].ReadyForOffload()
    && (d.binding.program != 0 ==>
          d.binding.program in s.currentProgramGen && s.currentProgramGen[d.binding.program] == d.binding.programGen)
  }

  lemma CommitsExactly(s: State, k: u64)
    requires k in s.deployments && s.deployments[k].state.Activating?
    requires s.deployments[k].activation.Some? && s.deployments[k].activation.value in s.activations
    ensures CommitDeployment(s, k).result.Ok? <==> Committable(s, s.deployments[k])
  {
    hide DeviceRecord.ReadyForOffload, CapturedAuthority;
  }

  /** The context agrees with a token captured under the tables the deployment is bound to. */
  lemma FreshTokenIsCurrent(s: State, k: u64)
    requires CommitDeployment(s, k).result.Ok? && k in s.deployments && s.deployments[k].binding.device in s.devices
    requires var b, dev := s.deployments[k].binding, s.devices[s.deployments[k].binding.device];
             && b.deviceGen == dev.identity.generation && b.deviceBoot == dev.identity.bootId
             && b.serviceGen == ServiceGenOf(s, b.service) && b.programGen == CurrentGen(s, b.program)
    ensures var r := CommitDeployment(s, k).state;
            && k in r.deployments && r.deployments[k].state.Active? && r.deployments[k].authoritative
            && r.deployments[k].activation.Some? && r.deployments[k].activation.value in r.activations
            && r.deployments[k].binding.device in r.devices
            && r.activations[r.deployments[k].activation.value].authority.IsCurrent(ContextOf(r, k))
  {
    hide CommitDeployment, DeviceRecord.ReadyForOffload;
    Lifecycle.CommitEffect(s, k);
    CommitFrame(s, k);
  }

  lemma BindsToTables(s: State, req: OffloadRequest, device: u64)
    requires device in s.devices && (req.service.Some? ==> req.service.value in s.services)
    requires 0 !in s.services && 0 !in s.currentProgramGen
    ensures var b, dev := NewBinding(s, req, device), s.devices[device];
            && b.deviceGen == dev.identity.generation && b.deviceBoot == dev.identity.bootId
            && b.serviceGen == ServiceGenOf(s, b.service) && b.programGen == CurrentGen(s, b.program)
            && b.tenant == req.tenant && b.isolationDomain == req.isolationDomain
            && b.service == (if req.service.Some? then req.service.value else 0)
            && (req.requiredProgram.Some? ==> b.program == req.requiredProgram.value)
            && (req.requiredProgram.None? && req.service.Some? ==> b.program == s.services[req.service.value].requiredProgram)
  {
    hide RequestedResources;
  }

  /** Reserve, stage, load, validate, activate and commit, with no call in between: every step succeeds, and
      the commit does exactly when the program, if one is wanted, has a current generation; then the
      deployment is in service and its token is current. */
  lemma LadderEndsInService(s: State, req: OffloadRequest, selected: Option<u64>)
    requires ReserveDeployment(s, req, selected).result.Ok? && s.idSeq <= U64_MAX - 4
    requires 0 !in s.services && 0 !in s.currentProgramGen
    ensures var k := s.idSeq;
            var ready := Prepared(ReserveDeployment(s, req, selected).state, k);
            var activated := ActivateDeployment(ready, k);
            var committed := CommitDeployment(activated.state, k);
            && selected.Some? && selected.value in s.devices && (req.service.Some? ==> req.service.value in s.services)
            && activated.result.Ok?
            && var program := NewBinding(s, req, selected.value).program;
               && (committed.result.Ok? <==> program == 0 || program in s.currentProgramGen)
               && (committed.result.Ok? ==>
                     && var r := committed.state;
                     && k in r.deployments && r.deployments[k].state.Active?
                     && r.deployments[k].activation.Some? && r.deployments[k].activation.value in r.activations
                     && r.deployments[k].binding.device in r.devices
                     && r.activations[r.deployments[k].activation.value].authority.IsCurrent(ContextOf(r, k)))
  {
    hide ReserveDeployment, Prepared, ActivateDeployment, CommitDeployment, NewBinding, DeviceRecord.ReadyForOffload,
         ContextOf, ActivationAuthority.IsCurrent, Committable, CurrentGen, ServiceGenOf, NewDeployment, Applied, Admits;
    ReserveEffect(s, req, selected);
    var k, b := s.idSeq, NewBinding(s, req, selected.value);
    BindsToTables(s, req, selected.value);
    NewlyReserved(b);
    var r0 := ReserveDeployment(s, req, selected).state;
    PreparedIs(r0, k);
    var r1 := Prepared(r0, k);
    Coupling.ActivationEffect(r1, k);
    ActivatesValidated(r1, k);
    var r2 := ActivateDeployment(r1, k).state;
    ActivateFrame(r1, k);
    CommitsExactly(r2, k);
    CommittableMeans(s, r2, b, r2.deployments[k]);
    SameGens(s, r2, b);
    if CommitDeployment(r2, k).result.Ok? {
      FreshTokenIsCurrent(r2, k);
    }
  }

  lemma NewlyReserved(b: DeploymentBinding)
    ensures NewDeployment(b).state.Reserved? && NewDeployment(b).binding == b
  {
  }

  lemma ActivatesValidated(s: State, k: u64)
    requires k in s.deployments && s.deployments[k].state.Validating?
    ensures ActivateDeployment(s, k).result.Ok?
  {
  }

  lemma CommittableMeans(s: State, r: State, b: DeploymentBinding, d: Deployment)
    requires d.binding == b && b.device in s.devices && s.devices[b.device].ReadyForOffload()
    requires r.devices == s.devices && r.currentProgramGen == s.currentProgramGen
    requires b.programGen == CurrentGen(s, b.program)
    ensures Committable(r, d) <==> b.program == 0 || b.program in s.currentProgramGen
  {
    hide DeviceRecord.ReadyForOffload;
  }

  lemma SameGens(s: State, r: State, b: DeploymentBinding)
    requires r.services == s.services && r.currentProgramGen == s.currentProgramGen
    ensures ServiceGenOf(r, b.service) == ServiceGenOf(s, b.service) && CurrentGen(r, b.program) == CurrentGen(s, b.program)
  {
  }
}
