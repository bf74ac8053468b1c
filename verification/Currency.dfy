/** When exactly the token of a deployment in service is current. */
module Currency {
  import opened Base
  import opened Resource
  import opened Records
  import opened Coordinator
  import opened Fencing
  import opened Coupling
  import opened Authority
  import Devices
  import Lifecycle

  /** Deployment k is bound to its device and service as the tables know them. */
  ghost predicate Bound(s: State, k: u64)
    requires k in s.deployments
  {
    var b := s.deployments[k].binding;
    && b.device in s.devices
    && b.deviceGen == s.devices[b.device].identity.generation && b.deviceBoot == s.devices[b.device].identity.bootId
    && (b.service == 0 || b.service in s.services) && b.serviceGen == ServiceGenOf(s, b.service)
    && (b.program == 0 ==> b.programGen == 0)
  }

  /** A deployment in service holds the token that was captured when it was committed. */
  ghost predicate HoldsToken(s: State, k: u64)
    requires k in s.deployments && Bound(s, k)
  {
    var d := s.deployments[k];
    d.state.Active? ==>
      && d.activation.Some? && d.activation.value in s.activations
      && s.activations[d.activation.value].authority ==
         CapturedAuthority(s.(epoch := d.epoch), d, s.devices[d.binding.device])
  }

  ghost predicate Certified(s: State) {
    && 0 !in s.services && 0 !in s.currentProgramGen
    && forall k :: k in s.deployments ==> Bound(s, k) && HoldsToken(s, k)
  }

  lemma ServiceTable(s: State, def: ServiceDefinition)
    ensures var r, id := RegisterService(s, def).state, def.serviceId;
            && r.currentProgramGen == s.currentProgramGen && r.policy == s.policy
            && (r.services == s.services || (id != 0 && id !in s.services && r.services == s.services[id := def]))
  {
  }

  lemma ProgramTable(s: State, art: ProgramArtifact)
    ensures var r, id := RegisterProgram(s, art).state, art.programId;
            && r.services == s.services && r.policy == s.policy
            && (r.currentProgramGen == s.currentProgramGen
                || (id != 0 && r.currentProgramGen == s.currentProgramGen[id := art.programGen]))
  {
    hide GenerationsOf;
  }

  lemma RetireProgramTable(s: State, id: u64)
    ensures var r := RetireProgram(s, id).state;
            && r.services == s.services && r.policy == s.policy && r.programs == s.programs
            && forall p :: p in r.currentProgramGen ==> p in s.currentProgramGen && r.currentProgramGen[p] == s.currentProgramGen[p]
  {
  }

  lemma WorkerTables(s: State, worker: u64, boot: u64)
    ensures var r := RegisterWorker(s, worker, boot).state;
            && r.services == s.services && r.policy == s.policy && r.programs == s.programs
            && r.currentProgramGen == s.currentProgramGen
  {
  }

  lemma CatalogOpStep(s: State, op: Op)
    requires 0 !in s.services && 0 !in s.currentProgramGen && CatalogOp(op)
    ensures var r := Apply(s, op);
            && 0 !in r.services && 0 !in r.currentProgramGen && r.policy == s.policy
            && forall v :: v in s.services ==> v in r.services && r.services[v] == s.services[v]
  {
    hide RegisterService, RegisterProgram, RetireProgram, RegisterWorker;
    match op {
      case OpRegisterService(def) => ServiceTable(s, def);
      case OpRegisterProgram(art) => ProgramTable(s, art);
      case OpRetireProgram(id) => RetireProgramTable(s, id);
      case OpRegisterWorker(w, boot) => WorkerTables(s, w, boot);
      case OpWorkerHeartbeat(_, _) =>
      case OpAdvanceEpoch =>
    }
  }

  /** Services and the policy stay as registered, and no null key gets in. */
  lemma CatalogStep(s: State, op: Op)
    requires 0 !in s.services && 0 !in s.currentProgramGen
    ensures var r := Apply(s, op);
            && 0 !in r.services && 0 !in r.currentProgramGen && r.policy == s.policy
            && forall v :: v in s.services ==> v in r.services && r.services[v] == s.services[v]
  {
    hide Apply;
    if CatalogOp(op) {
      CatalogOpStep(s, op);
    } else {
      CatalogUntouched(s, op);
    }
  }

  lemma BoundStep(s: State, op: Op, k: u64)
    requires Linked(s) && Certified(s) && !op.OpUpdateDevice? && k in s.deployments
    ensures k in Apply(s, op).deployments && Bound(Apply(s, op), k)
    ensures Apply(s, op).deployments[k].binding == s.deployments[k].binding
  {
    hide Apply, Linked, Lifecycle.Quiet, Lifecycle.Commits, HoldsToken, CommitDeployment;
    var b := s.deployments[k].binding;
    assert Bound(s, k);
    NextIsFree(s);
    CatalogStep(s, op);
    Lifecycle.StepStep(s, op, k);
    Lifecycle.StepsAreEdges(s.deployments[k], Apply(s, op).deployments[k]);
    Devices.DeviceStep(s, op, b.device);
  }

  /** A new deployment is bound to the tables as they are. */
  lemma NewcomerBound(s: State, op: Op, k: u64)
    requires Certified(s) && k !in s.deployments && k in Apply(s, op).deployments
    ensures Bound(Apply(s, op), k) && !Apply(s, op).deployments[k].state.Active?
  {
    hide Apply, ReserveDeployment, DeviceRecord.ReadyForOffload, RequestedResources;
    Lifecycle.NewcomersAreReserved(s, op, k);
    CatalogStep(s, op);
    Devices.OtherOpsKeepDevices(s, op);
  }

  // ---- the token ----

  /** A captured token depends on nothing but the epoch, the policy's generation, the deployment and the
      device's evidence. */
  lemma CaptureDependsOn(s: State, r: State, d: Deployment, a: DeviceRecord, b: DeviceRecord)
    requires s.epoch == r.epoch && s.policy == r.policy && a.status.evidenceGen == b.status.evidenceGen
    ensures CapturedAuthority(s, d, a) == CapturedAuthority(r, d, b)
  {
  }

  lemma CommittedHolds(s: State, k: u64)
    requires CommitDeployment(s, k).result.Ok?
    ensures var r := CommitDeployment(s, k).state;
            k in r.deployments && Bound(r, k) ==> HoldsToken(r, k)
  {
    hide CommitDeployment, Bound, DeviceRecord.ReadyForOffload;
    Lifecycle.CommitEffect(s, k);
    CommitFrame(s, k);
  }

  /** The record that deployment k's token lives in is written by committing k only. */
  lemma RecordKept(s: State, op: Op, k: u64)
    requires Linked(s) && k in s.deployments && s.deployments[k].activation.Some?
    requires !(op == OpCommit(k) && CommitDeployment(s, k).result.Ok?)
    ensures var a := s.deployments[k].activation.value;
            && a in s.activations && a in Apply(s, op).activations
            && Apply(s, op).activations[a].authority == s.activations[a].authority
  {
    var a := s.deployments[k].activation.value;
    NextIsFree(s);
    hide Apply, CommitDeployment, Coupled, MayLackActivation, GenerationsGrow, ActivationOk, DeploymentOk;
    assert DeploymentOk(s, k);
    OwnRecord(s, k);
    RecordStep(s, op, a);
    if op.OpCommit? && op.deployment in s.deployments && s.deployments[op.deployment].activation == Some(a) {
      assert DeploymentOk(s, op.deployment);
      OwnRecord(s, op.deployment);
      Devices.ApplyCommit(s, op);
      Lifecycle.CommitEffect(s, k);
    }
  }

  lemma OwnRecord(s: State, k: u64)
    requires k in s.deployments && DeploymentOk(s, k) && s.deployments[k].activation.Some?
    ensures s.deployments[k].activation.value in s.activations
    ensures s.activations[s.deployments[k].activation.value].deploymentId == k
  {
    hide Coupled, MayLackActivation;
  }

  lemma TokenKept(s: State, op: Op, k: u64)
    requires Linked(s) && k in s.deployments && k in Apply(s, op).deployments && !op.OpUpdateDevice?
    requires Apply(s, op).deployments[k] == s.deployments[k] && Apply(s, op).policy == s.policy
    requires !(op == OpCommit(k) && CommitDeployment(s, k).result.Ok?)
    requires Bound(s, k) && HoldsToken(s, k) && Bound(Apply(s, op), k)
    ensures HoldsToken(Apply(s, op), k)
  {
    var r, d := Apply(s, op), s.deployments[k];
    if d.state.Active? {
      hide Apply, Linked, CommitDeployment, CapturedAuthority;
      RecordKept(s, op, k);
      Devices.DeviceStep(s, op, d.binding.device);
      CaptureDependsOn(s.(epoch := d.epoch), r.(epoch := d.epoch), d, s.devices[d.binding.device], r.devices[d.binding.device]);
    }
  }

  lemma TokenStep(s: State, op: Op, k: u64)
    requires Linked(s) && Certified(s) && !op.OpUpdateDevice? && k in s.deployments
    ensures k in Apply(s, op).deployments && Bound(Apply(s, op), k) && HoldsToken(Apply(s, op), k)
  {
    BoundStep(s, op, k);
    NextIsFree(s);
    CatalogStep(s, op);
    assert Bound(s, k) && HoldsToken(s, k);
    hide Apply, Linked, Certified, Bound, Lifecycle.Commits, Lifecycle.Quiet, CommitDeployment;
    if op == OpCommit(k) && CommitDeployment(s, k).result.Ok? {
      hide HoldsToken;
      Devices.ApplyCommit(s, op);
      CommittedHolds(s, k);
    } else if Apply(s, op).deployments[k].state.Active? {
      hide HoldsToken;
      Lifecycle.StepStep(s, op, k);
      Devices.QuietNotIntoService(s.deployments[k], Apply(s, op).deployments[k]);
      TokenKept(s, op, k);
    }
  }

  lemma CertifiedStep(s: State, op: Op)
    requires Linked(s) && Certified(s) && !op.OpUpdateDevice?
    ensures Certified(Apply(s, op))
  {
    hide Apply, Linked, Bound, HoldsToken;
    CatalogStep(s, op);
    forall k | k in Apply(s, op).deployments ensures Bound(Apply(s, op), k) && HoldsToken(Apply(s, op), k) {
      if k in s.deployments {
        TokenStep(s, op, k);
      } else {
        NewcomerBound(s, op, k);
        NotInService(Apply(s, op), k);
      }
    }
  }

  lemma NotInService(s: State, k: u64)
    requires k in s.deployments && Bound(s, k) && !s.deployments[k].state.Active?
    ensures HoldsToken(s, k)
  {
  }

  lemma {:induction false} CertifiedOnEveryRun(epoch: u64, policy: Policy, ops: seq<Op>)
    requires |ops| <= MAX_CALLS
    requires forall i :: 0 <= i < |ops| ==> !ops[i].OpUpdateDevice?
    ensures Certified(Run(Fresh(epoch, policy), ops))
  {
    if ops != [] {
      var most := ops[..|ops| - 1];
      CertifiedOnEveryRun(epoch, policy, most);
      LinkedOnEveryRun(epoch, policy, most);
      hide Apply, Certified, Linked;
      CertifiedStep(Run(Fresh(epoch, policy), most), ops[|ops| - 1]);
    }
  }

  /** Token currency is exact: on every run without update_device, the token of a deployment in service is
      current in its live context if and only if the epoch is still the token's and the program's current
      generation is still the deployment's. */
  lemma CurrencyIsExact(epoch: u64, policy: Policy, ops: seq<Op>, k: u64)
    requires |ops| <= MAX_CALLS
    requires forall i :: 0 <= i < |ops| ==> !ops[i].OpUpdateDevice?
    ensures var s := Run(Fresh(epoch, policy), ops);
            k in s.deployments && s.deployments[k].state.Active? ==>
              var d := s.deployments[k];
              && d.binding.device in s.devices && d.activation.Some? && d.activation.value in s.activations
              && var token := s.activations[d.activation.value].authority;
                 token.IsCurrent(ContextOf(s, k)) <==>
                   s.epoch == token.epoch && CurrentGen(s, d.binding.program) == d.binding.programGen
  {
    CertifiedOnEveryRun(epoch, policy, ops);
    var s := Run(Fresh(epoch, policy), ops);
    hide Run;
    if k in s.deployments {
      assert Bound(s, k) && HoldsToken(s, k);
      hide Certified;
    }
  }
}
