/** Services, programs, workers and the epoch: which generation is current, and what makes tokens and bindings stale. */
module Catalog {
  import opened Base
  import opened Resource
  import opened Records
  import opened Coordinator
  import opened Fencing
  import Authority
  import Coupling
  import Lifecycle
  import Recovery

  // ---- services and workers ----

  lemma RegistersService(s: State, def: ServiceDefinition)
    ensures var o, id := RegisterService(s, def), def.serviceId;
            && (o.result == Err(INVALID_ARGUMENT) <==> id == 0)
            && (o.result == Err(ALREADY_EXISTS) <==> id != 0 && id in s.services)
            && o.state == if o.result == Ok(id) then s.(services := s.services[id := def]) else s
  {
  }

  /** A worker is known under one boot at a time; registering the same boot again changes nothing. */
  lemma RegistersWorker(s: State, w: u64, boot: u64)
    ensures var o := RegisterWorker(s, w, boot);
            && (o.result == Err(INVALID_ARGUMENT) <==> w == 0 || boot == 0)
            && (o.result == Err(STALE_WORKER) <==> w != 0 && boot != 0 && w in s.workers && s.workers[w] != boot)
            && (o.result.Ok? ==> w in o.state.workers && o.state.workers[w] == boot)
            && o.state == s.(workers := o.state.workers)
            && (forall v :: v != w ==> (v in o.state.workers <==> v in s.workers))
            && (forall v :: v in s.workers ==> v in o.state.workers && o.state.workers[v] == s.workers[v])
  {
  }

  lemma Heartbeats(s: State, w: u64, boot: u64)
    ensures var o := WorkerHeartbeat(s, w, boot);
            && o.state == s && (o.result == Ok(()) <==> w in s.workers && s.workers[w] == boot)
            && (o.result.Err? ==> o.result.error == STALE_WORKER)
  {
  }

  // ---- programs ----

  /** A registered generation is filed under its program, and the later of it and the current one becomes current. */
  lemma RegistersProgram(s: State, art: ProgramArtifact)
    ensures var o, p, g := RegisterProgram(s, art), art.programId, art.programGen;
            && (o.result.Err? <==> p == 0 || g == 0) && (o.result.Err? ==> o.result.error == INVALID_ARGUMENT && o.state == s)
            && (o.result.Ok? ==>
                  && o.result.value == p && p in o.state.programs && p in o.state.currentProgramGen
                  && o.state == s.(programs := o.state.programs, currentProgramGen := o.state.currentProgramGen)
                  && (forall h :: h in o.state.programs[p] <==> h == g || (p in s.programs && h in s.programs[p]))
                  && (forall h :: h in o.state.programs[p] ==>
                        o.state.programs[p][h] == if h == g then art else s.programs[p][h])
                  && (forall q :: q != p ==>
                        && (q in o.state.programs <==> q in s.programs)
                        && (q in s.programs ==> o.state.programs[q] == s.programs[q])
                        && (q in o.state.currentProgramGen <==> q in s.currentProgramGen)
                        && (q in s.currentProgramGen ==> o.state.currentProgramGen[q] == s.currentProgramGen[q]))
                  && var now := o.state.currentProgramGen[p];
                     && g <= now && (p in s.currentProgramGen ==> s.currentProgramGen[p] <= now)
                     && (now == g || (p in s.currentProgramGen && now == s.currentProgramGen[p])))
  {
  }

  lemma RetiresProgram(s: State, p: u64)
    ensures var o := RetireProgram(s, p);
            && (o.result.Ok? <==> p in s.programs) && (o.result.Err? ==> o.result.error == NOT_FOUND && o.state == s)
            && (o.result.Ok? ==>
                  && o.state == s.(currentProgramGen := o.state.currentProgramGen) && p !in o.state.currentProgramGen
                  && forall q :: q != p ==>
                       && (q in o.state.currentProgramGen <==> q in s.currentProgramGen)
                       && (q in s.currentProgramGen ==> o.state.currentProgramGen[q] == s.currentProgramGen[q]))
  {
  }

  /** The current generation of p is the greatest one registered. */
  ghost predicate Newest(s: State, p: u64) {
    && (p in s.currentProgramGen ==> p in s.programs)
    && (p in s.programs ==>
          && p in s.currentProgramGen && s.currentProgramGen[p] in s.programs[p]
          && forall g :: g in s.programs[p] ==> g <= s.currentProgramGen[p])
  }

  lemma NewestSame(s: State, r: State, p: u64)
    requires Newest(s, p) && (p in r.programs <==> p in s.programs) && (p in r.currentProgramGen <==> p in s.currentProgramGen)
    requires p in s.programs ==> r.programs[p] == s.programs[p]
    requires p in s.currentProgramGen ==> r.currentProgramGen[p] == s.currentProgramGen[p]
    ensures Newest(r, p)
  {
  }

  lemma NewestRegistered(s: State, art: ProgramArtifact, p: u64)
    requires Newest(s, p)
    ensures Newest(RegisterProgram(s, art).state, p)
  {
    hide RegisterProgram;
    RegistersProgram(s, art);
  }

  lemma NewestRetired(s: State, q: u64, p: u64)
    requires Newest(s, p) && q != p
    ensures Newest(RetireProgram(s, q).state, p)
  {
    hide RetireProgram, Newest;
    RetiresProgram(s, q);
    NewestSame(s, RetireProgram(s, q).state, p);
  }

  lemma NewestOther(s: State, op: Op, p: u64)
    requires Newest(s, p) && CatalogOp(op) && !op.OpRegisterProgram? && !op.OpRetireProgram?
    ensures Newest(Apply(s, op), p)
  {
    hide Newest, RegisterService, RegisterWorker;
    match op {
      case OpRegisterService(def) => RegistersService(s, def);
      case OpRegisterWorker(w, boot) => RegistersWorker(s, w, boot);
      case OpWorkerHeartbeat(_, _) =>
      case OpAdvanceEpoch =>
    }
    NewestSame(s, Apply(s, op), p);
  }

  lemma NewestStep(s: State, op: Op, p: u64)
    requires Newest(s, p) && op != OpRetireProgram(p)
    ensures Newest(Apply(s, op), p)
  {
    hide Newest, RegisterProgram, RetireProgram;
    if op.OpRegisterProgram? {
      NewestRegistered(s, op.art, p);
    } else if op.OpRetireProgram? {
      NewestRetired(s, op.program, p);
    } else {
      hide Apply;
      if CatalogOp(op) {
        NewestOther(s, op, p);
      } else {
        CatalogUntouched(s, op);
        NewestSame(s, Apply(s, op), p);
      }
    }
  }

  lemma {:induction false} NewestLater(s: State, ops: seq<Op>, p: u64)
    requires Newest(s, p) && forall i :: 0 <= i < |ops| ==> ops[i] != OpRetireProgram(p)
    ensures Newest(Run(s, ops), p)
  {
    hide Newest, Apply;
    if ops != [] {
      NewestLater(s, ops[..|ops| - 1], p);
      NewestStep(Run(s, ops[..|ops| - 1]), ops[|ops| - 1], p);
    }
  }

  /** On every run that does not retire p, the greatest registered generation of p is the current one. */
  lemma GreatestIsCurrent(epoch: u64, policy: Policy, ops: seq<Op>, p: u64)
    requires forall i :: 0 <= i < |ops| ==> ops[i] != OpRetireProgram(p)
    ensures var s := Run(Fresh(epoch, policy), ops);
            && (p in s.currentProgramGen <==> p in s.programs)
            && (p in s.programs ==>
                  s.currentProgramGen[p] in s.programs[p] && forall g :: g in s.programs[p] ==> g <= s.currentProgramGen[p])
  {
    assert Newest(Fresh(epoch, policy), p);
    hide Run;
    NewestLater(Fresh(epoch, policy), ops, p);
  }

  /** Nor can a deployment of p go into service once a later generation is registered: on a ready device its
      commit throws STALE_PROGRAM_GENERATION. */
  lemma OldGenerationCannotCommit(epoch: u64, policy: Policy, ops: seq<Op>, k: u64, p: u64, g: u64)
    requires forall i :: 0 <= i < |ops| ==> ops[i] != OpRetireProgram(p)
    requires var s := Run(Fresh(epoch, policy), ops);
             && k in s.deployments && s.deployments[k].binding.program == p && p != 0
             && p in s.programs && g in s.programs[p] && s.deployments[k].binding.programGen < g
    ensures var s := Run(Fresh(epoch, policy), ops);
            var o, d := CommitDeployment(s, k), s.deployments[k];
            && o.result.Err? && o.state == s
            && (d.state.Activating? && d.binding.device in s.devices && s.devices[d.binding.device].ReadyForOffload() ==>
                  o.result.error == STALE_PROGRAM_GENERATION)
  {
    GreatestIsCurrent(epoch, policy, ops, p);
    hide Run, DeviceRecord.ReadyForOffload;
  }

  /** After a program is retired none of its deployments can be committed. */
  lemma RetiredProgramCommitsNothing(s: State, p: u64, k: u64)
    requires p in s.programs && p != 0 && k in s.deployments && s.deployments[k].binding.program == p
    ensures var r := RetireProgram(s, p).state; CommitDeployment(r, k).result.Err? && CommitDeployment(r, k).state == r
  {
    hide RetireProgram, DeviceRecord.ReadyForOffload;
    RetiresProgram(s, p);
  }

  // ---- epochs ----

  /** The epoch moves on by one, and by nothing at saturation; nothing else changes. */
  lemma EpochAdvances(s: State)
    ensures var o := AdvanceEpoch(s);
            && o.result == Ok(()) && o.state == s.(epoch := o.state.epoch)
            && o.state.epoch == if s.epoch == U64_MAX then s.epoch else s.epoch + 1
  {
  }

  lemma RunOn(s: State, ops: seq<Op>, op: Op)
    ensures Run(s, ops + [op]) == Apply(Run(s, ops), op)
  {
    hide Apply;
    assert (ops + [op])[..|ops|] == ops;
  }

  /** Below saturation a new epoch makes every token captured before it stale for good: it is not current in any
      context of any later state. */
  lemma NewEpochExpiresTokens(epoch: u64, policy: Policy, before: seq<Op>, after: seq<Op>, a: u64, ctx: AuthorityContext)
    requires |before| <= Coupling.MAX_CALLS && a in Run(Fresh(epoch, policy), before).activations
    requires Run(Fresh(epoch, policy), before).epoch < U64_MAX
    requires ctx.epoch == Run(AdvanceEpoch(Run(Fresh(epoch, policy), before)).state, after).epoch
    ensures !Run(Fresh(epoch, policy), before).activations[a].authority.IsCurrent(ctx)
  {
    hide Run, AdvanceEpoch;
    var s := Run(Fresh(epoch, policy), before);
    Recovery.DatedOnEveryRun(epoch, policy, before);
    EpochAdvances(s);
    Recovery.EpochLater(AdvanceEpoch(s).state, after);
  }

  // ---- tokens ----

  /** A token is current exactly in the context that agrees with it in all eleven components. */
  lemma CurrentExactly(t: ActivationAuthority, cur: AuthorityContext)
    ensures t.IsCurrent(cur) <==>
            cur == AuthorityContext(t.epoch, t.workerBoot, t.worker, t.deviceBoot, t.deviceGen, t.serviceGen, t.programGen,
                                    t.deploymentGen, t.activationGen, t.policyGen, t.evidenceGen)
  {
  }

  /** What a commit captures: the epoch, the policy and the device's evidence as they are, and everything else as
      the deployment is bound. */
  lemma CommitCaptures(s: State, k: u64)
    requires CommitDeployment(s, k).result.Ok?
    ensures var r := CommitDeployment(s, k).state;
            && k in s.deployments && s.deployments[k].activation.Some? && s.deployments[k].activation.value in r.activations
            && s.deployments[k].binding.device in s.devices
            && var d, t := s.deployments[k], r.activations[s.deployments[k].activation.value].authority;
               && t.epoch == s.epoch && t.policyGen == s.policy.generation
               && t.evidenceGen == s.devices[d.binding.device].status.evidenceGen
               && t.device == d.binding.device && t.deviceBoot == d.binding.deviceBoot && t.deviceGen == d.binding.deviceGen
               && t.serviceGen == d.binding.serviceGen && t.programGen == d.binding.programGen
               && t.deploymentGen == d.binding.generation && t.activationGen == d.activationGen
               && t.worker == 0 && t.workerBoot == d.workerBoot
  {
    hide DeviceRecord.ReadyForOffload;
  }

  /** Every token but a blank one names the device that its deployment is bound to. */
  ghost predicate NamesDevice(s: State) {
    forall a :: a in s.activations && s.activations[a].authority != NO_AUTHORITY ==>
      && s.activations[a].deploymentId in s.deployments
      && s.activations[a].authority.device == s.deployments[s.activations[a].deploymentId].binding.device
  }

  lemma NamesDeviceStep(s: State, op: Op)
    requires NamesDevice(s) && Coupling.Linked(s) && Coupling.RoomForIds(s)
    ensures NamesDevice(Apply(s, op))
  {
    Authority.NextIsFree(s);
    hide Apply, CommitDeployment, Lifecycle.Quiet, Lifecycle.Commits;
    var r := Apply(s, op);
    forall a | a in r.activations && r.activations[a].authority != NO_AUTHORITY
      ensures r.activations[a].deploymentId in r.deployments
      ensures r.activations[a].authority.device == r.deployments[r.activations[a].deploymentId].binding.device
    {
      if a !in s.activations {
        NewRecordIsBlank(s, op, a);
      } else {
        OldRecordNames(s, op, a);
      }
    }
  }

  lemma NewRecordIsBlank(s: State, op: Op, a: u64)
    requires a !in s.activations && a in Apply(s, op).activations
    ensures Apply(s, op).activations[a].authority == NO_AUTHORITY
  {
    hide Apply, CommitDeployment;
    if op.OpCommit? {
      Lifecycle.CommitEffect(s, op.deployment);
      ApplyCommits(s, op);
    } else {
      Recovery.NewRecordBlank(s, op, a);
    }
  }

  lemma ApplyCommits(s: State, op: Op)
    requires op.OpCommit?
    ensures Apply(s, op) == CommitDeployment(s, op.deployment).state
  {
  }

  lemma OldRecordNames(s: State, op: Op, a: u64)
    requires NamesDevice(s) && Coupling.Linked(s) && s.idSeq !in s.activations && s.idSeq !in s.deployments && a in s.activations
    requires a in Apply(s, op).activations && Apply(s, op).activations[a].authority != NO_AUTHORITY
    ensures var r := Apply(s, op);
            && r.activations[a].deploymentId in r.deployments
            && r.activations[a].authority.device == r.deployments[r.activations[a].deploymentId].binding.device
  {
    hide Apply, CommitDeployment, Lifecycle.Quiet, Lifecycle.Commits, Coupling.GenerationsGrow;
    var k := s.activations[a].deploymentId;
    assert Coupling.ActivationOk(s, a);
    Authority.RecordStep(s, op, a);
    Lifecycle.StepStep(s, op, k);
    Recovery.StepsKeepBinding(s.deployments[k], Apply(s, op).deployments[k]);
    if op.OpCommit? && op.deployment in s.deployments && s.deployments[op.deployment].activation == Some(a) {
      ApplyCommits(s, op);
      assert Coupling.DeploymentOk(s, op.deployment);
      if CommitDeployment(s, op.deployment).result.Ok? {
        CommitCaptures(s, op.deployment);
      } else {
        Lifecycle.CommitEffect(s, op.deployment);
      }
    }
  }

  lemma {:induction false} TokensNameTheirDevice(epoch: u64, policy: Policy, ops: seq<Op>)
    requires |ops| <= Coupling.MAX_CALLS
    ensures NamesDevice(Run(Fresh(epoch, policy), ops))
  {
    if ops != [] {
      var most := ops[..|ops| - 1];
      TokensNameTheirDevice(epoch, policy, most);
      Coupling.LinkedOnEveryRun(epoch, policy, most);
      hide NamesDevice, Apply, Coupling.Linked;
      NamesDeviceStep(Run(Fresh(epoch, policy), most), ops[|ops| - 1]);
    }
  }
}
