/** Restarting from a file: recovery grants no authority, and what it does not restore. */
module Recovery {
  import opened Base
  import opened Resource
  import opened Records
  import opened Coordinator
  import opened Fencing
  import opened Persistence
  import Authority
  import Conservation
  import Coupling
  import Currency
  import Devices
  import Eligibility
  import Lifecycle
  import Mirror
  import Store

  function ZeroUsage(devices: map<u64, DeviceRecord>): map<u64, Resources> {
    map d | d in devices :: NOTHING
  }

  /** The engine's own part of recover_from, after a successful load: a new epoch, and fresh usage. */
  function Adopted(loaded: State): State {
    loaded.(epoch := NextGeneration(loaded.epoch),
            ledgers := NewLedgers(loaded.devices) + loaded.ledgers,
            usage := loaded.usage + ZeroUsage(loaded.devices))
  }

  /** recover_from; without a file it does nothing. */
  function RecoverFrom(s: State, file: Option<seq<byte>>): Outcome<bool> {
    if file.None? then Outcome(s, Ok(false))
    else
      var loaded := Load(s, file.value);
      if loaded.Err? then Outcome(s, Err(loaded.error)) else Outcome(Adopted(loaded.value), Ok(true))
  }

  // ---- the restart fence, record by record ----

  /** The live tables with everything that the file holds entered into them, before the fence. */
  function EnteredFrom(live: State, file: seq<byte>): Option<State> {
    var payload := Store.Opened(file);
    if payload.Err? then None
    else
      var stored := GetStored(payload.value);
      if stored.Err? then None else Some(Filled(live, stored.value))
  }

  lemma LoadsWhatIsEntered(live: State, file: seq<byte>)
    ensures Load(live, file).Ok? <==> EnteredFrom(live, file).Some?
    ensures Load(live, file).Ok? ==> Load(live, file).value == Restarted(EnteredFrom(live, file).value)
  {
    hide Restarted, Filled, GetStored, Store.Opened;
  }

  /** Whatever file loads into whatever state: a device keeps its lifecycle only if it is RETIRED, FAILED or OFFLINE,
      and loses its evidence; a deployment that was in service, degraded or draining needs revalidation; none is
      authoritative or points to an activation; and no activation is left. */
  lemma RestartFence(live: State, file: seq<byte>)
    requires Load(live, file).Ok?
    ensures EnteredFrom(live, file).Some?
    ensures var e, r := EnteredFrom(live, file).value, Load(live, file).value;
            && r == e.(devices := r.devices, deployments := r.deployments, activations := map[])
            && r.devices.Keys == e.devices.Keys && r.deployments.Keys == e.deployments.Keys
            && (forall d :: d in e.devices ==>
                  var was := e.devices[d].status;
                  r.devices[d] == e.devices[d].(status := was.(
                    lifecycle := if was.lifecycle.Retired? || was.lifecycle.Failed? || was.lifecycle.Offline? then was.lifecycle
                                 else DeviceLifecycle.RevalidationRequired,
                    evidenceFresh := false)))
            && (forall k :: k in e.deployments ==>
                  var was := e.deployments[k];
                  r.deployments[k] == was.(
                    state := if was.state.Active? || was.state.Degraded? || was.state.Draining?
                             then DeploymentState.RevalidationRequired else was.state,
                    authoritative := false, activation := None))
  {
    hide EnteredFrom, Load;
    LoadsWhatIsEntered(live, file);
  }

  /** What a successful recovery adds to the fence: the next epoch after the stored one, of at least 1; a ledger for
      every device that had none; and no usage on any of them. */
  lemma RecoveryAdopts(live: State, file: seq<byte>)
    requires RecoverFrom(live, Some(file)).result.Ok?
    ensures Load(live, file).Ok?
    ensures var e, r := Load(live, file).value, RecoverFrom(live, Some(file)).state;
            && RecoverFrom(live, Some(file)).result == Ok(true)
            && r == e.(epoch := r.epoch, ledgers := r.ledgers, usage := r.usage)
            && e.epoch >= 1 && r.epoch == (if e.epoch == U64_MAX then U64_MAX else e.epoch + 1)
            && (forall d :: d in r.ledgers <==> d in e.devices || d in e.ledgers)
            && (forall d :: d in e.ledgers ==> r.ledgers[d] == e.ledgers[d])
            && (forall d :: d in e.devices && d !in e.ledgers ==> r.ledgers[d] == Ledger(e.devices[d].capacity.resources, NOTHING))
            && (forall d :: d in r.usage <==> d in e.devices || d in e.usage)
            && (forall d :: d in r.usage ==> r.usage[d] == if d in e.devices then NOTHING else e.usage[d])
  {
    hide Load;
    LoadedEpoch(live, file);
  }

  lemma LoadedEpoch(live: State, file: seq<byte>)
    requires Load(live, file).Ok?
    ensures Load(live, file).value.epoch >= 1
  {
    hide GetStored, Store.Opened;
  }

  /** A deployment that was draining when it was saved can be drained again after the restart. */
  lemma DrainingCanDrainAgain(live: State, file: seq<byte>, k: u64)
    requires Load(live, file).Ok? && EnteredFrom(live, file).Some?
    requires k in EnteredFrom(live, file).value.deployments && EnteredFrom(live, file).value.deployments[k].state.Draining?
    ensures var r := Load(live, file).value; DrainDeployment(r, k).result == Ok(())
  {
    hide Load, EnteredFrom;
    RestartFence(live, file);
  }

  // ---- recovery grants nothing ----

  /** No device has fresh evidence and nothing is in service. */
  ghost predicate NothingGranted(s: State) {
    && (forall d :: d in s.devices ==> !s.devices[d].status.evidenceFresh)
    && (forall k :: k in s.deployments ==> !s.deployments[k].state.Active?)
  }

  lemma RestartGrantsNothing(s: State)
    ensures NothingGranted(Restarted(s))
  {
    forall d | d in s.devices ensures !RestartedDevice(s.devices[d]).status.evidenceFresh {
    }
  }

  lemma AdoptedKeeps(loaded: State)
    ensures Adopted(loaded).devices == loaded.devices && Adopted(loaded).deployments == loaded.deployments
    ensures Adopted(loaded).idSeq == loaded.idSeq
  {
  }

  predicate Vouches(op: Op) {
    op.OpRegisterDevice? || op.OpUpdateDevice?
  }

  lemma NoNewDevices(s: State, op: Op)
    requires !Vouches(op)
    ensures Apply(s, op).devices.Keys == s.devices.Keys
  {
    hide Apply, Devices.DevicesAfter;
    if DeviceOp(op) {
      Devices.DeviceOpDevices(s, op);
      SameKeys(s, op);
    } else {
      Devices.OtherOpsKeepDevices(s, op);
    }
  }

  lemma SameKeys(s: State, op: Op)
    requires DeviceOp(op) && !Vouches(op)
    ensures Devices.DevicesAfter(s, op).Keys == s.devices.Keys
  {
    hide Devices.RecordAfter, LostDevice, RecoveredDevice;
    if Devices.NamesDevice(op) && op.device in s.devices {
      var rec := Devices.RecordAfter(s, op);
      assert s.devices[op.device := rec].Keys == s.devices.Keys;
    }
  }

  lemma NothingGrantedStep(s: State, op: Op)
    requires NothingGranted(s) && !Vouches(op)
    ensures NothingGranted(Apply(s, op))
  {
    hide Apply;
    NoNewDevices(s, op);
    forall d | d in Apply(s, op).devices ensures !Apply(s, op).devices[d].status.evidenceFresh {
      Devices.DeviceStep(s, op, d);
    }
    forall k | k in Apply(s, op).deployments ensures !Apply(s, op).deployments[k].state.Active? {
      if Apply(s, op).deployments[k].state.Active? {
        Devices.InServiceBecause(s, op, k);
        assert false;
      }
    }
  }

  lemma {:induction false} NothingGrantedLater(s: State, ops: seq<Op>)
    requires NothingGranted(s) && forall i :: 0 <= i < |ops| ==> !Vouches(ops[i])
    ensures NothingGranted(Run(s, ops))
  {
    if ops != [] {
      hide NothingGranted, Apply;
      NothingGrantedLater(s, ops[..|ops| - 1]);
      NothingGrantedStep(Run(s, ops[..|ops| - 1]), ops[|ops| - 1]);
    }
  }

  /** Recovery grants nothing: whatever file was loaded into whatever state, and whatever calls follow, until
      a device is registered or updated no device is ready, no evaluation selects one, and no deployment is
      in service. */
  lemma RecoveryGrantsNothing(s: State, file: seq<byte>, ops: seq<Op>, req: OffloadRequest)
    requires RecoverFrom(s, Some(file)).result.Ok?
    requires forall i :: 0 <= i < |ops| ==> !Vouches(ops[i])
    ensures var r := Run(RecoverFrom(s, Some(file)).state, ops);
            && (forall d :: d in r.devices ==> !r.devices[d].ReadyForOffload() && !Eligibility.IsSelected(MakeSnapshot(r), req, d))
            && (forall k :: k in r.deployments ==> !r.deployments[k].state.Active?)
  {
    var start := RecoverFrom(s, Some(file)).state;
    assert NothingGranted(start) by {
      LoadedGrantsNothing(s, file);
    }
    hide RecoverFrom;
    NothingGrantedLater(start, ops);
    var r := Run(start, ops);
    hide Run;
    forall d | d in r.devices ensures !r.devices[d].ReadyForOffload() && !Eligibility.IsSelected(MakeSnapshot(r), req, d) {
      Devices.OutMeansUnselected(r, d, req);
    }
  }

  lemma LoadedGrantsNothing(s: State, file: seq<byte>)
    requires RecoverFrom(s, Some(file)).result.Ok?
    ensures NothingGranted(RecoverFrom(s, Some(file)).state)
  {
    var loaded := Load(s, file).value;
    LoadIsRestarted(s, file);
    hide Adopted, Load, NothingGranted;
    AdoptedKeeps(loaded);
    SameGrants(loaded, Adopted(loaded));
  }

  lemma SameGrants(s: State, r: State)
    requires NothingGranted(s) && r.devices == s.devices && r.deployments == s.deployments
    ensures NothingGranted(r)
  {
  }

  lemma LoadIsRestarted(s: State, file: seq<byte>)
    requires Load(s, file).Ok?
    ensures NothingGranted(Load(s, file).value)
  {
    hide Restarted, Filled, GetStored, Store.Opened, NothingGranted;
    var payload := Store.Opened(file).value;
    RestartGrantsNothing(Filled(s, GetStored(payload).value));
  }

  // ---- epochs ----

  /** The epoch never goes back. */
  lemma EpochStep(s: State, op: Op)
    ensures Apply(s, op).epoch >= s.epoch
  {
    if CatalogOp(op) {
      hide GenerationsOf;
    } else {
      hide Apply;
      CatalogUntouched(s, op);
    }
  }

  lemma {:induction false} EpochLater(s: State, ops: seq<Op>)
    ensures Run(s, ops).epoch >= s.epoch
  {
    if ops != [] {
      hide Apply;
      EpochLater(s, ops[..|ops| - 1]);
      EpochStep(Run(s, ops[..|ops| - 1]), ops[|ops| - 1]);
    }
  }

  /** No token carries an epoch later than the coordinator's. */
  ghost predicate Dated(s: State) {
    forall a :: a in s.activations ==> s.activations[a].authority.epoch <= s.epoch
  }

  lemma DatedStep(s: State, op: Op)
    requires Dated(s) && Coupling.Linked(s) && Coupling.RoomForIds(s)
    ensures Dated(Apply(s, op))
  {
    Authority.NextIsFree(s);
    hide Apply, CommitDeployment, Coupling.Linked;
    EpochStep(s, op);
    forall a | a in Apply(s, op).activations ensures Apply(s, op).activations[a].authority.epoch <= Apply(s, op).epoch {
      if op.OpCommit? {
        Devices.ApplyCommit(s, op);
        Lifecycle.CommitEffect(s, op.deployment);
        hide CapturedAuthority;
        CapturedNow(s, op.deployment);
      } else if a in s.activations {
        Authority.RecordStep(s, op, a);
      } else {
        NewRecordBlank(s, op, a);
      }
    }
  }

  lemma CapturedNow(s: State, k: u64)
    ensures k in s.deployments && s.deployments[k].binding.device in s.devices ==>
              CapturedAuthority(s, s.deployments[k], s.devices[s.deployments[k].binding.device]).epoch == s.epoch
  {
  }

  /** A new record carries no token yet. */
  lemma NewRecordBlank(s: State, op: Op, a: u64)
    requires !op.OpCommit? && a !in s.activations && a in Apply(s, op).activations
    ensures Apply(s, op).activations[a].authority == NO_AUTHORITY
  {
    if op.OpActivate? {
      hide ActivateDeployment;
      Authority.ActivateAddsRecord(s, op.deployment);
    } else {
      hide Apply;
      Authority.OthersKeepRecords(s, op);
    }
  }

  lemma {:induction false} DatedOnEveryRun(epoch: u64, policy: Policy, ops: seq<Op>)
    requires |ops| <= Coupling.MAX_CALLS
    ensures Dated(Run(Fresh(epoch, policy), ops))
  {
    if ops != [] {
      var most := ops[..|ops| - 1];
      DatedOnEveryRun(epoch, policy, most);
      Coupling.LinkedOnEveryRun(epoch, policy, most);
      hide Dated, Apply, Coupling.Linked;
      DatedStep(Run(Fresh(epoch, policy), most), ops[|ops| - 1]);
    }
  }

  // ---- the snapshots of an engine are well formed ----

  /** Services and programs are filed under their own identities, and a current generation exists. */
  ghost predicate Filed(s: State) {
    && (forall v :: v in s.services ==> s.services[v].serviceId == v)
    && (forall p :: p in s.programs ==> s.programs[p] != map[])
    && CurrentKnown(s.programs, s.currentProgramGen)
  }

  lemma RegisterProgramFiled(s: State, art: ProgramArtifact)
    requires Filed(s)
    ensures Filed(RegisterProgram(s, art).state)
  {
    var id, r := art.programId, RegisterProgram(s, art).state;
    if id != 0 && art.programGen != 0 {
      assert r.programs[id] == GenerationsOf(s, id)[art.programGen := art];
      assert art.programGen in r.programs[id];
      forall g | id in s.programs && g in s.programs[id] ensures g in r.programs[id] {
      }
    }
  }

  lemma RetireProgramFiled(s: State, id: u64)
    requires Filed(s)
    ensures Filed(RetireProgram(s, id).state)
  {
    hide RetireProgram;
    Currency.RetireProgramTable(s, id);
  }

  lemma RegisterServiceFiled(s: State, def: ServiceDefinition)
    requires Filed(s)
    ensures Filed(RegisterService(s, def).state)
  {
    var r := RegisterService(s, def).state;
    assert r.programs == s.programs && r.currentProgramGen == s.currentProgramGen;
    hide CurrentKnown;
  }

  lemma FiledSame(s: State, r: State)
    requires Filed(s)
    requires r.services == s.services && r.programs == s.programs && r.currentProgramGen == s.currentProgramGen
    ensures Filed(r)
  {
    hide CurrentKnown;
  }

  lemma CatalogOpFiled(s: State, op: Op)
    requires Filed(s) && CatalogOp(op)
    ensures Filed(Apply(s, op))
  {
    hide Filed, RegisterService, RegisterProgram, RetireProgram, RegisterWorker;
    match op {
      case OpRegisterService(def) => RegisterServiceFiled(s, def);
      case OpRegisterProgram(art) => RegisterProgramFiled(s, art);
      case OpRetireProgram(id) => RetireProgramFiled(s, id);
      case OpRegisterWorker(w, boot) => WorkerFiled(s, w, boot);
      case OpWorkerHeartbeat(_, _) =>
      case OpAdvanceEpoch => FiledSame(s, Apply(s, op));
    }
  }

  lemma FiledStep(s: State, op: Op)
    requires Filed(s)
    ensures Filed(Apply(s, op))
  {
    hide Filed, Apply;
    if CatalogOp(op) {
      CatalogOpFiled(s, op);
    } else {
      CatalogUntouched(s, op);
      FiledSame(s, Apply(s, op));
    }
  }

  lemma WorkerFiled(s: State, w: u64, boot: u64)
    requires Filed(s)
    ensures Filed(RegisterWorker(s, w, boot).state)
  {
    hide Filed, RegisterWorker;
    Currency.WorkerTables(s, w, boot);
    FiledSame(s, RegisterWorker(s, w, boot).state);
  }

  /** What every engine keeps in order, restarted or not: the device tables mirror one another, and every record
      is filed under its own identity. */
  ghost predicate Orderly(s: State) {
    Mirror.Mirrored(s) && Filed(s) && DeploymentsFiled(s)
  }

  ghost predicate DeploymentsFiled(s: State) {
    forall k :: k in s.deployments ==> s.deployments[k].binding.deploymentId == k
  }

  lemma DeploymentsFiledStep(s: State, op: Op)
    requires DeploymentsFiled(s)
    ensures DeploymentsFiled(Apply(s, op))
  {
    hide Apply, NewDeployment, NewBinding, ReserveDeployment, DeviceRecord.ReadyForOffload;
    var r := Apply(s, op);
    if op.OpReserve? {
      Lifecycle.ApplyReserve(s, op);
      ReserveAdds(s, op.req, op.selected);
      if op.selected.Some? && op.selected.value in s.devices && (op.req.service.Some? ==> op.req.service.value in s.services) {
        FiledWhenNew(NewBinding(s, op.req, op.selected.value));
      }
    } else {
      forall k | k in r.deployments ensures r.deployments[k].binding.deploymentId == k {
        if k in s.deployments {
          Lifecycle.StepStep(s, op, k);
          StepsKeepBinding(s.deployments[k], r.deployments[k]);
        } else {
          Lifecycle.NewcomersAreReserved(s, op, k);
          assert false;
        }
      }
    }
  }

  lemma FiledWhenNew(b: DeploymentBinding)
    ensures NewDeployment(b).binding == b
  {
  }

  lemma StepsKeepBinding(d: Deployment, e: Deployment)
    requires Lifecycle.Quiet(d, e) || Lifecycle.Commits(d, e)
    ensures e.binding == d.binding
  {
  }

  lemma OrderlyStep(s: State, op: Op)
    requires Orderly(s)
    ensures Orderly(Apply(s, op))
  {
    hide Filed, DeploymentsFiled, Mirror.Mirrored, Apply;
    Mirror.MirrorStep(s, op);
    FiledStep(s, op);
    DeploymentsFiledStep(s, op);
  }

  lemma {:induction false} OrderlyLater(s: State, ops: seq<Op>)
    requires Orderly(s)
    ensures Orderly(Run(s, ops))
  {
    if ops != [] {
      hide Orderly, Apply;
      OrderlyLater(s, ops[..|ops| - 1]);
      OrderlyStep(Run(s, ops[..|ops| - 1]), ops[|ops| - 1]);
    }
  }

  lemma OrderlyFromFresh(epoch: u64, policy: Policy, ops: seq<Op>)
    ensures Orderly(Run(Fresh(epoch, policy), ops))
  {
    assert Orderly(Fresh(epoch, policy));
    hide Orderly, Run;
    OrderlyLater(Fresh(epoch, policy), ops);
  }

  lemma StructuredFrom(s: State)
    requires Orderly(s)
    ensures Structured(MakeSnapshot(s))
  {
    hide CurrentKnown, Distinct, Mirror.Account;
  }

  /** Every snapshot of an engine satisfies the structural half of what the round trip needs. */
  lemma SnapshotsAreStructured(epoch: u64, policy: Policy, ops: seq<Op>)
    ensures Structured(MakeSnapshot(Run(Fresh(epoch, policy), ops)))
  {
    hide Run, Orderly, Structured;
    OrderlyFromFresh(epoch, policy, ops);
    StructuredFrom(Run(Fresh(epoch, policy), ops));
  }

  // ---- the round trip of an engine ----

  /** What save writes for a coordinator's current snapshot. */
  function FileOf(s: State): seq<byte> {
    Store.Container(Payload(MakeSnapshot(s)))
  }

  /** Everything is within the format's bounds. */
  ghost predicate Savable(s: State) {
    WithinBounds(MakeSnapshot(s))
  }

  /** An engine that recovers from what s saved: everything s stores joined to its own tables, fenced, under the
      next epoch, with empty usage. */
  function Successor(live: State, s: State): State {
    Adopted(Restarted(Joined(live, MakeSnapshot(s))))
  }

  lemma RecoverSaved(live: State, s: State)
    requires Structured(MakeSnapshot(s)) && Savable(s)
    ensures RecoverFrom(live, Some(FileOf(s))) == Outcome(Successor(live, s), Ok(true))
  {
    hide Load, Adopted, Restarted, Joined, MakeSnapshot, Payload, Store.Container, Structured, WithinBounds;
    LoadSaved(live, MakeSnapshot(s));
  }

  /** Restart: saving the state of any engine and recovering into any other joins exactly the stored tables to
      the live ones, fenced, provided only that everything is within the format's bounds. */
  lemma EngineRoundTrip(epoch: u64, policy: Policy, ops: seq<Op>, live: State)
    requires Savable(Run(Fresh(epoch, policy), ops))
    ensures var s := Run(Fresh(epoch, policy), ops);
            RecoverFrom(live, Some(FileOf(s))) == Outcome(Successor(live, s), Ok(true))
    ensures var s := Run(Fresh(epoch, policy), ops);
            EmptyTables(live) ==> Successor(live, s) == Adopted(Restarted(Taking(live, MakeSnapshot(s))))
  {
    hide RecoverFrom, Adopted, Restarted, Joined, Taking, Run, MakeSnapshot, FileOf, Savable, Structured;
    SnapshotsAreStructured(epoch, policy, ops);
    RecoverSaved(live, Run(Fresh(epoch, policy), ops));
    if EmptyTables(live) {
      JoinedToNothing(live, MakeSnapshot(Run(Fresh(epoch, policy), ops)));
    }
  }

  lemma SuccessorEpoch(live: State, s: State)
    ensures s.epoch < U64_MAX ==> Successor(live, s).epoch > s.epoch
    ensures s.epoch == U64_MAX ==> Successor(live, s).epoch == s.epoch
  {
    hide NewLedgers, JoinedPrograms, RestartedDevices, RestartedDeployments, MergedPolicy, ZeroUsage;
  }

  /** After recovery, into whatever engine, the epoch is past the saved one, for good, unless it was saturated. */
  lemma RecoveredEpoch(s: State, live: State, after: seq<Op>)
    requires Structured(MakeSnapshot(s)) && Savable(s)
    ensures s.epoch < U64_MAX ==> Run(RecoverFrom(live, Some(FileOf(s))).state, after).epoch > s.epoch
    ensures s.epoch == U64_MAX ==> RecoverFrom(live, Some(FileOf(s))).state.epoch == s.epoch
  {
    hide RecoverFrom, Successor, Run, FileOf, Savable, Structured;
    RecoverSaved(live, s);
    SuccessorEpoch(live, s);
    EpochLater(RecoverFrom(live, Some(FileOf(s))).state, after);
  }

  /** No token from before the save is current after the recovery, whatever engine it was recovered into and
      whatever calls follow it. */
  lemma NoOldTokenIsCurrent(epoch: u64, policy: Policy, before: seq<Op>, live: State, after: seq<Op>, a: u64, ctx: AuthorityContext)
    requires |before| <= Coupling.MAX_CALLS && Savable(Run(Fresh(epoch, policy), before))
    requires a in Run(Fresh(epoch, policy), before).activations && Run(Fresh(epoch, policy), before).epoch < U64_MAX
    requires ctx.epoch == Run(RecoverFrom(live, Some(FileOf(Run(Fresh(epoch, policy), before)))).state, after).epoch
    ensures !Run(Fresh(epoch, policy), before).activations[a].authority.IsCurrent(ctx)
  {
    hide RecoverFrom, Run, FileOf, Savable, Structured, MakeSnapshot;
    DatedOnEveryRun(epoch, policy, before);
    SnapshotsAreStructured(epoch, policy, before);
    RecoveredEpoch(Run(Fresh(epoch, policy), before), live, after);
  }
}
