/** Runs of a new engine that reach what the exact conditions exclude: each property that fails, fails somewhere. */
module Witnesses {
  import opened Base
  import opened Resource
  import opened Records
  import opened Coordinator
  import opened Fencing
  import opened Persistence
  import opened Recovery
  import opened Restarts
  import Conservation
  import Coupling
  import Devices
  import Layout
  import Mirror
  import Sizes

  /** A ready device with fresh evidence that bounds nothing. */
  const DEVICE := DeviceRecord(
    DeviceIdentity(1, 1, 1, [], [], Dpu, [], [], 0), DeviceSoftware([], 1, [], 1, []),
    DeviceCapacity(0, 0, 0, NOTHING), DeviceFeatures([], [], map[], [], [], [], false, false, []),
    DeviceIsolation(false, 0, 0, false),
    DeviceStatus(SAME_DEVICE, HEALTHY, DeviceLifecycle.Ready, 1, 1, true, [], 0, 0))

  /** A request for resources and nothing else. */
  function Asking(r: Resources): OffloadRequest {
    OffloadRequest(1, [], None, None, None, None, 6, 0, 0, IsolationSpec(1, 0, 0, [], [], 1), r, 1, None, None, [],
                   OffloadRequired, false, 0, 100)
  }

  const SLOT := NOTHING.(slots := 1)
  const HALF := NOTHING.(slots := 0x8000_0000_0000_0000)

  const START := Fresh(1, DefaultPolicy(1))

  // ---- runs, call by call ----

  /** s is where the calls lead from a new engine, and no account was unbalanced on the way. */
  ghost predicate Leads(ops: seq<Op>, s: State) {
    Run(START, ops) == s && Conservation.NeverUnbalanced(START, ops)
  }

  lemma OneMoreCall(ops: seq<Op>, op: Op, s: State)
    requires Leads(ops, s) && !Conservation.Unbalances(s, op)
    ensures Leads(ops + [op], Apply(s, op))
  {
    hide Apply, Conservation.Unbalances;
    assert (ops + [op])[..|ops|] == ops;
  }

  /** The same for the calls that never unbalance anything. */
  lemma OneMorePlain(ops: seq<Op>, op: Op, s: State)
    requires Leads(ops, s) && !op.OpReserve? && !op.OpRollback? && !op.OpRetireDevice?
    ensures Leads(ops + [op], Apply(s, op))
  {
    hide Apply, Leads, Conservation.Unbalances;
    Harmless(s, op);
    OneMoreCall(ops, op, s);
  }

  lemma Harmless(s: State, op: Op)
    requires !op.OpReserve? && !op.OpRollback? && !op.OpRetireDevice?
    ensures !Conservation.Unbalances(s, op)
  {
    hide Conservation.ReleasesTwice, Conservation.ReleasesEarly, Conservation.Wraps;
    Conservation.OnlyThose(s, op);
  }

  const REGISTER := [OpRegisterDevice(DEVICE)]

  function Registered(): State {
    START.(devices := map[1 := DEVICE], deviceOrder := [1], ledgers := map[1 := Ledger(NOTHING, NOTHING)],
           usage := map[1 := NOTHING])
  }

  lemma RegisterFirst()
    ensures Leads(REGISTER, Registered())
  {
    OneMorePlain([], OpRegisterDevice(DEVICE), START);
    hide Leads;
    assert [] + REGISTER == REGISTER;
    assert Apply(START, OpRegisterDevice(DEVICE)) == Registered();
  }

  function Bound(id: u64, r: Resources): DeploymentBinding
    requires id < U64_MAX
  {
    DeploymentBinding(id, 1, id + 1, 0, 0, 0, 0, 0, 0, 1, 1, 1, 0, 0, r)
  }

  function Reserving(r: Resources): Op {
    OpReserve(Asking(r), Some(1))
  }

  /** After the first reservation. */
  function Reserved(r: Resources): State {
    Registered().(ledgers := map[1 := Ledger(NOTHING, r)], usage := map[1 := r], idSeq := 3,
                  deployments := map[1 := NewDeployment(Bound(1, r))])
  }

  lemma ReserveOne(r: Resources)
    ensures Leads(REGISTER + [Reserving(r)], Reserved(r))
  {
    RegisterFirst();
    hide Leads;
    ReserveApplies(r);
    NothingWraps(r);
    OneMoreCall(REGISTER, Reserving(r), Registered());
  }

  lemma ReserveApplies(r: Resources)
    ensures Apply(Registered(), Reserving(r)) == Reserved(r)
  {
  }

  lemma NothingWraps(r: Resources)
    ensures !Conservation.Unbalances(Registered(), Reserving(r))
  {
    hide Grants;
    assert NoWrap(NOTHING, r);
  }

  /** A balanced state that a call unbalances. */
  lemma Breaks(ops: seq<Op>, s: State, op: Op)
    requires Leads(ops, s) && |ops| <= 10 && Conservation.Unbalances(s, op)
    ensures Conservation.Conserved(Run(START, ops)) && !Conservation.Conserved(Run(START, ops + [op]))
  {
    hide Conservation.Unbalances, Conservation.Conserved, Conservation.NeverUnbalanced, Apply, Run, Coupling.Linked,
         Mirror.Mirrored;
    RunOn(START, ops, op);
    Conservation.ConservedOnEveryRun(1, DefaultPolicy(1), ops);
    Coupling.LinkedOnEveryRun(1, DefaultPolicy(1), ops);
    Mirror.MirrorOnEveryRun(1, DefaultPolicy(1), ops);
    Conservation.ConservationStep(s, op);
  }

  lemma RunOn(s: State, ops: seq<Op>, op: Op)
    ensures Run(s, ops + [op]) == Apply(Run(s, ops), op)
  {
    hide Apply;
    assert (ops + [op])[..|ops|] == ops;
  }

  // ---- a second release ----

  const FAILED_ONCE := REGISTER + [Reserving(SLOT)] + [Reserving(SLOT)] + [OpFail(1)]

  function Twice(): State {
    Registered().(ledgers := map[1 := Ledger(NOTHING, NOTHING.(slots := 2))], usage := map[1 := NOTHING.(slots := 2)], idSeq := 5,
                  deployments := map[1 := NewDeployment(Bound(1, SLOT)), 3 := NewDeployment(Bound(3, SLOT))])
  }

  function FailedOnce(): State {
    Registered().(ledgers := map[1 := Ledger(NOTHING, SLOT)], usage := map[1 := SLOT], idSeq := 5,
                  deployments := map[1 := NewDeployment(Bound(1, SLOT)).(state := DeploymentState.Failed),
                                     3 := NewDeployment(Bound(3, SLOT))])
  }

  lemma ReserveAgain()
    ensures Apply(Reserved(SLOT), Reserving(SLOT)) == Twice()
    ensures !Conservation.Unbalances(Reserved(SLOT), Reserving(SLOT))
  {
    assert NoWrap(SLOT, SLOT);
  }

  function GivenBack(): State {
    Twice().(ledgers := map[1 := Ledger(NOTHING, SLOT)], usage := map[1 := SLOT])
  }

  lemma ReleaseFirst()
    ensures ReleaseResources(Twice(), 1) == GivenBack()
  {
    hide Released, NewDeployment;
    assert NewDeployment(Bound(1, SLOT)).binding == Bound(1, SLOT) by {
      Lifts(Bound(1, SLOT));
    }
    OneSlotLess();
  }

  lemma Lifts(b: DeploymentBinding)
    ensures NewDeployment(b).binding == b
  {
  }

  lemma OneSlotLess()
    ensures Released(NOTHING.(slots := 2), SLOT) == SLOT
  {
  }

  lemma FailFirst()
    ensures Apply(Twice(), OpFail(1)) == FailedOnce()
  {
    hide ReleaseResources;
    ReleaseFirst();
    assert ValidDeploymentTransition(DeploymentState.Reserved, DeploymentState.Failed);
  }

  /** Register, reserve twice, fail the first: rolling it back as well releases its slot a second time, at the
      expense of the other deployment. */
  lemma SecondReleaseHappens()
    ensures Conservation.ReleasesTwice(Run(START, FAILED_ONCE), OpRollback(1))
    ensures Conservation.Conserved(Run(START, FAILED_ONCE))
    ensures !Conservation.Conserved(Run(START, FAILED_ONCE + [OpRollback(1)]))
  {
    hide Leads, Apply, Conservation.Unbalances, Conservation.ReleasesTwice, Conservation.Conserved;
    ReserveOne(SLOT);
    ReserveAgain();
    OneMoreCall(REGISTER + [Reserving(SLOT)], Reserving(SLOT), Reserved(SLOT));
    FailFirst();
    OneMorePlain(REGISTER + [Reserving(SLOT)] + [Reserving(SLOT)], OpFail(1), Twice());
    FailedOnceReleases();
    LeadsThere(FAILED_ONCE, FailedOnce());
    Breaks(FAILED_ONCE, FailedOnce(), OpRollback(1));
  }

  lemma LeadsThere(ops: seq<Op>, s: State)
    requires Leads(ops, s)
    ensures Run(START, ops) == s
  {
  }

  lemma FailedOnceReleases()
    ensures Conservation.ReleasesTwice(FailedOnce(), OpRollback(1)) && Conservation.Unbalances(FailedOnce(), OpRollback(1))
  {
    assert Covers(SLOT, SLOT);
  }

  // ---- a wrapping sum ----

  const HALF_TAKEN := REGISTER + [Reserving(HALF)]

  /** On a device without bounds two halves of 2^64 slots are both granted, and the account shows none. */
  lemma WrapHappens()
    ensures Conservation.Wraps(Run(START, HALF_TAKEN), Reserving(HALF))
    ensures Conservation.Conserved(Run(START, HALF_TAKEN))
    ensures !Conservation.Conserved(Run(START, HALF_TAKEN + [Reserving(HALF)]))
  {
    hide Leads, Apply, Conservation.Unbalances, Conservation.Wraps, Conservation.Conserved;
    ReserveOne(HALF);
    HalvesWrap();
    LeadsThere(HALF_TAKEN, Reserved(HALF));
    Breaks(HALF_TAKEN, Reserved(HALF), Reserving(HALF));
  }

  lemma HalvesWrap()
    ensures Conservation.Wraps(Reserved(HALF), Reserving(HALF)) && Conservation.Unbalances(Reserved(HALF), Reserving(HALF))
  {
    assert HALF.At(Slots) + HALF.At(Slots) > U64_MAX;
    assert !NoWrap(HALF, HALF);
  }

  // ---- up the ladder ----

  /** The one deployment on its way, in a given state. */
  function Climbing(r: Resources, state: DeploymentState): State {
    Reserved(r).(deployments := map[1 := NewDeployment(Bound(1, r)).(state := state)])
  }

  function Activating(r: Resources): State {
    Reserved(r).(idSeq := 4,
                 deployments := map[1 := Deployment(Bound(1, r), DeploymentState.Activating, Some(3), 1, 0, 0, 0, 0, false, 0, 0)],
                 activations := map[3 := ActivationRecord(3, 1, 1, 1, NO_AUTHORITY, ActivationState.Pending)])
  }

  function Token(): ActivationAuthority {
    ActivationAuthority(1, 0, 0, 1, 1, 1, 0, 0, 1, 1, 1, 1)
  }

  function Serving(r: Resources): State {
    Reserved(r).(idSeq := 4,
                 deployments := map[1 := Deployment(Bound(1, r), DeploymentState.Active, Some(3), 1, 1, 0, 0, 0, true, 0, 0)],
                 activations := map[3 := ActivationRecord(3, 1, 1, 1, Token(), ActivationState.Active)])
  }

  lemma ClimbsOn(r: Resources)
    ensures Apply(Reserved(r), OpStage(1)) == Climbing(r, DeploymentState.Staging)
    ensures Apply(Climbing(r, DeploymentState.Staging), OpLoad(1)) == Climbing(r, DeploymentState.Loaded)
    ensures Apply(Climbing(r, DeploymentState.Loaded), OpValidate(1)) == Climbing(r, DeploymentState.Validating)
  {
    hide Reserved, NewDeployment, Climbing, DeployTransition, ValidDeploymentTransition;
    RungsAreEdges();
    Climbed(r, DeploymentState.Reserved, DeploymentState.Staging);
    Climbed(r, DeploymentState.Staging, DeploymentState.Loaded);
    Climbed(r, DeploymentState.Loaded, DeploymentState.Validating);
    AtTheFoot(r);
  }

  lemma RungsAreEdges()
    ensures ValidDeploymentTransition(DeploymentState.Reserved, DeploymentState.Staging)
    ensures ValidDeploymentTransition(DeploymentState.Staging, DeploymentState.Loaded)
    ensures ValidDeploymentTransition(DeploymentState.Loaded, DeploymentState.Validating)
  {
  }

  lemma AtTheFoot(r: Resources)
    ensures Climbing(r, DeploymentState.Reserved) == Reserved(r)
  {
  }

  lemma Climbed(r: Resources, from: DeploymentState, to: DeploymentState)
    requires ValidDeploymentTransition(from, to) && !to.Active?
    ensures DeployTransition(Climbing(r, from), 1, to).state == Climbing(r, to)
  {
    hide ValidDeploymentTransition;
  }

  lemma ActivatesThen(r: Resources)
    ensures Apply(Climbing(r, DeploymentState.Validating), OpActivate(1)) == Activating(r)
  {
  }

  lemma CommitsThen(r: Resources)
    ensures Apply(Activating(r), OpCommit(1)) == Serving(r)
  {
  }

  const CLIMB := REGISTER + [Reserving(SLOT)] + [OpStage(1)] + [OpLoad(1)] + [OpValidate(1)] + [OpActivate(1)]
  const SERVE := CLIMB + [OpCommit(1)]

  lemma ClimbLeads()
    ensures Leads(CLIMB, Activating(SLOT))
  {
    hide Leads, Apply, Reserved, Climbing, Activating;
    ReserveOne(SLOT);
    ClimbsOn(SLOT);
    ActivatesThen(SLOT);
    var c1 := REGISTER + [Reserving(SLOT)];
    OneMorePlain(c1, OpStage(1), Reserved(SLOT));
    OneMorePlain(c1 + [OpStage(1)], OpLoad(1), Climbing(SLOT, DeploymentState.Staging));
    OneMorePlain(c1 + [OpStage(1)] + [OpLoad(1)], OpValidate(1), Climbing(SLOT, DeploymentState.Loaded));
    OneMorePlain(c1 + [OpStage(1)] + [OpLoad(1)] + [OpValidate(1)], OpActivate(1), Climbing(SLOT, DeploymentState.Validating));
  }

  lemma ServeLeads()
    ensures Leads(SERVE, Serving(SLOT))
  {
    hide Leads, Apply, Activating, Serving;
    ClimbLeads();
    CommitsThen(SLOT);
    OneMorePlain(CLIMB, OpCommit(1), Activating(SLOT));
  }

  // ---- a release that comes too early ----

  /** Retiring a device in use releases what its deployment goes on holding. */
  lemma EarlyReleaseHappens()
    ensures Conservation.ReleasesEarly(Run(START, SERVE), OpRetireDevice(1))
    ensures Conservation.Conserved(Run(START, SERVE))
    ensures !Conservation.Conserved(Run(START, SERVE + [OpRetireDevice(1)]))
  {
    hide Leads, Apply, Serving, Conservation.Unbalances, Conservation.ReleasesEarly, Conservation.Conserved;
    ServeLeads();
    ServingIsHit();
    LeadsThere(SERVE, Serving(SLOT));
    Breaks(SERVE, Serving(SLOT), OpRetireDevice(1));
  }

  lemma ServingIsHit()
    ensures Conservation.ReleasesEarly(Serving(SLOT), OpRetireDevice(1))
    ensures Conservation.Unbalances(Serving(SLOT), OpRetireDevice(1))
  {
    assert 1 in Serving(SLOT).deployments && Hits(DeviceRetired(1), Serving(SLOT).deployments[1]);
  }

  // ---- in service on a device that is not ready ----

  const LOST := DEVICE.WithStatus(DeviceLifecycle.Offline, false)

  ghost predicate Outlasts(op: Op) {
    && Devices.Unfenced(Run(START, SERVE), op) && Devices.InServiceIsReady(Run(START, SERVE))
    && !Devices.InServiceIsReady(Run(START, SERVE + [op]))
  }

  /** A deployment stays in service when its device is updated to a record that is not ready, when it is declared
      degraded, and when the worker that owns it is lost. */
  lemma ServiceOutlastsReadiness()
    ensures Outlasts(OpUpdateDevice(LOST)) && Outlasts(OpTransitionDevice(1, DeviceLifecycle.Degraded))
    ensures Outlasts(OpMarkWorkerLost(0))
  {
    hide Apply, Serving, Devices.Unfenced, Devices.InServiceIsReady, Leads;
    ServeLeads();
    LeadsThere(SERVE, Serving(SLOT));
    ServingIsReady();
    forall op ensures Run(START, SERVE + [op]) == Apply(Serving(SLOT), op) {
      assert (SERVE + [op])[..|SERVE|] == SERVE;
    }
    Devices.InServiceStep(Serving(SLOT), OpUpdateDevice(LOST));
    Devices.InServiceStep(Serving(SLOT), OpTransitionDevice(1, DeviceLifecycle.Degraded));
    Devices.InServiceStep(Serving(SLOT), OpMarkWorkerLost(0));
  }

  lemma ServingIsReady()
    ensures Devices.InServiceIsReady(Serving(SLOT))
    ensures Devices.Unfenced(Serving(SLOT), OpUpdateDevice(LOST))
    ensures Devices.Unfenced(Serving(SLOT), OpTransitionDevice(1, DeviceLifecycle.Degraded))
    ensures Devices.Unfenced(Serving(SLOT), OpMarkWorkerLost(0))
  {
    var s := Serving(SLOT);
    assert 1 in s.deployments && s.deployments[1].state.Active? && s.deployments[1].binding.device == 1;
    assert Devices.Serves(s, 1);
  }

  // ---- after a restart ----

  lemma DefaultsFit()
    ensures |DEFAULT_WEIGHTS| == 12 && forall i :: 0 <= i < |DEFAULT_WEIGHTS| ==> Layout.FitsI32(DEFAULT_WEIGHTS[i].weight)
  {
  }

  /** With one bare device and one deployment everything is within the format's bounds. */
  lemma OneIsSavable(s: State)
    requires s.devices == map[1 := DEVICE] && s.deviceOrder == [1] && s.services == map[] && s.programs == map[]
    requires |s.deployments| <= 1 && |s.usage| <= 1 && s.policy == DefaultPolicy(1)
    ensures Savable(s)
  {
    hide StorableTables, Layout.FitsI32;
    DefaultsFit();
    DeviceIsBare();
    assert Small(MakeSnapshot(s));
    SmallFits(MakeSnapshot(s));
  }

  lemma DeviceIsBare()
    ensures Sizes.Bare(DEVICE)
  {
  }

  lemma StartIsEmpty()
    ensures EmptyTables(START)
  {
  }

  /** What one new engine recovers from another that got as far as s. */
  lemma Recovers(ops: seq<Op>, s: State)
    requires Leads(ops, s) && Savable(s)
    ensures RecoverFrom(START, Some(FileOf(s))) == Outcome(Successor(START, s), Ok(true))
    ensures Successor(START, s).devices == RestartedDevices(s.devices)
    ensures Successor(START, s).deployments == RestartedDeployments(s.deployments)
    ensures Successor(START, s).ledgers == NewLedgers(s.devices) && Successor(START, s).idSeq == 1
    ensures Structured(MakeSnapshot(s))
  {
    hide RecoverFrom, FileOf, Savable, Structured, Successor, MakeSnapshot, Run, EmptyTables, Conservation.NeverUnbalanced;
    SnapshotsAreStructured(1, DefaultPolicy(1), ops);
    RecoverSaved(START, s);
    StartIsEmpty();
    SuccessorTables(START, s);
    RecoveryKeepsIds(START, FileOf(s));
  }

  const RESERVED_ONE := REGISTER + [Reserving(SLOT)]

  lemma ReservedIsSavable()
    ensures Savable(Reserved(SLOT))
  {
    hide Savable, NewDeployment;
    OneIsSavable(Reserved(SLOT));
  }

  /** One reservation, one restart: the deployment is back with its slot, and its device's account is empty. */
  lemma AccountsLagAfterRestart()
    ensures var s := Run(START, RESERVED_ONE);
            && Savable(s) && Conservation.Conserved(s)
            && !Conservation.Conserved(RecoverFrom(START, Some(FileOf(s))).state)
  {
    hide Leads, RecoverFrom, FileOf, Savable, Structured, Conservation.Conserved, Reserved, StillOwes, Coupling.Linked, Run;
    ReserveOne(SLOT);
    ReservedIsSavable();
    LeadsThere(RESERVED_ONE, Reserved(SLOT));
    Recovers(RESERVED_ONE, Reserved(SLOT));
    RestartConserves(START, Reserved(SLOT));
    ReservedOwes();
    NeverOff(RESERVED_ONE, Reserved(SLOT));
  }

  lemma NeverOff(ops: seq<Op>, s: State)
    requires Leads(ops, s) && |ops| <= 10
    ensures Conservation.Conserved(s)
  {
    hide Conservation.Conserved, Conservation.NeverUnbalanced, Run;
    Conservation.ConservedOnEveryRun(1, DefaultPolicy(1), ops);
  }

  lemma ReservedOwes()
    ensures StillOwes(START, Reserved(SLOT), 1)
  {
    assert (START.deployments + Reserved(SLOT).deployments)[1] == NewDeployment(Bound(1, SLOT));
  }

  // ---- an empty dereference ----

  lemma ActivatingIsSavable()
    ensures Savable(Activating(SLOT))
  {
    hide Savable;
    OneIsSavable(Activating(SLOT));
  }

  lemma UpdatedAgain(r: State)
    requires r.devices == RestartedDevices(map[1 := DEVICE])
    ensures var u := Apply(r, OpUpdateDevice(DEVICE));
            u == r.(devices := r.devices[1 := DEVICE]) && u.devices[1].ReadyForOffload()
  {
  }

  /** Saved while ACTIVATING, recovered, its device declared ready again: committing dereferences nothing. */
  lemma EmptyDereferenceHappens()
    ensures var s := Run(START, CLIMB);
            && Savable(s)
            && var r := RecoverFrom(START, Some(FileOf(s))).state;
               CommitDeployment(Apply(r, OpUpdateDevice(DEVICE)), 1).result == Err(EMPTY_DEREFERENCE)
  {
    hide Leads, RecoverFrom, FileOf, Savable, Structured, Successor, CommitDeployment, Run, Apply;
    ClimbLeads();
    ActivatingIsSavable();
    LeadsThere(CLIMB, Activating(SLOT));
    Recovers(CLIMB, Activating(SLOT));
    var r := Successor(START, Activating(SLOT));
    UpdatedAgain(r);
    DereferencesNothing(r, Apply(r, OpUpdateDevice(DEVICE)));
  }

  lemma DereferencesNothing(r: State, u: State)
    requires r.deployments == RestartedDeployments(Activating(SLOT).deployments)
    requires u.deployments == r.deployments && 1 in u.devices && u.devices[1].ReadyForOffload()
    ensures CommitDeployment(u, 1).result == Err(EMPTY_DEREFERENCE)
  {
    hide DeviceRecord.ReadyForOffload;
  }

  // ---- an id taken twice ----

  lemma UnboundedGrants(u: State)
    requires u.ledgers == NewLedgers(map[1 := DEVICE]) && 1 in u.devices && u.devices[1].ReadyForOffload()
    ensures Grants(u, Asking(NOTHING), Some(1))
  {
    hide DeviceRecord.ReadyForOffload;
  }

  /** The first reservation after the restart takes id 1 again and replaces the deployment that came back. */
  lemma DeploymentIsReplaced()
    ensures var s := Run(START, RESERVED_ONE);
            var r := Apply(RecoverFrom(START, Some(FileOf(s))).state, OpUpdateDevice(DEVICE));
            var o := ReserveDeployment(r, Asking(NOTHING), Some(1));
            && Savable(s) && o.result == Ok(1)
            && 1 in r.deployments && r.deployments[1].binding.resources == SLOT
            && 1 in o.state.deployments && o.state.deployments[1].binding.resources == NOTHING
  {
    hide Leads, RecoverFrom, FileOf, Savable, Structured, Successor, Run, Apply, ReserveDeployment, Grants;
    ReserveOne(SLOT);
    ReservedIsSavable();
    LeadsThere(RESERVED_ONE, Reserved(SLOT));
    Recovers(RESERVED_ONE, Reserved(SLOT));
    var r := Successor(START, Reserved(SLOT));
    UpdatedAgain(r);
    var u := Apply(r, OpUpdateDevice(DEVICE));
    UnboundedGrants(u);
    NextIdIsTaken(u, Asking(NOTHING), Some(1));
  }

  // ---- weights pile up ----

  const DEFAULT_LIFE := Life(1, DefaultPolicy(1), [])

  /** Lives in which nothing is done but recover and save. */
  function Idle(n: nat): seq<Life> {
    if n == 0 then [] else Idle(n - 1) + [DEFAULT_LIFE]
  }

  lemma {:induction false} IdleIsDefault(n: nat)
    ensures |Idle(n)| == n
    ensures forall i :: 0 <= i < n ==> Idle(n)[i] == DEFAULT_LIFE
  {
    if n > 0 {
      IdleIsDefault(n - 1);
    }
  }

  /** Nothing in the tables, and weights that fit the format one by one. */
  ghost predicate Vacant(s: State) {
    EmptyTables(s) && forall i :: 0 <= i < |s.policy.weights| ==> Layout.FitsI32(s.policy.weights[i].weight)
  }

  lemma VacantIsSavable(s: State)
    requires Vacant(s) && |s.policy.weights| <= FEW
    ensures WithinSizes(MakeSnapshot(s))
    ensures |s.policy.weights| <= Layout.MAX_WEIGHTS ==> Savable(s)
  {
    hide StorableTables, Layout.FitsI32;
    SmallFits(MakeSnapshot(s));
  }

  lemma VacantStart()
    ensures Vacant(START) && Orderly(START) && |START.policy.weights| == 12
  {
    hide Layout.FitsI32;
    DefaultsFit();
    assert Run(START, []) == START;
    hide Orderly, Run;
    OrderlyFromFresh(1, DefaultPolicy(1), []);
  }

  lemma VacantSuccessor(s: State)
    requires Vacant(s)
    ensures Vacant(Successor(START, s))
  {
    hide Successor, MergedPolicy, Layout.FitsI32, RestartedDevice, RestartedDeployment;
    StartIsEmpty();
    DefaultsFit();
    SuccessorTables(START, s);
    SuccessorPolicy(START, s);
    MergedFits(s.policy);
  }

  lemma MergedFits(p: Policy)
    requires forall i :: 0 <= i < |p.weights| ==> Layout.FitsI32(p.weights[i].weight)
    ensures var ws := MergedPolicy(START.policy, p).weights;
            forall i :: 0 <= i < |ws| ==> Layout.FitsI32(ws[i].weight)
  {
    DefaultsFit();
    hide Layout.FitsI32;
  }

  lemma VacantReborn(s: State)
    requires Vacant(s) && Orderly(s) && Savable(s)
    ensures Vacant(Reborn(s, DEFAULT_LIFE))
  {
    hide Vacant, Orderly, Savable, Successor, RecoverFrom, FileOf, Structured, MakeSnapshot;
    StructuredFrom(s);
    RecoverSaved(START, s);
    VacantSuccessor(s);
  }

  lemma {:induction false} IdleLives(n: nat)
    requires n <= 5
    ensures Restartable(START, Idle(n)) && Vacant(Lived(START, Idle(n)))
    ensures |Lived(START, Idle(n)).policy.weights| == 12 * (n + 1)
  {
    hide Vacant, Orderly, Savable, Reborn, MakeSnapshot, WithinSizes;
    VacantStart();
    IdleIsDefault(n);
    if n > 0 {
      assert Idle(n)[..n - 1] == Idle(n - 1) by {
        IdleIsDefault(n - 1);
      }
      IdleLives(n - 1);
      OrderlyInEveryLife(START, Idle(n - 1));
      VacantIsSavable(Lived(START, Idle(n - 1)));
      VacantReborn(Lived(START, Idle(n - 1)));
    }
    WeightsPileUp(START, Idle(n), 12);
  }

  /** An engine with the default policy, saved and recovered five times with nothing done in between, saves a file
      that no engine loads. */
  lemma SixthRestartFails(live: State)
    ensures Restartable(START, Idle(5)) && |Idle(5)| == 5
    ensures RecoverFrom(live, Some(FileOf(Lived(START, Idle(5))))).result == Err(CORRUPT_STATE)
  {
    hide Vacant, Orderly, Savable, Lived, MakeSnapshot, WithinSizes, RecoverFrom, FileOf, Restartable;
    VacantStart();
    IdleIsDefault(5);
    IdleLives(5);
    VacantIsSavable(Lived(START, Idle(5)));
    FiveRestartsAtMost(START, Idle(5), live);
  }
}
