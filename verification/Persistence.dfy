/** Saving a snapshot and loading it back: what survives a restart, and what does not. */
module Persistence {
  import opened Base
  import opened Resource
  import opened Records
  import opened Wire
  import opened Counted
  import opened Keys
  import opened Layout
  import opened Sizes
  import opened Coordinator
  import Store

  // ---- what is written ----

  function ListedIn(devices: map<u64, DeviceRecord>, order: seq<u64>): seq<u64> {
    if order == [] then []
    else
      var most := ListedIn(devices, order[..|order| - 1]);
      if order[|order| - 1] in devices then most + [order[|order| - 1]] else most
  }

  /** Device records go out in registration order. */
  function DeviceList(snap: Snapshot): seq<DeviceRecord> {
    ListedAreKnown(snap.devices, snap.deviceOrder);
    ValuesAt(snap.devices, ListedIn(snap.devices, snap.deviceOrder))
  }

  lemma {:induction false} ListedAreKnown(devices: map<u64, DeviceRecord>, order: seq<u64>)
    ensures forall d :: d in ListedIn(devices, order) ==> d in devices
    ensures (forall d :: d in order ==> d in devices) ==> ListedIn(devices, order) == order
    decreases |order|
  {
    if order != [] {
      ListedAreKnown(devices, order[..|order| - 1]);
      assert order == order[..|order| - 1] + [order[|order| - 1]];
    }
  }

  function ServiceList(snap: Snapshot): seq<ServiceDefinition> {
    ValuesAt(snap.services, Ascending(snap.services.Keys))
  }

  function DeploymentList(snap: Snapshot): seq<Deployment> {
    ValuesAt(snap.deployments, Ascending(snap.deployments.Keys))
  }

  function UsageEntries(usage: map<u64, Resources>): map<u64, StoredUsage> {
    map d | d in usage :: StoredUsage(d, usage[d])
  }

  function UsageList(snap: Snapshot): seq<StoredUsage> {
    ValuesAt(UsageEntries(snap.usage), Ascending(UsageEntries(snap.usage).Keys))
  }

  /** The generations of one program, each with the flag that says whether it is the current one. */
  function GenerationEntries(gens: map<u64, ProgramArtifact>, current: Option<u64>): map<u64, StoredGeneration> {
    map g | g in gens :: StoredGeneration(g, gens[g], current == Some(g))
  }

  function CurrentOf(current: map<u64, u64>, pid: u64): Option<u64> {
    if pid in current then Some(current[pid]) else None
  }

  function GenerationList(gens: map<u64, ProgramArtifact>, current: Option<u64>): seq<StoredGeneration> {
    ValuesAt(GenerationEntries(gens, current), Ascending(GenerationEntries(gens, current).Keys))
  }

  function ProgramEntries(programs: Programs, current: map<u64, u64>): map<u64, StoredProgram> {
    map pid | pid in programs :: StoredProgram(pid, GenerationList(programs[pid], CurrentOf(current, pid)))
  }

  function ProgramList(snap: Snapshot): seq<StoredProgram> {
    var entries := ProgramEntries(snap.programs, snap.currentProgramGen);
    ValuesAt(entries, Ascending(entries.Keys))
  }

  /** The device count is the size of the table, whatever the order lists. */
  function PutDevices(snap: Snapshot, t: seq<byte>): seq<byte> {
    PutU32(|snap.devices| % TWO_32, PutMany(PutDevice, DeviceList(snap), t))
  }

  function PutServices(snap: Snapshot, t: seq<byte>): seq<byte> {
    PutCounted(PutService, ServiceList(snap), t)
  }

  function PutPrograms(snap: Snapshot, t: seq<byte>): seq<byte> {
    PutCounted(PutStoredProgram, ProgramList(snap), t)
  }

  function PutDeployments(snap: Snapshot, t: seq<byte>): seq<byte> {
    PutCounted(PutDeployment, DeploymentList(snap), t)
  }

  function PutUsages(snap: Snapshot, t: seq<byte>): seq<byte> {
    PutCounted(PutUsage, UsageList(snap), t)
  }

  /** The payload that save writes. */
  function Payload(snap: Snapshot): seq<byte> {
    PutU64(snap.epoch, PutPolicy(snap.policy, PutDevices(snap, PutServices(snap, PutPrograms(snap,
    PutDeployments(snap, PutUsages(snap, [])))))))
  }

  // ---- what is read ----

  datatype Tables = Tables(
    devices: seq<DeviceRecord>, services: seq<ServiceDefinition>, programs: seq<StoredProgram>,
    deployments: seq<Deployment>, usage: seq<StoredUsage>)

  datatype Stored = Stored(epoch: u64, policy: Policy, tables: Tables)

  function GetDevices(bs: seq<byte>): Result<Taken<seq<DeviceRecord>>> {
    GetCounted(GetDevice, MAX_CONTAINER_COUNT, bs)
  }

  function GetServices(bs: seq<byte>): Result<Taken<seq<ServiceDefinition>>> {
    GetCounted(GetService, MAX_CONTAINER_COUNT, bs)
  }

  function GetPrograms(bs: seq<byte>): Result<Taken<seq<StoredProgram>>> {
    GetCounted(GetStoredProgram, MAX_CONTAINER_COUNT, bs)
  }

  function GetDeployments(bs: seq<byte>): Result<Taken<seq<Deployment>>> {
    GetCounted(GetDeployment, MAX_CONTAINER_COUNT, bs)
  }

  function GetUsages(bs: seq<byte>): Result<Taken<seq<StoredUsage>>> {
    GetCounted(GetUsage, MAX_CONTAINER_COUNT, bs)
  }

  function GetTables(bs: seq<byte>): Result<Taken<Tables>> {
    hide GetDevices, GetServices, GetPrograms, GetDeployments, GetUsages;
    var devices :- GetDevices(bs);
    var services :- GetServices(devices.rest);
    var programs :- GetPrograms(services.rest);
    var deployments :- GetDeployments(programs.rest);
    var usage :- GetUsages(deployments.rest);
    Ok(Taken(Tables(devices.value, services.value, programs.value, deployments.value, usage.value), usage.rest))
  }

  /** The payload that load reads. */
  function GetStored(bs: seq<byte>): Result<Stored> {
    hide GetU64, GetPolicy, GetTables;
    var epoch :- GetU64(bs);
    var policy :- GetPolicy(epoch.rest);
    var tables :- GetTables(policy.rest);
    if tables.rest != [] then Err(PROTOCOL_ERROR) else Ok(Stored(epoch.value, policy.value, tables.value))
  }

  // ---- well-formed snapshots ----

  /** The parts of a snapshot that the engine itself keeps in order. */
  ghost predicate Structured(snap: Snapshot) {
    && Distinct(snap.deviceOrder) && (forall d :: d in snap.deviceOrder <==> d in snap.devices)
    && (forall d :: d in snap.devices ==> snap.devices[d].identity.deviceId == d)
    && (forall v :: v in snap.services ==> snap.services[v].serviceId == v)
    && (forall k :: k in snap.deployments ==> snap.deployments[k].binding.deploymentId == k)
    && (forall p :: p in snap.programs ==> snap.programs[p] != map[])
    && CurrentKnown(snap.programs, snap.currentProgramGen)
  }

  /** A current generation is one of the program's generations. */
  ghost predicate CurrentKnown(programs: Programs, current: map<u64, u64>) {
    forall p :: p in current ==> p in programs && current[p] in programs[p]
  }

  /** The bounds that the format sets: sizes, strings, keys and checked codes. */
  ghost predicate WithinBounds(snap: Snapshot) {
    StorableTables(snap) && StorableWeights(snap.policy.weights)
  }

  /** The same, but for the number of policy weights. */
  ghost predicate WithinSizes(snap: Snapshot) {
    StorableTables(snap) && forall i :: 0 <= i < |snap.policy.weights| ==> FitsI32(snap.policy.weights[i].weight)
  }

  ghost predicate StorableTables(snap: Snapshot) {
    && |snap.devices| <= MAX_CONTAINER_COUNT && |snap.services| <= MAX_CONTAINER_COUNT
    && |snap.programs| <= MAX_CONTAINER_COUNT && |snap.deployments| <= MAX_CONTAINER_COUNT
    && |snap.usage| <= MAX_CONTAINER_COUNT
    && (forall d :: d in snap.devices ==> StorableDevice(snap.devices[d]))
    && (forall v :: v in snap.services ==> StorableService(snap.services[v]))
    && (forall p :: p in snap.programs ==> StorableVersions(snap.programs[p]))
    && Store.FitsFile(Payload(snap))
  }

  ghost predicate StorableVersions(gens: map<u64, ProgramArtifact>) {
    |gens| <= MAX_GENERATIONS && forall g :: g in gens ==> StorableProgram(gens[g])
  }

  // ---- each table reads back as the list that was written ----

  lemma DevicesExact(snap: Snapshot, t: seq<byte>)
    requires Structured(snap) && WithinBounds(snap)
    ensures GetDevices(PutDevices(snap, t)) == Ok(Taken(DeviceList(snap), t))
  {
    var list := DeviceList(snap);
    hide Payload, PutMany, GetCounted, PutDevice, GetDevice, StorableDevice, PutU32, Exact, StorableVersions,
         StorableWeights, StorableService;
    ListedAreKnown(snap.devices, snap.deviceOrder);
    DistinctLength(snap.deviceOrder, snap.devices.Keys);
    forall i | 0 <= i < |list| ensures Exact(PutDevice, GetDevice, list[i]) {
      assert list[i] == snap.devices[snap.deviceOrder[i]];
      DeviceExact(list[i]);
    }
    CountedExact(PutDevice, GetDevice, MAX_CONTAINER_COUNT, list, t);
  }

  lemma DeviceExact(d: DeviceRecord)
    requires StorableDevice(d)
    ensures Exact(PutDevice, GetDevice, d)
  {
    hide PutDevice, GetDevice, StorableDevice;
  }

  lemma {:induction false} DistinctLength(xs: seq<u64>, s: set<u64>)
    requires Distinct(xs) && forall x :: x in xs <==> x in s
    ensures |xs| == |s|
    decreases |xs|
  {
    if xs == [] {
      assert s == {};
    } else {
      var most, last := xs[..|xs| - 1], xs[|xs| - 1];
      assert xs == most + [last];
      LastIsNew(xs);
      DistinctLength(most, s - {last});
    }
  }

  lemma ServicesExact(snap: Snapshot, t: seq<byte>)
    requires WithinBounds(snap)
    ensures GetServices(PutServices(snap, t)) == Ok(Taken(ServiceList(snap), t))
  {
    var list, keys := ServiceList(snap), Ascending(snap.services.Keys);
    hide Payload, PutCounted, GetCounted, PutService, GetService, StorableService, StorableDevice, Exact, StorableVersions,
         StorableWeights;
    forall i | 0 <= i < |list| ensures Exact(PutService, GetService, list[i]) {
      assert keys[i] in snap.services;
      ServiceExact(list[i]);
    }
    CountedExact(PutService, GetService, MAX_CONTAINER_COUNT, list, t);
  }

  lemma ServiceExact(s: ServiceDefinition)
    requires StorableService(s)
    ensures Exact(PutService, GetService, s)
  {
    hide PutService, GetService, StorableService;
  }

  lemma DeploymentsExact(snap: Snapshot, t: seq<byte>)
    requires |snap.deployments| <= MAX_CONTAINER_COUNT
    ensures GetDeployments(PutDeployments(snap, t)) == Ok(Taken(DeploymentList(snap), t))
  {
    var list := DeploymentList(snap);
    hide PutCounted, GetCounted, PutDeployment, GetDeployment;
    forall i | 0 <= i < |list| ensures Exact(PutDeployment, GetDeployment, list[i]) {
    }
    CountedExact(PutDeployment, GetDeployment, MAX_CONTAINER_COUNT, list, t);
  }

  lemma UsageExact(snap: Snapshot, t: seq<byte>)
    requires |snap.usage| <= MAX_CONTAINER_COUNT
    ensures GetUsages(PutUsages(snap, t)) == Ok(Taken(UsageList(snap), t))
  {
    var list := UsageList(snap);
    hide PutCounted, GetCounted, PutUsage, GetUsage;
    assert UsageEntries(snap.usage).Keys == snap.usage.Keys;
    forall i | 0 <= i < |list| ensures Exact(PutUsage, GetUsage, list[i]) {
    }
    CountedExact(PutUsage, GetUsage, MAX_CONTAINER_COUNT, list, t);
  }

  lemma ProgramsExact(snap: Snapshot, t: seq<byte>)
    requires WithinBounds(snap)
    ensures GetPrograms(PutPrograms(snap, t)) == Ok(Taken(ProgramList(snap), t))
  {
    var entries := ProgramEntries(snap.programs, snap.currentProgramGen);
    var list, keys := ProgramList(snap), Ascending(entries.Keys);
    hide Payload, PutCounted, GetCounted, PutStoredProgram, GetStoredProgram, StorableService, StorableDevice, Exact,
         StorableVersions, StorableWeights, GenerationList, CurrentOf, StorableGenerations;
    assert entries.Keys == snap.programs.Keys;
    forall i | 0 <= i < |list| ensures Exact(PutStoredProgram, GetStoredProgram, list[i]) {
      var pid := keys[i];
      assert pid in snap.programs;
      GenerationsStorable(pid, snap.programs[pid], CurrentOf(snap.currentProgramGen, pid));
      StoredProgramExact(list[i]);
    }
    CountedExact(PutStoredProgram, GetStoredProgram, MAX_CONTAINER_COUNT, list, t);
  }

  lemma GenerationsStorable(pid: u64, gens: map<u64, ProgramArtifact>, current: Option<u64>)
    requires StorableVersions(gens)
    ensures StorableGenerations(StoredProgram(pid, GenerationList(gens, current)))
  {
    hide StorableProgram;
    var entries := GenerationEntries(gens, current);
    assert entries.Keys == gens.Keys;
    var keys := Ascending(entries.Keys);
    forall i | 0 <= i < |keys| ensures StorableProgram(GenerationList(gens, current)[i].artifact) {
      assert keys[i] in gens;
    }
  }

  /** The lists that load reads back. */
  function Listing(snap: Snapshot): Stored {
    Stored(snap.epoch, snap.policy.(hardCaps := [], preferredDevices := []),
           Tables(DeviceList(snap), ServiceList(snap), ProgramList(snap), DeploymentList(snap), UsageList(snap)))
  }

  /** The payload with something behind it. */
  function PayloadThen(snap: Snapshot, t: seq<byte>): seq<byte> {
    PutU64(snap.epoch, PutPolicy(snap.policy, PutDevices(snap, PutServices(snap, PutPrograms(snap,
    PutDeployments(snap, PutUsages(snap, t)))))))
  }

  /** A payload is read to its end: whatever stands behind it makes it unreadable. */
  lemma NothingLeftOver(snap: Snapshot, t: seq<byte>)
    requires Structured(snap) && WithinBounds(snap)
    ensures GetStored(PayloadThen(snap, t)) == if t == [] then Ok(Listing(snap)) else Err(PROTOCOL_ERROR)
  {
    hide PutDevices, GetDevices, PutServices, GetServices, PutPrograms, GetPrograms, PutDeployments, GetDeployments,
         PutUsages, GetUsages, PutU64, GetU64, PutPolicy, GetPolicy, DeviceList, ServiceList, ProgramList, DeploymentList,
         UsageList, Structured, StorableWeights, StorableDevice, StorableService, StorableVersions;
    var t4 := PutUsages(snap, t);
    var t3 := PutDeployments(snap, t4);
    var t2 := PutPrograms(snap, t3);
    var t1 := PutServices(snap, t2);
    DevicesExact(snap, t1);
    ServicesExact(snap, t2);
    ProgramsExact(snap, t3);
    DeploymentsExact(snap, t4);
    UsageExact(snap, t);
  }

  lemma PayloadRead(snap: Snapshot)
    requires Structured(snap) && WithinBounds(snap)
    ensures GetStored(Payload(snap)) == Ok(Listing(snap))
  {
    hide GetStored, Structured, WithinBounds, Listing, PutU64, PutPolicy, PutDevices, PutServices, PutPrograms, PutDeployments,
         PutUsages;
    NothingLeftOver(snap, []);
  }

  // ---- entering what was read into the live tables ----

  function IdOf(d: DeviceRecord): u64 {
    d.identity.deviceId
  }

  function ServiceIdOf(s: ServiceDefinition): u64 {
    s.serviceId
  }

  function DeploymentIdOf(d: Deployment): u64 {
    d.binding.deploymentId
  }

  function DeviceIds(devs: seq<DeviceRecord>): seq<u64> {
    seq(|devs|, i requires 0 <= i < |devs| => IdOf(devs[i]))
  }

  /** A ledger that is already there is kept. */
  function EnterLedger(ledgers: map<u64, Ledger>, d: DeviceRecord): map<u64, Ledger> {
    if IdOf(d) in ledgers then ledgers else ledgers[IdOf(d) := Ledger(d.capacity.resources, NOTHING)]
  }

  function EnterLedgers(ledgers: map<u64, Ledger>, devs: seq<DeviceRecord>): map<u64, Ledger>
    decreases |devs|
  {
    if devs == [] then ledgers else EnterLedger(EnterLedgers(ledgers, devs[..|devs| - 1]), devs[|devs| - 1])
  }

  function EnterUsage(usage: map<u64, Resources>, us: seq<StoredUsage>): map<u64, Resources>
    decreases |us|
  {
    if us == [] then usage else EnterUsage(usage, us[..|us| - 1])[us[|us| - 1].device := us[|us| - 1].used]
  }

  datatype ProgramTables = ProgramTables(programs: Programs, current: map<u64, u64>)

  function EnterGeneration(t: ProgramTables, pid: u64, g: StoredGeneration): ProgramTables {
    var gens := if pid in t.programs then t.programs[pid] else map[];
    ProgramTables(t.programs[pid := gens[g.generation := g.artifact]],
                  if g.current then t.current[pid := g.generation] else t.current)
  }

  function EnterGenerations(t: ProgramTables, pid: u64, gs: seq<StoredGeneration>): ProgramTables
    decreases |gs|
  {
    if gs == [] then t else EnterGeneration(EnterGenerations(t, pid, gs[..|gs| - 1]), pid, gs[|gs| - 1])
  }

  function EnterPrograms(t: ProgramTables, ps: seq<StoredProgram>): ProgramTables
    decreases |ps|
  {
    if ps == [] then t
    else EnterGenerations(EnterPrograms(t, ps[..|ps| - 1]), ps[|ps| - 1].programId, ps[|ps| - 1].generations)
  }

  function MergedPolicy(live: Policy, stored: Policy): Policy {
    stored.(weights := live.weights + stored.weights, hardCaps := live.hardCaps, preferredDevices := live.preferredDevices)
  }

  function WithPolicy(live: State, epoch: u64, policy: Policy): State {
    live.(epoch := if epoch < 1 then 1 else epoch, policy := MergedPolicy(live.policy, policy))
  }

  function WithDevices(live: State, list: seq<DeviceRecord>): State {
    live.(devices := live.devices + Indexed<u64, DeviceRecord>(IdOf, list), deviceOrder := live.deviceOrder + DeviceIds(list),
          ledgers := EnterLedgers(live.ledgers, list))
  }

  function WithServices(live: State, list: seq<ServiceDefinition>): State {
    live.(services := live.services + Indexed<u64, ServiceDefinition>(ServiceIdOf, list))
  }

  function WithPrograms(live: State, list: seq<StoredProgram>): State {
    var entered := EnterPrograms(ProgramTables(live.programs, live.currentProgramGen), list);
    live.(programs := entered.programs, currentProgramGen := entered.current)
  }

  function WithDeployments(live: State, list: seq<Deployment>): State {
    live.(deployments := live.deployments + Indexed<u64, Deployment>(DeploymentIdOf, list))
  }

  function WithUsages(live: State, list: seq<StoredUsage>): State {
    live.(usage := EnterUsage(live.usage, list))
  }

  function WithTables(live: State, t: Tables): State {
    WithUsages(WithDeployments(WithPrograms(WithServices(WithDevices(live, t.devices), t.services), t.programs),
                               t.deployments), t.usage)
  }

  /** The live state after everything that was read has been entered. */
  function Filled(live: State, st: Stored): State {
    WithTables(WithPolicy(live, st.epoch, st.policy), st.tables)
  }

  // ---- the fence after loading ----

  function RestartedDevice(d: DeviceRecord): DeviceRecord {
    var l := d.status.lifecycle;
    d.WithStatus(if l.Retired? || l.Failed? || l.Offline? then l else DeviceLifecycle.RevalidationRequired, false)
  }

  function RestartedDeployment(d: Deployment): Deployment {
    d.(state := if d.state.Active? || d.state.Degraded? || d.state.Draining? then DeploymentState.RevalidationRequired else d.state,
       authoritative := false, activation := None)
  }

  function RestartedDevices(devices: map<u64, DeviceRecord>): map<u64, DeviceRecord> {
    map d | d in devices :: RestartedDevice(devices[d])
  }

  function RestartedDeployments(deployments: map<u64, Deployment>): map<u64, Deployment> {
    map k | k in deployments :: RestartedDeployment(deployments[k])
  }

  function Restarted(s: State): State {
    s.(devices := RestartedDevices(s.devices), deployments := RestartedDeployments(s.deployments), activations := map[])
  }

  /** PersistenceStore::load on the bytes of an existing file. */
  function Load(live: State, file: seq<byte>): Result<State> {
    var payload :- Store.Opened(file);
    var stored :- GetStored(payload);
    Ok(Restarted(Filled(live, stored)))
  }

  // ---- the round trip ----

  function NewLedgers(devices: map<u64, DeviceRecord>): map<u64, Ledger> {
    map d | d in devices :: Ledger(devices[d].capacity.resources, NOTHING)
  }

  function GenerationsIn(programs: Programs, pid: u64): map<u64, ProgramArtifact> {
    if pid in programs then programs[pid] else map[]
  }

  /** Generations are added to those that a program already has. */
  function JoinedPrograms(live: Programs, stored: Programs): Programs {
    map p | p in live.Keys + stored.Keys :: GenerationsIn(live, p) + GenerationsIn(stored, p)
  }

  /** The live state joined by the tables of a snapshot: stored records win over live ones, lists are appended,
      a ledger that is already there is kept, and what is not stored stays. */
  function Joined(live: State, snap: Snapshot): State {
    live.(epoch := if snap.epoch < 1 then 1 else snap.epoch, policy := MergedPolicy(live.policy, snap.policy),
          devices := live.devices + snap.devices, deviceOrder := live.deviceOrder + snap.deviceOrder,
          ledgers := NewLedgers(snap.devices) + live.ledgers, services := live.services + snap.services,
          programs := JoinedPrograms(live.programs, snap.programs),
          currentProgramGen := live.currentProgramGen + snap.currentProgramGen,
          deployments := live.deployments + snap.deployments, usage := live.usage + snap.usage)
  }

  lemma {:induction false} LedgersEntered(base: map<u64, Ledger>, devices: map<u64, DeviceRecord>, keys: seq<u64>)
    requires forall k :: k in keys ==> k in devices && IdOf(devices[k]) == k
    ensures var r := EnterLedgers(base, ValuesAt(devices, keys));
            && (forall k :: k in r <==> k in base || k in keys)
            && forall k :: k in r ==> r[k] == if k in base then base[k] else Ledger(devices[k].capacity.resources, NOTHING)
    decreases |keys|
  {
    if keys != [] {
      var most := keys[..|keys| - 1];
      LedgersEntered(base, devices, most);
      assert ValuesAt(devices, keys)[..|keys| - 1] == ValuesAt(devices, most);
      assert keys == most + [keys[|keys| - 1]];
    }
  }

  lemma {:induction false} UsageEntered(base: map<u64, Resources>, usage: map<u64, Resources>, keys: seq<u64>)
    requires forall k :: k in keys ==> k in usage
    ensures var r := EnterUsage(base, ValuesAt(UsageEntries(usage), keys));
            && (forall k :: k in r <==> k in base || k in keys)
            && forall k :: k in r ==> r[k] == if k in keys then usage[k] else base[k]
    decreases |keys|
  {
    if keys != [] {
      var most := keys[..|keys| - 1];
      UsageEntered(base, usage, most);
      assert ValuesAt(UsageEntries(usage), keys)[..|keys| - 1] == ValuesAt(UsageEntries(usage), most);
      assert keys == most + [keys[|keys| - 1]];
    }
  }

  /** r is t with the generations in keys entered under program pid. */
  ghost predicate HasGenerations(t: ProgramTables, r: ProgramTables, pid: u64, gens: map<u64, ProgramArtifact>,
                                 current: Option<u64>, keys: seq<u64>) {
    var were := GenerationsIn(t.programs, pid);
    && pid in r.programs && r.programs == t.programs[pid := r.programs[pid]]
    && (forall g :: g in r.programs[pid] <==> g in were || g in keys)
    && (forall g :: g in keys ==> g in gens)
    && (forall g :: g in r.programs[pid] ==> r.programs[pid][g] == if g in keys then gens[g] else were[g])
    && r.current == if current.Some? && current.value in keys then t.current[pid := current.value] else t.current
  }

  lemma GenerationEntered(t: ProgramTables, r: ProgramTables, pid: u64, gens: map<u64, ProgramArtifact>,
                          current: Option<u64>, most: seq<u64>, g: u64)
    requires g in gens
    requires if most == [] then r == t else HasGenerations(t, r, pid, gens, current, most)
    ensures HasGenerations(t, EnterGeneration(r, pid, StoredGeneration(g, gens[g], current == Some(g))), pid, gens, current, most + [g])
  {
  }

  lemma {:induction false} GenerationsEntered(t: ProgramTables, pid: u64, gens: map<u64, ProgramArtifact>, current: Option<u64>, keys: seq<u64>)
    requires keys != []
    requires forall g :: g in keys ==> g in gens
    ensures HasGenerations(t, EnterGenerations(t, pid, ValuesAt(GenerationEntries(gens, current), keys)), pid, gens, current, keys)
    decreases |keys|
  {
    hide HasGenerations, EnterGeneration;
    var most, last := keys[..|keys| - 1], keys[|keys| - 1];
    var list := ValuesAt(GenerationEntries(gens, current), keys);
    assert list[..|keys| - 1] == ValuesAt(GenerationEntries(gens, current), most);
    assert keys == most + [last];
    if most != [] {
      GenerationsEntered(t, pid, gens, current, most);
    }
    GenerationEntered(t, EnterGenerations(t, pid, list[..|keys| - 1]), pid, gens, current, most, last);
  }

  /** r is t joined by the programs listed in keys. */
  ghost predicate Entered(t: ProgramTables, r: ProgramTables, programs: Programs, current: map<u64, u64>, keys: seq<u64>) {
    EnteredPrograms(t.programs, r.programs, programs, keys) && EnteredCurrent(t.current, r.current, current, keys)
  }

  ghost predicate EnteredPrograms(t: Programs, r: Programs, programs: Programs, keys: seq<u64>) {
    && (forall p :: p in keys ==> p in programs)
    && (forall p :: p in r <==> p in t || p in keys)
    && (forall p :: p in r ==> r[p] == if p in keys then GenerationsIn(t, p) + programs[p] else t[p])
  }

  ghost predicate EnteredCurrent(t: map<u64, u64>, r: map<u64, u64>, current: map<u64, u64>, keys: seq<u64>) {
    && (forall p :: p in r <==> p in t || (p in keys && p in current))
    && (forall p :: p in r ==> r[p] == if p in keys && p in current then current[p] else t[p])
  }

  /** ps are the stored forms of the programs in keys. */
  ghost predicate Lists(ps: seq<StoredProgram>, programs: Programs, current: map<u64, u64>, keys: seq<u64>) {
    && |ps| == |keys|
    && forall i :: 0 <= i < |keys| ==>
         keys[i] in programs && programs[keys[i]] != map[]
         && ps[i] == StoredProgram(keys[i], GenerationList(programs[keys[i]], CurrentOf(current, keys[i])))
  }

  lemma {:induction false} ProgramsEntered(t: ProgramTables, ps: seq<StoredProgram>, programs: Programs, current: map<u64, u64>, keys: seq<u64>)
    requires Distinct(keys) && Lists(ps, programs, current, keys)
    requires CurrentKnown(programs, current)
    ensures Entered(t, EnterPrograms(t, ps), programs, current, keys)
    decreases |keys|
  {
    hide Entered, EnterGenerations, GenerationList, CurrentOf, Distinct, CurrentKnown;
    if keys == [] {
      NothingEntered(t, programs, current);
    } else {
      LastIsNew(keys);
      var most, last := keys[..|keys| - 1], |keys| - 1;
      assert ps[last] == StoredProgram(keys[last], GenerationList(programs[keys[last]], CurrentOf(current, keys[last])));
      ProgramsEntered(t, ps[..last], programs, current, most);
      OneProgramEntered(t, EnterPrograms(t, ps[..last]), programs, current, most, keys[last]);
      assert most + [keys[last]] == keys;
    }
  }

  lemma NothingEntered(t: ProgramTables, programs: Programs, current: map<u64, u64>)
    ensures Entered(t, t, programs, current, [])
  {
  }

  lemma LastIsNew(xs: seq<u64>)
    requires Distinct(xs) && xs != []
    ensures Distinct(xs[..|xs| - 1]) && xs[|xs| - 1] !in xs[..|xs| - 1]
  {
    assert forall i :: 0 <= i < |xs| - 1 ==> xs[..|xs| - 1][i] == xs[i];
  }

  lemma OneProgramEntered(t: ProgramTables, r: ProgramTables, programs: Programs, current: map<u64, u64>, keys: seq<u64>, pid: u64)
    requires Entered(t, r, programs, current, keys) && pid !in keys && pid in programs && programs[pid] != map[]
    requires CurrentKnown(programs, current)
    ensures Entered(t, EnterGenerations(r, pid, GenerationList(programs[pid], CurrentOf(current, pid))), programs, current, keys + [pid])
  {
    var gens, cur := programs[pid], CurrentOf(current, pid);
    var entries := GenerationEntries(gens, cur);
    assert entries.Keys == gens.Keys;
    var order := Ascending(entries.Keys);
    assert order != [] by {
      var g :| g in gens;
      assert g in order;
    }
    var after := EnterGenerations(r, pid, GenerationList(gens, cur));
    hide Entered, EnterGenerations, Ascending;
    GenerationsEntered(r, pid, gens, cur, order);
    WholeProgram(t, r, after, programs, current, keys, pid, order);
  }

  lemma WholeProgram(t: ProgramTables, r: ProgramTables, after: ProgramTables, programs: Programs, current: map<u64, u64>,
                     keys: seq<u64>, pid: u64, order: seq<u64>)
    requires Entered(t, r, programs, current, keys) && pid !in keys && pid in programs
    requires CurrentKnown(programs, current)
    requires HasGenerations(r, after, pid, programs[pid], CurrentOf(current, pid), order)
    requires forall g :: g in order <==> g in programs[pid]
    ensures Entered(t, after, programs, current, keys + [pid])
  {
    hide EnteredPrograms, EnteredCurrent, GenerationsIn, CurrentKnown;
    KnownOne(programs, current, pid);
    WholeTable(t.programs, r.programs, after.programs, programs, keys, pid, order);
    WholeCurrent(t.current, r.current, after.current, current, keys, pid);
  }

  lemma KnownOne(programs: Programs, current: map<u64, u64>, pid: u64)
    requires CurrentKnown(programs, current)
    ensures pid in current ==> pid in programs && current[pid] in programs[pid]
  {
  }

  lemma WholeTable(t: Programs, r: Programs, after: Programs, programs: Programs, keys: seq<u64>, pid: u64, order: seq<u64>)
    requires EnteredPrograms(t, r, programs, keys) && pid !in keys && pid in programs && pid in after
    requires after == r[pid := after[pid]]
    requires forall g :: g in order <==> g in programs[pid]
    requires forall g :: g in after[pid] <==> g in GenerationsIn(r, pid) || g in order
    requires forall g :: g in after[pid] ==> after[pid][g] == if g in order then programs[pid][g] else GenerationsIn(r, pid)[g]
    ensures EnteredPrograms(t, after, programs, keys + [pid])
  {
    assert GenerationsIn(r, pid) == GenerationsIn(t, pid);
    GenerationsWhole(GenerationsIn(t, pid), after[pid], programs[pid], order);
  }

  lemma WholeCurrent(t: map<u64, u64>, r: map<u64, u64>, after: map<u64, u64>, current: map<u64, u64>, keys: seq<u64>, pid: u64)
    requires EnteredCurrent(t, r, current, keys) && pid !in keys
    requires after == if pid in current then r[pid := current[pid]] else r
    ensures EnteredCurrent(t, after, current, keys + [pid])
  {
  }

  lemma GenerationsWhole(were: map<u64, ProgramArtifact>, now: map<u64, ProgramArtifact>, gens: map<u64, ProgramArtifact>, order: seq<u64>)
    requires forall g :: g in order <==> g in gens
    requires forall g :: g in now <==> g in were || g in order
    requires forall g :: g in now ==> now[g] == if g in order then gens[g] else were[g]
    ensures now == were + gens
  {
    assert now.Keys == (were + gens).Keys;
  }

  lemma FilledJoins(live: State, snap: Snapshot)
    requires Structured(snap)
    ensures Filled(live, Listing(snap)) == Joined(live, snap)
  {
    hide EnterPrograms, EnterLedgers, EnterUsage, Indexed, DeviceList, ServiceList, DeploymentList, ProgramList, UsageList,
         DeviceIds, NewLedgers, Structured, JoinedPrograms;
    DevicesBack(live.ledgers, snap);
    ServicesBack(snap);
    DeploymentsBack(snap);
    UsageBack(live.usage, snap);
    ProgramTablesBack(ProgramTables(live.programs, live.currentProgramGen), snap);
  }

  lemma DevicesBack(base: map<u64, Ledger>, snap: Snapshot)
    requires Structured(snap)
    ensures Indexed<u64, DeviceRecord>(IdOf, DeviceList(snap)) == snap.devices
    ensures DeviceIds(DeviceList(snap)) == snap.deviceOrder
    ensures EnterLedgers(base, DeviceList(snap)) == NewLedgers(snap.devices) + base
  {
    ListedAreKnown(snap.devices, snap.deviceOrder);
    DeviceTablesBack(base, snap.devices, snap.deviceOrder);
    hide EnterLedgers, Indexed, NewLedgers, DeviceIds;
  }

  lemma DeviceTablesBack(base: map<u64, Ledger>, devices: map<u64, DeviceRecord>, order: seq<u64>)
    requires forall d :: d in order <==> d in devices
    requires forall d :: d in devices ==> IdOf(devices[d]) == d
    ensures Indexed<u64, DeviceRecord>(IdOf, ValuesAt(devices, order)) == devices
    ensures DeviceIds(ValuesAt(devices, order)) == order
    ensures EnterLedgers(base, ValuesAt(devices, order)) == NewLedgers(devices) + base
  {
    hide EnterLedgers, Indexed;
    IndexedListing(IdOf, devices, order);
    LedgersEntered(base, devices, order);
    assert EnterLedgers(base, ValuesAt(devices, order)).Keys == (NewLedgers(devices) + base).Keys;
  }

  lemma ServicesBack(snap: Snapshot)
    requires Structured(snap)
    ensures Indexed<u64, ServiceDefinition>(ServiceIdOf, ServiceList(snap)) == snap.services
  {
    hide Indexed, Ascending;
    IndexedListing(ServiceIdOf, snap.services, Ascending(snap.services.Keys));
  }

  lemma DeploymentsBack(snap: Snapshot)
    requires Structured(snap)
    ensures Indexed<u64, Deployment>(DeploymentIdOf, DeploymentList(snap)) == snap.deployments
  {
    hide Indexed, Ascending;
    IndexedListing(DeploymentIdOf, snap.deployments, Ascending(snap.deployments.Keys));
  }

  lemma UsageBack(base: map<u64, Resources>, snap: Snapshot)
    ensures EnterUsage(base, UsageList(snap)) == base + snap.usage
  {
    hide EnterUsage, Ascending;
    assert UsageEntries(snap.usage).Keys == snap.usage.Keys;
    UsageEntered(base, snap.usage, Ascending(snap.usage.Keys));
    assert EnterUsage(base, UsageList(snap)).Keys == (base + snap.usage).Keys;
  }

  lemma ProgramsListed(programs: Programs, current: map<u64, u64>)
    requires forall p :: p in programs ==> programs[p] != map[]
    ensures var entries := ProgramEntries(programs, current);
            var keys := Ascending(entries.Keys);
            && Distinct(keys) && (forall p :: p in keys <==> p in programs)
            && Lists(ValuesAt(entries, keys), programs, current, keys)
  {
    hide Ascending, GenerationList, CurrentOf;
    assert ProgramEntries(programs, current).Keys == programs.Keys;
  }

  lemma ProgramsBack(t: ProgramTables, programs: Programs, current: map<u64, u64>)
    requires forall p :: p in programs ==> programs[p] != map[]
    requires CurrentKnown(programs, current)
    ensures var entries := ProgramEntries(programs, current);
            EnterPrograms(t, ValuesAt(entries, Ascending(entries.Keys))) ==
            ProgramTables(JoinedPrograms(t.programs, programs), t.current + current)
  {
    hide EnterPrograms, Ascending, Entered, ProgramEntries, CurrentKnown, Lists, Distinct, JoinedPrograms;
    ProgramsListed(programs, current);
    var entries := ProgramEntries(programs, current);
    var keys := Ascending(entries.Keys);
    var ps := ValuesAt(entries, keys);
    ProgramsEntered(t, ps, programs, current, keys);
    AllEntered(t, EnterPrograms(t, ps), programs, current, keys);
  }

  lemma ProgramTablesBack(t: ProgramTables, snap: Snapshot)
    requires Structured(snap)
    ensures EnterPrograms(t, ProgramList(snap)) ==
            ProgramTables(JoinedPrograms(t.programs, snap.programs), t.current + snap.currentProgramGen)
  {
    hide EnterPrograms, Ascending, ProgramEntries, CurrentKnown, JoinedPrograms;
    ProgramsBack(t, snap.programs, snap.currentProgramGen);
  }

  lemma AllEntered(t: ProgramTables, r: ProgramTables, programs: Programs, current: map<u64, u64>, keys: seq<u64>)
    requires Entered(t, r, programs, current, keys) && (forall p :: p in keys <==> p in programs)
    requires CurrentKnown(programs, current)
    ensures r == ProgramTables(JoinedPrograms(t.programs, programs), t.current + current)
  {
    hide EnteredPrograms, EnteredCurrent, JoinedPrograms;
    AllJoined(t.programs, r.programs, programs, keys);
    AllCurrent(t.current, r.current, programs, current, keys);
  }

  lemma AllJoined(t: Programs, r: Programs, programs: Programs, keys: seq<u64>)
    requires EnteredPrograms(t, r, programs, keys) && (forall p :: p in keys <==> p in programs)
    ensures r == JoinedPrograms(t, programs)
  {
    var joined := JoinedPrograms(t, programs);
    assert r.Keys == joined.Keys;
    forall p | p in joined ensures r[p] == joined[p] {
      assert p !in programs ==> t[p] + map[] == t[p];
    }
  }

  lemma AllCurrent(t: map<u64, u64>, r: map<u64, u64>, programs: Programs, current: map<u64, u64>, keys: seq<u64>)
    requires EnteredCurrent(t, r, current, keys) && (forall p :: p in keys <==> p in programs)
    requires CurrentKnown(programs, current)
    ensures r == t + current
  {
    assert r.Keys == (t + current).Keys;
  }

  /** Save/load round trip: loading what was saved from a well-formed snapshot joins exactly the snapshot's
      stored tables to the live ones, with the restart fence applied to the whole. */
  lemma LoadSaved(live: State, snap: Snapshot)
    requires Structured(snap) && WithinBounds(snap)
    ensures Load(live, Store.Container(Payload(snap))) == Ok(Restarted(Joined(live, snap)))
  {
    hide Payload, GetStored, Store.Opened, Store.Container, Structured, Restarted, Joined, Filled, Listing;
    Store.OpenWritten(Payload(snap));
    PayloadRead(snap);
    FilledJoins(live, snap);
  }

  // ---- too many weights ----

  lemma TablesLength(snap: Snapshot)
    ensures |Payload(snap)| >= 5 * |snap.policy.weights|
  {
    hide PutU64, PutPolicy, PutDevices;
    var t := PutDevices(snap, PutServices(snap, PutPrograms(snap, PutDeployments(snap, PutUsages(snap, [])))));
    PolicyLength(snap.policy, t);
    WordLengths();
  }

  lemma StoredRefused(snap: Snapshot)
    requires MAX_WEIGHTS < |snap.policy.weights| < TWO_32
    ensures GetStored(Payload(snap)) == Err(CORRUPT_STATE)
  {
    hide PutU64, GetU64, PutPolicy, GetPolicy, PutDevices, GetTables;
    PolicyRefused(snap.policy, PutDevices(snap, PutServices(snap, PutPrograms(snap, PutDeployments(snap, PutUsages(snap, []))))));
  }

  /** Saving does not bound the number of weights and loading does: a file that was written without complaint
      loads exactly when it holds at most 64 of them. */
  lemma LoadsExactly(live: State, snap: Snapshot)
    requires Structured(snap) && WithinSizes(snap)
    ensures |snap.policy.weights| <= MAX_WEIGHTS ==> Load(live, Store.Container(Payload(snap))).Ok?
    ensures |snap.policy.weights| > MAX_WEIGHTS ==> Load(live, Store.Container(Payload(snap))) == Err(CORRUPT_STATE)
  {
    hide Payload, GetStored, Store.Opened, Store.Container, Structured, Restarted, Joined, Filled, StorableDevice,
         StorableService, StorableVersions;
    if |snap.policy.weights| <= MAX_WEIGHTS {
      LoadSaved(live, snap);
    } else {
      TablesLength(snap);
      Store.OpenWritten(Payload(snap));
      StoredRefused(snap);
    }
  }

  // ---- small snapshots ----

  const FEW := 1000

  /** A few devices without texts or lists, a few deployments, no services and no programs. */
  ghost predicate Small(snap: Snapshot) {
    && (forall d :: d in snap.devices ==> Bare(snap.devices[d]))
    && snap.services == map[] && snap.programs == map[]
    && |snap.deviceOrder| <= FEW && |snap.devices| <= FEW && |snap.deployments| <= FEW && |snap.usage| <= FEW
    && |snap.policy.weights| <= FEW && forall i :: 0 <= i < |snap.policy.weights| ==> FitsI32(snap.policy.weights[i].weight)
  }

  lemma {:induction false} ListedLength(devices: map<u64, DeviceRecord>, order: seq<u64>)
    ensures |ListedIn(devices, order)| <= |order|
    decreases |order|
  {
    if order != [] {
      ListedLength(devices, order[..|order| - 1]);
    }
  }

  lemma DevicesLength(snap: Snapshot, t: seq<byte>)
    requires Small(snap)
    ensures |PutDevices(snap, t)| <= 4 + 222 * FEW + |t|
  {
    hide PutDevice, PutU32, PutMany, Bare;
    var list := DeviceList(snap);
    ListedLength(snap.devices, snap.deviceOrder);
    ListedAreKnown(snap.devices, snap.deviceOrder);
    forall d, r | d in list ensures |PutDevice(d, r)| <= 222 + |r| {
      var i :| 0 <= i < |list| && list[i] == d;
      assert ListedIn(snap.devices, snap.deviceOrder)[i] in snap.devices;
      DeviceLength(d, r);
    }
    ManyLength(PutDevice, list, 222, t);
    WordLengths();
  }

  lemma CatalogLength(snap: Snapshot, t: seq<byte>)
    requires Small(snap)
    ensures |PutServices(snap, PutPrograms(snap, t))| == 8 + |t|
  {
    hide PutU32, PutService, PutStoredProgram, Bare;
    WordLengths();
    assert ServiceList(snap) == [];
    assert ProgramEntries(snap.programs, snap.currentProgramGen).Keys == {};
    assert ProgramList(snap) == [];
  }

  lemma DeploymentsLength(snap: Snapshot, t: seq<byte>)
    requires Small(snap)
    ensures |PutDeployments(snap, t)| <= 4 + 219 * FEW + |t|
  {
    hide PutDeployment, PutU32, PutMany, Bare;
    forall d, r ensures |PutDeployment(d, r)| <= 219 + |r| {
      DeploymentLength(d, r);
    }
    ManyLength(PutDeployment, DeploymentList(snap), 219, t);
    WordLengths();
  }

  lemma UsagesLength(snap: Snapshot, t: seq<byte>)
    requires Small(snap)
    ensures |PutUsages(snap, t)| <= 4 + 48 * FEW + |t|
  {
    hide PutUsage, PutU32, PutMany, Bare;
    assert UsageEntries(snap.usage).Keys == snap.usage.Keys;
    forall u, r ensures |PutUsage(u, r)| <= 48 + |r| {
      UsageLength(u, r);
    }
    ManyLength(PutUsage, UsageList(snap), 48, t);
    WordLengths();
  }

  lemma SmallPayload(snap: Snapshot)
    requires Small(snap)
    ensures Store.FitsFile(Payload(snap))
  {
    hide PutU64, PutPolicy, PutDevices, PutServices, PutPrograms, PutDeployments, PutUsages, Bare;
    var t4 := PutUsages(snap, []);
    var t3 := PutDeployments(snap, t4);
    var t1 := PutServices(snap, PutPrograms(snap, t3));
    UsagesLength(snap, []);
    DeploymentsLength(snap, t4);
    CatalogLength(snap, t3);
    DevicesLength(snap, t1);
    PolicyLength(snap.policy, PutDevices(snap, t1));
    WordLengths();
  }

  /** What is small is within the format's sizes. */
  lemma SmallFits(snap: Snapshot)
    requires Small(snap)
    ensures WithinSizes(snap)
  {
    hide Payload, Store.FitsFile, StorableDevice, Bare;
    SmallPayload(snap);
    forall d | d in snap.devices ensures StorableDevice(snap.devices[d]) {
      BareIsStorable(snap.devices[d]);
    }
  }

  // ---- into empty tables ----

  /** A live state with nothing in the tables that load fills; its policy is its own. */
  predicate EmptyTables(s: State) {
    && s.devices == map[] && s.deviceOrder == [] && s.ledgers == map[] && s.usage == map[] && s.services == map[]
    && s.programs == map[] && s.currentProgramGen == map[] && s.deployments == map[]
  }

  /** The live state with the tables of a snapshot, and an empty ledger for each device. */
  function Taking(live: State, snap: Snapshot): State {
    live.(epoch := if snap.epoch < 1 then 1 else snap.epoch, policy := MergedPolicy(live.policy, snap.policy),
          devices := snap.devices, deviceOrder := snap.deviceOrder, ledgers := NewLedgers(snap.devices),
          services := snap.services, programs := snap.programs, currentProgramGen := snap.currentProgramGen,
          deployments := snap.deployments, usage := snap.usage)
  }

  /** With empty tables every table comes back as it was saved. */
  lemma JoinedToNothing(live: State, snap: Snapshot)
    requires EmptyTables(live)
    ensures Joined(live, snap) == Taking(live, snap)
  {
    hide NewLedgers, MergedPolicy;
    MergeEmpty(snap.devices);
    MergeEmpty(snap.services);
    MergeEmpty(snap.currentProgramGen);
    MergeEmpty(snap.deployments);
    MergeEmpty(snap.usage);
    AppendEmpty(snap.deviceOrder);
    assert NewLedgers(snap.devices) + map[] == NewLedgers(snap.devices);
    ProgramsToNothing(snap.programs);
  }

  lemma ProgramsToNothing(programs: Programs)
    ensures JoinedPrograms(map[], programs) == programs
  {
    forall p | p in programs ensures JoinedPrograms(map[], programs)[p] == programs[p] {
      MergeEmpty(programs[p]);
    }
  }

  lemma MergeEmpty<K, V>(m: map<K, V>)
    ensures map[] + m == m
  {
  }

  lemma AppendEmpty<T>(s: seq<T>)
    ensures [] + s == s
  {
  }
}
