/** PersistenceStore::save and load as they run: writers, readers, counted loops and the fence after loading.
    A file is a sequence of bytes; opening, flushing and renaming are not part of this model. */
module StateFile {
  import opened Base
  import opened Resource
  import opened Records
  import opened Wire
  import opened Counted
  import opened Keys
  import opened Layout
  import opened Coordinator
  import opened Persistence
  import opened Transfer
  import Store

  // ---- save ----

  method WriteDevices(w: Writer, snap: Snapshot) returns (r: Result<()>)
    modifies w
    ensures r.Ok? <==> forall d :: d in snap.deviceOrder && d in snap.devices ==> WritableDevice(snap.devices[d])
    ensures r.Ok? ==> forall t: seq<byte> {:trigger w.buf + t} :: w.buf + t == old(w.buf) + PutDevices(snap, t)
    ensures r.Err? ==> r.error == INVALID_ARGUMENT
  {
    hide PutDevice, GetDevice, PutU32, GetU32, WritableDevice, DeviceList;
    w.U32(|snap.devices| % TWO_32);
    ghost var start := w.buf;
    ghost var list: seq<DeviceRecord> := [];
    var order := snap.deviceOrder;
    NoDevices(snap);
    for i := 0 to |order|
      invariant list == DeviceList(snap.(deviceOrder := order[..i]))
      invariant forall t: seq<byte> {:trigger w.buf + t} :: w.buf + t == start + PutMany(PutDevice, list, t)
      invariant forall j :: 0 <= j < i && order[j] in snap.devices ==> WritableDevice(snap.devices[order[j]])
    {
      OneMoreDevice(snap, i);
      if order[i] in snap.devices {
        PutLast(PutDevice, list, snap.devices[order[i]]);
        list := list + [snap.devices[order[i]]];
        var _ :- WriteDevice(w, snap.devices[order[i]]);
      }
    }
    assert order[..|order|] == order;
    return Ok(());
  }

  lemma NoDevices(snap: Snapshot)
    ensures DeviceList(snap.(deviceOrder := snap.deviceOrder[..0])) == []
  {
  }

  lemma OneMoreDevice(snap: Snapshot, i: nat)
    requires i < |snap.deviceOrder|
    ensures var id, before := snap.deviceOrder[i], DeviceList(snap.(deviceOrder := snap.deviceOrder[..i]));
            DeviceList(snap.(deviceOrder := snap.deviceOrder[..i + 1])) ==
            if id in snap.devices then before + [snap.devices[id]] else before
  {
    var order := snap.deviceOrder;
    assert order[..i + 1][..i] == order[..i];
    ListedAreKnown(snap.devices, order[..i]);
  }

  method WriteServices(w: Writer, snap: Snapshot) returns (r: Result<()>)
    modifies w
    ensures r.Ok? <==> forall v :: v in snap.services ==> WritableService(snap.services[v])
    ensures r.Ok? ==> forall t: seq<byte> {:trigger w.buf + t} :: w.buf + t == old(w.buf) + PutServices(snap, t)
    ensures r.Err? ==> r.error == INVALID_ARGUMENT
  {
    hide PutService, GetService, PutU32, GetU32, WritableService, Ascending, Every;
    EveryListed(WritableService, snap.services, Ascending(snap.services.Keys));
    EveryNone(WritableService, ServiceList(snap));
    var keys := Ascending(snap.services.Keys);
    ghost var list := ServiceList(snap);
    w.U32(|snap.services| % TWO_32);
    ghost var start := w.buf;
    for i := 0 to |keys|
      invariant forall t: seq<byte> {:trigger w.buf + t} :: w.buf + t == start + PutMany(PutService, list[..i], t)
      invariant Every(WritableService, list[..i])
    {
      EveryOneMore(WritableService, list, i);
      PutOneMore(PutService, list, i);
      assert keys[i] in snap.services;
      var _ :- WriteService(w, snap.services[keys[i]]);
    }
    assert list[..|list|] == list;
    return Ok(());
  }

  lemma GenerationsListed(gens: map<u64, ProgramArtifact>, current: Option<u64>)
    ensures var keys, list := Ascending(gens.Keys), GenerationList(gens, current);
            && |list| == |keys| == |gens|
            && forall i :: 0 <= i < |keys| ==>
                 keys[i] in gens && list[i] == StoredGeneration(keys[i], gens[keys[i]], current == Some(keys[i]))
  {
    hide Ascending;
    assert GenerationEntries(gens, current).Keys == gens.Keys;
  }

  predicate WritableGeneration(g: StoredGeneration) {
    WritableProgram(g.artifact)
  }

  predicate WritableStored(p: StoredProgram) {
    Every(WritableGeneration, p.generations)
  }

  lemma EveryVersion(pid: u64, gens: map<u64, ProgramArtifact>, current: Option<u64>)
    ensures WritableStored(StoredProgram(pid, GenerationList(gens, current))) <==> WritableVersions(gens)
  {
    hide WritableProgram, Ascending, Every;
    var entries := GenerationEntries(gens, current);
    assert entries.Keys == gens.Keys;
    EveryListed(WritableGeneration, entries, Ascending(entries.Keys));
    assert forall g :: g in gens ==> entries[g].artifact == gens[g];
  }

  lemma EveryProgram(snap: Snapshot)
    ensures Every(WritableStored, ProgramList(snap)) <==> forall p :: p in snap.programs ==> WritableVersions(snap.programs[p])
  {
    hide WritableStored, WritableVersions, Ascending, Every, GenerationList, CurrentOf;
    var entries := ProgramEntries(snap.programs, snap.currentProgramGen);
    assert entries.Keys == snap.programs.Keys;
    EveryListed(WritableStored, entries, Ascending(entries.Keys));
    forall p | p in snap.programs ensures WritableStored(entries[p]) <==> WritableVersions(snap.programs[p]) {
      EveryVersion(p, snap.programs[p], CurrentOf(snap.currentProgramGen, p));
    }
  }

  method WriteGenerationList(w: Writer, gens: map<u64, ProgramArtifact>, current: Option<u64>) returns (r: Result<()>)
    modifies w
    ensures r.Err? ==> r.error == INVALID_ARGUMENT
    ensures r.Ok? <==> Every(WritableGeneration, GenerationList(gens, current))
    ensures r.Ok? ==> forall t: seq<byte> {:trigger w.buf + t} ::
              w.buf + t == old(w.buf) + PutCounted(PutGeneration, GenerationList(gens, current), t)
  {
    hide PutGeneration, GetGeneration, PutU32, GetU32, WritableGeneration, Ascending, GenerationList, Every;
    GenerationsListed(gens, current);
    EveryNone(WritableGeneration, GenerationList(gens, current));
    var keys := Ascending(gens.Keys);
    ghost var list := GenerationList(gens, current);
    w.U32(|gens| % TWO_32);
    ghost var start := w.buf;
    for i := 0 to |keys|
      invariant forall t: seq<byte> {:trigger w.buf + t} :: w.buf + t == start + PutMany(PutGeneration, list[..i], t)
      invariant Every(WritableGeneration, list[..i])
    {
      EveryOneMore(WritableGeneration, list, i);
      PutOneMore(PutGeneration, list, i);
      var g := StoredGeneration(keys[i], gens[keys[i]], current == Some(keys[i]));
      assert list[i] == g;
      var _ :- WriteGeneration(w, g);
    }
    assert list[..|list|] == list;
    return Ok(());
  }

  method WriteGenerations(w: Writer, pid: u64, gens: map<u64, ProgramArtifact>, current: Option<u64>) returns (r: Result<()>)
    modifies w
    ensures r.Err? ==> r.error == INVALID_ARGUMENT
    ensures r.Ok? <==> WritableStored(StoredProgram(pid, GenerationList(gens, current)))
    ensures r.Ok? ==> forall t: seq<byte> {:trigger w.buf + t} ::
              w.buf + t == old(w.buf) + PutStoredProgram(StoredProgram(pid, GenerationList(gens, current)), t)
  {
    hide PutCounted, PutU64, GenerationList, Every;
    w.U64(pid);
    r := WriteGenerationList(w, gens, current);
  }

  method WriteGeneration(w: Writer, g: StoredGeneration) returns (r: Result<()>)
    modifies w
    ensures r.Ok? <==> WritableGeneration(g)
    ensures r.Ok? ==> forall t: seq<byte> {:trigger w.buf + t} :: w.buf + t == old(w.buf) + PutGeneration(g, t)
    ensures r.Err? ==> r.error == INVALID_ARGUMENT
  {
    hide PutU64, GetU64, PutProgram, GetProgram, PutBool, GetBool, WritableProgram;
    w.U64(g.generation);
    var _ :- WriteProgram(w, g.artifact);
    WriteBool(w, g.current);
    return Ok(());
  }

  lemma ProgramsInOrder(snap: Snapshot)
    ensures var keys, list := Ascending(snap.programs.Keys), ProgramList(snap);
            && |list| == |keys| == |snap.programs|
            && forall i :: 0 <= i < |keys| ==>
                 keys[i] in snap.programs
                 && list[i] == StoredProgram(keys[i], GenerationList(snap.programs[keys[i]], CurrentOf(snap.currentProgramGen, keys[i])))
  {
    hide Ascending, GenerationList, CurrentOf;
    assert ProgramEntries(snap.programs, snap.currentProgramGen).Keys == snap.programs.Keys;
  }

  method WritePrograms(w: Writer, snap: Snapshot) returns (r: Result<()>)
    modifies w
    ensures r.Err? ==> r.error == INVALID_ARGUMENT
    ensures r.Ok? <==> forall p :: p in snap.programs ==> WritableVersions(snap.programs[p])
    ensures r.Ok? ==> forall t: seq<byte> {:trigger w.buf + t} :: w.buf + t == old(w.buf) + PutPrograms(snap, t)
  {
    hide PutStoredProgram, PutU32, GetU32, WritableVersions, WritableStored, Ascending, GenerationList, ProgramList, Every;
    ProgramsInOrder(snap);
    EveryProgram(snap);
    EveryNone(WritableStored, ProgramList(snap));
    var keys := Ascending(snap.programs.Keys);
    ghost var list := ProgramList(snap);
    w.U32(|snap.programs| % TWO_32);
    ghost var start := w.buf;
    for i := 0 to |keys|
      invariant forall t: seq<byte> {:trigger w.buf + t} :: w.buf + t == start + PutMany(PutStoredProgram, list[..i], t)
      invariant Every(WritableStored, list[..i])
    {
      EveryOneMore(WritableStored, list, i);
      PutOneMore(PutStoredProgram, list, i);
      var pid := keys[i];
      var current := if pid in snap.currentProgramGen then Some(snap.currentProgramGen[pid]) else None;
      assert list[i] == StoredProgram(pid, GenerationList(snap.programs[pid], current));
      var _ :- WriteGenerations(w, pid, snap.programs[pid], current);
    }
    assert list[..|list|] == list;
    return Ok(());
  }

  method WriteDeployments(w: Writer, snap: Snapshot)
    modifies w
    ensures forall t: seq<byte> {:trigger w.buf + t} :: w.buf + t == old(w.buf) + PutDeployments(snap, t)
  {
    hide PutDeployment, GetDeployment, PutU32, GetU32, Ascending;
    var keys := Ascending(snap.deployments.Keys);
    ghost var list := DeploymentList(snap);
    w.U32(|snap.deployments| % TWO_32);
    ghost var start := w.buf;
    for i := 0 to |keys|
      invariant forall t: seq<byte> {:trigger w.buf + t} :: w.buf + t == start + PutMany(PutDeployment, list[..i], t)
    {
      PutOneMore(PutDeployment, list, i);
      assert keys[i] in snap.deployments;
      WriteDeployment(w, snap.deployments[keys[i]]);
    }
    assert list[..|list|] == list;
  }

  method WriteUsage(w: Writer, u: StoredUsage)
    modifies w
    ensures forall t: seq<byte> {:trigger w.buf + t} :: w.buf + t == old(w.buf) + PutUsage(u, t)
  {
    hide PutU64, GetU64, PutResources, GetResources;
    w.U64(u.device);
    WriteResources(w, u.used);
  }

  lemma UsageInOrder(snap: Snapshot)
    ensures var keys, list := Ascending(snap.usage.Keys), UsageList(snap);
            && |list| == |keys| == |snap.usage|
            && forall i :: 0 <= i < |keys| ==> keys[i] in snap.usage && list[i] == StoredUsage(keys[i], snap.usage[keys[i]])
  {
    hide Ascending;
    assert UsageEntries(snap.usage).Keys == snap.usage.Keys;
  }

  method WriteEachUsage(w: Writer, usage: map<u64, Resources>, keys: seq<u64>, ghost list: seq<StoredUsage>)
    requires |list| == |keys|
    requires forall i :: 0 <= i < |keys| ==> keys[i] in usage && list[i] == StoredUsage(keys[i], usage[keys[i]])
    modifies w
    ensures forall t: seq<byte> {:trigger w.buf + t} :: w.buf + t == old(w.buf) + PutMany(PutUsage, list, t)
  {
    hide PutUsage, GetUsage;
    for i := 0 to |keys|
      invariant forall t: seq<byte> {:trigger w.buf + t} :: w.buf + t == old(w.buf) + PutMany(PutUsage, list[..i], t)
    {
      PutOneMore(PutUsage, list, i);
      WriteUsage(w, StoredUsage(keys[i], usage[keys[i]]));
    }
    assert list[..|list|] == list;
  }

  method WriteUsages(w: Writer, snap: Snapshot)
    modifies w
    ensures forall t: seq<byte> {:trigger w.buf + t} :: w.buf + t == old(w.buf) + PutUsages(snap, t)
  {
    hide PutU32, GetU32, PutMany, Ascending, UsageList;
    UsageInOrder(snap);
    w.U32(|snap.usage| % TWO_32);
    WriteEachUsage(w, snap.usage, Ascending(snap.usage.Keys), UsageList(snap));
  }

  ghost predicate WritableVersions(gens: map<u64, ProgramArtifact>) {
    forall g :: g in gens ==> WritableProgram(gens[g])
  }

  /** Every string that is written fits. */
  ghost predicate Writable(snap: Snapshot) {
    && (forall d :: d in snap.deviceOrder && d in snap.devices ==> WritableDevice(snap.devices[d]))
    && (forall v :: v in snap.services ==> WritableService(snap.services[v]))
    && (forall p :: p in snap.programs ==> WritableVersions(snap.programs[p]))
  }

  lemma BoundsFit(snap: Snapshot)
    requires StorableTables(snap)
    ensures Writable(snap)
  {
    hide StorableDevice, StorableService, StorableProgram, WritableDevice, WritableService, WritableProgram, Store.FitsFile,
         Payload;
    forall d | d in snap.devices ensures WritableDevice(snap.devices[d]) {
      StorableDeviceIsWritable(snap.devices[d]);
    }
    forall v | v in snap.services ensures WritableService(snap.services[v]) {
      StorableServiceIsWritable(snap.services[v]);
    }
    forall p | p in snap.programs ensures WritableVersions(snap.programs[p]) {
      assert StorableVersions(snap.programs[p]);
      forall g | g in snap.programs[p] ensures WritableProgram(snap.programs[p][g]) {
        StorableProgramIsWritable(snap.programs[p][g]);
      }
    }
  }

  /** The bytes that save puts into the file; it fails exactly when a string is too long. */
  method Save(snap: Snapshot) returns (r: Result<seq<byte>>)
    ensures r.Err? ==> r.error == INVALID_ARGUMENT
    ensures r.Ok? <==> Writable(snap)
    ensures r.Ok? ==> r.value == Store.Container(Payload(snap))
  {
    hide Store.Container, PutU64, PutPolicy, PutTables, Writable;
    var w := new Writer();
    w.U64(snap.epoch);
    WritePolicy(w, snap.policy);
    var _ :- WriteTables(w, snap);
    var payload := w.buf;
    assert payload + [] == payload;
    PayloadIs(snap);
    assert payload == Payload(snap);
    var file := Store.Enclose(payload);
    return Ok(file);
  }

  function PutTables(snap: Snapshot, t: seq<byte>): seq<byte> {
    PutDevices(snap, PutServices(snap, PutPrograms(snap, PutDeployments(snap, PutUsages(snap, t)))))
  }

  lemma PayloadIs(snap: Snapshot)
    ensures Payload(snap) == PutU64(snap.epoch, PutPolicy(snap.policy, PutTables(snap, [])))
  {
    hide PutU64, PutPolicy, PutDevices, PutServices, PutPrograms, PutDeployments, PutUsages;
  }

  method WriteTables(w: Writer, snap: Snapshot) returns (r: Result<()>)
    modifies w
    ensures r.Ok? <==> Writable(snap)
    ensures r.Ok? ==> forall t: seq<byte> {:trigger w.buf + t} :: w.buf + t == old(w.buf) + PutTables(snap, t)
    ensures r.Err? ==> r.error == INVALID_ARGUMENT
  {
    hide PutDevices, PutServices, PutPrograms, PutDeployments, PutUsages, WritableDevice, WritableService, WritableVersions;
    var _ :- WriteDevices(w, snap);
    var _ :- WriteServices(w, snap);
    var _ :- WritePrograms(w, snap);
    WriteDeployments(w, snap);
    WriteUsages(w, snap);
    return Ok(());
  }

  // ---- load ----

  /** Reads the device table into the live tables; list is what was read. */
  method ReadDevices(r: Reader, live: State) returns (res: Result<State>, ghost list: seq<DeviceRecord>)
    requires r.Valid()
    modifies r
    ensures r.Follows(if res.Ok? then Ok(list) else Err(res.error), GetDevices(old(r.Rest())))
    ensures res.Ok? ==> res.value == WithDevices(live, list)
  {
    hide GetDevice, GetU32, Indexed, DeviceIds, EnterLedgers;
    NothingRead(live);
    list := [];
    var n, devices, order, ledgers := 0, live.devices, live.deviceOrder, live.ledgers;
    var count := r.U32();
    if count.Err? {
      return Err(count.error), list;
    }
    n := count.value;
    if n > MAX_CONTAINER_COUNT {
      return Err(CORRUPT_STATE), list;
    }
    ghost var start := r.Rest();
    for i := 0 to n
      invariant r.Valid() && GetMany(GetDevice, i, start) == Ok(Taken(list, r.Rest()))
      invariant devices == live.devices + Indexed<u64, DeviceRecord>(IdOf, list)
      invariant order == live.deviceOrder + DeviceIds(list)
      invariant ledgers == EnterLedgers(live.ledgers, list)
    {
      GetFails(GetDevice, i + 1, n, start);
      var d := ReadDevice(r);
      if d.Err? {
        return Err(d.error), list;
      }
      var id := IdOf(d.value);
      devices := devices[id := d.value];
      order := order + [id];
      if id !in ledgers {
        ledgers := ledgers[id := Ledger(d.value.capacity.resources, NOTHING)];
      }
      EnteredOneMore<u64, DeviceRecord>(IdOf, live.devices, list, d.value);
      OneMoreEntered(live, list, d.value);
      list := list + [d.value];
    }
    return Ok(live.(devices := devices, deviceOrder := order, ledgers := ledgers)), list;
  }

  lemma NothingRead(live: State)
    ensures live.devices + Indexed<u64, DeviceRecord>(IdOf, []) == live.devices && live.deviceOrder + DeviceIds([]) == live.deviceOrder
    ensures EnterLedgers(live.ledgers, []) == live.ledgers
    ensures live.services + Indexed<u64, ServiceDefinition>(ServiceIdOf, []) == live.services
    ensures live.deployments + Indexed<u64, Deployment>(DeploymentIdOf, []) == live.deployments
  {
  }

  lemma OneMoreEntered(live: State, list: seq<DeviceRecord>, d: DeviceRecord)
    ensures live.deviceOrder + DeviceIds(list + [d]) == live.deviceOrder + DeviceIds(list) + [IdOf(d)]
    ensures EnterLedgers(live.ledgers, list + [d]) == EnterLedger(EnterLedgers(live.ledgers, list), d)
  {
    assert (list + [d])[..|list|] == list;
    assert DeviceIds(list + [d]) == DeviceIds(list) + [IdOf(d)];
  }

  method ReadServices(r: Reader, live: State) returns (res: Result<State>, ghost list: seq<ServiceDefinition>)
    requires r.Valid()
    modifies r
    ensures r.Follows(if res.Ok? then Ok(list) else Err(res.error), GetServices(old(r.Rest())))
    ensures res.Ok? ==> res.value == WithServices(live, list)
  {
    hide GetService, GetU32, Indexed;
    NothingRead(live);
    list := [];
    var services := live.services;
    var count := r.U32();
    if count.Err? {
      return Err(count.error), list;
    }
    var n := count.value;
    if n > MAX_CONTAINER_COUNT {
      return Err(CORRUPT_STATE), list;
    }
    ghost var start := r.Rest();
    for i := 0 to n
      invariant r.Valid() && GetMany(GetService, i, start) == Ok(Taken(list, r.Rest()))
      invariant services == live.services + Indexed<u64, ServiceDefinition>(ServiceIdOf, list)
    {
      GetFails(GetService, i + 1, n, start);
      var s := ReadService(r);
      if s.Err? {
        return Err(s.error), list;
      }
      services := services[s.value.serviceId := s.value];
      EnteredOneMore<u64, ServiceDefinition>(ServiceIdOf, live.services, list, s.value);
      list := list + [s.value];
    }
    return Ok(live.(services := services)), list;
  }

  method ReadDeployments(r: Reader, live: State) returns (res: Result<State>, ghost list: seq<Deployment>)
    requires r.Valid()
    modifies r
    ensures r.Follows(if res.Ok? then Ok(list) else Err(res.error), GetDeployments(old(r.Rest())))
    ensures res.Ok? ==> res.value == WithDeployments(live, list)
  {
    hide GetDeployment, GetU32, Indexed;
    NothingRead(live);
    list := [];
    var deployments := live.deployments;
    var count := r.U32();
    if count.Err? {
      return Err(count.error), list;
    }
    var n := count.value;
    if n > MAX_CONTAINER_COUNT {
      return Err(CORRUPT_STATE), list;
    }
    ghost var start := r.Rest();
    for i := 0 to n
      invariant r.Valid() && GetMany(GetDeployment, i, start) == Ok(Taken(list, r.Rest()))
      invariant deployments == live.deployments + Indexed<u64, Deployment>(DeploymentIdOf, list)
    {
      GetFails(GetDeployment, i + 1, n, start);
      var d := ReadDeployment(r);
      if d.Err? {
        return Err(d.error), list;
      }
      deployments := deployments[d.value.binding.deploymentId := d.value];
      EnteredOneMore<u64, Deployment>(DeploymentIdOf, live.deployments, list, d.value);
      list := list + [d.value];
    }
    return Ok(live.(deployments := deployments)), list;
  }

  method ReadUsage(r: Reader) returns (res: Result<StoredUsage>)
    requires r.Valid()
    modifies r
    ensures r.Follows(res, GetUsage(old(r.Rest())))
  {
    hide GetU64, GetResources;
    var device :- r.U64();
    var used :- ReadResources(r);
    return Ok(StoredUsage(device, used));
  }

  method ReadUsages(r: Reader, live: State) returns (res: Result<State>, ghost list: seq<StoredUsage>)
    requires r.Valid()
    modifies r
    ensures r.Follows(if res.Ok? then Ok(list) else Err(res.error), GetUsages(old(r.Rest())))
    ensures res.Ok? ==> res.value == WithUsages(live, list)
  {
    hide GetUsage, GetU32, EnterUsage;
    assert EnterUsage(live.usage, []) == live.usage by {
      NoUsage(live.usage);
    }
    list := [];
    var usage := live.usage;
    var count := r.U32();
    if count.Err? {
      return Err(count.error), list;
    }
    var n := count.value;
    if n > MAX_CONTAINER_COUNT {
      return Err(CORRUPT_STATE), list;
    }
    ghost var start := r.Rest();
    for i := 0 to n
      invariant r.Valid() && GetMany(GetUsage, i, start) == Ok(Taken(list, r.Rest()))
      invariant usage == EnterUsage(live.usage, list)
    {
      GetFails(GetUsage, i + 1, n, start);
      var u := ReadUsage(r);
      if u.Err? {
        return Err(u.error), list;
      }
      usage := usage[u.value.device := u.value.used];
      OneMoreUsage(live.usage, list, u.value);
      list := list + [u.value];
    }
    return Ok(live.(usage := usage)), list;
  }

  lemma NoUsage(usage: map<u64, Resources>)
    ensures EnterUsage(usage, []) == usage
  {
  }

  lemma OneMoreUsage(usage: map<u64, Resources>, list: seq<StoredUsage>, u: StoredUsage)
    ensures EnterUsage(usage, list + [u]) == EnterUsage(usage, list)[u.device := u.used]
  {
    assert (list + [u])[..|list|] == list;
  }

  method ReadGeneration(r: Reader) returns (res: Result<StoredGeneration>)
    requires r.Valid()
    modifies r
    ensures r.Follows(res, GetGeneration(old(r.Rest())))
  {
    hide GetU64, GetProgram, GetBool;
    var generation :- r.U64();
    var artifact :- ReadProgram(r);
    var current :- ReadBool(r);
    return Ok(StoredGeneration(generation, artifact, current));
  }

  /** Reads one program with its generations into the program tables. */
  method ReadProgramEntry(r: Reader, tables: ProgramTables) returns (res: Result<ProgramTables>, ghost entry: StoredProgram)
    requires r.Valid()
    modifies r
    ensures r.Follows(if res.Ok? then Ok(entry) else Err(res.error), GetStoredProgram(old(r.Rest())))
    ensures res.Ok? ==> res.value == EnterGenerations(tables, entry.programId, entry.generations)
  {
    hide GetGeneration, GetU64, GetU32;
    entry := StoredProgram(0, []);
    var id := r.U64();
    if id.Err? {
      return Err(id.error), entry;
    }
    var pid := id.value;
    var count := r.U32();
    if count.Err? {
      return Err(count.error), entry;
    }
    var n := count.value;
    if n > MAX_GENERATIONS {
      return Err(CORRUPT_STATE), entry;
    }
    var out := tables;
    ghost var start := r.Rest();
    ghost var list: seq<StoredGeneration> := [];
    for i := 0 to n
      invariant r.Valid() && GetMany(GetGeneration, i, start) == Ok(Taken(list, r.Rest()))
      invariant out == EnterGenerations(tables, pid, list)
    {
      GetFails(GetGeneration, i + 1, n, start);
      var g := ReadGeneration(r);
      if g.Err? {
        return Err(g.error), entry;
      }
      out := EnterGeneration(out, pid, g.value);
      assert (list + [g.value])[..|list|] == list;
      list := list + [g.value];
    }
    entry := StoredProgram(pid, list);
    return Ok(out), entry;
  }

  method ReadPrograms(r: Reader, live: State) returns (res: Result<State>, ghost list: seq<StoredProgram>)
    requires r.Valid()
    modifies r
    ensures r.Follows(if res.Ok? then Ok(list) else Err(res.error), GetPrograms(old(r.Rest())))
    ensures res.Ok? ==> res.value == WithPrograms(live, list)
  {
    hide GetStoredProgram, GetU32, EnterGenerations;
    list := [];
    var tables := ProgramTables(live.programs, live.currentProgramGen);
    var count := r.U32();
    if count.Err? {
      return Err(count.error), list;
    }
    var n := count.value;
    if n > MAX_CONTAINER_COUNT {
      return Err(CORRUPT_STATE), list;
    }
    ghost var start := r.Rest();
    for i := 0 to n
      invariant r.Valid() && GetMany(GetStoredProgram, i, start) == Ok(Taken(list, r.Rest()))
      invariant tables == EnterPrograms(ProgramTables(live.programs, live.currentProgramGen), list)
    {
      GetFails(GetStoredProgram, i + 1, n, start);
      ghost var entry;
      var entered;
      entered, entry := ReadProgramEntry(r, tables);
      if entered.Err? {
        return Err(entered.error), list;
      }
      tables := entered.value;
      assert (list + [entry])[..|list|] == list;
      list := list + [entry];
    }
    return Ok(live.(programs := tables.programs, currentProgramGen := tables.current)), list;
  }

  /** No live authority survives a restart. */
  method FenceLoaded(s: State) returns (r: State)
    ensures r == Restarted(s)
  {
    hide RestartedDevice, RestartedDeployment;
    var devices, todo := s.devices, s.devices.Keys;
    while todo != {}
      invariant todo <= devices.Keys == s.devices.Keys
      invariant forall d :: d in devices ==> devices[d] == if d in todo then s.devices[d] else RestartedDevice(s.devices[d])
      decreases |todo|
    {
      var id := Least(todo);
      devices := devices[id := RestartedDevice(devices[id])];
      todo := todo - {id};
    }
    var deployments := FenceLoadedDeployments(s.deployments);
    assert devices == RestartedDevices(s.devices);
    return s.(devices := devices, deployments := deployments, activations := map[]);
  }

  method FenceLoadedDeployments(loaded: map<u64, Deployment>) returns (deployments: map<u64, Deployment>)
    ensures deployments == RestartedDeployments(loaded)
  {
    deployments := loaded;
    var todo := loaded.Keys;
    while todo != {}
      invariant todo <= deployments.Keys == loaded.Keys
      invariant forall k :: k in deployments ==> deployments[k] == if k in todo then loaded[k] else RestartedDeployment(loaded[k])
      decreases |todo|
    {
      var k := Least(todo);
      var d := deployments[k];
      if d.state.Active? || d.state.Degraded? || d.state.Draining? {
        d := d.(state := DeploymentState.RevalidationRequired);
      }
      deployments := deployments[k := d.(authoritative := false, activation := None)];
      todo := todo - {k};
    }
  }

  method ReadTables(r: Reader, live: State) returns (res: Result<State>, ghost tables: Tables)
    requires r.Valid()
    modifies r
    ensures r.Follows(if res.Ok? then Ok(tables) else Err(res.error), GetTables(old(r.Rest())))
    ensures res.Ok? ==> res.value == WithTables(live, tables)
  {
    hide GetDevices, GetServices, GetPrograms, GetDeployments, GetUsages, WithDevices, WithServices, WithPrograms,
         WithDeployments, WithUsages;
    tables := Tables([], [], [], [], []);
    ghost var devices, services, programs, deployments, usage;
    res, devices := ReadDevices(r, live);
    if res.Err? {
      return;
    }
    res, services := ReadServices(r, res.value);
    if res.Err? {
      return;
    }
    res, programs := ReadPrograms(r, res.value);
    if res.Err? {
      return;
    }
    res, deployments := ReadDeployments(r, res.value);
    if res.Err? {
      return;
    }
    res, usage := ReadUsages(r, res.value);
    tables := Tables(devices, services, programs, deployments, usage);
  }

  method Load(live: State, file: seq<byte>) returns (res: Result<State>)
    ensures res == Persistence.Load(live, file)
  {
    hide Store.Opened, GetU64, GetPolicy, GetTables, WithPolicy, WithTables, Restarted;
    var payload :- Store.Open(file);
    var r := new Reader(payload);
    var epoch :- r.U64();
    var policy :- ReadPolicy(r);
    var filled := EnterPolicy(live, epoch, policy);
    ghost var tables;
    var read;
    read, tables := ReadTables(r, filled);
    if read.Err? {
      return Err(read.error);
    }
    var _ :- r.ExpectEnd();
    var fenced := FenceLoaded(read.value);
    return Ok(fenced);
  }

  method EnterPolicy(live: State, epoch: u64, policy: Policy) returns (s: State)
    ensures s == WithPolicy(live, epoch, policy)
  {
    s := live.(epoch := if epoch < 1 then 1 else epoch,
               policy := policy.(weights := live.policy.weights + policy.weights, hardCaps := live.policy.hardCaps,
                                 preferredDevices := live.policy.preferredDevices));
  }
}
