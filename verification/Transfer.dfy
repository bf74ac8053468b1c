/** The write_* and read_* procedures of src/persistence.cpp, proved against the layouts of module Layout.

    Writing goes through a Writer, which throws on a string that is too long; reading through a Reader. */
module Transfer {
  import opened Base
  import opened Resource
  import opened Records
  import opened Wire
  import opened Counted
  import opened Keys
  import opened Layout

  // ---- lists of plain values ----

  method WriteIds(w: Writer, ids: seq<u64>)
    modifies w
    ensures forall t: seq<byte> {:trigger w.buf + t} :: w.buf + t == old(w.buf) + PutIds(ids, t)
  {
    hide PutU64, PutU32, GetU64, GetU32;
    w.U32(|ids| % 0x1_0000_0000);
    ghost var start := w.buf;
    for i := 0 to |ids|
      invariant forall t: seq<byte> {:trigger w.buf + t} :: w.buf + t == start + PutMany(PutU64, ids[..i], t)
    {
      PutOneMore(PutU64, ids, i);
      w.U64(ids[i]);
    }
    assert ids[..|ids|] == ids;
  }

  method ReadIds(r: Reader) returns (res: Result<seq<u64>>)
    requires r.Valid()
    modifies r
    ensures r.Follows(res, GetIds(old(r.Rest())))
  {
    hide GetU64, GetU32;
    var n :- r.U32();
    if n > MAX_CONTAINER_COUNT {
      return Err(CORRUPT_STATE);
    }
    ghost var start := r.Rest();
    var out := [];
    for i := 0 to n
      invariant r.Valid() && GetMany(GetU64, i, start) == Ok(Taken(out, r.Rest()))
    {
      GetFails(GetU64, i + 1, n, start);
      var v :- r.U64();
      out := out + [v];
    }
    return Ok(out);
  }

  method WriteCapability(w: Writer, c: Capability) returns (r: Result<()>)
    modifies w
    ensures r.Ok? <==> WritableCapability(c)
    ensures r.Ok? ==> forall t: seq<byte> {:trigger w.buf + t} :: w.buf + t == old(w.buf) + PutCapability(c, t)
    ensures r.Err? ==> r.error == INVALID_ARGUMENT
  {
    hide PutBool, PutStr, PutU64, PutU8, GetBool, GetStr, GetU64, GetU8;
    var _ :- w.String(c.key);
    w.U8(CodeIn(CAPABILITY_STATES, c.state) % 0x100);
    w.U64(c.evidenceGen);
    w.U64(c.version);
    w.U64(c.minFirmwareGen);
    w.U64(c.minRuntimeGen);
    w.U64(c.maxScale);
    WriteBool(w, c.requiresIsolation);
    w.U8(c.source);
    r := w.String(c.detail);
  }

  /** CapabilityKey::is_valid. */
  method CheckKey(key: Str) returns (ok: bool)
    ensures ok == ValidKey(key)
  {
    if |key| == 0 || |key| > 64 {
      return false;
    }
    for i := 0 to |key|
      invariant forall j :: 0 <= j < i ==> KeyByte(key[j])
    {
      if !KeyByte(key[i]) {
        return false;
      }
    }
    return true;
  }

  method ReadKey(r: Reader) returns (res: Result<Str>)
    requires r.Valid()
    modifies r
    ensures r.Follows(res, GetKey(old(r.Rest())))
  {
    hide GetStr, ValidKey;
    var key :- r.String();
    var ok := CheckKey(key);
    if !ok {
      return Err(INVALID_ARGUMENT);
    }
    return Ok(key);
  }

  method ReadEnum<T>(r: Reader, all: seq<T>) returns (res: Result<T>)
    requires r.Valid()
    modifies r
    ensures r.Follows(res, GetEnum(all, old(r.Rest())))
  {
    hide GetU8;
    var b :- r.U8();
    if b < 1 || b > |all| {
      return Err(CORRUPT_STATE);
    }
    return Ok(all[b - 1]);
  }

  method ReadChecked(r: Reader, last: byte) returns (res: Result<byte>)
    requires r.Valid()
    modifies r
    ensures r.Follows(res, GetChecked(last, old(r.Rest())))
  {
    hide GetU8;
    var b :- r.U8();
    if b < 1 || b > last {
      return Err(CORRUPT_STATE);
    }
    return Ok(b);
  }

  method WriteBool(w: Writer, b: bool)
    modifies w
    ensures forall t: seq<byte> {:trigger w.buf + t} :: w.buf + t == old(w.buf) + PutBool(b, t)
  {
    hide PutU8, GetU8;
    w.U8(if b then 1 else 0);
  }

  method ReadBool(r: Reader) returns (res: Result<bool>)
    requires r.Valid()
    modifies r
    ensures r.Follows(res, GetBool(old(r.Rest())))
  {
    hide GetU8;
    var b :- r.U8();
    return Ok(b != 0);
  }

  method ReadCapability(r: Reader) returns (res: Result<Capability>)
    requires r.Valid()
    modifies r
    ensures r.Follows(res, GetCapability(old(r.Rest())))
  {
    hide GetKey, GetEnum, GetU64, GetBool, GetU8, GetStr;
    var key :- ReadKey(r);
    var state :- ReadEnum(r, CAPABILITY_STATES);
    var evidenceGen :- r.U64();
    var version :- r.U64();
    var minFirmwareGen :- r.U64();
    var minRuntimeGen :- r.U64();
    var maxScale :- r.U64();
    var requiresIsolation :- ReadBool(r);
    var source :- r.U8();
    var detail :- r.String();
    return Ok(Capability(key, state, evidenceGen, version, minFirmwareGen, minRuntimeGen, maxScale, requiresIsolation,
                         source, detail));
  }

  method WriteCodes(w: Writer, codes: seq<byte>)
    modifies w
    ensures forall t: seq<byte> {:trigger w.buf + t} :: w.buf + t == old(w.buf) + PutCodes(codes, t)
  {
    hide PutU8, PutU32, GetU8, GetU32;
    w.U32(|codes| % 0x1_0000_0000);
    ghost var start := w.buf;
    for i := 0 to |codes|
      invariant forall t: seq<byte> {:trigger w.buf + t} :: w.buf + t == start + PutMany(PutU8, codes[..i], t)
    {
      PutOneMore(PutU8, codes, i);
      w.U8(codes[i]);
    }
    assert codes[..|codes|] == codes;
  }

  method ReadCodes(r: Reader, bound: nat) returns (res: Result<seq<byte>>)
    requires r.Valid()
    modifies r
    ensures r.Follows(res, GetCodes(bound, old(r.Rest())))
  {
    hide GetU8, GetU32;
    var n :- r.U32();
    if n > bound {
      return Err(CORRUPT_STATE);
    }
    ghost var start := r.Rest();
    var out := [];
    for i := 0 to n
      invariant r.Valid() && GetMany(GetU8, i, start) == Ok(Taken(out, r.Rest()))
    {
      GetFails(GetU8, i + 1, n, start);
      var v :- r.U8();
      out := out + [v];
    }
    return Ok(out);
  }

  method WriteStrings(w: Writer, ss: seq<Str>) returns (r: Result<()>)
    modifies w
    ensures r.Ok? <==> WritableStrings(ss)
    ensures r.Ok? ==> forall t: seq<byte> {:trigger w.buf + t} :: w.buf + t == old(w.buf) + PutStrings(ss, t)
    ensures r.Err? ==> r.error == INVALID_ARGUMENT
  {
    hide PutStr, PutU32, GetStr, GetU32, Every;
    EveryNone(FitsStr, ss);
    w.U32(|ss| % 0x1_0000_0000);
    ghost var start := w.buf;
    for i := 0 to |ss|
      invariant forall t: seq<byte> {:trigger w.buf + t} :: w.buf + t == start + PutMany(PutStr, ss[..i], t)
      invariant Every(FitsStr, ss[..i])
    {
      EveryOneMore(FitsStr, ss, i);
      PutOneMore(PutStr, ss, i);
      var _ :- w.String(ss[i]);
    }
    assert ss[..|ss|] == ss;
    return Ok(());
  }

  method ReadStrings(r: Reader) returns (res: Result<seq<Str>>)
    requires r.Valid()
    modifies r
    ensures r.Follows(res, GetStrings(old(r.Rest())))
  {
    hide GetStr, GetU32;
    var n :- r.U32();
    if n > MAX_CONTAINER_COUNT {
      return Err(CORRUPT_STATE);
    }
    ghost var start := r.Rest();
    var out := [];
    for i := 0 to n
      invariant r.Valid() && GetMany(GetStr, i, start) == Ok(Taken(out, r.Rest()))
    {
      GetFails(GetStr, i + 1, n, start);
      var v :- r.String();
      out := out + [v];
    }
    return Ok(out);
  }

  // ---- requirements ----

  method WriteRequirement(w: Writer, c: CapabilityRequirement) returns (r: Result<()>)
    modifies w
    ensures r.Ok? <==> WritableRequirement(c)
    ensures r.Ok? ==> forall t: seq<byte> {:trigger w.buf + t} :: w.buf + t == old(w.buf) + PutRequirement(c, t)
    ensures r.Err? ==> r.error == INVALID_ARGUMENT
  {
    hide PutBool, PutStr, PutU64, PutU8, GetBool, GetStr, GetU64, GetU8;
    var _ :- w.String(c.key);
    WriteBool(w, c.isOptional);
    w.U64(c.minVersion);
    return Ok(());
  }

  method ReadRequirement(r: Reader) returns (res: Result<CapabilityRequirement>)
    requires r.Valid()
    modifies r
    ensures r.Follows(res, GetRequirement(old(r.Rest())))
  {
    hide GetKey, GetBool, GetU64;
    var key :- ReadKey(r);
    var isOptional :- ReadBool(r);
    var minVersion :- r.U64();
    return Ok(CapabilityRequirement(key, isOptional, minVersion));
  }

  method WriteRequirements(w: Writer, cs: seq<CapabilityRequirement>) returns (r: Result<()>)
    modifies w
    ensures r.Ok? <==> WritableRequirements(cs)
    ensures r.Ok? ==> forall t: seq<byte> {:trigger w.buf + t} :: w.buf + t == old(w.buf) + PutRequirements(cs, t)
    ensures r.Err? ==> r.error == INVALID_ARGUMENT
  {
    hide PutRequirement, PutU32, GetRequirement, GetU32, Every, WritableRequirement;
    EveryNone(WritableRequirement, cs);
    w.U32(|cs| % 0x1_0000_0000);
    ghost var start := w.buf;
    for i := 0 to |cs|
      invariant forall t: seq<byte> {:trigger w.buf + t} :: w.buf + t == start + PutMany(PutRequirement, cs[..i], t)
      invariant Every(WritableRequirement, cs[..i])
    {
      EveryOneMore(WritableRequirement, cs, i);
      PutOneMore(PutRequirement, cs, i);
      var _ :- WriteRequirement(w, cs[i]);
    }
    assert cs[..|cs|] == cs;
    return Ok(());
  }

  method ReadRequirements(r: Reader) returns (res: Result<seq<CapabilityRequirement>>)
    requires r.Valid()
    modifies r
    ensures r.Follows(res, GetRequirements(old(r.Rest())))
  {
    hide GetRequirement, GetU32;
    var n :- r.U32();
    if n > MAX_CONTAINER_COUNT {
      return Err(CORRUPT_STATE);
    }
    ghost var start := r.Rest();
    var out := [];
    for i := 0 to n
      invariant r.Valid() && GetMany(GetRequirement, i, start) == Ok(Taken(out, r.Rest()))
    {
      GetFails(GetRequirement, i + 1, n, start);
      var v :- ReadRequirement(r);
      out := out + [v];
    }
    return Ok(out);
  }

  // ---- resources and isolation ----

  method WriteResources(w: Writer, rr: Resources)
    modifies w
    ensures forall t: seq<byte> {:trigger w.buf + t} :: w.buf + t == old(w.buf) + PutResources(rr, t)
  {
    hide PutU64, GetU64;
    w.U64(rr.memoryBytes);
    w.U64(rr.queues);
    w.U64(rr.functions);
    w.U64(rr.slots);
    w.U64(rr.contexts);
  }

  method ReadResources(r: Reader) returns (res: Result<Resources>)
    requires r.Valid()
    modifies r
    ensures r.Follows(res, GetResources(old(r.Rest())))
  {
    hide GetU64;
    var memoryBytes :- r.U64();
    var queues :- r.U64();
    var functions :- r.U64();
    var slots :- r.U64();
    var contexts :- r.U64();
    return Ok(Resources(memoryBytes, queues, functions, slots, contexts));
  }

  method WriteIsolation(w: Writer, s: IsolationSpec) returns (r: Result<()>)
    modifies w
    ensures r.Ok? <==> StorableIsolation(s)
    ensures r.Ok? ==> forall t: seq<byte> {:trigger w.buf + t} :: w.buf + t == old(w.buf) + PutIsolation(s, t)
    ensures r.Err? ==> r.error == INVALID_ARGUMENT
  {
    hide PutU8, PutU64, PutStr, GetU8, GetU64, GetStr;
    w.U8(s.level);
    w.U64(s.isolationDomain);
    w.U64(s.tenant);
    var _ :- w.String(s.trustDomain);
    var _ :- w.String(s.securityDomain);
    w.U8(s.security);
    return Ok(());
  }

  method ReadIsolation(r: Reader) returns (res: Result<IsolationSpec>)
    requires r.Valid()
    modifies r
    ensures r.Follows(res, GetIsolation(old(r.Rest())))
  {
    hide GetU8, GetU64, GetStr;
    var level :- r.U8();
    var isolationDomain :- r.U64();
    var tenant :- r.U64();
    var trustDomain :- r.String();
    var securityDomain :- r.String();
    var security :- r.U8();
    return Ok(IsolationSpec(level, isolationDomain, tenant, trustDomain, securityDomain, security));
  }

  // ---- devices ----

  method WriteIdentity(w: Writer, d: DeviceIdentity) returns (r: Result<()>)
    modifies w
    ensures r.Ok? <==> StorableIdentity(d)
    ensures r.Ok? ==> forall t: seq<byte> {:trigger w.buf + t} :: w.buf + t == old(w.buf) + PutIdentity(d, t)
    ensures r.Err? ==> r.error == INVALID_ARGUMENT
  {
    hide PutU8, PutU64, PutStr, GetU8, GetU64, GetStr;
    w.U64(d.deviceId);
    w.U64(d.generation);
    w.U64(d.bootId);
    var _ :- w.String(d.vendor);
    var _ :- w.String(d.model);
    w.U8(CodeIn(DEVICE_CLASSES, d.deviceClass) % 0x100);
    var _ :- w.String(d.pciReference);
    var _ :- w.String(d.parentNicReference);
    w.U64(d.parentFunction);
    return Ok(());
  }

  method ReadIdentity(r: Reader) returns (res: Result<DeviceIdentity>)
    requires r.Valid()
    modifies r
    ensures r.Follows(res, GetIdentity(old(r.Rest())))
  {
    hide GetU64, GetStr, GetEnum;
    var deviceId :- r.U64();
    var generation :- r.U64();
    var bootId :- r.U64();
    var vendor :- r.String();
    var model :- r.String();
    var deviceClass :- ReadEnum(r, DEVICE_CLASSES);
    var pciReference :- r.String();
    var parentNicReference :- r.String();
    var parentFunction :- r.U64();
    return Ok(DeviceIdentity(deviceId, generation, bootId, vendor, model, deviceClass, pciReference, parentNicReference,
                             parentFunction));
  }

  method WriteSoftware(w: Writer, d: DeviceSoftware) returns (r: Result<()>)
    modifies w
    ensures r.Ok? <==> StorableSoftware(d)
    ensures r.Ok? ==> forall t: seq<byte> {:trigger w.buf + t} :: w.buf + t == old(w.buf) + PutSoftware(d, t)
    ensures r.Err? ==> r.error == INVALID_ARGUMENT
  {
    hide PutU64, PutStr, GetU64, GetStr;
    var _ :- w.String(d.firmwareVersion);
    w.U64(d.firmwareGen);
    var _ :- w.String(d.runtimeVersion);
    w.U64(d.runtimeGen);
    r := w.String(d.architecture);
  }

  method ReadSoftware(r: Reader) returns (res: Result<DeviceSoftware>)
    requires r.Valid()
    modifies r
    ensures r.Follows(res, GetSoftware(old(r.Rest())))
  {
    hide GetU64, GetStr;
    var firmwareVersion :- r.String();
    var firmwareGen :- r.U64();
    var runtimeVersion :- r.String();
    var runtimeGen :- r.U64();
    var architecture :- r.String();
    return Ok(DeviceSoftware(firmwareVersion, firmwareGen, runtimeVersion, runtimeGen, architecture));
  }

  method WriteCapacity(w: Writer, d: DeviceCapacity)
    modifies w
    ensures forall t: seq<byte> {:trigger w.buf + t} :: w.buf + t == old(w.buf) + PutCapacity(d, t)
  {
    hide PutU64, PutResources, GetU64, GetResources;
    w.U64(d.processingUnits);
    w.U64(d.memoryBytes);
    w.U64(d.programmableMemory);
    WriteResources(w, d.resources);
  }

  method ReadCapacity(r: Reader) returns (res: Result<DeviceCapacity>)
    requires r.Valid()
    modifies r
    ensures r.Follows(res, GetCapacity(old(r.Rest())))
  {
    hide GetU64, GetResources;
    var processingUnits :- r.U64();
    var memoryBytes :- r.U64();
    var programmableMemory :- r.U64();
    var resources :- ReadResources(r);
    return Ok(DeviceCapacity(processingUnits, memoryBytes, programmableMemory, resources));
  }

  method WriteCapabilities(w: Writer, caps: map<Str, Capability>) returns (r: Result<()>)
    modifies w
    ensures r.Ok? <==> WritableCapabilities(caps)
    ensures r.Ok? ==> forall t: seq<byte> {:trigger w.buf + t} :: w.buf + t == old(w.buf) + PutCapabilities(caps, t)
    ensures r.Err? ==> r.error == INVALID_ARGUMENT
  {
    hide PutCapability, PutU32, WritableCapability, InOrder, GetCapability, GetU32, Every;
    EveryListed(WritableCapability, caps, InOrder(caps.Keys));
    EveryNone(WritableCapability, CapabilityList(caps));
    var keys := InOrder(caps.Keys);
    ghost var list := CapabilityList(caps);
    w.U32(|caps| % 0x1_0000_0000);
    ghost var start := w.buf;
    for i := 0 to |keys|
      invariant forall t: seq<byte> {:trigger w.buf + t} :: w.buf + t == start + PutMany(PutCapability, list[..i], t)
      invariant Every(WritableCapability, list[..i])
    {
      EveryOneMore(WritableCapability, list, i);
      PutOneMore(PutCapability, list, i);
      assert keys[i] in caps;
      var _ :- WriteCapability(w, caps[keys[i]]);
    }
    assert list[..|list|] == list;
    return Ok(());
  }

  method ReadCapabilities(r: Reader) returns (res: Result<map<Str, Capability>>)
    requires r.Valid()
    modifies r
    ensures r.Follows(res, GetCapabilities(old(r.Rest())))
  {
    hide GetCapability, GetU32;
    var n :- r.U32();
    if n > MAX_CONTAINER_COUNT {
      return Err(CORRUPT_STATE);
    }
    ghost var start := r.Rest();
    ghost var list := [];
    var caps := map[];
    for i := 0 to n
      invariant r.Valid() && GetMany(GetCapability, i, start) == Ok(Taken(list, r.Rest()))
      invariant caps == Indexed(KeyOf, list)
    {
      GetFails(GetCapability, i + 1, n, start);
      var c :- ReadCapability(r);
      caps := caps[c.key := c];
      IndexedOneMore(KeyOf, list, c);
      list := list + [c];
    }
    return Ok(caps);
  }

  method WriteFeatures(w: Writer, d: DeviceFeatures) returns (r: Result<()>)
    modifies w
    ensures r.Ok? <==> WritableFeatures(d)
    ensures r.Ok? ==> forall t: seq<byte> {:trigger w.buf + t} :: w.buf + t == old(w.buf) + PutFeatures(d, t)
    ensures r.Err? ==> r.error == INVALID_ARGUMENT
  {
    hide PutBool, PutIds, PutCapabilities, PutCodes, PutStrings, PutU8, PutStr, WritableCapabilities,
         WritableStrings, GetBool, GetIds, GetCapabilities, GetCodes, GetStrings, GetU8, GetStr;
    WriteIds(w, d.ports);
    WriteIds(w, d.functions);
    var _ :- WriteCapabilities(w, d.capabilities);
    WriteCodes(w, d.offloadClasses);
    WriteCodes(w, d.executionModels);
    var _ :- WriteStrings(w, d.programFormats);
    WriteBool(w, d.supportsDma);
    WriteBool(w, d.rdmaAdjacent);
    r := w.String(d.hostComm);
  }

  method ReadFeatures(r: Reader) returns (res: Result<DeviceFeatures>)
    requires r.Valid()
    modifies r
    ensures r.Follows(res, GetFeatures(old(r.Rest())))
  {
    hide GetIds, GetCapabilities, GetCodes, GetStrings, GetBool, GetStr;
    var ports :- ReadIds(r);
    var functions :- ReadIds(r);
    var capabilities :- ReadCapabilities(r);
    var offloadClasses :- ReadCodes(r, MAX_DEVICE_CLASSES);
    var executionModels :- ReadCodes(r, MAX_EXECUTION_MODELS);
    var programFormats :- ReadStrings(r);
    var supportsDma :- ReadBool(r);
    var rdmaAdjacent :- ReadBool(r);
    var hostComm :- r.String();
    return Ok(DeviceFeatures(ports, functions, capabilities, offloadClasses, executionModels, programFormats, supportsDma,
                             rdmaAdjacent, hostComm));
  }

  method WriteDeviceIsolation(w: Writer, d: DeviceIsolation)
    modifies w
    ensures forall t: seq<byte> {:trigger w.buf + t} :: w.buf + t == old(w.buf) + PutDeviceIsolation(d, t)
  {
    hide PutBool, PutU64, PutU8, GetBool, GetU64, GetU8;
    WriteBool(w, d.hardwareIsolation);
    w.U64(d.isolationDomain);
    w.U64(d.tenant);
    WriteBool(w, d.isolationProven);
  }

  method ReadDeviceIsolation(r: Reader) returns (res: Result<DeviceIsolation>)
    requires r.Valid()
    modifies r
    ensures r.Follows(res, GetDeviceIsolation(old(r.Rest())))
  {
    hide GetU64, GetBool;
    var hardwareIsolation :- ReadBool(r);
    var isolationDomain :- r.U64();
    var tenant :- r.U64();
    var isolationProven :- ReadBool(r);
    return Ok(DeviceIsolation(hardwareIsolation, isolationDomain, tenant, isolationProven));
  }

  method WriteStatus(w: Writer, d: DeviceStatus) returns (r: Result<()>)
    modifies w
    ensures r.Ok? <==> FitsStr(d.discoveryDetail)
    ensures r.Ok? ==> forall t: seq<byte> {:trigger w.buf + t} :: w.buf + t == old(w.buf) + PutStatus(d, t)
    ensures r.Err? ==> r.error == INVALID_ARGUMENT
  {
    hide PutBool, PutU8, PutU64, PutStr, GetBool, GetU8, GetU64, GetStr;
    w.U8(d.locality);
    w.U8(d.health);
    w.U8(CodeIn(LIFECYCLES, d.lifecycle) % 0x100);
    w.U8(d.discoverySource);
    w.U64(d.evidenceGen);
    WriteBool(w, d.evidenceFresh);
    var _ :- w.String(d.discoveryDetail);
    w.U64(d.owningWorker);
    w.U64(d.ownerWorkerBoot);
    return Ok(());
  }

  method ReadStatus(r: Reader) returns (res: Result<DeviceStatus>)
    requires r.Valid()
    modifies r
    ensures r.Follows(res, GetStatus(old(r.Rest())))
  {
    hide GetU8, GetChecked, GetEnum, GetU64, GetBool, GetStr;
    var locality :- r.U8();
    var health :- ReadChecked(r, LAST_HEALTH);
    var lifecycle :- ReadEnum(r, LIFECYCLES);
    var discoverySource :- r.U8();
    var evidenceGen :- r.U64();
    var evidenceFresh :- ReadBool(r);
    var discoveryDetail :- r.String();
    var owningWorker :- r.U64();
    var ownerWorkerBoot :- r.U64();
    return Ok(DeviceStatus(locality, health, lifecycle, discoverySource, evidenceGen, evidenceFresh, discoveryDetail,
                           owningWorker, ownerWorkerBoot));
  }

  method WriteDevice(w: Writer, d: DeviceRecord) returns (r: Result<()>)
    modifies w
    ensures r.Ok? <==> WritableDevice(d)
    ensures r.Ok? ==> forall t: seq<byte> {:trigger w.buf + t} :: w.buf + t == old(w.buf) + PutDevice(d, t)
    ensures r.Err? ==> r.error == INVALID_ARGUMENT
  {
    hide PutIdentity, PutSoftware, PutCapacity, PutFeatures, PutDeviceIsolation, PutStatus, StorableIdentity,
         StorableSoftware, WritableFeatures, GetIdentity, GetSoftware, GetCapacity, GetFeatures,
         GetDeviceIsolation, GetStatus;
    var _ :- WriteIdentity(w, d.identity);
    var _ :- WriteSoftware(w, d.software);
    WriteCapacity(w, d.capacity);
    var _ :- WriteFeatures(w, d.features);
    WriteDeviceIsolation(w, d.isolation);
    r := WriteStatus(w, d.status);
  }

  method ReadDevice(r: Reader) returns (res: Result<DeviceRecord>)
    requires r.Valid()
    modifies r
    ensures r.Follows(res, GetDevice(old(r.Rest())))
  {
    hide GetIdentity, GetSoftware, GetCapacity, GetFeatures, GetDeviceIsolation, GetStatus;
    var identity :- ReadIdentity(r);
    var software :- ReadSoftware(r);
    var capacity :- ReadCapacity(r);
    var features :- ReadFeatures(r);
    var isolation :- ReadDeviceIsolation(r);
    var status :- ReadStatus(r);
    return Ok(DeviceRecord(identity, software, capacity, features, isolation, status));
  }

  // ---- services and programs ----

  method WriteService(w: Writer, s: ServiceDefinition) returns (r: Result<()>)
    modifies w
    ensures r.Ok? <==> WritableService(s)
    ensures r.Ok? ==> forall t: seq<byte> {:trigger w.buf + t} :: w.buf + t == old(w.buf) + PutService(s, t)
    ensures r.Err? ==> r.error == INVALID_ARGUMENT
  {
    hide PutBool, PutU64, PutU8, PutRequirements, PutIsolation, PutResources, PutStr, PutCodes, PutIds,
         WritableRequirements, StorableIsolation, GetBool, GetU64, GetU8, GetRequirements, GetIsolation,
         GetResources, GetStr, GetCodes, GetIds;
    w.U64(s.serviceId);
    w.U64(s.serviceGen);
    w.U8(s.offloadClass);
    var _ :- WriteRequirements(w, s.requiredCaps);
    var _ :- WriteRequirements(w, s.optionalCaps);
    var _ :- WriteIsolation(w, s.isolation);
    WriteResources(w, s.resource);
    w.U8(s.executionModel);
    w.U64(s.minFirmwareGen);
    w.U64(s.minRuntimeGen);
    w.U64(s.requiredProgram);
    var _ :- w.String(s.requiredAbi);
    w.U8(s.statefulness);
    WriteBool(w, s.recoverable);
    WriteCodes(w, s.allowedFallbackClasses);
    var _ :- w.String(s.failurePolicy);
    WriteIds(w, s.dependencies);
    return Ok(());
  }

  method ReadService(r: Reader) returns (res: Result<ServiceDefinition>)
    requires r.Valid()
    modifies r
    ensures r.Follows(res, GetService(old(r.Rest())))
  {
    hide GetU64, GetU8, GetChecked, GetRequirements, GetIsolation, GetResources, GetStr, GetBool, GetCodes, GetIds;
    var serviceId :- r.U64();
    var serviceGen :- r.U64();
    var offloadClass :- ReadChecked(r, LAST_OFFLOAD_CLASS);
    var requiredCaps :- ReadRequirements(r);
    var optionalCaps :- ReadRequirements(r);
    var isolation :- ReadIsolation(r);
    var resource :- ReadResources(r);
    var executionModel :- r.U8();
    var minFirmwareGen :- r.U64();
    var minRuntimeGen :- r.U64();
    var requiredProgram :- r.U64();
    var requiredAbi :- r.String();
    var statefulness :- r.U8();
    var recoverable :- ReadBool(r);
    var allowedFallbackClasses :- ReadCodes(r, MAX_FALLBACK_CLASSES);
    var failurePolicy :- r.String();
    var dependencies :- ReadIds(r);
    return Ok(ServiceDefinition(serviceId, serviceGen, offloadClass, requiredCaps, optionalCaps, isolation, resource,
                                executionModel, minFirmwareGen, minRuntimeGen, requiredProgram, requiredAbi, statefulness,
                                recoverable, allowedFallbackClasses, failurePolicy, dependencies));
  }

  method WriteProgram(w: Writer, p: ProgramArtifact) returns (r: Result<()>)
    modifies w
    ensures r.Ok? <==> WritableProgram(p)
    ensures r.Ok? ==> forall t: seq<byte> {:trigger w.buf + t} :: w.buf + t == old(w.buf) + PutProgram(p, t)
    ensures r.Err? ==> r.error == INVALID_ARGUMENT
  {
    hide PutU64, PutU8, PutRequirements, PutStr, PutRaw, WritableRequirements, GetU64, GetU8, GetRequirements,
         GetStr, GetRaw;
    w.U64(p.programId);
    w.U64(p.programGen);
    w.U64(p.artifactId);
    w.U64(p.artifactGen);
    w.U8(p.artifactType);
    var _ :- w.String(p.version);
    w.Raw(p.contentHash);
    var _ :- w.String(p.targetArchitecture);
    var _ :- w.String(p.runtimeAbi);
    var _ :- WriteRequirements(w, p.requiredCaps);
    w.U64(p.minFirmwareGen);
    var _ :- w.String(p.provenance);
    r := w.String(p.sizeHint);
  }

  method ReadProgram(r: Reader) returns (res: Result<ProgramArtifact>)
    requires r.Valid()
    modifies r
    ensures r.Follows(res, GetProgram(old(r.Rest())))
  {
    hide GetU64, GetU8, GetRequirements, GetStr, GetRaw;
    var programId :- r.U64();
    var programGen :- r.U64();
    var artifactId :- r.U64();
    var artifactGen :- r.U64();
    var artifactType :- r.U8();
    var version :- r.String();
    var contentHash :- r.Raw(HASH_BYTES);
    var targetArchitecture :- r.String();
    var runtimeAbi :- r.String();
    var requiredCaps :- ReadRequirements(r);
    var minFirmwareGen :- r.U64();
    var provenance :- r.String();
    var sizeHint :- r.String();
    return Ok(ProgramArtifact(programId, programGen, artifactId, artifactGen, artifactType, version, contentHash,
                              targetArchitecture, runtimeAbi, requiredCaps, minFirmwareGen, provenance, sizeHint));
  }

  // ---- deployments and policy ----

  method WriteBinding(w: Writer, b: DeploymentBinding)
    modifies w
    ensures forall t: seq<byte> {:trigger w.buf + t} :: w.buf + t == old(w.buf) + PutBinding(b, t)
  {
    hide PutU64, PutResources, GetU64, GetResources;
    w.U64(b.deploymentId);
    w.U64(b.generation);
    w.U64(b.attemptId);
    w.U64(b.service);
    w.U64(b.serviceGen);
    w.U64(b.program);
    w.U64(b.programGen);
    w.U64(b.artifact);
    w.U64(b.artifactGen);
    w.U64(b.device);
    w.U64(b.deviceGen);
    w.U64(b.deviceBoot);
    w.U64(b.tenant);
    w.U64(b.isolationDomain);
    WriteResources(w, b.resources);
  }

  method ReadBindingHead(r: Reader) returns (res: Result<BindingHead>)
    requires r.Valid()
    modifies r
    ensures r.Follows(res, GetBindingHead(old(r.Rest())))
  {
    hide GetU64;
    var deploymentId :- r.U64();
    var generation :- r.U64();
    var attemptId :- r.U64();
    var service :- r.U64();
    var serviceGen :- r.U64();
    var program :- r.U64();
    var programGen :- r.U64();
    return Ok(BindingHead(deploymentId, generation, attemptId, service, serviceGen, program, programGen));
  }

  method ReadBinding(r: Reader) returns (res: Result<DeploymentBinding>)
    requires r.Valid()
    modifies r
    ensures r.Follows(res, GetBinding(old(r.Rest())))
  {
    hide GetU64, GetResources, GetBindingHead;
    var head :- ReadBindingHead(r);
    var artifact :- r.U64();
    var artifactGen :- r.U64();
    var device :- r.U64();
    var deviceGen :- r.U64();
    var deviceBoot :- r.U64();
    var tenant :- r.U64();
    var isolationDomain :- r.U64();
    var resources :- ReadResources(r);
    return Ok(DeploymentBinding(head.deploymentId, head.generation, head.attemptId, head.service, head.serviceGen,
                                head.program, head.programGen, artifact, artifactGen, device, deviceGen, deviceBoot,
                                tenant, isolationDomain, resources));
  }

  method WriteDeployment(w: Writer, d: Deployment)
    modifies w
    ensures forall t: seq<byte> {:trigger w.buf + t} :: w.buf + t == old(w.buf) + PutDeployment(d, t)
  {
    hide PutBool, PutU64, PutU8, PutBinding, GetBool, GetU64, GetU8, GetBinding;
    WriteBinding(w, d.binding);
    w.U8(CodeIn(DEPLOYMENT_STATES, d.state) % 0x100);
    WriteBool(w, d.activation.Some?);
    if d.activation.Some? {
      w.U64(d.activation.value);
    }
    w.U64(d.activationGen);
    w.U64(d.epoch);
    w.U64(d.workerBoot);
    w.U64(d.evidenceGen);
    w.U64(d.policyGen);
    WriteBool(w, d.authoritative);
    w.U64(d.createdMs);
    w.U64(d.updatedMs);
  }

  method ReadOptional(r: Reader) returns (res: Result<Option<u64>>)
    requires r.Valid()
    modifies r
    ensures r.Follows(res, GetOptional(old(r.Rest())))
  {
    hide GetBool, GetU64;
    var present :- ReadBool(r);
    if !present {
      return Ok(None);
    }
    var id :- r.U64();
    return Ok(Some(id));
  }

  method ReadDeployment(r: Reader) returns (res: Result<Deployment>)
    requires r.Valid()
    modifies r
    ensures r.Follows(res, GetDeployment(old(r.Rest())))
  {
    hide GetBinding, GetEnum, GetOptional, GetU64, GetBool;
    var binding :- ReadBinding(r);
    var state :- ReadEnum(r, DEPLOYMENT_STATES);
    var activation :- ReadOptional(r);
    var activationGen :- r.U64();
    var epoch :- r.U64();
    var workerBoot :- r.U64();
    var evidenceGen :- r.U64();
    var policyGen :- r.U64();
    var authoritative :- ReadBool(r);
    var createdMs :- r.U64();
    var updatedMs :- r.U64();
    return Ok(Deployment(binding, state, activation, activationGen, epoch, workerBoot, evidenceGen, policyGen,
                         authoritative, createdMs, updatedMs));
  }

  method WriteWeight(w: Writer, weight: RankWeight)
    modifies w
    ensures forall t: seq<byte> {:trigger w.buf + t} :: w.buf + t == old(w.buf) + PutWeight(weight, t)
  {
    hide PutU8, PutU32, GetU8, GetU32;
    w.U8(weight.factor);
    w.U32(weight.weight % TWO_32);
  }

  method WriteWeights(w: Writer, ws: seq<RankWeight>)
    modifies w
    ensures forall t: seq<byte> {:trigger w.buf + t} :: w.buf + t == old(w.buf) + PutWeights(ws, t)
  {
    hide PutWeight, PutU32, GetWeight, GetU32;
    w.U32(|ws| % 0x1_0000_0000);
    ghost var start := w.buf;
    for i := 0 to |ws|
      invariant forall t: seq<byte> {:trigger w.buf + t} :: w.buf + t == start + PutMany(PutWeight, ws[..i], t)
    {
      PutOneMore(PutWeight, ws, i);
      WriteWeight(w, ws[i]);
    }
    assert ws[..|ws|] == ws;
  }

  method ReadWeight(r: Reader) returns (res: Result<RankWeight>)
    requires r.Valid()
    modifies r
    ensures r.Follows(res, GetWeight(old(r.Rest())))
  {
    hide GetU8, GetU32;
    var factor :- r.U8();
    var v :- r.U32();
    return Ok(RankWeight(factor, if v < 0x8000_0000 then v else v - TWO_32));
  }

  method ReadWeights(r: Reader) returns (res: Result<seq<RankWeight>>)
    requires r.Valid()
    modifies r
    ensures r.Follows(res, GetWeights(old(r.Rest())))
  {
    hide GetWeight, GetU32;
    var n :- r.U32();
    if n > MAX_WEIGHTS {
      return Err(CORRUPT_STATE);
    }
    ghost var start := r.Rest();
    var out := [];
    for i := 0 to n
      invariant r.Valid() && GetMany(GetWeight, i, start) == Ok(Taken(out, r.Rest()))
    {
      GetFails(GetWeight, i + 1, n, start);
      var v :- ReadWeight(r);
      out := out + [v];
    }
    return Ok(out);
  }

  method WritePolicy(w: Writer, p: Policy)
    modifies w
    ensures forall t: seq<byte> {:trigger w.buf + t} :: w.buf + t == old(w.buf) + PutPolicy(p, t)
  {
    hide PutBool, PutU64, PutU8, PutWeights, StorableWeights, GetBool, GetU64, GetU8, GetWeights;
    w.U64(p.generation);
    w.U64(p.version);
    WriteBool(w, p.allowHostFallback);
    WriteBool(w, p.requireAuthoritativeEvidence);
    WriteBool(w, p.preferWarmDeployments);
    WriteBool(w, p.preferDedicatedIsolation);
    WriteBool(w, p.requireOffloadForRequired);
    w.U64(p.minHeadroom);
    w.U64(p.maxQueuePressure);
    w.U8(p.minDeviceHealth);
    WriteWeights(w, p.weights);
  }

  method ReadPolicy(r: Reader) returns (res: Result<Policy>)
    requires r.Valid()
    modifies r
    ensures r.Follows(res, GetPolicy(old(r.Rest())))
  {
    hide GetU64, GetBool, GetU8, GetWeights;
    var generation :- r.U64();
    var version :- r.U64();
    var allowHostFallback :- ReadBool(r);
    var requireAuthoritativeEvidence :- ReadBool(r);
    var preferWarmDeployments :- ReadBool(r);
    var preferDedicatedIsolation :- ReadBool(r);
    var requireOffloadForRequired :- ReadBool(r);
    var minHeadroom :- r.U64();
    var maxQueuePressure :- r.U64();
    var minDeviceHealth :- r.U8();
    var weights :- ReadWeights(r);
    return Ok(Policy(generation, version, allowHostFallback, requireAuthoritativeEvidence, preferWarmDeployments,
                     preferDedicatedIsolation, requireOffloadForRequired, minHeadroom, maxQueuePressure, minDeviceHealth,
                     weights, [], []));
  }
}
