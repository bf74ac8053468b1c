/** How many bytes records take in the state file. */
module Sizes {
  import opened Base
  import opened Resource
  import opened Records
  import opened Wire
  import opened Counted
  import opened Keys
  import opened Layout

  lemma ByteLengths()
    ensures forall v: byte, t: seq<byte> :: |PutU8(v, t)| == 1 + |t|
    ensures forall b: bool, t: seq<byte> :: |PutBool(b, t)| == 1 + |t|
    ensures forall last: byte, v: byte, t: seq<byte> :: |PutChecked(last, v, t)| == 1 + |t|
  {
  }

  lemma EnumLengths()
    ensures forall v: DeviceClass, t: seq<byte> :: |PutEnum(DEVICE_CLASSES, v, t)| == 1 + |t|
    ensures forall v: DeviceLifecycle, t: seq<byte> :: |PutEnum(LIFECYCLES, v, t)| == 1 + |t|
    ensures forall v: DeploymentState, t: seq<byte> :: |PutEnum(DEPLOYMENT_STATES, v, t)| == 1 + |t|
  {
  }

  lemma WordLengths()
    ensures forall v: u32, t: seq<byte> :: |PutU32(v, t)| == 4 + |t|
    ensures forall v: u64, t: seq<byte> :: |PutU64(v, t)| == 8 + |t|
  {
  }

  lemma ListLengths()
    ensures forall s: Str, t: seq<byte> :: |PutStr(s, t)| == 4 + |s| + |t|
    ensures forall t: seq<byte> :: |PutIds([], t)| == |PutCodes([], t)| == |PutStrings([], t)| == 4 + |t|
    ensures forall t: seq<byte> :: |PutCapabilities(map[], t)| == 4 + |t|
    ensures forall r: Resources, t: seq<byte> :: |PutResources(r, t)| == 40 + |t|
  {
    hide PutU32, PutU64;
    WordLengths();
    assert CapabilityList(map[]) == [];
  }

  // ---- devices without texts or lists ----

  predicate Bare(d: DeviceRecord) {
    && d.identity.vendor == d.identity.model == d.identity.pciReference == d.identity.parentNicReference == []
    && d.software.firmwareVersion == d.software.runtimeVersion == d.software.architecture == []
    && d.features.ports == d.features.functions == [] && d.features.capabilities == map[]
    && d.features.offloadClasses == d.features.executionModels == [] && d.features.programFormats == []
    && d.features.hostComm == [] && d.status.discoveryDetail == []
    && 1 <= d.status.health <= LAST_HEALTH
  }

  lemma IdentityLength(d: DeviceRecord, t: seq<byte>)
    requires Bare(d)
    ensures |PutIdentity(d.identity, t)| == 49 + |t| && |PutSoftware(d.software, t)| == 28 + |t|
  {
    hide PutStr, PutU64, PutEnum;
    ListLengths();
    WordLengths();
    EnumLengths();
  }

  lemma FeaturesLength(d: DeviceRecord, t: seq<byte>)
    requires Bare(d)
    ensures |PutFeatures(d.features, t)| == 30 + |t| && |PutCapacity(d.capacity, t)| == 64 + |t|
  {
    hide PutStr, PutU64, PutBool, PutIds, PutCodes, PutStrings, PutCapabilities, PutResources;
    ListLengths();
    WordLengths();
    ByteLengths();
  }

  lemma StatusLength(d: DeviceRecord, t: seq<byte>)
    requires Bare(d)
    ensures |PutStatus(d.status, t)| == 33 + |t| && |PutDeviceIsolation(d.isolation, t)| == 18 + |t|
  {
    hide PutStr, PutU64, PutBool, PutEnum, PutU8, PutChecked;
    ListLengths();
    WordLengths();
    ByteLengths();
    EnumLengths();
  }

  lemma BareIsStorable(d: DeviceRecord)
    requires Bare(d)
    ensures StorableDevice(d)
  {
    assert InOrder({}) == [];
  }

  lemma DeviceLength(d: DeviceRecord, t: seq<byte>)
    requires Bare(d)
    ensures |PutDevice(d, t)| == 222 + |t|
  {
    hide PutIdentity, PutSoftware, PutCapacity, PutFeatures, PutDeviceIsolation, PutStatus, Bare;
    var t5 := PutStatus(d.status, t);
    var t4 := PutDeviceIsolation(d.isolation, t5);
    var t3 := PutFeatures(d.features, t4);
    var t2 := PutCapacity(d.capacity, t3);
    var t1 := PutSoftware(d.software, t2);
    StatusLength(d, t);
    StatusLength(d, t5);
    FeaturesLength(d, t4);
    FeaturesLength(d, t3);
    IdentityLength(d, t2);
    IdentityLength(d, t1);
  }

  // ---- deployments, usage and policy ----

  lemma SevenWords(a: u64, b: u64, c: u64, d: u64, e: u64, f: u64, g: u64, t: seq<byte>)
    ensures |PutU64(a, PutU64(b, PutU64(c, PutU64(d, PutU64(e, PutU64(f, PutU64(g, t)))))))| == 56 + |t|
  {
    hide PutU64;
    WordLengths();
  }

  lemma BindingLength(b: DeploymentBinding, t: seq<byte>)
    ensures |PutBinding(b, t)| == 152 + |t|
  {
    hide PutU64, PutResources;
    var r := PutResources(b.resources, t);
    var half := PutU64(b.artifact, PutU64(b.artifactGen, PutU64(b.device, PutU64(b.deviceGen, PutU64(b.deviceBoot,
                PutU64(b.tenant, PutU64(b.isolationDomain, r)))))));
    ListLengths();
    SevenWords(b.artifact, b.artifactGen, b.device, b.deviceGen, b.deviceBoot, b.tenant, b.isolationDomain, r);
    SevenWords(b.deploymentId, b.generation, b.attemptId, b.service, b.serviceGen, b.program, b.programGen, half);
  }

  lemma OptionalLength(a: Option<u64>, t: seq<byte>)
    ensures |PutOptional(a, t)| <= 9 + |t|
  {
    hide PutBool, PutU64, PutU8;
    ByteLengths();
    WordLengths();
  }

  lemma DeploymentTail(d: Deployment, t: seq<byte>)
    ensures |PutU64(d.activationGen, PutU64(d.epoch, PutU64(d.workerBoot, PutU64(d.evidenceGen, PutU64(d.policyGen,
             PutBool(d.authoritative, PutU64(d.createdMs, PutU64(d.updatedMs, t))))))))| == 57 + |t|
  {
    hide PutBool, PutU64;
    WordLengths();
    ByteLengths();
  }

  lemma DeploymentLength(d: Deployment, t: seq<byte>)
    ensures |PutDeployment(d, t)| <= 219 + |t|
  {
    hide PutBinding, PutEnum, PutOptional, PutU64, PutBool;
    var t2 := PutU64(d.activationGen, PutU64(d.epoch, PutU64(d.workerBoot, PutU64(d.evidenceGen, PutU64(d.policyGen,
              PutBool(d.authoritative, PutU64(d.createdMs, PutU64(d.updatedMs, t))))))));
    var t1 := PutEnum(DEPLOYMENT_STATES, d.state, PutOptional(d.activation, t2));
    DeploymentTail(d, t);
    EnumLengths();
    OptionalLength(d.activation, t2);
    BindingLength(d.binding, t1);
  }

  lemma UsageLength(u: StoredUsage, t: seq<byte>)
    ensures |PutUsage(u, t)| == 48 + |t|
  {
    hide PutU64, PutResources;
    ListLengths();
    WordLengths();
  }

  lemma WeightLength(w: RankWeight, t: seq<byte>)
    ensures |PutWeight(w, t)| == 5 + |t|
  {
    hide PutU8, PutU32;
    ByteLengths();
    WordLengths();
  }

  /** A run of records of bounded size. */
  lemma {:induction false} ManyLength<T>(put: Put<T>, vs: seq<T>, size: nat, t: seq<byte>)
    requires forall v, r :: v in vs ==> |put(v, r)| <= size + |r|
    ensures |PutMany(put, vs, t)| <= size * |vs| + |t|
    decreases |vs|
  {
    if vs != [] {
      ManyLength(put, vs[..|vs| - 1], size, put(vs[|vs| - 1], t));
      assert size * |vs| == size * (|vs| - 1) + size;
    }
  }

  lemma {:induction false} WeightsLength(ws: seq<RankWeight>, t: seq<byte>)
    ensures |PutMany(PutWeight, ws, t)| == 5 * |ws| + |t|
    decreases |ws|
  {
    hide PutWeight;
    if ws != [] {
      WeightLength(ws[|ws| - 1], t);
      WeightsLength(ws[..|ws| - 1], PutWeight(ws[|ws| - 1], t));
    }
  }

  lemma PolicyLength(p: Policy, t: seq<byte>)
    ensures |PutPolicy(p, t)| == 42 + 5 * |p.weights| + |t|
  {
    hide PutBool, PutU64, PutU8, PutWeights, PutMany;
    ByteLengths();
    WordLengths();
    WeightsLength(p.weights, t);
    CountedWeights(p.weights, t);
  }

  lemma CountedWeights(ws: seq<RankWeight>, t: seq<byte>)
    ensures |PutWeights(ws, t)| == 4 + |PutMany(PutWeight, ws, t)|
  {
    hide PutU32, PutMany;
    WordLengths();
  }
}
