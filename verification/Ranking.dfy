/** Only the winner's own state decides the ranking: losing candidates can change without moving it. */
module Ranking {
  import opened Base
  import opened Resource
  import opened Records
  import opened Coordinator
  import opened Eligibility
  import Devices
  import Fencing
  import Headroom

  /** Removing losers, or leaving them as they are, keeps the winner; no winner stays no winner. */
  lemma LosersIrrelevant(a: Snapshot, b: Snapshot, req: OffloadRequest)
    requires a.deviceOrder == b.deviceOrder
    requires forall e :: e in b.deviceOrder && Passes(b, req, e) ==> Passes(a, req, e) && TotalOf(a, req, e) == TotalOf(b, req, e)
    ensures forall did :: IsSelected(a, req, did) && Passes(b, req, did) ==> IsSelected(b, req, did)
    ensures NothingSelected(a, req) ==> NothingSelected(b, req)
  {
    hide Passes, TotalOf;
  }

  /** What evaluation reads besides the candidate itself. */
  predicate SameCatalog(a: Snapshot, b: Snapshot) {
    && a.policy == b.policy && a.services == b.services && a.programs == b.programs
    && a.currentProgramGen == b.currentProgramGen
  }

  /** b has the same candidate e, except perhaps for its features. */
  predicate SameButFeatures(a: Snapshot, b: Snapshot, req: OffloadRequest, e: u64)
    requires e in a.devices && e in b.devices
  {
    && SameCatalog(a, b) && UsageOf(a, e) == UsageOf(b, e) && Warm(a, req, e) == Warm(b, req, e)
    && b.devices[e] == a.devices[e].(features := b.devices[e].features)
  }

  lemma SameScores(a: Snapshot, b: Snapshot, req: OffloadRequest, e: u64)
    requires e in a.devices && e in b.devices && SameButFeatures(a, b, req, e)
    ensures TotalOf(a, req, e) == TotalOf(b, req, e)
  {
    hide Warm, UsageOf, Headroom.HeadroomPct, QueuePressure, DeviceLoad, Total, LocalityValue, HealthSeverity;
    LoadSeesCapacity(a.devices[e], b.devices[e], UsageOf(a, e));
  }

  lemma LoadSeesCapacity(a: DeviceRecord, b: DeviceRecord, u: Resources)
    requires a.capacity == b.capacity
    ensures QueuePressure(a, u) == QueuePressure(b, u) && DeviceLoad(a, u) == DeviceLoad(b, u)
  {
  }

  lemma SameRequestView(a: Snapshot, b: Snapshot, req: OffloadRequest)
    requires SameCatalog(a, b)
    ensures ServiceOf(a, req) == ServiceOf(b, req) && WantedProgram(a, req) == WantedProgram(b, req)
    ensures CurrentProgram(a, req) == CurrentProgram(b, req) && RequiredCaps(a, req) == RequiredCaps(b, req)
    ensures DependencyMissing(a, req) == DependencyMissing(b, req) && ResourcesFor(a, req) == ResourcesFor(b, req)
  {
  }

  /** An unchanged candidate is judged as before. */
  lemma SameRejections(a: Snapshot, b: Snapshot, req: OffloadRequest, e: u64)
    requires e in a.devices && e in b.devices && SameButFeatures(a, b, req, e) && a.devices[e] == b.devices[e]
    ensures Rejections(a, req, e) == Rejections(b, req, e)
  {
    SameRequestView(a, b, req);
    hide Placement, Readiness, ClassSupport, CapabilityChecks, PolicyChecks, AttachmentFit, LoadLimits, SecurityAndLocality,
         ServiceOf, WantedProgram, CurrentProgram, RequiredCaps, DependencyMissing, ResourcesFor, UsageOf, Warm, When,
         IsolationProven, IsolationSpec.SatisfiedBy, Admits;
    var d := a.devices[e];
    assert ProgramFit(a, d, req) == ProgramFit(b, d, req);
    assert SoftwareFloors(a, d, req) == SoftwareFloors(b, d, req);
    assert IsolationFit(a, d, req) == IsolationFit(b, d, req);
    assert Availability(a, d, UsageOf(a, e), req) == Availability(b, d, UsageOf(b, e), req);
  }

  lemma SameCandidate(a: Snapshot, b: Snapshot, req: OffloadRequest, e: u64)
    requires e in a.devices && e in b.devices && SameButFeatures(a, b, req, e) && a.devices[e] == b.devices[e]
    ensures Passes(a, req, e) <==> Passes(b, req, e)
    ensures TotalOf(a, req, e) == TotalOf(b, req, e)
  {
    SameRejections(a, b, req, e);
    SameScores(a, b, req, e);
    hide SameButFeatures, Rejections, TotalOf;
  }

  // ---- fencing a losing device ----

  lemma ColdStaysCold(id: u64, d: Deployment, e: u64, svc: Option<ServiceDefinition>)
    requires e != id
    ensures WarmOn(Fencing.AfterFence(DeviceFenced(id), d), e, svc) <==> WarmOn(d, e, svc)
  {
  }

  lemma WarmElsewhere(s: State, r: State, id: u64, req: OffloadRequest, e: u64)
    requires e != id && r.services == s.services && r.deployments.Keys == s.deployments.Keys
    requires forall k :: k in s.deployments ==>
               r.deployments[k] == s.deployments[k] || r.deployments[k] == Fencing.AfterFence(DeviceFenced(id), s.deployments[k])
    ensures Warm(MakeSnapshot(s), req, e) == Warm(MakeSnapshot(r), req, e)
  {
    hide WarmOn, Fencing.AfterFence;
    var svc := ServiceOf(MakeSnapshot(s), req);
    assert ServiceOf(MakeSnapshot(r), req) == svc;
    hide ServiceOf;
    forall k | k in s.deployments ensures WarmOn(r.deployments[k], e, svc) <==> WarmOn(s.deployments[k], e, svc) {
      ColdStaysCold(id, s.deployments[k], e, svc);
    }
  }

  /** What fencing device id leaves of the tables that evaluation reads. */
  lemma FenceLeaves(s: State, id: u64, reason: Str)
    requires id in s.devices
    ensures var r := FenceDevice(s, id, reason).state;
            && SameCatalog(MakeSnapshot(s), MakeSnapshot(r)) && r.deviceOrder == s.deviceOrder && r.usage == s.usage
            && r.devices == s.devices[id := FencedRecord(s.devices[id], reason)]
            && r.deployments == Fence(s, DeviceFenced(id)).deployments
  {
    hide FenceAll, FencedRecord;
    Fencing.FenceFrame(s, DeviceFenced(id));
    Fencing.FenceAllKeepsAccounts(s, s.deployments.Keys, DeviceFenced(id));
  }

  lemma FencedCandidate(s: State, id: u64, reason: Str, req: OffloadRequest, e: u64)
    requires id in s.devices
    ensures var a, b := MakeSnapshot(s), MakeSnapshot(FenceDevice(s, id, reason).state);
            && (e == id ==> !Passes(b, req, e))
            && (e != id && e in s.devices ==>
                  e in b.devices && (Passes(a, req, e) <==> Passes(b, req, e)) && TotalOf(a, req, e) == TotalOf(b, req, e))
            && (e !in s.devices ==> !Passes(b, req, e))
  {
    var a, b := MakeSnapshot(s), MakeSnapshot(FenceDevice(s, id, reason).state);
    FenceLeaves(s, id, reason);
    if e == id {
      NotReadyFails(b, req, id, s.devices[id], reason);
    } else if e in s.devices {
      hide FenceDevice, Fence, FencedRecord, Fencing.AfterFence, Warm;
      forall k | k in s.deployments
        ensures b.deployments.Keys == s.deployments.Keys
        ensures b.deployments[k] == Fencing.AfterFence(DeviceFenced(id), s.deployments[k])
      {
        Fencing.FenceAt(s, DeviceFenced(id), k);
      }
      WarmElsewhere(s, FenceDevice(s, id, reason).state, id, req, e);
      hide Passes, TotalOf;
      SameCandidate(a, b, req, e);
    }
  }

  lemma NotReadyFails(b: Snapshot, req: OffloadRequest, id: u64, d: DeviceRecord, reason: Str)
    requires id in b.devices && b.devices[id] == FencedRecord(d, reason)
    ensures !Passes(b, req, id)
  {
    hide Rejections;
    if Passes(b, req, id) {
      PassingMeans(b, req, id);
      assert false;
    }
  }

  /** Fencing a device that was not selected leaves the selection as it was. */
  lemma FencingALoser(s: State, id: u64, reason: Str, req: OffloadRequest)
    ensures var a, b := MakeSnapshot(s), MakeSnapshot(FenceDevice(s, id, reason).state);
            && (forall did :: did != id && IsSelected(a, req, did) ==> IsSelected(b, req, did))
            && (NothingSelected(a, req) ==> NothingSelected(b, req))
  {
    hide Passes, TotalOf;
    if id in s.devices {
      var a, b := MakeSnapshot(s), MakeSnapshot(FenceDevice(s, id, reason).state);
      FenceLeaves(s, id, reason);
      hide FenceDevice;
      forall e | e in b.deviceOrder
        ensures Passes(b, req, e) ==>
                  e in a.devices && e in b.devices && Passes(a, req, e) && TotalOf(a, req, e) == TotalOf(b, req, e)
      {
        FencedCandidate(s, id, reason, req, e);
      }
      LosersIrrelevant(a, b, req);
      forall did | did != id && IsSelected(a, req, did) ensures IsSelected(b, req, did) {
        FencedCandidate(s, id, reason, req, did);
        PassingIsKnown(a, req, did);
      }
    }
  }

  lemma PassingIsKnown(a: Snapshot, req: OffloadRequest, e: u64)
    requires Passes(a, req, e)
    ensures e in a.devices
  {
  }

  // ---- a losing device loses a capability as well ----

  lemma CheckNotEased(caps: map<Str, Capability>, key: Str, state: CapabilityState, c: CapabilityRequirement)
    requires state != CapabilityState.Supported
    ensures CapabilityCheck(WithCapabilityState(caps, key, state), c) == [] ==> CapabilityCheck(caps, c) == []
    ensures PolicyCheck(WithCapabilityState(caps, key, state), c) == [] ==> PolicyCheck(caps, c) == []
  {
  }

  lemma {:induction false} ChecksNotEased(caps: map<Str, Capability>, key: Str, state: CapabilityState, reqs: seq<CapabilityRequirement>)
    requires state != CapabilityState.Supported
    ensures CapabilityChecks(WithCapabilityState(caps, key, state), reqs) == [] ==> CapabilityChecks(caps, reqs) == []
    ensures PolicyChecks(WithCapabilityState(caps, key, state), reqs) == [] ==> PolicyChecks(caps, reqs) == []
    decreases |reqs|
  {
    hide CapabilityCheck, PolicyCheck, WithCapabilityState;
    if reqs != [] {
      ChecksNotEased(caps, key, state, reqs[..|reqs| - 1]);
      CheckNotEased(caps, key, state, reqs[|reqs| - 1]);
    }
  }

  lemma NotEased(a: Snapshot, b: Snapshot, req: OffloadRequest, id: u64, key: Str, state: CapabilityState)
    requires id in a.devices && id in b.devices && SameButFeatures(a, b, req, id) && state != CapabilityState.Supported
    requires var f := a.devices[id].features;
             b.devices[id].features == f.(capabilities := WithCapabilityState(f.capabilities, key, state))
    ensures Passes(b, req, id) ==> Passes(a, req, id)
  {
    var d, e := a.devices[id], b.devices[id];
    SameRequestView(a, b, req);
    ChecksNotEased(d.features.capabilities, key, state, RequiredCaps(a, req));
    ChecksNotEased(d.features.capabilities, key, state, a.policy.hardCaps);
    OtherChecksSame(a, b, req, id);
    hide Placement, Readiness, ClassSupport, ProgramFit, SoftwareFloors, CapabilityChecks, PolicyChecks, IsolationFit,
         AttachmentFit, LoadLimits, SecurityAndLocality, Availability, UsageOf, RequiredCaps, WithCapabilityState, Warm;
    if Passes(b, req, id) {
      var u := UsageOf(b, id);
      assert Placement(id, e, req) == [] && Readiness(e, b.policy.minDeviceHealth) == [] && ClassSupport(e, req) == [];
      assert ProgramFit(b, e, req) == [] && SoftwareFloors(b, e, req) == [];
      assert CapabilityChecks(e.features.capabilities, RequiredCaps(b, req)) == [];
      assert PolicyChecks(e.features.capabilities, b.policy.hardCaps) == [];
      assert IsolationFit(b, e, req) == [] && AttachmentFit(e, req) == [] && LoadLimits(b.policy, e, u) == [];
      assert SecurityAndLocality(e, req) == [] && Availability(b, e, u, req) == [];
    }
  }

  /** Checks that do not read capabilities come out the same. */
  lemma OtherChecksSame(a: Snapshot, b: Snapshot, req: OffloadRequest, id: u64)
    requires id in a.devices && id in b.devices && SameButFeatures(a, b, req, id)
    requires b.devices[id].features == a.devices[id].features.(capabilities := b.devices[id].features.capabilities)
    ensures var d, e, u := a.devices[id], b.devices[id], UsageOf(a, id);
            && Placement(id, d, req) == Placement(id, e, req)
            && Readiness(d, a.policy.minDeviceHealth) == Readiness(e, b.policy.minDeviceHealth)
            && ClassSupport(d, req) == ClassSupport(e, req)
            && ProgramFit(a, d, req) == ProgramFit(b, e, req)
            && SoftwareFloors(a, d, req) == SoftwareFloors(b, e, req)
            && IsolationFit(a, d, req) == IsolationFit(b, e, req)
            && AttachmentFit(d, req) == AttachmentFit(e, req)
            && LoadLimits(a.policy, d, u) == LoadLimits(b.policy, e, UsageOf(b, id))
            && SecurityAndLocality(d, req) == SecurityAndLocality(e, req)
            && Availability(a, d, u, req) == Availability(b, e, UsageOf(b, id), req)
  {
    SameRequestView(a, b, req);
    LoadSeesCapacity(a.devices[id], b.devices[id], UsageOf(a, id));
    hide ServiceOf, WantedProgram, CurrentProgram, RequiredCaps, DependencyMissing, ResourcesFor, UsageOf, Warm, When,
         IsolationSpec.SatisfiedBy, Admits, QueuePressure, DeviceLoad, Headroom.HeadroomPct, LocalityValue, HealthSeverity;
  }

  /** Moving a capability of a device that was not selected away from SUPPORTED leaves the selection as it was. */
  lemma DowngradingALoser(s: State, id: u64, state: CapabilityState, key: Str, req: OffloadRequest)
    requires state != CapabilityState.Supported
    ensures var a, b := MakeSnapshot(s), MakeSnapshot(SetDeviceState(s, id, state, key).state);
            && (forall did :: did != id && IsSelected(a, req, did) ==> IsSelected(b, req, did))
            && (NothingSelected(a, req) ==> NothingSelected(b, req))
  {
    hide Passes, TotalOf, WithCapabilityState;
    if id in s.devices {
      var a, b := MakeSnapshot(s), MakeSnapshot(SetDeviceState(s, id, state, key).state);
      forall e | e in s.devices
        ensures e in b.devices && TotalOf(a, req, e) == TotalOf(b, req, e)
        ensures if e == id then Passes(b, req, e) ==> Passes(a, req, e) else Passes(b, req, e) <==> Passes(a, req, e)
      {
        DowngradedCandidate(s, id, state, key, req, e);
      }
      forall e | e in b.deviceOrder
        ensures Passes(b, req, e) ==>
                  e in a.devices && e in b.devices && Passes(a, req, e) && TotalOf(a, req, e) == TotalOf(b, req, e)
      {
        if Passes(b, req, e) {
          PassingIsKnown(b, req, e);
        }
      }
      LosersIrrelevant(a, b, req);
      forall did | did != id && IsSelected(a, req, did) ensures IsSelected(b, req, did) {
        PassingIsKnown(a, req, did);
      }
    }
  }

  lemma DowngradedCandidate(s: State, id: u64, state: CapabilityState, key: Str, req: OffloadRequest, e: u64)
    requires id in s.devices && e in s.devices && state != CapabilityState.Supported
    ensures var a, b := MakeSnapshot(s), MakeSnapshot(SetDeviceState(s, id, state, key).state);
            && e in b.devices && TotalOf(a, req, e) == TotalOf(b, req, e)
            && if e == id then Passes(b, req, e) ==> Passes(a, req, e) else Passes(b, req, e) <==> Passes(a, req, e)
  {
    var a, b := MakeSnapshot(s), MakeSnapshot(SetDeviceState(s, id, state, key).state);
    hide WithCapabilityState, Warm, Passes, TotalOf;
    WarmSees(a, b, req, e);
    SameScores(a, b, req, e);
    if e == id {
      NotEased(a, b, req, id, key, state);
    } else {
      SameCandidate(a, b, req, e);
    }
  }

  lemma WarmSees(a: Snapshot, b: Snapshot, req: OffloadRequest, e: u64)
    requires a.services == b.services && a.deployments == b.deployments
    ensures Warm(a, req, e) == Warm(b, req, e)
  {
    hide WarmOn;
  }
}
