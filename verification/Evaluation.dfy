/** The evaluation loop itself, proved against the hard constraints and the ranking of module Eligibility. */
module Evaluation {
  import opened Base
  import opened Resource
  import opened Records
  import opened Eligibility

  /** The reports on the listed devices, in order; unknown ids are skipped. */
  function Reports(snap: Snapshot, req: OffloadRequest, order: seq<u64>): seq<CandidateReport> {
    if order == [] then []
    else
      var did := order[|order| - 1];
      Reports(snap, req, order[..|order| - 1]) + (if did in snap.devices then [Report(snap, req, did)] else [])
  }

  function ExecutionOn(c: DeviceClass): ExecutionClass {
    match c
    case Dpu => DpuOffload
    case SmartNic => SmartNicOffload
    case InfraProcessor => InfraProcessorOffload
    case _ => HostFallback
  }

  /** Offload runs on the three kinds of offload device; everything else is the host. */
  lemma ExecutionExactly(c: DeviceClass)
    ensures ExecutionOn(c).DpuOffload? <==> c.Dpu?
    ensures ExecutionOn(c).SmartNicOffload? <==> c.SmartNic?
    ensures ExecutionOn(c).InfraProcessorOffload? <==> c.InfraProcessor?
    ensures ExecutionOn(c).HostFallback? <==> c.HostProcessor? || c.NicAdjacent? || c.UnknownDevice?
  {
  }

  /** What an evaluation must report. */
  ghost predicate Evaluated(snap: Snapshot, req: OffloadRequest, r: EligibilityResult) {
    && r.mode == req.mode
    && r.candidates == Reports(snap, req, snap.deviceOrder)
    && r.hardPass == r.selected.Some?
    && (r.selected.Some? ==>
          && IsSelected(snap, req, r.selected.value)
          && r.execution == ExecutionOn(snap.devices[r.selected.value].identity.deviceClass)
          && r.globalRejections == [] && !r.fallbackUsed)
    && (r.selected.None? ==>
          && NothingSelected(snap, req)
          && r.fallbackUsed == (req.mode.OffloadPreferred? && req.allowHostFallback)
          && r.execution == (if r.fallbackUsed then HostFallback else UnsupportedExecution)
          && r.globalRejections == if req.mode.OffloadRequired? then [OFFLOAD_REQUIRED_UNAVAILABLE] else [])
  }

  method Evaluate(snap: Snapshot, req: OffloadRequest) returns (r: Result<EligibilityResult>)
    ensures r.Err? <==> req.minHeadroom > 100 || req.maxQueuePressure > 100
    ensures r.Err? ==> r.error == INVALID_ARGUMENT
    ensures r.Ok? ==> Evaluated(snap, req, r.value)
  {
    if req.minHeadroom > 100 || req.maxQueuePressure > 100 {
      return Err(INVALID_ARGUMENT);
    }
    var all, passed := CollectReports(snap, req);
    if passed != [] {
      var sorted := StableSort(snap.deviceOrder, passed);
      var best := sorted[0].device;
      FrontIsSelected(snap, req, passed, sorted);
      var execution := ExecutionOn(snap.devices[best].identity.deviceClass);
      return Ok(EligibilityResult(req.mode, execution, Some(best), true, false, [], all));
    }
    NobodyPassed(snap, req);
    if req.mode.OffloadRequired? {
      return Ok(EligibilityResult(req.mode, UnsupportedExecution, None, false, false, [OFFLOAD_REQUIRED_UNAVAILABLE], all));
    } else if req.allowHostFallback {
      return Ok(EligibilityResult(req.mode, HostFallback, None, false, true, [], all));
    } else {
      return Ok(EligibilityResult(req.mode, UnsupportedExecution, None, false, false, [], all));
    }
  }

  /** passed holds the report of every passing device among those listed, and nothing else. */
  ghost predicate AreThePassing(snap: Snapshot, req: OffloadRequest, order: seq<u64>, passed: seq<CandidateReport>) {
    && (forall r :: r in passed ==> r.device in order && Passes(snap, req, r.device) && r == Report(snap, req, r.device))
    && (forall did :: did in order && Passes(snap, req, did) ==> Report(snap, req, did) in passed)
  }

  lemma PassingExtended(snap: Snapshot, req: OffloadRequest, order: seq<u64>, passed: seq<CandidateReport>, did: u64)
    requires AreThePassing(snap, req, order, passed)
    ensures Passes(snap, req, did) ==> AreThePassing(snap, req, order + [did], passed + [Report(snap, req, did)])
    ensures !Passes(snap, req, did) ==> AreThePassing(snap, req, order + [did], passed)
  {
    hide Rejections, Scores;
  }

  method CollectReports(snap: Snapshot, req: OffloadRequest)
    returns (all: seq<CandidateReport>, passed: seq<CandidateReport>)
    ensures all == Reports(snap, req, snap.deviceOrder)
    ensures AreThePassing(snap, req, snap.deviceOrder, passed)
  {
    hide Rejections, Scores, Report, Passes, AreThePassing;
    all, passed := [], [];
    var order := snap.deviceOrder;
    NothingListed(snap, req);
    for i := 0 to |order|
      invariant all == Reports(snap, req, order[..i])
      invariant AreThePassing(snap, req, order[..i], passed)
    {
      var did := order[i];
      assert order[..i + 1] == order[..i] + [did];
      assert order[..i + 1][..i] == order[..i];
      PassingExtended(snap, req, order[..i], passed, did);
      if did in snap.devices {
        var report := ExamineDevice(snap, req, did);
        if report.passedHard {
          passed := passed + [report];
        }
        all := all + [report];
      } else {
        Unlisted(snap, req, did);
      }
    }
    assert order[..|order|] == order;
  }

  lemma NothingListed(snap: Snapshot, req: OffloadRequest)
    ensures AreThePassing(snap, req, [], [])
  {
  }

  lemma Unlisted(snap: Snapshot, req: OffloadRequest, did: u64)
    requires did !in snap.devices
    ensures !Passes(snap, req, did)
  {
  }

  method ExamineDevice(snap: Snapshot, req: OffloadRequest, did: u64) returns (report: CandidateReport)
    requires did in snap.devices
    ensures report == Report(snap, req, did)
    ensures report.passedHard <==> Passes(snap, req, did)
  {
    hide Rejections, Scores;
    var rejected := CollectRejections(snap, req, did);
    if rejected == [] {
      var scores := CollectScores(snap, req, did);
      var total := 0.0;
      for i := 0 to |scores|
        invariant total == Total(scores[..i])
      {
        assert scores[..i + 1][..i] == scores[..i];
        total := total + scores[i].weighted;
      }
      assert scores[..|scores|] == scores;
      return CandidateReport(did, true, [], scores, total);
    }
    return CandidateReport(did, false, rejected, [], 0.0);
  }

  method CollectRejections(snap: Snapshot, req: OffloadRequest, did: u64) returns (rejected: seq<RejectionReason>)
    requires did in snap.devices
    ensures rejected == Rejections(snap, req, did)
  {
    hide Placement, Readiness, ClassSupport, ProgramFit, SoftwareFloors, IsolationFit, AttachmentFit, LoadLimits,
         SecurityAndLocality, Availability, UsageOf, RequiredCaps, CapabilityChecks, PolicyChecks;
    var d, u := snap.devices[did], UsageOf(snap, did);
    var caps := d.features.capabilities;
    rejected := Placement(did, d, req) + Readiness(d, snap.policy.minDeviceHealth) + ClassSupport(d, req);
    rejected := rejected + ProgramFit(snap, d, req) + SoftwareFloors(snap, d, req);
    var required := CheckCapabilities(caps, RequiredCaps(snap, req));
    rejected := rejected + required;
    var byPolicy := CheckPolicy(caps, snap.policy.hardCaps);
    rejected := rejected + byPolicy;
    rejected := rejected + IsolationFit(snap, d, req) + AttachmentFit(d, req) + LoadLimits(snap.policy, d, u);
    rejected := rejected + SecurityAndLocality(d, req) + Availability(snap, d, u, req);
  }

  method CheckCapabilities(caps: map<Str, Capability>, reqs: seq<CapabilityRequirement>)
    returns (rejected: seq<RejectionReason>)
    ensures rejected == CapabilityChecks(caps, reqs)
  {
    rejected := [];
    for i := 0 to |reqs|
      invariant rejected == CapabilityChecks(caps, reqs[..i])
    {
      assert reqs[..i + 1][..i] == reqs[..i];
      rejected := rejected + CapabilityCheck(caps, reqs[i]);
    }
    assert reqs[..|reqs|] == reqs;
  }

  method CheckPolicy(caps: map<Str, Capability>, reqs: seq<CapabilityRequirement>)
    returns (rejected: seq<RejectionReason>)
    ensures rejected == PolicyChecks(caps, reqs)
  {
    rejected := [];
    for i := 0 to |reqs|
      invariant rejected == PolicyChecks(caps, reqs[..i])
    {
      assert reqs[..i + 1][..i] == reqs[..i];
      if CapabilityStateOf(caps, reqs[i].key) != CapabilityState.Supported {
        rejected := rejected + [REQUIRED_CAPABILITY_UNSUPPORTED];
      }
    }
    assert reqs[..|reqs|] == reqs;
  }

  method CollectScores(snap: Snapshot, req: OffloadRequest, did: u64) returns (scores: seq<FactorScore>)
    requires did in snap.devices
    ensures scores == Scores(snap, req, did)
  {
    hide Warm, Score, QueuePressure, DeviceLoad, LocalityValue, HealthSeverity, UsageOf;
    var d, u, p := snap.devices[did], UsageOf(snap, did), snap.policy;
    var warm := FindWarm(snap, req, did);
    scores := [Score(p, WARM_SERVICE, if warm then 1.0 else 0.0), Score(p, LOCALITY, LocalityValue(d.status.locality))];
    scores := scores + [Score(p, HEADROOM, Headroom.HeadroomPct(d.capacity.resources, u) / 100.0)];
    scores := scores + [Score(p, QUEUE_PRESSURE, 1.0 - QueuePressure(d, u)), Score(p, DEVICE_LOAD, 1.0 - DeviceLoad(d, u))];
    scores := scores + [Score(p, STATE_TRANSFER, if warm then 1.0 else 0.4)];
    var saving := if req.offloadClass == ENCRYPTION || req.offloadClass == COMPRESSION then 0.8 else 0.5;
    scores := scores + [Score(p, HOST_CPU_SAVINGS, saving), Score(p, OFFLOAD_VALUE, if warm then 0.7 else 0.5)];
    scores := scores + [Score(p, FAILURE_RISK, HealthSeverity(d.status.health) as real / 5.0), Score(p, ENERGY, 0.5)];
    scores := scores + [Score(p, POLICY_PREFERENCE, if did in p.preferredDevices then 1.0 else 0.0)];
    scores := scores + [Score(p, TIEBREAK_ID, 0.0)];
  }

  method FindWarm(snap: Snapshot, req: OffloadRequest, did: u64) returns (warm: bool)
    ensures warm == Warm(snap, req, did)
  {
    warm := false;
    var todo := snap.deployments.Keys;
    var svc := ServiceOf(snap, req);
    while todo != {}
      invariant todo <= snap.deployments.Keys
      invariant warm <==> exists k :: k in snap.deployments.Keys - todo && WarmOn(snap.deployments[k], did, svc)
      decreases |todo|
    {
      var k := Least(todo);
      if WarmOn(snap.deployments[k], did, svc) {
        warm := true;
      }
      todo := todo - {k};
    }
  }

  // ---- the ranking sort ----

  ghost predicate Ranked(order: seq<u64>, rs: seq<CandidateReport>) {
    forall i, j :: 0 <= i < j < |rs| ==> !Precedes(order, rs[j], rs[i])
  }

  /** x goes behind every report it does not precede, so equals keep their order. */
  method InsertRanked(order: seq<u64>, rs: seq<CandidateReport>, x: CandidateReport) returns (r: seq<CandidateReport>)
    requires Ranked(order, rs)
    ensures Ranked(order, r)
    ensures multiset(r) == multiset(rs) + multiset{x}
  {
    hide Precedes;
    var i: nat := |rs|;
    while i > 0 && Precedes(order, x, rs[i - 1])
      invariant i <= |rs|
      invariant forall j :: i <= j < |rs| ==> Precedes(order, x, rs[j])
    {
      i := i - 1;
    }
    r := rs[..i] + [x] + rs[i..];
    assert rs == rs[..i] + rs[i..];
    forall p, q | 0 <= p < q < |r| ensures !Precedes(order, r[q], r[p]) {
      InsertedPair(order, rs, x, i, p, q);
    }
  }

  lemma InsertedPair(order: seq<u64>, rs: seq<CandidateReport>, x: CandidateReport, i: nat, p: nat, q: nat)
    requires Ranked(order, rs)
    requires i <= |rs| && (i > 0 ==> !Precedes(order, x, rs[i - 1]))
    requires forall j :: i <= j < |rs| ==> Precedes(order, x, rs[j])
    requires p < q < |rs| + 1
    ensures var r := rs[..i] + [x] + rs[i..]; !Precedes(order, r[q], r[p])
  {
    hide Precedes;
    if q == i && p < i - 1 && Precedes(order, x, rs[p]) {
      NotAhead(order, x, rs[p], rs[i - 1]);
    }
    if p == i {
      Asymmetric(order, x, rs[q - 1]);
    }
  }

  lemma Asymmetric(order: seq<u64>, a: CandidateReport, b: CandidateReport)
    ensures !(Precedes(order, a, b) && Precedes(order, b, a))
  {
  }

  /** If x precedes a, and b does not precede a, then x precedes b: the order is weak. */
  lemma NotAhead(order: seq<u64>, x: CandidateReport, a: CandidateReport, b: CandidateReport)
    requires Precedes(order, x, a) && !Precedes(order, b, a)
    ensures Precedes(order, x, b)
  {
  }

  method StableSort(order: seq<u64>, rs: seq<CandidateReport>) returns (sorted: seq<CandidateReport>)
    ensures Ranked(order, sorted)
    ensures multiset(sorted) == multiset(rs)
    ensures |sorted| == |rs|
  {
    sorted := [];
    for i := 0 to |rs|
      invariant Ranked(order, sorted)
      invariant multiset(sorted) == multiset(rs[..i])
    {
      assert rs[..i + 1] == rs[..i] + [rs[i]];
      sorted := InsertRanked(order, sorted, rs[i]);
    }
    assert rs[..|rs|] == rs;
    SameSize(sorted, rs);
  }

  lemma SameSize<T>(a: seq<T>, b: seq<T>)
    requires multiset(a) == multiset(b)
    ensures |a| == |b|
  {
    assert |multiset(a)| == |a| && |multiset(b)| == |b|;
  }

  lemma FrontIsSelected(snap: Snapshot, req: OffloadRequest, passed: seq<CandidateReport>, sorted: seq<CandidateReport>)
    requires AreThePassing(snap, req, snap.deviceOrder, passed) && |sorted| > 0
    requires Ranked(snap.deviceOrder, sorted) && multiset(sorted) == multiset(passed)
    ensures IsSelected(snap, req, sorted[0].device)
  {
    hide Rejections, Scores;
    var order, best := snap.deviceOrder, sorted[0];
    assert best in multiset(sorted);
    assert best in passed;
    forall e | e in order && Passes(snap, req, e)
      ensures TotalOf(snap, req, e) < TotalOf(snap, req, best.device)
              || (TotalOf(snap, req, e) == TotalOf(snap, req, best.device) && IndexIn(order, best.device) <= IndexIn(order, e))
    {
      var other := Report(snap, req, e);
      assert other in multiset(passed);
      assert other in sorted;
      var i :| 0 <= i < |sorted| && sorted[i] == other;
      assert i == 0 || !Precedes(order, other, best);
    }
  }

  lemma NobodyPassed(snap: Snapshot, req: OffloadRequest)
    requires AreThePassing(snap, req, snap.deviceOrder, [])
    ensures NothingSelected(snap, req)
  {
    hide Passes;
    forall e | e in snap.deviceOrder ensures !Passes(snap, req, e) {
    }
  }
}
