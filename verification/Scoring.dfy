/** Every factor is normalized, and a device gains nothing from being loaded more. */
module Scoring {
  import opened Base
  import opened Resource
  import opened Records
  import opened Eligibility
  import Headroom
  import Ranking

  predicate Unit(x: real) {
    0.0 <= x <= 1.0
  }

  lemma Quotient(p: int, q: int, c: int)
    requires 0 < c && 0 <= p <= q <= c
    ensures 0.0 <= p as real / c as real <= q as real / c as real <= 1.0
  {
    var x, y, z := p as real / c as real, q as real / c as real, c as real;
    assert x * z == p as real && y * z == q as real;
    if x < 0.0 { Headroom.ScaleLess(x, 0.0, z); }
    if y < x { Headroom.ScaleLess(y, x, z); }
    if 1.0 < y { Headroom.ScaleLess(1.0, y, z); }
  }

  // ---- what is left and what is taken ----

  lemma FractionFalls(less: u64, more: u64, cap: u64)
    requires less <= more
    ensures 0.0 <= Headroom.Fraction(more, cap) <= Headroom.Fraction(less, cap) <= 1.0
  {
    if cap != 0 && less < cap {
      Quotient(if more < cap then cap - more else 0, cap - less, cap);
    }
  }

  lemma FullnessRises(less: u64, more: u64, cap: u64, unbounded: real)
    requires less <= more && Unit(unbounded)
    ensures 0.0 <= Fullness(less, cap, unbounded) <= Fullness(more, cap, unbounded) <= 1.0
  {
    if cap != 0 && less < cap {
      Quotient(less, if more < cap then more else cap, cap);
    }
  }

  predicate NoMore(less: Resources, more: Resources) {
    forall d: Dimension :: less.At(d) <= more.At(d)
  }

  lemma EachNoMore(less: Resources, more: Resources)
    requires NoMore(less, more)
    ensures less.memoryBytes <= more.memoryBytes && less.queues <= more.queues && less.functions <= more.functions
    ensures less.slots <= more.slots && less.contexts <= more.contexts
  {
    assert less.At(Memory) <= more.At(Memory) && less.At(Queues) <= more.At(Queues) && less.At(Functions) <= more.At(Functions);
    assert less.At(Slots) <= more.At(Slots) && less.At(Contexts) <= more.At(Contexts);
  }

  lemma HeadroomFalls(cap: Resources, less: Resources, more: Resources)
    requires NoMore(less, more)
    ensures 0.0 <= Headroom.HeadroomPct(cap, more) <= Headroom.HeadroomPct(cap, less) <= 100.0
  {
    EachNoMore(less, more);
    FractionFalls(less.memoryBytes, more.memoryBytes, cap.memoryBytes);
    FractionFalls(less.queues, more.queues, cap.queues);
    FractionFalls(less.functions, more.functions, cap.functions);
    FractionFalls(less.slots, more.slots, cap.slots);
    FractionFalls(less.contexts, more.contexts, cap.contexts);
    hide Headroom.Fraction, NoMore;
  }

  lemma PressureRises(d: DeviceRecord, less: Resources, more: Resources)
    requires NoMore(less, more)
    ensures 0.0 <= QueuePressure(d, less) <= QueuePressure(d, more) <= 1.0
    ensures 0.0 <= DeviceLoad(d, less) <= DeviceLoad(d, more) <= 1.0
  {
    EachNoMore(less, more);
    FullnessRises(less.queues, more.queues, d.capacity.resources.queues, 0.0);
    FullnessRises(less.slots, more.slots, d.capacity.resources.slots, 0.5);
    hide Fullness, NoMore;
  }

  // ---- factors ----

  lemma LocalityIsUnit(q: byte)
    ensures Unit(LocalityValue(q))
  {
  }

  lemma ScoreParts(p: Policy, factor: byte, x: real)
    ensures var s := Score(p, factor, x);
            s.factor == factor && s.normalized == x && s.weighted == x * p.WeightOf(factor) as real
  {
  }

  /** Each report scores the twelve factors in their fixed order, every one of them in [0, 1]. */
  lemma FactorsNormalized(snap: Snapshot, req: OffloadRequest, did: u64)
    requires did in snap.devices
    ensures var s := Scores(snap, req, did);
            && |s| == 12
            && forall i :: 0 <= i < |s| ==>
                 s[i] == Score(snap.policy, i + 1, s[i].normalized) && Unit(s[i].normalized)
  {
    hide Headroom.HeadroomPct, QueuePressure, DeviceLoad, LocalityValue, Warm, UsageOf, Score, HealthSeverity;
    var d, u, p := snap.devices[did], UsageOf(snap, did), snap.policy;
    HeadroomFalls(d.capacity.resources, u, u);
    PressureRises(d, u, u);
    LocalityIsUnit(d.status.locality);
    SeverityInRange(d.status.health);
    forall factor, x { ScoreParts(p, factor, x); }
  }

  lemma SeverityInRange(h: byte)
    ensures 1 <= HealthSeverity(h) <= 5
  {
  }

  lemma {:induction false} TotalMonotone(a: seq<FactorScore>, b: seq<FactorScore>)
    requires |a| == |b| && forall i :: 0 <= i < |a| ==> a[i].weighted <= b[i].weighted
    ensures Total(a) <= Total(b)
  {
    if a != [] {
      TotalMonotone(a[..|a| - 1], b[..|b| - 1]);
    }
  }

  lemma ScoresRise(p: Policy, factor: byte, x: real, y: real)
    requires x <= y && p.WeightOf(factor) >= 0
    ensures Score(p, factor, x).weighted <= Score(p, factor, y).weighted
  {
    Rises(x, y, p.WeightOf(factor) as real);
    hide Policy.WeightOf;
  }

  lemma Rises(x: real, y: real, w: real)
    requires x <= y && w >= 0.0
    ensures x * w <= y * w
  {
  }

  lemma OneMoreScore(s: seq<FactorScore>, k: nat)
    requires k < |s|
    ensures Total(s[..k + 1]) == Total(s[..k]) + s[k].weighted
  {
    assert s[..k + 1][..k] == s[..k];
  }

  lemma SumOfTwelve(s: seq<FactorScore>)
    requires |s| == 12
    ensures Total(s) == s[0].weighted + s[1].weighted + s[2].weighted + s[3].weighted + s[4].weighted + s[5].weighted
                        + s[6].weighted + s[7].weighted + s[8].weighted + s[9].weighted + s[10].weighted + s[11].weighted
  {
    hide Total;
    NoScores(s);
    OneMoreScore(s, 0);
    OneMoreScore(s, 1);
    OneMoreScore(s, 2);
    OneMoreScore(s, 3);
    OneMoreScore(s, 4);
    OneMoreScore(s, 5);
    OneMoreScore(s, 6);
    OneMoreScore(s, 7);
    OneMoreScore(s, 8);
    OneMoreScore(s, 9);
    OneMoreScore(s, 10);
    OneMoreScore(s, 11);
    assert s[..12] == s;
  }

  lemma NoScores(s: seq<FactorScore>)
    ensures Total(s[..0]) == 0.0
  {
  }

  /** x times the weight of a factor. */
  function Worth(p: Policy, factor: byte, x: real): real {
    x * p.WeightOf(factor) as real
  }

  predicate HasActive(snap: Snapshot, req: OffloadRequest, did: u64) {
    exists k :: k in snap.deployments && snap.deployments[k].state.Active? && snap.deployments[k].binding.device == did
                && (req.service.Some? && req.service.value in snap.services ==>
                      snap.deployments[k].binding.service == snap.services[req.service.value].serviceId)
  }

  lemma WarmExactly(snap: Snapshot, req: OffloadRequest, did: u64)
    ensures Warm(snap, req, did) <==> HasActive(snap, req, did)
  {
    if k :| k in snap.deployments && WarmOn(snap.deployments[k], did, ServiceOf(snap, req)) {
      assert snap.deployments[k].state.Active?;
    }
  }

  /** How near a device is, from the same device down to unknown. */
  const NEARNESS: seq<real> := [1.0, 0.9, 0.8, 0.6, 0.3, 0.2]

  /** What a candidate's total is made of. */
  lemma TotalIs(snap: Snapshot, req: OffloadRequest, did: u64)
    requires did in snap.devices
    ensures var d, u, p, warm := snap.devices[did], UsageOf(snap, did), snap.policy, HasActive(snap, req, did);
            TotalOf(snap, req, did) ==
            Worth(p, WARM_SERVICE, if warm then 1.0 else 0.0)
            + Worth(p, LOCALITY, NEARNESS[if 1 <= d.status.locality <= 6 then d.status.locality - 1 else 5])
            + Worth(p, HEADROOM, Headroom.HeadroomPct(d.capacity.resources, u) / 100.0)
            + Worth(p, QUEUE_PRESSURE, 1.0 - Fullness(u.queues, d.capacity.resources.queues, 0.0))
            + Worth(p, DEVICE_LOAD, 1.0 - Fullness(u.slots, d.capacity.resources.slots, 0.5))
            + Worth(p, STATE_TRANSFER, if warm then 1.0 else 0.4)
            + Worth(p, HOST_CPU_SAVINGS, if req.offloadClass in {ENCRYPTION, COMPRESSION} then 0.8 else 0.5)
            + Worth(p, OFFLOAD_VALUE, if warm then 0.7 else 0.5)
            + Worth(p, FAILURE_RISK, (if 1 <= d.status.health <= 5 then d.status.health else 5) as real / 5.0)
            + Worth(p, ENERGY, 0.5) + Worth(p, POLICY_PREFERENCE, if did in p.preferredDevices then 1.0 else 0.0)
            + Worth(p, TIEBREAK_ID, 0.0)
  {
    hide Headroom.HeadroomPct, Fullness, LocalityValue, HealthSeverity, Policy.WeightOf, Total, Warm, UsageOf, Score, Worth,
         HasActive;
    var d := snap.devices[did];
    WarmExactly(snap, req, did);
    LocalityIs(d.status.locality);
    SeverityIs(d.status.health);
    forall factor, x ensures Score(snap.policy, factor, x).weighted == Worth(snap.policy, factor, x) {
      ScoreIsWorth(snap.policy, factor, x);
    }
    SumOfTwelve(Scores(snap, req, did));
  }

  lemma ScoreIsWorth(p: Policy, factor: byte, x: real)
    ensures Score(p, factor, x).weighted == Worth(p, factor, x)
  {
  }

  lemma LocalityIs(q: byte)
    ensures LocalityValue(q) == NEARNESS[if 1 <= q <= 6 then q - 1 else 5]
  {
  }

  lemma SeverityIs(h: byte)
    ensures HealthSeverity(h) == if 1 <= h <= 5 then h else 5
  {
  }

  /** How full a counter is: the used share of its capacity, cut off at the whole. */
  lemma FullnessIsShare(used: u64, cap: u64, unbounded: real)
    ensures cap == 0 ==> Fullness(used, cap, unbounded) == unbounded
    ensures cap != 0 ==> Fullness(used, cap, unbounded) * cap as real == (if used < cap then used else cap) as real
  {
  }

  /** A factor's weight is that of its first entry; without one it is 0, and 1 for the tie-break. */
  lemma {:induction false} WeightIs(ws: seq<RankWeight>, factor: byte, i: nat)
    requires i <= |ws| && (forall j :: 0 <= j < i ==> ws[j].factor != factor) && (i < |ws| ==> ws[i].factor == factor)
    ensures Policy.WeightIn(ws, factor) == if i < |ws| then ws[i].weight else if factor == 12 then 1 else 0
    decreases |ws|
  {
    if i > 0 {
      WeightIs(ws[1..], factor, i - 1);
    }
  }

  // ---- load ----

  /** The same snapshot, with more of did in use. */
  function Loaded(snap: Snapshot, did: u64, more: Resources): Snapshot {
    snap.(usage := snap.usage[did := more])
  }

  predicate PrefersIdle(p: Policy) {
    p.WeightOf(HEADROOM) >= 0 && p.WeightOf(QUEUE_PRESSURE) >= 0 && p.WeightOf(DEVICE_LOAD) >= 0
  }

  /** Unless a weight of load is negative, more use never raises a device's total. */
  lemma LoadNeverRanksHigher(snap: Snapshot, req: OffloadRequest, did: u64, more: Resources)
    requires did in snap.devices && PrefersIdle(snap.policy) && NoMore(UsageOf(snap, did), more)
    ensures TotalOf(Loaded(snap, did, more), req, did) <= TotalOf(snap, req, did)
  {
    hide Headroom.HeadroomPct, QueuePressure, DeviceLoad, LocalityValue, HealthSeverity, Policy.WeightOf, Total, NoMore, Warm,
         Score;
    var d, u, p := snap.devices[did], UsageOf(snap, did), snap.policy;
    WarmIgnoresUsage(snap, req, did, more);
    HeadroomFalls(d.capacity.resources, u, more);
    PressureRises(d, u, more);
    ScoresRise(p, HEADROOM, Headroom.HeadroomPct(d.capacity.resources, more) / 100.0,
               Headroom.HeadroomPct(d.capacity.resources, u) / 100.0);
    ScoresRise(p, QUEUE_PRESSURE, 1.0 - QueuePressure(d, more), 1.0 - QueuePressure(d, u));
    ScoresRise(p, DEVICE_LOAD, 1.0 - DeviceLoad(d, more), 1.0 - DeviceLoad(d, u));
    TotalMonotone(Scores(Loaded(snap, did, more), req, did), Scores(snap, req, did));
  }

  lemma WarmIgnoresUsage(snap: Snapshot, req: OffloadRequest, did: u64, more: Resources)
    ensures Warm(Loaded(snap, did, more), req, did) == Warm(snap, req, did)
  {
  }

  lemma AdmittedWithLess(cap: Resources, less: Resources, more: Resources, r: Resources)
    requires NoMore(less, more) && NoWrap(more, r) && Admits(cap, more, r)
    ensures Admits(cap, less, r)
  {
    EachNoMore(less, more);
    assert more.At(Memory) + r.At(Memory) <= U64_MAX && more.At(Queues) + r.At(Queues) <= U64_MAX;
    assert more.At(Functions) + r.At(Functions) <= U64_MAX && more.At(Slots) + r.At(Slots) <= U64_MAX;
    assert more.At(Contexts) + r.At(Contexts) <= U64_MAX;
    hide NoMore, NoWrap;
  }

  /** A device that passes while more of it is in use passes with less exactly when the admission test does;
      that is so whenever no sum wraps. */
  lemma LoadNeverAdmits(snap: Snapshot, req: OffloadRequest, did: u64, more: Resources)
    requires did in snap.devices && NoMore(UsageOf(snap, did), more)
    requires Passes(Loaded(snap, did, more), req, did)
    ensures Passes(snap, req, did) <==> Admits(snap.devices[did].capacity.resources, UsageOf(snap, did), ResourcesFor(snap, req))
    ensures NoWrap(more, ResourcesFor(snap, req)) ==> Passes(snap, req, did)
  {
    var d, u, loaded := snap.devices[did], UsageOf(snap, did), Loaded(snap, did, more);
    PassesExactly(snap, req, did);
    PassesExactly(loaded, req, did);
    HeadroomFalls(d.capacity.resources, u, more);
    PressureRises(d, u, more);
    if NoWrap(more, ResourcesFor(snap, req)) {
      PassingMeans(loaded, req, did);
      AdmittedWithLess(d.capacity.resources, u, more, ResourcesFor(snap, req));
    }
    SuitsIgnoresUsage(snap, req, did, more);
    hide Passes, Headroom.HeadroomPct, QueuePressure, NoMore, NoWrap, Admits, SuitsPlacement, SuitsSoftware, SuitsIsolation,
         SuitsCapabilities, HealthSeverity, DependencyMissing, ResourcesFor, DeviceRecord.ReadyForOffload;
  }

  lemma SuitsIgnoresUsage(snap: Snapshot, req: OffloadRequest, did: u64, more: Resources)
    requires did in snap.devices
    ensures var d, loaded := snap.devices[did], Loaded(snap, did, more);
            && SuitsSoftware(loaded, d, req) == SuitsSoftware(snap, d, req)
            && SuitsIsolation(loaded, d, req) == SuitsIsolation(snap, d, req)
            && SuitsCapabilities(loaded, d, req) == SuitsCapabilities(snap, d, req)
            && DependencyMissing(loaded, req) == DependencyMissing(snap, req)
            && ResourcesFor(loaded, req) == ResourcesFor(snap, req)
            && UsageOf(loaded, did) == more
  {
    Ranking.SameRequestView(Loaded(snap, did, more), snap, req);
    hide ServiceOf, WantedProgram, CurrentProgram, RequiredCaps, DependencyMissing, ResourcesFor, Has, CapabilityStateOf;
  }

  /** Once a sum wraps, a fuller device can admit what an emptier one refuses. */
  lemma WrappedAdmissionWitness()
    ensures var cap, r := NOTHING.(slots := 10), NOTHING.(slots := 6);
            var less, more := NOTHING.(slots := 5), NOTHING.(slots := U64_MAX);
            NoMore(less, more) && !Admits(cap, less, r) && Admits(cap, more, r)
  {
  }
}
