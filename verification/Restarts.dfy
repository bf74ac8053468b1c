/** What a restart does not restore: policy weights, accounts, ids and activations; and what any number of
    restarts keeps. */
module Restarts {
  import opened Base
  import opened Resource
  import opened Records
  import opened Coordinator
  import opened Fencing
  import opened Persistence
  import opened Recovery
  import Conservation
  import Layout
  import Lifecycle
  import Mirror
  import Store

  // ---- the policy ----

  predicate Weighs(ws: seq<RankWeight>, factor: byte) {
    exists i :: 0 <= i < |ws| && ws[i].factor == factor
  }

  /** The first match counts. */
  lemma {:induction false} FirstMatchCounts(a: seq<RankWeight>, b: seq<RankWeight>, factor: byte)
    ensures Policy.WeightIn(a + b, factor) == if Weighs(a, factor) then Policy.WeightIn(a, factor) else Policy.WeightIn(b, factor)
  {
    if a == [] {
      assert a + b == b;
    } else {
      assert (a + b)[1..] == a[1..] + b;
      FirstMatchCounts(a[1..], b, factor);
      if a[0].factor != factor {
        assert Weighs(a, factor) ==> Weighs(a[1..], factor) by {
          if Weighs(a, factor) {
            var i :| 0 <= i < |a| && a[i].factor == factor;
            assert a[1..][i - 1].factor == factor;
          }
        }
        assert Weighs(a[1..], factor) ==> Weighs(a, factor) by {
          if Weighs(a[1..], factor) {
            var i :| 0 <= i < |a[1..]| && a[1..][i].factor == factor;
            assert a[i + 1].factor == factor;
          }
        }
      }
    }
  }

  lemma SuccessorPolicy(live: State, s: State)
    ensures Successor(live, s).policy == MergedPolicy(live.policy, s.policy)
  {
    hide NewLedgers, JoinedPrograms, RestartedDevices, RestartedDeployments, MergedPolicy, ZeroUsage;
  }

  /** Saved weights are appended to the live ones, so a saved weight counts only for a factor that the live policy
      does not weigh; the stored part of the policy comes back exactly when the live policy weighs nothing. */
  lemma PolicyAfterRestart(live: State, s: State, factor: byte)
    requires Structured(MakeSnapshot(s)) && Savable(s)
    ensures var p := RecoverFrom(live, Some(FileOf(s))).state.policy;
            && p == s.policy.(weights := live.policy.weights + s.policy.weights, hardCaps := live.policy.hardCaps,
                              preferredDevices := live.policy.preferredDevices)
            && (p == s.policy.(hardCaps := live.policy.hardCaps, preferredDevices := live.policy.preferredDevices)
                <==> live.policy.weights == [])
            && p.WeightOf(factor) ==
               if Weighs(live.policy.weights, factor) then live.policy.WeightOf(factor) else s.policy.WeightOf(factor)
  {
    hide RecoverFrom, Successor, FileOf, Savable, Structured, Weighs;
    RecoverSaved(live, s);
    SuccessorPolicy(live, s);
    FirstMatchCounts(live.policy.weights, s.policy.weights, factor);
    assert live.policy.weights == [] ==> live.policy.weights + s.policy.weights == s.policy.weights;
    assert live.policy.weights != [] ==> |live.policy.weights + s.policy.weights| != |s.policy.weights|;
  }

  lemma DefaultsWeighAll(factor: byte)
    ensures Weighs(DEFAULT_WEIGHTS, factor) <==> WARM_SERVICE <= factor <= TIEBREAK_ID
  {
    if WARM_SERVICE <= factor <= TIEBREAK_ID {
      assert DEFAULT_WEIGHTS[factor - 1].factor == factor;
    }
  }

  /** In an engine with the default weights no saved weight of any factor ever takes effect. */
  lemma SavedWeightsNeverCount(live: State, s: State, factor: byte)
    requires Structured(MakeSnapshot(s)) && Savable(s)
    requires live.policy.weights == DEFAULT_WEIGHTS && WARM_SERVICE <= factor <= TIEBREAK_ID
    ensures RecoverFrom(live, Some(FileOf(s))).state.policy.WeightOf(factor) == live.policy.WeightOf(factor)
  {
    hide RecoverFrom, FileOf, Savable, Structured, Weighs, Policy.WeightIn;
    PolicyAfterRestart(live, s, factor);
    DefaultsWeighAll(factor);
  }

  /** What was saved with every other bound kept is recovered if and only if it has at most 64 weights. */
  lemma RecoversExactly(live: State, s: State)
    requires Structured(MakeSnapshot(s)) && WithinSizes(MakeSnapshot(s))
    ensures RecoverFrom(live, Some(FileOf(s))).result.Ok? <==> |s.policy.weights| <= Layout.MAX_WEIGHTS
    ensures |s.policy.weights| > Layout.MAX_WEIGHTS ==> RecoverFrom(live, Some(FileOf(s))).result == Err(CORRUPT_STATE)
  {
    hide Load, Adopted, Payload, Store.Container, Structured, WithinSizes;
    LoadsExactly(live, MakeSnapshot(s));
  }

  // ---- any number of restarts ----

  /** One life of the coordinator: what the new engine is built with before it recovers, and the calls then made. */
  datatype Life = Life(epoch: u64, policy: Policy, ops: seq<Op>)

  /** What a life makes of what s saved. */
  function Reborn(s: State, life: Life): State {
    Run(RecoverFrom(Fresh(life.epoch, life.policy), Some(FileOf(s))).state, life.ops)
  }

  /** What s has become after some lives, each recovered from what the one before saved. */
  function Lived(s: State, lives: seq<Life>): State
    decreases |lives|
  {
    if lives == [] then s else Reborn(Lived(s, lives[..|lives| - 1]), lives[|lives| - 1])
  }

  /** Each life begins with what can be saved and loaded. */
  ghost predicate Restartable(s: State, lives: seq<Life>)
    decreases |lives|
  {
    lives == [] || (Restartable(s, lives[..|lives| - 1]) && Savable(Lived(s, lives[..|lives| - 1])))
  }

  lemma SuccessorTables(live: State, s: State)
    requires EmptyTables(live)
    ensures var r := Successor(live, s);
            && r.devices == RestartedDevices(s.devices) && r.deviceOrder == s.deviceOrder
            && r.ledgers == NewLedgers(s.devices)
            && r.ledgers.Keys == s.devices.Keys && (forall d :: d in r.ledgers ==> r.ledgers[d].used == NOTHING)
            && r.usage == s.usage + ZeroUsage(r.devices)
            && r.services == s.services && r.programs == s.programs && r.currentProgramGen == s.currentProgramGen
            && r.deployments == RestartedDeployments(s.deployments)
  {
    hide RestartedDeployments, RestartedDevices, MergedPolicy, Joined, NewLedgers;
    JoinedToNothing(live, MakeSnapshot(s));
    var t := Taking(live, MakeSnapshot(s));
    assert Successor(live, s) == Adopted(Restarted(t));
    RestartedTables(t);
    NewAccounts(s.devices);
    NewAccounts(RestartedDevices(s.devices));
  }

  lemma RestartedTables(t: State)
    ensures RestartedDevices(t.devices).Keys == t.devices.Keys
  {
    hide RestartedDevice;
  }

  lemma NewAccounts(devices: map<u64, DeviceRecord>)
    ensures NewLedgers(devices).Keys == devices.Keys
    ensures forall d :: d in devices ==> NewLedgers(devices)[d].used == NOTHING
  {
  }

  lemma SuccessorMirrored(s: State, r: State)
    requires Mirror.Mirrored(s)
    requires r.devices == RestartedDevices(s.devices) && r.deviceOrder == s.deviceOrder
    requires r.ledgers.Keys == s.devices.Keys && forall d :: d in r.ledgers ==> r.ledgers[d].used == NOTHING
    requires r.usage == s.usage + ZeroUsage(r.devices)
    ensures Mirror.Mirrored(r)
  {
    hide Distinct, Within, RestartedDevice;
    assert r.devices.Keys == s.devices.Keys && r.usage.Keys == s.devices.Keys;
    forall d | d in s.devices ensures r.devices[d].identity == s.devices[d].identity {
      RestartKeepsIdentity(s.devices[d]);
    }
    forall d | d in r.ledgers ensures Mirror.Account(r, d) {
      NothingIsWithin(r.ledgers[d].cap);
    }
  }

  lemma RestartKeepsIdentity(d: DeviceRecord)
    ensures RestartedDevice(d).identity == d.identity
  {
  }

  lemma NothingIsWithin(cap: Resources)
    ensures Within(cap, NOTHING)
  {
  }

  lemma SuccessorOrderly(live: State, s: State)
    requires EmptyTables(live) && Orderly(s)
    ensures Orderly(Successor(live, s))
  {
    hide Successor, Mirror.Mirrored, RestartedDevices, CurrentKnown, EmptyTables;
    SuccessorTables(live, s);
    SuccessorMirrored(s, Successor(live, s));
  }

  lemma FreshIsEmpty(epoch: u64, policy: Policy)
    ensures EmptyTables(Fresh(epoch, policy))
  {
  }

  lemma RebornOrderly(s: State, life: Life)
    requires Orderly(s) && Savable(s)
    ensures Orderly(Reborn(s, life))
  {
    hide Orderly, Savable, EmptyTables, Successor, RecoverFrom, FileOf, MakeSnapshot, Run, Structured;
    var live := Fresh(life.epoch, life.policy);
    FreshIsEmpty(life.epoch, life.policy);
    StructuredFrom(s);
    RecoverSaved(live, s);
    SuccessorOrderly(live, s);
    OrderlyLater(Successor(live, s), life.ops);
  }

  /** Whatever happens in each life, and however many there are, the tables stay in order. */
  lemma {:induction false} OrderlyInEveryLife(s: State, lives: seq<Life>)
    requires Orderly(s) && Restartable(s, lives)
    ensures Orderly(Lived(s, lives))
    decreases |lives|
  {
    hide Orderly, Savable, Reborn;
    if lives != [] {
      var most := lives[..|lives| - 1];
      OrderlyInEveryLife(s, most);
      RebornOrderly(Lived(s, most), lives[|lives| - 1]);
    }
  }

  /** So the round trip holds for the n-th restart as for the first. */
  lemma EveryRestartRoundTrips(epoch: u64, policy: Policy, ops: seq<Op>, lives: seq<Life>, live: State)
    requires Restartable(Run(Fresh(epoch, policy), ops), lives) && Savable(Lived(Run(Fresh(epoch, policy), ops), lives))
    ensures var s := Lived(Run(Fresh(epoch, policy), ops), lives);
            RecoverFrom(live, Some(FileOf(s))) == Outcome(Successor(live, s), Ok(true))
  {
    hide Orderly, Savable, Successor, RecoverFrom, FileOf, MakeSnapshot, Run, Lived, Restartable, Structured;
    OrderlyFromFresh(epoch, policy, ops);
    OrderlyInEveryLife(Run(Fresh(epoch, policy), ops), lives);
    StructuredFrom(Lived(Run(Fresh(epoch, policy), ops), lives));
    RecoverSaved(live, Lived(Run(Fresh(epoch, policy), ops), lives));
  }

  // ---- weights pile up ----

  lemma PolicyKept(s: State, op: Op)
    ensures Apply(s, op).policy == s.policy
  {
    if CatalogOp(op) {
      hide GenerationsOf;
    } else {
      hide Apply;
      CatalogUntouched(s, op);
    }
  }

  lemma {:induction false} PolicyKeptLater(s: State, ops: seq<Op>)
    ensures Run(s, ops).policy == s.policy
  {
    if ops != [] {
      hide Apply;
      PolicyKeptLater(s, ops[..|ops| - 1]);
      PolicyKept(Run(s, ops[..|ops| - 1]), ops[|ops| - 1]);
    }
  }

  lemma OneLifeWeighs(s: State, life: Life)
    requires Orderly(s) && Savable(s)
    ensures |Reborn(s, life).policy.weights| == |life.policy.weights| + |s.policy.weights|
  {
    hide Orderly, Savable, Successor, RecoverFrom, FileOf, MakeSnapshot, Run, Structured;
    var live := Fresh(life.epoch, life.policy);
    StructuredFrom(s);
    RecoverSaved(live, s);
    SuccessorPolicy(live, s);
    PolicyKeptLater(Successor(live, s), life.ops);
  }

  /** Every life adds the weights of the engine that it begins with. */
  lemma {:induction false} WeightsPileUp(s: State, lives: seq<Life>, n: nat)
    requires Orderly(s) && Restartable(s, lives)
    requires forall i :: 0 <= i < |lives| ==> |lives[i].policy.weights| == n
    ensures |Lived(s, lives).policy.weights| == |s.policy.weights| + n * |lives|
    decreases |lives|
  {
    hide Orderly, Savable, Reborn;
    if lives != [] {
      var most := lives[..|lives| - 1];
      WeightsPileUp(s, most, n);
      OrderlyInEveryLife(s, most);
      OneLifeWeighs(Lived(s, most), lives[|lives| - 1]);
      assert n * |lives| == n * |most| + n;
    }
  }

  lemma SavableIsLight(s: State)
    requires Savable(s)
    ensures |s.policy.weights| <= Layout.MAX_WEIGHTS
  {
    hide StorableTables;
  }

  /** An engine with the default weights, restarted under the default weights, can be restarted five times at
      most, whatever calls are made: the file it then saves has 72 weights and is refused. */
  lemma FiveRestartsAtMost(s: State, lives: seq<Life>, live: State)
    requires Orderly(s) && Restartable(s, lives) && s.policy.weights == DEFAULT_WEIGHTS
    requires forall i :: 0 <= i < |lives| ==> lives[i].policy.weights == DEFAULT_WEIGHTS
    ensures |lives| <= 5
    ensures |lives| == 5 && WithinSizes(MakeSnapshot(Lived(s, lives))) ==>
              RecoverFrom(live, Some(FileOf(Lived(s, lives)))).result == Err(CORRUPT_STATE)
  {
    hide Orderly, Savable, Reborn, RecoverFrom, FileOf, Structured, WithinSizes;
    WeightsPileUp(s, lives, 12);
    if lives != [] {
      WeightsPileUp(s, lives[..|lives| - 1], 12);
      SavableIsLight(Lived(s, lives[..|lives| - 1]));
    }
    if |lives| == 5 && WithinSizes(MakeSnapshot(Lived(s, lives))) {
      OrderlyInEveryLife(s, lives);
      StructuredFrom(Lived(s, lives));
      RecoversExactly(live, Lived(s, lives));
    }
  }

  // ---- accounts ----

  lemma SuccessorAccounts(live: State, s: State)
    requires live.ledgers == map[]
    ensures var r := Successor(live, s);
            && r.ledgers.Keys == live.devices.Keys + s.devices.Keys
            && (forall d :: d in r.ledgers ==> r.ledgers[d].used == NOTHING)
            && r.deployments == RestartedDeployments(live.deployments + s.deployments)
  {
    hide RestartedDeployments, MergedPolicy, RestartedDevice, JoinedPrograms, ZeroUsage;
  }

  lemma StillHolding(d: Deployment)
    ensures Conservation.Holding(RestartedDeployment(d).state) == Conservation.Holding(d.state)
    ensures RestartedDeployment(d).binding == d.binding
  {
  }

  /** A deployment on a known device, among those saved and those already there, that holds resources. */
  predicate StillOwes(live: State, s: State, k: u64) {
    var deps := live.deployments + s.deployments;
    && k in deps && Conservation.Holding(deps[k].state) && deps[k].binding.resources != NOTHING
    && (deps[k].binding.device in live.devices || deps[k].binding.device in s.devices)
  }

  /** Deployments come back holding their resources while every ledger starts empty: after recovering into an
      engine without ledgers, the accounts are exact if and only if no such deployment comes back. */
  lemma RestartConserves(live: State, s: State)
    requires live.ledgers == map[] && Structured(MakeSnapshot(s)) && Savable(s)
    ensures Conservation.Conserved(RecoverFrom(live, Some(FileOf(s))).state) <==> forall k :: !StillOwes(live, s, k)
  {
    hide RecoverFrom, Successor, FileOf, Savable, Structured, Conservation.Conserved, StillOwes;
    RecoverSaved(live, s);
    SuccessorAccounts(live, s);
    IdleConserves(Successor(live, s));
    forall k { SameDebts(live, s, Successor(live, s), k); }
  }

  lemma SameDebts(live: State, s: State, r: State, k: u64)
    requires r.ledgers.Keys == live.devices.Keys + s.devices.Keys
    requires r.deployments == RestartedDeployments(live.deployments + s.deployments)
    ensures StillOwes(live, s, k) <==> Owes(r, k)
  {
    hide RestartedDeployment, Conservation.Holding;
    var deps := live.deployments + s.deployments;
    if k in deps {
      StillHolding(deps[k]);
    }
  }

  /** Deployment k holds resources on a device that has an account. */
  predicate Owes(s: State, k: u64) {
    && k in s.deployments && Conservation.Holding(s.deployments[k].state) && s.deployments[k].binding.resources != NOTHING
    && s.deployments[k].binding.device in s.ledgers
  }

  lemma IdleConserves(s: State)
    requires forall d :: d in s.ledgers ==> s.ledgers[d].used == NOTHING
    ensures Conservation.Conserved(s) <==> forall k :: !Owes(s, k)
  {
    hide Conservation.Held;
    if Conservation.Conserved(s) {
      forall k ensures !Owes(s, k) {
        if k in s.deployments && Conservation.Holding(s.deployments[k].state) && s.deployments[k].binding.device in s.ledgers {
          var b := s.deployments[k].binding;
          assert Conservation.Balanced(s, b.device);
          forall dim: Dimension ensures b.resources.At(dim) == NOTHING.At(dim) {
            Conservation.ShareIsHeld(s, k, b.device, dim);
          }
          Conservation.SameResources(b.resources, NOTHING);
        }
      }
    } else {
      var d :| d in s.ledgers && !Conservation.Balanced(s, d);
      var dim: Dimension :| NOTHING.At(dim) != Conservation.Held(s, d, dim);
      SomethingHeld(s, d, dim);
      var k :| Owes(s, k);
    }
  }

  lemma SomethingHeld(s: State, d: u64, dim: Dimension)
    requires d in s.ledgers && Conservation.Held(s, d, dim) != 0
    ensures exists k :: Owes(s, k)
  {
    var shares := Conservation.Shares(s.deployments, d, dim);
    Conservation.TotalMonotone(shares, shares);
    var k :| k in shares && shares[k] != 0;
    assert Owes(s, k);
  }

  // ---- ids ----

  /** The calls that take an id. */
  predicate TakesIds(op: Op) {
    op.OpReserve? || op.OpActivate?
  }

  lemma IdsKept(s: State, op: Op)
    requires !TakesIds(op)
    ensures Apply(s, op).idSeq == s.idSeq && Apply(s, op).deployments.Keys == s.deployments.Keys
  {
    hide Apply;
    KeysKept(s, op);
    if DeviceOp(op) {
      DeviceOpIds(s, op);
    } else if CatalogOp(op) {
      CatalogFrame(s, op);
    } else if EndingOp(op) {
      EndingFrame(s, op);
    } else {
      RungIds(s, op);
    }
  }

  lemma KeysKept(s: State, op: Op)
    requires !TakesIds(op)
    ensures Apply(s, op).deployments.Keys == s.deployments.Keys
  {
    hide Apply;
    forall k ensures k in s.deployments <==> k in Apply(s, op).deployments {
      if k in s.deployments {
        Lifecycle.StepStep(s, op, k);
      } else if k in Apply(s, op).deployments {
        Lifecycle.NewcomersAreReserved(s, op, k);
        assert false;
      }
    }
  }

  lemma {:induction false} IdsKeptLater(s: State, ops: seq<Op>)
    requires forall i :: 0 <= i < |ops| ==> !TakesIds(ops[i])
    ensures Run(s, ops).idSeq == s.idSeq && Run(s, ops).deployments.Keys == s.deployments.Keys
  {
    if ops != [] {
      hide Apply, TakesIds;
      IdsKeptLater(s, ops[..|ops| - 1]);
      IdsKept(Run(s, ops[..|ops| - 1]), ops[|ops| - 1]);
    }
  }

  /** The id counter is not restored. However the engine is prepared after a restart, the first reservation takes
      the live counter's id. A deployment that came back is replaced if and only if it has that id. */
  lemma RestartReusesIds(live: State, file: seq<byte>, ops: seq<Op>, req: OffloadRequest, selected: Option<u64>)
    requires RecoverFrom(live, Some(file)).result.Ok?
    requires forall i :: 0 <= i < |ops| ==> !TakesIds(ops[i])
    requires Grants(Run(RecoverFrom(live, Some(file)).state, ops), req, selected)
    ensures var back := RecoverFrom(live, Some(file)).state;
            var r := Run(back, ops);
            var o := ReserveDeployment(r, req, selected);
            && o.result == Ok(live.idSeq)
            && o.state.deployments == r.deployments[live.idSeq := NewDeployment(NewBinding(r, req, selected.value))]
            && (o.state.deployments.Keys == back.deployments.Keys <==> live.idSeq in back.deployments)
  {
    RecoveryKeepsIds(live, file);
    var back := RecoverFrom(live, Some(file)).state;
    hide RecoverFrom, Run, ReserveDeployment, NewBinding, NewDeployment, Grants, TakesIds;
    IdsKeptLater(back, ops);
    NextIdIsTaken(Run(back, ops), req, selected);
  }

  lemma NextIdIsTaken(s: State, req: OffloadRequest, selected: Option<u64>)
    requires Grants(s, req, selected)
    ensures var o := ReserveDeployment(s, req, selected);
            && selected.Some? && selected.value in s.devices && (req.service.Some? ==> req.service.value in s.services)
            && o.result == Ok(s.idSeq)
            && o.state.deployments == s.deployments[s.idSeq := NewDeployment(NewBinding(s, req, selected.value))]
            && (o.state.deployments.Keys == s.deployments.Keys <==> s.idSeq in s.deployments)
  {
    hide ReserveDeployment, NewBinding, NewDeployment, DeviceRecord.ReadyForOffload, Admits, RequestedResources;
    ReservesExactly(s, req, selected);
    ReserveAdds(s, req, selected);
    assert s.idSeq in ReserveDeployment(s, req, selected).state.deployments.Keys;
  }

  lemma RecoveryKeepsIds(live: State, file: seq<byte>)
    requires RecoverFrom(live, Some(file)).result.Ok?
    ensures RecoverFrom(live, Some(file)).state.idSeq == live.idSeq
  {
    hide Load;
    LoadKeepsIds(live, file);
  }

  lemma LoadKeepsIds(live: State, file: seq<byte>)
    requires Load(live, file).Ok?
    ensures Load(live, file).value.idSeq == live.idSeq
  {
    hide GetStored, Store.Opened;
  }

  // ---- activations ----

  /** A deployment that was saved while ACTIVATING comes back ACTIVATING without its activation: once its
      device is ready again and its program is current, committing it dereferences nothing. */
  lemma RestartedActivatingHasNoActivation(s: State, k: u64)
    requires k in s.deployments && s.deployments[k].state.Activating?
    ensures k in Restarted(s).deployments && Restarted(s).deployments[k].state.Activating?
    ensures forall r: State :: k in r.deployments && r.deployments[k] == Restarted(s).deployments[k] ==>
              var b := r.deployments[k].binding;
              (CommitDeployment(r, k).result == Err(EMPTY_DEREFERENCE) <==>
                 && b.device in r.devices && r.devices[b.device].ReadyForOffload()
                 && (b.program != 0 ==> b.program in r.currentProgramGen && r.currentProgramGen[b.program] == b.programGen))
  {
    hide DeviceRecord.ReadyForOffload;
  }
}
