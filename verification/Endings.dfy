/** When each call on a deployment succeeds, what it throws, and what it undoes. */
module Endings {
  import opened Base
  import opened Resource
  import opened Records
  import opened Coordinator
  import opened Fencing

  /** Before a deployment goes into service. */
  const ON_THE_WAY: set<DeploymentState> :=
    {DeploymentState.Reserved, DeploymentState.Staging, DeploymentState.Loaded, DeploymentState.Validating, DeploymentState.Activating}

  const IN_SERVICE: set<DeploymentState> := {DeploymentState.Active, DeploymentState.Degraded}

  /** The deployment table, state by state: what each leads to. */
  function LeadsTo(from: DeploymentState): set<DeploymentState> {
    match from
    case Planned => {DeploymentState.Reserved, DeploymentState.Aborted, DeploymentState.Failed}
    case Reserved => {DeploymentState.Staging, DeploymentState.Planned, DeploymentState.Aborted, DeploymentState.Failed}
    case Staging => {DeploymentState.Loaded, DeploymentState.Reserved, DeploymentState.Aborted, DeploymentState.Failed}
    case Loaded => {DeploymentState.Validating, DeploymentState.Staging, DeploymentState.Aborted, DeploymentState.Failed}
    case Validating =>
      {DeploymentState.Activating, DeploymentState.Loaded, DeploymentState.Failed, DeploymentState.Aborted,
       DeploymentState.RevalidationRequired}
    case Activating =>
      {DeploymentState.Active, DeploymentState.Failed, DeploymentState.Aborted, DeploymentState.RevalidationRequired,
       DeploymentState.Degraded}
    case Active =>
      {DeploymentState.Degraded, DeploymentState.Draining, DeploymentState.RevalidationRequired, DeploymentState.Failed,
       DeploymentState.Retired}
    case Degraded =>
      {DeploymentState.Active, DeploymentState.Draining, DeploymentState.RevalidationRequired, DeploymentState.Failed,
       DeploymentState.Retired}
    case Draining =>
      {DeploymentState.Retired, DeploymentState.Active, DeploymentState.RevalidationRequired, DeploymentState.Failed}
    case Failed =>
      {DeploymentState.Planned, DeploymentState.Aborted, DeploymentState.Retired, DeploymentState.RevalidationRequired}
    case Aborted => {DeploymentState.Planned, DeploymentState.Retired}
    case Retired => {}
    case RevalidationRequired =>
      {DeploymentState.Validating, DeploymentState.Active, DeploymentState.Failed, DeploymentState.Retired, DeploymentState.Draining}
  }

  lemma TransitionsAre(from: DeploymentState, to: DeploymentState)
    ensures ValidDeploymentTransition(from, to) <==> to in LeadsTo(from)
  {
  }

  /** r is s with deployment k moved, its activation marked if it points to one that exists, and its resources given
      back if asked and if the account covers them. */
  predicate Ends(s: State, r: State, k: u64, to: DeploymentState, mark: ActivationState, gives: bool)
    requires k in s.deployments
  {
    var d := s.deployments[k];
    && r == s.(deployments := s.deployments[k := d.(state := to, authoritative := false)],
               activations := r.activations, ledgers := r.ledgers, usage := r.usage)
    && r.activations.Keys == s.activations.Keys
    && (forall a :: a in s.activations ==>
          r.activations[a] == if d.activation == Some(a) then s.activations[a].(state := mark) else s.activations[a])
    && Accounts(s, r.ledgers, r.usage, d.binding, gives)
  }

  /** The account of the device loses what the deployment holds, if it covers that, and its usage follows. */
  predicate GivenBack(ledgers: map<u64, Ledger>, usage: map<u64, Resources>, ls: map<u64, Ledger>, us: map<u64, Resources>,
                      b: DeploymentBinding)
    requires b.device in ledgers
  {
    && b.device in ls && ls == ledgers[b.device := ledgers[b.device].(used := ls[b.device].used)]
    && us == usage[b.device := ls[b.device].used]
    && (forall dim: Dimension ::
          ls[b.device].used.At(dim) ==
          ledgers[b.device].used.At(dim) - if Covers(ledgers[b.device].used, b.resources) then b.resources.At(dim) else 0)
  }

  lemma ReleaseGivesBack(s: State, k: u64)
    requires k in s.deployments && s.deployments[k].binding.device in s.ledgers
    ensures var r := ReleaseResources(s, k); GivenBack(s.ledgers, s.usage, r.ledgers, r.usage, s.deployments[k].binding)
  {
    hide Released, Covers;
    var b := s.deployments[k].binding;
    var used := s.ledgers[b.device].used;
    forall dim: Dimension
      ensures Released(used, b.resources).At(dim) == used.At(dim) - if Covers(used, b.resources) then b.resources.At(dim) else 0
    {
      ReleasedAt(used, b.resources, dim);
    }
  }

  /** The accounts after giving back, or not. */
  predicate Accounts(s: State, ledgers: map<u64, Ledger>, usage: map<u64, Resources>, b: DeploymentBinding, gives: bool) {
    if gives && b.device in s.ledgers then GivenBack(s.ledgers, s.usage, ledgers, usage, b)
    else ledgers == s.ledgers && usage == s.usage
  }

  lemma MovedEnds(s: State, ledgers: map<u64, Ledger>, usage: map<u64, Resources>, k: u64, to: DeploymentState,
                  mark: ActivationState, gives: bool)
    requires k in s.deployments && Accounts(s, ledgers, usage, s.deployments[k].binding, gives)
    ensures Ends(s, MovedWith(s.(ledgers := ledgers, usage := usage), k, to, mark), k, to, mark, gives)
  {
    hide Accounts;
  }

  lemma ReleasedAccounts(s: State, k: u64)
    requires k in s.deployments
    ensures var r := ReleaseResources(s, k);
            r == s.(ledgers := r.ledgers, usage := r.usage) && Accounts(s, r.ledgers, r.usage, s.deployments[k].binding, true)
  {
    hide GivenBack, Released;
    if s.deployments[k].binding.device in s.ledgers {
      ReleaseGivesBack(s, k);
    }
  }

  lemma AbandonedEnds(s: State, k: u64, to: DeploymentState, mark: ActivationState)
    requires k in s.deployments
    ensures Ends(s, Abandoned(s, k, to, mark), k, to, mark, true)
  {
    hide Accounts, ReleaseResources, MovedWith, Ends;
    ReleasedAccounts(s, k);
    MovedEnds(s, ReleaseResources(s, k).ledgers, ReleaseResources(s, k).usage, k, to, mark, true);
  }

  /** Cancelling takes a deployment back before it goes into service, and no other. */
  lemma Cancels(s: State, k: u64)
    ensures var o := CancelDeployment(s, k);
            && (o.result == Err(NOT_FOUND) <==> k !in s.deployments)
            && (o.result == Ok(()) <==> k in s.deployments && s.deployments[k].state in ON_THE_WAY + {DeploymentState.Planned})
            && (o.result.Err? ==> o.state == s && o.result.error in {NOT_FOUND, INVALID_STATE})
            && (o.result.Ok? ==> Ends(s, o.state, k, DeploymentState.Aborted, ActivationState.Cancelled, true))
  {
    hide Abandoned, Ends;
    if k in s.deployments {
      AbandonedEnds(s, k, DeploymentState.Aborted, ActivationState.Cancelled);
    }
  }

  lemma RollsBack(s: State, k: u64)
    ensures var o := RollbackDeployment(s, k);
            && (o.result == Err(NOT_FOUND) <==> k !in s.deployments)
            && (o.result == Ok(()) <==> k in s.deployments && s.deployments[k].state in ON_THE_WAY + {DeploymentState.Failed})
            && (o.result.Err? ==> o.state == s && o.result.error in {NOT_FOUND, INVALID_STATE})
            && (o.result.Ok? ==> Ends(s, o.state, k, DeploymentState.Aborted, ActivationState.Cancelled, true))
  {
    hide Abandoned, Ends;
    if k in s.deployments {
      AbandonedEnds(s, k, DeploymentState.Aborted, ActivationState.Cancelled);
    }
  }

  /** Draining keeps the resources. */
  lemma Drains(s: State, k: u64)
    ensures var o := DrainDeployment(s, k);
            && (o.result == Err(NOT_FOUND) <==> k !in s.deployments)
            && (o.result == Ok(()) <==>
                k in s.deployments && s.deployments[k].state in IN_SERVICE + {DeploymentState.RevalidationRequired})
            && (o.result.Err? ==> o.state == s && o.result.error in {NOT_FOUND, INVALID_STATE})
            && (o.result.Ok? ==> Ends(s, o.state, k, DeploymentState.Draining, ActivationState.Draining, false))
  {
  }

  /** Retiring gives back only what has not been given back by failing or aborting. */
  lemma Retires(s: State, k: u64)
    ensures var o := RetireDeployment(s, k);
            && (o.result == Err(NOT_FOUND) <==> k !in s.deployments)
            && (o.result == Ok(()) <==>
                k in s.deployments && s.deployments[k].state in IN_SERVICE + {DeploymentState.Draining, DeploymentState.RevalidationRequired,
                                                                              DeploymentState.Failed, DeploymentState.Aborted})
            && (o.result.Err? ==> o.state == s && o.result.error in {NOT_FOUND, INVALID_STATE})
            && (o.result.Ok? ==>
                  if s.deployments[k].state.Failed? || s.deployments[k].state.Aborted?
                  then o.state == s.(deployments := s.deployments[k := s.deployments[k].(state := DeploymentState.Retired, authoritative := false)])
                  else Ends(s, o.state, k, DeploymentState.Retired, ActivationState.Retired, true))
  {
    hide Abandoned, Ends;
    if k in s.deployments {
      AbandonedEnds(s, k, DeploymentState.Retired, ActivationState.Retired);
    }
  }

  lemma Fails(s: State, k: u64)
    ensures var o := FailDeployment(s, k);
            && (o.result == Err(NOT_FOUND) <==> k !in s.deployments)
            && (o.result == Ok(()) <==> k in s.deployments && DeploymentState.Failed in LeadsTo(s.deployments[k].state))
            && (o.result.Err? ==> o.state == s && o.result.error in {NOT_FOUND, INVALID_TRANSITION})
            && (o.result.Ok? ==> Ends(s, o.state, k, DeploymentState.Failed, ActivationState.Stale, true))
  {
    hide Abandoned, Ends, ValidDeploymentTransition, LeadsTo;
    if k in s.deployments {
      TransitionsAre(s.deployments[k].state, DeploymentState.Failed);
      AbandonedEnds(s, k, DeploymentState.Failed, ActivationState.Stale);
    }
  }

  /** Staging, loading and validating move one deployment along the table. */
  lemma Transits(s: State, k: u64, to: DeploymentState)
    ensures var o := DeployTransition(s, k, to);
            && (o.result == Err(NOT_FOUND) <==> k !in s.deployments)
            && (o.result == Ok(()) <==> k in s.deployments && to in LeadsTo(s.deployments[k].state))
            && (o.result.Err? ==> o.state == s && o.result.error in {NOT_FOUND, INVALID_TRANSITION})
            && (o.result.Ok? ==> o.state == s.(deployments := s.deployments[k := s.deployments[k].(state := to, authoritative := false)]))
  {
    hide ValidDeploymentTransition, LeadsTo;
    if k in s.deployments {
      TransitionsAre(s.deployments[k].state, to);
    }
  }

  /** Activating gives a validated deployment a new pending activation of the next generation. */
  lemma Activates(s: State, k: u64)
    ensures var o := ActivateDeployment(s, k);
            && (o.result == Err(NOT_FOUND) <==> k !in s.deployments)
            && (o.result.Ok? <==> k in s.deployments && s.deployments[k].state.Validating?)
            && (o.result.Err? ==> o.state == s && o.result.error in {NOT_FOUND, INVALID_TRANSITION})
            && (o.result.Ok? ==>
                  && o.result.value == s.idSeq
                  && var d := s.deployments[k];
                     var gen := if d.activationGen == U64_MAX then U64_MAX else d.activationGen + 1;
                     o.state == s.(
                       idSeq := (s.idSeq + 1) % TWO_64,
                       deployments := s.deployments[k := d.(state := DeploymentState.Activating, authoritative := false,
                                                            activation := Some(s.idSeq), activationGen := gen)],
                       activations := s.activations[s.idSeq := ActivationRecord(s.idSeq, gen, k, d.binding.generation, NO_AUTHORITY,
                                                                                ActivationState.Pending)]))
  {
  }

  /** Committing checks, in this order: the deployment, its state, its device, its program, its activation. */
  lemma CommitThrows(s: State, k: u64)
    ensures var o := CommitDeployment(s, k);
            && (o.result == Err(NOT_FOUND) <==> k !in s.deployments)
            && (k in s.deployments ==>
                  var d := s.deployments[k];
                  var ready := d.binding.device in s.devices && s.devices[d.binding.device].status.lifecycle.Ready?
                               && s.devices[d.binding.device].status.evidenceFresh;
                  var current := d.binding.program == 0 || (d.binding.program in s.currentProgramGen
                                                            && s.currentProgramGen[d.binding.program] == d.binding.programGen);
                  && (!d.state.Activating? ==> o.result == Err(INVALID_STATE))
                  && (d.state.Activating? && !ready ==> o.result == Err(DEVICE_NOT_READY))
                  && (d.state.Activating? && ready && !current ==> o.result == Err(STALE_PROGRAM_GENERATION))
                  && (d.state.Activating? && ready && current && d.activation.None? ==> o.result == Err(EMPTY_DEREFERENCE)))
            && (o.result.Err? ==> o.state == s)
  {
  }

  /** Reserving checks, in this order: a selection, its device, the service, the account; two ids are gone once the
      service is known. */
  lemma ReserveThrows(s: State, req: OffloadRequest, selected: Option<u64>)
    ensures var o := ReserveDeployment(s, req, selected);
            var ready := selected.Some? && selected.value in s.devices && s.devices[selected.value].status.lifecycle.Ready?
                         && s.devices[selected.value].status.evidenceFresh;
            var known := req.service.None? || req.service.value in s.services;
            && (o.result == Err(INVALID_STATE) <==> selected.None? || (ready && known && selected.value !in s.ledgers))
            && (o.result == Err(DEVICE_NOT_READY) <==> selected.Some? && !ready)
            && (o.result == Err(NOT_FOUND) <==> ready && !known)
            && (o.result == Err(RESOURCE_EXHAUSTED) <==>
                ready && known && selected.value in s.ledgers && !Grants(s, req, selected))
            && (o.result.Err? ==> o.state == s.(idSeq := if ready && known then (s.idSeq + 2) % TWO_64 else s.idSeq))
  {
    hide Admits, Applied, NewDeployment, RequestedResources, CurrentGen;
  }

  /** What a granted reservation enters. */
  lemma ReserveEnters(s: State, req: OffloadRequest, selected: Option<u64>)
    requires Grants(s, req, selected)
    ensures var o := ReserveDeployment(s, req, selected);
            && o.result == Ok(s.idSeq) && o.state.idSeq == (s.idSeq + 2) % TWO_64 && s.idSeq in o.state.deployments
            && selected.Some? && selected.value in s.devices
            && var d, dev := o.state.deployments[s.idSeq], s.devices[selected.value];
               && d.state.Reserved? && !d.authoritative && d.activation.None? && d.activationGen == 0
               && d.epoch == 0 && d.workerBoot == 0 && d.evidenceGen == 0 && d.policyGen == 0
               && d.binding.deploymentId == s.idSeq && d.binding.attemptId == (s.idSeq + 1) % TWO_64 && d.binding.generation == 1
               && d.binding.device == selected.value && d.binding.deviceGen == dev.identity.generation
               && d.binding.deviceBoot == dev.identity.bootId && d.binding.artifact == 0 && d.binding.artifactGen == 0
               && d.binding.tenant == req.tenant && d.binding.isolationDomain == req.isolationDomain
               && (req.service.None? ==> d.binding.service == 0 && d.binding.serviceGen == 0 && d.binding.resources == req.resource)
               && (req.service.Some? ==>
                     && req.service.value in s.services && d.binding.service == req.service.value
                     && d.binding.serviceGen == s.services[req.service.value].serviceGen
                     && d.binding.resources == s.services[req.service.value].resource)
               && d.binding.program == (if req.requiredProgram.Some? then req.requiredProgram.value
                                        else if req.service.Some? then s.services[req.service.value].requiredProgram else 0)
               && d.binding.programGen == (if d.binding.program != 0 && d.binding.program in s.currentProgramGen
                                           then s.currentProgramGen[d.binding.program] else 0)
  {
    hide Admits, Applied, DeviceRecord.ReadyForOffload;
  }

  // ---- what one call undoes ----

  /** Reserving and then cancelling gives the account back as it was, if and only if no counter wrapped. */
  lemma CancelUndoesReserve(s: State, req: OffloadRequest, selected: Option<u64>)
    requires Grants(s, req, selected)
    ensures var o := ReserveDeployment(s, req, selected);
            var c := CancelDeployment(o.state, s.idSeq);
            && o.result == Ok(s.idSeq) && c.result == Ok(()) && selected.Some? && selected.value in s.ledgers
            && (c.state.ledgers == s.ledgers <==> NoWrap(s.ledgers[selected.value].used, RequestedResources(s.services, req)))
  {
    hide Admits, Applied, Released, NoWrap, RequestedResources, DeviceRecord.ReadyForOffload, CurrentGen;
    var l, r := s.ledgers[selected.value], RequestedResources(s.services, req);
    var o := ReserveDeployment(s, req, selected);
    assert o.state.ledgers == s.ledgers[selected.value := l.(used := Applied(l.used, r))];
    var c := CancelDeployment(o.state, s.idSeq);
    assert c.state.ledgers == o.state.ledgers[selected.value := l.(used := Released(Applied(l.used, r), r))];
    RollbackRestores(l.used, r);
    assert c.state.ledgers[selected.value].used == Released(Applied(l.used, r), r);
    if Released(Applied(l.used, r), r) == l.used {
      assert c.state.ledgers == s.ledgers;
    }
  }
}
