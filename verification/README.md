# DPU Fabric: a verified model of the coordinator

DPU Fabric coordinates offload deployments on DPUs and similar devices. A
single engine owns the live tables (devices, services, programs, workers,
deployments, activations, ledgers and their usage mirror), publishes immutable
snapshots, evaluates offload requests against a snapshot, reserves resources,
walks deployments up a ladder of states, hands out generation tokens as
authority, and survives restarts through an integrity-checked state file.

The project models these four parts and the codecs below them.

- **Coordinator.** `Coordinator` gives each of the engine's operations as a
  function from state to outcome (new state, and result or error), and `Run`
  as what a sequence of calls does to a fresh engine. `Engine` is the
  imperative engine: a class with the source's tables as fields, the fencing
  loops as loops, and every method proved to produce exactly the state and
  result of its specification. On the specification stand the theorems about
  all runs: `Mirror`, `Coupling`, `Authority`, `Currency`, `Lifecycle`,
  `Ladder`, `Devices`, `Conservation`. What the specification itself means,
  call by call and without its own helper functions, is proved in `Registry`
  (devices and fences), `Catalog` (services, programs, workers, epochs,
  tokens) and `Endings` (deployments).
- **Eligibility and ranking.** `Eligibility` and `Evaluation` model
  `evaluate_offload` with exact real scores; `Reasons` gives the condition of each
  rejection; `Scoring` and `Ranking` prove what the ranking does and does not
  depend on; `Admission` connects an evaluation
  with a later reservation, which may receive any, possibly stale, result.
- **Durable state.** `Layout` and `Counted` give each record's encoding and
  parsing, `Transfer` and `StateFile` the writers and readers, `Store` the
  checksummed container, `Persistence` and `Recovery` the round trip and the
  restart fence, `Restarts` what any number of restarts keeps and what a
  restart does not restore, and `Sizes` the lengths of records.
- **Wire, frames, identities, checksums.** `Wire`, `Frame`, `Ids`, `Crc32`,
  and the ledgers in `Resource` with their two headroom computations in
  `Headroom`. `Formats` and `RecordFormat` give the bytes position by
  position; `Division` is long division of polynomials over bit sequences, and
  `Reflected` proves that the checksum is its complemented remainder by the
  generator polynomial of IEEE Std 802.3-2018, clause 3.2.9.

Each call is one atomic step, because the source holds one mutex in every
mutating call. Unsigned 64-bit arithmetic is written out: ledger sums and the
id counter wrap, generations saturate.

Several obvious invariants are false of the code. Each is stated with the
exact condition under which a call breaks it, in terms a caller can check
before the call, and `Witnesses` gives a run of a new engine that gets there:
conservation (`Conservation.ConservationStep`: rollback of a FAILED deployment,
retiring a device in use, a wrapping sum), "ACTIVE implies ready"
(`Devices.InServiceStep`), accounts after a restart
(`Restarts.RestartConserves`), commits after a restart
(`Restarts.RestartedActivatingHasNoActivation`), ids after a restart
(`Restarts.RestartReusesIds`: a deployment that came back can be replaced by
the first new one), and the policy after a restart. Saved weights are appended
to those of the engine that recovers, where the first match counts, so they
come back only into an engine without weights
(`Restarts.PolicyAfterRestart`); under the default policy they never count
(`Restarts.SavedWeightsNeverCount`), and each restart adds twelve, so that the
sixth fails (`Restarts.FiveRestartsAtMost`, `Witnesses.SixthRestartFails`). The
integer headroom (`Headroom.DimensionFloor`, `Headroom.LedgerFloor`) and the
rollback of a reservation (`Resource.RollbackRestores`) are exact under the
conditions stated there.

Where comments and code disagree the model follows the code:
`include/dpufabric/persistence.h:29-31` says that loading sets the epoch to the
one the caller provides, but `src/persistence.cpp:498-499` takes the persisted
epoch, at least 1; `include/dpufabric/resource.h:109-110` says that releasing
too much throws, but `include/dpufabric/resource.h:121-124` returns silently;
`include/dpufabric/policy.h:107` speaks of subtracting inverted factors, but
the scores are added as they are, with an inverted value or a negative weight.

`Run` starts from a fresh engine. Theorems that need ids not to run out bound
the number of calls by `MAX_CALLS` (about 2^63); an engine that makes a call
every nanosecond reaches it after 292 years.

## Model

| member | source | states |
|---|---|---|
| `Conservation.ConservedOnEveryRun` | src/engine.cpp:278-512 | On every run from a fresh engine that makes no unbalancing call, each device's ledger equals, in every dimension, the sum of the resources of its deployments not in FAILED, ABORTED or RETIRED, and each such deployment can be released without underflow. |
| `Conservation.ConservationStep` | src/engine.cpp:96-118 | Exactness of the exclusions: in a balanced state in which the tables mirror each other and are coupled, one call keeps all accounts exact if and only if it is not one of three kinds: rollback of a FAILED deployment that the account still covers, `retire_device` with something in service on the device that holds resources, or a reservation whose sum wraps 64 bits. |
| `Conservation.EndingConserves` | src/engine.cpp:424-512 | Cancel, rollback, drain, retire and fail keep the sums exact if and only if the call is not a second release of a FAILED deployment. |
| `Conservation.RetireDeviceConserves` | src/engine.cpp:101-112 | Retiring a device keeps the sums exact if and only if no deployment it fences holds resources: the released deployments still count as holding. |
| `Conservation.ReserveConserves` | src/engine.cpp:343-350 | A reservation keeps the sums exact if and only if it is not granted or no dimension of used plus requested wraps. |
| `Fencing.ReservesExactly` | src/engine.cpp:307-345 | A reservation is granted if and only if the device is ready, a named service known and the account present with room. |
| `Witnesses.SecondReleaseHappens` | src/engine.cpp:446-450 | Register, reserve twice, fail the first: all sums are exact, and rolling the failed one back unbalances them. |
| `Witnesses.EarlyReleaseHappens` | src/engine.cpp:101-112 | A deployment brought into service, all sums exact: retiring its device unbalances them. |
| `Witnesses.WrapHappens` | include/dpufabric/resource.h:67-72 | On an unbounded device two reservations of 2^63 slots are both granted and unbalance the sums. |
| `Witnesses.ServiceOutlastsReadiness` | src/engine.cpp:82-144 | A deployment brought into service stays there on a device that is no longer ready, after an update, after DEGRADED and after the loss of a worker. |
| `Witnesses.AccountsLagAfterRestart` | src/engine.cpp:564-567 | One reservation, one restart: the saved sums are exact, the recovered ones are not. |
| `Witnesses.EmptyDereferenceHappens` | src/engine.cpp:413 | Saved while ACTIVATING, recovered, the device updated: commit dereferences an empty activation. |
| `Witnesses.DeploymentIsReplaced` | src/engine.cpp:322 | One reservation, one restart, one reservation: both have id 1, and the deployment that came back is gone. |
| `Witnesses.SixthRestartFails` | src/persistence.cpp:510-516 | Five restarts of an idle engine with the default policy succeed; the sixth throws CORRUPT_STATE. |
| `Conservation.HeldIsCovered` | include/dpufabric/resource.h:121-130 | In a balanced state the early return of `release_` is not taken for any deployment that holds resources. |
| `Coupling.LinkedOnEveryRun` | src/engine.cpp:359-512 | After any run of calls on a fresh engine the deployment and activation tables are coupled (states in correspondence, back pointers, generations, bound devices) and ids stay below twice the number of calls. |
| `Coupling.LinkedStep` | src/engine.cpp:65-546 | Every single operation keeps that coupling. |
| `Authority.StatesAgree` | src/engine.cpp:359-512 | For the activation a deployment points to: PENDING iff ACTIVATING, ACTIVE iff ACTIVE iff authoritative, DRAINING iff DRAINING, REVALIDATION_REQUIRED implies STALE; every other activation of the deployment is STALE. |
| `Authority.CommitIsDefined` | src/engine.cpp:413-414 | On every run from a fresh engine commit never dereferences an empty activation, and INVALID_STATE means only "not ACTIVATING": "activation missing" is unreachable. |
| `Authority.GenerationsOfOneDeployment` | src/engine.cpp:359-375 | Activations of one deployment carry distinct generations, none above the deployment's, and the deployment points to exactly the one that equals its own. |
| `Authority.RecordStep` | src/engine.cpp:359-422 | No call removes an activation record or changes its identity; only committing the deployment that points to it writes its token. |
| `Authority.SupersededStep` | src/engine.cpp:359-422 | An activation that is no longer pointed to stays so, with its token unchanged, across every call. |
| `Authority.SupersededNotCurrent` | include/dpufabric/deployment.h:47-60 | The token of a superseded activation fails `is_current` against the live context of its deployment. |
| `Authority.SupersededForEver` | include/dpufabric/deployment.h:47-60 | No token becomes current again: once superseded on a run from a fresh engine, a token is unchanged and not current after any continuation. |
| `Currency.CurrencyIsExact` | src/engine.cpp:384-421 | On every run without `update_device`, the token of an ACTIVE deployment is current in its live context if and only if the epoch is the token's and the program's current generation is the deployment's. |
| `Currency.CertifiedStep` | src/engine.cpp:399-421 | The invariant behind it, kept by every call except `update_device`: what ACTIVE deployments' tokens were captured from. |
| `Devices.FencingIsSticky` | src/engine.cpp:96-176 | After fencing, retiring or invalidating device d, and after any later calls but `update_device(d)`, d is not ready, no deployment on d is ACTIVE and no evaluation of the current snapshot selects d. |
| `Devices.TakenOut` | src/engine.cpp:96-176 | The calls that take a device out of service do so immediately: not ready, and nothing on it ACTIVE. |
| `Devices.StaysOutOfService` | src/engine.cpp:377-422 | Out of service is kept by every run of calls that does not update that device. |
| `Devices.DeviceStep` | src/engine.cpp:82-176 | No call but `update_device(d)` makes evidence of d fresh again, or changes its identity. |
| `Devices.InServiceOnEveryRun` | src/engine.cpp:377-422 | "ACTIVE implies a ready device with fresh evidence" on every run from a fresh engine that makes no unfencing call. |
| `Devices.InServiceStep` | src/engine.cpp:82-144 | Exactly the unfencing calls break it: in a state where it holds, one call keeps it if and only if it is not an update, loss or DEGRADED/DRAINING/RETIRED transition that takes readiness from under an ACTIVE deployment. |
| `Devices.LossFencesNothing` | src/engine.cpp:244-254 | On every run from a fresh engine `mark_worker_lost` changes no deployment, because reservations never record a worker boot. |
| `Lifecycle.HistoryIsWalk` | src/engine.cpp:268-512 | The states a deployment passes through on any run form a walk along the engine's edges starting in RESERVED. |
| `Lifecycle.ActiveNeedsTheLadder` | include/dpufabric/deployment.h:130-163 | Every entry into ACTIVE is immediately preceded by VALIDATING, ACTIVATING and earlier by RESERVED, STAGING, LOADED; FAILED, ABORTED and RETIRED are never left; PLANNED and DEGRADED never occur; every move is in the transition table. |
| `Lifecycle.EdgesAreValid` | include/dpufabric/deployment.h:130-163 | Every edge the engine uses, including the ones taken without consulting the table, is valid in it. |
| `Lifecycle.StepStep` | src/engine.cpp:96-546 | No call removes a deployment, changes what it is bound to, or moves it off the edges; only committing puts it into service. |
| `Lifecycle.NewcomersAreReserved` | src/engine.cpp:307-353 | A new deployment appears only by a successful reservation, under the next id, RESERVED, bound to a known device and service. |
| `Lifecycle.CommitEffect` | src/engine.cpp:377-422 | A commit either changes nothing or was made on an ACTIVATING deployment with a ready device and a current program, and writes exactly that deployment and its own activation. |
| `Ladder.LadderEndsInService` | src/engine.cpp:307-422 | Reserve, stage, load, validate, activate, commit with no call in between: every rung succeeds, the commit succeeds if and only if the program, if any, has a current generation, and then the deployment is ACTIVE with a current token. |
| `Ladder.CommitsExactly` | src/engine.cpp:377-391 | For an ACTIVATING deployment whose activation exists, commit succeeds if and only if the device is ready and the program, if any, is in its current generation. |
| `Ladder.FreshTokenIsCurrent` | src/engine.cpp:399-421 | A token captured by a commit is current in the resulting state when the deployment is still bound to the tables as they are. |
| `Ladder.BindsToTables` | src/engine.cpp:321-341 | What a reservation records are the generations the tables hold at that moment, and the tenant, domain, service and program the request names. |
| `Mirror.MirrorOnEveryRun` | include/dpufabric/registry.h:84-98 | On every run from a fresh engine devices, ledgers and usage have the same keys, `device_order` lists them once each, usage equals the ledger, and no bounded dimension exceeds its capacity, wrap-around included. |
| `Mirror.MirrorStep` | src/engine.cpp:65-546 | Every single operation keeps that agreement, on any state that has it. |
| `Admission.SelectionIsReservable` | src/engine.cpp:307-347 | Evaluate/reserve agreement: on every run without `update_device`, reserving what an evaluation of the current snapshot selects succeeds if and only if the named service, if any, is registered. |
| `Admission.StaleSelectionIsSafe` | src/engine.cpp:307-347 | With an arbitrary, possibly stale selection a reservation succeeds only on a device that is ready now, a refused one changes no ledger and no deployment, and every bounded dimension stays within capacity. |
| `Admission.CapsMatchOnEveryRun` | src/engine.cpp:65-80 | Without `update_device` each ledger's capacity is the device record's capacity. |
| `Ranking.LosersIrrelevant` | src/eligibility.cpp:323-329 | Removing losing candidates, or leaving their totals alone, keeps the winner; no winner stays no winner. |
| `Ranking.FencingALoser` | src/engine.cpp:154-176 | Fencing any device but the selected one leaves the selection unchanged. |
| `Ranking.DowngradingALoser` | src/engine.cpp:146-152 | Moving a capability of any device but the selected one away from SUPPORTED leaves the selection unchanged. |
| `Recovery.RecoveryGrantsNothing` | src/persistence.cpp:556-571 | Whatever file is recovered into whatever state: until a device is registered or updated, no later state has a ready device, a selection or an ACTIVE deployment. |
| `Recovery.RecoveredEpoch` | src/engine.cpp:561 | After recovering into any engine the epoch is past the saved one and stays past it on every continuation; at saturation it stays saturated. |
| `Recovery.NoOldTokenIsCurrent` | include/dpufabric/deployment.h:47-60 | No token of the saved run is current in any context carrying the epoch of any state after recovery into any engine (below saturation). |
| `Recovery.EngineRoundTrip` | src/engine.cpp:549-572 | Saving the state of any run and recovering it into any engine whatever joins exactly the stored tables to the live ones, fenced, under the next epoch, provided the contents are within the format's bounds; with empty tables every stored table comes back as it was. |
| `Recovery.SnapshotsAreStructured` | include/dpufabric/registry.h:84-98 | Every snapshot of every run, however long, has the structure the format needs: order duplicate-free and covering the devices, records filed under their own ids. |
| `Restarts.RestartConserves` | src/engine.cpp:564-567 | On what `recover_from` makes of a saved state in an engine without ledgers: the sums are exact if and only if no deployment on a known device, saved or already there, still holds resources. |
| `Restarts.RestartReusesIds` | src/engine.cpp:555-572 | The id counter is not restored: after a recovery and any calls that take no id, the first granted reservation takes the live counter's id and enters its deployment there, and a deployment that came back is lost if and only if it had that id. |
| `Restarts.RestartedActivatingHasNoActivation` | src/persistence.cpp:563-570 | A deployment saved while ACTIVATING comes back ACTIVATING without activation; committing it then dereferences nothing if and only if its device is ready and its program current. |
| `Restarts.PolicyAfterRestart` | src/persistence.cpp:511-516 | Saved weights are appended to the live ones: the stored part of the policy comes back if and only if the live policy has no weights, and a saved weight counts only for a factor the live policy does not list. |
| `Restarts.SavedWeightsNeverCount` | include/dpufabric/policy.h:81-103 | Recovered into an engine with the default weights, no saved weight of any factor takes effect. |
| `Restarts.RecoversExactly` | src/persistence.cpp:510 | A saved state within every other bound is recovered if and only if it has at most 64 weights; otherwise CORRUPT_STATE. |
| `Restarts.OrderlyInEveryLife` | src/engine.cpp:549-572 | After any number of restarts, with any calls in between, the tables still mirror one another and every record is filed under its own id. |
| `Restarts.EveryRestartRoundTrips` | src/engine.cpp:549-572 | The round trip holds for the n-th restart as for the first. |
| `Restarts.FiveRestartsAtMost` | src/persistence.cpp:511-516 | An engine with the default weights, restarted under the default weights, survives at most five restarts, whatever calls are made: the file it then saves is refused. |
| `Persistence.LoadSaved` | src/persistence.cpp:374-573 | Save/load round trip: loading the saved bytes of a well-formed snapshot into any live state joins exactly the stored fields to it, with the restart fence applied to the whole. |
| `Persistence.JoinedToNothing` | src/persistence.cpp:497-553 | With empty tables the join is the snapshot's own tables; the policy weights are appended all the same. |
| `Persistence.LoadsExactly` | src/persistence.cpp:510 | Saving does not bound the weights and loading does: what was saved loads if and only if it has at most 64. |
| `Persistence.PayloadRead` | src/persistence.cpp:374-554 | The payload of a well-formed snapshot parses back into the list of all its records, with nothing left over. |
| `Crc32.BurstDetected` | include/dpufabric/wire.h:132-142 | Two buffers of equal length that differ only inside four consecutive bytes always have different CRC-32 values. |
| `Reflected.ChecksumExactly` | include/dpufabric/wire.h:132-142 | Which checksum it is: the one 32-bit number whose complemented bits leave a multiple of the IEEE 802.3 generator polynomial when taken from the dividend (the message bits, each byte lowest bit first, times x^32, the first 32 coefficients complemented). |
| `Reflected.ChecksumIsRemainder` | include/dpufabric/wire.h:132-142 | The bits of the checksum are the complemented remainder of that long division. |
| `Reflected.PolynomialIsGenerator` | include/dpufabric/wire.h:138 | The constant 0xEDB88320 is the generator of IEEE Std 802.3-2018, clause 3.2.9, without its leading coefficient, reflected. |
| `Reflected.FeedBits` | include/dpufabric/wire.h:134-140 | One shift of the register is one step of the division. |
| `Division.RemainderExactly` | include/dpufabric/wire.h:132-142 | Long division over bit sequences finds the one remainder there is: dividend equals quotient times generator plus remainder. |
| `Recovery.RestartFence` | src/persistence.cpp:556-571 | For every file that loads into whatever state: ACTIVE, DEGRADED and DRAINING come back as REVALIDATION_REQUIRED and every other state as entered; nothing is authoritative or points to an activation; a device keeps its lifecycle only if RETIRED, FAILED or OFFLINE, and has no fresh evidence; no activation is left. |
| `Recovery.RecoveryAdopts` | src/engine.cpp:559-570 | What recovery adds: the next epoch after the stored one of at least 1, a ledger for every device without one, and no usage on any of them. |
| `Recovery.DrainingCanDrainAgain` | src/engine.cpp:460-474 | A deployment that was draining when saved can be drained again after the restart. |
| `Registry.LossLeaves` | src/engine.cpp:231-260 | After the loss of a worker each of its devices that is not retired needs revalidation without evidence, every other device is unchanged, and the worker is forgotten. |
| `Registry.LossIsSticky` | src/engine.cpp:234-240 | Until `update_device(d)`, a device of a lost worker is never ready and never selected on any continuation. |
| `Registry.PciReferenceStays` | src/engine.cpp:88-90 | No call replaces one PCI reference of a device by another. |
| `Registry.Registers` | src/engine.cpp:65-80 | When registering succeeds, each error, and the record and order it leaves. |
| `Registry.Updates` | src/engine.cpp:82-94 | When updating succeeds, each error, and that nothing but the record changes. |
| `Registry.RetireLeaves` | src/engine.cpp:96-118 | The retired device is RETIRED without fresh evidence; nothing else of any record changes. |
| `Registry.RetiredForGood` | src/engine.cpp:96-546 | A RETIRED device stays RETIRED under every call but its own update. |
| `Registry.FenceLeaves` | src/engine.cpp:154-163 | A fenced device needs revalidation unless RETIRED, FAILED or OFFLINE, has no fresh evidence, and carries the reason. |
| `Registry.TransitionLeaves` | src/engine.cpp:120-144 | When a transition succeeds, each error, and the status it leaves; evidence survives all but the three invalidating targets. |
| `Registry.TransitionsAre` | include/dpufabric/device.h:101-134 | The lifecycle table, listed edge by edge. |
| `Registry.CapabilitySet` | src/engine.cpp:146-152 | The named capability has the given state, a missing one appears only when SUPPORTED, and all others are unchanged. |
| `Registry.RecoveryLeaves` | src/engine.cpp:521-534 | What apply_recovery leaves of each device; capabilities untouched unless asked. |
| `Registry.RecoveryUnsupports` | src/engine.cpp:528-533 | When asked, every SUPPORTED capability of a device that is not retired needs revalidation, and no other changes. |
| `Registry.FencedDeployments` | src/engine.cpp:96-176 | Each call on devices takes exactly the deployments it fences to REVALIDATION_REQUIRED without authority, and leaves all others as they are. |
| `Registry.FencedActivations` | src/engine.cpp:108-111 | And marks exactly the activations those point to STALE. |
| `Catalog.RegistersProgram` | src/engine.cpp:188-200 | A registered generation is filed, and the later of it and the current one becomes current; nothing else changes. |
| `Catalog.GreatestIsCurrent` | src/engine.cpp:188-207 | On every run that does not retire p, the greatest registered generation of p is the current one. |
| `Catalog.OldGenerationCannotCommit` | src/engine.cpp:387-391 | Once a later generation of its program is registered, a deployment cannot be committed: STALE_PROGRAM_GENERATION on a ready device. |
| `Catalog.RetiresProgram` | src/engine.cpp:202-207 | No generation of a retired program is current; all else is unchanged. |
| `Catalog.RetiredProgramCommitsNothing` | src/engine.cpp:387-391 | After a program is retired none of its deployments can be committed. |
| `Catalog.RegistersService` | src/engine.cpp:179-186 | When registering a service succeeds, each error, and the table it leaves. |
| `Catalog.RegistersWorker` | src/engine.cpp:210-222 | A worker is known under one boot at a time; each error; no other worker changes. |
| `Catalog.Heartbeats` | src/engine.cpp:224-229 | A heartbeat succeeds exactly for a known worker under its boot, and changes nothing. |
| `Catalog.EpochAdvances` | src/engine.cpp:515-519 | The epoch grows by one below saturation and not at all there; nothing else changes. |
| `Catalog.NewEpochExpiresTokens` | src/engine.cpp:515-519 | Below saturation no token captured before the call is current in any context of any state on any continuation. |
| `Catalog.CurrentExactly` | include/dpufabric/deployment.h:47-60 | A token is current if and only if all eleven components agree with the context. |
| `Catalog.CommitCaptures` | src/engine.cpp:399-417 | Each component of the token that a commit captures. |
| `Catalog.TokensNameTheirDevice` | src/engine.cpp:403 | On every run each captured token names the device its deployment is bound to. |
| `Endings.Cancels` | src/engine.cpp:424-440 | When cancelling succeeds, each error, and the whole state it leaves: deployment, activation, account and usage. |
| `Endings.RollsBack` | src/engine.cpp:442-458 | The same for rolling back. |
| `Endings.Drains` | src/engine.cpp:460-474 | The same for draining, which keeps the resources. |
| `Endings.Retires` | src/engine.cpp:476-495 | The same for retiring, which gives back only what failing or aborting has not. |
| `Endings.Fails` | src/engine.cpp:497-512 | The same for failing. |
| `Endings.Transits` | src/engine.cpp:268-276 | The same for staging, loading and validating. |
| `Endings.Activates` | src/engine.cpp:359-375 | The same for activating: a new PENDING activation of the next generation under the next id. |
| `Endings.AbandonedEnds` | src/engine.cpp:432-438 | What the shared ending leaves, dimension by dimension. |
| `Endings.CommitThrows` | src/engine.cpp:377-414 | The errors of a commit, in the order in which they are checked. |
| `Endings.ReserveThrows` | src/engine.cpp:307-345 | The errors of a reservation, in the order in which they are checked, and the ids a refusal uses up. |
| `Endings.ReserveEnters` | src/engine.cpp:321-352 | Every field of the deployment that a granted reservation enters. |
| `Endings.TransitionsAre` | include/dpufabric/deployment.h:130-163 | The deployment transition table, listed edge by edge. |
| `Endings.CancelUndoesReserve` | src/engine.cpp:424-440 | Reserving and cancelling restores every ledger if and only if no counter wrapped. |
| `Reasons.ReasonsExactly` | src/eligibility.cpp:176-280 | Each rejection reason is given if and only if its own condition holds, stated without the evaluation's checks. |
| `Eligibility.IsolatesExactly` | include/dpufabric/isolation.h:29-51 | What each isolation level asks: no other tenant on a dedicated device, and on every other level but NONE proven isolation, a verified mode for a security domain, and agreeing domains and tenants for the rest. |
| `Eligibility.HealthExactly` | src/eligibility.cpp:17-27 | The health limit, on the codes: HEALTHY, WARN, DEGRADED, FAILED, then everything else. |
| `Eligibility.LocalityExactly` | src/eligibility.cpp:29-40 | The locality limit, on the codes: from the same device down to unknown. |
| `Eligibility.PressureExactly` | src/eligibility.cpp:55-60 | The queue limit without fractions: used queues times 100 against the limit times capacity. |
| `Headroom.HeadroomAtLeast` | src/eligibility.cpp:69-82 | The headroom limit without fractions: every bounded dimension has that share left. |
| `Eligibility.ServiceFirst` | src/eligibility.cpp:159-163 | A registered service takes precedence in program and resources. |
| `Eligibility.CurrentProgramIs` | src/eligibility.cpp:84-90 | The wanted program is taken in its current generation, or not at all. |
| `Eligibility.RequiredCapsAre` | src/eligibility.cpp:106-114 | The required capabilities are those of request, service (optional ones included) and program, and no others. |
| `Scoring.TotalIs` | src/eligibility.cpp:284-317 | What a total is made of, factor by factor. |
| `Scoring.WeightIs` | include/dpufabric/policy.h:81-84 | A factor's weight is that of its first entry; without one 0, and 1 for the tie-break. |
| `Scoring.WarmExactly` | src/eligibility.cpp:284-288 | Warm means an ACTIVE deployment on the device, of the service if one is known. |
| `Formats.FrameLayout` | include/dpufabric/protocol.h:66-76 | The bytes of a frame, position by position. |
| `Formats.FileLayout` | src/persistence.cpp:423-437 | The bytes of a state file, position by position. |
| `Store.OpenedIsContainer` | src/persistence.cpp:464-495 | Whatever opens is byte for byte the container of its payload: nothing missing, damaged or left over. |
| `Store.OpenRefuses` | src/persistence.cpp:464-475 | What is too long, too short or begins with other bytes is refused as CORRUPT_STATE. |
| `Frame.Refuses` | include/dpufabric/protocol.h:87-89 | A buffer shorter than the header or longer than the bound is refused with its own error, and no other errors than three occur. |
| `Frame.RefusesForeign` | include/dpufabric/protocol.h:90-93 | A frame with another magic or version is a PROTOCOL_ERROR whatever else it holds. |
| `Persistence.NothingLeftOver` | src/persistence.cpp:554 | A payload is read to its end: with anything behind it, it is refused with PROTOCOL_ERROR. |
| `RecordFormat.CountRefused` | src/persistence.cpp:196-206 | A count over its bound is CORRUPT_STATE. |
| `RecordFormat.CodeRefused` | src/persistence.cpp:24-45 | An enumerator or checked code is read if and only if it is in range, and is CORRUPT_STATE otherwise. |
| `RecordFormat.TextRefused` | include/dpufabric/wire.h:91-98 | A string over the bound and a key that is no key are INVALID_ARGUMENT; missing bytes are PROTOCOL_ERROR. |
| `RecordFormat.KeysAre` | include/dpufabric/capability.h:41-49 | Keys are 1 to 64 letters, digits, underscores and hyphens. |
| `Formats.EightBytes` | include/dpufabric/wire.h:27 | A 64-bit number is stored low byte first. |
| `Formats.DigitsAre` | include/dpufabric/id.h:121-137 | What each hexadecimal digit stands for, in either case. |
| `RecordFormat.Codes` | src/persistence.cpp:61-340 | Every enumerator is stored as the number the source gives it. |
| `RecordFormat.IdentityFormat` | src/persistence.cpp:140-146 | The stored identity fields, in order. |
| `RecordFormat.SoftwareFormat` | src/persistence.cpp:147-149 | The stored software fields, in order. |
| `RecordFormat.CapacityFormat` | src/persistence.cpp:150-151 | The stored capacity fields, in order. |
| `RecordFormat.FeaturesFormat` | src/persistence.cpp:152-166 | The stored feature fields, in order. |
| `RecordFormat.DeviceIsolationFormat` | src/persistence.cpp:167-170 | The stored isolation fields of a device, in order. |
| `RecordFormat.StatusFormat` | src/persistence.cpp:171-179 | The stored status fields, in order. |
| `RecordFormat.CapabilityFormat` | src/persistence.cpp:61-72 | The stored capability fields, in order. |
| `RecordFormat.RequirementFormat` | src/persistence.cpp:89-93 | The stored requirement fields, in order. |
| `RecordFormat.IsolationFormat` | src/persistence.cpp:120-127 | The stored isolation fields of a service, in order. |
| `RecordFormat.ResourcesFormat` | src/persistence.cpp:102-104 | The stored resource fields, in order. |
| `RecordFormat.ServiceFormat` | src/persistence.cpp:228-250 | The stored service fields, in order. |
| `RecordFormat.ProgramFormat` | src/persistence.cpp:278-293 | The stored program fields, in order. |
| `RecordFormat.BindingFormat` | src/persistence.cpp:314-328 | What a deployment is bound to, in order. |
| `RecordFormat.DeploymentFormat` | src/persistence.cpp:329-339 | The other stored deployment fields, in order. |
| `RecordFormat.PolicyFormat` | src/persistence.cpp:377-387 | The stored policy fields, in order. |
| `RecordFormat.WeightFormat` | src/persistence.cpp:388-391 | A stored weight. |
| `Crc32.GapSurvives` | include/dpufabric/wire.h:132-142 | Once the registers of two runs differ, no equal suffix can make them agree again. |
| `Crc32.ShiftLinear` | include/dpufabric/wire.h:136-139 | One shift step distributes over exclusive or. |
| `Crc32.ShiftKernel` | include/dpufabric/wire.h:136-139 | Only the zero register shifts to zero. |
| `Frame.DecodeEncoded` | include/dpufabric/protocol.h:66-109 | Decoding an encoded frame gives back its type and payload, for every payload up to the bound and every type number. |
| `Frame.EncodeDecoded` | include/dpufabric/protocol.h:87-109 | Whatever decodes is byte for byte the encoding of its type and payload. |
| `Frame.SubtractionExact` | include/dpufabric/protocol.h:98 | The unsigned `remaining() - 4` never wraps: an accepted header is followed by the whole payload. |
| `Frame.DamagedPayloadRejected` | include/dpufabric/protocol.h:102 | A payload damaged inside four consecutive bytes decodes to CHECKSUM_FAILURE. |
| `Store.OpenWritten` | src/persistence.cpp:424-495 | Opening a written container gives back its payload. |
| `Store.DamageDetected` | src/persistence.cpp:494-495 | A state file whose payload is damaged inside four consecutive bytes is rejected with CHECKSUM_FAILURE. |
| `Ids.DecodesExactly` | include/dpufabric/id.h:129-155 | Exactly the strings of 1 to 16 hex digits (either case) denoting a value the tag admits decode, and to their positional value. |
| `Ids.RoundTrip` | include/dpufabric/id.h:121-155 | Every admitted identity survives encoding and decoding. |
| `Ids.GuardExact` | include/dpufabric/id.h:139 | The overflow guard fires exactly when the next step would exceed 64 bits. |
| `Ids.SixteenDigitsFit` | include/dpufabric/id.h:130-141 | At most sixteen digits never overflow, so the guard never decides. |
| `Headroom.DimensionFloor` | include/dpufabric/resource.h:54-58 | In one dimension the integer percentage is the floor of the exact one if and only if (left * 100) fits 64 bits. |
| `Headroom.LedgerFloor` | include/dpufabric/resource.h:52-65 | The ledger's headroom is never above the exact one, and is its floor if and only if some dimension that decides it has not wrapped. |
| `Headroom.SameVerdict` | src/eligibility.cpp:258-260 | For capacities up to (2^64 - 1) / 100 the integer and the exact headroom give the same verdict against every integer threshold. |
| `Headroom.WrappedHeadroomWitness` | include/dpufabric/resource.h:57 | Above that bound an untouched capacity of 2^63 reports headroom 0. |
| `Resource.AdmitsExactly` | include/dpufabric/resource.h:67-74 | The admission test holds if and only if every bounded dimension stays within capacity after a wrapping addition. |
| `Resource.ReservationStaysWithin` | include/dpufabric/resource.h:67-74 | An admitted reservation leaves every bounded dimension within capacity even when a sum wraps. |
| `Resource.ReleaseStaysWithin` | include/dpufabric/resource.h:121-130 | A release keeps every bounded dimension within capacity. |
| `Resource.RollbackRestores` | include/dpufabric/resource.h:91-130 | Dropping an uncommitted reservation restores the ledger if and only if no counter wrapped when it was taken. |
| `Eligibility.PassesExactly` | src/eligibility.cpp:169-283 | A device passes the hard filter if and only if it suits the request in placement, software, isolation, capabilities and load, each stated without the rejection list. |
| `Eligibility.PassingMeans` | src/eligibility.cpp:181-283 | Only a ready device with room for the request passes. |
| `Eligibility.CapabilitiesPass` | src/eligibility.cpp:219-234 | The capability loop rejects nothing if and only if every non-optional requirement is supported in the version asked for. |
| `Eligibility.SelectionUnique` | src/eligibility.cpp:323-329 | A snapshot and a request determine the selected device. |
| `Scoring.FactorsNormalized` | include/dpufabric/eligibility.h:101-106 | Each candidate is scored on the twelve factors in their fixed order, and every normalized value is in [0, 1]. |
| `Scoring.LoadNeverRanksHigher` | src/eligibility.cpp:284-318 | With non-negative weights for headroom, queue pressure and load, more usage of a device never raises its total. |
| `Scoring.LoadNeverAdmits` | src/eligibility.cpp:257-283 | A device that passes with more usage passes with less if and only if the admission test does, which it does whenever no sum wraps. |
| `Scoring.WrappedAdmissionWitness` | src/eligibility.cpp:92-99 | Without that condition it fails: a wrapped sum admits a request that an emptier device refuses. |
| `Engine.DPUFabricEngine.constructor` | src/engine.cpp:10-15 | A new engine has empty tables, the given epoch and policy, and id counter 1. |
| `Engine.DPUFabricEngine.RebuildSnapshot` | src/engine.cpp:27-29 | The published snapshot is the copy of the live tables; nothing else changes. |
| `Engine.DPUFabricEngine.NextId` | include/dpufabric/engine.h:118 | Returns the counter and advances it modulo 2^64. |
| `Engine.DPUFabricEngine.RegisterDevice` | src/engine.cpp:65-80 | New table state and result: refused for a null or known id, otherwise device, order, empty ledger and zero usage are entered together. What that state is: `Registry.Registers`. |
| `Engine.DPUFabricEngine.UpdateDevice` | src/engine.cpp:82-94 | Refused for a null or unknown id or a conflicting PCI reference; otherwise the record is replaced, ledger untouched. What that state is: `Registry.Updates`. |
| `Engine.DPUFabricEngine.RetireDevice` | src/engine.cpp:96-118 | Refused when unknown; otherwise every deployment in service or draining on it is fenced, made stale and released, and the device is RETIRED without evidence. What that state is: `Registry.RetireLeaves`. |
| `Engine.DPUFabricEngine.TransitionDevice` | src/engine.cpp:120-144 | Refused when unknown or not in the device table; fences in-service deployments only for the three invalidating targets. What that state is: `Registry.TransitionLeaves`. |
| `Engine.DPUFabricEngine.SetDeviceState` | src/engine.cpp:146-152 | Rewrites one capability's state if the device has it. What that state is: `Registry.CapabilitySet`. |
| `Engine.DPUFabricEngine.FenceDevice` | src/engine.cpp:154-176 | Evidence is gone, the lifecycle is REVALIDATION_REQUIRED unless terminal, every in-service deployment on it is fenced. What that state is: `Registry.FenceLeaves`. |
| `Engine.DPUFabricEngine.FenceDeployments` | src/engine.cpp:165-174 | The fencing loop rewrites exactly the deployments its rule hits, together with their activations. What that state is: `Registry.FencedDeployments`. |
| `Engine.DPUFabricEngine.FenceDeployment` | src/engine.cpp:166-173 | One fenced deployment: state, authority, activation and, where the rule says so, its resources. |
| `Engine.DPUFabricEngine.MarkActivation` | src/engine.cpp:170-172 | Only the named activation, if it exists, changes state. |
| `Engine.DPUFabricEngine.Release` | src/engine.cpp:278-287 | The ledger is released all-or-nothing and the usage mirror rewritten. |
| `Engine.DPUFabricEngine.RegisterService` | src/engine.cpp:179-186 | Refused for a null or known id; otherwise entered under its id. What that state is: `Catalog.RegistersService`. |
| `Engine.DPUFabricEngine.RegisterProgram` | src/engine.cpp:188-200 | Refused for null ids; otherwise stored by generation, and current if it is the first or a later generation. What that state is: `Catalog.RegistersProgram`. |
| `Engine.DPUFabricEngine.RetireProgram` | src/engine.cpp:202-207 | Refused when unknown; otherwise no generation is current. What that state is: `Catalog.RetiresProgram`. |
| `Engine.DPUFabricEngine.RegisterWorker` | src/engine.cpp:210-222 | Idempotent for the same boot, STALE_WORKER for another, refused for null ids. What that state is: `Catalog.RegistersWorker`. |
| `Engine.DPUFabricEngine.WorkerHeartbeat` | src/engine.cpp:224-229 | Succeeds exactly for a known worker under its boot, and changes nothing. What that state is: `Catalog.Heartbeats`. |
| `Engine.DPUFabricEngine.LoseDevices` | src/engine.cpp:234-240 | Exactly the non-retired devices of the worker lose evidence and readiness. What that state is: `Registry.LossLeaves`. |
| `Engine.DPUFabricEngine.MarkWorkerLost` | src/engine.cpp:231-260 | Devices of the worker are fenced, deployments by worker boot, and the worker is forgotten. What that state is: `Registry.LossLeaves`. |
| `Engine.DPUFabricEngine.EvaluateRequest` | src/engine.cpp:263-265 | Refused exactly on out-of-range limits; otherwise the evaluation of the published snapshot, which is the one of the live tables. |
| `Engine.DPUFabricEngine.PlanDeployment` | src/engine.cpp:289-305 | Refused exactly on out-of-range limits; planned exactly when a device is selected or host fallback is allowed, and names the selected device, or the null one. |
| `Engine.DPUFabricEngine.ReserveDeployment` | src/engine.cpp:307-353 | For an arbitrary evaluation result: error order, consumed ids, ledger, mirror and the new deployment. What that state is: `Endings.ReserveThrows`. |
| `Engine.DPUFabricEngine.Charge` | src/engine.cpp:343-350 | The account that admits the request is charged, the mirror follows, the deployment is entered. |
| `Engine.DPUFabricEngine.DeployTransition` | src/engine.cpp:268-276 | Moves along the transition table or refuses, unknown ids included. What that state is: `Endings.Transits`. |
| `Engine.DPUFabricEngine.StageDeployment` | src/engine.cpp:355 | Moves to STAGING or refuses. |
| `Engine.DPUFabricEngine.LoadDeployment` | src/engine.cpp:356 | Moves to LOADED or refuses. |
| `Engine.DPUFabricEngine.ValidateDeployment` | src/engine.cpp:357 | Moves to VALIDATING or refuses. |
| `Engine.DPUFabricEngine.ActivateDeployment` | src/engine.cpp:359-375 | Moves to ACTIVATING and points to a new PENDING activation of the next generation. What that state is: `Endings.Activates`. |
| `Engine.DPUFabricEngine.CommitDeployment` | src/engine.cpp:377-422 | Captures the token and puts deployment and activation into service, or refuses in the source's order of checks. What that state is: `Endings.CommitThrows`. |
| `Engine.DPUFabricEngine.Abandon` | src/engine.cpp:432-438 | The shared ending: release, then state, authority and activation mark. What that state is: `Endings.AbandonedEnds`. |
| `Engine.DPUFabricEngine.CancelDeployment` | src/engine.cpp:424-440 | Only before service; released, aborted, activation CANCELLED. What that state is: `Endings.Cancels`. |
| `Engine.DPUFabricEngine.RollbackDeployment` | src/engine.cpp:442-458 | As cancel, and also from FAILED. What that state is: `Endings.RollsBack`. |
| `Engine.DPUFabricEngine.DrainDeployment` | src/engine.cpp:460-474 | Only in service or fenced; DRAINING with its activation, resources kept. What that state is: `Endings.Drains`. |
| `Engine.DPUFabricEngine.RetireDeployment` | src/engine.cpp:476-495 | Releases only what was in service, draining or fenced; RETIRED. What that state is: `Endings.Retires`. |
| `Engine.DPUFabricEngine.FailDeployment` | src/engine.cpp:497-512 | Where the table allows FAILED: released, activation STALE. What that state is: `Endings.Fails`. |
| `Engine.DPUFabricEngine.AdvanceEpoch` | src/engine.cpp:515-519 | The epoch moves to the next generation, saturating. What that state is: `Catalog.EpochAdvances`. |
| `Engine.DPUFabricEngine.RecoverDevices` | src/engine.cpp:523-534 | Every non-retired device loses evidence; readiness and, if asked, supported capabilities need revalidation. What that state is: `Registry.RecoveryLeaves`. |
| `Engine.DPUFabricEngine.RevalidateCapabilities` | src/engine.cpp:528-533 | Exactly the SUPPORTED capabilities become REVALIDATION_REQUIRED. |
| `Engine.DPUFabricEngine.ApplyRecovery` | src/engine.cpp:521-546 | Devices as above, and all in-service deployments fenced. What that state is: `Registry.RecoveryLeaves`. |
| `Engine.DPUFabricEngine.Persist` | src/engine.cpp:549-553 | Refused if and only if a string to be written is too long; otherwise the bytes are the container of the snapshot's payload. A snapshot within the format's bounds is always saved. |
| `Engine.DPUFabricEngine.OpenAccounts` | src/engine.cpp:564-567 | Recovered devices without a ledger get one; every usage is zeroed. |
| `Engine.DPUFabricEngine.RecoverFrom` | src/engine.cpp:555-572 | Missing file: false and no change; bad file: error; otherwise loaded tables, next epoch and opened accounts. What that state is: `Recovery.RecoveryAdopts`. |
| `Resource.ResourceLedger.constructor` | include/dpufabric/resource.h:34 | An empty account over the capacity. |
| `Resource.ResourceLedger.CanReserve` | include/dpufabric/resource.h:67-74 | True if and only if every dimension is unbounded or stays within capacity after a wrapping addition. |
| `Resource.ResourceLedger.Apply` | include/dpufabric/resource.h:114-120 | Every counter is incremented modulo 2^64. |
| `Resource.ResourceLedger.Release` | include/dpufabric/resource.h:121-130 | All counters go down, or none when one would underflow. |
| `Resource.ResourceLedger.TryReserve` | include/dpufabric/resource.h:104-107 | Refused without change, or applied and handed out uncommitted. |
| `Resource.ScopedReservation.constructor` | include/dpufabric/resource.h:79-82 | Applies the request and is uncommitted. |
| `Resource.ScopedReservation.Commit` | include/dpufabric/resource.h:94 | Keeps the reservation. |
| `Resource.ScopedReservation.Destroy` | include/dpufabric/resource.h:91-93 | Releases exactly an applied, uncommitted reservation. |
| `Resource.ReserveAndAbandon` | include/dpufabric/resource.h:76-107 | Reserving and dropping leaves the ledger as it was, unless a counter wrapped. |
| `Fencing.ReserveEffect` | src/engine.cpp:307-353 | A reservation in closed form: what success requires and every field it writes; a refusal consumes no ids or exactly two. |
| `Base.NextGeneration` | include/dpufabric/id.h:196-198 | The next generation is strictly larger, except that the largest one stays. |
| `Evaluation.Evaluate` | src/eligibility.cpp:152-358 | Fails exactly on out-of-range limits; otherwise the result carries every candidate's report, and its selection is the unique best passing device, first in `device_order` among ties, or none when nobody passes. |
| `Evaluation.CollectReports` | src/eligibility.cpp:169-319 | One report per registered device in order, and the passing ones among them. |
| `Evaluation.ExamineDevice` | src/eligibility.cpp:170-318 | A report passes exactly when the hard filter does. |
| `Evaluation.CollectRejections` | src/eligibility.cpp:176-280 | The rejection reasons of one candidate in the source's order. |
| `Evaluation.CheckCapabilities` | src/eligibility.cpp:219-234 | The rejection reasons of the required capabilities, one pass. |
| `Evaluation.CheckPolicy` | src/eligibility.cpp:235-238 | The rejection reasons of the policy's hard capabilities. |
| `Evaluation.CollectScores` | src/eligibility.cpp:284-311 | The twelve factor scores and their order. |
| `Evaluation.FindWarm` | src/eligibility.cpp:284-288 | True exactly when an ACTIVE deployment of the service runs on the device. |
| `Evaluation.StableSort` | src/eligibility.cpp:324-327 | The result is ranked (by total, then registration order) and a permutation of the input. |
| `Evaluation.InsertRanked` | src/eligibility.cpp:324-327 | Inserting keeps the ranking and adds exactly one report. |
| `Evaluation.FrontIsSelected` | src/eligibility.cpp:323-329 | The front of any ranked permutation of the passing reports is the selected device. |
| `Evaluation.ExecutionExactly` | src/eligibility.cpp:330-336 | Which execution class a device class gives: the three offload kinds their own, everything else the host. |
| `Evaluation.NobodyPassed` | src/eligibility.cpp:320-358 | No passing report means no device can be selected. |
| `Wire.Writer.U8` | include/dpufabric/wire.h:24 | Appends the little-endian bytes of the value and nothing else. |
| `Wire.Writer.U16` | include/dpufabric/wire.h:25 | Appends the little-endian bytes of the value and nothing else. |
| `Wire.Writer.U32` | include/dpufabric/wire.h:26 | Appends the little-endian bytes of the value and nothing else. |
| `Wire.Writer.U64` | include/dpufabric/wire.h:27 | Appends the little-endian bytes of the value and nothing else. |
| `Wire.Writer.Raw` | include/dpufabric/wire.h:30 | Appends the bytes. |
| `Wire.Writer.String` | include/dpufabric/wire.h:34-38 | Accepts exactly strings up to the bound; appends length and bytes, or nothing. |
| `Wire.Reader.Require` | include/dpufabric/wire.h:122-124 | Fails exactly when fewer bytes are left. |
| `Wire.Reader.U8` | include/dpufabric/wire.h:64-67 | Advances by the width and returns the value the bytes encode, or fails short. |
| `Wire.Reader.U16` | include/dpufabric/wire.h:68-73 | Advances by the width and returns the value the bytes encode, or fails short. |
| `Wire.Reader.U32` | include/dpufabric/wire.h:74-82 | Advances by the width and returns the value the bytes encode, or fails short. |
| `Wire.Reader.U64` | include/dpufabric/wire.h:83-86 | Advances by the width and returns the value the bytes encode, or fails short. |
| `Wire.Reader.String` | include/dpufabric/wire.h:91-98 | Length, bound, then bytes; otherwise the source's error. |
| `Wire.Reader.Blob` | include/dpufabric/wire.h:99-107 | As string, with the blob bound. |
| `Wire.Reader.Raw` | include/dpufabric/wire.h:109-114 | Exactly the next bytes. |
| `Wire.Reader.ExpectEnd` | include/dpufabric/wire.h:117-119 | Fails exactly when bytes are left. |
| `Wire.PutU8` | include/dpufabric/wire.h:24 | Round trip of a byte before any tail. |
| `Wire.PutU16` | include/dpufabric/wire.h:25 | Round trip before any tail. |
| `Wire.PutU32` | include/dpufabric/wire.h:26 | Round trip before any tail. |
| `Wire.PutU64` | include/dpufabric/wire.h:27 | Round trip before any tail. |
| `Wire.PutStr` | include/dpufabric/wire.h:34-38 | Strings within the bound read back as strings and as blobs, before any tail. |
| `Wire.U16Canonical` | include/dpufabric/wire.h:68-73 | Whatever reads as a 16-bit number is its encoding. |
| `Wire.U32Canonical` | include/dpufabric/wire.h:74-82 | Whatever reads as a 32-bit number is its encoding. |
| `Crc32.FeedByte` | include/dpufabric/wire.h:134-140 | Eight shifts of the register after the byte is mixed in. |
| `Crc32.Compute` | include/dpufabric/wire.h:132-142 | The checksum of the burst theorem. Which checksum that is: `Reflected.ChecksumExactly`. |
| `Frame.Encode` | include/dpufabric/protocol.h:66-76 | Refuses exactly oversize payloads; otherwise the frame's bytes. |
| `Frame.ReadHeader` | include/dpufabric/protocol.h:90-99 | The header fields, or the error of the first check that fails. |
| `Frame.Decode` | include/dpufabric/protocol.h:87-109 | The frame or error of the decoder specification, for every buffer. |
| `Ids.Encode` | include/dpufabric/id.h:121-127 | Sixteen hex digits denoting the value. |
| `Ids.Decode` | include/dpufabric/id.h:129-145 | The value denoted, with every refusal of the source. |
| `Layout.PutKey` | src/persistence.cpp:61-62 | Valid keys read back. |
| `Layout.CapabilityExact` | src/persistence.cpp:61-87 | A storable capability reads back before any tail. |
| `Layout.RequirementExact` | src/persistence.cpp:89-100 | A requirement with a valid key reads back. |
| `Layout.RequirementsExact` | src/persistence.cpp:232-233 | Counted requirement lists read back. |
| `Layout.PutResources` | src/persistence.cpp:102-109 | Resource records read back. |
| `Layout.PutIsolation` | src/persistence.cpp:120-137 | Isolation records read back. |
| `Layout.PutIdentity` | src/persistence.cpp:140-146 | Identity fields read back. |
| `Layout.PutSoftware` | src/persistence.cpp:147-149 | Firmware, runtime and architecture read back. |
| `Layout.PutCapacity` | src/persistence.cpp:150-151 | Capacity fields read back. |
| `Layout.PutCapabilities` | src/persistence.cpp:156-157 | A capability table read back from its listing is the same table. |
| `Layout.PutFeatures` | src/persistence.cpp:152-166 | Ports, functions, capabilities, classes, models and formats read back. |
| `Layout.PutDeviceIsolation` | src/persistence.cpp:167-170 | Device isolation fields read back. |
| `Layout.PutStatus` | src/persistence.cpp:171-179 | Status fields read back. |
| `Layout.PutDevice` | src/persistence.cpp:139-226 | A device within the format's bounds reads back whole. |
| `Layout.PutService` | src/persistence.cpp:228-276 | A service definition within bounds reads back whole. |
| `Layout.PutProgram` | src/persistence.cpp:278-311 | A program artifact within bounds reads back whole. |
| `Layout.PutGeneration` | src/persistence.cpp:407-410 | A stored generation and its current flag read back. |
| `Layout.PutOptional` | src/persistence.cpp:330-331 | An optional activation id reads back. |
| `Layout.PutBinding` | src/persistence.cpp:314-328 | What a deployment is bound to reads back. |
| `Layout.PutDeployment` | src/persistence.cpp:313-370 | Every deployment reads back whole. |
| `Layout.PutUsage` | src/persistence.cpp:416-419 | A usage entry reads back. |
| `Layout.PutI32` | src/persistence.cpp:390 | A weight reads back if it fits 32 bits. |
| `Layout.PolicyRefused` | src/persistence.cpp:510 | A policy with more than 64 weights is written but refused on reading. |
| `Layout.PutPolicy` | src/persistence.cpp:377-391 | The stored part of a policy reads back; hard capabilities and preferred devices do not. |
| `Counted.ManyExact` | src/persistence.cpp:519-524 | A run of records each of which reads back reads back as a list. |
| `Counted.GetFails` | src/persistence.cpp:519-524 | Reading a list fails with the error of the first record that fails. |
| `Transfer.CheckKey` | include/dpufabric/capability.h:44-51 | True exactly for keys of 1 to 64 admitted characters. |
| `Transfer.WriteCapability` | src/persistence.cpp:61-72 | Appends the record's encoding, the one proved to read back; refused if and only if one of its strings is too long. |
| `Transfer.ReadCapability` | src/persistence.cpp:73-87 | Advances past and returns exactly what the parsing specification finds, or its error. |
| `Transfer.WriteRequirement` | src/persistence.cpp:89-93 | Appends the record's encoding, the one proved to read back; refused if and only if one of its strings is too long. |
| `Transfer.ReadRequirement` | src/persistence.cpp:94-100 | Advances past and returns exactly what the parsing specification finds, or its error. |
| `Transfer.WriteResources` | src/persistence.cpp:102-104 | Appends the record's encoding, the one proved to read back. |
| `Transfer.ReadResources` | src/persistence.cpp:105-109 | Advances past and returns exactly what the parsing specification finds, or its error. |
| `Transfer.WriteIsolation` | src/persistence.cpp:120-127 | Appends the record's encoding, the one proved to read back; refused if and only if one of its strings is too long. |
| `Transfer.ReadIsolation` | src/persistence.cpp:128-137 | Advances past and returns exactly what the parsing specification finds, or its error. |
| `Transfer.WriteIdentity` | src/persistence.cpp:140-146 | Appends the record's encoding, the one proved to read back; refused if and only if one of its strings is too long. |
| `Transfer.ReadIdentity` | src/persistence.cpp:183-190 | Advances past and returns exactly what the parsing specification finds, or its error. |
| `Transfer.WriteSoftware` | src/persistence.cpp:147-149 | Appends the record's encoding, the one proved to read back; refused if and only if one of its strings is too long. |
| `Transfer.ReadSoftware` | src/persistence.cpp:191-193 | Advances past and returns exactly what the parsing specification finds, or its error. |
| `Transfer.WriteCapacity` | src/persistence.cpp:150-151 | Appends the record's encoding, the one proved to read back. |
| `Transfer.ReadCapacity` | src/persistence.cpp:194-195 | Advances past and returns exactly what the parsing specification finds, or its error. |
| `Transfer.WriteCapabilities` | src/persistence.cpp:156-157 | Appends the record's encoding, the one proved to read back; refused if and only if one of its strings is too long. |
| `Transfer.ReadCapabilities` | src/persistence.cpp:200-201 | Advances past and returns exactly what the parsing specification finds, or its error. |
| `Transfer.WriteFeatures` | src/persistence.cpp:152-166 | Appends the record's encoding, the one proved to read back; refused if and only if one of its strings is too long. |
| `Transfer.ReadFeatures` | src/persistence.cpp:196-210 | Advances past and returns exactly what the parsing specification finds, or its error. |
| `Transfer.WriteDeviceIsolation` | src/persistence.cpp:167-170 | Appends the record's encoding, the one proved to read back. |
| `Transfer.ReadDeviceIsolation` | src/persistence.cpp:211-214 | Advances past and returns exactly what the parsing specification finds, or its error. |
| `Transfer.WriteStatus` | src/persistence.cpp:171-179 | Appends the record's encoding, the one proved to read back; refused if and only if one of its strings is too long. |
| `Transfer.ReadStatus` | src/persistence.cpp:215-225 | Advances past and returns exactly what the parsing specification finds, or its error. |
| `Transfer.WriteDevice` | src/persistence.cpp:139-180 | Appends the record's encoding, the one proved to read back; refused if and only if one of its strings is too long. |
| `Transfer.ReadDevice` | src/persistence.cpp:182-226 | Advances past and returns exactly what the parsing specification finds, or its error. |
| `Transfer.WriteService` | src/persistence.cpp:228-250 | Appends the record's encoding, the one proved to read back; refused if and only if one of its strings is too long. |
| `Transfer.ReadService` | src/persistence.cpp:251-276 | Advances past and returns exactly what the parsing specification finds, or its error. |
| `Transfer.WriteProgram` | src/persistence.cpp:278-293 | Appends the record's encoding, the one proved to read back; refused if and only if one of its strings is too long. |
| `Transfer.ReadProgram` | src/persistence.cpp:294-310 | Advances past and returns exactly what the parsing specification finds, or its error. |
| `Transfer.WriteBinding` | src/persistence.cpp:314-328 | Appends the record's encoding, the one proved to read back. |
| `Transfer.ReadBinding` | src/persistence.cpp:343-357 | Advances past and returns exactly what the parsing specification finds, or its error. |
| `Transfer.WriteDeployment` | src/persistence.cpp:313-340 | Appends the record's encoding, the one proved to read back. |
| `Transfer.ReadDeployment` | src/persistence.cpp:341-370 | Advances past and returns exactly what the parsing specification finds, or its error. |
| `Transfer.WritePolicy` | src/persistence.cpp:377-391 | Appends the record's encoding, the one proved to read back. |
| `Transfer.ReadPolicy` | src/persistence.cpp:500-516 | Advances past and returns exactly what the parsing specification finds, or its error. |
| `StateFile.WriteDevices` | src/persistence.cpp:393-399 | The whole table is appended, in iteration order, behind its count; refused if and only if one of its strings is too long. |
| `StateFile.ReadDevices` | src/persistence.cpp:518-524 | The table entered is the one the parsed records give, over what was there. |
| `StateFile.WriteServices` | src/persistence.cpp:400-401 | The whole table is appended, in iteration order, behind its count; refused if and only if one of its strings is too long. |
| `StateFile.ReadServices` | src/persistence.cpp:525-529 | The table entered is the one the parsed records give, over what was there. |
| `StateFile.WritePrograms` | src/persistence.cpp:402-412 | The whole table is appended, in iteration order, behind its count; refused if and only if one of its strings is too long. |
| `StateFile.ReadPrograms` | src/persistence.cpp:530-541 | The table entered is the one the parsed records give, over what was there. |
| `StateFile.WriteDeployments` | src/persistence.cpp:413-414 | The whole table is appended, in iteration order, behind its count. |
| `StateFile.ReadDeployments` | src/persistence.cpp:542-546 | The table entered is the one the parsed records give, over what was there. |
| `StateFile.WriteUsages` | src/persistence.cpp:415-419 | The whole table is appended, in iteration order, behind its count. |
| `StateFile.ReadUsages` | src/persistence.cpp:547-553 | The table entered is the one the parsed records give, over what was there. |
| `StateFile.Save` | src/persistence.cpp:374-437 | Refused, with INVALID_ARGUMENT, if and only if a string to be written is too long; otherwise the container of the snapshot's payload. |
| `StateFile.FenceLoaded` | src/persistence.cpp:557-571 | Evidence, authority and activations are cleared, and in-service states fenced, for all records. Record by record: `Recovery.RestartFence`. |
| `StateFile.Load` | src/persistence.cpp:456-573 | The loaded state or the error of the specification, for every file and every live state. |
| `Store.Enclose` | src/persistence.cpp:424-437 | The container's bytes. |
| `Store.Open` | src/persistence.cpp:464-495 | The payload, or the error of the first check that fails, for every file. |
| `Persistence.DevicesExact` | src/persistence.cpp:393-399 | The device table reads back as the list in `device_order`. |
| `Persistence.ProgramsExact` | src/persistence.cpp:402-412 | The nested program table reads back. |
| `Keys.IndexedListing` | src/persistence.cpp:519-524 | A table whose records carry their keys survives being listed in any order and entered again. |

## Left out

- Authority.SupersededForEver: runs are bounded by `MAX_CALLS`, below which neither ids nor activation generations run out; recovery is not one of the calls of a run, and is treated in `Recovery`.
- Rounding of floating point in the ranking: scores and headroom are exact reals.
- Explanations, notes, free-text reasons, names of enumerators, summaries and `describe`.
- The enumerators END_MARKER, which no record holds; enumerations that evaluation only compares are held as their byte codes.
- `port_owner`, `function_owner`, `worker_seq` and `recovered_`, which no modelled decision reads.
- `ExecutionContext` and `ResourceContext`, which the engine never drives.
- StateFile.Load: on an error the source leaves what it had already read in the live tables (nothing, when the container itself is refused); the model says only which error it is.
- Engine.DPUFabricEngine.RecoverFrom: likewise, on a payload that does not parse the model keeps the state as it was, where the source keeps what it had read.
- The file system: a state file is a sequence of bytes or absent; the temporary file and the rename are not modelled.
- Mutex, atomics and publication of snapshots: each call is one atomic step.
- Discovery backends and `run_all_backends`, the command line, sockets, the coordinator and worker programs, and the codec of `tools/mpproto.h`.
- A checksum seed supplied by the caller; every use in the source takes the default.
- Clocks: `created_ms` and `updated_ms` are stored but never set by the engine.
