# Dockplane, modelled

Dockplane operates Docker hosts through an agent written in Go and a control
server written in TypeScript. This project models the parts in which a mistake is
hardest to see, and proves what they promise for every input, every pattern of
failing calls and every interleaving of steps.

- **Stacks on the agent.** `DockerHost` is a Docker host with a ghost trace of every
  call. A call is refused exactly by a rule of the engine (names are unique, a container is
  only on networks that exist, a running one goes only by force), and any call may fault
  without effect. A watch over the trace says what an
  operation may touch and when: nothing while it surveys, only its own containers
  while it disturbs, and no removal of an old container before it commits. Every
  method of `Docker` keeps that watch, so `Valid()` is a statement about every moment
  of an operation. `StartOrder`, `StackPlans`, `StackPreflight`, `StackStaging`, `StackApply`,
  `StackLifecycle`, `StackRemoval` and `StackHandover` are built on it, and so is
  `ContainerReplace`, the single-container replacement. `Creation` is what Docker is asked to
  build for a specification.
- **Crash recovery on the server.** `Records` holds the rows and the unique indexes,
  `Recovery` the classifier and the transactional finalizer, `Discovery` the pass over a
  host's report, `LabelRoundTrip` what it reads from the labels the agent wrote,
  `Reconciliation` the three together compared with the host itself, and
  `Operations` the requests, locks, lost answers and crashes as a state machine.
  `RecoveryRuns` puts them in any order and shows what the comparison rests on.
- **Replay cache.** `ReplayCache` shows a list and a map changed in place to answer as
  one sentence about the history of observations does.
- **Dispatch and logs.** `Dispatch` shows that what callers are told about requests and
  streams is accepted by two small automata; `Logs` accounts for every log line from the
  container to the caller; `Framing` shows messages do not depend on buffer boundaries.
- **Two validators.** `AgentSpec` and `ServerSpec` show that whatever the server's schema
  accepts becomes a specification the agent accepts, over any history of edits.

`Text` and `Wrappers` hold sorted names and an optional value.

## Results that needed a condition

Some statements one would like to make are not true of the code as it is. Each is
proved with the exact condition under which it holds.

- After a complete pass a finalised decision makes the database agree with the host,
  except in two cases (`Reconciliation.FinalisedAgrees`, for every life of the database
  `RecoveryRuns.EveryOperationSettlesTruly`). A removal finalised for a row
  that was already gone when the pass began says nothing about a container that still
  names it (`RecoveryRuns.RemovalMayMissAContainer`). A removal recorded as failed leaves a pending
  candidate pending even when that candidate is what runs
  (`RecoveryRuns.FailedRemovalMayLeaveACandidate`).
- A promotion leaves its container with a current configuration exactly when the
  candidate belongs to that container (`Recovery.PromotionSettles`). The decision is
  always made about the container's own configuration and configurations never move, so
  this is met however old the decision is (`Recovery.DecisionsKeepFitting`,
  `Reconciliation.DecisionFits`).
- The guard is asked before the lock is taken, so two operations on one container can both
  end up open (`Operations.BothMayBeOpen`). While one is unresolved, requests can write
  another one down if and only if a request is already past the guard and its record would
  not be refused (`Operations.AnotherOneIffWaiting`).
- After an applied outcome the revision can be operated exactly when no container of the
  stack is left but those reported (`StackHandover.AppliedThenOperated`): a closing removal
  that is not done is not reported by the apply but makes the revision unresolvable
  (`StackHandover.ApplyThenFind`).
- An attempt that fails after everything was moved aside comes back as found, with no call
  faulting, if and only if the host can be restored: no container of the stack is called
  what the container of a later service is moved to (`StackStaging.Restorable`, in the
  contract of `StackApply.ApplyStack`). `StackApply.NameGivenUp` is a host that passes every
  check and cannot be. If the failure comes while containers are still being moved, the same
  holds with what had been renamed by then (`StackStaging.Displace`).
- On a database that works a discovery pass completes its writing if and only if no reported
  container is stuck: its identity cannot be read, or another row has its Docker container
  (`Discovery.Stuck`, in the contract of `Discovery.Discoverer.ApplyContainers`).
- A replacement that fails leaves the original as it was found if and only if the original
  held the specification's name or was never renamed. An original that itself holds one of
  the two temporary names is never replaced, and is gone exactly if it was cleared away for
  holding it (`ContainerReplace.Replace`).

## Model

| member | source | states |
|---|---|---|
| `StartOrder.OrderByDependencies` | agent/internal/docker/stack.go:251-297 | An order comes back exactly when no set of services each needs a member of that set; it is a permutation with every dependency first; on failure the remainder is such a set |
| `StartOrder.LevelOrderUnique` | agent/internal/docker/stack.go:251-297 | There is only one order the algorithm can return, whatever sequence the map is iterated in |
| `StartOrder.LevelOrderStarts` | agent/internal/docker/stack.go:251-297 | Taking the ready services level by level puts each service once and after what it waits for |
| `StartOrder.KnotHasNoOrder` | agent/internal/docker/stack.go:272-286 | A set of services each waiting for another of the set rules out every level order |
| `StartOrder.CollectReady` | agent/internal/docker/stack.go:255-270 | One sweep over the pending map finds exactly the services that wait for nothing pending |
| `StartOrder.Reversed` | agent/internal/docker/stack_lifecycle.go:532-540 | The array holds the order backwards, index by index |
| `Text.SortStrings` | agent/internal/docker/stack.go:288-289 | Names that do not repeat come back sorted, the same names and no others |
| `StackPlans.ValidateStackPlan` | agent/internal/docker/stack.go:132-224 | Accepts exactly the plans with identifiers, distinct named services, acceptable specifications and dependencies inside the plan |
| `StackPlans.ValidateLifecyclePlan` | agent/internal/docker/stack_lifecycle.go:126-184 | Accepts exactly the plans whose services are named, identified, distinct and closed under dependencies |
| `StackPlans.CheckDependencies` | agent/internal/docker/stack.go:205-221 | Accepts exactly when every dependency names a service of the plan |
| `StackPlans.ServiceLabelsCarry` | agent/internal/docker/stack.go:300-308 | The labels written at creation are the ones a later operation looks for, no configuration label remains, and the user's own labels are all kept |
| `Creation.BuildConfig` | agent/internal/docker/manage.go:365-424 | The configuration Docker is given says what the specification says, field by field, and nothing else |
| `Creation.SortedEnv` | agent/internal/docker/spec.go:376-386 | Every variable is rendered, nothing else is, and the order does not depend on how they were given |
| `Creation.PortConfiguration` | agent/internal/docker/manage.go:426-452 | Exactly the named ports are exposed, and each is published on exactly its addresses in order |
| `Creation.MountConfiguration` | agent/internal/docker/manage.go:454-473 | Mounts one for one; what is not a bind is a volume |
| `Creation.SameConfigIffSameBuild` | agent/internal/docker/spec.go:374-386 | Two accepted specifications give one configuration if and only if they ask for the same container, whatever order their environments are in |
| `Creation.VolumesAreMounted` | agent/internal/docker/manage.go:454-473 | The volumes mounted are exactly the sources of the volume mounts |
| `DockerHost.Docker.ContainerCreate` | agent/internal/docker/manage.go:365-424 | A name in use is refused; a created container is new, stopped, carries the given labels and mounts the volumes of its configuration; nothing else changes |
| `DockerHost.Docker.ContainerRename` | agent/internal/docker/stack_apply.go:665-667 | Refused for a name in use, otherwise only the name changes |
| `DockerHost.Docker.NetworkConnect` | agent/internal/docker/stack_apply.go:763-767 | A container already on the network is reported as such and left alone |
| `DockerHost.Docker.ContainerRemove` | agent/internal/docker/stack_remove.go:161-164 | A running container goes only by force, volumes stay, and only containers the operation may remove can be asked for |
| `DockerHost.Docker.BackAsFound` | agent/internal/docker/stack_apply.go:711-750 | With nothing made left and every touched container as it was, the containers on the host are those found |
| `StackPreflight.StackCandidates` | agent/internal/docker/stack_apply.go:257-334 | The candidates are exactly the stack's containers as they are; a refusal names a real objection, and an engine failure a call that was not done |
| `StackPreflight.CheckNamesAreFree` | agent/internal/docker/stack_apply.go:364-456 | Passes only when no foreign container, network or volume holds a name the plan needs; a conflict means one does, and an engine failure that a call was not done |
| `StackPreflight.CheckVolumesArePresent` | agent/internal/docker/stack_apply.go:470-531 | Passes only when every volume a candidate mounts still exists |
| `StackPreflight.EnsureNetworks` | agent/internal/docker/stack_apply.go:534-576 | The list is exactly what was created, each once; on success every network of the plan is there and says it is this stack's; a failure means a call was not done |
| `StackPreflight.RemoveNetworks` | agent/internal/docker/stack_apply.go:585-589 | With no fault the host is what it was before the networks were made: none of them is in use |
| `StackPreflight.EnsureVolumes` | agent/internal/docker/stack_apply.go:598-634 | On success every volume is there and the stack's; none that was there is changed, and a new one is a volume of the plan labelled as the one it is |
| `StackPreflight.Provide` | agent/internal/docker/stack_apply.go:160-181 | Images, networks and volumes are there; or a call had failed by a moment from which on, unless one more faults, the networks made here go again; an image is blamed exactly when one is missing |
| `StackPreflight.Preflight` | agent/internal/docker/stack_apply.go:146-181 | No container changes; on success every check passed and everything the plan needs is there; failing means an objection, or a call that was not done, after which the networks made are gone unless another call faults |
| `StackStaging.StageOne` | agent/internal/docker/stack_apply.go:654-676 | Stop, rename, disconnect, never moved while running: however far it gets, the record still says how to put the container back, and the name taken was free |
| `StackStaging.StageAside` | agent/internal/docker/stack_apply.go:648-679 | Every candidate stays in hand, the ones not reached are unchanged, and no name was taken that one still to be moved held; without a failure all are stopped, renamed and on no network |
| `StackStaging.StagedNamesDiffer` | agent/internal/docker/stack_apply.go:688-696 | Two services of one attempt are never moved to one name |
| `StackStaging.StagedNameTells` | agent/internal/docker/stack_apply.go:684-696 | A staged name says which revision was being applied, and to which service |
| `StackStaging.RestoreOne` | agent/internal/docker/stack_apply.go:760-783 | With its calls done the container is exactly the one found, and it is started last; with no fault it is hindered only by somebody holding its name, and then stays under its staged name |
| `StackStaging.Restore` | agent/internal/docker/stack_apply.go:753-786 | Each candidate comes back if the calls about it were done, whatever became of the others; with no fault all come back unless one further on holds the name of an earlier one, and then that one never does |
| `StackStaging.BlockedIffUnrestorable` | agent/internal/docker/stack_apply.go:648-696 | Who stands in whose way once everything is moved is decided by the host and the plan beforehand |
| `StackStaging.BlockedIffCrossed` | agent/internal/docker/stack_apply.go:648-679 | The records and the host agree on whether a container holds a name another one had |
| `StackStaging.Displace` | agent/internal/docker/stack_apply.go:183-188 | Everything moved aside and stopped; or a staging call had failed and from that moment on everything is put back: with no fault exactly when no container holds the name another one had |
| `StackApply.StartService` | agent/internal/docker/stack_apply.go:789-850 | No error means a new running container with the plan's name, labels, networks and volumes, built as its specification says; it never runs before it is on its networks; the error says whether the name was held, a call was not done or the container went down; at most that container was added |
| `StackApply.AttachService` | agent/internal/docker/stack_apply.go:860-876 | Succeeds exactly when every call is done, and then the container is on every network under its service name |
| `StackApply.StartServices` | agent/internal/docker/stack_apply.go:202-215 | Every container made is listed, in the given order as far as it got; at every moment a container runs only where all those before it run, only on its networks, and only while every old container is stopped; without a failure all services of the order are up; a failure names the service that did not come up |
| `StackApply.InTurnIsSupported` | agent/internal/docker/stack_apply.go:139-142 | Containers that run in turn of the start order run only where those of the services they depend on run |
| `StackApply.Undo` | agent/internal/docker/stack_apply.go:711-750 | Rolled back means the containers are those found; with no fault it is rolled back if and only if no container moved aside holds the name of another; for as long as every removal is done the new containers go in reverse order of creation |
| `StackStaging.RemoveOld` | agent/internal/docker/stack_apply.go:217-226 | Removes only old containers; none is left if and only if every removal was done, and with no fault on stopped ones every removal is |
| `StackApply.Launch` | agent/internal/docker/stack_apply.go:190-232 | Commits only after every service was started and observed running, otherwise goes back and says which service failed; at every moment up to then a new container runs only where those of the services it depends on run, only on its networks, and only while every old container is stopped |
| `StackApply.ApplyStack` | agent/internal/docker/stack_apply.go:129-233 | For every plan, host and failure pattern: no container is touched before every check passed and all that is needed was there; the old and the new revision never run at once on the way there, and a new container runs only where those it depends on run; a failed attempt had seen a call or a service fail and is, with no fault after that, back as found exactly when the host can be restored; applied means every service runs as its specification says, with its volumes; with nothing going wrong an acceptable plan is applied; at every moment foreign containers, volumes and networks are unchanged and old containers exist until the commit |
| `StackApply.NameGivenUp` | agent/internal/docker/stack_apply.go:688-696 | A host that passes every check and on which an attempt that fails after staging cannot be undone |
| `StackLifecycle.ResolveStackServices` | agent/internal/docker/stack_lifecycle.go:446-529 | Returns the only resolution of the revision; refuses only when there is none or a call faulted, and says which: something of the stack is muddled, or nothing is and a service is missing |
| `StackLifecycle.ResolvableIff` | agent/internal/docker/stack_lifecycle.go:446-529 | A revision can be operated if and only if every container of the stack is one expected service, no two are the same one and none is missing |
| `StackLifecycle.ResolvesUnique` | agent/internal/docker/stack_lifecycle.go:446-529 | Which container is which service is not a matter of choice |
| `StackLifecycle.ResolvesInjective` | agent/internal/docker/stack_lifecycle.go:496-508 | No two services resolve to one container |
| `StackLifecycle.StopKeepsClosed` | agent/internal/docker/stack_lifecycle.go:271-295 | Stopping the last service still up leaves no dependent running without what it needs |
| `StackLifecycle.StartKeepsClosed` | agent/internal/docker/stack_lifecycle.go:298-320 | Starting the first service not yet up comes after everything it needs |
| `StackLifecycle.StopServices` | agent/internal/docker/stack_lifecycle.go:271-295 | Without a failure nothing runs; at every step the running services stay closed and `changed` says whether a call took effect |
| `StackLifecycle.StartServices` | agent/internal/docker/stack_lifecycle.go:298-320 | Without a failure everything runs; the same invariant at every step |
| `StackLifecycle.RunLifecycle` | agent/internal/docker/stack_lifecycle.go:230-354 | Same containers at every moment, dependency-closed at every moment if they were at the start; a start stops nothing, a stop starts nothing, and a restart starts nothing before a moment at which nothing ran; unchanged exactly when no stop or start took effect; a failure names the service whose call faulted; with no fault a resolvable stack completes, all running or, for a stop, none |
| `StackRemoval.RemoveStack` | agent/internal/docker/stack_remove.go:101-200 | Over the whole call: the list is exactly what is gone, in reverse start order, each stopped before its removal, and whatever is left keeps what it depends on at every moment; a failure names the service whose call faulted; with no fault a resolvable stack is removed and nothing carries its labels; volumes and foreign containers are unchanged |
| `StackRemoval.WhoIsGone` | agent/internal/docker/stack_remove.go:130-175 | Which services are gone depends only on how far the reverse order got |
| `StackRemoval.TakenInTurnStands` | agent/internal/docker/stack_remove.go:130-175 | Whatever is left still has everything it depends on |
| `StackRemoval.DependentsWentFirst` | agent/internal/docker/stack_remove.go:130-175 | Every dependent of a removed service was removed before it |
| `StackRemoval.NothingLeft` | agent/internal/docker/stack_remove.go:167-176 | With every service gone no container carries the stack's labels |
| `StackHandover.AppliedResolves` | agent/internal/docker/stack_apply.go:202-232 | Once the old containers are gone, operating the revision finds exactly what the apply reported |
| `StackHandover.LeftoverUnresolvable` | agent/internal/docker/stack_lifecycle.go:468-511 | One container of the stack left behind makes the revision impossible to resolve |
| `StackHandover.AppliedThenOperated` | agent/internal/docker/stack_lifecycle.go:446-529 | After an applied outcome the revision resolves if and only if nothing else of the stack is left, and then to the reported containers |
| `StackHandover.ApplyThenFind` | agent/internal/docker/stack_lifecycle.go:446-529 | An applied revision is found again, with no fault while looking, if and only if every closing removal was done, and what is found is what was reported |
| `ContainerReplace.Compensate` | agent/internal/docker/manage.go:239-246 | With its calls done the replacement is gone and the original has the name and runs if and only if it ran; with no fault and nobody else holding the name they are done |
| `ContainerReplace.Swap` | agent/internal/docker/manage.go:248-299 | The original is removed only after the replacement was observed running, and is gone unless that removal faults; otherwise something had gone wrong and from that moment on it goes back, under the specification's name exactly if it had been renamed |
| `ContainerReplace.Replace` | agent/internal/docker/manage.go:195-309 | Under every failure pattern the original exists until the replacement was observed running, unless it held a temporary name: then it is never replaced and is gone exactly if it was cleared away. In a replacement that failed something had gone wrong, and if every call from that moment on, the compensating ones, was done, it is as found if and only if it held the specification's name or was never renamed; with no fault they are done when it held that name; with nothing going wrong it is replaced; the replacement is built as the specification says, with its volumes; the result says how far it got, a rollback exactly when the replacement had been started and looked at |
| `ContainerReplace.NamesDiffer` | agent/internal/docker/manage.go:226-237 | The specification's name and the two temporary names are three names |
| `AgentSpec.Validate` | agent/internal/docker/spec.go:124-176 | Accepts exactly the acceptable specifications |
| `AgentSpec.ValidateEnv` | agent/internal/docker/spec.go:178-199 | Accepts exactly well-formed, distinct keys with one-line values |
| `AgentSpec.ValidatePorts` | agent/internal/docker/spec.go:201-231 | Accepts exactly valid ports with no host binding twice |
| `AgentSpec.ValidateMounts` | agent/internal/docker/spec.go:233-262 | Accepts exactly valid mounts with no target twice |
| `AgentSpec.ValidateBindSource` | agent/internal/docker/spec.go:264-282 | Accepts exactly absolute sources that do not climb and reach no forbidden path |
| `AgentSpec.LabelsDiffer` | agent/internal/docker/spec.go:324-352 | The label keys the agent reserves are different keys |
| `AgentSpec.LabelSetSays` | agent/internal/docker/spec.go:324-352 | The agent's own labels say what it was told, and a user's own labels are kept |
| `ServerSpec.Refine` | api/src/containers/container-spec.ts:211-266 | Reports no issue exactly when no port, target or key repeats |
| `ServerSpec.ResolveEnvironment` | api/src/containers/desired-config.ts:75-135 | Refuses exactly when an unchanged entry names nothing; otherwise resolves every entry in order, as the rows below say |
| `ServerSpec.EditMeans` | api/src/containers/desired-config.ts:75-135 | The resolved environment holds a value for a key exactly when the edit says so: plain, newly sealed or carried over |
| `ServerSpec.StoredAsEntered` | api/src/containers/desired-config.ts:94-128 | A plain variable is stored plain, a secret sealed and marked and never in clear, and an unchanged one as the row it was |
| `ServerSpec.ResolvedInOrder` | api/src/containers/desired-config.ts:75-135 | The rows follow the order of the entries that keep a variable |
| `ServerSpec.SentAsAsked` | api/src/containers/desired-config.ts:145-168 | Every field but the environment is sent as it was asked for |
| `ServerSpec.ResolvedIsStoredOk` | api/src/containers/desired-config.ts:75-135 | One accepted edit keeps keys distinct and valid |
| `ServerSpec.FieldsAgree` | api/src/containers/container-spec.ts:66-209 | Field by field, what the schema accepts the agent's rules accept, including reserved labels and bind sources |
| `ServerSpec.AcceptedBecomesAcceptable` | api/src/containers/desired-config.ts:145-168 | One accepted request becomes an acceptable specification, in whatever order the rows are read back |
| `ServerSpec.HistoryStoredOk` | api/src/containers/desired-config.ts:75-168 | After any history of edits the stored environment is valid |
| `ServerSpec.EveryDispatchIsAcceptable` | api/src/containers/desired-config.ts:145-168 | Every specification dispatched in any history of edits is one the agent's validator accepts |
| `ServerSpec.EditStores` | api/src/containers/desired-config.ts:75-135 | An edit is refused exactly when it leaves alone a variable that is not there, and otherwise stores the variables it means |
| `ServerSpec.HistoryStores` | api/src/containers/desired-config.ts:75-168 | After any history the stored environment is the one the promoted edits mean |
| `ServerSpec.EveryDispatchMeans` | api/src/containers/desired-config.ts:145-168 | Over any history of edits the environment an agent is sent is the one the edits mean, with sealing, carrying over and row order out of the picture |
| `ReplayCache.Cache.constructor` | agent/internal/replay/cache.go:36-48 | An empty cache; a capacity below one becomes one |
| `ReplayCache.Cache.Observe` | agent/internal/replay/cache.go:54-75 | Seen exactly when the identifier was last observed less than the time to live ago with fewer than `capacity` distinct others since; the observation is recorded; list and map agree and stay within capacity |
| `ReplayCache.Cache.Len` | agent/internal/replay/cache.go:78-85 | The number of identifiers that are fresh now |
| `ReplayCache.Cache.EvictExpired` | agent/internal/replay/cache.go:87-97 | Drops a front part of the list and leaves nothing that is too old |
| `ReplayCache.Cache.RemoveOldest` | agent/internal/replay/cache.go:99-108 | Takes the front entry out of the list and the map together |
| `ReplayCache.StandsAt` | agent/internal/replay/cache.go:54-75 | Where an identifier stands in order of use gives its last observation and counts the distinct others since |
| `ReplayCache.KeptIffFresh` | agent/internal/replay/cache.go:54-75 | After a sweep the identifiers kept are exactly the fresh ones |
| `ReplayCache.SeenAgain` | agent/internal/replay/cache.go:61-66 | Moving an entry to the back leaves only forgettable entries forgotten |
| `ReplayCache.SeenAnew` | agent/internal/replay/cache.go:68-72 | The same for an identifier that is added, even one forgotten before |
| `ReplayCache.FrontDecides` | agent/internal/replay/cache.go:87-97 | A front entry young enough means every entry is young enough |
| `Records.WithoutContainerSound` | api/src/database/schema.ts:871-915 | Deleting a container with its configurations keeps references and both unique indexes |
| `Recovery.DecidedFromEvidence` | api/src/containers/recovery.ts:83-188 | The exact evidence behind each decision, both directions |
| `Recovery.Finalizer.Promote` | api/src/containers/recovery-finalizer.ts:154-204 | Commits the closed-form effect, does nothing without a claim, and asks for a rollback when the candidate is stale or an index refuses |
| `Recovery.Finalizer.Discard` | api/src/containers/recovery-finalizer.ts:207-259 | Equals the closed-form effect: a create without a container goes with its rows, a candidate alone otherwise |
| `Recovery.Finalizer.Settle` | api/src/containers/recovery-finalizer.ts:262-336 | Equals the closed-form effect of the decisions that only need the action |
| `Recovery.Finalizer.Claim` | api/src/containers/recovery-finalizer.ts:349-397 | True exactly for an open action, or without one for a pending candidate nobody owns |
| `Recovery.Finalizer.Finalize` | api/src/containers/recovery-finalizer.ts:62-151 | All of the decision's effect or none of it; tables stay sound |
| `Recovery.EffectSound` | api/src/containers/recovery-finalizer.ts:130-151 | At most one current and one pending configuration per container after any decision |
| `Recovery.StaleDecisionWritesNothing` | api/src/containers/recovery-finalizer.ts:185-199 | A candidate no longer pending leaves every row as it was |
| `Recovery.PromotionSettles` | api/src/containers/recovery-finalizer.ts:154-204 | The candidate becomes the one current configuration of its container, and of all others only the container's previous one goes |
| `Recovery.DiscardSettles` | api/src/containers/recovery-finalizer.ts:242-259 | A discarded candidate is gone, with or without an action, and nothing else is |
| `Recovery.RemovalTakesAll` | api/src/containers/recovery-finalizer.ts:220-278 | A finished removal, or a create that came to nothing, takes the container's row and configurations and no other |
| `Recovery.OthersLeaveConfigurations` | api/src/containers/recovery-finalizer.ts:280-336 | Every other outcome leaves all configurations, and at most notes the claimants on the one row |
| `Recovery.FinalisedIff` | api/src/containers/recovery-finalizer.ts:154-398 | Exactly when a decision is finalised: its action is open, or its candidate unowned, and what it is about is still so |
| `Recovery.CurrentIsNeverLost` | api/src/containers/recovery-finalizer.ts:154-259 | A container that stays keeps a current configuration through any decision about itself |
| `Recovery.OutcomeIsRecorded` | api/src/containers/recovery-finalizer.ts:400-414 | Success for a promotion and a finished removal, failure with its code for anything else |
| `Recovery.EachActionIsFinalisedOnce` | api/src/containers/recovery-finalizer.ts:62-128 | Over any run with stale decisions and other writers exactly one call finalises a mutation that leaves the open state, and none one that does not |
| `Recovery.ClosedStaysClosed` | api/src/containers/recovery-finalizer.ts:349-414 | A closed mutation never changes again |
| `Recovery.RepeatingChangesNothing` | api/src/containers/recovery-finalizer.ts:55-62 | After a call finalised a mutation, any later call for it writes nothing, whatever happened in between |
| `Recovery.SpentStaysSpent` | api/src/containers/recovery-finalizer.ts:381-397 | A candidate that is no longer pending never becomes pending again |
| `Recovery.DecisionsKeepFitting` | api/src/containers/recovery-finalizer.ts:154-204 | A configuration never moves to another container, so an old decision still fits |
| `Recovery.RunsAreSound` | api/src/containers/recovery-finalizer.ts:62-151 | Every state of every run keeps references and indexes |
| `Recovery.CompletingRespects` | api/src/operations/lifecycle.service.ts:193-200 | Completing a start, stop or restart is a write every run allows |
| `Discovery.Discoverer.ApplyContainers` | api/src/discovery/discovery.service.ts:285-433 | At its end every row holds what the report says of it, field by field, with the stack it is attributed to decided by who held which service before it in the report, and every container nobody knew has such a row of its own; on a database that works it ends so exactly when no reported container is stuck; no failure is ever a contested stack service; however it ends nothing is deleted and no two rows hold one Docker container or one service |
| `Discovery.Discoverer.ApplyItem` | api/src/discovery/discovery.service.ts:349-430 | The same after each reported container |
| `Discovery.Discoverer.AttributeToStack` | api/src/discovery/discovery.service.ts:485-532 | Attributes exactly when the stack is this host's and nobody else holds the service |
| `Discovery.AttributedIff` | api/src/discovery/discovery.service.ts:485-532 | A container is attributed to the service it claims if and only if the stack is this host's and no other row had the service when the pass began, nor was it given to an earlier container of the report that is not of the same row |
| `Discovery.HolderTells` | api/src/discovery/discovery.service.ts:331-337 | After any part of the report a service is held by nobody exactly when no row had it and no container took it; a row that holds it is the only one that had or took it |
| `Discovery.Discoverer.RecordAndKeep` | api/src/discovery/discovery.service.ts:361-371 | A contested row is noted and stamped; the pass ends there exactly for an identity the database cannot read, or a fault |
| `Discovery.Discoverer.CountClaims` | api/src/discovery/discovery.service.ts:311-319 | The map holds exactly the containers claiming each identity |
| `Discovery.Discoverer.HoldersAtStart` | api/src/discovery/discovery.service.ts:331-337 | The map holds exactly the attributed rows of the host, each under its service |
| `Discovery.Discoverer.Reconcile` | api/src/discovery/discovery.service.ts:747-787 | Removes exactly the host's rows with a Docker container and another pass's stamp, and their configurations |
| `Discovery.Discoverer.Sync` | api/src/discovery/discovery.service.ts:145-228 | Complete if and only if every step succeeded, the writing exactly when no container is stuck; an incomplete pass deletes nothing and moves rows only to containers that belong to them |
| `Discovery.DockerTakenIff` | api/src/discovery/discovery.service.ts:373-420 | The unique index refuses a write exactly when the report so far says another row has that Docker container |
| `Discovery.UndisputedIsNotStuck` | api/src/discovery/discovery.service.ts:349-430 | A report without repetitions whose containers no other row has, with readable identities, is never stuck |
| `Discovery.ConfigurationsSurvive` | api/src/discovery/discovery.service.ts:747-787 | After a complete pass a configuration is there exactly when its row is, unchanged |
| `Discovery.SettledRows` | api/src/discovery/discovery.service.ts:747-787 | Rows that stayed hold what the report says, and every container nobody knew still has its row |
| `Discovery.ServiceIsFree` | api/src/discovery/discovery.service.ts:485-532 | A claim the holders allow cannot meet the unique index on stack services |
| `Discovery.SurvivesIffSeen` | api/src/discovery/discovery.service.ts:747-787 | After a complete pass a row is there exactly when it had no Docker container or the pass matched or kept it |
| `Discovery.OthersSurvive` | api/src/discovery/discovery.service.ts:747-758 | Rows of other hosts survive with their Docker container |
| `Discovery.SettledIsConsistent` | api/src/discovery/discovery.service.ts:285-433 | After a complete pass no Docker container and no service is held twice |
| `LabelRoundTrip.ConfigurationReadsBack` | api/src/discovery/discovery.service.ts:449-474 | The labels the agent writes for a container are read back by the server as that container running that configuration |
| `LabelRoundTrip.ServiceReadsBack` | api/src/discovery/discovery.service.ts:544-587 | The labels the agent writes for a service are read back as that service of that stack and revision |
| `LabelRoundTrip.ConfigurationReadIff` | api/src/discovery/discovery.service.ts:449-474 | A configuration is read exactly where a managed container carries its identifier |
| `LabelRoundTrip.ServiceReadIff` | api/src/discovery/discovery.service.ts:544-587 | A service is read exactly where a managed container carries both halves of it, a revision only beside one |
| `LabelRoundTrip.UsersCannotClaim` | agent/internal/docker/spec.go:324-352 | A container's own labels are never taken for an identity |
| `Reconciliation.Reconciler.ClassifyOperation` | api/src/containers/reconciliation.service.ts:89-123 | The decision for the rows as they are |
| `Reconciliation.Reconciler.ReconcileAndFinalize` | api/src/containers/reconciliation.service.ts:49-157 | Reads, decides and records in that order; without an agent nothing is read; on a database that works the reading is complete exactly when an agent answered every step and no container is stuck; an incomplete reading concludes nothing but a conflict; a finalised outcome agrees with the host exactly when it is conclusive |
| `Reconciliation.RowTells` | api/src/discovery/discovery.service.ts:350-433 | A row with a Docker container and no conflict stands for the only reported container that names it; one without, or swept, has none |
| `Reconciliation.FinalisedAgrees` | api/src/containers/reconciliation.service.ts:49-123 | The current configuration is the one the sole claiming container carries, or row and container are both gone, if and only if the decision is conclusive |
| `Reconciliation.DecisionFits` | api/src/containers/reconciliation.service.ts:89-123 | A decision is always about the container's own configuration |
| `Reconciliation.ConflictKeepsClaimants` | api/src/containers/recovery-finalizer.ts:291-314 | Recording an identity conflict leaves the claimants as discovery noted them |
| `Reconciliation.ManagedIsAnchored` | api/src/discovery/discovery.service.ts:373-374 | A reported container that a managed row already had names that row |
| `Reconciliation.IncompleteKeepsAnchored` | api/src/discovery/discovery.service.ts:373-396 | A pass that ended early gives a managed row only a container that names it |
| `Reconciliation.PassKeepsAnchored` | api/src/discovery/discovery.service.ts:373-396 | A pass gives a managed row only a container that names it |
| `Reconciliation.FinalisingKeepsAnchored` | api/src/containers/recovery-finalizer.ts:154-336 | Finalising gives no row another Docker container |
| `RecoveryRuns.PreparingKeepsAnchored` | api/src/containers/container-management.service.ts:475-520 | A prepare gives a configuration only to a row that has one or has no container yet |
| `RecoveryRuns.EveryStateIsKnown` | api/src/discovery/discovery.service.ts:285-433 | In every state of every life of the database managed rows' containers name them, mutations are of a row of their host, no Docker container and no service is held twice, and rows are attributed only to stacks of their host |
| `RecoveryRuns.BystandersKeepOrder` | api/src/stacks/stack-deployment.service.ts:675-697 | Rows allocated for services of a stack, and stacks deleted together with their rows, leave no Docker container or service held twice |
| `RecoveryRuns.OperationsConcern` | api/src/containers/recovery.orchestrator.ts:110-150 | So a reading of an operation's host is about the operation's resource, and begins with rows in order |
| `RecoveryRuns.EveryOperationSettlesTruly` | api/src/containers/reconciliation.service.ts:49-123 | Whatever happened before, a mutation finalised after a complete reading with a new stamp makes the database agree with the host if and only if the decision is conclusive |
| `RecoveryRuns.FailedRemovalMayLeaveACandidate` | api/src/containers/recovery.ts:150-157 | The end of a run of two requests and a concrete pass after which a removal recorded as failed does not agree with the host |
| `RecoveryRuns.RemovalMayMissAContainer` | api/src/containers/recovery.ts:145-148 | The end of a life in which a container was made, settled, asked to be removed and its row deleted, and a concrete pass after which the finalised removal does not agree with the host |
| `Operations.GuardRefusesUnresolved` | api/src/containers/pending-guard.ts:55-100 | The guard allows a container exactly when it has no candidate and no open mutation, and of several reasons names the unresolved change first and a conflict last |
| `Operations.DispatchedStaysBlocked` | api/src/containers/container-management.service.ts:308-388 | In every reachable state, after any crashes and lost answers, an operation dispatched and not finalised is open in the database and its container is refused |
| `Operations.RecordedStaysBlocked` | api/src/containers/container-management.service.ts:141-241 | The same from the moment the operation is written down, before it is dispatched |
| `Operations.UnsettledStaysBlocked` | api/src/containers/recovery-finalizer.ts:291-336 | After a conflict or a need for attention is recorded the container is still refused |
| `Operations.ReleasedIff` | api/src/containers/pending-guard.ts:55-100 | After a finalised outcome the container is let through again if and only if no other operation on it is open and no candidate was left |
| `Operations.EveryStateKeepsInv` | api/src/containers/container-management.service.ts:141-241 | Nothing is dispatched that was not written down, what was written stays open until finalised, and locks are exclusive |
| `Operations.OneRequestPerContainer` | api/src/operations/mutation-registry.ts:37-60 | Two requests of one process are never past the lock of one container |
| `Operations.NobodyElseGetsIn` | api/src/containers/pending-guard.ts:115-130 | While an operation is unresolved only a request already past the guard can still write one |
| `Operations.AnotherOneIffWaiting` | api/src/containers/container-management.service.ts:141-241 | While an operation is unresolved, requests alone can write another one down if and only if a request is past the guard and its record would not be refused |
| `Operations.WayIn` | api/src/containers/container-management.service.ts:191-241 | Such a request gets there by requests alone, and what it writes is unresolved too |
| `Operations.RecordedSound` | api/src/containers/container-management.service.ts:475-520 | What a prepare writes keeps every index |
| `Operations.RecordedWrites` | api/src/containers/container-management.service.ts:467-617 | A prepare writes the running action, the candidate it owns and, for a create, a row without container, and nothing else |
| `Operations.PreparedThenUndone` | api/src/containers/recovery-finalizer.ts:207-288 | An operation of which nothing happened is undone without a trace but its record |
| `Operations.PreparedThenDone` | api/src/containers/recovery-finalizer.ts:154-278 | An operation that happened leaves its candidate as the one current configuration, or the container gone |
| `Operations.RecordedRespects` | api/src/containers/container-management.service.ts:582-617 | A prepare leaves recorded actions alone and adds candidates only under new identifiers |
| `Operations.DiscoveryRespects` | api/src/discovery/discovery.service.ts:145-228 | A discovery pass, complete or not, leaves recorded actions alone |
| `Operations.BothMayBeOpen` | api/src/containers/container-management.service.ts:141-241 | A concrete run in which a replacement or removal and a removal of one container are both dispatched and open |
| `Operations.TwoRemovalsMayBeOpen` | api/src/containers/container-management.service.ts:191-241 | A concrete run in which two removals of one container are dispatched and open |
| `Dispatch.Dispatcher.Request` | api/src/agents/agent-dispatch.service.ts:110-168 | Refused without a connection; otherwise recorded with the connection it went out on and a timer |
| `Dispatch.Dispatcher.RequestTimeout` | api/src/agents/agent-dispatch.service.ts:140-148 | A timer that is still set belongs to a request still waiting, so it never settles one twice |
| `Dispatch.Dispatcher.Settle` | api/src/agents/agent-dispatch.service.ts:177-243 | Accepted exactly from the request's own connection and capability; a wrong capability rejects it, another connection changes nothing |
| `Dispatch.Dispatcher.SettleWithError` | api/src/agents/agent-dispatch.service.ts:520-530 | Rejects a waiting request and does nothing otherwise |
| `Dispatch.Dispatcher.OpenStream` | api/src/agents/agent-dispatch.service.ts:252-327 | A new stream expects chunk 0 on the connection it was opened on |
| `Dispatch.Dispatcher.AcceptStreamStart` | api/src/agents/agent-dispatch.service.ts:330-345 | Accepted exactly when request, stream, connection and capability agree; then that stream is acknowledged and nothing else changes; it may be accepted again |
| `Dispatch.Dispatcher.AcceptStreamChunk` | api/src/agents/agent-dispatch.service.ts:348-384 | Delivers exactly the chunk that is due; any other number ends the stream; no other stream changes |
| `Dispatch.Dispatcher.AcceptStreamEnd` | api/src/agents/agent-dispatch.service.ts:387-397 | Ends exactly the stream that request, identifier and connection name |
| `Dispatch.Dispatcher.CancelStream` | api/src/agents/agent-dispatch.service.ts:437-456 | A running stream ends as cancelled, once |
| `Dispatch.Dispatcher.EndStream` | api/src/agents/agent-dispatch.service.ts:458-477 | A running stream ends once and is forgotten |
| `Dispatch.Dispatcher.StreamTimeout` | api/src/agents/agent-dispatch.service.ts:290-297 | A timer that is still set belongs to a stream not acknowledged, which ends; no other stream changes |
| `Dispatch.Dispatcher.Abandon` | api/src/agents/agent-dispatch.service.ts:480-504 | Exactly the requests and streams of the connection are settled, as failed; all others stay |
| `Dispatch.Dispatcher.EndStreamsOf` | api/src/agents/agent-dispatch.service.ts:507-518 | Exactly the agent's streams end, and the count says how many |
| `Dispatch.SettledAtMostOnce` | api/src/agents/agent-dispatch.service.ts:110-243 | Over every run a request settles at most once |
| `Dispatch.ResolvedByItsOwn` | api/src/agents/agent-dispatch.service.ts:177-243 | A request resolves only from the connection it was sent on, for the capability it asked |
| `Dispatch.GapFree` | api/src/agents/agent-dispatch.service.ts:348-384 | A stream delivers 0, 1, 2, ... without gap or repeat and ends at most once |
| `Dispatch.DeliveredByItsOwn` | api/src/agents/agent-dispatch.service.ts:407-434 | A chunk is delivered only from the connection, and under the stream identifier, the stream was opened with |
| `Dispatch.SilentAfterEnd` | api/src/agents/agent-dispatch.service.ts:407-477 | Nothing of a stream is delivered after its end |
| `Dispatch.SendChunks` | agent/internal/gateway/streams.go:131-152 | The agent numbers what it sends from 0 without gap, up to the first failed write |
| `Dispatch.Carry` | agent/internal/gateway/streams.go:131-152 | A stream freshly opened delivers everything the agent sends on its connection, in order |
| `Logs.SplitOversized` | agent/internal/docker/logs.go:301-321 | The pieces joined are the line, none is over the limit, all but the last are full, and they are marked exactly when it was cut |
| `Logs.SplitTimestamp` | agent/internal/docker/logs.go:378-392 | Splits at the first blank exactly when what is before it parses; prefix, blank and rest give the message back |
| `Logs.Batcher.Add` | agent/internal/docker/logs.go:338-349 | A line waits, and what waits is flushed exactly at 200 lines or 65536 bytes; lines added are delivered, reported dropped, dropped unreported or waiting; batches handed on do not change |
| `Logs.Batcher.Flush` | agent/internal/docker/logs.go:351-369 | With room the batch goes out with exactly the gap before it; without, its lines are counted as dropped |
| `Logs.ReadLogs` | agent/internal/docker/logs.go:198-221 | For every mix of lines, ticks and full queues the account balances at the end, and a last flush with room leaves nothing unreported; with room at every flush the delivered lines are the whole input and no batch reports a drop |
| `Logs.Batcher.RoomLosesNothing` | agent/internal/docker/logs.go:338-369 | With room at every signal nothing is dropped |
| `Logs.NothingMissing` | agent/internal/docker/logs.go:351-369 | Batches that report no drop are together the input from its beginning |
| `Logs.MoreDelivered` | agent/internal/docker/logs.go:351-369 | Each batch is the stretch of input after the previous one and its reported drops, within 200 lines and 65535+8192 bytes |
| `Logs.DeliveredFromInput` | agent/internal/docker/logs.go:338-369 | Every delivered line is a line of the input at a place the batches speak for |
| `Logs.DeliveredInOrder` | agent/internal/docker/logs.go:338-369 | Delivered lines keep the order of the input |
| `Logs.ReadLines` | api/src/logs/log-stream.service.ts:520-550 | Every object becomes a line, anything else is left out, whatever the fields hold |
| `Logs.EntryShows` | api/src/logs/log-stream.service.ts:520-550 | Any object shows one line, with what is unreadable left empty; anything else shows none |
| `Logs.ReadsWhatWasSent` | api/src/logs/log-stream.service.ts:520-550 | Every line the agent encodes is read back as it was |
| `Logs.Snapshot.TakeChunk` | api/src/logs/log-stream.service.ts:147-157 | The first 5000 lines are kept and every other line is counted |
| `Logs.Collect` | api/src/logs/log-stream.service.ts:118-167 | Lines kept and counted as lost are together exactly the input up to the end of the last batch |
| `Logs.Itoa` | agent/internal/docker/logs.go:412-428 | The digits read back as the number, without leading zeros; a negative number gives nothing |
| `Logs.TailArgument` | agent/internal/docker/logs.go:395-401 | The text reads back as the count, or as zero when it is not positive |
| `Framing.LineScanner.Next` | agent/internal/gateway/scanner.go:34-68 | Wherever the pieces were cut, the answer and what is left depend on the bytes alone, and the buffer never exceeds the limit |
| `Framing.NextMeans` | agent/internal/gateway/scanner.go:34-68 | A last line without newline counts if the input was closed in order, and not if it broke off; too large means over the limit and nothing else |
| `Framing.FirstLineMeans` | agent/internal/gateway/scanner.go:37-52 | A line runs to the first newline and no further, or to the end |
| `Framing.TrimSpaceMeans` | agent/internal/gateway/scanner.go:56-61 | Only white space is trimmed, and none is left on either side |
| `Framing.ReadMessages` | agent/internal/gateway/client.go:479-511 | The messages and what stopped the reading are a function of the stream |
| `Framing.WrittenIsNext` | agent/internal/gateway/client.go:682-701 | A written message is the next one read unchanged, or refused exactly when it is over the limit with its newline |
| `Framing.ReadBack` | agent/internal/gateway/client.go:682-701 | What was written is read back unchanged, in order, up to the first message over the limit |

## Left out

- ApplyStack: whether the closing removals succeeded is not part of the result, because the source does not report it; the trace says it.
- EveryOperationSettlesTruly: that the stamp of a reading is a new one is assumed, because the source draws it at random.
- Mutable: the Compose project of a row is not modelled, only its stack; whether the stack is settled is a parameter.
- Itoa: the argument is a 64-bit number, as `int` is on the agent's platforms.
- TailArgument: the same.
- CancelStream: the message sent to the agent is not modelled.
- Image pulls are one step that succeeds or fails; Docker's resolution of identifier prefixes is not modelled.
- A published port is compared by address, number and protocol as a triple, where the source builds a string from them.
- The name a create holds is an arbitrary lock key; case folding of names and the index on unfinished names are not modelled.
- How the database reads an identifier written in a label is a parameter of a discovery pass, and so is the set of resources registered as in flight; the agreement with the host is stated for an empty set, since nothing registers one.
- Compose projects, inventory, metrics, container state and health columns and events of a discovery pass.
- Secrets: only that opening a sealed value gives it back is used.
- Whether a prefix parses as an RFC 3339 time is a parameter of the batcher.
- Reading one container stream into lines, and the goroutines between reader and batcher.
- Limits, session checks and lifetimes of log streams on the server.
- Real concurrency inside Docker and PostgreSQL: a call and a transaction are one step each.
- TLS, certificates, HTTP controllers, roles, audit records, Compose parsing, the web application and the command line.
- The server's stack services and container lifecycle service.
- Error texts and the tables that translate error codes.
