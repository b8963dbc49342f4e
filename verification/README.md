# AnyApplication controller: a verified model

One `AnyApplication` is reconciled by the controllers of several zones over one stored object whose status is updated
optimistically. This project models that protocol and the code around it in Dafny and proves what it keeps over whole
runs. `dafny verify dfyconfig.toml` checks all of it.

| module | models |
|---|---|
| `Api`, `StatusObject` | the status (ownership, zone entries, conditions) as values, and the mutable object the code changes in place |
| `Fsm`, `FsmMethods` | the decision of one reconciliation: `DeriveNewStatus`, `updateState`, the local and the global state machine; as functions, and as methods on the mutable status proved equal to them |
| `Decisions` | what a derivation decides and leaves behind, said about the derived status, the snapshot and the view alone: job, conditions, global state, flag |
| `Merge` | `mergeStatus`, in place and as a function |
| `Store` | `UpdateStatus`: its retry loop, and all interleavings of any number of calls; `UpdateCondition` |
| `Jobs`, `JobRuns` | the job registry under all interleavings; the polling loops of the deployment, undeployment and operation jobs |
| `Reconciler` | one `Reconcile` call from snapshot to start, put together from the methods above |
| `Protocol` | any number of zones: reconciliations cut into load, derive, stop, commit and start, with stale snapshots and failed commits, interleaved with job steps, crashes and changes from outside |
| `Convergence`, `RoundRuns`, `Reachable`, `Operational` | rounds of one zone without faults and their measure; that they are runs of `Protocol`; that they reach every deployment; that the stored state ends operational |
| `JobLoss`, `ClearedPlacements` | what becomes of a zone that loses its job, and of one whose placements are cleared |
| `Versions`, `Charts`, `RenderCache` | version order and text, the index of chart versions, the cache of rendered charts |
| `Deletion`, `Health` | `deleteApp` and `Cleanup`; the two health aggregators |

What the code does differently from what a reader would expect is modelled as it is, and its consequences are lemmas:

- `addOrUpdateCondition` and `updateLocalCondition` never update a condition: they write into a copy of the entry
  (`Api.InsertRefines`).
- `mergeStatus` never removes a single condition and does not report the removal of an entry; when exactly its flag
  misses a change is `Merge.UpdatedMisses`. Idempotence needs unique derived conditions (`Merge.DuplicatesDefeatIdempotence`).
- The listing of resources and the look into the job registry are not atomic. A deployment that was running at the
  listing and ends before the registry is read can be followed by one of another version:
  `Protocol.StepKeepsVersionsExactlyWhen` gives the exact condition, `Protocol.UnsafeRequestCanMix` what may follow each
  time it is met, `Protocol.StaleListingMixesVersions` a run from an empty status. `Protocol.AtMostOneVersion` covers
  every run in which no deployment ends between the two.
- The "Multiple jobs" panic is unreachable only while nobody clears the placements; `Fsm.PanicsExactlyWhen` is the exact
  condition, `ClearedPlacements.PanicFromEmpty` a run with one clearing write for every version.
- If only outdated versions are installed and the undeployment is lost, no new one is requested. A zone that lost its
  job settles if and only if it is not in that state (`JobLoss.SettlesAfterLossExactlyWhen`), which is reachable
  (`JobLoss.StuckFromEmpty`).
- A placement job that runs is requested again, because its condition is stripped before the global step looks for it;
  the registry absorbs the request (`Convergence.UnplacedReconcile`).
- `Cleanup` calls `deleteApp` once per version, but the listing is by instance, so the first call already tries
  everything, and only its outcome decides (`Deletion.Cleanup`).
- The render cache key is ambiguous for chart names with a slash (`RenderCache.AmbiguousWithSlash`); when exactly two
  keys share a text is `RenderCache.SameKeyTextExactlyWhen`.
- The two aggregators disagree on an empty chart and on resources live under another API version
  (`Health.AggregatorsAgree`, `Health.VersionsTellThemApart`).

## Model

| member | source | states |
|---|---|---|
| `Convergence.Converges` | internal/controller/global/local_fsm.go:52-199 | From any state of the invariant, along any sequence of faultless rounds (one reconciliation, one job cycle each) for a fixed target: every world from the explicit budget on is settled, that is, exactly the resources of the stored version, which equals the target, are installed and its operation job runs |
| `Convergence.BudgetSpent` | internal/controller/global/local_fsm.go:52-199 | After i faultless rounds the invariant holds and at most budget minus i rounds are left |
| `Convergence.RoundSpends` | internal/controller/global/local_fsm.go:52-199 | Each faultless round lowers the budget strictly, or the budget is zero, stays zero, and the installed resources and stored version do not change |
| `Convergence.RoundKeepsGood` | internal/controller/anyapplication_controller.go:63-165 | Every faultless round, for whatever target, keeps: installed resources come from one version, the stored one unless an undeployment runs; a deployment or operation job works for the stored version; an unplaced application has nothing installed |
| `Convergence.SettledIsZero` | internal/controller/global/local_fsm.go:173-199 | Under the invariant the budget is zero if and only if the zone is settled |
| `Convergence.SettledStays` | internal/controller/global/local_fsm.go:173-199 | From the budget on, stored version, resources and operation job are the same in every later world |
| `Convergence.FaultlessRoundExists` | internal/controller/global/local_fsm.go:52-199 | In every state of the invariant with something to install a faultless round is possible, so the convergence theorem is not vacuous |
| `Convergence.DecisionIs` | internal/controller/global/local_fsm.go:52-199 | What one derivation of a placed zone without failed attempts requests, from the status noted, over both state machines: the decision table, with the first report and the version stored with the job |
| `Convergence.ReconcileOutcome` | internal/controller/anyapplication_controller.go:63-165 | What one whole reconciliation of a placed zone leaves: the registered job, the stored version, and unchanged placements and resources |
| `Convergence.UnplacedReconcile` | internal/controller/global/global_fsm.go:54-91 | The owner of an unplaced application under the local strategy always ends a reconciliation with the placement job registered, even when it is requested again because its condition was stripped |
| `Convergence.SyncProgress` | internal/controller/sync/applications.go:186-222 | A synchronization that applies a missing resource of the installed version leaves strictly fewer missing, or none |
| `Convergence.ToldFrame` | internal/controller/status/update.go:83-96 | Any stored report keeps the stored version and the ownership, except that a placement report sets the placements to the own zone; unless it reports a failure, none appears |
| `JobLoss.LossKeepsGoodExactlyWhen` | internal/controller/global/local_fsm.go:128-171 | In every state of the invariant, losing the job keeps it if and only if the zone is not left stuck: only outdated resources installed and no job |
| `JobLoss.SettlesAfterLossExactlyWhen` | internal/controller/global/local_fsm.go:52-199 | A zone that loses its job settles in every faultless continuation as long as the budget if and only if it is not stuck |
| `JobLoss.LostUndeploymentSticks` | internal/controller/global/local_fsm.go:128-171 | No reconciliation of a stuck zone asks for another undeployment: it stays stuck, with the same resources |
| `JobLoss.StaysStuck` | internal/controller/global/local_fsm.go:128-171 | Through any number of rounds a stuck zone stays stuck, with the same resources |
| `JobLoss.UpgradeSticksExactlyWhen` | internal/controller/global/local_fsm.go:145-158 | Losing the job after the first round of an upgrade leaves the zone stuck if and only if anything is still installed |
| `JobLoss.StuckIsReachable` | internal/controller/global/local_fsm.go:128-171 | For any two versions, the first with more than one resource: faultless rounds deploy the first, and one faultless round towards the other leaves a part of the first installed with the target stored and the undeployment running; losing it leaves the zone stuck |
| `JobLoss.StuckFromEmpty` | internal/controller/global/local_fsm.go:128-171 | In the protocol: a run without a crash from an empty status leads to that state, and one crash then leaves the zone stuck |
| `Reachable.FaultlessRunExists` | internal/controller/global/local_fsm.go:52-199 | From every state of the invariant with something to install there are faultless runs of every length |
| `Reachable.DeployedIsReachable` | internal/controller/global/local_fsm.go:52-199 | Every version that installs something is deployed by some faultless run from a fresh claim |
| `RoundRuns.RoundIsRun` | internal/controller/anyapplication_controller.go:63-165 | Every faultless round is a run of the fine-grained protocol (load, derive, stop, commit, start, then job steps), so the whole-run theorems apply to it |
| `RoundRuns.RoundsAreRun` | internal/controller/anyapplication_controller.go:63-165 | So is any number of them, without a crash |
| `Convergence.ClaimedIsGood` | internal/controller/anyapplication_controller.go:167-194 | A freshly claimed application with nothing installed satisfies the invariant |
| `Operational.EndsOperational` | internal/controller/global/global_fsm.go:39-132 | Along faultless rounds in which nothing fails, an application of one zone, such as a fresh claim, is stored operational in every world after the budget is spent |
| `Operational.ClaimIsWell` | internal/controller/anyapplication_controller.go:167-194 | A fresh claim is a status of one zone in which nothing fails |
| `Operational.SettledIsOperational` | internal/controller/global/global_fsm.go:39-132 | A settled zone that owns the application and is its only placement, with no failing condition anywhere, has the state operational stored after the next round |
| `Operational.RoundKeepsWell` | internal/controller/anyapplication_controller.go:245-310 | A faultless healthy round brings no failing condition into the stored status and keeps its lists maps |
| `Protocol.OwnershipIsStable` | internal/controller/anyapplication_controller.go:167-194 | Over every run from an empty status, with stale snapshots: owner empty exactly when the state is empty, at epoch 0, which is 1 from then on; once set the owner never changes, placements never return to nil |
| `Protocol.InitializeClaims` | internal/controller/anyapplication_controller.go:167-194 | The first reconciliation stores the zone as owner, epoch 1 and the new state if there was no state, and nothing otherwise |
| `Protocol.CommitStoresState` | internal/controller/anyapplication_controller.go:245-260 | A commit that goes through leaves the derived global state stored, unless it is unknown |
| `Protocol.JobReportStored` | internal/controller/job/deploy_job.go:157-171 | What each type of job's stored report leaves: its own condition as reported; a deployment removes the local and the undeployment condition, an undeployment the local and the deployment one, an operation both of the latter, a placement none and sets the placements |
| `Protocol.OnlyOwnWritesChangeAZone` | internal/controller/global/global_application.go:177-227 | Over every run, each write changes at most its writer's entry and keeps the others in order, and writes from outside change none: a stored entry changes only in that zone's own writes |
| `Protocol.ZoneVersionsNeverReused` | api/v1/anyapplication_types.go:266-281 | A write by a zone that leaves its entry present gives it a version above every version it ever had, even if the entry was removed and re-created, and not above the object's resource version |
| `Protocol.StoredListsAreMaps` | api/v1/anyapplication_types.go:192-264 | Everything ever stored has unique zone ids, unique (type, zone) conditions, and conditions under their own zone |
| `Protocol.NoPanic` | internal/controller/types/application.go:16-28 | While nobody clears placements, no reconciliation of any run reaches the "Multiple jobs" panic |
| `ClearedPlacements.ClearingPanicsExactlyWhen` | internal/controller/types/application.go:16-28 | After the placements of a placed application without failures are cleared, its owner's next reconciliation panics if and only if the stored version is installed and no undeployment runs |
| `ClearedPlacements.PanicFromEmpty` | internal/controller/types/application.go:16-28 | For every version that installs something: a run of the protocol without a crash from an empty status to its deployment, one clearing write, and a further run end in the panic |
| `Protocol.StepKeepsInv` | internal/controller/anyapplication_controller.go:63-194 | Every step keeps the history invariant: increasing resource versions, kept ownership, raised zone versions, one writer per entry, well-formed lists; and the history only grows |
| `Protocol.OwnedDerivationOk` | internal/controller/global/global_application.go:97-156 | A derivation from an owned snapshot whose own version is unset while unplaced never panics, keeps the lists well formed, touches only the own entry and of the ownership only the state |
| `Protocol.AtMostOneVersion` | internal/controller/global/local_fsm.go:57-69 | Over every run from an empty status in which no deployment ends between a listing of resources and its look into the job registry, with crashes, failed commits, stale statuses and changing placements and targets: each zone has at most one version installed, and a running deployment of a version means nothing of another is there |
| `Protocol.SafeRunKeepsVersions` | internal/controller/global/local_fsm.go:57-69 | The same over every run without an unsafe request, from any state of the version invariant |
| `Protocol.InitialVersions` | internal/controller/global/local_fsm.go:57-69 | A fresh application satisfies that invariant |
| `Protocol.StepKeepsVersionsExactlyWhen` | internal/controller/global/local_fsm.go:84-126 | The exact condition, read off snapshot, listing and registry: a step breaks the version invariant if and only if it derives for a placed zone that may deploy, while the listing had seen a deployment of another version than the target and something is installed |
| `Protocol.UnsafeRequestCanMix` | internal/controller/anyapplication_controller.go:117-162 | After any such request the run of stopping, failing to commit, starting and one synchronization of the same zone leaves two versions installed |
| `Protocol.QuietIsSafe` | internal/controller/global/local_fsm.go:91-99 | A deployment that still runs when the registry is read blocks the request |
| `Protocol.DeployRequestListed` | internal/controller/global/local_fsm.go:57-69 | In the protocol a deployment is requested if and only if snapshot and view allow it; then it is of the target, none runs, and nothing of another version was listed |
| `Protocol.StaleListingMixesVersions` | internal/controller/sync/applications.go:387-415 | Without a current listing there is a run from an empty status that ends with two versions installed |
| `Fsm.GlobalStateIsDeclarative` | internal/controller/global/global_fsm.go:39-132 | After any owner step with placements: Failure iff more zone entries hold a failing condition than tolerated, else Operational iff every placement zone has its local condition, else Relocation, all read off the derived status |
| `Fsm.FailureMonotone` | internal/controller/global/global_fsm.go:169-197 | Failure is monotone in the failing zones and antitone in the tolerance |
| `Decisions.JobsInWords` | internal/controller/global/global_application.go:177-227 | Which job a derivation asks for, of which version, and when it panics, in terms of placements, installed versions, the running job and the recorded attempts |
| `Decisions.ConditionsExactly` | internal/controller/global/local_fsm.go:52-199 | After a derivation the own entry holds exactly the condition types of a table: an undeployment due leaves no local and no deployment condition, and no undeployment one if it is done and none is requested; a deployment no local and no undeployment one; an operation no undeployment one, and no deployment one once it runs; a zone without anything to do none; the requested job's condition and every other known one are there |
| `Decisions.ConditionsFrom` | internal/controller/global/global_application.go:97-156 | Every condition of the derived entry is the snapshot's, the installed application's, the running job's, or the first report of the requested job, written out type by type |
| `Decisions.ConditionsKept` | internal/controller/global/global_fsm.go:141-162 | A condition of the snapshot whose type the table keeps stays exactly as it is |
| `Decisions.StateInWords` | internal/controller/global/global_fsm.go:39-132 | The state an owner with placements derives: failed if more zones hold a failing condition, written out, than tolerated, else operational if every placement zone has a local condition, else relocation |
| `Decisions.UndeployingIsRelocation` | internal/controller/global/local_fsm.go:128-171 | While an undeployment of a placed zone is due, its owner derives relocation, unless too many zones fail |
| `Decisions.UnplacedState` | internal/controller/global/global_fsm.go:54-91 | The state an owner without placements derives: placing, or failed exactly while no placement is requested and its condition says so |
| `Decisions.ChangesAreFlagged` | internal/controller/global/global_application.go:97-156 | A derived status that differs from the snapshot always has the updated flag set |
| `Fsm.JobsExactly` | internal/controller/global/global_application.go:177-227 | The complete decision table over both state machines, read off the snapshot: the local job branch by branch, else the placement job, and the panic if and only if there would be both |
| `Fsm.PanicsExactlyWhen` | internal/controller/types/application.go:16-28 | Both state machines schedule a job if and only if the zone owns an unplaced application under the local strategy, has the active version installed, runs neither an undeployment nor a placement, and has undeployment attempts left in the snapshot |
| `Fsm.DeployRequest` | internal/controller/global/local_fsm.go:57-126 | A derivation asks for a deployment if and only if the zone is placed, need not undeploy, is not deployed, runs no deployment and has attempts left in the snapshot; then of the target, with nothing else installed |
| `Fsm.LocalJobs` | internal/controller/global/local_fsm.go:52-199 | The local step asks for exactly the job of the decision table, with its first report; a version is stored only together with a deployment or undeployment |
| `Fsm.NotedKeepsAttempts` | internal/controller/global/global_application.go:97-156 | What a derivation notes before deciding changes nothing about exhausted attempts of a job that does not run |
| `Fsm.DeriveFrame` | internal/controller/global/global_application.go:97-156 | A derivation changes only the own entry, of the ownership only the state (or claims an unowned status), stores a version exactly when it starts a deployment or undeployment of a new one, and never leaves an own entry without conditions |
| `Fsm.NonOwnerKeepsOwnership` | internal/controller/global/global_application.go:177-227 | A non-owner's derivation keeps owner, epoch, state and placements of a snapshot that has a state |
| `Fsm.LocalPartFrame` | internal/controller/global/global_application.go:271-322 | The local step: other entries and ownership unchanged, conditions only removed by key or added, version and zone version |
| `Fsm.RemoveAllFrame` | internal/controller/global/global_fsm.go:153-162 | Removing a list of conditions leaves exactly the conditions whose type and zone are not in the list |
| `Fsm.DroppingEmptyZone` | internal/controller/global/global_application.go:218-224 | Dropping an own entry without conditions changes neither the failure verdict nor whether all placements operate |
| `Fsm.CountIsCardinality` | internal/controller/global/global_fsm.go:169-197 | The recursive count of failing entries is the number of positions that hold one |
| `Fsm.DeriveWellFormed` | internal/controller/global/global_application.go:97-156 | A derivation keeps zone ids and conditions unique and every condition under its own zone |
| `FsmMethods.DeriveNewStatus` | internal/controller/global/global_application.go:97-156 | In place, exactly the derivation the lemmas of Fsm are about: status, updated flag, job, or panic |
| `FsmMethods.UpdateState` | internal/controller/global/global_application.go:177-227 | In place: local step, owner step, merged job requests, empty own entry dropped |
| `FsmMethods.LocalStateMachine` | internal/controller/global/global_application.go:271-322 | In place: the decided removals, addition and version, and the updated flag |
| `FsmMethods.LocalNextState` | internal/controller/global/local_fsm.go:52-82 | The local decision, and that it touches only the own entry's existence |
| `FsmMethods.GlobalStateMachine` | internal/controller/global/global_application.go:229-269 | In place: the owner's step and its updated flag |
| `FsmMethods.GlobalNextState` | internal/controller/global/global_fsm.go:39-97 | The owner's decision equals the declarative one |
| `FsmMethods.IsFailureCondition` | internal/controller/global/global_fsm.go:169-197 | The nested counting loops decide whether the number of failing entries exceeds the tolerance |
| `FsmMethods.GetGlobalState` | internal/controller/global/global_fsm.go:99-117 | The loop over placements returns Operational iff every placement zone has its local condition, else Relocation |
| `FsmMethods.GetHighestZoneCondition` | internal/controller/global/global_fsm.go:119-132 | The first of local, deployment and undeployment condition present, none if and only if none is |
| `FsmMethods.NextJobs.Add` | internal/controller/types/application.go:16-28 | Panics if and only if both sides hold a job; otherwise keeps the one there is |
| `Merge.MergeInto` | internal/controller/anyapplication_controller.go:245-310 | In place: the merged status and the exact flag |
| `Merge.MergeTakesOver` | internal/controller/anyapplication_controller.go:249-271 | The derived state is taken over unless unknown, the higher epoch, the owner and the placements if there were none |
| `Merge.MergedEntry` | internal/controller/anyapplication_controller.go:276-307 | Of well-formed statuses the merged own entry is, as a map, the derived condition where it is new, or newer and of another status, and the stored one everywhere else; its version is the derived one |
| `Merge.MergeIsMapMerge` | internal/controller/anyapplication_controller.go:285-304 | The same for any duplicate-free lists |
| `Merge.MergeList` | internal/controller/anyapplication_controller.go:285-304 | The nested loops over conditions compute the merge, and report updated exactly when the list changed |
| `Merge.MergeIdempotent` | internal/controller/anyapplication_controller.go:245-310 | Merging the same derived status again changes nothing and reports no update |
| `Merge.DuplicatesDefeatIdempotence` | internal/controller/anyapplication_controller.go:285-304 | Without unique derived conditions, idempotence fails |
| `Merge.MergeKeepsConditions` | internal/controller/anyapplication_controller.go:285-304 | A merge never drops or moves a condition of a kept zone and never lowers its transition time; at the same time it is the same condition |
| `Merge.RecentReportStays` | internal/controller/anyapplication_controller.go:288-298 | A stored report at least as recent as the derived one, or with the same status, is never overwritten |
| `Merge.UpdatedMisses` | internal/controller/anyapplication_controller.go:245-310 | The flag never claims a change that did not happen, and misses one exactly when the only effect is to drop the entry or to create one with neither version nor conditions |
| `Merge.FlagIsExact` | internal/controller/anyapplication_controller.go:245-310 | For a derived status that holds the zone, the flag is true exactly when the status changed |
| `Merge.MergeWellFormed` | internal/controller/anyapplication_controller.go:245-310 | Merging keeps the lists maps |
| `Merge.MergeOwn` | internal/controller/anyapplication_controller.go:273-307 | Other zones' entries are untouched; the own entry takes the derived version and the merged conditions |
| `Store.NoLostUpdate` | internal/controller/status/update.go:46-81 | Over every interleaving of any number of calls with stale reads, the history is a sequential run: each committed entry is the callback's result on the entry right before it, except that the zone's entry gets a version above its own and above the object's; each call commits at most once |
| `Store.CommitsRaiseVersions` | api/v1/anyapplication_types.go:266-281 | Over every interleaving of callbacks that do not touch the version themselves, two commits of one zone that leave its entry present have increasing zone versions |
| `Reconciler.CallbacksAreModest` | internal/controller/anyapplication_controller.go:245-310 | The callbacks of reconciler and jobs are such: they leave other zones' entries and the zone's version alone |
| `Store.StepKeepsInv` | internal/controller/status/update.go:46-81 | Every step of the interleaving keeps that invariant |
| `Store.WriteIsAtomic` | internal/controller/status/update.go:66-76 | A conditional write that succeeds was computed from the latest entry |
| `Store.UpdateStatus` | internal/controller/status/update.go:46-81 | The retry loop stores at most one entry: the callback's result on the entry right before it, with the zone's version raised above its own and the object's and nothing else changed; each attempt in vain met a later entry than it had read, a conflict error means five such, and being cancelled or unchanged has its cause |
| `Store.Attempt` | internal/controller/status/update.go:49-79 | One attempt: what it reads, writes and answers |
| `Store.UpdateCondition` | internal/controller/status/update.go:83-96 | In place: the report set, the superseded types removed, and whether anything changed |
| `Store.ReportStored` | internal/controller/status/update.go:83-96 | After a report its condition says what was reported, the superseded ones are gone, everything else stays, and the flag tells exactly whether the status changed |
| `Reconciler.Reconcile` | internal/controller/anyapplication_controller.go:63-165 | One call from snapshot to start: the decision, the stopped and started job, and at most one committed entry, which is the merge into the entry right before it; a failed commit does not keep the job from starting |
| `Reconciler.CarryOut` | internal/controller/anyapplication_controller.go:117-162 | Stop a different job, commit the derived status if any, start the job unless it runs |
| `Reconciler.DecideInWords` | internal/controller/anyapplication_controller.go:80-108 | A call claims an application without owner, and leaves alone exactly one with a state that this zone neither owns, nor is placed in, nor has an entry in, nor has deployed |
| `Reconciler.WantedJobRuns` | internal/controller/anyapplication_controller.go:117-162 | Afterwards the wanted job is registered; the same job's worker is kept, a different one replaced, other applications untouched, one live worker each |
| `Api.FindConditionAgrees` | api/v1/anyapplication_types.go:302-309 | In a well-formed entry the search by type alone finds what the search by type and zone finds |
| `Api.InsertRefines` | internal/controller/global/global_fsm.go:141-151 | addOrUpdateCondition is insert-if-absent on the map, never an update |
| `Api.UpsertRefines` | api/v1/anyapplication_types.go:228-250 | AddOrUpdate is the map update unless status, reason and message are the same |
| `Api.UpsertElements` | api/v1/anyapplication_types.go:228-250 | After AddOrUpdate a condition of this type and zone says what was reported; the others stay |
| `Api.DropRefines` | api/v1/anyapplication_types.go:252-264 | Remove is removal of the key from the map |
| `Api.PutRefines` | api/v1/anyapplication_types.go:201-219 | Writing the own entry is the map update on zones |
| `Api.RemoveZoneRefines` | api/v1/anyapplication_types.go:221-226 | RemoveZone is removal of the key from the map of zones |
| `Api.LookupIsMap` | internal/controller/global/global_fsm.go:134-139 | First match in a duplicate-free list is lookup in the map |
| `Api.SameOthersOwn` | api/v1/anyapplication_types.go:192-199 | A change that keeps the other entries in order keeps what is found for every other zone |
| `StatusObject.AnyApplicationStatus.GetStatusFor` | api/v1/anyapplication_types.go:192-199 | The position of the zone's first entry, and whether there is one |
| `StatusObject.AnyApplicationStatus.GetOrCreateStatusFor` | api/v1/anyapplication_types.go:201-219 | Appends an empty entry only if the zone has none |
| `StatusObject.AnyApplicationStatus.AddOrUpdate` | api/v1/anyapplication_types.go:228-250 | In place, and updated exactly when the conditions changed |
| `StatusObject.AnyApplicationStatus.Remove` | api/v1/anyapplication_types.go:252-264 | In place, and true exactly when such a condition was there |
| `StatusObject.AnyApplicationStatus.IncrementZoneVersion` | api/v1/anyapplication_types.go:266-281 | In place: above the entry's version and the object's resource version |
| `StatusObject.AnyApplicationStatus.InsertCondition` | internal/controller/global/global_application.go:334-345 | In place: a present condition of the same type and zone is left as it is |
| `StatusObject.AnyApplicationStatus.FindCondition` | api/v1/anyapplication_types.go:302-309 | The position of the first condition of a type |
| `Jobs.OneLiveWorker` | internal/controller/job/jobs.go:36-110 | Over every interleaving with finishing workers, deletions and crashes: a worker that is not stopped is the registered one, every registered worker is live, at most one per application, and a start never overwrites a registered worker |
| `Jobs.StepKeepsInv` | internal/controller/job/jobs.go:36-110 | Every step keeps that invariant |
| `Jobs.JobRegistry.StopCurrent` | internal/controller/job/jobs.go:65-75 | In place: removes the entry and stops its worker |
| `Jobs.JobRegistry.StopJobWorker` | internal/controller/job/jobs.go:103-110 | In place: only the first stop takes effect, and it removes the entry only for the same job |
| `Jobs.JobRegistry.ExecuteJob` | internal/controller/job/jobs.go:36-51 | In place: the new worker is live and registered |
| `JobRuns.DeployRun.Run` | internal/controller/job/deploy_job.go:73-131 | Terminates, at the first cycle that deploys everything (if and only if that succeeds) or fails to synchronize, after a cycle that finds it stopped, or by timing out; every report before the last is an attempt given up for a timeout, and the last is the one of its ending unless stopped; a timeout means three attempts were used and strictly more than all timeouts together has passed |
| `JobRuns.DeployRun.RunSyncCycle` | internal/controller/job/deploy_job.go:94-131 | One cycle: what it reports, when it retries and when it ends |
| `JobRuns.UndeployRun.Run` | internal/controller/job/undeploy_job.go:67-151 | Terminates, at the first cycle that leaves nothing (if and only if that is reported Done), after a cycle that finds it stopped, or by giving up; one report per cycle, a synchronization error exactly for a failed one; giving up means all attempts were used, each reported as failed; the timeouts reported have passed |
| `JobRuns.UndeployRun.RunInner` | internal/controller/job/undeploy_job.go:89-117 | One cycle makes exactly one report, with code and reason by outcome, attempt and deadline |
| `JobRuns.UndeployRun.MaybeRetry` | internal/controller/job/undeploy_job.go:133-151 | A new attempt that starts at the next reading of the clock, or the failure report |
| `JobRuns.OperationRun.Run` | internal/controller/job/operational_job.go:62-119 | Watches exactly until the first poll with another target or bad health; reports exactly the healthy and progressing polls in order, then degraded without a target, progressing if the target differs, and the polled health otherwise |
| `JobRuns.OperationRun.RunInner` | internal/controller/job/operational_job.go:79-119 | One poll: whether it exits and what it reports |
| `Charts.ChartVersions.GetLatestFor` | internal/controller/sync/charts.go:237-261 | For every iteration order: an in-range version that no registered in-range version exceeds, in its numbers from left to right and then in its pre-release, found iff one exists |
| `Charts.ChartVersions.UpdateVersions` | internal/controller/sync/charts.go:212-221 | Adds exactly the fetched versions |
| `Charts.ChartVersions.PullVersion` | internal/controller/sync/charts.go:63-92 | A specific version iff registered, or the newest in range, after filling an empty index |
| `Charts.LatestUnique` | internal/controller/sync/charts.go:237-261 | Two choices of one index tie in precedence, whatever the iteration order |
| `Charts.NothingIsForgotten` | internal/controller/sync/charts.go:189-221 | Over any run of the index's operations (updates, and lookups that fill an empty index) what it holds only grows |
| `Charts.ChoiceNeverOlder` | internal/controller/sync/charts.go:212-261 | Over any such run the answer of GetLatestFor for a fixed range never gets older and once found stays found; it gets newer if and only if a newer version in range was registered in between |
| `Versions.NewerExactlyWhen` | internal/controller/types/chart.go:89-95 | Section 11 of Semantic Versioning 2.0.0: the larger major, then minor, then patch is newer; then a release than its pre-releases; these by the first different identifier, numeric by value and below texts, texts by character, a proper prefix older; equal means equal but for the metadata |
| `Versions.PrecedenceTransitive` | internal/controller/types/chart.go:89-95 | "Not newer" chains, and ends that tie force everything between to tie |
| `Versions.PrecedenceFlip` | internal/controller/types/chart.go:89-95 | Exactly one of newer, equal, older holds, and every version equals itself |
| `Versions.ToTextInjective` | internal/controller/types/chart.go:85-87 | The printed version determines every field, build metadata included |
| `Versions.PrintedExample` | internal/controller/types/chart.go:85-87 | The printed form by example |
| `RenderCache.KeyTextInjective` | internal/controller/sync/applications.go:557-559 | For legal names the key text determines chart key and instance |
| `RenderCache.SameKeyTextExactlyWhen` | internal/controller/sync/applications.go:557-559 | Slashes in chart names allowed: two keys share a text if and only if version and instance are the same and so is the repository URL followed by a slash and the chart name |
| `RenderCache.AmbiguousWithSlash` | internal/controller/types/chart.go:32-34 | For every chart name with a slash there is another key with the same text, as legal otherwise if the part before the slash has no comma |
| `RenderCache.Applications.GetOrRenderAppVersion` | internal/controller/sync/applications.go:117-162 | Hit or miss, the answer is what a fresh rendering gives for the application's repository, chart, version, namespace, name and values, field by field; the cache stays sound |
| `Deletion.DeleteApp` | internal/controller/sync/applications.go:323-375 | For every pattern of failures and iteration order: every listed rendered resource is asked for, then everything left exactly once; the failures are the requests that failed, Deleted + DeleteFailed = Total + resources left after the first pass; nothing is deleted twice; resources are reported present exactly when a request of the second pass failed, that is, when some are |
| `Deletion.DeleteRendered` | internal/controller/sync/applications.go:334-353 | The first pass asks for exactly the rendered resources that are listed, for one that stays as often as it is rendered; failures are the failed requests, everything else counts as deleted |
| `Deletion.DeleteRest` | internal/controller/sync/applications.go:355-371 | The second pass asks for everything left exactly once, in any order; what failed is what stays |
| `Deletion.Cleanup` | internal/controller/sync/applications.go:288-308 | Over all calls nothing is deleted twice and the failures add up; the first call alone decides whether resources are reported, and none reported means none left |
| `Deletion.OnceMeansDistinct` | internal/controller/sync/applications.go:334-371 | As many keys as positions is to say that any two positions hold different keys |
| `Health.IsDeployed` | internal/controller/local/application_bundle.go:100-115 | True exactly when every expected resource is live |
| `Health.DetermineState` | internal/controller/local/application_bundle.go:117-168 | The state of the expected resources, or an error |
| `Health.BundleStateIsWorst` | internal/controller/local/application_bundle.go:117-168 | That state is an error exactly if a check fails; otherwise it is no better than any resource's contribution, and healthy or one of them |
| `Health.AggregateStateIsWorst` | internal/controller/sync/health.go:13-57 | The aggregate is unknown if every check fails; otherwise no better than any successful contribution, and healthy or one of them |
| `Health.DegradedWins` | internal/controller/sync/health.go:13-57 | A degraded expected resource makes both states degraded or unknown |
| `Health.HealthOrder` | internal/controller/sync/health.go:41-46 | From healthy over suspended, progressing, missing and degraded to unknown each code is worse than the one before |
| `Health.ToResourceMap` | internal/controller/local/application_bundle.go:170-191 | The nested maps hold the first live resource of each kind and name |
| `Health.GetAggregatedStatus` | internal/controller/sync/health.go:13-57 | The single loop computes the fold that skips failing checks |
| `Health.AggregatorsAgree` | internal/controller/sync/health.go:13-57 | On aligned clusters whose checks succeed both aggregators agree if and only if the chart is not empty |
| `Health.NotDeployedIsMissing` | internal/controller/local/application_bundle.go:100-168 | A bundle that is not deployed is at least Missing |
| `Health.VersionsTellThemApart` | internal/controller/local/application_bundle.go:170-191 | A resource live under another API version is missing for the bundle only |

## Left out

- Converges: a reconciliation and a job cycle are one round each, without faults: every cycle makes progress and no attempt fails; the loss of a job is treated in `JobLoss`. The charts of the target and of a running deployment are not empty: the deployment of an empty one can only time out.
- Converges: an operation job looks up its target with the specification of the snapshot it was created from; in a round it gets the round's target.
- AtMostOneVersion: runs in which a deployment ends between a listing and its look into the job registry are left to `SafeRunKeepsVersions`, which covers them as long as no request is unsafe; `seen` in the protocol is a record of the model, not a value the code keeps.
- NoPanic: placements are only ever set to a list that is not empty, as the property is false otherwise.
- OneLiveWorker: stopping a worker (flag and cleanup) is one step and a stopped worker takes no further step; races inside `Stop` are not modelled.
- GetOrRenderAppVersion: the renderer is a deterministic function, repository URLs have no comma, chart names no '/' or ':', and names follow Kubernetes; the SHA-256 revision and the labels added after rendering are not modelled.
- GetLatestFor: the grammar of version ranges is a foreign library; a range is any predicate on versions.
- DetermineState: the messages are not modelled, nor are those of the aggregation.
- DeployRun.Run: a synchronization, a rendering or a health check is an outcome given from outside; so are the outcomes of `Cleanup` in `UndeployRun.Run`.
- OperationRun.Run: the context ends at a given poll; a job that is never stopped and always well polls forever.
- Api.ZoneStatus: the stored chart version is what its text parses to; unreadable and empty texts are the same, and two texts of one version (such as a leading "v") are not told apart.
- `sync` looks applications up by a version value that includes the original text; the model has no original text.
- Transition times are integers; the truncation to whole seconds in storage is not modelled.
- Resource versions are increasing integers; a resource version that does not parse, and 64-bit overflow, are not modelled.
- The cluster cache is current when it is listed, and resources without a version label are not listed by version.
- `LoadApplication`: its lookups succeed; `DetermineTargetVersion` returns no version and no error when its lookup fails, which the model does not reach.
- `splitResourcesByVersion`: grouping by label; a zone's resources carry their version from the start.
- Finalizers and the deletion of the object: `Deletion` and the `Delete` action of `Jobs` stand for them, the protocol has no such step.
- Mesh replication of the object between zones: one shared store. Ownership transfer: an empty job. Cross-zone placement decisions: steps from outside.
- `RetryAttempt` is never set by a job, so `MaxRetries` does not bound the number of jobs; no such bound is claimed.
- `JobsToRemove` is never set, and `GetNewerVersion` is not used.
- The background synchronization of chart repositories: the index may be updated at any time with any versions.
- The HTTP API, error contexts, configuration, logging, events, Helm templating, repository access, YAML and JSON, resource quantities: plumbing or foreign.
