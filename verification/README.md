# Control-plane protocols, verified

A Dafny model of the Gateway control plane: the protocols in which several workers act on stale reads and commit under
revision checks, the caches and queues beside them, and the two operator scripts that change shared cluster objects.
Each component is a state machine whose actions are single transactions, single external calls, crashes and steps of
the environment, in any order; what the repository promises is proved of every run, of any length. Code that the
repository writes step by step is also written that way: the methods of a class either equal the transaction
functions that the runs use, or are the run of the protocol that the outcomes of their calls determine. What a step does
is also stated without the step functions: from the state before it, or from the actions of the run alone.

`dafny verify dfyconfig.toml` checks the project.

| area | modules | main results |
|---|---|---|
| Gateway deletion | `GatewayRecord`, `GatewayStore`, `DeletionProtocol`, `DeletionSafety`, `DeletionProgress`, `Provisioning`, `Operations`, `Reconcilers` | a database exists only with its registered digest and its state namespace; state namespaces go last; cleanup settles in order and is announced once; from every reachable deleted state at most 650 fault-free steps finish, and from every other one at most 25 provide both databases |
| Grant synchronisation | `ScanCycle`, `GrantSync`, `GrantSafety`, `GrantHistory`, `GrantProgress`, `GrantLateWrites`, `GrantStore`, `IdentityWorker` | a published `GrantsSynchronized` means every user ever granted has exactly the computed role; exactly which late provider writes can ever break that; a bounded fault-free run always publishes |
| Account cleanup | `AccountCleanup`, `AccountMembers`, `AccountHistory`, `AccountProgress`, `AccountStore`, `AccountWorker` | a complete observation means the journal scope is sealed and every account row and journal key was deleted in the finished pass; a bounded fault-free run always completes |
| Sandbox counts | `SandboxCount`, `SandboxCache` | incremental counts equal a recount; a list rebuilds the same cache; no count change is lost |
| Process supervision | `TaskSupervisor`, `TaskHistory`, `HttpLifecycle`, `HttpServer` | join of every task with exactly the failing ones, no blocked sender, no deadlock; exact drain; conserved bounded diagnostics |
| Operator scripts | `EndpointChange`, `EndpointProgress`, `EndpointOperator`, `LiveLease`, `LeaseHistory`, `LeaseOperator` | nothing delivered before an approved observation; no patch once checked; exactly which stopped changes can be completed; holdings of the lease never overlap and are those that callers asked for |
| Grant views | `GrantViews` | the batched, memoised join is the row-by-row join, with bounded lookups and no repeated id |
| Relations | `Ownership`, `OwnershipStore`, `Placement`, `PlacementStore` | every live Gateway keeps an owner and its references; exactly when an unfinished cleanup loses its cluster |

Two promised properties are false of the code without a further condition. Both are kept as they are, with a reachable
state that breaks the property and the exact condition under which a step keeps it:

- A provider write whose reply was lost and that lands after a later clean scan leaves a published
  `GrantsSynchronized` wrong (`GrantLateWrites.LateWriteMisleads`). A lost write may land without ever misleading
  exactly when it says what the grants say now, or nothing published, stored or under way relies on its user
  (`GrantLateWrites.LateWriteExactly`); runs whose late writes are all of that kind keep the property
  (`GrantSafety.PublishedMeansSynced`).
- A Gateway can owe cleanup at a cluster whose row is gone: the cluster can be deleted once all three observations are
  complete, and a worker can then withdraw one of them (`Placement.CleanupReferenceCanBeLost`,
  `Placement.CleanupPlacedExactly`).

## Assumptions

- A transaction is one atomic action. `WithLockedResource` holds the row lock until commit and finds no deleted row.
- Work on one Gateway is serialised within one controller: one workload worker, one allocator and one identity worker.
  Account cleanup may have any number of workers, and the lease any number of contenders.
- A workload or allocator call has its effect, or not, before the worker's next step; its reply may be lost. The script
  and lease patches, and the identity provider's writes, may also land later.
- A failed provider call leaves a role that was already the requested one alone; any other role may be left anyhow.
- Caller permissions hold for every action.

## Model

| member | source | states |
|---|---|---|
| GatewayRecord.CleanupEffect | internal/gateways/deletion.go:48-130 | one accepted observation changes one owner only, raises the revision exactly when something changed, and keeps finalization and the `gateway.deleted` count in step with nothing pending |
| GatewayRecord.CleanupAccepted | internal/gateways/deletion.go:14-89 | an observation is accepted exactly at the current revision of a deleted row, with the right target, and for a complete `sql` with the console evidence |
| GatewayRecord.CleanupOutcome | internal/gateways/deletion.go:48-130 | an accepted one leaves exactly its own owner changed, finalization with the last owner, one `Deleted` or `Updated` event per change, and a revision for each write |
| GatewayRecord.CompletionIdempotent | internal/gateways/sql_state.go:126-180 | completing console cleanup again returns the same store, and what it leaves is the evidence that a complete `sql` observation needs |
| GatewayStore.Retained.RecordCleanup | internal/gateways/deletion.go:14-130 | the statements leave the specified store and event, or fail with no change, and succeed exactly for a current, deleted, rightly targeted and proven observation |
| GatewayStore.Retained.PendingCleanup | internal/gateways/deletion.go:108-112 | the pending list names exactly the owners that are not done, and is empty exactly when all are |
| GatewayStore.Retained.ObserveCleanupIfVersion | out/storage/versions.go:173-209 | marks one owner and raises the revision of a deleted row at exactly this revision; any other row is refused without change |
| GatewayStore.Retained.FinalizeDeletionIfVersion | out/storage/versions.go:148-169 | finalizes only a deleted, complete and not yet finalized row at exactly this revision; any other is refused without change |
| GatewayStore.Retained.BindSQLState | internal/gateways/sql_state.go:89-112 | succeeds exactly for a live row at the named cluster and revision without another or closed digest, and leaves that digest registered and open |
| GatewayStore.Retained.CloseSQLState | internal/gateways/sql_state.go:117-180 | succeeds exactly for a deleted row at its cluster, and closes that registration on the digest it had |
| GatewayStore.Retained.CompleteConsoleSQLCleanup | internal/gateways/sql_state.go:123-180 | needs a closed console registration, records the closed completion of its digest, and repeats without change |
| DeletionSafety.ApplyKeepsInv | internal/gatewayworkload/controller.go:127-240 | every action of user, workers, allocator, environment and crash keeps the deletion invariant, whatever stale read a worker holds |
| DeletionSafety.RunKeepsInv | internal/namespaceallocation/controller.go:90-229 | the invariant holds over every run |
| DeletionSafety.EnsureKeepsOk | internal/gatewayworkload/kubernetes.go:136-178 | each step of an ensure, however stale, keeps every database backed by its digest and state |
| DeletionSafety.RegisterKeepsOk | internal/gatewayworkload/database.go:131-180 | registration ties the digest to the retained Secret before a database can be created |
| DeletionSafety.DropKeepsOk | internal/gatewayworkload/console_database.go:167-196 | each step of SQL cleanup keeps the evidence that later steps and the commit rely on |
| DeletionSafety.CloseKeepsOk | internal/gatewayworkload/kubernetes.go:319-338 | closing a registration keeps its database reachable until it is dropped |
| DeletionSafety.RemoveKeepsOk | internal/namespaceallocation/controller.go:119-166 | each step of a removal keeps the order of namespaces |
| DeletionSafety.CommitKeepsOk | internal/gateways/deletion.go:90-130 | an observation committed at a stale or current revision keeps the invariant |
| DeletionSafety.DatabasesAreBacked | internal/gatewayworkload/kubernetes.go:167-178 | on every run a per-Gateway or console database exists only with a registered digest and a live state namespace holding its Secret |
| DeletionSafety.StateNamespacesGoLast | internal/namespaceallocation/controller.go:140-166 | when a state namespace is asked to go, both databases are dropped, both registrations are closed and `sql` is complete |
| DeletionSafety.StateRemovedByAllocator | internal/namespaceallocation/controller.go:152-166 | only the last two removal steps can take a state namespace out of service |
| DeletionSafety.StepOrdered | internal/gateways/deletion.go:48-130 | in each step `sql` never reverts, `workload` completes only after `sql`, `allocation` only after both with all namespaces gone, finalization only with nothing pending, and the deleted event accompanies exactly the finalization |
| DeletionSafety.RunsSettle | internal/gateways/deletion.go:112-125 | over every continuation deletion, `sql` completion and finalization stay, and the deleted event stands exactly once from finalization on |
| DeletionSafety.DeletionFreezesDigests | internal/gateways/sql_state.go:97-112 | no action gives a binding a digest after deletion |
| DeletionSafety.BindingsNeverChange | out/storage/effects.go:146-228 | no action changes a registered digest or reopens a closed registration |
| DeletionSafety.CompleteSqlProvesConsole | internal/gateways/deletion.go:71-89 | on every run a complete `sql` target leaves no console digest without a closed binding and a closed completion of the same digest |
| DeletionSafety.ConsoleCompletionIdempotent | internal/gateways/sql_state.go:123-180 | on every run a second console completion changes nothing |
| DeletionProgress.RankFalls | internal/gatewayworkload/controller.go:153-178 | from every reachable deleted and unfinalised state the chosen fault-free action lowers a measure over namespaces, pending owners and operations in progress |
| DeletionProgress.WorkerFalls | internal/gatewayworkload/controller.go:153-178 | each fault-free worker step lowers the measure, a withdrawn observation included |
| DeletionProgress.AllocatorFalls | internal/namespaceallocation/controller.go:115-196 | each fault-free allocator step lowers the measure, a stale allocation included |
| DeletionProgress.StartFalls | internal/namespaceallocation/controller.go:115-196 | with nothing under way, the operation started next is one that will succeed |
| DeletionProgress.FinishReachesFinalization | internal/gateways/deletion.go:112-125 | the fault-free run, no longer than the measure, reaches finalization |
| DeletionProgress.DeletionCanFinish | internal/gateways/deletion.go:112-125 | however a run began, at most 650 further fault-free actions finalize a deleted Gateway |
| Provisioning.ProvisioningCanFinish | internal/gatewayworkload/kubernetes.go:136-178 | however a run began, a Gateway not deleted has both databases on open registrations and stored Secrets after at most 25 fault-free actions that leave its row alone |
| Provisioning.EnsureActs | internal/gatewayworkload/database.go:131-215 | inside the protocol, an ensure without faults registers the kept or new Secret and creates the database, and touches nothing else |
| Provisioning.AllocationActs | internal/namespaceallocation/controller.go:197-229 | an allocation without faults makes each namespace it names live and keeps those that are |
| Provisioning.AllocateActs | internal/namespaceallocation/controller.go:197-229 | one allocation call waits for a terminating namespace, creates an absent one, and goes on in the order state, console state, Gateway, sandbox |
| Provisioning.SandboxAlwaysAsked | internal/namespaceallocation/controller.go:119-140 | the sandbox namespace is asked to go whatever became of the other request |
| Provisioning.CheckActs | internal/gatewayworkload/controller.go:163-178 | a workload check without faults observes exactly whether both workload namespaces are gone, and withdraws what no longer holds |
| Provisioning.OpenNamesDigest | internal/gateways/sql_state.go:89-112 | on every run an open registration names a digest |
| Provisioning.LostReplyHasEffect | internal/gatewayworkload/kubernetes.go:154-178 | whatever the step, a call whose reply was lost leaves what a successful one leaves, and a failed one leaves nothing |
| Provisioning.LostRequestHasEffect | internal/namespaceallocation/controller.go:119-166 | the same of every allocator step |
| Provisioning.FaultsNeverCountAsSuccess | internal/gatewayworkload/kubernetes.go:307-338 | a worker step that met a fault ends its operation or takes away its right to record success, for good |
| Provisioning.FailedRequestsNeverComplete | internal/namespaceallocation/controller.go:119-166 | a removal that met a fault never records allocation as complete |
| Provisioning.DeletedExactlyWhenAsked | internal/gateways/mutations.go:168-187 | on every run the row is deleted exactly if the user asked for it |
| Provisioning.UserDeleteActs | internal/gateways/mutations.go:168-187 | the request deletes the row once, with every observation pending, and changes nothing else |
| Provisioning.OthersAct | out/deploy/allocation/allocation.go:731-836 | a live row can change under a worker, a terminating namespace goes, and a crash loses one operation and nothing else |
| Reconcilers.Workload.EnsureDatabase | internal/gatewayworkload/kubernetes.go:154-178 | the statements of an ensure; without faults, of a live Gateway that is ready they leave the database, its digest registered and the Secret with that digest, and of any other nothing |
| Reconcilers.Workload.DropDatabase | internal/gatewayworkload/kubernetes.go:334-338 | the named state leads to the database, or the component fails and cleanup stays pending |
| Reconcilers.Workload.DeleteComponent | internal/gatewayworkload/console_database.go:167-196 | close, read, drop and, for the console, record; a failure keeps the observation pending |
| Reconcilers.Workload.DeleteDatabase | internal/gatewayworkload/kubernetes.go:307-318 | waits for both workload namespaces, attempts both components, and records only a clean pass; without faults both databases are gone, all registrations closed and `sql` complete |
| Reconcilers.NamespaceAllocator.Delete | out/deploy/allocation/allocation.go:731-836 | one request turns a live namespace terminating, and is done only if the namespace was already absent |
| Reconcilers.NamespaceAllocator.Remove | internal/namespaceallocation/controller.go:119-196 | both runtime namespaces are requested together; state namespaces only with complete SQL and workload history |
| Operations.EnsureRestIsRun | internal/gatewayworkload/kubernetes.go:136-178 | an uninterrupted ensure is a run of the protocol |
| Operations.EnsureCreates | internal/gatewayworkload/database.go:131-215 | an uninterrupted ensure without faults ends with the database on the kept or new Secret and its digest registered, and the rest of the world as it was |
| Operations.EnsureRefuses | internal/gatewayworkload/kubernetes.go:136-178 | of a live Gateway that is not ready for it, an ensure without faults changes nothing |
| Operations.EnsureOnOldRead | internal/gateways/sql_state.go:89-112 | an ensure on an old read, or on a row deleted since, registers nothing and creates no database |
| Operations.DropsEverything | internal/gatewayworkload/kubernetes.go:307-338 | an uninterrupted SQL cleanup without faults waits for the workload namespaces, and otherwise drops both databases, closes everything on its own digest and completes `sql` |
| Operations.GatewayStillDropped | internal/gatewayworkload/kubernetes.go:307-318 | however the console half of a cleanup fails, the Gateway half follows and drops its own database |
| Operations.DropNeedsState | internal/gatewayworkload/kubernetes.go:319-338 | cleanup drops a database exactly when it could read the state that the closed registration names, and otherwise goes on without the right to record success |
| Operations.RemoveActs | internal/namespaceallocation/controller.go:119-196 | an uninterrupted removal without faults asks exactly the namespaces it may to go, and observes allocation exactly when all are gone with complete history |
| Operations.DropRestIsRun | internal/gatewayworkload/kubernetes.go:307-338 | an uninterrupted SQL cleanup is a run of the protocol |
| Operations.RemoveRestIsRun | internal/namespaceallocation/controller.go:119-196 | an uninterrupted removal is a run of the protocol |
| ScanCycle.Resume | out/controller/cycle.go:222-227 | a pass continues exactly an unfinished cycle of its own source and otherwise starts clean |
| ScanCycle.CoversRest | out/controller/scan.go:96-152 | moving the cursor past one item of an ordered page leaves no key behind |
| ScanCycle.NextPage | out/storage/cursor.go:65-91 | a full read returns the next keys in order, up to the limit, and says exactly whether any are left |
| ScanCycle.PageLeaves | out/storage/cursor.go:65-91 | moving past a page leaves exactly as many keys fewer as the page held |
| GrantSafety.StepKeepsInv | internal/gatewayidentity/controller.go:210-266 | grant writes, reads, stale and failed provider writes, saves and crashes keep the evidence invariant |
| GrantSafety.ResetKeepsInv | internal/gateways/identity_cycle.go:143-165 | a grant change clears the checkpoint and the condition with itself, so no worker keeps evidence from before it |
| GrantSafety.AdvanceKeepsEvidence | out/controller/cycle.go:252-276 | the cursor moves past one item, and only that item's user can be newly vouched for |
| GrantSafety.EndPageKeepsOk | out/controller/scan.go:141-149 | only past the last page, and before the deadline, is a cycle complete, and then it vouches for every user |
| GrantSafety.ReadUserKeepsOk | internal/gateways/identity_users.go:62-125 | the role read for a user is the one computed from the grants that the checkpoint still covers |
| GrantSafety.WriteKeepsOk | internal/gatewayidentity/controller.go:244-258 | a write of the current role settles its user and disturbs none; a write of an outdated role finds no evidence to spoil |
| GrantSafety.SaveKeepsOk | internal/gateways/identity_cycle.go:61-139 | a saved cycle carries its evidence, and only a complete one without failure publishes True |
| GrantSync.SaveNeverRegresses | internal/gateways/identity_cycle.go:71-139 | an accepted save matched generation, revision and checkpoint version, and keeps cursor and failure of its cycle |
| GrantSync.RoleIsUnion | internal/gateways/identity_users.go:101-116 | a user with a live owner grant is Owner, one with a live viewer grant only is Viewer, any other has no role |
| GrantHistory.RoleFollowsCalls | internal/gateways/identity_users.go:101-116 | on every run the computed role follows from the create and delete calls alone |
| GrantHistory.GrantsFollowCalls | internal/gateways/grants.go:24-196 | on every run each grant is exactly what the calls about it left: the first create counts and a delete is final |
| GrantHistory.GenerationCountsUpdates | internal/gateways/identity_cycle.go:61-139 | the generation counts the spec changes, and nothing else moves it |
| GrantHistory.GrantChangeUnpublishes | internal/gateways/identity_cycle.go:143-165 | only grant calls change a grant, and each such change takes back publication and stored evidence at once |
| GrantHistory.FailuresAreKept | internal/gatewayidentity/controller.go:244-258 | a failed read or write marks its cycle, and the mark stays for the rest of the pass |
| GrantHistory.WriteEnds | out/controller/cycle.go:252-276 | a fatal error leaves the cursor before its item, any other outcome moves it past |
| GrantHistory.WriteActs | internal/gatewayidentity/controller.go:244-258 | a successful write leaves its role; a failed one leaves a right role alone, may leave any other anyhow, and can still land |
| GrantHistory.CrashForgets | internal/gatewayidentity/controller.go:210-266 | a crash ends the pass without a save, and its open write can still land |
| GrantHistory.StopKeepsCycle | out/controller/scan.go:96-152 | a pass that runs out of time goes on to its save with the cursor and failures it has |
| GrantSafety.LateWriteKeepsInvExactly | internal/gatewayidentity/controller.go:244-258 | the evidence invariant survives a late write exactly when the write is harmless |
| GrantSafety.RunKeepsInv | internal/gatewayidentity/controller.go:210-266 | the invariant holds on every run whose late writes land harmlessly |
| GrantSafety.PublishedMeansSynced | internal/gateways/identity_cycle.go:61-165 | on every such run a published condition means every user ever granted has exactly the computed role |
| GrantLateWrites.LateWriteExactly | internal/gatewayidentity/controller.go:244-258 | after any such run, every continuation publishes only the truth exactly when the late write is harmless |
| GrantLateWrites.HarmfulPublishes | internal/gatewayidentity/controller.go:244-258 | from a wrong role that something relies on, a continuation without grant changes publishes it |
| GrantLateWrites.NextKeepsDoomed | internal/gatewayidentity/controller.go:210-266 | the scan that relies on a wrong role does not write its user again before it publishes |
| GrantLateWrites.LateWriteMisleads | internal/gatewayidentity/controller.go:244-258 | a reachable published state that a late write makes wrong |
| GrantProgress.RankFalls | internal/gatewayidentity/controller.go:210-266 | until the condition is published, the next fault-free step lowers a measure over grants still to pass and failures still to repeat |
| GrantProgress.SavedUnits | internal/gateways/identity_cycle.go:71-139 | a pass at the stored revisions is always accepted and leaves in the row what it had left to do |
| GrantProgress.ScanCanPublish | internal/gatewayidentity/controller.go:210-266 | however a run began, at most 36 fault-free steps a grant and 53 more publish at the current generation |
| GrantLateWrites.ScanCanPublishTruth | internal/gateways/identity_cycle.go:61-165 | after a run with harmless late writes only, that publication is true |
| GrantSync.PassIsBounded | internal/gatewayidentity/controller.go:258-266 | one pass reads at most 100 pages of at most 100 grants |
| GrantStore.LiveGateway.SaveIdentityScanCycle | internal/gateways/identity_cycle.go:61-139 | the statements of the save: accepted only against the loaded generation, revision and version, it stores the cycle and publishes exactly by its failure and completion |
| GrantStore.LiveGateway.ResetIdentityCycle | internal/gateways/identity_cycle.go:143-165 | the statements of the reset: empty cursor, higher version, condition Unknown |
| GrantStore.LiveGateway.WriteGrantCondition | internal/gateways/identity_cycle.go:188-205 | writes only a differing condition and says whether it did |
| GrantStore.LiveGateway.CreateGrant | internal/gateways/grants.go:24-90 | a valid new grant is stored live in one change with the empty cursor and the condition withdrawn; any other call changes nothing |
| GrantStore.LiveGateway.DeleteGrant | internal/gateways/grants.go:162-196 | a live grant is revoked in place in one change with the empty cursor and the condition withdrawn; any other call changes nothing |
| GrantStore.LiveGateway.IdentityUserState | internal/gateways/identity_users.go:62-125 | Owner exactly with a live owner grant, Viewer exactly with a live viewer grant and no owner grant, none otherwise |
| IdentityWorker.Controller.ReconcileUsers | internal/gatewayidentity/controller.go:210-266 | the loops over pages, whatever their calls come to, are a run of the protocol; a pass that nothing disturbs reaches the end, publishes, and leaves every user it passed at the computed role |
| IdentityWorker.Controller.PageEnds | out/controller/scan.go:141-149 | the deadline is looked at after the last item and before the page counts as done; only past the last page is the cycle complete |
| IdentityWorker.Controller.EmitPage | internal/gatewayidentity/controller.go:240-258 | each new user of a page is read and written once; when no call fails the cursor stands at the last item, no failure is added and every user of the page has the computed role |
| IdentityWorker.Controller.PassPage | out/controller/scan.go:96-152 | one page read, its items and its end: a malformed page ends the pass, a good one advances it to the next cursor |
| IdentityWorker.Controller.EmitUser | internal/gatewayidentity/controller.go:244-258 | the role read is the role written, exactly a failed read or write fails, and only a fatal failure ends the pass |
| IdentityWorker.Controller.Commit | out/controller/cycle.go:295-307 | only a changed cycle whose save is reached is stored, against what the pass loaded |
| AccountCleanup.StepKeepsInv | internal/serviceaccounts/gateway_recovery.go:27-154 | every step of any number of workers, of journal saves and of other observations keeps the evidence invariant |
| AccountCleanup.PageEvidence | out/controller/cycle_parallel.go:70-207 | the accepted prefix of a serial or parallel page, without a failure, was deleted item by item |
| AccountCleanup.PageOutcome | out/controller/cycle_parallel.go:185-207 | the cursor follows the last item of the accepted prefix, partial or whole, the failure is set exactly by a failed item or before, and only a whole last page completes |
| AccountCleanup.CleanedExactly | out/controller/cycle_parallel.go:70-207 | an item counts as deleted exactly when its own action succeeded |
| AccountCleanup.SaveKeepsOk | internal/serviceaccounts/gateway_checkpoint.go:21-63 | a compare-and-swap save stores only evidence of the revision it names |
| AccountCleanup.FinishKeepsOk | internal/serviceaccounts/gateway_recovery.go:136-154 | sealing and recording commit together or not at all |
| AccountCleanup.CompleteMeansCleaned | internal/serviceaccounts/gateway_recovery.go:50-154 | on every run a complete `accounts` observation means the scope is sealed at the revision the pass named and every account row and journal key was deleted in that pass |
| AccountCleanup.CommitSealsNamedRevision | internal/serviceaccounts/gateway_recovery.go:136-154 | a completing transaction commits exactly when membership and row revisions are those read before the scan, and then seals, records and covers every item |
| AccountCleanup.OnlyFailureWithdraws | internal/serviceaccounts/gateway_recovery.go:124-135 | a clean partial pass leaves a sealed completion; a failed pass withdraws it |
| AccountHistory.OnlyDeletesEnterEvidence | internal/serviceaccounts/gateway_recovery.go:107-119 | in any step an item joins a worker's evidence only by its own successful provider delete or with the checkpoint of the same revision |
| AccountHistory.HistoryStep | internal/serviceaccounts/gateway_recovery.go:101-154 | loads, saves and completion carry evidence only under one membership revision |
| AccountHistory.CompleteMeansDeleted | internal/serviceaccounts/gateway_recovery.go:50-154 | on every run with a complete observation, each account row and journal key was successfully deleted by an earlier page at the revision that completion named |
| AccountMembers.AccountsFollowCalls | internal/serviceaccounts/gateway_recovery.go:50-106 | on every run an account is to be cleaned exactly if it was added before the Gateway was deleted |
| AccountMembers.JournalsFollowCalls | internal/gateways/account_provider_state.go:117-139 | on every run a journal is to be cleaned exactly if a save of it was permitted while the scope was open |
| AccountMembers.RevisionCountsJournals | out/storage/resource_state_scopes.go:115-163 | the membership revision is the number of journal keys that ever joined, and one more for the seal |
| AccountMembers.CompleteNeedsCleanInventory | internal/serviceaccounts/gateway_inventory.go:22-66 | on every run a complete observation was committed by a worker that had before found the provider inventory clean |
| AccountMembers.StepDecides | internal/serviceaccounts/gateway_recovery.go:120-154 | only a clean inventory decides for completion, and only the closing transaction of that worker records one |
| AccountMembers.InventoryDecides | internal/serviceaccounts/gateway_recovery.go:120-135 | the inventory decides for completion exactly if it was clean, and for an error exactly if it failed |
| AccountMembers.StepMovesCheckpoint | internal/serviceaccounts/gateway_checkpoint.go:21-63 | only a save moves the checkpoint, to the next version, and it never drops the failure of an unfinished cycle |
| AccountMembers.OthersObserve | internal/gateways/deletion.go:14-130 | the observations of the other owners reach the row and leave the accounts, items, scope and checkpoint alone |
| AccountMembers.WorkersComeAndGo | internal/serviceaccounts/gateway_recovery.go:27-49 | a recovery begins only for a deleted Gateway, and a crash ends it without touching the world |
| AccountProgress.RecoveredMoves | internal/serviceaccounts/gateway_recovery.go:27-154 | one recovery without faults completes the observation or leaves fewer items, with row and scope unchanged |
| AccountProgress.RecoveryRuns | internal/serviceaccounts/gateway_recovery.go:27-154 | that recovery is a run of the protocol of at most seven steps, whatever other workers stand open |
| AccountProgress.CleanupCanComplete | internal/serviceaccounts/gateway_recovery.go:27-154 | however a run began, once deleted at most 14 fault-free steps an item and 14 more commit a complete observation |
| AccountCleanup.SealedScopeIsClosed | internal/gateways/account_provider_state.go:117-139 | once sealed, no continuation adds an account row or journal key |
| AccountStore.JournalScope.SaveResourceState | internal/gateways/account_provider_state.go:117-139 | succeeds exactly for a known key or an open scope, adds that key, and raises the revision exactly for a new one |
| AccountStore.JournalScope.Finish | out/storage/resource_state_scopes.go:115-163 | the statements of the closing transaction; a refusal leaves nothing |
| AccountStore.CollectPage | out/controller/cycle_parallel.go:188-207 | the collected prefix, failure and deletions are those of the outcomes |
| AccountWorker.Recoverer.RecoverGatewayCleanup | internal/serviceaccounts/gateway_recovery.go:27-155 | one recovery is the run of the protocol that its calls determine; a reported completion was committed with its seal, after a clean inventory |
| AccountWorker.Recoverer.CleanPage | internal/serviceaccounts/gateway_recovery.go:107-119 | one page of deletes leaves the cursor at the last item of its accepted prefix and keeps failures; a malformed page changes nothing and is an error |
| AccountWorker.Recoverer.SaveCycle | internal/serviceaccounts/gateway_checkpoint.go:21-63 | stores exactly a changed cycle at the loaded version; a refused or unconfirmed save is an error, and only a clean complete pass goes on |
| SandboxCount.BumpIsRecount | internal/sandboxcount/state.go:114-129 | changing one count by one is a recount of the new Pods, and exactly that namespace moved |
| SandboxCount.RebuildIsIdentity | internal/sandboxcount/state.go:59-77 | one list of the cached Pods, in any order, rebuilds the same Pods and counts |
| SandboxCount.CountsBounded | internal/sandboxcount/state.go:104-113 | every count is between 1 and the object limit |
| SandboxCount.MovedIsDifference | internal/sandboxcount/state.go:114-129 | the listed namespaces are those whose count differs |
| SandboxCount.CanonicalOfGateway | internal/sandboxcount/state.go:35-40 | both namespaces of sixteen hexadecimal digits are counted under the Gateway namespace of the same digits |
| SandboxCount.CanonicalOfOther | internal/sandboxcount/state.go:35-40 | no other namespace is counted |
| SandboxCount.ClassifyCounts | internal/sandboxcount/state.go:27-46 | an identified object counts for a namespace exactly if it is labelled, Pending or Running, and in one of its two namespaces |
| SandboxCount.EventCounts | internal/sandboxcount/state.go:87-131 | an accepted event moves the count of its own namespace by what it says of its own Pod, and no other count |
| SandboxCount.EventOutcome | internal/sandboxcount/state.go:87-113 | an event is refused for one of four reasons, and otherwise leaves exactly its own Pod as it says |
| SandboxCount.ListCounts | internal/sandboxcount/state.go:59-66 | an accepted list of different Pods caches exactly those and is counted object by object |
| SandboxCount.Rebuild | internal/sandboxcount/state.go:59-66 | a list that is accepted stays within the limits and touches only namespaces of its Pods |
| SandboxCache.Observation.Update | internal/sandboxcount/state.go:87-131 | an event fails for one of four reasons before any change, or leaves a recount moved by exactly what it says, and lists exactly the namespaces whose count it moved |
| SandboxCache.Observation.Recount | internal/sandboxcount/state.go:114-129 | the counting half: counts equal the recount, and the queue limit is reported after the change |
| SandboxCache.Observation.Place | internal/sandboxcount/state.go:92-113 | the caching half with its errors, duplicates and limit |
| SandboxCache.Observation.Consume | internal/sandboxcount/state.go:47-86 | after any event, failed or not, counts are a recount and no moved count is unlisted; any error leaves the cache not ready |
| SandboxCache.Observation.ReplaceAll | internal/sandboxcount/state.go:59-77 | a list replaces the cache as a whole or not at all |
| SandboxCache.Observation.ReadList | internal/sandboxcount/state.go:59-66 | reading a list fails exactly when the list does |
| SandboxCache.Observation.Drain | internal/sandboxcount/controller.go:114-117 | every namespace moved since the last drain is in the drained set |
| SandboxCache.Controller.Observe | internal/sandboxcount/controller.go:94-126 | an event is consumed exactly when ready and not refused; one that does not enqueue its namespace moved no count since the last drain, and one that does is a list or found a moved count |
| SandboxCache.Controller.Reset | internal/sandboxcount/controller.go:102-109 | a reset starts an empty cache that is not ready |
| SandboxCache.Controller.Remove | internal/sandboxcount/controller.go:97-101 | a removed watch drops its cache |
| TaskSupervisor.ReturnsWhenJoined | out/main.go:526-569 | the supervisor returns only after every started task has ended, with exactly the failing tasks, each once |
| TaskHistory.ResultsAreOwn | out/main.go:533-556 | each result is how its own running task ended, with what that task then saw of the two contexts |
| TaskHistory.FailureNames | out/main.go:538-554 | what the joined error says: aborted, stopped before cancellation, or the returned error, and nothing for a task that ended with its cancellation |
| TaskHistory.CancelledExactly | out/main.go:526-568 | from the actions alone: who is cancelled, whether the supervisor has begun, and that it starts nothing exactly if its first look came after a cancellation |
| TaskSupervisor.CancelledBeforeStart | out/main.go:527-531 | cancelled at the start, it returns no failure and starts no task |
| TaskSupervisor.SendersNeverBlock | out/main.go:532-556 | a task ready to send always finds room in the queue |
| TaskSupervisor.FailureCancelsRest | out/main.go:561-568 | a received failure cancels the rest; a clean return of started tasks needs the parent's cancellation |
| TaskSupervisor.StepsRunOut | out/main.go:533-568 | every effective step lowers a finite measure |
| TaskSupervisor.NeverStuck | out/main.go:533-568 | until it returns, the supervisor can go on, a task can deliver, or a task body still runs |
| HttpLifecycle.DrainedExactly | out/main.go:285-312 | on every run the counter is the number of running handlers, and the channel is closed once, exactly when stopped and empty |
| HttpLifecycle.RunningFollowsCalls | out/main.go:285-301 | from the calls alone: a handler runs exactly if its request entered before any stop and has not left since |
| HttpLifecycle.ClosedExactlyWhenLeft | out/main.go:294-318 | the channel is closed exactly once the server was stopped and every admitted request has left |
| HttpLifecycle.DrainIsFinal | out/main.go:304-324 | after the close no handler runs and none is ever admitted |
| HttpLifecycle.LeavesDrain | out/main.go:294-301 | once the running handlers of a stopped server leave, the channel is closed |
| HttpLifecycle.DiagnosticsConserved | out/main.go:382-432 | on every run writes equal queued plus consumed plus dropped within the bound, nothing is sent on a closed queue, and `done` closes at most once |
| HttpLifecycle.DiagnosticsFollowCalls | out/main.go:382-432 | every write is counted, and the log is closed exactly if it was asked to close |
| HttpLifecycle.WriteOutcome | out/main.go:382-413 | a write is dropped exactly by a closed or full log of 256, and queued otherwise |
| HttpLifecycle.WorkerOutcome | out/main.go:391-406 | the worker takes what is queued whether or not the log is closed, and ends exactly at a closed and empty queue |
| HttpLifecycle.CloseFinishes | out/main.go:391-424 | after a close the worker needs only the queued events to end |
| HttpServer.RequestTracker.Enter | out/main.go:285-293 | a stopped server refuses and changes nothing; an admitted handler is running and counted |
| HttpServer.RequestTracker.Leave | out/main.go:294-301 | a leaving handler is no longer running or counted; the channel is closed exactly when the last one of a stopped server has left |
| HttpServer.RequestTracker.Drain | out/main.go:304-318 | stops the server; a nil result at once means exactly that no handler is running |
| HttpServer.RequestTracker.Await | out/main.go:319-324 | a waiting drain ends with nil only when no handler runs, with its error only after its deadline, and otherwise waits |
| HttpServer.DiagnosticLog.Write | out/main.go:382-413 | queues an event exactly while open and below 256, and otherwise counts one drop |
| HttpServer.DiagnosticLog.Turn | out/main.go:391-406 | the worker takes the oldest event, and ends exactly at a closed, empty queue |
| HttpServer.DiagnosticLog.Close | out/main.go:415-425 | closes the queue of a started worker, or `done` if it never started, and keeps what is queued |
| EndpointChange.StepKeepsInv | scripts/change-gateway-endpoint.py:134-186 | every request, file write, crash, late patch and foreign write keeps the journal invariant |
| EndpointChange.AfterOnlyIfPatching | scripts/change-gateway-endpoint.py:157-168 | unless another writer stored it, the replacement is in force only once the journal reached `patching` |
| EndpointChange.NoPatchOnceChecked | scripts/change-gateway-endpoint.py:157-176 | once `checking` was saved, neither the script nor a patch in flight changes the policy |
| EndpointChange.JournalMovesOn | scripts/change-gateway-endpoint.py:134-186 | the journal moves on one phase at a time, except that a repeated check takes `delivering` back to `checking` |
| EndpointChange.CompleteMeansDelivered | scripts/change-gateway-endpoint.py:178-186 | a complete journal has delivered manifest and acknowledgement |
| EndpointChange.DeliveredOnlyApproved | scripts/change-gateway-endpoint.py:172-186 | manifest and acknowledgement follow an observation of the replacement type-checked without warnings at its own generation, which the acknowledgement names |
| EndpointChange.HistoryStep | scripts/change-gateway-endpoint.py:134-186 | each step keeps deliveries tied to an approved observation |
| EndpointProgress.StepPatches | scripts/change-gateway-endpoint.py:157-168 | a step from `prepared` or `patching` on the original policy saves `patching` and stores the replacement at a new version and generation, also when the reply is lost |
| EndpointProgress.ApprovedCompletes | scripts/change-gateway-endpoint.py:171-186 | an approved observation is recorded, delivered, acknowledged by its own generation, and the journal completed |
| EndpointProgress.UnapprovedStops | scripts/change-gateway-endpoint.py:171-177 | an observation the server has not approved is recorded as checked and delivers nothing |
| EndpointProgress.ChangeCompletesExactly | scripts/change-gateway-endpoint.py:134-186 | a change at rest can be completed without another writer exactly if the installed policy stands and agrees with the journal, and then within 13 fault-free actions |
| EndpointProgress.StuckStays | scripts/change-gateway-endpoint.py:151-168 | no run without another writer gets any other change to completion |
| EndpointProgress.StartNeedsRequest | scripts/change-gateway-endpoint.py:122-150 | a step needs an unfinished journal, the request of the Pod and the checks around it, and takes up the saved phase |
| EndpointProgress.LatePatchLands | scripts/change-gateway-endpoint.py:39-46 | a patch under way lands once, and only on the identity and version it tests for |
| EndpointProgress.OthersWrite | scripts/change-gateway-endpoint.py:151-171 | every write of another party gives the policy a new version and leaves the script and its deliveries alone |
| EndpointProgress.OthersReplace | scripts/change-gateway-endpoint.py:151-154 | a removed policy can only be replaced by another identity, and a crash loses nothing but the script |
| EndpointOperator.Change.Prepare | scripts/change-gateway-endpoint.py:122-132 | saves `prepared` exactly for a guarded original policy without a journal |
| EndpointOperator.Change.Step | scripts/change-gateway-endpoint.py:134-186 | the statements of one step are exactly the run of the protocol with the faults they meet, until a fault or a check ends it |
| EndpointOperator.Change.Patch | scripts/change-gateway-endpoint.py:39-46 | a patch applies to the tested identity and version as a whole, or not at all; a lost reply has its effect and a late one stays under way |
| LiveLease.StepKeepsInv | scripts/jshell_live_lock.py:26-68 | stale reads, lost and late patches and other writers keep the lease invariant |
| LiveLease.CommitKeepsLog | scripts/jshell_live_lock.py:36-42 | a patch that passes its tests extends an alternating history |
| LiveLease.HoldingsNeverOverlap | scripts/jshell_live_lock.py:26-42 | between two committed acquires stands the release of the first by its own holder |
| LiveLease.ReleaseOnlyByHolder | scripts/jshell_live_lock.py:56-68 | a committed release answers the acquire before it, and its Job check fell inside that holding |
| LiveLease.LeaseShowsHolder | scripts/jshell_live_lock.py:30-32 | the lease names a holder exactly while the last commit is that holder's acquire |
| LiveLease.AbsenceIsObserved | scripts/jshell_live_lock.py:60-62 | a recorded absence was a check that found no such Job |
| LeaseHistory.CommitsWereAsked | scripts/jshell_live_lock.py:26-68 | on every run each committed acquire names the holder and Job, and each release the holder, of a caller that asked for it |
| LeaseHistory.AcquireActs | scripts/jshell_live_lock.py:26-42 | an undisturbed acquire takes exactly a free lease, for its own holder and Job |
| LeaseHistory.ReleaseActs | scripts/jshell_live_lock.py:56-68 | an undisturbed release frees exactly the lease of its holder whose Job is not live |
| LeaseHistory.StalePatchIsRefused | scripts/jshell_live_lock.py:36-42 | a patch built on an older version changes nothing |
| LeaseHistory.LatePatchLands | scripts/jshell_live_lock.py:36-42 | a patch still under way at an unchanged version lands with its own holder and Job |
| LeaseHistory.SendEnds | scripts/jshell_live_lock.py:15-20 | a prepared patch ends without effect, still under way, or at the server, where it applies only at its own version |
| LeaseHistory.OthersAct | scripts/jshell_live_lock.py:60-62 | Jobs start and end, other writers raise the version and a contender gives up, each changing just that |
| LeaseOperator.Cluster.Acquire | scripts/jshell_live_lock.py:26-42 | a free lease is taken for this holder and Job unless the patch fails; a held one is refused; an execution is a run of the protocol |
| LeaseOperator.Cluster.Release | scripts/jshell_live_lock.py:56-68 | exactly the holder whose Job is not live frees the lease unless the patch fails; an execution is a run of the protocol |
| GrantViews.JoinMeaning | internal/gateways/grant_queries.go:191-203 | the row-by-row join succeeds exactly when every scope and role resolves, and view i is row i with its names |
| GrantViews.ProjectGrants | internal/gateways/grant_queries.go:140-204 | unless a lookup failed, the batched result is the row-by-row join with its first error; every role and user of the rows, and no other, is asked for, once, in lookups of at most 100 |
| GrantViews.ProjectBatch | internal/gateways/grant_queries.go:191-203 | the rows of a batch extend the join, and the first bad one is the error of the whole |
| GrantViews.Collect | internal/gateways/grant_queries.go:154-166 | a batch adds each new id once, as a placeholder |
| GrantViews.LookupBatch | internal/gateways/grant_queries.go:167-190 | after its lookups a batch has every name stored for it |
| GrantViews.LookupCompletes | internal/gateways/grant_queries.go:167-190 | the memo holds exactly the ids asked for, with their stored names |
| GrantViews.Resolve | internal/gateways/grant_queries.go:176-178 | returned rows replace their placeholders |
| Ownership.EveryGatewayHasOwner | internal/gateways/grants.go:142-197 | in every reachable state every live Gateway has a live owner grant |
| Ownership.LastOwnerExactly | internal/gateways/grants.go:180-192 | an owner grant can go exactly when another live owner grant remains |
| Ownership.CheckedExactly | internal/gateways/grants.go:162-192 | the checks repeated under the lock refuse exactly a binding that is gone, deleted or of another Gateway, and otherwise only a last owner |
| Ownership.CommitKeepsInv | internal/gateways/grants.go:162-196 | the count made under the row lock still holds when the deletion commits |
| Ownership.OtherStepKeepsInv | internal/gateways/service.go:140-157 | a Gateway is created with its owner, and no other call takes an owner away |
| Ownership.CountKeepsInv | internal/gateways/grants.go:162-192 | the repeated checks, not the unlocked read, decide a revoke |
| Ownership.RevokeActs | internal/gateways/grants.go:142-196 | a revoke that meets nobody deletes exactly its binding, unless no other owner stands, and gives back the lock |
| Ownership.CreateGatewayActs | internal/gateways/service.go:111-157 | a new Gateway is live with its one owner, and nothing else changes |
| Ownership.GrantActs | internal/gateways/grants.go:24-90 | a grant and a Gateway delete go through exactly for a live Gateway whose row nobody holds |
| Ownership.OthersAct | internal/gateways/grants.go:142-160 | global bindings come and go without a Gateway, and an abandoned call gives back its lock and nothing else |
| OwnershipStore.Tables.DeleteGrant | internal/gateways/grants.go:142-196 | a revoke is a run of the protocol; it is refused exactly for a missing, global, Gateway-less or last-owner binding, and otherwise deletes that one binding |
| OwnershipStore.Tables.Create | internal/gateways/service.go:111-157 | a Gateway and its owner grant are stored together |
| Placement.LiveReferencesExist | internal/gateways/service.go:111-142 | in every reachable state a live Gateway's cluster and release exist |
| Placement.ClusterNeverChanges | internal/gateways/mutations.go:83-99 | no run changes the cluster of a Gateway |
| Placement.RequestDeleteActs | internal/gateways/mutations.go:168-187 | a delete request deletes its own row once with every observation pending, and no other Gateway changes |
| Placement.ObserveActs | internal/gateways/deletion.go:14-130 | an observation is stored exactly at the current revision with the right target, and reaches no other Gateway |
| Placement.CleanupPlacedExactly | internal/catalog/catalog.go:199-216 | a step keeps every unfinished cleanup at an existing cluster exactly unless it withdraws an observation where the cluster row is gone |
| Placement.CleanupPlacedWithoutWithdrawals | internal/catalog/catalog.go:187-232 | runs without such a withdrawal keep the reference |
| Placement.CleanupReferenceCanBeLost | internal/gateways/deletion.go:56-70 | a reachable state with unfinished cleanup at a deleted cluster |
| PlacementStore.Tables.Create | internal/gateways/service.go:111-142 | a Gateway is stored exactly with a new id and both references present |
| PlacementStore.Tables.Update | internal/gateways/mutations.go:83-99 | accepted exactly for a live row, its own cluster and present references; it stores the new release and raises the revision |
| PlacementStore.Tables.DeleteCluster | internal/catalog/catalog.go:199-216 | a cluster goes exactly when no live or unfinished Gateway names it |
| PlacementStore.Tables.DeleteRelease | internal/catalog/catalog.go:217-224 | a release goes exactly when no live Gateway names it |

## Left out

- One managed cluster per Gateway: placement never changes, so the allocator's and the worker's branch for a former cluster is not modelled.
- The marker, pin and namespace rechecks inside `LoadSecretState`, and the other objects that an ensure creates, collapse into the Secret, the registration and the database.
- Report writes of live workers and other observations of a live row are one action that raises the revision.
- Provider inventory contents: the inventory check of account cleanup is an arbitrary result, because its source is versioned by the provider and not by the journal membership.
- The identity worker's client repair after the scan, and the deletion path of the identity worker, which reports through the same cleanup observation.
- A deleted user row, which would compute no role: no code path deletes one.
- Uniqueness of a live grant per Gateway, role and user: creating a second one is allowed here, which only adds runs.
- The worker classes run alone: a method body cannot show another party acting between two statements. The state machines do, and each method says which of their runs it was.
- TaskSupervisor.ReturnsWhenJoined: the collecting loop is part of the state machine and not a method of its own; a task body is any run that ends.
- The reads of a task's two contexts are one step; both flags only rise, so any two reads agree with one moment.
- GrantViews.ProjectGrants: paging of the caller and the storage filter are left out; a lookup returns the stored rows of its ids.
- Retries, timeouts and delays: an action that runs out of time is one that fails or loses its reply.
- Authorisation, encodings of identifiers and cursors, encryption, telemetry, REST, gRPC and CLI adapters.
- Counts, options and field validation outside the operations above: easy members.
