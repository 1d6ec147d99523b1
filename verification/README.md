# kubepark: a verified model

kubepark runs persistent developer sandboxes on Kubernetes. An operator keeps one
disposable pod per `Sandbox`, a gateway opens sessions to it, and several independent
actors write the same API objects. This project models the parts whose correctness
depends on how those writes interleave or on what one component leaves for another, and
proves properties of every run.

`dafny verify dfyconfig.toml` checks the whole project (Dafny 4.11).

## How it is built

- `SessionModel` is a transition system over SandboxSession objects. Every actor reads an
  object and later sends a status update that the API server accepts only against the
  version that was read. Any number of actors may hold any number of old copies.
- `SessionStore` is the code of those writers (gateway, stale reaper, finalizer). Other
  actors act between its API calls. Each method is proved to be a run of `SessionModel`.
- `SandboxPass` is one pass of the sandbox reconciler: a class whose methods edit the
  status copy and the pod in place, proved equal to specification functions. Any API call
  may fail before or after taking effect.
- `PassMeaning` reads the outcome of a pass off from the outside.
- `Lifecycle` puts the sandbox, its pod, its template and its sessions in one store. A
  pass is one step per API call or clock sample: read the sandbox, fetch the template,
  list the sessions, sample the clock, look at the pod, write the pod, compare-and-swap
  the status. The session reconciler reads the sandbox and patches the idle clock in two
  steps. User, gateway, kubelet, finalizer, crashes and the clock act in between.
- `SandboxReconcile` is the code that writes the sandbox object, with other actors between
  any two of its calls, proved to be a run of `Lifecycle`.
- `Scenarios` holds concrete runs from a new sandbox, shared by the counterexamples.
- `IdleSafety`, `Resume`, `TemplatePinning` and `Deadlines` are theorems over those runs;
  `Timeouts` holds the heartbeat arithmetic and `LiveSessions` the runs of a living gateway.
- `RbacModel`, `RbacSync`, `RbacTheorems` and `RbacRuns` treat the AccessProfile translation
  as a compiler: declared grants on one side, RBAC evaluation on the other, over whole
  histories of both controllers.
- `Claims` is the arbitration of home volumes, `ClaimRuns` the pods that come of it over
  whole runs.
- `Finalize`, `HttpRoute`, `Shell` and `Wake` model teardown, host-based routing, the agent's
  persistent shell and wake-on-connect.

Environment assumptions: Kubernetes optimistic concurrency (a status update with an old
resourceVersion is refused), one clock for all components, list calls that see the
current objects, one worker per controller (the default), pods of a sandbox created by its
reconciler only, and unique names and UIDs.

## Findings

Properties that look natural but are false of the code. Each has a witness, and the exact
condition under which the code meets it.

- Idle suspension can be early. A session that has just closed may not have reached the
  sandbox's idle clock (`UnpropagatedCloseSuspendsAtOnce`) or reach it only after the pass has
  read it (`StaleReadSuspendsAtOnce`). A session may open between the pass's list and its
  delete (`OpenedAfterListLosesPod`). The timeout may be raised or switched off after the read
  (`TimeoutEditedTooLate`). The sandbox may be started again, with a session open, after a pass
  has read it as stopped (`ReadStoppedLosesPod`). `EarlyExactly` is the if-and-only-if.
- The idle clock can run backwards: the patch that advances it carries no version
  (`ClockCanRewind`, `RewindsExactly`).
- A published pod IP or a True Ready condition does not prove a ready pod
  (`AddressWithoutReadyPod`, `ReadyWithoutPod`); `PassTable` and `ReadyExactly` say exactly when
  each is carried over.
- Flipping `desiredState` to Running does not resume an idle-expired sandbox; the design
  page lists it as a resume trigger (`FlagAloneDoesNotResume`, `RestartDoesNotResume`).
- Two sandboxes can have pods on the same home volume. The check gives a verdict of the
  moment, and a blocked sandbox keeps the pod it has. So an older sandbox that was suspended
  and is started again joins a newer one (`RestartSharesClaim`), and a sandbox with a generated
  claim, which is never checked, joins one that names that claim (`GeneratedNameSharesClaim`).
  `AdmittedExactly` says which steps of users lead there, and `OnePodPerClaim` that no others do.
- A sandbox that uses another volume still blocks its generated name
  (`NobodyClearedExactly`).
- Success of both RBAC controllers does not mean that the account has its access: a sync that
  finds a grant namespace missing succeeds, and the bind after the namespace has appeared
  succeeds too (`MissingNamespaceDeniesAccess`). `TranslationPreservesMeaning` has the exact
  condition; a further sync repairs it.
- RoleBinding names depend on the sandbox name only, so a same-named sandbox elsewhere takes
  over exactly the bindings in namespaces it is granted (`SameNameTakesOverExactly`), and
  loses them again to the first one's collection exactly when the Role was the same
  (`TakenBindingIsCollectedExactly`).
- The stale reaper stalls if it looks exactly at the deadline (`ReaperStallsExactly`,
  `StallReachable`).
- A living gateway's session can be reaped exactly when its heartbeats may be more than three
  intervals apart (`LiveNeverReaped`, `MarginIsExact`).
- A PTY leaks when a client attaches between the shell's Wait and its reap
  (`LeaksExactly`); only the Go runtime may close it later (`LeakLastsUntilCollected`).
- A base domain with an upper-case letter or a colon rejects every host, and no other does
  (`UsableBaseExactly`).
- After a pod creation whose outcome was lost the drift report can hide a change or invent
  one (`LostCreateHidesDrift`, `LostCreateMisreports`, `ReportTrueExactly`).

## Model

| member | source | states |
|---|---|---|
| SessionModel.TimestampsOrdered | internal/controller/sandboxsession_controller.go:83-126 | in every interleaving of all session writers: StartTime <= LastActivityTime <= EndTime <= now, an open session has no end, each Closed session was closed by exactly one accepted write, whose status it shows, and when that write was the reaper's EndTime is the last heartbeat |
| SessionModel.ClosedIsFinal | internal/gateway/store.go:91-117 | a Closed session never changes again until it is deleted, exactly one accepted write set its EndTime and ExitReason, StartTime is fixed and the heartbeat never moves back |
| SessionModel.WriteKeepsOrder | internal/controller/sandboxsession_controller.go:100-110 | no writer, however late its write after its read, breaks the order of timestamps or writes over a Closed session |
| SessionStore.ApiServer.CreateSession | internal/gateway/store.go:80-89 | under interference the call is a run of the session system; success leaves the session under this name with the given sandbox and interval, Active, StartTime and LastActivityTime equal and sampled during the call; an existing name or a refused create changes nothing; without failures or interference it succeeds and touches no other session |
| SessionStore.ApiServer.OpenSession | internal/gateway/sshjump.go:228-247 | success leaves an Active session of the sandbox that is stamped with the heartbeat interval of its override; without failures or interference it succeeds |
| SessionStore.VersionTells | internal/gateway/store.go:80-102 | in every run an object that still has an old resourceVersion is unchanged since |
| SessionStore.ApiServer.Heartbeat | internal/gateway/store.go:91-102 | under interference the call is a run of the session system; success changes LastActivityTime of an Active session, to a time sampled during the call, and nothing else of its status; exactly sessions read as not Active are skipped; without failures or interference an Active session is written |
| SessionStore.ApiServer.CloseSession | internal/gateway/store.go:104-117 | under interference the call is a run of the session system; success changes state, end and reason of a session that was not Closed, to the given reason and a time sampled during the call, and nothing else; exactly sessions read as Closed are skipped; without failures or interference the others are written |
| SessionStore.ApiServer.ReconcileActive | internal/controller/sandboxsession_controller.go:83-110 | under interference the reaper is a run of the session system; a session it closes was Active and stale, and is closed as StaleHeartbeat at its last sign of life; exactly an Active session it leaves open makes it ask to be woken, at the deadline; without failures or interference it closes exactly the stale ones |
| SessionStore.ApiServer.CloseSessions | internal/controller/sandbox_controller.go:648-667 | on success every session listed as Active is gone or closed as SandboxDeleted at the time of the list with the rest of its status unchanged, whatever other actors did meanwhile; without failures or interference it succeeds and touches no session of another sandbox |
| Timeouts.ReapDeadlineBound | internal/gateway/sshjump.go:285-301 | for every override and template default the reaper deadline of a gateway session is three intervals without int64 overflow, at least 180s and at most max(180s, the controller's idle timeout) |
| Timeouts.StampExactly | internal/gateway/sshjump.go:282-301 | the interval stamped on a session is a quarter of the override, rounded down, from 240s on, and 60s below that or without an override |
| Timeouts.ReapsExactly | internal/controller/sandboxsession_controller.go:83-106 | an Active session is reaped exactly when more than three of its intervals, or 180s if it carries none, have passed since its last heartbeat, with int64 wrap-around for huge intervals |
| Timeouts.ReaperStallsExactly | internal/controller/sandboxsession_controller.go:95-98 | the reaper neither closes nor requeues exactly when it looks at the deadline itself |
| LiveSessions.LiveNeverReaped | internal/gateway/sshjump.go:251-266 | in every run of all actors in which the gateway beats with at most k beats in a row lost, each unlost beat an accepted write within its window, and (k+1)*interval+slack <= 3*interval: no reaper write on the session is accepted, it stays Active and shows the latest beat that landed |
| LiveSessions.OpenedNeverReaped | internal/gateway/sshjump.go:228-266 | from a session as OpenSession leaves it, for every override: if its beats keep to that margin it is never reaped, stays Active and keeps its sandbox in every run |
| LiveSessions.MarginIsExact | internal/controller/sandboxsession_controller.go:95-106 | for every k and slack beyond that margin and every override, a schedule within them and a run from the empty store in which the living gateway's session is reaped |
| LiveSessions.StallReachable | internal/controller/sandboxsession_controller.go:95-98 | a run from the empty store after which the reaper looks exactly at the deadline, does not close the session and asks for no requeue |
| SandboxPass.ActiveSessionCount | internal/controller/sandbox_controller.go:205-218 | counts exactly the Active sessions of the sandbox, in any list order; zero exactly when there is none |
| SandboxPass.Pass.Suspend | internal/controller/sandbox_controller.go:480-506 | the in-place update equals the suspension specification for every failure of its calls |
| SandboxPass.Pass.RunPod | internal/controller/sandbox_controller.go:509-602 | the in-place update equals the run specification: create, replace a dead pod, publish or withhold the address, report drift |
| SandboxPass.Pass.Reconcile | internal/controller/sandbox_controller.go:129-201 | the whole pass, with its early exits, equals for every failure of its calls the pass specification, whose outcome PassMeaning.PassErrsExactly states column by column |
| SandboxPass.PassKeepsStatus | internal/controller/sandbox_controller.go:112-201 | every pass, complete or cut short by any failing call, turns a sound status into a sound one and never invents Terminating |
| SandboxPass.PassKeepsClock | internal/controller/sandbox_controller.go:566-576 | a pass, complete or cut short, starts an unset idle clock at the time it sampled and never changes a set one |
| SandboxPass.PrepareFacts | internal/controller/sandbox_controller.go:130-168 | a pass reaches the pod exactly when template, home, host key, policy and RBAC are in order, and until then touches only the phase, the conditions and the names of claim and account |
| PassMeaning.PassTable | internal/controller/sandbox_controller.go:129-201 | after a pass in which no call it makes fails, as a table over what it found: phase, address, pod, all five conditions with their reasons, claim, account, pod name, pinned template, idle clock, number of Active sessions, and the requeue, which is 30s on a taken claim, 10s on a dead pod, the time left of the override or else of the template default but at least a second, and none otherwise |
| PassMeaning.PassErrsExactly | internal/controller/sandbox_controller.go:129-201 | a pass returns an error exactly when a call it makes fails, and then asks for no requeue, leaves the pod's conditions, the idle clock and the pinned template alone, and has written the pod only if the failing call had; otherwise its outcome is the table's |
| PassMeaning.OverrideDecides | internal/controller/sandbox_controller.go:222-230 | with an override set, whatever else the pass finds or fails at, the template's idle default changes nothing but the template that is pinned and the drift that is reported |
| PassMeaning.ReadyExactly | internal/controller/sandbox_controller.go:129-201 | after such a pass Ready is True exactly when the phase is Running or it was True before and the pass took one of three named paths |
| PassMeaning.CreatedPodCredentials | internal/controller/sandbox_controller.go:157-189 | a pod is created only for a wanted sandbox with settled template, home and RBAC, from the current template, running as the account RBAC bound in the same pass or none |
| PassMeaning.DeadPodReplaced | internal/controller/sandbox_controller.go:550-564 | a dead pod of a wanted sandbox is deleted and the pass after it has vanished creates a live one |
| PassMeaning.AddressWithoutReadyPod | internal/controller/sandbox_controller.go:512-542 | a run from a new sandbox after which a fault-free pass has stored a pod address although the pod is not ready |
| PassMeaning.ReadyWithoutPod | internal/controller/sandbox_controller.go:498-504 | a run from a new sandbox after which Ready is stored True although there is no pod |
| Lifecycle.InvAlways | internal/controller/sandbox_controller.go:93-201 | in every run with API failures and lost races, every persisted status satisfies: Suspending, Suspended, Resuming show no pod IP; Running shows Ready, PodReady, HomeReady, RBACReady True and an idle clock; Suspended shows Ready and PodReady False; Failed never occurs; Terminating only while deleting; collected sessions are covered by the idle clock |
| Lifecycle.PersistedStatusSound | internal/controller/sandbox_controller.go:112-123 | every status persisted since the sandbox was created satisfies those promises, and Terminating appears only while it is being deleted |
| Lifecycle.HistoryKept | internal/controller/sandbox_controller.go:605-615 | along every run Terminating is absorbing, and the idle clock never runs backwards unless a patch of it was disturbed |
| Lifecycle.RewindsExactly | internal/controller/sandboxsession_controller.go:130-146 | a step moves the idle clock backwards exactly when it is a patch whose read found no clock and which lands on a later one |
| IdleSafety.ClockCanRewind | internal/controller/sandboxsession_controller.go:143-145 | a run from a new sandbox after which the patch moves the idle clock from 50s back to 1 |
| Lifecycle.CollectedStep | internal/controller/sandboxsession_controller.go:114-126 | every step of every actor keeps the ends of all collected sessions covered by the idle clock, although the patch carries no version |
| SandboxReconcile.ApiStore.Reconcile | internal/controller/sandbox_controller.go:93-201 | the pass with other actors between any two of its calls is a run of the lifecycle system and leaves the worker at rest; a missing sandbox or failed read changes nothing; without interference it is the undisturbed pass whatever calls fail, returns its requeue, and returns an error exactly when the pass or a needed status write failed |
| SandboxReconcile.ApiStore.PatchStatus | internal/controller/sandbox_controller.go:698-704 | an unchanged status is not written; a changed one is stored exactly when the version is the one read; the call reports an error exactly on a refused, lost or conflicting write, and reported success means it is stored |
| SandboxReconcile.ApiStore.BumpSandboxActivity | internal/controller/sandboxsession_controller.go:130-146 | with other actors between its read and its unversioned patch the call is a run of the lifecycle system; undisturbed, the idle clock becomes the later of its value and the session's end and nothing else of the status changes, and a session of another sandbox changes nothing |
| SandboxReconcile.ApiStore.ReconcileClosed | internal/controller/sandboxsession_controller.go:114-126 | the pass is a run of the lifecycle system; without error the session is gone or the pass asks to be called at the retention limit of 168h, a positive time away; undisturbed, a session is gone only 168h after its end and only after its end reached the idle clock |
| SandboxReconcile.ApiStore.SetDesiredRunning | internal/gateway/store.go:71-78 | judging by the caller's earlier copy: one read as wanted is not written even if the stored one is not; otherwise success leaves the stored desiredState Running and nothing else of spec or status changed; a missing sandbox is an error |
| IdleSafety.NeverSuspendedEarly | internal/controller/sandbox_controller.go:171-187 | in every run kubepark takes a live pod from a wanted sandbox only in a pass, and if that pass read it as wanted with the timeout in force or a longer one and an idle clock that shows every moment of use, and no session became Active after its list, then no session is Active and the stored idle clock and every session's end, stored or collected, are more than the timeout in force ago |
| IdleSafety.TakenWhenIdle | internal/controller/sandbox_controller.go:171-187 | only the pod step of a reconcile pass takes the pod of a wanted sandbox, and then the pass read it as stopped, or the sessions it listed hold no Active one and the clock it read had expired at its clock sample |
| IdleSafety.NeverSuspendedWithoutLimit | internal/controller/sandbox_controller.go:184-187 | in every run in which the sandbox is always wanted and has always a non-positive override, or never one and never a template with a positive default, kubepark never takes its pod and never stores Suspending, Suspended or Resuming |
| IdleSafety.EarlyExactly | internal/controller/sandbox_controller.go:171-187 | such a suspension is right by what is stored now exactly when a timeout and an idle clock are in force, the pass knew of every open session, and every moment of use it did not test by the timeout in force is old enough anyway |
| IdleSafety.UnpropagatedCloseSuspendsAtOnce | internal/controller/sandbox_controller.go:178-187 | a run from a new sandbox after which an up-to-date pass takes the pod at the instant its last session ends, with a 60s timeout |
| IdleSafety.StaleReadSuspendsAtOnce | internal/controller/sandbox_controller.go:96-118 | a run from a new sandbox after which every close has been propagated, yet a pass that read the sandbox before takes the pod at the instant its last session ends |
| IdleSafety.OpenedAfterListLosesPod | internal/controller/sandbox_controller.go:178-187 | a run from a new sandbox in which a session opens between the pass's list and its delete, and the pod is taken while it is Active |
| IdleSafety.TimeoutEditedTooLate | internal/controller/sandbox_controller.go:184-187 | for every timeout that is switched off or raised enough, a run from a new sandbox in which the edit comes after the pass's read and the pod is taken by the old timeout |
| IdleSafety.ReadStoppedLosesPod | internal/controller/sandbox_controller.go:171-174 | a run from a new sandbox in which a pass has read it as stopped, a session opens and the sandbox is started again, and the pod is taken although the session is Active and even listed |
| Resume.StaysAwake | internal/controller/sandbox_controller.go:176-189 | while a session stays Active and unless a pass in flight had already listed the sessions without it, in every run with arbitrary API failures no reconcile suspends the sandbox or takes a live pod, and Suspended is never re-entered |
| Resume.FirstPassResumes | internal/controller/sandbox_controller.go:512-542 | from Suspended the first undisturbed pass creates a pod from the current template and stores Resuming |
| Resume.ReadyPodPublished | internal/controller/sandbox_controller.go:566-580 | once the pod is ready with an address, the next undisturbed pass stores Running and that address, which ends the gateway's polling |
| Resume.FlagAloneDoesNotResume | internal/controller/sandbox_controller.go:184-187 | an idle-expired sandbox without an Active session stays suspended although it is wanted |
| Resume.RestartDoesNotResume | internal/controller/sandbox_controller.go:184-187 | a run from a new sandbox in which it goes idle, is suspended, stopped and started, and the next pass leaves it suspended |
| TemplatePinning.PinnedAlways | internal/controller/sandbox_controller.go:528-542 | in every run that loses no creation outcome, the pinned hash is that of the template the pod was built from |
| TemplatePinning.PodKeepsTemplate | internal/controller/sandbox_controller.go:509-542 | no step changes the template of an existing pod; a pod that appears was built from the template its pass had fetched |
| TemplatePinning.BuiltFromCurrentTemplate | internal/controller/sandbox_controller.go:130-142 | in every run, every pod was built from a template that was the stored one at some moment of the pass that created it |
| TemplatePinning.OutdatedExactly | internal/controller/sandbox_controller.go:592-600 | in such runs each pass over a live pod reports TemplateOutdated True exactly when the template it fetched differs from the one the pod was built from |
| TemplatePinning.ReportTrueExactly | internal/controller/sandbox_controller.go:593-600 | in any state the report is true exactly when the stored hash and the pod's own template agree on whether the template changed, an empty hash meaning it never did |
| TemplatePinning.LostCreateHidesDrift | internal/controller/sandbox_controller.go:525-532 | a run from a new sandbox whose first creation is reported failed, after which drift is stored as False although template and pod differ |
| TemplatePinning.LostCreateMisreports | internal/controller/sandbox_controller.go:525-532 | two runs with a later creation reported failed: drift stored as True of a pod built from the current template, and as False of one that was not |
| Deadlines.DeadlineMet | internal/controller/sandbox_controller.go:193-199 | in every timely run from an idle sandbox whose last pass asked for its requeue, the pod is told to stop before the idle time exceeds the override, or without one the template default, by more than 1s + queue lateness + two pass durations, and it is stopped by a suspension |
| Deadlines.AskedByPass | internal/controller/sandbox_controller.go:193-199 | the due time the deadline starts from is the one the pass asks for |
| Deadlines.TwoPassesSuffice | internal/controller/sandbox_controller.go:184-199 | in every such run in which passes begin only when due, status writes succeed and no idle-clock patch is on its way, at most two passes begin before the pod is told to stop |
| Deadlines.DeadlineReachable | internal/controller/sandbox_controller.go:184-187 | from every such sandbox some timely run does tell the pod to stop |
| Deadlines.RunningPass | internal/controller/sandbox_controller.go:184-199 | a pass over a running sandbox with a ready pod, and a positive override or, without one, template default, deletes the pod exactly when it listed no Active session and the idle time is strictly more than that; else it asks to be called at the deadline but not within a second, or not at all while a session is Active |
| Deadlines.StopIsSuspension | internal/controller/sandbox_controller.go:482-504 | in every timely run the first step that stops the pod is a pass's pod step that is about to store Suspending without an address, and that pass listed no Active session and sampled the clock past the deadline |
| Deadlines.SuspendedAfterCrash | internal/controller/sandboxsession_controller.go:83-146 | after a gateway crash, in every timely run, whatever the order of reaper, idle-clock patch, collection and passes, whatever pass is in flight and whatever status write fails or conflicts, the pod is told to stop no later than max(180s, timeout) + 1s plus queue lateness and pass durations after the later of last heartbeat and idle clock |
| Deadlines.OrphanCanStop | internal/controller/sandboxsession_controller.go:83-110 | from every such crash some timely run does tell the pod to stop, whenever the queues may be late at all |
| Deadlines.OrphanReachable | internal/gateway/sshjump.go:228-247 | a run from a new sandbox that ends in the situation of a gateway crash the bound is about |
| Deadlines.IdleSandboxReachable | internal/controller/sandbox_controller.go:566-580 | a run from a new sandbox that ends in an idle sandbox the deadline is about |
| RbacModel.RulesForExact | internal/controller/accessprofile_controller.go:109-115 | the concatenated rules of a namespace allow exactly what the grants declare for it |
| RbacSync.CompileRules | internal/controller/accessprofile_controller.go:109-115 | the map has exactly the grant namespaces, each with the in-order concatenation of its rules |
| RbacSync.GrantNamespaces | internal/controller/sandbox_rbac.go:207-220 | lists exactly the grant namespaces, without repetition |
| RbacSync.Cluster.ApplyRole | internal/controller/accessprofile_controller.go:152-180 | creates or corrects the namespace's Role; a failure leaves it either untouched or done |
| RbacSync.Cluster.SyncRoles | internal/controller/accessprofile_controller.go:108-150 | success gives the specified Roles and missing namespaces for every visiting order; a failure anywhere leaves each Role old, new or collected; without failures it succeeds |
| RbacSync.Cluster.FinalizeProfile | internal/controller/accessprofile_controller.go:184-196 | success removes every Role with the profile's label and no other |
| RbacSync.Cluster.ApplyRoleBinding | internal/controller/sandbox_rbac.go:163-183 | creates, replaces on roleRef drift or corrects subjects; needs an existing namespace; a failed replacement may leave the binding missing |
| RbacSync.Cluster.GcRBAC | internal/controller/sandbox_rbac.go:188-203 | success removes exactly the bindings with the sandbox's UID outside the kept namespaces; a failure removes some of them and nothing else |
| RbacSync.Cluster.ReconcileRBAC | internal/controller/sandbox_rbac.go:48-147 | unless a call fails the outcome is none, deleted, forbidden or bound exactly when the sandbox names no profile, a missing one, one whose allowed namespaces lack its own, or one that permits it; the first three leave the account alone and exactly the bindings without its UID, the last the account and exactly the bindings of that profile; every interrupted pass leaves each binding old, new, missing while replaced or collected, and of a refused sandbox only old or collected |
| RbacRuns.TranslationPreservesMeaning | internal/controller/sandbox_rbac.go:107-147 | over every history from the empty cluster with both controllers' passes, finished or interrupted, profiles and namespaces deleted and sandboxes created and torn down: once the profile controller and the sandbox controller have succeeded, in either order, and as long as profile and sandbox stay as they are, the account is allowed an action in a namespace exactly when some grant lists the namespace with a rule allowing it, that sync found the namespace and it has not been deleted since either pass |
| RbacRuns.MissingNamespaceDeniesAccess | internal/controller/accessprofile_controller.go:124-127 | for every profile and sandbox, a history in which both controllers succeed and nothing that is granted is allowed |
| RbacRuns.InvAlways | internal/controller/sandbox_rbac.go:48-147 | every history keeps Role labels aligned with names and every binding either one existing sandbox's own, within its grant namespaces, or not kubepark's |
| RbacRuns.NoProfileNoAccessEver | internal/controller/sandbox_rbac.go:49-88 | in every history, once a pass has succeeded for a sandbox that names no profile, a missing one or one whose allowed namespaces lack its own, and as long as that stays so, its account is allowed nothing |
| RbacRuns.PermittedProfileIsMeaning | internal/controller/sandbox_rbac.go:78-147 | in every history, once both controllers have succeeded for a sandbox that names a profile which permits its namespace, and as long as that stays so, the account is allowed exactly what that profile grants, under the condition of TranslationPreservesMeaning |
| RbacRuns.RefusalGrantsNothing | internal/controller/sandbox_rbac.go:49-88 | a pass for a refused sandbox, finished or interrupted, gives its account no access it did not have |
| RbacTheorems.DeletedProfileGrantsNothing | internal/controller/accessprofile_controller.go:182-196 | once a profile's Roles are gone, leftover bindings to them grant nothing |
| RbacTheorems.SyncStaysTidy | internal/controller/accessprofile_controller.go:117-150 | every pass, interrupted anywhere, keeps the label discipline and leaves Roles of other names untouched |
| RbacTheorems.BindStaysTidy | internal/controller/sandbox_rbac.go:107-140 | every pass, interrupted anywhere, keeps the label discipline and leaves other sandboxes' bindings untouched |
| RbacTheorems.SyncedRolesExactly | internal/controller/accessprofile_controller.go:104-150 | after success the profile's Roles are exactly one per existing grant namespace with its rules; a new one carries the profile and managed-by labels, an existing one keeps its labels |
| RbacTheorems.SyncIdempotent | internal/controller/accessprofile_controller.go:108-150 | a second pass changes no Role |
| RbacTheorems.BindIdempotent | internal/controller/sandbox_rbac.go:107-140 | a second pass changes no RoleBinding |
| RbacTheorems.SameNameTakesOverExactly | internal/controller/rbacnames.go:41-43 | of two same-named sandboxes of different namespaces, the first one's binding survives the second one's pass exactly when the second one is granted nothing there, whatever Role it referred to; else it names the second one's account |
| RbacTheorems.TakenBindingIsCollectedExactly | internal/controller/sandbox_rbac.go:175-203 | a binding taken over is deleted by the first one's next collection exactly when its Role was already the second one's |
| Claims.WinsStrictTotalOrder | internal/controller/sandbox_controller.go:344-350 | the tie-break is irreflexive, asymmetric, transitive and total over distinct UIDs |
| Claims.LessExactly | internal/controller/sandbox_controller.go:344-350 | the tie-break on UIDs is the order of dictionaries |
| Claims.ClaimConflict | internal/controller/sandbox_controller.go:307-341 | returns a name exactly when some other sandbox that is neither deleting nor stopped and suspended names the claim, or owns its generated name, and was created earlier or at the same time with a smaller UID; and then the name of one |
| Claims.UnblockedExactly | internal/controller/sandbox_controller.go:304-341 | a contender is unblocked exactly when it precedes all contenders and the live owner of the generated name |
| Claims.ExactlyOneUnblocked | internal/controller/sandbox_controller.go:327-340 | for a claim that is no existing sandbox's generated name exactly one contender is unblocked, in any list order |
| Claims.LaterContendersChangeNothing | internal/controller/sandbox_controller.go:344-350 | sandboxes created strictly later never change who is unblocked |
| Claims.OwnerAloneClearedExactly | internal/controller/sandbox_controller.go:315-325 | by the verdict of the moment a generated claim's live owner is the only one cleared exactly when it precedes every contender |
| Claims.NobodyClearedExactly | internal/controller/sandbox_controller.go:315-325 | by the verdict of the moment an owner of the name that uses another volume leaves the claim without anyone cleared exactly when it precedes every contender |
| ClaimRuns.OnePodPerClaim | internal/controller/sandbox_controller.go:251-341 | over every run of passes, edits, creations, deletions and vanishing pods, with lost pod and status writes: as long as users stick to admitted steps no two pods use the same claim |
| ClaimRuns.AdmittedExactly | internal/controller/sandbox_controller.go:251-341 | a step is admitted exactly when no admitted continuation puts two pods on one claim; refused are starting, creating or re-targeting a sandbox ahead of one with a pod on the claim, and deleting, stopping or re-targeting one with a pod that the check then no longer sees |
| ClaimRuns.RestartSharesClaim | internal/controller/sandbox_controller.go:331-337 | a run from the empty namespace in which an older suspended sandbox is started again while a newer one has a pod on their claim, and both get pods |
| ClaimRuns.GeneratedNameSharesClaim | internal/controller/sandbox_controller.go:251-256 | a run from the empty namespace in which a sandbox is created whose generated claim an older one already uses, and both get pods |
| Finalize.Teardown.Finalize | internal/controller/sandbox_controller.go:605-644 | each attempt, cut short anywhere, touches nothing before Terminating is stored and removes the finalizer only with children deleted or terminating, no binding with the UID, the listed sessions closed as SandboxDeleted and the home volume settled by its policy; without failures it completes |
| Finalize.Teardown.ApplyHomeRetainPolicy | internal/controller/sandbox_controller.go:672-696 | touches only the generated claim of a sandbox without an existing claim; newly deletes it only under policy Delete and newly orphans it only under Retain or without a home section; success has deleted it in the first case and orphaned it in the others |
| Finalize.FinalizerGoesLast | internal/controller/sandbox_controller.go:617-643 | over any sequence of attempts, a missing finalizer implies the teardown was complete and still is |
| Finalize.OnlyOwnClaimDeleted | internal/controller/sandbox_controller.go:669-696 | over any sequence of attempts no claim is deleted but the generated one of a sandbox whose home section names no existing claim and asks for Delete; every other claim, and with an existing claim every claim, is unchanged |
| Finalize.HomeFate | internal/controller/sandbox_controller.go:685-695 | over any sequence of attempts, once the finalizer is gone the generated claim of a sandbox without an existing claim is gone or terminating under policy Delete, and orphaned if it exists under Retain or without a home section |
| Finalize.RetainedHomeKept | internal/controller/sandbox_controller.go:669-696 | a completed teardown under Retain or without a home section leaves the home volume there, orphaned and not deleted |
| HttpRoute.CutUnique | internal/gateway/httproute.go:63-70 | cutting finds the first separator and nothing else satisfies that |
| HttpRoute.ParseLabelExact | internal/gateway/httproute.go:59-82 | a label is accepted as a target exactly when it spells its port, sandbox and namespace in this order, fits 63 characters, no part is empty, and port and sandbox hold no separator and end in no hyphen |
| HttpRoute.ParseInvertsPrint | internal/gateway/httproute.go:42-83 | the printed host, padded, in any letter case and with any port suffix, gives the target back exactly when the label fits |
| HttpRoute.PaddingIgnored | internal/gateway/httproute.go:43 | white space around a host does not matter |
| HttpRoute.CaseAndDotIgnored | internal/gateway/httproute.go:43-50 | neither does the case of its letters or a leading dot of the base domain |
| HttpRoute.FirstLabelOnly | internal/gateway/httproute.go:55-57 | without a base domain everything from the first dot on is ignored |
| HttpRoute.AcceptedReprints | internal/gateway/httproute.go:75-82 | every accepted host reprints to the label asked for, followed by the base domain |
| HttpRoute.JoinInjective | internal/gateway/httproute.go:36-41 | two targets never share a label |
| HttpRoute.NeverAmbiguous | internal/gateway/httproute.go:76-81 | the ambiguous branch is unreachable |
| HttpRoute.UsableBaseExactly | internal/gateway/httproute.go:42-56 | some host is accepted under a base domain exactly when it holds no upper-case letter and no colon |
| HttpRoute.UnusableBaseRejectsAll | internal/gateway/httproute.go:49-54 | every other base domain rejects every host as outside the domain |
| Shell.OneShell | internal/agent/session.go:124-159 | in every interleaving of attach, exit, Wait and reap at most one started shell has not been waited for, both fields are nil or name the same shell, its PTY is open, and the counter counts the attached clients |
| Shell.LateReapHarmless | internal/agent/session.go:148-157 | reaping an older shell changes nothing of the current one; reaping the current one clears both fields and closes its PTY |
| Shell.LeaksExactly | internal/agent/session.go:128-157 | a PTY leaks exactly when a client attaches between its shell's Wait and its reap, and stops being leaked only when the Go runtime closes it |
| Shell.LeakLastsUntilCollected | internal/agent/session.go:148-157 | no step of the agent closes a leaked PTY: it stays open exactly as long as the Go runtime does not collect the file |
| Shell.LeakHappens | internal/agent/session.go:124-159 | a five-step run that leaks a PTY |
| Shell.SessionManager.EnsureShell | internal/agent/session.go:124-159 | one step of the system; a shell not yet waited for is kept and its PTY returned, otherwise a new one is started; a failed start changes nothing |
| Shell.SessionManager.ReapShell | internal/agent/session.go:148-157 | one step of the system that keeps the invariant |
| Wake.WakeAndWait | internal/gateway/sshjump.go:201-224 | for every store behaviour and every clock advancing by the poll interval per wait: the first stopping poll decides, success has a pod address, a timeout comes exactly when an unanswered poll ends after the configured timeout (180s when it is zero), and at most timeout/2s + 2 polls are made |

## Left out

- IdleSafety.NeverSuspendedEarly: sessions created but not yet marked Active count as neither open nor ended.
- Deadlines.DeadlineMet: the reads and the pod delete of a pass succeed and the pod stays ready; how often the work queue retries a failing call is not bounded. The reaper is assumed not to look exactly at its deadline.
- SandboxReconcile.ApiStore.Reconcile: calls that an early exit would skip are made and their answers ignored; home, host key, policy and RBAC enter as results fixed when the template is fetched.
- Lifecycle.InvAlways: one incarnation of one sandbox; a sandbox recreated under the same name while the old pod terminates is not modelled.
- Finalize.FinalizerGoesLast: sessions opened after the completing attempt listed them are not covered, as in the code.
- HttpRoute.ParseInvertsPrint: letters and white space are ASCII; Unicode case mapping and byte length of non-ASCII hosts are not modelled.
- RbacRuns.TranslationPreservesMeaning: each pass of a controller is one step; sandboxes of the same name sharing a grant namespace are excluded, because it is then false (`RbacTheorems.SameNameTakesOverExactly`). It counts access through kubepark-managed bindings to Roles only; bindings others create are out of scope, and so is a foreign object squatting on a kubepark name.
- ClaimRuns.OnePodPerClaim: listing the sandboxes that name the claim and reading the owner of its name are one step; a pod counts as using its claim until it is gone.
- Claims.ClaimConflict: API failures of its list and get calls appear only as a failed home step of the pass.
- Timestamps have nanosecond precision; the API server's rounding to seconds is not modelled.
- Home-volume creation, host key, network policy and pod rendering: field copying; a pass sees only whether they succeed.
- Condition messages, observed generations, logging and events.
- Informer-cache staleness: lists and reads see the current objects, except where read and write are split.
- SSH, certificates, OIDC and cookie authentication, byte bridging and the reverse proxy: library code and I/O.
- CLI, flags, indexes, watches other than the wake-up on a session's close, CA bootstrap, Helm charts and CRD YAML.
