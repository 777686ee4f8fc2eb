# pd-manager: a verified model of the reconcile protocol

pd-manager is a Kubernetes operator. It turns a `PDInferenceService` (the service) into a
`RoleBasedGroup` (the group) with the roles router, prefill and decode, keeps the two in step, and
aggregates the group's status into the service. This project models that behaviour in Dafny and proves
what it guarantees in every interleaving with users, REST requests, deletions, profile changes, other
writers of the group and the garbage collector.

`dafny verify dfyconfig.toml` checks everything.

## How the model is built

| file | what it models |
|---|---|
| `Types.dfy`, `Objects.dfy` | API values, stored objects, and the service object that is updated in place |
| `Config.dfy` | `internal/config/merger.go` |
| `Translator.dfy`, `Built.dfy`, `Faithfulness.dfy` | `internal/translator/rbg_builder.go`, where each built field comes from, and what the translation preserves |
| `Status.dfy`, `History.dfy` | `internal/controller/status.go`, one write at a time and over all writes |
| `Webhook.dfy` | the defaulting and validating webhook |
| `ApiServer.dfy` | the API server and garbage collector, as assumptions (below) |
| `Reconcile.dfy`, `BigStep.dfy`, `Controller.dfy` | one reconcile: split at its client calls, in closed form, and as the source's methods |
| `Scaling.dfy`, `Handler.dfy` | the REST handlers that change the store |
| `Protocol.dfy`, `Invariant.dfy` | the labelled state machine of the whole system and its inductive invariant |
| `Runs.dfy`, `Guarantees.dfy`, `Guard.dfy`, `Outcomes.dfy` | what holds over all runs, what the order of cached reads has to do with it, and what an outcome says about its run |
| `Convergence.dfy`, `Undisturbed.dfy` | where undisturbed reconciles lead, and how the two views of a reconcile meet |
| `Witnesses.dfy` | concrete runs behind the findings |
| `DeepCopy.dfy` | `api/v1alpha1/zz_generated.deepcopy.go` on the heap |

A run is a sequence of labels. A label carries every choice: which client call comes next, how stale the
cache was when it answered, whether a lookup failed, whether a reconcile was cut off or the process
restarted. `Protocol.Next` is the step and `Protocol.Exec` the run. The same client-call function `Reconcile.Advance` drives the
interleaved protocol and, without interference, `Reconcile.Once`; the imperative
`Controller.Reconciler.Reconcile` is proved equal to `Once`, and `Undisturbed.UndisturbedRunIsOnce`
shows that the protocol without interference computes it too.

A quantity text that `resource.MustParse` cannot parse panics. The parser is a parameter of the model;
a panic ends the reconcile with no further writes.

## Environment assumptions

- Optimistic concurrency: a write of an existing object carries the uid and resourceVersion it was read
  with and is refused when either moved on (Kubernetes API conventions, section "Concurrency Control
  and Consistency"). A write that changes nothing keeps the resourceVersion.
- Create and update pass the mutating webhook, the CRD schema and the validating webhook. Status writes
  change the status only and pass no webhook; the schema's checks on them are not part of the server's
  step, because `Guarantees.StatusWritesFitSchema` shows that they never refuse one. This leaves out
  the limit of 32768 characters on messages, which profile names of Kubernetes' length stay under.
- The controller reads services, profiles and groups from the informer cache (cmd/main.go:214), so a read may
  answer from any earlier store. Results about runs hold for such reads in any order, except where they
  ask that the first reads of one key do not go back behind one another. A running process guarantees that
  (vendor/k8s.io/client-go/tools/cache/reflector.go:997-1012); a restarted one begins with a list of
  its own, which may be older.
- A deleted object with finalizers is marked, takes no new finalizers, and leaves the store with the write
  that empties the list. The garbage collector removes a group all of whose owners are gone.
- One reconcile per key at a time. Only the controller writes service status, removes its finalizer,
  creates groups and sets their owners. Others may overwrite a group's roles and status or delete it.
- The group's API server stores roles as written.

## Findings

- A stale cache alone cannot make the controller create a group for a service that is gone:
  `Guard.FinalizerGuard` holds as long as the first reads of a key do not go back behind one another, and
  `Guard.GuardedIff` says for any run when the guard holds. Only a restart can break it:
  `Witnesses.RestartBreaksGuard` is a run whose cache never goes back while the process lives, but after
  a restart is behind what the process before had read. `Guarantees.NoGroupOutlivesItsOwner` holds
  regardless once the collector has caught up.
- `Convergence.ReconcileStabilises`: an existing group is updated but never adopted, so a lingering group of a
  deleted namesake keeps its old owner until it is collected; `Witnesses.LingeringGroupIsNotAdopted`
  is a reached world in which this happens.
- `Faithfulness.InliningPreservesMeaning`: a profile can be written into the service without changing
  what is built if and only if it has no sidecars for the router.
- The comment on `ValidateUpdate` and the REST documentation say that only replica counts may change; the
  code protects model, engine and profile reference only. `Guarantees.EditCanBreakCreationRules`: in every
  reached world the server accepts an edit that leaves a mount without its volume and a role without
  image and args. `Guarantees.EditKeepsCreationRulesIff` says which accepted edits keep the creation rules.
- `DeepCopy.CopyProfile`: the generated copy of a profile shares `RoleCommands` with the original, so the two
  are separate if and only if there are none; `DeepCopy.WriteThroughTheCopy` changes the original
  through it.
- The last event is never cleared: `History.FailedSyncReportsLastFailure` shows that a failure found by a
  later sync still reports the most recent profile failure.

## Model

| member | source | states |
|---|---|---|
| Invariant.RunsKeepInv | internal/controller/pdinferenceservice_controller.go:53-129 | every run, stale reads included, keeps: whatever a reconcile or request has read either equals the stored object or has a resourceVersion the server refuses; stored specs are fixpoints of defaulting within the schema; stored statuses are well formed; every group names one owner that lived under its name |
| Runs.NoLostUpdates | internal/controller/pdinferenceservice_controller.go:96-129 | for the life of a uid the stored spec is the fold of exactly the accepted user edits and PUTs in order, the status the fold of the accepted status writes, and model, engine and profile reference never change |
| Runs.PutChangesOnlyReplicas | internal/apiserver/handler/pdinferenceservice.go:125-145 | in every reachable world an accepted PUT write leaves what is stored at that moment as it is, but for the prefill and decode replica counts, each the named one or the old one when unnamed |
| Scaling.ScaledIs | internal/apiserver/handler/pdinferenceservice.go:135-142 | the spec that a PUT writes is the one that differs at most in the replica counts it names |
| Runs.UpdateChangesOnlyRoles | internal/controller/pdinferenceservice_controller.go:127-128 | in every reachable world an accepted group update of a reconcile changes what is stored at that moment only in its roles, so other writers' changes to the rest of the group survive |
| Runs.StepHistory | internal/controller/status.go:42-51 | one step of anyone changes a service exactly by its accepted spec and status writes |
| Runs.StepKeepsUid | internal/webhook/v1alpha1/pdinferenceservice_webhook.go:88-188 | a service present after a step was there before with the same uid, or was just created with a new uid, an empty status and a spec that passes the creation rules |
| Guarantees.StatusIsItsLog | internal/controller/status.go:33-52 | the stored status is what the accepted status writes since creation produce from the empty status |
| Guarantees.ReadyTellsHistory | internal/controller/status.go:42-46 | in every reachable world: the status invariant holds, Terminating is never stored, the Ready condition dates from the first sync of its current block, no other condition appears, and the last event is the most recent failure mark of this service's life |
| Guarantees.StatusWritesFitSchema | config/crd/bases/pdai.pdai.io_pdinferenceservices.yaml:994-1051 | in every reachable world a status write that the server would take has a phase of the schema and only Ready conditions whose reasons match the schema's pattern |
| Guarantees.FailureWriteIsIsolated | internal/controller/pdinferenceservice_controller.go:72-77 | in every interleaving the write after a failed profile lookup touches no group and no other service, and of its own only phase and last event |
| Outcomes.SyncedGroupWasBuilt | internal/controller/pdinferenceservice_controller.go:79-92 | in every run a reconcile ends as synced only after its group write was accepted and its status write after it, and the roles it applied were built from the spec it had read and from profiles of that run |
| Outcomes.PastGroupMeansWritten | internal/controller/pdinferenceservice_controller.go:86-92 | in every run a reconcile that reads or aggregates the group has had its own group write accepted with exactly the desired roles |
| Guard.FinalizerGuard | internal/controller/pdinferenceservice_controller.go:53-129 | however stale the cache, as long as the first reads of a key do not go back behind one another: a group is only created while its owner, with exactly that uid, is stored and carries the finalizer |
| Guard.GuardedIff | internal/controller/pdinferenceservice_controller.go:55-70 | in any run, every reconcile past its finalizer check works for a stored, protected service at all times iff no first read mistakes an unprotected service for a live one |
| Guard.OrderedReadsAreProtected | vendor/k8s.io/client-go/tools/cache/reflector.go:997-1012 | first reads that never go back find a service alive only while it is protected |
| Guard.OrderedWithoutRestart | vendor/k8s.io/client-go/tools/cache/reflector.go:1008-1015 | a cache that never goes back while the process lives is in order in every run without a restart |
| Guard.ProtectionHolds | internal/controller/pdinferenceservice_controller.go:104-115 | only the finalizer removal by this key's own reconcile can end a service's protection |
| Guarantees.NoGroupOutlivesItsOwner | internal/translator/rbg_builder.go:55-69 | stale reads included: every group names exactly one owner that lived under its name, and after collection that owner is stored |
| Guarantees.PutOnlyServicesStayAdmitted | internal/webhook/v1alpha1/pdinferenceservice_webhook.go:81-188 | a service edited only through PUT satisfies the creation rules and the schema in every reachable world |
| Guarantees.AdmittedServicesBuild | internal/translator/rbg_builder.go:80-185 | a stored service without a profile satisfies the creation rules iff it has a model, no clash of ratio and autoscaling, and builds three roles with an image, args and resolved mounts; its replica counts are in bounds |
| Guarantees.RolesCompleteIff | internal/translator/rbg_builder.go:80-185 | with any profile, every built container has an image, args and resolved mounts iff the merged configuration has them and no mount dangles |
| Guarantees.EditKeepsCreationRulesIff | internal/webhook/v1alpha1/pdinferenceservice_webhook.go:190-226 | an accepted edit keeps the creation rules iff the new spec has the inline images and args it needs, no dangling mount and no clash of ratio and autoscaling |
| Guarantees.EditCanBreakCreationRules | internal/webhook/v1alpha1/pdinferenceservice_webhook.go:190-220 | in every reachable world the server accepts an edit of a service without a profile that leaves a dangling mount and a role without image and args |
| Witnesses.UpdateBreaksCreationRules | internal/webhook/v1alpha1/pdinferenceservice_webhook.go:190-220 | a run of one creation and one edit ends in a stored service that breaks the creation rules |
| Witnesses.RestartBreaksGuard | internal/controller/pdinferenceservice_controller.go:56-60 | a run whose cache goes back only across a restart, in which a group is created for a service that is gone |
| Witnesses.LingeringGroupIsNotAdopted | internal/controller/pdinferenceservice_controller.go:118-129 | a run after which a successful reconcile leaves the group of a deleted namesake to its old owner, and collection removes it |
| Reconcile.CallTouchesOnlyItsKey | internal/controller/pdinferenceservice_controller.go:53-129 | one client call makes at most one write, and only to the service or the group under its key |
| Reconcile.RefusedWriteEnds | internal/controller/pdinferenceservice_controller.go:67-89 | a refused write of group or service ends the reconcile as errored with the store unchanged |
| Reconcile.AcceptedGroupWrite | internal/controller/pdinferenceservice_controller.go:118-129 | an accepted group write leaves exactly the desired roles, and only then the reconcile goes on to the status |
| Reconcile.AcceptedServiceWrite | internal/controller/pdinferenceservice_controller.go:96-115 | an accepted service write stores the appended finalizer, the list without ours, or the new status, and decides how the reconcile goes on |
| Reconcile.FirstReadDecides | internal/controller/pdinferenceservice_controller.go:53-70 | the branch on absence, deletion and finalizer |
| Reconcile.ResolutionDecides | internal/controller/pdinferenceservice_controller.go:72-85 | a profile that cannot be read marks the service failed as ProfileResolveFailed, an unparsable quantity panics, otherwise roles from spec and profile with this service as sole owner are desired |
| BigStep.OnceOnLive | internal/controller/pdinferenceservice_controller.go:67-92 | the chain of client calls of an undisturbed reconcile of a live service adds up to a closed form: finalizer, then failure mark, panic, or group and status |
| Undisturbed.UndisturbedRunIsOnce | internal/controller/pdinferenceservice_controller.go:53-93 | the interleaved protocol, with current reads and nothing in between, ends in the store and outcome of one undisturbed reconcile |
| Controller.Reconciler.Reconcile | internal/controller/pdinferenceservice_controller.go:53-93 | the imperative reconcile computes exactly the protocol's undisturbed reconcile: store and outcome |
| Controller.Reconciler.ReconcileLive | internal/controller/pdinferenceservice_controller.go:72-92 | resolve, build, apply and sync equal the protocol's remaining steps |
| Controller.Reconciler.EnsureFinalizer | internal/controller/pdinferenceservice_controller.go:96-102 | nothing when the finalizer is there, otherwise one update that appends it; the object in memory is the server's answer or, when refused, still the changed one |
| Controller.Reconciler.HandleDeletion | internal/controller/pdinferenceservice_controller.go:106-115 | equals the protocol's deletion branch |
| Controller.Reconciler.ApplyRBG | internal/controller/pdinferenceservice_controller.go:118-129 | creates the group or overwrites only its roles, as the protocol's steps do; success means the group has the desired roles, failure that nothing changed |
| Controller.Reconciler.SetFailedStatus | internal/controller/pdinferenceservice_controller.go:132-136 | writes phase and last event and leaves the conditions alone |
| Controller.Reconciler.SyncStatus | internal/controller/status.go:33-52 | equals the protocol's read of the group and status write |
| Controller.Reconciler.Observe | internal/controller/status.go:42-46 | the in-place updates of phase, role statuses and condition add up to one sync event |
| Convergence.ReconcileStabilises | internal/controller/pdinferenceservice_controller.go:68-92 | whatever the store held, one undisturbed reconcile of a live, buildable service leaves the roles that spec and profile ask for; the group is owned by this service iff there was none or it already was; nothing else moves |
| Convergence.SelfStabilises | internal/controller/pdinferenceservice_controller.go:118-129 | from every reachable store, collection followed by one reconcile gives the desired group owned by the current service |
| Convergence.ReconcileSettles | internal/controller/status.go:42-51 | a successful reconcile leaves a settled state |
| Convergence.SettledReconcile | internal/controller/pdinferenceservice_controller.go:96-129 | on a settled state a reconcile can only rewrite the status |
| Convergence.BoundedWrites | internal/controller/status.go:97-103 | after one successful reconcile with everything else frozen, any number of later ones changes the store at most once, and only if the first found the group initializing |
| Convergence.DeletionProgress | internal/controller/pdinferenceservice_controller.go:62-65 | a reconcile of a deleted service removes our finalizer whatever became of its profile, keeps the others in order, and the service goes iff there are no others |
| Convergence.DeletedServicesGo | internal/controller/pdinferenceservice_controller.go:106-115 | in every reachable world a deleted service without foreign finalizers is gone after one undisturbed reconcile |
| Convergence.FailureIsIsolated | internal/controller/pdinferenceservice_controller.go:72-77 | a reconcile with a missing profile changes phase and last event, may add the finalizer, and nothing else |
| Convergence.FailureIsNotAbsorbing | internal/controller/status.go:42-46 | once the profile resolves, the next reconcile computes the phase from the group alone |
| Convergence.ScalingFrame | internal/apiserver/handler/pdinferenceservice.go:135-142 | an accepted PUT and the next reconcile of a service in sync change only the named replica counts in spec and group |
| Status.CheckAllRolesReady | internal/controller/status.go:75-85 | true iff there are role statuses and each has ready replicas at least its replicas |
| Status.CheckCrashLoop | internal/controller/status.go:88-95 | true iff some condition has a crash reason |
| Status.DerivePhase | internal/controller/status.go:55-72 | the phase of the protocol, for every observation |
| Status.PhaseIs | internal/controller/status.go:55-103 | Terminating iff deleted, else Pending iff no group, else Failed iff a crash reason or not ready for over 30 minutes since creation, Running iff ready without a crash, Initializing otherwise |
| Status.BuildRoleStatuses | internal/controller/status.go:106-116 | one entry per reported role in order, with its name, ready replicas and replicas |
| Status.SetReadyCondition | internal/controller/status.go:119-177 | updates the first Ready condition in place or appends one, with status, reason and message of the phase, a failed service reporting its last event; the time moves only with the status and all other conditions are as they were |
| Status.WithReadyIs | internal/controller/status.go:119-177 | the same for the conditions as a value |
| Status.SyncWrites | internal/controller/status.go:42-46 | a sync writes phase, Ready condition and the reported role statuses, keeps the old ones without a group, and never touches the last event |
| Status.FailWrites | internal/controller/pdinferenceservice_controller.go:132-136 | a failure mark writes phase and last event only |
| Status.ApplyKeepsStatusOk | internal/controller/status.go:119-177 | each status write keeps: one Ready condition; Running means Ready=True and all roles ready; Initializing means Ready=False and some role not ready; Ready=True otherwise only as Failed with a recorded event |
| Status.SyncIsIdempotent | internal/controller/status.go:163-176 | a later sync of the same group in the same phase writes nothing new |
| Status.PhaseTimeline | internal/controller/status.go:97-103 | over any nondecreasing clock the phase of a fixed group is constant except for one switch from Initializing to Failed at the first observation older than 30 minutes |
| History.TransitionTime | internal/controller/status.go:154-177 | over any writes the LastTransitionTime in memory is the time of the first sync of the current unbroken block of equal status |
| History.StoredTransitionTime | internal/controller/status.go:154-177 | the same for what is stored, with timestamps cut to whole seconds at every write |
| History.StoringCommutes | internal/controller/status.go:48-49 | cutting the timestamps at every write comes to the same as cutting them once at the end |
| History.OthersSurvive | internal/controller/status.go:164-176 | over any writes all other conditions keep value and order |
| History.LastEventIsLastFailure | internal/controller/pdinferenceservice_controller.go:132-135 | the last event is the most recent failure mark |
| History.FailedSyncReportsLastFailure | internal/controller/status.go:128-135 | a sync that finds a failure reports reason and message of the most recent failure mark with a reason, and the generic pair if there is none |
| History.SyncReports | internal/controller/status.go:119-151 | after any sync the Ready condition has the status, reason and message of its phase |
| History.WritesKeepStatusOk | internal/controller/status.go:33-52 | any writes keep the status invariant |
| Config.Resolve | internal/config/merger.go:70-119 | null iff the referenced profile is missing or its lookup fails; otherwise the field-by-field merge in which a non-empty inline value wins |
| Config.InlineWins | internal/config/merger.go:85-116 | a non-empty inline image, command or args list of each role is exactly what the merge has, whatever the profile says |
| Config.ProfileFills | internal/config/merger.go:122-135 | each field that is empty inline has the profile's value, or nothing when the profile has none, and the sidecars are the profile's |
| Config.InlineAlone | internal/config/merger.go:70-119 | without a profile the merge has the inline values only |
| Config.MergedConfig.ApplyProfile | internal/config/merger.go:122-135 | overwrites images and sidecars, and commands and args only when the profile has them |
| Config.MergedConfig.OverrideImages | internal/config/merger.go:85-94 | a non-empty inline image replaces what is there, an empty one leaves it, role by role |
| Config.MergedConfig.OverrideCommands | internal/config/merger.go:96-105 | a non-empty inline command replaces what is there, an empty one leaves it, role by role |
| Config.MergedConfig.OverrideArgs | internal/config/merger.go:107-116 | non-empty inline args replace what is there without concatenation, empty ones leave it, role by role |
| Translator.Build | internal/translator/rbg_builder.go:43-76 | fails iff a quantity it reads does not parse; otherwise the three roles and this service as sole owner |
| Built.RolesAre | internal/translator/rbg_builder.go:43-185 | every field of the three built roles comes from its place in service and profile: inline before profile, each role's own command, probes, mounts and resources, router replicas at least 1 |
| Built.RolesWithoutProfile | internal/translator/rbg_builder.go:43-76 | without a profile the roles are those of a profile that has nothing |
| Built.BuildsIff | internal/translator/rbg_builder.go:188-268 | building succeeds iff every quantity text that it reads parses: size limits in use, all resource entries, the GPU counts |
| Built.VolumesAre | internal/translator/rbg_builder.go:188-224 | each volume has its name and its first source with that source's own fields and defaults |
| Built.MountsAre | internal/translator/rbg_builder.go:227-237 | each mount has its name, path and read-only flag |
| Built.ResourcesAre | internal/translator/rbg_builder.go:241-268 | the built lists are the user's entries and the GPU count, without mixing requests and limits |
| Built.ProbeIs | internal/translator/rbg_builder.go:272-297 | path and port with their defaults, the other fields as given |
| Built.SidecarsAre | internal/translator/rbg_builder.go:299-330 | each sidecar has its profile name and its containers' names, args and env |
| Translator.BuildRouterRole | internal/translator/rbg_builder.go:80-121 | the router role, replicas raised to at least 1 |
| Translator.BuildInferenceRole | internal/translator/rbg_builder.go:125-185 | a prefill or decode role with POD_IP, node selector and inline-or-profile sidecars |
| Translator.BuildVolumes | internal/translator/rbg_builder.go:188-224 | one volume per spec entry in order, first source wins |
| Translator.BuildVolumeMounts | internal/translator/rbg_builder.go:227-237 | one mount per spec entry in order |
| Translator.ParseEntries | internal/translator/rbg_builder.go:245-252 | for every iteration order of a Go map the same parsed list, or a panic iff some entry does not parse |
| Translator.BuildResources | internal/translator/rbg_builder.go:241-268 | requests from the requests and limits from the limits, each entry with its parsed quantity, and the GPU count equal in both and overriding a user entry |
| Translator.ConvertEngineRuntimes | internal/translator/rbg_builder.go:299-318 | sidecars converted one by one in order |
| Faithfulness.InliningPreservesMeaning | internal/translator/rbg_builder.go:43-76 | building with a profile equals building the flattened service iff the profile has no router sidecars |
| Faithfulness.FlattenKeepsConfig | internal/config/merger.go:70-135 | merging the flattened service without a profile gives the same configuration apart from sidecars |
| Faithfulness.VolumesFaithful | internal/translator/rbg_builder.go:188-224 | two lists of one-source volumes build the same list iff they agree entry by entry up to the default hostPath type and the spelling of the size limit |
| Faithfulness.ResourcesFaithful | internal/translator/rbg_builder.go:241-268 | two resource specs, given or not, build the same iff they agree in keys and parsed quantities, leaving out the GPU entry when the role has a GPU count |
| Webhook.Default | internal/webhook/v1alpha1/pdinferenceservice_webhook.go:56-70 | engine and router replicas are defaulted in place, nothing else |
| Webhook.DefaultedIs | internal/webhook/v1alpha1/pdinferenceservice_webhook.go:56-70 | a spec is its own default iff it names an engine and asks for a router; a missing engine becomes sglang, a router count below 1 becomes 1, nothing else changes |
| Webhook.ValidateCreate | internal/webhook/v1alpha1/pdinferenceservice_webhook.go:88-188 | each rule's error is reported iff the fields violate that rule; no error iff the creation rules hold |
| Webhook.ValidateInlineRoles | internal/webhook/v1alpha1/pdinferenceservice_webhook.go:131-170 | exactly the missing images and args of a service without a profile |
| Webhook.ValidateUpdate | internal/webhook/v1alpha1/pdinferenceservice_webhook.go:191-226 | rejects iff model, engine or profile reference changed, naming exactly those |
| Webhook.ValidateVolumeMounts | internal/webhook/v1alpha1/pdinferenceservice_webhook.go:247-272 | exactly the mounts of router, prefill and decode that name no volume, in this order and by index |
| Webhook.DanglingMountsAre | internal/webhook/v1alpha1/pdinferenceservice_webhook.go:247-272 | the same for the report as a value |
| Webhook.DanglingExact | internal/webhook/v1alpha1/pdinferenceservice_webhook.go:255-265 | the reported errors are exactly the dangling mounts with role, index and name, each once, by increasing index |
| Webhook.MountIntegrity | internal/translator/rbg_builder.go:86-87 | no mount is reported iff every container mount of all three built pods names a volume of its pod |
| Handler.RestHandler.Create | internal/apiserver/handler/pdinferenceservice.go:47-63 | 201 iff the key was free and schema and creation rules hold, and then the service is stored in the given or the default namespace with a new uid, an empty status and a defaulted spec; otherwise the store is unchanged |
| Handler.RestHandler.Update | internal/apiserver/handler/pdinferenceservice.go:110-148 | 400 for a model, 404 for a missing service, otherwise one write of the service with at most the named replica counts changed; any other code than 200 leaves the store unchanged |
| Handler.RestHandler.Delete | internal/apiserver/handler/pdinferenceservice.go:152-172 | always 200; an absent service changes nothing, a live one is gone iff it has no finalizers and is marked otherwise, and no other service is touched |
| Handler.PutAcceptedIff | internal/apiserver/handler/pdinferenceservice.go:135-145 | an undisturbed PUT is accepted iff the named counts are within the schema's bounds, and then only they change |
| Handler.PutStepsAreUpdate | internal/apiserver/handler/pdinferenceservice.go:125-145 | the protocol's read and write steps of a PUT, undisturbed, are the handler's update |
| Handler.DeleteIsIdempotent | internal/apiserver/handler/pdinferenceservice.go:150-151 | a second delete changes nothing |
| Objects.ServiceObject.AddFinalizer | vendor/sigs.k8s.io/controller-runtime/pkg/controller/controllerutil/controllerutil.go:502-511 | appends our finalizer unless present |
| Objects.ServiceObject.RemoveFinalizer | vendor/sigs.k8s.io/controller-runtime/pkg/controller/controllerutil/controllerutil.go:515-529 | the in-place compaction keeps exactly the other finalizers in order |
| Objects.ForeignDistributes | vendor/sigs.k8s.io/controller-runtime/pkg/controller/controllerutil/controllerutil.go:515-529 | dropping our finalizer from a list is dropping it from its parts, so every other entry keeps its place and count |
| DeepCopy.CopySpec | api/v1alpha1/zz_generated.deepcopy.go:383-400 | the copy has equal content and no storage in common with the original through every nested slice, map and pointer, and the original keeps its own |
| DeepCopy.SpecContentIs | api/v1alpha1/zz_generated.deepcopy.go:383-400 | two specs have the same content iff they agree in every field, through slices, maps and pointers |
| DeepCopy.SpecStays | api/v1alpha1/zz_generated.deepcopy.go:383-400 | when nothing that was there changes but storage apart from a spec, its content stays |
| DeepCopy.ChangeTheCopy | api/v1alpha1/zz_generated.deepcopy.go:383-400 | any change to the copy leaves the original's content as it was |
| DeepCopy.ChangeTheOriginal | api/v1alpha1/zz_generated.deepcopy.go:383-400 | any change to the original leaves the copy with the content it was made from |
| DeepCopy.CopyInference | api/v1alpha1/zz_generated.deepcopy.go:152-191 | the same for a prefill or decode role |
| DeepCopy.CopyCommon | api/v1alpha1/zz_generated.deepcopy.go:600-632 | the same for the reference fields that the router shares with the other roles |
| DeepCopy.CopyRuntime | api/v1alpha1/zz_generated.deepcopy.go:80-89 | the same for a sidecar spec and its containers |
| DeepCopy.CopyContainer | api/v1alpha1/zz_generated.deepcopy.go:645-659 | the same for one container |
| DeepCopy.CopyResources | api/v1alpha1/zz_generated.deepcopy.go:556-572 | the same for the request and limit maps, for every iteration order |
| DeepCopy.CopyVolume | api/v1alpha1/zz_generated.deepcopy.go:712-729 | the same for one volume and its sources |
| DeepCopy.CopyScaling | api/v1alpha1/zz_generated.deepcopy.go:672-684 | the same for the autoscaling bounds |
| DeepCopy.CopyProfile | api/v1alpha1/zz_generated.deepcopy.go:278-296 | equal content; everything but RoleCommands is separate, and the whole is separate iff there are no RoleCommands |
| DeepCopy.ProfileContentIs | api/v1alpha1/zz_generated.deepcopy.go:278-296 | two profiles have the same content iff they agree in every field |
| DeepCopy.ChangeTheCopiedPart | api/v1alpha1/zz_generated.deepcopy.go:278-296 | any change to the copy outside RoleCommands leaves the original as it was |
| DeepCopy.ChangeTheOriginalProfile | api/v1alpha1/zz_generated.deepcopy.go:278-296 | any change to the original, RoleCommands included, leaves the rest of the copy as it was made |
| DeepCopy.WriteThroughTheCopy | api/v1alpha1/zz_generated.deepcopy.go:278-296 | with RoleCommands, writing to them in the copy changes the original |

## Left out

- ReconcileStabilises: covers reads and writes that reach the server; transient errors and crashes are the protocol's `Abort` and `lookupFails` choices.
- ReadyTellsHistory: the protocol's store does not cut timestamps to whole seconds; `History.StoringCommutes` says what cutting them changes.
- StatusWritesFitSchema: does not bound the length of messages, because their text is not modelled.
- CopyContainer: environment variables are copied as values, because their deep copy is code of k8s.io/api.
- CopyRuntimes: the elements are copied before the new slice is made, instead of into it one by one; the result is the same.
- Deep copy of the status, list and object wrappers: the same pattern as the specs.
- Text of error messages: a profile failure is recorded with the profile's name as its message, and field errors carry role, index and name only.
- JSON decoding, HTTP routing, the List and Get handlers, and the profile handlers: wrappers around the client; profile changes are environment steps.
- Objects' labels, annotations, generation and managed fields: no modelled code reads them.
- Foreground deletion: a delete marks the service without adding a finalizer of its own.
- A group created or given owners by someone else: excluded from runs; `ReconcileStabilises` says what a reconcile does with one.
- The group operator, autoscaling and the pdRatio coupling of the documentation: no code in the repository implements them.
- The difference between nil and empty slices outside the deep copy, and the fields of a role that the translator never sets.
