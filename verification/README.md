# Verified model of the Alibaba Cloud CSI driver operator

The operator turns one cluster-scoped custom resource (CR), `AlibabaCloudCSIDriver`, into
the objects that make up the disk and NAS CSI drivers. This project models the reconcile
engine and three smaller pieces of the repository in Dafny and proves what they are for.
`dafny verify dfyconfig.toml` checks everything.

## The reconcile engine

`Reconciler.dfy` is the engine statement by statement: a class whose methods make API calls
through a `Client`, loop, retry and stop at the first error. Each method is proved equal to
its meaning as a function on worlds (`Tasks.dfy`, `Plan.dfy`); everything else is proved
about that meaning, so it holds of the methods. What the meaning itself yields is stated once
more apart from it, with literal names, fields and defaults: which objects (`Inventory`), with
what in them (`Contents`), which result (`Results`), which status (`Readiness`), which
references are pinned (`PinPattern`).

A *world* (`Cluster.dfy`) is the API server: a store of versioned objects, the CR, the served
APIs, the log of all changes, and a *script*. Every API call uses up one turn of the script,
which says what other clients edit or delete just before the call is served, whether the call
is rejected, loses its reply, or kills the operator before or after it takes effect, and how
far behind a cached read is. A statement about all worlds is therefore a statement about all
interleavings, faults and crashes; an exhausted script leaves the operator undisturbed.
`History.dfy` proves what every call keeps: equal resourceVersion means equal content over the
whole history, and the log is a path of legal events.

What the libraries and the API server are taken to do:

- Create fails with AlreadyExists if the key is present and rejects an object that carries a
  resourceVersion. Update fails with NotFound if the key is absent and with Conflict unless
  the resourceVersion is the live one. Every write stamps a version never used before.
- Get may return any earlier version (`cmd/main.go:206`: the client reads from a cache), as
  may the RESTMapper. A lemma that needs up-to-date reads says `FreshReads`.
- `retry.RetryOnConflict(retry.DefaultRetry)` makes at most five attempts and repeats only on
  Conflict. `SetControllerReference` fails on a foreign controller and otherwise replaces the
  first reference with the same group, kind and name, or appends one. `IsControlledBy`
  compares the uid of the first controller reference.
- The status patch and the StorageProfile patch are merge patches (section 2 of RFC 7396).
- There is one worker, and garbage collection removes an object once all its owners are gone.
  A uid is never given out twice (`History.FreshUids`).

| file | content |
|---|---|
| `Base`, `DriverTypes`, `DriverEnv`, `MergePatch` | the CR, container environments, JSON merge patches |
| `Cluster`, `History` | the API server, scripts, events and what every call keeps |
| `Tasks`, `Plan`, `PlanFacts`, `PlanShape` | the steps of a pass and the list of them a CR asks for |
| `Reconciler` | the reconciler's methods |
| `Runs`, `CalmRuns`, `Outcome`, `Delivery` | what an undisturbed pass delivers |
| `Results`, `Requeue`, `NilPass` | the result of a pass, convergence, what a nil result means |
| `Retries`, `Verdicts` | retry counting, the exact result of the two apply helpers |
| `Lawful`, `Ordering`, `PassSafety`, `SnapshotLink` | safety of every event of every run, linked snapshot classes |
| `Inventory`, `Contents` | which objects a CR asks for, name by name and in order, and what is in them, field by field |
| `Ownership`, `Garbage` | owner references over whole runs, uninstalling |
| `Admission`, `Ensured`, `ClassNames` | admission, duplicate class names |
| `StatusHonesty`, `Readiness`, `StaleStatus`, `Incarnations` | honest conditions and readiness flags, stale reads, re-creation of the CR |
| `PinDigest`, `PinPattern` | `hack/pin-operator-digest.py`; its pattern character by character |
| `DeepCopy` | `api/v1alpha1/zz_generated.deepcopy.go` |
| `Uncomment` | `UncommentCode` in `test/utils/utils.go` |

## Where a promise fails, and when it holds

- **Interference with the apply helpers.** Without failed calls and stale reads, and for all
  edits by others, `Verdicts.CreateOrUpdateIsExact` and `Verdicts.CreateOrAdoptIsExact` say from
  the edits and the object as it was which calls succeed. One deletion between the read and the
  update is enough to fail (`Verdicts.DeletionAlone`: Update on a missing key is not retried),
  and so is a competing create (`Verdicts.CompetingCreate`). After a conflict, line 1314 has left a
  resourceVersion on the object, so if the key is then deleted the Create of line 1310 cannot
  succeed either (`Retries.DeletionAfterConflict`). Updates alone are withstood up to four times.
- **A nil result.** A pass can return nil and report Available=True although an object it made
  was deleted meanwhile (`NilPass.NilIsNotEnough`). What others do not undo during the pass is
  in place when it returns nil (`NilPass.NilMeansDelivered`). With fresh reads each object was
  in place when its turn ended (`Ensured.AllInPlace`), and `NilPass.NilLeavesExactly` says
  exactly when it still is. Where SCC detection fails on OpenShift, a pass returns nil without
  the SCC binding (`NilPass.NilWithoutBinding`).
- **observedGeneration under stale reads.** After a restart on an older cache a pass can make it
  fall (`StaleStatus.ObservedGenerationCanFall`); `StaleStatus.ObservedGenerationFalls` gives the
  exact condition for any pass. As long as no read goes back behind an earlier one, it never
  falls (`StaleStatus.NeverFallsOnForwardReads`).
- **The status of a re-created CR.** The status patch goes by name. A CR that is deleted and
  created again during a pass is told that the generation of its predecessor is observed and
  available, although the pass ensured what the predecessor asked for; if that was never edited,
  the numbers do not even show it (`StaleStatus.RecreatedDuringPass`). A write lands on a CR that the
  pass did not read exactly when it takes effect while the live uid differs
  (`Incarnations.LandsOnOther`), which needs a deletion (`Incarnations.NeverMisdirected`). In
  runs without such a write a stored Available=True is honest, deletions and re-creations
  included (`Incarnations.HonestUnlessMisdirected`).
- **Pinning and the submission guard.** The rewritten text can still contain `repo:tag` if the
  repository is an end of `sha256` or begins with an end of the digest, and only then
  (`PinDigest.PinningClearsGuard`). Which repositories clash with some digest is decided by
  `PinDigest.SafeForEveryDigest`: those that begin with a hex digit do,
  `docker.io/...` for instance with every digest that ends in `d`; this operator's `quay.io/...`
  clashes with none (`PinDigest.QuayIsSafeDockerHubIsNot`).
- **Commenting and uncommenting.** A line that ends in a carriage return loses it, and a line
  of 65536 bytes or more cuts the block short; in all other cases the block is restored
  (`Uncomment.UncommentUndoesComment`). A target ending in a newline loses that newline.
- **Exactly one controller.** With several references naming the CR, adoption leaves exactly one
  controller only under the condition of `Ownership.ExactlyOneController`; an owner list for
  which it leaves two is shown by `Ownership.TwoControllers`.
- **The linked snapshot class.** An undisturbed pass makes a profile link a snapshot class that
  does not exist in two cases: snapshots are disabled but a class name is configured, or they are enabled and the
  snapshot CRDs are not installed, where the class is skipped silently. In no other case does it
  (`SnapshotLink.DanglingLink`; `PassSafety.ProfileLinksExistingClass` for every run in which the
  API is served).
- **CHANGELOG.md:36-46** says that existing objects, among them the VolumeSnapshotClass, are
  adopted. The code creates a VolumeSnapshotClass or ignores it (lines 1115-1126), so one that
  existed beforehand is never given an owner (`Garbage.SurvivesUninstall`). The model follows
  the code.
- The comment at line 1262 speaks of a function `createOrIgnore`, which does not exist;
  `Tasks.CreateOrIgnore` names what ensureVolumeSnapshotClass does in place.

## Model

| member | source | states |
|---|---|---|
| Reconciler.AlibabaCloudCSIDriverReconciler.Reconcile | internal/controller/alibabacloudcsidriver_controller.go:151-210 | the method, with its re-assigned error, readiness flags and status fields, ends with the error and the world of one pass, for every script of interference, faults and crashes |
| Reconciler.AlibabaCloudCSIDriverReconciler.EnsureRBAC | internal/controller/alibabacloudcsidriver_controller.go:229-248 | account, role, binding and admission are ensured in this order up to the first error |
| Reconciler.AlibabaCloudCSIDriverReconciler.SccAvailable | internal/controller/alibabacloudcsidriver_controller.go:334-367 | a mapper hit is believed, a miss only after a fresh discovery, no config means the miss stands |
| Reconciler.AlibabaCloudCSIDriverReconciler.SetLabels | internal/controller/alibabacloudcsidriver_controller.go:387-397 | whatever order the map is visited in, the wanted labels overlay the others, and `changed` holds exactly when a label was missing or different |
| Reconciler.AlibabaCloudCSIDriverReconciler.EnsurePrivilegedNamespacePSA | internal/controller/alibabacloudcsidriver_controller.go:372-401 | an absent namespace is no error, a privileged one is not written, any other is updated with its other labels kept |
| Reconciler.AlibabaCloudCSIDriverReconciler.EnsureDiskDriver | internal/controller/alibabacloudcsidriver_controller.go:405-449 | the disk objects are ensured in the order of the plan up to the first error |
| Reconciler.AlibabaCloudCSIDriverReconciler.EnsureDiskClasses | internal/controller/alibabacloudcsidriver_controller.go:428-446 | the loop over any class list does for each entry its class, then its profile, with the resolved snapshot class, and stops at the first error |
| Reconciler.AlibabaCloudCSIDriverReconciler.EnsureDiskControllerDeployment | internal/controller/alibabacloudcsidriver_controller.go:473-585 | the Deployment is created or replaced with the defaults of replicas, selector, tolerations and token, and the extra environment appended |
| Reconciler.AlibabaCloudCSIDriverReconciler.EnsureDiskNodeDaemonSet | internal/controller/alibabacloudcsidriver_controller.go:587-704 | the DaemonSet is created or replaced with its built-in environment and the extra one appended |
| Reconciler.AlibabaCloudCSIDriverReconciler.EnsureDiskStorageClass | internal/controller/alibabacloudcsidriver_controller.go:706-740 | the class is created or adopted with the annotations, parameters and policy its entry asks for |
| Reconciler.AlibabaCloudCSIDriverReconciler.EnsureNASDriver | internal/controller/alibabacloudcsidriver_controller.go:751-781 | the NAS objects are ensured in the order of the plan up to the first error |
| Reconciler.AlibabaCloudCSIDriverReconciler.EnsureNASClasses | internal/controller/alibabacloudcsidriver_controller.go:768-778 | the loop over any class list does for each entry its class, then its profile without a snapshot class, and stops at the first error |
| Reconciler.AlibabaCloudCSIDriverReconciler.EnsureNASControllerDeployment | internal/controller/alibabacloudcsidriver_controller.go:805-890 | the Deployment is created or replaced with the same defaults and the extra environment appended |
| Reconciler.AlibabaCloudCSIDriverReconciler.EnsureNASNodeDaemonSet | internal/controller/alibabacloudcsidriver_controller.go:892-980 | the DaemonSet is created or replaced with its built-in environment and the extra one appended |
| Reconciler.AlibabaCloudCSIDriverReconciler.EnsureNASStorageClass | internal/controller/alibabacloudcsidriver_controller.go:1041-1075 | the class is created or adopted, never as the cluster default |
| Reconciler.AlibabaCloudCSIDriverReconciler.EnsureVolumeSnapshotClass | internal/controller/alibabacloudcsidriver_controller.go:1086-1127 | nothing when snapshots are off; otherwise one Create whose NoMatch and AlreadyExists are no errors |
| Reconciler.AlibabaCloudCSIDriverReconciler.EnsureStorageProfile | internal/controller/alibabacloudcsidriver_controller.go:1186-1236 | nothing when patching is off or the profile or its API is absent; otherwise one merge patch |
| Reconciler.AlibabaCloudCSIDriverReconciler.CreateOrAdopt | internal/controller/alibabacloudcsidriver_controller.go:1270-1296 | the retry loop makes the attempts of the adoption, with the error of the last |
| Reconciler.AlibabaCloudCSIDriverReconciler.CreateOrUpdate | internal/controller/alibabacloudcsidriver_controller.go:1301-1317 | the retry loop makes the attempts of the replacement; the object keeps the last resourceVersion read, also into a later Create |
| PlanFacts.PhasesRunPlan | internal/controller/alibabacloudcsidriver_controller.go:163-189 | the three guarded phases of Reconcile are one list of steps run up to the first error |
| Results.ReadEnds | internal/controller/alibabacloudcsidriver_controller.go:153-159 | the read that begins a pass yields the CR of the view it is served from, NotFound and nothing else if that view has none, or, if it is not answered, an error that is not NotFound |
| Results.NilResult | internal/controller/alibabacloudcsidriver_controller.go:151-210 | for every script: a pass returns nil if and only if its read found no CR, or found one and every step of its plan returned nil; a CR that is gone is nil and nothing is done, a read that is not answered is an error and nothing is done, any other error is that of the first failing step, and a failing status write is none |
| CalmRuns.CalmTask | internal/controller/alibabacloudcsidriver_controller.go:1270-1317 | an undisturbed step succeeds from every store without a foreign controller on its keys, and changes each object by a pure function of that object |
| CalmRuns.CalmAll | internal/controller/alibabacloudcsidriver_controller.go:405-449 | so does an undisturbed list of steps of any length; uids, the CR and the APIs stay |
| Outcome.AdoptOutcome | internal/controller/alibabacloudcsidriver_controller.go:1270-1296 | over any list of steps the first entry of a name decides, and only if the object is absent; a present one keeps its payload and gains the controller reference |
| Outcome.ReplaceOutcome | internal/controller/alibabacloudcsidriver_controller.go:1301-1317 | a workload becomes exactly the object of the last entry naming it, whatever was there |
| Outcome.SnapshotOutcome | internal/controller/alibabacloudcsidriver_controller.go:1115-1126 | a snapshot class is created if absent and its API is served, and otherwise untouched |
| Outcome.ProfileOutcome | internal/controller/alibabacloudcsidriver_controller.go:1194-1235 | a profile becomes the overlay of all patches naming it, later ones winning; absent profiles stay absent |
| Outcome.NamespaceOutcome | internal/controller/alibabacloudcsidriver_controller.go:372-401 | the namespace gains the three labels if the SCC API is not served; other namespaces are untouched |
| Outcome.OtherOutcome | internal/controller/alibabacloudcsidriver_controller.go:229-781 | objects of all other kinds are untouched |
| Delivery.UndisturbedPass | internal/controller/alibabacloudcsidriver_controller.go:151-210 | refinement: an undisturbed pass returns nil, every object becomes the closed form `Expected` of its old self, and the stored status reports exactly the enabled drivers ready at the current generation |
| Delivery.SecondPassIsIdle | internal/controller/alibabacloudcsidriver_controller.go:151-210 | fixpoint: the pass after it leaves every object and the CR equal up to resourceVersion, for any class lists and duplicate names |
| Requeue.PassProgress | internal/controller/alibabacloudcsidriver_controller.go:151-210 | every pass returns nil or uses up a disturbance |
| Requeue.Convergence | internal/controller/alibabacloudcsidriver_controller.go:151-210 | with N disturbances in all and no foreign controllers put on claimed keys, one of the first N+1 passes returns nil, and that pass read the CR and did every step it asks for, or found none to read |
| Requeue.EventuallyDelivered | internal/controller/alibabacloudcsidriver_controller.go:151-210 | once the script is used up, which takes at most one pass a turn, every pass returns nil and the store holds everything the CR asks for |
| Inventory.AsksWhatIsWanted | internal/controller/alibabacloudcsidriver_controller.go:405-449 | a plan adopts or replaces an object if and only if it is wanted: account, role and binding by name, and for each enabled driver its CSIDriver object, Deployment and DaemonSet by name and the StorageClass of each entry |
| Inventory.OnlyWhatIsAsked | internal/controller/alibabacloudcsidriver_controller.go:151-210 | whatever any pass of any run writes, with all faults, crashes and edits, is wanted by the CR it read, or is the SCC binding, the namespace, an enabled snapshot class or the profile of an entry to be patched; so nothing of a disabled driver |
| Inventory.EverythingWanted | internal/controller/alibabacloudcsidriver_controller.go:151-210 | after an undisturbed pass everything wanted is there and controlled by the CR, and every object that is neither wanted nor among those others is as it was |
| Inventory.EventuallyEverythingWanted | internal/controller/alibabacloudcsidriver_controller.go:151-210 | from every store without foreign controllers, once the script is used up each pass leaves everything wanted in the store, controlled by the CR |
| Inventory.NilHasEverything | internal/controller/alibabacloudcsidriver_controller.go:151-210 | after a pass that returned nil, whatever faults, stale reads and edits it met, each wanted object whose key the script never removes is there |
| Inventory.WrittenInOrder | internal/controller/alibabacloudcsidriver_controller.go:163-189 | when any pass of any run writes an object, every object of an earlier place that others did not remove since the pass began is there: account, role, binding, admission, CSIDriver object, Deployment, DaemonSet, snapshot class and classes of disk, then those of NAS |
| Inventory.ProfileAfterClass | internal/controller/alibabacloudcsidriver_controller.go:434-446 | when any pass patches a profile, the StorageClass of that name is there, unless others removed it |
| Contents.EnvIsEffective | internal/controller/alibabacloudcsidriver_controller.go:1387-1419 | given what the built-in entries resolve to, every name of a container resolves to the endpoint field, else the last extraEnv entry with its value or secret, else the built-in entry |
| Contents.DiskNodeBuiltIn | internal/controller/alibabacloudcsidriver_controller.go:625-647 | the built-in entries of the disk DaemonSet, name by name |
| Contents.StepContent | internal/controller/alibabacloudcsidriver_controller.go:473-980 | each payload of a plan, field by field from the spec and its defaults: image, environment of every name, replicas, selector and tolerations of the four workloads; provisioner, annotations, parameters, reclaim policy and binding mode of the classes; the referenced roles; the driver of the snapshot class |
| Contents.DiskClaimsAre | internal/controller/alibabacloudcsidriver_controller.go:1140-1152 | a disk profile gets ReadWriteOnce, with Block if and only if the volume mode is `block` up to case folding, and Filesystem otherwise |
| Contents.NasClaimsAre | internal/controller/alibabacloudcsidriver_controller.go:1157-1168 | a NAS profile gets ReadWriteMany and ReadWriteOnce, both Filesystem |
| Contents.EveryWriteIsAsked | internal/controller/alibabacloudcsidriver_controller.go:151-210 | every write of every pass of every run makes of the object exactly this: what is created or replaced has one owner, the CR, and the content the CR asks for; of an adopted object only the owners change; of a profile only the claim sets, the clone strategy and a named snapshot class; of the namespace only the three labels |
| Contents.StoredAsAsked | internal/controller/alibabacloudcsidriver_controller.go:151-210 | an undisturbed pass stores each wanted workload, whatever was there, and each other wanted object that was absent, with that content |
| Contents.StoredDiskClass | internal/controller/alibabacloudcsidriver_controller.go:706-740 | the StorageClass it creates for the first disk entry of a name: the cluster default only for the very first entry, Retain only if asked for |
| Contents.StoredNasClass | internal/controller/alibabacloudcsidriver_controller.go:1041-1075 | the same for NAS where no enabled disk entry has the name; never the cluster default |
| Contents.NilStoresWorkload | internal/controller/alibabacloudcsidriver_controller.go:1301-1317 | after a pass that returned nil on fresh reads, whatever faults it met, each wanted workload that others leave alone has the content the CR asks for |
| NilPass.NilMeansDelivered | internal/controller/alibabacloudcsidriver_controller.go:151-210 | after a pass that returns nil, each object of the plan that others did not undo during it is in place, whatever faults, stale reads and other edits it met; in particular each adopted or replaced object whose key the script never removes |
| NilPass.NilLeavesExactly | internal/controller/alibabacloudcsidriver_controller.go:151-210 | with fresh reads and a nil pass: the object of an adopting or replacing step is there at the end if and only if every removal after that step was followed by a write, and if others left it alone it is still controlled by the CR, or exactly the desired object |
| NilPass.NilIsNotEnough | internal/controller/alibabacloudcsidriver_controller.go:229-248 | with one deletion at the right moment the pass returns nil and stores Available=True, and the service account is missing |
| NilPass.NilWithoutBinding | internal/controller/alibabacloudcsidriver_controller.go:334-367 | when both detection calls fail on a cluster that serves the SCC API, the pass returns nil, stores Available=True, and the SCC binding is missing |
| Retries.CreateOrUpdateWithstandsFour | internal/controller/alibabacloudcsidriver_controller.go:1305-1316 | with fresh reads and no deletion, four interfering updates of a present object at any points still give success, and an absent object that nobody else creates is created |
| Retries.FiveDefeatCreateOrUpdate | internal/controller/alibabacloudcsidriver_controller.go:1305-1316 | five updates, each between a read and its write, end in Conflict |
| Retries.DeletionAfterConflict | internal/controller/alibabacloudcsidriver_controller.go:1308-1315 | if the first attempt ends in a conflict and the next read finds the key gone, the whole call fails, for every script |
| Retries.DeletionDefeatsCreateOrUpdate | internal/controller/alibabacloudcsidriver_controller.go:1308-1315 | one update and one deletion between the right calls end in Invalid |
| Verdicts.CreateOrUpdateIsExact | internal/controller/alibabacloudcsidriver_controller.go:1301-1317 | for every script without faults or stale reads: success if and only if, within five rounds, the first that does not conflict reads the object and nobody touches it before the write, or is the very first and finds no object at the read and at the create; the error otherwise |
| Verdicts.CreateOrAdoptIsExact | internal/controller/alibabacloudcsidriver_controller.go:1270-1296 | for the same scripts: success if and only if there is no object at the Create or, within five rounds, the first that does not conflict reads an object controlled already, or one it may adopt and nobody touches before the write |
| Verdicts.DeletionAlone | internal/controller/alibabacloudcsidriver_controller.go:1305-1316 | one deletion between read and update ends in NotFound |
| Verdicts.CompetingCreate | internal/controller/alibabacloudcsidriver_controller.go:1305-1316 | a create by others between read and create ends in AlreadyExists |
| Verdicts.DeletionDefeatsAdoption | internal/controller/alibabacloudcsidriver_controller.go:1283-1295 | one deletion between the Create and the read ends in NotFound |
| Retries.CreateOrAdoptWithstandsFour | internal/controller/alibabacloudcsidriver_controller.go:1283-1295 | the same for adoption, also when the object appears meanwhile, if nobody else controls it |
| Retries.BoundedAttempts | internal/controller/alibabacloudcsidriver_controller.go:1270-1317 | both helpers end after at most five attempts of two calls, for every script |
| Lawful.ReadIsRegistered | internal/controller/alibabacloudcsidriver_controller.go:1285-1286 | a read, stale or not, returns a version once stored under that key |
| Lawful.TaskLaw | internal/controller/alibabacloudcsidriver_controller.go:1270-1317 | for every script, each change a step makes is the one change it is meant to make to the live object, also after stale reads |
| Ordering.TaskSettles | internal/controller/alibabacloudcsidriver_controller.go:229-248 | a step that returns nil has put its object in place, unless others undid just that while it ran |
| Ordering.RunInOrder | internal/controller/alibabacloudcsidriver_controller.go:405-449 | whatever is written for a step of a list is written with each earlier step in place that others did not undo, at every moment of every run, and after a nil result each such step is |
| PassSafety.WorkloadsComeAfterGrants | internal/controller/alibabacloudcsidriver_controller.go:229-248 | a Deployment or DaemonSet is written only with account, role and binding in place, each unless others removed it since the pass began, and, with fresh reads, the admission grant, unless others removed the SCC binding or, without one, unlabelled the namespace |
| PassSafety.NasWaitsForDisk | internal/controller/alibabacloudcsidriver_controller.go:172-189 | with the disk driver enabled, whatever a pass writes is a step of the shared RBAC or of the disk driver, or the disk phase of this pass returned nil; for all edits, faults and crashes |
| PassSafety.NasKeyWaitsForDisk | internal/controller/alibabacloudcsidriver_controller.go:172-189 | an object that no step before those of the NAS driver names is written only in a pass whose disk phase returned nil |
| PassSafety.NasObjects | internal/controller/alibabacloudcsidriver_controller.go:751-781 | every object of the NAS driver is such an object, except a class or profile whose name is also in the disk list |
| PassSafety.NasComesAfterDisk | internal/controller/alibabacloudcsidriver_controller.go:172-189 | when such an object is written, each disk step that others did not undo is in place |
| PassSafety.ProfileLinksExistingClass | internal/controller/alibabacloudcsidriver_controller.go:421-446 | unless snapshots are off and a name is configured, a profile write never newly links a snapshot class that is missing while its API is served, provided others neither removed the class nor turned the API on since the pass began |
| SnapshotLink.PlannedClass | internal/controller/alibabacloudcsidriver_controller.go:428-432 | a plan creates the class its profiles link exactly when snapshots are enabled (the two default computations agree), and otherwise none |
| SnapshotLink.DanglingLink | internal/controller/alibabacloudcsidriver_controller.go:421-446 | after an undisturbed pass a profile newly links a missing class if and only if a name is linked, that class was absent beforehand, and snapshots are disabled or their API is not served |
| PassSafety.CrashSafeOrdering | internal/controller/alibabacloudcsidriver_controller.go:151-210 | for every operator event of every pass of every run, with all faults, crashes, stale reads and edits: grants before workloads, the disk phase finished before any NAS object, no link to a missing class; what is in place by then is what others did not undo since the pass began |
| PassSafety.GrantsComeFirst | internal/controller/alibabacloudcsidriver_controller.go:229-248 | in a run whose script never removes the account, the role or the binding, that object precedes every workload write, whatever else others do |
| Ownership.ExactlyOneController | internal/controller/alibabacloudcsidriver_controller.go:1288-1294 | adoption leaves exactly one controller if and only if there was none or it is the first reference naming the CR |
| Ownership.TwoControllers | internal/controller/alibabacloudcsidriver_controller.go:1288-1294 | an owner list with one controller that adoption turns into one with two |
| Ownership.UpsertKeepsOthers | internal/controller/alibabacloudcsidriver_controller.go:1291-1293 | the references of all other owners are kept, in order |
| Ownership.AdoptionIsExact | internal/controller/alibabacloudcsidriver_controller.go:1271-1293 | taking control fails if and only if the first controller names another owner by group, kind or name; otherwise the first reference that names the CR becomes its controller reference in place, or that is appended, and all other references stay |
| Ownership.NoLostWrites | internal/controller/alibabacloudcsidriver_controller.go:1270-1296 | for every interleaving and stale reads: a successful adopting update changes only the owners of the live object, keeps all other owners, makes the CR its controller, and nobody else controlled it |
| Ownership.PlannedKeepsOwnership | internal/controller/alibabacloudcsidriver_controller.go:1263-1317 | every operator write leaves an owned kind controlled by the CR, a workload with no other owner, a snapshot class only by creation, and all other owners alone |
| Ownership.ControlIsKept | internal/controller/alibabacloudcsidriver_controller.go:1263-1317 | over any run with spec edits and disabled drivers in which what others write at the key stays controlled by the CR, what the operator wrote once stays controlled by it while it exists |
| Ownership.PresentStays | internal/controller/alibabacloudcsidriver_controller.go:242-247 | the operator deletes nothing in any run, also when the CR is deleted, so the SCC binding stays through later passes that fall back |
| Ownership.OneClusterDefault | internal/controller/alibabacloudcsidriver_controller.go:434-437 | while the first disk class keeps its name, no other class is ever created with the cluster-default annotation |
| Garbage.SurvivorsAreGreatest | internal/controller/alibabacloudcsidriver_controller.go:212-219 | collecting to a fixpoint leaves, unchanged, the largest set of objects whose owners are left |
| Garbage.GoesWithItsOwner | internal/controller/alibabacloudcsidriver_controller.go:212-219 | an object with one owner is collected exactly when that owner is gone |
| Garbage.CleanUninstall | internal/controller/alibabacloudcsidriver_controller.go:1263-1317 | over any run, with deletion and re-creation of the CR: what the operator created, adopted without owners or replaced, and whose owners nobody else changed, has one owner, the CR of some time, and is collected exactly when that is gone |
| Garbage.SurvivesUninstall | internal/controller/alibabacloudcsidriver_controller.go:1111-1126 | namespaces, profiles and a snapshot class that existed beforehand are never given an owner in any run, and survive unless others remove or own them |
| StatusHonesty.ComputedStatusIsHonest | internal/controller/alibabacloudcsidriver_controller.go:172-209 | Available=True is computed exactly when the pass returns nil and exactly when Degraded is False, also when RBAC failed with all drivers disabled |
| StatusHonesty.StatusStep | internal/controller/alibabacloudcsidriver_controller.go:197-207 | with fresh reads and spec edits, observedGeneration never falls and never exceeds the generation |
| StatusHonesty.StoredStatusIsHonest | internal/controller/alibabacloudcsidriver_controller.go:197-207 | over any such run, a stored Available=True at generation g was there before or some pass had every object generation g asks for in place when its turn ended |
| Readiness.ComputedFields | internal/controller/alibabacloudcsidriver_controller.go:172-204 | the status of any pass, field by field: the generation read; disk ready if and only if disk is enabled and every step up to its last returned nil; NAS ready if and only if NAS is enabled and every step did; OSS never; the three conditions with status, reason, cause and time |
| Readiness.StoredFields | internal/controller/alibabacloudcsidriver_controller.go:197-207 | with fresh reads, a status write that takes effect on the CR that was read stores just that, in passes that fail too |
| Readiness.DoneInPlace | internal/controller/alibabacloudcsidriver_controller.go:172-189 | if so, each object of that driver and of the shared RBAC was in place when its turn ended, also if the pass failed later |
| Readiness.StoredReadinessIsHonest | internal/controller/alibabacloudcsidriver_controller.go:197-207 | over any run with fresh reads and spec edits, a driver that is stored as ready was so before the run, or some pass had each of its objects in place that the observed generation asks for |
| StaleStatus.ObservedGenerationFalls | internal/controller/alibabacloudcsidriver_controller.go:199-205 | a pass makes the stored observedGeneration fall if and only if its patch takes effect, the generation it read is behind the stored one and was not observed in the copy it read; and makes it exceed the generation if and only if the live CR is of an earlier generation than the one read |
| StaleStatus.FallsOnStaleRead | internal/controller/alibabacloudcsidriver_controller.go:153-159 | for any two specs: a pass observes generation g+1, the next one reads generation g from a stale cache, and the stored value is g again |
| StaleStatus.ObservedGenerationCanFall | internal/controller/alibabacloudcsidriver_controller.go:199-205 | such a run exists on an empty cluster |
| StaleStatus.NeverFallsOnForwardReads | internal/controller/alibabacloudcsidriver_controller.go:197-207 | over any run whose reads of the CR never go back in time, it never falls and never exceeds the generation |
| StaleStatus.RecreatedDuringPass | internal/controller/alibabacloudcsidriver_controller.go:199-207 | a CR of any generation deleted and created again during a pass, with fresh reads: the new one ends with its predecessor's observedGeneration and Available=True, while the store holds what the predecessor asked for |
| Incarnations.LandsOnOther | internal/controller/alibabacloudcsidriver_controller.go:199-207 | a pass changes the status of a CR it did not read if and only if its write takes effect while the live uid differs, and carries a change |
| Incarnations.HonestUnlessMisdirected | internal/controller/alibabacloudcsidriver_controller.go:197-207 | with fresh reads, spec edits, deletions and re-creations: unless a write lands on another uid, a stored Available=True was there before or some pass had everything in place that this generation of this very CR asks for |
| Incarnations.NeverMisdirected | internal/controller/alibabacloudcsidriver_controller.go:197-207 | without deletions of the CR no write lands on another uid |
| Ensured.TaskInPlace | internal/controller/alibabacloudcsidriver_controller.go:1270-1317 | with fresh reads and any interference, a step that returns nil ends with its object owned, replaced, present or patched |
| Ensured.AllInPlace | internal/controller/alibabacloudcsidriver_controller.go:151-210 | so does, in its turn, each step of a list that returned nil |
| Admission.CreateOrAdoptOwns | internal/controller/alibabacloudcsidriver_controller.go:1270-1296 | with fresh reads and any interference, success means the object is there and controlled by the CR |
| Admission.SccIsServed | internal/controller/alibabacloudcsidriver_controller.go:334-367 | with fresh reads the SCC branch is taken only where the API is served |
| Admission.DetectionIsExact | internal/controller/alibabacloudcsidriver_controller.go:334-367 | detection is positive if and only if the mapper call is answered and knows the API, or the discovery after it is answered and finds it |
| Admission.AdmissionAfterRBAC | internal/controller/alibabacloudcsidriver_controller.go:229-248 | after every successful ensureRBAC with fresh reads: if detection hit, the SCC binding is there and controlled by the CR; if not, the namespace, if present, carries the three labels |
| ClassNames.FirstEntryWins | internal/controller/alibabacloudcsidriver_controller.go:434-446 | an absent StorageClass is built from the first entry of its name in the enabled disk list, then the enabled NAS list |
| ClassNames.LastEntryPatches | internal/controller/alibabacloudcsidriver_controller.go:768-778 | a patched profile takes its claim sets from the last such entry |
| PlanShape.ProfilePatchMeans | internal/controller/alibabacloudcsidriver_controller.go:1209-1235 | the patch sets claim sets and clone strategy, the snapshot class only if named, and changes no other field of any profile |
| MergePatch.MergeTwice | internal/controller/alibabacloudcsidriver_controller.go:1230-1235 | applying any merge patch to any document twice equals applying it once |
| MergePatch.MergeMember | internal/controller/alibabacloudcsidriver_controller.go:1230-1235 | member by member: unnamed members stay, null removes, values replace, objects merge into what is there or into nothing |
| DriverEnv.ExtraEnv | internal/controller/alibabacloudcsidriver_controller.go:1399-1419 | the loop yields one entry per extraEnv entry, in order |
| DriverEnv.DriverEnvOf | internal/controller/alibabacloudcsidriver_controller.go:1387-1393 | the ECS endpoint, if set, comes last |
| DriverEnv.LiteralOrSecret | internal/controller/alibabacloudcsidriver_controller.go:1404-1416 | an extraEnv entry yields a literal or a secret reference, never both |
| DriverEnv.UniqueEntry | api/v1alpha1/alibabacloudcsidriver_types.go:309-311 | with unique names, last-entry-wins finds the one entry of a name |
| DriverEnv.EffectiveEnvironment | internal/controller/alibabacloudcsidriver_controller.go:1387-1419 | every name resolves to the endpoint field, else the extraEnv entry, else the built-in entry |
| PinDigest.LongestMatch | hack/pin-operator-digest.py:46 | the match at a position is the longest prefix of the described form, and there is none if there is no such prefix |
| PinPattern.MatchIs | hack/pin-operator-digest.py:46 | the pattern matches exactly the repository with a colon and at least one letter, digit, underscore, dot, dash or wide word character, or with an at sign and `sha256:` and 64 lower-case hex digits; a tag is taken in up to its end and takes in no newline, space, quote, slash, at sign or colon |
| PinPattern.TagIsReplaced | hack/pin-operator-digest.py:44-57 | the repository with any tag of such characters, up to the end of the text or another character, becomes the repository with the digest; what precedes the first reference is copied and the scan goes on from just that character |
| PinPattern.DigestIsReplaced | hack/pin-operator-digest.py:44-57 | so does a reference pinned to any digest |
| PinDigest.NotFoundMeansNowhere | hack/pin-operator-digest.py:51-55 | nothing is found exactly when the pattern matches at no offset |
| PinDigest.OnlyReferencesChange | hack/pin-operator-digest.py:51-57 | everything outside the matches is copied in order, each match becomes the pinned reference, and findall lists the matches |
| PinDigest.PinTwice | hack/pin-operator-digest.py:46-60 | for every text and every repository without `@`, pinning again finds as many references, each the pinned one, and changes nothing |
| PinDigest.RerunIsNoChange | hack/pin-operator-digest.py:57-60 | a second run takes the no-change branch with the same count |
| PinPattern.NoChangeMeansPinned | hack/pin-operator-digest.py:57-60 | the text is unchanged if and only if every reference in it is already the pinned one |
| PinPattern.RunIsExact | hack/pin-operator-digest.py:39-65 | the outcome of a run, decided from its arguments and the text: a digest that is not `sha256:` and 64 hex digits is refused, a text in which neither form occurs is an error, one with only pinned references is left alone, any other is rewritten; with the count of all references |
| PinDigest.PinningClearsGuard | hack/build-community-submission.sh:42-48 | no result contains the repository followed by a tag, at any offset, if and only if the repository does not clash with the digest |
| PinDigest.OrdinaryRepoIsSafe | hack/pin-operator-digest.py:44-57 | a repository whose first character occurs in no digest never clashes |
| PinDigest.SafeForEveryDigest | hack/pin-operator-digest.py:44-57 | a repository clashes with no digest if and only if it is not empty, does not begin with a hex digit, is not `sha256` or `ha256`, and does not begin like a digest from its `s`, `h` or `:` on |
| PinDigest.QuayIsSafeDockerHubIsNot | hack/build-community-submission.sh:42-48 | this operator's repository clashes with no digest; on docker.io it clashes with every digest ending in `d`, and some text stays tagged |
| Uncomment.Index | test/utils/utils.go:215-218 | the first occurrence, or -1 if there is none |
| Uncomment.Scanner.Scan | test/utils/utils.go:226-236 | the scanner delivers the lines one by one, without line ends, and stops at a line that does not fit |
| Uncomment.File.UncommentCode | test/utils/utils.go:206-254 | fails and changes nothing exactly when the target does not occur; otherwise only the first occurrence is replaced, by its lines without the prefix |
| Uncomment.UncommentUndoesComment | test/utils/utils.go:213-245 | a commented block is restored in place, all other bytes unchanged, if and only if every commented line fits the scanner and no line ends in a carriage return |
| Uncomment.UncommentStripsLines | test/utils/utils.go:226-242 | any block loses the prefix once in each line that begins with it and keeps every other line; lines from one of 65536 bytes on are lost |
| Uncomment.UnscannedIsKept | test/utils/utils.go:226-229 | an empty target, or one whose first line does not fit the scanner, changes nothing |
| Uncomment.LineCountIsKept | test/utils/utils.go:230-242 | a restored block has as many lines as the commented one |
| Uncomment.FinalNewlineIsLost | test/utils/utils.go:226-242 | a target that ends in a newline delivers the same lines as without it |
| DeepCopy.CopyEnvVarSpec | api/v1alpha1/zz_generated.deepcopy.go:231-239 | the copy means the same and has its own SecretKeySelector, or none |
| DeepCopy.CopyEnv | api/v1alpha1/zz_generated.deepcopy.go:92-98 | the copied slice and all its secret selectors are new; entry by entry it means the same |
| DeepCopy.CopyControllerSpec | api/v1alpha1/zz_generated.deepcopy.go:167-181 | map and slice are new, with equal contents; nil stays nil and empty stays empty |
| DeepCopy.CopyDiskSpec | api/v1alpha1/zz_generated.deepcopy.go:194-203 | the class slice is new, with equal contents; nil stays nil and empty stays empty |
| DeepCopy.CopyNASSpec | api/v1alpha1/zz_generated.deepcopy.go:251-259 | the class slice is new, with equal contents; nil stays nil and empty stays empty |
| DeepCopy.CopySpec | api/v1alpha1/zz_generated.deepcopy.go:87-102 | the copy means the same and everything it reaches is new |
| DeepCopy.MeansAlike | api/v1alpha1/zz_generated.deepcopy.go:87-102 | two specs mean the same if and only if they are equal in every plain field and alike in every slice, map and secret reference, element by element, nil and empty being distinct |
| DeepCopy.StatusMeansAlike | api/v1alpha1/zz_generated.deepcopy.go:115-124 | the same for the status |
| DeepCopy.CopyStatus | api/v1alpha1/zz_generated.deepcopy.go:115-124 | the copy means the same and its conditions are new |
| DeepCopy.AlibabaCloudCSIDriver.DeepCopy | api/v1alpha1/zz_generated.deepcopy.go:28-44 | the copy means the same, shares no slice, map or struct with the original, and the original is unchanged |
| DeepCopy.NotVisible | api/v1alpha1/zz_generated.deepcopy.go:28-44 | whatever is done to what one of two separate values reaches is not visible through the other |
| DeepCopy.SetStatus | internal/controller/alibabacloudcsidriver_controller.go:199-204 | the base of the status patch still shows the CR as read after the status fields are set |

## Left out

- Reconciler.AlibabaCloudCSIDriverReconciler.EnsureDiskControllerDeployment: of the pod template only image, environment, replicas, selector and tolerations are shown; sidecars, arguments, volumes, resources and affinity are not.
- Reconciler.AlibabaCloudCSIDriverReconciler.EnsureDiskNodeDaemonSet: of the pod template only image, environment and the toleration are shown; probes, mounts, sidecars and host settings are not.
- Reconciler.AlibabaCloudCSIDriverReconciler.EnsureNASControllerDeployment: the same as for the disk Deployment.
- Reconciler.AlibabaCloudCSIDriverReconciler.EnsureNASNodeDaemonSet: the same as for the disk DaemonSet.
- Reconciler.AlibabaCloudCSIDriverReconciler.EnsureNASStorageClass: the parameters are those nasStorageClassParameters yields for the entry, which is not modelled.
- Pod templates: images, volumes, mounts, probes and resources are not opened up; a workload is a payload determined by the CR, of which only image, environment, replicas, selector and tolerations are shown.
- imageFor and the sidecar images.
- The rules of the ClusterRole, and that the operator's own role covers them: a finite table.
- Back-off and jitter between attempts, logging, events, and wrapped error messages (errors are kinds).
- Kubernetes validation and immutability rules; namespaces other than kube-system; several custom resources at once.
- A write that changes nothing takes a new resourceVersion in the model, where the API server would keep the old one.
- Ownership.ExactlyOneController: an API server refuses a second controller, so where the condition fails the real update ends in an error that the model does not raise.
- Finalizers, foreground deletion and the owner-reference namespace rules of the garbage collector.
- Reconciler.AlibabaCloudCSIDriverReconciler.CreateOrAdopt: the object that the source mutates in place is a local value, so aliasing with the caller's variable is not shown; nothing reads that variable afterwards. The same holds for CreateOrUpdate.
- Requeue.Convergence: a failing status patch is not an error of the pass, as in the source, and so is not charged.
- PinDigest.PinTwice: backslashes in the repository, which the template language of subn would interpret, are not modelled; which characters beyond ASCII match `\w` is a parameter of the pattern.
- PinDigest.PinningClearsGuard: the guard's own pattern has a fixed repository, in which grep reads a dot as any character; the model asks for the repository itself followed by any tag character.
- Reading and writing files, argument parsing and I/O errors of the scripts and of UncommentCode.
- DeepCopy of the List type, of TypeMeta and ObjectMeta (library code not shown here), and slices with spare capacity.
- DeepCopy.CopySpec: DeepCopyInto writes through its out argument; here the copied struct is the method's result.
- cmd/main.go flags, TLS, metrics and leader election; manifests, Makefile and end-to-end suites.
