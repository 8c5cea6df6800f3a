# Verified model of the EmELand Kubernetes sensor

The sensor watches a Kubernetes cluster and keeps a landscape model (artifacts, artifact instances,
component and API instances, system instances, roles, bindings, findings) in step with it. Its
reconcilers run independently of each other and share two stores that they change in place: a name
index and the landscape model. This project models those reconcile state machines in Dafny and proves
what they keep over every run.

Check it with `dafny verify dfyconfig.toml`.

## How the model is built

Each reconciler is a class with the fields the program has. Its methods follow the program branch by
branch and are proved to realise a function on a value snapshot of the state they touch (`Images`,
`Access`, `Helm`, `State`, ...). The laws are then proved about those functions, over whole runs. A run
is a sequence of events with the states between them; an event is one reconcile, or (`Elsewhere`) a
change by the other reconcilers that keeps out of this machine's own findings; that whatever one machine
does to the shared findings is such a change for each of the others is proved (`Interplay`). `RbacSensor` and
`HelmSensor` put the reconcilers together on their shared stores and are proved to do, event by event,
what the machine of the laws does; the image scan and the CRD reporter are one class each. `journal` and
`history` fields are histories: one entry for every single write of a store, so that a property can be
stated for every write and not only for the end of a reconcile.

| file | subject |
|---|---|
| `Uuids.dfy`, `Text.dfy` | identifiers and their byte encodings; Go's string functions |
| `Registry.dfy`, `Landscape.dfy` | the name index; the stores of the landscape model |
| `ImageIdentity.dfy`, `ImageObservations.dfy`, `ObservationLaws.dfy`, `TagMerges.dfy`, `PodOrder.dfy` | the fold over all pods into one observation per image, and which entry each status ends up in |
| `ImageScan.dfy`, `ScanEffects.dfy`, `ImageScanLaws.dfy`, `ForeignArtifacts.dfy` | the incremental scan; what it does to any state; agreement with a rebuild; artifacts of other origin |
| `Rbac.dfy`, `RbacSensor.dfy`, `RbacLaws.dfy`, `RbacEffects.dfy`, `WakeUps.dfy`, `Overflow.dfy` | roles and bindings, the wake-up protocol between them, what each event changes, and exactly when a wake-up is lost |
| `ReferenceFindings.dfy`, `HelmSecretName.dfy`, `HelmRelease.dfy`, `HelmSensor.dfy` | workloads, API instances, Helm releases and SystemInstance resources |
| `HelmLaws.dfy`, `HelmEffects.dfy`, `HelmRevisions.dfy`, `HelmDeletion.dfy` | their reference findings and ownership; what each event changes; tracked revisions; a release going away |
| `Interplay.dfy` | what the machines do to each other's findings |
| `RuleRepo.dfy` | the registry of finding rules |
| `CrdCheck.dfy` | the CRD checklist and the reporter of missing CRDs |

For every main operation a law says what one call or event changes and what it leaves, without naming
the functions the operation is made of (`TagMerges.StatusEffect`, `ScanEffects.VisitEffect`,
`RbacEffects.BindingEffect`, `HelmEffects.SecretEffect`, `RuleRepo.SetExactly`, `CrdCheck.SelectLaws` and
others).

Main results:

- An incremental image scan, also after scans that failed midway, leaves exactly what a rebuild from
  nothing leaves (`RunsRefineRebuild`, `IncrementalEqualsFresh`).
- The evidence of every container status is in the one entry that its image's entry was merged into,
  step by step, and a key has an entry exactly when something registered it that no later digest took
  over (`CollectedFacts`, `CollectedKeys`).
- No wake-up of a binding is lost while every arriving role finds room for its requests, and over all
  runs exactly when every binding it wakes comes in time (`NoWakeUpLostWithRoom`, `AlwaysWakesExactly`,
  `NoneForgottenExactly`); what a binding waits for is the role it refers to, under the key that role is
  indexed under (`RoleKeyIsIndexKey`, `ArrivalWakes`).
- Helm ownership agrees with the stored instances in every order of arrival, a deployed release claims
  exactly what its manifest has, and a deleted one leaves nothing behind whatever happens meanwhile
  (`HelmOwnerAgreement`, `SecretEffect`, `DeletedReleaseVanishes`).
- The tracked revision is the largest one seen, with the exact condition for it (`LargestExactly`).
- The rule registry with its in-place compaction refines its event log, and a rule is listed under
  exactly the keys its target makes up (`RegistryRefinesLog`, `SetThenGet`, `ReturnedSlicesAreStable`).
- The Secret-name parser and the checklist parser invert their printers (`RoundTrip`, `ParsedIsPrinted`,
  `ParseChecklist`).

## Assumptions

- Each reconcile is one atomic step. The exception is the CRD reporter, which is modelled critical
  section by critical section. At the granularity of the index lock the two role reads of one binding
  reconcile (internal/controller/util.go:300 and internal/controller/rolebinding_controller.go:124)
  can disagree; the wake-up laws make no claim there.
- UUIDv5 (section 5.5 of RFC 9562) is a free constructor, hence injective in its name space and its
  bytes. That the hashed byte strings are injective encodings is proved.
- Kubernetes UIDs are unique over all kinds (parameters `owner` and `holder`) and never equal a derived
  id. Annotation and UID values arrive parsed, `Nil` when missing or malformed.
- Adding to the landscape model succeeds, except where a failure is a parameter: in the image scan
  (listing artifacts, adding an artifact, adding an instance) and when a Helm SystemInstance is added.
  Deleting succeeds or reports that there is nothing to delete.
- Reading an object from the cluster finds it, reports that it is gone, or fails; a failure changes
  nothing and is retried. A failing pod listing ends a scan before it changes anything.
- Map iteration and artifact listings come in any order. An artifact listing that succeeds is complete.
- The whitelist is any predicate of kind and name. Compiling a rule condition succeeds or fails.
- A binding taken from a requeue channel while it is indexed still has a readable UID.
- No SystemInstance resource shares namespace and name with a Helm release: both would use the same
  index key. The laws of the Helm machine take the keys of releases as a parameter (`isRelease`), and
  SystemInstance resources come and go under all other keys. The id a user chooses for such a resource
  is no id that the sensor derives for a release.
- Which Systems, APIs and Components the model knows is asked when an event is handled (`known`).

Where code and comment disagree the model follows the code: the comment at
internal/controller/rolebinding_controller.go:236-240 says that cluster-scoped names are stored without
a slash, but `NamespacedName.String` always writes one, so a cluster-scoped binding is kept as `/name`.
The round trip is proved for that form.

## Promises with an exception

- Lost wake-ups. A full channel drops requests. The exact condition can be checked before a role is
  reconciled: the requests in the channel of a scope and the waiting bindings of that scope are at most
  64 together. Then and only then nothing is dropped, whatever the order (`NothingDroppedExactly`). A
  binding that waits for this role and has no request in its channel yet is woken in every order then and
  only then; one whose request is already there, or that waits for another role, needs no room
  (`AlwaysWakesExactly`). For one given order it is woken if and only if fewer requests than fit come
  before its own (`WakesExactly`). Over a whole run no binding is ever forgotten if and only if at every
  arrival of a role each such binding comes in time (`NoneForgottenExactly`); in particular in every run
  with room at each arrival (`NoWakeUpLostWithRoom`). `WakeUpLost` is a run that does not meet it: 65
  bindings wait for one role.
- Secret names: the revision comes back unchanged if and only if it is below 2^63 (`RoundTrip`);
  beyond, the 64-bit `int` wraps around (`ParseOfPrint`).
- Latest revision: the tracked revision is the largest one at every moment of a history if and only if
  the startup listing never meets a revision below 1 of a release that is not tracked
  (`LargestExactly`), hence always when revisions are numbered from 1 (`LargestFromOne`);
  `RevisionZeroDependsOnOrder` is the input that fails.
- One artifact per hash: ensuring an artifact gives a hash a second one if and only if the artifact
  listing fails while another artifact already has the hash (`MintsTwinExactly`);
  `BlindScanMintsTwin` is a whole scan that does so.
- Pod order: the result of the fold depends on it. Two pods that pull one digest under two bare names give
  different display names when swapped, and only then (`SwapChangesName`).

## Model

| member | source | states |
|---|---|---|
| `Uuids.ReferenceFindingIdInjective` | internal/controller/reference_findings.go:53-56 | Finding kind followed by 16 subject bytes is an injective encoding: equal finding ids mean equal subject and equal kind. |
| `Uuids.ImageIdsInjective` | internal/controller/image.go:123-130 | Artifact ids and instance ids are injective in the image key, and no artifact id is an instance id. |
| `Uuids.SubjectFindingIdInjective` | internal/controller/rolebinding_controller.go:204-206 | Two bindings never share a missing-subject finding. |
| `Uuids.HelmReleaseIdInjective` | internal/controller/helmrelease_controller.go:99 | Two releases never share a SystemInstance id. |
| `ImageIdentity.CaptureIsFirstWindow` | internal/controller/image.go:30 | The digest expression captures the leftmost window of 64 hex digits, whatever its optional prefix matches, and fails exactly when there is none. |
| `ImageIdentity.ParseImageIdIsFirstWindow` | internal/controller/image.go:64-73 | A hash is found exactly when there is a 64-hex window, and it is the first one in lower case. |
| `ImageIdentity.IdentityIsCanonical` | internal/controller/image.go:83-105 | Every key is a canonical digest or holds no digest; the hash is a function of the key, so equal keys have equal hashes. |
| `ImageIdentity.IdentityOfKey` | internal/controller/image.go:83-105 | A key fed back as an image reference yields the same key and hash. |
| `ImageIdentity.IdentityFromFirstDigest` | internal/controller/image.go:83-105 | The first digest of the image id, or else of the trimmed reference, gives key and hash; without any the trimmed reference is key and name. |
| `ImageIdentity.DisplayNames` | internal/controller/image.go:108-120 | By what comes last in the reference: an old digest or a tag is replaced by the digest, a registry port is not taken for a tag. |
| `Text.TrimSpaceCuts` | internal/controller/image.go:76-78 | Normalising a reference cuts white space off both ends and nothing else. |
| `ImageIdentity.NameEndsInDigest` | internal/controller/image.go:108-120 | A digest's display name ends in the whole digest, whatever tag, port or old digest the reference had. |
| `ImageIdentity.NameDeterminesKey` | internal/controller/image_scan_controller.go:121-125 | A display name belongs to at most one key, so the lookup by name cannot confuse two images. |
| `ImageIdentity.HashDeterminesKey` | internal/controller/image_scan_controller.go:114-120 | A non-empty hash belongs to at most one key. |
| `ImageObservations.AddUnique` | internal/controller/image.go:190-200 | Appends a non-empty value unless it is already there, and changes nothing else. |
| `ImageObservations.ImageObservation.TakeOver` | internal/controller/image.go:202-223 | The digest's entry holds both entries' flags and the union of both lists in order. |
| `ImageObservations.ImageObservation.Record` | internal/controller/image.go:234-254 | A started container adds its locations, one that fails to pull adds its pod. |
| `ImageObservations.ImageObservation.Finish` | internal/controller/image.go:156-169 | A started image keeps no pull failure. |
| `ImageObservations.ObservationTable.EnsureObservation` | internal/controller/image.go:171-188 | Returns the shared entry of the key, new if absent; no other entry changes. |
| `ImageObservations.ObservationTable.MergeTagObservation` | internal/controller/image.go:202-223 | Afterwards no entry is under the tag; the digest's entry absorbs it through a shared reference, as `TagMerges.StatusEffect` says in full; no other entry changes. |
| `ImageObservations.ObservationTable.ObserveContainerStatus` | internal/controller/image.go:234-254 | The in-place update of the map of shared entries is the update of one value. |
| `ImageObservations.ObservationTable.RegisterDeclaredImages` | internal/controller/image.go:225-232 | Every non-empty declared image has an entry; existing entries stay. |
| `ImageObservations.ObservationTable.ObservePodImages` | internal/controller/image.go:256-280 | Declared images first, then the three lists of statuses in their order. |
| `ImageObservations.CollectImageObservations` | internal/controller/image.go:156-169 | The in-place fold over all pods equals the fold on values about which the laws are proved. |
| `ObservationLaws.EnsureLaws` | internal/controller/image.go:171-188 | On normal tables the late upgrade of hash and display name never fires; registering neither adds nor removes evidence. |
| `ObservationLaws.MergeLaws` | internal/controller/image.go:202-223 | Merging a tag entry into a digest entry keeps the normal form and every piece of evidence. |
| `ObservationLaws.StatusLaws` | internal/controller/image.go:234-254 | One container status keeps the normal form and adds exactly its own evidence. |
| `ObservationLaws.CollectIsNormal` | internal/controller/image.go:156-280 | For every pod list each entry has its own key, the hash of its key, started iff it has locations, failed iff it has failing pods, never both, and no duplicates. |
| `ObservationLaws.NodesAreConserved` | internal/controller/image.go:202-254 | The node locations over the whole result are exactly those of pods with a node name and a started status of some image. |
| `ObservationLaws.FailuresAreConserved` | internal/controller/image.go:202-254 | A pod that fails to pull survives in some observation unless that observation started, and only such pods are named. |
| `TagMerges.StatusKeys` | internal/controller/image.go:202-246 | After a status its image has an entry and the tag entry it takes over is gone; every other entry is as it was. |
| `TagMerges.StatusEffect` | internal/controller/image.go:202-254 | The entry holds what it held, what the tag entry held, and what the status says: both flags, every location and every failing pod, iff; lists only grow at the end. |
| `TagMerges.PodsHeard` | internal/controller/image.go:156-280 | The fold is one pass over the words of the pods: per pod the declared images of its containers, init containers and ephemeral containers, then the statuses of each. |
| `TagMerges.CollectedKeys` | internal/controller/image.go:156-280 | A key has an entry iff a declaration or status registered it and no later status with a digest took it over. |
| `TagMerges.TagGoes` | internal/controller/image.go:202-223 | No entry stays under the tag of a status with a digest unless something registers it later. |
| `TagMerges.DeclaredHasEntry` | internal/controller/image.go:225-271 | Every declared image, init and ephemeral ones included, has an entry unless a status takes it over. |
| `TagMerges.CollectedFacts` | internal/controller/image.go:156-280 | An entry is started, failed, on a node or blamed on a pod iff some status said so whose evidence was merged, step by step, into this entry; failures only count while nothing started. |
| `PodOrder.FirstNameWins` | internal/controller/image.go:171-188 | Of two pods that pull one digest under two bare names the first gives the entry its display name. |
| `PodOrder.SwapChangesName` | internal/controller/image.go:156-169 | Swapping the two pods leaves the result of the fold as it is if and only if the names are equal. |
| `Registry.InAnyOrder` | internal/controller/registry.go:100-112 | Ranging over a map lists each element once, in some order. |
| `Registry.NameIndex.Put` | internal/controller/registry.go:61-70 | Sets one name of one kind; all other kinds are untouched. |
| `Registry.NameIndex.Get` | internal/controller/registry.go:73-81 | The id of the name, Nil when there is none. |
| `Registry.NameIndex.Delete` | internal/controller/registry.go:84-97 | Removes one name and returns the id it had, Nil when there was none. |
| `Registry.NameIndex.Keys` | internal/controller/registry.go:100-112 | Lists each name of the kind once. |
| `Registry.NameIndex.SetHelmOwner` | internal/controller/registry.go:116-125 | Sets the owner of one name of one kind and of nothing else. |
| `Registry.NameIndex.GetHelmOwner` | internal/controller/registry.go:129-137 | The owner, Nil when there is none. |
| `Registry.NameIndex.DeleteHelmOwnersBySystemInstance` | internal/controller/registry.go:150-160 | Over all kinds exactly the entries of that SystemInstance go. |
| `Registry.NameIndex.AddPendingBinding` | internal/controller/registry.go:164-173 | The binding joins the waiting set of the role key. |
| `Registry.NameIndex.RemovePendingBinding` | internal/controller/registry.go:177-186 | The binding leaves one waiting set; an empty set is dropped. |
| `Registry.NameIndex.RemovePendingBindingByName` | internal/controller/registry.go:191-200 | The binding leaves every waiting set; empty sets are dropped. |
| `Registry.NameIndex.ResolvePendingBindings` | internal/controller/registry.go:206-222 | Returns each waiting binding once and drops the waiting set. |
| `ImageScan.ImageScanReconciler.FindExistingArtifact` | internal/controller/image_scan_controller.go:109-131 | First match by hash, then by display name, then the tracked artifact if the model still has it; nothing when the listing fails. `ImageScan.FindsCandidate` says what is found. |
| `ImageScan.ImageScanReconciler.EnsureArtifact` | internal/controller/image_scan_controller.go:87-107 | For a complete listing with candidates (by hash, else by name, else the tracked one) it returns one of them, indexes the key to it and leaves the artifacts alone; with none, or no listing, it mints; a failed add leaves everything. |
| `ImageScan.FindsCandidate` | internal/controller/image_scan_controller.go:109-131 | The lookup finds a candidate, and nothing only when there is none or listing failed. |
| `ImageScan.EnsuresCandidate` | internal/controller/image_scan_controller.go:87-107 | A candidate is adopted without touching the artifacts; an artifact with the observed name and hash is minted when there is none. |
| `ScanEffects.VisitEffect` | internal/controller/image_scan_controller.go:46-85 | In any state, foreign artifacts included: the instance is of the ensured artifact and exists iff a copy started; the finding exists iff none did and a pull failed; no other finding changes. |
| `ScanEffects.ScanNames` | internal/controller/image_scan_controller.go:46-188 | After a successful scan from any state exactly the observed images are indexed, and exactly the instances of started ones. |
| `ImageScan.ImageScanReconciler.EnsureArtifactInstance` | internal/controller/image_scan_controller.go:133-145 | Replaces the instance of the key and indexes it. |
| `ImageScan.ImageScanReconciler.DeleteArtifactInstance` | internal/controller/image_scan_controller.go:147-153 | Deletes the indexed instance, or the derived one when none is indexed. |
| `ImageScan.ImageScanReconciler.ReconcileImage` | internal/controller/image_scan_controller.go:46-85 | One turn of the scan's loop, with each way it can fail. |
| `ImageScan.ImageScanReconciler.CleanupInstances` | internal/controller/image_scan_controller.go:155-188 | Goes through a snapshot of all indexed instances and drops those not observed. |
| `ImageScan.ImageScanReconciler.CleanupArtifacts` | internal/controller/image_scan_controller.go:155-188 | Goes through a snapshot of all indexed artifacts, drops those not observed with their findings, and deletes only what the sensor minted. |
| `ImageScan.ImageScanReconciler.Reconcile` | internal/controller/image_scan_controller.go:46-85 | A scan follows some order of images and of stale keys; unless an error ends it every observed image is handled and every indexed key considered. |
| `ImageScanLaws.ExistingIsOwn` | internal/controller/image_scan_controller.go:109-131 | With minted artifacts all three lookups find the image's own artifact or nothing. |
| `ImageScanLaws.VisitLaws` | internal/controller/image_scan_controller.go:46-85 | Handling one image keeps the invariant even when it fails, touches no other image, and on success the state shows the image as observed. |
| `ImageScanLaws.DropInstancesLaws` | internal/controller/image_scan_controller.go:155-188 | Dropping stale instances keeps references intact at every write and leaves observed images alone. |
| `ImageScanLaws.DropArtifactsLaws` | internal/controller/image_scan_controller.go:155-188 | Once the stale instances are gone, dropping stale artifacts keeps references intact at every write. |
| `ImageScanLaws.ScanRefinesRebuild` | internal/controller/image_scan_controller.go:46-188 | From any sound state a successful scan leaves exactly the artifacts of observed keys, the instances of started ones, the findings of failed pulls and matching names; a failed one keeps the invariant; findings of others are kept. |
| `ImageScanLaws.IncrementalEqualsFresh` | internal/controller/image_scan_controller.go:46-188 | Scanning from any sound state and from nothing gives the same names, artifact ids and hashes, instances and findings, whatever the iteration orders. |
| `ImageScanLaws.RunsRefineRebuild` | internal/controller/image_scan_controller.go:46-188 | The same for every run with any number of scans aborted midway, and at every single write of it each instance points at an artifact in the model. |
| `ForeignArtifacts.ForeignIsUntouched` | internal/controller/image_scan_controller.go:155-188 | No scan deletes or overwrites an artifact whose id is not minted, at any write. |
| `ForeignArtifacts.RunsKeepForeign` | internal/controller/image_scan_controller.go:155-188 | The same over every run of scans from any state. |
| `ForeignArtifacts.MintsTwinExactly` | internal/controller/image_scan_controller.go:87-131 | Ensuring an artifact gives a hash a second one if and only if the listing failed while another artifact, and not its own, had the hash. |
| `ForeignArtifacts.BlindScanMintsTwin` | internal/controller/image_scan_controller.go:109-113 | A scan of one pod that cannot list the artifacts ends well and leaves a second artifact with the hash of a foreign one. |
| `ForeignArtifacts.NoSecondArtifactForAHash` | internal/controller/image_scan_controller.go:87-131 | While listings succeed no scan mints a second artifact for a hash, across loop and cleanup. |
| `ForeignArtifacts.RunsMintNoTwin` | internal/controller/image_scan_controller.go:87-131 | The same over every run of scans from any state. |
| `Rbac.RoleBindingReconciler.Reconcile` | internal/controller/rolebinding_controller.go:79-157 | The whole effect of reconciling a binding that is found, gone or unreadable. |
| `Rbac.RoleBindingReconciler.ReconcileFound` | internal/controller/rolebinding_controller.go:85-136 | Indexed always; stored only with a subject; waiting exactly when it has a subject and its role is absent. `RbacEffects.BindingEffect` says the same without the key the code builds. |
| `Rbac.RoleBindingReconciler.ReconcileGone` | internal/controller/rolebinding_controller.go:137-150 | Leaves index, model, findings and every waiting set; nothing happens for an unknown name. |
| `Rbac.RoleBindingReconciler.ReconcileSubjectFinding` | internal/controller/rolebinding_controller.go:173-201 | The finding exists exactly when the binding is not whitelisted and names no subject. |
| `Rbac.RoleBindingReconciler.EnqueueBinding` | internal/controller/rolebinding_controller.go:218-228 | The parsed name joins the channel, or is dropped when 64 requests are in it. |
| `Rbac.Wire` | cmd/main.go:320-325 | After the two calls the role reconciler has one binding reconciler for each scope, and reaches the channel of each. |
| `Rbac.RoleReconciler.Wake` | internal/controller/role_controller.go:99-106 | Each waiting name goes to the channel of its scope and to no other. |
| `Rbac.RoleReconciler.Reconcile` | internal/controller/role_controller.go:76-126 | The whole effect of reconciling a role that is found, gone or unreadable, with every waiting binding woken once, in some order. |
| `Rbac.RoleReconciler.ReconcileRoleSpecFinding` | internal/controller/role_controller.go:130-158 | The finding exists exactly when the role is not whitelisted and names no RoleSpec. |
| `RbacLaws.NameRoundTrip` | internal/controller/rolebinding_controller.go:241-248 | Parsing what NamespacedName.String printed restores namespace and name, cluster-scoped names included. |
| `RbacLaws.PrintParsed` | internal/controller/rolebinding_controller.go:241-248 | Printing what was parsed restores any string with a slash. |
| `RbacLaws.WaitingLaws` | internal/controller/registry.go:164-200 | Each waiting-set operation moves exactly the names it is meant to move. |
| `RbacLaws.RoleKeyIsIndexKey` | internal/controller/rolebinding_controller.go:88-94 | The key a binding looks its role up under is the key that very role is indexed under: a Role of the binding's namespace or a ClusterRole. |
| `RbacLaws.IndexKeysDiffer` | internal/controller/util.go:342-347 | Different roles are indexed under different keys. |
| `RbacLaws.BindingLaws` | internal/controller/rolebinding_controller.go:79-157 | Reconciling a binding restores the invariant for it and leaves every other binding's subject, findings and wake-up as they were. |
| `RbacLaws.SendAllLaws` | internal/controller/role_controller.go:99-106 | The exact result of a drain: the first requests of the scope, as many as are free, stand in the channel in order behind what was there, and the rest is lost. |
| `RbacLaws.StepKeepsInv` | internal/controller/rolebinding_controller.go:79-157 | Every event keeps: unresolved bindings will wake, waiting keys are disjoint from indexed roles, stored bindings have a subject, channels hold names of their scope. |
| `RbacLaws.NoLostWakeUp` | internal/controller/role_controller.go:92-106 | In every reachable state of any run a stored binding without a role waits under the index key of the role it refers to, which is absent, or its request is in the channel of its scope, or a request for it was dropped since its last reconcile. |
| `RbacLaws.StoredOrFindingAlways` | internal/controller/rolebinding_controller.go:102-149 | In every reachable state a binding is stored iff its last annotation was valid, with that subject and with the id its role was indexed under when the binding was last reconciled; its finding exists iff it is neither stored nor whitelisted; only indexed bindings wait. |
| `RbacLaws.DrainTerminates` | internal/controller/rolebinding_controller.go:208-228 | Each request taken leaves one fewer: draining terminates. |
| `RbacLaws.DrainedIsResolved` | internal/controller/role_controller.go:92-106 | After draining, every stored binding has the id its role was indexed under when it was last reconciled, and one whose role is indexed has one, unless a request for it was dropped. |
| `RbacEffects.BindingEffect` | internal/controller/rolebinding_controller.go:85-136 | A binding that exists is stored, with the id its role is indexed under, iff it has a subject; it waits under that role's key iff it is stored without a role; it has the finding iff it has no subject and is not whitelisted; nothing else changes. |
| `RbacEffects.SubjectEffect` | internal/controller/util.go:304-316 | The kind of the first subject decides between identity and group. |
| `RbacEffects.BindingGoneEffect` | internal/controller/rolebinding_controller.go:137-150 | A binding that is gone is not indexed, waits nowhere, and takes its entity and its finding with it; nothing else changes. |
| `RbacEffects.RequestEffect` | internal/controller/rolebinding_controller.go:79-157 | Taking a request is a reconcile of the binding it is for, and takes exactly that request out of its channel. |
| `RbacEffects.RoleEffect` | internal/controller/role_controller.go:82-106 | A role that exists is stored with its RoleSpec and indexed, nothing waits under its key, and it has the finding iff it has no RoleSpec and is not whitelisted; bindings stay. |
| `RbacEffects.RoleGoneEffect` | internal/controller/role_controller.go:107-119 | A role that is gone takes its entity and its finding with it; bindings keep the id they have. |
| `RbacEffects.ArrivalWakes` | internal/controller/role_controller.go:99-106 | In every run the arrival of the very role a binding refers to wakes that binding, and its request is in the channel of its scope if the role's requests fit. |
| `RbacEffects.RolesAreShown` | internal/controller/role_controller.go:76-158 | In every reachable state exactly the roles that appeared and have not gone are indexed, each stored as it last appeared, with a finding iff it named no RoleSpec and is not whitelisted. |
| `WakeUps.NothingDroppedExactly` | internal/controller/role_controller.go:99-106 | In the channel of a scope nothing is dropped, for any order of waking, if and only if its requests and the woken bindings of that scope are at most 64. |
| `WakeUps.RequestSentExactly` | internal/controller/rolebinding_controller.go:218-228 | The k-th woken binding's request is in the channel afterwards if and only if it was before or fewer requests than are free precede it. |
| `WakeUps.WakesExactly` | internal/controller/role_controller.go:92-106 | A binding that would have been looked at again still will be if and only if it is not waiting for this very role or its request fits. |
| `WakeUps.AlwaysWakesExactly` | internal/controller/role_controller.go:92-106 | A binding keeps its wake-up in every order if and only if it does not wait for this role, or its request is in the channel already, or the requests of its scope fit. |
| `WakeUps.NoWakeUpLostWithRoom` | internal/controller/role_controller.go:92-106 | In every run in which arriving roles find room, a stored binding without a role waits under the index key of the role it refers to, which is absent, or its request is in the channel of its scope. |
| `WakeUps.DrainResolvesWithRoom` | internal/controller/role_controller.go:92-106 | In such a run draining both channels resolves every stored binding whose role is indexed, to the id the role was indexed under when the binding was last reconciled. |
| `WakeUps.NoneForgottenExactly` | internal/controller/role_controller.go:92-106 | For every run: up to any moment no stored binding without a role was ever forgotten if and only if at every earlier arrival of a role each binding that was due came early enough for its request to fit. |
| `Overflow.WakeUpLost` | internal/controller/rolebinding_controller.go:218-228 | A run from the empty state: 65 bindings reference a role, the role arrives, and one binding is stored without a role that is indexed, in no waiting set and in no channel. |
| `RbacSensor.Sensor.constructor` | cmd/main.go:295-330 | The four reconcilers share model and index, and both role reconcilers reach both binding reconcilers. |
| `RbacSensor.Sensor.TakeRequest` | internal/controller/rolebinding_controller.go:208-214 | Takes the head of a channel and reconciles it; a failed read leaves it there. |
| `RbacSensor.Sensor.Handle` | internal/controller/role_controller.go:76-126 | For every event the objects on their shared stores do the machine's step, waking bindings in some order, and names of no other kind change. |
| `HelmSecretName.SecretNameParts` | internal/helm/decode.go:133-159 | The digit loop with 64-bit wrap-around parses a name iff it has the fixed prefix, a release name and 'v' with digits, and computes that release and revision. |
| `HelmSecretName.ParseOfPrint` | internal/helm/decode.go:133-159 | Printing and parsing gives back every release name, dots included, and the revision as a 64-bit int. |
| `HelmSecretName.RoundTrip` | internal/helm/decode.go:133-159 | The round trip is exact if and only if the revision is below 2^63. |
| `HelmSecretName.ParsedIsPrinted` | internal/helm/decode.go:133-159 | A name that parses has the printed form, with digits that denote the revision. |
| `HelmSecretName.ShortRevisionsAreExact` | internal/helm/decode.go:145-157 | Up to 18 digits cannot overflow. |
| `ReferenceFindings.WorkloadReconciler.ReconcileFound` | internal/controller/workload_controller.go:67-113 | Stores and indexes the instance; its own SystemInstance annotation wins over the Helm owner. |
| `ReferenceFindings.WorkloadReconciler.ReconcileGone` | internal/controller/workload_controller.go:67-113 | Removes instance, name and both findings; nothing for an unknown name. |
| `ReferenceFindings.WorkloadReconciler.ReconcileComponentReferenceFindings` | internal/controller/workload_controller.go:124-148 | The finding writes in their order, with the legacy annotation as second choice. |
| `ReferenceFindings.APIInstanceReconciler.ReconcileFound` | internal/controller/apiinstance_controller.go:65-108 | As for workloads, without a skip rule. |
| `ReferenceFindings.APIInstanceReconciler.ReconcileGone` | internal/controller/apiinstance_controller.go:65-108 | Removes instance, name and both findings; nothing for an unknown name. |
| `ReferenceFindings.APIInstanceReconciler.ReconcileAPIReferenceFindings` | internal/controller/apiinstance_controller.go:119-143 | The finding writes in their order, with the legacy annotation as second choice. |
| `HelmRelease.HelmReleaseReconciler.ReconcileFound` | internal/controller/helmrelease_controller.go:52-121 | The whole effect of a present Secret: filters, revision tracking, release, correlation, findings. |
| `HelmRelease.HelmReleaseReconciler.ReconcileGone` | internal/controller/helmrelease_controller.go:123-159 | Only the tracked revision undeploys the release. |
| `HelmRelease.HelmReleaseReconciler.PopulateLatestRevisions` | internal/controller/helmrelease_controller.go:187-220 | The startup listing raises tracked revisions and lowers none. |
| `HelmRelease.HelmReleaseReconciler.DeployRelease` | internal/controller/helmrelease_controller.go:98-120 | Stores and indexes the SystemInstance, then correlates, then reconciles findings. |
| `HelmRelease.HelmReleaseReconciler.CorrelateResource` | internal/controller/helmrelease_controller.go:281-324 | Records the owner and attaches an instance that is already there, workloads and services each on their own side. `HelmEffects.CorrelateAllEffect` says which. |
| `HelmRelease.HelmReleaseReconciler.CorrelateResources` | internal/controller/helmrelease_controller.go:273-325 | All manifest resources in order; the last claim of a name wins. |
| `HelmRelease.HelmReleaseReconciler.ReconcileSystemReferenceFindings` | internal/controller/helmrelease_controller.go:247-267 | The finding writes in their order. |
| `HelmRelease.HelmReleaseReconciler.HasSystemInstance` | internal/helm/decode.go:122-129 | True iff some manifest resource is a SystemInstance. |
| `HelmRelease.SystemInstanceReconciler.ReconcileFound` | internal/controller/systeminstance_controller.go:55-66 | Stores and indexes a custom resource with a UUID; names of all other kinds, owners, instances and findings stay. |
| `HelmRelease.SystemInstanceReconciler.ReconcileGone` | internal/controller/systeminstance_controller.go:67-76 | Removes name and entity, only the name when it has no id; names of all other kinds, owners, instances and findings stay. |
| `HelmSensor.Sensor.Handle` | internal/controller/helmrelease_controller.go:46-163 | For every event the four reconcilers on their shared stores do the machine's step, and names of no other kind change. |
| `HelmLaws.ReconcileLaws` | internal/controller/helmrelease_controller.go:247-267 | Reconciling a subject's findings leaves exactly the right one of the two, touches no other subject, and never shows both at any write. |
| `HelmLaws.ForgetLaws` | internal/controller/reference_findings.go:96-99 | Forgetting a subject removes both of its findings and no other subject's. |
| `HelmLaws.StepKeepsInv` | internal/controller/helmrelease_controller.go:46-163 | Every event of the Helm, SystemInstance, workload and API-instance reconcilers keeps the joint invariant. |
| `HelmEffects.SecretEffect` | internal/controller/helmrelease_controller.go:52-121 | A Secret counts iff it is a release's and no newer revision is tracked; it deploys iff it says deployed, brings no SystemInstance and the model takes it; then the release is stored and indexed and claims its manifest on both sides. |
| `HelmEffects.CorrelateAllEffect` | internal/controller/helmrelease_controller.go:235-325 | For each Deployment, StatefulSet, DaemonSet, Job and CronJob on the component side, each Service and Ingress on the API side: the release owns the name, and the instance indexed under it is attached; all other owners and instances stay. |
| `HelmEffects.LostEffect` | internal/controller/helmrelease_controller.go:123-159 | A Secret that is gone counts iff it holds the tracked revision; then revision, name, SystemInstance, findings and exactly the release's owner entries go, and instances stay. |
| `HelmEffects.InstanceEffect` | internal/controller/workload_controller.go:67-148 | An existing instance is stored and indexed; its own annotation precedes the Helm owner, the reference annotation the legacy one; exactly the right finding remains, with its content; nothing else changes. |
| `HelmEffects.GoneEffect` | internal/controller/apiinstance_controller.go:65-108 | An instance that is gone takes its name, its entity and both findings with it; nothing else changes. |
| `HelmEffects.CustomEffect` | internal/controller/systeminstance_controller.go:55-76 | A custom resource with a UUID is stored and indexed, one that is gone is neither; nothing else changes. |
| `HelmLaws.HelmOwnerAgreement` | internal/controller/helmrelease_controller.go:273-325 | In every reachable state an indexed instance without an annotation of its own is attached to exactly the release the owner index names. |
| `HelmLaws.NoOrphanedHelmState` | internal/controller/helmrelease_controller.go:123-159 | In every reachable state, whatever custom resources are stored beside the releases, an indexed release is tracked and stored, every stored SystemInstance of a release is indexed, and every owner entry names one. |
| `HelmDeletion.OrderDoesNotMatter` | internal/controller/helmrelease_controller.go:130-140 | Delivering deletions of a release's Secrets in any order has the effect of the one deletion of the tracked revision, or none. |
| `HelmDeletion.TrackedWasShown` | internal/controller/helmrelease_controller.go:64-75 | In every reachable state a tracked revision is that of a Secret that a reconcile or the startup listing saw, and has been tracked ever since that moment. |
| `HelmDeletion.DeletedReleaseVanishes` | internal/controller/helmrelease_controller.go:123-159 | When every Secret name of a release that was ever seen has been reported gone and was not seen again since, at whatever times, in any order and with any other events in between, no SystemInstance, owner entry or reference finding of the release is left. |
| `HelmDeletion.DeletionTouchesOne` | internal/controller/helmrelease_controller.go:123-159 | In every run the deletion of a Secret touches no other release, no custom resource and no instance. |
| `HelmLaws.ReferenceFindingsAreExact` | internal/controller/apiinstance_controller.go:119-143 | At every write of any run no subject has both findings; a stored instance misses a reference iff it has none; no finding outlives its entity. |
| `Interplay.OneOwner` | internal/controller/reference_findings.go:53-56 | No finding id belongs to two of the four machines. |
| `Interplay.StepsAreElsewhere` | internal/controller/reference_findings.go:53-99 | Whatever a step of one machine does to the shared findings is, for each of the other machines, a change their laws allow. |
| `HelmRevisions.LargestExactly` | internal/controller/helmrelease_controller.go:64-75 | The tracked revision is the largest since the last clearing at every moment of a history if and only if the startup listing never meets a revision below 1 of an untracked release. |
| `HelmRevisions.SightingKeepsLaw` | internal/controller/helmrelease_controller.go:201-216 | One sighting keeps that law if and only if it is not such a listing. |
| `HelmRevisions.TrackedIsLargest` | internal/controller/helmrelease_controller.go:64-75 | For histories without such a listing of this release: tracked iff a revision was seen since it was last cleared, and then the largest; only its own disappearance clears it. |
| `HelmRevisions.OrderIndependent` | internal/controller/helmrelease_controller.go:187-220 | While no Secret of the release goes away, neither the order of sightings matters nor whether the startup listing or a reconcile made them. |
| `HelmRevisions.RevisionZeroDependsOnOrder` | internal/controller/helmrelease_controller.go:212-215 | Counterexample at revision 0: tracked by a reconcile, not by the startup listing. |
| `HelmRevisions.ListingAgreesWithReconcile` | internal/controller/helmrelease_controller.go:212-215 | Listing and reconciling a Secret have the same effect if and only if its release is tracked or the revision is at least 1. |
| `HelmRevisions.RunTracks` | internal/controller/helmrelease_controller.go:46-220 | Over every run of the reconcilers the tracker is the one the sightings of that run produce. |
| `HelmRevisions.LatestRevisionIsLargest` | internal/controller/helmrelease_controller.go:64-75 | Hence the maximum law holds in every reachable state of the reconcilers, on the condition for this release alone. |
| `HelmRevisions.PositiveIsCareful` | internal/controller/helmrelease_controller.go:212-215 | A history whose listings of the release have revisions of at least 1 overlooks nothing. |
| `HelmRevisions.LargestFromOne` | internal/controller/helmrelease_controller.go:187-220 | Hence with listed revisions of at least 1 the maximum law holds in every reachable state, whatever revisions the reconciles see. |
| `RuleRepo.RegistryRefinesLog` | internal/controller/rule_registry.go:73-132 | After any history a key lists the surviving rules in order of last successful Set, each as often as pairs of a group and a resource of its target make up the key; no key keeps an empty list. |
| `RuleRepo.ExpectedAppend` | internal/controller/rule_registry.go:73-118 | A new event removes exactly its own rule's earlier contributions, and none if it failed to compile. |
| `RuleRepo.PairsCounted` | internal/controller/rule_registry.go:56-69 | A key is among the targets as often as pairs of group and resource make it up. |
| `RuleRepo.SetExactly` | internal/controller/rule_registry.go:73-95 | After a Set that compiles the list of a key has the rule as often as pairs make up the key, no other rule of its name, and every rule of another name it had. |
| `RuleRepo.SetThenGet` | internal/controller/rule_registry.go:73-132 | The same through the program's calls: a Set and then a GetRulesForResource. |
| `RuleRepo.RuleRepo.CollectTargetKeys` | internal/controller/rule_registry.go:61-69 | As many keys as groups times resources; the one at i * |resources| + j is group i, a slash, and resource j. |
| `RuleRepo.RuleRepo.Compact` | internal/controller/rule_registry.go:106-111 | The in-place filter over the same backing array keeps the other rules in order. |
| `RuleRepo.RuleRepo.RemoveLocked` | internal/controller/rule_registry.go:104-118 | Every key loses exactly that rule, in any order of keys; keys left empty go; no key's array is written through another key. |
| `RuleRepo.RuleRepo.Append` | internal/controller/rule_registry.go:91-93 | One key grows by one rule, in place or in a new array; all other keys list what they did. |
| `RuleRepo.RuleRepo.Set` | internal/controller/rule_registry.go:73-95 | The registry is again what its log makes it; a rule that fails to compile changes nothing. |
| `RuleRepo.RuleRepo.Remove` | internal/controller/rule_registry.go:98-102 | The registry is again what its log makes it. |
| `RuleRepo.RuleRepo.GetRulesForResource` | internal/controller/rule_registry.go:121-132 | Returns, in an array the registry does not hold, what the log says survives for the key. |
| `RuleRepo.ReturnedSlicesAreStable` | internal/controller/rule_registry.go:121-132 | A returned slice is not disturbed by any later sequence of Sets and Removes. |
| `CrdCheck.ParseChecklist` | internal/crdcheck/crdcheck.go:71-99 | Succeeds iff every non-empty trimmed token has exactly three non-empty parts; printing the entries gives the tokens in order; known tokens give the default entry, others a generic one; no part holds a slash. |
| `CrdCheck.ParseCRDToken` | internal/crdcheck/crdcheck.go:101-115 | Succeeds iff the token is well formed, and its entry prints as the token. |
| `CrdCheck.BuildLookup` | internal/crdcheck/crdcheck.go:77-80 | The table maps exactly the default tokens to their entries. |
| `CrdCheck.KnownIsWellFormed` | internal/crdcheck/crdcheck.go:44-66 | Every default entry prints as a well-formed token. |
| `CrdCheck.CollectKeys` | internal/crdcheck/crdcheck.go:170-194 | The keys of all resources in the lists that are there, and no others. |
| `CrdCheck.Check` | internal/crdcheck/crdcheck.go:129-226 | An entry is available iff the returned lists offer its resource under its group and version, also beside an error; after total failure all is missing; both lists keep the order of the checklist, and no entry is lost or duplicated; the error is passed on. |
| `CrdCheck.SelectConserves` | internal/crdcheck/crdcheck.go:201-224 | Every entry is on exactly one of the two lists, as often as on the checklist. |
| `CrdCheck.DiscoveredIsOffered` | internal/crdcheck/crdcheck.go:170-202 | The key of an entry is discovered iff some list offers that resource under that group and version. |
| `CrdCheck.SelectLaws` | internal/crdcheck/crdcheck.go:201-224 | The available entries are offered and the missing ones are not, both in the order of the checklist. |
| `CrdCheck.CrdFindingIdInjective` | internal/crdcheck/crdcheck.go:433-434 | Entries that differ in group, version or resource have different findings; every parsed checklist is of such entries. |
| `CrdCheck.Reporter.Report` | internal/crdcheck/crdcheck.go:272-302 | One finding per missing CRD on the subject; nothing for an empty subject. |
| `CrdCheck.Reporter.ReportWithContext` | internal/crdcheck/crdcheck.go:348-368 | One critical section: findings on the context, flag set. |
| `CrdCheck.Reporter.ReportFallback` | internal/crdcheck/crdcheck.go:373-394 | One critical section: findings on the Node unless the flag is set. |
| `CrdCheck.Reporter.BeginClear` | internal/crdcheck/crdcheck.go:399-407 | The first critical section of clearing: the flag goes. |
| `CrdCheck.Reporter.EndClear` | internal/crdcheck/crdcheck.go:399-407 | The second one, after a gap in which anything may have happened. |
| `CrdCheck.StepKeepsInv` | internal/crdcheck/crdcheck.go:346-408 | Every critical section keeps all CRD findings on one subject that fits the flag, and no other finding changes. |
| `CrdCheck.FindingsFollowTheFlag` | internal/crdcheck/crdcheck.go:346-408 | For every interleaving: one subject for all findings; the latest context while the flag is set; the Node once the flag is off and no clear is under way. |

## Left out

- Wiring, command line, HTTP server, probes, logging, the Kubernetes client, informers, periodic timing and retry delays.
- Gzip, base64, JSON and YAML decoding of Helm releases and manifests; a decoded release and its list of resources are inputs.
- CEL compilation and evaluation and the rule evaluator; compiling is a success or a failure.
- The pattern matching of the whitelist.
- The reconcilers of the System, API and Component resources and of Namespaces: plain put and delete, easy members only. What they contribute, which targets exist, is a field of the model and a parameter of the events.
- The controller kinds that differ only in their prototype (five workload kinds, Services and Ingresses): one reconciler of each sort stands for them.
- The model server's event chain, replication and filters, and the Node and Context entities.
- Human-readable text of findings, the annotations copied from objects, and the JSON form of the locations annotation (internal/controller/image.go:283-292); instances keep the list of locations.
- Registration of finding types, which happens before an upsert and touches no finding.
- ReportFallback, ReportWithContext and ClearContext on a nil reporter do nothing and are not modelled.
- What of the observations is independent of pod order, beyond the node locations and failing pods that `NodesAreConserved` and `FailuresAreConserved` determine.
- Strings are sequences of characters; UTF-8 bytes and invalid encodings are not modelled.
- ObservationLaws.NodesAreConserved: `oci://` locations are not traced back to their statuses, because an entry keeps the display name it was first registered with.
- ImageScanLaws.IncrementalEqualsFresh: display names of artifacts are not compared, because an existing artifact keeps the name it was minted with.
- HelmLaws.HelmOwnerAgreement: makes no claim for resources with their own SystemInstance annotation, because correlation overwrites their reference until the next reconcile of the resource.
- RbacLaws.NoLostWakeUp: over all runs it excuses a binding whose request was dropped since its last reconcile; WakeUps.NoWakeUpLostWithRoom does without the excuse where every arrival finds room.
- RbacLaws.DrainedIsResolved: a stored role reference can go stale after its role is deleted; the code does not refresh it.
- ForeignArtifacts.NoSecondArtifactForAHash: exact cleanup is not claimed once foreign artifacts share a hash with an observed image.
