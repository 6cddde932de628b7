# Verified model of the expbuild control plane and caches

expbuild runs cache servers for build projects.  A management API accepts operations on cache
instances, leased workers carry them out against PostgreSQL and Kubernetes, an operator turns the
custom resources into workloads and volumes, and small cache engines keep artifacts on a volume under
a byte budget.  What users rely on is spread over many functions that run concurrently: a retained
volume must not end up with the wrong instance, quotas must hold while updates are in flight, recovered
volumes must run the images they began with, and a cache must come back from any crash.  This project
models those parts in Dafny and proves such properties for all inputs, all runs and all interleavings.

`dafny verify dfyconfig.toml` checks everything.

## What is modelled

**The operation protocol of one instance.**  `Protocol.dfy` is a state machine over the database rows of
an instance (binding, operations, credentials), its cluster objects (custom resource, volume claim,
Secrets) and, for every claim a worker ever took, the worker's own copy of what it claimed and read.  A
step is one transaction, one Kubernetes request or one operator write.  A claim may stall anywhere and
resume after its lease has run out, answers to creates may be lost, and the operator may act on any
version it once read.  `Identity`, `Lineage`, `Credentials`, `Revocations`, `Reservations`, `Fencing`,
`Deletion`, `Standing`, `Readiness`, `Evidence`, `Records` and `Storage` hold the invariants, one concern each,
`Effects` what one step can do at most, and `Causes` what each step takes and leaves in terms of the tables.
`ControlPlane.dfy` is the imperative form: request handlers, worker transactions and Kubernetes calls on
mutable tables, each tied to its step, and one uninterrupted worker pass shown to be a run of the machine.
`Quotas.dfy` puts any number of instances into a project with limits.  `Revisions.dfy` is the case of
`Reservations` in which every update changes something, and the `Stale*` files are runs that show where a
guarantee ends.

**Images and teardown.**  `Images.dfy` is the trust machine of image bindings, sealed records and pinned
volumes, with forged, deleted and altered records, lost and drifted workloads and objects from before image
bindings as steps; `Approvals.dfy` says what an approval rests on; `ImageOperator.dfy` is the imperative form, with
the check of running Pods.
`Finalizer.dfy` is the teardown of one instance beside stopping Pods and a disappearing volume.

**Cache engines.**  `Envelope`, `Directory`, `Recency` and `GoCache` model the Go cache server: file format,
directory, eviction order, and a class whose ghost log records the directory after every file
operation, so that a crash is a cut at any entry of the log.  An upload is staged in chunks without the lock,
and reads are served between them.  `GradleCache.dfy` models the Gradle cache
server with a ledger of all bytes.  `Render.dfy` is the budget arithmetic in 64-bit integers.

**Inventory.**  `Quantities.dfy` reads Kubernetes quantities from strings as exact fractions, `Suffixes.dfy` says
what each suffix is worth; `Inventory.dfy` is the comparison of bindings with observed objects, `Findings.dfy` when
exactly it reports what, `Soundness.dfy` what Healthy means,
`Repair.dfy` the raising of a reservation.

## Where the code does not keep what it is meant to keep

Each of these is a property that fails.  It comes with a run or a request sequence in which it fails, and
with a condition on single steps.  For the reservation, the Secrets and the caches the condition is exact for
the property; for the moved volume, the volume reported as deleted and the usage it is exact for the invariant
from which the property follows.

- *Reservation below the bound object.*  A success settles processor and memory down to what its operation
  asked for.  If a claim of an older, larger update still matches the expected revision, which needs an update
  in between that left the configuration as it was, the object then asks for more than is reserved:
  `StaleRuns.ReservationCanFallShort` (`StaleRuns.StaleClaimSurvives`: exactly such an edit lets the older claim write).
  `Reservations.SecureUnlessShort`: a run is secure in all its states,
  now and after any write that is possible then, if and only if no settlement in it falls short of the bound
  object or of such a claim.  `Revisions.ChangingRunsCover`: runs whose updates all change something are.
- *Volume moved to an object the binding does not name.*  A delete removes the object of a reclaim at once, for
  want of a finalizer, while its volume is still with an earlier identity; a stalled create then makes a second
  object and a stalled observation of the same operation marks it: `StaleReclaim.TransferCanMissBinding`.
  `Identity.SafeUnlessExposed`: a deletion keeps the transfer invariant if and only if it does not do this, and
  `Identity.TransferOnlyToBound` holds in every run without such a deletion.
- *Volume reported as deleted and still there.*  A stalled update takes the policy Delete back after a delete has
  recorded it: `StalePolicy.DeletedCanLeaveVolume`.  `Deletion.KeptUnlessWithdrawn` says
  exactly which writes keep the invariant, `Deletion.DeletedMeansGone` is the theorem for all runs of such writes.
- *Secret of a later object deleted.*  A stalled delete lists the credentials only after the volume was reclaimed:
  `StaleDelete.DeleteCanTakeLaterSecret`.  The guard is the position of the credential: a delete overreaches when it
  revokes one that was inserted after the delete itself was accepted.  `Revocations.BoundSecretExists` holds in every
  run without such a revocation, and `Revocations.PresentUnlessHit` says which of them do harm.
- *Usage raised by a worker.*  A volume is deleted on request after a failed create whose object exists; a rotation
  then makes the instance active again without any check of the totals: `StaleVolume.WorkerCanRaiseUsage`.
  `Standing.StandsUnlessPremature` says exactly which successes keep the invariant behind `Standing.UsageFalls`.
- *An orphaned archive.*  When the Gradle server rolls an insert back and cannot remove the file, the file stays
  without an entry: `GradleCache.Server.Put` says so if and only if, `GradleCache.Server.Serve` proves that every
  later GET of that name answers 404 and every upload of it is refused, 409 unless it fails before,
  and `GradleCache.OrphanWitness` is a request sequence that leads there.
- *Access times that are never persisted.*  The Gradle server compares with the access time in memory.
  `GradleCache.TimeMovesOverGaps`: repeated reading moves the time of the file if and only if some access comes a
  minute or more after the one before; `GradleCache.NeverStamped`: an archive read every so many
  seconds is never stamped, however long this goes on, exactly if they are less than sixty.
- *503 for a PUT that has been published.*  `GoCache.Server.Commit`: a published PUT answers 503 if and only if the
  directory cannot be synced after the rename.  `GoCache.PublishedButRefused` does it with any upload that
  is acceptable and then reads it.

## Abstractions

Object identities are increasing numbers.  Credentials are named by the operation that made them, and
operations by their position in the order of acceptance, which is also the order of `created_at`; at most
one operation of an instance runs (the unique index of `apps/admin-api/migrations/001_platform.sql:68`).
A read followed by a write that carries the resourceVersion read is one step.  Custom resources are
created, edited and deleted only by workers and the operator.  An operation may be given up at any
stage, which covers deadlines and rejected requests.  Storage class, phase and Pod checks of the reclaim
only reject more and are not in the protocol.  Hashes are injective functions and metadata encoding is a
codec with a left inverse on valid metadata.  File operations are atomic and may fail, which is given with
each request; the removal of a staging file does not fail.  In the teardown nobody but the operator scales the
workload, so no Pod starts after it has been scaled down.

## Model

| member | source | states |
|---|---|---|
| Identity.TransferOnlyToBound | operator/internal/controller/cacheinstance.go:266-324 | In every run without an exposed deletion, with stalled and expired claims, lost answers and retries, the operator moves the volume's identity label to U only while the binding records U |
| Identity.SafeUnlessExposed | apps/admin-api/src/kubernetes.ts:239-242 | A deletion keeps the invariant behind this if and only if it does not remove at once an object whose volume is still with an earlier identity |
| StaleReclaim.TransferCanMissBinding | apps/admin-api/src/worker.ts:288-328 | Without the finalizer this fails: a reachable state in which the operator may move the volume to 3 while the binding names 2 |
| Identity.BindingStep | apps/admin-api/src/worker.ts:144-164 | The binding changes only under a held claim, from nothing by a create or from P to a later U by a reclaim that names P |
| Identity.BindingNeverReturns | apps/admin-api/src/worker.ts:148-151 | Along every run the bound identity only moves forward, so it never returns to an earlier one |
| Deletion.TransferOnlyToCurrent | operator/internal/controller/cacheinstance.go:296-324 | In every run, whatever stale version the operator works from, it hands the volume only to the object that exists at that moment |
| Credentials.CleanupSparesBound | apps/admin-api/src/worker.ts:355-369 | Cleanup after a rotation or reclaim, also by a claim that expired long ago, never deletes the Secret the bound object refers to |
| Revocations.BoundSecretExists | apps/admin-api/src/kubernetes.ts:185-193 | In every run in which no delete revokes a credential inserted after it was accepted, whatever stalls and whatever else is in flight, the Secret of the bound object exists in every state |
| Revocations.OlderUnneeded | apps/admin-api/src/worker.ts:228-238 | A credential not newer than the delete that revokes it is needed neither by the bound object nor by any claim that may still write |
| Revocations.PresentUnlessOverreached | apps/admin-api/src/worker.ts:228-238 | A revocation leaves all needed Secrets in place unless it is of a needed credential newer than the delete, and only then not |
| Revocations.PresentUnlessHit | apps/admin-api/src/worker.ts:228-238 | The needed Secrets are there in all states of a run if and only if no delete of the run revokes a needed credential newer than itself |
| StaleDelete.DeleteCanTakeLaterSecret | apps/admin-api/src/worker.ts:228-238 | A reachable state in which a stalled delete has removed the Secret of the object that came after |
| Credentials.RevisionsArePositions | apps/admin-api/src/instance-routes.ts:582-585 | Whatever is inserted with the largest revision plus one, the revisions of the table are the positions of its rows |
| Credentials.SelectionByRevision | apps/admin-api/src/worker.ts:356-361 | The credentials with a smaller revision than that of a Secret are those inserted before it |
| Reservations.ReservationCoversBound | apps/admin-api/src/quotas.ts:103-120 | In every state of a run without a settlement that falls short, the stored reservation covers what the bound object asks for, with stale update claims in flight |
| Reservations.SecureUnlessShort | apps/admin-api/src/quotas.ts:103-120 | All states of a run are covered, now and after any write possible then, if and only if no settlement of the run falls short of the bound object or of a claim that could still write |
| Revisions.ChangingRunsCover | apps/admin-api/src/kubernetes.ts:223-238 | No settlement falls short in a run whose accepted updates all change the configuration |
| StaleRuns.ReservationCanFallShort | apps/admin-api/src/kubernetes.ts:223-238 | With an update that changes nothing this fails: a reachable state whose bound object asks for more than is reserved |
| Fencing.OneLiveClaim | apps/admin-api/src/worker.ts:49-62 | Two claims of one operation are never live at once |
| Fencing.StateMoves | apps/admin-api/src/worker.ts:85-143 | Every way an operation's state can move in one step: ends and progress only under a live claim, resumption only from failed and only of the newest operation, nothing out of succeeded or superseded |
| Fencing.FinalStays | apps/admin-api/src/instance-routes.ts:668-670 | Succeeded and superseded are kept for the rest of every run |
| Fencing.LateClaimsOnlyObserve | apps/admin-api/src/worker.ts:260-302 | A claim taken after its operation had once ended finds no sealed credentials and never provisions, creates or updates |
| Fencing.LifecycleUnderLiveClaim | apps/admin-api/src/worker.ts:92-137 | A worker changes lifecycle or reservation only through a live claim |
| Readiness.SucceededWasReady | apps/admin-api/src/worker.ts:334-388 | In every run, a create, update, rotation or reclaim that succeeded was seen done: a version of a bound object, written by it with just its configuration, at the bound generation and reported ready for that generation, and approved if it took over a volume |
| Readiness.GoesOnIfDone | apps/admin-api/src/worker.ts:334-389 | A claim goes on to its conclusion if and only if it has read the bound object as its operation wrote it, at the target and ready; it waits, gives way or fails exactly in the other three cases |
| Readiness.DoneSucceeds | apps/admin-api/src/worker.ts:350-388 | A held claim that has read such a version brings a create or update to Succeeded and the instance to Active |
| Evidence.WrittenOnEvidence | apps/admin-api/src/worker.ts:260-296 | In every run a version is written only on evidence of the same claim: sealed credentials at hand, for a reclaim its volume seen in the earlier hands and not being deleted; a create finds no object, an update just the version it was accepted for, not being deleted |
| Evidence.VolumeDeletedOnEvidence | apps/admin-api/src/worker.ts:182-198 | In every run a worker marks a volume only if its claim has read just this volume under the binding it was asked for and then found no object |
| Evidence.VolumeReportedGone | apps/admin-api/src/worker.ts:186-201 | The deletion of a volume succeeds only after its claim found the volume gone under that binding |
| Evidence.PolicyOnEvidence | apps/admin-api/src/worker.ts:204-224 | The policy a delete records, under its lease only, is that of a version of its own object that the claim has read |
| Evidence.RevokedBeforeSuccess | apps/admin-api/src/worker.ts:228-238 | In every run a rotation or reclaim succeeds only after its claim revoked every credential inserted before the new one, a delete only after it revoked all that were there when it was accepted |
| Records.TargetIsBoundVersion | apps/admin-api/src/worker.ts:144-164 | In every run an operation has a target exactly if it bound a version, and that was written by it with its configuration, was not being deleted and has the target as generation |
| Records.PolicyStays | apps/admin-api/src/worker.ts:212-224 | Along every run a recorded deletion policy never changes |
| Storage.StorageNeverShrinks | apps/admin-api/src/instance-routes.ts:444-448 | Along every run, with stale updates in flight, an object never asks for less storage than it once did |
| Storage.ReservedNeverShrinks | apps/admin-api/src/quotas.ts:103-120 | Nor does the storage that is reserved ever fall |
| Deletion.DeletedMeansGone | apps/admin-api/src/worker.ts:204-250 | If no edit takes a recorded Delete back, a succeeding delete finds its bound object gone, reports deleted exactly if the recorded policy is Delete, and then the object's volume is gone too; otherwise it reports detached |
| Deletion.KeptUnlessWithdrawn | apps/admin-api/src/worker.ts:214-219 | A write keeps the invariant behind this if and only if it does not turn the policy of an object to Retain after a delete of it has recorded Delete |
| StalePolicy.DeletedCanLeaveVolume | apps/admin-api/src/worker.ts:214-227 | A reachable state in which a delete is about to report the volume as deleted while it is there |
| Standing.UsageFalls | apps/admin-api/src/quotas.ts:103-120 | Only create, update, reclaim and reservation repair can raise what an instance counts; settlement, failure, retry, deletion and rotation never do |
| Standing.StandsUnlessPremature | apps/admin-api/src/worker.ts:186-201 | A success keeps the invariant behind this if and only if it is not that of a volume delete while the bound object is there |
| StaleVolume.WorkerCanRaiseUsage | apps/admin-api/src/worker.ts:186-201 | A reachable state in which the success of a rotation raises what the instance counts, after a volume delete of a failed instance |
| Quotas.OnlyReconciliationExceeds | apps/admin-api/src/quotas.ts:20-101 | For any number of instances and any interleaving, a step that takes a project total above its limit is a reservation repair, if no volume delete succeeds while the object is there |
| Quotas.QuotaHolds | apps/admin-api/src/app.ts:256-275 | Without repairs every total is within its limit in every reachable state, also across changes of the limits |
| Quotas.CheckQuota | apps/admin-api/src/quotas.ts:59-71 | The check passes if and only if no limit is exceeded and no limit stands beside an unknown reservation; an error names an exceeded key |
| Quotas.TotalsCount | apps/admin-api/src/quotas.ts:33-45 | The totals are the number of bindings that have not left and the sums of the known storage of all that are not deleted and the known processor and memory of those that have not left |
| ControlPlane.Plane.Tick | apps/admin-api/src/worker.ts:49-84 | A worker takes the oldest due operation if there is one; its pass, however much time goes by in between, is a run of the state machine that does just what is next at each stage, ends, and leaves neither claim nor lease in its hands |
| ControlPlane.Plane.Due | apps/admin-api/src/worker.ts:51-56 | Finds the first operation that is due and not leased, or none if there is none |
| ControlPlane.Plane.Execute | apps/admin-api/src/worker.ts:165-389 | One execution terminates as a run in which the claim does what is next: it fails at once past the deadline, defers at once behind the quota gate, and otherwise defers only where it has to wait and fails only where something failed or its volume was refused |
| ControlPlane.Progress | apps/admin-api/src/worker.ts:165-389 | At every stage the next action is possible and brings the claim nearer to its end |
| ControlPlane.Plane.Bind | apps/admin-api/src/worker.ts:144-164 | The fenced bind transaction on the tables is the bind step |
| ControlPlane.Plane.Finish | apps/admin-api/src/worker.ts:92-137 | The fenced terminal transaction on the tables, with settlement, is the terminal step |
| ControlPlane.Plane.Defer | apps/admin-api/src/worker.ts:138-143 | The deferral on the tables is the deferral step |
| ControlPlane.Plane.CreateInstance | apps/admin-api/src/kubernetes.ts:198-207 | Creation, and recognition of an object this operation made before, is the create step |
| ControlPlane.Plane.UpdateInstance | apps/admin-api/src/kubernetes.ts:223-238 | The compare-and-swap on the expected revision is the edit step |
| ControlPlane.Plane.ApproveRetainedVolumeReclaim | apps/admin-api/src/kubernetes.ts:208-222 | The marking of a reclaiming object is the approval step |
| ControlPlane.Plane.DeleteObject | apps/admin-api/src/kubernetes.ts:239-242 | The deletion with the identity as precondition is the delete step |
| ControlPlane.Plane.DeleteRetainedVolume | apps/admin-api/src/kubernetes.ts:259-272 | The deletion of the volume that was read, once no Pod is found to use it, is the volume delete step |
| ControlPlane.Plane.ReclaimVolume | operator/internal/controller/cacheinstance.go:266-324 | The operator transfers the volume exactly if the transfer step is possible, the volume fits and no Pod uses it, and otherwise leaves it alone |
| ControlPlane.Plane.PostInstance | apps/admin-api/src/instance-routes.ts:320-408 | Acceptance of a create if and only if it is admissible and the totals then pass the limits, or refusal without any change |
| ControlPlane.Plane.PutInstance | apps/admin-api/src/instance-routes.ts:410-496 | Acceptance of an update read against one version if and only if it is admissible and the totals then pass the limits, or refusal without any change |
| ControlPlane.Plane.PostRotation | apps/admin-api/src/instance-routes.ts:498-597 | Acceptance of a rotation, or refusal without any change |
| ControlPlane.Plane.PostReclaim | apps/admin-api/src/instance-routes.ts:259-318 | Acceptance of a reclaim if and only if the volume and binding read before were eligible, the binding is still as it was read, the step is admissible and the totals then pass the limits; refusal changes nothing |
| ControlPlane.Plane.DeleteInstance | apps/admin-api/src/instance-routes.ts:599-655 | Acceptance of a delete, or refusal without any change |
| ControlPlane.Plane.DeleteVolume | apps/admin-api/src/instance-routes.ts:237-257 | Acceptance of a volume delete, or refusal without any change |
| ControlPlane.Plane.Retry | apps/admin-api/src/instance-routes.ts:656-691 | Resumption of the newest operation if it failed recoverably, or refusal without any change |
| ControlPlane.Plane.ReserveResources | apps/admin-api/src/quotas.ts:72-101 | The reservation becomes the least one that covers itself and the request, and the totals are checked with it |
| ControlPlane.Plane.SettleResources | apps/admin-api/src/quotas.ts:103-120 | Processor and memory take the request's values, storage never shrinks, and a reservation that covered the request is not raised |
| Images.BoundReclaimFollows | operator/internal/controller/image_binding.go:107-192 | In every run, whatever the defaults, the workloads and the records become (of a sealed record everything but its content), an object bound under a reclaim is bound to the images its volume began with |
| Images.ChainKeepsImages | operator/internal/controller/retained_images.go:38-144 | Along any chain of deletions and reclaims all owners of one volume were bound to the same images, also where the chain begins with an object from before there were bindings |
| Images.RecoveryIsOriginalOrRejected | operator/internal/controller/retained_images.go:89-144 | A recovery is rejected or uses the images the volume began with, for all default images |
| Approvals.ApprovedIfWarranted | operator/internal/controller/image_binding.go:107-175 | Images are approved if and only if nothing else runs for the object and they are those of its own binding, or of the intact sealed record pinned on the volume it reclaims, or the complete defaults where an own workload runs exactly them or a pinned object has neither workload nor volume |
| Approvals.BoundWasWarranted | operator/internal/controller/image_binding.go:107-192 | In every run an object is only ever bound to images for which that was so when they were decided |
| Approvals.RetainedIsRecovered | operator/internal/controller/retained_images.go:89-144 | With the record of an object pinned on its volume, an object that reclaims the volume is approved for exactly the images of the first, whatever the defaults |
| Images.BindingIsWriteOnce | operator/internal/controller/cacheinstance.go:411-425 | No step, not even a stale status report, alters or clears a binding while its object lives |
| Images.HistoryGrows | operator/api/v1alpha1/types.go:129 | What an object was bound to and what a volume began with are never rewritten |
| ImageOperator.Operator.ResolveImageBinding | operator/internal/controller/image_binding.go:107-175 | The checks in order, of workload, record, running Pods and rendering, approve images if and only if they are warranted, only own Pods run exactly them and a first binding renders; an approval is the decision step |
| ImageOperator.ApprovedPodsRun | operator/internal/controller/image_binding.go:72-102 | Images are approved if and only if they are warranted, every Pod of the object or on its volume is controlled by exactly its workload and runs exactly these images, and a first binding can be rendered |
| ImageOperator.VerifyWorkloadPods | operator/internal/controller/image_binding.go:72-102 | The reason of the first Pod that is in the way, with its container list read as it is for the workload, or none |
| ImageOperator.Operator.RetainedImageAdapter | operator/internal/controller/retained_images.go:89-144 | The sequence of checks on volume and record gives the verdict of the model |
| ImageOperator.Operator.RetainImages | operator/internal/controller/retained_images.go:38-87 | A pin is set if and only if the object may keep its images and no record of that name is there that does not fit, and then on a sealed record of exactly this object, volume and binding; no record is overwritten |
| ImageOperator.Operator.Report | operator/internal/controller/cacheinstance.go:411-425 | A stale report keeps the binding the object has now |
| ImageOperator.PodImages | operator/internal/controller/image_binding.go:45-58 | Succeeds if and only if there are no init containers and no unnamed or repeated image-bearing name, and then gives each name its image |
| Finalizer.DisposedOnlyWhenDown | operator/internal/controller/cacheinstance.go:494-540 | In every run beside stopping Pods the volume stays until it is disposed of, which happens only to an own volume under Delete after services, workload and Pods are gone, and none of them comes back |
| Finalizer.ReleasedOnlyWhenDown | operator/internal/controller/cacheinstance.go:527-553 | In every run the finalizers have gone only when everything is down and stays down, and a volume that is there then is the object's own and stays behind under Retain |
| Finalizer.RetainKeepsVolume | operator/internal/controller/cacheinstance.go:534-546 | Under Retain no run ever marks or loses the volume |
| Finalizer.OthersStay | operator/internal/controller/cacheinstance.go:468-553 | In no run are routes, monitors, services, the workload or the volume of another instance removed, stopped or marked |
| Finalizer.PassProgresses | operator/internal/controller/cacheinstance.go:468-553 | Without ownership conflicts a pass never errs and either lowers the lexicographic measure or waits for Pods or for the volume |
| Finalizer.FairRunsFinish | operator/internal/controller/cacheinstance.go:468-553 | Every endless run from an undisputed state in which passes recur and awaited events happen comes to the removal of the finalizers |
| Finalizer.FinalizesEventually | operator/internal/controller/cacheinstance.go:468-553 | Passes and the events they wait for lead from every undisputed state there |
| Finalizer.Operator.Finalize | operator/internal/controller/cacheinstance.go:468-553 | The pass as it runs, with its deletion loops, is the pass of the model |
| Envelope.RoundTrip | operator/internal/gocache/server.go:391-405 | A complete envelope is read back as exactly its metadata and body |
| Envelope.AlteredIsRefused | operator/internal/gocache/server.go:120-160 | A body of another size or digest behind the same header is never read |
| Envelope.FillHeader | operator/internal/gocache/server.go:396-398 | The buffer filled in place is length, metadata and zeros |
| Envelope.ProperMetadata | operator/internal/gocache/server.go:52-62 | Metadata is taken exactly with digests of their lengths in lower-case hexadecimal, a time, and for an uncompressed artifact the size it has |
| Directory.BytesOfArtifacts | operator/internal/gocache/server.go:105-112 | The bytes of the artifact files are the sum of body and header sizes over the index |
| Recency.OrderUnique | operator/internal/gocache/server.go:450-456 | Access time and key order the entries in exactly one way |
| Recency.Sort | operator/internal/gocache/server.go:450-456 | The order of exactly the given keys |
| Recency.OrderedLeastRecent | operator/internal/gocache/server.go:450-456 | Whatever is taken from the front was last accessed before everything that is left, or at the same time and has the name with the smaller character at the first difference |
| GoCache.Server.EvictLocked | operator/internal/gocache/server.go:443-471 | Removes exactly the shortest prefix of the order that makes room, least recently used first, never the kept key; fails for capacity only if everything else is gone |
| GoCache.Server.MakeRoom | operator/internal/gocache/server.go:406-421 | In a PUT room is always found unless a file operation fails: the capacity error cannot occur; victims were accessed before all that stays |
| GoCache.Server.Stage | operator/internal/gocache/server.go:313-405 | Without storage faults an upload is staged if and only if announcement, size and both digests agree; reads served between its chunks answer what is committed; a refused one leaves the directory as it was, but for access times |
| GoCache.Server.Publish | operator/internal/gocache/server.go:422-430 | The rename replaces one artifact by the complete new one, and index, account and directory still agree |
| GoCache.Server.Commit | operator/internal/gocache/server.go:406-442 | Committed artifacts change by evictions and at most one publication; every directory state on the way holds the old artifact of that key or the complete new one; the answer is 200 if and only if it was published and the directory synced |
| GoCache.PublishedButRefused | operator/internal/gocache/server.go:431-440 | Any acceptable upload answers 503 when only the directory sync fails, and is then read with 200 |
| GoCache.Server.Get | operator/internal/gocache/server.go:274-312 | Without faults 200 exactly for an indexed key, and then metadata and body of the latest committed PUT of it |
| GoCache.Server.Put | operator/internal/gocache/server.go:313-442 | A whole PUT whose staging is interleaved with any reads: all of them answer what was committed before it, every directory state on the way can be restarted from and lacks at most evicted artifacts, and without faults it is published if and only if it is acceptable |
| GoCache.Server.Load | operator/internal/gocache/server.go:93-112 | Without faults it succeeds if and only if every file is an upload or a complete artifact under its own name |
| GoCache.Server.Recover | operator/internal/gocache/server.go:70-119 | The index is that of the files with their times, less the least recently changed where they are too many; a directory within the limits is recovered completely and nothing is evicted, also if the recovery itself is interrupted |
| GoCache.Restart | operator/internal/gocache/server.go:70-119 | A new process on any recorded crash state succeeds and rebuilds exactly the artifacts committed at that moment |
| GoCache.Balanced | operator/internal/gocache/server.go:406-471 | Between requests the account is the sum over the index and within the budget, there are at most 10000 entries, and the artifact files are those of the index |
| Render.Budget | operator/internal/gocache/render.go:18-44 | No 64-bit operation overflows, the budgets meet the precondition of the server, and budget, entry and header fit the volume |
| Render.DiskFitsVolume | operator/internal/gocache/render.go:34-44 | Every directory state of a server with rendered budgets fits the volume, up to one byte when a body was longer than announced |
| GradleCache.Server.Get | operator/internal/gradlecache/server.go:184-220 | A hit returns what was written under the key; an access time is persisted exactly when a minute has passed since the access before; a missing file leaves the account with its size |
| GradleCache.TimeMovesOverGaps | operator/internal/gradlecache/server.go:206-213 | Over any sequence of reads the time of the file moves if and only if some access comes a minute or more after the one before |
| GradleCache.NeverStamped | operator/internal/gradlecache/server.go:206-213 | An archive read every so many seconds is never stamped, for any number of reads, if and only if they are less than sixty |
| GradleCache.Server.ReadAll | operator/internal/gradlecache/server.go:184-220 | A sequence of reads leaves exactly the time of that function on the file and changes no other file |
| GradleCache.Server.Put | operator/internal/gradlecache/server.go:222-283 | Write-once: a stored name is never replaced; 413, 400, 409 and 201 each have their exact condition; every byte that comes, is displaced by the oldest victims or goes again is in the ledger; the file is orphaned if and only if the roll-back's removal fails |
| GradleCache.Server.Serve | operator/internal/gradlecache/server.go:184-283 | As long as an orphan is there, every GET of its name answers 404 and no upload of it is ever accepted |
| GradleCache.OrphanWitness | operator/internal/gradlecache/server.go:273-280 | A full cache whose removals fail: the insert answers 503, then GET 404 and PUT 409 |
| GradleCache.Server.Insert | operator/internal/gradlecache/server.go:252-283 | Accounting, eviction and rollback: the budget holds afterwards in every case, and without a failing removal the insert succeeds, so the budget error cannot occur |
| GradleCache.Server.EvictLocked | operator/internal/gradlecache/server.go:285-318 | Removes exactly the shortest prefix of the order that restores the budget, least recently used first, never the protected key |
| GradleCache.Server.Scan | operator/internal/gradlecache/server.go:46-84 | The index of a starting process is exactly all keys on disk with their sizes and times, less the shortest prefix of the order that is over the budget; all of their bytes are in the ledger |
| GradleCache.KeyIsHex | operator/internal/gradlecache/server.go:86-92 | Archives are exactly the files named by thirty-two or sixty-four hexadecimal digits in lower case |
| Quantities.ExceedsIsExact | apps/admin-api/src/quantities.ts:45-49 | The comparison is that of the exact numbers, and it fails exactly on unreadable quantities |
| Quantities.CeilCovers | apps/admin-api/src/quantities.ts:51-61 | The result is the least number of units that covers the quantity; it fails exactly if that exceeds the platform limit |
| Suffixes.BinarySuffixes | apps/admin-api/src/quantities.ts:15-16 | Ki to Ei are worth 1024, 1048576, 1073741824 and so on, in front of any number |
| Suffixes.DecimalSuffixes | apps/admin-api/src/quantities.ts:18-29 | k to E are worth a thousand up to its sixth power, m, u and n a thousandth up to its third |
| Suffixes.Exponents | apps/admin-api/src/quantities.ts:30-41 | An exponent one larger is ten times as much, one less a tenth, for all up to 128 in both directions |
| Suffixes.SuffixesOnly | apps/admin-api/src/quantities.ts:8-39 | Behind a whole number exactly the sixteen suffixes and the exponents of at most 128 are read |
| Suffixes.UnitsCompare | apps/admin-api/src/quantities.ts:45-49 | For all numbers, n Gi exceeds k Mi exactly if 1024 n is more than k, n exceeds k m exactly if 1000 n is, and so on |
| Suffixes.UnitsRound | apps/admin-api/src/quantities.ts:51-61 | n Gi round to 1024 n Mi, n Mi to the next Gi and n to 1000 n m, up to 2147483647 |
| Quantities.ReadBack | apps/admin-api/src/quantities.ts:3-44 | A whole number in front of any suffix, an exponent included, is read as that number |
| Quantities.PointRead | apps/admin-api/src/quantities.ts:12-14 | Digits around a point are read as the number without the point over the power of ten of its places |
| Quantities.TrailingZero | apps/admin-api/src/quantities.ts:13-43 | A zero written behind the last place of a quantity changes nothing |
| Quantities.UnitsAreMultiples | apps/admin-api/src/quantities.ts:3-44 | A decimal number and a unit, as the platform writes them, read back as that multiple of the unit |
| Quantities.CoveredIsNotExceeded | apps/admin-api/src/quantities.ts:45-61 | Rounding and comparison agree: a reservation of at least the rounded number is not exceeded |
| Inventory.CompareInventory | apps/admin-api/src/inventory.ts:43-255 | The matching with maps that shrink, the capped list and the counters report exactly the issues defined for each binding and each unmatched object |
| Inventory.CompareBinding | apps/admin-api/src/inventory.ts:69-234 | The issues of one binding, each code at most once for the object and once for the volume |
| Findings.FoundIfExplained | apps/admin-api/src/inventory.ts:69-243 | An issue is found if and only if a binding at rest has an object or a volume of which just this is wrong, code by code, or it is an object or a volume that no binding names |
| Findings.VerdictExplained | apps/admin-api/src/inventory.ts:244-255 | Drift exactly if there is something to find, in progress exactly if there is nothing and some binding is busy, healthy exactly if there is neither |
| Findings.ListExplained | apps/admin-api/src/inventory.ts:51-60 | The list holds everything there is to find up to two hundred issues and nothing else, and the counters count it |
| Soundness.HealthyInstance | apps/admin-api/src/inventory.ts:118-187 | In a healthy project every instance belongs to exactly one binding, which has not left and expects just this object |
| Soundness.HealthyClaim | apps/admin-api/src/inventory.ts:188-234 | In a healthy project every volume belongs to exactly one binding that is not deleted |
| Soundness.HealthyStorage | apps/admin-api/src/inventory.ts:195-234 | In a healthy project the storage requests of all volumes are at most the storage total of the quota, in exact arithmetic |
| Soundness.HealthyCompute | apps/admin-api/src/inventory.ts:153-181 | In a healthy project processor and memory requests, and limits, of all instances are at most the totals of the quota |
| Repair.RepairLeavesNoIssue | apps/admin-api/src/reservation-reconcile.ts:9-42 | Raised to the computed floor, the binding has no issue left on the same observation, in which names are unique |
| Repair.RepairIsFixpoint | apps/admin-api/src/app.ts:223-238 | Among all bindings of the project the comparison finds nothing for the raised one any more |
| Repair.FloorIffMeasurable | apps/admin-api/src/reservation-reconcile.ts:9-42 | There is a floor if and only if the binding is at rest and active or detached, nothing but its reservation is wrong, volume and object are there as they have to be, and all their quantities can be counted |
| Repair.FloorIsLeast | apps/admin-api/src/reservation-reconcile.ts:26-39 | The floor is the least number of units that none of the quantities is above |
| Repair.CapHidesNothing | apps/admin-api/src/inventory.ts:51-60 | Every issue of the binding is among the at most two hundred that are listed when it is compared |

## Left out

- HTTP routing, sessions, passwords, encryption and request schemas.
- Idempotent replay of requests and audit records: each accepted request is one step.
- Project creation and its failure, and the synchronisation of quotas to ResourceQuota objects; the gate it sets is a parameter of `ControlPlane.Plane.Execute`.
- Reservations that are unknown: they occur in `Quotas.CheckQuota` and in the inventory, but the instances of a project in `Quotas` all have known ones.
- The wait for the upload slot and its timeouts, the request limit and read-only mode of the Go cache: uploads here begin with the slot free.
- GradleCache.Server.Scan: does not model the removal of interrupted uploads, which never reach the index.
- GradleCache.Server.Get: does not claim that the order after a restart is the order before it, since access times in memory may be newer than those on disk.
- ControlPlane.Plane.DeleteRetainedVolume: does not look for Pods that use the volume itself; `ControlPlane.Plane.Execute` takes the outcome as `refused`.
- ImageOperator.Operator.ResolveImageBinding: takes the Pods as one list and whether the configuration renders as a parameter; a binding the API server does not keep is a decision that is never persisted.
- Finalizer.Operator.Finalize: does not model failing API calls, after which the pass is repeated, nor the image record written under Retain, which is in the image model.
- Images: changes of a template reference or of volume annotations by others than the operator.
- The leases and fingerprints of the periodic inventory scan, and the cleanup of configuration objects.
- Rendering of Kubernetes objects other than the budgets, gateway and monitoring manifests, telemetry, statistics, observability, the web console and the other cache engines.
