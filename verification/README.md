# Verified model of the applications-aware-quota controllers

The applications-aware-quota (AAQ) controllers keep pods gated until they fit the quotas of their
namespace. This project models the controllers' protocols and data structures in Dafny and proves
what they are for. `dafny verify dfyconfig.toml` checks all of it.

## What is modelled

**The gate / quota handshake of a namespace.** The gate controller picks gated pods that fit,
commits them as a queue with a lock per quota controller, and ungates them one by one; the ARQ and
ACRQ controllers wait until the queue is ungated, recount, and clear their own lock.

- `Handshake` is the state machine: every cache read, every compare-and-set write and every move
  of the environment is a step, and an `Environment` value says what the environment may do.
- `HandshakeSafety` proves that no run exceeds a hard limit where caches, mapper and names
  behave; `HandshakeLimits` and `HandshakeMapper` give runs that exceed one in every other
  environment, so the condition is exact. `HandshakeRuns` holds the short runs they are put
  together from. `ScopedQuotas` and `BarredPods` prove what it means that the gate drops the
  scopes of ARQs. `HandshakeLocks` proves lock isolation and the invariant in plain terms,
  `HandshakeProgress` that every round can end and only shrinks.
- `Admission` holds the library's admission check and the greedy batch; `ArqSync` the ARQ sync.
- `Controllers` is the imperative code of the three controllers on a `Namespace` object. Each
  method is proved to be a run of the machine, so the theorems about runs hold for it.

**The cluster-quota mapper.** `ClusterQuotaMapper` is the mapper with its six maps and listener
log; `MappingSync` the two scan loops; `MappingController` the concurrent controller around it
(events, listers, queues, scans that may hold outdated objects); `MappingConvergence` proves that
at rest the index is exact, pair by pair, `MappingSettles` that rest can always be reached.

**Cluster quota accounting.** `ClusterAccounting` is the incremental sync of a total and its
per-namespace slices, proved to conserve, to equal a recomputation, and to lose no item;
`ClusterSync` connects it to the handshake.

**The bucketing work queue.** `BucketQueue` is the queue with the key queue inside it as a state
machine of critical sections, `WorkQueueBucket` the imperative code, `AcrqWorker` the worker that
uses it.

**Usage of virtual machine instances.** `VmiUsage` is the launcher pod calculator: choice of
source and target pod, resource arithmetic, 32-bit CPU counts, and the charge of a migration.

`Resources` holds resource lists (exact integers; a missing key counts as zero where list
arithmetic treats it so) and sums over maps.

## Findings

- The limits hold exactly in the environments named by `SafeExactlyWhenBenign`. Outside of them
  six concrete runs go over: a reused pod name, outdated recorded usage at the gate, outdated
  recorded usage at a sync that then skips its write, a lagging pod cache combined with
  deletions, and a mapper that does not give a cluster quota for the namespace yet, to the gate
  or to the ACRQ controller. The gate waits until the mapper's stamp is the namespace's
  (aaq-gate-controller.go:412-430), which a namespace that was mapped before the quota came
  already has; the ACRQ controller does not look at the stamp (acrq-controller.go:519).
- The gate checks every pod against every ARQ of the namespace, without the ARQ's scopes, while
  usage is recounted with them. A pod can so be refused by a quota it will never count in: exactly
  when that quota has no usage recorded or no room (`ForeignQuotasRefuse`). An ARQ that allows none
  of a resource keeps every pod that needs some of it gated for good, inside its scopes or not
  (`BarredStaysGated`).
- The number of virtual CPUs is the product of the topology fields exactly while it is below 2^32;
  a partial product that wraps to zero is afterwards treated like an unset field.
- An ARQ sync can need a second one before it settles, because usage of the managed quota is
  merged only when that quota fits the limits recorded by an earlier sync. One is enough exactly
  when merging now and merging with the new limits recorded come to the same
  (`OneSyncSettlesExactly`).
- A cluster quota sync that goes by an outdated copy and finds nothing to change writes nothing,
  and its request is done although the API server's status may say something else
  (`OutdatedCopyDropsItem`). Requests are kept, whatever the API server holds, exactly when the
  sync does not get to that comparison, or finds something to change, or retries every item
  (`KeptExactly`).
- A scope selector that does not parse is not reported: the statistics are then zero for every
  resource, whatever the pods use (`ArqSync.UsageStats`).
- An aborted scan of a quota stamps it as complete; an aborted scan of a namespace does not. The
  index converges all the same.
- The limited resources the gate passes to the admission check name the API group "", while the
  check is made for the AAQ group; its rule that every limited resource be covered by some quota
  therefore never applies, and `Admission.CheckRequest` has no such rule.
- The worker of the bucket queue looks at "does not exist" before it looks at the lister's error,
  so an error that comes without an object drops the items.

## Model

| member | source | states |
|---|---|---|
| `HandshakeLimits.SafeExactlyWhenBenign` | pkg/aaq-controller/aaq-gate-controller/aaq-gate-controller.go:258-345 | no run of any namespace ever exceeds a hard limit if and only if the gate reads current recorded usage, syncs compare with current recorded usage, the gate and the ACRQ controller know every cluster quota of the namespace and, where pods can be deleted, pods are read up to date and names are never used twice; the cached job queue may be arbitrarily stale throughout |
| `HandshakeSafety.HandshakeIsSafe` | pkg/aaq-controller/aaq-gate-controller/aaq-gate-controller.go:258-345 | the safe direction: where that condition holds, in every reachable state, under any interleaving, the usage of the ungated pods stays within every hard limit |
| `HandshakeLimits.ReusedNamesExceed` | pkg/aaq-controller/aaq-gate-controller/aaq-gate-controller.go:325-345 | releasing by name exceeds a limit as soon as a deleted pod's name is used again: a concrete run |
| `HandshakeLimits.OutdatedUsageExceeds` | pkg/aaq-controller/aaq-gate-controller/aaq-gate-controller.go:367-410 | deciding on outdated recorded usage exceeds a limit: a concrete run |
| `HandshakeLimits.LagWithDeletionExceeds` | pkg/util/util.go:438-440 | a lagging pod cache together with deletions exceeds a limit through the fallback to the API server: a concrete run |
| `HandshakeLimits.SkippedWriteExceeds` | pkg/aaq-controller/arq-controller/arq-controller.go:476-480 | a sync that compares its recount with outdated recorded usage and skips its write exceeds a limit, even if no pod is deleted and every other cache is current: a concrete run |
| `HandshakeMapper.UnknownQuotaExceeds` | pkg/aaq-controller/aaq-gate-controller/aaq-gate-controller.go:412-430 | deciding while the mapper does not give a cluster quota for the namespace yet exceeds its limit, although the mapper's stamp is awaited: a concrete run |
| `HandshakeMapper.UnsyncedQuotaExceeds` | pkg/aaq-controller/additional-cluster-quota-controllers/acrq-controller/acrq-controller.go:519-537 | an ACRQ round that goes by what the mapper gives, and not by its stamp, clears the lock without recounting a quota the mapper does not give yet, and a limit is exceeded: a concrete run |
| `ScopedQuotas.ForeignQuotasRefuse` | pkg/aaq-controller/aaq-gate-controller/aaq-gate-controller.go:373-379 | the gate drops the scopes of ARQs: it refuses a pod that the quotas it counts in would accept if and only if an ARQ whose scopes the pod does not satisfy has no usage recorded or no room |
| `ScopedQuotas.OwnQuotasAreChecked` | pkg/aaq-controller/aaq-gate-controller/aaq-gate-controller.go:373-379 | it never admits a pod that the quotas it counts in would refuse |
| `ScopedQuotas.RefusedPodsThatFit` | pkg/aaq-controller/aaq-gate-controller/aaq-gate-controller.go:278-302 | a pod the batch refuses fits what the batch leaves of its own quotas only if an ARQ it does not count in is short by then |
| `ScopedQuotas.TightWithoutScopes` | pkg/aaq-controller/aaq-gate-controller/aaq-gate-controller.go:278-302 | where the pod satisfies the scopes of every ARQ, no refused pod fits what the batch leaves |
| `ScopedQuotas.OutsiderIsRefused` | pkg/aaq-controller/aaq-gate-controller/aaq-gate-controller.go:373-379 | a pod that counts in no quota at all is refused because of one: a concrete namespace |
| `BarredPods.BarredStaysGated` | pkg/aaq-controller/aaq-gate-controller/aaq-gate-controller.go:367-410 | in every run in which pod names are not used twice, an ARQ that allows none of a resource keeps every gated pod that needs some of it gated for good, whether or not the pod satisfies the ARQ's scopes |
| `HandshakeLocks.HandshakeInvariant` | pkg/aaq-controller/arq-controller/arq-controller.go:267-292 | under the same condition, in every reachable state: whenever a lock is clear the pods of the last committed queue are released or gone and the quotas behind the lock have recorded at least the usage of all ungated pods; usage plus the still gated queued pods always fits |
| `HandshakeLocks.LocksAreIsolated` | pkg/aaq-controller/additional-cluster-quota-controllers/acrq-controller/acrq-controller.go:531-537 | in every run of every environment: the job queue changes only by creation, by a round opened from the current version with every relevant lock clear, or by a controller clearing its own lock and nothing else; only pods of a committed queue are ever ungated |
| `HandshakeProgress.WorkOnlyShrinks` | pkg/aaq-controller/arq-controller/arq-controller.go:286-292 | under the same condition: outside of opening a round, still gated queued pods plus held locks never grow, and each release and each unlock strictly reduces them |
| `HandshakeProgress.RoundCanEnd` | pkg/aaq-controller/aaq-gate-controller/aaq-gate-controller.go:264-267 | under the same condition, from every reachable state the controllers' own steps can finish the round: every queued pod released or gone, every relevant lock clear |
| `Admission.CheckRequestContract` | vendor/k8s.io/apiserver/pkg/admission/plugin/resourcequota/controller.go:414-592 | an accepted request is added to exactly the limited resources of the quotas it concerns, each staying within its limit; a refusal means a negative quantity, or a concerned quota that is unknown or too short |
| `Admission.RefusalPersists` | vendor/k8s.io/apiserver/pkg/admission/plugin/resourcequota/controller.go:414-592 | accepting other requests never makes a refused one acceptable |
| `Admission.SelectPods` | pkg/aaq-controller/aaq-gate-controller/aaq-gate-controller.go:278-302 | the loop over the gated pods computes the greedy batch and queues exactly the accepted names, in order |
| `Admission.BatchLaw` | pkg/aaq-controller/aaq-gate-controller/aaq-gate-controller.go:278-302 | each quota's usage is its starting value plus the accepted charges and within the limit on every consumed resource; no refused pod fits the remaining headroom |
| `Controllers.BatchDistinct` | pkg/aaq-controller/aaq-gate-controller/aaq-gate-controller.go:278-302 | a committed queue never names a pod twice |
| `Controllers.QueuesAreDistinct` | pkg/aaq-controller/aaq-gate-controller/aaq-gate-controller.go:278-323 | in every run of every environment no version of the job queue names a pod twice, which is what releasing one asks for |
| `Controllers.Namespace.UpdateStatus` | pkg/aaq-controller/aaq-gate-controller/aaq-gate-controller.go:312-316 | a status write appends a version if made from the current one and otherwise changes nothing |
| `Controllers.Namespace.ReleasePod` | pkg/aaq-controller/aaq-gate-controller/aaq-gate-controller.go:327-342 | ungates one pod from its cached copy, only if it carries the AAQ gate alone and the copy is current; a stale copy is an error |
| `Controllers.Namespace.ReleasePods` | pkg/aaq-controller/aaq-gate-controller/aaq-gate-controller.go:325-345 | is a run of the handshake; only named pods lose only the AAQ gate, and without error every named pod the cache shows gated has lost it |
| `Controllers.Namespace.CreateAndGet` | pkg/aaq-controller/aaq-gate-controller/aaq-gate-controller.go:347-365 | the cached job queue, or a new empty one; creating an object that exists already fails |
| `Controllers.Namespace.ExecuteGate` | pkg/aaq-controller/aaq-gate-controller/aaq-gate-controller.go:258-323 | is a run of the handshake: releases the queue of a locked version, or commits the greedy batch, checked against the cluster quotas the mapper gives, with all locks set from the exact version it read and releases it, or leaves everything alone; asks to be called again at once exactly after an error or while a lock is held |
| `Controllers.AaqjqcProcessed` | pkg/aaq-controller/aaq-gate-controller/aaq-gate-controller.go:464-474 | true exactly when every lock that counts with the present configuration is clear |
| `Controllers.VerifyPodsWithoutSchedulingGates` | pkg/util/util.go:417-445 | answers from the cache unless a queued pod is missing from it, and then from the API server |
| `Controllers.VerifyWithApiCall` | pkg/util/util.go:449-465 | true exactly when no listed pod of the queue is gated |
| `Controllers.RecountArq` | pkg/aaq-controller/arq-controller/arq-controller.go:427-486 | a sync that starts from the cached status writes the usage of the ungated cached pods for every metered limited resource, or writes nothing because that is what the cached status says, or reports an error; without failures it reports none |
| `Controllers.RecountAcrq` | pkg/aaq-controller/additional-cluster-quota-controllers/acrq-controller/acrq-controller.go:265-353 | the same for a cluster quota that selects this namespace alone |
| `Controllers.SyncLeads` | pkg/aaq-controller/arq-controller/arq-controller.go:278-284 | a stored recount, with or without an error after it, is a run of the handshake's steps |
| `Controllers.SkipLeads` | pkg/aaq-controller/arq-controller/arq-controller.go:478-484 | so is a sync that writes nothing, whether the cached status it compared with was current or not |
| `Controllers.Namespace.SyncQuotas` | pkg/aaq-controller/arq-controller/arq-controller.go:278-284 | syncs quota after quota from its cached status up to the first error; with current caches and no error every quota of the namespace is recounted |
| `Controllers.Namespace.ExecuteArq` | pkg/aaq-controller/arq-controller/arq-controller.go:258-294 | is a run of the handshake: waits for the queue it saw locked, recounts, and clears its own lock only from the exact version it read, keeping the queue and the other lock; with current caches it reports success only with everything recounted, and always when nothing fails |
| `Controllers.Namespace.ExecuteAcrq` | pkg/aaq-controller/additional-cluster-quota-controllers/acrq-controller/acrq-controller.go:503-539 | the same for the cluster quotas the mapper gives for the namespace and for their lock: only those are recounted before it is cleared |
| `Controllers.Namespace.ClearLock` | pkg/aaq-controller/arq-controller/arq-controller.go:286-292 | clears the controller's own lock in one compare-and-set write that keeps the queue and the other lock; a conflict changes nothing |
| `ArqSync.UsageStats` | pkg/aaq-controller/aaq-evaluator/aaq-evaluator.go:114-164 | the sum of the charges of the ungated pods that match the quota's scopes, with an entry for every resource asked for; with a scope selector that does not parse, zero for each of them and no error |
| `ArqSync.Arq.SyncResourceQuota` | pkg/aaq-controller/arq-controller/arq-controller.go:427-486 | the stored status and the reported error as functions of the status read, the statistics, the managed quota and the refusals |
| `ArqSync.Overwrite` | pkg/aaq-controller/arq-controller/arq-controller.go:461-463 | every entry of one list replaces that of the other |
| `ArqSync.UpdateUsageFromResourceQuota` | pkg/aaq-controller/arq-controller/arq-controller.go:488-495 | the managed quota's usage is merged exactly when its limits are the non-schedulable part of the recorded ones |
| `ArqSync.SyncSettles` | pkg/aaq-controller/arq-controller/arq-controller.go:427-495 | from any stored status two syncs with unchanged inputs reach a status no later sync changes, with used within the limits' keys; later syncs write again only when there is nothing to record at all |
| `ArqSync.SecondSyncKeeps` | pkg/aaq-controller/arq-controller/arq-controller.go:427-495 | with the limits recorded one sync is enough |
| `ArqSync.OneSyncSettlesExactly` | pkg/aaq-controller/arq-controller/arq-controller.go:427-495 | one sync is enough if and only if merging the managed quota by the limits recorded now and by those recorded next comes to the same: both or neither allow it, or the values merged are those recorded or observed anyway |
| `ArqSync.OneSyncIsNotEnough` | pkg/aaq-controller/arq-controller/arq-controller.go:457-459 | a status for which one sync is not enough, with its first two successors |
| `ArqSync.SyncRecordsUsage` | pkg/aaq-controller/arq-controller/arq-controller.go:427-486 | what a sync stores is the recording step of the handshake: the recount with statistics, the old record without |
| `Resources.FilterNonSchedulableResources` | pkg/util/util.go:382-390 | keeps exactly the resources that the managed quota enforces |
| `ClusterQuotaMapper.WithPairEffect` | pkg/aaq-controller/additional-cluster-quota-controllers/clusterquotamapping/mapper.go:206-286 | a write changes one pair, exactly when both objects are the ones last reported, and keeps the two indexes inverse and within what is required |
| `ClusterQuotaMapper.WithoutQuotaEffect` | pkg/aaq-controller/additional-cluster-quota-controllers/clusterquotamapping/mapper.go:131-146 | removing a quota removes exactly its pairs and keeps the indexes consistent |
| `ClusterQuotaMapper.WithoutNamespaceEffect` | pkg/aaq-controller/additional-cluster-quota-controllers/clusterquotamapping/mapper.go:179-194 | removing a namespace removes exactly its pairs and keeps the indexes consistent |
| `ClusterQuotaMapper.ReplayOneMore` | pkg/aaq-controller/additional-cluster-quota-controllers/clusterquotamapping/mapper.go:258-282 | one more call to a listener changes the relation it rebuilds by one pair, and is genuine exactly when the pair was news |
| `ClusterQuotaMapper.Mapper.SetMapping` | pkg/aaq-controller/additional-cluster-quota-controllers/clusterquotamapping/mapper.go:206-286 | writes the pair if neither object is outdated, reports which one is, and keeps Valid: inverse indexes, only required objects, genuine listener calls that replay to the relation |
| `ClusterQuotaMapper.Mapper.RemoveQuota` | pkg/aaq-controller/additional-cluster-quota-controllers/clusterquotamapping/mapper.go:131-146 | drops the quota from all six maps and tells listeners about each pair that goes, keeping Valid |
| `ClusterQuotaMapper.Mapper.RemoveNamespace` | pkg/aaq-controller/additional-cluster-quota-controllers/clusterquotamapping/mapper.go:179-194 | drops the namespace from all six maps and tells listeners about each pair that goes, keeping Valid |
| `ClusterQuotaMapper.Mapper.RequireQuota` | pkg/aaq-controller/additional-cluster-quota-controllers/clusterquotamapping/mapper.go:102-120 | records the newest selector and reports whether it was news, keeping Valid |
| `ClusterQuotaMapper.Mapper.RequireNamespace` | pkg/aaq-controller/additional-cluster-quota-controllers/clusterquotamapping/mapper.go:150-168 | records the newest fields and reports whether they were news, keeping Valid |
| `ClusterQuotaMapper.Mapper.CompleteQuota` | pkg/aaq-controller/additional-cluster-quota-controllers/clusterquotamapping/mapper.go:124-128 | stamps the quota with the selector of the finished scan |
| `ClusterQuotaMapper.Mapper.CompleteNamespace` | pkg/aaq-controller/additional-cluster-quota-controllers/clusterquotamapping/mapper.go:172-176 | stamps the namespace with the fields of the finished scan |
| `ClusterQuotaMapper.Mapper.GetClusterQuotasFor` | pkg/aaq-controller/additional-cluster-quota-controllers/clusterquotamapping/mapper.go:71-80 | exactly the quotas linked to the namespace, with its stamp |
| `ClusterQuotaMapper.Mapper.GetNamespacesFor` | pkg/aaq-controller/additional-cluster-quota-controllers/clusterquotamapping/mapper.go:82-91 | exactly the namespaces linked to the quota, with its stamp |
| `MappingSync.SyncQuota` | pkg/aaq-controller/additional-cluster-quota-controllers/clusterquotamapping/clusterquotamapping.go:119-163 | after a scan with a current quota every listed namespace that is still required is linked exactly if it matches; with an outdated one nothing is linked or unlinked, and the stamp is set all the same; and whatever state of the controller the scan stands in, this is a run of its machine that ends the scan |
| `MappingSync.SyncNamespace` | pkg/aaq-controller/additional-cluster-quota-controllers/clusterquotamapping/clusterquotamapping.go:165-213 | the mirror image for a namespace, except that an aborted scan leaves no stamp |
| `MappingSync.QuotaScanRuns` | pkg/aaq-controller/additional-cluster-quota-controllers/clusterquotamapping/clusterquotamapping.go:125-161 | what the loop over the namespaces does to the mapper is a run of the controller's machine |
| `MappingSync.NamespaceScanRuns` | pkg/aaq-controller/additional-cluster-quota-controllers/clusterquotamapping/clusterquotamapping.go:170-211 | so is what the loop over the quotas does |
| `MappingConvergence.MappingConverges` | pkg/aaq-controller/additional-cluster-quota-controllers/clusterquotamapping/clusterquotamapping.go:119-213 | once every event is delivered, both queues are empty and no scan is in flight, the index relates exactly the stored quotas and namespaces whose selector matches, in both directions, and every stamp is the stored object's, whatever outdated objects the scans held |
| `MappingConvergence.PairConverges` | pkg/aaq-controller/additional-cluster-quota-controllers/clusterquotamapping/clusterquotamapping.go:119-213 | pair by pair, whatever else is in flight: once a quota and a namespace have no event pending, are not queued and are not being scanned, they are linked if and only if both are stored and the selector matches |
| `MappingSettles.MappingCanSettle` | pkg/aaq-controller/additional-cluster-quota-controllers/clusterquotamapping/clusterquotamapping.go:215-297 | from every reachable state deliveries and workers alone can reach such a quiescent state |
| `MappingConvergence.PairsComeFromMatches` | pkg/aaq-controller/additional-cluster-quota-controllers/clusterquotamapping/mapper.go:206-286 | in every reachable state the indexes are inverse and mention only required objects, and a pair appears only in a step that finds both objects required and matching |
| `MappingConvergence.DeliverKeepsInv` | pkg/aaq-controller/additional-cluster-quota-controllers/clusterquotamapping/clusterquotamapping.go:299-383 | an event handler keeps the convergence invariant: a changed object has its key queued, a deleted one is gone from the index |
| `MappingConvergence.AbortKeepsInv` | pkg/aaq-controller/additional-cluster-quota-controllers/clusterquotamapping/clusterquotamapping.go:142-161 | abandoning a scan with an outdated object keeps the convergence invariant, although a quota's is stamped as complete |
| `MappingConvergence.RetryKeepsInv` | pkg/aaq-controller/additional-cluster-quota-controllers/clusterquotamapping/clusterquotamapping.go:145-154 | holding on to a newer copy, or skipping a missing object, keeps the convergence invariant |
| `ClusterAccounting.GetSlice` | pkg/aaq-controller/additional-cluster-quota-controllers/clusterquotamapping/helpers.go:13-21 | the first slice of the namespace |
| `ClusterAccounting.RemoveSlice` | pkg/aaq-controller/additional-cluster-quota-controllers/clusterquotamapping/helpers.go:23-33 | all slices but the namespace's, in order |
| `ClusterAccounting.InsertSlice` | pkg/aaq-controller/additional-cluster-quota-controllers/clusterquotamapping/helpers.go:35-52 | the slice replaces the namespace's in place, or goes to the end |
| `ClusterAccounting.RemoveEffect` | pkg/aaq-controller/additional-cluster-quota-controllers/clusterquotamapping/helpers.go:23-33 | removing a slice lowers the sum by its usage and leaves every other lookup alone |
| `ClusterAccounting.InsertEffect` | pkg/aaq-controller/additional-cluster-quota-controllers/clusterquotamapping/helpers.go:35-52 | inserting a slice changes the sum by new minus old usage and leaves every other lookup alone |
| `ClusterAccounting.IncludeUsageFromClusterResourceQuota` | pkg/aaq-controller/additional-cluster-quota-controllers/acrq-controller/acrq-controller.go:459-473 | what the managed quota reports for the namespace replaces what was observed |
| `ClusterAccounting.SyncItem` | pkg/aaq-controller/additional-cluster-quota-controllers/acrq-controller/acrq-controller.go:280-325 | one item's effect on total, slices and retries |
| `ClusterAccounting.PruneSlices` | pkg/aaq-controller/additional-cluster-quota-controllers/acrq-controller/acrq-controller.go:330-337 | the slices of namespaces that no longer match go, each with its usage |
| `ClusterAccounting.SyncQuotaForNamespaces` | pkg/aaq-controller/additional-cluster-quota-controllers/acrq-controller/acrq-controller.go:265-353 | the stored status, the error and the items to retry, in every case: outdated mapper, refused write, failed calculation or lookup, nothing to write |
| `ClusterAccounting.SyncConserves` | pkg/aaq-controller/additional-cluster-quota-controllers/acrq-controller/acrq-controller.go:265-353 | conservation: whatever items were given, skipped, repeated or failed, a sync leaves the difference between the total and the sum of the slices as it was, so the total is the sum after it if and only if it was before; only matching namespaces keep a slice |
| `ClusterAccounting.IncrementalIsBatch` | pkg/aaq-controller/additional-cluster-quota-controllers/acrq-controller/acrq-controller.go:278-341 | if the items force every matching namespace and no calculation fails, the slices equal a recomputation from scratch, whatever the order and repetition of the items and whatever the slices before, provided their namespaces are distinct; the total equals it up to the difference it had from its slices before, so exactly when it was their sum |
| `ClusterAccounting.SameReadingsAgree` | pkg/aaq-controller/additional-cluster-quota-controllers/acrq-controller/acrq-controller.go:297-318 | calculations that agree on each namespace and lookups that find the same managed quota come to one usage per namespace |
| `ClusterAccounting.ItemsAreNotLost` | pkg/aaq-controller/additional-cluster-quota-controllers/acrq-controller/acrq-controller.go:278-341 | each work item is handed back for retry or reflected in the outcome |
| `ClusterSync.ForcedSyncTotal` | pkg/aaq-controller/additional-cluster-quota-controllers/acrq-controller/acrq-controller.go:525-528 | with one matching namespace a forced sync makes the total that namespace's actual usage |
| `ClusterSync.ForcedSyncRecounts` | pkg/aaq-controller/additional-cluster-quota-controllers/acrq-controller/acrq-controller.go:525-528 | the forced sync of a quota that selects one namespace records its ungated pods' usage, as the handshake's recording step asks |
| `ClusterSync.ForcedSyncOutcome` | pkg/aaq-controller/additional-cluster-quota-controllers/acrq-controller/acrq-controller.go:297-302 | a failed calculation keeps the total and hands the item back |
| `BucketQueue.NothingIsLost` | pkg/util/workqueuebucket.go:42-111 | in every reachable state, whatever the interleaving: what was delivered under a key, then `work`, then `dirtyWork`, is exactly what was added under it, in order |
| `BucketQueue.NothingIsStranded` | pkg/util/workqueuebucket.go:74-111 | data waiting under a key has the key queued, delayed, taken but not collected, or marked so that the pending Done queues it again; a key is never with two workers |
| `BucketQueue.DeliveryIsPossible` | pkg/util/workqueuebucket.go:74-111 | from every reachable state the queue and its workers alone can deliver everything added under a key |
| `BucketQueue.WaitingAfter` | pkg/util/workqueuebucket.go:42-111 | the deletes in GetWithData and the overwrite in Done drop nothing: what waits changes only by an append and by delivery of all of it |
| `BucketQueue.StepKeepsQueue` | vendor/k8s.io/client-go/util/workqueue/queue.go:116-128 | the queue lists each key once, and exactly the dirty keys that are not being processed |
| `BucketQueue.StepKeepsSlots` | pkg/util/workqueuebucket.go:89-111 | a key in progress has its data in `dirtyWork`, any other in `work`; every processed key is with exactly one worker |
| `WorkQueueBucket.KeyQueue.Add` | vendor/k8s.io/client-go/util/workqueue/queue.go:163-182 | marks the key dirty and queues it unless it is dirty or being processed |
| `WorkQueueBucket.KeyQueue.Get` | vendor/k8s.io/client-go/util/workqueue/queue.go:196-218 | hands out the first key and moves it from dirty to processing |
| `WorkQueueBucket.KeyQueue.Done` | vendor/k8s.io/client-go/util/workqueue/queue.go:223-236 | ends processing and queues the key again if it became dirty |
| `WorkQueueBucket.KeyQueue.AddRateLimited` | vendor/k8s.io/client-go/util/workqueue/delaying_queue.go:205-224 | adds the key at once or after its back-off |
| `WorkQueueBucket.KeyQueue.Fire` | vendor/k8s.io/client-go/util/workqueue/delaying_queue.go:253-263 | the back-off ends and the key is added |
| `WorkQueueBucket.Bucket.AddWithData` | pkg/util/workqueuebucket.go:42-56 | is a run of the machine that puts the data behind what waits under the key and touches no other |
| `WorkQueueBucket.Bucket.AddWithDataRateLimited` | pkg/util/workqueuebucket.go:58-72 | the same with a back-off |
| `WorkQueueBucket.Bucket.GetWithData` | pkg/util/workqueuebucket.go:89-111 | is a run of the machine that delivers everything waiting under the first queued key and touches no other |
| `WorkQueueBucket.Bucket.Done` | pkg/util/workqueuebucket.go:74-83 | is a run of the machine that leaves what waits under every key as it is |
| `AcrqWorker.SyncAccountsForAll` | pkg/aaq-controller/additional-cluster-quota-controllers/acrq-controller/acrq-controller.go:233-251 | each item is handed back for retry or reflected in the status the sync ends with, however it ends |
| `AcrqWorker.AcrqController.Work` | pkg/aaq-controller/additional-cluster-quota-controllers/acrq-controller/acrq-controller.go:211-254 | a round takes everything that waits under the first queued key and then, for a quota in the lister, has exactly those items wait again that the sync hands back (all of them after a lister error, an outdated mapper or a refused write, otherwise those to retry), with the key queued or delayed, and has exactly the status the sync wrote, if any, on the API server; for a missing quota nothing waits; other keys are untouched |
| `AcrqWorker.KeptExactly` | pkg/aaq-controller/additional-cluster-quota-controllers/acrq-controller/acrq-controller.go:343-346 | whatever the API server holds, each item taken waits again or is reflected in the API server's status if and only if the round gives up before the comparison, or the status wanted differs from the lister's copy, or every item is retried: the early return is the only way to lose one |
| `AcrqWorker.CurrentCopyLosesNothing` | pkg/aaq-controller/additional-cluster-quota-controllers/acrq-controller/acrq-controller.go:343-346 | with an up-to-date copy each item waits again or is reflected in the API server's status |
| `AcrqWorker.OutdatedCopyDropsItem` | pkg/aaq-controller/additional-cluster-quota-controllers/acrq-controller/acrq-controller.go:343-346 | a round that goes by an outdated copy and drops its item, which the API server's status does not reflect: a concrete copy and server status |
| `VmiUsage.GetNumberOfVCPUs` | pkg/aaq-controller/built-in-usage-calculators/virt-launcher-usage-calc.go:231-248 | the 32-bit figure computed field by field |
| `VmiUsage.VCpusIsProduct` | pkg/aaq-controller/built-in-usage-calculators/virt-launcher-usage-calc.go:231-248 | the figure is the product of the non-zero fields if and only if that product is below 2^32 |
| `VmiUsage.WrappedProductIsDropped` | pkg/aaq-controller/built-in-usage-calculators/virt-launcher-usage-calc.go:239-246 | beyond that it need not even be the product modulo 2^32: a concrete topology |
| `VmiUsage.UsageOfInstance` | pkg/aaq-controller/built-in-usage-calculators/virt-launcher-usage-calc.go:157-229 | requests.memory is the largest of guest memory, request and page size, limits.memory the larger of the limit and requests.memory, both CPU figures the virtual CPUs, and one pod |
| `VmiUsage.DedicatedUsageOfInstance` | pkg/aaq-controller/built-in-usage-calculators/virt-launcher-usage-calc.go:124-141 | counted in names of its own: one instance, its memory limit and its virtual CPUs |
| `VmiUsage.UnfinishedVMIPods` | pkg/aaq-controller/built-in-usage-calculators/virt-launcher-usage-calc.go:250-293 | the unfinished launcher pods owned by the instance, in order |
| `VmiUsage.GetSourcePod` | pkg/aaq-controller/built-in-usage-calculators/virt-launcher-usage-calc.go:338-355 | the source pod by a loop over the launchers |
| `VmiUsage.SourceIsNewest` | pkg/aaq-controller/built-in-usage-calculators/virt-launcher-usage-calc.go:338-355 | the source is the first of the newest pods on the instance's node, and there is none only if no pod is there |
| `VmiUsage.GetTargetPod` | pkg/aaq-controller/built-in-usage-calculators/virt-launcher-usage-calc.go:327-336 | the first pod labelled and annotated with the migration |
| `VmiUsage.TargetIsListed` | pkg/aaq-controller/built-in-usage-calculators/virt-launcher-usage-calc.go:327-336 | a target is listed and created by the migration, and without one no listed pod is |
| `VmiUsage.GetLatestVmim` | pkg/aaq-controller/built-in-usage-calculators/virt-launcher-usage-calc.go:305-325 | the latest migration by a loop over the migrations |
| `VmiUsage.LatestIsNewest` | pkg/aaq-controller/built-in-usage-calculators/virt-launcher-usage-calc.go:305-325 | the latest migration is the instance's, did not fail, and is at least as new as every other such migration |
| `VmiUsage.PodUsageFunc` | pkg/aaq-controller/built-in-usage-calculators/virt-launcher-usage-calc.go:58-103 | the calculator's answer for a pod: not responsible, an error, or the charge of its role |
| `VmiUsage.MigrationCharge` | pkg/aaq-controller/built-in-usage-calculators/virt-launcher-usage-calc.go:58-103 | all launcher pods of an instance together are charged, resource by resource, the larger of current and target usage if there is a target pod of its own and the current usage otherwise, however many orphans there are |
| `VmiUsage.MigrationChargeByPods` | pkg/aaq-controller/built-in-usage-calculators/virt-launcher-usage-calc.go:113-146 | counting by pod usage the launchers are together charged the source pod's usage alone |
| `VmiUsage.TargetPaysTheExcess` | pkg/aaq-controller/built-in-usage-calculators/virt-launcher-usage-calc.go:94-99 | what the target is charged on top is the excess of target over current usage |

## Left out

Assumptions of the handshake, beside those the `Environment` value makes explicit:

- a pod's usage and the scopes it satisfies do not change, apart from finishing, and usage is not negative; launcher pods of a migrating instance are outside of this
- the quotas' scope selectors parse
- the quotas of the namespace and their hard limits are fixed and already recorded in the quotas' statuses
- one sync of a quota reads the pods, compares and writes in one atomic step; what it compares with may be outdated, as the `Environment` value says
- where the gate or the ACRQ controller knows every cluster quota, it knows those of the whole run; how the mapper comes to know them is in `MappingConvergence`
- a cluster quota is one that selects this namespace only: the lock is per namespace, and for a quota over several namespaces the limit is not claimed
- the limit is claimed for the schedulable resources the controllers meter from pods; what a managed ResourceQuota or ClusterResourceQuota reports is taken to name other resources only
- the job queue object is never deleted, and pods start with the AAQ gate, which nobody but the gate controller removes
- a finished pod is charged `count/pods` only, as the generic pod evaluator does
- an update of a pod or of a status fails only with a conflict; other failures appear as a controller giving up, which it may do at any point

Members stated for less than the code handles:

- MappingSync.SyncQuota: the lister the retry loop consults is current, because otherwise the loop waits for it; outdated listers are in `MappingController`
- MappingSync.SyncNamespace: likewise
- Controllers.Namespace.ExecuteGate: the cached job queue names no pod twice, as `QueuesAreDistinct` proves of every version in every run
- Controllers.RecountAcrq: the status holds slices of this namespace only, and its total is their sum
- Controllers.Namespace.ExecuteAcrq: likewise, for each of the namespace's cluster quotas
- WorkQueueBucket.Bucket.GetWithData: a call that finds no key stands for one that returns at shutdown; waiting for a key is not modelled
- VmiUsage.PodUsageFunc: a listed launcher pod has its source pod listed and the instance has a CPU specification; the code dereferences both
- VmiUsage.MigrationCharge: the launcher pods are live, named apart, and first owned by the instance

Not modelled:

- the mapper's lock, under which every one of its operations is one atomic step, and the gap in `requireQuota` and `requireNamespace` between looking and writing
- notifications about different keys in any order relative to each other are modelled, notifications about one key out of order are not
- in the mapper, label selectors that do not parse and matchers that return errors
- the polling with which the gate waits for the mapper's stamp, and errors of informers' indexes
- queue shutdown, rate-limit timing, metrics, leader election, logging, event-handler wiring
- the evaluator's QoS, priority class and pod affinity tests (a pod carries the set of quotas whose scopes it satisfies, which the recount uses for every quota and the gate for cluster quotas), the plug-in registry with its retries, and the generic pod evaluator
- quantity parsing, formatting and rounding
- the enqueueing helpers of the ACRQ controller, which build lists of work items
- the RQ and CRQ controllers, the operator, certificates, manifests, RBAC, the webhook and generated code: no hard property
