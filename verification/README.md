# KrakenD operator: a verified model

The operator turns the `ApiEndpoints` resources of a namespace into the endpoint list of a KrakenD
gateway. An admission webhook guards the resources, a reconciler compiles the live ones into one
ConfigMap per `Krakend`, and a second reconciler renders the gateway's chart and shares that ConfigMap.
This project models those parts in Dafny and proves what they promise over every run.

| module | what it models |
|---|---|
| `ApiTypes`, `Sequences` | the custom resources as values; facts about sequences |
| `GatewayCompiler` | `ToKrakendEndpoints` and its helpers |
| `Admission` | the webhook: `Handle`, the backward replace loop, the path scan |
| `Protocol` | users, API server, any number of ApiEndpoints workers and one Krakend worker, interleaved call by call over a versioned store |
| `ProtocolInvariant`, `ProtocolTheorems` | what every step keeps, and safety over every run |
| `Comeback` | when a deleted resource can still be written back, and what strands its endpoints |
| `Provenance` | where a recorded hash comes from |
| `WorkerWrites` | a worker's write to its resource is a compare-and-swap on what it read |
| `KrakendWorker` | what the Krakend worker, left to itself, does to ConfigMaps |
| `OneWorker` | what holds as long as at most one worker is busy |
| `Totality` | when the ConfigMap update can fail on an admitted resource |
| `Runs`, `StrandedRuns`, `Anomalies` | runs that show where tempting guarantees end, and the exact conditions |
| `Reconciler`, `ReconcilerRefinement` | `Reconcile` as an imperative method, and its agreement with the protocol |
| `Outcomes` | success, failure and effect of an undisturbed reconcile on any store, in terms of the store |
| `Quiescence`, `Confluence` | the event loop without interference: it drains, converges, and event order does not matter |
| `LoopRefinement` | runs of the event loop are protocol runs; reachable states meet its assumptions |
| `Merge`, `MergeInPlace` | the deep merge of chart values, as a function on trees and on the heap |
| `Hosts`, `NetworkPolicies` | the backend host classifier and the policies that follow from it |
| `Migration` | the egress rules of a migrated gateway |

## Assumptions

- The store is linearizable and an update fails on a stale resource version. The real client may read
  from a cache.
- The listing of a namespace returns each resource once, in any order. Names are unique in a namespace.
- Admission's check and the commit of the write are one step.
- Two ApiEndpoints workers never handle the same resource at once (the work queue guarantees this within
  a manager; between managers it is assumed); there is one Krakend worker. Otherwise the protocol has any number of ApiEndpoints workers.
  As written the source has one per manager, because the controller sets no concurrency
  (internal/controller/apiendpoints_controller.go:184-188). More than one is busy only when two managers
  work at the same time, as with several replicas without `--leader-elect` (off by default) or while an
  old and a new manager overlap, or once a concurrency is set.
- Users never add or remove the operator's own finalizer and never write the status; a deletion
  timestamp never clears; finalizers cannot be added to a deleting object.
- Nobody but the operator creates or updates ConfigMaps whose name ends in `-partials`; anyone may
  delete them.
- The spec hash is an uninterpreted function whose value is never empty. Marshalling is an uninterpreted
  function that tells endpoint lists apart and yields a text that starts with a bracket. The URL parser
  is a parameter. Time is an integer.
- Whether an update of a ConfigMap that leaves its text as it was gets a new resource version is a
  parameter of the model, `everyWriteCounts`. A Kubernetes API server keeps the old version in that case.

## Findings

- With at most one busy worker, every update uses a listing no older than the one before, and a released
  resource is never written back. With two busy workers both fail, so the bound is exact:
  `Anomalies.MonotoneIffOneWorkerOrEveryWriteCounts`, `Anomalies.FinalIffOneWorker`. A release is final
  if nobody else is busy at that moment (`OneWorker.LoneReleaseIsFinal`).
- With several workers, the version read before the listing and checked at the write orders the snapshots
  only among writes that change something. If an update that changes nothing keeps the version, a slower
  worker can write with an older listing and bring back a deleted resource, also one that held the
  finalizer and was cleared by its own rewrite (`Anomalies.UnchangedRewriteComeback`). Over all reachable
  states only the version rule decides: `Anomalies.MonotoneIffEveryWriteCounts`,
  `Anomalies.NoComebackIffEveryWriteCounts`, `Anomalies.ReleaseIsFinalIffEveryWriteCounts`.
- With several workers and a Krakend that is deleted before the deletion of a resource is handled, no
  ConfigMap is rewritten, and a slower worker brings the resource back whatever the version rule
  (`Anomalies.AbsentKrakendComeback`).
- In all cases, a dead resource comes back if and only if a worker already holds a listing with it and
  the ConfigMap still has the version that worker read (`Comeback.ComesBackIffThreatened`,
  `Comeback.DeletionIsFinal`).
- Endpoints of a resource that has left stay behind for four reasons (`Comeback.StrandedOnlyBy`), and
  three of them need only one worker:
  - the ConfigMap is written before the finalizer is added, and the resource is deleted in between
    (`StrandedRuns.UnguardedDeletionLeavesEndpoints`);
  - the Krakend it names is absent when its deletion is handled; an edit of a deleting resource, which
    nobody checks, is enough (`StrandedRuns.EditedDeletionLeavesEndpoints`);
  - a listing covers the namespace, but a deletion rewrites only the ConfigMap of the Krakend named
    (`StrandedRuns.OtherKrakendKeepsEndpoints`);
  - a stale listing overtakes a rewrite that kept the version (`Anomalies.UnchangedRewriteComeback`).

  With one lasting Krakend and one worker, a released resource whose spec named that Krakend is out of its
  ConfigMap; in any case it is in there exactly when it was live at the listing of the last update
  (`OneWorker.OneWorkerStranding`).
- A deleting resource that another finalizer keeps updates the ConfigMap again on every event, also on
  the event raised by the removal of the operator's finalizer (`Quiescence.WorksTwiceExample`);
  `Quiescence.WorksAgainIffKept` says that nothing else does.
- A worker compiles with the `Krakend` it read before the listing. A provider added in between makes it
  fail on a resource that was rightly admitted, also with one worker and one Krakend whose providers only
  grow (`Anomalies.StaleKrakendRejectsAdmitted`);
  `Totality.WorkerFailsIffProviderUnread` says exactly when.
- Deep merge groups freely exactly when no non-map value of the first overrides meets a map of the
  second (`Merge.MergeAssociativeIffNoClash`).
- Policy names of different Krakends can coincide (`NetworkPolicies.PolicyNamesCollide`), and an
  existing policy of the right name is never repaired (`NetworkPolicies.PoliciesSelectTheirApps`).
- A listing has no fixed order, so equal content is equal up to the order of the endpoints.

## Model

| member | source | states |
|---|---|---|
| `GatewayCompiler.FindAuthProvider` | internal/krakend/parser.go:134-150 | succeeds exactly when a provider has the name; the validator carries the fields of the first such provider |
| `GatewayCompiler.FirstProvider` | internal/krakend/parser.go:134-150 | the search as a function: finds the first provider of the name, fails exactly when there is none |
| `GatewayCompiler.ParseKrakendEndpointsSpec` | internal/krakend/parser.go:71-93 | fails exactly without a provider; otherwise serves every protected, then every open endpoint: routing can be read back, validator exactly on protected ones, the resource's rate limit on all |
| `GatewayCompiler.ToKrakendEndpoints` | internal/krakend/parser.go:59-69 | fails exactly when some item has no provider; otherwise one entry per source endpoint in order, equal to the function the protocol uses |
| `GatewayCompiler.CompileMeaning` | internal/krakend/parser.go:59-93 | the function form has the same meaning: conservation, order, exact failure condition |
| `GatewayCompiler.ServesUnique` | internal/krakend/parser.go:80-91 | "serves" leaves no freedom: a source endpoint determines its gateway entry |
| `GatewayCompiler.CompiledPaths` | internal/krakend/parser.go:80-110 | the compiled paths are, in order, the paths of the compiled live resources |
| `GatewayCompiler.CompilePermutation` | internal/krakend/parser.go:59-69 | reordering the resources only reorders the entries and does not change failure |
| `Admission.ValidateAuth` | internal/webhook/apiendpoints_webhook.go:87-99 | accepts exactly when the Krakend has a provider of that name, the same condition under which compilation finds one |
| `Admission.EndpointsList.Validate` | internal/webhook/apiendpoints_webhook.go:101-122 | for every list, the backward delete-and-append loop leaves the items of other names in order followed by one copy of the new item per match (one if none); it accepts exactly when the live paths of that list are distinct |
| `Admission.PassStep` | internal/webhook/apiendpoints_webhook.go:103-112 | one turn of the loop; an appended copy is never visited again |
| `Admission.OthersAndMatches` | internal/webhook/apiendpoints_webhook.go:101-115 | what stays and what is replaced partition the list; without a match the list is unchanged |
| `Admission.ScanPaths` | internal/webhook/apiendpoints_webhook.go:129-136 | an inner loop extends the record of declared paths exactly, or stops at the first clash and names both owners |
| `Admission.UniquePaths` | internal/webhook/apiendpoints_webhook.go:124-151 | accepts exactly the lists whose live protected and open paths are pairwise distinct; otherwise reports the first clash |
| `Admission.Handle` | internal/webhook/apiendpoints_webhook.go:39-85 | for any listing order, allows exactly deleting resources and those whose Krakend (the namespace's own when the spec names none) exists, provides for them, and leaves the namespace's live paths distinct |
| `Admission.ReplacedEnumerates` | internal/webhook/apiendpoints_webhook.go:101-115 | with unique names the loop is filter-then-append and lists the namespace after the write |
| `Admission.ListUniqueness` | internal/webhook/apiendpoints_webhook.go:124-151 | distinct paths in a listing mean distinct paths in the namespace, both ways |
| `Admission.UniquenessIgnoresOrder` | internal/webhook/apiendpoints_webhook.go:124-151 | the verdict is the same for every order of the resources |
| `ProtocolInvariant.FilteredListing` | internal/controller/apiendpoints_controller.go:301-311 | the reconciler's filter of any listing lists exactly the live resources, the webhook's notion of live |
| `ProtocolInvariant.UpdateConfigMapOk` | internal/controller/apiendpoints_controller.go:282-330 | the compare-and-swap write keeps the whole invariant whatever happened between the reads and the write |
| `ProtocolInvariant.StepKeepsInv` | internal/controller/apiendpoints_controller.go:61-181 | every step of every participant keeps the invariant (unique live paths, faithful snapshots, guarded synchronized resources, dead identities stay dead, ordered writes, worker positions) |
| `ProtocolInvariant.RunKeepsInv` | internal/controller/apiendpoints_controller.go:61-181 | the invariant holds in every state of every run from an empty namespace |
| `ProtocolTheorems.AdmissionKeepsPathsUnique` | internal/webhook/apiendpoints_webhook.go:39-52 | in every reachable state all paths of all live resources are pairwise distinct, although updates of deleting resources pass unchecked |
| `ProtocolTheorems.EveryWriteIsExact` | internal/controller/apiendpoints_controller.go:301-324 | every content ever written has distinct paths, and they are exactly the paths live at its listing |
| `ProtocolTheorems.EveryContentIsExact` | internal/controller/apiendpoints_controller.go:301-324 | marshalled content found in a partials ConfigMap was exact at some past revision |
| `ProtocolTheorems.MonotoneSnapshots` | internal/controller/apiendpoints_controller.go:287-324 | over any interleaving, of two writes to a ConfigMap with one that got a version of its own at or after the first and before the second, the second lists the namespace after the first was committed |
| `ProtocolTheorems.SynchronizedIsGuarded` | internal/controller/apiendpoints_controller.go:147-178 | a live resource with a recorded hash holds the finalizer |
| `ProtocolTheorems.FinalizerGuardsDeletion` | internal/controller/apiendpoints_controller.go:77-104 | the finalizer goes only in a worker's own removal step, on a deleting resource, after its Krakend was seen absent or its ConfigMap was written without it since the deletion was read |
| `ProtocolTheorems.NothingComesBack` | internal/controller/apiendpoints_controller.go:287-324 | after a write from a listing in which a resource was gone, no write to that ConfigMap past one with a version of its own contains it |
| `ProtocolTheorems.ReleasedStaysOut` | internal/controller/apiendpoints_controller.go:77-104 | a released resource had its Krakend absent or its ConfigMap written without it, and if that write got a version of its own, every write from it on leaves the resource out, in every later state |
| `Comeback.ComesBackIffThreatened` | internal/controller/apiendpoints_controller.go:287-327 | in every reachable state, some continuation writes a dead resource to a ConfigMap if and only if some worker is past its listing with that resource in it and the ConfigMap still has the version it read |
| `Comeback.DeletionIsFinal` | internal/controller/apiendpoints_controller.go:77-104 | a guarded resource that loses its finalizer is deleting and safely cleared; it is written back to a ConfigMap later if and only if some worker is about to do so at that moment; a write since the deletion with a version of its own excludes it |
| `Comeback.StepKeepsHarmless` | internal/controller/apiendpoints_controller.go:282-330 | once no worker threatens to write a dead resource, no step of any participant makes one do so |
| `Comeback.ContentIsLastWrite` | internal/controller/apiendpoints_controller.go:322-327 | what a partials ConfigMap holds is what the last successful update of it compiled, also when that changed nothing |
| `Comeback.StrandedOnlyBy` | internal/controller/apiendpoints_controller.go:77-166 | if the last write to a ConfigMap lists a resource that has left, it never held the finalizer, or it was released with its Krakend absent, for another Krakend's ConfigMap, or past a rewrite that kept the version |
| `OneWorker.LoneReleaseIsFinal` | internal/controller/apiendpoints_controller.go:97-102 | a resource released while no other worker is busy is never written back to any ConfigMap, in any continuation and under either version rule |
| `OneWorker.OneWorkerMonotone` | internal/controller/apiendpoints_controller.go:184-188 | in a run with at most one busy worker, every update uses a listing no older than any update before it, under either version rule |
| `OneWorker.OneWorkerFinal` | internal/controller/apiendpoints_controller.go:184-188 | in such a run no update after a release lists the released resource |
| `OneWorker.OmitsIffDead` | internal/controller/apiendpoints_controller.go:301-313 | a write omits a resource exactly when it was not live at the listing |
| `OneWorker.OneWorkerStranding` | internal/controller/apiendpoints_controller.go:77-104 | with one lasting Krakend and at most one busy worker, a resource that held the finalizer and has left was released; it is out of the last write to the Krakend's ConfigMap if its spec named the Krakend then, and in any case exactly when it was not live at that write's listing |
| `ProtocolTheorems.OnlyReconcilerChangesPartials` | internal/controller/krakend_controller.go:140-162 | over every interleaving and any rendered resources, an existing partials ConfigMap changes only by an ApiEndpoints worker's own update of it, to what that worker compiled |
| `ProtocolTheorems.PartialsFrame` | internal/controller/krakend_controller.go:152-156 | no other step of any participant touches an existing partials ConfigMap |
| `KrakendWorker.ListIsSettled` | internal/controller/krakend_controller.go:112-162 | for any rendered list and any run of the Krakend worker alone through it: every rendered ConfigMap exists; a ConfigMap that is not a partials one holds the text last rendered for it, whether or not it existed; a missing partials ConfigMap is created with its text, an existing one is unchanged; nothing else changes |
| `KrakendWorker.KrakendWorkerAlone` | internal/controller/krakend_controller.go:299-322 | started on any list in any state, the worker gets to the end of the list, with that result |
| `KrakendWorker.WritesAreSwaps` | internal/controller/krakend_controller.go:303-316 | whoever else is at work, a call of the Krakend worker changes only the ConfigMap at hand, and only if it is missing when created or still has the fetched version when updated |
| `Provenance.RecordedHashWasListed` | internal/controller/apiendpoints_controller.go:106-176 | in every reachable state a recorded hash is that of a spec the resource had, live, at some revision, and the ConfigMap of the Krakend which that spec names was since updated from a listing no older than that revision |
| `Provenance.StepKeepsTraced` | internal/controller/apiendpoints_controller.go:106-176 | every step of every participant keeps that, with the corresponding fact about each worker's position |
| `WorkerWrites.RemovalSwaps` | internal/controller/apiendpoints_controller.go:97-102 | in every reachable state, the finalizer is taken off exactly the object that was read, if it is still that; otherwise nothing happens |
| `WorkerWrites.ClaimSwaps` | internal/controller/apiendpoints_controller.go:143-166 | finalizer and missing owner are added to exactly the object that was refetched, unless it is marked for deletion without the finalizer or not admitted; otherwise nothing happens and the worker gives up |
| `WorkerWrites.StatusSwaps` | internal/controller/apiendpoints_controller.go:170-178 | hash and time are recorded on exactly the object that was refetched, if it is still that; otherwise nothing happens |
| `WorkerWrites.NoLostUpdate` | internal/controller/apiendpoints_controller.go:141-178 | when such a write goes through, nobody has changed the resource at any revision since it was read |
| `Totality.AdmittedAlwaysCompiles` | internal/krakend/parser.go:59-78 | with one Krakend whose provider names never shrink, every listing in every reachable state compiles for the Krakend as it is then |
| `Totality.ProvidedCompiles` | internal/krakend/parser.go:71-78 | a listing compiles exactly when every live resource names a provider of the Krakend |
| `Totality.WorkerFailsIffProviderUnread` | internal/controller/apiendpoints_controller.go:301-316 | a worker's listing fails to compile exactly when a live resource uses a provider missing from the Krakend it had read |
| `Totality.CurrentProvidersCompile` | internal/controller/apiendpoints_controller.go:301-316 | with one Krakend whose provider names never shrink, a worker that read all the provider names the Krakend has now never fails to compile |
| `Anomalies.NoComebackIffEveryWriteCounts` | internal/controller/apiendpoints_controller.go:322-327 | what a write to a ConfigMap found deleted stays out of the later writes to that ConfigMap, in every reachable state, if and only if every update gets a version of its own |
| `Anomalies.MonotoneIffEveryWriteCounts` | internal/controller/apiendpoints_controller.go:287-324 | each update of a ConfigMap uses a listing no older than the update before it, in every reachable state, if and only if every update gets a version of its own |
| `Anomalies.MonotoneIffOneWorkerOrEveryWriteCounts` | internal/controller/apiendpoints_controller.go:184-188 | for every bound on busy workers, that holds in every run within the bound if and only if the bound is at most one or every update gets a version of its own |
| `Anomalies.FinalIffOneWorker` | internal/controller/apiendpoints_controller.go:184-188 | for every bound on busy workers and either version rule, releases are final in every run within the bound if and only if the bound is at most one |
| `Anomalies.ReleaseIsFinalIffEveryWriteCounts` | internal/controller/apiendpoints_controller.go:90-102 | a guarded resource released after its ConfigMap was rewritten never comes back to it, in every reachable state, if and only if every update gets a version of its own |
| `Anomalies.UnchangedRewriteComeback` | internal/controller/apiendpoints_controller.go:90-102 | the run for the other direction: a claimed resource, whose own deletion rewrite changes nothing, is released and then written back |
| `Anomalies.AbsentKrakendComeback` | internal/controller/apiendpoints_controller.go:80-102 | for every configuration, a run in which a claimed resource is released because its Krakend is absent and is then written back |
| `StrandedRuns.UnguardedDeletionLeavesEndpoints` | internal/controller/apiendpoints_controller.go:128-166 | a run with one worker and one lasting Krakend that ends with no resource and one served endpoint |
| `StrandedRuns.EditedDeletionLeavesEndpoints` | internal/webhook/apiendpoints_webhook.go:45-47 | a run with one worker and one lasting Krakend in which a claimed resource, edited while deleting to name an absent Krakend, leaves its endpoint behind |
| `StrandedRuns.OtherKrakendKeepsEndpoints` | internal/controller/apiendpoints_controller.go:282-304 | a run with one worker in which a claimed resource of a second Krakend leaves its endpoint behind in the first Krakend's ConfigMap |
| `Anomalies.StaleKrakendRejectsAdmitted` | internal/controller/apiendpoints_controller.go:120-132 | a run with one Krakend whose providers only grow that ends where a worker's listing fails to compile although the current Krakend provides for every live resource |
| `Reconciler.Cluster.UpdateEndpoints` | internal/controller/apiendpoints_controller.go:162-166 | an update succeeds exactly on the current version, with no finalizer added to a deleting resource, when admission allows it; the new store |
| `Reconciler.Cluster.UpdateKrakendConfigMap` | internal/controller/apiendpoints_controller.go:282-330 | success and the whole new store as a function of the store and the listing |
| `Outcomes.DeletionOutcome` | internal/controller/apiendpoints_controller.go:77-104 | on any store, a reconcile of a deleting resource fails exactly if its Krakend exists and the ConfigMap is missing or empty or a live resource names a provider it lacks, and then changes nothing; a success rewrites that ConfigMap if the Krakend exists and takes off the operator's finalizer, nothing else |
| `Outcomes.SyncOutcome` | internal/controller/apiendpoints_controller.go:106-180 | on any store, a reconcile of a live resource does nothing unless its hash differs or the interval has passed; then it fails exactly if the Krakend is absent, or its ConfigMap is missing or empty, or a live resource names a provider it lacks, or a claim is needed and the namespace's paths clash; a success rewrites the ConfigMap named after the Krakend, claims and records |
| `Outcomes.SyncWindow` | internal/controller/apiendpoints_controller.go:111-118 | with the current spec recorded, a resource is synchronized again exactly when the clock is past the recorded time plus the sync interval; up to then nothing changes |
| `Reconciler.Cluster.ReconcileDeletion` | internal/controller/apiendpoints_controller.go:77-104 | the deletion branch: result and the whole new store |
| `Reconciler.Cluster.ClaimAndRecord` | internal/controller/apiendpoints_controller.go:141-178 | the part after the ConfigMap write: result and the whole new store |
| `Reconciler.Cluster.Reconcile` | internal/controller/apiendpoints_controller.go:61-181 | result and the whole new store as a function of the store, the clock and the listing; with network policies on, the serving apps get their policies, and a failing policy call ends the reconcile without an error, with only the ConfigMap written |
| `ReconcilerRefinement.ReconcileIsRun` | internal/controller/apiendpoints_controller.go:61-181 | from any protocol state, a reconcile nobody interleaves with is a run of the protocol with the result of the function `Reconcile` computes |
| `ReconcilerRefinement.CallProceeds` | internal/controller/apiendpoints_controller.go:61-181 | each API call of a worker is possible, brings it closer to the end, keeps the effect still ahead and leaves the other workers alone |
| `ReconcilerRefinement.ResumeAfterWrite` | internal/controller/apiendpoints_controller.go:141-178 | whatever happened up to its ConfigMap write, a worker then left alone records the hash carried since its first read on the resource as it is now, with finalizer and owner, or gives up in the stated cases |
| `LoopRefinement.LoopIsRun` | internal/controller/apiendpoints_controller.go:61-181 | every run of the event loop, up to any of its states, is a run of the protocol from any matching state with idle workers |
| `LoopRefinement.ReachableIsHealthy` | internal/webhook/apiendpoints_webhook.go:54-85 | the store the loop assumes is the one of every reachable one-Krakend state whose ConfigMap is in place |
| `Quiescence.ReconcileSettles` | internal/controller/apiendpoints_controller.go:106-178 | on a healthy store a reconcile succeeds, writes the resource at most twice, only if it was pending, leaves it settled, and keeps all other resources and all live specs |
| `Quiescence.SyncEffect` | internal/controller/apiendpoints_controller.go:141-178 | a synchronization adds the finalizer and, where there is none, the named Krakend as owner, records hash and time, and changes nothing else of the resource |
| `Quiescence.DeletionEffect` | internal/controller/apiendpoints_controller.go:77-104 | a deletion takes the operator's finalizer and nothing else; the resource leaves exactly when that was its last finalizer |
| `Quiescence.TurnDecreases` | internal/controller/apiendpoints_controller.go:111-118 | every turn of the event loop lowers three times the number of pending resources plus the number of queued events |
| `Quiescence.QueueDrains` | internal/controller/apiendpoints_controller.go:111-118 | no run is longer than its initial measure, and it stops only with an empty queue |
| `Quiescence.SynchronizedOnce` | internal/controller/apiendpoints_controller.go:106-118 | a live resource is synchronized at most once in a sync window; events raised by its own writes are skipped |
| `Quiescence.WorksAgainIffKept` | internal/controller/apiendpoints_controller.go:77-118 | a resource that has updated the ConfigMap does so on a later event if and only if it is deleting and the operator's finalizer is not its only one, and then on every later event |
| `Quiescence.KeptWorksTwice` | internal/controller/apiendpoints_controller.go:77-104 | for every healthy store with such a resource, a run in which taking the operator's finalizer off raises an event that updates the ConfigMap again |
| `Quiescence.WorksTwiceExample` | internal/controller/apiendpoints_controller.go:77-104 | a concrete namespace in which that happens |
| `Quiescence.DrainedIsConverged` | internal/controller/apiendpoints_controller.go:174-178 | with the queue empty every live resource records the hash of its spec and no deleting one holds the finalizer |
| `Confluence.SameSpecsCompileAlike` | internal/controller/apiendpoints_controller.go:301-323 | listings of stores with the same live specs compile to the same endpoints up to order |
| `Confluence.WrittenIsCanonical` | internal/controller/apiendpoints_controller.go:282-330 | once a run has written a Krakend's ConfigMap it holds the content determined by the initial store, ever after |
| `Confluence.EventOrderDoesNotMatter` | internal/controller/apiendpoints_controller.go:282-330 | two runs from one store, with any event orders, listings and timings, that each wrote the ConfigMap end with texts that marshal the same endpoints up to order |
| `MergeInPlace.OverrideValues` | internal/helm/helm.go:81-94 | for tree-shaped targets and overrides with disjoint map nodes, and any iteration order, the target's tree becomes the pure merge, the overrides are unchanged, only target nodes and new ones are written, and no map node is shared afterwards |
| `MergeInPlace.OverrideEntry` | internal/helm/helm.go:83-92 | one turn of the loop puts the merged value under the key and nothing else |
| `MergeInPlace.SubMapAt` | internal/helm/helm.go:84-88 | the target's map node under a key, or a new empty one put in its place |
| `Merge.MergeEmptyTarget` | internal/helm/helm.go:81-94 | the empty map is a left identity |
| `Merge.MergeEmptyOverrides` | internal/helm/helm.go:81-94 | the empty map is a right identity |
| `Merge.MergeIdempotent` | internal/helm/helm.go:81-94 | overriding twice with the same values changes nothing more |
| `Merge.MergeAssociativeIffNoClash` | internal/helm/helm.go:83-89 | merging in sequence equals merging the overrides first, for every target, if and only if no non-map of the first meets a map of the second |
| `Merge.MergeLookup` | internal/helm/helm.go:82-92 | for every key path: override leaves win, paths the overrides do not reach keep the target's value, map nodes missing in the target come from the overrides |
| `Merge.LookupLawsComplete` | internal/helm/helm.go:82-92 | these laws cover every path, except one that ends at a map node of both trees, where the merge of the two is found |
| `Hosts.JoinSplit` | internal/controller/apiendpoints_controller.go:255-267 | joining what was split at the dots gives the host back |
| `Hosts.SplitJoin` | internal/controller/apiendpoints_controller.go:255-267 | splitting is the inverse of joining dot-free parts |
| `Hosts.ClassifierExact` | internal/controller/apiendpoints_controller.go:255-271 | for a dot-free namespace the switch yields a non-empty app exactly for the hosts app, app.ns and app.ns.svc.domain with app dot-free |
| `Hosts.AppsInNamespace` | internal/controller/apiendpoints_controller.go:243-280 | exactly the apps that serve some protected endpoint over http, each once, in first-occurrence order |
| `NetworkPolicies.Policies.EnsurePolicy` | internal/controller/apiendpoints_controller.go:209-238 | one app: succeeds exactly if the call to look and the call to create or write back go through; the policy is created if missing and otherwise kept |
| `NetworkPolicies.Policies.EnsureAppIngressNetpol` | internal/controller/apiendpoints_controller.go:190-241 | existing policies keep their content, new ones are exactly those of missing apps, success means every app has its policy under the name built from the Krakend, and it succeeds exactly if the calls of every app do |
| `NetworkPolicies.EnsuringAgainIsIdle` | internal/controller/apiendpoints_controller.go:190-241 | of two consecutive calls for the same resource, the second changes no policy once the first succeeded, whatever its calls do |
| `NetworkPolicies.PolicyNameInjective` | internal/controller/apiendpoints_controller.go:207-207 | under one Krakend distinct apps have distinct policies |
| `NetworkPolicies.PoliciesSelectTheirApps` | internal/controller/apiendpoints_controller.go:219-238 | every app is selected by its policy exactly when no older policy of such a name selects something else |
| `NetworkPolicies.PolicyNamesCollide` | internal/controller/apiendpoints_controller.go:207-207 | for all Krakend and app names, two policies share a name exactly for the same Krakend and app, or when one Krakend's name is the other's, a dash and the head of the app's name |
| `Migration.GetEgresses` | pkg/migration/parse/app.go:147-180 | across all resources one egress per distinct key, of the kind of its first occurrence, in first-occurrence order, and every wanted key is covered |
| `Migration.TakeEndpoints` | pkg/migration/parse/app.go:151-177 | the inner loop extends that by the endpoints of one resource |
| `Migration.GetEgressesFromAuth` | pkg/migration/parse/app.go:132-145 | the hosts of the providers' key URLs that parse, in order, none lost or repeated |
| `Migration.OutboundOf` | pkg/migration/parse/app.go:107-121 | after the auth hosts, rules and externals each hold their kind of egress in order, none lost or repeated except those without a name, which are dropped |
| `Migration.EgressOf` | pkg/migration/parse/app.go:85-122 | the egress part of `ToApp`: auth hosts first, then exactly one rule or external per distinct key of all resources, in first-occurrence order, none lost |

## Left out

- Migration.EgressOf: the other fields of `ToApp` would only add field mappings.
- MergeInPlace.OverrideValues: excludes nil values and maps of other Go types, on which the code panics.
- NetworkPolicies.Policies.EnsureAppIngressNetpol: a policy is its app label and owner; the rest of its content is constant. Nobody else writes policies during the call.
- ProtocolTheorems.MonotoneSnapshots: says nothing when no write in between got a version of its own, where it is false with several workers; `Anomalies.MonotoneIffOneWorkerOrEveryWriteCounts` is the exact statement.
- ProtocolTheorems.ReleasedStaysOut: says nothing about later writes in the two cases where they can bring the resource back; `Comeback.DeletionIsFinal` has the exact condition.
- Confluence.EventOrderDoesNotMatter: content is equal up to the order of the endpoints, since a listing has no fixed order.
- `repairMapAny`, chart loading, template rendering and `prepareValues`: rendered resources are an arbitrary list.
- The Krakend reconciler's status, deployment, environment and network policy handling; only its ConfigMap steps are in the protocol.
- The owner filter of `Convert` and ingresses of the migration tool.
- JSON and YAML encoding, URL parsing and hashing libraries, and how timestamps are rounded.
- Informer caches, leader election, the manager and the webhook server; decoding errors and failed reads in the webhook.
- The protocol has no step for network policies: a policy call that fails is a worker that gives up after the ConfigMap write.
- Liveness under failures: a failed worker may be started again at any time, but retries and back-off are not modelled.
- Aliasing of slices inside `validateEndpointsList`: the list is a sequence value.
- Cached reads in the Krakend reconciler, with which it could overwrite a partials ConfigMap.
