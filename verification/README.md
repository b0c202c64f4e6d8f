# Verification of the Nautes control plane

Nautes is a set of Kubernetes operators and admission webhooks. This project models
five parts of it in Dafny and proves what they promise.

- **The retrying topic queue** (`WorkQueue`, `QueueGuarantees`, `QueueDelivery`,
  `QueueTermination`, `QueueScenarios`, `QueueBursts`, `NautesQueue`). A state machine over
  the atomic steps of `Send` and of any number of workers, on top of the contract of
  client-go's rate limiting work queue; and the queue object itself, whose methods are runs
  of that machine. `QueueDelivery` reads what is stored and handled off the steps alone.
- **The product-ID reconciler of the base operator** (`ProductIds`, `ClusterUpdater`,
  `ProductRuns`, `ProductMeanings`, `ProductScenarios`). `setProductsInfo` works in place on
  a cluster's status; its effect is a relation that covers every order of map iteration, and
  whole runs of the reconciler and of other operators are studied over that relation.
  `ProductMeanings` says what the relation means for the listed products and the status.
- **Admission of runtimes** (`Resources`, `NamespaceUsage`, `PipelineChecks`,
  `PipelineValidate`, `Revalidation`, `DeploymentChecks`, `EnvironmentGuard`, `Admission`,
  `AdmissionSafety`, `AdmissionGuarantees`, `AdmissionMeanings`, `AdmissionHistory`,
  `AdmissionScenarios`). The checks of the webhooks with their loops, and a state machine
  whose every step is admitted by those checks. `AdmissionMeanings` says what is accepted in
  terms of the fields of the stored objects, and `AdmissionHistory` reads what is stored off
  the admitted requests alone.
- **The finalizer protocol** (`Finalizers`, `Reconcilers`). The API calls of the product,
  deployment runtime and pipeline runtime reconcilers, with crashes, lost writes and user
  actions between any two calls; and the `Reconcile` bodies as methods, one for both runtimes.
- **The merge of status conditions** (`Strings`, `Conditions`, `ConditionRuns`,
  `ConditionMeanings`). Several operators merge conditions into one list.

`Selections` says what it means that a loop keeps some elements of a list, in order.

`dafny verify dfyconfig.toml` checks the whole project.

## Where the code does not meet its description

- The comment in `handleErr` announces five retries. With the default limit the handler is
  called at most five times for one `Send`, so there are four retries, because `Send`
  counts as a requeue (`SingleSend`, `SingleSendTight`, `DefaultCalls`). A burst of Sends of
  one topic uses up one retry each before the first call (`BurstBounded`, `BurstTight`).
- `getProductByName` tests the first listed item in every round of its loop, not the
  current one. `LookupAsMeant` says exactly when the answer is the intended one.
- A run that succeeds without a change is not written, so after a failed run the
  `ProductInfoUpdated` condition stays `False` when its cause is gone. `ConditionReported`
  says, in terms of the spec, the products and the old status, exactly when the result is
  stored; `RecoveryWitness` is a run where it is not.
- `validateHooks` dereferences the cluster's event listener without a check.
  `PanicsWithoutListener` says exactly when `Validate` panics, and `PanicWitness` is a case.
  The shipped component definitions (config/apps/base/component_category_definition.yaml:20-26
  and :36-44) ask for a listener on pipeline clusters, so it takes other definitions, or a
  cluster that did not pass the cluster webhook.
- `checkNamespacesIsUsed` ignores the error of its listing, so it accepts everything as
  soon as one deployment runtime anywhere has no environment (`StrandedRuntime`). In the
  states the webhooks can lead to this does not happen (`UsageNeverFails`), as long as
  runtimes live in their product's namespace. The guard on deleting an environment counts a
  runtime that lives elsewhere only if another one in that namespace names the environment
  (`GuardSees`, `MisalignedDelete`).
- `checkNamespacesIsUsed` compares listed namespaces only. `DefaultsNotCompared` says
  exactly which clashes it sees; `SharingWitness` is a run of admitted requests after which
  two products share a namespace, and `SharedByDefaultOnly` shows that there is no other way.
- The tags of `StaticCheck` join names by a bar. `StaticExactly` says when that is wrong, and
  `BarsRefused` is such a spec. The patterns of the resource definition
  (api/kubernetes/v1alpha1/projectpipelineruntime_types.go:49, :60, :63 and :103) refuse bars,
  so the webhook never sees one. The API service's own call of `Validate`
  (app/api-server/internal/biz/projectpipelineruntime.go:244) can: its request rules ask for
  a minimum length only. The memo of `getUsedNamespacesInCluster` joins product and
  environment in the same way, but no runtime can confuse it, because a key that resolves
  names a stored environment (`MemoRightWithoutBars`).
- The runtime reconcilers skip the finalizer write when their copy has the finalizer
  already. With an informer's cache that is safe as long as the process lives
  (`SafeUntilRestart`), and for ever if reads never go back. A restart onto a listing older
  than what the process had read can make it run a runtime that has been cleaned up
  (`StaleRunOrphans`). The product reconciler, which writes every time, is safe with any
  reads (`SafetyExact`).
- The comment in `SetConditions` and `GetNewConditions` says that the timestamp changes
  only if something else does; both branches set it (`FilterThenReplace`).

## Assumptions

- The queue is not shut down, handlers return, and only the order of steps matters, not
  their times. Handlers, syncers and tasks are calls that may succeed or fail.
- The API server stores versions and refuses a write made from an old one. One object is
  reconciled by one goroutine at a time, and nobody else touches its finalizer.
- All products live in the configured namespace, with distinct resource names.
- Environments and deployment runtimes live in the namespace of their product. The
  names of environments and of their namespaces hold no bar, as the API server demands, and
  bindings are indexed by names without a slash. Clusters, and the cluster of an environment, do
  not change: `Environment.ValidateUpdate` accepts anything, so environment updates are not
  a step. Each admission is atomic. The listings a webhook asks for do not fail.
- Recording a deploy copies the current spec to the deploy history at any moment; the
  code that does so is not part of this model.
- Each merge reports distinct types, all of them evaluated and free of slashes.

## Model

| member | source | states |
|---|---|---|
| WorkQueue.InvReachable | pkg/queue/nautesqueue/nautesqueue.go:40-147 | every state that interleaved Sends, delays and workers can reach satisfies the queue's invariant (exclusive holders, fresh or still pending entries, counters) |
| QueueGuarantees.NoLostUpdate | pkg/queue/nautesqueue/nautesqueue.go:40-43 | in every interleaving, a stored topic with no Send in flight that is neither delayed, queued nor processing was last handled with the entry now in the store |
| QueueDelivery.StoreIsLastSent | pkg/queue/nautesqueue/nautesqueue.go:40-43 | after every interleaving, what is stored under a topic is the entry of the last Send of that topic among the steps, and nothing without one |
| QueueDelivery.ReceivedIsLastRead | pkg/queue/nautesqueue/nautesqueue.go:98-103 | what the handler was last given is the entry of the last Send before a worker last read the topic |
| QueueDelivery.LastSendDelivered | pkg/queue/nautesqueue/nautesqueue.go:40-147 | when a topic is quiet a worker has read it after its last Send, and the handler was last given the entry of that Send |
| QueueDelivery.SuccessIsFinal | pkg/queue/nautesqueue/nautesqueue.go:123-130 | with nothing else pending, a topic handled without an error is not handled again until a new Send |
| QueueGuarantees.OneWorkerPerTopic | pkg/queue/nautesqueue/nautesqueue.go:93-96 | no two workers hold one topic at the same time |
| QueueGuarantees.KeyNeverMissing | pkg/queue/nautesqueue/nautesqueue.go:98-102 | the store always has the entry of a topic a worker reads, so no worker loop ends on a missing key |
| QueueGuarantees.CallsBounded | pkg/queue/nautesqueue/nautesqueue.go:123-147 | without a new Send every handler call uses up one of the calls allowed by pending adds and remaining retries |
| QueueGuarantees.CallsBoundedBySends | pkg/queue/nautesqueue/nautesqueue.go:40-43 | over any run and interleaving each new Send of a topic adds at most one call and the retries of the limit |
| QueueGuarantees.BoundStep | pkg/queue/nautesqueue/nautesqueue.go:103-106 | no step but a Send raises the number of calls still allowed, and the end of each handler call lowers it |
| QueueGuarantees.SingleSend | pkg/queue/nautesqueue/nautesqueue.go:40-43 | one Send of a quiet topic causes at most max(1, requeueTimes) handler calls |
| QueueScenarios.SingleSendTight | pkg/queue/nautesqueue/nautesqueue.go:132-142 | with a handler that always fails there are exactly that many calls |
| QueueScenarios.DefaultCalls | pkg/queue/nautesqueue/nautesqueue.go:28-30 | with the default limit one Send leads to at most five calls, and a handler that always fails is called five times |
| QueueGuarantees.NoRetryAfterBurst | pkg/queue/nautesqueue/nautesqueue.go:132-142 | once the counter is at the limit, one pending add leads to at most one call, in any interleaving |
| QueueBursts.BurstBounded | pkg/queue/nautesqueue/nautesqueue.go:40-43 | after k uninterrupted Sends of a quiet topic, each merging with the delay there is, no run without a new Send calls the handler more than once plus the retries that k leaves |
| QueueBursts.BurstTight | pkg/queue/nautesqueue/nautesqueue.go:123-147 | such a burst is possible for every k, and with a handler that always fails there are exactly that many calls |
| QueueGuarantees.QuietIsForgotten | pkg/queue/nautesqueue/nautesqueue.go:123-142 | the rate limiter remembers nothing of a quiet topic |
| QueueGuarantees.RetryTerminates | pkg/queue/nautesqueue/nautesqueue.go:82-107 | without a new Send a topic takes a bounded number of steps |
| QueueTermination.AllTerminates | pkg/queue/nautesqueue/nautesqueue.go:67-107 | a run without a new Send, over all topics, has a bounded number of steps |
| QueueTermination.DeliversAll | pkg/queue/nautesqueue/nautesqueue.go:67-107 | from every reachable state the queue can come to rest, and then every stored entry is the one last handled |
| QueueTermination.LatestEntryStored | pkg/queue/nautesqueue/nautesqueue.go:110-120 | the stored entry of a topic stays until the next Send, whatever else happens; `QueueDelivery.StoreIsLastSent` says which entry it is |
| QueueGuarantees.StuckIsIdle | pkg/queue/nautesqueue/nautesqueue.go:67-107 | a state in which only a new Send is possible has nothing pending for any topic: there is no deadlock |
| QueueGuarantees.StuckMeansDelivered | pkg/queue/nautesqueue/nautesqueue.go:67-107 | a run that cannot go on has handed the stored entry of every topic to the handler, which is that of its last Send (`QueueDelivery.StoreIsLastSent`) |
| NautesQueue.CallRunResult | pkg/queue/nautesqueue/nautesqueue.go:87-107 | one uninterrupted processNextItem is a run of the step machine with the given end state |
| NautesQueue.SendRunResult | pkg/queue/nautesqueue/nautesqueue.go:40-43 | one uninterrupted Send is a run of the step machine with the given end state |
| NautesQueue.ClientGoWorkQueue.constructor | pkg/queue/nautesqueue/nautesqueue.go:57-65 | a new queue is in the machine's initial state |
| NautesQueue.ClientGoWorkQueue.Send | pkg/queue/nautesqueue/nautesqueue.go:40-43 | puts the given entry in the store, in place of the one there, counts a requeue and starts one delay |
| NautesQueue.ClientGoWorkQueue.HandleErr | pkg/queue/nautesqueue/nautesqueue.go:123-147 | a failure below the limit is counted and delayed again; otherwise the counter is forgotten and nothing is added |
| NautesQueue.ClientGoWorkQueue.ProcessNextItem | pkg/queue/nautesqueue/nautesqueue.go:87-107 | takes a queued topic that nobody holds, hands its entry to the handler, retries or drops it, and releases it |
| ClusterUpdater.CollectProducts | app/base-operator/controllers/cluster_controller.go:224-233 | exactly the product names the spec refers to |
| ClusterUpdater.Cluster.SetProductID | app/base-operator/controllers/cluster_controller.go:235-267 | one referenced product: what is pinned, warned about or failed, with nothing else changed; `CheckExactly` and `LookupExactly` say when that is |
| ClusterUpdater.Cluster.SetProductIDMap | app/base-operator/controllers/cluster_controller.go:220-278 | for any iteration order, the map ends as the referenced products that were pinned or found; on failure it only grew by found ones; isChanged iff the map differs |
| ClusterUpdater.Cluster.SetProductsInfo | app/base-operator/controllers/cluster_controller.go:191-218 | the new status is related to the old one by `Updates`, failures included |
| ClusterUpdater.IsSame | app/base-operator/controllers/cluster_controller.go:343-357 | true iff both maps have the same names with the same warning types |
| ClusterUpdater.GetWarnings | app/base-operator/controllers/cluster_controller.go:359-370 | one warning for each entry, in some order, with the entry's message |
| ClusterUpdater.GetProductByName | app/base-operator/controllers/cluster_controller.go:298-324 | the loop, with its test of the first item, answers as `ProductByName` says |
| ProductMeanings.LookupExactly | app/base-operator/controllers/cluster_controller.go:298-324 | iff: the lookup by name finds the only product of that name if it is live; it finds none if there is none or the first one is being deleted |
| ProductMeanings.CheckExactly | app/base-operator/controllers/cluster_controller.go:280-296 | iff: a pinned ID is gone when no listed product has it, and mismatched when a product of another name has it |
| ProductMeanings.MismatchWarned | app/base-operator/controllers/cluster_controller.go:191-218 | iff: after a successful run the base operator warns of a mismatch when the name is referenced and pinned to the ID of a product of another name |
| ProductMeanings.MissingWarned | app/base-operator/controllers/cluster_controller.go:191-218 | iff: it warns of a missing product when the name is referenced and pinned to an ID that no product has, or is not pinned and not found |
| ProductMeanings.WarningTexts | app/base-operator/controllers/cluster_controller.go:384-395 | each warning has its literal text, with its name and the ID that is pinned now |
| ProductMeanings.PinnedExactly | app/base-operator/controllers/cluster_controller.go:220-278 | iff: after success a name is pinned to an ID when it is referenced and was pinned to it, or was not pinned and its one product is live and has it |
| ProductMeanings.FailedRunPins | app/base-operator/controllers/cluster_controller.go:191-218 | a run that fails leaves all warnings and pinned IDs and adds IDs of live products only |
| ProductMeanings.FailsExactly | app/base-operator/controllers/cluster_controller.go:235-267 | iff: a run fails when a call it makes fails, or it looks for a name that several products have, the first of them live |
| ProductMeanings.ChangeReported | app/base-operator/controllers/cluster_controller.go:191-218 | iff: a run reports a change when the status differs |
| ProductRuns.OthersKept | app/base-operator/controllers/cluster_controller.go:195-213 | warnings of other operators keep content and order |
| ProductMeanings.OthersUntouched | app/base-operator/controllers/cluster_controller.go:195-213 | one list is the selection of the other operators' warnings before the run and after it: none lost, added, doubled or moved |
| ProductRuns.OrderIrrelevant | app/base-operator/controllers/cluster_controller.go:235-275 | two runs from one status agree on failure and, on success, on the map, the report of a change and the set of warnings |
| ProductRuns.FixedPoint | app/base-operator/controllers/cluster_controller.go:191-278 | after a successful run a second one on the same spec and products changes nothing, reports no change, and succeeds unless a call fails |
| ProductRuns.WarningsExact | app/base-operator/controllers/cluster_controller.go:343-370 | although messages are not compared, after success the base operator's warnings are exactly the expected ones, messages included |
| ProductRuns.SoundRun | app/base-operator/controllers/cluster_controller.go:191-218 | every run keeps the stored warnings truthful and one per product |
| ProductRuns.NoStaleWarning | app/base-operator/controllers/cluster_controller.go:390-395 | in every reachable status a mismatch warning is about a pinned product and names the pinned ID |
| ProductRuns.PinnedForever | app/base-operator/controllers/cluster_controller.go:238-275 | a pinned ID never changes while its name stays referenced |
| ProductRuns.LookupAsMeant | app/base-operator/controllers/cluster_controller.go:307-323 | iff: when the lookup by name answers as a filter on each item would |
| ProductRuns.DeletingItemHidesLiveOne | app/base-operator/controllers/cluster_controller.go:309-311 | an input where a product being deleted hides the live one |
| ProductRuns.ConditionReported | app/base-operator/controllers/cluster_controller.go:63-99 | iff: the stored condition tells the result of the run when it said True before, or a referenced product fails, or the map or the warnings are not up to date |
| ProductRuns.RecoveryNotReported | app/base-operator/controllers/cluster_controller.go:63-99 | success, failure, success on the same products leave the condition at False |
| ProductScenarios.RecoveryWitness | app/base-operator/controllers/cluster_controller.go:63-99 | a run from a new cluster that ends this way: one product, one failing read |
| NamespaceUsage.BuildEnvCache | api/kubernetes/v1alpha1/global_webhook.go:278-287 | the cache holds, for each product, the cluster of its last listed environment of each name |
| NamespaceUsage.CachedIsLast | api/kubernetes/v1alpha1/global_webhook.go:278-287 | iff: the cached cluster of a product and name is that of the last listed environment with both |
| NamespaceUsage.GetUsedNamespaces | api/kubernetes/v1alpha1/global_webhook.go:262-319 | the loops give the usage map, or the first error in listing order |
| NamespaceUsage.UsageIsScan | api/kubernetes/v1alpha1/global_webhook.go:289-318 | a cluster is listed iff a runtime that is not excluded is on it; its list is the concatenation of what they use, never empty |
| NamespaceUsage.CollectedInOrder | api/kubernetes/v1alpha1/global_webhook.go:289-318 | each counted runtime adds its namespaces after those of the runtimes before it |
| AdmissionMeanings.UsageFields | api/kubernetes/v1alpha1/global_webhook.go:262-319 | iff: a namespace is listed for a cluster when a runtime whose environment is there, and which is not left out, names it, or names none and has its name |
| NamespaceUsage.ErrorMeaning | api/kubernetes/v1alpha1/global_webhook.go:296-306 | an error iff some runtime that is not excluded has no product or environment |
| NamespaceUsage.FilterIsRestriction | api/kubernetes/v1alpha1/global_webhook.go:308-310 | asking for one cluster gives the full answer restricted to it, errors included |
| NamespaceUsage.CacheAgrees | api/kubernetes/v1alpha1/global_webhook.go:213-219 | the cache agrees with GetEnvironment when environments live in their product's namespace |
| NamespaceUsage.IsExcludeRuntime | api/kubernetes/v1alpha1/global_webhook.go:321-330 | excluded iff some excluded runtime has the same kind, product and name |
| NamespaceUsage.GetUsedNamespacesInCluster | api/kubernetes/v1alpha1/deploymentruntime_webhook.go:223-270 | an error iff some lookup fails, else one duplicate-free entry per product, where the memo gives each runtime the cluster of the first one with its key |
| NamespaceUsage.UsageByProductMeaning | api/kubernetes/v1alpha1/deploymentruntime_webhook.go:231-254 | a product is listed iff one of its runtimes counts for the cluster, with the union of their listed namespaces |
| NamespaceUsage.MemoKeyInjective | api/kubernetes/v1alpha1/deploymentruntime_webhook.go:235-243 | a key that resolves to a stored environment names product and environment, whatever strings the runtimes hold |
| NamespaceUsage.MemoRightExactly | api/kubernetes/v1alpha1/deploymentruntime_webhook.go:235-243 | iff: the memo gives every runtime its own cluster when runtimes that share a key share a cluster |
| NamespaceUsage.MemoRightWithoutBars | api/kubernetes/v1alpha1/deploymentruntime_webhook.go:235-243 | for environments whose names hold no bar, the listing fails iff some environment is missing, and otherwise the memo gives every runtime its own cluster |
| PipelineChecks.StaticCheck | api/kubernetes/v1alpha1/projectpipelineruntime_webhook.go:193-241 | accepts iff names are unique, triggers name a source and a pipeline, tags are distinct, inputs and the additional git resource are complete |
| PipelineChecks.CheckInputs | api/kubernetes/v1alpha1/projectpipelineruntime_webhook.go:243-264 | accepts iff every input has exactly one origin and a transmission method |
| PipelineChecks.TagInjective | api/kubernetes/v1alpha1/projectpipelineruntime_webhook.go:229-233 | tags are equal iff source, pipeline and revision are, for names without a bar and any revision |
| PipelineChecks.StaticMeaning | api/kubernetes/v1alpha1/projectpipelineruntime_webhook.go:219-234 | so the check of tags is one of (source, pipeline, revision) triples |
| AdmissionMeanings.StaticFields | api/kubernetes/v1alpha1/projectpipelineruntime_webhook.go:193-264 | iff, for names without bars: the static check on the fields of sources, pipelines, triggers and inputs |
| PipelineChecks.StaticExactly | api/kubernetes/v1alpha1/projectpipelineruntime_webhook.go:219-234 | iff: for any names, the check of tags is one of triples unless the triples are distinct and two of them have one tag |
| PipelineChecks.BarsRefused | api/kubernetes/v1alpha1/projectpipelineruntime_webhook.go:229-233 | a spec with bars in its names that is refused although its triples are distinct |
| PipelineChecks.TriggersResolve | api/kubernetes/v1alpha1/projectpipelineruntime_functions.go:40-58 | after StaticCheck GetEventSource and GetPipeline find, for every trigger, the only candidate |
| PipelineChecks.ConvertMetadataArrayToMap | api/kubernetes/v1alpha1/projectpipelineruntime_webhook.go:457-463 | each name is mapped to its last entry |
| PipelineChecks.ValidateHookGeneral | api/kubernetes/v1alpha1/projectpipelineruntime_webhook.go:416-431 | accepts iff type and name are new and every event source type is supported |
| PipelineChecks.ValidateHooks | api/kubernetes/v1alpha1/projectpipelineruntime_webhook.go:369-414 | sound and complete: given an event listener, accepts exactly known hooks, allowed in their phase, with distinct types per phase, distinct names over both, and supported event types; panics iff hooks are set and the listener is not |
| AdmissionMeanings.HookFields | api/kubernetes/v1alpha1/projectpipelineruntime_webhook.go:369-463 | iff: each hook's last metadata entry allows its phase and supports every event type, no type comes twice in a phase and no alias or name twice in both |
| PipelineChecks.FewerTypes | api/kubernetes/v1alpha1/projectpipelineruntime_webhook.go:442-455 | accepted hooks stay accepted when event source types disappear |
| PipelineValidate.SameTypes | api/kubernetes/v1alpha1/projectpipelineruntime_webhook.go:356-367 | the answer depends on the set of event source types, not on their order |
| PipelineValidate.GetEventSourceTypes | api/kubernetes/v1alpha1/projectpipelineruntime_webhook.go:356-367 | exactly the types that some event source has |
| PipelineValidate.CheckPermission | api/kubernetes/v1alpha1/global_webhook.go:178-211 | permission iff the project owns the repository or a live binding of the product covers it |
| AdmissionMeanings.PermissionExactly | api/kubernetes/v1alpha1/global_webhook.go:178-211 | iff: exactly one repository has the name, and it is live and of the product and project, or a live binding for both gives it to every project or to this one |
| PipelineValidate.CollectIllegal | api/kubernetes/v1alpha1/projectpipelineruntime_webhook.go:160-173 | the loop lists the event sources whose repository is not permitted, in order |
| PipelineValidate.IllegalMeaning | api/kubernetes/v1alpha1/projectpipelineruntime_webhook.go:160-173 | a source is listed iff it names a repository the project may not use |
| PipelineValidate.Validate | api/kubernetes/v1alpha1/projectpipelineruntime_webhook.go:118-190 | the code's checks in the code's order give `Verdict`, first failing check included |
| PipelineValidate.AcceptanceMeaning | api/kubernetes/v1alpha1/projectpipelineruntime_webhook.go:118-190 | acceptance iff every check holds; in particular all other runtimes have an environment and none on the cluster, of either kind, uses the namespace |
| AdmissionMeanings.PipelineAccepted | api/kubernetes/v1alpha1/projectpipelineruntime_webhook.go:118-190 | iff, on the fields: the environment is on a pipeline worker cluster where nobody else uses the namespace it names, or its own name if it names none; every other runtime has its environment; permissions and hooks pass |
| AdmissionMeanings.PipelineAnswer | api/kubernetes/v1alpha1/projectpipelineruntime_webhook.go:160-173 | the answer is the selection, in order, of the sources whose repository the project may not use |
| AdmissionHistory.PipelineLetIn | api/kubernetes/v1alpha1/projectpipelineruntime_webhook.go:51-72 | iff: the webhook lets a pipeline runtime in when it is accepted and its project may use every repository of its sources |
| PipelineValidate.PanicsWithoutListener | api/kubernetes/v1alpha1/projectpipelineruntime_webhook.go:175-187 | iff: Validate panics when every earlier check passes, hooks are set and the cluster has no event listener |
| PipelineValidate.PanicWitness | api/kubernetes/v1alpha1/projectpipelineruntime_webhook.go:369-373 | a runtime with empty hook lists on a pipeline cluster without a listener |
| PipelineValidate.NewPipelineRuntimeWithOutIllegalEventSource | app/runtime-operator/controllers/projectpipelineruntime_controller.go:120-151 | the loops drop the illegal sources and the triggers that name one; the copy has resource version "0", whatever the original had |
| Revalidation.Revalidation | app/runtime-operator/controllers/projectpipelineruntime_controller.go:120-151 | a runtime that validates with illegal sources validates in the same world without any once they are filtered out |
| Revalidation.FilterExact | app/runtime-operator/controllers/projectpipelineruntime_controller.go:134-148 | the filter keeps exactly the legal sources and the triggers that name a kept one |
| AdmissionMeanings.FilteredExactly | app/runtime-operator/controllers/projectpipelineruntime_controller.go:120-151 | the filtered lists are the selections, in order, of sources and triggers whose source name no illegal source has; every other field stays |
| Revalidation.StaticAgain | api/kubernetes/v1alpha1/projectpipelineruntime_webhook.go:193-241 | filtering by any set of source names keeps StaticCheck satisfied |
| Revalidation.FilterIdempotent | app/runtime-operator/controllers/projectpipelineruntime_controller.go:120-151 | filtering the filtered runtime changes nothing |
| DeploymentChecks.CheckRuntimeCanDeployOnCluster | api/kubernetes/v1alpha1/deploymentruntime_webhook.go:148-166 | refused iff the cluster is missing, is no deployment worker, or one of its components uses a listed namespace |
| DeploymentChecks.CheckRuntimeIsDuplicate | api/kubernetes/v1alpha1/deploymentruntime_webhook.go:168-187 | refused iff another runtime of the product deploys the same manifests to the same environment |
| DeploymentChecks.CheckNamespacesIsUsed | api/kubernetes/v1alpha1/deploymentruntime_webhook.go:189-216 | refused iff the environment is known, no lookup of the listing fails, and a runtime of another product that counts for the cluster lists a common namespace |
| DeploymentChecks.TakenWithoutBars | api/kubernetes/v1alpha1/deploymentruntime_webhook.go:189-243 | so the check refuses iff every environment is known and a runtime of another product really on the cluster lists a common namespace |
| DeploymentChecks.ValidateProjectRef | api/kubernetes/v1alpha1/deploymentruntime_webhook.go:272-290 | lists in order the projects that may not use the manifest repository |
| DeploymentChecks.IllegalRefsMeaning | api/kubernetes/v1alpha1/deploymentruntime_webhook.go:279-287 | a project is listed iff it is referenced and has no permission |
| DeploymentChecks.Validate | api/kubernetes/v1alpha1/deploymentruntime_webhook.go:102-142 | both the early path of a deployed runtime and the full check, with the first failing check |
| AdmissionMeanings.DeploymentAccepted | api/kubernetes/v1alpha1/deploymentruntime_webhook.go:102-142 | iff, on the fields: the repository is unique, the environment is the deployed one, and it is deployed as it asks in repository, path, revision and environment, or fits its cluster, has no twin in its product and no rival that the check can see |
| AdmissionMeanings.ChangedManifestChecked | api/kubernetes/v1alpha1/deploymentruntime_webhook.go:118-122 | a deployed runtime that asks for another repository, path or revision is accepted only if no other runtime of its product asks for the same in the same environment |
| AdmissionMeanings.DeploymentAnswer | api/kubernetes/v1alpha1/deploymentruntime_webhook.go:272-290 | the answer is the selection, in order, of the referenced projects that may not use the manifest repository |
| AdmissionHistory.DeploymentLetIn | api/kubernetes/v1alpha1/deploymentruntime_webhook.go:44-88 | iff: the webhook lets a deployment runtime in when it is accepted and every referenced project may use the repository |
| DeploymentChecks.DefaultsNotCompared | api/kubernetes/v1alpha1/deploymentruntime_webhook.go:196-216 | iff: a runtime that clashes with others in the namespaces they use is refused when it lists namespaces and one of them does too |
| DeploymentChecks.StrandedRuntime | api/kubernetes/v1alpha1/deploymentruntime_webhook.go:198-206 | one deployment runtime without an environment switches the namespace check off and blocks every pipeline runtime |
| EnvironmentGuard.GetDependencies | api/kubernetes/v1alpha1/environment_webhook.go:85-95 | lists the runtimes of the namespace that name the environment, deployments first |
| EnvironmentGuard.IsDeletable | api/kubernetes/v1alpha1/environment_webhook.go:65-76 | true iff no runtime of the namespace, of either kind, names the environment |
| EnvironmentGuard.GuardSees | api/kubernetes/v1alpha1/deploymentruntime_webhook.go:331-345 | iff: a deployment runtime keeps its environment from deletion when it lives in its product's namespace, or another runtime there names the environment |
| EnvironmentGuard.MisalignedDelete | api/kubernetes/v1alpha1/deploymentruntime_webhook.go:331-345 | an input where the guard lets go an environment that is needed |
| AdmissionSafety.InvStep | api/kubernetes/v1alpha1/deploymentruntime_webhook.go:102-142 | every admitted create, update, delete and recorded deploy keeps placement, frozen environments, exclusive pipeline namespaces and settled collisions |
| AdmissionSafety.InvReachable | api/kubernetes/v1alpha1/projectpipelineruntime_webhook.go:118-190 | so does every reachable state |
| AdmissionHistory.StoredIsLastAdmitted | api/kubernetes/v1alpha1/deploymentruntime_webhook.go:44-88 | after every run the stored specs, clusters and histories are those of the last admitted requests, and nothing else is stored |
| AdmissionSafety.AdmittedFits | api/kubernetes/v1alpha1/deploymentruntime_webhook.go:102-142 | an admitted deployment runtime is on a deployment cluster, and its recorded manifest and environment are those of its spec or it collides with no other |
| AdmissionSafety.AdmittedApart | api/kubernetes/v1alpha1/projectpipelineruntime_webhook.go:146-158 | an admitted pipeline runtime uses no namespace, named or defaulted, of another one on its cluster |
| AdmissionGuarantees.EnvironmentsExist | api/kubernetes/v1alpha1/environment_webhook.go:65-95 | in every reachable state each runtime's environment exists, on a worker cluster of its kind |
| AdmissionHistory.EveryRuntimePlaced | api/kubernetes/v1alpha1/deploymentruntime_webhook.go:148-166 | on the fields: each stored runtime names an environment on a worker cluster of its kind |
| AdmissionGuarantees.UsageNeverFails | api/kubernetes/v1alpha1/global_webhook.go:289-306 | in every reachable state no listing of used namespaces fails, with the memo or without, so the ignored error is never set |
| AdmissionGuarantees.GuardExact | api/kubernetes/v1alpha1/environment_webhook.go:65-76 | in every reachable state an environment can be deleted iff no runtime refers to it |
| AdmissionGuarantees.NamespaceExclusive | api/kubernetes/v1alpha1/projectpipelineruntime_webhook.go:126-158 | in every reachable state a pipeline runtime shares its (defaulted) namespace with no other runtime of its cluster, of either kind |
| AdmissionHistory.PipelineNamespacesDiffer | api/kubernetes/v1alpha1/projectpipelineruntime_webhook.go:146-158 | on the fields: two pipeline runtimes on one cluster differ in the namespace they name, or in their own name where they name none |
| AdmissionHistory.KindsApart | api/kubernetes/v1alpha1/projectpipelineruntime_webhook.go:126-131 | no deployment runtime is on the cluster of a pipeline runtime, so no namespace is shared between kinds |
| AdmissionGuarantees.StoredPipelineStillFits | app/runtime-operator/controllers/projectpipelineruntime_controller.go:90-98 | a stored pipeline runtime fails a later validation only for permissions or hooks |
| AdmissionGuarantees.OneOfTwoIsDeployed | api/kubernetes/v1alpha1/deploymentruntime_webhook.go:168-216 | of two colliding deployment runtimes one has a history whose manifest and environment are those of its spec |
| AdmissionHistory.TwinIsDeployed | api/kubernetes/v1alpha1/deploymentruntime_webhook.go:168-187 | on the fields: of two runtimes of a product with one repository, path, revision and environment, one is deployed as it asks |
| AdmissionHistory.RivalIsDeployed | api/kubernetes/v1alpha1/deploymentruntime_webhook.go:189-216 | on the fields: of two runtimes of different products on one cluster that list a common namespace, one is deployed as it asks |
| AdmissionGuarantees.NeverDeployedApart | api/kubernetes/v1alpha1/deploymentruntime_webhook.go:168-216 | runtimes that were never deployed do not collide |
| AdmissionGuarantees.SharedByDefaultOnly | api/kubernetes/v1alpha1/deploymentruntime_webhook.go:189-216 | two never deployed runtimes of different products share a namespace of a cluster only if one of them lists none |
| AdmissionScenarios.SharingWitness | api/kubernetes/v1alpha1/deploymentruntime_functions.go:25-31 | a reachable state where two such runtimes share the namespace of their common name |
| AdmissionGuarantees.FrozenEnvironment | api/kubernetes/v1alpha1/deploymentruntime_webhook.go:102-122 | a deployed runtime keeps its environment and its deployment cluster over every run until it is deleted |
| AdmissionGuarantees.RecordedIsPinned | api/kubernetes/v1alpha1/deploymentruntime_webhook.go:103-110 | recording a deploy starts that |
| Finalizers.SyncedStaysGuarded | app/base-operator/controllers/product_controller.go:61-103 | at every point of every run, an object synced since its last successful Delete is still stored with the finalizer |
| Finalizers.RecordOfCalls | app/runtime-operator/controllers/deploymentruntime_controller.go:92-138 | iff: an object counts as synced after a Sync on it until a successful Delete of it, and as cleaned after that |
| Finalizers.NothingLeftBehind | app/runtime-operator/controllers/deploymentruntime_controller.go:92-112 | once an object is gone nothing is synced for it |
| Finalizers.NoResurrection | app/runtime-operator/controllers/projectpipelineruntime_controller.go:61-81 | what was cleaned up is never synced again |
| Finalizers.DeletionCompletes | app/base-operator/controllers/product_controller.go:69-88 | one undisturbed run cleans up an object being deleted and releases it |
| Finalizers.SafeUntilRestart | app/runtime-operator/controllers/deploymentruntime_controller.go:78-146 | without a restart, cached reads that may be behind but never go back keep every synced object guarded |
| Finalizers.StaleRunOrphans | app/runtime-operator/controllers/deploymentruntime_controller.go:114-138 | a run with one restart onto an older listing that leaves a synced object without finalizer |
| Finalizers.SafetyExact | app/runtime-operator/controllers/deploymentruntime_controller.go:78-146 | safety holds on all runs iff reads never go back, restarts included, or the finalizer is written on every run |
| Reconcilers.World.Do | app/base-operator/controllers/product_controller.go:61-103 | each API call is one enabled step of the protocol |
| Reconcilers.World.CleanUp | app/runtime-operator/controllers/deploymentruntime_controller.go:92-112 | without an error the object is cleaned up and released; nothing else is touched |
| Reconcilers.World.ReconcileProduct | app/base-operator/controllers/product_controller.go:61-103 | whatever users do and however calls end, the code follows the protocol and what is synced stays guarded; without an error a deleted object is cleaned up and released, any other is synced; undisturbed, it handles what is stored without an error |
| Reconcilers.World.ReconcileRuntime | app/runtime-operator/controllers/projectpipelineruntime_controller.go:47-110 | the same for the runtime reconcilers, as long as reads never go back; a runtime that does not validate is not run, a missing valid project is no error, and without an error the status of a run was stored too |
| Reconcilers.World.Guard | app/runtime-operator/controllers/deploymentruntime_controller.go:114-119 | the object read goes on with its finalizer stored or known, or not at all |
| Reconcilers.World.ValidateAndRun | app/runtime-operator/controllers/deploymentruntime_controller.go:121-146 | no error after a run means that the run and its status write succeeded; a runtime that does not validate is reported but not run, which is an error unless it has no valid project |
| Conditions.ClusterStatus.SetConditions | api/kubernetes/v1alpha1/cluster_functions.go:48-79 | the in-place loops and a correct sort leave a sorted permutation of the merged list |
| Conditions.ClusterStatus.GetConditions | api/kubernetes/v1alpha1/cluster_functions.go:89-99 | the conditions of the given types, in order |
| ConditionMeanings.TypesSelected | api/kubernetes/v1alpha1/cluster_functions.go:89-99 | the answer is the selection of those types: in order, as often as they come |
| Conditions.ClusterStatus.SetStatus | app/cluster-operator/controllers/cluster_controller.go:359-384 | the guard on the number of conditions found always holds, so a success records the time of its condition |
| ConditionMeanings.StatusFields | app/cluster-operator/controllers/cluster_controller.go:359-384 | the list then holds one condition of the type, False with the error's text after an error and True without a text otherwise, at the time of the call; other types are as before |
| Conditions.OneOfItsType | app/cluster-operator/controllers/cluster_controller.go:376-381 | after a merge the reported condition is the only one of its type, whatever the list held |
| ConditionRuns.MergeByType | api/kubernetes/v1alpha1/global.go:47-78 | a merge acts on each type by itself and leaves other types alone, whatever sort is used |
| ConditionMeanings.RefreshedFields | api/kubernetes/v1alpha1/global.go:55-71 | what is stored for a report has its fields and the time of the merge, and the generation of the first stored condition of its type if that says the same |
| ConditionMeanings.MergedExactly | api/kubernetes/v1alpha1/global.go:47-87 | iff: a condition is in the merged list when its type was not evaluated and it was there, or it is what a report stores; and the list has one entry for each of these |
| ConditionMeanings.ListInOrder | api/kubernetes/v1alpha1/global.go:72-76 | no condition comes before an earlier one in Go's order of type, message and time |
| ConditionRuns.FilterThenReplace | api/kubernetes/v1alpha1/global.go:55-71 | the stored condition is the reported one at the time of the merge, up to its observed generation |
| ConditionRuns.MergeKeepsShape | api/kubernetes/v1alpha1/global.go:47-78 | a merge keeps one condition per type |
| ConditionRuns.Canonical | api/kubernetes/v1alpha1/global.go:72-76 | two sorted lists with the same conditions, one per type, are equal, so the sort need not be stable |
| ConditionRuns.MergesCommute | api/kubernetes/v1alpha1/global.go:47-87 | merges of disjoint types give the same list in either order |
| ConditionRuns.InterleavingIrrelevant | api/kubernetes/v1alpha1/cluster_functions.go:48-79 | runs that merge the same reports of each type in the same order end in the same list, however they interleave |

## Left out

- Queue shutdown, panicking handlers, real delays and the stop channel; a worker loop that
  ends on a missing key is restarted after a second, but `KeyNeverMissing` shows it never ends.
- The wrong-type branch of `GetByKey`: the store is typed in the model.
- The library's sorting algorithm: any correct sort is allowed, and `SortByKey` stands for it.
- NautesQueue.ClientGoWorkQueue.ProcessNextItem: runs without interruption, because
  interleavings are the step machine's; the quit branch goes with shutdown.
- Conditions.ClusterStatus.SetStatus: models `setStatus`; the entry point status beside it makes the same merge with another type.
- Reconcilers.World.ReconcileRuntime: models both runtime reconcilers; what the reconcilers write into the status is modelled by the condition merge and otherwise left out.
- Errors of API listings, of loading the configuration and of the hook config map other than malformed metadata; error texts except the product warnings.
- Races between two concurrent admissions, updates of environments, and changes of clusters.
- The names and patterns enforced by resource definitions, and the JSON form of objects.
- `ProjectPipelineRuntime.Compare`, the dependency listers for clusters and code repositories, account names and
  deletion checks of other resources: they would add only easy members.
- `cluster_webhook.go`, `coderepo_webhook.go`, the vault proxy, generated code, command wiring, Argo, Vault and Kubernetes clients.
