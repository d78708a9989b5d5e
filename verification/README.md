# Verified model of the LLMBatchGateway operator

This project models the control logic of the operator that reconciles
`LLMBatchGateway` resources and proves what the operator promises about it.
`dafny verify dfyconfig.toml` checks everything.

| file | what it models |
|---|---|
| Names, Wrappers, Ordering | the `namespace/name` encoding, option types, string order and deduplication |
| Cluster | the API server as far as it is used: objects with owner references, apply, list, delete, ReferenceGrants, installed kinds |
| Workloads | the apply loop and the orphan sweep of a pass, with an oracle for failing calls |
| Secrets | resolution of the credentials Secret, its managed copy, the watch filter and the two watch maps |
| Spec, AsyncQueues, Reports, Validation, Dispatch | the spec, the dispatcher and publisher values, `validateSpec` with the error and text it reports, and their agreement |
| MergePatch, Readiness, Status, StatusPatching, StatusRuns | RFC 7396 merge patches, rollout arithmetic, conditions, the guarded status patch, and runs of many reconcilers |
| Operator, PassEffects, OperatorRuns, SpecRuns | the whole reconcile pass, its effect on the two charts and on the fields of objects and status, runs of passes of many gateways among edits by others, and runs in which the spec belongs to the generation |
| TlsProfile | conversion of a cluster TLS profile into cipher suite names |
| ImageRef | splitting image references |

Code that works step by step (the reconcile pass, the sweep, validation, queue
derivation, the status writers, the cipher walk) is written as methods over
mutable state, each proved against a specification function or a declarative
predicate; the theorems are lemmas about those. Lemmas whose names end in `OnFields`,
and those of PassEffects, say the same of the fields of objects, grants, specs and
statuses alone, without those functions.

How the outside world enters:

* Calls that can fail take a fault flag or read it from an oracle (`Faults`,
  `SecretFaults`, `Env`), so every theorem holds for every pattern of failures
  unless it says otherwise. A delete can also find the object already gone.
* Charts are an arbitrary function from the spec and the local secret name to a list of
  objects, in any order (`internal/controller/helm.go:52-95`).
* An apply on an object that has another controller reference fails, because the
  API server admits one controller. Fields written by other managers are not modelled.
* Map iteration is an arbitrary choice of the next key. Where its order can show, in the loop
  over the model gateways, it is a parameter of the pass (`Env.order`).
* Workload lists come in any order (`internal/controller/llmbatchgateway_controller.go:399-402`).
* Queue lists of the spec are passed both as values and as the array that holds
  them, so that handing out the configured list and writing into a fresh one differ.
* The TLS library is a per-name lookup, a name per code and a list of suites.
* Integer fields are only compared, and the generation only grows by one, so no width is modelled.

## Findings

* **Watch gap.** A change of a gateway's own managed copy that changes the outcome of
  its resolution never enqueues that gateway, even when the copy is watched because it
  is the source of another gateway: the filter lets the event pass, and only the other
  gateway is enqueued. `Secrets.SecretWatchCompleteIff` shows that the own copy is the
  only miss, `Secrets.OwnCopyChangeIsMissed` gives the input.
* **Reports that follow the map order.** A failed validation names the first incomplete model
  gateway it meets in a Go map (`internal/controller/llmbatchgateway_controller.go:743-750`) and
  stores that text in five conditions. With two incomplete entries a pass can therefore write a
  further version, which starts the next pass, as often as the order changes
  (`OperatorRuns.UnsteadyNeedNotSettle`; `OperatorRuns.TwoEmptyGateways` gives the input).
  `OperatorRuns.ValidationFailureIsQuietIff`: the failure is quiet for every order iff an earlier
  check fails or at most one entry is incomplete.
* **List order of workloads.** Two workloads of one component that report different counts make
  the status follow the order of the list, so a successful pass need not be quiet either
  (`OperatorRuns.ReorderedListWritesAgain`); `Readiness.OrderNeverShowsIff` says exactly when the order shows.
* **Late ReferenceGrant kind.** The grant watch is registered only if the kind was installed when
  the operator started. A refused reference is then not attended to when the kind is installed and
  a grant created later: `Secrets.GrantWatchCompleteIff`, with the input in `Secrets.LateGrantIsMissed`.
* **Failed read of the copy.** A read error of the copy counts as an absent copy
  (`internal/controller/secret_sync.go:62`). The recorded source can then change;
  `Secrets.RecordedSourceChangesIff` says exactly when, `Secrets.FailedReadLosesSource` gives the input.
  The run theorems assume accurate reads of the copy.
* **Two workloads with one component label.** The last one listed decides, StatefulSets
  after Deployments, so a rolled-out one can be hidden (`Readiness.LaterWorkloadHides`).
  Ready being True always means that all components are rolled out; the converse fails
  exactly when all are rolled out and the last workload of one of them does not serve
  (`Readiness.AvailableIffRolledOut`, `StatusPatching.ReadyIsExact`).
* **Empty `redis: {}`.** `docs/async-default-migration.md:252` says it makes the
  dispatcher consume the single queue `request-sortedset`. The code derives one queue per published
  queue instead (`internal/controller/helm_async.go:309-321`), and the model follows the code.
  `Dispatch.EmptyRedisPollsDefaultIff`: the document is right iff that is the one queue published;
  `Dispatch.EmptyRedisPollsPublished` gives an accepted input where it is wrong.

## Model

| member | source | states |
|---|---|---|
| `Names.EncodeInjective` | internal/controller/secret_sync.go:63 | for slash-free namespaces the annotation and filter key determine both namespace and name |
| `Names.EncodeCollides` | internal/controller/secret_watch_filter.go:21 | without that restriction two references can share a key |
| `Cluster.IsControllerOwnedBy` | internal/controller/llmbatchgateway_controller.go:597-608 | the loop finds a controller reference of the gateway iff one exists |
| `Cluster.StampOwnership` | internal/controller/llmbatchgateway_controller.go:249-253 | an applied object is controlled by the gateway, gains no other controller, and a second apply absorbs the first |
| `Workloads.ApplyAll` | internal/controller/llmbatchgateway_controller.go:245-262 | the loop applies in order, skips kinds that are not installed and stops at the first failure |
| `Workloads.ApplyIsOverlay` | internal/controller/llmbatchgateway_controller.go:246-262 | a finished loop leaves exactly the old store overlaid with the rendered objects, repeated keys included, and met no foreign controller |
| `Workloads.ApplySucceedsIff` | internal/controller/llmbatchgateway_controller.go:246-262 | without faults it finishes iff no rendered object has a foreign controller |
| `Workloads.ApplyFrame` | internal/controller/llmbatchgateway_controller.go:246-262 | even an aborted loop removes nothing, writes rendered keys only and changes no object or controller of others |
| `Workloads.SweepKind` | internal/controller/llmbatchgateway_controller.go:352-392 | one kind of the sweep removes exactly the deletable orphans of that kind and reports exactly its failures |
| `Workloads.SweepKinds` | internal/controller/llmbatchgateway_controller.go:351-395 | the loop over kinds removes and reports exactly what belongs to the listed kinds |
| `Workloads.DeleteOrphanedResources` | internal/controller/llmbatchgateway_controller.go:334-396 | the store loses exactly the orphans whose kind was listed and whose delete did not fail; the error list is exactly the failed lists and deletes |
| `Workloads.ReconcileWorkloads` | internal/controller/llmbatchgateway_controller.go:245-266 | nothing is swept after a failed apply; success means every apply and the whole sweep succeeded |
| `Workloads.Convergence` | internal/controller/llmbatchgateway_controller.go:246-266 | after a successful pass the controlled objects of installed managed kinds in the namespace are exactly the rendered ones with the rendered fields, all else unchanged |
| `Workloads.Confluence` | internal/controller/helm.go:70 | the store after success does not depend on the order of the rendered objects |
| `Workloads.Idempotence` | internal/controller/llmbatchgateway_controller.go:246-266 | a second undisturbed pass in any order succeeds and changes nothing |
| `Workloads.UndisturbedPassSucceedsIff` | internal/controller/llmbatchgateway_controller.go:246-266 | an undisturbed pass succeeds iff no rendered object has a foreign controller |
| `Workloads.SweepProgress` | internal/controller/llmbatchgateway_controller.go:351-395 | orphans left are exactly those not listed or not deleted, the count falls by the number deleted, a nil error leaves none |
| `Workloads.SweepsTerminate` | internal/controller/llmbatchgateway_controller.go:351-395 | as many sweeps as orphans suffice if each sweep deletes at least one |
| `Workloads.PassProgress` | internal/controller/llmbatchgateway_controller.go:246-266 | a whole pass makes no orphan, and lowers their count by the number deleted, by none after a failed apply |
| `Workloads.PassesTerminate` | internal/controller/llmbatchgateway_controller.go:246-266 | as many whole passes as orphans leave none, whatever order each renders in, if each deletes at least one |
| `Workloads.PassSafety` | internal/controller/llmbatchgateway_controller.go:246-266 | a pass, successful or not, deletes only own unrendered objects after every rendered one is in place, and leaves objects of other controllers alone |
| `Workloads.PassDeletesExactly` | internal/controller/llmbatchgateway_controller.go:352-392 | an object is deleted iff every apply went through, it is in the gateway's namespace, of an installed managed kind, has a controller reference of the gateway on uid, kind, version and flag, no manifest names it, and neither its list nor its delete failed |
| `Workloads.UncontrolledIsSpared` | internal/controller/llmbatchgateway_controller.go:370-374 | an object without a controller that no manifest names is as it was |
| `Workloads.PassSucceedsIff` | internal/controller/llmbatchgateway_controller.go:246-266 | a pass succeeds iff no apply fails, no rendered object has a controller reference of somebody else, every managed kind can be listed and every orphan deleted |
| `Workloads.PassDeploysManifests` | internal/controller/llmbatchgateway_controller.go:246-266 | after success each manifest of an installed kind has its object with the fields of a manifest of that name, and each controlled managed object is named by a manifest |
| `Secrets.ReferenceGrantPermits` | internal/controller/secret_sync.go:129-157 | true iff this one grant has a matching From and a matching To |
| `Secrets.ResolvedCopyOnFields` | internal/controller/secret_sync.go:73-89 | a successful cross-namespace resolution found one grant with a From of the gateway's group, kind and namespace and a To of the Secret, and left the named copy with type, data and annotation of the source |
| `Secrets.ResolutionSucceedsIff` | internal/controller/secret_sync.go:43-89 | exactly when a cross-namespace resolution succeeds, on the entries of the grants and the fields of the copy |
| `Secrets.RefusedIff` | internal/controller/secret_sync.go:101-125 | a resolution is refused for want of a grant iff no readable copy stops it, the list did not fail, and no single grant has both entries |
| `Secrets.UngrantedIsRefused` | internal/controller/secret_sync.go:129-157 | if no From names the gateway's namespace, or no To the Secret, nothing changes and the error is the refusal or an earlier one |
| `Secrets.UncopiedOnFields` | internal/controller/secret_sync.go:43-70 | a local reference is its name; a readable copy with another annotation stops the resolution |
| `Secrets.HalvesOfTwoGrantsDoNotPermit` | internal/controller/secret_sync.go:116-120 | in any world where no single grant of the source namespace has both halves, a cross-namespace resolution fails and writes nothing |
| `Secrets.CheckReferenceGrant` | internal/controller/secret_sync.go:101-125 | no error iff the list succeeded and one grant in the source namespace permits; a missing CRD is a refusal, another list failure is not |
| `Secrets.SyncSecretCopy` | internal/controller/secret_sync.go:162-194 | writes the copy with the source annotation, type and data, owned by the gateway, or nothing |
| `Secrets.ResolveSecret` | internal/controller/secret_sync.go:43-89 | result and store of a resolution for every world and failure pattern |
| `Secrets.LicensedCopying` | internal/controller/secret_sync.go:43-89 | the copy is written iff a cross-namespace resolution succeeds; then one grant licenses it, type and data are those of the source read, and nothing else changes; a readable copy of another source stops the resolution, a local reference resolves to its name |
| `Secrets.RecordedSourceChangesIff` | internal/controller/secret_sync.go:58-70 | an existing copy changes its recorded source iff it records another one, its read failed, and every later call succeeds |
| `Secrets.FailedReadLosesSource` | internal/controller/secret_sync.go:62 | one failed read is enough to lose the recorded source |
| `Secrets.SecretWatchFilter.Add` | internal/controller/secret_watch_filter.go:18-22 | adds the key of the Secret |
| `Secrets.SecretWatchFilter.Remove` | internal/controller/secret_watch_filter.go:24-28 | removes the key of the Secret |
| `Secrets.SecretWatchFilter.Matches` | internal/controller/secret_watch_filter.go:30-35 | tells whether the key is watched |
| `Secrets.FilterIsExact` | internal/controller/secret_watch_filter.go:18-35 | after any sequence of adds and removes a Secret matches iff its last operation was an add |
| `Secrets.OnSecretEvent` | internal/controller/llmbatchgateway_controller.go:496-521 | enqueues exactly the gateways whose reference names a watched Secret, none if the list fails |
| `Secrets.OnReferenceGrantEvent` | internal/controller/llmbatchgateway_controller.go:525-550 | enqueues exactly the gateways whose reference names the grant's namespace |
| `Secrets.RequestsOnFields` | internal/controller/llmbatchgateway_controller.go:507-518 | both maps name a gateway by its own namespace and name, and compare the reference's namespace, for Secrets also its name |
| `Secrets.GrantWatchComplete` | internal/controller/llmbatchgateway_controller.go:525-550 | any change of grants in a namespace alters the resolution only of gateways that the map function returns |
| `Secrets.GrantWatchCompleteIff` | internal/controller/llmbatchgateway_controller.go:578-580 | an affected gateway is enqueued iff ReferenceGrants were installed when the operator started |
| `Secrets.LateGrantIsMissed` | internal/controller/llmbatchgateway_controller.go:578-580 | a refused reference that a grant of a kind installed later would license is not enqueued |
| `Secrets.OnlySourceOrCopyMatters` | internal/controller/secret_sync.go:53-88 | a changed Secret alters a resolution only as its source or as its copy, never both |
| `Secrets.SecretWatchCompleteIff` | internal/controller/llmbatchgateway_controller.go:496-521 | an affected gateway with a tracked source is enqueued iff the changed Secret is not its own copy |
| `Secrets.OwnCopyChangeIsMissed` | internal/controller/llmbatchgateway_controller.go:507-518 | a tracked Secret that is a gateway's own copy changes that gateway's resolution, and only the other gateway that reads it is enqueued |
| `Ordering.SortedKeys` | internal/controller/helm_async.go:263-265 | keys taken in any order give the one ascending list |
| `Ordering.LessIsLexicographic` | internal/controller/helm_async.go:263-265 | the order of model names is lexicographic |
| `Ordering.AscendingUnique` | internal/controller/helm_async.go:263-265 | the ascending list of a key set is unique, so map order never shows |
| `Ordering.FirstOccurrencesCanonical` | internal/controller/helm_async.go:338-346 | deduplication keeps the same elements, each once, by first occurrence |
| `AsyncQueues.SortedModelGateways` | internal/controller/helm_async.go:267-275 | gateways in ascending order of model name |
| `AsyncQueues.DefaultAsyncQueues` | internal/controller/helm_async.go:335-348 | the seen-map loop yields the canonical deduplicated queue names in a fresh array |
| `AsyncQueues.DerivedNamesArePublished` | internal/controller/helm_async.go:332-348 | derived queues are exactly the published ones, each once |
| `AsyncQueues.RedisQueues` | internal/controller/helm_async.go:309-321 | hands out the configured array, or a fresh one with the top-level settings; the spec's array is unmodified |
| `AsyncQueues.SqlQueues` | internal/controller/helm_async.go:325-330 | hands out the configured array or a fresh derived one |
| `AsyncQueues.AsyncQueueValues` | internal/controller/helm_async.go:242-260 | one value map per queue, in order |
| `AsyncQueues.QueueValuesRoundTrip` | internal/controller/helm_async.go:245-257 | every queue setting can be read back from its values, the URL being its own or else the shared one |
| `AsyncQueues.PoolValuesRoundTrip` | internal/controller/helm_async.go:132-146 | every worker pool setting can be read back from its values |
| `AsyncQueues.SqlResultQueueName` | internal/controller/helm_async.go:290-296 | the result queue of the least model name, empty without models |
| `AsyncQueues.SpecToAsyncHelmValues` | internal/controller/helm_async.go:75-147 | transport, queues, fallback result queue, worker pools and Prometheus URL of the dispatcher |
| `Spec.ResultQueueClashNeedsExplicitName` | internal/controller/helm_async.go:22-24 | derived result queues of distinct pools differ |
| `Spec.NamesOnFields` | internal/controller/helm_async.go:22-28 | explicit queue names win over the derived ones, which are prefix and pool |
| `Reports.MessageIsSteadyIff` | internal/controller/llmbatchgateway_controller.go:743-750 | the recorded text is the same for every map order iff an earlier check fails or at most one model gateway is incomplete |
| `Reports.TwoMessages` | internal/controller/llmbatchgateway_controller.go:743-750 | otherwise two orders record different texts |
| `Validation.ValidateSpec` | internal/controller/llmbatchgateway_controller.go:718-758 | accepts iff the declarative predicate holds, for every map iteration order; an error names a real violation and is the first in the order of the checks |
| `Validation.ViolationsAreReal` | internal/controller/llmbatchgateway_controller.go:718-889 | every named violation makes a spec inadmissible |
| `Validation.InadmissibleIsViolated` | internal/controller/llmbatchgateway_controller.go:718-889 | every inadmissible spec shows one of the named violations |
| `Validation.AdmissibleOnFields` | internal/controller/llmbatchgateway_controller.go:718-889 | what is accepted, as one condition on the fields of the spec |
| `Validation.ValidateModelGateways` | internal/controller/llmbatchgateway_controller.go:743-750 | none iff every gateway has a pool and a complete or absent queue pair |
| `Validation.ValidateAsyncRedisConfig` | internal/controller/llmbatchgateway_controller.go:764-781 | none iff coverage, URLs and gates are fine |
| `Validation.ValidateAsyncSQLConfig` | internal/controller/llmbatchgateway_controller.go:784-821 | none iff pools and result queues are distinct and coverage, URLs and gates are fine |
| `Validation.ValidatePools` | internal/controller/llmbatchgateway_controller.go:790-798 | none iff no two models share a pool |
| `Validation.ValidateResultQueues` | internal/controller/llmbatchgateway_controller.go:800-808 | none iff no two models share a result queue |
| `Validation.ScanDistinct` | internal/controller/llmbatchgateway_controller.go:791-808 | the map-based scan finds a clash iff labels repeat, and names the two models |
| `Validation.ValidateAsyncQueueCoverage` | internal/controller/llmbatchgateway_controller.go:826-855 | none iff the listed queues match the published ones one for one; missing queues are reported before extra ones |
| `Validation.ValidateAsyncQueueGatewayURL` | internal/controller/llmbatchgateway_controller.go:860-870 | none iff there is a shared URL or every effective queue has its own |
| `Validation.ValidateAsyncPrometheusGates` | internal/controller/llmbatchgateway_controller.go:874-889 | none iff there is a Prometheus URL or no effective queue or pool needs one |
| `Validation.EffectiveQueueFacts` | internal/controller/helm_async.go:309-330 | checks on the derived queues mean conditions on the config alone |
| `Dispatch.AsyncDispatchValues` | internal/controller/helm_batch.go:220-240 | transport and model map of the publisher, for every map order |
| `Dispatch.PublishedQueuesOfSpec` | internal/controller/helm_batch.go:352-359 | the rendered model map publishes to the request queues of the spec |
| `Dispatch.QueuesAgreeIff` | internal/controller/llmbatchgateway_controller.go:826-855 | rendered queues agree without duplicates iff a configured list covers the published queues |
| `Dispatch.TransportsAgreeIff` | internal/controller/helm_batch.go:225-232 | both renderers choose the same transport iff not both are configured |
| `Dispatch.QueueURLsIff` | internal/controller/helm_async.go:247-251 | every rendered queue has a URL iff the validated condition holds |
| `Dispatch.PrometheusURLIff` | internal/controller/llmbatchgateway_controller.go:874-889 | rendered Prometheus gates come with a rendered URL iff the validated condition holds |
| `Dispatch.EmptyRedisPollsDefaultIff` | internal/controller/helm_async.go:309-321 | with Redis and no list the dispatcher polls only `request-sortedset` iff that is the one published queue |
| `Dispatch.EmptyRedisPollsPublished` | internal/controller/helm_async.go:309-321 | an accepted spec with an empty Redis section that polls the published queue instead |
| `Dispatch.Agreement` | internal/controller/llmbatchgateway_controller.go:823-870 | for every accepted spec publisher and dispatcher agree on transport and queues, every queue has a URL and every Prometheus gate a Prometheus URL |
| `Dispatch.AgreementOnFields` | internal/controller/llmbatchgateway_controller.go:826-855 | for every accepted spec both sides name the same transport, and the dispatcher's queue names are, each once, the explicit or derived queues of the models |
| `Dispatch.UrlsOnFields` | internal/controller/llmbatchgateway_controller.go:860-889 | every rendered queue of an accepted spec has a URL, and a rendered Prometheus gate comes with the configured URL |
| `Dispatch.QueueSettingsOnFields` | internal/controller/helm_async.go:242-260 | each rendered queue carries the settings of its configured queue, or of the top-level Redis section |
| `Dispatch.ModelsAndPoolsOnFields` | internal/controller/helm_batch.go:232-238 | the rendered model map and worker pools carry the fields of the spec |
| `Dispatch.SqlIsolation` | internal/controller/llmbatchgateway_controller.go:787-808 | accepted SQL specs share no pool; explicit result queues differ and never equal a derived one; the fallback is the explicit or derived queue of the least model |
| `Dispatch.ResultQueueScanRejectsExplicitOnly` | internal/controller/llmbatchgateway_controller.go:800-808 | with distinct pools a rejected pair has an explicit name |
| `Dispatch.RenderQueues` | internal/controller/helm_async.go:39-147 | validating and rendering yields agreeing values or a real violation |
| `MergePatch.MergeFrame` | internal/controller/statuspatch.go:54-68 | members outside a merge patch are kept, null removes, objects merge, others replace |
| `MergePatch.MergeIdempotent` | internal/controller/statuspatch.go:54-68 | applying a merge patch document twice is applying it once |
| `Readiness.ReadinessIsAllOrNothing` | internal/controller/llmbatchgateway_controller.go:642-685 | reported ready replicas are desired if the rollout is finished, on its counts, generations and revisions, and 0 otherwise |
| `Readiness.StandsOnFields` | internal/controller/llmbatchgateway_controller.go:406-416 | a workload stands for a component iff it has the gateway's uid among its owners and the component's label value |
| `Readiness.ObserveComponents` | internal/controller/llmbatchgateway_controller.go:406-447 | each component reports its last owned workload, StatefulSets after Deployments |
| `Readiness.AvailableIffRolledOut` | internal/controller/llmbatchgateway_controller.go:687-702 | an available component is rolled out; the converse holds iff it is not both rolled out and hidden by its last listed workload |
| `Readiness.ServesOnFields` | internal/controller/llmbatchgateway_controller.go:642-685 | a workload counts as rolled out with replicas iff its counts, generations and revisions say so |
| `Readiness.OneWorkloadHidesNothing` | internal/controller/llmbatchgateway_controller.go:687-702 | with one workload per label available and rolled out are the same |
| `Readiness.LaterWorkloadHides` | internal/controller/llmbatchgateway_controller.go:407-423 | an unfinished later workload can hide a finished one |
| `Readiness.OrderNeverShowsIff` | internal/controller/llmbatchgateway_controller.go:399-447 | a component reports the same for every list order iff its candidates, StatefulSets before Deployments, report the same |
| `Readiness.OneWorkloadHasOneStatus` | internal/controller/llmbatchgateway_controller.go:399-447 | so it is with one workload per label |
| `Status.SetConditionEffect` | internal/controller/llmbatchgateway_controller.go:694-700 | setting a condition changes its own type only and keeps one entry per type |
| `Status.SetAllEffect` | internal/controller/llmbatchgateway_controller.go:288-296 | a failure makes exactly the named types False with its reason |
| `Status.ObservedConditionsEffect` | internal/controller/llmbatchgateway_controller.go:452-473 | the five maintained types say what was observed, other types are kept |
| `Status.ConditionsSettle` | internal/controller/llmbatchgateway_controller.go:452-473 | recording the same failure or observation again changes no condition |
| `Status.StatusRoundTrip` | api/v1alpha1/llmbatchgateway_types.go:671-696 | the JSON form of a status loses nothing |
| `StatusPatching.StatusPatch.Add` | internal/controller/statuspatch.go:45-48 | sets one field of the patch |
| `StatusPatching.StatusPatch.Apply` | internal/controller/statuspatch.go:54-68 | lands only on the named version, otherwise conflicts and changes nothing |
| `StatusPatching.PatchKeepsOtherFields` | internal/controller/statuspatch.go:54-68 | status fields that were not added keep their value |
| `StatusPatching.FailurePatchFrame` | internal/controller/llmbatchgateway_controller.go:299-302 | a landed failure replaces conditions and observedGeneration and keeps componentStatus |
| `StatusPatching.ObservedPatchFrame` | internal/controller/llmbatchgateway_controller.go:484-488 | a landed observation merges componentStatus: seen components win, unseen keep their stored entry |
| `StatusPatching.PatchIsIdempotent` | internal/controller/statuspatch.go:54-68 | any patch sent again to the status it produced changes nothing |
| `StatusPatching.LandedWritesSettle` | internal/controller/llmbatchgateway_controller.go:286-305 | a failure or an observation written again from what it left makes no further version |
| `StatusPatching.RecordFailure` | internal/controller/llmbatchgateway_controller.go:286-306 | the stored version and outcome of recording a failure from a possibly stale copy |
| `StatusPatching.SetObservedConditions` | internal/controller/llmbatchgateway_controller.go:452-482 | sets the five conditions and emits an event iff Ready changes |
| `StatusPatching.UpdateStatus` | internal/controller/llmbatchgateway_controller.go:398-489 | the stored version, outcome and event of an observation; failed lists write nothing |
| `StatusPatching.ReadyIsExact` | internal/controller/llmbatchgateway_controller.go:449-473 | Ready True means all four components are rolled out with replicas; the converse fails iff all are and one is hidden |
| `StatusPatching.ReadyIffRolledOut` | internal/controller/llmbatchgateway_controller.go:449-473 | with one workload per label Ready is True iff all four components are rolled out |
| `StatusPatching.LandedReadyIsExact` | internal/controller/llmbatchgateway_controller.go:484-488 | the same of the stored status once the patch landed |
| `StatusPatching.LandedConditionsAreExact` | internal/controller/llmbatchgateway_controller.go:687-702 | a landed observation stores for each component True and Available iff it is rolled out and not hidden, False and Unavailable otherwise; Ready is True iff all four are; other types are kept |
| `StatusPatching.LandedFailureIsExact` | internal/controller/llmbatchgateway_controller.go:286-305 | a landed failure stores the named conditions as False with its reason and message and keeps everything else |
| `StatusPatching.PatchLandsIff` | internal/controller/statuspatch.go:54-68 | a patch lands iff the call works and names the stored version, and otherwise leaves it |
| `StatusPatching.EventOnTransition` | internal/controller/llmbatchgateway_controller.go:459-482 | an event goes out iff Ready was missing or changes its status |
| `StatusRuns.SameVersionNumber` | internal/controller/statuspatch.go:14-17 | a matching resourceVersion means the copy is the stored object |
| `StatusRuns.LandedPatchIsExact` | internal/controller/statuspatch.go:36-68 | a landed patch was computed from the version it overwrites and loses no update |
| `StatusRuns.StepKeepsGood` | internal/controller/llmbatchgateway_controller.go:286-305 | every edit, stale read and write keeps the history invariants |
| `StatusRuns.RunsStayGood` | internal/controller/llmbatchgateway_controller.go:449-488 | over all interleavings observedGeneration stays at most generation and never decreases |
| `StatusRuns.LandedWritesInRuns` | internal/controller/statuspatch.go:50-53 | in every run a landed write observes the generation of the version it overwrites |
| `StatusRuns.RepeatedWriteIsQuiet` | internal/controller/statuspatch.go:54-68 | in every run a landed write repeated from a fresh read adds no version |
| `Operator.Reconcile` | internal/controller/llmbatchgateway_controller.go:176-273 | objects, filter, status and result of a whole pass for every world and failure pattern |
| `Operator.FailResolve` | internal/controller/llmbatchgateway_controller.go:199-219 | only permanent resolution errors are recorded, and they end the pass without an error |
| `Operator.UndisturbedOutcome` | internal/controller/llmbatchgateway_controller.go:176-273 | when a pass without faults is done, gives up or fails, as conditions on the spec, the cluster it finds and the charts |
| `PassEffects.ChartsAreDeployed` | internal/controller/llmbatchgateway_controller.go:229-266 | a reconciled pass rendered both charts; every manifest of either has its object, and every controlled managed object stems from one of them |
| `PassEffects.PassDeletesOnFields` | internal/controller/llmbatchgateway_controller.go:246-266 | a whole pass deletes only objects with a controller reference of the gateway, in its namespace, of managed kinds, that neither chart names |
| `PassEffects.PassSparesUncontrolled` | internal/controller/llmbatchgateway_controller.go:370-374 | an object that nobody controls and no chart names is not touched |
| `PassEffects.StaleOrFaultyPassFails` | internal/controller/statuspatch.go:54-68 | a pass whose status call fails or conflicts fails and leaves the stored version |
| `PassEffects.DoneOnCharts` | internal/controller/llmbatchgateway_controller.go:229-272 | a pass is done iff it reconciled, read both lists and its patch landed, and only if both charts rendered |
| `PassEffects.InvalidSpecIsRecorded` | internal/controller/llmbatchgateway_controller.go:183-190 | an invalid spec sets five conditions to False with ValidationFailed and changes no object |
| `PassEffects.FailedResolutionIsRecorded` | internal/controller/llmbatchgateway_controller.go:194-220 | a refusal sets Ready alone to False with its reason; another failed resolution is an error and writes nothing |
| `PassEffects.ResolvedSourceIsTracked` | internal/controller/llmbatchgateway_controller.go:222-227 | the filter gains the key of a resolved reference into another namespace and nothing else |
| `PassEffects.FailedRenderIsRecorded` | internal/controller/llmbatchgateway_controller.go:229-243 | a chart that does not render sets Ready to False with RenderFailed and is an error |
| `OperatorRuns.WorkloadsSpareSecrets` | internal/controller/llmbatchgateway_controller.go:90-103 | applying and sweeping leave every Secret as the resolution left it |
| `OperatorRuns.PassIsSafe` | internal/controller/llmbatchgateway_controller.go:246-266 | sweep safety of a whole pass |
| `OperatorRuns.RunsDeleteOnlyOrphans` | internal/controller/llmbatchgateway_controller.go:352-391 | after any run the next pass deletes only orphans that have a controller reference of its own gateway |
| `OperatorRuns.UncontrolledSurvives` | internal/controller/llmbatchgateway_controller.go:370-374 | an object that nobody controls and no chart names is unchanged by any sequence of passes |
| `OperatorRuns.OthersObjectsSurvive` | internal/controller/llmbatchgateway_controller.go:370-374 | objects of one gateway are unchanged by any sequence of passes of others |
| `OperatorRuns.SecretsSurvive` | internal/controller/llmbatchgateway_controller.go:88-103 | no pass of any gateway ever deletes a Secret |
| `OperatorRuns.RecordedSourceIsImmutable` | internal/controller/secret_sync.go:58-70 | over runs a copy keeps its recorded source, and a Secret whose annotation matches no reference is not changed |
| `OperatorRuns.ResolvedReferencesAgree` | internal/controller/secret_sync.go:196-206 | two cross-namespace resolutions of one gateway, however far apart, resolve the same reference |
| `OperatorRuns.ResolvedSourceStaysTracked` | internal/controller/llmbatchgateway_controller.go:224-227 | a resolved source stays in the filter for good |
| `OperatorRuns.ChangedSourceIsEnqueued` | internal/controller/llmbatchgateway_controller.go:491-561 | over runs a relevant Secret change enqueues the gateway |
| `OperatorRuns.PassConverges` | internal/controller/llmbatchgateway_controller.go:176-273 | convergence of the whole pass |
| `OperatorRuns.PassIsIdempotent` | internal/controller/llmbatchgateway_controller.go:176-273 | a second undisturbed whole pass reconciles again and changes no object, Secret copy included |
| `OperatorRuns.DonePassIsQuiet` | internal/controller/llmbatchgateway_controller.go:449-488 | after a successful pass another one, listing the workloads in any order, changes no object, no watched key and no version of the resource, if the candidates of each component report the same |
| `OperatorRuns.ReorderedListWritesAgain` | internal/controller/llmbatchgateway_controller.go:399-447 | if they do not, some order of the lists makes a further version |
| `OperatorRuns.SettledPassIsQuiet` | internal/controller/llmbatchgateway_controller.go:183-219 | a pass that gave up changed no object, and another one gives up alike and changes nothing; a failed validation only if its report cannot depend on the map order |
| `OperatorRuns.ValidationFailureIsQuietIff` | internal/controller/llmbatchgateway_controller.go:183-193 | a failed validation is quiet for every two map orders iff an earlier check fails or at most one model gateway is incomplete |
| `OperatorRuns.UnsteadyNeedNotSettle` | internal/controller/llmbatchgateway_controller.go:743-750 | otherwise any number of passes can each write a further version |
| `OperatorRuns.TwoEmptyGateways` | internal/controller/llmbatchgateway_controller.go:743-750 | two empty model gateways are such an input |
| `OperatorRuns.OperatorSettles` | internal/controller/llmbatchgateway_controller.go:552-553 | any number of passes after one that ended without an error leave everything as it left it, when neither map nor list order can show |
| `SpecRuns.StatusIsAccounted` | internal/controller/llmbatchgateway_controller.go:286-305 | over all interleavings the Ready condition of every stored version is what a pass wrote whose reconciler held exactly the generation that the status claims to observe, and whose write landed |
| `SpecRuns.ReadyIsTrueOfObservedSpec` | internal/controller/llmbatchgateway_controller.go:176-273 | in every run Ready names a failed validation iff the spec of the observed generation is inadmissible, and is True only if a pass that held that generation reconciled its spec and saw all components rolled out |
| `TlsProfile.BatchGatewayCipherSuiteNames` | internal/tls/profile.go:73-111 | the two-index walk recovers each cipher's own code and never takes the guard; for arbitrary lists it still accounts for every cipher |
| `TlsProfile.NextOfLists` | internal/tls/profile.go:91-103 | what the two library lists hold next after any number of ciphers |
| `TlsProfile.OrderPreservingPartition` | internal/tls/profile.go:87-110 | names and unsupported split the profile and follow its order |
| `TlsProfile.PartitionOnLibrary` | internal/tls/profile.go:78-110 | a cipher is emitted iff it has a code whose name is one of the library's suites, and reported otherwise |
| `TlsProfile.HasTls12CipherSuite` | internal/tls/profile.go:113-127 | true iff some emitted name is a suite usable with TLS 1.2 |
| `TlsProfile.ProfileValuesFromSpec` | internal/tls/profile.go:45-68 | accepted iff the minimum version is known and, below TLS 1.3, listed ciphers yield a TLS 1.2 suite; values and errors as reported |
| `TlsProfile.AcceptedProfileHasTls12Suite` | internal/tls/profile.go:45-63 | a profile is accepted iff its version is known and, below TLS 1.3, listed ciphers include one whose suite works with TLS 1.2 |
| `ImageRef.SplitImageIsExact` | internal/controller/helm.go:101-111 | for every string the split rejoins to the input with a clean tag, or returns it whole with "latest" |
| `ImageRef.SplitImageOnCharacters` | internal/controller/helm.go:101-111 | the same on the characters of the string |
| `ImageRef.SplitJoinStable` | internal/controller/helm.go:101-111 | splitting the rejoined result gives the same pair |

## Left out

- Chart loading, template rendering and YAML decoding: an arbitrary function stands for them.
- The field-by-field option copying of both renderers beyond queues, transports, gates, worker pools and model maps: each branch is independent and easy.
- Log lines, and the escapes that quoting adds to a name in an error text.
- Warning events other than the Ready transition: they have no effect on the state.
- lastTransitionTime, the sync period and timeouts: clocks are not modelled.
- Interference inside one pass: a pass runs against a store that only it changes, except that a delete may find the object gone; edits by others happen between passes.
- Names and labels in workload lists: the lists given to UpdateStatus are those that match the gateway's namespace and instance label.
- Setting a controller reference on a rendered object that already carries one: rendered objects carry no owner references.
- The in-memory copy after a status patch: it is not used again in a pass.
- Leader election, RBAC, registration of watches for owned kinds (that of the ReferenceGrant watch is modelled), and `Resolve` and `SetupWatcher` of the TLS package: wiring and I/O.
- Deployment of the batch processor: its queue naming, `llm-d-async:requests:` followed by the pool unless the entry names a queue, is taken from api/v1alpha1/llmdasync_types.go:110-112.
