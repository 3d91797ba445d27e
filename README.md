# grafana-agent-operator, modelled in Dafny

The operator watches Prometheus-operator `ServiceMonitor` resources. For
each one it produces one Grafana Agent instance config per endpoint and
pushes it to the agent's config API. A deleted monitor has its configs
removed again.

This project models:

- **The translation of a monitor into instance configs.** This is the live
  writer in `config/` and the older copy in `operator/service_monitor_converter.go`.
  Both are specified once (`Translation.Translate`, with a `Variant`
  parameter). The imperative code is modelled as methods proved against that
  specification.
- **The config manager.** This covers the route of a config on the agent,
  with Go's `url.PathEscape`, and the list, update and delete calls with
  their error messages. The agent and the HTTP transport are a function
  parameter `net: Request -> Exchange`.
- **The controller.** This covers the event handlers and the work queue,
  the reconcile step with its sync and delete paths, and start-up. At
  start-up the controller lists the agent's configs and deletes those no
  monitor accounts for. The controller is a `class` whose fields the
  handlers and workers update. Its behaviour is specified by a pure state
  transition (`Operator.State`, `Operator.ReconcileStep`), and the lemmas
  in `OperatorLemmas` are stated over that transition.

Layout (one module per source file, plus lemma modules):

| file | module | source |
|---|---|---|
| wrappers.dfy | Wrappers | Option, Outcome (a Go `error` that may be nil), Result |
| text.dfy | Text | `strconv.Itoa`, `strings.Join`/`HasPrefix`/`TrimSuffix`, `sort.Strings` |
| monitoring.dfy | Monitoring | the ServiceMonitor input types and the Prometheus/agent output types |
| writer.dfy | Writer | config/writer.go |
| service_monitor.dfy | Translation, ServiceMonitorWriter | config/service_monitor.go |
| converter.dfy | Converter | operator/service_monitor_converter.go |
| translation_lemmas.dfy | TranslationLemmas | properties of the translation |
| config_manager.dfy | ConfigManager | operator/config_manager.go |
| controller.dfy | Operator | operator/controller.go, operator/servicemonitor_worker.go |
| controller_lemmas.dfy | OperatorLemmas | properties of the controller |

Where the prose description of the system and the code disagree, the model
follows the code:

- A sync does not cancel a pending delete of the same key. The work queue
  only merges equal items, and a sync item and a delete item differ.
- The tombstone of a deleted monitor is never removed after its delete is
  reconciled. It is only replaced or dropped by a later add or delete event
  for the same key.

## Model

| member | source | states |
|---|---|---|
| Writer.NewWriter | config/writer.go:24-26 | the writer keeps the remote-write destination it was given |
| Writer.SafeLabelName | config/writer.go:81-83 | each character outside `[A-Za-z0-9_]` becomes `_`, one for one, and the length is kept |
| Writer.SafeLabelNameIsLabelName | config/writer.go:81-83 | the result is always a valid label name |
| Writer.SafeLabelNameFixesLabelNames | config/writer.go:81-83 | a name is left unchanged exactly when it is already a label name, so sanitising is idempotent |
| Writer.SafeLabelNameAgrees | config/writer.go:81-83 | the sanitised form equals any string holding `_` exactly where the name has a character outside the alphabet |
| Writer.SafeLabelNameExample | config/service_monitor_converter_test.go:382-445 | `c/d/e` becomes `c_d_e` and `foo.bar/app` becomes `foo_bar_app` |
| Writer.EffectiveNamespaceSelector | config/writer.go:54-63 | the list is empty (all namespaces) exactly when Any is set; otherwise it is the listed names, or the monitor's own namespace when none are listed |
| Writer.SdConfig | config/writer.go:65-79 | endpoint-role discovery over exactly the given namespaces |
| Writer.MakeRelabelConfigs | config/writer.go:28-52 | one rule per user rule, in order, each field copied and the regex set exactly when a non-empty one is given |
| Text.NatToString | config/service_monitor.go:38 | a non-empty string of decimal digits, one digit exactly below ten |
| Text.ParseNatToString | config/service_monitor.go:38 | reading the decimal rendering back gives the number |
| Text.ItoaInjective | config/service_monitor.go:38 | distinct endpoint indices render to distinct strings |
| Text.TrimSuffix | operator/config_manager.go:33 | a present suffix is removed once, and the input is returned unchanged otherwise; the result followed by the removed suffix rebuilds the input |
| Text.BelowAsymmetric | config/service_monitor.go:107 | byte order on strings is asymmetric |
| Text.BelowTransitive | config/service_monitor.go:107 | byte order on strings is transitive |
| Text.BelowTotal | config/service_monitor.go:107 | any two distinct strings are ordered |
| Text.InsertKeepsSorted | config/service_monitor.go:107 | inserting into a sorted list keeps it sorted |
| Text.Sort | config/service_monitor.go:107 | the result is sorted and a permutation of the input |
| Text.SortedUnique | config/service_monitor.go:107 | two sorted lists with the same elements are equal |
| Text.SortDependsOnElements | config/service_monitor.go:104-107 | the sorted keys do not depend on the map's iteration order |
| Translation.SortedKeysSpec | config/service_monitor.go:103-107 | the collected keys are exactly the map's keys, each once, strictly ascending |
| Translation.TranslateByElements | config/service_monitor.go:19-27 | a list with one instance per endpoint, built element by element, is the translation |
| ServiceMonitorWriter.CollectSortedKeys | config/service_monitor.go:103-107 | the label keys collected and sorted are the sorted key set |
| ServiceMonitorWriter.AppendMatchLabelRules | config/service_monitor.go:109-115 | one keep rule per sorted key, on the sanitised service label, matching the label's value, appended in order |
| ServiceMonitorWriter.AppendMatchExpressionRules | config/service_monitor.go:117-144 | the rules of the match expressions are appended in order, one per known operator |
| ServiceMonitorWriter.AppendCopyLabelRules | config/service_monitor.go:201-219 | one copy rule per target label or pod target label, in order |
| ServiceMonitorWriter.MakeHTTPClientConfig | config/service_monitor.go:64-97 | the proxy URL, TLS fields and bearer token file are those of the specification function |
| ServiceMonitorWriter.NewScrapeConfig | config/service_monitor.go:32-97 | the job header (name, honor flags, discovery, limits, interval, timeout, path, params, scheme, client) is the specified one |
| ServiceMonitorWriter.MakeSelectorRules | config/service_monitor.go:103-144 | the selector's rules: match labels in sorted order, then the match expressions |
| ServiceMonitorWriter.AppendPortRules | config/service_monitor.go:146-166 | at most one port rule is appended, as the specification function selects it |
| ServiceMonitorWriter.AppendJobAndEndpointRules | config/service_monitor.go:221-248 | the job rules and the endpoint display rule are appended in that order |
| ServiceMonitorWriter.MakeInstanceForServiceMonitorEndpoint | config/service_monitor.go:29-261 | the instance is the specified one for that endpoint: its name, one job, the remote-write destination and the whole relabel pipeline |
| ServiceMonitorWriter.ScrapeConfigsForServiceMonitor | config/service_monitor.go:19-27 | one instance config per endpoint, in endpoint order, each the live translation of that endpoint |
| Converter.MakeInstanceForServiceMonitorEndpoint | operator/service_monitor_converter.go:33-304 | the older copy builds the legacy translation of one endpoint |
| Converter.MakeInstanceForServiceMonitor | operator/service_monitor_converter.go:23-31 | one legacy instance config per endpoint, in endpoint order |
| TranslationLemmas.JobNamesDistinct | config/service_monitor.go:38 | two endpoints of one monitor never share a name |
| TranslationLemmas.JobNameExample | config/service_monitor_converter_test.go:59-63 | endpoint 0 of `myapp/dummy` is named `myapp/dummy/0` |
| TranslationLemmas.TranslateShape | config/service_monitor.go:19-50 | as many instances as endpoints; each is named `{namespace}/{name}/{i}`, sends to the one destination and holds one job of the same name; names are pairwise distinct |
| TranslationLemmas.MatchLabelRulesSorted | config/service_monitor.go:103-115 | the match-label rules are one keep rule per label key, in strictly ascending key order |
| TranslationLemmas.SortedKeysExample | config/service_monitor_converter_test.go:278-283 | the keys `z`, `b`, `a/b/c` sort as `a/b/c`, `b`, `z` |
| TranslationLemmas.SafeLabelNamesOfExample | config/service_monitor_converter_test.go:258-283 | the test's label keys sanitise as expected |
| TranslationLemmas.MatchLabelRulesOfExample | config/service_monitor_converter_test.go:258-283 | the rules for the sorted keys are the expected keep rules |
| TranslationLemmas.MatchLabelsExample | config/service_monitor_converter_test.go:258-283 | labels `z`, `b`, `a/b/c` are matched in the order `a_b_c`, `b`, `z` |
| TranslationLemmas.PortRuleCases | config/service_monitor.go:146-166 | a named port wins, then a named target port, then a numeric one; no rule exactly when none is set |
| TranslationLemmas.ItoaExample | config/service_monitor_converter_test.go:323-329 | port 9000 renders as `9000` |
| TranslationLemmas.TargetPortExamples | config/service_monitor_converter_test.go:315-330 | target port 9000 keeps port number `9000`; target port `metrics` keeps port name `metrics` |
| TranslationLemmas.DisplayRuleLabelled | config/service_monitor.go:238-248 | the live display rule always targets label `endpoint`, showing the port or else the target port, and exists exactly when one of them is set |
| TranslationLemmas.LegacyDisplayRuleUnlabelled | operator/service_monitor_converter.go:244-254 | for every endpoint without a port whose target port renders non-empty, the older copy writes the display rule with an empty target label, where the live one writes `endpoint` |
| TranslationLemmas.LegacyDisplayRuleAt9000 | operator/service_monitor_converter.go:249-253 | target port 9000 is displayed under the empty label by the older copy |
| TranslationLemmas.VariantsAgree | operator/service_monitor_converter.go:44-56 | the two copies build the same job header except for the target limit, and the same pipeline unless a target port is displayed |
| TranslationLemmas.ScrapeHeaderFields | config/service_monitor.go:32-97 | each optional setting keeps its zero value unless the endpoint sets it, and then takes the endpoint's value |
| TranslationLemmas.ExpressionRuleCases | config/service_monitor.go:117-144 | one rule for each of the four known operators, none otherwise, each on the expression's service label |
| TranslationLemmas.ExpressionRulesAppend | config/service_monitor.go:117-144 | the rules of a list of expressions are those of its parts, in order |
| TranslationLemmas.ExpressionRulesSources | config/service_monitor.go:117-144 | every expression rule reads the sanitised service label of one of the expressions |
| TranslationLemmas.PrefixedNotPort | config/service_monitor.go:109-219 | service-label and pod-label sources never lie under the endpoint-port prefix |
| TranslationLemmas.ConstantRulesNoPortSource | config/service_monitor.go:168-199 | the fixed rules read no endpoint-port label |
| TranslationLemmas.NoPortSourceConcat | config/service_monitor.go:168-199 | concatenating rule lists without endpoint-port sources gives a list without them |
| TranslationLemmas.SelectorRulesNoPortSource | config/service_monitor.go:103-144 | the selector rules read no endpoint-port label |
| TranslationLemmas.CopyLabelRulesNoPortSource | config/service_monitor.go:201-219 | the label-copy rules read no endpoint-port label |
| TranslationLemmas.JobRulesNoPortSource | config/service_monitor.go:221-236 | the job rules read no endpoint-port label |
| TranslationLemmas.NoPortRuleWhenUnset | config/service_monitor_converter_test.go:331-341 | with neither port nor target port nor user rules, no rule of the job reads an endpoint-port label |
| TranslationLemmas.PipelineOrder | config/service_monitor.go:103-254 | the pipeline is, in order, the selector, port, fixed, target-label, pod-label, job and display rules, then the user's relabel and metric relabel rules |
| TranslationLemmas.CopyLabelsExample | config/service_monitor_converter_test.go:382-398 | target labels `a`, `b`, `c/d/e` are copied from the service labels into `a`, `b`, `c_d_e` |
| TranslationLemmas.SafeLabelNamesShort | config/service_monitor_converter_test.go:382-414 | single-letter label names are already safe |
| TranslationLemmas.JobRulesOrder | config/service_monitor.go:221-236 | the job label defaults to the service name, and a job label adds one override rule after it |
| TranslationLemmas.JobLabelExample | config/service_monitor_converter_test.go:426-443 | job label `foo.bar/app` is read from service label `foo_bar_app` |
| ConfigManager.EncodeRune | operator/config_manager.go:40-42 | the UTF-8 encoding of a character is one to four bytes, one byte exactly for ASCII, and its lead byte announces its length |
| ConfigManager.EncodeRuneInjective | operator/config_manager.go:40-42 | distinct characters encode differently |
| ConfigManager.EncodeString | operator/config_manager.go:40-42 | at least one byte per character; what the bytes are is stated by EncodeStringAppend, EncodeStringInjective and PathEscapeRoundTrip |
| ConfigManager.EncodeStringInjective | operator/config_manager.go:40-42 | distinct strings encode differently |
| ConfigManager.HexDigit | operator/config_manager.go:40-42 | the digit written for a value below sixteen is itself an unreserved character, so escapes never need escaping |
| ConfigManager.HexValue | operator/config_manager.go:40-42 | the value of a hexadecimal digit is below sixteen |
| ConfigManager.EscapeByte | operator/config_manager.go:40-42 | one byte escapes to one to three characters, each allowed in a path segment |
| ConfigManager.EscapeBytes | operator/config_manager.go:40-42 | every character of the escaped bytes may appear in a path segment |
| ConfigManager.PathEscape | operator/config_manager.go:40-42 | the escaped name holds only unreserved characters and `%` escapes, so no `/` |
| ConfigManager.HexRoundTrip | operator/config_manager.go:40-42 | reading a hex digit back gives its value |
| ConfigManager.UnescapeKeptByte | operator/config_manager.go:40-42 | an unreserved byte is read back as itself |
| ConfigManager.UnescapeEncodedByte | operator/config_manager.go:40-42 | a `%` escape is read back as the byte it encodes |
| ConfigManager.UnescapeEscapeBytes | operator/config_manager.go:40-42 | unescaping the escaped bytes gives the bytes back |
| ConfigManager.PathEscapeRoundTrip | operator/config_manager.go:40-42 | unescaping an escaped name gives its UTF-8 bytes back |
| ConfigManager.PathEscapeInjective | operator/config_manager.go:40-42 | distinct names escape differently |
| ConfigManager.NewGrafanaAgentConfigManager | operator/config_manager.go:31-38 | an agent manager whose API root has one trailing slash removed, if there was one |
| ConfigManager.NewNoOpConfigManager | operator/config_manager.go:139-155 | a manager that talks to no agent |
| ConfigManager.UpdateScrapeConfig | operator/config_manager.go:77-109 | the no-op manager always succeeds; an agent update succeeds exactly on 200 or 201, fails with the transport's error or with the unexpected status line |
| ConfigManager.DeleteScrapeConfig | operator/config_manager.go:111-137 | the no-op manager always succeeds; an agent delete succeeds exactly on 200 or 400, fails with the transport's error or with the unexpected status line |
| ConfigManager.ListScrapeConfigs | operator/config_manager.go:44-75 | the no-op manager lists nothing; an agent list gives the decoded names on 200 and otherwise fails with the transport, status or decoding error |
| ConfigManager.RouteInjective | operator/config_manager.go:40-42 | distinct config names have distinct routes, and nothing after the config prefix is a `/` |
| ConfigManager.EncodeStringAppend | operator/config_manager.go:40-42 | encoding distributes over concatenation |
| ConfigManager.EscapeBytesAppend | operator/config_manager.go:40-42 | escaping distributes over concatenation |
| ConfigManager.PathEscapeAppend | operator/config_manager.go:40-42 | path escaping distributes over concatenation |
| ConfigManager.PathEscapeUnreserved | operator/config_manager.go:40-42 | a name of unreserved characters is left unchanged |
| ConfigManager.EscapeSlash | operator/config_manager.go:40-42 | `/` escapes to `%2F` |
| ConfigManager.PathEscapeSlash | operator/config_manager.go:40-42 | escaping `a/b` with both parts unreserved gives `a%2Fb` |
| ConfigManager.PathEscapeJoin | operator/config_manager.go:40-42 | escaping unreserved parts joined by `/` joins them by `%2F` |
| ConfigManager.RouteTrimsSlash | operator/config_manager_test.go:34-50 | a root with or without a trailing slash gives the same route |
| ConfigManager.RouteOfPath | operator/config_manager_test.go:34-50 | the route of `a/b/c` under any root is the config path followed by `a%2Fb%2Fc` |
| ConfigManager.UpdateOutcomeExamples | operator/config_manager_test.go:57-85 | 201 and 200 succeed; a 500 fails with `UpdateScrapeConfig: unexpected status code: 500 Internal Server Error` |
| ConfigManager.DeleteOutcomeExamples | operator/config_manager_test.go:90-100 | 200 and 400 succeed; a 500 fails with the delete's unexpected status message |
| Operator.SlashIndex | operator/servicemonitor_worker.go:64-68 | the position of the first `/`, or the length when there is none |
| Operator.SplitMetaNamespaceKey | operator/servicemonitor_worker.go:64-68 | a key splits exactly when it has at most one `/`; neither part holds `/`; a key without `/` is a name in the empty namespace, and otherwise namespace, `/` and name rebuild the key |
| Operator.Added | operator/controller.go:211 | the queue gains the item at its end unless already present, and stays free of duplicates |
| Operator.Updates | operator/servicemonitor_worker.go:85-98 | one call per config; that the calls are updates of each config in order is stated by OperatorLemmas.SyncUpdatesEveryConfig |
| Operator.Deletes | operator/servicemonitor_worker.go:133-138 | one call per config; that the calls delete each config by name in endpoint order is stated by OperatorLemmas.DeleteEveryConfig, and the lookup fallback by OperatorLemmas.DeleteLookupCases |
| Operator.FirstFailure | operator/servicemonitor_worker.go:85-98 | every call before the returned position succeeds, and the call at it fails |
| Operator.FirstFailureStep | operator/servicemonitor_worker.go:85-98 | a call that succeeds before the first failure lets the scan move on |
| Operator.DeleteCallsGrow | operator/controller.go:161-175 | adding one name adds its delete call |
| Operator.NameSet | operator/controller.go:146-149 | the set of the listed names |
| Operator.Controller.constructor | operator/controller.go:61-130 | a new controller starts with no tombstones, an empty queue and no calls sent |
| Operator.Controller.Add | operator/controller.go:211 | the item joins the queue as the pure state transition says |
| Operator.Controller.AddRateLimited | operator/servicemonitor_worker.go:50-57 | the failure count grows and the item is scheduled for retry |
| Operator.Controller.Forget | operator/servicemonitor_worker.go:50-57 | the failure count is cleared |
| Operator.Controller.Enqueue | operator/controller.go:197-212 | the monitor's tombstone is dropped and a sync of its key is queued |
| Operator.Controller.EnqueueDelete | operator/controller.go:214-229 | the tombstone is recorded and a delete of its key is queued |
| Operator.Controller.OnUpdate | operator/controller.go:116-124 | an update with an unchanged resource version changes nothing; otherwise it enqueues the new monitor |
| Operator.Controller.CallManager | operator/servicemonitor_worker.go:85-98 | one call is sent, its outcome is the manager's, and nothing else changes |
| Operator.Controller.PerformEach | operator/servicemonitor_worker.go:85-98 | calls are sent in order up to and including the first failure, whose error is returned |
| Operator.Controller.SyncCachedKey | operator/servicemonitor_worker.go:63-101 | the calls sent and the error are those of the sync plan: nothing for a malformed or missing key, the lister's error, or an update per produced config |
| Operator.Controller.DeleteCachedKey | operator/servicemonitor_worker.go:103-141 | the calls sent and the error are those of the delete plan, which prefers the tombstone |
| Operator.Controller.Reconcile | operator/servicemonitor_worker.go:21-61 | the new state and the go-on flag are those of one reconcile step |
| Operator.Controller.RunWorker | operator/controller.go:188-191 | the new state is that of reconciling the oldest item until the queue is empty (Operator.Drain); the worker reports shut-down exactly when the queue was shut down |
| Operator.Drain | operator/controller.go:188-191 | draining empties the queue, keeps the tombstones and the shut-down flag, and only appends to the calls made |
| Operator.Controller.Run | operator/controller.go:132-186 | a failed list or a failed cache sync is reported; otherwise exactly one delete call per listed config that no monitor produces is sent; the queue is shut down in every case |
| Operator.Controller.DeleteAll | operator/controller.go:161-175 | one delete call per name, each name once |
| Operator.Controller.ForgetMonitor | operator/controller.go:161-175 | the monitor's config names are removed from the known names |
| Operator.Controller.ForgetProduced | operator/controller.go:161-175 | the names produced by any cached monitor are removed from the known names |
| Operator.ForgetNames | operator/controller.go:161-175 | dropping the name of each config of one monitor removes exactly the monitor's config names |
| Operator.NewControllerForConfig | operator/controller.go:61-130 | fails exactly when the remote-write URL does not parse; otherwise a fresh controller with the writer for that URL |
| OperatorLemmas.SplitKeyOf | operator/controller.go:197-212 | a monitor's key splits back into its namespace and name |
| OperatorLemmas.FailFastAll | operator/servicemonitor_worker.go:85-98 | a run of calls succeeds exactly when every call does; then all were sent, otherwise the sent calls end at the failing one |
| OperatorLemmas.AttemptedPrefix | operator/servicemonitor_worker.go:85-98 | the calls sent are a prefix of those planned |
| OperatorLemmas.SyncUpdatesEveryConfig | operator/servicemonitor_worker.go:63-101 | a sync of a present monitor updates each of its configs once, named after its endpoints, all names distinct |
| OperatorLemmas.SyncLookupCases | operator/servicemonitor_worker.go:64-78 | a malformed key or a missing monitor needs no call and succeeds; a lister error is returned without any call |
| OperatorLemmas.DeleteEveryConfig | operator/servicemonitor_worker.go:128-138 | with a tombstone, the delete plan holds exactly one delete per endpoint, the i-th deleting the i-th job name of the removed monitor |
| OperatorLemmas.DeleteLookupCases | operator/servicemonitor_worker.go:112-127 | without a tombstone, a malformed key or a monitor the lister no longer has needs no call and succeeds; any other lister error is returned without any call |
| OperatorLemmas.DeletePrefersTombstone | operator/servicemonitor_worker.go:103-130 | with a tombstone the lister is not consulted and the tombstone's configs are deleted |
| OperatorLemmas.DeleteAfterEnqueueDelete | operator/controller.go:214-229 | after the delete handler, the delete removes exactly the configs of the deleted monitor |
| OperatorLemmas.EnqueueDropsTombstone | operator/controller.go:197-212 | after the add handler, a delete of that key no longer uses the old tombstone |
| OperatorLemmas.UpdateNeedsNewVersion | operator/controller.go:116-124 | an unchanged resource version leaves the state alone; a new one enqueues |
| OperatorLemmas.HandlersKeepValid | operator/controller.go:197-229 | the handlers keep the queue free of duplicates and the tombstones filed under their keys |
| OperatorLemmas.ReconcileStops | operator/servicemonitor_worker.go:22-26 | with nothing left after shut-down the worker is told to stop and nothing changes |
| Operator.ReconcileTakesOldest | operator/servicemonitor_worker.go:21-61 | a reconcile removes the oldest item, goes on, and changes neither tombstones nor the shut-down flag |
| OperatorLemmas.ReconcileForeign | operator/servicemonitor_worker.go:35-39 | an item that is not a target is forgotten without any call |
| OperatorLemmas.ReconcileRateLimits | operator/servicemonitor_worker.go:50-57 | a target is forgotten after success and rate-limited after an error |
| OperatorLemmas.PlanCallsFromPlan | operator/servicemonitor_worker.go:85-138 | every call sent comes from the plan, at the same position |
| OperatorLemmas.ReconcileCallKinds | operator/servicemonitor_worker.go:44-48 | a delete target only deletes and a sync target only updates |
| OperatorLemmas.ReconcileTargetSends | operator/servicemonitor_worker.go:42-47 | reconciling a target appends exactly the calls its sync or delete plan makes |
| OperatorLemmas.ReconcileKeepsValid | operator/servicemonitor_worker.go:21-61 | a reconcile keeps the state well formed |
| OperatorLemmas.DrainKeepsValid | operator/controller.go:188-191 | a worker that drains the queue keeps the state well formed |
| OperatorLemmas.DrainForeign | operator/servicemonitor_worker.go:35-39 | draining items that are not targets makes no call and leaves none of them with a failure count |
| OperatorLemmas.DrainKeepsForgotten | operator/servicemonitor_worker.go:35-39 | draining items that are not targets never gives an item a failure count |
| OperatorLemmas.ProducedMembers | operator/controller.go:146-159 | a name is produced by the cache exactly when it is the job name of some endpoint of some cached monitor |
| OperatorLemmas.StaleExactly | operator/controller.go:161-175 | start-up deletes exactly the listed configs that no translation of a cached monitor names |

## Left out

- HTTP, JSON and the agent: the transport, request construction and the agent's reply are the parameter `net`. A reply's body is given already decoded (`listing`). Marshalling an update body cannot fail in the model. A malformed API root that makes request construction fail is not modelled.
- Regular expressions, `model.ParseDuration` and `url.Parse` are not given semantics. A regex is kept as its pattern text, and the two parsers are the function parameters in `Parsers`.
- The event recorder, logging and klog messages are left out. They do not affect any result.
- Concurrency: one worker is modelled, reconciling one item at a time. Several goroutines, `wait.Until`, the stop channel and the locking inside the work queue are left out.
- The work queue keeps the queue order, merging of equal items, shut-down, and the failure count with its delayed items. Its processing and dirty sets are left out, and so is the timer that later moves delayed items back into the queue.
- The Kubernetes client, the informers and their caches are left out. The lister is the parameter `lookup`, the result of the cache sync is the parameter `synced`, and the cached monitors at start-up are the parameter `store`.
- `DeletedFinalStateUnknown` tombstones from the informer and `AddTypeMetaToObject` errors are left out.
- The key function `MetaNamespaceKeyFunc` cannot fail in the model (`Operator.KeyOf`), so the handlers' path that logs its error and enqueues nothing (operator/controller.go:197-229) is not modelled.
- The files operator/client.go, cmd/root.go, main.go, httputil and k8sutil are not part of this model.
- Go's map iteration order is left unspecified. `Translation.SetToSeq` picks some order before sorting; `Operator.Controller.DeleteAll` picks names with `:|`.
- Operator.Controller.Run: the delete calls at start-up are stated as a multiset, because the order follows Go's map iteration order.
- Operator.Controller.Run: the worker phase (operator/controller.go:177-185) and the wait for the context to end are left out. The model shuts the queue down as soon as start-up finishes. Draining the queue is modelled by Operator.Controller.RunWorker.
- Go fills result slices with `make` and indexing. The model builds the same sequences by appending.
- The older copy's inline relabel loops (operator/service_monitor_converter.go:256-297) and its copies of the helpers (306-335) are modelled by the shared `Writer` definitions, which they match line for line.
- Errors from the tombstone map's `GetByKey` are not modelled. That map never produces one.
- Operator.Controller.RunWorker: stated for a worker that runs until its queue is empty, not for a worker that blocks waiting for new items; items put back after a backoff are not re-added while it runs.

## Findings

| source | as written | input that shows it | evidently intended | confidence | as-written member | corrected member |
|---|---|---|---|---|---|---|
| operator/service_monitor_converter.go:249-253 | the display rule for a target port has an empty target label | an endpoint with no port and target port 9000 | target label `endpoint`, as config/service_monitor.go:243-247 writes it | not executed | TranslationLemmas.LegacyDisplayRuleUnlabelled | TranslationLemmas.DisplayRuleLabelled |
