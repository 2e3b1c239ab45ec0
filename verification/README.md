# tsdb-operator, modelled and proved in Dafny

A model of the tsdb-operator for Kubernetes: the controllers of PrometheusCluster and
PrometheusClusterSet, the backup scheduler, the health checker, the admission webhook, the audit
pruner, and the object store they meet in. `dafny verify dfyconfig.toml` checks everything.

## How it is put together

**Shared store.** `Store` is one PrometheusCluster object in an API server with compare-and-swap on
resourceVersion, separate spec and status endpoints and admission on the main resource ("Concurrency
Control and Consistency" in the Kubernetes API Conventions). Reconciler, backup runs, failover passes
and Set overlays each read any past version, change their copy and write the whole copy back. The
invariant compares every copy with the history at its version; from it follow that no write loses
another's, that stamps never move back, and that every stored spec is admissible.

**Cluster controller.** `Reconciler` holds the class that follows the code call by call, with stale
reads and failing calls, and the function it refines; `Convergence` and `PhaseSafety` are about that
function; `PhaseGauges` is about the phase gauges over whole runs. Every write may be refused, or stored
with its answer lost. API-server defaulting is an idempotent function parameter on pod templates and
ports. `ConfigPrinter`, `Quoting` and `ConfigParser` are renderConfig and wrapScrapeConfigs with written
inverses; `PodTemplate` builds the StatefulSet; `Agreement` proves that the two fit together.

**Set controller.** `ClusterSet` is one pass: filter, overlay, histogram, sort. `SetQueue` is the work
queue that the passes refill through the cluster watch, with an informer cache that lags and calls that
fail.

**Backups.** `Scheduler` is the cron table against the history of Register calls, `TarPipe` the
two-party pipe protocol with its goroutine, `BackupRun` is RunOnce with the answers it gets as inputs.
`BackupProtocol` joins them with the store: any number of runs, step by step, each between the steps of
all other actors, with the pipe run inside and the status update decided by compare-and-swap;
`BackupRefinement` shows that its finished runs are runs of RunOnce.

**Failover.** `HealthCheck` is what passes of the checker do with the answers they get;
`FailoverProtocol` puts any number of passes over the shared store, like the backup runs.

**The rest.** `Webhook`, `Metrics`, `Audit` and `Snapshots` (time stamps, backup keys,
latestKey). `EndToEnd` joins Set controller, cluster controller and scheduler. `Types` and `Text` are
shared: API objects, string order, lines.

Code that mutates is imperative here too: classes for the reconciler, the cron table, the scheduler,
the gauges, the health checker, the audit logger, the string builder and the byte reader, and methods
with loops or branches for validate, RunOnce, allowedNamespaces, the Set pass, wrapScrapeConfigs,
renderConfig, buildStatefulSet and latestKey. Each is tied to a function or to a property of the result,
and the theorems are about those.

Function-valued parameters stand for what the operator calls but does not define: the cron grammar
(one predicate for webhook and scheduler), "is a YAML list of maps", Unicode printability in `%q`, and
API-server defaulting. Probe answers, HTTP answers, clocks, failing calls and the replica that holds a
snapshot are inputs.

## Where the code falls short

These promises are false of the code as it stands. Each is stated as the exact condition under which
it holds.

- A Set whose selector does not parse is requeued for ever: `SetQueue.DrainsExactlyWhenSelectorsParse`.
- A Secret name or key with a newline changes the structure of prometheus.yml, and the webhook does not
  look: `ConfigParser.RenderInvertible`, `Agreement.PodNameExpandedExactlyWhenRendered`,
  `Agreement.SmugglingSecretKey`.
- A retention above 106751 days overflows and prunes rows inside the window:
  `Audit.WindowKeptUpTo106751Days`.
- Rows inserted by a call that returns an error, and rows pruned while the driver reports no count, are
  missing from the counters: `Audit.CountersAgree`.
- The overlay of a member that fails for a passing reason is logged and not retried until something else
  changes: `SetQueue.StuckMeansConverged`, `SetQueue.FailedOverlayStaysUndone`.
- A status update or finalizer removal that is stored while its answer is lost leaves the phase gauges
  behind; after a lost removal they stay for good: `PhaseGauges.GaugesHonestExactly`,
  `PhaseGauges.LostRemovalLeaks`.

Two promises rest on the API server and not on the code. The comparison of pod specs is against an
undefaulted one, so a server that completes pod specs, as apps/v1 does (restart policy, DNS policy,
probe timings), makes every pass write the StatefulSet. On such a server Active is sound even under
stale reads and any drift of the template is repaired. The exact conditions:

- `PhaseSafety.ActiveSafeExactly`: with a server that leaves the desired pod spec as written, an
  outdated StatefulSet read can have Active written over other replicas (`PhaseSafety.StaleActive`).
- `Convergence.DriftRepairedExactly`: with a server that leaves the desired pod spec as written under
  other metadata, that metadata stays.

Where documentation and code differ the model follows the code: the comment at
`api/v1/prometheusclusterset_types.go:44` lets members win field by field, but the overlay replaces the
whole backup block of a member that has not enabled backup; PhaseFailed is declared but never written.

## Model

| member | source | states |
|---|---|---|
| Webhook.Validate | internal/webhook/prometheuscluster_webhook.go:53-122 | The error list names exactly the violated rules, each once (one per remote_write index); admission is "no rule violated" |
| Webhook.ValidateScrape | internal/webhook/prometheuscluster_webhook.go:84-111 | Of the rules on additionalScrapeConfigs, exactly the violated ones, each once |
| Webhook.AdmittedExactly | internal/webhook/prometheuscluster_webhook.go:53-122 | The rules together, written out: at least one replica; a bucket and an empty or parseable schedule when backup is on; a url in every remote_write entry; of the scrape sources exactly one, a YAML list or a named Secret key |
| Webhook.TemplateAdmittedExactly | internal/controller/prometheusclusterset_controller.go:161-170 | Switching an admitted cluster to a backup template is admitted if and only if the template has a bucket and an empty or parseable schedule |
| Store.StepPreserves | internal/controller/prometheuscluster_controller.go:144-164 | Every step of every actor, with reads of any age and answers that may be lost, keeps: each in-flight copy equals the stored history at its version except for its actor's own fields; each stored version differs from the one before only in its writer's fields; every stored spec is admissible |
| Store.StepShape | internal/controller/prometheuscluster_controller.go:144-164 | A step appends at most one version, by its author, and touches one copy |
| Store.LocalStepPreserves | internal/backup/backup.go:136-140 | A change an actor makes to its own copy (phase and ready count, finalizer, the two stamps, the overlay) stays within the fields that actor owns |
| Store.CommitCopyPreserves | internal/controller/prometheuscluster_controller.go:156-164 | A whole-object write that passes the version check stores only its writer's fields anew, and the answer refreshes the copy |
| Store.NoWriteLosesAnother | internal/controller/prometheuscluster_controller.go:156-164 | Over all interleavings from the empty store: phase and ready count change only by the reconciler, LastBackupTime only by a backup run, LastFailoverTime only by the health checker, spec only by a user or an overlay and then with the status untouched; every stored spec passes admission |
| Store.OverlayStoresBackupOnly | internal/controller/prometheusclusterset_controller.go:161-170 | On every interleaving, a version a Set overlay writes is the one before it in every field but the backup block and in every annotation but the Set's; it only switches backup on, for a cluster without it whose opt-out is not "true" |
| Types.OverlayWritesBackup | internal/controller/prometheusclusterset_controller.go:161-168 | An overlay writes the template, switched on, and the Set's name, and nothing else |
| Store.StampsNeverMoveBack | internal/ha/ha.go:108-112 | While an object lives, LastBackupTime and LastFailoverTime are never cleared and never move backward between any two versions |
| Store.FinalizerWriteNeverRejected | internal/controller/prometheuscluster_controller.go:82-88 | In every reachable state the reconciler's copy passes the webhook, so its finalizer writes fail only on a newer version |
| Store.OverlayAdmittedExactly | internal/controller/prometheusclusterset_controller.go:161-170 | In every reachable state an overlaid member is admitted if and only if the template has a bucket and no unparseable schedule |
| Store.InvalidTemplateLeavesMember | internal/controller/prometheusclusterset_controller.go:92-99 | With a template that fails admission, the overlay write and any retry of it store nothing |
| ClusterSet.AllowedNamespaces | internal/controller/prometheusclusterset_controller.go:123-138 | nil exactly for an empty selector; otherwise exactly the names of the namespaces whose labels match |
| ClusterSet.ShortcutAgrees | internal/controller/prometheusclusterset_controller.go:82-91 | The nil-namespace-map shortcut selects the same clusters as filtering every namespace, exactly when every matching cluster lives in a listed namespace |
| ClusterSet.SortedUnique | internal/controller/prometheusclusterset_controller.go:101-106 | A member list sorted by (namespace, name) is determined by its elements |
| ClusterSet.StatusUnique | internal/controller/prometheusclusterset_controller.go:80-113 | At most one status describes a set of clusters: members, memberCount and phaseCount are a function of the set alone |
| ClusterSet.StatusExists | internal/controller/prometheusclusterset_controller.go:80-113 | Every set of clusters with distinct keys has such a status |
| ClusterSet.StatusMeans | internal/controller/prometheusclusterset_controller.go:80-113 | The status written out: the members are the selected clusters with their phases, by namespace and then by name; memberCount counts them and phaseCount[p] those in phase p; the empty phase is not counted |
| ClusterSet.CountsSum | internal/controller/prometheusclusterset_controller.go:97-110 | The phase counts add up to memberCount minus the members with an empty phase |
| ClusterSet.SortSpec | internal/controller/prometheusclusterset_controller.go:101-106 | Sorting keeps the elements and the phase counts and, for distinct keys, yields the strictly sorted list |
| ClusterSet.MemberStore.Update | internal/controller/prometheusclusterset_controller.go:170 | A main-resource update stores exactly what the server takes (member exists, version matches, spec admissible) unless the call fails before; it succeeds if the answer arrives too; it keeps the stored status and touches no other member |
| ClusterSet.OverlayBackup | internal/controller/prometheusclusterset_controller.go:150-171 | Only the visited member can change, and of it only the backup block and the Set's annotation, to the whole template, switched on, and the Set's name; exactly when the overlay rules and admission allow it, the copy is current and the write is not lost before the store |
| ClusterSet.OverlayDueExactly | internal/controller/prometheusclusterset_controller.go:150-171 | When a member is to be overlaid, written out: selected, a template with a bucket and a good schedule, no backup, no opt-out |
| ClusterSet.IsMember | internal/controller/prometheusclusterset_controller.go:84-91 | The two checks of the loop are the membership rule |
| ClusterSet.VisitMembers | internal/controller/prometheusclusterset_controller.go:80-103 | The loop reports exactly the selected clusters, failed overlays included, and leaves every listed member as the overlay rules and its write say |
| ClusterSet.Reconcile | internal/controller/prometheusclusterset_controller.go:50-119 | Fails exactly when a selector does not parse, a needed listing fails or the status update is not answered; the status it stores is the one status of the listed clusters; every member is stored as before or, if listed and due, with only backup block and annotation replaced |
| ClusterSet.ListingOrderIrrelevant | internal/controller/prometheusclusterset_controller.go:75-113 | Any permutation of the listing gives the same status |
| SetQueue.OverlayAt | internal/controller/prometheusclusterset_controller.go:150-171 | In a pass a cluster gets the next version with the overlay exactly when it is due on a current copy and its write does not fail |
| SetQueue.PassPreserves | internal/controller/prometheusclusterset_controller.go:50-119 | A Set pass, its failing calls included, keeps: a Set that is not queued has an up-to-date status and nothing left to overlay except on copies a delivery will refresh and where the overlay failed in its last pass |
| SetQueue.DeliverPreserves | internal/controller/prometheusclusterset_helpers.go:22-35 | An informer delivery, which enqueues every Set, keeps the same invariant |
| SetQueue.NextPreservesAndDecreases | internal/controller/prometheusclusterset_helpers.go:22-35 | Every step keeps the invariant and decreases the lexicographic measure (foreign writes and failing calls to come, clusters without backup, copies behind the store, Sets with an out-of-date status, queue size) |
| SetQueue.TouchPreserves | internal/controller/prometheusclusterset_helpers.go:22-35 | A status or finalizer write of another controller keeps the same invariant |
| SetQueue.DrainsExactlyWhenSelectorsParse | internal/controller/prometheusclusterset_controller.go:59-66 | With users quiet, and finitely many writes of the other controllers and failing calls in between, the queue work stops on every schedule if and only if all selectors of all Sets parse |
| SetQueue.StuckMeansConverged | internal/controller/prometheusclusterset_controller.go:92-94 | Where the queue has no work left it is empty, the cache equals the store, every Set status is up to date, and the overlays left undone are exactly those that failed in their Set's last pass |
| SetQueue.FailedOverlayStaysUndone | internal/controller/prometheusclusterset_controller.go:92-94 | The failing states: one queued Set, one cluster to overlay, an up-to-date status; if that write fails the work ends with the overlay undone |
| SetQueue.MembersOverlaidAtMostOnce | internal/controller/prometheusclusterset_controller.go:150-171 | On every run at most one step overlays a member, wholesale, by the Set its annotation names and only if that Set was allowed to; of opted-out and already-enabled members nothing but status and finalizers changes |
| SetQueue.MembersKeptOrBackedUp | internal/controller/prometheusclusterset_controller.go:150-171 | At the end of every run each member is as at the start in every field but status, finalizers, backup block and the Set's annotation; these two are as they were, or the template of one Set, switched on, and its name |
| SetQueue.StoppedRunOverlays | internal/controller/prometheusclusterset_controller.go:161-170 | A run that has stopped has given a member exactly one Set wants that Set's whole template if and only if the overlay did not fail in that Set's last pass; otherwise the member is as it was |
| TarPipe.StepPreserves | internal/backup/backup.go:175-199 | Taken bytes plus bytes still to come are always exactly what tar writes until tar fails; tar fails only by itself or because the uploader has gone; an upload completes only behind a clean end of file |
| TarPipe.SomeStepEnabled | internal/backup/backup.go:175-199 | No deadlock: unless goroutine and caller have both finished, one of them can move |
| TarPipe.AlwaysFinishes | internal/backup/backup.go:179-192 | Every interleaving, for every chunking, read size and early abort, is bounded, and where it stops the goroutine has sent its error and the function has returned |
| TarPipe.EndedMeans | internal/backup/backup.go:192-198 | The same for any ended state that satisfies the invariant: how BackupRun and BackupProtocol use the pipe |
| TarPipe.NilMeansStoredExactly | internal/backup/backup.go:192-198 | nil is returned if and only if tar exits cleanly and the uploader completes; then the one object stored is byte for byte what tar wrote, and otherwise nothing is stored |
| Scheduler.Cron.AddFunc | internal/backup/backup.go:78-85 | An unparseable schedule adds nothing; otherwise one job under a new, larger id |
| Scheduler.Cron.Remove | internal/backup/backup.go:74-76 | Removes that id only; an id that is no longer in the table is ignored |
| Scheduler.BackupScheduler.Register | internal/backup/backup.go:69-88 | The cron table and the entry map after the call on all paths; disabled or without schedule, nothing changes and it succeeds; otherwise it succeeds exactly if the schedule parses |
| Scheduler.EntryKeyInjective | internal/backup/backup.go:73 | Slash-free namespaces make namespace/name keys tell clusters apart |
| Scheduler.RegisterIsLocal | internal/backup/backup.go:69-88 | Register keeps every other cluster's jobs, even when its own entry holds a stale id, and replaces its own by the new one or by nothing |
| Scheduler.AlwaysConsistent | internal/backup/backup.go:69-88 | After any history every live job is the one its cluster's entry points to, and no two entries share an id |
| Scheduler.RegisterSchedules | internal/backup/backup.go:78-86 | A Register with a parseable schedule leaves exactly one live job for the cluster, on it |
| Scheduler.TableRefinesHistory | internal/backup/backup.go:69-88 | After any history a cluster has a live job exactly when its last enabled, scheduled Register succeeded, exactly one, on that schedule |
| Quoting.UnquoteQuote | internal/controller/prometheuscluster_controller.go:287-299 | Unquoting gives back every string that %q printed |
| Quoting.QuoteOneLine | internal/controller/prometheuscluster_controller.go:287-299 | A %q-quoted string never spans lines |
| ConfigPrinter.WrapScrapeConfigs | internal/controller/prometheuscluster_controller.go:257-270 | The loop writes the header and one line per input line, blank lines unindented |
| ConfigPrinter.UnwrapWrap | internal/controller/prometheuscluster_controller.go:257-270 | Dropping the header and two spaces per non-empty line gives back every string up to trailing newlines |
| ConfigPrinter.TrimTakesNewlines | internal/controller/prometheuscluster_controller.go:260 | What is trimmed is newlines, all of them at the end |
| ConfigPrinter.WrapKeepsShape | internal/controller/prometheuscluster_controller.go:257-270 | Line count and relative indentation are kept, and the header is the only non-blank line at column 0 |
| ConfigPrinter.Builder.Write | internal/controller/prometheuscluster_controller.go:278-312 | Writing to the builder appends exactly the printed lines |
| ConfigPrinter.WriteHead | internal/controller/prometheuscluster_controller.go:279-293 | Global block, Thanos labels when enabled, scrape block, and the extra file when there is one, in that order |
| ConfigPrinter.WriteEntry | internal/controller/prometheuscluster_controller.go:298-311 | One remote_write entry: url always, then name, basic auth and bearer token if set |
| ConfigPrinter.RenderConfig | internal/controller/prometheuscluster_controller.go:277-313 | The text is the printed line sequence of the cluster, remote_write entries in order |
| ConfigPrinter.HeadTexts | internal/controller/prometheuscluster_controller.go:279-293 | The head of the file as text, with all its parts |
| ConfigPrinter.EntryTexts | internal/controller/prometheuscluster_controller.go:298-311 | A whole remote_write entry as text |
| ConfigParser.ParseShow | internal/controller/prometheuscluster_controller.go:277-313 | Each kind of line is read back as itself, payload included |
| ConfigParser.TakeEntryBack | internal/controller/prometheuscluster_controller.go:297-311 | One remote_write entry is read back whole, optional parts included, whatever entry follows |
| ConfigParser.ParseDocBack | internal/controller/prometheuscluster_controller.go:277-313 | The line sequence determines Thanos flag and cluster name, extra path and remote_write list |
| ConfigParser.RenderInvertible | internal/controller/prometheuscluster_controller.go:277-313 | The parser recovers the Thanos flag, the cluster name, the extra path and the whole remote_write list from the text if and only if the texts printed unquoted hold no newline |
| ConfigParser.ViewExactly | internal/controller/prometheuscluster_controller.go:277-313 | What is recovered, written out: the name exactly with Thanos on, the inline file or else the Secret key as scrape path, the remote_write list of the spec |
| ConfigParser.TopLevelKeysOnce | internal/controller/prometheuscluster_controller.go:277-313 | The column-0 lines are exactly the keys of the sections the spec asks for, each once |
| PodTemplate.BuildThanosSidecar | internal/controller/prometheuscluster_controller.go:472-515 | The sidecar, with the objstore flag and mount exactly when a Secret is referenced, and then also its volume |
| PodTemplate.MountOn | internal/controller/prometheuscluster_controller.go:428-435 | The loop appends the mount to every container of that name and changes no other |
| PodTemplate.BuildPod | internal/controller/prometheuscluster_controller.go:379-436 | Containers and volumes built by appending equal the declarative pod of the spec |
| PodTemplate.BuildStatefulSet | internal/controller/prometheuscluster_controller.go:336-467 | The StatefulSet of the cluster; Prometheus keeps its blocks on the one claim, mounted where its storage path points, and reads the file of the cluster's ConfigMap where its config path points; image, retention, size, class and replicas are the spec's or the defaults; the sidecar, exactly with Thanos on, ships the same claim and reads the object-store Secret where its flag points; the reloader watches the mounted ConfigMap; selector and pod labels agree; no two volumes or claims share a name |
| PodTemplate.DesiredPrometheusWired | internal/controller/prometheuscluster_controller.go:353-402 | The same for the Prometheus container, flags, ports and probes included |
| PodTemplate.DesiredSidecarWired | internal/controller/prometheuscluster_controller.go:472-515 | The same for the sidecar |
| PodTemplate.DesiredReloaderWired | internal/controller/prometheuscluster_controller.go:199-218 | The same for the reloader |
| Agreement.ForeignKeysKept | internal/controller/prometheuscluster_controller.go:170-190 | Keys the operator does not own survive any history of specs |
| Agreement.OwnedKeysAreTheLatest | internal/controller/prometheuscluster_controller.go:170-190 | After any history of specs the two operator-owned ConfigMap keys depend on the latest spec only and every other key is as it was |
| Agreement.LatestFilesHeld | internal/controller/prometheuscluster_controller.go:175-184 | After any history of specs the extra key is there if and only if the latest inline text is not empty; its file starts with scrape_configs: and unwraps to that text up to trailing newlines; and prometheus.yml, for newline-free texts, reads back as the view of the latest spec |
| Agreement.ScrapeFileProvided | internal/controller/prometheuscluster_controller.go:239-251 | For every spec, the file named under scrape_config_files is mounted at that path: a key the operator wrote, or the referenced Secret key |
| Agreement.EveryMountDeclared | internal/controller/prometheuscluster_controller.go:392-463 | Every mount of every container names a volume or a claim of the StatefulSet |
| Agreement.FlagsInArgs | internal/controller/prometheuscluster_controller.go:359-373 | The admin-API flag is passed exactly when backup is enabled, the label-expansion flag exactly when Thanos is |
| Agreement.PodNameExpandedExactlyWhenRendered | internal/controller/prometheuscluster_controller.go:280-311 | The ${POD_NAME} line is in the file exactly when the expansion flag is passed, if and only if Thanos is on, or that line is neither among the later lines of the scrape path nor among the inner lines of a credential Secret name |
| Agreement.ReplicaInFile | internal/controller/prometheuscluster_controller.go:280-311 | The line is in the file if and only if Thanos is on or one of these texts of the spec holds it |
| Agreement.OneLineSmugglesNothing | internal/controller/prometheuscluster_controller.go:281-293 | Newline-free texts smuggle nothing in |
| Agreement.SmugglingSecretKey | internal/controller/prometheuscluster_controller.go:239-251 | A family of Secret keys that the webhook lets through and that put the line into the file without the flag |
| Metrics.Registry.SetPhase | internal/metrics/metrics.go:56-64 | The loop sets the cluster's four series and no other |
| Metrics.Registry.DeleteCluster | internal/metrics/metrics.go:67-71 | Removes the phase series of that cluster and no other |
| Metrics.SetPhaseShows | internal/metrics/metrics.go:56-64 | Afterwards the cluster's series are 1 for its phase and 0 for the others, whatever they were; other clusters keep theirs |
| Metrics.DeleteTakesAll | internal/metrics/metrics.go:67-71 | No phase series of the cluster is left, and those of others stay |
| Reconciler.ClusterReconciler.UpdatePhase | internal/controller/prometheuscluster_controller.go:156-164 | Phase and ready count are stored on a current copy, and shown in the gauges only once the answer arrives |
| Reconciler.ClusterReconciler.Finalize | internal/controller/prometheuscluster_controller.go:144-154 | Drops the operator's finalizer, and the gauges only once that write is answered; does nothing without the finalizer |
| Reconciler.ClusterReconciler.EnsureFinalizer | internal/controller/prometheuscluster_controller.go:82-88 | Adds the finalizer on a current copy; a lost answer is an error although it is stored |
| Reconciler.ClusterReconciler.ReconcileStatefulSet | internal/controller/prometheuscluster_controller.go:103-138 | Create, update or leave the StatefulSet and write the phase, for every combination of stale reads, refused writes and lost answers |
| Reconciler.ClusterReconciler.MutateData | internal/controller/prometheuscluster_controller.go:175-184 | The extra file is there exactly for an inline text and is a scrape_configs document of it, prometheus.yml reads back as the view of the spec, and every other key stays |
| Reconciler.ClusterReconciler.ReconcileConfigMap | internal/controller/prometheuscluster_controller.go:170-190 | The mutated data under this cluster's ownership is stored from a current read; an outdated read succeeds only if it already has the wanted content, and then writes nothing; a ConfigMap of another controller is refused |
| Reconciler.ClusterReconciler.ReconcileService | internal/controller/prometheuscluster_controller.go:315-330 | Headless, selector and port as desired after defaulting, fields the operator does not set kept; outdated reads and Services of another controller as for the ConfigMap |
| Reconciler.ServiceWired | internal/controller/prometheuscluster_controller.go:315-330 | The Service is headless, selects the pods of the StatefulSet, sends its port to the one Prometheus listens on, and keeps the fields the operator does not set |
| Reconciler.ClusterReconciler.ReconcileChildren | internal/controller/prometheuscluster_controller.go:96-101 | ConfigMap, then Service, then StatefulSet and phase; the first failure stops the pass and keeps what was stored before it |
| Reconciler.ClusterReconciler.Reconcile | internal/controller/prometheuscluster_controller.go:67-139 | The whole pass refines the functional specification the theorems are about, for all states, outdated reads, refused calls and lost answers |
| Convergence.StoresReaches | internal/controller/prometheuscluster_controller.go:96-129 | What a full pass stores has the desired ConfigMap keys, Service, replicas and template |
| Convergence.StoresAgain | internal/controller/prometheuscluster_controller.go:120-137 | A pass over what a pass stored changes no child object; only the phase may still move, and not to Scaling |
| Convergence.ConvergesWithFinalizer | internal/controller/prometheuscluster_controller.go:90-139 | From a state with the finalizer: children after one pass, phase after two, and the third stores nothing new |
| Convergence.ConvergesInThree | internal/controller/prometheuscluster_controller.go:67-139 | From any stored state of a live cluster, without failing calls: two Reconciles bring finalizer, ConfigMap keys, Service, replicas and template up to defaulting; one more settles the phase; the fourth changes nothing stored |
| Convergence.Converges | internal/controller/prometheuscluster_controller.go:67-139 | The same for every number n of Reconciles: none fails, from two on the children have the desired values, and from three on the phase has settled and every further pass leaves the stored objects as they are |
| Convergence.FilesConverge | internal/controller/prometheuscluster_controller.go:170-190 | From the second Reconcile on the stored ConfigMap holds the two files of the spec, as texts that read back |
| Convergence.TemplateExactlyReached | internal/controller/prometheuscluster_controller.go:120-129 | For one pass and one stored state: the whole template, metadata included, is the defaulted desired one unless the StatefulSet already had the replicas and, as written, the pod spec, with other metadata |
| Convergence.DriftRepairedExactly | internal/controller/prometheuscluster_controller.go:120-129 | Template drift of any kind is repaired by every pass if and only if server defaulting fixes no other template with the desired pod spec as written; so on every server that completes pod specs |
| Convergence.WantedDependsOnSpec | internal/controller/prometheuscluster_controller.go:277-467 | The desired objects depend on name and spec only, not on status, labels or annotations |
| PhaseSafety.WritesPhase | internal/controller/prometheuscluster_controller.go:103-138 | Which phase, StatefulSet, status and gauges a pass that stores a phase leaves, over all stale reads and failing calls |
| PhaseSafety.PhaseIsOfTheStoredSpec | internal/controller/prometheuscluster_controller.go:156-164 | A phase is written only from the stored version of a live, finalized cluster, and the gauges move with it exactly when the answer arrives |
| PhaseSafety.PhaseExactly | internal/controller/prometheuscluster_controller.go:107-138 | Provisioning with ready 0 for a new StatefulSet; otherwise the ready count read, with Scaling exactly for other replicas, Provisioning exactly for too few ready ones, Active for the rest |
| PhaseSafety.PassKeepsCluster | internal/controller/prometheuscluster_controller.go:67-164 | Of the stored cluster a pass changes phase, ready count and its own finalizer and nothing else; the cluster goes only with its last finalizer |
| PhaseSafety.PassLeavesChildren | internal/controller/prometheuscluster_controller.go:78-88 | A deleting cluster, or one still without the finalizer, leaves children and cron table alone |
| PhaseSafety.PassKeepsStatefulSet | internal/controller/prometheuscluster_controller.go:106-128 | Of an existing StatefulSet a pass changes replicas and template only; a new one is the desired one, defaulted |
| PhaseSafety.PassRespectsOwners | internal/controller/prometheuscluster_controller.go:185-328 | A ConfigMap or Service of another controller is left as it is |
| PhaseSafety.RegisterDecides | internal/controller/prometheuscluster_controller.go:90-94 | A schedule Register refuses stops the pass before it stores anything; without a scheduler, backup or schedule the cron table is left alone |
| PhaseSafety.FirstFailureStops | internal/controller/prometheuscluster_controller.go:96-101 | A ConfigMap or Service write that is not answered ends the pass: nothing behind it is stored |
| PhaseSafety.ActiveIsSound | internal/controller/prometheuscluster_controller.go:131-138 | When Active is written the recorded ready count covers the replicas, and the stored StatefulSet has the spec's replicas and template if and only if the StatefulSet read was current or the stored one matched before |
| PhaseSafety.ActiveNeedsCurrentRead | internal/controller/prometheuscluster_controller.go:120-138 | On a server that completes pod specs, Active is written only from a current StatefulSet read, and the stored template is then the defaulted desired one |
| PhaseSafety.ActiveSafeExactly | internal/controller/prometheuscluster_controller.go:103-138 | Active is sound under every stale read and every fault if and only if the server completes the desired pod spec |
| PhaseSafety.StaleReadWritesActive | internal/controller/prometheuscluster_controller.go:103-138 | A stale StatefulSet copy with the desired pod spec as written, and ready, makes Reconcile write Active and leave the stored StatefulSet alone |
| PhaseSafety.StaleActive | internal/controller/prometheuscluster_controller.go:103-138 | The failing states, for a server that leaves the desired pod spec alone: stored and cached StatefulSet are both what defaulting leaves as it is, and Active is written over other replicas |
| PhaseSafety.ScalingMeansResized | internal/controller/prometheuscluster_controller.go:120-138 | Scaling is written if and only if this pass changed the replicas of an existing StatefulSet |
| PhaseSafety.SizedLeavesScaling | internal/controller/prometheuscluster_controller.go:120-138 | A pass over a StatefulSet of the right size, stale reads and failures included, leaves a stored Scaling if and only if it writes no phase |
| PhaseSafety.ScalingDoesNotSurvive | internal/controller/prometheuscluster_controller.go:120-138 | After a pass wrote Scaling, and with the replicas not edited again, the next pass leaves Scaling stored if and only if it writes no phase, and a fresh one without failures stores Provisioning or Active |
| PhaseGauges.PassDecides | internal/metrics/metrics.go:56-71 | A pass that stores a phase or removes the finalizer decides anew whether the gauges are honest, by its answer and by what they showed; any other pass leaves that as it was |
| PhaseGauges.GaugesHonestExactly | internal/metrics/metrics.go:56-71 | Over every run of passes, creations, edits, deletions, stale reads and failing calls: the gauges are 1 for the stored phase and 0 for the others, and none without the finalizer, if and only if the last write of a phase or removal of the finalizer was answered, or found the gauges absent or already showing that phase |
| PhaseGauges.NextPhaseRepairs | internal/controller/prometheuscluster_controller.go:156-164 | The next phase stored and answered makes the gauges honest, whatever was lost before |
| PhaseGauges.GaugesStayHonest | internal/metrics/metrics.go:56-71 | With the answers to those two writes arriving, the gauges stay honest on every run, other failures included |
| PhaseGauges.LostRemovalLeaks | internal/controller/prometheuscluster_controller.go:149-153 | The failing case: the last finalizer is removed and the answer lost; the cluster is gone, its series stay, and nothing but a new cluster of that name ever touches them |
| EndToEnd.DesiredServesAdminApi | internal/controller/prometheuscluster_controller.go:359-361 | The desired prometheus container is started with the admin API when backup is enabled |
| EndToEnd.PassSchedules | internal/controller/prometheuscluster_controller.go:90-94 | A full pass leaves exactly one live job for the cluster, on its schedule |
| EndToEnd.TemplateReachesCron | internal/controller/prometheusclusterset_controller.go:161-170 | One Set pass and two Reconciles take a selected, not opted-out, backup-disabled member to the whole template, the admin-API flag in the stored pod, and exactly one cron job on the template's schedule, if and only if its overlay was stored |
| EndToEnd.SettledTemplateReachesCron | internal/controller/prometheusclusterset_controller.go:150-171 | The same at the end of any run of the Set controller, cache lag and failing calls included, for a member that exactly one Set wants: delivered if and only if its overlay did not fail in that Set's last pass |
| EndToEnd.StoredClustersRegister | internal/backup/backup.go:78-85 | Register never fails on a cluster stored by any interleaving of users and controllers |
| BackupRun.Extend | internal/backup/backup.go:94-142 | Adding an effect keeps a log in order if a stamp or an rm finds a stored object, a second object is not stored and nothing follows the count |
| BackupRun.TarStreamToS3 | internal/backup/backup.go:175-199 | Success exactly when tar exits cleanly and the uploader does not give up; then the object is what tar wrote |
| BackupRun.Ship | internal/backup/backup.go:115-134 | Success exactly when the upload it chooses succeeds; the only object is what tar wrote or the response body; a tarred snapshot is gone from its replica, or a tar, upload or rm of it failed |
| BackupRun.RunOnce | internal/backup/backup.go:94-142 | Success exactly when every call it needs succeeds, with any answer but a named success leading to the fallback and not to an error; the one object is what tar wrote or the response body, in the cluster's bucket under its prefix and name; stamp and rm only after it; stamped exactly when it is stored and the status update reaches the store, answered or not; one count, at the end; the snapshot accounted for |
| BackupProtocol.PipeRun | internal/backup/backup.go:175-199 | The object is in the bucket exactly when the pipe's uploader has completed, whole; nil means that it is there and that the snapshot was on replica 0 |
| BackupProtocol.AcceptedKeeps | internal/backup/backup.go:136-140 | A status update the store accepts puts the run's own stamp into the new version, which is credited to that run |
| BackupProtocol.StepPreserves | internal/backup/backup.go:94-142 | Every step of every run, and of reconciler, health checker, overlays and users in between, keeps the invariant: objects are whole, stamps follow objects, versions written by backup runs are credited to runs with an object, snapshots are accounted for, counters count finished runs |
| BackupProtocol.NoPhantomBackup | internal/backup/backup.go:115-140 | In every reachable state, a version that changes LastBackupTime was written by a backup run, and that run had stored its object when fewer versions were stored, no later than the time it stamped |
| BackupProtocol.EveryStampIsBacked | internal/backup/backup.go:115-140 | In every reachable state, a LastBackupTime set at any version is backed by an object stored before it by the run that stamped that time |
| BackupProtocol.CountersCountRuns | internal/backup/backup.go:95-101 | Success plus error counts equal the number of finished runs; each finished run's log is in order and ends with its one count; a counted success has its stamp in the store |
| BackupProtocol.SnapshotsAccountedFor | internal/backup/backup.go:123-133 | In every reachable state, with an executor, a finished run's snapshot is gone from the replica it landed on, or a tar, upload or rm of it failed |
| BackupRefinement.StepFollows | internal/backup/backup.go:94-142 | Every step keeps: each run has done so far what RunOnce does on the answers it has got so far |
| BackupRefinement.FinishedRunsAreRunOnce | internal/backup/backup.go:94-142 | In every reachable state, each finished run has done exactly what RunOnce is proved to do on the answers that run got, whatever was interleaved |
| BackupRefinement.UploadsLieUnder | internal/backup/backup.go:113-120 | In every reachable state an uploaded object lies in the bucket of the cluster the run read, under prefix and cluster name as path segments |
| BackupRefinement.OneKeyOneCluster | internal/backup/backup.go:113 | In every reachable state two uploads under one key come from runs that read clusters of the same prefix and name and named their objects in the same second |
| BackupRun.ByteReader.Read | internal/backup/backup.go:218-225 | Fills the front of the buffer with the next bytes, leaves the rest of it alone, loses none, and reports EOF exactly when nothing is left |
| HealthCheck.HealthChecker.TriggerFailover | internal/ha/ha.go:95-113 | One count, one delete attempt, and a stamp attempt only after a delete that succeeded |
| HealthCheck.HealthChecker.CheckCluster | internal/ha/ha.go:67-93 | The effects of the pod loop over the listing, skipping pods without an IP |
| HealthCheck.HealthChecker.CheckAll | internal/ha/ha.go:56-65 | The log grows by the effects of the pass, which is complete; a failed listing of clusters is the only error |
| HealthCheck.PassComplete | internal/ha/ha.go:56-113 | Every position of every listing that holds an own pod with an address has its own probe with that pod's answer in the log, and nothing else is probed; where the answer is unreachable or at least 500, the count and the delete attempt on that pod follow, and after a successful delete the stamp attempt |
| HealthCheck.EveryEffectJustified | internal/ha/ha.go:56-113 | Over any passes: a pod is deleted only right after a failed or 5xx probe of that pod and one count; pods without an IP and other clusters' pods are never touched; a stamp follows a successful delete |
| HealthCheck.OneCountOneDeletePerFailure | internal/ha/ha.go:84-107 | After any passes each cluster's counter equals its failed probes and its delete attempts |
| FailoverProtocol.StepPreserves | internal/ha/ha.go:67-113 | Every step of every pass, and of everybody else in between, keeps: a version written by a failover pass is credited to a pod deleted before, of that cluster, after a failed probe |
| FailoverProtocol.StampFollowsDelete | internal/ha/ha.go:104-112 | In every reachable state, a version that changes LastFailoverTime was written by a failover pass that had already deleted one of that cluster's pods after a failed probe, no later than the time it stamped |
| FailoverProtocol.EveryFailoverStampIsBacked | internal/ha/ha.go:104-112 | In every reachable state, a LastFailoverTime set at any version follows such a deletion |
| Audit.Wrap64 | internal/audit/audit.go:154 | int64 wrap-around: in range, and exact where the value fits |
| Audit.Logger.Insert | internal/audit/audit.go:68-81 | One more row, that entry with its own time or else the present one, if the INSERT commits; one more counted only if it is answered |
| Audit.Logger.Prune | internal/audit/audit.go:101-113 | Removes exactly the older rows; counts them only if the driver reports the number |
| Audit.Logger.PruneTick | internal/audit/audit.go:150-166 | Prunes at now minus retention in int64 nanoseconds; the row gauge is the table size after an error-free tick |
| Audit.KeptExactly | internal/audit/audit.go:101-106 | A prune keeps exactly the rows at or after the cutoff |
| Audit.KeptCopies | internal/audit/audit.go:101-106 | Copies included: a prune keeps all rows at or after the cutoff and takes all the others |
| Audit.WindowKeptUpTo106751Days | internal/audit/audit.go:154 | No prune removes a row inside the retention window if and only if the retention is at most 106751 days |
| Audit.RowsConserved | internal/audit/audit.go:68-113 | From an empty table, rows recorded plus rows of unanswered INSERTs are rows live, plus rows counted as pruned, plus rows of unreported prunes |
| Audit.CountersAgree | internal/audit/audit.go:68-113 | Rows recorded equal rows live plus rows counted as pruned if and only if as many rows came in uncounted as went out uncounted; so they do when every call is answered and every row count reported |
| Audit.OneKindOfLoss | internal/audit/audit.go:68-113 | Where only one kind of loss occurs, the counters agree if and only if no single INSERT and no single prune escaped them |
| Snapshots.StampOrder | cmd/tsdb-ctl/main.go:187 | String order on fixed-width UTC stamps is time order |
| Snapshots.BackupKeysOrdered | internal/backup/backup.go:113 | Backup keys of one cluster under one prefix sort by the second of the run and never collide across seconds |
| Snapshots.BackupKeysDistinct | internal/backup/backup.go:113 | Whatever the prefixes, for slash-free cluster names: equal keys mean equal prefix, name and second |
| Snapshots.CompactExample | internal/backup/backup.go:113 | The layout of the key stamp, by example |
| Snapshots.ListingExample | cmd/tsdb-ctl/main.go:187 | The layout of the listing stamp, by example |
| Snapshots.LatestKey | cmd/tsdb-ctl/main.go:176-194 | The key of the first listed object with maximal last-modified second; "" for an empty listing |
| Text.SplitLines | internal/controller/prometheuscluster_controller.go:277-313 | Text written line by line splits back into exactly those lines |
| Text.LineBetween | internal/controller/prometheuscluster_controller.go:303-310 | A line that neither starts like the text before a payload nor ends like the text after it is in the whole exactly when it is an inner line of the payload |

## Left out

- LatestKey: years are below 10000, as the layout's four digits need; one page of the listing only, as in the code, so an object beyond the first page is not seen.
- BackupKeysDistinct: the key omits the namespace, so clusters of the same name and prefix in two namespaces can collide.
- BackupKeysOrdered: takes civil date-time fields as given; calendar arithmetic is not modelled.
- TopLevelKeysOnce: needs newline-free unquoted texts; with a newline in one of them the promise fails in the way `Agreement.SmugglingSecretKey` shows for another line.
- DrainsExactlyWhenSelectorsParse: users are quiet, the other controllers write and calls fail finitely often, and the Set object itself is read up to date; only the member cache lags.
- GaugesStayHonest: users leave the operator's own finalizer as it is on an existing cluster; they may create one with it.
- Converges: no call fails and no other controller owns the ConfigMap or the Service; that the schedule parses is what `EndToEnd.StoredClustersRegister` guarantees for stored clusters.
- SnapshotsAccountedFor: assumes that Prometheus never reuses a snapshot name and that tar fails on a replica that does not hold the snapshot.
- NilMeansStoredExactly: rests on the contracts of the two sides, that a command fails if one of its writes fails and that an upload succeeds only after reading to the end and stores what it read.
- CountersCountRuns: counts since the last DeleteCluster; the removal of backup and failover counters there is not modelled.
- TableRefinesHistory: disabling backup or deleting a cluster never removes its job, because the code makes no such call; RunOnce does not look at the enabled flag again.
- EveryFailoverStampIsBacked: which pods are listed and what the probes answer is free; that the counters match is `HealthCheck.OneCountOneDeletePerFailure`, on logs.
- StampsNeverMoveBack: one non-decreasing clock is assumed for all writers.
- ClusterSet.Reconcile: member counts are unbounded integers; the source's int32 would wrap beyond two thousand million clusters.
- Store: users writing the status endpoint, and the server's refusal to change finalizers of deleting objects.
- Reconciler: the owner reference of the StatefulSet, status conditions, and storage changes, which the code does not propagate.
- The remote_write credential files are named in the config but mounted by nobody; no theorem claims otherwise.
- StuckMeansConverged: the informer's periodic resync, which would queue every Set again hours later, is not a step of the model.
- LostRemovalLeaks: a restart of the operator, which empties the gauges and the cron table, is not an event of the model.
- Namespace changes do not enqueue Sets in the code; the queue model keeps namespaces fixed.
- Overlapping Register calls on the unguarded entry map: the controller runs one worker.
- HTTP API, flags, process wiring, SPDY exec and the AWS SDK wrappers.
- Parsers for YAML, cron, label syntax and JSON, except as predicates and decoded values.
- SQL and Postgres beyond a sequence of rows; audit queries.
- Kubernetes garbage collection, kubelet projection lag, the config-reloader's behaviour.
- Events, logging, Helm charts, kustomize manifests, CRD defaulting and generated deep copies.
- The sort in tsdb-ctl's list command and its download, which add only an easy member.
