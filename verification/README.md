# Verification of the sysctl operator's rollout protocol

The operator keeps two kinds of profile, SysctlProfile and ScriptProfile. A reconciler renders a
profile into a ConfigMap and runs a worker DaemonSet until every selected node has reported
success for the current content hash; a report server folds the workers' reports into the
profile's status; the workers refuse to act on bytes whose hash is not the one they were started
with. This project models that protocol, the programs at both ends of the ConfigMap and the
per-node ledger in between, and proves what they keep over all inputs and all runs.

`dafny verify dfyconfig.toml` checks everything.

## How it is laid out

- `Text` - the string operations of both file formats (lines, trimming, cutting, fields).
- `SysctlConf`, `ScriptConf` - the two printers and the two line parsers, imperative as in the
  source, with the exact condition under which the worker gets back what the manager wrote.
- `Selection` - label selectors with the format of keys and values, listing, pod placement, and which node events enqueue a profile.
- `Ledger`, `LedgerLaws` - `status.nodeStatuses` and its counters: a class with the in-place loops,
  what any sequence of reports leaves, and how the reconciler reads it. Counters are 32 bits wide
  and wrap around.
- `Server` - one report request: the retry loop around fetch, mutate and update.
- `Worker` - expansion, Apply, Check, RunScripts, the hash gate and the report.
- `Api`, `Reconcile` - the objects, and one reconcile pass as a class whose method runs the calls in
  order, any set of which may fail.
- `Rollout` - the step relation. The API store keeps every version of every object, a cache may show
  any earlier version but never goes back, a write succeeds only on the current version, a pass is
  split at its API calls and may fail or die between any two, any number of report handlers run
  at once and may die, pods may have any version of the ConfigMap mounted, and the environment
  creates, edits, deletes, relabels and takes away. Both profile kinds are instances of it.
- `Lifecycle`, `TeardownSoundness`, `ReportCommits`, `Quiescence`, `Edits` - the inductive invariants of
  that relation and the theorems about every run.
- `Passes`, `Progress` - the split pass against the atomic one, and what the system does on its own:
  continuations without a step of the environment, without a failure of a call that could succeed,
  without a crash, and without a wake-up that no event gives. In them a pod starts only from the
  current DaemonSet on a node that it allows now, and reports once: having reported, the worker's
  main only waits for a signal.
- `Supplies`, `Shortage`, `Completion` - what a rollout can still be completed with, that nothing makes up
  for what is lost, and the exact condition. `TwoNodes` - two concrete runs.

Two of the theorems tie the levels together: `Passes.UndisturbedPass` shows that every undisturbed split
pass does what `Reconcile.Cluster.Reconcile` does in one go, and `Server.AttemptIsFetchAndCommit` that
one turn of the server's retry loop is a fetch and a commit of the protocol, whichever calls fail.

## What the proofs found

- The API types document `appliedNodes` as the number of nodes at the desired hash
  (`api/v1alpha1/sysctlprofile_types.go:208`). The code counts phases and never prunes entries, so
  this holds exactly while every node whose last report was a success reported that hash
  (`LedgerLaws.AppliedCounterMeaning`, with a one-report counterexample beside it).
- The DaemonSet is placed by `matchLabels` alone, nodes are counted by the whole selector. Pods run
  only on counted nodes exactly if `matchLabels` implies every expression
  (`Selection.PlacementIsSelection`).
- A ConfigMap round trip is exact only under a condition the API does not enforce: a script's name
  and interpreter must hold no white space and no content line may look like a header or footer;
  a setting's name must hold no `=`, not start as a comment, and line breaks may occur only where
  trimming removes them (`ScriptConf.RoundTrip`, `SysctlConf.RoundTrip`).
- A comment in the reconciler says that the DaemonSet exists exactly while some selected node is not
  applied (`internal/controller/sysctlprofile_controller.go:190`). At rest this holds exactly if the
  last pass listed some node and, where a listed node keeps the rollout open, such a node is still
  selected (`Quiescence.DaemonSetCommentIsExact`). It fails when the last open node is deleted:
  the deletion itself enqueues nothing, so the DaemonSet stays (`Quiescence.DeletionOutlivesNeed`), in a
  run that exists for either kind of profile (`TwoNodes.OutlivedIsReachable`). If a pod was scheduled on
  the deleted node, the DaemonSet's own status changes, and that event does enqueue the profile, since
  the controller watches what it owns without a predicate; in the model this is a `Requeue` of the
  environment. The state lasts where no pod was scheduled, as on a node whose taints are not tolerated.
- A rollout can get stuck. A worker whose apply failed, or whose report was lost or answered with an
  error, logs that and waits to be stopped (`cmd/worker/main.go:104-133`): its pod never reports again,
  and the reconciler never replaces it. One node that refuses once is enough
  (`TwoNodes.StuckIsReachable`, for either kind). At rest the rollout can be completed exactly if every
  open node has a pod that has not reported or a success on its way, at most one of these having to be
  the very next change (`Completion.RestIsExact`, `Completion.QueueingIsExact`); no reconcile makes up for
  a lost report. A new version of the DaemonSet always starts over (`Completion.NewVersionRollsOut`), as
  after a real edit (`Edits.RealEditRollsOut`).
- The API types document `failedNodes` as the nodes that exhausted their retries
  (`api/v1alpha1/sysctlprofile_types.go:212`). No code retries; the counter is the number of nodes whose
  last report is a failure (`Ledger.LedgerRefinement`).
- The drift CronJob is documented as running checks, but its pods get no `MODE`
  (`internal/controller/sysctlprofile_controller.go:404`) and mount a ConfigMap under the CronJob's
  own name (`internal/controller/sysctlprofile_controller.go:382`), which nothing creates, so that
  they cannot report either. The model follows the code to the extent of the CronJob's presence,
  schedule and hash.

## Hypotheses

- The content hash is a parameter. Where a theorem needs it to tell contents apart, that is a
  hypothesis about the contents of the run (`TeardownSoundness.Distinguishes`, `Edits.TellsApart`).
- One reconcile of a profile runs at a time; the workqueue keeps one pending request. No theorem relies
  on a periodic resync.
- Object versions, finalizers, deletion marks and conflicts behave as in the Kubernetes API; client-go's
  default retry makes five attempts; node updates are mapped for the old and for the new labels.
- Others delete owned objects at any time, but do not edit them, and do not remove the finalizer.
  Properties that a deleted ConfigMap would break say so (`tampered`).
- On a node, a write that is accepted is stored as written, and keys are canonical.
- Node names are unique and not empty, as the API server enforces.

## Model

| member | source | states |
|---|---|---|
| SysctlConf.RenderSysctlConf | internal/controller/sysctlprofile_controller.go:506-512 | the builder loop writes one `name = value` line for each setting, in order |
| SysctlConf.RenderedText | internal/controller/sysctlprofile_controller.go:506-512 | the text spelled out: one more setting adds its line at the end |
| SysctlConf.Parse | internal/worker/config.go:56-73 | the line loop yields the entries of the lines, skipping blanks, comments and lines without `=` |
| SysctlConf.LineIsCut | internal/worker/config.go:60-71 | every line without `=` gives nothing, any other is cut at its first `=` into two trimmed halves, unless the first starts as a comment |
| SysctlConf.ParsedConcat | internal/worker/config.go:58-72 | lines are read one by one, in order |
| SysctlConf.ParsedIsClean | internal/worker/config.go:56-73 | whatever the bytes, every entry is trimmed, its name holds no `=` and is no comment |
| SysctlConf.RoundTrip | internal/controller/sysctlprofile_controller.go:506-512 | the worker gets back the trimmed settings in order if and only if every setting passes a check made before rendering |
| SysctlConf.RenderedInjective | internal/worker/config.go:56-73 | well-formed lists that render to the same bytes ask for the same settings |
| ScriptConf.RenderScripts | internal/controller/scriptprofile_controller.go:387-402 | the builder loop writes header, content and footer for each script, with the default interpreter and a final newline added where missing |
| ScriptConf.RenderedText | internal/controller/scriptprofile_controller.go:387-402 | the text spelled out: header words, default interpreter, final newline and footer of one more script |
| ScriptConf.ParseScriptHeader | internal/worker/script.go:93-108 | the field loop keeps the last `name=` and `interpreter=`, starting from the default interpreter |
| ScriptConf.LastFieldWins | internal/worker/script.go:93-108 | the last `name=` and the last `interpreter=` field count, other fields change nothing |
| ScriptConf.EmptyHeader | internal/worker/script.go:93-96 | a header without fields has no name and the interpreter `/bin/sh` |
| ScriptConf.ParseScripts | internal/worker/script.go:64-89 | the stateful line loop yields the scripts of the header and footer state machine |
| ScriptConf.HeaderStartsAfresh | internal/worker/script.go:71-75 | text before a header contributes its finished scripts and nothing else: a script still open is dropped |
| ScriptConf.OutsideIsIgnored | internal/worker/script.go:76-86 | text before the first header or after a footer counts for nothing |
| ScriptConf.ParsedIsClean | internal/worker/script.go:64-108 | whatever the bytes, no parsed name or interpreter holds white space and no content line is a header or footer |
| ScriptConf.RoundTrip | internal/controller/scriptprofile_controller.go:387-402 | the worker gets back exactly the scripts, in order, if and only if no name or interpreter holds white space and no content line is a header or footer |
| ScriptConf.RenderedInjective | internal/worker/script.go:64-89 | well-formed lists render to the same bytes exactly if they run the same scripts |
| Selection.SelectedNodeNames | internal/controller/sysctlprofile_controller.go:439-453 | the names of exactly the matching nodes, each once, or an error exactly for an invalid selector |
| Selection.ProfilesForNode | internal/controller/sysctlprofile_controller.go:550-573 | requests for exactly the profiles with a valid selector that matches the node |
| Selection.NegativeOperators | internal/controller/sysctlprofile_controller.go:439-453 | `NotIn` and `DoesNotExist` negate `In` and `Exists`, also where the label is missing |
| Selection.PositiveOperators | internal/controller/sysctlprofile_controller.go:439-453 | `In` and `Exists` ask for a label that `matchLabels` could have asked for |
| Selection.SelectorIsConjunction | internal/controller/sysctlprofile_controller.go:439-453 | a selector is the conjunction of its labels and expressions |
| Selection.NameBounds | internal/controller/sysctlprofile_controller.go:440-443 | letters and digits make a valid value up to 63 of them and a valid key if not empty; a dash may stand within, not at an end |
| Selection.PrefixedKey | internal/controller/sysctlprofile_controller.go:440-443 | a key with a slash is a DNS subdomain of at most 253 characters, then a name |
| Selection.TriggerAgreesWithSelection | internal/controller/sysctlprofile_controller.go:550-573 | a node is listed as selected if and only if its event requests the profile, and then the DaemonSet may place a pod there |
| Selection.PlacementIsSelection | internal/controller/sysctlprofile_controller.go:267 | pods are placed only on selected nodes, whatever the labels, if and only if `matchLabels` implies every expression |
| Selection.DroppedEventsOnlyShrink | internal/controller/node_predicate.go:27-46 | if the events between two node lists enqueue nothing, the selection lost exactly its deleted nodes |
| Selection.EventsThatPass | internal/controller/node_predicate.go:33-47 | exactly creations pass, and updates that some selector can see |
| Selection.EventsRequest | internal/controller/sysctlprofile_controller.go:576-586 | an event enqueues a profile exactly if it passes and the old or the new labels request it |
| Ledger.WrapIsModular | internal/server/server.go:222-234 | counting on 32 bits is reduction modulo 2^32 and exact below 2^31 |
| Ledger.ProfileStatus.UpsertNodeStatus | internal/server/server.go:186-219 | the in-place loop updates the first entry of the node or appends one, and counts failures |
| Ledger.ProfileStatus.RecomputeCounts | internal/server/server.go:222-234 | both counters become the numbers of entries in their phases, nothing else changes |
| Ledger.ProfileStatus.RecordReport | internal/server/server.go:167-182 | what a handler does to the fetched status is one recording step |
| Ledger.LedgerRefinement | internal/server/server.go:186-234 | after any reports: entries in first-report order, each the summary of its node's own history (last outcome, hash of the last success, failures since), counters equal phase counts, `erroredPods` all failures |
| Ledger.LedgerNames | internal/server/server.go:186-219 | names are unique and a node has an entry if and only if it reported |
| Ledger.AllNodesApplied | internal/controller/sysctlprofile_controller.go:458-474 | the map-filling loop answers true exactly if the selection is not empty and each node in it is recorded applied at the hash |
| LedgerLaws.LookupIsSummary | internal/server/server.go:186-219 | what the ledger says of a node is determined by that node's reports alone |
| LedgerLaws.CompletionImpliesCounters | internal/controller/sysctlprofile_controller.go:458-474 | a complete rollout has at least as many applied nodes as selected, equally many exactly if the applied nodes are the selected ones, and a bounded number of failed ones |
| LedgerLaws.AppliedCounterMeaning | api/v1alpha1/sysctlprofile_types.go:208-210 | the applied counter is the number of nodes at a hash if and only if every node whose last report succeeded reported it |
| LedgerLaws.AppliedCounterIsNotAtHash | internal/server/server.go:222-234 | an input on which the documented meaning fails |
| LedgerLaws.OrderIndependence | internal/server/server.go:186-234 | interleavings that keep each node's own order give the same entries, counters and completion answers |
| LedgerLaws.UpsertApplied | internal/server/server.go:186-219 | a report decides the applied state of its own node and of no other |
| LedgerLaws.RolloutProgress | internal/controller/sysctlprofile_controller.go:458-474 | the outstanding set drops by exactly one on a success at the hash from an outstanding node and on no other report; complete if and only if it is empty and the selection is not |
| Server.ReportServer.ApplyReport | internal/server/server.go:160-183 | the retry loop over at most five attempts, with other writers in between and failing or unanswered calls; what it comes to is said by the four rows below |
| Server.ReportServer.HandleReport | internal/server/server.go:109-152 | answer and metric: the metric grows exactly on a failing report whose update was acknowledged |
| Server.ReportRecordedOnce | internal/server/server.go:167-182 | however the attempts go nobody's write is lost: others' versions stay, and exactly a committed report adds one version, made from the one right before it |
| Server.LoopEnds | internal/server/server.go:167-182 | the loop goes on exactly as long as its attempts conflict, ends as the first other one ends, and gives up for conflicts only after the last attempt |
| Server.RetrySucceeds | internal/server/server.go:167-182 | after fewer than five conflicts an undisturbed attempt commits: the old versions, what others wrote, then the version with the report |
| Server.LoopIsHandler | internal/server/server.go:160-183 | the whole loop is the protocol's handler from its first fetch to its end |
| Server.AttemptIsFetchAndCommit | internal/server/server.go:167-182 | every attempt, whichever of its calls fails or goes unanswered, is a fetch and a commit of the protocol with a crash where there was no answer |
| Worker.Expand | internal/worker/apply.go:119-140 | the keys of a name, without the aggregate and loopback interfaces; none if the directory cannot be read |
| Worker.PlainNameExpands | internal/worker/apply.go:120-123 | a name without the placeholder stands for itself |
| Worker.PlaceholderExpands | internal/worker/apply.go:119-140 | any name with the placeholder splits at its first occurrence and the dots around it, and yields exactly the keys of the interfaces under the prefix that are not skipped |
| Worker.InterfaceKeysInOrder | internal/worker/apply.go:131-138 | the keys come in the order of the interfaces |
| Worker.OneInterface | internal/worker/apply.go:133-137 | an interface gives one key, but `all`, `default` and `lo` give none |
| Worker.TargetsInOrder | internal/worker/apply.go:47-59 | keys are handled in the order of the entries and, within one, of its expansion |
| Worker.Apply | internal/worker/apply.go:47-59 | the nested loops write every expanded key and file it by outcome |
| Worker.Check | internal/worker/apply.go:62-79 | the nested loops file every expanded key as in spec, unreadable or drifted |
| Worker.ApplyFilesEachKeyOnce | internal/worker/apply.go:47-59 | each expanded key occurrence ends in exactly one result list |
| Worker.ApplyLists | internal/worker/apply.go:47-59 | a key is applied if some write to it was accepted, failed if some was refused |
| Worker.CheckFilesEachKeyOnce | internal/worker/apply.go:62-79 | each expanded key occurrence ends in exactly one result list |
| Worker.CheckLists | internal/worker/apply.go:62-79 | a key is applied if it reads back as wanted, failed if it cannot be read, drifted if it reads otherwise |
| Worker.ApplyOK | internal/worker/apply.go:41 | an Apply run is OK if and only if every write was accepted |
| Worker.CheckOK | internal/worker/apply.go:41 | a Check run is OK if and only if every key reads back as wanted |
| Worker.LastWriteStays | internal/worker/apply.go:47-59 | after an Apply, whatever was refused, the last accepted value is the live one, and a key without one is as before |
| Worker.CheckAfterApply | internal/worker/apply.go:41-79 | Check after an Apply that was OK is OK if and only if no key is given two values |
| Worker.ParsedTargetsTrimmed | internal/worker/config.go:67-70 | values that Parse made are trimmed, so only the two-values condition is left |
| Worker.RunScripts | internal/worker/script.go:113-129 | every script runs and is filed by its exit status |
| Worker.RunFilesEachScriptOnce | internal/worker/script.go:113-129 | every script runs, whatever the others do: each name occurrence ends in exactly one list |
| Worker.RunLists | internal/worker/script.go:113-129 | a name is applied if a script of that name exits with zero, failed if one does not, with the default interpreter where none is given |
| Worker.RunWorker | cmd/worker/main.go:68-133 | by name: `apply` writes and succeeds if all writes are accepted, `check` and `script` leave the kernel and succeed if every key reads back or every script exits with zero, any other mode, an unreadable config or a closed gate stops the worker; the report carries the bytes' hash and is sent exactly if there is an address and the server takes it |
| Reconcile.Cluster.ListSelected | internal/controller/scriptprofile_controller.go:322-336 | the selected names as the decision reads them |
| Reconcile.Cluster.Switch | internal/controller/sysctlprofile_controller.go:190-239 | rollout or teardown, then a status write only if something changed |
| Reconcile.Cluster.Reconcile | internal/controller/sysctlprofile_controller.go:112-242 | the whole pass, for any set of failing calls |
| Reconcile.PassIsSafe | internal/controller/scriptprofile_controller.go:85-203 | whatever fails, a pass keeps ownership, ConfigMap before DaemonSet, the ledger and the spec |
| Reconcile.SuccessIsWhole | internal/controller/sysctlprofile_controller.go:112-242 | whatever fails, a pass answers success only if it did all that it does without a failure |
| Reconcile.ForeignIsUntouched | internal/controller/sysctlprofile_controller.go:160-169 | a resource that somebody else controls is never taken over, and the pass fails where it would have to be |
| Reconcile.PassSettles | internal/controller/sysctlprofile_controller.go:156-239 | a pass without failures makes ConfigMap, CronJob, DaemonSet and status what spec, nodes and ledger ask |
| Reconcile.WorkingPassIsFixpoint | internal/controller/sysctlprofile_controller.go:147-239 | repeating a working pass changes nothing and has the same outcome |
| Reconcile.TwoPassesReachFixpoint | internal/controller/sysctlprofile_controller.go:137-149 | from any state a finalizer pass and a working pass are enough; no later pass writes anything |
| Lifecycle.RunKeeps | internal/controller/sysctlprofile_controller.go:122-168 | the finalizer, ownership and ordering invariants hold in every state of every run |
| Lifecycle.FinalizerGuardsResources | internal/controller/sysctlprofile_controller.go:122-145 | in every run a ConfigMap, DaemonSet or CronJob exists only while its owner exists and carries the finalizer |
| Lifecycle.NothingComesBack | internal/controller/sysctlprofile_controller.go:480-503 | once an object is gone no later step re-creates anything it owned |
| Lifecycle.ConfigBeforeDaemonSet | internal/controller/sysctlprofile_controller.go:216-228 | in every run a DaemonSet has its ConfigMap, and its hash is that of a content written before |
| TeardownSoundness.UpsertJustified | internal/server/server.go:186-219 | recording a genuine report keeps every applied entry backed by a worker run |
| TeardownSoundness.TeardownIsSound | internal/controller/sysctlprofile_controller.go:196-215 | in every run a teardown used a non-empty selection, and each node in it had a worker that succeeded on bytes of the spec's hash |
| TeardownSoundness.TeardownHashIsSound | internal/controller/sysctlprofile_controller.go:205 | every committed `teardownHash` belongs to a teardown of that very object with a non-empty selection, each node of which has worker evidence at that hash |
| TeardownSoundness.WorkersRespectTheGate | cmd/worker/main.go:137-141 | no worker acts on bytes other than those its DaemonSet version was made for |
| TeardownSoundness.SysctlEndToEnd | internal/worker/apply.go:47-79 | on every counted node every key of every setting of the spec was written without failure, or read back as wanted |
| TeardownSoundness.ScriptEndToEnd | internal/worker/script.go:113-129 | on every counted node every script of the spec, with its own content and interpreter, exited with zero |
| ReportCommits.ReconcileKeepsLedger | internal/controller/sysctlprofile_controller.go:230-239 | no reconcile call changes the node ledger |
| ReportCommits.NoReportLostOrDoubled | internal/server/server.go:167-182 | in every run the ledger is the fold of the committed reports in commit order; an accepted handler committed exactly once, any other never |
| ReportCommits.MetricMatchesStatus | internal/server/server.go:144-148 | in every run the metric, node by node, is the failing commits but for the uncounted; its sum is `erroredPods` less those |
| Quiescence.QuietIsSettled | internal/controller/sysctlprofile_controller.go:156-239 | in every state at rest, an absent profile leaves nothing; otherwise resources, hash, node count, Ready condition and `teardownHash` are as spec, last listing and ledger ask, and without DaemonSet every node now selected is recorded applied at the current hash |
| Quiescence.DaemonSetCommentIsExact | internal/controller/sysctlprofile_controller.go:190-195 | the comment on the DaemonSet's existence is true of a state at rest if and only if the last pass listed some node and an open listed node implies an open selected one |
| Quiescence.QuietDaemonSetIsExact | internal/controller/sysctlprofile_controller.go:576-586 | at rest with no node deletion seen, the DaemonSet is absent if and only if the rollout is complete |
| Quiescence.DeletionOutlivesNeed | internal/controller/node_predicate.go:44 | deleting the last open node of several selected ones leaves the DaemonSet there, at rest, with the rollout complete |
| TwoNodes.OutlivedIsReachable | internal/controller/node_predicate.go:44 | a run that ends in such a state, for either kind, with one setting or script, and any hash |
| Quiescence.OnlyWorkersWake | internal/controller/sysctlprofile_controller.go:576-586 | at rest only the environment, a worker or a report handler can move |
| Quiescence.StaleHashIsPending | internal/controller/sysctlprofile_controller.go:216-228 | with a DaemonSet whose hash is not the current content's, the profile is queued, a pass runs, or an event of the profile, the ConfigMap or the DaemonSet is on its way that queues it |
| Passes.UndisturbedPass | internal/controller/sysctlprofile_controller.go:112-242 | for any set of failing calls, every sequence of a start and the pass's own calls up to the first failing one, from current caches, leaves what Reconcile leaves in one go, writes only what changed, and queues the key again exactly on an error |
| Passes.PassEnds | internal/controller/sysctlprofile_controller.go:112-242 | every queued pass can be made and ends, whichever calls fail |
| Passes.EveryRound | internal/controller/sysctlprofile_controller.go:576-586 | after every undisturbed pass, whichever calls fail, and the delivery of its events in every order, the profile is queued again exactly if the pass failed or changed something |
| Passes.PutSeesWhatItWrites | internal/controller/sysctlprofile_controller.go:160-164 | a put changes only the version that the cache shows, or creates what is neither there nor cached, and never writes onto a foreign owner |
| Passes.CallWritesCurrent | internal/controller/sysctlprofile_controller.go:234-239 | a pass changes the profile only at the version it read |
| Progress.LiveComesToRest | internal/controller/scriptprofile_controller.go:85-203 | from every reachable state a live profile comes to a settled rest by the system's own steps alone, without a report |
| Completion.RestIsExact | cmd/worker/main.go:104-118 | at rest in any run, the system can complete the rollout on its own if and only if the DaemonSet is gone, or every open node has a pod that has not reported or a success on its way (at most one of them bound to be the next change), or with no node open a report is to come that wakes the reconciler and keeps the rollout complete |
| Completion.QueueingIsExact | internal/controller/sysctlprofile_controller.go:196-228 | the same if the profile may be queued from outside at any time: that replaces only the report that wakes the reconciler |
| Completion.NewVersionRollsOut | internal/controller/sysctlprofile_controller.go:216-228 | from every reachable state whose DaemonSet is not yet the one the profile asks for, the system can roll out, tear down and come to rest on its own |
| TwoNodes.StuckIsReachable | cmd/worker/main.go:104-133 | a run, for either kind and any hash, in which one node refuses once and that ends live, at rest, with the DaemonSet there, the rollout incomplete, no step of the system's own left, and no continuation by own steps and queueing that completes it |
| Progress.DeletionCanFinish | internal/controller/sysctlprofile_controller.go:122-135 | from every reachable state a deletion can be finished by the system's own steps alone, and nothing owned stays |
| Edits.RealEditChangesHash | internal/controller/scriptprofile_controller.go:387-402 | an edit between well-formed lists with different meaning changes the hash |
| Edits.ScriptHashIsExact | internal/controller/scriptprofile_controller.go:387-402 | for well-formed script lists the hash changes if and only if what runs changes |
| Edits.RealEditReopens | internal/controller/scriptprofile_controller.go:157-182 | after a real edit one selected node last recorded at the old hash makes the next pass put the DaemonSet back at the new hash |
| Edits.RestAfterRealEdit | internal/controller/scriptprofile_controller.go:341-357 | the same over whole runs, in every state at rest |
| Edits.RealEditRollsOut | internal/controller/scriptprofile_controller.go:157-182 | in every run, while the DaemonSet is still the old content's or gone, the rollout after a real edit can be completed by the system on its own |

## Left out

- SHA-256 and its truncation to 16 digits: the hash is a parameter, see Hypotheses.
- Bytes and Unicode encoding: texts are sequences of characters.
- JSON decoding, HTTP methods and size limits of the report server; of its validation only the empty
  node name, since a request's profile and namespace select which object the model is about.
- A report routed to one kind while a profile of the other kind has the same name: the model follows
  one profile and the reports of its own workers, and the metric's profile and namespace labels.
- Messages, timestamps, log lines and condition wording; of the Ready condition, reason and generation.
  Result lists hold keys and names without the error texts.
- Pod template details (volumes, mounts, host namespaces, tolerations, image, DNS policy), labels of owned
  objects, UID preconditions on deletes, garbage collection through owner references.
- The drift CronJob's pods and their schedule, see above; Worker covers check mode for any bytes mounted.
- Running `sysctl` or an interpreter and reading the kernel's files: per-key and per-script answers of a `Host`.
- Path cleaning and interface names with dots: keys are canonical.
- Spec fields no code reads (rollout, strategy, reconcile schedule, persistence, interface selector, restore).
- Edits of owned resources by others, foreign finalizers, leader election and configuration of the manager.
- SysctlConf.RenderedInjective: one direction only, because settings that differ in surrounding white space
  render differently although they ask for the same.
- Scheduling fairness: the theorems on continuations say what the system can do on its own, not that it does.
- Replacement of a pod by the cluster (eviction, node reboot, a container killed after its report): such a pod
  would report again. A DaemonSet that stops and again allows a node does start a new pod there in the model.
- The kernel over time: teardown soundness says that a node had applied the content, not that it still
  holds it, since a late worker may have applied other content afterwards.
