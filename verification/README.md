# The failover control protocol, modelled and proved in Dafny

couchbase-health-observer watches a primary Couchbase cluster and, when it stays DOWN long
enough, moves applications to a secondary: it patches every connection-string ConfigMap,
rolls the dependent Deployments, optionally POSTs a webhook, and latches. This project models
that path and proves what whole runs of it do, under any API faults and with the process
allowed to die between any two API requests.

`dafny verify dfyconfig.toml` checks everything.

## How it is laid out

| file | what it holds |
|---|---|
| `Ordering.dfy` | sorting, and listing a set in order (Go's `range` over a map followed by `sort.Strings`) |
| `Kube.dfy` | the API server: ConfigMaps, Deployments, faults; also what the cluster did (roll counts, what pods read when they last started) |
| `Actuator.dfy` | the two-phase fan-out as methods over the API server, and as functions |
| `Fanout.dfy`, `Convergence.dfy`, `Outcomes.dfy` | a declarative reading of one call, what follows from it, and its outcome object by object and key by key |
| `Protocol.dfy`, `RollSafety.dfy`, `Refinement.dfy`, `Honesty.dfy` | the call one request at a time with crashes, the invariant of every run, the proof that a call is such a run, and what stamps and nil errors mean |
| `Handler.dfy` | the event-driven caller |
| `StateMachine.dfy` | the anti-flap machine and its trace definition |
| `Health.dfy`, `Nodes.dfy`, `Detector.dfy` | the verdict, the node pivot, and the laws between them |
| `Notify.dfy` | the webhook retry loop and its time budget |
| `Targets.dfy`, `TargetLaws.dfy` | target lists: parsing, round trip, unpaired namespaces |
| `Loop.dfy`, `LoopLaws.dfy`, `Lives.dfy` | boot, tick, runSwitch; laws of whole runs; sequences of process lives |

An API request is served, refused without effect, or carried out with the reply lost; the
client sees an error in the last two cases. The faults of a call are given per operation and
target. Clock readings, probe rounds, API faults and webhook behaviour are inputs of a tick.

## What the code turns out to guarantee, and what it does not

- **Rolls.** Through any faults, retries, crashes and reboots a Deployment's template changes
  at most once, and exactly once if it started unstamped and some call returned nil
  (`RollsAtMostOnce`, `LivesAreSafe`). Neither needs distinct targets or fresh clock readings.
- **Stale stamps.** A nil error says that the pods read the secondary exactly when no
  Deployment started with a stamp left over from before its pods last started
  (`NilErrorMeansPodsFollow`). Otherwise one failed roll is enough: the retry finds the
  ConfigMap patched and the stamp in place and skips the Deployment (`RewoundExample`). The
  repository's test for a rewound ConfigMap covers only the case where the roll succeeds.
- **Stranded Deployments.** A process that dies after its last patch, before the rolls or
  among them, leaves a state the next boot adopts, and an adopting process never calls the
  actuator: the Deployments not yet rolled stay as they are for its whole life
  (`CrashStrands`, `DyingLifeRuns`, `RollCrashExample`). A restart after a failed roll does
  the same: whatever happened before, a boot whose reads succeed and whose process can act
  strands exactly the Deployments still unstamped when every ConfigMap is on the secondary
  (`StrandedAfterLives`). A process also leaves an unstamped Deployment alone when it could
  not connect to the secondary, when a ConfigMap target of that namespace is missing, when
  its configuration has nothing to act on, and when some critical service is one the probers
  never ping; with adoption these are all the ways there are (`StrandedIff`). The event-driven
  caller has no such boot and does converge (`RecoversFromAnyRun`).
- **Critical services.** `--critical` is neither checked nor trimmed, and only kv, query,
  search and analytics are pinged. Any other name, an empty flag, or a space after a comma
  makes both clusters DOWN at every tick, so every switch is held for good
  (`NeverObservedExamples`).
- **Liveness.** In a process that can act and did not adopt, with every target existing, an
  outage of the delay is enough: the first tick at or past the due time with the secondary up
  and no API fault converges everything, whatever failed in the ticks before
  (`OutageConverges`, `ConvergesInTime`).
- **Unpaired namespaces.** A Deployment in a namespace with no ConfigMap target is stamped
  without any patch, so for it "every ConfigMap target of its namespace" says nothing.
- **Region gauge.** `observer_active_region` follows the latch, not the watched cluster: it
  names another cluster after a dry-run latch and after adopting a switch whose secondary
  could not be connected (`GaugeNamesWatchedIff`, `GaugeStrays`).
- **Negative retries.** The startup budget covers every delivery exactly when `Retries` is not
  negative; a negative count still makes one attempt that the budget does not count
  (`BudgetCoversIff`).
- **Default namespace.** Rendering and re-parsing targets is the identity exactly when the
  default namespace has no comma, no slash and no leading white space (`RoundTripIff`).

Where the code and its own documentation differ the model follows the code: the switch is due
when the outage has lasted *at least* the delay (the top-level README draws it as strictly
more), and the machine latches when told to by the loop, not when a switch is first required
(as the comment on `Switched` says).

## Model

| member | source | states |
|---|---|---|
| Actuator.K8sActuator.Switch | pkg/actuator/k8s.go:48-74 | the server, the "switched" report and the joined errors of a call, under any faults, are those of patching and then rolling with the patch ledger; an empty ConfigMap list fails before anything is touched |
| Actuator.K8sActuator.PatchConfigMaps | pkg/actuator/k8s.go:88-120 | the patch loop leaves exactly the server and ledger of the per-target steps in order |
| Actuator.K8sActuator.RollDeployments | pkg/actuator/k8s.go:125-160 | the roll loop leaves exactly the server, count and errors of the per-target steps in order |
| Outcomes.ConfigMapAfterCall | pkg/actuator/k8s.go:90-118 | a target that was read off the secondary, and whose update was not refused, holds the secondary under the configured key; every other key of it and every other ConfigMap keep their values |
| Outcomes.DeploymentAfterCall | pkg/actuator/k8s.go:128-158 | a Deployment that is sent an update gets the two annotations, restartedAt with the stamp of this call, keeps all others, and restarts once, on the ConfigMaps as the call leaves them, iff its template changed; every other one is left as it was |
| Outcomes.MovedNamespaceRestarts | pkg/actuator/k8s.go:144-151 | a Deployment stamped before restarts too when a ConfigMap of its namespace moved in this call, unless it carries the very stamp of the call |
| Outcomes.ReportOfCall | pkg/actuator/k8s.go:88-160 | for each kind of failure, exactly the targets it is reported for, in terms of the faults and the values held |
| Outcomes.SwitchedMeans | pkg/actuator/k8s.go:57-73 | "switched" iff some readable ConfigMap target was off the secondary and, outside dry run, nothing failed |
| Fanout.PatchMeaning | pkg/actuator/k8s.go:88-120 | after the patch phase precisely the readable ConfigMap targets off the secondary whose update took effect are repointed; failedNS and patchedNS are the namespaces of unconverged and of acknowledged targets; a failure is listed iff its target could not be read, or was off the secondary and its update was not acknowledged; pending is nonzero iff some readable target is off the secondary |
| Fanout.PatchLists | pkg/actuator/k8s.go:90-118 | with distinct targets: exactly one failure per stuck target, in target order, and pending is the number of targets found off the secondary |
| Fanout.RollMeaning | pkg/actuator/k8s.go:125-160 | after the roll phase precisely the Deployments in namespaces without a stuck ConfigMap that were patched in this call or unstamped, and whose update took effect, are restamped; a failure is listed iff its target, in such a namespace, could not be read, or needed a roll that was not acknowledged |
| Fanout.RollLists | pkg/actuator/k8s.go:125-160 | with distinct targets: exactly one failure per such target, in target order, and the roll count is the number of acknowledged rolls |
| Convergence.SwitchMeaning | pkg/actuator/k8s.go:38-74 | the two phases together: final server, exactly which failures are joined, and that "switched" means no error and some ConfigMap was off the secondary |
| Convergence.NilErrorIff | pkg/actuator/k8s.go:72-73 | a call outside dry run returns nil iff no target is stuck in its phase |
| Convergence.ErrorsInOrder | pkg/actuator/k8s.go:72-73 | with distinct targets the joined errors are the patch failures in order and then the roll failures in order |
| Convergence.DryRunWritesNothing | pkg/actuator/k8s.go:43-58 | a dry run leaves the server unchanged and reports a switch exactly when a readable target is pending |
| Convergence.NilErrorConverges | pkg/actuator/k8s.go:38-74 | outside dry run a nil error implies every ConfigMap on the secondary and every Deployment stamped |
| Convergence.FaultFreeConverges | pkg/actuator/k8s.go:14-23 | without faults on existing targets one call converges, returns nil, and says "switched" exactly when a ConfigMap was off the secondary |
| Convergence.CallProgress | pkg/actuator/k8s.go:38-47 | under any faults no target moves back, and a call changes the server iff the number of targets left strictly drops |
| Convergence.Fixpoint | pkg/actuator/k8s.go:14-23 | once converged no call under any faults changes the cluster or reports a switch; without faults it returns nil |
| Convergence.NamespaceIsolation | pkg/actuator/k8s.go:90-158 | what a call does in any namespace depends on that namespace's targets, faults and objects alone, as long as both ConfigMap lists are empty or both are not |
| Convergence.NamespaceAlone | pkg/actuator/k8s.go:38-41 | a call restricted to one namespace's targets does to that namespace what the whole call does |
| Convergence.OrderIrrelevant | pkg/actuator/k8s.go:90-158 | target order and repetition change neither the server, nor the report, nor the set of failures reported |
| RollSafety.RunKeepsInv | pkg/actuator/k8s.go:76-160 | in every run of requests, faults and crashes each Deployment is as it was or rolled exactly once onto a converged namespace that stays converged, each ConfigMap as it was or repointed, and the ledger covers what is not converged |
| RollSafety.NoUpdateIsSent | pkg/actuator/k8s.go:97-118 | from a converged server, and in any dry run, no run is ever about to send an Update, whatever the requests meet |
| Refinement.CallIsRun | pkg/actuator/k8s.go:48-74 | a complete call is a crash-free run of the request-by-request protocol with the same server and result |
| Honesty.RollsAtMostOnce | pkg/actuator/k8s.go:128-158 | over any run a template changes at most once, and exactly once if it started unstamped and a call returned nil |
| Honesty.StampHonesty | pkg/actuator/k8s.go:129-146 | over any run a stamp that was not there at the start means the pods last started with every ConfigMap target of the namespace on the secondary, and they still are |
| Honesty.HonestyKept | pkg/actuator/k8s.go:129-146 | honesty of all stamps is kept by every run |
| Honesty.RecoversFromAnyRun | pkg/actuator/k8s.go:38-41 | after any faults and crashes one fault-free call converges with a nil error |
| Honesty.StaleStampSurvives | pkg/actuator/k8s.go:141-146 | a Deployment stamped at the start is untouched by a failed roll and its retry, although the retry returns nil |
| Honesty.RewoundExample | pkg/actuator/k8s_test.go:331-363 | a concrete rewound ConfigMap for which the retry returns nil and the pods keep reading the primary |
| Honesty.NilErrorMeansPodsFollow | pkg/actuator/k8s.go:14-23 | a nil error implies, on every run, that all pods read the secondary iff every stamp was honest at the start |
| Handler.Handler.Handle | pkg/switchhandler/switchhandler.go:23-42 | one notification: parse errors and other states touch nothing, an ALARM is one call and its error is returned |
| Handler.OnlyAlarmActs | pkg/switchhandler/switchhandler.go:23-42 | the state "ALARM" does what one call does and returns its errors; every other state does nothing; a notification that cannot be parsed is an error and does nothing |
| Handler.MovesAreBounded | pkg/switchhandler/switchhandler.go:20-22 | any sequence of notifications moves the cluster at most once per target left, and a converged cluster never |
| Handler.HandledMeans | pkg/switchhandler/switchhandler.go:20-22 | a notification handled without error either asked for nothing and changed nothing, or left everything on the secondary |
| StateMachine.Machine.Observe | pkg/state/machine.go:37-60 | the new timer state and the decision, and that failback is never requested |
| StateMachine.Machine.MarkSwitched | pkg/state/machine.go:66 | latches and changes nothing else |
| StateMachine.DownSecondsOnTrace | pkg/state/machine.go:70-75 | after any calls the down time runs from the first verdict of the unbroken DOWN suffix of the history, and is 0 iff there is none or it opens now |
| StateMachine.RunTracks | pkg/state/machine.go:37-66 | after any calls the fields describe the history: inDown iff the last verdict was DOWN, firstDownAt the start of the maximal DOWN suffix |
| StateMachine.RunLatched | pkg/state/machine.go:37-66 | after any calls the machine has latched iff it was seeded so or MarkSwitched was called at some point; no verdict unlatches it |
| StateMachine.DecidesOnTrace | pkg/state/machine.go:52-58 | after any calls a switch is requested iff nothing has latched and the maximal DOWN suffix opened at least the delay ago |
| Health.Compute | pkg/svchealth/health.go:15-101 | the loops compute the declarative report, whose meaning is stated by StatusMeans, ServiceMeans and ReasonMeans |
| Detector.StatusMeans | pkg/svchealth/health.go:60-92 | DOWN iff a critical service has no endpoint or a failing one, DEGRADED iff not DOWN and some service has a failing one |
| Detector.ServiceMeans | pkg/svchealth/health.go:20-45 | exactly the services with an endpoint are reported, UP iff none fails, with the number that answered and the sorted hosts that failed, counted in the round |
| Detector.ReasonMeans | pkg/svchealth/health.go:60-98 | the reason: the first critical culprit in configured order when DOWN, the least failing service when DEGRADED, none when UP; its numbers are the failing and all endpoints of that service in the round |
| Nodes.ByNode | pkg/svchealth/node.go:20-51 | one entry per host in sorted order with its sorted reachable and failing services |
| Detector.NodeMeans | pkg/svchealth/node.go:20-48 | each node lists every endpoint of its host as often as the round holds it, by whether it answered, sorted; the hosts strictly increase |
| Detector.HostsMean | pkg/svchealth/node.go:20-80 | the nodes and the host set are those of the probes with a host |
| Ordering.LeIsLexicographic | pkg/svchealth/node.go:42 | the order of every sorted list: the first differing character decides, and a prefix comes first |
| Nodes.NodeSummary | pkg/svchealth/node.go:54-61 | the number of nodes with no failing service, and of all nodes |
| Detector.HealthyMeans | pkg/svchealth/node.go:54-61 | the first number is how many nodes have no failing service |
| Nodes.HostSet | pkg/svchealth/node.go:81-89 | exactly the hosts of the non-placeholder probes |
| Nodes.DiffHosts | pkg/svchealth/node.go:93-107 | the sorted set differences both ways |
| Nodes.DiffReplays | pkg/svchealth/node.go:92-107 | applying the difference to the previous hosts gives the current ones; both lists strictly sorted and disjoint |
| Detector.ReportOrderFree | pkg/svchealth/health.go:52-57 | no permutation of the probes changes anything in the report, chosen reason included |
| Detector.NodesOrderFree | pkg/svchealth/node.go:18-20 | no permutation of the probes changes the node view |
| Detector.FailuresMatch | pkg/svchealth/node.go:20-51 | each failing (service, host) pair occurs equally often in the service rollup and in the node pivot |
| Detector.ReportConservesEndpoints | pkg/svchealth/health.go:20-45 | the endpoints counted over all services are all probes with a host |
| Detector.NodesConserveEndpoints | pkg/svchealth/node.go:20-51 | the endpoints counted over all nodes are all probes with a host |
| Detector.AllHealthyIffNoServiceDown | pkg/svchealth/node.go:54-61 | all nodes count as healthy iff no service is reported DOWN |
| Detector.RecoveryNeverLowers | pkg/svchealth/health.go:30-92 | turning an endpoint OK never lowers the verdict |
| Detector.MoreCriticalNeverRaises | pkg/svchealth/health.go:47-92 | declaring another service critical never raises the verdict |
| Detector.AbsorptionLowersExactly | pkg/svchealth/health.go:62-92 | removing one host's probes lowers the verdict iff it was not DOWN and that host alone carried some critical service |
| Notify.HTTP.Notify | pkg/notify/http.go:72-104 | the result, the attempt numbers sent (1 to the last) and the time spent, including a cancelled wait; a dry run sends nothing |
| Notify.AttemptsMean | pkg/notify/http.go:61-104 | at most max(1, retries + 1) attempts, all but the last retryable failures; nil iff one succeeded; a failure ends the loop only at the last attempt or when not retryable |
| Notify.EndsByCode | pkg/notify/http.go:59-104 | by status code: the attempt the loop ends with and its result; only no answer, 429 and 500 upwards are tried again |
| Notify.FirstReplyDecides | pkg/notify/http.go:59-104 | a 2xx delivers at once; any other code below 500 but 429 fails at once; a cancelled first wait costs at most a second |
| Notify.TransientUsesAll | pkg/notify/http.go:76-104 | failures worth retrying use every attempt |
| Notify.WebhookWorstCase | cmd/svchealthcheck/webhookflags.go:79-85 | the loop computes (r + 1) timeouts plus r(r + 1)/2 seconds |
| Notify.DeliveryWithinBudget | cmd/svchealthcheck/webhookflags.go:75-85 | for retries at least 0 and attempts within the timeout no delivery exceeds the budget, cancelled or not |
| Notify.BudgetAttained | cmd/svchealthcheck/webhookflags.go:75-85 | an endpoint that never answers uses the whole budget |
| Notify.BudgetCoversIff | cmd/svchealthcheck/webhookflags.go:75-85 | the budget covers every endpoint iff retries is not negative |
| Targets.ParseRefs | pkg/actuator/refs.go:24-47 | the loop parses entry by entry and stops at the first malformed one |
| Targets.ParseRefsRequired | pkg/actuator/refs.go:77-86 | additionally rejects an empty list |
| Targets.ParseMeans | pkg/actuator/refs.go:19-47 | parsing succeeds iff every nonblank entry is well formed, and returns the denoted targets at their first occurrences |
| TargetLaws.InvalidNamesFirst | pkg/actuator/refs.go:36-38 | the error names the first malformed entry and its namespace |
| TargetLaws.EntryDenotes | pkg/actuator/refs.go:32-35 | a bare name gets the default namespace, otherwise the first slash separates |
| TargetLaws.TrimIs | pkg/actuator/refs.go:28 | trimming a padded entry gives the entry |
| TargetLaws.TrimSplits | pkg/actuator/refs.go:28 | and every entry is such a padding of what trimming gives |
| TargetLaws.SpacesAre | pkg/actuator/refs.go:28 | the characters trimmed, one by one |
| TargetLaws.JoinSplit | pkg/actuator/refs.go:27 | splitting at commas loses nothing |
| TargetLaws.DenotedMeans | pkg/actuator/refs.go:27-44 | the denoted targets are those of the nonblank entries |
| Targets.FirstsMeans | pkg/actuator/refs.go:40-44 | that list is free of repetitions, has the same elements, and keeps first-occurrence order |
| Targets.ParsedAreTargets | pkg/actuator/refs.go:36-44 | parsed targets are distinct with nonempty parts and no slash in the name |
| TargetLaws.RenderThenParse | pkg/actuator/refs.go:17-47 | under a writable default namespace, parsing the rendered list gives the same targets |
| TargetLaws.BareNameDoesNotReadBack | pkg/actuator/refs.go:32-35 | under any other default namespace the one bare name "x" does not read back |
| TargetLaws.RoundTripIff | pkg/actuator/refs.go:17-47 | the exact condition on the default namespace for the round trip to hold on all lists |
| TargetLaws.UnpairedNamespaces | pkg/actuator/refs.go:55-71 | the method returns the listing of the set difference of the namespaces |
| TargetLaws.UnpairedMeans | pkg/actuator/refs.go:49-54 | that listing is strictly sorted and holds exactly the namespaces with a Deployment and no ConfigMap target |
| Loop.ReconcileAlreadySwitched | cmd/svchealthcheck/main.go:507-524 | the adoption verdict and the ordered list of refs not found on the secondary, every ref read |
| Loop.RunSwitch | cmd/svchealthcheck/switch.go:94-135 | the latch follows the actuator alone when there is one and the webhook otherwise; webhook_dropped exactly when the actuator succeeded and the delivery failed; the webhook is sent either way |
| Loop.ActiveProber.Set | pkg/svchealth/active.go:24-26 | later probes read the new target |
| Loop.ActiveProber.Probe | pkg/svchealth/active.go:28-30 | probes the current target, which must not be the nil secondary prober |
| Loop.Observer.constructor | cmd/svchealthcheck/main.go:226-317 | the state at the first tick after reconciliation and adoption, with the cluster untouched |
| Loop.Observer.FollowSecondary | cmd/svchealthcheck/main.go:302-307 | role, display name, region, prober and baseline move together |
| Loop.Observer.Record | cmd/svchealthcheck/main.go:344-405 | the recording part of a tick: verdict, series, machine, map lines, countdown |
| Loop.Observer.Tick | cmd/svchealthcheck/main.go:343-455 | the whole state and output of a tick |
| Loop.Observer.Switch | cmd/svchealthcheck/main.go:427-436 | a tick's actuation changes the cluster only, as both enabled paths say |
| Loop.Observer.Latch | cmd/svchealthcheck/main.go:437-453 | what a latch moves, and that a dry run keeps the probe target |
| Loop.Observer.Poll | cmd/svchealthcheck/main.go:343-455 | any number of ticks: the state and every output |
| LoopLaws.RunKeepsInv | cmd/svchealthcheck/main.go:343-455 | the invariant of every run: coherence, gauge, timer against history, inDown against the last status, convergence after a latch |
| LoopLaws.WatchesActive | pkg/svchealth/active.go:28-30 | on any run a tick's verdict is that of the round of the cluster the process names as active |
| LoopLaws.SeriesFollowActive | cmd/svchealthcheck/main.go:302-392 | on any run couchbase_up is one series, the active region's, with this verdict, and the baseline is that cluster's hosts; moving to the secondary drops both |
| LoopLaws.TickDecides | cmd/svchealthcheck/main.go:407-453 | on any run: when a tick is due, what it does then, and that it latches iff the secondary is usable and the switch succeeds, on the actuator's word when there is one and otherwise on the webhook's |
| LoopLaws.ActiveTargetCoherent | cmd/svchealthcheck/main.go:292-317 | in every reachable state role, name, label and prober agree, and name the secondary iff the process adopted with a secondary prober or latched outside dry run; no nil prober is installed; couchbase_up has no stale label |
| LoopLaws.GaugeNamesWatchedIff | cmd/svchealthcheck/main.go:270-276 | exactly when active_region names the watched cluster, equal labels included |
| Lives.GaugeStrays | cmd/svchealthcheck/main.go:270-276 | both exceptions are reached: adopting without a secondary prober, and a dry-run latch |
| LoopLaws.TargetNeverReturns | pkg/svchealth/active.go:8-12 | probe targets of a run are the primary, then the secondary |
| LoopLaws.LatchIsFinal | cmd/svchealthcheck/main.go:407-437 | from a latched state, however many ticks follow, the cluster, the latch and the probe target stay as they are |
| LoopLaws.ActsOnlyWhenDue | cmd/svchealthcheck/main.go:364-436 | runSwitch is called only with a secondary, in a process neither adopted nor latched, at the end of an unbroken DOWN window of at least the delay, with the secondary probed non-DOWN in that tick |
| LoopLaws.NeverActsAgain | cmd/svchealthcheck/main.go:407-437 | never after a latch and never in an adopted process |
| LoopLaws.LatchMeansConverged | cmd/svchealthcheck/switch.go:70-79 | with Kubernetes and no dry run, a process that latched left every target on the secondary for good |
| LoopLaws.CountdownOpensWindow | cmd/svchealthcheck/main.go:394-405 | the countdown line appears iff a DOWN window opens in an unlatched process |
| LoopLaws.WebhookCannotMatter | cmd/svchealthcheck/switch.go:70-79 | with Kubernetes enabled, runs that differ only in webhook behaviour have identical states |
| LoopLaws.WebhookOnlyLatch | cmd/svchealthcheck/switch.go:80-81 | without Kubernetes the cluster is untouched and a latch means a delivery |
| LoopLaws.NeverEarly | pkg/state/machine.go:48-58 | a latch comes at least the delay after its DOWN window opened |
| LoopLaws.NeverLate | pkg/state/machine.go:52-58 | with ticks at most g apart and ready conditions from the due time, the latch comes less than g after it |
| LoopLaws.RetriedEveryDueTick | pkg/state/machine.go:62-66 | an unlatched due tick asks again at every DOWN tick, and latches if it can |
| LoopLaws.MapLogReplays | cmd/svchealthcheck/main.go:376-392 | replaying the cluster-map lines gives the hosts of the last round on any run, also across a switch; a kept baseline belongs to the cluster then watched |
| LoopLaws.MapLogMeans | cmd/svchealthcheck/main.go:377-392 | on any run a tick without a baseline logs the whole sorted map of the active cluster, and any other the sorted hosts that came and went since the baseline |
| Lives.AdoptsIff | cmd/svchealthcheck/main.go:497-524 | a boot adopts iff a secondary and targets are configured and every target is readable and on the secondary |
| Lives.ReconcileAgreesWithPatch | cmd/svchealthcheck/main.go:504-524 | the stale list is, in order, the targets the patch phase would count as pending or fail to read |
| Lives.LivesAreOneRun | cmd/svchealthcheck/main.go:226-455 | boots, ticks and deaths at any step of a call, any number of times, act on the cluster as one run of the protocol |
| Lives.UncutLife | cmd/svchealthcheck/main.go:343-455 | a life not cut short leaves what its ticks leave |
| Lives.LivesAreSafe | pkg/actuator/k8s.go:128-158 | over all lives a Deployment is rolled at most once and a new stamp is honest |
| Lives.CrashAfterRolls | pkg/actuator/k8s.go:55-74 | dying between the phases (k = 0) or after k rolls leaves every ConfigMap on the secondary, those k Deployments stamped, and every other one as it was |
| Lives.CrashStrands | cmd/svchealthcheck/main.go:249-261 | after such a death the next boot with readable targets adopts, and no run of it touches a Deployment not yet rolled, stamped before or not |
| Lives.DyingLifeRuns | cmd/svchealthcheck/main.go:343-436 | a process that boots, sees an outage and dies in the call it makes leaves exactly that behind |
| Lives.NeverObservedExamples | cmd/svchealthcheck/main.go:157 | with `index` critical, with an empty flag, or with a space after a comma, no run ever changes the cluster |
| Lives.RollCrashExample | cmd/svchealthcheck/main.go:249-261 | concretely, a process that boots on the primary, sees an outage and dies after the first of two rolls strands the second Deployment |
| Lives.OutageConverges | cmd/svchealthcheck/main.go:407-437 | on any run of a process that did not adopt: at a tick at or past the due time of an unbroken outage, with the secondary up and no API fault in that tick, every target is on the secondary, whatever failed before; and pods read it if stamps were honest at the boot |
| Lives.ConvergesInTime | cmd/svchealthcheck/main.go:407-437 | with ticks at most g apart and such ticks from the due time on, that happens less than g after the due time |
| Lives.StrandedIff | cmd/svchealthcheck/main.go:249-261 | an unstamped Deployment stays untouched through every run of a process, on any rounds the probers can return, iff the configuration cannot act (no Kubernetes actuator, dry run, no ConfigMap targets, no secondary prober, or a critical service that is never pinged), the process adopted, or a ConfigMap target of that namespace is missing |
| Lives.StrandedAfterLives | cmd/svchealthcheck/main.go:249-261 | after any lives and deaths, a boot with readable targets strands exactly the Deployments still unstamped when no ConfigMap is left to patch, the configuration cannot act, or a ConfigMap target of the namespace is missing |

## Left out

- Other writers of the targets, and several observers at once: the observer is the only writer, so an Update never conflicts and an object read is still there when it is written.
- Kube.ApiServer.UpdateDeployment: asks for an existing Deployment, which the Get just before it guarantees under a single writer.
- The liveness window: nothing is claimed about the heartbeat, because a probe makes two timed pings and the startup check counts one.
- Couchbase pings, the Kubernetes client, HTTP transport, JSON, TLS, AWS and Lambda runtime: inputs of the model.
- The injectable clock and backoff hooks: the clock reading and the stamp are inputs; the backoff is the default one.
- 64-bit overflow of durations: durations are unbounded integers.
- Byte strings that are not valid UTF-8: names are sequences of characters.
- Log rendering, header and credential parsing, flag parsing, host and region label trimming: display names and region labels are configuration values, equal labels included.
- Metrics other than the couchbase_up and active_region label sets, and the HTTP health, readiness and liveness handlers.
- Terraform, Helm, manifests and the CloudWatch quorum alarm.
