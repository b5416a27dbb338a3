# Cluster health monitor: the synthetic-resource protocol, verified

The cluster health monitor runs checkers at fixed intervals. The pod startup and API server checkers
create labelled objects in the cluster (pods, claims, storage classes, node pools, ConfigMaps), look at
them and delete them again; leftovers of failed runs are garbage-collected by label and age. API calls may
fail, take effect and still report failure, or come too late. This project models that protocol, the code
that speaks it, and what surrounds it: the scheduler loop, the configuration and its validation, the
building of the schedule, the measurement behind the pod verdict, the DNS checker and the result counters.

## How it is put together

* `Names`, `Results`, `Cluster`: object names, verdicts, the store and what one API call does to it
  (`Serves`): it may work, fail, take effect and lose its answer, or (deletes) be acknowledged while the
  object lingers.
* `Protocol`: which call a run makes at each program point (`Want`) and where the answer leads (`Resume`),
  branch by branch as the two `check` functions do, deferred calls included. `CallStep` is one step.
* `System`: all checkers side by side: any interleaving of their calls, any faults, objects vanishing at
  any time, process restarts. Runs of one checker do not overlap, have the deadline
  min(cancellation, start + timeout), and no call takes effect after it.
* Theorems over all behaviours: `Bounds` (object limits), `Ownership` (who deletes what), `SelfDisable` on top of
  `Leftovers`, `CalmRuns` and `NewNames` (a checker's own leftovers stay below its limits), `References` (no
  dangling references).
* `Stories` tells behaviours step by step, with creation timestamps in whole units. With them four conditions are
  exact: `Maxima` (which checkers can disable themselves), `LimitOfOne` (which by pods), `Pools` (whose node pools
  another checker can take from under a run) and `Slack` (when collection can take an object of a run still going).
* `Verdicts` (whatever the cluster answers: which answer makes a run's verdict, what comes before what, and which
  deletions are tried) and `SyntheticPods` (what the pod mounts and where it may run).
* `Session`, `Collection`, `Csi`, `PodStartup`, `ApiServer`: the checkers' code as imperative methods over a
  client object. Every API method demands that the call be the one `Want` prescribes and records the step, so
  that each `Check` is proved to follow the protocol from its start to `Done` of the verdict it returns.
  `Runs` shows that what such a run did, amid the others' calls, is a stretch of a behaviour of `System`, and
  that so is a whole timetable of runs.
* `Scheduler`: the ticker with its one-slot channel, the loop of one checker, the group of loops.
* `Durations`, `Measure`: Go's duration text and the event-message expression, polling, rounding, the
  verdict and how far it can be from the truth.
* `Config`, `Building`, `Monitor`: validation, schedule building, and the theorems of the protocol stated
  for every accepted configuration.
* `Metrics`, `Dns`, `Accounting`: result counters, the DNS checker, and what the counters hold after any history
  of runs of all checkers.

Times are integers, in nanoseconds. `gran` is the unit of creation timestamps (1: exact): theorems over all
behaviours let a timestamp be earlier by anything less than it, those that exhibit a behaviour round down to it.

Names are kept structured and not as text; `Names.TextInjective` shows that within a kind the text the API
server sees loses nothing. Lower-casing is modelled on ASCII letters. The reads that measure a started pod
are one protocol step, since they change nothing; what they return is an `Observation`.

## Where the code is weaker than one might expect

* A checker is meant never to report a maximum reached because of nothing but its own leftovers.
  `Maxima.DisablesExactly`: given time for enough runs, it can exactly when its limit is at most one, or its runs
  leave storage behind that nothing but age removes, because a CSI type is listed twice or a known one before an
  unknown one, whatever the limit. Validation looks at neither: `Monitor.AcceptedConfigDisables` is an accepted
  configuration with a limit of two. (With an unknown type first a run creates nothing, and a limit of one will do.)
* The startup and TCP timeouts are added in 64 bits: `Config.TimeoutCoversBoth` says acceptance means what it
  should exactly when the sum fits, `Config.OverflowAccepted` gives a configuration accepted otherwise.
* Node pools are collected by label key alone, whatever their age and owner. `Pools.TakesExactly`: a checker can
  take the node pool of another checker's run still going exactly when it provisions nodes and uses the same key.
* Age-based collection goes by truncated timestamps. `Slack.SlackIsExact`: it can take an object of a run still
  within its deadline exactly when the unit is three or more, so that a timestamp can move back by two.
* The comment on `syntheticPodNamePrefix` calls the prefix unique across checkers; names are lower-cased, so
  checkers whose names differ only in case share it, and the timestamp and label tell their objects apart.

## Model

| member | source | states |
|---|---|---|
| Bounds.LimitsHold | pkg/checker/podstartup/podstartup.go:137-165 | In every state of every interleaving, with lost answers, failed, late and lingering deletes and restarts: at most MaxSyntheticPods pods and storage classes, (MaxSyntheticPods+1)*L-1 claims, MaxObjects ConfigMaps under a checker's label, for any CSI list with repeats |
| Bounds.OwnStep | pkg/checker/podstartup/storage.go:240-275 | The step the bounds rest on: a checker's own call keeps the room its program point promises, the limit checks being what opens it |
| Monitor.AcceptedConfigKeepsLimits | cmd/clusterhealthmonitor/main.go:101-119 | The same bounds, in terms of the configuration, for the schedule built from any configuration that validation accepts |
| Monitor.AcceptedConfigStaysEnabled | cmd/clusterhealthmonitor/main.go:101-119 | A checker of an accepted configuration with a limit of at least 2 and, for pods, known CSI types none of them twice, never reports any maximum of its reached, under the assumptions of NeverDisablesItself |
| Monitor.AcceptedConfigDisables | pkg/config/validation.go:105-138 | Validation accepts a configuration with a limit of two whose checker can disable itself, whatever the timestamps' unit: it lists a CSI type twice |
| Monitor.TwoProcessesSpareLiveRuns | cmd/clusterhealthmonitor/main.go:101-119 | Two processes running one accepted configuration collect nothing of each other's runs within their deadlines, up to truncation |
| Monitor.DeployedCheckers | cmd/clusterhealthmonitor/main.go:112-116 | Checkers of an accepted configuration have distinct names, positive limits and intervals, one timeout both as run deadline and as collection age, and the namespace, label key, limits, CSI types, provisioning and startup timeout configured; every scheduled checker that writes to the cluster is among them |
| SelfDisable.NeverAtMaximum | pkg/checker/podstartup/podstartup.go:116-146 | For each of pods, claims, storage classes and ConfigMaps: if one run's objects are below the limit, and in time that kind's collection and final deletion work, its creation does not lose its answer (for storage: works), no run ever reports the kind's maximum, whatever the other checkers and all other calls do |
| Maxima.NeverDisablesItself | pkg/checker/podstartup/storage.go:240-275 | Under the same for each of its kinds, a checker that is not overfull reports no maximum of any kind |
| SelfDisable.LeftoversWhenListed | pkg/checker/podstartup/storage.go:240-275 | Under these conditions a list for a limit check shows every object of the kind that the checker has, and no more than one run makes |
| Maxima.DisablesExactly | pkg/checker/podstartup/podstartup.go:116-146 | For any checker with a timeout of at least 2 ns and 1 ns for each claim its limit allows, and any unit of timestamps: there is a behaviour, prompt throughout, in which a run of it ends with a maximum reached, exactly when it is overfull: its limit is at most one, or its CSI list begins with a known type and repeats one or names an unknown one; but never when that list begins with an unknown type and the limit is positive |
| LimitOfOne.PodLimitExactly | pkg/checker/podstartup/podstartup.go:137-146 | The same for the maximum of pods alone: exactly when the limit is at most one and storage does not keep the checker from listing its pods |
| Ownership.NonInterference | pkg/checker/podstartup/pods.go:17-29 | In a cluster holding anything else beside, whatever a checker deletes, node pools apart, was created by that checker, also for names that differ only in case |
| Ownership.OutsidersStay | pkg/checker/podstartup/pods.go:168-185 | An object not named after a run and without a checker's label is never deleted or changed by any checker |
| Ownership.GcSparesLiveRuns | pkg/checker/podstartup/pods.go:168-184 | Collection, by any number of overlapping processes, deletes an object only after the deadline of the run that made it, up to the truncation of timestamps; strictly after with exact ones, and whenever the timestamp it went by is not before the run |
| Slack.SlackIsExact | pkg/checker/podstartup/pods.go:177 | For a checker whose runs get to create their object: there is a behaviour, timestamps rounded down to the unit, in which one process collects an object of a run of the other that still has time left, exactly when the unit is three or more |
| Slack.BoundReached | pkg/checker/podstartup/pods.go:177 | The bound of GcSparesLiveRuns is tight: for every unit up to the timeout and two there is a behaviour, timestamps rounded down to it, that reaches it |
| Pools.TakesExactly | pkg/checker/podstartup/podstartup.go:228-233 | Given another checker whose runs get to make pools, a checker can delete the pool of such a run within its deadline exactly when it provisions nodes and has the same label key |
| Pools.PoolsTakenByKey | pkg/checker/podstartup/nodepools.go:59-89 | In every behaviour a run's node pool is deleted by that run or by the collection of a provisioning checker with the same key |
| References.PodsIntact | pkg/checker/podstartup/pods.go:37-79 | In every state of a fault-free checker's runs, among arbitrary other checkers, a synthetic pod of the run has one volume and one mount for each supported CSI entry, its claims, all created by the run, all exist, and with provisioning it selects the nodes labelled by the run's own pool |
| References.ClassBeforeClaim | pkg/checker/podstartup/storage.go:147-155 | Whenever a run creates an Azure File claim, that claim names the run's own storage class, and that class exists |
| Names.TextInjective | pkg/checker/podstartup/pods.go:25-32 | Two generated names of one kind read alike exactly when lower-cased checker name, CSI type and timestamp agree |
| Names.PodNamePrefixLowered | pkg/checker/podstartup/pods.go:25-32 | Lower-casing the whole prefix gives the name that lower-casing the checker name gives |
| Protocol.ResumeBelongs | pkg/checker/podstartup/podstartup.go:114-219 | Every answer leads a run from a program point of its own to another |
| Protocol.CreationLabels | pkg/checker/apiserver/api_server.go:132-147 | Everything a checker creates bears its label, except node pools |
| Runs.ClientRunIsBehaviour | pkg/scheduler/scheduler.go:58-63 | The conversation of the modelled code with the cluster, each disturbance being the effect of others' events and its run timestamp a new one, is a stretch of a behaviour of the interleaved system ending in the same store and program point |
| Runs.ClientHeld | pkg/scheduler/scheduler.go:58-63 | Run to its end, the modelled code has held such a conversation with a verdict |
| Runs.TimetableIsBehaviour | pkg/scheduler/scheduler.go:56-71 | The runs of a checker's timetable, each such a conversation amid others, are together a stretch of a behaviour, at rest after each run |
| Runs.TimetableDeadlines | pkg/scheduler/scheduler.go:59 | The deadline the timetable gives a run is the one the system gives it |
| Runs.TimetableKeepsLimits | pkg/scheduler/scheduler.go:56-71 | After any call of any run of a checker's timetable, from a start within limits, every checker is within its limits |
| Collection.CollectGarbage | pkg/checker/podstartup/pods.go:168-185 | One collection pass removes exactly the selected objects that were over age when looked at and whose delete was effective; one failure does not stop the rest; errors are the list's, or exactly the deletes that failed with other than NotFound |
| Collection.CollectItem | pkg/checker/podstartup/storage.go:208-213 | One item is deleted exactly when older than the timeout, its error dropped exactly when NotFound |
| Collection.ProgressStep | pkg/checker/apiserver/api_server.go:160-167 | One more item keeps the account of ages looked at, deletes, store and errors |
| Csi.PodStorage.CreateCsiResources | pkg/checker/podstartup/storage.go:139-166 | Entry by entry, one call for each planned object up to the first that is refused; undisturbed it leaves exactly the starting store and the objects of the calls before that: on success the claim of every type listed, an Azure File one naming the run's own class, which is there too, the others the class of their type; else the objects of the entries before the failing one and its class if its claim failed |
| Csi.PodStorage.DeleteCsiResources | pkg/checker/podstartup/storage.go:168-195 | The same order, one call each, up to the first that fails; undisturbed after a complete creation exactly the rest of what it made remains, and the store it started from if no delete failed |
| Csi.RestRemains | pkg/checker/podstartup/storage.go:168-195 | Taking the first planned objects away leaves exactly the store creation started from and the rest of them |
| Csi.EntryAt | pkg/checker/podstartup/storage.go:140-163 | Where the objects of entry i lie in the order of creation, and that an unsupported type ends it |
| Csi.PlanSplit | pkg/checker/podstartup/storage.go:140-163 | The objects of a CSI list are those of any supported prefix followed by those of the rest |
| PodStartup.PodStartupChecker.Check | pkg/checker/podstartup/podstartup.go:114-219 | One run follows the protocol and ends with the verdict of the one answer that decides (or because a CSI type listed is unsupported); a verdict by measurement is what the observation comes to; undisturbed it leaves exactly the collected store on every exit, except the storage objects made, under the timestamp read, before the entry whose creation failed, and the new node pool after a failed pod creation |
| PodStartup.PodStartupChecker.GarbageCollect | pkg/checker/podstartup/podstartup.go:222-244 | Over all kinds: what is gone is exactly the over-age objects and keyed node pools of the kinds listed whose delete was effective; no error exactly when every list was served and no delete failed |
| PodStartup.PodStartupChecker.DeleteAllKarpenterNodePools | pkg/checker/podstartup/nodepools.go:59-89 | Tries every node pool with the label key, whatever its age; one failure does not stop the rest |
| PodStartup.NextCollectionRemovesPool | pkg/checker/podstartup/nodepools.go:59-89 | A node pool left by an earlier run is gone after the next collection that can list and delete |
| PodStartup.PodStartupChecker.CheckCsiResourceLimit | pkg/checker/podstartup/storage.go:240-275 | Passes exactly when claims are below MaxSyntheticPods times the list's length and, with Azure File enabled, storage classes below MaxSyntheticPods; which of the two is reported; changes nothing |
| PodStartup.PodStartupChecker.GenerateSyntheticPod | pkg/checker/podstartup/pods.go:31-154 | The pod has the volume of the run's claim and its mount for every supported CSI entry, as many as such entries and no other; with provisioning it selects its node by the labels the run's node pool gets |
| PodStartup.PodStartupChecker.ListSyntheticPods | pkg/checker/podstartup/podstartup.go:137-146 | Goes on exactly when the checker's pods are below the limit; a list not served is told from too many |
| PodStartup.PodStartupChecker.ProvisionNode | pkg/checker/podstartup/podstartup.go:150-164 | Skips exactly when the CRD probe is answered NotFound, fails exactly when answered with another error; else goes on exactly when the creation of the pool is neither refused nor its name taken, and then the run's node pool and nothing else is new |
| PodStartup.PodStartupChecker.RunPod | pkg/checker/podstartup/podstartup.go:167-219 | A timeout is reported exactly when creation is answered with it, a creation error for any other refusal or a name taken; otherwise the verdict is what the observation comes to, the pod stays exactly if its delete was not effective, and the delete of the node pool is tried whatever becomes of that |
| PodStartup.LeavesWithoutStorage | pkg/checker/podstartup/podstartup.go:130-134 | The deferred deletion of storage objects leaves what the rest of the run left, against the store without them |
| PodStartup.CollectedStep | pkg/checker/podstartup/podstartup.go:222-244 | One more kind's pass extends the account of the whole collection |
| Verdicts.VerdictDecided | pkg/checker/podstartup/podstartup.go:114-219 | Whatever the cluster answers, a run of either checker ends with a verdict exactly when one of its calls was answered in the way that makes it: each maximum by its own list, each timeout and error by its own call; otherwise only because a CSI type listed is unsupported |
| Verdicts.PodAfterPool | pkg/checker/podstartup/podstartup.go:150-165 | With provisioning a run asks for its pod only right after its node pool was created, labelled as the pod selects its node, and that only right after the CRD was found |
| Verdicts.PodDeletionTried | pkg/checker/podstartup/podstartup.go:172-184 | Whatever the cluster answers, once its pod was created a run asks for the pod's deletion after measuring it, and with provisioning next for that of its node pool, whatever becomes of the first |
| Verdicts.StorageDeletionTried | pkg/checker/podstartup/podstartup.go:130-134 | Whatever the cluster answers, a run that listed its pods ends by deleting the storage objects it made, in order, all of them or up to the first whose deletion fails with other than NotFound |
| ApiServer.ApiServerChecker.Check | pkg/checker/apiserver/api_server.go:66-128 | One run follows the protocol and ends with the verdict of the one answer that decides; undisturbed, its ConfigMap survives exactly when none of the one or two deletes tried on it was effective; when both were tried, Healthy exactly when the first was acknowledged |
| ApiServer.ApiServerChecker.Exercise | pkg/checker/apiserver/api_server.go:93-127 | Read, delete, and delete again on the way out; a read timeout is told from other read errors |
| ApiServer.ApiServerChecker.DeleteConfigMap | pkg/checker/apiserver/api_server.go:116-127 | Healthy exactly when the delete is acknowledged and the ConfigMap there, a timeout told from other errors, NotFound among these |
| ApiServer.ApiServerChecker.CheckMapLimit | pkg/checker/apiserver/api_server.go:75-84 | Goes on exactly when the checker's ConfigMaps are below MaxObjects; a list not served is told from too many |
| Verdicts.HealthyExercised | pkg/checker/apiserver/api_server.go:86-127 | A healthy run has created, read and deleted its ConfigMap, each with success, and then tried to delete it again |
| Verdicts.MapDeletionTried | pkg/checker/apiserver/api_server.go:96-103 | Whatever the cluster answers, once its ConfigMap was created the last call of a run asks for its deletion |
| Scheduler.Ticker.Advance | pkg/scheduler/scheduler.go:46-47 | A tick is waiting exactly when one was or at least one has fallen since: at most one is kept |
| Scheduler.ScheduleChecker | pkg/scheduler/scheduler.go:45-72 | Each run starts at the first tick after the previous start, or at the previous end if later, with deadline min(cancellation, start+timeout); the loop stops only if the next run could not start before cancellation, at the later of cancellation and the last end |
| Scheduler.OneAtATime | pkg/scheduler/scheduler.go:56-71 | Runs of one checker never overlap |
| Scheduler.RunsStartedBy | pkg/scheduler/scheduler.go:46-63 | At most floor((t-t0)/interval) runs have started by t |
| Scheduler.Punctual | pkg/scheduler/scheduler.go:46-63 | If no run outlasts the interval, run n starts exactly at tick n+1 |
| Scheduler.EveryTickServed | pkg/scheduler/scheduler.go:55-71 | If no run outlasts the interval, every tick before cancellation has its run, which starts at that tick |
| Scheduler.Start | pkg/scheduler/scheduler.go:35-43 | Returns once all loops have stopped, each after cancellation and its last run and with every run it could start before; at the time and with the error of one of them; at once and without error exactly when there is nothing to run |
| Scheduler.LateRunsChangeNothing | pkg/scheduler/scheduler.go:58-63 | A run begun after cancellation changes nothing in the store |
| Durations.DurationRoundTrip | pkg/checker/podstartup/podstartup.go:302 | Parsing the text of any whole number of milliseconds gives it back |
| Durations.PullDurationRoundTrip | pkg/checker/podstartup/podstartup.go:294-303 | From a pull message with no parenthesis before it, the parenthesised duration is read back exactly |
| Durations.MessageReading | pkg/checker/podstartup/podstartup.go:294-303 | Any message is read as the duration its leftmost match of the expression captures |
| Durations.MessageUnreadable | pkg/checker/podstartup/podstartup.go:298-301 | A message in which the expression matches nowhere is unreadable |
| Durations.UnitRead | pkg/checker/podstartup/podstartup.go:302 | A number of any of the units is read as so many of it |
| Durations.WordsUnread | pkg/checker/podstartup/podstartup.go:302 | A number followed by any other word is not read |
| Measure.PollCreationToRunning | pkg/checker/podstartup/podstartup.go:247-267 | A duration is that of the first poll showing a running container, by its first running one; none means no poll showed any |
| Measure.DecidingPoll | pkg/checker/podstartup/podstartup.go:247-267 | Whichever poll and container are the first, they decide |
| Measure.GetImagePullDuration | pkg/checker/podstartup/podstartup.go:270-292 | No duration exactly when events were not listed, none speaks of a pull, or the first that does is of a pull and unreadable; else the duration in that first message, or none at all if it says the image was there |
| Measure.RoundIsNearest | pkg/checker/podstartup/podstartup.go:199 | The rounded duration is a whole number of seconds, nearest, ties away from zero |
| Measure.ComparedAccuracy | pkg/checker/podstartup/podstartup.go:198-202 | With the deciding poll showing stamps truncated to seconds and the event the pull time to milliseconds, or the image as present, the compared duration is within -1.5s and +1.501s of the true startup time |
| Measure.Judge | pkg/checker/podstartup/podstartup.go:188-218 | Each verdict by what was observed: whether a container was seen running and why polling ended, what the events tell, the rounded duration against the limit, address and dial; Healthy means the true startup time was below the limit plus 1.5s, too slow that it was above the limit less 1.501s |
| Config.Validate | pkg/config/validation.go:13-34 | No error exactly when the list is non-empty, every checker meets its rules and names are pairwise distinct; problems are reported under the names of exactly the checkers that break a rule; a name is reported exactly when it comes again, and distinct names plus reports add up to the checkers |
| Config.ValidateChecker | pkg/config/validation.go:37-73 | No error exactly when the common and type-specific rules are met; each common rule reported exactly when broken, nested problems exactly when the rules of the checker's own type are, and nothing else |
| Config.ValidateDns | pkg/config/validation.go:76-103 | No error exactly when the DNS rules are met, each reported exactly when broken, and nothing else |
| Config.ValidatePod | pkg/config/validation.go:105-138 | The same for pod startup rules, the timeouts being added in 64 bits and each objection to namespace and label key reported |
| Config.ValidateApi | pkg/config/validation.go:140-168 | The same for API server rules, with each objection to namespace and label key |
| Config.TriedSnoc | pkg/config/validation.go:21-31 | One more checker keeps the account of validity, names seen and duplicates |
| Config.TimeoutCoversBoth | pkg/config/validation.go:118-123 | In an accepted configuration the timeout exceeds startup and TCP timeout together exactly when their sum does not overflow |
| Config.OverflowAccepted | pkg/config/validation.go:118-123 | One hour of timeout is accepted with two timeouts of over 146 years each |
| Building.Registry.BuildCheckerSchedule | cmd/clusterhealthmonitor/main.go:101-119 | The in-order subsequence of checkers not skipped, with their intervals and timeouts, or the first failure that is not a skip. Of an accepted configuration exactly the LocalDNS checkers of nodes known to be without LocalDNS are skipped, and exactly those without clients, in-cluster configuration they need or a readable resolv.conf fail; no builder reads a missing sub-configuration |
| Building.Registry.RegisterCheckers | cmd/clusterhealthmonitor/main.go:121-127 | Every known type gets its builder |
| Building.AcceptedSchedule | pkg/checker/dnscheck/dns_checker.go:41-67 | The same for the whole schedule of an accepted configuration; intervals and timeouts are positive and the checkers' own, names distinct, DNS targets one of the three a run handles |
| Metrics.Counters.RecordResult | pkg/checker/checker.go:49-74 | Exactly one series grows by one: by verdict healthy, unhealthy with its code, unknown for an error, or empty status and code for a skipped run |
| Metrics.Counters.RecordCoreDnsPodResult | pkg/checker/checker.go:79-104 | The same for the results by pod |
| Metrics.IncAllCounts | pkg/checker/checker.go:49-74 | Counting any history on top of any counters, each series grows by its own share and the total by the length |
| Accounting.Process.Accounts | pkg/checker/checker.go:49-104 | After any history of runs of all checkers the run counters sum to the runs that are not by pod, skipped ones included, the pod counters to the named ready endpoints visited by those that are, and each series holds its own share |
| Accounting.HistoryLengths | pkg/checker/dnscheck/dns_checker.go:77-90 | What a history adds: one series for each run not by pod, one pod series for each named ready endpoint of a run by pod, none of either otherwise |
| Accounting.Process.RunPodStartup | pkg/checker/podstartup/podstartup.go:105-108 | One run of the code ends with its verdict, and only that, on record: one more of its series, and no other changed |
| Accounting.Process.RunApiServer | pkg/checker/apiserver/api_server.go:58-61 | The same for the API server checker |
| Accounting.Process.RunDns | pkg/checker/dnscheck/dns_checker.go:77-90 | A run of CoreDNS or LocalDNS puts the verdict of its own check on record and no pod; a run by pod counts its endpoints and no run; any other target nothing |
| Metrics.LabelsTell | pkg/checker/checker.go:60-70 | The labels tell all results apart but the causes of failed runs |
| Dns.GetCoreDnsEndpoints | pkg/checker/dnscheck/dns_checker.go:209-237 | Finds exactly the endpoints not marked unready, an unset mark counting as ready, in order of slice and place; none is reported as not ready, a failing list as such |
| Dns.CheckCoreDns | pkg/checker/dnscheck/dns_checker.go:94-131 | Healthy exactly when the service and every address of the non-empty list of ready endpoints resolve, each at its own query; each other verdict by its own answer, that of the first failing query deciding between timeout and error |
| Dns.CheckLocalDns | pkg/checker/dnscheck/dns_checker.go:135-144 | Healthy exactly when the one lookup resolves, timeout exactly when it times out, else an error |
| Dns.CheckCoreDnsPerPod | pkg/checker/dnscheck/dns_checker.go:147-179 | Visits exactly the ready endpoints with a pod name, in order, each from the query where the one before ended, and counts one result for each by its first failing address, whatever the others answer; nothing without a list |
| Dns.WholeAgreesWithPods | pkg/checker/dnscheck/dns_checker.go:94-188 | If addresses answer alike whenever asked, the service resolves and all endpoints are named, the verdict of the whole check is Healthy exactly when the check by pod makes some counter grow and only healthy ones |
| Dns.FirstFailureAppend | pkg/checker/dnscheck/dns_checker.go:117-126 | The nested walk over endpoints and addresses finds what one walk over the flat list finds |

## Left out

- Kubernetes, Karpenter and dynamic clients, TCP dialling, DNS queries and /etc/resolv.conf: oracles that answer anything; paging, watches and resource versions are not part of this model.
- Azure Policy and metrics-server checks: one call and a few branches each; only their builders and configurations appear.
- YAML parsing, namespace-name and label-key rules: the rules are parameters; the documented limit of 20 checkers and the DNS-label rule for checker names are not enforced by the code and not assumed.
- Prometheus server, logging, signal handling, process exit: plumbing.
- Static fields of pods, claims and storage classes (image, affinity, tolerations, mount options, sizes) and the wording of errors; volume names and mount paths are fixed by the CSI type.
- Ownership.NonInterference: assumes that, to begin with, what is named after a run or bears a checker's label was made by these checkers, that outsiders never write such objects, and that run timestamps are distinct, as the design does; Pools.TakesExactly the same of node pools named after a run.
- Maxima.NeverDisablesItself: leaves out restarts, which can leave any number of objects, and in-time faults in the calls `Leftovers.Dutiful` lists: a refused collection or final deletion, a pod or ConfigMap creation that took effect and reported failure, any failed creation or deletion of storage.
- Maxima.DisablesExactly: says nothing about timeouts shorter than one nanosecond for each claim the limit allows.
- LimitOfOne.PodLimitExactly: its behaviours have nothing taken away from outside, since an outsider who deletes a storage object between two creations lets a CSI type listed twice pass.
- PodStartup.PodStartupChecker.Check: what is left is stated for runs nobody else writes beside; interleaved runs are covered by the theorems over all behaviours. The failure of converting a node pool and of reading a listed pool's name, which need no API call, is not modelled.
- Runs.ClientRunIsBehaviour: each call is taken to be answered when it takes effect.
- Durations.DurationRoundTrip: signs and the rounding of fractions beyond nanoseconds are not modelled; the texts printed have neither.
- Measure.ComparedAccuracy: durations are unbounded integers; the saturation of time differences at 292 years is not modelled.
- Scheduler.Start: the loops share nothing, so they are taken one after the other and the first error is that of the first loop in the list; a loop whose turns run out has not stopped.
- Scheduler.ScheduleChecker: ticks fall exactly at multiples of the interval; clock adjustment is not part of this model.
- Dns.WholeAgreesWithPods: an address resolves or not for the whole run, so that both checks see the same answers; the checks themselves are modelled without that.
- Config.Validate: the joined error is the list of its parts; nested errors keep their checker's name.
