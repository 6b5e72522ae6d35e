# K8sWatch: a verified model of the alert path

K8sWatch agents probe targets and report check results; an aggregator turns them into alerts and an
alert manager walks each alert through its life. Apart from the probes themselves, this path is a set
of in-memory state machines, each behind one mutex. This project models those state machines in Dafny
and proves what they guarantee over whole runs.

Each component has two files. The first holds the component itself: a class whose methods update its
fields in place, loop for loop as the Go code does, each proved against a function on values. The
second, named `...Runs` (or `JsonPathForms`), states the properties of every run of those functions.
A clock reading is a parameter `now`, a request to the outside (a notification, an API call) succeeds
or fails as its parameters say, and Go's map iteration is an arbitrary choice. Where a property of runs
depends on time (storm prevention, the correlation window, the routing cooldown), the clock of the run
never goes back; the lemmas require it as `Clocked`.

`ManagerRuns` and `HandlerCalls` tie the two together: any sequence of calls on one manager, or on one
result handler, follows a run.

| component | files |
|---|---|
| Alert lifecycle: manager, memory store, event logs | `Alerts`, `Store`, `Lifecycle`, `Manager`, `LifecycleRuns`, `ManagerRuns` |
| Notification routing | `Routing`, `RoutingRuns` |
| Alert storm prevention | `StormPrevention`, `StormRuns` |
| Alert decisions and severity | `Alerting`, `AlertingRuns` |
| Node topology and blast radius | `Topology`, `TopologyRuns` |
| Failure correlation window and reports | `Correlation`, `CorrelationRuns` |
| Stream processor | `Processor`, `CounterRuns` |
| Result handler and its AlertEvent objects | `Requests`, `ResultHandler`, `HandlerRuns`, `HandlerReports`, `CounterRuns`, `HandlerCalls` |
| Agent scheduler, as interleaved steps | `Scheduler`, `SchedulerRuns` |
| JSONPath subset of the HTTP checker | `JsonPath`, `JsonPathForms` |

`Common` holds shared vocabulary. `dafny verify dfyconfig.toml` checks everything.

## What the code does not promise

Several plausible claims hold only under a condition. Each is proved with its exact condition, and the
bounds below are reached.

- Within one suppression window a storm group sends at most twice its maximum, one less when each check
  reads the clock once, and never more than the cooldown leaves room for (`window / cooldown + 1`). The
  smaller of the two is reached for every configuration: two epochs can meet in one window, since a check
  that creates a group dates its epoch before its first send (`RateBound`, `CapacityReached`). With the
  default of 3 alerts, 5 and 15 minutes, the cooldown decides and the bound is 4.
- The storm cooldown survives clean-ups exactly when it is not longer than the suppression window by more
  than a clock tick, or nothing is ever sent (`CooldownExact`).
- The threshold of a target depends on map iteration order exactly when two rules set different ones
  (`ThresholdDetermined`).
- Updating a node that changed zones leaves it in its old zone's list; the zone lists are the inverse of
  the node map throughout a run exactly when no update moves a known node (`AlwaysExactly`), and at any
  time exactly when their lengths add up to the node count (`ExactMeansNoSurplus`).
- The decision engine changes its mind before the API is asked and does not change it back, so the
  AlertEvent objects mirror it after a result exactly when the requests for its decision go through
  (`StepMirrorsExactly`). With requests that go through, they do so on all runs exactly when no two sources
  share one of engine key and event target without the other: plain Kubernetes names are safe, an empty
  namespace beside "default" is not (`MirrorExactly`, `PlainNamesSeparated`, `EmptyNamespaceClashes`).
  Creation times must strictly increase: otherwise a resolve may pick an older event of the same time and
  leave the firing one (`ResolvingNeedsTheNewest`).
- An AlertEvent lists the nodes that failed within the time window for a target with a namespace
  (`PublishedNodes`). Without one, failures are recorded under "/name" and looked up under "default/name", so
  the event lists none of them (`EmptyNamespaceListsNothing`).
- The manager changes a cached alert before it asks the store. An operation keeps the cache equal to the
  store exactly when the store is open or the operation will not change a cached alert, and a run keeps it
  so throughout exactly when nothing disturbs a cached alert once the store is closed (`StepCoherent`,
  `RunCoherentExactly`, `AcknowledgingAfterCloseDiverges`).
- A run never has two live alerts of one problem exactly when every clean-up finds at most one that is live
  or whose silence has expired (`TwinsExactly`). Otherwise there is at most one plus one for each silence
  that expired, a bound reached for every number of expiries (`LiveAlertsBounded`, `BoundIsReached`); and
  the alert that deduplication finds depends on map order exactly then (`DuplicateIsUnique`).
- Restricting a rule to teams keeps other alerts out exactly when they carry a label map
  (`TeamsNeedLabels`).
- A JSONPath reads back as the steps it was printed from exactly when its keys avoid dots and
  misleading brackets, its indexes fit and it does not end in white space (`PrintReadsBack`); no path
  sees what an object holds under an empty key (`NoPathSeesTheEmptyKey`).
- `DetectPattern` panics exactly on an empty window with a minimum that is not positive; report generation
  never asks it then (`DetectPattern`, `GenerateReport`).
- The 30 % in the comment on cluster-wide failures is only the default: the code compares with the
  configured threshold, and in spite of the truncated division the comparison is exact (`ClusterExactly`).

## Model

| member | source | states |
|---|---|---|
| Manager.Manager.CreateAlert | internal/alertmanager/manager.go:130-186 | A new alert that repeats a live cached one refreshes it in cache and store and is not announced; otherwise store, cache, event log and history all gain it under its fresh ID, and the router is asked exactly once; no cell but the one handed over joins the cache |
| Manager.Manager.ResolveAlert | internal/alertmanager/manager.go:189-234 | The error (unknown, already resolved, store failure) and the whole new state of cache, store, logs and history, with the cell written even when the store refuses |
| Manager.Manager.AcknowledgeAlert | internal/alertmanager/manager.go:237-283 | Only firing alerts are acknowledged; the whole new state and error as for resolving |
| Manager.Manager.SilenceAlert | internal/alertmanager/manager.go:286-336 | Any alert, resolved ones included, is silenced until now plus the duration; a duration that does not parse changes nothing |
| Manager.Manager.GetAlert | internal/alertmanager/manager.go:364-376 | The lookup is the cache first, then an open store; a cached ID yields the cached cell itself, a stored one a fresh copy |
| Manager.Manager.FindSimilarAlert | internal/alertmanager/manager.go:379-392 | Whatever the map order, an alert that is found is live and agrees on target name, namespace, layer and code; when none is found, no live cached alert agrees on all four |
| Manager.Manager.AddHistory | internal/alertmanager/manager.go:412-419 | The history is the last 1000 of the old history and the event |
| Manager.Manager.Cleanup | internal/alertmanager/manager.go:446-474 | The two in-place passes together drop exactly the old resolved alerts from the cache only and wake exactly the silences found expired, each by the clock as read at that alert, in cache and open store, with no event written and no cell exchanged |
| Manager.Manager.CellsApart | internal/alertmanager/store.go:249-273 | No cached cell is a cell of the store, and two IDs never share a cached cell |
| Manager.Manager.Stop | internal/alertmanager/manager.go:121-126 | Only the store changes, which is closed from then on |
| ManagerRuns.NewManager | internal/alertmanager/manager.go:86-105 | A manager without a given store starts with an empty one of its own and an empty cache |
| ManagerRuns.Perform | internal/alertmanager/manager.go:121-474 | Any sequence of creating, acknowledging, resolving, silencing, cleaning up and stopping on a new manager is a legal run of the lifecycle and leads where that run does; as long as it is not stopped, every cached cell equals a stored one and is another object |
| ManagerRuns.Separate | internal/alertmanager/store.go:249-273 | A manager that has followed an open run has a separate stored cell of the same value for each cached one |
| LifecycleRuns.StepCoherent | internal/alertmanager/manager.go:130-336 | From a coherent state any operation keeps every cached alert equal to the stored one if and only if the store is open or, judged before the call, the operation will not change a cached alert |
| LifecycleRuns.RunCoherentExactly | internal/alertmanager/manager.go:130-376 | A run keeps cache and store equal throughout if and only if no operation on the closed store is one that changes a cached alert |
| LifecycleRuns.RunCoherent | internal/alertmanager/manager.go:130-376 | On every run with the store open, cached IDs are stored IDs with equal values and the manager's lookup of any ID is the store's |
| LifecycleRuns.AcknowledgingAfterCloseDiverges | internal/alertmanager/manager.go:253-262 | Once the store is closed, acknowledging any cached firing alert breaks the equality |
| LifecycleRuns.RequestsFail | internal/alertmanager/manager.go:189-305 | A request fails as unknown, not firing, already resolved or badly timed exactly when the alert is not to be found, its status or the duration says so; it succeeds only on an open store that has the alert |
| LifecycleRuns.RequestWrites | internal/alertmanager/manager.go:189-336 | Acknowledging, resolving and silencing set exactly their own fields, times and users of the one alert, alike in cache and store |
| LifecycleRuns.RequestTells | internal/alertmanager/manager.go:215-330 | The event of a request names the alert, its state before and after, the reason, the user and the time, in the log of that alert |
| LifecycleRuns.CreationWrites | internal/alertmanager/manager.go:160-186 | A new alert fires now, with its cause and failure count taken over and no notifications, and its log gains the event of its firing |
| LifecycleRuns.RepetitionWrites | internal/alertmanager/manager.go:143-158 | A repeated alert refreshes the time and the failure count of the live one and nothing else |
| LifecycleRuns.CleanupWrites | internal/alertmanager/manager.go:446-474 | What a clean-up does to one cached alert in its fields, by the clock as read at that alert |
| LifecycleRuns.SilenceLasts | internal/alertmanager/manager.go:286-309 | A silence given at some time for some duration ends at the first clean-up that sees the alert later than both together, and not before |
| LifecycleRuns.ResolvedIsForgotten | internal/alertmanager/manager.go:450-459 | A resolved alert leaves the cache at the first clean-up later than the retention, and stays in the store |
| LifecycleRuns.SameProblem | internal/alertmanager/manager.go:379-392 | Two alerts have the same deduplication key if and only if target name, target namespace, layer and code agree |
| LifecycleRuns.SimilarAlerts | internal/alertmanager/manager.go:379-392 | The alerts a new one would repeat are the cached ones that are neither resolved nor silenced and agree on these four |
| LifecycleRuns.RunReplays | internal/alertmanager/manager.go:161-330 | On every run, closed store included, each stored alert's log starts with its firing, is a chain of states in which only a silence may give way to firing, and leads to the alert's current status |
| LifecycleRuns.StepLogs | internal/alertmanager/manager.go:412-419 | An operation emits at most one event, and what it emits is what it appends to both the history and the store's log |
| LifecycleRuns.HistoryIsWindow | internal/alertmanager/manager.go:412-419 | On every run the history is the last 1000 of all emitted events, and each log is everything emitted about its alert |
| LifecycleRuns.HistoryIsSuffixOfLog | internal/alertmanager/manager.go:412-419 | What the history remembers about an alert is a suffix of its stored log |
| LifecycleRuns.LiveAlertsBounded | internal/alertmanager/manager.go:143-158 | On every run the live cached alerts of one target, layer and code are at most one plus the number of its silences that expired |
| LifecycleRuns.CleanupLive | internal/alertmanager/manager.go:446-474 | A clean-up adds to the live alerts of a problem exactly those whose silences expired, and these were not live before |
| LifecycleRuns.TwinsExactly | internal/alertmanager/manager.go:143-158 | On a run no two alerts of a problem are ever live at once if and only if every clean-up finds at most one that is live or has an expired silence |
| LifecycleRuns.WithoutExpiriesNoTwins | internal/alertmanager/manager.go:143-158 | Runs on which no silence of a problem expires never have two live alerts of it |
| LifecycleRuns.RequestLive | internal/alertmanager/manager.go:189-336 | No acknowledging, silencing or resolving, of any alert in any order, makes a cached alert live that was not |
| LifecycleRuns.DuplicateIsUnique | internal/alertmanager/manager.go:379-392 | The alert that deduplication finds is independent of map order if and only if at most one of its problem is live |
| LifecycleRuns.BoundIsReached | internal/alertmanager/manager.go:143-158 | For every number of expiries some run ends with that many live alerts of one problem and one more |
| Store.MemoryStore.Create | internal/alertmanager/store.go:43-58 | Fails on a closed store or a known ID; otherwise exactly that ID gains the value, in a cell of the store's own |
| Store.MemoryStore.Update | internal/alertmanager/store.go:61-75 | Fails on a closed store or an unknown ID; otherwise exactly that ID changes |
| Store.MemoryStore.Get | internal/alertmanager/store.go:78-92 | Returns a fresh cell with the stored value, so callers never hold a stored cell |
| Store.MemoryStore.List | internal/alertmanager/store.go:95-132 | The page is the front of an arrangement of exactly the matching alerts, newest first, with the full match count and as long as the limit, 50 by default, allows |
| Store.PageIsNewest | internal/alertmanager/store.go:112-131 | Every returned alert matches, none repeats, the order is newest first, and no match left out is newer than a returned one |
| Store.MemoryStore.MatchesFilter | internal/alertmanager/store.go:193-246 | The sequence of early returns decides whether status, severity, target name, namespace, radius and the firing period, each if set, all agree |
| Store.MemoryStore.CopyAlert | internal/alertmanager/store.go:249-273 | The copy is a new object with the same value |
| Store.MemoryStore.CreateEvent | internal/alertmanager/store.go:153-163 | Appends to the log of the event's alert and to no other, unless closed |
| Store.MemoryStore.Delete | internal/alertmanager/store.go:135-150 | Removes the alert together with its log, or nothing at all |
| Routing.Router.Route | internal/alertmanager/routing.go:125-164 | The attempts made, in order, and the cooldown table afterwards, which only rule-based routing touches |
| Routing.Router.FindMatchingRules | internal/alertmanager/routing.go:179-189 | The matching rules, in the order in which they were added |
| Routing.Router.MatchesRule | internal/alertmanager/routing.go:192-256 | The found-flag loops decide whether severity, namespace, radius and team are among the listed ones, each if any is listed; a team restriction is void for alerts without labels |
| Routing.Router.SendWithRetry | internal/alertmanager/routing.go:289-302 | The number of attempts on one channel, and success exactly when the last of them succeeded |
| RoutingRuns.MatchingIsFilter | internal/alertmanager/routing.go:179-189 | A rule is among the matching ones if and only if it matches, each once, in rule order |
| RoutingRuns.TeamsNeedLabels | internal/alertmanager/routing.go:237-253 | For an alert that a rule otherwise allows, matching implies carrying one of the rule's teams if and only if the alert has a label map |
| RoutingRuns.ChannelsOfRules | internal/alertmanager/routing.go:143-158 | The channels used are those of the matching rules up to and including the first that does not continue |
| RoutingRuns.TriesAreTried | internal/alertmanager/routing.go:292-299 | A channel is attempted until its first success and at most MaxRetries times, never fewer |
| RoutingRuns.RuleRoutedAttempts | internal/alertmanager/routing.go:125-164 | The whole trace of a rule-routed alert: one block of attempts per registered channel of the rules used, in order |
| RoutingRuns.DefaultRoutedAttempts | internal/alertmanager/routing.go:259-286 | The whole trace of an alert no rule matches: blocks of attempts on pagerduty and slack if it is critical, on slack alone otherwise, as far as registered |
| RoutingRuns.CooldownSpacing | internal/alertmanager/routing.go:129-161 | On every run whose clock never goes back, any dispatch after a rule-routed one with the same key starts at least the cooldown after that one ended |
| RoutingRuns.DispatchedExactly | internal/alertmanager/routing.go:129-161 | On every run whose clock never goes back, a call gets past the cooldown if and only if all earlier rule-routed dispatches with its key ended at least the cooldown before |
| RoutingRuns.CooldownsAreSeparate | internal/alertmanager/routing.go:129-131 | With colon-free namespaces and names, alerts share a cooldown if and only if namespace, name and failure code agree |
| RoutingRuns.DefaultRoutingNeverCools | internal/alertmanager/routing.go:137-140 | A call is not held back when no earlier call with its cooldown key was rule-routed |
| StormPrevention.AlertStormPreventer.ShouldSendAlert | internal/aggregator/storm_prevention.go:85-140 | The verdict and the whole new state of all groups, with the two clock readings of the call apart |
| StormPrevention.AlertStormPreventer.MakeGroupKey | internal/aggregator/storm_prevention.go:143-163 | The loop builds the key of the configured fields |
| StormPrevention.AlertStormPreventer.CleanupExpiredGroups | internal/aggregator/storm_prevention.go:231-251 | Exactly the groups without a recent send are gone, groups that never sent among them, and the result counts them |
| StormRuns.RateBound | internal/aggregator/storm_prevention.go:106-139 | No interval as long as the suppression window holds more sends of one group than twice the maximum, or one less when checks read the clock once, nor more than the cooldown leaves room for, across any mix of checks, clean-ups and resets of other groups |
| StormRuns.CapacityReached | internal/aggregator/storm_prevention.go:93-139 | For every configuration, and with either way of reading the clock, some run fills a window with exactly that many sends |
| StormRuns.GapKept | internal/aggregator/storm_prevention.go:120-137 | Whatever the configuration, on a run whose clock never goes back consecutive sends of a group are apart by the cooldown or by more than a window |
| StormRuns.RunKeepsInv | internal/aggregator/storm_prevention.go:85-140 | In every reachable state the sends counted by a group are the latest ones, they belong to the epoch that opened at its first-alert time, and older epochs lie more than a window back |
| StormRuns.CooldownSpacing | internal/aggregator/storm_prevention.go:120-137 | Consecutive sends of a group are at least the cooldown apart, across suppressions, and across clean-ups when the window allows |
| StormRuns.CooldownExact | internal/aggregator/storm_prevention.go:231-251 | Every run keeps the spacing if and only if the cooldown is at most a tick longer than the window or nothing is ever sent |
| StormRuns.CountsMatchTargets | internal/aggregator/storm_prevention.go:134-137 | On every run, resets included, the alert count is the number of recorded targets and never exceeds the maximum |
| StormRuns.TargetsAreTheLatestSent | internal/aggregator/storm_prevention.go:106-137 | On every run, resets included, a group lists the targets of its latest sends, in order, as many as its count |
| StormRuns.CleanupKeepsRecent | internal/aggregator/storm_prevention.go:231-251 | A clean-up keeps exactly the groups that sent within the suppression window, unchanged |
| StormRuns.GroupsAreSeparate | internal/aggregator/storm_prevention.go:143-163 | With the default grouping, slash-free namespaces and layers share a group if and only if they agree or both lack a name |
| StormRuns.KeysJoinKnownFields | internal/aggregator/storm_prevention.go:143-163 | For every configured list of fields, an alert with a namespace and a layer is grouped by the values of the known fields joined by slashes, and unknown fields are ignored |
| Alerting.AlertDecisionEngine.ProcessResult | internal/aggregator/alerting.go:86-157 | The decision and the whole new state, for a threshold some iteration over the rules can find |
| Alerting.AlertDecisionEngine.LookUpThreshold | internal/aggregator/alerting.go:160-183 | Whatever the map order, the result is a positive threshold of some rule, or the default when no rule has one |
| Alerting.ThresholdDetermined | internal/aggregator/alerting.go:160-183 | The lookup is independent of map order if and only if all positive rule thresholds agree |
| Alerting.AlertDecisionEngine.GetStats | internal/aggregator/alerting.go:278-294 | The counts are the sizes of the state map, of its alerting part and of the rule map |
| Alerting.SeverityMonotone | internal/aggregator/alerting.go:234-275 | A wider radius never lowers the severity, and critical has exactly three causes: layer L1 or L2, more than one node, priority P0 or P1 |
| AlertingRuns.CountersAreTrailingRuns | internal/aggregator/alerting.go:100-134 | For every history, whatever the thresholds did, the counters are the lengths of the trailing runs of failures and successes |
| AlertingRuns.SignalsAlternate | internal/aggregator/alerting.go:86-157 | Alerts and resolves of a target strictly alternate, beginning with an alert, while rules change freely |
| AlertingRuns.AlertingCountConserved | internal/aggregator/alerting.go:278-294 | The number of alerting targets is all alerts so far minus all resolves so far |
| AlertingRuns.AlertingIsHysteresis | internal/aggregator/alerting.go:100-157 | When every threshold consulted for a target was the same, the alerting flag is true exactly when the history holds a failure run of the one length with no success run of the other after it |
| AlertingRuns.AgreeingRulesGiveHysteresis | internal/aggregator/alerting.go:86-183 | While rules whose positive thresholds agree stay in force, a target is alerting exactly by the hysteresis of the thresholds they give, in whatever order they are looked up |
| AlertingRuns.DefaultsGiveHysteresis | internal/aggregator/alerting.go:160-183 | Without rules, the default number of failures raises the alert and the default number of recoveries resolves it, on every run |
| AlertingRuns.OneRuleGivesHysteresis | internal/aggregator/alerting.go:160-183 | With one rule that sets both, its consecutive failures raise the alert and its consecutive successes resolve it |
| AlertingRuns.TargetRemembers | internal/aggregator/alerting.go:100-140 | On every run a target holds the time of its last success, the time, code and layer of its last failure, and the time of its last alert |
| AlertingRuns.HysteresisOnSuccess | internal/aggregator/alerting.go:105-122 | A success ends the hysteresis exactly when it completes a recovery run |
| AlertingRuns.HysteresisOnFailure | internal/aggregator/alerting.go:138-150 | A failure starts it exactly when it completes a failure run |
| AlertingRuns.SignalsAtTheThreshold | internal/aggregator/alerting.go:105-150 | An alert fires exactly on the result that brings a quiet target's failure run to the threshold, a resolve on the one that brings an alerting target's success run to its threshold |
| Topology.TopologyAnalyzer.UpdateNode | internal/aggregator/topology.go:70-102 | The three maps change together; a node joins its zone's list once and leaves no other |
| Topology.TopologyAnalyzer.RemoveNode | internal/aggregator/topology.go:105-126 | The in-place deletion removes the first occurrence, and an emptied zone goes away |
| Topology.TopologyAnalyzer.ClassifyBlastRadius | internal/aggregator/topology.go:164-203 | The loop computes the set of affected zones, and the radius follows from its size and the number of listed nodes |
| TopologyRuns.RunKeepsInv | internal/aggregator/topology.go:70-126 | On every run the node and zone maps have the same keys, zone lists are non-empty without repetition, and every node is in its zone's list |
| TopologyRuns.ZonesAreRegistered | internal/aggregator/topology.go:70-102 | On every run a node is known exactly since its last update, with the labels it had then, in the zone of its topology label, else of its legacy label, else unknown |
| TopologyRuns.UpdateKeepsExact | internal/aggregator/topology.go:88-101 | An update keeps the lists an exact inverse if and only if it does not move a known node |
| TopologyRuns.AlwaysExactly | internal/aggregator/topology.go:70-126 | The lists are the exact inverse after every operation of a run if and only if no update of the run moves a known node |
| TopologyRuns.RunKeepsExact | internal/aggregator/topology.go:70-126 | Runs that move nodes only by removing them first keep the exact inverse, and the list lengths add up to the node count |
| TopologyRuns.ExactMeansNoSurplus | internal/aggregator/topology.go:70-126 | The list lengths add up to at least the node count, with equality if and only if the index is exact |
| TopologyRuns.ClusterExactly | internal/aggregator/topology.go:186-194 | For every threshold, negative ones included, a failure is cluster-wide exactly when several zones are hit and either a hundred times the count exceeds threshold times nodes or all zones are hit |
| TopologyRuns.ClusterInNodes | internal/aggregator/topology.go:164-194 | The same for reachable indexes in terms of the nodes: two of the listed nodes are in different zones, and the list exceeds the percentage or reaches into every zone |
| TopologyRuns.NodeExactly | internal/aggregator/topology.go:164-203 | The radius is a single node if and only if at most one node is listed or none is known at all; so zone-wide is everything between |
| TopologyRuns.ClassifyMonotone | internal/aggregator/topology.go:164-203 | On any reachable index, more failing nodes never narrow the radius |
| TopologyRuns.ClassifyIgnoresOrder | internal/aggregator/topology.go:164-203 | The order of the affected nodes is irrelevant |
| TopologyRuns.SeverityNeverDrops | internal/aggregator/alerting.go:234-259 | On every run, for every threshold, layer and criticality, more failing nodes never lower the severity |
| Correlation.CorrelationEngine.RecordFailure | internal/aggregator/correlation.go:71-104 | The target's window becomes the recent part of itself and the new failure; successes and other windows are untouched |
| Correlation.CorrelationEngine.GetAffectedNodes | internal/aggregator/correlation.go:115-130 | Each failing node of the window is listed exactly once, in any order |
| Correlation.CorrelationEngine.DetectPattern | internal/aggregator/correlation.go:133-204 | However the maps iterate, the pattern depends only on the window and the topology, with the network mode deciding before anything else; the index panic happens exactly on an empty window without a positive minimum |
| Correlation.CorrelationEngine.GenerateReport | internal/aggregator/correlation.go:207-253 | No report exactly for an empty window; otherwise the report lists each node and each named zone once, with the radius, pattern and earliest time of the window |
| CorrelationRuns.WindowIsFilter | internal/aggregator/correlation.go:87-103 | On every run whose clock never goes back, the incrementally cleaned window is the full record since the last clear filtered with the latest cutoff |
| CorrelationRuns.WindowIsSuffix | internal/aggregator/correlation.go:87-103 | On such a run it is a suffix of that record, and what was cut is exactly what is too old |
| CorrelationRuns.RecentTwice | internal/aggregator/correlation.go:92-104 | Cleaning before and after an append is cleaning once |
| CorrelationRuns.ReportStartsAtFirst | internal/aggregator/correlation.go:235-241 | The minimum search over a run's window always returns the time of its first failure |
| CorrelationRuns.RadiusOnlyGrows | internal/aggregator/correlation.go:71-104 | While nothing expires, one more failure never narrows the reported radius |
| CorrelationRuns.PatternExactly | internal/aggregator/correlation.go:133-204 | Each pattern if and only if its condition in the fields of the failures holds: which network perspectives fail, how many nodes, with how many codes, how far they spread |
| CorrelationRuns.ReportLists | internal/aggregator/correlation.go:207-253 | A report lists every failing node and every named zone of these once, with the radius of its own list and the layer of the first failure |
| Processor.StreamProcessor.ProcessResult | internal/aggregator/processor.go:109-179 | The target's and the reporting agent's counters, their times as read separately, and the health after a result; all other targets and agents stay as they were |
| Processor.StreamProcessor.CleanupExpiredStates | internal/aggregator/processor.go:250-269 | Exactly the stale targets are gone, and the result counts them |
| Processor.StreamProcessor.GetStats | internal/aggregator/processor.go:272-294 | Healthy, degraded and unhealthy add up to the number of targets |
| CounterRuns.HealthFollowsStreaks | internal/aggregator/processor.go:124-138 | In every reachable state a target is unhealthy exactly in a failure streak and healthy otherwise, and exactly one of its streaks is zero |
| CounterRuns.NoneDegraded | internal/aggregator/processor.go:272-294 | On every run the degraded count is 0 |
| CounterRuns.ProcessorCountsSuffix | internal/aggregator/processor.go:124-138 | The processor's streaks are the trailing runs of the results since it last dropped the target |
| CounterRuns.TargetRemembers | internal/aggregator/processor.go:109-152 | On every run a known target holds the times of its last success and failure, the code and layer of that failure, and the type of the first result, since it was last dropped |
| CounterRuns.ExpiresByLastResult | internal/aggregator/processor.go:250-269 | On every run a target is dropped exactly by a clean-up that comes later than the expiration after its last result |
| CounterRuns.StreaksAgree | cmd/aggregator/main.go:454-473 | On every run of results and clean-ups the processor's streak is the engine's, capped by the results since the target was dropped; so it never exceeds it, and equals it if nothing was dropped or once both outcomes were seen |
| CounterRuns.TotalAfter | internal/aggregator/processor.go:155-179 | A result moves the sum of the agents' streaks by exactly the change of the reporting agent's |
| CounterRuns.AgentsCoverTarget | internal/aggregator/processor.go:109-179 | In every reachable state the agents' streaks add up to at least the target's, for failures and for successes |
| CounterRuns.AgentsCountTheirReports | internal/aggregator/processor.go:155-179 | On every run exactly the agents that reported on a target since it was dropped have an entry, with the trailing runs, times and codes of their own reports |
| ResultHandler.ResultHandler.HandleResult | cmd/aggregator/main.go:454-491 | One result drives processor, window, decision engine and API server to their exact next states, each with its own reading of the clock; known targets keep their state objects and new ones get new objects, the threshold is one the rules in force can give, the rules stay, and the call fails exactly when a request it needs fails |
| ResultHandler.ResultHandler.UpsertAlertEvent | cmd/aggregator/main.go:493-561 | A firing event of the target's window with its spread and severity is created under a new name, or the latest one resolved |
| ResultHandler.ResultHandler.ResolveLatestAlertEvent | cmd/aggregator/main.go:563-605 | Among the target's events one with the latest creation time is resolved unless it is already, and no other changes |
| ResultHandler.ResultHandler.Newest | cmd/aggregator/main.go:578-583 | The scan returns an item no other is newer than |
| HandlerRuns.StepMirrorsExactly | cmd/aggregator/main.go:475-605 | A handled result keeps the mirror of its target, and succeeds, if and only if its requests go through: for an alert an accepted create under a free name, for a resolve a list and an update |
| HandlerRuns.ResolvingNeedsTheNewest | cmd/aggregator/main.go:578-605 | Resolving a target with one firing event is sure to leave none firing if and only if its other events were all created before that one |
| HandlerRuns.RunMirrors | cmd/aggregator/main.go:454-605 | On every sequential run a target has exactly one firing event, newer than all its resolved ones, while the engine has it alerting, and none otherwise |
| HandlerRuns.MirrorExactly | cmd/aggregator/main.go:497-504 | All runs over a set of sources keep the mirror if and only if two of them share an engine key exactly when they share their events |
| HandlerRuns.PlainNamesSeparated | cmd/aggregator/main.go:497-504 | Non-empty namespaces without slashes always satisfy that condition |
| HandlerRuns.EmptyNamespaceClashes | cmd/aggregator/main.go:498-501 | An empty namespace and "default" never do |
| HandlerReports.WindowsAreRecords | cmd/aggregator/main.go:460-464 | On every run the failure windows are those the correlation engine has after one record for each failed result, under its namespace and name, and none for a success |
| HandlerReports.PublishedNodes | cmd/aggregator/main.go:493-561 | On every run whose clock never goes back, an alert for a target with a namespace creates one firing object that lists exactly the nodes that reported a failure of it within the time window, with the radius of that list and the severity of both |
| HandlerReports.EmptyNamespaceListsNothing | cmd/aggregator/main.go:497-511 | The alert of a target without a namespace lists no nodes unless a target of its name in "default" fails: failures are recorded under another key than the report asks for |
| HandlerReports.ResolvedInPlace | cmd/aggregator/main.go:585-602 | Resolving writes status, time and resolver into the one firing event of the target, and nothing else |
| HandlerReports.NamesAreSanitized | cmd/aggregator/main.go:607-612 | Object names turn capitals into small letters and slashes and underscores into dashes, and keep every other character |
| HandlerReports.EngineSeesSuccesses | cmd/aggregator/main.go:466-473 | On every run the history that decides about a target is the outcomes of its own results, in order |
| HandlerReports.EngineIsTold | cmd/aggregator/main.go:466-473 | The engine is given the outcome, code and layer of the result under its namespace and name |
| HandlerCalls.CallAll | cmd/aggregator/main.go:454-605 | Any sequence of results and processor clean-ups on a new handler, with increasing server timestamps, is a legal run up to the first result whose requests fail; if none fails, all four components are where the run leads and the AlertEvents of all separated sources mirror the engine |
| HandlerCalls.MovesOn | cmd/aggregator/main.go:454-491 | A result that the handler takes in with its requests going through extends the run |
| HandlerCalls.CreatedBeforeLater | cmd/aggregator/main.go:524-602 | Handling a result only adds objects with its own timestamp, so a later timestamp is newer than all of them |
| SchedulerRuns.RunKeepsInv | internal/agent/scheduler.go:83-225 | In every interleaving the semaphore counts the checks between acquire and release, the wait group the live and promised goroutines, the shutdown phases follow each other, and a pass is on track |
| SchedulerRuns.ConcurrencyBounded | internal/agent/scheduler.go:163-171 | Never more checks than MaxConcurrency are past the semaphore |
| SchedulerRuns.PassStartsEveryTarget | internal/agent/scheduler.go:140-159 | A pass that was not interrupted has started as many checks as there are targets, one for each of them, in the order of its iteration |
| SchedulerRuns.ChecksKeepTheirCourse | internal/agent/scheduler.go:162-225 | In every interleaving the steps a check has taken are exactly those of one of three courses: acquire, delay, execute once and release; acquire, stop in the delay and release; give up at the semaphore |
| SchedulerRuns.ChecksAreExecuted | internal/agent/scheduler.go:162-225 | Every check that is over was executed before, for the target it was started for, unless it gave up or skipped execution while a stop was on |
| SchedulerRuns.UnstoppedChecksRun | internal/agent/scheduler.go:162-225 | In a run that nothing has stopped, every check that is over was executed |
| SchedulerRuns.UnstoppedWatcherWatches | internal/agent/scheduler.go:117-159 | While nothing stops it, the watcher does not end and leaves a pass only when no target is left |
| SchedulerRuns.WatcherEndsWatching | internal/agent/scheduler.go:117-138 | The watcher ends only at the initial delay or between passes, and because of a stop |
| SchedulerRuns.TargetsAreLatest | internal/agent/scheduler.go:241-252 | At any time the targets are those of the latest update |
| SchedulerRuns.LastTargetWins | internal/agent/scheduler.go:241-252 | Of the targets of one namespace and name in an update the last is kept, and no others are there |
| SchedulerRuns.AddNeverRacesWait | internal/agent/scheduler.go:105-152 | Add is never called on a wait group that Start may already have seen empty |
| SchedulerRuns.ReturnedIsQuiet | internal/agent/scheduler.go:97-108 | Once Start has returned the watcher and all checks are gone, the semaphore is free, and only target updates can still happen |
| SchedulerRuns.QuietForever | internal/agent/scheduler.go:97-108 | No continuation of such a run starts or changes a check |
| SchedulerRuns.StepsWindDown | internal/agent/scheduler.go:117-212 | After cancellation every step other than a tick or an outside call decreases a measure, in any interleaving |
| SchedulerRuns.NeverStuck | internal/agent/scheduler.go:97-212 | After cancellation some goroutine can move until Start has returned |
| SchedulerRuns.StartReturns | internal/agent/scheduler.go:83-109 | Every cancelled run can be continued until Start returns, within the measure |
| SchedulerRuns.WindingRunsAreShort | internal/agent/scheduler.go:97-225 | Any stretch of a run after cancellation has at most as many steps of the program as the measure, plus one for each tick in it, whatever targets are updated |
| SchedulerRuns.AtMostOneMoreCheck | internal/agent/scheduler.go:144-157 | However often the timer still fires after cancellation, no check starts but one the watcher had already decided on |
| JsonPath.EvaluateSimpleJSONPath | internal/checker/http.go:762-815 | The loop returns the value, or the first failure with its kind and detail, of walking the segments from left to right |
| JsonPathForms.RootIsOptional | internal/checker/http.go:768-774 | A trimmed path that does not itself begin with the root means the same with "$." before it |
| JsonPathForms.PaddingIsIgnored | internal/checker/http.go:768 | One more white space character on either side changes nothing, and any other character at the end survives trimming |
| JsonPathForms.WholeDocument | internal/checker/http.go:768-772 | The empty path, "$" and "$." select the whole document |
| JsonPathForms.VisitFailures | internal/checker/http.go:790-811 | Which failure a segment gives, and with which detail, if and only if the value it is applied to has the wrong kind, lacks the field or is too short |
| JsonPathForms.BadIndexFails | internal/checker/http.go:780-786 | A bracket that does not hold an integer fails before anything is selected |
| JsonPathForms.FirstFailure | internal/checker/http.go:776-812 | A failing path gives the failure of one of its segments, applied to what the segments before it select |
| JsonPathForms.SignedIndexes | internal/checker/http.go:783 | Signed decimals read back exactly within 64 bits |
| JsonPathForms.NegativeIndexIsIgnored | internal/checker/http.go:802 | A segment with a negative index means its key alone |
| JsonPathForms.EvaluationIsLookUp | internal/checker/http.go:774-812 | For every document and every path text, interleaving reading and descent finds a value exactly when reading the whole path first and looking it up structurally does, and the same one |
| JsonPathForms.PrintReadsBack | internal/checker/http.go:767-787 | A list of steps printed as a path reads back as itself if and only if no key holds a dot or a misleading bracket, no index overflows and the path does not end in white space |
| JsonPathForms.PrintedPathsLookUp | internal/checker/http.go:762-815 | For every document and every printable list of steps, evaluating the printed path is structural lookup, errors included |
| JsonPathForms.AtoiOfDecimal | internal/checker/http.go:782-785 | The decimal form of an index reads back as the index, or fails exactly when it exceeds the 64-bit range |
| JsonPathForms.SplitOfJoin | internal/checker/http.go:774 | Splitting a joined path gives back its parts exactly when none holds a dot, and too many parts otherwise |
| JsonPathForms.EmptyKeyIsOutOfReach | internal/checker/http.go:790-800 | Whatever else an object holds, looking steps up in it does not depend on the value under an empty key, unless the whole object is selected |
| JsonPathForms.NoPathSeesTheEmptyKey | internal/checker/http.go:790-800 | The same for evaluating any path text |

## Left out

- Network probing in internal/checker (DNS, TCP, TLS, HTTP, databases, messaging), secrets and `/proc` reads: I/O.
- JsonPath.EvaluateSimpleJSONPath: starts from the parsed document and stops before the value is rendered as a string; `json.Unmarshal` and `jsonValueToString` are not modelled, paths are sequences of characters rather than bytes, and integers are 64 bits wide.
- gRPC and HTTP servers, the REST `API`, notification channels, TLS loading, logging, metrics and CRD types: plumbing.
- The generated protobuf code in internal/pb is not part of this model; network modes are a three-valued type and an agent is identified by its node and mode rather than by the string built from them.
- Manager.Manager.CreateAlert: requires that the caller's alert object is not already cached, the hand-over the code relies on (it would relabel a cached object in place, under its old ID); IDs are given and, on runs, assumed fresh.
- Manager.Manager.GetAlert: hands out the cached cell as the code does; what a caller may do to it outside the lock is not modelled.
- `loadActiveAlerts`: takes the address of a range variable, whose meaning depends on the Go version; runs start from an empty manager.
- Alert callbacks and the `Escalator`: callbacks run unsynchronised in goroutines, and escalation only prints.
- `LastNotificationAt` and actions of alerts, and counters such as `NotificationCount` beyond their reset: no modelled operation reads them.
- The error branches after `CreateEvent` in the manager: an open store never refuses an event, and a closed one has refused the alert before.
- Slices and maps inside an alert are values, so the deep copies of `copyAlert` are copies of the whole value; two alerts sharing a slice is not modelled. The same holds for the backing arrays of zone lists.
- Processor.StreamProcessor.ProcessResult: the agents' entries of a target are values in its map rather than separate objects, and the time stamped on a new target is not kept apart from the one that overwrites it in the same call.
- Store.MemoryStore.List: `sort.Slice` is an insertion sort here; the order of alerts fired at the same time is left open.
- Routing.Router.Route: sends succeed or fail as given per attempt, and back-off sleeps only show as the later clock reading; `TargetTypes` and `SeverityOverrides` of rules are not read by the code.
- StormPrevention.AlertStormPreventer.CleanupExpiredGroups: a zero Go time is None, always expired; a suppression window of the largest representable duration is not treated specially.
- Parent-child suppression (`IsSuppressedByParent`), `AnalyzeNetworkMode` and the remaining statistics getters: read-only look-ups that change no state.
- Wrap-around of 32-bit counters, saturation of time differences, random delays and jitter, UUID generation.
- Alert rules keep only their two thresholds and rule matching is constantly true, as in the code.
- ResultHandler.ResultHandler.HandleResult: the API client is never nil and lists see all earlier writes; concurrent calls are not interleaved.
- HandlerRuns.RunMirrors: runs start with an empty engine and an empty API server, so a restart that forgets the engine's states and keeps its events is not covered.
- AlertEvent fields that nothing reads back (alert ID, labels other than the target's, evidence, annotations) and lower-casing of non-ASCII names.
- `Executor`, `Registry`, `ValidateTarget`, error classification and `parseDuration`: stateless dispatch, table look-ups and string matching.
- The scheduler's durations, the check function itself and a second call of `Start`; `TargetCount` is the size of the target map.
