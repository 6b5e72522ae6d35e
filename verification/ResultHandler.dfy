/**
  The aggregator's result handler (cmd/aggregator/main.go): it feeds a check result
  to the processor, the correlation engine and the decision engine, and publishes
  alert changes as AlertEvent objects through the Kubernetes API.
*/
module ResultHandler {
  import opened Common
  import opened Requests
  import Alerting
  import Correlation
  import Processor
  import Topology

  datatype Status = Firing | Resolved

  /** An object name "alert-<base>-<nanos>" in a namespace. */
  datatype EventKey = EventKey(namespace: string, base: string, nanos: Time)

  /** The parts of an AlertEvent the handler writes; `name` is both label and target name. */
  datatype AlertEvent = AlertEvent(
    name: string, status: Status, created: Time, layer: string, code: string, severity: Alerting.Severity,
    radius: BlastRadius, affectedNodes: seq<string>, resolvedAt: Option<Time>, resolvedBy: string)

  type Events = map<EventKey, AlertEvent>

  /**
    What the outside decides for one call: the clock as each component reads it, the
    server's timestamp and which requests fail.
  */
  datatype Env = Env(
    counted: Processor.Reading, failed: Time, swept: Time, judged: Time, now: Time,
    created: Time, createFails: bool, listFails: bool, updateFails: bool)

  /** Events of one target are selected by namespace and name. */
  datatype EventTarget = EventTarget(namespace: string, name: string)

  function TargetOf(r: Result): EventTarget {
    EventTarget(if r.namespace == "" then "default" else r.namespace, r.name)
  }

  function SanitizeChar(c: char): char {
    if 'A' <= c <= 'Z' then c - 'A' + 'a' else if c == '/' || c == '_' then '-' else c
  }

  function SanitizeName(s: string): string {
    seq(|s|, i requires 0 <= i < |s| => SanitizeChar(s[i]))
  }

  function NameFor(t: EventTarget, now: Time): EventKey {
    EventKey(t.namespace, SanitizeName(t.name), now)
  }

  function Matching(events: Events, t: EventTarget): set<EventKey> {
    set k | k in events && k.namespace == t.namespace && events[k].name == t.name
  }

  ghost predicate Latest(events: Events, t: EventTarget, k: EventKey) {
    k in Matching(events, t) && forall j | j in Matching(events, t) :: events[j].created <= events[k].created
  }

  function Resolve(e: AlertEvent, now: Time): AlertEvent {
    e.(status := Resolved, resolvedAt := Some(now), resolvedBy := "aggregator")
  }

  /** A freshly published event for the result: firing, with the spread the failure window shows. */
  ghost predicate Published(e: AlertEvent, r: Result, env: Env, s: seq<Correlation.Failure>,
                            topology: Option<Correlation.Map>) {
    && e.name == r.name && e.status == Firing && e.created == env.created && e.layer == r.layer && e.code == r.code
    && e.resolvedAt == None && e.resolvedBy == ""
    && e.radius == (if s == [] then Node else Correlation.RadiusOf(topology, Correlation.Nodes(s)))
    && e.severity == Alerting.CalculateSeverity(r.layer, e.radius, "")
    && multiset(e.affectedNodes) == multiset(Correlation.Nodes(s))
  }

  ghost predicate Publishes(before: Events, after: Events, r: Result, env: Env, s: seq<Correlation.Failure>,
                            topology: Option<Correlation.Map>) {
    var k := NameFor(TargetOf(r), env.now);
    k !in before && k in after && after == before[k := after[k]] && Published(after[k], r, env, s, topology)
  }

  /** Resolving the latest event of a target; `ok` is whether the requests it needed went through. */
  ghost predicate Resolves(before: Events, after: Events, t: EventTarget, env: Env, ok: bool) {
    if env.listFails then !ok && after == before
    else if Matching(before, t) == {} then ok && after == before
    else exists k :: Latest(before, t, k) && ResolvesAt(before, after, k, env, ok)
  }

  ghost predicate ResolvesAt(before: Events, after: Events, k: EventKey, env: Env, ok: bool)
    requires k in before
  {
    if before[k].status == Resolved then ok && after == before
    else if env.updateFails then !ok && after == before
    else ok && after == before[k := Resolve(before[k], env.now)]
  }

  /** The API side of handling one result. */
  ghost predicate ApiStep(before: Events, after: Events, r: Result, env: Env, d: Alerting.Decision,
                          s: seq<Correlation.Failure>, topology: Option<Correlation.Map>, ok: bool) {
    match d
    case Quiet => ok && after == before
    case Alert => && (ok <==> !env.createFails && NameFor(TargetOf(r), env.now) !in before)
                  && (if ok then Publishes(before, after, r, env, s, topology) else after == before)
    case Resolve => Resolves(before, after, TargetOf(r), env, ok)
  }

  /** One event with its name, as a list request returns it. */
  datatype Item = Item(key: EventKey, event: AlertEvent)

  datatype UpdateResult = Updated | NotFound | UpdateError

  /** The AlertEvent objects of the Kubernetes API server. */
  class ApiServer {
    var events: Events

    constructor ()
      ensures events == map[]
    {
      events := map[];
    }

    method Create(key: EventKey, e: AlertEvent, fails: bool) returns (ok: bool)
      modifies this
      ensures ok <==> !fails && key !in old(events)
      ensures events == if ok then old(events)[key := e] else old(events)
    {
      ok := !fails && key !in events;
      if ok {
        events := events[key := e];
      }
    }

    method List(t: EventTarget, fails: bool) returns (ok: bool, items: seq<Item>)
      ensures ok <==> !fails
      ensures ok ==> (set i | i in items :: i.key) == Matching(events, t)
      ensures forall i | i in items :: i.key in events && i.event == events[i.key]
    {
      items := [];
      ok := !fails;
      if ok {
        items := Collect(Matching(events, t));
      }
    }

    method Collect(keys: set<EventKey>) returns (items: seq<Item>)
      requires keys <= events.Keys
      ensures (set i | i in items :: i.key) == keys
      ensures forall i | i in items :: i.key in events && i.event == events[i.key]
    {
      items := [];
      var todo := keys;
      while todo != {}
        invariant todo <= keys
        invariant (set i | i in items :: i.key) == keys - todo
        invariant forall i | i in items :: i.key in events && i.event == events[i.key]
        decreases |todo|
      {
        var k :| k in todo;
        ghost var listed := set i | i in items :: i.key;
        assert (set i | i in items + [Item(k, events[k])] :: i.key) == listed + {k};
        items := items + [Item(k, events[k])];
        todo := todo - {k};
      }
    }

    method Update(item: Item, fails: bool) returns (result: UpdateResult)
      modifies this
      ensures result == if fails then UpdateError else if item.key in old(events) then Updated else NotFound
      ensures events == if result == Updated then old(events)[item.key := item.event] else old(events)
    {
      if fails {
        return UpdateError;
      }
      if item.key !in events {
        return NotFound;
      }
      events := events[item.key := item.event];
      return Updated;
    }
  }

  class ResultHandler {
    const processor: Processor.StreamProcessor
    const correlation: Correlation.CorrelationEngine
    const alertEngine: Alerting.AlertDecisionEngine
    const topology: Topology.TopologyAnalyzer?
    const client: ApiServer

    constructor (processor: Processor.StreamProcessor, correlation: Correlation.CorrelationEngine,
                 alertEngine: Alerting.AlertDecisionEngine, topology: Topology.TopologyAnalyzer?, client: ApiServer)
      ensures this.processor == processor && this.correlation == correlation && this.alertEngine == alertEngine
      ensures this.topology == topology && this.client == client
    {
      this.processor, this.correlation, this.alertEngine := processor, correlation, alertEngine;
      this.topology, this.client := topology, client;
    }

    method ResolveLatestAlertEvent(t: EventTarget, env: Env) returns (ok: bool)
      modifies client
      ensures Resolves(old(client.events), client.events, t, env, ok)
    {
      var listed, items := client.List(t, env.listFails);
      if !listed {
        return false;
      }
      if |items| == 0 {
        assert (set i | i in items :: i.key) == {};
        return true;
      }
      var latest := Newest(items);
      assert latest.key in (set i | i in items :: i.key);
      NewestIsLatest(client.events, t, items, latest);
      if latest.event.status == Resolved {
        return true;
      }
      var result := client.Update(Item(latest.key, Resolve(latest.event, env.now)), env.updateFails);
      ok := result != UpdateError;
    }

    static method Newest(items: seq<Item>) returns (latest: Item)
      requires items != []
      ensures latest in items && forall i | i in items :: i.event.created <= latest.event.created
    {
      latest := items[0];
      for i := 0 to |items|
        invariant latest in items && forall j | 0 <= j < i :: items[j].event.created <= latest.event.created
      {
        if items[i].event.created > latest.event.created {
          latest := items[i];
        }
      }
    }

    method UpsertAlertEvent(r: Result, env: Env, resolve: bool) returns (ok: bool)
      modifies client
      ensures ApiStep(old(client.events), client.events, r, env, if resolve then Alerting.Resolve else Alerting.Alert,
                      Correlation.Events(correlation.failureWindow, ReportKey(r)), Correlation.Snapshot(topology), ok)
    {
      var t := TargetOf(r);
      var report := correlation.GenerateReport(ReportKey(r), topology);
      var radius, affectedNodes := Node, [];
      if report.Some? {
        radius, affectedNodes := report.value.radius, report.value.affectedNodes;
      }
      var severity := Alerting.CalculateSeverity(r.layer, radius, "");
      if resolve {
        ok := ResolveLatestAlertEvent(t, env);
        return;
      }
      var event := AlertEvent(r.name, Firing, env.created, r.layer, r.code, severity, radius, affectedNodes, None, "");
      ok := client.Create(NameFor(t, env.now), event, env.createFails);
    }

    method HandleResult(r: Result, env: Env) returns (ok: bool, decision: Alerting.Decision, ghost threshold: int)
      requires processor.Valid() && alertEngine.Valid()
      modifies processor, processor.states.Values, correlation, alertEngine, alertEngine.targetStates.Values, client
      ensures processor.Valid() && alertEngine.Valid()
      ensures processor.Grows() && alertEngine.Grows()
      ensures processor.contents == Processor.AfterResult(old(processor.contents), r, env.counted)
      ensures correlation.failureWindow == AfterFailure(correlation.config, old(correlation.failureWindow), r, env)
      ensures alertEngine.rules == old(alertEngine.rules)
      ensures Consults(old(alertEngine.contents), r) ==>
                Alerting.Possible(alertEngine.config, alertEngine.rules, r.success, threshold)
      ensures alertEngine.contents == AfterJudging(old(alertEngine.contents), r, threshold, env)
      ensures decision == Judged(old(alertEngine.contents), r, threshold, env)
      ensures ApiStep(old(client.events), client.events, r, env, decision,
                      Correlation.Events(correlation.failureWindow, ReportKey(r)), Correlation.Snapshot(topology), ok)
    {
      Digest(r, env);
      ok, decision, threshold := Decide(r, env);
    }

    /** The decision engine takes in the result, and its alert change is published. */
    method Decide(r: Result, env: Env) returns (ok: bool, decision: Alerting.Decision, ghost threshold: int)
      requires processor.Valid() && alertEngine.Valid()
      modifies alertEngine, alertEngine.targetStates.Values, client
      ensures processor.Valid() && alertEngine.Valid()
      ensures alertEngine.Grows()
      ensures alertEngine.rules == old(alertEngine.rules)
      ensures Consults(old(alertEngine.contents), r) ==>
                Alerting.Possible(alertEngine.config, alertEngine.rules, r.success, threshold)
      ensures alertEngine.contents == AfterJudging(old(alertEngine.contents), r, threshold, env)
      ensures decision == Judged(old(alertEngine.contents), r, threshold, env)
      ensures ApiStep(old(client.events), client.events, r, env, decision,
                      Correlation.Events(correlation.failureWindow, ReportKey(r)), Correlation.Snapshot(topology), ok)
    {
      decision, threshold := Judge(r, env);
      ok := Publish(r, env, decision);
    }

    /** The processor and the failure window take in the result. */
    method Digest(r: Result, env: Env)
      requires processor.Valid() && alertEngine.Valid()
      modifies processor, processor.states.Values, correlation
      ensures processor.Valid() && alertEngine.Valid()
      ensures processor.Grows()
      ensures processor.contents == Processor.AfterResult(old(processor.contents), r, env.counted)
      ensures correlation.failureWindow == AfterFailure(correlation.config, old(correlation.failureWindow), r, env)
    {
      CountResult(r, env);
      RecordIfFailed(r, env);
    }

    method CountResult(r: Result, env: Env)
      requires processor.Valid() && alertEngine.Valid()
      modifies processor, processor.states.Values
      ensures processor.Valid() && alertEngine.Valid()
      ensures processor.Grows()
      ensures processor.contents == Processor.AfterResult(old(processor.contents), r, env.counted)
    {
      processor.ProcessResult(r, env.counted);
    }

    method RecordIfFailed(r: Result, env: Env)
      requires processor.Valid() && alertEngine.Valid()
      modifies correlation
      ensures processor.Valid() && alertEngine.Valid()
      ensures correlation.failureWindow == AfterFailure(correlation.config, old(correlation.failureWindow), r, env)
    {
      if !r.success {
        correlation.RecordFailure(r.Key(), r.success, FailureOf(r, env.failed), env.swept);
      }
    }

    method Judge(r: Result, env: Env) returns (decision: Alerting.Decision, ghost threshold: int)
      requires processor.Valid() && alertEngine.Valid()
      modifies alertEngine, alertEngine.targetStates.Values
      ensures processor.Valid() && alertEngine.Valid()
      ensures alertEngine.Grows()
      ensures alertEngine.rules == old(alertEngine.rules)
      ensures Consults(old(alertEngine.contents), r) ==>
                Alerting.Possible(alertEngine.config, alertEngine.rules, r.success, threshold)
      ensures alertEngine.contents == AfterJudging(old(alertEngine.contents), r, threshold, env)
      ensures decision == Judged(old(alertEngine.contents), r, threshold, env)
    {
      decision, threshold := alertEngine.ProcessResult(r.Key(), OutcomeOf(r), env.judged);
    }

    /** Alert changes go to the API server; anything else leaves it alone. */
    method Publish(r: Result, env: Env, decision: Alerting.Decision) returns (ok: bool)
      requires processor.Valid() && alertEngine.Valid()
      modifies client
      ensures processor.Valid() && alertEngine.Valid()
      ensures ApiStep(old(client.events), client.events, r, env, decision,
                      Correlation.Events(correlation.failureWindow, ReportKey(r)), Correlation.Snapshot(topology), ok)
    {
      ok := true;
      if decision == Alerting.Alert {
        ok := UpsertAlertEvent(r, env, false);
      } else if decision == Alerting.Resolve {
        ok := UpsertAlertEvent(r, env, true);
      }
    }
  }

  /** The report is looked up under the namespace the event is filed in, not under the result's own key. */
  function ReportKey(r: Result): string {
    TargetOf(r).namespace + "/" + r.name
  }

  function OutcomeOf(r: Result): Alerting.Outcome {
    Alerting.Outcome(r.success, r.code, r.layer)
  }

  function FailureOf(r: Result, at: Time): Correlation.Failure {
    Correlation.Failure(r.node, r.mode, r.code, r.layer, at)
  }

  /** The failure window after a result. */
  function AfterFailure(cfg: Correlation.Config, w: Correlation.Windows, r: Result, env: Env): Correlation.Windows {
    if r.success then w else Correlation.AfterRecord(cfg, w, r.Key(), FailureOf(r, env.failed), env.swept)
  }

  /** The decision engine after a result, with the threshold it consulted. */
  function AfterJudging(ts: Alerting.Targets, r: Result, threshold: int, env: Env): Alerting.Targets {
    Alerting.AfterResult(ts, r.Key(), OutcomeOf(r), threshold, env.judged)
  }

  function Judged(ts: Alerting.Targets, r: Result, threshold: int, env: Env): Alerting.Decision {
    Alerting.DecisionOn(ts, r.Key(), OutcomeOf(r), threshold, env.judged)
  }

  ghost predicate Consults(ts: Alerting.Targets, r: Result) {
    Alerting.AlertDecisionEngine.Consults(ts, r.Key(), OutcomeOf(r))
  }

  lemma NewestIsLatest(events: Events, t: EventTarget, items: seq<Item>, latest: Item)
    requires (set i | i in items :: i.key) == Matching(events, t)
    requires forall i | i in items :: i.key in events && i.event == events[i.key]
    requires latest in items && forall i | i in items :: i.event.created <= latest.event.created
    ensures Latest(events, t, latest.key)
  {
  }
}
