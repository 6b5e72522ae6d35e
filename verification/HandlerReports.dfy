/**
  What the result handler feeds its components and what it publishes, in the fields of the
  results it was given: the failure window holds exactly the recent failures of a target,
  and an AlertEvent lists exactly their nodes.
*/
module HandlerReports {
  import opened Common
  import opened Requests
  import opened ResultHandler
  import opened HandlerRuns
  import Alerting
  import AlertingRuns
  import Correlation
  import CorrelationRuns
  import Topology

  // ----- the failure window -----

  /** What a handled result records with the correlation engine: a failure under "namespace/name", nothing otherwise. */
  function Recorded(op: Op): seq<CorrelationRuns.Op> {
    if op.Submit? && !op.r.success then
      var f := Correlation.Failure(op.r.node, op.r.mode, op.r.code, op.r.layer, op.env.failed);
      [CorrelationRuns.Record(op.r.namespace + "/" + op.r.name, f, op.env.swept)]
    else []
  }

  function Records(ops: seq<Op>): seq<CorrelationRuns.Op> {
    if ops == [] then [] else Records(Front(ops)) + Recorded(Last(ops))
  }

  lemma RecordsMore(ops: seq<Op>)
    requires ops != [] && Recorded(Last(ops)) != []
    ensures Records(ops) != [] && Front(Records(ops)) == Records(Front(ops))
    ensures Last(Records(ops)) == Recorded(Last(ops))[0]
  {
  }

  /** On every run the handler's failure windows are those of the correlation engine over these records. */
  lemma {:induction false} WindowsAreRecords(cfg: Correlation.Config, ops: seq<Op>)
    ensures Windows(cfg, ops) == CorrelationRuns.Run(cfg, Records(ops))
  {
    if ops != [] {
      var before := Windows(cfg, Front(ops));
      WindowsAreRecords(cfg, Front(ops));
      if Recorded(Last(ops)) != [] {
        RecordsMore(ops);
        assert CorrelationRuns.Run(cfg, Records(ops)) == CorrelationRuns.Apply(cfg, before, Recorded(Last(ops))[0]);
      } else {
        assert Records(ops) == Records(Front(ops));
        assert Windows(cfg, ops) == before;
      }
    }
  }

  // ----- what is published -----

  ghost predicate FailedFor(op: Op, key: string) {
    op.Submit? && !op.r.success && op.r.namespace + "/" + op.r.name == key
  }

  /** The nodes that reported a failure of the target after the cutoff. */
  ghost function FailingNodes(ops: seq<Op>, key: string, cutoff: Time): set<string> {
    set i | 0 <= i < |ops| && FailedFor(ops[i], key) && ops[i].env.failed > cutoff :: ops[i].r.node
  }

  lemma FailingNodesMore(ops: seq<Op>, key: string, cutoff: Time)
    requires ops != []
    ensures var op := Last(ops);
            FailingNodes(ops, key, cutoff) ==
            FailingNodes(Front(ops), key, cutoff) +
            if FailedFor(op, key) && op.env.failed > cutoff then {op.r.node} else {}
  {
    var op, before := Last(ops), FailingNodes(Front(ops), key, cutoff);
    forall x
      ensures x in FailingNodes(ops, key, cutoff) <==>
              x in before || (FailedFor(op, key) && op.env.failed > cutoff && x == op.r.node)
    {
      if x in before {
        var i :| 0 <= i < |Front(ops)| && FailedFor(Front(ops)[i], key) && Front(ops)[i].env.failed > cutoff &&
                 Front(ops)[i].r.node == x;
        assert ops[i] == Front(ops)[i];
      }
      if x in FailingNodes(ops, key, cutoff) {
        var i :| 0 <= i < |ops| && FailedFor(ops[i], key) && ops[i].env.failed > cutoff && ops[i].r.node == x;
        assert i < |ops| - 1 ==> ops[i] == Front(ops)[i];
      }
    }
  }

  lemma {:induction false} NodesOfRecords(ops: seq<Op>, key: string, cutoff: Time)
    ensures Correlation.Nodes(Correlation.Recent(CorrelationRuns.Since(Records(ops), key), cutoff)) ==
            FailingNodes(ops, key, cutoff)
  {
    if ops != [] {
      var since := CorrelationRuns.Since(Records(Front(ops)), key);
      NodesOfRecords(Front(ops), key, cutoff);
      FailingNodesMore(ops, key, cutoff);
      if FailedFor(Last(ops), key) {
        RecordsMore(ops);
        NodesMore(since, Recorded(Last(ops))[0].f, cutoff);
      } else {
        OtherRecords(ops, key);
      }
    }
  }

  lemma OtherRecords(ops: seq<Op>, key: string)
    requires ops != [] && !FailedFor(Last(ops), key)
    ensures CorrelationRuns.Since(Records(ops), key) == CorrelationRuns.Since(Records(Front(ops)), key)
  {
    var since := CorrelationRuns.Since(Records(Front(ops)), key);
    if Recorded(Last(ops)) != [] {
      RecordsMore(ops);
      assert since + [] == since;
    } else {
      assert Records(ops) == Records(Front(ops));
    }
  }

  lemma NodesMore(s: seq<Correlation.Failure>, f: Correlation.Failure, cutoff: Time)
    ensures Correlation.Nodes(Correlation.Recent(s + [f], cutoff)) ==
            Correlation.Nodes(Correlation.Recent(s, cutoff)) + if f.at > cutoff then {f.node} else {}
  {
    assert Front(s + [f]) == s;
  }

  /** The failure window a report is built on, right after a failure of its target. */
  lemma WindowOfFailure(cfg: Correlation.Config, ops: seq<Op>, key: string)
    requires ops != [] && FailedFor(Last(ops), key) && CorrelationRuns.Clocked(Records(ops))
    ensures Correlation.Events(Windows(cfg, ops), key) != [] ==> key in Windows(cfg, ops)
    ensures Correlation.Nodes(Correlation.Events(Windows(cfg, ops), key)) ==
            FailingNodes(ops, key, Last(ops).env.swept - cfg.timeWindow)
  {
    WindowsAreRecords(cfg, ops);
    RecordsMore(ops);
    CorrelationRuns.WindowIsFilter(cfg, Records(ops), key);
    NodesOfRecords(ops, key, Last(ops).env.swept - cfg.timeWindow);
  }

  /** An alert is only ever decided on a failure. */
  lemma AlertsOnFailure(ops: seq<Op>)
    requires ops != [] && Last(ops).Submit? && DecisionOf(ops) == Alerting.Alert
    ensures !Last(ops).r.success
  {
  }

  /** A new AlertEvent in the fields of the result that caused it, the nodes that fail and the topology. */
  ghost predicate Tells(e: AlertEvent, r: Result, env: Env, nodes: set<string>, topology: Option<Correlation.Map>) {
    && e.name == r.name && e.status == Firing && e.layer == r.layer && e.code == r.code && e.created == env.created
    && e.resolvedAt.None? && multiset(e.affectedNodes) == multiset(nodes)
    && e.radius == (if topology.None? then Node
                    else Topology.Classify(topology.value.index, topology.value.threshold, e.affectedNodes))
    && e.severity == Alerting.CalculateSeverity(r.layer, e.radius, "")
  }

  /**
    On every run whose clock never goes back, an alert for a target with a namespace is
    published with exactly the nodes that reported a failure of it within the time window.
  */
  lemma PublishedNodes(cfg: Correlation.Config, ops: seq<Op>) returns (k: EventKey)
    requires Legal(cfg, ops) && ops != [] && Last(ops).Submit? && DecisionOf(ops) == Alerting.Alert
    requires CorrelationRuns.Clocked(Records(ops)) && Last(ops).r.namespace != ""
    ensures var op := Last(ops);
            var nodes := FailingNodes(ops, op.r.namespace + "/" + op.r.name, op.env.swept - cfg.timeWindow);
            && k.namespace == op.r.namespace && k.nanos == op.env.now
            && k !in Objects(Front(ops)) && k in Objects(ops)
            && Objects(ops) == Objects(Front(ops))[k := Objects(ops)[k]]
            && Tells(Objects(ops)[k], op.r, op.env, nodes, op.topology)
  {
    var op := Last(ops);
    var key := op.r.namespace + "/" + op.r.name;
    AlertsOnFailure(ops);
    WindowOfFailure(cfg, ops, key);
    k := NameFor(TargetOf(op.r), op.env.now);
    var s := Correlation.Events(Windows(cfg, ops), key);
    assert Publishes(Objects(Front(ops)), op.after, op.r, op.env, s, op.topology);
    ListedNodes(op.after[k].affectedNodes, s, op.topology);
  }

  lemma ListedNodes(list: seq<string>, s: seq<Correlation.Failure>, topology: Option<Correlation.Map>)
    requires multiset(list) == multiset(Correlation.Nodes(s))
    ensures topology.Some? ==>
              Topology.Classify(topology.value.index, topology.value.threshold, list) ==
              if s == [] then Topology.Classify(topology.value.index, topology.value.threshold, [])
              else Correlation.RadiusOf(topology, Correlation.Nodes(s))
    ensures topology.Some? && s == [] ==>
              Topology.Classify(topology.value.index, topology.value.threshold, list) == Node
  {
    if topology.Some? {
      Correlation.ListedOnce(topology.value.index, list, Correlation.Nodes(s));
    }
  }

  /**
    Without a namespace, results are recorded under "/name" but looked up under "default/name":
    unless a target of that name in "default" fails too, nothing is listed.
  */
  lemma EmptyNamespaceListsNothing(cfg: Correlation.Config, ops: seq<Op>) returns (k: EventKey)
    requires Legal(cfg, ops) && ops != [] && Last(ops).Submit? && DecisionOf(ops) == Alerting.Alert
    requires Last(ops).r.namespace == ""
    requires forall i | 0 <= i < |ops| :: !FailedFor(ops[i], "default/" + Last(ops).r.name)
    ensures k !in Objects(Front(ops)) && k in Objects(ops) && k.namespace == "default"
    ensures Objects(ops)[k].affectedNodes == [] && Objects(ops)[k].radius == Node
  {
    var op := Last(ops);
    k := NameFor(TargetOf(op.r), op.env.now);
    var key := "default/" + op.r.name;
    NothingUnderDefault(cfg, ops, op.r.name);
    assert ReportKey(op.r) == key;
    assert |multiset(op.after[k].affectedNodes)| == 0;
  }

  lemma {:induction false} NothingUnderDefault(cfg: Correlation.Config, ops: seq<Op>, name: string)
    requires forall i | 0 <= i < |ops| :: !FailedFor(ops[i], "default/" + name)
    ensures "default/" + name !in Windows(cfg, ops)
  {
    if ops != [] {
      NothingUnderDefault(cfg, Front(ops), name);
      assert !FailedFor(Last(ops), "default/" + name);
    }
  }

  /** Resolving writes the time and the resolver into the one firing event, and nothing else. */
  lemma ResolvedInPlace(before: Events, after: Events, r: Result, env: Env, k: EventKey)
    requires Resolves(before, after, TargetOf(r), env, true) && OnlyFiring(before, TargetOf(r), k)
    ensures k.namespace == (if r.namespace == "" then "default" else r.namespace)
    ensures k in before && before[k].name == r.name
    ensures var resolved := before[k].(status := Resolved, resolvedAt := Some(env.now), resolvedBy := "aggregator");
            after == before[k := resolved]
  {
    assert k in FiringOf(before, TargetOf(r));
    var l :| Latest(before, TargetOf(r), l) && ResolvesAt(before, after, l, env, true);
    assert l == k;
  }

  /** Object names hold no capital letters, slashes or underscores; every other character stays. */
  lemma NamesAreSanitized(r: Result, now: Time)
    ensures var base := NameFor(TargetOf(r), now).base;
            && |base| == |r.name|
            && forall i | 0 <= i < |base| ::
                 base[i] == if r.name[i] == '/' || r.name[i] == '_' then '-'
                            else if 'A' <= r.name[i] <= 'Z' then (r.name[i] as int + 32) as char
                            else r.name[i]
  {
  }

  // ----- what the engine is told -----

  /** The outcomes of one target's results, oldest first. */
  function Successes(ops: seq<Op>, key: string): seq<bool> {
    if ops == [] then []
    else
      var op := Last(ops);
      Successes(Front(ops), key) +
      if op.Submit? && op.r.namespace + "/" + op.r.name == key then [op.r.success] else []
  }

  lemma {:induction false} EngineSeesSuccesses(ops: seq<Op>, key: string)
    ensures AlertingRuns.History(EngineEvents(ops), key) == Successes(ops, key)
  {
    if ops != [] {
      EngineSeesSuccesses(Front(ops), key);
      if Last(ops).Submit? {
        assert Front(EngineEvents(ops)) == EngineEvents(Front(ops));
      } else {
        assert EngineEvents(ops) == EngineEvents(Front(ops));
        assert Successes(Front(ops), key) + [] == Successes(ops, key);
      }
    }
  }

  /** The engine is given the result's code and layer with its outcome. */
  lemma EngineIsTold(op: Op)
    requires op.Submit?
    ensures var e := EngineEvent(op);
            && e.key == op.r.namespace + "/" + op.r.name && e.now == op.env.judged && e.threshold == op.threshold
            && e.o == Alerting.Outcome(op.r.success, op.r.code, op.r.layer)
  {
  }
}
