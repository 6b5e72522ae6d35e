/**
  The correlation engine (internal/aggregator/correlation.go): a sliding window of
  failures per target, the failure pattern it shows and the report built on it.
*/
module Correlation {
  import opened Common
  import opened Requests
  import opened Topology

  datatype Failure = Failure(node: string, mode: NetworkMode, code: string, layer: string, at: Time)

  type Windows = map<string, seq<Failure>>

  datatype Config = Config(timeWindow: int, minNodes: int)

  datatype Pattern = TargetOutage | NodeIssue | ZoneIssue | CniIssue | NodeRoutingIssue | Unknown

  /** The topology a caller passes along: an index with its cluster threshold, or none. */
  datatype Map = Map(index: Index, threshold: int)

  datatype Report = Report(
    target: string, layer: string, affectedNodes: seq<string>, affectedZones: seq<string>,
    radius: BlastRadius, pattern: Pattern, startTime: Time)

  function Events(w: Windows, target: string): seq<Failure> {
    if target in w then w[target] else []
  }

  /** The failures after the cutoff, in order. */
  function Recent(s: seq<Failure>, cutoff: Time): seq<Failure> {
    if s == [] then [] else Recent(Front(s), cutoff) + if Last(s).at > cutoff then [Last(s)] else []
  }

  function AfterRecord(cfg: Config, w: Windows, target: string, f: Failure, now: Time): Windows {
    w[target := Recent(Events(w, target) + [f], now - cfg.timeWindow)]
  }

  function Nodes(s: seq<Failure>): set<string> {
    set f | f in s :: f.node
  }

  function NodesIn(s: seq<Failure>, mode: NetworkMode): set<string> {
    set f | f in s && f.mode == mode :: f.node
  }

  function RadiusOf(topology: Option<Map>, nodes: set<string>): BlastRadius {
    match topology
    case None => Node
    case Some(m) => Radius(m.index, m.threshold, |nodes|, |ZonesOf(m.index, nodes)|)
  }

  /** Nothing stops an empty window without a minimum, so its first event is looked up and the index panics. */
  predicate Panics(cfg: Config, s: seq<Failure>) {
    s == [] && cfg.minNodes <= 0
  }

  function PatternOf(cfg: Config, s: seq<Failure>, topology: Option<Map>): Pattern
    requires !Panics(cfg, s)
  {
    var pods, hosts := NodesIn(s, Pod), NodesIn(s, Host);
    if |s| < cfg.minNodes then Unknown
    else if pods != {} && hosts == {} then CniIssue
    else if hosts != {} && pods == {} then NodeRoutingIssue
    else if |Nodes(s)| >= cfg.minNodes && forall f | f in s :: f.code == s[0].code then TargetOutage
    else if topology.Some? && RadiusOf(topology, Nodes(s)) == Zone then ZoneIssue
    else if |Nodes(s)| == 1 then NodeIssue
    else Unknown
  }

  /** The zones of the given nodes that have a name. */
  function NamedZones(topology: Option<Map>, nodes: set<string>): set<string> {
    match topology
    case None => {}
    case Some(m) => set n | n in nodes && n in m.index.nodeZone && m.index.nodeZone[n] != "" :: m.index.nodeZone[n]
  }

  function Earliest(s: seq<Failure>): Time
    requires s != []
  {
    if |s| == 1 then s[0].at else Min(Earliest(Front(s)), Last(s).at)
  }

  /** Everything in a report except the order of its lists, which Go's map iteration leaves open. */
  ghost predicate Describes(r: Report, cfg: Config, target: string, s: seq<Failure>, topology: Option<Map>)
    requires s != []
  {
    && r.target == target && r.layer == s[0].layer
    && multiset(r.affectedNodes) == multiset(Nodes(s))
    && multiset(r.affectedZones) == multiset(NamedZones(topology, Nodes(s)))
    && r.radius == RadiusOf(topology, Nodes(s))
    && r.pattern == PatternOf(cfg, s, topology)
    && r.startTime == Earliest(s)
  }

  class CorrelationEngine {
    const config: Config
    var failureWindow: Windows

    constructor (config: Config)
      ensures failureWindow == map[] && this.config == config
    {
      this.config := config;
      failureWindow := map[];
    }

    /** The clock is read for the timestamp of the event and again for the cutoff. */
    method RecordFailure(target: string, success: bool, f: Failure, now: Time)
      modifies this
      ensures failureWindow == if success then old(failureWindow)
              else AfterRecord(config, old(failureWindow), target, f, now)
    {
      if success {
        return;
      }
      failureWindow := failureWindow[target := Events(failureWindow, target) + [f]];
      CleanupOldEvents(target, now);
    }

    method CleanupOldEvents(target: string, now: Time)
      modifies this
      ensures failureWindow ==
              old(failureWindow)[target := Recent(Events(old(failureWindow), target), now - config.timeWindow)]
    {
      var events := Events(failureWindow, target);
      var cutoff := now - config.timeWindow;
      var cleaned := [];
      for i := 0 to |events|
        invariant cleaned == Recent(events[..i], cutoff)
      {
        assert Front(events[..i + 1]) == events[..i];
        if events[i].at > cutoff {
          cleaned := cleaned + [events[i]];
        }
      }
      assert events[..|events|] == events;
      failureWindow := failureWindow[target := cleaned];
    }

    method ClearTarget(target: string)
      modifies this
      ensures failureWindow == old(failureWindow) - {target}
    {
      failureWindow := failureWindow - {target};
    }

    method GetAffectedNodes(target: string) returns (nodes: seq<string>)
      ensures multiset(nodes) == multiset(Nodes(Events(failureWindow, target)))
    {
      var events := Events(failureWindow, target);
      var nodeSet := {};
      for i := 0 to |events|
        invariant nodeSet == Nodes(events[..i])
      {
        assert events[..i + 1] == events[..i] + [events[i]];
        nodeSet := nodeSet + {events[i].node};
      }
      assert events[..|events|] == events;
      nodes := Enumerate(nodeSet);
    }

    static method Enumerate(s: set<string>) returns (list: seq<string>)
      ensures multiset(list) == multiset(s)
    {
      list := [];
      var todo := s;
      while todo != {}
        invariant todo <= s && multiset(list) == multiset(s - todo)
        decreases |todo|
      {
        var x :| x in todo;
        assert s - (todo - {x}) == (s - todo) + {x};
        list := list + [x];
        todo := todo - {x};
      }
      assert s - todo == s;
    }

    /** No result stands for the index panic. */
    method DetectPattern(target: string, topology: TopologyAnalyzer?) returns (pattern: Option<Pattern>)
      ensures pattern.None? <==> Panics(config, Events(failureWindow, target))
      ensures pattern.Some? ==>
                pattern.value == PatternOf(config, Events(failureWindow, target), Snapshot(topology))
    {
      var events := Events(failureWindow, target);
      if |events| < config.minNodes {
        return Some(Unknown);
      }
      var nodes, pods, hosts := Tally(events);
      if |pods| > 0 && |hosts| == 0 {
        return Some(CniIssue);
      }
      if |hosts| > 0 && |pods| == 0 {
        return Some(NodeRoutingIssue);
      }
      if |nodes| >= config.minNodes {
        if |events| == 0 {
          return None;
        }
        var allSame := SameCode(events);
        if allSame {
          return Some(TargetOutage);
        }
      }
      var affectedNodes := GetAffectedNodes(target);
      if topology != null {
        ListedOnce(topology.View(), affectedNodes, nodes);
        var radius := topology.ClassifyBlastRadius(affectedNodes);
        if radius == Zone {
          return Some(ZoneIssue);
        }
      }
      if |nodes| == 1 {
        return Some(NodeIssue);
      }
      return Some(Unknown);
    }

    /** The nodes that failed, and those that failed from the pod and from the host network. */
    static method Tally(events: seq<Failure>) returns (nodes: set<string>, pods: set<string>, hosts: set<string>)
      ensures nodes == Nodes(events) && pods == NodesIn(events, Pod) && hosts == NodesIn(events, Host)
    {
      nodes, pods, hosts := {}, {}, {};
      for i := 0 to |events|
        invariant nodes == Nodes(events[..i]) && pods == NodesIn(events[..i], Pod) &&
                  hosts == NodesIn(events[..i], Host)
      {
        assert events[..i + 1] == events[..i] + [events[i]];
        nodes := nodes + {events[i].node};
        if events[i].mode == Pod {
          pods := pods + {events[i].node};
        } else if events[i].mode == Host {
          hosts := hosts + {events[i].node};
        }
      }
      assert events[..|events|] == events;
    }

    static method SameCode(events: seq<Failure>) returns (same: bool)
      requires events != []
      ensures same <==> forall f | f in events :: f.code == events[0].code
    {
      for i := 0 to |events|
        invariant forall j | 0 <= j < i :: events[j].code == events[0].code
      {
        if events[i].code != events[0].code {
          assert events[i] in events;
          return false;
        }
      }
      return true;
    }

    method GenerateReport(target: string, topology: TopologyAnalyzer?) returns (report: Option<Report>)
      ensures report.None? <==> Events(failureWindow, target) == []
      ensures report.Some? ==>
              Describes(report.value, config, target, Events(failureWindow, target), Snapshot(topology))
    {
      var events := Events(failureWindow, target);
      if |events| == 0 {
        return None;
      }
      var affectedNodes := GetAffectedNodes(target);
      var affectedZones := [];
      if topology != null {
        affectedZones := CollectZones(topology, affectedNodes);
        ListedOnce(topology.View(), affectedNodes, Nodes(events));
      }
      var pattern := DetectPattern(target, topology);
      var radius := Node;
      if topology != null {
        radius := topology.ClassifyBlastRadius(affectedNodes);
      }
      var startTime := StartTime(events);
      SameElements(affectedNodes, Nodes(events));
      report := Some(Report(target, events[0].layer, affectedNodes, affectedZones, radius, pattern.value, startTime));
    }

    static method CollectZones(topology: TopologyAnalyzer, nodes: seq<string>) returns (zones: seq<string>)
      ensures multiset(zones) == multiset(NamedZones(Snapshot(topology), Elements(nodes)))
    {
      zones := [];
      ghost var m := Snapshot(topology).value;
      for i := 0 to |nodes|
        invariant multiset(zones) == multiset(NamedZones(Some(m), Elements(nodes[..i])))
      {
        var zone := topology.GetZone(nodes[i]);
        OneMoreZone(m, nodes, i);
        ghost var found := NamedZones(Some(m), Elements(nodes[..i]));
        AddNew(zones, found, zone);
        if zone != "" && zone !in zones {
          zones := zones + [zone];
        }
      }
      assert nodes[..|nodes|] == nodes;
    }

    static method StartTime(events: seq<Failure>) returns (start: Time)
      requires events != []
      ensures start == Earliest(events)
    {
      start := events[0].at;
      for i := 1 to |events|
        invariant start == Earliest(events[..i])
      {
        assert Front(events[..i + 1]) == events[..i];
        if events[i].at < start {
          start := events[i].at;
        }
      }
      assert events[..|events|] == events;
    }
  }

  ghost function Snapshot(topology: TopologyAnalyzer?): Option<Map>
    reads topology
  {
    if topology == null then None else Some(Map(topology.View(), topology.clusterWideThreshold))
  }

  lemma SameElements(list: seq<string>, s: set<string>)
    requires multiset(list) == multiset(s)
    ensures |list| == |s| && Elements(list) == s
  {
    assert |multiset(list)| == |multiset(s)|;
    assert forall n :: n in list <==> n in multiset(list);
  }

  lemma AddNew(list: seq<string>, s: set<string>, x: string)
    requires multiset(list) == multiset(s)
    ensures x in list <==> x in s
    ensures x !in s ==> multiset(list + [x]) == multiset(s + {x})
    ensures x in s ==> s + {x} == s
  {
    assert x in list <==> x in multiset(list);
  }

  lemma OneMoreZone(m: Map, nodes: seq<string>, i: nat)
    requires i < |nodes|
    ensures var zone := if nodes[i] in m.index.nodeZone then m.index.nodeZone[nodes[i]] else "";
            NamedZones(Some(m), Elements(nodes[..i + 1])) ==
            NamedZones(Some(m), Elements(nodes[..i])) + if zone != "" then {zone} else {}
  {
  }

  /** A list without repetitions is classified like the set of its elements. */
  lemma ListedOnce(t: Index, list: seq<string>, s: set<string>)
    requires multiset(list) == multiset(s)
    ensures forall threshold :: Classify(t, threshold, list) == Radius(t, threshold, |s|, |ZonesOf(t, s)|)
  {
    SameElements(list, s);
  }
}
