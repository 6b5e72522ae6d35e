/**
  The topology analyzer (internal/aggregator/topology.go): an index of nodes by
  zone and the classification of how far a failure spreads.
*/
module Topology {
  import opened Common

  type Labels = map<string, string>

  datatype NodeInfo = NodeInfo(name: string, zone: string, labels: Labels)

  datatype Index = Index(zones: map<string, seq<string>>, nodes: map<string, NodeInfo>, nodeZone: map<string, string>)

  const EMPTY: Index := Index(map[], map[], map[])

  function Label(labels: Labels, key: string): string {
    if key in labels then labels[key] else ""
  }

  function ZoneOf(labels: Labels): string {
    var zone := Label(labels, "topology.kubernetes.io/zone");
    var legacy := Label(labels, "failure-domain.beta.kubernetes.io/zone");
    if zone != "" then zone else if legacy != "" then legacy else "unknown"
  }

  /** A missing zone reads as the empty list. */
  function Members(zones: map<string, seq<string>>, zone: string): seq<string> {
    if zone in zones then zones[zone] else []
  }

  function AddMember(zones: map<string, seq<string>>, zone: string, node: string): map<string, seq<string>> {
    if node in Members(zones, zone) then zones else zones[zone := Members(zones, zone) + [node]]
  }

  function Without(s: seq<string>, x: string): seq<string> {
    if s == [] then [] else if s[0] == x then s[1..] else [s[0]] + Without(s[1..], x)
  }

  /** Drops the first occurrence of `node`, and the zone with it when nothing is left. */
  function DropMember(zones: map<string, seq<string>>, zone: string, node: string): map<string, seq<string>> {
    var rest := Without(Members(zones, zone), node);
    if rest == [] then zones - {zone} else zones[zone := rest]
  }

  function AfterUpdate(t: Index, node: string, labels: Labels): Index {
    var zone := ZoneOf(labels);
    Index(AddMember(t.zones, zone, node), t.nodes[node := NodeInfo(node, zone, labels)], t.nodeZone[node := zone])
  }

  function AfterRemove(t: Index, node: string): Index {
    var zone := if node in t.nodeZone then t.nodeZone[node] else "";
    Index(if zone != "" then DropMember(t.zones, zone, node) else t.zones, t.nodes - {node}, t.nodeZone - {node})
  }

  // ----- blast radius -----

  /** Go's integer division, which truncates toward zero. */
  function GoDiv(a: int, b: int): int
    requires b > 0
  {
    if a >= 0 then a / b else -(-a / b)
  }

  function Elements(s: seq<string>): set<string> {
    set x | x in s
  }

  function ZonesOf(t: Index, nodes: set<string>): set<string> {
    set n | n in nodes && n in t.nodeZone :: t.nodeZone[n]
  }

  function AffectedZones(t: Index, affected: seq<string>): set<string> {
    ZonesOf(t, Elements(affected))
  }

  /** The classification for `count` affected nodes that lie in `hit` different zones. */
  function Radius(t: Index, threshold: int, count: nat, hit: nat): BlastRadius {
    if |t.nodes| == 0 then Node
    else if count > GoDiv(|t.nodes| * threshold, 100) && hit > 1 then Cluster
    else if hit == |t.zones| && |t.zones| > 1 && count > 1 then Cluster
    else if count > 1 || hit > 1 then Zone
    else Node
  }

  function Classify(t: Index, threshold: int, affected: seq<string>): BlastRadius {
    Radius(t, threshold, |affected|, |AffectedZones(t, affected)|)
  }

  lemma {:induction false} CutFirst(s: seq<string>, x: string, i: nat)
    requires i < |s| && s[i] == x && x !in s[..i]
    ensures Without(s, x) == s[..i] + s[i + 1..]
  {
    if i > 0 {
      assert s[1..][..i - 1] == s[1..i];
      CutFirst(s[1..], x, i - 1);
      assert s[0] != x by { assert s[0] in s[..i]; }
    }
  }

  lemma {:induction false} CutNone(s: seq<string>, x: string)
    requires x !in s
    ensures Without(s, x) == s
  {
    if s != [] {
      CutNone(s[1..], x);
    }
  }

  class TopologyAnalyzer {
    const clusterWideThreshold: int
    var zones: map<string, seq<string>>
    var nodes: map<string, NodeInfo>
    var nodeZone: map<string, string>

    ghost function View(): Index
      reads this
    {
      Index(zones, nodes, nodeZone)
    }

    constructor (clusterWideThreshold: int)
      ensures View() == EMPTY && this.clusterWideThreshold == clusterWideThreshold
    {
      this.clusterWideThreshold := clusterWideThreshold;
      zones, nodes, nodeZone := map[], map[], map[];
    }

    method UpdateNode(name: string, labels: Labels)
      modifies this
      ensures View() == AfterUpdate(old(View()), name, labels)
    {
      var zone := Label(labels, "topology.kubernetes.io/zone");
      if zone == "" {
        zone := Label(labels, "failure-domain.beta.kubernetes.io/zone");
      }
      if zone == "" {
        zone := "unknown";
      }
      nodes := nodes[name := NodeInfo(name, zone, labels)];
      nodeZone := nodeZone[name := zone];
      var list := Members(zones, zone);
      var found := false;
      for i := 0 to |list|
        invariant found <==> name in list[..i]
      {
        if list[i] == name {
          found := true;
          assert name in list;
          break;
        }
      }
      assert found <==> name in list;
      if !found {
        zones := zones[zone := list + [name]];
      }
    }

    method RemoveNode(name: string)
      modifies this
      ensures View() == AfterRemove(old(View()), name)
    {
      var zone := if name in nodeZone then nodeZone[name] else "";
      nodes := nodes - {name};
      nodeZone := nodeZone - {name};
      if zone != "" {
        RemoveFromZone(zone, name);
      }
    }

    method RemoveFromZone(zone: string, name: string)
      modifies this`zones
      ensures zones == DropMember(old(zones), zone, name)
    {
      var list := Members(zones, zone);
      var rest := list;
      CutNoneIfAbsent(list, name);
      for i := 0 to |list|
        invariant name !in list[..i] && rest == list
      {
        if list[i] == name {
          CutFirst(list, name, i);
          rest := list[..i] + list[i + 1..];
          break;
        }
      }
      if |rest| == 0 {
        zones := zones - {zone};
      } else {
        zones := zones[zone := rest];
      }
    }

    method ClassifyBlastRadius(affectedNodes: seq<string>) returns (radius: BlastRadius)
      ensures radius == Classify(View(), clusterWideThreshold, affectedNodes)
    {
      var totalNodes := |nodes|;
      if totalNodes == 0 {
        return Node;
      }
      var affectedCount := |affectedNodes|;
      var affectedZones := {};
      for i := 0 to |affectedNodes|
        invariant affectedZones == AffectedZones(View(), affectedNodes[..i])
      {
        var node := affectedNodes[i];
        if node in nodeZone {
          affectedZones := affectedZones + {nodeZone[node]};
        }
        assert affectedNodes[..i + 1] == affectedNodes[..i] + [node];
      }
      assert affectedNodes[..|affectedNodes|] == affectedNodes;
      var totalZones := |zones|;
      var clusterThreshold := GoDiv(totalNodes * clusterWideThreshold, 100);
      if affectedCount > clusterThreshold && |affectedZones| > 1 {
        return Cluster;
      }
      if |affectedZones| == totalZones && totalZones > 1 && affectedCount > 1 {
        return Cluster;
      }
      if affectedCount > 1 || |affectedZones| > 1 {
        return Zone;
      }
      return Node;
    }

    method GetZone(name: string) returns (zone: string)
      ensures zone == if name in nodeZone then nodeZone[name] else ""
    {
      zone := if name in nodeZone then nodeZone[name] else "";
    }
  }

  lemma CutNoneIfAbsent(s: seq<string>, x: string)
    ensures x !in s ==> Without(s, x) == s
  {
  }
}
