/**
  The node index over whole runs of updates and removals, when its zone lists are
  exactly the inverse of the node-to-zone map, and the order properties of the
  blast radius and of the severity built on it.
*/
module TopologyRuns {
  import opened Common
  import opened Topology
  import Alerting

  datatype Op = Update(node: string, labels: Labels) | Remove(node: string)

  function Apply(t: Index, op: Op): Index {
    match op
    case Update(node, labels) => AfterUpdate(t, node, labels)
    case Remove(node) => AfterRemove(t, node)
  }

  function Run(ops: seq<Op>): Index {
    if ops == [] then EMPTY else Apply(Run(Front(ops)), Last(ops))
  }

  ghost predicate NoDup(s: seq<string>) {
    forall i, j | 0 <= i < j < |s| :: s[i] != s[j]
  }

  ghost predicate WellFormedList(zones: map<string, seq<string>>, zone: string) {
    zone in zones ==> zones[zone] != [] && NoDup(zones[zone])
  }

  ghost predicate Filed(t: Index, node: string) {
    node in t.nodeZone ==> t.nodeZone[node] != "" && node in Members(t.zones, t.nodeZone[node])
  }

  /** What every run keeps: nodes and zones have the same keys, and every node is in its zone's list. */
  ghost predicate Inv(t: Index) {
    && t.nodes.Keys == t.nodeZone.Keys
    && (forall z | z in t.zones :: WellFormedList(t.zones, z))
    && (forall n | n in t.nodeZone :: Filed(t, n))
  }

  /** No zone lists a node that lives elsewhere. */
  ghost predicate Exact(t: Index) {
    forall z, n | z in t.zones && n in t.zones[z] :: n in t.nodeZone && t.nodeZone[n] == z
  }

  // ----- the index on every run -----

  lemma {:induction false} WithoutKeeps(s: seq<string>, x: string)
    ensures forall y | y != x :: y in Without(s, x) <==> y in s
    ensures NoDup(s) ==> NoDup(Without(s, x)) && x !in Without(s, x)
    ensures forall y | y in Without(s, x) :: y in s
  {
    if s != [] {
      WithoutKeeps(s[1..], x);
      assert s == [s[0]] + s[1..];
      if NoDup(s) {
        assert NoDup(s[1..]);
        assert s[0] !in s[1..];
      }
    }
  }

  lemma AddKeeps(zones: map<string, seq<string>>, zone: string, node: string)
    requires forall z | z in zones :: WellFormedList(zones, z)
    ensures var after := AddMember(zones, zone, node);
            && (forall z | z in after :: WellFormedList(after, z))
            && (forall z, n :: n in Members(after, z) <==> n in Members(zones, z) || (z == zone && n == node))
  {
  }

  lemma DropKeeps(zones: map<string, seq<string>>, zone: string, node: string)
    requires forall z | z in zones :: WellFormedList(zones, z)
    ensures var after := DropMember(zones, zone, node);
            && (forall z | z in after :: WellFormedList(after, z))
            && (forall z, n :: n in Members(after, z) <==> n in Members(zones, z) && !(z == zone && n == node))
  {
    var list, after := Members(zones, zone), DropMember(zones, zone, node);
    assert WellFormedList(zones, zone);
    WithoutKeeps(list, node);
    forall z | z in after
      ensures WellFormedList(after, z)
    {
      assert z != zone ==> WellFormedList(zones, z);
    }
  }

  lemma UpdateKeepsInv(t: Index, node: string, labels: Labels)
    requires Inv(t)
    ensures Inv(AfterUpdate(t, node, labels))
  {
  }

  lemma RemoveKeepsInv(t: Index, node: string)
    requires Inv(t)
    ensures Inv(AfterRemove(t, node))
  {
    var t' := AfterRemove(t, node);
    if node in t.nodeZone {
      assert Filed(t, node);
      DropKeeps(t.zones, t.nodeZone[node], node);
    }
    forall n | n in t'.nodeZone
      ensures Filed(t', n)
    {
      assert Filed(t, n);
    }
  }

  lemma {:induction false} RunKeepsInv(ops: seq<Op>)
    ensures Inv(Run(ops))
  {
    if ops != [] {
      RunKeepsInv(Front(ops));
      match Last(ops)
      case Update(node, labels) => UpdateKeepsInv(Run(Front(ops)), node, labels);
      case Remove(node) => RemoveKeepsInv(Run(Front(ops)), node);
    }
  }

  /** The labels a node was last registered with. */
  function Registered(ops: seq<Op>, node: string): Option<Labels> {
    if ops == [] then None
    else match Last(ops)
      case Update(n, labels) => if n == node then Some(labels) else Registered(Front(ops), node)
      case Remove(n) => if n == node then None else Registered(Front(ops), node)
  }

  predicate Labelled(labels: Labels, key: string) {
    key in labels && labels[key] != ""
  }

  /** On every run a node is known exactly since its last update, with its labels then, in the zone they name. */
  lemma {:induction false} ZonesAreRegistered(ops: seq<Op>, node: string)
    ensures var t, labels := Run(ops), Registered(ops, node);
            if labels.None? then node !in t.nodes && node !in t.nodeZone
            else
              var zone := "topology.kubernetes.io/zone";
              var legacy := "failure-domain.beta.kubernetes.io/zone";
              && node in t.nodes && t.nodes[node].name == node && t.nodes[node].labels == labels.value
              && node in t.nodeZone && t.nodeZone[node] == t.nodes[node].zone
              && t.nodeZone[node] == (if Labelled(labels.value, zone) then labels.value[zone]
                                      else if Labelled(labels.value, legacy) then labels.value[legacy]
                                      else "unknown")
  {
    if ops != [] {
      ZonesAreRegistered(Front(ops), node);
    }
  }

  // ----- when the index is exactly an inverse -----

  /** An update keeps the index exact if and only if it does not move a known node to another zone. */
  lemma UpdateKeepsExact(t: Index, node: string, labels: Labels)
    requires Inv(t) && Exact(t)
    ensures Exact(AfterUpdate(t, node, labels)) <==> (node in t.nodeZone ==> t.nodeZone[node] == ZoneOf(labels))
  {
    var t', zone := AfterUpdate(t, node, labels), ZoneOf(labels);
    AddKeeps(t.zones, zone, node);
    if node in t.nodeZone && t.nodeZone[node] != zone {
      var home := t.nodeZone[node];
      assert Filed(t, node) && node in Members(t'.zones, home);
      assert home in t'.zones && node in t'.zones[home] && t'.nodeZone[node] != home;
    } else {
      forall z, n | z in t'.zones && n in t'.zones[z]
        ensures n in t'.nodeZone && t'.nodeZone[n] == z
      {
        assert n in Members(t'.zones, z);
        assert n in Members(t.zones, z) || (z == zone && n == node);
      }
    }
  }

  /** What is still listed after a removal is not the removed node, and lives where it is listed. */
  lemma StaysInZone(t: Index, node: string, z: string, n: string)
    requires Inv(t) && Exact(t) && node in t.nodeZone
    requires z in AfterRemove(t, node).zones && n in AfterRemove(t, node).zones[z]
    ensures n in t.nodeZone && t.nodeZone[n] == z && n != node
  {
    assert Filed(t, node);
    DropKeeps(t.zones, t.nodeZone[node], node);
    assert n in Members(AfterRemove(t, node).zones, z);
    assert n in Members(t.zones, z) && z in t.zones;
  }

  lemma RemoveKeepsExact(t: Index, node: string)
    requires Inv(t) && Exact(t)
    ensures Exact(AfterRemove(t, node))
  {
    var t' := AfterRemove(t, node);
    if node in t.nodeZone {
      forall z, n | z in t'.zones && n in t'.zones[z]
        ensures n in t'.nodeZone && t'.nodeZone[n] == z
      {
        StaysInZone(t, node, z, n);
      }
    } else {
      assert t'.zones == t.zones;
    }
  }

  /** No update of the run moves a node that is known at that point. */
  ghost predicate NeverMoves(ops: seq<Op>) {
    ops != [] ==>
      && NeverMoves(Front(ops))
      && (Last(ops).Update? ==>
            var zones := Run(Front(ops)).nodeZone;
            Last(ops).node in zones ==> zones[Last(ops).node] == ZoneOf(Last(ops).labels))
  }

  lemma {:induction false} RunKeepsExact(ops: seq<Op>)
    requires NeverMoves(ops)
    ensures Exact(Run(ops)) && TotalMembers(Run(ops).zones) == |Run(ops).nodes|
  {
    if ops != [] {
      RunKeepsExact(Front(ops));
      RunKeepsInv(Front(ops));
      match Last(ops)
      case Update(node, labels) => UpdateKeepsExact(Run(Front(ops)), node, labels);
      case Remove(node) => RemoveKeepsExact(Run(Front(ops)), node);
    }
    RunKeepsInv(ops);
    ExactMeansNoSurplus(Run(ops));
  }

  /** The index is exact after every operation of the run. */
  ghost predicate AlwaysExact(ops: seq<Op>) {
    Exact(Run(ops)) && (ops != [] ==> AlwaysExact(Front(ops)))
  }

  /** The lists are the inverse of the node map throughout a run if and only if no update moves a known node. */
  lemma {:induction false} AlwaysExactly(ops: seq<Op>)
    ensures AlwaysExact(ops) <==> NeverMoves(ops)
  {
    if ops != [] {
      AlwaysExactly(Front(ops));
      RunKeepsInv(Front(ops));
      if AlwaysExact(Front(ops)) {
        assert Exact(Run(Front(ops)));
        match Last(ops)
        case Update(node, labels) => UpdateKeepsExact(Run(Front(ops)), node, labels);
        case Remove(node) => RemoveKeepsExact(Run(Front(ops)), node);
      }
    }
  }

  // ----- counting list entries -----

  /** The total length of all zone lists. */
  ghost function TotalMembers(zones: map<string, seq<string>>): nat
    decreases |zones|
  {
    if zones == map[] then 0
    else
      var z :| z in zones;
      RemoveOne(zones, z);
      |zones[z]| + TotalMembers(zones - {z})
  }

  ghost function Entries(zones: map<string, seq<string>>): set<(string, string)> {
    set z, n | z in zones && n in zones[z] :: (z, n)
  }

  lemma {:induction false} ListEntries(z: string, s: seq<string>)
    requires NoDup(s)
    ensures |set n | n in s :: (z, n)| == |s|
  {
    if s != [] {
      ListEntries(z, Front(s));
      var rest := set n | n in Front(s) :: (z, n);
      assert s == Front(s) + [Last(s)];
      assert (set n | n in s :: (z, n)) == rest + {(z, Last(s))};
      assert Last(s) !in Front(s);
    } else {
      assert (set n | n in s :: (z, n)) == {};
    }
  }

  lemma {:induction false} TotalIsEntries(zones: map<string, seq<string>>)
    requires forall z | z in zones :: NoDup(zones[z])
    ensures TotalMembers(zones) == |Entries(zones)|
    decreases |zones|
  {
    if zones == map[] {
      assert Entries(zones) == {};
    } else {
      var z :| z in zones && TotalMembers(zones) == |zones[z]| + TotalMembers(zones - {z});
      RemoveOne(zones, z);
      TotalIsEntries(zones - {z});
      ListEntries(z, zones[z]);
      var mine := set n | n in zones[z] :: (z, n);
      assert Entries(zones) == Entries(zones - {z}) + mine;
      assert Entries(zones - {z}) !! mine;
    }
  }

  lemma EntriesAgainstHomes(t: Index)
    requires Inv(t)
    ensures Homes(t.nodeZone) <= Entries(t.zones)
    ensures Homes(t.nodeZone) == Entries(t.zones) <==> Exact(t)
  {
    forall n | n in t.nodeZone
      ensures (t.nodeZone[n], n) in Entries(t.zones)
    {
      assert Filed(t, n);
    }
    if Exact(t) {
      forall p | p in Entries(t.zones)
        ensures p in Homes(t.nodeZone)
      {
        assert p.0 in t.zones && p.1 in t.zones[p.0];
        assert p == (t.nodeZone[p.1], p.1);
      }
    } else {
      var z, n :| z in t.zones && n in t.zones[z] && !(n in t.nodeZone && t.nodeZone[n] == z);
      assert (z, n) in Entries(t.zones) && (z, n) !in Homes(t.nodeZone);
    }
  }

  /** The lists hold every node at least once, and exactly once precisely when the index is exact. */
  lemma ExactMeansNoSurplus(t: Index)
    requires Inv(t)
    ensures TotalMembers(t.zones) >= |t.nodes|
    ensures TotalMembers(t.zones) == |t.nodes| <==> Exact(t)
  {
    forall z | z in t.zones
      ensures NoDup(t.zones[z])
    {
      assert WellFormedList(t.zones, z);
    }
    TotalIsEntries(t.zones);
    HomesCount(t.nodeZone);
    EntriesAgainstHomes(t);
    SubsetSize(Homes(t.nodeZone), Entries(t.zones));
    assert |t.nodes| == |t.nodes.Keys| == |t.nodeZone.Keys| == |t.nodeZone|;
  }

  ghost function Homes(nodeZone: map<string, string>): set<(string, string)> {
    set n | n in nodeZone :: (nodeZone[n], n)
  }

  lemma {:induction false} HomesCount(nodeZone: map<string, string>)
    ensures |Homes(nodeZone)| == |nodeZone|
    decreases |nodeZone|
  {
    if nodeZone == map[] {
      assert Homes(nodeZone) == {};
    } else {
      var m :| m in nodeZone;
      RemoveOne(nodeZone, m);
      var rest := nodeZone - {m};
      HomesCount(rest);
      forall p
        ensures p in Homes(nodeZone) <==> p in Homes(rest) || p == (nodeZone[m], m)
      {
        if p.1 in rest {
          assert rest[p.1] == nodeZone[p.1];
        }
      }
      assert Homes(nodeZone) == Homes(rest) + {(nodeZone[m], m)};
    }
  }

  // ----- blast radius -----

  /** The threshold test is exact in spite of the truncated division, for every threshold. */
  lemma ClusterExactly(t: Index, threshold: int, affected: seq<string>)
    requires |t.nodes| > 0
    ensures var hit := |AffectedZones(t, affected)|;
            Classify(t, threshold, affected) == Cluster <==>
              hit > 1 && (100 * |affected| > threshold * |t.nodes| || hit == |t.zones|)
  {
    ZonesNeedNodes(t, Elements(affected));
    ElementsFit(affected);
    var product := |t.nodes| * threshold;
    assert product == threshold * |t.nodes|;
  }

  /** Node `i` of the list is known to be in zone `z`. */
  ghost predicate Hits(t: Index, affected: seq<string>, i: nat, z: string) {
    i < |affected| && affected[i] in t.nodeZone && t.nodeZone[affected[i]] == z
  }

  /** Two of the listed nodes are in different zones. */
  ghost predicate SeveralZones(t: Index, affected: seq<string>) {
    exists i, j, y, z :: Hits(t, affected, i, y) && Hits(t, affected, j, z) && y != z
  }

  /** Every zone of the index holds a listed node. */
  ghost predicate AllZones(t: Index, affected: seq<string>) {
    forall z | z in t.zones :: exists i :: Hits(t, affected, i, z)
  }

  lemma ZonesAreHit(t: Index, affected: seq<string>, z: string)
    ensures z in AffectedZones(t, affected) <==> exists i :: Hits(t, affected, i, z)
  {
    if z in AffectedZones(t, affected) {
      var n :| n in affected && n in t.nodeZone && t.nodeZone[n] == z;
      var i :| 0 <= i < |affected| && affected[i] == n;
      assert Hits(t, affected, i, z);
    }
    if i: nat :| Hits(t, affected, i, z) {
      assert affected[i] in Elements(affected);
    }
  }

  lemma SeveralZonesAreHit(t: Index, affected: seq<string>)
    ensures SeveralZones(t, affected) <==> |AffectedZones(t, affected)| > 1
  {
    var zones := AffectedZones(t, affected);
    forall z
      ensures z in zones <==> exists i :: Hits(t, affected, i, z)
    {
      ZonesAreHit(t, affected, z);
    }
    if |zones| > 1 {
      var y :| y in zones;
      assert |zones - {y}| == |zones| - 1;
      var z :| z in zones - {y};
      var i :| Hits(t, affected, i, y);
      var j :| Hits(t, affected, j, z);
    }
    if i: nat, j: nat, y, z :| Hits(t, affected, i, y) && Hits(t, affected, j, z) && y != z {
      SubsetSize({y, z}, zones);
    }
  }

  /** The threshold test in the nodes themselves, on any index a run can reach. */
  lemma ClusterInNodes(t: Index, threshold: int, affected: seq<string>)
    requires Inv(t) && |t.nodes| > 0
    ensures Classify(t, threshold, affected) == Cluster <==>
            SeveralZones(t, affected) &&
            (100 * |affected| > threshold * |t.nodes| || AllZones(t, affected))
  {
    var zones := AffectedZones(t, affected);
    ClusterExactly(t, threshold, affected);
    SeveralZonesAreHit(t, affected);
    ZonesAreKnown(t, Elements(affected));
    SubsetSize(zones, t.zones.Keys);
    assert |t.zones.Keys| == |t.zones|;
    forall z | z in t.zones
      ensures z in zones <==> exists i :: Hits(t, affected, i, z)
    {
      ZonesAreHit(t, affected, z);
    }
  }

  /** A failure stays with a node exactly when no second node is listed, or no node is known at all. */
  lemma NodeExactly(t: Index, threshold: int, affected: seq<string>)
    ensures Classify(t, threshold, affected) == Node <==> |t.nodes| == 0 || |affected| <= 1
  {
    ZonesNeedNodes(t, Elements(affected));
    ElementsFit(affected);
  }

  lemma {:induction false} ZonesNeedNodes(t: Index, nodes: set<string>)
    ensures |ZonesOf(t, nodes)| <= |nodes|
    decreases nodes
  {
    if nodes == {} {
      assert ZonesOf(t, nodes) == {};
    } else {
      var n :| n in nodes;
      ZonesNeedNodes(t, nodes - {n});
      assert ZonesOf(t, nodes) == ZonesOf(t, nodes - {n}) + if n in t.nodeZone then {t.nodeZone[n]} else {};
    }
  }

  lemma {:induction false} ElementsFit(s: seq<string>)
    ensures |Elements(s)| <= |s|
  {
    if s == [] {
      assert Elements(s) == {};
    } else {
      ElementsFit(Front(s));
      assert s == Front(s) + [Last(s)];
      assert Elements(s) == Elements(Front(s)) + {Last(s)};
    }
  }

  lemma ZonesAreKnown(t: Index, nodes: set<string>)
    requires Inv(t)
    ensures ZonesOf(t, nodes) <= t.zones.Keys
  {
  }

  /** More nodes in at least the same zones never narrow the radius, on any index a run can reach. */
  lemma RadiusMonotone(t: Index, threshold: int, a: nat, za: set<string>, b: nat, zb: set<string>)
    requires a <= b && za <= zb && zb <= t.zones.Keys
    ensures RadiusRank(Radius(t, threshold, a, |za|)) <= RadiusRank(Radius(t, threshold, b, |zb|))
  {
    SubsetSize(za, zb);
    SubsetSize(zb, t.zones.Keys);
    SubsetSize(za, t.zones.Keys);
    assert |t.zones| == |t.zones.Keys|;
  }

  lemma RadiusOfMore(t: Index, threshold: int, a: set<string>, b: set<string>)
    requires Inv(t) && a <= b
    ensures RadiusRank(Radius(t, threshold, |a|, |ZonesOf(t, a)|)) <=
            RadiusRank(Radius(t, threshold, |b|, |ZonesOf(t, b)|))
  {
    ZonesAreKnown(t, b);
    SubsetSize(a, b);
    RadiusMonotone(t, threshold, |a|, ZonesOf(t, a), |b|, ZonesOf(t, b));
  }

  /** More failing nodes never narrow the blast radius, on any index a run can reach. */
  lemma ClassifyMonotone(t: Index, threshold: int, a: seq<string>, b: seq<string>)
    requires Inv(t) && multiset(a) <= multiset(b)
    ensures RadiusRank(Classify(t, threshold, a)) <= RadiusRank(Classify(t, threshold, b))
  {
    assert |a| == |multiset(a)| <= |multiset(b)| == |b| by {
      assert multiset(b) == multiset(a) + (multiset(b) - multiset(a));
    }
    forall n | n in a
      ensures n in b
    {
      assert n in multiset(a) && n in multiset(b);
    }
    ZonesAreKnown(t, Elements(b));
    RadiusMonotone(t, threshold, |a|, AffectedZones(t, a), |b|, AffectedZones(t, b));
  }

  /** The order in which nodes are listed is irrelevant. */
  lemma ClassifyIgnoresOrder(t: Index, threshold: int, a: seq<string>, b: seq<string>)
    requires multiset(a) == multiset(b)
    ensures Classify(t, threshold, a) == Classify(t, threshold, b)
  {
    assert |a| == |multiset(a)| == |multiset(b)| == |b|;
    assert forall n :: n in a <==> n in multiset(a);
    assert forall n :: n in b <==> n in multiset(b);
    assert AffectedZones(t, a) == AffectedZones(t, b);
  }

  /** On every run, with every threshold, layer and criticality, more failing nodes never lower the severity. */
  lemma SeverityNeverDrops(ops: seq<Op>, threshold: int, a: seq<string>, b: seq<string>, layer: string,
                           criticality: string)
    requires multiset(a) <= multiset(b)
    ensures var t := Run(ops);
            Alerting.SeverityRank(Alerting.CalculateSeverity(layer, Classify(t, threshold, a), criticality)) <=
            Alerting.SeverityRank(Alerting.CalculateSeverity(layer, Classify(t, threshold, b), criticality))
  {
    RunKeepsInv(ops);
    ClassifyMonotone(Run(ops), threshold, a, b);
  }
}
