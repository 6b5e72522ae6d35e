/**
  The incremental sliding window over whole runs: it always equals a filter over
  everything recorded since the target was last cleared, it is a suffix of that
  record, and reports built on it behave monotonically.
*/
module CorrelationRuns {
  import opened Common
  import opened Requests
  import opened Topology
  import opened TopologyRuns
  import opened Correlation

  /** A recorded failure, stamped at `f.at` and filtered with the clock at `now`, or a clear. */
  datatype Op = Record(target: string, f: Failure, now: Time) | Clear(target: string)

  function Apply(cfg: Config, w: Windows, op: Op): Windows {
    match op
    case Record(target, f, now) => AfterRecord(cfg, w, target, f, now)
    case Clear(target) => w - {target}
  }

  function Run(cfg: Config, ops: seq<Op>): Windows {
    if ops == [] then map[] else Apply(cfg, Run(cfg, Front(ops)), Last(ops))
  }

  /** Every failure of the target recorded since it was last cleared, oldest first. */
  function Since(ops: seq<Op>, target: string): seq<Failure> {
    if ops == [] then []
    else match Last(ops)
      case Record(t, f, _) => Since(Front(ops), target) + if t == target then [f] else []
      case Clear(t) => if t == target then [] else Since(Front(ops), target)
  }

  /** The clock reading used by the latest record of the target, if there is one since the last clear. */
  function LastRead(ops: seq<Op>, target: string): Option<Time> {
    if ops == [] then None
    else match Last(ops)
      case Record(t, _, now) => if t == target then Some(now) else LastRead(Front(ops), target)
      case Clear(t) => if t == target then None else LastRead(Front(ops), target)
  }

  /** The clock never runs backwards. */
  ghost predicate Clocked(ops: seq<Op>) {
    && (forall i | 0 <= i < |ops| && ops[i].Record? :: ops[i].f.at <= ops[i].now)
    && (forall i, j | 0 <= i < j < |ops| && ops[i].Record? && ops[j].Record? :: ops[i].now <= ops[j].f.at)
  }

  ghost predicate Sorted(s: seq<Failure>) {
    forall i, j | 0 <= i < j < |s| :: s[i].at <= s[j].at
  }

  /** Filtering twice with growing cutoffs is filtering once. */
  lemma {:induction false} RecentTwice(s: seq<Failure>, f: Failure, c: Time, d: Time)
    requires c <= d
    ensures Recent(Recent(s, c) + [f], d) == Recent(s + [f], d)
  {
    RecentOfRecent(s, c, d);
    assert Front(s + [f]) == s && Front(Recent(s, c) + [f]) == Recent(s, c);
  }

  lemma {:induction false} RecentOfRecent(s: seq<Failure>, c: Time, d: Time)
    requires c <= d
    ensures Recent(Recent(s, c), d) == Recent(s, d)
  {
    if s != [] {
      RecentOfRecent(Front(s), c, d);
      if Last(s).at > c {
        assert Front(Recent(s, c)) == Recent(Front(s), c);
      } else {
        assert Recent(s, c) == Recent(Front(s), c);
      }
    }
  }

  /** Recorded failures are in time order and no later than the latest clock reading. */
  lemma {:induction false} ReadsInOrder(ops: seq<Op>, target: string, t: Time)
    requires Clocked(ops) && forall i | 0 <= i < |ops| && ops[i].Record? :: ops[i].now <= t
    ensures LastRead(ops, target).Some? ==> LastRead(ops, target).value <= t
    ensures Sorted(Since(ops, target)) && forall i | 0 <= i < |Since(ops, target)| :: Since(ops, target)[i].at <= t
    ensures LastRead(ops, target).None? ==> Since(ops, target) == []
  {
    if ops != [] {
      var pre := Front(ops);
      ReadsInOrder(pre, target, if Last(ops).Record? then Last(ops).f.at else t);
    }
  }

  /** The state of one target's window after a run. */
  ghost predicate Filtered(cfg: Config, w: Windows, target: string, all: seq<Failure>, read: Option<Time>) {
    match read
    case None => target !in w && all == []
    case Some(now) => target in w && w[target] == Recent(all, now - cfg.timeWindow)
  }

  lemma RecordFilters(cfg: Config, w: Windows, target: string, all: seq<Failure>, read: Option<Time>, f: Failure,
                      now: Time)
    requires Filtered(cfg, w, target, all, read) && (read.Some? ==> read.value <= now)
    ensures Filtered(cfg, AfterRecord(cfg, w, target, f, now), target, all + [f], Some(now))
  {
    var kept := Events(w, target);
    if read.Some? {
      assert kept == Recent(all, read.value - cfg.timeWindow);
      RecentTwice(all, f, read.value - cfg.timeWindow, now - cfg.timeWindow);
    } else {
      assert kept == all;
    }
    assert Recent(kept + [f], now - cfg.timeWindow) == Recent(all + [f], now - cfg.timeWindow);
  }

  /** The stored window is exactly the record filtered with the clock of the latest failure. */
  lemma {:induction false} WindowIsFilter(cfg: Config, ops: seq<Op>, target: string)
    requires Clocked(ops)
    ensures Filtered(cfg, Run(cfg, ops), target, Since(ops, target), LastRead(ops, target))
  {
    if ops != [] {
      var pre, op := Front(ops), Last(ops);
      WindowIsFilter(cfg, pre, target);
      if op.Record? && op.target == target {
        ReadsInOrder(pre, target, op.now);
        RecordFilters(cfg, Run(cfg, pre), target, Since(pre, target), LastRead(pre, target), op.f, op.now);
      } else {
        assert Since(ops, target) == if op == Clear(target) then [] else Since(pre, target);
      }
    }
  }

  /** Of failures in time order, the recent ones are a suffix. */
  lemma {:induction false} RecentIsSuffix(s: seq<Failure>, cutoff: Time) returns (k: nat)
    requires Sorted(s)
    ensures k <= |s| && Recent(s, cutoff) == s[k..]
    ensures forall i | 0 <= i < |s| :: i < k <==> s[i].at <= cutoff
  {
    if s == [] {
      k := 0;
    } else {
      k := RecentIsSuffix(Front(s), cutoff);
      if Last(s).at > cutoff {
        assert s[k..] == Front(s)[k..] + [Last(s)];
      } else {
        k := |s|;
        assert forall i | 0 <= i < |s| :: s[i].at <= Last(s).at;
        assert Recent(s, cutoff) == [];
      }
    }
  }

  /**
    The window of a run is the in-order suffix of everything recorded since the last
    clear, cut at the window before the latest failure.
  */
  lemma WindowIsSuffix(cfg: Config, ops: seq<Op>, target: string) returns (k: nat)
    requires Clocked(ops) && LastRead(ops, target).Some?
    ensures var all, cutoff := Since(ops, target), LastRead(ops, target).value - cfg.timeWindow;
            && k <= |all| && target in Run(cfg, ops) && Run(cfg, ops)[target] == all[k..]
            && (forall i | 0 <= i < |all| :: i < k <==> all[i].at <= cutoff)
  {
    ReadsInOrder(ops, target, LatestClock(ops));
    WindowIsFilter(cfg, ops, target);
    k := RecentIsSuffix(Since(ops, target), LastRead(ops, target).value - cfg.timeWindow);
  }

  /** The last clock reading of a run. */
  ghost function LatestClock(ops: seq<Op>): (t: Time)
    requires Clocked(ops)
    ensures forall i | 0 <= i < |ops| && ops[i].Record? :: ops[i].now <= t
  {
    if ops == [] then 0
    else if Last(ops).Record? then Last(ops).now
    else LatestClock(Front(ops))
  }

  lemma {:induction false} EarliestIsFirst(s: seq<Failure>)
    requires s != [] && Sorted(s)
    ensures Earliest(s) == s[0].at
  {
    if |s| > 1 {
      EarliestIsFirst(Front(s));
    }
  }

  /** A report of any run starts at the first failure still in the window. */
  lemma ReportStartsAtFirst(cfg: Config, ops: seq<Op>, target: string, r: Report, topology: Option<Map>)
    requires Clocked(ops) && Events(Run(cfg, ops), target) != []
    requires Describes(r, cfg, target, Events(Run(cfg, ops), target), topology)
    ensures r.startTime == Events(Run(cfg, ops), target)[0].at
  {
    WindowIsFilter(cfg, ops, target);
    var k := WindowIsSuffix(cfg, ops, target);
    ReadsInOrder(ops, target, LatestClock(ops));
    EarliestIsFirst(Events(Run(cfg, ops), target));
  }

  // ----- patterns -----

  ghost predicate FailsFrom(s: seq<Failure>, mode: NetworkMode) {
    exists f :: f in s && f.mode == mode
  }

  /** Every failure has the code of the first. */
  ghost predicate OneCode(s: seq<Failure>) {
    forall f, g | f in s && g in s :: f.code == g.code
  }

  lemma ModesOfNodes(s: seq<Failure>, mode: NetworkMode)
    ensures NodesIn(s, mode) != {} <==> FailsFrom(s, mode)
  {
    if FailsFrom(s, mode) {
      var f :| f in s && f.mode == mode;
      assert f.node in NodesIn(s, mode);
    }
  }

  /**
    The pattern in the fields of the failures: too few tell nothing; failures from one
    network perspective only blame that network; then enough nodes with one code blame the
    target, a zone-wide radius the zone, and a single node the node.
  */
  lemma PatternExactly(cfg: Config, s: seq<Failure>, topology: Option<Map>)
    requires !Panics(cfg, s)
    ensures var p, enough := PatternOf(cfg, s, topology), |s| >= cfg.minNodes;
            var pods, hosts := FailsFrom(s, Pod), FailsFrom(s, Host);
            var outage := |Nodes(s)| >= cfg.minNodes && OneCode(s);
            var zonal := topology.Some? && RadiusOf(topology, Nodes(s)) == Zone;
            && (p == CniIssue <==> enough && pods && !hosts)
            && (p == NodeRoutingIssue <==> enough && hosts && !pods)
            && (p == TargetOutage <==> enough && pods == hosts && outage)
            && (p == ZoneIssue <==> enough && pods == hosts && !outage && zonal)
            && (p == NodeIssue <==> enough && pods == hosts && !outage && !zonal && |Nodes(s)| == 1)
  {
    ModesOfNodes(s, Pod);
    ModesOfNodes(s, Host);
    if s != [] {
      assert s[0] in s;
      assert OneCode(s) <==> forall f | f in s :: f.code == s[0].code;
    }
  }

  /** The radius of a set of nodes is that of any list of them, and a node's without a topology. */
  lemma RadiusOfList(topology: Option<Map>, list: seq<string>, nodes: set<string>)
    requires multiset(list) == multiset(nodes)
    ensures RadiusOf(topology, nodes) ==
            if topology.Some? then Classify(topology.value.index, topology.value.threshold, list) else Node
  {
    if topology.Some? {
      ListedOnce(topology.value.index, list, nodes);
    }
  }

  /** What a report lists: the nodes of the failures and the named zones of those nodes, each once. */
  lemma ReportLists(cfg: Config, target: string, s: seq<Failure>, topology: Option<Map>, r: Report, x: string)
    requires s != [] && Describes(r, cfg, target, s, topology)
    ensures r.target == target && r.layer == s[0].layer && r.pattern == PatternOf(cfg, s, topology)
    ensures multiset(r.affectedNodes)[x] == if exists f :: f in s && f.node == x then 1 else 0
    ensures multiset(r.affectedZones)[x] ==
            if x != "" && topology.Some? && (exists f :: f in s && f.node in topology.value.index.nodeZone &&
                                                         topology.value.index.nodeZone[f.node] == x)
            then 1 else 0
    ensures r.radius ==
            if topology.Some? then Classify(topology.value.index, topology.value.threshold, r.affectedNodes) else Node
  {
    assert x in Nodes(s) <==> exists f :: f in s && f.node == x;
    if topology.Some? {
      forall f | f in s
        ensures f.node in Nodes(s)
      {
      }
      if x in NamedZones(topology, Nodes(s)) {
        var n :| n in Nodes(s) && n in topology.value.index.nodeZone && topology.value.index.nodeZone[n] == x;
        var f :| f in s && f.node == n;
      }
    }
    RadiusOfList(topology, r.affectedNodes, Nodes(s));
  }

  /** While no failure falls out of the window, another one never narrows the reported blast radius. */
  lemma RadiusOnlyGrows(cfg: Config, w: Windows, target: string, f: Failure, now: Time, topology: Option<Map>)
    requires topology.Some? ==> Inv(topology.value.index)
    requires forall i | 0 <= i < |Events(w, target)| :: Events(w, target)[i].at > now - cfg.timeWindow
    ensures var w' := AfterRecord(cfg, w, target, f, now);
            RadiusRank(RadiusOf(topology, Nodes(Events(w, target)))) <=
            RadiusRank(RadiusOf(topology, Nodes(Events(w', target))))
  {
    var s := Events(w, target);
    var s' := Events(AfterRecord(cfg, w, target, f, now), target);
    NothingExpires(s, f, now - cfg.timeWindow);
    assert s <= s' && Nodes(s) <= Nodes(s');
    if topology.Some? {
      var m := topology.value;
      RadiusOfMore(m.index, m.threshold, Nodes(s), Nodes(s'));
    }
  }

  lemma {:induction false} AllRecent(s: seq<Failure>, cutoff: Time)
    requires forall i | 0 <= i < |s| :: s[i].at > cutoff
    ensures Recent(s, cutoff) == s
  {
    if s != [] {
      var k := |s| - 1;
      AllRecent(s[..k], cutoff);
      assert s == s[..k] + [s[k]];
    }
  }

  lemma NothingExpires(s: seq<Failure>, f: Failure, cutoff: Time)
    requires forall i | 0 <= i < |s| :: s[i].at > cutoff
    ensures s <= Recent(s + [f], cutoff)
  {
    AllRecent(s, cutoff);
    assert Front(s + [f]) == s;
  }
}
