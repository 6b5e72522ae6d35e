/**
  The result handler over whole runs: when the AlertEvent objects of the API server
  mirror the alerting targets of the decision engine.
*/
module HandlerRuns {
  import opened Common
  import opened Requests
  import opened ResultHandler
  import Alerting
  import AlertingRuns
  import Correlation
  import Processor

  /** A handled result with the API state it left behind, or a clean-up of stale processor states. */
  datatype Op =
    | Submit(r: Result, threshold: int, env: Env, topology: Option<Correlation.Map>, after: Events)
    | Expire(now: Time)

  /** The engine's view of a run: every submitted result with the threshold in force. */
  function EngineEvents(ops: seq<Op>): seq<AlertingRuns.Event> {
    if ops == [] then []
    else EngineEvents(Front(ops)) +
         if Last(ops).Submit? then [EngineEvent(Last(ops))] else []
  }

  function EngineEvent(op: Op): AlertingRuns.Event
    requires op.Submit?
  {
    AlertingRuns.Event(op.r.Key(), OutcomeOf(op.r), op.threshold, op.env.judged)
  }

  function Engine(ops: seq<Op>): Alerting.Targets {
    AlertingRuns.Run(EngineEvents(ops))
  }

  function Windows(cfg: Correlation.Config, ops: seq<Op>): Correlation.Windows {
    if ops == [] then map[]
    else if Last(ops).Submit? then AfterFailure(cfg, Windows(cfg, Front(ops)), Last(ops).r, Last(ops).env)
    else Windows(cfg, Front(ops))
  }

  function Objects(ops: seq<Op>): Events {
    if ops == [] then map[] else if Last(ops).Submit? then Last(ops).after else Objects(Front(ops))
  }

  function DecisionOf(ops: seq<Op>): Alerting.Decision
    requires ops != [] && Last(ops).Submit?
  {
    Judged(Engine(Front(ops)), Last(ops).r, Last(ops).threshold, Last(ops).env)
  }

  /** Every API request of the run goes through, and the server's timestamps strictly increase. */
  ghost predicate Legal(cfg: Correlation.Config, ops: seq<Op>) {
    ops != [] ==>
      && Legal(cfg, Front(ops))
      && (Last(ops).Submit? ==>
            && CreatedBefore(Objects(Front(ops)), Last(ops).env.created)
            && ApiStep(Objects(Front(ops)), Last(ops).after, Last(ops).r, Last(ops).env, DecisionOf(ops),
                       Correlation.Events(Windows(cfg, ops), ReportKey(Last(ops).r)), Last(ops).topology, true))
  }

  ghost predicate CreatedBefore(events: Events, t: Time) {
    forall k | k in events :: events[k].created < t
  }

  // ----- the mirror -----

  function FiringOf(events: Events, t: EventTarget): set<EventKey> {
    set k | k in Matching(events, t) && events[k].status == Firing
  }

  /** `k` is the only firing event of the target, and every other one is older. */
  ghost predicate OnlyFiring(events: Events, t: EventTarget, k: EventKey) {
    && FiringOf(events, t) == {k}
    && forall j | j in Matching(events, t) && j != k :: events[j].created < events[k].created
  }

  /** One firing event, newer than all the resolved ones, while the engine alerts; none otherwise. */
  ghost predicate Mirrors(events: Events, targets: Alerting.Targets, key: string, t: EventTarget) {
    if Alerting.Lookup(targets, key).alerting then exists k :: OnlyFiring(events, t, k)
    else FiringOf(events, t) == {}
  }

  lemma PublishMirrors(before: Events, after: Events, r: Result, env: Env, s: seq<Correlation.Failure>,
                       topology: Option<Correlation.Map>)
    requires Publishes(before, after, r, env, s, topology) && CreatedBefore(before, env.created)
    requires FiringOf(before, TargetOf(r)) == {}
    ensures OnlyFiring(after, TargetOf(r), NameFor(TargetOf(r), env.now))
  {
  }

  lemma ResolveMirrors(before: Events, after: Events, t: EventTarget, env: Env, k: EventKey)
    requires Resolves(before, after, t, env, true) && OnlyFiring(before, t, k)
    ensures FiringOf(after, t) == {}
  {
    assert k in FiringOf(before, t);
    var l :| Latest(before, t, l) && ResolvesAt(before, after, l, env, true);
    assert l == k;
    forall j | j in Matching(after, t)
      ensures after[j].status == Resolved
    {
      assert j in Matching(before, t);
      assert j != k ==> j !in FiringOf(before, t);
    }
  }

  /** Events of other targets are left alone. */
  lemma OthersUntouched(before: Events, after: Events, r: Result, env: Env, d: Alerting.Decision,
                        s: seq<Correlation.Failure>, topology: Option<Correlation.Map>, ok: bool, t: EventTarget)
    requires ApiStep(before, after, r, env, d, s, topology, ok) && t != TargetOf(r)
    ensures Matching(after, t) == Matching(before, t)
    ensures forall k | k in Matching(before, t) :: after[k] == before[k]
  {
  }

  /**
    Whether the API requests for a decision go through: publishing needs a free name and
    an accepted create, resolving a list and an update.
  */
  predicate GoesThrough(before: Events, r: Result, env: Env, d: Alerting.Decision) {
    match d
    case Quiet => true
    case Alert => !env.createFails && NameFor(TargetOf(r), env.now) !in before
    case Resolve => !env.listFails && !env.updateFails
  }

  /** With one firing event, the newest, resolving it takes both requests. */
  lemma ResolvingTakesBoth(before: Events, after: Events, t: EventTarget, env: Env, ok: bool, k: EventKey)
    requires Resolves(before, after, t, env, ok) && OnlyFiring(before, t, k)
    ensures ok <==> !env.listFails && !env.updateFails
    ensures !ok ==> after == before
  {
    assert k in FiringOf(before, t);
    if !env.listFails {
      var l :| Latest(before, t, l) && ResolvesAt(before, after, l, env, ok);
      assert l == k;
    }
  }

  /**
    Handling a result keeps the mirror of its target if and only if the API requests it
    needs go through: the engine has changed its mind by then, and does not change it back.
  */
  lemma StepMirrorsExactly(before: Events, after: Events, targets: Alerting.Targets, r: Result, threshold: int,
                           env: Env, s: seq<Correlation.Failure>, topology: Option<Correlation.Map>, ok: bool)
    requires Mirrors(before, targets, r.Key(), TargetOf(r)) && CreatedBefore(before, env.created)
    requires ApiStep(before, after, r, env, Judged(targets, r, threshold, env), s,
                     topology, ok)
    ensures var d := Judged(targets, r, threshold, env);
            var targets' := AfterJudging(targets, r, threshold, env);
            && (ok <==> GoesThrough(before, r, env, d))
            && (Mirrors(after, targets', r.Key(), TargetOf(r)) <==> GoesThrough(before, r, env, d))
  {
    var d := Judged(targets, r, threshold, env);
    match d
    case Quiet =>
    case Alert =>
      if ok {
        PublishMirrors(before, after, r, env, s, topology);
      }
    case Resolve =>
      var k :| OnlyFiring(before, TargetOf(r), k);
      assert k in FiringOf(before, TargetOf(r));
      ResolvingTakesBoth(before, after, TargetOf(r), env, ok, k);
      if ok {
        ResolveMirrors(before, after, TargetOf(r), env, k);
      }
  }

  // ----- creation times -----

  lemma {:induction false} NewestOf(events: Events, keys: set<EventKey>) returns (m: EventKey)
    requires keys != {} && keys <= events.Keys
    ensures m in keys && forall j | j in keys :: events[j].created <= events[m].created
    decreases keys
  {
    m :| m in keys;
    if keys != {m} {
      var n := NewestOf(events, keys - {m});
      if events[m].created < events[n].created {
        m := n;
      }
    }
  }

  /**
    Why the timestamps must strictly increase: resolving a target with one firing event is
    sure to leave none firing if and only if all its other events were created before that one.
  */
  lemma ResolvingNeedsTheNewest(before: Events, t: EventTarget, env: Env, k: EventKey)
    requires FiringOf(before, t) == {k} && !env.listFails && !env.updateFails
    ensures OnlyFiring(before, t, k) <==>
            forall after, ok | Resolves(before, after, t, env, ok) :: FiringOf(after, t) == {}
  {
    assert k in FiringOf(before, t);
    if OnlyFiring(before, t, k) {
      forall after, ok | Resolves(before, after, t, env, ok)
        ensures FiringOf(after, t) == {}
      {
        ResolvingTakesBoth(before, after, t, env, ok, k);
        ResolveMirrors(before, after, t, env, k);
      }
    } else {
      var j :| j in Matching(before, t) && j != k && before[j].created >= before[k].created;
      assert j in Matching(before, t) - {k};
      var m := NewestOf(before, Matching(before, t) - {k});
      assert m !in FiringOf(before, t);
      assert Latest(before, t, m) && ResolvesAt(before, before, m, env, true);
      assert Resolves(before, before, t, env, true);
    }
  }

  /** Who a result is about. */
  datatype Source = Source(namespace: string, name: string)
  {
    function Key(): string { namespace + "/" + name }

    function Target(): EventTarget { EventTarget(if namespace == "" then "default" else namespace, name) }
  }

  ghost predicate Uses(ops: seq<Op>, sources: set<Source>) {
    forall i | 0 <= i < |ops| && ops[i].Submit? :: Source(ops[i].r.namespace, ops[i].r.name) in sources
  }

  /** Two sources share an engine entry exactly when they share their AlertEvents. */
  ghost predicate Separated(sources: set<Source>) {
    forall a, b | a in sources && b in sources :: a.Key() == b.Key() <==> a.Target() == b.Target()
  }

  lemma {:induction false} RunMirrors(cfg: Correlation.Config, ops: seq<Op>, sources: set<Source>, a: Source)
    requires Legal(cfg, ops) && Uses(ops, sources) && Separated(sources) && a in sources
    ensures Mirrors(Objects(ops), Engine(ops), a.Key(), a.Target())
  {
    if ops != [] {
      var pre, op := Front(ops), Last(ops);
      RunMirrors(cfg, pre, sources, a);
      if op.Submit? {
        assert Front(EngineEvents(ops)) == EngineEvents(pre);
        var b := Source(op.r.namespace, op.r.name);
        assert ops[|ops| - 1] == op && b in sources;
        var s := Correlation.Events(Windows(cfg, ops), ReportKey(op.r));
        if a.Key() == b.Key() {
          StepMirrorsExactly(Objects(pre), op.after, Engine(pre), op.r, op.threshold, op.env, s, op.topology, true);
        } else {
          MirrorOfOther(Objects(pre), op.after, Engine(pre), op, s, a);
        }
      } else {
        assert EngineEvents(ops) == EngineEvents(pre);
      }
    }
  }

  lemma MirrorOfOther(before: Events, after: Events, targets: Alerting.Targets, op: Op, s: seq<Correlation.Failure>,
                      a: Source)
    requires op.Submit? && op.r.Key() != a.Key() && TargetOf(op.r) != a.Target()
    requires Mirrors(before, targets, a.Key(), a.Target())
    requires ApiStep(before, after, op.r, op.env,
                     Judged(targets, op.r, op.threshold, op.env), s, op.topology, true)
    ensures Mirrors(after, AfterJudging(targets, op.r, op.threshold, op.env), a.Key(), a.Target())
  {
    var t := a.Target();
    OthersUntouched(before, after, op.r, op.env,
                    Judged(targets, op.r, op.threshold, op.env), s, op.topology, true, t);
    assert FiringOf(after, t) == FiringOf(before, t);
    if Alerting.Lookup(targets, a.Key()).alerting {
      var k :| OnlyFiring(before, t, k);
      assert k in FiringOf(before, t);
      assert OnlyFiring(after, t, k);
    }
  }

  /** The run of one failing result of source `a` that reaches its threshold. */
  lemma OneAlert(cfg: Correlation.Config, a: Source) returns (ops: seq<Op>)
    ensures Legal(cfg, ops) && Uses(ops, {a})
    ensures forall t :: FiringOf(Objects(ops), t) == {} <==> t != a.Target()
    ensures forall key :: Alerting.Lookup(Engine(ops), key).alerting <==> key == a.Key()
  {
    var r := Result(a.namespace, a.name, "", "", Unspecified, false, "", "");
    var env := Env(Processor.Reading(0, 0), 0, 0, 0, 0, 1, false, false, false);
    var s := Correlation.Events(AfterFailure(cfg, map[], r, env), ReportKey(r));
    var list := Listing(Correlation.Nodes(s));
    var e := AlertEvent(r.name, Firing, 1, "", "", Alerting.CalculateSeverity("", Node, ""), Node, list, None, "");
    var k := NameFor(TargetOf(r), 0);
    var op := Submit(r, 1, env, None, map[k := e]);
    ops := [op];
    assert Front(ops) == [];
    var events := [EngineEvent(op)];
    assert |Front(events)| == 0;
    assert EngineEvents(ops) == [] + events && [] + events == events;
    assert DecisionOf(ops) == Alerting.Alert;
    assert Windows(cfg, ops) == AfterFailure(cfg, map[], r, env);
    assert Publishes(map[], op.after, r, env, s, None);
    assert k in FiringOf(op.after, a.Target());
    forall t | t != a.Target()
      ensures FiringOf(op.after, t) == {}
    {
    }
  }

  lemma {:induction false} Listing(s: set<string>) returns (list: seq<string>)
    ensures multiset(list) == multiset(s)
    decreases s
  {
    if s == {} {
      list := [];
    } else {
      var x :| x in s;
      list := Listing(s - {x});
      list := list + [x];
      assert s == s - {x} + {x};
    }
  }

  /** The AlertEvents mirror the engine on every run if and only if the sources are separated. */
  lemma MirrorExactly(cfg: Correlation.Config, sources: set<Source>)
    ensures Separated(sources) <==>
            forall ops, a | Legal(cfg, ops) && Uses(ops, sources) && a in sources ::
              Mirrors(Objects(ops), Engine(ops), a.Key(), a.Target())
  {
    if Separated(sources) {
      forall ops, a | Legal(cfg, ops) && Uses(ops, sources) && a in sources
        ensures Mirrors(Objects(ops), Engine(ops), a.Key(), a.Target())
      {
        RunMirrors(cfg, ops, sources, a);
      }
    } else {
      var a, b :| a in sources && b in sources && !(a.Key() == b.Key() <==> a.Target() == b.Target());
      var ops := OneAlert(cfg, a);
      assert Uses(ops, sources);
      assert !Mirrors(Objects(ops), Engine(ops), b.Key(), b.Target());
    }
  }

  lemma KeysDiffer(a: Source, b: Source)
    requires '/' !in a.namespace && '/' !in b.namespace && a.Key() == b.Key()
    ensures a == b
  {
    var n, m := |a.namespace|, |b.namespace|;
    assert a.Key()[n] == '/' && b.Key()[m] == '/';
    assert forall i | 0 <= i < n :: a.Key()[i] == a.namespace[i] && a.Key()[i] != '/';
    assert forall i | 0 <= i < m :: b.Key()[i] == b.namespace[i] && b.Key()[i] != '/';
    assert n == m;
    assert a.namespace == a.Key()[..n] && b.namespace == b.Key()[..n];
    assert a.name == a.Key()[n + 1..] && b.name == b.Key()[n + 1..];
  }

  /** Kubernetes names, which are non-empty and free of slashes, are always separated. */
  lemma PlainNamesSeparated(sources: set<Source>)
    requires forall a | a in sources :: a.namespace != "" && '/' !in a.namespace
    ensures Separated(sources)
  {
    forall a, b | a in sources && b in sources
      ensures a.Key() == b.Key() <==> a.Target() == b.Target()
    {
      if a.Key() == b.Key() {
        KeysDiffer(a, b);
      }
    }
  }

  /** An empty namespace shares its AlertEvents with "default" but not its engine entry. */
  lemma EmptyNamespaceClashes(name: string)
    ensures !Separated({Source("", name), Source("default", name)})
  {
  }
}
