/**
  The two sets of streak counters over whole runs of handled results and processor
  clean-ups: the processor's counters against the decision engine's, and the
  per-agent counters against the target's.
*/
module CounterRuns {
  import opened Common
  import opened Requests
  import opened ResultHandler
  import opened HandlerRuns
  import Alerting
  import AlertingRuns
  import opened Processor

  function Targets(expiration: int, ops: seq<Op>): States {
    if ops == [] then map[]
    else match Last(ops)
      case Submit(r, _, env, _, _) => AfterResult(Targets(expiration, Front(ops)), r, env.counted)
      case Expire(now) => AfterCleanup(expiration, Targets(expiration, Front(ops)), now)
  }

  /** The target's outcomes since the processor last dropped it, oldest first. */
  function SinceExpiry(expiration: int, ops: seq<Op>, key: string): seq<bool> {
    if ops == [] then []
    else
      var before := SinceExpiry(expiration, Front(ops), key);
      match Last(ops)
      case Submit(r, _, _, _, _) => if r.Key() == key then before + [r.success] else before
      case Expire(now) => if key in Targets(expiration, ops) then before else []
  }

  function Streak(s: State, success: bool): nat {
    if success then s.successes else s.failures
  }

  function EngineStreak(t: Alerting.Target, success: bool): nat {
    if success then t.successes else t.failures
  }

  // ----- processor against engine -----

  ghost predicate IsSuffix(s: seq<bool>, h: seq<bool>) {
    |s| <= |h| && h[|h| - |s|..] == s
  }

  /** The trailing run of a suffix is that of the whole history, cut at the suffix. */
  lemma {:induction false} TrailingOfSuffix(s: seq<bool>, h: seq<bool>, success: bool)
    requires IsSuffix(s, h)
    ensures AlertingRuns.Trailing(s, success) == Min(AlertingRuns.Trailing(h, success), |s|)
  {
    if s != [] {
      assert Last(s) == Last(h);
      assert IsSuffix(Front(s), Front(h));
      TrailingOfSuffix(Front(s), Front(h), success);
    }
  }

  /** A history with both outcomes has a trailing run shorter than itself. */
  lemma {:induction false} FlipCutsRun(s: seq<bool>, success: bool)
    requires exists i :: 0 <= i < |s| && s[i] != success
    ensures AlertingRuns.Trailing(s, success) < |s|
  {
    if Last(s) == success {
      var i :| 0 <= i < |s| && s[i] != success;
      assert Front(s)[i] == s[i];
      FlipCutsRun(Front(s), success);
    }
  }

  lemma SuffixMore(s: seq<bool>, h: seq<bool>, x: bool)
    requires IsSuffix(s, h)
    ensures IsSuffix(s + [x], h + [x])
    ensures forall success :: AlertingRuns.Trailing(s + [x], success) ==
              if x == success then 1 + AlertingRuns.Trailing(s, success) else 0
  {
  }

  /** The outcomes of one target that the engine has seen. */
  function Outcomes(ops: seq<Op>, key: string): seq<bool> {
    AlertingRuns.History(EngineEvents(ops), key)
  }

  lemma OutcomesMore(ops: seq<Op>, key: string)
    requires ops != []
    ensures Outcomes(ops, key) == Outcomes(Front(ops), key) +
              if Last(ops).Submit? && Last(ops).r.Key() == key then [Last(ops).r.success] else []
  {
    if Last(ops).Submit? {
      assert Front(EngineEvents(ops)) == EngineEvents(Front(ops));
    } else {
      assert EngineEvents(ops) == EngineEvents(Front(ops));
      assert Outcomes(ops, key) + [] == Outcomes(ops, key);
    }
  }

  ghost predicate Tracks(ss: States, key: string, since: seq<bool>) {
    if key in ss
    then forall success :: Streak(ss[key], success) == AlertingRuns.Trailing(since, success)
    else since == []
  }

  lemma SubmitTracks(ss: States, key: string, since: seq<bool>, h: seq<bool>, r: Result, now: Reading)
    requires Tracks(ss, key, since) && r.Key() == key && IsSuffix(since, h)
    ensures Tracks(AfterResult(ss, r, now), key, since + [r.success])
  {
  }

  /** The processor counts the trailing runs of what it has seen since it last dropped the target. */
  lemma {:induction false} ProcessorCountsSuffix(expiration: int, ops: seq<Op>, key: string)
    ensures IsSuffix(SinceExpiry(expiration, ops, key), Outcomes(ops, key))
    ensures Tracks(Targets(expiration, ops), key, SinceExpiry(expiration, ops, key))
  {
    if ops != [] {
      var pre, op := Front(ops), Last(ops);
      var since, h := SinceExpiry(expiration, pre, key), Outcomes(pre, key);
      ProcessorCountsSuffix(expiration, pre, key);
      OutcomesMore(ops, key);
      if op.Submit? && op.r.Key() == key {
        SuffixMore(since, h, op.r.success);
        SubmitTracks(Targets(expiration, pre), key, since, h, op.r, op.env.counted);
      } else {
        assert Outcomes(ops, key) == h;
      }
    }
  }

  /**
    The processor's streak is the engine's, capped by the number of results since the
    processor last dropped the target. So it never exceeds the engine's, equals it if
    nothing was ever dropped, and equals it again once both outcomes were seen.
  */
  lemma StreaksAgree(expiration: int, ops: seq<Op>, key: string, success: bool)
    requires key in Targets(expiration, ops)
    ensures var p := Streak(Targets(expiration, ops)[key], success);
            var e := EngineStreak(Alerting.Lookup(Engine(ops), key), success);
            var since := SinceExpiry(expiration, ops, key);
            && p == Min(e, |since|)
            && (since == Outcomes(ops, key) ==> p == e)
            && ((exists i, j :: 0 <= i < |since| && 0 <= j < |since| && since[i] != since[j]) ==> p == e)
  {
    var since, h := SinceExpiry(expiration, ops, key), Outcomes(ops, key);
    ProcessorCountsSuffix(expiration, ops, key);
    AlertingRuns.CountersAreTrailingRuns(EngineEvents(ops), key);
    TrailingOfSuffix(since, h, success);
    if exists i, j :: 0 <= i < |since| && 0 <= j < |since| && since[i] != since[j] {
      FlipCutsRun(since, success);
    }
  }

  // ----- health -----

  /** A target is unhealthy exactly in a failure streak; either streak excludes the other, and none is degraded. */
  lemma {:induction false} HealthFollowsStreaks(expiration: int, ops: seq<Op>, key: string)
    requires key in Targets(expiration, ops)
    ensures var s := Targets(expiration, ops)[key];
            && s.health == (if s.failures > 0 then Unhealthy else Healthy)
            && (s.failures > 0 <==> s.successes == 0)
  {
    var before := Targets(expiration, Front(ops));
    if key in before {
      HealthFollowsStreaks(expiration, Front(ops), key);
    }
  }

  /** So the degraded count is always 0. */
  lemma NoneDegraded(expiration: int, ops: seq<Op>)
    ensures InHealth(Targets(expiration, ops), Degraded) == {}
  {
    forall k | k in Targets(expiration, ops)
      ensures Targets(expiration, ops)[k].health != Degraded
    {
      HealthFollowsStreaks(expiration, ops, k);
    }
  }

  // ----- agents against targets -----

  function AgentStreak(a: Agent, success: bool): nat {
    if success then a.successes else a.failures
  }

  /** The sum of the agents' streaks. */
  ghost function Total(agents: map<AgentKey, Agent>, success: bool): nat
    decreases |agents|
  {
    if agents == map[] then 0
    else
      var k :| k in agents;
      RemoveOne(agents, k);
      AgentStreak(agents[k], success) + Total(agents - {k}, success)
  }

  lemma {:induction false} TotalWithout(agents: map<AgentKey, Agent>, k: AgentKey, success: bool)
    requires k in agents
    ensures Total(agents, success) == AgentStreak(agents[k], success) + Total(agents - {k}, success)
    decreases |agents|
  {
    var l :| l in agents && Total(agents, success) == AgentStreak(agents[l], success) + Total(agents - {l}, success);
    if l != k {
      RemoveOne(agents, l);
      TotalWithout(agents - {l}, k, success);
      RemoveOne(agents, k);
      TotalWithout(agents - {k}, l, success);
      assert agents - {l} - {k} == agents - {k} - {l};
    }
  }

  /** The reporting agent's streak moves by exactly what the result says; the others keep theirs. */
  lemma TotalAfter(agents: map<AgentKey, Agent>, r: Result, now: Time, success: bool)
    ensures var old' := if KeyOf(r) in agents then AgentStreak(agents[KeyOf(r)], success) else 0;
            Total(CountAgents(agents, r, now), success) ==
            Total(agents, success) - old' + (if r.success == success then old' + 1 else 0)
  {
    var k, after := KeyOf(r), CountAgents(agents, r, now);
    TotalWithout(after, k, success);
    assert after - {k} == agents - {k};
    if k in agents {
      TotalWithout(agents, k, success);
    } else {
      assert agents - {k} == agents;
    }
  }

  /** Whatever the mix of agents, their streaks together cover the target's streak. */
  lemma {:induction false} AgentsCoverTarget(expiration: int, ops: seq<Op>, key: string, success: bool)
    requires key in Targets(expiration, ops)
    ensures var s := Targets(expiration, ops)[key];
            Streak(s, success) <= Total(s.agents, success)
  {
    var before, op := Targets(expiration, Front(ops)), Last(ops);
    if key in before {
      AgentsCoverTarget(expiration, Front(ops), key, success);
    }
    if op.Submit? && op.r.Key() == key {
      TotalAfter(Find(before, op.r, op.env.counted).agents, op.r, op.env.counted.agent, success);
    }
  }

  // ----- expiry -----

  /** When the last result of a target was counted that the processor has not dropped. */
  function LastCounted(expiration: int, ops: seq<Op>, key: string): Option<Time> {
    if ops == [] then None
    else
      var before := LastCounted(expiration, Front(ops), key);
      match Last(ops)
      case Submit(r, _, env, _, _) => if r.namespace + "/" + r.name == key then Some(env.counted.target) else before
      case Expire(now) => if before.Some? && now - before.value > expiration then None else before
  }

  /** A clean-up drops a target exactly when its last result was counted longer ago than the expiration. */
  lemma {:induction false} ExpiresByLastResult(expiration: int, ops: seq<Op>, key: string)
    ensures key in Targets(expiration, ops) <==> LastCounted(expiration, ops, key).Some?
    ensures key in Targets(expiration, ops) ==>
              Targets(expiration, ops)[key].updated == LastCounted(expiration, ops, key).value
  {
    if ops != [] {
      ExpiresByLastResult(expiration, Front(ops), key);
    }
  }

  // ----- what a target remembers -----

  /** The last result of a target with the given outcome since the processor last dropped it. */
  function LastSince(expiration: int, ops: seq<Op>, key: string, success: bool): Option<(Result, Time)> {
    if ops == [] then None
    else
      var before := LastSince(expiration, Front(ops), key, success);
      match Last(ops)
      case Submit(r, _, env, _, _) =>
        if r.namespace + "/" + r.name == key && r.success == success then Some((r, env.counted.target)) else before
      case Expire(now) => if key in Targets(expiration, ops) then before else None
  }

  /** The type that the first result since then gave the target. */
  function KindOf(expiration: int, ops: seq<Op>, key: string): Option<string> {
    if ops == [] then None
    else
      var before := KindOf(expiration, Front(ops), key);
      match Last(ops)
      case Submit(r, _, _, _, _) =>
        if r.namespace + "/" + r.name == key && before.None? then Some(r.kind) else before
      case Expire(now) => if key in Targets(expiration, ops) then before else None
  }

  function TimeOf(x: Option<(Result, Time)>): Option<Time> {
    if x.Some? then Some(x.value.1) else None
  }

  /** A target remembers when it last succeeded and failed, and how it failed. */
  lemma {:induction false} TargetRemembers(expiration: int, ops: seq<Op>, key: string)
    ensures key !in Targets(expiration, ops) ==> forall success :: LastSince(expiration, ops, key, success).None?
    ensures key !in Targets(expiration, ops) ==> KindOf(expiration, ops, key).None?
    ensures key in Targets(expiration, ops) ==>
              var s := Targets(expiration, ops)[key];
              var failed, succeeded := LastSince(expiration, ops, key, false), LastSince(expiration, ops, key, true);
              && s.key == key && s.namespace + "/" + s.name == key && Some(s.kind) == KindOf(expiration, ops, key)
              && s.lastFailure == TimeOf(failed) && s.lastSuccess == TimeOf(succeeded)
              && s.code == (if failed.Some? then failed.value.0.code else "")
              && s.layer == (if failed.Some? then failed.value.0.layer else "")
  {
    if ops != [] {
      TargetRemembers(expiration, Front(ops), key);
    }
  }

  // ----- agents -----

  /** A result with the time at which it was counted for its agent. */
  datatype Report = Report(r: Result, at: Time)

  /** What one agent reported on a target since the processor last dropped it, oldest first. */
  function Reports(expiration: int, ops: seq<Op>, key: string, node: string, mode: NetworkMode): seq<Report> {
    if ops == [] then []
    else
      var before := Reports(expiration, Front(ops), key, node, mode);
      match Last(ops)
      case Submit(r, _, env, _, _) =>
        if r.namespace + "/" + r.name == key && r.node == node && r.mode == mode
        then before + [Report(r, env.counted.agent)]
        else before
      case Expire(now) => if key in Targets(expiration, ops) then before else []
  }

  /** How many reports at the end have the given outcome. */
  function TrailingReports(rs: seq<Report>, success: bool): nat {
    if rs == [] || Last(rs).r.success != success then 0 else 1 + TrailingReports(Front(rs), success)
  }

  function LastReport(rs: seq<Report>, success: bool): Option<Report> {
    if rs == [] then None else if Last(rs).r.success == success then Some(Last(rs)) else LastReport(Front(rs), success)
  }

  function ReportedAt(x: Option<Report>): Option<Time> {
    if x.Some? then Some(x.value.at) else None
  }

  /** The state that the reports of one agent lead to. */
  ghost predicate AgentReported(a: Agent, node: string, mode: NetworkMode, rs: seq<Report>) {
    var failed := LastReport(rs, false);
    && a.key == AgentKey(node, mode)
    && a.failures == TrailingReports(rs, false) && a.successes == TrailingReports(rs, true)
    && a.lastSuccess == ReportedAt(LastReport(rs, true)) && a.lastFailure == ReportedAt(failed)
    && a.code == (if failed.Some? then failed.value.r.code else "")
    && a.layer == (if failed.Some? then failed.value.r.layer else "")
  }

  lemma ReportMore(rs: seq<Report>, x: Report, success: bool)
    ensures TrailingReports(rs + [x], success) == if x.r.success == success then 1 + TrailingReports(rs, success) else 0
    ensures LastReport(rs + [x], success) == if x.r.success == success then Some(x) else LastReport(rs, success)
  {
    assert Front(rs + [x]) == rs;
  }

  function AgentsOf(ss: States, key: string): map<AgentKey, Agent> {
    if key in ss then ss[key].agents else map[]
  }

  /** The agent is on record exactly if it reported, and then in the state its reports lead to. */
  ghost predicate OnRecord(agents: map<AgentKey, Agent>, node: string, mode: NetworkMode, rs: seq<Report>) {
    var key := AgentKey(node, mode);
    if key in agents then rs != [] && AgentReported(agents[key], node, mode, rs) else rs == []
  }

  lemma OneMoreReport(agents: map<AgentKey, Agent>, node: string, mode: NetworkMode, rs: seq<Report>, r: Result,
                      now: Time)
    requires OnRecord(agents, node, mode, rs)
    ensures OnRecord(CountAgents(agents, r, now), node, mode,
                     if r.node == node && r.mode == mode then rs + [Report(r, now)] else rs)
  {
    ReportMore(rs, Report(r, now), true);
    ReportMore(rs, Report(r, now), false);
  }

  /** On every run the streaks of an agent on record are the trailing runs of its own reports. */
  lemma {:induction false} AgentsCountTheirReports(expiration: int, ops: seq<Op>, key: string, node: string,
                                                   mode: NetworkMode)
    ensures OnRecord(AgentsOf(Targets(expiration, ops), key), node, mode, Reports(expiration, ops, key, node, mode))
  {
    if ops != [] {
      var op, before := Last(ops), Reports(expiration, Front(ops), key, node, mode);
      AgentsCountTheirReports(expiration, Front(ops), key, node, mode);
      if op.Submit? {
        var agents := AgentsOf(Targets(expiration, Front(ops)), key);
        OneMoreReport(agents, node, mode, before, op.r, op.env.counted.agent);
      }
    }
  }
}
