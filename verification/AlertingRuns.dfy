/**
  The decision engine over whole result histories: its counters are trailing run
  lengths, alerts and resolves alternate, and with fixed thresholds the alerting
  state is the classic hysteresis of the history.
*/
module AlertingRuns {
  import opened Common
  import opened Alerting

  /** One processed result, with the threshold that the rules in force gave it. */
  datatype Event = Event(key: string, o: Outcome, threshold: int, now: Time)

  function Run(es: seq<Event>): Targets {
    if es == [] then map[]
    else var e := Last(es); AfterResult(Run(Front(es)), e.key, e.o, e.threshold, e.now)
  }

  /** The decision taken on the last event of a run. */
  function LastDecision(es: seq<Event>): Decision
    requires es != []
  {
    var e := Last(es);
    DecisionOn(Run(Front(es)), e.key, e.o, e.threshold, e.now)
  }

  /** The successes and failures of one target, oldest first. */
  function History(es: seq<Event>, key: string): seq<bool> {
    if es == [] then []
    else History(Front(es), key) + if Last(es).key == key then [Last(es).o.success] else []
  }

  /** The alerts and resolves of one target, oldest first. */
  function Signals(es: seq<Event>, key: string): seq<Decision> {
    if es == [] then []
    else Signals(Front(es), key) +
         if Last(es).key == key && LastDecision(es) != Quiet then [LastDecision(es)] else []
  }

  /** How many results at the end of a history equal `success`. */
  function Trailing(h: seq<bool>, success: bool): nat {
    if h == [] || Last(h) != success then 0 else 1 + Trailing(Front(h), success)
  }

  // ----- counters -----

  /** Whatever the thresholds did, the counters are the lengths of the trailing runs. */
  lemma {:induction false} CountersAreTrailingRuns(es: seq<Event>, key: string)
    ensures var t := Lookup(Run(es), key);
            t.failures == Trailing(History(es, key), false) && t.successes == Trailing(History(es, key), true)
  {
    if es != [] {
      CountersAreTrailingRuns(Front(es), key);
      var h := History(Front(es), key);
      if Last(es).key == key {
        assert Front(History(es, key)) == h;
      } else {
        assert History(es, key) == h;
      }
    }
  }

  /** Alerts and resolves of a target strictly alternate, starting with an alert, even while rules change. */
  lemma {:induction false} SignalsAlternate(es: seq<Event>, key: string)
    ensures var s := Signals(es, key);
            && (forall i | 0 <= i < |s| :: s[i] == if i % 2 == 0 then Alert else Resolve)
            && (Lookup(Run(es), key).alerting <==> |s| % 2 == 1)
  {
    if es != [] {
      SignalsAlternate(Front(es), key);
    }
  }

  // ----- conservation -----

  function CountSignals(es: seq<Event>, d: Decision): nat {
    if es == [] then 0 else CountSignals(Front(es), d) + if LastDecision(es) == d then 1 else 0
  }

  /** The number of alerting targets that GetStats reports is all alerts minus all resolves. */
  lemma {:induction false} AlertingCountConserved(es: seq<Event>)
    ensures |Alerting.Alerting(Run(es))| == CountSignals(es, Alert) - CountSignals(es, Resolve)
  {
    if es != [] {
      AlertingCountConserved(Front(es));
      var before, after, key := Alerting.Alerting(Run(Front(es))), Alerting.Alerting(Run(es)), Last(es).key;
      match LastDecision(es)
      case Alert => assert after == before + {key} && key !in before;
      case Resolve => assert before == after + {key} && key !in after;
      case Quiet => assert after == before;
    }
  }

  // ----- hysteresis with fixed thresholds -----

  /** Whenever a result of the target consulted a threshold, it was `f` for a failure and `r` for a success. */
  ghost predicate FixedThresholds(es: seq<Event>, key: string, f: int, r: int) {
    es != [] ==>
      && FixedThresholds(Front(es), key, f, r)
      && (Last(es).key == key && AlertDecisionEngine.Consults(Run(Front(es)), key, Last(es).o) ==>
            Last(es).threshold == if Last(es).o.success then r else f)
  }

  /** The `n` results before position `q` exist and all equal `success`. */
  ghost predicate RunEnds(h: seq<bool>, q: nat, n: nat, success: bool) {
    n <= q <= |h| && forall i | q - n <= i < q :: h[i] == success
  }

  /** A run of `r` successes lies after position `p`. */
  ghost predicate Recovers(h: seq<bool>, p: nat, r: nat) {
    exists q :: p + r <= q && RunEnds(h, q, r, true)
  }

  /** A run of `f` failures ended at some point `p`, and no run of `r` successes came after it. */
  ghost predicate Hysteresis(h: seq<bool>, f: nat, r: nat) {
    exists p :: RunEnds(h, p, f, false) && !Recovers(h, p, r)
  }

  lemma {:induction false} TrailingIsRun(h: seq<bool>, success: bool, n: nat)
    ensures Trailing(h, success) >= n <==> RunEnds(h, |h|, n, success)
  {
    if h != [] && n > 0 {
      TrailingIsRun(Front(h), success, n - 1);
      if Last(h) == success {
        assert RunEnds(Front(h), |h| - 1, n - 1, success) <==> RunEnds(h, |h|, n, success);
      }
    }
  }

  /** Runs that end inside a history are not touched by one more result. */
  lemma RunsInside(h: seq<bool>, x: bool, q: nat, n: nat, success: bool)
    requires q <= |h|
    ensures RunEnds(h + [x], q, n, success) <==> RunEnds(h, q, n, success)
  {
    assert forall i | 0 <= i < |h| :: (h + [x])[i] == h[i];
  }

  /** One more result completes a recovery after a failure run exactly when the trailing success run is long enough. */
  lemma RecoversMore(h: seq<bool>, x: bool, f: nat, p: nat, r: nat)
    requires f >= 1 && r >= 1 && RunEnds(h, p, f, false)
    ensures Recovers(h + [x], p, r) <==> Recovers(h, p, r) || Trailing(h + [x], true) >= r
  {
    var h' := h + [x];
    TrailingIsRun(h', true, r);
    if Recovers(h, p, r) {
      var q: nat :| p + r <= q && RunEnds(h, q, r, true);
      RunsInside(h, x, q, r, true);
    }
    if Recovers(h', p, r) {
      var q: nat :| p + r <= q && RunEnds(h', q, r, true);
      if q <= |h| {
        RunsInside(h, x, q, r, true);
      }
    }
    assert !h'[p - 1];
  }

  /** A success ends the hysteresis exactly when it completes a recovery run. */
  lemma HysteresisOnSuccess(h: seq<bool>, f: nat, r: nat)
    requires f >= 1 && r >= 1
    ensures Hysteresis(h + [true], f, r) <==> Hysteresis(h, f, r) && Trailing(h + [true], true) < r
  {
    var h' := h + [true];
    if Hysteresis(h', f, r) {
      var p: nat :| RunEnds(h', p, f, false) && !Recovers(h', p, r);
      assert h'[|h|] && p <= |h|;
      RunsInside(h, true, p, f, false);
      RecoversMore(h, true, f, p, r);
    }
    if Hysteresis(h, f, r) {
      var p: nat :| RunEnds(h, p, f, false) && !Recovers(h, p, r);
      RunsInside(h, true, p, f, false);
      RecoversMore(h, true, f, p, r);
    }
  }

  /** A failure starts the hysteresis exactly when it completes a failure run. */
  lemma HysteresisOnFailure(h: seq<bool>, f: nat, r: nat)
    requires f >= 1 && r >= 1
    ensures Hysteresis(h + [false], f, r) <==> Hysteresis(h, f, r) || Trailing(h + [false], false) >= f
  {
    var h' := h + [false];
    TrailingIsRun(h', false, f);
    if Hysteresis(h', f, r) {
      var p: nat :| RunEnds(h', p, f, false) && !Recovers(h', p, r);
      if p <= |h| {
        RunsInside(h, false, p, f, false);
        RecoversMore(h, false, f, p, r);
      }
    }
    if Hysteresis(h, f, r) {
      var p: nat :| RunEnds(h, p, f, false) && !Recovers(h, p, r);
      RunsInside(h, false, p, f, false);
      RecoversMore(h, false, f, p, r);
    }
    if Trailing(h', false) >= f {
      assert RunEnds(h', |h'|, f, false) && !Recovers(h', |h'|, r);
    }
  }

  /** With fixed thresholds the alerting flag is a function of the history alone. */
  lemma {:induction false} AlertingIsHysteresis(es: seq<Event>, key: string, f: nat, r: nat)
    requires f >= 1 && r >= 1 && FixedThresholds(es, key, f, r)
    ensures var t := Lookup(Run(es), key);
            && (t.alerting <==> Hysteresis(History(es, key), f, r))
            && (t.alerting ==> t.successes < r) && (!t.alerting ==> t.failures < f)
  {
    if es != [] {
      var pre, e := Front(es), Last(es);
      AlertingIsHysteresis(pre, key, f, r);
      if e.key == key {
        CountersAreTrailingRuns(es, key);
        if e.o.success {
          HysteresisOnSuccess(History(pre, key), f, r);
        } else {
          HysteresisOnFailure(History(pre, key), f, r);
        }
      } else {
        assert History(es, key) == History(pre, key);
      }
    }
  }

  /** A counter that is still below its threshold can only reach it exactly. */
  lemma ThresholdReached(t: Target, o: Outcome, now: Time, f: nat, r: nat)
    requires (t.alerting ==> t.successes < r) && (!t.alerting ==> t.failures < f)
    ensures var t', d := Count(t, o, now), Decide(Count(t, o, now), o.success, if o.success then r else f);
            && (d == Alert <==> !t.alerting && !o.success && t'.failures == f)
            && (d == Resolve <==> t.alerting && o.success && t'.successes == r)
  {
  }

  /**
    An alert fires on the result that brings the failure run to exactly `f`, a resolve on
    the one that brings the success run to exactly `r`.
  */
  lemma SignalsAtTheThreshold(es: seq<Event>, f: nat, r: nat)
    requires es != [] && f >= 1 && r >= 1 && FixedThresholds(es, Last(es).key, f, r)
    ensures var key := Last(es).key;
            var h := History(es, key);
            && (LastDecision(es) == Alert <==> !Hysteresis(Front(h), f, r) && Trailing(h, false) == f)
            && (LastDecision(es) == Resolve <==> Hysteresis(Front(h), f, r) && Trailing(h, true) == r)
  {
    var key, e := Last(es).key, Last(es);
    var t := Lookup(Run(Front(es)), key);
    AlertingIsHysteresis(Front(es), key, f, r);
    ThresholdReached(t, e.o, e.now, f, r);
    CountersAreTrailingRuns(es, key);
    assert Front(History(es, key)) == History(Front(es), key);
    assert LastDecision(es) == Decide(Count(t, e.o, e.now), e.o.success, e.threshold);
  }

  // ----- fixed rules -----

  /** Every threshold that was consulted is one that some iteration over the rules returns. */
  ghost predicate JudgedBy(cfg: Config, rules: map<string, Rule>, es: seq<Event>) {
    es != [] ==>
      && JudgedBy(cfg, rules, Front(es))
      && (AlertDecisionEngine.Consults(Run(Front(es)), Last(es).key, Last(es).o) ==>
            Possible(cfg, rules, Last(es).o.success, Last(es).threshold))
  }

  /** No two rules set different thresholds. */
  ghost predicate Agreeing(rules: map<string, Rule>) {
    forall success, m, n | m in rules && n in rules &&
                           RuleThreshold(rules[m], success) > 0 && RuleThreshold(rules[n], success) > 0 ::
      RuleThreshold(rules[m], success) == RuleThreshold(rules[n], success)
  }

  lemma {:induction false} RulesFixThresholds(cfg: Config, rules: map<string, Rule>, es: seq<Event>, key: string,
                                              f: int, r: int)
    requires Agreeing(rules) && JudgedBy(cfg, rules, es)
    requires Possible(cfg, rules, false, f) && Possible(cfg, rules, true, r)
    ensures FixedThresholds(es, key, f, r)
  {
    if es != [] {
      RulesFixThresholds(cfg, rules, Front(es), key, f, r);
      ThresholdDetermined(cfg, rules, Last(es).o.success);
    }
  }

  /** While rules that agree stay in force, a target alerts exactly by the hysteresis of their thresholds. */
  lemma AgreeingRulesGiveHysteresis(cfg: Config, rules: map<string, Rule>, es: seq<Event>, key: string, f: nat, r: nat)
    requires Agreeing(rules) && JudgedBy(cfg, rules, es) && f >= 1 && r >= 1
    requires Possible(cfg, rules, false, f) && Possible(cfg, rules, true, r)
    ensures Lookup(Run(es), key).alerting <==> Hysteresis(History(es, key), f, r)
  {
    RulesFixThresholds(cfg, rules, es, key, f, r);
    AlertingIsHysteresis(es, key, f, r);
  }

  /** Without rules, the configured default for failures raises the alert and the one for recoveries resolves it. */
  lemma DefaultsGiveHysteresis(cfg: Config, es: seq<Event>, key: string)
    requires JudgedBy(cfg, map[], es) && cfg.defaultFailures >= 1 && cfg.defaultRecoveries >= 1
    ensures Lookup(Run(es), key).alerting <==> Hysteresis(History(es, key), cfg.defaultFailures, cfg.defaultRecoveries)
  {
    AgreeingRulesGiveHysteresis(cfg, map[], es, key, cfg.defaultFailures, cfg.defaultRecoveries);
  }

  /** With one rule that sets both, its consecutive failures raise and its consecutive successes resolve. */
  lemma OneRuleGivesHysteresis(cfg: Config, rule: Rule, es: seq<Event>, key: string)
    requires JudgedBy(cfg, map[rule.name := rule], es) && rule.failures >= 1 && rule.recoveries >= 1
    ensures Lookup(Run(es), key).alerting <==> Hysteresis(History(es, key), rule.failures, rule.recoveries)
  {
    var rules := map[rule.name := rule];
    assert rule.name in rules && RuleThreshold(rules[rule.name], false) == rule.failures;
    assert RuleThreshold(rules[rule.name], true) == rule.recoveries;
    AgreeingRulesGiveHysteresis(cfg, rules, es, key, rule.failures, rule.recoveries);
  }

  // ----- what a target remembers -----

  /** The last result of a target with the given outcome. */
  function LastOf(es: seq<Event>, key: string, success: bool): Option<Event> {
    if es == [] then None
    else if Last(es).key == key && Last(es).o.success == success then Some(Last(es))
    else LastOf(Front(es), key, success)
  }

  /** The time of the last alert of a target. */
  function LastAlert(es: seq<Event>, key: string): Option<Time> {
    if es == [] then None
    else if Last(es).key == key && LastDecision(es) == Alert then Some(Last(es).now)
    else LastAlert(Front(es), key)
  }

  /** A target remembers when it last succeeded and failed, how it failed, and when its last alert was raised. */
  lemma {:induction false} TargetRemembers(es: seq<Event>, key: string)
    ensures var t := Lookup(Run(es), key);
            var failed, succeeded := LastOf(es, key, false), LastOf(es, key, true);
            && t.key == key && t.alertStart == LastAlert(es, key)
            && t.lastSuccessTime == (if succeeded.Some? then Some(succeeded.value.now) else None)
            && t.lastFailureTime == (if failed.Some? then Some(failed.value.now) else None)
            && t.lastFailureCode == (if failed.Some? then failed.value.o.code else "")
            && t.lastFailureLayer == (if failed.Some? then failed.value.o.layer else "")
  {
    if es != [] {
      TargetRemembers(Front(es), key);
    }
  }
}
