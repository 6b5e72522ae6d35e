/**
  The alert decision engine (internal/aggregator/alerting.go): per-target streak
  counters with a failure threshold to fire and a recovery threshold to resolve,
  and the severity of an alert.
*/
module Alerting {
  import opened Common

  datatype Config = Config(defaultFailures: int, defaultRecoveries: int)

  /** The parts of an AlertRule the engine reads. */
  datatype Rule = Rule(name: string, failures: int, recoveries: int)

  datatype Target = Target(
    key: string, failures: nat, successes: nat,
    lastFailureTime: Option<Time>, lastSuccessTime: Option<Time>, lastFailureCode: string, lastFailureLayer: string,
    alerting: bool, alertStart: Option<Time>)

  type Targets = map<string, Target>

  datatype Decision = Quiet | Alert | Resolve

  /** What one result says about a target. */
  datatype Outcome = Outcome(success: bool, code: string, layer: string)

  function NewTarget(key: string): Target {
    Target(key, 0, 0, None, None, "", "", false, None)
  }

  function Lookup(ts: Targets, key: string): Target {
    if key in ts then ts[key] else NewTarget(key)
  }

  /** The counters after a result, before any threshold is consulted. */
  function Count(t: Target, o: Outcome, now: Time): Target {
    if o.success then t.(successes := t.successes + 1, failures := 0, lastSuccessTime := Some(now))
    else t.(failures := t.failures + 1, successes := 0, lastFailureTime := Some(now),
            lastFailureCode := o.code, lastFailureLayer := o.layer)
  }

  /** The decision taken on the updated counters with the threshold that was looked up. */
  function Decide(t: Target, success: bool, threshold: int): Decision {
    if success && t.alerting && t.successes >= threshold then Resolve
    else if !success && !t.alerting && t.failures >= threshold then Alert
    else Quiet
  }

  function Switch(t: Target, d: Decision, now: Time): Target {
    match d
    case Quiet => t
    case Alert => t.(alerting := true, alertStart := Some(now))
    case Resolve => t.(alerting := false)
  }

  function AfterResult(ts: Targets, key: string, o: Outcome, threshold: int, now: Time): Targets {
    var t := Count(Lookup(ts, key), o, now);
    ts[key := Switch(t, Decide(t, o.success, threshold), now)]
  }

  function DecisionOn(ts: Targets, key: string, o: Outcome, threshold: int, now: Time): Decision {
    Decide(Count(Lookup(ts, key), o, now), o.success, threshold)
  }

  /** Putting the looked-up state in the index first makes no difference to the call. */
  lemma CreatingChangesNothing(ts: Targets, key: string, o: Outcome, threshold: int, now: Time)
    ensures var ts' := ts[key := Lookup(ts, key)];
            AfterResult(ts', key, o, threshold, now) == AfterResult(ts, key, o, threshold, now)
  {
  }

  // ----- thresholds -----

  function RuleThreshold(r: Rule, success: bool): int {
    if success then r.recoveries else r.failures
  }

  function DefaultThreshold(cfg: Config, success: bool): int {
    if success then cfg.defaultRecoveries else cfg.defaultFailures
  }

  /**
    A threshold some iteration over the rules can return: Go ranges over the rule
    map in no fixed order and takes the first positive value.
  */
  ghost predicate Possible(cfg: Config, rules: map<string, Rule>, success: bool, threshold: int) {
    if exists n :: n in rules && RuleThreshold(rules[n], success) > 0
    then threshold > 0 && exists n :: n in rules && RuleThreshold(rules[n], success) == threshold
    else threshold == DefaultThreshold(cfg, success)
  }

  /** The lookup does not depend on map order exactly when no two rules disagree. */
  lemma ThresholdDetermined(cfg: Config, rules: map<string, Rule>, success: bool)
    ensures (forall a, b | Possible(cfg, rules, success, a) && Possible(cfg, rules, success, b) :: a == b) <==>
            (forall m, n | m in rules && n in rules &&
                           RuleThreshold(rules[m], success) > 0 && RuleThreshold(rules[n], success) > 0 ::
               RuleThreshold(rules[m], success) == RuleThreshold(rules[n], success))
    ensures exists a :: Possible(cfg, rules, success, a)
  {
    forall n | n in rules && RuleThreshold(rules[n], success) > 0
      ensures Possible(cfg, rules, success, RuleThreshold(rules[n], success))
    {
    }
    if !exists n :: n in rules && RuleThreshold(rules[n], success) > 0 {
      assert Possible(cfg, rules, success, DefaultThreshold(cfg, success));
    }
  }

  class AlertTargetState {
    const targetKey: string
    var consecutiveFailures: nat
    var consecutiveSuccesses: nat
    var lastFailureTime: Option<Time>
    var lastSuccessTime: Option<Time>
    var lastFailureCode: string
    var lastFailureLayer: string
    var isAlerting: bool
    var alertStartTime: Option<Time>

    constructor (key: string)
      ensures Value() == NewTarget(key)
    {
      targetKey := key;
      consecutiveFailures, consecutiveSuccesses := 0, 0;
      lastFailureTime, lastSuccessTime, alertStartTime := None, None, None;
      lastFailureCode, lastFailureLayer := "", "";
      isAlerting := false;
    }

    ghost function Value(): Target
      reads this
    {
      Target(targetKey, consecutiveFailures, consecutiveSuccesses, lastFailureTime, lastSuccessTime,
             lastFailureCode, lastFailureLayer, isAlerting, alertStartTime)
    }
  }

  class AlertDecisionEngine {
    const config: Config
    var targetStates: map<string, AlertTargetState>
    var rules: map<string, Rule>
    ghost var contents: Targets

    ghost predicate Valid()
      reads this, targetStates.Values
    {
      && contents.Keys == targetStates.Keys
      && (forall k | k in targetStates :: targetStates[k].targetKey == k && targetStates[k].Value() == contents[k])
    }

    constructor (config: Config)
      ensures Valid() && contents == map[] && rules == map[] && targetStates == map[] && this.config == config
    {
      this.config := config;
      targetStates, contents, rules := map[], map[], map[];
    }

    /** The ghost result is the threshold the call consulted, if it consulted one. */
    method ProcessResult(key: string, o: Outcome, now: Time) returns (decision: Decision, ghost threshold: int)
      requires Valid()
      modifies this, targetStates.Values
      ensures Valid() && rules == old(rules) && Grows()
      ensures Consults(old(contents), key, o) ==> Possible(config, rules, o.success, threshold)
      ensures decision == DecisionOn(old(contents), key, o, threshold, now)
      ensures contents == AfterResult(old(contents), key, o, threshold, now)
    {
      FindOrCreate(key);
      decision, threshold := ProcessKnown(key, o, now);
      CreatingChangesNothing(old(contents), key, o, threshold, now);
    }

    method ProcessKnown(key: string, o: Outcome, now: Time) returns (decision: Decision, ghost threshold: int)
      requires Valid() && key in targetStates
      modifies this`contents, targetStates[key]
      ensures Valid()
      ensures Consults(old(contents), key, o) ==> Possible(config, rules, o.success, threshold)
      ensures decision == DecisionOn(old(contents), key, o, threshold, now)
      ensures contents == AfterResult(old(contents), key, o, threshold, now)
    {
      decision, threshold := Update(targetStates[key], o, now);
      contents := AfterResult(contents, key, o, threshold, now);
    }

    /** A success only looks up a threshold while the target is alerting. */
    static ghost predicate Consults(ts: Targets, key: string, o: Outcome) {
      !o.success || Lookup(ts, key).alerting
    }

    /** Known targets keep their state objects; new targets get new ones. */
    twostate predicate Grows()
      reads this
    {
      && old(targetStates).Keys <= targetStates.Keys
      && (forall k | k in targetStates ::
            if k in old(targetStates) then targetStates[k] == old(targetStates)[k] else fresh(targetStates[k]))
    }

    method FindOrCreate(key: string)
      requires Valid()
      modifies this
      ensures Valid() && rules == old(rules) && Grows()
      ensures key in targetStates && contents == old(contents)[key := Lookup(old(contents), key)]
    {
      if key !in targetStates {
        var state := new AlertTargetState(key);
        targetStates := targetStates[key := state];
      }
      contents := contents[key := Lookup(contents, key)];
    }

    method Update(state: AlertTargetState, o: Outcome, now: Time) returns (decision: Decision, ghost threshold: int)
      modifies state
      ensures (!o.success || old(state.isAlerting)) ==> Possible(config, rules, o.success, threshold)
      ensures var t := Count(old(state.Value()), o, now);
              decision == Decide(t, o.success, threshold) && state.Value() == Switch(t, decision, now)
    {
      threshold := 0;
      if o.success {
        state.consecutiveSuccesses := state.consecutiveSuccesses + 1;
        state.consecutiveFailures := 0;
        state.lastSuccessTime := Some(now);
        if state.isAlerting {
          var limit := LookUpThreshold(true);
          threshold := limit;
          if state.consecutiveSuccesses >= limit {
            state.isAlerting := false;
            return Resolve, threshold;
          }
        }
        return Quiet, threshold;
      }
      state.consecutiveFailures := state.consecutiveFailures + 1;
      state.consecutiveSuccesses := 0;
      state.lastFailureTime := Some(now);
      state.lastFailureCode, state.lastFailureLayer := o.code, o.layer;
      var limit := LookUpThreshold(false);
      threshold := limit;
      if state.consecutiveFailures >= limit && !state.isAlerting {
        state.isAlerting := true;
        state.alertStartTime := Some(now);
        return Alert, threshold;
      }
      return Quiet, threshold;
    }

    /** getFailureThreshold and getRecoveryThreshold, which differ only in the field they read. */
    method LookUpThreshold(success: bool) returns (threshold: int)
      ensures Possible(config, rules, success, threshold)
    {
      var todo := rules.Keys;
      while todo != {}
        invariant todo <= rules.Keys
        invariant forall n | n in rules && n !in todo :: RuleThreshold(rules[n], success) <= 0
        decreases todo
      {
        var name :| name in todo;
        var value := RuleThreshold(rules[name], success);
        if value > 0 {
          return value;
        }
        todo := todo - {name};
      }
      threshold := DefaultThreshold(config, success);
    }

    method UpdateRule(rule: Rule)
      requires Valid()
      modifies this`rules
      ensures Valid() && rules == old(rules)[rule.name := rule]
    {
      rules := rules[rule.name := rule];
    }

    method RemoveRule(name: string)
      requires Valid()
      modifies this`rules
      ensures Valid() && rules == old(rules) - {name}
    {
      rules := rules - {name};
    }

    method GetStats() returns (totalTargets: nat, alertingCount: nat, ruleCount: nat)
      requires Valid()
      ensures totalTargets == |contents| && ruleCount == |rules|
      ensures alertingCount == |Alerting(contents)|
    {
      alertingCount := 0;
      var todo := targetStates.Keys;
      while todo != {}
        invariant todo <= contents.Keys
        invariant alertingCount == |Alerting(contents) - todo|
        decreases todo
      {
        var key :| key in todo;
        assert targetStates[key].Value() == contents[key];
        CountOne(contents, todo, key);
        if targetStates[key].isAlerting {
          alertingCount := alertingCount + 1;
        }
        todo := todo - {key};
      }
      assert Alerting(contents) - {} == Alerting(contents);
      assert |targetStates.Keys| == |contents.Keys|;
      totalTargets, ruleCount := |targetStates|, |rules|;
    }
  }

  ghost function Alerting(ts: Targets): set<string> {
    set k | k in ts && ts[k].alerting
  }

  lemma CountOne(ts: Targets, todo: set<string>, key: string)
    requires key in todo && key in ts
    ensures |Alerting(ts) - (todo - {key})| == |Alerting(ts) - todo| + if ts[key].alerting then 1 else 0
  {
    var counted := Alerting(ts) - todo;
    assert Alerting(ts) - (todo - {key}) == if ts[key].alerting then counted + {key} else counted;
  }

  // ----- severity -----

  datatype Severity = Info | Warning | Critical

  function SeverityRank(s: Severity): nat {
    match s case Info => 0 case Warning => 1 case Critical => 2
  }

  function MaxSeverity(a: Severity, b: Severity): Severity {
    if SeverityRank(a) > SeverityRank(b) then a else b
  }

  function SeverityFromLayer(layer: string): Severity {
    if layer == "L1" then Critical
    else if layer == "L2" then Critical
    else if layer == "L3" then Warning
    else if layer == "L5" then Warning
    else Warning
  }

  function CalculateSeverity(layer: string, radius: BlastRadius, criticality: string): Severity {
    var base := SeverityFromLayer(layer);
    var spread := match radius
      case Cluster => MaxSeverity(base, Critical)
      case Zone => if base == Warning then Critical else base
      case Node => base;
    if criticality == "P0" then Critical
    else if criticality == "P1" && spread == Warning then Critical
    else spread
  }

  /** A wider blast radius never lowers the severity, and three independent causes make it critical. */
  lemma SeverityMonotone(layer: string, r: BlastRadius, s: BlastRadius, criticality: string)
    requires RadiusRank(r) <= RadiusRank(s)
    ensures SeverityRank(CalculateSeverity(layer, r, criticality)) <=
            SeverityRank(CalculateSeverity(layer, s, criticality))
    ensures CalculateSeverity(layer, r, criticality) ==
            if layer in {"L1", "L2"} || r != Node || criticality in {"P0", "P1"} then Critical else Warning
  {
  }
}
