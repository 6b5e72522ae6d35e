/**
  The notification router (internal/alertmanager/routing.go): rules choose the
  channels of an alert, each channel is retried, and a cooldown per target and
  failure code skips repeats.
*/
module Routing {
  import opened Common
  import opened Alerts

  datatype Config = Config(cooldown: int, maxRetries: int)

  datatype Match = Match(severities: seq<Severity>, namespaces: seq<string>, teams: seq<string>,
                         blastRadius: seq<string>)

  datatype Rule = Rule(name: string, match_: Match, channels: seq<string>, continues: bool)

  /** Which attempts of a dispatch succeed, counted from its first attempt. */
  type Attempts = nat -> bool

  predicate Allows<T(==)>(list: seq<T>, x: T) {
    list == [] || x in list
  }

  /** Team restrictions only apply to alerts that carry labels at all. */
  predicate AllowsTeam(teams: seq<string>, labels: Option<Labels>) {
    teams == [] || labels.None? || ("team" in labels.value && labels.value["team"] in teams)
  }

  predicate Matches(r: Rule, c: Cause) {
    && Allows(r.match_.severities, c.severity)
    && Allows(r.match_.namespaces, c.target.namespace)
    && Allows(r.match_.blastRadius, c.blastRadius)
    && AllowsTeam(r.match_.teams, c.labels)
  }

  function Matching(rules: seq<Rule>, c: Cause): seq<Rule> {
    if rules == [] then [] else Matching(Front(rules), c) + if Matches(Last(rules), c) then [Last(rules)] else []
  }

  /** The channels of the rules up to and including the first that does not continue. */
  function Channels(matched: seq<Rule>): seq<string> {
    if matched == [] then []
    else matched[0].channels + if matched[0].continues then Channels(matched[1..]) else []
  }

  function DefaultChannels(s: Severity): seq<string> {
    if s == Critical then ["pagerduty", "slack"] else ["slack"]
  }

  /** How many attempts one channel gets when its first attempt is number `n`. */
  function Tries(ok: Attempts, n: nat, max: int): (k: nat)
    decreases max
  {
    if max <= 0 then 0 else if ok(n) then 1 else 1 + Tries(ok, n + 1, max - 1)
  }

  function Repeat(channel: string, k: nat): seq<string> {
    seq(k, i => channel)
  }

  /** The channel of every attempt, in order, starting with attempt number `n`. */
  function Dispatch(channels: seq<string>, registered: set<string>, max: int, ok: Attempts, n: nat): seq<string> {
    if channels == [] then []
    else if channels[0] !in registered then Dispatch(channels[1..], registered, max, ok, n)
    else
      var k := Tries(ok, n, max);
      Repeat(channels[0], k) + Dispatch(channels[1..], registered, max, ok, n + k)
  }

  function CooldownKey(c: Cause): string {
    c.target.namespace + ":" + c.target.name + ":" + c.code
  }

  predicate InCooldown(cfg: Config, last: map<string, Time>, key: string, start: Time) {
    key in last && start - last[key] < cfg.cooldown
  }

  /** The attempts of one call to Route. */
  function Routed(cfg: Config, rules: seq<Rule>, registered: set<string>, last: map<string, Time>, c: Cause,
                  ok: Attempts, start: Time): seq<string> {
    var matched := Matching(rules, c);
    if InCooldown(cfg, last, CooldownKey(c), start) then []
    else
      var chosen := if matched == [] then DefaultChannels(c.severity) else Channels(matched);
      Dispatch(chosen, registered, cfg.maxRetries, ok, 0)
  }

  /** Only rule-based routing starts a cooldown, at the time the sends are over. */
  function AfterRoute(cfg: Config, last: map<string, Time>, key: string, ruled: bool, start: Time,
                      end: Time): map<string, Time> {
    if !InCooldown(cfg, last, key, start) && ruled then last[key := end] else last
  }

  lemma {:induction false} DispatchAppend(channels: seq<string>, c: string, registered: set<string>, max: int,
                                          ok: Attempts, n: nat)
    ensures var sent := Dispatch(channels, registered, max, ok, n);
            Dispatch(channels + [c], registered, max, ok, n) ==
            sent + if c in registered then Repeat(c, Tries(ok, n + |sent|, max)) else []
  {
    if channels == [] {
      assert channels + [c] == [c] && [c][1..] == [];
    } else {
      assert (channels + [c])[1..] == channels[1..] + [c];
      var k := if channels[0] in registered then Tries(ok, n, max) else 0;
      DispatchAppend(channels[1..], c, registered, max, ok, n + k);
    }
  }

  class Router {
    const config: Config
    var channels: set<string>
    var rules: seq<Rule>
    var lastAlerts: map<string, Time>

    constructor (config: Config)
      ensures this.config == config && channels == {} && rules == [] && lastAlerts == map[]
    {
      this.config := config;
      channels, rules, lastAlerts := {}, [], map[];
    }

    method RegisterChannel(name: string)
      modifies this`channels
      ensures channels == old(channels) + {name}
    {
      channels := channels + {name};
    }

    method AddRule(rule: Rule)
      modifies this`rules
      ensures rules == old(rules) + [rule]
    {
      rules := rules + [rule];
    }

    /** `start` is the clock at the cooldown check, `end` the clock after the last send. */
    method Route(c: Cause, ok: Attempts, start: Time, end: Time) returns (sent: seq<string>)
      modifies this`lastAlerts
      ensures sent == Routed(config, rules, channels, old(lastAlerts), c, ok, start)
      ensures lastAlerts == AfterRoute(config, old(lastAlerts), CooldownKey(c), Matching(rules, c) != [], start, end)
    {
      var key := CooldownKey(c);
      if key in lastAlerts && start - lastAlerts[key] < config.cooldown {
        return [];
      }
      var matched := FindMatchingRules(c);
      if |matched| == 0 {
        assert [] + DefaultChannels(c.severity) == DefaultChannels(c.severity);
        sent := SendAll([], [], DefaultChannels(c.severity), ok);
        return;
      }
      sent := RouteByRules(matched, ok);
      lastAlerts := lastAlerts[key := end];
    }

    method FindMatchingRules(c: Cause) returns (matched: seq<Rule>)
      ensures matched == Matching(rules, c)
    {
      matched := [];
      for i := 0 to |rules|
        invariant matched == Matching(rules[..i], c)
      {
        assert Front(rules[..i + 1]) == rules[..i];
        var matches := MatchesRule(c, rules[i]);
        if matches {
          matched := matched + [rules[i]];
        }
      }
      assert rules[..|rules|] == rules;
    }

    static method MatchesRule(c: Cause, rule: Rule) returns (matches: bool)
      ensures matches <==> Matches(rule, c)
      ensures var m := rule.match_;
              matches <==>
              && (m.severities == [] || c.severity in m.severities)
              && (m.namespaces == [] || c.target.namespace in m.namespaces)
              && (m.blastRadius == [] || c.blastRadius in m.blastRadius)
              && (m.teams == [] || c.labels.None? || ("team" in c.labels.value && c.labels.value["team"] in m.teams))
    {
      var m := rule.match_;
      var found := Contains(m.severities, c.severity);
      if |m.severities| > 0 && !found {
        return false;
      }
      found := Contains(m.namespaces, c.target.namespace);
      if |m.namespaces| > 0 && !found {
        return false;
      }
      found := Contains(m.blastRadius, c.blastRadius);
      if |m.blastRadius| > 0 && !found {
        return false;
      }
      if |m.teams| > 0 && c.labels.Some? {
        if "team" !in c.labels.value {
          return false;
        }
        found := Contains(m.teams, c.labels.value["team"]);
        if !found {
          return false;
        }
      }
      return true;
    }

    method RouteByRules(matched: seq<Rule>, ok: Attempts) returns (sent: seq<string>)
      ensures sent == Dispatch(Channels(matched), channels, config.maxRetries, ok, 0)
    {
      sent := [];
      ghost var done: seq<string> := [];
      var i, stopped := 0, false;
      while i < |matched| && !stopped
        invariant i <= |matched| && sent == Dispatch(done, channels, config.maxRetries, ok, 0)
        invariant done + (if stopped then [] else Channels(matched[i..])) == Channels(matched)
        decreases |matched| - i
      {
        ghost var rest := matched[i..];
        assert rest[0] == matched[i] && rest[1..] == matched[i + 1..];
        sent := SendAll(done, sent, matched[i].channels, ok);
        done := done + matched[i].channels;
        stopped := !matched[i].continues;
        i := i + 1;
      }
      assert done == Channels(matched);
    }

    /** The inner loop over the channels of one rule, after the channels `done`. */
    method SendAll(ghost done: seq<string>, before: seq<string>, more: seq<string>, ok: Attempts)
      returns (sent: seq<string>)
      requires before == Dispatch(done, channels, config.maxRetries, ok, 0)
      ensures sent == Dispatch(done + more, channels, config.maxRetries, ok, 0)
    {
      sent := before;
      assert done + more[..0] == done;
      for i := 0 to |more|
        invariant sent == Dispatch(done + more[..i], channels, config.maxRetries, ok, 0)
      {
        DispatchAppend(done + more[..i], more[i], channels, config.maxRetries, ok, 0);
        assert done + more[..i + 1] == done + more[..i] + [more[i]];
        if more[i] in channels {
          var k, _ := SendWithRetry(ok, |sent|);
          sent := sent + Repeat(more[i], k);
        }
      }
      assert more[..|more|] == more;
    }

    /** The number of attempts made on one channel, the first of which is number `n`, and whether one succeeded. */
    method SendWithRetry(ok: Attempts, n: nat) returns (attempts: nat, success: bool)
      ensures attempts == Tries(ok, n, config.maxRetries)
      ensures success <==> attempts > 0 && ok(n + attempts - 1)
    {
      attempts := 0;
      while attempts < config.maxRetries
        invariant attempts + Tries(ok, n + attempts, config.maxRetries - attempts) == Tries(ok, n, config.maxRetries)
        invariant attempts <= Max(0, config.maxRetries)
        invariant attempts > 0 ==> !ok(n + attempts - 1)
      {
        attempts := attempts + 1;
        if ok(n + attempts - 1) {
          return attempts, true;
        }
      }
      success := false;
    }
  }
}
