/**
  What a dispatch sends, stated without the loops that send it, and what the
  cooldown guarantees over whole runs of Route calls.
*/
module RoutingRuns {
  import opened Common
  import opened Alerts
  import opened Routing

  // ----- which channels -----

  ghost function Concat(lists: seq<seq<string>>): seq<string> {
    if lists == [] then [] else lists[0] + Concat(lists[1..])
  }

  ghost function ChannelLists(rules: seq<Rule>): seq<seq<string>> {
    seq(|rules|, i requires 0 <= i < |rules| => rules[i].channels)
  }

  /** `n` is the number of rules up to and including the first that does not continue. */
  ghost predicate StopsAfter(matched: seq<Rule>, n: nat) {
    && n <= |matched| && (forall i | 0 <= i < n - 1 :: matched[i].continues)
    && (n == |matched| || (n > 0 && !matched[n - 1].continues))
  }

  /** The channels come from the matching rules in order, up to the first that does not continue. */
  lemma {:induction false} ChannelsOfRules(matched: seq<Rule>) returns (n: nat)
    ensures StopsAfter(matched, n) && Channels(matched) == Concat(ChannelLists(matched[..n]))
  {
    if matched == [] {
      n := 0;
      assert matched[..0] == [];
    } else if !matched[0].continues {
      n := 1;
      assert ChannelLists(matched[..1])[1..] == [];
      assert Channels(matched) == matched[0].channels + [];
    } else {
      n := ChannelsOfRules(matched[1..]);
      assert ChannelLists(matched[..n + 1])[1..] == ChannelLists(matched[1..][..n]);
      n := n + 1;
    }
  }

  /** The matching rules are those that match, in the order in which they were added. */
  lemma {:induction false} MatchingIsFilter(rules: seq<Rule>, c: Cause) returns (at: seq<nat>)
    ensures |at| == |Matching(rules, c)|
    ensures forall i | 0 <= i < |at| :: at[i] < |rules| && Matching(rules, c)[i] == rules[at[i]]
    ensures forall i, j | 0 <= i < j < |at| :: at[i] < at[j]
    ensures forall k: nat | k < |rules| :: k in at <==> Matches(rules[k], c)
  {
    if rules == [] {
      at := [];
    } else {
      at := MatchingIsFilter(Front(rules), c);
      if Matches(Last(rules), c) {
        ghost var before := at;
        at := at + [|rules| - 1];
        assert forall k :: k in at <==> k in before || k == |rules| - 1;
      }
    }
  }

  /** What a rule asks for apart from a team. */
  predicate AllowsButForTeam(r: Rule, c: Cause) {
    && Allows(r.match_.severities, c.severity)
    && Allows(r.match_.namespaces, c.target.namespace)
    && Allows(r.match_.blastRadius, c.blastRadius)
  }

  predicate CarriesTeam(c: Cause, teams: seq<string>) {
    c.labels.Some? && "team" in c.labels.value && c.labels.value["team"] in teams
  }

  /** A team restriction is only enforced on alerts that have a label map. */
  lemma TeamsNeedLabels(r: Rule, c: Cause)
    requires r.match_.teams != [] && AllowsButForTeam(r, c)
    ensures (Matches(r, c) ==> CarriesTeam(c, r.match_.teams)) <==> c.labels.Some?
  {
  }

  // ----- which attempts -----

  ghost predicate AllFail(ok: Attempts, from: nat, to: int) {
    forall i | from <= i < to :: !ok(i)
  }

  /** Attempts `n` to `n + k - 1` on one channel: up to the first success, and never more than `max`. */
  ghost predicate Tried(ok: Attempts, n: nat, k: nat, max: int) {
    k <= Max(0, max) && AllFail(ok, n, n + k - 1) && (k < max ==> k > 0 && ok(n + k - 1))
  }

  lemma {:induction false} TriesAreTried(ok: Attempts, n: nat, max: int)
    ensures Tried(ok, n, Tries(ok, n, max), max)
    decreases max
  {
    if max > 0 && !ok(n) {
      TriesAreTried(ok, n + 1, max - 1);
    }
  }

  ghost function Registered(channels: seq<string>, registered: set<string>): seq<string> {
    if channels == [] then []
    else (if channels[0] in registered then [channels[0]] else []) + Registered(channels[1..], registered)
  }

  /** The attempts `sent` are one block per channel, in order; the first block starts with attempt `n`. */
  ghost predicate Blocks(sent: seq<string>, channels: seq<string>, ok: Attempts, n: nat, max: int) {
    if channels == [] then sent == []
    else exists k :: 0 <= k <= |sent| && Tried(ok, n, k, max) && sent[..k] == Repeat(channels[0], k) &&
           Blocks(sent[k..], channels[1..], ok, n + k, max)
  }

  /** A dispatch attempts exactly the registered channels of its list, each until success or the retry limit. */
  lemma {:induction false} DispatchInBlocks(channels: seq<string>, registered: set<string>, max: int, ok: Attempts,
                                            n: nat)
    ensures Blocks(Dispatch(channels, registered, max, ok, n), Registered(channels, registered), ok, n, max)
  {
    if channels != [] {
      var rest, sent := channels[1..], Dispatch(channels, registered, max, ok, n);
      if channels[0] in registered {
        var k := Tries(ok, n, max);
        TriesAreTried(ok, n, max);
        DispatchInBlocks(rest, registered, max, ok, n + k);
        assert sent[..k] == Repeat(channels[0], k) && sent[k..] == Dispatch(rest, registered, max, ok, n + k);
        assert Registered(channels, registered)[1..] == Registered(rest, registered);
      } else {
        DispatchInBlocks(rest, registered, max, ok, n);
        assert Registered(channels, registered) == Registered(rest, registered);
      }
    }
  }

  /** An alert that rules route: its attempts are blocks over the registered channels of those rules. */
  lemma RuleRoutedAttempts(cfg: Config, rules: seq<Rule>, registered: set<string>, last: map<string, Time>, c: Cause,
                           ok: Attempts, start: Time) returns (n: nat)
    requires Matching(rules, c) != [] && !InCooldown(cfg, last, CooldownKey(c), start)
    ensures StopsAfter(Matching(rules, c), n) && n > 0
    ensures Blocks(Routed(cfg, rules, registered, last, c, ok, start),
                   Registered(Concat(ChannelLists(Matching(rules, c)[..n])), registered), ok, 0, cfg.maxRetries)
  {
    var matched := Matching(rules, c);
    n := ChannelsOfRules(matched);
    DispatchInBlocks(Channels(matched), registered, cfg.maxRetries, ok, 0);
  }

  /** An alert that no rule matches: pagerduty and slack if it is critical, slack alone otherwise. */
  lemma DefaultRoutedAttempts(cfg: Config, rules: seq<Rule>, registered: set<string>, last: map<string, Time>, c: Cause,
                              ok: Attempts, start: Time)
    requires (forall r | r in rules :: !Matches(r, c)) && !InCooldown(cfg, last, CooldownKey(c), start)
    ensures var channels := if c.severity == Critical then ["pagerduty", "slack"] else ["slack"];
            Blocks(Routed(cfg, rules, registered, last, c, ok, start), Registered(channels, registered), ok, 0,
                   cfg.maxRetries)
  {
    NoneMatches(rules, c);
    DispatchInBlocks(DefaultChannels(c.severity), registered, cfg.maxRetries, ok, 0);
  }

  lemma {:induction false} NoneMatches(rules: seq<Rule>, c: Cause)
    requires forall r | r in rules :: !Matches(r, c)
    ensures Matching(rules, c) == []
  {
    if rules != [] {
      NoneMatches(Front(rules), c);
      assert Last(rules) in rules;
    }
  }

  // ----- cooldown -----

  /** A cooldown is per target and failure code: colon-free alerts share one exactly when they agree on all three. */
  lemma CooldownsAreSeparate(a: Cause, b: Cause)
    requires ':' !in a.target.namespace && ':' !in a.target.name && ':' !in b.target.namespace && ':' !in b.target.name
    ensures CooldownKey(a) == CooldownKey(b) <==>
            a.target.namespace == b.target.namespace && a.target.name == b.target.name && a.code == b.code
  {
    var x, y := a.target.name + ":" + a.code, b.target.name + ":" + b.code;
    assert CooldownKey(a) == a.target.namespace + ":" + x && CooldownKey(b) == b.target.namespace + ":" + y;
    if CooldownKey(a) == CooldownKey(b) {
      SplitAtColon(a.target.namespace, x, b.target.namespace, y);
      SplitAtColon(a.target.name, a.code, b.target.name, b.code);
    }
  }

  lemma SplitAtColon(a: string, x: string, b: string, y: string)
    requires ':' !in a && ':' !in b && a + ":" + x == b + ":" + y
    ensures a == b && x == y
  {
    var s := a + ":" + x;
    assert s[|a|] == ':' && s[|b|] == ':';
    assert forall i | 0 <= i < |a| :: s[i] == a[i];
    assert forall i | 0 <= i < |b| :: s[i] == b[i];
    assert |a| == |b|;
    assert a == s[..|a|] && b == s[..|a|] && x == s[|a| + 1..] && y == s[|a| + 1..];
  }

  /** One call to Route: its cooldown key, whether a rule matched, and the clock before and after the sends. */
  datatype Call = Call(key: string, ruled: bool, start: Time, end: Time)

  ghost predicate Clocked(calls: seq<Call>) {
    && (forall i | 0 <= i < |calls| :: calls[i].start <= calls[i].end)
    && (forall i, j | 0 <= i < j < |calls| :: calls[i].end <= calls[j].start)
  }

  function Recorded(cfg: Config, calls: seq<Call>): map<string, Time> {
    if calls == [] then map[]
    else var c := Last(calls); AfterRoute(cfg, Recorded(cfg, Front(calls)), c.key, c.ruled, c.start, c.end)
  }

  /** Whether call `i` got past the cooldown check. */
  predicate Dispatched(cfg: Config, calls: seq<Call>, i: nat)
    requires i < |calls|
  {
    !InCooldown(cfg, Recorded(cfg, calls[..i]), calls[i].key, calls[i].start)
  }

  /** A recorded time is the end of an earlier rule-routed dispatch, and later ones only move it forward. */
  lemma {:induction false} RecordedCovers(cfg: Config, calls: seq<Call>, i: nat)
    requires Clocked(calls) && i < |calls| && calls[i].ruled && Dispatched(cfg, calls, i)
    ensures calls[i].key in Recorded(cfg, calls) && Recorded(cfg, calls)[calls[i].key] >= calls[i].end
  {
    if i == |calls| - 1 {
      assert calls[..i] == Front(calls);
    } else {
      assert Front(calls)[..i] == calls[..i];
      RecordedCovers(cfg, Front(calls), i);
    }
  }

  /** After a rule-routed dispatch, the next dispatch with the same key starts at least a cooldown later. */
  lemma CooldownSpacing(cfg: Config, calls: seq<Call>, i: nat, j: nat)
    requires Clocked(calls) && i < j < |calls| && calls[i].key == calls[j].key
    requires calls[i].ruled && Dispatched(cfg, calls, i) && Dispatched(cfg, calls, j)
    ensures calls[j].start - calls[i].end >= cfg.cooldown
  {
    assert calls[..j][..i] == calls[..i];
    RecordedCovers(cfg, calls[..j], i);
  }

  /** A recorded time comes from a rule-routed dispatch with that key. */
  lemma {:induction false} RecordedBy(cfg: Config, calls: seq<Call>, key: string) returns (j: nat)
    requires key in Recorded(cfg, calls)
    ensures j < |calls| && calls[j].key == key && calls[j].ruled && Dispatched(cfg, calls, j)
    ensures Recorded(cfg, calls)[key] == calls[j].end
  {
    var n := |calls| - 1;
    assert calls[..n] == Front(calls);
    if calls[n].key == key && calls[n].ruled && Dispatched(cfg, calls, n) {
      j := n;
    } else {
      j := RecordedBy(cfg, Front(calls), key);
      assert Front(calls)[..j] == calls[..j];
    }
  }

  /** A call is dispatched if and only if every earlier rule-routed dispatch with its key ended a cooldown before. */
  lemma DispatchedExactly(cfg: Config, calls: seq<Call>, i: nat)
    requires Clocked(calls) && i < |calls|
    ensures Dispatched(cfg, calls, i) <==>
            forall j: nat | j < i && calls[j].key == calls[i].key && calls[j].ruled && Dispatched(cfg, calls, j) ::
              calls[i].start - calls[j].end >= cfg.cooldown
  {
    if Dispatched(cfg, calls, i) {
      forall j: nat | j < i && calls[j].key == calls[i].key && calls[j].ruled && Dispatched(cfg, calls, j)
        ensures calls[i].start - calls[j].end >= cfg.cooldown
      {
        CooldownSpacing(cfg, calls, j, i);
      }
    } else {
      var j := RecordedBy(cfg, calls[..i], calls[i].key);
      assert calls[..i][..j] == calls[..j];
    }
  }

  /**
    Default routing never starts a cooldown: a call is not held back when no earlier one
    with its key was rule-routed.
  */
  lemma {:induction false} DefaultRoutingNeverCools(cfg: Config, calls: seq<Call>, i: nat)
    requires i < |calls| && forall j | 0 <= j < i && calls[j].key == calls[i].key :: !calls[j].ruled
    ensures Dispatched(cfg, calls, i)
  {
    NotRecorded(cfg, calls[..i], calls[i].key);
  }

  lemma {:induction false} NotRecorded(cfg: Config, calls: seq<Call>, key: string)
    requires forall j | 0 <= j < |calls| && calls[j].key == key :: !calls[j].ruled
    ensures key !in Recorded(cfg, calls)
  {
    if calls != [] {
      NotRecorded(cfg, Front(calls), key);
    }
  }
}
