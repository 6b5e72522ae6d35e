/**
  Alert storm prevention (internal/aggregator/storm_prevention.go): a group of
  alerts is rate limited by a cooldown between sends, by a maximum number of
  sends and, once that maximum is hit, by a suppression window.
*/
module StormPrevention {
  import opened Common

  datatype Config = Config(groupBy: seq<string>, maxAlerts: int, cooldown: int, window: int)

  /** The value of one alert group. A zero Go time is None. */
  datatype Group = Group(
    key: string, count: int, first: Time, lastAlert: Option<Time>, lastSent: Option<Time>,
    suppressed: bool, targets: seq<string>)

  type Groups = map<string, Group>

  /** The boolean result of ShouldSendAlert together with its reason string. */
  datatype Verdict = Send | GroupSuppressed | InCooldown | MaxReached

  function NewGroup(key: string, created: Time): Group {
    Group(key, 0, created, None, None, false, [])
  }

  /** The group after an expired suppression window has been noticed at `now`. */
  function Reopen(cfg: Config, g: Group, now: Time): Group {
    if g.suppressed && now - g.first > cfg.window
    then g.(count := 0, first := now, suppressed := false, targets := [])
    else g
  }

  function Judge(cfg: Config, g: Group, now: Time): Verdict {
    if g.suppressed then GroupSuppressed
    else if g.lastSent.Some? && now - g.lastSent.value < cfg.cooldown then InCooldown
    else if g.count >= cfg.maxAlerts then MaxReached
    else Send
  }

  function Charge(g: Group, v: Verdict, target: string, now: Time): Group {
    match v
    case Send =>
      g.(count := g.count + 1, lastAlert := Some(now), lastSent := Some(now), targets := g.targets + [target])
    case MaxReached => g.(suppressed := true)
    case _ => g
  }

  /** The group a call works on: an existing one, or one created at the first clock reading. */
  function Lookup(gs: Groups, key: string, created: Time): Group {
    if key in gs then gs[key] else NewGroup(key, created)
  }

  function VerdictOf(cfg: Config, gs: Groups, key: string, created: Time, now: Time): Verdict {
    Judge(cfg, Reopen(cfg, Lookup(gs, key, created), now), now)
  }

  function AfterCheck(cfg: Config, gs: Groups, target: string, key: string, created: Time, now: Time): Groups {
    var g := Reopen(cfg, Lookup(gs, key, created), now);
    gs[key := Charge(g, Judge(cfg, g, now), target, now)]
  }

  /** Putting the looked-up group in the index first makes no difference to the call. */
  lemma CreatingChangesNothing(cfg: Config, gs: Groups, target: string, key: string, created: Time, now: Time)
    ensures var gs' := gs[key := Lookup(gs, key, created)];
            VerdictOf(cfg, gs', key, created, now) == VerdictOf(cfg, gs, key, created, now) &&
            AfterCheck(cfg, gs', target, key, created, now) == AfterCheck(cfg, gs, target, key, created, now)
  {
  }

  /** Go saturates the difference to a zero time, so a group that never sent counts as expired. */
  predicate Expired(cfg: Config, g: Group, now: Time) {
    g.lastAlert.None? || now - g.lastAlert.value > cfg.window
  }

  function AfterCleanup(cfg: Config, gs: Groups, now: Time): Groups {
    map k | k in gs && !Expired(cfg, gs[k], now) :: gs[k]
  }

  /** A clean-up that still has the keys `todo` to look at. */
  ghost function Sweep(cfg: Config, gs: Groups, todo: set<string>, now: Time): Groups {
    map k | k in gs && (k in todo || !Expired(cfg, gs[k], now)) :: gs[k]
  }

  lemma SweepOne(cfg: Config, gs: Groups, todo: set<string>, key: string, now: Time)
    requires key in todo && todo <= gs.Keys
    ensures key in Sweep(cfg, gs, todo, now)
    ensures |todo - {key}| < |todo|
    ensures Sweep(cfg, gs, todo - {key}, now) ==
            if Expired(cfg, gs[key], now) then Sweep(cfg, gs, todo, now) - {key} else Sweep(cfg, gs, todo, now)
  {
  }

  lemma SweepDone(cfg: Config, gs: Groups, now: Time)
    ensures Sweep(cfg, gs, {}, now) == AfterCleanup(cfg, gs, now)
  {
  }

  // ----- group keys -----

  function AppendField(key: string, field: string, namespace: string, layer: string): string {
    var sep := if key != "" then "/" else "";
    if field == "namespace" then key + sep + namespace
    else if field == "failureLayer" then key + sep + layer
    else key
  }

  function JoinFields(fields: seq<string>, namespace: string, layer: string): string {
    if fields == [] then ""
    else AppendField(JoinFields(Front(fields), namespace, layer), Last(fields), namespace, layer)
  }

  function GroupKey(fields: seq<string>, namespace: string, layer: string): string {
    var key := JoinFields(fields, namespace, layer);
    if key == "" then "default" else key
  }

  /** A mutable alert group, as the preventer keeps it. */
  class AlertGroup {
    const key: string
    var alertCount: int
    var firstAlertTime: Time
    var lastAlertTime: Option<Time>
    var lastSentTime: Option<Time>
    var suppressed: bool
    var alertTargets: seq<string>

    constructor (key: string, created: Time)
      ensures Value() == NewGroup(key, created)
    {
      this.key := key;
      alertCount := 0;
      firstAlertTime := created;
      lastAlertTime, lastSentTime := None, None;
      suppressed := false;
      alertTargets := [];
    }

    ghost function Value(): Group
      reads this
    {
      Group(key, alertCount, firstAlertTime, lastAlertTime, lastSentTime, suppressed, alertTargets)
    }
  }

  class AlertStormPreventer {
    const config: Config
    var alertGroups: map<string, AlertGroup>
    ghost var contents: Groups

    /** Every group object sits under its own key, and `contents` is the value of the whole index. */
    ghost predicate Valid()
      reads this, alertGroups.Values
    {
      && contents.Keys == alertGroups.Keys
      && (forall k | k in alertGroups :: alertGroups[k].key == k && alertGroups[k].Value() == contents[k])
    }

    constructor (config: Config)
      ensures Valid() && contents == map[] && this.config == config
    {
      this.config := config;
      alertGroups, contents := map[], map[];
    }

    /** `created` and `now` are the two clock readings of one call. */
    method ShouldSendAlert(target: string, namespace: string, failureLayer: string, created: Time, now: Time)
      returns (verdict: Verdict)
      requires Valid()
      modifies this, alertGroups.Values
      ensures Valid() && Grows()
      ensures var key := GroupKey(config.groupBy, namespace, failureLayer);
              verdict == VerdictOf(config, old(contents), key, created, now) &&
              contents == AfterCheck(config, old(contents), target, key, created, now)
    {
      var groupKey := MakeGroupKey(namespace, failureLayer);
      FindOrCreate(groupKey, created);
      CreatingChangesNothing(config, old(contents), target, groupKey, created, now);
      verdict := CheckKnown(target, groupKey, created, now);
    }

    method FindOrCreate(groupKey: string, created: Time)
      requires Valid()
      modifies this
      ensures Valid() && Grows()
      ensures groupKey in alertGroups && contents == old(contents)[groupKey := Lookup(old(contents), groupKey, created)]
    {
      if groupKey !in alertGroups {
        var group := new AlertGroup(groupKey, created);
        alertGroups := alertGroups[groupKey := group];
      }
      contents := contents[groupKey := Lookup(contents, groupKey, created)];
    }

    /** Known groups keep their objects; new groups get new ones. */
    twostate predicate Grows()
      reads this
    {
      && old(alertGroups).Keys <= alertGroups.Keys
      && (forall k | k in alertGroups ::
            if k in old(alertGroups) then alertGroups[k] == old(alertGroups)[k] else fresh(alertGroups[k]))
    }

    method CheckKnown(target: string, groupKey: string, ghost created: Time, now: Time) returns (verdict: Verdict)
      requires Valid() && groupKey in alertGroups
      modifies this`contents, alertGroups[groupKey]
      ensures Valid()
      ensures verdict == VerdictOf(config, old(contents), groupKey, created, now)
      ensures contents == AfterCheck(config, old(contents), target, groupKey, created, now)
    {
      verdict := Decide(alertGroups[groupKey], target, now);
      contents := AfterCheck(config, contents, target, groupKey, created, now);
    }

    /** The decision on one group, which it updates in place. */
    method Decide(group: AlertGroup, target: string, now: Time) returns (verdict: Verdict)
      modifies group
      ensures var g := Reopen(config, old(group.Value()), now);
              verdict == Judge(config, g, now) && group.Value() == Charge(g, verdict, target, now)
    {
      if group.suppressed {
        if now - group.firstAlertTime > config.window {
          group.alertCount := 0;
          group.firstAlertTime := now;
          group.suppressed := false;
          group.alertTargets := [];
        } else {
          return GroupSuppressed;
        }
      }
      if group.lastSentTime.Some? && now - group.lastSentTime.value < config.cooldown {
        return InCooldown;
      }
      if group.alertCount >= config.maxAlerts {
        group.suppressed := true;
        return MaxReached;
      }
      group.alertCount := group.alertCount + 1;
      group.lastAlertTime := Some(now);
      group.lastSentTime := Some(now);
      group.alertTargets := group.alertTargets + [target];
      return Send;
    }

    method MakeGroupKey(namespace: string, failureLayer: string) returns (key: string)
      ensures key == GroupKey(config.groupBy, namespace, failureLayer)
    {
      key := "";
      for i := 0 to |config.groupBy|
        invariant key == JoinFields(config.groupBy[..i], namespace, failureLayer)
      {
        assert config.groupBy[..i + 1] == config.groupBy[..i] + [config.groupBy[i]];
        var field := config.groupBy[i];
        if field == "namespace" {
          if key != "" { key := key + "/"; }
          key := key + namespace;
        } else if field == "failureLayer" {
          if key != "" { key := key + "/"; }
          key := key + failureLayer;
        }
      }
      assert config.groupBy[..|config.groupBy|] == config.groupBy;
      if key == "" { key := "default"; }
    }

    method CleanupExpiredGroups(now: Time) returns (expired: nat)
      requires Valid()
      modifies this
      ensures Valid() && KeepsGroups()
      ensures contents == AfterCleanup(config, old(contents), now)
      ensures expired == |old(contents)| - |contents|
    {
      expired := 0;
      var todo := alertGroups.Keys;
      while todo != {}
        invariant Valid() && KeepsGroups() && todo <= old(contents).Keys
        invariant contents == Sweep(config, old(contents), todo, now)
        invariant expired == |old(contents)| - |contents|
        decreases |todo|
      {
        var key :| key in todo;
        var group := alertGroups[key];
        SweepOne(config, old(contents), todo, key, now);
        assert group.Value() == old(contents)[key];
        if group.lastAlertTime.None? || now - group.lastAlertTime.value > config.window {
          Delete(key);
          expired := expired + 1;
        }
        todo := todo - {key};
      }
      SweepDone(config, old(contents), now);
    }

    /** No call replaces a group object, so a shrunken index only points at objects it had. */
    twostate predicate KeepsGroups()
      reads this
    {
      forall k | k in alertGroups :: k in old(alertGroups) && alertGroups[k] == old(alertGroups)[k]
    }

    method Delete(key: string)
      requires Valid()
      modifies this
      ensures Valid() && KeepsGroups()
      ensures contents == old(contents) - {key}
      ensures key in old(contents) ==> |contents| == |old(contents)| - 1
    {
      if key in contents {
        RemoveOne(contents, key);
      }
      alertGroups, contents := alertGroups - {key}, contents - {key};
      assert alertGroups.Keys == old(alertGroups).Keys - {key} && contents.Keys == old(contents).Keys - {key};
    }

    method ResetGroup(namespace: string, failureLayer: string)
      requires Valid()
      modifies this
      ensures Valid() && KeepsGroups()
      ensures contents == old(contents) - {GroupKey(config.groupBy, namespace, failureLayer)}
    {
      var key := MakeGroupKey(namespace, failureLayer);
      Delete(key);
    }
  }
}
