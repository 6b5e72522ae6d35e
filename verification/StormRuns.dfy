/**
  What the storm preventer guarantees over whole runs: spacing, the rate bound
  of one group, and the shape of every reachable group.
*/
module StormRuns {
  import opened Common
  import opened StormPrevention

  /** A call on the preventer. A check reads the clock at `created` and again at `now`. */
  datatype Op =
    | Check(target: string, key: string, created: Time, now: Time)
    | Cleanup(now: Time)
    | Reset(key: string, now: Time)
  {
    function Start(): Time { if Check? then created else now }
  }

  /** The clock never runs backwards, within a call or between calls. */
  ghost predicate Clocked(ops: seq<Op>) {
    && (forall i | 0 <= i < |ops| :: ops[i].Start() <= ops[i].now)
    && (forall i, j | 0 <= i < j < |ops| :: ops[i].now <= ops[j].Start())
  }

  /** Both clock readings of every check agree. */
  ghost predicate OneReading(ops: seq<Op>) {
    forall i | 0 <= i < |ops| :: ops[i].Start() == ops[i].now
  }

  ghost predicate NeverReset(ops: seq<Op>, key: string) {
    forall i | 0 <= i < |ops| :: ops[i].Reset? ==> ops[i].key != key
  }

  ghost predicate Legal(ops: seq<Op>, key: string, t: Time) {
    Clocked(ops) && NeverReset(ops, key) && forall i | 0 <= i < |ops| :: ops[i].now <= t
  }

  function Apply(cfg: Config, gs: Groups, op: Op): Groups {
    match op
    case Check(target, key, created, now) => AfterCheck(cfg, gs, target, key, created, now)
    case Cleanup(now) => AfterCleanup(cfg, gs, now)
    case Reset(key, _) => gs - {key}
  }

  function Run(cfg: Config, ops: seq<Op>): Groups {
    if ops == [] then map[] else Apply(cfg, Run(cfg, Front(ops)), Last(ops))
  }

  predicate Sent(cfg: Config, gs: Groups, op: Op, key: string) {
    op.Check? && op.key == key && VerdictOf(cfg, gs, key, op.created, op.now) == Send
  }

  /** The times at which alerts of one group were let through, oldest first. */
  function Sends(cfg: Config, ops: seq<Op>, key: string): seq<Time> {
    if ops == [] then []
    else
      Sends(cfg, Front(ops), key) +
      if Sent(cfg, Run(cfg, Front(ops)), Last(ops), key) then [Last(ops).now] else []
  }

  // ----- the invariant of one group -----

  ghost predicate Ordered(s: seq<Time>) {
    forall i, j | 0 <= i < j < |s| :: s[i] <= s[j]
  }

  ghost predicate Spaced(s: seq<Time>, gap: int) {
    forall i | 0 < i < |s| :: s[i] - s[i - 1] >= gap
  }

  /** Any n+1 consecutive sends span more than the window. */
  ghost predicate Spread(s: seq<Time>, n: nat, window: int) {
    forall i | 0 <= i && i + n < |s| :: s[i + n] - s[i] > window
  }

  function Slack(one: bool): nat {
    if one then 1 else 0
  }

  /** How many sends one window may hold: two epochs, less one when an epoch opens with a send. */
  function Bound(cfg: Config, one: bool): nat {
    if cfg.maxAlerts <= 0 then 0 else 2 * cfg.maxAlerts - Slack(one)
  }

  /** State of the group `key` after sends `s`, at a time no later than `t`. */
  ghost predicate Inv(cfg: Config, gs: Groups, key: string, s: seq<Time>, t: Time, one: bool) {
    && Ordered(s) && (forall i | 0 <= i < |s| :: s[i] <= t)
    && (cfg.maxAlerts <= 0 ==> s == [])
    && (cfg.maxAlerts > 0 ==> Spread(s, Bound(cfg, one), cfg.window))
    && (key !in gs ==> forall i | 0 <= i < |s| :: s[i] + cfg.window < t)
    && (key in gs ==> GroupInv(cfg, gs[key], s, t, one))
  }

  ghost predicate GroupInv(cfg: Config, g: Group, s: seq<Time>, t: Time, one: bool) {
    && g.first <= t && |g.targets| == g.count
    && (cfg.maxAlerts <= 0 ==> g.count == 0 && g.lastSent.None? && g.lastAlert.None?)
    && (cfg.maxAlerts > 0 ==> Epoch(cfg, g, s, t, one))
  }

  /** The last `g.count` sends form the current epoch, which opened at `g.first`. */
  ghost predicate Epoch(cfg: Config, g: Group, s: seq<Time>, t: Time, one: bool) {
    && 1 <= g.count <= Min(cfg.maxAlerts, |s|)
    && g.lastSent == g.lastAlert == Some(Last(s))
    && (g.suppressed ==> g.count == cfg.maxAlerts && Last(s) + cfg.cooldown <= t)
    && (one ==> s[|s| - g.count] == g.first)
    && (forall i | 0 <= i < |s| - g.count :: s[i] <= g.first)
    && (forall i | 0 <= i < |s| - g.count - cfg.maxAlerts + Slack(one) :: s[i] + cfg.window < g.first)
  }

  /** A send into an epoch, whether it opens it (`g.count == 0`) or continues it. */
  ghost predicate CanSend(cfg: Config, g: Group, s: seq<Time>, now: Time, one: bool) {
    && 0 < cfg.maxAlerts && 0 <= g.count < cfg.maxAlerts && g.count <= |s| && g.first <= now
    && !g.suppressed && |g.targets| == g.count
    && Ordered(s) && Spread(s, Bound(cfg, one), cfg.window)
    && (forall i | 0 <= i < |s| :: s[i] <= now)
    && (one ==> if g.count == 0 then g.first == now else s[|s| - g.count] == g.first)
    && (forall i | 0 <= i < |s| - g.count :: s[i] <= g.first)
    && (forall i | 0 <= i < |s| - g.count - cfg.maxAlerts + Slack(one) :: s[i] + cfg.window < g.first)
  }

  lemma SendKeepsInv(cfg: Config, g: Group, s: seq<Time>, target: string, now: Time, one: bool)
    requires CanSend(cfg, g, s, now, one)
    ensures var g', s' := Charge(g, Send, target, now), s + [now];
            Ordered(s') && Spread(s', Bound(cfg, one), cfg.window) && GroupInv(cfg, g', s', now, one)
  {
  }

  lemma ReopenReady(cfg: Config, g: Group, s: seq<Time>, t: Time, now: Time, one: bool)
    requires 0 < cfg.maxAlerts && t <= now && GroupInv(cfg, g, s, t, one)
    requires Ordered(s) && Spread(s, Bound(cfg, one), cfg.window) && forall i | 0 <= i < |s| :: s[i] <= t
    ensures var r := Reopen(cfg, g, now);
            match Judge(cfg, r, now)
            case Send => CanSend(cfg, r, s, now, one)
            case v => GroupInv(cfg, Charge(r, v, "", now), s, now, one)
  {
  }

  /** A check on the group's value alone: `g` is the group it finds or creates. */
  lemma DecisionKeepsInv(cfg: Config, g: Group, created: bool, s: seq<Time>, t: Time, target: string, now: Time,
                         one: bool)
    requires t <= now && Ordered(s) && forall i | 0 <= i < |s| :: s[i] <= t
    requires if cfg.maxAlerts <= 0 then s == [] else Spread(s, Bound(cfg, one), cfg.window)
    requires created ==> t <= g.first <= now && (one ==> g.first == now) && g == NewGroup(g.key, g.first)
    requires created ==> forall i | 0 <= i < |s| :: s[i] + cfg.window < t
    requires !created ==> GroupInv(cfg, g, s, t, one)
    ensures var r := Reopen(cfg, g, now);
            var v := Judge(cfg, r, now);
            var s' := s + if v == Send then [now] else [];
            && Ordered(s') && (cfg.maxAlerts <= 0 ==> s' == [])
            && GroupInv(cfg, Charge(r, v, target, now), s', now, one)
            && (cfg.maxAlerts > 0 ==> Spread(s', Bound(cfg, one), cfg.window))
  {
    if 0 < cfg.maxAlerts {
      var r := Reopen(cfg, g, now);
      if created {
        assert CanSend(cfg, r, s, now, one);
      } else {
        ReopenReady(cfg, g, s, t, now, one);
      }
      if Judge(cfg, r, now) == Send {
        SendKeepsInv(cfg, r, s, target, now, one);
      } else {
        assert s + [] == s;
      }
    }
  }

  lemma CheckKeepsInv(cfg: Config, gs: Groups, s: seq<Time>, t: Time, op: Op, one: bool)
    requires op.Check? && Inv(cfg, gs, op.key, s, t, one)
    requires t <= op.created <= op.now && (one ==> op.created == op.now)
    ensures var s' := s + if Sent(cfg, gs, op, op.key) then [op.now] else [];
            Inv(cfg, Apply(cfg, gs, op), op.key, s', op.now, one)
  {
    var g := Lookup(gs, op.key, op.created);
    DecisionKeepsInv(cfg, g, op.key !in gs, s, t, op.target, op.now, one);
  }

  lemma {:induction false} RunKeepsInv(cfg: Config, ops: seq<Op>, key: string, t: Time, one: bool)
    requires Legal(ops, key, t) && (one ==> OneReading(ops))
    ensures Inv(cfg, Run(cfg, ops), key, Sends(cfg, ops, key), t, one)
  {
    if ops != [] {
      var pre, op := Front(ops), Last(ops);
      RunKeepsInv(cfg, pre, key, op.Start(), one);
      StepKeepsInv(cfg, Run(cfg, pre), key, Sends(cfg, pre, key), op.Start(), op, t, one);
    }
  }

  lemma TimePasses(cfg: Config, gs: Groups, key: string, s: seq<Time>, t: Time, t': Time, one: bool)
    requires Inv(cfg, gs, key, s, t, one) && t <= t'
    ensures Inv(cfg, gs, key, s, t', one)
  {
  }

  /** Dropping an expired group leaves every send more than a window in the past. */
  lemma CleanupKeepsInv(cfg: Config, gs: Groups, key: string, s: seq<Time>, now: Time, one: bool)
    requires Inv(cfg, gs, key, s, now, one)
    ensures Inv(cfg, AfterCleanup(cfg, gs, now), key, s, now, one)
  {
  }

  lemma OtherKeepsInv(cfg: Config, gs: Groups, key: string, s: seq<Time>, now: Time, op: Op, one: bool)
    requires Inv(cfg, gs, key, s, now, one)
    requires !op.Cleanup? && op.key != key
    ensures Inv(cfg, Apply(cfg, gs, op), key, s, now, one)
  {
  }

  /** One step of any kind, seen from the group `key`. */
  lemma StepKeepsInv(cfg: Config, gs: Groups, key: string, s: seq<Time>, t: Time, op: Op, t': Time, one: bool)
    requires Inv(cfg, gs, key, s, t, one) && t <= op.Start() <= op.now <= t' && (one ==> op.Start() == op.now)
    requires op.Reset? ==> op.key != key
    ensures Inv(cfg, Apply(cfg, gs, op), key, s + if Sent(cfg, gs, op, key) then [op.now] else [], t', one)
  {
    if op.Check? && op.key == key {
      CheckKeepsInv(cfg, gs, s, t, op, one);
    } else {
      assert s + [] == s;
      TimePasses(cfg, gs, key, s, t, op.now, one);
      if op.Cleanup? {
        CleanupKeepsInv(cfg, gs, key, s, op.now, one);
      } else {
        OtherKeepsInv(cfg, gs, key, s, op.now, op, one);
      }
    }
    TimePasses(cfg, Apply(cfg, gs, op), key, s + if Sent(cfg, gs, op, key) then [op.now] else [], op.now, t', one);
  }

  // ----- the rate bound -----

  /** How many entries of `s` lie in the closed interval from `lo` to `hi`. */
  function CountIn(s: seq<Time>, lo: Time, hi: Time): nat {
    if s == [] then 0 else CountIn(Front(s), lo, hi) + if lo <= Last(s) <= hi then 1 else 0
  }

  /** If at least `n` entries of an ordered sequence lie in an interval, `n` consecutive ones do. */
  lemma {:induction false} CountGivesBlock(s: seq<Time>, lo: Time, hi: Time, n: nat) returns (i: nat)
    requires Ordered(s) && 1 <= n <= CountIn(s, lo, hi)
    ensures i + n <= |s| && lo <= s[i] && s[i + n - 1] <= hi
  {
    if n <= CountIn(Front(s), lo, hi) {
      i := CountGivesBlock(Front(s), lo, hi, n);
    } else if n == 1 {
      i := |s| - 1;
    } else {
      var j := CountGivesBlock(Front(s), lo, hi, n - 1);
      i := |s| - n;
    }
  }

  /** At least `k` entries lie in an interval if those from position `i` on do. */
  lemma {:induction false} BlockGivesCount(s: seq<Time>, lo: Time, hi: Time, i: nat, k: nat)
    requires i + k <= |s| && forall j | i <= j < i + k :: lo <= s[j] <= hi
    ensures CountIn(s, lo, hi) >= k
  {
    if k > 0 {
      BlockGivesCount(s[..|s| - 1], lo, hi, i, if i + k == |s| then k - 1 else k);
    }
  }

  /** The sends of a group are always apart by the cooldown, or by more than a window if a clean-up forgot the group. */
  lemma {:induction false} GapKept(cfg: Config, ops: seq<Op>, key: string)
    requires Clocked(ops) && NeverReset(ops, key)
    ensures Spaced(Sends(cfg, ops, key), Min(cfg.cooldown, cfg.window + 1))
  {
    if ops != [] {
      var pre, op := Front(ops), Last(ops);
      var s := Sends(cfg, pre, key);
      GapKept(cfg, pre, key);
      RunKeepsInv(cfg, pre, key, op.Start(), false);
      if Sent(cfg, Run(cfg, pre), op, key) && s != [] {
        assert op.now - Last(s) >= Min(cfg.cooldown, cfg.window + 1);
      }
    }
  }

  lemma {:induction false} GapsAddUp(s: seq<Time>, gap: int, i: nat, n: nat)
    requires Spaced(s, gap) && i + n < |s|
    ensures s[i + n] - s[i] >= n * gap
  {
    if n > 0 {
      GapsAddUp(s, gap, i, n - 1);
      assert s[i + n] - s[i + n - 1] >= gap;
    }
  }

  /**
    The most sends of one group that fit in a window: those of two epochs, less one when
    checks read the clock once, and no more than the cooldown leaves room for.
  */
  function Capacity(cfg: Config, one: bool): nat {
    if cfg.maxAlerts <= 0 || cfg.window < 0 then 0
    else if cfg.cooldown <= 0 then Bound(cfg, one)
    else Min(Bound(cfg, one), cfg.window / cfg.cooldown + 1)
  }

  /** No interval as long as the suppression window holds more than `Capacity` sends of one group. */
  lemma RateBound(cfg: Config, ops: seq<Op>, key: string, lo: Time)
    requires Clocked(ops) && NeverReset(ops, key)
    ensures CountIn(Sends(cfg, ops, key), lo, lo + cfg.window) <= Capacity(cfg, false)
    ensures OneReading(ops) ==> CountIn(Sends(cfg, ops, key), lo, lo + cfg.window) <= Capacity(cfg, true)
  {
    WithinCapacity(cfg, ops, key, lo, false);
    if OneReading(ops) {
      WithinCapacity(cfg, ops, key, lo, true);
    }
  }

  lemma WithinCapacity(cfg: Config, ops: seq<Op>, key: string, lo: Time, one: bool)
    requires Clocked(ops) && NeverReset(ops, key) && (one ==> OneReading(ops))
    ensures CountIn(Sends(cfg, ops, key), lo, lo + cfg.window) <= Capacity(cfg, one)
  {
    var s, n := Sends(cfg, ops, key), Capacity(cfg, one);
    RunKeepsInv(cfg, ops, key, if ops == [] then 0 else Last(ops).now, one);
    GapKept(cfg, ops, key);
    if n < CountIn(s, lo, lo + cfg.window) {
      var i := CountGivesBlock(s, lo, lo + cfg.window, n + 1);
      GapsAddUp(s, Min(cfg.cooldown, cfg.window + 1), i, n);
      if 0 < cfg.cooldown && 0 <= cfg.window {
        RoundedDown(cfg.window, cfg.cooldown, 0);
      }
      assert false;
    }
  }

  /** A window holds that many gaps, and not one more. */
  lemma RoundedDown(window: nat, cooldown: nat, j: nat)
    requires cooldown > 0
    ensures j <= window / cooldown ==> 0 <= j * cooldown <= window
    ensures (window / cooldown + 1) * Min(cooldown, window + 1) > window
  {
    var q := window / cooldown;
    assert window == q * cooldown + window % cooldown;
    if cooldown > window {
      assert q == 0;
    } else {
      assert (q + 1) * cooldown == q * cooldown + cooldown;
    }
    if j <= q {
      assert (q - j) * cooldown == q * cooldown - j * cooldown;
    }
  }

  /** One more operation on a run whose groups `gs` and sends `s` of "k" are known. */
  lemma Continue(cfg: Config, ops: seq<Op>, pre: seq<Op>, gs: Groups, s: seq<Time>)
    requires ops != [] && pre == Front(ops) && Run(cfg, pre) == gs && Sends(cfg, pre, "k") == s
    ensures Run(cfg, ops) == Apply(cfg, gs, Last(ops))
    ensures Sends(cfg, ops, "k") == s + if Sent(cfg, gs, Last(ops), "k") then [Last(ops).now] else []
  {
  }

  // ----- runs that reach the bound -----

  function CheckAt(t: Time): Op {
    Check("t", "k", t, t)
  }

  /** The distance between sends that follow each other as fast as the cooldown allows. */
  function Pace(cfg: Config): nat {
    Max(0, cfg.cooldown)
  }

  function Later(t: Time, step: nat): Time {
    t + step
  }

  /** `n` times, `step` apart, from `t` on. */
  function Times(t: Time, step: nat, n: nat): (s: seq<Time>)
    ensures |s| == n
    decreases n
  {
    if n == 0 then [] else [t] + Times(Later(t, step), step, n - 1)
  }

  /** The time after them. */
  function TimeAfter(t: Time, step: nat, n: nat): (end: Time)
    ensures end >= t
    decreases n
  {
    if n == 0 then t else TimeAfter(Later(t, step), step, n - 1)
  }

  lemma {:induction false} TimesJoin(t: Time, step: nat, n: nat, m: nat)
    ensures Times(t, step, n) + Times(TimeAfter(t, step, n), step, m) == Times(t, step, n + m)
    decreases n
  {
    if n > 0 {
      TimesJoin(Later(t, step), step, n - 1, m);
    }
  }

  lemma TimesMore(s: seq<Time>, t: Time, step: nat, n: nat)
    requires n > 0
    ensures s + [t] + Times(Later(t, step), step, n - 1) == s + Times(t, step, n)
  {
  }

  lemma {:induction false} TimesAt(t: Time, step: nat, n: nat, i: nat)
    requires i < n
    ensures Times(t, step, n)[i] == t + i * step
    decreases n
  {
    if i > 0 {
      TimesAt(Later(t, step), step, n - 1, i - 1);
      assert i * step == step + (i - 1) * step;
    }
  }

  /** The run has come to time `t`; with `one`, every check read the clock once. */
  ghost predicate Timely(ops: seq<Op>, t: Time, one: bool) {
    Legal(ops, "k", t) && (one ==> OneReading(ops))
  }

  /** The group has sent `count` alerts in an epoch that opened at `first`, and may send again at time `t`. */
  ghost predicate Open(cfg: Config, gs: Groups, t: Time, first: Time, count: int) {
    && "k" in gs && gs["k"].first == first && gs["k"].count == count && !gs["k"].suppressed
    && (gs["k"].lastSent.Some? ==> t - gs["k"].lastSent.value >= cfg.cooldown)
  }

  lemma Wait(ops: seq<Op>, t: Time, t': Time, one: bool)
    requires Timely(ops, t, one) && t <= t'
    ensures Timely(ops + [CheckAt(t')], t', one)
  {
  }

  lemma SendOne(cfg: Config, ops: seq<Op>, t: Time, first: Time, count: nat)
    requires Open(cfg, Run(cfg, ops), t, first, count) && count < cfg.maxAlerts
    ensures Open(cfg, Run(cfg, ops + [CheckAt(t)]), Later(t, Pace(cfg)), first, count + 1)
    ensures Sends(cfg, ops + [CheckAt(t)], "k") == Sends(cfg, ops, "k") + [t]
  {
    Continue(cfg, ops + [CheckAt(t)], ops, Run(cfg, ops), Sends(cfg, ops, "k"));
  }

  /** A full group is suppressed by one check; the next one, after the window, opens a new epoch with a send. */
  lemma Reopens(cfg: Config, ops: seq<Op>, t: Time, first: Time)
    requires Open(cfg, Run(cfg, ops), t, first, cfg.maxAlerts) && 0 < cfg.maxAlerts && t - first > cfg.window
    ensures Open(cfg, Run(cfg, ops + [CheckAt(t)] + [CheckAt(t)]), Later(t, Pace(cfg)), t, 1)
    ensures Sends(cfg, ops + [CheckAt(t)] + [CheckAt(t)], "k") == Sends(cfg, ops, "k") + [t]
  {
    var c := CheckAt(t);
    var full := Run(cfg, ops);
    Continue(cfg, ops + [c], ops, full, Sends(cfg, ops, "k"));
    var suppressed := Run(cfg, ops + [c]);
    assert suppressed == full["k" := full["k"].(suppressed := true)];
    Continue(cfg, ops + [c] + [c], ops + [c], suppressed, Sends(cfg, ops, "k"));
  }

  /** `n` sends at the pace of the cooldown, into an epoch that has room for them. */
  lemma {:induction false} SendMany(cfg: Config, ops: seq<Op>, t: Time, first: Time, count: nat, n: nat, one: bool)
    returns (more: seq<Op>)
    requires Timely(ops, t, one) && Open(cfg, Run(cfg, ops), t, first, count) && count + n <= cfg.maxAlerts
    ensures Timely(more, TimeAfter(t, Pace(cfg), n), one)
    ensures Open(cfg, Run(cfg, more), TimeAfter(t, Pace(cfg), n), first, count + n)
    ensures Sends(cfg, more, "k") == Sends(cfg, ops, "k") + Times(t, Pace(cfg), n)
    decreases n
  {
    var step, s := Pace(cfg), Sends(cfg, ops, "k");
    if n == 0 {
      more := ops;
      assert s + [] == s;
    } else {
      var next := Later(t, step);
      Wait(ops, t, t, one);
      SendOne(cfg, ops, t, first, count);
      more := SendMany(cfg, ops + [CheckAt(t)], next, first, count + 1, n - 1, one);
      TimesMore(s, t, step, n);
    }
  }

  /** A full group and the first send of the next epoch. */
  lemma NextEpoch(cfg: Config, ops: seq<Op>, t: Time, first: Time, one: bool) returns (more: seq<Op>)
    requires Timely(ops, t, one) && Open(cfg, Run(cfg, ops), t, first, cfg.maxAlerts)
    requires 0 < cfg.maxAlerts && t - first > cfg.window
    ensures Timely(more, Later(t, Pace(cfg)), one) && Open(cfg, Run(cfg, more), Later(t, Pace(cfg)), t, 1)
    ensures Sends(cfg, more, "k") == Sends(cfg, ops, "k") + [t]
  {
    Wait(ops, t, t, one);
    Wait(ops + [CheckAt(t)], t, t, one);
    Reopens(cfg, ops, t, first);
    more := ops + [CheckAt(t)] + [CheckAt(t)];
  }

  /** The rest of an epoch and the whole next one, without a pause between them. */
  lemma TwoEpochs(cfg: Config, ops: seq<Op>, t: Time, first: Time, one: bool) returns (more: seq<Op>, end: Time)
    requires Timely(ops, t, one) && Open(cfg, Run(cfg, ops), t, first, 1)
    requires 0 < cfg.maxAlerts && t - first > cfg.window
    ensures Timely(more, end, one)
    ensures Sends(cfg, more, "k") == Sends(cfg, ops, "k") + Times(t, Pace(cfg), Bound(cfg, true))
  {
    var step, s, rest := Pace(cfg), Sends(cfg, ops, "k"), cfg.maxAlerts - 1;
    var full := TimeAfter(t, step, rest);
    var next := Later(full, step);
    more := SendMany(cfg, ops, t, first, 1, rest, one);
    more := NextEpoch(cfg, more, full, first, one);
    more := SendMany(cfg, more, next, full, 1, rest, one);
    end := TimeAfter(next, step, rest);
    TwoEpochTimes(cfg, s, t, rest);
  }

  lemma TwoEpochTimes(cfg: Config, s: seq<Time>, t: Time, rest: nat)
    requires rest == cfg.maxAlerts - 1
    ensures var step := Pace(cfg);
            var full := TimeAfter(t, step, rest);
            s + Times(t, step, rest) + [full] + Times(Later(full, step), step, rest) ==
            s + Times(t, step, Bound(cfg, true))
  {
    var step := Pace(cfg);
    var full := TimeAfter(t, step, rest);
    TimesMore(s + Times(t, step, rest), full, step, rest + 1);
    TimesJoin(t, step, rest, rest + 1);
    assert Bound(cfg, true) == rest + (rest + 1);
  }

  /** As many of `n` paced sends fall into a window as the cooldown leaves room for. */
  lemma PacedCount(cfg: Config, before: seq<Time>, t: Time, n: nat)
    requires 0 <= cfg.window
    ensures CountIn(before + Times(t, Pace(cfg), n), t, t + cfg.window) >=
            if cfg.cooldown <= 0 then n else Min(n, cfg.window / cfg.cooldown + 1)
  {
    var step := Pace(cfg);
    var k := if cfg.cooldown <= 0 then n else Min(n, cfg.window / cfg.cooldown + 1);
    var s := before + Times(t, step, n);
    forall j | |before| <= j < |before| + k
      ensures t <= s[j] <= t + cfg.window
    {
      TimesAt(t, step, n, j - |before|);
      if 0 < cfg.cooldown {
        RoundedDown(cfg.window, cfg.cooldown, j - |before|);
      }
    }
    BlockGivesCount(s, t, t + cfg.window, |before|, k);
  }

  /** The first check dates its epoch before its own send if it reads the clock twice. */
  lemma FirstSend(cfg: Config, first: Time, t: Time)
    requires 0 < cfg.maxAlerts && first <= 0 && Pace(cfg) <= t
    ensures var ops := [Check("t", "k", first, 0)];
            && Timely(ops, t, first == 0) && Open(cfg, Run(cfg, ops), t, first, 1) && Sends(cfg, ops, "k") == [0]
  {
    Continue(cfg, [Check("t", "k", first, 0)], [], map[], []);
  }

  /** A run whose sends follow each other at the pace of the cooldown for as long as the maximum allows. */
  lemma PacedRun(cfg: Config, one: bool) returns (ops: seq<Op>, before: seq<Time>, lo: Time, end: Time)
    requires 0 < cfg.maxAlerts && 0 <= cfg.window
    ensures Timely(ops, end, one) && Sends(cfg, ops, "k") == before + Times(lo, Pace(cfg), Bound(cfg, one))
  {
    var step := Pace(cfg);
    if one {
      before, lo := [0], Max(step, cfg.window + 1);
      FirstSend(cfg, 0, lo);
      ops, end := TwoEpochs(cfg, [Check("t", "k", 0, 0)], lo, 0, true);
    } else {
      before, lo := [], 0;
      var first, next := -cfg.window - 1, Later(lo, step);
      FirstSend(cfg, first, next);
      ops, end := TwoEpochs(cfg, [Check("t", "k", first, 0)], next, first, false);
      assert Bound(cfg, false) - 1 == Bound(cfg, true);
      assert Times(lo, step, Bound(cfg, false)) == [lo] + Times(next, step, Bound(cfg, true));
    }
  }

  /** The bound is tight: for every configuration some run fills a window up to its capacity. */
  lemma CapacityReached(cfg: Config, one: bool) returns (ops: seq<Op>, lo: Time)
    ensures Clocked(ops) && NeverReset(ops, "k") && (one ==> OneReading(ops))
    ensures CountIn(Sends(cfg, ops, "k"), lo, lo + cfg.window) == Capacity(cfg, one)
  {
    ops, lo := [], 0;
    if 0 < cfg.maxAlerts && 0 <= cfg.window {
      var before, end;
      ops, before, lo, end := PacedRun(cfg, one);
      PacedCount(cfg, before, lo, Bound(cfg, one));
      RateBound(cfg, ops, "k", lo);
    }
  }

  // ----- cooldown spacing -----

  ghost predicate NoCleanup(ops: seq<Op>) {
    forall i | 0 <= i < |ops| :: !ops[i].Cleanup?
  }

  /** Without clean-ups, a group that has sent is still there. */
  lemma {:induction false} SentThenKnown(cfg: Config, ops: seq<Op>, key: string)
    requires NeverReset(ops, key) && NoCleanup(ops)
    ensures Sends(cfg, ops, key) != [] ==> key in Run(cfg, ops)
  {
    if ops != [] {
      SentThenKnown(cfg, Front(ops), key);
    }
  }

  /** The cooldown survives clean-ups when the window is not shorter than the cooldown. */
  predicate CooldownKept(cfg: Config) {
    cfg.maxAlerts <= 0 || cfg.cooldown <= Max(0, cfg.window + 1)
  }

  lemma {:induction false} CooldownSpacing(cfg: Config, ops: seq<Op>, key: string)
    requires Clocked(ops) && NeverReset(ops, key) && (CooldownKept(cfg) || NoCleanup(ops))
    ensures Spaced(Sends(cfg, ops, key), cfg.cooldown)
  {
    if ops != [] {
      var pre, op := Front(ops), Last(ops);
      var s := Sends(cfg, pre, key);
      CooldownSpacing(cfg, pre, key);
      RunKeepsInv(cfg, pre, key, op.Start(), false);
      if Sent(cfg, Run(cfg, pre), op, key) && s != [] {
        if NoCleanup(ops) {
          SentThenKnown(cfg, pre, key);
        }
        assert op.now - Last(s) >= cfg.cooldown;
      }
    }
  }

  /** The exact condition under which no run with clean-ups breaks the cooldown. */
  lemma CooldownExact(cfg: Config)
    ensures CooldownKept(cfg) <==>
            forall ops, key | Clocked(ops) && NeverReset(ops, key) :: Spaced(Sends(cfg, ops, key), cfg.cooldown)
  {
    if CooldownKept(cfg) {
      forall ops, key | Clocked(ops) && NeverReset(ops, key)
        ensures Spaced(Sends(cfg, ops, key), cfg.cooldown)
      {
        CooldownSpacing(cfg, ops, key);
      }
    } else {
      CooldownBroken(cfg);
    }
  }

  /** A clean-up just after the window forgets the last send while the cooldown still runs. */
  lemma CooldownBroken(cfg: Config)
    requires !CooldownKept(cfg)
    ensures var c := Max(0, cfg.window + 1);
            var ops := [Check("t", "k", 0, 0), Cleanup(c), Check("t", "k", c, c)];
            Clocked(ops) && NeverReset(ops, "k") && !Spaced(Sends(cfg, ops, "k"), cfg.cooldown)
  {
    var c := Max(0, cfg.window + 1);
    var o1, o2, o3 := Check("t", "k", 0, 0), Cleanup(c), Check("t", "k", c, c);
    var gs := map["k" := Group("k", 1, 0, Some(0), Some(0), false, ["t"])];
    Continue(cfg, [o1], [], map[], []);
    assert [] + ["t"] == ["t"];
    assert Run(cfg, [o1]) == gs;
    Continue(cfg, [o1, o2], [o1], gs, [0]);
    assert Run(cfg, [o1, o2]) == map[];
    Continue(cfg, [o1, o2, o3], [o1, o2], map[], [0]);
    var s := Sends(cfg, [o1, o2, o3], "k");
    assert s == [0, c] && s[1] - s[0] < cfg.cooldown;
  }

  // ----- the shape of reachable groups -----

  /** Resets included: the count is the number of recorded targets and respects the maximum. */
  lemma {:induction false} CountsMatchTargets(cfg: Config, ops: seq<Op>, key: string)
    requires key in Run(cfg, ops)
    ensures var g := Run(cfg, ops)[key]; g.count == |g.targets| && 0 <= g.count <= Max(0, cfg.maxAlerts)
  {
    var pre, op := Front(ops), Last(ops);
    if key in Run(cfg, pre) {
      CountsMatchTargets(cfg, pre, key);
    }
  }

  /** The targets whose alerts were let through, oldest first. */
  function SentTargets(cfg: Config, ops: seq<Op>, key: string): seq<string> {
    if ops == [] then []
    else
      SentTargets(cfg, Front(ops), key) +
      if Sent(cfg, Run(cfg, Front(ops)), Last(ops), key) then [Last(ops).target] else []
  }

  /** A group records the targets of its latest sends, in order, as many as its count. */
  lemma {:induction false} TargetsAreTheLatestSent(cfg: Config, ops: seq<Op>, key: string)
    requires key in Run(cfg, ops)
    ensures var g, sent := Run(cfg, ops)[key], SentTargets(cfg, ops, key);
            g.key == key && 0 <= g.count <= |sent| && g.targets == sent[|sent| - g.count..]
  {
    var pre, op := Front(ops), Last(ops);
    var sent := SentTargets(cfg, pre, key);
    if key in Run(cfg, pre) {
      TargetsAreTheLatestSent(cfg, pre, key);
    }
    assert sent[|sent|..] == [];
    assert sent + [] == sent;
  }

  /** A clean-up keeps exactly the groups that sent within the suppression window. */
  lemma CleanupKeepsRecent(cfg: Config, gs: Groups, now: Time, key: string)
    ensures var gs' := Apply(cfg, gs, Cleanup(now));
            && (key in gs' <==>
                  key in gs && gs[key].lastAlert.Some? && now - gs[key].lastAlert.value <= cfg.window)
            && (key in gs' ==> gs'[key] == gs[key])
  {
  }

  // ----- group keys -----

  /** The grouping of the default configuration. */
  function DefaultKey(namespace: string, layer: string): string {
    GroupKey(["namespace", "failureLayer"], namespace, layer)
  }

  predicate Known(field: string) {
    field in {"namespace", "failureLayer"}
  }

  /** The values of the known fields, in the order in which the configuration names them. */
  function Parts(fields: seq<string>, namespace: string, layer: string): seq<string> {
    if fields == [] then []
    else
      var before := Parts(Front(fields), namespace, layer);
      if !Known(Last(fields)) then before else before + [if Last(fields) == "namespace" then namespace else layer]
  }

  function Slashed(parts: seq<string>): string {
    if parts == [] then "" else if |parts| == 1 then parts[0] else Slashed(Front(parts)) + "/" + Last(parts)
  }

  lemma OnePartMore(parts: seq<string>, part: string)
    requires "" !in parts
    ensures Slashed(parts + [part]) == Slashed(parts) + (if Slashed(parts) != "" then "/" else "") + part
  {
    assert Front(parts + [part]) == parts;
  }

  lemma {:induction false} PartsAreNamed(fields: seq<string>, namespace: string, layer: string)
    requires namespace != "" && layer != ""
    ensures "" !in Parts(fields, namespace, layer)
    ensures Parts(fields, namespace, layer) == [] <==> forall f | f in fields :: !Known(f)
  {
    if fields != [] {
      PartsAreNamed(Front(fields), namespace, layer);
      assert fields == Front(fields) + [Last(fields)];
    }
  }

  lemma {:induction false} JoinsParts(fields: seq<string>, namespace: string, layer: string)
    requires namespace != "" && layer != ""
    ensures JoinFields(fields, namespace, layer) == Slashed(Parts(fields, namespace, layer))
  {
    if fields != [] {
      var before := Parts(Front(fields), namespace, layer);
      JoinsParts(Front(fields), namespace, layer);
      PartsAreNamed(Front(fields), namespace, layer);
      OnePartMore(before, if Last(fields) == "namespace" then namespace else layer);
    }
  }

  /** Whatever fields are configured, alerts with a namespace and a layer are grouped by the known ones alone. */
  lemma KeysJoinKnownFields(fields: seq<string>, namespace: string, layer: string)
    requires namespace != "" && layer != ""
    ensures var parts := Parts(fields, namespace, layer);
            GroupKey(fields, namespace, layer) == if parts == [] then "default" else Slashed(parts)
    ensures Parts(fields, namespace, layer) == [] <==> forall f | f in fields :: !Known(f)
  {
    JoinsParts(fields, namespace, layer);
    PartsAreNamed(fields, namespace, layer);
  }

  lemma DefaultKeyForm(namespace: string, layer: string)
    ensures DefaultKey(namespace, layer) ==
            if namespace != "" then namespace + "/" + layer else if layer != "" then layer else "default"
  {
    var fields := ["namespace", "failureLayer"];
    assert Front(fields) == ["namespace"] && Front(["namespace"]) == [];
    assert JoinFields(["namespace"], namespace, layer) == namespace;
    assert JoinFields(fields, namespace, layer) == AppendField(namespace, "failureLayer", namespace, layer);
  }

  /** A layer that the default key cannot tell from a missing one. */
  predicate Nameless(namespace: string, layer: string) {
    namespace == "" && layer in {"", "default"}
  }

  /** Alerts share a default group exactly when they agree on namespace and layer, or are both nameless. */
  lemma GroupsAreSeparate(n: string, l: string, m: string, k: string)
    requires '/' !in n && '/' !in l && '/' !in m && '/' !in k
    ensures DefaultKey(n, l) == DefaultKey(m, k) <==> (n == m && l == k) || (Nameless(n, l) && Nameless(m, k))
  {
    DefaultKeyForm(n, l);
    DefaultKeyForm(m, k);
    if n != "" {
      FirstSlash(n, l, DefaultKey(m, k));
    }
    if m != "" {
      FirstSlash(m, k, DefaultKey(n, l));
    }
  }

  /** A joined key determines its two parts. */
  lemma FirstSlash(n: string, l: string, key: string)
    requires '/' !in n
    ensures key == n + "/" + l <==>
            |n| < |key| && key[|n|] == '/' && '/' !in key[..|n|] && key[..|n|] == n && key[|n| + 1..] == l
  {
  }
}
