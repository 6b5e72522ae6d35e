/**
  The alert lifecycle over whole runs: the cache is coherent with the store while the
  store is open, event logs replay to the current status, the bounded history is a
  window on all events, and deduplication bounds the live alerts of one problem.
*/
module LifecycleRuns {
  import opened Common
  import opened Alerts
  import opened Lifecycle
  import Store

  datatype Op =
    | Create(alert: Alert, id: string, dup: Option<string>, eventId: string, now: Time)
    | Ask(id: string, req: Request, eventId: string, now: Time)
    | Cleanup(retention: int, clock: Clock)
    | CloseStore

  /** New alerts get fresh IDs, and the deduplication finds an alert whenever there is one. */
  ghost predicate Allowed(w: World, op: Op) {
    op.Create? ==> op.id !in w.stored && MayRepeat(w.active, KeyOf(op.alert.cause), op.dup)
  }

  function Apply(w: World, op: Op): World {
    match op
    case Create(alert, id, dup, eventId, now) =>
      if dup.Some? && dup.value !in w.active then w else AfterCreate(w, Prepared(alert, id, now), dup, eventId)
    case Ask(id, req, eventId, now) => AfterRequest(w, id, req, eventId, now)
    case Cleanup(retention, clock) => AfterCleanup(w, clock.Cutoff(retention), clock)
    case CloseStore => w.(closed := true)
  }

  function Run(ops: seq<Op>): World {
    if ops == [] then NEW_WORLD else Apply(Run(Front(ops)), Last(ops))
  }

  /** Every operation is allowed where it happens. */
  ghost predicate Legal(ops: seq<Op>) {
    ops != [] ==> Legal(Front(ops)) && Allowed(Run(Front(ops)), Last(ops))
  }

  ghost predicate StaysOpen(ops: seq<Op>) {
    forall i | 0 <= i < |ops| :: !ops[i].CloseStore?
  }

  // ----- write-through cache -----

  ghost predicate WellKeyed(m: map<string, Alert>) {
    forall k | k in m :: m[k].id == k
  }

  ghost predicate Keyed(w: World) {
    WellKeyed(w.active) && WellKeyed(w.stored)
  }

  /** Every cached alert is stored with the same value. */
  ghost predicate Coherent(w: World) {
    forall k | k in w.active :: k in w.stored && w.stored[k] == w.active[k]
  }

  /** The operation will change a cached alert, whether or not the store then takes the change. */
  ghost predicate Disturbs(w: World, op: Op) {
    match op
    case Create(alert, _, dup, _, now) =>
      dup.Some? && dup.value in w.active &&
      (w.active[dup.value].lastUpdatedAt != now || w.active[dup.value].consecutiveFailures != alert.consecutiveFailures)
    case Ask(id, req, _, now) =>
      id in w.active && Refusal(w.active[id], req).None? && Changed(w.active[id], req, now) != w.active[id]
    case Cleanup(_, clock) => exists k :: k in w.active && Expires(w.active[k], clock.At(k).seen)
    case CloseStore => false
  }

  lemma WriteKeyed(w: World, a: Alert, e: Event)
    requires Keyed(w)
    ensures Keyed(Commit(Touch(w, a), a, e)) && Keyed(Save(Touch(w, a), a))
  {
  }

  lemma StepKeyed(w: World, op: Op)
    requires Allowed(w, op) && Keyed(w)
    ensures Keyed(Apply(w, op))
  {
    match op
    case Create(alert, id, dup, eventId, now) =>
      if dup.Some? {
        WriteKeyed(w, Refreshed(w.active[dup.value], Prepared(alert, id, now), now), FiredEvent(id, eventId, now));
      }
    case Ask(id, req, eventId, now) =>
      if Find(w, id).Some? && Refusal(Find(w, id).value, req).None? {
        var a := Find(w, id).value;
        WriteKeyed(w, Changed(a, req, now), Notice(a, req, eventId, now));
      }
    case Cleanup(_, _) =>
    case CloseStore =>
  }

  lemma {:induction false} RunKeyed(ops: seq<Op>)
    requires Legal(ops)
    ensures Keyed(Run(ops))
  {
    if ops != [] {
      RunKeyed(Front(ops));
      StepKeyed(Run(Front(ops)), Last(ops));
    }
  }

  lemma RequestKeeps(w: World, id: string, req: Request, eventId: string, now: Time)
    requires Keyed(w) && Coherent(w)
    ensures var op := Ask(id, req, eventId, now);
            Coherent(Apply(w, op)) <==> !w.closed || !Disturbs(w, op)
  {
    if Find(w, id).Some? && Refusal(Find(w, id).value, req).None? {
      WriteKeeps(w, Changed(Find(w, id).value, req, now), Notice(Find(w, id).value, req, eventId, now));
    }
  }

  /** Writing one alert through: the cell changes first, the store follows only while it is open. */
  lemma WriteKeeps(w: World, a: Alert, e: Event)
    requires Keyed(w) && Coherent(w)
    ensures var disturbs := a.id in w.active && w.active[a.id] != a;
            && (Coherent(Commit(Touch(w, a), a, e)) <==> !w.closed || !disturbs)
            && (Coherent(Save(Touch(w, a), a)) <==> !w.closed || !disturbs)
  {
    if a.id in w.active {
      assert Touch(w, a).active[a.id] == a;
    }
  }

  lemma CleanupKeeps(w: World, retention: int, clock: Clock)
    requires Keyed(w) && Coherent(w)
    ensures var op := Cleanup(retention, clock);
            Coherent(Apply(w, op)) <==> !w.closed || !Disturbs(w, op)
  {
    var after := AfterCleanup(w, clock.Cutoff(retention), clock);
    if w.closed {
      forall k | k in w.active && Expires(w.active[k], clock.At(k).seen)
        ensures k in after.active && after.active[k].status == Firing && after.stored[k] == w.active[k]
      {
      }
    }
  }

  /**
    A step keeps the cache coherent exactly when the store is open or the step will not
    change a cached alert: the cell is changed before the store is asked.
  */
  lemma StepCoherent(w: World, op: Op)
    requires Allowed(w, op) && Keyed(w) && Coherent(w)
    ensures Coherent(Apply(w, op)) <==> !w.closed || !Disturbs(w, op)
  {
    match op
    case Create(alert, id, dup, eventId, now) =>
      if dup.Some? {
        WriteKeeps(w, Refreshed(w.active[dup.value], Prepared(alert, id, now), now), FiredEvent(id, eventId, now));
      }
    case Ask(id, req, eventId, now) => RequestKeeps(w, id, req, eventId, now);
    case Cleanup(retention, clock) => CleanupKeeps(w, retention, clock);
    case CloseStore =>
  }

  /** The cache is coherent after every operation of the run. */
  ghost predicate AlwaysCoherent(ops: seq<Op>) {
    Coherent(Run(ops)) && (ops != [] ==> AlwaysCoherent(Front(ops)))
  }

  /** No operation on the closed store changes a cached alert. */
  ghost predicate Undisturbed(ops: seq<Op>) {
    ops != [] ==> Undisturbed(Front(ops)) && !(Run(Front(ops)).closed && Disturbs(Run(Front(ops)), Last(ops)))
  }

  /** A run keeps the cache coherent throughout if and only if nothing disturbs it once the store is closed. */
  lemma {:induction false} RunCoherentExactly(ops: seq<Op>)
    requires Legal(ops)
    ensures AlwaysCoherent(ops) <==> Undisturbed(ops)
  {
    if ops != [] {
      RunCoherentExactly(Front(ops));
      if AlwaysCoherent(Front(ops)) {
        assert Coherent(Run(Front(ops)));
        RunKeyed(Front(ops));
        StepCoherent(Run(Front(ops)), Last(ops));
      }
    }
  }

  /** While the store is open, the manager's lookup of any ID is the store's, by value. */
  lemma {:induction false} RunCoherent(ops: seq<Op>, id: string)
    requires Legal(ops) && StaysOpen(ops)
    ensures Keyed(Run(ops)) && Coherent(Run(ops)) && !Run(ops).closed
    ensures var w := Run(ops); Find(w, id) == if id in w.stored then Some(w.stored[id]) else None
  {
    if ops != [] {
      RunCoherent(Front(ops), id);
      StepKeyed(Run(Front(ops)), Last(ops));
      StepCoherent(Run(Front(ops)), Last(ops));
    }
  }

  /** After the store is closed, acknowledging a cached alert always leaves the cache ahead of the store. */
  lemma AcknowledgingAfterCloseDiverges(w: World, id: string, user: string, comment: string, eventId: string, now: Time)
    requires Keyed(w) && Coherent(w) && w.closed && id in w.active && w.active[id].status == Firing
    ensures !Coherent(Apply(w, Ask(id, Acknowledge(user, comment), eventId, now)))
  {
  }

  // ----- what an operation writes -----

  /** A request fails on an unknown alert, in the wrong state, with a bad duration, or because of the store. */
  lemma RequestsFail(w: World, id: string, req: Request)
    ensures RequestError(w, id, req) == Some(NotFound) <==> id !in w.active && (w.closed || id !in w.stored)
    ensures Find(w, id).Some? ==>
              var status := Find(w, id).value.status;
              && (RequestError(w, id, req) == Some(NotFiring) <==> req.Acknowledge? && status != Firing)
              && (RequestError(w, id, req) == Some(AlreadyResolved) <==> req.Resolve? && status == Resolved)
              && (RequestError(w, id, req) == Some(BadDuration) <==> req.Silence? && req.duration.None?)
    ensures RequestError(w, id, req) == Some(StoreFailed(Store.Closed)) ==> w.closed && id in w.active
    ensures RequestError(w, id, req).None? && Keyed(w) ==> !w.closed && id in w.stored
  {
  }

  /** Only these fields of an alert change when a request on it goes through, in the cache and in the store. */
  ghost predicate Writes(a: Alert, a': Alert, req: Request, now: Time) {
    && a'.id == a.id && a'.cause == a.cause && a'.firedAt == a.firedAt && a'.lastUpdatedAt == now
    && a'.consecutiveFailures == a.consecutiveFailures && a'.notificationCount == a.notificationCount
    && (if req.Acknowledge?
        then a'.status == Acknowledged && a'.acknowledgedAt == Some(now) && a'.acknowledgedBy == req.user
        else a'.acknowledgedAt == a.acknowledgedAt && a'.acknowledgedBy == a.acknowledgedBy)
    && (if req.Resolve? then a'.status == Resolved && a'.resolvedAt == Some(now) else a'.resolvedAt == a.resolvedAt)
    && (if req.Silence? && req.duration.Some?
        then && a'.status == Silenced && a'.silencedAt == Some(now) && a'.silencedBy == req.user
             && a'.silenceReason == req.reason && a'.silenceEndsAt == Some(now + req.duration.value)
        else && a'.silencedAt == a.silencedAt && a'.silencedBy == a.silencedBy
             && a'.silenceReason == a.silenceReason && a'.silenceEndsAt == a.silenceEndsAt)
  }

  lemma RequestWrites(w: World, id: string, req: Request, eventId: string, now: Time)
    requires Keyed(w) && RequestError(w, id, req).None?
    ensures var w' := AfterRequest(w, id, req, eventId, now);
            && id in w'.stored && Writes(Find(w, id).value, w'.stored[id], req, now)
            && (id in w.active ==> id in w'.active && w'.active[id] == w'.stored[id])
            && (forall k | k in w.active && k != id :: k in w'.active && w'.active[k] == w.active[k])
            && (forall k | k in w.stored && k != id :: k in w'.stored && w'.stored[k] == w.stored[k])
  {
  }

  /** Its event tells who asked for what, why and when, and the states before and after. */
  lemma RequestTells(w: World, id: string, req: Request, eventId: string, now: Time)
    requires Keyed(w) && RequestError(w, id, req).None?
    ensures var w' := AfterRequest(w, id, req, eventId, now);
            var e := Notice(Find(w, id).value, req, eventId, now);
            && Store.LogOf(w'.events, id) == Store.LogOf(w.events, id) + [e]
            && e.id == eventId && e.alertId == id && e.user == req.user && e.at == now
            && e.from == Some(Find(w, id).value.status) && e.to == w'.stored[id].status
            && e.kind == (if req.Acknowledge? then "acknowledged" else if req.Resolve? then "resolved" else "silenced")
            && e.reason == (if req.Silence? then req.reason else req.comment)
  {
    var a := Find(w, id).value;
    assert AfterRequest(w, id, req, eventId, now).events ==
           Logged(w, Notice(a, req, eventId, now)).events;
  }

  /** What a new alert looks like, and the event that tells of it. */
  lemma CreationWrites(w: World, alert: Alert, id: string, eventId: string, now: Time)
    requires !w.closed && id !in w.stored && Similar(w.active, KeyOf(alert.cause)) == {}
    ensures var w' := Apply(w, Create(alert, id, None, eventId, now));
            && id in w'.active && id in w'.stored && w'.stored[id] == w'.active[id]
            && w'.active[id].id == id && w'.active[id].cause == alert.cause && w'.active[id].status == Firing
            && w'.active[id].firedAt == now && w'.active[id].lastUpdatedAt == now
            && w'.active[id].consecutiveFailures == alert.consecutiveFailures && w'.active[id].notificationCount == 0
            && Store.LogOf(w'.events, id) == Store.LogOf(w.events, id) +
                 [Event(eventId, id, "fired", None, Firing, "Alert triggered by failure threshold", "", now)]
  {
  }

  /** A repeated alert only renews the time and the failure count of the one it repeats, and is itself nowhere. */
  lemma RepetitionWrites(w: World, alert: Alert, id: string, dup: string, eventId: string, now: Time)
    requires !w.closed && Keyed(w) && Coherent(w) && dup in Similar(w.active, KeyOf(alert.cause)) && id !in w.stored
    ensures var w' := Apply(w, Create(alert, id, Some(dup), eventId, now));
            && w'.active.Keys == w.active.Keys && w'.stored.Keys == w.stored.Keys && w'.events == w.events
            && w'.active[dup] == w.active[dup].(lastUpdatedAt := now, consecutiveFailures := alert.consecutiveFailures)
            && w'.stored[dup] == w'.active[dup]
            && (forall k | k in w.active && k != dup :: w'.active[k] == w.active[k])
  {
  }

  /** What a clean-up does to one cached alert, with the clock as it is read at that alert. */
  lemma CleanupWrites(w: World, retention: int, clock: Clock, k: string)
    requires !w.closed && Coherent(w) && k in w.active
    ensures var a, w' := w.active[k], Apply(w, Cleanup(retention, clock));
            var seen := if k in clock.later then clock.later[k].seen else clock.now;
            var stamped := if k in clock.later then clock.later[k].stamped else clock.now;
            && (k in w'.active <==>
                  !(a.status == Resolved && a.resolvedAt.Some? && a.resolvedAt.value < clock.now - retention))
            && k in w'.stored
            && (if a.status == Silenced && a.silenceEndsAt.Some? && a.silenceEndsAt.value < seen
                then w'.stored[k] == a.(status := Firing, silencedAt := None, silenceEndsAt := None,
                                        lastUpdatedAt := stamped)
                else w'.stored[k] == a)
            && (k in w'.active ==> w'.active[k] == w'.stored[k])
  {
  }

  /** A silence lasts for its duration: the first clean-up that sees the alert later than that lets it fire again. */
  lemma SilenceLasts(w: World, id: string, user: string, reason: string, duration: int, eventId: string, now: Time,
                     retention: int, clock: Clock)
    requires !w.closed && Keyed(w) && Coherent(w) && id in w.active
    ensures var silenced := Apply(w, Ask(id, Silence(user, reason, Some(duration)), eventId, now));
            var w' := Apply(silenced, Cleanup(retention, clock));
            && id in w'.active
            && (w'.active[id].status == Firing <==> clock.At(id).seen > now + duration)
            && (w'.active[id].status == Silenced <==> clock.At(id).seen <= now + duration)
  {
    var req := Silence(user, reason, Some(duration));
    var silenced := AfterRequest(w, id, req, eventId, now);
    RequestWrites(w, id, req, eventId, now);
    RequestKeeps(w, id, req, eventId, now);
    CleanupWrites(silenced, retention, clock, id);
  }

  /** A resolved alert leaves the cache at the first clean-up later than the retention, and stays in the store. */
  lemma ResolvedIsForgotten(w: World, id: string, user: string, comment: string, eventId: string, now: Time,
                            retention: int, clock: Clock)
    requires !w.closed && Keyed(w) && Coherent(w) && id in w.active && w.active[id].status != Resolved
    ensures var resolved := Apply(w, Ask(id, Resolve(user, comment), eventId, now));
            var w' := Apply(resolved, Cleanup(retention, clock));
            && (id in w'.active <==> clock.now - retention <= now)
            && id in w'.stored && w'.stored[id].status == Resolved
  {
    var req := Resolve(user, comment);
    var resolved := AfterRequest(w, id, req, eventId, now);
    RequestWrites(w, id, req, eventId, now);
    RequestKeeps(w, id, req, eventId, now);
    CleanupWrites(resolved, retention, clock, id);
  }

  // ----- event logs -----

  /** An event continues from the state the previous one led to, unless a silence expired in between. */
  ghost predicate Leads(previous: Event, status: Status) {
    previous.to == status || (previous.to == Silenced && status == Firing)
  }

  ghost predicate Follows(previous: Event, e: Event) {
    e.from.Some? && Leads(previous, e.from.value)
  }

  /** The log starts with the firing of the alert, is a chain, and leads to the alert's current status. */
  ghost predicate Replays(log: seq<Event>, a: Alert) {
    && log != [] && log[0].kind == "fired" && log[0].from.None? && log[0].to == Firing
    && (forall i | 0 < i < |log| :: Follows(log[i - 1], log[i]))
    && (forall i | 0 <= i < |log| :: log[i].alertId == a.id)
    && Leads(Last(log), a.status)
  }

  ghost predicate LogsReplay(w: World) {
    && w.events.Keys == w.stored.Keys
    && forall k | k in w.stored :: Replays(w.events[k], w.stored[k])
  }

  lemma LogGrows(log: seq<Event>, a: Alert, e: Event, a': Alert)
    requires Replays(log, a) && e.alertId == a.id == a'.id && e.from == Some(a.status) && e.to == a'.status
    ensures Replays(log + [e], a')
  {
  }

  /** Storing a new value and log for one alert, with some history, keeps the other logs. */
  lemma OneLogReplays(w: World, after: World, a: Alert, log: seq<Event>)
    requires LogsReplay(w) && Replays(log, a)
    requires after.stored == w.stored[a.id := a] && after.events == w.events[a.id := log]
    ensures LogsReplay(after)
  {
  }

  lemma CommitReplays(w: World, id: string, req: Request, eventId: string, now: Time)
    requires LogsReplay(w) && Keyed(w) && (!w.closed ==> Coherent(w))
    ensures LogsReplay(AfterRequest(w, id, req, eventId, now))
  {
    if RequestError(w, id, req).None? {
      var a := Find(w, id).value;
      assert a == w.stored[id] && a.id == id;
      var a', e := Changed(a, req, now), Notice(a, req, eventId, now);
      LogGrows(w.events[id], a, e, a');
      var after := AfterRequest(w, id, req, eventId, now);
      assert after == Commit(Touch(w, a'), a', e);
      OneLogReplays(w, after, a', w.events[id] + [e]);
    }
  }

  lemma CreateReplays(w: World, a: Alert, dup: Option<string>, eventId: string)
    requires LogsReplay(w) && Keyed(w) && (!w.closed ==> Coherent(w)) && a.status == Firing
    requires dup.Some? ==> dup.value in w.active
    ensures LogsReplay(AfterCreate(w, a, dup, eventId))
  {
    var after := AfterCreate(w, a, dup, eventId);
    if CreateError(w, a.id, dup).None? {
      match dup
      case Some(d) =>
        var e := Refreshed(w.active[d], a, a.firedAt);
        assert w.active[d] == w.stored[d] && w.events == w.events[d := w.events[d]];
        OneLogReplays(w, after, e, w.events[d]);
      case None =>
        var log := [FiredEvent(a.id, eventId, a.firedAt)];
        assert Store.LogOf(w.events, a.id) + log == log;
        OneLogReplays(w, after, a, log);
    }
  }

  lemma CleanupReplays(w: World, cutoff: Time, clock: Clock)
    requires LogsReplay(w) && (!w.closed ==> Coherent(w))
    ensures LogsReplay(AfterCleanup(w, cutoff, clock))
  {
  }

  /** On every run, before and after the store is closed, each stored alert's log replays to its status. */
  lemma {:induction false} RunReplays(ops: seq<Op>)
    requires Legal(ops)
    ensures Keyed(Run(ops)) && (!Run(ops).closed ==> Coherent(Run(ops))) && LogsReplay(Run(ops))
  {
    if ops != [] {
      var w := Run(Front(ops));
      RunReplays(Front(ops));
      StepKeyed(w, Last(ops));
      if !w.closed {
        StepCoherent(w, Last(ops));
      }
      match Last(ops)
      case Create(alert, id, dup, eventId, now) => CreateReplays(w, Prepared(alert, id, now), dup, eventId);
      case Ask(id, req, eventId, now) => CommitReplays(w, id, req, eventId, now);
      case Cleanup(retention, clock) => CleanupReplays(w, clock.Cutoff(retention), clock);
      case CloseStore =>
    }
  }

  // ----- history -----

  /** The events a step logs. */
  function EventsOf(w: World, op: Op): seq<Event> {
    match op
    case Create(alert, id, dup, eventId, now) =>
      if dup.None? && CreateError(w, id, dup).None? then [FiredEvent(id, eventId, now)] else []
    case Ask(id, req, eventId, now) =>
      if RequestError(w, id, req).None? then [Notice(Find(w, id).value, req, eventId, now)] else []
    case _ => []
  }

  function Emitted(ops: seq<Op>): seq<Event> {
    if ops == [] then [] else Emitted(Front(ops)) + EventsOf(Run(Front(ops)), Last(ops))
  }

  function About(es: seq<Event>, id: string): seq<Event> {
    if es == [] then [] else About(Front(es), id) + if Last(es).alertId == id then [Last(es)] else []
  }

  lemma AboutMore(es: seq<Event>, e: Event, id: string)
    ensures About(es + [e], id) == About(es, id) + if e.alertId == id then [e] else []
  {
  }

  lemma TrimTwice(s: seq<Event>, e: Event)
    ensures Trim(Trim(s) + [e]) == Trim(s + [e])
  {
  }

  /** From `w` to `w'`, the events `es`, at most one, are appended to the history and to the logs. */
  ghost predicate Appends(w: World, w': World, es: seq<Event>) {
    if es == [] then w'.events == w.events && w'.history == w.history
    else |es| == 1 && w'.events == Logged(w, es[0]).events && w'.history == Logged(w, es[0]).history
  }

  lemma RequestLogs(w: World, id: string, req: Request, eventId: string, now: Time)
    ensures Appends(w, AfterRequest(w, id, req, eventId, now), EventsOf(w, Ask(id, req, eventId, now)))
  {
    if RequestError(w, id, req).None? {
      var a := Find(w, id).value;
      var a' := Changed(a, req, now);
      assert AfterRequest(w, id, req, eventId, now) == Logged(Save(Touch(w, a'), a'), Notice(a, req, eventId, now));
    }
  }

  /** What a step logs is what it appends to the history and to the logs. */
  lemma StepLogs(w: World, op: Op)
    requires Allowed(w, op)
    ensures Appends(w, Apply(w, op), EventsOf(w, op))
  {
    if op.Ask? {
      RequestLogs(w, op.id, op.req, op.eventId, op.now);
    }
  }

  lemma LogMore(w: World, emitted: seq<Event>, op: Op, id: string)
    requires Allowed(w, op) && Keyed(w)
    requires w.history == Trim(emitted) && Store.LogOf(w.events, id) == About(emitted, id)
    ensures var w', emitted' := Apply(w, op), emitted + EventsOf(w, op);
            w'.history == Trim(emitted') && Store.LogOf(w'.events, id) == About(emitted', id)
  {
    var es := EventsOf(w, op);
    StepLogs(w, op);
    if es == [] {
      assert emitted + es == emitted;
    } else {
      AboutMore(emitted, es[0], id);
      TrimTwice(emitted, es[0]);
      assert emitted + es == emitted + [es[0]];
    }
  }

  /** The history is the last 1000 of all events, and each stored log is everything about its alert. */
  lemma {:induction false} HistoryIsWindow(ops: seq<Op>, id: string)
    requires Legal(ops)
    ensures Run(ops).history == Trim(Emitted(ops))
    ensures Store.LogOf(Run(ops).events, id) == About(Emitted(ops), id)
    ensures var n := |Emitted(ops)|; Run(ops).history == Emitted(ops)[if n > 1000 then n - 1000 else 0..]
  {
    if ops != [] {
      HistoryIsWindow(Front(ops), id);
      RunKeyed(Front(ops));
      LogMore(Run(Front(ops)), Emitted(Front(ops)), Last(ops), id);
    }
  }

  lemma {:induction false} AboutSuffix(es: seq<Event>, n: nat, id: string) returns (k: nat)
    requires n <= |es|
    ensures k <= |About(es, id)| && About(es[n..], id) == About(es, id)[k..]
  {
    if n == |es| {
      k := |About(es, id)|;
    } else {
      k := AboutSuffix(Front(es), n, id);
      assert Front(es[n..]) == Front(es)[n..];
    }
  }

  /** What the history remembers about one alert is a suffix of that alert's stored log. */
  lemma HistoryIsSuffixOfLog(ops: seq<Op>, id: string) returns (k: nat)
    requires Legal(ops)
    ensures var log := Store.LogOf(Run(ops).events, id);
            k <= |log| && About(Run(ops).history, id) == log[k..]
  {
    HistoryIsWindow(ops, id);
    var es := Emitted(ops);
    k := AboutSuffix(es, if |es| > HISTORY_LIMIT then |es| - HISTORY_LIMIT else 0, id);
    assert es[0..] == es;
  }

  // ----- deduplication -----

  /** Two alerts are about the same problem exactly when target name, namespace, layer and code agree. */
  lemma SameProblem(a: Cause, b: Cause)
    ensures KeyOf(a) == KeyOf(b) <==>
            && a.target.name == b.target.name && a.target.namespace == b.target.namespace
            && a.layer == b.layer && a.code == b.code
  {
  }

  /** The live cached alerts of a problem, in the fields of the alerts. */
  lemma SimilarAlerts(active: map<string, Alert>, c: Cause, k: string)
    ensures k in Similar(active, KeyOf(c)) <==>
            && k in active && active[k].status in {Firing, Acknowledged}
            && active[k].cause.target.name == c.target.name && active[k].cause.target.namespace == c.target.namespace
            && active[k].cause.layer == c.layer && active[k].cause.code == c.code
  {
    if k in active {
      SameProblem(active[k].cause, c);
    }
  }

  /** The cached silences of one problem that a clean-up with these readings of the clock finds expired. */
  function Lapsed(active: map<string, Alert>, clock: Clock, key: DedupKey): set<string> {
    set k | k in active && KeyOf(active[k].cause) == key && Expires(active[k], clock.At(k).seen)
  }

  function Expiring(w: World, op: Op, key: DedupKey): set<string> {
    if op.Cleanup? then Lapsed(w.active, op.clock, key) else {}
  }

  function Expiries(ops: seq<Op>, key: DedupKey): nat {
    if ops == [] then 0 else Expiries(Front(ops), key) + |Expiring(Run(Front(ops)), Last(ops), key)|
  }

  /** A clean-up adds exactly the alerts whose silences expired, none of which was live before. */
  lemma CleanupLive(w: World, cutoff: Time, clock: Clock, key: DedupKey)
    ensures Similar(AfterCleanup(w, cutoff, clock).active, key) == Similar(w.active, key) + Lapsed(w.active, clock, key)
    ensures Similar(w.active, key) !! Lapsed(w.active, clock, key)
  {
  }

  /** No request brings an alert back to life. */
  lemma RequestLive(w: World, id: string, req: Request, eventId: string, now: Time, key: DedupKey)
    requires Keyed(w)
    ensures Similar(AfterRequest(w, id, req, eventId, now).active, key) <= Similar(w.active, key)
  {
  }

  /** A step only adds live alerts by creating one where there was none, or by letting silences expire. */
  lemma StepLive(w: World, op: Op, key: DedupKey)
    requires Allowed(w, op) && Keyed(w)
    ensures var before, after := Similar(w.active, key), Similar(Apply(w, op).active, key);
            if op.Create? && op.dup.None? && KeyOf(op.alert.cause) == key then before == {} && after <= {op.id}
            else if op.Cleanup? then after == before + Expiring(w, op, key) && before !! Expiring(w, op, key)
            else after <= before
  {
    if op.Cleanup? {
      CleanupLive(w, op.clock.Cutoff(op.retention), op.clock, key);
    } else if op.Ask? {
      RequestLive(w, op.id, op.req, op.eventId, op.now, key);
    }
  }

  /** What a step does to the number of live alerts of one problem. */
  lemma StepCount(w: World, op: Op, key: DedupKey)
    requires Allowed(w, op) && Keyed(w)
    ensures var before, after := |Similar(w.active, key)|, |Similar(Apply(w, op).active, key)|;
            if op.Cleanup? then after == before + |Expiring(w, op, key)| else after <= Max(1, before)
  {
    StepLive(w, op, key);
    var before, after := Similar(w.active, key), Similar(Apply(w, op).active, key);
    if op.Cleanup? {
    } else if op.Create? && op.dup.None? && KeyOf(op.alert.cause) == key {
      SubsetSize(after, {op.id});
    } else {
      SubsetSize(after, before);
    }
  }

  /** The live cached alerts of one problem are at most one, plus one for each silence of it that expired. */
  lemma {:induction false} LiveAlertsBounded(ops: seq<Op>, key: DedupKey)
    requires Legal(ops)
    ensures |Similar(Run(ops).active, key)| <= 1 + Expiries(ops, key)
  {
    if ops != [] {
      LiveAlertsBounded(Front(ops), key);
      RunKeyed(Front(ops));
      StepCount(Run(Front(ops)), Last(ops), key);
    }
  }

  /** At no point of the run are two alerts of the problem live. */
  ghost predicate NeverTwins(ops: seq<Op>, key: DedupKey) {
    |Similar(Run(ops).active, key)| <= 1 && (ops != [] ==> NeverTwins(Front(ops), key))
  }

  /** Every clean-up of the run finds at most one alert of the problem that is live or whose silence has expired. */
  ghost predicate SweepsFindOne(ops: seq<Op>, key: DedupKey) {
    ops != [] ==>
      && SweepsFindOne(Front(ops), key)
      && (Last(ops).Cleanup? ==>
            var w := Run(Front(ops));
            |Similar(w.active, key)| + |Expiring(w, Last(ops), key)| <= 1)
  }

  /** A run never has two live alerts of one problem if and only if no clean-up finds a second one to wake. */
  lemma {:induction false} TwinsExactly(ops: seq<Op>, key: DedupKey)
    requires Legal(ops)
    ensures NeverTwins(ops, key) <==> SweepsFindOne(ops, key)
  {
    if ops != [] {
      TwinsExactly(Front(ops), key);
      RunKeyed(Front(ops));
      StepCount(Run(Front(ops)), Last(ops), key);
    }
  }

  /** In particular runs in which no silence of the problem expires. */
  lemma {:induction false} WithoutExpiriesNoTwins(ops: seq<Op>, key: DedupKey)
    requires Legal(ops) && Expiries(ops, key) == 0
    ensures NeverTwins(ops, key)
  {
    LiveAlertsBounded(ops, key);
    if ops != [] {
      WithoutExpiriesNoTwins(Front(ops), key);
    }
  }

  /** The alert a new one repeats does not depend on map order if and only if no two are live. */
  lemma DuplicateIsUnique(active: map<string, Alert>, key: DedupKey)
    ensures (forall a, b | MayRepeat(active, key, a) && MayRepeat(active, key, b) :: a == b) <==>
            |Similar(active, key)| <= 1
  {
    var live := Similar(active, key);
    if |live| <= 1 {
      forall a, b | MayRepeat(active, key, a) && MayRepeat(active, key, b)
        ensures a == b
      {
        if a.Some? && b.Some? {
          SubsetSize({a.value, b.value}, live);
        }
      }
    } else {
      var x :| x in live;
      assert |live - {x}| == |live| - 1;
      var y :| y in live - {x};
      assert MayRepeat(active, key, Some(x)) && MayRepeat(active, key, Some(y));
    }
  }

  // ----- reaching the bound -----

  /** One more operation on a run. */
  lemma Continue(ops: seq<Op>, op: Op)
    requires Legal(ops) && Allowed(Run(ops), op)
    ensures Legal(ops + [op]) && Run(ops + [op]) == Apply(Run(ops), op)
    ensures forall key :: Expiries(ops + [op], key) == Expiries(ops, key) + |Expiring(Run(ops), op, key)|
  {
    assert Front(ops + [op]) == ops;
  }

  /** A fresh ID for every number. */
  function IdOf(n: nat): string {
    seq(n, i => 'a')
  }

  /** `n` cached alerts of one problem, all silenced until time 0. */
  ghost predicate AllSilenced(active: map<string, Alert>, key: DedupKey, n: nat) {
    && |active| == n
    && forall k | k in active ::
         |k| < n && KeyOf(active[k].cause) == key && active[k].status == Silenced && active[k].silenceEndsAt == Some(0)
  }

  /** The same with a firing one beside them. */
  ghost predicate NewBeside(active: map<string, Alert>, key: DedupKey, n: nat) {
    && IdOf(n) in active && active[IdOf(n)].status == Firing && active[IdOf(n)].id == IdOf(n)
    && KeyOf(active[IdOf(n)].cause) == key && AllSilenced(active - {IdOf(n)}, key, n)
  }

  ghost predicate Ready(w: World) {
    !w.closed && w.active.Keys == w.stored.Keys
  }

  lemma CreateEffect(w: World, alert: Alert, id: string)
    requires Ready(w) && id !in w.active
    ensures var w' := Apply(w, Create(alert, id, None, "", 0));
            Ready(w') && w'.active == w.active[id := Prepared(alert, id, 0)]
  {
  }

  lemma SilenceEffect(w: World, id: string)
    requires Ready(w) && id in w.active && w.active[id].id == id
    ensures var req := Silence("", "", Some(0));
            var w' := Apply(w, Ask(id, req, "", 0));
            Ready(w') && w'.active == w.active[id := Changed(w.active[id], req, 0)]
  {
  }

  lemma AddNew(active: map<string, Alert>, alert: Alert, n: nat)
    requires AllSilenced(active, KeyOf(alert.cause), n)
    ensures IdOf(n) !in active && Similar(active, KeyOf(alert.cause)) == {}
    ensures NewBeside(active[IdOf(n) := Prepared(alert, IdOf(n), 0)], KeyOf(alert.cause), n)
  {
    assert IdOf(n) !in active;
    assert active[IdOf(n) := Prepared(alert, IdOf(n), 0)] - {IdOf(n)} == active;
  }

  lemma SilenceNew(active: map<string, Alert>, key: DedupKey, n: nat)
    requires NewBeside(active, key, n)
    ensures AllSilenced(active[IdOf(n) := Changed(active[IdOf(n)], Silence("", "", Some(0)), 0)], key, n + 1)
  {
    var after := active[IdOf(n) := Changed(active[IdOf(n)], Silence("", "", Some(0)), 0)];
    RemoveOne(after, IdOf(n));
    assert after - {IdOf(n)} == active - {IdOf(n)};
    forall k | k in after && k != IdOf(n)
      ensures k in active - {IdOf(n)} && after[k] == (active - {IdOf(n)})[k]
    {
    }
  }

  /** Creating an alert where all the others are silenced. */
  lemma CreateOne(ops: seq<Op>, alert: Alert, n: nat) returns (more: seq<Op>)
    requires Legal(ops) && Ready(Run(ops)) && AllSilenced(Run(ops).active, KeyOf(alert.cause), n)
    ensures Legal(more) && Ready(Run(more)) && NewBeside(Run(more).active, KeyOf(alert.cause), n)
    ensures Expiries(more, KeyOf(alert.cause)) == Expiries(ops, KeyOf(alert.cause))
  {
    var create := Create(alert, IdOf(n), None, "", 0);
    AddNew(Run(ops).active, alert, n);
    CreateEffect(Run(ops), alert, IdOf(n));
    Continue(ops, create);
    more := ops + [create];
  }

  /** And silencing it as well. */
  lemma SilenceOne(ops: seq<Op>, key: DedupKey, n: nat) returns (more: seq<Op>)
    requires Legal(ops) && Ready(Run(ops)) && NewBeside(Run(ops).active, key, n)
    ensures Legal(more) && Ready(Run(more)) && AllSilenced(Run(more).active, key, n + 1)
    ensures Expiries(more, key) == Expiries(ops, key)
  {
    var silence := Ask(IdOf(n), Silence("", "", Some(0)), "", 0);
    SilenceNew(Run(ops).active, key, n);
    SilenceEffect(Run(ops), IdOf(n));
    Continue(ops, silence);
    more := ops + [silence];
  }

  lemma {:induction false} SilencedAlerts(alert: Alert, n: nat) returns (ops: seq<Op>)
    ensures Legal(ops) && Ready(Run(ops)) && AllSilenced(Run(ops).active, KeyOf(alert.cause), n)
    ensures Expiries(ops, KeyOf(alert.cause)) == 0
  {
    if n == 0 {
      ops := [];
    } else {
      ops := SilencedAlerts(alert, n - 1);
      ops := CreateOne(ops, alert, n - 1);
      ops := SilenceOne(ops, KeyOf(alert.cause), n - 1);
    }
  }

  /** A clean-up at time 1 finds all the silences expired. */
  lemma AllLapse(active: map<string, Alert>, key: DedupKey, n: nat)
    requires NewBeside(active, key, n)
    ensures |Lapsed(active, Clock(1, map[]), key)| == n && |Similar(active, key)| == 1
  {
    var silenced := active - {IdOf(n)};
    forall k | k in active && k != IdOf(n)
      ensures k in silenced && active[k] == silenced[k] && !Live(active[k])
    {
    }
    assert Lapsed(active, Clock(1, map[]), key) == silenced.Keys;
    assert |silenced.Keys| == |silenced|;
    assert Similar(active, key) == {IdOf(n)};
  }

  /**
    The bound is reached for every number of expiries: alerts are silenced one by one and
    all wake up next to a new one.
  */
  lemma BoundIsReached(alert: Alert, n: nat) returns (ops: seq<Op>)
    ensures var key := KeyOf(alert.cause);
            Legal(ops) && Expiries(ops, key) == n && |Similar(Run(ops).active, key)| == n + 1
  {
    var cleanup := Cleanup(0, Clock(1, map[]));
    ops := SilencedAlerts(alert, n);
    ops := CreateOne(ops, alert, n);
    AllLapse(Run(ops).active, KeyOf(alert.cause), n);
    RunKeyed(ops);
    StepCount(Run(ops), cleanup, KeyOf(alert.cause));
    Continue(ops, cleanup);
    ops := ops + [cleanup];
  }
}
