/**
  The alert manager (internal/alertmanager/manager.go) over its store: alert cells in a
  cache that every operation updates in place and writes through.
*/
module Manager {
  import opened Common
  import opened Alerts
  import opened Lifecycle
  import Store
  import Routing

  class Manager {
    const historyRetention: int
    const store: Store.MemoryStore
    const routing: Routing.Router?
    var active: map<string, AlertCell>
    var history: seq<Event>
    ghost var cached: map<string, Alert>

    /** Cached cells sit under their own IDs and none of them is a cell of the store. */
    ghost predicate Valid()
      reads this, active.Values, store, store.alerts.Values
    {
      && store.Valid() && cached.Keys == active.Keys
      && (forall k | k in active :: !active[k].archived && active[k].value == cached[k] && cached[k].id == k)
    }

    ghost function View(): World
      reads this, store
    {
      World(cached, store.contents, store.events, history, store.closed)
    }

    constructor (historyRetention: int, store: Store.MemoryStore, routing: Routing.Router?)
      requires store.Valid()
      ensures Valid() && active == map[] && this.store == store && this.routing == routing
      ensures this.historyRetention == historyRetention
      ensures View() == World(map[], store.contents, store.events, [], store.closed)
    {
      this.historyRetention, this.store, this.routing := historyRetention, store, routing;
      active, history, cached := map[], [], map[];
    }

    /** The cache never shares a cell with the store, nor two IDs a cell. */
    lemma CellsApart()
      requires Valid()
      ensures forall k, l | k in active && l in store.alerts :: active[k] != store.alerts[l]
      ensures forall k, l | k in active && l in active && k != l :: active[k] != active[l]
    {
    }

    /** The cached cell itself, or a copy of the stored one. */
    method GetAlert(id: string) returns (alert: AlertCell?)
      requires Valid()
      ensures alert == null <==> Find(View(), id).None?
      ensures alert != null ==> Some(alert.value) == Find(View(), id) && !alert.archived
      ensures alert != null ==> if id in active then alert == active[id] else fresh(alert)
    {
      if id in active {
        return active[id];
      }
      alert := store.Get(id);
    }

    /** Either the cached cell of its ID, or a cell that is neither cached nor stored. */
    ghost predicate Reachable(alert: AlertCell)
      reads this, alert
    {
      !alert.archived && (alert.value.id in active ==> active[alert.value.id] == alert)
    }

    method ResolveAlert(id: string, user: string, comment: string, eventId: string, now: Time)
      returns (error: Option<Error>)
      requires Valid()
      modifies this`history, this`cached, active.Values, store
      ensures Valid()
      ensures error == RequestError(old(View()), id, Resolve(user, comment))
      ensures View() == AfterRequest(old(View()), id, Resolve(user, comment), eventId, now)
    {
      var alert := GetAlert(id);
      if alert == null {
        return Some(NotFound);
      }
      if alert.value.status == Resolved {
        return Some(AlreadyResolved);
      }
      var event := Event(eventId, id, "resolved", Some(alert.value.status), Resolved, comment, user, now);
      error := Finish(alert, alert.value.(status := Resolved, resolvedAt := Some(now), lastUpdatedAt := now), event);
    }

    method AcknowledgeAlert(id: string, user: string, comment: string, eventId: string, now: Time)
      returns (error: Option<Error>)
      requires Valid()
      modifies this`history, this`cached, active.Values, store
      ensures Valid()
      ensures error == RequestError(old(View()), id, Acknowledge(user, comment))
      ensures View() == AfterRequest(old(View()), id, Acknowledge(user, comment), eventId, now)
    {
      var alert := GetAlert(id);
      if alert == null {
        return Some(NotFound);
      }
      if alert.value.status != Firing {
        return Some(NotFiring);
      }
      var event := Event(eventId, id, "acknowledged", Some(alert.value.status), Acknowledged, comment, user, now);
      error := Finish(alert, alert.value.(status := Acknowledged, acknowledgedAt := Some(now), acknowledgedBy := user,
                                         lastUpdatedAt := now), event);
    }

    /** Any state can be silenced, resolved alerts included. */
    method SilenceAlert(id: string, user: string, reason: string, duration: Option<int>, eventId: string, now: Time)
      returns (error: Option<Error>)
      requires Valid()
      modifies this`history, this`cached, active.Values, store
      ensures Valid()
      ensures error == RequestError(old(View()), id, Silence(user, reason, duration))
      ensures View() == AfterRequest(old(View()), id, Silence(user, reason, duration), eventId, now)
    {
      var alert := GetAlert(id);
      if alert == null {
        return Some(NotFound);
      }
      if duration.None? {
        return Some(BadDuration);
      }
      var event := Event(eventId, id, "silenced", Some(alert.value.status), Silenced, reason, user, now);
      var silenceEnds := now + duration.value;
      var silenced := alert.value.(status := Silenced, silencedAt := Some(now), silencedBy := user,
                                   silenceReason := reason, silenceEndsAt := Some(silenceEnds), lastUpdatedAt := now);
      assert silenced == Changed(alert.value, Silence(user, reason, duration), now);
      error := Finish(alert, silenced, event);
    }

    /** Stop: the store is closed, and every later write to it fails. */
    method Stop()
      requires Valid()
      modifies store`closed
      ensures Valid() && View() == old(View()).(closed := true)
    {
      store.Close();
    }

    /** The common tail of the three requests: change the alert, write it through, log the event. */
    method Finish(alert: AlertCell, value: Alert, event: Event) returns (error: Option<Error>)
      requires Valid() && Reachable(alert) && alert.value.id == value.id == event.alertId
      modifies this`history, this`cached, alert, store
      ensures Valid() && error == SaveError(old(View()), value.id)
      ensures View() == Commit(Touch(old(View()), value), value, event)
    {
      Assign(alert, value);
      error := Write(alert, event);
    }

    /** Changes the cell in place, which the cache sees if the cell is cached. */
    method Assign(alert: AlertCell, value: Alert)
      requires Valid() && Reachable(alert) && alert.value.id == value.id
      modifies this`cached, alert
      ensures Valid() && Reachable(alert) && alert.value == value
      ensures View() == Touch(old(View()), value)
    {
      alert.value := value;
      if value.id in active {
        cached := cached[value.id := value];
      }
    }

    /** The store keeps a copy; the event is logged and remembered only if it does. */
    method Write(alert: AlertCell, event: Event) returns (error: Option<Error>)
      requires Valid() && !alert.archived && event.alertId == alert.value.id
      modifies this`history, store
      ensures Valid()
      ensures error == SaveError(old(View()), alert.value.id)
      ensures View() == Commit(old(View()), alert.value, event)
    {
      var failed := store.Update(alert);
      if failed.Some? {
        return Some(StoreFailed(failed.value));
      }
      error := Log(event);
    }

    method Log(event: Event) returns (error: Option<Error>)
      requires Valid() && !store.closed
      modifies this`history, store`events
      ensures Valid() && error.None?
      ensures View() == Logged(old(View()), event)
    {
      var failed := store.CreateEvent(event);
      AddHistory(event);
      return None;
    }

    method AddHistory(event: Event)
      modifies this`history
      ensures history == Trim(old(history) + [event])
    {
      history := history + [event];
      if |history| > HISTORY_LIMIT {
        history := history[|history| - HISTORY_LIMIT..];
      }
    }

    /** The cache keeps the cells it had, apart from those it drops. */
    twostate predicate Keeps()
      reads this
    {
      forall k | k in active :: k in old(active) && active[k] == old(active)[k]
    }

    /** The only cell that may join the cache is the one handed over. */
    twostate predicate Admits(alert: AlertCell)
      reads this
    {
      forall k | k in active :: (k in old(active) && active[k] == old(active)[k]) || active[k] == alert
    }

    /**
      `alert` is handed over: the caller's cell must not be cached already. `dup` is the
      similar alert that was found, `sent` the notification attempts of a new alert.
    */
    method CreateAlert(alert: AlertCell, id: string, eventId: string, now: Time, ok: Routing.Attempts, end: Time)
      returns (error: Option<Error>, ghost dup: Option<string>, sent: seq<string>)
      requires Valid() && !alert.archived && alert !in active.Values
      modifies this, active.Values, alert, store, routing
      ensures Valid() && Admits(alert) && MayRepeat(old(cached), KeyOf(old(alert.value).cause), dup)
      ensures error == CreateError(old(View()), id, dup)
      ensures View() == AfterCreate(old(View()), Prepared(old(alert.value), id, now), dup, eventId)
      ensures Notifies(old(alert.value).cause, dup.None? && error.None?, ok, now, end, sent)
      ensures routing != null && dup.None? && error.None? ==>
                sent == Routing.Routed(routing.config, old(routing.rules), old(routing.channels),
                                       old(routing.lastAlerts), old(alert.value).cause, ok, now)
      ensures routing == null || dup.Some? || error.Some? ==> sent == []
    {
      alert.value := alert.value.(id := id, firedAt := now, lastUpdatedAt := now, status := Firing,
                                  notificationCount := 0);
      var created;
      error, created, dup := Admit(alert, eventId);
      sent := Announce(alert.value.cause, created, ok, now, end);
    }

    /** A repeated alert refreshes the one it repeats; a new one is stored, cached and logged. */
    method Admit(alert: AlertCell, eventId: string)
      returns (error: Option<Error>, created: bool, ghost dup: Option<string>)
      requires Valid() && !alert.archived && alert !in active.Values && alert.value.status == Firing
      modifies this, active.Values, store
      ensures Valid() && Admits(alert)
      ensures alert.value == old(alert.value) && MayRepeat(old(cached), KeyOf(alert.value.cause), dup)
      ensures error == CreateError(old(View()), alert.value.id, dup) && (created <==> dup.None? && error.None?)
      ensures View() == AfterCreate(old(View()), alert.value, dup, eventId)
    {
      var existing := FindSimilarAlert(alert.value.cause);
      if existing != null {
        dup, created := Some(existing.value.id), false;
        error := Refresh(existing, alert.value, alert.value.firedAt);
        return;
      }
      dup := None;
      error := Register(alert, eventId);
      created := error.None?;
    }

    method Announce(c: Cause, created: bool, ok: Routing.Attempts, now: Time, end: Time) returns (sent: seq<string>)
      requires Valid()
      modifies routing
      ensures Valid() && Notifies(c, created, ok, now, end, sent)
    {
      sent := [];
      if created && routing != null {
        sent := routing.Route(c, ok, now, end);
      }
    }

    /** New alerts are routed, everything else leaves the router alone. */
    twostate predicate Notifies(c: Cause, created: bool, ok: Routing.Attempts, now: Time, end: Time, sent: seq<string>)
      reads this, routing
    {
      if routing == null then sent == []
      else
        var ruled := Routing.Matching(routing.rules, c) != [];
        && routing.rules == old(routing.rules) && routing.channels == old(routing.channels)
        && sent == (if !created then []
                    else Routing.Routed(routing.config, routing.rules, routing.channels, old(routing.lastAlerts),
                                        c, ok, now))
        && routing.lastAlerts ==
             (if !created then old(routing.lastAlerts)
              else Routing.AfterRoute(routing.config, old(routing.lastAlerts), Routing.CooldownKey(c), ruled, now, end))
    }

    /** A live cached alert with the same target name and namespace, layer and code, if there is one. */
    method FindSimilarAlert(c: Cause) returns (found: AlertCell?)
      requires Valid()
      ensures found != null ==>
                var a := found.value;
                && a.status != Resolved && a.status != Silenced
                && a.cause.target.name == c.target.name && a.cause.target.namespace == c.target.namespace
                && a.cause.layer == c.layer && a.cause.code == c.code
      ensures found == null ==>
                forall k | k in cached && cached[k].status != Resolved && cached[k].status != Silenced ::
                  var a := cached[k];
                  || a.cause.target.name != c.target.name || a.cause.target.namespace != c.target.namespace
                  || a.cause.layer != c.layer || a.cause.code != c.code
      ensures found == null ==> Similar(cached, KeyOf(c)) == {}
      ensures found != null ==> found.value.id in Similar(cached, KeyOf(c)) && active[found.value.id] == found
    {
      var todo := active.Keys;
      while todo != {}
        invariant todo <= cached.Keys && forall k | k in Similar(cached, KeyOf(c)) :: k in todo
        decreases |todo|
      {
        var k :| k in todo;
        var a := active[k].value;
        if a.status != Resolved && a.status != Silenced &&
           a.cause.target.name == c.target.name && a.cause.target.namespace == c.target.namespace &&
           a.cause.layer == c.layer && a.cause.code == c.code {
          return active[k];
        }
        todo := todo - {k};
      }
      assert forall k | k in cached :: k !in Similar(cached, KeyOf(c));
      return null;
    }

    method Refresh(existing: AlertCell, a: Alert, now: Time) returns (error: Option<Error>)
      requires Valid() && Reachable(existing) && existing.value.id in active
      modifies this`cached, existing, store`alerts, store`contents
      ensures Valid() && error == SaveError(old(View()), old(existing.value.id))
      ensures var e := Refreshed(old(existing.value), a, now); View() == Save(Touch(old(View()), e), e)
    {
      error := AssignAndSave(existing,
                             existing.value.(lastUpdatedAt := now, consecutiveFailures := a.consecutiveFailures));
    }

    method AssignAndSave(alert: AlertCell, value: Alert) returns (error: Option<Error>)
      requires Valid() && Reachable(alert) && alert.value.id == value.id
      modifies this`cached, alert, store`alerts, store`contents
      ensures Valid() && error == SaveError(old(View()), value.id)
      ensures View() == Save(Touch(old(View()), value), value)
    {
      Assign(alert, value);
      error := SaveCell(alert);
    }

    /** The store takes a copy of the cell, if it can. */
    method SaveCell(alert: AlertCell) returns (error: Option<Error>)
      requires Valid() && !alert.archived
      modifies store`alerts, store`contents
      ensures Valid() && error == SaveError(old(View()), alert.value.id)
      ensures View() == Save(old(View()), alert.value)
    {
      var failed := store.Update(alert);
      error := if failed.Some? then Some(StoreFailed(failed.value)) else None;
    }

    /** The store takes a copy first; only then does the caller's cell enter the cache. */
    method Register(alert: AlertCell, eventId: string) returns (error: Option<Error>)
      requires Valid() && !alert.archived
      modifies this, store
      ensures Valid() && Admits(alert) && error == CreateError(old(View()), alert.value.id, None)
      ensures View() == AfterCreate(old(View()), alert.value, None, eventId)
    {
      error := StoreAndCache(alert);
      if error.None? {
        error := Log(FiredEvent(alert.value.id, eventId, alert.value.firedAt));
      }
    }

    method StoreAndCache(alert: AlertCell) returns (error: Option<Error>)
      requires Valid() && !alert.archived
      modifies this`active, this`cached, store`alerts, store`contents
      ensures Valid() && Admits(alert) && error == CreateError(old(View()), alert.value.id, None)
      ensures View() == if error.Some? then old(View()) else Recorded(old(View()), alert.value)
    {
      var failed := store.Create(alert);
      if failed.Some? {
        return Some(StoreFailed(failed.value));
      }
      active := active[alert.value.id := alert];
      cached := cached[alert.value.id := alert.value];
      return None;
    }

    /** Two passes over the cache; the second reads the clock again at each silenced alert. */
    method Cleanup(clock: Clock)
      requires Valid()
      modifies this, active.Values, store
      ensures Valid() && Keeps() && View() == AfterCleanup(old(View()), clock.Cutoff(historyRetention), clock)
    {
      ghost var before := View();
      var cutoff := clock.Cutoff(historyRetention);
      ForgetOld(cutoff);
      WakeExpired(before, cutoff, clock);
    }

    method ForgetOld(cutoff: Time)
      requires Valid()
      modifies this`active, this`cached
      ensures Valid() && View() == Pruned(old(View()), {}, cutoff)
      ensures Keeps()
    {
      var todo := active.Keys;
      PruneAll(View(), cutoff);
      while todo != {}
        invariant Valid() && View() == Pruned(old(View()), todo, cutoff) && todo <= old(cached).Keys
        invariant Keeps()
        decreases |todo|
      {
        var id :| id in todo;
        PruneOne(old(View()), todo, id, cutoff);
        var a := active[id].value;
        if a.status == Resolved && a.resolvedAt.Some? && a.resolvedAt.value < cutoff {
          Forget(id);
        }
        todo := todo - {id};
      }
    }

    method Forget(id: string)
      requires Valid()
      modifies this`active, this`cached
      ensures Valid() && View() == old(View()).(active := old(cached) - {id})
      ensures Keeps()
    {
      active, cached := active - {id}, cached - {id};
      assert active.Keys == old(active).Keys - {id} && cached.Keys == old(cached).Keys - {id};
    }

    /** The second pass, on what the first pass left of `start`. */
    method WakeExpired(ghost start: World, ghost cutoff: Time, clock: Clock)
      requires Valid() && View() == Pruned(start, {}, cutoff)
      modifies this`cached, active.Values, store`alerts, store`contents
      ensures Valid() && View() == AfterCleanup(start, cutoff, clock)
    {
      ghost var pruned := View();
      var todo := active.Keys;
      AwakenAll(pruned, clock);
      while todo != {}
        invariant Valid() && View() == Awakened(pruned, todo, clock) && todo <= old(cached).Keys
        decreases |todo|
      {
        var id :| id in todo;
        AwakenOne(pruned, todo, id, clock);
        WakeIfExpired(active[id], clock.At(id));
        todo := todo - {id};
      }
      CleanupInPasses(start, cutoff, clock);
    }

    /** The error of the update is ignored, and no event is written. */
    method WakeIfExpired(alert: AlertCell, r: Reading)
      requires Valid() && Reachable(alert)
      modifies this`cached, alert, store`alerts, store`contents
      ensures Valid()
      ensures var a := old(alert.value);
              View() == if Expires(a, r.seen) then Save(Touch(old(View()), Wake(a, r)), Wake(a, r)) else old(View())
    {
      var a := alert.value;
      if a.status == Silenced && a.silenceEndsAt.Some? && r.seen > a.silenceEndsAt.value {
        var woken := a.(status := Firing, silencedAt := None, silenceEndsAt := None, lastUpdatedAt := r.stamped);
        var _ := AssignAndSave(alert, woken);
      }
    }
  }
}
