/**
  The alert lifecycle as a function of values (internal/alertmanager/manager.go):
  what each operation of the manager does to its cache, to the store behind it and
  to the event logs.
*/
module Lifecycle {
  import opened Common
  import opened Alerts
  import Store

  const HISTORY_LIMIT: nat := 1000

  /** `active` is the manager's cache, `stored` and `events` the store's contents. */
  datatype World = World(
    active: map<string, Alert>, stored: map<string, Alert>,
    events: map<string, seq<Event>>, history: seq<Event>, closed: bool)

  const NEW_WORLD: World := World(map[], map[], map[], [], false)

  datatype Error = NotFound | AlreadyResolved | NotFiring | BadDuration | StoreFailed(error: Store.Error)

  /** A silence duration that does not parse is None. */
  datatype Request =
    | Acknowledge(user: string, comment: string)
    | Resolve(user: string, comment: string)
    | Silence(user: string, reason: string, duration: Option<int>)

  /** The manager's lookup: the cache first, then the store. */
  function Find(w: World, id: string): Option<Alert> {
    if id in w.active then Some(w.active[id])
    else if !w.closed && id in w.stored then Some(w.stored[id])
    else None
  }

  // ----- requests on one alert -----

  function Refusal(a: Alert, req: Request): Option<Error> {
    match req
    case Acknowledge(_, _) => if a.status != Firing then Some(NotFiring) else None
    case Resolve(_, _) => if a.status == Resolved then Some(AlreadyResolved) else None
    case Silence(_, _, duration) => if duration.None? then Some(BadDuration) else None
  }

  function Changed(a: Alert, req: Request, now: Time): Alert
    requires Refusal(a, req).None?
  {
    match req
    case Acknowledge(user, _) =>
      a.(status := Acknowledged, acknowledgedAt := Some(now), acknowledgedBy := user, lastUpdatedAt := now)
    case Resolve(_, _) => a.(status := Resolved, resolvedAt := Some(now), lastUpdatedAt := now)
    case Silence(user, reason, duration) =>
      a.(status := Silenced, silencedAt := Some(now), silencedBy := user, silenceReason := reason,
         silenceEndsAt := Some(now + duration.value), lastUpdatedAt := now)
  }

  function Notice(a: Alert, req: Request, eventId: string, now: Time): Event {
    match req
    case Acknowledge(user, comment) =>
      Event(eventId, a.id, "acknowledged", Some(a.status), Acknowledged, comment, user, now)
    case Resolve(user, comment) => Event(eventId, a.id, "resolved", Some(a.status), Resolved, comment, user, now)
    case Silence(user, reason, _) => Event(eventId, a.id, "silenced", Some(a.status), Silenced, reason, user, now)
  }

  /** A changed alert shows in the cache at once if it is cached. */
  function Touch(w: World, a: Alert): World {
    if a.id in w.active then w.(active := w.active[a.id := a]) else w
  }

  function Trim(history: seq<Event>): seq<Event> {
    if |history| > HISTORY_LIMIT then history[|history| - HISTORY_LIMIT..] else history
  }

  function Logged(w: World, e: Event): World {
    w.(events := w.events[e.alertId := Store.LogOf(w.events, e.alertId) + [e]], history := Trim(w.history + [e]))
  }

  function SaveError(w: World, id: string): Option<Error> {
    if w.closed then Some(StoreFailed(Store.Closed))
    else if id !in w.stored then Some(StoreFailed(Store.Missing))
    else None
  }

  function Save(w: World, a: Alert): World {
    if SaveError(w, a.id).Some? then w else w.(stored := w.stored[a.id := a])
  }

  /** Writing a changed alert through: the event is only logged if the store took the alert. */
  function Commit(w: World, a: Alert, e: Event): World {
    if SaveError(w, a.id).Some? then w else Logged(Save(w, a), e)
  }

  function AfterRequest(w: World, id: string, req: Request, eventId: string, now: Time): World {
    match Find(w, id)
    case None => w
    case Some(a) =>
      if Refusal(a, req).Some? then w
      else var a' := Changed(a, req, now); Commit(Touch(w, a'), a', Notice(a, req, eventId, now))
  }

  function RequestError(w: World, id: string, req: Request): Option<Error> {
    match Find(w, id)
    case None => Some(NotFound)
    case Some(a) => if Refusal(a, req).Some? then Refusal(a, req) else SaveError(w, a.id)
  }

  // ----- creation -----

  function Prepared(a: Alert, id: string, now: Time): Alert {
    a.(id := id, firedAt := now, lastUpdatedAt := now, status := Firing, notificationCount := 0)
  }

  predicate Live(a: Alert) {
    a.status != Resolved && a.status != Silenced
  }

  /** The cached alerts a new one would repeat. */
  function Similar(active: map<string, Alert>, key: DedupKey): set<string> {
    set k | k in active && Live(active[k]) && KeyOf(active[k].cause) == key
  }

  /** findSimilarAlert may return any similar alert, and returns one whenever there is one. */
  ghost predicate MayRepeat(active: map<string, Alert>, key: DedupKey, dup: Option<string>) {
    match dup
    case None => Similar(active, key) == {}
    case Some(d) => d in Similar(active, key)
  }

  function Refreshed(existing: Alert, a: Alert, now: Time): Alert {
    existing.(lastUpdatedAt := now, consecutiveFailures := a.consecutiveFailures)
  }

  function FiredEvent(id: string, eventId: string, now: Time): Event {
    Event(eventId, id, "fired", None, Firing, "Alert triggered by failure threshold", "", now)
  }

  function CreateError(w: World, id: string, dup: Option<string>): Option<Error> {
    match dup
    case Some(d) => SaveError(w, d)
    case None =>
      if w.closed then Some(StoreFailed(Store.Closed))
      else if id in w.stored then Some(StoreFailed(Store.Exists))
      else None
  }

  /** A new alert, stored and cached. */
  function Recorded(w: World, a: Alert): World {
    w.(active := w.active[a.id := a], stored := w.stored[a.id := a])
  }

  /** Creating the prepared alert `a`, or refreshing the cached alert `dup` that it repeats. */
  function AfterCreate(w: World, a: Alert, dup: Option<string>, eventId: string): World
    requires dup.Some? ==> dup.value in w.active
  {
    match dup
    case Some(d) => var e := Refreshed(w.active[d], a, a.firedAt); Save(Touch(w, e), e)
    case None =>
      if CreateError(w, a.id, dup).Some? then w
      else Logged(Recorded(w, a), FiredEvent(a.id, eventId, a.firedAt))
  }

  // ----- clean-up -----

  predicate Forgotten(a: Alert, cutoff: Time) {
    a.status == Resolved && a.resolvedAt.Some? && a.resolvedAt.value < cutoff
  }

  /** The clock at the look a clean-up takes at one alert, and when it stamps the alert it wakes. */
  datatype Reading = Reading(seen: Time, stamped: Time)

  /** The readings of one clean-up: `now` when it starts, and what the clock has moved on to at some of the alerts. */
  datatype Clock = Clock(now: Time, later: map<string, Reading>)
  {
    /** Alerts resolved before this are old enough to be forgotten. */
    function Cutoff(retention: int): Time { now - retention }

    function At(id: string): Reading { if id in later then later[id] else Reading(now, now) }
  }

  predicate Expires(a: Alert, seen: Time) {
    a.status == Silenced && a.silenceEndsAt.Some? && seen > a.silenceEndsAt.value
  }

  function Wake(a: Alert, r: Reading): Alert {
    if Expires(a, r.seen)
    then a.(status := Firing, silencedAt := None, silenceEndsAt := None, lastUpdatedAt := r.stamped)
    else a
  }

  /**
    Old resolved alerts leave the cache but stay stored; expired silences fire again, in
    the cache and in the store.
  */
  function AfterCleanup(w: World, cutoff: Time, clock: Clock): World {
    World(
      map k | k in w.active && !Forgotten(w.active[k], cutoff) :: Wake(w.active[k], clock.At(k)),
      map k | k in w.stored ::
        if !w.closed && k in w.active && Expires(w.active[k], clock.At(k).seen)
        then Wake(w.active[k], clock.At(k))
        else w.stored[k],
      w.events, w.history, w.closed)
  }

  /** A first pass that still has the keys `todo` to look at. */
  ghost function Pruned(w: World, todo: set<string>, cutoff: Time): World {
    w.(active := map k | k in w.active && (k in todo || !Forgotten(w.active[k], cutoff)) :: w.active[k])
  }

  lemma PruneOne(w: World, todo: set<string>, key: string, cutoff: Time)
    requires key in todo && todo <= w.active.Keys
    ensures |todo - {key}| < |todo| && key in Pruned(w, todo, cutoff).active
    ensures Pruned(w, todo - {key}, cutoff) ==
            if Forgotten(w.active[key], cutoff)
            then Pruned(w, todo, cutoff).(active := Pruned(w, todo, cutoff).active - {key})
            else Pruned(w, todo, cutoff)
  {
  }

  lemma PruneAll(w: World, cutoff: Time)
    ensures Pruned(w, w.active.Keys, cutoff) == w
  {
  }

  /** A second pass that still has the keys `todo` to look at. */
  ghost function Awakened(w: World, todo: set<string>, clock: Clock): World {
    w.(active := map k | k in w.active :: if k in todo then w.active[k] else Wake(w.active[k], clock.At(k)),
       stored := map k | k in w.stored ::
         if !w.closed && k in w.active && k !in todo && Expires(w.active[k], clock.At(k).seen)
         then Wake(w.active[k], clock.At(k))
         else w.stored[k])
  }

  lemma AwakenOne(w: World, todo: set<string>, key: string, clock: Clock)
    requires key in todo && todo <= w.active.Keys && w.active[key].id == key
    ensures |todo - {key}| < |todo| && Awakened(w, todo, clock).active[key] == w.active[key]
    ensures var e, done := Wake(w.active[key], clock.At(key)), Awakened(w, todo, clock);
            Awakened(w, todo - {key}, clock) ==
            if Expires(w.active[key], clock.At(key).seen) then Save(Touch(done, e), e) else done
  {
    var e, done := Wake(w.active[key], clock.At(key)), Awakened(w, todo, clock);
    var after := Awakened(w, todo - {key}, clock);
    assert after.active == done.active[key := e];
    assert after.stored == Save(Touch(done, e), e).stored || after.stored == done.stored;
  }

  lemma AwakenAll(w: World, clock: Clock)
    ensures Awakened(w, w.active.Keys, clock) == w
  {
  }

  lemma CleanupInPasses(w: World, cutoff: Time, clock: Clock)
    ensures Awakened(Pruned(w, {}, cutoff), {}, clock) == AfterCleanup(w, cutoff, clock)
  {
  }
}
