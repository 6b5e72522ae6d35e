/**
  Whole runs of the manager class: any sequence of operations on one manager follows the
  lifecycle's runs, and while the store is open its cache holds equal but separate cells.
*/
module ManagerRuns {
  import opened Common
  import opened Alerts
  import opened Lifecycle
  import opened LifecycleRuns
  import opened Manager
  import Routing
  import Store

  /** How the notifications of a new alert fare, and when they are over. */
  datatype Delivery = Delivery(ok: Routing.Attempts, end: Time)

  /** `op` is what became of `plan`: creating finds its duplicate itself, and the retention is the manager's. */
  ghost predicate Happened(op: Op, plan: Op, retention: int) {
    match plan
    case Create(_, _, _, _, _) => op.Create? && op == plan.(dup := op.dup)
    case Cleanup(_, clock) => op == Cleanup(retention, clock)
    case _ => op == plan
  }

  /** Cells that join the cache are new. */
  twostate predicate CacheGrows(m: Manager)
    reads m
  {
    forall k | k in m.active :: (k in old(m.active) && m.active[k] == old(m.active)[k]) || fresh(m.active[k])
  }

  /** Every cached cell has the value of a stored one, and is another object. */
  ghost predicate WritesThrough(m: Manager)
    reads m, m.active.Values, m.store, m.store.alerts.Values
  {
    forall k | k in m.active ::
      k in m.store.alerts && m.active[k] != m.store.alerts[k] && m.active[k].value == m.store.alerts[k].value
  }

  /** A manager without a configured store makes its own. */
  method NewManager(retention: int, routing: Routing.Router?) returns (m: Manager)
    ensures fresh(m) && fresh(m.store) && m.active == map[] && m.routing == routing && m.historyRetention == retention
    ensures m.Valid() && m.View() == NEW_WORLD
  {
    var store := new Store.MemoryStore();
    m := new Manager(retention, store, routing);
  }

  // ----- one operation -----

  method Request(m: Manager, id: string, req: Request, eventId: string, now: Time) returns (error: Option<Error>)
    requires m.Valid()
    modifies m`history, m`cached, m.active.Values, m.store
    ensures m.Valid() && error == RequestError(old(m.View()), id, req)
    ensures m.View() == AfterRequest(old(m.View()), id, req, eventId, now)
  {
    match req
    case Acknowledge(user, comment) => error := m.AcknowledgeAlert(id, user, comment, eventId, now);
    case Resolve(user, comment) => error := m.ResolveAlert(id, user, comment, eventId, now);
    case Silence(user, reason, duration) => error := m.SilenceAlert(id, user, reason, duration, eventId, now);
  }

  /** The caller makes a cell for the alert and hands it over. */
  method Launch(m: Manager, alert: Alert, id: string, eventId: string, now: Time, d: Delivery)
    returns (ghost dup: Option<string>)
    requires m.Valid()
    modifies m, m.active.Values, m.store, m.routing
    ensures m.Valid() && CacheGrows(m) && MayRepeat(old(m.cached), KeyOf(alert.cause), dup)
    ensures m.View() == AfterCreate(old(m.View()), Prepared(alert, id, now), dup, eventId)
  {
    var cell := new AlertCell(alert, false);
    var error, sent;
    error, dup, sent := m.CreateAlert(cell, id, eventId, now, d.ok, d.end);
  }

  method Step(m: Manager, plan: Op, d: Delivery) returns (ghost op: Op)
    requires m.Valid() && (plan.Create? ==> plan.id !in m.store.contents)
    modifies m, m.active.Values, m.store, m.routing
    ensures m.Valid() && CacheGrows(m)
    ensures Happened(op, plan, m.historyRetention) && Allowed(old(m.View()), op)
    ensures m.View() == Apply(old(m.View()), op)
  {
    op := plan;
    match plan
    case Create(alert, id, _, eventId, now) =>
      ghost var dup := Launch(m, alert, id, eventId, now, d);
      op := plan.(dup := dup);
    case Ask(id, req, eventId, now) =>
      var _ := Request(m, id, req, eventId, now);
    case Cleanup(_, clock) =>
      m.Cleanup(clock);
      op := Cleanup(m.historyRetention, clock);
    case CloseStore =>
      m.Stop();
  }

  // ----- sequences of operations -----

  /** The run so far, which has stored alerts under no other IDs than `ids`. */
  ghost predicate Follows(m: Manager, ops: seq<Op>, ids: set<string>)
    reads m, m.active.Values, m.store, m.store.alerts.Values
  {
    m.Valid() && Legal(ops) && m.View() == Run(ops) && m.store.contents.Keys <= ids
  }

  ghost function WithId(ids: set<string>, plan: Op): set<string> {
    if plan.Create? then ids + {plan.id} else ids
  }

  lemma StoredIds(w: World, op: Op, ids: set<string>)
    requires Allowed(w, op) && Keyed(w) && w.stored.Keys <= ids
    ensures Apply(w, op).stored.Keys <= WithId(ids, op)
  {
  }

  /** One more operation on a manager that has followed a run. */
  method StepOn(m: Manager, ghost ops: seq<Op>, ghost ids: set<string>, plan: Op, d: Delivery) returns (ghost op: Op)
    requires Follows(m, ops, ids) && (plan.Create? ==> plan.id !in ids)
    modifies m, m.active.Values, m.store, m.routing
    ensures Follows(m, ops + [op], WithId(ids, plan)) && CacheGrows(m)
    ensures Happened(op, plan, m.historyRetention)
  {
    op := Step(m, plan, d);
    RunKeyed(ops);
    StoredIds(Run(ops), op, ids);
    Continue(ops, op);
  }

  /** The IDs under which a sequence of operations creates alerts. */
  ghost function NewIds(plan: seq<Op>): set<string> {
    if plan == [] then {} else WithId(NewIds(Front(plan)), Last(plan))
  }

  /** No two alerts are created under one ID. */
  ghost predicate DistinctIds(plan: seq<Op>) {
    forall n | 0 <= n < |plan| && plan[n].Create? :: plan[n].id !in NewIds(plan[..n])
  }

  /** Any sequence of operations on a new manager is a legal run of the lifecycle, and follows it. */
  method Perform(m: Manager, plan: seq<Op>, ds: seq<Delivery>) returns (ghost ops: seq<Op>)
    requires m.Valid() && m.View() == NEW_WORLD && |ds| == |plan| && DistinctIds(plan)
    modifies m, m.active.Values, m.store, m.routing
    ensures |ops| == |plan| && forall i | 0 <= i < |plan| :: Happened(ops[i], plan[i], m.historyRetention)
    ensures m.Valid() && Legal(ops) && m.View() == Run(ops)
    ensures StaysOpen(plan) ==> WritesThrough(m)
  {
    ops := [];
    for n := 0 to |plan|
      invariant CacheGrows(m) && Follows(m, ops, NewIds(plan[..n]))
      invariant |ops| == n && forall i | 0 <= i < n :: Happened(ops[i], plan[i], m.historyRetention)
    {
      assert Front(plan[..n + 1]) == plan[..n];
      ghost var op := StepOn(m, ops, NewIds(plan[..n]), plan[n], ds[n]);
      ops := ops + [op];
    }
    if StaysOpen(plan) {
      Separate(m, ops);
    }
  }

  lemma Separate(m: Manager, ops: seq<Op>)
    requires m.Valid() && Legal(ops) && StaysOpen(ops) && m.View() == Run(ops)
    ensures WritesThrough(m)
  {
    forall k | k in m.active
      ensures k in m.store.alerts && m.active[k] != m.store.alerts[k] && m.active[k].value == m.store.alerts[k].value
    {
      RunCoherent(ops, k);
      m.CellsApart();
    }
  }
}
