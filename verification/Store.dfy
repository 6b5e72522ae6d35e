/**
  The in-memory alert store (internal/alertmanager/store.go): it keeps its own
  copies of alerts and the event log of each alert.
*/
module Store {
  import opened Common
  import opened Alerts

  datatype Error = Closed | Exists | Missing

  datatype Filter = Filter(
    status: seq<Status>, severity: seq<Severity>, targetName: string, namespace: string, blastRadius: string,
    from: Option<Time>, to: Option<Time>, limit: int)

  predicate Matches(a: Alert, f: Filter) {
    && (f.status == [] || a.status in f.status)
    && (f.severity == [] || a.cause.severity in f.severity)
    && (f.targetName == "" || a.cause.target.name == f.targetName)
    && (f.namespace == "" || a.cause.target.namespace == f.namespace)
    && (f.blastRadius == "" || a.cause.blastRadius == f.blastRadius)
    && (f.from.None? || f.from.value <= a.firedAt)
    && (f.to.None? || a.firedAt <= f.to.value)
  }

  function Matching(alerts: map<string, Alert>, f: Filter): set<Alert> {
    set k | k in alerts && Matches(alerts[k], f) :: alerts[k]
  }

  ghost predicate NewestFirst(s: seq<Alert>) {
    forall i, j | 0 <= i < j < |s| :: s[i].firedAt >= s[j].firedAt
  }

  function Limit(f: Filter): nat {
    if f.limit <= 0 then 50 else f.limit
  }

  function LogOf(events: map<string, seq<Event>>, id: string): seq<Event> {
    if id in events then events[id] else []
  }

  class MemoryStore {
    var alerts: map<string, AlertCell>
    var events: map<string, seq<Event>>
    var closed: bool
    ghost var contents: map<string, Alert>

    /** The stored cells are the store's own, each under its own ID. */
    ghost predicate Valid()
      reads this, alerts.Values
    {
      && contents.Keys == alerts.Keys
      && (forall k | k in alerts :: alerts[k].archived && alerts[k].value == contents[k] && contents[k].id == k)
    }

    constructor ()
      ensures Valid() && contents == map[] && events == map[] && !closed
    {
      alerts, events, closed, contents := map[], map[], false, map[];
    }

    method Create(alert: AlertCell) returns (error: Option<Error>)
      requires Valid()
      modifies this`alerts, this`contents
      ensures Valid()
      ensures error == if closed then Some(Closed) else if alert.value.id in old(contents) then Some(Exists) else None
      ensures contents == if error.None? then old(contents)[alert.value.id := alert.value] else old(contents)
    {
      if closed {
        return Some(Closed);
      }
      if alert.value.id in alerts {
        return Some(Exists);
      }
      Put(alert);
      return None;
    }

    method Update(alert: AlertCell) returns (error: Option<Error>)
      requires Valid()
      modifies this`alerts, this`contents
      ensures Valid()
      ensures error == if closed then Some(Closed) else if alert.value.id !in old(contents) then Some(Missing) else None
      ensures contents == if error.None? then old(contents)[alert.value.id := alert.value] else old(contents)
    {
      if closed {
        return Some(Closed);
      }
      if alert.value.id !in alerts {
        return Some(Missing);
      }
      Put(alert);
      return None;
    }

    /** Keeps a copy, so later changes to `alert` do not reach the store. */
    method Put(alert: AlertCell)
      requires Valid()
      modifies this`alerts, this`contents
      ensures Valid() && contents == old(contents)[alert.value.id := alert.value]
    {
      var c := CopyAlert(alert, true);
      alerts := alerts[alert.value.id := c];
      contents := contents[alert.value.id := alert.value];
    }

    /** copyAlert: a new cell with the same value. */
    static method CopyAlert(alert: AlertCell, ghost archived: bool) returns (c: AlertCell)
      ensures fresh(c) && c.value == alert.value && c.archived == archived
    {
      c := new AlertCell(alert.value, archived);
    }

    /** The result is a new cell that nobody else holds. */
    method Get(id: string) returns (alert: AlertCell?)
      requires Valid()
      ensures alert == null <==> closed || id !in contents
      ensures alert != null ==> fresh(alert) && !alert.archived && alert.value == contents[id]
    {
      if closed || id !in alerts {
        return null;
      }
      alert := CopyAlert(alerts[id], false);
    }

    method Delete(id: string) returns (error: Option<Error>)
      requires Valid()
      modifies this
      ensures Valid() && closed == old(closed)
      ensures error == if closed then Some(Closed) else if id !in old(contents) then Some(Missing) else None
      ensures contents == if error.None? then old(contents) - {id} else old(contents)
      ensures events == if error.None? then old(events) - {id} else old(events)
    {
      if closed {
        return Some(Closed);
      }
      if id !in alerts {
        return Some(Missing);
      }
      alerts, events, contents := alerts - {id}, events - {id}, contents - {id};
      return None;
    }

    method CreateEvent(e: Event) returns (error: Option<Error>)
      requires Valid()
      modifies this`events
      ensures Valid() && error == if closed then Some(Closed) else None
      ensures events == if closed then old(events) else old(events)[e.alertId := LogOf(old(events), e.alertId) + [e]]
    {
      if closed {
        return Some(Closed);
      }
      events := events[e.alertId := LogOf(events, e.alertId) + [e]];
      return None;
    }

    method ListEvents(id: string) returns (log: Option<seq<Event>>)
      ensures log == if closed then None else Some(LogOf(events, id))
    {
      if closed {
        return None;
      }
      return Some(LogOf(events, id));
    }

    method Close()
      requires Valid()
      modifies this`closed
      ensures Valid() && closed
    {
      closed := true;
    }

    /**
      The newest matching alerts, with the number of all matches. The ghost result
      completes the page to the sorted list of all of them.
    */
    method List(f: Filter) returns (ok: bool, page: seq<Alert>, total: nat, ghost rest: seq<Alert>)
      requires Valid()
      ensures ok <==> !closed
      ensures ok ==> total == |Matching(contents, f)| && |page| == Min(if f.limit > 0 then f.limit else 50, total)
      ensures ok ==> multiset(page + rest) == multiset(Matching(contents, f)) && NewestFirst(page + rest)
    {
      if closed {
        return false, [], 0, [];
      }
      var found := Collect(f);
      var sorted := SortNewestFirst(found);
      assert |found| == |multiset(found)| == |sorted| by { assert |sorted| == |multiset(sorted)|; }
      total := |sorted|;
      var n := Min(Limit(f), total);
      ok, page, rest := true, sorted[..n], sorted[n..];
      assert page + rest == sorted;
    }

    method Collect(f: Filter) returns (found: seq<Alert>)
      requires Valid()
      ensures multiset(found) == multiset(Matching(contents, f))
    {
      found := [];
      var todo := alerts.Keys;
      assert Matching(Untouched(contents, todo), f) == {};
      while todo != {}
        invariant todo <= contents.Keys
        invariant multiset(found) == multiset(Matching(Untouched(contents, todo), f))
        decreases |todo|
      {
        var key :| key in todo;
        OneMore(contents, todo, key, f);
        var alert := alerts[key];
        var matches := MatchesFilter(alert.value, f);
        if matches {
          found := found + [alert.value];
        }
        todo := todo - {key};
      }
      assert Untouched(contents, {}) == contents;
    }

    static method MatchesFilter(alert: Alert, f: Filter) returns (matches: bool)
      ensures matches <==> Matches(alert, f)
      ensures matches <==>
              && (f.status == [] || alert.status in f.status)
              && (f.severity == [] || alert.cause.severity in f.severity)
              && (f.targetName == "" || alert.cause.target.name == f.targetName)
              && (f.namespace == "" || alert.cause.target.namespace == f.namespace)
              && (f.blastRadius == "" || alert.cause.blastRadius == f.blastRadius)
              && (f.from.None? || alert.firedAt >= f.from.value) && (f.to.None? || alert.firedAt <= f.to.value)
    {
      var found := Contains(f.status, alert.status);
      if |f.status| > 0 && !found {
        return false;
      }
      found := Contains(f.severity, alert.cause.severity);
      if |f.severity| > 0 && !found {
        return false;
      }
      if f.targetName != "" && alert.cause.target.name != f.targetName {
        return false;
      }
      if f.namespace != "" && alert.cause.target.namespace != f.namespace {
        return false;
      }
      if f.blastRadius != "" && alert.cause.blastRadius != f.blastRadius {
        return false;
      }
      if f.from.Some? && alert.firedAt < f.from.value {
        return false;
      }
      if f.to.Some? && alert.firedAt > f.to.value {
        return false;
      }
      return true;
    }

    static method SortNewestFirst(s: seq<Alert>) returns (sorted: seq<Alert>)
      ensures multiset(sorted) == multiset(s) && NewestFirst(sorted)
    {
      sorted := [];
      for i := 0 to |s|
        invariant multiset(sorted) == multiset(s[..i]) && NewestFirst(sorted)
      {
        assert s[..i + 1] == s[..i] + [s[i]];
        sorted := Insert(sorted, s[i]);
      }
      assert s[..|s|] == s;
    }

    static method Insert(s: seq<Alert>, a: Alert) returns (sorted: seq<Alert>)
      requires NewestFirst(s)
      ensures multiset(sorted) == multiset(s) + multiset{a} && NewestFirst(sorted)
    {
      var k := 0;
      while k < |s| && s[k].firedAt >= a.firedAt
        invariant k <= |s| && forall i | 0 <= i < k :: s[i].firedAt >= a.firedAt
      {
        k := k + 1;
      }
      sorted := s[..k] + [a] + s[k..];
      InsertAt(s, k, a);
    }
  }

  /** The alerts whose keys a scan has already looked at. */
  ghost function Untouched(alerts: map<string, Alert>, todo: set<string>): map<string, Alert> {
    alerts - todo
  }

  lemma InsertAt(s: seq<Alert>, k: nat, a: Alert)
    requires NewestFirst(s) && k <= |s| && (forall i | 0 <= i < k :: s[i].firedAt >= a.firedAt)
    requires k < |s| ==> s[k].firedAt <= a.firedAt
    ensures var t := s[..k] + [a] + s[k..];
            multiset(t) == multiset(s) + multiset{a} && NewestFirst(t)
  {
    assert s == s[..k] + s[k..];
    InsertedNewestFirst(s, k, a);
  }

  lemma InsertedNewestFirst(s: seq<Alert>, k: nat, a: Alert)
    requires NewestFirst(s) && k <= |s| && (forall i | 0 <= i < k :: s[i].firedAt >= a.firedAt)
    requires k < |s| ==> s[k].firedAt <= a.firedAt
    ensures NewestFirst(s[..k] + [a] + s[k..])
  {
  }

  /** Alerts sit under their own IDs, so each match is found at its ID. */
  lemma FoundById(alerts: map<string, Alert>, f: Filter, a: Alert)
    requires forall k | k in alerts :: alerts[k].id == k
    ensures a in Matching(alerts, f) <==> a.id in alerts && alerts[a.id] == a && Matches(a, f)
  {
  }

  lemma OneMore(alerts: map<string, Alert>, todo: set<string>, key: string, f: Filter)
    requires key in todo && todo <= alerts.Keys && forall k | k in alerts :: alerts[k].id == k
    ensures var before, after := Matching(Untouched(alerts, todo), f), Matching(Untouched(alerts, todo - {key}), f);
            if Matches(alerts[key], f)
            then alerts[key] !in before && after == before + {alerts[key]}
            else after == before
  {
    var before, after := Matching(Untouched(alerts, todo), f), Matching(Untouched(alerts, todo - {key}), f);
    forall a
      ensures a in after <==> a in before || (a == alerts[key] && Matches(a, f))
    {
      FoundById(Untouched(alerts, todo), f, a);
      FoundById(Untouched(alerts, todo - {key}), f, a);
    }
  }

  /**
    A page is the newest part of the matches: all its alerts match, none is repeated, it is
    sorted, and no match left out is newer than one that was returned.
  */
  lemma PageIsNewest(alerts: map<string, Alert>, f: Filter, page: seq<Alert>, rest: seq<Alert>)
    requires multiset(page + rest) == multiset(Matching(alerts, f)) && NewestFirst(page + rest)
    ensures forall i | 0 <= i < |page| :: page[i] in Matching(alerts, f)
    ensures forall i, j | 0 <= i < j < |page| :: page[i] != page[j] && page[i].firedAt >= page[j].firedAt
    ensures forall a, i | a in Matching(alerts, f) && a !in page && 0 <= i < |page| :: a.firedAt <= page[i].firedAt
  {
    var all := page + rest;
    forall i | 0 <= i < |page|
      ensures page[i] in Matching(alerts, f)
    {
      assert all[i] == page[i] && all[i] in multiset(all);
    }
    forall i, j | 0 <= i < j < |page|
      ensures page[i] != page[j] && page[i].firedAt >= page[j].firedAt
    {
      assert all[i] == page[i] && all[j] == page[j];
      NoRepeats(all, Matching(alerts, f), i, j);
    }
    forall a, i | a in Matching(alerts, f) && a !in page && 0 <= i < |page|
      ensures a.firedAt <= page[i].firedAt
    {
      assert a in multiset(all) && a in all && a in rest;
      var j :| 0 <= j < |rest| && rest[j] == a;
      assert all[i] == page[i] && all[|page| + j] == a;
    }
  }

  lemma NoRepeats(all: seq<Alert>, s: set<Alert>, i: nat, j: nat)
    requires multiset(all) == multiset(s) && i < j < |all|
    ensures all[i] != all[j]
  {
    assert all == all[..i] + [all[i]] + all[i + 1..j] + [all[j]] + all[j + 1..];
    assert all[i] == all[j] ==> multiset(all)[all[i]] >= 2;
  }
}
