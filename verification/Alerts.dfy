/** Alerts and their state transition events (internal/alertmanager/types.go). */
module Alerts {
  import opened Common

  datatype Status = Firing | Acknowledged | Resolved | Silenced

  datatype Severity = Info | Warning | Critical | OtherSeverity(text: string)

  datatype TargetRef = TargetRef(name: string, namespace: string, kind: string)

  type Labels = map<string, string>

  /** The part of an alert that describes its cause; no operation changes it. Nil labels are None. */
  datatype Cause = Cause(
    rule: string, target: TargetRef, severity: Severity, layer: string, code: string, blastRadius: string,
    affectedNodes: seq<string>, labels: Option<Labels>, annotations: Option<Labels>)

  /** The value of an alert. */
  datatype Alert = Alert(
    id: string, cause: Cause, status: Status, firedAt: Time, resolvedAt: Option<Time>,
    acknowledgedAt: Option<Time>, acknowledgedBy: string,
    silencedAt: Option<Time>, silencedBy: string, silenceReason: string, silenceEndsAt: Option<Time>,
    consecutiveFailures: int, lastUpdatedAt: Time, notificationCount: int)

  /** A state transition; the event of a new alert has no previous state. */
  datatype Event = Event(
    id: string, alertId: string, kind: string, from: Option<Status>, to: Status, reason: string, user: string, at: Time)

  /** Alerts with the same deduplication key are about the same problem. */
  datatype DedupKey = DedupKey(name: string, namespace: string, layer: string, code: string)

  function KeyOf(c: Cause): DedupKey {
    DedupKey(c.target.name, c.target.namespace, c.layer, c.code)
  }

  /** What a Go pointer to an alert points at: a cell that holds an alert and is updated in place. */
  class AlertCell {
    /** Whether the cell was made to be kept by the store, out of everyone else's reach. */
    ghost const archived: bool
    var value: Alert

    constructor (value: Alert, ghost archived: bool)
      ensures this.value == value && this.archived == archived
    {
      this.value, this.archived := value, archived;
    }
  }
}
