/** The messages the server pushes to its WebSocket clients. */
module Protocol {
  import opened Events

  datatype AlertState = Firing | Resolved

  datatype Alert = Alert(id: nat, rule: Label, state: AlertState, firedAt: int)

  /** A snapshot is reduced to the watermark it was built through; its numbers are the business of
      the metrics module. */
  datatype Message =
    | Hello(activeAlerts: seq<Alert>, recent: seq<Event>)
    | AlertChange(alert: Alert)
    | Ping
    | Snapshot(throughSeq: int)
    | Feed(items: seq<Event>)
}
