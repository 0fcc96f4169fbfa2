/** The event router: two consumer tables keyed by device SID, one for
    heartbeats and one for reports. */
module EventRouter {
  import opened Envelope

  const HeartbeatCmd: string := "heartbeat"
  const ReportCmd: string := "report"

  /** A registered callback, named by what it is bound to: the transport's own
      gateway-heartbeat logger, or the heartbeat or report handler of the
      typed sensor stored at `slot` of the gateway's device collection. */
  datatype Consumer = GatewayHeartbeat | SensorHeartbeat(slot: nat) | SensorReport(slot: nat)

  datatype Router = Router(heartbeat: map<string, Consumer>, report: map<string, Consumer>)

  /** The outcome of `processIncomingEvent`: one consumer invoked with the raw
      `data`, nothing for an unknown SID, or a logged unknown event. */
  datatype Dispatch = Invoke(consumer: Consumer, data: string) | NoConsumer | UnknownEvent

  function Empty(): Router {
    Router(map[], map[])
  }

  /** `RegisterHeartBeatConsumer`: the latest registration for a SID wins. */
  function RegisterHeartbeat(r: Router, sid: string, c: Consumer): (r': Router)
    ensures r'.heartbeat.Keys == r.heartbeat.Keys + {sid} && r'.heartbeat[sid] == c
    ensures forall k :: k in r.heartbeat && k != sid ==> r'.heartbeat[k] == r.heartbeat[k]
    ensures r'.report == r.report
  {
    r.(heartbeat := r.heartbeat[sid := c])
  }

  /** `RegisterReportConsumer`: touches the report table only. */
  function RegisterReport(r: Router, sid: string, c: Consumer): (r': Router)
    ensures r'.report.Keys == r.report.Keys + {sid} && r'.report[sid] == c
    ensures forall k :: k in r.report && k != sid ==> r'.report[k] == r.report[k]
    ensures r'.heartbeat == r.heartbeat
  {
    r.(report := r.report[sid := c])
  }

  /** `processIncomingEvent` for an envelope whose command has no ack suffix. */
  function ProcessEvent(r: Router, m: Message): (d: Dispatch)
    ensures d.UnknownEvent? <==> m.cmd != HeartbeatCmd && m.cmd != ReportCmd
    ensures d.Invoke? <==>
      ((m.cmd == HeartbeatCmd && m.sid in r.heartbeat) || (m.cmd == ReportCmd && m.sid in r.report))
    ensures d.Invoke? ==> d.data == m.data
    ensures d.Invoke? && m.cmd == HeartbeatCmd ==> d.consumer == r.heartbeat[m.sid]
    ensures d.Invoke? && m.cmd == ReportCmd ==> d.consumer == r.report[m.sid]
  {
    if m.cmd == HeartbeatCmd then
      if m.sid in r.heartbeat then Invoke(r.heartbeat[m.sid], m.data) else NoConsumer
    else if m.cmd == ReportCmd then
      if m.sid in r.report then Invoke(r.report[m.sid], m.data) else NoConsumer
    else UnknownEvent
  }

  /** Of two registrations for one SID only the later one is ever invoked. */
  lemma LaterRegistrationWins(r: Router, sid: string, c1: Consumer, c2: Consumer, m: Message)
    requires m.sid == sid && m.cmd == HeartbeatCmd
    ensures ProcessEvent(RegisterHeartbeat(RegisterHeartbeat(r, sid, c1), sid, c2), m) == Invoke(c2, m.data)
  {
  }

  /** Registering a report consumer never changes how heartbeats are routed,
      and registering a heartbeat consumer never changes how reports are. */
  lemma TablesIndependent(r: Router, sid: string, c: Consumer, m: Message)
    ensures m.cmd == HeartbeatCmd ==> ProcessEvent(RegisterReport(r, sid, c), m) == ProcessEvent(r, m)
    ensures m.cmd == ReportCmd ==> ProcessEvent(RegisterHeartbeat(r, sid, c), m) == ProcessEvent(r, m)
  {
    assert HeartbeatCmd != ReportCmd by { assert |HeartbeatCmd| != |ReportCmd|; }
  }
}
