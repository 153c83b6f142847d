/** `DiscordClientHealth.report_status`: the health of the Discord client, checked in a fixed order. */
module DiscordHealth {

  /** What the check reads from the client. */
  datatype ClientState = ClientState(latency: real, ready: bool, closed: bool, authenticated: bool)

  const Healthy: string := "Discord Client is healthy and connected"
  const LatencyTooHigh: string := "Discord Client's latency is too high"
  const CacheNotReady: string := "Discord Client's internal cache is not ready"
  const WebsocketClosed: string := "Discord Client's websocket connection is closed"
  const NotAuthenticated: string := "Discord Client is not authenticated"

  /**
   * `report_status`: the first failing check names the status; the latency
   * check comes first, then readiness, the websocket and the user.
   */
  function ReportStatus(c: ClientState, maxLatency: real): (r: (string, bool))
    ensures r.1 <==> c.latency <= maxLatency && c.ready && !c.closed && c.authenticated
    ensures r.1 ==> r.0 == Healthy
    ensures c.latency > maxLatency ==> r == (LatencyTooHigh, false)
    ensures c.latency <= maxLatency && !c.ready ==> r == (CacheNotReady, false)
    ensures c.latency <= maxLatency && c.ready && c.closed ==> r == (WebsocketClosed, false)
    ensures c.latency <= maxLatency && c.ready && !c.closed && !c.authenticated ==> r == (NotAuthenticated, false)
  {
    if c.latency > maxLatency then (LatencyTooHigh, false)
    else if !c.ready then (CacheNotReady, false)
    else if c.closed then (WebsocketClosed, false)
    else if !c.authenticated then (NotAuthenticated, false)
    else (Healthy, true)
  }

  /** The status string alone tells whether the client is healthy. */
  lemma StatusDeterminesHealth(c: ClientState, maxLatency: real)
    ensures ReportStatus(c, maxLatency).1 <==> ReportStatus(c, maxLatency).0 == Healthy
  {
  }
}
