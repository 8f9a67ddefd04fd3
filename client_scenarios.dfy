/**
 * Runs of the client through the event sequences of its unit tests
 * (test/client.unit.js), each stating what the user's callbacks receive.
 * Handle 0 is the local probe, handle 1 the control socket.
 */
module ClientScenarios {
  import opened Wrappers
  import opened TunnelClient

  /** `connect` with a reachable local service: the probe has ended and the control socket (handle 1) is dialing. */
  method Started(config: Config, uuid: string, cb: Callback) returns (c: Client)
    ensures fresh(c) && c.Valid() && c.config == config && c.uuid == uuid
    ensures c.socket == Some(1) && |c.sockets| == 2 && !c.sockets[1].destroyed && c.sockets[1].writes == []
    ensures c.masters == map[1 := Master(cb, Connecting)] && c.probes == map[] && c.reports == []
    ensures !c.closed && !c.connected && c.closeWaiters == map[]
  {
    c := new Client(config, uuid);
    c.Connect(cb);
    c.ProbeFinished(0, true);
  }

  /** Then the control socket connects and sends the handshake; the ack is awaited. */
  method Handshaking(config: Config, uuid: string, cb: Callback) returns (c: Client)
    ensures fresh(c) && c.Valid() && c.config == config && c.uuid == uuid
    ensures c.socket == Some(1) && |c.sockets| == 2 && !c.sockets[1].destroyed && c.sockets[1].writes == [Handshake(uuid)]
    ensures c.masters == map[1 := Master(cb, AwaitingAck)] && c.handshakeTimers == {1}
    ensures c.probes == map[] && c.reports == [] && !c.closed && !c.connected && c.closeWaiters == map[]
  {
    c := Started(config, uuid, cb);
    c.MasterConnected(1);
  }

  /** An error on the control socket before it connects reaches the callback of `connect`. */
  method ErrorBeforeConnect(config: Config, uuid: string) returns (reports: seq<Report>, probes: set<SocketId>)
    ensures reports == [ConnectFailed(TransportError)]
    ensures probes == {}
  {
    var c := Started(config, uuid, UserCallback);
    c.MasterError(1);
    reports := c.reports;
    probes := c.probes.Keys;
  }

  /** An error after a successful handshake closes and reconnects once, with no callback. */
  method ErrorAfterHandshake(config: Config, uuid: string) returns (reports: seq<Report>, probes: map<SocketId, Callback>)
    ensures reports == []
    ensures probes == map[2 := NoCallback]
  {
    var c := Handshaking(config, uuid, NoCallback);
    c.MasterData(1, Json(true, None));
    c.MasterError(1);
    reports := c.reports;
    probes := c.probes;
  }

  /** No ack within 1000 ms: once the control socket has closed, the callback gets ServerDoesNotRespond. */
  method HandshakeTimesOut(config: Config, uuid: string) returns (reports: seq<Report>, connected: bool)
    ensures reports == [ConnectFailed(ServerDoesNotRespond)]
    ensures !connected
  {
    var c := Handshaking(config, uuid, UserCallback);
    c.HandshakeTimeout(1);
    c.MasterClosed(1);
    reports := c.reports;
    connected := c.connected;
  }

  /** An ack with a falsy `ok`: once the control socket has closed, the callback gets ClosedByServer. */
  method HandshakeRejected(config: Config, uuid: string) returns (reports: seq<Report>, closed: bool)
    ensures reports == [ConnectFailed(ClosedByServer)]
    ensures closed
  {
    var c := Handshaking(config, uuid, UserCallback);
    c.MasterData(1, Json(false, None));
    c.MasterClosed(1);
    reports := c.reports;
    closed := c.closed;
  }

  /** A good ack: the callback gets the tunnel name, and the first ping tick writes `ping` after the handshake. */
  method HandshakeAccepted(config: Config, uuid: string) returns (reports: seq<Report>, writes: seq<Message>)
    ensures reports == [Connected(uuid + "." + config.remoteServer.host)]
    ensures writes == [Handshake(uuid), Ping]
  {
    var c := Handshaking(config, uuid, UserCallback);
    c.MasterData(1, Json(true, None));
    c.PingTick(1);
    reports := c.reports;
    writes := c.sockets[1].writes;
  }

  /** An unreachable local service: the callback gets LocalUnreachable and the client is not connected. */
  method LocalServiceDown(config: Config, uuid: string) returns (reports: seq<Report>, connected: bool)
    ensures reports == [ConnectFailed(LocalUnreachable)]
    ensures !connected
  {
    var c := new Client(config, uuid);
    c.Connect(UserCallback);
    c.ProbeFinished(0, false);
    reports := c.reports;
    connected := c.connected;
  }

  /** `close` on an open control socket marks the client closed and destroys the socket; its callback waits for the close event. */
  method CloseOpenControl(config: Config, uuid: string) returns (closed: bool, destroyed: bool, before: seq<Report>, after: seq<Report>)
    ensures closed && destroyed
    ensures before == [] && after == [CloseDone]
  {
    var c := Started(config, uuid, NoCallback);
    c.Close(ReportClosed);
    closed := c.closed;
    destroyed := c.sockets[1].destroyed;
    before := c.reports;
    c.MasterClosed(1);
    after := c.reports;
  }

  /** A good ack on the control socket: the callback of `connect` has the tunnel name. */
  method Acked(config: Config, uuid: string) returns (c: Client)
    ensures fresh(c) && c.Valid() && c.socket == Some(1) && |c.sockets| == 2 && !c.sockets[1].destroyed
    ensures 1 in c.masters && c.reports == [Connected(uuid + "." + config.remoteServer.host)] && !c.closed
  {
    c := Handshaking(config, uuid, UserCallback);
    c.MasterData(1, Json(true, None));
  }

  /**
   * The relay closes the control socket cleanly after the ack. The client only
   * logs it, so a later `close` finds the socket gone: its callback runs at
   * once and `closed` stays unset.
   */
  method PeerClosesControl(config: Config, uuid: string) returns (reports: seq<Report>, closed: bool)
    ensures reports == [Connected(uuid + "." + config.remoteServer.host), CloseDone]
    ensures !closed
  {
    var c := Acked(config, uuid);
    c.MasterPeerClosed(1);
    c.Close(ReportClosed);
    reports := c.reports;
    closed := c.closed;
  }

  /**
   * An error on the control socket while the ack is awaited: the client closes
   * and reconnects with a new probe (handle 2) and control socket (handle 3).
   */
  method Reconnected(config: Config, uuid: string) returns (c: Client)
    ensures fresh(c) && c.Valid() && c.socket == Some(3) && |c.sockets| == 4 && !c.sockets[3].destroyed
    ensures c.masters == map[1 := Master(UserCallback, AwaitingAck), 3 := Master(NoCallback, Connecting)]
    ensures c.handshakeTimers == {1} && c.reports == [] && c.closeWaiters == map[]
  {
    c := Handshaking(config, uuid, UserCallback);
    c.MasterError(1);
    c.ProbeFinished(2, true);
  }

  /**
   * An error on the control socket while the ack is awaited reconnects, but
   * the first socket's handshake timer stays armed. When it fires it closes
   * the new control socket (handle 3) and, once that has closed, reports
   * ServerDoesNotRespond to the callback of the first `connect`.
   */
  method StaleHandshakeTimer(config: Config, uuid: string) returns (reports: seq<Report>, newSocketDestroyed: bool)
    ensures newSocketDestroyed
    ensures reports == [ConnectFailed(ServerDoesNotRespond)]
  {
    var c := Reconnected(config, uuid);
    c.HandshakeTimeout(1);
    assert c.closeWaiters == map[3 := SetupFailed(UserCallback, ServerDoesNotRespond)];
    newSocketDestroyed := c.sockets[3].destroyed;
    c.MasterClosed(3);
    reports := c.reports;
  }

  /** With the timer cleared on the error, the reconnected control socket is left alone and nothing is reported. */
  method NoStaleHandshakeTimer(config: Config, uuid: string) returns (timers: set<SocketId>, newSocketLive: bool, reports: seq<Report>)
    ensures timers == {} && newSocketLive && reports == []
  {
    var c := Handshaking(config, uuid, UserCallback);
    c.MasterErrorClearingTimer(1);
    c.ProbeFinished(2, true);
    timers := c.handshakeTimers;
    newSocketLive := !c.sockets[3].destroyed;
    reports := c.reports;
  }
}
