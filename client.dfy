/**
 * The tunnel client of lib/client.js as an event-driven state machine.
 *
 * Every socket the client opens is a handle (an index into `sockets`) whose
 * state is whether it was destroyed or ended and the list of everything written
 * to it. Each callback the source registers on a socket or a timer becomes a
 * method that the environment calls when that event happens; its precondition
 * says that the handler is registered and, for socket events, that the socket
 * has not been destroyed (Node.js delivers no events from a destroyed socket,
 * and a socket that reports an error has already been destroyed).
 */
module TunnelClient {
  import opened Wrappers
  import opened Utf8
  import HostRewriter

  datatype ServerAddress = ServerAddress(host: string, port: int)

  /** The settings the client reads. */
  datatype Config = Config(localServer: ServerAddress, remoteServer: ServerAddress, rewriteHost: Option<string>)

  type SocketId = nat

  /** What the client writes to a socket. */
  datatype Message =
    | Handshake(uuid: string)                            // JSON of {uuid}
    | Claim(uuid: string, requestToken: Option<string>)  // JSON of {uuid, request_token}
    | Ping                                               // the literal bytes `ping`
    | Forward(bytes: seq<Byte>)                          // bytes passed through a bridge

  datatype Socket = Socket(destroyed: bool, ended: bool, writes: seq<Message>)

  const Fresh := Socket(false, false, [])

  /** The sockets after `socket.destroy()` on `id`; destroying twice changes nothing more. */
  function DestroyAt(ss: seq<Socket>, id: SocketId): (r: seq<Socket>)
    requires id < |ss|
    ensures |r| == |ss| && r[id].destroyed && r[id].writes == ss[id].writes
    ensures forall i | 0 <= i < |ss| && i != id :: r[i] == ss[i]
  {
    ss[id := ss[id].(destroyed := true)]
  }

  lemma DestroyingTwice(ss: seq<Socket>, id: SocketId)
    requires id < |ss| && ss[id].destroyed
    ensures DestroyAt(ss, id) == ss
  {
  }

  /** The errors reported to the callback of `connect`. */
  datatype Error =
    | LocalUnreachable      // "Could not connect to local server (host:port)"
    | ServerDoesNotRespond  // "Server does not respond"
    | ClosedByServer        // "Connection was closed by server"
    | TransportError        // the socket's own error, passed through

  /** Whether `connect` was given a callback. */
  datatype Callback = NoCallback | UserCallback

  /** One invocation of a callback the user passed to `connect` or `close`. */
  datatype Report = Connected(tunnel: string) | ConnectFailed(error: Error) | CloseDone

  /** The callback handed to `close`, run once the control socket has closed. */
  datatype Continuation =
    | Nothing                                    // close() without a callback
    | ReportFailure(error: Error)                // the user's callback bound to an error
    | SetupFailed(cb: Callback, error: Error)    // the callback of __setup_master bound to an error
    | Reconnect                                  // connect() after an error on an established channel
    | ReportClosed                               // the user's callback of close()

  /** The close continuation that reports `e` to the callback of `connect`, if there is one. */
  function FailureFor(cb: Callback, e: Error): Continuation {
    if cb.UserCallback? then ReportFailure(e) else Nothing
  }

  /** What the user's callbacks receive when continuation `k` runs with no open control socket. */
  function Reported(k: Continuation): seq<Report> {
    match k
    case ReportFailure(e) => [ConnectFailed(e)]
    case SetupFailed(cb, e) => if cb.UserCallback? then [ConnectFailed(e)] else []
    case ReportClosed => [CloseDone]
    case _ => []
  }

  function Rank(k: Continuation): nat {
    if k.SetupFailed? then 2 else 1
  }

  /** Where the handshake on a control socket stands. */
  datatype Stage = Connecting | AwaitingAck | Acked | Rejected

  datatype Master = Master(cb: Callback, stage: Stage)

  /** A message on the control socket, as far as the client parses it. */
  datatype ControlData =
    | Pong                                       // exactly the text `pong`
    | Malformed                                  // not JSON
    | Json(ok: bool, request: Option<string>)    // truthy `ok`, and the `request` field

  /** A data connection: dialing the relay, waiting to be selected, or bridged to a local socket. */
  datatype DataStage =
    | Dialing
    | AwaitingData
    | Bridge(local: SocketId, pending: Option<seq<Byte>>, tornDown: bool)

  datatype DataConn = DataConn(requestToken: Option<string>, stage: DataStage)

  ghost predicate OpenBridge(dataConns: map<SocketId, DataConn>, r: SocketId) {
    r in dataConns && dataConns[r].stage.Bridge? && !dataConns[r].stage.tornDown
  }

  /** Every handle remembered names a socket that was opened. */
  ghost predicate HandlesBounded(socket: Option<SocketId>, sockets: seq<Socket>, probes: map<SocketId, Callback>,
    masters: map<SocketId, Master>, closeWaiters: map<SocketId, Continuation>, dataConns: map<SocketId, DataConn>)
  {
    && (socket.Some? ==> socket.value < |sockets|)
    && (forall s | s in probes :: s < |sockets|)
    && (forall s | s in masters :: s < |sockets|)
    && (forall s | s in closeWaiters :: s < |sockets| && sockets[s].destroyed)
    && (forall r | r in dataConns :: r < |sockets|)
    && (forall r | r in dataConns && dataConns[r].stage.Bridge? :: dataConns[r].stage.local < |sockets|)
  }

  /** Handshake timers run only while the ack is awaited, ping timers only on acked channels. */
  ghost predicate TimersOn(handshakeTimers: set<SocketId>, pingTimers: set<SocketId>, pingInterval: Option<SocketId>, masters: map<SocketId, Master>)
  {
    && (forall s | s in handshakeTimers :: s in masters && masters[s].stage == AwaitingAck)
    && (forall s | s in pingTimers :: s in masters && masters[s].stage == Acked)
    && (pingInterval.Some? ==> pingInterval.value in pingTimers)
  }

  /** Only open bridges listen for the client's 'close'; a torn-down bridge has both sockets destroyed. */
  ghost predicate BridgesOf(closeListeners: set<SocketId>, dataConns: map<SocketId, DataConn>, sockets: seq<Socket>)
  {
    && (forall r | r in closeListeners :: OpenBridge(dataConns, r))
    && (forall r | r in dataConns && dataConns[r].stage.Bridge? && dataConns[r].stage.tornDown ::
          r < |sockets| && dataConns[r].stage.local < |sockets| &&
          sockets[r].destroyed && sockets[dataConns[r].stage.local].destroyed)
  }

  /** The bridge on relay socket `r` with both of its sockets destroyed and marked torn down. */
  function TearDown(dataConns: map<SocketId, DataConn>, r: SocketId): map<SocketId, DataConn>
    requires r in dataConns && dataConns[r].stage.Bridge?
  {
    dataConns[r := dataConns[r].(stage := dataConns[r].stage.(tornDown := true))]
  }

  lemma TearDownBounded(socket: Option<SocketId>, sockets: seq<Socket>, probes: map<SocketId, Callback>,
    masters: map<SocketId, Master>, closeWaiters: map<SocketId, Continuation>, dataConns: map<SocketId, DataConn>, r: SocketId)
    requires HandlesBounded(socket, sockets, probes, masters, closeWaiters, dataConns)
    requires r in dataConns && dataConns[r].stage.Bridge?
    ensures var ss := DestroyAt(DestroyAt(sockets, dataConns[r].stage.local), r);
      HandlesBounded(socket, ss, probes, masters, closeWaiters, TearDown(dataConns, r))
  {
  }

  lemma TearDownBridges(closeListeners: set<SocketId>, dataConns: map<SocketId, DataConn>, sockets: seq<Socket>, r: SocketId)
    requires BridgesOf(closeListeners, dataConns, sockets)
    requires r in dataConns && dataConns[r].stage.Bridge? && r < |sockets| && dataConns[r].stage.local < |sockets|
    ensures var ss := DestroyAt(DestroyAt(sockets, dataConns[r].stage.local), r);
      BridgesOf(closeListeners - {r}, TearDown(dataConns, r), ss)
  {
  }

  /** The sockets of the bridges `rs`: each bridge's relay socket and its local socket. */
  function BridgeSockets(rs: set<SocketId>, dc: map<SocketId, DataConn>): set<SocketId> {
    rs + set r | r in rs && r in dc && dc[r].stage.Bridge? :: dc[r].stage.local
  }

  /** The sockets after `destroy()` on each of `ids`. */
  function DestroyAll(ss: seq<Socket>, ids: set<SocketId>): seq<Socket> {
    seq(|ss|, i requires 0 <= i < |ss| => if i in ids then ss[i].(destroyed := true) else ss[i])
  }

  /** The data connections with each bridge of `rs` marked torn down. */
  function MarkTornDown(dc: map<SocketId, DataConn>, rs: set<SocketId>): map<SocketId, DataConn> {
    map q | q in dc :: if q in rs && dc[q].stage.Bridge? then dc[q].(stage := dc[q].stage.(tornDown := true)) else dc[q]
  }

  /** Destroying a set of sockets destroys exactly those; nothing else about any socket changes. */
  lemma DestroyAllFrame(ss: seq<Socket>, ids: set<SocketId>)
    ensures |DestroyAll(ss, ids)| == |ss|
    ensures forall i | 0 <= i < |ss| ::
      && DestroyAll(ss, ids)[i].destroyed == (ss[i].destroyed || i in ids)
      && DestroyAll(ss, ids)[i].ended == ss[i].ended
      && DestroyAll(ss, ids)[i].writes == ss[i].writes
  {
  }

  /** Marking bridges torn down keeps every data connection, and changes only the marked bridges' flag. */
  lemma MarkTornDownFrame(dc: map<SocketId, DataConn>, rs: set<SocketId>)
    ensures MarkTornDown(dc, rs).Keys == dc.Keys
    ensures forall q | q in dc && q !in rs :: MarkTornDown(dc, rs)[q] == dc[q]
    ensures forall q | q in dc && q in rs && dc[q].stage.Bridge? ::
      MarkTornDown(dc, rs)[q].stage == dc[q].stage.(tornDown := true) && MarkTornDown(dc, rs)[q].requestToken == dc[q].requestToken
  {
  }

  lemma NothingTornDown(dc: map<SocketId, DataConn>, ss: seq<Socket>)
    ensures MarkTornDown(dc, {}) == dc && DestroyAll(ss, BridgeSockets({}, dc)) == ss
  {
    assert BridgeSockets({}, dc) == {};
  }

  /**
   * Tearing down one more bridge `r`, after the bridges `done`: the cleanUp of
   * `r` marks it and destroys its two sockets, which extends `done` by `r`.
   */
  lemma TearDownStep(dc0: map<SocketId, DataConn>, ss0: seq<Socket>, done: set<SocketId>, r: SocketId)
    requires r !in done && r in dc0 && dc0[r].stage.Bridge? && r < |ss0| && dc0[r].stage.local < |ss0|
    ensures MarkTornDown(dc0, done)[r] == dc0[r]
    ensures TearDown(MarkTornDown(dc0, done), r) == MarkTornDown(dc0, done + {r})
    ensures DestroyAt(DestroyAt(DestroyAll(ss0, BridgeSockets(done, dc0)), dc0[r].stage.local), r)
         == DestroyAll(ss0, BridgeSockets(done + {r}, dc0))
  {
    assert BridgeSockets(done + {r}, dc0) == BridgeSockets(done, dc0) + {r, dc0[r].stage.local};
    assert TearDown(MarkTornDown(dc0, done), r) == MarkTornDown(dc0, done + {r});
  }

  /** Moving one element from the remaining set to the done set keeps them a partition of `all`. */
  lemma MoveToDone(all: set<SocketId>, done: set<SocketId>, rest: set<SocketId>, r: SocketId)
    requires done !! rest && done + rest == all && r in rest
    ensures (done + {r}) !! (rest - {r}) && (done + {r}) + (rest - {r}) == all
  {
  }

  /** Every bridge that was open and is in the marked set is torn down. */
  lemma TornDownMarked(dc0: map<SocketId, DataConn>, rs: set<SocketId>)
    requires forall r | r in rs :: OpenBridge(dc0, r)
    ensures forall r | r in rs :: r in MarkTornDown(dc0, rs) && MarkTornDown(dc0, rs)[r].stage.Bridge? && MarkTornDown(dc0, rs)[r].stage.tornDown
  {
  }

  /** Destroying a socket that is destroyed again later changes nothing more. */
  lemma DestroyAbsorbed(ss: seq<Socket>, a: SocketId, b: SocketId)
    requires a < |ss| && b < |ss|
    ensures DestroyAt(DestroyAt(DestroyAt(ss, b), a), b) == DestroyAt(DestroyAt(ss, a), b)
  {
  }

  class Client {
    const config: Config
    const uuid: string
    var socket: Option<SocketId>        // this.socket, the control connection
    var closed: bool
    var connected: bool
    var pingInterval: Option<SocketId>  // this.__ping_interval, named by the socket it pings
    var pingTimers: set<SocketId>       // ping intervals still running
    var handshakeTimers: set<SocketId>  // armed 1000 ms handshake timers
    var sockets: seq<Socket>            // every socket opened so far
    var probes: map<SocketId, Callback> // local reachability probes in flight
    var masters: map<SocketId, Master>  // control sockets and their handshake
    var closeWaiters: map<SocketId, Continuation>  // close() callbacks waiting for a socket's close event
    var dataConns: map<SocketId, DataConn>         // data connections, by their relay socket
    var closeListeners: set<SocketId>   // bridges subscribed to the client's 'close' event
    var reports: seq<Report>            // the user's callbacks, in the order they ran

    /** The invariant every event keeps. */
    ghost predicate Valid()
      reads this`socket, this`sockets, this`probes, this`masters, this`closeWaiters, this`dataConns
      reads this`handshakeTimers, this`pingTimers, this`pingInterval, this`closeListeners
    {
      Bounded() && TimersArmed() && BridgesSafe()
    }

    /** The three parts of Valid, each reading only the fields it constrains. */
    ghost predicate Bounded()
      reads this`socket, this`sockets, this`probes, this`masters, this`closeWaiters, this`dataConns
    {
      HandlesBounded(socket, sockets, probes, masters, closeWaiters, dataConns)
    }

    ghost predicate TimersArmed()
      reads this`handshakeTimers, this`pingTimers, this`pingInterval, this`masters
    {
      TimersOn(handshakeTimers, pingTimers, pingInterval, masters)
    }

    ghost predicate BridgesSafe()
      reads this`closeListeners, this`dataConns, this`sockets
    {
      BridgesOf(closeListeners, dataConns, sockets)
    }

    ghost predicate IsOpenBridge(r: SocketId)
      reads this`dataConns
    {
      OpenBridge(dataConns, r)
    }

    ghost predicate IsClosedBridge(r: SocketId)
      reads this`dataConns
    {
      r in dataConns && dataConns[r].stage.Bridge? && dataConns[r].stage.tornDown
    }

    /** The bridge on relay socket `r` is torn down: both of its sockets are destroyed. */
    ghost predicate TornDown(r: SocketId)
      reads this
    {
      && r in dataConns && dataConns[r].stage.Bridge? && dataConns[r].stage.tornDown
      && r < |sockets| && dataConns[r].stage.local < |sockets|
      && sockets[r].destroyed && sockets[dataConns[r].stage.local].destroyed
    }

    /** The control socket is set and not destroyed. */
    predicate LiveControl()
      reads this
      requires Valid()
    {
      socket.Some? && !sockets[socket.value].destroyed
    }

    ghost function PingSet(): set<SocketId>
      reads this
    {
      if pingInterval.Some? then {pingInterval.value} else {}
    }

    /** The tunnel name given to the callback of `connect`: "<uuid>.<remote host>". */
    function Tunnel(): string {
      uuid + "." + config.remoteServer.host
    }

    constructor (config: Config, uuid: string)
      ensures Valid() && this.config == config && this.uuid == uuid
      ensures socket == None && !closed && !connected && pingInterval == None
      ensures pingTimers == {} && handshakeTimers == {} && sockets == []
      ensures probes == map[] && masters == map[] && closeWaiters == map[] && dataConns == map[]
      ensures closeListeners == {} && reports == []
    {
      this.config := config;
      this.uuid := uuid;
      socket := None;
      closed := false;
      connected := false;
      pingInterval := None;
      pingTimers := {};
      handshakeTimers := {};
      sockets := [];
      probes := map[];
      masters := map[];
      closeWaiters := map[];
      dataConns := map[];
      closeListeners := {};
      reports := [];
    }

    // ---------------------------------------------------------------------
    // Socket primitives

    method Open() returns (id: SocketId)
      requires Valid()
      modifies this`sockets
      ensures Valid() && id == |old(sockets)| && sockets == old(sockets) + [Fresh]
    {
      id := |sockets|;
      sockets := sockets + [Fresh];
    }

    method Destroy(id: SocketId)
      requires Valid() && id < |sockets|
      modifies this`sockets
      ensures Valid() && sockets == DestroyAt(old(sockets), id)
    {
      sockets := DestroyAt(sockets, id);
    }

    method End(id: SocketId)
      requires Valid() && id < |sockets|
      modifies this`sockets
      ensures Valid() && sockets == old(sockets)[id := old(sockets)[id].(ended := true)]
    {
      sockets := sockets[id := sockets[id].(ended := true)];
    }

    method Write(id: SocketId, m: Message)
      requires Valid() && id < |sockets|
      modifies this`sockets
      ensures Valid() && sockets == old(sockets)[id := old(sockets)[id].(writes := old(sockets)[id].writes + [m])]
    {
      sockets := sockets[id := sockets[id].(writes := sockets[id].writes + [m])];
    }

    // ---------------------------------------------------------------------
    // connect, and the local reachability probe

    /** `connect(cb)`: probes the local service; the rest happens when the probe finishes. */
    method Connect(cb: Callback)
      requires Valid()
      modifies this`sockets, this`probes
      ensures Valid()
      ensures sockets == old(sockets) + [Fresh] && probes == old(probes)[|old(sockets)| := cb]
    {
      var p := Open();
      probes := probes[p := cb];
    }

    /**
     * The probe to the local service ends (`end` after a successful connect) or
     * fails (`error`). On failure Node.js has destroyed the probe socket, and the
     * client closes and then reports LocalUnreachable; on success it opens the
     * control connection.
     */
    method ProbeFinished(p: SocketId, reachable: bool)
      requires Valid() && p in probes
      modifies this
      ensures Valid()
      ensures reachable ==>
        && socket == Some(|old(sockets)|)
        && sockets == old(sockets)[p := old(sockets)[p].(ended := true)] + [Fresh]
        && masters == old(masters)[|old(sockets)| := Master(old(probes)[p], Connecting)]
        && probes == old(probes) - {p} && reports == old(reports)
        && closed == old(closed) && connected == old(connected)
        && dataConns == old(dataConns) && closeListeners == old(closeListeners) && closeWaiters == old(closeWaiters)
        && pingInterval == old(pingInterval) && handshakeTimers == old(handshakeTimers)
      ensures !reachable && !old(LiveControl()) ==>
        && reports == old(reports) + Reported(FailureFor(old(probes)[p], LocalUnreachable))
        && probes == old(probes) - {p} && closed == old(closed) && connected == old(connected)
        && pingInterval == None && closeListeners == {}
        && sockets == DestroyAt(old(sockets), p) && dataConns == old(dataConns) && closeWaiters == old(closeWaiters)
        && masters == old(masters)
      ensures !reachable && old(LiveControl()) ==>
        && closed && reports == old(reports) && probes == old(probes) - {p}
        && old(socket).value < |sockets| && sockets[old(socket).value].destroyed
        && closeWaiters == old(closeWaiters)[old(socket).value := FailureFor(old(probes)[p], LocalUnreachable)]
        && closeListeners == {} && dataConns == MarkTornDown(old(dataConns), old(closeListeners))
        && p < |old(sockets)|
        && sockets == DestroyAt(DestroyAt(DestroyAll(old(sockets), BridgeSockets(old(closeListeners), old(dataConns))), old(socket).value), p)
    {
      var cb := probes[p];
      probes := probes - {p};
      if !reachable {
        ProbeFailed(p, FailureFor(cb, LocalUnreachable));
      } else {
        End(p);
        SetupMaster(cb);
      }
    }

    /** A failed probe: its socket destroyed and `close(k)`. */
    method ProbeFailed(p: SocketId, k: Continuation)
      requires Valid() && p < |sockets| && !k.Reconnect?
      modifies this
      ensures Valid()
      ensures pingInterval == None && closeListeners == {} && masters == old(masters)
      ensures socket == old(socket) && connected == old(connected) && probes == old(probes)
      ensures !old(LiveControl()) ==>
        && closed == old(closed) && reports == old(reports) + Reported(k)
        && closeWaiters == old(closeWaiters) && dataConns == old(dataConns)
        && sockets == DestroyAt(old(sockets), p)
      ensures old(LiveControl()) ==>
        && closed && reports == old(reports) && old(socket).value < |old(sockets)|
        && closeWaiters == old(closeWaiters)[old(socket).value := k]
        && dataConns == MarkTornDown(old(dataConns), old(closeListeners))
        && sockets == DestroyAt(DestroyAt(DestroyAll(old(sockets), BridgeSockets(old(closeListeners), old(dataConns))), old(socket).value), p)
    {
      Close(k);
      Destroy(p);
    }

    // ---------------------------------------------------------------------
    // close

    method ClearPingInterval()
      requires Valid()
      modifies this`pingInterval, this`pingTimers
      ensures Valid() && pingInterval == None && pingTimers == old(pingTimers) - old(PingSet())
    {
      if pingInterval.Some? {
        pingTimers := pingTimers - {pingInterval.value};
        pingInterval := None;
      }
    }

    /**
     * `close(k)`: always clears the ping interval. With an open control socket
     * it sets `closed`, emits the client's 'close' event (tearing down every
     * subscribed bridge), destroys the socket and leaves `k` waiting for the
     * socket's close event. Otherwise it drops the subscribed bridges without
     * tearing them down and runs `k` at once.
     */
    method Close(k: Continuation)
      requires Valid()
      modifies this
      ensures Valid()
      ensures pingInterval == None && pingTimers == old(pingTimers) - old(PingSet())
      ensures closeListeners == {}
      ensures masters == old(masters) && handshakeTimers == old(handshakeTimers)
      ensures socket == old(socket) && connected == old(connected)
      ensures |sockets| >= |old(sockets)|
      ensures old(LiveControl()) ==>
        && closed && reports == old(reports) && probes == old(probes)
        && closeWaiters == old(closeWaiters)[old(socket).value := k]
        && (forall r | r in old(closeListeners) :: TornDown(r))
        && dataConns == MarkTornDown(old(dataConns), old(closeListeners))
        && old(socket).value < |old(sockets)|
        && sockets == DestroyAt(DestroyAll(old(sockets), BridgeSockets(old(closeListeners), old(dataConns))), old(socket).value)
      ensures !old(LiveControl()) ==>
        && closed == old(closed) && reports == old(reports) + Reported(k)
        && closeWaiters == old(closeWaiters) && dataConns == old(dataConns)
        && (k.Reconnect? ==> sockets == old(sockets) + [Fresh] && probes == old(probes)[|old(sockets)| := NoCallback])
        && (!k.Reconnect? ==> sockets == old(sockets) && probes == old(probes))
    {
      if LiveControl() {
        CloseLive(k);
      } else {
        CloseIdle(k);
      }
    }

    /** `close(k)` with an open control socket. */
    method CloseLive(k: Continuation)
      requires Valid() && LiveControl()
      modifies this`pingInterval, this`pingTimers, this`closed, this`sockets, this`dataConns, this`closeListeners
      modifies this`closeWaiters
      ensures Valid()
      ensures pingInterval == None && pingTimers == old(pingTimers) - old(PingSet())
      ensures closeListeners == {}
      ensures masters == old(masters) && handshakeTimers == old(handshakeTimers)
      ensures socket == old(socket) && connected == old(connected)
      ensures closed && reports == old(reports) && probes == old(probes)
      ensures closeWaiters == old(closeWaiters)[socket.value := k]
      ensures forall r | r in old(closeListeners) :: TornDown(r)
      ensures dataConns == MarkTornDown(old(dataConns), old(closeListeners))
      ensures sockets == DestroyAt(DestroyAll(old(sockets), BridgeSockets(old(closeListeners), old(dataConns))), socket.value)
    {
      var s := socket.value;
      MarkClosed();
      AwaitClose(s, k);
      forall r | r in old(closeListeners)
        ensures TornDown(r)
      {
        assert IsClosedBridge(r);
      }
    }

    /** `socket.on('close', ...)` then `socket.destroy()`: the continuation waits for the close event. */
    method AwaitClose(s: SocketId, k: Continuation)
      requires Valid() && s < |sockets|
      modifies this`sockets, this`closeWaiters
      ensures Valid() && sockets == DestroyAt(old(sockets), s) && closeWaiters == old(closeWaiters)[s := k]
    {
      Destroy(s);
      closeWaiters := closeWaiters[s := k];
    }

    /** The first steps of `close` on an open control socket: stop pinging, set `closed`, emit 'close'. */
    method MarkClosed()
      requires Valid()
      modifies this`pingInterval, this`pingTimers, this`closed, this`sockets, this`dataConns, this`closeListeners
      ensures Valid() && closed && closeListeners == {}
      ensures pingInterval == None && pingTimers == old(pingTimers) - old(PingSet())
      ensures forall r | r in old(closeListeners) :: IsClosedBridge(r)
      ensures dataConns == MarkTornDown(old(dataConns), old(closeListeners))
      ensures sockets == DestroyAll(old(sockets), BridgeSockets(old(closeListeners), old(dataConns)))
    {
      ClearPingInterval();
      closed := true;
      EmitClose();
    }

    /** `close(k)` when the control socket is missing or destroyed. */
    method CloseIdle(k: Continuation)
      requires Valid() && !LiveControl()
      modifies this
      decreases Rank(k), 1
      ensures Valid()
      ensures pingInterval == None && pingTimers == old(pingTimers) - old(PingSet())
      ensures closeListeners == {}
      ensures masters == old(masters) && handshakeTimers == old(handshakeTimers)
      ensures socket == old(socket) && connected == old(connected)
      ensures closed == old(closed) && reports == old(reports) + Reported(k)
      ensures closeWaiters == old(closeWaiters) && dataConns == old(dataConns)
      ensures k.Reconnect? ==> sockets == old(sockets) + [Fresh] && probes == old(probes)[|old(sockets)| := NoCallback]
      ensures !k.Reconnect? ==> sockets == old(sockets) && probes == old(probes)
    {
      ClearPingInterval();
      closeListeners := {};
      Resume(k);
    }

    /** Runs a close continuation when no control socket is open. */
    method Resume(k: Continuation)
      requires Valid() && !LiveControl()
      modifies this
      decreases Rank(k), 0
      ensures Valid()
      ensures reports == old(reports) + Reported(k)
      ensures masters == old(masters) && handshakeTimers == old(handshakeTimers)
      ensures socket == old(socket) && connected == old(connected) && closed == old(closed)
      ensures closeWaiters == old(closeWaiters) && dataConns == old(dataConns)
      ensures k.Reconnect? ==> sockets == old(sockets) + [Fresh] && probes == old(probes)[|old(sockets)| := NoCallback]
      ensures !k.Reconnect? ==> sockets == old(sockets) && probes == old(probes)
      ensures k.SetupFailed? ==> pingInterval == None && pingTimers == old(pingTimers) - old(PingSet()) && closeListeners == {}
      ensures !k.SetupFailed? ==>
        pingInterval == old(pingInterval) && pingTimers == old(pingTimers) && closeListeners == old(closeListeners)
    {
      match k
      case Nothing =>
      case ReportFailure(e) =>
        reports := reports + [ConnectFailed(e)];
      case ReportClosed =>
        reports := reports + [CloseDone];
      case Reconnect =>
        Connect(NoCallback);
      case SetupFailed(cb, e) =>
        CloseIdle(FailureFor(cb, e));
    }

    /** The client's 'close' event: every subscribed bridge runs its cleanUp. */
    method EmitClose()
      requires Valid()
      modifies this`sockets, this`dataConns, this`closeListeners
      ensures Valid() && closeListeners == {}
      ensures forall r | r in old(closeListeners) :: IsClosedBridge(r)
      ensures dataConns == MarkTornDown(old(dataConns), old(closeListeners))
      ensures sockets == DestroyAll(old(sockets), BridgeSockets(old(closeListeners), old(dataConns)))
    {
      ghost var dc0, ss0, all := dataConns, sockets, closeListeners;
      ghost var done: set<SocketId> := {};
      NothingTornDown(dc0, ss0);
      while closeListeners != {}
        invariant Valid() && done !! closeListeners && done + closeListeners == all
        invariant dataConns == MarkTornDown(dc0, done) && sockets == DestroyAll(ss0, BridgeSockets(done, dc0))
        decreases |closeListeners|
      {
        var r :| r in closeListeners;
        MoveToDone(all, done, closeListeners, r);
        CleanUpListener(r, dc0, ss0, done);
        done := done + {r};
      }
      assert done == all;
      TornDownMarked(dc0, all);
    }

    /** One step of the 'close' event: the cleanUp of subscribed bridge `r`, the bridges `done` already torn down. */
    method CleanUpListener(r: SocketId, ghost dc0: map<SocketId, DataConn>, ghost ss0: seq<Socket>, ghost done: set<SocketId>)
      requires Valid() && r in closeListeners && r !in done
      requires dataConns == MarkTornDown(dc0, done) && sockets == DestroyAll(ss0, BridgeSockets(done, dc0))
      modifies this`sockets, this`dataConns, this`closeListeners
      ensures Valid() && closeListeners == old(closeListeners) - {r}
      ensures dataConns == MarkTornDown(dc0, done + {r}) && sockets == DestroyAll(ss0, BridgeSockets(done + {r}, dc0))
    {
      assert OpenBridge(dataConns, r);
      TearDownStep(dc0, ss0, done, r);
      CleanUp(r);
    }

    /** The control socket's close event, awaited by `close`: the client is disconnected and the continuation runs. */
    method MasterClosed(s: SocketId)
      requires Valid() && s in closeWaiters
      modifies this
      ensures Valid()
      ensures !connected && socket == None && closeWaiters == old(closeWaiters) - {s}
      ensures reports == old(reports) + Reported(old(closeWaiters)[s])
      ensures closed == old(closed) && dataConns == old(dataConns) && closeListeners == {}
      ensures masters == old(masters) && handshakeTimers == old(handshakeTimers)
      ensures old(closeWaiters)[s].Reconnect? ==>
        sockets == old(sockets) + [Fresh] && probes == old(probes)[|old(sockets)| := NoCallback]
      ensures !old(closeWaiters)[s].Reconnect? ==> sockets == old(sockets) && probes == old(probes)
      ensures old(closeWaiters)[s].SetupFailed? ==> pingInterval == None && pingTimers == old(pingTimers) - old(PingSet())
      ensures !old(closeWaiters)[s].SetupFailed? ==> pingInterval == old(pingInterval) && pingTimers == old(pingTimers)
    {
      var k := closeWaiters[s];
      closeWaiters := closeWaiters - {s};
      connected := false;
      socket := None;
      closeListeners := {};
      Resume(k);
    }

    // ---------------------------------------------------------------------
    // The control connection: __setup_master

    method SetupMaster(cb: Callback)
      requires Valid()
      modifies this`sockets, this`socket, this`masters
      ensures Valid() && socket == Some(|old(sockets)|) && sockets == old(sockets) + [Fresh]
      ensures masters == old(masters)[|old(sockets)| := Master(cb, Connecting)]
    {
      var s := Open();
      socket := Some(s);
      masters := masters[s := Master(cb, Connecting)];
    }

    /** The control socket connects: it sends `{"uuid": ...}` and arms the 1000 ms handshake timer. */
    method MasterConnected(s: SocketId)
      requires Valid() && s in masters && masters[s].stage == Connecting && !sockets[s].destroyed
      modifies this`masters, this`handshakeTimers, this`sockets
      ensures Valid()
      ensures masters == old(masters)[s := old(masters)[s].(stage := AwaitingAck)]
      ensures handshakeTimers == old(handshakeTimers) + {s}
      ensures sockets == old(sockets)[s := old(sockets)[s].(writes := old(sockets)[s].writes + [Handshake(uuid)])]
    {
      masters := masters[s := masters[s].(stage := AwaitingAck)];
      handshakeTimers := handshakeTimers + {s};
      Write(s, Handshake(uuid));
    }

    /**
     * An error on a control socket, which Node.js has destroyed. Before the
     * socket connected it goes to the callback of __setup_master, which closes
     * and reports it; afterwards it closes and reconnects.
     */
    method MasterError(s: SocketId)
      requires Valid() && s in masters && !sockets[s].destroyed
      modifies this
      ensures Valid() && pingInterval == None && closeListeners == {} && masters == old(masters)
      ensures handshakeTimers == old(handshakeTimers)
      ensures old(socket) == Some(s) ==>
        && s < |sockets| && sockets[s].destroyed
        && dataConns == old(dataConns) && closeWaiters == old(closeWaiters)
      ensures old(socket) == Some(s) && old(masters)[s].stage == Connecting ==>
        && reports == old(reports) + Reported(FailureFor(old(masters)[s].cb, TransportError))
        && probes == old(probes) && closed == old(closed) && connected == old(connected)
        && sockets == DestroyAt(old(sockets), s)
      ensures old(socket) == Some(s) && old(masters)[s].stage != Connecting ==>
        && reports == old(reports) && sockets == DestroyAt(old(sockets), s) + [Fresh]
        && probes == old(probes)[|old(sockets)| := NoCallback]
        && closed == old(closed) && connected == old(connected)
    {
      Destroy(s);
      var m := masters[s];
      if m.stage == Connecting {
        Close(FailureFor(m.cb, TransportError));
      } else {
        Close(Reconnect);
      }
    }

    /**
     * MasterError with the handshake timer of the socket that failed cleared
     * as well, as the ack handler clears it; every other effect is MasterError's.
     */
    method MasterErrorClearingTimer(s: SocketId)
      requires Valid() && s in masters && !sockets[s].destroyed
      modifies this
      ensures Valid() && pingInterval == None && closeListeners == {} && masters == old(masters)
      ensures handshakeTimers == old(handshakeTimers) - {s}
      ensures old(socket) == Some(s) ==>
        && s < |sockets| && sockets[s].destroyed
        && dataConns == old(dataConns) && closeWaiters == old(closeWaiters)
      ensures old(socket) == Some(s) && old(masters)[s].stage == Connecting ==>
        && reports == old(reports) + Reported(FailureFor(old(masters)[s].cb, TransportError))
        && probes == old(probes) && closed == old(closed) && connected == old(connected)
        && sockets == DestroyAt(old(sockets), s)
      ensures old(socket) == Some(s) && old(masters)[s].stage != Connecting ==>
        && reports == old(reports) && sockets == DestroyAt(old(sockets), s) + [Fresh]
        && probes == old(probes)[|old(sockets)| := NoCallback]
        && closed == old(closed) && connected == old(connected)
    {
      handshakeTimers := handshakeTimers - {s};
      MasterError(s);
    }

    /**
     * The relay closes a control socket cleanly. The socket's 'close' handler
     * only logs an unexpected close, which this is not, and Node.js destroys
     * the socket; nothing else changes, so a later `close` finds no open
     * control socket.
     */
    method MasterPeerClosed(s: SocketId)
      requires Valid() && s in masters && !sockets[s].destroyed
      modifies this`sockets
      ensures Valid() && sockets == DestroyAt(old(sockets), s)
    {
      Destroy(s);
    }

    /** The handshake timer fires before any data: close, then report ServerDoesNotRespond. */
    method HandshakeTimeout(s: SocketId)
      requires Valid() && s in handshakeTimers
      modifies this
      ensures Valid() && handshakeTimers == old(handshakeTimers) - {s} && masters == old(masters)
      ensures pingInterval == None && closeListeners == {}
      ensures socket == old(socket) && connected == old(connected)
      ensures old(LiveControl()) ==>
        && closed && reports == old(reports) && probes == old(probes)
        && dataConns == MarkTornDown(old(dataConns), old(closeListeners))
        && old(socket).value < |old(sockets)|
        && sockets == DestroyAt(DestroyAll(old(sockets), BridgeSockets(old(closeListeners), old(dataConns))), old(socket).value)
        && closeWaiters == old(closeWaiters)[old(socket).value := SetupFailed(old(masters)[s].cb, ServerDoesNotRespond)]
      ensures !old(LiveControl()) ==>
        && reports == old(reports) + Reported(SetupFailed(old(masters)[s].cb, ServerDoesNotRespond))
        && closed == old(closed) && sockets == old(sockets) && probes == old(probes)
        && dataConns == old(dataConns) && closeWaiters == old(closeWaiters)
    {
      handshakeTimers := handshakeTimers - {s};
      Close(SetupFailed(masters[s].cb, ServerDoesNotRespond));
    }

    /**
     * Data on a control socket. The first message is the handshake ack
     * (AckReceived); every later message may open a data connection; before
     * the socket connects, and after a rejected ack, no data handler is
     * registered.
     */
    method MasterData(s: SocketId, d: ControlData)
      requires Valid() && s in masters && !sockets[s].destroyed
      modifies this
      ensures Valid()
      ensures old(masters)[s].stage == AwaitingAck && d.Json? && d.ok ==>
        && masters == old(masters)[s := old(masters)[s].(stage := Acked)]
        && connected && pingInterval == Some(s) && pingTimers == old(pingTimers) + {s}
        && reports == old(reports) + (if old(masters)[s].cb.UserCallback? then [Connected(Tunnel())] else [])
        && sockets == old(sockets) && socket == old(socket) && probes == old(probes)
        && closeWaiters == old(closeWaiters) && handshakeTimers == old(handshakeTimers) - {s}
        && dataConns == old(dataConns) && closeListeners == old(closeListeners) && closed == old(closed)
      ensures old(masters)[s].stage == AwaitingAck && !(d.Json? && d.ok) ==>
        && masters == old(masters)[s := old(masters)[s].(stage := Rejected)]
        && pingInterval == None && handshakeTimers == old(handshakeTimers) - {s} && closeListeners == {}
        && socket == old(socket) && connected == old(connected) && probes == old(probes)
        && (old(LiveControl()) ==>
              && closed && reports == old(reports) && old(socket).value < |old(sockets)|
              && closeWaiters == old(closeWaiters)[old(socket).value := SetupFailed(old(masters)[s].cb, ClosedByServer)]
              && dataConns == MarkTornDown(old(dataConns), old(closeListeners))
              && sockets == DestroyAt(DestroyAll(old(sockets), BridgeSockets(old(closeListeners), old(dataConns))), old(socket).value))
        && (!old(LiveControl()) ==>
              && closed == old(closed) && reports == old(reports) + Reported(SetupFailed(old(masters)[s].cb, ClosedByServer))
              && closeWaiters == old(closeWaiters) && dataConns == old(dataConns) && sockets == old(sockets))
      ensures old(masters)[s].stage == Acked ==>
        && masters == old(masters) && reports == old(reports) && connected == old(connected)
        && closeListeners == old(closeListeners) && closeWaiters == old(closeWaiters) && probes == old(probes)
        && socket == old(socket) && closed == old(closed) && pingInterval == old(pingInterval)
        && handshakeTimers == old(handshakeTimers)
        && (d.Json? ==>
              && sockets == old(sockets) + [Fresh]
              && dataConns == old(dataConns)[|old(sockets)| := DataConn(d.request, Dialing)])
        && (!d.Json? ==> sockets == old(sockets) && dataConns == old(dataConns))
      ensures old(masters)[s].stage in {Connecting, Rejected} ==>
        && masters == old(masters) && sockets == old(sockets) && reports == old(reports)
        && dataConns == old(dataConns) && closeListeners == old(closeListeners) && closeWaiters == old(closeWaiters)
    {
      var m := masters[s];
      if m.stage == AwaitingAck {
        AckReceived(s, d);
      } else if m.stage == Acked {
        CreatePoolConnection(d);
      }
    }

    /**
     * The handshake ack: it cancels the timer. Unless it is JSON with a truthy
     * `ok` the client closes and then reports ClosedByServer; otherwise the
     * ping interval starts, the client is connected and the callback of
     * `connect` receives the tunnel name.
     */
    method AckReceived(s: SocketId, d: ControlData)
      requires Valid() && s in masters && masters[s].stage == AwaitingAck && !sockets[s].destroyed
      modifies this
      ensures Valid() && handshakeTimers == old(handshakeTimers) - {s}
      ensures d.Json? && d.ok ==>
        && masters == old(masters)[s := old(masters)[s].(stage := Acked)]
        && connected && pingInterval == Some(s) && pingTimers == old(pingTimers) + {s}
        && reports == old(reports) + (if old(masters)[s].cb.UserCallback? then [Connected(Tunnel())] else [])
        && sockets == old(sockets) && dataConns == old(dataConns) && closeListeners == old(closeListeners)
        && socket == old(socket) && probes == old(probes) && closeWaiters == old(closeWaiters) && closed == old(closed)
      ensures !(d.Json? && d.ok) ==>
        && masters == old(masters)[s := old(masters)[s].(stage := Rejected)]
        && pingInterval == None && closeListeners == {}
        && socket == old(socket) && connected == old(connected) && probes == old(probes)
        && (old(LiveControl()) ==>
              && closed && reports == old(reports) && old(socket).value < |old(sockets)|
              && closeWaiters == old(closeWaiters)[old(socket).value := SetupFailed(old(masters)[s].cb, ClosedByServer)]
              && dataConns == MarkTornDown(old(dataConns), old(closeListeners))
              && sockets == DestroyAt(DestroyAll(old(sockets), BridgeSockets(old(closeListeners), old(dataConns))), old(socket).value))
        && (!old(LiveControl()) ==>
              && closed == old(closed) && reports == old(reports) + Reported(SetupFailed(old(masters)[s].cb, ClosedByServer))
              && closeWaiters == old(closeWaiters) && dataConns == old(dataConns) && sockets == old(sockets))
    {
      if d.Json? && d.ok {
        AcceptAck(s);
      } else {
        RejectAck(s);
      }
    }

    /** A truthy `ok`: ping starts on the socket, the client is connected and the callback gets the tunnel name. */
    method AcceptAck(s: SocketId)
      requires Valid() && s in masters && masters[s].stage == AwaitingAck
      modifies this`handshakeTimers, this`masters, this`pingInterval, this`pingTimers, this`connected, this`reports
      ensures Valid() && handshakeTimers == old(handshakeTimers) - {s}
      ensures masters == old(masters)[s := old(masters)[s].(stage := Acked)]
      ensures connected && pingInterval == Some(s) && pingTimers == old(pingTimers) + {s}
      ensures reports == old(reports) + (if old(masters)[s].cb.UserCallback? then [Connected(Tunnel())] else [])
    {
      var cb := masters[s].cb;
      StartPing(s);
      connected := true;
      reports := reports + (if cb.UserCallback? then [Connected(Tunnel())] else []);
    }

    /** The timer is cleared, the master is acked and the ping interval runs on its socket. */
    method StartPing(s: SocketId)
      requires Valid() && s in masters && masters[s].stage == AwaitingAck
      modifies this`handshakeTimers, this`masters, this`pingInterval, this`pingTimers
      ensures Valid() && handshakeTimers == old(handshakeTimers) - {s}
      ensures masters == old(masters)[s := old(masters)[s].(stage := Acked)]
      ensures pingInterval == Some(s) && pingTimers == old(pingTimers) + {s}
    {
      handshakeTimers := handshakeTimers - {s};
      masters := masters[s := masters[s].(stage := Acked)];
      pingInterval := Some(s);
      pingTimers := pingTimers + {s};
    }

    /** Anything else: the client closes, and the callback gets ClosedByServer once the socket has closed. */
    method RejectAck(s: SocketId)
      requires Valid() && s in masters && masters[s].stage == AwaitingAck && !sockets[s].destroyed
      modifies this
      ensures Valid() && handshakeTimers == old(handshakeTimers) - {s}
      ensures masters == old(masters)[s := old(masters)[s].(stage := Rejected)]
      ensures pingInterval == None && closeListeners == {}
      ensures socket == old(socket) && connected == old(connected) && probes == old(probes)
      ensures old(LiveControl()) ==>
        && closed && reports == old(reports) && old(socket).value < |old(sockets)|
        && closeWaiters == old(closeWaiters)[old(socket).value := SetupFailed(old(masters)[s].cb, ClosedByServer)]
        && dataConns == MarkTornDown(old(dataConns), old(closeListeners))
        && sockets == DestroyAt(DestroyAll(old(sockets), BridgeSockets(old(closeListeners), old(dataConns))), old(socket).value)
      ensures !old(LiveControl()) ==>
        && closed == old(closed) && reports == old(reports) + Reported(SetupFailed(old(masters)[s].cb, ClosedByServer))
        && closeWaiters == old(closeWaiters) && dataConns == old(dataConns) && sockets == old(sockets)
    {
      var m := masters[s];
      handshakeTimers := handshakeTimers - {s};
      masters := masters[s := m.(stage := Rejected)];
      Close(SetupFailed(m.cb, ClosedByServer));
    }

    /** A tick of the 5000 ms ping interval. */
    method PingTick(s: SocketId)
      requires Valid() && s in pingTimers
      modifies this`sockets
      ensures Valid()
      ensures sockets == old(sockets)[s := old(sockets)[s].(writes := old(sockets)[s].writes + [Ping])]
    {
      Write(s, Ping);
    }

    // ---------------------------------------------------------------------
    // Data connections: __create_pool_connection and the bridge

    /** A control message other than `pong` that parses as JSON opens one data connection. */
    method CreatePoolConnection(d: ControlData)
      requires Valid()
      modifies this`sockets, this`dataConns
      ensures Valid()
      ensures d.Json? ==>
        sockets == old(sockets) + [Fresh] && dataConns == old(dataConns)[|old(sockets)| := DataConn(d.request, Dialing)]
      ensures !d.Json? ==> sockets == old(sockets) && dataConns == old(dataConns)
    {
      if d.Json? {
        var r := Open();
        dataConns := dataConns[r := DataConn(d.request, Dialing)];
      }
    }

    /** A data connection reaches the relay and claims its request. */
    method DataConnected(r: SocketId)
      requires Valid() && r in dataConns && dataConns[r].stage == Dialing && !sockets[r].destroyed
      modifies this`sockets, this`dataConns
      ensures Valid()
      ensures dataConns == old(dataConns)[r := old(dataConns)[r].(stage := AwaitingData)]
      ensures sockets == old(sockets)[r := old(sockets)[r].(writes := old(sockets)[r].writes + [Claim(uuid, old(dataConns)[r].requestToken)])]
    {
      dataConns := dataConns[r := dataConns[r].(stage := AwaitingData)];
      Write(r, Claim(uuid, dataConns[r].requestToken));
    }

    /** The first data on a data connection: open the local socket and subscribe the bridge. */
    method DataArrived(r: SocketId, chunk: seq<Byte>)
      requires Valid() && r in dataConns && dataConns[r].stage == AwaitingData && !sockets[r].destroyed
      modifies this`sockets, this`dataConns, this`closeListeners
      ensures Valid()
      ensures sockets == old(sockets) + [Fresh]
      ensures dataConns == old(dataConns)[r := old(dataConns)[r].(stage := Bridge(|old(sockets)|, Some(chunk), false))]
      ensures closeListeners == old(closeListeners) + {r}
    {
      var l := Open();
      dataConns := dataConns[r := dataConns[r].(stage := Bridge(l, Some(chunk), false))];
      closeListeners := closeListeners + {r};
    }

    /** The local socket connects: the first chunk goes to it through the Host rewriter and piping starts. */
    method LocalConnected(r: SocketId)
      requires Valid() && IsOpenBridge(r) && dataConns[r].stage.pending.Some?
      requires HostRewriter.Enabled(config.rewriteHost) ==> IsValid(dataConns[r].stage.pending.value)
      requires !sockets[dataConns[r].stage.local].destroyed
      modifies this`sockets, this`dataConns
      ensures Valid()
      ensures dataConns == old(dataConns)[r := old(dataConns)[r].(stage := old(dataConns)[r].stage.(pending := None))]
      ensures var l := old(dataConns)[r].stage.local;
        sockets == old(sockets)[l := old(sockets)[l].(writes := old(sockets)[l].writes
          + [Forward(HostRewriter.Rewrite(old(dataConns)[r].stage.pending.value, config.rewriteHost))])]
    {
      var b := dataConns[r].stage;
      dataConns := dataConns[r := dataConns[r].(stage := b.(pending := None))];
      Write(b.local, Forward(HostRewriter.Rewrite(b.pending.value, config.rewriteHost)));
    }

    /** A later chunk from the relay, piped through the Host rewriter to the local service. */
    method RemoteChunk(r: SocketId, chunk: seq<Byte>)
      requires Valid() && IsOpenBridge(r) && dataConns[r].stage.pending.None?
      requires HostRewriter.Enabled(config.rewriteHost) ==> IsValid(chunk)
      requires !sockets[r].destroyed && !sockets[dataConns[r].stage.local].destroyed
      modifies this`sockets
      ensures Valid()
      ensures var l := dataConns[r].stage.local;
        sockets == old(sockets)[l := old(sockets)[l].(writes := old(sockets)[l].writes
          + [Forward(HostRewriter.Rewrite(chunk, config.rewriteHost))])]
    {
      Write(dataConns[r].stage.local, Forward(HostRewriter.Rewrite(chunk, config.rewriteHost)));
    }

    /** A chunk from the local service, piped to the relay unchanged. */
    method LocalChunk(r: SocketId, chunk: seq<Byte>)
      requires Valid() && IsOpenBridge(r) && dataConns[r].stage.pending.None?
      requires !sockets[r].destroyed && !sockets[dataConns[r].stage.local].destroyed
      modifies this`sockets
      ensures Valid()
      ensures sockets == old(sockets)[r := old(sockets)[r].(writes := old(sockets)[r].writes + [Forward(chunk)])]
    {
      Write(r, Forward(chunk));
    }

    /**
     * The relay closes a data connection that is waiting to be selected. No
     * 'close' handler is registered on it before its first data, so Node.js
     * only destroys the socket.
     */
    method DataPeerClosed(r: SocketId)
      requires Valid() && r in dataConns && dataConns[r].stage == AwaitingData && !sockets[r].destroyed
      modifies this`sockets
      ensures Valid() && sockets == DestroyAt(old(sockets), r)
    {
      Destroy(r);
    }

    /**
     * An error on a data connection's relay socket. Node.js has destroyed a
     * socket that reports an error, so the handler's `end` or `destroy` leaves
     * it destroyed either way; once bridged, the bridge's own error handler
     * also runs and tears the bridge down.
     */
    method DataError(r: SocketId)
      requires Valid() && r in dataConns && !sockets[r].destroyed
      modifies this`sockets, this`dataConns, this`closeListeners
      ensures Valid() && r < |sockets| && sockets[r].destroyed
      ensures old(dataConns)[r].stage.Bridge? ==>
        && TornDown(r) && closeListeners == old(closeListeners) - {r}
        && dataConns == old(dataConns)[r := old(dataConns)[r].(stage := old(dataConns)[r].stage.(tornDown := true))]
        && sockets == DestroyAt(DestroyAt(old(sockets), old(dataConns)[r].stage.local), r)
      ensures !old(dataConns)[r].stage.Bridge? ==>
        && dataConns == old(dataConns) && closeListeners == old(closeListeners)
        && sockets == DestroyAt(old(sockets), r)
    {
      ghost var ss0 := sockets;
      Destroy(r);
      if dataConns[r].stage.Bridge? {
        DestroyAbsorbed(ss0, dataConns[r].stage.local, r);
        CleanUp(r);
      }
    }

    /** An error or close on either socket of a bridge. */
    method BridgeEvent(r: SocketId)
      requires Valid() && r in dataConns && dataConns[r].stage.Bridge?
      modifies this`sockets, this`dataConns, this`closeListeners
      ensures Valid() && TornDown(r) && closeListeners == old(closeListeners) - {r}
      ensures dataConns == old(dataConns)[r := old(dataConns)[r].(stage := old(dataConns)[r].stage.(tornDown := true))]
      ensures sockets == DestroyAt(DestroyAt(old(sockets), old(dataConns)[r].stage.local), r)
    {
      CleanUp(r);
    }

    /**
     * The bridge's cleanUp: unsubscribe from the client's 'close' event and
     * destroy whichever of the two sockets is not destroyed yet. Running it
     * again changes nothing.
     */
    method CleanUp(r: SocketId)
      requires Valid() && r in dataConns && dataConns[r].stage.Bridge?
      modifies this`sockets, this`dataConns, this`closeListeners
      ensures Valid() && TornDown(r)
      ensures closeListeners == old(closeListeners) - {r}
      ensures dataConns == old(dataConns)[r := old(dataConns)[r].(stage := old(dataConns)[r].stage.(tornDown := true))]
      ensures sockets == DestroyAt(DestroyAt(old(sockets), old(dataConns)[r].stage.local), r)
    {
      var l := dataConns[r].stage.local;
      var ss := sockets;
      if !ss[l].destroyed {
        ss := DestroyAt(ss, l);
      } else {
        DestroyingTwice(ss, l);
      }
      if !ss[r].destroyed {
        ss := DestroyAt(ss, r);
      } else {
        DestroyingTwice(ss, r);
      }
      TearDownBounded(socket, sockets, probes, masters, closeWaiters, dataConns, r);
      TearDownBridges(closeListeners, dataConns, sockets, r);
      closeListeners, sockets, dataConns := closeListeners - {r}, ss, TearDown(dataConns, r);
    }
  }
}
