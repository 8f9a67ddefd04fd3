/**
 * The standalone script index.js: one control connection to the relay and a
 * pool of pre-opened data connections. After the handshake ack it opens
 * `pool_size` pool connections; each pool connection, when the relay first
 * sends on it, opens exactly one replacement and then bridges to the local
 * service. So the number of pool connections never handed a request stays at
 * `pool_size`; those the relay closes while idle are not replaced, so the
 * number still waiting can only fall below it.
 *
 * Sockets are handles into `sockets`, as in the client module; the process
 * exiting is the flag `exited`, after which no event is delivered.
 */
module PoolScript {
  import opened Wrappers
  import opened Utf8
  import HostRewriter
  import TunnelClient

  type SocketId = TunnelClient.SocketId
  type Socket = TunnelClient.Socket
  type Message = TunnelClient.Message
  type ControlData = TunnelClient.ControlData

  /** Where the control connection stands. */
  datatype Phase = Probing | Connecting | AwaitingAck | Rejected | Running

  /**
   * A pool connection: dialing the relay, idle in the pool, bridged to a local
   * socket, or closed by the relay while idle.
   */
  datatype PoolConn = Dialing | Idle | Bridged(local: SocketId, pending: Option<seq<Byte>>) | Dropped

  /** The pool connections never handed a request, including those the relay closed. */
  function Unserved(pool: map<SocketId, PoolConn>): set<SocketId> {
    set r | r in pool && !pool[r].Bridged?
  }

  /** The pool connections that can still take a request: dialing or idle. */
  function Waiting(pool: map<SocketId, PoolConn>): set<SocketId> {
    set r | r in pool && (pool[r].Dialing? || pool[r].Idle?)
  }

  /** The pool connections the relay closed before handing them a request. */
  function DroppedConns(pool: map<SocketId, PoolConn>): set<SocketId> {
    set r | r in pool && pool[r].Dropped?
  }

  /** The connections never handed a request are the waiting ones and the dropped ones. */
  lemma UnservedSplit(pool: map<SocketId, PoolConn>)
    ensures Unserved(pool) == Waiting(pool) + DroppedConns(pool) && Waiting(pool) !! DroppedConns(pool)
    ensures |Unserved(pool)| == |Waiting(pool)| + |DroppedConns(pool)|
  {
    assert Unserved(pool) == Waiting(pool) + DroppedConns(pool);
  }

  /**
   * With `pool_size` connections never handed a request, at most `pool_size`
   * wait for one, and exactly `pool_size` do when the relay closed none.
   */
  lemma PoolBound(pool: map<SocketId, PoolConn>, poolSize: int)
    requires |Unserved(pool)| == PoolTarget(poolSize)
    ensures |Waiting(pool)| <= PoolTarget(poolSize)
    ensures |Waiting(pool)| == PoolTarget(poolSize) <==> DroppedConns(pool) == {}
  {
    UnservedSplit(pool);
  }

  /** How many times `for (i = 0; i < pool_size; i++)` runs. */
  function PoolTarget(poolSize: int): nat {
    if poolSize < 0 then 0 else poolSize
  }

  /** `pool` holds exactly the handles `lo` to `hi - 1`, all dialing. */
  ghost predicate DialingBetween(pool: map<SocketId, PoolConn>, lo: nat, hi: nat) {
    && (forall r | r in pool :: lo <= r < hi && pool[r] == Dialing)
    && (forall r: nat | lo <= r < hi :: r in pool)
  }

  /** Every socket from handle `lo` on is new: not destroyed, not ended, nothing written. */
  ghost predicate AllFresh(sockets: seq<Socket>, lo: nat) {
    forall i | lo <= i < |sockets| :: sockets[i] == TunnelClient.Fresh
  }

  /** A new connection dialing the relay joins the waiting ones. */
  lemma {:induction false} WaitingAfterDial(pool: map<SocketId, PoolConn>, r: SocketId)
    requires r !in pool
    ensures Waiting(pool[r := Dialing]) == Waiting(pool) + {r}
    ensures |Waiting(pool[r := Dialing])| == |Waiting(pool)| + 1
    ensures |Unserved(pool[r := Dialing])| == |Unserved(pool)| + 1
  {
    assert Waiting(pool[r := Dialing]) == Waiting(pool) + {r};
    assert Unserved(pool[r := Dialing]) == Unserved(pool) + {r};
  }

  /** A dialing connection that connects stays among the waiting ones. */
  lemma {:induction false} WaitingAfterConnect(pool: map<SocketId, PoolConn>, r: SocketId)
    requires r in pool && pool[r].Dialing?
    ensures Waiting(pool[r := Idle]) == Waiting(pool) && Unserved(pool[r := Idle]) == Unserved(pool)
  {
    assert Waiting(pool[r := Idle]) == Waiting(pool);
    assert Unserved(pool[r := Idle]) == Unserved(pool);
  }

  /** An idle connection that takes a request, together with its replacement, leaves the count unchanged. */
  lemma {:induction false} WaitingAfterReplacement(pool: map<SocketId, PoolConn>, r: SocketId, spare: SocketId, b: PoolConn)
    requires r in pool && pool[r].Idle? && spare !in pool && b.Bridged?
    ensures Waiting(pool[spare := Dialing][r := b]) == Waiting(pool) - {r} + {spare}
    ensures |Waiting(pool[spare := Dialing][r := b])| == |Waiting(pool)|
    ensures |Unserved(pool[spare := Dialing][r := b])| == |Unserved(pool)|
  {
    WaitingSwap(pool, r, spare, b);
    SwapKeepsSize(Waiting(pool), r, spare);
    UnservedSwap(pool, r, spare, b);
    SwapKeepsSize(Unserved(pool), r, spare);
  }

  lemma WaitingSwap(pool: map<SocketId, PoolConn>, r: SocketId, spare: SocketId, b: PoolConn)
    requires r in pool && pool[r].Idle? && spare !in pool && b.Bridged?
    ensures r in Waiting(pool) && spare !in Waiting(pool)
    ensures Waiting(pool[spare := Dialing][r := b]) == Waiting(pool) - {r} + {spare}
  {
    assert Waiting(pool[spare := Dialing][r := b]) == Waiting(pool) - {r} + {spare};
  }

  lemma UnservedSwap(pool: map<SocketId, PoolConn>, r: SocketId, spare: SocketId, b: PoolConn)
    requires r in pool && pool[r].Idle? && spare !in pool && b.Bridged?
    ensures r in Unserved(pool) && spare !in Unserved(pool)
    ensures Unserved(pool[spare := Dialing][r := b]) == Unserved(pool) - {r} + {spare}
  {
    assert Unserved(pool[spare := Dialing][r := b]) == Unserved(pool) - {r} + {spare};
  }

  lemma SwapKeepsSize(s: set<SocketId>, r: SocketId, spare: SocketId)
    requires r in s && spare !in s
    ensures |s - {r} + {spare}| == |s|
  {
    assert |s - {r}| == |s| - 1;
  }

  /** Further data on a bridge leaves the waiting connections as they are. */
  lemma {:induction false} WaitingAfterBridgeUpdate(pool: map<SocketId, PoolConn>, r: SocketId, b: PoolConn)
    requires r in pool && pool[r].Bridged? && b.Bridged?
    ensures Waiting(pool[r := b]) == Waiting(pool) && Unserved(pool[r := b]) == Unserved(pool)
  {
    assert Waiting(pool[r := b]) == Waiting(pool);
    assert Unserved(pool[r := b]) == Unserved(pool);
  }

  /** An idle connection the relay closes stops waiting, but still counts as never handed a request. */
  lemma {:induction false} WaitingAfterDrop(pool: map<SocketId, PoolConn>, r: SocketId)
    requires r in pool && pool[r].Idle?
    ensures Waiting(pool[r := Dropped]) == Waiting(pool) - {r} && r in Waiting(pool)
    ensures |Waiting(pool[r := Dropped])| == |Waiting(pool)| - 1
    ensures Unserved(pool[r := Dropped]) == Unserved(pool)
  {
    assert Waiting(pool[r := Dropped]) == Waiting(pool) - {r};
    assert Unserved(pool[r := Dropped]) == Unserved(pool);
  }

  class Script {
    const uuid: string
    const poolSize: int                 // Number(argv.ps)
    const rewriteHost: Option<string>   // argv['rewrite-host']
    const probe: SocketId               // test_local_connection's socket
    var phase: Phase
    var exited: bool                    // process.exit() was called
    var control: Option<SocketId>       // remote_client
    var handshakeTimer: bool            // the 1000 ms timer is armed
    var pinging: bool                   // the 5000 ms interval runs
    var pingListeners: nat              // one-shot ping-reply listeners registered and not yet fired
    var invalidPongs: nat               // "Invalid ping response" messages logged
    var sockets: seq<Socket>
    var pool: map<SocketId, PoolConn>

    /**
     * Before the ack there is no pool, no ping interval and no reply listener;
     * after it, exactly `pool_size` pool connections were never handed a
     * request (those waiting for one, and those the relay closed meanwhile).
     */
    ghost predicate Valid()
      reads this
    {
      && Bounded()
      && (phase != Probing ==> control.Some?)
      && (phase != Running ==> pool == map[] && !pinging && pingListeners == 0)
      && (phase == Running ==> |Unserved(pool)| == PoolTarget(poolSize))
      && (handshakeTimer ==> phase in {AwaitingAck, Rejected})
      && (phase == AwaitingAck ==> handshakeTimer)
    }

    /** Every handle names a socket the script opened. */
    ghost predicate Bounded()
      reads this`sockets, this`control, this`pool
    {
      && probe < |sockets|
      && (control.Some? ==> control.value < |sockets|)
      && (forall r | r in pool :: r < |sockets|)
      && (forall r | r in pool && pool[r].Bridged? :: pool[r].local < |sockets|)
    }

    /** The script starts by probing the local service. */
    constructor (uuid: string, poolSize: int, rewriteHost: Option<string>)
      ensures Valid() && this.uuid == uuid && this.poolSize == poolSize && this.rewriteHost == rewriteHost
      ensures phase == Probing && !exited && probe == 0 && sockets == [TunnelClient.Fresh]
      ensures control == None && !handshakeTimer && !pinging && pool == map[]
      ensures pingListeners == 0 && invalidPongs == 0
    {
      this.uuid := uuid;
      this.poolSize := poolSize;
      this.rewriteHost := rewriteHost;
      phase := Probing;
      exited := false;
      probe := 0;
      control := None;
      handshakeTimer := false;
      pinging := false;
      pingListeners := 0;
      invalidPongs := 0;
      sockets := [TunnelClient.Fresh];
      pool := map[];
    }

    // The socket primitives below mirror TunnelClient.Client's on purpose: index.js
    // runs in its own process with its own sockets, and the script's invariant
    // (Bounded) differs from the client's.

    method Open() returns (id: SocketId)
      requires Bounded()
      modifies this`sockets
      ensures Bounded() && id == |old(sockets)| && sockets == old(sockets) + [TunnelClient.Fresh]
    {
      id := |sockets|;
      sockets := sockets + [TunnelClient.Fresh];
    }

    method Write(id: SocketId, m: Message)
      requires Bounded() && id < |sockets|
      modifies this`sockets
      ensures Bounded() && sockets == old(sockets)[id := old(sockets)[id].(writes := old(sockets)[id].writes + [m])]
    {
      sockets := sockets[id := sockets[id].(writes := sockets[id].writes + [m])];
    }

    method End(id: SocketId)
      requires Bounded() && id < |sockets|
      modifies this`sockets
      ensures Bounded() && sockets == old(sockets)[id := old(sockets)[id].(ended := true)]
    {
      sockets := sockets[id := sockets[id].(ended := true)];
    }

    /**
     * The probe finishes: an unreachable local service (the probe socket's
     * `error`, after which Node.js has destroyed it) exits the process; otherwise
     * the control connection is opened.
     */
    method ProbeFinished(reachable: bool)
      requires Valid() && !exited && phase == Probing
      modifies this
      ensures Valid()
      ensures !reachable ==> exited && sockets == TunnelClient.DestroyAt(old(sockets), probe) && phase == Probing
      ensures reachable ==>
        && !exited && phase == Connecting && control == Some(|old(sockets)|)
        && sockets == old(sockets)[probe := old(sockets)[probe].(ended := true)] + [TunnelClient.Fresh]
      ensures pool == old(pool)
    {
      if !reachable {
        sockets := TunnelClient.DestroyAt(sockets, probe);
        exited := true;
      } else {
        End(probe);
        var c := Open();
        control := Some(c);
        phase := Connecting;
      }
    }

    /**
     * The probe's `once('error')` listener outlives a successful probe: a later
     * error on the ended probe socket (Node.js has destroyed it) still runs the
     * probe callback with the error, which exits the process in any phase, with
     * the pool running or not.
     */
    method LateProbeError()
      requires Valid() && !exited && phase != Probing && !sockets[probe].destroyed
      modifies this`sockets, this`exited
      ensures Valid() && exited
      ensures sockets == TunnelClient.DestroyAt(old(sockets), probe)
    {
      sockets := TunnelClient.DestroyAt(sockets, probe);
      exited := true;
    }

    /** The control connection connects: it sends `{"uuid": ...}` and arms the 1000 ms timer. */
    method ControlConnected()
      requires Valid() && !exited && phase == Connecting && !sockets[control.value].destroyed
      modifies this
      ensures Valid() && phase == AwaitingAck && handshakeTimer && pool == old(pool) && exited == old(exited)
      ensures control == old(control)
      ensures sockets == old(sockets)[control.value := old(sockets)[control.value].(writes :=
                old(sockets)[control.value].writes + [TunnelClient.Handshake(uuid)])]
    {
      Write(control.value, TunnelClient.Handshake(uuid));
      handshakeTimer := true;
      phase := AwaitingAck;
    }

    /** The 1000 ms timer fires: "Server does not respond", and the process exits, even after a rejected ack. */
    method HandshakeTimeout()
      requires Valid() && !exited && handshakeTimer
      modifies this`exited
      ensures Valid() && exited
    {
      exited := true;
    }

    /** An error on the control connection is only logged; Node.js has destroyed the socket. */
    method ControlError()
      requires Valid() && !exited && control.Some? && !sockets[control.value].destroyed
      modifies this`sockets
      ensures Valid()
      ensures sockets == TunnelClient.DestroyAt(old(sockets), control.value)
    {
      sockets := TunnelClient.DestroyAt(sockets, control.value);
    }

    /**
     * Data on the control connection. The first message is the ack: text that
     * is not JSON throws, which the uncaughtException handler turns into ending
     * the control connection and exiting; a falsy `ok` ends the control
     * connection and returns before the timer is cleared and the pool is
     * filled; a truthy `ok` clears the timer, opens `pool_size` pool
     * connections and starts the ping interval. Afterwards every message fires
     * all pending ping-reply listeners, each of which only logs when the reply
     * is not `pong`.
     */
    method ControlData(d: ControlData)
      requires Valid() && !exited && control.Some? && !sockets[control.value].destroyed
      modifies this
      ensures Valid()
      ensures old(phase) == AwaitingAck && !d.Json? ==>
        exited && pool == old(pool) && sockets == old(sockets)[old(control).value := old(sockets)[old(control).value].(ended := true)]
      ensures old(phase) == AwaitingAck && d.Json? && !d.ok ==>
        && !exited && phase == Rejected && handshakeTimer && pool == map[]
        && sockets == old(sockets)[old(control).value := old(sockets)[old(control).value].(ended := true)]
      ensures old(phase) == AwaitingAck && d.Json? && d.ok ==>
        && !exited && phase == Running && !handshakeTimer && pinging
        && |sockets| == |old(sockets)| + PoolTarget(poolSize) && AllFresh(sockets, |old(sockets)|)
        && sockets[..|old(sockets)|] == old(sockets) && control == old(control)
        && DialingBetween(pool, |old(sockets)|, |sockets|)
        && |Waiting(pool)| == PoolTarget(poolSize) && pingListeners == 0 && invalidPongs == old(invalidPongs)
      ensures old(phase) == Running ==>
        && phase == Running && sockets == old(sockets) && pool == old(pool) && pingListeners == 0
        && invalidPongs == old(invalidPongs) + (if d.Pong? then 0 else old(pingListeners))
      ensures old(phase) !in {AwaitingAck, Running} ==>
        phase == old(phase) && sockets == old(sockets) && pool == old(pool)
    {
      var c := control.value;
      if phase == AwaitingAck {
        if !d.Json? {
          End(c);
          exited := true;
        } else if !d.ok {
          End(c);
          phase := Rejected;
        } else {
          handshakeTimer := false;
          FillPool();
          pinging := true;
          phase := Running;
        }
      } else if phase == Running {
        if !d.Pong? {
          invalidPongs := invalidPongs + pingListeners;
        }
        pingListeners := 0;
      }
    }

    /** The loop after a truthy ack: `pool_size` calls of createPoolConnection. */
    method FillPool()
      requires Bounded() && pool == map[]
      modifies this`sockets, this`pool
      ensures Bounded()
      ensures |sockets| == |old(sockets)| + PoolTarget(poolSize) && AllFresh(sockets, |old(sockets)|)
      ensures sockets[..|old(sockets)|] == old(sockets)
      ensures DialingBetween(pool, |old(sockets)|, |sockets|)
      ensures |Waiting(pool)| == PoolTarget(poolSize) && |Unserved(pool)| == PoolTarget(poolSize)
    {
      var i := 0;
      while i < poolSize
        invariant Bounded()
        invariant 0 <= i <= PoolTarget(poolSize) && |sockets| == |old(sockets)| + i
        invariant AllFresh(sockets, |old(sockets)|) && sockets[..|old(sockets)|] == old(sockets)
        invariant DialingBetween(pool, |old(sockets)|, |sockets|)
        invariant |Waiting(pool)| == i && |Unserved(pool)| == i
      {
        WaitingAfterDial(pool, |sockets|);
        CreatePoolConnection();
        i := i + 1;
      }
    }

    /** createPoolConnection: a new connection to the relay. */
    method CreatePoolConnection()
      requires Bounded()
      modifies this`sockets, this`pool
      ensures Bounded()
      ensures sockets == old(sockets) + [TunnelClient.Fresh] && pool == old(pool)[|old(sockets)| := Dialing]
    {
      var r := Open();
      pool := pool[r := Dialing];
    }

    /** A ping tick registers a one-shot reply listener and writes `ping`. */
    method PingTick()
      requires Valid() && !exited && pinging
      modifies this`sockets, this`pingListeners
      ensures Valid() && pingListeners == old(pingListeners) + 1
      ensures sockets == old(sockets)[control.value := old(sockets)[control.value].(writes :=
                old(sockets)[control.value].writes + [TunnelClient.Ping])]
    {
      pingListeners := pingListeners + 1;
      Write(control.value, TunnelClient.Ping);
    }

    /** A pool connection connects and announces the uuid. */
    method PoolConnected(r: SocketId)
      requires Valid() && !exited && r in pool && pool[r].Dialing? && !sockets[r].destroyed
      modifies this`sockets, this`pool
      ensures Valid() && pool == old(pool)[r := Idle] && Waiting(pool) == Waiting(old(pool))
      ensures sockets == old(sockets)[r := old(sockets)[r].(writes := old(sockets)[r].writes + [TunnelClient.Handshake(uuid)])]
    {
      WaitingAfterConnect(pool, r);
      pool := pool[r := Idle];
      Write(r, TunnelClient.Handshake(uuid));
    }

    /**
     * The first data on an idle pool connection: exactly one replacement pool
     * connection is opened, then the local connection.
     */
    method PoolData(r: SocketId, chunk: seq<Byte>)
      requires Valid() && !exited && r in pool && pool[r].Idle? && !sockets[r].destroyed
      modifies this`sockets, this`pool
      ensures Valid() && |Waiting(pool)| == |Waiting(old(pool))|
      ensures sockets == old(sockets) + [TunnelClient.Fresh, TunnelClient.Fresh]
      ensures pool == old(pool)[|old(sockets)| := Dialing][r := Bridged(|old(sockets)| + 1, Some(chunk))]
    {
      var spare := |sockets|;
      WaitingAfterReplacement(pool, r, spare, Bridged(spare + 1, Some(chunk)));
      CreatePoolConnection();
      var l := Open();
      pool := pool[r := Bridged(l, Some(chunk))];
    }

    /** The local connection opens: the first chunk goes through the Host rewriter, then both directions are piped. */
    method LocalConnected(r: SocketId)
      requires Valid() && !exited && r in pool && pool[r].Bridged? && pool[r].pending.Some?
      requires HostRewriter.Enabled(rewriteHost) ==> IsValid(pool[r].pending.value)
      requires !sockets[pool[r].local].destroyed
      modifies this`sockets, this`pool
      ensures Valid() && pool == old(pool)[r := Bridged(old(pool)[r].local, None)]
      ensures var l := old(pool)[r].local;
        sockets == old(sockets)[l := old(sockets)[l].(writes := old(sockets)[l].writes
          + [TunnelClient.Forward(HostRewriter.Rewrite(old(pool)[r].pending.value, rewriteHost))])]
    {
      var b := pool[r];
      WaitingAfterBridgeUpdate(pool, r, Bridged(b.local, None));
      pool := pool[r := Bridged(b.local, None)];
      Write(b.local, TunnelClient.Forward(HostRewriter.Rewrite(b.pending.value, rewriteHost)));
    }

    /** A later chunk from the relay, piped through the Host rewriter. */
    method RemoteChunk(r: SocketId, chunk: seq<Byte>)
      requires Valid() && !exited && r in pool && pool[r].Bridged? && pool[r].pending.None?
      requires HostRewriter.Enabled(rewriteHost) ==> IsValid(chunk)
      requires !sockets[r].destroyed && !sockets[pool[r].local].destroyed
      modifies this`sockets
      ensures Valid()
      ensures var l := pool[r].local;
        sockets == old(sockets)[l := old(sockets)[l].(writes := old(sockets)[l].writes
          + [TunnelClient.Forward(HostRewriter.Rewrite(chunk, rewriteHost))])]
    {
      Write(pool[r].local, TunnelClient.Forward(HostRewriter.Rewrite(chunk, rewriteHost)));
    }

    /** A chunk from the local service, piped to the relay unchanged. */
    method LocalChunk(r: SocketId, chunk: seq<Byte>)
      requires Valid() && !exited && r in pool && pool[r].Bridged? && pool[r].pending.None?
      requires !sockets[r].destroyed && !sockets[pool[r].local].destroyed
      modifies this`sockets
      ensures Valid()
      ensures sockets == old(sockets)[r := old(sockets)[r].(writes := old(sockets)[r].writes + [TunnelClient.Forward(chunk)])]
    {
      Write(r, TunnelClient.Forward(chunk));
    }

    /**
     * The relay closes an idle pool connection cleanly. The script registers no
     * 'end' or 'close' handler on it, so nothing replaces it; Node.js destroys
     * the socket, and one connection fewer waits for a request.
     */
    method PoolPeerClosed(r: SocketId)
      requires Valid() && !exited && r in pool && pool[r].Idle? && !sockets[r].destroyed
      modifies this`sockets, this`pool
      ensures Valid() && pool == old(pool)[r := Dropped]
      ensures sockets == TunnelClient.DestroyAt(old(sockets), r)
      ensures r in Waiting(old(pool)) && Waiting(pool) == Waiting(old(pool)) - {r}
    {
      WaitingAfterDrop(pool, r);
      pool := pool[r := Dropped];
      sockets := TunnelClient.DestroyAt(sockets, r);
    }

    /**
     * An error on socket `e` of the bridge on relay connection `r` (the relay
     * socket or the local one). Node.js has destroyed `e`; the handler ends
     * both sockets of the bridge and touches no other.
     */
    method BridgeError(r: SocketId, e: SocketId)
      requires Valid() && !exited && r in pool && pool[r].Bridged?
      requires e == r || e == pool[r].local
      modifies this`sockets
      ensures Valid()
      ensures var l := pool[r].local;
        sockets == TunnelClient.DestroyAt(old(sockets)[l := old(sockets)[l].(ended := true)]
                                                      [r := old(sockets)[r].(ended := true)], e)
      ensures |sockets| == |old(sockets)| && sockets[e].destroyed
      ensures sockets[r].destroyed || sockets[pool[r].local].destroyed  // no chunk crosses the bridge any more
      ensures sockets[r].ended && sockets[pool[r].local].ended
      ensures sockets[r].writes == old(sockets)[r].writes && sockets[pool[r].local].writes == old(sockets)[pool[r].local].writes
      ensures forall s | 0 <= s < |sockets| && s != r && s != pool[r].local :: sockets[s] == old(sockets)[s]
    {
      End(pool[r].local);
      End(r);
      sockets := TunnelClient.DestroyAt(sockets, e);
    }

    /**
     * An error on a pool connection that is not bridged yet has no handler: it
     * reaches the uncaughtException handler, which ends the control connection
     * and exits.
     */
    method PoolError(r: SocketId)
      requires Valid() && !exited && r in pool && (pool[r].Dialing? || pool[r].Idle?)
      modifies this`sockets, this`exited
      ensures Valid() && exited
      ensures sockets == old(sockets)[control.value := old(sockets)[control.value].(ended := true)]
    {
      End(control.value);
      exited := true;
    }
  }

  /**
   * The script with `pool_size` n >= 1 and a truthy ack: n pool connections
   * wait for a request, and after the first of them takes one, n still do.
   */
  method PoolStaysFull(uuid: string, n: int, chunk: seq<Byte>) returns (afterAck: nat, afterRequest: nat, socketCount: nat)
    requires n >= 1
    ensures afterAck == n && afterRequest == n
    ensures socketCount == n + 4
  {
    var s := new Script(uuid, n, None);
    s.ProbeFinished(true);
    s.ControlConnected();
    s.ControlData(TunnelClient.Json(true, None));
    afterAck := |Waiting(s.pool)|;
    s.PoolConnected(2);
    s.PoolData(2, chunk);
    afterRequest := |Waiting(s.pool)|;
    socketCount := |s.sockets|;
  }

  /**
   * The script with `pool_size` n >= 1: when the relay closes an idle pool
   * connection, nothing replaces it, and only n - 1 wait for a request.
   */
  method PoolShrinks(uuid: string, n: int) returns (afterAck: nat, afterDrop: nat)
    requires n >= 1
    ensures afterAck == n && afterDrop == n - 1
  {
    var s := new Script(uuid, n, None);
    s.ProbeFinished(true);
    s.ControlConnected();
    s.ControlData(TunnelClient.Json(true, None));
    afterAck := |Waiting(s.pool)|;
    s.PoolConnected(2);
    s.PoolPeerClosed(2);
    afterDrop := |Waiting(s.pool)|;
  }

  /** A falsy ack ends the control connection and leaves the pool empty and the timer armed. */
  method AckRejected(uuid: string, n: int) returns (poolSize: nat, timerArmed: bool, controlEnded: bool)
    ensures poolSize == 0 && timerArmed && controlEnded
  {
    var s := new Script(uuid, n, None);
    s.ProbeFinished(true);
    s.ControlConnected();
    s.ControlData(TunnelClient.Json(false, None));
    poolSize := |s.pool|;
    timerArmed := s.handshakeTimer;
    controlEnded := s.sockets[1].ended;
  }
}
