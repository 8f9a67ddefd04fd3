# exposetoweb tunnel client, modelled in Dafny

exposetoweb exposes a local HTTP service through a public relay. The client keeps
one control connection to the relay. It answers each request announcement by
opening a data connection, and it bridges that connection to the local
service. Every chunk that goes from the relay to the local service can have its
HTTP `Host` header rewritten on the way.

This project models four parts of the client:

- **The Host rewriter** (`HostRewriter`, with `Utf8` and `Text` beneath it):
  `__rewrite_host` in lib/client.js and its twin `rewrite_host` in index.js are
  one function, `HostRewriter.Rewrite(chunk, target)`. It works on bytes:
  - it decodes the chunk as UTF-8 (section 3 of RFC 3629);
  - it splits the text on CRLF the way JavaScript's `split` does;
  - it rewrites each of the first two lines whose text before the first `": "`
    is exactly `Host`;
  - it splices the re-encoded lines onto the original bytes at the byte length
    of the old two lines.

  The central theorem is that this splice always equals the encoding of the
  rewritten text. The byte offset therefore never cuts a character, and
  everything from the CRLF that ends line two is untouched.
- **The tunnel client** (`TunnelClient.Client`, lib/client.js): a class whose
  methods are the events that drive it:
  - the local probe finishing;
  - the control socket connecting, failing, receiving data or closing;
  - the handshake timer and the ping interval;
  - data connections connecting, receiving their first chunk, and
    erroring or closing.

  Sockets are handles into a sequence of socket states. Each state records
  whether the socket was destroyed or ended, and everything written to it. The
  invariant `Valid` keeps the handshake and ping timers consistent. It also
  states the bridge safety property: a torn-down bridge has both of its sockets
  destroyed, and only open bridges listen for the client's `close`.
  `ClientScenarios` replays the event sequences of the unit tests.
- **The standalone script** (`PoolScript.Script`, index.js): after the ack it
  fills a pool of `pool_size` data connections. Each pool connection opens
  exactly one replacement when its first request arrives. The invariant says
  that once the ack has arrived, exactly `pool_size` pool connections were
  never handed a request. Nothing replaces an idle pool connection the relay
  closes, so at most `pool_size` are waiting, and exactly that many when the
  relay closed none.
- **The settings factory** (`Settings`, lib/index.js): copies the defaults of
  lib/default_settings.js, merges the user's configuration and builds a
  client. The server objects are objects, so the aliasing that the shallow
  copy causes is visible (see Findings).

The model follows the code where it differs from the project's documented
intent:

- The rewriter looks at both of the first two lines, not only the second.
- `close` does not consult `closed`. A second `close` with no open control
  socket runs its callback again at once.
- `connected` becomes false only on the control socket's close event. After a
  `close` with no open socket, `connected` keeps its value.
- lib/client.js keeps no pool and never reads `pool_size`. Each control message
  that parses as JSON opens one data connection. Only index.js keeps a pool.
- Automatic reconnection follows only a transport error after the control
  socket has connected. A handshake timeout or a rejected ack reports the
  error and does not reconnect.
- The settings are not immutable: the factory writes into the shared default
  server objects.

## Model

| member | source | states |
|---|---|---|
| Utf8.EncodeChar | lib/client.js:261 | a character encodes to 1 to 4 bytes, one byte exactly for ASCII, with continuation bytes after the first |
| Utf8.Encode | lib/client.js:261 | each character takes one to four bytes, so the encoding of a text is between its length and four times its length |
| Utf8.Decode | lib/client.js:242 | a successful decode yields no more characters than there are bytes |
| Utf8.DecodeFirst | lib/client.js:242 | one decoding step of `toString()` consumes one to four bytes, exactly one for an ASCII byte, and refuses a stray continuation byte |
| Utf8.DecodeFirstSound | lib/client.js:242 | the bytes of a decoded first character are exactly its shortest-form encoding, so overlong forms, surrogates and values past U+10FFFF are refused |
| Utf8.DecodeSound | lib/client.js:242 | decoding succeeds only on bytes that are the encoding of the text it returns |
| Utf8.EncodeAppend | lib/client.js:261-263 | the encoding of a concatenation is the concatenation of the encodings |
| Utf8.DecodeEncode | lib/client.js:242-246 | decoding the encoding of any text gives that text back |
| Utf8.EncodingIsValid | lib/client.js:261 | the encoding of any text is valid UTF-8 |
| Utf8.DecodeInjective | lib/client.js:242 | two byte strings, one of them valid, that decode to the same text are equal |
| Text.IndexOf | lib/client.js:248 | the result is the first position where the separator occurs, or none when it does not occur |
| Text.Split | lib/client.js:242 | `split` gives at least one and at most one more than the text's length pieces, none longer than the text |
| Text.Join | lib/client.js:260 | `join` of no parts is empty, and a join starts with its first part |
| Text.JoinEndsWithLast | lib/client.js:260 | a join ends with its last part |
| Text.SplitJoinsBack | lib/client.js:242 | the pieces joined by the separator give back the text |
| Text.SplitPiecesClean | lib/client.js:242 | no piece contains the separator |
| Text.SplitSingle | lib/client.js:242 | there is one piece exactly when the separator does not occur |
| Text.SplitHead | lib/client.js:242 | the first piece is the text before the first occurrence, and a second piece exists exactly when the separator occurs |
| Text.FirstOccurrence | lib/client.js:248 | the text before the first occurrence holds none, and the text is that prefix, the separator and the rest |
| Text.SplitAfter | lib/client.js:242 | splitting `a + sep + b` with `a` free of the separator gives `a` followed by the pieces of `b` |
| Text.SplitJoin | lib/client.js:242-260 | splitting the join of separator-free pieces gives the pieces back when the separator cannot overlap itself |
| HostRewriter.Rewrite | lib/client.js:235-269 | a disabled target returns the chunk byte for byte, whatever the bytes; on valid UTF-8 the bytes returned are exactly the UTF-8 encoding of the rewritten text |
| HostRewriter.RewriteText | lib/client.js:238-264 | the text is unchanged when rewriting is off or when it holds no CRLF |
| HostRewriter.FirstTwoLines | lib/client.js:242 | one or two lines, and two exactly when the text holds a CRLF |
| HostRewriter.RewriteLines | lib/client.js:247-259 | the `map` over the two lines throws exactly when one of them is a bare `Host`; otherwise two lines come back, and only Host lines can differ |
| HostRewriter.Enabled | lib/client.js:238 | rewriting is off exactly when the option is absent or the empty string, the two falsy values it can take |
| HostRewriter.IsNonZeroNumber | lib/client.js:253 | `port && Number(port)` holds exactly for a non-empty digit string whose decimal value is not zero |
| HostRewriter.DecimalZero | lib/client.js:253 | a digit string has the value zero exactly when every digit is `0` |
| HostRewriter.RewriteLine | lib/client.js:247-259 | the `map` callback throws exactly on a bare `Host` line, and changes a line only when it is a Host line |
| HostRewriter.PortOf | lib/client.js:250 | a port exists exactly when the field value holds a colon, and the port holds none |
| HostRewriter.HostLine | lib/client.js:251-254 | the new line starts with `Host: ` and the target, and has more after it exactly when the old port is a non-zero number |
| HostRewriter.SpliceIsEncoding | lib/client.js:246-263 | the new prefix followed by the original bytes from the old prefix's byte length is the encoding of the new lines followed by the untouched rest |
| HostRewriter.HostName | lib/client.js:248-250 | the text before the first ": " is `Host` exactly when the line is `Host` or starts with "Host: "; in the latter case there is a field value |
| HostRewriter.RewriteLineCases | lib/client.js:247-259 | a line that is exactly `Host` throws; a line starting with "Host: " becomes the target with the port rule; every other line is kept |
| HostRewriter.PortOfHostAndPort | lib/client.js:250 | the port read from `host:port` is the text after the first colon |
| HostRewriter.HostLinePortRule | lib/client.js:250-254 | `Host: h` becomes `Host: <target>`; `Host: h:p` keeps `:p` exactly when `p` is a non-zero number |
| HostRewriter.LinesKept | lib/client.js:247-260 | a first-two-lines pair holding a bare `Host` line makes the rewrite throw; a pair with no Host line comes back unchanged |
| HostRewriter.UnchangedCases | lib/client.js:238-245 | the text is unchanged when rewriting is off, when there is no CRLF, when one of the first two lines is exactly `Host`, or when neither is a Host line |
| HostRewriter.RewrittenLines | lib/client.js:246-264 | the lines of the result are the two rewritten lines followed by every original line from the third on |
| HostRewriter.HostLineIsOneLine | lib/client.js:251-254 | a rewritten Host line contains no CRLF when the target has none |
| HostRewriter.GetRequestExample | test/client.unit.js:229-251 | the unit test's request gets `Host: <target>` as its second line and keeps every other line |
| HostRewriter.PlainLinesExample | test/client.unit.js:210-227 | four lines without a Host line pass unchanged |
| TunnelClient.DestroyAt | lib/client.js:204-209 | destroying a socket sets only its destroyed flag and touches no other socket |
| TunnelClient.Client.constructor | lib/client.js:10-16 | a new client has no control socket, is neither closed nor connected, and has opened nothing |
| TunnelClient.Client.Connect | lib/client.js:38-41 | `connect` opens one probe of the local service, remembering the callback |
| TunnelClient.Client.Open | lib/client.js:177 | `net.connect` adds one fresh socket and changes no other |
| TunnelClient.Client.Destroy | lib/client.js:205 | `destroy()` sets that socket's destroyed flag and changes nothing else |
| TunnelClient.Client.End | lib/client.js:96 | `end()` sets that socket's ended flag and changes nothing else |
| TunnelClient.Client.Write | lib/client.js:154 | `write` appends the message to that socket's log and changes nothing else |
| TunnelClient.Client.ProbeFinished | lib/client.js:40-60 | a successful probe is ended and the control socket opened, with bridges, close callbacks, ping and timers unchanged; a failed probe's socket is destroyed, and with no open control socket LocalUnreachable is reported at once and no other socket changes; with one open it closes it (the `close` frame below) and leaves LocalUnreachable waiting |
| TunnelClient.Client.ProbeFailed | lib/client.js:40-45 | the failed probe's socket is destroyed on top of exactly the effects of `close` with the failure callback |
| TunnelClient.Client.ClearPingInterval | lib/client.js:87-92 | the ping interval is stopped and forgotten |
| TunnelClient.Client.Close | lib/client.js:62-85 | the ping interval is always cleared. With an open control socket: `closed`, every subscribed bridge marked torn down, exactly the control socket and the subscribed bridges' sockets destroyed and no other socket changed, the callback waiting for the close event. Otherwise: `closed` unchanged, subscribers dropped, bridges and close callbacks unchanged, the callback's effect at once |
| TunnelClient.Client.CloseLive | lib/client.js:67-78 | the open-socket branch of `close`: exactly the subscribed bridges are marked torn down, exactly their sockets and the control socket are destroyed, every other socket and data connection is unchanged |
| TunnelClient.Client.CloseIdle | lib/client.js:79-84 | the branch of `close` with no open socket |
| TunnelClient.Client.Resume | lib/client.js:42-53 | running a close callback reports what it is bound to; the setup callback closes again and reports; the reconnect callback opens one probe |
| TunnelClient.Client.EmitClose | lib/client.js:69 | the client's 'close' event tears down every subscribed bridge and leaves none subscribed; the data connections become exactly the old ones with the subscribed bridges marked, and the sockets exactly the old ones with those bridges' sockets destroyed |
| TunnelClient.Client.AwaitClose | lib/client.js:70-78 | the control socket is destroyed and the callback waits for its close event |
| TunnelClient.Client.MarkClosed | lib/client.js:65-69 | the first steps of `close`: ping stopped, `closed` set, subscribed bridges torn down, and no other data connection or socket changed |
| TunnelClient.Client.MasterClosed | lib/client.js:70-77 | on the control socket's close event the client is disconnected, forgets the socket, drops every subscriber and runs the waiting callback; masters, timers and bridges are unchanged, the sockets gain one probe only for a reconnect, and the ping interval changes only when the setup callback closes again |
| TunnelClient.Client.SetupMaster | lib/client.js:102-107 | a new control socket becomes `this.socket`, with the setup callback as its error handler |
| TunnelClient.Client.MasterConnected | lib/client.js:109-154 | on connect the socket sends the uuid handshake and the 1000 ms timer is armed |
| TunnelClient.Client.MasterError | lib/client.js:107-118 | before connect the error goes to the setup callback, which closes and reports it; after connect it causes one close whose callback is one reconnect. Only the errored socket is destroyed (plus one new probe on reconnect); bridges, close callbacks and handshake timers are unchanged |
| TunnelClient.Client.MasterErrorClearingTimer | lib/client.js:114-126 | the handshake timer of the socket that failed is cleared; every outcome of MasterError, before and after connect, is otherwise the same |
| TunnelClient.Client.MasterPeerClosed | lib/client.js:148-152 | a clean close of a control socket by the relay only destroys that socket |
| TunnelClient.Client.HandshakeTimeout | lib/client.js:120-123 | the timer closes `this.socket` with the setup callback bound to ServerDoesNotRespond: with an open control socket, the `close` frame (subscribed bridges and the control socket destroyed, nothing else); otherwise the report at once and no socket, bridge or close callback changed |
| TunnelClient.Client.MasterData | lib/client.js:125-146 | the first data is the ack (as AckReceived, on any control socket awaiting one); later data may open a data connection and changes nothing else; before connect or after a rejected ack nothing changes |
| TunnelClient.Client.AckReceived | lib/client.js:125-146 | the ack cancels the timer; unless it is JSON with a truthy `ok` the client closes `this.socket`, whichever socket that is (the `close` frame when it is open, the ClosedByServer report at once when it is not); otherwise ping starts, `connected` is set, the callback gets `uuid.remotehost`, and sockets, bridges and subscribers are unchanged |
| TunnelClient.Client.StartPing | lib/client.js:126-143 | the handshake timer is cancelled, the master counts as acked and the ping interval runs on its socket |
| TunnelClient.Client.AcceptAck | lib/client.js:138-145 | a truthy `ok`: ping starts, `connected` is set and a user callback gets `uuid.remotehost` |
| TunnelClient.Client.RejectAck | lib/client.js:134-136 | anything else: the timer is cancelled and the client closes `this.socket`, even when the ack came on an older socket; with it open, the subscribed bridges and it are destroyed and nothing else, and the callback waits to report ClosedByServer; with none open the report comes at once and no socket changes |
| TunnelClient.Client.PingTick | lib/client.js:140-143 | each tick writes `ping` to the control socket |
| TunnelClient.Client.CreatePoolConnection | lib/client.js:158-177 | a JSON control message opens exactly one data connection with its request token; `pong` and non-JSON open none |
| TunnelClient.Client.DataConnected | lib/client.js:180-182 | a connected data connection writes the uuid and request token |
| TunnelClient.Client.DataPeerClosed | lib/client.js:180-183 | a data connection closed by the relay before its first data only has its socket destroyed |
| TunnelClient.Client.DataArrived | lib/client.js:182-221 | first data opens the local socket and subscribes the bridge to the client's close |
| TunnelClient.Client.LocalConnected | lib/client.js:189-200 | the first chunk reaches the local socket through the Host rewriter |
| TunnelClient.Client.RemoteChunk | lib/client.js:197 | later chunks from the relay reach the local socket through the Host rewriter |
| TunnelClient.Client.LocalChunk | lib/client.js:198 | chunks from the local service reach the relay unchanged |
| TunnelClient.Client.DataError | lib/client.js:226-232 | an errored data connection is destroyed and no other socket changes; a bridged one is also torn down, which destroys exactly its local socket besides and marks only that bridge |
| TunnelClient.Client.BridgeEvent | lib/client.js:211-220 | an error or close on either bridge socket tears that bridge down: exactly its two sockets destroyed and only its entry marked |
| TunnelClient.TearDownBridges | lib/client.js:201-210 | tearing down one bridge keeps the bridge safety property: every torn-down bridge has both sockets destroyed and only open bridges listen for `close` |
| TunnelClient.DestroyAllFrame | lib/client.js:201-210 | destroying a set of sockets sets exactly their destroyed flags and changes nothing else |
| TunnelClient.MarkTornDownFrame | lib/client.js:201-210 | marking bridges torn down keeps every data connection and changes only the marked bridges' flag |
| TunnelClient.TearDownStep | lib/client.js:201-210 | one more cleanUp after the bridges already torn down gives the marking and destruction of the larger set |
| TunnelClient.TornDownMarked | lib/client.js:69 | every subscribed bridge is marked torn down after the event |
| TunnelClient.DestroyAbsorbed | lib/client.js:204-209 | destroying a socket before it is destroyed again changes nothing |
| TunnelClient.Client.CleanUpListener | lib/client.js:201-210 | one listener of the client's 'close' event runs cleanUp, which extends the torn-down set by that bridge |
| TunnelClient.Client.CleanUp | lib/client.js:201-210 | cleanUp unsubscribes and destroys whichever bridge socket is not destroyed; both end up destroyed and nothing else changes |
| ClientScenarios.ErrorBeforeConnect | test/client.unit.js:358-372 | an error on the control socket before it connects reaches the callback once |
| ClientScenarios.ErrorAfterHandshake | test/client.unit.js:374-395 | an error after a good handshake leads to exactly one new probe, with no callback |
| ClientScenarios.HandshakeTimesOut | test/client.unit.js:125-138 | no ack: the callback gets ServerDoesNotRespond |
| ClientScenarios.HandshakeRejected | test/client.unit.js:154-167 | `{ok: false}`: the callback gets ClosedByServer |
| ClientScenarios.HandshakeAccepted | test/client.unit.js:140-182 | `{ok: true}`: the callback gets the tunnel name and a tick writes `ping` |
| ClientScenarios.LocalServiceDown | test/client.unit.js:264-306 | an unreachable local service: the callback gets an error and the client stays disconnected |
| ClientScenarios.CloseOpenControl | test/client.unit.js:318-327 | `close` marks the client closed and destroys the control socket; its callback runs on the close event |
| ClientScenarios.PeerClosesControl | lib/client.js:62-84 | after the relay closes the control socket, `close` runs its callback at once and `closed` stays unset |
| ClientScenarios.StaleHandshakeTimer | lib/client.js:114-123 | an error while the ack is awaited reconnects, then the first socket's timer closes the new control socket and reports ServerDoesNotRespond |
| ClientScenarios.NoStaleHandshakeTimer | lib/client.js:114-126 | with the timer cleared on the error, the reconnected socket stays open and nothing is reported |
| PoolScript.WaitingAfterDial | index.js:163-165 | each createPoolConnection adds one waiting connection and one never handed a request |
| PoolScript.WaitingAfterConnect | index.js:108-111 | a pool connection that connects is still waiting |
| PoolScript.WaitingAfterReplacement | index.js:113-117 | a connection taking a request plus its one replacement keep both counts |
| PoolScript.WaitingAfterBridgeUpdate | index.js:117-127 | bridging does not change the waiting connections |
| PoolScript.WaitingSwap | index.js:113-117 | the waiting set loses the connection that took the request and gains its replacement |
| PoolScript.UnservedSwap | index.js:113-117 | the same exchange in the set of connections never handed a request |
| PoolScript.WaitingAfterDrop | index.js:107-141 | an idle connection closed by the relay stops waiting but still counts as never handed a request |
| PoolScript.UnservedSplit | index.js:107-141 | the connections never handed a request are exactly the waiting ones and the dropped ones |
| PoolScript.PoolBound | index.js:107-141 | at most `pool_size` connections wait, and exactly `pool_size` when the relay dropped none |
| PoolScript.Script.constructor | index.js:65-71 | the script starts by probing the local service, with no pool |
| PoolScript.Script.Open | index.js:148 | `net.connect` adds one fresh socket and changes no other |
| PoolScript.Script.Write | index.js:152 | `write` appends the message to that socket's log and changes nothing else |
| PoolScript.Script.End | index.js:67 | `end()` sets that socket's ended flag and changes nothing else |
| PoolScript.Script.ProbeFinished | index.js:143-148 | an unreachable local service exits, with the failed probe socket destroyed and no other socket changed; otherwise the probe is ended and the control connection opened |
| PoolScript.Script.LateProbeError | index.js:66-70 | the probe's error listener outlives a successful probe: a later error on that socket destroys it and exits the process in any phase |
| PoolScript.Script.ControlConnected | index.js:148-156 | the control connection sends the uuid and arms the 1000 ms timer |
| PoolScript.Script.HandshakeTimeout | index.js:153-156 | the timer exits the process, even after a rejected ack |
| PoolScript.Script.ControlError | index.js:196-199 | a control error is only logged; the socket that reported it is destroyed and nothing else changes |
| PoolScript.Script.ControlData | index.js:157-179 | a non-JSON ack exits; a falsy `ok` ends the control connection and returns before the timer is cleared or the pool filled; a truthy one fills the pool to `pool_size` with no reply listener yet; later data fires the pending ping-reply listeners, which only log |
| PoolScript.Script.FillPool | index.js:163-165 | exactly `pool_size` new connections, all dialing |
| PoolScript.Script.CreatePoolConnection | index.js:107-108 | one new dialing connection |
| PoolScript.Script.PingTick | index.js:167-178 | each tick registers one reply listener and writes `ping` |
| PoolScript.Script.PoolConnected | index.js:108-111 | a pool connection announces the uuid on connect |
| PoolScript.Script.PoolData | index.js:113-117 | first data opens exactly one replacement, then the local connection; the number waiting is unchanged |
| PoolScript.Script.PoolPeerClosed | index.js:107-141 | the relay closing an idle pool connection destroys it with no replacement: one fewer connection waits |
| PoolScript.Script.LocalConnected | index.js:117-128 | the first chunk reaches the local service through the Host rewriter |
| PoolScript.Script.RemoteChunk | index.js:73-105 | later chunks pass through the same rewriter, gated on the `--rewrite-host` argument |
| PoolScript.Script.LocalChunk | index.js:126 | chunks from the local service reach the relay unchanged |
| PoolScript.Script.BridgeError | index.js:129-138 | an error on either bridge socket: that socket is destroyed, both are ended with their write logs kept, no other socket changes, and no chunk can cross the bridge any more |
| PoolScript.Script.PoolError | index.js:183-194 | an error on a dialing or idle pool connection is uncaught: the control connection is ended and the process exits |
| PoolScript.PoolStaysFull | index.js:113-117 | after the ack `pool_size` connections wait, and still do after one takes a request |
| PoolScript.PoolShrinks | index.js:107-141 | after the ack `pool_size` connections wait, and only `pool_size - 1` once the relay closes one |
| PoolScript.AckRejected | index.js:157-162 | a falsy ack leaves the pool empty and the timer armed, and ends the control connection |
| Settings.MergedWithoutConfig | lib/index.js:8-9 | without a configuration the settings equal the defaults |
| Settings.MergedServers | lib/index.js:10-15 | server addresses merge field by field |
| Settings.MergedIgnoresOtherKeys | lib/index.js:16 | top-level keys other than the picked five do not matter |
| Settings.MergedKeepsUnsupplied | lib/index.js:16 | a picked key the configuration lacks keeps its default |
| Settings.Merged | lib/index.js:7-17 | without a configuration the defaults; an absent server object keeps its default; a supplied pool size, rewrite target or uuid file wins |
| Settings.MergedIdempotent | lib/index.js:7-17 | merging the same configuration again changes nothing |
| Settings.ServerAddress.Extend | lib/index.js:11 | `_.extend` on a server object replaces exactly the supplied fields |
| Settings.Settings.Defaults | lib/default_settings.js:3-16 | the defaults: localhost:3001, proxy.lodoss.org:5000, no pool size, no rewrite target, debug and cli off |
| Settings.Settings.ShallowCopy | lib/index.js:8 | the copy has the same values and shares the server objects |
| Settings.Settings.DeepCopy | lib/index.js:8 | the copy has the same values in two new server objects, so nothing it changes reaches `d` |
| Settings.Settings.ExtendPicked | lib/index.js:16 | exactly the supplied picked keys are overwritten |
| Settings.Settings.MergeInto | lib/index.js:9-17 | the merge steps produce the merged value in place |
| Settings.CreateSettingsAsWritten | lib/index.js:7-17 | the result is the merged value, and the defaults' server objects now hold the merged servers |
| Settings.DefaultsOverwrittenExample | lib/index.js:8-14 | after one call with local port 4000, a call without configuration gets port 4000 rather than the defaults |
| Settings.CreateSettings | lib/index.js:7-17 | with a deep copy: the merged value, in new objects, defaults untouched |
| Settings.DefaultsKeptExample | lib/index.js:8-14 | with the deep copy the second call equals the defaults |
| Settings.Expose | lib/index.js:7-20 | the factory returns a new, valid, unconnected client whose settings are the merge of the defaults as they were, and leaves the defaults' server objects holding the merged servers |

## Left out

- Real sockets and streams (connecting, `pipe`, the Transform, back-pressure, `pause`, `setNoDelay`): sockets are handles with a destroyed flag, an ended flag and a write log, and each arriving chunk is an event.
- Timers: the 1000 ms and 5000 ms timers are tick events, so real time is not modelled.
- JSON parsing: a control message is abstracted as `pong`, not JSON, or JSON with a truthy or falsy `ok` and an optional `request`. The message `null` (where lib/client.js:174 would throw) is not modelled.
- The uuid file and uuid generation: the uuid is a parameter.
- The logger, `setMaxListeners`, `process.exit` beyond an `exited` flag, SIGINT, and command-line parsing in bin/exposetoweb.js and index.js:9-54.
- HostRewriter.IsNonZeroNumber: port truthiness is "non-empty decimal digits, not all zero". JavaScript's `Number` also accepts whitespace, hex, exponents and `Infinity`.
- HostRewriter.Rewrite: requires valid UTF-8 when rewriting is enabled. For invalid input `toString()` substitutes U+FFFD and the byte offset drifts. With rewriting disabled any bytes pass unchanged.
- TunnelClient.Client.LocalConnected: requires the first chunk to be valid UTF-8 when rewriting is enabled, for the same reason.
- TunnelClient.Client.RemoteChunk: requires a valid UTF-8 chunk when rewriting is enabled, for the same reason.
- PoolScript.Script.LocalConnected: requires the first chunk to be valid UTF-8 when rewriting is enabled, for the same reason.
- PoolScript.Script.RemoteChunk: requires a valid UTF-8 chunk when rewriting is enabled, for the same reason.
- HostRewriter.RewrittenLines: stated only for targets without CRLF. A target containing CRLF adds lines.
- HostRewriter.HostLinePortRule: stated for a host and port without ':' and a port not starting with a space. Other values split differently.
- TunnelClient.Client.MasterError: the precise outcome is stated only for an error on the current control socket. An error on an older control socket closes whatever socket is current.
- TunnelClient.Client.MasterErrorClearingTimer: the same limit as MasterError.
- TunnelClient.Client.ProbeFinished: the probe's `end` and `error` listeners can both fire (lib/client.js:98-99), which would run the callback twice. Each probe is modelled as finishing once.
- TunnelClient.Client.constructor: the client keeps a value copy of its settings. Later writes into shared settings objects (see Findings) are not seen by an existing client.
- Settings.ServerAddress.Extend: copies only `host` and `port`. `_.extend` also copies any other key of the user's server object.
- PoolScript.Script.constructor: `pool_size` is an integer. `Number(argv.ps)` could also be NaN or fractional, which would run the loop zero times or round up.
- A clean close of a bridged connection by either peer: in lib/client.js the bridge's 'close' listeners are BridgeEvent; in index.js `pipe` ends the other socket, which is not modelled (streams are left out).
- A clean close of the control connection in index.js: its 'end' handler (index.js:201-203) only logs, and its effect on the socket state is the destruction ControlError models.
- Writing to a destroyed socket is recorded in the write log. In Node.js it would raise an error.

## Findings

| source | as written | input that shows it | evidently intended | confidence | as-written member | corrected member |
|---|---|---|---|---|---|---|
| lib/client.js:114-123 | the error handler installed after connect closes and reconnects but does not clear the handshake timer, whose callback closes whatever `self.socket` is when it fires | an error on the control socket after connect and before the ack, then a reachable probe opening a new control socket, then the first socket's 1000 ms timer firing | the timer is cleared with its socket, so the new connection is left alone and the callback gets no ServerDoesNotRespond | not executed; follows from `close` never touching `timer` | ClientScenarios.StaleHandshakeTimer | TunnelClient.Client.MasterErrorClearingTimer |
| lib/index.js:8-14 | `_.clone` copies only the top level, so `_.extend` on `settings.local_server` and `settings.remote_server` writes into the server objects of the shared defaults | a first call with `{local_server: {port: 4000}}`, then a call with no configuration in the same process | every call starts from unchanged defaults, so the second call gets local port 3001 | not executed; follows from `_.clone` being shallow | Settings.DefaultsOverwrittenExample | Settings.CreateSettings |
