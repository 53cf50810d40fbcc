/** The client facade: the socket endpoint seen from the client, the routing
    of outbound data, the already-connected guards of `initiate` / `join`, and
    the reactions installed between the socket, the direct channel and the
    application. */
module ClientPeerSox {
  import opened Common
  import opened ClientConnection
  import opened ClientRTC

  const ALREADY_CONNECTED: string := "Socket already connected"

  function ChannelOpt(c: Channel?): set<Channel> {
    if c == null then {} else {c}
  }

  /** The socket endpoint (`ConnectionSocket`) after its handshake: a base
      connection plus the WebSocket kept by `initSocket` (its `socket`
      field, `null` until a handshake succeeded). */
  class SocketEndpoint {
    const conn: Connection
    var ws: Channel?

    constructor (codec: Codec)
      ensures fresh(conn) && conn.codec == codec && !conn.connected && ws == null
      ensures conn.emitted == [] && conn.delivered == [] && conn.onBinary == Unset && conn.onString == Unset
    {
      conn := new Connection(codec);
      ws := null;
    }

    /** `send(data)`: with no WebSocket the source throws a TypeError,
        reported here as `ok == false`. */
    method Send(data: Message) returns (ok: bool)
      modifies ChannelOpt(ws)`sent
      ensures ok <==> ws != null
      ensures ok ==> ws.sent == old(ws.sent) + [data]
    {
      ok := ws != null;
      if ok {
        ws.Send(data);
      }
    }

    /** `sendSignal(signal)`: the signal as a `peer.signal` control message;
        with no WebSocket the source throws, reported as `ok == false`. */
    method SendSignal(signal: Data) returns (ok: bool)
      modifies ChannelOpt(ws)`sent
      ensures ok <==> ws != null
      ensures ok ==> ws.sent == old(ws.sent) + [Str(Frame(conn.codec, "peer.signal", signal))]
    {
      ok := ws != null;
      if ok {
        conn.SendInternalEvent("peer.signal", signal, ws);
      }
    }

    /** `close()`: closes the WebSocket if there is one, then `_handleClose`. */
    method Close()
      modifies ChannelOpt(ws)`closed, conn`connected, conn`emitted
      ensures ws != null ==> ws.closed
      ensures !conn.connected
      ensures conn.emitted == old(conn.emitted) + [Event("connection.closed", Empty)]
    {
      if ws != null {
        ws.Close();
      }
      conn.HandleClose();
    }
  }

  /** A request made to the REST API. */
  datatype ApiCall = RequestPairing | GetHash(code: string)

  /** What the REST client's promises always resolve with: `ClientAPI`
      turns a failed request and an unusable answer into an `Error` and
      returns it instead of rejecting. `initiate` also resolves with an
      `Error` its `catch` returns. */
  datatype Value = PairingValue(pairing: Pairing) | ErrorValue(error: string)

  datatype Settled = Resolved(value: Value) | Rejected(reason: string)

  /** The `client.register` payload the handshake sends for the value
      handed to `connect`: a pairing goes as its `{code, hash}` object, and
      an `Error`, whose fields are not enumerable, serialises as `{}`. */
  function RegisterPayload(v: Value): (d: Data)
    ensures d.PairingData? <==> v.PairingValue?
    ensures v.PairingValue? ==> d.credential == v.pairing
  {
    match v
    case PairingValue(p) => PairingData(p)
    case ErrorValue(_) => Empty
  }

  /** `initiate()`: `resolved` is what `requestPairing()` resolved with,
      which `_connectSocket` hands to the handshake whatever it is, and
      `refusal` the rejection reason of that handshake (`None` when the
      handshake resolves, with the value it was given). */
  function InitiateOutcome(socketConnected: bool, resolved: Value, refusal: Option<string>): Settled {
    if socketConnected then Rejected(ALREADY_CONNECTED)
    else if refusal.Some? then Resolved(ErrorValue(refusal.value))
    else Resolved(resolved)
  }

  /** `join(code)`: as `initiate`, with `getHash(code)` and no `catch`. */
  function JoinOutcome(socketConnected: bool, resolved: Value, refusal: Option<string>): Settled {
    if socketConnected then Rejected(ALREADY_CONNECTED)
    else if refusal.Some? then Rejected(refusal.value)
    else Resolved(resolved)
  }

  /** `initiate` rejects exactly when the socket is connected; a refused
      handshake resolves with its error, and an accepted one with whatever
      the API resolved with, so a failed request reaches the caller as a
      resolved `Error` only after a handshake with it was accepted. */
  lemma InitiateRejectsOnlyWhenConnected(socketConnected: bool, resolved: Value, refusal: Option<string>)
    ensures InitiateOutcome(socketConnected, resolved, refusal).Rejected? <==> socketConnected
    ensures InitiateOutcome(socketConnected, resolved, refusal).Rejected? ==>
      InitiateOutcome(socketConnected, resolved, refusal).reason == ALREADY_CONNECTED
    ensures !socketConnected && refusal.Some? ==>
      InitiateOutcome(socketConnected, resolved, refusal) == Resolved(ErrorValue(refusal.value))
    ensures !socketConnected && refusal.None? ==> InitiateOutcome(socketConnected, resolved, refusal) == Resolved(resolved)
    ensures InitiateOutcome(socketConnected, resolved, refusal).Resolved? &&
            InitiateOutcome(socketConnected, resolved, refusal).value.PairingValue? <==>
      !socketConnected && refusal.None? && resolved.PairingValue?
  {
  }

  /** `join` resolves exactly when the socket is not connected and the
      handshake is accepted, and then with what the API resolved with (a
      pairing, or the API's `Error`); it rejects with the handshake's
      reason when that is refused. */
  lemma JoinRejectsOnlyOnConnectedOrRefusal(socketConnected: bool, resolved: Value, refusal: Option<string>)
    ensures JoinOutcome(socketConnected, resolved, refusal).Resolved? <==> !socketConnected && refusal.None?
    ensures JoinOutcome(socketConnected, resolved, refusal).Resolved? ==>
      JoinOutcome(socketConnected, resolved, refusal) == Resolved(resolved)
    ensures socketConnected ==> JoinOutcome(socketConnected, resolved, refusal) == Rejected(ALREADY_CONNECTED)
    ensures !socketConnected && refusal.Some? ==> JoinOutcome(socketConnected, resolved, refusal) == Rejected(refusal.value)
  {
  }

  /** The two entry points differ only on a refused handshake, which
      `initiate` resolves with and `join` rejects with. */
  lemma InitiateAndJoinAgreeOnSuccess(socketConnected: bool, resolved: Value, refusal: Option<string>)
    ensures JoinOutcome(socketConnected, resolved, refusal).Resolved? ==>
      InitiateOutcome(socketConnected, resolved, refusal) == JoinOutcome(socketConnected, resolved, refusal)
    ensures socketConnected ==>
      InitiateOutcome(socketConnected, resolved, refusal) == JoinOutcome(socketConnected, resolved, refusal)
    ensures !socketConnected && refusal.Some? ==>
      && InitiateOutcome(socketConnected, resolved, refusal) == Resolved(ErrorValue(refusal.value))
      && JoinOutcome(socketConnected, resolved, refusal) == Rejected(refusal.value)
  {
  }

  /** `data.isInitiator` of a `peer.connected` payload; a payload without
      the field yields `undefined`, which is falsy. */
  function InitiatorOf(d: Data): bool {
    d.PeerInfo? && d.isInitiator
  }

  /** `PeerSoxClient`: the socket endpoint, the direct channel and the
      events the facade itself emits to the application. */
  class PeerSoxClient {
    const socket: SocketEndpoint
    const rtc: ConnectionRTC
    const autoUpgrade: bool
    var emitted: seq<Event>
    var apiCalls: seq<ApiCall>
    var connects: seq<Value>     // the values `_connectSocket` handed to the handshake

    ghost predicate Valid()
      reads this, socket, rtc, socket.conn, rtc.conn
    {
      socket.conn != rtc.conn && rtc.Valid()
    }

    /** Both connections start unconnected and without handlers;
        `autoUpgrade` defaults to true in the source. */
    constructor (codec: Codec, autoUpgrade: bool)
      ensures Valid() && fresh(socket) && fresh(rtc) && fresh(socket.conn) && fresh(rtc.conn)
      ensures this.autoUpgrade == autoUpgrade && emitted == [] && apiCalls == [] && connects == []
      ensures !socket.conn.connected && !rtc.conn.connected && socket.ws == null && rtc.peer == null
      ensures socket.conn.codec == codec && rtc.conn.codec == codec
    {
      socket := new SocketEndpoint(codec);
      rtc := new ConnectionRTC(codec);
      this.autoUpgrade := autoUpgrade;
      emitted := [];
      apiCalls := [];
      connects := [];
    }

    /** `set onBinary(fn)`: the same handler on both connections. */
    method SetOnBinary(h: Handler)
      requires Valid()
      modifies socket.conn`onBinary, rtc.conn`onBinary
      ensures Valid() && socket.conn.onBinary == h && rtc.conn.onBinary == h
    {
      socket.conn.onBinary := h;
      rtc.conn.onBinary := h;
    }

    /** `set onString(fn)`: the same handler on both connections. */
    method SetOnString(h: Handler)
      requires Valid()
      modifies socket.conn`onString, rtc.conn`onString
      ensures Valid() && socket.conn.onString == h && rtc.conn.onString == h
    {
      socket.conn.onString := h;
      rtc.conn.onString := h;
    }

    /** `initiate()`: no API request while the socket is connected;
        otherwise the API's value, pairing or `Error`, goes to the
        handshake. */
    method Initiate(resolved: Value, refusal: Option<string>) returns (outcome: Settled)
      modifies this`apiCalls, this`connects
      ensures outcome == InitiateOutcome(socket.conn.connected, resolved, refusal)
      ensures apiCalls == old(apiCalls) + (if socket.conn.connected then [] else [RequestPairing])
      ensures connects == old(connects) + (if socket.conn.connected then [] else [resolved])
    {
      var connected := socket.conn.IsConnected();
      if connected {
        socket.conn.HandleAlreadyConnected();
        return Rejected(ALREADY_CONNECTED);
      }
      apiCalls := apiCalls + [RequestPairing];
      connects := connects + [resolved];
      if refusal.Some? {
        outcome := Resolved(ErrorValue(refusal.value));
      } else {
        outcome := Resolved(resolved);
      }
    }

    /** `join(code)`: no API request while the socket is connected;
        otherwise the API's value, pairing or `Error`, goes to the
        handshake. */
    method Join(code: string, resolved: Value, refusal: Option<string>) returns (outcome: Settled)
      modifies this`apiCalls, this`connects
      ensures outcome == JoinOutcome(socket.conn.connected, resolved, refusal)
      ensures apiCalls == old(apiCalls) + (if socket.conn.connected then [] else [GetHash(code)])
      ensures connects == old(connects) + (if socket.conn.connected then [] else [resolved])
    {
      var connected := socket.conn.IsConnected();
      if connected {
        return Rejected(ALREADY_CONNECTED);
      }
      apiCalls := apiCalls + [GetHash(code)];
      connects := connects + [resolved];
      if refusal.Some? {
        outcome := Rejected(refusal.value);
      } else {
        outcome := Resolved(resolved);
      }
    }

    /** `send(data)`: over the direct channel exactly when it reports
        connected, otherwise over the socket; exactly one transport gets the
        data, and `ok` is false only where the source throws. */
    method Send(data: Message) returns (ok: bool)
      requires Valid()
      modifies EngineOpt(rtc.peer)`sent, ChannelOpt(socket.ws)`sent
      ensures Valid()
      ensures rtc.conn.connected ==> ok && rtc.peer.sent == old(rtc.peer.sent) + [data]
      ensures rtc.conn.connected && socket.ws != null ==> socket.ws.sent == old(socket.ws.sent)
      ensures !rtc.conn.connected ==> (ok <==> socket.ws != null)
      ensures !rtc.conn.connected && socket.ws != null ==> socket.ws.sent == old(socket.ws.sent) + [data]
      ensures !rtc.conn.connected && rtc.peer != null ==> rtc.peer.sent == old(rtc.peer.sent)
    {
      var connected := rtc.conn.IsConnected();
      if connected {
        ok := rtc.Send(data);
      } else {
        ok := socket.Send(data);
      }
    }

    /** `upgrade(isInitiator)`: `rtc.connect(isInitiator)`. */
    method Upgrade(isInitiator: bool)
      requires Valid()
      modifies rtc`peer
      ensures Valid()
      ensures old(rtc.conn.connected) ==> rtc.peer == old(rtc.peer)
      ensures !old(rtc.conn.connected) ==>
        fresh(rtc.peer) && rtc.peer.initiator == isInitiator && !rtc.peer.destroyed && rtc.peer.sent == [] && rtc.peer.signals == []
    {
      rtc.Connect(isInitiator);
    }

    /** The listener for the socket's `connection.closed`: closes the direct
        channel and re-emits the event. */
    method OnSocketClosed()
      requires Valid()
      modifies EngineOpt(rtc.peer)`destroyed, this`emitted
      ensures Valid()
      ensures rtc.conn.connected ==> rtc.peer.destroyed
      ensures !rtc.conn.connected && rtc.peer != null ==> rtc.peer.destroyed == old(rtc.peer.destroyed)
      ensures emitted == old(emitted) + [Event("connection.closed", Empty)]
    {
      rtc.Close();
      emitted := emitted + [Event("connection.closed", Empty)];
    }

    /** `close()`: closes the direct channel, then the socket, whose
        `connection.closed` runs the listener above before `close` returns. */
    method Close()
      requires Valid()
      modifies EngineOpt(rtc.peer)`destroyed, ChannelOpt(socket.ws)`closed, socket.conn`connected, socket.conn`emitted
      modifies this`emitted
      ensures Valid()
      ensures rtc.conn.connected ==> rtc.peer.destroyed
      ensures !rtc.conn.connected && rtc.peer != null ==> rtc.peer.destroyed == old(rtc.peer.destroyed)
      ensures socket.ws != null ==> socket.ws.closed
      ensures !socket.conn.connected
      ensures socket.conn.emitted == old(socket.conn.emitted) + [Event("connection.closed", Empty)]
      ensures emitted == old(emitted) + [Event("connection.closed", Empty)]
    {
      rtc.Close();
      socket.Close();
      OnSocketClosed();
    }

    /** The engine, if any, is neither destroyed nor fed a signal. */
    twostate predicate EngineKept(engine: Engine?)
      reads EngineOpt(engine)
    {
      engine != null ==> engine.destroyed == old(engine.destroyed) && engine.signals == old(engine.signals)
    }

    /** The reaction to an event emitted by the socket connection, where
        `engine` was the direct channel's engine before. */
    twostate predicate ReactedToSocket(e: Event, engine: Engine?)
      reads this, socket, rtc, socket.conn, rtc.conn, EngineOpt(rtc.peer), EngineOpt(engine)
    {
      && Valid()
      && socket.ws == old(socket.ws)
      && if e.name == "connection.established" then
           emitted == old(emitted) + [e] && rtc.peer == old(rtc.peer) && EngineKept(engine)
         else if e.name == "connection.closed" then
           // the engine is destroyed only while the channel is connected
           && emitted == old(emitted) + [Event("connection.closed", Empty)]
           && rtc.peer == old(rtc.peer)
           && (rtc.conn.connected ==> rtc.peer.destroyed)
           && (!rtc.conn.connected ==> EngineKept(engine))
           && (engine != null ==> engine.signals == old(engine.signals))
         else if e.name == "peer.connected" then
           // an upgrade replaces the engine and leaves the old one alone
           && emitted == old(emitted) + [e]
           && (autoUpgrade && !rtc.conn.connected ==>
                 fresh(rtc.peer) && rtc.peer.initiator == InitiatorOf(e.data) && !rtc.peer.destroyed
                 && rtc.peer.sent == [] && rtc.peer.signals == [])
           && (!autoUpgrade || rtc.conn.connected ==> rtc.peer == old(rtc.peer))
           && EngineKept(engine)
         else if e.name == "peer.signal" then
           && emitted == old(emitted)
           && rtc.peer == old(rtc.peer)
           && (rtc.peer != null ==> rtc.peer.signals == old(rtc.peer.signals) + [e.data])
           && (engine != null ==> engine.destroyed == old(engine.destroyed))
         else
           emitted == old(emitted) && rtc.peer == old(rtc.peer) && EngineKept(engine)
    }

    /** The listeners `_addEventListeners` installs on the socket connection:
        `connection.established` and `peer.connected` are re-emitted,
        `connection.closed` also closes the direct channel, `peer.connected`
        upgrades with the payload's `isInitiator` exactly when `autoUpgrade`
        is set, and `peer.signal` is fed to the direct channel, which throws
        (`threw`) when there is no engine yet. */
    method OnSocketEvent(e: Event) returns (threw: bool)
      requires Valid()
      modifies this`emitted, rtc`peer, EngineOpt(rtc.peer)`destroyed, EngineOpt(rtc.peer)`signals
      ensures threw <==> e.name == "peer.signal" && old(rtc.peer) == null
      ensures ReactedToSocket(e, old(rtc.peer))
    {
      threw := false;
      if e.name == "connection.established" {
        emitted := emitted + [e];
      } else if e.name == "connection.closed" {
        OnSocketClosed();
      } else if e.name == "peer.connected" {
        emitted := emitted + [e];
        if autoUpgrade {
          Upgrade(InitiatorOf(e.data));
        }
      } else if e.name == "peer.signal" {
        var ok := rtc.Signal(e.data);
        threw := !ok;
      }
    }

    /** A message arriving on the socket: the demultiplexer, then the
        listeners for the event it emits, if any; `threw` reports the fault
        lane's `TypeError` and a throwing listener's. */
    method OnSocketMessage(m: Message) returns (threw: bool)
      requires Valid()
      modifies socket.conn`emitted, socket.conn`delivered
      modifies this`emitted, rtc`peer, EngineOpt(rtc.peer)`destroyed, EngineOpt(rtc.peer)`signals
      ensures threw <==> match LaneOf(socket.conn.codec, m)
                         case Fault => true
                         case Emit(e) => e.name == "peer.signal" && old(rtc.peer) == null
                         case _ => false
      ensures match LaneOf(socket.conn.codec, m)
              case Emit(e) =>
                socket.conn.emitted == old(socket.conn.emitted) + [e] && socket.conn.delivered == old(socket.conn.delivered)
                && ReactedToSocket(e, old(rtc.peer))
              case Fault =>
                socket.conn.emitted == old(socket.conn.emitted) && socket.conn.delivered == old(socket.conn.delivered)
                && unchanged(this) && rtc.peer == old(rtc.peer) && EngineKept(rtc.peer)
              case ToString(s) =>
                socket.conn.emitted == old(socket.conn.emitted)
                && socket.conn.delivered == old(socket.conn.delivered) + [StringDelivery(socket.conn.onString, s)]
                && unchanged(this) && rtc.peer == old(rtc.peer) && EngineKept(rtc.peer)
              case ToBinary(d) =>
                socket.conn.emitted == old(socket.conn.emitted)
                && socket.conn.delivered == old(socket.conn.delivered) + [BinaryDelivery(socket.conn.onBinary, d)]
                && unchanged(this) && rtc.peer == old(rtc.peer) && EngineKept(rtc.peer)
    {
      threw := socket.conn.HandleIncomingMessage(m);
      var lane := LaneOf(socket.conn.codec, m);
      if lane.Emit? {
        threw := OnSocketEvent(lane.event);
      }
    }

    /** The listener for the direct channel's `rtc.signal`: the signal goes
        to the peer through the socket, which throws (`threw`) when there is
        no WebSocket. */
    method OnRtcEvent(e: Event) returns (threw: bool)
      requires Valid()
      modifies ChannelOpt(socket.ws)`sent
      ensures Valid()
      ensures threw <==> e.name == "rtc.signal" && socket.ws == null
      ensures e.name == "rtc.signal" && socket.ws != null ==>
        socket.ws.sent == old(socket.ws.sent) + [Str(Frame(socket.conn.codec, "peer.signal", e.data))]
      ensures e.name != "rtc.signal" && socket.ws != null ==> socket.ws.sent == old(socket.ws.sent)
    {
      threw := false;
      if e.name == "rtc.signal" {
        var ok := socket.SendSignal(e.data);
        threw := !ok;
      }
    }

    /** The engine's `signal` event: `onSignal`, whose `rtc.signal` is relayed
        over the socket only while the direct channel is not connected; the
        relay throws (`threw`) when there is no WebSocket. */
    method OnEngineSignal(signal: Data) returns (threw: bool)
      requires Valid()
      modifies rtc.conn`emitted, ChannelOpt(socket.ws)`sent
      ensures Valid()
      ensures threw <==> !rtc.conn.connected && socket.ws == null
      ensures rtc.conn.connected ==> rtc.conn.emitted == old(rtc.conn.emitted)
      ensures rtc.conn.connected && socket.ws != null ==> socket.ws.sent == old(socket.ws.sent)
      ensures !rtc.conn.connected ==> rtc.conn.emitted == old(rtc.conn.emitted) + [Event("rtc.signal", signal)]
      ensures !rtc.conn.connected && socket.ws != null ==>
        socket.ws.sent == old(socket.ws.sent) + [Str(Frame(socket.conn.codec, "peer.signal", signal))]
    {
      threw := false;
      rtc.OnSignal(signal);
      if !rtc.conn.connected {
        threw := OnRtcEvent(Event("rtc.signal", signal));
      }
    }
  }
}
