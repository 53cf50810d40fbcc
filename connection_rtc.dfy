/** The direct-channel endpoint: guards around an opaque negotiation engine
    (a WebRTC peer), whose events feed the base connection. */
module ClientRTC {
  import opened Common
  import opened ClientConnection

  /** The negotiation engine, seen from outside: its initiator flag, whether
      it was destroyed, what it was asked to send and the signals fed in. */
  class Engine {
    const initiator: bool
    var destroyed: bool
    var sent: seq<Message>
    var signals: seq<Data>

    constructor (initiator: bool)
      ensures this.initiator == initiator && !destroyed && sent == [] && signals == []
    {
      this.initiator := initiator;
      destroyed := false;
      sent := [];
      signals := [];
    }

    method Send(m: Message)
      modifies this`sent
      ensures sent == old(sent) + [m]
    {
      sent := sent + [m];
    }

    method Signal(signal: Data)
      modifies this`signals
      ensures signals == old(signals) + [signal]
    {
      signals := signals + [signal];
    }

    method Destroy()
      modifies this`destroyed
      ensures destroyed
    {
      destroyed := true;
    }
  }

  function EngineOpt(e: Engine?): set<Engine> {
    if e == null then {} else {e}
  }

  /** `ConnectionRTC`: a base connection plus the current engine. */
  class ConnectionRTC {
    const conn: Connection
    var peer: Engine?

    /** The flag only becomes true through an engine's `connect` event, so
        a connected endpoint has an engine. */
    ghost predicate Valid()
      reads this, conn
    {
      conn.connected ==> peer != null
    }

    constructor (codec: Codec)
      ensures fresh(conn) && conn.codec == codec && !conn.connected && peer == null
      ensures conn.emitted == [] && conn.delivered == [] && conn.onBinary == Unset && conn.onString == Unset
      ensures Valid()
    {
      conn := new Connection(codec);
      peer := null;
    }

    /** `connect(isInitiator)`: while connected, only reports it; otherwise
        replaces the engine with a fresh one with the given initiator flag. */
    method Connect(isInitiator: bool)
      requires Valid()
      modifies this`peer
      ensures Valid()
      ensures old(conn.connected) ==> peer == old(peer)
      ensures !old(conn.connected) ==>
        fresh(peer) && peer.initiator == isInitiator && !peer.destroyed && peer.sent == [] && peer.signals == []
    {
      var connected := conn.IsConnected();
      if connected {
        conn.HandleAlreadyConnected();
        return;
      }
      peer := new Engine(isInitiator);
    }

    /** `onError`, bound to the engine's `error` event. */
    method OnError(error: string)
      modifies conn`emitted
      ensures conn.emitted == old(conn.emitted) + [Event("connection.error", Text(error))]
    {
      conn.HandleError(error);
    }

    /** `onSignal`, bound to the engine's `signal` event: re-emitted as
        `rtc.signal` only while not connected. */
    method OnSignal(signal: Data)
      modifies conn`emitted
      ensures conn.connected ==> conn.emitted == old(conn.emitted)
      ensures !conn.connected ==> conn.emitted == old(conn.emitted) + [Event("rtc.signal", signal)]
    {
      var connected := conn.IsConnected();
      if connected {
        return;
      }
      conn.Emit("rtc.signal", signal);
    }

    /** `send(data)`: handed to the engine; with no engine the source throws
        a TypeError, reported here as `ok == false`. */
    method Send(data: Message) returns (ok: bool)
      modifies EngineOpt(peer)`sent
      ensures ok <==> peer != null
      ensures ok ==> peer.sent == old(peer.sent) + [data]
    {
      ok := peer != null;
      if ok {
        peer.Send(data);
      }
    }

    /** `signal(signal)`: an inbound negotiation payload for the engine; with
        no engine the source throws, reported as `ok == false`. */
    method Signal(signal: Data) returns (ok: bool)
      modifies EngineOpt(peer)`signals
      ensures ok <==> peer != null
      ensures ok ==> peer.signals == old(peer.signals) + [signal]
    {
      ok := peer != null;
      if ok {
        peer.Signal(signal);
      }
    }

    /** `close()`: destroys the engine only while connected. The flag itself
        changes only through the engine's `close` event. */
    method Close()
      requires Valid()
      modifies EngineOpt(peer)`destroyed
      ensures Valid()
      ensures conn.connected ==> peer.destroyed
      ensures !conn.connected && peer != null ==> peer.destroyed == old(peer.destroyed)
    {
      var connected := conn.IsConnected();
      if !connected {
        return;
      }
      peer.Destroy();
    }

    /** The engine's `connect` event: `_handleConnected`. */
    method OnEngineConnect()
      requires Valid() && peer != null
      modifies conn`connected, conn`emitted
      ensures Valid() && conn.connected
      ensures conn.emitted == old(conn.emitted) + [Event("connection.established", Empty)]
    {
      conn.HandleConnected();
    }

    /** The engine's `data` event: `_handleIncomingMessage`, which throws on
        the fault lane. */
    method OnEngineData(m: Message) returns (threw: bool)
      requires Valid()
      modifies conn`emitted, conn`delivered
      ensures Valid()
      ensures threw <==> LaneOf(conn.codec, m).Fault?
      ensures match LaneOf(conn.codec, m)
              case Emit(e) => conn.emitted == old(conn.emitted) + [e] && conn.delivered == old(conn.delivered)
              case Fault => conn.emitted == old(conn.emitted) && conn.delivered == old(conn.delivered)
              case ToString(s) =>
                conn.emitted == old(conn.emitted) && conn.delivered == old(conn.delivered) + [StringDelivery(conn.onString, s)]
              case ToBinary(d) =>
                conn.emitted == old(conn.emitted) && conn.delivered == old(conn.delivered) + [BinaryDelivery(conn.onBinary, d)]
    {
      threw := conn.HandleIncomingMessage(m);
    }

    /** The engine's `close` event: `_handleClose`. */
    method OnEngineClose()
      requires Valid()
      modifies conn`connected, conn`emitted
      ensures Valid() && !conn.connected
      ensures conn.emitted == old(conn.emitted) + [Event("connection.closed", Empty)]
    {
      conn.HandleClose();
    }
  }
}
