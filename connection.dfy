/** The client-side base connection: the connected flag, the emitted events
    and the two-lane demultiplexer shared by the socket and the direct
    channel. */
module ClientConnection {
  import opened Common

  /** An application handler for inbound data; `Unset` is the default that
      only logs that no handler was defined. */
  datatype Handler = Unset | Installed(id: nat)

  /** A payload handed to an application handler. */
  datatype Delivery =
    | StringDelivery(handler: Handler, text: string)
    | BinaryDelivery(handler: Handler, data: Message)

  /** An event emitted by a connection, with its payload. */
  datatype Event = Event(name: string, data: Data)

  /** The lane an inbound message takes. */
  datatype Lane =
    | Emit(event: Event)       // a control message, re-emitted as a named event
    | Fault                    // a control message that decodes to `null`: reading `.name` throws
    | ToString(text: string)   // any other string, for `onString`
    | ToBinary(data: Message)  // anything that is not a string, for `onBinary`

  /** `_handleIncomingMessage`'s dispatch. */
  function LaneOf(codec: Codec, m: Message): Lane {
    if m.Str? then
      if IsControl(m.text) then
        match codec.decode(m.text[1..])
        case Some(e) => Emit(Event(e.name, e.data))
        case None => Fault
      else ToString(m.text)
    else ToBinary(m)
  }

  /** Exactly one lane per message: prefixed strings are events (or a fault)
      and never reach `onString`; other strings reach `onString` unchanged;
      everything else reaches `onBinary` unchanged. */
  lemma LanesAreExclusive(codec: Codec, m: Message)
    ensures LaneOf(codec, m).ToString? <==> m.Str? && !IsControl(m.text)
    ensures LaneOf(codec, m).ToString? ==> LaneOf(codec, m).text == m.text
    ensures LaneOf(codec, m).ToBinary? <==> !m.Str?
    ensures LaneOf(codec, m).ToBinary? ==> LaneOf(codec, m).data == m
    ensures LaneOf(codec, m).Emit? || LaneOf(codec, m).Fault? <==> m.Str? && IsControl(m.text)
  {
  }

  /** What `sendInternalEvent(name, data, ...)` puts on the wire comes back
      out of the demultiplexer as the event `name` with `data`. */
  lemma InternalEventRoundTrip(codec: Codec, name: string, data: Data)
    requires Faithful(codec)
    ensures LaneOf(codec, Str(Frame(codec, name, data))) == Emit(Event(name, data))
  {
    FrameDecodes(codec, name, data);
  }

  /** A transport to send on: a WebSocket. */
  class Channel {
    var sent: seq<Message>
    var closed: bool

    constructor ()
      ensures sent == [] && !closed
    {
      sent := [];
      closed := false;
    }

    method Send(m: Message)
      modifies this`sent
      ensures sent == old(sent) + [m]
    {
      sent := sent + [m];
    }

    method Close()
      modifies this`closed
      ensures closed
    {
      closed := true;
    }
  }

  /** The base `Connection`. */
  class Connection {
    const codec: Codec
    var connected: bool
    var emitted: seq<Event>
    var delivered: seq<Delivery>
    var onBinary: Handler
    var onString: Handler

    /** A new connection is not connected and has no handlers installed. */
    constructor (codec: Codec)
      ensures this.codec == codec && !connected
      ensures emitted == [] && delivered == [] && onBinary == Unset && onString == Unset
    {
      this.codec := codec;
      connected := false;
      emitted := [];
      delivered := [];
      onBinary := Unset;
      onString := Unset;
    }

    /** `sendInternalEvent(name, data, connection)`: sends the framed
        control message on the given transport. */
    method SendInternalEvent(name: string, data: Data, channel: Channel)
      modifies channel`sent
      ensures channel.sent == old(channel.sent) + [Str(Frame(codec, name, data))]
    {
      channel.Send(Str(Frame(codec, name, data)));
    }

    /** `isConnected()`. */
    method IsConnected() returns (r: bool)
      ensures r == connected
    {
      r := connected;
    }

    /** `emit(name, data)`: recorded; listeners are modelled by their owners. */
    method Emit(name: string, data: Data)
      modifies this`emitted
      ensures emitted == old(emitted) + [Event(name, data)]
    {
      emitted := emitted + [Event(name, data)];
    }

    /** `_handleIncomingMessage`: takes exactly the lane `LaneOf` names.
        `threw` reports the `TypeError` of the fault lane, which changes
        nothing before it is raised. */
    method HandleIncomingMessage(m: Message) returns (threw: bool)
      modifies this`emitted, this`delivered
      ensures threw <==> LaneOf(codec, m).Fault?
      ensures match LaneOf(codec, m)
              case Emit(e) => emitted == old(emitted) + [e] && delivered == old(delivered)
              case Fault => emitted == old(emitted) && delivered == old(delivered)
              case ToString(s) => emitted == old(emitted) && delivered == old(delivered) + [StringDelivery(onString, s)]
              case ToBinary(d) => emitted == old(emitted) && delivered == old(delivered) + [BinaryDelivery(onBinary, d)]
    {
      threw := false;
      if m.Str? {
        if IsControl(m.text) {
          var message := codec.decode(m.text[1..]);
          if message.Some? {
            Emit(message.value.name, message.value.data);
          } else {
            threw := true;
          }
        } else {
          delivered := delivered + [StringDelivery(onString, m.text)];
        }
      } else {
        delivered := delivered + [BinaryDelivery(onBinary, m)];
      }
    }

    /** `_handleError`: emits `connection.error`; the flag is untouched. */
    method HandleError(error: string)
      modifies this`emitted
      ensures emitted == old(emitted) + [Event("connection.error", Text(error))]
    {
      Emit("connection.error", Text(error));
    }

    /** `_handleConnected`. */
    method HandleConnected()
      modifies this`connected, this`emitted
      ensures connected
      ensures emitted == old(emitted) + [Event("connection.established", Empty)]
    {
      connected := true;
      Emit("connection.established", Empty);
    }

    /** `_handleClose`; repeating it keeps the flag false. */
    method HandleClose()
      modifies this`connected, this`emitted
      ensures !connected
      ensures emitted == old(emitted) + [Event("connection.closed", Empty)]
    {
      connected := false;
      Emit("connection.closed", Empty);
    }

    /** `_handleAlreadyConnected`: only a debug log line. */
    method HandleAlreadyConnected()
      ensures unchanged(this)
    {
    }
  }
}
