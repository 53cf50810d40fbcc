/** The rendezvous broker: matches two WebSocket clients that register the
    same pairing hash, relays their messages, and cleans up after them. */
module ServerSocket {
  import opened Common
  import opened ServerUtils
  import opened ServerStore

  /** WebSocket `readyState` values. */
  const CONNECTING: nat := 0
  const OPEN: nat := 1
  const CLOSING: nat := 2
  const CLOSED: nat := 3

  /** `close()` on an open socket starts the closing handshake; the broker
      never closes a socket that is not open. */
  function AfterClose(state: nat): nat {
    if state == OPEN then CLOSING else state
  }

  /** A connected WebSocket client with the two fields the broker adds to
      it; `outbox` records every frame the broker sends on it. */
  class Client {
    var readyState: nat
    var pairing: Option<Pairing>
    var peer: Client?
    var outbox: seq<Message>

    constructor (readyState: nat)
      requires readyState <= CLOSED
      ensures this.readyState == readyState && pairing == None && peer == null && outbox == []
    {
      this.readyState := readyState;
      pairing := None;
      peer := null;
      outbox := [];
    }

    method Send(m: Message)
      modifies this`outbox
      ensures outbox == old(outbox) + [m]
    {
      outbox := outbox + [m];
    }

    method Close()
      modifies this`readyState
      ensures readyState == AfterClose(old(readyState))
    {
      readyState := AfterClose(readyState);
    }
  }

  /** The two clients of a formed pair: the first to register and the one
      that joined it. */
  datatype Session = Session(initiator: Client, joiner: Client)

  function Opt(c: Client?): set<Client> {
    if c == null then {} else {c}
  }

  /** The hash of a client's own registration, when it has a truthy one. */
  function OwnHash(c: Client): Option<string>
    reads c`pairing
  {
    if c.pairing.Some? && c.pairing.value.hash != "" then Some(c.pairing.value.hash) else None
  }

  /** `getHashFromClient(client, secondTry)`: the client's own hash, else
      (on the first try only) its peer's own hash, else nothing. */
  function HashFromClient(c: Client?, secondTry: bool): (r: Option<string>)
    reads Opt(c)`pairing, (if secondTry then {} else Opt(c))`peer
    reads (if c != null && !secondTry then Opt(c.peer) else {})`pairing
    decreases if secondTry then 0 else 1
    ensures r.Some? ==> r.value != ""
    ensures c != null && OwnHash(c).Some? ==> r == OwnHash(c)
    ensures c != null && OwnHash(c).None? && !secondTry && c.peer != null ==> r == OwnHash(c.peer)
    ensures c == null || (OwnHash(c).None? && (secondTry || c.peer == null)) ==> r == None
  {
    if c != null && OwnHash(c).Some? then OwnHash(c)
    else if c != null && !secondTry && c.peer != null then HashFromClient(c.peer, true)
    else None
  }

  /** The lookup follows at most one peer link: the result is the client's
      own hash or its direct peer's, never one further away. */
  lemma HashResolvesInOneHop(c: Client)
    ensures var r := HashFromClient(c, false);
            r.Some? ==> r == OwnHash(c) || (c.peer != null && r == OwnHash(c.peer))
    ensures HashFromClient(c, true).Some? ==> HashFromClient(c, true) == OwnHash(c)
  {
  }

  /** `getHashFromClient(client) || hashStr`, kept only when truthy. */
  function CleanupHash(resolved: Option<string>, fallback: Option<string>): (h: Option<string>)
    ensures h.Some? ==> h.value != ""
  {
    if resolved.Some? && resolved.value != "" then resolved
    else if fallback.Some? && fallback.value != "" then fallback
    else None
  }

  /** `if (m[hash]) m[hash] = null`: a truthy entry is nulled, not deleted. */
  function Nulled<V(==)>(m: map<string, V>, key: Option<string>, nil: V): (r: map<string, V>)
    ensures r.Keys == m.Keys
    ensures key.Some? && key.value in m ==> r[key.value] == nil
    ensures forall k :: k in m && (key.None? || k != key.value) ==> r[k] == m[k]
  {
    if key.Some? && key.value in m && m[key.value] != nil then m[key.value := nil] else m
  }

  /** A property read on the plain `{}` objects the source keeps its tables
      in: an own property, else a name every object inherits from
      `Object.prototype` (a builtin function, or for the accessor
      `__proto__` the prototype itself), else `undefined`. The table's
      prototype is taken to be still `Object.prototype`. */
  datatype Property<V> = Own(value: V) | Inherited(name: string) | Missing

  function PlainGet<V>(own: map<string, V>, key: string): Property<V> {
    if key in own && key != "__proto__" then Own(own[key])
    else if key in INHERITED then Inherited(key)
    else Missing
  }

  /** `if (m[hash]) m[hash] = null` on a plain object, as written: an
      inherited name reads as truthy, so the assignment adds an own null
      entry for it (for `__proto__` it replaces the prototype and adds
      none). */
  function NulledAsWritten<V(==)>(m: map<string, V>, key: Option<string>, nil: V): map<string, V> {
    if key.None? then m
    else match PlainGet(m, key.value)
      case Own(v) => if v != nil then m[key.value := nil] else m
      case Inherited(name) => if name == "__proto__" then m else m[name := nil]
      case Missing => m
  }

  /** A rejected registration under an inherited name such as
      `constructor` leaves an own null entry behind in the source, where
      the dictionary `Nulled` models changes nothing. */
  lemma InheritedNameGainsEntry<V>(m: map<string, V>, name: string, nil: V)
    requires name in INHERITED && name != "__proto__" && name !in m
    ensures name in NulledAsWritten(m, Some(name), nil) && NulledAsWritten(m, Some(name), nil)[name] == nil
    ensures NulledAsWritten(m, Some(name), nil).Keys == m.Keys + {name}
    ensures Nulled(m, Some(name), nil) == m
  {
  }

  /** What `const peer = this.lobby[hash]` takes as the join partner in the
      source: a waiting client, a builtin function for an inherited name,
      `Object.prototype` for `__proto__`, or nothing (the wait branch). */
  datatype Partner = WaitingClient(c: Client) | BuiltinFunction(name: string) | ObjectPrototype | NoPartner

  function PartnerAsWritten(lobby: map<string, Client?>, key: string): Partner {
    match PlainGet(lobby, key)
    case Own(c) => if c != null then WaitingClient(c) else NoPartner
    case Inherited(name) => if name == "__proto__" then ObjectPrototype else BuiltinFunction(name)
    case Missing => NoPartner
  }

  /** `client._peer` as the source reads it once `peer._peer = client` ran
      with `Object.prototype` as `peer`: the client's own `_peer`, else
      the one every object now inherits. */
  function PeerAsWritten(own: Client?, inherited: Client?): Client? {
    if own != null then own else inherited
  }

  /** Registering under `__proto__` takes the join branch on any lobby,
      with `Object.prototype` as the partner; from then on every client
      without a peer of its own reads the registrant as its `_peer`, so
      what it sends is forwarded to the registrant: its text takes the
      forwarding route with the open registrant as the peer, where the
      sender has no peer at all. An inherited builtin name joins a
      function that is not a client at all. */
  lemma ProtoRegistrationCapturesTraffic(codec: Codec, lobby: map<string, Client?>, registrant: Client, sender: Client)
    requires sender.peer == null && registrant.readyState == OPEN
    ensures PartnerAsWritten(lobby, "__proto__") == ObjectPrototype
    ensures PeerAsWritten(sender.peer, registrant) == registrant
    ensures PeerState(PeerAsWritten(sender.peer, registrant)) == Some(OPEN) && PeerState(sender.peer) == None
    ensures forall s :: !IsControl(s) ==> RouteOf(codec, PeerState(PeerAsWritten(sender.peer, registrant)), Str(s)) == Forward
    ensures forall name :: name in INHERITED && name != "__proto__" ==> PartnerAsWritten(map[], name) == BuiltinFunction(name)
  {
  }

  /** Nulling is idempotent, so a repeated cleanup changes no entry. */
  lemma NulledIdempotent<V>(m: map<string, V>, key: Option<string>, nil: V)
    ensures Nulled(Nulled(m, key, nil), key, nil) == Nulled(m, key, nil)
  {
  }

  /** A map without its null entries. */
  function WithoutNulls<V(==)>(m: map<string, V>, nil: V): map<string, V> {
    map k | k in m && m[k] != nil :: m[k]
  }

  /** Sweeping twice is sweeping once. */
  lemma WithoutNullsIdempotent<V>(m: map<string, V>, nil: V)
    ensures WithoutNulls(WithoutNulls(m, nil), nil) == WithoutNulls(m, nil)
  {
  }

  /** `garbageCollector(hashMap)`: deletes exactly the keys whose value is
      null and leaves every other key and value as it was. */
  method GarbageCollector<V(==)>(hashMap: map<string, V>, nil: V) returns (swept: map<string, V>)
    ensures forall k :: k in swept <==> k in hashMap && hashMap[k] != nil
    ensures forall k :: k in swept ==> swept[k] == hashMap[k]
    ensures swept == WithoutNulls(hashMap, nil)
  {
    swept := hashMap;
    var keys := hashMap.Keys;
    while keys != {}
      invariant keys <= hashMap.Keys
      invariant forall k :: k in swept <==> k in hashMap && (k in keys || hashMap[k] != nil)
      invariant forall k :: k in swept ==> swept[k] == hashMap[k]
      decreases keys
    {
      var key :| key in keys;
      if swept[key] == nil {
        swept := swept - {key};
      }
      keys := keys - {key};
    }
  }

  /** The data handed to `peer.send` by the `data` handler: a decoded string
      goes out as a text frame, any other value as it is. */
  function Raw(d: Data): Message {
    if d.Text? then Str(d.text) else Structured(d)
  }

  /** `pairing && typeof pairing === 'object' ? pairing.hash : null`, when
      it is a string: the `&&` binds tighter than the conditional, so only
      a `{code, hash}` object gives its hash, and every string payload,
      the empty one included, gives `null`. */
  function HashField(d: Data): Option<string> {
    match d
    case PairingData(p) => Some(p.hash)
    case _ => None
  }

  /** The property key `this.lobby[hash]` uses: the string hash itself,
      "null" for the `null` a string payload yields, and "undefined" for
      an object without a `hash` field. */
  function LobbyKey(d: Data): (key: string)
    ensures HashField(d).Some? ==> key == HashField(d).value
    ensures d.Text? ==> key == "null"
    ensures !d.PairingData? && !d.Text? ==> key == "undefined"
  {
    match d
    case PairingData(p) => p.hash
    case Text(_) => "null"
    case _ => "undefined"
  }

  /** What `client._pairing = pairing` records, as far as the hash lookup can
      see it: only a `{code, hash}` object has a `hash` field. */
  function PairingOf(d: Data): Option<Pairing> {
    if d.PairingData? then Some(d.credential) else None
  }

  /** Every object is truthy in JavaScript, whatever its fields hold. */
  predicate ObjectIsTruthy(v: Validation) {
    true
  }

  /** Property names every plain object inherits from `Object.prototype`:
      `this.messageHandlers[name]` is truthy for them too. */
  const INHERITED: set<string> := {
    "constructor", "hasOwnProperty", "isPrototypeOf", "propertyIsEnumerable",
    "toLocaleString", "toString", "valueOf", "__proto__",
    "__defineGetter__", "__defineSetter__", "__lookupGetter__", "__lookupSetter__"
  }

  /** The inherited names whose handler call throws a `TypeError`:
      `Object.prototype` has no `call`, and the two definers demand a
      function as their second argument, which decoded data never is. The
      other nine return without effect. */
  const THROWING: set<string> := {"__proto__", "__defineGetter__", "__defineSetter__"}

  /** Where an inbound message goes. */
  datatype Route =
    | PeerClosed          // the peer's socket is CLOSED: clean up, forward nothing
    | ToRegister(data: Data)
    | ToData(data: Data)
    | Swallowed           // an inherited builtin ran as the handler, without effect
    | Throws              // an inherited property ran as the handler and threw
    | Forward

  function PeerState(c: Client?): Option<nat>
    reads Opt(c)`readyState
  {
    if c == null then None else Some(c.readyState)
  }

  /** The routing decision of the `message` listener, given the state of the
      sender's peer. */
  function RouteOf(codec: Codec, peerState: Option<nat>, raw: Message): Route {
    if peerState == Some(CLOSED) then PeerClosed
    else if raw.Str? && IsControl(raw.text) && codec.decode(raw.text[1..]).Some? then
      var message := codec.decode(raw.text[1..]).value;
      if message.name == "client.register" then ToRegister(message.data)
      else if message.name == "data" then ToData(message.data)
      else if message.name in THROWING then Throws
      else if message.name in INHERITED then Swallowed
      else Forward
    else Forward
  }

  /** Framed `client.register` and `data` messages reach their handlers. */
  lemma HandlerMessagesAreHandled(codec: Codec, peerState: Option<nat>, d: Data)
    requires Faithful(codec) && peerState != Some(CLOSED)
    ensures RouteOf(codec, peerState, Str(Frame(codec, "client.register", d))) == ToRegister(d)
    ensures RouteOf(codec, peerState, Str(Frame(codec, "data", d))) == ToData(d)
  {
    FrameDecodes(codec, "client.register", d);
    FrameDecodes(codec, "data", d);
  }

  /** Every other message, framed control messages with other names such as
      `peer.signal` included, is forwarded to the peer. */
  lemma OtherMessagesAreForwarded(codec: Codec, peerState: Option<nat>, name: string, d: Data, bytes: seq<byte>)
    requires Faithful(codec) && peerState != Some(CLOSED)
    requires name != "client.register" && name != "data" && name !in INHERITED
    ensures RouteOf(codec, peerState, Str(Frame(codec, name, d))) == Forward
    ensures RouteOf(codec, peerState, Str(Frame(codec, "peer.signal", d))) == Forward
    ensures RouteOf(codec, peerState, Bin(bytes)) == Forward
  {
    FrameDecodes(codec, name, d);
    FrameDecodes(codec, "peer.signal", d);
  }

  /** A framed message named after an inherited property runs that
      property as its handler: three of them throw, the others do nothing. */
  lemma InheritedNamesAreCalled(codec: Codec, peerState: Option<nat>, name: string, d: Data)
    requires Faithful(codec) && peerState != Some(CLOSED) && name in INHERITED
    ensures RouteOf(codec, peerState, Str(Frame(codec, name, d))) == (if name in THROWING then Throws else Swallowed)
  {
    FrameDecodes(codec, name, d);
  }

  /** Unprefixed text never reaches a handler, whatever the codec. */
  lemma PlainTextIsForwarded(codec: Codec, peerState: Option<nat>, s: string)
    requires peerState != Some(CLOSED) && !IsControl(s)
    ensures RouteOf(codec, peerState, Str(s)) == Forward
  {
  }

  /** The broker (`Socket`): its lobby of waiting clients and its table of
      formed pairs, both keyed by pairing hash. */
  class Socket {
    const store: Store
    const codec: Codec
    var connections: map<string, Option<Session>>
    var lobby: map<string, Client?>

    constructor (store: Store, codec: Codec)
      ensures this.store == store && this.codec == codec
      ensures connections == map[] && lobby == map[]
    {
      this.store := store;
      this.codec := codec;
      connections := map[];
      lobby := map[];
    }

    /** The clients waiting in the lobby. */
    function Waiting(): set<Client>
      reads this`lobby
    {
      set k | k in lobby && lobby[k] != null :: lobby[k]
    }

    /** One tick of the sweep timer: both tables lose their null entries. */
    method CollectGarbage()
      modifies this`connections, this`lobby
      ensures connections == WithoutNulls(old(connections), None)
      ensures lobby == WithoutNulls(old(lobby), null)
    {
      connections := GarbageCollector(connections, None);
      lobby := GarbageCollector(lobby, null);
    }

    /** `closeClient`: closes the client only when it is open. */
    method CloseClient(client: Client?)
      modifies Opt(client)`readyState
      ensures client != null ==> client.readyState == AfterClose(old(client.readyState))
    {
      if client != null && client.readyState == OPEN {
        client.Close();
      }
    }

    /** The map updates of `cleanup` under a resolved hash. */
    method NullEntries(hash: Option<string>)
      modifies this`connections, this`lobby
      ensures connections == Nulled(old(connections), hash, None) && lobby == Nulled(old(lobby), hash, null)
    {
      if hash.Some? {
        if hash.value in connections && connections[hash.value] != None {
          connections := connections[hash.value := None];
        }
        if hash.value in lobby && lobby[hash.value] != null {
          lobby := lobby[hash.value := null];
        }
      }
    }

    /** `cleanup(client, hashStr)`: nulls (does not delete) the truthy entries
        under the resolved hash, then closes the peer and the client where
        they are open. */
    method Cleanup(client: Client, hashStr: Option<string>)
      modifies this`connections, this`lobby, client`readyState, Opt(client.peer)`readyState
      ensures var h := CleanupHash(HashFromClient(client, false), hashStr);
              connections == Nulled(old(connections), h, None) && lobby == Nulled(old(lobby), h, null)
      ensures client.readyState == AfterClose(old(client.readyState))
      ensures client.peer != null ==> client.peer.readyState == AfterClose(old(client.peer.readyState))
    {
      var hash := CleanupHash(HashFromClient(client, false), hashStr);
      NullEntries(hash);
      if client.peer != null {
        CloseClient(client.peer);
      }
      CloseClient(client);
    }

    /** `onMessageClose`: the client's socket closed. */
    method OnMessageClose(client: Client)
      modifies this`connections, this`lobby, client`readyState, Opt(client.peer)`readyState
      ensures var h := HashFromClient(client, false);
              connections == Nulled(old(connections), h, None) && lobby == Nulled(old(lobby), h, null)
      ensures client.readyState == AfterClose(old(client.readyState))
      ensures client.peer != null ==> client.peer.readyState == AfterClose(old(client.peer.readyState))
    {
      Cleanup(client, None);
    }

    /** The `peer.connected` frame a client receives, if it is open. */
    function Notice(c: Client, isInitiator: bool, data: Data): seq<Message>
      reads c`readyState
    {
      if c.readyState == OPEN then [Str(Frame(codec, "peer.connected", PeerInfo(isInitiator, data)))] else []
    }

    /** `sendInternalEvent`: sends `PREFIX + encode(name, data)` to an open
        client and nothing otherwise. */
    method SendInternalEvent(client: Client?, name: string, data: Data)
      modifies Opt(client)`outbox
      ensures client != null && client.readyState == OPEN ==>
        client.outbox == old(client.outbox) + [Str(Frame(codec, name, data))]
      ensures client != null && client.readyState != OPEN ==> client.outbox == old(client.outbox)
    {
      if client != null && client.readyState == OPEN {
        client.Send(Str(Frame(codec, name, data)));
      }
    }

    /** `onMessageData`: forwards the decoded data to the peer when it is
        open. */
    method OnMessageData(client: Client, data: Data)
      modifies Opt(client.peer)`outbox
      ensures client.peer != null && client.peer.readyState == OPEN ==>
        client.peer.outbox == old(client.peer.outbox) + [Raw(data)]
      ensures client.peer != null && client.peer.readyState != OPEN ==> client.peer.outbox == old(client.peer.outbox)
    {
      if client.peer != null && client.peer.readyState == OPEN {
        client.peer.Send(Raw(data));
      }
    }

    /** The failure branch of `onMessageRegister`: `HANDSHAKE_FAILED`, then
        a cleanup under the pairing's hash. */
    method Reject(client: Client, data: Data)
      modifies this`connections, this`lobby, client`outbox, client`readyState, Opt(client.peer)`readyState
      ensures client.outbox == old(client.outbox) + [Str(HANDSHAKE_FAILED)]
      ensures var h := CleanupHash(HashFromClient(client, false), HashField(data));
              connections == Nulled(old(connections), h, None) && lobby == Nulled(old(lobby), h, null)
      ensures client.readyState == AfterClose(old(client.readyState))
      ensures client.peer != null ==> client.peer.readyState == AfterClose(old(client.peer.readyState))
    {
      client.Send(Str(HANDSHAKE_FAILED));
      Cleanup(client, HashField(data));
    }

    /** The join branch of `onMessageRegister`: the waiting client becomes
        the initiator, the new one the joiner, and both are told, joiner
        first. The joiner's own `pairing` is left as it was. */
    method Pair(client: Client, waiting: Client, data: Data)
      requires LobbyKey(data) in lobby && lobby[LobbyKey(data)] == waiting
      modifies this`lobby, this`connections, client`peer, client`outbox, waiting`peer, waiting`pairing, waiting`outbox
      ensures lobby == old(lobby)[LobbyKey(data) := null]
      ensures connections == old(connections)[LobbyKey(data) := Some(Session(waiting, client))]
      ensures client.peer == waiting && waiting.peer == client
      ensures waiting.pairing == PairingOf(data)
      ensures waiting != client ==> client.pairing == old(client.pairing)
      ensures waiting != client ==>
        && client.outbox == old(client.outbox) + Notice(client, false, data)
        && waiting.outbox == old(waiting.outbox) + Notice(waiting, true, data)
      ensures waiting == client ==>
        client.outbox == old(client.outbox) + Notice(client, false, data) + Notice(client, true, data)
    {
      var hash := LobbyKey(data);
      lobby := lobby[hash := null];
      waiting.pairing := PairingOf(data);
      waiting.peer := client;
      client.peer := waiting;
      connections := connections[hash := Some(Session(waiting, client))];
      SendInternalEvent(client, "peer.connected", PeerInfo(false, data));
      SendInternalEvent(waiting, "peer.connected", PeerInfo(true, data));
    }

    /** The wait branch of `onMessageRegister`: the client records its
        pairing and takes the lobby slot. */
    method Wait(client: Client, data: Data)
      modifies this`lobby, client`pairing
      ensures lobby == old(lobby)[LobbyKey(data) := client]
      ensures client.pairing == PairingOf(data)
    {
      client.pairing := PairingOf(data);
      lobby := lobby[LobbyKey(data) := client];
    }

    /** The client in the lobby slot `key`, `null` when there is none. */
    function Slot(key: string): Client?
      reads this`lobby
    {
      if key in lobby then lobby[key] else null
    }

    /** The new state after a registration of `data` with validation
        verdict `isValid`, where `peer` was the client's peer and
        `waiting` the client in the lobby slot of `data`, before. */
    twostate predicate Registered(client: Client, data: Data, isValid: bool, peer: Client?, waiting: Client?)
      reads this, client, Opt(peer), Opt(waiting)
    {
      var key := LobbyKey(data);
      if !isValid then
        // HANDSHAKE_FAILED, the entries under the hash nulled, both closed
        && client.outbox == old(client.outbox) + [Str(HANDSHAKE_FAILED)]
        && (var h := CleanupHash(old(HashFromClient(client, false)), HashField(data));
            connections == Nulled(old(connections), h, None) && lobby == Nulled(old(lobby), h, null))
        && client.pairing == old(client.pairing) && client.peer == peer
        && client.readyState == AfterClose(old(client.readyState))
        && (peer != null ==> peer.readyState == AfterClose(old(peer.readyState)))
        // the lobby client is left alone, but for its closing when it is also the peer
        && (waiting != null && waiting != client ==>
              && waiting.outbox == old(waiting.outbox) && waiting.peer == old(waiting.peer)
              && waiting.pairing == old(waiting.pairing)
              && (waiting != peer ==> waiting.readyState == old(waiting.readyState)))
        && (peer != null && peer != client ==> peer.outbox == old(peer.outbox))
      else if waiting != null then
        // HANDSHAKE_SUCCESS, then the waiting client and this one are paired
        && lobby == old(lobby)[key := null]
        && connections == old(connections)[key := Some(Session(waiting, client))]
        && client.peer == waiting && waiting.peer == client
        && waiting.pairing == PairingOf(data)
        && client.readyState == old(client.readyState) && waiting.readyState == old(waiting.readyState)
        && (peer != null ==> peer.readyState == old(peer.readyState))
        && (waiting != client ==>
              && client.pairing == old(client.pairing)
              && client.outbox == old(client.outbox) + [Str(HANDSHAKE_SUCCESS)] + Notice(client, false, data)
              && waiting.outbox == old(waiting.outbox) + Notice(waiting, true, data))
        && (waiting == client ==>
              client.outbox == old(client.outbox) + [Str(HANDSHAKE_SUCCESS)]
                + Notice(client, false, data) + Notice(client, true, data))
        // the previous peer, when it is neither of the two, receives nothing
        && (peer != null && peer != client && peer != waiting ==> peer.outbox == old(peer.outbox))
      else
        // HANDSHAKE_SUCCESS, then this client takes the lobby slot
        && lobby == old(lobby)[key := client]
        && connections == old(connections)
        && client.pairing == PairingOf(data) && client.peer == peer
        && client.outbox == old(client.outbox) + [Str(HANDSHAKE_SUCCESS)]
        && client.readyState == old(client.readyState)
        && (peer != null ==> peer.readyState == old(peer.readyState))
        && (peer != null && peer != client ==> peer.outbox == old(peer.outbox))
    }

    /** Body of `onMessageRegister` once the validation result is known.
        Besides the client, its peer's state and the tables, only the
        client in the lobby slot can change. */
    method Register(client: Client, data: Data, isValid: bool)
      modifies this`lobby, this`connections, client, Opt(client.peer)`readyState, Opt(Slot(LobbyKey(data)))
      ensures Registered(client, data, isValid, old(client.peer), old(Slot(LobbyKey(data))))
      ensures |client.outbox| > |old(client.outbox)|
      ensures client.outbox[|old(client.outbox)|] == Str(if isValid then HANDSHAKE_SUCCESS else HANDSHAKE_FAILED)
    {
      if !isValid {
        Reject(client, data);
        return;
      }
      client.Send(Str(HANDSHAKE_SUCCESS));
      var hash := LobbyKey(data);
      if hash in lobby && lobby[hash] != null {
        Pair(client, lobby[hash], data);
      } else {
        Wait(client, data);
      }
    }

    /** `onMessageRegister` as the source wires it: the `Validation` object
        returned by the store is tested for truthiness, which every object
        passes, so every registration is treated as valid. */
    method OnMessageRegisterAsWritten(client: Client, data: Data)
      modifies this`lobby, this`connections, client, Opt(client.peer)`readyState, Opt(Slot(LobbyKey(data)))
      ensures Registered(client, data, true, old(client.peer), old(Slot(LobbyKey(data))))
      ensures |client.outbox| > |old(client.outbox)| && client.outbox[|old(client.outbox)|] == Str(HANDSHAKE_SUCCESS)
    {
      var validation := store.ValidatePairing(data);
      Register(client, data, ObjectIsTruthy(validation));
    }

    /** `onMessageRegister` with the validation's `isValid` flag tested: a
        registration is accepted exactly when the store validates it. */
    method OnMessageRegister(client: Client, data: Data)
      modifies this`lobby, this`connections, client, Opt(client.peer)`readyState, Opt(Slot(LobbyKey(data)))
      ensures Registered(client, data, ValidIn(store.redis.entries, data), old(client.peer), old(Slot(LobbyKey(data))))
      ensures |client.outbox| > |old(client.outbox)|
      ensures client.outbox[|old(client.outbox)|] ==
        Str(if ValidIn(store.redis.entries, data) then HANDSHAKE_SUCCESS else HANDSHAKE_FAILED)
    {
      var validation := store.ValidatePairing(data);
      Register(client, data, validation.isValid);
    }

    /** What forwarding `m` to `c` sends: `m`, if `c` is open. */
    function Forwarded(c: Client?, m: Message): seq<Message>
      reads Opt(c)`readyState
    {
      if c != null && c.readyState == OPEN then [m] else []
    }

    /** The tables and the sender are as before, and the sender's peer
        received `sent` and nothing else changed about it. */
    twostate predicate Relayed(client: Client, sent: seq<Message>)
      reads this, client, Opt(client.peer)
    {
      && connections == old(connections) && lobby == old(lobby)
      && client.pairing == old(client.pairing) && client.peer == old(client.peer)
      && client.readyState == old(client.readyState)
      && (client.peer != client ==> client.outbox == old(client.outbox))
      && (client.peer != null ==>
            client.peer.readyState == old(client.peer.readyState) && client.peer.outbox == old(client.peer.outbox) + sent)
    }

    /** The lobby client a `client.register` routed message could pair with. */
    function SlotFor(route: Route): Client?
      reads this`lobby
    {
      if route.ToRegister? then Slot(LobbyKey(route.data)) else null
    }

    /** The `message` listener installed by `onConnection`. `threw` reports
        the `TypeError` a throwing inherited handler raises. */
    method OnMessage(client: Client, raw: Message) returns (threw: bool)
      modifies this`lobby, this`connections, client, Opt(client.peer)`readyState, Opt(client.peer)`outbox
      modifies Opt(SlotFor(RouteOf(codec, PeerState(client.peer), raw)))
      ensures threw <==> RouteOf(codec, old(PeerState(client.peer)), raw).Throws?
      ensures var route := RouteOf(codec, old(PeerState(client.peer)), raw);
              route.Forward? ==> Relayed(client, Forwarded(client.peer, raw))
      ensures var route := RouteOf(codec, old(PeerState(client.peer)), raw);
              route.ToData? ==> Relayed(client, Forwarded(client.peer, Raw(route.data)))
      ensures var route := RouteOf(codec, old(PeerState(client.peer)), raw);
              route.Swallowed? || route.Throws? ==> Relayed(client, [])
      ensures var route := RouteOf(codec, old(PeerState(client.peer)), raw);
              route.PeerClosed? ==>
                && client.peer == old(client.peer) && client.peer.outbox == old(client.peer.outbox)
                && client.peer.readyState == CLOSED
                && (var h := HashFromClient(client, false);
                    connections == Nulled(old(connections), h, None) && lobby == Nulled(old(lobby), h, null))
                && client.readyState == AfterClose(old(client.readyState))
                && client.pairing == old(client.pairing)
                && (client.peer != client ==> client.outbox == old(client.outbox))
      ensures var route := RouteOf(codec, old(PeerState(client.peer)), raw);
              route.ToRegister? ==>
                Registered(client, route.data, ValidIn(store.redis.entries, route.data),
                           old(client.peer), old(Slot(LobbyKey(route.data))))
    {
      threw := false;
      if client.peer != null && client.peer.readyState == CLOSED {
        Cleanup(client, None);
        return;
      }
      if raw.Str? && IsControl(raw.text) {
        var message := codec.decode(raw.text[1..]);
        if message.Some? {
          var name := message.value.name;
          if name == "client.register" {
            OnMessageRegister(client, message.value.data);
            return;
          } else if name == "data" {
            OnMessageData(client, message.value.data);
            return;
          } else if name in THROWING {
            threw := true;
            return;
          } else if name in INHERITED {
            return;
          }
        }
      }
      if client.peer != null && client.peer.readyState == OPEN {
        client.peer.Send(raw);
      }
    }
  }
}
