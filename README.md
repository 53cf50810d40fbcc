# peersox pairing and rendezvous, modelled in Dafny

peersox connects two browsers through a server. The pieces modelled here:

- The **credential store** hands out a pairing. A pairing is a six-digit `code` a person can type and a long random `hash`. The store keeps hash→code and code→hash in Redis, each with an expiry.
- A joiner **claims** a code to learn its hash. The claim deletes the code key and gives the hash key a seven-day expiry.
- The **rendezvous broker** (`Socket`) runs a WebSocket server:
  - it validates each `client.register` against the store;
  - it keeps the first client with a hash in its `lobby`;
  - it pairs the second client with that one in `connections` and tells both peers `peer.connected`;
  - after that it relays their messages, and it cleans up when either side goes away.
- On the client side, a **base connection** holds a connected flag and splits inbound frames into three lanes:
  - strings starting with the control prefix `§` become named events;
  - other strings go to `onString`;
  - everything else goes to `onBinary`.
- The base connection (src/client/Connection.js) serves the **direct (WebRTC) endpoint**, which guards an opaque negotiation engine. The **socket endpoint** is the `ConnectionSocket` that src/client/PeerSoxClient.js:5 imports from `./ConnectionSocket`. That file is not part of this model; src/client/classes/ConnectionSocket.js stands in for it. Its base class, src/client/classes/Connection.js, is not part of this model either, so the socket endpoint is given the same base connection.
- The **client facade** routes outbound data over the direct channel once it is connected. It guards `initiate` / `join`, and it wires the reactions between the endpoints: signal relay, automatic upgrade, and close propagation.
- A tiny **counter** object tracks connection attempts.

Files:

| file | module | what it holds |
|---|---|---|
| `common.dfy` | `Common` | messages, pairings, payloads, the control-message codec and its framing |
| `utils.dfy` | `ServerUtils` | `isString`, `codeIsValid`, `hashIsValid`, `pairingIsValid` as predicates |
| `store.dfy` | `ServerStore` | an in-memory Redis with per-key expiry, and the `Store` class |
| `socket.dfy` | `ServerSocket` | the broker's `Client` and `Socket` classes, the routing function, cleanup and sweeping |
| `connection.dfy` | `ClientConnection` | the base `Connection` class and the lane function |
| `connection_rtc.dfy` | `ClientRTC` | the negotiation engine as seen from outside, and `ConnectionRTC` |
| `peersox_client.dfy` | `ClientPeerSox` | the socket endpoint after its handshake, and `PeerSoxClient` |
| `counters.dfy` | `ClientCounters` | `Connections` |
| `scenarios.dfy` | `BrokerScenarios` | whole broker runs on concrete inputs |

How the model is built:

- **State.** Objects whose fields the source assigns are Dafny classes. Their methods carry `modifies` frames and state the whole new state. Read-only queries are functions or methods that change nothing.
- **Emitted events** are recorded in an `emitted` sequence.
- **Listeners.** An `emit` runs its listeners synchronously. This is modelled by dispatcher methods on the object that installed them: `PeerSoxClient.OnSocketEvent` and `OnRtcEvent`.
- **The codec** (`encode` / `decode` of `src/common/dataparser.js`) is a pair of function values. The model does not depend on JSON: where a property needs the round trip, it assumes `Faithful(codec)`.
- **Randomness.** `buildRandomHex` and `buildRandomCode` are replaced by finite sequences of candidate draws.
- **Timers and Redis replies.** Timers and whether Redis confirms a `SET` are inputs.
- **Validation.** The broker's validation verdict reaches `Register` as a `bool`, so both branches of `onMessageRegister` can be examined.
- **Outcomes left to the caller.** The answers of the REST API and of the WebSocket handshake are parameters of `initiate` / `join`. The REST client never rejects: it resolves with a pairing or with an `Error`, and either one goes on to the handshake.

Where the code and its documentation disagree:

- `validatePairing` is documented to return a boolean. It returns a `Validation` object, and the model follows the code.
- The `Pairing` class has a positional `(code, hash)` constructor, but its call sites pass one `{code, hash}` object. That call is modelled as written by `ServerStore.PairingReturnedAsWritten`. The store itself follows the destructuring constructor the callers expect (see Findings).
- The broker keeps `lobby` and `connections` in plain `{}` objects, where a hash naming an inherited property such as `constructor` or `__proto__` reads as truthy. Those lookups are modelled as written by `ServerSocket.PlainGet`. The broker itself uses dictionaries (see Findings).

## Model

| member | source | states |
|---|---|---|
| `Common.Frame` | src/client/Connection.js:40-42 | a control frame starts with the prefix and the rest is the encoded `{name, data}` envelope |
| `Common.FrameDecodes` | src/client/Connection.js:62-66 | with a round-tripping codec, decoding a frame after its prefix gives back the name and data that were framed |
| `ServerUtils.AllDigitsMeansEveryDigit` | src/server/utils/index.js:46 | the recursive reading of `/^\d+$/` holds exactly when every character is an ASCII digit |
| `ServerUtils.CodeIsValidCharacterised` | src/server/utils/index.js:37-51 | a code is valid exactly when it is a string (primitive or `String` object) of length 6 made only of ASCII digits |
| `ServerUtils.LeadingZerosAccepted` | src/server/utils/index.js:42-48 | "000123" and a `String` object "000000" are valid codes |
| `ServerUtils.WrongLengthRejected` | src/server/utils/index.js:42-44 | strings of length 5 or 7 are rejected in either string form |
| `ServerUtils.NonStringsRejected` | src/server/utils/index.js:38-40 | numbers, booleans, null, undefined and objects are never valid codes, 123456 included |
| `ServerUtils.PairingValidityIsCodeValidity` | src/server/utils/index.js:58-69 | since `hashIsValid` accepts everything, a pairing is valid exactly when it is a `{code, hash}` object with a valid code |
| `ServerStore.Expired` | src/server/Store.js:119 | `EXPIRE` keeps the key set and every value, sets the expiry of a present key, and leaves other keys alone |
| `ServerStore.Redis.Exists` | src/server/Store.js:23 | `EXISTS` replies 1 for a present key and 0 otherwise |
| `ServerStore.Redis.Get` | src/server/Store.js:21 | `GET` yields the stored value, or nil for a missing key |
| `ServerStore.Redis.Set` | src/server/Store.js:22 | a confirmed `SET ... EX` replies "OK" and stores value and expiry; an unconfirmed one replies otherwise and changes nothing |
| `ServerStore.Redis.Del` | src/server/Store.js:24 | `DEL` removes the key and replies with the number removed |
| `ServerStore.Redis.Expire` | src/server/Store.js:25 | `EXPIRE` updates the store as `Expired` says and replies 1 exactly when the key existed |
| `ServerStore.FirstUnusedIsFirst` | src/server/Store.js:55-65 | the re-roll loop returns an unused draw preceded only by used ones, and finds none only when every draw is used |
| `ServerStore.ObjectArgumentLosesFields` | src/common/classes.js:7-12 | for every code and hash, `new Pairing({ code, hash })` against the positional constructor, as src/server/Store.js:99 and 121 and src/client/ClientAPI.js:40, 62 and 88 call it, has the whole object as `code`, never a valid code, and `undefined` as `hash` |
| `ServerStore.DestructuringKeepsFields` | src/server/Store.js:99 | with the destructuring constructor the callers expect, both fields survive, and the pairing's code is valid exactly when the drawn code is |
| `ServerStore.Store.KeyExists` | src/server/Store.js:45-48 | true exactly when the key is in the store |
| `ServerStore.Store.DrawUnused` | src/server/Store.js:59-62 | the `do/while` re-roll loop returns the first draw that is not a key, and none only when all draws are keys |
| `ServerStore.Store.GenerateHash` | src/server/Store.js:55-65 | the drawn hash is the first unused `buildRandomHex` draw, and it is not a key of the store |
| `ServerStore.Store.GenerateCode` | src/server/Store.js:72-83 | the drawn code is the first unused `buildRandomCode` draw, and it is not a key of the store |
| `ServerStore.Store.GeneratePairing` | src/server/Store.js:91-103 | both writes use the short expiry; success returns the pairing exactly when both writes were confirmed, otherwise `PairingGenerateFailed`; an unconfirmed write is not applied |
| `ServerStore.Store.GetPairingFromCode` | src/server/Store.js:112-125 | the result and the new store are `Lookup` / `AfterLookup` of the old store: an invalid or unknown code yields `{}` and changes nothing |
| `ServerStore.Store.ValidatePairing` | src/server/Store.js:134-149 | valid exactly when the pairing is a `{code, hash}` object with a valid code whose hash key holds that code; only reads the store |
| `ServerStore.InvalidCodeNeverLooksUp` | src/server/Store.js:113 | a code failing `codeIsValid` yields `{}` and leaves the store as it was |
| `ServerStore.LookupClaims` | src/server/Store.js:116-121 | claiming a stored code returns its hash, deletes the code key and gives the hash key the seven-day expiry without changing its value |
| `ServerStore.ClaimIsSingleUse` | src/server/Store.js:112-125 | a second claim of the same code finds nothing |
| `ServerStore.StoredPairingValidates` | src/server/Store.js:95-148 | a generated pairing with a valid code validates right after both writes |
| `ServerStore.ValidationSurvivesClaim` | src/server/Store.js:116-148 | claiming any code other than a pairing's hash never invalidates that pairing |
| `ServerStore.GenerateClaimValidate` | src/server/Store.js:91-149 | generate, then claim: the claim returns the pairing, the pairing still validates, its hash key has the seven-day expiry, and a second claim finds nothing |
| `ServerSocket.HashFromClient` | src/server/Socket.js:66-74 | the client's own truthy hash, else on the first try its peer's own hash, else nothing; never an empty hash |
| `ServerSocket.HashResolvesInOneHop` | src/server/Socket.js:71-73 | the lookup follows at most one peer link, and the second try looks only at its own client |
| `ServerSocket.CleanupHash` | src/server/Socket.js:77-79 | `getHashFromClient(client) \|\| hashStr` is used only when truthy |
| `ServerSocket.Nulled` | src/server/Socket.js:79-86 | on a dictionary, a truthy entry under the hash becomes null, no key is added or removed, and every other entry is kept |
| `ServerSocket.LobbyKey` | src/server/Socket.js:97 | the lobby key is the payload's string hash; every string payload, the empty one included, gives "null", and an object without a hash gives "undefined" |
| `ServerSocket.InheritedNameGainsEntry` | src/server/Socket.js:80-84 | on the plain objects of the source, a cleanup under an inherited name such as `constructor` adds an own null entry, where the dictionary changes nothing |
| `ServerSocket.ProtoRegistrationCapturesTraffic` | src/server/Socket.js:109-115 | on the plain objects of the source, a registration under `__proto__` always joins `Object.prototype`; afterwards every client without its own peer reads the registrant as its peer, so its unprefixed text takes the forwarding route to the open registrant, where in the dictionary model it has no peer; an inherited builtin name joins a function |
| `ServerSocket.InheritedNamesAreCalled` | src/server/Socket.js:160-161 | a framed message named after an inherited property runs it as the handler: `__proto__`, `__defineGetter__` and `__defineSetter__` throw, the other nine do nothing |
| `ServerSocket.NulledIdempotent` | src/server/Socket.js:79-86 | a second cleanup under the same hash changes no entry |
| `ServerSocket.WithoutNullsIdempotent` | src/server/Socket.js:48-54 | sweeping a swept table changes nothing |
| `ServerSocket.GarbageCollector` | src/server/Socket.js:48-54 | exactly the keys whose value is null are deleted, and every other key keeps its value |
| `ServerSocket.HandlerMessagesAreHandled` | src/server/Socket.js:156-163 | with a round-tripping codec, framed `client.register` and `data` messages reach their handlers with their data |
| `ServerSocket.OtherMessagesAreForwarded` | src/server/Socket.js:156-169 | framed messages with any other non-inherited name, `peer.signal` included, and binary frames are forwarded |
| `ServerSocket.PlainTextIsForwarded` | src/server/Socket.js:156-169 | an unprefixed string is forwarded whatever the codec |
| `ServerSocket.Socket.CollectGarbage` | src/server/Socket.js:42-45 | one sweep tick removes the null entries of both tables |
| `ServerSocket.Socket.CloseClient` | src/server/Socket.js:60-64 | only an OPEN client is closed, and it moves to CLOSING |
| `ServerSocket.Socket.NullEntries` | src/server/Socket.js:79-86 | both tables are nulled under the resolved hash |
| `ServerSocket.Socket.Cleanup` | src/server/Socket.js:76-93 | both tables are nulled under the resolved hash, then the peer and the client are closed if open |
| `ServerSocket.Socket.OnMessageClose` | src/server/Socket.js:56-58 | a closed socket triggers a cleanup with no fallback hash |
| `ServerSocket.Socket.SendInternalEvent` | src/server/Socket.js:130-134 | the framed event goes only to an OPEN client |
| `ServerSocket.Socket.OnMessageData` | src/server/Socket.js:136-140 | the decoded data goes only to an OPEN peer |
| `ServerSocket.Socket.Reject` | src/server/Socket.js:99-103 | `HANDSHAKE_FAILED` is sent, then a cleanup falls back to the payload's hash |
| `ServerSocket.Socket.Pair` | src/server/Socket.js:109-123 | lobby slot nulled, session `{waiting, joiner}` recorded, peers linked both ways, the waiting client's pairing re-set, the joiner's pairing untouched, and `peer.connected` sent to the joiner (not initiator) and then to the waiting client (initiator) |
| `ServerSocket.Socket.Wait` | src/server/Socket.js:124-127 | the client records its pairing and takes the lobby slot |
| `ServerSocket.Socket.Register` | src/server/Socket.js:97-127 | the new state is `Registered`. An invalid result sends `HANDSHAKE_FAILED`, nulls both tables under the hash and closes the client and its peer. A valid one sends `HANDSHAKE_SUCCESS` first. It then pairs with the client in the lobby slot (slot nulled, session recorded, peers linked, both told) or takes the slot. On the reject branch the slot's client is left as it was, except that it is closed when it is also the peer. On every branch the previous peer receives nothing unless it is the slot's client. |
| `ServerSocket.Socket.OnMessageRegisterAsWritten` | src/server/Socket.js:95-105 | as wired in the source, every registration, unknown pairings included, gets `HANDSHAKE_SUCCESS` and then the valid branch of `Registered` |
| `ServerSocket.Socket.OnMessageRegister` | src/server/Socket.js:95-128 | `Registered` with the store's verdict: the reject branch exactly when the store does not validate the pairing, otherwise the pair or wait branch |
| `ServerSocket.Socket.OnMessage` | src/server/Socket.js:149-170 | a CLOSED peer means cleanup and no forwarding. A register frame goes to the corrected `OnMessageRegister` and ends in `Registered`. A data frame sends its data to an OPEN peer. A throwing inherited name reports `threw`, and the other inherited names do nothing. Any other message goes unchanged to the peer exactly when it is OPEN. On every route but cleanup and registration, the tables, the sender and its peer's state stay as they were. On the registration route the previous peer receives nothing unless it is the lobby client it pairs with. |
| `ClientConnection.LanesAreExclusive` | src/client/Connection.js:62-73 | every message takes exactly one lane: prefixed strings never reach `onString`, other strings reach it unchanged, and non-strings reach `onBinary` unchanged |
| `ClientConnection.InternalEventRoundTrip` | src/client/Connection.js:40-66 | what `sendInternalEvent(name, data)` sends comes back out of the demultiplexer as event `name` with `data` |
| `ClientConnection.Connection.constructor` | src/client/Connection.js:17-31 | a new connection is not connected and has the default handlers |
| `ClientConnection.Connection.SendInternalEvent` | src/client/Connection.js:40-42 | exactly the frame `PREFIX + encode(name, data)` is sent on the given transport |
| `ClientConnection.Connection.IsConnected` | src/client/Connection.js:49-51 | returns the flag unchanged |
| `ClientConnection.Connection.HandleIncomingMessage` | src/client/Connection.js:62-73 | the message takes the lane `LaneOf` names: the decoded event is emitted, or the text or data is handed to the installed handler; a prefixed string that decodes to `null` throws (`threw`) and changes nothing |
| `ClientConnection.Connection.HandleError` | src/client/Connection.js:80-83 | `connection.error` is emitted and the flag is untouched |
| `ClientConnection.Connection.HandleConnected` | src/client/Connection.js:88-92 | the flag becomes true and `connection.established` is emitted |
| `ClientConnection.Connection.HandleClose` | src/client/Connection.js:97-101 | the flag becomes false (again, if repeated) and `connection.closed` is emitted |
| `ClientConnection.Connection.HandleAlreadyConnected` | src/client/Connection.js:106-108 | no state changes |
| `ClientRTC.ConnectionRTC.constructor` | src/client/ConnectionRTC.js:10-16 | not connected and no engine |
| `ClientRTC.ConnectionRTC.Connect` | src/client/ConnectionRTC.js:41-60 | while connected the engine is left as it was; otherwise it is replaced by a fresh engine with the given initiator flag |
| `ClientRTC.ConnectionRTC.OnError` | src/client/ConnectionRTC.js:67-69 | an engine error is emitted as `connection.error` |
| `ClientRTC.ConnectionRTC.OnSignal` | src/client/ConnectionRTC.js:76-82 | `rtc.signal` is emitted only while not connected, and the signal is dropped otherwise |
| `ClientRTC.ConnectionRTC.Send` | src/client/ConnectionRTC.js:89-91 | the data goes to the engine, and the call fails exactly when there is no engine |
| `ClientRTC.ConnectionRTC.Signal` | src/client/ConnectionRTC.js:99-101 | the peer's signal is fed to the engine, and the call fails exactly when there is no engine |
| `ClientRTC.ConnectionRTC.Close` | src/client/ConnectionRTC.js:103-110 | the engine is destroyed only while connected, and the flag is not changed here |
| `ClientRTC.ConnectionRTC.OnEngineConnect` | src/client/ConnectionRTC.js:55 | the engine's `connect` event is `_handleConnected` |
| `ClientRTC.ConnectionRTC.OnEngineData` | src/client/ConnectionRTC.js:58 | the engine's `data` event goes through the same demultiplexer, and throws exactly where it does |
| `ClientRTC.ConnectionRTC.OnEngineClose` | src/client/ConnectionRTC.js:59 | the engine's `close` event is `_handleClose` |
| `ClientPeerSox.SocketEndpoint.Send` | src/client/classes/ConnectionSocket.js:107-109 | data goes on the kept WebSocket, and the call fails exactly when there is none |
| `ClientPeerSox.SocketEndpoint.SendSignal` | src/client/classes/ConnectionSocket.js:117-119 | a signal goes out as a framed `peer.signal` event |
| `ClientPeerSox.SocketEndpoint.Close` | src/client/classes/ConnectionSocket.js:133-140 | the WebSocket (if any) is closed, the flag becomes false and `connection.closed` is emitted |
| `ClientPeerSox.RegisterPayload` | src/client/classes/ConnectionSocket.js:47-49 | the handshake registers a pairing as its `{code, hash}` object, and an `Error` from the REST client as `{}` |
| `ClientPeerSox.InitiateRejectsOnlyWhenConnected` | src/client/PeerSoxClient.js:113-124 | `initiate` rejects with "Socket already connected" exactly when the socket is connected. A refused handshake resolves with its error. An accepted handshake resolves with whatever `requestPairing` resolved with (src/client/ClientAPI.js:57-69), a pairing or an `Error`. It resolves with a pairing exactly when the API gave one. |
| `ClientPeerSox.JoinRejectsOnlyOnConnectedOrRefusal` | src/client/PeerSoxClient.js:135-142 | `join` resolves exactly when the socket is not connected and the handshake is accepted. It then resolves with whatever `getHash` resolved with (src/client/ClientAPI.js:77-95), a pairing or an `Error`. A connected socket or a refused handshake rejects with its reason. |
| `ClientPeerSox.InitiateAndJoinAgreeOnSuccess` | src/client/PeerSoxClient.js:113-142 | the two entry points agree except on a refused handshake, which `initiate` resolves with and `join` rejects with |
| `ClientPeerSox.PeerSoxClient.constructor` | src/client/PeerSoxClient.js:24-77 | both connections start unconnected, with no engine and no WebSocket |
| `ClientPeerSox.PeerSoxClient.SetOnBinary` | src/client/PeerSoxClient.js:84-87 | the same binary handler is installed on both connections |
| `ClientPeerSox.PeerSoxClient.SetOnString` | src/client/PeerSoxClient.js:94-97 | the same string handler is installed on both connections |
| `ClientPeerSox.PeerSoxClient.Initiate` | src/client/PeerSoxClient.js:113-124 | the outcome is `InitiateOutcome`. The API is contacted, and its value (pairing or `Error`) handed to the handshake, exactly when the socket is not connected. |
| `ClientPeerSox.PeerSoxClient.Join` | src/client/PeerSoxClient.js:135-142 | the outcome is `JoinOutcome`. `getHash(code)` is called, and its value handed to the handshake, exactly when the socket is not connected. |
| `ClientPeerSox.PeerSoxClient.Send` | src/client/PeerSoxClient.js:165-171 | data goes to the engine exactly when the direct channel reports connected, otherwise to the socket; the other transport gets nothing |
| `ClientPeerSox.PeerSoxClient.Upgrade` | src/client/PeerSoxClient.js:180-182 | `upgrade(isInitiator)` is `rtc.connect(isInitiator)` |
| `ClientPeerSox.PeerSoxClient.OnSocketClosed` | src/client/PeerSoxClient.js:203-206 | the socket's `connection.closed` closes the direct channel and re-emits `connection.closed` |
| `ClientPeerSox.PeerSoxClient.Close` | src/client/PeerSoxClient.js:187-190 | the direct channel is closed, then the socket; the socket's `connection.closed` is re-emitted; the engine is destroyed exactly when the direct channel is connected, and otherwise left as it was |
| `ClientPeerSox.PeerSoxClient.OnSocketEvent` | src/client/PeerSoxClient.js:197-220 | `connection.established` and `peer.connected` are re-emitted; `peer.connected` upgrades with the payload's `isInitiator` exactly when `autoUpgrade` is set, leaving the old engine alone; `peer.signal` goes to the engine and throws (`threw`) exactly when there is none; `connection.closed` destroys the engine only while connected; no other event destroys the engine or feeds it a signal |
| `ClientPeerSox.PeerSoxClient.OnSocketMessage` | src/client/PeerSoxClient.js:197-220 | an inbound socket frame takes its lane, and an event it emits triggers the socket reactions; it throws exactly on the fault lane and on a `peer.signal` that arrives before any engine exists; on the other lanes the facade, the engine's `destroyed` flag and its signals stay as they were |
| `ClientPeerSox.PeerSoxClient.OnRtcEvent` | src/client/PeerSoxClient.js:222-225 | the direct channel's `rtc.signal` goes to the peer as a framed `peer.signal` over the socket, and throws (`threw`) exactly when there is no WebSocket; other events send nothing |
| `ClientPeerSox.PeerSoxClient.OnEngineSignal` | src/client/ConnectionRTC.js:76-82 | an engine signal reaches the socket as `peer.signal` only while the direct channel is not connected, and throws (`threw`) exactly when it is relayed with no WebSocket |
| `ClientCounters.Connections.constructor` | src/client/classes/Connections.js:5-9 | all three counters start at 0 |
| `ClientCounters.Connections.Attempt` | src/client/classes/Connections.js:11-13 | `attempt` grows by exactly 1 and the other counters are unchanged |
| `ClientCounters.Connections.Error` | src/client/classes/Connections.js:15-17 | `error` grows by exactly 1 and the other counters are unchanged |
| `ClientCounters.Connections.Success` | src/client/classes/Connections.js:19-21 | `success` grows by exactly 1 and the other counters are unchanged |
| `BrokerScenarios.UnknownPairingScenario` | src/server/Socket.js:95-105 | on an empty store, the broker as wired answers `HANDSHAKE_SUCCESS` to an unknown pairing and parks the client; with `isValid` tested it answers `HANDSHAKE_FAILED` |
| `BrokerScenarios.FailedRequestRegistersEmptyObject` | src/client/ClientAPI.js:57-69 | a failed pairing request reaches the broker as `{}`, which the validating broker refuses and the one as wired files under "undefined" |
| `BrokerScenarios.StrangersScenario` | src/server/Socket.js:95-127 | two clients whose pairing requests failed are both accepted by the broker as wired and paired with each other |
| `BrokerScenarios.RendezvousScenario` | src/server/Socket.js:95-127 | generate, register (wait), claim, register (pair): each side gets `HANDSHAKE_SUCCESS` then `peer.connected`, the joiner with `isInitiator` false, and the session holds two distinct clients |

## Left out

- I/O and concurrency:
  - Each Redis command and each broker operation runs atomically. Interleaving across the `await`s in `onMessageRegister` and in the store methods is not modelled.
  - Redis expiry is recorded as a number and never counts down.
  - The `ready` / `error` status flags of the Redis client (src/server/Store.js:27-37) only log, and are left out.
- ServerStore.Store.GenerateHash: the `buildRandomHex` draws are an input sequence. When every candidate is used the model returns `CandidatesExhausted`, where the source would keep drawing forever. This is the price of a finite supply of draws.
- ServerStore.Store.GenerateCode returns `CandidatesExhausted` in the same way. The draws are arbitrary strings: `buildRandomCode` can itself produce strings that `codeIsValid` rejects (the `substring(0, 6)` of a decimal with a point or an exponent). So no code validity is promised for them.
- `stringHash` and `Math.random` are outside the model.
- ServerStore.Store.GeneratePairing models a rejected Redis command (a rejected promise) as an unconfirmed write. The exception it would raise is not modelled.
- The broker's plumbing:
  - `verifyClient` and the origin check (src/server/Socket.js:20-29) call a `store.validateToken` that the store does not have.
  - The `setInterval` timer itself is left out; one tick is `CollectGarbage`.
  - `client.binaryType` is left out.
  - The WebSocket `close()` handshake is modelled only as OPEN→CLOSING. The later arrival of CLOSED, and the client's `close` event that follows, are further calls to `OnMessageClose`.
- ServerSocket.Socket.OnMessage: registration payloads are whatever the codec decodes, and only a `{code, hash}` object's string fields are looked at. Pairings whose `code` or `hash` is not a string, and a `null` payload, are not modelled.
- ServerSocket.Socket.OnMessage: a prefixed text that parses to a JSON value other than an `{name, data}` envelope with a `Data` payload is not modelled. The source forwards such a value to the peer when its `name` names no handler. It hands any `data` value, numbers and arrays included, to `client.register` or to `data`: `§{"name":"data","data":5}` sends `5` to the peer.
- ServerSocket.Raw: `onMessageData` passes the decoded payload to `ws`'s `send`. A string goes out as text. What the `ws` library does with an object payload is not modelled; the model records the value itself as `Structured(data)`.
- ServerSocket.Socket.OnMessage reports the `TypeError` of a throwing inherited handler as `threw`. What the `ws` library and the process then do with it is not modelled.
- ServerSocket.Socket.Register and `ServerSocket.Nulled` model `lobby` and `connections` as dictionaries, the corrected reading under Findings. On the plain objects of the source, an inherited name is truthy. The model then leaves out these effects of the as-written code:
  - the join with a builtin function or `Object.prototype`;
  - the own null entry a cleanup adds;
  - the prototype a `__proto__` assignment replaces.
  `ServerSocket.PlainGet`, `ServerSocket.NulledAsWritten` and `ServerSocket.PartnerAsWritten` state each lookup as written.
- ClientConnection.Connection.HandleIncomingMessage reports the `TypeError` of a prefixed string that does not decode as `threw`; the caller's reaction to it is not modelled.
- ClientConnection.LaneOf and ClientConnection.Connection.HandleIncomingMessage take the codec's `None` for the `null` that `decode` returns (a text `JSON.parse` rejects, or `null`), which makes `message.name` throw. A prefixed text that parses to a JSON value other than an `{name, data}` envelope with a `Data` payload is not modelled. For a number, a string, `false` or an object without `name`, the source emits an `undefined` event and does not throw. An envelope without `data`, such as `§{"name":"peer.connected"}`, is emitted with `undefined` data.
- ClientPeerSox.PeerSoxClient.OnSocketMessage inherits this: the fault lane is exactly the `null` decode. The `peer.connected` listener's throw on `undefined` data, when `autoUpgrade` is set, is not modelled.
- ClientPeerSox.RegisterPayload and `ClientPeerSox.Value.PairingValue` take the REST client to resolve with the pairing's own `{code, hash}`, that is, with the destructuring constructor of the Findings table. As written, src/client/ClientAPI.js:40, 62 and 88 call the positional constructor. Then the payload is `{code: {code, hash}}` with no `hash`, and no validating broker accepts it. `ServerStore.ObjectArgumentLosesFields` states that call as written.
- ServerSocket.Socket.SendInternalEvent and the relays record a frame only when the target is OPEN, as the source checks. The `ws` library's own behaviour on a `send` to a closing socket is not modelled.
- ClientRTC.ConnectionRTC.Send and `ClientRTC.ConnectionRTC.Signal` report the TypeError thrown on a missing engine as `ok == false` rather than as an exception. The same holds for `ClientPeerSox.SocketEndpoint.Send` and `ClientPeerSox.SocketEndpoint.SendSignal` on a missing WebSocket. `ClientPeerSox.PeerSoxClient.OnRtcEvent` and `ClientPeerSox.PeerSoxClient.OnEngineSignal` pass that TypeError on as `threw`; what the emitter then does with it is not modelled.
- ClientRTC.ConnectionRTC.Connect: the engine (`simple-peer`) is opaque. Its negotiation, its event timing, `isSupported` (a `simple-peer` constant) and the `status` getter are left out. An engine event is delivered through the `OnEngine…` methods.
- ClientPeerSox.PeerSoxClient.Initiate: the value the REST client resolves with and the outcome of the WebSocket handshake of `ConnectionSocket.connect` (src/client/classes/ConnectionSocket.js:40-100) are parameters. The handshake's effect on the socket endpoint (`initSocket`, the timeout, the temporary handlers) is not modelled. The same holds for `ClientPeerSox.PeerSoxClient.Join`.
- ClientPeerSox.PeerSoxClient.OnSocketEvent reports the `TypeError` of a `peer.signal` before any engine exists as `threw`. What the emitter and the socket's `onmessage` then do with it is not modelled.
- Error objects are modelled by their message strings.
- HTTP and bootstrap:
  - the REST API: src/server/API.js, and the requests of src/client/ClientAPI.js, whose resolved value is a parameter;
  - storage and configuration files;
  - the server bootstrap;
  - the older client in src/client/index.js;
  - the older single-map broker in the webpack bundle;
  - the `PING` constant. No code uses it.
- Logging (src/common/debug.js) has no effect on state and is left out.

## Findings

| source | as written | input that shows it | evidently intended | confidence | as-written member | corrected member |
|---|---|---|---|---|---|---|
| src/server/Socket.js:96-99 | `if (!isValid)` tests the `Validation` object returned by `validatePairing`, and every object is truthy | an empty store and a `client.register` with `{code: "123456", hash: "unknown-hash"}`: the broker answers `HANDSHAKE_SUCCESS` and parks the client in the lobby | test the `isValid` field, so unknown pairings get `HANDSHAKE_FAILED` | high; not executed | `ServerSocket.Socket.OnMessageRegisterAsWritten` (shown by `BrokerScenarios.UnknownPairingScenario`) | `ServerSocket.Socket.OnMessageRegister` |
| src/common/classes.js:7-12 | the `Pairing` constructor takes `(code, hash)` positionally, but src/server/Store.js:99 and 121 call `new Pairing({ code, hash })`, and src/client/ClientAPI.js:40, 62 and 88 pass the parsed REST response in the same way | any generated pairing, for example code "123456" and hash "a1b2": the result has the argument object as `code` and `undefined` as `hash`. On the client, every pairing that `initiate` and `join` hand to the handshake then registers as `{code: {…}}`, with no `hash`: the validating broker refuses it, and the broker as wired files every client under "undefined" | destructure `{ code, hash }`, as the bundled build of the same class does (lib/peersox.server.js:223-229) | high; not executed | `ServerStore.ObjectArgumentLosesFields` | `ServerStore.DestructuringKeepsFields` |
| src/server/Socket.js:39-40 | `lobby` and `connections` are plain `{}` objects, so `this.lobby[hash]` is truthy for a hash naming an inherited property | a `client.register` whose hash is `__proto__`: the join branch takes `Object.prototype` as the peer, and `peer._peer = client` gives every object that `_peer`, so messages from any unpaired client are forwarded to the registrant (line 167) | dictionaries without a prototype (`Object.create(null)` or a `Map`), as the rest of the broker assumes | medium; not executed | `ServerSocket.ProtoRegistrationCapturesTraffic` | `ServerSocket.Socket.Register` |
