/** Whole runs of the broker and the store on concrete inputs. */
module BrokerScenarios {
  import opened Common
  import opened ServerUtils
  import opened ServerStore
  import opened ServerSocket
  import ClientPeerSox

  /** A pairing the store has never handed out registers on an empty store.
      As wired in the source, the broker answers `HANDSHAKE_SUCCESS` and
      parks the client in the lobby; with the `isValid` flag tested, it
      answers `HANDSHAKE_FAILED`. */
  method UnknownPairingScenario(codec: Codec) returns (asWritten: Message, lobbied: bool, corrected: Message)
    ensures asWritten == Str(HANDSHAKE_SUCCESS) && lobbied
    ensures corrected == Str(HANDSHAKE_FAILED)
  {
    var redis := new Redis();
    var store := new Store(redis);
    var broker := new Socket(store, codec);
    var data := PairingData(Pairing("123456", "unknown-hash"));
    assert !ValidIn(redis.entries, data);

    var first := new Client(OPEN);
    broker.OnMessageRegisterAsWritten(first, data);
    asWritten := first.outbox[0];
    lobbied := "unknown-hash" in broker.lobby && broker.lobby["unknown-hash"] == first;

    var second := new Client(OPEN);
    broker.OnMessageRegister(second, data);
    corrected := second.outbox[0];
  }

  /** A failed API request still reaches the broker, as the payload `{}`:
      the validating broker refuses it, and the one as wired files it
      under the key "undefined", the same for every failed request. */
  lemma FailedRequestRegistersEmptyObject(m: map<string, Entry>, e: string)
    ensures ClientPeerSox.RegisterPayload(ClientPeerSox.ErrorValue(e)) == Empty
    ensures !ValidIn(m, ClientPeerSox.RegisterPayload(ClientPeerSox.ErrorValue(e)))
    ensures LobbyKey(ClientPeerSox.RegisterPayload(ClientPeerSox.ErrorValue(e))) == "undefined"
  {
  }

  /** Two clients whose pairing request failed both hand the resulting
      `Error` to the handshake; the broker as wired accepts both and pairs
      the second with the first, though neither holds a pairing. */
  method StrangersScenario(codec: Codec) returns (paired: bool, replies: seq<Message>)
    ensures paired
    ensures replies == [Str(HANDSHAKE_SUCCESS), Str(HANDSHAKE_SUCCESS)]
  {
    var redis := new Redis();
    var store := new Store(redis);
    var broker := new Socket(store, codec);
    var data := ClientPeerSox.RegisterPayload(ClientPeerSox.ErrorValue("Could not request pairing."));

    var first := new Client(OPEN);
    broker.OnMessageRegisterAsWritten(first, data);
    var second := new Client(OPEN);
    broker.OnMessageRegisterAsWritten(second, data);
    paired := second.peer == first && first.peer == second;
    replies := [first.outbox[0], second.outbox[0]];
  }

  /** A broker over a store that has just handed out the pairing
      `123456` / `a1b2`. */
  method Seeded(codec: Codec) returns (broker: Socket, p: Pairing)
    ensures fresh(broker) && fresh(broker.store) && fresh(broker.store.redis)
    ensures p == Pairing("123456", "a1b2") && broker.codec == codec
    ensures broker.lobby == map[] && broker.connections == map[]
    ensures broker.store.redis.entries == Stored(map[], p)
  {
    var redis := new Redis();
    var store := new Store(redis);
    broker := new Socket(store, codec);
    assert FirstUnused(["a1b2"], {}) == Some("a1b2");
    assert FirstUnused(["123456"], {}) == Some("123456");
    var generated := store.GeneratePairing(["a1b2"], ["123456"], true, true);
    p := generated.value;
  }

  /** A first client registering a valid pairing on an empty lobby: it
      takes the slot and waits. */
  method WaitIn(broker: Socket, data: Data) returns (initiator: Client)
    requires ValidIn(broker.store.redis.entries, data)
    requires broker.lobby == map[]
    modifies broker`lobby, broker`connections
    ensures fresh(initiator)
    ensures broker.lobby == map[LobbyKey(data) := initiator] && broker.connections == old(broker.connections)
    ensures initiator.readyState == OPEN && initiator.outbox == [Str(HANDSHAKE_SUCCESS)]
  {
    initiator := new Client(OPEN);
    broker.OnMessageRegister(initiator, data);
  }

  /** A second client registering the pairing the waiting initiator
      registered. */
  method JoinWaiting(broker: Socket, initiator: Client, data: Data) returns (joiner: Client)
    requires ValidIn(broker.store.redis.entries, data)
    requires broker.lobby == map[LobbyKey(data) := initiator]
    requires initiator.readyState == OPEN && initiator.outbox == [Str(HANDSHAKE_SUCCESS)]
    modifies broker`lobby, broker`connections, initiator
    ensures fresh(joiner)
    ensures joiner.outbox == [Str(HANDSHAKE_SUCCESS), Str(Frame(broker.codec, "peer.connected", PeerInfo(false, data)))]
    ensures initiator.outbox == [Str(HANDSHAKE_SUCCESS), Str(Frame(broker.codec, "peer.connected", PeerInfo(true, data)))]
    ensures broker.connections == old(broker.connections)[LobbyKey(data) := Some(Session(initiator, joiner))]
  {
    joiner := new Client(OPEN);
    broker.OnMessageRegister(joiner, data);
  }

  /** The joiner's claim of the code: it yields the hash, and the pairing
      still validates afterwards. */
  method Claim(broker: Socket, p: Pairing) returns (claimed: Option<Pairing>)
    requires broker.store.redis.entries == Stored(map[], p)
    requires p == Pairing("123456", "a1b2")
    modifies broker.store.redis
    ensures claimed == Some(p)
    ensures ValidIn(broker.store.redis.entries, PairingData(p))
  {
    LeadingZerosAccepted();
    CodeIsValidCharacterised(JsString(p.code));
    ghost var before := broker.store.redis.entries;
    StoredPairingValidates(map[], p);
    claimed := broker.store.GetPairingFromCode(JsString(p.code));
    ValidationSurvivesClaim(before, p, JsString(p.code));
  }

  /** The rendezvous the system exists for: the store hands out a pairing,
      the initiator registers it and waits, the joiner claims the code,
      learns the hash and registers the same pairing. Each receives
      `HANDSHAKE_SUCCESS` and then `peer.connected`, the joiner with
      `isInitiator` false and the initiator with it true, and the broker
      records the session under the hash. */
  method RendezvousScenario(codec: Codec)
    returns (claimed: Option<Pairing>, initiatorOutbox: seq<Message>, joinerOutbox: seq<Message>, session: Option<Session>)
    ensures claimed == Some(Pairing("123456", "a1b2"))
    ensures var data := PairingData(Pairing("123456", "a1b2"));
            && initiatorOutbox == [Str(HANDSHAKE_SUCCESS), Str(Frame(codec, "peer.connected", PeerInfo(true, data)))]
            && joinerOutbox == [Str(HANDSHAKE_SUCCESS), Str(Frame(codec, "peer.connected", PeerInfo(false, data)))]
    ensures session.Some? && session.value.initiator != session.value.joiner
  {
    var broker, p := Seeded(codec);
    var data := PairingData(p);
    assert LobbyKey(data) == "a1b2";
    StoredPairingValidates(map[], p);

    var initiator := WaitIn(broker, data);
    claimed := Claim(broker, p);

    var joiner := JoinWaiting(broker, initiator, data);
    initiatorOutbox := initiator.outbox;
    joinerOutbox := joiner.outbox;
    session := broker.connections[p.hash];
  }
}
