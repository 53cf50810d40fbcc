/** Values shared by the broker and the client endpoints: wire messages,
    pairings, the control-message envelope and its framing. */
module Common {

  datatype Option<T> = None | Some(value: T)

  datatype Result<T, E> = Ok(value: T) | Err(error: E)

  newtype byte = x: int | 0 <= x < 256

  /** A pairing credential: the short code a user types and the long hash
      the endpoints exchange programmatically. */
  datatype Pairing = Pairing(code: string, hash: string)

  /** The structured payload of a control message, after JSON decoding, as
      far as the protocol looks at it. */
  datatype Data =
    | Empty                                         // `{}`, the default payload
    | PairingData(credential: Pairing)              // a `{code, hash}` object
    | PeerInfo(isInitiator: bool, pairing: Data)    // the `peer.connected` payload
    | Text(text: string)                            // a JSON string (signals, errors, relayed data)

  /** One frame on a transport. `Structured` is a decoded, non-string value
      that is handed to `send` as it is. */
  datatype Message =
    | Str(text: string)
    | Bin(bytes: seq<byte>)
    | Structured(data: Data)

  /** What `encode(name, data)` serialises: `{name, data}`. */
  datatype Envelope = Envelope(name: string, data: Data)

  /** The JSON codec of the control lane. `decode` yields `None` where the
      source's decode yields `null` (a text `JSON.parse` rejects, or the
      text `null`) and `Some` for an `{name, data}` envelope whose data is
      one of the `Data` shapes. Texts that parse to any other JSON value
      are outside the model. */
  datatype Codec = Codec(encode: Envelope -> string, decode: string -> Option<Envelope>)

  /** Decoding inverts encoding. */
  ghost predicate Faithful(c: Codec) {
    forall e: Envelope :: c.decode(c.encode(e)) == Some(e)
  }

  /** The reserved one-character prefix of control messages. */
  const PREFIX: char := '§'
  const HANDSHAKE_SUCCESS: string := "HANDSHAKE_SUCCESS"
  const HANDSHAKE_FAILED: string := "HANDSHAKE_FAILED"

  /** `s.charAt(0) === PREFIX`. */
  predicate IsControl(s: string) {
    |s| > 0 && s[0] == PREFIX
  }

  /** `PREFIX + encode(name, data)`. */
  function Frame(c: Codec, name: string, data: Data): (s: string)
    ensures IsControl(s) && s[1..] == c.encode(Envelope(name, data))
  {
    [PREFIX] + c.encode(Envelope(name, data))
  }

  /** A framed control message decodes back to its name and data, provided
      the codec round-trips. */
  lemma FrameDecodes(c: Codec, name: string, data: Data)
    requires Faithful(c)
    ensures c.decode(Frame(c, name, data)[1..]) == Some(Envelope(name, data))
  {
    var e := Envelope(name, data);
    assert c.decode(c.encode(e)) == Some(e);
  }
}
