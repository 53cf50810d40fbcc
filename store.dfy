/** The credential store: generates, consumes and validates pairings in a
    key-value store whose keys carry an expiry. */
module ServerStore {
  import opened Common
  import opened ServerUtils

  /** Seconds a freshly generated pairing stays in the store. */
  const EXPIRE_CODE: nat := 130
  /** Seconds a claimed pairing's hash stays in the store (seven days). */
  const EXPIRE_PAIRED: nat := 60 * 60 * 24 * 7

  /** A stored value and the expiry, in seconds, last set on its key. */
  datatype Entry = Entry(value: string, ttl: nat)

  datatype StoreError =
    | PairingGenerateFailed
    | CandidatesExhausted   // the model's finite supply of random candidates ran out

  /** The result of `validatePairing`: an object with an `isValid` field. */
  datatype Validation = Validation(isValid: bool)

  /** The store after `EXPIRE key seconds`: a present key gets the new expiry
      and keeps its value; a missing key stays missing. */
  function Expired(m: map<string, Entry>, key: string, seconds: nat): (r: map<string, Entry>)
    ensures r.Keys == m.Keys
    ensures forall k :: k in m ==> r[k].value == m[k].value
    ensures key in m ==> r[key].ttl == seconds
    ensures forall k :: k in m && k != key ==> r[k] == m[k]
  {
    if key in m then m[key := Entry(m[key].value, seconds)] else m
  }

  /** The Redis client: `exists`, `get`, `set` with expiry, `del`, `expire`. */
  class Redis {
    var entries: map<string, Entry>

    constructor ()
      ensures entries == map[]
    {
      entries := map[];
    }

    /** `EXISTS key`: the number of the given keys that exist. */
    method Exists(key: string) returns (count: int)
      ensures count == if key in entries then 1 else 0
    {
      count := if key in entries then 1 else 0;
    }

    /** `GET key`: the value, or nil for a missing key. */
    method Get(key: string) returns (value: Option<string>)
      ensures key in entries ==> value == Some(entries[key].value)
      ensures key !in entries ==> value == None
    {
      value := if key in entries then Some(entries[key].value) else None;
    }

    /** `SET key value EX seconds`. Whether the server confirms the write is
        an input: a confirmed write replies "OK", an unconfirmed one is not
        applied. */
    method Set(key: string, value: string, seconds: nat, confirmed: bool) returns (reply: string)
      modifies this
      ensures confirmed ==> reply == "OK" && entries == old(entries)[key := Entry(value, seconds)]
      ensures !confirmed ==> reply != "OK" && entries == old(entries)
    {
      if confirmed {
        entries := entries[key := Entry(value, seconds)];
        reply := "OK";
      } else {
        reply := "ERR";
      }
    }

    /** `DEL key`: the number of keys removed. */
    method Del(key: string) returns (removed: int)
      modifies this
      ensures entries == old(entries) - {key}
      ensures removed == if key in old(entries) then 1 else 0
    {
      removed := if key in entries then 1 else 0;
      entries := entries - {key};
    }

    /** `EXPIRE key seconds`: 1 when the key exists, 0 otherwise. */
    method Expire(key: string, seconds: nat) returns (applied: int)
      modifies this
      ensures entries == Expired(old(entries), key, seconds)
      ensures applied == if key in old(entries) then 1 else 0
    {
      applied := if key in entries then 1 else 0;
      entries := Expired(entries, key, seconds);
    }
  }

  /** The first candidate that is not a key of the store, if any: what a
      re-roll loop returns when its random draws are `candidates`. */
  function FirstUnused(candidates: seq<string>, keys: set<string>): Option<string> {
    if candidates == [] then None
    else if candidates[0] !in keys then Some(candidates[0])
    else FirstUnused(candidates[1..], keys)
  }

  /** The re-roll loop returns an unused candidate preceded only by used
      ones, and gives up only when every candidate is used. */
  lemma {:induction false} FirstUnusedIsFirst(candidates: seq<string>, keys: set<string>)
    ensures FirstUnused(candidates, keys).None? <==> forall i :: 0 <= i < |candidates| ==> candidates[i] in keys
    ensures FirstUnused(candidates, keys).Some? ==>
      exists k :: 0 <= k < |candidates| && candidates[k] == FirstUnused(candidates, keys).value &&
        candidates[k] !in keys && forall j :: 0 <= j < k ==> candidates[j] in keys
  {
    if candidates != [] && candidates[0] in keys {
      var rest := candidates[1..];
      FirstUnusedIsFirst(rest, keys);
      assert forall i :: 1 <= i < |candidates| ==> candidates[i] == rest[i - 1];
      if FirstUnused(rest, keys).Some? {
        var k :| 0 <= k < |rest| && rest[k] == FirstUnused(rest, keys).value &&
          rest[k] !in keys && forall j :: 0 <= j < k ==> rest[j] in keys;
        assert candidates[k + 1] == rest[k];
        assert forall j :: 0 <= j < k + 1 ==> candidates[j] in keys by {
          forall j | 0 <= j < k + 1 ensures candidates[j] in keys {
            if j > 0 { assert candidates[j] == rest[j - 1]; }
          }
        }
      }
    }
  }

  /** What `getPairingFromCode` returns for a store `m`; `None` is the empty
      object `{}`. */
  function Lookup(m: map<string, Entry>, code: JsValue): Option<Pairing> {
    if CodeIsValid(code) && StringOf(code) in m then Some(Pairing(StringOf(code), m[StringOf(code)].value))
    else None
  }

  /** The store after `getPairingFromCode`: a found code key is deleted, then
      the hash it named is re-armed with the long expiry. */
  function AfterLookup(m: map<string, Entry>, code: JsValue): map<string, Entry> {
    if CodeIsValid(code) && StringOf(code) in m then Expired(m - {StringOf(code)}, m[StringOf(code)].value, EXPIRE_PAIRED)
    else m
  }

  /** `validatePairing`'s verdict for a store `m`. */
  predicate ValidIn(m: map<string, Entry>, d: Data) {
    PairingIsValid(d) && d.credential.hash in m && m[d.credential.hash].value == d.credential.code
  }

  /** The store after both writes of `generatePairing` were confirmed. */
  function Stored(m: map<string, Entry>, p: Pairing): map<string, Entry> {
    m[p.hash := Entry(p.code, EXPIRE_CODE)][p.code := Entry(p.hash, EXPIRE_CODE)]
  }

  /** A pairing object as JavaScript sees it, field by field. */
  datatype JsPairing = JsPairing(code: JsValue, hash: JsValue)

  /** The `Pairing` class of `src/common/classes.js` as written: a positional
      constructor `(code, hash)`. */
  function PositionalPairing(first: JsValue, second: JsValue): JsPairing {
    JsPairing(first, second)
  }

  /** The object literal `{ code, hash }` that `generatePairing` and
      `getPairingFromCode` pass to `new Pairing`. */
  function CodeHashLiteral(code: string, hash: string): JsValue {
    JsObject(map["code" := JsString(code), "hash" := JsString(hash)])
  }

  /** Property `name` of a value: an object's own field, else `undefined`. */
  function Field(v: JsValue, name: string): JsValue {
    if v.JsObject? && name in v.fields then v.fields[name] else JsUndefined
  }

  /** `new Pairing({ code, hash })`, as `generatePairing` and
      `getPairingFromCode` return it, against the positional constructor. */
  function PairingReturnedAsWritten(code: string, hash: string): JsPairing {
    PositionalPairing(CodeHashLiteral(code, hash), JsUndefined)
  }

  /** Whatever code and hash were drawn or looked up, the pairing those two
      functions return has the whole argument object as its `code`, which
      never passes `codeIsValid`, and `undefined` as its `hash`. */
  lemma ObjectArgumentLosesFields(code: string, hash: string)
    ensures var p := PairingReturnedAsWritten(code, hash);
            && p.code == CodeHashLiteral(code, hash) && !IsString(p.code) && !CodeIsValid(p.code)
            && p.hash == JsUndefined && Field(p.code, "hash") == JsString(hash)
  {
  }

  /** The constructor the callers evidently expect, destructuring its
      argument: `constructor ({ code, hash })`. */
  function DestructuredPairing(arg: JsValue): JsPairing {
    JsPairing(Field(arg, "code"), Field(arg, "hash"))
  }

  /** With the destructuring constructor both fields survive, so the
      pairing validates exactly when its code does. */
  lemma DestructuringKeepsFields(code: string, hash: string)
    ensures DestructuredPairing(CodeHashLiteral(code, hash)) == JsPairing(JsString(code), JsString(hash))
    ensures CodeIsValid(DestructuredPairing(CodeHashLiteral(code, hash)).code) <==> CodeIsValid(JsString(code))
  {
  }

  class Store {
    const redis: Redis

    constructor (redis: Redis)
      ensures this.redis == redis
    {
      this.redis := redis;
    }

    /** True exactly when the store's `exists` reply is 1. */
    method KeyExists(key: string) returns (exists_: bool)
      ensures exists_ <==> key in redis.entries
    {
      var res := redis.Exists(key);
      exists_ := res == 1;
    }

    /** The `do { draw } while (keyExists(draw))` loop shared by
        `generateHash` and `generateCode`; `candidates` are the successive
        random draws. */
    method DrawUnused(candidates: seq<string>) returns (drawn: Option<string>)
      ensures drawn == FirstUnused(candidates, redis.entries.Keys)
      ensures drawn.Some? ==> drawn.value !in redis.entries && drawn.value in candidates
      ensures drawn.None? ==> forall i :: 0 <= i < |candidates| ==> candidates[i] in redis.entries
    {
      var i := 0;
      var alreadyUsed := true;
      drawn := None;
      while alreadyUsed && i < |candidates|
        invariant 0 <= i <= |candidates|
        invariant alreadyUsed ==>
                    drawn == None &&
                    FirstUnused(candidates, redis.entries.Keys) == FirstUnused(candidates[i..], redis.entries.Keys)
        invariant !alreadyUsed ==> drawn == FirstUnused(candidates, redis.entries.Keys) && drawn.Some?
      {
        var candidate := candidates[i];
        alreadyUsed := KeyExists(candidate);
        assert candidates[i..][1..] == candidates[i + 1..];
        if !alreadyUsed {
          drawn := Some(candidate);
        }
        i := i + 1;
      }
      FirstUnusedIsFirst(candidates, redis.entries.Keys);
      if drawn.Some? {
        var k :| 0 <= k < |candidates| && candidates[k] == drawn.value && candidates[k] !in redis.entries.Keys &&
          forall j :: 0 <= j < k ==> candidates[j] in redis.entries.Keys;
      }
    }

    /** `generateHash`: `hashes` are successive `buildRandomHex()` draws. */
    method GenerateHash(hashes: seq<string>) returns (hash: Option<string>)
      ensures hash == FirstUnused(hashes, redis.entries.Keys)
      ensures hash.Some? ==> hash.value !in redis.entries && hash.value in hashes
      ensures hash.None? ==> forall i :: 0 <= i < |hashes| ==> hashes[i] in redis.entries
    {
      hash := DrawUnused(hashes);
    }

    /** `generateCode`: `codes` are successive draws of
        `buildRandomCode(stringHash(hash))`. The source repeats the
        do/while of `generateHash` with another generator, so both share
        `DrawUnused` and differ only in their draws. */
    method GenerateCode(codes: seq<string>) returns (code: Option<string>)
      ensures code == FirstUnused(codes, redis.entries.Keys)
      ensures code.Some? ==> code.value !in redis.entries && code.value in codes
      ensures code.None? ==> forall i :: 0 <= i < |codes| ==> codes[i] in redis.entries
    {
      code := DrawUnused(codes);
    }

    /** `generatePairing`: draws a hash and a code, writes hash->code and
        code->hash with the short expiry, and fails unless both writes are
        confirmed. Both writes are attempted either way. */
    method GeneratePairing(hashes: seq<string>, codes: seq<string>, hashConfirmed: bool, codeConfirmed: bool)
      returns (r: Result<Pairing, StoreError>)
      modifies redis
      ensures var hash := FirstUnused(hashes, old(redis.entries).Keys);
              var code := FirstUnused(codes, old(redis.entries).Keys);
              if hash.None? || code.None? then
                r == Err(CandidatesExhausted) && redis.entries == old(redis.entries)
              else
                && hash.value !in old(redis.entries) && code.value !in old(redis.entries)
                && redis.entries ==
                     (var afterHash := if hashConfirmed then old(redis.entries)[hash.value := Entry(code.value, EXPIRE_CODE)]
                                       else old(redis.entries);
                      if codeConfirmed then afterHash[code.value := Entry(hash.value, EXPIRE_CODE)] else afterHash)
                && (hashConfirmed && codeConfirmed ==> r == Ok(Pairing(code.value, hash.value)))
                && (!(hashConfirmed && codeConfirmed) ==> r == Err(PairingGenerateFailed))
    {
      var hash := GenerateHash(hashes);
      if hash.None? {
        return Err(CandidatesExhausted);
      }
      var code := GenerateCode(codes);
      if code.None? {
        return Err(CandidatesExhausted);
      }
      var hashReply := redis.Set(hash.value, code.value, EXPIRE_CODE, hashConfirmed);
      var codeReply := redis.Set(code.value, hash.value, EXPIRE_CODE, codeConfirmed);
      var hashIsSet := hashReply == "OK";
      var codeIsSet := codeReply == "OK";
      if hashIsSet && codeIsSet {
        r := Ok(Pairing(code.value, hash.value));
      } else {
        r := Err(PairingGenerateFailed);
      }
    }

    /** `getPairingFromCode`: an invalid code yields `{}` without touching
        the store; a stored code yields its pairing, is deleted, and its hash
        is re-armed with the long expiry. */
    method GetPairingFromCode(code: JsValue) returns (r: Option<Pairing>)
      modifies redis
      ensures r == Lookup(old(redis.entries), code)
      ensures redis.entries == AfterLookup(old(redis.entries), code)
    {
      r := None;
      if CodeIsValid(code) {
        var key := StringOf(code);
        var exists_ := KeyExists(key);
        if exists_ {
          var hash := redis.Get(key);
          var _ := redis.Del(key);
          var _ := redis.Expire(hash.value, EXPIRE_PAIRED);
          r := Some(Pairing(key, hash.value));
        }
      }
    }

    /** `validatePairing`: valid exactly when the pairing passes
        `pairingIsValid`, its hash is a key and that key's value is its code.
        It only reads the store. */
    method ValidatePairing(pairing: Data) returns (v: Validation)
      ensures v.isValid <==>
        && pairing.PairingData?
        && CodeIsValid(JsString(pairing.credential.code))
        && pairing.credential.hash in redis.entries
        && redis.entries[pairing.credential.hash].value == pairing.credential.code
      ensures v.isValid == ValidIn(redis.entries, pairing)
    {
      var isValid := false;
      if PairingIsValid(pairing) {
        var hashExists := KeyExists(pairing.credential.hash);
        if hashExists {
          var code := redis.Get(pairing.credential.hash);
          if code == Some(pairing.credential.code) {
            isValid := true;
          }
        }
      }
      v := Validation(isValid);
    }
  }

  /** A code that does not pass `codeIsValid` never reaches the store. */
  lemma InvalidCodeNeverLooksUp(m: map<string, Entry>, code: JsValue)
    requires !CodeIsValid(code)
    ensures Lookup(m, code) == None && AfterLookup(m, code) == m
  {
  }

  /** Claiming a stored code returns its hash, deletes the code key, re-arms
      the hash key with the long expiry and leaves the hash's value as it was. */
  lemma LookupClaims(m: map<string, Entry>, code: string)
    requires CodeIsValid(JsString(code)) && code in m
    ensures Lookup(m, JsString(code)) == Some(Pairing(code, m[code].value))
    ensures code !in AfterLookup(m, JsString(code))
    ensures var hash := m[code].value;
            hash != code && hash in m ==>
              hash in AfterLookup(m, JsString(code)) &&
              AfterLookup(m, JsString(code))[hash] == Entry(m[hash].value, EXPIRE_PAIRED)
  {
  }

  /** A code can be claimed once: the second lookup finds nothing. */
  lemma {:induction false} ClaimIsSingleUse(m: map<string, Entry>, code: JsValue)
    ensures Lookup(AfterLookup(m, code), code) == None
  {
    if CodeIsValid(code) && StringOf(code) in m {
      var key := StringOf(code);
      assert key !in m - {key};
      assert key !in AfterLookup(m, code);
    }
  }

  /** A generated pairing whose code passes `codeIsValid` validates right
      after it is stored. */
  lemma StoredPairingValidates(m: map<string, Entry>, p: Pairing)
    requires CodeIsValid(JsString(p.code))
    ensures ValidIn(Stored(m, p), PairingData(p))
  {
  }

  /** Claiming a code never invalidates a pairing whose hash key is a
      different key: the hash's value is never overwritten. */
  lemma ValidationSurvivesClaim(m: map<string, Entry>, p: Pairing, code: JsValue)
    requires ValidIn(m, PairingData(p))
    requires IsString(code) ==> StringOf(code) != p.hash
    ensures ValidIn(AfterLookup(m, code), PairingData(p))
  {
  }

  /** Generating, then claiming the code, leaves the pairing valid, and a
      second claim of the same code finds nothing. */
  lemma GenerateClaimValidate(m: map<string, Entry>, p: Pairing)
    requires CodeIsValid(JsString(p.code)) && p.code != p.hash
    ensures var claimed := AfterLookup(Stored(m, p), JsString(p.code));
            && Lookup(Stored(m, p), JsString(p.code)) == Some(p)
            && ValidIn(claimed, PairingData(p))
            && claimed[p.hash].ttl == EXPIRE_PAIRED
            && Lookup(claimed, JsString(p.code)) == None
  {
    StoredPairingValidates(m, p);
    ValidationSurvivesClaim(Stored(m, p), p, JsString(p.code));
    ClaimIsSingleUse(Stored(m, p), JsString(p.code));
  }
}
