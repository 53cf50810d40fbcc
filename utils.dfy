/** The server's pure validators for pairing codes, hashes and pairings. */
module ServerUtils {
  import opened Common

  /** A JavaScript value, as far as the validators distinguish values. */
  datatype JsValue =
    | JsString(s: string)          // a primitive string
    | JsStringObject(s: string)    // a `new String(...)` wrapper
    | JsNumber(n: int)
    | JsBoolean(b: bool)
    | JsNull
    | JsUndefined
    | JsObject(fields: map<string, JsValue>)   // its own fields

  /** `typeof v === 'string' || v instanceof String`. */
  predicate IsString(v: JsValue) {
    v.JsString? || v.JsStringObject?
  }

  /** The characters of a string value (a String object converts to the
      string it wraps). */
  function StringOf(v: JsValue): string
    requires IsString(v)
  {
    v.s
  }

  /** `\d` in a JavaScript regular expression without the `u` flag. */
  predicate IsDigit(c: char) {
    '0' <= c <= '9'
  }

  predicate AllDigits(s: string) {
    s == [] || (IsDigit(s[0]) && AllDigits(s[1..]))
  }

  /** `/^\d+$/.test(s)`. */
  predicate MatchesDigits(s: string) {
    |s| > 0 && AllDigits(s)
  }

  /** `codeIsValid`: a string, of length 6, matching `/^\d+$/`. */
  predicate CodeIsValid(v: JsValue) {
    if !IsString(v) then false
    else if |StringOf(v)| != 6 then false
    else if !MatchesDigits(StringOf(v)) then false
    else true
  }

  /** `hashIsValid` accepts every value. */
  predicate HashIsValid(v: JsValue) {
    true
  }

  /** `pairingIsValid(pairing)`: checks the `code` and `hash` fields; a value
      that is not a `{code, hash}` object has an undefined `code`. */
  predicate PairingIsValid(d: Data) {
    match d
    case PairingData(p) => CodeIsValid(JsString(p.code)) && HashIsValid(JsString(p.hash))
    case _ => CodeIsValid(JsUndefined) && HashIsValid(JsUndefined)
  }

  lemma {:induction false} AllDigitsMeansEveryDigit(s: string)
    ensures AllDigits(s) <==> forall i :: 0 <= i < |s| ==> IsDigit(s[i])
  {
    if s != [] {
      AllDigitsMeansEveryDigit(s[1..]);
      assert forall i :: 1 <= i < |s| ==> s[i] == s[1..][i - 1];
    }
  }

  /** A code is valid exactly when it is a string of exactly six ASCII
      digits. */
  lemma CodeIsValidCharacterised(v: JsValue)
    ensures CodeIsValid(v) <==>
      IsString(v) && |StringOf(v)| == 6 && forall i :: 0 <= i < 6 ==> IsDigit(StringOf(v)[i])
  {
    if IsString(v) {
      AllDigitsMeansEveryDigit(StringOf(v));
    }
  }

  /** Leading zeros are not special: "000123" is a valid code. */
  lemma LeadingZerosAccepted()
    ensures CodeIsValid(JsString("000123"))
    ensures CodeIsValid(JsStringObject("000000"))
  {
    CodeIsValidCharacterised(JsString("000123"));
    CodeIsValidCharacterised(JsStringObject("000000"));
  }

  /** Digit strings of length 5 or 7 are rejected, in either string form. */
  lemma WrongLengthRejected(s: string)
    requires |s| == 5 || |s| == 7
    ensures !CodeIsValid(JsString(s)) && !CodeIsValid(JsStringObject(s))
  {
  }

  /** Values that are not strings, such as the number 123456, are rejected. */
  lemma NonStringsRejected(v: JsValue)
    requires !IsString(v)
    ensures !CodeIsValid(v)
    ensures !CodeIsValid(JsNumber(123456))
  {
  }

  /** `hashIsValid` constrains nothing, so a pairing is valid exactly when it
      is a `{code, hash}` object whose code is valid. */
  lemma PairingValidityIsCodeValidity(d: Data)
    ensures PairingIsValid(d) <==> d.PairingData? && CodeIsValid(JsString(d.credential.code))
  {
  }
}
