/**
 The relying party's signed session cookie `<id>.<signature in hex>` and its two verifiers: the Edge middleware,
 which compares the hexadecimal texts, and the Node server, which compares the decoded bytes.
 */
module Cookies {
  import opened Basics
  import opened Hex

  type Digest = d: seq<Byte> | |d| == 32 witness seq(32, i => 0)

  const SEPARATOR: bv16 := 46

  /** HMAC-SHA256 under the session secret, the same function in both runtimes. */
  type Mac = Text -> Digest

  /** JavaScript's String.prototype.lastIndexOf for one unit; `None` is -1. */
  function LastIndexOf(s: Text, u: bv16): (r: Option<nat>)
    ensures r.Some? ==> r.value < |s| && s[r.value] == u && forall i | r.value < i < |s| :: s[i] != u
    ensures r.None? ==> forall i | 0 <= i < |s| :: s[i] != u
  {
    if s == [] then None
    else if s[|s| - 1] == u then Some(|s| - 1)
    else LastIndexOf(s[..|s| - 1], u)
  }

  function Sign(id: Text, mac: Mac): Text { id + [SEPARATOR] + Encode(mac(id)) }

  /** The parts before and after the last dot. */
  datatype Parts = Parts(id: Text, signature: Text)

  function PartsOf(signedValue: Text): Option<Parts> {
    match LastIndexOf(signedValue, SEPARATOR)
    case None => None
    case Some(i) => Some(Parts(signedValue[..i], signedValue[i + 1..]))
  }

  // ---------- The Node verifier ----------

  function Verify(signedValue: Text, mac: Mac): Option<Text> {
    match PartsOf(signedValue)
    case None => None
    case Some(parts) =>
      if Decode(parts.signature) == Decode(Encode(mac(parts.id))) then Some(parts.id) else None
  }

  // ---------- The Edge verifier ----------

  ghost predicate EdgeAccepts(signedValue: Text, mac: Mac) {
    PartsOf(signedValue).Some? && PartsOf(signedValue).value.signature == Encode(mac(PartsOf(signedValue).value.id))
  }

  lemma OrXorZero(result: bv16, a: bv16, b: bv16)
    ensures result | (a ^ b) == 0 <==> result == 0 && a == b
  {
  }

  /** The comparison that accumulates differences instead of stopping at the first. */
  method SameText(provided: Text, expected: Text) returns (same: bool)
    ensures same <==> provided == expected
  {
    if |provided| != |expected| {
      return false;
    }
    var result: bv16 := 0;
    for i := 0 to |provided|
      invariant result == 0 <==> forall j | 0 <= j < i :: provided[j] == expected[j]
    {
      OrXorZero(result, provided[i], expected[i]);
      result := result | (provided[i] ^ expected[i]);
    }
    same := result == 0;
  }

  method VerifySignature(signedValue: Text, mac: Mac) returns (valid: bool)
    ensures valid <==> EdgeAccepts(signedValue, mac)
  {
    var separatorIndex := LastIndexOf(signedValue, SEPARATOR);
    if separatorIndex.None? {
      return false;
    }
    var sessionId, providedSig := signedValue[..separatorIndex.value], signedValue[separatorIndex.value + 1..];
    valid := SameText(providedSig, Encode(mac(sessionId)));
  }

  // ---------- How the two agree ----------

  lemma LastDot(id: Text, signature: Text)
    requires forall i | 0 <= i < |signature| :: signature[i] != SEPARATOR
    ensures PartsOf(id + [SEPARATOR] + signature) == Some(Parts(id, signature))
  {
    var v := id + [SEPARATOR] + signature;
    assert v[|id|] == SEPARATOR;
    assert forall i | |id| < i < |v| :: v[i] == signature[i - |id| - 1];
    assert v[..|id|] == id && v[|id| + 1..] == signature;
  }

  /** Exactly the cookies Node accepts: the right digits in either case, then anything that cannot be read on. */
  lemma NodeAcceptsExactly(signedValue: Text, mac: Mac)
    requires PartsOf(signedValue).Some?
    ensures
      var p := PartsOf(signedValue).value;
      Verify(signedValue, mac) ==
        if 64 <= |p.signature| && Lower(p.signature[..64]) == Encode(mac(p.id)) && Stops(p.signature[64..])
        then Some(p.id) else None
  {
    var p := PartsOf(signedValue).value;
    DecodeEncode(mac(p.id));
    DecodeExactly(p.signature, mac(p.id));
  }

  /** Every cookie the Edge check lets through, Node accepts with the id before the last dot. */
  lemma EdgeRefinesNode(signedValue: Text, mac: Mac)
    requires EdgeAccepts(signedValue, mac)
    ensures Verify(signedValue, mac) == Some(PartsOf(signedValue).value.id)
  {
    var p := PartsOf(signedValue).value;
    EncodedIsLower(mac(p.id));
    LowerOfLower(p.signature);
    assert p.signature[..64] == p.signature;
    NodeAcceptsExactly(signedValue, mac);
  }

  /** The Edge check is the Node check plus: the signature is 64 lower-case digits and nothing else. */
  lemma EdgeExactly(signedValue: Text, mac: Mac)
    ensures EdgeAccepts(signedValue, mac) <==>
      && Verify(signedValue, mac).Some?
      && var signature := PartsOf(signedValue).value.signature;
         |signature| == 64 && forall i | 0 <= i < 64 :: IsLowerDigit(signature[i])
  {
    if PartsOf(signedValue).Some? {
      var p := PartsOf(signedValue).value;
      EncodedIsLower(mac(p.id));
      NodeAcceptsExactly(signedValue, mac);
      if |p.signature| == 64 && forall i | 0 <= i < 64 :: IsLowerDigit(p.signature[i]) {
        LowerOfLower(p.signature);
        assert p.signature[..64] == p.signature;
      }
      if EdgeAccepts(signedValue, mac) { EdgeRefinesNode(signedValue, mac); }
    }
  }

  /** Both verifiers accept what was signed, whatever the id, dots included. */
  lemma SignedIsAccepted(id: Text, mac: Mac)
    ensures EdgeAccepts(Sign(id, mac), mac) && Verify(Sign(id, mac), mac) == Some(id)
  {
    EncodedIsFree(mac(id), SEPARATOR);
    LastDot(id, Encode(mac(id)));
    EdgeRefinesNode(Sign(id, mac), mac);
  }

  /** They differ on a whole family: digits followed by text that cannot be read on pass Node and fail Edge. */
  lemma TrailingTextDivides(id: Text, junk: Text, mac: Mac)
    requires junk != [] && Stops(junk) && forall i | 0 <= i < |junk| :: junk[i] != SEPARATOR
    ensures Verify(Sign(id, mac) + junk, mac) == Some(id)
    ensures !EdgeAccepts(Sign(id, mac) + junk, mac)
  {
    var signature := Encode(mac(id)) + junk;
    EncodedIsFree(mac(id), SEPARATOR);
    EncodedIsLower(mac(id));
    LastDot(id, signature);
    assert Sign(id, mac) + junk == id + [SEPARATOR] + signature;
    assert signature[..64] == Encode(mac(id)) && signature[64..] == junk;
    LowerOfLower(Encode(mac(id)));
    NodeAcceptsExactly(Sign(id, mac) + junk, mac);
  }
}
