/**
 How the relying party stores tokens: encrypted text `iv:tag:ciphertext`, each part in hexadecimal, in the rows
 of its own session table.
 */
module Sealed {
  import opened Basics
  import opened Hex
  import T = Text

  const COLON: bv16 := 58

  const TAG_LENGTH := 16

  datatype Box = Box(tag: seq<Byte>, ciphertext: seq<Byte>)

  /** AES-256-GCM and the UTF-8 conversions. `open` is None when the library throws. */
  datatype Cipher = Cipher(
    seal: (seq<Byte>, seq<Byte>, seq<Byte>) -> Box,
    open: (seq<Byte>, seq<Byte>, Box) -> Option<seq<Byte>>,
    utf8: Text -> seq<Byte>,
    fromUtf8: seq<Byte> -> Text)

  /** Opening undoes sealing under the same key and iv. */
  ghost predicate Lawful(c: Cipher) {
    forall key, iv, plain {:trigger c.seal(key, iv, plain)} ::
      |c.seal(key, iv, plain).tag| == TAG_LENGTH && c.open(key, iv, c.seal(key, iv, plain)) == Some(plain)
  }

  /** Text without lone surrogates. */
  ghost predicate IsWellFormed(c: Cipher, text: Text) {
    c.fromUtf8(c.utf8(text)) == text
  }

  datatype Error = BadKey | BadFormat | Rejected

  function KeyBuffer(hexKey: Text): Result<seq<Byte>, Error> {
    if |Decode(hexKey)| != 32 then Err(BadKey) else Ok(Decode(hexKey))
  }

  function Encrypt(c: Cipher, plaintext: Text, hexKey: Text, iv: seq<Byte>): Result<Text, Error> {
    match KeyBuffer(hexKey)
    case Err(e) => Err(e)
    case Ok(key) =>
      var box := c.seal(key, iv, c.utf8(plaintext));
      Ok(T.Join([Encode(iv), Encode(box.tag), Encode(box.ciphertext)], COLON))
  }

  function Decrypt(c: Cipher, text: Text, hexKey: Text): Result<Text, Error> {
    match KeyBuffer(hexKey)
    case Err(e) => Err(e)
    case Ok(key) =>
      var parts := T.Split(text, COLON);
      if |parts| != 3 then Err(BadFormat)
      else
        var iv, tag, ciphertext := Decode(parts[0]), Decode(parts[1]), Decode(parts[2]);
        if |tag| != TAG_LENGTH then Err(Rejected)
        else match c.open(key, iv, Box(tag, ciphertext))
          case None => Err(Rejected)
          case Some(plain) => Ok(c.fromUtf8(plain))
  }

  lemma EncodedIsTextFree(bytes: seq<Byte>)
    ensures T.Free(Encode(bytes), COLON)
  {
    EncodedIsFree(bytes, COLON);
  }

  /** The stored text splits back into the iv, the tag and the ciphertext that were joined. */
  lemma PartsComeBack(iv: seq<Byte>, box: Box)
    ensures
      var parts := T.Split(T.Join([Encode(iv), Encode(box.tag), Encode(box.ciphertext)], COLON), COLON);
      |parts| == 3 && Decode(parts[0]) == iv && Decode(parts[1]) == box.tag && Decode(parts[2]) == box.ciphertext
  {
    EncodedIsTextFree(iv);
    EncodedIsTextFree(box.tag);
    EncodedIsTextFree(box.ciphertext);
    T.SplitJoin([Encode(iv), Encode(box.tag), Encode(box.ciphertext)], COLON);
    DecodeEncode(iv);
    DecodeEncode(box.tag);
    DecodeEncode(box.ciphertext);
  }

  /** The stored text is iv, tag and ciphertext in this order, in hexadecimal, with colons between. */
  lemma EncryptedForm(c: Cipher, plaintext: Text, hexKey: Text, iv: seq<Byte>)
    requires |Decode(hexKey)| == 32
    ensures
      var box := c.seal(Decode(hexKey), iv, c.utf8(plaintext));
      Encrypt(c, plaintext, hexKey, iv) == Ok(Encode(iv) + [COLON] + Encode(box.tag) + [COLON] + Encode(box.ciphertext))
  {
    var box := c.seal(Decode(hexKey), iv, c.utf8(plaintext));
    T.JoinThree(Encode(iv), Encode(box.tag), Encode(box.ciphertext), COLON);
    assert T.Join([Encode(iv), Encode(box.tag), Encode(box.ciphertext)], COLON)
        == Encode(iv) + [COLON] + Encode(box.tag) + [COLON] + Encode(box.ciphertext);
    assert KeyBuffer(hexKey) == Ok(Decode(hexKey));
    assert Encrypt(c, plaintext, hexKey, iv) == Ok(T.Join([Encode(iv), Encode(box.tag), Encode(box.ciphertext)], COLON));
  }

  /** Whatever was encrypted decrypts to itself, whatever the iv; a bad key is refused on both sides. */
  lemma DecryptEncrypt(c: Cipher, plaintext: Text, hexKey: Text, iv: seq<Byte>)
    requires Lawful(c) && IsWellFormed(c, plaintext)
    ensures
      var e := Encrypt(c, plaintext, hexKey, iv);
      if |Decode(hexKey)| == 32 then e.Ok? && e.value != [] && Decrypt(c, e.value, hexKey) == Ok(plaintext)
      else e == Err(BadKey) && forall text :: Decrypt(c, text, hexKey) == Err(BadKey)
  {
    if |Decode(hexKey)| == 32 {
      var box := c.seal(Decode(hexKey), iv, c.utf8(plaintext));
      PartsComeBack(iv, box);
      var parts := [Encode(iv), Encode(box.tag), Encode(box.ciphertext)];
      assert T.Join(parts, COLON)[|parts[0]|] == COLON;
    }
  }

  /** Exactly the texts without two colons are refused for their format. */
  lemma BadFormatExactly(c: Cipher, text: Text, hexKey: Text)
    ensures Decrypt(c, text, hexKey) == Err(BadFormat) <==> |Decode(hexKey)| == 32 && T.Count(text, COLON) != 2
  {
    T.SplitCounts(text, COLON);
  }
}
