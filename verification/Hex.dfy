/**
 Hexadecimal text as Node writes it (`toString("hex")`) and reads it (`Buffer.from(s, "hex")`). JavaScript
 strings are sequences of 16-bit code units.
 */
module Hex {
  import opened Basics

  type Byte = bv8

  type Text = seq<bv16>

  // ---------- Digits ----------

  function Digit(n: Byte): bv16
    requires n < 16
  {
    if n < 10 then 48 + (n as bv16) else 87 + (n as bv16)
  }

  /** Both cases are read. */
  function DigitValue(u: bv16): Option<Byte> {
    if 48 <= u <= 57 then Some((u - 48) as Byte)
    else if 97 <= u <= 102 then Some((u - 87) as Byte)
    else if 65 <= u <= 70 then Some((u - 55) as Byte)
    else None
  }

  predicate IsDigit(u: bv16) { DigitValue(u).Some? }

  predicate IsLowerDigit(u: bv16) { 48 <= u <= 57 || 97 <= u <= 102 }

  function LowerUnit(u: bv16): bv16 { if 65 <= u <= 70 then u + 32 else u }

  function Lower(s: Text): (r: Text)
    ensures |r| == |s|
  {
    seq(|s|, i requires 0 <= i < |s| => LowerUnit(s[i]))
  }

  // ---------- Encoding and decoding ----------

  function Encode(bytes: seq<Byte>): (r: Text)
    ensures |r| == 2 * |bytes|
  {
    if bytes == [] then [] else [Digit(bytes[0] >> 4), Digit(bytes[0] & 15)] + Encode(bytes[1..])
  }

  /** Nothing more can be read: fewer than two units, or the next pair is not two digits. */
  predicate Stops(s: Text) {
    |s| < 2 || !IsDigit(s[0]) || !IsDigit(s[1])
  }

  function FirstByte(s: Text): Byte
    requires !Stops(s)
  {
    (DigitValue(s[0]).value << 4) | DigitValue(s[1]).value
  }

  /** Lenient: stops without error at the first pair that is not two hexadecimal digits, and drops a single last digit. */
  function Decode(s: Text): seq<Byte> {
    if Stops(s) then []
    else [FirstByte(s)] + Decode(s[2..])
  }

  const DIGITS: Text := [48, 49, 50, 51, 52, 53, 54, 55, 56, 57, 97, 98, 99, 100, 101, 102] // 0-9a-f

  lemma DigitExactly(n: Byte)
    requires n < 16
    ensures Digit(n) == DIGITS[n as nat]
  {
    assert n == 0 || n == 1 || n == 2 || n == 3 || n == 4 || n == 5 || n == 6 || n == 7
        || n == 8 || n == 9 || n == 10 || n == 11 || n == 12 || n == 13 || n == 14 || n == 15;
  }

  /** Two lower-case digits a byte, the high half first. */
  lemma {:induction false} EncodedExactly(bytes: seq<Byte>, i: nat)
    requires i < |bytes|
    ensures Encode(bytes)[2 * i] == DIGITS[(bytes[i] >> 4) as nat]
    ensures Encode(bytes)[2 * i + 1] == DIGITS[(bytes[i] & 15) as nat]
  {
    if i == 0 {
      DigitExactly(bytes[0] >> 4);
      DigitExactly(bytes[0] & 15);
    } else {
      EncodedExactly(bytes[1..], i - 1);
    }
  }

  lemma PairOfByte(b: Byte)
    ensures IsDigit(Digit(b >> 4)) && IsDigit(Digit(b & 15))
    ensures IsLowerDigit(Digit(b >> 4)) && IsLowerDigit(Digit(b & 15))
    ensures (DigitValue(Digit(b >> 4)).value << 4) | DigitValue(Digit(b & 15)).value == b
  {
  }

  /** Two digits that read as a byte are, in lower case, the digits written for it. */
  lemma ByteOfPair(u: bv16, v: bv16)
    requires IsDigit(u) && IsDigit(v)
    ensures
      var b := (DigitValue(u).value << 4) | DigitValue(v).value;
      LowerUnit(u) == Digit(b >> 4) && LowerUnit(v) == Digit(b & 15)
  {
  }

  /** A unit that is not a digit is not one in lower case either. */
  lemma LowerKeepsDigits(u: bv16)
    ensures IsDigit(LowerUnit(u)) == IsDigit(u)
    ensures DigitValue(LowerUnit(u)) == DigitValue(u)
    ensures IsLowerDigit(u) ==> LowerUnit(u) == u && IsDigit(u)
  {
  }

  lemma {:induction false} EncodedIsLower(bytes: seq<Byte>)
    ensures forall i | 0 <= i < |Encode(bytes)| :: IsLowerDigit(Encode(bytes)[i])
  {
    if bytes != [] {
      PairOfByte(bytes[0]);
      EncodedIsLower(bytes[1..]);
    }
  }

  /** In lower case the text starts with the digits of `bytes`, and nothing more can be read after them. */
  ghost predicate Spells(s: Text, bytes: seq<Byte>) {
    2 * |bytes| <= |s| && Lower(s[..2 * |bytes|]) == Encode(bytes) && Stops(s[2 * |bytes|..])
  }

  lemma SpellsOn(s: Text, bytes: seq<Byte>)
    requires bytes != [] && !Stops(s)
    ensures Spells(s, bytes) <==> FirstByte(s) == bytes[0] && Spells(s[2..], bytes[1..])
  {
    assert |s| >= 2;
    hide FirstByte, Lower, Encode, IsDigit;
    if 2 * |bytes| <= |s| {
      assert s[2 * |bytes|..] == s[2..][2 * |bytes[1..]|..];
      LowerOn(s, bytes);
    }
  }

  lemma LowerOn(s: Text, bytes: seq<Byte>)
    requires bytes != [] && 2 * |bytes| <= |s| && !Stops(s)
    ensures Lower(s[..2 * |bytes|]) == Encode(bytes) <==>
      FirstByte(s) == bytes[0] && Lower(s[2..][..2 * |bytes[1..]|]) == Encode(bytes[1..])
  {
    LowerSplits(s, 2 * |bytes|);
    FirstPair(s, bytes[0]);
    var tail := bytes[1..];
    assert Encode(bytes) == [Digit(bytes[0] >> 4), Digit(bytes[0] & 15)] + Encode(tail);
    hide Lower, Encode, Stops, FirstByte, Digit, LowerUnit;
    SameConcatenation([LowerUnit(s[0]), LowerUnit(s[1])], Lower(s[2..][..2 * |tail|]),
                      [Digit(bytes[0] >> 4), Digit(bytes[0] & 15)], Encode(tail));
  }

  lemma FirstPair(s: Text, b: Byte)
    requires !Stops(s)
    ensures FirstByte(s) == b <==> [LowerUnit(s[0]), LowerUnit(s[1])] == [Digit(b >> 4), Digit(b & 15)]
  {
    ByteOfPair(s[0], s[1]);
    PairDecides(FirstByte(s), b);
  }

  /** Exactly which texts read as given bytes. */
  lemma {:induction false} DecodeExactly(s: Text, bytes: seq<Byte>)
    ensures Decode(s) == bytes <==> Spells(s, bytes)
    decreases |bytes|
  {
    if bytes == [] {
      assert s[0..] == s && Lower(s[..0]) == [];
    } else if !Stops(s) {
      DecodeExactly(s[2..], bytes[1..]);
      SpellsOn(s, bytes);
      assert Decode(s) == [FirstByte(s)] + Decode(s[2..]);
    } else if 2 * |bytes| <= |s| {
      PairOfByte(bytes[0]);
      LowerKeepsDigits(s[0]);
      LowerKeepsDigits(s[1]);
      assert Lower(s[..2 * |bytes|])[0] == LowerUnit(s[0]) && Lower(s[..2 * |bytes|])[1] == LowerUnit(s[1]);
    }
  }

  lemma SameConcatenation(a: Text, b: Text, c: Text, d: Text)
    requires |a| == |c|
    ensures a + b == c + d <==> a == c && b == d
  {
    if a + b == c + d {
      assert a == (a + b)[..|a|] && c == (c + d)[..|a|];
      assert b == (a + b)[|a|..] && d == (c + d)[|a|..];
    }
  }

  lemma LowerSplits(s: Text, n: nat)
    requires 2 <= n <= |s|
    ensures Lower(s[..n]) == [LowerUnit(s[0]), LowerUnit(s[1])] + Lower(s[2..][..n - 2])
  {
  }

  lemma PairDecides(a: Byte, b: Byte)
    ensures Digit(a >> 4) == Digit(b >> 4) && Digit(a & 15) == Digit(b & 15) <==> a == b
  {
    PairOfByte(a);
    PairOfByte(b);
  }

  lemma LowerOfLower(s: Text)
    requires forall i | 0 <= i < |s| :: IsLowerDigit(s[i])
    ensures Lower(s) == s
  {
    forall i | 0 <= i < |s|
      ensures LowerUnit(s[i]) == s[i]
    {
      LowerKeepsDigits(s[i]);
    }
  }

  lemma DecodeEncode(bytes: seq<Byte>)
    ensures Decode(Encode(bytes)) == bytes
  {
    EncodedIsLower(bytes);
    LowerOfLower(Encode(bytes));
    assert Encode(bytes)[..2 * |bytes|] == Encode(bytes);
    DecodeExactly(Encode(bytes), bytes);
  }

  lemma {:induction false} EncodedIsFree(bytes: seq<Byte>, separator: bv16)
    requires !IsLowerDigit(separator)
    ensures forall i | 0 <= i < |Encode(bytes)| :: Encode(bytes)[i] != separator
  {
    EncodedIsLower(bytes);
  }
}
