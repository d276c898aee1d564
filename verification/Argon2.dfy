/**
 The stored form of a password hash, `$argon2id$v=19$m=<memory>,t=<time>,p=<threads>$<salt>$<hash>`: how it is
 printed and how it is read back (crypto/argon2id.go), with the readers of Go's fmt and encoding/base64 that it uses.
 */
module Argon2 {
  import opened Basics
  import Text

  newtype Byte = x: int | 0 <= x < 256

  type Bytes = seq<Byte>

  // ---------- Decimal numbers ----------

  predicate IsDigit(c: char) { '0' <= c <= '9' }

  function DigitOf(n: nat): char
    requires n < 10
  {
    (n + 48) as char
  }

  function PrintNat(n: nat): (s: string)
    ensures s != [] && forall i | 0 <= i < |s| :: IsDigit(s[i])
  {
    if n < 10 then [DigitOf(n)] else PrintNat(n / 10) + [DigitOf(n % 10)]
  }

  /** The number of digits at the front. */
  function DigitRun(s: string): (n: nat)
    ensures n <= |s| && (forall i | 0 <= i < n :: IsDigit(s[i])) && (n < |s| ==> !IsDigit(s[n]))
  {
    if s == [] || !IsDigit(s[0]) then 0 else 1 + DigitRun(s[1..])
  }

  function ValueOf(digits: string): nat
    requires forall i | 0 <= i < |digits| :: IsDigit(digits[i])
  {
    if digits == [] then 0
    else
      var last := digits[|digits| - 1];
      assert IsDigit(last);
      10 * ValueOf(digits[..|digits| - 1]) + (last as int - 48)
  }

  lemma {:induction false} ValueOfPrinted(n: nat)
    ensures ValueOf(PrintNat(n)) == n
  {
    if n >= 10 {
      ValueOfPrinted(n / 10);
      var s := PrintNat(n);
      assert s[..|s| - 1] == PrintNat(n / 10) && s[|s| - 1] == DigitOf(n % 10);
    } else {
      assert PrintNat(n)[..0] == [];
    }
  }

  // ---------- Scanning (fmt.Sscanf) ----------

  /** The blanks fmt skips, apart from the line feed. */
  predicate IsBlank(c: char) {
    || '\U{0009}' <= c <= '\U{000D}' || c == ' ' || c == '\U{0085}' || c == '\U{00A0}' || c == '\U{1680}'
    || '\U{2000}' <= c <= '\U{200A}' || c == '\U{2028}' || c == '\U{2029}' || c == '\U{202F}' || c == '\U{205F}'
    || c == '\U{3000}'
  }

  /** A line feed among the blanks is an error. */
  function SkipSpace(s: string): Option<string> {
    if s == [] then Some(s)
    else if s[0] == '\n' then None
    else if IsBlank(s[0]) then SkipSpace(s[1..])
    else Some(s)
  }

  datatype Scan = Scan(value: nat, rest: string)

  /** `%d` into an unsigned integer below `bound`: blanks, then at least one digit, no sign. */
  function ScanUint(s: string, bound: nat): Option<Scan> {
    match SkipSpace(s)
    case None => None
    case Some(t) =>
      var n := DigitRun(t);
      if n == 0 || ValueOf(t[..n]) >= bound then None else Some(Scan(ValueOf(t[..n]), t[n..]))
  }

  function ScanLiteral(s: string, literal: string): Option<string> {
    if literal <= s then Some(s[|literal|..]) else None
  }

  /** A literal, then a number. */
  function ScanField(s: string, literal: string, bound: nat): Option<Scan> {
    match ScanLiteral(s, literal) case None => None case Some(rest) => ScanUint(rest, bound)
  }

  datatype Cost = Cost(memory: nat, time: nat, threads: nat)

  const U32: nat := 0x1_0000_0000
  const U8: nat := 0x100

  predicate Fits(c: Cost) { c.memory < U32 && c.time < U32 && c.threads < U8 }

  /** `Sscanf(s, "m=%d,t=%d,p=%d")` into two uint32 and a uint8. Text after the last number is ignored. */
  function ScanCost(s: string): (r: Option<Cost>)
    ensures r.Some? ==> Fits(r.value)
  {
    match ScanField(s, "m=", U32)
    case None => None
    case Some(m) =>
      match ScanField(m.rest, ",t=", U32)
      case None => None
      case Some(t) =>
        match ScanField(t.rest, ",p=", U8)
        case None => None
        case Some(p) => Some(Cost(m.value, t.value, p.value))
  }

  function PrintCost(c: Cost): string {
    "m=" + PrintNat(c.memory) + ",t=" + PrintNat(c.time) + ",p=" + PrintNat(c.threads)
  }

  lemma DigitRunOf(digits: string, rest: string)
    requires forall i | 0 <= i < |digits| :: IsDigit(digits[i])
    requires rest == [] || !IsDigit(rest[0])
    ensures DigitRun(digits + rest) == |digits|
  {
    assert forall i | 0 <= i < |digits| :: (digits + rest)[i] == digits[i];
    assert rest != [] ==> (digits + rest)[|digits|] == rest[0];
  }

  lemma ScanPrinted(literal: string, n: nat, rest: string, bound: nat)
    requires n < bound && (rest == [] || !IsDigit(rest[0]))
    ensures ScanField(literal + PrintNat(n) + rest, literal, bound) == Some(Scan(n, rest))
  {
    var s := literal + PrintNat(n) + rest;
    var t := PrintNat(n) + rest;
    assert s[|literal|..] == t && s[..|literal|] == literal;
    assert t[0] == PrintNat(n)[0];
    DigitRunOf(PrintNat(n), rest);
    assert t[..|PrintNat(n)|] == PrintNat(n) && t[|PrintNat(n)|..] == rest;
    ValueOfPrinted(n);
  }

  /** The printed parameters are read back, whatever non-digit text follows. */
  lemma ScanPrintedCost(c: Cost, rest: string)
    requires Fits(c) && (rest == [] || !IsDigit(rest[0]))
    ensures ScanCost(PrintCost(c) + rest) == Some(c)
  {
    var third := ",p=" + PrintNat(c.threads) + rest;
    var second := ",t=" + PrintNat(c.time) + third;
    assert PrintCost(c) + rest == "m=" + PrintNat(c.memory) + second;
    ScanPrinted("m=", c.memory, second, U32);
    ScanPrinted(",t=", c.time, third, U32);
    ScanPrinted(",p=", c.threads, rest, U8);
  }

  // ---------- Base64 without padding (base64.RawStdEncoding) ----------

  function SymbolOf(d: Sextet): char {
    if d < 26 then (65 + d) as char
    else if d < 52 then (71 + d) as char
    else if d < 62 then (d - 4) as char
    else if d == 62 then '+' else '/'
  }

  function SymbolValue(c: char): Option<Sextet> {
    if 'A' <= c <= 'Z' then Some(c as int - 65)
    else if 'a' <= c <= 'z' then Some(c as int - 71)
    else if '0' <= c <= '9' then Some(c as int + 4)
    else if c == '+' then Some(62)
    else if c == '/' then Some(63)
    else None
  }

  type Sextet = x: nat | x < 64

  function Sextets(bytes: Bytes): seq<Sextet> {
    if bytes == [] then []
    else if |bytes| == 1 then
      var a := bytes[0] as nat;
      [a / 4, a % 4 * 16]
    else if |bytes| == 2 then
      var a, b := bytes[0] as nat, bytes[1] as nat;
      [a / 4, a % 4 * 16 + b / 16, b % 16 * 4]
    else
      var a, b, c := bytes[0] as nat, bytes[1] as nat, bytes[2] as nat;
      [a / 4, a % 4 * 16 + b / 16, b % 16 * 4 + c / 64, c % 64] + Sextets(bytes[3..])
  }

  function Symbols(v: seq<Sextet>): (s: string)
    ensures |s| == |v|
  {
    seq(|v|, i requires 0 <= i < |v| => SymbolOf(v[i]))
  }

  function Encode64(bytes: Bytes): string { Symbols(Sextets(bytes)) }

  function Values(s: string): Option<seq<Sextet>> {
    if s == [] then Some([])
    else match SymbolValue(s[0])
      case None => None
      case Some(v) => match Values(s[1..]) case None => None case Some(rest) => Some([v] + rest)
  }

  /** Groups of four symbols are three bytes; two or three left over are one or two bytes, one left over is an error. */
  function Pack(v: seq<Sextet>): Option<Bytes> {
    if v == [] then Some([])
    else if |v| == 1 then None
    else if |v| == 2 then Some([First(v)])
    else if |v| == 3 then Some([First(v), Second(v)])
    else match Pack(v[4..]) case None => None case Some(rest) => Some([First(v), Second(v), Third(v)] + rest)
  }

  function First(v: seq<Sextet>): Byte
    requires |v| >= 2
  {
    ((v[0] as nat) * 4 + (v[1] as nat) / 16) as Byte
  }

  function Second(v: seq<Sextet>): Byte
    requires |v| >= 3
  {
    ((v[1] as nat) % 16 * 16 + (v[2] as nat) / 4) as Byte
  }

  function Third(v: seq<Sextet>): Byte
    requires |v| >= 4
  {
    ((v[2] as nat) % 4 * 64 + (v[3] as nat)) as Byte
  }

  /** Line ends are skipped wherever they stand; left-over bits are not checked. */
  function Decode64(s: string): Option<Bytes> {
    match Values(WithoutLineEnds(s)) case None => None case Some(v) => Pack(v)
  }

  function WithoutLineEnds(s: string): string {
    if s == [] then []
    else if s[0] == '\n' || s[0] == '\r' then WithoutLineEnds(s[1..])
    else [s[0]] + WithoutLineEnds(s[1..])
  }

  lemma SymbolRoundTrip(d: Sextet)
    ensures SymbolValue(SymbolOf(d)) == Some(d)
    ensures SymbolOf(d) != '\n' && SymbolOf(d) != '\r' && SymbolOf(d) != '$'
  {
  }

  predicate IsSymbols(s: string) { forall i | 0 <= i < |s| :: SymbolValue(s[i]).Some? }

  lemma EncodedIsSymbols(bytes: Bytes)
    ensures IsSymbols(Encode64(bytes))
  {
    forall i | 0 <= i < |Encode64(bytes)|
      ensures SymbolValue(Encode64(bytes)[i]).Some?
    {
      SymbolRoundTrip(Sextets(bytes)[i]);
    }
  }

  lemma {:induction false} SymbolsHaveNoLineEnds(s: string)
    requires IsSymbols(s)
    ensures WithoutLineEnds(s) == s && Text.Free(s, '$')
  {
    if s != [] {
      SymbolsHaveNoLineEnds(s[1..]);
    }
  }

  lemma {:induction false} ValuesOfSymbols(v: seq<Sextet>)
    ensures Values(Symbols(v)) == Some(v)
  {
    if v != [] {
      ValuesOfSymbols(v[1..]);
      SymbolRoundTrip(v[0]);
      assert Symbols(v)[1..] == Symbols(v[1..]);
      assert v == [v[0]] + v[1..];
    }
  }

  lemma {:induction false} PackSextets(bytes: Bytes)
    ensures Pack(Sextets(bytes)) == Some(bytes)
  {
    if 0 < |bytes| < 3 {
      var v := Sextets(bytes);
      assert First(v) == bytes[0] && (|bytes| == 2 ==> Second(v) == bytes[1]);
      assert bytes == if |bytes| == 1 then [bytes[0]] else [bytes[0], bytes[1]];
    } else if |bytes| >= 3 {
      PackSextets(bytes[3..]);
      var v := Sextets(bytes);
      assert v[4..] == Sextets(bytes[3..]);
      assert bytes == [bytes[0], bytes[1], bytes[2]] + bytes[3..];
      assert First(v) == bytes[0] && Second(v) == bytes[1] && Third(v) == bytes[2];
    }
  }

  /** Every byte string is read back. */
  lemma DecodeEncode64(bytes: Bytes)
    ensures Decode64(Encode64(bytes)) == Some(bytes)
  {
    EncodedIsSymbols(bytes);
    SymbolsHaveNoLineEnds(Encode64(bytes));
    ValuesOfSymbols(Sextets(bytes));
    PackSextets(bytes);
  }

  // ---------- The stored form ----------

  datatype Error = BadFormat | Unsupported | BadParameters | BadSalt | BadHash | Panics

  /** What a stored password hash carries. */
  datatype Stored = Stored(cost: Cost, salt: Bytes, hash: Bytes)

  /** argon2.IDKey: password, salt, cost and key length to the derived key; `None` when it panics. */
  type IdKey = (string, Bytes, Cost, nat) -> Option<Bytes>

  function Print(stored: Stored): string {
    Text.Join(["", "argon2id", "v=19", PrintCost(stored.cost), Encode64(stored.salt), Encode64(stored.hash)], '$')
  }

  /** The part before the first `$` and the version are not looked at. */
  function Parse(encoded: string): Result<Stored, Error> {
    var parts := Text.Split(encoded, '$');
    if |parts| != 6 then Err(BadFormat)
    else if parts[1] != "argon2id" then Err(Unsupported)
    else match ScanCost(parts[3])
      case None => Err(BadParameters)
      case Some(cost) =>
        match Decode64(parts[4])
        case None => Err(BadSalt)
        case Some(salt) =>
          match Decode64(parts[5])
          case None => Err(BadHash)
          case Some(hash) => Ok(Stored(cost, salt, hash))
  }

  const COST := Cost(65536, 3, 4)

  const KEY_LENGTH := 32

  const SALT_LENGTH := 16

  /** `salt` is drawn at random. */
  function HashPassword(idKey: IdKey, password: string, salt: Bytes): Result<string, Error>
    requires |salt| == SALT_LENGTH
  {
    match idKey(password, salt, COST, KEY_LENGTH)
    case None => Err(Panics)
    case Some(hash) => Ok(Print(Stored(COST, salt, hash)))
  }

  function VerifyPassword(idKey: IdKey, password: string, encoded: string): Result<bool, Error> {
    match Parse(encoded)
    case Err(e) => Err(e)
    case Ok(stored) =>
      match idKey(password, stored.salt, stored.cost, |stored.hash|)
      case None => Err(Panics)
      case Some(key) => Ok(key == stored.hash)
  }

  lemma {:induction false} DigitsAreFree(digits: string)
    requires forall i | 0 <= i < |digits| :: IsDigit(digits[i])
    ensures Text.Free(digits, '$')
  {
    forall i | 0 <= i < |digits|
      ensures digits[i] != '$'
    {
      assert IsDigit(digits[i]);
    }
  }

  lemma PrintedCostIsFree(c: Cost)
    ensures Text.Free(PrintCost(c), '$')
  {
    DigitsAreFree(PrintNat(c.memory));
    DigitsAreFree(PrintNat(c.time));
    DigitsAreFree(PrintNat(c.threads));
  }

  lemma EncodedIsFree(bytes: Bytes)
    ensures Text.Free(Encode64(bytes), '$')
  {
    EncodedIsSymbols(bytes);
    SymbolsHaveNoLineEnds(Encode64(bytes));
  }

  /**
   What was printed is read back, and so is every variant that differs only in what the reader skips: the text before
   the first `$`, the version, and non-digit text after the parameters.
   */
  lemma ParseVariant(stored: Stored, front: string, version: string, tail: string)
    requires Fits(stored.cost)
    requires Text.Free(front, '$') && Text.Free(version, '$') && Text.Free(tail, '$')
    requires tail == [] || !IsDigit(tail[0])
    ensures
      Parse(Text.Join([front, "argon2id", version, PrintCost(stored.cost) + tail, Encode64(stored.salt), Encode64(stored.hash)], '$'))
      == Ok(stored)
  {
    var parts := [front, "argon2id", version, PrintCost(stored.cost) + tail, Encode64(stored.salt), Encode64(stored.hash)];
    PrintedCostIsFree(stored.cost);
    EncodedIsFree(stored.salt);
    EncodedIsFree(stored.hash);
    Text.SplitJoin(parts, '$');
    ScanPrintedCost(stored.cost, tail);
    DecodeEncode64(stored.salt);
    DecodeEncode64(stored.hash);
  }

  /** The form of the printed text. */
  lemma PrintedForm(stored: Stored)
    ensures Print(stored) == "$argon2id$v=19$" + PrintCost(stored.cost) + "$" + Encode64(stored.salt) + "$" + Encode64(stored.hash)
  {
    var salt, hash, cost := Encode64(stored.salt), Encode64(stored.hash), PrintCost(stored.cost);
    hide PrintCost, Encode64, PrintNat;
    FormOf(cost, salt, hash);
  }

  lemma FormOf(cost: string, salt: string, hash: string)
    ensures Text.Join(["", "argon2id", "v=19", cost, salt, hash], '$') == "$argon2id$v=19$" + cost + "$" + salt + "$" + hash
  {
    hide Text.Join;
    Text.JoinPair(salt, hash, '$');
    Text.JoinCons(cost, [salt, hash], '$');
    Text.JoinCons("v=19", [cost, salt, hash], '$');
    Text.JoinCons("argon2id", ["v=19", cost, salt, hash], '$');
    Text.JoinCons("", ["argon2id", "v=19", cost, salt, hash], '$');
    assert [cost] + [salt, hash] == [cost, salt, hash];
    assert ["v=19"] + [cost, salt, hash] == ["v=19", cost, salt, hash];
    assert ["argon2id"] + ["v=19", cost, salt, hash] == ["argon2id", "v=19", cost, salt, hash];
    assert [""] + ["argon2id", "v=19", cost, salt, hash] == ["", "argon2id", "v=19", cost, salt, hash];
    var tail := cost + "$" + salt + "$" + hash;
    assert "v=19" + ['$'] + tail == "v=19$" + tail;
    assert "argon2id" + ['$'] + ("v=19$" + tail) == "argon2id$v=19$" + tail;
    assert "" + ['$'] + ("argon2id$v=19$" + tail) == "$argon2id$v=19$" + tail;
  }

  /** What a new hash looks like: three passes over 64 MiB in four lanes, a salt of 16 bytes and a key of 32. */
  lemma HashedForm(idKey: IdKey, password: string, salt: Bytes)
    requires |salt| == 16 && idKey(password, salt, Cost(65536, 3, 4), 32).Some?
    ensures HashPassword(idKey, password, salt)
         == Ok("$argon2id$v=19$" + "m=65536,t=3,p=4" + "$" + Encode64(salt)
               + "$" + Encode64(idKey(password, salt, Cost(65536, 3, 4), 32).value))
  {
    CurrentCost();
    hide PrintCost, PrintNat, Encode64, Print;
    PrintedForm(Stored(Cost(65536, 3, 4), salt, idKey(password, salt, Cost(65536, 3, 4), 32).value));
  }

  lemma CurrentCost()
    ensures PrintCost(Cost(65536, 3, 4)) == "m=65536,t=3,p=4"
  {
    assert PrintNat(65) == "65";
    assert PrintNat(655) == "655";
    assert PrintNat(6553) == "6553";
    assert PrintNat(65536) == "65536";
    assert PrintNat(3) == "3" && PrintNat(4) == "4";
  }

  /** For all uint32 memory and time, uint8 threads, salts and hashes. */
  lemma ParsePrinted(stored: Stored)
    requires Fits(stored.cost)
    ensures Parse(Print(stored)) == Ok(stored)
  {
    ParseVariant(stored, "", "v=19", "");
    assert PrintCost(stored.cost) + "" == PrintCost(stored.cost);
  }

  /** Printing forgets nothing: different costs, salts or hashes print differently. */
  lemma PrintIsInjective(a: Stored, b: Stored)
    requires Fits(a.cost) && Fits(b.cost) && Print(a) == Print(b)
    ensures a == b
  {
    ParsePrinted(a);
    ParsePrinted(b);
  }

  /** A stored hash is checked under the parameters and the length it carries, whatever the current constants are. */
  lemma VerifiesAsCarried(idKey: IdKey, password: string, stored: Stored)
    requires Fits(stored.cost)
    ensures VerifyPassword(idKey, password, Print(stored)) ==
      match idKey(password, stored.salt, stored.cost, |stored.hash|)
      case None => Err(Panics)
      case Some(key) => Ok(key == stored.hash)
  {
    ParsePrinted(stored);
  }

  /** A password verifies against a hash of another exactly when both derive the same key; so it verifies against its own. */
  lemma HashThenVerify(idKey: IdKey, password: string, salt: Bytes, other: string)
    requires |salt| == SALT_LENGTH
    requires idKey(password, salt, COST, KEY_LENGTH).Some? && |idKey(password, salt, COST, KEY_LENGTH).value| == KEY_LENGTH
    ensures HashPassword(idKey, password, salt).Ok?
    ensures VerifyPassword(idKey, password, HashPassword(idKey, password, salt).value) == Ok(true)
    ensures idKey(other, salt, COST, KEY_LENGTH).Some? ==>
      VerifyPassword(idKey, other, HashPassword(idKey, password, salt).value)
      == Ok(idKey(other, salt, COST, KEY_LENGTH) == idKey(password, salt, COST, KEY_LENGTH))
  {
    var stored := Stored(COST, salt, idKey(password, salt, COST, KEY_LENGTH).value);
    VerifiesAsCarried(idKey, password, stored);
    VerifiesAsCarried(idKey, other, stored);
  }

  /** Exactly the texts without five `$` are refused for their format. */
  lemma BadFormatExactly(encoded: string)
    ensures Parse(encoded) == Err(BadFormat) <==> Text.Count(encoded, '$') != 5
  {
    Text.SplitCounts(encoded, '$');
  }
}
