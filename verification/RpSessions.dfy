/**
 The relying party's session table (db/queries/session.ts): rows keep the access and refresh token encrypted, and
 give them back as they were until the session is revoked or expires.
 */
module RpSessions {
  import opened Basics
  import opened Hex
  import opened Sealed

  /** A row of the table; read through `GetValid`, the same with both tokens in plain text. */
  datatype RpSession = RpSession(
    userId: Id,
    opSessionId: Option<Text>,
    accessToken: Text,
    refreshToken: Option<Text>,
    idToken: Text,
    tokenExpiresAt: Time,
    expiresAt: Time,
    revokedAt: Option<Time>)

  type Rows = map<Id, RpSession>

  /** The plain-text parameters of a new session, and the two random ivs. */
  datatype Params = Params(session: RpSession, accessIv: seq<Byte>, refreshIv: seq<Byte>)

  /** An absent and an empty token are both stored as NULL. */
  function Kept(token: Option<Text>): Option<Text> {
    if token == Some([]) then None else token
  }

  function Stored(c: Cipher, hexKey: Text, p: Params): Result<RpSession, Error> {
    match Encrypt(c, p.session.accessToken, hexKey, p.accessIv)
    case Err(e) => Err(e)
    case Ok(access) =>
      match Kept(p.session.refreshToken)
      case None => Ok(p.session.(accessToken := access, refreshToken := None, revokedAt := None))
      case Some(token) =>
        match Encrypt(c, token, hexKey, p.refreshIv)
        case Err(e) => Err(e)
        case Ok(refresh) => Ok(p.session.(accessToken := access, refreshToken := Some(refresh), revokedAt := None))
  }

  /** The session with its tokens decrypted, if it is unrevoked and does not expire before now. */
  function GetValid(c: Cipher, hexKey: Text, rows: Rows, id: Id, now: Time): Result<Option<RpSession>, Error> {
    if id !in rows || rows[id].revokedAt.Some? || rows[id].expiresAt < now then Ok(None)
    else match Decrypt(c, rows[id].accessToken, hexKey)
      case Err(e) => Err(e)
      case Ok(access) =>
        match Kept(rows[id].refreshToken)
        case None => Ok(Some(rows[id].(accessToken := access, refreshToken := None)))
        case Some(sealed) =>
          match Decrypt(c, sealed, hexKey)
          case Err(e) => Err(e)
          case Ok(refresh) => Ok(Some(rows[id].(accessToken := access, refreshToken := Some(refresh))))
  }

  /** Unconditional: revoking again overwrites the time. */
  function Revoke(rows: Rows, id: Id, now: Time): Rows {
    if id in rows then rows[id := rows[id].(revokedAt := Some(now))] else rows
  }

  class Sessions {
    var rows: Rows
    const cipher: Cipher
    const hexKey: Text

    constructor (cipher: Cipher, hexKey: Text)
      ensures rows == map[] && this.cipher == cipher && this.hexKey == hexKey
    {
      rows, this.cipher, this.hexKey := map[], cipher, hexKey;
    }

    /** `id` is generated. Nothing is stored when a token cannot be encrypted. */
    method CreateSession(id: Id, p: Params) returns (result: Result<RpSession, Error>)
      requires id !in rows
      modifies this`rows
      ensures result == Stored(cipher, hexKey, p)
      ensures rows == if result.Ok? then old(rows)[id := result.value] else old(rows)
    {
      var access := Encrypt(cipher, p.session.accessToken, hexKey, p.accessIv);
      if access.Err? {
        return Err(access.error);
      }
      var refreshToken := None;
      if p.session.refreshToken.Some? && p.session.refreshToken.value != [] {
        var refresh := Encrypt(cipher, p.session.refreshToken.value, hexKey, p.refreshIv); // the key has been accepted above
        refreshToken := Some(refresh.value);
      }
      var row := p.session.(accessToken := access.value, refreshToken := refreshToken, revokedAt := None);
      rows := rows[id := row];
      result := Ok(row);
    }

    method GetValidSession(id: Id, now: Time) returns (result: Result<Option<RpSession>, Error>)
      ensures result == GetValid(cipher, hexKey, rows, id, now)
    {
      if id !in rows || rows[id].revokedAt.Some? {
        return Ok(None);
      }
      var session := rows[id];
      if session.expiresAt < now {
        return Ok(None);
      }
      var access := Decrypt(cipher, session.accessToken, hexKey);
      if access.Err? {
        return Err(access.error);
      }
      var refreshToken := None;
      if session.refreshToken.Some? && session.refreshToken.value != [] {
        var refresh := Decrypt(cipher, session.refreshToken.value, hexKey);
        if refresh.Err? {
          return Err(refresh.error);
        }
        refreshToken := Some(refresh.value);
      }
      result := Ok(Some(session.(accessToken := access.value, refreshToken := refreshToken)));
    }

    method RevokeSession(id: Id, now: Time)
      modifies this`rows
      ensures rows == Revoke(old(rows), id, now)
    {
      if id in rows {
        rows := rows[id := rows[id].(revokedAt := Some(now))];
      }
    }
  }

  /** At rest both tokens are sealed under their ivs; the ID token and the rest are kept as given, and nothing is revoked. */
  lemma SealedAtRest(c: Cipher, hexKey: Text, p: Params)
    requires |Decode(hexKey)| == 32
    ensures Stored(c, hexKey, p).Ok?
    ensures
      var row, given := Stored(c, hexKey, p).value, p.session;
      var access := c.seal(Decode(hexKey), p.accessIv, c.utf8(given.accessToken));
      && row.accessToken == Encode(p.accessIv) + [COLON] + Encode(access.tag) + [COLON] + Encode(access.ciphertext)
      && (given.refreshToken.None? || given.refreshToken == Some([]) ==> row.refreshToken.None?)
      && (given.refreshToken.Some? && given.refreshToken.value != [] ==>
            var refresh := c.seal(Decode(hexKey), p.refreshIv, c.utf8(given.refreshToken.value));
            row.refreshToken == Some(Encode(p.refreshIv) + [COLON] + Encode(refresh.tag) + [COLON] + Encode(refresh.ciphertext)))
      && row.userId == given.userId && row.opSessionId == given.opSessionId && row.idToken == given.idToken
      && row.tokenExpiresAt == given.tokenExpiresAt && row.expiresAt == given.expiresAt && row.revokedAt.None?
  {
    hide Encrypt;
    EncryptedForm(c, p.session.accessToken, hexKey, p.accessIv);
    if p.session.refreshToken.Some? {
      EncryptedForm(c, p.session.refreshToken.value, hexKey, p.refreshIv);
    }
  }

  // ---------- Whole histories ----------

  datatype Operation = Create(id: Id, params: Params) | RevokeOne(id: Id, at: Time)

  function Apply(c: Cipher, hexKey: Text, rows: Rows, op: Operation): Rows {
    match op
    case Create(id, p) =>
      var row := Stored(c, hexKey, p);
      if row.Ok? then rows[id := row.value] else rows
    case RevokeOne(id, at) => Revoke(rows, id, at)
  }

  function ApplyAll(c: Cipher, hexKey: Text, rows: Rows, ops: seq<Operation>): Rows
    decreases |ops|
  {
    if ops == [] then rows else ApplyAll(c, hexKey, Apply(c, hexKey, rows, ops[0]), ops[1..])
  }

  predicate Revokes(ops: seq<Operation>, id: Id) {
    exists i :: 0 <= i < |ops| && ops[i].RevokeOne? && ops[i].id == id
  }

  /** Other operations leave a row as it is, up to `revokedAt`, which tells whether it was revoked. */
  lemma {:induction false} RowAfter(c: Cipher, hexKey: Text, rows: Rows, id: Id, ops: seq<Operation>)
    requires id in rows && forall i | 0 <= i < |ops| && ops[i].Create? :: ops[i].id != id
    ensures
      var later := ApplyAll(c, hexKey, rows, ops);
      && id in later && later[id].(revokedAt := None) == rows[id].(revokedAt := None)
      && (later[id].revokedAt.Some? <==> rows[id].revokedAt.Some? || Revokes(ops, id))
    decreases |ops|
  {
    hide Stored;
    if ops != [] {
      var next := Apply(c, hexKey, rows, ops[0]);
      RowAfter(c, hexKey, next, id, ops[1..]);
      var later := ApplyAll(c, hexKey, next, ops[1..]);
      assert Revokes(ops, id) <==> (ops[0].RevokeOne? && ops[0].id == id) || Revokes(ops[1..], id) by {
        if Revokes(ops[1..], id) {
          var i :| 0 <= i < |ops[1..]| && ops[1..][i].RevokeOne? && ops[1..][i].id == id;
          assert ops[i + 1].RevokeOne? && ops[i + 1].id == id;
        }
        if Revokes(ops, id) && !(ops[0].RevokeOne? && ops[0].id == id) {
          var i :| 0 <= i < |ops| && ops[i].RevokeOne? && ops[i].id == id;
          assert ops[1..][i - 1].RevokeOne? && ops[1..][i - 1].id == id;
        }
      }
    }
  }

  /**
   A created session reads back with the very tokens it was given, an empty refresh token as none, after any later
   operations on the table: exactly until one of them revokes it or it expires.
   */
  lemma TokensReadBack(c: Cipher, hexKey: Text, rows: Rows, id: Id, p: Params, ops: seq<Operation>, now: Time)
    requires Lawful(c) && |Decode(hexKey)| == 32
    requires IsWellFormed(c, p.session.accessToken)
    requires p.session.refreshToken.Some? ==> IsWellFormed(c, p.session.refreshToken.value)
    requires forall i | 0 <= i < |ops| && ops[i].Create? :: ops[i].id != id
    ensures
      GetValid(c, hexKey, ApplyAll(c, hexKey, rows, [Create(id, p)] + ops), id, now)
      == Ok(if Revokes(ops, id) || p.session.expiresAt < now then None
            else Some(p.session.(refreshToken := Kept(p.session.refreshToken), revokedAt := None)))
  {
    hide Encrypt, Decrypt, Lawful, IsWellFormed, Revokes;
    DecryptEncrypt(c, p.session.accessToken, hexKey, p.accessIv);
    if Kept(p.session.refreshToken).Some? {
      DecryptEncrypt(c, p.session.refreshToken.value, hexKey, p.refreshIv);
    }
    var created := Apply(c, hexKey, rows, Create(id, p));
    RowAfter(c, hexKey, created, id, ops);
    assert ([Create(id, p)] + ops)[1..] == ops;
    assert ApplyAll(c, hexKey, rows, [Create(id, p)] + ops) == ApplyAll(c, hexKey, created, ops);
  }
}
