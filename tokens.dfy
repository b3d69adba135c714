/**
 * The bearer tokens: what `jwt.sign({userId}, JWT_SECRET, {expiresIn: '24h'})` issues,
 * what `jwt.verify` accepts, and the `authenticateToken` middleware that takes the token
 * out of the `Authorization` header.
 *
 * A token is a symbolic term (its claims and the key that signed it); the text that
 * travels in the header is turned back into a term by a `decode` parameter standing for
 * the library's parsing, so no encoding or cryptography is modelled.
 */
module Tokens {
  import opened Wrappers
  import opened JsString

  /** `expiresIn: '24h'`, in the seconds the `exp` claim counts. */
  const Lifetime: int := 24 * 60 * 60

  /** `process.env.JWT_SECRET || 'your-secret-key'`. */
  const DefaultSecret: string := "your-secret-key"

  /** The key tokens are signed and verified with, given the configured `JWT_SECRET`. */
  function SigningKey(configured: Option<string>): string {
    if Truthy(configured) then configured.value else DefaultSecret
  }

  /** The payload of an issued token: the account id, `iat` and `exp`. */
  datatype Claims = Claims(userId: nat, iat: int, exp: int)

  /** The claims `jwt.sign({userId}, key, {expiresIn: '24h'})` writes at time `now`. */
  function Issue(userId: nat, now: int): Claims {
    Claims(userId, now, now + Lifetime)
  }

  /** A signed token: its claims and the key it was signed with. */
  datatype Token = Signed(claims: Claims, key: string)

  function Sign(claims: Claims, key: string): Token {
    Signed(claims, key)
  }

  datatype VerifyError = Malformed | InvalidSignature | Expired

  /** `jwt.verify`: `decoded` is the parsed token (`None` when the text is not a token);
      the signature must be by `key`, and the token is expired from `exp` on. */
  function Verify(decoded: Option<Token>, key: string, now: int): (r: Result<Claims, VerifyError>)
    ensures r.Ok? <==> decoded.Some? && decoded.value.key == key && now < decoded.value.claims.exp
    ensures r.Ok? ==> r.value == decoded.value.claims
    ensures r == Err(Malformed) <==> decoded.None?
    ensures r == Err(InvalidSignature) <==> decoded.Some? && decoded.value.key != key
  {
    match decoded
    case None => Err(Malformed)
    case Some(t) =>
      if t.key != key then Err(InvalidSignature)
      else if now >= t.claims.exp then Err(Expired)
      else Ok(t.claims)
  }

  /** A freshly issued token verifies, with its own claims, until 24 hours have passed, and
      is expired from then on. */
  lemma IssueVerifies(userId: nat, issuedAt: int, key: string, now: int)
    ensures now < issuedAt + Lifetime ==> Verify(Some(Sign(Issue(userId, issuedAt), key)), key, now) == Ok(Issue(userId, issuedAt))
    ensures now >= issuedAt + Lifetime ==> Verify(Some(Sign(Issue(userId, issuedAt), key)), key, now) == Err(Expired)
    ensures Verify(Some(Sign(Issue(userId, issuedAt), key)), key, now).Ok? ==>
              Verify(Some(Sign(Issue(userId, issuedAt), key)), key, now).value.userId == userId
  {
  }

  /** Without a configured `JWT_SECRET` the server verifies with the published fallback, so
      a token anyone signs with that text is accepted; a configured secret refuses it. */
  lemma DefaultSecretTokens(configured: Option<string>, claims: Claims, now: int)
    requires now < claims.exp
    ensures !Truthy(configured) ==> Verify(Some(Sign(claims, DefaultSecret)), SigningKey(configured), now) == Ok(claims)
    ensures Truthy(configured) && configured.value != DefaultSecret ==>
              Verify(Some(Sign(claims, DefaultSecret)), SigningKey(configured), now) == Err(InvalidSignature)
  {
  }

  /** `authHeader && authHeader.split(' ')[1]`, with the falsy results (no header, an empty
      header, no second piece, an empty second piece) read as no token. */
  function BearerToken(header: Option<string>): (r: Option<string>)
    ensures r.Some? ==> r.value != "" && ' ' !in r.value
    ensures r.Some? ==> Truthy(header) && |Split(header.value, ' ')| >= 2 && r.value == Split(header.value, ' ')[1]
    ensures Truthy(header) && |Split(header.value, ' ')| >= 2 && Split(header.value, ' ')[1] != "" ==>
              r == Some(Split(header.value, ' ')[1])
  {
    if !Truthy(header) then None
    else
      var parts := Split(header.value, ' ');
      if |parts| < 2 || parts[1] == "" then None else Some(parts[1])
  }

  /** `"Bearer " + token` yields the token, whatever the scheme word, provided neither contains a space. */
  lemma {:induction false} BearerTokenOf(scheme: string, token: string)
    requires ' ' !in scheme && ' ' !in token && token != ""
    ensures BearerToken(Some(scheme + " " + token)) == Some(token)
  {
    SplitAtSeparator(scheme, ' ', token);
    SplitNoSeparator(scheme, ' ');
    SplitNoSeparator(token, ' ');
    assert scheme + " " + token == scheme + [' '] + token;
  }

  /** A header without a space holds no token. */
  lemma {:induction false} NoSpaceNoToken(header: string)
    requires ' ' !in header
    ensures BearerToken(Some(header)) == None
  {
    SplitNoSeparator(header, ' ');
  }

  datatype Failure = Failure(status: nat, error: string)

  const TokenRequired := Failure(401, "Token required")
  const InvalidToken := Failure(403, "Invalid token")

  /** The `authenticateToken` middleware: the claims it attaches as `req.user`, or the
      response it sends. */
  function Authenticate(header: Option<string>, decode: string -> Option<Token>, key: string, now: int): (r: Result<Claims, Failure>)
    ensures BearerToken(header).None? <==> r == Err(TokenRequired)
    ensures BearerToken(header).Some? ==>
              match Verify(decode(BearerToken(header).value), key, now)
              case Ok(c) => r == Ok(c)
              case Err(_) => r == Err(InvalidToken)
  {
    match BearerToken(header)
    case None => Err(TokenRequired)
    case Some(text) =>
      match Verify(decode(text), key, now)
      case Ok(c) => Ok(c)
      case Err(_) => Err(InvalidToken)
  }

  /** The round trip: a token issued at `issuedAt`, sent as `Bearer <token>`, authenticates
      as its account for 24 hours and is refused with 403 afterwards and under any other key. */
  lemma {:induction false} IssuedTokenAuthenticates(userId: nat, issuedAt: int, key: string, text: string,
                                                    decode: string -> Option<Token>, now: int, verifierKey: string)
    requires text != "" && ' ' !in text
    requires decode(text) == Some(Sign(Issue(userId, issuedAt), key))
    ensures verifierKey == key && now < issuedAt + Lifetime ==>
              Authenticate(Some("Bearer " + text), decode, verifierKey, now) == Ok(Issue(userId, issuedAt))
    ensures verifierKey != key || now >= issuedAt + Lifetime ==>
              Authenticate(Some("Bearer " + text), decode, verifierKey, now) == Err(InvalidToken)
  {
    assert ' ' !in "Bearer";
    BearerTokenOf("Bearer", text);
    assert "Bearer " + text == "Bearer" + " " + text;
  }
}
