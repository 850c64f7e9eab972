/** The bearer-token gate in front of every expense route
    (backend/middleware/auth.js), the token service it calls, and the header
    the client builds (frontend/src/api.js). The signature algorithm and the
    secret are not modelled: `Keys` stands for jwt.sign and for the decoding
    and signature check inside jwt.verify. */
module AuthGate {
  import opened Js

  type UserId = nat

  const SecondsPerDay: nat := 86400

  /** Tokens are issued to last seven days. */
  const TokenLifetime: nat := 7 * SecondsPerDay

  /** A token payload: the user id, issued-at and expiry, in seconds. */
  datatype Claims = Claims(userId: UserId, iat: nat, exp: nat)

  /** jwt.sign with the process secret, and the signature check plus payload
      decoding of jwt.verify (None: malformed token or bad signature). */
  datatype Keys = Keys(sign: Claims -> string, decode: string -> Option<Claims>)

  /** Keys that behave as a signature scheme should for tokens this system
      issues: decoding a signed payload gives it back, and a signed token is
      not empty and holds no space (a JWT is three base64url parts joined by
      dots). */
  ghost predicate SoundKeys(keys: Keys)
  {
    forall c: Claims :: keys.decode(keys.sign(c)) == Some(c) && keys.sign(c) != "" && ' ' !in keys.sign(c)
  }

  /** JWT time: whole seconds of a millisecond clock. */
  function Seconds(nowMs: nat): nat
  {
    nowMs / 1000
  }

  /** jwt.verify at clock `nowMs`: the decoded payload, unless the token is
      malformed, wrongly signed, or expired (expired once the clock in seconds
      reaches `exp`). */
  function Verify(keys: Keys, token: string, nowMs: nat): (r: Option<Claims>)
    ensures r.Some? <==> keys.decode(token).Some? && Seconds(nowMs) < keys.decode(token).value.exp
    ensures r.Some? ==> r == keys.decode(token)
  {
    match keys.decode(token)
    case None => None
    case Some(c) => if Seconds(nowMs) < c.exp then Some(c) else None
  }

  const BearerPrefix := "Bearer "
  const NoTokenMessage := "No Token, Authorization Denied"
  const InvalidTokenMessage := "Token is not Valid"

  /** What the gate does with a request: answer it with an error, or attach
      the caller's id to the request and pass it on, once. */
  datatype Outcome = Denied(status: int, message: string) | Admitted(user: UserId)

  /** The header starts with "Bearer " exactly, letter case included. */
  predicate HasBearerPrefix(header: string)
  {
    |header| >= |BearerPrefix| && header[..|BearerPrefix|] == BearerPrefix
  }

  /** A header with the prefix splits into at least two fields, the first
      being "Bearer". */
  lemma BearerFields(header: string)
    requires HasBearerPrefix(header)
    ensures |Split(header)| >= 2 && Split(header)[0] == "Bearer"
  {
    var rest := header[|BearerPrefix|..];
    assert header == "Bearer" + (" " + rest);
    SplitPrefix("Bearer", " " + rest);
    assert (" " + rest)[1..] == rest;
  }

  /** The token: the second field of the header split at single spaces. */
  function BearerToken(header: string): (token: string)
    requires HasBearerPrefix(header)
    ensures ' ' !in token
  {
    BearerFields(header);
    SplitJoin(header);
    Split(header)[1]
  }

  /** The authentication middleware. */
  function Gate(keys: Keys, header: Option<string>, nowMs: nat): (r: Outcome)
    ensures header.None? || !HasBearerPrefix(header.value) ==> r == Denied(401, NoTokenMessage)
    ensures header.Some? && HasBearerPrefix(header.value) ==>
      var claims := Verify(keys, BearerToken(header.value), nowMs);
      && (claims.None? ==> r == Denied(401, InvalidTokenMessage))
      && (claims.Some? ==> r == Admitted(claims.value.userId))
    ensures r.Denied? ==> r.status == 401
  {
    match header
    case None => Denied(401, NoTokenMessage)
    case Some(h) =>
      if h == "" || !HasBearerPrefix(h) then
        Denied(401, NoTokenMessage)
      else
        match Verify(keys, BearerToken(h), nowMs)
        case None => Denied(401, InvalidTokenMessage)
        case Some(claims) => Admitted(claims.userId)
  }

  /** The header the client sends (frontend/src/api.js), given the token it
      has stored: none when no token or an empty one is stored, otherwise
      "Bearer " followed by the token. */
  function AuthHeader(stored: Option<string>): (h: Option<string>)
    ensures h.Some? <==> stored.Some? && stored.value != ""
    ensures h.Some? ==> HasBearerPrefix(h.value) && h.value[|BearerPrefix|..] == stored.value
  {
    if stored.Some? && stored.value != "" then
      var h := BearerPrefix + stored.value;
      assert h[..|BearerPrefix|] == BearerPrefix;
      Some(h)
    else
      None
  }

  /** The gate reads back the token the client put in the header, as long as
      the token holds no space. */
  lemma {:induction false} HeaderRoundTrip(token: string)
    requires token != "" && ' ' !in token
    ensures AuthHeader(Some(token)).Some? && BearerToken(AuthHeader(Some(token)).value) == token
  {
    var h := AuthHeader(Some(token)).value;
    assert h == "Bearer" + (" " + token);
    SplitPrefix("Bearer", " " + token);
    assert (" " + token)[1..] == token;
    SplitNoSpace(token);
  }

  /** End to end: with no stored token the client sends no header and the
      gate answers that there is none; otherwise the request is admitted
      exactly when the token verifies, and then as the token's user. */
  lemma GateOnClientHeader(keys: Keys, stored: Option<string>, nowMs: nat)
    requires stored.Some? ==> ' ' !in stored.value
    ensures stored.None? || stored.value == "" ==>
              Gate(keys, AuthHeader(stored), nowMs) == Denied(401, NoTokenMessage)
    ensures stored.Some? && stored.value != "" ==>
              var claims := Verify(keys, stored.value, nowMs);
              Gate(keys, AuthHeader(stored), nowMs)
                == if claims.Some? then Admitted(claims.value.userId) else Denied(401, InvalidTokenMessage)
  {
    if stored.Some? && stored.value != "" {
      HeaderRoundTrip(stored.value);
    }
  }

  /** A header that differs from "Bearer " only in letter case is refused
      before any token is looked at. */
  lemma LowercaseSchemeRefused(keys: Keys, token: string, nowMs: nat)
    ensures Gate(keys, Some("bearer " + token), nowMs) == Denied(401, NoTokenMessage)
  {
    var h := "bearer " + token;
    assert h[0] == 'b';
  }
}
