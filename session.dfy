/** The session record and its signed, expiring token (lib/session.ts).
    The token is an HS256 JSON Web Token; here it is an abstract record of the
    claims (payload, issued-at, expiry) and a tag that only the holder of the
    key can produce. Times are Unix milliseconds as read from the clock; the
    token's claims are whole seconds, as the JWT library stores them. */
module Session {
  import opened Util

  datatype AppState = Wheel | Question

  /** `usedQuestions[category][difficulty]`: the pool indices already shown. */
  type UsedQuestions = map<string, map<string, seq<int>>>

  /** The session payload. A difficulty is kept as the string it arrived as:
      nothing at run time restricts it to Receh, Sedang or Sulit. */
  datatype SessionPayload = SessionPayload(
    state: AppState,
    category: Option<string>,
    difficulty: Option<string>,
    questionIndex: Option<int>,
    timerStartedAt: Option<int>,
    timerDuration: Option<int>,
    usedQuestions: UsedQuestions)

  /** A fresh session: the wheel, nothing selected, nothing used. */
  const DefaultSession := SessionPayload(Wheel, None, None, None, None, None, map[])

  /** Seconds a token stays valid: 60 * 60 * 24 * 7. */
  const MAX_AGE: int := 60 * 60 * 24 * 7

  /** The key the server signs with. */
  type Key = string

  /** The claims of a token: the payload spread into the claim set, `iat` and `exp`. */
  datatype Claims = Claims(payload: SessionPayload, iat: int, exp: int)

  /** The HMAC of the claims. Ideal: it equals Mac(key, claims) for no other key or claims. */
  datatype Tag = Tag(key: Key, claims: Claims)

  /** A cookie value: a well-formed token, or any other text. */
  datatype Token = Jwt(claims: Claims, tag: Tag) | Malformed(text: string)

  function Mac(key: Key, claims: Claims): Tag { Tag(key, claims) }

  /** Whole seconds since the epoch, as the JWT library reads the clock. */
  function EpochSeconds(nowMs: int): int { nowMs / 1000 }

  /** `signSession`: the payload, issued now, expiring MAX_AGE seconds later. */
  function SignSession(payload: SessionPayload, key: Key, nowMs: int): (t: Token)
    ensures t.Jwt? && t.claims.payload == payload
    ensures t.claims.iat == EpochSeconds(nowMs) && t.claims.exp == t.claims.iat + 604800
    ensures t.tag == Mac(key, t.claims)
  {
    var claims := Claims(payload, EpochSeconds(nowMs), EpochSeconds(nowMs) + MAX_AGE);
    Jwt(claims, Mac(key, claims))
  }

  /** `verifySession`: the payload of a token whose tag checks under `key` and
      that has not yet expired; None (the source's `null`) for anything else.
      It is total: no input makes it fail. */
  function VerifySession(token: Token, key: Key, nowMs: int): (r: Option<SessionPayload>)
    ensures r.Some? <==> token.Jwt? && token.tag == Mac(key, token.claims)
                         && EpochSeconds(nowMs) < token.claims.exp
    ensures r.Some? ==> r.value == token.claims.payload
  {
    match token
    case Malformed(_) => None
    case Jwt(claims, tag) =>
      if tag == Mac(key, claims) && EpochSeconds(nowMs) < claims.exp then Some(claims.payload) else None
  }

  /** A token verified with the key that signed it gives back the payload
      exactly while fewer than MAX_AGE seconds have passed on the seconds clock. */
  lemma RoundTrip(payload: SessionPayload, key: Key, signedAt: int, now: int)
    ensures VerifySession(SignSession(payload, key, signedAt), key, now)
         == if EpochSeconds(now) < EpochSeconds(signedAt) + MAX_AGE then Some(payload) else None
  {
  }

  lemma ShiftSeconds(t: int, k: int)
    ensures EpochSeconds(t + k * 1000) == EpochSeconds(t) + k
  {
    assert t + k * 1000 == (t / 1000 + k) * 1000 + t % 1000;
  }

  /** Expiry: a token is rejected once 7 days have passed since signing and is
      still accepted one second before that. */
  lemma ExpiryBoundary(payload: SessionPayload, key: Key, signedAt: int)
    ensures VerifySession(SignSession(payload, key, signedAt), key, signedAt + MAX_AGE * 1000) == None
    ensures VerifySession(SignSession(payload, key, signedAt), key, signedAt + (MAX_AGE - 1) * 1000)
         == Some(payload)
  {
    ShiftSeconds(signedAt, MAX_AGE);
    ShiftSeconds(signedAt, MAX_AGE - 1);
  }

  /** Expiry is enforced whatever the payload: at or after `exp`, nothing verifies. */
  lemma ExpiredRejected(token: Token, key: Key, now: int)
    requires token.Jwt? && EpochSeconds(now) >= token.claims.exp
    ensures VerifySession(token, key, now) == None
  {
  }

  /** Tampering: claims altered after signing, or a token signed under another
      key, never verify. */
  lemma TamperRejected(payload: SessionPayload, key: Key, signedAt: int, forged: Claims, other: Key, now: int)
    requires forged != SignSession(payload, key, signedAt).claims
    requires other != key
    ensures VerifySession(Jwt(forged, SignSession(payload, key, signedAt).tag), key, now) == None
    ensures VerifySession(SignSession(payload, other, signedAt), key, now) == None
  {
  }
}
