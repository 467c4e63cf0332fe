/** The token codec of backend/src/utils/jwt.ts. The signing library is
    abstract: a token records its payload, the secret it was signed with, its
    audience and its expiry, and verification checks exactly those. */
module Jwt {
  import opened Wrappers
  import opened Date

  /** Store identifiers (`_id` of a user or a session document). */
  type ObjectId = nat

  /** `RefreshTokenPayload` and `AccessTokenPayLoad`; both carry a session id. */
  datatype Payload =
    | RefreshPayload(sessionId: ObjectId)
    | AccessPayload(userId: ObjectId, sessionId: ObjectId)

  /** The two configured secrets `JWT_SECRET` and `JWT_REFRESH_SECRET`. */
  datatype Secret = JwtSecret | JwtRefreshSecret

  /** The library's sign options that this code sets: the audience and the
      lifetime (`expiresIn`, in milliseconds). `None` is an absent property. */
  datatype SignOptions = SignOptions(audience: Option<seq<string>>, expiresIn: Option<int>)

  /** `SignOptionsAndSecret`: sign options plus the secret. */
  datatype SignOptionsAndSecret = SignOptionsAndSecret(options: SignOptions, secret: Secret)

  /** `VerifyOptions & { secret }`; the secret may still be nullish at run time. */
  datatype VerifyOptionsAndSecret = VerifyOptionsAndSecret(audience: Option<seq<string>>, secret: Option<Secret>)

  const UserAudience: seq<string> := ["user"]

  /** `defaults`: every token is for the audience "user". */
  const Defaults: SignOptions := SignOptions(Some(UserAudience), None)

  /** `accessTokenSignOptions`: 15 minutes, `JWT_SECRET`. */
  const AccessTokenSignOptions: SignOptionsAndSecret :=
    SignOptionsAndSecret(SignOptions(None, Some(FIFTEEN_MINUTES_MS)), JwtSecret)

  /** `refreshTokenSignOptions`: 30 days, `JWT_REFRESH_SECRET`. */
  const RefreshTokenSignOptions: SignOptionsAndSecret :=
    SignOptionsAndSecret(SignOptions(None, Some(THIRTY_DAYS_MS)), JwtRefreshSecret)

  /** An issued token. `audience` and `expiresAt` are absent when the sign
      options did not set them. */
  datatype Token = Token(payload: Payload, secret: Secret, audience: Option<seq<string>>, expiresAt: Option<int>)

  /** Why the library refused a token. */
  datatype VerifyError = InvalidSignature | TokenExpired | AudienceInvalid

  /** What `verifyToken` returns: `{ payload }` or `{ error }`. */
  datatype VerifyResult = Verified(payload: Payload) | Rejected(error: VerifyError)

  /** `{ ...base, ...over }`: a property present in `over` wins. */
  function Spread(base: SignOptions, over: SignOptions): SignOptions {
    SignOptions(if over.audience.Some? then over.audience else base.audience,
                if over.expiresIn.Some? then over.expiresIn else base.expiresIn)
  }

  /** The library's `sign(payload, secret, options)` at time `now`. */
  function Sign(payload: Payload, secret: Secret, options: SignOptions, now: int): Token {
    Token(payload, secret, options.audience,
          if options.expiresIn.Some? then Some(now + options.expiresIn.value) else None)
  }

  /** `signToken(payload, options?)`: the access options when none are given;
      the secret is split off and the remaining options are spread over the
      defaults. */
  function SignToken(payload: Payload, options: Option<SignOptionsAndSecret>, now: int): (t: Token)
    ensures t.payload == payload
    ensures options.None? ==> t.secret == JwtSecret && t.expiresAt == Some(now + 900_000)
    ensures options.Some? ==> t.secret == options.value.secret
    ensures t.audience == if options.Some? && options.value.options.audience.Some?
                          then options.value.options.audience else Some(["user"])
    ensures options.Some? ==>
      t.expiresAt == if options.value.options.expiresIn.Some?
                     then Some(now + options.value.options.expiresIn.value) else None
  {
    var SignOptionsAndSecret(signOpts, secret) := if options.Some? then options.value else AccessTokenSignOptions;
    Sign(payload, secret, Spread(Defaults, signOpts), now)
  }

  /** The library's audience test: some audience of the token is expected. */
  predicate AudienceMatches(tokenAudience: Option<seq<string>>, expected: seq<string>) {
    tokenAudience.Some? && exists a :: a in tokenAudience.value && a in expected
  }

  /** The library's `verify(token, secret, { audience })` at time `now`:
      the signature first, then the expiry (a token is expired from its
      `exp` instant on), then the audience. */
  function Verify(token: Token, secret: Secret, audience: seq<string>, now: int): VerifyResult {
    if token.secret != secret then Rejected(InvalidSignature)
    else if token.expiresAt.Some? && now >= token.expiresAt.value then Rejected(TokenExpired)
    else if !AudienceMatches(token.audience, audience) then Rejected(AudienceInvalid)
    else Verified(token.payload)
  }

  /** `verifyToken(token, options?)`: `JWT_SECRET` when no secret is given, the
      default audience "user" unless the options set one; every failure of
      the library comes back as a value, never as an exception. */
  function VerifyToken(token: Token, options: Option<VerifyOptionsAndSecret>, now: int): (r: VerifyResult)
    ensures r.Verified? <==>
      && token.secret == (if options.Some? && options.value.secret.Some? then options.value.secret.value else JwtSecret)
      && (token.expiresAt.Some? ==> now < token.expiresAt.value)
      && AudienceMatches(token.audience,
           if options.Some? && options.value.audience.Some? then options.value.audience.value else ["user"])
    ensures r.Verified? ==> r.payload == token.payload
  {
    var secret := if options.Some? && options.value.secret.Some? then options.value.secret.value else JwtSecret;
    var verifyOpts := if options.Some? then options.value else VerifyOptionsAndSecret(None, None);
    var audience := if verifyOpts.audience.Some? then verifyOpts.audience.value else Defaults.audience.value;
    Verify(token, secret, audience, now)
  }

  /** The refresh secret differs from the access secret, and the refresh
      lifetime (30 days) outlasts the access lifetime (15 minutes). */
  lemma SignOptionsDiffer()
    ensures AccessTokenSignOptions.secret != RefreshTokenSignOptions.secret
    ensures AccessTokenSignOptions.options.expiresIn == Some(900_000)
    ensures RefreshTokenSignOptions.options.expiresIn == Some(2_592_000_000)
  {
  }

  /** A token signed with options `o` (audience left to the default) verifies
      under `o`'s secret, with the default audience, at any time before its
      expiry, and gives back the payload; from the expiry instant on it is
      refused as expired. */
  lemma {:induction false} SignVerifyRoundTrip(payload: Payload, o: SignOptionsAndSecret, signedAt: int, at: int)
    requires o.options.audience.None? && o.options.expiresIn.Some?
    ensures var t := SignToken(payload, Some(o), signedAt);
      VerifyToken(t, Some(VerifyOptionsAndSecret(None, Some(o.secret))), at)
        == if at < signedAt + o.options.expiresIn.value then Verified(payload) else Rejected(TokenExpired)
  {
    var t := SignToken(payload, Some(o), signedAt);
    assert "user" in t.audience.value;
  }

  /** A token signed with one secret is refused under the other one, whatever
      the time: an access token is no refresh token and vice versa. */
  lemma WrongSecretRejected(payload: Payload, o: Option<SignOptionsAndSecret>, signedAt: int,
                            other: Secret, audience: Option<seq<string>>, at: int)
    requires other != (if o.Some? then o.value.secret else JwtSecret)
    ensures VerifyToken(SignToken(payload, o, signedAt), Some(VerifyOptionsAndSecret(audience, Some(other))), at)
      == Rejected(InvalidSignature)
  {
  }

  /** The default access token (no options) verifies with no options at all
      for fifteen minutes. */
  lemma AccessTokenRoundTrip(payload: Payload, signedAt: int, at: int)
    ensures VerifyToken(SignToken(payload, None, signedAt), None, at)
      == if at < signedAt + 900_000 then Verified(payload) else Rejected(TokenExpired)
  {
    assert "user" in SignToken(payload, None, signedAt).audience.value;
  }

  /** A token whose audience the caller overrode away from "user" is refused by
      a default verification, even with the right secret and before any expiry
      its options set. */
  lemma ForeignAudienceRejected(payload: Payload, o: SignOptionsAndSecret, signedAt: int, at: int)
    requires o.options.audience.Some? && "user" !in o.options.audience.value
    requires o.options.expiresIn.Some? ==> at < signedAt + o.options.expiresIn.value
    ensures VerifyToken(SignToken(payload, Some(o), signedAt), Some(VerifyOptionsAndSecret(None, Some(o.secret))), at)
      == Rejected(AudienceInvalid)
  {
  }
}
