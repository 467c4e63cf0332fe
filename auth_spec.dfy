/** The session manager of backend/src/services/auth.service.ts, stated on
    values: the three stores before a call, and what the call returns and
    leaves in the stores. `SessionManager` in auth_service.dfy performs the
    same operations step by step on mutable stores and is proved to agree
    with these functions. */
module AuthSpec {
  import opened Wrappers
  import opened Http
  import opened AppErrors
  import opened AppAssert
  import opened Date
  import opened Jwt

  /** A user document; `password` is what the service hands to the store. */
  datatype User = User(email: string, password: string, verified: bool)

  datatype Session = Session(userId: ObjectId, userAgent: Option<string>, expiresAt: int)

  datatype VerificationCodeType = EmailVerification | PasswordReset

  datatype VerificationCode = VerificationCode(userId: ObjectId, kind: VerificationCodeType, expiresAt: int)

  /** `user.omitPassword()`: the user as returned to the client. */
  datatype SafeUser = SafeUser(id: ObjectId, email: string, verified: bool)

  /** What `createAccount` and `loginUser` return. */
  datatype AuthResponse = AuthResponse(user: SafeUser, accessToken: Token, refreshToken: Token)

  /** What `refreshUserAccessToken` returns. */
  datatype RefreshResponse = RefreshResponse(accessToken: Token, newRefreshToken: Option<Token>)

  /** The three keyed stores and the store's id generator: every id handed
      out so far is below `nextId`. */
  datatype Stores = Stores(users: map<ObjectId, User>, sessions: map<ObjectId, Session>,
                           codes: map<ObjectId, VerificationCode>, nextId: nat)
  {
    /** Ids in use are below the generator, and no two users share an email. */
    ghost predicate Valid() {
      && (forall id :: id in users ==> id < nextId)
      && (forall id :: id in sessions ==> id < nextId)
      && (forall id :: id in codes ==> id < nextId)
      && EmailsUnique(users)
    }
  }

  /** A call's outcome: the value returned or the error thrown, and the stores afterwards. */
  datatype Step<R> = Step(result: Result<R, AppError>, after: Stores)

  predicate EmailsUnique(users: map<ObjectId, User>) {
    forall a, b :: a in users && b in users && users[a].email == users[b].email ==> a == b
  }

  /** `UserModel.exists({ email })`: exact, case-sensitive comparison. */
  predicate EmailInUse(users: map<ObjectId, User>, email: string) {
    exists id :: id in users && users[id].email == email
  }

  /** The ids of the users registered under `email`. */
  function UsersWithEmail(users: map<ObjectId, User>, email: string): set<ObjectId> {
    set id | id in users && users[id].email == email
  }

  /** `UserModel.findOne({ email })` on a store with unique emails. */
  function UserByEmail(users: map<ObjectId, User>, email: string): (id: ObjectId)
    requires EmailsUnique(users) && EmailInUse(users, email)
    ensures id in users && users[id].email == email
    ensures UsersWithEmail(users, email) == {id}
  {
    var id :| id in users && users[id].email == email;
    id
  }

  function OmitPassword(id: ObjectId, u: User): SafeUser {
    SafeUser(id, u.email, u.verified)
  }

  /** `VerificationCodeModel.findOne({ _id, type: EmailVerification, expiresAt: { $gt: now } })`. */
  predicate IsValidEmailCode(codes: map<ObjectId, VerificationCode>, code: ObjectId, now: int) {
    code in codes && codes[code].kind == EmailVerification && codes[code].expiresAt > now
  }

  /** The options `refreshUserAccessToken` verifies with: the refresh secret. */
  const RefreshVerifyOptions: VerifyOptionsAndSecret := VerifyOptionsAndSecret(None, Some(RefreshTokenSignOptions.secret))

  /** The two tokens issued for a new session. */
  function RefreshTokenFor(sessionId: ObjectId, now: int): Token {
    SignToken(RefreshPayload(sessionId), Some(RefreshTokenSignOptions), now)
  }

  function AccessTokenFor(userId: ObjectId, sessionId: ObjectId, now: int): Token {
    SignToken(AccessPayload(userId, sessionId), None, now)
  }

  /** `createAccount`: refuse a used email, else create the user, a one-year
      email-verification code and a session (the session model,
      backend/src/models/session.model.ts, outside this model, dates its
      expiry `sessionLifetime` after creation), then sign both tokens. */
  function CreateAccount(s: Stores, email: string, password: string, userAgent: Option<string>,
                         now: int, sessionLifetime: int): (step: Step<AuthResponse>)
    requires s.Valid()
    ensures step.after.Valid()
  {
    match Assert(!EmailInUse(s.users, email), CONFLICT, "Email already in use", None)
    case Abort(e) => Step(Failure(e), s)
    case Continue =>
      var userId := s.nextId;
      var codeId := userId + 1;
      var sessionId := userId + 2;
      var user := User(email, password, false);
      var after := Stores(s.users[userId := user],
                          s.sessions[sessionId := Session(userId, userAgent, now + sessionLifetime)],
                          s.codes[codeId := VerificationCode(userId, EmailVerification, OneYearFromNow(now))],
                          userId + 3);
      Step(Success(AuthResponse(OmitPassword(userId, user),
                                AccessTokenFor(userId, sessionId, now),
                                RefreshTokenFor(sessionId, now))), after)
  }

  /** `loginUser`: look the user up by email only (the password is never
      compared) and open a brand-new session. */
  function LoginUser(s: Stores, email: string, password: string, userAgent: Option<string>,
                     now: int, sessionLifetime: int): (step: Step<AuthResponse>)
    requires s.Valid()
    ensures step.after.Valid()
  {
    match Assert(EmailInUse(s.users, email), UNAUTHORIZED, "Invalid Email or Password", None)
    case Abort(e) => Step(Failure(e), s)
    case Continue =>
      var userId := UserByEmail(s.users, email);
      var sessionId := s.nextId;
      var after := s.(sessions := s.sessions[sessionId := Session(userId, userAgent, now + sessionLifetime)],
                      nextId := sessionId + 1);
      Step(Success(AuthResponse(OmitPassword(userId, s.users[userId]),
                                AccessTokenFor(userId, sessionId, now),
                                RefreshTokenFor(sessionId, now))), after)
  }

  /** `refreshUserAccessToken`: verify the refresh token, require a live
      session, push its expiry to thirty days out when at most one day is
      left (issuing a new refresh token then), and always sign an access token. */
  function RefreshUserAccessToken(s: Stores, refreshToken: Token, now: int): (step: Step<RefreshResponse>)
    requires s.Valid()
    ensures step.after.Valid()
  {
    var verified := VerifyToken(refreshToken, Some(RefreshVerifyOptions), now);
    match Assert(verified.Verified?, UNAUTHORIZED, "Invalid refresh token", None)
    case Abort(e) => Step(Failure(e), s)
    case Continue =>
      var sessionId := verified.payload.sessionId;
      match Assert(sessionId in s.sessions && s.sessions[sessionId].expiresAt > now,
                   UNAUTHORIZED, "Session expired", None)
      case Abort(e) => Step(Failure(e), s)
      case Continue =>
        var session := s.sessions[sessionId];
        var needsRefresh := session.expiresAt - now <= ONE_DAY_MS;
        var after := if needsRefresh
                     then s.(sessions := s.sessions[sessionId := session.(expiresAt := ThirtyDaysFromNow(now))])
                     else s;
        var newRefreshToken := if needsRefresh then Some(RefreshTokenFor(sessionId, now)) else None;
        Step(Success(RefreshResponse(AccessTokenFor(session.userId, sessionId, now), newRefreshToken)), after)
  }

  /** `verifyEmail`: find an unexpired email-verification code by id, mark
      its owner verified, then delete the code. */
  function VerifyEmail(s: Stores, code: ObjectId, now: int): (step: Step<SafeUser>)
    requires s.Valid()
    ensures step.after.Valid()
  {
    match Assert(IsValidEmailCode(s.codes, code, now), NOT_FOUND, "Invalid or expired verification code", None)
    case Abort(e) => Step(Failure(e), s)
    case Continue =>
      var userId := s.codes[code].userId;
      match Assert(userId in s.users, INTERNAL_SERVER_ERROR, "Failed to Verify Email", None)
      case Abort(e) => Step(Failure(e), s)
      case Continue =>
        var updated := s.users[userId].(verified := true);
        Step(Success(OmitPassword(userId, updated)),
             s.(users := s.users[userId := updated], codes := s.codes - {code}))
  }

  // -----------------------------------------------------------------------
  // createAccount
  // -----------------------------------------------------------------------

  /** A used email is a conflict, and no store changes. */
  lemma CreateAccountDuplicate(s: Stores, email: string, password: string, userAgent: Option<string>,
                               now: int, sessionLifetime: int)
    requires s.Valid() && EmailInUse(s.users, email)
    ensures CreateAccount(s, email, password, userAgent, now, sessionLifetime)
      == Step(Failure(AppError(CONFLICT, "Email already in use", None)), s)
  {
  }

  /** The outcome of `createAccount` for a fresh email, written out. */
  lemma CreateAccountUnfold(s: Stores, email: string, password: string, userAgent: Option<string>,
                            now: int, sessionLifetime: int)
    requires s.Valid() && !EmailInUse(s.users, email)
    ensures var userId := s.nextId;
      CreateAccount(s, email, password, userAgent, now, sessionLifetime)
        == Step(Success(AuthResponse(SafeUser(userId, email, false),
                                     AccessTokenFor(userId, userId + 2, now),
                                     RefreshTokenFor(userId + 2, now))),
                Stores(s.users[userId := User(email, password, false)],
                       s.sessions[userId + 2 := Session(userId, userAgent, now + sessionLifetime)],
                       s.codes[userId + 1 := VerificationCode(userId, EmailVerification, OneYearFromNow(now))],
                       userId + 3))
  {
  }

  /** A fresh email adds exactly one user with that email (unverified), one
      email-verification code for that user expiring a year from now, and one
      session for that user with the given agent; every existing entry is
      kept. The refresh token carries only the new session's id and the
      refresh secret; the access token carries the user's and the session's
      ids and the access secret; the user comes back without password. */
  lemma CreateAccountFresh(s: Stores, email: string, password: string, userAgent: Option<string>,
                           now: int, sessionLifetime: int)
    requires s.Valid() && !EmailInUse(s.users, email)
    ensures var step := CreateAccount(s, email, password, userAgent, now, sessionLifetime);
      && step.result.Success?
      && var r := step.result.value;
      && var a := step.after;
      && var userId := r.user.id;
      && var sessionId := r.refreshToken.payload.sessionId;
      && r.user == SafeUser(userId, email, false)
      && userId !in s.users && a.users == s.users[userId := User(email, password, false)]
      && UsersWithEmail(a.users, email) == {userId}
      && |a.users| == |s.users| + 1
      && sessionId !in s.sessions
      && a.sessions == s.sessions[sessionId := Session(userId, userAgent, now + sessionLifetime)]
      && (exists codeId: ObjectId :: codeId !in s.codes &&
            a.codes == s.codes[codeId := VerificationCode(userId, EmailVerification, now + 31_536_000_000)])
      && r.refreshToken.payload == RefreshPayload(sessionId)
      && r.refreshToken.secret == JwtRefreshSecret
      && r.refreshToken.expiresAt == Some(now + 2_592_000_000)
      && r.accessToken.payload == AccessPayload(userId, sessionId)
      && r.accessToken.secret == JwtSecret
      && r.accessToken.expiresAt == Some(now + 900_000)
      && r.accessToken.audience == r.refreshToken.audience == Some(["user"])
  {
    var step := CreateAccount(s, email, password, userAgent, now, sessionLifetime);
    var userId := s.nextId;
    assert userId !in s.users;
    assert step.after.users == s.users[userId := User(email, password, false)];
    assert UsersWithEmail(step.after.users, email) == {userId};
    assert (userId + 1) !in s.codes;
  }

  /** Registering the same email twice: the second call is a conflict and
      leaves the stores as the first call left them. */
  lemma RegisterTwiceConflicts(s: Stores, email: string, p1: string, p2: string,
                               a1: Option<string>, a2: Option<string>, t1: int, t2: int, lifetime: int)
    requires s.Valid()
    ensures var first := CreateAccount(s, email, p1, a1, t1, lifetime);
      CreateAccount(first.after, email, p2, a2, t2, lifetime)
        == Step(Failure(AppError(CONFLICT, "Email already in use", None)), first.after)
  {
    var first := CreateAccount(s, email, p1, a1, t1, lifetime);
    if !EmailInUse(s.users, email) {
      assert first.after.users[s.nextId].email == email;
    }
    assert EmailInUse(first.after.users, email);
  }

  // -----------------------------------------------------------------------
  // loginUser
  // -----------------------------------------------------------------------

  /** An unknown email is refused with the generic message, and nothing changes. */
  lemma LoginUnknownEmail(s: Stores, email: string, password: string, userAgent: Option<string>,
                          now: int, sessionLifetime: int)
    requires s.Valid() && !EmailInUse(s.users, email)
    ensures LoginUser(s, email, password, userAgent, now, sessionLifetime)
      == Step(Failure(AppError(UNAUTHORIZED, "Invalid Email or Password", None)), s)
  {
  }

  /** The password plays no part: any two passwords give the same outcome. */
  lemma LoginIgnoresPassword(s: Stores, email: string, p1: string, p2: string, userAgent: Option<string>,
                             now: int, sessionLifetime: int)
    requires s.Valid()
    ensures LoginUser(s, email, p1, userAgent, now, sessionLifetime)
         == LoginUser(s, email, p2, userAgent, now, sessionLifetime)
  {
  }

  /** A known email opens one new session for that user, so the session
      count grows by one; existing sessions, users and codes are untouched;
      the tokens are shaped as for a new account. */
  lemma LoginKnownEmail(s: Stores, email: string, password: string, userAgent: Option<string>,
                        now: int, sessionLifetime: int)
    requires s.Valid() && EmailInUse(s.users, email)
    ensures var step := LoginUser(s, email, password, userAgent, now, sessionLifetime);
      && step.result.Success?
      && var r := step.result.value;
      && var a := step.after;
      && var sessionId := r.refreshToken.payload.sessionId;
      && r.user.id in s.users && s.users[r.user.id].email == email
      && r.user == OmitPassword(r.user.id, s.users[r.user.id])
      && sessionId !in s.sessions
      && a.sessions == s.sessions[sessionId := Session(r.user.id, userAgent, now + sessionLifetime)]
      && |a.sessions| == |s.sessions| + 1
      && a.users == s.users && a.codes == s.codes
      && r.refreshToken == RefreshTokenFor(sessionId, now)
      && r.accessToken == AccessTokenFor(r.user.id, sessionId, now)
  {
    assert s.nextId !in s.sessions;
  }

  // -----------------------------------------------------------------------
  // refreshUserAccessToken
  // -----------------------------------------------------------------------

  /** A token that does not verify under the refresh secret is refused, and nothing changes. */
  lemma RefreshInvalidToken(s: Stores, refreshToken: Token, now: int)
    requires s.Valid() && VerifyToken(refreshToken, Some(RefreshVerifyOptions), now).Rejected?
    ensures RefreshUserAccessToken(s, refreshToken, now)
      == Step(Failure(AppError(UNAUTHORIZED, "Invalid refresh token", None)), s)
  {
  }

  /** A verified token whose session is gone or past its expiry is refused, and nothing changes. */
  lemma RefreshSessionExpired(s: Stores, refreshToken: Token, now: int)
    requires s.Valid() && VerifyToken(refreshToken, Some(RefreshVerifyOptions), now).Verified?
    requires var id := refreshToken.payload.sessionId;
      id !in s.sessions || s.sessions[id].expiresAt <= now
    ensures RefreshUserAccessToken(s, refreshToken, now)
      == Step(Failure(AppError(UNAUTHORIZED, "Session expired", None)), s)
  {
  }

  /** Rotation: a live session with at most a day left is extended to thirty
      days from now and a new refresh token for the same session is issued;
      otherwise the session is left as it is and no refresh token is issued.
      Either way an access token for the session's owner and the session is
      returned, and users and codes are untouched. */
  lemma RefreshLiveSession(s: Stores, refreshToken: Token, now: int)
    requires s.Valid() && VerifyToken(refreshToken, Some(RefreshVerifyOptions), now).Verified?
    requires var id := refreshToken.payload.sessionId;
      id in s.sessions && s.sessions[id].expiresAt > now
    ensures var id := refreshToken.payload.sessionId;
      var session := s.sessions[id];
      var step := RefreshUserAccessToken(s, refreshToken, now);
      && step.result.Success?
      && step.after.users == s.users && step.after.codes == s.codes
      && step.result.value.accessToken.payload == AccessPayload(session.userId, id)
      && step.result.value.accessToken.secret == JwtSecret
      && (session.expiresAt - now <= ONE_DAY_MS ==>
            && step.after.sessions == s.sessions[id := session.(expiresAt := now + 2_592_000_000)]
            && step.result.value.newRefreshToken.Some?
            && step.result.value.newRefreshToken.value.payload == RefreshPayload(id)
            && step.result.value.newRefreshToken.value.secret == JwtRefreshSecret)
      && (session.expiresAt - now > ONE_DAY_MS ==>
            step.after == s && step.result.value.newRefreshToken == None)
  {
  }

  /** An access token is never accepted as a refresh token. */
  lemma AccessTokenIsNoRefreshToken(s: Stores, userId: ObjectId, sessionId: ObjectId, signedAt: int, now: int)
    requires s.Valid()
    ensures RefreshUserAccessToken(s, AccessTokenFor(userId, sessionId, signedAt), now)
      == Step(Failure(AppError(UNAUTHORIZED, "Invalid refresh token", None)), s)
  {
  }

  // -----------------------------------------------------------------------
  // verifyEmail
  // -----------------------------------------------------------------------

  /** A missing, expired or wrongly typed code is "not found", and nothing changes. */
  lemma VerifyEmailInvalidCode(s: Stores, code: ObjectId, now: int)
    requires s.Valid() && !IsValidEmailCode(s.codes, code, now)
    ensures VerifyEmail(s, code, now)
      == Step(Failure(AppError(NOT_FOUND, "Invalid or expired verification code", None)), s)
  {
  }

  /** A valid code whose owner is missing fails as an internal error, and the
      code is not deleted. */
  lemma VerifyEmailMissingOwner(s: Stores, code: ObjectId, now: int)
    requires s.Valid() && IsValidEmailCode(s.codes, code, now) && s.codes[code].userId !in s.users
    ensures VerifyEmail(s, code, now)
      == Step(Failure(AppError(INTERNAL_SERVER_ERROR, "Failed to Verify Email", None)), s)
  {
  }

  /** A valid code marks its owner verified and is deleted; sessions and the
      other users and codes are kept. */
  lemma VerifyEmailValidCode(s: Stores, code: ObjectId, now: int)
    requires s.Valid() && IsValidEmailCode(s.codes, code, now) && s.codes[code].userId in s.users
    ensures var userId := s.codes[code].userId;
      var step := VerifyEmail(s, code, now);
      && step.result == Success(SafeUser(userId, s.users[userId].email, true))
      && step.after.users == s.users[userId := s.users[userId].(verified := true)]
      && step.after.codes.Keys == s.codes.Keys - {code}
      && (forall c :: c in step.after.codes ==> step.after.codes[c] == s.codes[c])
      && step.after.sessions == s.sessions
  {
  }

  /** Codes are single-use: after a successful verification the same code,
      at any later time, is "not found". */
  lemma VerifyEmailSingleUse(s: Stores, code: ObjectId, now: int, later: int)
    requires s.Valid()
    requires VerifyEmail(s, code, now).result.Success?
    ensures var first := VerifyEmail(s, code, now);
      VerifyEmail(first.after, code, later)
        == Step(Failure(AppError(NOT_FOUND, "Invalid or expired verification code", None)), first.after)
  {
    var first := VerifyEmail(s, code, now);
    assert code !in first.after.codes;
  }

  // -----------------------------------------------------------------------
  // A whole lifecycle
  // -----------------------------------------------------------------------

  /** Register, log in, refresh with the login's refresh token while its
      session is live, then verify the email with the code created at
      registration: the login gets a session different from the
      registration's, every step succeeds and the user ends up verified. */
  lemma Lifecycle(s: Stores, email: string, password: string, lifetime: int,
                  t0: int, t1: int, t2: int, t3: int)
    requires s.Valid() && !EmailInUse(s.users, email)
    requires t0 <= t1 <= t2 && t2 < t1 + lifetime && t2 < t1 + THIRTY_DAYS_MS
    requires t3 < t0 + ONE_YEAR_MS
    ensures var reg := CreateAccount(s, email, password, None, t0, lifetime);
      && reg.result.Success?
      && var login := LoginUser(reg.after, email, password, None, t1, lifetime);
      && login.result.Success?
      && login.result.value.refreshToken.payload.sessionId != reg.result.value.refreshToken.payload.sessionId
      && login.result.value.user.id == reg.result.value.user.id
      && var refresh := RefreshUserAccessToken(login.after, login.result.value.refreshToken, t2);
      && refresh.result.Success?
      && var verify := VerifyEmail(refresh.after, s.nextId + 1, t3);
      && verify.result == Success(SafeUser(reg.result.value.user.id, email, true))
      && reg.result.value.user.id in verify.after.users
      && verify.after.users[reg.result.value.user.id].verified
  {
    var userId, codeId, regSession, loginSession := s.nextId, s.nextId + 1, s.nextId + 2, s.nextId + 3;
    var reg := CreateAccount(s, email, password, None, t0, lifetime);
    CreateAccountFresh(s, email, password, None, t0, lifetime);
    assert reg.after.users[userId].email == email;
    assert reg.after.codes[codeId] == VerificationCode(userId, EmailVerification, t0 + ONE_YEAR_MS);

    LoginKnownEmail(reg.after, email, password, None, t1, lifetime);
    var login := LoginUser(reg.after, email, password, None, t1, lifetime);
    assert UserByEmail(reg.after.users, email) == userId;
    var token := login.result.value.refreshToken;
    assert token == RefreshTokenFor(loginSession, t1);
    assert login.after.sessions[loginSession].expiresAt == t1 + lifetime;

    SignVerifyRoundTrip(RefreshPayload(loginSession), RefreshTokenSignOptions, t1, t2);
    RefreshLiveSession(login.after, token, t2);
    var refresh := RefreshUserAccessToken(login.after, token, t2);

    assert refresh.after.codes == reg.after.codes && refresh.after.users == reg.after.users;
    VerifyEmailValidCode(refresh.after, codeId, t3);
  }

  // -----------------------------------------------------------------------
  // `refreshUserAccessToken` as written reads the time from a `now` imported
  // from utils/date.ts, a binding that file does not export.

  /** The imported time as a JavaScript number: the missing binding reads
      `undefined`, which a comparison converts to NaN. */
  datatype ImportedNow = NaN | Ms(value: int)

  /** `t > now`: false whenever `now` is NaN. */
  predicate After(t: int, now: ImportedNow) {
    now.Ms? && t > now.value
  }

  /** `t - now <= ONE_DAY_MS`: false whenever `now` is NaN. */
  predicate WithinOneDay(t: int, now: ImportedNow) {
    now.Ms? && t - now.value <= ONE_DAY_MS
  }

  /** The value the import holds in a build that does not check it. */
  const UndefinedNow: ImportedNow := NaN

  /** `refreshUserAccessToken` with the session checks made against the
      imported `now`, while the token library and `thirtyDaysFromNow` read the
      clock `clock`. With a `now` that is the clock it is exactly
      `RefreshUserAccessToken`. */
  function RefreshWithImportedNow(s: Stores, refreshToken: Token, clock: int, now: ImportedNow)
    : (step: Step<RefreshResponse>)
    requires s.Valid()
    ensures step.after.Valid()
    ensures now == Ms(clock) ==> step == RefreshUserAccessToken(s, refreshToken, clock)
  {
    var verified := VerifyToken(refreshToken, Some(RefreshVerifyOptions), clock);
    match Assert(verified.Verified?, UNAUTHORIZED, "Invalid refresh token", None)
    case Abort(e) => Step(Failure(e), s)
    case Continue =>
      var sessionId := verified.payload.sessionId;
      match Assert(sessionId in s.sessions && After(s.sessions[sessionId].expiresAt, now),
                   UNAUTHORIZED, "Session expired", None)
      case Abort(e) => Step(Failure(e), s)
      case Continue =>
        var session := s.sessions[sessionId];
        var needsRefresh := WithinOneDay(session.expiresAt, now);
        var after := if needsRefresh
                     then s.(sessions := s.sessions[sessionId := session.(expiresAt := ThirtyDaysFromNow(clock))])
                     else s;
        var newRefreshToken := if needsRefresh then Some(RefreshTokenFor(sessionId, clock)) else None;
        Step(Success(RefreshResponse(AccessTokenFor(session.userId, sessionId, clock), newRefreshToken)), after)
  }

  /** As written, no refresh succeeds: every call fails with UNAUTHORIZED and
      changes nothing, and a token that verifies is refused as "Session expired". */
  lemma RefreshAsWrittenAlwaysFails(s: Stores, refreshToken: Token, clock: int)
    requires s.Valid()
    ensures var step := RefreshWithImportedNow(s, refreshToken, clock, UndefinedNow);
      && step.after == s
      && step.result.Failure?
      && step.result.error.statusCode == UNAUTHORIZED
      && (VerifyToken(refreshToken, Some(RefreshVerifyOptions), clock).Verified? ==>
            step.result.error.message == "Session expired")
  {
  }

  /** A concrete input: a session with a minute left and its own refresh
      token, presented at once. The code as written refuses it; with the
      clock as `now` it is accepted and rotated. */
  lemma LiveSessionRefusedAsWritten(clock: int)
    ensures var s := Stores(map[], map[0 := Session(0, None, clock + 60_000)], map[], 1);
      && s.Valid()
      && RefreshWithImportedNow(s, RefreshTokenFor(0, clock), clock, UndefinedNow).result
           == Failure(AppError(UNAUTHORIZED, "Session expired", None))
      && RefreshUserAccessToken(s, RefreshTokenFor(0, clock), clock).result.Success?
  {
    var s := Stores(map[], map[0 := Session(0, None, clock + 60_000)], map[], 1);
    assert EmailsUnique(s.users);
    SignVerifyRoundTrip(RefreshPayload(0), RefreshTokenSignOptions, clock, clock);
    RefreshLiveSession(s, RefreshTokenFor(0, clock), clock);
  }
}
