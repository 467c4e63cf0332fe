/** The session manager of backend/src/services/auth.service.ts as a class
    over three mutable keyed stores. Each method performs the source's store
    reads and writes in order and is proved to leave the stores, and return
    the value, that the matching function of `AuthSpec` describes. */
module AuthService {
  import opened Wrappers
  import opened Http
  import opened AppErrors
  import opened AppAssert
  import opened Date
  import opened Jwt
  import opened AuthSpec

  class SessionManager {
    var users: map<ObjectId, User>
    var sessions: map<ObjectId, Session>
    var codes: map<ObjectId, VerificationCode>
    /** The store's id generator: the next `_id` it hands out. */
    var nextId: nat
    /** How long after creation a new session expires (set by the session
        model, which is not part of this model). */
    const sessionLifetime: int

    function Snapshot(): Stores
      reads this
    {
      Stores(users, sessions, codes, nextId)
    }

    ghost predicate Valid()
      reads this
    {
      Snapshot().Valid()
    }

    constructor (sessionLifetime: int)
      ensures Valid() && Snapshot() == Stores(map[], map[], map[], 0)
      ensures this.sessionLifetime == sessionLifetime
    {
      users, sessions, codes, nextId := map[], map[], map[], 0;
      this.sessionLifetime := sessionLifetime;
    }

    /** `createAccount({ email, password, userAgent })`. */
    method CreateAccount(email: string, password: string, userAgent: Option<string>, now: int)
      returns (r: Result<AuthResponse, AppError>)
      requires Valid()
      modifies this
      ensures Valid()
      ensures Step(r, Snapshot()) == AuthSpec.CreateAccount(old(Snapshot()), email, password, userAgent, now, sessionLifetime)
    {
      ghost var before := Snapshot();
      var existingUser := EmailInUse(users, email);
      var check := Assert(!existingUser, CONFLICT, "Email already in use", None);
      if check.Abort? {
        return Failure(check.error);
      }

      var userId := nextId;
      var user := User(email, password, false);
      users, nextId := users[userId := user], nextId + 1;

      var codeId := nextId;
      codes, nextId := codes[codeId := VerificationCode(userId, EmailVerification, OneYearFromNow(now))], nextId + 1;

      var sessionId := nextId;
      sessions, nextId := sessions[sessionId := Session(userId, userAgent, now + sessionLifetime)], nextId + 1;

      var refreshToken := SignToken(RefreshPayload(sessionId), Some(RefreshTokenSignOptions), now);
      var accessToken := SignToken(AccessPayload(userId, sessionId), None, now);
      r := Success(AuthResponse(OmitPassword(userId, user), accessToken, refreshToken));

      assert userId == before.nextId && codeId == userId + 1 && sessionId == userId + 2;
      CreateAccountUnfold(before, email, password, userAgent, now, sessionLifetime);
    }

    /** `loginUser({ email, password, userAgent })`. */
    method LoginUser(email: string, password: string, userAgent: Option<string>, now: int)
      returns (r: Result<AuthResponse, AppError>)
      requires Valid()
      modifies this
      ensures Valid()
      ensures Step(r, Snapshot()) == AuthSpec.LoginUser(old(Snapshot()), email, password, userAgent, now, sessionLifetime)
    {
      var found := EmailInUse(users, email);
      var check := Assert(found, UNAUTHORIZED, "Invalid Email or Password", None);
      if check.Abort? {
        return Failure(check.error);
      }
      var userId := UserByEmail(users, email);
      var user := users[userId];

      var sessionId := nextId;
      sessions, nextId := sessions[sessionId := Session(userId, userAgent, now + sessionLifetime)], nextId + 1;

      var refreshToken := SignToken(RefreshPayload(sessionId), Some(RefreshTokenSignOptions), now);
      var accessToken := SignToken(AccessPayload(userId, sessionId), None, now);
      r := Success(AuthResponse(OmitPassword(userId, user), accessToken, refreshToken));
    }

    /** `refreshUserAccessToken(refreshToken)`. */
    method RefreshUserAccessToken(refreshToken: Token, now: int)
      returns (r: Result<RefreshResponse, AppError>)
      requires Valid()
      modifies this
      ensures Valid()
      ensures Step(r, Snapshot()) == AuthSpec.RefreshUserAccessToken(old(Snapshot()), refreshToken, now)
    {
      var verified := VerifyToken(refreshToken, Some(RefreshVerifyOptions), now);
      var check := Assert(verified.Verified?, UNAUTHORIZED, "Invalid refresh token", None);
      if check.Abort? {
        return Failure(check.error);
      }

      var sessionId := verified.payload.sessionId;
      check := Assert(sessionId in sessions && sessions[sessionId].expiresAt > now, UNAUTHORIZED, "Session expired", None);
      if check.Abort? {
        return Failure(check.error);
      }
      var session := sessions[sessionId];

      var sessionNeedsRefresh := session.expiresAt - now <= ONE_DAY_MS;
      if sessionNeedsRefresh {
        session := session.(expiresAt := ThirtyDaysFromNow(now));
        sessions := sessions[sessionId := session];
      }

      var newRefreshToken := if sessionNeedsRefresh
                             then Some(SignToken(RefreshPayload(sessionId), Some(RefreshTokenSignOptions), now))
                             else None;
      var accessToken := SignToken(AccessPayload(session.userId, sessionId), None, now);
      r := Success(RefreshResponse(accessToken, newRefreshToken));
    }

    /** `verifyEmail(code)`. */
    method VerifyEmail(code: ObjectId, now: int) returns (r: Result<SafeUser, AppError>)
      requires Valid()
      modifies this
      ensures Valid()
      ensures Step(r, Snapshot()) == AuthSpec.VerifyEmail(old(Snapshot()), code, now)
    {
      var validCode := IsValidEmailCode(codes, code, now);
      var check := Assert(validCode, NOT_FOUND, "Invalid or expired verification code", None);
      if check.Abort? {
        return Failure(check.error);
      }

      var userId := codes[code].userId;
      var updated := userId in users;
      if updated {
        users := users[userId := users[userId].(verified := true)];
      }
      check := Assert(updated, INTERNAL_SERVER_ERROR, "Failed to Verify Email", None);
      if check.Abort? {
        return Failure(check.error);
      }

      codes := codes - {code};
      r := Success(OmitPassword(userId, users[userId]));
    }
  }

  /** Two verifications with the same code on one manager: the second is
      "not found" and changes nothing. */
  method VerifyTwice(m: SessionManager, code: ObjectId, now: int, later: int)
    returns (first: Result<SafeUser, AppError>, second: Result<SafeUser, AppError>)
    requires m.Valid()
    modifies m
    ensures first.Success? ==>
      second == Failure(AppError(NOT_FOUND, "Invalid or expired verification code", None))
    ensures first.Success? ==> m.Snapshot() == AuthSpec.VerifyEmail(old(m.Snapshot()), code, now).after
  {
    ghost var before := m.Snapshot();
    first := m.VerifyEmail(code, now);
    second := m.VerifyEmail(code, later);
    if first.Success? {
      VerifyEmailSingleUse(before, code, now, later);
    }
  }
}
