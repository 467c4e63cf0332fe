# Authentication session manager of QUIZZY, modelled in Dafny

This project models the backend authentication core of QUIZZY and two small
parsers of its check-in scanner page:

- the session manager (`createAccount`, `loginUser`, `refreshUserAccessToken`,
  `verifyEmail`) working on three keyed stores: users, sessions and
  email-verification codes;
- the token codec (`signToken`, `verifyToken`, the access and refresh sign
  options, the default audience "user");
- the assert-or-abort primitive `appAssert` and the `AppError` record;
- the HTTP status-code constants and their union type;
- the date helpers (one year, thirty days, fifteen minutes, one day);
- the request schemas `loginSchema` and `registerSchema`;
- the scanner's QR payload parser `extractParticipantId`, the custom-day
  rule and the quick-select day range.

Files, one module each: `wrappers.dfy` (Option, Result), `http.dfy` (Http),
`app_error.dfy` (AppErrors), `app_assert.dfy` (AppAssert), `date.dfy` (Date),
`jwt.dfy` (Jwt), `auth_model.dfy` (AuthSchemas), `auth_spec.dfy` (AuthSpec),
`auth_service.dfy` (AuthService), `demo.dfy` (ScanQr).

The session manager appears twice, on purpose. `AuthSpec` states each
operation as a function from the stores before the call to the value
returned (or the `AppError` thrown) and the stores after it; the lemmas
beside those functions state what the service promises. `AuthService.SessionManager`
is a class whose fields are the three maps and the store's id generator; its
methods perform the source's store reads and writes in order, and each is
proved to agree with its `AuthSpec` function. Every precondition check goes
through `AppAssert.Assert`, as in the source.

Modelling decisions:

- The clock is the explicit parameter `now` (milliseconds). The service file
  imports a `now` that `utils/date.ts` does not export, and `verifyEmail`
  reads `new Date()`; both become `now`, as does every `Date.now()` in the
  date helpers called during the same operation. That import is a type
  error at backend/src/services/auth.service.ts:8; in a build that does not
  check types it reads `undefined`, and then no refresh ever succeeds (see
  the findings below). `AuthSpec.RefreshUserAccessToken`, and the lemmas about a
  successful refresh, describe the evidently intended code that compares with
  the current time.
- The store hands out fresh ids from a counter (`nextId`); `Stores.Valid`
  says every id in use is below it and that no two users share an email (the
  store's uniqueness constraint, which `createAccount` keeps).
- The session model that sets a new session's `expiresAt`, the user model
  that hashes passwords and implements `omitPassword`, and the
  verification-code type enumeration are not part of this model. A new
  session expires `sessionLifetime` after creation (a constructor
  parameter); the stored password is what the service passes to the store;
  `omitPassword` yields `SafeUser` (id, email, verified).
- A token is a value recording its payload, the secret it was signed with,
  its audience and its expiry. Verification checks, in the signing library's
  order, the secret, then the expiry (a token is expired from its expiry
  instant on), then that some audience of the token is expected. The two
  configured secrets are two distinct values.
- The email-format test of the schema library is the parameter `isEmail`.

What the code itself does, where its comments or names suggest otherwise:
the comment at backend/src/services/auth.service.ts:93 announces a password
check, but `loginUser` never compares the password, so any password works
for a registered email; emails are looked up exactly as given, without case
folding; a refresh that finds its session expired refuses it but does not
delete it; the service defines no logout operation.

## Model

| member | source | states |
|---|---|---|
| `Http.ClassOf` | backend/src/constants/http.ts:4-29 | each listed constant is a success code exactly when it lies in 200..299, a redirection in 300..399, a client error in 400..499, a server error in 500..599 |
| `Http.StatusCodesDistinct` | backend/src/constants/http.ts:34-54 | a code is in the `HttpStatusCode` union exactly when it is one of the listed constants; the union has exactly twenty members, pairwise distinct |
| `Http.ManagerCodes` | backend/src/constants/http.ts:15-25 | UNAUTHORIZED is 401, NOT_FOUND 404, CONFLICT 409, INTERNAL_SERVER_ERROR 500, all members of the union |
| `AppErrors.NewAppError` | backend/src/utils/appError.ts:4-12 | the error keeps status code and message as given, has no code when none is supplied, and its base message is the message |
| `AppAssert.Assert` | backend/src/utils/appAsert.ts:7-22 | returns normally exactly when the condition holds (so the caller may rely on it); otherwise aborts with an error carrying the given status, message and optional code unchanged |
| `AppAssert.OmittedCodeIsAbsent` | backend/src/utils/appAsert.ts:15-21 | a failed assertion without a code throws the same error as `new AppError(status, message)` |
| `Date.OneYearFromNow` | backend/src/utils/date.ts:2-4 | one year from now is now + 31,536,000,000 ms |
| `Date.ThirtyDaysFromNow` | backend/src/utils/date.ts:7-9 | thirty days from now is now + 2,592,000,000 ms |
| `Date.FifteenMinutesFromNow` | backend/src/utils/date.ts:17-21 | moving a fresh date's minute field on by 15 with `setMinutes` gives now + 900,000 ms |
| `Date.OffsetsOrdered` | backend/src/utils/date.ts:1-24 | ONE_DAY_MS is 86,400,000 and fifteen minutes < one day < thirty days < one year |
| `Jwt.SignToken` | backend/src/utils/jwt.ts:21-47 | the token carries the payload; with no options the secret is `JWT_SECRET` and the lifetime 15 minutes; otherwise the caller's secret and lifetime; the audience is ["user"] unless the caller's options set one |
| `Jwt.VerifyToken` | backend/src/utils/jwt.ts:68-85 | returns the payload exactly when the token was signed with the given secret (`JWT_SECRET` when none), is not expired and shares an audience with the expected one (["user"] unless overridden); every failure is a returned value |
| `Jwt.SignOptionsDiffer` | backend/src/utils/jwt.ts:25-34 | the access options use a different secret from the refresh options; lifetimes are 15 minutes and 30 days |
| `Jwt.SignVerifyRoundTrip` | backend/src/utils/jwt.ts:37-85 | a token signed with given options verifies under their secret and the default audience before its expiry, giving back the payload, and is refused as expired from then on |
| `Jwt.WrongSecretRejected` | backend/src/utils/jwt.ts:41-43 | a token verified under a secret other than the one it was signed with is refused with an invalid signature |
| `Jwt.AccessTokenRoundTrip` | backend/src/utils/jwt.ts:41-47 | a token signed with no options verifies with no options for exactly fifteen minutes |
| `Jwt.ForeignAudienceRejected` | backend/src/utils/jwt.ts:44-45 | caller options spread after the defaults can replace the audience, and such a token fails the default verification |
| `AuthSchemas.LengthIssues` | backend/src/models/auth.model.ts:4-5 | a string field has no length issue exactly when its length is within the bounds |
| `AuthSchemas.EmailIssues` | backend/src/models/auth.model.ts:4 | an email has no issue exactly when it is well-formed and 5 to 25 characters long |
| `AuthSchemas.PasswordIssues` | backend/src/models/auth.model.ts:5 | a password has no issue exactly when it is 6 to 256 characters long |
| `AuthSchemas.ParseLogin` | backend/src/models/auth.model.ts:9-14 | accepts exactly the inputs with a valid email, password and confirmPassword, unchanged, whether or not the passwords agree, whatever the user agent |
| `AuthSchemas.ParseRegister` | backend/src/models/auth.model.ts:18-26 | accepts exactly the valid inputs whose two passwords are equal; a mismatch is always reported at ["confirmPassword"] with "Passwordds do not match" |
| `AuthSchemas.UserAgentIrrelevant` | backend/src/models/auth.model.ts:13 | the optional user agent never decides acceptance, in either schema |
| `AuthSchemas.RegisterNarrowsLogin` | backend/src/models/auth.model.ts:18-26 | what the register schema accepts the login schema accepts; they differ only on mismatched passwords |
| `AuthSpec.UserByEmail` | backend/src/services/auth.service.ts:90 | on a store with unique emails, the user found by email is the only one with that email |
| `AuthSpec.CreateAccount` | backend/src/services/auth.service.ts:19-77 | creating an account keeps the store invariant (ids below the generator, unique emails) |
| `AuthSpec.LoginUser` | backend/src/services/auth.service.ts:88-127 | logging in keeps the store invariant |
| `AuthSpec.RefreshUserAccessToken` | backend/src/services/auth.service.ts:132-168 | refreshing keeps the store invariant |
| `AuthSpec.VerifyEmail` | backend/src/services/auth.service.ts:174-202 | verifying an email keeps the store invariant |
| `AuthSpec.CreateAccountUnfold` | backend/src/services/auth.service.ts:32-76 | for a new email the call succeeds with user id, code id and session id the next three generated ids in creation order, the generator advanced by three, and the three new entries added to otherwise unchanged stores |
| `AuthSpec.CreateAccountDuplicate` | backend/src/services/auth.service.ts:21-26 | a used email fails with CONFLICT "Email already in use" and no store changes |
| `AuthSpec.CreateAccountFresh` | backend/src/services/auth.service.ts:32-76 | a new email adds exactly one unverified user with it, one email-verification code for that user expiring in 365 days and one session for that user with the given agent, keeping every other entry; the refresh token carries only the new session id under the refresh secret for 30 days, the access token the user and session ids under the access secret for 15 minutes, both for audience "user"; the user is returned without password |
| `AuthSpec.RegisterTwiceConflicts` | backend/src/services/auth.service.ts:21-35 | registering the same email again is a conflict that leaves the stores as they were |
| `AuthSpec.LoginUnknownEmail` | backend/src/services/auth.service.ts:90-91 | an email no user has fails with UNAUTHORIZED "Invalid Email or Password" and no store changes |
| `AuthSpec.LoginIgnoresPassword` | backend/src/services/auth.service.ts:88-95 | the outcome of a login does not depend on the password |
| `AuthSpec.LoginKnownEmail` | backend/src/services/auth.service.ts:94-126 | a known email adds one fresh session for that user, so the session count grows by one, leaves users, codes and other sessions untouched, and returns refresh and access tokens for the new session and the user without password |
| `AuthSpec.RefreshInvalidToken` | backend/src/services/auth.service.ts:133-137 | a token that does not verify under the refresh secret fails with UNAUTHORIZED "Invalid refresh token" and nothing changes |
| `AuthSpec.RefreshSessionExpired` | backend/src/services/auth.service.ts:139-143 | a verified token whose session is missing or has `expiresAt <= now` fails with UNAUTHORIZED "Session expired" and nothing changes |
| `AuthSpec.RefreshLiveSession` | backend/src/services/auth.service.ts:146-167 | with at most one day left the session's expiry becomes now + 30 days and a new refresh token for the same session is returned; otherwise the stores are unchanged and no refresh token is returned; an access token for the session's user and id is always returned; users and codes never change |
| `AuthSpec.AccessTokenIsNoRefreshToken` | backend/src/services/auth.service.ts:133-137 | an access token presented as refresh token is refused as an invalid refresh token |
| `AuthSpec.VerifyEmailInvalidCode` | backend/src/services/auth.service.ts:176-182 | a code that is missing, expired or of another type fails with NOT_FOUND "Invalid or expired verification code" and nothing changes |
| `AuthSpec.VerifyEmailMissingOwner` | backend/src/services/auth.service.ts:186-195 | a valid code whose user is missing fails with INTERNAL_SERVER_ERROR "Failed to Verify Email" and the code is not deleted |
| `AuthSpec.VerifyEmailValidCode` | backend/src/services/auth.service.ts:186-201 | a valid code sets its user's `verified` to true, is deleted, leaves sessions and other entries alone, and returns the verified user |
| `AuthSpec.VerifyEmailSingleUse` | backend/src/services/auth.service.ts:176-197 | after a successful verification the same code is not found at any later time |
| `AuthSpec.Lifecycle` | backend/src/services/auth.service.ts:19-202 | register, log in, refresh with the login's refresh token while its session lives, verify with the registration's code: all succeed, the login's session differs from the registration's, and the user ends verified |
| `AuthService.SessionManager.CreateAccount` | backend/src/services/auth.service.ts:19-77 | checks the email, then creates user, code and session one after another; the result and the new stores are those of `AuthSpec.CreateAccount`, and the store invariant is kept |
| `AuthService.SessionManager.LoginUser` | backend/src/services/auth.service.ts:88-127 | looks the user up and creates a session; result and new stores as `AuthSpec.LoginUser` |
| `AuthService.SessionManager.RefreshUserAccessToken` | backend/src/services/auth.service.ts:132-168 | verifies, checks the session, updates its expiry in place when near expiry; result and new stores as `AuthSpec.RefreshUserAccessToken` |
| `AuthService.SessionManager.VerifyEmail` | backend/src/services/auth.service.ts:174-202 | finds the code, updates the user, deletes the code; result and new stores as `AuthSpec.VerifyEmail` |
| `AuthService.VerifyTwice` | backend/src/services/auth.service.ts:174-202 | on one manager, a second verification with a code that just succeeded fails with NOT_FOUND and leaves the stores as the first verification left them |
| `AuthSpec.RefreshWithImportedNow` | backend/src/services/auth.service.ts:132-168 | the refresh with its two session comparisons made against the imported `now` (NaN when undefined, so every comparison is false); when `now` is the clock it is exactly `AuthSpec.RefreshUserAccessToken`, and the store invariant is kept |
| `AuthSpec.RefreshAsWrittenAlwaysFails` | backend/src/services/auth.service.ts:8 | with `now` undefined every refresh fails with UNAUTHORIZED and changes nothing; a refresh token that verifies is refused as "Session expired" |
| `AuthSpec.LiveSessionRefusedAsWritten` | backend/src/services/auth.service.ts:139-143 | a session with a minute left, presented with its own fresh refresh token: refused as "Session expired" as written, accepted when compared with the clock |
| `ScanQr.Split` | frontend/src/demo.tsx:114 | `split(":")` yields at least one piece and no piece contains the separator |
| `ScanQr.JoinSplit` | frontend/src/demo.tsx:114 | joining the pieces with the separator restores the input |
| `ScanQr.SplitJoin` | frontend/src/demo.tsx:114 | splitting separator-free pieces joined by the separator gives them back |
| `ScanQr.ExtractParticipantId` | frontend/src/demo.tsx:111-126 | with a colon, an id is returned exactly when the first piece is "participant" and there are at least three pieces, otherwise null; without a colon the input itself is returned exactly when it is longer than 10 and all ASCII letters and digits; a returned id has no colon and is the input or the part after "participant:" |
| `ScanQr.ParticipantFormatRoundTrip` | frontend/src/demo.tsx:113-117 | "participant:" + id + ":" + anything yields id for any colon-free id, extra parts ignored |
| `ScanQr.EmptyIdExample` | frontend/src/demo.tsx:116 | "participant::x" yields the empty id |
| `ScanQr.ScannedParticipant` | frontend/src/demo.tsx:130-135 | the caller proceeds only with a non-empty id; null and "" both mean keep scanning |
| `ScanQr.TrimStart` | frontend/src/demo.tsx:459 | `parseInt` skips exactly the leading white space |
| `ScanQr.DigitPrefix` | frontend/src/demo.tsx:459 | `parseInt` reads the longest run of digits |
| `ScanQr.NatToStringDigits` | frontend/src/demo.tsx:461 | `day.toString()` is a non-empty digit string without leading zero denoting the day |
| `ScanQr.ParseIntNatToString` | frontend/src/demo.tsx:459-461 | `parseInt(day.toString(), 10)` is the day again |
| `ScanQr.AcceptCustomDay` | frontend/src/demo.tsx:470-477 | a custom day is accepted exactly when `parseInt(customDay, 10) > 0`; the selected day is a canonical decimal string denoting the same number |
| `ScanQr.EnterMatchesButton` | frontend/src/demo.tsx:457-463 | the Enter key selects the same day as the button |
| `ScanQr.EnabledButRejected` | frontend/src/demo.tsx:470-479 | the enabled button rejects (and warns) exactly for a non-empty input that is not a number |
| `ScanQr.AcceptIdempotent` | frontend/src/demo.tsx:459-462 | entering the selected day again selects the same day |
| `ScanQr.LeadingZerosDropped` | frontend/src/demo.tsx:471-473 | "007" selects day "7" |
| `ScanQr.QuickSelectDays` | frontend/src/demo.tsx:427 | the quick-select buttons are the days 1 to min(maxDay, 15), increasing, none for a negative bound |
| `ScanQr.QuickSelectForMaxDay` | frontend/src/demo.tsx:24-432 | with maxDay 10 the buttons are days 1..10, and each such day is also accepted as a custom day, giving the same string |

## Findings

| source | as written | input that shows it | evidently intended | confidence | as-written member | corrected member |
|---|---|---|---|---|---|---|
| backend/src/services/auth.service.ts:139-146 | `now` is imported (line 8) from utils/date.ts, which exports no `now`; unchecked, it reads `undefined`, so `expiresAt > now` is always false | any refresh token that verifies, for a session that is still live, e.g. a session with a minute left and its own refresh token | compare the session's expiry with the current time, as `Date.now()` | not executed; a type-checked build rejects line 8 instead | `AuthSpec.RefreshAsWrittenAlwaysFails` | `AuthSpec.RefreshLiveSession` |

## Left out

- Logout: no logout operation exists in the code (the routes name handlers the controller does not define), so there is nothing to model.
- HTTP wiring, controllers, routes, cookies, the database connection and the email templates: transport and I/O around the core.
- Token encoding and cryptography: tokens are values, not signed strings, so malformed token strings, base64 and HMAC are not modelled; the lifetimes "15m" and "30d" are given directly in milliseconds, and the token expiry keeps millisecond precision where the library rounds to whole seconds.
- Jwt.VerifyToken: the library returns the decoded claims (the ids as strings, plus `iat`, `exp` and `aud`), not the signed object; the model's `Verified(payload)` stands for those claims' session and user ids only.
- Jwt.SignVerifyRoundTrip: "gives back the payload" holds for the ids the payload carries, not for the decoded object the library returns (see the line above).
- `verifyToken` error messages: the library's message texts are represented by the three reasons InvalidSignature, TokenExpired and AudienceInvalid.
- The two secrets come from environment variables that are not part of this model; they are modelled as two distinct values.
- Password hashing, `omitPassword`, the session's default expiry and the verification-code types live in the store models, which are not part of this model; they are the parameters described above, and nothing is claimed about hashing.
- A verification code given as a string that is not a valid store id makes the store throw before the service's checks; codes are store ids here, so that path is not modelled.
- Concurrency: two registrations racing for one email, and atomicity across the user, code and session writes of `createAccount`, are storage concerns.
- Logging (`console.log`) has no effect on the model.
- Date.FifteenMinutesFromNow: minutes are read in UTC, so local-time effects of `setMinutes` across a daylight-saving change are not modelled.
- AuthSchemas: string lengths count characters, while the schema library counts UTF-16 code units, so strings with characters outside the Basic Multilingual Plane are measured differently; unknown keys, non-string fields and the library's message texts are not modelled.
- ScanQr.ParseInt: results are exact integers; the rounding of digit strings beyond 2^53 and the sign of -0 are not modelled.
- ScanQr.NatToString: JavaScript writes numbers of 10^21 and above in exponential form ("1e+21"); the model writes all their digits.
- ScanQr.AcceptCustomDay: the promise that the selected day is all digits holds on the page only below 10^21; from "1000000000000000000000" on, the page selects an exponential string such as "1e+21".
- The rest of the scanner page (camera, QR decoding, timers, React state, toasts and the check-in calls) is UI and foreign calls.
