# node-auth-api, modelled in Dafny

This project models the authentication core of node-auth-api. It is an Express
and MongoDB service with these parts:

- registration, with a verification code sent by email;
- email verification;
- forgot-password and reset-password, with a single-use reset code sent by email;
- login, which creates a session and returns an RS256 access token (15 minutes)
  and a refresh token (1 year) naming that session;
- access-token refresh, which checks that the session is still valid;
- the `deserializeUser`/`requireUser` pair guarding `GET /api/users/me`.

Layout, one module per source file or concern:

| file | module | models |
|---|---|---|
| `wrappers.dfy` | `Wrappers` | `Option`, `Result` |
| `argon2.dfy` | `Argon2` | the argon2 hash as an ideal one-way function: a digest remembers its preimage and salt, and `verify` on a value that is not a digest fails like the library's throw |
| `bson.dfy` | `Bson` | ObjectIds, document values, lodash `omit`, the decimal id text put in emails |
| `user_model.dfy` | `UserModel` | the user document, `privateFields`, the `lowercase`/`required`/`default` options, the pre-save hook, `validatePassword`, `toJSON` |
| `session_model.dfy` | `SessionModel` | the session document and its `valid: true` default |
| `store.dfy` | `Store` | the MongoDB collections: `Db` is their value, with the unique email index as a map; `Database` is a class with the same fields whose methods are proved against the `Db` functions |
| `mail.dfy` | `Mail` | the mailer, as a log of handed-over emails |
| `http.dfy` | `Http` | responses, `res.locals`, and a handler's outcome |
| `jwt.dfy` | `Jwt` | `signJwt`/`verifyJwt` over an abstract codec `KeyStore` |
| `auth_service.dfy` | `AuthService` | `createSession`, `findSessionById`, `signRefreshToken`, `signAccessToken` |
| `user_controller.dfy` | `UserController`, `UserControllerProperties` | the five account handlers, and what they promise |
| `auth_controller.dfy` | `AuthController`, `AuthControllerProperties` | login and refresh, and what they promise |
| `middleware.dfy` | `Middleware` | `deserializeUser`, `requireUser`, and the `/api/users/me` route |
| `lifecycle.dfy` | `Lifecycle` | all routes as one request type, sequences of requests, and invariants over any sequence |

Each handler appears twice:

- as an imperative method over the `Database` object and the `Mailer`;
- as a function over the database value that returns the new database, the
  response and the emails sent.

Each method's postcondition says that what it did, answered and mailed equals
that function. The lemmas state the handler's promises about the function.

Where a handler needs randomness or the clock, the value is a parameter:
`code` for `nanoid()`, `salt` for argon2's salt, `now` for the JWT clock.

JWT signatures are a codec `KeyStore(encode, decode)`. `Sound(keys)` says
that decoding an encoded token gives it back and that no token encodes to "".
It is a precondition of the round-trip lemmas, never an axiom. Every rejection
lemma (wrong key, expired, empty token) needs it or nothing at all.

Three behaviours of the code are kept as written:

- Reset codes never expire: a reset code is refused only when it is absent,
  empty or different from the one sent.
- A reset whose new password is empty fails mongoose's `required` validator.
  Nothing catches the rejected `save()`, so the handler sends no response
  (`Response.Unhandled`) instead of a typed failure.
- `forgotPasswordHandler` answers "User is not verified" to an unverified
  account. This reveals that the account exists, and the model keeps it.

## Model

| member | source | states |
|---|---|---|
| Argon2.Hash | src/model/user.model.ts:34 | hashing always yields a digest |
| Argon2.VerifyHashOfPlain | src/model/user.model.ts:33-36 | a digest of a plaintext verifies that plaintext and no other string, whatever the salt |
| Argon2.Verify | src/model/user.model.ts:74 | argon2 fails (throws) exactly when the stored value is not a digest; what a digest verifies is stated by `VerifyHashOfPlain` |
| Bson.Omit | src/service/auth.service.ts:57 | `omit` keeps exactly the keys not listed, each with its old value |
| Bson.IdText | src/controller/user.controller.ts:47 | the id text interpolated into an email is never empty |
| UserModel.Lower | src/model/user.model.ts:50 | the `lowercase` setter keeps the length and folds each letter |
| UserModel.LowerNormalizes | src/model/user.model.ts:50 | a lower-cased email has no upper-case letter, and lower-casing it again changes nothing |
| UserModel.NewUser | src/model/user.model.ts:50-69 | a new document has the lower-cased (hence lower-case) email, the plaintext password still to be hashed, the generated code, `verified` false and no reset code |
| UserModel.MeetsRequired | src/model/user.model.ts:50-63 | the `required` fields may not be empty; it decides the validation errors of `Db.CreateUser` and `Db.SaveUser` |
| UserModel.ToJson | src/service/auth.service.ts:57 | `toJSON` holds every private field, so `omit` has them to drop, and carries the id, email and names unchanged |
| UserModel.ValidatePassword | src/model/user.model.ts:71-79 | a password can validate only against a stored digest; a stored plaintext makes argon2 throw and the answer false |
| UserModel.PreSave | src/model/user.model.ts:26-39 | an unmodified password leaves the document untouched; a modified one becomes a digest, nothing else changes, and the new digest validates exactly the assigned plaintext |
| Store.Db.FindUserById | src/controller/user.controller.ts:79 | the lookup by id finds the stored user exactly when the id is stored |
| Store.Db.FindSessionById | src/service/auth.service.ts:16-18 | the lookup by id finds the stored session exactly when the id is stored |
| Store.Db.FindUserByEmail | src/controller/user.controller.ts:121 | the lookup goes through the lower-case setter: it finds the user whose email is the lower-cased query, and finds nothing only if no user has it |
| Store.Db.CreateUser | src/model/user.model.ts:49-69 | creation fails with a validation error exactly when a required field is empty, and with duplicate key 11000 exactly when the document is valid and its lower-cased email is taken; on success it adds one unverified user under a fresh id, with the generated code, no reset code, the lower-cased email and a digest that validates exactly the given password, and the index stays consistent |
| Store.Db.SaveUser | src/model/user.model.ts:26-39 | a save succeeds exactly when the document meets `required`, and then writes the document after the pre-save hook and changes nothing else |
| Store.Db.InsertSession | src/model/session.model.ts:7-13 | a new session goes under an id used by no session and no user, and the users are untouched |
| Store.Database.CreateUser | src/model/user.model.ts:49-69 | the in-place insert into the collections does what `Db.CreateUser` says, and leaves the database unchanged on failure |
| Store.Database.SaveUser | src/model/user.model.ts:26-39 | the in-place save does what `Db.SaveUser` says, and leaves the database unchanged on failure |
| Store.Database.InsertSession | src/model/session.model.ts:7-13 | the in-place insert does what `Db.InsertSession` says |
| Mail.Mailer.SendEmail | src/controller/user.controller.ts:43-48 | each email handed over is appended to what was sent, and sending never fails towards the caller |
| Jwt.VerifyingKeyOf | src/utils/jwt.ts:15-58 | each private key name pairs with the public key name that verifies its tokens |
| Jwt.SignJwt | src/utils/jwt.ts:15-33 | under a sound codec, the token is non-empty and decodes to exactly what `Mint` built |
| Jwt.EffectiveOptions | src/utils/jwt.ts:27-32 | `algorithm: "RS256"` written after the spread wins over any caller option, and `expiresIn` passes through |
| Jwt.Mint | src/utils/jwt.ts:15-33 | a signed token carries the payload, iat = now, exp = now + expiresIn when given, the RS256 algorithm and the named private key |
| Jwt.VerifyJwt | src/utils/jwt.ts:41-58 | a claim set comes back only from a token that decodes, names the private key paired with the given public key, and has not expired |
| Jwt.SignThenVerify | src/utils/jwt.ts:15-58 | under a sound codec, a signed token verifies under the paired public key to exactly its claims until it expires |
| Jwt.OtherKeyRejects | src/utils/jwt.ts:41-58 | under a sound codec, a token signed with one key is rejected by the other key's public key |
| Jwt.ExpiredRejected | src/utils/jwt.ts:41-58 | under a sound codec, no token verifies once its exp has passed |
| AuthService.CreateSessionIn | src/service/auth.service.ts:12-14 | a new session is valid, belongs to the given user, sits under a fresh id, and leaves users and index alone |
| AuthService.CreateSession | src/service/auth.service.ts:12-14 | the in-place session insert does what `CreateSessionIn` says |
| SessionModel.NewSession | src/model/session.model.ts:11-12 | a created session takes the `valid: true` default; `CreateSessionIn` and `LoginCreatesOneSession` state what is stored |
| AuthService.RefreshPayload | src/service/auth.service.ts:38 | the refresh payload names the session and holds no private field; `SessionIdOfRefreshPayload` reads the id back |
| AuthService.RefreshToken | src/service/auth.service.ts:37-43 | under a sound codec, the refresh token decodes to the session payload, signed with the refresh private key under RS256, issued now and expiring one year later |
| AuthService.SignAccessToken | src/service/auth.service.ts:55-66 | under a sound codec, the access token decodes to the access payload, signed with the access private key under RS256, issued now and expiring 15 minutes later |
| AuthService.IssueRefreshToken | src/service/auth.service.ts:27-47 | issuing a refresh token adds exactly one fresh valid session for the user, and the token names it |
| AuthService.SignRefreshToken | src/service/auth.service.ts:27-47 | the in-place version does what `IssueRefreshToken` says |
| AuthService.AccessPayload | src/service/auth.service.ts:55-57 | the access-token payload is exactly the id, email, first and last name, and holds none of the private fields |
| AuthService.AccessTokenVerifies | src/service/auth.service.ts:55-66 | under a sound codec, an access token verifies to the access payload strictly before 15 minutes have passed, and not after |
| AuthService.RefreshTokenVerifies | src/service/auth.service.ts:27-47 | under a sound codec, a refresh token verifies to its session id strictly before one year has passed, and never under the access public key |
| UserController.Register | src/controller/user.controller.ts:31-61 | registration keeps the database consistent |
| UserController.CreateUserHandler | src/controller/user.controller.ts:31-61 | the handler's store change, response and mail are those of `Register` |
| UserController.Verify | src/controller/user.controller.ts:69-102 | verification keeps the database consistent and sends no mail |
| UserController.VerifyUserHandler | src/controller/user.controller.ts:69-102 | the handler's store change and response are those of `Verify` |
| UserController.ForgotPassword | src/controller/user.controller.ts:111-155 | forgot-password keeps the database consistent |
| UserController.ForgotPasswordHandler | src/controller/user.controller.ts:111-155 | the handler's store change, response and mail are those of `ForgotPassword` |
| UserController.ResetPassword | src/controller/user.controller.ts:164-196 | reset keeps the database consistent and sends no mail |
| UserController.ResetPasswordHandler | src/controller/user.controller.ts:164-196 | the handler's store change and response are those of `ResetPassword` |
| UserControllerProperties.VerificationEmailMentions | src/controller/user.controller.ts:43-48 | the verification email goes to the user's address and its text contains the code and the id |
| UserControllerProperties.ResetEmailMentions | src/controller/user.controller.ts:144-149 | the reset email goes to the user's address and its text contains the new code and the id |
| UserControllerProperties.RegisterConflict | src/controller/user.controller.ts:52-57 | registration answers 409 exactly when the document is valid and its lower-cased email is taken, and then stores and mails nothing |
| UserControllerProperties.RegisterCreates | src/controller/user.controller.ts:38-51 | a successful registration adds one unverified user under a fresh id, with the generated code, the lower-cased email and a digest validating exactly the given password, and sends one email to that address that contains the code and the id |
| UserControllerProperties.RegisterTwice | src/model/user.model.ts:50 | a second registration of the same email in any case is a 409 that changes nothing, and one account holds that email |
| UserControllerProperties.VerifyOutcomes | src/controller/user.controller.ts:79-101 | an unknown id, an already verified user (whatever the code) and a wrong code change nothing; the right code sets only `verified` |
| UserControllerProperties.VerifyIdempotent | src/controller/user.controller.ts:87-89 | verifying again after success answers "already verified" and changes nothing |
| UserControllerProperties.ForgotPasswordOutcomes | src/controller/user.controller.ts:121-154 | an unknown email gets the generic message and an unverified user its own message, with no change and no mail; a verified user gets the generic message, and the new code replaces any old one and is mailed to that user |
| UserControllerProperties.ResetPasswordOutcomes | src/controller/user.controller.ts:174-195 | a missing user or a missing, empty or different stored code is refused with 400 and no change; otherwise an empty password makes the save reject, and any other clears the code and stores a digest validating exactly the new password, nothing else changing |
| UserControllerProperties.ResetCodeSingleUse | src/controller/user.controller.ts:185-187 | the same reset code is refused right after it has been used |
| AuthController.Login | src/controller/auth.controller.ts:27-68 | login keeps the database consistent and sends no mail |
| AuthController.CreateSessionHandler | src/controller/auth.controller.ts:27-68 | the handler's store change and response are those of `Login` |
| AuthController.Refresh | src/controller/auth.controller.ts:77-116 | refresh answers 200 or 401, and 200 exactly when the token verifies and names a stored valid session whose user exists, with a new access token for that user |
| AuthController.RefreshAccessTokenHandler | src/controller/auth.controller.ts:77-116 | the handler only reads the store, and answers what `Refresh` says |
| AuthControllerProperties.SessionIdOfRefreshPayload | src/controller/auth.controller.ts:96 | the session id the refresh handler reads from a refresh token's payload is the id it was signed with |
| AuthControllerProperties.LoginDecision | src/controller/auth.controller.ts:37-55 | tokens are issued exactly to a known, verified user whose password validates; unknown email and wrong password share one message; an unverified user is told to verify whatever the password; only success changes the database |
| AuthControllerProperties.LoginCreatesOneSession | src/controller/auth.controller.ts:57-67 | a successful login adds exactly one valid session for the user and no user, and returns that user's access token and a refresh token naming the new session |
| AuthControllerProperties.RefreshRejections | src/controller/auth.controller.ts:85-109 | a token that fails to verify, names no session, or names a missing or invalid session, or one whose user is gone, gets 401 |
| AuthControllerProperties.RefreshAccepts | src/controller/auth.controller.ts:96-115 | under a sound codec, a refresh token for a stored valid session of an existing user, presented within a year, yields a fresh access token for that user |
| AuthControllerProperties.LoginThenRefresh | src/controller/auth.controller.ts:57-116 | under a sound codec, the refresh token of a successful login yields, within a year, an access token for the same user |
| AuthControllerProperties.LoginAccessToken | src/controller/auth.controller.ts:57-58 | under a sound codec, the login's access token decodes for 15 minutes to the access payload, which holds no private field |
| Middleware.StripBearer | src/middleware/deserializeUser.ts:22-25 | `/^Bearer\s/` is removed once when the header starts with it, and any other header is left as it is |
| Middleware.StripBearerRoundTrip | src/middleware/deserializeUser.ts:22-25 | "Bearer" followed by any one JavaScript whitespace character and a token gives back the token |
| Middleware.DeserializeUser | src/middleware/deserializeUser.ts:16-42 | the middleware always calls next, and sets `res.locals.user` to the claims exactly when the token verifies under the access key, leaving it unchanged otherwise |
| Middleware.RequireUser | src/middleware/requireUser.ts:12-27 | the gate halts with 403 "Forbidden" exactly when no user is in `res.locals`, and otherwise passes it on unchanged |
| Middleware.MeAnswers | src/controller/user.controller.ts:205-210 | behind `requireUser`, `getCurrentUserHandler` answers 200 with what `deserializeUser` left in `res.locals.user`: `GET /api/users/me` answers 403 exactly when the bearer token does not verify under the access key, and otherwise returns its claims |
| Middleware.Me | src/routes/user.routes.ts:51 | the route runs `deserializeUser`, then `requireUser`, then `getCurrentUserHandler`; what it answers is stated by `MeAnswers` |
| Middleware.MeWithBearer | src/middleware/deserializeUser.ts:22-33 | a token sent as `Bearer <token>` is judged on that token alone: 403 when it does not verify under the access key, its claims otherwise |
| Middleware.LoginThenMe | src/routes/user.routes.ts:51 | under a sound codec, a login's access token opens `/api/users/me` for 15 minutes with the access payload, and its refresh token gets 403 |
| Lifecycle.Step | src/routes/index.ts:13-16 | every route of src/routes/user.routes.ts:27-51 and src/routes/auth.routes.ts:18-24 keeps the database consistent; refresh and `/me` change nothing and mail nothing |
| Lifecycle.Run | src/routes/index.ts:13-16 | any sequence of requests keeps the database consistent |
| Lifecycle.StepGrows | src/routes/index.ts:13-16 | no single request removes a user or session, changes an email, a verification code or a session, or unverifies a user |
| Lifecycle.RunGrows | src/routes/index.ts:13-16 | the same holds across any sequence of requests |
| Lifecycle.StepKeepsSessionsSound | src/controller/auth.controller.ts:57-61 | if every session is valid and names a stored user, this stays true after any one request |
| Lifecycle.RunKeepsSessionsSound | src/controller/auth.controller.ts:57-61 | the same holds after any sequence of requests |
| Lifecycle.RefreshTokenNeverRevoked | src/controller/auth.controller.ts:96-101 | under a sound codec, a refresh token for a stored session works for its whole year whatever requests come between, because nothing invalidates a session |
| Lifecycle.EmailStaysTaken | src/model/user.model.ts:50 | once an email is registered, any later registration of it in any case gets 409 and changes nothing, after any sequence of requests |
| Lifecycle.StepKeepsNoResetPending | src/controller/user.controller.ts:135-141 | a user with no reset code still has none after any request that is not a forgot-password for that user's email |
| Lifecycle.RunKeepsNoResetPending | src/controller/user.controller.ts:135-141 | the same holds across any sequence with no forgot-password for that email |
| Lifecycle.ResetCodeStaysUsed | src/controller/user.controller.ts:177-187 | after a successful reset, every reset for that user is refused with any code until a new code is requested for that email |

## Left out

- Mail transport (src/utils/mailer.ts): delivery, its errors and their logging. The model keeps only the list of emails handed over.
- Logging (src/utils/logger.ts): it has no effect on behaviour.
- Database bootstrap (src/utils/connectToDb.ts) and its retry loop.
- Express wiring beyond the routes: the request body is taken as already parsed.
- Store.Db.CreateUser: the registration body is assumed to hold only `email`, `firstName`, `lastName` and `password` (`UserModel.CreateUserInput`). `validateResource` (src/middleware/validateResource.ts:10-14) discards what `schema.parse` returns, so zod's stripping of unknown keys never reaches `req.body`, and `createUserHandler` passes the raw body on (src/controller/user.controller.ts:36,40). If `createUser` hands it to `UserModel.create` unchanged, a body carrying `verified: true` or its own `verificationCode` sets those fields, and the account starts verified without the email step. Whether src/schema/user.schema.ts rejects such keys cannot be seen; that file is not part of this model. Resting on this assumption: `Store.Db.CreateUser`, `Store.Database.CreateUser`, `UserController.Register`, `UserControllerProperties.RegisterCreates` (one unverified user with the generated code), and through them `Lifecycle.StepGrows`, `Lifecycle.RunGrows` and `Lifecycle.StepKeepsNoResetPending`, whose story that a user becomes verified only through the code holds for four-key bodies.
- Request validation (src/middleware/validateResource.ts and the zod schemas): the handlers take their inputs as already validated. The schema's 6-character minimum on passwords is not modelled, so only mongoose's own `required` check on empty strings is.
- AuthService.AccessPayload: with `timestamps: true` (src/model/user.model.ts:41-44), `toJSON` also holds `createdAt` and `updatedAt`. `privateFields` does not list them, so the real access payload, and the body of `GET /api/users/me`, also carry both. The model has no timestamps, and its payload holds only the id, email and names.
- ObjectId format: ids are numbers from one counter and appear in emails as decimal text, not 24 hex digits. An id that is not a valid ObjectId makes mongoose throw a cast error and the handler sends no response; this is not modelled, and such an id behaves like an unknown one. That covers a path parameter of the verify and reset routes, and also the `session` claim of a verified refresh token (src/controller/auth.controller.ts:96, src/service/auth.service.ts:17): `AuthController.SessionIdOf` reads a claim that is not an id as no session, so `AuthController.Refresh` answers 401 where the code would throw. Tokens signed with the refresh key by `signRefreshToken` always carry a real session id, so they never reach this case.
- Lower-casing folds ASCII letters only. JavaScript's full Unicode `toLowerCase` is not modelled.
- A reset code set to `null` and one never set are both `None`.
- Storage failures other than validation and the duplicate key (network, timeouts) are not modelled.
- Store.Db.SaveUser: requires the email to be unchanged, since no core handler changes it; the unique-index check on save is therefore not modelled.
- Jwt: the library accepts any algorithm of the key's family. The model represents it by RS256, and other algorithms as rejected. Its clock skew handling and `nbf` are not modelled.
- Jwt.Sound: cryptographic unforgeability is not modelled. Tokens come from an abstract codec, and the lemmas that need a round trip assume it soundly inverts.
- Argon2: the digest text format and its parameters are not modelled. A stored digest of a digest (which no handler produces) validates no password in the model, whereas argon2 would accept the inner digest's text.
- A `nanoid()` result equal to the current stored code would make mongoose see the field as unmodified; codes are treated as fresh.
- Concurrency: requests run one after another. Interleavings between the awaits of different requests are not modelled.
- src/service/user.service.ts is not part of this model. `createUser`, `findUserById` and `findUserByEmail` are assumed to wrap `create`, `findById` and `findOne({ email })`. The email query is assumed to go through the schema's lower-case setter. Everything case-insensitive in the model rests on this assumption: `Db.FindUserByEmail`, `RegisterTwice` and `EmailStaysTaken`.
- `GET /healthcheck` (src/routes/index.ts:11) answers 200 and touches no state.
