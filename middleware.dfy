/**
 * The two middlewares in front of protected routes
 * (src/middleware/deserializeUser.ts, src/middleware/requireUser.ts), and the
 * one protected route, `GET /api/users/me`, which runs `requireUser` and then
 * `getCurrentUserHandler` after the application-wide `deserializeUser`.
 */
module Middleware {
  import opened Wrappers
  import opened Jwt
  import opened Http
  import opened UserController
  import opened Store
  import opened AuthService
  import opened AuthController
  import AuthControllerProperties

  /** What a middleware does: call `next` once with `res.locals`, or send a response and not call `next`. */
  datatype Next = Next(locals: Locals) | Halt(response: Response)

  /** `\s` in a JavaScript regular expression. */
  predicate IsJsWhitespace(c: char) {
    || c == '\t' || c == '\n' || c == '\U{B}' || c == '\U{C}' || c == '\r' || c == ' '
    || c == '\U{A0}' || c == '\U{1680}' || ('\U{2000}' <= c <= '\U{200A}')
    || c == '\U{2028}' || c == '\U{2029}' || c == '\U{202F}' || c == '\U{205F}' || c == '\U{3000}' || c == '\U{FEFF}'
  }

  /** The header starts with `/^Bearer\s/`: the exact word, then one whitespace character. */
  predicate HasBearerPrefix(h: string) {
    |h| >= 7 && h[..6] == "Bearer" && IsJsWhitespace(h[6])
  }

  /** `.replace(/^Bearer\s/, "")`: drop that prefix once, leave any other text as it is. */
  function StripBearer(h: string): (token: string)
    ensures HasBearerPrefix(h) ==> h == h[..7] + token
    ensures !HasBearerPrefix(h) ==> token == h
  {
    if HasBearerPrefix(h) then h[7..] else h
  }

  /** A token sent as `Bearer` followed by any one whitespace character comes back unchanged. */
  lemma StripBearerRoundTrip(token: string, space: char)
    requires IsJsWhitespace(space)
    ensures StripBearer("Bearer" + [space] + token) == token
  {
    var h := "Bearer" + [space] + token;
    assert h[..6] == "Bearer" && h[6] == space;
    assert h[7..] == token;
  }

  /** The token `deserializeUser` verifies: a missing header counts as the empty string. */
  function AccessTokenOf(authorization: Option<string>): string {
    StripBearer(authorization.GetOr(""))
  }

  /**
   * `deserializeUser`: always calls `next`, and sets `res.locals.user` to the
   * decoded claims exactly when the token verifies under the access public key;
   * an empty token, which could not verify anyway, skips verification.
   */
  function DeserializeUser(keys: KeyStore, authorization: Option<string>, locals: Locals, now: nat): (n: Next)
    ensures n.Next?
    ensures AccessTokenOf(authorization) == "" ==> n.locals == locals
    ensures n.locals == match VerifyJwt(keys, AccessTokenOf(authorization), AccessTokenPublicKey, now)
                        case Some(claims) => locals.(user := Some(claims))
                        case None => locals
  {
    var accessToken := AccessTokenOf(authorization);
    if accessToken == "" then Next(locals)
    else
      var decoded := VerifyJwt(keys, accessToken, AccessTokenPublicKey, now);
      if decoded.Some? then Next(locals.(user := decoded)) else Next(locals)
  }

  /**
   * `requireUser`: only the presence of `res.locals.user` is checked; without
   * it the answer is 403 and `next` is not called, with it `next` is called
   * with `res.locals` unchanged.
   */
  function RequireUser(locals: Locals): (n: Next)
    ensures n.Halt? <==> locals.user.None?
    ensures n.Halt? ==> n.response == Response(403, Text("Forbidden"))
    ensures n.Next? ==> n.locals == locals
  {
    if locals.user.None? then Halt(Response(403, Text("Forbidden"))) else Next(locals)
  }

  /** `GET /api/users/me` with the given Authorization header, starting from empty `res.locals`. */
  function Me(keys: KeyStore, authorization: Option<string>, now: nat): Response {
    var deserialized := DeserializeUser(keys, authorization, Locals(None), now);
    match RequireUser(deserialized.locals)
    case Halt(response) => response
    case Next(locals) => GetCurrentUserHandler(locals)
  }

  /** The protected route answers 403 exactly when the bearer token does not verify, and otherwise echoes its claims. */
  lemma MeAnswers(keys: KeyStore, authorization: Option<string>, now: nat)
    ensures Me(keys, authorization, now) ==
      match VerifyJwt(keys, AccessTokenOf(authorization), AccessTokenPublicKey, now)
      case None => Response(403, Text("Forbidden"))
      case Some(claims) => Response(200, Decoded(Some(claims)))
  {
  }

  /** A token sent as `Bearer <token>` is answered according to that token alone. */
  lemma MeWithBearer(keys: KeyStore, token: string, now: nat)
    ensures Me(keys, Some("Bearer " + token), now) ==
      match VerifyJwt(keys, token, AccessTokenPublicKey, now)
      case None => Response(403, Text("Forbidden"))
      case Some(claims) => Response(200, Decoded(Some(claims)))
  {
    StripBearerRoundTrip(token, ' ');
    assert "Bearer " == "Bearer" + [' '];
    MeAnswers(keys, Some("Bearer " + token), now);
  }

  /**
   * End to end: within fifteen minutes of a successful login, its access token
   * sent as `Bearer <token>` opens the protected route, which returns the
   * access payload; the refresh token sent the same way is refused.
   */
  lemma LoginThenMe(keys: KeyStore, db: Db, email: string, password: string, now: nat, later: nat)
    requires Sound(keys) && db.Valid()
    requires Login(keys, db, email, password, now).response.Response?
    requires Login(keys, db, email, password, now).response.body.Tokens?
    requires later < now + 900
    ensures var tokens := Login(keys, db, email, password, now).response.body;
      var id := db.FindUserByEmail(email).value;
      && Me(keys, Some("Bearer " + tokens.accessToken), later)
         == Response(200, Decoded(Some(Jwt.Claims(AccessPayload(id, db.users[id]), now, Some(now + 900)))))
      && Me(keys, Some("Bearer " + tokens.refreshToken), later) == Response(403, Text("Forbidden"))
  {
    var tokens := Login(keys, db, email, password, now).response.body;
    var id := db.FindUserByEmail(email).value;
    AuthControllerProperties.LoginCreatesOneSession(keys, db, email, password, now);
    var s :| s !in db.sessions && tokens == Tokens(SignAccessToken(keys, id, db.users[id], now), RefreshToken(keys, s, now));
    MeWithBearer(keys, tokens.accessToken, later);
    AccessTokenVerifies(keys, id, db.users[id], now, later);
    MeWithBearer(keys, tokens.refreshToken, later);
    RefreshTokenVerifies(keys, s, now, later);
  }
}
