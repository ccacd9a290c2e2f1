/**
 * The authentication handlers: they reply themselves (every unexpected
 * failure becomes a 500 "Server error"), keep the refresh token in an
 * HTTP-only cookie rather than on the user record, and keep the reset token
 * in `resetToken`.
 */
module AuthController {
  import opened Wrappers
  import opened Text
  import opened Crypto
  import opened Users

  /** The token helpers' and the environment's secrets and lifetimes (seconds). */
  datatype TokenConfig = TokenConfig(
    accessSecret: string, accessTtl: nat,
    refreshSecret: string, refreshTtl: nat,
    resetSecret: string,
    production: bool)

  /** The cookie's lifetime: seven days, in milliseconds. */
  const CookieMaxAge: int := 7 * 24 * 60 * 60 * 1000

  /** The reset token's lifetime: one hour. */
  const ResetTtl: nat := 3600

  datatype CookieOp = KeepCookie | SetRefreshCookie(token: Token, httpOnly: bool, secure: bool, maxAge: int) | ClearRefreshCookie

  /** The JSON body and the cookie instruction; `error` is the caught `jsonwebtoken` error a catch branch echoes. */
  datatype Reply = Reply(status: int, message: Option<string>, accessToken: Option<Token>, cookie: CookieOp,
                         error: Option<JwtError>)

  /** `{ userId }`. */
  function UserIdClaims(id: UserId): (c: Claims)
    ensures c.userId == Some(id) && c.id.None? && c.email.None?
  {
    Claims(None, Some(id), None)
  }

  function AccessToken(cfg: TokenConfig, id: UserId, now: int): Token {
    Sign(UserIdClaims(id), cfg.accessSecret, now, cfg.accessTtl)
  }

  function RefreshToken(cfg: TokenConfig, id: UserId, now: int): Token {
    Sign(UserIdClaims(id), cfg.refreshSecret, now, cfg.refreshTtl)
  }

  function ResetToken(cfg: TokenConfig, id: UserId, now: int): Token {
    Sign(UserIdClaims(id), cfg.resetSecret, now, ResetTtl)
  }

  /** The reply of a successful register or login: the access token in the body, the refresh token in the cookie. */
  function SignedIn(cfg: TokenConfig, status: int, message: string, id: UserId, now: int): (r: Reply)
    ensures r.status == status && r.message == Some(message)
    ensures r.accessToken == Some(AccessToken(cfg, id, now))
    ensures r.cookie == SetRefreshCookie(RefreshToken(cfg, id, now), true, cfg.production, CookieMaxAge)
  {
    Reply(status, Some(message), Some(AccessToken(cfg, id, now)),
          SetRefreshCookie(RefreshToken(cfg, id, now), true, cfg.production, CookieMaxAge), None)
  }

  function Plain(status: int, message: string): (r: Reply)
    ensures r.status == status && r.message == Some(message) && r.accessToken.None? && r.cookie.KeepCookie?
    ensures r.error.None?
  {
    Reply(status, Some(message), None, KeepCookie, None)
  }

  /** A catch branch's reply: the message and the caught verification error. */
  function Failed(status: int, message: string, e: JwtError): (r: Reply)
    ensures r.status == status && r.message == Some(message) && r.accessToken.None? && r.cookie.KeepCookie?
    ensures r.error == Some(e)
  {
    Reply(status, Some(message), None, KeepCookie, Some(e))
  }

  /** `logoutUser`: the cookie is cleared; nothing on the server changes. */
  function LogoutReply(): (r: Reply)
    ensures r.status == 200 && r.cookie.ClearRefreshCookie? && r.accessToken.None?
  {
    Reply(200, Some("User logged out successfully"), None, ClearRefreshCookie, None)
  }

  /** The cookie reads as falsy: absent, or the empty string. */
  predicate NoCookie(cookie: Option<Token>) {
    cookie.None? || cookie.value == Garbled("")
  }

  /**
   * `refreshAccessToken`: a missing or empty cookie is 401; a token that fails
   * verification is 403 with the caught error; a verified token without a
   * `userId` is 403 without one; otherwise a new access token. The users are
   * not consulted.
   */
  function RefreshReply(cfg: TokenConfig, cookie: Option<Token>, now: int): (r: Reply)
    ensures NoCookie(cookie) ==> r == Plain(401, "No refresh token provided")
    ensures r.status == 200 <==>
      cookie.Some? && Verify(cookie.value, cfg.refreshSecret, now).Success? && Truthy(cookie.value.claims.userId)
    ensures r.status == 200 ==>
      && r.accessToken == Some(AccessToken(cfg, cookie.value.claims.userId.value, now))
      && r.message.None? && r.error.None? && r.cookie.KeepCookie?
    ensures !NoCookie(cookie) && Verify(cookie.value, cfg.refreshSecret, now).Failure? ==>
      r == Failed(403, "Invalid refresh token", Verify(cookie.value, cfg.refreshSecret, now).error)
    ensures (!NoCookie(cookie) && Verify(cookie.value, cfg.refreshSecret, now).Success?
      && !Truthy(cookie.value.claims.userId))
      ==> r == Plain(403, "Invalid refresh token")
  {
    if NoCookie(cookie) then Plain(401, "No refresh token provided")
    else
      match Verify(cookie.value, cfg.refreshSecret, now)
      case Failure(e) => Failed(403, "Invalid refresh token", e)
      case Success(decoded) =>
        if !Truthy(decoded.userId) then Plain(403, "Invalid refresh token")
        else Reply(200, None, Some(AccessToken(cfg, decoded.userId.value, now)), KeepCookie, None)
  }

  /**
   * Logging out does not revoke anything: a refresh cookie issued at login
   * keeps producing access tokens until it expires, and not after.
   */
  lemma RefreshCookieOutlivesLogout(cfg: TokenConfig, id: UserId, issued: int, now: int)
    requires id != ""
    ensures issued <= now < issued + cfg.refreshTtl ==>
      RefreshReply(cfg, Some(RefreshToken(cfg, id, issued)), now).status == 200
    ensures now >= issued + cfg.refreshTtl ==>
      RefreshReply(cfg, Some(RefreshToken(cfg, id, issued)), now)
        == Failed(403, "Invalid refresh token", TokenExpiredError)
  {
  }

  class Controller {
    const cfg: TokenConfig
    var users: seq<User>
    /** The reset mails handed to the mailer: recipient and token. */
    var outbox: seq<(string, Token)>

    ghost predicate Valid()
      reads this
    {
      IdsUnique(users) && EmailsUnique(users)
    }

    constructor (cfg: TokenConfig)
      ensures Valid() && this.cfg == cfg && users == [] && outbox == []
    {
      this.cfg := cfg;
      users := [];
      outbox := [];
    }

    /** `registerUser`: a taken email is 400; otherwise the user is saved with the digest and signed in with 201. */
    method Register(name: Option<string>, email: string, password: string, newId: UserId, salt: nat, now: int)
      returns (r: Reply)
      requires Valid() && FindFirst(users, ById(newId)).None?
      modifies this
      ensures Valid() && outbox == old(outbox)
      ensures FindFirst(old(users), ByEmail(email)).Some? ==>
        r == Plain(400, "User already exists") && users == old(users)
      ensures FindFirst(old(users), ByEmail(email)).None? ==>
        && r == SignedIn(cfg, 201, "User registered successfully", newId, now)
        && users == old(users) + [NewUser(newId, name, email, Hash(password, salt))]
    {
      if FindFirst(users, ByEmail(email)).Some? {
        return Plain(400, "User already exists");
      }
      var created := NewUser(newId, name, email, Hash(password, salt));
      AppendKeepsUnique(users, created);
      users := users + [created];
      r := SignedIn(cfg, 201, "User registered successfully", newId, now);
    }

    /** `loginUser`: an unknown email and a wrong password both get 400 "Invalid credentials"; nothing is stored. */
    method Login(email: string, password: string, now: int) returns (r: Reply)
      requires Valid()
      ensures var found := FindFirst(users, ByEmail(email));
        && (found.None? || !Matches(password, users[found.value].password) ==>
              r == Plain(400, "Invalid credentials"))
        && (found.Some? && Matches(password, users[found.value].password) ==>
              r == SignedIn(cfg, 200, "User logged in successfully", users[found.value].id, now))
    {
      var found := FindFirst(users, ByEmail(email));
      if found.None? {
        return Plain(400, "Invalid credentials");
      }
      if !Matches(password, users[found.value].password) {
        return Plain(400, "Invalid credentials");
      }
      r := SignedIn(cfg, 200, "User logged in successfully", users[found.value].id, now);
    }

    /**
     * `forgotPassword`: an unknown email is 404; otherwise the reset token is
     * saved on the record, then mailed; a mailer failure is a 500 with the
     * token already saved.
     */
    method Forgot(email: string, now: int, delivered: bool) returns (r: Reply)
      requires Valid()
      modifies this
      ensures Valid()
      ensures FindFirst(old(users), ByEmail(email)).None? ==>
        r == Plain(404, "User not found") && users == old(users) && outbox == old(outbox)
      ensures FindFirst(old(users), ByEmail(email)).Some? ==>
        var k := FindFirst(old(users), ByEmail(email)).value;
        var t := ResetToken(cfg, old(users)[k].id, now);
        && users == old(users)[k := old(users)[k].(resetToken := Some(t))]
        && (delivered ==> r == Plain(200, "Password reset email sent") && outbox == old(outbox) + [(email, t)])
        && (!delivered ==> r == Plain(500, "Server error") && outbox == old(outbox))
    {
      var found := FindFirst(users, ByEmail(email));
      if found.None? {
        return Plain(404, "User not found");
      }
      var k := found.value;
      var t := ResetToken(cfg, users[k].id, now);
      ReplaceKeepsUnique(users, k, users[k].(resetToken := Some(t)));
      users := users[k := users[k].(resetToken := Some(t))];
      if !delivered {
        return Plain(500, "Server error");
      }
      outbox := outbox + [(email, t)];
      r := Plain(200, "Password reset email sent");
    }

    /**
     * `resetPassword`: a token failing verification is a 500 (the throw is
     * caught by the handler); a token matching no record's `resetToken` is
     * 400; otherwise the digest is replaced and `resetToken` removed.
     */
    method Reset(token: Token, newPassword: string, salt: nat, now: int) returns (r: Reply)
      requires Valid()
      modifies this
      ensures Valid() && outbox == old(outbox)
      ensures Verify(token, cfg.resetSecret, now).Failure? ==>
        r == Failed(500, "Server error", Verify(token, cfg.resetSecret, now).error) && users == old(users)
      ensures (Verify(token, cfg.resetSecret, now).Success? && token.claims.userId.Some?
        && !IsObjectId(token.claims.userId.value))
        ==> r == Plain(500, "Server error") && users == old(users)
      ensures r.status == 200 <==>
        && Verify(token, cfg.resetSecret, now).Success?
        && token.claims.userId.Some? && IsObjectId(token.claims.userId.value)
        && FindFirst(old(users), ByIdAndResetToken(token.claims.userId.value, token)).Some?
      ensures r.status == 200 ==>
        var k := FindFirst(old(users), ByIdAndResetToken(token.claims.userId.value, token)).value;
        && r == Plain(200, "Password reset successfully")
        && users == old(users)[k := old(users)[k].(password := Hash(newPassword, salt), resetToken := None)]
      ensures r.status != 200 ==> users == old(users)
      ensures (Verify(token, cfg.resetSecret, now).Success?
        && (token.claims.userId.None?
            || (IsObjectId(token.claims.userId.value)
                && FindFirst(old(users), ByIdAndResetToken(token.claims.userId.value, token)).None?)))
        ==> r == Plain(400, "Invalid or expired token")
      ensures r.status == 400 ==> r == Plain(400, "Invalid or expired token")
    {
      var decoded := Verify(token, cfg.resetSecret, now);
      if decoded.Failure? {
        return Failed(500, "Server error", decoded.error);
      }
      if decoded.value.userId.None? {
        return Plain(400, "Invalid or expired token");
      }
      var id := decoded.value.userId.value;
      if !IsObjectId(id) {
        return Plain(500, "Server error");
      }
      var found := FindFirst(users, ByIdAndResetToken(id, token));
      if found.None? {
        return Plain(400, "Invalid or expired token");
      }
      var k := found.value;
      ReplaceKeepsUnique(users, k, users[k].(password := Hash(newPassword, salt), resetToken := None));
      users := users[k := users[k].(password := Hash(newPassword, salt), resetToken := None)];
      r := Plain(200, "Password reset successfully");
    }
  }
}
