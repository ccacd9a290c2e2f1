/**
 * The versioned authentication service: access and refresh tokens carrying
 * the user's `id`, the refresh token kept on the user record, and password
 * reset through a signed token kept on the record until it is used.
 */
module AuthService {
  import opened Wrappers
  import opened Text
  import opened Crypto
  import opened Users

  /** The `config.jwt` secrets and lifetimes (seconds). */
  datatype JwtConfig = JwtConfig(
    accessSecret: string, accessTtl: nat,
    refreshSecret: string, refreshTtl: nat,
    resetSecret: string, resetTtl: nat)

  /** What the service throws. */
  datatype AuthError =
    | AppError(message: string, statusCode: int)
    | JwtRejected(error: JwtError)
    | Cast(value: string)
    | MailFailed

  datatype Session = Session(user: User, accessToken: Token, refreshToken: Token)

  /** The reset mail: to the user's address, with a link carrying the token. */
  datatype Mail = Mail(to: string, subject: string, token: Token)

  /** `{ id: userId }`. */
  function IdClaims(id: UserId): (c: Claims)
    ensures c.id == Some(id) && c.userId.None? && c.email.None?
  {
    Claims(Some(id), None, None)
  }

  /** `generateTokens(userId)`. */
  function AccessToken(cfg: JwtConfig, id: UserId, now: int): Token {
    Sign(IdClaims(id), cfg.accessSecret, now, cfg.accessTtl)
  }

  function RefreshToken(cfg: JwtConfig, id: UserId, now: int): Token {
    Sign(IdClaims(id), cfg.refreshSecret, now, cfg.refreshTtl)
  }

  function ResetToken(cfg: JwtConfig, id: UserId, now: int): Token {
    Sign(IdClaims(id), cfg.resetSecret, now, cfg.resetTtl)
  }

  /** `findByIdAndUpdate(id, { refreshToken })` on the users. */
  function WithRefreshToken(users: seq<User>, id: UserId, t: Option<Token>): (r: seq<User>)
    ensures |r| == |users|
    ensures FindFirst(users, ById(id)).None? ==> r == users
    ensures FindFirst(users, ById(id)).Some? ==>
      var k := FindFirst(users, ById(id)).value;
      r == users[k := users[k].(refreshToken := t)]
  {
    match FindFirst(users, ById(id))
    case None => users
    case Some(k) => users[k := users[k].(refreshToken := t)]
  }

  /** A user with this identifier holds this refresh token. */
  predicate HoldsRefresh(users: seq<User>, id: UserId, t: Token) {
    FindFirst(users, ByIdAndRefreshToken(id, t)).Some?
  }

  /** After logout no record with that identifier holds any refresh token, so no old refresh token is accepted. */
  lemma LogoutRevokesRefresh(users: seq<User>, id: UserId, t: Token)
    requires IdsUnique(users)
    ensures !HoldsRefresh(WithRefreshToken(users, id, None), id, t)
  {
  }

  /** After a reset the record no longer holds the token that was used. */
  lemma ResetTokenSingleUse(users: seq<User>, k: nat, t: Token, d: Digest)
    requires IdsUnique(users) && k < |users|
    ensures var after := users[k := users[k].(password := d, resetPasswordToken := None)];
      FindFirst(after, ByIdAndResetPasswordToken(users[k].id, t)).None?
  {
  }

  class Service {
    const cfg: JwtConfig
    var users: seq<User>
    /** The reset mails handed to the mailer. */
    var outbox: seq<Mail>

    ghost predicate Valid()
      reads this
    {
      IdsUnique(users) && EmailsUnique(users)
    }

    constructor (cfg: JwtConfig)
      ensures Valid() && this.cfg == cfg && users == [] && outbox == []
    {
      this.cfg := cfg;
      users := [];
      outbox := [];
    }

    /**
     * `registerUser`: a taken email is refused; otherwise the user is created
     * with the digest of the password, tokens are issued and the refresh token
     * is stored. The user returned is the one created, before that store.
     */
    method Register(email: string, password: string, name: Option<string>, newId: UserId, salt: nat, now: int)
      returns (r: Result<Session, AuthError>)
      requires Valid() && FindFirst(users, ById(newId)).None?
      modifies this
      ensures Valid() && outbox == old(outbox)
      ensures FindFirst(old(users), ByEmail(email)).Some? ==>
        r == Failure(AppError("User already exists", 400)) && users == old(users)
      ensures FindFirst(old(users), ByEmail(email)).None? ==>
        var created := NewUser(newId, name, email, Hash(password, salt));
        var refresh := RefreshToken(cfg, newId, now);
        && r == Success(Session(created, AccessToken(cfg, newId, now), refresh))
        && users == old(users) + [created.(refreshToken := Some(refresh))]
      ensures r.Success? ==> Matches(password, users[|users| - 1].password) && users[|users| - 1].email == email
    {
      if FindFirst(users, ByEmail(email)).Some? {
        return Failure(AppError("User already exists", 400));
      }
      var created := NewUser(newId, name, email, Hash(password, salt));
      AppendKeepsUnique(users, created);
      users := users + [created];
      var access := AccessToken(cfg, newId, now);
      var refresh := RefreshToken(cfg, newId, now);
      FindByIdUnique(users, ById(newId), |users| - 1);
      ReplaceKeepsUnique(users, |users| - 1, created.(refreshToken := Some(refresh)));
      users := WithRefreshToken(users, newId, Some(refresh));
      r := Success(Session(created, access, refresh));
      HashMatchesOnlyItsPassword(password, password, salt);
    }

    /** `loginUser`: an unknown email and a wrong password fail alike; otherwise tokens are issued and the refresh token stored. */
    method Login(email: string, password: string, now: int) returns (r: Result<Session, AuthError>)
      requires Valid()
      modifies this
      ensures Valid() && outbox == old(outbox)
      ensures r.Failure? <==>
        FindFirst(old(users), ByEmail(email)).None?
        || !Matches(password, old(users)[FindFirst(old(users), ByEmail(email)).value].password)
      ensures r.Failure? ==> r == Failure(AppError("Invalid email or password", 401)) && users == old(users)
      ensures r.Success? ==>
        var k := FindFirst(old(users), ByEmail(email)).value;
        var u := old(users)[k];
        && r == Success(Session(u, AccessToken(cfg, u.id, now), RefreshToken(cfg, u.id, now)))
        && users == old(users)[k := u.(refreshToken := Some(RefreshToken(cfg, u.id, now)))]
    {
      var found := FindFirst(users, ByEmail(email));
      if found.None? || !Matches(password, users[found.value].password) {
        return Failure(AppError("Invalid email or password", 401));
      }
      var k := found.value;
      var u := users[k];
      var refresh := RefreshToken(cfg, u.id, now);
      FindByIdUnique(users, ById(u.id), k);
      ReplaceKeepsUnique(users, k, u.(refreshToken := Some(refresh)));
      users := WithRefreshToken(users, u.id, Some(refresh));
      r := Success(Session(u, AccessToken(cfg, u.id, now), refresh));
    }

    /** `logoutUser`: the stored refresh token is set to null; a malformed identifier fails the cast. */
    method Logout(userId: string) returns (err: Option<AuthError>)
      requires Valid()
      modifies this
      ensures Valid() && outbox == old(outbox)
      ensures !IsObjectId(userId) ==> err == Some(Cast(userId)) && users == old(users)
      ensures IsObjectId(userId) ==> err.None? && users == WithRefreshToken(old(users), userId, None)
    {
      if !IsObjectId(userId) {
        return Some(Cast(userId));
      }
      var found := FindFirst(users, ById(userId));
      if found.Some? {
        ReplaceKeepsUnique(users, found.value, users[found.value].(refreshToken := None));
      }
      users := WithRefreshToken(users, userId, None);
      err := None;
    }

    /**
     * `refreshAccessToken`: the token must verify under the refresh secret
     * and be the one stored on the record it names; a new access token is
     * issued and nothing is stored.
     */
    method Refresh(refresh: Token, now: int) returns (r: Result<Token, AuthError>)
      requires Valid()
      ensures Verify(refresh, cfg.refreshSecret, now).Failure? ==>
        r == Failure(JwtRejected(Verify(refresh, cfg.refreshSecret, now).error))
      ensures r.Success? <==>
        && Verify(refresh, cfg.refreshSecret, now).Success?
        && refresh.claims.id.Some? && IsObjectId(refresh.claims.id.value)
        && HoldsRefresh(users, refresh.claims.id.value, refresh)
      ensures r.Success? ==> r.value == AccessToken(cfg, refresh.claims.id.value, now)
      ensures
        && Verify(refresh, cfg.refreshSecret, now).Success?
        && refresh.claims.id.Some? && IsObjectId(refresh.claims.id.value)
        && !HoldsRefresh(users, refresh.claims.id.value, refresh)
        ==> r == Failure(AppError("Invalid refresh token", 401))
    {
      var decoded := Verify(refresh, cfg.refreshSecret, now);
      if decoded.Failure? {
        return Failure(JwtRejected(decoded.error));
      }
      if decoded.value.id.None? {
        return Failure(AppError("Invalid refresh token", 401));
      }
      var id := decoded.value.id.value;
      if !IsObjectId(id) {
        return Failure(Cast(id));
      }
      var found := FindFirst(users, ByIdAndRefreshToken(id, refresh));
      if found.None? {
        return Failure(AppError("Invalid refresh token", 401));
      }
      r := Success(AccessToken(cfg, users[found.value].id, now));
    }

    /**
     * `forgotPassword`: an unknown email is refused; otherwise a reset token
     * is stored on the record before the mail goes out, so it stays stored
     * when the mailer fails.
     */
    method Forgot(email: string, now: int, delivered: bool) returns (r: Result<string, AuthError>)
      requires Valid()
      modifies this
      ensures Valid()
      ensures FindFirst(old(users), ByEmail(email)).None? ==>
        r == Failure(AppError("User not found", 404)) && users == old(users) && outbox == old(outbox)
      ensures FindFirst(old(users), ByEmail(email)).Some? ==>
        var k := FindFirst(old(users), ByEmail(email)).value;
        var t := ResetToken(cfg, old(users)[k].id, now);
        && users == old(users)[k := old(users)[k].(resetPasswordToken := Some(t))]
        && (delivered ==>
              r == Success("Password reset email sent")
              && outbox == old(outbox) + [Mail(old(users)[k].email, "Password Reset Request", t)])
        && (!delivered ==> r == Failure(MailFailed) && outbox == old(outbox))
    {
      var found := FindFirst(users, ByEmail(email));
      if found.None? {
        return Failure(AppError("User not found", 404));
      }
      var k := found.value;
      var u := users[k];
      var t := ResetToken(cfg, u.id, now);
      ReplaceKeepsUnique(users, k, u.(resetPasswordToken := Some(t)));
      users := users[k := u.(resetPasswordToken := Some(t))];
      if !delivered {
        return Failure(MailFailed);
      }
      outbox := outbox + [Mail(u.email, "Password Reset Request", t)];
      r := Success("Password reset email sent");
    }

    /**
     * `resetPassword`: the token must verify under the reset secret and be
     * the one stored on the record it names; the password digest is replaced
     * and the stored token cleared.
     */
    method Reset(token: Token, newPassword: string, salt: nat, now: int) returns (r: Result<string, AuthError>)
      requires Valid()
      modifies this
      ensures Valid() && outbox == old(outbox)
      ensures Verify(token, cfg.resetSecret, now).Failure? ==>
        r == Failure(JwtRejected(Verify(token, cfg.resetSecret, now).error)) && users == old(users)
      ensures r.Success? <==>
        && Verify(token, cfg.resetSecret, now).Success?
        && token.claims.id.Some? && IsObjectId(token.claims.id.value)
        && FindFirst(old(users), ByIdAndResetPasswordToken(token.claims.id.value, token)).Some?
      ensures r.Success? ==>
        var k := FindFirst(old(users), ByIdAndResetPasswordToken(token.claims.id.value, token)).value;
        && r == Success("Password reset successful")
        && users == old(users)[k := old(users)[k].(password := Hash(newPassword, salt), resetPasswordToken := None)]
        && FindFirst(users, ByIdAndResetPasswordToken(token.claims.id.value, token)).None?
      ensures r.Failure? ==> users == old(users)
    {
      var decoded := Verify(token, cfg.resetSecret, now);
      if decoded.Failure? {
        return Failure(JwtRejected(decoded.error));
      }
      if decoded.value.id.None? {
        return Failure(AppError("Invalid or expired token", 401));
      }
      var id := decoded.value.id.value;
      if !IsObjectId(id) {
        return Failure(Cast(id));
      }
      var found := FindFirst(users, ByIdAndResetPasswordToken(id, token));
      if found.None? {
        return Failure(AppError("Invalid or expired token", 401));
      }
      var k := found.value;
      ResetTokenSingleUse(users, k, token, Hash(newPassword, salt));
      ReplaceKeepsUnique(users, k, users[k].(password := Hash(newPassword, salt), resetPasswordToken := None));
      users := users[k := users[k].(password := Hash(newPassword, salt), resetPasswordToken := None)];
      r := Success("Password reset successful");
    }
  }
}
