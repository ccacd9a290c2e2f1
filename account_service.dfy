/**
 * The older account service: errors are thrown as plain messages (each
 * re-thrown with the same message), the login token is signed with a single
 * secret that has a fallback, and users are returned as `{ id, name, email }`.
 */
module AccountService {
  import opened Wrappers
  import opened Text
  import opened Crypto
  import opened Users

  /** The secret used when `JWT_SECRET` is unset or empty. */
  const FallbackSecret: string := "your_jwt_secret_key"

  /** The login token's lifetime: one hour. */
  const LoginTtl: nat := 3600

  /** `process.env.JWT_SECRET || 'your_jwt_secret_key'`. */
  function JwtSecret(env: Option<string>): (s: string)
    ensures Truthy(env) ==> s == env.value
    ensures !Truthy(env) ==> s == FallbackSecret
    ensures s != ""
  {
    if Truthy(env) then env.value else FallbackSecret
  }

  /** The message of the error `findById` throws for an id that is not an ObjectId. */
  function UserCastMessage(id: string): (m: string)
    ensures StartsWith(m, "Cast to ObjectId failed for value \"" + id + "\"")
  {
    var prefix := "Cast to ObjectId failed for value \"" + id + "\"";
    var m := prefix + " (type string) at path \"_id\" for model \"User\"";
    assert m[..|prefix|] == prefix;
    m
  }

  /** `{ userId, email }`. */
  function LoginClaims(u: User): (c: Claims)
    ensures c.userId == Some(u.id) && c.email == Some(u.email) && c.id.None?
  {
    Claims(None, Some(u.id), Some(u.email))
  }

  /** `verifyToken`: the payload, or "Invalid token" whatever the reason. */
  function VerifyToken(env: Option<string>, t: Token, now: int): (r: Result<Claims, string>)
    ensures r.Success? <==> Verify(t, JwtSecret(env), now).Success?
    ensures r.Success? ==> r.value == t.claims
    ensures r.Failure? ==> r.error == "Invalid token"
  {
    match Verify(t, JwtSecret(env), now)
    case Success(c) => Success(c)
    case Failure(_) => Failure("Invalid token")
  }

  class Service {
    const env: Option<string>
    var users: seq<User>

    ghost predicate Valid()
      reads this
    {
      IdsUnique(users) && EmailsUnique(users)
    }

    constructor (env: Option<string>)
      ensures Valid() && this.env == env && users == []
    {
      this.env := env;
      users := [];
    }

    /** `registerUser`: "User already exists" for a taken email; otherwise the user is saved and its profile returned. */
    method Register(name: Option<string>, email: string, password: string, newId: UserId, salt: nat)
      returns (r: Result<Profile, string>)
      requires Valid() && FindFirst(users, ById(newId)).None?
      modifies this
      ensures Valid()
      ensures FindFirst(old(users), ByEmail(email)).Some? ==>
        r == Failure("User already exists") && users == old(users)
      ensures FindFirst(old(users), ByEmail(email)).None? ==>
        && users == old(users) + [NewUser(newId, name, email, Hash(password, salt))]
        && r == Success(Profile(newId, name, email))
    {
      if FindFirst(users, ByEmail(email)).Some? {
        return Failure("User already exists");
      }
      var created := NewUser(newId, name, email, Hash(password, salt));
      AppendKeepsUnique(users, created);
      users := users + [created];
      r := Success(ProfileOf(created));
    }

    /**
     * `loginUser`: "Invalid credentials" for an unknown email or a wrong
     * password alike; otherwise a one-hour token carrying the id and email.
     */
    method Login(email: string, password: string, now: int) returns (r: Result<(Token, Profile), string>)
      requires Valid()
      ensures var found := FindFirst(users, ByEmail(email));
        && (r.Success? <==> found.Some? && Matches(password, users[found.value].password))
        && (r.Failure? ==> r.error == "Invalid credentials")
        && (r.Success? ==>
              && r.value.0 == Sign(LoginClaims(users[found.value]), JwtSecret(env), now, LoginTtl)
              && r.value.1 == ProfileOf(users[found.value]))
    {
      var found := FindFirst(users, ByEmail(email));
      if found.None? {
        return Failure("Invalid credentials");
      }
      var u := users[found.value];
      if !Matches(password, u.password) {
        return Failure("Invalid credentials");
      }
      r := Success((Sign(LoginClaims(u), JwtSecret(env), now, LoginTtl), ProfileOf(u)));
    }

    /** `getUserById`: a cast error's message, "User not found", or the profile. */
    method GetUserById(id: string) returns (r: Result<Profile, string>)
      requires Valid()
      ensures !IsObjectId(id) ==> r == Failure(UserCastMessage(id))
      ensures IsObjectId(id) && FindFirst(users, ById(id)).None? ==> r == Failure("User not found")
      ensures r.Success? <==> IsObjectId(id) && FindFirst(users, ById(id)).Some?
      ensures r.Success? ==> exists u :: u in users && u.id == id && r.value == ProfileOf(u)
    {
      if !IsObjectId(id) {
        return Failure(UserCastMessage(id));
      }
      var found := FindFirst(users, ById(id));
      if found.None? {
        return Failure("User not found");
      }
      r := Success(ProfileOf(users[found.value]));
    }
  }

  /**
   * The token a login returns is accepted by `verifyToken` for the next hour
   * and names the user who logged in; after the hour it is "Invalid token".
   */
  lemma LoginTokenVerifiesForAnHour(env: Option<string>, u: User, issued: int, now: int)
    ensures issued <= now < issued + LoginTtl ==>
      VerifyToken(env, Sign(LoginClaims(u), JwtSecret(env), issued, LoginTtl), now) == Success(LoginClaims(u))
    ensures now >= issued + LoginTtl ==>
      VerifyToken(env, Sign(LoginClaims(u), JwtSecret(env), issued, LoginTtl), now) == Failure("Invalid token")
  {
  }

  /** A token signed under a configured secret is rejected once the secret is unset, unless it was the fallback. */
  lemma SecretChangeInvalidates(configured: string, claims: Claims, issued: int, now: int)
    requires configured != "" && configured != FallbackSecret
    ensures VerifyToken(None, Sign(claims, JwtSecret(Some(configured)), issued, LoginTtl), now) == Failure("Invalid token")
  {
  }
}
