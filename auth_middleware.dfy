/**
 * The route guards: `authMiddleware` admits a request whose
 * `Authorization: Bearer <token>` header carries a token that verifies and
 * names an existing user, and attaches that user (without the digest);
 * `adminMiddleware` admits only an attached user whose role is "admin".
 */
module AuthMiddleware {
  import opened Wrappers
  import opened Text
  import opened Crypto
  import opened Users

  /** The guard's decision: continue with the attached user, or the error it throws. */
  datatype Gate = Pass(user: PublicUser) | Reject(status: int, message: string)

  const BearerPrefix: string := "Bearer "
  const MalformedMessage: string := "Authentication token is missing or malformed"
  const InvalidMessage: string := "Invalid or expired token"
  const AdminOnlyMessage: string := "Access denied. Admin privileges required"

  /** A present, non-empty header that starts with "Bearer ". */
  predicate WellFormedHeader(header: Option<string>) {
    Truthy(header) && StartsWith(header.value, BearerPrefix)
  }

  /** `authHeader.split(' ')[1]`: what follows "Bearer " up to the next space. */
  function BearerToken(header: string): (t: string)
    requires StartsWith(header, BearerPrefix)
    ensures t == Split(header[|BearerPrefix|..], ' ')[0]
    ensures ' ' !in t
  {
    var rest := header[|BearerPrefix|..];
    assert header == "Bearer" + [' '] + rest by {
      assert header == header[..|BearerPrefix|] + rest;
    }
    SplitAfterField("Bearer", ' ', rest);
    Split(header, ' ')[1]
  }

  /** A token without spaces sent as "Bearer <token>" is read back unchanged. */
  lemma BearerTokenRoundTrip(t: string)
    requires ' ' !in t
    ensures StartsWith(BearerPrefix + t, BearerPrefix)
    ensures BearerToken(BearerPrefix + t) == t
  {
    assert (BearerPrefix + t)[..|BearerPrefix|] == BearerPrefix;
    assert (BearerPrefix + t)[|BearerPrefix|..] == t;
    SplitWithoutSeparator(t, ' ');
  }

  /**
   * `authMiddleware`. `verify` is `jwt.verify` under `JWT_SECRET` at the
   * time of the request. Everything that fails after the header check (the
   * verification, a payload without `id`, an id that is not an ObjectId, no
   * such user) is caught and re-thrown as the same 401.
   */
  function Authenticate(header: Option<string>, verify: string -> Result<Claims, JwtError>, users: seq<User>): (g: Gate)
    ensures !WellFormedHeader(header) ==> g == Reject(401, MalformedMessage)
    ensures g.Pass? <==>
      && WellFormedHeader(header)
      && var decoded := verify(BearerToken(header.value));
         && decoded.Success? && decoded.value.id.Some? && IsObjectId(decoded.value.id.value)
         && FindFirst(users, ById(decoded.value.id.value)).Some?
    ensures g.Pass? ==> exists u :: u in users && g.user == Redacted(u) && Some(u.id) == verify(BearerToken(header.value)).value.id
    ensures WellFormedHeader(header) && g.Reject? ==> g == Reject(401, InvalidMessage)
  {
    if !WellFormedHeader(header) then Reject(401, MalformedMessage)
    else
      var decoded := verify(BearerToken(header.value));
      if decoded.Failure? || decoded.value.id.None? || !IsObjectId(decoded.value.id.value) then Reject(401, InvalidMessage)
      else
        match FindFirst(users, ById(decoded.value.id.value))
        case None => Reject(401, InvalidMessage)
        case Some(k) => Pass(Redacted(users[k]))
  }

  /** A missing or malformed header is refused before the token is looked at: `verify` does not matter. */
  lemma MalformedHeaderSkipsVerification(header: Option<string>, v1: string -> Result<Claims, JwtError>,
                                         v2: string -> Result<Claims, JwtError>, users: seq<User>)
    requires !WellFormedHeader(header)
    ensures Authenticate(header, v1, users) == Authenticate(header, v2, users)
  {
  }

  /** `adminMiddleware`: no attached user, or a role other than "admin", is 403. */
  function Admin(user: Option<PublicUser>): (g: Gate)
    ensures g.Pass? <==> user.Some? && user.value.role == "admin"
    ensures g.Pass? ==> g.user == user.value
    ensures g.Reject? ==> g == Reject(403, AdminOnlyMessage)
  {
    if user.None? || user.value.role != "admin" then Reject(403, AdminOnlyMessage)
    else Pass(user.value)
  }

  /** A newly registered user (role "user") never passes the admin guard. */
  lemma NewUsersAreNotAdmins(id: UserId, name: Option<string>, email: string, d: Digest)
    ensures Admin(Some(Redacted(NewUser(id, name, email, d)))).Reject?
  {
  }
}
