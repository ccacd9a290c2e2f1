/**
 * The user collection as the authentication code reads and writes it: a
 * sequence in insertion order, so that `findOne(filter)` is the first user
 * the filter matches.
 */
module Users {
  import opened Wrappers
  import opened Text
  import opened Crypto

  type UserId = string

  /**
   * A user record. `refreshToken` and `resetPasswordToken` are the paths the
   * versioned service writes, `resetToken` the one the handlers write.
   */
  datatype User = User(
    id: UserId,
    name: Option<string>,
    email: string,
    password: Digest,
    role: string,
    refreshToken: Option<Token>,
    resetPasswordToken: Option<Token>,
    resetToken: Option<Token>)

  const DefaultRole: string := "user"

  /** `new User({ name, email, password })`: the default role and no tokens. */
  function NewUser(id: UserId, name: Option<string>, email: string, password: Digest): (u: User)
    ensures u.id == id && u.name == name && u.email == email && u.password == password
    ensures u.role == DefaultRole
    ensures u.refreshToken.None? && u.resetPasswordToken.None? && u.resetToken.None?
  {
    User(id, name, email, password, DefaultRole, None, None, None)
  }

  /** The query filters the authentication code sends. */
  datatype Filter =
    | ByEmail(email: string)
    | ById(id: UserId)
    | ByIdAndRefreshToken(id: UserId, refresh: Token)
    | ByIdAndResetPasswordToken(id: UserId, reset: Token)
    | ByIdAndResetToken(id: UserId, reset: Token)

  predicate Satisfies(u: User, f: Filter) {
    match f
    case ByEmail(e) => u.email == e
    case ById(id) => u.id == id
    case ByIdAndRefreshToken(id, t) => u.id == id && u.refreshToken == Some(t)
    case ByIdAndResetPasswordToken(id, t) => u.id == id && u.resetPasswordToken == Some(t)
    case ByIdAndResetToken(id, t) => u.id == id && u.resetToken == Some(t)
  }

  /** `findOne(filter)`: the position of the first matching user, if any. */
  function FindFirst(users: seq<User>, f: Filter): (r: Option<nat>)
    ensures r.Some? ==> r.value < |users| && Satisfies(users[r.value], f)
    ensures r.Some? ==> forall j :: 0 <= j < r.value ==> !Satisfies(users[j], f)
    ensures r.None? <==> forall j :: 0 <= j < |users| ==> !Satisfies(users[j], f)
    decreases |users|
  {
    if users == [] then None
    else if Satisfies(users[0], f) then Some(0)
    else
      match FindFirst(users[1..], f)
      case None => None
      case Some(k) =>
        assert forall j :: 1 <= j <= k ==> users[j] == users[1..][j - 1];
        Some(k + 1)
  }

  predicate IdsUnique(users: seq<User>) {
    forall i, j :: 0 <= i < j < |users| ==> users[i].id != users[j].id
  }

  predicate EmailsUnique(users: seq<User>) {
    forall i, j :: 0 <= i < j < |users| ==> users[i].email != users[j].email
  }

  /** With unique identifiers a filter on the identifier finds the one user that has it. */
  lemma FindByIdUnique(users: seq<User>, f: Filter, k: nat)
    requires IdsUnique(users) && !f.ByEmail? && k < |users| && Satisfies(users[k], f)
    ensures FindFirst(users, f) == Some(k)
  {
    var i := FindFirst(users, f).value;
    assert users[i].id == f.id;
  }

  /** Changing one user's fields other than identifier and email keeps both unique. */
  lemma ReplaceKeepsUnique(users: seq<User>, k: nat, u: User)
    requires k < |users| && u.id == users[k].id && u.email == users[k].email
    requires IdsUnique(users) && EmailsUnique(users)
    ensures IdsUnique(users[k := u]) && EmailsUnique(users[k := u])
  {
  }

  /** A user with a new identifier and email keeps both unique. */
  lemma AppendKeepsUnique(users: seq<User>, u: User)
    requires IdsUnique(users) && EmailsUnique(users)
    requires FindFirst(users, ByEmail(u.email)).None? && FindFirst(users, ById(u.id)).None?
    ensures IdsUnique(users + [u]) && EmailsUnique(users + [u])
  {
  }

  /** What a caller sees of a user: identifier, name and email. */
  datatype Profile = Profile(id: UserId, name: Option<string>, email: string)

  function ProfileOf(u: User): (p: Profile)
    ensures p.id == u.id && p.name == u.name && p.email == u.email
  {
    Profile(u.id, u.name, u.email)
  }

  /** A user loaded with `select('-password')`: everything but the digest. */
  datatype PublicUser = PublicUser(
    id: UserId, name: Option<string>, email: string, role: string,
    refreshToken: Option<Token>, resetPasswordToken: Option<Token>, resetToken: Option<Token>)

  function Redacted(u: User): (p: PublicUser)
    ensures p.id == u.id && p.email == u.email && p.role == u.role
  {
    PublicUser(u.id, u.name, u.email, u.role, u.refreshToken, u.resetPasswordToken, u.resetToken)
  }
}
