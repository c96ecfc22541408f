/**
 * Credential checks (app/auth/middleware.py, app/auth/router.py).
 * Password hashing and token signing are foreign libraries: they enter
 * the model as the opaque functions of a `Credentials` value.
 */
module Auth {
  import opened Wrappers
  import opened Domain

  /** The payload of a decoded access token. */
  datatype Claims = Claims(sub: Option<string>, role: Option<string>, exp: int)

  /**
   * The hashing and token libraries. `decode` fails on a bad signature or
   * an expired token; nothing else about them is assumed.
   */
  datatype Credentials = Credentials(
    hash: string -> string,
    verify: (string, string) -> bool,
    encode: Claims -> string,
    decode: string -> Option<Claims>)

  /** Access tokens live 30 minutes. */
  const AccessTokenExpireSeconds: int := 30 * 60

  /** The registration body; its `isActive` is ignored by registration. */
  datatype UserCreate = UserCreate(username: string, role: UserRole, isActive: bool, password: string)

  /**
   * The role gate: the token is verified first, then its role claim must
   * be one of `allowedRoles`; on success the payload is handed back as is.
   */
  function Authorize(token: string, allowedRoles: seq<string>, decode: string -> Option<Claims>): (r: Result<Claims>)
    ensures decode(token).None? ==> r == Err(Unauthorized)
    ensures decode(token).Some? ==>
      (r.Ok? <==> decode(token).value.role.Some? && decode(token).value.role.value in allowedRoles)
    ensures decode(token).Some? && r.Err? ==> r.error == Forbidden
    ensures r.Ok? ==> decode(token) == Some(r.value)
  {
    match decode(token)
    case None => Err(Unauthorized)
    case Some(payload) =>
      if payload.role.Some? && payload.role.value in allowedRoles then Ok(payload) else Err(Forbidden)
  }

  /** The gate is a pure membership test: a larger role list never denies what a smaller one allows. */
  lemma AuthorizeMonotone(token: string, allowed: seq<string>, larger: seq<string>, decode: string -> Option<Claims>)
    requires forall x :: x in allowed ==> x in larger
    requires Authorize(token, allowed, decode).Ok?
    ensures Authorize(token, larger, decode) == Authorize(token, allowed, decode)
  {
  }

  /** The claims `login` signs: the username as subject and the user's role. */
  function LoginClaims(u: User, now: int): (c: Claims)
    ensures c.sub == Some(u.username) && c.exp > now
    ensures c.role.Some? && ParseRole(c.role.value) == Some(u.role)
  {
    Claims(Some(u.username), Some(RoleName(u.role)), now + AccessTokenExpireSeconds)
  }

  /**
   * A token issued at login passes a role gate exactly when the user's role
   * is on the list, provided the token library round-trips its claims.
   */
  lemma LoginTokenGate(creds: Credentials, u: User, now: int, allowed: seq<string>)
    requires creds.decode(creds.encode(LoginClaims(u, now))) == Some(LoginClaims(u, now))
    ensures Authorize(creds.encode(LoginClaims(u, now)), allowed, creds.decode).Ok? <==> RoleName(u.role) in allowed
  {
  }

  ghost predicate UniqueUsernames(users: map<int, User>) {
    forall a, b :: a in users && b in users && users[a].username == users[b].username ==> a == b
  }

  /** Adding a user whose name is not taken keeps usernames unique. */
  lemma RegisterKeepsUnique(users: map<int, User>, id: int, u: User)
    requires UniqueUsernames(users)
    requires id !in users
    requires forall k :: k in users ==> users[k].username != u.username
    ensures UniqueUsernames(users[id := u])
  {
  }

  /** The first of `rows` (lowest id) whose username is `name`. */
  function FindUser(rows: seq<(int, User)>, name: string): (r: Option<int>)
    ensures r.None? <==> forall i :: 0 <= i < |rows| ==> rows[i].1.username != name
    ensures r.Some? ==> exists i :: 0 <= i < |rows| && rows[i].0 == r.value && rows[i].1.username == name
  {
    if rows == [] then None
    else if rows[0].1.username == name then Some(rows[0].0)
    else
      var r := FindUser(rows[1..], name);
      assert forall i :: 1 <= i < |rows| ==> rows[i] == rows[1..][i - 1];
      r
  }

  /**
   * get_current_user: the token must verify, carry a subject, and name an
   * existing user; every failure is Unauthorized. Activity is not checked.
   */
  function CurrentUser(token: string, decode: string -> Option<Claims>, rows: seq<(int, User)>): (r: Result<int>)
    ensures r.Ok? <==>
      decode(token).Some? && decode(token).value.sub.Some? &&
      exists i :: 0 <= i < |rows| && rows[i].1.username == decode(token).value.sub.value
    ensures r.Err? ==> r.error == Unauthorized
    ensures r.Ok? ==> exists i :: 0 <= i < |rows| && rows[i].0 == r.value && rows[i].1.username == decode(token).value.sub.value
  {
    match decode(token)
    case None => Err(Unauthorized)
    case Some(payload) =>
      match payload.sub
      case None => Err(Unauthorized)
      case Some(name) =>
        match FindUser(rows, name)
        case None => Err(Unauthorized)
        case Some(id) => Ok(id)
  }

  /**
   * login's credential test: the user named must exist and the password
   * must verify against the stored hash; `isActive` plays no part. `rows`
   * is the users table, whose usernames are unique.
   */
  function CheckLogin(rows: seq<(int, User)>, users: map<int, User>, username: string, password: string,
                      verify: (string, string) -> bool): (r: Result<int>)
    requires forall i :: 0 <= i < |rows| ==> rows[i].0 in users && users[rows[i].0] == rows[i].1
    requires forall k :: k in users ==> (k, users[k]) in rows
    requires UniqueUsernames(users)
    ensures r.Err? ==> r.error == Unauthorized
    ensures r.Ok? ==>
      r.value in users && users[r.value].username == username &&
      verify(password, users[r.value].passwordHash)
    ensures r.Ok? <==>
      exists k :: k in users && users[k].username == username && verify(password, users[k].passwordHash)
  {
    match FindUser(rows, username)
    case None => Err(Unauthorized)
    case Some(id) =>
      if verify(password, users[id].passwordHash) then Ok(id) else Err(Unauthorized)
  }
}
