/** The session store over the server's login (src/contexts/AuthContext.tsx):
    the session is restored from `pharma_user` on mount; a login reads
    `response.user` and `response.token` from what `authApi.login` resolves
    to, keeps the converted user and persists it with the token. What
    `authApi.login` resolves to is a parameter, so that both a response
    carrying a session and the bare user record that the wired
    `authApi.login` returns can be stated. */
module ApiAuth {
  import opened Lists
  import opened Text
  import opened Domain
  import opened ApiServices

  const UserKey := "pharma_user"
  const TokenKey := "pharma_token"

  /** What the login call gives: it throws, resolves to a bare user record
      (no `user` field, so `response.user.id` throws), or resolves to
      `{ user, token }`. */
  datatype LoginResponse = LoginThrew | Bare(record: ApiUser) | WithSession(user: ApiUser, token: string)

  /** The user and token a login keeps, or `None` when `login` answers
      false. The user is converted as `transformUser` does. */
  function SessionOf(response: LoginResponse): (r: Option<(User, string)>)
    ensures r.Some? <==> response.WithSession?
    ensures r.Some? ==> r.value.0.password == "" && ParseInt(r.value.0.id) == Some(response.user.id)
                        && r.value.0.badgeId == response.user.badgeId && r.value.1 == response.token
  {
    if response.WithSession? then Some((TransformUser(response.user), response.token)) else None
  }

  /** The response the wired `authApi.login` produces: the bare record of
      the user found, or a thrown error. */
  function WiredResponse(lookup: LoginLookup): LoginResponse
  {
    match lookup
    case Found(u) => Bare(u)
    case LoginFailed(_) => LoginThrew
  }

  /** As wired, a login never succeeds, whatever the users, email and
      password: the found record has no `user` field. */
  lemma WiredLoginAlwaysFails(users: seq<ApiUser>, email: string, password: string)
    ensures SessionOf(WiredResponse(AuthApiLogin(users, email, password))).None?
  {
  }

  class ApiSession {
    var user: Option<User>
    var storage: map<string, string>

    /** The lazy initial state: the parsed `pharma_user` if one is stored. */
    constructor(stored: map<string, string>, parse: string -> User)
      ensures storage == stored
      ensures user == if Truthy(GetItem(stored, UserKey)) then Some(parse(stored[UserKey])) else None
    {
      storage := stored;
      var saved := GetItem(stored, UserKey);
      user := if Truthy(saved) then Some(parse(saved.value)) else None;
    }

    /** `login`: true exactly when the response carries a session, which is
        then kept and persisted with its token; otherwise false and nothing
        changes. */
    method Login(response: LoginResponse, stringify: User -> string) returns (ok: bool)
      modifies this
      ensures ok <==> SessionOf(response).Some?
      ensures ok ==> user == Some(SessionOf(response).value.0)
                     && storage == old(storage)[UserKey := stringify(user.value)][TokenKey := SessionOf(response).value.1]
      ensures !ok ==> user == old(user) && storage == old(storage)
    {
      match response
      case LoginThrew =>
        return false;
      case Bare(_) =>
        return false;
      case WithSession(apiUser, token) =>
        var transformedUser := TransformUser(apiUser);
        user := Some(transformedUser);
        storage := storage[UserKey := stringify(transformedUser)];
        storage := storage[TokenKey := token];
        return true;
    }

    /** `logout`: no user, neither key stored. */
    method Logout()
      modifies this
      ensures user.None? && !IsAdmin()
      ensures storage == old(storage) - {UserKey, TokenKey}
    {
      user := None;
      storage := storage - {UserKey};
      storage := storage - {TokenKey};
    }

    /** `user?.role === 'ADMIN'`. */
    predicate IsAdmin()
      reads this
      ensures IsAdmin() ==> user.Some?
    {
      user.Some? && user.value.role == Admin
    }
  }

  /** A stored session survives a remount: the token and the user are
      written together, and the user is read back on mount when its text
      parses back to it. */
  lemma LoginThenRemount(storage: map<string, string>, response: LoginResponse,
                         stringify: User -> string, parse: string -> User)
    requires SessionOf(response).Some?
    requires var u := SessionOf(response).value.0; stringify(u) != "" && parse(stringify(u)) == u
    ensures var u := SessionOf(response).value.0;
      var after := storage[UserKey := stringify(u)][TokenKey := SessionOf(response).value.1];
      && GetItem(after, TokenKey) == Some(response.token)
      && (if Truthy(GetItem(after, UserKey)) then Some(parse(after[UserKey])) else None) == Some(u)
  {
  }
}
