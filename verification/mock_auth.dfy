/** The session store over a fixed list of users (src/context/AuthContext.tsx):
    a user logs in with an email and a badge id that both match a listed
    user, and the session is kept in the browser under `pharmacy_user`. The
    simulated half-second delay is left out; `JSON.parse`/`JSON.stringify`
    are parameters. */
module MockAuth {
  import opened Lists
  import opened Domain

  const SessionKey := "pharmacy_user"

  /** `MOCK_USERS.find(u => u.email === email && u.badgeId === badgeId)`. */
  function FindUser(users: seq<User>, email: string, badgeId: string): (r: Option<User>)
    ensures r.None? <==> forall i :: 0 <= i < |users| ==> !(users[i].email == email && users[i].badgeId == badgeId)
    ensures r.Some? ==> exists i :: 0 <= i < |users| && users[i] == r.value
                                   && forall j :: 0 <= j < i ==> !(users[j].email == email && users[j].badgeId == badgeId)
    ensures r.Some? ==> r.value.email == email && r.value.badgeId == badgeId
  {
    match FindIndex(users, (u: User) => u.email == email && u.badgeId == badgeId)
    case Some(i) => Some(users[i])
    case None => None
  }

  class MockSession {
    var user: Option<User>
    var storage: map<string, string>
    const users: seq<User>

    /** Mounting: a non-empty stored session is restored. */
    constructor(mockUsers: seq<User>, stored: map<string, string>, parse: string -> User)
      ensures users == mockUsers && storage == stored
      ensures user == if Truthy(GetItem(stored, SessionKey)) then Some(parse(stored[SessionKey])) else None
    {
      users := mockUsers;
      storage := stored;
      var storedUser := GetItem(stored, SessionKey);
      if Truthy(storedUser) {
        user := Some(parse(storedUser.value));
      } else {
        user := None;
      }
    }

    /** `login`: true and a persisted session when a listed user matches both
        the email and the badge id; otherwise false and nothing changes. */
    method Login(email: string, badgeId: string, stringify: User -> string) returns (ok: bool)
      modifies this
      ensures ok <==> exists i :: 0 <= i < |users| && users[i].email == email && users[i].badgeId == badgeId
      ensures ok ==> user == FindUser(users, email, badgeId)
                     && storage == old(storage)[SessionKey := stringify(user.value)]
      ensures !ok ==> user == old(user) && storage == old(storage)
      ensures ok ==> HasRole(user.value.role) && IsAuthenticated()
    {
      var foundUser := FindUser(users, email, badgeId);
      if foundUser.Some? {
        user := foundUser;
        storage := storage[SessionKey := stringify(foundUser.value)];
        return true;
      }
      return false;
    }

    /** `logout`: no session, nothing stored. */
    method Logout()
      modifies this
      ensures user.None? && !IsAuthenticated()
      ensures storage == old(storage) - {SessionKey}
    {
      user := None;
      storage := storage - {SessionKey};
    }

    /** `!!user`. */
    predicate IsAuthenticated()
      reads this
    {
      user.Some?
    }

    /** `user?.role === role`: only a logged-in user holds a role. */
    predicate HasRole(role: Role)
      reads this
      ensures HasRole(role) ==> IsAuthenticated()
    {
      user.Some? && user.value.role == role
    }
  }

  /** A session is authenticated exactly when it holds one of the two roles. */
  lemma AuthenticatedHasARole(s: MockSession)
    ensures s.IsAuthenticated() <==> s.HasRole(Admin) || s.HasRole(Vendeur)
  {
  }

  /** A session never holds both roles at once. */
  lemma RolesExclusive(s: MockSession)
    ensures !(s.HasRole(Admin) && s.HasRole(Vendeur))
  {
  }
}
