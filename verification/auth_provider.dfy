/** The session provider (src/context/AuthProvider.tsx): on start-up it
    restores the user kept under the storage key `user` only when the record
    is structurally valid and the server confirms it; afterwards `setAuth`
    and `logout` change the session and the storage together. React state
    becomes the fields of a class, `localStorage` a map, `JSON.parse` and
    `JSON.stringify` parameters, and the server the reply function of
    `verifyUserWithServer`. */
module AuthProvider {
  import opened Lists
  import opened Domain
  import opened AuthService
  import LegacyInventory

  const UserKey := "user"

  /** `JSON.parse` on the stored text: it throws, or yields a value that is
      a user record or `null`. */
  datatype Parsed = Unparsable | Parsed(value: Option<LooseUser>)

  /** The user `initializeAuth` restores from the stored text, if any. */
  function InitialAuth(stored: Option<string>, parse: string -> Parsed, server: JsId -> Reply): Option<LooseUser>
  {
    if !Truthy(stored) then None
    else match parse(stored.value)
      case Unparsable => None
      case Parsed(u) =>
        if IsUserDataValid(u) && VerifyUserWithServer(u, server).valid then u else None
  }

  /** The storage after `initializeAuth`: a stored user that is not restored
      is removed. */
  function StorageAfterInit(storage: map<string, string>, parse: string -> Parsed,
                            server: JsId -> Reply): map<string, string>
  {
    var stored := GetItem(storage, UserKey);
    if Truthy(stored) && InitialAuth(stored, parse, server).None? then storage - {UserKey} else storage
  }

  /** The session is restored only when both checks pass; whatever the
      stored text, a restored session is a valid, server-confirmed user. */
  lemma RestoredOnlyWhenBothChecksPass(storage: map<string, string>, parse: string -> Parsed,
                                        server: JsId -> Reply)
    ensures var a := InitialAuth(GetItem(storage, UserKey), parse, server);
      a.Some? <==> (UserKey in storage && storage[UserKey] != ""
                    && parse(storage[UserKey]).Parsed?
                    && IsUserDataValid(parse(storage[UserKey]).value)
                    && VerifyUserWithServer(parse(storage[UserKey]).value, server).valid)
    ensures var a := InitialAuth(GetItem(storage, UserKey), parse, server);
      a.Some? ==> a == parse(storage[UserKey]).value
  {
  }

  /** A stored user that is not restored (unparsable, invalid or rejected)
      is gone from the storage; a restored one stays. */
  lemma RejectedUserRemoved(storage: map<string, string>, parse: string -> Parsed, server: JsId -> Reply)
    ensures var a := InitialAuth(GetItem(storage, UserKey), parse, server);
      && (a.None? && Truthy(GetItem(storage, UserKey)) ==> UserKey !in StorageAfterInit(storage, parse, server))
      && (a.Some? ==> StorageAfterInit(storage, parse, server) == storage)
  {
  }

  class Provider {
    var auth: Option<LooseUser>
    var isAuthenticated: bool
    var isLoading: bool
    var storage: map<string, string>

    /** The session flag mirrors the user, and a user in the session is
        structurally valid. */
    ghost predicate Valid()
      reads this
    {
      isAuthenticated == auth.Some? && (auth.Some? ==> IsUserDataValid(auth))
    }

    /** Mounting: no user yet, loading. */
    constructor(stored: map<string, string>)
      ensures Valid()
      ensures auth.None? && !isAuthenticated && isLoading && storage == stored
    {
      auth := None;
      isAuthenticated := false;
      isLoading := true;
      storage := stored;
    }

    /** `initializeAuth`: every path ends with loading off. */
    method InitializeAuth(parse: string -> Parsed, server: JsId -> Reply)
      modifies this
      ensures Valid() && !isLoading
      ensures auth == InitialAuth(GetItem(old(storage), UserKey), parse, server)
      ensures storage == StorageAfterInit(old(storage), parse, server)
    {
      var storedUser := GetItem(storage, UserKey);
      if Truthy(storedUser) {
        match parse(storedUser.value)
        case Unparsable =>
          storage := storage - {UserKey};
          auth := None;
          isAuthenticated := false;
        case Parsed(user) =>
          if !IsUserDataValid(user) {
            storage := storage - {UserKey};
            auth := None;
            isAuthenticated := false;
            isLoading := false;
            return;
          }
          var isValidOnServer := VerifyUserWithServer(user, server).valid;
          if !isValidOnServer {
            storage := storage - {UserKey};
            auth := None;
            isAuthenticated := false;
            isLoading := false;
            return;
          }
          auth := user;
          isAuthenticated := true;
      } else {
        auth := None;
        isAuthenticated := false;
      }
      isLoading := false;
    }

    /** `handleSetAuth`: a valid user is accepted and persisted; an invalid
        user or `null` clears both the session and the stored user. */
    method HandleSetAuth(user: Option<LooseUser>, stringify: LooseUser -> string)
      modifies this
      ensures Valid() && isLoading == old(isLoading)
      ensures auth == (if IsUserDataValid(user) then user else None)
      ensures storage == if IsUserDataValid(user) then old(storage)[UserKey := stringify(user.value)]
                         else old(storage) - {UserKey}
    {
      if user.Some? {
        if !IsUserDataValid(user) {
          auth := None;
          isAuthenticated := false;
          storage := storage - {UserKey};
          return;
        }
        auth := user;
        isAuthenticated := true;
        storage := storage[UserKey := stringify(user.value)];
      } else {
        auth := None;
        isAuthenticated := false;
        storage := storage - {UserKey};
      }
    }

    /** `logout`: the stored user and the three cached lists are removed. */
    method Logout()
      modifies this
      ensures Valid() && isLoading == old(isLoading)
      ensures auth.None? && !isAuthenticated
      ensures storage == old(storage) - {UserKey, LegacyInventory.ProductsKey,
                                         LegacyInventory.SalesKey, LegacyInventory.RequestsKey}
    {
      storage := storage - {UserKey};
      storage := storage - {LegacyInventory.ProductsKey};
      storage := storage - {LegacyInventory.SalesKey};
      storage := storage - {LegacyInventory.RequestsKey};
      auth := None;
      isAuthenticated := false;
    }
  }

  /** A user accepted by `setAuth` is restored on the next start-up, as long
      as the stored text parses back to it and the server confirms it. */
  lemma SetAuthThenRestart(storage: map<string, string>, u: LooseUser, stringify: LooseUser -> string,
                           parse: string -> Parsed, server: JsId -> Reply)
    requires IsUserDataValid(Some(u)) && stringify(u) != ""
    requires parse(stringify(u)) == Parsed(Some(u))
    requires VerifyUserWithServer(Some(u), server).valid
    ensures InitialAuth(GetItem(storage[UserKey := stringify(u)], UserKey), parse, server) == Some(u)
  {
  }

  /** After `logout` nothing is restored on the next start-up. */
  lemma LogoutThenRestart(storage: map<string, string>, parse: string -> Parsed, server: JsId -> Reply)
    ensures InitialAuth(GetItem(storage - {UserKey, LegacyInventory.ProductsKey, LegacyInventory.SalesKey,
                                           LegacyInventory.RequestsKey}, UserKey), parse, server).None?
  {
  }
}
