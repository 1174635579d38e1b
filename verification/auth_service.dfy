/** Checks on a user record kept in the browser (src/api/authService.ts):
    the structural check `isUserDataValid`, the server-side check
    `verifyUserWithServer` and the activity ping `updateUserActivity`. The
    server is a function parameter from the request key to its reply; the
    clock is the ISO 8601 string `new Date().toISOString()` returns. */
module AuthService {
  import opened Lists
  import opened Text
  import opened Domain

  /** A JavaScript value used as a user id: a number or a string. Strict
      equality (`===`) between ids is equality of these values, so a number
      never equals a string. */
  datatype JsId = IdNum(n: int) | IdStr(s: string)

  predicate TruthyId(x: Option<JsId>)
  {
    x.Some? && match x.value
      case IdNum(n) => n != 0
      case IdStr(s) => s != ""
  }

  /** A parsed user record with the fields the checks read; an absent field
      (or `null`) is `None`. */
  datatype LooseUser = LooseUser(
    id: Option<JsId>,
    prenom: Option<string>,
    nom: Option<string>,
    email: Option<string>)

  predicate HasKey(u: LooseUser)
  {
    Truthy(u.email) || TruthyId(u.id)
  }

  /** `isUserDataValid`: a present user with an email or an id, and with a
      first name or a last name. */
  predicate IsUserDataValid(user: Option<LooseUser>)
  {
    user.Some? && HasKey(user.value) && (Truthy(user.value.prenom) || Truthy(user.value.nom))
  }

  /** A record passes exactly when it is present, has a non-empty email or
      an id other than `0` and `""`, and has a non-empty first or last name. */
  lemma IsUserDataValidMeaning(user: Option<LooseUser>)
    ensures IsUserDataValid(user) <==>
      user.Some?
      && ((user.value.email.Some? && user.value.email.value != "")
          || (user.value.id.Some? && user.value.id.value != IdNum(0) && user.value.id.value != IdStr("")))
      && ((user.value.prenom.Some? && user.value.prenom.value != "")
          || (user.value.nom.Some? && user.value.nom.value != ""))
  {
  }

  /** `user.email || user.id`: the key the user is looked up by. */
  function RequestKey(u: LooseUser): (k: JsId)
    requires HasKey(u)
    ensures Truthy(u.email) ==> k == IdStr(u.email.value)
    ensures !Truthy(u.email) ==> Some(k) == u.id
  {
    if Truthy(u.email) then IdStr(u.email.value) else u.id.value
  }

  /** What the server does with a `GET /users/{key}`: a failure (not found,
      server down), or a reply whose body may be empty. */
  datatype Reply = RequestFailed | Ok(data: Option<LooseUser>)

  /** The key fields agree: same email, or same id, or same first and last
      name. */
  predicate SameUser(d: LooseUser, u: LooseUser)
  {
    d.email == u.email || d.id == u.id || (d.prenom == u.prenom && d.nom == u.nom)
  }

  /** The outcome of `verifyUserWithServer`: the key it asked the server
      about, if any, and its answer. */
  datatype Verification = Verification(request: Option<JsId>, valid: bool)

  function VerifyUserWithServer(user: Option<LooseUser>, server: JsId -> Reply): (r: Verification)
    ensures r.request.None? <==> user.None? || !HasKey(user.value)
    ensures r.request.Some? ==> r.request.value == RequestKey(user.value)
    ensures r.valid <==> r.request.Some? && server(r.request.value).Ok?
                         && server(r.request.value).data.Some?
                         && SameUser(server(r.request.value).data.value, user.value)
  {
    if user.None? || !HasKey(user.value) then Verification(None, false)
    else
      var key := RequestKey(user.value);
      match server(key)
      case RequestFailed => Verification(Some(key), false)
      case Ok(data) => Verification(Some(key), data.Some? && SameUser(data.value, user.value))
  }

  /** A server that answers with the stored record itself confirms it. */
  lemma EchoVerifies(u: LooseUser, server: JsId -> Reply)
    requires HasKey(u) && server(RequestKey(u)) == Ok(Some(u))
    ensures VerifyUserWithServer(Some(u), server).valid
  {
  }

  /** A record kept with a string id (as the client's records are) is never
      matched by id against a server's numeric id: the reply must then agree
      on the email or on both names. */
  lemma StringIdNeverMatchesNumber(u: LooseUser, server: JsId -> Reply)
    requires HasKey(u) && u.id.Some? && u.id.value.IdStr?
    requires VerifyUserWithServer(Some(u), server).valid
    requires server(RequestKey(u)).Ok? && server(RequestKey(u)).data.Some?
    requires var d := server(RequestKey(u)).data.value; d.id.Some? && d.id.value.IdNum?
    ensures var d := server(RequestKey(u)).data.value;
      d.email == u.email || (d.prenom == u.prenom && d.nom == u.nom)
  {
  }

  /** A structurally valid record always leads to a request. */
  lemma ValidUserIsLookedUp(user: Option<LooseUser>, server: JsId -> Reply)
    requires IsUserDataValid(user)
    ensures VerifyUserWithServer(user, server).request == Some(RequestKey(user.value))
  {
  }

  /** The trailing milliseconds of `toISOString()`: a dot, three digits and
      'Z' (the regular expression `/\.\d{3}Z$/`). */
  predicate EndsWithMillis(s: string)
  {
    |s| >= 5 && s[|s| - 5] == '.' && IsDigit(s[|s| - 4]) && IsDigit(s[|s| - 3])
    && IsDigit(s[|s| - 2]) && s[|s| - 1] == 'Z'
  }

  /** The timestamp sent as `updated_at`: trailing milliseconds become six
      zero digits; any other string is left alone. */
  function FormatTimestamp(iso: string): (r: string)
    ensures !EndsWithMillis(r)
    ensures EndsWithMillis(iso) ==>
      (|r| == |iso| + 3 && r[..|iso| - 4] == iso[..|iso| - 4] && r[|iso| - 4..] == "000000Z")
    ensures !EndsWithMillis(iso) ==> r == iso
  {
    if EndsWithMillis(iso) then iso[..|iso| - 5] + ".000000Z" else iso
  }

  /** Formatting an already formatted timestamp changes nothing. */
  lemma FormatTimestampIdempotent(iso: string)
    ensures FormatTimestamp(FormatTimestamp(iso)) == FormatTimestamp(iso)
  {
  }

  /** The outcome of `updateUserActivity`: the `PATCH /users/{id}` it sent,
      if any, with its `updated_at` body, and its answer. */
  datatype Activity = Activity(request: Option<(JsId, string)>, ok: bool)

  /** `updateUserActivity`: nothing is sent for a falsy id; otherwise the
      answer is true only for status 200 or 204. `status` is the reply's
      status, `None` when the request throws. */
  function UpdateUserActivity(userId: Option<JsId>, nowIso: string, status: Option<int>): (r: Activity)
    ensures !TruthyId(userId) ==> r.request.None? && !r.ok
    ensures TruthyId(userId) ==> r.request == Some((userId.value, FormatTimestamp(nowIso)))
    ensures r.ok <==> TruthyId(userId) && (status == Some(200) || status == Some(204))
  {
    if !TruthyId(userId) then Activity(None, false)
    else
      var sent := Some((userId.value, FormatTimestamp(nowIso)));
      match status
      case None => Activity(sent, false)
      case Some(code) => Activity(sent, code == 200 || code == 204)
  }
}
