/** The route guard (src/authguard/ProtectedRoute.tsx): a waiting view while
    the session is being checked, a redirect to the login page when there is
    no session, the protected page otherwise. */
module RouteGuard {
  import opened Lists
  import opened Domain
  import opened AuthService
  import opened AuthProvider

  datatype GuardView = Waiting | RedirectToLogin | Children

  function Guard(isLoading: bool, isAuthenticated: bool): (v: GuardView)
    ensures v == Waiting <==> isLoading
    ensures v == RedirectToLogin <==> !isLoading && !isAuthenticated
    ensures v == Children <==> !isLoading && isAuthenticated
  {
    if isLoading then Waiting
    else if !isAuthenticated then RedirectToLogin
    else Children
  }

  /** Once start-up has finished, the protected page is shown exactly when
      the stored user passed both checks; otherwise the guard redirects. */
  lemma GuardAfterStartup(storage: map<string, string>, parse: string -> Parsed, server: JsId -> Reply)
    ensures var a := InitialAuth(GetItem(storage, UserKey), parse, server);
      && (Guard(false, a.Some?) == Children <==>
           (UserKey in storage && storage[UserKey] != "" && parse(storage[UserKey]).Parsed?
            && IsUserDataValid(parse(storage[UserKey]).value)
            && VerifyUserWithServer(parse(storage[UserKey]).value, server).valid))
      && (Guard(false, a.Some?) != Children ==> Guard(false, a.Some?) == RedirectToLogin)
  {
    RestoredOnlyWhenBothChecksPass(storage, parse, server);
  }
}
