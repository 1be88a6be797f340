/** The guard in front of the host pages: a signed-out visitor is sent to the
    login page, a signed-in user whose session token does not carry the HOST
    role is sent home, and only a host sees the guarded page. */
module ProtectedRoute {
  import opened Common
  import opened Records
  import opened AuthSlice

  const HostRole := "HOST"
  const LoginPath := "/login"
  const HomePath := "/"

  /** What the route renders. */
  datatype Outcome = Navigate(to: string) | RenderChildren

  /** `ProtectedRoute`, given `getIsAuthenticated` and `getUserRole`. */
  function Guard(isAuthenticated: bool, role: Option<string>): (o: Outcome)
    ensures o == Navigate(LoginPath) <==> !isAuthenticated
    ensures o == Navigate(HomePath) <==> isAuthenticated && role != Some(HostRole)
    ensures o == RenderChildren <==> isAuthenticated && role == Some(HostRole)
  {
    if !isAuthenticated then Navigate(LoginPath)
    else if role != Some(HostRole) then Navigate(HomePath)
    else RenderChildren
  }

  /** The guard as a function of the whole `login` slice and the token decoder. */
  function GuardFor(s: AuthState, decode: string -> Option<Claims>): Outcome {
    Guard(s.isAuthenticated, GetUserRole(s.token, decode))
  }

  /** The guarded page shows only when the slice holds a token that decodes to
      the HOST role, and the authentication flag is set. */
  lemma GuardedPageNeedsHostToken(s: AuthState, decode: string -> Option<Claims>)
    ensures GuardFor(s, decode) == RenderChildren
            <==> s.isAuthenticated && Truthy(s.token) && decode(s.token.value) == Some(Claims(Some(HostRole)))
  {
    if s.isAuthenticated && Truthy(s.token) && decode(s.token.value) == Some(Claims(Some(HostRole))) {
      assert GetUserRole(s.token, decode) == Some(HostRole);
    }
  }

  /** A Google sign-in on a store that started without a stored token leaves
      the token empty, so even a host is sent home until the page reloads. */
  method GoogleSignInWithoutStoredToken(user: Option<Record>, decode: string -> Option<Claims>)
    returns (o: Outcome)
    ensures o == Navigate(HomePath)
  {
    var store := new AuthStore(None);
    var _ := store.Dispatch(GooglePending);
    var _ := store.Dispatch(GoogleFulfilled(user));
    o := Guard(store.isAuthenticated, GetUserRole(store.token, decode));
  }

  /** After a password sign-in the guard no longer sends the visitor to the
      login page; after the logout that follows, it does. */
  method LogoutLocksGuardedPages(storedToken: Option<string>, token: Option<string>, decode: string -> Option<Claims>)
    returns (before: Outcome, after: Outcome)
    ensures before != Navigate(LoginPath)
    ensures after == Navigate(LoginPath)
  {
    var store := new AuthStore(storedToken);
    var _ := store.Dispatch(LoginPending);
    var _ := store.Dispatch(LoginFulfilled(token));
    before := Guard(store.isAuthenticated, GetUserRole(store.token, decode));
    var _ := store.Dispatch(LogoutFulfilled);
    after := Guard(store.isAuthenticated, GetUserRole(store.token, decode));
  }
}
