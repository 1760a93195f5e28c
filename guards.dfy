/**
 * The navigation guard (`authGuard`): before each route transition it
 * restores the session when it is not authenticated, then allows the
 * transition, sends the router to "/" after a denial notice, or sends the
 * whole page to the provider's login URL.
 */
module Guards {
  import opened Wrappers
  import opened Js
  import opened Auth

  /** The route's `meta`: `requiresAuth` (absent reads as false) and `allowedRoles` (possibly undefined). */
  datatype RouteMeta = RouteMeta(requiresAuth: bool, allowedRoles: Option<seq<string>>)

  /**
   * How one navigation ends: `next()`, `next(path)` after the denial alert, or
   * `window.location.href = url` with `next` never called.
   */
  datatype Outcome = Allow | RedirectInternal(path: string) | RedirectExternal(url: string)

  /** The in-app route a denied user is sent to. */
  const LandingPath := "/"

  /** `user?.role || ''`: the user's role, or "" when there is no user. */
  function RoleOf(user: Option<User>): (role: string)
    ensures user.None? ==> role == ""
    ensures user.Some? ==> role == user.value.role
  {
    Or(if user.Some? then Some(user.value.role) else None, Some("")).value
  }

  /**
   * The decision taken on the session as it stands once the restore is done.
   * Each outcome is characterised by its condition; the three conditions
   * cover every input and exclude each other.
   */
  function Decide(to: RouteMeta, isAuthenticated: bool, user: Option<User>, viteAuthUrl: Option<string>): (o: Outcome)
    // a public route is entered, whatever the session and whatever roles it lists
    ensures !to.requiresAuth ==> o == Allow
    // the login redirect happens exactly on a protected route with no session
    ensures o.RedirectExternal? <==> to.requiresAuth && !isAuthenticated
    ensures o.RedirectExternal? ==> o.url == LoginUrl(viteAuthUrl)
    // a role denial happens exactly on a protected route whose role list lacks the session's role
    ensures o.RedirectInternal? <==>
      to.requiresAuth && isAuthenticated && to.allowedRoles.Some? && RoleOf(user) !in to.allowedRoles.value
    ensures o.RedirectInternal? ==> o.path == LandingPath
    // without a role list any authenticated session passes
    ensures o == Allow <==>
      !to.requiresAuth || (isAuthenticated && (to.allowedRoles.None? || RoleOf(user) in to.allowedRoles.value))
  {
    if !to.requiresAuth then Allow
    else if !isAuthenticated then RedirectExternal(LoginUrl(viteAuthUrl))
    else match to.allowedRoles
      case Some(roles) => if RoleOf(user) in roles then Allow else RedirectInternal(LandingPath)
      case None => Allow
  }

  /** On a consistent authenticated session the role compared is the user's own, never "". */
  lemma DecideOnSession(to: RouteMeta, st: StoreState, decode: Decoder, viteAuthUrl: Option<string>)
    requires Consistent(st, decode) && st.isAuthenticated
    ensures st.user.Some? && st.user.value.role != ""
    ensures var o := Decide(to, st.isAuthenticated, st.user, viteAuthUrl);
      o.RedirectInternal? <==>
        to.requiresAuth && to.allowedRoles.Some? && st.user.value.role !in to.allowedRoles.value
  {
  }

  /** The state a navigation leaves and its outcome: restore only when not authenticated, then decide. */
  function Navigate(st: StoreState, to: RouteMeta, env: Env, decode: Decoder): (r: (StoreState, Outcome))
    // checkAuth runs exactly when the session is not authenticated; an authenticated one is left alone
    ensures st.isAuthenticated ==> r.0 == st
    ensures !st.isAuthenticated ==> r.0 == Restored(st, env.hostname, decode)
    ensures r.1 == Decide(to, r.0.isAuthenticated, r.0.user, env.viteAuthUrl)
    ensures Consistent(st, decode) ==> Consistent(r.0, decode)
    // a role denial never clears the session
    ensures r.1.RedirectInternal? ==> r.0.isAuthenticated
    // the external redirect leaves no session behind it
    ensures Consistent(st, decode) && r.1.RedirectExternal? ==> r.0.token.None? && r.0.user.None?
  {
    var after := if st.isAuthenticated then st else Restored(st, env.hostname, decode);
    (after, Decide(to, after.isAuthenticated, after.user, env.viteAuthUrl))
  }

  /** Navigating again with nothing changed in between leaves the state as the first navigation did. */
  lemma NavigateStable(st: StoreState, to: RouteMeta, to': RouteMeta, env: Env, decode: Decoder)
    ensures Navigate(Navigate(st, to, env, decode).0, to', env, decode).0 == Navigate(st, to, env, decode).0
  {
    if !st.isAuthenticated {
      RestoreIdempotent(st, env.hostname, decode);
    }
  }

  /** `authGuard(to, from, next)`, run against the application's store. */
  method AuthGuard(store: AuthStore, to: RouteMeta, env: Env) returns (outcome: Outcome)
    requires store.Valid()
    modifies store
    ensures store.Valid()
    ensures (store.State(), outcome) == Navigate(old(store.State()), to, env, store.decode)
  {
    if !store.isAuthenticated {
      store.CheckAuth(env);
    }

    if to.requiresAuth {
      if !store.isAuthenticated {
        var authUrl := Or(env.viteAuthUrl, Some(FallbackAuthUrl)).value;
        outcome := RedirectExternal(authUrl + LoginPath);
        return;
      }

      var allowedRoles := to.allowedRoles;
      if allowedRoles.Some? && RoleOf(store.user) !in allowedRoles.value {
        outcome := RedirectInternal(LandingPath);
        return;
      }
    }

    outcome := Allow;
  }
}
