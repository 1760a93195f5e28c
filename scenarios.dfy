/**
 * Navigations and a logout, written as callers of the store and the guard
 * would write them; the assertions follow from the contracts alone.
 */
module Scenarios {
  import opened Wrappers
  import opened Js
  import opened Auth
  import opened Guards

  /** A `jwtDecode` that knows two well-formed tokens and rejects every other string. */
  function SampleDecode(token: string): (p: Option<Payload>)
  {
    if token == "client.jwt" then Some(Value(Claims(Some("ana@example.com"), None, Some("cliente"))))
    else if token == "admin.jwt" then Some(Value(Claims(None, Some("root@example.com"), Some("admin"))))
    else None
  }

  /** Sample values for a production page and a development page; the repository sets neither. */
  const Production := Env("hotelventura.com.ec", Some("https://auth.hotelventura.com.ec"))
  const Development := Env("localhost", None)

  lemma ProductionLoginUrl()
    ensures LoginUrl(Production.viteAuthUrl) == "https://auth.hotelventura.com.ec/auth/login"
  {
  }

  /** The sample production hostname has no 's', so it cannot include "localhost": removals name the parent domain. */
  lemma ProductionRemovalDomain()
    ensures RemovalDomain(Production.hostname) == Shared(ProductionCookieDomain)
  {
    NotIncludedWithoutChar(Production.hostname, LocalhostMarker, 7);
  }

  /** No cookie, protected route: the page goes to the login URL and no session appears. */
  method NoCookieOnProtectedRoute()
  {
    var store := new AuthStore(SampleDecode, None);
    var outcome := AuthGuard(store, RouteMeta(true, None), Development);
    assert outcome == RedirectExternal("http://localhost:5174/auth/login");
    assert !store.isAuthenticated && store.cookie.None?;
  }

  /** A client token on a route for admins only: back to "/", session kept. */
  method ClientOnAdminRoute()
  {
    var store := new AuthStore(SampleDecode, Some("client.jwt"));
    var outcome := AuthGuard(store, RouteMeta(true, Some(["admin"])), Production);
    assert outcome == RedirectInternal("/");
    assert store.isAuthenticated && store.user == Some(User(Some("ana@example.com"), "cliente"));
    assert store.token == Some("client.jwt");
  }

  /** An admin token on a route for admins and clients: allowed; the email falls back to the email claim. */
  method AdminOnSharedRoute()
  {
    assert SampleDecode("admin.jwt") == Some(Value(Claims(None, Some("root@example.com"), Some("admin"))));
    var store := new AuthStore(SampleDecode, Some("admin.jwt"));
    var outcome := AuthGuard(store, RouteMeta(true, Some(["admin", "cliente"])), Production);
    assert outcome == Allow;
    assert store.user == Some(User(Some("root@example.com"), "admin"));
  }

  /** A malformed token: the session is cleared, the cookie removed, the page sent to login. */
  method MalformedTokenOnProtectedRoute()
  {
    assert SampleDecode("not-a-jwt") == None;
    var store := new AuthStore(SampleDecode, Some("not-a-jwt"));
    var outcome := AuthGuard(store, RouteMeta(true, Some(["admin"])), Production);
    ProductionLoginUrl();
    assert outcome == RedirectExternal("https://auth.hotelventura.com.ec/auth/login");
    assert !store.isAuthenticated && store.token.None? && store.cookie.None?;
    ProductionRemovalDomain();
    assert store.lastRemoval == Some(Shared(".hotelventura.com.ec"));
  }

  /** A public route while anonymous: allowed, even though the route lists roles. */
  method PublicRouteWhileAnonymous()
  {
    var store := new AuthStore(SampleDecode, None);
    var outcome := AuthGuard(store, RouteMeta(false, Some(["admin"])), Production);
    assert outcome == Allow;
    assert !store.isAuthenticated && store.token.None? && store.user.None?;
  }

  /** Logout from an authenticated session: everything cleared, cookie removed, redirect issued. */
  method LogoutAfterRestore()
  {
    var store := new AuthStore(SampleDecode, Some("admin.jwt"));
    var first := AuthGuard(store, RouteMeta(true, None), Development);
    assert first == Allow && store.isAuthenticated;
    var href := store.Logout(Development);
    assert href == "http://localhost:5174/auth/login";
    assert !store.isAuthenticated && store.token.None? && store.user.None? && store.cookie.None?;
    assert store.lastRemoval == Some(HostOnly);
  }
}
