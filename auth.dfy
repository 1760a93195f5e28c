/**
 * The session store (`useAuthStore`): the token, the user derived from it and
 * the authenticated flag, restored from the persisted `token` cookie through
 * a JWT decode, and cleared (removing the cookie) on a failed decode, on a
 * missing cookie and on logout.
 *
 * The pure functions below state what each action leaves behind; the class
 * `AuthStore` performs the actions step by step on its fields and is proved
 * to end in exactly those states.
 */
module Auth {
  import opened Wrappers
  import opened Js

  /** Role given to a user whose token carries no (or an empty) role claim. */
  const DefaultRole := "cliente"
  /** Base URL of the authentication provider when VITE_AUTH_URL is unset or empty. */
  const FallbackAuthUrl := "http://localhost:5174"
  /** Path of the provider's login page, appended to the base URL. */
  const LoginPath := "/auth/login"
  /** Parent domain the provider scopes the cookie to outside local development. */
  const ProductionCookieDomain := ".hotelventura.com.ec"
  /** Marker looked for in the page's hostname to recognise local development. */
  const LocalhostMarker := "localhost"

  /** The claims of a decoded token payload that the store reads, each possibly absent. */
  datatype Claims = Claims(sub: Option<string>, email: Option<string>, role: Option<string>)

  /**
   * What `jwtDecode` returns when it does not throw: the JSON `null` (on which
   * reading a claim throws a TypeError), or any other value, whose claims read
   * as absent when it is not an object carrying them.
   */
  datatype Payload = Null | Value(claims: Claims)

  /** `jwtDecode`: `None` is a thrown `InvalidTokenError`. It checks no signature and no expiry. */
  type Decoder = string -> Option<Payload>

  /** The `User` record. `email` may be absent: `sub || email` is `undefined` when both claims are. */
  datatype User = User(email: Option<string>, role: string)

  /** The `domain` option passed to `Cookies.remove`: left unset, or the shared parent domain. */
  datatype CookieDomain = HostOnly | Shared(domain: string)

  /** What the store reads from its surroundings: `window.location.hostname` and `VITE_AUTH_URL`. */
  datatype Env = Env(hostname: string, viteAuthUrl: Option<string>)

  /**
   * The store's three fields, the browser's `token` cookie and the domain
   * given to the most recent removal of that cookie.
   */
  datatype StoreState = StoreState(
    token: Option<string>,
    user: Option<User>,
    isAuthenticated: bool,
    cookie: Option<string>,
    lastRemoval: Option<CookieDomain>)

  /** The user built from the claims: `{ email: sub || email, role: role || 'cliente' }`. */
  function UserOf(c: Claims): (u: User)
    ensures u.role != ""
    ensures Truthy(c.role) ==> u.role == c.role.value
    ensures !Truthy(c.role) ==> u.role == DefaultRole
    ensures Truthy(c.sub) ==> u.email == c.sub
    ensures !Truthy(c.sub) ==> u.email == c.email
    ensures u.email.None? <==> !Truthy(c.sub) && c.email.None?
  {
    User(Or(c.sub, c.email), Or(c.role, Some(DefaultRole)).value)
  }

  /** The user a token yields, or `None` when decoding it (or reading its claims) throws. */
  function DecodedUser(decode: Decoder, token: string): (u: Option<User>)
    ensures u.Some? <==> decode(token).Some? && decode(token).value.Value?
    ensures u.Some? ==> u.value == UserOf(decode(token).value.claims)
  {
    match decode(token)
    case Some(Value(c)) => Some(UserOf(c))
    case _ => None
  }

  /**
   * The two complete states a session may be in: authenticated, with a
   * non-empty token and the user that token decodes to; or anonymous, with
   * neither token nor user.
   */
  predicate Consistent(st: StoreState, decode: Decoder)
    ensures Consistent(st, decode) ==> (st.isAuthenticated <==> st.token.Some? && st.user.Some?)
  {
    (st.isAuthenticated && Truthy(st.token) && st.user.Some? && DecodedUser(decode, st.token.value) == st.user)
    || (!st.isAuthenticated && st.token.None? && st.user.None?)
  }

  /** The removal domain: unset when the hostname includes "localhost", the parent domain otherwise. */
  function RemovalDomain(hostname: string): (d: CookieDomain)
    ensures d == HostOnly <==> exists i :: OccursAt(hostname, LocalhostMarker, i)
    ensures d.Shared? ==> d.domain == ProductionCookieDomain
  {
    if Includes(hostname, LocalhostMarker) then HostOnly else Shared(ProductionCookieDomain)
  }

  /** `${VITE_AUTH_URL || 'http://localhost:5174'}/auth/login`. */
  function LoginUrl(viteAuthUrl: Option<string>): (url: string)
    ensures Truthy(viteAuthUrl) ==> url == viteAuthUrl.value + LoginPath
    ensures !Truthy(viteAuthUrl) ==> url == FallbackAuthUrl + LoginPath
    ensures |url| > |LoginPath| && url[|url| - |LoginPath|..] == LoginPath
  {
    Or(viteAuthUrl, Some(FallbackAuthUrl)).value + LoginPath
  }

  /** The state the store is created in, beside whatever cookie the browser holds. */
  function Initial(cookie: Option<string>): (st: StoreState)
    ensures forall decode: Decoder :: Consistent(st, decode)
    ensures !st.isAuthenticated && st.token.None? && st.user.None?
    ensures st.cookie == cookie && st.lastRemoval.None?
  {
    StoreState(None, None, false, cookie, None)
  }

  /**
   * The state `clearState` leaves, whatever the state before it: no token,
   * no user, not authenticated, and the cookie removed with the domain the
   * hostname selects.
   */
  function Cleared(hostname: string): (st: StoreState)
    ensures forall decode: Decoder :: Consistent(st, decode)
    ensures !st.isAuthenticated && st.token.None? && st.user.None? && st.cookie.None?
    ensures st.lastRemoval == Some(RemovalDomain(hostname))
  {
    StoreState(None, None, false, None, Some(RemovalDomain(hostname)))
  }

  /**
   * The state `checkAuth` leaves: the session restored from a truthy cookie
   * whose payload yields a user, and the cleared state otherwise.
   */
  function Restored(st: StoreState, hostname: string, decode: Decoder): (r: StoreState)
    // no partial state survives, whatever the state before
    ensures Consistent(r, decode)
    ensures r.isAuthenticated <==> Truthy(st.cookie) && DecodedUser(decode, st.cookie.value).Some?
    // a restored session holds the cookie's token and leaves the cookie where it was
    ensures r.isAuthenticated ==> r.token == st.cookie && r.cookie == st.cookie && r.lastRemoval == st.lastRemoval
    ensures !r.isAuthenticated ==> r == Cleared(hostname)
    // the store never writes a cookie: it keeps it or removes it
    ensures r.cookie == st.cookie || r.cookie.None?
  {
    if Truthy(st.cookie) && DecodedUser(decode, st.cookie.value).Some? then
      st.(token := st.cookie, user := DecodedUser(decode, st.cookie.value), isAuthenticated := true)
    else
      Cleared(hostname)
  }

  /** With no cookie (or an empty one) `checkAuth` clears the session and the cookie stays absent. */
  lemma RestoreWithoutCookie(st: StoreState, hostname: string, decode: Decoder)
    requires !Truthy(st.cookie)
    ensures var r := Restored(st, hostname, decode);
      r.token.None? && r.user.None? && !r.isAuthenticated && r.cookie.None?
  {
  }

  /**
   * With a cookie whose payload carries claims, `checkAuth` authenticates with
   * the cookie's token and the user those claims give.
   */
  lemma RestoreWithDecodableCookie(st: StoreState, hostname: string, decode: Decoder, c: Claims)
    requires Truthy(st.cookie) && decode(st.cookie.value) == Some(Value(c))
    ensures var r := Restored(st, hostname, decode);
      r.token == st.cookie && r.isAuthenticated && r.user == Some(UserOf(c)) && r.cookie == st.cookie
  {
  }

  /**
   * With a cookie that `jwtDecode` rejects, or whose payload is `null`, the
   * session is cleared and the cookie removed.
   */
  lemma RestoreWithUndecodableCookie(st: StoreState, hostname: string, decode: Decoder)
    requires Truthy(st.cookie)
    requires decode(st.cookie.value).None? || decode(st.cookie.value) == Some(Null)
    ensures Restored(st, hostname, decode) == Cleared(hostname)
  {
  }

  /** Restoring twice with the cookie left as the first restore left it changes nothing more. */
  lemma RestoreIdempotent(st: StoreState, hostname: string, decode: Decoder)
    ensures Restored(Restored(st, hostname, decode), hostname, decode) == Restored(st, hostname, decode)
  {
  }

  /** The store. Its fields change only through the three actions below. */
  class AuthStore {
    /** The `jwtDecode` function the store was built against. */
    const decode: Decoder
    var token: Option<string>
    var user: Option<User>
    var isAuthenticated: bool
    /** The browser's `token` cookie, written by the authentication provider. */
    var cookie: Option<string>
    /** The domain passed to the most recent `Cookies.remove('token', …)`, if any. */
    var lastRemoval: Option<CookieDomain>

    function State(): (st: StoreState)
      reads this
    {
      StoreState(token, user, isAuthenticated, cookie, lastRemoval)
    }

    ghost predicate Valid()
      reads this
    {
      Consistent(State(), decode)
    }

    /** The store as the page creates it, before any action, beside the browser's cookie. */
    constructor (decode: Decoder, cookie: Option<string>)
      ensures this.decode == decode
      ensures State() == Initial(cookie)
      ensures Valid()
    {
      this.decode := decode;
      token, user, isAuthenticated := None, None, false;
      this.cookie := cookie;
      lastRemoval := None;
    }

    /** `clearState`. */
    method ClearState(env: Env)
      modifies this
      ensures State() == Cleared(env.hostname)
      ensures Valid()
    {
      token := None;
      user := None;
      isAuthenticated := false;
      var isLocalhost := Includes(env.hostname, LocalhostMarker);
      cookie := None;
      lastRemoval := Some(if isLocalhost then HostOnly else Shared(ProductionCookieDomain));
    }

    /**
     * `checkAuth`. A null payload makes the claim read throw after the token
     * and the flag were written; the catch then clears that half-written state.
     */
    method CheckAuth(env: Env)
      modifies this
      ensures State() == Restored(old(State()), env.hostname, decode)
      ensures Valid()
    {
      var t := cookie;
      if Truthy(t) {
        var decoded := decode(t.value);
        if decoded.None? {
          ClearState(env);
        } else {
          token := t;
          isAuthenticated := true;
          match decoded.value
          case Null =>
            ClearState(env);
          case Value(claims) =>
            user := Some(UserOf(claims));
        }
      } else {
        ClearState(env);
      }
    }

    /** `logout`: clears the session, then sends the page to the provider's login URL. */
    method Logout(env: Env) returns (href: string)
      modifies this
      ensures State() == Cleared(env.hostname)
      ensures Valid()
      ensures href == LoginUrl(env.viteAuthUrl)
    {
      ClearState(env);
      var authUrl := Or(env.viteAuthUrl, Some(FallbackAuthUrl)).value;
      href := authUrl + LoginPath;
    }
  }
}
