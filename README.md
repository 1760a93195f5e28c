# HotelVentura session and route-authorisation core, in Dafny

This project models the client-side session layer of the HotelVentura Vue application:

- The session store `useAuthStore` (`src/modules/auth/store/auth.ts`). It holds `token`, `user` and `isAuthenticated`.
  - `checkAuth` restores the session from the `token` cookie through `jwtDecode`.
  - `clearState` empties the session and removes the cookie.
  - `logout` clears and then sends the page to the authentication provider's login page.
- The navigation guard `authGuard` (`src/app/router/guards.ts`). It restores the session when it is not authenticated. Then it allows the navigation, sends the router to `/` after a denial alert, or sends the page to `{authUrl}/auth/login`.

Files:

- `wrappers.dfy`: `Option`.
- `js.dfy`: the JavaScript semantics the code relies on. This covers truthiness of a string that may be `undefined` (`""` is falsy), `||`, and `String.prototype.includes`.
- `auth.dfy`: module `Auth`. It holds the claims, user and state datatypes and pure functions that say what each action leaves behind (`Cleared`, `Restored`). It also holds the class `AuthStore`, whose methods change its fields step by step and are proved to end in exactly those states.
- `guards.dfy`: module `Guards`. It holds the pure decision `Decide`, the restore-then-decide function `Navigate`, and the imperative guard `AuthGuard`, which works on an `AuthStore`.
- `lifecycle.dfy`: every state reached from the initial store by any sequence of actions and guarded navigations stays complete.
- `scenarios.dfy`: methods that act as clients. They drive the store and the guard through a missing cookie, a client token on an admin route, an admin token, a malformed token, a public route and a logout. Their assertions follow from the contracts alone.

Foreign pieces become parameters:

- `jwtDecode` becomes the store's `decode: string -> Option<Payload>`.
  - `None` means the decode threw.
  - `Some(Null)` is a payload that is JSON `null`. Reading `decoded.sub` then throws, after `token` and `isAuthenticated` were already written. The catch clears that half-written state.
  - `Some(Value(claims))` is any other payload. Its `sub`, `email` and `role` may each be absent.
- The cookie jar is the field `cookie: Option<string>`. `Cookies.remove` sets it to `None` and records the domain option it was given in `lastRemoval`.
- `window.location.hostname` and `import.meta.env.VITE_AUTH_URL` are the `Env` parameter.
- `window.location.href = …` and `next(…)` become the returned value: the login URL from `Logout`, and an `Outcome` from the guard.

Behaviour worth noting, modelled as the code has it:

- An empty cookie is falsy, so it takes the `clearState` path and is removed.
- An empty role claim becomes `cliente`.
- A token with neither `sub` nor `email` is accepted. It gives a user whose `email` is absent.
- An empty `allowedRoles` array is still truthy, so it denies every role.
- A route without `requiresAuth` is allowed even when it lists roles.
- A role denial does not clear the session.
- An authenticated session is never restored again, even if the cookie has since changed.

The guard method requires `store.Valid()`. This is the store's object invariant: the constructor sets it up and every action keeps it.

A payload missing `sub`, `email` or `role` is not rejected:

- A missing role becomes `cliente` (src/modules/auth/store/auth.ts:28).
- A missing `sub` and `email` leaves `email` undefined (src/modules/auth/store/auth.ts:27), although the `User` interface (src/modules/auth/store/auth.ts:5-8) types it as `string`. The model's `User.email` is therefore optional.

## Model

| member | source | states |
|---|---|---|
| `Js.Or` | src/modules/auth/store/auth.ts:27-28 | The JavaScript or-operator gives the left operand when it is a non-empty string and the right one otherwise. The result is truthy exactly when one operand is. |
| `Js.Includes` | src/modules/auth/store/auth.ts:46 | The search is true exactly when `t` occurs in `s` at some index. |
| `Js.NotIncludedWithoutChar` | src/modules/auth/store/auth.ts:46 | A hostname that lacks a character of the marker does not include it. |
| `Auth.UserOf` | src/modules/auth/store/auth.ts:26-29 | The role is never empty. It is the role claim when that is non-empty, otherwise `cliente`. The email is `sub` when non-empty, otherwise the `email` claim. The email is absent exactly when `sub` is falsy and `email` is missing. |
| `Auth.DecodedUser` | src/modules/auth/store/auth.ts:23-29 | A token yields a user exactly when `jwtDecode` succeeds with a non-null payload. That user is the one built from its claims. |
| `Auth.Consistent` | src/modules/auth/store/auth.ts:11-15 | There are only two complete states. Either authenticated, with a non-empty token and the user that token decodes to, or anonymous, with neither. Either way, `isAuthenticated` holds exactly when token and user are both present. |
| `Auth.RemovalDomain` | src/modules/auth/store/auth.ts:46-49 | The removal domain is left unset exactly when the hostname contains `localhost`. Otherwise it is `.hotelventura.com.ec`. |
| `Auth.LoginUrl` | src/modules/auth/store/auth.ts:57-58 | The URL is `VITE_AUTH_URL + '/auth/login'` when that variable is non-empty, otherwise `http://localhost:5174/auth/login`. It always ends in `/auth/login`. |
| `Auth.Initial` | src/modules/auth/store/auth.ts:11-15 | The store starts anonymous, with no token and no user, beside the browser's cookie. |
| `Auth.Cleared` | src/modules/auth/store/auth.ts:42-49 | Clearing leaves no token, no user and `isAuthenticated` false, whatever came before. The cookie is removed and the removal domain is the one the hostname selects. The result is consistent under every decoder. |
| `Auth.Restored` | src/modules/auth/store/auth.ts:18-39 | The result is always consistent, so no partial state survives. It is authenticated exactly when the cookie is truthy and its payload yields a user. An authenticated result holds the cookie's token and leaves the cookie alone. Otherwise the result is the cleared state. The cookie is kept or removed, never written. |
| `Auth.RestoreWithoutCookie` | src/modules/auth/store/auth.ts:35-38 | With no cookie, or an empty one, the result has no token, no user, is not authenticated, and the cookie stays absent. |
| `Auth.RestoreWithDecodableCookie` | src/modules/auth/store/auth.ts:21-29 | With a cookie whose payload carries claims, the token equals the cookie, the session is authenticated, and the user is built from those claims. |
| `Auth.RestoreWithUndecodableCookie` | src/modules/auth/store/auth.ts:30-34 | When `jwtDecode` throws, or the payload is `null`, the result is exactly the cleared state, with the cookie removed. |
| `Auth.RestoreIdempotent` | src/modules/auth/store/auth.ts:18-39 | Restoring a second time, with the cookie left as the first restore left it, gives the same state. |
| `Auth.AuthStore.constructor` | src/modules/auth/store/auth.ts:10-15 | A new store is in the initial state and satisfies the invariant. |
| `Auth.AuthStore.ClearState` | src/modules/auth/store/auth.ts:42-50 | From any prior state, the new state is the cleared one and the invariant holds. |
| `Auth.AuthStore.CheckAuth` | src/modules/auth/store/auth.ts:18-39 | The step-by-step action, including the half-written state on a `null` payload, ends in the restored state of the old state. The invariant holds from any prior state. |
| `Auth.AuthStore.Logout` | src/modules/auth/store/auth.ts:53-59 | The new state is the cleared one, and the page is sent to the login URL. |
| `Guards.RoleOf` | src/app/router/guards.ts:33 | The role looked up as `user?.role` or-else `''` is `""` for a missing user and the user's own role otherwise. |
| `Guards.Decide` | src/app/router/guards.ts:17-41 | A public route is always allowed. The external login redirect happens exactly on a protected route with no session, and it goes to the login URL. An internal redirect to `/` happens exactly on a protected, authenticated route whose role list lacks the role. Allow holds otherwise. The three conditions partition every input. |
| `Guards.DecideOnSession` | src/app/router/guards.ts:30-36 | On a consistent authenticated session, the compared role is the user's own non-empty role. The denial condition is then stated in terms of that role. |
| `Guards.Navigate` | src/app/router/guards.ts:9-41 | The store is restored exactly when it is not authenticated, and an authenticated store is left unchanged. The outcome is the decision on the state after the restore. Consistency is preserved. A role denial leaves the session authenticated. An external redirect leaves no token and no user. |
| `Guards.NavigateStable` | src/app/router/guards.ts:13-15 | A second navigation with nothing changed in between leaves the state as the first one did. |
| `Guards.AuthGuard` | src/app/router/guards.ts:4-42 | The imperative guard, with its early returns, ends with exactly the state and outcome of `Navigate`, and it keeps the invariant. |
| `Lifecycle.StepKeepsInvariant` | src/modules/auth/store/auth.ts:17-59 | Any one action or navigation keeps the state complete. It keeps the token equal to the current cookie while authenticated, and keeps the cookie as the original or removed. |
| `Lifecycle.RunKeepsInvariant` | src/modules/auth/store/auth.ts:17-59 | The same three facts hold after any sequence of actions and navigations, proved by induction on the sequence. |
| `Lifecycle.SessionAlwaysComplete` | src/modules/auth/store/auth.ts:11-59 | From the initial store, after any sequence of events, `isAuthenticated` holds exactly when token and user are present. The user is the one the token decodes to. The token is the current cookie. The cookie is the original or gone. |
| `Scenarios.ProductionRemovalDomain` | src/modules/auth/store/auth.ts:46-49 | On the sample production host `hotelventura.com.ec` the cookie is removed with domain `.hotelventura.com.ec`. |
| `Scenarios.ProductionLoginUrl` | src/app/router/guards.ts:23-25 | With `VITE_AUTH_URL` set to a sample production base URL, the login redirect goes to that base plus `/auth/login`. |

## Left out

- JWT signature and expiry checks: the code does none, so the model adds none. The internals of `jwtDecode` are not modelled: base64url and JSON parsing are a foreign library, and the model uses an abstract decoder.
- `Claims` values that are not strings, such as a numeric `sub` or `role`, are not modelled. JavaScript would keep or default them by truthiness, but the model's claims are strings or absent.
- Cookie mechanics. The model has one optional cookie value and records the domain option of the last removal. A real browser may not remove a cookie whose domain does not match, and the model treats every removal as effective. The provider writing the cookie, and other tabs changing it, are not modelled.
- Side effects: `console.error` on a failed decode and the text of the denial `alert` are not modelled. `RedirectInternal` stands for the alert followed by `next('/')`.
- The `from` argument of the guard is not modelled, because the guard never reads it.
- Pinia's `defineStore` singleton and reactivity are not modelled. The store is one `AuthStore` object passed to the guard.
- `Lifecycle.Run` lets events follow an external redirect or a logout. In the application that page would be gone. This is an over-approximation, and the invariant holds on it anyway.
- Strings are Dafny character sequences, not UTF-16 code units. None of the compared strings depends on the difference.
- `src/app/router/index.ts` is not modelled. It declares one route with no `meta` and does not register the guard, so there is nothing there to decide.
- `src/main.ts` (application bootstrap and toast setup) and `tailwind.config.ts` (styling) are not modelled, because they hold no logic.
