/**
 * The session over the life of a page: the store is shared by every
 * component, so it is changed by any sequence of the three actions and of
 * guarded navigations. Every state such a sequence reaches is complete, holds
 * the token of the cookie it was restored from, and leaves the cookie as the
 * provider wrote it or removed.
 */
module Lifecycle {
  import opened Wrappers
  import opened Auth
  import opened Guards

  /** One change to the store: an action called by some component, or a guarded navigation. */
  datatype Event = CheckAuth | ClearState | Logout | Navigation(to: RouteMeta)

  function Step(st: StoreState, e: Event, env: Env, decode: Decoder): (r: StoreState)
  {
    match e
    case CheckAuth => Restored(st, env.hostname, decode)
    case ClearState => Cleared(env.hostname)
    case Logout => Cleared(env.hostname)
    case Navigation(to) => Navigate(st, to, env, decode).0
  }

  function Run(st: StoreState, events: seq<Event>, env: Env, decode: Decoder): (r: StoreState)
    decreases |events|
  {
    if events == [] then st else Run(Step(st, events[0], env, decode), events[1..], env, decode)
  }

  /**
   * What holds of every reachable state, for a page whose browser held
   * `cookie0` when the store was created.
   */
  ghost predicate Invariant(st: StoreState, cookie0: Option<string>, decode: Decoder)
  {
    Consistent(st, decode)
    && (st.isAuthenticated ==> st.token == st.cookie)
    && (st.cookie == cookie0 || st.cookie.None?)
  }

  lemma StepKeepsInvariant(st: StoreState, e: Event, env: Env, decode: Decoder, cookie0: Option<string>)
    requires Invariant(st, cookie0, decode)
    ensures Invariant(Step(st, e, env, decode), cookie0, decode)
  {
  }

  lemma {:induction false} RunKeepsInvariant(st: StoreState, events: seq<Event>, env: Env, decode: Decoder, cookie0: Option<string>)
    requires Invariant(st, cookie0, decode)
    ensures Invariant(Run(st, events, env, decode), cookie0, decode)
    decreases |events|
  {
    if events != [] {
      StepKeepsInvariant(st, events[0], env, decode, cookie0);
      RunKeepsInvariant(Step(st, events[0], env, decode), events[1..], env, decode, cookie0);
    }
  }

  /**
   * From the store's initial state, after any sequence of events:
   * `isAuthenticated` holds exactly when both token and user are present,
   * the user is the one the token decodes to, the token is the current
   * cookie, and the cookie is the original one or gone.
   */
  lemma {:induction false} SessionAlwaysComplete(cookie0: Option<string>, events: seq<Event>, env: Env, decode: Decoder)
    ensures var st := Run(Initial(cookie0), events, env, decode);
      (st.isAuthenticated <==> st.token.Some? && st.user.Some?)
      && (st.isAuthenticated ==> st.token == st.cookie && DecodedUser(decode, st.token.value) == st.user)
      && (st.cookie == cookie0 || st.cookie.None?)
  {
    RunKeepsInvariant(Initial(cookie0), events, env, decode, cookie0);
  }
}
