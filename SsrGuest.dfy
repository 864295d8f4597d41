/** `withSRRGuest`: a guest page sends a visitor with an access token to the dashboard. */
module SsrGuest {
  import opened Wrappers
  import opened Cookies
  import opened Runtime
  import Permissions
  import SsrAuth

  /** `fnOutcome` is how `fn(ctx)` would settle; it is returned as it is when no token is there. */
  function WithSRRGuest<P>(cookies: Store, fnOutcome: Outcome<P>): (r: Outcome<P>)
    ensures Truthy(cookies, AccessTokenKey) ==> r == Resolved(Redirect("/dashboard", false))
    ensures !Truthy(cookies, AccessTokenKey) ==> r == fnOutcome
  {
    if Truthy(cookies, AccessTokenKey) then Resolved(Redirect(DashboardRoute, false)) else fnOutcome
  }

  /** The decision reads the access token cookie and nothing else: two stores that agree on it,
   *  whatever their other cookies, get the same answer. */
  lemma GuestDependsOnlyOnAccessToken<P>(a: Store, b: Store, fnOutcome: Outcome<P>)
    requires Lookup(a, AccessTokenKey) == Lookup(b, AccessTokenKey)
    ensures WithSRRGuest(a, fnOutcome) == WithSRRGuest(b, fnOutcome)
  {
    assert Truthy(a, AccessTokenKey) <==> Truthy(b, AccessTokenKey);
  }

  /** A request that a session page's guard lets through to its page is one that every guest
   *  page sends to the dashboard: no request reaches both kinds of page. */
  lemma GuestAndSessionPagesExclusive<P, Q>(cookies: Store, decode: string -> Option<Permissions.Claims>,
                                            options: Option<SsrAuth.Options>, pageOutcome: Outcome<P>, guestOutcome: Outcome<Q>)
    requires SsrAuth.AuthGuard(cookies, decode, options, pageOutcome).callsFn
    ensures WithSRRGuest(cookies, guestOutcome) == Resolved(Redirect(DashboardRoute, false))
  {
  }
}
