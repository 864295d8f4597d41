/**
 * `withSRRAuth`: the guard in front of a server-side page that needs a session. The decision is
 * `AuthGuard`; `WithSRRAuth` carries it out on the request's cookies.
 */
module SsrAuth {
  import opened Wrappers
  import opened Cookies
  import opened Runtime
  import Permissions

  /** The guard's `options`: the permissions and roles the page requires. */
  datatype Options = Options(permissions: Option<seq<string>>, roles: Option<seq<string>>)

  /** What the guard does: how its promise settles, whether it calls the page's `fn`, and whether it
   *  destroys the session cookies. `fnOutcome` is how `fn(ctx)` would settle if called. */
  datatype Guarded<P> = Guarded(outcome: Outcome<P>, callsFn: bool, clearsSession: bool)

  function HomeRedirect<P>(): Outcome<P> {
    Resolved(Redirect(HomeRoute, false))
  }

  /** The permission gate passes: no options, or a decodable token whose claims pass the check. */
  predicate Admits(token: string, decode: string -> Option<Permissions.Claims>, options: Option<Options>) {
    options.None? ||
    (decode(token).Some? && Permissions.ValidateUserPermissions(decode(token), options.value.permissions, options.value.roles))
  }

  function AuthGuard<P>(cookies: Store, decode: string -> Option<Permissions.Claims>, options: Option<Options>,
                        fnOutcome: Outcome<P>): (g: Guarded<P>)
    ensures !Truthy(cookies, AccessTokenKey) ==> g == Guarded(HomeRedirect(), false, false)
    ensures g.callsFn <==> Truthy(cookies, AccessTokenKey) && Admits(Value(cookies, AccessTokenKey), decode, options)
    ensures Truthy(cookies, AccessTokenKey) && options.Some? && decode(Value(cookies, AccessTokenKey)).Some? && !g.callsFn
            ==> g == Guarded(HomeRedirect(), false, false)
    ensures Truthy(cookies, AccessTokenKey) && options.Some? && decode(Value(cookies, AccessTokenKey)).None?
            ==> g == Guarded(Rejected(InvalidToken), false, false)
    ensures g.callsFn && (fnOutcome.Resolved? || fnOutcome.reason != AuthTokenError) ==> g == Guarded(fnOutcome, true, false)
    ensures g.callsFn && fnOutcome == Rejected(AuthTokenError) ==> g == Guarded(HomeRedirect(), true, true)
    ensures g.clearsSession <==> g.callsFn && fnOutcome == Rejected(AuthTokenError)
  {
    if !Truthy(cookies, AccessTokenKey) then Guarded(HomeRedirect(), false, false)
    else
      var token := cookies[AccessTokenKey].value;
      if options.Some? && decode(token).None? then Guarded(Rejected(InvalidToken), false, false)
      else if options.Some? && !Permissions.ValidateUserPermissions(decode(token), options.value.permissions, options.value.roles)
      then Guarded(HomeRedirect(), false, false)
      else
        match fnOutcome
        case Resolved(_) => Guarded(fnOutcome, true, false)
        case Rejected(AuthTokenError) => Guarded(HomeRedirect(), true, true)
        case Rejected(_) => Guarded(fnOutcome, true, false)
  }

  /** Without options there is no permission check: a request with a token always reaches `fn`. */
  lemma NoOptionsNoCheck<P>(cookies: Store, decode: string -> Option<Permissions.Claims>, fnOutcome: Outcome<P>)
    requires Truthy(cookies, AccessTokenKey)
    ensures AuthGuard(cookies, decode, None, fnOutcome).callsFn
  {
  }

  /** Every redirect the guard produces goes to '/' and is non-permanent. */
  lemma RedirectsGoHome<P>(cookies: Store, decode: string -> Option<Permissions.Claims>, options: Option<Options>, fnOutcome: Outcome<P>)
    requires fnOutcome.Resolved? ==> !fnOutcome.result.Redirect?
    ensures var o := AuthGuard(cookies, decode, options, fnOutcome).outcome;
      o.Resolved? && o.result.Redirect? ==> o.result == Redirect("/", false)
  {
  }

  /** The guard on the request's cookie store `ctx`: the three `destroyCookie` calls run on the
   *  `AuthTokenError` path only. */
  method WithSRRAuth<P>(ctx: CookieJar, decode: string -> Option<Permissions.Claims>, options: Option<Options>,
                        fnOutcome: Outcome<P>) returns (outcome: Outcome<P>, calledFn: bool)
    modifies ctx
    ensures var g := AuthGuard(old(ctx.entries), decode, options, fnOutcome);
      && outcome == g.outcome
      && calledFn == g.callsFn
      && ctx.entries == if g.clearsSession then WithoutSession(old(ctx.entries)) else old(ctx.entries)
  {
    calledFn := false;
    if !Truthy(ctx.entries, AccessTokenKey) {
      return HomeRedirect(), false;
    }
    var token := ctx.entries[AccessTokenKey].value;
    if options.Some? {
      var user := decode(token);
      if user.None? {
        return Rejected(InvalidToken), false;
      }
      var valid := Permissions.ValidateUserPermissions(user, options.value.permissions, options.value.roles);
      if !valid {
        return HomeRedirect(), false;
      }
    }
    calledFn := true;
    if fnOutcome == Rejected(AuthTokenError) {
      ctx.DestroyCookie(TokenTypeKey);
      ctx.DestroyCookie(AccessTokenKey);
      ctx.DestroyCookie(RefreshTokenKey);
      outcome := HomeRedirect();
    } else {
      outcome := fnOutcome;
    }
  }
}
