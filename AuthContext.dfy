/**
 * The session as the browser side manages it: `signOut`, and the provider's `signIn` and its
 * mount-time `auth/me` lookup. Network answers are parameters; the cookie store, the router and
 * the shared client's default headers are the objects the source mutates.
 */
module AuthContext {
  import opened Wrappers
  import opened Cookies
  import opened Runtime
  import Permissions

  datatype User = User(email: string, username: string, roles: seq<string>, permissions: seq<string>)

  datatype Credentials = Credentials(username: string, password: string)

  /** The body of a successful `POST /auth/signin`. */
  datatype SignInResponse = SignInResponse(
    email: string, tokenType: string, accessToken: string, refreshToken: string,
    roles: seq<string>, permissions: seq<string>)

  /** The part of a user the permission check reads. */
  function ClaimsOf(user: User): Permissions.Claims {
    Permissions.Claims(user.permissions, user.roles)
  }

  /** `signOut`: destroy the three session cookies, then navigate to '/'. */
  method SignOut(jar: CookieJar, router: Router)
    modifies jar, router
    ensures jar.entries == WithoutSession(old(jar.entries))
    ensures router.history == old(router.history) + [HomeRoute]
  {
    jar.DestroyCookie(TokenTypeKey);
    jar.DestroyCookie(AccessTokenKey);
    jar.DestroyCookie(RefreshTokenKey);
    router.Push(HomeRoute);
  }

  /** `AuthProvider`: the signed-in user, over the browser's cookies, the router and `api`'s defaults. */
  class AuthProvider {
    const jar: CookieJar
    const router: Router
    const defaults: HeaderDefaults
    var user: Option<User>

    constructor (jar: CookieJar, router: Router, defaults: HeaderDefaults)
      ensures this.jar == jar && this.router == router && this.defaults == defaults
      ensures user == None
    {
      this.jar, this.router, this.defaults := jar, router, defaults;
      user := None;
    }

    /** `isAuthenticated = !!user`. */
    predicate IsAuthenticated()
      reads this
    {
      user.Some?
    }

    /** The mount effect: `auth/me` is requested only when an access token cookie is there; its
     *  answer `me` sets the user, its failure signs out. */
    method Mount(me: Result<User, Failure>) returns (requested: bool)
      modifies this, jar, router
      ensures requested == Truthy(old(jar.entries), AccessTokenKey)
      ensures !requested ==> unchanged(this, jar, router)
      ensures requested && me.Ok? ==> user == Some(me.value) && unchanged(jar, router)
      ensures requested && me.Err? ==>
        && user == old(user)
        && jar.entries == WithoutSession(old(jar.entries))
        && router.history == old(router.history) + [HomeRoute]
    {
      requested := Truthy(jar.entries, AccessTokenKey);
      if requested {
        match me
        case Ok(u) =>
          user := Some(User(u.email, u.username, u.roles, u.permissions));
        case Err(_) =>
          SignOut(jar, router);
      }
    }

    /** `signIn`: on an answer, write the three cookies, set the user (its username is the one typed
     *  in), set `Authorization` to `tokenType + " " + accessToken` and go to '/dashboard'. A failed
     *  request is only logged. */
    method SignIn(credentials: Credentials, response: Result<SignInResponse, Failure>)
      modifies this, jar, router, defaults
      ensures response.Err? ==> unchanged(this, jar, router, defaults)
      ensures response.Ok? ==>
        var r := response.value;
        && jar.entries == WithSession(old(jar.entries), Session(r.tokenType, r.accessToken, r.refreshToken))
        && user == Some(User(r.email, credentials.username, r.roles, r.permissions))
        && defaults.common == old(defaults.common)[AuthorizationHeader := r.tokenType + " " + r.accessToken]
        && router.history == old(router.history) + [DashboardRoute]
    {
      if response.Err? {
        return;
      }
      var r := response.value;
      jar.SetCookie(TokenTypeKey, r.tokenType);
      jar.SetCookie(AccessTokenKey, r.accessToken);
      jar.SetCookie(RefreshTokenKey, r.refreshToken);
      user := Some(User(r.email, credentials.username, r.roles, r.permissions));
      defaults.common := defaults.common[AuthorizationHeader := r.tokenType + " " + r.accessToken];
      router.Push(DashboardRoute);
    }
  }

  /** A sign-in followed by a sign-out leaves no session cookie and keeps every other cookie. */
  method SignInThenSignOut(initial: Store, credentials: Credentials, response: SignInResponse)
    returns (cookies: Store, routes: seq<string>, authenticated: bool)
    ensures ReadSession(cookies) == None
    ensures forall k :: k in initial && k !in SessionKeys ==> k in cookies && cookies[k] == initial[k]
    ensures routes == [DashboardRoute, HomeRoute]
    ensures authenticated
  {
    var jar := new CookieJar(initial);
    var router := new Router();
    var defaults := new HeaderDefaults();
    var provider := new AuthProvider(jar, router, defaults);
    provider.SignIn(credentials, Ok(response));
    ReadAfterWrite(initial, Session(response.tokenType, response.accessToken, response.refreshToken));
    assert ReadSession(jar.entries).Some?;
    SignOut(jar, router);
    ClearSession(jar.entries);
    cookies, routes, authenticated := jar.entries, router.history, provider.IsAuthenticated();
  }
}
