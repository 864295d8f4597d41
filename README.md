# dashgo-ui session and permission core, in Dafny

This models the logic under the dashgo-ui admin console (users, roles and permissions behind a
backend API). It covers:

- **The API client's refresh coordinator** (`Api`). A client reads the session cookies and sets its
  `Authorization` default from them. Its response interceptor handles a `401` with code
  `token.expired` by starting at most one refresh call and parking the failed request in a FIFO
  queue. When the refresh answers, every parked request is replayed with `Bearer <new token>`. When
  it fails, every parked request is rejected with the same error. Any other `401` ends the session:
  `signOut` in the browser, an `AuthTokenError` on the server. Every other error passes through.
  The promises become event methods: `OnError`, `RefreshSucceeded` and `RefreshFailed`. The class
  invariant `Valid` says the flag is up exactly while requests are parked, and at most one refresh
  call is unsettled at any time.
- **The permission check** (`Permissions`). It requires ALL listed permissions and ANY one listed
  role, and fails closed without a user. The hook in front of it is `UseCanHook`. The server-side
  page guards are `SsrAuth` (`withSRRAuth`) and `SsrGuest` (`withSRRGuest`).
- **The session token store** (`Cookies`, `AuthContext`). The three cookies `tokenType`,
  `accessToken` and `refreshToken` are always written together, with a 30-day `maxAge` and path
  `/`, and always cleared together. `signIn` and the mount-time `auth/me` lookup are methods of
  `AuthProvider`.
- **The permission modal's list editing** (`PermissionModal`). These are pure list transformations
  keyed by `permissionId` and `roleId`, assigned to the modal's two state fields.

Three pieces stand in for the libraries:

- the cookie store (`Cookies.CookieJar`, over a `map` of cookies);
- the router (`Runtime.Router`, which records the routes pushed);
- an axios instance's default headers (`Runtime.HeaderDefaults`).

Network answers (`auth/signin`, `auth/me`, the refresh call, the page's own `fn`) and the JWT
decoder are parameters. `JsArray` models the `every`, `some`, `filter` and `find` array methods
that the source uses.

Two behaviours of the source are easy to miss:

- A parked request is not bounded to one retry. Its replay goes back through the same interceptor
  (src/services/api.ts:85), so if it fails with `token.expired` again it is parked again. The model
  returns each replay as a `Retried` settlement, and feeding that request's failure back to
  `OnError` parks it again.
- The refresh call itself goes through the interceptor (src/services/api.ts:40). A refused refresh
  on the server reaches the parked requests as an `AuthTokenError` (`RefreshRejectedOnServer`); an
  expired one is parked behind itself and the flag never drops (`RefreshParkedBehindItself`).

## Model

| member | source | states |
|---|---|---|
| `Api.ApiClient.constructor` | src/services/api.ts:15-24 | a new client's default headers are exactly `InitialHeaders` of the cookies it reads; the flag is down, the queue is empty and no refresh call has been made |
| `Api.InitialHeaders` | src/services/api.ts:22-23 | the client sets no default header but `Authorization`, and sets it exactly when both the access-token and token-type cookies are non-empty |
| `Api.InitialAuthorization` | src/services/api.ts:22-23 | `Authorization` is the only default header the client sets; it is present iff both the access-token and token-type cookies are non-empty, and its value is `tokenType + " " + accessToken` |
| `Api.NoStoredCredentialsNoHeader` | src/services/api.ts:22-24 | a client built without both credential cookies sends no `Authorization` header |
| `Api.OnResponse` | src/services/api.ts:26-27 | a successful response passes through unchanged |
| `Api.ApiClient.OnError` | src/services/api.ts:28-102 | a non-401 is rejected with the original error and nothing changes. A `token.expired` 401 is appended to the end of the queue and raises the flag. It records a refresh call, carrying the stored refresh token, only when the flag was down. Any other 401 leaves flag and queue alone. In the browser it clears the session, pushes '/' and rejects with the original error. On the server it rejects with `AuthTokenError` and changes nothing else. `Valid` is kept |
| `Api.ApiClient.RefreshSucceeded` | src/services/api.ts:42-62 | in the browser, all three cookies are written with 30 days and '/'. The default header becomes `Bearer <accessToken>`, whatever the returned token type. The k-th settlement is the replay of the k-th parked request with the new token. The queue ends empty and the flag down |
| `Api.ApiClient.RefreshFailed` | src/services/api.ts:63-73 | the k-th settlement rejects the k-th parked request with the same reason the refresh's promise was rejected with. The queue ends empty and the flag down. The session is cleared and '/' pushed only in the browser |
| `Api.Replay` | src/services/api.ts:78-86 | a parked request's `onSuccess` never rejects; it sends the same request again exactly when its config has headers, and otherwise drops it |
| `Api.ReplayCarriesNewToken` | src/services/api.ts:78-86 | a parked request is retried iff its config has headers, as the same request, with `Authorization: Bearer <token>` and every other header kept; one without headers is dropped as it is |
| `Api.ExpiredBurst` | src/services/api.ts:37-90 | with any non-empty number of `token.expired` failures before the refresh answers, exactly one refresh call is made, with the stored refresh token. The k-th settlement is the replay of the k-th failure, and each retried request carries `Bearer <new token>` under its own id |
| `Api.FailedRefresh` | src/services/api.ts:63-73 | when the refresh fails in the browser, the k-th parked request is rejected with that same error. No session cookie is left, every other cookie is kept, and the user is sent to '/' |
| `Api.RefreshRejectedOnServer` | src/services/api.ts:40-96 | on the server, a refresh refused with a 401 that is not `token.expired` passes through the interceptor as an `AuthTokenError`, and the parked request is rejected with it; cookies and route are left alone |
| `Api.RefreshParkedBehindItself` | src/services/api.ts:30-91 | a refresh call that itself fails with `token.expired` is parked behind the request that started it; no second refresh is made, the flag stays up, and a later expired request is parked too |
| `Api.RevokedToken` | src/services/api.ts:92-101 | a 401 without `token.expired` makes no refresh call. In the browser it ends the session and rejects with the original error. On the server it rejects with `AuthTokenError` and leaves cookies and route alone |
| `Permissions.ValidateUserPermissions` | src/utils/validateUserPermissions.ts:12-39 | true iff the user is present, holds every required permission, and either no role is required or it holds one of the required roles; omitted lists are empty |
| `Permissions.AbsentUserFails` | src/utils/validateUserPermissions.ts:18 | an absent user is refused whatever is required |
| `Permissions.MissingPermissionFails` | src/utils/validateUserPermissions.ts:21-27 | one required permission missing from the user refuses the whole check |
| `Permissions.RolesAreAlternatives` | src/utils/validateUserPermissions.ts:30-36 | a single held role among the required ones is enough, given the permissions are held |
| `Permissions.NoHeldRoleFails` | src/utils/validateUserPermissions.ts:30-36 | with required roles and none of them held, the check fails whatever permissions are held |
| `Permissions.NothingRequiredPasses` | src/utils/validateUserPermissions.ts:14-38 | a present user with both lists omitted or empty passes |
| `Permissions.PermissionsOnly` | src/utils/validateUserPermissions.ts:21-27 | with no roles required, the check passes iff the required permissions are a subset of the user's |
| `Permissions.RolesOnly` | src/utils/validateUserPermissions.ts:30-36 | with no permissions required, the check passes iff no role is required or the required and held role sets intersect |
| `JsArray.Every` | src/utils/validateUserPermissions.ts:22-24 | `every` is true iff the predicate holds of every element |
| `JsArray.Any` | src/utils/validateUserPermissions.ts:31-33 | `some` is true iff the predicate holds of some element |
| `JsArray.Filter` | src/components/Modal/PermissionModal.tsx:62 | `filter` keeps only elements that satisfy the predicate, each as often as in the input, and drops the rest |
| `JsArray.FilterAppend` | src/components/Modal/PermissionModal.tsx:62-63 | `filter` keeps order: it distributes over concatenation |
| `JsArray.FilterKeepsAll` | src/components/Modal/PermissionModal.tsx:60 | filtering with nothing to remove returns the input unchanged |
| `JsArray.Find` | src/components/Modal/PermissionModal.tsx:109 | `find` finds something iff some element satisfies the predicate, and then returns the first such element |
| `UseCanHook.UseCan` | src/hooks/useCan.ts:9-21 | false when not authenticated; when authenticated, true iff the user is present and passes the ALL-permissions / ANY-role check, omitted lists being empty |
| `UseCanHook.DelegatesWhenAuthenticated` | src/hooks/useCan.ts:14-20 | once authenticated, the hook returns exactly `validateUserPermissions(user, permissions, roles)` |
| `UseCanHook.ProviderUserWithNoRequirements` | src/hooks/useCan.ts:9-20 | an authenticated provider user with nothing required, or lists omitted, gets true |
| `SsrAuth.AuthGuard` | src/utils/withSSRAuth.ts:12-65 | no access token means a non-permanent redirect to '/', without calling `fn`. `fn` is called iff there is a token and either options are absent or the decoded claims pass the check. Claims that fail redirect to '/' without calling `fn`. When options are given, an undecodable token rejects with `InvalidToken`; without options the token is never decoded. A resolved `fn` result and any error other than `AuthTokenError` are returned unchanged. The session is cleared, with a redirect to '/', exactly when `fn` throws `AuthTokenError` |
| `SsrAuth.Admits` | src/utils/withSSRAuth.ts:26-43 | the permission gate: open without options; with options, open exactly when the token decodes and its claims pass `validateUserPermissions` (the contract is `AuthGuard`'s `callsFn` clause) |
| `SsrAuth.NoOptionsNoCheck` | src/utils/withSSRAuth.ts:26-47 | without options, a request with a token always reaches `fn` |
| `SsrAuth.RedirectsGoHome` | src/utils/withSSRAuth.ts:17-59 | every redirect the guard itself issues goes to '/' and is non-permanent |
| `SsrAuth.WithSRRAuth` | src/utils/withSSRAuth.ts:12-65 | the guard runs on the request's cookie store. Its outcome and whether it calls `fn` are `AuthGuard`'s. The three session cookies are destroyed on the `AuthTokenError` path and on no other |
| `SsrGuest.WithSRRGuest` | src/utils/withSSRGuest.ts:5-20 | with an access token, a non-permanent redirect to '/dashboard'; without, exactly `fn`'s own outcome |
| `SsrGuest.GuestDependsOnlyOnAccessToken` | src/utils/withSSRGuest.ts:7-9 | two cookie stores that agree on the access token get the same answer, whatever else they hold |
| `SsrGuest.GuestAndSessionPagesExclusive` | src/utils/withSSRGuest.ts:9-15 | any request that a session page lets through is sent to '/dashboard' by every guest page |
| `Cookies.ReadAfterWrite` | src/context/AuthContext.tsx:77-88 | writing a session and reading it back gives the same three fields |
| `Cookies.WriteSessionCookies` | src/services/api.ts:45-56 | a session write sets the three cookies with maxAge 2592000 and path '/', and changes no other cookie |
| `Cookies.ClearSession` | src/context/AuthContext.tsx:31-33 | clearing leaves no session cookie, keeps every other cookie, and is idempotent |
| `Cookies.SessionWritesAreCoherent` | src/context/AuthContext.tsx:30-88 | after a write or a clear, the three session cookies are all present or all absent |
| `AuthContext.SignOut` | src/context/AuthContext.tsx:30-36 | removes exactly the three session cookies, then pushes '/' |
| `AuthContext.AuthProvider.constructor` | src/context/AuthContext.tsx:38-40 | a provider starts with no user |
| `AuthContext.AuthProvider.IsAuthenticated` | src/context/AuthContext.tsx:40 | `!!user`: authenticated exactly while a user is set (used by `SignInThenSignOut`) |
| `AuthContext.AuthProvider.Mount` | src/context/AuthContext.tsx:42-59 | `auth/me` is requested iff an access-token cookie is non-empty. Its answer sets the user. Its failure signs out and leaves the user as it was. Without a token nothing changes |
| `AuthContext.AuthProvider.SignIn` | src/context/AuthContext.tsx:61-103 | on a successful request, the three cookies are written and the user is set, with the username that was typed in. The header becomes `tokenType + " " + accessToken` and '/dashboard' is pushed. A failed request changes nothing |
| `AuthContext.SignInThenSignOut` | src/context/AuthContext.tsx:30-99 | after sign-in then sign-out, no session cookie is left and every other cookie survives. The routes pushed are '/dashboard' then '/'. The provider still holds the user, since `signOut` does not touch React state |
| `PermissionModal.PermissionChecked` | src/components/Modal/PermissionModal.tsx:109 | the permission checkbox test; `CheckedMeansSameId` states it holds iff some entry has the same `permissionId` |
| `PermissionModal.RoleChecked` | src/components/Modal/PermissionModal.tsx:118 | the role checkbox test; `CheckedMeansSameId` states it holds iff some role has the same `roleId` |
| `PermissionModal.AmongDefaults` | src/components/Modal/PermissionModal.tsx:60 | the inner `find(...) === undefined` test, negated; `AmongDefaultsMeansSameId` states it |
| `PermissionModal.WithoutDefaultRoles` | src/components/Modal/PermissionModal.tsx:60-63 | the roles filter shared by check and uncheck; `WithoutDefaultRolesExact` states what it keeps |
| `PermissionModal.CheckPermission` | src/components/Modal/PermissionModal.tsx:58 | the new permissions on checking; `CheckPermissionPrepends` states it |
| `PermissionModal.RolesAfterCheck` | src/components/Modal/PermissionModal.tsx:60 | the new roles on checking a permission; `RolesAfterCheckKeepsAll` and `CheckWithFreshDefaults` state them |
| `PermissionModal.UncheckPermission` | src/components/Modal/PermissionModal.tsx:62 | the new permissions on unchecking; `UncheckPermissionExact` states it |
| `PermissionModal.RolesAfterUncheck` | src/components/Modal/PermissionModal.tsx:63 | the new roles on unchecking a permission; `RolesAfterUncheckExact` states them |
| `PermissionModal.CheckRole` | src/components/Modal/PermissionModal.tsx:69 | the new roles on checking a role; `RoleToggles` states it |
| `PermissionModal.UncheckRole` | src/components/Modal/PermissionModal.tsx:71 | the new roles on unchecking a role; `RoleToggles` states it |
| `PermissionModal.CheckedMeansSameId` | src/components/Modal/PermissionModal.tsx:109-118 | a permission or role checkbox is checked iff some user entry has the same id |
| `PermissionModal.AmongDefaultsMeansSameId` | src/components/Modal/PermissionModal.tsx:60 | a role counts as a default iff some default role has its `roleId` |
| `PermissionModal.WithoutDefaultRolesExact` | src/components/Modal/PermissionModal.tsx:60-63 | filtering removes exactly the roles whose id is a default's, keeps every other role as often as before, and keeps their order |
| `PermissionModal.CheckPermissionPrepends` | src/components/Modal/PermissionModal.tsx:58 | checking a permission puts it first and keeps the others in order; it is then checked |
| `PermissionModal.RolesAfterCheckKeepsAll` | src/components/Modal/PermissionModal.tsx:60 | after checking a permission, its default roles come first and each is checked. Every earlier role survives, as itself or through a default role with its id |
| `PermissionModal.CheckWithFreshDefaults` | src/components/Modal/PermissionModal.tsx:60 | checking a permission whose default roles share no id with the user's roles gives the defaults followed by all the user's roles, in order |
| `PermissionModal.UncheckPermissionExact` | src/components/Modal/PermissionModal.tsx:62 | unchecking removes every entry with that `permissionId` and keeps the others with their multiplicity. The permission is then unchecked |
| `PermissionModal.RolesAfterUncheckExact` | src/components/Modal/PermissionModal.tsx:63 | unchecking a permission removes exactly the roles whose id is one of its defaults'; no default role stays checked |
| `PermissionModal.RoleToggles` | src/components/Modal/PermissionModal.tsx:67-73 | checking a role prepends it, so it is checked. Unchecking removes every role with that `roleId` and keeps all others with their multiplicity |
| `PermissionModal.Modal.constructor` | src/components/Modal/PermissionModal.tsx:36-37 | the modal starts with no permissions and no roles for the user |
| `PermissionModal.Modal.OnChangePermission` | src/components/Modal/PermissionModal.tsx:56-65 | the two state fields become the check or uncheck transformations of their old values |
| `PermissionModal.Modal.OnChangeRole` | src/components/Modal/PermissionModal.tsx:67-73 | the role field becomes the check or uncheck transformation of its old value; permissions are unchanged |

## Left out

- Shared refresh state: in the source, `isRefreshing` and `failedRequestsQueue` live at module level and are shared by every client built with `setupAPIClient` (the modal, the hooks and pages each build one). The model gives one `ApiClient` its own flag and queue, so it does not show several clients parking requests in the same queue.
- Refresh through the interceptor: the refresh `POST` goes through the same client, so its own failure passes through the interceptor too. The model takes the refresh's outcome as an input event, the reason of type `Failure` that `RefreshFailed` receives. `RefreshRejectedOnServer` and `RefreshParkedBehindItself` compose the two by hand: a refused refresh on the server rejects every parked request with `AuthTokenError`, and in the browser it also signs out once more; an expired refresh parks itself, so the flag never drops and every later expired request hangs.
- Sign-in and `auth/me` as answers: `AuthContext` sends both through `src/services/apiClient.ts`, which is not part of this model. If that client has the same interceptor, a 401 from either would also run `signOut` before `AuthContext`'s own handling (for `auth/me`, twice). `SignIn` and `Mount` take each request's answer without the interceptor's effects.
- `.catch` after `.then`: in the source it would also catch an exception thrown inside the success callback. The modelled steps cannot throw.
- Promises and scheduling: the model is a sequence of events. A dropped replay (config without headers) is reported as `Dropped`; in the source its promise never settles. There are no timeouts, in the code or in the model.
- Server-side cookie writes: in the browser, `setCookie` and `destroyCookie` without a context act on the document's cookies. On the server, the refresh's `setCookie(undefined, …)` has no store to write. The model therefore writes the refreshed session only when `browser` holds.
- Response headers: `destroyCookie(ctx, …)` in `withSRRAuth` is modelled as removing the cookies from the request's store. The `Set-Cookie` response header it emits is not modelled.
- Cookie expiry: `maxAge` and `path` are stored but never enforced. There is no clock.
- Cookie parsing, `jwt-decode`, axios transport and Next routing: these are abstract. The decoder is a function parameter returning `None` when it throws. Claims missing their `permissions` or `roles` arrays, which would throw inside the check, are not modelled.
- `null` lists: `permissions`/`roles` passed as `null` rather than omitted are not modelled. They are `Option` values, and `None` is the omitted case.
- React state: `isAuthenticated` is `!!user` in the provider, and `UseCan` takes both as inputs.
- `console.log` of a failed sign-in is not modelled.
- PermissionModal: `loadUser` and `handleUpdatePermissionsAndRoles` are network requests plus toasts, so they are not modelled. The `permissions` catalogue they load is not a field of `Modal`.
- The rest of the repository is not part of this model: pages, header widgets, `useUsers`/`useUser`, form validation and `src/services/apiClient.ts`.
