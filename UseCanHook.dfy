/** `useCan`: the authentication gate in front of the permission check. */
module UseCanHook {
  import opened Wrappers
  import Permissions
  import AuthContext

  /** `useCan({ permissions, roles })` for the context's `user` and `isAuthenticated`. */
  function UseCan(isAuthenticated: bool, user: Option<AuthContext.User>,
                  permissions: Option<seq<string>>, roles: Option<seq<string>>): (r: bool)
    ensures !isAuthenticated ==> !r
    ensures r <==> isAuthenticated && user.Some?
                   && Permissions.HoldsAll(AuthContext.ClaimsOf(user.value), permissions.GetOr([]))
                   && Permissions.HoldsSomeRole(AuthContext.ClaimsOf(user.value), roles.GetOr([]))
  {
    var permissions := permissions.GetOr([]);
    var roles := roles.GetOr([]);
    if !isAuthenticated then false
    else
      var claims := if user.Some? then Some(AuthContext.ClaimsOf(user.value)) else None;
      Permissions.ValidateUserPermissions(claims, Some(permissions), Some(roles))
  }

  /** Inside the provider, where `isAuthenticated` is `!!user`, an authenticated user with
   *  nothing required may, and omitted lists mean empty ones. */
  lemma ProviderUserWithNoRequirements(provider: AuthContext.AuthProvider)
    requires provider.IsAuthenticated()
    ensures UseCan(provider.IsAuthenticated(), provider.user, None, None)
    ensures UseCan(provider.IsAuthenticated(), provider.user, Some([]), Some([]))
  {
  }

  /** Once authenticated, the hook answers exactly what the permission check answers. */
  lemma DelegatesWhenAuthenticated(user: Option<AuthContext.User>, permissions: Option<seq<string>>, roles: Option<seq<string>>)
    ensures UseCan(true, user, permissions, roles)
        == Permissions.ValidateUserPermissions(if user.Some? then Some(AuthContext.ClaimsOf(user.value)) else None, permissions, roles)
  {
  }
}
