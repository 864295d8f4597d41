/**
 * `validateUserPermissions`: a user passes when it holds ALL the required permissions and ANY
 * one of the required roles. The asymmetry is the source's own and is kept.
 */
module Permissions {
  import opened Wrappers
  import JsArray

  /** The claims the check looks at: the decoded access token, or the signed-in user. */
  datatype Claims = Claims(permissions: seq<string>, roles: seq<string>)

  /** Every required permission is held. */
  ghost predicate HoldsAll(user: Claims, required: seq<string>) {
    forall p :: p in required ==> p in user.permissions
  }

  /** No role is required, or one of the required roles is held. */
  ghost predicate HoldsSomeRole(user: Claims, required: seq<string>) {
    required == [] || exists q :: q in required && q in user.roles
  }

  /** The check itself. An omitted list (`None`) is the empty list. */
  function ValidateUserPermissions(user: Option<Claims>, permissions: Option<seq<string>>, roles: Option<seq<string>>): (r: bool)
    ensures r <==> user.Some? && HoldsAll(user.value, permissions.GetOr([])) && HoldsSomeRole(user.value, roles.GetOr([]))
  {
    var permissions := permissions.GetOr([]);
    var roles := roles.GetOr([]);
    if user.None? then false
    else if |permissions| > 0 && !JsArray.Every(permissions, (p: string) => p in user.value.permissions) then false
    else if |roles| > 0 && !JsArray.Any(roles, (q: string) => q in user.value.roles) then false
    else true
  }

  /** An absent user fails closed, whatever is required. */
  lemma AbsentUserFails(permissions: Option<seq<string>>, roles: Option<seq<string>>)
    ensures !ValidateUserPermissions(None, permissions, roles)
  {
  }

  /** One missing permission fails the whole check. */
  lemma MissingPermissionFails(user: Claims, permissions: seq<string>, roles: Option<seq<string>>, p: string)
    requires p in permissions && p !in user.permissions
    ensures !ValidateUserPermissions(Some(user), Some(permissions), roles)
  {
  }

  /** One held role among the required ones suffices. */
  lemma RolesAreAlternatives(user: Claims, permissions: Option<seq<string>>, roles: seq<string>, q: string)
    requires q in roles && q in user.roles && HoldsAll(user, permissions.GetOr([]))
    ensures ValidateUserPermissions(Some(user), permissions, Some(roles))
  {
  }

  /** With required roles and none of them held, the check fails, whatever permissions are held. */
  lemma NoHeldRoleFails(user: Claims, permissions: Option<seq<string>>, roles: seq<string>)
    requires roles != [] && forall q :: q in roles ==> q !in user.roles
    ensures !ValidateUserPermissions(Some(user), permissions, Some(roles))
  {
  }

  /** A present user with nothing required passes; an omitted list behaves as an empty one. */
  lemma NothingRequiredPasses(user: Claims)
    ensures ValidateUserPermissions(Some(user), None, None)
    ensures ValidateUserPermissions(Some(user), Some([]), Some([]))
  {
  }

  /** Permissions only: passes exactly when the user's permissions include the required ones. */
  lemma PermissionsOnly(user: Claims, permissions: seq<string>)
    ensures ValidateUserPermissions(Some(user), Some(permissions), Some([]))
        <==> (set p | p in permissions) <= (set p | p in user.permissions)
  {
    var required, held := set p | p in permissions, set p | p in user.permissions;
    if required <= held {
      forall p | p in permissions ensures p in user.permissions {
        assert p in required;
        assert p in held;
      }
    }
  }

  /** Roles only: passes exactly when no role is required or the required and held roles meet. */
  lemma RolesOnly(user: Claims, roles: seq<string>)
    ensures ValidateUserPermissions(Some(user), Some([]), Some(roles))
        <==> roles == [] || (set q | q in roles) * (set q | q in user.roles) != {}
  {
    var common := (set q | q in roles) * (set q | q in user.roles);
    if exists q :: q in roles && q in user.roles {
      var q :| q in roles && q in user.roles;
      assert q in common;
    }
  }
}
