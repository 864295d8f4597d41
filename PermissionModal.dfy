/**
 * The permission modal's editing of a user's permissions and roles. Checking a permission adds it
 * and its default roles; unchecking removes it and them; roles can be checked on their own.
 * Entries are matched by `permissionId` and `roleId`.
 */
module PermissionModal {
  import opened Wrappers
  import JsArray

  datatype Role = Role(roleId: int, name: string, description: string)

  datatype Permission = Permission(permissionId: int, name: string, description: string, defaultRoles: seq<Role>)

  /** `defaults.find(d => d.roleId === role.roleId) !== undefined`. */
  predicate AmongDefaults(role: Role, defaults: seq<Role>) {
    JsArray.Find(defaults, (d: Role) => d.roleId == role.roleId).Some?
  }

  /** `roles.filter(r => defaults.find(d => r.roleId === d.roleId) === undefined)`. */
  function WithoutDefaultRoles(roles: seq<Role>, defaults: seq<Role>): seq<Role> {
    JsArray.Filter(roles, (r: Role) => !AmongDefaults(r, defaults))
  }

  function CheckPermission(permissions: seq<Permission>, p: Permission): seq<Permission> {
    [p] + permissions
  }

  function RolesAfterCheck(roles: seq<Role>, p: Permission): seq<Role> {
    p.defaultRoles + WithoutDefaultRoles(roles, p.defaultRoles)
  }

  function UncheckPermission(permissions: seq<Permission>, p: Permission): seq<Permission> {
    JsArray.Filter(permissions, (q: Permission) => q.permissionId != p.permissionId)
  }

  function RolesAfterUncheck(roles: seq<Role>, p: Permission): seq<Role> {
    WithoutDefaultRoles(roles, p.defaultRoles)
  }

  function CheckRole(roles: seq<Role>, role: Role): seq<Role> {
    [role] + roles
  }

  function UncheckRole(roles: seq<Role>, role: Role): seq<Role> {
    JsArray.Filter(roles, (r: Role) => r.roleId != role.roleId)
  }

  /** `!!permissionsUser.find(item => item.permissionId === p.permissionId)`. */
  predicate PermissionChecked(permissions: seq<Permission>, p: Permission) {
    JsArray.Find(permissions, (q: Permission) => q.permissionId == p.permissionId).Some?
  }

  /** `!!rolesUser.find(item => item.roleId === role.roleId)`. */
  predicate RoleChecked(roles: seq<Role>, role: Role) {
    JsArray.Find(roles, (r: Role) => r.roleId == role.roleId).Some?
  }

  /** A checkbox shows as checked exactly when some entry of the user has the same id. */
  lemma CheckedMeansSameId(permissions: seq<Permission>, roles: seq<Role>, p: Permission, role: Role)
    ensures PermissionChecked(permissions, p) <==> exists q :: q in permissions && q.permissionId == p.permissionId
    ensures RoleChecked(roles, role) <==> exists r :: r in roles && r.roleId == role.roleId
  {
    var f := (q: Permission) => q.permissionId == p.permissionId;
    if exists q :: q in permissions && q.permissionId == p.permissionId {
      var q :| q in permissions && q.permissionId == p.permissionId;
      var i :| 0 <= i < |permissions| && permissions[i] == q;
      assert f(permissions[i]);
    }
    var g := (r: Role) => r.roleId == role.roleId;
    if exists r :: r in roles && r.roleId == role.roleId {
      var r :| r in roles && r.roleId == role.roleId;
      var i :| 0 <= i < |roles| && roles[i] == r;
      assert g(roles[i]);
    }
  }

  /** A role is among a permission's defaults exactly when a default role has its id. */
  lemma AmongDefaultsMeansSameId(role: Role, defaults: seq<Role>)
    ensures AmongDefaults(role, defaults) <==> exists d :: d in defaults && d.roleId == role.roleId
  {
    CheckedMeansSameId([], defaults, Permission(0, "", "", []), role);
  }

  /** Dropping the default roles removes exactly the roles whose id is a default's, keeps every other
   *  role as often as before, and keeps their order. */
  lemma WithoutDefaultRolesExact(roles: seq<Role>, defaults: seq<Role>)
    ensures forall r :: r in WithoutDefaultRoles(roles, defaults) <==> r in roles && !AmongDefaults(r, defaults)
    ensures forall r :: !AmongDefaults(r, defaults) ==> multiset(WithoutDefaultRoles(roles, defaults))[r] == multiset(roles)[r]
    ensures forall a, b :: WithoutDefaultRoles(a + b, defaults) == WithoutDefaultRoles(a, defaults) + WithoutDefaultRoles(b, defaults)
  {
    var keep := (r: Role) => !AmongDefaults(r, defaults);
    forall r ensures r in WithoutDefaultRoles(roles, defaults) <==> r in roles && !AmongDefaults(r, defaults) {
      assert r in WithoutDefaultRoles(roles, defaults) <==> multiset(WithoutDefaultRoles(roles, defaults))[r] > 0;
      assert r in roles <==> multiset(roles)[r] > 0;
    }
    forall a, b ensures WithoutDefaultRoles(a + b, defaults) == WithoutDefaultRoles(a, defaults) + WithoutDefaultRoles(b, defaults) {
      JsArray.FilterAppend(a, b, keep);
    }
  }

  /** Checking a permission puts it first and keeps the others in order. */
  lemma CheckPermissionPrepends(permissions: seq<Permission>, p: Permission)
    ensures CheckPermission(permissions, p)[0] == p && CheckPermission(permissions, p)[1..] == permissions
    ensures PermissionChecked(CheckPermission(permissions, p), p)
  {
  }

  /** After checking a permission: its default roles come first, every default role is checked, and
   *  every role held before is still held either as itself or through a default with its id. */
  lemma RolesAfterCheckKeepsAll(roles: seq<Role>, p: Permission)
    ensures RolesAfterCheck(roles, p)[..|p.defaultRoles|] == p.defaultRoles
    ensures forall d :: d in p.defaultRoles ==> d in RolesAfterCheck(roles, p) && RoleChecked(RolesAfterCheck(roles, p), d)
    ensures forall r :: r in roles ==> r in RolesAfterCheck(roles, p) || exists d :: d in p.defaultRoles && d.roleId == r.roleId
  {
    var after := RolesAfterCheck(roles, p);
    WithoutDefaultRolesExact(roles, p.defaultRoles);
    forall d | d in p.defaultRoles ensures RoleChecked(after, d) {
      CheckedMeansSameId([], after, p, d);
    }
    forall r | r in roles && r !in after ensures exists d :: d in p.defaultRoles && d.roleId == r.roleId {
      AmongDefaultsMeansSameId(r, p.defaultRoles);
    }
  }

  /** Checking a permission whose default roles share no id with the user's roles keeps the user's
   *  roles whole, after the defaults. */
  lemma CheckWithFreshDefaults(roles: seq<Role>, p: Permission)
    requires forall i, j :: 0 <= i < |roles| && 0 <= j < |p.defaultRoles| ==> roles[i].roleId != p.defaultRoles[j].roleId
    ensures RolesAfterCheck(roles, p) == p.defaultRoles + roles
  {
    forall i | 0 <= i < |roles| ensures !AmongDefaults(roles[i], p.defaultRoles) {
      AmongDefaultsMeansSameId(roles[i], p.defaultRoles);
    }
    JsArray.FilterKeepsAll(roles, (r: Role) => !AmongDefaults(r, p.defaultRoles));
  }

  /** Unchecking a permission removes every entry with its id, keeps every other entry as often as
   *  before and in order, and leaves the permission unchecked. */
  lemma UncheckPermissionExact(permissions: seq<Permission>, p: Permission)
    ensures forall q :: q in UncheckPermission(permissions, p) <==> q in permissions && q.permissionId != p.permissionId
    ensures forall q: Permission :: q.permissionId != p.permissionId ==> multiset(UncheckPermission(permissions, p))[q] == multiset(permissions)[q]
    ensures !PermissionChecked(UncheckPermission(permissions, p), p)
  {
    var after := UncheckPermission(permissions, p);
    forall q ensures q in after <==> q in permissions && q.permissionId != p.permissionId {
      assert q in after <==> multiset(after)[q] > 0;
      assert q in permissions <==> multiset(permissions)[q] > 0;
    }
    CheckedMeansSameId(after, [], p, Role(0, "", ""));
  }

  /** Unchecking a permission removes exactly the roles whose id is one of its default roles',
   *  keeps all the others, and leaves no default role checked. */
  lemma RolesAfterUncheckExact(roles: seq<Role>, p: Permission)
    ensures forall r :: r in RolesAfterUncheck(roles, p) <==> r in roles && !exists d :: d in p.defaultRoles && d.roleId == r.roleId
    ensures forall d :: d in p.defaultRoles ==> !RoleChecked(RolesAfterUncheck(roles, p), d)
  {
    var after := RolesAfterUncheck(roles, p);
    WithoutDefaultRolesExact(roles, p.defaultRoles);
    forall r ensures AmongDefaults(r, p.defaultRoles) <==> exists d :: d in p.defaultRoles && d.roleId == r.roleId {
      AmongDefaultsMeansSameId(r, p.defaultRoles);
    }
    forall d | d in p.defaultRoles ensures !RoleChecked(after, d) {
      CheckedMeansSameId([], after, p, d);
    }
  }

  /** Checking a role puts it first; unchecking removes every role with its id and nothing else. */
  lemma RoleToggles(roles: seq<Role>, role: Role)
    ensures CheckRole(roles, role)[0] == role && CheckRole(roles, role)[1..] == roles
    ensures RoleChecked(CheckRole(roles, role), role)
    ensures forall r :: r in UncheckRole(roles, role) <==> r in roles && r.roleId != role.roleId
    ensures forall r: Role :: r.roleId != role.roleId ==> multiset(UncheckRole(roles, role))[r] == multiset(roles)[r]
    ensures !RoleChecked(UncheckRole(roles, role), role)
  {
    var after := UncheckRole(roles, role);
    forall r ensures r in after <==> r in roles && r.roleId != role.roleId {
      assert r in after <==> multiset(after)[r] > 0;
      assert r in roles <==> multiset(roles)[r] > 0;
    }
    CheckedMeansSameId([], after, Permission(0, "", "", []), role);
  }

  /** The modal's state: the user's permissions and roles as being edited. */
  class Modal {
    var permissionsUser: seq<Permission>
    var rolesUser: seq<Role>

    constructor ()
      ensures permissionsUser == [] && rolesUser == []
    {
      permissionsUser, rolesUser := [], [];
    }

    /** `onChangePermission(checked, permission)`. */
    method OnChangePermission(checked: bool, permission: Permission)
      modifies this
      ensures checked ==>
        permissionsUser == CheckPermission(old(permissionsUser), permission) && rolesUser == RolesAfterCheck(old(rolesUser), permission)
      ensures !checked ==>
        permissionsUser == UncheckPermission(old(permissionsUser), permission) && rolesUser == RolesAfterUncheck(old(rolesUser), permission)
    {
      if checked {
        permissionsUser := CheckPermission(permissionsUser, permission);
        rolesUser := RolesAfterCheck(rolesUser, permission);
      } else {
        permissionsUser := UncheckPermission(permissionsUser, permission);
        rolesUser := RolesAfterUncheck(rolesUser, permission);
      }
    }

    /** `onChangeRole(checked, role)`. */
    method OnChangeRole(checked: bool, role: Role)
      modifies this
      ensures permissionsUser == old(permissionsUser)
      ensures rolesUser == if checked then CheckRole(old(rolesUser), role) else UncheckRole(old(rolesUser), role)
    {
      if checked {
        rolesUser := CheckRole(rolesUser, role);
      } else {
        rolesUser := UncheckRole(rolesUser, role);
      }
    }
  }
}
