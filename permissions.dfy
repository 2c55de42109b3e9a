/**
 * The permission manager: role-based questions about the signed-in user,
 * as the store provides it. Every query is a boolean function of that user
 * and none of them changes it.
 */
module Permissions {
  import opened Wrappers

  /** One setting of a role; `constraint`/`operation` are `permissionValue`, `resourceId`/`resourceType` are `resource`. */
  datatype Permission = Permission(
    description: string,
    displayName: string,
    id: string,
    name: string,
    constraint: string,
    operation: string,
    resourceId: string,
    resourceType: string)

  /** A role: its name (one of the constants below in practice) and its settings. */
  datatype UserRole = UserRole(name: string, settings: seq<Permission>)

  /** The user of the store; `role` may be missing. */
  datatype User = User(role: Option<UserRole>)

  const Admin := "admin"
  const SpaceAdmin := "spaceadmin"
  const RegularUser := "user"
  const Guest := "guest"

  const SetSpaceQuota := "set-space-quota"

  /** `user.role?.name`: the role name, or nothing without a role. */
  function RoleName(u: User): Option<string>
  {
    if u.role.Some? then Some(u.role.value.name) else None
  }

  function HasSystemManagement(u: User): (r: bool)
    ensures r <==> u.role.Some? && u.role.value.name == Admin
  {
    RoleName(u) == Some(Admin)
  }

  function HasUserManagement(u: User): (r: bool)
    ensures r <==> u.role.Some? && u.role.value.name == Admin
  {
    RoleName(u) == Some(Admin)
  }

  /** `[admin, spaceadmin].includes(user.role?.name)`. */
  function HasSpaceManagement(u: User): (r: bool)
    ensures r <==> u.role.Some? && (u.role.value.name == Admin || u.role.value.name == SpaceAdmin)
  {
    RoleName(u).Some? && RoleName(u).value in [Admin, SpaceAdmin]
  }

  /** `settings.find(s => s.name === name)`: the first setting with that name. */
  function FindSetting(settings: seq<Permission>, name: string): (r: Option<Permission>)
    ensures r.Some? <==> exists i :: 0 <= i < |settings| && settings[i].name == name
    ensures r.Some? ==> r.value in settings && r.value.name == name
    ensures r.Some? ==> exists i :: (0 <= i < |settings| && settings[i] == r.value &&
      forall j :: 0 <= j < i ==> settings[j].name != name)
  {
    if settings == [] then None
    else if settings[0].name == name then Some(settings[0])
    else
      var rest := FindSetting(settings[1..], name);
      if rest.Some? then
        ghost var k :| (0 <= k < |settings[1..]| && settings[1..][k] == rest.value &&
          forall j :: 0 <= j < k ==> settings[1..][j].name != name);
        assert settings[k + 1] == rest.value;
        assert forall j :: 0 <= j < k + 1 ==> settings[j].name != name by {
          forall j | 0 <= j < k + 1 ensures settings[j].name != name {
            if j > 0 {
              assert settings[j] == settings[1..][j - 1];
            }
          }
        }
        rest
      else
        assert forall i :: 1 <= i < |settings| ==> settings[i] == settings[1..][i - 1];
        rest
  }

  /** `!!user.role?.settings.find(s => s.name === 'set-space-quota')`. */
  function CanEditSpaceQuota(u: User): bool
  {
    u.role.Some? && FindSetting(u.role.value.settings, SetSpaceQuota).Some?
  }

  // ---------------------------------------------------------------------------
  // Properties of the queries
  // ---------------------------------------------------------------------------

  /** User management is granted to exactly the users with system management. */
  lemma UserManagementIsSystemManagement(u: User)
    ensures HasUserManagement(u) == HasSystemManagement(u)
  {
  }

  /** System management implies space management; a space admin has the latter only. */
  lemma SystemImpliesSpaceManagement(u: User)
    ensures HasSystemManagement(u) ==> HasSpaceManagement(u)
    ensures RoleName(u) == Some(SpaceAdmin) ==> HasSpaceManagement(u) && !HasSystemManagement(u)
    ensures RoleName(u) == Some(RegularUser) || RoleName(u) == Some(Guest) ==>
      !HasSpaceManagement(u) && !HasSystemManagement(u)
  {
  }

  /** Without a role every query is false. */
  lemma NoRoleNoPermissions(u: User)
    requires u.role == None
    ensures !HasSystemManagement(u) && !HasUserManagement(u) && !HasSpaceManagement(u) && !CanEditSpaceQuota(u)
  {
  }

  /** The quota may be edited exactly when some setting of the role is named `set-space-quota`, whatever the role's name. */
  lemma CanEditSpaceQuotaIffSetting(u: User)
    ensures CanEditSpaceQuota(u) <==>
      u.role.Some? && exists i :: 0 <= i < |u.role.value.settings| && u.role.value.settings[i].name == SetSpaceQuota
  {
  }

  /** The answer does not depend on the order of the settings. */
  lemma {:induction false} CanEditSpaceQuotaIgnoresOrder(name: string, a: seq<Permission>, b: seq<Permission>)
    requires multiset(a) == multiset(b)
    ensures CanEditSpaceQuota(User(Some(UserRole(name, a)))) == CanEditSpaceQuota(User(Some(UserRole(name, b))))
  {
    FindSettingIgnoresOrder(a, b, SetSpaceQuota);
  }

  lemma FindSettingIgnoresOrder(a: seq<Permission>, b: seq<Permission>, name: string)
    requires multiset(a) == multiset(b)
    ensures FindSetting(a, name).Some? == FindSetting(b, name).Some?
  {
    if FindSetting(a, name).Some? {
      var p := FindSetting(a, name).value;
      assert p in multiset(b);
      var j :| 0 <= j < |b| && b[j] == p;
    }
    if FindSetting(b, name).Some? {
      var p := FindSetting(b, name).value;
      assert p in multiset(a);
      var j :| 0 <= j < |a| && a[j] == p;
    }
  }
}
