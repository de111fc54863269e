/** The role-based access-control tables: the seven roles, the permissions
    each role is granted, and the numeric hierarchy between roles. */
module AuthTypes {
  import opened Common

  datatype Role = SuperAdmin | Admin | Manager | Supervisor | Technician | Operator | Viewer

  /** A grant of some actions on one resource; "*" stands for every
      resource or every action. */
  datatype Permission = Permission(resource: string, actions: seq<string>)

  /** The roles in the order their keys are written, which is the order
      `Object.entries` lists them in. */
  const AllRoles: seq<Role> := [SuperAdmin, Admin, Manager, Supervisor, Technician, Operator, Viewer]

  /** The role's name as stored in sessions and in the user table. */
  function RoleName(r: Role): string {
    match r
    case SuperAdmin => "SUPER_ADMIN"
    case Admin => "ADMIN"
    case Manager => "MANAGER"
    case Supervisor => "SUPERVISOR"
    case Technician => "TECHNICIAN"
    case Operator => "OPERATOR"
    case Viewer => "VIEWER"
  }

  /** The role a stored name denotes, if it is one of the seven. */
  function ParseRole(s: string): (r: Option<Role>)
    ensures r.Some? ==> RoleName(r.value) == s
    ensures forall q :: RoleName(q) == s ==> r == Some(q)
  {
    if s == "SUPER_ADMIN" then Some(SuperAdmin)
    else if s == "ADMIN" then Some(Admin)
    else if s == "MANAGER" then Some(Manager)
    else if s == "SUPERVISOR" then Some(Supervisor)
    else if s == "TECHNICIAN" then Some(Technician)
    else if s == "OPERATOR" then Some(Operator)
    else if s == "VIEWER" then Some(Viewer)
    else None
  }

  /** ROLE_PERMISSIONS */
  function RolePermissions(r: Role): seq<Permission> {
    match r
    case SuperAdmin => [Permission("*", ["*"])]
    case Admin => [
      Permission("users", ["create", "read", "update", "delete"]),
      Permission("dashboard", ["read", "update"]),
      Permission("production", ["read", "update", "create"]),
      Permission("maintenance", ["read", "update", "create", "delete"]),
      Permission("quality", ["read", "update", "create"]),
      Permission("safety", ["read", "update", "create"]),
      Permission("energy", ["read", "update"]),
      Permission("teams", ["read", "update", "create"]),
      Permission("reports", ["read", "create", "export"])]
    case Manager => [
      Permission("dashboard", ["read"]),
      Permission("production", ["read", "update"]),
      Permission("maintenance", ["read", "create", "update"]),
      Permission("quality", ["read", "create"]),
      Permission("safety", ["read", "create"]),
      Permission("energy", ["read"]),
      Permission("teams", ["read", "update"]),
      Permission("reports", ["read", "create"])]
    case Supervisor => [
      Permission("dashboard", ["read"]),
      Permission("production", ["read", "update"]),
      Permission("maintenance", ["read", "create"]),
      Permission("quality", ["read", "create"]),
      Permission("safety", ["read", "create"]),
      Permission("energy", ["read"]),
      Permission("teams", ["read"])]
    case Technician => [
      Permission("dashboard", ["read"]),
      Permission("production", ["read"]),
      Permission("maintenance", ["read", "update"]),
      Permission("quality", ["read", "create"]),
      Permission("safety", ["read", "create"]),
      Permission("energy", ["read"])]
    case Operator => [
      Permission("dashboard", ["read"]),
      Permission("production", ["read"]),
      Permission("maintenance", ["read"]),
      Permission("quality", ["read"]),
      Permission("safety", ["read", "create"])]
    case Viewer => [
      Permission("dashboard", ["read"]),
      Permission("production", ["read"]),
      Permission("quality", ["read"]),
      Permission("safety", ["read"]),
      Permission("energy", ["read"])]
  }

  /** ROLE_HIERARCHY */
  function Level(r: Role): (l: int)
    ensures 1 <= l <= 7
  {
    match r
    case SuperAdmin => 7
    case Admin => 6
    case Manager => 5
    case Supervisor => 4
    case Technician => 3
    case Operator => 2
    case Viewer => 1
  }

  /** The role's table has an entry for the resource that names the action
      (every table above has at most one entry per resource). */
  predicate Lists(role: Role, resource: string, action: string) {
    exists p :: p in RolePermissions(role) && p.resource == resource && action in p.actions
  }

  /** Distinct roles have distinct levels, so the hierarchy is a strict total
      order with SUPER_ADMIN on top and VIEWER at the bottom. */
  lemma LevelInjective(a: Role, b: Role)
    ensures Level(a) == Level(b) <==> a == b
    ensures Level(Viewer) <= Level(a) <= Level(SuperAdmin)
  {
  }

  /** AllRoles lists each role exactly once. */
  lemma AllRolesComplete(r: Role)
    ensures r in AllRoles
    ensures forall i, j :: 0 <= i < j < |AllRoles| ==> AllRoles[i] != AllRoles[j]
  {
    match r
    case SuperAdmin => assert AllRoles[0] == r;
    case Admin => assert AllRoles[1] == r;
    case Manager => assert AllRoles[2] == r;
    case Supervisor => assert AllRoles[3] == r;
    case Technician => assert AllRoles[4] == r;
    case Operator => assert AllRoles[5] == r;
    case Viewer => assert AllRoles[6] == r;
  }

  /** Only SUPER_ADMIN holds a wildcard entry; the other roles name concrete
      resources and actions. */
  lemma OnlySuperAdminWildcard(r: Role, p: Permission)
    requires p in RolePermissions(r)
    ensures (p.resource == "*" || "*" in p.actions) <==> r == SuperAdmin
  {
  }

  /** Every role other than SUPER_ADMIN lists "read" on "dashboard". */
  lemma DashboardReadListed(r: Role)
    requires r != SuperAdmin
    ensures Lists(r, "dashboard", "read")
  {
    assert RolePermissions(r)[0] == Permission("dashboard", if r == Admin then ["read", "update"] else ["read"])
      || RolePermissions(r)[1] == Permission("dashboard", ["read", "update"]);
  }

  /** Outside SUPER_ADMIN, "users" appears only under ADMIN, and no role lists
      "create" on "dashboard". */
  lemma UsersOnlyUnderAdmin(r: Role, p: Permission)
    requires r != SuperAdmin && p in RolePermissions(r)
    ensures p.resource == "users" ==> r == Admin
    ensures p.resource == "dashboard" ==> "create" !in p.actions
  {
  }

  /** Grants do not follow the hierarchy: VIEWER lists "energy" while the
      higher OPERATOR does not, and OPERATOR may create on "safety" while
      VIEWER may not. */
  lemma GrantsNotMonotone()
    ensures Level(Viewer) < Level(Operator)
    ensures Lists(Viewer, "energy", "read") && !Lists(Operator, "energy", "read")
    ensures Lists(Operator, "safety", "create") && !Lists(Viewer, "safety", "create")
  {
    assert RolePermissions(Viewer)[4] == Permission("energy", ["read"]);
    assert RolePermissions(Operator)[4] == Permission("safety", ["read", "create"]);
  }
}
