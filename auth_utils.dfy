/** Permission and hierarchy checks over the access-control tables, the
    list of roles a user may hand out, and the temporary-password
    generator (its random draws are parameters). */
module AuthUtils {
  import opened Common
  import opened Folds
  import opened AuthTypes

  /** One table entry grants an action on a resource when it is the global
      wildcard entry, or names the resource with the action or "*". */
  predicate EntryGrants(p: Permission, resource: string, action: string) {
    (p.resource == "*" && "*" in p.actions)
    || (p.resource == resource && ("*" in p.actions || action in p.actions))
  }

  /** `permissions.some(...)` */
  function AnyGrants(ps: seq<Permission>, resource: string, action: string): (b: bool)
    ensures b <==> exists i :: 0 <= i < |ps| && EntryGrants(ps[i], resource, action)
  {
    if ps == [] then false
    else EntryGrants(ps[0], resource, action) || AnyGrants(ps[1..], resource, action)
  }

  /** hasPermission */
  function HasPermission(role: Role, resource: string, action: string): (b: bool)
    ensures role == SuperAdmin ==> b
    ensures role != SuperAdmin ==>
      (b <==> exists p :: p in RolePermissions(role) && EntryGrants(p, resource, action))
  {
    if role == SuperAdmin then true
    else AnyGrants(RolePermissions(role), resource, action)
  }

  /** Below SUPER_ADMIN no entry is a wildcard, so a role has a permission
      exactly when its table lists the action on the resource. */
  lemma HasPermissionIsListing(role: Role, resource: string, action: string)
    requires role != SuperAdmin
    ensures HasPermission(role, resource, action) <==> Lists(role, resource, action)
  {
    forall p | p in RolePermissions(role)
      ensures EntryGrants(p, resource, action) <==> (p.resource == resource && action in p.actions)
    {
      OnlySuperAdminWildcard(role, p);
    }
  }

  /** Every role may read the dashboard. */
  lemma EveryRoleReadsDashboard(role: Role)
    ensures HasPermission(role, "dashboard", "read")
  {
    if role != SuperAdmin {
      DashboardReadListed(role);
      HasPermissionIsListing(role, "dashboard", "read");
    }
  }

  /** Only SUPER_ADMIN and ADMIN hold any permission on "users", and only
      SUPER_ADMIN may create on "dashboard". */
  lemma RestrictedPermissions(role: Role, action: string)
    ensures HasPermission(role, "users", action) ==> role == SuperAdmin || role == Admin
    ensures HasPermission(role, "dashboard", "create") <==> role == SuperAdmin
  {
    if role != SuperAdmin {
      HasPermissionIsListing(role, "users", action);
      HasPermissionIsListing(role, "dashboard", "create");
      forall p | p in RolePermissions(role) ensures p.resource == "users" ==> role == Admin {
        UsersOnlyUnderAdmin(role, p);
      }
      forall p | p in RolePermissions(role) ensures p.resource == "dashboard" ==> "create" !in p.actions {
        UsersOnlyUnderAdmin(role, p);
      }
    }
  }

  /** hasRoleLevel */
  predicate HasRoleLevel(user: Role, required: Role) {
    Level(user) >= Level(required)
  }

  /** The hierarchy check is a total order on roles. */
  lemma RoleLevelTotalOrder(a: Role, b: Role, c: Role)
    ensures HasRoleLevel(a, a)
    ensures HasRoleLevel(a, b) && HasRoleLevel(b, c) ==> HasRoleLevel(a, c)
    ensures HasRoleLevel(a, b) || HasRoleLevel(b, a)
    ensures HasRoleLevel(a, b) && HasRoleLevel(b, a) ==> a == b
  {
    LevelInjective(a, b);
  }

  /** The filter of getAvailableRoles: roles at or below the given level. */
  function AtMost(user: Role): Role -> bool {
    q => Level(q) <= Level(user)
  }

  /** getAvailableRoles */
  function GetAvailableRoles(user: Role): (r: seq<Role>)
    ensures SortedDesc(r, Level)
  {
    SortDescProps(Filter(AllRoles, AtMost(user)), Level);
    SortDesc(Filter(AllRoles, AtMost(user)), Level)
  }

  /** The roles offered are exactly those the user's level covers, each once,
      in strictly decreasing level. */
  lemma AvailableRolesExact(user: Role, q: Role)
    ensures q in GetAvailableRoles(user) <==> HasRoleLevel(user, q)
    ensures NoDup(GetAvailableRoles(user))
    ensures forall i, j :: 0 <= i < j < |GetAvailableRoles(user)| ==>
      Level(GetAvailableRoles(user)[i]) > Level(GetAvailableRoles(user)[j])
  {
    AvailableRolesMembers(user, q);
    AvailableRolesStrict(user);
  }

  /** A role is offered iff the user's level covers it. */
  lemma AvailableRolesMembers(user: Role, q: Role)
    ensures q in GetAvailableRoles(user) <==> HasRoleLevel(user, q)
  {
    var f := Filter(AllRoles, AtMost(user));
    var r := GetAvailableRoles(user);
    SortDescProps(f, Level);
    AllRolesComplete(q);
    assert q in r <==> multiset(r)[q] > 0;
    assert q in f <==> multiset(f)[q] > 0;
  }

  /** The roles offered occur once each, in strictly decreasing level. */
  lemma AvailableRolesStrict(user: Role)
    ensures NoDup(GetAvailableRoles(user))
    ensures forall i, j :: 0 <= i < j < |GetAvailableRoles(user)| ==>
      Level(GetAvailableRoles(user)[i]) > Level(GetAvailableRoles(user)[j])
  {
    var f := Filter(AllRoles, AtMost(user));
    var r := GetAvailableRoles(user);
    SortDescProps(f, Level);
    assert NoDup(AllRoles) by {
      AllRolesComplete(Viewer);
    }
    FilterNoDup(AllRoles, AtMost(user));
    NoDupPermutation(f, r);
    forall i, j | 0 <= i < j < |r| ensures Level(r[i]) > Level(r[j]) {
      LevelInjective(r[i], r[j]);
    }
  }

  lemma AllRolesByLevel()
    ensures SortedDesc(AllRoles, Level)
  {
    forall i, j | 0 <= i < j < |AllRoles| ensures Level(AllRoles[i]) >= Level(AllRoles[j]) {
      assert Level(AllRoles[i]) == 7 - i by {
        assert i == 0 || i == 1 || i == 2 || i == 3 || i == 4 || i == 5 || i == 6;
      }
      assert Level(AllRoles[j]) == 7 - j by {
        assert j == 0 || j == 1 || j == 2 || j == 3 || j == 4 || j == 5 || j == 6;
      }
    }
  }

  /** SUPER_ADMIN is offered all seven roles in hierarchy order. */
  lemma SuperAdminGetsAllRoles()
    ensures GetAvailableRoles(SuperAdmin) == AllRoles
  {
    FilterAll(AllRoles, AtMost(SuperAdmin));
    AllRolesByLevel();
    SortDescOfSorted(AllRoles, Level);
  }

  /** VIEWER is offered only VIEWER. */
  lemma ViewerGetsOnlyViewer()
    ensures GetAvailableRoles(Viewer) == [Viewer]
  {
    var r := GetAvailableRoles(Viewer);
    AvailableRolesExact(Viewer, Viewer);
    assert Viewer in r;
    AvailableRolesExact(Viewer, r[0]);
    if |r| > 1 {
      AvailableRolesExact(Viewer, r[1]);
      assert false;
    }
  }

  // ---------------------------------------------------- temporary password

  /** n consecutive ASCII characters starting at first. */
  function Run(first: char, n: nat): (r: string)
    requires first as int + n <= 0x7F
    ensures |r| == n
    ensures forall i :: 0 <= i < n ==> r[i] as int == first as int + i
  {
    seq(n, i requires 0 <= i < n => (first as int + i) as char)
  }

  /** The 62-character alphabet "A".."Z", "a".."z", "0".."9", in that order. */
  const Alphabet: string := Run('A', 26) + Run('a', 26) + Run('0', 10)

  predicate IsAlphanumeric(c: char) {
    ('A' <= c <= 'Z') || ('a' <= c <= 'z') || ('0' <= c <= '9')
  }

  /** `Math.floor(draw * chars.length)` for a draw in [0, 1). */
  function CharIndex(draw: real): (i: nat)
    requires 0.0 <= draw < 1.0
    ensures i < |Alphabet|
  {
    (draw * 62.0).Floor
  }

  lemma AlphabetIsAlphanumeric(i: nat)
    requires i < |Alphabet|
    ensures IsAlphanumeric(Alphabet[i])
  {
  }

  /** generateTempPassword, one `Math.random()` draw per character. */
  method GenerateTempPassword(draws: seq<real>) returns (result: string)
    requires |draws| == 8
    requires forall i :: 0 <= i < |draws| ==> 0.0 <= draws[i] < 1.0
    ensures |result| == 8
    ensures forall i :: 0 <= i < 8 ==> result[i] == Alphabet[CharIndex(draws[i])]
    ensures forall i :: 0 <= i < 8 ==> IsAlphanumeric(result[i])
  {
    result := "";
    for i := 0 to 8
      invariant |result| == i
      invariant forall k :: 0 <= k < i ==> result[k] == Alphabet[CharIndex(draws[k])]
      invariant forall k :: 0 <= k < i ==> IsAlphanumeric(result[k])
    {
      AlphabetIsAlphanumeric(CharIndex(draws[i]));
      result := result + [Alphabet[CharIndex(draws[i])]];
    }
  }
}
