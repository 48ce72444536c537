/**
 * An in-memory role node: a name, a permission map keyed by permission
 * name and an ordered list of child roles.  Its permission check looks at
 * its own map only; children are stored but never consulted.
 */
module AssetRole {

  /** A permission is nothing but its name. */
  datatype Permission = Permission(name: string)

  class Role {
    const name: string
    var permissions: map<string, Permission>
    var children: seq<Role>

    /** Every entry of the permission map is stored under its own name. */
    ghost predicate Valid()
      reads this
    {
      forall n :: n in permissions ==> permissions[n].name == n
    }

    /** The set of permission names the role holds itself. */
    ghost function PermissionNames(): set<string>
      reads this
    {
      permissions.Keys
    }

    constructor (name: string)
      ensures Valid()
      ensures this.name == name
      ensures permissions == map[] && children == []
    {
      this.name := name;
      permissions := map[];
      children := [];
    }

    /** Writes the permission under its name, replacing any earlier entry. */
    method AddPermission(n: string)
      requires Valid()
      modifies this
      ensures Valid()
      ensures permissions == old(permissions)[n := Permission(n)]
      ensures PermissionNames() == old(PermissionNames()) + {n}
      ensures children == old(children)
    {
      permissions := permissions[n := Permission(n)];
    }

    function GetName(): (r: string)
      ensures r == name
    {
      name
    }

    /** True exactly when the role's own map holds `n`; the children play no part. */
    predicate HasPermission(n: string)
      reads this
      ensures HasPermission(n) <==> n in PermissionNames()
    {
      n in permissions
    }

    /** Appends the child, duplicates included. */
    method AddChild(child: Role)
      modifies this
      ensures children == old(children) + [child]
      ensures permissions == old(permissions)
    {
      children := children + [child];
    }

    function GetChildren(): (r: seq<Role>)
      reads this
      ensures r == children
    {
      children
    }

    /** Parents are not recorded: the call changes nothing. */
    method AddParent(parent: Role)
      ensures unchanged(this)
    {
    }

    /** There is never a parent to report. */
    function GetParents(): (r: seq<Role>)
      ensures r == []
    {
      []
    }
  }

  /**
   * Adding a permission name twice leaves the role as adding it once:
   * one entry for the name, the rest of the map, the children and the
   * name untouched.
   */
  method AddPermissionTwice(role: Role, n: string)
    requires role.Valid()
    modifies role
    ensures role.Valid()
    ensures role.permissions == old(role.permissions)[n := Permission(n)]
    ensures role.HasPermission(n)
    ensures forall m :: m != n ==> (role.HasPermission(m) <==> old(role.HasPermission(m)))
    ensures role.children == old(role.children)
  {
    role.AddPermission(n);
    role.AddPermission(n);
  }

  /**
   * A permission added to a child is not seen through its parent, and the
   * parent's own permissions survive the addition of the child.
   */
  method ChildPermissionNotInherited(p: string) returns (parent: Role, child: Role)
    ensures fresh(parent) && fresh(child)
    ensures child.HasPermission(p) && !parent.HasPermission(p)
    ensures parent.GetChildren() == [child]
  {
    parent := new Role("parent");
    child := new Role("child");
    child.AddPermission(p);
    parent.AddChild(child);
  }
}
