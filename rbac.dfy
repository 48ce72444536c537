/**
 * The RBAC container the service decides against.  It is filled step by
 * step: `addRole(child, parent)` creates the child and hangs it under an
 * existing parent, and `getRole(name)->addPermission(p)` gives a role a
 * permission.  Roles are kept by name; child edges are names.
 */
module RbacContainer {
  import opened Results
  import opened RoleGraph
  import PermissionPropertyRole

  datatype RbacError =
    | DuplicateRole(name: string)
    | RoleNotFound(name: string)
    | NotHierarchical(name: string)

  /** The hierarchical entry `e` with `child` appended to its children. */
  function WithChild(e: RoleEntry, child: string): (r: RoleEntry)
    requires e.Hierarchical?
    ensures r.Hierarchical? && r.permissions == e.permissions
    ensures r.children == e.children + [child]
  {
    Hierarchical(e.permissions, e.children + [child])
  }

  /** The hierarchical entry `e` with permission `p` added to its own set. */
  function WithPermission(e: RoleEntry, p: string): (r: RoleEntry)
    requires e.Hierarchical?
    ensures r.Hierarchical? && r.children == e.children
    ensures r.permissions == e.permissions + {p}
  {
    Hierarchical(e.permissions + {p}, e.children)
  }

  class Rbac {
    var roles: Graph
    /** Creation order of the roles; a child is always created after its parent. */
    ghost var order: map<string, nat>
    ghost var created: nat

    ghost predicate Valid()
      reads this
    {
      && Ordered(roles, order)
      && order.Keys == roles.Keys
      && (forall r :: r in order ==> order[r] < created)
      && (forall r :: r in roles && roles[r].PermissionProperty? ==> r == PermissionPropertyRole.GetName())
    }

    constructor ()
      ensures Valid() && roles == map[]
    {
      roles := map[];
      order := map[];
      created := 0;
    }

    /**
     * Adds role `child` (a new, empty hierarchical role) and, when a parent
     * is named, appends it to that parent's children.  The parent must
     * already exist and may not be the constant role; the child name must
     * be new.
     */
    method AddRole(child: string, parent: Option<string>) returns (r: Outcome<RbacError>)
      requires Valid()
      modifies this
      ensures Valid()
      ensures r == (if child in old(roles) then Fail(DuplicateRole(child))
                    else if parent.Some? && parent.value !in old(roles) then Fail(RoleNotFound(parent.value))
                    else if parent.Some? && old(roles)[parent.value].PermissionProperty? then Fail(NotHierarchical(parent.value))
                    else Pass)
      ensures r.Fail? ==> roles == old(roles)
      ensures r.Pass? && parent.None? ==> roles == old(roles)[child := NewRole]
      ensures r.Pass? && parent.Some? ==>
                roles == old(roles)[child := NewRole][parent.value := WithChild(old(roles)[parent.value], child)]
    {
      if child in roles {
        return Fail(DuplicateRole(child));
      }
      if parent.Some? && parent.value !in roles {
        return Fail(RoleNotFound(parent.value));
      }
      if parent.Some? && roles[parent.value].PermissionProperty? {
        return Fail(NotHierarchical(parent.value));
      }
      order := order[child := created];
      created := created + 1;
      if parent.Some? {
        roles := roles[child := NewRole][parent.value := WithChild(roles[parent.value], child)];
      } else {
        roles := roles[child := NewRole];
      }
      r := Pass;
    }

    /**
     * Adds the constant role under its fixed name, below `parent` when one
     * is named.  The parent can never be the constant role itself: that
     * role lives only under the fixed name, which must still be free.
     */
    method AddPermissionPropertyRole(parent: Option<string>) returns (r: Outcome<RbacError>)
      requires Valid()
      modifies this
      ensures Valid()
      ensures var child := PermissionPropertyRole.GetName();
              r == (if child in old(roles) then Fail(DuplicateRole(child))
                    else if parent.Some? && parent.value !in old(roles) then Fail(RoleNotFound(parent.value))
                    else Pass)
      ensures r.Fail? ==> roles == old(roles)
      ensures var child := PermissionPropertyRole.GetName();
              r.Pass? && parent.None? ==> roles == old(roles)[child := PermissionProperty]
      ensures var child := PermissionPropertyRole.GetName();
              r.Pass? && parent.Some? ==>
                roles == old(roles)[child := PermissionProperty][parent.value := WithChild(old(roles)[parent.value], child)]
    {
      var child := PermissionPropertyRole.GetName();
      if child in roles {
        return Fail(DuplicateRole(child));
      }
      if parent.Some? && parent.value !in roles {
        return Fail(RoleNotFound(parent.value));
      }
      order := order[child := created];
      created := created + 1;
      if parent.Some? {
        roles := roles[child := PermissionProperty][parent.value := WithChild(roles[parent.value], child)];
      } else {
        roles := roles[child := PermissionProperty];
      }
      r := Pass;
    }

    /**
     * `getRole(name)->addPermission(p)`: the role must exist, and only a
     * hierarchical role can take a permission.
     */
    method AddPermission(name: string, p: string) returns (r: Outcome<RbacError>)
      requires Valid()
      modifies this
      ensures Valid()
      ensures r == (if name !in old(roles) then Fail(RoleNotFound(name))
                    else if old(roles)[name].PermissionProperty? then Fail(NotHierarchical(name))
                    else Pass)
      ensures r.Fail? ==> roles == old(roles)
      ensures r.Pass? ==> roles == old(roles)[name := WithPermission(old(roles)[name], p)]
    {
      if name !in roles {
        return Fail(RoleNotFound(name));
      }
      if roles[name].PermissionProperty? {
        return Fail(NotHierarchical(name));
      }
      roles := roles[name := WithPermission(roles[name], p)];
      r := Pass;
    }
  }

  /** Once a role has been given a permission, the role is granted it. */
  lemma AddedPermissionGranted(g: Graph, name: string, p: string)
    requires name in g && g[name].Hierarchical?
    ensures RoleGrants(g[name := WithPermission(g[name], p)], name, p)
  {
  }
}
