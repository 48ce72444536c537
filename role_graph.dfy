/**
 * The role hierarchy of the RBAC container as a value: an arena of roles
 * addressed by name, each with its own permission set and the names of its
 * children.  A role is granted a permission when it or any of its
 * descendants holds it; permissions never flow from a parent down to a
 * child.
 */
module RoleGraph {
  import PermissionPropertyRole

  /**
   * A role as stored in the container: a hierarchical role with its own
   * permissions and ordered children, or the constant role that never
   * grants and has no children.
   */
  datatype RoleEntry =
    | Hierarchical(permissions: set<string>, children: seq<string>)
    | PermissionProperty

  type Graph = map<string, RoleEntry>

  /** A role that has just been created: no permissions, no children. */
  const NewRole: RoleEntry := Hierarchical({}, [])

  /** The role's answer for itself, without looking at its children. */
  predicate OwnHas(e: RoleEntry, p: string)
  {
    match e
    case Hierarchical(perms, _) => p in perms
    case PermissionProperty => PermissionPropertyRole.HasPermission(p)
  }

  function Children(e: RoleEntry): (cs: seq<string>)
    ensures e.PermissionProperty? ==> cs == []
  {
    match e
    case Hierarchical(_, cs) => cs
    case PermissionProperty => []
  }

  /**
   * Depth-first search from `r`: the role holds `p` itself or some child
   * grants it.  `visited` holds the roles on the current search path; it
   * makes the search terminate on any map, and on an acyclic hierarchy it
   * never cuts anything off (see VisitedNeverPrunes).
   */
  predicate Grants(g: Graph, r: string, p: string, visited: set<string>)
    decreases g.Keys - visited
    ensures Grants(g, r, p, visited) ==> r in g && r !in visited
  {
    r in g && r !in visited &&
    (OwnHas(g[r], p) ||
     exists i :: 0 <= i < |Children(g[r])| && Grants(g, Children(g[r])[i], p, visited + {r}))
  }

  /** The container's grant decision for one role name. */
  predicate RoleGrants(g: Graph, r: string, p: string)
    ensures RoleGrants(g, r, p) ==> r in g
  {
    Grants(g, r, p, {})
  }

  /** `path` starts in the graph and follows child edges only. */
  ghost predicate IsPath(g: Graph, path: seq<string>)
  {
    && |path| > 0
    && (forall i :: 0 <= i < |path| ==> path[i] in g)
    && (forall i :: 0 < i < |path| ==> path[i] in Children(g[path[i - 1]]))
  }

  /** Reference definition: `r` has a descendant (itself included) that holds `p`. */
  ghost predicate Inherits(g: Graph, r: string, p: string)
  {
    exists path :: IsPath(g, path) && path[0] == r && OwnHas(g[path[|path| - 1]], p)
  }

  /**
   * A witness that the child relation is acyclic: every child name is a
   * role of the graph and comes strictly later in `order` than its parent.
   */
  ghost predicate Ordered(g: Graph, order: map<string, nat>)
  {
    && g.Keys <= order.Keys
    && forall r, c :: r in g && c in Children(g[r]) ==> c in g && order[r] < order[c]
  }

  /** Every grant found by the search is backed by a descendant holding the permission. */
  lemma {:induction false} GrantsHasPath(g: Graph, r: string, p: string, visited: set<string>)
    requires Grants(g, r, p, visited)
    ensures Inherits(g, r, p)
    decreases g.Keys - visited
  {
    if OwnHas(g[r], p) {
      assert IsPath(g, [r]);
    } else {
      var cs := Children(g[r]);
      var i :| 0 <= i < |cs| && Grants(g, cs[i], p, visited + {r});
      GrantsHasPath(g, cs[i], p, visited + {r});
      var tail :| IsPath(g, tail) && tail[0] == cs[i] && OwnHas(g[tail[|tail| - 1]], p);
      var path := [r] + tail;
      assert path[1..] == tail;
      assert IsPath(g, path);
      assert path[|path| - 1] == tail[|tail| - 1];
    }
  }

  /**
   * On an ordered graph the search finds every path to a holder of the
   * permission, provided the roles already on the search path come earlier
   * in the order than the start of the path.
   */
  lemma {:induction false} PathGrants(g: Graph, order: map<string, nat>, path: seq<string>, p: string, visited: set<string>)
    requires Ordered(g, order)
    requires IsPath(g, path) && OwnHas(g[path[|path| - 1]], p)
    requires forall v :: v in visited ==> v in order && order[v] < order[path[0]]
    ensures Grants(g, path[0], p, visited)
    decreases |path|
  {
    var r := path[0];
    if |path| > 1 {
      var c := path[1];
      assert c in Children(g[r]);
      var tail := path[1..];
      assert IsPath(g, tail);
      assert tail[|tail| - 1] == path[|path| - 1];
      PathGrants(g, order, tail, p, visited + {r});
      var cs := Children(g[r]);
      var i :| 0 <= i < |cs| && cs[i] == c;
      assert Grants(g, cs[i], p, visited + {r});
    }
  }

  /** The search decides exactly the reference definition on an acyclic hierarchy. */
  lemma RoleGrantsIffInherits(g: Graph, order: map<string, nat>, r: string, p: string)
    requires Ordered(g, order)
    ensures RoleGrants(g, r, p) <==> Inherits(g, r, p)
  {
    if RoleGrants(g, r, p) {
      GrantsHasPath(g, r, p, {});
    }
    if Inherits(g, r, p) {
      var path :| IsPath(g, path) && path[0] == r && OwnHas(g[path[|path| - 1]], p);
      PathGrants(g, order, path, p, {});
    }
  }

  /** The visited set never cuts a grant off when it only holds ancestors of `r`. */
  lemma VisitedNeverPrunes(g: Graph, order: map<string, nat>, r: string, p: string, visited: set<string>)
    requires Ordered(g, order) && r in g
    requires forall v :: v in visited ==> v in order && order[v] < order[r]
    ensures Grants(g, r, p, visited) <==> RoleGrants(g, r, p)
  {
    if RoleGrants(g, r, p) {
      GrantsHasPath(g, r, p, {});
      var path :| IsPath(g, path) && path[0] == r && OwnHas(g[path[|path| - 1]], p);
      PathGrants(g, order, path, p, visited);
    }
    if Grants(g, r, p, visited) {
      GrantsHasPath(g, r, p, visited);
      RoleGrantsIffInherits(g, order, r, p);
    }
  }

  /** A parent is granted every permission any of its children is granted. */
  lemma ParentInheritsChild(g: Graph, order: map<string, nat>, r: string, c: string, p: string)
    requires Ordered(g, order)
    requires r in g && c in Children(g[r]) && RoleGrants(g, c, p)
    ensures RoleGrants(g, r, p)
  {
    RoleGrantsIffInherits(g, order, c, p);
    var tail :| IsPath(g, tail) && tail[0] == c && OwnHas(g[tail[|tail| - 1]], p);
    var path := [r] + tail;
    assert path[1..] == tail;
    assert IsPath(g, path);
    assert path[|path| - 1] == tail[|tail| - 1];
    RoleGrantsIffInherits(g, order, r, p);
  }

  /** A role's own permissions are always granted to it. */
  lemma OwnPermissionGranted(g: Graph, r: string, p: string)
    requires r in g && OwnHas(g[r], p)
    ensures RoleGrants(g, r, p)
  {
  }

  /** A role without children is granted exactly its own permissions. */
  lemma LeafGrantsOwnOnly(g: Graph, r: string, p: string)
    requires r in g && Children(g[r]) == []
    ensures RoleGrants(g, r, p) <==> OwnHas(g[r], p)
  {
  }

  /** The constant role grants nothing, whatever the rest of the graph holds. */
  lemma PermissionPropertyNeverGrants(g: Graph, r: string, p: string)
    requires r in g && g[r].PermissionProperty?
    ensures !RoleGrants(g, r, p)
  {
  }
}
