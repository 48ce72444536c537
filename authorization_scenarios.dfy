/**
 * The container and the calls the service tests make, replayed on the
 * model: the hierarchy admin > member > guest with guest:read,
 * member:write and admin:delete, the decisions expected for it, the load
 * that never happens for an identity without roles and happens once over
 * two calls, and assertion registration by identifier and by callable.
 */
module AuthorizationScenarios {
  import opened Results
  import opened RoleGraph
  import opened Assertions
  import opened Authorization
  import RbacContainer
  import PermissionPropertyRole

  /** The hierarchy the decision tests build. */
  function TestGraph(): (g: Graph)
    ensures g.Keys == {"admin", "member", "guest"}
  {
    map[
      "admin" := Hierarchical({"delete"}, ["member"]),
      "member" := Hierarchical({"write"}, ["guest"]),
      "guest" := Hierarchical({"read"}, [])
    ]
  }

  /** The hierarchy of the decision tests before any permission is given. */
  function TestHierarchy(): (g: Graph)
    ensures g.Keys == TestGraph().Keys
  {
    map[
      "admin" := Hierarchical({}, ["member"]),
      "member" := Hierarchical({}, ["guest"]),
      "guest" := NewRole
    ]
  }

  /** `addRole('admin')`, `addRole('member', 'admin')`, `addRole('guest', 'member')`. */
  method BuildTestHierarchy() returns (rbac: RbacContainer.Rbac)
    ensures fresh(rbac) && rbac.Valid()
    ensures rbac.roles == TestHierarchy()
  {
    rbac := new RbacContainer.Rbac();
    var r := rbac.AddRole("admin", None);
    assert r == Pass && rbac.roles == map["admin" := NewRole];
    r := rbac.AddRole("member", Some("admin"));
    assert r == Pass;
    assert RbacContainer.WithChild(NewRole, "member") == Hierarchical({}, ["member"]) by {
      assert [] + ["member"] == ["member"];
    }
    assert rbac.roles == map["admin" := Hierarchical({}, ["member"]), "member" := NewRole];
    r := rbac.AddRole("guest", Some("member"));
    assert r == Pass;
    assert RbacContainer.WithChild(NewRole, "guest") == Hierarchical({}, ["guest"]) by {
      assert [] + ["guest"] == ["guest"];
    }
  }

  /** Builds the container with `addRole(child, parent)` and `getRole(..)->addPermission`. */
  method BuildTestContainer() returns (rbac: RbacContainer.Rbac)
    ensures fresh(rbac) && rbac.Valid()
    ensures rbac.roles == TestGraph()
  {
    rbac := BuildTestHierarchy();
    var r := rbac.AddPermission("guest", "read");
    assert r == Pass;
    r := rbac.AddPermission("member", "write");
    assert r == Pass;
    r := rbac.AddPermission("admin", "delete");
    assert r == Pass;
    assert {} + {"read"} == {"read"} && {} + {"write"} == {"write"} && {} + {"delete"} == {"delete"};
  }

  /** The six rows of the decision table, on the model's decision. */
  lemma GrantedTable()
    ensures Decide(TestGraph(), ["guest"], "read", None)
    ensures Decide(TestGraph(), ["member"], "read", None)
    ensures !Decide(TestGraph(), ["guest"], "write", None)
    ensures !Decide(TestGraph(), ["guest"], "delete", None)
    ensures !Decide(TestGraph(), ["member"], "read", Some((g: Graph) => false))
    ensures !Decide(TestGraph(), [], "read", None)
  {
    var g := TestGraph();
    assert RoleGrants(g, "guest", "read");
    assert Grants(g, "guest", "read", {"member"});
    assert Children(g["member"])[0] == "guest";
    assert RoleGrants(g, "member", "read");
    assert ["guest"][0] == "guest" && ["member"][0] == "member";
    LeafGrantsOwnOnly(g, "guest", "write");
    LeafGrantsOwnOnly(g, "guest", "delete");
  }

  /** One decision test: the identity is asked exactly once and the answer is the table's. */
  method TestGranted(roles: seq<string>, permission: string, assertion: Option<Assertion>)
    returns (provider: IdentityProvider, granted: bool)
    ensures fresh(provider) && provider.calls == 1
    ensures granted == Decide(TestGraph(), roles, permission, assertion)
  {
    var rbac := BuildTestContainer();
    provider := new IdentityProvider(roles);
    var service := new AuthorizationService(rbac, provider, map[]);
    granted := service.IsGranted(permission, assertion);
  }

  /** An identity without roles is refused and triggers no load event. */
  method TestDoesNotLoadIfNoIdentityIsFound() returns (service: AuthorizationService, granted: bool)
    ensures fresh(service) && fresh(service.identityProvider)
    ensures !granted
    ensures service.events == [] && !service.loaded
    ensures service.identityProvider.calls == 1
  {
    var rbac := new RbacContainer.Rbac();
    var provider := new IdentityProvider([]);
    service := new AuthorizationService(rbac, provider, map[]);
    granted := service.IsGranted("foo", None);
  }

  /**
   * Two calls with a role unknown to the empty container: the identity is
   * asked twice, the two load events are triggered once, and the unknown
   * role is refused rather than reported as an error.
   */
  method TestLoadRolesAndPermissions() returns (service: AuthorizationService, first: bool, second: bool)
    ensures fresh(service) && fresh(service.identityProvider)
    ensures service.identityProvider.calls == 2
    ensures service.events == [LoadRoles, LoadPermissions]
    ensures !first && !second
  {
    var rbac := new RbacContainer.Rbac();
    var provider := new IdentityProvider(["role1"]);
    service := new AuthorizationService(rbac, provider, map[]);
    first := service.IsGranted("foo", None);
    second := service.IsGranted("foo", None);
  }

  /**
   * Registration under "edit": absent at first, then an identifier the
   * plugin manager resolves, then a ready instance, then a callable; each
   * fetch returns what the latest registration names.
   */
  method TestCanRegisterAssertions(invokable: Assertion, instance: Assertion, callable: Assertion)
    returns (service: AuthorizationService, byName: Result<Assertion, AssertionError>,
             byInstance: Result<Assertion, AssertionError>, byCallable: Result<Assertion, AssertionError>)
    ensures fresh(service)
    ensures service.HasAssertion("edit")
    ensures byName == Ok(invokable)
    ensures byInstance == Ok(instance)
    ensures byCallable == Ok(callable)
  {
    var rbac := new RbacContainer.Rbac();
    var provider := new IdentityProvider([]);
    service := new AuthorizationService(rbac, provider, map["InvokableAssertion" := invokable]);
    assert !service.HasAssertion("edit");
    service.RegisterAssertion("edit", ByName("InvokableAssertion"));
    assert service.HasAssertion("edit");
    byName := service.GetAssertion("edit");
    service.RegisterAssertion("edit", Ready(instance));
    byInstance := service.GetAssertion("edit");
    service.RegisterAssertion("edit", Ready(callable));
    byCallable := service.GetAssertion("edit");
  }

  /**
   * The identity is asked afresh on every call: once its roles are gone,
   * the same question is refused.
   */
  method TestIdentityNotCached() returns (provider: IdentityProvider, before: bool, after: bool)
    ensures fresh(provider) && provider.calls == 2
    ensures before && !after
  {
    var rbac := BuildTestContainer();
    provider := new IdentityProvider(["guest"]);
    var service := new AuthorizationService(rbac, provider, map[]);
    before := service.IsGranted("read", None);
    provider.roles := [];
    after := service.IsGranted("read", None);
    GrantedTable();
  }

  /**
   * The constant role placed in a container as a child of guest: an
   * identity holding it is refused a name from the role's own private
   * list, while guest keeps its own permission.
   */
  method TestPermissionPropertyRole() returns (rbac: RbacContainer.Rbac, granted: bool, kept: bool)
    ensures fresh(rbac) && rbac.Valid()
    ensures !granted && kept
  {
    rbac := BuildTestContainer();
    var r := rbac.AddPermissionPropertyRole(Some("guest"));
    var name := PermissionPropertyRole.GetName();
    assert r == Pass && name in rbac.roles && rbac.roles[name].PermissionProperty?;
    var provider := new IdentityProvider([name]);
    var service := new AuthorizationService(rbac, provider, map[]);
    granted := service.IsGranted("permission-property-a", None);
    PermissionPropertyRolesRefused(rbac.roles, [name], "permission-property-a", None);
    assert rbac.roles["guest"].permissions == {"read"};
    OwnPermissionGranted(rbac.roles, "guest", "read");
    kept := RoleGrants(rbac.roles, "guest", "read");
  }
}
