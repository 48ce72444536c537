# RBAC authorization core of LmcRbacMvc, modelled in Dafny

This project models the role-based authorization core exercised by the
LmcRbacMvc test suite:

- **Role node** (`AssetRole.Role`). An in-memory role has a name, a permission
  map keyed by permission name and an ordered list of children.
  `addPermission` writes into the map. `addChild` appends. `hasPermission`
  looks at the role's own map only. `addParent` does nothing and
  `getParents` is always empty.
- **Constant-deny role** (`PermissionPropertyRole`). This role has a fixed
  name and a private list of two permission names. It never grants
  anything, not even those two names. It also appears as the
  `PermissionProperty` variant of a container entry, so the decision is
  also checked on a role that never grants.
- **RBAC container** (`RbacContainer.Rbac`, `RoleGraph`). Roles are kept by
  name in a map, and child edges are stored as names. `addRole(child,
  parent)` creates a new child under an existing parent, and
  `getRole(name)->addPermission(p)` gives a role a permission. A role is
  granted a permission when it or any of its descendants holds it.
  Permissions never flow from a parent down to a child. `Grants` is a
  depth-first search. It is proved equal to the path-based reference
  definition `Inherits` on every acyclic container, and every container the
  class builds is acyclic: a ghost creation order, kept in `Valid()`,
  witnesses this.
- **Authorization service** (`Authorization`). `isGranted(permission,
  assertion)` asks the identity provider for the caller's roles once per
  call and refuses at once when there are none. Otherwise, the first such
  call triggers the two load events and closes the `loaded` latch. The
  service then decides against the container. A per-call assertion
  receives the container and can veto a grant. The assertion registry
  (`Assertions`) stores an identifier or a ready callable per key. The
  latest registration wins, and an identifier is resolved through the
  plugin manager when the assertion is fetched.
- **Test replays** (`AuthorizationScenarios`). These members rebuild the
  tests' container (admin > member > guest with guest:read, member:write,
  admin:delete) and replay their calls on the model.

Where the documented design and the code differ, the model follows the code:

- An identity role that the container does not hold grants nothing and
  raises no error. The load test asks with `role1` against an empty
  container and expects both calls to return normally
  (tests/ZfcRbacTest/Service/AuthorizationServiceTest.php:139-165).
- A parent inherits from its descendants, never the reverse: guest is
  refused member's `write` and admin's `delete`
  (tests/ZfcRbacTest/Service/AuthorizationServiceTest.php:43-65).

The sources of the container and of the service are not part of this
model. Five of their rules are modelling choices made here:

- `addRole` refuses a name that already exists.
- An unknown parent is an error, as `getRole` throws.
- The constant role can be neither a parent nor given permissions, because
  it has no `addChild` and no `addPermission`.
- Fetching an assertion for a key that was never registered fails with
  `NotRegistered`. The tests never fetch an absent key.
- An identifier the plugin manager does not know is accepted at
  registration and fails with `NotResolvable` only when it is fetched. The
  tests only register an identifier the plugin manager knows.

## Model

| member | source | states |
|---|---|---|
| PermissionPropertyRole.GetName | tests/Asset/MockRoleWithPermissionProperty.php:11-14 | the name is always `role-with-permission-property` |
| PermissionPropertyRole.HasPermission | tests/Asset/MockRoleWithPermissionProperty.php:15-18 | false for every permission name |
| PermissionPropertyRole.OwnListNotGranted | tests/Asset/MockRoleWithPermissionProperty.php:9-18 | the private list holds two names, and neither is granted |
| AssetRole.Role.constructor | tests/Asset/Role.php:88-93 | a new role has the given name, no permissions and no children |
| AssetRole.Role.AddPermission | tests/Asset/Role.php:111-116 | the map gets an entry for the name, keyed by that name; other entries and the children are unchanged |
| AssetRole.Role.GetName | tests/Asset/Role.php:118-121 | the name given to the constructor, which no method changes |
| AssetRole.Role.HasPermission | tests/Asset/Role.php:123-126 | true exactly for names the role's own map holds; the children are not consulted |
| AssetRole.Role.AddChild | tests/Asset/Role.php:128-131 | the children become the old list followed by the new child, duplicates allowed; permissions unchanged |
| AssetRole.Role.GetChildren | tests/Asset/Role.php:133-136 | the children in the order they were added |
| AssetRole.Role.AddParent | tests/Asset/Role.php:138-141 | the role is unchanged |
| AssetRole.Role.GetParents | tests/Asset/Role.php:143-147 | always the empty sequence |
| AssetRole.AddPermissionTwice | tests/Asset/Role.php:111-126 | adding a name twice equals adding it once: one entry, the name granted, every other name's answer unchanged |
| AssetRole.ChildPermissionNotInherited | tests/Asset/Role.php:123-136 | example on one fresh parent and child: the child's permission is not granted to the parent (the general fact follows from the contract of `Role.HasPermission`) |
| RoleGraph.Grants | tests/ZfcRbacTest/Service/AuthorizationServiceTest.php:35-65 | the search succeeds only for a role in the container and off the current search path |
| RoleGraph.RoleGrants | tests/ZfcRbacTest/Service/AuthorizationServiceTest.php:35-65 | a grant is only ever found for a role the container holds |
| RoleGraph.GrantsHasPath | tests/ZfcRbacTest/Service/AuthorizationServiceTest.php:43-65 | every grant the search finds comes from a descendant (the role itself included) that holds the permission |
| RoleGraph.PathGrants | tests/ZfcRbacTest/Service/AuthorizationServiceTest.php:43-49 | on an acyclic container, every descendant's permission is found by the search |
| RoleGraph.RoleGrantsIffInherits | tests/ZfcRbacTest/Service/AuthorizationServiceTest.php:35-65 | on an acyclic container, the search grants exactly when some descendant holds the permission |
| RoleGraph.VisitedNeverPrunes | tests/ZfcRbacTest/Service/AuthorizationServiceTest.php:43-49 | the search's guard against revisiting roles never loses a grant on an acyclic container |
| RoleGraph.ParentInheritsChild | tests/ZfcRbacTest/Service/AuthorizationServiceTest.php:43-49 | a parent is granted every permission its child is granted |
| RoleGraph.OwnPermissionGranted | tests/ZfcRbacTest/Service/AuthorizationServiceTest.php:35-41 | a role is granted its own permissions |
| RoleGraph.LeafGrantsOwnOnly | tests/ZfcRbacTest/Service/AuthorizationServiceTest.php:51-65 | a role without children is granted its own permissions and nothing else |
| RoleGraph.PermissionPropertyNeverGrants | tests/Asset/MockRoleWithPermissionProperty.php:15-18 | the constant role in a container grants nothing |
| RbacContainer.Rbac.constructor | tests/ZfcRbacTest/Service/AuthorizationServiceTest.php:91 | a new container holds no roles |
| RbacContainer.Rbac.AddRole | tests/ZfcRbacTest/Service/AuthorizationServiceTest.php:93-95 | adds an empty role and appends it to its parent's children; fails, changing nothing, on a duplicate name, an unknown parent or the constant role as parent; the container stays acyclic |
| RbacContainer.Rbac.AddPermissionPropertyRole | tests/Asset/MockRoleWithPermissionProperty.php:7-18 | adds the constant role under its fixed name, below an optional parent, with AddRole's failure cases |
| RbacContainer.Rbac.AddPermission | tests/ZfcRbacTest/Service/AuthorizationServiceTest.php:97-99 | adds the permission to the named hierarchical role only; fails, changing nothing, for an unknown role or the constant role |
| RbacContainer.AddedPermissionGranted | tests/ZfcRbacTest/Service/AuthorizationServiceTest.php:97-99 | after a role is given a permission, the role is granted it |
| Assertions.Register | tests/ZfcRbacTest/Service/AuthorizationServiceTest.php:183-197 | the key now maps to the new entry; every other key keeps its entry |
| Assertions.Has | tests/ZfcRbacTest/Service/AuthorizationServiceTest.php:180-184 | `hasAssertion` on the registry: true exactly for keys some registration named |
| Assertions.Get | tests/ZfcRbacTest/Service/AuthorizationServiceTest.php:183-199 | a ready callable is returned as stored and a known identifier is resolved through the plugin manager, as the test shows; the two failures (an absent key gives `NotRegistered`, an unknown identifier gives `NotResolvable`) are modelling choices |
| Assertions.NothingBeforeRegistration | tests/ZfcRbacTest/Service/AuthorizationServiceTest.php:180 | an empty registry has no assertion for any key |
| Assertions.HasAfterRegister | tests/ZfcRbacTest/Service/AuthorizationServiceTest.php:183-184 | after registration the key is present |
| Assertions.GetAfterRegisterReady | tests/ZfcRbacTest/Service/AuthorizationServiceTest.php:188-199 | a registered callable is fetched back unchanged |
| Assertions.GetAfterRegisterByName | tests/ZfcRbacTest/Service/AuthorizationServiceTest.php:172-185 | a registered identifier is fetched as the plugin manager's instance |
| Assertions.UnknownIdentifierFailsOnGet | tests/ZfcRbacTest/Service/AuthorizationServiceTest.php:183-185 | modelling choice: an identifier the plugin manager lacks is accepted at registration and fails only when fetched (the test registers only a known identifier) |
| Assertions.RegisterOverwrites | tests/ZfcRbacTest/Service/AuthorizationServiceTest.php:188-197 | a later registration under the same key replaces the earlier one |
| Assertions.RegisterLeavesOtherKeys | tests/ZfcRbacTest/Service/AuthorizationServiceTest.php:183-197 | registration under one key changes no other key's answer |
| Authorization.AfterIsGranted | tests/ZfcRbacTest/Service/AuthorizationServiceTest.php:117-165 | the latch is closed after a call exactly when it was closed before or the identity has a role; the events gain the two load events exactly on a call with a role while the latch was open, and otherwise stay the same |
| Authorization.Run | tests/ZfcRbacTest/Service/AuthorizationServiceTest.php:139-165 | the load state after a series of `isGranted` calls: a loaded service stays as it is, and earlier events are never lost or reordered |
| Authorization.EmptyIdentityDoesNotLoad | tests/ZfcRbacTest/Service/AuthorizationServiceTest.php:117-137 | a call for an identity without roles triggers no load event |
| Authorization.SecondCallDoesNotLoad | tests/ZfcRbacTest/Service/AuthorizationServiceTest.php:155-164 | after one call with a role, a further call changes no load state |
| Authorization.RunLoadsOnce | tests/ZfcRbacTest/Service/AuthorizationServiceTest.php:139-165 | over any series of calls, the load events are added at most once, and exactly once when some call has a role and the latch was open |
| Authorization.FreshServiceLoadsAtMostOnce | tests/ZfcRbacTest/Service/AuthorizationServiceTest.php:155-164 | from a fresh service, the events are either both load events once or nothing |
| Authorization.Decide | tests/ZfcRbacTest/Service/AuthorizationServiceTest.php:35-81 | the decision `isGranted` returns: some identity role is granted the permission and the assertion passes; a grant needs at least one role and a passing assertion |
| Authorization.EmptyIdentityRefused | tests/ZfcRbacTest/Service/AuthorizationServiceTest.php:75-81 | an identity without roles is refused every permission |
| Authorization.AssertionVetoes | tests/ZfcRbacTest/Service/AuthorizationServiceTest.php:67-73 | an assertion that returns false refuses, whatever the roles grant |
| Authorization.PassingAssertionKeepsDecision | tests/ZfcRbacTest/Service/AuthorizationServiceTest.php:67-73 | an assertion that returns true leaves the structural decision unchanged |
| Authorization.DecideIffInherits | tests/ZfcRbacTest/Service/AuthorizationServiceTest.php:35-81 | on an acyclic container, the decision is "some identity role has a descendant holding the permission, and the assertion passes" |
| Authorization.PermissionPropertyRolesRefused | tests/Asset/MockRoleWithPermissionProperty.php:15-18 | an identity holding only the constant role or unknown names is refused everything |
| Authorization.IdentityProvider.constructor | tests/ZfcRbacTest/Service/AuthorizationServiceTest.php:101-104 | the provider answers with the given roles and has not been asked yet |
| Authorization.IdentityProvider.GetIdentityRoles | tests/ZfcRbacTest/Service/AuthorizationServiceTest.php:101-104 | returns the identity's roles and counts the request |
| Authorization.AuthorizationService.constructor | tests/ZfcRbacTest/Service/AuthorizationServiceTest.php:108 | a new service is not loaded, has triggered no event and holds no assertion |
| Authorization.AuthorizationService.IsGranted | tests/ZfcRbacTest/Service/AuthorizationServiceTest.php:88-165 | asks the identity exactly once; the result is the decision on that call's roles; the load state advances as AfterIsGranted says; the registry is unchanged |
| Authorization.AuthorizationService.RegisterAssertion | tests/ZfcRbacTest/Service/AuthorizationServiceTest.php:183-197 | the registry becomes the old one with the key overwritten; the load state is unchanged |
| Authorization.AuthorizationService.HasAssertion | tests/ZfcRbacTest/Service/AuthorizationServiceTest.php:180-184 | true exactly for registered keys |
| Authorization.AuthorizationService.GetAssertion | tests/ZfcRbacTest/Service/AuthorizationServiceTest.php:185-199 | the registry's answer for the key, with identifiers resolved through the service's plugin manager |
| AuthorizationScenarios.TestGraph | tests/ZfcRbacTest/Service/AuthorizationServiceTest.php:91-99 | the container the decision tests build, holding exactly admin, member and guest: admin > member > guest with guest:read, member:write, admin:delete |
| AuthorizationScenarios.TestHierarchy | tests/ZfcRbacTest/Service/AuthorizationServiceTest.php:93-95 | the container after the three `addRole` calls holds admin, member and guest |
| AuthorizationScenarios.BuildTestHierarchy | tests/ZfcRbacTest/Service/AuthorizationServiceTest.php:91-95 | the three `addRole` calls succeed and build admin > member > guest |
| AuthorizationScenarios.BuildTestContainer | tests/ZfcRbacTest/Service/AuthorizationServiceTest.php:91-99 | the container steps build exactly the tests' hierarchy with guest:read, member:write, admin:delete |
| AuthorizationScenarios.GrantedTable | tests/ZfcRbacTest/Service/AuthorizationServiceTest.php:32-83 | the six rows: guest/read granted, member/read granted, guest/write refused, guest/delete refused, member/read with a false assertion refused, no role refused |
| AuthorizationScenarios.TestGranted | tests/ZfcRbacTest/Service/AuthorizationServiceTest.php:88-111 | on the tests' container, the identity is asked once and the service answers the decision of the table |
| AuthorizationScenarios.TestDoesNotLoadIfNoIdentityIsFound | tests/ZfcRbacTest/Service/AuthorizationServiceTest.php:117-137 | an identity without roles is refused, asked once, and no load event is triggered |
| AuthorizationScenarios.TestLoadRolesAndPermissions | tests/ZfcRbacTest/Service/AuthorizationServiceTest.php:139-165 | two calls ask the identity twice and trigger the two load events once; the unknown role is refused without error |
| AuthorizationScenarios.TestCanRegisterAssertions | tests/ZfcRbacTest/Service/AuthorizationServiceTest.php:167-200 | the key is absent at first; an identifier is fetched as the plugin manager's instance; a later instance and then a callable replace it |
| AuthorizationScenarios.TestIdentityNotCached | tests/ZfcRbacTest/Service/AuthorizationServiceTest.php:144-164 | an illustration of the no-caching property, not a replay of that test (which only expects two requests over two calls): the identity is asked on each call, and once guest's roles are removed between calls the same question is refused |
| AuthorizationScenarios.TestPermissionPropertyRole | tests/Asset/MockRoleWithPermissionProperty.php:9-18 | through the service, an identity holding the constant role is refused a name from the role's own list; guest keeps its own grant |

## Left out

- Doctrine ORM mapping, the generated `id` and `getId` of the role node (tests/Asset/Role.php:27-83, 100-103): persistence is foreign to the decision.
- Doctrine `ArrayCollection`: it becomes a `map` for permissions and a `seq` for children.
- The event manager and its listeners: a load is recorded as the two events `LoadRoles` and `LoadPermissions`, in that order. The test accepts either event. Listeners that would fill the container are not modelled, so the container is unchanged by a load.
- PHPUnit mocks: the identity provider is a small class that hands out a fixed role list and counts requests.
- AuthorizationService.IsGranted: it uses only the assertion passed to the call. It does not consult the registry, because the service source is not part of this model and the tests never show the registry used by `isGranted`.
- A single role given as a string rather than a list (tests/ZfcRbacTest/Service/AuthorizationServiceTest.php:37): identity roles are always a sequence, so `'guest'` is `["guest"]`.
- AssetRole.Role.AddChild: it takes a `Role`, where the source accepts any role implementation. This changes no behaviour, because the children are never consulted.
- `addRole` with several parents: the tests name one parent at most.
- Assertion plugin manager instantiation and PHP `callable` and `instanceof` checks: the plugin manager is a finite map from identifier to predicate, and an assertion is a total function of the container. Not-callable errors cannot arise, and `assertSame` identity becomes equality of the stored value.
- The invokable assertion asset class is not part of this model. Its instance is a parameter of the registration replay.
- src/Factory/RoutePermissionsGuardFactory.php, src/Service/AuthorizationServiceDelegatorFactory.php and the factory tests: they are container wiring with no decision logic.
