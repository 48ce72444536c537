/**
 * The authorization service: it asks the identity provider for the
 * caller's roles on every call, loads roles and permissions once per
 * service lifetime (and never for an identity without roles), decides
 * against the container's role hierarchy, lets a per-call assertion veto
 * a grant, and keeps a registry of assertions.
 */
module Authorization {
  import opened Results
  import opened RoleGraph
  import opened Assertions
  import RbacContainer

  /** The two events the service triggers to have roles and permissions loaded. */
  datatype LoadEvent = LoadRoles | LoadPermissions

  /** The loaded latch and the events triggered so far. */
  datatype LoadState = LoadState(loaded: bool, events: seq<LoadEvent>)

  const Unloaded: LoadState := LoadState(false, [])

  const LoadEvents: seq<LoadEvent> := [LoadRoles, LoadPermissions]

  /**
   * The load step of one `isGranted` call whose identity has `roles`: the
   * first call with a role triggers both load events and closes the latch.
   */
  function AfterIsGranted(s: LoadState, roles: seq<string>): (t: LoadState)
    ensures t.loaded == (s.loaded || |roles| > 0)
    ensures t.events == s.events || (!s.loaded && t.events == s.events + LoadEvents)
    ensures !s.loaded && |roles| > 0 ==> t.events == s.events + LoadEvents
  {
    if |roles| == 0 || s.loaded then s else LoadState(true, s.events + LoadEvents)
  }

  /** The load state after a series of calls, given each call's identity roles. */
  function Run(s: LoadState, calls: seq<seq<string>>): (r: LoadState)
    ensures s.loaded ==> r == s
    ensures |s.events| <= |r.events| && r.events[..|s.events|] == s.events
    decreases |calls|
  {
    if calls == [] then s else Run(AfterIsGranted(s, calls[0]), calls[1..])
  }

  predicate SomeCallHasRoles(calls: seq<seq<string>>)
  {
    exists i :: 0 <= i < |calls| && |calls[i]| > 0
  }

  /** An identity without roles never triggers the load. */
  lemma EmptyIdentityDoesNotLoad(s: LoadState)
    ensures AfterIsGranted(s, []) == s
  {
  }

  /** After one call with a role, no later call loads anything. */
  lemma SecondCallDoesNotLoad(s: LoadState, first: seq<string>, second: seq<string>)
    requires |first| > 0
    ensures AfterIsGranted(AfterIsGranted(s, first), second) == AfterIsGranted(s, first)
  {
  }

  /** Over any series of calls the load happens at most once, and exactly once if some call has a role. */
  lemma {:induction false} RunLoadsOnce(s: LoadState, calls: seq<seq<string>>)
    ensures Run(s, calls) ==
              if s.loaded || !SomeCallHasRoles(calls) then s
              else LoadState(true, s.events + LoadEvents)
    decreases |calls|
  {
    if calls != [] {
      var s' := AfterIsGranted(s, calls[0]);
      RunLoadsOnce(s', calls[1..]);
      if |calls[0]| == 0 {
        assert SomeCallHasRoles(calls) <==> SomeCallHasRoles(calls[1..]) by {
          if SomeCallHasRoles(calls) {
            var i :| 0 <= i < |calls| && |calls[i]| > 0;
            assert calls[1..][i - 1] == calls[i];
          }
          if SomeCallHasRoles(calls[1..]) {
            var i :| 0 <= i < |calls[1..]| && |calls[1..][i]| > 0;
            assert calls[i + 1] == calls[1..][i];
          }
        }
      } else {
        assert SomeCallHasRoles(calls) by { assert |calls[0]| > 0; }
      }
    }
  }

  /** From a fresh service, the load events are both triggered once or not at all. */
  lemma FreshServiceLoadsAtMostOnce(calls: seq<seq<string>>)
    ensures Run(Unloaded, calls).events == if SomeCallHasRoles(calls) then LoadEvents else []
    ensures Run(Unloaded, calls).loaded == SomeCallHasRoles(calls)
  {
    RunLoadsOnce(Unloaded, calls);
  }

  predicate AssertionPasses(a: Option<Assertion>, g: Graph)
  {
    a.None? || a.value(g)
  }

  /**
   * The decision: some identity role is granted the permission in the
   * container, and the per-call assertion, if any, agrees.  A role name
   * the container does not hold grants nothing.
   */
  predicate Decide(g: Graph, roles: seq<string>, p: string, a: Option<Assertion>)
    ensures Decide(g, roles, p, a) ==> |roles| > 0 && AssertionPasses(a, g)
  {
    (exists i :: 0 <= i < |roles| && RoleGrants(g, roles[i], p)) && AssertionPasses(a, g)
  }

  /** An identity without roles is refused every permission. */
  lemma EmptyIdentityRefused(g: Graph, p: string, a: Option<Assertion>)
    ensures !Decide(g, [], p, a)
  {
  }

  /** An assertion that returns false turns any grant into a refusal. */
  lemma AssertionVetoes(g: Graph, roles: seq<string>, p: string, f: Assertion)
    requires !f(g)
    ensures !Decide(g, roles, p, Some(f))
  {
  }

  /** An assertion that returns true leaves the structural decision as it is. */
  lemma PassingAssertionKeepsDecision(g: Graph, roles: seq<string>, p: string, f: Assertion)
    requires f(g)
    ensures Decide(g, roles, p, Some(f)) == Decide(g, roles, p, None)
  {
  }

  /**
   * On an acyclic container the decision is: some identity role has a
   * descendant (itself included) that holds the permission, and the
   * assertion passes.
   */
  lemma DecideIffInherits(g: Graph, order: map<string, nat>, roles: seq<string>, p: string, a: Option<Assertion>)
    requires Ordered(g, order)
    ensures Decide(g, roles, p, a) <==>
              (exists i :: 0 <= i < |roles| && Inherits(g, roles[i], p)) && AssertionPasses(a, g)
  {
    forall i | 0 <= i < |roles|
      ensures RoleGrants(g, roles[i], p) <==> Inherits(g, roles[i], p)
    {
      RoleGrantsIffInherits(g, order, roles[i], p);
    }
  }

  /** An identity holding only constant roles or unknown names is refused everything. */
  lemma PermissionPropertyRolesRefused(g: Graph, roles: seq<string>, p: string, a: Option<Assertion>)
    requires forall i :: 0 <= i < |roles| ==> roles[i] !in g || g[roles[i]].PermissionProperty?
    ensures !Decide(g, roles, p, a)
  {
    forall i | 0 <= i < |roles|
      ensures !RoleGrants(g, roles[i], p)
    {
      if roles[i] in g {
        PermissionPropertyNeverGrants(g, roles[i], p);
      }
    }
  }

  /** Supplies the identity's roles; counts how often it is asked. */
  class IdentityProvider {
    var roles: seq<string>
    var calls: nat

    constructor (roles: seq<string>)
      ensures this.roles == roles && calls == 0
    {
      this.roles := roles;
      calls := 0;
    }

    method GetIdentityRoles() returns (r: seq<string>)
      modifies this
      ensures r == roles && roles == old(roles)
      ensures calls == old(calls) + 1
    {
      r := roles;
      calls := calls + 1;
    }
  }

  class AuthorizationService {
    const rbac: RbacContainer.Rbac
    const identityProvider: IdentityProvider
    const pluginManager: PluginManager
    var assertions: Registry
    var loaded: bool
    var events: seq<LoadEvent>

    ghost function LoadStatus(): LoadState
      reads this
    {
      LoadState(loaded, events)
    }

    constructor (rbac: RbacContainer.Rbac, identityProvider: IdentityProvider, pluginManager: PluginManager)
      ensures this.rbac == rbac && this.identityProvider == identityProvider
      ensures this.pluginManager == pluginManager
      ensures assertions == map[] && LoadStatus() == Unloaded
    {
      this.rbac := rbac;
      this.identityProvider := identityProvider;
      this.pluginManager := pluginManager;
      assertions := map[];
      loaded := false;
      events := [];
    }

    /**
     * Asks the identity provider once, refuses at once for an identity
     * without roles, otherwise loads on the first such call and decides.
     */
    method IsGranted(permission: string, assertion: Option<Assertion>) returns (granted: bool)
      modifies this, identityProvider
      ensures identityProvider.roles == old(identityProvider.roles)
      ensures identityProvider.calls == old(identityProvider.calls) + 1
      ensures LoadStatus() == AfterIsGranted(old(LoadStatus()), old(identityProvider.roles))
      ensures assertions == old(assertions)
      ensures granted == Decide(rbac.roles, old(identityProvider.roles), permission, assertion)
    {
      var roles := identityProvider.GetIdentityRoles();
      if |roles| == 0 {
        return false;
      }
      if !loaded {
        events := events + [LoadRoles, LoadPermissions];
        loaded := true;
      }
      var g := rbac.roles;
      granted := false;
      var i := 0;
      while i < |roles| && !granted
        invariant 0 <= i <= |roles|
        invariant granted <==> exists j :: 0 <= j < i && RoleGrants(g, roles[j], permission) && AssertionPasses(assertion, g)
      {
        if RoleGrants(g, roles[i], permission) && AssertionPasses(assertion, g) {
          granted := true;
        }
        i := i + 1;
      }
    }

    method RegisterAssertion(key: string, entry: AssertionEntry)
      modifies this
      ensures assertions == Register(old(assertions), key, entry)
      ensures LoadStatus() == old(LoadStatus())
    {
      assertions := assertions[key := entry];
    }

    predicate HasAssertion(key: string)
      reads this
      ensures HasAssertion(key) <==> Has(assertions, key)
    {
      key in assertions
    }

    function GetAssertion(key: string): (r: Result<Assertion, AssertionError>)
      reads this
      ensures r == Get(assertions, pluginManager, key)
    {
      Get(assertions, pluginManager, key)
    }
  }
}
