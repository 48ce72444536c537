/**
 * The assertion registry of the authorization service: a map from a key
 * (a permission name) to either the identifier of an assertion that a
 * plugin manager creates on request or a ready callable.  Registering
 * under a key replaces whatever was there.
 */
module Assertions {
  import opened Results
  import opened RoleGraph

  /** A dynamic check that receives the container and can veto a grant. */
  type Assertion = Graph -> bool

  datatype AssertionEntry =
    | ByName(identifier: string)
    | Ready(assertion: Assertion)

  datatype AssertionError =
    | NotRegistered(key: string)
    | NotResolvable(identifier: string)

  type Registry = map<string, AssertionEntry>

  /** What the plugin manager can create, by identifier. */
  type PluginManager = map<string, Assertion>

  function Register(m: Registry, key: string, e: AssertionEntry): (r: Registry)
    ensures r.Keys == m.Keys + {key}
    ensures key in r && r[key] == e
    ensures forall k :: k in m && k != key ==> r[k] == m[k]
  {
    m[key := e]
  }

  /** `hasAssertion`: a key is present exactly when some registration named it. */
  predicate Has(m: Registry, key: string)
    ensures Has(m, key) <==> key in m.Keys
  {
    key in m
  }

  /**
   * The assertion stored under `key`: a ready callable as it is, an
   * identifier through the plugin manager, which fails for an identifier
   * it does not know.
   */
  function Get(m: Registry, pm: PluginManager, key: string): (r: Result<Assertion, AssertionError>)
    ensures key !in m ==> r == Err(NotRegistered(key))
    ensures key in m && m[key].Ready? ==> r == Ok(m[key].assertion)
    ensures key in m && m[key].ByName? ==>
              r == (if m[key].identifier in pm then Ok(pm[m[key].identifier]) else Err(NotResolvable(m[key].identifier)))
    ensures r.Ok? ==> Has(m, key)
  {
    if key !in m then Err(NotRegistered(key))
    else match m[key]
      case Ready(a) => Ok(a)
      case ByName(id) => if id in pm then Ok(pm[id]) else Err(NotResolvable(id))
  }

  /** Nothing is registered in an empty registry. */
  lemma NothingBeforeRegistration(pm: PluginManager, key: string)
    ensures !Has(map[], key)
    ensures Get(map[], pm, key) == Err(NotRegistered(key))
  {
  }

  /** Once registered, a key is present. */
  lemma HasAfterRegister(m: Registry, key: string, e: AssertionEntry)
    ensures Has(Register(m, key, e), key)
  {
  }

  /** A ready callable comes back as registered. */
  lemma GetAfterRegisterReady(m: Registry, pm: PluginManager, key: string, a: Assertion)
    ensures Get(Register(m, key, Ready(a)), pm, key) == Ok(a)
  {
  }

  /** An identifier is resolved through the plugin manager when fetched. */
  lemma GetAfterRegisterByName(m: Registry, pm: PluginManager, key: string, id: string)
    requires id in pm
    ensures Get(Register(m, key, ByName(id)), pm, key) == Ok(pm[id])
  {
  }

  /** An identifier the plugin manager does not know fails when fetched, not when registered. */
  lemma UnknownIdentifierFailsOnGet(m: Registry, pm: PluginManager, key: string, id: string)
    requires id !in pm
    ensures Has(Register(m, key, ByName(id)), key)
    ensures Get(Register(m, key, ByName(id)), pm, key) == Err(NotResolvable(id))
  {
  }

  /** The later registration under a key wins. */
  lemma RegisterOverwrites(m: Registry, pm: PluginManager, key: string, e1: AssertionEntry, e2: AssertionEntry)
    ensures Register(Register(m, key, e1), key, e2) == Register(m, key, e2)
    ensures Get(Register(Register(m, key, e1), key, e2), pm, key) == Get(Register(m, key, e2), pm, key)
  {
  }

  /** Registering under one key leaves every other key as it was. */
  lemma RegisterLeavesOtherKeys(m: Registry, pm: PluginManager, key: string, other: string, e: AssertionEntry)
    requires other != key
    ensures Has(Register(m, key, e), other) == Has(m, other)
    ensures Get(Register(m, key, e), pm, other) == Get(m, pm, other)
  {
  }
}
