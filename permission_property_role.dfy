/**
 * The role used by the tests to check that a role carrying a private list
 * of permission names is still asked through `hasPermission` only.  Both of
 * its methods return constants and it has no state that any call changes.
 */
module PermissionPropertyRole {

  /** The private list the role holds; nothing ever reads it. */
  const PropertyPermissions: seq<string> := ["permission-property-a", "permission-property-b"]

  /** The fixed name of the role. */
  function GetName(): (r: string)
    ensures r == "role-with-permission-property"
    ensures |r| > 0
  {
    "role-with-permission-property"
  }

  /** The role never grants anything. */
  predicate HasPermission(permission: string)
    ensures !HasPermission(permission)
  {
    false
  }

  /** Not even the names in its own private list are granted. */
  lemma OwnListNotGranted()
    ensures |PropertyPermissions| == 2
    ensures forall i :: 0 <= i < |PropertyPermissions| ==> !HasPermission(PropertyPermissions[i])
  {
  }
}
