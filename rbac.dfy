/**
 * The role and permission gates put in front of routes. Each gate looks only at the caller the
 * authentication layer attached (if any) and the ROLE_PERMISSIONS table; a refusal is always
 * Unauthorized (answered 403).
 */
module Rbac {
  import opened Common
  import opened Errors
  import opened Constants

  /** The authenticated caller attached to a request. */
  datatype Caller = Caller(userId: UserId, role: string)

  /** requireRole(...allowed): a caller whose role is one of `allowed` proceeds. */
  function RequireRole(caller: Option<Caller>, allowed: seq<string>): (r: Result<Caller>)
    ensures caller.None? ==> r == Err(Unauthorized)
    ensures r.Ok? <==> caller.Some? && caller.value.role in allowed
    ensures r.Ok? ==> r.value == caller.value
    ensures r.Err? ==> r.error == Unauthorized
  {
    if caller.None? then Err(Unauthorized)
    else if caller.value.role !in allowed then Err(Unauthorized)
    else Ok(caller.value)
  }

  /** `required.some(p => held.includes(p))`, walked from the front. */
  function SomeHeld(held: seq<string>, required: seq<string>): (b: bool)
    ensures b <==> exists p :: p in required && p in held
  {
    if required == [] then false
    else if required[0] in held then true
    else SomeHeld(held, required[1..])
  }

  /** `required.every(p => held.includes(p))`, walked from the front. */
  function EveryHeld(held: seq<string>, required: seq<string>): (b: bool)
    ensures b <==> forall p :: p in required ==> p in held
  {
    if required == [] then true
    else if required[0] !in held then false
    else EveryHeld(held, required[1..])
  }

  /** requirePermission(...required): the caller's role holds at least one of the permissions. */
  function RequirePermission(caller: Option<Caller>, required: seq<string>): (r: Result<Caller>)
    ensures caller.None? ==> r == Err(Unauthorized)
    ensures r.Ok? <==> caller.Some? && exists p :: p in required && p in PermissionsOf(caller.value.role)
    ensures r.Ok? ==> r.value == caller.value
    ensures r.Err? ==> r.error == Unauthorized
  {
    if caller.None? then Err(Unauthorized)
    else if !SomeHeld(PermissionsOf(caller.value.role), required) then Err(Unauthorized)
    else Ok(caller.value)
  }

  /** requireAllPermissions(...required): the caller's role holds every one of the permissions. */
  function RequireAllPermissions(caller: Option<Caller>, required: seq<string>): (r: Result<Caller>)
    ensures caller.None? ==> r == Err(Unauthorized)
    ensures r.Ok? <==> caller.Some? && forall p :: p in required ==> p in PermissionsOf(caller.value.role)
    ensures r.Ok? ==> r.value == caller.value
    ensures r.Err? ==> r.error == Unauthorized
  {
    if caller.None? then Err(Unauthorized)
    else if !EveryHeld(PermissionsOf(caller.value.role), required) then Err(Unauthorized)
    else Ok(caller.value)
  }

  /**
   * The two permission gates on the edge cases: an empty requirement list is refused by
   * requirePermission and passed by requireAllPermissions; a role the table does not know
   * passes neither on a non-empty list.
   */
  lemma {:induction false} PermissionGateEdges(caller: Caller, required: seq<string>)
    ensures RequirePermission(Some(caller), []).Err?
    ensures RequireAllPermissions(Some(caller), []).Ok?
    ensures caller.role !in ROLE_PERMISSIONS && required != [] ==>
              RequirePermission(Some(caller), required).Err? && RequireAllPermissions(Some(caller), required).Err?
  {
    if caller.role !in ROLE_PERMISSIONS && required != [] {
      assert required[0] in required;
    }
  }

  /** On a non-empty list, passing requireAllPermissions implies passing requirePermission. */
  lemma {:induction false} AllPermissionsImplySome(caller: Option<Caller>, required: seq<string>)
    requires required != []
    ensures RequireAllPermissions(caller, required).Ok? ==> RequirePermission(caller, required).Ok?
  {
    assert required[0] in required;
  }

  /** The admin passes every permission gate that asks only for permissions of the table. */
  lemma {:induction false} AdminHoldsEveryPermission(userId: UserId, required: seq<string>)
    requires forall p :: p in required ==> p in PERMISSIONS
    ensures RequireAllPermissions(Some(Caller(userId, ADMIN)), required).Ok?
    ensures required != [] ==> RequirePermission(Some(Caller(userId, ADMIN)), required).Ok?
  {
    forall p | p in required
      ensures p in PermissionsOf(ADMIN)
    {
      RolePermissionTable(p);
    }
    if required != [] {
      assert required[0] in required;
    }
  }

  /**
   * requireOwnerOrAdmin(getResourceOwner): an admin proceeds without the owner being looked up;
   * anyone else proceeds exactly when `ownerId` (what the lookup returned) is their own id.
   */
  function RequireOwnerOrAdmin(caller: Option<Caller>, ownerId: UserId): (r: Result<Caller>)
    ensures caller.None? ==> r == Err(Unauthorized)
    ensures caller.Some? && caller.value.role == ADMIN ==> r == Ok(caller.value)
    ensures caller.Some? && caller.value.role != ADMIN ==> (r.Ok? <==> ownerId == caller.value.userId)
    ensures r.Err? ==> r.error == Unauthorized
  {
    if caller.None? then Err(Unauthorized)
    else if caller.value.role == ADMIN then Ok(caller.value)
    else if ownerId != caller.value.userId then Err(Unauthorized)
    else Ok(caller.value)
  }
}
