/**
 * `requireRole(role)`: a gate built for one role. It reads the user from the request BODY
 * (`req.body.user`), so the client itself supplies the object it is judged on.
 */
module RoleMiddleware {
  import opened Common
  import AdminAuth

  const DenegadoPrefix: string := "Acceso denegado: requiere rol "

  /** The gate `requireRole(role)`, applied to `req.body.user`. */
  function RequireRole(role: string, bodyUser: Option<Principal>): (outcome: Outcome)
    ensures outcome.Next? <==> bodyUser.Some? && bodyUser.value.rol == Some(role)
    ensures outcome.Reply? ==> outcome.status == 403
    ensures outcome.Reply? ==>
              |outcome.message| == |DenegadoPrefix| + |role|
              && outcome.message[..|DenegadoPrefix|] == DenegadoPrefix
              && outcome.message[|DenegadoPrefix|..] == role
  {
    if bodyUser.None? || bodyUser.value.rol != Some(role) then Reply(403, DenegadoPrefix + role)
    else Next
  }

  /** A body that declares its own role passes the gate for that role, whoever sent it. */
  lemma SelfDeclaredRolePasses(role: string)
    ensures RequireRole(role, Some(Principal(Some(role)))) == Next
  {
  }

  /** `requireRole("admin")` lets through exactly what `adminAuth` lets through, judged on a different object. */
  lemma AdminRoleAgreesWithAdminAuth(user: Option<Principal>)
    ensures RequireRole("admin", user).Next? <==> AdminAuth.AdminAuth(user).Next?
  {
  }

  /** Two gates for different roles never both let the same user through. */
  lemma DistinctRolesExclusive(r1: string, r2: string, user: Option<Principal>)
    requires r1 != r2
    ensures !(RequireRole(r1, user).Next? && RequireRole(r2, user).Next?)
  {
  }
}
