/**
 * `adminAuth`: a gate that reads `req.user` (set by some earlier authentication step) and lets
 * only an admin through. It answers 403 both when there is no user and when the user is not an
 * admin.
 */
module AdminAuth {
  import opened Common
  import AuthMiddleware

  const AccesoRestringido: string := "Acceso restringido a administradores"

  /** `adminAuth`, given `req.user`. */
  function AdminAuth(user: Option<Principal>): (outcome: Outcome)
    ensures outcome.Next? <==> user.Some? && user.value.rol == Some("admin")
    ensures outcome.Reply? ==> outcome == Reply(403, AccesoRestringido)
  {
    if user.None? || user.value.rol != Some("admin") then Reply(403, AccesoRestringido)
    else Next
  }

  /**
   * For a present user the two admin gates decide alike; for a missing user `soloAdmin` answers
   * 401 and this gate 403.
   */
  lemma AgreesWithSoloAdmin(id: int, rol: string)
    ensures AdminAuth(Some(Principal(Some(rol)))).Next?
            <==> AuthMiddleware.SoloAdmin(Some(AuthMiddleware.AuthUser(id, rol))).Next?
    ensures AdminAuth(None).status == 403
    ensures AuthMiddleware.SoloAdmin(None).status == 401
  {
  }

  /** A user object without a role is turned away. */
  lemma MissingRolRejected()
    ensures AdminAuth(Some(Principal(None))) == Reply(403, AccesoRestringido)
  {
  }
}
