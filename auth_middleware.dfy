/**
 * The session middleware: `protegerRuta` finds the token (an `Authorization: Bearer` header or
 * the `token` cookie), checks it and loads the user from the store into `req.usuario`;
 * `soloAdmin` lets through only a loaded user whose role is "admin".
 *
 * Token checking is the parameter `verify`: it gives the token's payload, or `None` when the
 * signature is wrong or the token has expired (where the library throws).
 */
module AuthMiddleware {
  import opened Common
  import opened Store
  import opened Text

  /** What a valid token carries. */
  datatype Payload = Payload(id: int, rol: string)

  /** `req.usuario`: the authenticated user as the rest of the request sees it. */
  datatype AuthUser = AuthUser(id: int, rol: string)

  const BearerPrefix: string := "Bearer "

  /** The request, with the two places a token can come from and the field the middleware sets. */
  class Request {
    /** The `Authorization` header, if sent. */
    const authorization: Option<string>
    /** `req.cookies?.token`. */
    const cookieToken: Option<string>
    var usuario: Option<AuthUser>

    constructor (authorization: Option<string>, cookieToken: Option<string>)
      ensures this.authorization == authorization && this.cookieToken == cookieToken
      ensures usuario == None
    {
      this.authorization := authorization;
      this.cookieToken := cookieToken;
      usuario := None;
    }
  }

  /**
   * `authHeader.split(" ")[1]` for a header that starts with "Bearer ", otherwise null: the
   * text after "Bearer " up to the next space.
   */
  function HeaderToken(authorization: Option<string>): (t: Option<string>)
    ensures t.Some? <==> Truthy(authorization) && StartsWith(authorization.value, BearerPrefix)
    ensures t.Some? ==> t.value == Split(authorization.value[|BearerPrefix|..], ' ')[0]
  {
    if Truthy(authorization) && StartsWith(authorization.value, BearerPrefix) then
      var h := authorization.value;
      BearerSplit(h);
      Some(Split(h, ' ')[1])
    else None
  }

  /** The header splits into "Bearer" and then the pieces of what follows it. */
  lemma BearerSplit(h: string)
    requires StartsWith(h, BearerPrefix)
    ensures |Split(h, ' ')| >= 2
    ensures Split(h, ' ')[1] == Split(h[|BearerPrefix|..], ' ')[0]
  {
    assert "Bearer" + [' '] == BearerPrefix;
    assert ' ' !in "Bearer" by {
      var b := "Bearer";
      assert b[0] != ' ' && b[1] != ' ' && b[2] != ' ' && b[3] != ' ' && b[4] != ' ' && b[5] != ' ';
    }
    SplitAfterPrefix(h, "Bearer", ' ');
  }

  /** `tokenHeader || tokenCookie`: a non-empty header token wins; otherwise the cookie. */
  function SelectToken(authorization: Option<string>, cookie: Option<string>): (t: Option<string>)
    ensures Truthy(HeaderToken(authorization)) ==> t == HeaderToken(authorization)
    ensures !Truthy(HeaderToken(authorization)) ==> t == cookie
  {
    var header := HeaderToken(authorization);
    if Truthy(header) then header else cookie
  }

  /** What `protegerRuta` decides. */
  datatype AuthResult = Granted(user: AuthUser) | Denied(status: int, message: string)

  const NoAutenticado: string := "No autenticado."
  const TokenInvalido: string := "Token inválido o caducado."
  const UsuarioNoEncontrado: string := "Usuario no encontrado."

  /**
   * The decision of `protegerRuta`: no token gives 401 "No autenticado."; a token that does not
   * verify gives 401 "Token inválido o caducado."; a token whose user id is not in the store gives
   * 401 "Usuario no encontrado."; otherwise the user is granted with the id and role the store
   * holds.
   */
  function Authenticate(authorization: Option<string>, cookie: Option<string>,
                        verify: string -> Option<Payload>, usuarios: seq<Usuario>): (r: AuthResult)
    ensures r.Denied? ==> r.status == 401
    ensures r.Denied? && r.message == NoAutenticado <==> !Truthy(SelectToken(authorization, cookie))
    ensures r.Denied? && r.message == TokenInvalido <==>
              Truthy(SelectToken(authorization, cookie)) && verify(SelectToken(authorization, cookie).value).None?
    ensures r.Denied? && r.message == UsuarioNoEncontrado <==>
              && Truthy(SelectToken(authorization, cookie))
              && verify(SelectToken(authorization, cookie).value).Some?
              && FindUsuarioById(usuarios, verify(SelectToken(authorization, cookie).value).value.id).None?
    ensures r.Granted? <==>
              && Truthy(SelectToken(authorization, cookie))
              && verify(SelectToken(authorization, cookie).value).Some?
              && exists u :: u in usuarios && u.id == verify(SelectToken(authorization, cookie).value).value.id
    ensures r.Granted? ==>
              exists u :: u in usuarios && r.user == AuthUser(u.id, u.rol)
                          && u.id == verify(SelectToken(authorization, cookie).value).value.id
  {
    var token := SelectToken(authorization, cookie);
    if !Truthy(token) then Denied(401, NoAutenticado)
    else
      match verify(token.value)
      case None => Denied(401, TokenInvalido)
      case Some(decoded) =>
        match FindUsuarioById(usuarios, decoded.id)
        case None => Denied(401, UsuarioNoEncontrado)
        case Some(usuario) => Granted(AuthUser(usuario.id, usuario.rol))
  }

  /**
   * `protegerRuta`: on success it sets `req.usuario` and calls `next`; otherwise it replies 401
   * and leaves the request alone.
   */
  method ProtegerRuta(req: Request, db: Database, verify: string -> Option<Payload>) returns (outcome: Outcome)
    modifies req`usuario
    ensures var r := Authenticate(req.authorization, req.cookieToken, verify, db.usuarios);
            && (outcome.Next? <==> r.Granted?)
            && (r.Granted? ==> req.usuario == Some(r.user))
            && (r.Denied? ==> outcome == Reply(r.status, r.message) && req.usuario == old(req.usuario))
  {
    var authHeader := req.authorization;
    var tokenHeader: Option<string> := None;
    if Truthy(authHeader) && StartsWith(authHeader.value, BearerPrefix) {
      BearerSplit(authHeader.value);
      tokenHeader := Some(Split(authHeader.value, ' ')[1]);
    }
    var tokenCookie := req.cookieToken;
    var token := if Truthy(tokenHeader) then tokenHeader else tokenCookie;
    if !Truthy(token) {
      return Reply(401, NoAutenticado);
    }
    var decoded := verify(token.value);
    if decoded.None? {
      return Reply(401, TokenInvalido);
    }
    var usuario := FindUsuarioById(db.usuarios, decoded.value.id);
    if usuario.None? {
      return Reply(401, UsuarioNoEncontrado);
    }
    req.usuario := Some(AuthUser(usuario.value.id, usuario.value.rol));
    outcome := Next;
  }

  /** A request that sends "Bearer <t>", with `t` non-empty and without spaces, is checked with `t`. */
  lemma BearerTokenRoundTrip(t: string, cookie: Option<string>)
    requires t != [] && ' ' !in t
    ensures HeaderToken(Some(BearerPrefix + t)) == Some(t)
    ensures SelectToken(Some(BearerPrefix + t), cookie) == Some(t)
  {
    var h := BearerPrefix + t;
    assert h[..|BearerPrefix|] == BearerPrefix;
    assert h[|BearerPrefix|..] == t;
    SplitWithoutSeparator(t, ' ');
  }

  /**
   * A header of exactly "Bearer " yields an empty header token, so the cookie is used instead.
   */
  lemma EmptyHeaderTokenFallsThrough(cookie: Option<string>)
    ensures HeaderToken(Some(BearerPrefix)) == Some("")
    ensures SelectToken(Some(BearerPrefix), cookie) == cookie
  {
    assert BearerPrefix[|BearerPrefix|..] == "";
  }

  /** A header that does not start with "Bearer " (for instance a lower-case "bearer ") is ignored. */
  lemma OtherSchemesIgnored(authorization: string, cookie: Option<string>)
    requires !StartsWith(authorization, BearerPrefix)
    ensures SelectToken(Some(authorization), cookie) == cookie
  {
  }

  /**
   * With distinct ids, a granted user is the stored user the token names, with the stored role,
   * whatever role the token claims.
   */
  lemma GrantedUsesStoredRole(authorization: Option<string>, cookie: Option<string>,
                              verify: string -> Option<Payload>, usuarios: seq<Usuario>, u: Usuario,
                              claimed: string)
    requires UniqueUsuarioIds(usuarios)
    requires u in usuarios
    requires Truthy(SelectToken(authorization, cookie))
    requires verify(SelectToken(authorization, cookie).value) == Some(Payload(u.id, claimed))
    ensures Authenticate(authorization, cookie, verify, usuarios) == Granted(AuthUser(u.id, u.rol))
  {
    FindByIdUnique(usuarios, u);
  }

  const AccesoRestringido: string := "Acceso restringido a administradores."

  /** `soloAdmin`: 401 without a user, 403 for a user who is not an admin, `next` otherwise. */
  function SoloAdmin(usuario: Option<AuthUser>): (outcome: Outcome)
    ensures outcome.Next? <==> usuario.Some? && usuario.value.rol == "admin"
    ensures usuario.None? ==> outcome == Reply(401, NoAutenticado)
    ensures usuario.Some? && usuario.value.rol != "admin" ==> outcome == Reply(403, AccesoRestringido)
  {
    if usuario.None? then Reply(401, NoAutenticado)
    else if usuario.value.rol != "admin" then Reply(403, AccesoRestringido)
    else Next
  }

  /**
   * Behind `protegerRuta`, `soloAdmin` never sees a missing user, so it answers 403 or lets the
   * request through, and it lets it through exactly when the store says the user is an admin.
   */
  lemma ProtectedAdminGate(authorization: Option<string>, cookie: Option<string>,
                           verify: string -> Option<Payload>, usuarios: seq<Usuario>)
    requires UniqueUsuarioIds(usuarios)
    requires Authenticate(authorization, cookie, verify, usuarios).Granted?
    ensures var user := Authenticate(authorization, cookie, verify, usuarios).user;
            && SoloAdmin(Some(user)) != Reply(401, NoAutenticado)
            && (SoloAdmin(Some(user)).Next? <==>
                  exists u :: u in usuarios && u.id == user.id && u.rol == "admin")
  {
    var user := Authenticate(authorization, cookie, verify, usuarios).user;
    var u :| u in usuarios && user == AuthUser(u.id, u.rol)
             && u.id == verify(SelectToken(authorization, cookie).value).value.id;
    if v :| v in usuarios && v.id == user.id && v.rol == "admin" {
      IdsIdentify(usuarios, u, v);
    }
  }
}
