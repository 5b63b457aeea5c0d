/**
 * The authentication controller: `register` and `login`, each a short sequence of guards over the
 * user table, ending in a session cookie that holds a signed token.
 *
 * The password hash (`hash`), the hash check (`compare`) and token signing (`sign`) are
 * parameters: their cryptography is not part of this model.
 */
module AuthController {
  import opened Common
  import opened Store
  import AuthMiddleware

  /** The body of `POST /auth/register`; a missing field is `None`. */
  datatype RegisterBody = RegisterBody(nombre: Option<string>, email: Option<string>,
                                       password: Option<string>, rol: Option<string>)

  /** The body of `POST /auth/login`. */
  datatype LoginBody = LoginBody(email: Option<string>, password: Option<string>)

  /** The user as the answers show it: id, name, e-mail and role, and no password field. */
  datatype UsuarioPublico = UsuarioPublico(id: int, nombre: string, email: string, rol: string)

  /** The `Set-Cookie` the handlers send. */
  datatype Cookie = Cookie(name: string, value: string, httpOnly: bool, secure: bool,
                           sameSite: string, maxAge: int)

  datatype AuthRespuesta =
    | Rechazo(status: int, message: string)
    | Sesion(status: int, message: string, usuario: UsuarioPublico, cookie: Cookie)

  /** Seven days, in milliseconds. */
  const CookieMaxAge: int := 7 * 24 * 60 * 60 * 1000
  const RolPorDefecto: string := "usuario"

  const FaltanDatos: string := "Faltan datos obligatorios."
  const YaExiste: string := "El usuario ya existe."
  const Registrado: string := "Usuario registrado con éxito"
  const FaltanCredenciales: string := "Faltan credenciales."
  const NoEncontrado: string := "Usuario no encontrado."
  const ContrasenaIncorrecta: string := "Contraseña incorrecta."
  const SesionIniciada: string := "Inicio de sesión exitoso"

  /** The cookie lifetime is 604800000 ms in both flows. */
  lemma CookieLifetime()
    ensures CookieMaxAge == 604800000
    ensures CookieMaxAge / 1000 / 60 / 60 / 24 == 7
  {
  }

  /** `generarJWT`: signs the id and the role (valid for seven days). */
  function GenerarJWT(sign: (int, string) -> string, id: int, rol: string): (token: string)
    ensures token == sign(id, rol)
  {
    sign(id, rol)
  }

  /** Whoever verifies the token with the matching key reads back exactly the id and the role. */
  lemma TokenCarriesIdentity(sign: (int, string) -> string, verify: string -> Option<AuthMiddleware.Payload>,
                             id: int, rol: string)
    requires forall i, r :: verify(sign(i, r)) == Some(AuthMiddleware.Payload(i, r))
    ensures verify(GenerarJWT(sign, id, rol)) == Some(AuthMiddleware.Payload(id, rol))
  {
  }

  /** The cookie named `token`: HTTP-only, secure, `SameSite=None`, seven days. */
  function SessionCookie(token: string): (c: Cookie)
    ensures c.name == "token" && c.value == token
    ensures c.httpOnly && c.secure && c.sameSite == "none" && c.maxAge == CookieMaxAge
  {
    Cookie("token", token, true, true, "none", CookieMaxAge)
  }

  /** What an answer shows of a stored user. */
  function Publico(u: Usuario): (p: UsuarioPublico)
    ensures p.id == u.id && p.nombre == u.nombre && p.email == u.email && p.rol == u.rol
  {
    UsuarioPublico(u.id, u.nombre, u.email, u.rol)
  }

  /** The answer never depends on the stored password hash: it is not in it. */
  lemma PublicoHidesPassword(u: Usuario, otro: string)
    ensures Publico(u) == Publico(u.(password := otro))
  {
  }

  /** `rol || "usuario"`: the role the client sent, when truthy, else "usuario". */
  function RolInicial(rol: Option<string>): (r: string)
    ensures Truthy(rol) ==> r == rol.value
    ensures !Truthy(rol) ==> r == RolPorDefecto
  {
    if Truthy(rol) then rol.value else RolPorDefecto
  }

  /** The three required fields of a registration are all truthy. */
  predicate RegistroCompleto(b: RegisterBody)
    ensures RegistroCompleto(b) ==> b.nombre.Some? && b.email.Some? && b.password.Some?
    ensures b.email == Some("") || b.password == Some("") || b.nombre == Some("") ==> !RegistroCompleto(b)
  {
    Truthy(b.nombre) && Truthy(b.email) && Truthy(b.password)
  }

  /** The row a successful registration inserts, given the id the table assigns. */
  function NuevoUsuario(id: int, b: RegisterBody, hash: string -> string): (u: Usuario)
    requires RegistroCompleto(b)
    ensures u.id == id && u.nombre == b.nombre.value && u.email == b.email.value
    ensures u.password == hash(b.password.value) && u.rol == RolInicial(b.rol)
  {
    Usuario(id, b.nombre.value, b.email.value, hash(b.password.value), RolInicial(b.rol))
  }

  /**
   * `register`: 400 "Faltan datos obligatorios." for a missing field, 400 "El usuario ya existe."
   * for a taken e-mail, both without touching the table; otherwise exactly one new user, with
   * the password hashed, a 201 answer and a session cookie for that user.
   */
  method Register(db: Database, b: RegisterBody, hash: string -> string, sign: (int, string) -> string)
    returns (r: AuthRespuesta)
    requires db.Valid()
    modifies db`usuarios, db`nextUsuarioId
    ensures db.Valid()
    ensures !RegistroCompleto(b) ==>
              r == Rechazo(400, FaltanDatos)
              && db.usuarios == old(db.usuarios) && db.nextUsuarioId == old(db.nextUsuarioId)
    ensures RegistroCompleto(b) && FindUsuarioByEmail(old(db.usuarios), b.email.value).Some? ==>
              r == Rechazo(400, YaExiste)
              && db.usuarios == old(db.usuarios) && db.nextUsuarioId == old(db.nextUsuarioId)
    ensures RegistroCompleto(b) && FindUsuarioByEmail(old(db.usuarios), b.email.value).None? ==>
              var u := NuevoUsuario(old(db.nextUsuarioId), b, hash);
              && db.usuarios == old(db.usuarios) + [u]
              && r == Sesion(201, Registrado, Publico(u), SessionCookie(GenerarJWT(sign, u.id, u.rol)))
  {
    if !Truthy(b.nombre) || !Truthy(b.email) || !Truthy(b.password) {
      return Rechazo(400, FaltanDatos);
    }
    var existe := FindUsuarioByEmail(db.usuarios, b.email.value);
    if existe.Some? {
      return Rechazo(400, YaExiste);
    }
    var hashedPassword := hash(b.password.value);
    var nuevo := db.CreateUsuario(b.nombre.value, b.email.value, hashedPassword,
                                  if Truthy(b.rol) then b.rol.value else "usuario");
    var token := GenerarJWT(sign, nuevo.id, nuevo.rol);
    var cookie := Cookie("token", token, true, true, "none", 7 * 24 * 60 * 60 * 1000);
    r := Sesion(201, Registrado, UsuarioPublico(nuevo.id, b.nombre.value, b.email.value, nuevo.rol), cookie);
  }

  /**
   * The decision of `login`, in its order: 400 for missing credentials, 404 for an unknown
   * e-mail, 401 for a wrong password, otherwise 200 with the stored user and a session cookie.
   */
  function LoginResult(usuarios: seq<Usuario>, b: LoginBody, compare: (string, string) -> bool,
                       sign: (int, string) -> string): (r: AuthRespuesta)
    ensures r == Rechazo(400, FaltanCredenciales) <==> !Truthy(b.email) || !Truthy(b.password)
    ensures r == Rechazo(404, NoEncontrado) <==>
              Truthy(b.email) && Truthy(b.password) && FindUsuarioByEmail(usuarios, b.email.value).None?
    ensures r == Rechazo(401, ContrasenaIncorrecta) <==>
              && Truthy(b.email) && Truthy(b.password)
              && FindUsuarioByEmail(usuarios, b.email.value).Some?
              && !compare(b.password.value, FindUsuarioByEmail(usuarios, b.email.value).value.password)
    ensures (Truthy(b.email) && Truthy(b.password) && FindUsuarioByEmail(usuarios, b.email.value).Some?
             && compare(b.password.value, FindUsuarioByEmail(usuarios, b.email.value).value.password)) ==>
              r.Sesion?
    ensures r.Sesion? ==>
              exists u :: u in usuarios && u.email == b.email.value && compare(b.password.value, u.password)
                          && r == Sesion(200, SesionIniciada, Publico(u), SessionCookie(GenerarJWT(sign, u.id, u.rol)))
  {
    if !Truthy(b.email) || !Truthy(b.password) then Rechazo(400, FaltanCredenciales)
    else
      match FindUsuarioByEmail(usuarios, b.email.value)
      case None => Rechazo(404, NoEncontrado)
      case Some(u) =>
        if !compare(b.password.value, u.password) then Rechazo(401, ContrasenaIncorrecta)
        else Sesion(200, SesionIniciada, Publico(u), SessionCookie(GenerarJWT(sign, u.id, u.rol)))
  }

  /** `login`, step by step; it only reads the table. */
  method Login(db: Database, b: LoginBody, compare: (string, string) -> bool, sign: (int, string) -> string)
    returns (r: AuthRespuesta)
    ensures r == LoginResult(db.usuarios, b, compare, sign)
  {
    if !Truthy(b.email) || !Truthy(b.password) {
      return Rechazo(400, FaltanCredenciales);
    }
    var usuario := FindUsuarioByEmail(db.usuarios, b.email.value);
    if usuario.None? {
      return Rechazo(404, NoEncontrado);
    }
    var passwordCorrecta := compare(b.password.value, usuario.value.password);
    if !passwordCorrecta {
      return Rechazo(401, ContrasenaIncorrecta);
    }
    var token := GenerarJWT(sign, usuario.value.id, usuario.value.rol);
    var cookie := Cookie("token", token, true, true, "none", 7 * 24 * 60 * 60 * 1000);
    r := Sesion(200, SesionIniciada,
                UsuarioPublico(usuario.value.id, usuario.value.nombre, usuario.value.email, usuario.value.rol),
                cookie);
  }

  /**
   * A user who has just registered can log in with the same e-mail and password (as long as
   * `compare` accepts a password against its own hash), and gets their own account back.
   */
  lemma RegisterThenLogin(usuarios: seq<Usuario>, id: int, b: RegisterBody, hash: string -> string,
                          compare: (string, string) -> bool, sign: (int, string) -> string)
    requires UniqueEmails(usuarios)
    requires RegistroCompleto(b)
    requires FindUsuarioByEmail(usuarios, b.email.value).None?
    requires compare(b.password.value, hash(b.password.value))
    ensures var u := NuevoUsuario(id, b, hash);
            LoginResult(usuarios + [u], LoginBody(b.email, b.password), compare, sign)
            == Sesion(200, SesionIniciada, Publico(u), SessionCookie(GenerarJWT(sign, id, u.rol)))
  {
    var u := NuevoUsuario(id, b, hash);
    var after := usuarios + [u];
    assert UniqueEmails(after) by {
      forall i, j | 0 <= i < j < |after| ensures after[i].email != after[j].email {
        if j == |usuarios| {
          assert after[i] in usuarios;
        }
      }
    }
    FindByEmailUnique(after, u);
  }

  /** After a registration the e-mail is taken: registering it a second time is refused. */
  lemma EmailTakenAfterRegister(usuarios: seq<Usuario>, u: Usuario)
    ensures FindUsuarioByEmail(usuarios + [u], u.email).Some?
  {
    assert u in usuarios + [u];
  }

  /**
   * The cookie a successful login sets passes `protegerRuta` on its own: it names the user who
   * logged in, with the role the table holds (given a signer whose tokens `verify` reads back and
   * that never gives an empty token).
   */
  lemma LoginCookieAuthenticates(usuarios: seq<Usuario>, b: LoginBody, compare: (string, string) -> bool,
                                 sign: (int, string) -> string, verify: string -> Option<AuthMiddleware.Payload>)
    requires UniqueUsuarioIds(usuarios)
    requires LoginResult(usuarios, b, compare, sign).Sesion?
    requires forall id, rol :: verify(sign(id, rol)) == Some(AuthMiddleware.Payload(id, rol))
    requires forall id, rol :: sign(id, rol) != ""
    ensures var s := LoginResult(usuarios, b, compare, sign);
            AuthMiddleware.Authenticate(None, Some(s.cookie.value), verify, usuarios)
            == AuthMiddleware.Granted(AuthMiddleware.AuthUser(s.usuario.id, s.usuario.rol))
  {
    var s := LoginResult(usuarios, b, compare, sign);
    var u :| u in usuarios && u.email == b.email.value && compare(b.password.value, u.password)
             && s == Sesion(200, SesionIniciada, Publico(u), SessionCookie(GenerarJWT(sign, u.id, u.rol)));
    FindByIdUnique(usuarios, u);
  }

  /**
   * The client chooses its own role: registering with `rol: "admin"` stores an admin, and a token
   * for that account passes `soloAdmin`.
   */
  lemma SelfAssignedAdmin(usuarios: seq<Usuario>, id: int, b: RegisterBody, hash: string -> string,
                          token: string, verify: string -> Option<AuthMiddleware.Payload>)
    requires RegistroCompleto(b) && b.rol == Some("admin")
    requires UniqueUsuarioIds(usuarios + [NuevoUsuario(id, b, hash)])
    requires token != "" && verify(token) == Some(AuthMiddleware.Payload(id, "usuario"))
    ensures var r := AuthMiddleware.Authenticate(None, Some(token), verify, usuarios + [NuevoUsuario(id, b, hash)]);
            && r == AuthMiddleware.Granted(AuthMiddleware.AuthUser(id, "admin"))
            && AuthMiddleware.SoloAdmin(Some(r.user)) == Next
  {
    var u := NuevoUsuario(id, b, hash);
    assert u in usuarios + [u];
    FindByIdUnique(usuarios + [u], u);
  }
}
