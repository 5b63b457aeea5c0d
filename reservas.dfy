/**
 * The reservations controller: `createReserva`, which checks four fields and inserts one row
 * (no seat counting, no capacity check, no transaction), and `misReservas`, which reads the
 * caller's token its own way and lists that user's reservations, newest first.
 */
module Reservas {
  import opened Common
  import opened Store
  import opened Text
  import AuthMiddleware

  // ---------------------------------------------------------------------------------------------
  // createReserva.
  // ---------------------------------------------------------------------------------------------

  /** The body of `POST /reservas`; a missing field is `None`. */
  datatype ReservaBody = ReservaBody(
    usuarioId: Option<int>,
    tourId: Option<int>,
    salidaProgramadaId: Option<int>,
    numeroPersonas: Option<int>,
    notas: Option<string>)

  /** The four required fields are all truthy: present and not 0. */
  predicate CamposObligatorios(b: ReservaBody)
    ensures CamposObligatorios(b) ==>
              b.usuarioId.Some? && b.tourId.Some? && b.salidaProgramadaId.Some? && b.numeroPersonas.Some?
    ensures b.numeroPersonas == Some(0) ==> !CamposObligatorios(b)
  {
    TruthyNum(b.usuarioId) && TruthyNum(b.tourId) && TruthyNum(b.salidaProgramadaId)
    && TruthyNum(b.numeroPersonas)
  }

  const FaltanCampos: string := "Faltan campos obligatorios"
  const ReservaCreada: string := "Reserva creada correctamente"

  /**
   * `createReserva`: 400 without touching the store when a required field is falsy; otherwise
   * exactly one new reservation, with the clock's `fecha` and the column default `estado`, and 201.
   * The e-mails sent afterwards are not part of this model.
   */
  method CreateReserva(db: Database, b: ReservaBody, ahora: int)
    returns (status: int, message: string, reserva: Option<Reserva>)
    requires db.Valid()
    modifies db`reservas, db`nextReservaId
    ensures db.Valid()
    ensures status == 400 <==> !CamposObligatorios(b)
    ensures !CamposObligatorios(b) ==>
              message == FaltanCampos && reserva.None?
              && db.reservas == old(db.reservas) && db.nextReservaId == old(db.nextReservaId)
    ensures CamposObligatorios(b) ==>
              && status == 201 && message == ReservaCreada
              && reserva == Some(Reserva(old(db.nextReservaId), b.usuarioId, b.tourId, b.salidaProgramadaId,
                                         b.numeroPersonas, b.notas, ahora, db.estadoInicial))
              && db.reservas == old(db.reservas) + [reserva.value]
    ensures db.salidas == old(db.salidas) && db.tours == old(db.tours) && db.usuarios == old(db.usuarios)
  {
    if !TruthyNum(b.usuarioId) || !TruthyNum(b.tourId) || !TruthyNum(b.salidaProgramadaId)
       || !TruthyNum(b.numeroPersonas) {
      return 400, FaltanCampos, None;
    }
    var nueva := db.CreateReserva(b.usuarioId.value, b.tourId.value, b.salidaProgramadaId.value,
                                  b.numeroPersonas.value, b.notas, ahora);
    return 201, ReservaCreada, Some(nueva);
  }

  /** A reservation for zero people is rejected as a missing field, as is one for a user id of 0. */
  lemma ZeroIsMissing(b: ReservaBody)
    requires b.numeroPersonas == Some(0) || b.usuarioId == Some(0)
    ensures !CamposObligatorios(b)
  {
  }

  /** Nothing bounds the number of people: any non-zero count, negative ones included, is accepted. */
  lemma AnyNonZeroCountAccepted(u: int, t: int, s: int, n: int, notas: Option<string>)
    requires u != 0 && t != 0 && s != 0 && n != 0
    ensures CamposObligatorios(ReservaBody(Some(u), Some(t), Some(s), Some(n), notas))
  {
  }

  // ---------------------------------------------------------------------------------------------
  // misReservas.
  // ---------------------------------------------------------------------------------------------

  /**
   * The token `misReservas` reads: everything after "Bearer " (`substring(7)`) when the header
   * starts with it, else the cookie when it is truthy, else none.
   */
  function MisReservasToken(authorization: Option<string>, cookie: Option<string>): (t: Option<string>)
    ensures authorization.Some? && StartsWith(authorization.value, AuthMiddleware.BearerPrefix) ==>
              t == Some(authorization.value[|AuthMiddleware.BearerPrefix|..])
    ensures !(authorization.Some? && StartsWith(authorization.value, AuthMiddleware.BearerPrefix)) ==>
              (t.Some? <==> Truthy(cookie)) && (t.Some? ==> t == cookie)
  {
    if authorization.Some? && StartsWith(authorization.value, AuthMiddleware.BearerPrefix) then
      Some(authorization.value[7..])
    else if Truthy(cookie) then cookie
    else None
  }

  /** The reservations of user `id`, in table order (`where: { usuario_id: id }`). */
  function DeUsuario(rs: seq<Reserva>, id: int): (mine: seq<Reserva>)
    ensures forall r :: r in mine <==> r in rs && r.usuarioId == Some(id)
    ensures multiset(mine) <= multiset(rs)
    ensures forall r :: multiset(mine)[r] == if r.usuarioId == Some(id) then multiset(rs)[r] else 0
  {
    if rs == [] then []
    else
      var rest := DeUsuario(rs[1..], id);
      assert rs == [rs[0]] + rs[1..];
      if rs[0].usuarioId == Some(id) then [rs[0]] + rest else rest
  }

  /** Newest first: `fecha` never increases along the list. */
  predicate FechaDesc(rs: seq<Reserva>) {
    forall i, j :: 0 <= i < j < |rs| ==> rs[i].fecha >= rs[j].fecha
  }

  /** Puts `r` before the first reservation that is not newer than it. */
  function Insertar(r: Reserva, rs: seq<Reserva>): (out: seq<Reserva>)
    requires FechaDesc(rs)
    ensures FechaDesc(out)
    ensures multiset(out) == multiset(rs) + multiset{r}
    ensures |out| == |rs| + 1
    ensures out != [] && (out[0] == r || (rs != [] && out[0] == rs[0]))
  {
    if rs == [] || r.fecha >= rs[0].fecha then [r] + rs
    else
      var rest := Insertar(r, rs[1..]);
      assert rs == [rs[0]] + rs[1..];
      [rs[0]] + rest
  }

  /** `orderBy: { fecha: 'desc' }`: the same reservations, newest first. */
  function OrdenarPorFechaDesc(rs: seq<Reserva>): (out: seq<Reserva>)
    ensures FechaDesc(out)
    ensures multiset(out) == multiset(rs)
  {
    if rs == [] then []
    else
      assert rs == [rs[0]] + rs[1..];
      Insertar(rs[0], OrdenarPorFechaDesc(rs[1..]))
  }

  /** What `misReservas` answers. */
  datatype MisReservasRespuesta = Lista(reservas: seq<Reserva>) | Error(status: int, message: string)

  const SinToken: string := "No hay token de autenticación."
  const ErrorLectura: string := "Error al obtener tus reservas."

  /**
   * `misReservas`: 401 without a token; 500 when the token does not verify (the failure is caught
   * by the handler's own error branch); otherwise the caller's reservations, newest first.
   */
  method MisReservas(authorization: Option<string>, cookie: Option<string>,
                     verify: string -> Option<AuthMiddleware.Payload>, reservas: seq<Reserva>)
    returns (respuesta: MisReservasRespuesta)
    ensures var token := MisReservasToken(authorization, cookie);
            && (respuesta == Error(401, SinToken) <==> !Truthy(token))
            && (respuesta == Error(500, ErrorLectura) <==> Truthy(token) && verify(token.value).None?)
            && (respuesta.Lista? ==>
                  && Truthy(token) && verify(token.value).Some?
                  && FechaDesc(respuesta.reservas)
                  && multiset(respuesta.reservas) == multiset(DeUsuario(reservas, verify(token.value).value.id)))
    ensures var token := MisReservasToken(authorization, cookie);
            (Truthy(token) && verify(token.value).Some?) ==> respuesta.Lista?
  {
    var token: Option<string> := None;
    var authHeader := authorization;
    if authHeader.Some? && StartsWith(authHeader.value, "Bearer ") {
      token := Some(authHeader.value[7..]);
    } else if Truthy(cookie) {
      token := cookie;
    }
    if !Truthy(token) {
      return Error(401, SinToken);
    }
    var decoded := verify(token.value);
    if decoded.None? {
      return Error(500, ErrorLectura);
    }
    respuesta := Lista(OrdenarPorFechaDesc(DeUsuario(reservas, decoded.value.id)));
  }

  /** The listed reservations are exactly the caller's: every one of them, and no one else's. */
  lemma ListaExacta(rs: seq<Reserva>, id: int, r: Reserva)
    ensures r in OrdenarPorFechaDesc(DeUsuario(rs, id)) <==> r in rs && r.usuarioId == Some(id)
  {
    var mine := DeUsuario(rs, id);
    assert r in OrdenarPorFechaDesc(mine) <==> r in multiset(OrdenarPorFechaDesc(mine));
    assert r in mine <==> r in multiset(mine);
  }

  /** Sorting keeps every reservation as often as it was there: nothing lost, nothing duplicated. */
  lemma {:induction false} OrdenarKeepsLength(rs: seq<Reserva>)
    ensures |OrdenarPorFechaDesc(rs)| == |rs|
  {
    calc {
      |OrdenarPorFechaDesc(rs)|;
      |multiset(OrdenarPorFechaDesc(rs))|;
      |multiset(rs)|;
      |rs|;
    }
  }

  /**
   * For a plain token (non-empty, no spaces) the two ways of reading the header agree with each
   * other and with `protegerRuta`.
   */
  lemma TokenStylesAgree(t: string, cookie: Option<string>)
    requires t != [] && ' ' !in t
    ensures MisReservasToken(Some(AuthMiddleware.BearerPrefix + t), cookie) == Some(t)
    ensures AuthMiddleware.SelectToken(Some(AuthMiddleware.BearerPrefix + t), cookie) == Some(t)
  {
    var h := AuthMiddleware.BearerPrefix + t;
    assert h[..|AuthMiddleware.BearerPrefix|] == AuthMiddleware.BearerPrefix;
    assert h[|AuthMiddleware.BearerPrefix|..] == t;
    AuthMiddleware.BearerTokenRoundTrip(t, cookie);
  }

  /**
   * The two ways of reading the header disagree: a header of exactly "Bearer " is an empty token
   * here, so `misReservas` ignores the cookie, while `protegerRuta` falls back to that cookie.
   */
  lemma EmptyBearerRefusedHere(c: string)
    requires c != ""
    ensures MisReservasToken(Some(AuthMiddleware.BearerPrefix), Some(c)) == Some("")
    ensures AuthMiddleware.SelectToken(Some(AuthMiddleware.BearerPrefix), Some(c)) == Some(c)
  {
    assert AuthMiddleware.BearerPrefix[|AuthMiddleware.BearerPrefix|..] == "";
    AuthMiddleware.EmptyHeaderTokenFallsThrough(Some(c));
  }

  /** A token followed by a space and more text: here the whole rest is the token, there only up to the space. */
  lemma TrailingTextKeptHere(t: string, extra: string)
    requires t != [] && ' ' !in t
    ensures MisReservasToken(Some(AuthMiddleware.BearerPrefix + t + " " + extra), None)
            == Some(t + " " + extra)
    ensures AuthMiddleware.HeaderToken(Some(AuthMiddleware.BearerPrefix + t + " " + extra)) == Some(t)
  {
    var rest := t + " " + extra;
    var h := AuthMiddleware.BearerPrefix + rest;
    assert AuthMiddleware.BearerPrefix + t + " " + extra == h;
    assert h[..|AuthMiddleware.BearerPrefix|] == AuthMiddleware.BearerPrefix;
    assert h[|AuthMiddleware.BearerPrefix|..] == rest;
    SplitOnSeparator(t, ' ', extra);
  }
}
