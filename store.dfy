/**
 * The relational database the handlers talk to through the ORM, reduced to the tables and rows
 * the modelled handlers read or write. Each table is a sequence in insertion order; each table
 * that the handlers insert into has its own auto-increment counter.
 */
module Store {
  import opened Common

  /** A row of `usuarios`. `password` holds the bcrypt hash, never the password itself. */
  datatype Usuario = Usuario(id: int, nombre: string, email: string, password: string, rol: string)

  /** A row of `tours`; `categoriaIds` stands for the rows of `tour_categorias` that link it. */
  datatype Tour = Tour(
    id: int,
    titulo: string,
    descripcion: string,
    ubicacion: Option<string>,
    precioBase: int,
    temporadaInicioMes: int,
    temporadaFinMes: int,
    cupoMaximo: int,
    categoriaIds: seq<int>)

  /** A row of `salidas_programadas` (a scheduled departure and its seats). */
  datatype Salida = Salida(
    id: int,
    tourId: int,
    fechaInicio: int,
    plazasTotales: int,
    plazasOcupadas: int,
    activo: bool)

  /** A row of `reservas`. The nullable columns are those the handlers test for null. */
  datatype Reserva = Reserva(
    id: int,
    usuarioId: Option<int>,
    tourId: Option<int>,
    salidaProgramadaId: Option<int>,
    numeroPersonas: Option<int>,
    notas: Option<string>,
    fecha: int,
    estado: Option<string>)

  /** A row of `traducciones`: a tour description translated into one language. */
  datatype Traduccion = Traduccion(idioma: string, texto: string, tourId: int)

  predicate UniqueEmails(us: seq<Usuario>) {
    forall i, j :: 0 <= i < j < |us| ==> us[i].email != us[j].email
  }

  predicate UniqueUsuarioIds(us: seq<Usuario>) {
    forall i, j :: 0 <= i < j < |us| ==> us[i].id != us[j].id
  }

  predicate UniqueTourIds(ts: seq<Tour>) {
    forall i, j :: 0 <= i < j < |ts| ==> ts[i].id != ts[j].id
  }

  /** `prisma.usuarios.findUnique({ where: { email } })`. */
  function FindUsuarioByEmail(us: seq<Usuario>, email: string): (r: Option<Usuario>)
    ensures r.Some? ==> r.value in us && r.value.email == email
    ensures r.None? <==> forall u :: u in us ==> u.email != email
  {
    if us == [] then None
    else if us[0].email == email then Some(us[0])
    else FindUsuarioByEmail(us[1..], email)
  }

  /** `prisma.usuarios.findUnique({ where: { id } })`. */
  function FindUsuarioById(us: seq<Usuario>, id: int): (r: Option<Usuario>)
    ensures r.Some? ==> r.value in us && r.value.id == id
    ensures r.None? <==> forall u :: u in us ==> u.id != id
  {
    if us == [] then None
    else if us[0].id == id then Some(us[0])
    else FindUsuarioById(us[1..], id)
  }

  /** With unique e-mails, looking a user up by e-mail finds exactly that user. */
  lemma {:induction false} FindByEmailUnique(us: seq<Usuario>, u: Usuario)
    requires UniqueEmails(us)
    requires u in us
    ensures FindUsuarioByEmail(us, u.email) == Some(u)
  {
    if us[0] != u {
      assert us[0].email != u.email by {
        var j :| 0 <= j < |us| && us[j] == u;
        assert j != 0;
      }
      assert u in us[1..];
      FindByEmailUnique(us[1..], u);
    }
  }

  /** With unique ids, looking a user up by id finds exactly that user. */
  lemma {:induction false} FindByIdUnique(us: seq<Usuario>, u: Usuario)
    requires UniqueUsuarioIds(us)
    requires u in us
    ensures FindUsuarioById(us, u.id) == Some(u)
  {
    if us[0] != u {
      assert us[0].id != u.id by {
        var j :| 0 <= j < |us| && us[j] == u;
        assert j != 0;
      }
      assert u in us[1..];
      FindByIdUnique(us[1..], u);
    }
  }

  /** With unique ids, an id names at most one user. */
  lemma IdsIdentify(us: seq<Usuario>, a: Usuario, b: Usuario)
    requires UniqueUsuarioIds(us)
    requires a in us && b in us && a.id == b.id
    ensures a == b
  {
    var i :| 0 <= i < |us| && us[i] == a;
    var j :| 0 <= j < |us| && us[j] == b;
    assert i == j;
  }

  /** The database, seen as its tables. */
  class Database {
    var usuarios: seq<Usuario>
    var tours: seq<Tour>
    var salidas: seq<Salida>
    var reservas: seq<Reserva>
    var traducciones: seq<Traduccion>
    var nextUsuarioId: int
    var nextTourId: int
    var nextReservaId: int
    /** What the column default of `reservas.estado` gives a new row (the schema decides it). */
    const estadoInicial: Option<string>

    /** The constraints the schema enforces and the handlers rely on. */
    ghost predicate Valid()
      reads this
    {
      && UniqueEmails(usuarios)
      && UniqueUsuarioIds(usuarios)
      && (forall u :: u in usuarios ==> u.id < nextUsuarioId)
      && UniqueTourIds(tours)
      && (forall t :: t in tours ==> t.id < nextTourId)
      && (forall r :: r in reservas ==> r.id < nextReservaId)
    }

    constructor (estadoInicial: Option<string>)
      ensures Valid()
      ensures usuarios == [] && tours == [] && salidas == [] && reservas == [] && traducciones == []
      ensures this.estadoInicial == estadoInicial
    {
      usuarios, tours, salidas, reservas, traducciones := [], [], [], [], [];
      nextUsuarioId, nextTourId, nextReservaId := 1, 1, 1;
      this.estadoInicial := estadoInicial;
    }

    /** `prisma.usuarios.create`: the e-mail column is unique, so it must not be taken yet. */
    method CreateUsuario(nombre: string, email: string, password: string, rol: string)
      returns (u: Usuario)
      requires Valid()
      requires FindUsuarioByEmail(usuarios, email).None?
      modifies this`usuarios, this`nextUsuarioId
      ensures Valid()
      ensures u == Usuario(old(nextUsuarioId), nombre, email, password, rol)
      ensures usuarios == old(usuarios) + [u]
      ensures nextUsuarioId == old(nextUsuarioId) + 1
    {
      u := Usuario(nextUsuarioId, nombre, email, password, rol);
      usuarios := usuarios + [u];
      nextUsuarioId := nextUsuarioId + 1;
    }

    /** `prisma.tours.create`: the new row gets the next id. */
    method CreateTour(
      titulo: string, descripcion: string, ubicacion: Option<string>, precioBase: int,
      temporadaInicioMes: int, temporadaFinMes: int, cupoMaximo: int, categoriaIds: seq<int>)
      returns (t: Tour)
      requires Valid()
      modifies this`tours, this`nextTourId
      ensures Valid()
      ensures t == Tour(old(nextTourId), titulo, descripcion, ubicacion, precioBase,
                        temporadaInicioMes, temporadaFinMes, cupoMaximo, categoriaIds)
      ensures tours == old(tours) + [t]
      ensures nextTourId == old(nextTourId) + 1
    {
      t := Tour(nextTourId, titulo, descripcion, ubicacion, precioBase,
                temporadaInicioMes, temporadaFinMes, cupoMaximo, categoriaIds);
      tours := tours + [t];
      nextTourId := nextTourId + 1;
    }

    /** `prisma.traducciones.create`. */
    method CreateTraduccion(idioma: string, texto: string, tourId: int)
      requires Valid()
      modifies this`traducciones
      ensures Valid()
      ensures traducciones == old(traducciones) + [Traduccion(idioma, texto, tourId)]
    {
      traducciones := traducciones + [Traduccion(idioma, texto, tourId)];
    }

    /**
     * `prisma.reservas.create`: the database fills in `fecha` (the clock, given as `ahora`) and
     * `estado` (the column default).
     */
    method CreateReserva(
      usuarioId: int, tourId: int, salidaProgramadaId: int, numeroPersonas: int,
      notas: Option<string>, ahora: int)
      returns (r: Reserva)
      requires Valid()
      modifies this`reservas, this`nextReservaId
      ensures Valid()
      ensures r == Reserva(old(nextReservaId), Some(usuarioId), Some(tourId), Some(salidaProgramadaId),
                           Some(numeroPersonas), notas, ahora, estadoInicial)
      ensures reservas == old(reservas) + [r]
      ensures nextReservaId == old(nextReservaId) + 1
    {
      r := Reserva(nextReservaId, Some(usuarioId), Some(tourId), Some(salidaProgramadaId),
                   Some(numeroPersonas), notas, ahora, estadoInicial);
      reservas := reservas + [r];
      nextReservaId := nextReservaId + 1;
    }
  }
}
