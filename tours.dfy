/**
 * The tours controller: the advanced search (`filtrarTours`) with its filter record, pagination
 * and sorting; the detail view (`getTourById`) with its reshaped reviews; and the creation of a
 * tour whose description is generated and translated (`createTourAI`).
 *
 * Query-string and body values arrive as text. `Number`, `parseInt` and `parseFloat` are given
 * as the parameter `number`; the description generator and the translator are parameters too.
 */
module Tours {
  import opened Common
  import opened Store

  // ---------------------------------------------------------------------------------------------
  // filtrarTours: the filter record.
  // ---------------------------------------------------------------------------------------------

  /** The query string of `GET /tours/filtrar`. A missing parameter is `None`. */
  datatype Query = Query(
    busqueda: Option<string>,
    categoria: Option<string>,
    minPrecio: Option<string>,
    maxPrecio: Option<string>,
    temporada: Option<string>,
    page: Option<string>,
    pageSize: Option<string>,
    sort: Option<string>,
    order: Option<string>)

  /** A case-insensitive `contains` condition on one text column of `tours`. */
  datatype TextMatch = TextMatch(column: string, contains: string)

  /** The `precio_base` condition: each bound is present only when it was asked for. */
  datatype PriceRange = PriceRange(gte: Option<int>, lte: Option<int>)

  /**
   * The `filtros` object handed to the ORM. A key the handler never assigns is `None`:
   * `or` (the search over title and description), `precioBase`, `categoria` (the name a linked
   * category must contain) and `temporadaInicioMes`.
   */
  datatype Filtros = Filtros(
    or: Option<seq<TextMatch>>,
    precioBase: Option<PriceRange>,
    categoria: Option<string>,
    temporadaInicioMes: Option<int>)

  const SinFiltros: Filtros := Filtros(None, None, None, None)

  /** What the filter must be for query `q`, key by key. */
  ghost predicate Describes(q: Query, number: string -> int, f: Filtros)
    ensures Describes(q, number, f) ==>
              (f == SinFiltros <==>
                 !Truthy(q.busqueda) && !Truthy(q.categoria) && !Truthy(q.minPrecio)
                 && !Truthy(q.maxPrecio) && !Truthy(q.temporada))
  {
    && (f.or.Some? <==> Truthy(q.busqueda))
    && (Truthy(q.busqueda) ==>
          f.or.value == [TextMatch("titulo", q.busqueda.value), TextMatch("descripcion", q.busqueda.value)])
    && (f.precioBase.Some? <==> Truthy(q.minPrecio) || Truthy(q.maxPrecio))
    && (f.precioBase.Some? ==>
          && (f.precioBase.value.gte.Some? <==> Truthy(q.minPrecio))
          && (f.precioBase.value.lte.Some? <==> Truthy(q.maxPrecio))
          && (Truthy(q.minPrecio) ==> f.precioBase.value.gte.value == number(q.minPrecio.value))
          && (Truthy(q.maxPrecio) ==> f.precioBase.value.lte.value == number(q.maxPrecio.value)))
    && (f.categoria.Some? <==> Truthy(q.categoria))
    && (Truthy(q.categoria) ==> f.categoria.value == q.categoria.value)
    && (f.temporadaInicioMes.Some? <==> Truthy(q.temporada))
    && (Truthy(q.temporada) ==> f.temporadaInicioMes.value == number(q.temporada.value))
  }

  /** Builds `filtros` one condition at a time, adding a key only for a criterion that was given. */
  method BuildFiltros(q: Query, number: string -> int) returns (filtros: Filtros)
    ensures Describes(q, number, filtros)
  {
    filtros := SinFiltros;
    if Truthy(q.busqueda) {
      filtros := filtros.(or := Some([TextMatch("titulo", q.busqueda.value),
                                      TextMatch("descripcion", q.busqueda.value)]));
    }
    if Truthy(q.minPrecio) || Truthy(q.maxPrecio) {
      var rango := PriceRange(None, None);
      if Truthy(q.minPrecio) {
        rango := rango.(gte := Some(number(q.minPrecio.value)));
      }
      if Truthy(q.maxPrecio) {
        rango := rango.(lte := Some(number(q.maxPrecio.value)));
      }
      filtros := filtros.(precioBase := Some(rango));
    }
    if Truthy(q.categoria) {
      filtros := filtros.(categoria := Some(q.categoria.value));
    }
    if Truthy(q.temporada) {
      filtros := filtros.(temporadaInicioMes := Some(number(q.temporada.value)));
    }
  }

  /** The query determines the filter: two filters that both describe it are the same. */
  lemma DescribesUnique(q: Query, number: string -> int, f1: Filtros, f2: Filtros)
    requires Describes(q, number, f1) && Describes(q, number, f2)
    ensures f1 == f2
  {
    if f1.precioBase.Some? {
      assert f1.precioBase.value == f2.precioBase.value;
    }
  }

  /** A query with no criterion filters nothing, and an empty string counts as no criterion. */
  lemma NoCriteriaNoFilter(q: Query, number: string -> int, f: Filtros)
    requires Describes(q, number, f)
    requires q.busqueda in {None, Some("")} && q.categoria in {None, Some("")}
    requires q.minPrecio in {None, Some("")} && q.maxPrecio in {None, Some("")}
    requires q.temporada in {None, Some("")}
    ensures f == SinFiltros
  {
  }

  /** The price condition, when present, always bounds the price on at least one side. */
  lemma PriceRangeNeverEmpty(q: Query, number: string -> int, f: Filtros)
    requires Describes(q, number, f)
    requires f.precioBase.Some?
    ensures f.precioBase.value.gte.Some? || f.precioBase.value.lte.Some?
  {
  }

  // ---------------------------------------------------------------------------------------------
  // filtrarTours: pagination and sorting.
  // ---------------------------------------------------------------------------------------------

  const DefaultPageSize: int := 10

  datatype SortOrder = Asc | Desc

  /** `pageSize ? Number(pageSize) : 10`. The text "0" is truthy, so it gives a page size of 0. */
  function Take(q: Query, number: string -> int): (take: int)
    ensures !Truthy(q.pageSize) ==> take == DefaultPageSize
    ensures Truthy(q.pageSize) ==> take == number(q.pageSize.value)
  {
    if Truthy(q.pageSize) then number(q.pageSize.value) else DefaultPageSize
  }

  /** `page ? (Number(page) - 1) * take : 0`. */
  function Skip(q: Query, number: string -> int): (skip: int)
    ensures !Truthy(q.page) ==> skip == 0
    ensures Truthy(q.page) ==> skip == (number(q.page.value) - 1) * Take(q, number)
    ensures Truthy(q.page) && number(q.page.value) >= 1 && Take(q, number) >= 0 ==> skip >= 0
  {
    if Truthy(q.page) then (number(q.page.value) - 1) * Take(q, number) else 0
  }

  /** `sort ? String(sort) : 'id'`. */
  function SortBy(q: Query): (column: string)
    ensures !Truthy(q.sort) ==> column == "id"
    ensures Truthy(q.sort) ==> column == q.sort.value
  {
    if Truthy(q.sort) then q.sort.value else "id"
  }

  /** `order === 'desc' ? 'desc' : 'asc'`: only the exact text "desc" sorts downwards. */
  function Order(q: Query): (o: SortOrder)
    ensures o == Desc <==> q.order == Some("desc")
  {
    if q.order == Some("desc") then Desc else Asc
  }

  /** `Number(page) || 1`: a missing page, or one that reads as 0, is reported as page 1. */
  function PageNumber(q: Query, number: string -> int): (p: int)
    ensures p != 0
    ensures q.page.Some? && number(q.page.value) != 0 ==> p == number(q.page.value)
    ensures !(q.page.Some? && number(q.page.value) != 0) ==> p == 1
  {
    if q.page.Some? && number(q.page.value) != 0 then number(q.page.value) else 1
  }

  /**
   * A page parameter that reads as 0 (for instance "0") is reported as page 1, yet the query is
   * given a negative offset: minus one page size.
   */
  lemma PageZeroSkipsBackwards(q: Query, number: string -> int)
    requires Truthy(q.page) && number(q.page.value) == 0
    ensures PageNumber(q, number) == 1
    ensures Skip(q, number) == -Take(q, number)
  {
  }

  /** `Math.ceil(a / b)` on integers, for a non-zero divisor of either sign. */
  function CeilDiv(a: int, b: int): (r: int)
    requires b != 0
    ensures b > 0 ==> b * (r - 1) < a <= b * r
    ensures b < 0 ==> b * r <= a < b * (r - 1)
  {
    if b > 0 then -((-a) / b) else -(a / (-b))
  }

  /** `Math.ceil(total / take)`; a page size of 0 gives no number (JavaScript yields Infinity or NaN). */
  function TotalPages(total: nat, take: int): (n: Option<int>)
    ensures n.None? <==> take == 0
    ensures take > 0 ==> n.value >= 0 && take * (n.value - 1) < total <= take * n.value
  {
    if take == 0 then None else Some(CeilDiv(total, take))
  }

  /**
   * With a positive page size, every row `i` of the `total` matching ones lies on a page no
   * later than the last page reported.
   */
  lemma EveryRowOnSomePage(total: nat, take: int, i: nat)
    requires take > 0 && i < total
    ensures var page := i / take + 1;
            (page - 1) * take <= i < page * take && page <= TotalPages(total, take).value
  {
    var page, n := i / take + 1, TotalPages(total, take).value;
    assert (page - 1) * take <= i < page * take;
    assert (page - 1) * take < n * take;
    MulCancel(page - 1, n, take);
  }

  /** Dividing both sides of a strict inequality by the same positive number keeps it. */
  lemma MulCancel(a: int, b: int, c: int)
    requires c > 0 && a * c < b * c
    ensures a < b
  {
    assert (b - a) * c == b * c - a * c;
  }

  /** The metadata of the answer. */
  datatype Listado = Listado(
    total: nat,
    page: int,
    pageSize: int,
    totalPages: Option<int>,
    results: seq<Tour>)

  /** The arguments of the main query. */
  datatype Consulta = Consulta(filtros: Filtros, skip: int, take: int, sortBy: string, order: SortOrder)

  /**
   * `filtrarTours`, given the two queries as parameters: `count` for `prisma.tours.count` and
   * `find` for `prisma.tours.findMany`.
   */
  method FiltrarTours(q: Query, number: string -> int, count: Filtros -> nat, find: Consulta -> seq<Tour>)
    returns (consulta: Consulta, listado: Listado)
    ensures Describes(q, number, consulta.filtros)
    ensures consulta.take == Take(q, number) && consulta.skip == Skip(q, number)
    ensures consulta.sortBy == SortBy(q) && consulta.order == Order(q)
    ensures listado.total == count(consulta.filtros)
    ensures listado.page == PageNumber(q, number) && listado.pageSize == consulta.take
    ensures listado.totalPages == TotalPages(listado.total, consulta.take)
    ensures listado.results == find(consulta)
  {
    var filtros := BuildFiltros(q, number);
    var take := if Truthy(q.pageSize) then number(q.pageSize.value) else 10;
    var skip := if Truthy(q.page) then (number(q.page.value) - 1) * take else 0;
    var sortBy := if Truthy(q.sort) then q.sort.value else "id";
    var sortOrder := if q.order == Some("desc") then Desc else Asc;
    var total := count(filtros);
    consulta := Consulta(filtros, skip, take, sortBy, sortOrder);
    var tours := find(consulta);
    var page := if q.page.Some? && number(q.page.value) != 0 then number(q.page.value) else 1;
    var totalPages := if take == 0 then None else Some(CeilDiv(total, take));
    listado := Listado(total, page, take, totalPages, tours);
  }

  // ---------------------------------------------------------------------------------------------
  // getTourById.
  // ---------------------------------------------------------------------------------------------

  /** The author of a review as the query selects it: only the name. */
  datatype Autor = Autor(nombre: Option<string>)

  /** A review row with its author included. */
  datatype ResenaFila = ResenaFila(id: int, usuario: Option<Autor>, comentario: string, puntuacion: int, creadoEn: int)

  /** A review as the front end receives it. */
  datatype ResenaVista = ResenaVista(id: int, usuarioNombre: string, comentario: string, puntuacion: int, creadoEn: int)

  const NombrePorDefecto: string := "Viajero"

  /** `r.usuario?.nombre ?? "Viajero"`. An empty name is kept: `??` only replaces null and undefined. */
  function NombreAutor(r: ResenaFila): (nombre: string)
    ensures r.usuario.Some? && r.usuario.value.nombre.Some? ==> nombre == r.usuario.value.nombre.value
    ensures r.usuario.None? || r.usuario.value.nombre.None? ==> nombre == NombrePorDefecto
  {
    match r.usuario
    case None => NombrePorDefecto
    case Some(autor) => autor.nombre.GetOr(NombrePorDefecto)
  }

  /** One review reshaped: every field carried over, the author replaced by a name. */
  function Vista(r: ResenaFila): (v: ResenaVista)
    ensures v.id == r.id && v.comentario == r.comentario
    ensures v.puntuacion == r.puntuacion && v.creadoEn == r.creadoEn
    ensures v.usuarioNombre == NombreAutor(r)
  {
    ResenaVista(r.id, NombreAutor(r), r.comentario, r.puntuacion, r.creadoEn)
  }

  /** `tour.resenas.map(...)`. */
  function Vistas(rs: seq<ResenaFila>): (vs: seq<ResenaVista>)
    ensures |vs| == |rs|
    ensures forall i :: 0 <= i < |rs| ==> vs[i] == Vista(rs[i])
  {
    if rs == [] then [] else [Vista(rs[0])] + Vistas(rs[1..])
  }

  /** Reshaping works review by review: reshaping two lists one after the other is reshaping their concatenation. */
  lemma VistasAppend(a: seq<ResenaFila>, b: seq<ResenaFila>)
    ensures Vistas(a + b) == Vistas(a) + Vistas(b)
  {
    var lhs, rhs := Vistas(a + b), Vistas(a) + Vistas(b);
    assert |lhs| == |rhs|;
    forall i | 0 <= i < |lhs| ensures lhs[i] == rhs[i] {
      if i < |a| {
        assert (a + b)[i] == a[i];
      } else {
        assert (a + b)[i] == b[i - |a|];
      }
    }
  }

  /** The reviews keep their ids, in the same order: no review is dropped, added or moved. */
  lemma VistasKeepIds(rs: seq<ResenaFila>, i: nat)
    requires i < |rs|
    ensures Vistas(rs)[i].id == rs[i].id
    ensures rs[i].usuario.None? ==> Vistas(rs)[i].usuarioNombre == NombrePorDefecto
  {
  }

  /** The tour with what the query includes: its active departures and its reviews. */
  datatype TourConRelaciones = TourConRelaciones(tour: Tour, salidas: seq<Salida>, resenas: seq<ResenaFila>)

  /** The body of a successful answer. */
  datatype TourDetalle = TourDetalle(
    id: int,
    titulo: string,
    descripcion: string,
    ubicacion: Option<string>,
    precioBase: int,
    cupoMaximo: int,
    salidas: seq<Salida>,
    resenas: seq<ResenaVista>)

  datatype RespuestaTour = NoEncontrado(status: int, message: string) | Encontrado(detalle: TourDetalle)

  /** `getTourById`, given what `findUnique` returned. */
  function GetTourById(found: Option<TourConRelaciones>): (r: RespuestaTour)
    ensures r.NoEncontrado? <==> found.None?
    ensures r.NoEncontrado? ==> r.status == 404 && r.message == "Tour no encontrado"
    ensures r.Encontrado? ==>
              && r.detalle.id == found.value.tour.id
              && r.detalle.titulo == found.value.tour.titulo
              && r.detalle.descripcion == found.value.tour.descripcion
              && r.detalle.ubicacion == found.value.tour.ubicacion
              && r.detalle.precioBase == found.value.tour.precioBase
              && r.detalle.cupoMaximo == found.value.tour.cupoMaximo
              && r.detalle.salidas == found.value.salidas
              && |r.detalle.resenas| == |found.value.resenas|
              && forall i :: 0 <= i < |found.value.resenas| ==>
                   && r.detalle.resenas[i].id == found.value.resenas[i].id
                   && r.detalle.resenas[i].usuarioNombre == NombreAutor(found.value.resenas[i])
                   && r.detalle.resenas[i].comentario == found.value.resenas[i].comentario
    ensures r.Encontrado? ==> r.detalle.resenas == Vistas(found.value.resenas)
  {
    match found
    case None => NoEncontrado(404, "Tour no encontrado")
    case Some(t) =>
      Encontrado(TourDetalle(t.tour.id, t.tour.titulo, t.tour.descripcion, t.tour.ubicacion,
                             t.tour.precioBase, t.tour.cupoMaximo, t.salidas, Vistas(t.resenas)))
  }

  // ---------------------------------------------------------------------------------------------
  // createTourAI.
  // ---------------------------------------------------------------------------------------------

  /** The body of `POST /tours/ai`, as text; `categoriaIds` is a list of ids or missing. */
  datatype TourAIBody = TourAIBody(
    titulo: string,
    ubicacion: Option<string>,
    temporadaInicioMes: string,
    temporadaFinMes: string,
    precioBase: string,
    categoriaIds: Option<seq<int>>,
    cupoMaximo: Option<string>)

  /** The languages a new tour's description is translated into, in this order. */
  const Idiomas: seq<string> := ["en", "fr", "de"]

  /** `cupo_maximo ? Number(cupo_maximo) : 0`. */
  function Cupo(b: TourAIBody, number: string -> int): (cupo: int)
    ensures !Truthy(b.cupoMaximo) ==> cupo == 0
    ensures Truthy(b.cupoMaximo) ==> cupo == number(b.cupoMaximo.value)
  {
    if Truthy(b.cupoMaximo) then number(b.cupoMaximo.value) else 0
  }

  /** The category links created with the tour: none unless a non-empty list was sent. */
  function Categorias(b: TourAIBody): (ids: seq<int>)
    ensures b.categoriaIds.None? ==> ids == []
    ensures b.categoriaIds.Some? ==> ids == b.categoriaIds.value
  {
    if b.categoriaIds.Some? && |b.categoriaIds.value| > 0 then b.categoriaIds.value else []
  }

  /** The season text handed to the generator: `de <inicio> a <fin>`. */
  function TemporadaTexto(b: TourAIBody): (t: string)
    ensures |t| == |b.temporadaInicioMes| + |b.temporadaFinMes| + 6
    ensures t[..3] == "de " && t[3..3 + |b.temporadaInicioMes|] == b.temporadaInicioMes
    ensures t[3 + |b.temporadaInicioMes|..6 + |b.temporadaInicioMes|] == " a "
    ensures t[6 + |b.temporadaInicioMes|..] == b.temporadaFinMes
  {
    "de " + b.temporadaInicioMes + " a " + b.temporadaFinMes
  }

  /** The translation rows created for a tour, one per language of `idiomas`, in that order. */
  function TraduccionesDe(idiomas: seq<string>, descripcion: string, tourId: int,
                          traducir: (string, string) -> string): (ts: seq<Traduccion>)
    ensures |ts| == |idiomas|
    ensures forall i :: 0 <= i < |idiomas| ==>
              ts[i] == Traduccion(idiomas[i], traducir(descripcion, idiomas[i]), tourId)
  {
    if idiomas == [] then []
    else TraduccionesDe(idiomas[..|idiomas| - 1], descripcion, tourId, traducir)
         + [Traduccion(idiomas[|idiomas| - 1], traducir(descripcion, idiomas[|idiomas| - 1]), tourId)]
  }

  /** One more language adds its translation row at the end. */
  lemma TraduccionesStep(idiomas: seq<string>, i: nat, descripcion: string, tourId: int,
                         traducir: (string, string) -> string)
    requires i < |idiomas|
    ensures TraduccionesDe(idiomas[..i + 1], descripcion, tourId, traducir)
            == TraduccionesDe(idiomas[..i], descripcion, tourId, traducir)
               + [Traduccion(idiomas[i], traducir(descripcion, idiomas[i]), tourId)]
  {
    assert idiomas[..i + 1][..i] == idiomas[..i];
  }

  /**
   * `createTourAI`: generates the description, creates the tour, then creates one translation
   * per language. `generar` stands for the description generator, `traducir` for the translator.
   */
  method CreateTourAI(
    db: Database, b: TourAIBody, number: string -> int,
    generar: (string, Option<string>, string) -> string, traducir: (string, string) -> string)
    returns (status: int, tour: Tour)
    requires db.Valid()
    modifies db`tours, db`nextTourId, db`traducciones
    ensures db.Valid()
    ensures status == 201
    ensures tour.id == old(db.nextTourId)
    ensures tour.descripcion == generar(b.titulo, b.ubicacion, TemporadaTexto(b))
    ensures tour.cupoMaximo == Cupo(b, number) && tour.categoriaIds == Categorias(b)
    ensures tour.precioBase == number(b.precioBase)
    ensures tour == Tour(old(db.nextTourId), b.titulo, generar(b.titulo, b.ubicacion, TemporadaTexto(b)),
                         b.ubicacion, number(b.precioBase), number(b.temporadaInicioMes),
                         number(b.temporadaFinMes), Cupo(b, number), Categorias(b))
    ensures db.tours == old(db.tours) + [tour]
    ensures db.traducciones == old(db.traducciones) + TraduccionesDe(Idiomas, tour.descripcion, tour.id, traducir)
  {
    var descripcion := generar(b.titulo, b.ubicacion, "de " + b.temporadaInicioMes + " a " + b.temporadaFinMes);
    var cupo := if Truthy(b.cupoMaximo) then number(b.cupoMaximo.value) else 0;
    var categorias := if b.categoriaIds.Some? && |b.categoriaIds.value| > 0 then b.categoriaIds.value else [];
    tour := db.CreateTour(b.titulo, descripcion, b.ubicacion, number(b.precioBase),
                          number(b.temporadaInicioMes), number(b.temporadaFinMes), cupo, categorias);
    Traducir(db, descripcion, tour.id, traducir);
    status := 201;
  }

  /** The loop of `createTourAI`: one translation of the description per language, in order. */
  method Traducir(db: Database, descripcion: string, tourId: int, traducir: (string, string) -> string)
    requires db.Valid()
    modifies db`traducciones
    ensures db.Valid()
    ensures db.traducciones == old(db.traducciones) + TraduccionesDe(Idiomas, descripcion, tourId, traducir)
  {
    var idiomas := Idiomas;
    ghost var antes := db.traducciones;
    for i := 0 to |idiomas|
      invariant db.Valid()
      invariant db.traducciones == antes + TraduccionesDe(idiomas[..i], descripcion, tourId, traducir)
    {
      var textoTraducido := traducir(descripcion, idiomas[i]);
      TraduccionesStep(idiomas, i, descripcion, tourId, traducir);
      db.CreateTraduccion(idiomas[i], textoTraducido, tourId);
    }
    assert idiomas[..|idiomas|] == Idiomas;
  }

  /** Exactly three translations are created, for English, French and German in that order. */
  lemma ThreeTranslations(descripcion: string, tourId: int, traducir: (string, string) -> string)
    ensures var ts := TraduccionesDe(Idiomas, descripcion, tourId, traducir);
            && |ts| == 3
            && ts[0].idioma == "en" && ts[1].idioma == "fr" && ts[2].idioma == "de"
            && forall i :: 0 <= i < 3 ==> ts[i].tourId == tourId
  {
  }
}
