/**
 * Per-tour reservation statistics for the admin dashboard (`getReservasPorTour`): one line per
 * tour that has reservations, with the number of reservations, the number of people and the
 * number of reservations in each status.
 */
module Stats {
  import opened Common
  import opened Store
  import Text

  /** One entry of the result: the counters of one tour. */
  datatype TourStats = TourStats(
    tourId: int,
    titulo: string,
    ubicacion: Option<string>,
    totalReservas: nat,
    totalPersonas: int,
    pendientes: nat,
    confirmadas: nat,
    canceladas: nat)

  const Pendiente: string := "pendiente"
  const Confirmada: string := "confirmada"
  const Cancelada: string := "cancelada"

  /**
   * `mapa`, a JavaScript `Map` from tour id to counters. `keys` is its iteration order (the
   * order in which keys were first set), `entries` its contents.
   */
  datatype StatsMap = StatsMap(keys: seq<int>, entries: map<int, TourStats>)

  predicate WellFormed(m: StatsMap) {
    && (forall i, j :: 0 <= i < j < |m.keys| ==> m.keys[i] != m.keys[j])
    && (forall k :: k in m.entries ==> k in m.keys)
    && (forall i :: 0 <= i < |m.keys| ==> m.keys[i] in m.entries)
  }

  /** `mapa.set(k, v)`: a new key goes last in the iteration order, a known key keeps its place. */
  function Set(m: StatsMap, k: int, v: TourStats): (r: StatsMap)
    requires WellFormed(m)
    ensures WellFormed(r)
    ensures r.entries == m.entries[k := v]
    ensures r.keys == if k in m.entries then m.keys else m.keys + [k]
  {
    StatsMap(if k in m.entries then m.keys else m.keys + [k], m.entries[k := v])
  }

  /** `Array.from(mapa.values())`: the entries in iteration order. */
  function Values(m: StatsMap): (vs: seq<TourStats>)
    requires WellFormed(m)
    ensures |vs| == |m.keys|
    ensures forall i :: 0 <= i < |vs| ==> vs[i] == m.entries[m.keys[i]]
  {
    seq(|m.keys|, i requires 0 <= i < |m.keys| => m.entries[m.keys[i]])
  }

  /** `.filter(t => t.total_reservas > 0)`: keeps exactly the entries with reservations, in order. */
  function KeepActive(vs: seq<TourStats>): (r: seq<TourStats>)
    ensures |r| <= |vs|
    ensures forall i :: 0 <= i < |r| ==> r[i].totalReservas > 0
  {
    if vs == [] then []
    else (if vs[0].totalReservas > 0 then [vs[0]] else []) + KeepActive(vs[1..])
  }

  /** An entry survives the filter exactly when it was there and has at least one reservation. */
  lemma {:induction false} KeepActiveMembers(vs: seq<TourStats>, s: TourStats)
    ensures s in KeepActive(vs) <==> s in vs && s.totalReservas > 0
  {
    if vs != [] {
      KeepActiveMembers(vs[1..], s);
      assert vs == [vs[0]] + vs[1..];
    }
  }

  // ---------------------------------------------------------------------------------------------
  // The specification: what each tour's counters must end up as.
  // ---------------------------------------------------------------------------------------------

  /** The ids of the tours, in order. */
  function Ids(tours: seq<Tour>): (ids: seq<int>)
    ensures |ids| == |tours|
    ensures forall i :: 0 <= i < |tours| ==> ids[i] == tours[i].id
  {
    if tours == [] then [] else [tours[0].id] + Ids(tours[1..])
  }

  /** The entry a tour starts with: its title and place, every counter at zero. */
  function Zeroed(t: Tour): (s: TourStats)
    ensures s.tourId == t.id && s.titulo == t.titulo && s.ubicacion == t.ubicacion
    ensures s.totalReservas == 0 && s.totalPersonas == 0
    ensures s.pendientes == 0 && s.confirmadas == 0 && s.canceladas == 0
  {
    TourStats(t.id, t.titulo, t.ubicacion, 0, 0, 0, 0, 0)
  }

  /**
   * Does reservation `r` count for the tour with id `k`? A null or zero `tour_id` is skipped
   * (`!r.tour_id`), whatever tours there are.
   */
  predicate CountsFor(r: Reserva, k: int) {
    r.tourId == Some(k) && k != 0
  }

  /** Does `r` count for one of `tours` at all? */
  predicate Known(r: Reserva, tours: seq<Tour>) {
    r.tourId.Some? && r.tourId.value != 0 && r.tourId.value in Ids(tours)
  }

  /** `Number(r.numero_personas ?? 0)`. */
  function Personas(r: Reserva): (n: int)
    ensures r.numeroPersonas.None? ==> n == 0
    ensures r.numeroPersonas.Some? ==> n == r.numeroPersonas.value
  {
    r.numeroPersonas.GetOr(0)
  }

  /** `(r.estado || "").toLowerCase()`. */
  function Estado(r: Reserva): (e: string)
    ensures !Truthy(r.estado) ==> e == ""
    ensures Truthy(r.estado) ==> |e| == |r.estado.value|
    ensures forall i :: 0 <= i < |e| ==> !Text.IsUpperAscii(e[i])
  {
    Text.Lower(r.estado.GetOr(""))
  }

  /** How many of `rs` count for tour `k`. */
  function Tally(rs: seq<Reserva>, k: int): nat {
    if rs == [] then 0
    else Tally(rs[..|rs| - 1], k) + (if CountsFor(rs[|rs| - 1], k) then 1 else 0)
  }

  /** How many people the reservations that count for tour `k` bring. */
  function PersonasFor(rs: seq<Reserva>, k: int): int {
    if rs == [] then 0
    else PersonasFor(rs[..|rs| - 1], k) + (if CountsFor(rs[|rs| - 1], k) then Personas(rs[|rs| - 1]) else 0)
  }

  /** How many of the reservations that count for tour `k` are in status `estado` (lower-cased). */
  function EstadoTally(rs: seq<Reserva>, k: int, estado: string): nat {
    if rs == [] then 0
    else EstadoTally(rs[..|rs| - 1], k, estado)
         + (if CountsFor(rs[|rs| - 1], k) && Estado(rs[|rs| - 1]) == estado then 1 else 0)
  }

  /** A reservation is in at most one of the three statuses, so their counts never exceed the total. */
  lemma {:induction false} StatusWithinTotal(rs: seq<Reserva>, k: int)
    ensures EstadoTally(rs, k, Pendiente) + EstadoTally(rs, k, Confirmada) + EstadoTally(rs, k, Cancelada)
            <= Tally(rs, k)
  {
    if rs != [] {
      StatusWithinTotal(rs[..|rs| - 1], k);
    }
  }

  /** The counters tour `t` must end with after all of `rs`. */
  function Summary(t: Tour, rs: seq<Reserva>): (s: TourStats)
    ensures s.pendientes + s.confirmadas + s.canceladas <= s.totalReservas
  {
    StatusWithinTotal(rs, t.id);
    TourStats(t.id, t.titulo, t.ubicacion, Tally(rs, t.id), PersonasFor(rs, t.id),
              EstadoTally(rs, t.id, Pendiente), EstadoTally(rs, t.id, Confirmada),
              EstadoTally(rs, t.id, Cancelada))
  }

  /** The summary of every tour, in the tours' order. */
  function Summaries(tours: seq<Tour>, rs: seq<Reserva>): (ss: seq<TourStats>)
    ensures |ss| == |tours|
    ensures forall i :: 0 <= i < |tours| ==> ss[i] == Summary(tours[i], rs)
  {
    if tours == [] then [] else [Summary(tours[0], rs)] + Summaries(tours[1..], rs)
  }

  /** What the endpoint must answer: the summaries of the tours that have reservations. */
  function Expected(tours: seq<Tour>, rs: seq<Reserva>): (lines: seq<TourStats>)
    ensures |lines| <= |tours|
    ensures forall s :: s in lines ==> s.totalReservas > 0
  {
    KeepActive(Summaries(tours, rs))
  }

  // ---------------------------------------------------------------------------------------------
  // The handler, phase by phase.
  // ---------------------------------------------------------------------------------------------

  /** Step 3: one zeroed entry per tour, in the tours' order. */
  method BuildBase(tours: seq<Tour>) returns (mapa: StatsMap)
    requires UniqueTourIds(tours)
    ensures WellFormed(mapa)
    ensures mapa.keys == Ids(tours)
    ensures forall i :: 0 <= i < |tours| ==>
              tours[i].id in mapa.entries && mapa.entries[tours[i].id] == Zeroed(tours[i])
  {
    mapa := StatsMap([], map[]);
    for i := 0 to |tours|
      invariant WellFormed(mapa)
      invariant mapa.keys == Ids(tours[..i])
      invariant forall j :: 0 <= j < i ==>
                  tours[j].id in mapa.entries && mapa.entries[tours[j].id] == Zeroed(tours[j])
    {
      BaseStep(tours, mapa, i);
      mapa := Set(mapa, tours[i].id, Zeroed(tours[i]));
    }
    assert tours[..|tours|] == tours;
  }

  /** Setting the next tour's zeroed entry extends the map by that tour, at the end. */
  lemma BaseStep(tours: seq<Tour>, mapa: StatsMap, i: nat)
    requires UniqueTourIds(tours) && i < |tours|
    requires WellFormed(mapa) && mapa.keys == Ids(tours[..i])
    requires forall j :: 0 <= j < i ==>
               tours[j].id in mapa.entries && mapa.entries[tours[j].id] == Zeroed(tours[j])
    ensures var next := Set(mapa, tours[i].id, Zeroed(tours[i]));
            && WellFormed(next) && next.keys == Ids(tours[..i + 1])
            && forall j :: 0 <= j < i + 1 ==>
                 tours[j].id in next.entries && next.entries[tours[j].id] == Zeroed(tours[j])
  {
    assert tours[i].id !in mapa.keys;
    IdsOfExtension(tours, i);
  }

  lemma IdsOfExtension(tours: seq<Tour>, i: nat)
    requires i < |tours|
    ensures Ids(tours[..i + 1]) == Ids(tours[..i]) + [tours[i].id]
  {
    var a, b := Ids(tours[..i + 1]), Ids(tours[..i]) + [tours[i].id];
    assert |a| == |b|;
    forall j | 0 <= j < |a| ensures a[j] == b[j] {
    }
  }

  /** A reservation that does not count for `t` leaves its summary as it was. */
  lemma UncountedStep(t: Tour, rs: seq<Reserva>, r: Reserva)
    requires !CountsFor(r, t.id)
    ensures Summary(t, rs + [r]) == Summary(t, rs)
  {
    assert (rs + [r])[..|rs|] == rs;
  }

  /**
   * `after` is `before` with one reservation `r` counted: one more reservation, its people (null
   * as 0), and one more in the status it has after lower-casing, if it is one of the three.
   */
  predicate CountedOnce(before: TourStats, after: TourStats, r: Reserva) {
    && after.tourId == before.tourId && after.titulo == before.titulo && after.ubicacion == before.ubicacion
    && after.totalReservas == before.totalReservas + 1
    && after.totalPersonas == before.totalPersonas + Personas(r)
    && after.pendientes == before.pendientes + (if Estado(r) == Pendiente then 1 else 0)
    && after.confirmadas == before.confirmadas + (if Estado(r) == Confirmada then 1 else 0)
    && after.canceladas == before.canceladas + (if Estado(r) == Cancelada then 1 else 0)
  }

  /** A reservation that counts for `t` is counted once in its summary. */
  lemma CountedStep(t: Tour, rs: seq<Reserva>, r: Reserva)
    requires CountsFor(r, t.id)
    ensures CountedOnce(Summary(t, rs), Summary(t, rs + [r]), r)
  {
    assert (rs + [r])[..|rs|] == rs;
  }

  /** The loop body for a reservation that counts: bump the counters of its tour's entry. */
  method Count(stats: TourStats, r: Reserva) returns (bumped: TourStats)
    ensures CountedOnce(stats, bumped, r)
  {
    bumped := stats;
    var personas := r.numeroPersonas.GetOr(0);
    var estado := Text.Lower(r.estado.GetOr(""));
    bumped := bumped.(totalReservas := bumped.totalReservas + 1,
                      totalPersonas := bumped.totalPersonas + personas);
    if estado == Pendiente {
      bumped := bumped.(pendientes := bumped.pendientes + 1);
    } else if estado == Confirmada {
      bumped := bumped.(confirmadas := bumped.confirmadas + 1);
    } else if estado == Cancelada {
      bumped := bumped.(canceladas := bumped.canceladas + 1);
    }
  }

  /** Every tour's entry holds its summary over `rs`. */
  predicate Tracks(tours: seq<Tour>, mapa: StatsMap, rs: seq<Reserva>) {
    forall i :: 0 <= i < |tours| ==>
      tours[i].id in mapa.entries && mapa.entries[tours[i].id] == Summary(tours[i], rs)
  }

  /** A skipped reservation (falsy `tour_id`, or no entry for it) keeps every entry right. */
  lemma SkipKeepsTracking(tours: seq<Tour>, mapa: StatsMap, rs: seq<Reserva>, r: Reserva)
    requires Tracks(tours, mapa, rs)
    requires r.tourId.None? || r.tourId.value == 0 || r.tourId.value !in mapa.entries
    ensures Tracks(tours, mapa, rs + [r])
  {
    forall i | 0 <= i < |tours| ensures mapa.entries[tours[i].id] == Summary(tours[i], rs + [r]) {
      UncountedStep(tours[i], rs, r);
    }
  }

  /** Updating the entry of `r`'s tour as the loop body does keeps every entry right. */
  lemma CountKeepsTracking(tours: seq<Tour>, mapa: StatsMap, rs: seq<Reserva>, r: Reserva, stats: TourStats)
    requires Tracks(tours, mapa, rs)
    requires r.tourId.Some? && r.tourId.value != 0 && r.tourId.value in mapa.entries
    requires CountedOnce(mapa.entries[r.tourId.value], stats, r)
    ensures Tracks(tours, mapa.(entries := mapa.entries[r.tourId.value := stats]), rs + [r])
  {
    var id := r.tourId.value;
    var after := mapa.(entries := mapa.entries[id := stats]);
    forall i | 0 <= i < |tours| ensures after.entries[tours[i].id] == Summary(tours[i], rs + [r]) {
      if tours[i].id == id {
        CountedStep(tours[i], rs, r);
      } else {
        UncountedStep(tours[i], rs, r);
      }
    }
  }

  /** Before any reservation, the zeroed entries are the summaries of no reservations. */
  lemma TracksAtStart(tours: seq<Tour>, base: StatsMap)
    requires forall i :: 0 <= i < |tours| ==>
               tours[i].id in base.entries && base.entries[tours[i].id] == Zeroed(tours[i])
    ensures Tracks(tours, base, [])
  {
    forall i | 0 <= i < |tours|
      ensures tours[i].id in base.entries && base.entries[tours[i].id] == Summary(tours[i], [])
    {
      SummaryOfNone(tours[i]);
    }
  }

  /** Before any reservation, a tour's summary is its zeroed entry. */
  lemma SummaryOfNone(t: Tour)
    ensures Summary(t, []) == Zeroed(t)
  {
    assert Tally([], t.id) == 0 && PersonasFor([], t.id) == 0;
    assert EstadoTally([], t.id, Pendiente) == 0 && EstadoTally([], t.id, Confirmada) == 0;
    assert EstadoTally([], t.id, Cancelada) == 0;
  }

  /**
   * One turn of step 4: a reservation with a falsy `tour_id`, or one whose tour has no entry, is
   * skipped; otherwise its tour's counters are bumped.
   */
  method AddOne(tours: seq<Tour>, mapa: StatsMap, reservas: seq<Reserva>, n: nat) returns (next: StatsMap)
    requires n < |reservas|
    requires WellFormed(mapa) && Tracks(tours, mapa, reservas[..n])
    ensures WellFormed(next) && next.keys == mapa.keys
    ensures Tracks(tours, next, reservas[..n + 1])
  {
    var r, rs := reservas[n], reservas[..n];
    assert reservas[..n + 1] == rs + [r];
    if r.tourId.None? || r.tourId.value == 0 {
      SkipKeepsTracking(tours, mapa, rs, r);
      return mapa;
    }
    var id := r.tourId.value;
    if id !in mapa.entries {
      SkipKeepsTracking(tours, mapa, rs, r);
      return mapa;
    }
    var stats := Count(mapa.entries[id], r);
    CountKeepsTracking(tours, mapa, rs, r, stats);
    next := Set(mapa, id, stats);
  }

  /** Step 4: walk the reservations and add each one to its tour's entry. */
  method AddReservas(tours: seq<Tour>, reservas: seq<Reserva>, base: StatsMap) returns (mapa: StatsMap)
    requires WellFormed(base) && base.keys == Ids(tours)
    requires forall i :: 0 <= i < |tours| ==>
               tours[i].id in base.entries && base.entries[tours[i].id] == Zeroed(tours[i])
    ensures WellFormed(mapa) && mapa.keys == base.keys
    ensures Tracks(tours, mapa, reservas)
  {
    mapa := base;
    TracksAtStart(tours, base);
    assert reservas[..0] == [];
    for n := 0 to |reservas|
      invariant WellFormed(mapa) && mapa.keys == base.keys
      invariant Tracks(tours, mapa, reservas[..n])
    {
      mapa := AddOne(tours, mapa, reservas, n);
    }
    assert reservas[..|reservas|] == reservas;
  }

  /**
   * `getReservasPorTour`, given what the two queries return: the reservations
   * (`tour_id`, `numero_personas`, `estado`) and the tours (`id`, `titulo`, `ubicacion`).
   */
  method ReservasPorTour(tours: seq<Tour>, reservas: seq<Reserva>) returns (resultado: seq<TourStats>)
    requires UniqueTourIds(tours)
    ensures resultado == Expected(tours, reservas)
  {
    var mapa := BuildBase(tours);
    mapa := AddReservas(tours, reservas, mapa);
    resultado := KeepActive(Values(mapa));
    assert Values(mapa) == Summaries(tours, reservas);
  }

  // ---------------------------------------------------------------------------------------------
  // What the answer means.
  // ---------------------------------------------------------------------------------------------

  /** Every line has at least one reservation and its status counts stay within its total. */
  lemma ExpectedLinesAreActive(tours: seq<Tour>, rs: seq<Reserva>, s: TourStats)
    requires s in Expected(tours, rs)
    ensures s.totalReservas > 0
    ensures s.pendientes + s.confirmadas + s.canceladas <= s.totalReservas
  {
    KeepActiveMembers(Summaries(tours, rs), s);
    var i :| 0 <= i < |tours| && Summaries(tours, rs)[i] == s;
  }

  /** A tour has a line exactly when some reservation counts for it. */
  lemma ExpectedHasTour(tours: seq<Tour>, rs: seq<Reserva>, i: nat)
    requires i < |tours|
    ensures Summary(tours[i], rs) in Expected(tours, rs) <==> Tally(rs, tours[i].id) > 0
  {
    assert Summaries(tours, rs)[i] == Summary(tours[i], rs);
    KeepActiveMembers(Summaries(tours, rs), Summary(tours[i], rs));
  }

  /** Filtering a list with one more entry in front. */
  lemma KeepActiveCons(v: TourStats, vs: seq<TourStats>)
    ensures KeepActive([v] + vs) == (if v.totalReservas > 0 then [v] else []) + KeepActive(vs)
  {
    assert ([v] + vs)[1..] == vs;
  }

  /** Filtering works piece by piece: what survives from `a + b` is what survives from `a`, then from `b`. */
  lemma {:induction false} KeepActiveAppend(a: seq<TourStats>, b: seq<TourStats>)
    ensures KeepActive(a + b) == KeepActive(a) + KeepActive(b)
  {
    if a == [] {
      assert a + b == b;
    } else {
      var tail := a[1..];
      var head := if a[0].totalReservas > 0 then [a[0]] else [];
      assert a == [a[0]] + tail;
      assert a + b == [a[0]] + (tail + b);
      KeepActiveAppend(tail, b);
      KeepActiveCons(a[0], tail + b);
      KeepActiveCons(a[0], tail);
      calc {
        KeepActive(a + b);
        head + KeepActive(tail + b);
        head + (KeepActive(tail) + KeepActive(b));
        (head + KeepActive(tail)) + KeepActive(b);
        KeepActive(a) + KeepActive(b);
      }
    }
  }

  /**
   * The lines follow the order of the tours: cutting the tour list anywhere, the lines of the
   * first part come before the lines of the second.
   */
  lemma ExpectedInTourOrder(tours: seq<Tour>, rs: seq<Reserva>, k: nat)
    requires k <= |tours|
    ensures Expected(tours, rs) == Expected(tours[..k], rs) + Expected(tours[k..], rs)
  {
    assert Summaries(tours, rs) == Summaries(tours[..k], rs) + Summaries(tours[k..], rs);
    KeepActiveAppend(Summaries(tours[..k], rs), Summaries(tours[k..], rs));
  }

  /** A reservation that counts for no tour (null or zero `tour_id`, or an unknown tour) changes nothing. */
  lemma {:induction false} OrphanChangesNothing(tours: seq<Tour>, rs: seq<Reserva>, r: Reserva)
    requires !Known(r, tours)
    ensures Summaries(tours, rs + [r]) == Summaries(tours, rs)
    ensures Expected(tours, rs + [r]) == Expected(tours, rs)
  {
    if tours != [] {
      assert tours[0].id in Ids(tours);
      UncountedStep(tours[0], rs, r);
      assert Ids(tours) == [tours[0].id] + Ids(tours[1..]);
      OrphanChangesNothing(tours[1..], rs, r);
    }
  }

  // Conservation: the totals of the answer add up to the reservations that name a known tour.

  function SumTotal(ss: seq<TourStats>): int {
    if ss == [] then 0 else ss[0].totalReservas + SumTotal(ss[1..])
  }

  /** How many of `rs` count for one of `tours`. */
  function KnownCount(rs: seq<Reserva>, tours: seq<Tour>): nat {
    if rs == [] then 0
    else KnownCount(rs[..|rs| - 1], tours) + (if Known(rs[|rs| - 1], tours) then 1 else 0)
  }

  /** How many of `tours` reservation `r` counts for. */
  function Hits(tours: seq<Tour>, r: Reserva): nat {
    if tours == [] then 0 else (if CountsFor(r, tours[0].id) then 1 else 0) + Hits(tours[1..], r)
  }

  lemma {:induction false} KeepActiveSum(vs: seq<TourStats>)
    ensures SumTotal(KeepActive(vs)) == SumTotal(vs)
  {
    if vs != [] {
      KeepActiveSum(vs[1..]);
      if vs[0].totalReservas > 0 {
        assert KeepActive(vs) == [vs[0]] + KeepActive(vs[1..]);
      } else {
        assert KeepActive(vs) == KeepActive(vs[1..]);
      }
    }
  }

  /** With distinct ids a reservation counts for one tour if its tour is known, for none otherwise. */
  lemma {:induction false} HitsKnown(tours: seq<Tour>, r: Reserva)
    requires UniqueTourIds(tours)
    ensures Hits(tours, r) == if Known(r, tours) then 1 else 0
  {
    if tours != [] {
      var rest := tours[1..];
      assert UniqueTourIds(rest) by {
        forall a, b | 0 <= a < b < |rest| ensures rest[a].id != rest[b].id {
          assert rest[a] == tours[a + 1] && rest[b] == tours[b + 1];
        }
      }
      HitsKnown(rest, r);
      assert Ids(tours) == [tours[0].id] + Ids(rest);
      if CountsFor(r, tours[0].id) {
        assert tours[0].id !in Ids(rest) by {
          forall a | 0 <= a < |rest| ensures Ids(rest)[a] != tours[0].id {
            assert rest[a] == tours[a + 1];
          }
        }
      }
    }
  }

  lemma {:induction false} SumSummariesStep(tours: seq<Tour>, rs: seq<Reserva>)
    requires rs != []
    ensures SumTotal(Summaries(tours, rs))
            == SumTotal(Summaries(tours, rs[..|rs| - 1])) + Hits(tours, rs[|rs| - 1])
  {
    if tours != [] {
      SumSummariesStep(tours[1..], rs);
    }
  }

  lemma {:induction false} SumSummariesEmpty(tours: seq<Tour>)
    ensures SumTotal(Summaries(tours, [])) == 0
  {
    if tours != [] {
      SumSummariesEmpty(tours[1..]);
    }
  }

  /**
   * Summing `total_reservas` over the answer gives the number of reservations whose `tour_id`
   * names a known tour: none is lost and none is counted twice.
   */
  lemma {:induction false} ExpectedTotal(tours: seq<Tour>, rs: seq<Reserva>)
    requires UniqueTourIds(tours)
    ensures SumTotal(Expected(tours, rs)) == KnownCount(rs, tours)
  {
    KeepActiveSum(Summaries(tours, rs));
    SummariesTotal(tours, rs);
  }

  lemma {:induction false} SummariesTotal(tours: seq<Tour>, rs: seq<Reserva>)
    requires UniqueTourIds(tours)
    ensures SumTotal(Summaries(tours, rs)) == KnownCount(rs, tours)
  {
    if rs == [] {
      SumSummariesEmpty(tours);
    } else {
      SummariesTotal(tours, rs[..|rs| - 1]);
      SumSummariesStep(tours, rs);
      HitsKnown(tours, rs[|rs| - 1]);
    }
  }

  /**
   * Status matching ignores letter case: two reservations that differ only in a status that
   * lower-cases to the same text ("CONFIRMADA" and "confirmada") leave the same summary.
   */
  lemma StatusCaseIgnored(t: Tour, rs: seq<Reserva>, r: Reserva, estado: Option<string>)
    requires Text.Lower(r.estado.GetOr("")) == Text.Lower(estado.GetOr(""))
    ensures Summary(t, rs + [r]) == Summary(t, rs + [r.(estado := estado)])
  {
    var r2 := r.(estado := estado);
    assert Estado(r) == Estado(r2);
    if CountsFor(r, t.id) {
      CountedStep(t, rs, r);
      CountedStep(t, rs, r2);
    } else {
      UncountedStep(t, rs, r);
      UncountedStep(t, rs, r2);
    }
  }
}
