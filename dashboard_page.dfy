/**
 * The executive dashboard page (frontend/src/app/dashboard/page.tsx): the quick filters over
 * the anomaly list (city, severity, a date window), the page's filter state, and the city with
 * most anomalies shown on its KPI card.
 */
module DashboardPage {
  import opened Wrappers
  import opened Grouping
  import opened Scan
  import opened Anomaly

  /** The city option that switches the city filter off. */
  const ALL_CITIES := "Todas"
  /** `maxCiudad` before any city is counted. */
  const DEFAULT_TOP_CITY := "Bogotá D.C."

  /** The severity filter: `"todas"` or one severity. */
  datatype SeverityChoice = Todas | Only(severity: Severity)

  /** `FiltrosEstado`. An empty date string means that bound is not set. */
  datatype Filtros = Filtros(ciudad: string, severidad: SeverityChoice, fechaDesde: string, fechaHasta: string)

  const INITIAL := Filtros(ALL_CITIES, Todas, "", "")

  /** `new Date(s).getTime()`: milliseconds since the epoch, or None where the result is NaN. */
  type Clock = string -> Option<int>

  /** `x < y` on two `getTime()` results: false as soon as either is NaN. */
  predicate Before(x: Option<int>, y: Option<int>) {
    x.Some? && y.Some? && x.value < y.value
  }

  predicate CityMatches(f: Filtros, a: AnomalyRecord) {
    f.ciudad == ALL_CITIES || a.ciudad == f.ciudad
  }

  predicate SeverityMatches(f: Filtros, a: AnomalyRecord) {
    f.severidad.Todas? || a.severidad == f.severidad.severity
  }

  /** The date checks: a set lower bound drops earlier records, a set upper bound later ones. */
  predicate InWindow(f: Filtros, a: AnomalyRecord, time: Clock) {
    var fecha := time(a.fecha);
    && (f.fechaDesde == "" || !Before(fecha, time(f.fechaDesde)))
    && (f.fechaHasta == "" || !Before(time(f.fechaHasta), fecha))
  }

  /** The callback given to `filter`: true unless one of its checks returns false. */
  predicate Keep(f: Filtros, a: AnomalyRecord, time: Clock) {
    CityMatches(f, a) && SeverityMatches(f, a) && InWindow(f, a, time)
  }

  function KeepFn(f: Filtros, time: Clock): AnomalyRecord -> bool {
    a => Keep(f, a, time)
  }

  /** `anomalíasFiltradas`. */
  function Filtered(anomalias: seq<AnomalyRecord>, f: Filtros, time: Clock): (r: seq<AnomalyRecord>)
    ensures |r| <= |anomalias|
  {
    Filter(anomalias, KeepFn(f, time))
  }

  /**
   * The filtered list keeps the order of the records, and holds each record that passes every
   * check as often as the list does, and no other.
   */
  lemma FilteredSpec(anomalias: seq<AnomalyRecord>, f: Filtros, time: Clock)
    ensures var r := Filtered(anomalias, f, time);
      && Subsequence(r, anomalias)
      && forall a :: multiset(r)[a] == if Keep(f, a, time) then multiset(anomalias)[a] else 0
  {
    FilterSpec(anomalias, KeepFn(f, time));
  }

  /** A record is shown exactly when it is in the list and passes every check. */
  lemma FilteredMembers(anomalias: seq<AnomalyRecord>, f: Filtros, time: Clock, a: AnomalyRecord)
    ensures a in Filtered(anomalias, f, time) <==> a in anomalias && Keep(f, a, time)
  {
    FilterMembers(anomalias, KeepFn(f, time), a);
  }

  /** With the filters the page starts with, every record is shown, in its order. */
  lemma InitialShowsAll(anomalias: seq<AnomalyRecord>, time: Clock)
    ensures Filtered(anomalias, INITIAL, time) == anomalias
  {
    FilterAll(anomalias, KeepFn(INITIAL, time));
  }

  /**
   * With both bounds set and every date valid, a record passes the date checks exactly when its
   * date lies in the closed interval between them; an invalid date on either side drops nothing.
   */
  lemma WindowInclusive(f: Filtros, a: AnomalyRecord, time: Clock)
    ensures (f.fechaDesde != "" && f.fechaHasta != "" &&
             time(a.fecha).Some? && time(f.fechaDesde).Some? && time(f.fechaHasta).Some?) ==>
        (InWindow(f, a, time) <==> time(f.fechaDesde).value <= time(a.fecha).value <= time(f.fechaHasta).value)
    ensures time(a.fecha).None? ==> InWindow(f, a, time)
    ensures f.fechaDesde == "" && f.fechaHasta == "" ==> InWindow(f, a, time)
  {
  }

  /**
   * Choosing a city or a severity where "all" was selected, or setting an unset date bound,
   * can only hide records.
   */
  lemma NarrowingHides(f: Filtros, a: AnomalyRecord, time: Clock, c: string, s: Severity, d: string)
    ensures f.ciudad == ALL_CITIES && Keep(f.(ciudad := c), a, time) ==> Keep(f, a, time)
    ensures f.severidad == Todas && Keep(f.(severidad := Only(s)), a, time) ==> Keep(f, a, time)
    ensures f.fechaDesde == "" && Keep(f.(fechaDesde := d), a, time) ==> Keep(f, a, time)
    ensures f.fechaHasta == "" && Keep(f.(fechaHasta := d), a, time) ==> Keep(f, a, time)
  {
  }

  // ---------------------------------------------------------------- top city

  function Ciudades(anomalias: seq<AnomalyRecord>): (cs: seq<string>)
    ensures |cs| == |anomalias|
    ensures forall i | 0 <= i < |cs| :: cs[i] == anomalias[i].ciudad
  {
    seq(|anomalias|, i requires 0 <= i < |anomalias| => anomalias[i].ciudad)
  }

  /** `ciudadTop`: count per city, then the first city with a strictly greater count than all before it. */
  function CiudadTop(anomalias: seq<AnomalyRecord>): string {
    FirstMaxKey(Tally(Ciudades(anomalias)), DEFAULT_TOP_CITY)
  }

  /**
   * "Bogotá D.C." for an empty list; otherwise a city of the list that no city outnumbers, and
   * the first seen among those with that count.
   */
  lemma CiudadTopSpec(anomalias: seq<AnomalyRecord>)
    ensures var cs := Ciudades(anomalias);
      && (anomalias == [] ==> CiudadTop(anomalias) == DEFAULT_TOP_CITY)
      && (anomalias != [] ==> exists j | 0 <= j < |Dedup(cs)| ::
            && Dedup(cs)[j] == CiudadTop(anomalias)
            && (forall c | c in cs :: multiset(cs)[c] <= multiset(cs)[Dedup(cs)[j]])
            && (forall i | 0 <= i < j :: multiset(cs)[Dedup(cs)[i]] < multiset(cs)[Dedup(cs)[j]]))
  {
    FirstMaxOfTally(Ciudades(anomalias), DEFAULT_TOP_CITY);
  }

  /** The top city is a city of some record, unless there are none. */
  lemma CiudadTopOccurs(anomalias: seq<AnomalyRecord>)
    ensures anomalias != [] ==> exists a | a in anomalias :: a.ciudad == CiudadTop(anomalias)
  {
    var cs := Ciudades(anomalias);
    CiudadTopSpec(anomalias);
    DedupSpec(cs);
    if anomalias != [] {
      var j :| 0 <= j < |Dedup(cs)| && Dedup(cs)[j] == CiudadTop(anomalias);
      assert Dedup(cs)[j] in cs;
      var i :| 0 <= i < |cs| && cs[i] == CiudadTop(anomalias);
      assert anomalias[i] in anomalias;
    }
  }

  // ---------------------------------------------------------------- filter state

  /** The page's `filtros` state; each control replaces one field and keeps the others. */
  class FilterState {
    var filtros: Filtros

    constructor()
      ensures filtros == INITIAL
    {
      filtros := INITIAL;
    }

    /** The records the table shows for the current filters. */
    function Shown(anomalias: seq<AnomalyRecord>, time: Clock): (r: seq<AnomalyRecord>)
      reads this
      ensures forall a | a in r :: a in anomalias && Keep(filtros, a, time)
    {
      forall a | a in Filtered(anomalias, filtros, time) ensures a in anomalias && Keep(filtros, a, time) {
        FilteredMembers(anomalias, filtros, time, a);
      }
      Filtered(anomalias, filtros, time)
    }

    /** The city select. */
    method SetCiudad(c: string)
      modifies this
      ensures filtros.ciudad == c
      ensures filtros.severidad == old(filtros.severidad)
      ensures filtros.fechaDesde == old(filtros.fechaDesde) && filtros.fechaHasta == old(filtros.fechaHasta)
    {
      filtros := filtros.(ciudad := c);
    }

    /** The severity buttons. */
    method SetSeveridad(s: SeverityChoice)
      modifies this
      ensures filtros.severidad == s
      ensures filtros.ciudad == old(filtros.ciudad)
      ensures filtros.fechaDesde == old(filtros.fechaDesde) && filtros.fechaHasta == old(filtros.fechaHasta)
    {
      filtros := filtros.(severidad := s);
    }

    /** The "Desde" date input. */
    method SetFechaDesde(d: string)
      modifies this
      ensures filtros.fechaDesde == d
      ensures filtros.ciudad == old(filtros.ciudad) && filtros.severidad == old(filtros.severidad)
      ensures filtros.fechaHasta == old(filtros.fechaHasta)
    {
      filtros := filtros.(fechaDesde := d);
    }

    /** The "Hasta" date input. */
    method SetFechaHasta(d: string)
      modifies this
      ensures filtros.fechaHasta == d
      ensures filtros.ciudad == old(filtros.ciudad) && filtros.severidad == old(filtros.severidad)
      ensures filtros.fechaDesde == old(filtros.fechaDesde)
    {
      filtros := filtros.(fechaHasta := d);
    }
  }

  // ---------------------------------------------------------------- the page's data

  const BOGOTA := "Bogotá D.C."
  const MEDELLIN := "Medellín"
  const CALI := "Cali"
  const BARRANQUILLA := "Barranquilla"

  /** The five sample anomalies the page ships with. */
  const MOCK_ANOMALIAS: seq<AnomalyRecord> := [
    AnomalyRecord("A-2025-0001", BOGOTA, BOGOTA, "Cundinamarca", Alta, "sobrevaloracion",
      "2025-11-20", 980000000.0, 95.0, Pendiente),
    AnomalyRecord("A-2025-0002", MEDELLIN, MEDELLIN, "Antioquia", Media, "flipping",
      "2025-11-19", 650000000.0, 80.0, EnRevision),
    AnomalyRecord("A-2025-0003", CALI, "Santiago de Cali", "Valle del Cauca", Alta, "inconsistencia",
      "2025-11-18", 420000000.0, 70.0, Pendiente),
    AnomalyRecord("A-2025-0004", BARRANQUILLA, BARRANQUILLA, "Atlántico", Baja, "subvaloracion",
      "2025-11-18", 310000000.0, 65.0, Cerrada),
    AnomalyRecord("A-2025-0005", BOGOTA, BOGOTA, "Cundinamarca", Media, "flipping",
      "2025-11-17", 780000000.0, 90.0, EnRevision)
  ]

  /** Bogotá D.C. appears twice among the sample cities and every other city once. */
  lemma MockCityCounts()
    ensures var cs := Ciudades(MOCK_ANOMALIAS);
      && multiset(cs)[BOGOTA] == 2
      && forall x | x in cs && x != BOGOTA :: multiset(cs)[x] == 1
  {
    assert Ciudades(MOCK_ANOMALIAS) == [BOGOTA, MEDELLIN, CALI, BARRANQUILLA, BOGOTA];
    OneTwice(BOGOTA, MEDELLIN, CALI, BARRANQUILLA);
  }

  /** In `[b, m, c, q, b]` with four different names, `b` occurs twice and each other name once. */
  lemma OneTwice(b: string, m: string, c: string, q: string)
    requires b != m && b != c && b != q && m != c && m != q && c != q
    ensures multiset([b, m, c, q, b])[b] == 2
    ensures forall x | x in [b, m, c, q, b] && x != b :: multiset([b, m, c, q, b])[x] == 1
  {
    var ms := multiset([b, m, c, q, b]);
    assert ms == multiset{b, m, c, q, b};
    assert ms[b] == 2;
    forall x | x in [b, m, c, q, b] && x != b ensures ms[x] == 1 {
      assert x == m || x == c || x == q;
    }
  }

  /** On the sample data the KPI card names Bogotá D.C., the only city with two anomalies. */
  lemma MockTopCity()
    ensures CiudadTop(MOCK_ANOMALIAS) == BOGOTA
  {
    var cs := Ciudades(MOCK_ANOMALIAS);
    MockCityCounts();
    CiudadTopSpec(MOCK_ANOMALIAS);
    DedupSpec(cs);
    var j :| 0 <= j < |Dedup(cs)| && Dedup(cs)[j] == CiudadTop(MOCK_ANOMALIAS)
      && multiset(cs)[BOGOTA] <= multiset(cs)[Dedup(cs)[j]];
    assert Dedup(cs)[j] in cs;
  }
}
