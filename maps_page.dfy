/**
 * The interactive map page (frontend/src/app/maps/page.tsx): it fetches the map data once with
 * the default department filter and narrows the points on the client by a city search text,
 * a severity and an anomaly type; the legend shows the server's totals beside the number of
 * points left.
 */
module MapsPage {
  import opened Wrappers
  import opened Text
  import opened Csv
  import opened Scan
  import opened Anomaly
  import opened MapData

  /** The option of the severity and type selects that switches that filter off. */
  const ALL := "todas"
  /** The department filter `getMapData()` runs with when called without one. */
  const DEFAULT_DEPARTMENT := "todos"

  /** The page's `ciudad`, `severidad` and `tipo` state. */
  datatype PageFilters = PageFilters(ciudad: string, severidad: string, tipo: string)

  const INITIAL := PageFilters("", ALL, ALL)

  /** `p.municipio.toLowerCase().includes(term) || p.departamento.toLowerCase().includes(term)`. */
  predicate CityHit(p: MapPoint, term: string) {
    Contains(ToLower(p.municipio), term) || Contains(ToLower(p.departamento), term)
  }

  predicate SeverityHit(p: MapPoint, severidad: string) {
    SeverityName(p.severity) == severidad
  }

  /** `p.type.includes(tipo.toLowerCase())`: only the search text is lower-cased. */
  predicate TipoHit(p: MapPoint, tipo: string) {
    Contains(p.tipo, ToLower(tipo))
  }

  function ByCity(points: seq<MapPoint>, ciudad: string): seq<MapPoint> {
    if ciudad == "" then points else Filter(points, p => CityHit(p, ToLower(ciudad)))
  }

  function BySeverity(points: seq<MapPoint>, severidad: string): seq<MapPoint> {
    if severidad == ALL then points else Filter(points, p => SeverityHit(p, severidad))
  }

  function ByTipo(points: seq<MapPoint>, tipo: string): seq<MapPoint> {
    if tipo == ALL then points else Filter(points, p => TipoHit(p, tipo))
  }

  /** `filteredPoints`: the three filters applied in turn, each only when it is set. */
  function FilteredPoints(points: seq<MapPoint>, f: PageFilters): (r: seq<MapPoint>)
    ensures |r| <= |points|
  {
    ByTipo(BySeverity(ByCity(points, f.ciudad), f.severidad), f.tipo)
  }

  /** What a point must satisfy to stay on the map. */
  predicate Shows(f: PageFilters, p: MapPoint) {
    && (f.ciudad == "" || CityHit(p, ToLower(f.ciudad)))
    && (f.severidad == ALL || SeverityHit(p, f.severidad))
    && (f.tipo == ALL || TipoHit(p, f.tipo))
  }

  function ShowsFn(f: PageFilters): MapPoint -> bool {
    p => Shows(f, p)
  }

  /** An unset filter removes nothing. */
  lemma NoFilter(points: seq<MapPoint>, keep: MapPoint -> bool)
    requires forall p :: keep(p)
    ensures Filter(points, keep) == points
  {
    FilterAll(points, keep);
  }

  /** The chain of filters is one filter by `Shows`. */
  lemma FilteredPointsIsOneFilter(points: seq<MapPoint>, f: PageFilters)
    ensures FilteredPoints(points, f) == Filter(points, ShowsFn(f))
  {
    var city: MapPoint -> bool := p => f.ciudad == "" || CityHit(p, ToLower(f.ciudad));
    var sev: MapPoint -> bool := p => f.severidad == ALL || SeverityHit(p, f.severidad);
    var tipo: MapPoint -> bool := p => f.tipo == ALL || TipoHit(p, f.tipo);
    var citySev: MapPoint -> bool := p => city(p) && sev(p);
    if f.ciudad == "" { NoFilter(points, city); } else {
      FilterExt(points, p => CityHit(p, ToLower(f.ciudad)), city);
    }
    var c := ByCity(points, f.ciudad);
    if f.severidad == ALL { NoFilter(c, sev); } else {
      FilterExt(c, p => SeverityHit(p, f.severidad), sev);
    }
    FilterFuse(points, city, sev, citySev);
    var cs := BySeverity(c, f.severidad);
    if f.tipo == ALL { NoFilter(cs, tipo); } else {
      FilterExt(cs, p => TipoHit(p, f.tipo), tipo);
    }
    FilterFuse(points, citySev, tipo, ShowsFn(f));
  }

  /**
   * The points left keep the server's order, and hold each point that passes every set filter
   * as often as the data does, and no other.
   */
  lemma FilteredPointsSpec(points: seq<MapPoint>, f: PageFilters)
    ensures var r := FilteredPoints(points, f);
      && Subsequence(r, points)
      && forall p :: multiset(r)[p] == if Shows(f, p) then multiset(points)[p] else 0
  {
    FilteredPointsIsOneFilter(points, f);
    FilterSpec(points, ShowsFn(f));
  }

  /** A point stays on the map exactly when it is in the data and passes every set filter. */
  lemma FilteredPointsMembers(points: seq<MapPoint>, f: PageFilters, p: MapPoint)
    ensures p in FilteredPoints(points, f) <==> p in points && Shows(f, p)
  {
    FilteredPointsIsOneFilter(points, f);
    FilterMembers(points, ShowsFn(f), p);
  }

  /** With the page's initial filters every point is shown. */
  lemma InitialShowsAll(points: seq<MapPoint>)
    ensures FilteredPoints(points, INITIAL) == points
  {
  }

  /**
   * The city search matches the lower-cased text inside the lower-cased municipality or
   * department; the severity is compared exactly; the type must contain the lower-cased text.
   */
  lemma ShowsSpec(f: PageFilters, p: MapPoint)
    ensures f.ciudad != "" && f.severidad == ALL && f.tipo == ALL ==>
      (Shows(f, p) <==> Contains(ToLower(p.municipio), ToLower(f.ciudad)) || Contains(ToLower(p.departamento), ToLower(f.ciudad)))
    ensures f.ciudad == "" && f.severidad != ALL && f.tipo == ALL ==>
      (Shows(f, p) <==> SeverityName(p.severity) == f.severidad)
    ensures f.ciudad == "" && f.severidad == ALL && f.tipo != ALL ==>
      (Shows(f, p) <==> Contains(p.tipo, ToLower(f.tipo)))
  {
  }

  // ---------------------------------------------------------------- the fetched data and the legend

  /** `getMapData()`: the server aggregation with its default department filter. */
  function Fetched(file: Option<string>, parse: Parser, rand: nat -> real): MapResult {
    MapDataFor(file, DEFAULT_DEPARTMENT, parse, rand)
  }

  /** `<MapLegend stats={mapData.stats} filteredCount={filteredPoints.length} />`. */
  datatype Legend = Legend(stats: Stats, filteredCount: nat)

  function LegendFor(data: MapResult, f: PageFilters): Legend {
    Legend(data.stats, |FilteredPoints(data.points, f)|)
  }

  /**
   * The legend's totals are the server's
   * whatever the client filters, and the count of points shown never exceeds them.
   */
  lemma LegendSpec(file: Option<string>, parse: Parser, rand: nat -> real, f: PageFilters)
    ensures var data := Fetched(file, parse, rand); var legend := LegendFor(data, f);
      && legend.stats == data.stats
      && legend.filteredCount <= legend.stats.total
      && (f == INITIAL ==> legend.filteredCount == legend.stats.total)
  {
    MapDataSpec(file, DEFAULT_DEPARTMENT, parse, rand);
  }

  /** The default filter "todos" selects every department. */
  lemma DefaultKeepsAll()
    ensures !IsFiltering(DEFAULT_DEPARTMENT)
  {
    var u := ToUpper(DEFAULT_DEPARTMENT);
    assert u[0] == 'T' && u[1] == 'O' && u[2] == 'D' && u[3] == 'O' && u[4] == 'S';
    assert u == ALL_DEPARTMENTS;
    TrimUnpadded(u);
  }
}
